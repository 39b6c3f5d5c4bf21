# Storefront order core, modelled in Dafny

This project models the core of a small e-commerce storefront. A REST
server keeps every record in one string-keyed key-value store. Carts live
under `cart:<user>`, products under `product:<id>`, orders under
`order:<id>`, an owner index under `order-user:<user>:<order>`, payments
under `payment:<id>` and profiles under `user:<user>`. The server's cart,
order, payment, profile and statistics routes read and write that store.
Three browser pages then filter, sort and edit locally what the server
returned.

Layout:

- `results.dfy` (`Results`): `Option` and the route outcome `Outcome` (`Ok` or a 400/403/404 `Code`).
- `seqs.dfy` (`Seqs`): `Array.filter`, summing `reduce`, subsequences, duplicate-free listings.
- `sorting.dfy` (`Sorting`): comparator sort as a stable insertion sort.
- `records.dfy` (`Records`): the stored records, the key conventions, the well-typed store invariant, typed lookups, prefix scans.
- `cart_rules.dfy` (`CartRules`): the edits the three cart routes make to a cart's lines.
- `order_rules.dfy` (`OrderRules`): joining cart lines with live products, the order snapshot, the owner index, the update rule, revenue.
- `payment_rules.dfy` (`PaymentRules`): the masked payment details and the paid order.
- `profile_rules.dfy` (`ProfileRules`): the role- and id-preserving profile merge.
- `server.dfy` (`Server`): class `Store` holds the store map. Each route is a method that reads and reassigns it. Each method is proved against the functions above and keeps `Valid()`.
- `orders_page.dfy`, `cart_page.dfy`, `products_page.dfy`: the pages' pure logic.

Units:

- Money is in integer cents.
- Ratings are in integer tenths of a star.
- Timestamps are integer milliseconds.

What the server enforces, as the code is written:

- **No order-status transition table.** PUT /orders/:id refuses a caller who is neither the owner nor an admin. It also refuses a non-admin who sends a non-empty status other than `cancelled`. Otherwise it merges any submitted fields into the order, `total`, `paymentStatus` and `userId` included. An admin may set any status, even on a delivered or cancelled order.
- **Payment forces `processing`.** POST /payments sets status `processing` whatever the order's status was, a cancelled order included.
- **An owner can hand an order away.** A non-admin owner's PUT may set `userId` to another user (`OrderRules.OwnerRewritesOwner`). The owner-index entry `order-user:<owner>:<order>` is not removed, so the order stays in the former owner's list and the page still offers "Cancel Order" on it, but the server now answers 403 to that cancel (`OrdersPage.RewrittenOwnerCannotCancel`).
- **The page's buttons are its own.** The model proves that the server accepts every forward move offered to an admin and every cancel by the order's owner or an admin. It does not claim that the server refuses moves the page does not offer.

The server has no order-status state machine; the model follows the code, whose permissive behaviour the lemmas `OrderRules.AdminSetsAnyStatus`, `OrderRules.OwnerRewritesTotal`, `OrderRules.OwnerRewritesOwner` and `PaymentRules.PaidCounts` state.

## Model

| member | source | states |
|---|---|---|
| Seqs.Filter | src/pages/Products.tsx:122 | `filter` keeps exactly the elements satisfying the predicate and is never longer than its input |
| Seqs.FilterCount | src/pages/Products.tsx:122 | `filter` keeps every copy of a kept element and no copy of a dropped one |
| Seqs.ReduceIsSum | src/supabase/functions/server/index.tsx:674-679 | the left fold `reduce((acc, x) => acc + f(x), init)` equals `init` plus the sum of the terms |
| Sorting.SortBy | src/pages/Products.tsx:136-147 | the sorted list is a permutation of its input |
| Sorting.SortBySorted | src/pages/Products.tsx:136-147 | for a total preorder, the sort's result is ordered by the comparator |
| Records.KindOfPrefixed | src/supabase/functions/server/index.tsx:374-377 | no two store prefixes start the same key: `order:` and `order-user:` keys are never confused, so a key's prefix decides its record kind |
| Records.PrefixInjective | src/supabase/functions/server/index.tsx:635 | keys built from one prefix are equal only for equal suffixes, so `user:<a>` and `user:<b>` differ for different users |
| Records.KindsOfKeys | src/supabase/functions/server/index.tsx:467-471 | every key the routes build (cart, product, order, owner index, payment, profile) has the record kind its prefix names |
| Records.ScanCount | src/supabase/functions/server/index.tsx:682-687 | a prefix scan returns one value per stored key with that prefix, so `users.length` and the other counts are the number of such keys |
| Records.ScanValues | src/supabase/functions/server/index.tsx:670-672 | a prefix scan's values are exactly the values stored under keys with that prefix, one per key |
| CartRules.FindLine | src/supabase/functions/server/index.tsx:295 | `findIndex` returns -1 exactly when no line has the product, otherwise the first line that has it |
| CartRules.AddedQuantity | src/supabase/functions/server/index.tsx:295-301 | adding increases the units held of that product by exactly the added quantity and leaves every other product's units unchanged |
| CartRules.AddedLines | src/supabase/functions/server/index.tsx:297-301 | an existing line grows in place and no other line changes; a new product is appended as one line at the end |
| CartRules.AddedUnique | src/supabase/functions/server/index.tsx:295-303 | adding keeps at most one line per product and leaves a line for the product |
| CartRules.AddedTwice | src/supabase/functions/server/index.tsx:295-301 | adding one product twice accumulates into a single line holding both quantities |
| CartRules.WithoutExact | src/supabase/functions/server/index.tsx:321 | removal leaves no line of the product, keeps every other line as often as it occurred, and keeps their order |
| CartRules.WithoutIdempotent | src/supabase/functions/server/index.tsx:321 | removing twice is removing once |
| CartRules.WithoutQuantity | src/supabase/functions/server/index.tsx:321 | after removal the product has no units and every other product keeps its units |
| CartRules.WithoutUnique | src/supabase/functions/server/index.tsx:321-323 | removal keeps at most one line per product |
| CartRules.QuantityZeroRemoves | src/supabase/functions/server/index.tsx:346-347 | with one line per product, a quantity of zero or less removes the line exactly as the DELETE route does |
| CartRules.QuantityPositiveSets | src/supabase/functions/server/index.tsx:348-350 | a positive quantity sets that line's quantity, changes no other line, and makes it the product's unit count |
| CartRules.QuantityOfUnique | src/supabase/functions/server/index.tsx:343-350 | with one line per product, the product's units are that line's quantity |
| CartRules.QuantityMissingLine | src/supabase/functions/server/index.tsx:345 | updating a product that has no line changes nothing |
| CartRules.QuantityUnique | src/supabase/functions/server/index.tsx:343-351 | a quantity update keeps at most one line per product |
| OrderRules.JoinedResolvable | src/supabase/functions/server/index.tsx:259-268 | the join has one entry per line whose product exists, in cart order, each built from that line and the product as stored now |
| OrderRules.SnapshotPriced | src/supabase/functions/server/index.tsx:438-451 | every order item carries its product's current name and price, and its subtotal is price times quantity |
| OrderRules.SnapshotTotal | src/supabase/functions/server/index.tsx:435-451 | the order total is the sum of price times quantity over the lines whose product still exists |
| OrderRules.SnapshotAllGone | src/supabase/functions/server/index.tsx:438-451 | a cart whose products are all gone gives an order with no items and total 0 |
| OrderRules.PopulateShowsLiveProducts | src/supabase/functions/server/index.tsx:259-268 | each line GET /cart returns pairs a stored line with its product's current record; lines of missing products are skipped |
| OrderRules.SnapshotSingleLine | src/supabase/functions/server/index.tsx:438-451 | two units of a product priced 10.00 give one item with subtotal 20.00 and an order total of 20.00 |
| OrderRules.IndexedAreStored | src/supabase/functions/server/index.tsx:377-382 | every order in a non-admin's list is a stored order named by one of their owner-index entries, with at most one order per entry |
| OrderRules.NonAdminStatus | src/supabase/functions/server/index.tsx:497-505 | when a non-admin's update succeeds, they own the order and the resulting status is the old one, `cancelled`, or the empty string |
| OrderRules.AdminSetsAnyStatus | src/supabase/functions/server/index.tsx:497-509 | an admin's update always succeeds and sets whatever status was sent; no transition table is checked |
| OrderRules.OwnerRewritesTotal | src/supabase/functions/server/index.tsx:502-509 | a non-admin owner can rewrite the total and the payment status of their own order |
| OrderRules.OwnerRewritesOwner | src/supabase/functions/server/index.tsx:497-509 | a non-admin owner can set the order's `userId` to another user, after which they no longer manage it |
| PaymentRules.Masked | src/supabase/functions/server/index.tsx:551 | the stored payment details hold `cardNumber` as `****` and every other submitted field unchanged, and nothing else |
| ProfileRules.MergedProfile | src/supabase/functions/server/index.tsx:634-645 | the merged profile keeps the stored `role` and `id` whatever was sent, stamps `updatedAt`, applies every other submitted field, keeps every other stored field, and has no other keys |
| OrderRules.RevenueOfPaid | src/supabase/functions/server/index.tsx:674-679 | revenue is the sum of the totals of the orders whose payment status is `completed`, a missing total counting as 0 |
| OrderRules.RevenueScanIndependent | src/supabase/functions/server/index.tsx:671-679 | any two prefix scans of `order:` give the same revenue, whatever order the store lists them in |
| PaymentRules.PaidCounts | src/supabase/functions/server/index.tsx:557-560 | a paid order counts towards revenue with its full total, and its status is `processing` whatever it was |
| Server.Store.GetByPrefix | src/supabase/functions/server/index.tsx:374 | the scan returns exactly the values of the keys with the prefix, each key once, so as many values as such keys |
| Server.Store.ViewCart | src/supabase/functions/server/index.tsx:249-274 | GET /cart returns the stored lines whose product exists, each joined with the product, in cart order; a missing cart reads as empty |
| Server.Store.AddToCart | src/supabase/functions/server/index.tsx:277-310 | 404 with the store unchanged for an unknown product; otherwise the cart becomes the add result, only the cart key is written, and the store stays well typed |
| Server.Store.RemoveFromCart | src/supabase/functions/server/index.tsx:312-330 | the cart is written back without the product's lines, even when there was no cart or no such line |
| Server.Store.UpdateCartQuantity | src/supabase/functions/server/index.tsx:332-359 | the cart is the quantity-update result; it is written only when it holds the product; the route always succeeds |
| Server.Store.PriceLines | src/supabase/functions/server/index.tsx:435-451 | the loop builds exactly the order snapshot of the cart lines, and its running total is the snapshot's total |
| Server.Store.CreateOrder | src/supabase/functions/server/index.tsx:419-478 | 400 with the store unchanged for a missing or empty cart; otherwise a pending, unpaid order with the snapshot and its total is stored, indexed under the owner, and the cart is emptied, with no other key touched |
| Server.Store.ListOrders | src/supabase/functions/server/index.tsx:363-389 | an admin gets exactly the stored orders, from a scan of all `order:` keys; anyone else gets the stored orders their owner-index entries name; every listed value is a stored order |
| Server.Store.GetOrder | src/supabase/functions/server/index.tsx:391-417 | 404 for an unknown order, 403 unless the caller owns it or is an admin, otherwise the order |
| Server.Store.UpdateOrder | src/supabase/functions/server/index.tsx:480-520 | the answer is `UpdateOutcome`: 404, then 403 for a stranger, then 403 for a non-admin's non-cancel status, otherwise the merge; the order is written only on success |
| Server.Store.ProcessPayment | src/supabase/functions/server/index.tsx:524-567 | 404 for an unknown order and 403 for a non-owner, an admin included, with the store unchanged; otherwise a completed payment for the order's total is stored with the card masked, and the order becomes paid and processing |
| Server.Store.UpdateProfile | src/supabase/functions/server/index.tsx:627-654 | the profile becomes the role- and id-preserving merge, only that key is written, and no user's admin status changes |
| Server.Store.AdminStats | src/supabase/functions/server/index.tsx:658-693 | 403 for a non-admin; otherwise the numbers of profile, order and product keys, and the revenue of a full scan of the orders |
| OrdersPage.FilteredOrders | src/pages/Orders.tsx:134-139 | "all" shows every order in order; "active" exactly the pending, processing and shipped ones; "completed" exactly the delivered ones; any other tab exactly the orders with that status; every shown order keeps its multiplicity; always a subsequence |
| OrdersPage.NotOlderIsPreorder | src/pages/Orders.tsx:41-43 | the newest-first comparator is a total preorder |
| OrdersPage.NewestFirst | src/pages/Orders.tsx:41-43 | the loaded orders, permuted so that creation times never increase down the list |
| OrdersPage.WithStatus | src/pages/Orders.tsx:60-64 | after a local status change every order with that id has the new status, every other order is unchanged, and the length is kept |
| OrdersPage.WithStatusIdempotent | src/pages/Orders.tsx:84-88 | applying the same local status change twice equals applying it once |
| OrdersPage.CancelLeavesActive | src/pages/Orders.tsx:59-64 | after a local cancel the order leaves the "active" tab and appears under "cancelled" |
| OrdersPage.AdminNext | src/pages/Orders.tsx:285-310 | a forward button exists exactly for pending, processing and shipped orders, and it moves one step along pending, processing, shipped, delivered |
| OrdersPage.AdminOffer | src/pages/Orders.tsx:283 | forward buttons are shown only to admins, and only on active orders |
| OrdersPage.OffersAreConsistent | src/pages/Orders.tsx:283-323 | a delivered or cancelled order offers no action; an order with a forward button also offers cancel; a forward move never offers itself again |
| OrdersPage.ServerAcceptsOffers | src/supabase/functions/server/index.tsx:497-509 | the server accepts every forward move the page offers an admin, and every cancel the page offers when the caller is the order's owner or an admin, and sets that status |
| OrdersPage.RewrittenOwnerCannotCancel | src/supabase/functions/server/index.tsx:497-511 | after the owner rewrites `userId`, the page still offers cancel but the server refuses the former owner's cancel with 403 |
| OrdersPage.ServerRefusesOwnerForward | src/supabase/functions/server/index.tsx:502-504 | an owner who is not an admin is refused (403) when sending a forward move on their own order |
| CartPage.SetQuantity | src/pages/Cart.tsx:54-58 | every line of the product takes the new quantity and every other line is kept |
| CartPage.UpdateQuantityLocal | src/pages/Cart.tsx:48-58 | a quantity below one leaves the cart as it is; otherwise the product's lines take the new quantity and nothing else changes |
| CartPage.RemoveLocal | src/pages/Cart.tsx:72 | local removal keeps exactly the other products' lines, each as often as before, in order |
| CartPage.RemoveMatchesServer | src/pages/Cart.tsx:71-72 | the local removal equals what GET /cart returns after the server's removal |
| CartPage.UpdateMatchesServer | src/pages/Cart.tsx:53-58 | with one line per product, the local update equals what GET /cart returns after the server's quantity update |
| CartPage.CalculateTotal | src/pages/Cart.tsx:80-84 | the shown total is the sum of price times quantity, and 0 for an empty cart |
| CartPage.ShownTotalIsOrderTotal | src/pages/Cart.tsx:80-84 | for the same cart and products, the page's total equals the total the server charges when it creates the order |
| CartPage.CheckoutDisabled | src/pages/Cart.tsx:222 | checkout is disabled exactly when some line asks for more units than the product's stock |
| CartPage.ButtonsKeepBounds | src/pages/Cart.tsx:169-179 | an enabled "−" sends a quantity of at least one; an enabled "+" never pushes a line over stock; all buttons of a line are disabled while its request is in flight |
| ProductsPage.FilteredProducts | src/pages/Products.tsx:126-135 | the shown products are exactly the catalogue's products matching search, category, price range and minimum rating, each as often as in the catalogue, in catalogue order |
| ProductsPage.EmptyCriteriaShowAll | src/pages/Products.tsx:127-135 | an empty search, category "all", a covering price range and no minimum rating show the whole catalogue in order |
| ProductsPage.PrecedesIsPreorder | src/pages/Products.tsx:136-147 | the price and rating comparators are total preorders, and the name comparator is one when `localeCompare` is |
| ProductsPage.Arranged | src/pages/Products.tsx:126-147 | the rendered list is a permutation of the filtered products, so every rendered product matches the criteria |
| ProductsPage.ArrangedOrder | src/pages/Products.tsx:136-147 | the rendered list is ordered by price ascending, price descending, rating descending or name, whichever is selected |
| ProductsPage.WithoutProduct | src/pages/Products.tsx:121-123 | the local delete keeps exactly the products with another id, each as often as before, in order |

## Left out

- Authentication (`verifyUser` and the 401 answer): the caller's user id is a parameter of every route.
- Signup, login, the profile GET route, the product and category routes, seeding and demo-account setup are not part of this model.
- POST /payments/verify is not part of this model.
- The store adapter `kv_store.tsx` is not part of this model. `getByPrefix` is modelled as a scan that lists each matching key once in an unspecified order; `get` and `set` are map lookups and updates.
- The error answer 500 (a thrown exception, a failing store) is not modelled; every route either answers or fails with 400, 403 or 404.
- Concurrency: each route runs alone on the store. Two routes interleaving their reads and writes, and the lost updates that allows, are not modelled.
- `Date.now()`, `Math.random()` and `new Date().toISOString()`: the order id, payment id, time and profile stamp are parameters. Collisions of generated ids are not excluded; a colliding id overwrites, as in the code.
- Timestamps are integer milliseconds; the ISO strings the server writes and the page's `new Date(..)` parsing are not modelled, nor an unparsable date (a `NaN` comparator).
- Money and ratings are exact integers (cents, tenths); JavaScript floating-point rounding of `price * quantity` and of sums is not modelled. The page's price range is in the same unit as prices.
- JSON values of the wrong type (a non-numeric quantity, a non-string field, `null`) are not modelled: every record field has its declared type, and a profile is a map of string fields.
- `Server.Store.UpdateOrder`: a PUT body may add fields an order does not have; the model's patch covers exactly the order's own fields.
- `CartRules.AddedLines`, `CartRules.QuantityZeroRemoves`, `CartRules.QuantityPositiveSets`, `CartRules.QuantityOfUnique`, `CartPage.UpdateMatchesServer`: stated for carts with at most one line per product, the invariant every route keeps; a hand-written duplicate line is outside the model.
- `Sorting.SortBy`: modelled as a stable insertion sort; the browser's merge algorithm is not modelled, only its result for a total preorder.
- `ProductsPage.PrecedesIsPreorder`, `ProductsPage.ArrangedOrder`: `toLowerCase` and `localeCompare` are parameters; the name order is proved only when `localeCompare` is a total preorder.
- User ids containing `:` can make one user's owner-index prefix a prefix of another's (`order-user:a:` and `order-user:a:b:`); the model keeps the code's prefix scan and proves no separation between such users.
