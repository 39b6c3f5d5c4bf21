/** The order list page: its status filter, its newest-first ordering, the
    local status update after a successful PUT, and which action buttons it
    offers for an order. The page's offers are its own; the server does not
    check them (see `OrderRules.UpdateOutcome`). */
module OrdersPage {
  import opened Results
  import opened Records
  import Seqs
  import Sorting
  import OrderRules

  // ---------- status filter ----------

  predicate Active(status: string) {
    status == Pending || status == Processing || status == Shipped
  }

  /** The filter tab `filter` shows order `o`. */
  predicate Shown(filter: string, o: Order) {
    if filter == "all" then true
    else if filter == "active" then Active(o.status)
    else if filter == "completed" then o.status == Delivered
    else o.status == filter
  }

  /** The orders under the selected tab, in list order. */
  function FilteredOrders(orders: seq<Order>, filter: string): (r: seq<Order>)
    ensures filter == "all" ==> r == orders
    ensures filter == "active" ==> forall o :: o in r <==> o in orders && Active(o.status)
    ensures filter == "completed" ==> forall o :: o in r <==> o in orders && o.status == Delivered
    ensures filter != "all" && filter != "active" && filter != "completed" ==>
      forall o :: o in r <==> o in orders && o.status == filter
    ensures forall o :: multiset(r)[o] == if Shown(filter, o) then multiset(orders)[o] else 0
    ensures Seqs.IsSubseq(r, orders)
  {
    var keep := (o: Order) => Shown(filter, o);
    if filter == "all" then
      Seqs.FilterKeepsAll(orders, keep);
      Seqs.FilterIsSubseq(orders, keep);
      Seqs.FilterCount(orders, keep);
      Seqs.Filter(orders, keep)
    else
      Seqs.FilterIsSubseq(orders, keep);
      Seqs.FilterCount(orders, keep);
      Seqs.Filter(orders, keep)
  }

  // ---------- newest first ----------

  /** The comparator `new Date(b.createdAt) - new Date(a.createdAt)`
      read as "`a` may stay before `b`": its value is not positive. */
  predicate NotOlder(a: Order, b: Order) {
    b.createdAt - a.createdAt <= 0
  }

  lemma NotOlderIsPreorder()
    ensures Sorting.Total(NotOlder) && Sorting.Transitive(NotOlder)
  {
  }

  /** The loaded orders sorted by creation time, newest first. */
  function NewestFirst(orders: seq<Order>): (r: seq<Order>)
    ensures multiset(r) == multiset(orders)
    ensures forall i, j :: 0 <= i < j < |r| ==> r[i].createdAt >= r[j].createdAt
  {
    NotOlderIsPreorder();
    Sorting.SortBySorted(orders, NotOlder);
    Sorting.SortBy(orders, NotOlder)
  }

  // ---------- local update after a successful PUT ----------

  /** `prev.map(order => order.id === id ? { ...order, status } : order)`. */
  function WithStatus(orders: seq<Order>, id: string, status: string): (r: seq<Order>)
    ensures |r| == |orders|
    ensures forall i :: 0 <= i < |orders| && orders[i].id == id ==> r[i] == orders[i].(status := status)
    ensures forall i :: 0 <= i < |orders| && orders[i].id != id ==> r[i] == orders[i]
  {
    if orders == [] then []
    else
      var o := orders[0];
      [if o.id == id then o.(status := status) else o] + WithStatus(orders[1..], id, status)
  }

  /** Setting the same status twice is setting it once. */
  lemma WithStatusIdempotent(orders: seq<Order>, id: string, status: string)
    ensures WithStatus(WithStatus(orders, id, status), id, status) == WithStatus(orders, id, status)
  {
    var once := WithStatus(orders, id, status);
    var twice := WithStatus(once, id, status);
    forall i | 0 <= i < |orders| ensures twice[i] == once[i] {
      if orders[i].id == id {
        assert once[i].id == id;
      }
    }
  }

  /** After a local cancel the order leaves the "active" tab and appears
      under the "cancelled" one. */
  lemma CancelLeavesActive(orders: seq<Order>, id: string)
    ensures forall o :: o in FilteredOrders(WithStatus(orders, id, Cancelled), "active") ==> o.id != id
    ensures forall o :: o in orders && o.id == id ==>
      o.(status := Cancelled) in FilteredOrders(WithStatus(orders, id, Cancelled), "cancelled")
  {
    var after := WithStatus(orders, id, Cancelled);
    forall o | o in orders && o.id == id
      ensures o.(status := Cancelled) in FilteredOrders(after, "cancelled")
    {
      var i :| 0 <= i < |orders| && orders[i] == o;
      assert after[i] == o.(status := Cancelled);
    }
    forall i | 0 <= i < |after| ensures after[i].id == id ==> after[i].status == Cancelled {
      assert after[i].id == orders[i].id;
    }
  }

  // ---------- action buttons ----------

  /** Position on the page's forward path pending → processing → shipped → delivered. */
  function Rank(status: string): int {
    if status == Pending then 0
    else if status == Processing then 1
    else if status == Shipped then 2
    else if status == Delivered then 3
    else -1
  }

  /** The status the admin's "Mark as …" button would send, if one is shown. */
  function AdminNext(status: string): (r: Option<string>)
    ensures r.Some? <==> Active(status)
    ensures r.Some? ==> Rank(r.value) == Rank(status) + 1
  {
    if status == Pending then Some(Processing)
    else if status == Shipped then Some(Delivered)
    else if status == Processing then Some(Shipped)
    else None
  }

  /** The forward button shown to a viewer: admins only, and never on a
      cancelled or delivered order. */
  function AdminOffer(isAdmin: bool, status: string): (r: Option<string>)
    ensures r.Some? <==> isAdmin && Active(status)
    ensures r.Some? ==> r == AdminNext(status)
  {
    if isAdmin && status != Cancelled && status != Delivered then AdminNext(status) else None
  }

  /** "Cancel Order" is shown on every order that is neither cancelled nor
      delivered, whoever is looking. */
  predicate CancelOffered(status: string) {
    status != Cancelled && status != Delivered
  }

  /** A delivered or cancelled order offers no action; any order that
      offers a forward move also offers cancelling. */
  lemma OffersAreConsistent(isAdmin: bool, status: string)
    ensures status == Delivered || status == Cancelled ==> AdminOffer(isAdmin, status).None? && !CancelOffered(status)
    ensures AdminOffer(isAdmin, status).Some? ==> CancelOffered(status)
    ensures AdminOffer(isAdmin, status).Some? ==> AdminOffer(isAdmin, AdminOffer(isAdmin, status).value) != AdminOffer(isAdmin, status)
  {
  }

  function StatusOnly(status: string): OrderRules.OrderPatch {
    OrderRules.OrderPatch(None, None, None, None, None, None, None, Some(status), None)
  }

  /** The server accepts what the page offers: an admin's forward move on
      any order, and the owner's cancel. */
  lemma ServerAcceptsOffers(o: Order, uid: string, isAdmin: bool, now: int)
    ensures AdminOffer(isAdmin, o.status).Some? ==>
      var r := OrderRules.UpdateOutcome(Some(o), uid, isAdmin, StatusOnly(AdminOffer(isAdmin, o.status).value), now);
      r.Ok? && r.value.status == AdminOffer(isAdmin, o.status).value
    ensures CancelOffered(o.status) && OrderRules.MayManage(o, uid, isAdmin) ==>
      var r := OrderRules.UpdateOutcome(Some(o), uid, isAdmin, StatusOnly(Cancelled), now);
      r.Ok? && r.value.status == Cancelled
  {
  }

  /** The cancel half of `ServerAcceptsOffers` needs the caller to manage
      the order: after its owner has rewritten `userId`, the page still
      offers "Cancel Order" but the server refuses the owner's cancel. */
  lemma RewrittenOwnerCannotCancel(o: Order, other: string, now: int, later: int)
    requires other != o.userId
    ensures var moved := OrderRules.Merge(o, OrderRules.OrderPatch(None, Some(other), None, None, None, None, None, None, None), now);
      && (CancelOffered(o.status) ==> CancelOffered(moved.status))
      && OrderRules.UpdateOutcome(Some(moved), o.userId, false, StatusOnly(Cancelled), later) == Fail(Forbidden)
  {
    OrderRules.OwnerRewritesOwner(o, other, now);
  }

  /** A forward move sent by someone who is not an admin is refused, even
      on their own order. */
  lemma ServerRefusesOwnerForward(o: Order, now: int)
    requires Active(o.status)
    ensures OrderRules.UpdateOutcome(Some(o), o.userId, false, StatusOnly(AdminNext(o.status).value), now)
      == Fail(Forbidden)
  {
  }
}
