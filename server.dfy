/** The HTTP server's routes over its key-value store. The store is the
    only state: one `Store` object whose map every route reads and writes.
    The caller's identity has already been established (the 401 path is not
    modelled); the current time, fresh order and payment ids and the
    profile's ISO timestamp string are parameters. */
module Server {
  import opened Results
  import opened Records
  import opened CartRules
  import opened OrderRules
  import opened PaymentRules
  import opened ProfileRules
  import Seqs

  /** The body of GET /admin/stats. */
  datatype Stats = Stats(totalUsers: int, totalOrders: int, totalRevenue: int, totalProducts: int)

  class Store {
    /** Every key the server has written, with its JSON value. */
    var kv: map<string, Value>

    /** Each key holds the kind of record its prefix names; carts have at
        most one line per product. Every route keeps this. */
    ghost predicate Valid()
      reads this
    {
      WellTyped(kv)
    }

    constructor (init: map<string, Value>)
      requires WellTyped(init)
      ensures Valid() && kv == init
    {
      kv := init;
    }

    /** `kv.getByPrefix(prefix)`: the values of all keys starting with
        `prefix`, in the store's (unspecified) order. `keys` names the key
        each value was read from. */
    method GetByPrefix(prefix: string) returns (vals: seq<Value>, ghost keys: seq<string>)
      ensures IsScan(keys, vals, kv, prefix)
      ensures |vals| == |PrefixKeys(kv, prefix)|
      ensures forall v :: v in vals <==> exists k :: k in PrefixKeys(kv, prefix) && kv[k] == v
    {
      var rest := kv.Keys;
      vals, keys := [], [];
      while rest != {}
        invariant rest <= kv.Keys
        invariant |keys| == |vals|
        invariant forall k :: k in keys <==> k in kv && prefix <= k && k !in rest
        invariant Seqs.Distinct(keys)
        invariant forall i :: 0 <= i < |keys| ==> keys[i] in kv && vals[i] == kv[keys[i]]
        decreases |rest|
      {
        var k :| k in rest;
        if prefix <= k {
          vals, keys := vals + [kv[k]], keys + [k];
        }
        rest := rest - {k};
      }
      ScanValues(keys, vals, kv, prefix);
    }

    // ---------- cart routes ----------

    /** GET /cart: the stored lines whose product still exists, each
        joined with that product, in cart order. */
    method ViewCart(uid: string) returns (view: seq<PopulatedLine>)
      ensures view == Populate(CartAt(kv, uid).GetOr([]), kv)
    {
      var store := kv;
      var items := CartAt(store, uid).GetOr([]);
      view := [];
      for i := 0 to |items|
        invariant Populate(items, store) == view + Populate(items[i..], store)
      {
        assert items[i..][1..] == items[i + 1..];
        var product := ProductAt(store, items[i].productId);
        if product.Some? {
          view := view + [PopulatedLine(items[i].productId, items[i].quantity, items[i].addedAt, product.value)];
        }
      }
    }

    /** POST /cart: 404 for an unknown product; otherwise the quantity is
        added to the product's line, or a new line is appended. */
    method AddToCart(uid: string, pid: string, qty: int, now: int) returns (r: Outcome<seq<CartLine>>)
      requires Valid()
      modifies this
      ensures Valid()
      ensures ProductAt(old(kv), pid).None? ==> r == Fail(NotFound) && kv == old(kv)
      ensures ProductAt(old(kv), pid).Some? ==>
        && r == Ok(WithAdded(CartAt(old(kv), uid).GetOr([]), pid, qty, now))
        && kv == old(kv)[CartKey(uid) := CartV(r.value)]
    {
      if ProductAt(kv, pid).None? {
        return Fail(NotFound);
      }
      var items := CartAt(kv, uid).GetOr([]);
      KindsOfKeys(uid, "", pid);
      AddedUnique(items, pid, qty, now);
      var i := FindLine(items, pid);
      if i >= 0 {
        items := items[i := items[i].(quantity := items[i].quantity + qty)];
      } else {
        items := items + [CartLine(pid, qty, now)];
      }
      kv := kv[CartKey(uid) := CartV(items)];
      r := Ok(items);
    }

    /** DELETE /cart/:productId: every line of the product goes; the cart
        is written back even when nothing was removed or no cart existed. */
    method RemoveFromCart(uid: string, pid: string) returns (cart: seq<CartLine>)
      requires Valid()
      modifies this
      ensures Valid()
      ensures cart == Without(CartAt(old(kv), uid).GetOr([]), pid)
      ensures kv == old(kv)[CartKey(uid) := CartV(cart)]
    {
      var items := CartAt(kv, uid).GetOr([]);
      KindsOfKeys(uid, "", pid);
      WithoutUnique(items, pid);
      cart := Seqs.Filter(items, (l: CartLine) => l.productId != pid);
      kv := kv[CartKey(uid) := CartV(cart)];
    }

    /** PUT /cart/:productId: a quantity of zero or less removes the
        product's line, any other sets it; the cart is written back only
        when it holds the product. Always succeeds. */
    method UpdateCartQuantity(uid: string, pid: string, q: int) returns (cart: seq<CartLine>)
      requires Valid()
      modifies this
      ensures Valid()
      ensures cart == WithQuantity(CartAt(old(kv), uid).GetOr([]), pid, q)
      ensures HasLine(CartAt(old(kv), uid).GetOr([]), pid) ==> kv == old(kv)[CartKey(uid) := CartV(cart)]
      ensures !HasLine(CartAt(old(kv), uid).GetOr([]), pid) ==> kv == old(kv)
    {
      var items := CartAt(kv, uid).GetOr([]);
      KindsOfKeys(uid, "", pid);
      QuantityUnique(items, pid, q);
      var i := FindLine(items, pid);
      if i >= 0 {
        if q <= 0 {
          items := items[..i] + items[i + 1..];
        } else {
          items := items[i := items[i].(quantity := q)];
        }
        kv := kv[CartKey(uid) := CartV(items)];
      }
      cart := items;
    }

    // ---------- order routes ----------

    /** The pricing loop of POST /orders: one order line per cart line
        whose product exists, at the product's current price, and the sum
        of their subtotals. */
    method PriceLines(lines: seq<CartLine>) returns (items: seq<OrderItem>, total: int)
      ensures items == Snapshot(lines, kv)
      ensures total == ItemsTotal(items)
    {
      var store := kv;
      total := 0;
      items := [];
      for i := 0 to |lines|
        invariant Snapshot(lines, store) == items + Snapshot(lines[i..], store)
        invariant total == ItemsTotal(items)
      {
        JoinedStep(lines[i..], store, Priced);
        assert lines[i..][1..] == lines[i + 1..];
        var product := ProductAt(store, lines[i].productId);
        if product.Some? {
          var p := product.value;
          var itemTotal := p.price * lines[i].quantity;
          var item := OrderItem(lines[i].productId, p.name, p.price, lines[i].quantity, itemTotal);
          ItemsTotalAppend(items, item);
          total := total + itemTotal;
          items := items + [item];
        }
      }
    }

    /** POST /orders: 400 when the user has no cart or an empty one;
        otherwise the order is stored under `order:<oid>`, indexed under
        `order-user:<uid>:<oid>`, and the cart is emptied. */
    method CreateOrder(uid: string, oid: string, shippingAddress: string, paymentMethod: string, now: int)
      returns (r: Outcome<Order>)
      requires Valid()
      modifies this
      ensures Valid()
      ensures CartAt(old(kv), uid).GetOr([]) == [] ==> r == Fail(BadRequest) && kv == old(kv)
      ensures CartAt(old(kv), uid).GetOr([]) != [] ==>
        var items := Snapshot(CartAt(old(kv), uid).value, old(kv));
        && r == Ok(Order(oid, uid, items, Some(ItemsTotal(items)), shippingAddress, paymentMethod,
                         Pending, Pending, now, None))
        && kv == old(kv)[OrderKey(oid) := OrderV(r.value)]
                        [OwnerIndexKey(uid, oid) := OrderIdV(oid)]
                        [CartKey(uid) := CartV([])]
    {
      var cart := CartAt(kv, uid);
      if cart.None? || cart.value == [] {
        return Fail(BadRequest);
      }
      var items, total := PriceLines(cart.value);
      var order := Order(oid, uid, items, Some(total), shippingAddress, paymentMethod, Pending, Pending, now, None);
      KindsOfKeys(uid, oid, "");
      WellTypedWrite(kv, OrderKey(oid), OrderV(order));
      kv := kv[OrderKey(oid) := OrderV(order)];
      WellTypedWrite(kv, OwnerIndexKey(uid, oid), OrderIdV(oid));
      kv := kv[OwnerIndexKey(uid, oid) := OrderIdV(oid)];
      WellTypedWrite(kv, CartKey(uid), CartV([]));
      kv := kv[CartKey(uid) := CartV([])];
      r := Ok(order);
    }

    /** GET /orders: an admin gets every stored order; anyone else gets the
        orders their owner-index entries name. `keys` and `index` are the
        scan the result was built from. */
    method ListOrders(uid: string) returns (orders: seq<Value>, ghost keys: seq<string>, ghost index: seq<Value>)
      ensures IsAdmin(kv, uid) ==> IsScan(keys, orders, kv, OrderPrefix)
      ensures !IsAdmin(kv, uid) ==> IsScan(keys, index, kv, OwnerIndexPrefix(uid)) && orders == Indexed(index, kv)
      ensures IsAdmin(kv, uid) ==> forall v :: v in orders <==> exists k :: k in PrefixKeys(kv, OrderPrefix) && kv[k] == v
      ensures forall v :: v in orders ==> exists k :: k in PrefixKeys(kv, OrderPrefix) && kv[k] == v
    {
      if IsAdmin(kv, uid) {
        orders, keys := GetByPrefix(OrderPrefix);
        index := [];
        return;
      }
      var ids;
      ids, keys := GetByPrefix(OwnerIndexPrefix(uid));
      index := ids;
      var store := kv;
      orders := [];
      for i := 0 to |ids|
        invariant Indexed(ids, store) == orders + Indexed(ids[i..], store)
      {
        assert ids[i..][1..] == ids[i + 1..];
        if ids[i].OrderIdV? && OrderKey(ids[i].orderId) in store {
          orders := orders + [store[OrderKey(ids[i].orderId)]];
        }
      }
      assert ids[|ids|..] == [];
      assert orders == Indexed(ids, store);
      IndexedAreStored(ids, store);
      forall v | v in orders ensures exists k :: k in PrefixKeys(store, OrderPrefix) && store[k] == v {
        var oid :| OrderIdV(oid) in ids && OrderKey(oid) in store && store[OrderKey(oid)] == v;
        Prefixed(OrderPrefix, oid);
      }
    }

    /** GET /orders/:id: 404 for an unknown order, 403 unless the caller
        owns it or is an admin. */
    method GetOrder(uid: string, oid: string) returns (r: Outcome<Order>)
      ensures OrderAt(kv, oid).None? ==> r == Fail(NotFound)
      ensures OrderAt(kv, oid).Some? && MayManage(OrderAt(kv, oid).value, uid, IsAdmin(kv, uid)) ==>
        r == Ok(OrderAt(kv, oid).value)
      ensures OrderAt(kv, oid).Some? && !MayManage(OrderAt(kv, oid).value, uid, IsAdmin(kv, uid)) ==>
        r == Fail(Forbidden)
    {
      var order := OrderAt(kv, oid);
      if order.None? {
        return Fail(NotFound);
      }
      if order.value.userId != uid && !IsAdmin(kv, uid) {
        return Fail(Forbidden);
      }
      r := Ok(order.value);
    }

    /** PUT /orders/:id: the outcome `UpdateOutcome` decides; the merged
        order is written only when it succeeds. */
    method UpdateOrder(uid: string, oid: string, u: OrderPatch, now: int) returns (r: Outcome<Order>)
      requires Valid()
      modifies this
      ensures Valid()
      ensures r == UpdateOutcome(OrderAt(old(kv), oid), uid, IsAdmin(old(kv), uid), u, now)
      ensures r.Ok? ==> kv == old(kv)[OrderKey(oid) := OrderV(r.value)]
      ensures r.Fail? ==> kv == old(kv)
    {
      var order := OrderAt(kv, oid);
      if order.None? {
        return Fail(NotFound);
      }
      var admin := IsAdmin(kv, uid);
      if order.value.userId != uid && !admin {
        return Fail(Forbidden);
      }
      if !admin && u.status.Some? && u.status.value != "" && u.status.value != Cancelled {
        return Fail(Forbidden);
      }
      var updated := Merge(order.value, u, now);
      KindsOfKeys(uid, oid, "");
      kv := kv[OrderKey(oid) := OrderV(updated)];
      r := Ok(updated);
    }

    // ---------- payment ----------

    /** POST /payments: 404 for an unknown order, 403 unless the caller
        owns it (being an admin does not help); otherwise a completed
        payment for the order's total is stored with the card number masked
        and the order is marked paid and processing. */
    method ProcessPayment(uid: string, oid: string, details: map<string, string>, paymentId: string, now: int)
      returns (r: Outcome<Payment>)
      requires Valid()
      modifies this
      ensures Valid()
      ensures OrderAt(old(kv), oid).None? ==> r == Fail(NotFound) && kv == old(kv)
      ensures OrderAt(old(kv), oid).Some? && OrderAt(old(kv), oid).value.userId != uid ==>
        r == Fail(Forbidden) && kv == old(kv)
      ensures OrderAt(old(kv), oid).Some? && OrderAt(old(kv), oid).value.userId == uid ==>
        var o := OrderAt(old(kv), oid).value;
        && r == Ok(Payment(paymentId, oid, uid, o.total, Completed, Masked(details), now))
        && kv == old(kv)[PaymentKey(paymentId) := PaymentV(r.value)][OrderKey(oid) := OrderV(Paid(o))]
    {
      var order := OrderAt(kv, oid);
      if order.None? {
        return Fail(NotFound);
      }
      if order.value.userId != uid {
        return Fail(Forbidden);
      }
      var payment := Payment(paymentId, oid, uid, order.value.total, Completed, Masked(details), now);
      KindsOfKeys(uid, oid, paymentId);
      kv := kv[PaymentKey(paymentId) := PaymentV(payment)];
      kv := kv[OrderKey(oid) := OrderV(Paid(order.value))];
      r := Ok(payment);
    }

    // ---------- profile ----------

    /** PUT /profile: the submitted fields are merged into the stored
        profile (an empty one when none is stored) except `role` and `id`,
        and `updatedAt` is stamped. No call changes who is an admin. */
    method UpdateProfile(uid: string, updates: map<string, string>, stamp: string) returns (profile: map<string, string>)
      requires Valid()
      modifies this
      ensures Valid()
      ensures profile == MergedProfile(ProfileAt(old(kv), uid).GetOr(map[]), updates, stamp)
      ensures kv == old(kv)[UserKey(uid) := ProfileV(profile)]
      ensures forall v :: IsAdmin(kv, v) == old(IsAdmin(kv, v))
    {
      var current := ProfileAt(kv, uid).GetOr(map[]);
      profile := MergedProfile(current, updates, stamp);
      KindsOfKeys(uid, "", "");
      kv := kv[UserKey(uid) := ProfileV(profile)];
      forall v ensures IsAdmin(kv, v) == old(IsAdmin(kv, v)) {
        if UserKey(v) == UserKey(uid) {
          PrefixInjective(UserPrefix, v, uid);
        }
      }
    }

    // ---------- admin statistics ----------

    /** GET /admin/stats: 403 for a non-admin; otherwise the number of
        profiles, orders and products stored, and the revenue of the
        scanned orders. `orders` is the scan of `order:` keys. */
    method AdminStats(uid: string) returns (r: Outcome<Stats>, ghost orderKeys: seq<string>, ghost orders: seq<Value>)
      ensures !IsAdmin(kv, uid) ==> r == Fail(Forbidden)
      ensures IsAdmin(kv, uid) ==>
        && IsScan(orderKeys, orders, kv, OrderPrefix)
        && r == Ok(Stats(|PrefixKeys(kv, UserPrefix)|, |PrefixKeys(kv, OrderPrefix)|,
                         Revenue(orders), |PrefixKeys(kv, ProductPrefix)|))
    {
      if !IsAdmin(kv, uid) {
        return Fail(Forbidden), [], [];
      }
      var users, userKeys := GetByPrefix(UserPrefix);
      var scanned, scannedKeys := GetByPrefix(OrderPrefix);
      var products, productKeys := GetByPrefix(ProductPrefix);
      orderKeys, orders := scannedKeys, scanned;
      ScanCount(userKeys, users, kv, UserPrefix);
      ScanCount(scannedKeys, scanned, kv, OrderPrefix);
      ScanCount(productKeys, products, kv, ProductPrefix);
      var totalRevenue := Revenue(scanned);
      r := Ok(Stats(|users|, |scanned|, totalRevenue, |products|));
    }
  }
}
