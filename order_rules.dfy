/** The value-level rules behind the server's order and statistics routes:
    joining cart lines with live products, the order snapshot and its
    total, the owner index, the update authorisation and merge, and the
    revenue sum. */
module OrderRules {
  import opened Results
  import opened Records
  import Seqs

  // ---------- cart lines joined with live products ----------

  predicate Resolvable(kv: map<string, Value>, l: CartLine) {
    ProductAt(kv, l.productId).Some?
  }

  /** The walk GET /cart and POST /orders both make over the cart lines:
      look each product up, skip the line when it is gone, otherwise emit
      `mk(line, product)`. */
  function Joined<R>(lines: seq<CartLine>, kv: map<string, Value>, mk: (CartLine, Product) -> R): seq<R>
  {
    if lines == [] then []
    else
      var rest := Joined(lines[1..], kv, mk);
      match ProductAt(kv, lines[0].productId)
      case None => rest
      case Some(p) => [mk(lines[0], p)] + rest
  }

  /** The joined sequence has one entry per line whose product still exists,
      in cart order, built from that line and its current product. */
  lemma {:induction false} JoinedResolvable<R>(lines: seq<CartLine>, kv: map<string, Value>, mk: (CartLine, Product) -> R)
    ensures var kept := Seqs.Filter(lines, (l: CartLine) => Resolvable(kv, l));
      |Joined(lines, kv, mk)| == |kept| &&
      forall i :: 0 <= i < |kept| ==>
        Resolvable(kv, kept[i]) &&
        Joined(lines, kv, mk)[i] == mk(kept[i], ProductAt(kv, kept[i].productId).value)
  {
    var keep := (l: CartLine) => Resolvable(kv, l);
    if lines != [] {
      JoinedResolvable(lines[1..], kv, mk);
      var kept := Seqs.Filter(lines, keep);
      var kept' := Seqs.Filter(lines[1..], keep);
      var r := Joined(lines, kv, mk);
      var r' := Joined(lines[1..], kv, mk);
      if Resolvable(kv, lines[0]) {
        assert kept == [lines[0]] + kept';
        assert r == [mk(lines[0], ProductAt(kv, lines[0].productId).value)] + r';
        forall i | 0 <= i < |kept|
          ensures Resolvable(kv, kept[i]) && r[i] == mk(kept[i], ProductAt(kv, kept[i].productId).value)
        {
          if i > 0 { assert kept[i] == kept'[i - 1] && r[i] == r'[i - 1]; }
        }
      } else {
        assert kept == kept' && r == r';
      }
    }
  }

  /** One step of the walk: the first line contributes an entry exactly when its product exists. */
  lemma JoinedStep<R>(lines: seq<CartLine>, kv: map<string, Value>, mk: (CartLine, Product) -> R)
    requires lines != []
    ensures ProductAt(kv, lines[0].productId).None? ==> Joined(lines, kv, mk) == Joined(lines[1..], kv, mk)
    ensures ProductAt(kv, lines[0].productId).Some? ==>
      Joined(lines, kv, mk) == [mk(lines[0], ProductAt(kv, lines[0].productId).value)] + Joined(lines[1..], kv, mk)
  {
  }

  /** An order line priced at the product's current price. */
  function Priced(l: CartLine, p: Product): OrderItem {
    OrderItem(l.productId, p.name, p.price, l.quantity, p.price * l.quantity)
  }

  function Populated(l: CartLine, p: Product): PopulatedLine {
    PopulatedLine(l.productId, l.quantity, l.addedAt, p)
  }

  /** The `orderItems` POST /orders builds from the cart. */
  function Snapshot(lines: seq<CartLine>, kv: map<string, Value>): seq<OrderItem> {
    Joined(lines, kv, Priced)
  }

  /** The `items` GET /cart returns. */
  function Populate(lines: seq<CartLine>, kv: map<string, Value>): seq<PopulatedLine> {
    Joined(lines, kv, Populated)
  }

  function ItemsTotal(items: seq<OrderItem>): int {
    Seqs.Sum(items, (it: OrderItem) => it.subtotal)
  }

  lemma ItemsTotalAppend(items: seq<OrderItem>, x: OrderItem)
    ensures ItemsTotal(items + [x]) == ItemsTotal(items) + x.subtotal
  {
    Seqs.SumConcat(items, [x], (it: OrderItem) => it.subtotal);
    assert [x][1..] == [];
  }

  /** What a line is worth at current prices; nothing when its product is gone. */
  function LineValue(kv: map<string, Value>, l: CartLine): int {
    match ProductAt(kv, l.productId)
    case Some(p) => p.price * l.quantity
    case None => 0
  }

  /** Every snapshot item carries its product's current name and price, and
      its subtotal is price times quantity. */
  lemma SnapshotPriced(lines: seq<CartLine>, kv: map<string, Value>)
    ensures forall it :: it in Snapshot(lines, kv) ==>
      && ProductAt(kv, it.productId).Some?
      && it.price == ProductAt(kv, it.productId).value.price
      && it.productName == ProductAt(kv, it.productId).value.name
      && it.subtotal == it.price * it.quantity
  {
    JoinedResolvable(lines, kv, Priced);
    var kept := Seqs.Filter(lines, (l: CartLine) => Resolvable(kv, l));
    var r := Snapshot(lines, kv);
    forall it | it in r
      ensures ProductAt(kv, it.productId).Some?
      ensures it.price == ProductAt(kv, it.productId).value.price
      ensures it.productName == ProductAt(kv, it.productId).value.name
      ensures it.subtotal == it.price * it.quantity
    {
      var i :| 0 <= i < |r| && r[i] == it;
      assert it == Priced(kept[i], ProductAt(kv, kept[i].productId).value);
    }
  }

  /** The order total is the sum of price times quantity over the lines
      whose product still exists. */
  lemma {:induction false} SnapshotTotal(lines: seq<CartLine>, kv: map<string, Value>)
    ensures ItemsTotal(Snapshot(lines, kv)) == Seqs.Sum(lines, (l: CartLine) => LineValue(kv, l))
  {
    if lines != [] {
      SnapshotTotal(lines[1..], kv);
      var rest := Snapshot(lines[1..], kv);
      match ProductAt(kv, lines[0].productId)
      case None =>
      case Some(p) =>
        assert Snapshot(lines, kv) == [Priced(lines[0], p)] + rest;
        Seqs.SumConcat([Priced(lines[0], p)], rest, (it: OrderItem) => it.subtotal);
    }
  }

  /** A cart whose products are all gone gives an empty order worth 0. */
  lemma SnapshotAllGone(lines: seq<CartLine>, kv: map<string, Value>)
    requires forall l :: l in lines ==> !Resolvable(kv, l)
    ensures Snapshot(lines, kv) == []
    ensures ItemsTotal(Snapshot(lines, kv)) == 0
  {
    JoinedResolvable(lines, kv, Priced);
    Seqs.FilterDropsAll(lines, (l: CartLine) => Resolvable(kv, l));
  }

  /** A cart line joined for GET /cart shows the product as it is stored now. */
  lemma PopulateShowsLiveProducts(lines: seq<CartLine>, kv: map<string, Value>)
    ensures var kept := Seqs.Filter(lines, (l: CartLine) => Resolvable(kv, l));
      var r := Populate(lines, kv);
      |r| == |kept| &&
      forall i :: 0 <= i < |r| ==>
        r[i].productId == kept[i].productId && r[i].quantity == kept[i].quantity &&
        r[i].addedAt == kept[i].addedAt && ProductAt(kv, r[i].productId) == Some(r[i].product)
  {
    JoinedResolvable(lines, kv, Populated);
  }

  /** Worked case: two units of a product priced 10.00 make an order of 20.00. */
  lemma SnapshotSingleLine(kv: map<string, Value>, p: Product, at: int)
    requires ProductAt(kv, "P1") == Some(p) && p.price == 1000
    ensures Snapshot([CartLine("P1", 2, at)], kv) == [OrderItem("P1", p.name, 1000, 2, 2000)]
    ensures ItemsTotal(Snapshot([CartLine("P1", 2, at)], kv)) == 2000
  {
    var lines := [CartLine("P1", 2, at)];
    assert lines[1..] == [];
    assert Snapshot(lines, kv) == [Priced(lines[0], p)] + Snapshot(lines[1..], kv);
    var items := Snapshot(lines, kv);
    assert items[1..] == [];
    assert ItemsTotal(items) == items[0].subtotal + ItemsTotal(items[1..]);
  }

  // ---------- GET /orders ----------

  /** The orders a user's owner-index entries lead to: `kv.get('order:' + id)`
      for each listed id, skipping ids whose order is not stored. */
  function Indexed(index: seq<Value>, kv: map<string, Value>): seq<Value>
  {
    if index == [] then []
    else
      var rest := Indexed(index[1..], kv);
      if index[0].OrderIdV? && OrderKey(index[0].orderId) in kv
      then [kv[OrderKey(index[0].orderId)]] + rest
      else rest
  }

  /** Every order a user is shown through the owner index is a stored order,
      one per index entry at most. */
  lemma {:induction false} IndexedAreStored(index: seq<Value>, kv: map<string, Value>)
    ensures |Indexed(index, kv)| <= |index|
    ensures forall v :: v in Indexed(index, kv) ==>
      exists oid :: OrderIdV(oid) in index && OrderKey(oid) in kv && kv[OrderKey(oid)] == v
  {
    if index != [] {
      IndexedAreStored(index[1..], kv);
      var rest := Indexed(index[1..], kv);
      forall v | v in Indexed(index, kv)
        ensures exists oid :: OrderIdV(oid) in index && OrderKey(oid) in kv && kv[OrderKey(oid)] == v
      {
        if v in rest {
          var oid :| OrderIdV(oid) in index[1..] && OrderKey(oid) in kv && kv[OrderKey(oid)] == v;
          assert OrderIdV(oid) in index;
        } else {
          assert index[0] == OrderIdV(index[0].orderId);
        }
      }
    }
  }

  // ---------- PUT /orders/:id ----------

  /** The fields a PUT /orders/:id body may carry; `None` is an absent field. */
  datatype OrderPatch = OrderPatch(
    id: Option<string>, userId: Option<string>, items: Option<seq<OrderItem>>,
    total: Option<Option<int>>, shippingAddress: Option<string>, paymentMethod: Option<string>,
    paymentStatus: Option<string>, status: Option<string>, createdAt: Option<int>)

  /** `{ ...order, ...updates, updatedAt: now }`. */
  function Merge(o: Order, u: OrderPatch, now: int): Order {
    Order(
      u.id.GetOr(o.id), u.userId.GetOr(o.userId), u.items.GetOr(o.items), u.total.GetOr(o.total),
      u.shippingAddress.GetOr(o.shippingAddress), u.paymentMethod.GetOr(o.paymentMethod),
      u.paymentStatus.GetOr(o.paymentStatus), u.status.GetOr(o.status),
      u.createdAt.GetOr(o.createdAt), Some(now))
  }

  /** A JavaScript string field is truthy when present and non-empty. */
  predicate Truthy(s: Option<string>) {
    s.Some? && s.value != ""
  }

  /** The owner or an admin may act on an order (`order.userId !== user.id && role !== 'admin'` refuses). */
  predicate MayManage(o: Order, uid: string, admin: bool) {
    o.userId == uid || admin
  }

  /** The answer of PUT /orders/:id given the stored order (if any), whether
      the caller is an admin, and the body. */
  function UpdateOutcome(found: Option<Order>, uid: string, admin: bool, u: OrderPatch, now: int): Outcome<Order> {
    if found.None? then Fail(NotFound)
    else if !MayManage(found.value, uid, admin) then Fail(Forbidden)
    else if !admin && Truthy(u.status) && u.status.value != Cancelled then Fail(Forbidden)
    else Ok(Merge(found.value, u, now))
  }

  /** A caller who is not an admin can leave the status as it was, cancel,
      or (through a falsy empty string) blank it; nothing else. */
  lemma NonAdminStatus(found: Option<Order>, uid: string, u: OrderPatch, now: int)
    requires UpdateOutcome(found, uid, false, u, now).Ok?
    ensures found.Some? && found.value.userId == uid
    ensures var s := UpdateOutcome(found, uid, false, u, now).value.status;
      s == found.value.status || s == Cancelled || s == ""
  {
  }

  /** The server checks no transition table: an admin may set any status,
      including moving a delivered or cancelled order back to pending. */
  lemma AdminSetsAnyStatus(o: Order, uid: string, u: OrderPatch, now: int)
    requires u.status.Some?
    ensures UpdateOutcome(Some(o), uid, true, u, now) == Ok(Merge(o, u, now))
    ensures Merge(o, u, now).status == u.status.value
  {
  }

  /** Only the status field is guarded: an owner who is not an admin can
      rewrite the total and the payment status of their own order. */
  lemma OwnerRewritesTotal(o: Order, now: int)
    ensures var u := OrderPatch(None, None, None, Some(Some(0)), None, None, Some(Completed), None, None);
      var r := UpdateOutcome(Some(o), o.userId, false, u, now);
      r.Ok? && r.value.total == Some(0) && r.value.paymentStatus == Completed
  {
  }

  /** The body is merged whole, `userId` included: an owner who is not an
      admin can hand their order to another user id. */
  lemma OwnerRewritesOwner(o: Order, other: string, now: int)
    requires other != o.userId
    ensures var u := OrderPatch(None, Some(other), None, None, None, None, None, None, None);
      var r := UpdateOutcome(Some(o), o.userId, false, u, now);
      r.Ok? && r.value.userId == other && r.value.status == o.status && !MayManage(r.value, o.userId, false)
  {
  }

  // ---------- GET /admin/stats ----------

  /** One order's share of the revenue: its total (0 when it has none) if it is paid. */
  function Contribution(v: Value): int {
    if v.OrderV? && v.order.paymentStatus == Completed then v.order.total.GetOr(0) else 0
  }

  /** `orders.reduce((sum, order) => paid ? sum + (order.total || 0) : sum, 0)`. */
  function Revenue(orders: seq<Value>): int {
    Seqs.Reduce(0, orders, Contribution)
  }

  function PaidTotal(v: Value): int {
    if v.OrderV? then v.order.total.GetOr(0) else 0
  }

  predicate IsPaidOrder(v: Value) {
    v.OrderV? && v.order.paymentStatus == Completed
  }

  /** Revenue is the sum of the totals of the paid orders, a missing total
      counting as 0. */
  lemma {:induction false} RevenueOfPaid(orders: seq<Value>)
    ensures Revenue(orders) == Seqs.Sum(Seqs.Filter(orders, IsPaidOrder), PaidTotal)
  {
    Seqs.ReduceIsSum(0, orders, Contribution);
    PaidSum(orders);
  }

  lemma {:induction false} PaidSum(orders: seq<Value>)
    ensures Seqs.Sum(orders, Contribution)
         == Seqs.Sum(Seqs.Filter(orders, IsPaidOrder), PaidTotal)
  {
    if orders != [] {
      PaidSum(orders[1..]);
    }
  }

  lemma {:induction false} SumThroughKeys(keys: seq<string>, vals: seq<Value>, kv: map<string, Value>)
    requires |keys| == |vals|
    requires forall i :: 0 <= i < |keys| ==> keys[i] in kv && vals[i] == kv[keys[i]]
    ensures Seqs.Sum(vals, Contribution)
         == Seqs.Sum(keys, (k: string) => if k in kv then Contribution(kv[k]) else 0)
  {
    if keys != [] {
      SumThroughKeys(keys[1..], vals[1..], kv);
    }
  }

  /** The revenue does not depend on the order in which the prefix scan
      lists the orders: any two scans give the same figure. */
  lemma RevenueScanIndependent(keys1: seq<string>, vals1: seq<Value>, keys2: seq<string>, vals2: seq<Value>, kv: map<string, Value>)
    requires IsScan(keys1, vals1, kv, OrderPrefix)
    requires IsScan(keys2, vals2, kv, OrderPrefix)
    ensures Revenue(vals1) == Revenue(vals2)
  {
    Seqs.ReduceIsSum(0, vals1, Contribution);
    Seqs.ReduceIsSum(0, vals2, Contribution);
    SumThroughKeys(keys1, vals1, kv);
    SumThroughKeys(keys2, vals2, kv);
    Seqs.DistinctListingsArePermutations(keys1, keys2);
    Seqs.SumPermutation(keys1, keys2, (k: string) => if k in kv then Contribution(kv[k]) else 0);
  }
}
