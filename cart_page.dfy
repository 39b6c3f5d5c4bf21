/** The cart page: its local edits after a successful request, the total it
    shows, and when its quantity, remove and checkout buttons are enabled.
    The page holds the lines GET /cart returned (`OrderRules.Populate`). */
module CartPage {
  import opened Results
  import opened Records
  import Seqs
  import CartRules
  import OrderRules

  // ---------- local edits ----------

  /** Every line of `pid` takes quantity `q`; other lines are kept. */
  function SetQuantity(items: seq<PopulatedLine>, pid: string, q: int): (r: seq<PopulatedLine>)
    ensures |r| == |items|
    ensures forall i :: 0 <= i < |items| ==>
      r[i] == if items[i].productId == pid then items[i].(quantity := q) else items[i]
  {
    if items == [] then []
    else
      var it := items[0];
      [if it.productId == pid then it.(quantity := q) else it] + SetQuantity(items[1..], pid, q)
  }

  /** `handleUpdateQuantity`: a quantity below one is ignored (no request is
      sent); otherwise the product's lines take the new quantity. */
  function UpdateQuantityLocal(items: seq<PopulatedLine>, pid: string, newQ: int): (r: seq<PopulatedLine>)
    ensures newQ < 1 ==> r == items
    ensures newQ >= 1 ==> |r| == |items| && forall i :: 0 <= i < |items| ==>
      r[i] == if items[i].productId == pid then items[i].(quantity := newQ) else items[i]
  {
    if newQ < 1 then items else SetQuantity(items, pid, newQ)
  }

  /** `handleRemoveItem`: `prev.filter(item => item.productId !== productId)`. */
  function RemoveLocal(items: seq<PopulatedLine>, pid: string): (r: seq<PopulatedLine>)
    ensures forall it :: it in r <==> it in items && it.productId != pid
    ensures forall it :: multiset(r)[it] == if it.productId != pid then multiset(items)[it] else 0
    ensures Seqs.IsSubseq(r, items)
  {
    Seqs.FilterIsSubseq(items, (it: PopulatedLine) => it.productId != pid);
    Seqs.FilterCount(items, (it: PopulatedLine) => it.productId != pid);
    Seqs.Filter(items, (it: PopulatedLine) => it.productId != pid)
  }

  /** The page's local removal shows what GET /cart would return after
      DELETE /cart/:productId. */
  lemma {:induction false} RemoveMatchesServer(lines: seq<CartLine>, kv: map<string, Value>, pid: string)
    ensures RemoveLocal(OrderRules.Populate(lines, kv), pid) == OrderRules.Populate(CartRules.Without(lines, pid), kv)
  {
    if lines != [] {
      RemoveMatchesServer(lines[1..], kv, pid);
      OrderRules.JoinedStep(lines, kv, OrderRules.Populated);
      var kept := CartRules.Without(lines, pid);
      if lines[0].productId != pid {
        assert kept == [lines[0]] + CartRules.Without(lines[1..], pid);
        OrderRules.JoinedStep(kept, kv, OrderRules.Populated);
        assert kept[1..] == CartRules.Without(lines[1..], pid);
      }
    }
  }

  /** Joining lines that differ from `lines` only in `pid`'s quantity gives
      the joined lines with that quantity set. */
  lemma {:induction false} PopulateSetQuantity(lines: seq<CartLine>, mapped: seq<CartLine>, kv: map<string, Value>, pid: string, q: int)
    requires |mapped| == |lines|
    requires forall j :: 0 <= j < |lines| ==>
      mapped[j] == if lines[j].productId == pid then lines[j].(quantity := q) else lines[j]
    ensures OrderRules.Populate(mapped, kv) == SetQuantity(OrderRules.Populate(lines, kv), pid, q)
  {
    if lines != [] {
      assert forall j :: 0 <= j < |lines[1..]| ==> lines[1..][j] == lines[j + 1] && mapped[1..][j] == mapped[j + 1];
      PopulateSetQuantity(lines[1..], mapped[1..], kv, pid, q);
      OrderRules.JoinedStep(lines, kv, OrderRules.Populated);
      OrderRules.JoinedStep(mapped, kv, OrderRules.Populated);
      var joined := OrderRules.Populate(lines, kv);
      var rest := OrderRules.Populate(lines[1..], kv);
      if OrderRules.Resolvable(kv, lines[0]) {
        assert joined[1..] == rest;
      }
    }
  }

  /** With at most one line per product, the page's local quantity update
      shows what GET /cart would return after PUT /cart/:productId with the
      same quantity. */
  lemma UpdateMatchesServer(lines: seq<CartLine>, kv: map<string, Value>, pid: string, q: int)
    requires UniqueLines(lines)
    requires q >= 1
    ensures UpdateQuantityLocal(OrderRules.Populate(lines, kv), pid, q)
      == OrderRules.Populate(CartRules.WithQuantity(lines, pid, q), kv)
  {
    var r := CartRules.WithQuantity(lines, pid, q);
    if CartRules.HasLine(lines, pid) {
      CartRules.QuantityPositiveSets(lines, pid, q);
    } else {
      forall j | 0 <= j < |lines| ensures lines[j].productId != pid {
      }
    }
    PopulateSetQuantity(lines, r, kv, pid, q);
  }

  // ---------- total ----------

  function LineTotal(it: PopulatedLine): int {
    it.product.price * it.quantity
  }

  /** `calculateTotal`: `items.reduce((total, item) => total + price * quantity, 0)`. */
  function CalculateTotal(items: seq<PopulatedLine>): (r: int)
    ensures r == Seqs.Sum(items, LineTotal)
    ensures items == [] ==> r == 0
  {
    Seqs.ReduceIsSum(0, items, LineTotal);
    Seqs.Reduce(0, items, LineTotal)
  }

  /** The total the page shows is the total POST /orders would charge for
      the same cart and the same stored products. */
  lemma {:induction false} ShownTotalIsOrderTotal(lines: seq<CartLine>, kv: map<string, Value>)
    ensures CalculateTotal(OrderRules.Populate(lines, kv)) == OrderRules.ItemsTotal(OrderRules.Snapshot(lines, kv))
  {
    OrderRules.SnapshotTotal(lines, kv);
    PopulatedSum(lines, kv);
  }

  lemma {:induction false} PopulatedSum(lines: seq<CartLine>, kv: map<string, Value>)
    ensures Seqs.Sum(OrderRules.Populate(lines, kv), LineTotal)
      == Seqs.Sum(lines, (l: CartLine) => OrderRules.LineValue(kv, l))
  {
    if lines != [] {
      PopulatedSum(lines[1..], kv);
      OrderRules.JoinedStep(lines, kv, OrderRules.Populated);
      var rest := OrderRules.Populate(lines[1..], kv);
      match ProductAt(kv, lines[0].productId)
      case None =>
      case Some(p) =>
        Seqs.SumConcat([OrderRules.Populated(lines[0], p)], rest, LineTotal);
    }
  }

  // ---------- buttons ----------

  /** The line asks for more units than the product has in stock. */
  predicate OverStock(it: PopulatedLine) {
    it.quantity > it.product.stock
  }

  /** `cartItems.some(item => item.quantity > item.product.stock)`. */
  function CheckoutDisabled(items: seq<PopulatedLine>): (r: bool)
    ensures r <==> exists i :: 0 <= i < |items| && OverStock(items[i])
  {
    if items == [] then false
    else
      var rest := CheckoutDisabled(items[1..]);
      assert rest <==> exists i :: 1 <= i < |items| && OverStock(items[i]) by {
        if rest {
          var i :| 0 <= i < |items[1..]| && OverStock(items[1..][i]);
          assert items[i + 1] == items[1..][i];
        }
        if exists i :: 1 <= i < |items| && OverStock(items[i]) {
          var i :| 1 <= i < |items| && OverStock(items[i]);
          assert items[1..][i - 1] == items[i];
        }
      }
      OverStock(items[0]) || rest
  }

  /** `updating` is the product whose request is in flight, if any. */
  predicate DecrementDisabled(it: PopulatedLine, updating: Option<string>) {
    updating == Some(it.productId) || it.quantity <= 1
  }

  predicate IncrementDisabled(it: PopulatedLine, updating: Option<string>) {
    updating == Some(it.productId) || it.quantity >= it.product.stock
  }

  predicate RemoveDisabled(it: PopulatedLine, updating: Option<string>) {
    updating == Some(it.productId)
  }

  /** The quantity buttons keep a line between one unit and the stock:
      an enabled "−" sends a quantity the page does not ignore, and an
      enabled "+" on a line within stock leaves it within stock. Neither
      is enabled while that product's request is in flight. */
  lemma ButtonsKeepBounds(items: seq<PopulatedLine>, i: int, updating: Option<string>)
    requires 0 <= i < |items|
    ensures !DecrementDisabled(items[i], updating) ==>
      UpdateQuantityLocal(items, items[i].productId, items[i].quantity - 1)[i].quantity >= 1
    ensures !IncrementDisabled(items[i], updating) ==>
      !OverStock(UpdateQuantityLocal(items, items[i].productId, items[i].quantity + 1)[i])
    ensures updating == Some(items[i].productId) ==>
      DecrementDisabled(items[i], updating) && IncrementDisabled(items[i], updating) && RemoveDisabled(items[i], updating)
  {
  }
}
