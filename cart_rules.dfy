/** The list edits the server's cart routes make on a stored cart's
    `items`: merge on add, removal by productId, and quantity update. */
module CartRules {
  import opened Records
  import Seqs

  predicate HasLine(items: seq<CartLine>, pid: string) {
    exists i :: 0 <= i < |items| && items[i].productId == pid
  }

  /** `items.findIndex(item => item.productId === pid)`: the first line with
      that product, or -1. */
  function FindLine(items: seq<CartLine>, pid: string): (r: int)
    ensures -1 <= r < |items|
    ensures r == -1 <==> !HasLine(items, pid)
    ensures 0 <= r ==> items[r].productId == pid
    ensures 0 <= r ==> forall i :: 0 <= i < r ==> items[i].productId != pid
  {
    if items == [] then -1
    else if items[0].productId == pid then 0
    else
      var k := FindLine(items[1..], pid);
      assert HasLine(items, pid) ==> HasLine(items[1..], pid) by {
        if HasLine(items, pid) {
          var i :| 0 <= i < |items| && items[i].productId == pid;
          assert items[1..][i - 1] == items[i];
        }
      }
      assert 0 <= k ==> items[k + 1] == items[1..][k];
      if k < 0 then -1 else k + 1
  }

  /** How many units of `pid` the lines hold together. */
  function QuantityOf(items: seq<CartLine>, pid: string): int {
    Seqs.Sum(items, (l: CartLine) => if l.productId == pid then l.quantity else 0)
  }

  /** POST /cart on the stored items: grow the existing line, or append one. */
  function WithAdded(items: seq<CartLine>, pid: string, qty: int, now: int): seq<CartLine> {
    var i := FindLine(items, pid);
    if i >= 0 then items[i := items[i].(quantity := items[i].quantity + qty)]
    else items + [CartLine(pid, qty, now)]
  }

  /** DELETE /cart/:productId on the stored items. */
  function Without(items: seq<CartLine>, pid: string): seq<CartLine> {
    Seqs.Filter(items, (l: CartLine) => l.productId != pid)
  }

  /** PUT /cart/:productId on the stored items: delete the line when the
      quantity is not positive, otherwise set it; no line, no change. */
  function WithQuantity(items: seq<CartLine>, pid: string, q: int): seq<CartLine> {
    var i := FindLine(items, pid);
    if i < 0 then items
    else if q <= 0 then items[..i] + items[i + 1..]
    else items[i := items[i].(quantity := q)]
  }

  // ---------- add ----------

  /** Adding grows the quantity held of `pid` by exactly `qty` and leaves
      every other product's quantity as it was. */
  lemma AddedQuantity(items: seq<CartLine>, pid: string, qty: int, now: int, p: string)
    ensures QuantityOf(WithAdded(items, pid, qty, now), p)
         == QuantityOf(items, p) + (if p == pid then qty else 0)
  {
    var f := (l: CartLine) => if l.productId == p then l.quantity else 0;
    var i := FindLine(items, pid);
    if i >= 0 {
      Seqs.SumUpdate(items, i, items[i].(quantity := items[i].quantity + qty), f);
    } else {
      Seqs.SumConcat(items, [CartLine(pid, qty, now)], f);
      assert Seqs.Sum([CartLine(pid, qty, now)], f) == f(CartLine(pid, qty, now));
    }
  }

  /** With one line per product: an existing line grows by `qty` and no other
      line changes; a new product is appended as one line at the end. */
  lemma AddedLines(items: seq<CartLine>, pid: string, qty: int, now: int)
    requires UniqueLines(items)
    ensures var r := WithAdded(items, pid, qty, now);
      HasLine(items, pid) ==>
        |r| == |items| &&
        forall j :: 0 <= j < |r| ==>
          r[j] == if items[j].productId == pid then items[j].(quantity := items[j].quantity + qty) else items[j]
    ensures var r := WithAdded(items, pid, qty, now);
      !HasLine(items, pid) ==>
        |r| == |items| + 1 && r[..|items|] == items && r[|items|] == CartLine(pid, qty, now)
  {
    var r := WithAdded(items, pid, qty, now);
    var i := FindLine(items, pid);
    if HasLine(items, pid) {
      forall j | 0 <= j < |r|
        ensures r[j] == if items[j].productId == pid then items[j].(quantity := items[j].quantity + qty) else items[j]
      {
        if j > i {
          assert items[i].productId != items[j].productId;
        }
      }
    } else {
      assert r[..|items|] == items;
    }
  }

  /** Adding keeps at most one line per product, and leaves a line for `pid`. */
  lemma AddedUnique(items: seq<CartLine>, pid: string, qty: int, now: int)
    requires UniqueLines(items)
    ensures UniqueLines(WithAdded(items, pid, qty, now))
    ensures HasLine(WithAdded(items, pid, qty, now), pid)
  {
    var r := WithAdded(items, pid, qty, now);
    var i := FindLine(items, pid);
    if i >= 0 {
      assert r[i].productId == pid;
    } else {
      forall a, b | 0 <= a < b < |r| ensures r[a].productId != r[b].productId {
        if b == |items| {
          assert r[a] == items[a];
        } else {
          assert r[a] == items[a] && r[b] == items[b];
        }
      }
      assert r[|items|].productId == pid;
    }
  }

  /** Adding the same product twice accumulates into one line. */
  lemma AddedTwice(items: seq<CartLine>, pid: string, q1: int, t1: int, q2: int, t2: int)
    requires UniqueLines(items)
    ensures var r := WithAdded(WithAdded(items, pid, q1, t1), pid, q2, t2);
      UniqueLines(r) && HasLine(r, pid) && QuantityOf(r, pid) == QuantityOf(items, pid) + q1 + q2
  {
    var once := WithAdded(items, pid, q1, t1);
    AddedUnique(items, pid, q1, t1);
    AddedUnique(once, pid, q2, t2);
    AddedQuantity(items, pid, q1, t1, pid);
    AddedQuantity(once, pid, q2, t2, pid);
  }

  // ---------- remove ----------

  /** Removal drops every line of `pid` and keeps the other lines, in order. */
  lemma WithoutExact(items: seq<CartLine>, pid: string)
    ensures var r := Without(items, pid);
      !HasLine(r, pid) &&
      (forall l :: l in r <==> l in items && l.productId != pid) &&
      (forall l :: multiset(r)[l] == if l.productId != pid then multiset(items)[l] else 0) &&
      Seqs.IsSubseq(r, items)
  {
    var r := Without(items, pid);
    Seqs.FilterIsSubseq(items, (l: CartLine) => l.productId != pid);
    Seqs.FilterCount(items, (l: CartLine) => l.productId != pid);
    forall i | 0 <= i < |r| ensures r[i].productId != pid {
      assert r[i] in r;
    }
  }

  /** Removing twice is removing once. */
  lemma WithoutIdempotent(items: seq<CartLine>, pid: string)
    ensures Without(Without(items, pid), pid) == Without(items, pid)
  {
    Seqs.FilterIdempotent(items, (l: CartLine) => l.productId != pid);
  }

  /** Removal leaves no units of `pid` and every other product's units. */
  lemma {:induction false} WithoutQuantity(items: seq<CartLine>, pid: string, p: string)
    ensures QuantityOf(Without(items, pid), p) == if p == pid then 0 else QuantityOf(items, p)
  {
    if items != [] {
      WithoutQuantity(items[1..], pid, p);
    }
  }

  lemma {:induction false} WithoutUnique(items: seq<CartLine>, pid: string)
    requires UniqueLines(items)
    ensures UniqueLines(Without(items, pid))
  {
    if items != [] {
      var rest := items[1..];
      assert UniqueLines(rest) by {
        forall a, b | 0 <= a < b < |rest| ensures rest[a].productId != rest[b].productId {
          assert rest[a] == items[a + 1] && rest[b] == items[b + 1];
        }
      }
      WithoutUnique(rest, pid);
      var tail := Without(rest, pid);
      if items[0].productId != pid {
        var r := [items[0]] + tail;
        forall a, b | 0 <= a < b < |r| ensures r[a].productId != r[b].productId {
          if a == 0 {
            assert r[b] in tail;
            assert r[b] in rest;
            var m :| 0 <= m < |rest| && rest[m] == r[b];
            assert rest[m] == items[m + 1];
          } else {
            assert r[a] == tail[a - 1] && r[b] == tail[b - 1];
          }
        }
      }
    }
  }

  // ---------- update quantity ----------

  lemma PrefixWithout(items: seq<CartLine>, pid: string, n: int)
    requires 0 <= n <= |items|
    requires forall j :: 0 <= j < n ==> items[j].productId != pid
    ensures Without(items[..n], pid) == items[..n]
  {
    Seqs.FilterKeepsAll(items[..n], (l: CartLine) => l.productId != pid);
  }

  /** With one line per product, a quantity of zero or less removes the
      product's line exactly as DELETE /cart/:productId does. */
  lemma QuantityZeroRemoves(items: seq<CartLine>, pid: string, q: int)
    requires UniqueLines(items)
    requires q <= 0
    ensures WithQuantity(items, pid, q) == Without(items, pid)
  {
    var keep := (l: CartLine) => l.productId != pid;
    var i := FindLine(items, pid);
    if i < 0 {
      forall l | l in items ensures keep(l) {
        var j :| 0 <= j < |items| && items[j] == l;
      }
      Seqs.FilterKeepsAll(items, keep);
    } else {
      assert items == items[..i] + ([items[i]] + items[i + 1..]);
      Seqs.FilterConcat(items[..i], [items[i]] + items[i + 1..], keep);
      Seqs.FilterConcat([items[i]], items[i + 1..], keep);
      PrefixWithout(items, pid, i);
      forall l | l in items[i + 1..] ensures keep(l) {
        var j :| 0 <= j < |items[i + 1..]| && items[i + 1..][j] == l;
        assert items[i + 1..][j] == items[i + 1 + j];
      }
      Seqs.FilterKeepsAll(items[i + 1..], keep);
    }
  }

  /** With one line per product, a positive quantity sets that line's
      quantity and changes nothing else. */
  lemma QuantityPositiveSets(items: seq<CartLine>, pid: string, q: int)
    requires UniqueLines(items)
    requires q > 0 && HasLine(items, pid)
    ensures var r := WithQuantity(items, pid, q);
      |r| == |items| &&
      (forall j :: 0 <= j < |r| ==>
         r[j] == if items[j].productId == pid then items[j].(quantity := q) else items[j]) &&
      QuantityOf(r, pid) == q
  {
    var r := WithQuantity(items, pid, q);
    var i := FindLine(items, pid);
    forall j | 0 <= j < |r|
      ensures r[j] == if items[j].productId == pid then items[j].(quantity := q) else items[j]
    {
      if j > i {
        assert items[i].productId != items[j].productId;
      }
    }
    var f := (l: CartLine) => if l.productId == pid then l.quantity else 0;
    Seqs.SumUpdate(items, i, items[i].(quantity := q), f);
    QuantityOfUnique(items, pid);
  }

  lemma {:induction false} QuantityOfAbsent(items: seq<CartLine>, pid: string)
    requires !HasLine(items, pid)
    ensures QuantityOf(items, pid) == 0
  {
    if items != [] {
      forall j | 0 <= j < |items[1..]| ensures items[1..][j].productId != pid {
        assert items[1..][j] == items[j + 1];
      }
      QuantityOfAbsent(items[1..], pid);
    }
  }

  /** With one line per product, the units held of `pid` are its line's quantity. */
  lemma QuantityOfUnique(items: seq<CartLine>, pid: string)
    requires UniqueLines(items) && HasLine(items, pid)
    ensures QuantityOf(items, pid) == items[FindLine(items, pid)].quantity
  {
    var f := (l: CartLine) => if l.productId == pid then l.quantity else 0;
    var i := FindLine(items, pid);
    assert items == items[..i] + ([items[i]] + items[i + 1..]);
    Seqs.SumConcat(items[..i], [items[i]] + items[i + 1..], f);
    Seqs.SumConcat([items[i]], items[i + 1..], f);
    forall j | 0 <= j < |items[..i]| ensures items[..i][j].productId != pid {
      assert items[..i][j] == items[j];
    }
    var after := items[i + 1..];
    forall j | 0 <= j < |after| ensures after[j].productId != pid {
      assert after[j] == items[i + 1 + j];
    }
    QuantityOfAbsent(items[..i], pid);
    QuantityOfAbsent(items[i + 1..], pid);
  }

  /** A quantity update for a product without a line changes nothing. */
  lemma QuantityMissingLine(items: seq<CartLine>, pid: string, q: int)
    requires !HasLine(items, pid)
    ensures WithQuantity(items, pid, q) == items
  {
  }

  lemma QuantityUnique(items: seq<CartLine>, pid: string, q: int)
    requires UniqueLines(items)
    ensures UniqueLines(WithQuantity(items, pid, q))
  {
    if q <= 0 {
      QuantityZeroRemoves(items, pid, q);
      WithoutUnique(items, pid);
    }
  }
}
