/** The records the server keeps in its key-value store, the key
    conventions under which it keeps them, and typed lookups.

    Money is in integer cents, ratings in integer tenths of a star and
    timestamps in integer milliseconds since the epoch (the server writes
    ISO strings; the pages read them back with `new Date(..).getTime()`). */
module Records {
  import opened Results
  import Seqs

  const Pending := "pending"
  const Processing := "processing"
  const Shipped := "shipped"
  const Delivered := "delivered"
  const Cancelled := "cancelled"
  const Completed := "completed"
  const Admin := "admin"

  datatype Product = Product(
    id: string, name: string, description: string,
    price: int, category: string, rating: int, stock: int)

  /** One line of a stored cart: `{productId, quantity, addedAt}`. */
  datatype CartLine = CartLine(productId: string, quantity: int, addedAt: int)

  /** A cart line joined with the live product, as `GET /cart` returns it. */
  datatype PopulatedLine = PopulatedLine(productId: string, quantity: int, addedAt: int, product: Product)

  /** One priced line of an order, captured when the order is created. */
  datatype OrderItem = OrderItem(productId: string, productName: string, price: int, quantity: int, subtotal: int)

  /** A stored order. `total` is `None` where the stored object has no numeric total. */
  datatype Order = Order(
    id: string, userId: string, items: seq<OrderItem>, total: Option<int>,
    shippingAddress: string, paymentMethod: string,
    paymentStatus: string, status: string,
    createdAt: int, updatedAt: Option<int>)

  datatype Payment = Payment(
    id: string, orderId: string, userId: string, amount: Option<int>,
    status: string, details: map<string, string>, createdAt: int)

  /** Everything the store holds. A profile is a JSON object of string fields. */
  datatype Value =
    | ProductV(product: Product)
    | CartV(items: seq<CartLine>)
    | OrderV(order: Order)
    | OrderIdV(orderId: string)
    | PaymentV(payment: Payment)
    | ProfileV(fields: map<string, string>)

  // ---------- key conventions ----------

  const CartPrefix := "cart:"
  const ProductPrefix := "product:"
  const OrderPrefix := "order:"
  const OrderUserPrefix := "order-user:"
  const PaymentPrefix := "payment:"
  const UserPrefix := "user:"

  function CartKey(uid: string): string { CartPrefix + uid }
  function ProductKey(id: string): string { ProductPrefix + id }
  function OrderKey(oid: string): string { OrderPrefix + oid }
  function PaymentKey(id: string): string { PaymentPrefix + id }
  function UserKey(uid: string): string { UserPrefix + uid }
  /** The prefix a user's owner-index entries share: `order-user:<uid>:`. */
  function OwnerIndexPrefix(uid: string): string { OrderUserPrefix + uid + ":" }
  function OwnerIndexKey(uid: string, oid: string): string { OwnerIndexPrefix(uid) + oid }

  /** Which kind of record a key names, by its prefix. */
  datatype Kind = CartKind | ProductKind | OrderKind | OwnerIndexKind | PaymentKind | UserKind | OtherKind

  function KindOf(k: string): Kind {
    if CartPrefix <= k then CartKind
    else if ProductPrefix <= k then ProductKind
    else if OrderPrefix <= k then OrderKind
    else if OrderUserPrefix <= k then OwnerIndexKind
    else if PaymentPrefix <= k then PaymentKind
    else if UserPrefix <= k then UserKind
    else OtherKind
  }

  lemma PrefixChar(p: string, k: string, i: nat)
    requires p <= k && i < |p|
    ensures k[i] == p[i]
  {
    assert k[..|p|] == p;
    assert k[..|p|][i] == k[i];
  }

  /** No two of the store's prefixes can both start the same key, so a
      key's prefix decides its kind. */
  lemma KindOfPrefixed(k: string)
    ensures CartPrefix <= k ==> KindOf(k) == CartKind
    ensures ProductPrefix <= k ==> KindOf(k) == ProductKind
    ensures OrderPrefix <= k ==> KindOf(k) == OrderKind
    ensures OrderUserPrefix <= k ==> KindOf(k) == OwnerIndexKind
    ensures PaymentPrefix <= k ==> KindOf(k) == PaymentKind
    ensures UserPrefix <= k ==> KindOf(k) == UserKind
  {
    if ProductPrefix <= k {
      PrefixChar(ProductPrefix, k, 0);
    }
    if OrderPrefix <= k {
      PrefixChar(OrderPrefix, k, 0);
      PrefixChar(OrderPrefix, k, 1);
    }
    if OrderUserPrefix <= k {
      PrefixChar(OrderUserPrefix, k, 0);
      PrefixChar(OrderUserPrefix, k, 5);
    }
    if PaymentPrefix <= k {
      PrefixChar(PaymentPrefix, k, 0);
      PrefixChar(PaymentPrefix, k, 1);
    }
    if UserPrefix <= k {
      PrefixChar(UserPrefix, k, 0);
    }
  }

  lemma Prefixed(p: string, s: string)
    ensures p <= p + s
  {
    assert (p + s)[..|p|] == p;
  }

  lemma PrefixInjective(p: string, a: string, b: string)
    requires p + a == p + b
    ensures a == b
  {
    assert a == (p + a)[|p|..];
    assert b == (p + b)[|p|..];
  }

  /** The kind of every key the server builds. */
  lemma KindsOfKeys(uid: string, oid: string, id: string)
    ensures KindOf(CartKey(uid)) == CartKind
    ensures KindOf(ProductKey(id)) == ProductKind
    ensures KindOf(OrderKey(oid)) == OrderKind
    ensures KindOf(OwnerIndexKey(uid, oid)) == OwnerIndexKind
    ensures KindOf(PaymentKey(id)) == PaymentKind
    ensures KindOf(UserKey(uid)) == UserKind
  {
    Prefixed(CartPrefix, uid);
    KindOfPrefixed(CartKey(uid));
    Prefixed(ProductPrefix, id);
    KindOfPrefixed(ProductKey(id));
    Prefixed(OrderPrefix, oid);
    KindOfPrefixed(OrderKey(oid));
    assert OwnerIndexKey(uid, oid) == OrderUserPrefix + (uid + ":" + oid);
    Prefixed(OrderUserPrefix, uid + ":" + oid);
    KindOfPrefixed(OwnerIndexKey(uid, oid));
    Prefixed(PaymentPrefix, id);
    KindOfPrefixed(PaymentKey(id));
    Prefixed(UserPrefix, uid);
    KindOfPrefixed(UserKey(uid));
  }

  // ---------- well-typed stores ----------

  /** At most one line per productId. */
  predicate UniqueLines(items: seq<CartLine>) {
    forall i, j :: 0 <= i < j < |items| ==> items[i].productId != items[j].productId
  }

  /** The value stored under a key has the record kind its prefix names;
      carts have at most one line per product. */
  predicate Fits(kind: Kind, v: Value) {
    match kind
    case CartKind => v.CartV? && UniqueLines(v.items)
    case ProductKind => v.ProductV?
    case OrderKind => v.OrderV?
    case OwnerIndexKind => v.OrderIdV?
    case PaymentKind => v.PaymentV?
    case UserKind => v.ProfileV?
    case OtherKind => true
  }

  ghost predicate WellTyped(kv: map<string, Value>) {
    forall k :: k in kv ==> Fits(KindOf(k), kv[k])
  }

  /** Writing a value that fits its key's kind keeps the store well typed. */
  lemma WellTypedWrite(kv: map<string, Value>, k: string, v: Value)
    requires WellTyped(kv) && Fits(KindOf(k), v)
    ensures WellTyped(kv[k := v])
  {
  }

  // ---------- typed lookups: `kv.get(key)` read as a record ----------

  function ProductAt(kv: map<string, Value>, id: string): Option<Product> {
    var k := ProductKey(id);
    if k in kv && kv[k].ProductV? then Some(kv[k].product) else None
  }

  /** The stored cart's items, `None` when no cart is stored. */
  function CartAt(kv: map<string, Value>, uid: string): Option<seq<CartLine>> {
    var k := CartKey(uid);
    if k in kv && kv[k].CartV? then Some(kv[k].items) else None
  }

  function OrderAt(kv: map<string, Value>, oid: string): Option<Order> {
    var k := OrderKey(oid);
    if k in kv && kv[k].OrderV? then Some(kv[k].order) else None
  }

  function ProfileAt(kv: map<string, Value>, uid: string): Option<map<string, string>> {
    var k := UserKey(uid);
    if k in kv && kv[k].ProfileV? then Some(kv[k].fields) else None
  }

  /** `profile?.role === 'admin'`. */
  predicate IsAdmin(kv: map<string, Value>, uid: string) {
    var p := ProfileAt(kv, uid);
    p.Some? && "role" in p.value && p.value["role"] == Admin
  }

  /** `kv.getByPrefix` lists exactly the values whose key starts with the prefix. */
  function PrefixKeys(kv: map<string, Value>, prefix: string): set<string> {
    set k | k in kv && prefix <= k
  }

  /** `keys`/`vals` is one listing of the entries under `prefix`, in some order. */
  ghost predicate IsScan(keys: seq<string>, vals: seq<Value>, kv: map<string, Value>, prefix: string) {
    && |keys| == |vals|
    && (forall k :: k in keys <==> k in PrefixKeys(kv, prefix))
    && Seqs.Distinct(keys)
    && (forall i :: 0 <= i < |keys| ==> keys[i] in kv && vals[i] == kv[keys[i]])
  }

  /** A scan lists every key under the prefix exactly once. */
  lemma ScanCount(keys: seq<string>, vals: seq<Value>, kv: map<string, Value>, prefix: string)
    requires IsScan(keys, vals, kv, prefix)
    ensures |vals| == |PrefixKeys(kv, prefix)|
  {
    Seqs.DistinctCardinality(keys);
    assert (set x | x in keys) == PrefixKeys(kv, prefix);
  }

  /** A scan's values are exactly the values stored under the prefix. */
  lemma ScanValues(keys: seq<string>, vals: seq<Value>, kv: map<string, Value>, prefix: string)
    requires IsScan(keys, vals, kv, prefix)
    ensures |vals| == |PrefixKeys(kv, prefix)|
    ensures forall v :: v in vals <==> exists k :: k in PrefixKeys(kv, prefix) && kv[k] == v
  {
    ScanCount(keys, vals, kv, prefix);
    forall v | v in vals ensures exists k :: k in PrefixKeys(kv, prefix) && kv[k] == v {
      var i :| 0 <= i < |vals| && vals[i] == v;
      assert keys[i] in PrefixKeys(kv, prefix);
    }
    forall v | exists k :: k in PrefixKeys(kv, prefix) && kv[k] == v ensures v in vals {
      var k :| k in PrefixKeys(kv, prefix) && kv[k] == v;
      assert k in keys;
      var i :| 0 <= i < |keys| && keys[i] == k;
      assert vals[i] == v;
    }
  }
}
