/** The product catalogue page: its search and filter predicate, its
    sort orders, and the local removal of a product.

    Prices and the price range are in integer cents, ratings and the
    minimum rating in integer tenths of a star. `toLowerCase` and
    `localeCompare` are given as functions (`lower`, `nameCmp`): the model
    does not fix a locale. */
module ProductsPage {
  import opened Records
  import Seqs
  import Sorting

  /** The page's filter state: search text, category (`"all"` for any),
      inclusive price range, minimum rating. */
  datatype Criteria = Criteria(search: string, category: string, minPrice: int, maxPrice: int, minRating: int)

  /** `s.includes(t)`: `t` occurs in `s` at some position. */
  predicate Includes(s: string, t: string) {
    exists i :: 0 <= i <= |s| && t <= s[i..]
  }

  /** The filter callback: search hit in name or description (both
      lower-cased), category, price within the range, rating at least the minimum. */
  predicate Matches(c: Criteria, lower: string -> string, p: Product) {
    && (Includes(lower(p.name), lower(c.search)) || Includes(lower(p.description), lower(c.search)))
    && (c.category == "all" || p.category == c.category)
    && c.minPrice <= p.price <= c.maxPrice
    && p.rating >= c.minRating
  }

  /** The products the page shows before sorting, in catalogue order. */
  function FilteredProducts(products: seq<Product>, c: Criteria, lower: string -> string): (r: seq<Product>)
    ensures forall p :: p in r <==> p in products && Matches(c, lower, p)
    ensures forall p :: multiset(r)[p] == if Matches(c, lower, p) then multiset(products)[p] else 0
    ensures Seqs.IsSubseq(r, products)
  {
    Seqs.FilterIsSubseq(products, (p: Product) => Matches(c, lower, p));
    Seqs.FilterCount(products, (p: Product) => Matches(c, lower, p));
    Seqs.Filter(products, (p: Product) => Matches(c, lower, p))
  }

  /** With an empty search, category "all", a range covering every price
      and no minimum rating the page shows the whole catalogue, in order. */
  lemma EmptyCriteriaShowAll(products: seq<Product>, c: Criteria, lower: string -> string)
    requires lower("") == ""
    requires c.search == "" && c.category == "all" && c.minRating <= 0
    requires forall p :: p in products ==> c.minPrice <= p.price <= c.maxPrice && p.rating >= 0
    ensures FilteredProducts(products, c, lower) == products
  {
    forall p | p in products ensures Matches(c, lower, p) {
      assert "" <= lower(p.name)[0..];
    }
    Seqs.FilterKeepsAll(products, (p: Product) => Matches(c, lower, p));
  }

  // ---------- sorting ----------

  /** The sort callback for each `sortBy` value; any other value sorts by name. */
  function Compare(sortBy: string, nameCmp: (string, string) -> int, a: Product, b: Product): int {
    if sortBy == "price-asc" then a.price - b.price
    else if sortBy == "price-desc" then b.price - a.price
    else if sortBy == "rating" then b.rating - a.rating
    else nameCmp(a.name, b.name)
  }

  /** `a` may stay before `b`: the comparator is not positive. */
  function Precedes(sortBy: string, nameCmp: (string, string) -> int): (Product, Product) -> bool {
    (a: Product, b: Product) => Compare(sortBy, nameCmp, a, b) <= 0
  }

  /** `localeCompare` orders names as a total preorder. */
  ghost predicate NameOrder(nameCmp: (string, string) -> int) {
    && (forall x, y :: nameCmp(x, y) <= 0 || nameCmp(y, x) <= 0)
    && (forall x, y, z :: nameCmp(x, y) <= 0 && nameCmp(y, z) <= 0 ==> nameCmp(x, z) <= 0)
  }

  /** The three numeric sorts always order products as a total preorder;
      the name sort does when `localeCompare` does. */
  lemma PrecedesIsPreorder(sortBy: string, nameCmp: (string, string) -> int)
    requires sortBy == "price-asc" || sortBy == "price-desc" || sortBy == "rating" || NameOrder(nameCmp)
    ensures Sorting.Total(Precedes(sortBy, nameCmp)) && Sorting.Transitive(Precedes(sortBy, nameCmp))
  {
  }

  /** The list the page renders: the filtered products, sorted. It holds
      exactly the filtered products. */
  function Arranged(products: seq<Product>, c: Criteria, lower: string -> string,
                    sortBy: string, nameCmp: (string, string) -> int): (r: seq<Product>)
    ensures multiset(r) == multiset(FilteredProducts(products, c, lower))
    ensures forall p :: p in r ==> p in products && Matches(c, lower, p)
  {
    var shown := FilteredProducts(products, c, lower);
    var r := Sorting.SortBy(shown, Precedes(sortBy, nameCmp));
    assert forall p :: p in r ==> p in multiset(shown);
    r
  }

  /** The rendered list is ordered by the selected key: price ascending,
      price descending, rating descending, or name (when `localeCompare`
      is a total preorder). */
  lemma ArrangedOrder(products: seq<Product>, c: Criteria, lower: string -> string,
                      sortBy: string, nameCmp: (string, string) -> int)
    requires sortBy == "price-asc" || sortBy == "price-desc" || sortBy == "rating" || NameOrder(nameCmp)
    ensures var r := Arranged(products, c, lower, sortBy, nameCmp);
      && (sortBy == "price-asc" ==> forall i, j :: 0 <= i < j < |r| ==> r[i].price <= r[j].price)
      && (sortBy == "price-desc" ==> forall i, j :: 0 <= i < j < |r| ==> r[i].price >= r[j].price)
      && (sortBy == "rating" ==> forall i, j :: 0 <= i < j < |r| ==> r[i].rating >= r[j].rating)
      && (sortBy != "price-asc" && sortBy != "price-desc" && sortBy != "rating" ==>
            forall i, j :: 0 <= i < j < |r| ==> nameCmp(r[i].name, r[j].name) <= 0)
  {
    PrecedesIsPreorder(sortBy, nameCmp);
    Sorting.SortBySorted(FilteredProducts(products, c, lower), Precedes(sortBy, nameCmp));
  }

  // ---------- delete ----------

  /** `handleDeleteProduct`: `prev.filter(p => p.id !== id)`. */
  function WithoutProduct(products: seq<Product>, id: string): (r: seq<Product>)
    ensures forall p :: p in r <==> p in products && p.id != id
    ensures forall p :: multiset(r)[p] == if p.id != id then multiset(products)[p] else 0
    ensures Seqs.IsSubseq(r, products)
  {
    Seqs.FilterIsSubseq(products, (p: Product) => p.id != id);
    Seqs.FilterCount(products, (p: Product) => p.id != id);
    Seqs.Filter(products, (p: Product) => p.id != id)
  }
}
