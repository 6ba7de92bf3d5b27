/** The catalogue query of `useProducts` (AnticcaReale-main/src/hooks/useFirestore.ts):
    all products are fetched, then filtered, sorted and cut on the client. */
module Catalog {
  import opened Types
  import opened Seqs
  import opened Text

  /** The search test: the lower-cased name or description includes the lower-cased term. */
  predicate SearchHit(p: Product, term: string)
  {
    Contains(Lower(p.name), Lower(term)) || Contains(Lower(p.description), Lower(term))
  }

  // One predicate per filter of the pipeline, each vacuous when its filter is not set
  // (`category`, `shopId`, `search`, `saleType` by truthiness; the price bounds when
  // they are not undefined, so a bound of 0 still filters).

  predicate CategoryOk(p: Product, f: FilterState) { f.category.Some? ==> p.category == f.category.value }
  predicate ShopOk(p: Product, f: FilterState) { TruthyString(f.shopId) ==> p.shopId == f.shopId.value }
  predicate MinPriceOk(p: Product, f: FilterState) { f.minPrice.Some? ==> p.price >= f.minPrice.value }
  predicate MaxPriceOk(p: Product, f: FilterState) { f.maxPrice.Some? ==> p.price <= f.maxPrice.value }
  predicate SearchOk(p: Product, f: FilterState) { TruthyString(f.search) ==> SearchHit(p, f.search.value) }
  predicate SaleTypeOk(p: Product, f: FilterState) { f.saleType.Some? ==> p.saleType == f.saleType.value }

  /** A product is listed when it is active and passes every filter that is set. */
  predicate Matches(p: Product, f: FilterState)
  {
    p.isActive && CategoryOk(p, f) && ShopOk(p, f) && MinPriceOk(p, f)
    && MaxPriceOk(p, f) && SearchOk(p, f) && SaleTypeOk(p, f)
  }

  /** The sort key, highest first: price ascending is the negated price; newest is the
      creation time (a missing one counts as the epoch). */
  function SortKey(order: SortBy): Product -> int
  {
    match order
    case PriceAsc => (p: Product) => -p.price
    case PriceDesc => (p: Product) => p.price
    case Newest => (p: Product) => p.createdAt
  }

  /** The order the list is promised in. */
  predicate Ordered(s: seq<Product>, order: SortBy)
  {
    match order
    case PriceAsc => forall i, j :: 0 <= i < j < |s| ==> s[i].price <= s[j].price
    case PriceDesc => forall i, j :: 0 <= i < j < |s| ==> s[i].price >= s[j].price
    case Newest => forall i, j :: 0 <= i < j < |s| ==> s[i].createdAt >= s[j].createdAt
  }

  /** `if (limitCount) productData = productData.slice(0, limitCount)`: a zero count
      leaves the list whole; a negative one drops that many from the end. */
  function Limit<T>(s: seq<T>, limitCount: int): (r: seq<T>)
    ensures r <= s
    ensures limitCount == 0 ==> r == s
    ensures limitCount > 0 ==> |r| == Min(limitCount, |s|)
    ensures limitCount < 0 ==> |r| == (if |s| + limitCount > 0 then |s| + limitCount else 0)
  {
    if limitCount == 0 then s
    else if limitCount > 0 then Take(s, limitCount)
    else Take(s, if |s| + limitCount > 0 then |s| + limitCount else 0)
  }

  /** `Matches` as a predicate on products. */
  function Matching(f: FilterState): Product -> bool
  {
    p => Matches(p, f)
  }

  // The tests of the individual filter steps.
  function InCategory(c: Category): Product -> bool { (p: Product) => p.category == c }
  function InShop(shopId: string): Product -> bool { (p: Product) => p.shopId == shopId }
  function PriceAtLeast(min: int): Product -> bool { (p: Product) => p.price >= min }
  function PriceAtMost(max: int): Product -> bool { (p: Product) => p.price <= max }
  function Mentions(searchLower: string): Product -> bool
  {
    (p: Product) => Contains(Lower(p.name), searchLower) || Contains(Lower(p.description), searchLower)
  }
  function OfSaleType(t: SaleType): Product -> bool { (p: Product) => p.saleType == t }

  /** The list `useProducts` publishes, in one expression: the matching products,
      sorted, then cut. */
  function Catalogue(all: seq<Product>, f: FilterState, limitCount: int): seq<Product>
  {
    Limit(SortDescBy(Filter(all, Matching(f)), SortKey(f.sortBy)), limitCount)
  }

  /** A prefix holds no element more often than the whole list, and keeps its order. */
  lemma PrefixFacts(s: seq<Product>, r: seq<Product>, order: SortBy)
    requires r <= s
    requires SortedDescBy(s, SortKey(order))
    ensures multiset(r) <= multiset(s)
    ensures SortedDescBy(r, SortKey(order))
  {
    assert s == r + s[|r|..];
  }

  /** Sorted highest-key-first is the promised order. */
  lemma SortedIsOrdered(s: seq<Product>, order: SortBy)
    requires SortedDescBy(s, SortKey(order))
    ensures Ordered(s, order)
  {
    match order
    case PriceAsc =>
      forall i, j | 0 <= i < j < |s| ensures s[i].price <= s[j].price {
        assert SortKey(order)(s[i]) >= SortKey(order)(s[j]);
      }
    case PriceDesc =>
      forall i, j | 0 <= i < j < |s| ensures s[i].price >= s[j].price {
        assert SortKey(order)(s[i]) >= SortKey(order)(s[j]);
      }
    case Newest =>
      forall i, j | 0 <= i < j < |s| ensures s[i].createdAt >= s[j].createdAt {
        assert SortKey(order)(s[i]) >= SortKey(order)(s[j]);
      }
  }

  /** Every element of a list whose multiset is within the matching products matches. */
  lemma WithinMatching(r: seq<Product>, all: seq<Product>, f: FilterState)
    requires multiset(r) <= multiset(Filter(all, Matching(f)))
    ensures forall i :: 0 <= i < |r| ==> Matches(r[i], f)
  {
    var matching := Filter(all, Matching(f));
    FilterSound(all, Matching(f));
    forall i | 0 <= i < |r| ensures Matches(r[i], f) {
      assert r[i] in multiset(r);
      assert r[i] in multiset(matching);
      var j :| 0 <= j < |matching| && matching[j] == r[i];
    }
  }

  /** What the list promises: only matching products, none more often than in the
      store, in the requested order, at most `limitCount` of them, and with no limit
      every matching product. */
  lemma CatalogueContract(all: seq<Product>, f: FilterState, limitCount: int)
    ensures forall i :: 0 <= i < |Catalogue(all, f, limitCount)| ==> Matches(Catalogue(all, f, limitCount)[i], f)
    ensures multiset(Catalogue(all, f, limitCount)) <= multiset(all)
    ensures Ordered(Catalogue(all, f, limitCount), f.sortBy)
    ensures limitCount > 0 ==> |Catalogue(all, f, limitCount)| <= limitCount
    ensures limitCount == 0 ==> forall x :: x in Catalogue(all, f, limitCount) <==> x in all && Matches(x, f)
  {
    var matching := Filter(all, Matching(f));
    FilterSound(all, Matching(f));
    var sorted := SortDescBy(matching, SortKey(f.sortBy));
    var r := Limit(sorted, limitCount);
    PrefixFacts(sorted, r, f.sortBy);
    SortedIsOrdered(r, f.sortBy);
    WithinMatching(r, all, f);
    forall x ensures limitCount == 0 ==> (x in r <==> x in all && Matches(x, f)) {
      FilterMembership(all, Matching(f), x);
      assert x in sorted <==> x in multiset(sorted);
      assert x in matching <==> x in multiset(matching);
    }
  }

  /** One step of the pipeline: filter by `test` when its filter is set. */
  function Narrow(data: seq<Product>, applied: bool, test: Product -> bool): seq<Product>
  {
    if applied then Filter(data, test) else data
  }

  /** Whether step k (1 to 6, after the active filter) is applied. */
  predicate StepApplied(f: FilterState, k: nat)
  {
    match k
    case 1 => f.category.Some?
    case 2 => TruthyString(f.shopId)
    case 3 => f.minPrice.Some?
    case 4 => f.maxPrice.Some?
    case 5 => TruthyString(f.search)
    case _ => f.saleType.Some?
  }

  /** The test of step k when it is applied. */
  function StepTest(f: FilterState, k: nat): Product -> bool
  {
    match k
    case 1 => InCategory(if f.category.Some? then f.category.value else Mobilya)
    case 2 => InShop(if f.shopId.Some? then f.shopId.value else "")
    case 3 => PriceAtLeast(if f.minPrice.Some? then f.minPrice.value else 0)
    case 4 => PriceAtMost(if f.maxPrice.Some? then f.maxPrice.value else 0)
    case 5 => Mentions(Lower(if f.search.Some? then f.search.value else ""))
    case _ => OfSaleType(if f.saleType.Some? then f.saleType.value else Fixed)
  }

  // After k steps the list holds the products that pass the first k tests.
  predicate PassesFirst(p: Product, f: FilterState, k: nat)
  {
    && (k >= 1 ==> p.isActive)
    && (k >= 2 ==> CategoryOk(p, f))
    && (k >= 3 ==> ShopOk(p, f))
    && (k >= 4 ==> MinPriceOk(p, f))
    && (k >= 5 ==> MaxPriceOk(p, f))
    && (k >= 6 ==> SearchOk(p, f))
    && (k >= 7 ==> SaleTypeOk(p, f))
  }

  /** The products passing the first k tests, as a predicate. */
  function Stage(f: FilterState, k: nat): Product -> bool
  {
    p => PassesFirst(p, f, k)
  }

  /** One step of the pipeline turns the products passing k tests into those passing k + 1. */
  lemma NarrowStep(all: seq<Product>, f: FilterState, k: nat)
    requires 1 <= k < 7
    ensures Narrow(Filter(all, Stage(f, k)), StepApplied(f, k), StepTest(f, k)) == Filter(all, Stage(f, k + 1))
  {
    if StepApplied(f, k) {
      FilterTwice(all, Stage(f, k), StepTest(f, k), Stage(f, k + 1));
    } else {
      FilterEquiv(all, Stage(f, k), Stage(f, k + 1));
    }
  }

  /** `useProducts(filters, limitCount)` over the fetched documents `all`: the list is
      narrowed by one filter at a time, sorted, then cut. */
  method UseProducts(all: seq<Product>, filters: FilterState, limitCount: int)
    returns (productData: seq<Product>)
    ensures productData == Catalogue(all, filters, limitCount)
  {
    productData := NarrowByPlace(all, filters);
    productData := NarrowByOffer(all, filters, productData);

    productData := SortDescBy(productData, SortKey(filters.sortBy));

    if limitCount != 0 {
      productData := Limit(productData, limitCount);
    }
  }

  /** The first narrowing steps of `useProducts`: active products, then the category,
      then the shop. */
  method NarrowByPlace(all: seq<Product>, filters: FilterState) returns (productData: seq<Product>)
    ensures productData == Filter(all, Stage(filters, 3))
  {
    productData := Filter(all, (p: Product) => p.isActive);
    FilterEquiv(all, (p: Product) => p.isActive, Stage(filters, 1));
    if filters.category.Some? {
      productData := Filter(productData, InCategory(filters.category.value));
    }
    NarrowStep(all, filters, 1);
    assert productData == Filter(all, Stage(filters, 2));
    if TruthyString(filters.shopId) {
      productData := Filter(productData, InShop(filters.shopId.value));
    }
    NarrowStep(all, filters, 2);
  }

  /** The remaining narrowing steps of `useProducts`, applied to the products that passed
      the first ones: the price bounds, the search text, then the sale type. */
  method NarrowByOffer(all: seq<Product>, filters: FilterState, placed: seq<Product>)
    returns (productData: seq<Product>)
    requires placed == Filter(all, Stage(filters, 3))
    ensures productData == Filter(all, Matching(filters))
  {
    productData := placed;
    if filters.minPrice.Some? {
      productData := Filter(productData, PriceAtLeast(filters.minPrice.value));
    }
    NarrowStep(all, filters, 3);
    assert productData == Filter(all, Stage(filters, 4));
    if filters.maxPrice.Some? {
      productData := Filter(productData, PriceAtMost(filters.maxPrice.value));
    }
    NarrowStep(all, filters, 4);
    assert productData == Filter(all, Stage(filters, 5));
    if TruthyString(filters.search) {
      var searchLower := Lower(filters.search.value);
      productData := Filter(productData, Mentions(searchLower));
    }
    NarrowStep(all, filters, 5);
    assert productData == Filter(all, Stage(filters, 6));
    if filters.saleType.Some? {
      productData := Filter(productData, OfSaleType(filters.saleType.value));
    }
    NarrowStep(all, filters, 6);
    FilterEquiv(all, Stage(filters, 7), Matching(filters));
  }
}
