/**
 * The catalog query of backend/src/controllers/productController.js: `getProducts`
 * (price, brand and text filters, sort, skip/limit paging, then the rating filter on
 * the page) and `getProductById` (a product with its rating summary).
 */
module Catalog {
  import opened Wrappers
  import opened Seqs
  import opened Text
  import opened Sorting
  import opened ProductModel
  import opened ReviewModel
  import Ratings

  /**
   * The query parameters of `GET /products`. `None` is a parameter that is absent; `Some`
   * is one that is present. The handler skips the price, brand, search and rating filters
   * for an empty value too, so for those an empty value is `None`. The defaults of `sort`,
   * `order`, `page` and `limit` replace only a missing value: an empty `page` or `limit`
   * is `Some(0)` (`Number('')`) and an empty `sort` or `order` is `Some("")`.
   */
  datatype Params = Params(
    minPrice: Option<int>,
    maxPrice: Option<int>,
    brand: Option<string>,
    search: Option<string>,
    minRating: Option<real>,
    sort: Option<string>,
    order: Option<string>,
    page: Option<int>,
    limit: Option<int>)

  const DefaultSort: string := "createdAt"
  const DefaultOrder: string := "desc"
  const DefaultPage: int := 1
  const DefaultLimit: int := 24

  /** A request with no parameters at all. */
  const NoParams: Params := Params(None, None, None, None, None, None, None, None, None)

  function LowerTrimEach(parts: seq<string>): (r: seq<string>)
    ensures |r| == |parts|
    ensures forall k :: 0 <= k < |r| ==> r[k] == ToLower(Trim(parts[k]))
  {
    if parts == [] then [] else [ToLower(Trim(parts[0]))] + LowerTrimEach(parts[1..])
  }

  /** An entry of the brand list: non-empty, trimmed, lower-case and free of commas. */
  predicate CleanBrandEntry(b: string)
  {
    b != [] && IsTrimmed(b) && HasNoUpper(b) && ',' !in b
  }

  /** Trimming and lower-casing a comma-free piece gives a trimmed, lower-case, comma-free string. */
  lemma CleanedPiece(x: string)
    requires ',' !in x
    ensures var b := ToLower(Trim(x)); IsTrimmed(b) && HasNoUpper(b) && ',' !in b
  {
    TrimKeepsAbsent(x, ',');
    ToLowerKeepsAbsent(Trim(x), ',');
    ToLowerKeepsTrimmed(Trim(x));
  }

  /** Every entry of the cleaned pieces of a comma-free split is clean, apart from being empty. */
  lemma CleanedPieces(parts: seq<string>)
    requires forall x :: x in parts ==> ',' !in x
    ensures forall b :: b in LowerTrimEach(parts) && b != [] ==> CleanBrandEntry(b)
  {
    var cleaned := LowerTrimEach(parts);
    forall b | b in cleaned && b != [] ensures CleanBrandEntry(b) {
      var k :| 0 <= k < |cleaned| && cleaned[k] == b;
      assert parts[k] in parts;
      CleanedPiece(parts[k]);
    }
  }

  /** `String(brand).split(',').map(b => b.trim().toLowerCase()).filter(Boolean)`. */
  function ParseBrandList(s: string): (r: seq<string>)
    ensures forall b :: b in r ==> CleanBrandEntry(b)
    ensures |r| <= Occurrences(s, ',') + 1
  {
    var parts := Split(s, ',');
    CleanedPieces(parts);
    SplitCount(s, ',');
    Filter(LowerTrimEach(parts), (b: string) => b != [])
  }

  /** `q.price = { $gte: minPrice, $lte: maxPrice }`, each bound only when given. */
  predicate PriceOk(q: Params, p: Product)
  {
    (q.minPrice.Some? ==> q.minPrice.value <= p.price) && (q.maxPrice.Some? ==> p.price <= q.maxPrice.value)
  }

  /** `q.brand = { $in: brands }`, only when some brand survives the parsing. */
  predicate BrandOk(q: Params, p: Product)
  {
    q.brand.None? || ParseBrandList(q.brand.value) == [] || BrandName(p.brand) in ParseBrandList(q.brand.value)
  }

  /** `q.$or` of two case-insensitive matches, on the name and on the description. */
  predicate SearchOk(q: Params, p: Product)
  {
    q.search.None? || ContainsIgnoringCase(p.name, q.search.value) || ContainsIgnoringCase(p.description, q.search.value)
  }

  /** The structural filter `q`: every given condition holds. */
  predicate Matches(q: Params, p: Product)
  {
    PriceOk(q, p) && BrandOk(q, p) && SearchOk(q, p)
  }

  function MatchTest(q: Params): Product -> bool
  {
    (p: Product) => Matches(q, p)
  }

  /** `Product.find(q)`, in storage order. */
  function Matching(q: Params, products: seq<Product>): (r: seq<Product>)
    ensures forall p :: p in r <==> p in products && Matches(q, p)
  {
    Filter(products, MatchTest(q))
  }

  /** The value `.sort({ [field]: … })` compares; a field a product lacks compares as missing. */
  function SortKey(field: string, p: Product): Key
  {
    if field == "createdAt" then Num(p.createdAt)
    else if field == "updatedAt" then Num(p.updatedAt)
    else if field == "_id" then Num(p.id)
    else if field == "price" then Num(p.price)
    else if field == "stock" then Num(p.stock)
    else if field == "name" then Str(p.name)
    else if field == "model" then Str(p.model)
    else if field == "colorway" then Str(p.colorway)
    else if field == "description" then Str(p.description)
    else if field == "brand" then Str(BrandName(p.brand))
    else if field == "condition" then Str(ConditionName(p.condition))
    else if field == "category" then Str(CategoryName(p.category))
    else if field == "releaseDate" then (if p.releaseDate.Some? then Str(p.releaseDate.value) else Missing)
    else Missing
  }

  function SortField(q: Params): string { q.sort.GetOr(DefaultSort) }

  function KeyOf(q: Params): Product -> Key
  {
    (p: Product) => SortKey(SortField(q), p)
  }

  /** `order === 'asc' ? 1 : -1`: any order other than "asc" sorts descending. */
  predicate Ascending(q: Params) { q.order.GetOr(DefaultOrder) == "asc" }

  function PageNumber(q: Params): int { q.page.GetOr(DefaultPage) }
  function Limit(q: Params): int { q.limit.GetOr(DefaultLimit) }
  /** `(page - 1) * limit`. */
  function Skip(q: Params): int { Times(PageNumber(q) - 1, Limit(q)) }

  /**
   * Multiplication written as repeated addition, which keeps the product out of the
   * solver's nonlinear arithmetic; `TimesIsProduct` shows it is `a * b`.
   */
  function Times(a: int, b: int): int
    decreases if a < 0 then -a else a
  {
    if a == 0 then 0 else if a > 0 then Times(a - 1, b) + b else Times(a + 1, b) - b
  }

  lemma {:induction false} TimesIsProduct(a: int, b: int)
    ensures Times(a, b) == a * b
    decreases if a < 0 then -a else a
  {
    if a > 0 {
      TimesIsProduct(a - 1, b);
    } else if a < 0 {
      TimesIsProduct(a + 1, b);
    }
  }

  /** The structural matches in the requested order. */
  function Ordered(q: Params, products: seq<Product>): (r: seq<Product>)
    ensures multiset(r) == multiset(Matching(q, products))
    ensures SortedBy(r, KeyOf(q), Ascending(q))
  {
    SortBy(Matching(q, products), KeyOf(q), Ascending(q))
  }

  datatype QueryError = NegativeSkip

  /**
   * `.skip(skip).limit(limit)`: a negative skip is refused by the store, a limit of 0 means
   * no limit, and a negative limit returns as many as its absolute value.
   */
  function Window<T>(s: seq<T>, skip: int, limit: int): (r: Result<seq<T>, QueryError>)
    ensures r.Err? <==> skip < 0
    ensures r.Ok? && limit > 0 ==> r.value == s[Min(skip, |s|)..Min(skip + limit, |s|)]
    ensures r.Ok? && limit == 0 ==> r.value == s[Min(skip, |s|)..]
    ensures r.Ok? && limit < 0 ==> r.value == s[Min(skip, |s|)..Min(skip - limit, |s|)]
  {
    if skip < 0 then Err(NegativeSkip)
    else
      var rest := s[Min(skip, |s|)..];
      var n := if limit < 0 then -limit else limit;
      if limit == 0 then Ok(rest) else Ok(rest[..Min(n, |rest|)])
  }

  function Min(a: int, b: int): int { if a <= b then a else b }

  /** `Math.ceil(total / limit)` for a non-zero limit. */
  function CeilDiv(total: nat, limit: int): (r: int)
    requires limit != 0
    ensures limit > 0 ==> (r - 1) * limit < total <= r * limit || (total == 0 && r == 0)
    ensures limit < 0 ==> r <= 0
  {
    if limit > 0 then (total + limit - 1) / limit else -(total / -limit)
  }

  /** `pages`; a limit of 0 makes the quotient non-finite, which JSON writes as null. */
  function PageCount(total: nat, limit: int): Option<int>
  {
    if limit == 0 then None else Some(CeilDiv(total, limit))
  }

  /** An item of the response: the product, with `avgRating` attached when the rating filter ran. */
  datatype Listing = Listing(product: Product, avgRating: Option<real>)

  datatype Page = Page(items: seq<Listing>, total: nat, page: int, pages: Option<int>)

  function Plain(ps: seq<Product>): (r: seq<Listing>)
    ensures |r| == |ps|
    ensures forall k :: 0 <= k < |r| ==> r[k] == Listing(ps[k], None)
  {
    if ps == [] then [] else [Listing(ps[0], None)] + Plain(ps[1..])
  }

  /** `items.map(product => ({ ...product, avgRating }))`. */
  function Rated(ps: seq<Product>, reviews: seq<Review>): (r: seq<Listing>)
    ensures |r| == |ps|
    ensures forall k :: 0 <= k < |r| ==> r[k] == Listing(ps[k], Some(Ratings.AvgRating(reviews, ps[k].id)))
  {
    if ps == [] then [] else [Listing(ps[0], Some(Ratings.AvgRating(reviews, ps[0].id)))] + Rated(ps[1..], reviews)
  }

  function ProductsOf(ls: seq<Listing>): (r: seq<Product>)
    ensures |r| == |ls|
    ensures forall k :: 0 <= k < |r| ==> r[k] == ls[k].product
  {
    if ls == [] then [] else [ls[0].product] + ProductsOf(ls[1..])
  }

  /** `p.avgRating >= minRatingNum`. */
  predicate RatingAtLeast(l: Listing, min: real)
  {
    l.avgRating.GetOr(0.0) >= min
  }

  function RatingTest(min: real): Listing -> bool
  {
    (l: Listing) => RatingAtLeast(l, min)
  }

  /**
   * `getProducts` as written: structural filter, sort, skip/limit, then (when `minRating`
   * is given) the rating filter on that page only; `total` and `pages` count the
   * structural matches.
   */
  function GetProducts(q: Params, products: seq<Product>, reviews: seq<Review>): Result<Page, QueryError>
  {
    var window := Window(Ordered(q, products), Skip(q), Limit(q));
    if window.Err? then Err(window.error)
    else
      var items :=
        if q.minRating.Some? then
          Filter(Rated(window.value, reviews), RatingTest(q.minRating.value))
        else Plain(window.value);
      var total := |Matching(q, products)|;
      Ok(Page(items, total, PageNumber(q), PageCount(total, Limit(q))))
  }

  /**
   * Both price bounds are inclusive and a bound that is not given does not constrain:
   * every listed product lies within each bound given, and every stored product within
   * the bounds that passes the other filters is counted among the matches.
   */
  lemma PriceFilterInclusive(q: Params, products: seq<Product>, reviews: seq<Review>)
    ensures forall p :: PriceOk(q, p) <==>
      (q.minPrice.None? || q.minPrice.value <= p.price) && (q.maxPrice.None? || p.price <= q.maxPrice.value)
    ensures GetProducts(q, products, reviews).Ok? ==>
      forall l :: l in GetProducts(q, products, reviews).value.items ==>
        (q.minPrice.None? || q.minPrice.value <= l.product.price)
        && (q.maxPrice.None? || l.product.price <= q.maxPrice.value)
    ensures forall p ::
              p in products && BrandOk(q, p) && SearchOk(q, p)
              && (q.minPrice.None? || q.minPrice.value <= p.price) && (q.maxPrice.None? || p.price <= q.maxPrice.value)
              ==> p in Matching(q, products)
  {
    if GetProducts(q, products, reviews).Ok? {
      ListedProductsMatch(q, products, reviews);
    }
  }

  /**
   * Without a brand every brand passes; with a non-empty parsed list exactly the listed
   * brands pass, so every listed product has one of them.
   */
  lemma BrandFilterIsMembership(q: Params, products: seq<Product>, reviews: seq<Review>)
    ensures q.brand.None? ==> forall p :: BrandOk(q, p)
    ensures q.brand.Some? && ParseBrandList(q.brand.value) != [] ==>
      forall p :: BrandOk(q, p) <==> BrandName(p.brand) in ParseBrandList(q.brand.value)
    ensures q.brand.Some? && ParseBrandList(q.brand.value) != [] && GetProducts(q, products, reviews).Ok? ==>
      forall l :: l in GetProducts(q, products, reviews).value.items ==>
        BrandName(l.product.brand) in ParseBrandList(q.brand.value)
  {
    if GetProducts(q, products, reviews).Ok? {
      ListedProductsMatch(q, products, reviews);
    }
  }

  /** Every listed product is a stored product that passes the structural filter. */
  lemma ListedProductsMatch(q: Params, products: seq<Product>, reviews: seq<Review>)
    requires GetProducts(q, products, reviews).Ok?
    ensures forall l :: l in GetProducts(q, products, reviews).value.items ==>
      l.product in products && Matches(q, l.product)
  {
    var o := Ordered(q, products);
    var w := Window(o, Skip(q), Limit(q)).value;
    var rated := q.minRating.Some?;
    var all := if rated then Rated(w, reviews) else Plain(w);
    var items := GetProducts(q, products, reviews).value.items;
    assert forall l :: l in items ==> l in all;
    WindowMembers(o, Skip(q), Limit(q));
    ListingsOfWindow(w, reviews, rated);
    forall l | l in items ensures l.product in products && Matches(q, l.product) {
      assert l.product in multiset(o);
    }
  }

  /** A window holds only elements of the sequence it is cut from. */
  lemma WindowMembers<T>(s: seq<T>, skip: int, limit: int)
    requires Window(s, skip, limit).Ok?
    ensures forall x :: x in Window(s, skip, limit).value ==> x in s
  {
    var w := Window(s, skip, limit).value;
    forall x | x in w ensures x in s {
      var k :| 0 <= k < |w| && w[k] == x;
      assert w[k] == s[Min(skip, |s|) + k];
    }
  }

  /** A search term matches a product whose name is that term, whatever its case. */
  lemma SearchMatchesOwnName(q: Params, p: Product)
    requires q.search.Some? && ToLower(q.search.value) == ToLower(p.name)
    ensures SearchOk(q, p)
  {
    ContainsItself(p.name);
    ContainsIgnoringCaseOfTerm(p.name, p.name, q.search.value);
  }

  /** Without `minRating` the items are exactly the requested slice of the ordered matches. */
  lemma PlainPageIsSlice(q: Params, products: seq<Product>, reviews: seq<Review>)
    requires q.minRating.None? && Skip(q) >= 0 && Limit(q) > 0
    ensures var o := Ordered(q, products);
      && GetProducts(q, products, reviews).Ok?
      && ProductsOf(GetProducts(q, products, reviews).value.items)
           == o[Min(Skip(q), |o|)..Min(Skip(q) + Limit(q), |o|)]
      && |GetProducts(q, products, reviews).value.items| <= Limit(q)
  {
    var o := Ordered(q, products);
    var lo, hi := Min(Skip(q), |o|), Min(Skip(q) + Limit(q), |o|);
    var w := Window(o, Skip(q), Limit(q)).value;
    assert w == o[lo..hi];
    var total := |Matching(q, products)|;
    assert GetProducts(q, products, reviews) == Ok(Page(Plain(w), total, PageNumber(q), PageCount(total, Limit(q))));
    ProductsOfPlain(w);
  }

  /** A window of a sorted sequence is sorted. */
  lemma WindowSorted<T>(s: seq<T>, skip: int, limit: int, key: T -> Key, ascending: bool)
    requires SortedBy(s, key, ascending) && Window(s, skip, limit).Ok?
    ensures SortedBy(Window(s, skip, limit).value, key, ascending)
  {
    var lo := Min(skip, |s|);
    var hi := if limit > 0 then Min(skip + limit, |s|)
              else if limit == 0 then |s| else Min(skip - limit, |s|);
    assert Window(s, skip, limit).value == s[lo..hi];
    SortedSlice(s, key, ascending, lo, hi);
  }

  lemma ProductsOfPlain(ps: seq<Product>)
    ensures ProductsOf(Plain(ps)) == ps
  {
  }

  /** Without `minRating` the items come in the requested order. */
  lemma PlainPageIsSorted(q: Params, products: seq<Product>, reviews: seq<Review>)
    requires q.minRating.None? && GetProducts(q, products, reviews).Ok?
    ensures SortedBy(ProductsOf(GetProducts(q, products, reviews).value.items), KeyOf(q), Ascending(q))
  {
    var w := Window(Ordered(q, products), Skip(q), Limit(q));
    var total := |Matching(q, products)|;
    assert GetProducts(q, products, reviews) == Ok(Page(Plain(w.value), total, PageNumber(q), PageCount(total, Limit(q))));
    WindowSorted(Ordered(q, products), Skip(q), Limit(q), KeyOf(q), Ascending(q));
    ProductsOfPlain(w.value);
  }

  /**
   * With `minRating` the items are the page's products, in page order, that have an
   * average of at least `minRating` (0 for a product without reviews), each carrying it.
   */
  lemma RatedPageIsFilteredPage(q: Params, products: seq<Product>, reviews: seq<Review>)
    requires q.minRating.Some? && GetProducts(q, products, reviews).Ok?
    ensures var w := Window(Ordered(q, products), Skip(q), Limit(q)).value;
            var items := GetProducts(q, products, reviews).value.items;
      && IsSubsequence(items, Rated(w, reviews))
      && |items| <= |w|
      && (forall l :: l in items ==>
            l.avgRating == Some(Ratings.AvgRating(reviews, l.product.id))
            && Ratings.AvgRating(reviews, l.product.id) >= q.minRating.value)
      && (forall k :: 0 <= k < |w| && Ratings.AvgRating(reviews, w[k].id) >= q.minRating.value ==>
                         Listing(w[k], Some(Ratings.AvgRating(reviews, w[k].id))) in items)
  {
    var w := Window(Ordered(q, products), Skip(q), Limit(q)).value;
    var rated := Rated(w, reviews);
    var keep := RatingTest(q.minRating.value);
    FilterIsSubsequence(rated, keep);
    forall l | l in Filter(rated, keep)
      ensures l.avgRating == Some(Ratings.AvgRating(reviews, l.product.id))
    {
      var k :| 0 <= k < |rated| && rated[k] == l;
    }
    forall k | 0 <= k < |w| && Ratings.AvgRating(reviews, w[k].id) >= q.minRating.value
      ensures Listing(w[k], Some(Ratings.AvgRating(reviews, w[k].id))) in Filter(rated, keep)
    {
      assert rated[k] in rated;
    }
  }

  /** The listing fails only for a negative skip, and `total` and `pages` count the structural matches. */
  lemma GetProductsCounts(q: Params, products: seq<Product>, reviews: seq<Review>)
    ensures GetProducts(q, products, reviews).Ok? <==> Skip(q) >= 0
    ensures GetProducts(q, products, reviews).Ok? ==>
      GetProducts(q, products, reviews).value.total == |Matching(q, products)|
      && GetProducts(q, products, reviews).value.pages == PageCount(|Matching(q, products)|, Limit(q))
  {
  }

  /**
   * An empty `page` (`Some(0)`) makes the skip negative and the query fails; an empty
   * `limit` (`Some(0)`) makes the skip 0, so the query succeeds with no limit and null `pages`.
   */
  lemma EmptyPagingParameters(q: Params, products: seq<Product>, reviews: seq<Review>)
    ensures q.page == Some(0) && Limit(q) > 0 ==> GetProducts(q, products, reviews).Err?
    ensures q.limit == Some(0) ==>
      GetProducts(q, products, reviews).Ok? && GetProducts(q, products, reviews).value.pages == None
  {
    TimesIsProduct(PageNumber(q) - 1, Limit(q));
    GetProductsCounts(q, products, reviews);
  }

  /** `total` and `pages` ignore `minRating`: they count every structural match. */
  lemma TotalIgnoresRating(q: Params, products: seq<Product>, reviews: seq<Review>)
    requires GetProducts(q, products, reviews).Ok?
    ensures var pg := GetProducts(q, products, reviews).value;
            var unrated := GetProducts(q.(minRating := None), products, reviews);
      && pg.total == |Matching(q, products)|
      && pg.pages == PageCount(|Matching(q, products)|, Limit(q))
      && unrated.Ok? && unrated.value.total == pg.total && unrated.value.pages == pg.pages
  {
    var q' := q.(minRating := None);
    assert q'.page == q.page && q'.limit == q.limit;
    assert Skip(q') == Skip(q) && Limit(q') == Limit(q);
    GetProductsCounts(q, products, reviews);
    GetProductsCounts(q', products, reviews);
    MatchingIgnoresRating(q, products);
  }

  /** The structural filter does not look at `minRating`. */
  lemma MatchingIgnoresRating(q: Params, products: seq<Product>)
    ensures Matching(q.(minRating := None), products) == Matching(q, products)
  {
    FilterSameTest(products, MatchTest(q.(minRating := None)), MatchTest(q));
  }

  /** A product, for the worked examples below. */
  function Sample(id: ProductId, createdAt: int): Product
  {
    Product(id, "Runner", "R1", "White", "A shoe", 100, Nike, None, 5, New, None, [], [], Running, createdAt, createdAt)
  }

  /** The three products and one review of the worked example: only the oldest product is rated (5 stars). */
  function ExampleProducts(): seq<Product> { [Sample(1, 30), Sample(2, 20), Sample(3, 10)] }
  function ExampleReviews(): seq<Review> { [Review(1, 3, 7, 5, None, 40)] }
  function ExampleQuery(): Params { NoParams.(minRating := Some(4.5), limit := Some(2)) }

  lemma ExampleAllMatch()
    ensures Matching(ExampleQuery(), ExampleProducts()) == ExampleProducts()
  {
    FilterAll(ExampleProducts(), MatchTest(ExampleQuery()));
  }

  lemma ExampleKeys()
    ensures KeyOf(ExampleQuery())(Sample(1, 30)) == Num(30)
    ensures KeyOf(ExampleQuery())(Sample(2, 20)) == Num(20)
    ensures KeyOf(ExampleQuery())(Sample(3, 10)) == Num(10)
    ensures !Ascending(ExampleQuery())
  {
  }

  /** Sorting newest first keeps a sequence already in that order. */
  lemma ExampleOrdered()
    ensures Ordered(ExampleQuery(), ExampleProducts()) == ExampleProducts()
  {
    var key := KeyOf(ExampleQuery());
    var p1, p2, p3 := Sample(1, 30), Sample(2, 20), Sample(3, 10);
    ExampleAllMatch();
    ExampleKeys();
    assert [p1, p2, p3][1..] == [p2, p3] && [p2, p3][1..] == [p3] && [p3][1..] == [];
    assert SortBy([p3], key, false) == [p3];
    assert SortBy([p2, p3], key, false) == Insert(p2, [p3], key, false);
    InsertInFront(p2, [p3], key, false);
    assert SortBy([p1, p2, p3], key, false) == Insert(p1, [p2, p3], key, false);
    InsertInFront(p1, [p2, p3], key, false);
  }

  lemma ExampleAverages()
    ensures Ratings.AvgRating(ExampleReviews(), 1) == 0.0
    ensures Ratings.AvgRating(ExampleReviews(), 2) == 0.0
    ensures Ratings.AvgRating(ExampleReviews(), 3) == 5.0
  {
    var rs := ExampleReviews();
    assert rs[1..] == [];
    assert Ratings.ReviewsOf(rs, 1) == [];
    assert Ratings.ReviewsOf(rs, 2) == [];
    assert Ratings.ReviewsOf(rs, 3) == rs;
  }

  /**
   * The page shrinks below `limit` on a page that is not the last one: with `minRating`
   * 4.5 and `limit` 2, the first page holds the two unrated products, the filter drops
   * both, and the response has no items while `total` is 3 and `pages` is 2.
   */
  lemma ExampleWindow()
    ensures Window(ExampleProducts(), 0, 2) == Ok([Sample(1, 30), Sample(2, 20)])
  {
    var o := ExampleProducts();
    assert o[0..][..2] == [o[0], o[1]];
  }

  lemma ExampleFirstPage()
    ensures Window(Ordered(ExampleQuery(), ExampleProducts()), Skip(ExampleQuery()), Limit(ExampleQuery()))
            == Ok([Sample(1, 30), Sample(2, 20)])
  {
    assert Skip(ExampleQuery()) == 0 && Limit(ExampleQuery()) == 2;
    ExampleOrdered();
    ExampleWindow();
  }

  lemma ExampleFirstPageUnrated()
    ensures Filter(Rated([Sample(1, 30), Sample(2, 20)], ExampleReviews()), RatingTest(4.5)) == []
  {
    var rated := Rated([Sample(1, 30), Sample(2, 20)], ExampleReviews());
    ExampleAverages();
    assert rated == [Listing(Sample(1, 30), Some(0.0)), Listing(Sample(2, 20), Some(0.0))];
    FilterNone(rated, RatingTest(4.5));
  }

  lemma PageShrinksBelowLimit()
    ensures var pg := GetProducts(ExampleQuery(), ExampleProducts(), ExampleReviews());
      && pg.Ok? && pg.value.items == [] && pg.value.total == 3
      && pg.value.page == 1 && pg.value.pages == Some(2)
  {
    ExampleFirstPage();
    ExampleFirstPageUnrated();
    ExampleAllMatch();
    assert CeilDiv(3, 2) == 2;
  }

  /** Passes every filter the request names, the rating threshold included. */
  predicate FullMatch(q: Params, reviews: seq<Review>, p: Product)
  {
    Matches(q, p) && (q.minRating.Some? ==> Ratings.AvgRating(reviews, p.id) >= q.minRating.value)
  }

  function FullTest(q: Params, reviews: seq<Review>): Product -> bool
  {
    (p: Product) => FullMatch(q, reviews, p)
  }

  function FullMatching(q: Params, products: seq<Product>, reviews: seq<Review>): (r: seq<Product>)
    ensures forall p :: p in r <==> p in products && FullMatch(q, reviews, p)
  {
    Filter(products, FullTest(q, reviews))
  }

  /**
   * The listing with the rating threshold applied before sorting and paging, so that
   * `total` and `pages` describe what the pages actually hold.
   */
  function GetProductsRatedFirst(q: Params, products: seq<Product>, reviews: seq<Review>): Result<Page, QueryError>
  {
    var matching := FullMatching(q, products, reviews);
    var window := Window(SortBy(matching, KeyOf(q), Ascending(q)), Skip(q), Limit(q));
    if window.Err? then Err(window.error)
    else
      var items := if q.minRating.Some? then Rated(window.value, reviews) else Plain(window.value);
      Ok(Page(items, |matching|, PageNumber(q), PageCount(|matching|, Limit(q))))
  }

  /**
   * With the threshold applied first, `total` counts the products that pass every filter,
   * each item passes every filter, and every page before the last one is full.
   */
  lemma RatedFirstPagesAreFull(q: Params, products: seq<Product>, reviews: seq<Review>)
    requires Skip(q) >= 0 && Limit(q) > 0
    ensures var pg := GetProductsRatedFirst(q, products, reviews);
      && pg.Ok?
      && pg.value.total == |FullMatching(q, products, reviews)|
      && (forall l :: l in pg.value.items ==> FullMatch(q, reviews, l.product))
      && (Skip(q) + Limit(q) <= pg.value.total ==> |pg.value.items| == Limit(q))
      && (Skip(q) <= pg.value.total ==> |pg.value.items| == Min(Limit(q), pg.value.total - Skip(q)))
  {
    var matching := FullMatching(q, products, reviews);
    var o := SortBy(matching, KeyOf(q), Ascending(q));
    var w := Window(o, Skip(q), Limit(q)).value;
    var items := if q.minRating.Some? then Rated(w, reviews) else Plain(w);
    assert GetProductsRatedFirst(q, products, reviews)
        == Ok(Page(items, |matching|, PageNumber(q), PageCount(|matching|, Limit(q))));
    ListingsOfWindow(w, reviews, q.minRating.Some?);
    WindowOfSorted(matching, KeyOf(q), Ascending(q), Skip(q), Limit(q));
  }

  /**
   * A window of positive size of a sorted copy holds only elements of the original, and
   * holds `limit` of them unless it runs past the end.
   */
  lemma WindowOfSorted<T>(s: seq<T>, key: T -> Key, ascending: bool, skip: int, limit: int)
    requires skip >= 0 && limit > 0
    ensures var w := Window(SortBy(s, key, ascending), skip, limit).value;
      && (forall x :: x in w ==> x in s)
      && |w| == Min(skip + limit, |s|) - Min(skip, |s|)
  {
    var o := SortBy(s, key, ascending);
    SortByLength(s, key, ascending);
    var w := Window(o, skip, limit).value;
    forall x | x in w ensures x in s {
      assert x in multiset(o);
    }
  }

  /** Every listing of a page, rated or not, is one of the page's products. */
  lemma ListingsOfWindow(w: seq<Product>, reviews: seq<Review>, rated: bool)
    ensures var items := if rated then Rated(w, reviews) else Plain(w);
      |items| == |w| && forall l :: l in items ==> l.product in w
  {
    var items := if rated then Rated(w, reviews) else Plain(w);
    forall l | l in items ensures l.product in w {
      var k :| 0 <= k < |items| && items[k] == l;
      assert l.product == w[k];
    }
  }

  /** Without `minRating` the corrected listing and the listing as written agree. */
  lemma RatedFirstAgreesWithoutRating(q: Params, products: seq<Product>, reviews: seq<Review>)
    requires q.minRating.None?
    ensures GetProductsRatedFirst(q, products, reviews) == GetProducts(q, products, reviews)
  {
    FilterSameTest(products, FullTest(q, reviews), MatchTest(q));
  }

  lemma ExampleFullMatching()
    ensures FullMatching(ExampleQuery(), ExampleProducts(), ExampleReviews()) == [Sample(3, 10)]
  {
    var ps := ExampleProducts();
    ExampleAverages();
    assert ps[1..] == [Sample(2, 20), Sample(3, 10)] && ps[1..][1..] == [Sample(3, 10)] && ps[1..][1..][1..] == [];
    assert !FullMatch(ExampleQuery(), ExampleReviews(), Sample(1, 30));
    assert !FullMatch(ExampleQuery(), ExampleReviews(), Sample(2, 20));
    assert FullMatch(ExampleQuery(), ExampleReviews(), Sample(3, 10));
  }

  /**
   * On the worked example the corrected listing returns the one product rated above 4.5,
   * with `total` 1 and a single page.
   */
  lemma RatedFirstExample()
    ensures var pg := GetProductsRatedFirst(ExampleQuery(), ExampleProducts(), ExampleReviews());
      && pg.Ok? && pg.value.items == [Listing(Sample(3, 10), Some(5.0))]
      && pg.value.total == 1 && pg.value.pages == Some(1)
  {
    var q := ExampleQuery();
    var p3 := Sample(3, 10);
    ExampleFullMatching();
    assert [p3][1..] == [];
    assert SortBy([p3], KeyOf(q), Ascending(q)) == [p3];
    assert Skip(q) == 0 && Limit(q) == 2;
    assert Window([p3], 0, 2) == Ok([p3]);
    ExampleAverages();
    assert Rated([p3], ExampleReviews()) == [Listing(p3, Some(5.0))];
  }

  /** The rating summary attached to a single product. */
  datatype Detail = Detail(product: Product, avgRating: real, reviewCount: nat)

  /** `getProductById`: 404 for an unknown id; otherwise the product with its average and count. */
  function GetProductById(products: seq<Product>, reviews: seq<Review>, id: ProductId): (r: Result<Detail, int>)
    ensures r.Err? <==> forall k :: 0 <= k < |products| ==> products[k].id != id
    ensures r.Err? ==> r.error == 404
    ensures r.Ok? ==> r.value.product in products && r.value.product.id == id
    ensures r.Ok? ==> r.value.avgRating == Ratings.RatingSummary(reviews, id).avgRating
                      && r.value.reviewCount == Ratings.RatingSummary(reviews, id).reviewCount
  {
    var found := FindById(products, id);
    if found.None? then Err(404)
    else
      var summary := Ratings.RatingSummary(reviews, id);
      Ok(Detail(found.value, summary.avgRating, summary.reviewCount))
  }

  /** A product without reviews is shown with average 0 and count 0. */
  lemma DetailWithoutReviews(products: seq<Product>, reviews: seq<Review>, id: ProductId)
    requires GetProductById(products, reviews, id).Ok?
    requires forall x :: x in reviews ==> x.productId != id
    ensures GetProductById(products, reviews, id).value.avgRating == 0.0
    ensures GetProductById(products, reviews, id).value.reviewCount == 0
  {
    Ratings.EmptySummary(reviews, id);
  }
}
