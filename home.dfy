/**
 * The catalog page of the client, frontend/src/pages/Home.jsx: its filter state, the
 * query string `load` builds from it, and the Clear Filters reset.
 */
module Home {
  import opened Wrappers
  import opened Seqs
  import opened Text
  import opened ProductModel
  import Catalog

  /** The brand checkboxes, one per key of the `brands` state object. */
  datatype BrandToggles = BrandToggles(nike: bool, adidas: bool, puma: bool, newbalance: bool, underarmour: bool)

  const NoBrands: BrandToggles := BrandToggles(false, false, false, false, false)

  function IsOn(t: BrandToggles, b: Brand): bool
  {
    match b
    case Nike => t.nike
    case Adidas => t.adidas
    case Puma => t.puma
    case NewBalance => t.newbalance
    case UnderArmour => t.underarmour
  }

  /** The page's filter state. */
  datatype Filters = Filters(maxPrice: int, minRating: real, brands: BrandToggles)

  const InitialFilters: Filters := Filters(500, 0.0, NoBrands)

  function Names(bs: seq<Brand>): (r: seq<string>)
    ensures |r| == |bs|
    ensures forall k :: 0 <= k < |r| ==> r[k] == BrandName(bs[k])
  {
    if bs == [] then [] else [BrandName(bs[0])] + Names(bs[1..])
  }

  function IsOnTest(t: BrandToggles): Brand -> bool
  {
    (b: Brand) => IsOn(t, b)
  }

  /** `Object.entries(brands).filter(([, v]) => v).map(([k]) => k)`: the checked keys in key order. */
  function SelectedNames(t: BrandToggles): seq<string>
  {
    Names(Filter(AllBrands, IsOnTest(t)))
  }

  lemma NamesMembership(bs: seq<Brand>, b: Brand)
    ensures BrandName(b) in Names(bs) <==> b in bs
  {
    var r := Names(bs);
    if BrandName(b) in r {
      var k :| 0 <= k < |r| && r[k] == BrandName(b);
      ParseBrandName(b);
      ParseBrandName(bs[k]);
    }
    if b in bs {
      var k :| 0 <= k < |bs| && bs[k] == b;
      assert r[k] == BrandName(b);
    }
  }

  lemma EveryBrandListed(b: Brand)
    ensures b in AllBrands
  {
    match b
    case Nike => assert AllBrands[0] == b;
    case Adidas => assert AllBrands[1] == b;
    case Puma => assert AllBrands[2] == b;
    case NewBalance => assert AllBrands[3] == b;
    case UnderArmour => assert AllBrands[4] == b;
  }

  /** The selected names are the names of exactly the checked brands, and none only when none is checked. */
  lemma SelectedNamesAreChecked(t: BrandToggles)
    ensures forall b: Brand :: BrandName(b) in SelectedNames(t) <==> IsOn(t, b)
    ensures SelectedNames(t) == [] <==> t == NoBrands
  {
    var chosen := Filter(AllBrands, IsOnTest(t));
    forall b: Brand ensures BrandName(b) in SelectedNames(t) <==> IsOn(t, b) {
      NamesMembership(chosen, b);
      EveryBrandListed(b);
    }
    if t == NoBrands {
      FilterNone(AllBrands, IsOnTest(t));
    } else {
      var b: Brand :| IsOn(t, b);
      NamesMembership(chosen, b);
      EveryBrandListed(b);
    }
  }

  /** One `qs.set` call. */
  datatype Param = MaxPrice(price: int) | MinRating(rating: real) | BrandList(names: string)

  /**
   * The query `load` sends: `maxPrice` when it is non-zero, `minRating` when it is above
   * 0, and `brand` (the checked keys joined by commas) when any is checked.
   */
  function BuildQuery(f: Filters): (r: seq<Param>)
  {
    var names := SelectedNames(f.brands);
    (if f.maxPrice != 0 then [MaxPrice(f.maxPrice)] else [])
    + (if f.minRating > 0.0 then [MinRating(f.minRating)] else [])
    + (if names != [] then [BrandList(Join(names, ','))] else [])
  }

  /** The parameters of `GET /products` that a query string delivers to the catalog handler. */
  function Received(qs: seq<Param>): Catalog.Params
  {
    if qs == [] then Catalog.NoParams
    else
      var q := Received(qs[1..]);
      match qs[0]
      case MaxPrice(v) => q.(maxPrice := Some(v))
      case MinRating(v) => q.(minRating := Some(v))
      case BrandList(s) => q.(brand := Some(s))
  }

  /** The server's brand parsing of the joined names gives back exactly those names. */
  lemma BrandListRoundTrip(bs: seq<Brand>)
    requires bs != []
    ensures Catalog.ParseBrandList(Join(Names(bs), ',')) == Names(bs)
  {
    var names := Names(bs);
    forall x | x in names ensures ',' !in x && IsTrimmed(x) && HasNoUpper(x) && x != [] {
      var k :| 0 <= k < |names| && names[k] == x;
      BrandNameShape(bs[k]);
    }
    SplitJoin(names, ',');
    forall k | 0 <= k < |names| ensures ToLower(Trim(names[k])) == names[k] {
      assert names[k] in names;
      TrimOfTrimmed(names[k]);
      ToLowerOfLower(names[k]);
    }
    assert Catalog.LowerTrimEach(names) == names;
    FilterAll(names, (b: string) => b != []);
  }

  /** The fields the page's query string sets on the server's parameters. */
  lemma QueryFields(f: Filters)
    ensures var names := SelectedNames(f.brands);
      Received(BuildQuery(f)) == Catalog.NoParams.(
        maxPrice := if f.maxPrice != 0 then Some(f.maxPrice) else None,
        minRating := if f.minRating > 0.0 then Some(f.minRating) else None,
        brand := if names != [] then Some(Join(names, ',')) else None)
  {
    var names := SelectedNames(f.brands);
    var a := if f.maxPrice != 0 then [MaxPrice(f.maxPrice)] else [];
    var b := if f.minRating > 0.0 then [MinRating(f.minRating)] else [];
    var c := if names != [] then [BrandList(Join(names, ','))] else [];
    assert BuildQuery(f) == a + (b + c);
    var qc := Received(c);
    assert qc == Catalog.NoParams.(brand := if names != [] then Some(Join(names, ',')) else None) by {
      if names != [] {
        assert c[1..] == [];
        assert Received(c) == Received(c[1..]).(brand := Some(Join(names, ',')));
      } else {
        assert c == [];
      }
    }
    var qbc := Received(b + c);
    assert qbc == qc.(minRating := if f.minRating > 0.0 then Some(f.minRating) else None) by {
      ReceivedAppend(b, c);
      if b != [] { assert ([b[0]] + c)[1..] == c; }
    }
    assert Received(a + (b + c)) == qbc.(maxPrice := if f.maxPrice != 0 then Some(f.maxPrice) else None) by {
      ReceivedAppend(a, b + c);
      if a != [] { assert ([a[0]] + (b + c))[1..] == b + c; }
    }
  }

  /**
   * What the catalog handler receives from the page: `maxPrice` exactly when it is
   * non-zero, `minRating` exactly when it is above 0, and a brand list that parses to the
   * checked brands exactly when some brand is checked; nothing else.
   */
  lemma QueryReachesServer(f: Filters)
    ensures var q := Received(BuildQuery(f));
      && q.maxPrice == (if f.maxPrice != 0 then Some(f.maxPrice) else None)
      && q.minRating == (if f.minRating > 0.0 then Some(f.minRating) else None)
      && (q.brand.Some? <==> f.brands != NoBrands)
      && (q.brand.Some? ==> Catalog.ParseBrandList(q.brand.value) == SelectedNames(f.brands))
      && q.minPrice.None? && q.search.None? && q.sort.None? && q.order.None? && q.page.None? && q.limit.None?
  {
    QueryFields(f);
    SelectedNamesAreChecked(f.brands);
    if f.brands != NoBrands {
      BrandListRoundTrip(Filter(AllBrands, IsOnTest(f.brands)));
    }
  }

  lemma {:induction false} ReceivedAppend(a: seq<Param>, b: seq<Param>)
    requires |a| <= 1
    ensures a == [] ==> Received(a + b) == Received(b)
    ensures a != [] ==> Received(a + b) == Received([a[0]] + b)
  {
    if a != [] {
      assert a == [a[0]];
    } else {
      assert a + b == b;
    }
  }

  /**
   * The server's brand filter then keeps exactly the products of a checked brand, or every
   * product when none is checked.
   */
  lemma BrandFilterFollowsCheckboxes(f: Filters, p: Product)
    ensures Catalog.BrandOk(Received(BuildQuery(f)), p) <==> f.brands == NoBrands || IsOn(f.brands, p.brand)
  {
    QueryReachesServer(f);
    SelectedNamesAreChecked(f.brands);
  }

  /** The page's first request asks only for products up to 500. */
  lemma InitialQuery()
    ensures BuildQuery(InitialFilters) == [MaxPrice(500)]
  {
    SelectedNamesAreChecked(NoBrands);
  }

  /** The filter state of the page. */
  class FilterPanel {
    var filters: Filters

    constructor ()
      ensures filters == InitialFilters
    {
      filters := InitialFilters;
    }

    /** Clear Filters: maximum price 500, minimum rating 0, no brand checked, as at the start. */
    method ClearFilters()
      modifies this
      ensures filters == InitialFilters
      ensures BuildQuery(filters) == [MaxPrice(500)]
    {
      filters := filters.(maxPrice := 500);
      filters := filters.(minRating := 0.0);
      filters := filters.(brands := NoBrands);
      InitialQuery();
    }
  }
}
