/**
 * The filter configuration of the products page and the predicate `applyFilters` keeps products
 * by: five facets joined by "and" (category, search, availability, brand, price).
 */
module Filters {
  import opened Options
  import opened Text
  import opened Catalog
  import opened Sequences

  /**
   * `currentFilters`. `availability` and `brands` are the arrays the checkboxes build; prices
   * are whole cents and an absent bound is `null`; `sort` is the sort select's value.
   */
  datatype Config = Config(
    category: string,
    search: string,
    availability: seq<Status>,
    brands: seq<string>,
    priceMin: Option<int>,
    priceMax: Option<int>,
    sort: string)

  /** The configuration the page starts with and `clearAllFilters` restores. */
  const Default: Config := Config("all", "", [InStock, LowStock, ShipToStore], [], None, None, "name-asc")

  // The five facets, each stated as the condition a product must meet.

  predicate CategoryFacet(f: Config, p: Product)
  {
    f.category == "all" || p.category == f.category
  }

  /** Empty search text passes everything; otherwise the text must occur, ignoring case, in the name, SKU or brand. */
  predicate SearchFacet(f: Config, p: Product)
  {
    var needle := ToLower(f.search);
    f.search == "" || Includes(ToLower(p.name), needle) || Includes(ToLower(p.sku), needle) ||
    Includes(ToLower(p.brand), needle)
  }

  predicate AvailabilityFacet(f: Config, p: Product)
  {
    p.status in f.availability
  }

  /** An empty brand list passes everything; otherwise the brand must be in it. */
  predicate BrandFacet(f: Config, p: Product)
  {
    f.brands == [] || p.brand in f.brands
  }

  /** Inclusive bounds; an absent bound does not restrict. */
  predicate PriceFacet(f: Config, p: Product)
  {
    (f.priceMin.None? || f.priceMin.value <= p.price) && (f.priceMax.None? || p.price <= f.priceMax.value)
  }

  /** The callback `applyFilters` passes to `allProducts.filter`, with its early returns. */
  predicate Keep(f: Config, p: Product)
    ensures Keep(f, p) <==>
            CategoryFacet(f, p) && SearchFacet(f, p) && AvailabilityFacet(f, p) && BrandFacet(f, p) && PriceFacet(f, p)
  {
    if f.category != "all" && p.category != f.category then false
    else if f.search != "" &&
            (var searchLower := ToLower(f.search);
             !Includes(ToLower(p.name), searchLower) && !Includes(ToLower(p.sku), searchLower) &&
             !Includes(ToLower(p.brand), searchLower)) then false
    else if p.status !in f.availability then false
    else if |f.brands| > 0 && p.brand !in f.brands then false
    else if f.priceMin.Some? && p.price < f.priceMin.value then false
    else if f.priceMax.Some? && p.price > f.priceMax.value then false
    else true
  }

  /** `allProducts.filter(...)`, before sorting. */
  function ApplyFilter(catalog: seq<Product>, f: Config): (r: seq<Product>)
    ensures |r| <= |catalog|
    ensures forall p :: p in r ==> p in catalog && Keep(f, p)
  {
    if catalog == [] then []
    else (if Keep(f, catalog[0]) then [catalog[0]] else []) + ApplyFilter(catalog[1..], f)
  }

  /** The filtered list holds exactly the catalog products that pass every facet. */
  lemma {:induction false} FilteredMembership(catalog: seq<Product>, f: Config)
    ensures forall p :: p in ApplyFilter(catalog, f) <==>
                        p in catalog && CategoryFacet(f, p) && SearchFacet(f, p) && AvailabilityFacet(f, p) &&
                        BrandFacet(f, p) && PriceFacet(f, p)
  {
    FilteredKeeps(catalog, f);
  }

  lemma {:induction false} FilteredKeeps(catalog: seq<Product>, f: Config)
    ensures forall p :: p in ApplyFilter(catalog, f) <==> p in catalog && Keep(f, p)
  {
    if catalog != [] {
      FilteredKeeps(catalog[1..], f);
      assert forall p :: p in catalog <==> p == catalog[0] || p in catalog[1..];
    }
  }

  /** Filtering a concatenation filters each part, so the result keeps catalog order. */
  lemma {:induction false} FilterConcat(a: seq<Product>, b: seq<Product>, f: Config)
    ensures ApplyFilter(a + b, f) == ApplyFilter(a, f) + ApplyFilter(b, f)
  {
    if a == [] {
      assert a + b == b;
    } else {
      assert (a + b)[0] == a[0] && (a + b)[1..] == a[1..] + b;
      FilterConcat(a[1..], b, f);
    }
  }

  /** The filtered list is the catalog with some products left out, the rest in catalog order. */
  lemma {:induction false} FilterIsSubsequence(catalog: seq<Product>, f: Config)
    ensures IsSubsequence(ApplyFilter(catalog, f), catalog)
  {
    if catalog != [] {
      FilterIsSubsequence(catalog[1..], f);
      var rest := ApplyFilter(catalog[1..], f);
      if Keep(f, catalog[0]) {
        var r := [catalog[0]] + rest;
        assert r[0] == catalog[0] && r[1..] == rest;
      } else {
        assert ApplyFilter(catalog, f) == rest;
      }
    }
  }

  /** Each product appears in the result as often as in the catalog if it passes, and not at all otherwise. */
  lemma {:induction false} FilterMultiplicity(catalog: seq<Product>, f: Config, p: Product)
    ensures multiset(ApplyFilter(catalog, f))[p] == if Keep(f, p) then multiset(catalog)[p] else 0
  {
    if catalog != [] {
      FilterMultiplicity(catalog[1..], f, p);
      assert catalog == [catalog[0]] + catalog[1..];
    }
  }

  /** Filtering twice with the same configuration is filtering once. */
  lemma {:induction false} FilterIdempotent(catalog: seq<Product>, f: Config)
    ensures ApplyFilter(ApplyFilter(catalog, f), f) == ApplyFilter(catalog, f)
  {
    if catalog != [] {
      FilterIdempotent(catalog[1..], f);
      var rest := ApplyFilter(catalog[1..], f);
      if Keep(f, catalog[0]) {
        var r := [catalog[0]] + rest;
        assert r[0] == catalog[0] && r[1..] == rest;
      } else {
        assert ApplyFilter(catalog, f) == rest;
      }
    }
  }

  /** Two configurations that keep the same products of a catalog filter it the same way. */
  lemma {:induction false} FilterCongruence(catalog: seq<Product>, f: Config, g: Config)
    requires forall p :: p in catalog ==> (Keep(f, p) <==> Keep(g, p))
    ensures ApplyFilter(catalog, f) == ApplyFilter(catalog, g)
  {
    if catalog != [] {
      assert catalog[0] in catalog;
      assert forall p :: p in catalog[1..] ==> p in catalog;
      FilterCongruence(catalog[1..], f, g);
    }
  }

  /** The default configuration keeps a product exactly when it is not `unavailable`. */
  lemma DefaultKeep(p: Product)
    ensures Keep(Default, p) <==> p.status != Unavailable
  {
  }

  /** Under the default configuration exactly the catalog products that are not `unavailable` are kept. */
  lemma DefaultKeepsAvailable(catalog: seq<Product>)
    ensures forall p :: p in ApplyFilter(catalog, Default) <==> p in catalog && p.status != Unavailable
  {
    FilteredKeeps(catalog, Default);
    forall p ensures Keep(Default, p) <==> p.status != Unavailable {
      DefaultKeep(p);
    }
  }

  /** A minimum above the maximum keeps nothing. */
  lemma {:induction false} InvertedPriceRangeKeepsNothing(catalog: seq<Product>, f: Config)
    requires f.priceMin.Some? && f.priceMax.Some? && f.priceMin.value > f.priceMax.value
    ensures ApplyFilter(catalog, f) == []
  {
    if catalog != [] {
      InvertedPriceRangeKeepsNothing(catalog[1..], f);
    }
  }

  /**
   * Ticking every brand checkbox (the whole catalog's brand list) filters exactly like ticking
   * none.
   */
  lemma EveryBrandIsNoBrand(catalog: seq<Product>, f: Config)
    ensures ApplyFilter(catalog, f.(brands := BrandList(catalog))) == ApplyFilter(catalog, f.(brands := []))
  {
    forall p | p in catalog
      ensures Keep(f.(brands := BrandList(catalog)), p) <==> Keep(f.(brands := []), p)
    {
      assert p.brand in BrandsOf(catalog);
    }
    FilterCongruence(catalog, f.(brands := BrandList(catalog)), f.(brands := []));
  }

  /** The search ignores the case of the search text. */
  lemma SearchIgnoresCase(f: Config, p: Product)
    ensures Keep(f, p) <==> Keep(f.(search := ToLower(f.search)), p)
  {
    ToLowerIdempotent(f.search);
    assert f.search == "" <==> ToLower(f.search) == "";
  }

  /** Searching `app` finds a product named `Apple` and one whose SKU is `APP-100`. */
  lemma SearchExample(f: Config, apple: Product, tool: Product)
    requires f.search == "app"
    requires apple.name == "Apple" && tool.sku == "APP-100"
    ensures SearchFacet(f, apple) && SearchFacet(f, tool)
  {
    assert ToLower("app") == "app";
    assert ToLower("Apple") == "apple";
    assert IsPrefix("app", "apple");
    assert ToLower("APP-100") == "app-100";
    assert IsPrefix("app", "app-100");
  }

  /** The default configuration keeps an in-stock product and drops an unavailable one. */
  lemma DefaultExample(a: Product, b: Product)
    requires a.status == InStock && b.status == Unavailable
    ensures ApplyFilter([a, b], Default) == [a]
  {
    assert [a, b][1..] == [b];
    assert [b][1..] == [];
    assert Keep(Default, a) && !Keep(Default, b);
    assert ApplyFilter([b], Default) == [];
    assert ApplyFilter([a, b], Default) == [a] + ApplyFilter([b], Default);
  }
}
