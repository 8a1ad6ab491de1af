/**
 * The product catalog that the products page loads once and never changes: the product record,
 * its inventory status, the lookup by SKU used by "add to cart", and the list of brands offered
 * as filter checkboxes.
 */
module Catalog {
  import opened Options
  import opened Text

  /** The four inventory statuses a product carries as `inventory_status`. */
  datatype Status = InStock | LowStock | ShipToStore | Unavailable

  /** A catalog product; prices are whole cents. */
  datatype Product = Product(
    sku: string,
    name: string,
    brand: string,
    category: string,
    price: int,
    proPrice: int,
    unit: string,
    status: Status)

  /** The status named by a checkbox value, or None when the value is not one of the four statuses. */
  function ParseStatus(value: string): (r: Option<Status>)
    ensures r == Some(InStock) <==> value == "in_stock"
    ensures r == Some(LowStock) <==> value == "low_stock"
    ensures r == Some(ShipToStore) <==> value == "ship_to_store"
    ensures r == Some(Unavailable) <==> value == "unavailable"
  {
    if value == "in_stock" then Some(InStock)
    else if value == "low_stock" then Some(LowStock)
    else if value == "ship_to_store" then Some(ShipToStore)
    else if value == "unavailable" then Some(Unavailable)
    else None
  }

  /** `allProducts.find(p => p.sku === sku)`: the first product with that SKU. */
  function FindProduct(catalog: seq<Product>, sku: string): (r: Option<Product>)
    ensures r.None? <==> forall p :: p in catalog ==> p.sku != sku
    ensures r.Some? ==> r.value in catalog && r.value.sku == sku
    ensures r.Some? ==> exists i :: 0 <= i < |catalog| && catalog[i] == r.value &&
                                    forall j :: 0 <= j < i ==> catalog[j].sku != sku
  {
    if catalog == [] then None
    else if catalog[0].sku == sku then Some(catalog[0])
    else
      var r := FindProduct(catalog[1..], sku);
      assert forall p :: p in catalog ==> p == catalog[0] || p in catalog[1..];
      if r.Some? then
        ghost var i :| 0 <= i < |catalog[1..]| && catalog[1..][i] == r.value &&
                       forall j :: 0 <= j < i ==> catalog[1..][j].sku != sku;
        assert catalog[i + 1] == r.value;
        r
      else r
  }

  /** Every pair of the list is in string order, so it is sorted and has no duplicates. */
  predicate StrictlyIncreasing(s: seq<string>)
  {
    forall i, j :: 0 <= i < j < |s| ==> LexLess(s[i], s[j])
  }

  /** The brands that occur anywhere in the catalog. */
  function BrandsOf(catalog: seq<Product>): set<string>
  {
    set p | p in catalog :: p.brand
  }

  /** Adds one brand to a sorted, duplicate-free list. */
  function InsertBrand(b: string, s: seq<string>): (r: seq<string>)
    requires StrictlyIncreasing(s)
    ensures StrictlyIncreasing(r)
    ensures forall x :: x in r <==> x == b || x in s
  {
    if s == [] then [b]
    else if b == s[0] then s
    else if LexLess(b, s[0]) then
      forall j | 0 < j < |s| ensures LexLess(b, s[j]) {
        LexLessTransitive(b, s[0], s[j]);
      }
      [b] + s
    else
      var t := InsertBrand(b, s[1..]);
      LexLessTotal(b, s[0]);
      assert forall x :: x in t ==> LexLess(s[0], x) by {
        forall x | x in t ensures LexLess(s[0], x) {
          if x != b {
            var j :| 0 <= j < |s[1..]| && s[1..][j] == x;
            assert s[j + 1] == x;
          }
        }
      }
      [s[0]] + t
  }

  /**
   * `[...new Set(allProducts.map(p => p.brand))].sort()`: the distinct brands of the whole
   * catalog in string order.
   */
  function BrandList(catalog: seq<Product>): (r: seq<string>)
    ensures StrictlyIncreasing(r)
    ensures forall b :: b in r <==> b in BrandsOf(catalog)
  {
    if catalog == [] then []
    else
      var r := InsertBrand(catalog[0].brand, BrandList(catalog[1..]));
      assert forall p :: p in catalog <==> p == catalog[0] || p in catalog[1..];
      r
  }

  /** Two non-empty strictly increasing lists with the same elements start with the same element. */
  lemma StrictlyIncreasingHeads(s: seq<string>, t: seq<string>)
    requires StrictlyIncreasing(s) && StrictlyIncreasing(t)
    requires forall x :: x in s <==> x in t
    requires s != [] && t != []
    ensures s[0] == t[0]
  {
    assert s[0] in t;
    var k :| 0 <= k < |t| && t[k] == s[0];
    assert t[0] in s;
    var j :| 0 <= j < |s| && s[j] == t[0];
    if k != 0 && j != 0 {
      LexLessAsymmetric(t[0], s[0]);
    }
  }

  /** A strictly increasing list is determined by its elements, so the brand list is unique. */
  lemma {:induction false} StrictlyIncreasingUnique(s: seq<string>, t: seq<string>)
    requires StrictlyIncreasing(s) && StrictlyIncreasing(t)
    requires forall x :: x in s <==> x in t
    ensures s == t
    decreases |s|
  {
    assert s != [] ==> s[0] in t;
    assert t != [] ==> t[0] in s;
    if s != [] && t != [] {
      StrictlyIncreasingHeads(s, t);
      assert s == [s[0]] + s[1..] && t == [t[0]] + t[1..];
      LexLessIrreflexive(s[0]);
      forall x ensures x in s[1..] <==> x in t[1..] {
        if x in s[1..] {
          var j :| 0 <= j < |s[1..]| && s[1..][j] == x;
          assert LexLess(s[0], s[j + 1]);
          assert x in t && x != t[0];
          assert x in [t[0]] + t[1..];
        }
        if x in t[1..] {
          var j :| 0 <= j < |t[1..]| && t[1..][j] == x;
          assert LexLess(t[0], t[j + 1]);
          assert x in s && x != s[0];
          assert x in [s[0]] + s[1..];
        }
      }
      StrictlyIncreasingUnique(s[1..], t[1..]);
    }
  }
}
