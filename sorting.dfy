/**
 * `sortProducts`: the sort select's value split into a field and a direction, the comparator
 * built from them, and the in-place `Array.prototype.sort` it is passed to. The comparator never
 * returns 0, so the order it leaves equal keys in is not determined. It is not a consistent
 * comparator for `Array.prototype.sort` either (it calls a product less than itself), for which
 * the language leaves the whole order to the engine; the model assumes the engine still sorts by
 * key. The sort is modelled by an insertion sort, and what is proved about it (a permutation with
 * no pair the comparator would swap) is what every correct sort by key yields.
 */
module Sorting {
  import opened Options
  import opened Text
  import opened Catalog

  datatype Field = ByName | ByPrice | Unkeyed
  datatype Direction = Asc | Desc
  datatype Order = Order(field: Field, direction: Direction)

  /** The text before the first `-`, or all of it when there is none. */
  function UpToDash(s: string): string
  {
    if s == [] || s[0] == '-' then [] else [s[0]] + UpToDash(s[1..])
  }

  /** The text after the first `-`, or None when there is none. */
  function AfterDash(s: string): Option<string>
  {
    if s == [] then None else if s[0] == '-' then Some(s[1..]) else AfterDash(s[1..])
  }

  /**
   * `const [field, direction] = currentFilters.sort.split('-')`, read the way the comparator
   * reads it: a field other than `name` or `price` compares nothing, and any direction other
   * than `asc` takes the descending branch.
   */
  function ParseSort(sort: string): (r: Order)
    ensures r.field == ByName <==> UpToDash(sort) == "name"
    ensures r.field == ByPrice <==> UpToDash(sort) == "price"
    ensures r.direction == Asc <==> AfterDash(sort).Some? && UpToDash(AfterDash(sort).value) == "asc"
  {
    var field := UpToDash(sort);
    var direction := match AfterDash(sort)
      case Some(rest) => Some(UpToDash(rest))
      case None => None;
    Order(if field == "name" then ByName else if field == "price" then ByPrice else Unkeyed,
          if direction == Some("asc") then Asc else Desc)
  }

  lemma {:induction false} UpToDashWithoutDash(s: string, tail: string)
    requires '-' !in s
    ensures UpToDash(s + tail) == s + UpToDash(tail)
    ensures AfterDash(s + tail) == AfterDash(tail)
  {
    if s != [] {
      assert (s + tail)[0] == s[0] && (s + tail)[1..] == s[1..] + tail;
      UpToDashWithoutDash(s[1..], tail);
      assert s == [s[0]] + s[1..];
    } else {
      assert s + tail == tail;
    }
  }

  /** A value `field-direction` with no other dash splits into that field and that direction. */
  lemma ParseSortOfPair(field: string, direction: string)
    requires '-' !in field && '-' !in direction
    ensures ParseSort(field + "-" + direction) ==
            Order(if field == "name" then ByName else if field == "price" then ByPrice else Unkeyed,
                  if direction == "asc" then Asc else Desc)
  {
    UpToDashWithoutDash(field, "-" + direction);
    assert field + "-" + direction == field + ("-" + direction);
    assert UpToDash("-" + direction) == [] && AfterDash("-" + direction) == Some(direction);
    UpToDashWithoutDash(direction, []);
    assert direction + [] == direction;
  }

  /** The four values of the sort select. */
  lemma SortSelectValues()
    ensures ParseSort("name-asc") == Order(ByName, Asc)
    ensures ParseSort("name-desc") == Order(ByName, Desc)
    ensures ParseSort("price-asc") == Order(ByPrice, Asc)
    ensures ParseSort("price-desc") == Order(ByPrice, Desc)
  {
    ParseSortOfPair("name", "asc");
    assert "name-asc" == "name" + "-" + "asc";
    ParseSortOfPair("name", "desc");
    assert "name-desc" == "name" + "-" + "desc";
    ParseSortOfPair("price", "asc");
    assert "price-asc" == "price" + "-" + "asc";
    ParseSortOfPair("price", "desc");
    assert "price-desc" == "price" + "-" + "desc";
  }

  /** The comparator: 1 puts `b` first, -1 puts `a` first. It never answers 0. */
  function Compare(o: Order, a: Product, b: Product): (r: int)
    ensures r == 1 || r == -1
  {
    match o.field
    case ByName =>
      var valueA, valueB := ToLower(a.name), ToLower(b.name);
      if o.direction == Asc then (if LexLess(valueB, valueA) then 1 else -1)
      else (if LexLess(valueA, valueB) then 1 else -1)
    case ByPrice =>
      if o.direction == Asc then (if a.price > b.price then 1 else -1)
      else (if a.price < b.price then 1 else -1)
    case Unkeyed => -1
  }

  /** `a` may stand before `b`: the comparator does not ask for them to be swapped. */
  predicate InOrder(o: Order, a: Product, b: Product)
  {
    Compare(o, a, b) == -1
  }

  /** No pair of the list is one the comparator would swap. */
  predicate Ordered(o: Order, s: seq<Product>)
  {
    forall i, j :: 0 <= i < j < |s| ==> InOrder(o, s[i], s[j])
  }

  /** For the price field, ordered means non-decreasing prices ascending and non-increasing descending. */
  lemma OrderedByPrice(s: seq<Product>)
    ensures Ordered(Order(ByPrice, Asc), s) <==> forall i, j :: 0 <= i < j < |s| ==> s[i].price <= s[j].price
    ensures Ordered(Order(ByPrice, Desc), s) <==> forall i, j :: 0 <= i < j < |s| ==> s[i].price >= s[j].price
  {
  }

  /**
   * For the name field, ordered means lower-cased names never decrease (ascending) or never
   * increase (descending) in string order.
   */
  lemma OrderedByName(s: seq<Product>)
    ensures Ordered(Order(ByName, Asc), s) <==>
            forall i, j :: 0 <= i < j < |s| ==> !LexLess(ToLower(s[j].name), ToLower(s[i].name))
    ensures Ordered(Order(ByName, Desc), s) <==>
            forall i, j :: 0 <= i < j < |s| ==> !LexLess(ToLower(s[i].name), ToLower(s[j].name))
  {
  }

  lemma InOrderTotal(o: Order, a: Product, b: Product)
    ensures InOrder(o, a, b) || InOrder(o, b, a)
  {
    if o.field == ByName {
      var ka, kb := ToLower(a.name), ToLower(b.name);
      if LexLess(ka, kb) {
        LexLessAsymmetric(ka, kb);
      }
    }
  }

  lemma InOrderTransitive(o: Order, a: Product, b: Product, c: Product)
    requires InOrder(o, a, b) && InOrder(o, b, c)
    ensures InOrder(o, a, c)
  {
    if o.field == ByName {
      var ka, kb, kc := ToLower(a.name), ToLower(b.name), ToLower(c.name);
      LexLessTotal(ka, kb);
      LexLessTotal(kb, kc);
      if o.direction == Asc {
        if LexLess(kc, ka) {
          if LexLess(ka, kb) { LexLessTransitive(kc, ka, kb); }
        }
      } else {
        if LexLess(ka, kc) {
          if LexLess(kc, kb) { LexLessTransitive(ka, kc, kb); }
        }
      }
    }
  }

  /** Inserts one product into a sorted list, before the first element it may stand before. */
  function Insert(o: Order, x: Product, s: seq<Product>): (r: seq<Product>)
    ensures |r| == |s| + 1
  {
    if s == [] then [x]
    else if InOrder(o, x, s[0]) then [x] + s
    else [s[0]] + Insert(o, x, s[1..])
  }

  /** `filteredProducts.sort(comparator)`. */
  function SortBy(o: Order, s: seq<Product>): (r: seq<Product>)
    ensures |r| == |s|
  {
    if s == [] then [] else Insert(o, s[0], SortBy(o, s[1..]))
  }

  lemma {:induction false} InsertElements(o: Order, x: Product, s: seq<Product>)
    ensures multiset(Insert(o, x, s)) == multiset(s) + multiset{x}
  {
    if s != [] && !InOrder(o, x, s[0]) {
      InsertElements(o, x, s[1..]);
      assert s == [s[0]] + s[1..];
    }
  }

  /** When `x` goes behind the head of a sorted list, the head may stand before all that follows it. */
  lemma HeadBeforeRest(o: Order, x: Product, s: seq<Product>)
    requires Ordered(o, s) && s != [] && !InOrder(o, x, s[0])
    ensures forall y :: y in Insert(o, x, s[1..]) ==> InOrder(o, s[0], y)
  {
    InOrderTotal(o, x, s[0]);
    InsertElements(o, x, s[1..]);
    forall y | y in Insert(o, x, s[1..]) ensures InOrder(o, s[0], y) {
      assert y in multiset(Insert(o, x, s[1..]));
      if y != x {
        assert y in multiset(s[1..]);
        var k :| 0 <= k < |s[1..]| && s[1..][k] == y;
        assert s[k + 1] == y;
      }
    }
  }

  /** A head that may stand before every element of a sorted list keeps it sorted. */
  lemma ConsOrdered(o: Order, h: Product, t: seq<Product>)
    requires Ordered(o, t) && forall y :: y in t ==> InOrder(o, h, y)
    ensures Ordered(o, [h] + t)
  {
    var r := [h] + t;
    forall i, j | 0 <= i < j < |r| ensures InOrder(o, r[i], r[j]) {
      assert r[j] == t[j - 1];
      if i == 0 {
        assert t[j - 1] in t;
      } else {
        assert r[i] == t[i - 1];
      }
    }
  }

  lemma {:induction false} InsertSorted(o: Order, x: Product, s: seq<Product>)
    requires Ordered(o, s)
    ensures multiset(Insert(o, x, s)) == multiset(s) + multiset{x}
    ensures Ordered(o, Insert(o, x, s))
  {
    InsertElements(o, x, s);
    if s == [] {
    } else if InOrder(o, x, s[0]) {
      forall y | y in s ensures InOrder(o, x, y) {
        var k :| 0 <= k < |s| && s[k] == y;
        if k > 0 {
          InOrderTransitive(o, x, s[0], y);
        }
      }
      ConsOrdered(o, x, s);
    } else {
      assert Ordered(o, s[1..]);
      InsertSorted(o, x, s[1..]);
      HeadBeforeRest(o, x, s);
      ConsOrdered(o, s[0], Insert(o, x, s[1..]));
    }
  }

  /** Sorting yields a permutation of its input with no pair the comparator would swap. */
  lemma {:induction false} SortByIsSortedPermutation(o: Order, s: seq<Product>)
    ensures multiset(SortBy(o, s)) == multiset(s)
    ensures Ordered(o, SortBy(o, s))
  {
    if s != [] {
      SortByIsSortedPermutation(o, s[1..]);
      InsertSorted(o, s[0], SortBy(o, s[1..]));
      assert s == [s[0]] + s[1..];
    }
  }

  /** Two products with different keys have one order only; used by the examples below. */
  lemma TwoInOrder(o: Order, x: Product, y: Product, s: seq<Product>)
    requires multiset(s) == multiset([x, y]) && x != y
    requires Ordered(o, s) && !InOrder(o, y, x)
    ensures s == [x, y]
  {
    assert |s| == |multiset(s)| == 2;
    assert s == [s[0], s[1]];
    assert InOrder(o, s[0], s[1]);
    assert multiset{s[0], s[1]} == multiset{x, y};
    assert s[0] == x;
    assert s[1] == y;
  }

  /** The order `price-asc` selects (see `SortSelectValues`) puts a product at 5 before one at 10. */
  lemma PriceAscExample(cheap: Product, dear: Product, s: seq<Product>)
    requires cheap.price == 500 && dear.price == 1000
    requires multiset(s) == multiset([dear, cheap]) && Ordered(Order(ByPrice, Asc), s)
    ensures s == [cheap, dear]
  {
    var o := Order(ByPrice, Asc);
    assert Compare(o, dear, cheap) == 1;
    assert multiset([dear, cheap]) == multiset([cheap, dear]);
    TwoInOrder(o, cheap, dear, s);
  }

  /** The order `name-desc` selects (see `SortSelectValues`) puts `Banana` before `Apple`. */
  lemma NameDescExample(apple: Product, banana: Product, s: seq<Product>)
    requires apple.name == "Apple" && banana.name == "Banana"
    requires multiset(s) == multiset([apple, banana]) && Ordered(Order(ByName, Desc), s)
    ensures s == [banana, apple]
  {
    var o := Order(ByName, Desc);
    var ka, kb := ToLower(apple.name), ToLower(banana.name);
    assert ka[0] == 'a' && kb[0] == 'b';
    assert LexLess(ka, kb);
    assert Compare(o, apple, banana) == 1;
    assert multiset([apple, banana]) == multiset([banana, apple]);
    TwoInOrder(o, banana, apple, s);
  }
}
