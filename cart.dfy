/**
 * The cart store: an ordered list of line items, at most one per SKU when it starts that way,
 * kept in local storage under `lumberBossCart` and pushed to subscribed listeners after every
 * change. The first part states the effect of each operation on the list as a function, with
 * the lemmas that say what it means; the class `CartService` is the store itself.
 */
module Cart {
  import opened Options
  import opened Catalog
  import opened Sequences

  /** One line of the cart. Prices are whole cents. */
  datatype Item = Item(sku: string, name: string, price: int, unit: string, quantity: int)

  /**
   * What `localStorage.getItem('lumberBossCart')` holds: nothing or the empty string (every reader
   * tests the result for truth before parsing, so both read as the empty cart), non-empty text
   * that does not parse as a list of items, or a parsed list.
   */
  datatype Stored = Absent | Malformed | Saved(items: seq<Item>)

  /** `#load`: the stored list, or the empty cart when the key is absent or the data malformed. */
  function Loaded(stored: Stored): (r: seq<Item>)
    ensures stored.Saved? ==> r == stored.items
    ensures !stored.Saved? ==> r == []
  {
    match stored
    case Saved(s) => s
    case _ => []
  }

  /** The line `add` appends for a product not yet in the cart. */
  function LineFor(p: Product, quantity: int): Item
  {
    Item(p.sku, p.name, p.price, p.unit, quantity)
  }

  predicate HasSku(items: seq<Item>, sku: string)
  {
    exists i :: 0 <= i < |items| && items[i].sku == sku
  }

  /** `items.find(i => i.sku === sku)` (and `findIndex`): the position of the first line with that SKU. */
  function Find(items: seq<Item>, sku: string): (r: Option<nat>)
    ensures r.None? <==> !HasSku(items, sku)
    ensures r.Some? ==> r.value < |items| && items[r.value].sku == sku
    ensures r.Some? ==> forall j :: 0 <= j < r.value ==> items[j].sku != sku
  {
    if items == [] then None
    else if items[0].sku == sku then Some(0)
    else
      match Find(items[1..], sku)
      case None =>
        assert forall i :: 0 < i < |items| ==> items[i] == items[1..][i - 1];
        None
      case Some(i) => Some(i + 1)
  }

  /** At most one line per SKU. */
  predicate UniqueSkus(items: seq<Item>)
  {
    forall i, j :: 0 <= i < j < |items| ==> items[i].sku != items[j].sku
  }

  /** Every line has a positive quantity. */
  predicate AllPositive(items: seq<Item>)
  {
    forall i :: 0 <= i < |items| ==> items[i].quantity > 0
  }

  /** `count`: the sum of the quantities. */
  function TotalQuantity(items: seq<Item>): int
  {
    if items == [] then 0 else items[0].quantity + TotalQuantity(items[1..])
  }

  /** `subtotal`: the sum of price times quantity. */
  function TotalPrice(items: seq<Item>): int
  {
    if items == [] then 0 else items[0].price * items[0].quantity + TotalPrice(items[1..])
  }

  /** The sum of the quantities on the lines with one SKU. */
  function QuantityOf(items: seq<Item>, sku: string): int
  {
    if items == [] then 0
    else (if items[0].sku == sku then items[0].quantity else 0) + QuantityOf(items[1..], sku)
  }

  function WithQuantity(items: seq<Item>, i: nat, quantity: int): seq<Item>
    requires i < |items|
  {
    items[i := items[i].(quantity := quantity)]
  }

  /** The list after `add(product, quantity)`. */
  function Added(items: seq<Item>, product: Product, quantity: int): (r: seq<Item>)
    ensures |r| == if HasSku(items, product.sku) then |items| else |items| + 1
    ensures HasSku(r, product.sku)
    ensures forall x :: x in items && x.sku != product.sku ==> x in r
  {
    match Find(items, product.sku)
    case Some(i) =>
      var r := WithQuantity(items, i, items[i].quantity + quantity);
      assert r[i].sku == product.sku;
      assert forall j :: 0 <= j < |items| && j != i ==> r[j] == items[j];
      r
    case None =>
      var r := items + [LineFor(product, quantity)];
      assert r[|items|].sku == product.sku;
      r
  }

  /** The list after `remove(sku)`: `items.filter(i => i.sku !== sku)`. */
  function Removed(items: seq<Item>, sku: string): (r: seq<Item>)
    ensures |r| <= |items|
    ensures forall x :: x in r ==> x in items && x.sku != sku
  {
    if items == [] then []
    else (if items[0].sku == sku then [] else [items[0]]) + Removed(items[1..], sku)
  }

  /** The list after `updateQuantity(sku, quantity)`. */
  function QuantitySet(items: seq<Item>, sku: string, quantity: int): (r: seq<Item>)
    ensures !HasSku(items, sku) ==> r == items
    ensures quantity > 0 ==> |r| == |items|
    ensures quantity <= 0 ==> !HasSku(r, sku)
  {
    match Find(items, sku)
    case None => items
    case Some(i) => if quantity <= 0 then Removed(items, sku) else WithQuantity(items, i, quantity)
  }

  // ---------------------------------------------------------------------------------------
  // Sums over a changed list

  lemma {:induction false} TotalQuantityUpdate(items: seq<Item>, i: nat, quantity: int)
    requires i < |items|
    ensures TotalQuantity(WithQuantity(items, i, quantity)) == TotalQuantity(items) - items[i].quantity + quantity
  {
    if i > 0 {
      TotalQuantityUpdate(items[1..], i - 1, quantity);
      assert WithQuantity(items, i, quantity)[1..] == WithQuantity(items[1..], i - 1, quantity);
    }
  }

  lemma {:induction false} TotalQuantityAppend(items: seq<Item>, x: Item)
    ensures TotalQuantity(items + [x]) == TotalQuantity(items) + x.quantity
  {
    if items != [] {
      assert (items + [x])[1..] == items[1..] + [x];
      TotalQuantityAppend(items[1..], x);
    }
  }

  lemma {:induction false} TotalPriceUpdate(items: seq<Item>, i: nat, quantity: int)
    requires i < |items|
    ensures TotalPrice(WithQuantity(items, i, quantity)) ==
            TotalPrice(items) - items[i].price * items[i].quantity + items[i].price * quantity
  {
    if i > 0 {
      TotalPriceUpdate(items[1..], i - 1, quantity);
      assert WithQuantity(items, i, quantity)[1..] == WithQuantity(items[1..], i - 1, quantity);
    }
  }

  /** With every quantity positive the count is at least the number of lines. */
  lemma {:induction false} TotalQuantityAtLeastLines(items: seq<Item>)
    ensures AllPositive(items) ==> TotalQuantity(items) >= |items|
  {
    if items != [] {
      assert forall i :: 0 <= i < |items[1..]| ==> items[1..][i] == items[i + 1];
      TotalQuantityAtLeastLines(items[1..]);
    }
  }

  /** With no negative price or quantity the subtotal is not negative. */
  lemma {:induction false} TotalPriceNonNegative(items: seq<Item>)
    ensures (forall i :: 0 <= i < |items| ==> items[i].price >= 0 && items[i].quantity >= 0) ==> TotalPrice(items) >= 0
  {
    if items != [] {
      assert forall i :: 0 <= i < |items[1..]| ==> items[1..][i] == items[i + 1];
      TotalPriceNonNegative(items[1..]);
      if items[0].price >= 0 && items[0].quantity >= 0 {
        NonNegativeProduct(items[0].price, items[0].quantity);
      }
    }
  }

  lemma {:induction false} TotalPriceAppend(items: seq<Item>, x: Item)
    ensures TotalPrice(items + [x]) == TotalPrice(items) + x.price * x.quantity
  {
    if items != [] {
      assert (items + [x])[1..] == items[1..] + [x];
      TotalPriceAppend(items[1..], x);
    }
  }

  lemma {:induction false} QuantityOfUpdate(items: seq<Item>, i: nat, quantity: int, sku: string)
    requires i < |items|
    ensures QuantityOf(WithQuantity(items, i, quantity), sku) ==
            QuantityOf(items, sku) + (if items[i].sku == sku then quantity - items[i].quantity else 0)
  {
    if i > 0 {
      QuantityOfUpdate(items[1..], i - 1, quantity, sku);
      assert WithQuantity(items, i, quantity)[1..] == WithQuantity(items[1..], i - 1, quantity);
    }
  }

  lemma {:induction false} QuantityOfAppend(items: seq<Item>, x: Item, sku: string)
    ensures QuantityOf(items + [x], sku) == QuantityOf(items, sku) + (if x.sku == sku then x.quantity else 0)
  {
    if items != [] {
      assert (items + [x])[1..] == items[1..] + [x];
      QuantityOfAppend(items[1..], x, sku);
    }
  }

  /** A SKU with no line has quantity zero. */
  lemma {:induction false} QuantityOfAbsent(items: seq<Item>, sku: string)
    requires !HasSku(items, sku)
    ensures QuantityOf(items, sku) == 0
  {
    if items != [] {
      assert items[0].sku != sku;
      assert !HasSku(items[1..], sku) by {
        forall i | 0 <= i < |items[1..]| ensures items[1..][i].sku != sku {
          assert items[1..][i] == items[i + 1];
        }
      }
      QuantityOfAbsent(items[1..], sku);
    }
  }

  /** With one line per SKU, the quantity of a SKU is that of its line. */
  lemma {:induction false} QuantityOfUnique(items: seq<Item>, i: nat)
    requires UniqueSkus(items) && i < |items|
    ensures QuantityOf(items, items[i].sku) == items[i].quantity
  {
    var sku := items[i].sku;
    if i == 0 {
      assert !HasSku(items[1..], sku) by {
        forall k | 0 <= k < |items[1..]| ensures items[1..][k].sku != sku {
          assert items[1..][k] == items[k + 1];
        }
      }
      QuantityOfAbsent(items[1..], sku);
    } else {
      assert items[0].sku != sku;
      assert UniqueSkus(items[1..]) by {
        forall a, b | 0 <= a < b < |items[1..]| ensures items[1..][a].sku != items[1..][b].sku {
          assert items[1..][a] == items[a + 1] && items[1..][b] == items[b + 1];
        }
      }
      assert items[1..][i - 1] == items[i];
      QuantityOfUnique(items[1..], i - 1);
    }
  }

  // ---------------------------------------------------------------------------------------
  // add

  /** `add` on a SKU already present raises the first such line by `quantity` and changes nothing else. */
  lemma AddToExistingLine(items: seq<Item>, product: Product, quantity: int, i: nat)
    requires i < |items| && items[i].sku == product.sku
    requires forall j :: 0 <= j < i ==> items[j].sku != product.sku
    ensures |Added(items, product, quantity)| == |items|
    ensures Added(items, product, quantity)[i] == items[i].(quantity := items[i].quantity + quantity)
    ensures forall k :: 0 <= k < |items| && k != i ==> Added(items, product, quantity)[k] == items[k]
  {
  }

  /** `add` on a new SKU appends exactly one line, at the end, with the given quantity. */
  lemma AddNewLine(items: seq<Item>, product: Product, quantity: int)
    requires !HasSku(items, product.sku)
    ensures Added(items, product, quantity) == items + [Item(product.sku, product.name, product.price, product.unit, quantity)]
  {
  }

  /** `add(p, q)` raises `count` by exactly `q`. */
  lemma AddedTotalQuantity(items: seq<Item>, product: Product, quantity: int)
    ensures TotalQuantity(Added(items, product, quantity)) == TotalQuantity(items) + quantity
  {
    match Find(items, product.sku)
    case Some(i) => TotalQuantityUpdate(items, i, items[i].quantity + quantity);
    case None => TotalQuantityAppend(items, LineFor(product, quantity));
  }

  /**
   * `add(p, q)` raises `subtotal` by `q` times the line's price: the price already in the cart
   * when the SKU is present, the product's price otherwise.
   */
  lemma AddedTotalPrice(items: seq<Item>, product: Product, quantity: int)
    ensures TotalPrice(Added(items, product, quantity)) ==
            TotalPrice(items) + (match Find(items, product.sku)
                                 case Some(i) => items[i].price
                                 case None => product.price) * quantity
  {
    match Find(items, product.sku)
    case Some(i) =>
      TotalPriceUpdate(items, i, items[i].quantity + quantity);
      Distribute(items[i].price, items[i].quantity, quantity);
    case None =>
      TotalPriceAppend(items, LineFor(product, quantity));
  }

  lemma NonNegativeProduct(a: int, b: int)
    requires a >= 0 && b >= 0
    ensures a * b >= 0
  {
  }

  lemma Distribute(price: int, before: int, added: int)
    ensures price * (before + added) == price * before + price * added
  {
  }

  /** `add(p, q)` raises the quantity of `p`'s SKU by `q` and leaves every other SKU's quantity alone. */
  lemma AddedQuantityOf(items: seq<Item>, product: Product, quantity: int, sku: string)
    ensures QuantityOf(Added(items, product, quantity), sku) ==
            QuantityOf(items, sku) + (if sku == product.sku then quantity else 0)
  {
    match Find(items, product.sku)
    case Some(i) => QuantityOfUpdate(items, i, items[i].quantity + quantity, sku);
    case None => QuantityOfAppend(items, LineFor(product, quantity), sku);
  }

  /** `add` keeps at most one line per SKU, and afterwards the SKU has a line. */
  lemma AddedKeepsUnique(items: seq<Item>, product: Product, quantity: int)
    requires UniqueSkus(items)
    ensures UniqueSkus(Added(items, product, quantity))
    ensures HasSku(Added(items, product, quantity), product.sku)
  {
    var r := Added(items, product, quantity);
    match Find(items, product.sku)
    case Some(i) =>
      assert r[i].sku == product.sku;
    case None =>
      assert r[|items|].sku == product.sku;
  }

  /** A positive `add` keeps every quantity positive. */
  lemma AddedKeepsPositive(items: seq<Item>, product: Product, quantity: int)
    requires AllPositive(items) && quantity > 0
    ensures AllPositive(Added(items, product, quantity))
  {
  }

  // ---------------------------------------------------------------------------------------
  // remove

  /**
   * `remove(sku)` keeps exactly the lines with another SKU, in their order.
   */
  lemma {:induction false} RemovedKeepsOthers(items: seq<Item>, sku: string)
    ensures forall x :: x in Removed(items, sku) <==> x in items && x.sku != sku
    ensures forall y :: multiset(Removed(items, sku))[y] == if y.sku != sku then multiset(items)[y] else 0
    ensures IsSubsequence(Removed(items, sku), items)
    ensures !HasSku(Removed(items, sku), sku)
  {
    if items != [] {
      RemovedKeepsOthers(items[1..], sku);
      var rest := Removed(items[1..], sku);
      assert items == [items[0]] + items[1..];
      assert multiset(items) == multiset{items[0]} + multiset(items[1..]);
      assert forall x :: x in items <==> x == items[0] || x in items[1..];
      if items[0].sku == sku {
        assert Removed(items, sku) == rest;
        assert IsSubsequence(rest, items) by {
          if rest != [] {
            assert IsSubsequence(rest, items[1..]);
          }
        }
      } else {
        var r := [items[0]] + rest;
        assert r[0] == items[0] && r[1..] == rest;
        assert IsSubsequence(r, items);
      }
      var r := Removed(items, sku);
      forall i | 0 <= i < |r| ensures r[i].sku != sku {
        assert r[i] in r;
      }
    }
  }

  /** Removing an SKU that has no line changes nothing. */
  lemma {:induction false} RemovedAbsent(items: seq<Item>, sku: string)
    requires !HasSku(items, sku)
    ensures Removed(items, sku) == items
  {
    if items != [] {
      assert items[0].sku != sku;
      assert !HasSku(items[1..], sku) by {
        forall i | 0 <= i < |items[1..]| ensures items[1..][i].sku != sku {
          assert items[1..][i] == items[i + 1];
        }
      }
      RemovedAbsent(items[1..], sku);
      assert items == [items[0]] + items[1..];
    }
  }

  /** `remove` is idempotent. */
  lemma RemovedIdempotent(items: seq<Item>, sku: string)
    ensures Removed(Removed(items, sku), sku) == Removed(items, sku)
  {
    RemovedKeepsOthers(items, sku);
    RemovedAbsent(Removed(items, sku), sku);
  }

  /** `remove(sku)` lowers `count` by that SKU's quantity and zeroes it, other SKUs unchanged. */
  lemma {:induction false} RemovedQuantities(items: seq<Item>, sku: string, other: string)
    ensures TotalQuantity(Removed(items, sku)) == TotalQuantity(items) - QuantityOf(items, sku)
    ensures QuantityOf(Removed(items, sku), other) == if other == sku then 0 else QuantityOf(items, other)
  {
    if items != [] {
      RemovedQuantities(items[1..], sku, other);
      var head := if items[0].sku == sku then [] else [items[0]];
      assert Removed(items, sku) == head + Removed(items[1..], sku);
      if head == [] {
        assert Removed(items, sku) == Removed(items[1..], sku);
      } else {
        var r := head + Removed(items[1..], sku);
        assert r[0] == items[0] && r[1..] == Removed(items[1..], sku);
        assert TotalQuantity(r) == items[0].quantity + TotalQuantity(Removed(items[1..], sku));
        assert QuantityOf(r, other) == (if items[0].sku == other then items[0].quantity else 0) + QuantityOf(Removed(items[1..], sku), other);
      }
    }
  }

  /** `remove` keeps at most one line per SKU. */
  lemma RemovedKeepsUnique(items: seq<Item>, sku: string)
    requires UniqueSkus(items)
    ensures UniqueSkus(Removed(items, sku))
  {
    RemovedKeepsOthers(items, sku);
    SubsequenceKeepsUnique(Removed(items, sku), items);
  }

  lemma {:induction false} SubsequenceKeepsUnique(a: seq<Item>, b: seq<Item>)
    requires IsSubsequence(a, b) && UniqueSkus(b)
    ensures UniqueSkus(a)
    decreases |b|
  {
    if a != [] && b != [] {
      assert UniqueSkus(b[1..]) by {
        forall i, j | 0 <= i < j < |b[1..]| ensures b[1..][i].sku != b[1..][j].sku {
          assert b[1..][i] == b[i + 1] && b[1..][j] == b[j + 1];
        }
      }
      if a[0] == b[0] && IsSubsequence(a[1..], b[1..]) {
        SubsequenceKeepsUnique(a[1..], b[1..]);
        SubsequenceElements(a[1..], b[1..]);
        forall i, j | 0 <= i < j < |a| ensures a[i].sku != a[j].sku {
          if i == 0 {
            assert a[j] == a[1..][j - 1];
            assert a[j] in b[1..];
          } else {
            assert a[i] == a[1..][i - 1] && a[j] == a[1..][j - 1];
          }
        }
      } else {
        SubsequenceKeepsUnique(a, b[1..]);
      }
    }
  }

  lemma {:induction false} SubsequenceElements<T>(a: seq<T>, b: seq<T>)
    requires IsSubsequence(a, b)
    ensures forall x :: x in a ==> x in b
    decreases |b|
  {
    if a != [] && b != [] {
      if a[0] == b[0] && IsSubsequence(a[1..], b[1..]) {
        SubsequenceElements(a[1..], b[1..]);
        assert forall x :: x in a ==> x == a[0] || x in a[1..];
      } else {
        SubsequenceElements(a, b[1..]);
      }
    }
  }

  lemma {:induction false} RemovedKeepsPositive(items: seq<Item>, sku: string)
    requires AllPositive(items)
    ensures AllPositive(Removed(items, sku))
  {
    RemovedKeepsOthers(items, sku);
    var r := Removed(items, sku);
    forall i | 0 <= i < |r| ensures r[i].quantity > 0 {
      assert r[i] in items;
    }
  }

  // ---------------------------------------------------------------------------------------
  // updateQuantity

  /** `updateQuantity` on a SKU with no line changes nothing. */
  lemma UpdateAbsentIsNoop(items: seq<Item>, sku: string, quantity: int)
    requires !HasSku(items, sku)
    ensures QuantitySet(items, sku, quantity) == items
  {
  }

  /** `updateQuantity(sku, q)` with `q <= 0` has the effect of `remove(sku)`, present or not. */
  lemma UpdateNonPositiveIsRemove(items: seq<Item>, sku: string, quantity: int)
    requires quantity <= 0
    ensures QuantitySet(items, sku, quantity) == Removed(items, sku)
  {
    if !HasSku(items, sku) {
      RemovedAbsent(items, sku);
    }
  }

  /**
   * `updateQuantity(sku, q)` with `q > 0` on a present SKU makes that SKU's quantity exactly `q`
   * (one line per SKU), keeps the length, and leaves every other SKU's quantity alone.
   */
  lemma UpdatePositiveSetsQuantity(items: seq<Item>, sku: string, quantity: int, other: string)
    requires UniqueSkus(items) && HasSku(items, sku) && quantity > 0
    ensures |QuantitySet(items, sku, quantity)| == |items|
    ensures QuantityOf(QuantitySet(items, sku, quantity), sku) == quantity
    ensures other != sku ==> QuantityOf(QuantitySet(items, sku, quantity), other) == QuantityOf(items, other)
  {
    var i := Find(items, sku).value;
    QuantityOfUnique(items, i);
    QuantityOfUpdate(items, i, quantity, sku);
    QuantityOfUpdate(items, i, quantity, other);
  }

  /**
   * `updateQuantity(sku, q)` with `q > 0` sets the quantity of the first line with that SKU to
   * exactly `q` and leaves every other line, later duplicates included, as it was.
   */
  lemma UpdateSetsFirstLine(items: seq<Item>, sku: string, quantity: int, i: nat)
    requires quantity > 0 && i < |items| && items[i].sku == sku
    requires forall j :: 0 <= j < i ==> items[j].sku != sku
    ensures QuantitySet(items, sku, quantity) == items[i := items[i].(quantity := quantity)]
  {
    assert Find(items, sku) == Some(i);
  }

  /** `updateQuantity` keeps at most one line per SKU. */
  lemma UpdateKeepsUnique(items: seq<Item>, sku: string, quantity: int)
    requires UniqueSkus(items)
    ensures UniqueSkus(QuantitySet(items, sku, quantity))
  {
    if quantity <= 0 {
      RemovedKeepsUnique(items, sku);
    }
  }

  /** Whatever the quantity, `updateQuantity` keeps every quantity positive. */
  lemma UpdateKeepsPositive(items: seq<Item>, sku: string, quantity: int)
    requires AllPositive(items)
    ensures AllPositive(QuantitySet(items, sku, quantity))
  {
    if quantity <= 0 {
      RemovedKeepsPositive(items, sku);
    }
  }

  // ---------------------------------------------------------------------------------------
  // Repeated adds

  /** One `add(product, quantity)` call. */
  datatype AddCall = AddCall(product: Product, quantity: int)

  /** The list after a sequence of `add` calls, in order. */
  function AddAll(items: seq<Item>, calls: seq<AddCall>): seq<Item>
    decreases |calls|
  {
    if calls == [] then items
    else AddAll(Added(items, calls[0].product, calls[0].quantity), calls[1..])
  }

  /** The sum of the quantities of the calls for one SKU. */
  function QuantityAdded(calls: seq<AddCall>, sku: string): int
  {
    if calls == [] then 0
    else (if calls[0].product.sku == sku then calls[0].quantity else 0) + QuantityAdded(calls[1..], sku)
  }

  /**
   * After any sequence of `add` calls, a SKU's quantity has grown by the sum of the quantities
   * added for it, and the cart still has at most one line per SKU.
   */
  lemma {:induction false} AddAllQuantity(items: seq<Item>, calls: seq<AddCall>, sku: string)
    ensures QuantityOf(AddAll(items, calls), sku) == QuantityOf(items, sku) + QuantityAdded(calls, sku)
    ensures UniqueSkus(items) ==> UniqueSkus(AddAll(items, calls))
    decreases |calls|
  {
    if calls != [] {
      var next := Added(items, calls[0].product, calls[0].quantity);
      AddedQuantityOf(items, calls[0].product, calls[0].quantity, sku);
      if UniqueSkus(items) {
        AddedKeepsUnique(items, calls[0].product, calls[0].quantity);
      }
      AddAllQuantity(next, calls[1..], sku);
    }
  }

  // ---------------------------------------------------------------------------------------
  // Listeners

  /** A subscribed callback, identified by a number. */
  type Listener = nat

  /** One call of a listener: the items it was given and what storage held at that moment. */
  datatype Notice = Notice(listener: Listener, items: seq<Item>, stored: Stored)

  /** The calls `#notify` makes: one per listener, in subscription order. */
  function Broadcast(listeners: seq<Listener>, items: seq<Item>, stored: Stored): (r: seq<Notice>)
    ensures |r| == |listeners|
    ensures forall k :: 0 <= k < |r| ==> r[k].listener == listeners[k] && r[k].items == items && r[k].stored == stored
  {
    seq(|listeners|, k requires 0 <= k < |listeners| => Notice(listeners[k], items, stored))
  }

  predicate Distinct(listeners: seq<Listener>)
  {
    forall i, j :: 0 <= i < j < |listeners| ==> listeners[i] != listeners[j]
  }

  /** The calls in a log that went to one listener. */
  function NoticesFor(log: seq<Notice>, l: Listener): seq<Notice>
  {
    if log == [] then []
    else (if log[0].listener == l then [log[0]] else []) + NoticesFor(log[1..], l)
  }

  lemma {:induction false} NoticesForAppend(a: seq<Notice>, b: seq<Notice>, l: Listener)
    ensures NoticesFor(a + b, l) == NoticesFor(a, l) + NoticesFor(b, l)
  {
    if a != [] {
      assert (a + b)[1..] == a[1..] + b;
      NoticesForAppend(a[1..], b, l);
    } else {
      assert a + b == b;
    }
  }

  /**
   * One notification reaches every subscribed listener exactly once, with the same items and
   * storage, and reaches no one else.
   */
  lemma {:induction false} BroadcastReachesEachOnce(listeners: seq<Listener>, items: seq<Item>, stored: Stored, l: Listener)
    requires Distinct(listeners)
    ensures NoticesFor(Broadcast(listeners, items, stored), l) ==
            if l in listeners then [Notice(l, items, stored)] else []
  {
    if listeners != [] {
      var b := Broadcast(listeners, items, stored);
      assert b[1..] == Broadcast(listeners[1..], items, stored);
      assert Distinct(listeners[1..]) by {
        forall i, j | 0 <= i < j < |listeners[1..]| ensures listeners[1..][i] != listeners[1..][j] {
          assert listeners[1..][i] == listeners[i + 1] && listeners[1..][j] == listeners[j + 1];
        }
      }
      BroadcastReachesEachOnce(listeners[1..], items, stored, l);
      assert l in listeners <==> l == listeners[0] || l in listeners[1..];
      if l == listeners[0] {
        assert l !in listeners[1..] by {
          forall j | 0 <= j < |listeners[1..]| ensures listeners[1..][j] != l {
            assert listeners[1..][j] == listeners[j + 1];
          }
        }
      }
    }
  }

  // ---------------------------------------------------------------------------------------
  // The store

  class CartService {
    /** `#items` */
    var items: seq<Item>
    /** The `lumberBossCart` entry of local storage. */
    var storage: Stored
    /** `#listeners`, in insertion order (the order a JavaScript `Set` iterates in). */
    var listeners: seq<Listener>
    /** Every listener call made so far. */
    var log: seq<Notice>

    /**
     * Listeners are distinct, as in a `Set`, and the list held is always what loading the
     * entry gives back: every change is written through by `#save`.
     */
    predicate Valid()
      reads this
    {
      Distinct(listeners) && Loaded(storage) == items
    }

    /** `new CartService()`: loads whatever storage holds. */
    constructor (stored: Stored)
      ensures Valid()
      ensures storage == stored && items == Loaded(stored)
      ensures listeners == [] && log == []
    {
      storage := stored;
      items := [];
      listeners := [];
      log := [];
      new;
      Load();
    }

    /** `#load` */
    method Load()
      modifies this`items
      ensures items == Loaded(storage)
    {
      match storage
      case Saved(s) => items := s;
      case _ => items := [];
    }

    /** `#notify`: calls every listener, in order, with the current items. */
    method Notify()
      modifies this`log
      ensures log == old(log) + Broadcast(listeners, items, storage)
    {
      var i := 0;
      while i < |listeners|
        invariant 0 <= i <= |listeners|
        invariant log == old(log) + Broadcast(listeners[..i], items, storage)
      {
        assert Broadcast(listeners[..i + 1], items, storage) ==
               Broadcast(listeners[..i], items, storage) + [Notice(listeners[i], items, storage)];
        log := log + [Notice(listeners[i], items, storage)];
        i := i + 1;
      }
      assert listeners[..i] == listeners;
    }

    /** `#save`: writes the whole list to storage, then notifies; every listener sees storage already written. */
    method Save()
      modifies this`storage, this`log
      ensures storage == Saved(items) && Loaded(storage) == items
      ensures log == old(log) + Broadcast(listeners, items, Saved(items))
    {
      storage := Saved(items);
      Notify();
    }

    /**
     * `subscribe(listener)`: registers the listener (a second registration is a no-op) and calls
     * it once at once with the current items.
     */
    method Subscribe(l: Listener)
      requires Valid()
      modifies this`listeners, this`log
      ensures Valid()
      ensures l in listeners
      ensures listeners == if l in old(listeners) then old(listeners) else old(listeners) + [l]
      ensures log == old(log) + [Notice(l, items, storage)]
    {
      if l !in listeners {
        listeners := listeners + [l];
      }
      log := log + [Notice(l, items, storage)];
    }

    /** The function `subscribe` returns: `#listeners.delete(listener)`; a second call is a no-op. */
    method Unsubscribe(l: Listener) returns (removed: bool)
      requires Valid()
      modifies this`listeners
      ensures Valid()
      ensures removed == (l in old(listeners))
      ensures l !in listeners
      ensures forall m :: m in listeners <==> m in old(listeners) && m != l
      ensures IsSubsequence(listeners, old(listeners))
    {
      removed := l in listeners;
      listeners := Without(listeners, l);
    }

    /** `add(product, quantity)`. */
    method Add(product: Product, quantity: int)
      requires Valid()
      modifies this`items, this`storage, this`log
      ensures Valid()
      ensures items == Added(old(items), product, quantity)
      ensures TotalQuantity(items) == TotalQuantity(old(items)) + quantity
      ensures UniqueSkus(old(items)) ==> UniqueSkus(items)
      ensures storage == Saved(items)
      ensures log == old(log) + Broadcast(listeners, items, storage)
    {
      var found := Find(items, product.sku);
      if found.Some? {
        var i := found.value;
        items := items[i := items[i].(quantity := items[i].quantity + quantity)];
      } else {
        items := items + [Item(product.sku, product.name, product.price, product.unit, quantity)];
      }
      AddedTotalQuantity(old(items), product, quantity);
      if UniqueSkus(old(items)) {
        AddedKeepsUnique(old(items), product, quantity);
      }
      Save();
    }

    /**
     * `updateQuantity(sku, quantity)`: nothing at all happens for a SKU with no line; otherwise
     * a quantity of zero or less removes the line and any other quantity replaces it.
     */
    method UpdateQuantity(sku: string, quantity: int)
      requires Valid()
      modifies this`items, this`storage, this`log
      ensures Valid()
      ensures !HasSku(old(items), sku) ==> items == old(items) && storage == old(storage) && log == old(log)
      ensures HasSku(old(items), sku) ==>
                items == QuantitySet(old(items), sku, quantity) && storage == Saved(items) &&
                log == old(log) + Broadcast(listeners, items, storage)
      ensures quantity <= 0 ==> items == Removed(old(items), sku)
      ensures UniqueSkus(old(items)) ==> UniqueSkus(items)
    {
      var found := Find(items, sku);
      if found.Some? {
        if quantity <= 0 {
          Remove(sku);
        } else {
          var i := found.value;
          items := items[i := items[i].(quantity := quantity)];
          Save();
        }
      } else {
        RemovedAbsent(items, sku);
      }
      if UniqueSkus(old(items)) {
        UpdateKeepsUnique(old(items), sku, quantity);
      }
    }

    /** `remove(sku)`: persists and notifies whether or not a line was removed. */
    method Remove(sku: string)
      requires Valid()
      modifies this`items, this`storage, this`log
      ensures Valid()
      ensures items == Removed(old(items), sku)
      ensures !HasSku(items, sku)
      ensures UniqueSkus(old(items)) ==> UniqueSkus(items)
      ensures storage == Saved(items)
      ensures log == old(log) + Broadcast(listeners, items, storage)
    {
      items := Removed(items, sku);
      RemovedKeepsOthers(old(items), sku);
      if UniqueSkus(old(items)) {
        RemovedKeepsUnique(old(items), sku);
      }
      Save();
    }

    /** `clear()` */
    method Clear()
      requires Valid()
      modifies this`items, this`storage, this`log
      ensures Valid()
      ensures items == [] && Count() == 0 && Subtotal() == 0
      ensures storage == Saved([])
      ensures log == old(log) + Broadcast(listeners, [], storage)
    {
      items := [];
      Save();
    }

    /**
     * The `items` getter: what the entry in storage holds, so a reload would show the same cart.
     * The source's copy is shallow: it shares the line objects with the store, which this value
     * model does not capture.
     */
    function Items(): (r: seq<Item>)
      reads this
      requires Valid()
      ensures r == Loaded(storage)
    {
      items
    }

    /** The `count` getter. */
    function Count(): (r: int)
      reads this
      ensures items == [] ==> r == 0
      ensures AllPositive(items) ==> r >= |items|
    {
      TotalQuantityAtLeastLines(items);
      TotalQuantity(items)
    }

    /** The `subtotal` getter. */
    function Subtotal(): (r: int)
      reads this
      ensures items == [] ==> r == 0
      ensures (forall i :: 0 <= i < |items| ==> items[i].price >= 0 && items[i].quantity >= 0) ==> r >= 0
    {
      TotalPriceNonNegative(items);
      TotalPrice(items)
    }
  }

  /** The listener list with one listener taken out (what `Set.delete` leaves). */
  function Without(listeners: seq<Listener>, l: Listener): (r: seq<Listener>)
    ensures forall m :: m in r <==> m in listeners && m != l
    ensures IsSubsequence(r, listeners)
    ensures Distinct(listeners) ==> Distinct(r)
  {
    if listeners == [] then []
    else
      var rest := Without(listeners[1..], l);
      assert forall m :: m in listeners <==> m == listeners[0] || m in listeners[1..];
      if listeners[0] == l then
        assert IsSubsequence(rest, listeners) by {
          if rest != [] {
            assert IsSubsequence(rest, listeners[1..]);
          }
        }
        rest
      else
        assert ([listeners[0]] + rest)[1..] == rest;
        assert Distinct(listeners) ==> Distinct([listeners[0]] + rest) by {
          if Distinct(listeners) {
            assert Distinct(listeners[1..]) by {
              forall i, j | 0 <= i < j < |listeners[1..]| ensures listeners[1..][i] != listeners[1..][j] {
                assert listeners[1..][i] == listeners[i + 1] && listeners[1..][j] == listeners[j + 1];
              }
            }
            assert listeners[0] !in listeners[1..] by {
              forall j | 0 <= j < |listeners[1..]| ensures listeners[1..][j] != listeners[0] {
                assert listeners[1..][j] == listeners[j + 1];
              }
            }
            var r := [listeners[0]] + rest;
            forall i, j | 0 <= i < j < |r| ensures r[i] != r[j] {
              if i == 0 {
                assert r[j] == rest[j - 1];
                assert r[j] in rest;
              } else {
                assert r[i] == rest[i - 1] && r[j] == rest[j - 1];
              }
            }
          }
        }
        [listeners[0]] + rest
  }
}
