/**
 * The products page: its module-level state (`allProducts`, `currentFilters`,
 * `filteredProducts`), what the page shows that is derived from it (the product count, the
 * brand checkboxes, the address bar, the header cart count), the handlers that change the
 * configuration, and the page's own add-to-cart path, which reads and writes the cart's
 * local-storage entry directly.
 */
module ProductsPage {
  import opened Options
  import opened Catalog
  import opened Filters
  import opened Sorting
  import opened Url
  import Cart

  /** A checkbox of the filter sidebar: its `value` and whether it is ticked. */
  datatype Checkbox = Checkbox(value: string, checked: bool)

  /** How a click on a product's add-to-cart button ends. */
  datatype AddOutcome = UnknownSku | StorageUnreadable | AddedToCart

  /**
   * `JSON.parse(localStorage.getItem('lumberBossCart') || '[]')`: an absent entry reads as the
   * empty cart; malformed data makes the parse throw, shown here as None.
   */
  function ParsedCart(stored: Cart.Stored): (r: Option<seq<Cart.Item>>)
    ensures r.None? <==> stored.Malformed?
    ensures r.Some? ==> r.value == Cart.Loaded(stored)
  {
    match stored
    case Absent => Some([])
    case Malformed => None
    case Saved(items) => Some(items)
  }

  /**
   * The middle of `addToCart`: `findIndex` on the parsed list, then one more of the line found
   * or a new line with quantity 1. This is what `CartService.add(product, 1)` does to its list.
   */
  method AddOne(cart: seq<Cart.Item>, product: Product) returns (next: seq<Cart.Item>)
    ensures next == Cart.Added(cart, product, 1)
    ensures Cart.TotalQuantity(next) == Cart.TotalQuantity(cart) + 1
  {
    var existingIndex := Cart.Find(cart, product.sku);
    if existingIndex.Some? {
      var i := existingIndex.value;
      next := cart[i := cart[i].(quantity := cart[i].quantity + 1)];
    } else {
      next := cart + [Cart.Item(product.sku, product.name, product.price, product.unit, 1)];
    }
    Cart.AddedTotalQuantity(cart, product, 1);
  }

  /** The `forEach`/`push` loop of `updateAvailabilityFilter`: the ticked boxes that name a status. */
  method CheckedStatuses(boxes: seq<Checkbox>) returns (r: seq<Status>)
    ensures forall st :: st in r <==>
              exists i :: 0 <= i < |boxes| && boxes[i].checked && ParseStatus(boxes[i].value) == Some(st)
    ensures |r| <= |boxes|
  {
    r := [];
    var i := 0;
    while i < |boxes|
      invariant 0 <= i <= |boxes|
      invariant |r| <= i
      invariant forall st :: st in r <==>
                  exists k :: 0 <= k < i && boxes[k].checked && ParseStatus(boxes[k].value) == Some(st)
    {
      var status := ParseStatus(boxes[i].value);
      if status.Some? && boxes[i].checked {
        r := r + [status.value];
      }
      i := i + 1;
    }
  }

  /** The `forEach`/`push` loop of `updateBrandFilter`: the values of the ticked boxes. */
  method CheckedBrands(boxes: seq<Checkbox>) returns (r: seq<string>)
    ensures forall b :: b in r <==> exists i :: 0 <= i < |boxes| && boxes[i].checked && boxes[i].value == b
    ensures |r| <= |boxes|
  {
    r := [];
    var i := 0;
    while i < |boxes|
      invariant 0 <= i <= |boxes|
      invariant |r| <= i
      invariant forall b :: b in r <==> exists k :: 0 <= k < i && boxes[k].checked && boxes[k].value == b
    {
      if boxes[i].checked {
        r := r + [boxes[i].value];
      }
      i := i + 1;
    }
  }

  class Page {
    /** `window.location.pathname` */
    const pathname: string
    var allProducts: seq<Product>
    var filters: Config
    var filteredProducts: seq<Product>
    /** The text of `#product-count`. */
    var productCount: nat
    /** The values of the brand checkboxes `renderBrandFilters` creates. */
    var brandOptions: seq<string>
    /** The address last written with `history.replaceState`. */
    var url: Address
    /** The error state `showError` enters when the catalog cannot be loaded. */
    var loadFailed: bool
    /**
     * Whether `setupEventListeners` has run. `init` calls it only after the catalog has loaded,
     * so the user-event handlers below exist only then.
     */
    var listening: bool
    /** The `lumberBossCart` entry of local storage. */
    var storage: Cart.Stored
    /** The text of the `.cart-count` elements, None while the page's own markup still shows. */
    var cartCount: Option<int>

    /** What is shown is the filtered catalog, sorted, and its size. */
    predicate Shown()
      reads this
    {
      multiset(filteredProducts) == multiset(ApplyFilter(allProducts, filters)) &&
      Ordered(ParseSort(filters.sort), filteredProducts) &&
      productCount == |filteredProducts|
    }

    /**
     * Evaluating the script: the state starts empty with the default configuration, and the
     * last statement runs `updateCartCount`.
     */
    constructor (pathname: string, address: Address, stored: Cart.Stored)
      ensures this.pathname == pathname && url == address && storage == stored
      ensures allProducts == [] && filteredProducts == [] && filters == Default && brandOptions == []
      ensures !loadFailed && !listening && Shown()
      ensures cartCount == match ParsedCart(stored)
                           case Some(items) => Some(Cart.TotalQuantity(items))
                           case None => None
    {
      this.pathname := pathname;
      allProducts := [];
      filters := Default;
      filteredProducts := [];
      productCount := 0;
      brandOptions := [];
      url := address;
      loadFailed := false;
      listening := false;
      storage := stored;
      cartCount := None;
      new;
      var _ := UpdateCartCount();
    }

    /**
     * `init`: seeds category and search from the non-empty parameters of the page's address, then
     * either shows the loaded catalog (brand checkboxes, filtered and sorted products) and wires
     * the user-event handlers, or enters the error state with no handlers wired.
     */
    method Init(loaded: Option<seq<Product>>)
      modifies this`filters, this`allProducts, this`brandOptions, this`filteredProducts,
               this`productCount, this`loadFailed, this`listening
      ensures filters == Seeded(old(filters), QueryOf(url))
      ensures loaded.None? ==> loadFailed && listening == old(listening) && allProducts == old(allProducts) &&
                               filteredProducts == old(filteredProducts) && productCount == old(productCount) &&
                               brandOptions == old(brandOptions)
      ensures loaded.Some? ==> !loadFailed && listening && allProducts == loaded.value &&
                               brandOptions == BrandList(loaded.value) && Shown()
    {
      var query := QueryOf(url);
      var categoryParam := Get(query, "category");
      var searchParam := Get(query, "search");
      if categoryParam.Some? && categoryParam.value != "" {
        filters := filters.(category := categoryParam.value);
      }
      if searchParam.Some? && searchParam.value != "" {
        filters := filters.(search := searchParam.value);
      }
      match loaded
      case None =>
        loadFailed := true;
      case Some(catalog) =>
        loadFailed := false;
        allProducts := catalog;
        brandOptions := BrandList(catalog);
        ApplyFilters();
        listening := true;
    }

    /** `applyFilters`: filter the whole catalog, sort, and show the count. */
    method ApplyFilters()
      modifies this`filteredProducts, this`productCount
      ensures Shown()
      ensures forall p :: p in filteredProducts <==> p in allProducts && Keep(filters, p)
    {
      filteredProducts := ApplyFilter(allProducts, filters);
      FilteredKeeps(allProducts, filters);
      SortProducts();
      productCount := |filteredProducts|;
      forall p ensures p in filteredProducts <==> p in ApplyFilter(allProducts, filters) {
        assert p in filteredProducts <==> p in multiset(filteredProducts);
        assert p in ApplyFilter(allProducts, filters) <==> p in multiset(ApplyFilter(allProducts, filters));
      }
    }

    /** `sortProducts`: sorts `filteredProducts` in place by the configured field and direction. */
    method SortProducts()
      modifies this`filteredProducts
      ensures multiset(filteredProducts) == multiset(old(filteredProducts))
      ensures Ordered(ParseSort(filters.sort), filteredProducts)
    {
      var order := ParseSort(filters.sort);
      SortByIsSortedPermutation(order, filteredProducts);
      filteredProducts := SortBy(order, filteredProducts);
    }

    /** `updateURL` */
    method UpdateUrl()
      modifies this`url
      ensures url == UrlFor(filters, pathname)
    {
      var params: seq<Param> := [];
      if filters.category != "all" {
        params := params + [("category", filters.category)];
      }
      if filters.search != "" {
        params := params + [("search", filters.search)];
      }
      url := if params != [] then Query(params) else Path(pathname);
    }

    /** `updateAvailabilityFilter`: the availability list becomes the ticked status boxes. */
    method UpdateAvailabilityFilter(boxes: seq<Checkbox>)
      modifies this`filters
      ensures filters == old(filters).(availability := filters.availability)
      ensures forall st :: st in filters.availability <==>
                exists i :: 0 <= i < |boxes| && boxes[i].checked && ParseStatus(boxes[i].value) == Some(st)
    {
      var statuses := CheckedStatuses(boxes);
      filters := filters.(availability := statuses);
    }

    /** `updateBrandFilter`: the brand list becomes the ticked brand boxes. */
    method UpdateBrandFilter(boxes: seq<Checkbox>)
      modifies this`filters
      ensures filters == old(filters).(brands := filters.brands)
      ensures forall b :: b in filters.brands <==>
                exists i :: 0 <= i < |boxes| && boxes[i].checked && boxes[i].value == b
    {
      var brands := CheckedBrands(boxes);
      filters := filters.(brands := brands);
    }

    /** `clearAllFilters`: back to the defaults, the URL rewritten, the list recomputed. */
    method ClearAllFilters()
      requires listening
      modifies this`filters, this`url, this`filteredProducts, this`productCount
      ensures filters == Default
      ensures url == Path(pathname)
      ensures Shown()
      ensures forall p :: p in filteredProducts <==> p in allProducts && p.status != Unavailable
    {
      filters := Default;
      UpdateUrl();
      assert QueryParams(Default) == [];
      ApplyFilters();
      forall p ensures p in filteredProducts <==> p in allProducts && p.status != Unavailable {
        DefaultKeep(p);
      }
    }

    /** A category pill is clicked: the category changes, the URL follows, the list is recomputed. */
    method SelectCategory(category: string)
      requires listening
      modifies this`filters, this`url, this`filteredProducts, this`productCount
      ensures filters == old(filters).(category := category)
      ensures url == UrlFor(filters, pathname) && Shown()
    {
      filters := filters.(category := category);
      UpdateUrl();
      ApplyFilters();
    }

    /** The search text settles (after the input's debounce delay). */
    method Search(text: string)
      requires listening
      modifies this`filters, this`url, this`filteredProducts, this`productCount
      ensures filters == old(filters).(search := text)
      ensures url == UrlFor(filters, pathname) && Shown()
    {
      filters := filters.(search := text);
      UpdateUrl();
      ApplyFilters();
    }

    /** The sort select changes; the URL is left alone. */
    method ChangeSort(sort: string)
      requires listening
      modifies this`filters, this`filteredProducts, this`productCount
      ensures filters == old(filters).(sort := sort)
      ensures Shown()
    {
      filters := filters.(sort := sort);
      ApplyFilters();
    }

    /** An availability checkbox changes. */
    method AvailabilityChanged(boxes: seq<Checkbox>)
      requires listening
      modifies this`filters, this`filteredProducts, this`productCount
      ensures filters == old(filters).(availability := filters.availability)
      ensures forall st :: st in filters.availability <==>
                exists i :: 0 <= i < |boxes| && boxes[i].checked && ParseStatus(boxes[i].value) == Some(st)
      ensures Shown()
    {
      UpdateAvailabilityFilter(boxes);
      ApplyFilters();
    }

    /** A brand checkbox changes. */
    method BrandChanged(boxes: seq<Checkbox>)
      requires listening
      modifies this`filters, this`filteredProducts, this`productCount
      ensures filters == old(filters).(brands := filters.brands)
      ensures forall b :: b in filters.brands <==>
                exists i :: 0 <= i < |boxes| && boxes[i].checked && boxes[i].value == b
      ensures Shown()
    {
      UpdateBrandFilter(boxes);
      ApplyFilters();
    }

    /** The price inputs settle (after their debounce delay), already parsed; an empty input is None. */
    method PriceChanged(priceMin: Option<int>, priceMax: Option<int>)
      requires listening
      modifies this`filters, this`filteredProducts, this`productCount
      ensures filters == old(filters).(priceMin := priceMin, priceMax := priceMax)
      ensures Shown()
      ensures priceMin.Some? && priceMax.Some? && priceMin.value > priceMax.value ==> filteredProducts == []
    {
      filters := filters.(priceMin := priceMin, priceMax := priceMax);
      ApplyFilters();
      if priceMin.Some? && priceMax.Some? && priceMin.value > priceMax.value {
        InvertedPriceRangeKeepsNothing(allProducts, filters);
      }
    }

    /** `updateCartCount`: shows the sum of the stored quantities; a malformed entry makes it throw. */
    method UpdateCartCount() returns (ok: bool)
      modifies this`cartCount
      ensures ok == ParsedCart(storage).Some?
      ensures cartCount == if ok then Some(Cart.TotalQuantity(ParsedCart(storage).value)) else old(cartCount)
    {
      var cart := ParsedCart(storage);
      if cart.None? {
        return false;
      }
      cartCount := Some(Cart.TotalQuantity(cart.value));
      ok := true;
    }

    /**
     * `addToCart(event, sku)`: an unknown SKU changes nothing; malformed storage makes the parse
     * throw and changes nothing; otherwise the stored list gets what `CartService.add(product, 1)`
     * would make of it, and the header count shows the new total.
     */
    method AddToCart(sku: string) returns (outcome: AddOutcome)
      modifies this`storage, this`cartCount
      ensures FindProduct(allProducts, sku).None? ==>
                outcome == UnknownSku && storage == old(storage) && cartCount == old(cartCount)
      ensures FindProduct(allProducts, sku).Some? && old(storage).Malformed? ==>
                outcome == StorageUnreadable && storage == old(storage) && cartCount == old(cartCount)
      ensures FindProduct(allProducts, sku).Some? && !old(storage).Malformed? ==>
                outcome == AddedToCart &&
                storage == Cart.Saved(Cart.Added(Cart.Loaded(old(storage)), FindProduct(allProducts, sku).value, 1)) &&
                cartCount == Some(Cart.TotalQuantity(Cart.Loaded(old(storage))) + 1)
    {
      var found := FindProduct(allProducts, sku);
      if found.None? {
        return UnknownSku;
      }
      var product := found.value;
      var parsed := ParsedCart(storage);
      if parsed.None? {
        return StorageUnreadable;
      }
      var cart := AddOne(parsed.value, product);
      Cart.AddedTotalQuantity(parsed.value, product, 1);
      storage := Cart.Saved(cart);
      var _ := UpdateCartCount();
      outcome := AddedToCart;
    }
  }

  /**
   * The page's add-to-cart path and `CartService.add(product, 1)` leave the same list in
   * storage when the store holds what storage held; on malformed storage the store overwrites it
   * with a one-line cart while the page leaves it alone.
   */
  method AddPathsAgree(page: Page, store: Cart.CartService, sku: string)
    requires store.Valid() && store.items == Cart.Loaded(page.storage)
    requires FindProduct(page.allProducts, sku).Some?
    modifies page, store
    ensures !old(page.storage).Malformed? ==> page.storage == store.storage
    ensures old(page.storage).Malformed? ==>
              page.storage == Cart.Malformed &&
              store.storage == Cart.Saved([Cart.LineFor(FindProduct(old(page.allProducts), sku).value, 1)])
  {
    var product := FindProduct(page.allProducts, sku).value;
    var _ := page.AddToCart(sku);
    store.Add(product, 1);
  }
}
