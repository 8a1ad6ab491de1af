# Lumber Boss cart and catalog model

This is a Dafny model of two parts of the Lumber Boss storefront, with proofs about them.

- `src/services/cart.js` is the shopping-cart store, `CartService`. It holds a list of cart
  lines. Each line has a SKU, a name, a unit price, a unit and a quantity. The store loads the
  list from the browser's `lumberBossCart` local-storage entry, writes it back after every
  change and calls its subscribed listeners. It adds products, sets a line's quantity, removes
  lines, clears the cart, and reports the item count and the subtotal.
- `products.js` is the product listing page. It keeps the catalog, the current filter
  configuration and the filtered, sorted list it shows. A product is kept when it passes every
  filter facet: category, case-insensitive search over name, SKU and brand, availability,
  brand, and a price range. The shown list is sorted by name or price, ascending or
  descending. The page writes the category and search into the address bar and seeds them
  back from it. It lists the brands alphabetically for the brand checkboxes. It also has its
  own add-to-cart path, which edits the local-storage entry directly, and a header cart count.
- `src/components/lb-product-card.js` supplies the product card's add-to-cart handler, which
  calls into the store.

Modules:

| file | module | contents |
|---|---|---|
| `options.dfy` | `Options` | `Option` |
| `text.dfy` | `Text` | ASCII lower-casing, `includes`, the string order `<` |
| `sequences.dfy` | `Sequences` | order-preserving subsequences |
| `catalog.dfy` | `Catalog` | products, inventory statuses, `find` by SKU, the sorted brand list |
| `cart.dfy` | `Cart` | cart lines, the meaning of each store operation on the list, the `CartService` class |
| `filters.dfy` | `Filters` | the filter configuration, its defaults and the `applyFilters` callback |
| `sorting.dfy` | `Sorting` | parsing the sort key, the comparator, and a sort proved against it |
| `url.dfy` | `Url` | the query built by `updateURL` and the seeding done by `init` |
| `products_page.dfy` | `ProductsPage` | the page state as a class, and its handlers |
| `product_card.dfy` | `ProductCard` | the card's add-to-cart handler |

How the source is represented:

- `add(product, quantity = 1)` has a default argument. `CartService.Add` always takes the
  quantity, and a call that leaves it out is `Add(product, 1)`.
- Each store operation has two parts. A pure function gives what it does to the list
  (`Added`, `Removed`, `QuantitySet`), and lemmas prove its properties. The `CartService`
  method is then proved to make exactly that change. The same holds for saving and notifying.
- The getters `items`, `count` and `subtotal` are the functions `Items`, `Count` and
  `Subtotal` of `CartService`. They return `items`, `TotalQuantity(items)` and
  `TotalPrice(items)`, and the lemmas about those two sums state how each operation changes them.
- Listener calls are recorded in a log of `Notice(listener, items, storage)` values. Listeners
  are kept as a duplicate-free sequence, because a JavaScript `Set` iterates in insertion order.
- Local storage has three states, `Stored = Absent | Malformed | Saved(items)`. `Absent` is a
  missing or empty entry: every reader tests `getItem`'s result for truth first (cart.js:22,
  products.js:491 and 520), so an empty string never reaches `JSON.parse` and reads as the empty
  cart. `Malformed` is non-empty text that does not parse. The store's
  `#load` falls back to the empty cart for both `Absent` and `Malformed`. In `products.js`,
  `addToCart` and `updateCartCount` call `JSON.parse` outside any `try`, so malformed data makes
  them throw, and the model keeps that difference.
- Prices are integers (cents).
- `toLowerCase` is ASCII lower-casing, and JavaScript's string `<` is lexicographic order on
  characters.
- `Array.prototype.sort` is modelled as an insertion sort proved against the source's
  comparator. The sort is proved to give a permutation that is ordered by that comparator.
  The comparator never returns 0, so the source leaves the order of ties open. The model
  promises nothing about ties either. Nor is the comparator consistent in ECMAScript's sense,
  and `Ordered` assumes the engine still sorts by key (see "## Left out").

## Model

| member | source | states |
|---|---|---|
| Cart.Loaded | src/services/cart.js:19-27 | Loading gives the stored list when one parsed, and the empty cart when the entry is absent or malformed. |
| Cart.Find | src/services/cart.js:62 | The index found is that of the first line with the SKU, and there is none only when no line has it. |
| Cart.TotalQuantityAtLeastLines | src/services/cart.js:121-123 | With every quantity positive, the count is at least the number of lines. |
| Cart.TotalPriceNonNegative | src/services/cart.js:128-130 | With no negative price or quantity, the subtotal is not negative. |
| Cart.Added | src/services/cart.js:61-75 | After `add`, the SKU has a line, the list grows by one only when the SKU was new, and every line of another SKU is kept. |
| Cart.Removed | src/services/cart.js:99 | The filtered list is no longer than the input, and holds only input lines with another SKU. |
| Cart.QuantitySet | src/services/cart.js:82-92 | An absent SKU leaves the list alone, a positive quantity keeps its length, and a quantity of 0 or less leaves no line with the SKU. |
| Cart.TotalQuantityUpdate | src/services/cart.js:121-123 | Changing one line's quantity changes the item count by the difference. |
| Cart.TotalQuantityAppend | src/services/cart.js:121-123 | Pushing a line adds its quantity to the item count. |
| Cart.TotalPriceUpdate | src/services/cart.js:128-130 | Changing one line's quantity changes the subtotal by its price times the difference. |
| Cart.TotalPriceAppend | src/services/cart.js:128-130 | Pushing a line adds price times quantity to the subtotal. |
| Cart.QuantityOfUpdate | src/services/cart.js:121-123 | Changing line i's quantity changes only the quantity held for that line's SKU. |
| Cart.QuantityOfAppend | src/services/cart.js:121-123 | Pushing a line adds to the quantity held for its SKU only. |
| Cart.QuantityOfAbsent | src/services/cart.js:121-123 | A SKU with no line holds quantity 0. |
| Cart.QuantityOfUnique | src/services/cart.js:62-64 | When SKUs are unique, the quantity held for a line's SKU is that line's quantity. |
| Cart.AddToExistingLine | src/services/cart.js:62-64 | When the SKU already has a line, `add` raises the first such line's quantity and leaves every other line as it was. |
| Cart.AddNewLine | src/services/cart.js:65-72 | When the SKU has no line, `add` appends one line copied from the product's SKU, name, price and unit, with the given quantity. |
| Cart.AddedTotalQuantity | src/services/cart.js:61-75 | `add(product, q)` raises the item count by exactly q. |
| Cart.AddedTotalPrice | src/services/cart.js:61-75 | `add(product, q)` raises the subtotal by the line's price times q. |
| Cart.AddedQuantityOf | src/services/cart.js:61-75 | `add(product, q)` raises the quantity held for that SKU by q and no other SKU's quantity. |
| Cart.AddedKeepsUnique | src/services/cart.js:61-75 | `add` never creates a second line for a SKU, and the SKU is in the cart afterwards. |
| Cart.AddedKeepsPositive | src/services/cart.js:61-75 | With a positive q, `add` keeps every quantity positive. |
| Cart.RemovedKeepsOthers | src/services/cart.js:98-99 | `remove` keeps exactly the lines with another SKU, each as many times as the input has it and in their order, and no line with the SKU is left. |
| Cart.RemovedAbsent | src/services/cart.js:98-99 | Removing a SKU that has no line leaves the list unchanged. |
| Cart.RemovedIdempotent | src/services/cart.js:98-99 | Removing the same SKU twice is the same as removing it once. |
| Cart.RemovedQuantities | src/services/cart.js:98-99 | `remove` lowers the item count by the SKU's quantity, sets that SKU's quantity to 0 and leaves the others unchanged. |
| Cart.RemovedKeepsUnique | src/services/cart.js:98-99 | `remove` keeps SKUs unique. |
| Cart.SubsequenceKeepsUnique | src/services/cart.js:99 | Any list kept in order from a list with unique SKUs has unique SKUs. |
| Cart.SubsequenceElements | src/services/cart.js:99 | Every element of a subsequence is an element of the whole. |
| Cart.RemovedKeepsPositive | src/services/cart.js:98-99 | `remove` keeps every quantity positive. |
| Cart.UpdateAbsentIsNoop | src/services/cart.js:83-84 | `updateQuantity` for a SKU with no line does nothing. |
| Cart.UpdateNonPositiveIsRemove | src/services/cart.js:85-86 | `updateQuantity` with a quantity of 0 or less is `remove`. |
| Cart.UpdatePositiveSetsQuantity | src/services/cart.js:87-88 | With a positive quantity and unique SKUs, the SKU then holds exactly that quantity, the list keeps its length, and no other SKU changes. |
| Cart.UpdateSetsFirstLine | src/services/cart.js:83-88 | With a positive quantity, `updateQuantity` sets the first line with the SKU to exactly that quantity and leaves every other line, later duplicates included, unchanged. No uniqueness is assumed. |
| Cart.UpdateKeepsUnique | src/services/cart.js:82-92 | `updateQuantity` keeps SKUs unique. |
| Cart.UpdateKeepsPositive | src/services/cart.js:82-92 | `updateQuantity` keeps every quantity positive. |
| Cart.AddAllQuantity | src/services/cart.js:61-75 | After a series of `add` calls, a SKU holds its starting quantity plus the sum of the quantities added for it, and SKUs stay unique. |
| Cart.Broadcast | src/services/cart.js:41 | A notification has one call per listener, in subscription order, each given the current items and storage. |
| Cart.NoticesForAppend | src/services/cart.js:40-42 | The notices one listener gets from two broadcasts in a row are those of the first followed by those of the second. |
| Cart.BroadcastReachesEachOnce | src/services/cart.js:40-42 | A notification calls each subscribed listener exactly once and no one else. |
| Cart.CartService.constructor | src/services/cart.js:8-14 | A new store has no listeners, has notified no one, and holds what `#load` reads from storage. |
| Cart.CartService.Load | src/services/cart.js:19-27 | Loading takes the stored list, and takes the empty cart when the entry is absent or unreadable. |
| Cart.CartService.Notify | src/services/cart.js:40-42 | `#notify`'s loop calls the listeners in subscription order, each with the current items. |
| Cart.CartService.Save | src/services/cart.js:32-35 | `#save` writes the list to storage so that loading it gives the same list, and then notifies every listener. |
| Cart.CartService.Subscribe | src/services/cart.js:49-54 | `subscribe` adds the listener if new, and calls it, and only it, once with the current items. |
| Cart.CartService.Unsubscribe | src/services/cart.js:53 | The returned unsubscribe removes exactly that listener, keeps the others in order, and reports whether it was subscribed. |
| Cart.CartService.Add | src/services/cart.js:61-75 | `add` makes the list `Added(old, product, q)`, raises the count by q, keeps SKUs unique, saves and notifies. |
| Cart.CartService.UpdateQuantity | src/services/cart.js:82-92 | A missing SKU changes nothing and does not save. Otherwise the list becomes `QuantitySet`, a quantity of 0 or less is `remove`, and the new list is saved and broadcast. |
| Cart.CartService.Remove | src/services/cart.js:98-101 | `remove` filters out the SKU's lines, saves and notifies. |
| Cart.CartService.Clear | src/services/cart.js:106-109 | `clear` empties the cart, so the count and subtotal are 0, and saves and notifies. |
| Cart.CartService.Items | src/services/cart.js:114-116 | The getter returns exactly what loading the stored entry gives, because every change is saved (`Valid()` keeps the list equal to `Loaded(storage)`), so a reload shows the same cart. |
| Cart.CartService.Count | src/services/cart.js:121-123 | The count is 0 for the empty cart, and at least the number of lines when every quantity is positive. |
| Cart.CartService.Subtotal | src/services/cart.js:128-130 | The subtotal is 0 for the empty cart, and not negative when no price or quantity is. |
| Cart.Without | src/services/cart.js:53 | Deleting a listener from the set keeps every other listener, in order and without duplicates. |
| Catalog.ParseStatus | products.js:320 | Each of the four status strings the availability checkboxes accept (also at products.js:396) names its status, and no other string names one. |
| Catalog.FindProduct | products.js:487-488 | Returns the first product of the catalog with the SKU, and none exactly when no product has it. |
| Catalog.InsertBrand | products.js:105 | Inserting into a sorted duplicate-free brand list keeps it so and adds exactly that brand. |
| Catalog.BrandList | products.js:104-118 | The brand checkboxes list every brand of the catalog exactly once, in increasing order. |
| Catalog.StrictlyIncreasingHeads | products.js:105 | Two strictly increasing lists with the same elements start with the same element. |
| Catalog.StrictlyIncreasingUnique | products.js:105 | Two strictly increasing lists with the same elements are equal, so the brand list is determined by the brand set. |
| Filters.Keep | products.js:122-158 | The callback keeps a product exactly when it passes the category, search, availability, brand and price facets. |
| Filters.ApplyFilter | products.js:122 | The filtered list is no longer than the catalog, and holds only catalog products the callback keeps. |
| Filters.FilteredMembership | products.js:121-158 | A product is shown exactly when it is in the catalog and matches the category (unless it is `all`), the search, an allowed status, a selected brand (if any) and both price bounds. |
| Filters.FilteredKeeps | products.js:122 | The filtered list holds exactly the catalog products the callback keeps. |
| Filters.FilterConcat | products.js:122 | Filtering a concatenation is filtering each part. |
| Filters.FilterIsSubsequence | products.js:122 | Filtering keeps products in catalog order. |
| Filters.FilterMultiplicity | products.js:122 | A kept product occurs as often as in the catalog, and a dropped one not at all. |
| Filters.FilterIdempotent | products.js:121-158 | Applying the same filters again changes nothing. |
| Filters.FilterCongruence | products.js:121-158 | Two configurations that keep the same products give the same list. |
| Filters.DefaultKeep | products.js:10-18 | The default configuration keeps a product exactly when it is not `unavailable`. |
| Filters.DefaultKeepsAvailable | products.js:10-18 | The default configuration shows every product that is not `unavailable`. |
| Filters.InvertedPriceRangeKeepsNothing | products.js:149-155 | A minimum price above the maximum shows no product. |
| Filters.EveryBrandIsNoBrand | products.js:144-147 | Ticking every brand of the catalog shows the same products as ticking none. |
| Filters.SearchIgnoresCase | products.js:129-137 | Search is case-insensitive: lower-casing the search text keeps the same products. |
| Filters.SearchExample | products.js:129-137 | The search `app` matches a product named `Apple` and the SKU `APP-100`. |
| Filters.DefaultExample | products.js:10-18 | Under the defaults an in-stock product is shown and an unavailable one is not. |
| Sorting.ParseSort | products.js:170-187 | The key is by name exactly when the first piece is `name` and by price exactly when it is `price`. The order is ascending exactly when a second piece exists and is `asc`. |
| Sorting.UpToDashWithoutDash | products.js:170 | `split('-')` cuts at every dash, and the destructuring keeps the first two pieces. A dash-free prefix passes through unchanged into the first piece and does not affect what follows the first dash. |
| Sorting.ParseSortOfPair | products.js:170-187 | `name` and `price` select the key, any other field selects none, `asc` selects ascending, anything else descending. |
| Sorting.SortSelectValues | products.js:170-187 | The four sort menu values select name or price, ascending or descending. |
| Sorting.Compare | products.js:172-188 | The comparator returns 1 or -1, never 0. |
| Sorting.OrderedByPrice | products.js:178-187 | Sorted by `price-asc` means prices never decrease. Sorted by `price-desc` means they never increase. |
| Sorting.OrderedByName | products.js:175-187 | Sorted by `name-asc` or `name-desc` means the lower-cased names are in increasing or decreasing string order. |
| Sorting.InOrderTotal | products.js:183-187 | For any two products, one may come before the other. |
| Sorting.InOrderTransitive | products.js:183-187 | The "may come before" relation is transitive. |
| Sorting.Insert | products.js:172 | Inserting adds one to the length. |
| Sorting.SortBy | products.js:172 | Sorting keeps the length. Its full contract is `Sorting.SortByIsSortedPermutation`. |
| Sorting.InsertElements | products.js:172 | Inserting adds exactly that product to the list's elements. |
| Sorting.HeadBeforeRest | products.js:172 | When a product goes behind the head of a sorted list, the head may stand before everything after it. |
| Sorting.ConsOrdered | products.js:172 | Putting a product that may stand before every element at the head of a sorted list keeps it sorted. |
| Sorting.InsertSorted | products.js:172 | Inserting into a sorted list keeps it sorted and adds exactly that product. |
| Sorting.SortByIsSortedPermutation | products.js:169-189 | The sort returns a permutation of its input that is ordered by the comparator. |
| Sorting.TwoInOrder | products.js:172-188 | Two products that may come in only one order are sorted in that order. |
| Sorting.PriceAscExample | products.js:178-184 | The order `price-asc` selects, by `Sorting.SortSelectValues`, puts a product at 5.00 before one at 10.00. |
| Sorting.NameDescExample | products.js:175-186 | The order `name-desc` selects, by `Sorting.SortSelectValues`, puts `Banana` before `Apple`. |
| Text.ToLower | products.js:130 | Lower-casing keeps the length. |
| Text.ToLowerIdempotent | products.js:130-133 | Lower-casing twice is lower-casing once. |
| Text.IncludesAt | products.js:131-133 | `includes` holds exactly when the needle occurs at some position of the haystack. |
| Text.IncludesEmpty | products.js:131-133 | Every string includes the empty string. |
| Text.LexLessIrreflexive | products.js:184-186 | No string is less than itself. |
| Text.LexLessTransitive | products.js:184-186 | String order is transitive. |
| Text.LexLessTotal | products.js:184-186 | Of two different strings, one is less than the other. |
| Text.LexLessAsymmetric | products.js:184-186 | Two strings are never less than each other. |
| Url.UrlFor | products.js:468-480 | The bare path is written exactly when there are no parameters, and otherwise the query is exactly the parameters set. |
| Url.Get | products.js:46-48 | `get` returns the value of the first parameter with that name, and returns none exactly when no parameter has it. |
| Url.Seeded | products.js:50-56 | Seeding changes only the category and search, each only to the non-empty value `get` returns for it, and a non-empty `get` value always becomes that part. |
| Url.UrlParameters | products.js:468-480 | The query has a `category` exactly when it is not `all` and a `search` exactly when it is non-empty. The bare path is used exactly when neither is present. |
| Url.UrlRoundTrip | products.js:45-56 | For a non-empty category, seeding the defaults from the URL that `updateURL` wrote gives back the same category and search. An empty category is written as an empty `category` parameter, which `init` ignores, so the default `all` comes back. |
| Url.ReloadRoundTrip | products.js:45-56 | For a non-empty category, a fresh page whose address is the one `updateURL` wrote seeds the same category and search. |
| ProductsPage.ParsedCart | products.js:491 | Parsing fails exactly on malformed storage, and otherwise gives the same list the store's `#load` would. |
| ProductsPage.AddOne | products.js:494-506 | The page's `findIndex` and increment-or-push make the list `Cart.Added(list, product, 1)`, one more item than before. |
| ProductsPage.CheckedStatuses | products.js:391-402 | The availability list holds exactly the statuses of the ticked boxes. |
| ProductsPage.CheckedBrands | products.js:405-414 | The brand list holds exactly the values of the ticked boxes. |
| ProductsPage.Page.constructor | products.js:6-18 | The page starts with an empty catalog, the default filters and nothing shown. It also runs the `updateCartCount()` call at products.js:541, which sets the header count from storage. |
| ProductsPage.Page.Init | products.js:42-71 | The category and search are seeded from the query of the page's own address. When loading fails, the catalog is unchanged, an error shows and no user-event handler is wired. Otherwise the brand list is built, the filters are applied and the handlers are wired (`listening`). |
| ProductsPage.Page.ApplyFilters | products.js:121-166 | The page shows a permutation of the filtered catalog, sorted by the current key, and the count is its length. |
| ProductsPage.Page.SortProducts | products.js:169-189 | Sorting permutes the shown list into the current key's order. |
| ProductsPage.Page.UpdateUrl | products.js:468-480 | The address shows the query built from the current category and search. |
| ProductsPage.Page.UpdateAvailabilityFilter | products.js:391-402 | Only the availability filter changes, and it becomes the statuses of the ticked boxes. |
| ProductsPage.Page.UpdateBrandFilter | products.js:405-414 | Only the brand filter changes, and it becomes the ticked values. |
| ProductsPage.Page.ClearAllFilters | products.js:417-465 | The filters return to the defaults, the address to the bare path, and every product that is not unavailable is shown. |
| ProductsPage.Page.SelectCategory | products.js:283-299 | Clicking a category pill sets only the category, then updates the address and the shown list. |
| ProductsPage.Page.Search | products.js:303-310 | Typing a search sets only the search, then updates the address and the shown list. |
| ProductsPage.Page.ChangeSort | products.js:313-316 | Choosing a sort sets only the sort key and re-shows the list. |
| ProductsPage.Page.AvailabilityChanged | products.js:319-326 | Ticking an availability box sets only the availability, to exactly the statuses of the ticked boxes, and re-shows the list. |
| ProductsPage.Page.BrandChanged | products.js:329-334 | Ticking a brand box sets only the brands, to exactly the values of the ticked boxes, and re-shows the list. |
| ProductsPage.Page.PriceChanged | products.js:338-347 | Editing a price bound sets only the bounds and re-shows the list, which is empty when the range is inverted. |
| ProductsPage.Page.UpdateCartCount | products.js:519-526 | The header count becomes the total stored quantity. Malformed storage throws and leaves it as it was. |
| ProductsPage.Page.AddToCart | products.js:483-516 | An unknown SKU or malformed storage changes nothing. Otherwise storage gets what `CartService.add(product, 1)` would make of it, and the header count becomes the stored total plus one, which is not its old value plus one when the header was stale. |
| ProductsPage.AddPathsAgree | products.js:487-509 | Suppose the store's list is what storage holds. Then the page's add-to-cart and the store's `add(product, 1)` leave the same list in storage, unless the entry is malformed. The source does not keep the two in step (see "## Left out"). |
| ProductCard.HandleAddToCart | src/components/lb-product-card.js:51-59 | A missing or unavailable product is not added, and nothing is saved or notified. Otherwise the card adds the product once through the store, which saves and notifies every listener. |

## Left out

- Rendering is not modelled. That covers the product grid, the empty and loading states, the
  category pills, the page header, the breadcrumb, the mobile navigation and the add-to-cart
  feedback button. These only write to the DOM. The page's `productCount` field stands for the
  count element, and `cartCount` for the `.cart-count` elements.
- The `allCategories` list is not modelled, because only the page header and the pills read it.
  The `image_gradient` field is not modelled either, because only rendering reads it.
- `loadProducts` and `fetch` are not modelled. `Init` takes the loaded catalog as a parameter,
  and `None` stands for a failed fetch. `src/services/api.js` is not part of this model.
- The debouncing timers of the search (300 ms) and price (500 ms) inputs are not modelled.
  `Search` and `PriceChanged` are the handlers as they run once the timer fires.
- JSON is not encoded or decoded. Storage holds the list itself, `Absent` for a missing or
  empty entry, or `Malformed` for non-empty data that does not parse. Stored JSON that parses but is not an array of cart lines is not modelled.
- `parseFloat` of the price inputs, `NaN`, floating-point prices and `toFixed` are not
  modelled. Prices and bounds are integers.
- `Text.ToLower` lower-cases ASCII letters only. JavaScript's Unicode case mapping is not
  modelled, and `Text.LexLess` compares characters, not UTF-16 code units.
- Percent-encoding of URL parameters is not modelled. `window.history.replaceState` becomes the
  `url` field.
- Listeners are identities, not callbacks. A listener that calls back into the store while
  being notified is not modelled.
- `Cart.CartService.Items` does not model aliasing of cart lines. The getter's `[...this.#items]`
  is a shallow copy. `add` and `updateQuantity` change line objects in place (cart.js:64, 88),
  so a copy taken earlier shows the new quantities. Here lines are values and a copy never
  changes.
- `Cart.Notice` records do not model the live array. `#notify` and `subscribe` hand listeners
  the store's own array, which a later `push` or in-place change alters. The log records a
  snapshot of the list at each call, which the source does not keep. A listener that mutates
  the array is not modelled either.
- The store's list and the page's storage edits are not kept in step. One `lumberBossCart`
  entry is modelled as two fields that nothing links: `Cart.CartService.storage` and
  `ProductsPage.Page.storage`. The source reads storage into `CartService` only in its
  constructor (cart.js:12-14), while products.js:509 writes the entry directly. A store loaded
  on the same page keeps a stale list, and its next save overwrites the page's write. The model
  states only the hypothetical agreement in `ProductsPage.AddPathsAgree`, not this
  interaction.
- `Sorting.SortByIsSortedPermutation` promises a permutation and comparator order but not the
  engine's order of ties, because the comparator never returns 0 and the source leaves that
  order open. The comparator is not consistent in the sense of ECMAScript's `Array.prototype.sort`:
  it returns -1 for a product compared with itself, and -1 both ways for two equal keys. For
  such a comparator the language leaves the whole result order implementation-defined, not
  only the order of ties. `Ordered` assumes the engine still sorts by key, as common engines do.
- `Cart.CartService.Save` always succeeds. `localStorage.setItem` can throw (for example when
  the storage quota is full) at cart.js:33 and products.js:509. Then `#notify` does not run and
  the change stays in memory only, and the page's add-to-cart leaves storage and count as they
  were. The model does not have that failure.
- `ProductsPage.CheckedStatuses` states which statuses are in the result, not their order or
  duplicates.
- `ProductsPage.CheckedBrands` states which brands are in the result, not their order or
  duplicates.
- Uniqueness of SKUs in the cart is not a class invariant, because `#load` accepts whatever
  the entry holds. Each operation is proved to preserve it instead.
- `add` does not require a positive quantity, because the source does not check one.
  `Cart.AddedKeepsPositive` assumes a positive quantity.
- The user-event handlers `SelectCategory`, `Search`, `ChangeSort`, `AvailabilityChanged`,
  `BrandChanged`, `PriceChanged` and `ClearAllFilters` require `listening`. They stand for the
  listeners `setupEventListeners` attaches (products.js:281-380), which `init` wires only after
  the catalog has loaded (products.js:58-64). After a failed load none of them can run.
- The `add-to-cart` `CustomEvent` that `handleAddToCart` dispatches after the toast
  (src/components/lb-product-card.js:63-66) is not modelled, and neither is the toast. Both are
  outputs to the page that nothing in this model reads.
- The inventory badge, the toast, `account.js`, `main.js` and `src/app.js` are not part of this
  model.
