/** The add-to-cart button of the product card component. */
module ProductCard {
  import opened Options
  import opened Catalog
  import Cart

  /**
   * `handleAddToCart`: with no product, or an `unavailable` one, nothing happens; otherwise one
   * unit is added to the shared cart store.
   */
  method HandleAddToCart(store: Cart.CartService, product: Option<Product>)
    requires store.Valid()
    modifies store
    ensures store.Valid()
    ensures product.None? || product.value.status == Unavailable ==>
              store.items == old(store.items) && store.storage == old(store.storage) && store.log == old(store.log)
    ensures product.Some? && product.value.status != Unavailable ==>
              store.items == Cart.Added(old(store.items), product.value, 1) &&
              store.storage == Cart.Saved(store.items) &&
              store.log == old(store.log) + Cart.Broadcast(store.listeners, store.items, store.storage)
    ensures store.listeners == old(store.listeners)
  {
    if product.None? || product.value.status == Unavailable {
      return;
    }
    store.Add(product.value, 1);
  }
}
