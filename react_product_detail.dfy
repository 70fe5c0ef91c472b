/** The React product page's Add to Cart: it reads the stored cart, adds one of the
    product (copying every product field into a new line), and stores the result. */
module ReactProductDetail {
  import opened CartLines
  import opened Totals
  import opened Storage

  /** `addToCart`: the first line of the product's id grows by 1, or a full copy of the
      product with quantity 1 is appended; the stored cart is then the updated cart. */
  method AddToCart(storage: LocalStorage, product: Product)
    modifies storage
    ensures storage.cart == Some(Merge(Load(old(storage.cart)), FullCopy(product, 1)))
    ensures var before, after := Load(old(storage.cart)), Load(storage.cart);
      && |before| <= |after| <= |before| + 1
      && (forall j :: 0 <= j < |before| && before[j].id != product.id ==> after[j] == before[j])
      && Count(after) == Count(before) + 1
      && (WellFormed(before) ==> WellFormed(after))
  {
    var cart := Load(storage.cart);
    var found := Find(cart, product.id);
    match found {
      case Some(k) =>
        cart := cart[k := cart[k].(quantity := cart[k].quantity + 1)];
      case None =>
        cart := cart + [FullCopy(product, 1)];
    }
    storage.SetCart(cart);
    ghost var before := Load(old(storage.cart));
    MergeFrame(before, FullCopy(product, 1));
    MergeCount(before, FullCopy(product, 1));
    if WellFormed(before) {
      MergeKeepsWellFormed(before, FullCopy(product, 1));
    }
  }
}
