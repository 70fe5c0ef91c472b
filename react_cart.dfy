/** The React cart page: its `cartItems` state, loaded from local storage when the
    page mounts and written back after every change. */
module ReactCart {
  import opened CartLines
  import opened Totals
  import opened Storage

  class Cart {
    var cartItems: seq<Line>
    const storage: LocalStorage

    /** The stored cart reads back as the page's state. */
    ghost predicate Valid()
      reads this, storage
    {
      Load(storage.cart) == cartItems
    }

    /** Mounting: the state starts empty and the effect replaces it with the stored
        cart, which is the empty cart when the key is absent; nothing is written. */
    constructor(storage: LocalStorage)
      ensures this.storage == storage && Valid()
      ensures cartItems == Load(storage.cart)
      ensures storage.cart.None? ==> cartItems == []
      ensures unchanged(storage)
    {
      this.storage := storage;
      cartItems := [];
      new;
      cartItems := Load(storage.cart);
    }

    /** `updateQuantity`: a quantity below 1 is ignored outright (the line stays, and
        nothing is stored); otherwise every line of `id` takes the new quantity and the
        result replaces both the state and the stored cart. */
    method UpdateQuantity(id: string, newQuantity: int)
      requires Valid()
      modifies this, storage
      ensures Valid()
      ensures newQuantity < 1 ==> unchanged(this) && unchanged(storage)
      ensures newQuantity >= 1 ==>
                cartItems == WithQuantity(old(cartItems), id, newQuantity) && storage.cart == Some(cartItems)
      ensures WellFormed(old(cartItems)) ==> WellFormed(cartItems)
    {
      if newQuantity < 1 {
        return;
      }
      var updatedCart := WithQuantity(cartItems, id, newQuantity);
      cartItems := updatedCart;
      storage.SetCart(updatedCart);
      if WellFormed(old(cartItems)) {
        WithQuantityKeepsWellFormed(old(cartItems), id, newQuantity);
      }
    }

    /** `removeItem`: every line of `id` is filtered out and the result replaces both
        the state and the stored cart, even when no line had that id. */
    method RemoveItem(id: string)
      requires Valid()
      modifies this, storage
      ensures Valid()
      ensures cartItems == Without(old(cartItems), id)
      ensures storage.cart == Some(cartItems)
      ensures Absent(old(cartItems), id) ==> cartItems == old(cartItems)
      ensures WellFormed(old(cartItems)) ==> WellFormed(cartItems)
    {
      var updatedCart := Without(cartItems, id);
      cartItems := updatedCart;
      storage.SetCart(updatedCart);
      if Absent(old(cartItems), id) {
        WithoutAbsent(old(cartItems), id);
      }
      if WellFormed(old(cartItems)) {
        WithoutKeepsWellFormed(old(cartItems), id);
      }
    }

    /** `getTotal` before formatting: the sum of price times quantity over the items. */
    function GetTotal(): (total: int)
      reads this
      ensures total == Sum(cartItems, Subtotal)
      ensures cartItems == [] ==> total == 0
    {
      Total(cartItems)
    }
  }
}
