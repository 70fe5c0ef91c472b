/** The vanilla single-page app: its page-level `cart` array, kept in local storage
    after every change, the navigation badge, and the detail modal's quantity stepper. */
module Spa {
  import opened CartLines
  import opened Totals
  import opened Storage

  /** The detail modal's stepper: the `quantity` variable its +/- buttons share. */
  class QuantityStepper {
    var quantity: int

    ghost predicate Valid()
      reads this
    {
      quantity >= 1
    }

    /** A freshly opened modal shows 1. */
    constructor()
      ensures Valid() && quantity == 1
    {
      quantity := 1;
    }

    /** The + button: no upper bound. */
    method Increase()
      requires Valid()
      modifies this
      ensures Valid() && quantity == old(quantity) + 1
    {
      quantity := quantity + 1;
    }

    /** The - button: steps down only while above 1. */
    method Decrease()
      requires Valid()
      modifies this
      ensures Valid()
      ensures quantity == if old(quantity) > 1 then old(quantity) - 1 else old(quantity)
    {
      if quantity > 1 {
        quantity := quantity - 1;
      }
    }
  }

  /** The app's cart state: the in-memory `cart`, the badge text, and the storage
      every change is written through to. */
  class Store {
    var cart: seq<Line>
    var badge: string
    const storage: LocalStorage

    /** The stored cart reads back as the in-memory cart, and the badge shows its count. */
    ghost predicate Valid()
      reads this, storage
    {
      Load(storage.cart) == cart && badge == BadgeLabel(Count(cart))
    }

    /** Startup: the cart is read from storage (empty when the key is absent) and the
        badge is drawn; nothing is written. */
    constructor(storage: LocalStorage)
      ensures this.storage == storage && Valid()
      ensures cart == Load(storage.cart)
      ensures storage.cart.None? ==> cart == []
      ensures unchanged(storage)
    {
      this.storage := storage;
      cart := Load(storage.cart);
      badge := BadgeLabel(Count(Load(storage.cart)));
    }

    /** `updateCartCount`: redraws the badge from the current cart. */
    method UpdateCartCount()
      modifies this`badge
      ensures badge == BadgeLabel(Count(cart))
    {
      badge := BadgeLabel(Count(cart));
    }

    /** `addToCart`: merges into the first line of the product's id, or appends a
        snapshot line, then writes through and redraws the badge. */
    method AddToCart(product: Product, quantity: int)
      requires Valid()
      modifies this, storage
      ensures Valid()
      ensures cart == Merge(old(cart), Snapshot(product, quantity))
      ensures storage.cart == Some(cart)
      ensures Count(cart) == Count(old(cart)) + quantity
      ensures WellFormed(old(cart)) && quantity >= 1 ==> WellFormed(cart)
    {
      var found := Find(cart, product.id);
      match found {
        case Some(k) =>
          cart := cart[k := cart[k].(quantity := cart[k].quantity + quantity)];
        case None =>
          cart := cart + [Snapshot(product, quantity)];
      }
      storage.SetCart(cart);
      UpdateCartCount();
      MergeCount(old(cart), Snapshot(product, quantity));
      if WellFormed(old(cart)) && quantity >= 1 {
        MergeKeepsWellFormed(old(cart), Snapshot(product, quantity));
      }
    }

    /** The modal's Add to Cart click: adds the stepper's current quantity, which
        keeps a well-formed cart well formed. */
    method AddFromDetail(product: Product, stepper: QuantityStepper)
      requires Valid() && stepper.Valid()
      modifies this, storage
      ensures Valid()
      ensures cart == Merge(old(cart), Snapshot(product, stepper.quantity))
      ensures WellFormed(old(cart)) ==> WellFormed(cart)
    {
      AddToCart(product, stepper.quantity);
    }

    /** `updateQuantity`: an id with no line changes nothing, storage included;
        otherwise its first line moves by `change`, and when that leaves it below 1
        the id is removed from the cart. */
    method UpdateQuantity(id: string, change: int)
      requires Valid()
      modifies this, storage
      ensures Valid()
      ensures cart == ChangeQuantity(old(cart), id, change)
      ensures Absent(old(cart), id) ==> unchanged(this) && unchanged(storage)
      ensures !Absent(old(cart), id) ==> storage.cart == Some(cart)
      ensures WellFormed(old(cart)) ==> WellFormed(cart)
    {
      var found := Find(cart, id);
      if found.Some? {
        var k := found.value;
        var q := cart[k].quantity + change;
        if q < 1 {
          // The source bumps the line before filtering it out; the bumped line is
          // discarded by the filter, so the model filters directly.
          RemoveFromCart(id);
        } else {
          cart := cart[k := cart[k].(quantity := q)];
          storage.SetCart(cart);
          UpdateCartCount();
        }
      }
      if WellFormed(old(cart)) {
        ChangeQuantityKeepsWellFormed(old(cart), id, change);
      }
    }

    /** `removeFromCart`: filters every line of `id` out, writes through, redraws. */
    method RemoveFromCart(id: string)
      requires Valid()
      modifies this, storage
      ensures Valid()
      ensures cart == Without(old(cart), id)
      ensures storage.cart == Some(cart)
      ensures WellFormed(old(cart)) ==> WellFormed(cart)
    {
      cart := Without(cart, id);
      storage.SetCart(cart);
      UpdateCartCount();
      if WellFormed(old(cart)) {
        WithoutKeepsWellFormed(old(cart), id);
      }
    }

    /** The checkout button: an empty cart is refused and nothing changes; otherwise
        the cart and its stored copy are emptied and the badge reads plain `Cart`. */
    method Checkout() returns (purchased: bool)
      requires Valid()
      modifies this, storage
      ensures Valid()
      ensures purchased <==> old(cart) != []
      ensures !purchased ==> unchanged(this) && unchanged(storage)
      ensures purchased ==> cart == [] && storage.cart == Some([]) && badge == "Cart"
    {
      if |cart| == 0 {
        return false;
      }
      cart := [];
      storage.SetCart(cart);
      UpdateCartCount();
      return true;
    }

    /** `updateTotal`'s fold: the sum of price times quantity over the lines. */
    function CartTotal(): (total: int)
      reads this
      ensures total == Sum(cart, Subtotal)
      ensures cart == [] ==> total == 0
    {
      Total(cart)
    }

    /** `updateCartCount`'s fold: the sum of the quantities, which for a well-formed
        cart is 0 exactly when the cart is empty. */
    function CartCount(): (count: int)
      reads this
      ensures count == Sum(cart, Quantity)
      ensures PositiveQuantities(cart) ==> (count == 0 <==> cart == [])
    {
      CountAtLeastLength(cart);
      Count(cart)
    }
  }
}
