/** The browser's local storage, reduced to the one key the cart lives under. */
module Storage {
  import opened CartLines

  /** `localStorage` as far as the cart is concerned: the decoded value under the
      `cart` key, or None while that key has never been written. */
  class LocalStorage {
    var cart: Option<seq<Line>>

    constructor(initial: Option<seq<Line>>)
      ensures cart == initial
    {
      cart := initial;
    }

    /** `localStorage.setItem('cart', JSON.stringify(lines))`. */
    method SetCart(lines: seq<Line>)
      modifies this
      ensures cart == Some(lines)
    {
      cart := Some(lines);
    }
  }

  /** `JSON.parse(localStorage.getItem('cart')) || []`: an absent key reads as the empty cart. */
  function Load(stored: Option<seq<Line>>): seq<Line> {
    match stored
    case None => []
    case Some(lines) => lines
  }
}
