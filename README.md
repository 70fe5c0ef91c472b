# Shopping cart of the e-commerce demo, in Dafny

This project models the client-side shopping cart of a small e-commerce demo. The cart is
an ordered list of lines. Each line holds a product id, a snapshot of the product's name,
price and image, and an integer quantity. The cart is kept in the browser's local storage
under the key `cart`. Three pieces of the frontend change it:

- the vanilla single-page app (`frontend/public/script.js`). It keeps a page-level `cart`
  array that it adds to, steps quantities of, filters and empties at checkout. It writes
  the array to storage after every change and redraws the navigation badge. Its detail
  modal has a quantity stepper;
- the React cart page (`frontend/src/components/Cart.js`). It loads the stored cart when it
  mounts, sets absolute quantities, removes lines and sums the total;
- the React product page (`frontend/src/components/ProductDetail.js`). Its Add to Cart reads
  the stored cart, adds one of the product and stores the result.

Layout:

- `cart_lines.dfy`, module `CartLines`. It holds the `Product` and `Line` datatypes, the
  `find` loop (`Find`) and its specification `FirstIndex`, and the pure list operations.
  These are `Merge` (add), `ChangeQuantity` (the single-page app's ±step), `Without`
  (filter) and `WithQuantity` (the React `map`). Lemmas state what each does to the lines.
- `totals.dfy`, module `Totals`. It holds the `reduce` folds (`Total`, `Count`), a
  structurally recursive reference `Sum`, and the badge label with its decimal rendering.
  Lemmas tie each operation to the totals.
- `storage.dfy`, module `Storage`. `LocalStorage` is a class whose `cart` field is the
  decoded value under the `cart` key, or `None` while the key is absent. `Load` reads it
  the way the code does (`JSON.parse(...) || []`).
- `spa.dfy`, module `Spa`. The single-page app's `Store` class (cart, badge, storage) and the
  `QuantityStepper` class.
- `react_cart.dfy`, module `ReactCart`. The React `Cart` class.
- `react_product_detail.dfy`, module `ReactProductDetail`. The React page's `AddToCart`.

Each component's `Valid()` says that the stored cart reads back as its in-memory state.
Every mutating method keeps it. A separate predicate, `WellFormed`, says there is at most
one line per id and every quantity is at least 1. The code does not enforce it on data it
reads from storage. Each operation preserves it under the condition the code relies on: the
single-page app adds the stepper's quantity, which is never below 1, and the React page
ignores quantities below 1.

Behaviour of the code the model keeps as written:

- The React `updateQuantity` ignores a quantity below 1. It does not remove the line, unlike
  the single-page app's step.
- `cart.find` stops at the first line of an id, so with duplicate ids in storage only the
  first one is merged into or stepped. `removeFromCart` and `removeItem` drop every line of
  the id, and the React `map` sets every line of the id.

## Model

| member | source | states |
|---|---|---|
| CartLines.FirstIndex | frontend/public/script.js:108 | the index `find` lands on is the first line carrying the id; None exactly when no line carries it |
| CartLines.Find | frontend/public/script.js:108 | the search loop returns exactly the first index of the id, or None when the id is absent |
| CartLines.Snapshot | frontend/public/script.js:113-119 | the single-page app's new line: the product's id, name, price and image with the chosen quantity; what it adds is stated by MergeAbsent and MergeTwice |
| CartLines.FullCopy | frontend/src/components/ProductDetail.js:33 | the React page's new line carries the same id, name, price, image and quantity as the single-page app's snapshot, plus the product's description, category and stock flag |
| CartLines.Merge | frontend/public/script.js:107-120 | adding grows the cart by at most one line and the added id is present afterwards; see MergePresent, MergeAbsent, MergeFrame for the exact effect |
| CartLines.MergePresent | frontend/public/script.js:108-111 | adding an id whose first line is k grows that line's quantity by exactly the added amount; length, order and every other line unchanged |
| CartLines.MergeAbsent | frontend/public/script.js:112-120 | adding an absent id appends exactly the new line at the end, earlier lines unchanged |
| CartLines.MergeFrame | frontend/src/components/ProductDetail.js:27-34 | adding grows the cart by at most one line, keeps every id in place, leaves lines of other ids untouched, and any new last line is the added one |
| CartLines.MergeKeepsWellFormed | frontend/public/script.js:107-120 | adding a quantity of at least 1 keeps at most one line per id and all quantities at least 1 |
| CartLines.MergeTwice | frontend/public/script.js:107-120 | adding the same new product twice with q1 and q2 yields exactly one line for it, with q1 + q2, appended after the old lines |
| CartLines.ChangeQuantity | frontend/public/script.js:184-196 | a step never lengthens the cart and every surviving line of another id was already in it; see ChangeQuantityAbsent and ChangeQuantityAt for the exact effect |
| CartLines.Without | frontend/public/script.js:200 | the filter's result holds exactly the lines whose id differs, and is no longer than the input |
| CartLines.WithoutAppend | frontend/public/script.js:200 | filtering distributes over concatenation, so the surviving lines keep their order |
| CartLines.WithoutAbsent | frontend/src/components/Cart.js:22-23 | filtering an id no line carries yields an identical cart |
| CartLines.WithoutAt | frontend/public/script.js:199-201 | with one line per id, removing the id removes exactly the line at its index, nothing else |
| CartLines.WithoutKeepsWellFormed | frontend/public/script.js:200 | removal keeps ids unique and quantities at least 1 |
| CartLines.ChangeQuantityAbsent | frontend/public/script.js:185-186 | stepping an id with no line leaves the cart as it was |
| CartLines.ChangeQuantityAt | frontend/public/script.js:187-195 | with one line per id, a step leaving the quantity at 1 or more changes only that line's quantity, by the step; one leaving it below 1 removes exactly that line |
| CartLines.ChangeQuantityFirst | frontend/public/script.js:184-196 | whatever the ids, a step on an id whose first line is k moves only line k's quantity, by the step, when that leaves it at 1 or more; otherwise the result is the filter that drops every line of the id |
| CartLines.ChangeQuantityKeepsWellFormed | frontend/public/script.js:187-189 | whatever the step, ids stay unique and quantities stay at least 1 |
| CartLines.WithQuantity | frontend/src/components/Cart.js:14-16 | same length; each line of the id takes the new quantity, every other line is unchanged, in place |
| CartLines.WithQuantityAbsent | frontend/src/components/Cart.js:14-16 | setting the quantity of an absent id yields an identical cart |
| CartLines.WithQuantityKeepsWellFormed | frontend/src/components/Cart.js:12-16 | setting a quantity of at least 1 keeps ids unique and quantities at least 1 |
| Totals.ReduceIsSum | frontend/public/script.js:208 | the left-to-right `reduce` from an initial value equals that value plus the structural sum |
| Totals.Total | frontend/public/script.js:208 | the total `reduce` (also Cart.js line 29) equals the sum of price times quantity over the lines |
| Totals.Count | frontend/public/script.js:214 | the count `reduce` equals the sum of the quantities over the lines |
| Totals.CountAtLeastLength | frontend/public/script.js:214 | when every quantity is at least 1, the count is at least the number of lines, and 0 exactly for the empty cart |
| Totals.MergeCount | frontend/public/script.js:107-120 | adding raises the item count by exactly the added quantity |
| Totals.MergeTotal | frontend/public/script.js:107-120 | adding raises the total by the added quantity times the price of the line it lands on, which is the existing line's snapshot price when the id is present |
| Totals.ChangeQuantityCount | frontend/public/script.js:184-196 | a step moves the count by the step, or, when the line is removed, lowers it by exactly the line's prior quantity |
| Totals.WithoutTotal | frontend/public/script.js:199-201 | removing an id lowers the total by exactly that line's price times quantity |
| Totals.WithoutSum | frontend/public/script.js:199-201 | whatever the ids, removing an id lowers the total and the count by exactly the sum over all the lines that carry it |
| Totals.Decimal | frontend/public/script.js:218 | the badge number renders as a non-empty string of decimal digits with no leading zero |
| Totals.DecimalRoundTrip | frontend/public/script.js:218 | reading the rendered digits back gives the count |
| Totals.BadgeLabel | frontend/public/script.js:217-221 | the label is plain `Cart` exactly when the count is not positive; otherwise it is exactly `Cart (` + the count in decimal, without leading zero, + `)`, and the digits read back as the count |
| Totals.EmptyCartBadge | frontend/public/script.js:213-221 | for a cart with quantities of at least 1, the label is plain `Cart` exactly when the cart is empty |
| Totals.WorkedExample | frontend/public/script.js:207-214 | 2 × 9.99 totals 19.98; adding 1 × 5.00 gives 24.98 in 3 items; setting p1 to 1 gives 14.99; removing p2 leaves 9.99 |
| Storage.Load | frontend/public/script.js:15 | reading the `cart` key (also Cart.js line 7 and ProductDetail.js line 27): an absent key reads as the empty cart; see Spa.Store.constructor and ReactCart.Cart.constructor |
| Storage.LocalStorage.SetCart | frontend/public/script.js:122 | writing the `cart` key (also lines 191, 201, 268, Cart.js lines 19 and 25, ProductDetail.js line 36) leaves exactly the given lines stored |
| Spa.QuantityStepper.constructor | frontend/public/script.js:81 | the stepper starts at 1 |
| Spa.QuantityStepper.Increase | frontend/public/script.js:82-85 | + raises the quantity by 1 with no upper bound |
| Spa.QuantityStepper.Decrease | frontend/public/script.js:87-92 | - lowers the quantity by 1 only while above 1, so it never goes below 1 |
| Spa.Store.constructor | frontend/public/script.js:15 | startup reads the stored cart, empty when the key is absent, writes nothing, and draws the badge |
| Spa.Store.UpdateCartCount | frontend/public/script.js:213-222 | the badge becomes the label for the cart's count |
| Spa.Store.AddToCart | frontend/public/script.js:107-125 | the cart becomes the merge of the snapshot line, the stored copy equals it, the count grows by the quantity, and well-formedness is kept for quantities of at least 1 |
| Spa.Store.AddFromDetail | frontend/public/script.js:95-98 | adding the stepper's quantity keeps a well-formed cart well formed |
| Spa.Store.UpdateQuantity | frontend/public/script.js:184-196 | an absent id changes neither the cart nor storage; otherwise the cart becomes the step's result and is stored; well-formedness is kept |
| Spa.Store.RemoveFromCart | frontend/public/script.js:199-204 | the cart becomes the filtered cart, the stored copy equals it, well-formedness is kept |
| Spa.Store.Checkout | frontend/public/script.js:260-271 | an empty cart is refused with nothing changed; otherwise cart and stored copy become empty and the badge reads `Cart` |
| Spa.Store.CartTotal | frontend/public/script.js:207-210 | the total is the sum of price times quantity, 0 for the empty cart |
| Spa.Store.CartCount | frontend/public/script.js:213-214 | the count is the sum of quantities, 0 exactly for the empty cart when quantities are at least 1 |
| ReactCart.Cart.constructor | frontend/src/components/Cart.js:4-9 | after mounting, the state is the stored cart, empty when the key is absent, and nothing is written |
| ReactCart.Cart.UpdateQuantity | frontend/src/components/Cart.js:11-20 | below 1 nothing changes, storage included; otherwise state and stored copy both become the `map` result; well-formedness is kept |
| ReactCart.Cart.RemoveItem | frontend/src/components/Cart.js:22-26 | state and stored copy both become the filtered cart; identical cart for an absent id; well-formedness is kept |
| ReactCart.Cart.GetTotal | frontend/src/components/Cart.js:28-30 | the total is the sum of price times quantity, 0 for the empty cart |
| ReactProductDetail.AddToCart | frontend/src/components/ProductDetail.js:25-38 | the stored cart becomes the merge of a full product copy with quantity 1; at most one line more, other ids untouched, count up by exactly 1, well-formedness kept |

## Left out

- Network I/O: fetching the product list and product details, in both frontends, and the backend routes and database access.
- DOM and React rendering: `innerHTML` templates, `displayCart`, event wiring, modal show and hide, navigation, `alert`, and the React lifecycle beyond the initial load. The 60-character description excerpt is left out as well.
- The disabled Add to Cart button for out-of-stock products is a rendering detail. The model's adds accept any product.
- The React product page's loading and not-found states. Its Add to Cart is only reachable once a product is loaded, so the model takes the product as a parameter.
- JSON encoding and decoding. Storage holds the decoded line sequence. Line fields a JSON round trip would drop or reshape are not modelled, nor are the extra database fields that the React page's `{...product}` copy would carry.
- Prices are integer cents. The source's floating-point arithmetic and `toFixed(2)` rounding are not modelled.
- Spa.Store.CartTotal: gives the total in cents, not the formatted `Total: $…` text.
- ReactCart.Cart.GetTotal: gives the total in cents, not the `toFixed(2)` string.
- Spa.Store.UpdateQuantity: when a step takes the quantity below 1, the source first bumps the line object in place and then filters it out. The model filters directly, which gives the same cart because the filter discards the bumped line.
- `localStorage.setItem` is assumed never to throw. In the source a throw ends the handler after the in-memory change, leaving the two copies different and, in the single-page app, the badge not redrawn; every `Valid()` rules that state out.
- Text under the `cart` key that is not valid JSON: `JSON.parse` throws (frontend/public/script.js:15, frontend/src/components/Cart.js:7, frontend/src/components/ProductDetail.js:27). The model's storage holds only decoded sequences, so it models neither the throw nor a reset to empty.
- Spa.Store.CartTotal: the total shown on the page is not modelled. `updateTotal` runs only from `displayCart` (frontend/public/script.js:180), which returns early for an empty cart (frontend/public/script.js:131-133), so after checkout or removing the last line the page keeps showing the previous `Total: $…`.
- Several tabs writing the same storage key. The model has one writer per storage object.
