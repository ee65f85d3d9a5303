# Shopping cart line-item store

This project models the cart of a storefront page (`js/script.js`). The cart is an
insertion-ordered list of line items `{id, name, price, color, quantity}` keyed by the
pair `(id, color)`, plus the browser storage slot `shoppingCart` where the list is
written after each change. Four operations change the list:

- `addToCart` raises the quantity of the item with the pair, or appends a new item with quantity 1.
- `removeFromCart` filters the pair out.
- `updateQuantity` ignores an absent pair. It removes the item for a quantity of 0 or less,
  and otherwise overwrites the quantity.
- `checkout` empties a non-empty cart once the user confirms.

The cart panel's buttons feed these operations. The minus button sends the quantity minus
one, and the plus button sends the quantity plus one. The number field sends
`parseInt(text) || 1`. The header shows the item count, which is the sum of the quantities.

Files and modules:

- `optional.dfy` (`Optional`): an `Option` type.
- `line_items.dfy` (`LineItems`): the line-item record, the key match, `findIndex`, the
  `filter` used by `removeFromCart`, and the quantity `reduce`, with their lemmas.
- `quantity_input.dfy` (`QuantityInput`): JavaScript's `parseInt` with no radix
  (ECMA-262, 2023 edition, section 19.2.5), the `|| 1` fallback, and the decimal rendering of a
  quantity in the field's `value` attribute.
- `shopping_cart.dfy` (`ShoppingCart`): each operation and handler as a function of the
  list before it, together with the properties it keeps.
- `cart_manager.dfy` (`CartManager`): class `Cart`. It owns the list (`items`) and the
  storage slot (`stored`). Its methods update them in place as the script does. Every method
  that changes the list ties the new list to a function of the old one (`Added`, `Updated`,
  `Decreased`, `Increased` or `InputChanged` in `ShoppingCart`, `Removed` in `LineItems`, or
  the empty list on a purchase) and states what the slot then holds. `LoadCart` and `SaveCart`
  copy between the list and the slot.

The cart's invariant is `Wellformed`: no two items share a pair, and every quantity is at
least 1. The script never checks what it loads from storage, so the methods do not require
the invariant. Each method promises instead that it keeps the invariant if it held before.

Two behaviours of the code are easy to misread:

- `loadCart` does not guard against malformed stored data: `JSON.parse` would throw rather
  than yield an empty cart. The model takes the stored list as it is.
- A quantity of 0 removes the item only through `updateQuantity` and the minus button. The
  number field turns 0 into 1, so there only a negative number removes the item
  (`InputRemovesOnlyNegative`).

## Model

| member | source | states |
|---|---|---|
| LineItems.FindIndex | js/script.js:95-97 | the first index whose item has the pair, so no earlier item has it; -1 exactly when no item has the pair |
| LineItems.Removed | js/script.js:125 | the filtered list has no item with the pair, is no longer than the input, is strictly shorter when the pair was present, and equals the input when the pair was absent |
| LineItems.RemovedMembers | js/script.js:125 | an item is kept by the filter exactly when it was in the list and does not carry the pair |
| LineItems.RemovedAppend | js/script.js:125 | filtering distributes over concatenation, so the kept items keep their relative order |
| LineItems.RemovedUniqueAt | js/script.js:125 | in a cart without duplicate pairs, removing the pair of position i deletes exactly that position |
| LineItems.RemovedKeepsUnique | js/script.js:125 | filtering a cart without duplicate pairs leaves none |
| LineItems.RemovedKeepsWellformed | js/script.js:125 | filtering keeps both parts of the invariant: unique pairs and quantities of at least 1 |
| LineItems.TotalItems | js/script.js:163 | the sum of quantities is at least the number of items when every quantity is at least 1 |
| LineItems.TotalItemsAppend | js/script.js:163 | the count of a concatenation is the sum of the two counts |
| LineItems.TotalItemsSetQuantity | js/script.js:163 | overwriting one quantity changes the count by the difference |
| LineItems.TotalItemsRemoved | js/script.js:163 | with unique pairs, removing a present pair lowers the count by exactly that item's quantity |
| QuantityInput.TrimStart | js/script.js:235 | the result is a suffix of the text, it does not start with white space, and everything dropped is white space |
| QuantityInput.DigitPrefix | js/script.js:235 | the result is the longest prefix made of digits of the radix |
| QuantityInput.ParseInt | js/script.js:235 | a number is read only from text that is not all white space, and a negative number only from text whose first non-white-space character is `-`; its exact values are stated by `ParseIntOfDecimalDigits`, `ParseIntNegative`, `ParseIntSkipsWhiteSpace`, `ParseIntStopsAtNonDigit` and `InputQuantityNoDigits` |
| QuantityInput.InputQuantity | js/script.js:235 | `parseInt(text) \|\| 1` is never 0; it is negative exactly when the text parses to a negative number; it is 1 exactly when the text is not a number or parses to 0 or 1; any other value is the parsed one |
| QuantityInput.ToDecimal | js/script.js:197 | the rendering of a quantity is a non-empty run of decimal digits |
| QuantityInput.ValueOfToDecimal | js/script.js:197 | reading the decimal digits of n back gives n |
| QuantityInput.ParseIntToDecimal | js/script.js:235 | `parseInt` of the decimal rendering of n is n |
| QuantityInput.ParseIntOfDecimalDigits | js/script.js:235 | a non-empty run of decimal digits parses to its value |
| QuantityInput.InputQuantityToDecimal | js/script.js:235 | entering the quantity that the field shows gives back that quantity |
| QuantityInput.ParseIntSkipsWhiteSpace | js/script.js:235 | leading white space does not change what `parseInt` reads |
| QuantityInput.ParseIntNegative | js/script.js:235 | a minus sign before decimal digits negates their value |
| QuantityInput.ParseIntStopsAtNonDigit | js/script.js:235 | reading stops at the first non-digit, so a decimal point or an exponent cuts the number |
| QuantityInput.DigitPrefixStops | js/script.js:235 | the digit prefix of digits followed by a non-digit is those digits |
| QuantityInput.InputQuantityNoDigits | js/script.js:235 | text with no digits where the number should start is NaN and gives 1 |
| QuantityInput.InputQuantityOfEmpty | js/script.js:235 | empty text gives 1 |
| QuantityInput.InputQuantityOfZero | js/script.js:235 | "0" and "-0" give 1 (zero is falsy) |
| ShoppingCart.Added | js/script.js:93-111 | after `addToCart` the pair is present; the length is unchanged when the pair was present and one more otherwise |
| ShoppingCart.AddExisting | js/script.js:95-101 | on a present pair, that item's quantity rises by exactly 1; its name, price and colour, the length and every other item stay unchanged |
| ShoppingCart.AddNew | js/script.js:102-110 | on a new pair, exactly one item `{id, name, price, color, quantity: 1}` is appended and the prefix is unchanged |
| ShoppingCart.AddKeepsWellformed | js/script.js:95-110 | `addToCart` keeps the pairs unique and the quantities at least 1 |
| ShoppingCart.AddKeepsUnique | js/script.js:95-110 | `addToCart` keeps the pairs unique even in a cart whose quantities are not all at least 1 |
| ShoppingCart.AddRaisesTotal | js/script.js:99-110 | each `addToCart` raises the item count by exactly 1 |
| ShoppingCart.AddSamePairTwice | js/script.js:95-110 | adding a new pair twice appends one item with quantity 2, not two items |
| ShoppingCart.AddTwoColors | js/script.js:95-110 | one product added in two colours gives two distinct items |
| ShoppingCart.RemoveDropsPair | js/script.js:125 | after `removeFromCart` the pair is gone; removing an absent pair is a no-op; removing twice equals removing once |
| ShoppingCart.Updated | js/script.js:131-145 | `updateQuantity` on an absent pair leaves the cart unchanged; with a quantity of 0 or less it is `removeFromCart` |
| ShoppingCart.UpdatePositive | js/script.js:137-143 | with a positive quantity, only that item's quantity is overwritten |
| ShoppingCart.UpdateKeepsUnique | js/script.js:131-145 | `updateQuantity` keeps the pairs unique whatever the quantities |
| ShoppingCart.UpdateKeepsWellformed | js/script.js:131-145 | `updateQuantity` keeps the pairs unique and the quantities at least 1 |
| ShoppingCart.UpdateChangesTotal | js/script.js:140 | setting a positive quantity changes the item count by the difference |
| ShoppingCart.CheckedOut | js/script.js:256-275 | checkout leaves an empty cart exactly when the cart was empty or the user confirmed; otherwise the cart is unchanged |
| ShoppingCart.CheckoutCases | js/script.js:257-270 | checkout of an empty cart changes nothing, a confirmed one empties the cart, a declined one changes nothing, and the count becomes 0 or stays |
| ShoppingCart.Decreased | js/script.js:209-218 | the minus button on an absent pair changes nothing; it never lengthens the cart, and the length is unchanged while the pair stays (the removal case is `DecreaseFromOneRemoves`, the count `DecreaseLowersTotal`) |
| ShoppingCart.Increased | js/script.js:220-229 | the plus button on an absent pair changes nothing; on a present pair with a quantity of at least 0 the length is unchanged and the pair stays (the exact effect is `IncreaseIsAdd`) |
| ShoppingCart.InputChanged | js/script.js:231-238 | the number field on an absent pair changes nothing and never lengthens the cart (the exact effect is `InputRemovesOnlyNegative`) |
| ShoppingCart.DecreaseFromOneRemoves | js/script.js:209-218 | the minus button on quantity 1 removes the item |
| ShoppingCart.DecreaseLowersTotal | js/script.js:215 | in a well-formed cart the minus button on a present pair lowers the item count by exactly 1 |
| ShoppingCart.DecreaseRemovalTotal | js/script.js:215 | when the minus button removes an item, the count drops by 1 |
| ShoppingCart.DecreaseStepTotal | js/script.js:215 | above quantity 1 the minus button takes one unit off the count |
| ShoppingCart.IncreaseIsAdd | js/script.js:226 | in a well-formed cart the plus button does exactly what `addToCart` does for that pair |
| ShoppingCart.ButtonsKeepWellformed | js/script.js:209-229 | the plus and minus buttons keep the invariant |
| ShoppingCart.InputKeepsWellformed | js/script.js:231-238 | the number field keeps the invariant whatever text is entered |
| ShoppingCart.InputRemovesOnlyNegative | js/script.js:235-236 | non-numeric text sets the quantity to 1; the item disappears exactly when the text parses to a negative number |
| ShoppingCart.InputUnchangedKeepsCart | js/script.js:231-237 | entering the quantity that the field already shows leaves the cart unchanged |
| ShoppingCart.ShirtSession | js/script.js:93-145 | start empty, add a red shirt twice (quantity 1, then 2, count 2), set its quantity to 0, and the cart is empty |
| CartManager.Cart.constructor | js/script.js:17-21 | the cart starts as the stored list, or empty when the slot is empty, and is valid when the stored list is |
| CartManager.Cart.LoadCart | js/script.js:153-158 | the list becomes the stored list when there is one; the slot is unchanged |
| CartManager.Cart.SaveCart | js/script.js:148-150 | the slot then holds the current list; the list is unchanged |
| CartManager.Cart.AddToCart | js/script.js:93-115 | the list becomes `Added` of the old list, the slot holds it, the count rises by 1, and the invariant is kept, as is uniqueness of pairs on its own |
| CartManager.Cart.RemoveFromCart | js/script.js:124-128 | the list becomes the filtered old list, the slot holds it, and the invariant is kept, as is uniqueness of pairs on its own |
| CartManager.Cart.UpdateQuantity | js/script.js:131-145 | the list becomes `Updated` of the old list; the slot is written only when the pair was present; the invariant is kept, as is uniqueness of pairs on its own |
| CartManager.Cart.DecreaseClicked | js/script.js:209-218 | the list becomes `Decreased` of the old list; the slot is written only when the pair was present; the invariant and uniqueness of pairs are kept |
| CartManager.Cart.IncreaseClicked | js/script.js:220-229 | the list becomes `Increased` of the old list; the slot is written only when the pair was present; the invariant and uniqueness of pairs are kept |
| CartManager.Cart.QuantityInputChanged | js/script.js:231-238 | the list becomes `InputChanged` of the old list; the slot is written only when the pair was present; the invariant and uniqueness of pairs are kept |
| CartManager.Cart.CartSummary | js/script.js:161-173 | the displayed count is the sum of quantities and at least the number of items in a valid cart; the empty message shows exactly when the cart is empty |
| CartManager.Cart.Checkout | js/script.js:256-275 | an empty cart gives the warning and is unchanged; a confirmed one is emptied and saved; a declined one is unchanged; the slot changes only on purchase |

## Left out

- The DOM is not modelled: `toggleCart` and the panel opening in `addToCart` and `checkout`, `selectColor`, the HTML built by `renderCartItems`, and `showNotification` with its timers (js/script.js:49-68, 117-120, 180-206, 273, 278-314).
- `addToCartHandler` is not modelled (js/script.js:71-90). It reads `data-id`, `data-name` and `data-price` (through `parseFloat`) and picks the default colour by DOM queries. The model takes `(id, name, price, color)` as given.
- JSON is not modelled. The slot holds the list itself rather than its `JSON.stringify` text, and `JSON.parse` failures (which would throw) are not modelled. Neither is the `NaN` price that JSON would store as `null`.
- The price total (`updateCartTotal`) and the `toFixed(2)` display are floating-point arithmetic, so they are not modelled. `Price` is an integer that the model only copies.
- The `alert` and `confirm` dialogs are not modelled. The user's answer to `confirm` is the `confirmed` parameter of `Checkout`, and the alerts show up as the returned `CheckoutOutcome`.
- Line items are values. In the script, `cart[i].quantity` changes an object in place. No other reference to that object outlives a handler, so aliasing is not modelled.
- LineItems.TotalItems: quantities are unbounded integers. The script's numbers are doubles, so above 2^53 `quantity += 1` stops changing the value. That rounding is not modelled.
- QuantityInput.ToDecimal: the field shows the quantity through `${n}`, which gives the exact decimal digits only below 2^53 and switches to exponent form (`1e+21`) from 10^21, where `parseInt` would read 1. The model renders every quantity as plain digits, so `InputQuantityToDecimal` and `ShoppingCart.InputUnchangedKeepsCart` describe the script only below 2^53.
- QuantityInput.ParseInt: the result is an unbounded integer. JavaScript rounds long digit runs to a double and gives `Infinity` past the double range; neither is modelled. The `radix` argument is not modelled, because the script never passes one.
