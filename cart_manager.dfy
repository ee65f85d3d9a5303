/** The cart of js/script.js as an object: the global `cart` list and the
    storage slot `shoppingCart` become fields, and each operation updates
    them in place as the script does. */
module CartManager {

  import opened Optional
  import opened LineItems
  import opened ShoppingCart
  import QuantityInput

  /** How `checkout()` ends: the empty-cart alert, a declined confirmation,
      or a completed purchase. */
  datatype CheckoutOutcome = EmptyCartWarning | Declined | Purchased

  class Cart {
    /** The line items, in insertion order. */
    var items: seq<LineItem>
    /** The storage slot `shoppingCart`: None when it holds nothing, else
        the list last written by `saveCart`. */
    var stored: Option<seq<LineItem>>

    /** The cart's invariant: no duplicate pair, every quantity at least 1.
        The storage slot is read without checks, so it holds only when the
        stored list satisfies it. */
    ghost predicate Valid()
      reads this
    {
      Wellformed(items)
    }

    /** `init()` (js/script.js:2, 17-21): start empty, then `loadCart`. */
    constructor (slot: Option<seq<LineItem>>)
      ensures stored == slot
      ensures items == if slot.Some? then slot.value else []
      ensures slot.None? || Wellformed(slot.value) ==> Valid()
    {
      items := [];
      stored := slot;
      new;
      LoadCart();
    }

    /** `loadCart()` (js/script.js:153-158): take the stored list when there is one. */
    method LoadCart()
      modifies this
      ensures stored == old(stored)
      ensures items == if stored.Some? then stored.value else old(items)
    {
      if stored.Some? {
        items := stored.value;
      }
    }

    /** `saveCart()` (js/script.js:148-150): overwrite the slot with the list. */
    method SaveCart()
      modifies this
      ensures items == old(items)
      ensures stored == Some(items)
    {
      stored := Some(items);
    }

    /** `addToCart(id, name, price, color)` (js/script.js:93-115). */
    method AddToCart(id: string, name: string, price: Price, color: string)
      modifies this
      ensures items == Added(old(items), id, name, price, color)
      ensures stored == Some(items)
      ensures TotalItems(items) == old(TotalItems(items)) + 1
      ensures old(Valid()) ==> Valid()
      ensures old(UniqueKeys(items)) ==> UniqueKeys(items)
    {
      ghost var before := items;
      var i := FindIndex(items, id, color);
      if i != -1 {
        items := items[i := items[i].(quantity := items[i].quantity + 1)];
      } else {
        items := items + [LineItem(id, name, price, color, 1)];
      }
      SaveCart();
      AddRaisesTotal(before, id, name, price, color);
      if UniqueKeys(before) {
        AddKeepsUnique(before, id, name, price, color);
      }
      if Wellformed(before) {
        AddKeepsWellformed(before, id, name, price, color);
      }
    }

    /** `removeFromCart(id, color)` (js/script.js:124-128). */
    method RemoveFromCart(id: string, color: string)
      modifies this
      ensures items == Removed(old(items), id, color)
      ensures stored == Some(items)
      ensures old(Valid()) ==> Valid()
      ensures old(UniqueKeys(items)) ==> UniqueKeys(items)
    {
      if UniqueKeys(items) {
        RemovedKeepsUnique(items, id, color);
      }
      if Wellformed(items) {
        RemovedKeepsWellformed(items, id, color);
      }
      items := Removed(items, id, color);
      SaveCart();
    }

    /** `updateQuantity(id, color, newQuantity)` (js/script.js:131-145): an
        absent pair changes nothing, not even the slot. */
    method UpdateQuantity(id: string, color: string, newQuantity: int)
      modifies this
      ensures items == Updated(old(items), id, color, newQuantity)
      ensures stored == if HasKey(old(items), id, color) then Some(items) else old(stored)
      ensures old(Valid()) ==> Valid()
      ensures old(UniqueKeys(items)) ==> UniqueKeys(items)
    {
      if UniqueKeys(items) {
        UpdateKeepsUnique(items, id, color, newQuantity);
      }
      if Wellformed(items) {
        UpdateKeepsWellformed(items, id, color, newQuantity);
      }
      var i := FindIndex(items, id, color);
      if i != -1 {
        if newQuantity <= 0 {
          RemoveFromCart(id, color);
        } else {
          items := items[i := items[i].(quantity := newQuantity)];
          SaveCart();
        }
      }
    }

    /** The decrease button's click handler (js/script.js:209-218). */
    method DecreaseClicked(id: string, color: string)
      modifies this
      ensures items == Decreased(old(items), id, color)
      ensures stored == if HasKey(old(items), id, color) then Some(items) else old(stored)
      ensures old(Valid()) ==> Valid()
      ensures old(UniqueKeys(items)) ==> UniqueKeys(items)
    {
      var i := FindIndex(items, id, color);
      if i != -1 {
        UpdateQuantity(id, color, items[i].quantity - 1);
      }
    }

    /** The increase button's click handler (js/script.js:220-229). */
    method IncreaseClicked(id: string, color: string)
      modifies this
      ensures items == Increased(old(items), id, color)
      ensures stored == if HasKey(old(items), id, color) then Some(items) else old(stored)
      ensures old(Valid()) ==> Valid()
      ensures old(UniqueKeys(items)) ==> UniqueKeys(items)
    {
      var i := FindIndex(items, id, color);
      if i != -1 {
        UpdateQuantity(id, color, items[i].quantity + 1);
      }
    }

    /** The quantity field's change handler (js/script.js:231-238). */
    method QuantityInputChanged(id: string, color: string, text: string)
      modifies this
      ensures items == InputChanged(old(items), id, color, text)
      ensures stored == if HasKey(old(items), id, color) then Some(items) else old(stored)
      ensures old(Valid()) ==> Valid()
      ensures old(UniqueKeys(items)) ==> UniqueKeys(items)
    {
      var newQuantity := QuantityInput.InputQuantity(text);
      UpdateQuantity(id, color, newQuantity);
    }

    /** The values `updateCartUI()` displays (js/script.js:161-173): the
        item count, and whether the empty-cart message replaces the list. */
    method CartSummary() returns (itemCount: int, showEmptyMessage: bool)
      ensures itemCount == TotalItems(items)
      ensures showEmptyMessage <==> |items| == 0
      ensures Valid() ==> itemCount >= |items|
    {
      itemCount := TotalItems(items);
      showEmptyMessage := |items| == 0;
    }

    /** `checkout()` (js/script.js:256-275), with `confirmed` the user's
        answer to the confirmation dialog. */
    method Checkout(confirmed: bool) returns (outcome: CheckoutOutcome)
      modifies this
      ensures outcome == if |old(items)| == 0 then EmptyCartWarning
                         else if confirmed then Purchased else Declined
      ensures items == CheckedOut(old(items), confirmed)
      ensures stored == if outcome == Purchased then Some([]) else old(stored)
      ensures old(Valid()) ==> Valid()
    {
      if |items| == 0 {
        outcome := EmptyCartWarning;
        return;
      }
      if confirmed {
        items := [];
        SaveCart();
        outcome := Purchased;
      } else {
        outcome := Declined;
      }
    }
  }
}
