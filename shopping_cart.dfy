/** What each cart operation of js/script.js does to the list of line items,
    as functions of the list before it, and the properties they keep. The
    class in module CartManager performs these changes in place. */
module ShoppingCart {

  import opened LineItems
  import QuantityInput

  /** `addToCart(id, name, price, color)` (js/script.js:93-111): bump the
      quantity of the first item with the pair, or append a new item with
      quantity 1. */
  function Added(items: seq<LineItem>, id: string, name: string, price: Price, color: string): (r: seq<LineItem>)
    ensures HasKey(r, id, color)
    ensures |r| == if HasKey(items, id, color) then |items| else |items| + 1
  {
    var i := FindIndex(items, id, color);
    if i != -1 then
      var r := items[i := items[i].(quantity := items[i].quantity + 1)];
      assert Matches(r[i], id, color);
      r
    else
      var r := items + [LineItem(id, name, price, color, 1)];
      assert Matches(r[|items|], id, color);
      r
  }

  /** `updateQuantity(id, color, newQuantity)` (js/script.js:131-145). */
  function Updated(items: seq<LineItem>, id: string, color: string, newQuantity: int): (r: seq<LineItem>)
    ensures !HasKey(items, id, color) ==> r == items
    ensures newQuantity <= 0 ==> r == Removed(items, id, color)
  {
    var i := FindIndex(items, id, color);
    if i == -1 then items
    else if newQuantity <= 0 then Removed(items, id, color)
    else items[i := items[i].(quantity := newQuantity)]
  }

  /** The cart after `checkout()` (js/script.js:256-275), given the user's
      answer to the confirmation dialog; the dialog is not shown for an
      empty cart. */
  function CheckedOut(items: seq<LineItem>, confirmed: bool): (r: seq<LineItem>)
    ensures r == [] <==> items == [] || confirmed
    ensures r != [] ==> r == items
  {
    if |items| == 0 then items
    else if confirmed then []
    else items
  }

  /** The decrease button (js/script.js:209-218): `updateQuantity` with the
      found item's quantity minus one. */
  function Decreased(items: seq<LineItem>, id: string, color: string): (r: seq<LineItem>)
    ensures !HasKey(items, id, color) ==> r == items
    ensures |r| <= |items|
    ensures HasKey(r, id, color) ==> |r| == |items|
  {
    var i := FindIndex(items, id, color);
    if i == -1 then items else Updated(items, id, color, items[i].quantity - 1)
  }

  /** The increase button (js/script.js:220-229): `updateQuantity` with the
      found item's quantity plus one. */
  function Increased(items: seq<LineItem>, id: string, color: string): (r: seq<LineItem>)
    ensures !HasKey(items, id, color) ==> r == items
    ensures HasKey(items, id, color) && items[FindIndex(items, id, color)].quantity >= 0
            ==> |r| == |items| && HasKey(r, id, color)
  {
    var i := FindIndex(items, id, color);
    if i == -1 then items
    else
      var r := Updated(items, id, color, items[i].quantity + 1);
      assert items[i].quantity >= 0 ==> Matches(r[i], id, color);
      r
  }

  /** The quantity field's change handler (js/script.js:231-238). */
  function InputChanged(items: seq<LineItem>, id: string, color: string, text: string): (r: seq<LineItem>)
    ensures !HasKey(items, id, color) ==> r == items
    ensures |r| <= |items|
  {
    Updated(items, id, color, QuantityInput.InputQuantity(text))
  }

  // ---- addToCart ----

  /** Adding to a present pair raises that item's quantity by one and changes
      nothing else: not the length, not its name, price or colour, not any
      other item. */
  lemma AddExisting(items: seq<LineItem>, id: string, name: string, price: Price, color: string)
    requires HasKey(items, id, color)
    ensures var i := FindIndex(items, id, color);
            var r := Added(items, id, name, price, color);
            && |r| == |items|
            && r[i].quantity == items[i].quantity + 1
            && r[i] == items[i].(quantity := r[i].quantity)
            && forall j :: 0 <= j < |items| && j != i ==> r[j] == items[j]
  {
  }

  /** Adding a new pair appends exactly one item with quantity 1 and keeps
      every earlier item in place. */
  lemma AddNew(items: seq<LineItem>, id: string, name: string, price: Price, color: string)
    requires !HasKey(items, id, color)
    ensures var r := Added(items, id, name, price, color);
            && r[..|items|] == items
            && r == items + [LineItem(id, name, price, color, 1)]
  {
  }

  /** `addToCart` keeps the pairs unique, whatever the quantities are. */
  lemma AddKeepsUnique(items: seq<LineItem>, id: string, name: string, price: Price, color: string)
    requires UniqueKeys(items)
    ensures UniqueKeys(Added(items, id, name, price, color))
  {
    var r := Added(items, id, name, price, color);
    if !HasKey(items, id, color) {
      forall i, j | 0 <= i < j < |r| ensures !Matches(r[j], r[i].id, r[i].color) {
        if j == |items| {
          assert !Matches(items[i], id, color);
        }
      }
    }
  }

  /** `addToCart` keeps the cart free of duplicate pairs and of quantities below 1. */
  lemma AddKeepsWellformed(items: seq<LineItem>, id: string, name: string, price: Price, color: string)
    requires Wellformed(items)
    ensures Wellformed(Added(items, id, name, price, color))
  {
    AddKeepsUnique(items, id, name, price, color);
  }

  /** Each `addToCart` raises the item count by exactly one. */
  lemma AddRaisesTotal(items: seq<LineItem>, id: string, name: string, price: Price, color: string)
    ensures TotalItems(Added(items, id, name, price, color)) == TotalItems(items) + 1
  {
    var i := FindIndex(items, id, color);
    if i != -1 {
      TotalItemsSetQuantity(items, i, items[i].quantity + 1);
    } else {
      var item := LineItem(id, name, price, color, 1);
      TotalItemsAppend(items, [item]);
      assert TotalItems([item]) == 1;
    }
  }

  /** Adding the same pair twice yields one line item with quantity 2, not two. */
  lemma AddSamePairTwice(items: seq<LineItem>, id: string, name: string, price: Price, color: string)
    requires !HasKey(items, id, color)
    ensures var r := Added(Added(items, id, name, price, color), id, name, price, color);
            r == items + [LineItem(id, name, price, color, 2)]
  {
    var once := Added(items, id, name, price, color);
    assert FindIndex(once, id, color) == |items|;
  }

  /** Adding one product in two colours yields two distinct line items. */
  lemma AddTwoColors(id: string, name: string, price: Price, color1: string, color2: string)
    requires color1 != color2
    ensures Added(Added([], id, name, price, color1), id, name, price, color2)
         == [LineItem(id, name, price, color1, 1), LineItem(id, name, price, color2, 1)]
  {
    var once := Added([], id, name, price, color1);
    assert once == [LineItem(id, name, price, color1, 1)];
    assert !HasKey(once, id, color2) by {
      assert !Matches(once[0], id, color2);
    }
  }

  // ---- removeFromCart ----

  /** After `removeFromCart` no item with the pair remains, and removing an
      absent pair changes nothing. */
  lemma RemoveDropsPair(items: seq<LineItem>, id: string, color: string)
    ensures !HasKey(Removed(items, id, color), id, color)
    ensures !HasKey(items, id, color) ==> Removed(items, id, color) == items
    ensures Removed(Removed(items, id, color), id, color) == Removed(items, id, color)
  {
  }

  // ---- updateQuantity ----

  /** With a positive quantity, `updateQuantity` overwrites that item's
      quantity and nothing else. */
  lemma UpdatePositive(items: seq<LineItem>, id: string, color: string, newQuantity: int)
    requires HasKey(items, id, color)
    requires newQuantity > 0
    ensures var i := FindIndex(items, id, color);
            var r := Updated(items, id, color, newQuantity);
            && |r| == |items|
            && r[i] == items[i].(quantity := newQuantity)
            && forall j :: 0 <= j < |items| && j != i ==> r[j] == items[j]
  {
  }

  /** `updateQuantity` keeps the pairs unique, whatever the quantities are. */
  lemma UpdateKeepsUnique(items: seq<LineItem>, id: string, color: string, newQuantity: int)
    requires UniqueKeys(items)
    ensures UniqueKeys(Updated(items, id, color, newQuantity))
  {
    if newQuantity <= 0 {
      RemovedKeepsUnique(items, id, color);
    }
  }

  /** `updateQuantity` keeps the cart free of duplicate pairs and of
      quantities below 1. */
  lemma UpdateKeepsWellformed(items: seq<LineItem>, id: string, color: string, newQuantity: int)
    requires Wellformed(items)
    ensures Wellformed(Updated(items, id, color, newQuantity))
  {
    if newQuantity <= 0 {
      RemovedKeepsWellformed(items, id, color);
    }
  }

  /** Setting a positive quantity changes the item count by the difference. */
  lemma UpdateChangesTotal(items: seq<LineItem>, id: string, color: string, newQuantity: int)
    requires HasKey(items, id, color)
    requires newQuantity > 0
    ensures var i := FindIndex(items, id, color);
            TotalItems(Updated(items, id, color, newQuantity)) == TotalItems(items) - items[i].quantity + newQuantity
  {
    TotalItemsSetQuantity(items, FindIndex(items, id, color), newQuantity);
  }

  // ---- the +, - and quantity-field handlers ----

  /** The decrease button on an item with quantity 1 removes it. */
  lemma DecreaseFromOneRemoves(items: seq<LineItem>, id: string, color: string)
    requires HasKey(items, id, color)
    requires items[FindIndex(items, id, color)].quantity == 1
    ensures Decreased(items, id, color) == Removed(items, id, color)
    ensures !HasKey(Decreased(items, id, color), id, color)
  {
  }

  /** In a well-formed cart the decrease button on a present pair lowers the
      item count by exactly one, whether it removes the item or not. */
  lemma DecreaseLowersTotal(items: seq<LineItem>, id: string, color: string)
    requires Wellformed(items)
    requires HasKey(items, id, color)
    ensures TotalItems(Decreased(items, id, color)) == TotalItems(items) - 1
  {
    var i := FindIndex(items, id, color);
    if items[i].quantity == 1 {
      DecreaseRemovalTotal(items, id, color);
    } else {
      DecreaseStepTotal(items, id, color);
    }
  }

  /** Removal by the decrease button takes away the last unit of the item. */
  lemma DecreaseRemovalTotal(items: seq<LineItem>, id: string, color: string)
    requires UniqueKeys(items)
    requires HasKey(items, id, color)
    requires items[FindIndex(items, id, color)].quantity == 1
    ensures TotalItems(Decreased(items, id, color)) == TotalItems(items) - 1
  {
    DecreaseFromOneRemoves(items, id, color);
    TotalItemsRemoved(items, id, color);
  }

  /** Above quantity 1 the decrease button takes one unit off the item. */
  lemma DecreaseStepTotal(items: seq<LineItem>, id: string, color: string)
    requires HasKey(items, id, color)
    requires items[FindIndex(items, id, color)].quantity > 1
    ensures TotalItems(Decreased(items, id, color)) == TotalItems(items) - 1
  {
    var q := items[FindIndex(items, id, color)].quantity;
    assert Decreased(items, id, color) == Updated(items, id, color, q - 1);
    UpdateChangesTotal(items, id, color, q - 1);
  }

  /** In a well-formed cart the increase button does exactly what adding the
      same pair again does. */
  lemma IncreaseIsAdd(items: seq<LineItem>, id: string, name: string, price: Price, color: string)
    requires Wellformed(items)
    requires HasKey(items, id, color)
    ensures Increased(items, id, color) == Added(items, id, name, price, color)
  {
  }

  /** The + and - buttons keep the cart free of duplicate pairs and of
      quantities below 1. */
  lemma ButtonsKeepWellformed(items: seq<LineItem>, id: string, color: string)
    requires Wellformed(items)
    ensures Wellformed(Decreased(items, id, color))
    ensures Wellformed(Increased(items, id, color))
  {
    var i := FindIndex(items, id, color);
    if i != -1 {
      UpdateKeepsWellformed(items, id, color, items[i].quantity - 1);
      UpdateKeepsWellformed(items, id, color, items[i].quantity + 1);
    }
  }

  /** The quantity field keeps the cart free of duplicate pairs and of
      quantities below 1, whatever text is entered. */
  lemma InputKeepsWellformed(items: seq<LineItem>, id: string, color: string, text: string)
    requires Wellformed(items)
    ensures Wellformed(InputChanged(items, id, color, text))
  {
    UpdateKeepsWellformed(items, id, color, QuantityInput.InputQuantity(text));
  }

  /** Text that is empty, zero or not a number sets the quantity to 1
      instead of removing the item; only a negative number removes it. */
  lemma InputRemovesOnlyNegative(items: seq<LineItem>, id: string, color: string, text: string)
    requires HasKey(items, id, color)
    ensures QuantityInput.ParseInt(text).None? ==> InputChanged(items, id, color, text) == Updated(items, id, color, 1)
    ensures !HasKey(InputChanged(items, id, color, text), id, color)
        <==> QuantityInput.ParseInt(text).Some? && QuantityInput.ParseInt(text).value < 0
  {
    var r := InputChanged(items, id, color, text);
    var q := QuantityInput.InputQuantity(text);
    if q > 0 {
      var i := FindIndex(items, id, color);
      assert Matches(r[i], id, color);
    }
  }

  /** Submitting the quantity the field already shows leaves the cart as it is. */
  lemma InputUnchangedKeepsCart(items: seq<LineItem>, id: string, color: string)
    requires Wellformed(items)
    requires HasKey(items, id, color)
    ensures var q := items[FindIndex(items, id, color)].quantity;
            InputChanged(items, id, color, QuantityInput.ToDecimal(q)) == items
  {
    var i := FindIndex(items, id, color);
    QuantityInput.InputQuantityToDecimal(items[i].quantity);
  }

  // ---- checkout ----

  /** Checkout of an empty cart changes nothing; a confirmed checkout
      empties the cart; a declined one changes nothing. */
  lemma CheckoutCases(items: seq<LineItem>, confirmed: bool)
    ensures items == [] ==> CheckedOut(items, confirmed) == items
    ensures items != [] && confirmed ==> CheckedOut(items, confirmed) == []
    ensures !confirmed ==> CheckedOut(items, confirmed) == items
    ensures TotalItems(CheckedOut(items, confirmed)) == if confirmed then 0 else TotalItems(items)
  {
  }

  // ---- a session ----

  /** Start empty, add a shirt in red twice, then set its quantity to 0:
      one line of quantity 1, then quantity 2, then an empty cart. */
  lemma ShirtSession()
    ensures var once := Added([], "1", "Shirt", 1999, "red");
            var twice := Added(once, "1", "Shirt", 1999, "red");
            && once == [LineItem("1", "Shirt", 1999, "red", 1)]
            && twice == [LineItem("1", "Shirt", 1999, "red", 2)]
            && TotalItems(twice) == 2
            && Updated(twice, "1", "red", 0) == []
  {
    AddSamePairTwice([], "1", "Shirt", 1999, "red");
    var twice := Added(Added([], "1", "Shirt", 1999, "red"), "1", "Shirt", 1999, "red");
    assert Removed(twice, "1", "red") == [];
  }
}
