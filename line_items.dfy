/** The cart's line items and the queries the cart operations build on:
    the `(id, color)` key match, `findIndex` over it, the `filter` that drops
    a key, and the `reduce` that sums quantities (js/script.js). */
module LineItems {

  /** A product price as carried by a line item. The list operations copy it
      and never compute with it. */
  type Price = int

  /** One product and colour combination with its quantity. */
  datatype LineItem = LineItem(id: string, name: string, price: Price, color: string, quantity: int)

  /** The predicate given to `findIndex`, `find` and (negated) `filter`. */
  predicate Matches(item: LineItem, id: string, color: string)
  {
    item.id == id && item.color == color
  }

  predicate HasKey(items: seq<LineItem>, id: string, color: string)
  {
    exists j :: 0 <= j < |items| && Matches(items[j], id, color)
  }

  /** No two line items share the pair `(id, color)`. */
  predicate UniqueKeys(items: seq<LineItem>)
  {
    forall i, j :: 0 <= i < j < |items| ==> !Matches(items[j], items[i].id, items[i].color)
  }

  /** Every quantity present in the cart is at least 1. */
  predicate PositiveQuantities(items: seq<LineItem>)
  {
    forall i :: 0 <= i < |items| ==> items[i].quantity >= 1
  }

  /** The cart's invariant. */
  predicate Wellformed(items: seq<LineItem>)
  {
    UniqueKeys(items) && PositiveQuantities(items)
  }

  /** `cart.findIndex(item => item.id === id && item.color === color)`:
      the first matching position, or -1. */
  function FindIndex(items: seq<LineItem>, id: string, color: string): (r: int)
    ensures -1 <= r < |items|
    ensures r == -1 <==> !HasKey(items, id, color)
    ensures r != -1 ==> Matches(items[r], id, color)
    ensures r != -1 ==> forall j :: 0 <= j < r ==> !Matches(items[j], id, color)
    decreases |items|
  {
    if |items| == 0 then -1
    else if Matches(items[0], id, color) then 0
    else
      var k := FindIndex(items[1..], id, color);
      if k == -1 then
        assert forall j :: 0 < j < |items| ==> items[j] == items[1..][j - 1];
        -1
      else
        assert items[k + 1] == items[1..][k];
        k + 1
  }

  /** `cart.filter(item => !(item.id === id && item.color === color))`. */
  function Removed(items: seq<LineItem>, id: string, color: string): (r: seq<LineItem>)
    ensures |r| <= |items|
    ensures !HasKey(r, id, color)
    ensures HasKey(items, id, color) ==> |r| < |items|
    ensures !HasKey(items, id, color) ==> r == items
    decreases |items|
  {
    if |items| == 0 then []
    else
      var rest := Removed(items[1..], id, color);
      assert !HasKey(items[1..], id, color) ==> !Matches(items[0], id, color) ==> !HasKey(items, id, color) by {
        assert forall j :: 0 < j < |items| ==> items[j] == items[1..][j - 1];
      }
      assert HasKey(items, id, color) ==> Matches(items[0], id, color) || HasKey(items[1..], id, color) by {
        assert forall j :: 0 < j < |items| ==> items[j] == items[1..][j - 1];
      }
      if Matches(items[0], id, color) then rest else [items[0]] + rest
  }

  /** Filtering keeps exactly the items that do not carry the key: every
      kept item comes from the list, and every other item is kept. */
  lemma {:induction false} RemovedMembers(items: seq<LineItem>, id: string, color: string)
    ensures forall x :: x in Removed(items, id, color) <==> x in items && !Matches(x, id, color)
    decreases |items|
  {
    if |items| > 0 {
      RemovedMembers(items[1..], id, color);
      assert items == [items[0]] + items[1..];
    }
  }

  /** `cart.reduce((total, item) => total + item.quantity, 0)`. */
  function TotalItems(items: seq<LineItem>): (n: int)
    ensures PositiveQuantities(items) ==> n >= |items|
    decreases |items|
  {
    if |items| == 0 then 0
    else
      assert PositiveQuantities(items) ==> PositiveQuantities(items[1..]) by {
        assert forall j :: 0 <= j < |items| - 1 ==> items[1..][j] == items[j + 1];
      }
      items[0].quantity + TotalItems(items[1..])
  }

  /** The item count of a concatenation is the sum of the item counts. */
  lemma {:induction false} TotalItemsAppend(a: seq<LineItem>, b: seq<LineItem>)
    ensures TotalItems(a + b) == TotalItems(a) + TotalItems(b)
    decreases |a|
  {
    if |a| == 0 {
      assert a + b == b;
    } else {
      assert (a + b)[1..] == a[1..] + b;
      TotalItemsAppend(a[1..], b);
    }
  }

  /** Overwriting one item's quantity changes the item count by the difference. */
  lemma {:induction false} TotalItemsSetQuantity(items: seq<LineItem>, i: nat, q: int)
    requires i < |items|
    ensures TotalItems(items[i := items[i].(quantity := q)]) == TotalItems(items) - items[i].quantity + q
    decreases i
  {
    var updated := items[i := items[i].(quantity := q)];
    if i == 0 {
      assert updated[1..] == items[1..];
    } else {
      assert updated[1..] == items[1..][i - 1 := items[i].(quantity := q)];
      TotalItemsSetQuantity(items[1..], i - 1, q);
    }
  }

  /** Filtering distributes over concatenation, so it keeps the relative
      order of the items it keeps. */
  lemma {:induction false} RemovedAppend(a: seq<LineItem>, b: seq<LineItem>, id: string, color: string)
    ensures Removed(a + b, id, color) == Removed(a, id, color) + Removed(b, id, color)
    decreases |a|
  {
    if |a| == 0 {
      assert a + b == b;
    } else {
      assert (a + b)[1..] == a[1..] + b;
      RemovedAppend(a[1..], b, id, color);
    }
  }

  /** In a cart without duplicate keys, removing the key of position `i`
      deletes exactly that position and keeps the rest in order. */
  lemma RemovedUniqueAt(items: seq<LineItem>, i: nat)
    requires UniqueKeys(items)
    requires i < |items|
    ensures Removed(items, items[i].id, items[i].color) == items[..i] + items[i + 1..]
  {
    var id, color := items[i].id, items[i].color;
    var before, after := items[..i], items[i + 1..];
    RemovedAround(items, i, id, color);
    UniqueOthersKept(items, i);
    calc {
      Removed(items, id, color);
      Removed(before, id, color) + (Removed([items[i]], id, color) + Removed(after, id, color));
      before + ([] + after);
      { assert [] + after == after; }
      before + after;
    }
  }

  /** Filtering a list splits into filtering its prefix before `i`, the item
      at `i` and the suffix after it. */
  lemma RemovedAround(items: seq<LineItem>, i: nat, id: string, color: string)
    requires i < |items|
    ensures Removed(items, id, color)
         == Removed(items[..i], id, color) + (Removed([items[i]], id, color) + Removed(items[i + 1..], id, color))
  {
    assert items == items[..i] + ([items[i]] + items[i + 1..]);
    RemovedAppend(items[..i], [items[i]] + items[i + 1..], id, color);
    RemovedAppend([items[i]], items[i + 1..], id, color);
  }

  /** In a cart without duplicate keys, the items before and after position
      `i` do not carry its key. */
  lemma UniqueOthersKept(items: seq<LineItem>, i: nat)
    requires UniqueKeys(items)
    requires i < |items|
    ensures Removed(items[..i], items[i].id, items[i].color) == items[..i]
    ensures Removed([items[i]], items[i].id, items[i].color) == []
    ensures Removed(items[i + 1..], items[i].id, items[i].color) == items[i + 1..]
  {
    var id, color := items[i].id, items[i].color;
    var before, after := items[..i], items[i + 1..];
    forall j | 0 <= j < |before| ensures !Matches(before[j], id, color) {
      assert before[j] == items[j];
      assert !Matches(items[i], items[j].id, items[j].color);
    }
    assert !HasKey(before, id, color);
    forall j | 0 <= j < |after| ensures !Matches(after[j], id, color) {
      assert after[j] == items[i + 1 + j];
    }
    assert !HasKey(after, id, color);
  }

  /** Filtering a cart without duplicate keys leaves none. */
  lemma {:induction false} RemovedKeepsUnique(items: seq<LineItem>, id: string, color: string)
    requires UniqueKeys(items)
    ensures UniqueKeys(Removed(items, id, color))
    decreases |items|
  {
    if |items| > 0 {
      var tail := items[1..];
      assert UniqueKeys(tail) by {
        forall i, j | 0 <= i < j < |tail| ensures !Matches(tail[j], tail[i].id, tail[i].color) {
          assert tail[i] == items[i + 1] && tail[j] == items[j + 1];
        }
      }
      RemovedKeepsUnique(tail, id, color);
      var rest := Removed(tail, id, color);
      if !Matches(items[0], id, color) {
        var r := [items[0]] + rest;
        RemovedMembers(tail, id, color);
        forall j | 0 < j < |r| ensures !Matches(r[j], r[0].id, r[0].color) {
          assert r[j] == rest[j - 1] && rest[j - 1] in rest;
          var k :| 0 <= k < |tail| && tail[k] == rest[j - 1];
          assert tail[k] == items[k + 1];
        }
      }
    }
  }

  /** Filtering keeps the cart's invariant. */
  lemma RemovedKeepsWellformed(items: seq<LineItem>, id: string, color: string)
    requires Wellformed(items)
    ensures Wellformed(Removed(items, id, color))
  {
    RemovedKeepsUnique(items, id, color);
    var r := Removed(items, id, color);
    RemovedMembers(items, id, color);
    forall j | 0 <= j < |r| ensures r[j].quantity >= 1 {
      assert r[j] in r;
      var k :| 0 <= k < |items| && items[k] == r[j];
    }
  }

  /** In a cart without duplicate keys, removing a present key lowers the
      item count by exactly that item's quantity. */
  lemma TotalItemsRemoved(items: seq<LineItem>, id: string, color: string)
    requires UniqueKeys(items)
    requires HasKey(items, id, color)
    ensures var i := FindIndex(items, id, color);
            TotalItems(Removed(items, id, color)) == TotalItems(items) - items[i].quantity
  {
    var i := FindIndex(items, id, color);
    RemovedUniqueAt(items, i);
    assert items == items[..i] + [items[i]] + items[i + 1..];
    TotalItemsAppend(items[..i] + [items[i]], items[i + 1..]);
    TotalItemsAppend(items[..i], [items[i]]);
    TotalItemsAppend(items[..i], items[i + 1..]);
  }
}
