/** The cart-list operations of the cart page (quantity update, removal,
    clearing) and the home page's add-to-cart toggle, as pure functions from
    the current entry list to the next one. */
module CartList {
  import opened CartTypes

  /** `entries.find(item => item.id === id)`: an entry for `id`, if any. */
  function FindEntry(items: seq<CartItem>, id: int): (r: Option<CartItem>)
    ensures r.Some? ==> r.value in items && r.value.id == id
    ensures r.None? <==> forall x :: x in items ==> x.id != id
  {
    if items == [] then None
    else if items[0].id == id then Some(items[0])
    else FindEntry(items[1..], id)
  }

  /** The entry found is the first one for the id: no earlier entry has it. */
  lemma {:induction false} FindEntryIsFirst(items: seq<CartItem>, id: int)
    requires FindEntry(items, id).Some?
    ensures exists k :: 0 <= k < |items| && items[k] == FindEntry(items, id).value &&
                        forall j :: 0 <= j < k ==> items[j].id != id
  {
    if items[0].id != id {
      var tail := items[1..];
      FindEntryIsFirst(tail, id);
      var k :| 0 <= k < |tail| && tail[k] == FindEntry(tail, id).value &&
               forall j :: 0 <= j < k ==> tail[j].id != id;
      assert items[k + 1] == tail[k];
      assert forall j :: 1 <= j <= k ==> items[j] == tail[j - 1];
    }
  }

  /** Whether some entry carries `id` (the truthiness of `find` on the home page). */
  predicate InCart(items: seq<CartItem>, id: int)
  {
    FindEntry(items, id).Some?
  }

  /** At most one entry per product id. */
  predicate UniqueIds(items: seq<CartItem>)
  {
    forall i, j :: 0 <= i < j < |items| ==> items[i].id != items[j].id
  }

  /** Every entry holds at least one unit. */
  predicate PositiveQuantities(items: seq<CartItem>)
  {
    forall x :: x in items ==> x.quantity >= 1
  }

  /** The navbar badge: the sum of the quantities of all entries, whether or
      not their product exists in the catalog. */
  function ItemCount(items: seq<CartItem>): int
  {
    if items == [] then 0 else items[0].quantity + ItemCount(items[1..])
  }

  /** The sum of the quantities of the entries for one id. */
  function QuantityOf(items: seq<CartItem>, id: int): int
  {
    if items == [] then 0
    else (if items[0].id == id then items[0].quantity else 0) + QuantityOf(items[1..], id)
  }

  /** The number of entries for one id. */
  function Occurrences(items: seq<CartItem>, id: int): nat
  {
    if items == [] then 0
    else (if items[0].id == id then 1 else 0) + Occurrences(items[1..], id)
  }

  /** `removeFromCart`: keep exactly the entries whose id differs. */
  function RemoveFromCart(items: seq<CartItem>, id: int): (r: seq<CartItem>)
    ensures forall x :: x in r <==> x in items && x.id != id
    ensures |r| == |items| - Occurrences(items, id)
  {
    if items == [] then []
    else if items[0].id == id then RemoveFromCart(items[1..], id)
    else [items[0]] + RemoveFromCart(items[1..], id)
  }

  /** The `map` of `updateQuantity`: every entry for `id` gets quantity `q`. */
  function SetQuantityOf(items: seq<CartItem>, id: int, q: int): (r: seq<CartItem>)
    ensures |r| == |items|
    ensures forall i :: 0 <= i < |r| ==>
              r[i] == (if items[i].id == id then CartItem(id, q) else items[i])
  {
    if items == [] then []
    else
      var rest := SetQuantityOf(items[1..], id, q);
      var head := if items[0].id == id then CartItem(id, q) else items[0];
      assert forall i :: 1 <= i < |items| ==> ([head] + rest)[i] == rest[i - 1];
      [head] + rest
  }

  /** `updateQuantity`: a quantity below one removes the product, otherwise
      every entry for it takes the new quantity in place. */
  function UpdateQuantity(items: seq<CartItem>, id: int, newQuantity: int): (r: seq<CartItem>)
    ensures newQuantity < 1 ==> r == RemoveFromCart(items, id)
    ensures newQuantity >= 1 ==>
              |r| == |items| &&
              forall i :: 0 <= i < |r| ==>
                r[i] == (if items[i].id == id then CartItem(id, newQuantity) else items[i])
  {
    if newQuantity < 1 then RemoveFromCart(items, id) else SetQuantityOf(items, id, newQuantity)
  }

  /** `clearCart`. */
  function ClearCart(): (r: seq<CartItem>)
    ensures |r| == 0 && ItemCount(r) == 0
  {
    []
  }

  /** `handleAddToCart` on the home page: a product already in the cart is
      removed whatever its quantity; otherwise it is appended with quantity 1. */
  function ToggleInCart(items: seq<CartItem>, id: int): (r: seq<CartItem>)
    ensures InCart(items, id) ==>
              r == RemoveFromCart(items, id) && !InCart(r, id) &&
              forall x :: x in r <==> x in items && x.id != id
    ensures !InCart(items, id) ==>
              InCart(r, id) && |r| == |items| + 1 &&
              r[..|items|] == items && r[|items|] == CartItem(id, 1)
  {
    if InCart(items, id) then RemoveFromCart(items, id) else items + [CartItem(id, 1)]
  }

  /** With every quantity at least one, the badge shows at least one unit per
      entry, and it shows zero exactly for the empty cart. */
  lemma {:induction false} ItemCountAtLeastEntries(items: seq<CartItem>)
    requires PositiveQuantities(items)
    ensures ItemCount(items) >= |items|
    ensures ItemCount(items) == 0 <==> items == []
  {
    if items != [] {
      assert items[0] in items;
      assert forall x :: x in items[1..] ==> x in items;
      ItemCountAtLeastEntries(items[1..]);
    }
  }

  // ---------------------------------------------------------------------
  // Removal

  /** Removal is a filter: it distributes over concatenation, so the kept
      entries stay in their original relative order. */
  lemma {:induction false} RemoveDistributes(a: seq<CartItem>, b: seq<CartItem>, id: int)
    ensures RemoveFromCart(a + b, id) == RemoveFromCart(a, id) + RemoveFromCart(b, id)
  {
    if a == [] {
      assert a + b == b;
    } else {
      assert (a + b)[0] == a[0];
      assert (a + b)[1..] == a[1..] + b;
      RemoveDistributes(a[1..], b, id);
      var tail := RemoveFromCart(a[1..], id) + RemoveFromCart(b, id);
      if a[0].id != id {
        assert [a[0]] + tail == ([a[0]] + RemoveFromCart(a[1..], id)) + RemoveFromCart(b, id);
      }
    }
  }

  /** Removing a product that is not in the cart changes nothing. */
  lemma {:induction false} RemoveAbsent(items: seq<CartItem>, id: int)
    requires !InCart(items, id)
    ensures RemoveFromCart(items, id) == items
  {
    if items != [] {
      assert items[0] in items;
      RemoveAbsent(items[1..], id);
    }
  }

  /** `removeFromCart` is idempotent. */
  lemma {:induction false} RemoveIdempotent(items: seq<CartItem>, id: int)
    ensures RemoveFromCart(RemoveFromCart(items, id), id) == RemoveFromCart(items, id)
  {
    RemoveAbsent(RemoveFromCart(items, id), id);
  }

  /** Removal takes away exactly the units held under that id. */
  lemma {:induction false} RemoveItemCount(items: seq<CartItem>, id: int)
    ensures ItemCount(items) == ItemCount(RemoveFromCart(items, id)) + QuantityOf(items, id)
  {
    if items != [] {
      RemoveItemCount(items[1..], id);
    }
  }

  /** Removal keeps at most one entry per id. */
  lemma {:induction false} RemovePreservesUnique(items: seq<CartItem>, id: int)
    requires UniqueIds(items)
    ensures UniqueIds(RemoveFromCart(items, id))
  {
    if items != [] {
      var t := items[1..];
      assert UniqueIds(t) by {
        forall i, j | 0 <= i < j < |t| ensures t[i].id != t[j].id {
          assert t[i] == items[i + 1] && t[j] == items[j + 1];
        }
      }
      RemovePreservesUnique(t, id);
      if items[0].id != id {
        var rest := RemoveFromCart(t, id);
        var r := [items[0]] + rest;
        forall j | 0 <= j < |rest| ensures rest[j].id != items[0].id {
          assert rest[j] in rest;
          var k :| 0 <= k < |t| && t[k] == rest[j];
          assert items[k + 1] == t[k];
        }
        forall i, j | 0 <= i < j < |r| ensures r[i].id != r[j].id {
          assert r[j] == rest[j - 1];
          if i > 0 {
            assert r[i] == rest[i - 1];
          }
        }
      }
    }
  }

  // ---------------------------------------------------------------------
  // Quantity update

  /** Updating a product that is not in the cart changes nothing, whatever
      the new quantity. */
  lemma UpdateAbsentIsNoop(items: seq<CartItem>, id: int, newQuantity: int)
    requires !InCart(items, id)
    ensures UpdateQuantity(items, id, newQuantity) == items
  {
    if newQuantity < 1 {
      RemoveAbsent(items, id);
    } else {
      forall i | 0 <= i < |items| ensures items[i].id != id {
        assert items[i] in items;
      }
    }
  }

  /** Setting the same quantity twice is the same as setting it once. */
  lemma UpdateIdempotent(items: seq<CartItem>, id: int, newQuantity: int)
    ensures UpdateQuantity(UpdateQuantity(items, id, newQuantity), id, newQuantity)
         == UpdateQuantity(items, id, newQuantity)
  {
    if newQuantity < 1 {
      RemoveIdempotent(items, id);
    }
  }

  /** After an update to `q >= 1` every entry for the id holds `q` units. */
  lemma UpdateItemCount(items: seq<CartItem>, id: int, q: int)
    requires q >= 1
    ensures ItemCount(UpdateQuantity(items, id, q))
         == ItemCount(RemoveFromCart(items, id)) + q * Occurrences(items, id)
  {
    SetQuantityItemCount(items, id, q);
    RemoveItemCount(items, id);
  }

  lemma {:induction false} SetQuantityItemCount(items: seq<CartItem>, id: int, q: int)
    ensures ItemCount(SetQuantityOf(items, id, q))
         == ItemCount(items) - QuantityOf(items, id) + q * Occurrences(items, id)
  {
    if items != [] {
      var rest := items[1..];
      var r := SetQuantityOf(items, id, q);
      var r' := SetQuantityOf(rest, id, q);
      assert r[1..] == r';
      SetQuantityItemCount(rest, id, q);
      var n := Occurrences(rest, id);
      if items[0].id == id {
        MultiplyOnePlus(q, n);
        assert Occurrences(items, id) == 1 + n;
      }
    }
  }

  lemma MultiplyOnePlus(q: int, n: int)
    ensures q * (1 + n) == q + q * n
  {
  }

  /** An update keeps the ids in place, hence at most one entry per id. */
  lemma UpdatePreservesUnique(items: seq<CartItem>, id: int, newQuantity: int)
    requires UniqueIds(items)
    ensures UniqueIds(UpdateQuantity(items, id, newQuantity))
  {
    if newQuantity < 1 {
      RemovePreservesUnique(items, id);
    }
  }

  // ---------------------------------------------------------------------
  // Toggle

  /** Toggling a product that is absent twice restores the cart. */
  lemma ToggleAbsentTwice(items: seq<CartItem>, id: int)
    requires !InCart(items, id)
    ensures ToggleInCart(ToggleInCart(items, id), id) == items
  {
    RemoveDistributes(items, [CartItem(id, 1)], id);
    RemoveAbsent(items, id);
  }

  /** Toggling a product that is present twice drops all its entries, then
      re-adds it at the end with quantity 1: the old quantity is lost. */
  lemma TogglePresentTwice(items: seq<CartItem>, id: int)
    requires InCart(items, id)
    ensures ToggleInCart(ToggleInCart(items, id), id)
         == RemoveFromCart(items, id) + [CartItem(id, 1)]
  {
  }

  /** The toggle keeps at most one entry per id. */
  lemma TogglePreservesUnique(items: seq<CartItem>, id: int)
    requires UniqueIds(items)
    ensures UniqueIds(ToggleInCart(items, id))
  {
    if InCart(items, id) {
      RemovePreservesUnique(items, id);
    } else {
      var r := items + [CartItem(id, 1)];
      forall i | 0 <= i < |items| ensures items[i].id != id {
        assert items[i] in items;
      }
      assert forall i :: 0 <= i < |items| ==> r[i] == items[i];
    }
  }

  /** On a cart whose quantities are all at least one, no cart operation
      stores an entry with fewer than one unit. */
  lemma OperationsKeepQuantitiesPositive(items: seq<CartItem>, id: int, newQuantity: int)
    requires PositiveQuantities(items)
    ensures PositiveQuantities(RemoveFromCart(items, id))
    ensures PositiveQuantities(UpdateQuantity(items, id, newQuantity))
    ensures PositiveQuantities(ToggleInCart(items, id))
    ensures PositiveQuantities(ClearCart())
  {
  }

  /** Counting is additive over concatenation. */
  lemma {:induction false} ItemCountDistributes(a: seq<CartItem>, b: seq<CartItem>)
    ensures ItemCount(a + b) == ItemCount(a) + ItemCount(b)
  {
    if a == [] {
      assert a + b == b;
    } else {
      assert (a + b)[1..] == a[1..] + b;
      ItemCountDistributes(a[1..], b);
    }
  }
}
