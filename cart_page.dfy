/** src/app/cart/page.tsx: drag-to-reorder, the quantity buttons and the remove,
    quantity and clear handlers, all dispatching to the mounted cart store. */
module CartPage {
  import opened Common
  import opened Records
  import opened Storage
  import opened CartHelpers
  import opened CartItems
  import opened CartSlice
  import opened Navbar

  function RemoveAt<T>(s: seq<T>, i: int): (r: seq<T>)
    requires 0 <= i < |s|
    ensures |r| == |s| - 1
  {
    s[..i] + s[i + 1..]
  }

  /** dnd-kit's `arrayMove(array, from, to)`: take the element out at `from` and
      splice it back in at `to`. */
  function ArrayMove<T>(s: seq<T>, from: int, to: int): (r: seq<T>)
    requires 0 <= from < |s| && 0 <= to < |s|
    ensures |r| == |s|
    ensures r[to] == s[from]
    ensures RemoveAt(r, to) == RemoveAt(s, from)
    ensures multiset(r) == multiset(s)
  {
    var rest := RemoveAt(s, from);
    var r := rest[..to] + [s[from]] + rest[to..];
    assert s == s[..from] + [s[from]] + s[from + 1..];
    assert rest == rest[..to] + rest[to..];
    assert RemoveAt(r, to) == rest by {
      assert r[..to] == rest[..to];
      assert r[to + 1..] == rest[to..];
    }
    assert multiset(s) == multiset(s[..from]) + multiset([s[from]]) + multiset(s[from + 1..]);
    assert multiset(rest) == multiset(s[..from]) + multiset(s[from + 1..]);
    assert multiset(r) == multiset(rest[..to]) + multiset([s[from]]) + multiset(rest[to..]);
    assert multiset(rest) == multiset(rest[..to]) + multiset(rest[to..]);
    assert multiset(r) == multiset(rest) + multiset([s[from]]);
    assert multiset(s) == multiset(rest) + multiset([s[from]]);
    r
  }

  /** Where each element of the moved sequence comes from. */
  function Source(from: int, to: int, k: int): int
  {
    if k == to then from
    else
      var j := if k < to then k else k - 1;
      if j < from then j else j + 1
  }

  lemma ArrayMoveAt<T>(s: seq<T>, from: int, to: int, k: int)
    requires 0 <= from < |s| && 0 <= to < |s| && 0 <= k < |s|
    ensures 0 <= Source(from, to, k) < |s|
    ensures ArrayMove(s, from, to)[k] == s[Source(from, to, k)]
  {
    var r := ArrayMove(s, from, to);
    var rest := RemoveAt(s, from);
    if k != to {
      var j := if k < to then k else k - 1;
      assert r[k] == RemoveAt(r, to)[j];
      assert rest[j] == s[if j < from then j else j + 1];
    }
  }

  /** Moving a line is a permutation, so unique ids stay unique. */
  lemma ArrayMoveKeepsUniqueIds(s: seq<Item>, from: int, to: int)
    requires 0 <= from < |s| && 0 <= to < |s|
    requires UniqueIds(s)
    ensures UniqueIds(ArrayMove(s, from, to))
  {
    var r := ArrayMove(s, from, to);
    forall i, j | 0 <= i < j < |r| ensures r[i].id != r[j].id {
      ArrayMoveAt(s, from, to, i);
      ArrayMoveAt(s, from, to, j);
      var a, b := Source(from, to, i), Source(from, to, j);
      assert a != b;
      if a < b { assert s[a].id != s[b].id; } else { assert s[b].id != s[a].id; }
    }
  }

  /** Taking one line out lowers the badge by that line's quantity. */
  lemma {:induction false} TotalItemsRemoveAt(s: seq<Item>, i: int)
    requires 0 <= i < |s|
    ensures TotalItems(s) == TotalItems(RemoveAt(s, i)) + s[i].quantity
  {
    var r := RemoveAt(s, i);
    if i == 0 {
      assert r == s[1..];
    } else {
      assert r[0] == s[0];
      assert r[1..] == RemoveAt(s[1..], i - 1);
      TotalItemsRemoveAt(s[1..], i - 1);
    }
  }

  /** Moving a line leaves the badge count as it was. */
  lemma ArrayMoveKeepsTotalItems(s: seq<Item>, from: int, to: int)
    requires 0 <= from < |s| && 0 <= to < |s|
    ensures TotalItems(ArrayMove(s, from, to)) == TotalItems(s)
  {
    TotalItemsRemoveAt(s, from);
    TotalItemsRemoveAt(ArrayMove(s, from, to), to);
  }

  /** The − button: asks for quantity − 1, and is disabled at quantity 1 or below. */
  function DecrementRequest(quantity: int): (r: Option<int>)
    ensures r.Some? <==> quantity > 1
    ensures r.Some? ==> r.value == quantity - 1 && r.value >= 1
  {
    if quantity <= 1 then None else Some(quantity - 1)
  }

  /** The + button: always enabled, asks for quantity + 1. */
  function IncrementRequest(quantity: int): (r: int)
    ensures r > quantity
    ensures quantity >= 1 ==> r >= 2
  {
    quantity + 1
  }

  predicate AllPositive(items: seq<Item>)
  {
    forall k :: 0 <= k < |items| ==> items[k].quantity >= 1
  }

  /** From quantities of at least 1, neither button ever leads to a quantity below 1,
      even though the reducer itself has no floor. */
  lemma ButtonsKeepQuantitiesPositive(items: seq<Item>, i: int, up: bool)
    requires AllPositive(items) && 0 <= i < |items|
    requires up || DecrementRequest(items[i].quantity).Some?
    ensures var q := if up then IncrementRequest(items[i].quantity)
                     else DecrementRequest(items[i].quantity).value;
            AllPositive(WithQuantity(items, items[i].id, q))
  {
  }

  class CartPage {
    /** The line whose remove button shows a spinner. */
    var removingItemId: Option<int>
    const store: CartStore

    constructor(store: CartStore)
      ensures this.store == store && removingItemId == None
    {
      this.store := store;
      removingItemId := None;
    }

    /** `handleDragEnd`. The sortable ids are those of the cart lines, so both lookups
        succeed; a drop outside a line or onto itself dispatches nothing. */
    method HandleDragEnd(activeId: int, overId: Option<int>)
      requires activeId in Ids(store.items)
      requires overId.Some? ==> overId.value in Ids(store.items)
      modifies store`items, store.browser`carts
      ensures overId.None? || overId.value == activeId ==>
                store.items == old(store.items) && store.browser.carts == old(store.browser.carts)
      ensures overId.Some? && overId.value != activeId ==>
                var oldIndex := IndexOf(old(store.items), activeId);
                var newIndex := IndexOf(old(store.items), overId.value);
                && 0 <= oldIndex < |old(store.items)| && 0 <= newIndex < |old(store.items)|
                && store.items == ArrayMove(old(store.items), oldIndex, newIndex)
                && store.items[newIndex].id == activeId
                && store.browser.carts == Saved(old(store.browser.carts), store.userId, store.items, store.browser.quotaFull)
    {
      if overId.Some? && activeId != overId.value {
        var oldIndex := IndexOf(store.items, activeId);
        var newIndex := IndexOf(store.items, overId.value);
        var reordered := ArrayMove(store.items, oldIndex, newIndex);
        store.ReorderItems(reordered);
      }
    }

    /** `handleRemoveItem`. Outside production the line is removed from the store; in
        production the request goes to the network and the store is not touched.
        Either way the spinner is cleared. */
    method HandleRemoveItem(id: int, production: bool)
      modifies this`removingItemId, store`items, store.browser`carts
      ensures removingItemId == None
      ensures production ==> store.items == old(store.items) && store.browser.carts == old(store.browser.carts)
      ensures !production ==> store.items == Removed(old(store.items), id)
      ensures !production ==>
                store.browser.carts == Saved(old(store.browser.carts), store.userId, store.items, store.browser.quotaFull)
    {
      removingItemId := Some(id);
      if !production {
        store.RemoveItem(id);
      }
      removingItemId := None;
    }

    /** `handleQuantityChange`: both environment branches dispatch the same update. */
    method HandleQuantityChange(id: int, newQuantity: int, production: bool)
      modifies store`items, store.browser`carts
      ensures store.items == WithQuantity(old(store.items), id, newQuantity)
      ensures store.browser.carts == if id in Ids(old(store.items))
                                     then Saved(old(store.browser.carts), store.userId, store.items, store.browser.quotaFull)
                                     else old(store.browser.carts)
    {
      if production {
        store.UpdateQuantity(id, newQuantity);
      } else {
        store.UpdateQuantity(id, newQuantity);
      }
    }

    /** `handleClearCart`: outside production the store is cleared; in production the
        request goes to the network instead. */
    method HandleClearCart(production: bool)
      modifies store`items, store.browser`carts
      ensures production ==> store.items == old(store.items) && store.browser.carts == old(store.browser.carts)
      ensures !production ==> store.items == [] && store.browser.carts == Cleared(old(store.browser.carts), store.userId)
    {
      if !production {
        store.ClearCart();
      }
    }
  }
}
