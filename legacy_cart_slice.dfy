/** src/features/cart/cartSlice.ts: the older cart reducer. Same rules for the
    lines, but one shared localStorage key `cart` for everybody and no user id. */
module LegacyCartSlice {
  import opened Records
  import opened Storage
  import opened CartHelpers
  import opened CartItems
  import opened CartSlice

  const LegacyKey := "cart"

  /** `loadInitialState()`: the list saved under `cart`, or none without a window,
      for a missing entry or for one that does not parse. */
  function LoadedLegacy(hasWindow: bool, carts: map<string, seq<Item>>): (r: seq<Item>)
    ensures !hasWindow || LegacyKey !in carts ==> r == []
    ensures hasWindow && LegacyKey in carts ==> r == carts[LegacyKey]
  {
    if hasWindow && LegacyKey in carts then carts[LegacyKey] else []
  }

  /** The entries after a guarded `localStorage.setItem('cart', ...)`. */
  function SavedLegacy(carts: map<string, seq<Item>>, items: seq<Item>, quotaFull: bool)
    : (m: map<string, seq<Item>>)
    ensures m == carts || m == carts[LegacyKey := items]
    ensures !quotaFull ==> LegacyKey in m && m[LegacyKey] == items
    ensures forall k :: k != LegacyKey ==> (k in m <==> k in carts)
    ensures forall k :: k in m && k != LegacyKey ==> m[k] == carts[k]
  {
    if quotaFull then carts else carts[LegacyKey := items]
  }

  /** Whatever one user saves, the next page load by anybody reads back: the key
      does not depend on who is logged in. */
  lemma SharedByEveryone(carts: map<string, seq<Item>>, items: seq<Item>)
    ensures LoadedLegacy(true, SavedLegacy(carts, items, false)) == items
  {
  }

  /** The shared key and the per-user keys never meet, so the two reducers cannot
      read or overwrite each other's saved carts. */
  lemma LegacyAndPerUserDisjoint(carts: map<string, seq<Item>>, items: seq<Item>, quotaFull: bool, u: string)
    ensures Loaded(SavedLegacy(carts, items, quotaFull), u) == Loaded(carts, u)
    ensures LoadedLegacy(true, Saved(carts, u, items, quotaFull)) == LoadedLegacy(true, carts)
  {
    CartKeyDistinctFromOtherKeys(u);
  }

  class LegacyCartStore {
    var items: seq<Item>
    const browser: Browser

    /** The shared saved cart mirrors the lines in memory. */
    ghost predicate Synced()
      reads this, browser
    {
      items == LoadedLegacy(true, browser.carts)
    }

    constructor(b: Browser, hasWindow: bool)
      ensures browser == b && items == LoadedLegacy(hasWindow, b.carts)
    {
      browser := b;
      items := LoadedLegacy(hasWindow, b.carts);
    }

    method Save()
      modifies browser`carts
      ensures browser.carts == SavedLegacy(old(browser.carts), items, browser.quotaFull)
      ensures !browser.quotaFull ==> Synced()
    {
      if !browser.quotaFull {
        browser.carts := browser.carts[LegacyKey := items];
      }
    }

    /** `addItem`. */
    method AddItem(p: Item)
      modifies this, browser`carts
      ensures items == Added(old(items), p)
      ensures browser.carts == SavedLegacy(old(browser.carts), items, browser.quotaFull)
      ensures !browser.quotaFull ==> Synced()
    {
      var i := IndexOf(items, p.id);
      if i >= 0 {
        items := items[i := items[i].(quantity := items[i].quantity + 1)];
      } else {
        items := items + [p.(quantity := 1)];
      }
      Save();
    }

    /** `removeItem`. */
    method RemoveItem(id: int)
      modifies this, browser`carts
      ensures items == Removed(old(items), id)
      ensures browser.carts == SavedLegacy(old(browser.carts), items, browser.quotaFull)
      ensures !browser.quotaFull ==> Synced()
    {
      items := Removed(items, id);
      Save();
    }

    /** `updateQuantity`: an absent id changes nothing and writes nothing. */
    method UpdateQuantity(id: int, quantity: int)
      modifies this, browser`carts
      ensures items == WithQuantity(old(items), id, quantity)
      ensures browser.carts == if id in Ids(old(items))
                               then SavedLegacy(old(browser.carts), items, browser.quotaFull)
                               else old(browser.carts)
      ensures old(Synced()) && !browser.quotaFull ==> Synced()
    {
      var i := IndexOf(items, id);
      if i >= 0 {
        items := items[i := items[i].(quantity := quantity)];
        Save();
      }
    }

    /** `reorderItems`. */
    method ReorderItems(payload: seq<Item>)
      modifies this, browser`carts
      ensures items == payload
      ensures browser.carts == SavedLegacy(old(browser.carts), items, browser.quotaFull)
      ensures !browser.quotaFull ==> Synced()
    {
      items := payload;
      Save();
    }

    /** `clearCart`: empties the lines and deletes `cart`. */
    method ClearCart()
      modifies this, browser`carts
      ensures items == []
      ensures browser.carts == old(browser.carts) - {LegacyKey}
      ensures Synced()
    {
      items := [];
      browser.carts := browser.carts - {LegacyKey};
    }
  }
}
