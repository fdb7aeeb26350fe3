/** src/store/slices/cartSlice.ts: the cart reducer the running store mounts.
    Its state is the ordered cart lines and the user id the cart belongs to;
    every change is mirrored to localStorage under `cart_<userId>`. */
module CartSlice {
  import opened Records
  import opened Storage
  import opened CartHelpers
  import opened CartItems

  /** The lines `loadInitialState(userId)` yields: the list saved under the user's
      key, or none for the empty user id, a missing entry or one that does not parse. */
  function Loaded(carts: map<string, seq<Item>>, userId: string): (r: seq<Item>)
    ensures userId == "" || CartKey(userId) !in carts ==> r == []
    ensures userId != "" && CartKey(userId) in carts ==> r == carts[CartKey(userId)]
  {
    if userId != "" && CartKey(userId) in carts then carts[CartKey(userId)] else []
  }

  /** The cart entries after `clearCart`: the user's key is removed, but only for a
      non-empty user id. */
  function Cleared(carts: map<string, seq<Item>>, userId: string): (m: map<string, seq<Item>>)
    ensures userId == "" ==> m == carts
    ensures userId != "" ==> CartKey(userId) !in m
    ensures forall k :: k != CartKey(userId) ==> (k in m <==> k in carts)
    ensures forall k :: k in m ==> m[k] == carts[k]
  {
    if userId != "" then carts - {CartKey(userId)} else carts
  }

  /** What `saveCart` writes, `loadInitialState` reads back. */
  lemma LoadAfterSave(carts: map<string, seq<Item>>, u: string, items: seq<Item>)
    requires u != ""
    ensures Loaded(Saved(carts, u, items, false), u) == items
  {
  }

  /** Saving one user's cart never changes what another user loads. */
  lemma LoadOtherAfterSave(carts: map<string, seq<Item>>, u: string, v: string, items: seq<Item>, quotaFull: bool)
    requires v != u
    ensures Loaded(Saved(carts, u, items, quotaFull), v) == Loaded(carts, v)
  {
    CartKeyInjective(u, v);
  }

  /** After `clearCart`, a fresh load for the same user finds an empty cart: the
      key was deleted, not merely emptied. */
  lemma LoadAfterClear(carts: map<string, seq<Item>>, u: string)
    ensures Loaded(Cleared(carts, u), u) == []
  {
  }

  /** Clearing one user's cart never changes what another user loads. */
  lemma LoadOtherAfterClear(carts: map<string, seq<Item>>, u: string, v: string)
    requires v != u
    ensures Loaded(Cleared(carts, u), v) == Loaded(carts, v)
  {
    CartKeyInjective(u, v);
  }

  class CartStore {
    var items: seq<Item>
    var userId: string
    const browser: Browser

    /** The saved cart of a known user mirrors the lines in memory. */
    ghost predicate Synced()
      reads this, browser
    {
      userId != "" ==> items == Loaded(browser.carts, userId)
    }

    /** The store's initial state, `loadInitialState("")`: no lines, no user. */
    constructor(b: Browser)
      ensures items == [] && userId == "" && browser == b
      ensures Synced()
    {
      items := [];
      userId := "";
      browser := b;
    }

    lemma SavedIsSynced(before: map<string, seq<Item>>)
      requires browser.carts == Saved(before, userId, items, false)
      ensures Synced()
    {
      if userId != "" {
        LoadAfterSave(before, userId, items);
      }
    }

    /** `addItem`. */
    method AddItem(p: Item)
      modifies this`items, browser`carts
      ensures items == Added(old(items), p)
      ensures browser.carts == Saved(old(browser.carts), userId, items, browser.quotaFull)
      ensures !browser.quotaFull ==> Synced()
    {
      var i := IndexOf(items, p.id);
      if i >= 0 {
        items := items[i := items[i].(quantity := items[i].quantity + 1)];
      } else {
        items := items + [p.(quantity := 1)];
      }
      SaveCart(browser, userId, items);
      if !browser.quotaFull { SavedIsSynced(old(browser.carts)); }
    }

    /** `removeItem`. */
    method RemoveItem(id: int)
      modifies this`items, browser`carts
      ensures items == Removed(old(items), id)
      ensures browser.carts == Saved(old(browser.carts), userId, items, browser.quotaFull)
      ensures !browser.quotaFull ==> Synced()
    {
      items := Removed(items, id);
      SaveCart(browser, userId, items);
      if !browser.quotaFull { SavedIsSynced(old(browser.carts)); }
    }

    /** `updateQuantity`: an id that is not in the cart changes nothing and writes nothing. */
    method UpdateQuantity(id: int, quantity: int)
      modifies this`items, browser`carts
      ensures items == WithQuantity(old(items), id, quantity)
      ensures browser.carts == if id in Ids(old(items))
                               then Saved(old(browser.carts), userId, items, browser.quotaFull)
                               else old(browser.carts)
      ensures old(Synced()) && !browser.quotaFull ==> Synced()
    {
      var i := IndexOf(items, id);
      if i >= 0 {
        items := items[i := items[i].(quantity := quantity)];
        SaveCart(browser, userId, items);
        if !browser.quotaFull { SavedIsSynced(old(browser.carts)); }
      }
    }

    /** `reorderItems`: the payload replaces the lines as given. */
    method ReorderItems(payload: seq<Item>)
      modifies this`items, browser`carts
      ensures items == payload
      ensures browser.carts == Saved(old(browser.carts), userId, items, browser.quotaFull)
      ensures !browser.quotaFull ==> Synced()
    {
      items := payload;
      SaveCart(browser, userId, items);
      if !browser.quotaFull { SavedIsSynced(old(browser.carts)); }
    }

    /** `clearCart`: empties the lines and deletes the user's saved cart. */
    method ClearCart()
      modifies this`items, browser`carts
      ensures items == []
      ensures browser.carts == Cleared(old(browser.carts), userId)
      ensures Synced()
    {
      items := [];
      if userId != "" {
        browser.carts := browser.carts - {CartKey(userId)};
      }
    }

    /** `setUserId`: switches the owner and replaces the lines by what that user
        has saved; nothing is merged and nothing is written. */
    method SetUserId(u: string)
      modifies this`items, this`userId
      ensures userId == u
      ensures items == Loaded(browser.carts, u)
      ensures Synced()
    {
      userId := u;
      items := Loaded(browser.carts, u);
    }
  }

  /** Switching to any other user and back restores the lines the first user had. */
  method SwitchAwayAndBack(store: CartStore, other: string)
    requires store.Synced() && store.userId != ""
    modifies store`items, store`userId
    ensures store.userId == old(store.userId) && store.items == old(store.items)
    ensures store.Synced()
  {
    var me := store.userId;
    store.SetUserId(other);
    store.SetUserId(me);
  }
}
