/** src/components/layout/Navbar.tsx: the cart badge, the avatar initials and the
    logout sequence. */
module Navbar {
  import opened Common
  import opened Records
  import opened Storage
  import opened Text
  import opened CartHelpers
  import opened CartItems
  import opened CartSlice
  import opened AuthSlice

  /** `items.reduce((total, item) => total + item.quantity, 0)`. */
  function TotalItems(items: seq<Item>): int
  {
    if items == [] then 0 else items[0].quantity + TotalItems(items[1..])
  }

  lemma {:induction false} TotalItemsAppend(a: seq<Item>, b: seq<Item>)
    ensures TotalItems(a + b) == TotalItems(a) + TotalItems(b)
  {
    if a != [] {
      assert (a + b)[1..] == a[1..] + b;
      TotalItemsAppend(a[1..], b);
    } else {
      assert a + b == b;
    }
  }

  /** Changing one line changes the badge by the change in that line's quantity. */
  lemma {:induction false} TotalItemsUpdate(items: seq<Item>, i: int, x: Item)
    requires 0 <= i < |items|
    ensures TotalItems(items[i := x]) == TotalItems(items) - items[i].quantity + x.quantity
  {
    if i > 0 {
      assert items[i := x][1..] == items[1..][i - 1 := x];
      TotalItemsUpdate(items[1..], i - 1, x);
    } else {
      assert items[i := x][1..] == items[1..];
    }
  }

  /** The badge counts units, not lines: every `addItem` raises it by exactly one,
      whether it bumps a line or appends one. */
  lemma TotalItemsAdded(items: seq<Item>, p: Item)
    ensures TotalItems(Added(items, p)) == TotalItems(items) + 1
  {
    var i := IndexOf(items, p.id);
    if i >= 0 {
      TotalItemsUpdate(items, i, items[i].(quantity := items[i].quantity + 1));
    } else {
      TotalItemsAppend(items, [p.(quantity := 1)]);
    }
  }

  /** A single line of three units shows 3 on the badge, though the cart has one line. */
  lemma TotalItemsIsNotLineCount(x: Item)
    requires x.quantity == 3
    ensures TotalItems([x]) == 3 && |[x]| == 1
  {
    assert [x][1..] == [];
  }

  /** `s?.[0] || ""`: the first character, or nothing. */
  function FirstChar(s: string): (r: string)
    ensures |r| == (if s == "" then 0 else 1)
    ensures s != "" ==> r[0] == s[0]
  {
    if s == "" then "" else [s[0]]
  }

  /** `getInitials()`. */
  function Initials(isAuthenticated: bool, user: Option<User>): (r: string)
    ensures !isAuthenticated || user.None? ==> r == ""
    ensures isAuthenticated && user.Some? ==>
      var first := user.value.firstName;
      var last := if user.value.lastName.Some? then user.value.lastName.value else "";
      && |r| == |FirstChar(first)| + |FirstChar(last)|
      && (first != "" ==> r[0] == UpperChar(first[0]))
      && (last != "" ==> r[|r| - 1] == UpperChar(last[0]))
    ensures forall k :: 0 <= k < |r| ==> !IsLower(r[k])
  {
    if isAuthenticated && user.Some? then
      var last := if user.value.lastName.Some? then user.value.lastName.value else "";
      ToUpper(FirstChar(user.value.firstName) + FirstChar(last))
    else ""
  }

  /** `handleLogout`: expire the cookie, drop `currentUser`, dispatch `logout` and
      then `clearCart`, go to /login. The cart's user id is left as it was, so
      `clearCart` deletes that user's saved cart; other users' carts stay. */
  method HandleLogout(auth: AuthStore, cart: CartStore) returns (target: string)
    requires auth.browser == cart.browser
    modifies auth`user, auth`isAuthenticated, cart`items
    modifies auth.browser`currentUser, auth.browser`authCookie, auth.browser`carts
    ensures target == "/login"
    ensures auth.user == None && !auth.isAuthenticated
    ensures auth.browser.currentUser == None && auth.browser.authCookie == None
    ensures cart.items == [] && cart.userId == old(cart.userId)
    ensures auth.browser.carts == Cleared(old(auth.browser.carts), cart.userId)
    ensures Loaded(auth.browser.carts, cart.userId) == []
    ensures forall v :: v != cart.userId ==> Loaded(auth.browser.carts, v) == Loaded(old(auth.browser.carts), v)
  {
    var b := auth.browser;
    b.authCookie := None;
    b.currentUser := None;
    auth.Logout();
    cart.ClearCart();
    LoadAfterClear(old(b.carts), cart.userId);
    forall v | v != cart.userId
      ensures Loaded(b.carts, v) == Loaded(old(b.carts), v)
    {
      LoadOtherAfterClear(old(b.carts), cart.userId, v);
    }
    target := "/login";
  }

  /** As written, logging out and back in as the same user finds an empty cart. */
  method LogoutThenLoginLosesCart(auth: AuthStore, cart: CartStore)
    requires auth.browser == cart.browser && cart.Synced() && cart.userId != ""
    modifies auth`user, auth`isAuthenticated, cart`items, cart`userId
    modifies auth.browser`currentUser, auth.browser`authCookie, auth.browser`carts
    ensures cart.userId == old(cart.userId) && cart.items == []
  {
    var me := cart.userId;
    var _ := HandleLogout(auth, cart);
    cart.SetUserId(me);
  }

  /** The logout the comment describes: the lines leave memory (`setUserId("")`)
      while the saved cart stays in localStorage. */
  method HandleLogoutKeepingCart(auth: AuthStore, cart: CartStore) returns (target: string)
    requires auth.browser == cart.browser
    modifies auth`user, auth`isAuthenticated, cart`items, cart`userId
    modifies auth.browser`currentUser, auth.browser`authCookie
    ensures target == "/login"
    ensures auth.user == None && !auth.isAuthenticated
    ensures auth.browser.currentUser == None && auth.browser.authCookie == None
    ensures cart.items == [] && cart.userId == ""
    ensures auth.browser.carts == old(auth.browser.carts)
  {
    var b := auth.browser;
    b.authCookie := None;
    b.currentUser := None;
    auth.Logout();
    cart.SetUserId("");
    target := "/login";
  }

  /** With the corrected logout, logging back in restores the user's lines. */
  method LogoutThenLoginKeepsCart(auth: AuthStore, cart: CartStore)
    requires auth.browser == cart.browser && cart.Synced() && cart.userId != ""
    modifies auth`user, auth`isAuthenticated, cart`items, cart`userId
    modifies auth.browser`currentUser, auth.browser`authCookie
    ensures cart.userId == old(cart.userId) && cart.items == old(cart.items)
  {
    var me := cart.userId;
    var _ := HandleLogoutKeepingCart(auth, cart);
    cart.SetUserId(me);
  }
}
