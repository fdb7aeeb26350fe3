/** src/helpers/cart.ts: the per-user cart key and the guarded cart write. */
module CartHelpers {
  import opened Records
  import opened Storage

  /** `cart_<userId>`. */
  function CartKey(userId: string): (k: string)
    ensures |k| == |userId| + 5 && k[..5] == "cart_" && k[5..] == userId
  {
    "cart_" + userId
  }

  /** Distinct users never share a saved cart. */
  lemma CartKeyInjective(a: string, b: string)
    ensures CartKey(a) == CartKey(b) ==> a == b
  {
    if CartKey(a) == CartKey(b) {
      assert a == CartKey(a)[5..];
      assert b == CartKey(b)[5..];
    }
  }

  /** No per-user key is one of the other keys the application uses. */
  lemma CartKeyDistinctFromOtherKeys(u: string)
    ensures CartKey(u) != "cart" && CartKey(u) != "currentUser" && CartKey(u) != "registered_users"
  {
    var k := CartKey(u);
    assert k[0] == 'c' && k[1] == 'a';
    assert "currentUser"[1] == 'u';
    assert "registered_users"[0] == 'r';
  }

  /** The cart entries after `saveCart(userId, items)`: nothing is written for the
      empty user id, and a rejected `setItem` is swallowed. */
  function Saved(carts: map<string, seq<Item>>, userId: string, items: seq<Item>, quotaFull: bool)
    : (m: map<string, seq<Item>>)
    ensures m == carts || m == carts[CartKey(userId) := items]
    ensures userId == "" || quotaFull ==> m == carts
    ensures userId != "" && !quotaFull ==> CartKey(userId) in m && m[CartKey(userId)] == items
    ensures forall k :: k != CartKey(userId) ==> (k in m <==> k in carts)
    ensures forall k :: k in m && k != CartKey(userId) ==> m[k] == carts[k]
  {
    if userId != "" && !quotaFull then carts[CartKey(userId) := items] else carts
  }

  /** `saveCart`. */
  method SaveCart(b: Browser, userId: string, items: seq<Item>)
    modifies b`carts
    ensures b.carts == Saved(old(b.carts), userId, items, b.quotaFull)
  {
    if userId != "" {
      if !b.quotaFull {
        b.carts := b.carts[CartKey(userId) := items];
      }
    }
  }
}
