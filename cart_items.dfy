/** The item-list rules the cart reducers apply (src/store/slices/cartSlice.ts and
    src/features/cart/cartSlice.ts share them line for line): find the first line
    with an id, bump or append, filter out, set a quantity. */
module CartItems {
  import opened Common
  import opened Records

  /** The ids of the cart lines, in order. */
  function Ids(items: seq<Item>): (ids: seq<int>)
    ensures |ids| == |items|
    ensures forall k :: 0 <= k < |items| ==> ids[k] == items[k].id
  {
    seq(|items|, k requires 0 <= k < |items| => items[k].id)
  }

  /** No two lines carry the same product id. */
  predicate UniqueIds(items: seq<Item>)
  {
    forall i, j :: 0 <= i < j < |items| ==> items[i].id != items[j].id
  }

  /** `items.find(item => item.id === id)`, as the index it stops at (-1: none). */
  function IndexOf(items: seq<Item>, id: int): (r: int)
    ensures -1 <= r < |items|
    ensures r == -1 <==> id !in Ids(items)
    ensures r >= 0 ==> items[r].id == id && forall k :: 0 <= k < r ==> items[k].id != id
  {
    var r := FindIndex(items, (x: Item) => x.id == id);
    assert r == -1 ==> forall k :: 0 <= k < |items| ==> Ids(items)[k] != id;
    assert r >= 0 ==> Ids(items)[r] == id;
    r
  }

  /** The first line with id `i` is at index `i`: the lookup returns it. */
  lemma IndexOfFirst(items: seq<Item>, id: int, i: int)
    requires 0 <= i < |items| && items[i].id == id
    requires forall k :: 0 <= k < i ==> items[k].id != id
    ensures IndexOf(items, id) == i
  {
    assert id in Ids(items) by { assert Ids(items)[i] == id; }
  }

  /** The lookup only looks at ids. */
  lemma IndexOfSameIds(a: seq<Item>, b: seq<Item>, id: int)
    requires Ids(a) == Ids(b)
    ensures IndexOf(a, id) == IndexOf(b, id)
  {
    var i := IndexOf(a, id);
    if i >= 0 {
      assert b[i].id == Ids(b)[i] == Ids(a)[i] == id;
      forall k | 0 <= k < i ensures b[k].id != id { assert b[k].id == Ids(b)[k] == Ids(a)[k]; }
      IndexOfFirst(b, id, i);
    }
  }

  /** The quantity on the first line with `id`, 0 when there is none. */
  function QuantityOf(items: seq<Item>, id: int): int
  {
    var i := IndexOf(items, id);
    if i >= 0 then items[i].quantity else 0
  }

  // ---------------------------------------------------------------- addItem

  /** `addItem`: bump the first line with the payload's id by one, or append the
      payload with quantity 1. */
  function Added(items: seq<Item>, p: Item): (r: seq<Item>)
    ensures Ids(r) == if p.id in Ids(items) then Ids(items) else Ids(items) + [p.id]
  {
    var i := IndexOf(items, p.id);
    if i >= 0 then items[i := items[i].(quantity := items[i].quantity + 1)]
    else items + [p.(quantity := 1)]
  }

  /** An id already in the cart: that first line's quantity goes up by exactly one;
      length, order and every other line stay as they were. */
  lemma AddExisting(items: seq<Item>, p: Item, i: int)
    requires 0 <= i < |items| && items[i].id == p.id
    requires forall k :: 0 <= k < i ==> items[k].id != p.id
    ensures |Added(items, p)| == |items|
    ensures Added(items, p)[i] == items[i].(quantity := items[i].quantity + 1)
    ensures forall k :: 0 <= k < |items| && k != i ==> Added(items, p)[k] == items[k]
  {
    IndexOfFirst(items, p.id, i);
  }

  /** A new id: one line is appended at the end, with quantity 1 whatever the
      payload carried. */
  lemma AddNew(items: seq<Item>, p: Item)
    requires p.id !in Ids(items)
    ensures Added(items, p) == items + [p.(quantity := 1)]
    ensures Added(items, p)[|items|].quantity == 1
  {
  }

  /** Uniqueness is a property of the id sequence alone. */
  lemma UniqueIdsSameIds(a: seq<Item>, b: seq<Item>)
    requires Ids(a) == Ids(b) && UniqueIds(a)
    ensures UniqueIds(b)
  {
    forall i, j | 0 <= i < j < |b| ensures b[i].id != b[j].id {
      assert b[i].id == Ids(b)[i] == Ids(a)[i] == a[i].id;
      assert b[j].id == Ids(b)[j] == Ids(a)[j] == a[j].id;
    }
  }

  /** Adding keeps ids unique. */
  lemma AddedKeepsUniqueIds(items: seq<Item>, p: Item)
    requires UniqueIds(items)
    ensures UniqueIds(Added(items, p))
  {
    var r := Added(items, p);
    if p.id in Ids(items) {
      UniqueIdsSameIds(items, r);
    } else {
      forall i, j | 0 <= i < j < |r| ensures r[i].id != r[j].id {
        if j == |items| {
          assert r[j].id == Ids(r)[j] == p.id;
          assert r[i].id == Ids(r)[i] == Ids(items)[i];
        }
      }
    }
  }

  /** Each `addItem` raises the quantity recorded for its own id by one and leaves
      every other id's quantity alone. */
  lemma AddedQuantity(items: seq<Item>, p: Item, x: int)
    ensures QuantityOf(Added(items, p), x) == QuantityOf(items, x) + (if x == p.id then 1 else 0)
  {
    var r := Added(items, p);
    var i := IndexOf(items, p.id);
    if i >= 0 {
      IndexOfSameIds(r, items, x);
    } else {
      var j := IndexOf(items, x);
      if j >= 0 {
        IndexOfFirst(r, x, j);
      } else if x == p.id {
        IndexOfFirst(r, x, |items|);
      } else {
        assert x !in Ids(r);
      }
    }
  }

  /** Several `addItem`s in a row. */
  function AddedAll(items: seq<Item>, ps: seq<Item>): seq<Item>
    decreases |ps|
  {
    if ps == [] then items else AddedAll(Added(items, ps[0]), ps[1..])
  }

  /** How many payloads carry id `x`. */
  function CountId(ps: seq<Item>, x: int): nat
  {
    if ps == [] then 0 else (if ps[0].id == x then 1 else 0) + CountId(ps[1..], x)
  }

  /** After a run of `addItem`s, each id's quantity has grown by the number of
      times it was added. */
  lemma {:induction false} AddedAllQuantity(items: seq<Item>, ps: seq<Item>, x: int)
    ensures QuantityOf(AddedAll(items, ps), x) == QuantityOf(items, x) + CountId(ps, x)
    decreases |ps|
  {
    if ps != [] {
      AddedQuantity(items, ps[0], x);
      AddedAllQuantity(Added(items, ps[0]), ps[1..], x);
    }
  }

  /** Starting from an empty cart, the lines are exactly the distinct ids added,
      each once, and each quantity counts its additions. */
  lemma {:induction false} AddedAllFromEmpty(ps: seq<Item>, x: int)
    ensures UniqueIds(AddedAll([], ps))
    ensures x in Ids(AddedAll([], ps)) <==> x in Ids(ps)
    ensures QuantityOf(AddedAll([], ps), x) == CountId(ps, x)
  {
    AddedAllQuantity([], ps, x);
    AddedAllIds([], ps, x);
  }

  lemma {:induction false} AddedAllIds(items: seq<Item>, ps: seq<Item>, x: int)
    requires UniqueIds(items)
    ensures UniqueIds(AddedAll(items, ps))
    ensures x in Ids(AddedAll(items, ps)) <==> x in Ids(items) || x in Ids(ps)
    decreases |ps|
  {
    if ps != [] {
      AddedKeepsUniqueIds(items, ps[0]);
      AddedAllIds(Added(items, ps[0]), ps[1..], x);
      assert Ids(ps) == [ps[0].id] + Ids(ps[1..]);
    }
  }

  // ------------------------------------------------------------- removeItem

  /** `removeItem`: `items.filter(item => item.id !== id)`. */
  function Removed(items: seq<Item>, id: int): (r: seq<Item>)
    ensures |r| <= |items|
    ensures forall x :: x in r <==> x in items && x.id != id
  {
    if items == [] then []
    else (if items[0].id == id then [] else [items[0]]) + Removed(items[1..], id)
  }

  /** The filter works piecewise, so the lines that stay keep their order. */
  lemma {:induction false} RemovedAppend(a: seq<Item>, b: seq<Item>, id: int)
    ensures Removed(a + b, id) == Removed(a, id) + Removed(b, id)
  {
    if a != [] {
      assert (a + b)[1..] == a[1..] + b;
      RemovedAppend(a[1..], b, id);
    } else {
      assert a + b == b;
    }
  }

  /** Removing an id that is not in the cart changes nothing. */
  lemma {:induction false} RemovedAbsent(items: seq<Item>, id: int)
    requires id !in Ids(items)
    ensures Removed(items, id) == items
  {
    if items != [] {
      assert Ids(items) == [items[0].id] + Ids(items[1..]);
      RemovedAbsent(items[1..], id);
    }
  }

  /** Removing keeps ids unique. */
  lemma {:induction false} RemovedKeepsUniqueIds(items: seq<Item>, id: int)
    requires UniqueIds(items)
    ensures UniqueIds(Removed(items, id))
  {
    if items != [] {
      RemovedKeepsUniqueIds(items[1..], id);
      var rest := Removed(items[1..], id);
      if items[0].id != id {
        forall k | 0 <= k < |rest| ensures rest[k].id != items[0].id {
          assert rest[k] in items[1..];
        }
      }
    }
  }

  /** Replacing a line by one with an id that is removed anyway does not show. */
  lemma {:induction false} RemovedOverwrite(items: seq<Item>, i: int, x: Item, id: int)
    requires 0 <= i < |items| && items[i].id == id && x.id == id
    ensures Removed(items[i := x], id) == Removed(items, id)
  {
    if i > 0 {
      assert items[i := x][1..] == items[1..][i - 1 := x];
      RemovedOverwrite(items[1..], i - 1, x, id);
    } else {
      assert items[i := x][1..] == items[1..];
    }
  }

  /** `addItem` followed by `removeItem` of the same id leaves the cart as a
      plain `removeItem` would; for an id that was not in the cart it restores
      the cart exactly. */
  lemma AddThenRemove(items: seq<Item>, p: Item)
    ensures Removed(Added(items, p), p.id) == Removed(items, p.id)
    ensures p.id !in Ids(items) ==> Removed(Added(items, p), p.id) == items
  {
    var i := IndexOf(items, p.id);
    if i >= 0 {
      RemovedOverwrite(items, i, items[i].(quantity := items[i].quantity + 1), p.id);
    } else {
      RemovedAppend(items, [p.(quantity := 1)], p.id);
      RemovedAbsent(items, p.id);
    }
  }

  // --------------------------------------------------------- updateQuantity

  /** `updateQuantity`: set the first matching line's quantity to exactly `q`. */
  function WithQuantity(items: seq<Item>, id: int, q: int): (r: seq<Item>)
    ensures Ids(r) == Ids(items)
  {
    var i := IndexOf(items, id);
    if i >= 0 then items[i := items[i].(quantity := q)] else items
  }

  /** The first line with `id` now holds exactly `q` (no floor: 0 and negative
      values are kept); nothing else changes. */
  lemma WithQuantityPresent(items: seq<Item>, id: int, q: int, i: int)
    requires 0 <= i < |items| && items[i].id == id
    requires forall k :: 0 <= k < i ==> items[k].id != id
    ensures |WithQuantity(items, id, q)| == |items|
    ensures WithQuantity(items, id, q)[i] == items[i].(quantity := q)
    ensures forall k :: 0 <= k < |items| && k != i ==> WithQuantity(items, id, q)[k] == items[k]
    ensures QuantityOf(WithQuantity(items, id, q), id) == q
  {
    IndexOfFirst(items, id, i);
    IndexOfSameIds(WithQuantity(items, id, q), items, id);
  }

  /** An id not in the cart: nothing changes. */
  lemma WithQuantityAbsent(items: seq<Item>, id: int, q: int)
    requires id !in Ids(items)
    ensures WithQuantity(items, id, q) == items
  {
  }

  /** Setting a quantity keeps ids unique. */
  lemma WithQuantityKeepsUniqueIds(items: seq<Item>, id: int, q: int)
    requires UniqueIds(items)
    ensures UniqueIds(WithQuantity(items, id, q))
  {
    UniqueIdsSameIds(items, WithQuantity(items, id, q));
  }

  /** `reorderItems` stores its payload as given, so it does not keep ids unique. */
  lemma ReorderMayDuplicate(x: Item)
    ensures !UniqueIds([x, x])
  {
    assert [x, x][0].id == [x, x][1].id;
  }
}
