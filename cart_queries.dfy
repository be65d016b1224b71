/**
  The two queries the cart provider derives from the reducer state:
  `getCartItems`, the entries in first-add order, and `getCartTotal`, the
  sum of price times quantity over those entries; and how each action of
  the reducer changes the total.
 */
module CartQueries {
  import opened Cart
  import opened CartLaws

  /** The entries stored under `ids`, in the order of `ids`. */
  function Lookup(ids: seq<string>, m: map<string, Item>): (items: seq<Item>)
    requires forall id :: id in ids ==> id in m
    ensures |items| == |ids|
  {
    seq(|ids|, i requires 0 <= i < |ids| => m[ids[i]])
  }

  /** `getCartItems()`: every listed id mapped to its entry. */
  function CartItems(s: CartState): (items: seq<Item>)
    requires Stored(s)
    ensures |items| == |s.allItems|
    ensures Valid(s) ==> forall i :: 0 <= i < |items| ==> items[i].id == s.allItems[i] && items[i].quantity >= 1
  {
    Lookup(s.allItems, s.itemsById)
  }

  /** What one entry contributes to the total. */
  function Line(item: Item): int
  {
    item.price * item.quantity
  }

  /** The callback of `getCartTotal`'s `reduce`, applied left to right
      starting from the accumulator `acc`. */
  function Accumulate(acc: int, items: seq<Item>): int
    decreases |items|
  {
    if items == [] then acc else Accumulate(acc + Line(items[0]), items[1..])
  }

  /** The sum of the line totals, as an independent reference. */
  function Sum(items: seq<Item>): int
  {
    if items == [] then 0 else Line(items[0]) + Sum(items[1..])
  }

  /** `getCartTotal()`: the reduce over `getCartItems()` starting from 0. */
  function CartTotal(s: CartState): (total: int)
    requires Stored(s)
    ensures s.allItems == [] ==> total == 0
  {
    Accumulate(0, CartItems(s))
  }

  /** Accumulating from `acc` adds the sum of the line totals to `acc`. */
  lemma {:induction false} AccumulateIsSum(acc: int, items: seq<Item>)
    ensures Accumulate(acc, items) == acc + Sum(items)
    decreases |items|
  {
    if items != [] {
      AccumulateIsSum(acc + Line(items[0]), items[1..]);
    }
  }

  /** The total is the sum of price times quantity over the listed items. */
  lemma CartTotalIsSum(s: CartState)
    requires Stored(s)
    ensures CartTotal(s) == Sum(CartItems(s))
  {
    AccumulateIsSum(0, CartItems(s));
  }

  lemma {:induction false} SumConcat(a: seq<Item>, b: seq<Item>)
    ensures Sum(a + b) == Sum(a) + Sum(b)
  {
    if a == [] {
      assert a + b == b;
    } else {
      assert (a + b)[1..] == a[1..] + b;
      SumConcat(a[1..], b);
    }
  }

  lemma {:induction false} SumNonNegative(items: seq<Item>)
    requires forall i :: 0 <= i < |items| ==> items[i].quantity >= 0
    ensures Sum(items) >= 0
  {
    if items != [] {
      SumNonNegative(items[1..]);
    }
  }

  /** In a valid cart the total is never negative. */
  lemma CartTotalNonNegative(s: CartState)
    requires Valid(s)
    ensures CartTotal(s) >= 0
  {
    CartTotalIsSum(s);
    SumNonNegative(CartItems(s));
  }

  /** In a valid cart the listing holds each stored entry exactly once: the
      i-th item is the entry of the i-th id, every entry appears, and there
      are as many items as entries. */
  lemma CartItemsAreTheEntries(s: CartState)
    requires Valid(s)
    ensures var items := CartItems(s);
      && |items| == |s.itemsById|
      && (forall i :: 0 <= i < |items| ==> items[i] == s.itemsById[s.allItems[i]])
      && (forall id :: id in s.itemsById ==> s.itemsById[id] in items)
  {
    var items := CartItems(s);
    forall id | id in s.itemsById ensures s.itemsById[id] in items {
      var i :| 0 <= i < |s.allItems| && s.allItems[i] == id;
      assert items[i] == s.itemsById[id];
    }
    DistinctCardinality(s.allItems);
    assert (set id | id in s.allItems) == s.itemsById.Keys;
  }

  /** A repeat-free list has as many distinct elements as positions. */
  lemma {:induction false} DistinctCardinality(ids: seq<string>)
    requires NoDup(ids)
    ensures |set id | id in ids| == |ids|
  {
    if ids != [] {
      NoDupTail(ids);
      DistinctCardinality(ids[1..]);
      assert (set id | id in ids) == {ids[0]} + (set id | id in ids[1..]);
    }
  }

  lemma LookupConcat(a: seq<string>, b: seq<string>, m: map<string, Item>)
    requires forall id :: id in a + b ==> id in m
    ensures Lookup(a + b, m) == Lookup(a, m) + Lookup(b, m)
  {
  }

  lemma LookupAgree(ids: seq<string>, m: map<string, Item>, m': map<string, Item>)
    requires forall id :: id in ids ==> id in m && id in m' && m[id] == m'[id]
    ensures Lookup(ids, m) == Lookup(ids, m')
  {
  }

  /** Taking the entry at position `k` out of the sum subtracts its line. */
  lemma SumLookupSplit(ids: seq<string>, m: map<string, Item>, k: nat)
    requires (forall id :: id in ids ==> id in m) && k < |ids|
    ensures Sum(Lookup(ids, m)) == Sum(Lookup(ids[..k] + ids[k + 1..], m)) + Line(m[ids[k]])
  {
    var pre, post := ids[..k], ids[k + 1..];
    assert ids == pre + [ids[k]] + post;
    LookupConcat(pre + [ids[k]], post, m);
    LookupConcat(pre, [ids[k]], m);
    LookupConcat(pre, post, m);
    SumConcat(Lookup(pre, m) + Lookup([ids[k]], m), Lookup(post, m));
    SumConcat(Lookup(pre, m), Lookup([ids[k]], m));
    SumConcat(Lookup(pre, m), Lookup(post, m));
  }

  /** Replacing the entry of the id at position `k` changes the sum by the
      difference of the two lines. */
  lemma SumLookupReplace(ids: seq<string>, m: map<string, Item>, k: nat, item: Item)
    requires NoDup(ids) && (forall id :: id in ids ==> id in m) && k < |ids|
    ensures Sum(Lookup(ids, m[ids[k] := item])) == Sum(Lookup(ids, m)) - Line(m[ids[k]]) + Line(item)
  {
    var m' := m[ids[k] := item];
    var rest := ids[..k] + ids[k + 1..];
    FilterAt(ids, k);
    SumLookupSplit(ids, m, k);
    SumLookupSplit(ids, m', k);
    LookupAgree(rest, m, m');
  }

  /** Appending a new id with its entry adds that entry's line to the sum. */
  lemma SumLookupAppend(ids: seq<string>, m: map<string, Item>, id: string, item: Item)
    requires (forall x :: x in ids ==> x in m) && id !in ids
    ensures Sum(Lookup(ids + [id], m[id := item])) == Sum(Lookup(ids, m)) + Line(item)
  {
    var m' := m[id := item];
    LookupAgree(ids, m, m');
    LookupConcat(ids, [id], m');
    assert Lookup([id], m') == [item];
    SumConcat(Lookup(ids, m), [item]);
    assert [item][1..] == [];
  }

  /** Adding a new product raises the total by its price. */
  lemma TotalAfterAddNew(s: CartState, p: Product)
    requires Valid(s) && p.id !in s.itemsById
    ensures CartTotal(Reduce(s, AddItem(p))) == CartTotal(s) + p.price
  {
    AddNewItem(s, p);
    CartTotalIsSum(s);
    CartTotalIsSum(Reduce(s, AddItem(p)));
    SumLookupAppend(s.allItems, s.itemsById, p.id, Item(p.id, p.price, p.details, 1));
  }

  /** Adding a product already in the cart replaces its line by the new
      price times the old quantity plus one. */
  lemma TotalAfterAddExisting(s: CartState, p: Product)
    requires Valid(s) && p.id in s.itemsById
    ensures CartTotal(Reduce(s, AddItem(p)))
         == CartTotal(s) - Line(s.itemsById[p.id]) + p.price * (s.itemsById[p.id].quantity + 1)
  {
    AddExistingItem(s, p);
    var k :| 0 <= k < |s.allItems| && s.allItems[k] == p.id;
    CartTotalIsSum(s);
    CartTotalIsSum(Reduce(s, AddItem(p)));
    SumLookupReplace(s.allItems, s.itemsById, k, AddedItem(s, p));
  }

  /** Removing an item lowers the total by its line; removing an absent id
      leaves the total as it was. */
  lemma TotalAfterRemove(s: CartState, id: string)
    requires Valid(s)
    ensures CartTotal(Reduce(s, RemoveItem(id)))
         == if id in s.itemsById then CartTotal(s) - Line(s.itemsById[id]) else CartTotal(s)
  {
    var r := Reduce(s, RemoveItem(id));
    if id in s.itemsById {
      var k :| 0 <= k < |s.allItems| && s.allItems[k] == id;
      RemovePresentItem(s, k);
      CartTotalIsSum(s);
      CartTotalIsSum(r);
      SumLookupSplit(s.allItems, s.itemsById, k);
      LookupAgree(r.allItems, s.itemsById, r.itemsById);
    } else {
      RemoveAbsentItem(s, id);
    }
  }

  /** Changing an entry's quantity by `delta` changes its line by the
      price times `delta`. */
  lemma LineAfterDelta(item: Item, delta: int)
    ensures Line(item.(quantity := item.quantity + delta)) == Line(item) + item.price * delta
  {
    assert item.price * (item.quantity + delta) == item.price * item.quantity + item.price * delta;
  }

  /** An update that leaves a positive quantity changes the total by the
      price times the delta. */
  lemma TotalAfterUpdate(s: CartState, id: string, delta: int)
    requires Valid(s) && id in s.itemsById && s.itemsById[id].quantity + delta > 0
    ensures CartTotal(Reduce(s, UpdateItemQuantity(id, delta)))
         == CartTotal(s) + s.itemsById[id].price * delta
  {
    var k :| 0 <= k < |s.allItems| && s.allItems[k] == id;
    var current := s.itemsById[id];
    var updated := current.(quantity := current.quantity + delta);
    var r := CartState(s.itemsById[id := updated], s.allItems);
    assert Reduce(s, UpdateItemQuantity(id, delta)) == r;
    assert Stored(r);
    assert CartTotal(r) == Sum(Lookup(s.allItems, s.itemsById[id := updated])) by {
      CartTotalIsSum(r);
    }
    assert CartTotal(s) == Sum(Lookup(s.allItems, s.itemsById)) by {
      CartTotalIsSum(s);
    }
    SumLookupReplace(s.allItems, s.itemsById, k, updated);
    LineAfterDelta(current, delta);
  }

  /** An update that brings the quantity to zero or below lowers the total
      by the item's whole line, as removing it does. */
  lemma TotalAfterUpdateRemoves(s: CartState, id: string, delta: int)
    requires Valid(s) && id in s.itemsById && s.itemsById[id].quantity + delta <= 0
    ensures CartTotal(Reduce(s, UpdateItemQuantity(id, delta))) == CartTotal(s) - Line(s.itemsById[id])
  {
    UpdateToNonPositiveRemoves(s, id, delta);
    TotalAfterRemove(s, id);
  }

  /** A cart holding one entry lists that entry, and its total is the
      entry's line. */
  lemma SingleEntryQueries(item: Item)
    ensures var s := CartState(map[item.id := item], [item.id]);
      && Stored(s)
      && CartItems(s) == [item]
      && CartTotal(s) == Line(item)
  {
    var s := CartState(map[item.id := item], [item.id]);
    assert CartItems(s) == [item];
    CartTotalIsSum(s);
    assert [item][1..] == [];
  }

  /** The state after two adds of the same product to the empty cart. */
  lemma AddTwiceState(p: Product)
    ensures Run(InitialState(), [AddItem(p), AddItem(p)])
         == CartState(map[p.id := Item(p.id, p.price, p.details, 2)], [p.id])
  {
    var once := Reduce(InitialState(), AddItem(p));
    var twice := Item(p.id, p.price, p.details, 2);
    RunTwo(InitialState(), AddItem(p), AddItem(p));
    AddToEmpty(p);
    AddExistingItem(once, p);
    assert once.itemsById[p.id := twice] == map[p.id := twice];
  }

  /** Two adds of the same product to the empty cart list one entry with
      quantity two, and the total is twice the price. */
  lemma ScenarioAddTwice(p: Product)
    ensures var s := Run(InitialState(), [AddItem(p), AddItem(p)]);
      && Stored(s)
      && CartItems(s) == [Item(p.id, p.price, p.details, 2)]
      && CartTotal(s) == 2 * p.price
  {
    AddTwiceState(p);
    SingleEntryQueries(Item(p.id, p.price, p.details, 2));
  }

  /** The state after adding two different products and removing the first. */
  lemma RemoveFirstState(a: Product, b: Product)
    requires a.id != b.id
    ensures Run(InitialState(), [AddItem(a), AddItem(b), RemoveItem(a.id)])
         == CartState(map[b.id := Item(b.id, b.price, b.details, 1)], [b.id])
  {
    var onlyA := Reduce(InitialState(), AddItem(a));
    RunThree(InitialState(), AddItem(a), AddItem(b), RemoveItem(a.id));
    AddToEmpty(a);
    AddNewItem(onlyA, b);
    RemoveFirstOfTwo(Reduce(onlyA, AddItem(b)));
  }

  /** Removing the first id of a valid two-entry cart leaves the second. */
  lemma RemoveFirstOfTwo(s: CartState)
    requires Valid(s) && |s.allItems| == 2
    ensures var b := s.allItems[1];
      Reduce(s, RemoveItem(s.allItems[0])) == CartState(map[b := s.itemsById[b]], [b])
  {
    var a, b := s.allItems[0], s.allItems[1];
    RemovePresentItem(s, 0);
    assert s.allItems[1..] == [b];
    assert s.itemsById.Keys == {a, b};
    var r := Reduce(s, RemoveItem(a));
    assert r.itemsById.Keys == {b};
  }

  /** Adding two different products and removing the first leaves only the
      second, and the total is its price. */
  lemma ScenarioRemoveFirst(a: Product, b: Product)
    requires a.id != b.id
    ensures var s := Run(InitialState(), [AddItem(a), AddItem(b), RemoveItem(a.id)]);
      && Stored(s)
      && CartItems(s) == [Item(b.id, b.price, b.details, 1)]
      && CartTotal(s) == b.price
  {
    RemoveFirstState(a, b);
    SingleEntryQueries(Item(b.id, b.price, b.details, 1));
  }

  /** Adding a product once and updating it by -1 empties the cart. */
  lemma ScenarioDecrementToEmpty(p: Product)
    ensures var s := Run(InitialState(), [AddItem(p), UpdateItemQuantity(p.id, -1)]);
      && Stored(s)
      && CartItems(s) == []
      && CartTotal(s) == 0
  {
    var once := Reduce(InitialState(), AddItem(p));
    RunTwo(InitialState(), AddItem(p), UpdateItemQuantity(p.id, -1));
    AddToEmpty(p);
    UpdateToNonPositiveRemoves(once, p.id, -1);
    RemovePresentItem(once, 0);
  }

  /** Updating any id outside `ObjectKeys.InheritedNames` on the empty cart
      leaves the initial state. */
  lemma ScenarioUpdateUnknown(id: string, delta: int)
    ensures var s := Run(InitialState(), [UpdateItemQuantity(id, delta)]);
      && s == InitialState()
      && CartItems(s) == []
  {
    RunStep(InitialState(), UpdateItemQuantity(id, delta), []);
    assert [UpdateItemQuantity(id, delta)] + [] == [UpdateItemQuantity(id, delta)];
  }
}
