/**
  What each action of the cart reducer does to the state, and the laws that
  follow: the invariant holds in every reachable state, removal is
  idempotent, quantities floor at zero, and the id list keeps first-add order.
 */
module CartLaws {
  import opened Cart

  /** ADD_ITEM with a new id stores the payload with quantity one and
      appends the id at the end of the list. */
  lemma AddNewItem(s: CartState, p: Product)
    requires Valid(s) && p.id !in s.itemsById
    ensures Reduce(s, AddItem(p)).itemsById == s.itemsById[p.id := Item(p.id, p.price, p.details, 1)]
    ensures Reduce(s, AddItem(p)).allItems == s.allItems + [p.id]
  {
    AppendDistinct(s.allItems, p.id);
  }

  /** ADD_ITEM with an id already in the cart replaces the entry by the new
      payload (price and other fields included) with the old quantity plus
      one; the id keeps its original position in the list. */
  lemma AddExistingItem(s: CartState, p: Product)
    requires Valid(s) && p.id in s.itemsById
    ensures Reduce(s, AddItem(p)).itemsById
         == s.itemsById[p.id := Item(p.id, p.price, p.details, s.itemsById[p.id].quantity + 1)]
    ensures Reduce(s, AddItem(p)).allItems == s.allItems
  {
    AppendDistinct(s.allItems, p.id);
    assert AddedItem(s, p) == Item(p.id, p.price, p.details, s.itemsById[p.id].quantity + 1);
  }

  /** REMOVE_ITEM of the id at position `k` deletes that entry, keeps every
      other entry as it was and drops exactly position `k` from the list,
      so the remaining ids keep their relative order. */
  lemma RemovePresentItem(s: CartState, k: nat)
    requires Valid(s) && k < |s.allItems|
    ensures var r := Reduce(s, RemoveItem(s.allItems[k]));
      && r.itemsById.Keys == s.itemsById.Keys - {s.allItems[k]}
      && (forall id :: id in r.itemsById ==> r.itemsById[id] == s.itemsById[id])
      && r.allItems == s.allItems[..k] + s.allItems[k + 1..]
  {
    FilterAt(s.allItems, k);
  }

  /** REMOVE_ITEM of an id that is not in the cart leaves the state as it was. */
  lemma RemoveAbsentItem(s: CartState, id: string)
    requires Valid(s) && id !in s.itemsById
    ensures Reduce(s, RemoveItem(id)) == s
  {
    FilterAbsent(s.allItems, id);
    assert RemoveKey(s.itemsById, id) == s.itemsById;
  }

  /** Removing twice is removing once, in any state. */
  lemma RemoveIdempotent(s: CartState, id: string)
    ensures Reduce(Reduce(s, RemoveItem(id)), RemoveItem(id)) == Reduce(s, RemoveItem(id))
  {
    var once := Reduce(s, RemoveItem(id));
    FilterAbsent(once.allItems, id);
    assert RemoveKey(once.itemsById, id) == once.itemsById;
  }

  /** UPDATE_ITEM_QUANTITY of an id that is not in the cart is a no-op. */
  lemma UpdateAbsentItem(s: CartState, id: string, delta: int)
    requires id !in s.itemsById
    ensures Reduce(s, UpdateItemQuantity(id, delta)) == s
  {
  }

  /** UPDATE_ITEM_QUANTITY that brings the quantity to zero or below has
      exactly the effect of REMOVE_ITEM. */
  lemma UpdateToNonPositiveRemoves(s: CartState, id: string, delta: int)
    requires id in s.itemsById && s.itemsById[id].quantity + delta <= 0
    ensures Reduce(s, UpdateItemQuantity(id, delta)) == Reduce(s, RemoveItem(id))
    ensures id !in Reduce(s, UpdateItemQuantity(id, delta)).itemsById
  {
  }

  /** UPDATE_ITEM_QUANTITY that leaves a positive quantity sets the quantity
      to the sum and changes nothing else: not the item's other fields, not
      the other items, not the id list. */
  lemma UpdateToPositiveSets(s: CartState, id: string, delta: int)
    requires id in s.itemsById && s.itemsById[id].quantity + delta > 0
    ensures var r := Reduce(s, UpdateItemQuantity(id, delta));
      && r.itemsById.Keys == s.itemsById.Keys
      && r.itemsById[id] == s.itemsById[id].(quantity := s.itemsById[id].quantity + delta)
      && (forall k :: k in s.itemsById && k != id ==> r.itemsById[k] == s.itemsById[k])
      && r.allItems == s.allItems
  {
  }

  /** The floor at zero: a decrement by the whole quantity removes the item,
      and one that stops one short leaves it with quantity one. */
  lemma UpdateFloor(s: CartState, id: string)
    requires id in s.itemsById
    ensures id !in Reduce(s, UpdateItemQuantity(id, -s.itemsById[id].quantity)).itemsById
    ensures s.itemsById[id].quantity > 1 ==>
      Reduce(s, UpdateItemQuantity(id, 1 - s.itemsById[id].quantity)).itemsById[id].quantity == 1
  {
  }

  /** An action of any other type returns the state unchanged. */
  lemma UnrecognizedIsNoOp(s: CartState, kind: string)
    ensures Reduce(s, Unrecognized(kind)) == s
  {
  }

  /** Dispatching `[a] + rest` is dispatching `a`, then `rest`. */
  lemma RunStep(s: CartState, a: Action, rest: seq<Action>)
    ensures Run(s, [a] + rest) == Run(Reduce(s, a), rest)
  {
    assert ([a] + rest)[1..] == rest;
  }

  /** Dispatching two actions. */
  lemma RunTwo(s: CartState, x: Action, y: Action)
    ensures Run(s, [x, y]) == Reduce(Reduce(s, x), y)
  {
    RunStep(s, x, [y]);
    RunStep(Reduce(s, x), y, []);
    assert [x] + [y] == [x, y];
    assert [y] + [] == [y];
  }

  /** Dispatching three actions. */
  lemma RunThree(s: CartState, x: Action, y: Action, z: Action)
    ensures Run(s, [x, y, z]) == Reduce(Reduce(Reduce(s, x), y), z)
  {
    RunStep(s, x, [y, z]);
    RunTwo(Reduce(s, x), y, z);
    assert [x] + [y, z] == [x, y, z];
  }

  /** ADD_ITEM on the empty cart gives a cart holding just that product. */
  lemma AddToEmpty(p: Product)
    ensures Reduce(InitialState(), AddItem(p))
         == CartState(map[p.id := Item(p.id, p.price, p.details, 1)], [p.id])
  {
    AddNewItem(InitialState(), p);
  }

  /** Every sequence of actions keeps the invariant. */
  lemma {:induction false} RunPreservesValid(s: CartState, actions: seq<Action>)
    requires Valid(s)
    ensures Valid(Run(s, actions))
    decreases |actions|
  {
    if actions != [] {
      RunPreservesValid(Reduce(s, actions[0]), actions[1..]);
    }
  }

  /** Every state reachable from the initial state satisfies the invariant. */
  lemma ReachableIsValid(actions: seq<Action>)
    ensures Valid(Run(InitialState(), actions))
  {
    RunPreservesValid(InitialState(), actions);
  }

  /** `n` copies of one action. */
  function Repeat(a: Action, n: nat): (r: seq<Action>)
    ensures |r| == n && forall i :: 0 <= i < n ==> r[i] == a
  {
    seq(n, _ => a)
  }

  /** `n` ADD_ITEMs of one product raise its quantity by `n` (from zero when
      it was absent) and append its id only when it was absent. */
  lemma {:induction false} RepeatedAdd(s: CartState, p: Product, n: nat)
    requires Valid(s) && n >= 1
    ensures var r := Run(s, Repeat(AddItem(p), n));
      && p.id in r.itemsById
      && r.itemsById[p.id].quantity
         == (if p.id in s.itemsById then s.itemsById[p.id].quantity else 0) + n
      && r.allItems == if p.id in s.itemsById then s.allItems else s.allItems + [p.id]
    decreases n
  {
    var next := Reduce(s, AddItem(p));
    var base := if p.id in s.itemsById then s.itemsById[p.id].quantity else 0;
    assert && p.id in next.itemsById
           && next.itemsById[p.id].quantity == base + 1
           && next.allItems == if p.id in s.itemsById then s.allItems else s.allItems + [p.id]
    by {
      if p.id in s.itemsById {
        AddExistingItem(s, p);
      } else {
        AddNewItem(s, p);
      }
    }
    RunStep(s, AddItem(p), Repeat(AddItem(p), n - 1));
    assert [AddItem(p)] + Repeat(AddItem(p), n - 1) == Repeat(AddItem(p), n);
    if n > 1 {
      RepeatedAdd(next, p, n - 1);
    } else {
      assert Repeat(AddItem(p), 0) == [];
    }
  }

  /** Removing an item and adding it again puts its id at the end of the
      list, not at its old position, with quantity one; for an id that was
      not in the cart, the remove changes nothing and the add appends. */
  lemma RemoveThenAddAppends(s: CartState, p: Product)
    requires Valid(s)
    ensures var r := Run(s, [RemoveItem(p.id), AddItem(p)]);
      && r.allItems == Filter(s.allItems, p.id) + [p.id]
      && p.id in r.itemsById
      && r.itemsById[p.id] == Item(p.id, p.price, p.details, 1)
  {
    var removed := Reduce(s, RemoveItem(p.id));
    AddNewItem(removed, p);
    assert [RemoveItem(p.id), AddItem(p)][1..] == [AddItem(p)];
    assert Run(s, [RemoveItem(p.id), AddItem(p)]) == Run(removed, [AddItem(p)]);
    assert [AddItem(p)][1..] == [];
    assert Run(removed, [AddItem(p)]) == Run(Reduce(removed, AddItem(p)), []);
  }
}
