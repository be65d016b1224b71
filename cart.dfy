/**
  The cart state container of the storefront: the state shape, the actions
  and the reducer `cartReducer` that maps a state and an action to the next
  state. Every operation here is a pure function; the reducer never changes
  the state it is given, it builds a new one.
 */
module Cart {

  /** A product as it is handed to `addToCart`. Only `_id` and `price` are
      interpreted by the cart; every other descriptive field is carried
      through unchanged and is summarised by `details`. Prices are whole
      non-negative amounts (for example cents). */
  datatype Product = Product(id: string, price: nat, details: string)

  /** A cart entry: the product's fields plus the quantity the cart adds. */
  datatype Item = Item(id: string, price: nat, details: string, quantity: int)

  /** The reducer state: the entries keyed by product id, and the ids in the
      order in which they were first added. */
  datatype CartState = CartState(itemsById: map<string, Item>, allItems: seq<string>)

  /** The three actions the reducer knows, and any other action type, which
      it ignores. `UpdateItemQuantity` carries a signed delta. The `kind` of
      `Unrecognized` is never "ADD_ITEM", "REMOVE_ITEM" or
      "UPDATE_ITEM_QUANTITY": an action of one of those types is modelled by
      its own constructor. */
  datatype Action =
    | AddItem(product: Product)
    | RemoveItem(id: string)
    | UpdateItemQuantity(id: string, delta: int)
    | Unrecognized(kind: string)

  /** No id occurs twice. */
  predicate NoDup(ids: seq<string>)
  {
    forall i, j :: 0 <= i < j < |ids| ==> ids[i] != ids[j]
  }

  /** Every listed id has an entry. This is what listing the items needs. */
  ghost predicate Stored(s: CartState)
  {
    forall id :: id in s.allItems ==> id in s.itemsById
  }

  /** The invariant every reachable state keeps: the id list has no
      repeats and holds exactly the keys of the map, every entry is stored
      under its own id, and every quantity is at least one. */
  ghost predicate Valid(s: CartState)
  {
    && NoDup(s.allItems)
    && (forall id :: id in s.allItems <==> id in s.itemsById)
    && (forall id :: id in s.itemsById ==> s.itemsById[id].id == id)
    && (forall id :: id in s.itemsById ==> s.itemsById[id].quantity >= 1)
  }

  /** A repeat-free list loses no freedom from repeats when its head is
      dropped, and the head does not occur again. */
  lemma NoDupTail(ids: seq<string>)
    requires NoDup(ids) && |ids| > 0
    ensures NoDup(ids[1..]) && ids[0] !in ids[1..]
  {
  }

  /** The state the cart starts from: no entries and no ids. */
  function InitialState(): (s: CartState)
    ensures Valid(s)
    ensures |s.allItems| == 0 && |s.itemsById| == 0
  {
    CartState(map[], [])
  }

  /** `ids.filter(itemId => itemId !== id)`: drops every occurrence of `id`
      and keeps the others in their order. */
  function Filter(ids: seq<string>, id: string): (r: seq<string>)
    ensures forall x :: x in r <==> x in ids && x != id
    ensures NoDup(ids) ==> NoDup(r)
    ensures |r| <= |ids|
  {
    if ids == [] then []
    else if ids[0] == id then Filter(ids[1..], id)
    else
      var rest := Filter(ids[1..], id);
      assert NoDup(ids) ==> NoDup([ids[0]] + rest) by {
        if NoDup(ids) {
          NoDupTail(ids);
        }
      }
      [ids[0]] + rest
  }

  /** `Array.from(new Set(ids))`: the ids with every repeat after the first
      occurrence dropped, in first-occurrence order. */
  function Distinct(ids: seq<string>): (r: seq<string>)
    ensures NoDup(r)
    ensures forall x :: x in r <==> x in ids
  {
    if ids == [] then []
    else
      var prefix := Distinct(ids[..|ids| - 1]);
      var last := ids[|ids| - 1];
      if last in prefix then prefix else prefix + [last]
  }

  /** Filtering out an id that does not occur changes nothing. */
  lemma {:induction false} FilterAbsent(ids: seq<string>, id: string)
    requires id !in ids
    ensures Filter(ids, id) == ids
  {
    if ids != [] {
      assert ids[1..] + [] == ids[1..];
      FilterAbsent(ids[1..], id);
      assert [ids[0]] + ids[1..] == ids;
    }
  }

  /** Filtering out the id at position `k` of a repeat-free list removes
      exactly that position: the ids before and after it keep their order. */
  lemma {:induction false} FilterAt(ids: seq<string>, k: nat)
    requires NoDup(ids) && k < |ids|
    ensures Filter(ids, ids[k]) == ids[..k] + ids[k + 1..]
  {
    NoDupTail(ids);
    if k == 0 {
      FilterAbsent(ids[1..], ids[0]);
    } else {
      assert ids[0] != ids[k];
      assert ids[1..][k - 1] == ids[k];
      FilterAt(ids[1..], k - 1);
      assert ids[..k] == [ids[0]] + ids[1..][..k - 1];
      assert ids[k + 1..] == ids[1..][k..];
    }
  }

  /** `Array.from(new Set(ids))` of a repeat-free list is the list itself. */
  lemma {:induction false} DistinctOfNoDup(ids: seq<string>)
    requires NoDup(ids)
    ensures Distinct(ids) == ids
  {
    if ids != [] {
      var prefix := ids[..|ids| - 1];
      assert NoDup(prefix);
      DistinctOfNoDup(prefix);
      assert ids[|ids| - 1] !in prefix;
      assert prefix + [ids[|ids| - 1]] == ids;
    }
  }

  /** Adding an id to a repeat-free list through the `Set` dedup appends it
      when it is new and leaves the list as it was when it is already there. */
  lemma AppendDistinct(ids: seq<string>, id: string)
    requires NoDup(ids)
    ensures Distinct(ids + [id]) == if id in ids then ids else ids + [id]
  {
    assert (ids + [id])[..|ids|] == ids;
    DistinctOfNoDup(ids);
  }

  /** The map without the key `id`: the `Object.entries(...).filter(...)
      .reduce(...)` rebuild, and equally the `{ [id]: _, ...rest }`
      destructuring. */
  function RemoveKey(m: map<string, Item>, id: string): (r: map<string, Item>)
    ensures r.Keys == m.Keys - {id}
    ensures forall k :: k in r ==> r[k] == m[k]
  {
    map k | k in m && k != id :: m[k]
  }

  /** The entry `ADD_ITEM` stores: every field of the new payload, with the
      quantity carried over from an existing entry plus one, or one. */
  function AddedItem(s: CartState, p: Product): Item
  {
    Item(p.id, p.price, p.details,
         if p.id in s.itemsById then s.itemsById[p.id].quantity + 1 else 1)
  }

  /** `cartReducer(state, action)`. */
  function Reduce(s: CartState, a: Action): (r: CartState)
    ensures Valid(s) ==> Valid(r)
  {
    match a
    case AddItem(p) =>
      CartState(s.itemsById[p.id := AddedItem(s, p)], Distinct(s.allItems + [p.id]))
    case RemoveItem(id) =>
      CartState(RemoveKey(s.itemsById, id), Filter(s.allItems, id))
    case UpdateItemQuantity(id, delta) =>
      if id !in s.itemsById then s
      else
        var current := s.itemsById[id];
        var newQuantity := current.quantity + delta;
        if newQuantity <= 0 then
          CartState(RemoveKey(s.itemsById, id), Filter(s.allItems, id))
        else
          CartState(s.itemsById[id := current.(quantity := newQuantity)], s.allItems)
    case Unrecognized(_) => s
  }

  /** The state after dispatching `actions` in order, starting from `s`. */
  function Run(s: CartState, actions: seq<Action>): (r: CartState)
    decreases |actions|
  {
    if actions == [] then s else Run(Reduce(s, actions[0]), actions[1..])
  }
}
