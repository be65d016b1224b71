# Cart state container, modelled in Dafny

This project models the shopping-cart state of a small storefront UI. The
state lives in `src/state/CartProvider.jsx`. It has two parts:

- `cartReducer` is a total transition function over a state
  `{ itemsById, allItems }`. `itemsById` maps a product `_id` to its cart
  entry. `allItems` lists the ids in the order they were first added. The
  reducer handles `ADD_ITEM`, `REMOVE_ITEM`, `UPDATE_ITEM_QUANTITY`, and a
  default branch that returns the state unchanged.
- `getCartItems` and `getCartTotal` are the provider's two queries. The
  first lists the entries in `allItems` order. The second sums price times
  quantity over that list.

The source is pure: the reducer builds every new state from spreads,
`filter`, a `Set` dedup and destructuring. So the model is pure too. It has
datatypes, functions and lemmas, in three modules:

- `Cart` (`cart.dfy`) holds the state, the actions and `Reduce`, the
  reducer. It also models the list and map primitives the reducer uses:
  `Filter` for `Array.prototype.filter`, `Distinct` for
  `Array.from(new Set(...))`, and `RemoveKey` for the map rebuild and the
  rest-destructuring. `Valid` is the state invariant:
  - `allItems` has no repeats;
  - `allItems` holds exactly the keys of `itemsById`;
  - each entry is stored under its own `_id`;
  - every quantity is at least 1.
- `CartLaws` (`cart_laws.dfy`) states what each action does and the laws
  that follow from that. Every reachable state is valid. Removal is
  idempotent. Quantities floor at zero. `n` adds give quantity `n`. An id
  that is removed and then added again goes to the end of the list.
- `CartQueries` (`cart_queries.dfy`) holds `CartItems` and `CartTotal`.
  `CartTotal` is modelled as the left-to-right `reduce` it is in the source.
  A lemma proves it equal to an independent sum. Other lemmas give the
  change in the total caused by each action, including an update that
  removes the item. Four scenarios, each stated
  for arbitrary products and ids, close the module.
- `ObjectKeys` (`object_keys.dfy`) models the truthiness lookups of lines 28
  and 49 as they are written, on a plain object that also inherits the
  members of `Object.prototype`. It shows where they depart from the
  own-key lookup of `Reduce`, and proves that the two agree for every
  other id (see "## Findings"). This second model keeps only what the
  findings need:
  - `FoundAsWritten` is the truthiness test of lines 28 and 50: an own key,
    or an inherited member name.
  - `AddQuantityAsWritten` keeps only the quantity `ADD_ITEM` stores (lines
    28-30). That quantity is `NaN` when an inherited member is found.
  - `UpdateShapeAsWritten` keeps the quantity stored under each key and the
    id list after `UPDATE_ITEM_QUANTITY` (lines 49-74). `NaN` can be one of
    those quantities. The entries' other fields are not part of it.

On a repeated `ADD_ITEM` the entry is rebuilt from the new payload
(`...payload`, line 27), and only the quantity is carried over. So the
stored price and the other fields follow the latest add, not the first.
`AddExistingItem` and `TotalAfterAddExisting` state this.

## Model

| member | source | states |
|---|---|---|
| Cart.InitialState | src/state/CartProvider.jsx:7-10 | the initial state is empty and satisfies the cart invariant |
| Cart.Reduce | src/state/CartProvider.jsx:18-79 | every action, including an unknown type, maps a valid state to a valid state (no repeated ids, ids are exactly the keys, entries stored under their own id, quantities at least 1) |
| Cart.Filter | src/state/CartProvider.jsx:45 | the filtered id list holds exactly the ids other than the removed one, never grows, and stays repeat-free |
| Cart.FilterAbsent | src/state/CartProvider.jsx:45 | filtering out an id that does not occur returns the list unchanged |
| Cart.FilterAt | src/state/CartProvider.jsx:45 | filtering out the id at position k of a repeat-free list drops exactly that position, so the rest keep their order |
| Cart.Distinct | src/state/CartProvider.jsx:33 | the `Set` dedup yields a repeat-free list with the same members as its input |
| Cart.DistinctOfNoDup | src/state/CartProvider.jsx:33 | the dedup of a repeat-free list is the list itself |
| Cart.AppendDistinct | src/state/CartProvider.jsx:33 | deduping a repeat-free list plus one id appends the id if it is new, and otherwise leaves the list as it was (first position kept) |
| Cart.RemoveKey | src/state/CartProvider.jsx:39-44 | the rebuilt map has exactly the old keys minus the removed id, each with its old entry |
| CartLaws.AddNewItem | src/state/CartProvider.jsx:21-34 | adding a new id stores the payload with quantity 1 and appends the id at the end of the list |
| CartLaws.AddExistingItem | src/state/CartProvider.jsx:26-33 | adding an id already present stores the new payload's fields with the old quantity plus 1; the id list is unchanged |
| CartLaws.RemovePresentItem | src/state/CartProvider.jsx:36-46 | removing the id at position k deletes its key, keeps every other entry, and drops exactly position k from the list |
| CartLaws.RemoveAbsentItem | src/state/CartProvider.jsx:36-46 | removing an id that is not in a valid cart returns the same state |
| CartLaws.RemoveIdempotent | src/state/CartProvider.jsx:36-46 | removing an id twice gives the same state as removing it once, from any state |
| CartLaws.UpdateAbsentItem | src/state/CartProvider.jsx:49-52 | a quantity update for an id that is not present returns the state unchanged |
| CartLaws.UpdateToNonPositiveRemoves | src/state/CartProvider.jsx:54-62 | an update whose new quantity is at most 0 has exactly the effect of removing the item |
| CartLaws.UpdateToPositiveSets | src/state/CartProvider.jsx:65-74 | an update whose new quantity is positive sets that quantity and changes no other field, no other item and not the id list |
| CartLaws.UpdateFloor | src/state/CartProvider.jsx:54-74 | a delta of minus the quantity removes the item; a delta one short of that leaves quantity 1 |
| CartLaws.UnrecognizedIsNoOp | src/state/CartProvider.jsx:76-77 | an unknown action type returns the state unchanged |
| CartLaws.RunPreservesValid | src/state/CartProvider.jsx:18-79 | any sequence of actions applied to a valid state yields a valid state |
| CartLaws.ReachableIsValid | src/state/CartProvider.jsx:7-79 | every state reached from the initial state by any sequence of actions satisfies the invariant |
| CartLaws.RepeatedAdd | src/state/CartProvider.jsx:26-33 | n adds of one product raise its quantity by n (from 0 when it was absent) and append its id only if it was absent |
| CartLaws.RemoveThenAddAppends | src/state/CartProvider.jsx:21-46 | in any valid cart, removing an id and then adding that product puts its id at the end of the list, with quantity 1 |
| CartQueries.CartItems | src/state/CartProvider.jsx:101-103 | the listing has one item per listed id; in a valid cart the i-th item carries the i-th id and a quantity of at least 1 |
| CartQueries.CartItemsAreTheEntries | src/state/CartProvider.jsx:101-103 | in a valid cart the listing is the entry of each id in list order, contains every stored entry, and has as many items as entries |
| CartQueries.CartTotal | src/state/CartProvider.jsx:97-99 | the total of an empty cart is 0 |
| CartQueries.AccumulateIsSum | src/state/CartProvider.jsx:98 | the `reduce` starting from an accumulator adds the sum of price times quantity to it |
| CartQueries.CartTotalIsSum | src/state/CartProvider.jsx:97-103 | the total equals the sum of price times quantity over the listed items |
| CartQueries.CartTotalNonNegative | src/state/CartProvider.jsx:97-103 | the total of a valid cart is never negative |
| CartQueries.TotalAfterAddNew | src/state/CartProvider.jsx:21-34 | adding a new product raises the total by its price |
| CartQueries.TotalAfterAddExisting | src/state/CartProvider.jsx:26-33 | adding a product already present replaces its line by the new price times the old quantity plus 1 |
| CartQueries.TotalAfterRemove | src/state/CartProvider.jsx:36-46 | removing an item lowers the total by its line; removing an absent id leaves the total unchanged |
| CartQueries.TotalAfterUpdate | src/state/CartProvider.jsx:65-74 | an update that keeps the quantity positive changes the total by price times delta |
| CartQueries.TotalAfterUpdateRemoves | src/state/CartProvider.jsx:54-62 | an update that brings the quantity to 0 or below lowers the total by the item's whole line |
| CartLaws.AddToEmpty | src/state/CartProvider.jsx:7-34 | adding any product to the initial state gives a cart holding just that product, with quantity 1 |
| CartQueries.SingleEntryQueries | src/state/CartProvider.jsx:97-103 | a cart with one entry lists exactly that entry, and its total is that entry's price times quantity |
| CartQueries.AddTwiceState | src/state/CartProvider.jsx:7-34 | two adds of the same product to the initial state leave one entry with quantity 2 and a one-id list |
| CartQueries.ScenarioAddTwice | src/state/CartProvider.jsx:18-103 | two adds of any product list one item with quantity 2, and the total is twice its price |
| CartQueries.RemoveFirstOfTwo | src/state/CartProvider.jsx:36-46 | removing the first id of a valid two-entry cart leaves only the second entry and its id |
| CartQueries.RemoveFirstState | src/state/CartProvider.jsx:7-46 | adding two products with different ids and removing the first leaves only the second, with quantity 1 |
| CartQueries.ScenarioRemoveFirst | src/state/CartProvider.jsx:18-103 | after adding two products with different ids and removing the first, only the second is listed and the total is its price |
| CartQueries.ScenarioDecrementToEmpty | src/state/CartProvider.jsx:18-103 | adding any product once and updating it by -1 empties the listing, and the total is 0 |
| CartQueries.ScenarioUpdateUnknown | src/state/CartProvider.jsx:48-52 | updating any id outside `ObjectKeys.InheritedNames` by any delta on the initial state leaves the initial state and an empty listing |
| ObjectKeys.UpdateInheritedAsWritten | src/state/CartProvider.jsx:49-74 | as written, updating "toString" on the empty cart stores quantity NaN under the key "toString" while the id list stays empty; the own-key reducer leaves the empty cart |
| ObjectKeys.AddInheritedAsWritten | src/state/CartProvider.jsx:26-30 | as written, adding "constructor" to the empty cart stores the quantity NaN; the own-key reducer stores 1 |
| ObjectKeys.AgreesOffPrototype | src/state/CartProvider.jsx:26-74 | for ids that are not inherited member names, the lookups as written and the own-key reducer agree on truthiness, on the quantity ADD_ITEM stores, and on the quantity under every key and the list UPDATE_ITEM_QUANTITY leaves |

## Left out

- React wiring is not modelled. This covers the context, `useReducer`,
  `useContext`, the `CartProvider` component, its JSX, and the
  `addToCart` / `removeFromCart` / `updateItemQuantity` dispatch wrappers
  (lines 1-4, 82-95, 105-123). The model is the reducer they dispatch to.
  `Run` stands for a sequence of dispatches.
- `src/components/PurchaseForm.jsx` and `src/components/Orders.jsx` are not
  part of this model. They are form and table components around network
  requests.
- Prices are whole non-negative numbers (for example cents), not JavaScript
  floating-point numbers. So the total is an exact integer sum, and rounding
  in the float accumulation of line 98 is not modelled.
- Ids are strings. `REMOVE_ITEM` compares the string keys of
  `Object.entries` with the raw `_id` using `!==` (line 40). So a numeric id
  would stay in `itemsById` while it is filtered out of `allItems`. The model
  does not capture that quirk.
- The pass-through product fields spread from the payload (line 27) are
  summarised by one opaque `details` field.
- `RemoveItem` carries only the id. The source passes a whole product, but
  reads only its `_id`.
- The quantity delta is a whole number (`int`). The source does not check
  `payload.quantity` (line 54). For other values it behaves as follows,
  and the model covers none of them:
  - `undefined` makes the new quantity `NaN`. `NaN <= 0` is false, so `NaN`
    is stored.
  - A string concatenates: quantity 1 and `"2"` give `"12"`. `"12" <= 0` is
    false, so the string is stored.
  - `null` adds 0, so the quantity is unchanged.
  - A fraction passes the `<= 0` test. A delta of -0.5 on quantity 1 stores
    0.5, which is below the quantity of at least 1 that `Valid` states.
- Quantities and deltas are unbounded integers, and sums of them are exact.
  JavaScript numbers are doubles, exact for whole numbers only up to 2^53.
  Beyond that the sums of lines 29 and 54 round: 2^53 + 1 gives 2^53. So
  with a quantity of 2^53, a further `ADD_ITEM` stores 2^53 in the source
  and 2^53 + 1 in the model. The members below state exact sums, so they
  do not describe the source at that size:
- AddExistingItem: the old quantity plus 1 is exact only while it stays
  within 2^53.
- RepeatedAdd: the quantity raised by n is exact only while it stays
  within 2^53.
- UpdateToPositiveSets: the quantity plus the delta is exact only while
  both and the sum stay within 2^53.
- TotalAfterUpdate: the change of price times delta is exact only while the
  quantities stay within 2^53, and the float total of line 98 is not
  modelled at all (see the prices line above).
- Ids are strings that do not name a member of `Object.prototype`
  (`ObjectKeys.InheritedNames`). For such a name the source goes elsewhere:
  - the lookups of lines 28 and 49 find the inherited member, so
    `ADD_ITEM` stores the quantity `NaN`;
  - `UPDATE_ITEM_QUANTITY` of such an absent id writes a `NaN` entry under a
    key that `allItems` does not hold;
  - in `REMOVE_ITEM`, `obj[key] = value` (line 42) with the key
    `"__proto__"` sets the rebuilt object's prototype instead of adding a
    key.

  `ObjectKeys` records the first two (see "## Findings"). The `__proto__`
  assignment is not modelled.
- CartItems: requires every listed id to have an entry. For an id without
  an entry, the source would put `undefined` in the list and `getCartTotal`
  would fail on it. No state reachable through the reducer has such an id
  (`ReachableIsValid`). The `?? []` fallback of line 102 never applies,
  because `map` always returns an array.
- The stored entry is a value. Identity of the objects the reducer creates
  is not modelled, and neither is React's check for whether the state
  changed.

## Findings

| source | as written | input that shows it | evidently intended | confidence | as-written member | corrected member |
|---|---|---|---|---|---|---|
| src/state/CartProvider.jsx:49-52 | `!state.itemsById[payload._id]` is false for any name inherited from `Object.prototype`, so the "item doesn't exist" return is skipped | `UPDATE_ITEM_QUANTITY` with `_id` "toString" and quantity 1 on the initial state: the result has the key "toString" with quantity `NaN`, while `allItems` stays empty | an id without an entry of its own leaves the state unchanged | not executed; follows from JavaScript property lookup | ObjectKeys.UpdateInheritedAsWritten | CartLaws.UpdateAbsentItem |
| src/state/CartProvider.jsx:28-30 | the truthiness test finds an inherited member, and `undefined + 1` is `NaN` | `ADD_ITEM` with `_id` "constructor" on the initial state stores quantity `NaN` | a new id is stored with quantity 1 | not executed; follows from JavaScript property lookup | ObjectKeys.AddInheritedAsWritten | CartLaws.AddNewItem |
