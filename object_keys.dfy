/**
  `itemsById` is a plain object literal, so a lookup `state.itemsById[id]`
  finds not only the object's own keys but also every member it inherits
  from `Object.prototype`, and all of those are truthy. This module states
  the two lookups that the reducer tests for truthiness as they are
  written, exhibits the inputs on which they depart from the own-key
  lookup that `Cart.Reduce` uses, and proves that for every other id the
  two agree.
 */
module ObjectKeys {
  import opened Cart

  /** The names of the members of `Object.prototype`. */
  const InheritedNames: set<string> :=
    {"constructor", "__proto__", "hasOwnProperty", "isPrototypeOf",
     "propertyIsEnumerable", "toLocaleString", "toString", "valueOf",
     "__defineGetter__", "__defineSetter__", "__lookupGetter__", "__lookupSetter__"}

  /** A JavaScript number as far as these paths need one: a whole count, or
      the `NaN` that `undefined + n` gives. */
  datatype Quantity = Count(n: int) | NaN

  /** What the invariant and the total see of a state: the quantity stored
      under each key of `itemsById`, and the id list. */
  datatype Shape = Shape(quantities: map<string, Quantity>, ids: seq<string>)

  /** The quantity stored under each key of `m`. */
  function Quantities(m: map<string, Item>): (r: map<string, Quantity>)
    ensures r.Keys == m.Keys
    ensures forall k :: k in r ==> r[k] == Count(m[k].quantity)
  {
    map k | k in m :: Count(m[k].quantity)
  }

  /** `state.itemsById[id]` tested for truthiness: an own key, or an
      inherited member. */
  predicate FoundAsWritten(m: map<string, Item>, id: string)
  {
    id in m || id in InheritedNames
  }

  /** The quantity ADD_ITEM stores, as written: a found entry's quantity
      plus one, or 1. An inherited member has no `quantity`, so the sum is
      `NaN`. */
  function AddQuantityAsWritten(s: CartState, id: string): Quantity
  {
    if !FoundAsWritten(s.itemsById, id) then Count(1)
    else if id in s.itemsById then Count(s.itemsById[id].quantity + 1)
    else NaN
  }

  /** The shape UPDATE_ITEM_QUANTITY leaves, as written: nothing happens when
      the lookup is falsy; otherwise the new quantity is the found entry's
      quantity plus the delta (`NaN` for an inherited member), a quantity
      at most 0 removes the id, and anything else, `NaN` included since
      `NaN <= 0` is false, is stored under the id while the list is kept.
      The other fields of the entries are not part of the shape. */
  function UpdateShapeAsWritten(s: CartState, id: string, delta: int): Shape
  {
    var quantities := Quantities(s.itemsById);
    if !FoundAsWritten(s.itemsById, id) then Shape(quantities, s.allItems)
    else
      var q := if id in s.itemsById then Count(s.itemsById[id].quantity + delta) else NaN;
      if q.Count? && q.n <= 0 then
        Shape(map k | k in quantities && k != id :: quantities[k], Filter(s.allItems, id))
      else Shape(quantities[id := q], s.allItems)
  }

  /** The shape of a state. */
  function ShapeOf(s: CartState): Shape
  {
    Shape(Quantities(s.itemsById), s.allItems)
  }

  /** Updating the inherited name "toString" on the empty cart, as written,
      stores `NaN` under a key that the id list does not hold, so the
      key-set invariant breaks; the own-key reducer leaves the cart empty. */
  lemma UpdateInheritedAsWritten()
    ensures UpdateShapeAsWritten(InitialState(), "toString", 1) == Shape(map["toString" := NaN], [])
    ensures "toString" !in Reduce(InitialState(), UpdateItemQuantity("toString", 1)).itemsById
    ensures Reduce(InitialState(), UpdateItemQuantity("toString", 1)) == InitialState()
  {
  }

  /** Adding the inherited name "constructor" to the empty cart, as written,
      stores the quantity `NaN`; the own-key reducer stores 1. */
  lemma AddInheritedAsWritten(p: Product)
    requires p.id == "constructor"
    ensures AddQuantityAsWritten(InitialState(), p.id) == NaN
    ensures Reduce(InitialState(), AddItem(p)).itemsById[p.id].quantity == 1
  {
  }

  /** For every id that does not name an inherited member, the lookups as
      written and the own-key lookups of `Cart.Reduce` agree: same truthiness,
      same stored quantity on ADD_ITEM, same shape after
      UPDATE_ITEM_QUANTITY. */
  lemma AgreesOffPrototype(s: CartState, p: Product, id: string, delta: int)
    requires p.id !in InheritedNames && id !in InheritedNames
    ensures FoundAsWritten(s.itemsById, id) <==> id in s.itemsById
    ensures AddQuantityAsWritten(s, p.id) == Count(Reduce(s, AddItem(p)).itemsById[p.id].quantity)
    ensures UpdateShapeAsWritten(s, id, delta) == ShapeOf(Reduce(s, UpdateItemQuantity(id, delta)))
  {
  }
}
