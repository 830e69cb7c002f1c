/** The notetaker flag map shared by the events and login pages: event id to
    enabled. The map is a plain JavaScript object, so a lookup of an id it
    does not hold falls through to the names every object inherits. */
module Flags {

  type FlagMap = map<string, bool>

  /** `{...prev, [id]: v}`. */
  function SetFlag(flags: FlagMap, id: string, v: bool): FlagMap
  {
    flags[id := v]
  }

  /** The properties of `Object.prototype`. Each is a function or an object,
      so reading one through a plain object gives a truthy value. */
  const ObjectPrototypeNames: set<string> := {
    "constructor", "hasOwnProperty", "isPrototypeOf", "propertyIsEnumerable",
    "toLocaleString", "toString", "valueOf", "__proto__",
    "__defineGetter__", "__defineSetter__", "__lookupGetter__", "__lookupSetter__"
  }

  /** `!!flags[id]`: the checkbox of event `id` is ticked. An own entry
      decides; otherwise the lookup reaches `Object.prototype`. */
  predicate IsChecked(flags: FlagMap, id: string)
  {
    if id in flags then flags[id] else id in ObjectPrototypeNames
  }

  /** An id missing from the map shows as unchecked, unless it names an
      inherited property. */
  lemma AbsentIsUnchecked(flags: FlagMap, id: string)
    requires id !in flags && id !in ObjectPrototypeNames
    ensures !IsChecked(flags, id)
  {
  }

  /** An absent id that names an inherited property shows as ticked: an
      event with id "constructor" is ticked before any toggle. */
  lemma InheritedNameIsChecked(flags: FlagMap, id: string)
    requires id !in flags && id in ObjectPrototypeNames
    ensures IsChecked(flags, id)
  {
  }

  /** Setting a flag changes the checkbox of that id to the new value and the
      entry of no other id. */
  lemma SetFlagChangesOnlyId(flags: FlagMap, id: string, v: bool)
    ensures IsChecked(SetFlag(flags, id, v), id) == v
    ensures SetFlag(flags, id, v).Keys == flags.Keys + {id}
    ensures forall k :: k != id && k in flags ==> SetFlag(flags, id, v)[k] == flags[k]
    ensures forall k :: k != id ==> (IsChecked(SetFlag(flags, id, v), k) <==> IsChecked(flags, k))
  {
  }

  /** Setting the same id to the same value twice is setting it once. */
  lemma SetFlagIdempotent(flags: FlagMap, id: string, v: bool)
    ensures SetFlag(SetFlag(flags, id, v), id, v) == SetFlag(flags, id, v)
  {
  }
}
