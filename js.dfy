/** The JavaScript values the stores and the project service hold: plain
    objects are finite maps from key to value, arrays are sequences.
    Strict equality (===) is structural equality of these values, which is
    what it is for the primitives the code compares (ids, data-URL
    strings, null). */
module Js {

  datatype Option<T> = None | Some(value: T)

  /** How an async call settles: fulfilled with a value, or rejected with
      an Error whose message is given. */
  datatype Outcome<T> = Ok(value: T) | Failed(message: string)

  datatype Value =
    | Undefined
    | Null
    | Bool(b: bool)
    | Num(n: real)
    | Str(s: string)
    | Obj(fields: map<string, Value>)
    | Arr(items: seq<Value>)

  /** A plain object: its own enumerable properties. */
  type Record = map<string, Value>

  /** Reading a property: a missing key reads as undefined. */
  function Get(r: Record, key: string): (v: Value)
    ensures key !in r ==> v == Undefined
    ensures key in r ==> v == r[key]
  {
    if key in r then r[key] else Undefined
  }

  /** ToBoolean: undefined, null, false, 0 and "" are falsy, every object
      and array is truthy. */
  predicate Truthy(v: Value)
  {
    match v
    case Undefined => false
    case Null => false
    case Bool(b) => b
    case Num(n) => n != 0.0
    case Str(s) => s != ""
    case Obj(_) => true
    case Arr(_) => true
  }

  /** The object literal {...base, ...updates}: every key of either,
      the value from updates where both have it. */
  function Spread(base: Record, updates: Record): (r: Record)
    ensures r.Keys == base.Keys + updates.Keys
    ensures forall k :: k in updates ==> r[k] == updates[k]
    ensures forall k :: k in base && k !in updates ==> r[k] == base[k]
  {
    base + updates
  }

  /** The id property of a record. */
  function IdOf(r: Record): Value
  {
    Get(r, "id")
  }

  /** Spreading nothing over a record gives the record back, and spreading
      the same updates twice is spreading them once. */
  lemma SpreadIdempotent(base: Record, updates: Record)
    ensures Spread(Spread(base, updates), updates) == Spread(base, updates)
    ensures Spread(base, map[]) == base
  {
    assert Spread(Spread(base, updates), updates).Keys == Spread(base, updates).Keys;
    assert Spread(base, map[]).Keys == base.Keys;
  }
}
