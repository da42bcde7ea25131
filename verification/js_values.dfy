/**
 * The JavaScript values the data service handles: entities, request bodies and
 * server responses. Numbers are integral. Objects are their own enumerable data
 * properties; prototypes, getters and symbol keys are not represented.
 */
module JsValues {
  import opened Decimal

  datatype Value =
    | Undefined
    | Null
    | Bool(b: bool)
    | Num(n: int)
    | Str(s: string)
    | Arr(items: seq<Value>)
    | Obj(fields: map<string, Value>)

  /** JavaScript truthiness, as `x || y` and `x ? y : z` test it. */
  predicate Truthy(v: Value) {
    match v
    case Undefined => false
    case Null => false
    case Bool(b) => b
    case Num(n) => n != 0
    case Str(s) => s != ""
    case Arr(_) => true
    case Obj(_) => true
  }

  /** The loose test `x == null`: true for null and undefined alone. */
  predicate Nullish(v: Value) {
    v.Undefined? || v.Null?
  }

  /** Reading a property `v.name`: an object's own property, otherwise undefined. */
  function Member(v: Value, name: string): Value
  {
    if v.Obj? && name in v.fields then v.fields[name] else Undefined
  }

  /**
   * The own enumerable properties of a sequence of elements, keyed by index:
   * "0" for the first element, "1" for the second, and so on.
   */
  function IndexMap(xs: seq<Value>): (m: map<string, Value>)
    ensures forall i :: 0 <= i < |xs| ==> NatToString(i) in m && m[NatToString(i)] == xs[i]
    ensures forall k :: k in m ==> exists i :: 0 <= i < |xs| && k == NatToString(i)
  {
    NatToStringInjective();
    map i | 0 <= i < |xs| :: NatToString(i) := xs[i]
  }

  /** The properties that `{...v}` copies out of `v`. */
  function Spread(v: Value): (m: map<string, Value>)
    ensures v.Obj? ==> m == v.fields
    ensures v.Arr? ==> forall i :: 0 <= i < |v.items| ==> NatToString(i) in m && m[NatToString(i)] == v.items[i]
    ensures v.Str? ==> forall i :: 0 <= i < |v.s| ==> NatToString(i) in m && m[NatToString(i)] == Str([v.s[i]])
    ensures v.Arr? ==> forall k :: k in m ==> exists i :: 0 <= i < |v.items| && k == NatToString(i)
    ensures v.Str? ==> forall k :: k in m ==> exists i :: 0 <= i < |v.s| && k == NatToString(i)
    ensures !v.Obj? ==> forall k :: k in m ==> AllDigits(k)
    ensures v.Undefined? || v.Null? || v.Bool? || v.Num? ==> m == map[]
  {
    match v
    case Obj(fields) => fields
    case Arr(items) => IndexMap(items)
    case Str(s) => IndexMap(seq(|s|, i requires 0 <= i < |s| => Str([s[i]])))
    case _ => map[]
  }
}
