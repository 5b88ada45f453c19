/** The JavaScript values that the modelled code inspects, and JavaScript truthiness. */
module JsValues {

  /**
   * A JavaScript value. Numbers are integers: no code in this model reaches a
   * fractional number, and NaN is represented as `None` by the parsers that can
   * produce it. Object keys are kept in a map: key order is not modelled.
   */
  datatype JsValue =
    | Undefined
    | Null
    | Bool(b: bool)
    | Num(n: int)
    | Str(s: string)
    | Arr(items: seq<JsValue>)
    | Obj(fields: map<string, JsValue>)

  /** `Boolean(v)`: false exactly for undefined, null, false, 0 and the empty string. */
  predicate Truthy(v: JsValue)
  {
    match v
    case Undefined => false
    case Null => false
    case Bool(b) => b
    case Num(n) => n != 0
    case Str(s) => s != ""
    case Arr(_) => true
    case Obj(_) => true
  }

  /** A string-valued field `o[key]`, read from an object held as a map. */
  function Field(o: map<string, JsValue>, key: string): (v: JsValue)
    ensures key !in o ==> v == Undefined
  {
    if key in o then o[key] else Undefined
  }

  /** An object whose every value is a string: `{ [k]: m[k] }`. */
  function StringObject(m: map<string, string>): (o: JsValue)
    ensures o.Obj? && o.fields.Keys == m.Keys
    ensures forall k :: k in m ==> o.fields[k] == Str(m[k])
  {
    Obj(map k | k in m :: Str(m[k]))
  }
}
