/**
 * The JavaScript values the plugin reads from the service configuration and
 * writes into the CloudFormation template, as an immutable JSON-like tree.
 */
module Json {

  /**
   * `Null` stands for both `null` and `undefined`: both are falsy, and a
   * property read on either throws. Numbers are integers; fractional
   * numbers and NaN do not occur in the configuration the plugin reads.
   */
  datatype Value =
    | Null
    | Bool(b: bool)
    | Num(n: int)
    | Str(s: string)
    | Arr(items: seq<Value>)
    | Obj(fields: map<string, Value>)

  /** JavaScript truthiness: false, 0, "", null and undefined are falsy. */
  predicate Truthy(v: Value)
  {
    match v
    case Null => false
    case Bool(b) => b
    case Num(n) => n != 0
    case Str(s) => s != ""
    case Arr(_) => true
    case Obj(_) => true
  }

  /** `typeof v === 'object'` for a value that is not null. */
  predicate IsObject(v: Value)
  {
    v.Arr? || v.Obj?
  }

  /**
   * The property read `v[key]` on a value that is not null or undefined:
   * an own field of an object, the `length` of a string or array, and
   * `undefined` otherwise.
   */
  function Get(v: Value, key: string): Value
  {
    match v
    case Obj(m) => if key in m then m[key] else Null
    case Str(s) => if key == "length" then Num(|s|) else Null
    case Arr(xs) => if key == "length" then Num(|xs|) else Null
    case _ => Null
  }

  /** A field of an object given as its field map, `undefined` when missing. */
  function Lookup(m: map<string, Value>, key: string): Value
  {
    Get(Obj(m), key)
  }

  /** An array of strings. */
  function StrArr(ss: seq<string>): (r: Value)
    ensures r.Arr? && |r.items| == |ss|
    ensures forall i :: 0 <= i < |ss| ==> r.items[i] == Str(ss[i])
  {
    Arr(seq(|ss|, i requires 0 <= i < |ss| => Str(ss[i])))
  }
}
