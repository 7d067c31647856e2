/**
 * The JavaScript values that flow through the request layer: configuration
 * objects, headers, query variables and response-node fragments.
 * Plain objects are maps from property name to value; numbers are integers
 * or NaN.
 */
module JsValues {
  import opened Wrappers
  import opened Text

  datatype Value =
    | Undefined
    | Null
    | Bool(b: bool)
    | Num(n: int)
    | NaN
    | Str(s: string)
    | Arr(items: seq<Value>)
    | Obj(fields: map<string, Value>)  // a plain object, tagged '[object Object]'
    | Func(source: string)             // a function, known by its source text

  /** The only error the modelled code raises on its own: reading a property of null or undefined. */
  datatype JsError = TypeError

  /** JavaScript truthiness: everything but undefined, null, false, 0, NaN and "". */
  predicate Truthy(v: Value)
  {
    match v
    case Undefined => false
    case Null => false
    case Bool(b) => b
    case Num(n) => n != 0
    case NaN => false
    case Str(s) => s != ""
    case _ => true
  }

  /** The `typeof` operator. */
  function TypeOf(v: Value): string
  {
    match v
    case Undefined => "undefined"
    case Bool(_) => "boolean"
    case Num(_) => "number"
    case NaN => "number"
    case Str(_) => "string"
    case Func(_) => "function"
    case _ => "object"
  }

  /** `v || d`. */
  function Or(v: Value, d: Value): Value
  {
    if Truthy(v) then v else d
  }

  /** Own enumerable properties: an object's fields, the indices of an array or a string. */
  function OwnEntries(v: Value): map<string, Value>
  {
    match v
    case Obj(f) => f
    case Arr(items) => ArrayEntries(items, 0)
    case Str(s) => StringEntries(s, 0)
    case _ => map[]
  }

  /** The index properties `from`, `from + 1`, ... of an array. */
  function ArrayEntries(items: seq<Value>, from: nat): map<string, Value>
    decreases |items| - from
  {
    if from >= |items| then map[] else ArrayEntries(items, from + 1)[NatText(from) := items[from]]
  }

  /** The index properties `from`, `from + 1`, ... of a string: its one-character substrings. */
  function StringEntries(s: string, from: nat): map<string, Value>
    decreases |s| - from
  {
    if from >= |s| then map[] else StringEntries(s, from + 1)[NatText(from) := Str([s[from]])]
  }

  /** `v[key]` on a value whose properties can be read, ignoring properties inherited from a prototype. */
  function Prop(v: Value, key: string): Value
  {
    Get(OwnEntries(v), key)
  }

  /** `v[key]`, which throws on null and undefined. */
  function GetProp(v: Value, key: string): (r: Result<Value, JsError>)
    ensures r.Err? <==> v == Undefined || v == Null
    ensures r.Ok? ==> r.value == Prop(v, key)
  {
    if v == Undefined || v == Null then Err(TypeError) else Ok(Prop(v, key))
  }

  /** `m[key]` for a map known to be an object. */
  function Get(m: map<string, Value>, key: string): Value
  {
    if key in m then m[key] else Undefined
  }

  /** `String(v)`, the text JavaScript substitutes for `v` in a template or a concatenation. */
  function ToText(v: Value): string
  {
    match v
    case Undefined => "undefined"
    case Null => "null"
    case Bool(b) => if b then "true" else "false"
    case Num(n) => IntText(n)
    case NaN => "NaN"
    case Str(s) => s
    case Arr(items) =>
      Join(seq(|items|, i requires 0 <= i < |items| =>
        if items[i] == Undefined || items[i] == Null then "" else ToText(items[i])), ",")
    case Obj(_) => "[object Object]"
    case Func(source) => source
  }

  /** The numeric value `+` gives a primitive that is not a string. */
  function ToNumber(v: Value): Value
  {
    match v
    case Null => Num(0)
    case Bool(b) => Num(if b then 1 else 0)
    case Num(n) => Num(n)
    case _ => NaN
  }

  /** The binary `+` operator: concatenation when either side is a string or an object, else addition. */
  function Plus(a: Value, b: Value): (r: Value)
    ensures a.Str? && b.Str? ==> r == Str(a.s + b.s)
  {
    if a.Str? || b.Str? || a.Arr? || b.Arr? || a.Obj? || b.Obj? || a.Func? || b.Func? then
      Str(ToText(a) + ToText(b))
    else
      match (ToNumber(a), ToNumber(b))
      case (Num(x), Num(y)) => Num(x + y)
      case _ => NaN
  }

  /** A JavaScript object that the modelled code updates in place, seen by every holder of a reference. */
  class JsObject {
    var fields: map<string, Value>

    constructor (fields: map<string, Value>)
      ensures this.fields == fields
    {
      this.fields := fields;
    }
  }
}
