/** JavaScript values as they arrive from JSON or as `any`, with the JavaScript reading of them. */
module Json {
  import opened Wrappers
  import JsBuiltins

  /** Numbers are integral here; see README for what that leaves out. */
  datatype Value =
    | Null
    | Bool(b: bool)
    | Number(n: int)
    | Str(s: string)
    | Array(items: seq<Value>)
    | Object(fields: map<string, Value>)

  /** JavaScript truthiness of a value that may be `undefined` (`None`). */
  predicate Truthy(v: Option<Value>)
  {
    match v
    case None => false
    case Some(Null) => false
    case Some(Bool(b)) => b
    case Some(Number(n)) => n != 0
    case Some(Str(s)) => s != ""
    case Some(Array(_)) => true
    case Some(Object(_)) => true
  }

  /** The property read `v?.key`: `undefined` unless `v` is an object holding `key`. */
  function Get(v: Option<Value>, key: string): (r: Option<Value>)
    ensures r.Some? <==> v.Some? && v.value.Object? && key in v.value.fields
  {
    if v.Some? && v.value.Object? && key in v.value.fields then Some(v.value.fields[key]) else None
  }

  /** `String(v)`, as a template literal `${v}` renders it. */
  function ToText(v: Value): string
  {
    match v
    case Null => "null"
    case Bool(b) => if b then "true" else "false"
    case Number(n) => JsBuiltins.NumberToString(n)
    case Str(s) => s
    case Array(items) => JoinWithCommas(seq(|items|, i requires 0 <= i < |items| => if items[i].Null? then "" else ToText(items[i])))
    case Object(_) => "[object Object]"
  }

  /** `Array.prototype.join(",")` on already converted elements. */
  function JoinWithCommas(parts: seq<string>): string
  {
    if parts == [] then "" else if |parts| == 1 then parts[0] else parts[0] + "," + JoinWithCommas(parts[1..])
  }
}
