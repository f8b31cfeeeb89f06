/**
 * The Python values that flow between the warehouse, the action parser and the record store:
 * JSON-like scalars, lists and insertion-ordered dictionaries with string keys, together with
 * Python's truthiness and the `str()` conversion used when a value is stored as text.
 */
module Values {
  import opened Wrappers

  datatype Value =
    | Null                                // None
    | Bool(b: bool)
    | Int(i: int)
    | Float(x: real)
    | Decimal(x: real)                    // decimal.Decimal, as the warehouse returns NUMBER columns
    | Str(s: string)
    | List(items: seq<Value>)
    | Dict(entries: seq<(string, Value)>) // insertion-ordered

  /** Python's `bool(v)`. */
  predicate Truthy(v: Value) {
    match v
    case Null => false
    case Bool(b) => b
    case Int(i) => i != 0
    case Float(x) => x != 0.0
    case Decimal(x) => x != 0.0
    case Str(s) => s != ""
    case List(items) => items != []
    case Dict(entries) => entries != []
  }

  /** Python's `type(v).__name__`, as it appears in an AttributeError message. */
  function TypeName(v: Value): string {
    match v
    case Null => "NoneType"
    case Bool(_) => "bool"
    case Int(_) => "int"
    case Float(_) => "float"
    case Decimal(_) => "Decimal"
    case Str(_) => "str"
    case List(_) => "list"
    case Dict(_) => "dict"
  }

  /**
   * Python's `str(v)`. On a string it is the string itself; the rendering of every other value
   * is the parameter `show`.
   */
  function Text(v: Value, show: Value -> string): string {
    if v.Str? then v.s else show(v)
  }

  /**
   * The column normalisation applied by `save_query_result`: `str(v) if v else None`.
   * The column is null exactly when the value is falsy, and a non-empty string is stored unchanged.
   */
  function Nullable(v: Value, show: Value -> string): (r: Option<string>)
    ensures r.None? <==> !Truthy(v)
    ensures v.Str? && v.s != "" ==> r == Some(v.s)
  {
    if Truthy(v) then Some(Text(v, show)) else None
  }
}
