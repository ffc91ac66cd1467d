/**
 * PHP values as the SDK sees them: what `json_decode($body, true)` produces,
 * what the SDK stores in its fields and what it puts into a JSON body, with
 * PHP's truthiness and `isset` rules over them.
 */
module Values {
  import opened Wrappers

  /** A decoded JSON value (floats are not modelled). A JSON object is a PHP associative array. */
  datatype Value =
    | Null
    | Bool(b: bool)
    | Int(i: int)
    | Str(s: string)
    | List(items: seq<Value>)
    | Object(fields: map<string, Value>)

  /** PHP truthiness of a string: the empty string and "0" are false. */
  predicate Filled(s: string) {
    s != "" && s != "0"
  }

  /** PHP truthiness of a value (`if ($v)`, `!empty($v)`). */
  predicate Truthy(v: Value) {
    match v
    case Null => false
    case Bool(b) => b
    case Int(i) => i != 0
    case Str(s) => Filled(s)
    case List(items) => |items| > 0
    case Object(fields) => |fields| > 0
  }

  /** `$m[$key]`: the entry, or null when the key is missing. */
  function Lookup(m: map<string, Value>, key: string): Value {
    if key in m then m[key] else Null
  }

  /** `isset($m[$key])`: the key is present and its value is not null. */
  predicate Isset(m: map<string, Value>, key: string) {
    Lookup(m, key) != Null
  }

  /** `$v[$key]` on a value that may not be an array: null unless `v` is an object holding the key. */
  function Member(v: Value, key: string): Value {
    if v.Object? then Lookup(v.fields, key) else Null
  }

  /** A string or null, as a value. */
  function Nullable(o: Option<string>): Value {
    match o
    case None => Null
    case Some(s) => Str(s)
  }

  /**
   * One entry of a query-string array such as `$_GET["_ukey1"]`: PHP delivers
   * either a string or a nested array.
   */
  datatype QueryValue = Scalar(text: string) | Nested(entries: map<string, QueryValue>)
}
