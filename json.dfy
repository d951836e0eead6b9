/**
 * JSON values as Python's `json` module hands them to the backend (dicts, lists, strings,
 * numbers, booleans, None), and the properties of `json.dumps` / `json.loads` the model relies on.
 * The parser and printer themselves live outside the repository; they appear here only as
 * function parameters.
 */
module Json {
  import opened Wrappers
  import Text

  datatype Value =
    | Null
    | Bool(b: bool)
    | Num(n: int)
    | Str(s: string)
    | Arr(items: seq<Value>)
    | Obj(fields: map<string, Value>)

  /** Python's `bool(v)`: None, False, 0, "", [] and {} are false. */
  predicate Truthy(v: Value) {
    match v
    case Null => false
    case Bool(b) => b
    case Num(n) => n != 0
    case Str(s) => s != ""
    case Arr(items) => items != []
    case Obj(fields) => fields != map[]
  }

  /** `d.get(key)` on a dict: the value, or None when the key is missing. */
  function Get(fields: map<string, Value>, key: string): Option<Value> {
    if key in fields then Some(fields[key]) else None
  }

  /**
   * What the backend assumes of `json.dumps` (encode) and `json.loads` (decode): decoding a
   * dumped value gives it back, and a dumped value is one non-empty line without surrounding
   * whitespace.
   */
  ghost predicate IsCodec(encode: Value -> string, decode: string -> Option<Value>) {
    forall v: Value ::
      && decode(encode(v)) == Some(v)
      && encode(v) != []
      && '\n' !in encode(v)
      && Text.Trimmed(encode(v))
  }
}
