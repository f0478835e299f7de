/** JSON values as Python's `json` module hands them to the handlers. */
module Json {
  import opened Wrappers

  /** A decoded JSON document. Python's `int` and `float` are both `Num`;
      a dict is a finite map from its keys to its values. */
  datatype Value =
    | Null
    | Bool(b: bool)
    | Num(n: real)
    | Str(s: string)
    | Arr(items: seq<Value>)
    | Obj(fields: map<string, Value>)

  /** `json.loads`: the decoder itself is outside the model, so every
      operation that parses takes one of these as a parameter. `None`
      stands for a `JSONDecodeError`. */
  type Parser = string -> Option<Value>

  const EmptyObject: Value := Obj(map[])

  /** `d.get(key, default)` on a dict. */
  function Get(d: map<string, Value>, key: string, default: Value): Value {
    if key in d then d[key] else default
  }

  /** Python's `len()` on a JSON value; `None` where `len` raises `TypeError`. */
  function Len(v: Value): Option<nat> {
    match v
    case Str(s) => Some(|s|)
    case Arr(items) => Some(|items|)
    case Obj(fields) => Some(|fields|)
    case _ => None
  }
}
