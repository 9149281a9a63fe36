/** Values shared by the weather client and the weather server: an optional value
    and the decoded JSON data that travels between the model, the tool provider
    and the weather API. */
module Values {

  /** Python's `None` or a present value. */
  datatype Option<+T> = None | Some(value: T) {
    function GetOr(default: T): T {
      match this
      case Some(v) => v
      case None => default
    }
  }

  /** A JSON document as Python's `json` module decodes it: integers and
      floats stay distinct types, objects map keys to values. */
  datatype Value =
    | Null
    | Bool(b: bool)
    | Int(i: int)
    | Float(x: real)
    | Str(s: string)
    | Array(items: seq<Value>)
    | Object(fields: map<string, Value>)

  /** Python's truthiness of an optional string: `None` and `""` are false. */
  predicate IsFalsyText(s: Option<string>) {
    s.None? || s.value == ""
  }
}
