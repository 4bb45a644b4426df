/** Shared vocabulary of the model: optional values, value-or-error results,
    Go's nil-or-error status, and the dynamically typed scalars that appear
    in YAML settings maps and decoded JSON bodies. */
module Common {

  datatype Option<+T> = None | Some(value: T)

  /** A value, or the message of the Go `error` returned in its place. */
  datatype Result<+T> = Ok(value: T) | Err(error: string)

  /** The `error` result of an operation that returns nothing else:
      `Nil` is Go's `nil`. */
  datatype Status = Nil | Error(message: string)

  /** A scalar as decoded into an `interface{}` from YAML or JSON. */
  datatype Value = Str(s: string) | Int(i: int) | Bool(b: bool) | Other

  /** Go's comma-ok assertion `m[key].(string)`: the string when the key is
      present and holds a string, otherwise the zero value "". */
  function StringSetting(m: map<string, Value>, key: string): (r: string)
    ensures r != "" ==> key in m && m[key] == Str(r)
    ensures key in m && m[key].Str? ==> r == m[key].s
  {
    if key in m && m[key].Str? then m[key].s else ""
  }

  /** A failed lookup becomes the empty string, as the daemon does with
      resolver errors. */
  function OrEmpty(r: Result<string>): (s: string)
    ensures r.Ok? ==> s == r.value
    ensures r.Err? ==> s == ""
  {
    if r.Ok? then r.value else ""
  }
}
