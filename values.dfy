/** Dynamic values: the part of Go's `interface{}` that this model moves around.
    Configuration read from YAML yields scalars and nested maps; everything a
    handler or a session stores is either one of those or an opaque value the
    framework only passes along. */
module Values {

  datatype Option<+T> = None | Some(value: T)

  datatype Value =
    | Nil
    | Bool(b: bool)
    | Int(i: int)
    | Str(s: string)
    | Dict(entries: map<string, Value>)
    | Opaque(id: nat)

  /** A byte of an HTTP body. */
  type Byte = x: int | 0 <= x < 256

  /** Go's `m[k]` on a map of interface values: a missing key reads as nil. */
  function Lookup(m: map<string, Value>, k: string): Value
  {
    if k in m then m[k] else Nil
  }
}
