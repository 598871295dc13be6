/** The scalar JSON values the booru APIs return inside their records. */
module Json {
  import opened Strings

  /** A scalar field of a decoded JSON object. */
  datatype Value = Text(text: string) | Number(num: int)

  /** A decoded JSON object (a Python `dict`); a missing key raises `KeyError`. */
  type Record = map<string, Value>

  /** Python's `str(v)`. */
  function Str(v: Value): string {
    match v
    case Text(t) => t
    case Number(n) => IntToString(n)
  }
}
