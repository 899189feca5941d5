/** A JSON value, close to what Python's `json.load` returns: objects become maps and
    arrays sequences. A map forgets the order of an object's keys and a `real` has no
    negative zero, so two values that differ only in key order or in the sign of a zero
    are the same value here, although Python prints them differently. */
module Json {

  datatype Json =
    | JNull
    | JBool(b: bool)
    | JInt(i: int)
    | JFloat(f: real)
    | JString(s: string)
    | JArray(items: seq<Json>)
    | JObject(fields: map<string, Json>)

  /** Python's `str(v)` (and an f-string placeholder `{v}`) for a loaded JSON value.
      The text of a string is the string itself; every other value is rendered by
      `repr`, which stands for Python's own formatting and is not modelled. */
  function Str(v: Json, repr: Json -> string): string
  {
    match v
    case JString(s) => s
    case _ => repr(v)
  }
}
