/** Values of the JSON bodies that the capture endpoints receive and that the
    dashboard shows. Numbers keep their literal text: the tracker only stores
    and displays them, it never computes with them. */
module Json {

  datatype Json =
    | JNull
    | JBool(b: bool)
    | JNumber(literal: string)
    | JString(s: string)
    | JArray(items: seq<Json>)
    | JObject(fields: map<string, Json>)

  /** A dictionary decoded from a request body: one captured location. */
  type Record = map<string, Json>

  /** What one `loc.get(key, default)` shows: the stored value, or the default
      text when the key is absent. */
  datatype Shown = Stored(value: Json) | Fallback(text: string)

  /** `d.get(key, default)` */
  function Get(d: Record, key: string, default: string): Shown
  {
    if key in d then Stored(d[key]) else Fallback(default)
  }
}
