/** Decoded JSON, the form in which API responses reach the model. */
module JsonValue {
  import opened Assoc

  /** A decoded JSON value; objects keep their key order, as Python dicts do. */
  datatype Json =
    | JNull
    | JBool(b: bool)
    | JInt(i: int)
    | JStr(s: string)
    | JArr(items: seq<Json>)
    | JObj(fields: seq<(string, Json)>)

  /** A decoded JSON object, also the shape of a `**kwargs` mapping. */
  type Object = Dict<Json>
}
