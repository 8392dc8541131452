/** JSON documents as the Pure API returns them (after `response.json()`). */
module Json {
  import opened Wrappers

  /** A JSON value; numbers are modelled as integers. */
  datatype Json =
    | JNull
    | JBool(b: bool)
    | JNum(n: int)
    | JStr(s: string)
    | JArr(elems: seq<Json>)
    | JObj(fields: map<string, Json>)

  /** `d.get(key)` on a JSON object; `None` for a missing key or a value that is not an object. */
  function Get(j: Json, key: string): Option<Json>
  {
    if j.JObj? && key in j.fields then Some(j.fields[key]) else None
  }

  /** The string stored under `key`, if the value is an object with a string there. */
  function GetString(j: Json, key: string): Option<string>
  {
    match Get(j, key)
    case Some(JStr(s)) => Some(s)
    case _ => None
  }
}
