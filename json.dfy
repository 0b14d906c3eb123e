/** The parsed statistics document: a JSON value as Python's `json` module
    delivers it (objects become dicts, arrays become lists). */
module Json {
  import opened Results

  datatype Json =
    | JObject(fields: map<string, Json>)
    | JArray(items: seq<Json>)
    | JStr(str: string)
    | JNum(num: real)
    | JBool(truth: bool)
    | JNull

  /** Python's `node[key]` with a string key: a dict yields the value stored
      under `key` or raises KeyError; any other value raises TypeError. */
  function Index(node: Json, key: string): Result<Json> {
    match node
    case JObject(fields) => if key in fields then Ok(fields[key]) else Err(KeyError(key))
    case _ => Err(TypeError(key))
  }
}
