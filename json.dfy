/** The JSON documents that the handlers return as response bodies. */
module Json {

  datatype Value =
    | JInt(n: int)
    | JStr(s: string)
    | JArray(items: seq<Value>)
    | JObject(fields: map<string, Value>)
}
