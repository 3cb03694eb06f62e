/** The values the SDK passes around: decoded JSON, with Python dicts as `Object`. */
module Json {

  datatype Value =
    | Null
    | Bool(b: bool)
    | Number(n: real)
    | Str(s: string)
    | Array(items: seq<Value>)
    | Object(fields: map<string, Value>)
}
