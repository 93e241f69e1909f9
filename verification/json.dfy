/**
  The values the bot receives from the homework API, as `response.json()`
  decodes them into Python objects: `None`, booleans, integers, strings,
  lists and dictionaries keyed by strings.
 */
module Json {

  datatype Value =
    | Null
    | Bool(b: bool)
    | Int(i: int)
    | Str(s: string)
    | List(items: seq<Value>)
    | Object(fields: map<string, Value>)
}
