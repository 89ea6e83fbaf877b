/** Decoded JSON values, as json.loads produces them (integers only). */
module Json {

  datatype Value =
    | Null
    | Bool(b: bool)
    | Number(n: int)
    | Str(s: string)
    | Array(items: seq<Value>)
    | Object(fields: map<string, Value>)

  /** The decoded payload of the review page's scorecard script element. */
  type Scorecard = map<string, Value>

  /** dict.get(key): the value under key, or None (serialised as null). */
  function Get(obj: map<string, Value>, key: string): Value
  {
    if key in obj then obj[key] else Null
  }
}
