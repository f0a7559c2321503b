/**
 * An already-parsed JSON document, as the response body reaches the
 * decoders. Object members keep their textual order and duplicates, as a
 * streaming JSON deserializer hands them to a derived struct decoder.
 */
module Json {

  /** A JSON number as parsed. No arithmetic is attached to it: integers are
      kept as mathematical integers, every other number as its literal. */
  datatype Number = Integer(i: int) | Decimal(literal: string)

  datatype Json =
    | JNull
    | JBool(b: bool)
    | JNumber(n: Number)
    | JString(s: string)
    | JArray(items: seq<Json>)
    | JObject(members: seq<(string, Json)>)
}
