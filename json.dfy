/** The slice of JSON the model needs: values as the decoder sees them and the
    ways decoding a field can fail. Numbers are integers only. */
module Json {

  datatype Json =
    | JNull
    | JBool(b: bool)
    | JNumber(n: int)
    | JString(s: string)
    | JArray(items: seq<Json>)
    | JObject(fields: map<string, Json>)

  /** A JSON object body, keyed by field name. */
  type Object = map<string, Json>

  /** Why a value could not be decoded. */
  datatype DeError =
    | MissingField(field: string)
    | DuplicateField(field: string)
    | InvalidType(expecting: string)
    | InvalidValue(expecting: string)
    | UnknownVariant(variant: string, expected: seq<string>)
}
