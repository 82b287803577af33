/**
 * The decoded form of a request body. The text parser itself is not part of
 * this model: the handler receives it as a function from body text to an
 * optional `Json` value, `None` standing for a decoding error.
 */
module Json {
  import opened Wrappers

  /** A JSON value; numbers are kept abstract as integers. */
  datatype Json =
    | JNull
    | JBool(b: bool)
    | JNumber(n: int)
    | JString(str: string)
    | JArray(elems: seq<Json>)
    | JObject(fields: map<string, Json>)

  /** A JSON text decoder: `None` when the text is not valid JSON. */
  type Parser = string -> Option<Json>

  /**
   * The value of `key` in a JSON object, or `default` when the object has no
   * such member (a dictionary lookup with a default).
   */
  function Member(fields: map<string, Json>, key: string, default: Json): (r: Json)
    ensures key in fields ==> r == fields[key]
    ensures key !in fields ==> r == default
  {
    if key in fields then fields[key] else default
  }
}
