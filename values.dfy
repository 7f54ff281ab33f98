/** Decoded JSON values, as the relay handles them once a text frame has been
    parsed, and the Python exceptions that its handlers can raise. */
module Values {

  datatype Option<+T> = None | Some(value: T)

  /** A decoded JSON value. `JNull` is Python's `None`: the relay stores message
      fields in participant records unchanged, so "no room" and a JSON null room id
      are the same value, exactly as in the source. Numbers are integers here. */
  datatype Json =
    | JNull
    | JBool(b: bool)
    | JNum(n: int)
    | JStr(s: string)
    | JArr(items: seq<Json>)
    | JObj(fields: map<string, Json>)

  /** A decoded top-level JSON object: what one request frame carries. */
  type Msg = map<string, Json>

  /** Python can use a decoded value as a dictionary key (or look it up) unless it
      is a list or a dict; looking those up raises TypeError. */
  predicate Hashable(j: Json) {
    !j.JArr? && !j.JObj?
  }

  /** The exceptions the modelled code raises. */
  datatype Exc =
    | KeyError(key: Json)      // a dictionary lookup of an absent key
    | TypeError(key: Json)     // a dictionary lookup of an unhashable key
    | AttributeError           // a method called on None
    | ValueError               // a text frame that is not valid JSON

  /** The result of a Python call: its return value, or the exception it raised. */
  datatype Outcome<+T> = Ok(value: T) | Raised(exc: Exc)
}
