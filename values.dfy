/** Values shared by the whole model: optional values and the dynamic values that the
    Swift code carries as `Any` (the `extra` dictionary of an event, the page snapshot). */
module Values {

  datatype Option<+T> = None | Some(value: T) {
    /** Swift's `??`: the wrapped value, or `default` when there is none. */
    function GetOr(default: T): T {
      match this
      case Some(v) => v
      case None => default
    }
  }

  /** A JSON-representable value, standing for what the source stores as `Any`. */
  datatype Json =
    | JNull
    | JBool(b: bool)
    | JNumber(n: int)
    | JString(s: string)
    | JArray(items: seq<Json>)
    | JObject(fields: map<string, Json>)

  /** The `[String: Any]` dictionary attached to an event. */
  type Extra = map<string, Json>
}
