/**
 * The values the agents hand around: parsed JSON objects, tool texts and
 * cached payloads, together with Python's truthiness test on them, which is
 * how every `if cached:` and `if not x:` in the source decides.
 * Floating-point numbers are not part of this model.
 */
module JsonValue {
  import opened Wrappers

  datatype Json =
    | JNull
    | JBool(b: bool)
    | JInt(i: int)
    | JStr(s: string)
    | JList(items: seq<Json>)
    | JObj(fields: seq<(string, Json)>)

  /** Python's bool(v): None, False, 0 and empty containers are falsy. */
  predicate Truthy(v: Json) {
    match v
    case JNull => false
    case JBool(b) => b
    case JInt(i) => i != 0
    case JStr(s) => s != ""
    case JList(xs) => xs != []
    case JObj(fs) => fs != []
  }

  /** A Python `Optional[str]` rendered by an f-string: None prints as "None". */
  function ShowOpt(o: Option<string>): string {
    match o
    case Some(s) => s
    case None => "None"
  }

  /** Truthiness of a Python `Optional[str]`. */
  predicate TruthyOpt(o: Option<string>) {
    o.Some? && o.value != ""
  }
}
