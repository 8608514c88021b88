/**
 * JSON-like values standing for the dicts, lists and scalars the Python code
 * passes around, with Python's truthiness. `JNull` plays the role of `None`.
 */
module JsonData {

  datatype Json =
    | JNull
    | JBool(b: bool)
    | JInt(i: int)
    | JStr(s: string)
    | JList(items: seq<Json>)
    | JObj(fields: map<string, Json>)

  /** Python's `bool(v)`: None, False, 0, "" and empty containers are falsy. */
  predicate Truthy(v: Json)
  {
    match v
    case JNull => false
    case JBool(b) => b
    case JInt(i) => i != 0
    case JStr(s) => s != ""
    case JList(items) => items != []
    case JObj(fields) => fields != map[]
  }

  /** Python's `v == True`, which also holds for the integer 1. */
  predicate EqualsTrue(v: Json)
  {
    v == JBool(true) || v == JInt(1)
  }
}
