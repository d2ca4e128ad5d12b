/** JSON values as the Python code loads and dumps them, and the state of a
    JSON file on disk. */
module Json {

  datatype Json =
    | JNull
    | JBool(b: bool)
    | JNum(n: real)
    | JStr(s: string)
    | JArr(items: seq<Json>)
    | JObj(fields: map<string, Json>)
  {
    /** Python's truth value of the loaded value. */
    predicate Truthy() {
      match this
      case JNull => false
      case JBool(b) => b
      case JNum(n) => n != 0.0
      case JStr(s) => s != ""
      case JArr(items) => items != []
      case JObj(fields) => fields != map[]
    }
  }

  /** A JSON document file: absent, present but not a JSON object, or an object. */
  datatype StoredFile = Missing | Corrupt | Doc(fields: map<string, Json>)

  /** `json.load` of the file inside `try: ... except: return {}`. */
  function FieldsOr(f: StoredFile): (m: map<string, Json>)
    ensures f.Doc? ==> m == f.fields
    ensures !f.Doc? ==> m == map[]
  {
    if f.Doc? then f.fields else map[]
  }
}
