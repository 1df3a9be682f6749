/** JSON values as they cross between the browser and the Flask server, with
    the two notions of truthiness the two sides apply to them. */
module Json {

  /** A decoded JSON document. Numbers are split into integers and reals the
      way Python's decoder splits them into `int` and `float`. */
  datatype Value =
    | JNull
    | JBool(b: bool)
    | JInt(i: int)
    | JReal(r: real)
    | JStr(s: string)
    | JArr(items: seq<Value>)
    | JObj(fields: map<string, Value>)

  /** Python's `bool(x)` for the decoded value: `None`, `False`, zero, the empty
      string and empty containers are false. */
  predicate PyTruthy(v: Value)
    ensures !PyTruthy(v) <==> (v == JNull || v == JBool(false) || v == JInt(0) || v == JReal(0.0)
                               || v == JStr("") || v == JArr([]) || v == JObj(map[]))
  {
    match v
    case JNull => false
    case JBool(b) => b
    case JInt(i) => i != 0
    case JReal(r) => r != 0.0
    case JStr(s) => s != ""
    case JArr(items) => items != []
    case JObj(fields) => fields != map[]
  }

  /** JavaScript's `Boolean(x)` for the parsed value: arrays and objects are
      always true, even when empty. */
  predicate JsTruthy(v: Value)
    ensures !JsTruthy(v) <==> (v == JNull || v == JBool(false) || v == JInt(0) || v == JReal(0.0)
                               || v == JStr(""))
  {
    match v
    case JNull => false
    case JBool(b) => b
    case JInt(i) => i != 0
    case JReal(r) => r != 0.0
    case JStr(s) => s != ""
    case JArr(_) => true
    case JObj(_) => true
  }

  /** The two sides agree except on empty arrays and objects, which only
      JavaScript treats as true; a string is truthy on both sides exactly when
      it is non-empty. */
  lemma TruthinessAgrees(v: Value)
    ensures PyTruthy(v) ==> JsTruthy(v)
    ensures JsTruthy(v) && !PyTruthy(v) <==> v == JArr([]) || v == JObj(map[])
    ensures v.JStr? ==> (PyTruthy(v) <==> v.s != "") && (JsTruthy(v) <==> v.s != "")
  {
  }

  /** `type(x).__name__` of the decoded value in Python. */
  function PyTypeName(v: Value): (name: string)
    ensures v.JObj? <==> name == "dict"
  {
    match v
    case JNull => "NoneType"
    case JBool(_) => "bool"
    case JInt(_) => "int"
    case JReal(_) => "float"
    case JStr(_) => "str"
    case JArr(_) => "list"
    case JObj(_) => "dict"
  }
}
