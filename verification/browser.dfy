/** What the studio components see of a request: the parsed response body,
    or a thrown error, and JavaScript's property reads on that body. */
module Browser {

  import opened Common
  import opened Json

  /** How an awaited `fetch(...)` followed by `response.json()` settles: with
      the parsed body, whatever the HTTP status, or by throwing (network
      failure, a body that is not JSON). */
  datatype Outcome = Completed(data: Value) | Threw

  /** `data.key` in JavaScript: reading a property of `null` throws; a missing
      property, or any property of a primitive or an array, is `undefined`
      (`None`). */
  function Property(data: Value, key: string): (c: Call<Option<Value>>)
    ensures c.Raised? <==> data.JNull?
    ensures data.JObj? && key in data.fields ==> c == Returned(Some(data.fields[key]))
    ensures !data.JNull? && !(data.JObj? && key in data.fields) ==> c == Returned(None)
  {
    match data
    case JNull => Raised("Cannot read properties of null (reading '" + key + "')")
    case JObj(fields) => if key in fields then Returned(Some(fields[key])) else Returned(None)
    case _ => Returned(None)
  }

  /** What a settled request stores from `data.key`: `None` when the `try`
      block throws before the store, otherwise the (possibly undefined)
      property. */
  function Delivered(o: Outcome, key: string): (d: Option<Option<Value>>)
    ensures d.None? <==> o.Threw? || o.data.JNull?
    ensures d.Some? ==> Property(o.data, key) == Returned(d.value)
  {
    match o
    case Threw => None
    case Completed(data) =>
      match Property(data, key)
      case Raised(_) => None
      case Returned(v) => Some(v)
  }

  /** A stored value used as a condition in JSX (`{x && ...}`, `!x ? ...`). */
  predicate Shown(v: Option<Value>)
  {
    v.Some? && JsTruthy(v.value)
  }

  /** An error body `{error: ...}` has no `url` or `story`: storing the
      missing property stores `undefined`, which hides the result. */
  lemma ErrorBodyStoresUndefined(message: string, key: string)
    requires key != "error"
    ensures Delivered(Completed(JObj(map["error" := JStr(message)])), key) == Some(None)
    ensures !Shown(Delivered(Completed(JObj(map["error" := JStr(message)])), key).value)
  {
  }
}
