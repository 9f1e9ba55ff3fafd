/** The loosely-typed values a request record is made of: what Jackson produces
    when it reads a JSON document into a `Map<String, Object>`. */
module Json {

  /** `None` stands for a Java `null`. */
  datatype Option<+T> = None | Some(value: T)

  /** A JSON value. Numbers are integers only (floating point is not modelled). */
  datatype Value =
    | Null
    | Bool(b: bool)
    | Num(n: int)
    | Str(s: string)
    | Arr(items: seq<Value>)
    | Obj(fields: map<string, Value>)

  /** A request record or a sample manifest: field name to value. */
  type Record = map<string, Value>

  /** Removing a key a record does not have leaves the record as it is. */
  lemma RemoveAbsentKey(r: Record, key: string)
    requires key !in r
    ensures r - {key} == r
  {
    assert (r - {key}).Keys == r.Keys;
  }
}
