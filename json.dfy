/**
 * The parts of decoded JSON objects that the service reads. A key of an object is
 * missing, present with `null`, or present with a value: `dict.get(key, default)`
 * tells the first two apart, while `dict.get(key)` and Python truthiness do not.
 */
module Json {
  import opened Wrappers

  datatype Field<+T> = Absent | Null | Value(value: T) {

    /** `obj.get(key)`: a missing key and a `null` both read as `None`. */
    function Get(): (r: Option<T>)
      ensures r.Some? <==> Value?
      ensures r.Some? ==> r.value == value
    {
      if Value? then Some(value) else None
    }
  }

  /** Truthiness of a possibly missing string: `None` and `""` are falsy. */
  predicate TruthyText(f: Field<string>)
    ensures TruthyText(f) <==> f.Get().Some? && f.Get().value != ""
  {
    f.Value? && f.value != ""
  }
}
