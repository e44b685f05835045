/** A value that may be missing: a field absent from a stored settings
    record, or a lookup past the end of a table. */
module Optional {

  datatype Option<T> = None | Some(value: T)

  /** The value held by `o`, or `fallback` when `o` holds none. */
  function ValueOr<T>(o: Option<T>, fallback: T): (r: T)
    ensures o.Some? ==> r == o.value
    ensures o.None? ==> r == fallback
  {
    if o.Some? then o.value else fallback
  }
}
