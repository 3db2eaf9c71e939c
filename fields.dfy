/** The fields of an update request as `model_dump(exclude_unset=True)` sees them,
    and what the endpoints' `setattr` loops do with each. */
module Fields {
  import opened Wrappers

  /** A JSON field of a request: absent, an explicit `null`, or a value. */
  datatype Field<T> = Absent | Null | Given(value: T)

  /** `setattr` of the field on a nullable column: a field not sent keeps the old
      value, and an explicit null clears it. */
  function Assign<T>(f: Field<T>, current: Option<T>): Option<T> {
    match f
    case Absent => current
    case Null => None
    case Given(v) => Some(v)
  }

  /** `setattr` of the field on a NOT NULL column, for a field that is not null; a
      null there fails the commit and is handled by the caller. */
  function Put<T>(f: Field<T>, current: T): T {
    if f.Given? then f.value else current
  }

  /** Python's truth value of an optional flag, as in `if data.is_default:`. */
  predicate IsTrue(f: Field<bool>) {
    f == Given(true)
  }
}
