/** Small shared vocabulary: optional values and Python truthiness of optional strings. */
module Common {

  /** A value that may be absent; stands for Python's `None`-or-value. */
  datatype Option<+T> = None | Some(value: T) {
    function GetOr(default: T): (r: T)
      ensures Some? ==> r == value
      ensures None? ==> r == default
    {
      match this
      case Some(v) => v
      case None => default
    }
  }

  /** Python truthiness of an optional string: neither `None` nor `""`.
      Environment variables read with `os.getenv` and file paths coming from
      the UI are checked this way (`if not file_path`, `all([...])`). */
  predicate Present(s: Option<string>) {
    s.Some? && s.value != ""
  }

  /** A float the program only prints with two decimals and tests for
      truthiness: `formatted` is its `:.2f` rendering, `isZero` whether it is
      `0.0` (and therefore falsy). Measuring it is done by code not modelled. */
  datatype Number = Number(formatted: string, isZero: bool)

  /** Python truthiness of an optional float: neither `None` nor zero. */
  predicate Truthy(n: Option<Number>) {
    n.Some? && !n.value.isZero
  }
}
