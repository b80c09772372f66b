/** The few pieces of Python run-time behaviour that generate_zip relies on:
    nullable columns, the exceptions raised inside its `try` block, and `int()`
    applied to a float column. */
module PyValues {

  /** A nullable column value: `None` is SQL NULL. */
  datatype Option<+T> = None | Some(value: T)

  /** The exceptions the per-location `try` block of generate_zip can raise. */
  datatype Failure =
    | TypeError           // int(None): a NULL numeric column
    | KeyError(key: string) // a missing key in the summary context dict

  /** A computation that either yields a value or raises. */
  datatype Result<+T> = Ok(value: T) | Err(failure: Failure)

  /** Python's int() on a float: truncation toward zero. */
  function Trunc(x: real): (n: int)
    ensures 0.0 <= x ==> 0 <= n && n as real <= x < n as real + 1.0
    ensures x < 0.0 ==> n <= 0 && n as real - 1.0 < x <= n as real
  {
    if 0.0 <= x then x.Floor else -((-x).Floor)
  }

  /** Python's int() on a nullable float column: NULL raises TypeError. */
  function IntOf(v: Option<real>): (r: Result<int>)
    ensures r.Ok? <==> v.Some?
    ensures r.Err? ==> r.failure == TypeError
    ensures r.Ok? ==> r.value == Trunc(v.value)
  {
    match v
    case None => Err(TypeError)
    case Some(x) => Ok(Trunc(x))
  }
}
