/** Failure-carrying values used throughout the model.
    Go's `(T, error)` pair becomes a `Result`, a bare `error` an `Outcome`,
    and a nil-able value an `Option`. */
module Wrappers {

  datatype Option<+T> = None | Some(value: T)

  /** The `(value, error)` pair of a Go function: exactly one side is meaningful. */
  datatype Result<+T> = Ok(value: T) | Err(msg: string)

  /** A Go `error`: `Pass` is nil, `Fail` carries the error text. */
  datatype Outcome = Pass | Fail(msg: string)

  /** `fmt.Errorf(prefix + "%w", err)`: nil stays nil, an error gains the prefix. */
  function Wrap(prefix: string, o: Outcome): (r: Outcome)
    ensures r.Pass? <==> o.Pass?
    ensures r.Fail? ==> r.msg == prefix + o.msg
  {
    if o.Pass? then Pass else Fail(prefix + o.msg)
  }

  /** `errors.Join(a, b)`: nil exactly when both are nil; the texts of the
      non-nil ones, joined by a newline. */
  function Join(a: Outcome, b: Outcome): (r: Outcome)
    ensures r.Pass? <==> a.Pass? && b.Pass?
    ensures a.Fail? && b.Pass? ==> r == a
    ensures a.Pass? && b.Fail? ==> r == b
  {
    match (a, b)
    case (Pass, Pass) => Pass
    case (Fail(x), Pass) => Fail(x)
    case (Pass, Fail(y)) => Fail(y)
    case (Fail(x), Fail(y)) => Fail(x + "\n" + y)
  }
}
