/** Small failure-carrying datatypes shared by the other modules. */
module Wrappers {

  datatype Option<+T> = None | Some(value: T)

  /** The outcome of a step that may raise: its value, or the message of the exception it raised. */
  datatype Outcome<+T> = Ok(value: T) | Fail(error: string)

  /** `raise Exception(f"{prefix}{str(e)}")` around a step: a failure keeps its message behind the
      prefix, a success passes through untouched. */
  function WithPrefix<T>(o: Outcome<T>, prefix: string): (r: Outcome<T>)
    ensures r.Ok? <==> o.Ok?
    ensures o.Ok? ==> r == o
    ensures o.Fail? ==> r.error == prefix + o.error
  {
    match o
    case Ok(_) => o
    case Fail(e) => Fail(prefix + e)
  }

  function Min(a: int, b: int): int
  {
    if a <= b then a else b
  }
}
