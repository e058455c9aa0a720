/** The usual optional-value wrapper. */
module Optional {

  datatype Option<+T> = None | Some(value: T)

  /** `x ?? fallback` for a value that is either given or undefined. */
  function OrElse<T>(x: Option<T>, fallback: T): (r: T)
    ensures x.Some? ==> r == x.value
    ensures x.None? ==> r == fallback
  {
    match x
    case Some(v) => v
    case None => fallback
  }
}
