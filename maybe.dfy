/** Optional values: a TypeScript field declared `x?: T` (absent or undefined)
    is `None`, a present one is `Some(v)`. */
module Maybe {

  datatype Option<+T> = None | Some(value: T)

  /** The nullish-coalescing fallback `o ?? fallback`. */
  function Or<T>(o: Option<T>, fallback: T): T
  {
    match o
    case Some(v) => v
    case None => fallback
  }

  /** `a ?? b` where both sides may be absent: the first present one. */
  function OrElse<T>(a: Option<T>, b: Option<T>): Option<T>
  {
    if a.Some? then a else b
  }
}
