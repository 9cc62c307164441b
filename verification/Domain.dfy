/** Types shared by every component: the two market channels and the usual wrappers. */
module Domain {

  datatype Channel = UU | ECO

  datatype Option<+T> = None | Some(value: T)

  datatype Result<+T, +E> = Ok(value: T) | Err(error: E)

  /** Seconds. */
  const DAY := 24 * 60 * 60

  function Max(a: int, b: int): int { if a >= b then a else b }

  function Min(a: int, b: int): int { if a <= b then a else b }

  /** COALESCE(NULLIF(new,''), old). */
  function Keep(new': string, old': string): string { if new' == "" then old' else new' }

  /** COALESCE(new, old). */
  function KeepTime(new': Option<int>, old': Option<int>): Option<int> { if new'.Some? then new' else old' }
}
