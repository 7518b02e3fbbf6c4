/** Small value types shared by every module of the model. */
module Common {

  /** A value that may be absent: Python's `None` or a missing dictionary key. */
  datatype Option<+T> = None | Some(value: T)

  /** The outcome of an operation that may fail with a message. */
  datatype Result<+T> = Ok(value: T) | Err(error: string)

  function Min(a: int, b: int): (m: int)
    ensures m <= a && m <= b
    ensures m == a || m == b
  {
    if a <= b then a else b
  }

  function Max(a: int, b: int): (m: int)
    ensures m >= a && m >= b
    ensures m == a || m == b
  {
    if a >= b then a else b
  }

  /** No element occurs twice. */
  predicate NoDuplicates<T(==)>(s: seq<T>)
  {
    forall i, j :: 0 <= i < j < |s| ==> s[i] != s[j]
  }

  /** How many rows `LIMIT limit` lets through out of `n`; a negative
      limit sets no bound. */
  function Cap(limit: int, n: nat): (k: nat)
    ensures k <= n
  {
    if limit < 0 then n else Min(limit, n)
  }
}
