/** What may be absent, what may fail, and two small functions every part uses. */
module Wrappers {
  datatype Option<+T> = None | Some(value: T)

  datatype Result<+T, +E> = Success(value: T) | Failure(error: E)

  function AtLeastZero(n: int): int {
    if n >= 0 then n else 0
  }

  function Elements<T>(s: seq<T>): set<T> {
    set x | x in s
  }
}
