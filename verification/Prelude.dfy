/** What every component shares: the two failure-carrying types and two facts about lists. */
module Prelude {
  datatype Option<+T> = None | Some(value: T)

  /** A request either produces a value or is refused with a reason. */
  datatype Result<+T, +E> = Ok(value: T) | Err(error: E)

  predicate Distinct<T(==)>(s: seq<T>) {
    forall i, j :: 0 <= i < j < |s| ==> s[i] != s[j]
  }

  function ToSet<T(==)>(s: seq<T>): set<T> { set x | x in s }
}
