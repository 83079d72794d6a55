/** Shared types. */
module Wrappers {
  datatype Option<+T> = None | Some(value: T)

  datatype EventType = ADDED | MODIFIED | DELETED

  predicate NoDuplicates<T(==)>(s: seq<T>) {
    forall i, j :: 0 <= i < j < |s| ==> s[i] != s[j]
  }

  predicate AllIn<T(==)>(xs: seq<T>, ys: seq<T>) {
    forall x :: x in xs ==> x in ys
  }
}
