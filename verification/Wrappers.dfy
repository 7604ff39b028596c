/** Small notions that the modules share. */
module Wrappers {
  /** A nil pointer, a missing key or a missing file in the source is a None here. */
  datatype Option<+T> = None | Some(value: T)

  /** The next element of a map iteration, whose order the source leaves open. */
  method Pick<T(==)>(s: set<T>) returns (x: T)
    requires s != {}
    ensures x in s
  {
    x :| x in s;
  }

  predicate Distinct<T(==)>(s: seq<T>) {
    forall i, j | 0 <= i < j < |s| :: s[i] != s[j]
  }

  function Without<T>(s: seq<T>, i: nat): seq<T>
    requires i < |s|
  {
    s[..i] + s[i + 1..]
  }
}
