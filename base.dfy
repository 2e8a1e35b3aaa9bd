/** Shared vocabulary: optional values, the outcome of a call into the C
    runtime, and the errno values the Swift wrappers switch on (Linux numbering). */
module Base {

  datatype Option<+T> = None | Some(value: T)

  /** What a libdill/libmill call reported: 0 (success) or -1 with `errno` set. */
  datatype CResult = Success | Failed(errno: int)

  const EBADF: int := 9
  const ENOMEM: int := 12
  const EPIPE: int := 32
  const ENOTSUP: int := 95
  const ETIMEDOUT: int := 110
  const ECANCELED: int := 125

  /** Swift's `Int.max` on a 64-bit platform. */
  const INT_MAX: int := 0x7FFF_FFFF_FFFF_FFFF
  const INT_MIN: int := -0x8000_0000_0000_0000

  predicate IsInt64(x: int) {
    INT_MIN <= x <= INT_MAX
  }

  /** No element occurs twice. */
  predicate Distinct<T(==)>(s: seq<T>) {
    forall i, j :: 0 <= i < j < |s| ==> s[i] != s[j]
  }

  /** Appending an element not yet present keeps a sequence duplicate-free. */
  lemma DistinctAppend<T>(s: seq<T>, x: T)
    requires Distinct(s) && x !in s
    ensures Distinct(s + [x])
  {
  }

  /** A non-empty set of integers has a member to pick. */
  lemma NonEmptyHasMember(s: set<int>)
    requires s != {}
    ensures exists x :: x in s
  {
    if forall x :: x !in s {
      assert false;
    }
  }
}
