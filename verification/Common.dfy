/** Shared helper types: optional values, results, and the 64-bit height range. */
module Common {

  datatype Option<+T> = None | Some(value: T)

  datatype Result<+T, +E> = Ok(value: T) | Err(error: E)

  type Byte = x: nat | x < 256

  const U64_MAX: nat := 0xFFFF_FFFF_FFFF_FFFF

  /** Swift's `UInt64`: every value built from one of these is checked to be in range. */
  type U64 = x: nat | x <= U64_MAX

  /** `UInt64.saturatingAdd`: the sum, or the largest value when the sum does not fit. */
  function SaturatingAdd(a: U64, b: U64): U64 {
    if a + b <= U64_MAX then a + b else U64_MAX
  }

  function Min(a: nat, b: nat): nat { if a <= b then a else b }

  function Max(a: nat, b: nat): nat { if a >= b then a else b }

  ghost predicate Distinct<T>(s: seq<T>) {
    forall i, j :: 0 <= i < j < |s| ==> s[i] != s[j]
  }

  /** A loop over a sequence: the part done so far, with one element more. */
  lemma PrefixOf<T>(s: seq<T>, k: nat)
    requires k < |s|
    ensures s[..k + 1][..k] == s[..k] && s[..k + 1][k] == s[k]
  {
  }

  /** A list without repetitions has as many members as elements. */
  lemma {:induction false} DistinctSize<T>(s: seq<T>)
    requires Distinct(s)
    ensures |set x | x in s| == |s|
  {
    if s == [] {
      assert (set x | x in s) == {};
    } else {
      var front, last := s[..|s| - 1], s[|s| - 1];
      DistinctSize(front);
      assert s == front + [last] && last !in front;
      assert (set x | x in s) == (set x | x in front) + {last};
    }
  }
}
