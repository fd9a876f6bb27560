/** The lexicographic order that the outbox sorts its string keys by, and sorted key lists. */
module StringOrder {
  import opened Common

  predicate Less(a: string, b: string) {
    if b == "" then false
    else if a == "" then true
    else a[0] < b[0] || (a[0] == b[0] && Less(a[1..], b[1..]))
  }

  /** The first place at which two strings differ, or at which the first of them ends, decides. */
  ghost predicate DecidedAt(a: string, b: string, k: nat) {
    k <= |a| && k < |b| && a[..k] == b[..k] && (k < |a| ==> a[k] < b[k])
  }

  /** The order by code units: a proper prefix comes first, and otherwise the lower character where they first differ. */
  lemma {:induction false} LessIs(a: string, b: string)
    ensures Less(a, b) <==> exists k :: DecidedAt(a, b, k)
  {
    if a == "" {
      assert b != "" ==> DecidedAt(a, b, 0);
    } else if b != "" && a[0] == b[0] {
      LessIs(a[1..], b[1..]);
      assert a == [a[0]] + a[1..] && b == [b[0]] + b[1..];
      if k: nat :| DecidedAt(a[1..], b[1..], k) {
        assert a[..k + 1] == [a[0]] + a[1..][..k] && b[..k + 1] == [b[0]] + b[1..][..k];
        assert DecidedAt(a, b, k + 1);
      }
      if k: nat :| DecidedAt(a, b, k) {
        assert k > 0 && a[1..][..k - 1] == a[..k][1..] && b[1..][..k - 1] == b[..k][1..];
        assert DecidedAt(a[1..], b[1..], k - 1);
      }
    } else if b != "" {
      assert a[0] < b[0] ==> DecidedAt(a, b, 0);
      if k: nat :| DecidedAt(a, b, k) {
        assert k > 0 ==> a[..k][0] == b[..k][0];
      }
    }
  }

  lemma {:induction false} LessTrichotomy(a: string, b: string)
    ensures a == b || Less(a, b) || Less(b, a)
  {
    if a != "" && b != "" && a[0] == b[0] {
      LessTrichotomy(a[1..], b[1..]);
      assert a == [a[0]] + a[1..] && b == [b[0]] + b[1..];
    }
  }

  lemma {:induction false} LessTransitive(a: string, b: string, c: string)
    requires Less(a, b) && Less(b, c)
    ensures Less(a, c)
  {
    if a != "" && a[0] == b[0] == c[0] {
      LessTransitive(a[1..], b[1..], c[1..]);
    }
  }

  lemma {:induction false} LessIrreflexive(a: string)
    ensures !Less(a, a)
  {
    if a != "" {
      LessIrreflexive(a[1..]);
    }
  }

  ghost predicate StrictlySorted(keys: seq<string>) {
    |keys| <= 1 || (Less(keys[0], keys[1]) && StrictlySorted(keys[1..]))
  }

  /** The first of a sorted list is below all the others. */
  lemma {:induction false} FirstIsLeast(keys: seq<string>, k: nat)
    requires StrictlySorted(keys) && 0 < k < |keys|
    ensures Less(keys[0], keys[k])
  {
    if k > 1 {
      FirstIsLeast(keys[1..], k - 1);
      LessTransitive(keys[0], keys[1], keys[k]);
    }
  }

  lemma {:induction false} SortedIsDistinct(keys: seq<string>)
    requires StrictlySorted(keys)
    ensures Distinct(keys)
  {
    if keys != [] {
      SortedIsDistinct(keys[1..]);
      forall i, j | 0 <= i < j < |keys| ensures keys[i] != keys[j] {
        if i == 0 {
          FirstIsLeast(keys, j);
          LessIrreflexive(keys[0]);
        } else {
          assert keys[1..][i - 1] != keys[1..][j - 1];
        }
      }
    }
  }

  lemma FirstIsIn(a: seq<string>)
    ensures a != [] ==> a[0] in a
  {
    if a != [] {
      assert a[0] in a;
    }
  }

  /** A sorted list is determined by its members. */
  lemma {:induction false} SortedUnique(a: seq<string>, b: seq<string>)
    requires StrictlySorted(a) && StrictlySorted(b) && forall k :: k in a <==> k in b
    ensures a == b
  {
    if a == [] || b == [] {
      FirstIsIn(a);
      FirstIsIn(b);
    } else {
      assert a[0] in a && a[0] in b;
      assert b[0] in b && b[0] in a;
      FirstsAgree(a, b);
      SortedIsDistinct(a);
      SortedIsDistinct(b);
      assert a == [a[0]] + a[1..] && b == [b[0]] + b[1..];
      forall k ensures k in a[1..] <==> k in b[1..] {
        if k in a[1..] { InRest(a, b, k); }
        if k in b[1..] { InRest(b, a, k); }
      }
      SortedUnique(a[1..], b[1..]);
    }
  }

  lemma FirstsAgree(a: seq<string>, b: seq<string>)
    requires StrictlySorted(a) && StrictlySorted(b) && a != [] && b != [] && a[0] in b && b[0] in a
    ensures a[0] == b[0]
  {
    var i :| 0 <= i < |b| && b[i] == a[0];
    var j :| 0 <= j < |a| && a[j] == b[0];
    if i > 0 && j > 0 {
      FirstIsLeast(b, i);
      FirstIsLeast(a, j);
      LessTransitive(a[0], b[0], a[0]);
      LessIrreflexive(a[0]);
    }
  }

  lemma InRest(a: seq<string>, b: seq<string>, k: string)
    requires a != [] && b != [] && a[0] == b[0] && Distinct(a) && k in a[1..] && forall k :: k in a <==> k in b
    ensures k in b[1..]
  {
    var i :| 0 <= i < |a[1..]| && a[1..][i] == k;
    assert a[i + 1] == k && a[0] != a[i + 1];
    assert k in a && k in b;
    var j :| 0 <= j < |b| && b[j] == k;
    assert b[1..][j - 1] == k;
  }

  /** Inserts a key into a sorted list unless it is there already. */
  function InsertKey(keys: seq<string>, key: string): (r: seq<string>)
    requires StrictlySorted(keys)
    ensures StrictlySorted(r)
    ensures forall k :: k in r <==> k in keys || k == key
    ensures r != [] && (r[0] == key || (keys != [] && r[0] == keys[0]))
  {
    if keys == [] then [key]
    else if key == keys[0] then keys
    else if Less(key, keys[0]) then [key] + keys
    else
      LessTrichotomy(key, keys[0]);
      assert keys == [keys[0]] + keys[1..];
      var rest := InsertKey(keys[1..], key);
      assert ([keys[0]] + rest)[1..] == rest;
      [keys[0]] + rest
  }

  /** `Array(Set(keys)).sorted()`. */
  function SortedDistinct(keys: seq<string>): (r: seq<string>)
    ensures StrictlySorted(r)
    ensures forall k :: k in r <==> k in keys
  {
    if keys == [] then []
    else
      assert keys == keys[..|keys| - 1] + [keys[|keys| - 1]];
      InsertKey(SortedDistinct(keys[..|keys| - 1]), keys[|keys| - 1])
  }
}
