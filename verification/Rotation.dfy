/** Round robin is fair: over a fixed set of keys, as many consecutive picks as keys pick each key once. */
module Rotation {
  import opened Common
  import opened StringOrder
  import opened OutboxModel

  /** Consecutive picks over the same keys, each remembered as the last one for the next. */
  ghost predicate Rotates(keys: seq<string>, last: seq<Option<string>>, picks: seq<string>)
    requires keys != []
  {
    && |last| == |picks| + 1
    && (forall k :: 0 <= k < |picks| ==> picks[k] == NextKey(keys, last[k]))
    && (forall k, l :: 0 <= k < l < |last| && l == k + 1 ==> last[l] == Some(picks[k]))
  }

  lemma KeyIndexOf(keys: seq<string>, i: nat)
    requires Distinct(keys) && i < |keys|
    ensures KeyIndex(keys, keys[i]) == i
  {
    var at := KeyIndex(keys, keys[i]);
    assert keys[at] == keys[i];
  }

  /** The position `k` places after `a`, going round once at most. */
  function Wrap(a: nat, k: nat, n: nat): (r: nat)
    requires a < n && k < n
    ensures r < n
  {
    if a + k < n then a + k else a + k - n
  }

  /** The next key after a remembered one, going round from the last to the first. */
  lemma NextOf(keys: seq<string>, i: nat)
    requires Distinct(keys) && i < |keys|
    ensures NextKey(keys, Some(keys[i])) == keys[if i + 1 < |keys| then i + 1 else 0]
  {
    KeyIndexOf(keys, i);
    assert keys[i] in keys;
  }

  /** A key that no other key of the list is below. */
  ghost predicate IsLowest(keys: seq<string>, k: string) { k in keys && forall x :: x in keys ==> !Less(x, k) }

  /** The lowest of the keys above `last`. */
  ghost predicate IsFirstAbove(keys: seq<string>, last: string, k: string) {
    k in keys && Less(last, k) && forall x :: x in keys && Less(last, x) ==> !Less(x, k)
  }

  /**
   The next key, told by the order of the keys alone: the lowest key above the one used last, if that one is
   still among them and some key is above it, and otherwise the lowest key of all.
   */
  lemma NextIs(keys: seq<string>, last: Option<string>)
    requires keys != [] && StrictlySorted(keys)
    ensures var k := NextKey(keys, last);
      if last.Some? && last.value in keys && exists x :: x in keys && Less(last.value, x) then IsFirstAbove(keys, last.value, k)
      else IsLowest(keys, k)
  {
    SortedIsDistinct(keys);
    forall i, j | 0 <= i < j < |keys| ensures Less(keys[i], keys[j]) && !Less(keys[j], keys[i]) {
      SortedIsIncreasing(keys, i, j);
    }
    forall i | 0 <= i < |keys| ensures !Less(keys[i], keys[i]) {
      LessIrreflexive(keys[i]);
    }
    if last.Some? && last.value in keys {
      var i :| 0 <= i < |keys| && keys[i] == last.value;
      NextOf(keys, i);
      if i + 1 < |keys| {
        assert keys[i + 1] in keys && Less(keys[i], keys[i + 1]);
      }
    }
  }

  lemma {:induction false} SortedIsIncreasing(keys: seq<string>, i: nat, j: nat)
    requires StrictlySorted(keys) && i < j < |keys|
    ensures Less(keys[i], keys[j]) && !Less(keys[j], keys[i])
  {
    if i > 0 {
      SortedIsIncreasing(keys[1..], i - 1, j - 1);
    } else {
      FirstIsLeast(keys, j);
      if Less(keys[j], keys[0]) {
        LessTransitive(keys[0], keys[j], keys[0]);
        LessIrreflexive(keys[0]);
      }
    }
  }

  /** The picks walk the keys in order, wrapping around, from wherever the first one fell. */
  lemma {:induction false} PicksWalk(keys: seq<string>, last: seq<Option<string>>, picks: seq<string>, k: nat, a: nat)
    requires keys != [] && Distinct(keys) && Rotates(keys, last, picks) && k < |picks| <= |keys|
    requires a < |keys| && picks[0] == keys[a]
    ensures picks[k] == keys[Wrap(a, k, |keys|)]
  {
    if k > 0 {
      PicksWalk(keys, last, picks, k - 1, a);
      assert last[k] == Some(picks[k - 1]);
      NextOf(keys, Wrap(a, k - 1, |keys|));
    }
  }

  /** Each key occurs in exactly one place. */
  ghost predicate EachOnce(keys: seq<string>, picks: seq<string>) {
    && |picks| == |keys|
    && Distinct(picks)
    && forall key :: key in picks <==> key in keys
  }

  /** As many consecutive picks as keys, started anywhere: each key exactly once. */
  lemma FullRotation(keys: seq<string>, last: seq<Option<string>>, picks: seq<string>)
    requires keys != [] && Distinct(keys) && Rotates(keys, last, picks) && |picks| == |keys|
    ensures EachOnce(keys, picks)
  {
    var n := |keys|;
    assert picks[0] == NextKey(keys, last[0]) && picks[0] in keys;
    var a := KeyIndex(keys, picks[0]);
    forall k | 0 <= k < n ensures picks[k] == keys[Wrap(a, k, n)] { PicksWalk(keys, last, picks, k, a); }
    forall k, l | 0 <= k < l < n ensures picks[k] != picks[l] {
      KeyIndexOf(keys, Wrap(a, k, n));
      KeyIndexOf(keys, Wrap(a, l, n));
    }
    forall key ensures key in picks <==> key in keys {
      if key in keys {
        var i := KeyIndex(keys, key);
        var k := if a <= i then i - a else i + n - a;
        assert Wrap(a, k, n) == i && picks[k] == key;
      }
    }
  }

  /** Successive inspections: the last inspected endpoint is carried from one call to the next, and nothing else need be. */
  ghost predicate Inspections(before: seq<Snapshot>, picks: seq<string>, endpoints: seq<string>) {
    && |before| == |picks|
    && (forall k :: 0 <= k < |before| ==> Endpoints(before[k]) == endpoints && NextEndpoint(before[k]).1 == Some(picks[k]))
    && (forall k, l :: 0 <= k < l < |before| && l == k + 1 ==> before[l].lastEndpoint == NextEndpoint(before[k]).0.lastEndpoint)
  }

  lemma InspectedIsNext(s: Snapshot, endpoints: seq<string>, pick: string)
    requires endpoints != [] && Endpoints(s) == endpoints && NextEndpoint(s).1 == Some(pick)
    ensures pick == NextKey(endpoints, s.lastEndpoint) && NextEndpoint(s).0.lastEndpoint == Some(pick)
    ensures Distinct(endpoints)
  {
    SortedIsDistinct(endpoints);
  }

  /** Each pick is next after what was remembered before it, and is what is remembered for the next one. */
  ghost predicate Remembered(keys: seq<string>, before: seq<Option<string>>, picks: seq<string>)
    requires keys != []
  {
    && |before| == |picks|
    && (forall k :: 0 <= k < |picks| ==> picks[k] == NextKey(keys, before[k]))
    && (forall k, l :: 0 <= k < l < |picks| && l == k + 1 ==> before[l] == Some(picks[k]))
  }

  lemma RememberedIsFair(keys: seq<string>, before: seq<Option<string>>, picks: seq<string>)
    requires keys != [] && Distinct(keys) && Remembered(keys, before, picks) && |picks| == |keys|
    ensures EachOnce(keys, picks)
  {
    FullRotation(keys, before + [Some(picks[|picks| - 1])], picks);
  }

  /** With the same endpoints eligible each time, as many consecutive inspections as endpoints visit each endpoint once. */
  lemma InspectionIsFair(before: seq<Snapshot>, picks: seq<string>, endpoints: seq<string>)
    requires endpoints != [] && Inspections(before, picks, endpoints) && |picks| == |endpoints|
    ensures EachOnce(endpoints, picks)
  {
    var last := seq(|before|, k requires 0 <= k < |before| => before[k].lastEndpoint);
    forall k | 0 <= k < |picks|
      ensures picks[k] == NextKey(endpoints, last[k]) && NextEndpoint(before[k]).0.lastEndpoint == Some(picks[k]) && Distinct(endpoints)
    {
      InspectedIsNext(before[k], endpoints, picks[k]);
    }
    assert picks[0] == NextKey(endpoints, last[0]);
    RememberedIsFair(endpoints, last, picks);
  }

  /** Successive selections over the same candidate scopes, whatever tip, endpoint and date each one sees. */
  ghost predicate Selections(before: seq<Snapshot>, tips: seq<U64>, endpoint: seq<Option<string>>, dates: seq<int>,
                             picks: seq<string>, scopes: seq<string>)
  {
    && |before| == |tips| == |endpoint| == |dates| == |picks|
    && (forall k :: 0 <= k < |before| ==> Chosen(before[k], tips[k], endpoint[k], dates[k], picks[k], scopes))
    && (forall k, l :: 0 <= k < l < |before| && l == k + 1 ==> before[l].lastScope == Some(picks[k]))
  }

  ghost predicate Chosen(s: Snapshot, tip: U64, endpoint: Option<string>, date: int, pick: string, scopes: seq<string>) {
    && DueScopes(s, tip, endpoint, date) == scopes
    && SelectDue(s, tip, endpoint, date).1.Some?
    && SelectDue(s, tip, endpoint, date).1.value.scopeKey == pick
  }

  /** The scope picked is the next one in rotation, and is what the next call remembers. */
  lemma ChosenIsNext(s: Snapshot, tip: U64, endpoint: Option<string>, date: int, pick: string, scopes: seq<string>)
    requires scopes != [] && Chosen(s, tip, endpoint, date, pick, scopes)
    ensures pick == NextKey(scopes, s.lastScope) && SelectDue(s, tip, endpoint, date).0.lastScope == Some(pick)
    ensures Distinct(scopes)
  {
    SortedIsDistinct(scopes);
  }

  /** With the same scopes due each time, as many consecutive selections as scopes serve each scope once. */
  lemma SelectionIsFair(before: seq<Snapshot>, tips: seq<U64>, endpoint: seq<Option<string>>, dates: seq<int>,
                        picks: seq<string>, scopes: seq<string>)
    requires scopes != [] && Selections(before, tips, endpoint, dates, picks, scopes) && |picks| == |scopes|
    ensures EachOnce(scopes, picks)
  {
    forall k | 0 <= k < |picks| ensures picks[k] == NextKey(scopes, before[k].lastScope) && Distinct(scopes) {
      ChosenIsNext(before[k], tips[k], endpoint[k], dates[k], picks[k], scopes);
    }
    assert picks[0] == NextKey(scopes, before[0].lastScope);
    RememberedIsFair(scopes, seq(|before|, k requires 0 <= k < |before| => before[k].lastScope), picks);
  }
}
