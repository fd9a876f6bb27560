/**
 When an accepted broadcast can hand new heights to the overdue peers of its batch, what those
 heights are, and how the check made before the broadcast relates to it.
 */
module Rescheduling {
  import opened Common
  import opened OutboxModel

  ghost predicate ByExpiry(items: seq<Item>, order: seq<nat>)
    requires InRange(order, |items|)
  {
    forall i, j :: 0 <= i < j < |order| ==> items[order[i]].expiryHeight <= items[order[j]].expiryHeight
  }

  // ----- the processing order ---------------------------------------------------------------

  lemma {:induction false} InsertKeepsExpiryOrder(items: seq<Item>, sorted: seq<nat>, i: nat)
    requires i < |items| && InRange(sorted, |items|) && ByExpiry(items, sorted)
    ensures InRange(InsertByExpiry(items, sorted, i), |items|)
    ensures ByExpiry(items, InsertByExpiry(items, sorted, i))
  {
    if sorted == [] {
    } else if items[i].expiryHeight < items[sorted[0]].expiryHeight {
      PrependByExpiry(items, i, sorted);
    } else {
      var rest := InsertByExpiry(items, sorted[1..], i);
      InsertKeepsExpiryOrder(items, sorted[1..], i);
      forall j | 0 <= j < |rest|
        ensures items[sorted[0]].expiryHeight <= items[rest[j]].expiryHeight
      {
        InsertedOrOld(items, sorted[1..], i, j);
      }
      PrependByExpiry(items, sorted[0], rest);
    }
  }

  lemma InsertedOrOld(items: seq<Item>, sorted: seq<nat>, i: nat, j: nat)
    requires i < |items| && InRange(sorted, |items|) && j < |InsertByExpiry(items, sorted, i)|
    ensures var x := InsertByExpiry(items, sorted, i)[j]; x == i || x in sorted
  {
    var r := InsertByExpiry(items, sorted, i);
    var x := r[j];
    assert x in multiset(r);
    assert x in multiset(sorted) + multiset{i};
  }

  lemma PrependByExpiry(items: seq<Item>, first: nat, rest: seq<nat>)
    requires first < |items| && InRange(rest, |items|) && ByExpiry(items, rest)
    requires forall j :: 0 <= j < |rest| ==> items[first].expiryHeight <= items[rest[j]].expiryHeight
    ensures InRange([first] + rest, |items|) && ByExpiry(items, [first] + rest)
  {
  }

  lemma {:induction false} SortIsByExpiry(items: seq<Item>, indexes: seq<nat>)
    requires InRange(indexes, |items|)
    ensures InRange(SortByExpiry(items, indexes), |items|)
    ensures ByExpiry(items, SortByExpiry(items, indexes))
  {
    if indexes != [] {
      SortIsByExpiry(items, indexes[..|indexes| - 1]);
      InsertKeepsExpiryOrder(items, SortByExpiry(items, indexes[..|indexes| - 1]), indexes[|indexes| - 1]);
    }
  }

  lemma {:induction false} RepeatCountsTwice(s: seq<nat>, i: nat, j: nat)
    requires i < j < |s| && s[i] == s[j]
    ensures multiset(s)[s[i]] >= 2
  {
    assert s == s[..j] + [s[j]] + s[j + 1..];
    assert s[i] in s[..j];
  }

  lemma {:induction false} IncreasingCountsOnce(s: seq<nat>, x: nat)
    requires forall i, j :: 0 <= i < j < |s| ==> s[i] < s[j]
    ensures multiset(s)[x] <= 1
  {
    if s != [] {
      var front := s[..|s| - 1];
      IncreasingCountsOnce(front, x);
      assert s == front + [s[|s| - 1]];
      if x == s[|s| - 1] {
        assert x !in front;
      }
    }
  }

  lemma MultisetDecides(a: seq<nat>, b: seq<nat>)
    requires multiset(a) == multiset(b)
    ensures |a| == |b| && forall x: nat :: x in a <==> x in b
  {
    assert |multiset(a)| == |a| && |multiset(b)| == |b|;
    forall x: nat ensures x in a <==> x in b {
      assert (x in a <==> x in multiset(a)) && (x in b <==> x in multiset(b));
    }
  }

  lemma PermutationIsDistinct(order: seq<nat>, increasing: seq<nat>)
    requires multiset(order) == multiset(increasing)
    requires forall i, j :: 0 <= i < j < |increasing| ==> increasing[i] < increasing[j]
    ensures Distinct(order)
  {
    forall i, j | 0 <= i < j < |order| ensures order[i] != order[j] {
      if order[i] == order[j] {
        RepeatCountsTwice(order, i, j);
        IncreasingCountsOnce(increasing, order[i]);
        assert false;
      }
    }
  }

  lemma OrderIsByExpiry(items: seq<Item>, excluding: string, tip: U64, random: Random)
    ensures ByExpiry(items, ProcessingOrder(items, excluding, tip, random))
  {
    var overdue := OverdueIndexes(items, excluding, tip);
    var shuffled := random.shuffle(overdue);
    assert multiset(shuffled) == multiset(overdue);
    PermutationInRange(shuffled, overdue, |items|);
    SortIsByExpiry(items, shuffled);
  }

  /** The order lists every overdue peer once, earliest expiry first, whatever the shuffle. */
  lemma OrderIsComplete(items: seq<Item>, excluding: string, tip: U64, random: Random)
    ensures var order := ProcessingOrder(items, excluding, tip, random);
      && Distinct(order) && ByExpiry(items, order)
      && |order| == |OverdueIndexes(items, excluding, tip)|
      && (forall j :: 0 <= j < |order| ==> Overdue(items[order[j]], excluding, tip))
      && (forall i :: 0 <= i < |items| && Overdue(items[i], excluding, tip) ==> i in order)
  {
    var overdue := OverdueIndexes(items, excluding, tip);
    var order := ProcessingOrder(items, excluding, tip, random);
    OrderIsByExpiry(items, excluding, tip, random);
    PermutationIsDistinct(order, overdue);
    MultisetDecides(order, overdue);
    forall j | 0 <= j < |order| ensures Overdue(items[order[j]], excluding, tip) {
      assert order[j] in overdue;
    }
  }

  // ----- new heights ------------------------------------------------------------------------

  /** From position `k` on, heights strictly increase, at most `max` apart, after `from` and before each expiry. */
  ghost predicate Spaced(items: seq<Item>, order: seq<nat>, k: nat, from: nat, max: nat)
    requires k <= |order| && InRange(order, |items|)
  {
    && (forall j :: k <= j < |order| ==> from < items[order[j]].scheduledHeight < items[order[j]].expiryHeight)
    && (k < |order| ==> items[order[k]].scheduledHeight <= from + max)
    && (forall i, j :: k <= i < j < |order| ==>
          && items[order[i]].scheduledHeight < items[order[j]].scheduledHeight
          && (j == i + 1 ==> items[order[j]].scheduledHeight <= items[order[i]].scheduledHeight + max))
  }

  /** The indexes from position `k` of the order on. */
  ghost function Remaining(order: seq<nat>, k: nat): set<nat>
    requires k <= |order|
    decreases |order| - k
  {
    if k == |order| then {} else {order[k]} + Remaining(order, k + 1)
  }

  lemma {:induction false} RemainingMembers(order: seq<nat>, k: nat)
    requires k <= |order|
    ensures forall j :: k <= j < |order| ==> order[j] in Remaining(order, k)
    ensures forall x :: x in Remaining(order, k) ==> exists j :: k <= j < |order| && order[j] == x
    decreases |order| - k
  {
    if k < |order| {
      RemainingMembers(order, k + 1);
    }
  }

  lemma NotLater(order: seq<nat>, k: nat)
    requires k < |order| && Distinct(order)
    ensures order[k] !in Remaining(order, k + 1)
  {
    RemainingMembers(order, k + 1);
  }

  /** The items at the given indexes changed only their schedule, and no other item changed. */
  ghost predicate OnlyRescheduled(sha: Data -> string, before: seq<Item>, after: seq<Item>, touched: set<nat>, tip: U64) {
    && |after| == |before|
    && (forall i :: 0 <= i < |before| && i !in touched ==> after[i] == before[i])
    && (forall i :: 0 <= i < |before| && i in touched ==>
          after[i] == ReplacingSchedule(sha, before[i], after[i].scheduledHeight, tip))
  }

  ghost function UpdatesFor(items: seq<Item>, order: seq<nat>, k: nat, tip: U64): seq<ScheduleUpdate>
    requires k <= |order| && InRange(order, |items|)
    decreases |order| - k
  {
    if k == |order| then []
    else [ScheduleUpdate(items[order[k]].itemId, items[order[k]].scheduledHeight, tip)] + UpdatesFor(items, order, k + 1, tip)
  }

  /** Room for the peer at position `k` and for everyone behind it. */
  ghost predicate Fits(items: seq<Item>, order: seq<nat>, k: nat, from: nat)
    requires k <= |order| && InRange(order, |items|)
  {
    k == |order| || from + (|order| - k) < items[order[k]].expiryHeight
  }

  /** The first expiry decides whether the loop goes on; a turn that succeeds saturates nothing and leaves room. */
  lemma OneTurn(sha: Data -> string, state: Rescheduled, order: seq<nat>, k: nat, tip: U64, max: U64, raw: nat)
    requires k < |order| && InRange(order, |state.items|) && Distinct(order) && ByExpiry(state.items, order)
    requires 0 < max && tip + state.elapsed <= U64_MAX
    ensures var r := RescheduleOne(sha, state, order[k], |order| - k - 1, tip, max, raw);
      && (r.Ok? <==> Fits(state.items, order, k, tip + state.elapsed))
      && (r.Err? ==> r.error == InvalidSchedule)
      && (r.Ok? ==>
           var next := r.value;
           var it := state.items[order[k]];
           && state.elapsed < next.elapsed <= state.elapsed + max
           && tip + next.elapsed < it.expiryHeight
           && next.items == state.items[order[k] := ReplacingSchedule(sha, it, tip + next.elapsed, tip)]
           && next.updates == state.updates + [ScheduleUpdate(it.itemId, tip + next.elapsed, tip)]
           && ByExpiry(next.items, order)
           && Fits(next.items, order, k + 1, tip + next.elapsed))
  {
    if Fits(state.items, order, k, tip + state.elapsed) && k + 1 < |order| {
      assert state.items[order[k]].expiryHeight <= state.items[order[k + 1]].expiryHeight;
    }
  }

  lemma JoinRescheduled(sha: Data -> string, before: seq<Item>, mid: seq<Item>, after: seq<Item>, first: nat, rest: set<nat>,
                        tip: U64, scheduled: U64)
    requires first < |before| && first !in rest
    requires mid == before[first := ReplacingSchedule(sha, before[first], scheduled, tip)]
    requires OnlyRescheduled(sha, mid, after, rest, tip)
    ensures OnlyRescheduled(sha, before, after, {first} + rest, tip)
    ensures after[first] == ReplacingSchedule(sha, before[first], scheduled, tip)
  {
    assert after[first] == mid[first];
    forall i | 0 <= i < |before| && i in rest
      ensures after[i] == ReplacingSchedule(sha, before[i], after[i].scheduledHeight, tip)
    {
      assert mid[i] == before[i];
    }
  }

  lemma JoinSpaced(after: seq<Item>, order: seq<nat>, k: nat, from: nat, max: nat, scheduled: U64)
    requires k < |order| && InRange(order, |after|)
    requires from < scheduled <= from + max
    requires after[order[k]].scheduledHeight == scheduled < after[order[k]].expiryHeight
    requires Spaced(after, order, k + 1, scheduled, max)
    ensures Spaced(after, order, k, from, max)
  {
  }

  /** Success is decided by the first expiry alone. */
  lemma {:induction false} SucceedsIfFits(sha: Data -> string, state: Rescheduled, order: seq<nat>, k: nat,
                                          tip: U64, max: U64, random: Random)
    requires k <= |order| && InRange(order, |state.items|) && Distinct(order) && ByExpiry(state.items, order)
    requires 0 < max && tip + state.elapsed <= U64_MAX
    ensures var r := RescheduleFrom(sha, state, order, k, tip, max, random);
      && (r.Ok? <==> Fits(state.items, order, k, tip + state.elapsed))
      && (r.Err? ==> r.error == InvalidSchedule)
    decreases |order| - k
  {
    if k < |order| {
      OneTurn(sha, state, order, k, tip, max, random.draw(k));
      var one := RescheduleOne(sha, state, order[k], |order| - k - 1, tip, max, random.draw(k));
      if one.Ok? {
        SucceedsIfFits(sha, one.value, order, k + 1, tip, max, random);
      }
    }
  }

  /** Every height within its bounds, nothing else touched, and the updates report what was stored. */
  ghost predicate Placed(sha: Data -> string, before: Rescheduled, done: Rescheduled, order: seq<nat>, k: nat, tip: U64, max: nat)
    requires k <= |order| && InRange(order, |before.items|)
  {
    && OnlyRescheduled(sha, before.items, done.items, Remaining(order, k), tip)
    && Spaced(done.items, order, k, tip + before.elapsed, max)
    && done.updates == before.updates + UpdatesFor(done.items, order, k, tip)
  }

  lemma PlaceOne(sha: Data -> string, state: Rescheduled, next: Rescheduled, done: Rescheduled, order: seq<nat>, k: nat,
                 tip: U64, max: U64, raw: nat)
    requires k < |order| && InRange(order, |state.items|) && Distinct(order) && ByExpiry(state.items, order)
    requires 0 < max && tip + state.elapsed <= U64_MAX
    requires RescheduleOne(sha, state, order[k], |order| - k - 1, tip, max, raw) == Ok(next)
    requires Placed(sha, next, done, order, k + 1, tip, max)
    ensures Placed(sha, state, done, order, k, tip, max)
  {
    OneTurn(sha, state, order, k, tip, max, raw);
    var scheduled: U64 := tip + next.elapsed;
    NotLater(order, k);
    JoinRescheduled(sha, state.items, next.items, done.items, order[k], Remaining(order, k + 1), tip, scheduled);
    var placed := done.items[order[k]];
    assert placed.scheduledHeight == scheduled < placed.expiryHeight && placed.itemId == state.items[order[k]].itemId;
    JoinSpaced(done.items, order, k, tip + state.elapsed, max, scheduled);
    JoinUpdates(state.updates, next.updates, done.updates, done.items, order, k, tip);
  }

  lemma JoinUpdates(before: seq<ScheduleUpdate>, next: seq<ScheduleUpdate>, done: seq<ScheduleUpdate>, items: seq<Item>,
                    order: seq<nat>, k: nat, tip: U64)
    requires k < |order| && InRange(order, |items|)
    requires next == before + [ScheduleUpdate(items[order[k]].itemId, items[order[k]].scheduledHeight, tip)]
    requires done == next + UpdatesFor(items, order, k + 1, tip)
    ensures done == before + UpdatesFor(items, order, k, tip)
  {
  }

  lemma {:induction false} PlacesWithinBounds(sha: Data -> string, state: Rescheduled, order: seq<nat>, k: nat,
                                              tip: U64, max: U64, random: Random, done: Rescheduled)
    requires k <= |order| && InRange(order, |state.items|) && Distinct(order) && ByExpiry(state.items, order)
    requires 0 < max && tip + state.elapsed <= U64_MAX
    requires RescheduleFrom(sha, state, order, k, tip, max, random) == Ok(done)
    ensures Placed(sha, state, done, order, k, tip, max)
    decreases |order| - k
  {
    if k < |order| {
      OneTurn(sha, state, order, k, tip, max, random.draw(k));
      var next := RescheduleOne(sha, state, order[k], |order| - k - 1, tip, max, random.draw(k)).value;
      PlacesWithinBounds(sha, next, order, k + 1, tip, max, random, done);
      PlaceOne(sha, state, next, done, order, k, tip, max, random.draw(k));
    }
  }

  /** Every overdue peer expires more than `n` blocks after the tip. */
  ghost predicate RoomForAll(items: seq<Item>, excluding: string, tip: U64) {
    forall i :: 0 <= i < |items| && Overdue(items[i], excluding, tip) ==>
      tip + |OverdueIndexes(items, excluding, tip)| < items[i].expiryHeight
  }

  ghost function OverduePeers(items: seq<Item>, excluding: string, tip: U64): set<nat> {
    set i | 0 <= i < |items| && Overdue(items[i], excluding, tip)
  }

  lemma OrderIsOverduePeers(items: seq<Item>, excluding: string, tip: U64, random: Random)
    ensures Remaining(ProcessingOrder(items, excluding, tip, random), 0) == OverduePeers(items, excluding, tip)
  {
    var order := ProcessingOrder(items, excluding, tip, random);
    OrderIsComplete(items, excluding, tip, random);
    RemainingMembers(order, 0);
    forall i ensures i in Remaining(order, 0) <==> i in OverduePeers(items, excluding, tip) {
      if i in OverduePeers(items, excluding, tip) {
        assert i in order;
      }
    }
  }

  /**
   Rescheduling succeeds exactly when the timing is valid and every one of the `n` overdue peers
   expires more than `n` blocks after the tip. The heights then strictly increase in processing
   order, start after the tip, are at most `timingMax` apart and stay below each item's own expiry;
   nothing else about any item changes; and the updates report exactly these heights.
   */
  lemma RescheduleExact(sha: Data -> string, b: Batch, excluding: string, tip: U64, random: Random)
    ensures var r := RescheduleOverdue(sha, b, excluding, tip, random);
      var order := ProcessingOrder(b.items, excluding, tip, random);
      && (r.Ok? <==> 0 < b.timingMean <= b.timingMax && RoomForAll(b.items, excluding, tip))
      && (r.Err? ==> r.error == InvalidSchedule)
      && (r.Ok? ==>
           && OnlyRescheduled(sha, b.items, r.value.items, OverduePeers(b.items, excluding, tip), tip)
           && Spaced(r.value.items, order, 0, tip, b.timingMax)
           && r.value.updates == UpdatesFor(r.value.items, order, 0, tip))
  {
    if 0 < b.timingMean <= b.timingMax {
      OrderIsComplete(b.items, excluding, tip, random);
      ExactForOrder(sha, b, ProcessingOrder(b.items, excluding, tip, random), tip, random);
      FirstExpiryDecides(b.items, excluding, tip, random);
      OrderIsOverduePeers(b.items, excluding, tip, random);
    }
  }

  /** The gap is the raw sample, if it is at least one block and within the bound, and otherwise the nearer of the two. */
  predicate IsSample(raw: nat, bound: int, gap: int) {
    && (1 <= raw <= bound ==> gap == raw) && (raw == 0 && 1 <= bound ==> gap == 1) && (bound < raw ==> gap == bound)
  }

  /**
   From position `k` on, each height lies one sample after the height before it; the sample is bounded by
   `max` and by the latest height that still leaves a block to each peer behind, before this peer expires.
   */
  ghost predicate Sampled(items: seq<Item>, order: seq<nat>, k: nat, from: nat, max: nat, random: Random)
    requires k <= |order| && InRange(order, |items|)
    decreases |order| - k
  {
    k == |order| ||
    (var it := items[order[k]]; var latest := it.expiryHeight - (|order| - k);
     && IsSample(random.draw(k), if latest - from < max then latest - from else max, it.scheduledHeight - from)
     && Sampled(items, order, k + 1, it.scheduledHeight, max, random))
  }

  lemma TurnIsSampled(sha: Data -> string, state: Rescheduled, order: seq<nat>, k: nat, tip: U64, max: U64, raw: nat, next: Rescheduled)
    requires k < |order| && InRange(order, |state.items|) && Distinct(order) && ByExpiry(state.items, order)
    requires 0 < max && tip + state.elapsed <= U64_MAX
    requires RescheduleOne(sha, state, order[k], |order| - k - 1, tip, max, raw) == Ok(next)
    ensures var latest := state.items[order[k]].expiryHeight - (|order| - k); var room := latest - (tip + state.elapsed);
      IsSample(raw, if room < max then room else max, next.elapsed - state.elapsed)
  {
    OneTurn(sha, state, order, k, tip, max, raw);
  }

  lemma JoinSampled(items: seq<Item>, order: seq<nat>, k: nat, from: nat, max: nat, random: Random, scheduled: nat, expiry: nat)
    requires k < |order| && InRange(order, |items|)
    requires items[order[k]].scheduledHeight == scheduled && items[order[k]].expiryHeight == expiry
    requires var room := expiry - (|order| - k) - from; IsSample(random.draw(k), if room < max then room else max, scheduled - from)
    requires Sampled(items, order, k + 1, scheduled, max, random)
    ensures Sampled(items, order, k, from, max, random)
  {
  }

  /** A turn places its peer for good: no later turn touches it. */
  lemma TurnStays(sha: Data -> string, state: Rescheduled, order: seq<nat>, k: nat, tip: U64, max: U64, random: Random,
                  next: Rescheduled, done: Rescheduled)
    requires k < |order| && InRange(order, |state.items|) && Distinct(order) && ByExpiry(state.items, order)
    requires 0 < max && tip + state.elapsed <= U64_MAX
    requires RescheduleOne(sha, state, order[k], |order| - k - 1, tip, max, random.draw(k)) == Ok(next)
    requires RescheduleFrom(sha, next, order, k + 1, tip, max, random) == Ok(done)
    ensures tip + next.elapsed <= U64_MAX && |done.items| == |next.items| == |state.items| && ByExpiry(next.items, order)
    ensures done.items[order[k]].scheduledHeight == tip + next.elapsed
    ensures done.items[order[k]].expiryHeight == state.items[order[k]].expiryHeight
  {
    OneTurn(sha, state, order, k, tip, max, random.draw(k));
    PlacesWithinBounds(sha, next, order, k + 1, tip, max, random, done);
    NotLater(order, k);
    assert done.items[order[k]] == next.items[order[k]];
  }

  lemma {:induction false} SampledFrom(sha: Data -> string, state: Rescheduled, order: seq<nat>, k: nat,
                                       tip: U64, max: U64, random: Random, done: Rescheduled)
    requires k <= |order| && InRange(order, |state.items|) && Distinct(order) && ByExpiry(state.items, order)
    requires 0 < max && tip + state.elapsed <= U64_MAX
    requires RescheduleFrom(sha, state, order, k, tip, max, random) == Ok(done)
    ensures InRange(order, |done.items|) && Sampled(done.items, order, k, tip + state.elapsed, max, random) == true
    decreases |order| - k
  {
    if k < |order| {
      var next := RescheduleOne(sha, state, order[k], |order| - k - 1, tip, max, random.draw(k)).value;
      TurnStays(sha, state, order, k, tip, max, random, next, done);
      TurnIsSampled(sha, state, order, k, tip, max, random.draw(k), next);
      SampledFrom(sha, next, order, k + 1, tip, max, random, done);
      JoinSampled(done.items, order, k, tip + state.elapsed, max, random, tip + next.elapsed, state.items[order[k]].expiryHeight);
    }
  }

  /** What the heights are, for any draws: each overdue peer, in processing order, lies one bounded sample after the one before it. */
  lemma HeightsAreSampled(sha: Data -> string, b: Batch, excluding: string, tip: U64, random: Random, done: Rescheduled)
    requires RescheduleOverdue(sha, b, excluding, tip, random) == Ok(done)
    ensures Sampled(done.items, ProcessingOrder(b.items, excluding, tip, random), 0, tip, b.timingMax, random)
  {
    OrderIsComplete(b.items, excluding, tip, random);
    SampledFrom(sha, Rescheduled(b.items, 0, []), ProcessingOrder(b.items, excluding, tip, random), 0, tip, b.timingMax, random, done);
  }

  lemma ExactForOrder(sha: Data -> string, b: Batch, order: seq<nat>, tip: U64, random: Random)
    requires 0 < b.timingMax && InRange(order, |b.items|) && Distinct(order) && ByExpiry(b.items, order)
    ensures var start := Rescheduled(b.items, 0, []);
      var r := RescheduleFrom(sha, start, order, 0, tip, b.timingMax, random);
      && (r.Ok? <==> Fits(b.items, order, 0, tip))
      && (r.Err? ==> r.error == InvalidSchedule)
      && (r.Ok? ==> Placed(sha, start, r.value, order, 0, tip, b.timingMax))
  {
    var start := Rescheduled(b.items, 0, []);
    SucceedsIfFits(sha, start, order, 0, tip, b.timingMax, random);
    var r := RescheduleFrom(sha, start, order, 0, tip, b.timingMax, random);
    if r.Ok? {
      PlacesWithinBounds(sha, start, order, 0, tip, b.timingMax, random, r.value);
    }
  }

  lemma FirstExpiryDecides(items: seq<Item>, excluding: string, tip: U64, random: Random)
    ensures var order := ProcessingOrder(items, excluding, tip, random);
      Fits(items, order, 0, tip) <==> RoomForAll(items, excluding, tip)
  {
    var order := ProcessingOrder(items, excluding, tip, random);
    OrderIsComplete(items, excluding, tip, random);
    if order == [] || tip + |order| < items[order[0]].expiryHeight {
      forall i | 0 <= i < |items| && Overdue(items[i], excluding, tip)
        ensures tip + |order| < items[i].expiryHeight
      {
        var j :| 0 <= j < |order| && order[j] == i;
        assert items[order[0]].expiryHeight <= items[order[j]].expiryHeight;
      }
    }
  }

  // ----- the check before the broadcast ------------------------------------------------------

  ghost predicate Ascending(s: seq<U64>) {
    forall i, j :: 0 <= i < j < |s| ==> s[i] <= s[j]
  }

  lemma {:induction false} InsertHeightSorts(sorted: seq<U64>, h: U64)
    requires Ascending(sorted)
    ensures Ascending(InsertHeight(sorted, h))
  {
    if sorted != [] && h >= sorted[0] {
      InsertHeightSorts(sorted[1..], h);
      var rest := InsertHeight(sorted[1..], h);
      forall j | 0 <= j < |rest| ensures sorted[0] <= rest[j] {
        assert rest[j] in multiset(rest);
        if rest[j] != h {
          assert rest[j] in sorted[1..];
        }
      }
    }
  }

  lemma {:induction false} SortHeightsSorts(heights: seq<U64>)
    ensures Ascending(SortHeights(heights))
  {
    if heights != [] {
      SortHeightsSorts(heights[..|heights| - 1]);
      InsertHeightSorts(SortHeights(heights[..|heights| - 1]), heights[|heights| - 1]);
    }
  }

  /** The check in closed form: the k-th earliest expiry lies more than k blocks after the tip. */
  lemma {:induction false} RoomForExact(expiries: seq<U64>, k: nat, next: U64)
    requires k <= |expiries|
    ensures RoomFor(expiries, k, next) <==> forall j :: k <= j < |expiries| ==> next + (j - k) + 1 < expiries[j]
    decreases |expiries| - k
  {
    if k < |expiries| && next + 1 < expiries[k] {
      RoomForExact(expiries, k + 1, next + 1);
      forall j | k <= j < |expiries|
        ensures next + (j - k) + 1 < expiries[j] <==> j == k || (next + 1) + (j - (k + 1)) + 1 < expiries[j]
      {
      }
    }
  }

  lemma {:induction false} OverdueExpiriesMatch(items: seq<Item>, excluding: string, tip: U64)
    ensures |OverdueExpiries(items, excluding, tip)| == |OverdueIndexes(items, excluding, tip)|
    ensures forall j :: 0 <= j < |OverdueExpiries(items, excluding, tip)| ==>
      OverdueExpiries(items, excluding, tip)[j] == items[OverdueIndexes(items, excluding, tip)[j]].expiryHeight
  {
    if items != [] {
      OverdueExpiriesMatch(items[..|items| - 1], excluding, tip);
    }
  }

  /** The sorted list that the check walks. */
  ghost function SortedExpiries(items: seq<Item>, excluding: string, tip: U64): seq<U64> {
    SortHeights(OverdueExpiries(items, excluding, tip))
  }

  lemma MultisetHeights(a: seq<U64>, b: seq<U64>)
    requires multiset(a) == multiset(b)
    ensures |a| == |b| && forall x: U64 :: x in a <==> x in b
  {
    assert |multiset(a)| == |a| && |multiset(b)| == |b|;
    forall x: U64 ensures x in a <==> x in b {
      assert (x in a <==> x in multiset(a)) && (x in b <==> x in multiset(b));
    }
  }

  ghost predicate PeerExpiry(items: seq<Item>, excluding: string, tip: U64, h: U64) {
    exists i :: 0 <= i < |items| && Overdue(items[i], excluding, tip) && items[i].expiryHeight == h
  }

  lemma RawExpiriesMatch(items: seq<Item>, excluding: string, tip: U64)
    ensures var raw := OverdueExpiries(items, excluding, tip);
      forall h: U64 :: h in raw <==> PeerExpiry(items, excluding, tip, h)
  {
    var raw := OverdueExpiries(items, excluding, tip);
    var indexes := OverdueIndexes(items, excluding, tip);
    OverdueExpiriesMatch(items, excluding, tip);
    forall h: U64 ensures h in raw <==> PeerExpiry(items, excluding, tip, h) {
      if h in raw {
        var m :| 0 <= m < |raw| && raw[m] == h;
        assert Overdue(items[indexes[m]], excluding, tip);
      }
      if PeerExpiry(items, excluding, tip, h) {
        var i :| 0 <= i < |items| && Overdue(items[i], excluding, tip) && items[i].expiryHeight == h;
        assert i in indexes;
        var m :| 0 <= m < |indexes| && indexes[m] == i;
        assert raw[m] == h;
      }
    }
  }

  /** The sorted list holds exactly the expiries of the overdue peers. */
  lemma SortedExpiriesMatch(items: seq<Item>, excluding: string, tip: U64)
    ensures var e := SortedExpiries(items, excluding, tip);
      && |e| == |OverdueIndexes(items, excluding, tip)|
      && Ascending(e)
      && (forall j :: 0 <= j < |e| ==> PeerExpiry(items, excluding, tip, e[j]))
      && (forall i :: 0 <= i < |items| && Overdue(items[i], excluding, tip) ==> items[i].expiryHeight in e)
  {
    var raw := OverdueExpiries(items, excluding, tip);
    var e := SortHeights(raw);
    OverdueExpiriesMatch(items, excluding, tip);
    RawExpiriesMatch(items, excluding, tip);
    SortHeightsSorts(raw);
    MultisetHeights(e, raw);
    forall j | 0 <= j < |e| ensures PeerExpiry(items, excluding, tip, e[j]) {
      assert e[j] in raw;
    }
    forall i | 0 <= i < |items| && Overdue(items[i], excluding, tip) ensures items[i].expiryHeight in e {
      assert PeerExpiry(items, excluding, tip, items[i].expiryHeight);
    }
  }

  ghost predicate CheckPasses(items: seq<Item>, excluding: string, tip: U64) {
    RoomFor(SortedExpiries(items, excluding, tip), 0, tip)
  }

  /** The check refuses nothing that rescheduling could do. */
  lemma CheckIsNecessary(items: seq<Item>, excluding: string, tip: U64)
    requires RoomForAll(items, excluding, tip)
    ensures CheckPasses(items, excluding, tip)
  {
    var e := SortedExpiries(items, excluding, tip);
    SortedExpiriesMatch(items, excluding, tip);
    RoomForExact(e, 0, tip);
    forall j | 0 <= j < |e| ensures tip + j + 1 < e[j] {
      var i :| 0 <= i < |items| && Overdue(items[i], excluding, tip) && items[i].expiryHeight == e[j];
    }
  }

  /** All overdue peers share one expiry height. */
  ghost predicate OneExpiry(items: seq<Item>, excluding: string, tip: U64) {
    forall i, j :: 0 <= i < |items| && 0 <= j < |items|
                   && Overdue(items[i], excluding, tip) && Overdue(items[j], excluding, tip)
                   ==> items[i].expiryHeight == items[j].expiryHeight
  }

  /**
   What the check leaves open: when it passes, rescheduling can still fail, and does so exactly
   when the earliest peer expiry is within `n` blocks of the tip. With one shared expiry it cannot.
   */
  lemma CheckGap(items: seq<Item>, excluding: string, tip: U64)
    requires CheckPasses(items, excluding, tip)
    ensures var e := SortedExpiries(items, excluding, tip);
      RoomForAll(items, excluding, tip) <==> e == [] || tip + |e| < e[0]
    ensures OneExpiry(items, excluding, tip) ==> RoomForAll(items, excluding, tip)
  {
    var e := SortedExpiries(items, excluding, tip);
    SortedExpiriesMatch(items, excluding, tip);
    RoomForExact(e, 0, tip);
    if e != [] {
      var i0 :| 0 <= i0 < |items| && Overdue(items[i0], excluding, tip) && items[i0].expiryHeight == e[0];
      var n := |e| - 1;
      var i1 :| 0 <= i1 < |items| && Overdue(items[i1], excluding, tip) && items[i1].expiryHeight == e[n];
      if tip + |e| < e[0] {
        EarliestBounds(items, excluding, tip);
      }
      if OneExpiry(items, excluding, tip) {
        assert tip + n + 1 < e[n] && e[n] == e[0];
        EarliestBounds(items, excluding, tip);
      }
    } else {
      NoExpiriesNoPeers(items, excluding, tip);
    }
  }

  lemma EarliestBounds(items: seq<Item>, excluding: string, tip: U64)
    requires var e := SortedExpiries(items, excluding, tip); e != [] && tip + |e| < e[0]
    ensures RoomForAll(items, excluding, tip)
  {
    var e := SortedExpiries(items, excluding, tip);
    SortedExpiriesMatch(items, excluding, tip);
    forall i | 0 <= i < |items| && Overdue(items[i], excluding, tip)
      ensures tip + |e| < items[i].expiryHeight
    {
      var j :| 0 <= j < |e| && e[j] == items[i].expiryHeight;
    }
  }

  lemma NoExpiriesNoPeers(items: seq<Item>, excluding: string, tip: U64)
    requires SortedExpiries(items, excluding, tip) == []
    ensures RoomForAll(items, excluding, tip)
  {
    SortedExpiriesMatch(items, excluding, tip);
    forall i | 0 <= i < |items| ensures !Overdue(items[i], excluding, tip) {
      if Overdue(items[i], excluding, tip) {
        assert false;
      }
    }
  }

  /**
   With one shared expiry the check before the broadcast is exact: it passes if and only if the
   reschedule after acceptance succeeds, for every random source.
   */
  lemma CheckIsExact(sha: Data -> string, b: Batch, excluding: string, tip: U64, random: Random)
    requires 0 < b.timingMean <= b.timingMax
    requires OneExpiry(b.items, excluding, tip)
    ensures CheckPasses(b.items, excluding, tip) <==> RescheduleOverdue(sha, b, excluding, tip, random).Ok?
  {
    RescheduleExact(sha, b, excluding, tip, random);
    if CheckPasses(b.items, excluding, tip) {
      CheckGap(b.items, excluding, tip);
    }
    if RoomForAll(b.items, excluding, tip) {
      CheckIsNecessary(b.items, excluding, tip);
    }
  }

  /** Two overdue peers that expire two and three blocks after the tip: the check passes, rescheduling throws. */
  lemma CheckAloneIsNotEnough(sha: Data -> string, b: Batch, accepted: string, tip: U64, random: Random)
    requires |b.items| == 3 && b.items[2].itemId == accepted
    requires Overdue(b.items[0], accepted, tip) && b.items[0].expiryHeight == tip + 2
    requires Overdue(b.items[1], accepted, tip) && b.items[1].expiryHeight == tip + 3
    ensures CheckPasses(b.items, accepted, tip)
    ensures RescheduleOverdue(sha, b, accepted, tip, random) == Err(InvalidSchedule)
  {
    PeersInWindow(b.items, accepted, tip);
    RescheduleExact(sha, b, accepted, tip, random);
  }

  lemma PeersInWindow(items: seq<Item>, accepted: string, tip: U64)
    requires |items| == 3 && items[2].itemId == accepted
    requires Overdue(items[0], accepted, tip) && items[0].expiryHeight == tip + 2
    requires Overdue(items[1], accepted, tip) && items[1].expiryHeight == tip + 3
    ensures CheckPasses(items, accepted, tip) && !RoomForAll(items, accepted, tip)
  {
    TwoExpiries(items, accepted, tip);
    SortedExpiriesMatch(items, accepted, tip);
    var e := SortedExpiries(items, accepted, tip);
    RoomForExact(e, 0, tip);
    assert items[0].expiryHeight in e && items[1].expiryHeight in e;
    assert e[0] <= e[1];
  }

  lemma TwoExpiries(items: seq<Item>, accepted: string, tip: U64)
    requires |items| == 3 && items[2].itemId == accepted
    requires Overdue(items[0], accepted, tip) && Overdue(items[1], accepted, tip)
    ensures |OverdueIndexes(items, accepted, tip)| == 2
  {
    var one := items[..1];
    var two := items[..2];
    assert two[..1] == one && one[..0] == [];
    assert |OverdueIndexes(one, accepted, tip)| == 1;
    assert |OverdueIndexes(two, accepted, tip)| == 2;
  }
}
