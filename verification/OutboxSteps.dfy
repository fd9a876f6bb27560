/** Every snapshot mutation keeps the invariant, and what it may do to an item that it keeps. */
module OutboxSteps {
  import opened Common
  import opened OutboxModel
  import opened Counting
  import opened OutboxInvariant

  /** The one item a mutation may cancel before its broadcast, or begin to broadcast. */
  datatype Exempt = Nobody | Cancels(itemId: string) | Begins(itemId: string)

  /**
   What can become of an item: its evidence is the same, its attempt count never falls, a status that
   awaits reconciliation is final, a possible broadcast stays on record unless it is cancelled before
   it began and enters the record only as a submission begins, and nothing else starts a submission.
   */
  ghost predicate Follows(it: Item, after: Item, exempt: Exempt) {
    && SameEvidence(it, after)
    && it.attemptCount <= after.attemptCount
    && (Awaiting(it.status) ==> after.status == it.status)
    && (Attempted(it) && exempt != Cancels(it.itemId) ==> Attempted(after))
    && (Attempted(after) && exempt != Begins(it.itemId) ==> Attempted(it))
    && (after.status == Submitting && exempt != Begins(it.itemId) ==> it.status == Submitting)
  }

  /** Nothing moved: position by position, each batch keeps its owner and each item follows the old one. */
  ghost predicate Aligned(s: Snapshot, t: Snapshot, exempt: Exempt) {
    && |s.batches| == |t.batches|
    && (forall i :: 0 <= i < |s.batches| ==> AlignedBatch(s.batches[i], t.batches[i], exempt))
  }

  ghost predicate AlignedBatch(b: Batch, c: Batch, exempt: Exempt) {
    && OwnerOf(b) == OwnerOf(c)
    && |b.items| == |c.items|
    && (forall j :: 0 <= j < |b.items| ==> Follows(b.items[j], c.items[j], exempt))
  }

  /** No item newly awaits reconciliation. */
  ghost predicate NoNewDebt(b: Batch, c: Batch)
    requires |b.items| == |c.items|
  {
    forall j :: 0 <= j < |b.items| && Awaiting(c.items[j].status) ==> Awaiting(b.items[j].status)
  }

  lemma AlignedCount(q: Query, b: Batch, c: Batch, exempt: Exempt)
    requires AlignedBatch(b, c, exempt)
    requires q.ById? || NoNewDebt(b, c)
    ensures CountIn(q, b) == CountIn(q, c)
  {
    CountSame(q, OwnerOf(b), b.items, c.items);
  }

  lemma AlignedUnique(s: Snapshot, t: Snapshot, exempt: Exempt)
    requires Aligned(s, t, exempt) && UniqueBatches(s.batches) && UniqueItems(s.batches)
    ensures UniqueBatches(t.batches) && UniqueItems(t.batches)
  {
    forall i, j | 0 <= i < j < |t.batches| ensures t.batches[i].batchId != t.batches[j].batchId {
      assert AlignedBatch(s.batches[i], t.batches[i], exempt) && AlignedBatch(s.batches[j], t.batches[j], exempt);
    }
    forall id: string ensures CountAll(ById(id), t.batches) <= 1 {
      forall i | 0 <= i < |s.batches| ensures CountIn(ById(id), s.batches[i]) == CountIn(ById(id), t.batches[i]) {
        AlignedCount(ById(id), s.batches[i], t.batches[i], exempt);
      }
      CountAllSame(ById(id), s.batches, t.batches);
    }
  }

  lemma AlignedMatched(s: Snapshot, t: Snapshot, exempt: Exempt)
    requires Aligned(s, t, exempt) && Matched(s) && t.receipts == s.receipts
    requires forall i :: 0 <= i < |s.batches| ==> AlignedBatch(s.batches[i], t.batches[i], exempt) && NoNewDebt(s.batches[i], t.batches[i])
    ensures Matched(t)
  {
    forall d: Debt ensures CountAll(ByDebt(d), t.batches) == CountReceipts(d, t.receipts) {
      forall i | 0 <= i < |s.batches| ensures CountIn(ByDebt(d), s.batches[i]) == CountIn(ByDebt(d), t.batches[i]) {
        AlignedCount(ByDebt(d), s.batches[i], t.batches[i], exempt);
      }
      CountAllSame(ByDebt(d), s.batches, t.batches);
    }
  }

  // ----- where the items of the next snapshot come from --------------------------------------

  ghost predicate Inherits(s: Snapshot, batchId: string, after: Item, exempt: Exempt) {
    exists i, j :: 0 <= i < |s.batches| && 0 <= j < |s.batches[i].items|
      && s.batches[i].batchId == batchId && Follows(s.batches[i].items[j], after, exempt)
  }

  /** Staged just now, never attempted, under an id that was not stored before. */
  ghost predicate Fresh(s: Snapshot, after: Item) {
    after.status == Staged && after.attemptCount == 0 && CountAll(ById(after.itemId), s.batches) == 0
  }

  /** Every stored item either follows one stored before in the same batch, or is fresh. */
  ghost predicate Descends(s: Snapshot, t: Snapshot, exempt: Exempt) {
    forall k, l :: 0 <= k < |t.batches| && 0 <= l < |t.batches[k].items| ==>
      Inherits(s, t.batches[k].batchId, t.batches[k].items[l], exempt) || Fresh(s, t.batches[k].items[l])
  }

  lemma AlignedDescends(s: Snapshot, t: Snapshot, exempt: Exempt)
    requires Aligned(s, t, exempt)
    ensures Descends(s, t, exempt)
  {
    forall k, l | 0 <= k < |t.batches| && 0 <= l < |t.batches[k].items|
      ensures Inherits(s, t.batches[k].batchId, t.batches[k].items[l], exempt)
    {
      assert AlignedBatch(s.batches[k], t.batches[k], exempt);
      assert Follows(s.batches[k].items[l], t.batches[k].items[l], exempt);
    }
  }

  lemma AlignedTrans(s: Snapshot, t: Snapshot, u: Snapshot, exempt: Exempt)
    requires Aligned(s, t, Nobody) && Aligned(t, u, exempt)
    ensures Aligned(s, u, exempt)
  {
    forall i | 0 <= i < |s.batches| ensures AlignedBatch(s.batches[i], u.batches[i], exempt) {
      assert AlignedBatch(s.batches[i], t.batches[i], Nobody) && AlignedBatch(t.batches[i], u.batches[i], exempt);
      forall j | 0 <= j < |s.batches[i].items| ensures Follows(s.batches[i].items[j], u.batches[i].items[j], exempt) {
        assert Follows(s.batches[i].items[j], t.batches[i].items[j], Nobody);
        assert Follows(t.batches[i].items[j], u.batches[i].items[j], exempt);
      }
    }
  }

  lemma AlignedSelf(s: Snapshot)
    ensures Aligned(s, s, Nobody)
  {
  }

  /** The whole step relation of a mutation that moves nothing. */
  ghost predicate Keeps(sha: Data -> string, s: Snapshot, t: Snapshot, exempt: Exempt) {
    Inv(sha, t) && Aligned(s, t, exempt)
  }

  /** Position-by-position conditions under which a mutation that lists no receipt keeps everything. */
  lemma QuietStep(sha: Data -> string, s: Snapshot, t: Snapshot, exempt: Exempt)
    requires Inv(sha, s)
    requires t.receipts == s.receipts && |t.batches| == |s.batches|
    requires forall i :: 0 <= i < |s.batches| ==>
      AlignedBatch(s.batches[i], t.batches[i], exempt) && NoNewDebt(s.batches[i], t.batches[i])
    requires AllOk(sha, t)
    ensures Keeps(sha, s, t, exempt)
  {
    AlignedUnique(s, t, exempt);
    AlignedMatched(s, t, exempt);
  }

  /** The same when one batch changes. */
  lemma QuietBatch(sha: Data -> string, s: Snapshot, at: nat, b: Batch, exempt: Exempt)
    requires Inv(sha, s) && at < |s.batches|
    requires AlignedBatch(s.batches[at], b, exempt) && NoNewDebt(s.batches[at], b)
    requires BatchOk(sha, Announced(s), b)
    ensures Keeps(sha, s, WithBatch(s, at, b), exempt)
  {
    var t := WithBatch(s, at, b);
    assert Announced(t) == Announced(s);
    forall i | 0 <= i < |s.batches|
      ensures AlignedBatch(s.batches[i], t.batches[i], exempt) && NoNewDebt(s.batches[i], t.batches[i]) && BatchOk(sha, Announced(t), t.batches[i])
    {
      assert BatchOk(sha, Announced(s), s.batches[i]);
    }
    QuietStep(sha, s, t, exempt);
  }

  /** The same when only the flags of one batch change. */
  lemma FlagStep(sha: Data -> string, s: Snapshot, at: nat, b: Batch)
    requires Inv(sha, s) && at < |s.batches|
    requires OwnerOf(b) == OwnerOf(s.batches[at]) && b.items == s.batches[at].items
    requires BatchOk(sha, Announced(s), b)
    ensures Keeps(sha, s, WithBatch(s, at, b), Nobody)
  {
    QuietBatch(sha, s, at, b, Nobody);
  }

  /** The same when one item of one batch changes. */
  lemma QuietItem(sha: Data -> string, s: Snapshot, at: (nat, nat), it: Item, exempt: Exempt)
    requires Inv(sha, s) && at.0 < |s.batches| && at.1 < |s.batches[at.0].items|
    requires Follows(ItemAt(s, at), it, exempt) && (Awaiting(it.status) ==> Awaiting(ItemAt(s, at).status))
    requires ItemOk(sha, it)
    ensures Keeps(sha, s, WithItemAt(s, at, it), exempt)
  {
    assert BatchOk(sha, Announced(s), s.batches[at.0]);
    QuietBatch(sha, s, at.0, WithItem(s.batches[at.0], at.1, it), exempt);
  }

  // ----- arming and recovery ----------------------------------------------------------------

  /** Items may be armed, or counted as an uncertain attempt; either way each one follows the old one. */
  ghost predicate Quietly(sha: Data -> string, it: Item, after: Item) {
    ItemOk(sha, after) && Follows(it, after, Nobody) && (Awaiting(after.status) ==> Awaiting(it.status))
  }

  lemma ArmedQuietly(sha: Data -> string, it: Item, digests: map<string, string>)
    requires ItemOk(sha, it)
    ensures Quietly(sha, it, ArmedIfExpected(digests)(it))
  {
  }

  lemma RecoveredQuietly(sha: Data -> string, it: Item, date: int)
    requires ItemOk(sha, it)
    ensures Quietly(sha, it, RecoveredItem(date)(it)) && Quietly(sha, it, Interrupted(date)(it))
    ensures Interrupted(date)(it).status != Submitting && RecoveredItem(date)(it).status != Submitting
  {
  }

  /** A batch whose items all changed quietly, and whose announcements did not change. */
  lemma QuietItems(sha: Data -> string, s: Snapshot, at: nat, c: Batch)
    requires Inv(sha, s) && at < |s.batches|
    requires OwnerOf(c) == OwnerOf(s.batches[at]) && |c.items| == |s.batches[at].items|
    requires BatchOk(sha, Announced(s), c.(items := []))
    requires forall j :: 0 <= j < |c.items| ==> Quietly(sha, s.batches[at].items[j], c.items[j])
    ensures AlignedBatch(s.batches[at], c, Nobody) && NoNewDebt(s.batches[at], c) && BatchOk(sha, Announced(s), c)
    ensures Keeps(sha, s, WithBatch(s, at, c), Nobody)
  {
    QuietBatch(sha, s, at, c, Nobody);
  }

  lemma ArmKeeps(sha: Data -> string, s: Snapshot, batchId: string, digests: map<string, string>, date: int)
    requires Inv(sha, s)
    ensures var r := ArmBatch(s, batchId, digests, date); r.Ok? ==> Keeps(sha, s, r.value, Nobody)
  {
    var r := ArmBatch(s, batchId, digests, date);
    var at := BatchIndex(s.batches, batchId);
    if r.Ok? {
      var b, c := s.batches[at], r.value.batches[at];
      assert BatchOk(sha, Announced(s), b);
      forall j | 0 <= j < |b.items| ensures Quietly(sha, b.items[j], c.items[j]) {
        ArmedQuietly(sha, b.items[j], digests);
      }
      QuietItems(sha, s, at, c);
    }
  }

  lemma RecoverBatchKeeps(sha: Data -> string, s: Snapshot, batchId: string, network: string, accountUuid: string, runId: string,
                          expected: set<string>, url: string, date: int)
    requires Inv(sha, s)
    ensures var r := RecoverBatch(s, batchId, network, accountUuid, runId, expected, url, date);
      r.Ok? ==> Keeps(sha, s, r.value.0, Nobody)
  {
    AlignedSelf(s);
    var r := RecoverBatch(s, batchId, network, accountUuid, runId, expected, url, date);
    var at := BatchIndex(s.batches, batchId);
    if r.Ok? && at < |s.batches| {
      var b, c := s.batches[at], r.value.0.batches[at];
      assert BatchOk(sha, Announced(s), b);
      forall j | 0 <= j < |b.items| ensures Quietly(sha, b.items[j], c.items[j]) {
        RecoveredQuietly(sha, b.items[j], date);
      }
      QuietItems(sha, s, at, c);
    }
  }

  lemma RecoverInterruptedKeeps(sha: Data -> string, s: Snapshot, date: int)
    requires Inv(sha, s)
    ensures Keeps(sha, s, RecoverInterrupted(s, date), Nobody)
    ensures forall i, j :: 0 <= i < |s.batches| && 0 <= j < |s.batches[i].items| ==>
      RecoverInterrupted(s, date).batches[i].items[j].status != Submitting
  {
    var t := RecoverInterrupted(s, date);
    assert Announced(t) == Announced(s);
    forall i | 0 <= i < |s.batches|
      ensures AlignedBatch(s.batches[i], t.batches[i], Nobody) && NoNewDebt(s.batches[i], t.batches[i]) && BatchOk(sha, Announced(t), t.batches[i])
      ensures forall j :: 0 <= j < |s.batches[i].items| ==> t.batches[i].items[j].status != Submitting
    {
      var b, c := s.batches[i], t.batches[i];
      assert BatchOk(sha, Announced(s), b);
      forall j | 0 <= j < |b.items| ensures Quietly(sha, b.items[j], c.items[j]) && c.items[j].status != Submitting {
        RecoveredQuietly(sha, b.items[j], date);
      }
      QuietItems(sha, s, i, c);
    }
    QuietStep(sha, s, t, Nobody);
  }

  // ----- announcements ----------------------------------------------------------------------

  lemma MarkProofReadyKeeps(sha: Data -> string, s: Snapshot, tip: U64, endpoint: string, date: int)
    requires Inv(sha, s)
    ensures Keeps(sha, s, MarkProofReady(s, tip, endpoint, date), Nobody)
  {
    AlignedSelf(s);
    var c := ProofCandidate(s, tip, endpoint);
    if c.Some? {
      BatchFinds(s.batches, c.value);
      var b := s.batches[c.value];
      assert BatchOk(sha, Announced(s), b);
      if b.readyPendingAt.None? {
        FlagStep(sha, s, c.value, b.(readyPendingAt := Some(date)));
      }
    }
  }

  lemma VerifiedKeeps(sha: Data -> string, s: Snapshot, network: string, accountUuid: string, runId: string, date: int)
    requires Inv(sha, s)
    ensures Keeps(sha, s, RecordVerifiedReadiness(s, network, accountUuid, runId, date).0, Nobody)
  {
    AlignedSelf(s);
    var c := VerifiedCandidate(s, network, accountUuid, runId);
    if c.Some? {
      var b := s.batches[c.value];
      assert BatchOk(sha, Announced(s), b);
      if b.readyNotifiedAt.None? && b.readyPendingAt.None? {
        FlagStep(sha, s, c.value, b.(readyPendingAt := Some(date)));
      }
    }
  }

  lemma AckProofReadyKeeps(sha: Data -> string, s: Snapshot, batchId: string, date: int)
    requires Inv(sha, s)
    ensures var r := AcknowledgeProofReady(s, batchId, date); r.Ok? ==> Keeps(sha, s, r.value, Nobody)
  {
    var at := BatchIndex(s.batches, batchId);
    if AcknowledgeProofReady(s, batchId, date).Ok? {
      assert BatchOk(sha, Announced(s), s.batches[at]);
      FlagStep(sha, s, at, s.batches[at].(readyPendingAt := None, readyNotifiedAt := Some(date)));
    }
  }

  lemma HeightNoticeKeeps(sha: Data -> string, s: Snapshot, batchId: string, date: int)
    requires Inv(sha, s)
    ensures Keeps(sha, s, MarkHeightNotice(s, batchId, date).0, Nobody)
  {
    AlignedSelf(s);
    var at := BatchIndex(s.batches, batchId);
    if MarkHeightNotice(s, batchId, date).1 {
      assert BatchOk(sha, Announced(s), s.batches[at]);
      FlagStep(sha, s, at, s.batches[at].(noticePendingAt := Some(date)));
    }
  }

  lemma AckHeightNoticeKeeps(sha: Data -> string, s: Snapshot, batchId: string, date: int)
    requires Inv(sha, s)
    ensures var r := AcknowledgeHeightNotice(s, batchId, date); r.Ok? ==> Keeps(sha, s, r.value, Nobody)
  {
    var at := BatchIndex(s.batches, batchId);
    if AcknowledgeHeightNotice(s, batchId, date).Ok? {
      assert BatchOk(sha, Announced(s), s.batches[at]);
      FlagStep(sha, s, at, s.batches[at].(noticePendingAt := None, noticedAt := Some(date)));
    }
  }

  lemma MarkCompleteKeeps(sha: Data -> string, s: Snapshot, batchId: string, date: int)
    requires Inv(sha, s)
    ensures Keeps(sha, s, MarkBroadcastComplete(s, batchId, date).0, Nobody)
  {
    AlignedSelf(s);
    var at := BatchIndex(s.batches, batchId);
    if at < |s.batches| && CompleteAndUnannounced(s, s.batches[at]) && s.batches[at].completePendingAt.None? {
      assert BatchOk(sha, Announced(s), s.batches[at]);
      FlagStep(sha, s, at, s.batches[at].(completePendingAt := Some(date)));
    }
  }

  // ----- sweeps -----------------------------------------------------------------------------

  lemma SweptAligned(sha: Data -> string, sweep: Sweep, b: Batch, announced: seq<string>)
    requires BatchOk(sha, announced, b)
    ensures AlignedBatch(b, SweptBatch(sweep, b), Nobody) && BatchOk(sha, announced, SweptBatch(sweep, b))
  {
    var c := SweptBatch(sweep, b);
    forall j | 0 <= j < |b.items|
      ensures Follows(b.items[j], c.items[j], Nobody) && ItemOk(sha, c.items[j])
    {
      assert c.items[j] == sweep.Retired(b.items[j]);
      RetiredFollows(sha, sweep, b.items[j]);
    }
  }

  lemma RetiredFollows(sha: Data -> string, sweep: Sweep, it: Item)
    requires ItemOk(sha, it)
    ensures Follows(it, sweep.Retired(it), Nobody) && ItemOk(sha, sweep.Retired(it))
  {
  }

  lemma RetiredHit(d: Debt, sweep: Sweep, b: Batch, it: Item, date: int)
    ensures var r := MakeReceipt(b, it, sweep.Outcome(), sweep.tip, None, sweep.Message(), [], date);
      Hit(ByDebt(d), OwnerOf(b), sweep.Retired(it))
      == Hit(ByDebt(d), OwnerOf(b), it) + (if sweep.Hits(it) && ReceiptDebt(r) == d then 1 else 0)
  {
  }

  /** A swept batch owes exactly what it owed before and what the new receipts report. */
  lemma {:induction false} SweepCount(d: Debt, sweep: Sweep, b: Batch, items: seq<Item>, date: int)
    ensures Count(ByDebt(d), OwnerOf(b), SweptItems(sweep, items))
         == Count(ByDebt(d), OwnerOf(b), items) + CountReceipts(d, SweepReceipts(sweep, b, items, date))
  {
    if items != [] {
      var front, last := items[..|items| - 1], items[|items| - 1];
      SweepCount(d, sweep, b, front, date);
      assert SweptItems(sweep, items)[..|items| - 1] == SweptItems(sweep, front);
      RetiredHit(d, sweep, b, last, date);
      var r := MakeReceipt(b, last, sweep.Outcome(), sweep.tip, None, sweep.Message(), [], date);
      if sweep.Hits(last) {
        CountReceiptsConcat(d, SweepReceipts(sweep, b, front, date), [r]);
        CountReceiptsOne(d, r);
        assert SweepReceipts(sweep, b, items, date) == SweepReceipts(sweep, b, front, date) + [r];
      } else {
        assert SweepReceipts(sweep, b, items, date) == SweepReceipts(sweep, b, front, date);
      }
    }
  }

  lemma {:induction false} SweepCountAll(d: Debt, sweep: Sweep, endpoint: string, batches: seq<Batch>, date: int)
    ensures CountAll(ByDebt(d), SweepBatches(sweep, endpoint, batches, date).0)
         == CountAll(ByDebt(d), batches) + CountReceipts(d, SweepBatches(sweep, endpoint, batches, date).1)
  {
    if batches != [] {
      var front, last := batches[..|batches| - 1], batches[|batches| - 1];
      var (bs, rs) := SweepBatches(sweep, endpoint, front, date);
      SweepCountAll(d, sweep, endpoint, front, date);
      if last.url == endpoint {
        SweepCount(d, sweep, last, last.items, date);
        CountReceiptsConcat(d, rs, SweepReceipts(sweep, last, last.items, date));
        assert (bs + [SweptBatch(sweep, last)])[..|bs|] == bs;
      } else {
        assert (bs + [last])[..|bs|] == bs;
      }
    }
  }

  lemma SweepKeeps(sha: Data -> string, s: Snapshot, sweep: Sweep, endpoint: string, date: int)
    requires Inv(sha, s)
    ensures Keeps(sha, s, SweepAll(s, sweep, endpoint, date), Nobody)
  {
    var t := SweepAll(s, sweep, endpoint, date);
    assert Announced(t) == Announced(s);
    forall i | 0 <= i < |s.batches|
      ensures AlignedBatch(s.batches[i], t.batches[i], Nobody) && BatchOk(sha, Announced(t), t.batches[i])
    {
      SweptAligned(sha, sweep, s.batches[i], Announced(s));
    }
    AlignedUnique(s, t, Nobody);
    forall d: Debt ensures CountAll(ByDebt(d), t.batches) == CountReceipts(d, t.receipts) {
      SweepCountAll(d, sweep, endpoint, s.batches, date);
      CountReceiptsConcat(d, s.receipts, SweepBatches(sweep, endpoint, s.batches, date).1);
    }
  }

  lemma MarkDueKeeps(sha: Data -> string, s: Snapshot, tip: U64, endpoint: string, date: int)
    requires Inv(sha, s)
    ensures Keeps(sha, s, MarkDueItemsNeedingResign(s, tip, endpoint, date), Nobody)
  {
    AlignedSelf(s);
    if CanonicalExpiry(tip).Some? {
      SweepKeeps(sha, s, ResignSweep(tip, CanonicalExpiry(tip).value), endpoint, date);
    }
  }
}
