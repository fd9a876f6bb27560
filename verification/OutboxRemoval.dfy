/** The mutations that remove: acknowledged receipts, discarded, revoked and announced batches. */
module OutboxRemoval {
  import opened Common
  import opened OutboxModel
  import opened Counting
  import opened OutboxInvariant
  import opened OutboxSteps

  // ----- counting what is kept ---------------------------------------------------------------

  lemma {:induction false} KeptBatchesCount(d: Debt, batches: seq<Batch>, keep: Batch -> bool, kept: bool)
    requires forall i :: 0 <= i < |batches| && batches[i].batchId == d.owner.batchId ==> keep(batches[i]) == kept
    ensures CountAll(ByDebt(d), KeepBatches(batches, keep)) == if kept then CountAll(ByDebt(d), batches) else 0
  {
    if batches != [] {
      var front, last := batches[..|batches| - 1], batches[|batches| - 1];
      KeptBatchesCount(d, front, keep, kept);
      if last.batchId != d.owner.batchId {
        ForeignOwesNothing(d, OwnerOf(last), last.items);
      } else {
        assert keep(batches[|batches| - 1]) == kept;
      }
      KeptLast(ByDebt(d), batches, keep);
    }
  }

  /** What the last batch adds to the count of what is kept. */
  lemma KeptLast(q: Query, batches: seq<Batch>, keep: Batch -> bool)
    requires batches != []
    ensures CountAll(q, KeepBatches(batches, keep))
         == CountAll(q, KeepBatches(batches[..|batches| - 1], keep)) + (if keep(batches[|batches| - 1]) then CountIn(q, batches[|batches| - 1]) else 0)
  {
    var front, last := KeepBatches(batches[..|batches| - 1], keep), batches[|batches| - 1];
    assert (front + [last])[..|front|] == front && front + [] == front;
  }

  lemma {:induction false} ForeignOwesNothing(d: Debt, o: Owner, items: seq<Item>)
    requires o.batchId != d.owner.batchId
    ensures Count(ByDebt(d), o, items) == 0
  {
    if items != [] {
      ForeignOwesNothing(d, o, items[..|items| - 1]);
    }
  }

  /** Dropping batches that contribute nothing changes no count; dropping any raises none. */
  lemma {:induction false} DroppedBatches(q: Query, batches: seq<Batch>, keep: Batch -> bool)
    ensures CountAll(q, KeepBatches(batches, keep)) <= CountAll(q, batches)
    ensures (forall i :: 0 <= i < |batches| && !keep(batches[i]) ==> CountIn(q, batches[i]) == 0)
            ==> CountAll(q, KeepBatches(batches, keep)) == CountAll(q, batches)
  {
    if batches != [] {
      var front, last := batches[..|batches| - 1], batches[|batches| - 1];
      DroppedBatches(q, front, keep);
      KeptLast(q, batches, keep);
    }
  }

  lemma {:induction false} KeptBatchesUnique(batches: seq<Batch>, keep: Batch -> bool)
    requires UniqueBatches(batches)
    ensures UniqueBatches(KeepBatches(batches, keep))
  {
    if batches != [] {
      var front, last := batches[..|batches| - 1], batches[|batches| - 1];
      KeptBatchesUnique(front, keep);
      var kept := KeepBatches(front, keep);
      forall i | 0 <= i < |kept| ensures kept[i].batchId != last.batchId {
        assert kept[i] in kept && kept[i] in front;
        var k :| 0 <= k < |front| && front[k] == kept[i];
        assert batches[k].batchId != batches[|batches| - 1].batchId;
      }
    }
  }

  lemma {:induction false} KeptItemsCount(d: Debt, o: Owner, items: seq<Item>, keep: Item -> bool, kept: bool)
    requires forall j :: 0 <= j < |items| && items[j].itemId == d.itemId ==> keep(items[j]) == kept
    ensures Count(ByDebt(d), o, KeepItems(items, keep)) == if kept then Count(ByDebt(d), o, items) else 0
  {
    if items != [] {
      var front, last := items[..|items| - 1], items[|items| - 1];
      KeptItemsCount(d, o, front, keep, kept);
      if keep(last) {
        assert (KeepItems(front, keep) + [last])[..|KeepItems(front, keep)|] == KeepItems(front, keep);
      } else {
        assert KeepItems(front, keep) + [] == KeepItems(front, keep);
      }
    }
  }

  lemma {:induction false} DroppedItems(q: Query, o: Owner, items: seq<Item>, keep: Item -> bool)
    ensures Count(q, o, KeepItems(items, keep)) <= Count(q, o, items)
  {
    if items != [] {
      var front, last := items[..|items| - 1], items[|items| - 1];
      DroppedItems(q, o, front, keep);
      if keep(last) {
        assert (KeepItems(front, keep) + [last])[..|KeepItems(front, keep)|] == KeepItems(front, keep);
      } else {
        assert KeepItems(front, keep) + [] == KeepItems(front, keep);
      }
    }
  }

  lemma {:induction false} KeptReceiptsCount(d: Debt, receipts: seq<Receipt>, keep: Receipt -> bool, kept: bool)
    requires forall m :: 0 <= m < |receipts| && ReceiptDebt(receipts[m]) == d ==> keep(receipts[m]) == kept
    ensures CountReceipts(d, KeepReceipts(receipts, keep)) == if kept then CountReceipts(d, receipts) else 0
  {
    if receipts != [] {
      var front, last := receipts[..|receipts| - 1], receipts[|receipts| - 1];
      KeptReceiptsCount(d, front, keep, kept);
      if keep(last) {
        assert (KeepReceipts(front, keep) + [last])[..|KeepReceipts(front, keep)|] == KeepReceipts(front, keep);
      } else {
        assert KeepReceipts(front, keep) + [] == KeepReceipts(front, keep);
      }
    }
  }

  // ----- what is left comes from what was there ----------------------------------------------

  /** Each remaining batch is an old one, with some of its items. */
  ghost predicate Within(s: Snapshot, t: Snapshot) {
    forall k :: 0 <= k < |t.batches| ==>
      exists i :: 0 <= i < |s.batches| && WithinBatch(s.batches[i], t.batches[k])
  }

  ghost predicate WithinBatch(b: Batch, c: Batch) {
    c == b.(items := c.items) && forall it :: it in c.items ==> it in b.items
  }

  lemma WithinDescends(s: Snapshot, t: Snapshot)
    requires Within(s, t)
    ensures Descends(s, t, Nobody)
  {
    forall k, l | 0 <= k < |t.batches| && 0 <= l < |t.batches[k].items|
      ensures Inherits(s, t.batches[k].batchId, t.batches[k].items[l], Nobody)
    {
      var i :| 0 <= i < |s.batches| && WithinBatch(s.batches[i], t.batches[k]);
      assert t.batches[k].items[l] in s.batches[i].items;
      var j :| 0 <= j < |s.batches[i].items| && s.batches[i].items[j] == t.batches[k].items[l];
      assert Follows(s.batches[i].items[j], t.batches[k].items[l], Nobody);
    }
  }

  lemma WithinOk(sha: Data -> string, s: Snapshot, t: Snapshot)
    requires Within(s, t) && AllOk(sha, s)
    requires forall id :: id in Announced(t) ==> id in Announced(s)
    ensures AllOk(sha, t)
  {
    forall k | 0 <= k < |t.batches| ensures BatchOk(sha, Announced(t), t.batches[k]) {
      var i :| 0 <= i < |s.batches| && WithinBatch(s.batches[i], t.batches[k]);
      assert BatchOk(sha, Announced(s), s.batches[i]);
      forall l | 0 <= l < |t.batches[k].items| ensures ItemOk(sha, t.batches[k].items[l]) {
        assert t.batches[k].items[l] in s.batches[i].items;
      }
    }
  }

  lemma KeptWithin(s: Snapshot, t: Snapshot, keep: Batch -> bool)
    requires t.batches == KeepBatches(s.batches, keep)
    ensures Within(s, t)
  {
    forall k | 0 <= k < |t.batches| ensures exists i :: 0 <= i < |s.batches| && WithinBatch(s.batches[i], t.batches[k]) {
      assert t.batches[k] in t.batches && t.batches[k] in s.batches;
      var i :| 0 <= i < |s.batches| && s.batches[i] == t.batches[k];
      assert WithinBatch(s.batches[i], t.batches[k]);
    }
  }

  // ----- discard and revoke -----------------------------------------------------------------

  lemma RemoveAt(sha: Data -> string, s: Snapshot, at: nat, announced: Option<seq<string>>)
    requires Inv(sha, s) && at < |s.batches|
    requires forall m :: 0 <= m < |s.receipts| ==> s.receipts[m].batchId != s.batches[at].batchId
    ensures var t := s.(batches := s.batches[..at] + s.batches[at + 1..], announced := announced);
      && UniqueBatches(t.batches) && UniqueItems(t.batches) && Matched(t) && Within(s, t)
  {
    var t := s.(batches := s.batches[..at] + s.batches[at + 1..], announced := announced);
    forall id: string ensures CountAll(ById(id), t.batches) <= 1 {
      CountAllRemove(ById(id), s.batches, at);
    }
    forall d: Debt ensures CountAll(ByDebt(d), t.batches) == CountReceipts(d, t.receipts) {
      CountAllRemove(ByDebt(d), s.batches, at);
      if CountIn(ByDebt(d), s.batches[at]) > 0 {
        var j := CountWitness(ByDebt(d), OwnerOf(s.batches[at]), s.batches[at].items);
        var m := ItemHasReceipt(s, at, j);
        assert false;
      }
    }
    forall k | 0 <= k < |t.batches| ensures exists i :: 0 <= i < |s.batches| && WithinBatch(s.batches[i], t.batches[k]) {
      var i := if k < at then k else k + 1;
      assert WithinBatch(s.batches[i], t.batches[k]);
    }
  }

  /** No receipt is about this batch, so nothing in it awaits reconciliation, and it can be removed. */
  lemma RemoveQuiet(sha: Data -> string, s: Snapshot, at: nat, t: Snapshot)
    requires Inv(sha, s) && at < |s.batches| && t == s.(batches := s.batches[..at] + s.batches[at + 1..])
    requires forall m :: 0 <= m < |s.receipts| ==> s.receipts[m].batchId != s.batches[at].batchId
    ensures Inv(sha, t) && Descends(s, t, Nobody)
    ensures forall i :: 0 <= i < |s.batches| && i != at ==> s.batches[i] in t.batches
    ensures forall j :: 0 <= j < |s.batches[at].items| ==> !Awaiting(s.batches[at].items[j].status)
  {
    RemoveAt(sha, s, at, s.announced);
    WithinOk(sha, s, t);
    WithinDescends(s, t);
    OthersRemain(s.batches, at);
    forall j | 0 <= j < |s.batches[at].items| ensures !Awaiting(s.batches[at].items[j].status) {
      if Awaiting(s.batches[at].items[j].status) {
        var m := ItemHasReceipt(s, at, j);
      }
    }
  }

  lemma OthersRemain(batches: seq<Batch>, at: nat)
    requires at < |batches|
    ensures forall i :: 0 <= i < |batches| && i != at ==> batches[i] in batches[..at] + batches[at + 1..]
  {
    var left := batches[..at] + batches[at + 1..];
    forall i | 0 <= i < |batches| && i != at ensures batches[i] in left {
      assert batches[i] == left[if i < at then i else i - 1];
    }
  }

  /** Discarding drops no reconciliation and no item that may have been broadcast. */
  lemma DiscardKeeps(sha: Data -> string, s: Snapshot, batchId: string)
    requires Inv(sha, s) && DiscardBatch(s, batchId).Ok?
    ensures var t := DiscardBatch(s, batchId).value.0;
      && Inv(sha, t) && Descends(s, t, Nobody)
      && (forall i, j :: 0 <= i < |s.batches| && 0 <= j < |s.batches[i].items|
                         && (Attempted(s.batches[i].items[j]) || Awaiting(s.batches[i].items[j].status))
                         ==> s.batches[i] in t.batches)
  {
    var at := BatchIndex(s.batches, batchId);
    if at == |s.batches| {
      AlignedSelf(s);
      AlignedDescends(s, s, Nobody);
    } else {
      DiscardedIsQuiet(s, batchId, at);
      RemoveQuiet(sha, s, at, DiscardBatch(s, batchId).value.0);
    }
  }

  lemma DiscardedIsQuiet(s: Snapshot, batchId: string, at: nat)
    requires at == BatchIndex(s.batches, batchId) < |s.batches| && DiscardBatch(s, batchId).Ok?
    ensures forall m :: 0 <= m < |s.receipts| ==> s.receipts[m].batchId != s.batches[at].batchId
    ensures forall j :: 0 <= j < |s.batches[at].items| ==> s.batches[at].items[j].status != Submitting && s.batches[at].items[j].attemptCount == 0
  {
    forall j | 0 <= j < |s.batches[at].items|
      ensures s.batches[at].items[j].status != Submitting && s.batches[at].items[j].attemptCount == 0
    {
      assert s.batches[at].items[j] in s.batches[at].items;
    }
  }

  lemma AckCompleteKeeps(sha: Data -> string, s: Snapshot, batchId: string, date: int)
    requires Inv(sha, s) && AcknowledgeBroadcastComplete(s, batchId, date).Ok?
    ensures var t := AcknowledgeBroadcastComplete(s, batchId, date).value; Inv(sha, t) && Descends(s, t, Nobody)
  {
    var t := AcknowledgeBroadcastComplete(s, batchId, date).value;
    var at := BatchIndex(s.batches, batchId);
    var b := s.batches[at].(completePendingAt := None, completeNotifiedAt := Some(date));
    if b.items == [] && b.nextProofHeight.None? {
      AnnouncedRemoved(sha, s, at, t);
    } else {
      AnnouncedStays(sha, s, at, b, t);
    }
  }

  /** The announced batch was empty, so it goes. */
  lemma AnnouncedRemoved(sha: Data -> string, s: Snapshot, at: nat, t: Snapshot)
    requires Inv(sha, s) && at < |s.batches| && s.batches[at].items == []
    requires t == s.(batches := s.batches[..at] + s.batches[at + 1..], announced := t.announced)
    requires forall id :: id in Announced(t) ==> id in Announced(s) || id == s.batches[at].batchId
    ensures Inv(sha, t) && Descends(s, t, Nobody)
  {
    forall m | 0 <= m < |s.receipts| ensures s.receipts[m].batchId != s.batches[at].batchId {
      var i, j := ReceiptHasItem(s, s.receipts[m]);
      BatchFinds(s.batches, i);
      BatchFinds(s.batches, at);
    }
    RemoveAt(sha, s, at, t.announced);
    WithinDescends(s, t);
    forall k | 0 <= k < |t.batches| ensures BatchOk(sha, Announced(t), t.batches[k]) {
      StillUnannounced(sha, s, t, if k < at then k else k + 1, s.batches[at].batchId);
    }
  }

  /** Announcing one batch id leaves every other batch as well formed as it was. */
  lemma StillUnannounced(sha: Data -> string, s: Snapshot, t: Snapshot, i: nat, batchId: string)
    requires Inv(sha, s) && i < |s.batches| && s.batches[i].batchId != batchId
    requires forall id :: id in Announced(t) ==> id in Announced(s) || id == batchId
    ensures BatchOk(sha, Announced(t), s.batches[i])
  {
    assert BatchOk(sha, Announced(s), s.batches[i]);
  }

  lemma AnnouncedStays(sha: Data -> string, s: Snapshot, at: nat, b: Batch, t: Snapshot)
    requires Inv(sha, s) && at < |s.batches| && b == s.batches[at].(completePendingAt := None, completeNotifiedAt := b.completeNotifiedAt)
    requires t == WithBatch(s, at, b).(announced := t.announced)
    requires forall id :: id in Announced(t) ==> id in Announced(s) || id == b.batchId
    ensures Inv(sha, t) && Descends(s, t, Nobody)
  {
    assert AlignedBatch(s.batches[at], b, Nobody) && NoNewDebt(s.batches[at], b);
    assert Aligned(s, t, Nobody);
    AlignedUnique(s, t, Nobody);
    AlignedMatched(s, t, Nobody);
    AlignedDescends(s, t, Nobody);
    forall k | 0 <= k < |t.batches| ensures BatchOk(sha, Announced(t), t.batches[k]) {
      assert BatchOk(sha, Announced(s), s.batches[k]);
      if k != at {
        StillUnannounced(sha, s, t, k, b.batchId);
      }
    }
  }

  lemma RevokeKeeps(sha: Data -> string, s: Snapshot, network: string, accountUuid: string)
    requires Inv(sha, s)
    ensures var t := Revoke(s, network, accountUuid); Inv(sha, t) && Descends(s, t, Nobody)
  {
    var t := Revoke(s, network, accountUuid);
    var keep := (b: Batch) => !InAccount(s, network, accountUuid, b.batchId);
    var keepR := (r: Receipt) => !InAccount(s, network, accountUuid, r.batchId);
    assert t.batches == KeepBatches(s.batches, keep) && t.receipts == KeepReceipts(s.receipts, keepR);
    KeptBatchesUnique(s.batches, keep);
    forall id: string ensures CountAll(ById(id), t.batches) <= 1 {
      DroppedBatches(ById(id), s.batches, keep);
    }
    forall d: Debt ensures CountAll(ByDebt(d), t.batches) == CountReceipts(d, t.receipts) {
      var kept := !InAccount(s, network, accountUuid, d.owner.batchId);
      KeptBatchesCount(d, s.batches, keep, kept);
      KeptReceiptsCount(d, s.receipts, keepR, kept);
    }
    KeptWithin(s, t, keep);
    WithinOk(sha, s, t);
    WithinDescends(s, t);
  }

  // ----- acknowledged receipts --------------------------------------------------------------

  /** A receipt is acknowledged exactly when its item is, or when its whole batch is settled. */
  lemma AcknowledgedTogether(s: Snapshot, ids: set<ReceiptId>, r: Receipt)
    requires Matched(s) && UniqueItems(s.batches) && r in s.receipts
    ensures r.Id() in ids <==> AcknowledgedItem(s.receipts, ids, r.itemId)
    ensures Settled(s.receipts, ids, r.batchId) ==> r.Id() in ids
  {
    if AcknowledgedItem(s.receipts, ids, r.itemId) {
      var other :| other in s.receipts && other.Id() in ids && other.itemId == r.itemId;
      var m :| 0 <= m < |s.receipts| && s.receipts[m] == r;
      var n :| 0 <= n < |s.receipts| && s.receipts[n] == other;
      if m < n { ReceiptsDistinct(s, m, n); }
      if n < m { ReceiptsDistinct(s, n, m); }
    }
  }

  ghost function Unsettled(s: Snapshot, ids: set<ReceiptId>): seq<Batch> {
    KeepBatches(s.batches, (b: Batch) => !Settled(s.receipts, ids, b.batchId))
  }

  ghost function Reconciled(s: Snapshot, ids: set<ReceiptId>, b: Batch): Batch {
    b.(items := KeepItems(b.items, (it: Item) => !AcknowledgedItem(s.receipts, ids, it.itemId)))
  }

  lemma {:induction false} ReconciledCount(s: Snapshot, ids: set<ReceiptId>, d: Debt, batches: seq<Batch>, mapped: seq<Batch>)
    requires |mapped| == |batches| && forall i :: 0 <= i < |batches| ==> mapped[i] == Reconciled(s, ids, batches[i])
    ensures CountAll(ByDebt(d), mapped) == if AcknowledgedItem(s.receipts, ids, d.itemId) then 0 else CountAll(ByDebt(d), batches)
    ensures CountAll(ById(d.itemId), mapped) <= CountAll(ById(d.itemId), batches)
  {
    if batches != [] {
      var last := batches[|batches| - 1];
      var keep := (it: Item) => !AcknowledgedItem(s.receipts, ids, it.itemId);
      ReconciledCount(s, ids, d, batches[..|batches| - 1], mapped[..|mapped| - 1]);
      KeptItemsCount(d, OwnerOf(last), last.items, keep, !AcknowledgedItem(s.receipts, ids, d.itemId));
      DroppedItems(ById(d.itemId), OwnerOf(last), last.items, keep);
      assert mapped[|mapped| - 1] == Reconciled(s, ids, last);
    }
  }

  ghost function AllReconciled(s: Snapshot, ids: set<ReceiptId>): (r: seq<Batch>)
    ensures |r| == |Unsettled(s, ids)|
    ensures forall i :: 0 <= i < |r| ==> r[i] == Reconciled(s, ids, Unsettled(s, ids)[i])
  {
    MapBatches(Unsettled(s, ids), (b: Batch) => Reconciled(s, ids, b))
  }

  lemma AcknowledgeShape(s: Snapshot, ids: set<ReceiptId>)
    ensures AcknowledgeReceipts(s, ids).batches == KeepBatches(AllReconciled(s, ids), (b: Batch) => !Spent(b))
  {
    var unsettled := Unsettled(s, ids);
    var mapped := MapBatches(unsettled, (b: Batch) =>
      b.(items := KeepItems(b.items, (it: Item) => !AcknowledgedItem(s.receipts, ids, it.itemId))));
    assert mapped == AllReconciled(s, ids);
  }

  lemma AcknowledgeCounts(s: Snapshot, ids: set<ReceiptId>, d: Debt)
    ensures var t := AcknowledgeReceipts(s, ids);
      && CountAll(ByDebt(d), t.batches)
         == (if Settled(s.receipts, ids, d.owner.batchId) || AcknowledgedItem(s.receipts, ids, d.itemId) then 0 else CountAll(ByDebt(d), s.batches))
      && CountAll(ById(d.itemId), t.batches) <= CountAll(ById(d.itemId), s.batches)
  {
    AcknowledgeShape(s, ids);
    var open := (b: Batch) => !Settled(s.receipts, ids, b.batchId);
    var alive := (b: Batch) => !Spent(b);
    KeptBatchesCount(d, s.batches, open, !Settled(s.receipts, ids, d.owner.batchId));
    DroppedBatches(ById(d.itemId), s.batches, open);
    var unsettled, mapped := Unsettled(s, ids), AllReconciled(s, ids);
    assert unsettled == KeepBatches(s.batches, open);
    ReconciledCount(s, ids, d, unsettled, mapped);
    DroppedBatches(ByDebt(d), mapped, alive);
    DroppedBatches(ById(d.itemId), mapped, alive);
    assert forall i :: 0 <= i < |mapped| && !alive(mapped[i]) ==> CountIn(ByDebt(d), mapped[i]) == 0;
  }

  lemma AcknowledgeMatched(s: Snapshot, ids: set<ReceiptId>)
    requires Matched(s) && UniqueItems(s.batches)
    ensures Matched(AcknowledgeReceipts(s, ids))
  {
    var t := AcknowledgeReceipts(s, ids);
    var keepR := (r: Receipt) => r.Id() !in ids;
    assert t.receipts == KeepReceipts(s.receipts, keepR);
    forall d: Debt ensures CountAll(ByDebt(d), t.batches) == CountReceipts(d, t.receipts) {
      AcknowledgeCounts(s, ids, d);
      var gone := Settled(s.receipts, ids, d.owner.batchId) || AcknowledgedItem(s.receipts, ids, d.itemId);
      forall m | 0 <= m < |s.receipts| && ReceiptDebt(s.receipts[m]) == d ensures keepR(s.receipts[m]) == !gone {
        AcknowledgedTogether(s, ids, s.receipts[m]);
      }
      KeptReceiptsCount(d, s.receipts, keepR, !gone);
    }
  }

  lemma AcknowledgeWithin(s: Snapshot, ids: set<ReceiptId>)
    ensures Within(s, AcknowledgeReceipts(s, ids))
  {
    AcknowledgeShape(s, ids);
    var t := AcknowledgeReceipts(s, ids);
    forall k | 0 <= k < |t.batches| ensures exists i :: 0 <= i < |s.batches| && WithinBatch(s.batches[i], t.batches[k]) {
      assert t.batches[k] in t.batches && t.batches[k] in AllReconciled(s, ids);
      var m :| 0 <= m < |AllReconciled(s, ids)| && AllReconciled(s, ids)[m] == t.batches[k];
      ReconciledWithin(s, ids, m);
    }
  }

  lemma ReconciledWithin(s: Snapshot, ids: set<ReceiptId>, m: nat)
    requires m < |AllReconciled(s, ids)|
    ensures exists i :: 0 <= i < |s.batches| && WithinBatch(s.batches[i], AllReconciled(s, ids)[m])
  {
    var b := Unsettled(s, ids)[m];
    assert b in Unsettled(s, ids) && b in s.batches;
    var i :| 0 <= i < |s.batches| && s.batches[i] == b;
    assert WithinBatch(s.batches[i], AllReconciled(s, ids)[m]);
  }

  lemma AcknowledgeUnique(s: Snapshot, ids: set<ReceiptId>)
    requires UniqueBatches(s.batches) && UniqueItems(s.batches)
    ensures UniqueBatches(AcknowledgeReceipts(s, ids).batches) && UniqueItems(AcknowledgeReceipts(s, ids).batches)
  {
    AcknowledgeShape(s, ids);
    var t := AcknowledgeReceipts(s, ids);
    var mapped := AllReconciled(s, ids);
    KeptBatchesUnique(s.batches, (b: Batch) => !Settled(s.receipts, ids, b.batchId));
    assert UniqueBatches(Unsettled(s, ids));
    assert UniqueBatches(mapped) by {
      forall i, j | 0 <= i < j < |mapped| ensures mapped[i].batchId != mapped[j].batchId {
        assert Unsettled(s, ids)[i].batchId != Unsettled(s, ids)[j].batchId;
      }
    }
    KeptBatchesUnique(mapped, (b: Batch) => !Spent(b));
    forall id: string ensures CountAll(ById(id), t.batches) <= 1 {
      AcknowledgeCounts(s, ids, Debt(Owner("", "", "", ""), id, "", Staged));
    }
  }

  lemma AcknowledgeKeeps(sha: Data -> string, s: Snapshot, ids: set<ReceiptId>)
    requires Inv(sha, s)
    ensures var t := AcknowledgeReceipts(s, ids); Inv(sha, t) && Descends(s, t, Nobody)
  {
    AcknowledgeUnique(s, ids);
    AcknowledgeMatched(s, ids);
    AcknowledgeWithin(s, ids);
    WithinOk(sha, s, AcknowledgeReceipts(s, ids));
    WithinDescends(s, AcknowledgeReceipts(s, ids));
  }

  /** An acknowledgement drops no item whose own receipt it does not acknowledge. */
  lemma AcknowledgeDropsOnlyReconciled(sha: Data -> string, s: Snapshot, ids: set<ReceiptId>, i: nat, j: nat)
    requires Inv(sha, s) && i < |s.batches| && j < |s.batches[i].items| && Awaiting(s.batches[i].items[j].status)
    requires forall r :: r in s.receipts && r.itemId == s.batches[i].items[j].itemId ==> r.Id() !in ids
    ensures var t := AcknowledgeReceipts(s, ids);
      exists k, l :: 0 <= k < |t.batches| && 0 <= l < |t.batches[k].items|
        && OwnerOf(t.batches[k]) == OwnerOf(s.batches[i]) && t.batches[k].items[l] == s.batches[i].items[j]
  {
    var t := AcknowledgeReceipts(s, ids);
    var it := s.batches[i].items[j];
    var d := Debt(OwnerOf(s.batches[i]), it.itemId, it.txid, it.status);
    AcknowledgeCounts(s, ids, d);
    CountAllPresent(ByDebt(d), s.batches, i, j);
    var m := ItemHasReceipt(s, i, j);
    AcknowledgedTogether(s, ids, s.receipts[m]);
    var k, l := CountAllWitness(ByDebt(d), t.batches);
    LeftAsItWas(s, ids, i, j, k, l);
  }

  /** What an acknowledgement leaves is an item as it was. */
  lemma LeftAsItWas(s: Snapshot, ids: set<ReceiptId>, i: nat, j: nat, k: nat, l: nat)
    requires UniqueItems(s.batches) && i < |s.batches| && j < |s.batches[i].items|
    requires var t := AcknowledgeReceipts(s, ids);
      k < |t.batches| && l < |t.batches[k].items| && t.batches[k].items[l].itemId == s.batches[i].items[j].itemId
    ensures AcknowledgeReceipts(s, ids).batches[k].items[l] == s.batches[i].items[j]
  {
    var t := AcknowledgeReceipts(s, ids);
    AcknowledgeWithin(s, ids);
    var p :| 0 <= p < |s.batches| && WithinBatch(s.batches[p], t.batches[k]);
    assert t.batches[k].items[l] in s.batches[p].items;
    var n :| 0 <= n < |s.batches[p].items| && s.batches[p].items[n] == t.batches[k].items[l];
    SamePosition(s.batches, i, j, p, n);
  }

  /**
   The ids must be unique across batches for that: receipts are acknowledged by batch, item and outcome,
   but items are dropped by item id alone. An item of another batch that carries the acknowledged id is
   dropped too, reconciled or not.
   */
  lemma CrossBatchIdsLoseItems(s: Snapshot, r: Receipt, i: nat, j: nat)
    requires r in s.receipts && i < |s.batches| && j < |s.batches[i].items|
    requires s.batches[i].batchId != r.batchId && s.batches[i].items[j].itemId == r.itemId
    ensures forall k, l :: 0 <= k < |AcknowledgeReceipts(s, {r.Id()}).batches| && 0 <= l < |AcknowledgeReceipts(s, {r.Id()}).batches[k].items|
              ==> AcknowledgeReceipts(s, {r.Id()}).batches[k].items[l].itemId != r.itemId
    ensures forall x :: x in s.receipts && x.batchId == s.batches[i].batchId ==> x in AcknowledgeReceipts(s, {r.Id()}).receipts
  {
    var ids := {r.Id()};
    AcknowledgeShape(s, ids);
    assert AcknowledgedItem(s.receipts, ids, r.itemId);
    var t := AcknowledgeReceipts(s, ids);
    forall k, l | 0 <= k < |t.batches| && 0 <= l < |t.batches[k].items| ensures t.batches[k].items[l].itemId != r.itemId {
      assert t.batches[k] in t.batches && t.batches[k] in AllReconciled(s, ids);
      var m :| 0 <= m < |AllReconciled(s, ids)| && AllReconciled(s, ids)[m] == t.batches[k];
      assert t.batches[k].items[l] in t.batches[k].items;
    }
  }
}
