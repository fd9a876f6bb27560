/** When each announcement is queued, for which batch, and that what is queued can be delivered, once. */
module OutboxAlerts {
  import opened Common
  import opened StringOrder
  import opened OutboxModel
  import opened OutboxInvariant
  import opened OutboxSteps
  import opened OutboxRemoval
  import opened OutboxSubmission
  import opened OutboxUpdates
  import opened OutboxChoice
  import opened OutboxEffects
  import opened OutboxRequests

  // ----- proof ready ------------------------------------------------------------------------------------

  /** The batch watches a proof of its run while it is armed. */
  predicate Watches(b: Batch) { b.armedAt.Some? && b.nextProofHeight.Some? }

  /** Its proof height is reached, and it was neither announced nor settled by a delivered nudge with nothing outstanding since. */
  predicate OwesProof(b: Batch, tip: U64, endpoint: string) {
    && b.url == endpoint && Watches(b) && b.nextProofHeight.value <= tip && b.readyNotifiedAt.None?
    && !(b.noticedAt.Some? && b.noticePendingAt.None? && b.readyPendingAt.None?)
  }

  /** No batch of this kind has its proof at a lower height, or at the same height under a lower batch id. */
  ghost predicate Earliest(batches: seq<Batch>, kind: Batch -> bool, i: nat) {
    && i < |batches| && kind(batches[i])
    && forall k :: 0 <= k < |batches| && kind(batches[k]) ==> NoLater(batches[i], batches[k])
  }

  predicate NoLater(a: Batch, b: Batch) {
    HeightOf(a) < HeightOf(b) || (HeightOf(a) == HeightOf(b) && !Less(b.batchId, a.batchId))
  }

  function HeightOf(b: Batch): U64 { match b.nextProofHeight case Some(height) => height case None => 0 }

  lemma BestIsEarliest(batches: seq<Batch>, kind: Batch -> bool)
    ensures BestBatch(batches, kind, ProofRank).Some? ==> Earliest(batches, kind, BestBatch(batches, kind, ProofRank).value)
    ensures BestBatch(batches, kind, ProofRank).None? ==> forall b :: b in batches ==> !kind(b)
  {
    forall k | 0 <= k < |batches| && kind(batches[k])
      ensures BestBatch(batches, kind, ProofRank).Some? && NoLater(batches[BestBatch(batches, kind, ProofRank).value], batches[k])
    {
      BestBatchIsLeast(batches, kind, ProofRank, k);
    }
  }

  lemma {:induction false} SameBest(batches: seq<Batch>, kind: Batch -> bool, other: Batch -> bool)
    requires forall b :: b in batches ==> (kind(b) <==> other(b))
    ensures BestBatch(batches, kind, ProofRank) == BestBatch(batches, other, ProofRank)
  {
    if batches != [] {
      SameBest(batches[..|batches| - 1], kind, other);
      assert batches[|batches| - 1] in batches;
    }
  }

  /** Queued at a tip: the earliest proof that is owed at the endpoint, if any is; its announcement is pending from then on, and nothing else changes. */
  lemma ProofReadyIs(s: Snapshot, tip: U64, endpoint: string, date: int)
    requires UniqueBatches(s.batches)
    ensures var t := MarkProofReady(s, tip, endpoint, date);
      if forall b :: b in s.batches ==> !OwesProof(b, tip, endpoint) then t == s
      else exists i: nat :: Earliest(s.batches, (b: Batch) => OwesProof(b, tip, endpoint), i)
                       && t == WithBatch(s, i, Queued(s.batches[i], date))
  {
    var owes := (b: Batch) => OwesProof(b, tip, endpoint);
    SameBest(s.batches, (b: Batch) => ProofReached(b, tip, endpoint), owes);
    BestIsEarliest(s.batches, owes);
    if ProofCandidate(s, tip, endpoint).Some? {
      var i := ProofCandidate(s, tip, endpoint).value;
      BatchFinds(s.batches, i);
      assert s.batches[i] in s.batches && owes(s.batches[i]);
      assert s.batches[i].readyPendingAt.Some? ==> WithBatch(s, i, s.batches[i]) == s;
    }
  }

  /** The announcement is pending, since now or since before. */
  function Queued(b: Batch, date: int): Batch {
    if b.readyPendingAt.Some? then b else b.(readyPendingAt := Some(date))
  }

  predicate WatchesFor(b: Batch, network: string, accountUuid: string, runId: string) {
    b.network == network && b.accountUuid == accountUuid && b.runId == runId && Watches(b)
  }

  /** Verified readiness of a run: recorded exactly if a batch of the run watches a proof; then the earliest is queued, unless it was delivered. */
  lemma VerifiedIs(s: Snapshot, network: string, accountUuid: string, runId: string, date: int)
    ensures var r := RecordVerifiedReadiness(s, network, accountUuid, runId, date);
      && (r.1 <==> exists b :: b in s.batches && WatchesFor(b, network, accountUuid, runId))
      && (!r.1 ==> r.0 == s)
      && (r.1 ==> exists i: nat :: Earliest(s.batches, (b: Batch) => WatchesFor(b, network, accountUuid, runId), i)
                              && r.0 == if s.batches[i].readyNotifiedAt.Some? then s else WithBatch(s, i, Queued(s.batches[i], date)))
  {
    var watches := (b: Batch) => WatchesFor(b, network, accountUuid, runId);
    SameBest(s.batches, (b: Batch) => b.BelongsTo(network, accountUuid, runId) && b.armedAt.Some? && b.nextProofHeight.Some?, watches);
    BestIsEarliest(s.batches, watches);
    if VerifiedCandidate(s, network, accountUuid, runId).Some? {
      var i := VerifiedCandidate(s, network, accountUuid, runId).value;
      assert s.batches[i] in s.batches && watches(s.batches[i]);
      assert s.batches[i].readyPendingAt.Some? ==> WithBatch(s, i, s.batches[i]) == s;
    }
  }

  /** The proof is watched, and its announcement is pending and not delivered. */
  predicate ToDeliver(b: Batch) { Watches(b) && b.readyPendingAt.Some? && b.readyNotifiedAt.None? }

  /** The announcement to deliver is the earliest of the pending ones, and delivering it retires it and nothing else. */
  lemma PendingIsDelivered(s: Snapshot, later: int)
    requires UniqueBatches(s.batches)
    ensures var p := PendingProofReady(s);
      && (p.Some? <==> exists b :: b in s.batches && ToDeliver(b))
      && (p.Some? ==>
            && Earliest(s.batches, ToDeliver, p.value)
            && AcknowledgeProofReady(s, s.batches[p.value].batchId, later)
                 == Ok(WithBatch(s, p.value, s.batches[p.value].(readyPendingAt := None, readyNotifiedAt := Some(later)))))
  {
    SameBest(s.batches, ReadyPending, ToDeliver);
    BestIsEarliest(s.batches, ToDeliver);
    if PendingProofReady(s).Some? {
      BatchFinds(s.batches, PendingProofReady(s).value);
      assert s.batches[PendingProofReady(s).value] in s.batches;
    }
  }

  // ----- the nudge ----------------------------------------------------------------------------------------

  /** Nothing was said about this proof height yet. */
  predicate Unsaid(b: Batch) { b.readyPendingAt.None? && b.readyNotifiedAt.None? && b.noticePendingAt.None? && b.noticedAt.None? }

  /** A nudge is queued exactly for an armed batch about whose proof nothing was said; it can then be delivered, and is not queued again. */
  lemma NudgeIsDelivered(s: Snapshot, i: nat, date: int, later: int, again: int)
    requires UniqueBatches(s.batches) && i < |s.batches|
    ensures var id := s.batches[i].batchId; var r := MarkHeightNotice(s, id, date);
      && (r.1 <==> Watches(s.batches[i]) && Unsaid(s.batches[i]))
      && (!r.1 ==> r.0 == s)
      && (r.1 ==>
            && r.0 == WithBatch(s, i, s.batches[i].(noticePendingAt := Some(date)))
            && AcknowledgeHeightNotice(r.0, id, later) == Ok(WithBatch(s, i, s.batches[i].(noticedAt := Some(later))))
            && !MarkHeightNotice(AcknowledgeHeightNotice(r.0, id, later).value, id, again).1)
  {
    BatchFinds(s.batches, i);
    var r := MarkHeightNotice(s, s.batches[i].batchId, date);
    if r.1 {
      BatchFinds(r.0.batches, i);
      var delivered := s.batches[i].(noticedAt := Some(later));
      assert s.batches[i := s.batches[i].(noticePendingAt := Some(date))][i := delivered] == s.batches[i := delivered];
      BatchFinds(AcknowledgeHeightNotice(r.0, s.batches[i].batchId, later).value.batches, i);
    }
  }

  // ----- transfers sent -------------------------------------------------------------------------------------

  /** Everything the batch will ever send was accepted, and that was not announced. */
  ghost predicate OwesCompletion(s: Snapshot, b: Batch) {
    && b.nextProofHeight.None? && b.items != [] && (forall j :: 0 <= j < |b.items| ==> b.items[j].status == Accepted)
    && b.completeNotifiedAt.None? && b.batchId !in Announced(s)
  }

  function QueuedCompletion(b: Batch, date: int): Batch {
    if b.completePendingAt.Some? then b else b.(completePendingAt := Some(date))
  }

  lemma CompletionIsQueued(s: Snapshot, i: nat, date: int)
    requires UniqueBatches(s.batches) && i < |s.batches|
    ensures var r := MarkBroadcastComplete(s, s.batches[i].batchId, date);
      (r.1 <==> OwesCompletion(s, s.batches[i])) && r.0 == if r.1 then WithBatch(s, i, QueuedCompletion(s.batches[i], date)) else s
  {
    BatchFinds(s.batches, i);
    var b := s.batches[i];
    assert (forall j :: 0 <= j < |b.items| ==> b.items[j].status == Accepted) <==> (forall it :: it in b.items ==> it.status == Accepted);
    assert WithBatch(s, i, b) == s;
  }

  /**
   "Transfers sent" is queued exactly when everything was accepted and it was not announced; it can then be
   delivered, which puts the batch on the record of announced ones, and it is never queued for it again
   while it is on that record.
   */
  lemma CompletionIsDelivered(s: Snapshot, i: nat, date: int, later: int, again: int)
    requires UniqueBatches(s.batches) && i < |s.batches|
    ensures var id := s.batches[i].batchId; var r := MarkBroadcastComplete(s, id, date);
      && (r.1 <==> OwesCompletion(s, s.batches[i]))
      && (r.1 ==> var done := AcknowledgeBroadcastComplete(r.0, id, later);
            && done.Ok? && id in Announced(done.value) && !MarkBroadcastComplete(done.value, id, again).1
            && done.value == s.(batches := s.batches[i := s.batches[i].(completePendingAt := None, completeNotifiedAt := Some(later))],
                                announced := Some(Announced(s) + [id])))
  {
    CompletionIsQueued(s, i, date);
    var r := MarkBroadcastComplete(s, s.batches[i].batchId, date);
    if r.1 {
      BatchFinds(r.0.batches, i);
    }
  }

  /** Once it was looked at whether "transfers sent" is owed, whoever owes it has it queued, and it can be delivered. */
  lemma OwedIsQueued(r: Snapshot, t: Snapshot, i: nat, date: int, later: int)
    requires UniqueBatches(r.batches) && i < |t.batches| && |t.batches| == |r.batches| && t.batches[i].batchId == r.batches[i].batchId
    requires t == MarkBroadcastComplete(r, t.batches[i].batchId, date).0 && OwesCompletion(t, t.batches[i])
    ensures t.batches[i].completePendingAt.Some? && AcknowledgeBroadcastComplete(t, t.batches[i].batchId, later).Ok?
  {
    CompletionIsQueued(r, i, date);
    assert forall k :: 0 <= k < |t.batches| ==> t.batches[k].batchId == r.batches[k].batchId;
    BatchFinds(t.batches, i);
  }

  lemma AcceptedThenMarked(sha: Data -> string, s: Snapshot, u: Update, t: Snapshot) returns (r: Snapshot)
    requires Inv(sha, s) && u.AcceptedUpdate? && AcceptAndAnnounce(sha, s, u) == Ok(t)
    ensures UniqueBatches(r.batches) && t == MarkBroadcastComplete(r, u.batchId, u.date).0
  {
    r := RecordAccepted(sha, s, u.itemId, u.equivalent, u.tip, u.code, u.message, u.date, u.random).value;
    AcceptedKeeps(sha, s, u.itemId, u.equivalent, u.tip, u.code, u.message, u.date, u.random);
  }

  lemma MarkedInPlace(r: Snapshot, batchId: string, date: int)
    ensures var t := MarkBroadcastComplete(r, batchId, date).0;
      |t.batches| == |r.batches| && forall k :: 0 <= k < |r.batches| ==> t.batches[k].batchId == r.batches[k].batchId
  {
  }

  /** After the acceptance of the last transfer the announcement is pending, and can be delivered. */
  lemma LastAcceptanceIsAnnounced(sha: Data -> string, s: Snapshot, u: Update, t: Snapshot, i: nat, later: int)
    requires Inv(sha, s) && u.AcceptedUpdate? && AcceptAndAnnounce(sha, s, u) == Ok(t)
    requires i < |t.batches| && t.batches[i].batchId == u.batchId && OwesCompletion(t, t.batches[i])
    ensures t.batches[i].completePendingAt.Some? && AcknowledgeBroadcastComplete(t, u.batchId, later).Ok?
  {
    var r := AcceptedThenMarked(sha, s, u, t);
    MarkedInPlace(r, u.batchId, u.date);
    OwedIsQueued(r, t, i, u.date, later);
  }

  /** Delivered for a batch that was emptied meanwhile, it takes the record of the batch along, if nothing is watched. */
  lemma EmptiedIsRemoved(s: Snapshot, i: nat, later: int)
    requires UniqueBatches(s.batches) && i < |s.batches| && s.batches[i].completePendingAt.Some?
    ensures var done := AcknowledgeBroadcastComplete(s, s.batches[i].batchId, later);
      && done.Ok? && s.batches[i].batchId in Announced(done.value)
      && (HasId(done.value, s.batches[i].batchId) <==> s.batches[i].items != [] || s.batches[i].nextProofHeight.Some?)
      && forall b :: b in s.batches && b.batchId != s.batches[i].batchId ==> b in done.value.batches
  {
    BatchFinds(s.batches, i);
    OthersAre(s, i);
    var done := AcknowledgeBroadcastComplete(s, s.batches[i].batchId, later);
    if s.batches[i].items != [] || s.batches[i].nextProofHeight.Some? {
      assert done.value.batches[i].batchId == s.batches[i].batchId;
      forall b | b in s.batches && b.batchId != s.batches[i].batchId ensures b in done.value.batches {
        var k :| 0 <= k < |s.batches| && s.batches[k] == b;
        assert done.value.batches[k] == b;
      }
    }
  }

  // ----- what is refused ------------------------------------------------------------------------------------

  predicate Awaits(kind: Alert, b: Batch) {
    match kind
    case ProofAlert => b.readyPendingAt.Some?
    case NudgeAlert => b.noticePendingAt.Some?
    case SentAlert => b.completePendingAt.Some?
  }

  datatype Alert = ProofAlert | NudgeAlert | SentAlert

  function Deliver(kind: Alert, s: Snapshot, batchId: string, date: int): Result<Snapshot, OutboxError> {
    match kind
    case ProofAlert => AcknowledgeProofReady(s, batchId, date)
    case NudgeAlert => AcknowledgeHeightNotice(s, batchId, date)
    case SentAlert => AcknowledgeBroadcastComplete(s, batchId, date)
  }

  /** A delivery is refused for a batch that is gone and for an announcement that is not pending, and for nothing else. */
  lemma DeliveryRefuses(kind: Alert, s: Snapshot, batchId: string, date: int)
    ensures var r := Deliver(kind, s, batchId, date);
      && (r == Err(BatchNotFound) <==> !HasId(s, batchId))
      && (r == Err(InvalidTransition) <==> HasId(s, batchId) && !Awaits(kind, s.batches[BatchIndex(s.batches, batchId)]))
      && (r.Err? ==> r.error in {BatchNotFound, InvalidTransition})
  {
    StoredAt(s, batchId);
  }
}
