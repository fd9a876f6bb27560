/** Announcements: none is delivered twice for one cause, and the unverified one never blocks the verified one. */
module OutboxAnnouncements {
  import opened Common
  import opened OutboxModel
  import opened OutboxInvariant
  import opened OutboxSteps
  import opened OutboxStaging
  import opened OutboxRemoval
  import opened OutboxUpdates

  // ----- delivered proof announcements stay delivered -----------------------------------------

  /** A delivered proof announcement stays on record. */
  ghost predicate Remembers(b: Batch, c: Batch) {
    && b.batchId == c.batchId
    && (b.readyNotifiedAt.Some? ==> c.readyNotifiedAt.Some?)
    && (b.noticedAt.Some? ==> c.noticedAt.Some?)
  }

  /** Nothing moved, no delivered announcement was forgotten, and the delivered batch ids are the same. */
  ghost predicate RemembersAll(s: Snapshot, t: Snapshot) {
    && |s.batches| == |t.batches|
    && t.announced == s.announced
    && forall k :: 0 <= k < |s.batches| ==> Remembers(s.batches[k], t.batches[k])
  }

  /** What is delivered for a batch at one proof height stays delivered while the height is the same. */
  ghost predicate Watched(s: Snapshot, t: Snapshot) {
    forall i, k :: 0 <= i < |s.batches| && 0 <= k < |t.batches| && s.batches[i].batchId == t.batches[k].batchId
                   && s.batches[i].nextProofHeight == t.batches[k].nextProofHeight
                   ==> Remembers(s.batches[i], t.batches[k])
  }

  lemma RemembersWatched(s: Snapshot, t: Snapshot)
    requires RemembersAll(s, t) && UniqueBatches(s.batches)
    ensures Watched(s, t)
  {
    forall i, k | 0 <= i < |s.batches| && 0 <= k < |t.batches| && s.batches[i].batchId == t.batches[k].batchId
      ensures Remembers(s.batches[i], t.batches[k])
    {
      assert Remembers(s.batches[k], t.batches[k]);
      BatchFinds(s.batches, i);
      BatchFinds(s.batches, k);
    }
  }

  lemma WithinWatched(s: Snapshot, t: Snapshot)
    requires Within(s, t) && UniqueBatches(s.batches)
    ensures Watched(s, t)
  {
    forall i, k | 0 <= i < |s.batches| && 0 <= k < |t.batches| && s.batches[i].batchId == t.batches[k].batchId
      ensures Remembers(s.batches[i], t.batches[k])
    {
      var m :| 0 <= m < |s.batches| && WithinBatch(s.batches[m], t.batches[k]);
      BatchFinds(s.batches, i);
      BatchFinds(s.batches, m);
    }
  }

  // ----- the runner's updates -----------------------------------------------------------------

  lemma SweepRemembers(s: Snapshot, sweep: Sweep, endpoint: string, date: int)
    ensures RemembersAll(s, SweepAll(s, sweep, endpoint, date))
  {
    var t := SweepAll(s, sweep, endpoint, date);
    forall k | 0 <= k < |s.batches| ensures Remembers(s.batches[k], t.batches[k]) {
      if s.batches[k].url == endpoint {
        assert t.batches[k] == SweptBatch(sweep, s.batches[k]);
      }
    }
  }

  lemma SelectRemembers(s: Snapshot, tip: U64, endpoint: string, verify: bool, date: int)
    ensures RemembersAll(s, Select(s, tip, endpoint, verify, date).0)
  {
    var e := ExpireItems(s, tip, endpoint, date);
    var t := MarkDueItemsNeedingResign(e, tip, endpoint, date);
    SweepRemembers(s, ExpirySweep(tip), endpoint, date);
    if CanonicalExpiry(tip).Some? {
      SweepRemembers(e, ResignSweep(tip, CanonicalExpiry(tip).value), endpoint, date);
    }
    RemembersTrans(s, e, t);
    MarkRemembers(t, tip, endpoint, date);
    RemembersTrans(s, t, MarkProofReady(t, tip, endpoint, date));
  }

  lemma MarkRemembers(s: Snapshot, tip: U64, endpoint: string, date: int)
    ensures RemembersAll(s, MarkProofReady(s, tip, endpoint, date))
  {
  }

  lemma RemembersTrans(s: Snapshot, t: Snapshot, u: Snapshot)
    requires RemembersAll(s, t) && RemembersAll(t, u)
    ensures RemembersAll(s, u)
  {
    forall k | 0 <= k < |s.batches| ensures Remembers(s.batches[k], u.batches[k]) {
      assert Remembers(s.batches[k], t.batches[k]) && Remembers(t.batches[k], u.batches[k]);
    }
  }

  lemma BeginRemembers(s: Snapshot, itemId: string, attemptId: string, date: int)
    ensures var r := BeginSubmission(s, itemId, attemptId, date); r.Ok? ==> RemembersAll(s, r.value)
  {
  }

  lemma PrepareRemembers(s: Snapshot, tip: U64, endpoint: string, verify: bool, attemptId: string, date: int, done: (Snapshot, Option<Selection>))
    requires Prepare(s, tip, endpoint, verify, attemptId, date) == Ok(done)
    ensures RemembersAll(s, done.0)
  {
    var selected := Select(s, tip, endpoint, verify, date);
    SelectRemembers(s, tip, endpoint, verify, date);
    if selected.1.Some? {
      BeginRemembers(selected.0, selected.1.value.item.itemId, attemptId, date);
      RemembersTrans(s, selected.0, done.0);
    }
  }

  lemma AcceptRemembers(sha: Data -> string, s: Snapshot, u: Update)
    requires u.AcceptedUpdate?
    ensures var r := AcceptAndAnnounce(sha, s, u); r.Ok? ==> RemembersAll(s, r.value)
  {
    var r := RecordAccepted(sha, s, u.itemId, u.equivalent, u.tip, u.code, u.message, u.date, u.random);
    if r.Ok? {
      AcceptedRemembers(sha, s, u, r.value);
      CompleteRemembers(r.value, u.batchId, u.date);
      RemembersTrans(s, r.value, MarkBroadcastComplete(r.value, u.batchId, u.date).0);
    }
  }

  lemma AcceptedRemembers(sha: Data -> string, s: Snapshot, u: Update, t: Snapshot)
    requires u.AcceptedUpdate? && RecordAccepted(sha, s, u.itemId, u.equivalent, u.tip, u.code, u.message, u.date, u.random) == Ok(t)
    ensures RemembersAll(s, t)
  {
  }

  lemma CompleteRemembers(s: Snapshot, batchId: string, date: int)
    ensures RemembersAll(s, MarkBroadcastComplete(s, batchId, date).0)
  {
  }

  lemma OpenRemembers(s: Snapshot, date: int)
    ensures RemembersAll(s, Open(s, date).0)
  {
  }

  lemma PreparedRemembers(sha: Data -> string, s: Snapshot, u: Update, t: Snapshot)
    requires u.PrepareUpdate? && Apply(sha, u, s) == Ok(t)
    ensures RemembersAll(s, t)
  {
    PrepareRemembers(s, u.tip, u.endpoint, u.verify, u.attemptId, u.date,
                     Prepare(s, u.tip, u.endpoint, u.verify, u.attemptId, u.date).value);
  }

  lemma ItemUpdateRemembers(sha: Data -> string, s: Snapshot, u: Update, t: Snapshot)
    requires u.CancelledUpdate? || u.UncertainUpdate? || u.RejectedUpdate?
    requires Apply(sha, u, s) == Ok(t)
    ensures RemembersAll(s, t)
  {
  }

  lemma RunnerRemembers(sha: Data -> string, s: Snapshot, u: Update, t: Snapshot)
    requires ByRunner(u) && Apply(sha, u, s) == Ok(t)
    ensures RemembersAll(s, t)
  {
    if u.OpenUpdate? {
      OpenRemembers(s, u.date);
    } else if u.PrepareUpdate? {
      PreparedRemembers(sha, s, u, t);
    } else if u.AcceptedUpdate? {
      AcceptRemembers(sha, s, u);
    } else {
      ItemUpdateRemembers(sha, s, u, t);
    }
  }

  // ----- the channel's updates ----------------------------------------------------------------

  predicate Moves(u: Update) {
    u.StageUpdate? || u.AckCompleteUpdate? || u.AckReceiptsUpdate? || u.DiscardUpdate? || u.RevokeUpdate? || u.RemoveAllUpdate?
  }

  lemma ArmRemembers(s: Snapshot, batchId: string, digests: map<string, string>, date: int)
    ensures var r := ArmBatch(s, batchId, digests, date); r.Ok? ==> RemembersAll(s, r.value)
  {
  }

  lemma RecoverRemembers(s: Snapshot, batchId: string, network: string, accountUuid: string, runId: string,
                         expected: set<string>, url: string, date: int)
    ensures var r := RecoverBatch(s, batchId, network, accountUuid, runId, expected, url, date); r.Ok? ==> RemembersAll(s, r.value.0)
  {
  }

  lemma VerifiedRemembers(s: Snapshot, network: string, accountUuid: string, runId: string, date: int)
    ensures RemembersAll(s, RecordVerifiedReadiness(s, network, accountUuid, runId, date).0)
  {
  }

  lemma NoticeRemembers(s: Snapshot, batchId: string, date: int)
    ensures RemembersAll(s, MarkHeightNotice(s, batchId, date).0)
  {
  }

  lemma AcksRemember(s: Snapshot, batchId: string, date: int)
    ensures var r := AcknowledgeProofReady(s, batchId, date); r.Ok? ==> RemembersAll(s, r.value)
    ensures var r := AcknowledgeHeightNotice(s, batchId, date); r.Ok? ==> RemembersAll(s, r.value)
  {
  }

  lemma ChannelRemembers(sha: Data -> string, s: Snapshot, u: Update, t: Snapshot)
    requires !ByRunner(u) && !Moves(u) && Apply(sha, u, s) == Ok(t)
    ensures RemembersAll(s, t)
  {
    match u
    case ArmUpdate(id, digests, date) => ArmRemembers(s, id, digests, date);
    case RecoverUpdate(id, n, a, r, expected, url, date) => RecoverRemembers(s, id, n, a, r, expected, url, date);
    case VerifiedUpdate(n, a, r, date) => VerifiedRemembers(s, n, a, r, date);
    case NoticeUpdate(id, date) => NoticeRemembers(s, id, date);
    case AckReadyUpdate(id, date) => AcksRemember(s, id, date);
    case AckNoticeUpdate(id, date) => AcksRemember(s, id, date);
  }

  lemma StageWatched(sha: Data -> string, s: Snapshot, b: Batch)
    requires UniqueBatches(s.batches) && Stage(sha, s, b).Ok?
    ensures Watched(s, Stage(sha, s, b).value)
  {
    var t := Stage(sha, s, b).value;
    var at := BatchIndex(s.batches, b.batchId);
    forall i, k | 0 <= i < |s.batches| && 0 <= k < |t.batches| && s.batches[i].batchId == t.batches[k].batchId
                  && s.batches[i].nextProofHeight == t.batches[k].nextProofHeight
      ensures Remembers(s.batches[i], t.batches[k])
    {
      BatchFinds(s.batches, i);
      if k < |s.batches| {
        BatchFinds(s.batches, k);
      }
    }
  }

  lemma AckCompleteWatched(s: Snapshot, batchId: string, date: int)
    requires UniqueBatches(s.batches) && AcknowledgeBroadcastComplete(s, batchId, date).Ok?
    ensures Watched(s, AcknowledgeBroadcastComplete(s, batchId, date).value)
  {
    var t := AcknowledgeBroadcastComplete(s, batchId, date).value;
    var at := BatchIndex(s.batches, batchId);
    forall i, k | 0 <= i < |s.batches| && 0 <= k < |t.batches| && s.batches[i].batchId == t.batches[k].batchId
      ensures Remembers(s.batches[i], t.batches[k])
    {
      var m := if |t.batches| == |s.batches| || k < at then k else k + 1;
      assert Remembers(s.batches[m], t.batches[k]);
      BatchFinds(s.batches, i);
      BatchFinds(s.batches, m);
    }
  }

  lemma DiscardWatched(s: Snapshot, batchId: string)
    requires UniqueBatches(s.batches) && DiscardBatch(s, batchId).Ok?
    ensures Watched(s, DiscardBatch(s, batchId).value.0)
  {
    var t := DiscardBatch(s, batchId).value.0;
    var at := BatchIndex(s.batches, batchId);
    forall i, k | 0 <= i < |s.batches| && 0 <= k < |t.batches| && s.batches[i].batchId == t.batches[k].batchId
      ensures Remembers(s.batches[i], t.batches[k])
    {
      var m := if |t.batches| == |s.batches| || k < at then k else k + 1;
      assert s.batches[m] == t.batches[k];
      BatchFinds(s.batches, i);
      BatchFinds(s.batches, m);
    }
  }

  lemma RevokeWatched(s: Snapshot, network: string, accountUuid: string)
    requires UniqueBatches(s.batches)
    ensures Watched(s, Revoke(s, network, accountUuid))
  {
    var keep := (b: Batch) => !InAccount(s, network, accountUuid, b.batchId);
    var t := Revoke(s, network, accountUuid);
    assert t.batches == KeepBatches(s.batches, keep);
    KeptWithin(s, t, keep);
    WithinWatched(s, t);
  }

  lemma AcknowledgedWatched(sha: Data -> string, s: Snapshot, ids: set<ReceiptId>, t: Snapshot)
    requires UniqueBatches(s.batches) && t == AcknowledgeReceipts(s, ids)
    ensures Watched(s, t)
  {
    AcknowledgeWithin(s, ids);
    WithinWatched(s, t);
  }

  lemma RemovalIsWatched(sha: Data -> string, s: Snapshot, u: Update, t: Snapshot)
    requires UniqueBatches(s.batches) && Apply(sha, u, s) == Ok(t)
    requires u.AckReceiptsUpdate? || u.RevokeUpdate? || u.RemoveAllUpdate?
    ensures Watched(s, t)
  {
    if u.AckReceiptsUpdate? {
      AckReceiptsIsWatched(sha, s, u.ids, t);
    } else if u.RevokeUpdate? {
      RevokeIsWatched(sha, s, u.network, u.accountUuid, t);
    }
  }

  lemma AckReceiptsIsWatched(sha: Data -> string, s: Snapshot, ids: set<ReceiptId>, t: Snapshot)
    requires UniqueBatches(s.batches) && Apply(sha, AckReceiptsUpdate(ids), s) == Ok(t)
    ensures Watched(s, t)
  {
    AcknowledgedWatched(sha, s, ids, t);
  }

  lemma RevokeIsWatched(sha: Data -> string, s: Snapshot, network: string, accountUuid: string, t: Snapshot)
    requires UniqueBatches(s.batches) && Apply(sha, RevokeUpdate(network, accountUuid), s) == Ok(t)
    ensures Watched(s, t)
  {
    RevokeWatched(s, network, accountUuid);
  }

  lemma MoveIsWatched(sha: Data -> string, s: Snapshot, u: Update, t: Snapshot)
    requires UniqueBatches(s.batches) && Apply(sha, u, s) == Ok(t)
    requires u.StageUpdate? || u.AckCompleteUpdate? || u.DiscardUpdate?
    ensures Watched(s, t)
  {
    if u.StageUpdate? {
      StageWatched(sha, s, u.batch);
    } else if u.AckCompleteUpdate? {
      AckCompleteWatched(s, u.batchId, u.date);
    } else {
      DiscardWatched(s, u.batchId);
    }
  }

  lemma UpdateIsWatched(sha: Data -> string, s: Snapshot, u: Update, t: Snapshot)
    requires UniqueBatches(s.batches) && Apply(sha, u, s) == Ok(t)
    ensures Watched(s, t)
  {
    if u.AckReceiptsUpdate? || u.RevokeUpdate? || u.RemoveAllUpdate? {
      RemovalIsWatched(sha, s, u, t);
    } else if Moves(u) {
      MoveIsWatched(sha, s, u, t);
    } else {
      if ByRunner(u) { RunnerRemembers(sha, s, u, t); } else { ChannelRemembers(sha, s, u, t); }
      RemembersWatched(s, t);
    }
  }

  /** Which batch ids are on record as announced after an update that is neither a revocation of the id nor a removal of everything. */
  lemma UpdateKeepsAnnounced(sha: Data -> string, s: Snapshot, u: Update, t: Snapshot, batchId: string)
    requires Apply(sha, u, s) == Ok(t) && batchId in Announced(s)
    requires !Forgets(u, batchId)
    ensures batchId in Announced(t)
  {
    if Moves(u) {
      MoveKeepsAnnounced(sha, s, u, t, batchId);
    } else if ByRunner(u) {
      RunnerRemembers(sha, s, u, t);
    } else {
      ChannelRemembers(sha, s, u, t);
    }
  }

  /** A revocation of the account that the batch id is scoped to, or a removal of the whole store. */
  predicate Forgets(u: Update, batchId: string) {
    u.RemoveAllUpdate? || (u.RevokeUpdate? && ScopePrefix(u.network, u.accountUuid) <= batchId)
  }

  lemma MoveKeepsAnnounced(sha: Data -> string, s: Snapshot, u: Update, t: Snapshot, batchId: string)
    requires Moves(u) && Apply(sha, u, s) == Ok(t) && batchId in Announced(s) && !Forgets(u, batchId)
    ensures batchId in Announced(t)
  {
    if u.RevokeUpdate? {
      assert batchId in KeepIds(Announced(s), ScopePrefix(u.network, u.accountUuid));
    }
  }

  // ----- "transfers sent" is announced once ----------------------------------------------------

  lemma StoredKeepsAnnounced(sha: Data -> string, s: Snapshot, u: Update, t: Snapshot, batchId: string)
    requires t == Stored(sha, u, s) && batchId in Announced(s) && !Forgets(u, batchId)
    ensures batchId in Announced(t)
  {
    if Apply(sha, u, s).Ok? {
      UpdateKeepsAnnounced(sha, s, u, t, batchId);
    }
  }

  /** From `m` to `n`, an announced id stays announced from one snapshot to the next. */
  ghost predicate KeepsAnnounced(states: seq<Snapshot>, m: nat, n: nat, batchId: string)
    requires m <= n < |states|
  {
    forall k, l :: m <= k < l <= n && l == k + 1 && batchId in Announced(states[k]) ==> batchId in Announced(states[l])
  }

  lemma {:induction false} AnnouncedStays(states: seq<Snapshot>, m: nat, n: nat, batchId: string)
    requires m <= n < |states| && KeepsAnnounced(states, m, n, batchId) && batchId in Announced(states[m])
    ensures batchId in Announced(states[n])
  {
    if m < n {
      AnnouncedStays(states, m, n - 1, batchId);
    }
  }

  lemma RunKeepsAnnounced(sha: Data -> string, states: seq<Snapshot>, updates: seq<Update>, m: nat, n: nat, batchId: string)
    requires IsRun(sha, states, updates) && m <= n < |states|
    requires forall k :: m <= k < n ==> !Forgets(updates[k], batchId)
    ensures KeepsAnnounced(states, m, n, batchId)
  {
    forall k, l | m <= k < l <= n && l == k + 1 && batchId in Announced(states[k]) ensures batchId in Announced(states[l]) {
      StoredKeepsAnnounced(sha, states[k], updates[k], states[l], batchId);
    }
  }

  ghost predicate AnnouncesSent(sha: Data -> string, s: Snapshot, u: Update, batchId: string) {
    u.AckCompleteUpdate? && u.batchId == batchId && AcknowledgeBroadcastComplete(s, batchId, u.date).Ok?
  }

  lemma AckOnRecord(sha: Data -> string, s: Snapshot, u: Update, t: Snapshot, batchId: string)
    requires AnnouncesSent(sha, s, u, batchId) && t == Stored(sha, u, s)
    ensures batchId in Announced(t)
  {
  }

  lemma AckIsNew(sha: Data -> string, s: Snapshot, u: Update, batchId: string)
    requires Inv(sha, s) && AnnouncesSent(sha, s, u, batchId)
    ensures batchId !in Announced(s)
  {
    assert BatchOk(sha, Announced(s), s.batches[BatchIndex(s.batches, batchId)]);
  }

  /**
   "Transfers sent" is delivered at most once per batch id between revocations: between two successful
   acknowledgements for one id, its account was revoked or the store removed. Pruning the record and
   staging it again under the same id does not bring the announcement back.
   */
  lemma TransfersSentOnce(sha: Data -> string, states: seq<Snapshot>, updates: seq<Update>, m: nat, n: nat, batchId: string)
    requires IsRun(sha, states, updates) && m < n < |updates|
    requires AnnouncesSent(sha, states[m], updates[m], batchId) && AnnouncesSent(sha, states[n], updates[n], batchId)
    ensures exists k :: m < k < n && Forgets(updates[k], batchId)
  {
    if forall k :: m < k < n ==> !Forgets(updates[k], batchId) {
      AckOnRecord(sha, states[m], updates[m], states[m + 1], batchId);
      RunKeepsAnnounced(sha, states, updates, m + 1, n, batchId);
      AnnouncedStays(states, m + 1, n, batchId);
      RunKeeps(sha, states, updates, n);
      AckIsNew(sha, states[n], updates[n], batchId);
      assert false;
    }
  }

  // ----- proof announcements, once per proof height -------------------------------------------

  /** The verified announcement, and the nudge that only says the height was reached. */
  datatype Notice = Verified | HeightOnly

  predicate Delivered(kind: Notice, b: Batch) { if kind == Verified then b.readyNotifiedAt.Some? else b.noticedAt.Some? }

  predicate Outstanding(kind: Notice, b: Batch) { if kind == Verified then b.readyPendingAt.Some? else b.noticePendingAt.Some? }

  function Acknowledged(kind: Notice, s: Snapshot, batchId: string, date: int): Result<Snapshot, OutboxError> {
    if kind == Verified then AcknowledgeProofReady(s, batchId, date) else AcknowledgeHeightNotice(s, batchId, date)
  }

  ghost predicate Delivers(kind: Notice, s: Snapshot, u: Update, batchId: string) {
    && (if kind == Verified then u.AckReadyUpdate? else u.AckNoticeUpdate?)
    && u.batchId == batchId
    && Acknowledged(kind, s, batchId, u.date).Ok?
  }

  /** The batch is stored with this proof height. */
  ghost predicate HasHeight(s: Snapshot, batchId: string, height: Option<U64>) {
    exists i :: 0 <= i < |s.batches| && s.batches[i].batchId == batchId && s.batches[i].nextProofHeight == height
  }

  ghost predicate IsDelivered(kind: Notice, s: Snapshot, batchId: string) {
    exists i :: 0 <= i < |s.batches| && s.batches[i].batchId == batchId && Delivered(kind, s.batches[i])
  }

  lemma DeliveredStays(s: Snapshot, t: Snapshot, kind: Notice, batchId: string, height: Option<U64>)
    requires UniqueBatches(s.batches) && Watched(s, t) && IsDelivered(kind, s, batchId)
    requires HasHeight(s, batchId, height) && HasHeight(t, batchId, height)
    ensures IsDelivered(kind, t, batchId)
  {
    var i :| 0 <= i < |s.batches| && s.batches[i].batchId == batchId && Delivered(kind, s.batches[i]);
    var j :| 0 <= j < |s.batches| && s.batches[j].batchId == batchId && s.batches[j].nextProofHeight == height;
    BatchFinds(s.batches, i);
    BatchFinds(s.batches, j);
    var k :| 0 <= k < |t.batches| && t.batches[k].batchId == batchId && t.batches[k].nextProofHeight == height;
    assert Remembers(s.batches[i], t.batches[k]);
  }

  lemma StoredIsWatched(sha: Data -> string, s: Snapshot, u: Update, t: Snapshot)
    requires UniqueBatches(s.batches) && t == Stored(sha, u, s)
    ensures Watched(s, t)
  {
    if Apply(sha, u, s).Ok? {
      UpdateIsWatched(sha, s, u, t);
    } else {
      RemembersWatched(s, s);
    }
  }

  ghost predicate WatchStep(s: Snapshot, t: Snapshot) { UniqueBatches(s.batches) && Watched(s, t) }

  /** Batch ids are unique, and deliveries at an unchanged height are remembered from one snapshot to the next. */
  ghost predicate WatchedThroughout(states: seq<Snapshot>) {
    forall k, l :: 0 <= k < l < |states| && l == k + 1 ==> WatchStep(states[k], states[l])
  }

  lemma {:induction false} DeliveredThroughout(states: seq<Snapshot>, m: nat, n: nat, kind: Notice, batchId: string, height: Option<U64>)
    requires m <= n < |states| && WatchedThroughout(states) && IsDelivered(kind, states[m], batchId)
    requires forall k :: m <= k <= n ==> HasHeight(states[k], batchId, height)
    ensures IsDelivered(kind, states[n], batchId)
  {
    if m < n {
      DeliveredThroughout(states, m, n - 1, kind, batchId, height);
      assert WatchStep(states[n - 1], states[n]);
      DeliveredStays(states[n - 1], states[n], kind, batchId, height);
    }
  }

  lemma RunIsWatched(sha: Data -> string, states: seq<Snapshot>, updates: seq<Update>)
    requires IsRun(sha, states, updates)
    ensures WatchedThroughout(states)
  {
    forall k, l | 0 <= k < l < |states| && l == k + 1 ensures WatchStep(states[k], states[l]) {
      RunKeeps(sha, states, updates, k);
      StoredIsWatched(sha, states[k], updates[k], states[l]);
    }
  }

  lemma DeliveryOnRecord(sha: Data -> string, s: Snapshot, u: Update, t: Snapshot, kind: Notice, batchId: string)
    requires Delivers(kind, s, u, batchId) && t == Stored(sha, u, s)
    ensures IsDelivered(kind, t, batchId)
  {
    var at := BatchIndex(s.batches, batchId);
    assert t.batches[at].batchId == batchId && Delivered(kind, t.batches[at]);
  }

  lemma DeliveryIsNew(sha: Data -> string, s: Snapshot, u: Update, kind: Notice, batchId: string)
    requires Inv(sha, s) && Delivers(kind, s, u, batchId)
    ensures !IsDelivered(kind, s, batchId)
  {
    var at := BatchIndex(s.batches, batchId);
    assert BatchOk(sha, Announced(s), s.batches[at]);
    forall i | 0 <= i < |s.batches| && s.batches[i].batchId == batchId ensures !Delivered(kind, s.batches[i]) {
      BatchFinds(s.batches, i);
    }
  }

  /**
   Each proof announcement, verified or height only, is delivered at most once per proof height:
   between two successful acknowledgements for one batch id, the batch was gone or had another height.
   */
  lemma NoticeOncePerHeight(sha: Data -> string, states: seq<Snapshot>, updates: seq<Update>, m: nat, n: nat,
                            kind: Notice, batchId: string, height: Option<U64>)
    requires IsRun(sha, states, updates) && m < n < |updates|
    requires Delivers(kind, states[m], updates[m], batchId) && Delivers(kind, states[n], updates[n], batchId)
    ensures exists k :: m <= k <= n && !HasHeight(states[k], batchId, height)
  {
    if forall k :: m <= k <= n ==> HasHeight(states[k], batchId, height) {
      DeliveryOnRecord(sha, states[m], updates[m], states[m + 1], kind, batchId);
      RunIsWatched(sha, states, updates);
      DeliveredThroughout(states, m + 1, n, kind, batchId, height);
      RunKeeps(sha, states, updates, n);
      DeliveryIsNew(sha, states[n], updates[n], kind, batchId);
      assert false;
    }
  }

  /** In every reachable snapshot no announcement is both outstanding and delivered. */
  lemma NeverBothPendingAndDelivered(sha: Data -> string, states: seq<Snapshot>, updates: seq<Update>, n: nat, i: nat)
    requires IsRun(sha, states, updates) && n < |states| && i < |states[n].batches|
    ensures var b := states[n].batches[i];
      && (forall kind :: !(Outstanding(kind, b) && Delivered(kind, b)))
      && !(b.completePendingAt.Some? && b.completeNotifiedAt.Some?)
      && (b.completePendingAt.Some? ==> b.batchId !in Announced(states[n]))
  {
    RunKeeps(sha, states, updates, n);
    assert BatchOk(sha, Announced(states[n]), states[n].batches[i]);
  }

  /**
   A height-only nudge, outstanding or delivered, never blocks the verified announcement: recording
   verified readiness queues it, its endpoint is inspected, some verified announcement is pending, and
   it can be acknowledged, before or after the nudge is.
   */
  lemma NudgeDoesNotBlock(sha: Data -> string, s: Snapshot, network: string, accountUuid: string, runId: string, date: int, i: nat, later: int)
    requires Inv(sha, s) && VerifiedCandidate(s, network, accountUuid, runId) == Some(i) && s.batches[i].readyNotifiedAt.None?
    ensures var t := RecordVerifiedReadiness(s, network, accountUuid, runId, date).0;
      var id := s.batches[i].batchId;
      && RecordVerifiedReadiness(s, network, accountUuid, runId, date).1
      && i < |t.batches| && ReadyPending(t.batches[i]) && Inspectable(t.batches[i])
      && PendingProofReady(t).Some?
      && AcknowledgeProofReady(t, id, later).Ok?
      && (AcknowledgeHeightNotice(t, id, later).Ok? ==>
            && ReadyPending(AcknowledgeHeightNotice(t, id, later).value.batches[i])
            && AcknowledgeProofReady(AcknowledgeHeightNotice(t, id, later).value, id, later).Ok?)
  {
    var t := RecordVerifiedReadiness(s, network, accountUuid, runId, date).0;
    VerifiedKeeps(sha, s, network, accountUuid, runId, date);
    BatchFinds(t.batches, i);
    assert t.batches[i].batchId == s.batches[i].batchId && ReadyPending(t.batches[i]);
    NudgeAcknowledged(sha, t, i, later);
  }

  lemma NudgeAcknowledged(sha: Data -> string, t: Snapshot, i: nat, later: int)
    requires Inv(sha, t) && i < |t.batches| && ReadyPending(t.batches[i])
    ensures var r := AcknowledgeHeightNotice(t, t.batches[i].batchId, later);
      r.Ok? ==> ReadyPending(r.value.batches[i]) && AcknowledgeProofReady(r.value, t.batches[i].batchId, later).Ok?
  {
    var r := AcknowledgeHeightNotice(t, t.batches[i].batchId, later);
    BatchFinds(t.batches, i);
    if r.Ok? {
      AckHeightNoticeKeeps(sha, t, t.batches[i].batchId, later);
      BatchFinds(r.value.batches, i);
    }
  }
}
