/**
 Where the evidence of a write-ahead ends. It lasts exactly as long as the item stays stored: removed
 and staged again, by whatever calls, the item is new, and nothing tells that it may have been sent.
 */
module OutboxForgotten {
  import opened Common
  import opened OutboxModel
  import opened Counting
  import opened OutboxInvariant
  import opened OutboxSteps
  import opened OutboxStaging
  import opened OutboxRemoval
  import opened OutboxUpdates
  import opened OutboxSelection
  import opened OutboxRunner

  // ----- what is gone stays forgotten ---------------------------------------------------------

  /** The event is a write-ahead that selected this item. */
  ghost predicate Selects(worlds: seq<World>, events: seq<Event>, k: nat, itemId: string)
    requires k < |events| && |worlds| == |events| + 1
  {
    events[k].WriteAhead? && worlds[k + 1].pc.Prepared? && worlds[k + 1].pc.sel.item.itemId == itemId
  }

  ghost predicate Unattempted(s: Snapshot, itemId: string) {
    forall i, j :: 0 <= i < |s.batches| && 0 <= j < |s.batches[i].items| && s.batches[i].items[j].itemId == itemId
                   ==> !Attempted(s.batches[i].items[j])
  }

  lemma NotStoredIsUnattempted(s: Snapshot, itemId: string)
    requires !IsStored(s, itemId)
    ensures Unattempted(s, itemId)
  {
    forall i, j | 0 <= i < |s.batches| && 0 <= j < |s.batches[i].items| && s.batches[i].items[j].itemId == itemId
      ensures false
    {
      CountAllPresent(ById(itemId), s.batches, i, j);
    }
  }

  lemma UnattemptedStep(s: Snapshot, t: Snapshot, exempt: Exempt, itemId: string)
    requires Descends(s, t, exempt) && Unattempted(s, itemId) && exempt != Begins(itemId)
    ensures Unattempted(t, itemId)
  {
    forall k, l | 0 <= k < |t.batches| && 0 <= l < |t.batches[k].items| && t.batches[k].items[l].itemId == itemId
      ensures !Attempted(t.batches[k].items[l])
    {
      if !Fresh(s, t.batches[k].items[l]) {
        assert Inherits(s, t.batches[k].batchId, t.batches[k].items[l], exempt);
      }
    }
  }

  lemma ForgottenStep(sha: Data -> string, w: World, e: Event, store: Snapshot, pc: Pc, itemId: string)
    requires Inv(sha, w.store) && Enabled(sha, w, e) && store == NextStore(sha, w, e) && pc == NextPc(sha, w, e)
    requires Unattempted(w.store, itemId) && !(e.WriteAhead? && pc.Prepared? && pc.sel.item.itemId == itemId)
    ensures Unattempted(store, itemId)
  {
    var exempt := StoreStep(sha, w, e, store, pc);
    UnattemptedStep(w.store, store, exempt, itemId);
  }

  ghost predicate ForgetsAt(stores: seq<Snapshot>, k: nat, itemId: string)
    requires k + 1 < |stores|
  {
    Unattempted(stores[k], itemId) ==> Unattempted(stores[k + 1], itemId)
  }

  lemma StepForgets(sha: Data -> string, worlds: seq<World>, events: seq<Event>, k: nat, itemId: string)
    requires IsExecution(sha, worlds, events) && k < |events| && !Selects(worlds, events, k, itemId)
    requires Unattempted(worlds[k].store, itemId)
    ensures Unattempted(worlds[k + 1].store, itemId)
  {
    ReachableIsSafe(sha, worlds, events, k);
    ForgottenStep(sha, worlds[k], events[k], worlds[k + 1].store, worlds[k + 1].pc, itemId);
  }

  lemma {:induction false} StoresForget(stores: seq<Snapshot>, q: nat, n: nat, itemId: string)
    requires q <= n < |stores| && !IsStored(stores[q], itemId)
    requires forall k :: q <= k < n ==> ForgetsAt(stores, k, itemId)
    ensures Unattempted(stores[n], itemId)
  {
    if n == q {
      NotStoredIsUnattempted(stores[n], itemId);
    } else {
      StoresForget(stores, q, n - 1, itemId);
      assert ForgetsAt(stores, n - 1, itemId);
    }
  }

  /** Once an item is not stored, it has no attempt on record until a write-ahead selects it again. */
  lemma GoneIsForgotten(sha: Data -> string, worlds: seq<World>, events: seq<Event>, q: nat, n: nat, itemId: string)
    requires IsExecution(sha, worlds, events) && q <= n < |worlds|
    requires !IsStored(worlds[q].store, itemId)
    requires forall k :: q <= k < n ==> !Selects(worlds, events, k, itemId)
    ensures Unattempted(worlds[n].store, itemId)
  {
    var stores := Stores(worlds);
    forall k | q <= k < n
      ensures ForgetsAt(stores, k, itemId)
    {
      if Unattempted(stores[k], itemId) {
        StepForgets(sha, worlds, events, k, itemId);
      }
    }
    StoresForget(stores, q, n, itemId);
  }

  /**
   The exact reach of the write-ahead. Take a write-ahead that selected an item and the send that
   follows it, in any execution, and any later world before the item is selected again. If the item is
   stored there, it is on record as attempted if and only if it was stored in every world between.
   */
  lemma EvidenceLastsWhileStored(sha: Data -> string, worlds: seq<World>, events: seq<Event>, p: nat, m: nat, n: nat, sel: Selection,
                                 s: Snapshot, i: nat, j: nat)
    requires IsExecution(sha, worlds, events) && WrittenThenSent(worlds, events, p, m, sel) && m < n < |worlds|
    requires forall k :: p < k < n ==> !Selects(worlds, events, k, sel.item.itemId)
    requires s == worlds[n].store && i < |s.batches| && j < |s.batches[i].items| && s.batches[i].items[j].itemId == sel.item.itemId
    ensures Attempted(s.batches[i].items[j]) <==> StoredThroughout(worlds, p + 1, n, sel.item.itemId)
  {
    if StoredThroughout(worlds, p + 1, n, sel.item.itemId) {
      SentAfterSend(sha, worlds, events, p, m, sel);
      SentStays(sha, worlds, events, m + 1, n, sel.item.itemId);
      ReachableIsSafe(sha, worlds, events, n);
    } else {
      var q :| p + 1 <= q <= n && !IsStored(worlds[q].store, sel.item.itemId);
      GoneIsForgotten(sha, worlds, events, q, n, sel.item.itemId);
    }
  }

  // ----- a revocation in flight ---------------------------------------------------------------

  lemma Extend(sha: Data -> string, worlds: seq<World>, events: seq<Event>, e: Event) returns (ws: seq<World>, es: seq<Event>)
    requires IsExecution(sha, worlds, events) && Enabled(sha, worlds[|events|], e)
    ensures ws == worlds + [Step(sha, worlds[|events|], e)] && es == events + [e] && IsExecution(sha, ws, es)
  {
    var next := Step(sha, worlds[|events|], e);
    ws, es := Append(sha, worlds, events, e, next);
  }

  lemma StepKept(sha: Data -> string, worlds: seq<World>, events: seq<Event>, n: nat)
    requires IsExecution(sha, worlds, events) && n < |events|
    ensures Enabled(sha, worlds[n], events[n]) && worlds[n + 1] == Step(sha, worlds[n], events[n])
  {
  }

  lemma Append(sha: Data -> string, worlds: seq<World>, events: seq<Event>, e: Event, next: World) returns (ws: seq<World>, es: seq<Event>)
    requires IsExecution(sha, worlds, events) && Enabled(sha, worlds[|events|], e) && next == Step(sha, worlds[|events|], e)
    ensures ws == worlds + [next] && es == events + [e] && IsExecution(sha, ws, es)
  {
    ws, es := worlds + [next], events + [e];
    forall n | 0 <= n < |es|
      ensures Enabled(sha, ws[n], es[n]) == true && ws[n + 1] == Step(sha, ws[n], es[n])
    {
      if n < |events| {
        StepKept(sha, worlds, events, n);
      }
    }
  }

  /** A new batch under an id that no stored batch carries: stored as it came, never attempted, and free to be discarded. */
  lemma RestagedIsNew(sha: Data -> string, s: Snapshot, b: Batch)
    requires Inv(sha, s) && ValidIncoming(sha, b) && FromChannel(b)
    requires forall i :: 0 <= i < |s.batches| ==> s.batches[i].batchId != b.batchId
    ensures Stage(sha, s, b) == Ok(s.(batches := s.batches + [b]))
    ensures forall k :: 0 <= k < |b.items| ==> !Attempted(b.items[k])
    ensures DiscardBatch(s.(batches := s.batches + [b]), b.batchId).Ok?
  {
    NoBatchNoReceipts(sha, s, b.batchId);
    FoundAtEnd(s.batches, b);
  }

  /** Revoking the account removes every batch with the id, when those batches are the account's. */
  lemma RevokedIsGone(s: Snapshot, b: Batch)
    requires forall i :: 0 <= i < |s.batches| && s.batches[i].batchId == b.batchId ==>
      s.batches[i].network == b.network && s.batches[i].accountUuid == b.accountUuid
    ensures var t := Revoke(s, b.network, b.accountUuid);
      forall i :: 0 <= i < |t.batches| ==> t.batches[i].batchId != b.batchId
  {
    var t := Revoke(s, b.network, b.accountUuid);
    forall i | 0 <= i < |t.batches| ensures t.batches[i].batchId != b.batchId {
      assert t.batches[i] in t.batches && t.batches[i] in s.batches;
    }
  }

  /** The three events that lose the evidence of a send. */
  function RevokedInFlight(b: Batch): seq<Event> {
    [Channel(RevokeUpdate(b.network, b.accountUuid)), Send, Channel(StageUpdate(b))]
  }

  /** The item is stored, and nothing keeps it: no attempt on record, and the batch may be discarded. */
  ghost predicate Forgotten(s: Snapshot, batchId: string, itemId: string) {
    IsStored(s, itemId) && Unattempted(s, itemId) && DiscardBatch(s, batchId).Ok?
  }

  lemma NotElsewhere(s: Snapshot, b: Batch, k: nat)
    requires IdsFree(s, b) && k < |b.items|
    requires forall i :: 0 <= i < |s.batches| ==> s.batches[i].batchId != b.batchId
    ensures forall i, j :: 0 <= i < |s.batches| && 0 <= j < |s.batches[i].items| ==> s.batches[i].items[j].itemId != b.items[k].itemId
  {
  }

  lemma StagedIsUnattempted(s: Snapshot, b: Batch, k: nat)
    requires IdsFree(s, b) && k < |b.items|
    requires forall i :: 0 <= i < |s.batches| ==> s.batches[i].batchId != b.batchId
    requires forall k :: 0 <= k < |b.items| ==> !Attempted(b.items[k])
    ensures IsStored(s.(batches := s.batches + [b]), b.items[k].itemId) && Unattempted(s.(batches := s.batches + [b]), b.items[k].itemId)
  {
    var t := s.(batches := s.batches + [b]);
    assert t.batches[|s.batches|] == b;
    CountAllPresent(ById(b.items[k].itemId), t.batches, |s.batches|, k);
    NotElsewhere(s, b, k);
  }

  lemma StagedIsForgotten(sha: Data -> string, s: Snapshot, b: Batch, k: nat)
    requires Inv(sha, s) && ValidIncoming(sha, b) && FromChannel(b) && IdsFree(s, b) && k < |b.items|
    requires forall i :: 0 <= i < |s.batches| ==> s.batches[i].batchId != b.batchId
    ensures Stage(sha, s, b) == Ok(s.(batches := s.batches + [b]))
    ensures Forgotten(s.(batches := s.batches + [b]), b.batchId, b.items[k].itemId)
  {
    RestagedIsNew(sha, s, b);
    StagedIsUnattempted(s, b, k);
  }

  lemma GoneAndRestaged(sha: Data -> string, s: Snapshot, t: Snapshot, b: Batch, itemId: string)
    requires Inv(sha, s) && ValidIncoming(sha, b) && FromChannel(b) && t == Revoke(s, b.network, b.accountUuid) && IdsFree(t, b)
    requires exists k :: 0 <= k < |b.items| && b.items[k].itemId == itemId
    requires forall i :: 0 <= i < |s.batches| && s.batches[i].batchId == b.batchId ==>
      s.batches[i].network == b.network && s.batches[i].accountUuid == b.accountUuid
    ensures Stage(sha, t, b).Ok? && Forgotten(Stage(sha, t, b).value, b.batchId, itemId)
  {
    RevokeKeeps(sha, s, b.network, b.accountUuid);
    RevokedIsGone(s, b);
    var k :| 0 <= k < |b.items| && b.items[k].itemId == itemId;
    StagedIsForgotten(sha, t, b, k);
  }

  lemma ChannelStep(sha: Data -> string, w: World, u: Update)
    requires !ByRunner(u) && Admissible(u, w.store)
    ensures Enabled(sha, w, Channel(u))
    ensures Step(sha, w, Channel(u)).store == Stored(sha, u, w.store) && Step(sha, w, Channel(u)).pc == w.pc
  {
  }

  lemma SendStep(sha: Data -> string, w: World)
    requires w.pc.Prepared?
    ensures Enabled(sha, w, Send) && Step(sha, w, Send).store == w.store
  {
  }

  lemma ExtendChannel(sha: Data -> string, worlds: seq<World>, events: seq<Event>, u: Update, store: Snapshot)
    returns (ws: seq<World>, es: seq<Event>)
    requires IsExecution(sha, worlds, events) && !ByRunner(u) && Admissible(u, worlds[|events|].store)
    requires store == Stored(sha, u, worlds[|events|].store)
    ensures es == events + [Channel(u)] && IsExecution(sha, ws, es) && worlds <= ws
    ensures ws[|es|].store == store && ws[|es|].pc == worlds[|events|].pc
  {
    ChannelStep(sha, worlds[|events|], u);
    ws, es := Extend(sha, worlds, events, Channel(u));
  }

  lemma ExtendSend(sha: Data -> string, worlds: seq<World>, events: seq<Event>) returns (ws: seq<World>, es: seq<Event>)
    requires IsExecution(sha, worlds, events) && worlds[|events|].pc.Prepared?
    ensures es == events + [Send] && IsExecution(sha, ws, es) && worlds <= ws
    ensures ws[|es|].store == worlds[|events|].store
  {
    SendStep(sha, worlds[|events|]);
    ws, es := Extend(sha, worlds, events, Send);
  }

  lemma RevokeResult(sha: Data -> string, network: string, accountUuid: string, s: Snapshot)
    ensures Stored(sha, RevokeUpdate(network, accountUuid), s) == Revoke(s, network, accountUuid)
  {
  }

  lemma StageResult(sha: Data -> string, b: Batch, s: Snapshot)
    requires Stage(sha, s, b).Ok?
    ensures Stored(sha, StageUpdate(b), s) == Stage(sha, s, b).value
  {
  }

  lemma RevokedThenSent(sha: Data -> string, worlds: seq<World>, events: seq<Event>, network: string, accountUuid: string)
    returns (ws: seq<World>, es: seq<Event>)
    requires IsExecution(sha, worlds, events) && worlds[|events|].pc.Prepared?
    ensures es == events + [Channel(RevokeUpdate(network, accountUuid)), Send] && IsExecution(sha, ws, es) && worlds <= ws
    ensures ws[|es|].store == Revoke(worlds[|events|].store, network, accountUuid)
  {
    var t := Revoke(worlds[|events|].store, network, accountUuid);
    RevokeResult(sha, network, accountUuid, worlds[|events|].store);
    ws, es := ExtendChannel(sha, worlds, events, RevokeUpdate(network, accountUuid), t);
    ws, es := ExtendSend(sha, ws, es);
  }

  /**
   Any execution that has just written an attempt ahead can lose it: the account is revoked, the payload
   is sent all the same, and the same batch is staged again. What was sent is then stored, has no
   attempt on record, and its batch can be discarded.
   */
  lemma RevokedInFlightIsForgotten(sha: Data -> string, worlds: seq<World>, events: seq<Event>, b: Batch)
    returns (ws: seq<World>, es: seq<Event>)
    requires IsExecution(sha, worlds, events) && worlds[|events|].pc.Prepared?
    requires ValidIncoming(sha, b) && FromChannel(b)
    requires exists k :: 0 <= k < |b.items| && b.items[k].itemId == worlds[|events|].pc.sel.item.itemId
    requires var s := worlds[|events|].store;
      && (forall i :: 0 <= i < |s.batches| && s.batches[i].batchId == b.batchId ==>
            s.batches[i].network == b.network && s.batches[i].accountUuid == b.accountUuid)
      && IdsFree(Revoke(s, b.network, b.accountUuid), b)
    ensures es == events + RevokedInFlight(b) && IsExecution(sha, ws, es) && worlds <= ws
    ensures Forgotten(ws[|es|].store, b.batchId, worlds[|events|].pc.sel.item.itemId)
  {
    var w := worlds[|events|];
    var t := Revoke(w.store, b.network, b.accountUuid);
    ReachableIsSafe(sha, worlds, events, |events|);
    GoneAndRestaged(sha, w.store, t, b, w.pc.sel.item.itemId);
    StageResult(sha, b, t);
    ws, es := RevokedThenSent(sha, worlds, events, b.network, b.accountUuid);
    ws, es := ExtendChannel(sha, ws, es, StageUpdate(b), Stage(sha, t, b).value);
    assert es == events + RevokedInFlight(b);
  }
}
