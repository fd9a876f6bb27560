/**
 The outbox as the program keeps it: fields that each mutation updates in place, batch by batch and
 item by item. Every method is proved to do to its fields what the specification function of the same
 name does to a snapshot. A method that throws reports the same error; what it leaves behind is then
 never stored.
 */
module Outbox {
  import opened Common
  import opened OutboxModel
  import opened OutboxChoice

  // ----- what the loops have done so far -------------------------------------------------------

  lemma {:induction false} AddedItemsFail(existing: seq<Item>, incoming: seq<Item>, k: nat)
    requires k <= |incoming| && AddedItems(existing, incoming[..k]).Err?
    ensures AddedItems(existing, incoming) == AddedItems(existing, incoming[..k])
    decreases |incoming|
  {
    if k < |incoming| {
      assert incoming[..|incoming| - 1][..k] == incoming[..k];
      AddedItemsFail(existing, incoming[..|incoming| - 1], k);
    } else {
      assert incoming[..k] == incoming;
    }
  }

  /** A loop that writes position after position: what is done, and what is still to come. */
  lemma OneMore<T>(done: seq<T>, all: seq<T>, j: nat, x: T)
    requires |done| == j < |all|
    ensures (done + all[j..])[j] == all[j]
    ensures (done + all[j..])[j := x] == (done + [x]) + all[j + 1..]
    ensures done + all[j..] == (done + [all[j]]) + all[j + 1..]
  {
  }

  /** One more item of a sweep. */
  lemma SweepReceiptsStep(sweep: Sweep, b: Batch, items: seq<Item>, j: nat, date: int)
    requires j < |items|
    ensures SweepReceipts(sweep, b, items[..j + 1], date)
         == SweepReceipts(sweep, b, items[..j], date)
            + (if sweep.Hits(items[j]) then [MakeReceipt(b, items[j], sweep.Outcome(), sweep.tip, None, sweep.Message(), [], date)] else [])
  {
    PrefixOf(items, j);
  }

  /** A sweep adds a receipt exactly when it hits something. */
  lemma {:induction false} ReceiptsTellHits(sweep: Sweep, b: Batch, items: seq<Item>, date: int)
    ensures SweepReceipts(sweep, b, items, date) != [] <==> exists k :: 0 <= k < |items| && sweep.Hits(items[k])
  {
    if items != [] {
      var front := items[..|items| - 1];
      ReceiptsTellHits(sweep, b, front, date);
      assert forall k :: 0 <= k < |front| ==> front[k] == items[k];
    }
  }

  lemma SweptItemsStep(sweep: Sweep, items: seq<Item>, j: nat)
    requires j < |items|
    ensures SweptItems(sweep, items[..j + 1]) == SweptItems(sweep, items[..j]) + [sweep.Retired(items[j])]
  {
  }

  /** One more batch of a sweep. */
  lemma SweepBatchesStep(sweep: Sweep, endpoint: string, batches: seq<Batch>, i: nat, date: int)
    requires i < |batches|
    ensures SweepBatches(sweep, endpoint, batches[..i + 1], date).0
         == SweepBatches(sweep, endpoint, batches[..i], date).0 + [if batches[i].url == endpoint then SweptBatch(sweep, batches[i]) else batches[i]]
    ensures SweepBatches(sweep, endpoint, batches[..i + 1], date).1
         == SweepBatches(sweep, endpoint, batches[..i], date).1
            + (if batches[i].url == endpoint then SweepReceipts(sweep, batches[i], batches[i].items, date) else [])
  {
    PrefixOf(batches, i);
  }

  lemma {:induction false} KeptBatchesAgree(batches: seq<Batch>, f: Batch -> bool, g: Batch -> bool)
    requires forall b :: b in batches ==> f(b) == g(b)
    ensures KeepBatches(batches, f) == KeepBatches(batches, g)
  {
    if batches != [] {
      KeptBatchesAgree(batches[..|batches| - 1], f, g);
    }
  }

  lemma {:induction false} KeptItemsAgree(items: seq<Item>, f: Item -> bool, g: Item -> bool)
    requires forall it :: it in items ==> f(it) == g(it)
    ensures KeepItems(items, f) == KeepItems(items, g)
  {
    if items != [] {
      KeptItemsAgree(items[..|items| - 1], f, g);
    }
  }

  lemma {:induction false} KeptReceiptsAgree(receipts: seq<Receipt>, f: Receipt -> bool, g: Receipt -> bool)
    requires forall r :: r in receipts ==> f(r) == g(r)
    ensures KeepReceipts(receipts, f) == KeepReceipts(receipts, g)
  {
    if receipts != [] {
      KeptReceiptsAgree(receipts[..|receipts| - 1], f, g);
    }
  }

  class Outbox {
    const sha: Data -> string
    var batches: seq<Batch>
    var receipts: seq<Receipt>
    var lastAttemptedScopeKey: Option<string>
    var lastInspectedEndpoint: Option<string>
    var announcedIds: Option<seq<string>>

    constructor (sha: Data -> string, s: Snapshot)
      ensures this.sha == sha && View() == s
    {
      this.sha := sha;
      batches, receipts := s.batches, s.receipts;
      lastAttemptedScopeKey, lastInspectedEndpoint, announcedIds := s.lastScope, s.lastEndpoint, s.announced;
    }

    function View(): Snapshot
      reads this
    {
      Snapshot(batches, receipts, lastAttemptedScopeKey, lastInspectedEndpoint, announcedIds)
    }

    /** The call succeeded with the specified snapshot, or threw the specified error. */
    ghost predicate Agrees(r: Result<(), OutboxError>, spec: Result<Snapshot, OutboxError>)
      reads this
    {
      match spec
      case Ok(t) => r.Ok? && View() == t
      case Err(e) => r == Err(e)
    }

    // ----- lookups ----------------------------------------------------------------------------

    /** `firstIndex(where:)` over the batches. */
    method FindBatch(batchId: string) returns (at: nat)
      ensures at == BatchIndex(batches, batchId)
    {
      at := 0;
      while at < |batches| && batches[at].batchId != batchId
        invariant at <= |batches|
        invariant forall j :: 0 <= j < at ==> batches[j].batchId != batchId
      {
        at := at + 1;
      }
    }

    /** The first position, batch by batch, of the item id. */
    method FindItem(itemId: string) returns (r: Option<(nat, nat)>)
      ensures r == ItemLocation(batches, itemId)
    {
      var i := 0;
      while i < |batches|
        invariant i <= |batches|
        invariant forall b :: 0 <= b < i ==> ItemIndex(batches[b].items, itemId) == |batches[b].items|
      {
        var j := 0;
        while j < |batches[i].items|
          invariant j <= |batches[i].items|
          invariant forall k :: 0 <= k < j ==> batches[i].items[k].itemId != itemId
        {
          if batches[i].items[j].itemId == itemId {
            assert ItemIndex(batches[i].items, itemId) == j;
            ghost var at := ItemLocation(batches, itemId);
            assert at.Some? && at.value.0 == i;
            return Some((i, j));
          }
          j := j + 1;
        }
        i := i + 1;
      }
      r := None;
    }

    method LocateWith(itemId: string, status: ItemStatus) returns (r: Result<(nat, nat), OutboxError>)
      ensures r == Locate(View(), itemId, status)
    {
      var at := FindItem(itemId);
      if at.None? { return Err(ItemNotFound); }
      if batches[at.value.0].items[at.value.1].status != status { return Err(InvalidTransition); }
      r := Ok(at.value);
    }

    method SetItem(at: (nat, nat), it: Item)
      requires at.0 < |batches| && at.1 < |batches[at.0].items|
      modifies this`batches
      ensures View() == WithItemAt(old(View()), at, it)
    {
      batches := batches[at.0 := batches[at.0].(items := batches[at.0].items[at.1 := it])];
    }

    // ----- staging and arming -----------------------------------------------------------------

    /** Appends the incoming items that the batch lacks, or throws at the first conflict. */
    method MergeItems(at: nat, existing: seq<Item>, incoming: seq<Item>) returns (r: Result<(), OutboxError>)
      requires at < |batches| && batches[at].items == existing
      modifies this`batches
      ensures match AddedItems(existing, incoming)
        case Ok(added) => r == Ok(()) && batches == old(batches)[at := old(batches)[at].(items := existing + added)]
        case Err(e) => r == Err(e)
    {
      var k := 0;
      ghost var added: seq<Item> := [];
      assert incoming[..0] == [] && existing + added == existing;
      while k < |incoming|
        invariant k <= |incoming| && at < |batches|
        invariant AddedItems(existing, incoming[..k]) == Ok(added)
        invariant batches == old(batches)[at := old(batches)[at].(items := existing + added)]
      {
        PrefixOf(incoming, k);
        var held := ItemIndex(existing, incoming[k].itemId);
        if held < |existing| {
          if !SameDelivery(existing[held], incoming[k]) {
            AddedItemsFail(existing, incoming, k + 1);
            return Err(ConflictingBatch);
          }
        } else if Collides(existing, incoming[k]) {
          AddedItemsFail(existing, incoming, k + 1);
          return Err(ConflictingBatch);
        } else {
          batches := batches[at := batches[at].(items := batches[at].items + [incoming[k]])];
          assert existing + added + [incoming[k]] == existing + (added + [incoming[k]]);
          added := added + [incoming[k]];
        }
        k := k + 1;
      }
      assert incoming[..k] == incoming;
      r := Ok(());
    }

    /** A new proof height, or any added item, takes back what was announced about the old contents. */
    method ResetAnnouncements(at: nat, existing: Batch, b: Batch, ghost added: seq<Item>)
      requires at < |batches|
      requires batches[at] == existing.(url := b.url, timingMean := b.timingMean, timingMax := b.timingMax, items := existing.items + added)
      modifies this`batches
      ensures batches == old(batches)[at := Restaged(existing, b, added)]
    {
      if existing.nextProofHeight != b.nextProofHeight {
        batches := batches[at := batches[at].(nextProofHeight := b.nextProofHeight, readyPendingAt := None, readyNotifiedAt := None,
                                              noticePendingAt := None, noticedAt := None)];
      }
      if |batches[at].items| > |existing.items| || existing.nextProofHeight != b.nextProofHeight {
        batches := batches[at := batches[at].(completePendingAt := None, completeNotifiedAt := None)];
      }
    }

    /** A new endpoint or cadence is taken over, unless a submission is open. */
    method Retime(at: nat, existing: Batch, b: Batch) returns (r: Result<(), OutboxError>)
      requires at < |batches| && batches[at] == existing
      modifies this`batches
      ensures r == if (existing.url != b.url || existing.timingMean != b.timingMean || existing.timingMax != b.timingMax)
                      && HasSubmitting(existing.items)
                   then Err(ConflictingBatch) else Ok(())
      ensures r.Ok? ==> batches == old(batches)[at := existing.(url := b.url, timingMean := b.timingMean, timingMax := b.timingMax)]
    {
      if existing.url != b.url {
        if HasSubmitting(existing.items) { return Err(ConflictingBatch); }
        batches := batches[at := batches[at].(url := b.url)];
      }
      if existing.timingMean != b.timingMean || existing.timingMax != b.timingMax {
        if HasSubmitting(existing.items) { return Err(ConflictingBatch); }
        batches := batches[at := batches[at].(timingMean := b.timingMean, timingMax := b.timingMax)];
      }
      r := Ok(());
    }

    method Stage(b: Batch) returns (r: Result<(), OutboxError>)
      modifies this`batches
      ensures Agrees(r, OutboxModel.Stage(sha, old(View()), b))
    {
      if !ValidIncoming(sha, b) { return Err(InvalidBatch); }
      var at := FindBatch(b.batchId);
      if at == |batches| {
        batches := batches + [b];
        return Ok(());
      }
      var existing := batches[at];
      if !existing.BelongsTo(b.network, b.accountUuid, b.runId) { return Err(ConflictingBatch); }
      var retimed := Retime(at, existing, b);
      if retimed.Err? { return retimed; }
      var merged := MergeItems(at, existing.items, b.items);
      if merged.Err? { return merged; }
      ResetAnnouncements(at, existing, b, AddedItems(existing.items, b.items).value);
      r := Ok(());
    }

    /** Arms what was staged and is expected. */
    static method ArmItems(items: seq<Item>, digests: map<string, string>) returns (r: seq<Item>)
      ensures r == MapItems(items, ArmedIfExpected(digests))
    {
      r := items;
      var i := 0;
      while i < |r|
        invariant i <= |r| == |items|
        invariant forall j :: 0 <= j < |r| ==> r[j] == if j < i then ArmedIfExpected(digests)(items[j]) else items[j]
      {
        if r[i].itemId in digests && r[i].status == Staged {
          r := r[i := r[i].(status := Armed)];
        }
        i := i + 1;
      }
    }

    method ArmBatch(batchId: string, digests: map<string, string>, date: int) returns (r: Result<(), OutboxError>)
      modifies this`batches
      ensures Agrees(r, OutboxModel.ArmBatch(old(View()), batchId, digests, date))
    {
      var at := FindBatch(batchId);
      if at == |batches| { return Err(BatchNotFound); }
      var b := batches[at];
      if (digests == map[] && b.nextProofHeight.None?) || !DigestsMatch(b.items, digests) { return Err(InvalidArmRequest); }
      if b.armedAt.None? { batches := batches[at := b.(armedAt := Some(date))]; }
      var items := ArmItems(b.items, digests);
      batches := batches[at := batches[at].(items := items)];
      r := Ok(());
    }

    /** Counts every open submission as uncertain, and arms what was only staged. */
    static method RecoverItems(items: seq<Item>, date: int) returns (r: seq<Item>)
      ensures r == MapItems(items, RecoveredItem(date))
    {
      r := items;
      var i := 0;
      while i < |r|
        invariant i <= |r| == |items|
        invariant forall j :: 0 <= j < |r| ==> r[j] == if j < i then RecoveredItem(date)(items[j]) else items[j]
      {
        if r[i].status == Submitting {
          r := r[i := Uncertain(r[i], UNKNOWN_OUTCOME, date)];
        } else if r[i].status == Staged {
          r := r[i := r[i].(status := Armed)];
        }
        i := i + 1;
      }
    }

    method RecoverBatch(batchId: string, network: string, accountUuid: string, runId: string, expected: set<string>, url: string, date: int)
      returns (r: Result<bool, OutboxError>)
      modifies this`batches
      ensures var spec := OutboxModel.RecoverBatch(old(View()), batchId, network, accountUuid, runId, expected, url, date);
        match spec
        case Ok(done) => r == Ok(done.1) && View() == done.0
        case Err(e) => r == Err(e)
    {
      if expected == {} || url == "" { return Err(InvalidArmRequest); }
      var at := FindBatch(batchId);
      if at == |batches| { return Ok(false); }
      var b := batches[at];
      if !b.BelongsTo(network, accountUuid, runId) || b.items == [] || exists it :: it in b.items && it.txid !in expected {
        return Err(ConflictingBatch);
      }
      var items := RecoverItems(b.items, date);
      batches := batches[at := b.(items := items)];
      batches := batches[at := batches[at].(url := url)];
      if HasArmed(batches[at].items) && batches[at].armedAt.None? {
        batches := batches[at := batches[at].(armedAt := Some(date))];
      }
      r := Ok(true);
    }

    method RecoverInterrupted(date: int)
      modifies this`batches
      ensures View() == OutboxModel.RecoverInterrupted(old(View()), date)
    {
      var i := 0;
      while i < |batches|
        invariant i <= |batches| == |old(batches)|
        invariant forall k :: 0 <= k < |batches| ==>
          batches[k] == if k < i then RecoveredSubmissions(old(batches)[k], date) else old(batches)[k]
      {
        var b := batches[i];
        ghost var before := batches;
        var j := 0;
        while j < |b.items|
          invariant |batches| == |before|
          invariant j <= |b.items| == |batches[i].items|
          invariant batches == before[i := b.(items := batches[i].items)]
          invariant forall k :: 0 <= k < |b.items| ==>
            batches[i].items[k] == if k < j then Interrupted(date)(b.items[k]) else b.items[k]
        {
          if batches[i].items[j].status == Submitting {
            batches := batches[i := batches[i].(items := batches[i].items[j := Uncertain(batches[i].items[j], UNKNOWN_OUTCOME, date)])];
          }
          j := j + 1;
        }
        assert batches[i].items == MapItems(b.items, Interrupted(date));
        i := i + 1;
      }
    }

    static ghost function RecoveredSubmissions(b: Batch, date: int): Batch {
      b.(items := MapItems(b.items, Interrupted(date)))
    }

    // ----- rotation ---------------------------------------------------------------------------

    method NextEndpoint() returns (selected: Option<string>)
      modifies this`lastInspectedEndpoint
      ensures (View(), selected) == OutboxModel.NextEndpoint(old(View()))
      ensures selected.Some? <==> exists b :: b in batches && Inspectable(b)
      ensures selected.Some? ==> exists b :: b in batches && Inspectable(b) && b.url == selected.value
    {
      EndpointIsInspectable(View());
      var endpoints := Endpoints(View());
      if endpoints == [] { return None; }
      var next := NextKey(endpoints, lastInspectedEndpoint);
      lastInspectedEndpoint := Some(next);
      selected := Some(next);
    }

    method SelectDue(tip: U64, endpoint: Option<string>, date: int) returns (selected: Option<Selection>)
      modifies this`lastAttemptedScopeKey
      ensures (View(), selected) == OutboxModel.SelectDue(old(View()), tip, endpoint, date)
      ensures selected.Some? <==> exists b :: b in batches && DueBatch(b, tip, endpoint, date)
      ensures selected.Some? ==> ChosenIn(old(View()), tip, endpoint, date, selected.value)
    {
      SelectedIsLeast(View(), tip, endpoint, date);
      var scopes := DueScopes(View(), tip, endpoint, date);
      if scopes == [] { return None; }
      var scope := NextKey(scopes, lastAttemptedScopeKey);
      assert scope in scopes;
      var b := batches[ScopeBatch(batches, tip, endpoint, date, scope)];
      var best := BestItem(b.items, tip, date);
      lastAttemptedScopeKey := Some(scope);
      selected := Some(Selection(b.batchId, b.accountUuid, b.ScopeKey(), b.url, b.items[best.value]));
    }

    // ----- announcements ----------------------------------------------------------------------

    method SetBatch(at: nat, b: Batch)
      requires at < |batches|
      modifies this`batches
      ensures View() == WithBatch(old(View()), at, b)
    {
      batches := batches[at := b];
    }

    method MarkProofReady(tip: U64, endpoint: string, date: int)
      modifies this`batches
      ensures View() == OutboxModel.MarkProofReady(old(View()), tip, endpoint, date)
    {
      var candidate := ProofCandidate(View(), tip, endpoint);
      if candidate.None? { return; }
      var at := FindBatch(batches[candidate.value].batchId);
      if at < |batches| && batches[at].readyPendingAt.None? {
        SetBatch(at, batches[at].(readyPendingAt := Some(date)));
      }
    }

    method RecordVerifiedReadiness(network: string, accountUuid: string, runId: string, date: int) returns (matched: bool)
      modifies this`batches
      ensures (View(), matched) == OutboxModel.RecordVerifiedReadiness(old(View()), network, accountUuid, runId, date)
    {
      var candidate := VerifiedCandidate(View(), network, accountUuid, runId);
      if candidate.None? { return false; }
      var b := batches[candidate.value];
      if b.readyNotifiedAt.None? && b.readyPendingAt.None? {
        SetBatch(candidate.value, b.(readyPendingAt := Some(date)));
      }
      matched := true;
    }

    method AcknowledgeProofReady(batchId: string, date: int) returns (r: Result<(), OutboxError>)
      modifies this`batches
      ensures Agrees(r, OutboxModel.AcknowledgeProofReady(old(View()), batchId, date))
    {
      var at := FindBatch(batchId);
      if at == |batches| { return Err(BatchNotFound); }
      if batches[at].readyPendingAt.None? { return Err(InvalidTransition); }
      SetBatch(at, batches[at].(readyPendingAt := None, readyNotifiedAt := Some(date)));
      r := Ok(());
    }

    method MarkHeightNotice(batchId: string, date: int) returns (marked: bool)
      modifies this`batches
      ensures (View(), marked) == OutboxModel.MarkHeightNotice(old(View()), batchId, date)
    {
      var at := FindBatch(batchId);
      if at == |batches| { return false; }
      var b := batches[at];
      if b.armedAt.None? || b.nextProofHeight.None? || b.readyNotifiedAt.Some? || b.readyPendingAt.Some?
         || b.noticePendingAt.Some? || b.noticedAt.Some? { return false; }
      SetBatch(at, b.(noticePendingAt := Some(date)));
      marked := true;
    }

    method AcknowledgeHeightNotice(batchId: string, date: int) returns (r: Result<(), OutboxError>)
      modifies this`batches
      ensures Agrees(r, OutboxModel.AcknowledgeHeightNotice(old(View()), batchId, date))
    {
      var at := FindBatch(batchId);
      if at == |batches| { return Err(BatchNotFound); }
      if batches[at].noticePendingAt.None? { return Err(InvalidTransition); }
      SetBatch(at, batches[at].(noticePendingAt := None, noticedAt := Some(date)));
      r := Ok(());
    }

    method MarkBroadcastComplete(batchId: string, date: int) returns (marked: bool)
      modifies this`batches
      ensures (View(), marked) == OutboxModel.MarkBroadcastComplete(old(View()), batchId, date)
    {
      var at := FindBatch(batchId);
      if at == |batches| || !CompleteAndUnannounced(View(), batches[at]) { return false; }
      if batches[at].completePendingAt.None? {
        SetBatch(at, batches[at].(completePendingAt := Some(date)));
      }
      marked := true;
    }

    method AcknowledgeBroadcastComplete(batchId: string, date: int) returns (r: Result<(), OutboxError>)
      modifies this`batches, this`announcedIds
      ensures Agrees(r, OutboxModel.AcknowledgeBroadcastComplete(old(View()), batchId, date))
    {
      var at := FindBatch(batchId);
      if at == |batches| { return Err(BatchNotFound); }
      if batches[at].completePendingAt.None? { return Err(InvalidTransition); }
      SetBatch(at, batches[at].(completePendingAt := None, completeNotifiedAt := Some(date)));
      var announced := if announcedIds.Some? then announcedIds.value else [];
      if batchId !in announced {
        announcedIds := Some(announced + [batchId]);
      }
      if batches[at].items == [] && batches[at].nextProofHeight.None? {
        batches := batches[..at] + batches[at + 1..];
      }
      r := Ok(());
    }

    // ----- retiring items at a tip --------------------------------------------------------------

    /** The inner loop of a sweep: each hit retires its item and adds its receipt. */
    static method SweepItems(b: Batch, sweep: Sweep, date: int) returns (items: seq<Item>, added: seq<Receipt>, hitAny: bool)
      ensures items == SweptItems(sweep, b.items)
      ensures added == SweepReceipts(sweep, b, b.items, date)
      ensures hitAny <==> exists k :: 0 <= k < |b.items| && sweep.Hits(b.items[k])
    {
      items, added, hitAny := b.items, [], false;
      var j := 0;
      assert b.items[..0] == [];
      while j < |b.items|
        invariant j <= |b.items|
        invariant items == SweptItems(sweep, b.items[..j]) + b.items[j..]
        invariant added == SweepReceipts(sweep, b, b.items[..j], date)
        invariant hitAny <==> added != []
      {
        SweepReceiptsStep(sweep, b, b.items, j, date);
        SweptItemsStep(sweep, b.items, j);
        OneMore(SweptItems(sweep, b.items[..j]), b.items, j, sweep.Retired(b.items[j]));
        if sweep.Hits(items[j]) {
          hitAny := true;
          added := added + [MakeReceipt(b, items[j], sweep.Outcome(), sweep.tip, None, sweep.Message(), [], date)];
          items := items[j := items[j].(status := sweep.Status())];
        }
        j := j + 1;
      }
      assert b.items[..j] == b.items && b.items[j..] == [];
      ReceiptsTellHits(sweep, b, b.items, date);
    }

    /** A batch that loses an item is disarmed, and its proof is not watched any more. */
    static method SweepOne(b: Batch, sweep: Sweep, date: int) returns (after: Batch, added: seq<Receipt>)
      ensures after == SweptBatch(sweep, b)
      ensures added == SweepReceipts(sweep, b, b.items, date)
    {
      var items, receipts, hitAny := SweepItems(b, sweep, date);
      after, added := b.(items := items), receipts;
      if hitAny {
        after := after.(armedAt := None, nextProofHeight := None);
      }
    }

    /** The outer loop of a sweep. */
    static method SweepList(sweep: Sweep, endpoint: string, batches: seq<Batch>, date: int) returns (after: seq<Batch>, added: seq<Receipt>)
      ensures (after, added) == SweepBatches(sweep, endpoint, batches, date)
    {
      after, added := batches, [];
      var i := 0;
      assert batches[..0] == [];
      while i < |batches|
        invariant i <= |batches|
        invariant after == SweepBatches(sweep, endpoint, batches[..i], date).0 + batches[i..]
        invariant added == SweepBatches(sweep, endpoint, batches[..i], date).1
      {
        SweepBatchesStep(sweep, endpoint, batches, i, date);
        OneMore(SweepBatches(sweep, endpoint, batches[..i], date).0, batches, i, SweptBatch(sweep, batches[i]));
        if after[i].url == endpoint {
          var b, receipts := SweepOne(after[i], sweep, date);
          after, added := after[i := b], added + receipts;
        }
        i := i + 1;
      }
      assert batches[..i] == batches;
      assert after == SweepBatches(sweep, endpoint, batches, date).0;
    }

    method Sweep(sweep: Sweep, endpoint: string, date: int)
      modifies this`batches, this`receipts
      ensures View() == SweepAll(old(View()), sweep, endpoint, date)
    {
      var after, added := SweepList(sweep, endpoint, batches, date);
      batches, receipts := after, receipts + added;
    }

    method ExpireItems(tip: U64, endpoint: string, date: int)
      modifies this`batches, this`receipts
      ensures View() == OutboxModel.ExpireItems(old(View()), tip, endpoint, date)
    {
      Sweep(ExpirySweep(tip), endpoint, date);
    }

    method MarkDueItemsNeedingResign(tip: U64, endpoint: string, date: int)
      modifies this`batches, this`receipts
      ensures View() == OutboxModel.MarkDueItemsNeedingResign(old(View()), tip, endpoint, date)
    {
      var canonical := CanonicalExpiry(tip);
      if canonical.None? { return; }
      Sweep(ResignSweep(tip, canonical.value), endpoint, date);
    }

    // ----- one submission -----------------------------------------------------------------------

    method BeginSubmission(itemId: string, attemptId: string, date: int) returns (r: Result<(), OutboxError>)
      modifies this`batches
      ensures Agrees(r, OutboxModel.BeginSubmission(old(View()), itemId, attemptId, date))
    {
      var at := LocateWith(itemId, Armed);
      if at.Err? { return Err(at.error); }
      SetItem(at.value, ItemAt(View(), at.value).(status := Submitting, attemptId := Some(attemptId), attemptStartedAt := Some(date)));
      r := Ok(());
    }

    method RecordUncertain(itemId: string, error: string, date: int) returns (r: Result<(), OutboxError>)
      modifies this`batches
      ensures Agrees(r, OutboxModel.RecordUncertain(old(View()), itemId, error, date))
    {
      var at := LocateWith(itemId, Submitting);
      if at.Err? { return Err(at.error); }
      SetItem(at.value, Uncertain(ItemAt(View(), at.value), error, date));
      r := Ok(());
    }

    method RecordCancelled(itemId: string, error: string) returns (r: Result<(), OutboxError>)
      modifies this`batches
      ensures Agrees(r, OutboxModel.RecordCancelled(old(View()), itemId, error))
    {
      var at := LocateWith(itemId, Submitting);
      if at.Err? { return Err(at.error); }
      SetItem(at.value, ItemAt(View(), at.value).(
        status := Armed, nextAttemptAt := None, lastError := Some(error), attemptId := None, attemptStartedAt := None));
      r := Ok(());
    }

    method ValidateRescheduling(itemId: string, tip: U64) returns (r: Result<(), OutboxError>)
      ensures r == OutboxModel.ValidateRescheduling(View(), itemId, tip)
    {
      var at := FindItem(itemId);
      if at.None? { return Err(ItemNotFound); }
      var expiries := SortHeights(OverdueExpiries(batches[at.value.0].items, itemId, tip));
      var next: U64 := tip;
      var k := 0;
      while k < |expiries|
        invariant k <= |expiries|
        invariant RoomFor(expiries, 0, tip) == RoomFor(expiries, k, next)
      {
        if next + 1 > U64_MAX || next + 1 >= expiries[k] { return Err(InvalidSchedule); }
        next := next + 1;
        k := k + 1;
      }
      r := Ok(());
    }

    /** One turn: the peer at `index` gets a height, unless there is no room for it and those behind it. */
    static method RescheduleTurn(sha: Data -> string, state: Rescheduled, index: nat, remaining: nat, tip: U64, max: U64, raw: nat)
      returns (r: Result<Rescheduled, OutboxError>)
      requires index < |state.items|
      ensures r == RescheduleOne(sha, state, index, remaining, tip, max, raw)
    {
      var it := state.items[index];
      if it.expiryHeight <= remaining + 1 { return Err(InvalidSchedule); }
      var latest := it.expiryHeight - remaining - 1;
      var current := SaturatingAdd(tip, state.elapsed);
      if latest <= current { return Err(InvalidSchedule); }
      var elapsed := SaturatingAdd(state.elapsed, SampleDelay(raw, Min(max, latest - current)));
      var scheduled := SaturatingAdd(tip, elapsed);
      r := Ok(Rescheduled(state.items[index := ReplacingSchedule(sha, it, scheduled, tip)], elapsed,
                          state.updates + [ScheduleUpdate(it.itemId, scheduled, tip)]));
    }

    /** The loop over the overdue peers, in processing order. */
    static method RescheduleList(sha: Data -> string, items: seq<Item>, order: seq<nat>, tip: U64, max: U64, random: Random)
      returns (r: Result<Rescheduled, OutboxError>)
      requires InRange(order, |items|)
      ensures r == RescheduleFrom(sha, Rescheduled(items, 0, []), order, 0, tip, max, random)
    {
      var state := Rescheduled(items, 0, []);
      var k := 0;
      while k < |order|
        invariant k <= |order| && |state.items| == |items|
        invariant RescheduleFrom(sha, Rescheduled(items, 0, []), order, 0, tip, max, random)
               == RescheduleFrom(sha, state, order, k, tip, max, random)
      {
        var turn := RescheduleTurn(sha, state, order[k], |order| - k - 1, tip, max, random.draw(k));
        if turn.Err? { return turn; }
        state := turn.value;
        k := k + 1;
      }
      r := Ok(state);
    }

    /** Draws a new height for every overdue peer of one batch. */
    method RescheduleOverdue(at: nat, excluding: string, tip: U64, random: Random) returns (r: Result<seq<ScheduleUpdate>, OutboxError>)
      requires at < |batches|
      modifies this`batches
      ensures match OutboxModel.RescheduleOverdue(sha, old(batches)[at], excluding, tip, random)
        case Ok(done) => r == Ok(done.updates) && batches == old(batches)[at := old(batches)[at].(items := done.items)]
        case Err(e) => r == Err(e)
    {
      var b := batches[at];
      if !(0 < b.timingMean <= b.timingMax) { return Err(InvalidSchedule); }
      var order := ProcessingOrder(b.items, excluding, tip, random);
      var done := RescheduleList(sha, b.items, order, tip, b.timingMax, random);
      if done.Err? { return Err(done.error); }
      batches := batches[at := b.(items := done.value.items)];
      r := Ok(done.value.updates);
    }

    method AcceptAndReschedule(at: (nat, nat), itemId: string, tip: U64, random: Random) returns (r: Result<seq<ScheduleUpdate>, OutboxError>)
      requires at.0 < |batches| && at.1 < |batches[at.0].items|
      modifies this`batches
      ensures match OutboxModel.RescheduleOverdue(sha, AcceptedIn(old(batches)[at.0], at.1), itemId, tip, random)
        case Ok(done) => r == Ok(done.updates) && batches == old(batches)[at.0 := AcceptedIn(old(batches)[at.0], at.1).(items := done.items)]
        case Err(e) => r == Err(e)
    {
      SetItem(at, ItemAt(View(), at).(status := Accepted, attemptId := None, attemptStartedAt := None, nextAttemptAt := None));
      r := RescheduleOverdue(at.0, itemId, tip, random);
    }

    method RecordAccepted(itemId: string, equivalent: bool, tip: U64, code: int, message: string, date: int, random: Random)
      returns (r: Result<(), OutboxError>)
      modifies this`batches, this`receipts
      ensures Agrees(r, OutboxModel.RecordAccepted(sha, old(View()), itemId, equivalent, tip, code, message, date, random))
    {
      var found := LocateWith(itemId, Submitting);
      if found.Err? { return Err(found.error); }
      var at := found.value;
      var updates := AcceptAndReschedule(at, itemId, tip, random);
      if updates.Err? { return Err(updates.error); }
      var b := batches[at.0];
      receipts := receipts + [MakeReceipt(b, b.items[at.1], if equivalent then AcceptedEquivalentOutcome else AcceptedOutcome,
                                          tip, Some(code), Some(message), updates.value, date)];
      r := Ok(());
    }

    method RecordRejected(itemId: string, tip: U64, code: int, message: string, date: int) returns (r: Result<(), OutboxError>)
      modifies this`batches, this`receipts
      ensures Agrees(r, OutboxModel.RecordRejected(old(View()), itemId, tip, code, message, date))
    {
      var found := LocateWith(itemId, Submitting);
      if found.Err? { return Err(found.error); }
      var at := found.value;
      SetItem(at, ItemAt(View(), at).(status := Rejected, attemptId := None, attemptStartedAt := None, nextAttemptAt := None));
      SetBatch(at.0, batches[at.0].(armedAt := None, nextProofHeight := None));
      var b := batches[at.0];
      receipts := receipts + [MakeReceipt(b, b.items[at.1], RejectedOutcome, tip, Some(code), Some(message), [], date)];
      r := Ok(());
    }

    // ----- removal ------------------------------------------------------------------------------

    /** Drops the acknowledged receipts and the batches that a terminal one settles; what is left awaits `RemoveItems`. */
    method DropSettled(ids: set<ReceiptId>) returns (itemIds: set<string>)
      modifies this`batches, this`receipts
      ensures batches == KeepBatches(old(batches), (b: Batch) => !Settled(old(receipts), ids, b.batchId))
      ensures receipts == KeepReceipts(old(receipts), (r: Receipt) => r.Id() !in ids)
      ensures forall id :: id in itemIds <==> AcknowledgedItem(old(receipts), ids, id)
    {
      var acknowledged := KeepReceipts(receipts, (r: Receipt) => r.Id() in ids);
      itemIds := set r | r in acknowledged :: r.itemId;
      var terminalIds := set r | r in acknowledged && Terminal(r.outcome) :: r.batchId;
      receipts := KeepReceipts(receipts, (r: Receipt) => r.Id() !in ids);
      var left := set r | r in receipts :: r.batchId;
      var removable := set id | id in terminalIds && id !in left;
      assert forall id :: id in removable <==> Settled(old(receipts), ids, id);
      KeptBatchesAgree(batches, (b: Batch) => b.batchId !in removable, (b: Batch) => !Settled(old(receipts), ids, b.batchId));
      batches := KeepBatches(batches, (b: Batch) => b.batchId !in removable);
    }

    method RemoveItems(itemIds: set<string>)
      modifies this`batches
      ensures |batches| == |old(batches)|
      ensures forall k :: 0 <= k < |batches| ==>
        batches[k] == old(batches)[k].(items := KeepItems(old(batches)[k].items, (it: Item) => it.itemId !in itemIds))
    {
      var i := 0;
      while i < |batches|
        invariant i <= |batches| == |old(batches)|
        invariant forall k :: 0 <= k < |batches| ==>
          batches[k] == if k < i then old(batches)[k].(items := KeepItems(old(batches)[k].items, (it: Item) => it.itemId !in itemIds))
                        else old(batches)[k]
      {
        batches := batches[i := batches[i].(items := KeepItems(batches[i].items, (it: Item) => it.itemId !in itemIds))];
        i := i + 1;
      }
    }

    /** Removing the acknowledged item ids is what the specification does to every batch. */
    static lemma RemovedAsSpecified(unsettled: seq<Batch>, now: seq<Batch>, itemIds: set<string>, receipts: seq<Receipt>, ids: set<ReceiptId>)
      requires |now| == |unsettled| && forall id :: id in itemIds <==> AcknowledgedItem(receipts, ids, id)
      requires forall k :: 0 <= k < |now| ==>
        now[k] == unsettled[k].(items := KeepItems(unsettled[k].items, (it: Item) => it.itemId !in itemIds))
      ensures now == MapBatches(unsettled, (b: Batch) =>
        b.(items := KeepItems(b.items, (it: Item) => !AcknowledgedItem(receipts, ids, it.itemId))))
    {
      forall k | 0 <= k < |now|
        ensures now[k].items == KeepItems(unsettled[k].items, (it: Item) => !AcknowledgedItem(receipts, ids, it.itemId))
      {
        KeptItemsAgree(unsettled[k].items, (it: Item) => it.itemId !in itemIds, (it: Item) => !AcknowledgedItem(receipts, ids, it.itemId));
      }
    }

    method AcknowledgeReceipts(ids: set<ReceiptId>)
      modifies this`batches, this`receipts
      ensures View() == OutboxModel.AcknowledgeReceipts(old(View()), ids)
    {
      var itemIds := DropSettled(ids);
      ghost var unsettled := batches;
      RemoveItems(itemIds);
      RemovedAsSpecified(unsettled, batches, itemIds, old(receipts), ids);
      batches := KeepBatches(batches, (b: Batch) => !Spent(b));
    }

    method DiscardBatch(batchId: string) returns (r: Result<bool, OutboxError>)
      modifies this`batches
      ensures match OutboxModel.DiscardBatch(old(View()), batchId)
        case Ok(done) => r == Ok(done.1) && View() == done.0
        case Err(e) => r == Err(e)
    {
      var at := FindBatch(batchId);
      if at == |batches| { return Ok(false); }
      if (exists it :: it in batches[at].items && (it.status == Submitting || it.attemptCount > 0))
         || (exists x :: x in receipts && x.batchId == batchId) {
        return Err(ConflictingBatch);
      }
      batches := batches[..at] + batches[at + 1..];
      r := Ok(true);
    }

    /** Removes the account's batches and their receipts. */
    method DropAccount(network: string, accountUuid: string)
      modifies this`batches, this`receipts
      ensures batches == KeepBatches(old(batches), (b: Batch) => !InAccount(old(View()), network, accountUuid, b.batchId))
      ensures receipts == KeepReceipts(old(receipts), (r: Receipt) => !InAccount(old(View()), network, accountUuid, r.batchId))
    {
      var batchIds := set b | b in batches && b.network == network && b.accountUuid == accountUuid :: b.batchId;
      assert forall id :: id in batchIds <==> InAccount(old(View()), network, accountUuid, id);
      KeptBatchesAgree(batches, (b: Batch) => b.batchId !in batchIds, (b: Batch) => !InAccount(old(View()), network, accountUuid, b.batchId));
      KeptReceiptsAgree(receipts, (r: Receipt) => r.batchId !in batchIds, (r: Receipt) => !InAccount(old(View()), network, accountUuid, r.batchId));
      batches := KeepBatches(batches, (b: Batch) => b.batchId !in batchIds);
      receipts := KeepReceipts(receipts, (r: Receipt) => r.batchId !in batchIds);
    }

    method Revoke(network: string, accountUuid: string)
      modifies this
      ensures View() == OutboxModel.Revoke(old(View()), network, accountUuid)
    {
      DropAccount(network, accountUuid);
      if announcedIds.Some? {
        var kept := KeepIds(announcedIds.value, ScopePrefix(network, accountUuid));
        announcedIds := if kept == [] then None else Some(kept);
      }
      if lastAttemptedScopeKey == Some(network + ":" + accountUuid) {
        lastAttemptedScopeKey := None;
      }
    }
  }
}
