/** What each outcome of a submission and each reconciliation leaves behind, told without the mutations themselves. */
module OutboxEffects {
  import opened Common
  import opened OutboxModel
  import opened Counting
  import opened OutboxInvariant
  import opened OutboxSteps
  import opened OutboxSubmission
  import opened OutboxRemoval
  import opened OutboxUpdates
  import opened Rescheduling

  // ----- one batch changes ----------------------------------------------------------------------

  /** Only the batch at this position, and the receipts, differ. */
  ghost predicate OnlyBatch(s: Snapshot, t: Snapshot, i: nat)
    requires i < |s.batches|
  {
    && |t.batches| == |s.batches| && (forall k :: 0 <= k < |s.batches| && k != i ==> t.batches[k] == s.batches[k])
    && t.lastScope == s.lastScope && t.lastEndpoint == s.lastEndpoint && t.announced == s.announced
  }

  /** The receipt of one item: whose it is, what became of it, and what the server said. */
  ghost predicate Reports(r: Receipt, b: Batch, it: Item, outcome: Outcome, tip: U64, code: Option<int>, message: Option<string>, date: int) {
    && r.batchId == b.batchId && r.network == b.network && r.accountUuid == b.accountUuid && r.runId == b.runId
    && r.itemId == it.itemId && r.txid == it.txid
    && r.outcome == outcome && r.remoteHeight == tip && r.responseCode == code && r.responseMessage == message && r.recordedAt == date
  }

  // ----- an acceptance --------------------------------------------------------------------------

  /** The updates list the new heights of exactly the peers that were overdue, each once. */
  ghost predicate ListsPeers(updates: seq<ScheduleUpdate>, before: seq<Item>, after: seq<Item>, excluding: string, tip: U64)
    requires |after| == |before|
  {
    && (forall u :: u in updates ==> exists j :: 0 <= j < |before| && Overdue(before[j], excluding, tip) && IsUpdate(u, after[j], tip))
    && (forall j :: 0 <= j < |before| && Overdue(before[j], excluding, tip) ==> exists u :: u in updates && IsUpdate(u, after[j], tip))
    && (forall a, b :: 0 <= a < b < |updates| ==> updates[a].itemId != updates[b].itemId)
  }

  predicate IsUpdate(u: ScheduleUpdate, it: Item, tip: U64) {
    u.itemId == it.itemId && u.scheduledHeight == it.scheduledHeight && u.scheduleStartHeight == tip
  }

  lemma {:induction false} UpdatesAt(items: seq<Item>, order: seq<nat>, k: nat, tip: U64)
    requires k <= |order| && InRange(order, |items|)
    ensures |UpdatesFor(items, order, k, tip)| == |order| - k
    ensures forall m :: 0 <= m < |order| - k ==> IsUpdate(UpdatesFor(items, order, k, tip)[m], items[order[k + m]], tip)
    decreases |order| - k
  {
    if k < |order| {
      UpdatesAt(items, order, k + 1, tip);
      var rest := UpdatesFor(items, order, k + 1, tip);
      forall m | 0 <= m < |order| - k ensures IsUpdate(UpdatesFor(items, order, k, tip)[m], items[order[k + m]], tip) {
        if m > 0 {
          assert IsUpdate(rest[m - 1], items[order[k + 1 + (m - 1)]], tip);
        }
      }
    }
  }

  /** The order holds the position of each overdue peer once, and no other. */
  ghost predicate Enumerates(order: seq<nat>, items: seq<Item>, excluding: string, tip: U64) {
    && InRange(order, |items|) && Distinct(order)
    && forall j: nat :: j in order <==> j < |items| && Overdue(items[j], excluding, tip)
  }

  lemma ListedAreOverdue(before: seq<Item>, after: seq<Item>, order: seq<nat>, excluding: string, tip: U64, m: nat)
    requires |after| == |before| && Enumerates(order, before, excluding, tip) && m < |UpdatesFor(after, order, 0, tip)|
    ensures |UpdatesFor(after, order, 0, tip)| == |order|
    ensures Overdue(before[order[m]], excluding, tip) && IsUpdate(UpdatesFor(after, order, 0, tip)[m], after[order[m]], tip)
  {
    UpdatesAt(after, order, 0, tip);
    assert order[m] in order && IsUpdate(UpdatesFor(after, order, 0, tip)[m], after[order[0 + m]], tip);
  }

  lemma OverdueIsListed(before: seq<Item>, after: seq<Item>, order: seq<nat>, excluding: string, tip: U64, j: nat) returns (m: nat)
    requires |after| == |before| && Enumerates(order, before, excluding, tip) && j < |before| && Overdue(before[j], excluding, tip)
    ensures m < |UpdatesFor(after, order, 0, tip)| && IsUpdate(UpdatesFor(after, order, 0, tip)[m], after[j], tip)
  {
    assert j in order;
    m :| 0 <= m < |order| && order[m] == j;
    UpdatesAt(after, order, 0, tip);
    assert IsUpdate(UpdatesFor(after, order, 0, tip)[m], after[order[0 + m]], tip);
  }

  lemma OrderListsPeers(before: seq<Item>, after: seq<Item>, order: seq<nat>, excluding: string, tip: U64, updates: seq<ScheduleUpdate>)
    requires |after| == |before| && Enumerates(order, before, excluding, tip) && updates == UpdatesFor(after, order, 0, tip)
    requires forall j :: 0 <= j < |before| ==> after[j].itemId == before[j].itemId
    requires forall i, j :: 0 <= i < j < |before| ==> before[i].itemId != before[j].itemId
    ensures ListsPeers(updates, before, after, excluding, tip)
  {
    forall u | u in updates
      ensures exists j :: 0 <= j < |before| && Overdue(before[j], excluding, tip) && IsUpdate(u, after[j], tip)
    {
      var m :| 0 <= m < |updates| && updates[m] == u;
      ListedAreOverdue(before, after, order, excluding, tip, m);
    }
    forall j | 0 <= j < |before| && Overdue(before[j], excluding, tip)
      ensures exists u :: u in updates && IsUpdate(u, after[j], tip)
    {
      var m := OverdueIsListed(before, after, order, excluding, tip, j);
      assert updates[m] in updates;
    }
    forall a, b | 0 <= a < b < |updates| ensures updates[a].itemId != updates[b].itemId {
      ListedOnce(before, after, order, excluding, tip, a, b);
    }
  }

  lemma ListedOnce(before: seq<Item>, after: seq<Item>, order: seq<nat>, excluding: string, tip: U64, a: nat, b: nat)
    requires |after| == |before| && Enumerates(order, before, excluding, tip) && a < b < |UpdatesFor(after, order, 0, tip)|
    requires forall j :: 0 <= j < |before| ==> after[j].itemId == before[j].itemId
    requires forall i, j :: 0 <= i < j < |before| ==> before[i].itemId != before[j].itemId
    ensures UpdatesFor(after, order, 0, tip)[a].itemId != UpdatesFor(after, order, 0, tip)[b].itemId
  {
    ListedAreOverdue(before, after, order, excluding, tip, a);
    ListedAreOverdue(before, after, order, excluding, tip, b);
    assert order[a] != order[b];
  }

  /** What an acceptance does to the items of its batch: the item is accepted, overdue peers move after the tip, the rest stay. */
  ghost predicate AcceptsItem(before: seq<Item>, after: seq<Item>, j: nat, tip: U64)
    requires j < |before|
  {
    && |after| == |before|
    && after[j] == before[j].(status := Accepted, attemptId := None, attemptStartedAt := None, nextAttemptAt := None)
    && forall k :: 0 <= k < |before| && k != j ==>
         && after[k] == before[k].(scheduledHeight := after[k].scheduledHeight, scheduleStartHeight := after[k].scheduleStartHeight)
         && if Overdue(before[k], before[j].itemId, tip) then tip < after[k].scheduledHeight < after[k].expiryHeight && after[k].scheduleStartHeight == tip
            else after[k] == before[k]
  }

  /**
   A recorded acceptance, in full. The submitted item is accepted and its overdue peers are given later
   heights; one receipt is added, which reports this item, this tip and this answer, tells an acceptance
   from one that was known already, and lists exactly the new heights; nothing else changes.
   */
  lemma AcceptanceIs(sha: Data -> string, s: Snapshot, itemId: string, equivalent: bool, tip: U64, code: int, message: string, date: int,
                     random: Random, t: Snapshot) returns (i: nat, j: nat)
    requires Inv(sha, s) && RecordAccepted(sha, s, itemId, equivalent, tip, code, message, date, random) == Ok(t)
    ensures i < |s.batches| && j < |s.batches[i].items| && s.batches[i].items[j].itemId == itemId && s.batches[i].items[j].status == Submitting
    ensures OnlyBatch(s, t, i) && t.batches[i] == s.batches[i].(items := t.batches[i].items)
    ensures AcceptsItem(s.batches[i].items, t.batches[i].items, j, tip)
    ensures |t.receipts| == |s.receipts| + 1 && s.receipts <= t.receipts
    ensures var r := t.receipts[|s.receipts|];
      && (exists outcome :: Reports(r, s.batches[i], s.batches[i].items[j], outcome, tip, Some(code), Some(message), date))
      && (r.outcome == AcceptedEquivalentOutcome <==> equivalent) && (r.outcome == AcceptedOutcome <==> !equivalent)
      && ListsPeers(r.scheduleUpdates, s.batches[i].items, t.batches[i].items, itemId, tip)
  {
    var at := Locate(s, itemId, Submitting).value;
    i, j := at.0, at.1;
    var b := AcceptedIn(s.batches[i], j);
    var done := RescheduleOverdue(sha, b, itemId, tip, random).value;
    assert BatchOk(sha, Announced(s), s.batches[i]);
    assert forall k :: 0 <= k < |b.items| ==> ItemOk(sha, b.items[k]);
    AcceptedBatch(sha, s.batches[i], j, tip, random, done);
    UniqueInBatch(s, i);
    AcceptedLists(sha, s.batches[i], j, tip, random, done);
    var r := t.receipts[|s.receipts|];
    assert Reports(r, s.batches[i], s.batches[i].items[j], r.outcome, tip, Some(code), Some(message), date);
  }

  lemma UniqueInBatch(s: Snapshot, i: nat)
    requires UniqueItems(s.batches) && i < |s.batches|
    ensures forall a, b :: 0 <= a < b < |s.batches[i].items| ==> s.batches[i].items[a].itemId != s.batches[i].items[b].itemId
  {
    forall a, b | 0 <= a < b < |s.batches[i].items| ensures s.batches[i].items[a].itemId != s.batches[i].items[b].itemId {
      if s.batches[i].items[a].itemId == s.batches[i].items[b].itemId {
        SamePosition(s.batches, i, a, i, b);
      }
    }
  }

  lemma AcceptedBatch(sha: Data -> string, before: Batch, j: nat, tip: U64, random: Random, done: Rescheduled)
    requires j < |before.items| && (forall k :: 0 <= k < |before.items| ==> ItemOk(sha, AcceptedIn(before, j).items[k]))
    requires RescheduleOverdue(sha, AcceptedIn(before, j), before.items[j].itemId, tip, random) == Ok(done)
    ensures AcceptsItem(before.items, done.items, j, tip)
  {
    var b := AcceptedIn(before, j);
    RescheduledPeers(sha, b, before.items[j].itemId, tip, random);
    assert !Overdue(b.items[j], before.items[j].itemId, tip);
  }

  lemma AcceptedLists(sha: Data -> string, before: Batch, j: nat, tip: U64, random: Random, done: Rescheduled)
    requires j < |before.items| && AcceptsItem(before.items, done.items, j, tip)
    requires forall a, b :: 0 <= a < b < |before.items| ==> before.items[a].itemId != before.items[b].itemId
    requires RescheduleOverdue(sha, AcceptedIn(before, j), before.items[j].itemId, tip, random) == Ok(done)
    ensures ListsPeers(done.updates, before.items, done.items, before.items[j].itemId, tip)
  {
    var b, id := AcceptedIn(before, j), before.items[j].itemId;
    var order := ProcessingOrder(b.items, id, tip, random);
    RescheduleExact(sha, b, id, tip, random);
    OrderIsComplete(b.items, id, tip, random);
    AcceptedOverdue(before, j, tip);
    OrderEnumerates(before.items, b.items, order, id, tip);
    AcceptedKeepsIds(before.items, done.items, j, tip);
    OrderListsPeers(before.items, done.items, order, id, tip, done.updates);
  }

  lemma AcceptedOverdue(before: Batch, j: nat, tip: U64)
    requires j < |before.items|
    ensures var b, id := AcceptedIn(before, j), before.items[j].itemId;
      |b.items| == |before.items|
      && forall k :: 0 <= k < |b.items| ==> (Overdue(b.items[k], id, tip) <==> Overdue(before.items[k], id, tip))
  {
  }

  lemma AcceptedKeepsIds(before: seq<Item>, after: seq<Item>, j: nat, tip: U64)
    requires j < |before| && AcceptsItem(before, after, j, tip)
    ensures forall k :: 0 <= k < |before| ==> after[k].itemId == before[k].itemId
  {
  }

  lemma OrderEnumerates(before: seq<Item>, items: seq<Item>, order: seq<nat>, excluding: string, tip: U64)
    requires |items| == |before| && InRange(order, |items|) && Distinct(order)
    requires forall k :: 0 <= k < |items| ==> (Overdue(items[k], excluding, tip) <==> Overdue(before[k], excluding, tip))
    requires forall j :: 0 <= j < |order| ==> Overdue(items[order[j]], excluding, tip)
    requires forall k :: 0 <= k < |items| && Overdue(items[k], excluding, tip) ==> k in order
    ensures Enumerates(order, before, excluding, tip)
  {
    forall k: nat ensures k in order <==> k < |before| && Overdue(before[k], excluding, tip) {
      if k in order {
        var m :| 0 <= m < |order| && order[m] == k;
        assert Overdue(items[order[m]], excluding, tip);
      }
    }
  }

  // ----- a rejection ----------------------------------------------------------------------------

  /**
   A recorded rejection, in full. The submitted item is rejected and its batch is disarmed and watches no
   proof any more; one receipt reports the item, the tip and the answer; nothing else changes.
   */
  lemma RejectionIs(s: Snapshot, itemId: string, tip: U64, code: int, message: string, date: int, t: Snapshot) returns (i: nat, j: nat)
    requires RecordRejected(s, itemId, tip, code, message, date) == Ok(t)
    ensures i < |s.batches| && j < |s.batches[i].items| && s.batches[i].items[j].itemId == itemId && s.batches[i].items[j].status == Submitting
    ensures OnlyBatch(s, t, i) && t.batches[i] == s.batches[i].(armedAt := None, nextProofHeight := None, items := t.batches[i].items)
    ensures |t.batches[i].items| == |s.batches[i].items|
    ensures t.batches[i].items[j] == s.batches[i].items[j].(status := Rejected, attemptId := None, attemptStartedAt := None, nextAttemptAt := None)
    ensures forall k :: 0 <= k < |s.batches[i].items| && k != j ==> t.batches[i].items[k] == s.batches[i].items[k]
    ensures |t.receipts| == |s.receipts| + 1 && s.receipts <= t.receipts
    ensures Reports(t.receipts[|s.receipts|], s.batches[i], s.batches[i].items[j], RejectedOutcome, tip, Some(code), Some(message), date)
    ensures t.receipts[|s.receipts|].scheduleUpdates == []
  {
    var at := Locate(s, itemId, Submitting).value;
    i, j := at.0, at.1;
  }

  /** After a rejection nothing of the batch is sent and its endpoint is not inspected on its account, at any tip, until it is armed again. */
  lemma RejectedBatchIsSilent(s: Snapshot, itemId: string, tip: U64, code: int, message: string, date: int, t: Snapshot, later: U64, at: int)
    requires RecordRejected(s, itemId, tip, code, message, date) == Ok(t)
    ensures exists i :: 0 <= i < |t.batches| && ItemIndex(t.batches[i].items, itemId) < |t.batches[i].items|
              && !Inspectable(t.batches[i]) && forall endpoint :: !DueBatch(t.batches[i], later, endpoint, at)
  {
    var i, j := RejectionIs(s, itemId, tip, code, message, date, t);
    assert ItemIndex(t.batches[i].items, itemId) <= j;
    assert !Inspectable(t.batches[i]);
  }

  // ----- an unknown outcome ----------------------------------------------------------------------

  /** Seconds until the next attempt, after this many. */
  predicate RetriesAfter(attempts: nat, delay: nat) {
    && (attempts <= 1 ==> delay == 60) && (attempts == 2 ==> delay == 300) && (attempts == 3 ==> delay == 900) && (attempts >= 4 ==> delay == 3600)
  }

  /** The submission ended without an answer: the item is armed again, the attempt is counted, and the next one waits. */
  ghost predicate ArmedAgain(it: Item, after: Item, error: string, date: int) {
    && after == it.(status := Armed, attemptCount := it.attemptCount + 1, nextAttemptAt := after.nextAttemptAt, lastError := Some(error),
                    attemptId := None, attemptStartedAt := None)
    && after.nextAttemptAt.Some? && after.nextAttemptAt.value >= date
    && RetriesAfter(it.attemptCount + 1, after.nextAttemptAt.value - date)
  }

  lemma UnknownOutcomeIs(s: Snapshot, itemId: string, error: string, date: int, t: Snapshot) returns (i: nat, j: nat)
    requires RecordUncertain(s, itemId, error, date) == Ok(t)
    ensures i < |s.batches| && j < |s.batches[i].items| && s.batches[i].items[j].itemId == itemId && s.batches[i].items[j].status == Submitting
    ensures OnlyBatch(s, t, i) && t.receipts == s.receipts && t.batches[i] == s.batches[i].(items := t.batches[i].items)
    ensures |t.batches[i].items| == |s.batches[i].items| && ArmedAgain(s.batches[i].items[j], t.batches[i].items[j], error, date)
    ensures forall k :: 0 <= k < |s.batches[i].items| && k != j ==> t.batches[i].items[k] == s.batches[i].items[k]
  {
    var at := Locate(s, itemId, Submitting).value;
    i, j := at.0, at.1;
  }

  /** The recovery does the same to every submission that was interrupted, and nothing else. */
  lemma RecoveryIs(s: Snapshot, date: int)
    ensures var t := RecoverInterrupted(s, date);
      && t == s.(batches := t.batches) && |t.batches| == |s.batches|
      && forall i :: 0 <= i < |s.batches| ==>
           && t.batches[i] == s.batches[i].(items := t.batches[i].items) && |t.batches[i].items| == |s.batches[i].items|
           && forall j :: 0 <= j < |s.batches[i].items| ==>
                if s.batches[i].items[j].status == Submitting
                then ArmedAgain(s.batches[i].items[j], t.batches[i].items[j], UNKNOWN_OUTCOME, date)
                else t.batches[i].items[j] == s.batches[i].items[j]
  {
  }

  /** An item armed again is not due before its delay is over, and from then on it is, while its window lasts. */
  lemma RetryWaits(it: Item, after: Item, error: string, date: int, tip: U64, at: int)
    requires ArmedAgain(it, after, error, date)
    ensures at < date + 60 ==> !Due(after, tip, at)
    ensures at >= date + 3600 && it.scheduledHeight <= tip < it.expiryHeight ==> Due(after, tip, at)
    ensures Due(after, tip, at) <==> after.nextAttemptAt.value <= at && it.scheduledHeight <= tip < it.expiryHeight
  {
  }

  // ----- a cancellation before the send ------------------------------------------------------------

  /** A submission begun and cancelled before its send leaves the item as it was, but for the error: it can be sent at once, and no attempt is counted. */
  lemma BegunAndCancelled(sha: Data -> string, s: Snapshot, itemId: string, attemptId: string, date: int, error: string, t: Snapshot, u: Snapshot)
    returns (i: nat, j: nat)
    requires Inv(sha, s) && BeginSubmission(s, itemId, attemptId, date) == Ok(t) && RecordCancelled(t, itemId, error) == Ok(u)
    ensures i < |s.batches| && j < |s.batches[i].items| && s.batches[i].items[j].itemId == itemId && s.batches[i].items[j].status == Armed
    ensures OnlyBatch(s, u, i) && u.receipts == s.receipts && u.batches[i] == s.batches[i].(items := u.batches[i].items)
    ensures |u.batches[i].items| == |s.batches[i].items|
    ensures u.batches[i].items[j] == s.batches[i].items[j].(nextAttemptAt := None, lastError := Some(error))
    ensures forall k :: 0 <= k < |s.batches[i].items| && k != j ==> u.batches[i].items[k] == s.batches[i].items[k]
  {
    var at := Locate(s, itemId, Armed).value;
    i, j := at.0, at.1;
    BeginKeeps(sha, s, itemId, attemptId, date);
    LocationFinds(t.batches, i, j);
    assert BatchOk(sha, Announced(s), s.batches[i]);
    assert ItemOk(sha, s.batches[i].items[j]);
  }

  /** A submission that begins marks its one item with the attempt, and changes nothing else. */
  lemma BeginningIs(s: Snapshot, itemId: string, attemptId: string, date: int, t: Snapshot) returns (i: nat, j: nat)
    requires BeginSubmission(s, itemId, attemptId, date) == Ok(t)
    ensures i < |s.batches| && j < |s.batches[i].items| && s.batches[i].items[j].itemId == itemId && s.batches[i].items[j].status == Armed
    ensures OnlyBatch(s, t, i) && t.receipts == s.receipts && t.batches[i] == s.batches[i].(items := t.batches[i].items)
    ensures |t.batches[i].items| == |s.batches[i].items|
    ensures t.batches[i].items[j]
         == s.batches[i].items[j].(status := Submitting, attemptId := Some(attemptId), attemptStartedAt := Some(date))
    ensures forall k :: 0 <= k < |s.batches[i].items| && k != j ==> t.batches[i].items[k] == s.batches[i].items[k]
  {
    var at := Locate(s, itemId, Armed).value;
    i, j := at.0, at.1;
  }

  // ----- what a run reports ------------------------------------------------------------------------

  /** The item that was selected, submitted in the batch that was selected. */
  ghost predicate InFlight(s: Snapshot, sel: Selection) {
    && Locate(s, sel.item.itemId, Submitting).Ok?
    && var at := Locate(s, sel.item.itemId, Submitting).value;
       var b := s.batches[at.0];
       && b.batchId == sel.batchId && b.accountUuid == sel.accountUuid && b.url == sel.url
       && b.items[at.1].txid == sel.item.txid && b.items[at.1].raw == sel.item.raw
  }

  /** The newest receipt is about the selected item. */
  ghost predicate ReportedLast(s: Snapshot, sel: Selection, outcome: Outcome, tip: U64, code: int, message: string, date: int) {
    && s.receipts != []
    && var r := s.receipts[|s.receipts| - 1];
       && r.batchId == sel.batchId && r.accountUuid == sel.accountUuid && r.itemId == sel.item.itemId && r.txid == sel.item.txid
       && r.outcome == outcome && r.remoteHeight == tip && r.responseCode == Some(code) && r.responseMessage == Some(message) && r.recordedAt == date
  }

  lemma AcceptanceReports(sha: Data -> string, s: Snapshot, u: Update, t: Snapshot, sel: Selection)
    requires Inv(sha, s) && u.AcceptedUpdate? && AcceptAndAnnounce(sha, s, u) == Ok(t) && u.itemId == sel.item.itemId && InFlight(s, sel)
    ensures ReportedLast(t, sel, if u.equivalent then AcceptedEquivalentOutcome else AcceptedOutcome, u.tip, u.code, u.message, u.date)
  {
    var a := RecordAccepted(sha, s, u.itemId, u.equivalent, u.tip, u.code, u.message, u.date, u.random).value;
    var i, j := AcceptanceIs(sha, s, u.itemId, u.equivalent, u.tip, u.code, u.message, u.date, u.random, a);
    LocationFinds(s.batches, i, j);
    assert t.receipts == a.receipts;
  }

  lemma RejectionReports(sha: Data -> string, s: Snapshot, tip: U64, code: int, message: string, date: int, t: Snapshot, sel: Selection)
    requires Inv(sha, s) && RecordRejected(s, sel.item.itemId, tip, code, message, date) == Ok(t) && InFlight(s, sel)
    ensures ReportedLast(t, sel, RejectedOutcome, tip, code, message, date)
  {
    var i, j := RejectionIs(s, sel.item.itemId, tip, code, message, date, t);
    LocationFinds(s.batches, i, j);
  }

  // ----- an acknowledgement ------------------------------------------------------------------------

  /** Some receipt of this batch is acknowledged. */
  ghost predicate SomeAcknowledged(s: Snapshot, ids: set<ReceiptId>, batchId: string, outcomes: set<Outcome>) {
    exists r :: r in s.receipts && r.batchId == batchId && r.Id() in ids && r.outcome in outcomes
  }

  const FINAL: set<Outcome> := {RejectedOutcome, ExpiredOutcome, NeedsResignOutcome}

  /** A receipt that names the item is acknowledged. */
  ghost predicate Reconciles(s: Snapshot, ids: set<ReceiptId>, it: Item) {
    exists r :: r in s.receipts && r.itemId == it.itemId && r.Id() in ids
  }

  /**
   A batch goes when one of its items was rejected, expired or needs to be signed again, that is
   acknowledged, and every receipt of the batch is; or when every item it has left is reconciled, it
   watches no proof, and its "transfers sent" is not waiting to be delivered.
   */
  ghost predicate Goes(s: Snapshot, ids: set<ReceiptId>, b: Batch) {
    || (SomeAcknowledged(s, ids, b.batchId, FINAL) && forall r :: r in s.receipts && r.batchId == b.batchId ==> r.Id() in ids)
    || ((forall it :: it in b.items ==> Reconciles(s, ids, it)) && b.nextProofHeight.None? && b.completePendingAt.None?)
  }

  /** The batch is the old one without the items that are reconciled. */
  ghost predicate LeftOf(s: Snapshot, ids: set<ReceiptId>, b: Batch, c: Batch) {
    && c == b.(items := c.items)
    && (forall it :: it in c.items <==> it in b.items && !Reconciles(s, ids, it))
    && ItemsInOrder(c.items, b.items)
  }

  ghost predicate ItemsInOrder(part: seq<Item>, whole: seq<Item>) {
    forall p, q :: 0 <= p < q < |part| ==> Earlier(whole, part[p], part[q])
  }

  ghost predicate Earlier(whole: seq<Item>, x: Item, y: Item) {
    exists a, b :: 0 <= a < b < |whole| && whole[a] == x && whole[b] == y
  }

  lemma {:induction false} KeptInOrder(items: seq<Item>, keep: Item -> bool)
    ensures ItemsInOrder(KeepItems(items, keep), items)
  {
    if items != [] {
      var front, last := items[..|items| - 1], items[|items| - 1];
      KeptInOrder(front, keep);
      if keep(last) {
        OrderExtends(KeepItems(front, keep), front, last);
        assert items == front + [last];
      } else {
        assert KeepItems(items, keep) == KeepItems(front, keep);
        OrderSkips(KeepItems(front, keep), front, last);
        assert items == front + [last];
      }
    }
  }

  lemma EarlierStays(whole: seq<Item>, last: Item, x: Item, y: Item)
    requires Earlier(whole, x, y)
    ensures Earlier(whole + [last], x, y)
  {
    var a, b :| 0 <= a < b < |whole| && whole[a] == x && whole[b] == y;
    var all := whole + [last];
    assert all[a] == x && all[b] == y;
  }

  lemma OrderSkips(part: seq<Item>, whole: seq<Item>, last: Item)
    requires ItemsInOrder(part, whole)
    ensures ItemsInOrder(part, whole + [last])
  {
    forall p, q | 0 <= p < q < |part| ensures Earlier(whole + [last], part[p], part[q]) {
      EarlierStays(whole, last, part[p], part[q]);
    }
  }

  lemma OrderExtends(part: seq<Item>, whole: seq<Item>, last: Item)
    requires ItemsInOrder(part, whole) && forall it :: it in part ==> it in whole
    ensures ItemsInOrder(part + [last], whole + [last])
  {
    var more, all := part + [last], whole + [last];
    forall p, q | 0 <= p < q < |more| ensures Earlier(all, more[p], more[q]) {
      if q == |part| {
        assert part[p] in whole;
        var a :| 0 <= a < |whole| && whole[a] == part[p];
        assert all[a] == more[p] && all[|whole|] == more[q];
      } else {
        EarlierStays(whole, last, part[p], part[q]);
      }
    }
  }

  lemma ReconciledIsLeft(s: Snapshot, ids: set<ReceiptId>, b: Batch)
    ensures LeftOf(s, ids, b, Reconciled(s, ids, b))
    ensures Settled(s.receipts, ids, b.batchId) || Spent(Reconciled(s, ids, b)) <==> Goes(s, ids, b)
  {
    var c := Reconciled(s, ids, b);
    KeptInOrder(b.items, (it: Item) => !AcknowledgedItem(s.receipts, ids, it.itemId));
    forall it ensures Reconciles(s, ids, it) <==> AcknowledgedItem(s.receipts, ids, it.itemId) {
      if Reconciles(s, ids, it) {
        var r :| r in s.receipts && r.itemId == it.itemId && r.Id() in ids;
        assert r in s.receipts && r.Id() in ids && r.itemId == it.itemId;
      }
    }
    SettledIs(s, ids, b.batchId);
    if c.items == [] {
      forall it | it in b.items ensures Reconciles(s, ids, it) {
        assert it !in c.items;
      }
    } else {
      assert c.items[0] in c.items;
    }
  }

  lemma SettledIs(s: Snapshot, ids: set<ReceiptId>, batchId: string)
    ensures Settled(s.receipts, ids, batchId)
       <==> SomeAcknowledged(s, ids, batchId, FINAL) && forall r :: r in s.receipts && r.batchId == batchId ==> r.Id() in ids
  {
    forall o: Outcome ensures Terminal(o) <==> o in FINAL {}
  }

  /** What is stored under an id after an acknowledgement comes from the batch that had it, and did not go. */
  lemma AcknowledgedFrom(s: Snapshot, ids: set<ReceiptId>, k: nat) returns (i: nat)
    requires k < |AcknowledgeReceipts(s, ids).batches|
    ensures i < |s.batches| && !Goes(s, ids, s.batches[i]) && LeftOf(s, ids, s.batches[i], AcknowledgeReceipts(s, ids).batches[k])
  {
    var t := AcknowledgeReceipts(s, ids);
    AcknowledgeShape(s, ids);
    var all, unsettled := AllReconciled(s, ids), Unsettled(s, ids);
    assert t.batches[k] in t.batches && t.batches[k] in all;
    var m :| 0 <= m < |all| && all[m] == t.batches[k];
    i := UnsettledFrom(s, ids, m);
    ReconciledIsLeft(s, ids, s.batches[i]);
  }

  lemma UnsettledFrom(s: Snapshot, ids: set<ReceiptId>, m: nat) returns (i: nat)
    requires m < |Unsettled(s, ids)|
    ensures i < |s.batches| && s.batches[i] == Unsettled(s, ids)[m] && !Settled(s.receipts, ids, s.batches[i].batchId)
  {
    var b := Unsettled(s, ids)[m];
    assert b in Unsettled(s, ids) && b in s.batches;
    i :| 0 <= i < |s.batches| && s.batches[i] == b;
  }

  /** A batch that does not go is stored afterwards, without its reconciled items. */
  lemma AcknowledgedTo(s: Snapshot, ids: set<ReceiptId>, i: nat) returns (k: nat)
    requires i < |s.batches| && !Goes(s, ids, s.batches[i])
    ensures k < |AcknowledgeReceipts(s, ids).batches| && LeftOf(s, ids, s.batches[i], AcknowledgeReceipts(s, ids).batches[k])
  {
    var t := AcknowledgeReceipts(s, ids);
    AcknowledgeShape(s, ids);
    ReconciledIsLeft(s, ids, s.batches[i]);
    var all, unsettled := AllReconciled(s, ids), Unsettled(s, ids);
    assert s.batches[i] in s.batches && s.batches[i] in unsettled;
    var m :| 0 <= m < |unsettled| && unsettled[m] == s.batches[i];
    assert all[m] in all && all[m] in t.batches;
    k :| 0 <= k < |t.batches| && t.batches[k] == all[m];
  }

  /**
   An acknowledgement, in full. Exactly the acknowledged receipts are taken off the list; exactly the
   batches that go are removed; every other batch is stored as it was, without its reconciled items; and
   nothing else changes.
   */
  lemma AcknowledgementIs(s: Snapshot, ids: set<ReceiptId>)
    requires UniqueBatches(s.batches)
    ensures var t := AcknowledgeReceipts(s, ids);
      && t == s.(batches := t.batches, receipts := t.receipts)
      && (forall r :: r in t.receipts <==> r in s.receipts && r.Id() !in ids)
      && (forall i :: 0 <= i < |s.batches| ==>
            (Goes(s, ids, s.batches[i]) <==> forall k :: 0 <= k < |t.batches| ==> t.batches[k].batchId != s.batches[i].batchId))
      && (forall i, k :: 0 <= i < |s.batches| && 0 <= k < |t.batches| && t.batches[k].batchId == s.batches[i].batchId
            ==> LeftOf(s, ids, s.batches[i], t.batches[k]))
      && (forall k :: 0 <= k < |t.batches| ==> exists i :: 0 <= i < |s.batches| && t.batches[k].batchId == s.batches[i].batchId)
  {
    var t := AcknowledgeReceipts(s, ids);
    forall i | 0 <= i < |s.batches|
      ensures Goes(s, ids, s.batches[i]) <==> forall k :: 0 <= k < |t.batches| ==> t.batches[k].batchId != s.batches[i].batchId
    {
      if !Goes(s, ids, s.batches[i]) {
        var k := AcknowledgedTo(s, ids, i);
        assert t.batches[k].batchId == s.batches[i].batchId;
      }
      forall k | 0 <= k < |t.batches| && t.batches[k].batchId == s.batches[i].batchId ensures !Goes(s, ids, s.batches[i]) {
        var j := AcknowledgedFrom(s, ids, k);
        SameBatch(s, i, j);
      }
    }
    forall i, k | 0 <= i < |s.batches| && 0 <= k < |t.batches| && t.batches[k].batchId == s.batches[i].batchId
      ensures LeftOf(s, ids, s.batches[i], t.batches[k])
    {
      var j := AcknowledgedFrom(s, ids, k);
      SameBatch(s, i, j);
    }
    forall k | 0 <= k < |t.batches| ensures exists i :: 0 <= i < |s.batches| && t.batches[k].batchId == s.batches[i].batchId {
      var j := AcknowledgedFrom(s, ids, k);
    }
  }

  lemma SameBatch(s: Snapshot, i: nat, j: nat)
    requires UniqueBatches(s.batches) && i < |s.batches| && j < |s.batches| && s.batches[i].batchId == s.batches[j].batchId
    ensures i == j
  {
    BatchFinds(s.batches, i);
    BatchFinds(s.batches, j);
  }

  /**
   "Transfers sent" is not lost to an acknowledgement: while it waits to be delivered, and unless a
   rejected, expired or needs-resign receipt of the batch is acknowledged, the batch stays stored under its
   id with the announcement still pending, and the announcement can be acknowledged.
   */
  lemma PendingCompletionStays(sha: Data -> string, s: Snapshot, ids: set<ReceiptId>, i: nat, date: int) returns (k: nat)
    requires Inv(sha, s) && i < |s.batches| && s.batches[i].completePendingAt.Some?
    requires !SomeAcknowledged(s, ids, s.batches[i].batchId, FINAL)
    ensures var t := AcknowledgeReceipts(s, ids);
      && k < |t.batches| && t.batches[k].batchId == s.batches[i].batchId
      && t.batches[k].completePendingAt == s.batches[i].completePendingAt
      && AcknowledgeBroadcastComplete(t, s.batches[i].batchId, date).Ok?
  {
    k := AcknowledgedTo(s, ids, i);
    AcknowledgeKeeps(sha, s, ids);
    BatchFinds(AcknowledgeReceipts(s, ids).batches, k);
  }
}
