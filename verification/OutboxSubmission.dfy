/** The mutations of one submission: begin, uncertain, cancelled, rejected, accepted. */
module OutboxSubmission {
  import opened Common
  import opened OutboxModel
  import opened Counting
  import opened OutboxInvariant
  import opened OutboxSteps
  import opened Rescheduling

  lemma BeginKeeps(sha: Data -> string, s: Snapshot, itemId: string, attemptId: string, date: int)
    requires Inv(sha, s)
    ensures var r := BeginSubmission(s, itemId, attemptId, date); r.Ok? ==> Keeps(sha, s, r.value, Begins(itemId))
  {
    var at := Locate(s, itemId, Armed);
    if at.Ok? {
      assert BatchOk(sha, Announced(s), s.batches[at.value.0]);
      QuietItem(sha, s, at.value, ItemAt(s, at.value).(
        status := Submitting, attemptId := Some(attemptId), attemptStartedAt := Some(date)), Begins(itemId));
    }
  }

  lemma UncertainKeeps(sha: Data -> string, s: Snapshot, itemId: string, error: string, date: int)
    requires Inv(sha, s)
    ensures var r := RecordUncertain(s, itemId, error, date); r.Ok? ==> Keeps(sha, s, r.value, Nobody)
  {
    var at := Locate(s, itemId, Submitting);
    if at.Ok? {
      assert BatchOk(sha, Announced(s), s.batches[at.value.0]);
      QuietItem(sha, s, at.value, Uncertain(ItemAt(s, at.value), error, date), Nobody);
    }
  }

  /** The one mutation that takes an item off the record of possible broadcasts. */
  lemma CancelledKeeps(sha: Data -> string, s: Snapshot, itemId: string, error: string)
    requires Inv(sha, s)
    ensures var r := RecordCancelled(s, itemId, error); r.Ok? ==> Keeps(sha, s, r.value, Cancels(itemId))
  {
    var at := Locate(s, itemId, Submitting);
    if at.Ok? {
      assert BatchOk(sha, Announced(s), s.batches[at.value.0]);
      QuietItem(sha, s, at.value, ItemAt(s, at.value).(
        status := Armed, nextAttemptAt := None, lastError := Some(error), attemptId := None, attemptStartedAt := None), Cancels(itemId));
    }
  }

  /** One item of the batch changes what it owes; the others owe what they owed. */
  lemma OneItemCount(q: Query, b: Batch, c: Batch, i: nat)
    requires OwnerOf(c) == OwnerOf(b) && |c.items| == |b.items| && i < |b.items|
    requires forall j :: 0 <= j < |c.items| && j != i ==> Hit(q, OwnerOf(b), b.items[j]) == Hit(q, OwnerOf(b), c.items[j])
    ensures CountIn(q, c) + Hit(q, OwnerOf(b), b.items[i]) == CountIn(q, b) + Hit(q, OwnerOf(b), c.items[i])
  {
    CountUpdate(q, OwnerOf(b), b.items, i, c.items[i]);
    CountSame(q, OwnerOf(b), b.items[i := c.items[i]], c.items);
  }

  lemma ReceiptCount(s: Snapshot, at: (nat, nat), c: Batch, r: Receipt, d: Debt)
    requires Matched(s) && at.0 < |s.batches| && at.1 < |s.batches[at.0].items|
    requires OwnerOf(c) == OwnerOf(s.batches[at.0]) && |c.items| == |s.batches[at.0].items|
    requires !Awaiting(ItemAt(s, at).status) && Awaiting(c.items[at.1].status)
    requires forall j :: 0 <= j < |c.items| && j != at.1 ==>
      Hit(ByDebt(d), OwnerOf(c), s.batches[at.0].items[j]) == Hit(ByDebt(d), OwnerOf(c), c.items[j])
    requires ReceiptDebt(r) == Debt(OwnerOf(c), c.items[at.1].itemId, c.items[at.1].txid, c.items[at.1].status)
    ensures CountAll(ByDebt(d), s.batches[at.0 := c]) == CountReceipts(d, s.receipts + [r])
  {
    OneItemCount(ByDebt(d), s.batches[at.0], c, at.1);
    CountAllUpdate(ByDebt(d), s.batches, at.0, c);
    CountReceiptsConcat(d, s.receipts, [r]);
    CountReceiptsOne(d, r);
  }

  /** One item comes to await reconciliation, its peers stay quiet, and one receipt reports it. */
  lemma ReceiptStep(sha: Data -> string, s: Snapshot, at: (nat, nat), it: Item, c: Batch, r: Receipt)
    requires Inv(sha, s) && at.0 < |s.batches| && at.1 < |s.batches[at.0].items|
    requires OwnerOf(c) == OwnerOf(s.batches[at.0]) && |c.items| == |s.batches[at.0].items|
    requires c.items[at.1] == it && !Awaiting(ItemAt(s, at).status) && Awaiting(it.status)
    requires Follows(ItemAt(s, at), it, Nobody)
    requires forall j :: 0 <= j < |c.items| && j != at.1 ==> Quietly(sha, s.batches[at.0].items[j], c.items[j])
    requires BatchOk(sha, Announced(s), c)
    requires ReceiptDebt(r) == Debt(OwnerOf(c), it.itemId, it.txid, it.status)
    ensures Keeps(sha, s, WithBatch(s, at.0, c).(receipts := s.receipts + [r]), Nobody)
  {
    var t := WithBatch(s, at.0, c).(receipts := s.receipts + [r]);
    assert Announced(t) == Announced(s);
    assert AlignedBatch(s.batches[at.0], c, Nobody);
    AlignedUnique(s, t, Nobody);
    assert Matched(t) by {
      forall d: Debt ensures CountAll(ByDebt(d), t.batches) == CountReceipts(d, t.receipts) {
        ReceiptCount(s, at, c, r, d);
      }
    }
    assert AllOk(sha, t) by {
      forall i | 0 <= i < |t.batches| ensures BatchOk(sha, Announced(t), t.batches[i]) {
        assert BatchOk(sha, Announced(s), s.batches[i]);
      }
    }
  }

  lemma RejectedKeeps(sha: Data -> string, s: Snapshot, itemId: string, tip: U64, code: int, message: string, date: int)
    requires Inv(sha, s)
    ensures var r := RecordRejected(s, itemId, tip, code, message, date); r.Ok? ==> Keeps(sha, s, r.value, Nobody)
  {
    var at := Locate(s, itemId, Submitting);
    if at.Ok? {
      var b := s.batches[at.value.0];
      assert BatchOk(sha, Announced(s), b);
      var it := ItemAt(s, at.value).(status := Rejected, attemptId := None, attemptStartedAt := None, nextAttemptAt := None);
      var c := WithItem(b, at.value.1, it).(armedAt := None, nextProofHeight := None);
      ReceiptStep(sha, s, at.value, it, c, MakeReceipt(c, it, RejectedOutcome, tip, Some(code), Some(message), [], date));
    }
  }

  // ----- acceptance -------------------------------------------------------------------------

  lemma ReplacedQuietly(sha: Data -> string, it: Item, scheduled: U64, tip: U64)
    requires ItemOk(sha, it) && it.status == Armed && scheduled < it.expiryHeight
    ensures Quietly(sha, it, ReplacingSchedule(sha, it, scheduled, tip))
    ensures ReplacingSchedule(sha, it, scheduled, tip) == it.(scheduledHeight := scheduled, scheduleStartHeight := tip)
  {
  }

  /** A rescheduled peer is the old item with a new schedule: the rebuild loses nothing, because an armed item has no attempt open. */
  lemma RescheduledPeers(sha: Data -> string, b: Batch, excluding: string, tip: U64, random: Random)
    requires forall j :: 0 <= j < |b.items| ==> ItemOk(sha, b.items[j])
    requires RescheduleOverdue(sha, b, excluding, tip, random).Ok?
    ensures var after := RescheduleOverdue(sha, b, excluding, tip, random).value.items;
      forall j :: 0 <= j < |b.items| ==>
        if Overdue(b.items[j], excluding, tip)
        then && Quietly(sha, b.items[j], after[j])
             && tip < after[j].scheduledHeight < after[j].expiryHeight
             && after[j] == b.items[j].(scheduledHeight := after[j].scheduledHeight, scheduleStartHeight := tip)
        else after[j] == b.items[j]
  {
    RescheduleExact(sha, b, excluding, tip, random);
    OrderIsComplete(b.items, excluding, tip, random);
    var order := ProcessingOrder(b.items, excluding, tip, random);
    var after := RescheduleOverdue(sha, b, excluding, tip, random).value.items;
    forall j | 0 <= j < |b.items| && Overdue(b.items[j], excluding, tip)
      ensures Quietly(sha, b.items[j], after[j])
      ensures tip < after[j].scheduledHeight < after[j].expiryHeight
      ensures after[j] == b.items[j].(scheduledHeight := after[j].scheduledHeight, scheduleStartHeight := tip)
    {
      var k :| 0 <= k < |order| && order[k] == j;
      assert j in OverduePeers(b.items, excluding, tip);
      assert after[j] == ReplacingSchedule(sha, b.items[j], after[j].scheduledHeight, tip);
      assert tip < after[order[k]].scheduledHeight < after[order[k]].expiryHeight;
      ReplacedQuietly(sha, b.items[j], after[j].scheduledHeight, tip);
    }
  }

  lemma AcceptedKeeps(sha: Data -> string, s: Snapshot, itemId: string, equivalent: bool, tip: U64, code: int,
                      message: string, date: int, random: Random)
    requires Inv(sha, s)
    ensures var r := RecordAccepted(sha, s, itemId, equivalent, tip, code, message, date, random);
      r.Ok? ==> Keeps(sha, s, r.value, Nobody)
  {
    var r := RecordAccepted(sha, s, itemId, equivalent, tip, code, message, date, random);
    if r.Ok? {
      var at := Locate(s, itemId, Submitting).value;
      var b := AcceptedIn(s.batches[at.0], at.1);
      assert BatchOk(sha, Announced(s), s.batches[at.0]);
      assert forall j :: 0 <= j < |b.items| ==> ItemOk(sha, b.items[j]);
      RescheduledPeers(sha, b, itemId, tip, random);
      var done := RescheduleOverdue(sha, b, itemId, tip, random).value;
      var c := b.(items := done.items);
      assert !Overdue(b.items[at.1], itemId, tip);
      forall j | 0 <= j < |c.items| && j != at.1 ensures Quietly(sha, s.batches[at.0].items[j], c.items[j]) {
        assert b.items[j] == s.batches[at.0].items[j];
      }
      ReceiptStep(sha, s, at, c.items[at.1], c,
        MakeReceipt(c, c.items[at.1], if equivalent then AcceptedEquivalentOutcome else AcceptedOutcome,
                    tip, Some(code), Some(message), done.updates, date));
    }
  }

  /** After rescheduling, an armed item is either not due at the tip or carries the excluded id. */
  lemma NothingDueAfter(sha: Data -> string, b: Batch, excluding: string, tip: U64, random: Random)
    requires forall j :: 0 <= j < |b.items| ==> ItemOk(sha, b.items[j])
    requires RescheduleOverdue(sha, b, excluding, tip, random).Ok?
    ensures var after := RescheduleOverdue(sha, b, excluding, tip, random).value.items;
      forall j :: 0 <= j < |after| && after[j].status == Armed && b.items[j].itemId != excluding ==> tip < after[j].scheduledHeight
  {
    RescheduledPeers(sha, b, excluding, tip, random);
  }

  /**
   After an acceptance nothing armed in that batch is due at that tip, the accepted item awaits
   reconciliation, and no other batch changed.
   */
  lemma AcceptanceClearsTip(sha: Data -> string, s: Snapshot, itemId: string, equivalent: bool, tip: U64, code: int,
                            message: string, date: int, random: Random)
    requires Inv(sha, s)
    requires RecordAccepted(sha, s, itemId, equivalent, tip, code, message, date, random).Ok?
    ensures var t := RecordAccepted(sha, s, itemId, equivalent, tip, code, message, date, random).value;
      var at := Locate(s, itemId, Submitting).value;
      && t.batches[at.0].items[at.1].status == Accepted
      && (forall j :: 0 <= j < |t.batches[at.0].items| && t.batches[at.0].items[j].status == Armed ==>
            tip < t.batches[at.0].items[j].scheduledHeight)
      && t.batches == s.batches[at.0 := t.batches[at.0]]
  {
    var at := Locate(s, itemId, Submitting).value;
    var b := AcceptedIn(s.batches[at.0], at.1);
    assert BatchOk(sha, Announced(s), s.batches[at.0]);
    assert forall j :: 0 <= j < |b.items| ==> ItemOk(sha, b.items[j]);
    NothingDueAfter(sha, b, itemId, tip, random);
    RescheduledPeers(sha, b, itemId, tip, random);
    var items := RescheduleOverdue(sha, b, itemId, tip, random).value.items;
    assert !Overdue(b.items[at.1], itemId, tip);
    forall j | 0 <= j < |items| && items[j].status == Armed ensures tip < items[j].scheduledHeight {
      if b.items[j].itemId == itemId {
        SamePosition(s.batches, at.0, at.1, at.0, j);
        assert false;
      }
    }
  }
}
