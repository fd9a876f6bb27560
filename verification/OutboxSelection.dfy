/** What the runner's second update hands to the broadcast, and that its check cannot be wrong. */
module OutboxSelection {
  import opened Common
  import opened OutboxModel
  import opened OutboxInvariant
  import opened OutboxSteps
  import opened OutboxSubmission
  import opened OutboxUpdates
  import opened Rescheduling

  /** Armed and due at the tip: not expired, and with the canonical expiry when there is one. */
  ghost predicate InWindow(it: Item, tip: U64) {
    && tip < it.expiryHeight
    && (CanonicalExpiry(tip).Some? ==> it.expiryHeight == CanonicalExpiry(tip).value)
  }

  ghost predicate WindowHolds(s: Snapshot, tip: U64, endpoint: string) {
    forall i, j :: 0 <= i < |s.batches| && s.batches[i].url == endpoint && 0 <= j < |s.batches[i].items|
                   && s.batches[i].items[j].status == Armed && s.batches[i].items[j].scheduledHeight <= tip
                   ==> InWindow(s.batches[i].items[j], tip)
  }

  lemma SweptItem(sweep: Sweep, b: Batch, j: nat)
    requires j < |b.items| && SweptBatch(sweep, b).items[j].status == Armed
    ensures SweptBatch(sweep, b).items[j] == b.items[j] && !sweep.Hits(b.items[j])
  {
  }

  lemma AfterExpiry(s: Snapshot, e: Snapshot, tip: U64, endpoint: string, date: int, i: nat, j: nat)
    requires e == ExpireItems(s, tip, endpoint, date)
    requires i < |e.batches| && j < |e.batches[i].items|
    requires e.batches[i].url == endpoint && e.batches[i].items[j].status == Armed
    ensures tip < e.batches[i].items[j].expiryHeight
  {
    SweptItem(ExpirySweep(tip), s.batches[i], j);
  }

  /** After the two sweeps, everything armed and due on the endpoint is in the window of the tip. */
  lemma SweepsLeaveWindow(s: Snapshot, tip: U64, endpoint: string, date: int)
    ensures WindowHolds(Swept(s, tip, endpoint, date), tip, endpoint)
  {
    var e := ExpireItems(s, tip, endpoint, date);
    var t := Swept(s, tip, endpoint, date);
    forall i, j | 0 <= i < |t.batches| && t.batches[i].url == endpoint && 0 <= j < |t.batches[i].items|
                  && t.batches[i].items[j].status == Armed && t.batches[i].items[j].scheduledHeight <= tip
      ensures InWindow(t.batches[i].items[j], tip)
    {
      if CanonicalExpiry(tip).Some? {
        SweptItem(ResignSweep(tip, CanonicalExpiry(tip).value), e.batches[i], j);
      }
      AfterExpiry(s, e, tip, endpoint, date, i, j);
    }
  }

  lemma MarkKeepsWindow(s: Snapshot, tip: U64, endpoint: string, date: int)
    requires WindowHolds(s, tip, endpoint)
    ensures WindowHolds(MarkProofReady(s, tip, endpoint, date), tip, endpoint)
  {
    var t := MarkProofReady(s, tip, endpoint, date);
    assert |t.batches| == |s.batches|;
    forall i | 0 <= i < |s.batches| ensures t.batches[i].items == s.batches[i].items && t.batches[i].url == s.batches[i].url {}
  }

  lemma SelectionInWindow(s: Snapshot, tip: U64, endpoint: string, verify: bool, date: int)
    ensures WindowHolds(Select(s, tip, endpoint, verify, date).0, tip, endpoint)
  {
    SweepsLeaveWindow(s, tip, endpoint, date);
    MarkKeepsWindow(Swept(s, tip, endpoint, date), tip, endpoint, date);
  }

  /** Where a selection comes from: a due item of an armed batch on the endpoint. */
  ghost predicate SelectedAt(s: Snapshot, sel: Selection, i: nat, j: nat, tip: U64, endpoint: string, date: int)
  {
    && i < |s.batches| && j < |s.batches[i].items|
    && DueBatch(s.batches[i], tip, Some(endpoint), date)
    && Due(s.batches[i].items[j], tip, date)
    && sel == Selection(s.batches[i].batchId, s.batches[i].accountUuid, s.batches[i].ScopeKey(), s.batches[i].url, s.batches[i].items[j])
  }

  lemma SelectDuePosition(s: Snapshot, tip: U64, endpoint: string, date: int) returns (i: nat, j: nat)
    requires SelectDue(s, tip, Some(endpoint), date).1.Some?
    ensures SelectedAt(s, SelectDue(s, tip, Some(endpoint), date).1.value, i, j, tip, endpoint, date)
  {
    var scope := NextKey(DueScopes(s, tip, Some(endpoint), date), s.lastScope);
    i := ScopeBatch(s.batches, tip, Some(endpoint), date, scope);
    j := BestItem(s.batches[i].items, tip, date).value;
  }

  /**
   What is selected for broadcast at a tip: an armed item of an armed batch on the inspected endpoint,
   with scheduled height at most the tip and the tip below its expiry, which is the canonical one.
   */
  lemma SelectionIsDue(sha: Data -> string, s: Snapshot, tip: U64, endpoint: string, verify: bool, date: int) returns (i: nat, j: nat)
    requires Inv(sha, s) && Select(s, tip, endpoint, verify, date).1.Some?
    ensures var (t, sel) := Select(s, tip, endpoint, verify, date);
      && SelectedAt(t, sel.value, i, j, tip, endpoint, date)
      && InWindow(sel.value.item, tip)
      && ItemLocation(t.batches, sel.value.item.itemId) == Some((i, j))
  {
    var swept := Swept(s, tip, endpoint, date);
    var marked := if verify then swept else MarkProofReady(swept, tip, endpoint, date);
    i, j := SelectDuePosition(marked, tip, endpoint, date);
    SelectionInWindow(s, tip, endpoint, verify, date);
    SelectKeeps(sha, s, tip, endpoint, verify, date);
    LocationFinds(Select(s, tip, endpoint, verify, date).0.batches, i, j);
  }

  // ----- the check cannot be wrong ----------------------------------------------------------

  /** In the batch of a selected item all overdue peers share the canonical expiry. */
  lemma PeersShareExpiry(s: Snapshot, tip: U64, endpoint: string, i: nat, excluding: string)
    requires WindowHolds(s, tip, endpoint) && i < |s.batches| && s.batches[i].url == endpoint
    requires CanonicalExpiry(tip).Some?
    ensures OneExpiry(s.batches[i].items, excluding, tip)
  {
  }

  /** Overdue peers, and so the check, do not look at the item whose id they exclude. */
  lemma {:induction false} ExcludedIsInvisible(a: seq<Item>, b: seq<Item>, excluding: string, tip: U64)
    requires |a| == |b|
    requires forall j :: 0 <= j < |a| ==> a[j] == b[j] || (a[j].itemId == excluding && b[j].itemId == excluding)
    ensures OverdueExpiries(a, excluding, tip) == OverdueExpiries(b, excluding, tip)
  {
    if a != [] {
      ExcludedIsInvisible(a[..|a| - 1], b[..|b| - 1], excluding, tip);
    }
  }

  /** Whether the acceptance can be recorded is decided by the reschedule alone. */
  lemma RecordAcceptedOutcome(sha: Data -> string, s: Snapshot, at: (nat, nat), itemId: string, equivalent: bool, tip: U64, code: int,
                              message: string, date: int, random: Random)
    requires Locate(s, itemId, Submitting) == Ok(at)
    ensures var r := RecordAccepted(sha, s, itemId, equivalent, tip, code, message, date, random);
      var done := RescheduleOverdue(sha, AcceptedIn(s.batches[at.0], at.1), itemId, tip, random);
      (r.Ok? <==> done.Ok?) && (r.Err? ==> r.error == done.error)
  {
  }

  /** The snapshot in which the checked item is being submitted. */
  ghost function Begun(s: Snapshot, at: (nat, nat), attemptId: string, date: int): Snapshot
    requires at.0 < |s.batches| && at.1 < |s.batches[at.0].items|
  {
    WithItemAt(s, at, ItemAt(s, at).(status := Submitting, attemptId := Some(attemptId), attemptStartedAt := Some(date)))
  }

  lemma BegunLocates(sha: Data -> string, s: Snapshot, at: (nat, nat), attemptId: string, date: int)
    requires Inv(sha, s) && at.0 < |s.batches| && at.1 < |s.batches[at.0].items| && ItemAt(s, at).status == Armed
    ensures BeginSubmission(s, ItemAt(s, at).itemId, attemptId, date) == Ok(Begun(s, at, attemptId, date))
    ensures Locate(Begun(s, at, attemptId, date), ItemAt(s, at).itemId, Submitting) == Ok(at)
  {
    LocationFinds(s.batches, at.0, at.1);
    BeginKeeps(sha, s, ItemAt(s, at).itemId, attemptId, date);
    LocationFinds(Begun(s, at, attemptId, date).batches, at.0, at.1);
  }

  /** The batch once the item at `at` is submitted and then accepted. */
  ghost function Answered(s: Snapshot, at: (nat, nat), attemptId: string, date: int): Batch
    requires at.0 < |s.batches| && at.1 < |s.batches[at.0].items|
  {
    AcceptedIn(Begun(s, at, attemptId, date).batches[at.0], at.1)
  }

  /** In a swept snapshot the check decides whether the peers of an answered item can be rescheduled. */
  lemma CheckDecides(sha: Data -> string, s: Snapshot, at: (nat, nat), tip: U64, endpoint: string, attemptId: string, date: int,
                     random: Random)
    requires Inv(sha, s) && WindowHolds(s, tip, endpoint) && CanonicalExpiry(tip).Some?
    requires at.0 < |s.batches| && at.1 < |s.batches[at.0].items| && s.batches[at.0].url == endpoint
    ensures var done := RescheduleOverdue(sha, Answered(s, at, attemptId, date), ItemAt(s, at).itemId, tip, random);
      && (done.Ok? <==> CheckPasses(s.batches[at.0].items, ItemAt(s, at).itemId, tip))
      && (done.Err? ==> done.error == InvalidSchedule)
  {
    var id := ItemAt(s, at).itemId;
    var b := Answered(s, at, attemptId, date);
    PeersShareExpiry(s, tip, endpoint, at.0, id);
    ExcludedIsInvisible(s.batches[at.0].items, b.items, id, tip);
    SameExpiry(s.batches[at.0].items, b.items, id, tip);
    assert BatchOk(sha, Announced(s), s.batches[at.0]);
    CheckIsExact(sha, b, id, tip, random);
    RescheduleExact(sha, b, id, tip, random);
  }

  lemma SameExpiry(a: seq<Item>, b: seq<Item>, excluding: string, tip: U64)
    requires |a| == |b| && OneExpiry(a, excluding, tip)
    requires forall j :: 0 <= j < |a| ==> a[j] == b[j] || (a[j].itemId == excluding && b[j].itemId == excluding)
    ensures OneExpiry(b, excluding, tip)
  {
    forall i, j | 0 <= i < |b| && 0 <= j < |b| && Overdue(b[i], excluding, tip) && Overdue(b[j], excluding, tip)
      ensures b[i].expiryHeight == b[j].expiryHeight
    {
      assert a[i] == b[i] && a[j] == b[j];
    }
  }

  lemma CheckIsExactAt(sha: Data -> string, s: Snapshot, at: (nat, nat), tip: U64, endpoint: string, attemptId: string, date: int,
                       equivalent: bool, code: int, message: string, later: int, random: Random)
    requires Inv(sha, s) && WindowHolds(s, tip, endpoint) && CanonicalExpiry(tip).Some?
    requires at.0 < |s.batches| && at.1 < |s.batches[at.0].items| && s.batches[at.0].url == endpoint
    requires ItemAt(s, at).status == Armed
    ensures CheckIsExactFor(sha, s, ItemAt(s, at).itemId, tip, attemptId, date, equivalent, code, message, later, random)
  {
    var id := ItemAt(s, at).itemId;
    BegunLocates(sha, s, at, attemptId, date);
    RecordAcceptedOutcome(sha, Begun(s, at, attemptId, date), at, id, equivalent, tip, code, message, later, random);
    CheckDecides(sha, s, at, tip, endpoint, attemptId, date, random);
    LocationFinds(s.batches, at.0, at.1);
  }

  /** The submission can begin, and its acceptance can be recorded exactly when the check passes. */
  ghost predicate CheckIsExactFor(sha: Data -> string, s: Snapshot, itemId: string, tip: U64, attemptId: string, date: int,
                                  equivalent: bool, code: int, message: string, later: int, random: Random)
  {
    && BeginSubmission(s, itemId, attemptId, date).Ok?
    && var begun := BeginSubmission(s, itemId, attemptId, date).value;
       var accepted := RecordAccepted(sha, begun, itemId, equivalent, tip, code, message, later, random);
       && (ValidateRescheduling(s, itemId, tip).Ok? <==> accepted.Ok?)
       && (ValidateRescheduling(s, itemId, tip).Err? ==>
             accepted == Err(InvalidSchedule) && ValidateRescheduling(s, itemId, tip) == Err(InvalidSchedule))
  }

  /**
   The pre-broadcast check is exact on the runner's path. For every item the runner selects at a tip
   whose canonical expiry does not overflow: the check passes if and only if recording the acceptance
   of that item at that tip succeeds, for every random source; and when it fails, the error is the
   invalid schedule that the check reported before anything was sent.
   */
  lemma CheckIsExactOnRunnerPath(sha: Data -> string, s: Snapshot, tip: U64, endpoint: string, verify: bool, date: int,
                                 attemptId: string, equivalent: bool, code: int, message: string, later: int, random: Random)
    requires Inv(sha, s) && CanonicalExpiry(tip).Some?
    requires Select(s, tip, endpoint, verify, date).1.Some?
    ensures var selected := Select(s, tip, endpoint, verify, date);
      CheckIsExactFor(sha, selected.0, selected.1.value.item.itemId, tip, attemptId, date, equivalent, code, message, later, random)
  {
    var i, j := SelectionIsDue(sha, s, tip, endpoint, verify, date);
    SelectKeeps(sha, s, tip, endpoint, verify, date);
    SelectionInWindow(s, tip, endpoint, verify, date);
    var t := Select(s, tip, endpoint, verify, date).0;
    CheckIsExactAt(sha, t, (i, j), tip, endpoint, attemptId, date, equivalent, code, message, later, random);
  }
}
