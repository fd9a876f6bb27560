/**
 The store and one run of the runner over it. An update reads the stored snapshot into an outbox,
 mutates the outbox in place, and writes it back unless the mutation threw.
 */
module OutboxStore {
  import opened Common
  import opened OutboxModel
  import opened OutboxInvariant
  import opened OutboxSteps
  import opened OutboxSubmission
  import opened OutboxUpdates
  import opened OutboxEffects
  import opened OutboxReadiness
  import opened OutboxSelection
  import opened OutboxRunner
  import opened Outbox

  /** What the endpoint said about the tip, and about the transaction. */
  datatype TipReply = TipAt(height: U64) | TipCancelled | TipFailed

  datatype SendReply = Failed(error: string, cancelled: bool) | Answered(code: int, message: string, alreadyKnown: bool)
  {
    predicate Accepts() { Answered? && (code == 0 || alreadyKnown) }
  }

  datatype Transport = NoWork | Waiting | Delivered | NeedsUserAction | TemporarilyUnavailable | WasCancelled

  /** A receipt of this tip says that an item of some batch needs the user. */
  predicate ReportedAtTip(s: Snapshot, tip: U64) {
    exists r :: r in s.receipts && (r.outcome == ExpiredOutcome || r.outcome == NeedsResignOutcome) && r.remoteHeight == tip
  }

  /** Something on the endpoint still waits for a height. */
  predicate HasNextAction(s: Snapshot, endpoint: string) {
    exists b :: b in s.batches && b.url == endpoint
      && (HasArmed(b.items)
          || (b.armedAt.Some? && b.AwaitsProofReadyAnnouncement() && b.readyPendingAt.None? && b.nextProofHeight.Some?))
  }

  // ----- one uninterrupted run --------------------------------------------------------------

  /** A submission that ends leaves none open. */
  lemma FinishClears(s: Snapshot, t: Snapshot, at: (nat, nat), exempt: Exempt)
    requires Aligned(s, t, exempt) && !exempt.Begins? && OneSubmitting(s)
    requires at.0 < |s.batches| && at.1 < |s.batches[at.0].items| && ItemAt(s, at).status == Submitting
    requires |t.batches[at.0].items| == |s.batches[at.0].items| && ItemAt(t, at).status != Submitting
    ensures NoneSubmitting(t)
  {
    forall i, j | 0 <= i < |t.batches| && 0 <= j < |t.batches[i].items| ensures t.batches[i].items[j].status != Submitting {
      assert AlignedBatch(s.batches[i], t.batches[i], exempt);
      assert Follows(s.batches[i].items[j], t.batches[i].items[j], exempt);
    }
  }

  lemma NothingPrepared(s: Snapshot, tip: U64, endpoint: string, verify: bool, attemptId: string, date: int, t: Snapshot)
    requires OutboxUpdates.Prepare(s, tip, endpoint, verify, attemptId, date) == Ok((t, None))
    ensures OutboxUpdates.Select(s, tip, endpoint, verify, date) == (t, None)
  {
  }

  lemma AlignedClears(s: Snapshot, t: Snapshot, exempt: Exempt)
    requires Aligned(s, t, exempt) && !exempt.Begins? && NoneSubmitting(s)
    ensures NoneSubmitting(t)
  {
    forall i, j | 0 <= i < |t.batches| && 0 <= j < |t.batches[i].items| ensures t.batches[i].items[j].status != Submitting {
      assert AlignedBatch(s.batches[i], t.batches[i], exempt);
      assert Follows(s.batches[i].items[j], t.batches[i].items[j], exempt);
    }
  }

  lemma NothingSelected(sha: Data -> string, s: Snapshot, tip: U64, endpoint: string, verify: bool, attemptId: string, date: int, t: Snapshot)
    requires Inv(sha, s) && NoneSubmitting(s) && OutboxUpdates.Prepare(s, tip, endpoint, verify, attemptId, date) == Ok((t, None))
    ensures Inv(sha, t) && NoneSubmitting(t)
  {
    SelectKeeps(sha, s, tip, endpoint, verify, date);
    NothingPrepared(s, tip, endpoint, verify, attemptId, date, t);
    AlignedClears(s, t, Nobody);
  }

  /** After a write-ahead that selected, the selected item is the one submission, and an answer to it can be recorded. */
  lemma SelectedIsOpen(sha: Data -> string, s: Snapshot, tip: U64, endpoint: string, verify: bool, attemptId: string, date: int,
                       t: Snapshot, sel: Selection)
    requires Inv(sha, s) && NoneSubmitting(s) && OutboxUpdates.Prepare(s, tip, endpoint, verify, attemptId, date) == Ok((t, Some(sel)))
    ensures Inv(sha, t) && OneSubmitting(t)
    ensures InFlight(t, sel)
    ensures InSchedule(Prepared(endpoint, tip, sel))
  {
    PrepareKeeps(sha, s, tip, endpoint, verify, attemptId, date);
    AlignedDescends(s, t, Begins(sel.item.itemId));
    OneSubmittingStep(s, t, Begins(sel.item.itemId));
    WriteAheadFacts(sha, s, tip, endpoint, verify, attemptId, date);
    SelectedInFlight(sha, s, tip, endpoint, verify, attemptId, date, t, sel);
  }

  lemma PreparedIsBegun(s: Snapshot, tip: U64, endpoint: string, verify: bool, attemptId: string, date: int, t: Snapshot, sel: Selection)
    requires OutboxUpdates.Prepare(s, tip, endpoint, verify, attemptId, date) == Ok((t, Some(sel)))
    ensures OutboxUpdates.Select(s, tip, endpoint, verify, date).1 == Some(sel)
    ensures BeginSubmission(OutboxUpdates.Select(s, tip, endpoint, verify, date).0, sel.item.itemId, attemptId, date) == Ok(t)
  {
  }

  lemma SelectedInFlight(sha: Data -> string, s: Snapshot, tip: U64, endpoint: string, verify: bool, attemptId: string, date: int,
                         t: Snapshot, sel: Selection)
    requires Inv(sha, s) && OutboxUpdates.Prepare(s, tip, endpoint, verify, attemptId, date) == Ok((t, Some(sel)))
    ensures InFlight(t, sel)
  {
    PreparedIsBegun(s, tip, endpoint, verify, attemptId, date, t, sel);
    var i, j := SelectionIsDue(sha, s, tip, endpoint, verify, date);
    SelectKeeps(sha, s, tip, endpoint, verify, date);
    DueInFlight(sha, OutboxUpdates.Select(s, tip, endpoint, verify, date).0, i, j, tip, endpoint, attemptId, date, t, sel);
  }

  lemma DueInFlight(sha: Data -> string, s: Snapshot, i: nat, j: nat, tip: U64, endpoint: string, attemptId: string, date: int,
                    t: Snapshot, sel: Selection)
    requires Inv(sha, s) && SelectedAt(s, sel, i, j, tip, endpoint, date) && BeginSubmission(s, sel.item.itemId, attemptId, date) == Ok(t)
    ensures InFlight(t, sel)
  {
    BegunLocates(sha, s, (i, j), attemptId, date);
    BegunInFlight(s, (i, j), attemptId, date, sel);
  }

  lemma BegunInFlight(s: Snapshot, at: (nat, nat), attemptId: string, date: int, sel: Selection)
    requires at.0 < |s.batches| && at.1 < |s.batches[at.0].items|
    requires sel.item == ItemAt(s, at) && sel.batchId == s.batches[at.0].batchId
    requires sel.accountUuid == s.batches[at.0].accountUuid && sel.url == s.batches[at.0].url
    requires Locate(Begun(s, at, attemptId, date), sel.item.itemId, Submitting) == Ok(at)
    ensures InFlight(Begun(s, at, attemptId, date), sel)
  {
  }

  /** Recording an acceptance of this item at this tip succeeds, whatever the answer says and whatever is drawn. */
  ghost predicate Recordable(sha: Data -> string, s: Snapshot, itemId: string, tip: U64) {
    forall u: Update :: u.AcceptedUpdate? && u.itemId == itemId && u.tip == tip ==> AcceptAndAnnounce(sha, s, u).Ok?
  }

  lemma CheckedIsRecordable(sha: Data -> string, s: Snapshot, tip: U64, endpoint: string, verify: bool, attemptId: string, date: int,
                            t: Snapshot, sel: Selection)
    requires Inv(sha, s) && OutboxUpdates.Prepare(s, tip, endpoint, verify, attemptId, date) == Ok((t, Some(sel)))
    requires CanonicalExpiry(tip).Some?
    ensures Recordable(sha, t, sel.item.itemId, tip)
  {
    forall u: Update | u.AcceptedUpdate? && u.itemId == sel.item.itemId && u.tip == tip ensures AcceptAndAnnounce(sha, t, u).Ok? {
      CheckIsExactOnRunnerPath(sha, s, tip, endpoint, verify, date, attemptId, u.equivalent, u.code, u.message, u.date, u.random);
    }
  }

  /** The item with this id, wherever it is stored, satisfies what an answer left behind. */
  ghost predicate Left(s: Snapshot, itemId: string, status: ItemStatus) {
    exists i, j :: 0 <= i < |s.batches| && 0 <= j < |s.batches[i].items|
      && s.batches[i].items[j].itemId == itemId && s.batches[i].items[j].status == status && (status == Armed ==> Solid(s.batches[i].items[j]))
  }

  lemma CancelClears(sha: Data -> string, s: Snapshot, itemId: string, error: string)
    requires Inv(sha, s) && OneSubmitting(s) && Locate(s, itemId, Submitting).Ok?
    ensures var r := RecordCancelled(s, itemId, error); r.Ok? && Inv(sha, r.value) && NoneSubmitting(r.value)
  {
    CancelledKeeps(sha, s, itemId, error);
    FinishClears(s, RecordCancelled(s, itemId, error).value, Locate(s, itemId, Submitting).value, Cancels(itemId));
  }

  lemma UncertainClears(sha: Data -> string, s: Snapshot, itemId: string, error: string, date: int)
    requires Inv(sha, s) && OneSubmitting(s) && Locate(s, itemId, Submitting).Ok?
    ensures var r := RecordUncertain(s, itemId, error, date); r.Ok? && Inv(sha, r.value) && NoneSubmitting(r.value) && Left(r.value, itemId, Armed)
  {
    var at := Locate(s, itemId, Submitting).value;
    var t := RecordUncertain(s, itemId, error, date).value;
    UncertainKeeps(sha, s, itemId, error, date);
    FinishClears(s, t, at, Nobody);
    assert t.batches[at.0].items[at.1].itemId == itemId && Solid(t.batches[at.0].items[at.1]);
  }

  lemma RejectClears(sha: Data -> string, s: Snapshot, itemId: string, tip: U64, code: int, message: string, date: int)
    requires Inv(sha, s) && OneSubmitting(s) && Locate(s, itemId, Submitting).Ok?
    ensures var r := RecordRejected(s, itemId, tip, code, message, date); r.Ok? && Inv(sha, r.value) && NoneSubmitting(r.value) && Left(r.value, itemId, Rejected)
  {
    var at := Locate(s, itemId, Submitting).value;
    var t := RecordRejected(s, itemId, tip, code, message, date).value;
    RejectedKeeps(sha, s, itemId, tip, code, message, date);
    FinishClears(s, t, at, Nobody);
    assert t.batches[at.0].items[at.1].itemId == itemId && t.batches[at.0].items[at.1].status == Rejected;
  }

  lemma AcceptClears(sha: Data -> string, s: Snapshot, u: Update, t: Snapshot)
    requires Inv(sha, s) && OneSubmitting(s) && u.AcceptedUpdate? && AcceptAndAnnounce(sha, s, u) == Ok(t)
    ensures Inv(sha, t) && NoneSubmitting(t) && Left(t, u.itemId, Accepted)
  {
    AcceptKeeps(sha, s, u, t);
    AnswerClearsTip(sha, s, u);
    AcceptedAlone(s, t, Locate(s, u.itemId, Submitting).value, u.itemId);
  }

  lemma AcceptedAlone(s: Snapshot, t: Snapshot, at: (nat, nat), itemId: string)
    requires Aligned(s, t, Nobody) && OneSubmitting(s)
    requires at.0 < |s.batches| && at.1 < |s.batches[at.0].items| && ItemAt(s, at).status == Submitting && ItemAt(s, at).itemId == itemId
    requires at.0 < |t.batches| && at.1 < |t.batches[at.0].items| && ItemAt(t, at).status == Accepted
    ensures NoneSubmitting(t) && Left(t, itemId, Accepted)
  {
    assert AlignedBatch(s.batches[at.0], t.batches[at.0], Nobody);
    FinishClears(s, t, at, Nobody);
    assert Follows(s.batches[at.0].items[at.1], t.batches[at.0].items[at.1], Nobody);
  }

  // ----- what a run leaves ----------------------------------------------------------------------

  const CANCELLED_BEFORE_SUBMISSION := "Background execution expired before submission."

  function HeightOf(tip: TipReply): U64 {
    match tip case TipAt(height) => height case _ => 0
  }

  /** Some receipt tells of an item that was retired at this tip. */
  ghost predicate UserIsAsked(t: Snapshot, tip: U64) {
    exists k :: 0 <= k < |t.receipts| && t.receipts[k].remoteHeight == tip && t.receipts[k].outcome in {ExpiredOutcome, NeedsResignOutcome}
  }

  /** An item is armed, or a proof is watched of which nothing is queued and nothing was delivered but a nudge that is pending again. */
  ghost predicate StillActs(b: Batch) {
    || (exists j :: 0 <= j < |b.items| && b.items[j].status == Armed)
    || (b.armedAt.Some? && b.nextProofHeight.Some? && b.readyPendingAt.None? && b.readyNotifiedAt.None?
        && (b.noticedAt.None? || b.noticePendingAt.Some?))
  }

  ghost predicate ActionIsLeft(t: Snapshot, endpoint: string) {
    exists i :: 0 <= i < |t.batches| && t.batches[i].url == endpoint && StillActs(t.batches[i])
  }

  lemma UserIsAskedIf(t: Snapshot, tip: U64)
    ensures UserIsAsked(t, tip) <==> ReportedAtTip(t, tip)
  {
    if r :| r in t.receipts && (r.outcome == ExpiredOutcome || r.outcome == NeedsResignOutcome) && r.remoteHeight == tip {
      var k :| 0 <= k < |t.receipts| && t.receipts[k] == r;
    }
    if k :| 0 <= k < |t.receipts| && t.receipts[k].remoteHeight == tip && t.receipts[k].outcome in {ExpiredOutcome, NeedsResignOutcome} {
      assert t.receipts[k] in t.receipts;
    }
  }

  lemma ActionIsLeftIf(t: Snapshot, endpoint: string)
    ensures ActionIsLeft(t, endpoint) <==> HasNextAction(t, endpoint)
  {
    forall b: Batch ensures HasArmed(b.items) <==> exists j :: 0 <= j < |b.items| && b.items[j].status == Armed {
      if j :| 0 <= j < |b.items| && b.items[j].status == Armed {
        assert b.items[j] in b.items;
      }
    }
    if i :| 0 <= i < |t.batches| && t.batches[i].url == endpoint && StillActs(t.batches[i]) {
      assert t.batches[i] in t.batches;
    }
  }

  /** Why a run that inspects this endpoint selects nothing. An item that is ready but fails the check needs the user. */
  ghost function WhyStopped(s: Snapshot, t: Snapshot, endpoint: string, now: int, tip: TipReply, cancelledAtTip: bool): Transport {
    match tip
    case TipCancelled => WasCancelled
    case TipFailed => TemporarilyUnavailable
    case TipAt(height) =>
      if cancelledAtTip then WasCancelled
      else if SomethingReady(s, endpoint, height, now) || UserIsAsked(t, height) then NeedsUserAction
      else if ActionIsLeft(t, endpoint) then Waiting
      else NoWork
  }

  /** The run learns a tip, is not cancelled before its write-ahead, and has something to send. */
  ghost predicate GetsToSend(s: Snapshot, now: int, tip: TipReply, cancelledAtTip: bool) {
    tip.TipAt? && !cancelledAtTip && Sendable(s, tip.height, now)
  }

  /** What a run reports that selects nothing: no work if no batch needs inspection, and otherwise why it stopped at the endpoint whose turn it was. */
  ghost predicate Stops(s: Snapshot, t: Snapshot, now: int, tip: TipReply, cancelledAtTip: bool, transport: Transport) {
    && ((forall i :: 0 <= i < |s.batches| ==> !NeedsInspection(s.batches[i])) ==> transport == NoWork)
    && forall endpoint :: Inspected(s, endpoint) ==> transport == WhyStopped(s, t, endpoint, now, tip, cancelledAtTip)
  }

  lemma StopsAt(s: Snapshot, t: Snapshot, now: int, endpoint: Option<string>, tip: TipReply, cancelledAtTip: bool, transport: Transport)
    requires OutboxUpdates.Open(s, now).1 == endpoint
    requires transport == if endpoint.None? then NoWork else WhyStopped(s, t, endpoint.value, now, tip, cancelledAtTip)
    ensures Stops(s, t, now, tip, cancelledAtTip, transport)
  {
    OpensInspected(s, now);
  }

  /** What is stored when a run comes to its send, and what it has selected. */
  function AtSend(s: Snapshot, now: int, verify: bool, tip: TipReply, cancelledAtTip: bool, attemptId: string): (Snapshot, Option<Selection>) {
    var (recovered, endpoint) := OutboxUpdates.Open(s, now);
    if endpoint.None? || !tip.TipAt? || cancelledAtTip then (recovered, None)
    else
      match OutboxUpdates.Prepare(recovered, tip.height, endpoint.value, verify, attemptId, now)
      case Ok(done) => done
      case Err(_) => (recovered, None)
  }

  function OrSame(s: Snapshot, r: Result<Snapshot, OutboxError>): Snapshot {
    if r.Ok? then r.value else s
  }

  function AcceptanceOf(sel: Selection, tip: U64, reply: SendReply, now: int, random: Random): Update
    requires reply.Accepts()
  {
    AcceptedUpdate(sel.item.itemId, sel.batchId, reply.code != 0, tip, reply.code, reply.message, now, random)
  }

  /** An answer without an error is an acceptance; one that says the transaction was known already is equivalent to one. */
  function OutcomeOf(reply: SendReply): Outcome
    requires reply.Accepts()
  {
    if reply.code == 0 then AcceptedOutcome else AcceptedEquivalentOutcome
  }

  /** What is stored once the answer to a send is recorded. */
  function AfterAnswer(sha: Data -> string, s: Snapshot, sel: Selection, tip: U64, reply: SendReply, now: int, random: Random): Snapshot {
    OrSame(s, if reply.Accepts() then AcceptAndAnnounce(sha, s, AcceptanceOf(sel, tip, reply, now, random))
              else if reply.Failed? then RecordUncertain(s, sel.item.itemId, reply.error, now)
              else RecordRejected(s, sel.item.itemId, tip, reply.code, reply.message, now))
  }

  /** What one run leaves stored. */
  function AfterRun(sha: Data -> string, s: Snapshot, cancelledAtStart: bool, now: int, verify: bool, tip: TipReply, cancelledAtTip: bool,
                    attemptId: string, cancelledBeforeSend: bool, reply: SendReply, random: Random): Snapshot
  {
    if cancelledAtStart then s
    else
      var (ahead, selected) := AtSend(s, now, verify, tip, cancelledAtTip, attemptId);
      if selected.None? then ahead
      else if cancelledBeforeSend then OrSame(ahead, RecordCancelled(ahead, selected.value.item.itemId, CANCELLED_BEFORE_SUBMISSION))
      else AfterAnswer(sha, ahead, selected.value, HeightOf(tip), reply, now, random)
  }

  class Store {
    const sha: Data -> string
    var persisted: Snapshot

    constructor (sha: Data -> string)
      ensures this.sha == sha && persisted == EMPTY
    {
      this.sha := sha;
      persisted := EMPTY;
    }

    // ----- the runner's combined updates ----------------------------------------------------

    method Open(date: int) returns (endpoint: Option<string>)
      modifies this
      ensures (persisted, endpoint) == OutboxUpdates.Open(old(persisted), date)
    {
      var outbox := new Outbox(sha, persisted);
      outbox.RecoverInterrupted(date);
      endpoint := outbox.NextEndpoint();
      persisted := outbox.View();
    }

    method Select(outbox: Outbox, tip: U64, endpoint: string, verify: bool, date: int) returns (selected: Option<Selection>)
      modifies outbox
      ensures (outbox.View(), selected) == OutboxUpdates.Select(old(outbox.View()), tip, endpoint, verify, date)
    {
      outbox.ExpireItems(tip, endpoint, date);
      outbox.MarkDueItemsNeedingResign(tip, endpoint, date);
      if !verify {
        outbox.MarkProofReady(tip, endpoint, date);
      }
      selected := outbox.SelectDue(tip, Some(endpoint), date);
    }

    method Prepare(tip: U64, endpoint: string, verify: bool, attemptId: string, date: int) returns (r: Result<Option<Selection>, OutboxError>)
      modifies this
      ensures match OutboxUpdates.Prepare(old(persisted), tip, endpoint, verify, attemptId, date)
        case Ok(done) => r == Ok(done.1) && persisted == done.0
        case Err(e) => r == Err(e) && persisted == old(persisted)
    {
      var outbox := new Outbox(sha, persisted);
      var selected := Select(outbox, tip, endpoint, verify, date);
      if selected.Some? {
        var valid := outbox.ValidateRescheduling(selected.value.item.itemId, tip);
        if valid.Err? { return Err(valid.error); }
        var begun := outbox.BeginSubmission(selected.value.item.itemId, attemptId, date);
        if begun.Err? { return Err(begun.error); }
      }
      persisted := outbox.View();
      r := Ok(selected);
    }

    /** Writes what the mutation left in the outbox, unless it threw. */
    method Commit(outbox: Outbox, r: Result<(), OutboxError>)
      modifies this
      ensures persisted == if r.Ok? then outbox.View() else old(persisted)
    {
      if r.Ok? { persisted := outbox.View(); }
    }

    method Accept(u: Update) returns (r: Result<(), OutboxError>)
      requires u.AcceptedUpdate?
      modifies this
      ensures match AcceptAndAnnounce(sha, old(persisted), u)
        case Ok(t) => r.Ok? && persisted == t
        case Err(e) => r == Err(e) && persisted == old(persisted)
    {
      var outbox := new Outbox(sha, persisted);
      r := outbox.RecordAccepted(u.itemId, u.equivalent, u.tip, u.code, u.message, u.date, u.random);
      if r.Ok? {
        var announced := outbox.MarkBroadcastComplete(u.batchId, u.date);
      }
      Commit(outbox, r);
    }

    method Reject(itemId: string, tip: U64, code: int, message: string, date: int) returns (r: Result<(), OutboxError>)
      modifies this
      ensures match RecordRejected(old(persisted), itemId, tip, code, message, date)
        case Ok(t) => r.Ok? && persisted == t
        case Err(e) => r == Err(e) && persisted == old(persisted)
    {
      var outbox := new Outbox(sha, persisted);
      r := outbox.RecordRejected(itemId, tip, code, message, date);
      Commit(outbox, r);
    }

    method Uncertain(itemId: string, error: string, date: int)
      modifies this
      ensures persisted == match RecordUncertain(old(persisted), itemId, error, date) case Ok(t) => t case Err(_) => old(persisted)
    {
      var outbox := new Outbox(sha, persisted);
      var r := outbox.RecordUncertain(itemId, error, date);
      Commit(outbox, r);
    }

    method CancelBeforeSubmission(itemId: string, error: string)
      modifies this
      ensures persisted == match RecordCancelled(old(persisted), itemId, error) case Ok(t) => t case Err(_) => old(persisted)
    {
      var outbox := new Outbox(sha, persisted);
      var r := outbox.RecordCancelled(itemId, error);
      Commit(outbox, r);
    }

    // ----- the channel's updates ------------------------------------------------------------

    /** The outbox now holds what the update specifies, or the specified error was thrown. */
    ghost predicate Done(outbox: Outbox, before: Snapshot, u: Update, r: Result<(), OutboxError>)
      reads outbox
    {
      match Apply(sha, u, before)
      case Ok(t) => r.Ok? && outbox.View() == t
      case Err(e) => r.Err? && r.error == e
    }

    predicate Announces(u: Update) {
      u.VerifiedUpdate? || u.NoticeUpdate? || u.AckReadyUpdate? || u.AckNoticeUpdate? || u.AckCompleteUpdate?
    }

    predicate Removes(u: Update) { u.AckReceiptsUpdate? || u.DiscardUpdate? || u.RevokeUpdate? }

    method Announce(outbox: Outbox, u: Update) returns (r: Result<(), OutboxError>)
      requires Announces(u) && outbox.sha == sha
      modifies outbox
      ensures Done(outbox, old(outbox.View()), u, r)
    {
      r := Ok(());
      if u.VerifiedUpdate? {
        var matched := outbox.RecordVerifiedReadiness(u.network, u.accountUuid, u.runId, u.date);
      } else if u.NoticeUpdate? {
        var marked := outbox.MarkHeightNotice(u.batchId, u.date);
      } else if u.AckReadyUpdate? {
        r := outbox.AcknowledgeProofReady(u.batchId, u.date);
      } else if u.AckNoticeUpdate? {
        r := outbox.AcknowledgeHeightNotice(u.batchId, u.date);
      } else {
        r := outbox.AcknowledgeBroadcastComplete(u.batchId, u.date);
      }
    }

    method Remove(outbox: Outbox, u: Update) returns (r: Result<(), OutboxError>)
      requires Removes(u) && outbox.sha == sha
      modifies outbox
      ensures Done(outbox, old(outbox.View()), u, r)
    {
      r := Ok(());
      if u.AckReceiptsUpdate? {
        outbox.AcknowledgeReceipts(u.ids);
      } else if u.DiscardUpdate? {
        var removed := outbox.DiscardBatch(u.batchId);
        if removed.Err? { r := Err(removed.error); }
      } else {
        outbox.Revoke(u.network, u.accountUuid);
      }
    }

    method StageOrArm(outbox: Outbox, u: Update) returns (r: Result<(), OutboxError>)
      requires (u.StageUpdate? || u.ArmUpdate? || u.RecoverUpdate?) && outbox.sha == sha
      modifies outbox
      ensures Done(outbox, old(outbox.View()), u, r)
    {
      r := Ok(());
      if u.StageUpdate? {
        r := outbox.Stage(u.batch);
      } else if u.ArmUpdate? {
        r := outbox.ArmBatch(u.batchId, u.digests, u.date);
      } else {
        var found := outbox.RecoverBatch(u.batchId, u.network, u.accountUuid, u.runId, u.expected, u.url, u.date);
        if found.Err? { r := Err(found.error); }
      }
    }

    /** Any update that is not the runner's, dispatched to its mutation. */
    method Mutate(outbox: Outbox, u: Update) returns (r: Result<(), OutboxError>)
      requires !ByRunner(u) && !u.RemoveAllUpdate? && outbox.sha == sha
      modifies outbox
      ensures Done(outbox, old(outbox.View()), u, r)
    {
      if Announces(u) {
        r := Announce(outbox, u);
      } else if Removes(u) {
        r := Remove(outbox, u);
      } else {
        r := StageOrArm(outbox, u);
      }
    }

    /** One atomic store update: what the specification stores, and its error when it stores nothing. */
    method Update(u: Update) returns (r: Result<(), OutboxError>)
      requires !ByRunner(u)
      modifies this
      ensures persisted == Stored(sha, u, old(persisted))
      ensures r.Ok? <==> Apply(sha, u, old(persisted)).Ok?
      ensures r.Err? ==> r.error == Apply(sha, u, old(persisted)).error
    {
      if u.RemoveAllUpdate? {
        persisted := EMPTY;
        return Ok(());
      }
      var outbox := new Outbox(sha, persisted);
      r := Mutate(outbox, u);
      Commit(outbox, r);
    }

    // ----- one run ----------------------------------------------------------------------------

    /** The write-ahead of a run that has opened: what is selected at the tip, or why nothing is. `start` is what was stored before the run. */
    method WriteAhead(tip: U64, endpoint: string, verify: bool, attemptId: string, now: int, ghost start: Snapshot)
      returns (selected: Option<Selection>, transport: Transport)
      requires Inv(sha, start) && OutboxUpdates.Open(start, now) == (persisted, Some(endpoint))
      requires Inv(sha, persisted) && NoneSubmitting(persisted)
      modifies this
      ensures Inv(sha, persisted)
      ensures (persisted, selected) == AtSend(start, now, verify, TipAt(tip), false, attemptId)
      ensures selected.Some? <==> Sendable(start, tip, now)
      ensures selected.Some? ==> IsSent(start, tip, now, selected.value)
      ensures selected.None? ==> NoneSubmitting(persisted)
      ensures selected.None? ==> transport == WhyStopped(start, persisted, endpoint, now, TipAt(tip), false)
      ensures selected.Some? ==>
        && OneSubmitting(persisted) && InFlight(persisted, selected.value)
        && selected.value.item.scheduledHeight <= tip && InWindow(selected.value.item, tip)
        && (CanonicalExpiry(tip).Some? ==> Recordable(sha, persisted, selected.value.item.itemId, tip))
    {
      ghost var before := persisted;
      WritesAheadWhatIsSent(sha, start, tip, verify, attemptId, now, endpoint);
      var prepared := Prepare(tip, endpoint, verify, attemptId, now);
      if prepared.Err? { return None, NeedsUserAction; }
      if prepared.value.None? {
        NothingSelected(sha, before, tip, endpoint, verify, attemptId, now, persisted);
        UserIsAskedIf(persisted, tip);
        ActionIsLeftIf(persisted, endpoint);
        if ReportedAtTip(persisted, tip) { return None, NeedsUserAction; }
        return None, if HasNextAction(persisted, endpoint) then Waiting else NoWork;
      }
      selected, transport := prepared.value, Waiting;
      SelectedIsOpen(sha, before, tip, endpoint, verify, attemptId, now, persisted, selected.value);
      if CanonicalExpiry(tip).Some? {
        CheckedIsRecordable(sha, before, tip, endpoint, verify, attemptId, now, persisted, selected.value);
      }
    }

    /** The recovery, the tip, and the write-ahead of one run, or the reason to stop before a send. */
    method BeforeSend(now: int, verify: bool, tip: TipReply, cancelledAtTip: bool, attemptId: string)
      returns (selected: Option<Selection>, transport: Transport)
      requires Inv(sha, persisted)
      modifies this
      ensures Inv(sha, persisted)
      ensures (persisted, selected) == AtSend(old(persisted), now, verify, tip, cancelledAtTip, attemptId)
      ensures selected.Some? <==> GetsToSend(old(persisted), now, tip, cancelledAtTip)
      ensures selected.Some? ==> IsSent(old(persisted), tip.height, now, selected.value)
      ensures selected.None? ==> NoneSubmitting(persisted) && transport != Delivered
      ensures selected.None? ==> Stops(old(persisted), persisted, now, tip, cancelledAtTip, transport) == true
      ensures selected.None? ==> (transport == WasCancelled ==> tip.TipCancelled? || (tip.TipAt? && cancelledAtTip))
      ensures selected.None? ==> (transport == TemporarilyUnavailable ==> tip.TipFailed?)
      ensures selected.Some? ==>
        && OneSubmitting(persisted) && InFlight(persisted, selected.value)
        && selected.value.item.scheduledHeight <= tip.height && InWindow(selected.value.item, tip.height)
        && (CanonicalExpiry(tip.height).Some? ==> Recordable(sha, persisted, selected.value.item.itemId, tip.height))
    {
      OpenKeeps(sha, persisted, now);
      ghost var start := persisted;
      var endpoint := Open(now);
      if endpoint.None? {
        OpensInspected(start, now);
        StopsAt(start, persisted, now, endpoint, tip, cancelledAtTip, NoWork);
        return None, NoWork;
      }
      if tip.TipCancelled? || (tip.TipAt? && cancelledAtTip) {
        StopsAt(start, persisted, now, endpoint, tip, cancelledAtTip, WasCancelled);
        return None, WasCancelled;
      }
      if tip.TipFailed? {
        StopsAt(start, persisted, now, endpoint, tip, cancelledAtTip, TemporarilyUnavailable);
        return None, TemporarilyUnavailable;
      }
      selected, transport := WriteAhead(tip.height, endpoint.value, verify, attemptId, now, start);
      if selected.None? {
        StopsAt(start, persisted, now, endpoint, tip, cancelledAtTip, transport);
      }
    }

    /** Records an answer that accepts; an acceptance that cannot be recorded needs the user. */
    method AfterAcceptance(u: Update) returns (transport: Transport)
      requires Inv(sha, persisted) && OneSubmitting(persisted) && u.AcceptedUpdate? && Locate(persisted, u.itemId, Submitting).Ok?
      modifies this
      ensures Inv(sha, persisted)
      ensures persisted == OrSame(old(persisted), AcceptAndAnnounce(sha, old(persisted), u))
      ensures transport == if AcceptAndAnnounce(sha, old(persisted), u).Ok? then Delivered else NeedsUserAction
      ensures transport == Delivered ==> NoneSubmitting(persisted) && Left(persisted, u.itemId, Accepted)
      ensures Recordable(sha, old(persisted), u.itemId, u.tip) ==> transport == Delivered
    {
      ghost var before := persisted;
      var accepted := Accept(u);
      if accepted.Err? { return NeedsUserAction; }
      AcceptClears(sha, before, u, persisted);
      transport := Delivered;
    }

    /** What the answer to a send leaves in the store, and the outcome of the run. */
    method AfterSend(sel: Selection, tip: U64, reply: SendReply, now: int, random: Random) returns (transport: Transport)
      requires Inv(sha, persisted) && OneSubmitting(persisted) && InFlight(persisted, sel)
      modifies this
      ensures Inv(sha, persisted)
      ensures persisted == AfterAnswer(sha, old(persisted), sel, tip, reply, now, random)
      ensures reply.Failed? ==> NoneSubmitting(persisted) && Left(persisted, sel.item.itemId, Armed)
      ensures reply.Failed? ==> transport == if reply.cancelled then WasCancelled else TemporarilyUnavailable
      ensures reply.Answered? && !reply.Accepts() ==>
        && NoneSubmitting(persisted) && Left(persisted, sel.item.itemId, Rejected) && transport == NeedsUserAction
        && ReportedLast(persisted, sel, RejectedOutcome, tip, reply.code, reply.message, now)
      ensures reply.Accepts() ==> transport == Delivered || transport == NeedsUserAction
      ensures transport == Delivered ==>
        && reply.Accepts() && NoneSubmitting(persisted) && Left(persisted, sel.item.itemId, Accepted)
        && ReportedLast(persisted, sel, OutcomeOf(reply), tip, reply.code, reply.message, now)
      ensures reply.Accepts() && Recordable(sha, old(persisted), sel.item.itemId, tip) ==> transport == Delivered
    {
      var id := sel.item.itemId;
      if reply.Accepts() {
        ghost var before := persisted;
        transport := AfterAcceptance(AcceptanceOf(sel, tip, reply, now, random));
        if transport == Delivered {
          AcceptanceReports(sha, before, AcceptanceOf(sel, tip, reply, now, random), persisted, sel);
        }
      } else if reply.Failed? {
        UncertainClears(sha, persisted, id, reply.error, now);
        Uncertain(id, reply.error, now);
        transport := if reply.cancelled then WasCancelled else TemporarilyUnavailable;
      } else {
        RejectClears(sha, persisted, id, tip, reply.code, reply.message, now);
        RejectionReports(sha, persisted, tip, reply.code, reply.message, now, RecordRejected(persisted, id, tip, reply.code, reply.message, now).value, sel);
        var rejected := Reject(id, tip, reply.code, reply.message, now);
        transport := NeedsUserAction;
      }
    }

    /**
     One run, from the recovery to the recorded answer, over whatever is stored. It sends exactly when it is
     not cancelled, learns a tip, and something stored may be sent at it; then it sends that one item, with
     the payload that was stored. It leaves no submission open, unless an acceptance could not be recorded;
     and when the canonical expiry of the tip does not overflow, every acceptance is recorded.
     */
    method RunOnce(cancelledAtStart: bool, now: int, verify: bool, tip: TipReply, cancelledAtTip: bool, attemptId: string,
                   cancelledBeforeSend: bool, reply: SendReply, random: Random)
      returns (sent: seq<Selection>, transport: Transport)
      requires Inv(sha, persisted)
      modifies this
      ensures Inv(sha, persisted)
      ensures persisted
           == AfterRun(sha, old(persisted), cancelledAtStart, now, verify, tip, cancelledAtTip, attemptId, cancelledBeforeSend, reply, random)
      ensures |sent| <= 1
      ensures sent != [] <==> !cancelledAtStart && !cancelledBeforeSend && GetsToSend(old(persisted), now, tip, cancelledAtTip)
      ensures sent != [] ==> IsSent(old(persisted), tip.height, now, sent[0])
      ensures sent != [] ==> sent[0].item.scheduledHeight <= tip.height && InWindow(sent[0].item, tip.height)
      ensures sent == [] && !cancelledAtStart ==> NoneSubmitting(persisted)
      ensures cancelledAtStart ==> transport == WasCancelled && persisted == old(persisted)
      ensures !cancelledAtStart && !GetsToSend(old(persisted), now, tip, cancelledAtTip) ==>
        Stops(old(persisted), persisted, now, tip, cancelledAtTip, transport) == true
      ensures !cancelledAtStart && cancelledBeforeSend && GetsToSend(old(persisted), now, tip, cancelledAtTip) ==> transport == WasCancelled
      ensures sent != [] && reply.Failed? ==> transport == if reply.cancelled then WasCancelled else TemporarilyUnavailable
      ensures transport == WasCancelled ==>
        || cancelledAtStart || tip.TipCancelled? || (tip.TipAt? && cancelledAtTip)
        || (cancelledBeforeSend && GetsToSend(old(persisted), now, tip, cancelledAtTip))
        || (sent != [] && reply.Failed? && reply.cancelled)
      ensures transport == TemporarilyUnavailable ==> tip.TipFailed? || (sent != [] && reply.Failed? && !reply.cancelled)
      ensures transport == Delivered ==> sent != [] && reply.Accepts()
      ensures sent != [] && reply.Failed? ==> NoneSubmitting(persisted) && Left(persisted, sent[0].item.itemId, Armed)
      ensures sent != [] && reply.Answered? && !reply.Accepts() ==>
        && NoneSubmitting(persisted) && Left(persisted, sent[0].item.itemId, Rejected) && transport == NeedsUserAction
        && ReportedLast(persisted, sent[0], RejectedOutcome, tip.height, reply.code, reply.message, now)
      ensures sent != [] && reply.Accepts() && CanonicalExpiry(tip.height).Some? ==>
        && transport == Delivered && NoneSubmitting(persisted) && Left(persisted, sent[0].item.itemId, Accepted)
        && ReportedLast(persisted, sent[0], if reply.code == 0 then AcceptedOutcome else AcceptedEquivalentOutcome,
                        tip.height, reply.code, reply.message, now)
    {
      if cancelledAtStart { return [], WasCancelled; }
      var selected;
      selected, transport := BeforeSend(now, verify, tip, cancelledAtTip, attemptId);
      if selected.None? { return [], transport; }
      if cancelledBeforeSend {
        CancelClears(sha, persisted, selected.value.item.itemId, CANCELLED_BEFORE_SUBMISSION);
        CancelBeforeSubmission(selected.value.item.itemId, CANCELLED_BEFORE_SUBMISSION);
        return [], WasCancelled;
      }
      sent := [selected.value];
      transport := AfterSend(selected.value, tip.height, reply, now, random);
    }
  }
}
