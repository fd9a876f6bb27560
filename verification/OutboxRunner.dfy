/**
 The runner as a protocol that can stop anywhere. One run recovers, learns the tip of one endpoint,
 writes an attempt ahead, sends, and records the answer; between any two of these steps the channel
 may change the store, and the process may die. Only the store survives a death.
 */
module OutboxRunner {
  import opened Common
  import opened OutboxModel
  import opened Counting
  import opened OutboxInvariant
  import opened OutboxSteps
  import opened OutboxSubmission
  import opened OutboxStaging
  import opened OutboxRemoval
  import opened OutboxUpdates
  import opened OutboxSelection

  /** Where a run stands: what its local variables hold before the next step. */
  datatype Pc =
    | Idle
    | Opened(endpoint: string)
    | AtTip(endpoint: string, tip: U64)
    | Prepared(endpoint: string, tip: U64, sel: Selection)
    | Sending(endpoint: string, tip: U64, sel: Selection)
  {
    predicate Selected() { Prepared? || Sending? }
  }

  /**
   The store and the run, with three history variables that no step reads: the ids of the stored items
   whose payload was handed to `sendTransaction` since they were stored, whether the selected item has
   been stored without a gap since it was selected, and how many times the current run has sent.
   */
  datatype World = World(store: Snapshot, pc: Pc, sent: set<string>, intact: bool, sends: nat)

  const START := World(EMPTY, Idle, {}, false, 0)

  datatype Event =
    | Channel(update: Update)
    | BeginRun(date: int)
    | TipArrives(height: U64)
    | WriteAhead(verify: bool, attemptId: string, date: int)
    | CancelBeforeSend(error: string)
    | Send
    | SendFails(error: string, date: int)
    | Answer(code: int, message: string, alreadyKnown: bool, date: int, random: Random)
    | Stop

  ghost predicate Enabled(sha: Data -> string, w: World, e: Event) {
    match e
    case Channel(u) => !ByRunner(u) && Admissible(u, w.store)
    case BeginRun(_) => w.pc.Idle?
    case TipArrives(_) => w.pc.Opened?
    case WriteAhead(_, _, _) => w.pc.AtTip?
    case CancelBeforeSend(_) => w.pc.Prepared?
    case Send => w.pc.Prepared?
    case SendFails(_, _) => w.pc.Sending?
    case Answer(_, _, _, _, _) => w.pc.Sending?
    case Stop => !w.pc.Idle?
  }

  /** The store update an event makes, if it makes one. */
  ghost function UpdateOf(sha: Data -> string, w: World, e: Event): Option<Update>
    requires Enabled(sha, w, e)
  {
    match e
    case Channel(u) => Some(u)
    case BeginRun(date) => Some(OpenUpdate(date))
    case WriteAhead(verify, attemptId, date) => Some(PrepareUpdate(w.pc.tip, w.pc.endpoint, verify, attemptId, date))
    case CancelBeforeSend(error) => Some(CancelledUpdate(w.pc.sel.item.itemId, error))
    case SendFails(error, date) => Some(UncertainUpdate(w.pc.sel.item.itemId, error, date))
    case Answer(code, message, alreadyKnown, date, random) =>
      if code == 0 || alreadyKnown
      then Some(AcceptedUpdate(w.pc.sel.item.itemId, w.pc.sel.batchId, code != 0, w.pc.tip, code, message, date, random))
      else Some(RejectedUpdate(w.pc.sel.item.itemId, w.pc.tip, code, message, date))
    case TipArrives(_) => None
    case Send => None
    case Stop => None
  }

  ghost function NextPc(sha: Data -> string, w: World, e: Event): Pc
    requires Enabled(sha, w, e)
  {
    match e
    case Channel(_) => w.pc
    case BeginRun(date) =>
      (match Open(w.store, date).1 case Some(endpoint) => Opened(endpoint) case None => Idle)
    case TipArrives(height) => AtTip(w.pc.endpoint, height)
    case WriteAhead(verify, attemptId, date) =>
      (match Prepare(w.store, w.pc.tip, w.pc.endpoint, verify, attemptId, date)
       case Ok(done) => (match done.1 case Some(sel) => Prepared(w.pc.endpoint, w.pc.tip, sel) case None => Idle)
       case Err(_) => Idle)
    case Send => Sending(w.pc.endpoint, w.pc.tip, w.pc.sel)
    case _ => Idle
  }

  ghost predicate IsStored(s: Snapshot, itemId: string) { CountAll(ById(itemId), s.batches) > 0 }

  ghost function NextStore(sha: Data -> string, w: World, e: Event): Snapshot
    requires Enabled(sha, w, e)
  {
    match UpdateOf(sha, w, e) case Some(u) => Stored(sha, u, w.store) case None => w.store
  }

  /** The next world, once the next store and the next position are known. */
  ghost function Next(w: World, e: Event, store: Snapshot, pc: Pc): World
    requires e.Send? ==> w.pc.Prepared?
  {
    var sent := if e.Send? && w.intact then w.sent + {w.pc.sel.item.itemId} else w.sent;
    World(store, pc,
          (set id | id in sent && IsStored(store, id)),
          pc.Selected() && (e.WriteAhead? || w.intact) && IsStored(store, pc.sel.item.itemId),
          if e.BeginRun? then 0 else if e.Send? then w.sends + 1 else w.sends)
  }

  ghost function Step(sha: Data -> string, w: World, e: Event): World
    requires Enabled(sha, w, e)
  {
    Next(w, e, NextStore(sha, w, e), NextPc(sha, w, e))
  }

  // ----- what every world satisfies ----------------------------------------------------------

  /** Evidence that no cancellation can take back. */
  ghost predicate Solid(it: Item) { it.attemptCount > 0 || it.status == Accepted || it.status == Rejected }

  /** Every stored item with one of these ids is on record as possibly broadcast. */
  ghost predicate Evidenced(s: Snapshot, ids: set<string>, solid: bool) {
    forall i, j :: 0 <= i < |s.batches| && 0 <= j < |s.batches[i].items| && s.batches[i].items[j].itemId in ids
                   ==> if solid then Solid(s.batches[i].items[j]) else Attempted(s.batches[i].items[j])
  }

  /** At most one item is being submitted. */
  ghost predicate OneSubmitting(s: Snapshot) {
    forall i, j, k, l :: 0 <= i < |s.batches| && 0 <= j < |s.batches[i].items| && s.batches[i].items[j].status == Submitting
                         && 0 <= k < |s.batches| && 0 <= l < |s.batches[k].items| && s.batches[k].items[l].status == Submitting
                         ==> i == k && j == l
  }

  /** The stored item with the selected id carries the evidence that was selected, payload included. */
  ghost predicate Faithful(s: Snapshot, sel: Selection) {
    forall i, j :: 0 <= i < |s.batches| && 0 <= j < |s.batches[i].items| && s.batches[i].items[j].itemId == sel.item.itemId
                   ==> SameEvidence(sel.item, s.batches[i].items[j])
  }

  /** Broadcast only inside the window: due, not expired, and with the canonical expiry of the tip. */
  ghost predicate InSchedule(pc: Pc)
    requires pc.Selected()
  {
    && pc.sel.item.scheduledHeight <= pc.tip
    && InWindow(pc.sel.item, pc.tip)
    && pc.sel.url == pc.endpoint
  }

  ghost predicate SendsAtMostOnce(w: World) {
    && w.sends <= 1
    && (w.pc.Opened? || w.pc.AtTip? || w.pc.Prepared? ==> w.sends == 0)
  }

  ghost predicate SentIsOnRecord(w: World) {
    && (forall id :: id in w.sent ==> IsStored(w.store, id))
    && Evidenced(w.store, w.sent, false)
    && (w.pc.Opened? || w.pc.AtTip? || w.pc.Prepared? ==> Evidenced(w.store, w.sent, true))
  }

  ghost predicate FlightIsOnRecord(w: World) {
    w.intact ==>
      && w.pc.Selected()
      && IsStored(w.store, w.pc.sel.item.itemId)
      && Evidenced(w.store, {w.pc.sel.item.itemId}, false)
      && Faithful(w.store, w.pc.sel)
  }

  ghost predicate Safe(sha: Data -> string, w: World) {
    && Inv(sha, w.store)
    && OneSubmitting(w.store)
    && (w.pc.Opened? || w.pc.AtTip? ==> NoneSubmitting(w.store))
    && SentIsOnRecord(w)
    && FlightIsOnRecord(w)
    && (w.pc.Selected() ==> InSchedule(w.pc))
    && SendsAtMostOnce(w)
  }

  // ----- what one store update does to the evidence -------------------------------------------

  /** An item whose id was stored before the update follows the item that carried it. */
  lemma Tracked(s: Snapshot, t: Snapshot, exempt: Exempt, k: nat, l: nat) returns (i: nat, j: nat)
    requires Descends(s, t, exempt) && k < |t.batches| && l < |t.batches[k].items|
    requires IsStored(s, t.batches[k].items[l].itemId)
    ensures i < |s.batches| && j < |s.batches[i].items| && Follows(s.batches[i].items[j], t.batches[k].items[l], exempt)
  {
    assert Inherits(s, t.batches[k].batchId, t.batches[k].items[l], exempt);
    i, j :| 0 <= i < |s.batches| && 0 <= j < |s.batches[i].items|
      && s.batches[i].batchId == t.batches[k].batchId && Follows(s.batches[i].items[j], t.batches[k].items[l], exempt);
  }

  lemma EvidenceStep(s: Snapshot, t: Snapshot, exempt: Exempt, ids: set<string>, solid: bool)
    requires Descends(s, t, exempt) && Evidenced(s, ids, solid)
    requires forall id :: id in ids ==> IsStored(s, id)
    requires exempt.Cancels? ==> solid
    ensures Evidenced(t, ids, solid)
  {
    forall k, l | 0 <= k < |t.batches| && 0 <= l < |t.batches[k].items| && t.batches[k].items[l].itemId in ids
      ensures if solid then Solid(t.batches[k].items[l]) else Attempted(t.batches[k].items[l])
    {
      var i, j := Tracked(s, t, exempt, k, l);
    }
  }

  lemma FaithfulStep(s: Snapshot, t: Snapshot, exempt: Exempt, sel: Selection)
    requires Descends(s, t, exempt) && Faithful(s, sel) && IsStored(s, sel.item.itemId)
    ensures Faithful(t, sel)
  {
    forall k, l | 0 <= k < |t.batches| && 0 <= l < |t.batches[k].items| && t.batches[k].items[l].itemId == sel.item.itemId
      ensures SameEvidence(sel.item, t.batches[k].items[l])
    {
      var i, j := Tracked(s, t, exempt, k, l);
    }
  }

  /** Nothing but the beginning of a submission starts one. */
  lemma SubmittingBefore(s: Snapshot, t: Snapshot, exempt: Exempt, k: nat, l: nat) returns (i: nat, j: nat)
    requires Descends(s, t, exempt) && k < |t.batches| && l < |t.batches[k].items|
    requires t.batches[k].items[l].status == Submitting && exempt != Begins(t.batches[k].items[l].itemId)
    ensures i < |s.batches| && j < |s.batches[i].items| && s.batches[i].items[j].status == Submitting
    ensures s.batches[i].items[j].itemId == t.batches[k].items[l].itemId
  {
    assert Inherits(s, t.batches[k].batchId, t.batches[k].items[l], exempt);
    i, j :| 0 <= i < |s.batches| && 0 <= j < |s.batches[i].items|
      && s.batches[i].batchId == t.batches[k].batchId && Follows(s.batches[i].items[j], t.batches[k].items[l], exempt);
  }

  lemma OneSubmittingStep(s: Snapshot, t: Snapshot, exempt: Exempt)
    requires Descends(s, t, exempt) && UniqueItems(t.batches)
    requires OneSubmitting(s) && (exempt.Begins? ==> NoneSubmitting(s))
    ensures OneSubmitting(t)
    ensures NoneSubmitting(s) && !exempt.Begins? ==> NoneSubmitting(t)
  {
    forall i, j, k, l | 0 <= i < |t.batches| && 0 <= j < |t.batches[i].items| && t.batches[i].items[j].status == Submitting
                        && 0 <= k < |t.batches| && 0 <= l < |t.batches[k].items| && t.batches[k].items[l].status == Submitting
      ensures i == k && j == l
    {
      if exempt != Begins(t.batches[i].items[j].itemId) {
        var a, b := SubmittingBefore(s, t, exempt, i, j);
        var c, d := SubmittingBefore(s, t, exempt, k, l);
      } else if exempt != Begins(t.batches[k].items[l].itemId) {
        var c, d := SubmittingBefore(s, t, exempt, k, l);
      }
      SamePosition(t.batches, i, j, k, l);
    }
    if NoneSubmitting(s) && !exempt.Begins? {
      forall k, l | 0 <= k < |t.batches| && 0 <= l < |t.batches[k].items| ensures t.batches[k].items[l].status != Submitting {
        if t.batches[k].items[l].status == Submitting {
          var a, b := SubmittingBefore(s, t, exempt, k, l);
        }
      }
    }
  }

  lemma SolidWhenNoneSubmitting(s: Snapshot, ids: set<string>)
    requires NoneSubmitting(s) && Evidenced(s, ids, false)
    ensures Evidenced(s, ids, true)
  {
  }

  // ----- the write-ahead ----------------------------------------------------------------------

  /** After a write-ahead that selected: the selected item is stored as submitting, with the evidence to be sent. */
  lemma WriteAheadFacts(sha: Data -> string, s: Snapshot, tip: U64, endpoint: string, verify: bool, attemptId: string, date: int)
    requires Inv(sha, s) && Prepare(s, tip, endpoint, verify, attemptId, date).Ok?
    requires Prepare(s, tip, endpoint, verify, attemptId, date).value.1.Some?
    ensures var done := Prepare(s, tip, endpoint, verify, attemptId, date).value;
      var sel := done.1.value;
      && InSchedule(Prepared(endpoint, tip, sel))
      && IsStored(done.0, sel.item.itemId)
      && Evidenced(done.0, {sel.item.itemId}, false)
      && Faithful(done.0, sel)
  {
    var t := Select(s, tip, endpoint, verify, date).0;
    var i, j := SelectionIsDue(sha, s, tip, endpoint, verify, date);
    PrepareKeeps(sha, s, tip, endpoint, verify, attemptId, date);
    var done := Prepare(s, tip, endpoint, verify, attemptId, date).value;
    BegunFacts(sha, t, (i, j), attemptId, date, done.1.value, done.0);
  }

  lemma BegunFacts(sha: Data -> string, t: Snapshot, at: (nat, nat), attemptId: string, date: int, sel: Selection, u: Snapshot)
    requires at.0 < |t.batches| && at.1 < |t.batches[at.0].items| && sel.item == ItemAt(t, at)
    requires BeginSubmission(t, sel.item.itemId, attemptId, date) == Ok(u) && Inv(sha, u)
    requires ItemLocation(t.batches, sel.item.itemId) == Some(at)
    ensures IsStored(u, sel.item.itemId) && Evidenced(u, {sel.item.itemId}, false) && Faithful(u, sel)
  {
    CountAllPresent(ById(sel.item.itemId), u.batches, at.0, at.1);
    forall k, l | 0 <= k < |u.batches| && 0 <= l < |u.batches[k].items| && u.batches[k].items[l].itemId == sel.item.itemId
      ensures Attempted(u.batches[k].items[l]) && SameEvidence(sel.item, u.batches[k].items[l])
    {
      SamePosition(u.batches, at.0, at.1, k, l);
    }
  }

  // ----- every step is safe -------------------------------------------------------------------

  lemma WriteAheadExempt(sha: Data -> string, s: Snapshot, u: Update, prepared: Result<(Snapshot, Option<Selection>), OutboxError>)
    requires u.PrepareUpdate? && prepared == Prepare(s, u.tip, u.endpoint, u.verify, u.attemptId, u.date) && prepared.Ok?
    ensures ExemptOf(sha, u, s) == if prepared.value.1.Some? then Begins(prepared.value.1.value.item.itemId) else Nobody
  {
  }

  /** What the store part of any event guarantees; only the write-ahead that selected an item begins its submission. */
  lemma StoreStep(sha: Data -> string, w: World, e: Event, store: Snapshot, pc: Pc) returns (exempt: Exempt)
    requires Inv(sha, w.store) && Enabled(sha, w, e) && store == NextStore(sha, w, e) && pc == NextPc(sha, w, e)
    ensures Inv(sha, store) && Descends(w.store, store, exempt)
    ensures exempt.Cancels? ==> e.CancelBeforeSend?
    ensures exempt.Begins? ==> e.WriteAhead? && pc.Prepared? && pc.sel.item.itemId == exempt.itemId
  {
    if UpdateOf(sha, w, e).None? {
      exempt := Nobody;
      FollowsItself(w.store, Nobody);
    } else if e.WriteAhead? {
      exempt := WriteAheadStoreStep(sha, w, e, store, pc);
    } else {
      var u := UpdateOf(sha, w, e).value;
      UpdateKeeps(sha, w.store, u);
      exempt := ExemptOf(sha, u, w.store);
    }
  }

  lemma WriteAheadStoreStep(sha: Data -> string, w: World, e: Event, store: Snapshot, pc: Pc) returns (exempt: Exempt)
    requires Inv(sha, w.store) && Enabled(sha, w, e) && e.WriteAhead?
    requires store == NextStore(sha, w, e) && pc == NextPc(sha, w, e)
    ensures Inv(sha, store) && Descends(w.store, store, exempt)
    ensures exempt == if pc.Prepared? then Begins(pc.sel.item.itemId) else Nobody
  {
    var u := PrepareUpdate(w.pc.tip, w.pc.endpoint, e.verify, e.attemptId, e.date);
    var prepared := Prepare(w.store, w.pc.tip, w.pc.endpoint, e.verify, e.attemptId, e.date);
    WriteAheadStep(sha, w, e, u, prepared);
    WriteAheadPc(sha, w, e, prepared);
    if prepared.Ok? {
      UpdateKeeps(sha, w.store, u);
      WriteAheadExempt(sha, w.store, u, prepared);
      exempt := ExemptOf(sha, u, w.store);
    } else {
      exempt := Nobody;
      FollowsItself(w.store, Nobody);
    }
  }

  /** How the position moves, whatever the store holds. */
  ghost predicate Moves(w: World, e: Event, pc: Pc) {
    match e
    case Channel(_) => pc == w.pc
    case BeginRun(_) => w.pc.Idle? && (pc.Idle? || pc.Opened?)
    case TipArrives(_) => w.pc.Opened? && pc.AtTip?
    case WriteAhead(_, _, _) => w.pc.AtTip? && (pc.Idle? || pc.Prepared?)
    case CancelBeforeSend(_) => w.pc.Prepared? && pc.Idle?
    case Send => w.pc.Prepared? && pc == Sending(w.pc.endpoint, w.pc.tip, w.pc.sel)
    case SendFails(_, _) => pc.Idle?
    case Answer(_, _, _, _, _) => pc.Idle?
    case Stop => pc.Idle?
  }

  lemma StepMoves(sha: Data -> string, w: World, e: Event, pc: Pc)
    requires Enabled(sha, w, e) && pc == NextPc(sha, w, e)
    ensures Moves(w, e, pc)
  {
  }

  lemma SentStep(w: World, e: Event, store: Snapshot, pc: Pc, exempt: Exempt)
    requires SentIsOnRecord(w) && FlightIsOnRecord(w) && Moves(w, e, pc)
    requires Descends(w.store, store, exempt) && (exempt.Cancels? ==> e.CancelBeforeSend?)
    requires e.BeginRun? ==> NoneSubmitting(store)
    ensures SentIsOnRecord(Next(w, e, store, pc))
  {
    var t := Next(w, e, store, pc);
    var firm := w.pc.Opened? || w.pc.AtTip? || w.pc.Prepared?;
    EvidenceStep(w.store, store, exempt, w.sent, firm);
    if e.Send? && w.intact {
      EvidenceStep(w.store, store, exempt, {w.pc.sel.item.itemId}, false);
    }
    if e.BeginRun? {
      SolidWhenNoneSubmitting(store, t.sent);
    }
  }

  lemma FlightStep(w: World, e: Event, store: Snapshot, pc: Pc, exempt: Exempt)
    requires FlightIsOnRecord(w) && Moves(w, e, pc) && !e.WriteAhead?
    requires Descends(w.store, store, exempt) && (exempt.Cancels? ==> e.CancelBeforeSend?)
    ensures FlightIsOnRecord(Next(w, e, store, pc))
  {
    if Next(w, e, store, pc).intact {
      EvidenceStep(w.store, store, exempt, {w.pc.sel.item.itemId}, false);
      FaithfulStep(w.store, store, exempt, w.pc.sel);
    }
  }

  lemma WriteAheadStore(sha: Data -> string, w: World, e: Event, u: Update, prepared: Result<(Snapshot, Option<Selection>), OutboxError>)
    requires w.pc.AtTip? && e.WriteAhead? && u == PrepareUpdate(w.pc.tip, w.pc.endpoint, e.verify, e.attemptId, e.date)
    requires prepared == Prepare(w.store, w.pc.tip, w.pc.endpoint, e.verify, e.attemptId, e.date)
    ensures Apply(sha, u, w.store) == Written(prepared)
  {
  }

  lemma WriteAheadPc(sha: Data -> string, w: World, e: Event, prepared: Result<(Snapshot, Option<Selection>), OutboxError>)
    requires w.pc.AtTip? && e.WriteAhead?
    requires prepared == Prepare(w.store, w.pc.tip, w.pc.endpoint, e.verify, e.attemptId, e.date)
    ensures NextPc(sha, w, e)
         == if prepared.Ok? && prepared.value.1.Some? then Prepared(w.pc.endpoint, w.pc.tip, prepared.value.1.value) else Idle
  {
  }

  lemma StoredResult(sha: Data -> string, u: Update, s: Snapshot, r: Result<Snapshot, OutboxError>)
    requires r == Apply(sha, u, s)
    ensures Stored(sha, u, s) == if r.Ok? then r.value else s
  {
  }

  /** The write-ahead in terms of what the runner's second update returned. */
  lemma WriteAheadStep(sha: Data -> string, w: World, e: Event, u: Update, prepared: Result<(Snapshot, Option<Selection>), OutboxError>)
    requires w.pc.AtTip? && e.WriteAhead? && u == PrepareUpdate(w.pc.tip, w.pc.endpoint, e.verify, e.attemptId, e.date)
    requires prepared == Prepare(w.store, w.pc.tip, w.pc.endpoint, e.verify, e.attemptId, e.date)
    ensures Stored(sha, u, w.store) == if prepared.Ok? then prepared.value.0 else w.store
  {
    WriteAheadStore(sha, w, e, u, prepared);
    StoredResult(sha, u, w.store, Written(prepared));
  }

  lemma WriteAheadFlight(sha: Data -> string, w: World, e: Event, prepared: Result<(Snapshot, Option<Selection>), OutboxError>, store: Snapshot, pc: Pc)
    requires Inv(sha, w.store) && w.pc.AtTip? && e.WriteAhead?
    requires prepared == Prepare(w.store, w.pc.tip, w.pc.endpoint, e.verify, e.attemptId, e.date)
    requires store == if prepared.Ok? then prepared.value.0 else w.store
    requires pc == if prepared.Ok? && prepared.value.1.Some? then Prepared(w.pc.endpoint, w.pc.tip, prepared.value.1.value) else Idle
    ensures FlightIsOnRecord(Next(w, e, store, pc)) && (pc.Selected() ==> InSchedule(pc))
  {
    if prepared.Ok? && prepared.value.1.Some? {
      WriteAheadFacts(sha, w.store, w.pc.tip, w.pc.endpoint, e.verify, e.attemptId, e.date);
    }
  }

  lemma AssembleSafe(sha: Data -> string, w: World, e: Event, store: Snapshot, pc: Pc, exempt: Exempt)
    requires Safe(sha, w) && Moves(w, e, pc)
    requires Inv(sha, store) && Descends(w.store, store, exempt)
    requires exempt.Cancels? ==> e.CancelBeforeSend?
    requires exempt.Begins? ==> e.WriteAhead?
    requires e.BeginRun? ==> NoneSubmitting(store)
    requires e.WriteAhead? ==> FlightIsOnRecord(Next(w, e, store, pc)) && (pc.Selected() ==> InSchedule(pc))
    ensures Safe(sha, Next(w, e, store, pc))
  {
    OneSubmittingStep(w.store, store, exempt);
    SentStep(w, e, store, pc, exempt);
    if !e.WriteAhead? {
      FlightStep(w, e, store, pc, exempt);
    }
  }

  lemma WriteAheadIsSafe(sha: Data -> string, w: World, e: Event, store: Snapshot, pc: Pc)
    requires Inv(sha, w.store) && Enabled(sha, w, e) && e.WriteAhead?
    requires store == NextStore(sha, w, e) && pc == NextPc(sha, w, e)
    ensures FlightIsOnRecord(Next(w, e, store, pc)) && (pc.Selected() ==> InSchedule(pc))
  {
    var prepared := Prepare(w.store, w.pc.tip, w.pc.endpoint, e.verify, e.attemptId, e.date);
    WriteAheadStep(sha, w, e, PrepareUpdate(w.pc.tip, w.pc.endpoint, e.verify, e.attemptId, e.date), prepared);
    WriteAheadPc(sha, w, e, prepared);
    WriteAheadFlight(sha, w, e, prepared, store, pc);
  }

  lemma BeginRunStore(sha: Data -> string, w: World, e: Event)
    requires Enabled(sha, w, e) && e.BeginRun?
    ensures NextStore(sha, w, e) == Open(w.store, e.date).0
  {
    OpenStored(sha, w.store, e.date);
    assert UpdateOf(sha, w, e) == Some(OpenUpdate(e.date));
  }

  lemma OpenStored(sha: Data -> string, s: Snapshot, date: int)
    ensures Stored(sha, OpenUpdate(date), s) == Open(s, date).0
  {
  }

  lemma BeginRunIsSafe(sha: Data -> string, w: World, e: Event, store: Snapshot)
    requires Inv(sha, w.store) && Enabled(sha, w, e) && e.BeginRun? && store == NextStore(sha, w, e)
    ensures NoneSubmitting(store)
  {
    BeginRunStore(sha, w, e);
    OpenKeeps(sha, w.store, e.date);
  }

  /** Every event, from every safe world, leads to a safe world. */
  lemma StepIsSafe(sha: Data -> string, w: World, e: Event, store: Snapshot, pc: Pc)
    requires Safe(sha, w) && Enabled(sha, w, e)
    requires store == NextStore(sha, w, e) && pc == NextPc(sha, w, e)
    ensures Safe(sha, Next(w, e, store, pc))
  {
    var exempt := StoreStep(sha, w, e, store, NextPc(sha, w, e));
    StepMoves(sha, w, e, pc);
    if e.BeginRun? {
      BeginRunIsSafe(sha, w, e, store);
    }
    if e.WriteAhead? {
      WriteAheadIsSafe(sha, w, e, store, pc);
    }
    AssembleSafe(sha, w, e, store, pc, exempt);
  }

  ghost predicate IsExecution(sha: Data -> string, worlds: seq<World>, events: seq<Event>) {
    && |worlds| == |events| + 1
    && worlds[0] == START
    && forall n :: 0 <= n < |events| ==> Enabled(sha, worlds[n], events[n]) && worlds[n + 1] == Step(sha, worlds[n], events[n])
  }

  lemma {:induction false} ReachableIsSafe(sha: Data -> string, worlds: seq<World>, events: seq<Event>, n: nat)
    requires IsExecution(sha, worlds, events) && n < |worlds|
    ensures Safe(sha, worlds[n])
  {
    if n == 0 {
      EmptyInv(sha);
    } else {
      ReachableIsSafe(sha, worlds, events, n - 1);
      StepIsSafe(sha, worlds[n - 1], events[n - 1], worlds[n].store, worlds[n].pc);
    }
  }

  // ----- write-ahead evidence survives --------------------------------------------------------

  /** An item on record is reported as attempted, and its batch cannot be discarded. */
  ghost predicate OnRecord(s: Snapshot, i: nat, j: nat)
    requires i < |s.batches| && j < |s.batches[i].items|
  {
    var b := s.batches[i];
    && b.items[j].txid in AttemptedTxids(s, b.network, b.accountUuid, b.runId)
    && DiscardBatch(s, b.batchId) == Err(ConflictingBatch)
  }

  lemma AttemptedIsOnRecord(sha: Data -> string, s: Snapshot, i: nat, j: nat)
    requires Inv(sha, s) && i < |s.batches| && j < |s.batches[i].items| && Attempted(s.batches[i].items[j])
    ensures OnRecord(s, i, j)
  {
    var b, it := s.batches[i], s.batches[i].items[j];
    BatchFinds(s.batches, i);
    assert b in s.batches && it in b.items && b.BelongsTo(b.network, b.accountUuid, b.runId);
    if it.attemptCount == 0 && it.status != Submitting {
      var m := ItemHasReceipt(s, i, j);
      assert s.receipts[m] in s.receipts && s.receipts[m].batchId == b.batchId;
    }
  }

  ghost predicate StoredThroughout(worlds: seq<World>, m: nat, n: nat, itemId: string)
    requires m <= n < |worlds|
  {
    forall k :: m <= k <= n ==> IsStored(worlds[k].store, itemId)
  }

  lemma {:induction false} SentStays(sha: Data -> string, worlds: seq<World>, events: seq<Event>, m: nat, n: nat, itemId: string)
    requires IsExecution(sha, worlds, events) && m <= n < |worlds|
    requires itemId in worlds[m].sent && StoredThroughout(worlds, m, n, itemId)
    ensures itemId in worlds[n].sent
  {
    if m < n {
      SentStays(sha, worlds, events, m, n - 1, itemId);
      assert worlds[n] == Step(sha, worlds[n - 1], events[n - 1]);
      assert IsStored(worlds[n].store, itemId);
    }
  }

  /** A write-ahead that selected, and the send that follows it with only channel calls between. */
  ghost predicate WrittenThenSent(worlds: seq<World>, events: seq<Event>, p: nat, m: nat, sel: Selection) {
    && p < m < |events| && |worlds| == |events| + 1
    && events[p].WriteAhead? && worlds[p + 1].pc.Prepared? && worlds[p + 1].pc.sel == sel
    && events[m].Send?
    && forall k :: p < k < m ==> events[k].Channel?
  }

  /** Between the write-ahead and the send, the selected item stays in flight while it stays stored. */
  lemma {:induction false} StaysPrepared(sha: Data -> string, worlds: seq<World>, events: seq<Event>, p: nat, m: nat, k: nat, sel: Selection)
    requires IsExecution(sha, worlds, events) && WrittenThenSent(worlds, events, p, m, sel) && p < k <= m
    requires StoredThroughout(worlds, p + 1, k, sel.item.itemId)
    ensures worlds[k].pc == worlds[p + 1].pc && worlds[k].intact
  {
    assert IsStored(worlds[k].store, sel.item.itemId);
    assert worlds[k] == Step(sha, worlds[k - 1], events[k - 1]);
    if k > p + 1 {
      StaysPrepared(sha, worlds, events, p, m, k - 1, sel);
    }
  }

  ghost function Stores(worlds: seq<World>): (r: seq<Snapshot>)
    ensures |r| == |worlds| && forall k :: 0 <= k < |worlds| ==> r[k] == worlds[k].store
  {
    seq(|worlds|, k requires 0 <= k < |worlds| => worlds[k].store)
  }

  lemma StepIsLink(sha: Data -> string, w: World, e: Event, store: Snapshot)
    requires Inv(sha, w.store) && Enabled(sha, w, e) && store == NextStore(sha, w, e)
    ensures Link(sha, w.store, store)
  {
    var exempt := StoreStep(sha, w, e, store, NextPc(sha, w, e));
  }

  /** The stores of an execution are linked just as those of a run of updates. */
  lemma ExecutionIsLinked(sha: Data -> string, worlds: seq<World>, events: seq<Event>)
    requires IsExecution(sha, worlds, events)
    ensures Linked(sha, Stores(worlds))
  {
    forall n | 0 <= n < |worlds| ensures Inv(sha, worlds[n].store) { ReachableIsSafe(sha, worlds, events, n); }
    forall n | 0 <= n < |events| ensures Link(sha, worlds[n].store, worlds[n + 1].store) {
      ReachableIsSafe(sha, worlds, events, n);
      StepIsLink(sha, worlds[n], events[n], worlds[n + 1].store);
    }
  }

  /** An item that stays stored keeps the evidence that was selected. */
  lemma {:induction false} StaysFaithful(sha: Data -> string, stores: seq<Snapshot>, m: nat, n: nat, sel: Selection)
    requires Linked(sha, stores) && m <= n < |stores|
    requires Faithful(stores[m], sel) && forall k :: m <= k <= n ==> IsStored(stores[k], sel.item.itemId)
    ensures Faithful(stores[n], sel)
  {
    if m < n {
      StaysFaithful(sha, stores, m, n - 1, sel);
      LinkBefore(sha, stores, n);
      FaithfulLink(sha, stores[n - 1], stores[n], sel);
    }
  }

  lemma FaithfulLink(sha: Data -> string, s: Snapshot, t: Snapshot, sel: Selection)
    requires Link(sha, s, t) && Faithful(s, sel) && IsStored(s, sel.item.itemId)
    ensures Faithful(t, sel)
  {
    var exempt :| Descends(s, t, exempt);
    FaithfulStep(s, t, exempt, sel);
  }

  lemma SentAfterSend(sha: Data -> string, worlds: seq<World>, events: seq<Event>, p: nat, m: nat, sel: Selection)
    requires IsExecution(sha, worlds, events) && WrittenThenSent(worlds, events, p, m, sel)
    requires StoredThroughout(worlds, p + 1, m + 1, sel.item.itemId)
    ensures sel.item.itemId in worlds[m + 1].sent && Faithful(worlds[m + 1].store, sel)
  {
    StaysPrepared(sha, worlds, events, p, m, m, sel);
    assert worlds[m + 1] == Step(sha, worlds[m], events[m]);
    assert IsStored(worlds[m + 1].store, sel.item.itemId);
    ReachableIsSafe(sha, worlds, events, m + 1);
  }

  /**
   Write-ahead evidence survives any crash. Take a write-ahead that selected an item, and the send that
   follows it, anywhere in any execution. While the item stays stored from the write-ahead on, then
   after the send, whatever else happens (a death at any point, further runs, any channel call), the
   stored item is reported as attempted, its batch cannot be discarded, and it carries the payload sent.
   */
  lemma WriteAheadSurvives(sha: Data -> string, worlds: seq<World>, events: seq<Event>, p: nat, m: nat, n: nat, sel: Selection,
                           s: Snapshot, i: nat, j: nat)
    requires IsExecution(sha, worlds, events) && WrittenThenSent(worlds, events, p, m, sel)
    requires m < n < |worlds| && StoredThroughout(worlds, p + 1, n, sel.item.itemId)
    requires s == worlds[n].store && i < |s.batches| && j < |s.batches[i].items| && s.batches[i].items[j].itemId == sel.item.itemId
    ensures OnRecord(s, i, j)
    ensures s.batches[i].items[j].raw == sel.item.raw
  {
    SentAfterSend(sha, worlds, events, p, m, sel);
    SentStays(sha, worlds, events, m + 1, n, sel.item.itemId);
    ExecutionIsLinked(sha, worlds, events);
    StaysFaithful(sha, Stores(worlds), m + 1, n, sel);
    ReachableIsSafe(sha, worlds, events, n);
    AttemptedIsOnRecord(sha, s, i, j);
  }

  /** What is sent is the payload of the stored item, and it is on record before it leaves. */
  lemma SendIsRecordedFirst(sha: Data -> string, worlds: seq<World>, events: seq<Event>, m: nat, i: nat, j: nat)
    requires IsExecution(sha, worlds, events) && m < |events| && events[m].Send? && worlds[m].intact
    requires i < |worlds[m].store.batches| && j < |worlds[m].store.batches[i].items|
    requires worlds[m].store.batches[i].items[j].itemId == worlds[m].pc.sel.item.itemId
    ensures OnRecord(worlds[m].store, i, j)
    ensures worlds[m].store.batches[i].items[j].raw == worlds[m].pc.sel.item.raw
    ensures worlds[m].store.batches[i].items[j].txid == worlds[m].pc.sel.item.txid
  {
    ReachableIsSafe(sha, worlds, events, m);
    AttemptedIsOnRecord(sha, worlds[m].store, i, j);
  }

  lemma NoBatchNoReceipts(sha: Data -> string, s: Snapshot, batchId: string)
    requires Inv(sha, s) && forall i :: 0 <= i < |s.batches| ==> s.batches[i].batchId != batchId
    ensures forall r :: r in s.receipts ==> r.batchId != batchId
    ensures BatchIndex(s.batches, batchId) == |s.batches|
  {
    forall r | r in s.receipts ensures r.batchId != batchId {
      var i, j := ReceiptHasItem(s, r);
    }
  }

  // ----- one send, in its window --------------------------------------------------------------

  lemma {:induction false} SendsRemembered(sha: Data -> string, worlds: seq<World>, events: seq<Event>, m: nat, n: nat)
    requires IsExecution(sha, worlds, events) && m < n < |worlds| && events[m].Send?
    requires forall k :: m < k < n ==> !events[k].BeginRun?
    ensures worlds[n].sends > 0
  {
    assert worlds[n] == Step(sha, worlds[n - 1], events[n - 1]);
    if n > m + 1 {
      SendsRemembered(sha, worlds, events, m, n - 1);
    }
  }

  /** Two sends belong to two runs. */
  lemma OneSendPerRun(sha: Data -> string, worlds: seq<World>, events: seq<Event>, m: nat, n: nat)
    requires IsExecution(sha, worlds, events) && m < n < |events| && events[m].Send? && events[n].Send?
    ensures exists k :: m < k < n && events[k].BeginRun?
  {
    if forall k :: m < k < n ==> !events[k].BeginRun? {
      SendsRemembered(sha, worlds, events, m, n);
      ReachableIsSafe(sha, worlds, events, n);
      assert false;
    }
  }

  /** Every send is due, unexpired and canonical at the tip its run learned, and the only submission stored is one item. */
  lemma EverySendIsInWindow(sha: Data -> string, worlds: seq<World>, events: seq<Event>, n: nat)
    requires IsExecution(sha, worlds, events) && n < |events| && events[n].Send?
    ensures var pc := worlds[n].pc;
      && pc.sel.item.scheduledHeight <= pc.tip < pc.sel.item.expiryHeight
      && (CanonicalExpiry(pc.tip).Some? ==> pc.sel.item.expiryHeight == CanonicalExpiry(pc.tip).value)
      && pc.sel.url == pc.endpoint
    ensures OneSubmitting(worlds[n].store)
  {
    ReachableIsSafe(sha, worlds, events, n);
  }

  // ----- after the answer ---------------------------------------------------------------------

  /**
   When nothing changed the store since the write-ahead, recording an acceptance cannot fail: the run
   never learns after a broadcast that the peers cannot be rescheduled, whatever is drawn.
   */
  lemma AcceptanceCannotFail(sha: Data -> string, w: World, e: Event, prepared: (Snapshot, Option<Selection>), equivalent: bool, code: int,
                             message: string, later: int, random: Random)
    requires Safe(sha, w) && w.pc.AtTip? && e.WriteAhead? && CanonicalExpiry(w.pc.tip).Some?
    requires Prepare(w.store, w.pc.tip, w.pc.endpoint, e.verify, e.attemptId, e.date) == Ok(prepared)
    requires prepared.1.Some?
    ensures RecordAccepted(sha, prepared.0, prepared.1.value.item.itemId, equivalent, w.pc.tip, code, message, later, random).Ok?
  {
    CheckIsExactOnRunnerPath(sha, w.store, w.pc.tip, w.pc.endpoint, e.verify, e.date, e.attemptId, equivalent, code, message, later, random);
  }

  /** Nothing armed of the batch at this position is due at the tip. */
  ghost predicate NothingDue(s: Snapshot, i: nat, tip: U64)
    requires i < |s.batches|
  {
    forall j :: 0 <= j < |s.batches[i].items| && s.batches[i].items[j].status == Armed ==> tip < s.batches[i].items[j].scheduledHeight
  }

  lemma MarkCompleteKeepsItems(s: Snapshot, batchId: string, date: int, i: nat)
    requires i < |s.batches|
    ensures i < |MarkBroadcastComplete(s, batchId, date).0.batches|
    ensures MarkBroadcastComplete(s, batchId, date).0.batches[i].items == s.batches[i].items
  {
  }

  /** Right after a recorded acceptance no armed item of that batch is still due at that tip. */
  lemma AnswerClearsTip(sha: Data -> string, s: Snapshot, u: Update)
    requires Inv(sha, s) && u.AcceptedUpdate? && AcceptAndAnnounce(sha, s, u).Ok?
    ensures var t := AcceptAndAnnounce(sha, s, u).value;
      var at := Locate(s, u.itemId, Submitting).value;
      && at.0 < |t.batches| && at.1 < |t.batches[at.0].items|
      && t.batches[at.0].items[at.1].status == Accepted
      && NothingDue(t, at.0, u.tip)
  {
    AcceptanceClearsTip(sha, s, u.itemId, u.equivalent, u.tip, u.code, u.message, u.date, u.random);
    var t := RecordAccepted(sha, s, u.itemId, u.equivalent, u.tip, u.code, u.message, u.date, u.random).value;
    MarkCompleteKeepsItems(t, u.batchId, u.date, Locate(s, u.itemId, Submitting).value.0);
  }
}
