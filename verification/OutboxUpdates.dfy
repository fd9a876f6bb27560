/**
 The atomic store updates: each channel call and each of the runner's combined updates, as one step
 that either replaces the stored snapshot or, when the mutation throws, leaves it alone.
 */
module OutboxUpdates {
  import opened Common
  import opened OutboxModel
  import opened Counting
  import opened OutboxInvariant
  import opened OutboxSteps
  import opened OutboxSubmission
  import opened OutboxStaging
  import opened OutboxRemoval

  datatype Update =
    // the channel and the notification callbacks
    | StageUpdate(batch: Batch)
    | ArmUpdate(batchId: string, digests: map<string, string>, date: int)
    | RecoverUpdate(batchId: string, network: string, accountUuid: string, runId: string, expected: set<string>, url: string, date: int)
    | VerifiedUpdate(network: string, accountUuid: string, runId: string, date: int)
    | NoticeUpdate(batchId: string, date: int)
    | AckReadyUpdate(batchId: string, date: int)
    | AckNoticeUpdate(batchId: string, date: int)
    | AckCompleteUpdate(batchId: string, date: int)
    | AckReceiptsUpdate(ids: set<ReceiptId>)
    | DiscardUpdate(batchId: string)
    | RevokeUpdate(network: string, accountUuid: string)
    | RemoveAllUpdate
    // the runner
    | OpenUpdate(date: int)
    | PrepareUpdate(tip: U64, endpoint: string, verify: bool, attemptId: string, date: int)
    | CancelledUpdate(itemId: string, error: string)
    | UncertainUpdate(itemId: string, error: string, date: int)
    | AcceptedUpdate(itemId: string, batchId: string, equivalent: bool, tip: U64, code: int, message: string, date: int, random: Random)
    | RejectedUpdate(itemId: string, tip: U64, code: int, message: string, date: int)

  predicate ByRunner(u: Update) {
    u.OpenUpdate? || u.PrepareUpdate? || u.CancelledUpdate? || u.UncertainUpdate? || u.AcceptedUpdate? || u.RejectedUpdate?
  }

  /** The runner's first update: recover an interrupted submission, then pick the endpoint to inspect. */
  function Open(s: Snapshot, date: int): (Snapshot, Option<string>) {
    NextEndpoint(RecoverInterrupted(s, date))
  }

  function Swept(s: Snapshot, tip: U64, endpoint: string, date: int): Snapshot {
    MarkDueItemsNeedingResign(ExpireItems(s, tip, endpoint, date), tip, endpoint, date)
  }

  /** The sweeps, the proof announcement and the selection, before the selected item is checked. */
  function Select(s: Snapshot, tip: U64, endpoint: string, verify: bool, date: int): (Snapshot, Option<Selection>) {
    var swept := Swept(s, tip, endpoint, date);
    SelectDue(if verify then swept else MarkProofReady(swept, tip, endpoint, date), tip, Some(endpoint), date)
  }

  /** The runner's second update: sweep, select, check, and write the attempt ahead of the broadcast. */
  function Prepare(s: Snapshot, tip: U64, endpoint: string, verify: bool, attemptId: string, date: int)
    : Result<(Snapshot, Option<Selection>), OutboxError>
  {
    var (selected, selection) := Select(s, tip, endpoint, verify, date);
    if selection.None? then Ok((selected, None))
    else
      match ValidateRescheduling(selected, selection.value.item.itemId, tip)
      case Err(e) => Err(e)
      case Ok(_) =>
        match BeginSubmission(selected, selection.value.item.itemId, attemptId, date)
        case Err(e) => Err(e)
        case Ok(begun) => Ok((begun, selection))
  }

  /** The runner's last update after an acceptance. */
  function AcceptAndAnnounce(sha: Data -> string, s: Snapshot, u: Update): Result<Snapshot, OutboxError>
    requires u.AcceptedUpdate?
  {
    match RecordAccepted(sha, s, u.itemId, u.equivalent, u.tip, u.code, u.message, u.date, u.random)
    case Err(e) => Err(e)
    case Ok(t) => Ok(MarkBroadcastComplete(t, u.batchId, u.date).0)
  }

  function First<A, B>(r: Result<(A, B), OutboxError>): Result<A, OutboxError> {
    match r
    case Err(e) => Err(e)
    case Ok(pair) => Ok(pair.0)
  }

  function Written(r: Result<(Snapshot, Option<Selection>), OutboxError>): Result<Snapshot, OutboxError> {
    if r.Ok? then Ok(r.value.0) else Err(r.error)
  }

  /** What a call of the channel or a notification callback does. */
  function ApplyChannel(sha: Data -> string, u: Update, s: Snapshot): Result<Snapshot, OutboxError>
    requires !ByRunner(u)
  {
    match u
    case StageUpdate(b) => Stage(sha, s, b)
    case ArmUpdate(id, digests, date) => ArmBatch(s, id, digests, date)
    case RecoverUpdate(id, n, a, r, expected, url, date) => First(RecoverBatch(s, id, n, a, r, expected, url, date))
    case VerifiedUpdate(n, a, r, date) => Ok(RecordVerifiedReadiness(s, n, a, r, date).0)
    case NoticeUpdate(id, date) => Ok(MarkHeightNotice(s, id, date).0)
    case AckReadyUpdate(id, date) => AcknowledgeProofReady(s, id, date)
    case AckNoticeUpdate(id, date) => AcknowledgeHeightNotice(s, id, date)
    case AckCompleteUpdate(id, date) => AcknowledgeBroadcastComplete(s, id, date)
    case AckReceiptsUpdate(ids) => Ok(AcknowledgeReceipts(s, ids))
    case DiscardUpdate(id) => First(DiscardBatch(s, id))
    case RevokeUpdate(n, a) => Ok(Revoke(s, n, a))
    case RemoveAllUpdate => Ok(EMPTY)
  }

  /** What an update of the runner does. */
  function ApplyRunner(sha: Data -> string, u: Update, s: Snapshot): Result<Snapshot, OutboxError>
    requires ByRunner(u)
  {
    match u
    case OpenUpdate(date) => Ok(Open(s, date).0)
    case PrepareUpdate(tip, endpoint, verify, attemptId, date) => Written(Prepare(s, tip, endpoint, verify, attemptId, date))
    case CancelledUpdate(id, error) => RecordCancelled(s, id, error)
    case UncertainUpdate(id, error, date) => RecordUncertain(s, id, error, date)
    case AcceptedUpdate(_, _, _, _, _, _, _, _) => AcceptAndAnnounce(sha, s, u)
    case RejectedUpdate(id, tip, code, message, date) => RecordRejected(s, id, tip, code, message, date)
  }

  function Apply(sha: Data -> string, u: Update, s: Snapshot): Result<Snapshot, OutboxError> {
    if ByRunner(u) then ApplyRunner(sha, u, s) else ApplyChannel(sha, u, s)
  }

  /** What is stored afterwards: a mutation that throws writes nothing. */
  function Stored(sha: Data -> string, u: Update, s: Snapshot): Snapshot {
    match Apply(sha, u, s) case Ok(t) => t case Err(_) => s
  }

  /** What callers provide: batches as the channel decodes them, with item ids that are free. */
  ghost predicate Admissible(u: Update, s: Snapshot) {
    u.StageUpdate? ==> FromChannel(u.batch) && IdsFree(s, u.batch)
  }

  function ExemptOf(sha: Data -> string, u: Update, s: Snapshot): Exempt {
    match u
    case CancelledUpdate(id, _) => Cancels(id)
    case PrepareUpdate(tip, endpoint, verify, _, date) =>
      (match Select(s, tip, endpoint, verify, date).1 case Some(sel) => Begins(sel.item.itemId) case None => Nobody)
    case _ => Nobody
  }

  // ----- the combined updates ---------------------------------------------------------------

  lemma SameBatches(sha: Data -> string, s: Snapshot, t: Snapshot)
    requires Inv(sha, s) && t.batches == s.batches && t.receipts == s.receipts && t.announced == s.announced
    ensures Keeps(sha, s, t, Nobody)
  {
    AlignedSelf(s);
    forall i | 0 <= i < |t.batches| ensures BatchOk(sha, Announced(t), t.batches[i]) {
      assert BatchOk(sha, Announced(s), s.batches[i]);
    }
  }

  lemma KeepsTrans(sha: Data -> string, s: Snapshot, t: Snapshot, u: Snapshot, exempt: Exempt)
    requires Keeps(sha, s, t, Nobody) && Keeps(sha, t, u, exempt)
    ensures Keeps(sha, s, u, exempt)
  {
    AlignedTrans(s, t, u, exempt);
  }

  lemma OpenKeeps(sha: Data -> string, s: Snapshot, date: int)
    requires Inv(sha, s)
    ensures Keeps(sha, s, Open(s, date).0, Nobody)
    ensures NoneSubmitting(Open(s, date).0)
  {
    var r := RecoverInterrupted(s, date);
    RecoverInterruptedKeeps(sha, s, date);
    SameBatches(sha, r, Open(s, date).0);
    KeepsTrans(sha, s, r, Open(s, date).0, Nobody);
  }

  ghost predicate NoneSubmitting(s: Snapshot) {
    forall i, j :: 0 <= i < |s.batches| && 0 <= j < |s.batches[i].items| ==> s.batches[i].items[j].status != Submitting
  }

  lemma SweptKeeps(sha: Data -> string, s: Snapshot, tip: U64, endpoint: string, date: int)
    requires Inv(sha, s)
    ensures Keeps(sha, s, Swept(s, tip, endpoint, date), Nobody)
  {
    var e := ExpireItems(s, tip, endpoint, date);
    SweepKeeps(sha, s, ExpirySweep(tip), endpoint, date);
    MarkDueKeeps(sha, e, tip, endpoint, date);
    KeepsTrans(sha, s, e, Swept(s, tip, endpoint, date), Nobody);
  }

  lemma SelectKeeps(sha: Data -> string, s: Snapshot, tip: U64, endpoint: string, verify: bool, date: int)
    requires Inv(sha, s)
    ensures Keeps(sha, s, Select(s, tip, endpoint, verify, date).0, Nobody)
  {
    var swept := Swept(s, tip, endpoint, date);
    var marked := if verify then swept else MarkProofReady(swept, tip, endpoint, date);
    SweptKeeps(sha, s, tip, endpoint, date);
    SameBatches(sha, swept, swept);
    MarkProofReadyKeeps(sha, swept, tip, endpoint, date);
    KeepsTrans(sha, s, swept, marked, Nobody);
    SameBatches(sha, marked, Select(s, tip, endpoint, verify, date).0);
    KeepsTrans(sha, s, marked, Select(s, tip, endpoint, verify, date).0, Nobody);
  }

  lemma PrepareKeeps(sha: Data -> string, s: Snapshot, tip: U64, endpoint: string, verify: bool, attemptId: string, date: int)
    requires Inv(sha, s) && Prepare(s, tip, endpoint, verify, attemptId, date).Ok?
    ensures var selection := Select(s, tip, endpoint, verify, date).1;
      Keeps(sha, s, Prepare(s, tip, endpoint, verify, attemptId, date).value.0,
            if selection.Some? then Begins(selection.value.item.itemId) else Nobody)
  {
    var (selected, selection) := Select(s, tip, endpoint, verify, date);
    SelectKeeps(sha, s, tip, endpoint, verify, date);
    if selection.Some? {
      BeginKeeps(sha, selected, selection.value.item.itemId, attemptId, date);
      var begun := BeginSubmission(selected, selection.value.item.itemId, attemptId, date).value;
      KeepsTrans(sha, s, selected, begun, Begins(selection.value.item.itemId));
    }
  }

  lemma AcceptKeeps(sha: Data -> string, s: Snapshot, u: Update, t: Snapshot)
    requires Inv(sha, s) && u.AcceptedUpdate? && AcceptAndAnnounce(sha, s, u) == Ok(t)
    ensures Keeps(sha, s, t, Nobody)
  {
    AcceptedKeeps(sha, s, u.itemId, u.equivalent, u.tip, u.code, u.message, u.date, u.random);
    var accepted := RecordAccepted(sha, s, u.itemId, u.equivalent, u.tip, u.code, u.message, u.date, u.random).value;
    MarkCompleteKeeps(sha, accepted, u.batchId, u.date);
    KeepsTrans(sha, s, accepted, t, Nobody);
  }

  lemma AcceptUpdateKeeps(sha: Data -> string, s: Snapshot, u: Update)
    requires Inv(sha, s) && u.AcceptedUpdate? && Apply(sha, u, s).Ok?
    ensures Keeps(sha, s, Apply(sha, u, s).value, Nobody)
  {
    AcceptKeeps(sha, s, u, Apply(sha, u, s).value);
  }

  lemma PrepareUpdateKeeps(sha: Data -> string, s: Snapshot, u: Update, t: Snapshot)
    requires Inv(sha, s) && u.PrepareUpdate? && Apply(sha, u, s) == Ok(t)
    ensures Keeps(sha, s, t, ExemptOf(sha, u, s))
  {
    var r := Prepare(s, u.tip, u.endpoint, u.verify, u.attemptId, u.date);
    PreparedIs(sha, s, u, t, r);
    var selection := Select(s, u.tip, u.endpoint, u.verify, u.date).1;
    PreparedKeeps(sha, s, u.tip, u.endpoint, u.verify, u.attemptId, u.date, r, selection);
    assert ExemptOf(sha, u, s) == Beginning(selection);
  }

  function Beginning(selection: Option<Selection>): Exempt {
    if selection.Some? then Begins(selection.value.item.itemId) else Nobody
  }

  lemma PreparedKeeps(sha: Data -> string, s: Snapshot, tip: U64, endpoint: string, verify: bool, attemptId: string, date: int,
                      r: Result<(Snapshot, Option<Selection>), OutboxError>, selection: Option<Selection>)
    requires Inv(sha, s) && r == Prepare(s, tip, endpoint, verify, attemptId, date) && r.Ok?
    requires selection == Select(s, tip, endpoint, verify, date).1
    ensures Keeps(sha, s, r.value.0, Beginning(selection))
  {
    PrepareKeeps(sha, s, tip, endpoint, verify, attemptId, date);
  }

  lemma PreparedIs(sha: Data -> string, s: Snapshot, u: Update, t: Snapshot, r: Result<(Snapshot, Option<Selection>), OutboxError>)
    requires u.PrepareUpdate? && Apply(sha, u, s) == Ok(t) && r == Prepare(s, u.tip, u.endpoint, u.verify, u.attemptId, u.date)
    ensures r.Ok? && r.value.0 == t
  {
    AppliedPrepare(sha, s, u.tip, u.endpoint, u.verify, u.attemptId, u.date, r);
  }

  lemma AppliedPrepare(sha: Data -> string, s: Snapshot, tip: U64, endpoint: string, verify: bool, attemptId: string, date: int,
                       r: Result<(Snapshot, Option<Selection>), OutboxError>)
    requires r == Prepare(s, tip, endpoint, verify, attemptId, date)
    ensures Apply(sha, PrepareUpdate(tip, endpoint, verify, attemptId, date), s) == Written(r)
  {
  }

  lemma AnswerKeeps(sha: Data -> string, s: Snapshot, u: Update, t: Snapshot)
    requires Inv(sha, s) && Apply(sha, u, s) == Ok(t)
    requires u.CancelledUpdate? || u.UncertainUpdate? || u.RejectedUpdate?
    ensures Keeps(sha, s, t, ExemptOf(sha, u, s))
  {
    if u.CancelledUpdate? {
      CancelledKeeps(sha, s, u.itemId, u.error);
    } else if u.UncertainUpdate? {
      UncertainKeeps(sha, s, u.itemId, u.error, u.date);
    } else {
      RejectedKeeps(sha, s, u.itemId, u.tip, u.code, u.message, u.date);
    }
  }

  lemma OpenUpdateKeeps(sha: Data -> string, s: Snapshot, u: Update, t: Snapshot)
    requires Inv(sha, s) && u.OpenUpdate? && Apply(sha, u, s) == Ok(t)
    ensures Keeps(sha, s, t, Nobody)
  {
    OpenKeeps(sha, s, u.date);
  }

  lemma RunnerKeeps(sha: Data -> string, s: Snapshot, u: Update, t: Snapshot)
    requires Inv(sha, s) && ByRunner(u) && Apply(sha, u, s) == Ok(t)
    ensures Keeps(sha, s, t, ExemptOf(sha, u, s))
  {
    if u.OpenUpdate? {
      OpenUpdateKeeps(sha, s, u, t);
    } else if u.PrepareUpdate? {
      PrepareUpdateKeeps(sha, s, u, t);
    } else if u.AcceptedUpdate? {
      AcceptUpdateKeeps(sha, s, u);
    } else {
      AnswerKeeps(sha, s, u, t);
    }
  }

  lemma AlignedUpdate(sha: Data -> string, s: Snapshot, u: Update)
    requires Inv(sha, s) && Apply(sha, u, s).Ok?
    requires u.ArmUpdate? || u.RecoverUpdate? || u.VerifiedUpdate? || u.NoticeUpdate? || u.AckReadyUpdate? || u.AckNoticeUpdate?
    ensures Keeps(sha, s, Apply(sha, u, s).value, Nobody)
  {
    match u
    case ArmUpdate(id, digests, date) => ArmKeeps(sha, s, id, digests, date);
    case RecoverUpdate(id, n, a, r, expected, url, date) => RecoverBatchKeeps(sha, s, id, n, a, r, expected, url, date);
    case VerifiedUpdate(n, a, r, date) => VerifiedKeeps(sha, s, n, a, r, date);
    case NoticeUpdate(id, date) => HeightNoticeKeeps(sha, s, id, date);
    case AckReadyUpdate(id, date) => AckProofReadyKeeps(sha, s, id, date);
    case AckNoticeUpdate(id, date) => AckHeightNoticeKeeps(sha, s, id, date);
  }

  lemma EmptyInv(sha: Data -> string)
    ensures Inv(sha, EMPTY)
  {
  }

  /**
   One atomic update, whatever it is: the invariant holds afterwards, in particular receipts and items
   awaiting reconciliation still correspond one to one, and every stored item either follows an old one
   or is fresh.
   */
  lemma UpdateKeeps(sha: Data -> string, s: Snapshot, u: Update)
    requires Inv(sha, s) && Admissible(u, s)
    ensures Inv(sha, Stored(sha, u, s)) && Descends(s, Stored(sha, u, s), ExemptOf(sha, u, s))
  {
    var exempt := ExemptOf(sha, u, s);
    if Apply(sha, u, s).Err? {
      AlignedSelf(s);
      FollowsItself(s, exempt);
    } else if ByRunner(u) {
      RunnerKeeps(sha, s, u, Stored(sha, u, s));
      AlignedDescends(s, Stored(sha, u, s), exempt);
    } else {
      match u
      case StageUpdate(b) => StageKeeps(sha, s, b);
      case AckCompleteUpdate(id, date) => AckCompleteKeeps(sha, s, id, date);
      case AckReceiptsUpdate(ids) => AcknowledgeKeeps(sha, s, ids);
      case DiscardUpdate(id) => DiscardKeeps(sha, s, id);
      case RevokeUpdate(n, a) => RevokeKeeps(sha, s, n, a);
      case RemoveAllUpdate => EmptyInv(sha);
      case _ =>
        AlignedUpdate(sha, s, u);
        AlignedDescends(s, Stored(sha, u, s), Nobody);
    }
  }

  lemma FollowsItself(s: Snapshot, exempt: Exempt)
    ensures Descends(s, s, exempt)
  {
    forall k, l | 0 <= k < |s.batches| && 0 <= l < |s.batches[k].items|
      ensures Inherits(s, s.batches[k].batchId, s.batches[k].items[l], exempt)
    {
      assert Follows(s.batches[k].items[l], s.batches[k].items[l], exempt);
    }
  }

  /** Every snapshot reachable from the empty one, by any sequence of updates, satisfies the invariant. */
  ghost predicate IsRun(sha: Data -> string, states: seq<Snapshot>, updates: seq<Update>) {
    && |states| == |updates| + 1
    && states[0] == EMPTY
    && forall n :: 0 <= n < |updates| ==>
         Admissible(updates[n], states[n]) && states[n + 1] == Stored(sha, updates[n], states[n])
  }

  lemma {:induction false} RunKeeps(sha: Data -> string, states: seq<Snapshot>, updates: seq<Update>, n: nat)
    requires IsRun(sha, states, updates) && n < |states|
    ensures Inv(sha, states[n])
  {
    if n == 0 {
      EmptyInv(sha);
    } else {
      RunKeeps(sha, states, updates, n - 1);
      UpdateKeeps(sha, states[n - 1], updates[n - 1]);
    }
  }

  /** In every reachable snapshot a listed receipt still has its raw transaction, and each one stands for its own item. */
  lemma ReceiptsReconcile(sha: Data -> string, states: seq<Snapshot>, updates: seq<Update>, n: nat)
    requires IsRun(sha, states, updates) && n < |states|
    ensures forall r :: r in states[n].receipts ==> ReceiptPayload(states[n], r).Some?
    ensures forall a, b :: 0 <= a < b < |states[n].receipts| ==> states[n].receipts[a].itemId != states[n].receipts[b].itemId
    ensures forall d: Debt :: CountAll(ByDebt(d), states[n].batches) == CountReceipts(d, states[n].receipts)
  {
    RunKeeps(sha, states, updates, n);
    var s := states[n];
    forall r | r in s.receipts ensures ReceiptPayload(s, r).Some? { ListedReceiptHasPayload(sha, s, r); }
    forall a, b | 0 <= a < b < |s.receipts| ensures s.receipts[a].itemId != s.receipts[b].itemId { ReceiptsDistinct(s, a, b); }
  }

  // ----- evidence ---------------------------------------------------------------------------

  /** What one update guarantees, without the update. */
  ghost predicate Link(sha: Data -> string, s: Snapshot, t: Snapshot) {
    Inv(sha, s) && Inv(sha, t) && exists exempt :: Descends(s, t, exempt)
  }

  ghost predicate Linked(sha: Data -> string, states: seq<Snapshot>) {
    && (forall n :: 0 <= n < |states| ==> Inv(sha, states[n]))
    && (forall m, n :: 0 <= m < n < |states| && n == m + 1 ==> Link(sha, states[m], states[n]))
  }

  lemma RunIsLinked(sha: Data -> string, states: seq<Snapshot>, updates: seq<Update>)
    requires IsRun(sha, states, updates)
    ensures Linked(sha, states)
  {
    forall n | 0 <= n < |states| ensures Inv(sha, states[n]) { RunKeeps(sha, states, updates, n); }
    forall m, n | 0 <= m < n < |states| && n == m + 1 ensures Link(sha, states[m], states[n]) {
      UpdateKeeps(sha, states[m], updates[m]);
    }
  }

  lemma LinkBefore(sha: Data -> string, states: seq<Snapshot>, n: nat)
    requires Linked(sha, states) && 0 < n < |states|
    ensures Link(sha, states[n - 1], states[n]) && UniqueItems(states[n].batches)
  {
  }

  ghost predicate Holds(s: Snapshot, batchId: string, it: Item) {
    exists i, j :: 0 <= i < |s.batches| && 0 <= j < |s.batches[i].items|
      && s.batches[i].batchId == batchId && s.batches[i].items[j] == it
  }

  lemma HeldOnce(s: Snapshot, a: string, x: Item, b: string, y: Item)
    requires UniqueItems(s.batches) && Holds(s, a, x) && Holds(s, b, y) && x.itemId == y.itemId
    ensures a == b && x == y
  {
    var i, j :| 0 <= i < |s.batches| && 0 <= j < |s.batches[i].items| && s.batches[i].batchId == a && s.batches[i].items[j] == x;
    var k, l :| 0 <= k < |s.batches| && 0 <= l < |s.batches[k].items| && s.batches[k].batchId == b && s.batches[k].items[l] == y;
    SamePosition(s.batches, i, j, k, l);
  }

  ghost predicate SameRecord(it: Item, after: Item) {
    SameEvidence(it, after) && it.attemptCount <= after.attemptCount
  }

  /** An item stored under an id that was stored before follows the item that carried the id. */
  lemma Ancestor(sha: Data -> string, s: Snapshot, t: Snapshot, batchId: string, after: Item) returns (it: Item)
    requires Link(sha, s, t) && Holds(t, batchId, after)
    requires CountAll(ById(after.itemId), s.batches) > 0
    ensures Holds(s, batchId, it) && SameRecord(it, after)
  {
    var exempt :| Descends(s, t, exempt);
    var k, l :| 0 <= k < |t.batches| && 0 <= l < |t.batches[k].items| && t.batches[k].batchId == batchId && t.batches[k].items[l] == after;
    assert Inherits(s, t.batches[k].batchId, t.batches[k].items[l], exempt);
    var p, q :| 0 <= p < |s.batches| && 0 <= q < |s.batches[p].items|
      && s.batches[p].batchId == t.batches[k].batchId && Follows(s.batches[p].items[q], t.batches[k].items[l], exempt);
    it := s.batches[p].items[q];
  }

  ghost predicate HeldThroughout(states: seq<Snapshot>, m: nat, n: nat, id: string)
    requires m <= n < |states|
  {
    forall x :: m <= x <= n ==> CountAll(ById(id), states[x].batches) > 0
  }

  lemma RecordTrans(it: Item, between: Item, after: Item)
    requires SameRecord(it, between) && SameRecord(between, after)
    ensures SameRecord(it, after)
  {
  }

  lemma {:induction false} LinkedEvidence(sha: Data -> string, states: seq<Snapshot>, m: nat, n: nat,
                                          first: string, it: Item, last: string, after: Item)
    requires Linked(sha, states) && m <= n < |states|
    requires Holds(states[m], first, it) && Holds(states[n], last, after) && it.itemId == after.itemId
    requires HeldThroughout(states, m, n, it.itemId)
    ensures first == last && SameRecord(it, after)
    decreases n
  {
    if m == n {
      HeldOnce(states[n], first, it, last, after);
    } else {
      var k := n - 1;
      LinkBefore(sha, states, n);
      var between := Ancestor(sha, states[k], states[n], last, after);
      assert HeldThroughout(states, m, k, it.itemId);
      LinkedEvidence(sha, states, m, k, first, it, last, between);
      RecordTrans(it, between, after);
    }
  }

  /**
   Delivery evidence over any stretch of a run: an item held under the same id in two snapshots, with
   the id stored in every snapshot between them, is in the same batch with the same evidence, and its
   attempt count never fell.
   */
  lemma EvidenceIsImmutable(sha: Data -> string, states: seq<Snapshot>, updates: seq<Update>, m: nat, n: nat,
                            first: string, it: Item, last: string, after: Item)
    requires IsRun(sha, states, updates) && m <= n < |states|
    requires Holds(states[m], first, it) && Holds(states[n], last, after) && it.itemId == after.itemId
    requires HeldThroughout(states, m, n, it.itemId)
    ensures first == last && SameEvidence(it, after) && it.attemptCount <= after.attemptCount
  {
    RunIsLinked(sha, states, updates);
    LinkedEvidence(sha, states, m, n, first, it, last, after);
  }
}
