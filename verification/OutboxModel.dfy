/**
 The data of the background broadcast outbox, and every snapshot mutation as a function from one
 snapshot to the next. A mutation that throws is an `Err`; the store then keeps the old snapshot.
 */
module OutboxModel {
  import opened Common
  import opened StringOrder

  type Data = seq<Byte>

  datatype ItemStatus =
    | Staged
    | Armed
    | Submitting
    | Accepted
    | Rejected
    | Expired
    | NeedsResign

  datatype Outcome =
    | AcceptedOutcome
    | AcceptedEquivalentOutcome
    | RejectedOutcome
    | ExpiredOutcome
    | NeedsResignOutcome

  datatype OutboxError =
    | InvalidBatch
    | ConflictingBatch
    | BatchNotFound
    | ItemNotFound
    | InvalidArmRequest
    | InvalidTransition
    | InvalidSchedule

  datatype Item = Item(
    itemId: string,
    partIndex: nat,
    txid: string,
    raw: Data,
    digest: string,
    anchorHeight: U64,
    scheduledHeight: U64,
    scheduleStartHeight: U64,
    expiryHeight: U64,
    status: ItemStatus,
    attemptCount: nat,
    attemptId: Option<string>,
    attemptStartedAt: Option<int>,
    nextAttemptAt: Option<int>,
    lastError: Option<string>)

  datatype Batch = Batch(
    batchId: string,
    network: string,
    accountUuid: string,
    runId: string,
    url: string,
    timingMean: U64,
    timingMax: U64,
    createdAt: int,
    armedAt: Option<int>,
    nextProofHeight: Option<U64>,
    readyPendingAt: Option<int>,
    readyNotifiedAt: Option<int>,
    noticePendingAt: Option<int>,
    noticedAt: Option<int>,
    completePendingAt: Option<int>,
    completeNotifiedAt: Option<int>,
    items: seq<Item>)
  {
    function ScopeKey(): string { network + ":" + accountUuid }

    predicate AwaitsProofReadyAnnouncement() {
      readyNotifiedAt.None?
      && (readyPendingAt.Some? || noticedAt.None? || noticePendingAt.Some?)
    }

    predicate BelongsTo(network: string, accountUuid: string, runId: string) {
      this.network == network && this.accountUuid == accountUuid && this.runId == runId
    }
  }

  datatype ScheduleUpdate = ScheduleUpdate(itemId: string, scheduledHeight: U64, scheduleStartHeight: U64)

  datatype ReceiptId = ReceiptId(batchId: string, itemId: string, outcome: Outcome)

  datatype Receipt = Receipt(
    batchId: string,
    itemId: string,
    network: string,
    accountUuid: string,
    runId: string,
    txid: string,
    outcome: Outcome,
    remoteHeight: U64,
    responseCode: Option<int>,
    responseMessage: Option<string>,
    recordedAt: int,
    scheduleUpdates: seq<ScheduleUpdate>)
  {
    function Id(): ReceiptId { ReceiptId(batchId, itemId, outcome) }
  }

  datatype Selection = Selection(batchId: string, accountUuid: string, scopeKey: string, url: string, item: Item)

  datatype Snapshot = Snapshot(
    batches: seq<Batch>,
    receipts: seq<Receipt>,
    lastScope: Option<string>,
    lastEndpoint: Option<string>,
    announced: Option<seq<string>>)

  const EMPTY := Snapshot([], [], None, None, None)

  /** What the random source hands out: a reordering of each list, and the raw delay of each draw. */
  datatype Randomness = Randomness(shuffle: seq<nat> -> seq<nat>, draw: nat -> nat)
  {
    ghost predicate Shuffles() {
      forall s: seq<nat> :: multiset(shuffle(s)) == multiset(s)
    }
  }

  type Random = r: Randomness | r.Shuffles() witness Randomness((s: seq<nat>) => s, (n: nat) => n)

  /** The initializer of an item: staged, never attempted, digest computed from the payload. */
  function NewItem(sha: Data -> string, itemId: string, partIndex: nat, txid: string, raw: Data,
                   anchor: U64, scheduled: U64, start: U64, expiry: U64): Item
  {
    Item(itemId, partIndex, txid, raw, sha(raw), anchor, scheduled, start, expiry,
         Staged, 0, None, None, None, None)
  }

  // ----- lookups ---------------------------------------------------------------------------

  function BatchIndex(batches: seq<Batch>, batchId: string): (i: nat)
    ensures i <= |batches|
    ensures i < |batches| ==> batches[i].batchId == batchId
    ensures forall j :: 0 <= j < i ==> batches[j].batchId != batchId
  {
    if batches == [] then 0
    else
      var i := BatchIndex(batches[..|batches| - 1], batchId);
      assert forall j :: 0 <= j < |batches| - 1 ==> batches[..|batches| - 1][j] == batches[j];
      if i < |batches| - 1 || batches[|batches| - 1].batchId == batchId then i else |batches|
  }

  function ItemIndex(items: seq<Item>, itemId: string): (i: nat)
    ensures i <= |items|
    ensures i < |items| ==> items[i].itemId == itemId
    ensures forall j :: 0 <= j < i ==> items[j].itemId != itemId
  {
    if items == [] then 0
    else
      var i := ItemIndex(items[..|items| - 1], itemId);
      assert forall j :: 0 <= j < |items| - 1 ==> items[..|items| - 1][j] == items[j];
      if i < |items| - 1 || items[|items| - 1].itemId == itemId then i else |items|
  }

  /** The first position, batch by batch, that holds the item id. */
  function ItemLocation(batches: seq<Batch>, itemId: string): (r: Option<(nat, nat)>)
    ensures r.Some? ==>
      && r.value.0 < |batches|
      && r.value.1 < |batches[r.value.0].items|
      && batches[r.value.0].items[r.value.1].itemId == itemId
      && r.value.1 == ItemIndex(batches[r.value.0].items, itemId)
      && (forall b :: 0 <= b < r.value.0 ==> ItemIndex(batches[b].items, itemId) == |batches[b].items|)
    ensures r.None? ==>
      forall b :: 0 <= b < |batches| ==> ItemIndex(batches[b].items, itemId) == |batches[b].items|
  {
    if batches == [] then None
    else
      var front := batches[..|batches| - 1];
      assert forall j :: 0 <= j < |front| ==> front[j] == batches[j];
      var last := batches[|batches| - 1];
      match ItemLocation(front, itemId)
      case Some(at) => Some(at)
      case None =>
        if ItemIndex(last.items, itemId) < |last.items|
        then Some((|batches| - 1, ItemIndex(last.items, itemId)))
        else None
  }

  predicate HasSubmitting(items: seq<Item>) {
    exists it :: it in items && it.status == Submitting
  }

  predicate HasArmed(items: seq<Item>) {
    exists it :: it in items && it.status == Armed
  }

  /** Among the batches that match, the first one that no other match precedes by (rank, batch id). */
  function BestBatch(batches: seq<Batch>, matches: Batch -> bool, rank: Batch -> nat): (r: Option<nat>)
    ensures r.Some? ==> r.value < |batches| && matches(batches[r.value])
    ensures r.None? ==> forall i :: 0 <= i < |batches| ==> !matches(batches[i])
  {
    if batches == [] then None
    else
      var front := batches[..|batches| - 1];
      assert forall j :: 0 <= j < |front| ==> front[j] == batches[j];
      var last := batches[|batches| - 1];
      var best := BestBatch(front, matches, rank);
      if !matches(last) then best
      else if best.None? then Some(|batches| - 1)
      else if Precedes(last, front[best.value], rank) then Some(|batches| - 1)
      else best
  }

  predicate Precedes(a: Batch, b: Batch, rank: Batch -> nat) {
    rank(a) < rank(b) || (rank(a) == rank(b) && Less(a.batchId, b.batchId))
  }

  function ProofRank(b: Batch): nat { if b.nextProofHeight.Some? then b.nextProofHeight.value else 0 }

  function WithBatch(s: Snapshot, i: nat, b: Batch): Snapshot
    requires i < |s.batches|
  {
    s.(batches := s.batches[i := b])
  }

  function WithItem(b: Batch, i: nat, it: Item): Batch
    requires i < |b.items|
  {
    b.(items := b.items[i := it])
  }

  function MapItems(items: seq<Item>, f: Item -> Item): (r: seq<Item>)
    ensures |r| == |items|
    ensures forall i :: 0 <= i < |items| ==> r[i] == f(items[i])
  {
    seq(|items|, i requires 0 <= i < |items| => f(items[i]))
  }

  // ----- staging and arming ----------------------------------------------------------------

  predicate DistinctItems(items: seq<Item>) {
    && (forall i, j :: 0 <= i < j < |items| ==> items[i].itemId != items[j].itemId)
    && (forall i, j :: 0 <= i < j < |items| ==> items[i].txid != items[j].txid)
  }

  predicate ValidIncoming(sha: Data -> string, b: Batch) {
    && b.batchId != "" && b.network != "" && b.accountUuid != "" && b.runId != "" && b.url != ""
    && 0 < b.timingMean <= b.timingMax
    && (b.items != [] || b.nextProofHeight.Some?)
    && b.readyPendingAt.None? && b.readyNotifiedAt.None?
    && b.noticePendingAt.None? && b.noticedAt.None?
    && b.completePendingAt.None? && b.completeNotifiedAt.None?
    && DistinctItems(b.items)
    && forall i :: 0 <= i < |b.items| ==>
      && b.items[i].itemId != "" && b.items[i].txid != "" && b.items[i].raw != []
      && b.items[i].digest == sha(b.items[i].raw)
      && b.items[i].scheduledHeight < b.items[i].expiryHeight
      && b.items[i].status == Staged
  }

  /** The fields that identify one delivery and that nothing may change. */
  predicate SameEvidence(a: Item, b: Item) {
    && a.itemId == b.itemId && a.partIndex == b.partIndex && a.txid == b.txid
    && a.raw == b.raw && a.digest == b.digest
    && a.anchorHeight == b.anchorHeight && a.expiryHeight == b.expiryHeight
  }

  /** What restaging compares: the payload enters through its digest. */
  predicate SameDelivery(a: Item, b: Item) {
    && a.partIndex == b.partIndex && a.txid == b.txid && a.digest == b.digest
    && a.anchorHeight == b.anchorHeight && a.expiryHeight == b.expiryHeight
  }

  predicate Collides(existing: seq<Item>, incoming: Item) {
    exists it :: it in existing && (it.txid == incoming.txid || it.partIndex == incoming.partIndex)
  }

  /** The incoming items that are new to the batch, or a conflict. */
  function AddedItems(existing: seq<Item>, incoming: seq<Item>): Result<seq<Item>, OutboxError> {
    if incoming == [] then Ok([])
    else
      var last := incoming[|incoming| - 1];
      match AddedItems(existing, incoming[..|incoming| - 1])
      case Err(e) => Err(e)
      case Ok(added) =>
        var at := ItemIndex(existing, last.itemId);
        if at < |existing| then
          if SameDelivery(existing[at], last) then Ok(added) else Err(ConflictingBatch)
        else if Collides(existing, last) then Err(ConflictingBatch)
        else Ok(added + [last])
  }

  function Restaged(existing: Batch, incoming: Batch, added: seq<Item>): Batch {
    var moved := existing.nextProofHeight != incoming.nextProofHeight;
    var b := existing.(
      url := incoming.url,
      timingMean := incoming.timingMean,
      timingMax := incoming.timingMax,
      items := existing.items + added,
      nextProofHeight := incoming.nextProofHeight);
    var c := if moved
             then b.(readyPendingAt := None, readyNotifiedAt := None, noticePendingAt := None, noticedAt := None)
             else b;
    if added != [] || moved then c.(completePendingAt := None, completeNotifiedAt := None) else c
  }

  function Stage(sha: Data -> string, s: Snapshot, b: Batch): Result<Snapshot, OutboxError> {
    if !ValidIncoming(sha, b) then Err(InvalidBatch)
    else
      var at := BatchIndex(s.batches, b.batchId);
      if at == |s.batches| then Ok(s.(batches := s.batches + [b]))
      else
        var existing := s.batches[at];
        if !existing.BelongsTo(b.network, b.accountUuid, b.runId) then Err(ConflictingBatch)
        else if existing.url != b.url && HasSubmitting(existing.items) then Err(ConflictingBatch)
        else if (existing.timingMean != b.timingMean || existing.timingMax != b.timingMax)
                && HasSubmitting(existing.items) then Err(ConflictingBatch)
        else
          match AddedItems(existing.items, b.items)
          case Err(e) => Err(e)
          case Ok(added) => Ok(WithBatch(s, at, Restaged(existing, b, added)))
  }

  function ArmedIfExpected(digests: map<string, string>): Item -> Item {
    (it: Item) => if it.itemId in digests && it.status == Staged then it.(status := Armed) else it
  }

  predicate DigestsMatch(items: seq<Item>, digests: map<string, string>) {
    forall id :: id in digests ==> exists it :: it in items && it.itemId == id && it.digest == digests[id]
  }

  function ArmBatch(s: Snapshot, batchId: string, digests: map<string, string>, date: int): Result<Snapshot, OutboxError> {
    var at := BatchIndex(s.batches, batchId);
    if at == |s.batches| then Err(BatchNotFound)
    else
      var b := s.batches[at];
      if (digests == map[] && b.nextProofHeight.None?) || !DigestsMatch(b.items, digests) then Err(InvalidArmRequest)
      else Ok(WithBatch(s, at, b.(
        armedAt := if b.armedAt.None? then Some(date) else b.armedAt,
        items := MapItems(b.items, ArmedIfExpected(digests)))))
  }

  function RetryDelay(attemptCount: nat): nat {
    if attemptCount <= 1 then 60 else if attemptCount == 2 then 5 * 60 else if attemptCount == 3 then 15 * 60 else 60 * 60
  }

  const UNKNOWN_OUTCOME := "The previous submission outcome is unknown."

  /** An attempt whose outcome is not known: armed again, counted, and delayed. */
  function Uncertain(it: Item, error: string, date: int): Item {
    it.(status := Armed,
        attemptCount := it.attemptCount + 1,
        nextAttemptAt := Some(date + RetryDelay(it.attemptCount + 1)),
        lastError := Some(error),
        attemptId := None,
        attemptStartedAt := None)
  }

  function Interrupted(date: int): Item -> Item {
    (it: Item) => if it.status == Submitting then Uncertain(it, UNKNOWN_OUTCOME, date) else it
  }

  function RecoveredItem(date: int): Item -> Item {
    (it: Item) =>
      if it.status == Submitting then Uncertain(it, UNKNOWN_OUTCOME, date)
      else if it.status == Staged then it.(status := Armed)
      else it
  }

  function RecoverBatch(s: Snapshot, batchId: string, network: string, accountUuid: string, runId: string,
                        expected: set<string>, url: string, date: int): Result<(Snapshot, bool), OutboxError>
  {
    var at := BatchIndex(s.batches, batchId);
    if expected == {} || url == "" then Err(InvalidArmRequest)
    else if at == |s.batches| then Ok((s, false))
    else
      var b := s.batches[at];
      if !b.BelongsTo(network, accountUuid, runId) || b.items == []
         || exists it :: it in b.items && it.txid !in expected
      then Err(ConflictingBatch)
      else
        var items := MapItems(b.items, RecoveredItem(date));
        Ok((WithBatch(s, at, b.(
          items := items,
          url := url,
          armedAt := if HasArmed(items) && b.armedAt.None? then Some(date) else b.armedAt)), true))
  }

  function RecoverInterrupted(s: Snapshot, date: int): Snapshot {
    s.(batches := MapBatches(s.batches, (b: Batch) => b.(items := MapItems(b.items, Interrupted(date)))))
  }

  function MapBatches(batches: seq<Batch>, f: Batch -> Batch): (r: seq<Batch>)
    ensures |r| == |batches|
    ensures forall i :: 0 <= i < |batches| ==> r[i] == f(batches[i])
  {
    seq(|batches|, i requires 0 <= i < |batches| => f(batches[i]))
  }

  // ----- rotation --------------------------------------------------------------------------

  /** Round robin: the key after the last one used, or the first key when that one is gone. */
  function NextKey(keys: seq<string>, last: Option<string>): string
    requires keys != []
  {
    if last.Some? && last.value in keys
    then keys[After(KeyIndex(keys, last.value), |keys|)]
    else keys[0]
  }

  /** The position after `i`, going round. */
  function After(i: nat, n: nat): (r: nat)
    requires i < n
    ensures r == if i + 1 < n then i + 1 else 0
  {
    (i + 1) % n
  }

  function KeyIndex(keys: seq<string>, key: string): (i: nat)
    requires key in keys
    ensures i < |keys| && keys[i] == key && key !in keys[..i]
  {
    if keys[0] == key then 0
    else
      var i := KeyIndex(keys[1..], key) + 1;
      assert keys[..i] == [keys[0]] + keys[1..][..i - 1];
      i
  }

  predicate Inspectable(b: Batch) {
    b.armedAt.Some? && (HasArmed(b.items) || (b.nextProofHeight.Some? && b.AwaitsProofReadyAnnouncement()))
  }

  function EndpointsOf(batches: seq<Batch>): (r: seq<string>)
    ensures forall e :: e in r <==> exists b :: b in batches && Inspectable(b) && b.url == e
  {
    if batches == [] then []
    else
      var front := batches[..|batches| - 1];
      assert batches == front + [batches[|batches| - 1]];
      EndpointsOf(front) + (if Inspectable(batches[|batches| - 1]) then [batches[|batches| - 1].url] else [])
  }

  function Endpoints(s: Snapshot): seq<string> { SortedDistinct(EndpointsOf(s.batches)) }

  function NextEndpoint(s: Snapshot): (Snapshot, Option<string>) {
    var endpoints := Endpoints(s);
    if endpoints == [] then (s, None)
    else
      var selected := NextKey(endpoints, s.lastEndpoint);
      (s.(lastEndpoint := Some(selected)), Some(selected))
  }

  predicate Due(it: Item, tip: U64, date: int) {
    && it.status == Armed && it.scheduledHeight <= tip < it.expiryHeight
    && (it.nextAttemptAt.None? || it.nextAttemptAt.value <= date)
  }

  predicate DueBatch(b: Batch, tip: U64, endpoint: Option<string>, date: int) {
    && (endpoint.None? || b.url == endpoint.value)
    && b.armedAt.Some?
    && exists it :: it in b.items && Due(it, tip, date)
  }

  function ScopesOf(batches: seq<Batch>, tip: U64, endpoint: Option<string>, date: int): (r: seq<string>)
    ensures forall k :: k in r <==> exists b :: b in batches && DueBatch(b, tip, endpoint, date) && b.ScopeKey() == k
  {
    if batches == [] then []
    else
      var front := batches[..|batches| - 1];
      var last := batches[|batches| - 1];
      assert batches == front + [last];
      ScopesOf(front, tip, endpoint, date) + (if DueBatch(last, tip, endpoint, date) then [last.ScopeKey()] else [])
  }

  function DueScopes(s: Snapshot, tip: U64, endpoint: Option<string>, date: int): seq<string> {
    SortedDistinct(ScopesOf(s.batches, tip, endpoint, date))
  }

  /** The first due batch of the scope. */
  function ScopeBatch(batches: seq<Batch>, tip: U64, endpoint: Option<string>, date: int, scope: string): (i: nat)
    requires exists b :: b in batches && DueBatch(b, tip, endpoint, date) && b.ScopeKey() == scope
    ensures i < |batches| && DueBatch(batches[i], tip, endpoint, date) && batches[i].ScopeKey() == scope
    ensures forall j :: 0 <= j < i ==> !(DueBatch(batches[j], tip, endpoint, date) && batches[j].ScopeKey() == scope)
  {
    if DueBatch(batches[0], tip, endpoint, date) && batches[0].ScopeKey() == scope then 0
    else
      assert batches == [batches[0]] + batches[1..];
      var i := ScopeBatch(batches[1..], tip, endpoint, date, scope) + 1;
      assert forall j :: 0 < j < i ==> batches[j] == batches[1..][j - 1];
      i
  }

  /** Among the due items, the first one that no other due item precedes by (height, txid). */
  function BestItem(items: seq<Item>, tip: U64, date: int): (r: Option<nat>)
    ensures r.Some? ==> r.value < |items| && Due(items[r.value], tip, date)
    ensures r.None? ==> forall i :: 0 <= i < |items| ==> !Due(items[i], tip, date)
  {
    if items == [] then None
    else
      var front := items[..|items| - 1];
      assert forall j :: 0 <= j < |front| ==> front[j] == items[j];
      var last := items[|items| - 1];
      var best := BestItem(front, tip, date);
      if !Due(last, tip, date) then best
      else if best.None? then Some(|items| - 1)
      else if ItemPrecedes(last, front[best.value]) then Some(|items| - 1)
      else best
  }

  predicate ItemPrecedes(a: Item, b: Item) {
    a.scheduledHeight < b.scheduledHeight || (a.scheduledHeight == b.scheduledHeight && Less(a.txid, b.txid))
  }

  function SelectDue(s: Snapshot, tip: U64, endpoint: Option<string>, date: int): (Snapshot, Option<Selection>) {
    var scopes := DueScopes(s, tip, endpoint, date);
    if scopes == [] then (s, None)
    else
      var scope := NextKey(scopes, s.lastScope);
      assert scope in scopes;
      var b := s.batches[ScopeBatch(s.batches, tip, endpoint, date, scope)];
      var best := BestItem(b.items, tip, date);
      var it := b.items[best.value];
      (s.(lastScope := Some(scope)), Some(Selection(b.batchId, b.accountUuid, b.ScopeKey(), b.url, it)))
  }

  // ----- announcements ---------------------------------------------------------------------

  predicate ProofReached(b: Batch, tip: U64, endpoint: string) {
    && b.nextProofHeight.Some? && b.url == endpoint && b.armedAt.Some?
    && b.AwaitsProofReadyAnnouncement() && b.nextProofHeight.value <= tip
  }

  function ProofCandidate(s: Snapshot, tip: U64, endpoint: string): Option<nat> {
    BestBatch(s.batches, (b: Batch) => ProofReached(b, tip, endpoint), ProofRank)
  }

  function MarkProofReady(s: Snapshot, tip: U64, endpoint: string, date: int): Snapshot {
    match ProofCandidate(s, tip, endpoint)
    case None => s
    case Some(i) =>
      var at := BatchIndex(s.batches, s.batches[i].batchId);
      if at < |s.batches| && s.batches[at].readyPendingAt.None?
      then WithBatch(s, at, s.batches[at].(readyPendingAt := Some(date)))
      else s
  }

  function VerifiedCandidate(s: Snapshot, network: string, accountUuid: string, runId: string): Option<nat> {
    BestBatch(s.batches,
              (b: Batch) => b.BelongsTo(network, accountUuid, runId) && b.armedAt.Some? && b.nextProofHeight.Some?,
              ProofRank)
  }

  function RecordVerifiedReadiness(s: Snapshot, network: string, accountUuid: string, runId: string, date: int): (Snapshot, bool) {
    match VerifiedCandidate(s, network, accountUuid, runId)
    case None => (s, false)
    case Some(i) =>
      if s.batches[i].readyNotifiedAt.None? && s.batches[i].readyPendingAt.None?
      then (WithBatch(s, i, s.batches[i].(readyPendingAt := Some(date))), true)
      else (s, true)
  }

  predicate ReadyPending(b: Batch) {
    b.armedAt.Some? && b.readyPendingAt.Some? && b.readyNotifiedAt.None? && b.nextProofHeight.Some?
  }

  function PendingProofReady(s: Snapshot): Option<nat> {
    BestBatch(s.batches, ReadyPending, ProofRank)
  }

  function AcknowledgeProofReady(s: Snapshot, batchId: string, date: int): Result<Snapshot, OutboxError> {
    var at := BatchIndex(s.batches, batchId);
    if at == |s.batches| then Err(BatchNotFound)
    else if s.batches[at].readyPendingAt.None? then Err(InvalidTransition)
    else Ok(WithBatch(s, at, s.batches[at].(readyPendingAt := None, readyNotifiedAt := Some(date))))
  }

  function MarkHeightNotice(s: Snapshot, batchId: string, date: int): (Snapshot, bool) {
    var at := BatchIndex(s.batches, batchId);
    if at == |s.batches| then (s, false)
    else
      var b := s.batches[at];
      if b.armedAt.Some? && b.nextProofHeight.Some? && b.readyNotifiedAt.None? && b.readyPendingAt.None?
         && b.noticePendingAt.None? && b.noticedAt.None?
      then (WithBatch(s, at, b.(noticePendingAt := Some(date))), true)
      else (s, false)
  }

  function AcknowledgeHeightNotice(s: Snapshot, batchId: string, date: int): Result<Snapshot, OutboxError> {
    var at := BatchIndex(s.batches, batchId);
    if at == |s.batches| then Err(BatchNotFound)
    else if s.batches[at].noticePendingAt.None? then Err(InvalidTransition)
    else Ok(WithBatch(s, at, s.batches[at].(noticePendingAt := None, noticedAt := Some(date))))
  }

  function Announced(s: Snapshot): seq<string> {
    if s.announced.Some? then s.announced.value else []
  }

  predicate CompleteAndUnannounced(s: Snapshot, b: Batch) {
    && b.nextProofHeight.None? && b.completeNotifiedAt.None?
    && b.batchId !in Announced(s)
    && b.items != [] && forall it :: it in b.items ==> it.status == Accepted
  }

  function MarkBroadcastComplete(s: Snapshot, batchId: string, date: int): (Snapshot, bool) {
    var at := BatchIndex(s.batches, batchId);
    if at == |s.batches| || !CompleteAndUnannounced(s, s.batches[at]) then (s, false)
    else if s.batches[at].completePendingAt.None?
    then (WithBatch(s, at, s.batches[at].(completePendingAt := Some(date))), true)
    else (s, true)
  }

  function AcknowledgeBroadcastComplete(s: Snapshot, batchId: string, date: int): Result<Snapshot, OutboxError> {
    var at := BatchIndex(s.batches, batchId);
    if at == |s.batches| then Err(BatchNotFound)
    else if s.batches[at].completePendingAt.None? then Err(InvalidTransition)
    else
      var b := s.batches[at].(completePendingAt := None, completeNotifiedAt := Some(date));
      var announced := if batchId in Announced(s) then s.announced else Some(Announced(s) + [batchId]);
      if b.items == [] && b.nextProofHeight.None?
      then Ok(s.(batches := s.batches[..at] + s.batches[at + 1..], announced := announced))
      else Ok(WithBatch(s, at, b).(announced := announced))
  }

  // ----- retiring items at a tip ------------------------------------------------------------

  const EXPIRY_MODULUS: nat := 34_560

  /** The one expiry height a transaction broadcast at this height may carry (ZIP 318), unless it overflows. */
  function CanonicalExpiry(height: U64): Option<U64> {
    var expiry := height - height % EXPIRY_MODULUS + 2 * EXPIRY_MODULUS;
    if expiry <= U64_MAX then Some(expiry) else None
  }

  /** The two sweeps that take armed items out of circulation. */
  datatype Sweep = ExpirySweep(tip: U64) | ResignSweep(tip: U64, canonical: U64)
  {
    predicate Hits(it: Item) {
      && it.status == Armed
      && match this
         case ExpirySweep(tip) => tip >= it.expiryHeight
         case ResignSweep(tip, canonical) => it.scheduledHeight <= tip && it.expiryHeight != canonical
    }
    function Status(): ItemStatus { if ExpirySweep? then Expired else NeedsResign }
    function Outcome(): Outcome { if ExpirySweep? then ExpiredOutcome else NeedsResignOutcome }
    function Message(): Option<string> {
      if ExpirySweep? then None else Some("Broadcast height crossed a ZIP 318 expiry boundary.")
    }
    function Retired(it: Item): Item { if Hits(it) then it.(status := Status()) else it }
  }

  function MakeReceipt(b: Batch, it: Item, outcome: Outcome, tip: U64, code: Option<int>, message: Option<string>,
                       updates: seq<ScheduleUpdate>, date: int): Receipt
  {
    Receipt(b.batchId, it.itemId, b.network, b.accountUuid, b.runId, it.txid, outcome, tip, code, message, date, updates)
  }

  function SweepReceipts(sweep: Sweep, b: Batch, items: seq<Item>, date: int): seq<Receipt> {
    if items == [] then []
    else
      var last := items[|items| - 1];
      SweepReceipts(sweep, b, items[..|items| - 1], date)
      + (if sweep.Hits(last)
         then [MakeReceipt(b, last, sweep.Outcome(), sweep.tip, None, sweep.Message(), [], date)]
         else [])
  }

  function SweptItems(sweep: Sweep, items: seq<Item>): (r: seq<Item>)
    ensures |r| == |items|
    ensures forall i :: 0 <= i < |items| ==> r[i] == sweep.Retired(items[i])
  {
    MapItems(items, (it: Item) => sweep.Retired(it))
  }

  function SweptBatch(sweep: Sweep, b: Batch): Batch {
    var c := b.(items := SweptItems(sweep, b.items));
    if exists it :: it in b.items && sweep.Hits(it) then c.(armedAt := None, nextProofHeight := None) else c
  }

  function SweepBatches(sweep: Sweep, endpoint: string, batches: seq<Batch>, date: int): (r: (seq<Batch>, seq<Receipt>))
    ensures |r.0| == |batches|
    ensures forall i :: 0 <= i < |batches| ==>
      r.0[i] == if batches[i].url == endpoint then SweptBatch(sweep, batches[i]) else batches[i]
  {
    if batches == [] then ([], [])
    else
      var front := batches[..|batches| - 1];
      assert forall j :: 0 <= j < |front| ==> front[j] == batches[j];
      var last := batches[|batches| - 1];
      var (bs, rs) := SweepBatches(sweep, endpoint, front, date);
      if last.url == endpoint
      then (bs + [SweptBatch(sweep, last)], rs + SweepReceipts(sweep, last, last.items, date))
      else (bs + [last], rs)
  }

  function SweepAll(s: Snapshot, sweep: Sweep, endpoint: string, date: int): Snapshot {
    var (batches, receipts) := SweepBatches(sweep, endpoint, s.batches, date);
    s.(batches := batches, receipts := s.receipts + receipts)
  }

  function ExpireItems(s: Snapshot, tip: U64, endpoint: string, date: int): Snapshot {
    SweepAll(s, ExpirySweep(tip), endpoint, date)
  }

  function MarkDueItemsNeedingResign(s: Snapshot, tip: U64, endpoint: string, date: int): Snapshot {
    match CanonicalExpiry(tip)
    case None => s
    case Some(canonical) => SweepAll(s, ResignSweep(tip, canonical), endpoint, date)
  }

  // ----- one submission --------------------------------------------------------------------

  function ItemAt(s: Snapshot, at: (nat, nat)): Item
    requires at.0 < |s.batches| && at.1 < |s.batches[at.0].items|
  {
    s.batches[at.0].items[at.1]
  }

  function WithItemAt(s: Snapshot, at: (nat, nat), it: Item): Snapshot
    requires at.0 < |s.batches| && at.1 < |s.batches[at.0].items|
  {
    WithBatch(s, at.0, WithItem(s.batches[at.0], at.1, it))
  }

  /** Finds the item and checks its status. */
  function Locate(s: Snapshot, itemId: string, status: ItemStatus): (r: Result<(nat, nat), OutboxError>)
    ensures r.Ok? ==>
      && r.value.0 < |s.batches| && r.value.1 < |s.batches[r.value.0].items|
      && ItemAt(s, r.value).itemId == itemId && ItemAt(s, r.value).status == status
      && ItemLocation(s.batches, itemId) == Some(r.value)
  {
    match ItemLocation(s.batches, itemId)
    case None => Err(ItemNotFound)
    case Some(at) => if ItemAt(s, at).status != status then Err(InvalidTransition) else Ok(at)
  }

  function BeginSubmission(s: Snapshot, itemId: string, attemptId: string, date: int): Result<Snapshot, OutboxError> {
    match Locate(s, itemId, Armed)
    case Err(e) => Err(e)
    case Ok(at) => Ok(WithItemAt(s, at, ItemAt(s, at).(
      status := Submitting, attemptId := Some(attemptId), attemptStartedAt := Some(date))))
  }

  function RecordUncertain(s: Snapshot, itemId: string, error: string, date: int): Result<Snapshot, OutboxError> {
    match Locate(s, itemId, Submitting)
    case Err(e) => Err(e)
    case Ok(at) => Ok(WithItemAt(s, at, Uncertain(ItemAt(s, at), error, date)))
  }

  function RecordCancelled(s: Snapshot, itemId: string, error: string): Result<Snapshot, OutboxError> {
    match Locate(s, itemId, Submitting)
    case Err(e) => Err(e)
    case Ok(at) => Ok(WithItemAt(s, at, ItemAt(s, at).(
      status := Armed, nextAttemptAt := None, lastError := Some(error), attemptId := None, attemptStartedAt := None)))
  }

  predicate Overdue(it: Item, excluding: string, tip: U64) {
    it.itemId != excluding && it.status == Armed && it.scheduledHeight <= tip
  }

  function OverdueIndexes(items: seq<Item>, excluding: string, tip: U64): (r: seq<nat>)
    ensures InRange(r, |items|)
    ensures forall j :: 0 <= j < |r| ==> Overdue(items[r[j]], excluding, tip)
    ensures forall i :: 0 <= i < |items| && Overdue(items[i], excluding, tip) ==> i in r
    ensures forall i, j :: 0 <= i < j < |r| ==> r[i] < r[j]
  {
    if items == [] then []
    else
      var r := OverdueIndexes(items[..|items| - 1], excluding, tip);
      if Overdue(items[|items| - 1], excluding, tip) then r + [|items| - 1] else r
  }

  predicate InRange(indexes: seq<nat>, n: nat) {
    forall j :: 0 <= j < |indexes| ==> indexes[j] < n
  }

  /** Inserts after every index whose expiry is not larger. */
  function InsertByExpiry(items: seq<Item>, sorted: seq<nat>, i: nat): (r: seq<nat>)
    requires i < |items| && InRange(sorted, |items|)
    ensures multiset(r) == multiset(sorted) + multiset{i}
  {
    if sorted == [] then [i]
    else
      assert sorted[0] in sorted && sorted == [sorted[0]] + sorted[1..];
      if items[i].expiryHeight < items[sorted[0]].expiryHeight then [i] + sorted
      else [sorted[0]] + InsertByExpiry(items, sorted[1..], i)
  }

  lemma PermutationInRange(a: seq<nat>, b: seq<nat>, n: nat)
    requires multiset(a) == multiset(b) && InRange(b, n)
    ensures InRange(a, n)
  {
    forall j | 0 <= j < |a|
      ensures a[j] < n
    {
      var x := a[j];
      assert x in multiset(a);
      assert x in multiset(b);
      assert x in b;
    }
  }

  function SortByExpiry(items: seq<Item>, indexes: seq<nat>): (r: seq<nat>)
    requires InRange(indexes, |items|)
    ensures multiset(r) == multiset(indexes)
  {
    if indexes == [] then []
    else
      var last := indexes[|indexes| - 1];
      assert indexes == indexes[..|indexes| - 1] + [last];
      var front := SortByExpiry(items, indexes[..|indexes| - 1]);
      PermutationInRange(front, indexes[..|indexes| - 1], |items|);
      InsertByExpiry(items, front, last)
  }

  /** The order in which overdue peers get new heights: shuffled, then sorted by expiry. */
  function ProcessingOrder(items: seq<Item>, excluding: string, tip: U64, random: Random): (r: seq<nat>)
    ensures multiset(r) == multiset(OverdueIndexes(items, excluding, tip))
    ensures InRange(r, |items|)
  {
    var overdue := OverdueIndexes(items, excluding, tip);
    var shuffled := random.shuffle(overdue);
    assert multiset(shuffled) == multiset(overdue);
    PermutationInRange(shuffled, overdue, |items|);
    var r := SortByExpiry(items, shuffled);
    PermutationInRange(r, overdue, |items|);
    r
  }

  /** The last two steps of `sampleDelay`: the raw sample, at least one block and at most the bound. */
  function SampleDelay(raw: nat, maxBlocks: nat): nat {
    Min(Max(1, raw), maxBlocks)
  }

  /** The item built again with a new schedule, and its delivery state copied over. */
  function ReplacingSchedule(sha: Data -> string, it: Item, scheduled: U64, start: U64): Item {
    NewItem(sha, it.itemId, it.partIndex, it.txid, it.raw, it.anchorHeight, scheduled, start, it.expiryHeight)
    .(status := it.status, attemptCount := it.attemptCount, nextAttemptAt := it.nextAttemptAt, lastError := it.lastError)
  }

  datatype Rescheduled = Rescheduled(items: seq<Item>, elapsed: U64, updates: seq<ScheduleUpdate>)

  /** One turn of the loop: the peer at `index`, with `remaining` peers still to come. */
  function RescheduleOne(sha: Data -> string, state: Rescheduled, index: nat, remaining: nat, tip: U64, max: U64, raw: nat)
    : (r: Result<Rescheduled, OutboxError>)
    requires index < |state.items|
    ensures r.Ok? ==> |r.value.items| == |state.items|
  {
    var it := state.items[index];
    if it.expiryHeight <= remaining + 1 then Err(InvalidSchedule)
    else
      var latest := it.expiryHeight - remaining - 1;
      var current := SaturatingAdd(tip, state.elapsed);
      if latest <= current then Err(InvalidSchedule)
      else
        var elapsed := SaturatingAdd(state.elapsed, SampleDelay(raw, Min(max, latest - current)));
        var scheduled := SaturatingAdd(tip, elapsed);
        Ok(Rescheduled(state.items[index := ReplacingSchedule(sha, it, scheduled, tip)], elapsed,
                       state.updates + [ScheduleUpdate(it.itemId, scheduled, tip)]))
  }

  /** Gives heights to the peers from position `k` of the order on. */
  function RescheduleFrom(sha: Data -> string, state: Rescheduled, order: seq<nat>, k: nat, tip: U64, max: U64, random: Random)
    : (r: Result<Rescheduled, OutboxError>)
    requires k <= |order|
    requires InRange(order, |state.items|)
    ensures r.Ok? ==> |r.value.items| == |state.items|
    decreases |order| - k
  {
    if k == |order| then Ok(state)
    else
      match RescheduleOne(sha, state, order[k], |order| - k - 1, tip, max, random.draw(k))
      case Err(e) => Err(e)
      case Ok(next) => RescheduleFrom(sha, next, order, k + 1, tip, max, random)
  }

  function RescheduleOverdue(sha: Data -> string, b: Batch, excluding: string, tip: U64, random: Random)
    : (r: Result<Rescheduled, OutboxError>)
    ensures r.Ok? ==> |r.value.items| == |b.items|
  {
    if !(0 < b.timingMean <= b.timingMax) then Err(InvalidSchedule)
    else RescheduleFrom(sha, Rescheduled(b.items, 0, []), ProcessingOrder(b.items, excluding, tip, random), 0,
                        tip, b.timingMax, random)
  }

  function RecordAccepted(sha: Data -> string, s: Snapshot, itemId: string, equivalent: bool, tip: U64, code: int,
                          message: string, date: int, random: Random): Result<Snapshot, OutboxError>
  {
    match Locate(s, itemId, Submitting)
    case Err(e) => Err(e)
    case Ok(at) =>
      var b := WithItem(s.batches[at.0], at.1, ItemAt(s, at).(
        status := Accepted, attemptId := None, attemptStartedAt := None, nextAttemptAt := None));
      match RescheduleOverdue(sha, b, itemId, tip, random)
      case Err(e) => Err(e)
      case Ok(done) =>
        var c := b.(items := done.items);
        Ok(WithBatch(s, at.0, c).(receipts := s.receipts + [
          MakeReceipt(c, c.items[at.1], if equivalent then AcceptedEquivalentOutcome else AcceptedOutcome,
                      tip, Some(code), Some(message), done.updates, date)]))
  }

  function RecordRejected(s: Snapshot, itemId: string, tip: U64, code: int, message: string, date: int): Result<Snapshot, OutboxError> {
    match Locate(s, itemId, Submitting)
    case Err(e) => Err(e)
    case Ok(at) =>
      var b := WithItem(s.batches[at.0], at.1, ItemAt(s, at).(
        status := Rejected, attemptId := None, attemptStartedAt := None, nextAttemptAt := None))
        .(armedAt := None, nextProofHeight := None);
      Ok(WithBatch(s, at.0, b).(receipts := s.receipts + [
        MakeReceipt(b, b.items[at.1], RejectedOutcome, tip, Some(code), Some(message), [], date)]))
  }

  /** The batch in which the accepted item is marked and its peers are still to be rescheduled. */
  ghost function AcceptedIn(b: Batch, i: nat): Batch
    requires i < |b.items|
  {
    WithItem(b, i, b.items[i].(status := Accepted, attemptId := None, attemptStartedAt := None, nextAttemptAt := None))
  }

  function InsertHeight(sorted: seq<U64>, h: U64): (r: seq<U64>)
    ensures multiset(r) == multiset(sorted) + multiset{h}
  {
    if sorted == [] then [h]
    else
      assert sorted == [sorted[0]] + sorted[1..];
      if h < sorted[0] then [h] + sorted
      else [sorted[0]] + InsertHeight(sorted[1..], h)
  }

  function SortHeights(heights: seq<U64>): (r: seq<U64>)
    ensures multiset(r) == multiset(heights)
  {
    if heights == [] then []
    else
      assert heights == heights[..|heights| - 1] + [heights[|heights| - 1]];
      InsertHeight(SortHeights(heights[..|heights| - 1]), heights[|heights| - 1])
  }

  function OverdueExpiries(items: seq<Item>, excluding: string, tip: U64): seq<U64> {
    if items == [] then []
    else
      OverdueExpiries(items[..|items| - 1], excluding, tip)
      + (if Overdue(items[|items| - 1], excluding, tip) then [items[|items| - 1].expiryHeight] else [])
  }

  predicate RoomFor(expiries: seq<U64>, k: nat, next: U64)
    requires k <= |expiries|
    decreases |expiries| - k
  {
    k == |expiries| || (next + 1 <= U64_MAX && next + 1 < expiries[k] && RoomFor(expiries, k + 1, next + 1))
  }

  /** `validateReschedulingAfterAcceptance`: the check made before anything is broadcast. */
  function ValidateRescheduling(s: Snapshot, itemId: string, tip: U64): Result<(), OutboxError> {
    match ItemLocation(s.batches, itemId)
    case None => Err(ItemNotFound)
    case Some(at) =>
      if RoomFor(SortHeights(OverdueExpiries(s.batches[at.0].items, itemId, tip)), 0, tip)
      then Ok(()) else Err(InvalidSchedule)
  }

  // ----- removal ---------------------------------------------------------------------------

  predicate Terminal(o: Outcome) { o == RejectedOutcome || o == ExpiredOutcome || o == NeedsResignOutcome }

  function KeepReceipts(receipts: seq<Receipt>, keep: Receipt -> bool): (r: seq<Receipt>)
    ensures forall x :: x in r <==> x in receipts && keep(x)
  {
    if receipts == [] then []
    else
      assert receipts == receipts[..|receipts| - 1] + [receipts[|receipts| - 1]];
      KeepReceipts(receipts[..|receipts| - 1], keep)
      + (if keep(receipts[|receipts| - 1]) then [receipts[|receipts| - 1]] else [])
  }

  function KeepItems(items: seq<Item>, keep: Item -> bool): (r: seq<Item>)
    ensures forall x :: x in r <==> x in items && keep(x)
  {
    if items == [] then []
    else
      assert items == items[..|items| - 1] + [items[|items| - 1]];
      KeepItems(items[..|items| - 1], keep) + (if keep(items[|items| - 1]) then [items[|items| - 1]] else [])
  }

  function KeepBatches(batches: seq<Batch>, keep: Batch -> bool): (r: seq<Batch>)
    ensures forall x :: x in r <==> x in batches && keep(x)
  {
    if batches == [] then []
    else
      assert batches == batches[..|batches| - 1] + [batches[|batches| - 1]];
      KeepBatches(batches[..|batches| - 1], keep)
      + (if keep(batches[|batches| - 1]) then [batches[|batches| - 1]] else [])
  }

  /** The batches that a terminal receipt in the acknowledged set settles, with no receipt left over. */
  predicate Settled(receipts: seq<Receipt>, ids: set<ReceiptId>, batchId: string) {
    && (exists r :: r in receipts && r.Id() in ids && Terminal(r.outcome) && r.batchId == batchId)
    && (forall r :: r in receipts && r.batchId == batchId ==> r.Id() in ids)
  }

  predicate AcknowledgedItem(receipts: seq<Receipt>, ids: set<ReceiptId>, itemId: string) {
    exists r :: r in receipts && r.Id() in ids && r.itemId == itemId
  }

  predicate Spent(b: Batch) {
    b.items == [] && b.nextProofHeight.None? && b.completePendingAt.None?
  }

  function AcknowledgeReceipts(s: Snapshot, ids: set<ReceiptId>): Snapshot {
    var unsettled := KeepBatches(s.batches, (b: Batch) => !Settled(s.receipts, ids, b.batchId));
    var reconciled := MapBatches(unsettled, (b: Batch) =>
      b.(items := KeepItems(b.items, (it: Item) => !AcknowledgedItem(s.receipts, ids, it.itemId))));
    s.(batches := KeepBatches(reconciled, (b: Batch) => !Spent(b)),
       receipts := KeepReceipts(s.receipts, (r: Receipt) => r.Id() !in ids))
  }

  function DiscardBatch(s: Snapshot, batchId: string): Result<(Snapshot, bool), OutboxError> {
    var at := BatchIndex(s.batches, batchId);
    if at == |s.batches| then Ok((s, false))
    else if (exists it :: it in s.batches[at].items && (it.status == Submitting || it.attemptCount > 0))
            || (exists r :: r in s.receipts && r.batchId == batchId)
    then Err(ConflictingBatch)
    else Ok((s.(batches := s.batches[..at] + s.batches[at + 1..]), true))
  }

  function KeepIds(ids: seq<string>, prefix: string): (r: seq<string>)
    ensures forall x :: x in r <==> x in ids && !(prefix <= x)
  {
    if ids == [] then []
    else
      assert ids == ids[..|ids| - 1] + [ids[|ids| - 1]];
      KeepIds(ids[..|ids| - 1], prefix) + (if prefix <= ids[|ids| - 1] then [] else [ids[|ids| - 1]])
  }

  function ScopePrefix(network: string, accountUuid: string): string { network + ":" + accountUuid + ":" }

  predicate InAccount(s: Snapshot, network: string, accountUuid: string, batchId: string) {
    exists b :: b in s.batches && b.network == network && b.accountUuid == accountUuid && b.batchId == batchId
  }

  function Revoke(s: Snapshot, network: string, accountUuid: string): Snapshot {
    var kept := KeepIds(Announced(s), ScopePrefix(network, accountUuid));
    s.(batches := KeepBatches(s.batches, (b: Batch) => !InAccount(s, network, accountUuid, b.batchId)),
       receipts := KeepReceipts(s.receipts, (r: Receipt) => !InAccount(s, network, accountUuid, r.batchId)),
       announced := if s.announced.None? || kept == [] then None else Some(kept),
       lastScope := if s.lastScope == Some(network + ":" + accountUuid) then None else s.lastScope)
  }

  // ----- what the channel reports ----------------------------------------------------------

  /** The payload the channel looks up for a receipt: by batch id, then by item id. */
  function ReceiptPayload(s: Snapshot, r: Receipt): Option<Data> {
    var at := BatchIndex(s.batches, r.batchId);
    if at == |s.batches| then None
    else
      var i := ItemIndex(s.batches[at].items, r.itemId);
      if i == |s.batches[at].items| then None else Some(s.batches[at].items[i].raw)
  }

  /** An item the channel counts as possibly broadcast. */
  predicate Attempted(it: Item) {
    it.attemptCount > 0 || it.status == Submitting || it.status == Accepted || it.status == Rejected
  }

  function AttemptedTxids(s: Snapshot, network: string, accountUuid: string, runId: string): (r: seq<string>)
    ensures forall x :: x in r <==>
      exists b, it :: b in s.batches && b.BelongsTo(network, accountUuid, runId) && it in b.items && Attempted(it) && it.txid == x
  {
    AttemptedIn(s.batches, network, accountUuid, runId)
  }

  function AttemptedItems(items: seq<Item>): (r: seq<string>)
    ensures forall x :: x in r <==> exists it :: it in items && Attempted(it) && it.txid == x
  {
    if items == [] then []
    else
      var last := items[|items| - 1];
      assert items == items[..|items| - 1] + [last];
      AttemptedItems(items[..|items| - 1]) + (if Attempted(last) then [last.txid] else [])
  }

  function AttemptedIn(batches: seq<Batch>, network: string, accountUuid: string, runId: string): (r: seq<string>)
    ensures forall x :: x in r <==>
      exists b, it :: b in batches && b.BelongsTo(network, accountUuid, runId) && it in b.items && Attempted(it) && it.txid == x
  {
    if batches == [] then []
    else
      var last := batches[|batches| - 1];
      assert batches == batches[..|batches| - 1] + [last];
      AttemptedIn(batches[..|batches| - 1], network, accountUuid, runId)
      + (if last.BelongsTo(network, accountUuid, runId) then AttemptedItems(last.items) else [])
  }
}
