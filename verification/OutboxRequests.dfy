/** What the app asks of the outbox: when each request is refused, and all that it changes when it is not. */
module OutboxRequests {
  import opened Common
  import opened OutboxModel
  import opened Counting
  import opened OutboxInvariant
  import opened OutboxSteps
  import opened OutboxRemoval
  import opened OutboxStaging
  import opened OutboxChoice
  import opened OutboxEffects

  ghost predicate HasId(s: Snapshot, batchId: string) { exists i :: 0 <= i < |s.batches| && s.batches[i].batchId == batchId }

  /** The one batch stored under the id. */
  lemma StoredAt(s: Snapshot, batchId: string)
    ensures HasId(s, batchId) <==> BatchIndex(s.batches, batchId) < |s.batches|
  {
  }

  // ----- staging ------------------------------------------------------------------------------------

  ghost predicate FlawedItem(sha: Data -> string, it: Item) {
    || it.itemId == "" || it.txid == "" || it.raw == [] || it.digest != sha(it.raw)
    || it.expiryHeight <= it.scheduledHeight || it.status != Staged
  }

  /** What no request to stage may carry. */
  ghost predicate Flawed(sha: Data -> string, b: Batch) {
    || b.batchId == "" || b.network == "" || b.accountUuid == "" || b.runId == "" || b.url == ""
    || b.timingMean == 0 || b.timingMax < b.timingMean
    || (b.items == [] && b.nextProofHeight.None?)
    || b.readyPendingAt.Some? || b.readyNotifiedAt.Some? || b.noticePendingAt.Some? || b.noticedAt.Some?
    || b.completePendingAt.Some? || b.completeNotifiedAt.Some?
    || (exists it :: it in b.items && FlawedItem(sha, it))
    || (exists i, j :: 0 <= i < j < |b.items| && (b.items[i].itemId == b.items[j].itemId || b.items[i].txid == b.items[j].txid))
  }

  ghost predicate Stores(items: seq<Item>, itemId: string) { exists k :: 0 <= k < |items| && items[k].itemId == itemId }

  /** Another part, transaction, payload digest, anchor or expiry. */
  predicate Differs(a: Item, b: Item) {
    a.partIndex != b.partIndex || a.txid != b.txid || a.digest != b.digest || a.anchorHeight != b.anchorHeight || a.expiryHeight != b.expiryHeight
  }

  /** An incoming item that would change what is delivered under its id, or deliver under a second id what is stored already. */
  ghost predicate Clashes(held: seq<Item>, it: Item) {
    if Stores(held, it.itemId)
    then Differs(held[ItemIndex(held, it.itemId)], it)
    else exists other :: other in held && (other.txid == it.txid || other.partIndex == it.partIndex)
  }

  /** What makes a restage conflict with the batch that is stored. */
  ghost predicate Conflicts(held: Batch, b: Batch) {
    || held.network != b.network || held.accountUuid != b.accountUuid || held.runId != b.runId
    || ((exists it :: it in held.items && it.status == Submitting)
        && (held.url != b.url || held.timingMean != b.timingMean || held.timingMax != b.timingMax))
    || (exists it :: it in b.items && Clashes(held.items, it))
  }

  /** The incoming items under ids that are not stored yet, in their order. */
  ghost predicate Additional(held: seq<Item>, incoming: seq<Item>, added: seq<Item>) {
    && (forall it :: it in added <==> it in incoming && !Stores(held, it.itemId))
    && ItemsInOrder(added, incoming)
  }

  /**
   What a restage leaves: the stored items as they were with the new ones behind them, and the endpoint,
   timing and proof height of the request. The proof announcements start over exactly if the proof height
   moved; "transfers sent" starts over exactly if it moved or an item is new. All else stays.
   */
  ghost predicate RestagedFrom(held: Batch, b: Batch, after: Batch) {
    && after == held.(url := b.url, timingMean := b.timingMean, timingMax := b.timingMax, nextProofHeight := b.nextProofHeight, items := after.items,
                      readyPendingAt := after.readyPendingAt, readyNotifiedAt := after.readyNotifiedAt,
                      noticePendingAt := after.noticePendingAt, noticedAt := after.noticedAt,
                      completePendingAt := after.completePendingAt, completeNotifiedAt := after.completeNotifiedAt)
    && held.items <= after.items && Additional(held.items, b.items, after.items[|held.items|..])
    && (if held.nextProofHeight != b.nextProofHeight
        then after.readyPendingAt.None? && after.readyNotifiedAt.None? && after.noticePendingAt.None? && after.noticedAt.None?
        else after.readyPendingAt == held.readyPendingAt && after.readyNotifiedAt == held.readyNotifiedAt
             && after.noticePendingAt == held.noticePendingAt && after.noticedAt == held.noticedAt)
    && (if held.nextProofHeight != b.nextProofHeight || |held.items| < |after.items|
        then after.completePendingAt.None? && after.completeNotifiedAt.None?
        else after.completePendingAt == held.completePendingAt && after.completeNotifiedAt == held.completeNotifiedAt)
  }

  lemma FlawedIsInvalid(sha: Data -> string, b: Batch)
    ensures Flawed(sha, b) <==> !ValidIncoming(sha, b)
  {
    if exists it :: it in b.items && FlawedItem(sha, it) {
      var it :| it in b.items && FlawedItem(sha, it);
      var k :| 0 <= k < |b.items| && b.items[k] == it;
    } else {
      forall k | 0 <= k < |b.items| ensures !FlawedItem(sha, b.items[k]) {
        assert b.items[k] in b.items;
      }
    }
  }

  /** The items added are the incoming ones whose ids are not stored; it fails exactly on a clash. */
  lemma {:induction false} AddedAre(held: seq<Item>, incoming: seq<Item>)
    ensures AddedItems(held, incoming).Err? <==> exists it :: it in incoming && Clashes(held, it)
    ensures AddedItems(held, incoming).Err? ==> AddedItems(held, incoming) == Err(ConflictingBatch)
    ensures AddedItems(held, incoming).Ok? ==>
      AddedItems(held, incoming).value == KeepItems(incoming, (it: Item) => ItemIndex(held, it.itemId) == |held|)
  {
    if incoming != [] {
      var front, last := incoming[..|incoming| - 1], incoming[|incoming| - 1];
      assert incoming == front + [last];
      AddedAre(held, front);
      ClashIs(held, last);
    }
  }

  lemma ClashIs(held: seq<Item>, it: Item)
    ensures Stores(held, it.itemId) <==> ItemIndex(held, it.itemId) < |held|
    ensures Clashes(held, it) <==>
      if ItemIndex(held, it.itemId) < |held| then !SameDelivery(held[ItemIndex(held, it.itemId)], it) else Collides(held, it)
  {
    if Stores(held, it.itemId) {
      var k :| 0 <= k < |held| && held[k].itemId == it.itemId;
    }
  }

  lemma AddedAreAdditional(held: seq<Item>, incoming: seq<Item>, added: seq<Item>)
    requires AddedItems(held, incoming) == Ok(added)
    ensures Additional(held, incoming, added)
  {
    AddedAre(held, incoming);
    KeptInOrder(incoming, (it: Item) => ItemIndex(held, it.itemId) == |held|);
    forall it ensures it in added <==> it in incoming && !Stores(held, it.itemId) {
      ClashIs(held, it);
    }
  }

  lemma RestagedIs(held: Batch, b: Batch, added: seq<Item>)
    requires AddedItems(held.items, b.items) == Ok(added)
    ensures RestagedFrom(held, b, Restaged(held, b, added))
  {
    AddedAreAdditional(held.items, b.items, added);
    assert Restaged(held, b, added).items[|held.items|..] == added;
  }

  /** A request to stage: it is invalid exactly when it is flawed, and conflicts exactly when the stored batch says so. */
  lemma StagingRefuses(sha: Data -> string, s: Snapshot, b: Batch)
    ensures Stage(sha, s, b) == Err(InvalidBatch) <==> Flawed(sha, b)
    ensures Stage(sha, s, b) == Err(ConflictingBatch)
       <==> !Flawed(sha, b) && HasId(s, b.batchId) && Conflicts(s.batches[BatchIndex(s.batches, b.batchId)], b)
    ensures Stage(sha, s, b).Err? ==> Stage(sha, s, b).error in {InvalidBatch, ConflictingBatch}
  {
    FlawedIsInvalid(sha, b);
    StoredAt(s, b.batchId);
    var at := BatchIndex(s.batches, b.batchId);
    if at < |s.batches| {
      AddedAre(s.batches[at].items, b.items);
    }
  }

  /** A request that is not refused is stored as it is if its id is new, and otherwise restages the one batch stored under its id. */
  lemma StagingIs(sha: Data -> string, s: Snapshot, b: Batch, t: Snapshot)
    requires Stage(sha, s, b) == Ok(t)
    ensures !HasId(s, b.batchId) ==> t == s.(batches := s.batches + [b])
    ensures HasId(s, b.batchId) ==>
      var at := BatchIndex(s.batches, b.batchId);
      OnlyBatch(s, t, at) && t.receipts == s.receipts && RestagedFrom(s.batches[at], b, t.batches[at])
  {
    StoredAt(s, b.batchId);
    var at := BatchIndex(s.batches, b.batchId);
    if at < |s.batches| {
      RestagedIs(s.batches[at], b, AddedItems(s.batches[at].items, b.items).value);
    }
  }

  // ----- arming and recovering -------------------------------------------------------------------------

  /** The request is about a delivery that the batch does not hold, or about nothing. */
  ghost predicate Misarms(b: Batch, digests: map<string, string>) {
    || (digests == map[] && b.nextProofHeight.None?)
    || exists id :: id in digests && forall it :: it in b.items && it.itemId == id ==> it.digest != digests[id]
  }

  /** Arming: refused for an unknown batch or a delivery it does not hold; otherwise exactly the staged items asked for are armed. */
  lemma ArmingIs(s: Snapshot, batchId: string, digests: map<string, string>, date: int)
    ensures var at := BatchIndex(s.batches, batchId); var r := ArmBatch(s, batchId, digests, date);
      && (r == Err(BatchNotFound) <==> !HasId(s, batchId))
      && (r == Err(InvalidArmRequest) <==> HasId(s, batchId) && Misarms(s.batches[at], digests))
      && (r.Err? ==> r.error in {BatchNotFound, InvalidArmRequest})
      && (r.Ok? ==> OnlyBatch(s, r.value, at) && r.value.receipts == s.receipts && ArmedFrom(s.batches[at], r.value.batches[at], digests, date))
  {
    StoredAt(s, batchId);
  }

  ghost predicate ArmedFrom(b: Batch, c: Batch, digests: map<string, string>, date: int) {
    && c == b.(items := c.items, armedAt := c.armedAt) && |c.items| == |b.items|
    && c.armedAt == (if b.armedAt.Some? then b.armedAt else Some(date))
    && forall k :: 0 <= k < |b.items| ==>
         c.items[k] == if b.items[k].status == Staged && b.items[k].itemId in digests then b.items[k].(status := Armed) else b.items[k]
  }

  /** The batch is not the one to recover: another owner, nothing in it, or a transaction that is not expected. */
  ghost predicate Unexpected(b: Batch, network: string, accountUuid: string, runId: string, expected: set<string>) {
    || b.network != network || b.accountUuid != accountUuid || b.runId != runId
    || b.items == [] || exists it :: it in b.items && it.txid !in expected
  }

  /** A staged item is armed, an interrupted submission is armed again, and the batch is armed if that leaves it anything armed. */
  ghost predicate RecoveredFrom(b: Batch, c: Batch, url: string, date: int) {
    && c == b.(items := c.items, armedAt := c.armedAt, url := url) && |c.items| == |b.items|
    && (forall k :: 0 <= k < |b.items| ==>
          match b.items[k].status
          case Staged => c.items[k] == b.items[k].(status := Armed)
          case Submitting => ArmedAgain(b.items[k], c.items[k], UNKNOWN_OUTCOME, date)
          case _ => c.items[k] == b.items[k])
    && c.armedAt == if b.armedAt.None? && (exists it :: it in c.items && it.status == Armed) then Some(date) else b.armedAt
  }

  /** Recovering a batch: refused without a transaction or an endpoint, or for a batch that is not the one; `false` if there is none. */
  lemma RecoveringIs(s: Snapshot, batchId: string, network: string, accountUuid: string, runId: string,
                     expected: set<string>, url: string, date: int)
    ensures var at := BatchIndex(s.batches, batchId); var r := RecoverBatch(s, batchId, network, accountUuid, runId, expected, url, date);
      && (r == Err(InvalidArmRequest) <==> expected == {} || url == "")
      && (r == Err(ConflictingBatch) <==>
            expected != {} && url != "" && HasId(s, batchId) && Unexpected(s.batches[at], network, accountUuid, runId, expected))
      && (r.Err? ==> r.error in {InvalidArmRequest, ConflictingBatch})
      && (r.Ok? ==> (r.value.1 <==> HasId(s, batchId)))
      && (r.Ok? && !r.value.1 ==> r.value.0 == s)
      && (r.Ok? && r.value.1 ==>
            OnlyBatch(s, r.value.0, at) && r.value.0.receipts == s.receipts && RecoveredFrom(s.batches[at], r.value.0.batches[at], url, date))
  {
    StoredAt(s, batchId);
    var at := BatchIndex(s.batches, batchId);
    if at < |s.batches| {
      var items := MapItems(s.batches[at].items, RecoveredItem(date));
      assert forall k :: 0 <= k < |items| ==> items[k] == RecoveredItem(date)(s.batches[at].items[k]);
    }
  }

  // ----- discarding and revoking -----------------------------------------------------------------------

  /** The batch was submitted from, or a receipt tells of it. */
  ghost predicate HasTraffic(s: Snapshot, b: Batch) {
    || (exists it :: it in b.items && (it.status == Submitting || it.attemptCount > 0))
    || (exists r :: r in s.receipts && r.batchId == b.batchId)
  }

  /** Discarding: refused exactly while the batch has a submission, an attempt or a receipt; otherwise exactly that batch goes. */
  lemma DiscardingIs(s: Snapshot, batchId: string)
    requires UniqueBatches(s.batches)
    ensures var r := DiscardBatch(s, batchId);
      && (r.Err? <==> HasId(s, batchId) && HasTraffic(s, s.batches[BatchIndex(s.batches, batchId)]))
      && (r.Err? ==> r.error == ConflictingBatch)
      && (r.Ok? ==> (r.value.1 <==> HasId(s, batchId)))
      && (r.Ok? ==> r.value.0 == s.(batches := r.value.0.batches))
      && (r.Ok? ==> forall b :: b in r.value.0.batches <==> b in s.batches && b.batchId != batchId)
  {
    StoredAt(s, batchId);
    var at := BatchIndex(s.batches, batchId);
    if at < |s.batches| {
      OthersAre(s, at);
    }
  }

  lemma OthersAre(s: Snapshot, at: nat)
    requires UniqueBatches(s.batches) && at < |s.batches|
    ensures forall b :: b in s.batches[..at] + s.batches[at + 1..] <==> b in s.batches && b.batchId != s.batches[at].batchId
  {
    var rest := s.batches[..at] + s.batches[at + 1..];
    forall b ensures b in rest <==> b in s.batches && b.batchId != s.batches[at].batchId {
      if b in s.batches && b.batchId != s.batches[at].batchId {
        var i :| 0 <= i < |s.batches| && s.batches[i] == b;
        assert rest[if i < at then i else i - 1] == b;
      }
    }
  }

  /**
   Revoking an account: exactly its batches go, exactly the receipts of its batches, exactly the delivered
   announcements under its prefix, and its place in the rotation of scopes.
   */
  lemma RevocationIs(s: Snapshot, network: string, accountUuid: string)
    requires UniqueBatches(s.batches)
    ensures var t := Revoke(s, network, accountUuid);
      && (forall b :: b in t.batches <==> b in s.batches && !(b.network == network && b.accountUuid == accountUuid))
      && (forall r :: r in t.receipts <==>
            (r in s.receipts && forall b :: b in s.batches && b.network == network && b.accountUuid == accountUuid ==> b.batchId != r.batchId))
      && (forall x :: x in Announced(t) <==> x in Announced(s) && !(network + ":" + accountUuid + ":" <= x))
      && t.lastEndpoint == s.lastEndpoint
      && t.lastScope == if s.lastScope == Some(network + ":" + accountUuid) then None else s.lastScope
  {
    var t := Revoke(s, network, accountUuid);
    forall b | b in s.batches
      ensures InAccount(s, network, accountUuid, b.batchId) <==> b.network == network && b.accountUuid == accountUuid
    {
      if InAccount(s, network, accountUuid, b.batchId) {
        var c :| c in s.batches && c.network == network && c.accountUuid == accountUuid && c.batchId == b.batchId;
        var i :| 0 <= i < |s.batches| && s.batches[i] == b;
        var j :| 0 <= j < |s.batches| && s.batches[j] == c;
      }
    }
    var kept := KeepIds(Announced(s), ScopePrefix(network, accountUuid));
    assert ScopePrefix(network, accountUuid) == network + ":" + accountUuid + ":";
    if kept == [] {
      forall x ensures x !in Announced(s) || network + ":" + accountUuid + ":" <= x {
        assert x !in kept;
      }
    }
  }

  /** An account that was served last and is then revoked is forgotten by the rotation of scopes. */
  lemma RevokedScopeIsForgotten(s: Snapshot, tip: U64, endpoint: Option<string>, date: int, i: nat)
    requires UniqueBatches(s.batches) && i < |s.batches|
    requires SelectDue(s, tip, endpoint, date).1.Some? && SelectDue(s, tip, endpoint, date).1.value.batchId == s.batches[i].batchId
    ensures Revoke(SelectDue(s, tip, endpoint, date).0, s.batches[i].network, s.batches[i].accountUuid).lastScope.None?
  {
    var scope := NextKey(DueScopes(s, tip, endpoint, date), s.lastScope);
    assert scope in DueScopes(s, tip, endpoint, date);
    SameBatch(s, i, ScopeBatch(s.batches, tip, endpoint, date, scope));
  }

  // ----- the sweeps at a tip ----------------------------------------------------------------------------

  /** The expiry height that a broadcast at this height carries: the end of the epoch after the running one, epochs ending at multiples of 34560. */
  ghost predicate EndsNextEpoch(expiry: nat, height: nat) {
    expiry % 34_560 == 0 && height + 34_560 < expiry <= height + 69_120
  }

  lemma CanonicalIs(height: U64)
    ensures forall expiry: U64 :: CanonicalExpiry(height) == Some(expiry) <==> EndsNextEpoch(expiry, height)
  {
    var expiry := height - height % EXPIRY_MODULUS + 2 * EXPIRY_MODULUS;
    var q := height / EXPIRY_MODULUS;
    assert height == q * EXPIRY_MODULUS + height % EXPIRY_MODULUS;
    assert expiry == (q + 2) * EXPIRY_MODULUS;
    assert EndsNextEpoch(expiry, height);
    forall other: U64 | EndsNextEpoch(other, height) ensures other == expiry {
      SameMultiple(other, expiry, height);
    }
  }

  lemma SameMultiple(a: nat, b: nat, height: nat)
    requires EndsNextEpoch(a, height) && EndsNextEpoch(b, height)
    ensures a == b
  {
    assert a == 34_560 * (a / 34_560) && b == 34_560 * (b / 34_560);
  }

  datatype Retirement = AtExpiry | AtResign

  ghost predicate Retires(kind: Retirement, it: Item, tip: U64) {
    && it.status == Armed
    && match kind
       case AtExpiry => it.expiryHeight <= tip
       case AtResign => it.scheduledHeight <= tip && (exists c: U64 :: EndsNextEpoch(c, tip)) && !EndsNextEpoch(it.expiryHeight, tip)
  }

  /** A batch in which something is retired sends nothing more and watches no proof; its other items stay as they are. */
  ghost predicate RetiredFrom(kind: Retirement, b: Batch, c: Batch, tip: U64) {
    && |c.items| == |b.items|
    && (forall k :: 0 <= k < |b.items| ==>
          c.items[k] == if Retires(kind, b.items[k], tip) then b.items[k].(status := if kind.AtExpiry? then Expired else NeedsResign) else b.items[k])
    && c == (if exists it :: it in b.items && Retires(kind, it, tip) then b.(items := c.items, armedAt := None, nextProofHeight := None) else b)
  }

  /** The receipt of one retired item at the endpoint. */
  ghost predicate TellsRetired(kind: Retirement, s: Snapshot, endpoint: string, tip: U64, date: int, r: Receipt, i: nat, k: nat) {
    && i < |s.batches| && k < |s.batches[i].items| && s.batches[i].url == endpoint && Retires(kind, s.batches[i].items[k], tip)
    && r.scheduleUpdates == []
    && match kind
       case AtExpiry => Reports(r, s.batches[i], s.batches[i].items[k], ExpiredOutcome, tip, None, None, date)
       case AtResign => Reports(r, s.batches[i], s.batches[i].items[k], NeedsResignOutcome, tip, None,
                                Some("Broadcast height crossed a ZIP 318 expiry boundary."), date)
  }

  ghost predicate IsTold(kind: Retirement, s: Snapshot, endpoint: string, tip: U64, date: int, r: Receipt) {
    exists i: nat, k: nat :: TellsRetired(kind, s, endpoint, tip, date, r, i, k)
  }

  /** A sweep: the batches of the endpoint lose what must be retired, one receipt is listed for each, and nothing else changes. */
  ghost predicate SweepIs(kind: Retirement, s: Snapshot, t: Snapshot, endpoint: string, tip: U64, date: int) {
    && t == s.(batches := t.batches, receipts := t.receipts) && |t.batches| == |s.batches| && s.receipts <= t.receipts
    && (forall i :: 0 <= i < |s.batches| ==>
          if s.batches[i].url == endpoint then RetiredFrom(kind, s.batches[i], t.batches[i], tip) else t.batches[i] == s.batches[i])
    && (forall r :: r in t.receipts[|s.receipts|..] <==> IsTold(kind, s, endpoint, tip, date, r))
  }

  lemma ExpirySweepIs(s: Snapshot, tip: U64, endpoint: string, date: int)
    ensures SweepIs(AtExpiry, s, ExpireItems(s, tip, endpoint, date), endpoint, tip, date)
  {
    forall it ensures ExpirySweep(tip).Hits(it) <==> Retires(AtExpiry, it, tip) {}
    SweptIs(AtExpiry, ExpirySweep(tip), s, endpoint, tip, date);
  }

  lemma ResignSweepIs(s: Snapshot, tip: U64, endpoint: string, date: int)
    ensures SweepIs(AtResign, s, MarkDueItemsNeedingResign(s, tip, endpoint, date), endpoint, tip, date)
  {
    CanonicalIs(tip);
    if CanonicalExpiry(tip).Some? {
      var canonical := CanonicalExpiry(tip).value;
      forall it ensures ResignSweep(tip, canonical).Hits(it) <==> Retires(AtResign, it, tip) {}
      SweptIs(AtResign, ResignSweep(tip, canonical), s, endpoint, tip, date);
    } else {
      assert forall it :: !Retires(AtResign, it, tip);
      assert s.receipts[|s.receipts|..] == [];
    }
  }

  ghost predicate Retiring(kind: Retirement, sweep: Sweep, tip: U64) {
    && sweep.tip == tip && (kind.AtExpiry? <==> sweep.ExpirySweep?)
    && forall it :: sweep.Hits(it) <==> Retires(kind, it, tip)
  }

  lemma SweptIs(kind: Retirement, sweep: Sweep, s: Snapshot, endpoint: string, tip: U64, date: int)
    requires Retiring(kind, sweep, tip)
    ensures SweepIs(kind, s, SweepAll(s, sweep, endpoint, date), endpoint, tip, date)
  {
    var t := SweepAll(s, sweep, endpoint, date);
    forall i | 0 <= i < |s.batches| && s.batches[i].url == endpoint ensures RetiredFrom(kind, s.batches[i], t.batches[i], tip) {
      SweptBatchIs(kind, sweep, s.batches[i], tip);
    }
    assert t.receipts[|s.receipts|..] == SweepBatches(sweep, endpoint, s.batches, date).1;
    forall r ensures r in t.receipts[|s.receipts|..] <==> IsTold(kind, s, endpoint, tip, date, r) {
      ReceiptsTell(kind, sweep, s, endpoint, tip, date, r);
    }
  }

  lemma SweptBatchIs(kind: Retirement, sweep: Sweep, b: Batch, tip: U64)
    requires Retiring(kind, sweep, tip)
    ensures RetiredFrom(kind, b, SweptBatch(sweep, b), tip)
  {
    var c := SweptBatch(sweep, b);
    assert forall k :: 0 <= k < |b.items| ==> c.items[k] == sweep.Retired(b.items[k]);
    if !exists it :: it in b.items && Retires(kind, it, tip) {
      assert forall k :: 0 <= k < |b.items| ==> b.items[k] in b.items;
      assert c.items == b.items;
    }
  }

  lemma {:induction false} BatchReceiptsTell(kind: Retirement, sweep: Sweep, b: Batch, items: seq<Item>, tip: U64, date: int, r: Receipt)
    requires Retiring(kind, sweep, tip)
    ensures r in SweepReceipts(sweep, b, items, date)
       <==> exists it :: it in items && sweep.Hits(it)
              && r == MakeReceipt(b, it, sweep.Outcome(), tip, None, sweep.Message(), [], date)
  {
    if items != [] {
      BatchReceiptsTell(kind, sweep, b, items[..|items| - 1], tip, date, r);
      assert items == items[..|items| - 1] + [items[|items| - 1]];
    }
  }

  ghost predicate MadeFor(sweep: Sweep, batches: seq<Batch>, endpoint: string, date: int, r: Receipt, i: nat) {
    && i < |batches| && batches[i].url == endpoint && r in SweepReceipts(sweep, batches[i], batches[i].items, date)
  }

  ghost predicate MadeForSome(sweep: Sweep, batches: seq<Batch>, endpoint: string, date: int, r: Receipt) {
    exists i: nat :: MadeFor(sweep, batches, endpoint, date, r, i)
  }

  lemma MadeForLast(sweep: Sweep, batches: seq<Batch>, endpoint: string, date: int, r: Receipt)
    requires batches != []
    ensures MadeForSome(sweep, batches, endpoint, date, r)
       <==> MadeForSome(sweep, batches[..|batches| - 1], endpoint, date, r) || MadeFor(sweep, batches, endpoint, date, r, |batches| - 1)
  {
    var front := batches[..|batches| - 1];
    if MadeForSome(sweep, front, endpoint, date, r) {
      var i: nat :| MadeFor(sweep, front, endpoint, date, r, i);
      assert MadeFor(sweep, batches, endpoint, date, r, i);
    }
    if MadeForSome(sweep, batches, endpoint, date, r) {
      var i: nat :| MadeFor(sweep, batches, endpoint, date, r, i);
      assert i < |front| ==> MadeFor(sweep, front, endpoint, date, r, i);
    }
  }

  lemma {:induction false} SweepReceiptsAre(sweep: Sweep, batches: seq<Batch>, endpoint: string, date: int, r: Receipt)
    ensures r in SweepBatches(sweep, endpoint, batches, date).1 <==> MadeForSome(sweep, batches, endpoint, date, r)
  {
    if batches != [] {
      SweepReceiptsAre(sweep, batches[..|batches| - 1], endpoint, date, r);
      MadeForLast(sweep, batches, endpoint, date, r);
    }
  }

  lemma MadeIsTold(kind: Retirement, sweep: Sweep, s: Snapshot, endpoint: string, tip: U64, date: int, r: Receipt, i: nat)
    requires Retiring(kind, sweep, tip) && MadeFor(sweep, s.batches, endpoint, date, r, i)
    ensures IsTold(kind, s, endpoint, tip, date, r)
  {
    var items := s.batches[i].items;
    BatchReceiptsTell(kind, sweep, s.batches[i], items, tip, date, r);
    var it :| it in items && sweep.Hits(it) && r == MakeReceipt(s.batches[i], it, sweep.Outcome(), tip, None, sweep.Message(), [], date);
    var k: nat :| k < |items| && items[k] == it;
    assert TellsRetired(kind, s, endpoint, tip, date, r, i, k);
  }

  lemma ToldIsMade(kind: Retirement, sweep: Sweep, s: Snapshot, endpoint: string, tip: U64, date: int, r: Receipt, i: nat, k: nat)
    requires Retiring(kind, sweep, tip) && TellsRetired(kind, s, endpoint, tip, date, r, i, k)
    ensures MadeFor(sweep, s.batches, endpoint, date, r, i)
  {
    var it := s.batches[i].items[k];
    BatchReceiptsTell(kind, sweep, s.batches[i], s.batches[i].items, tip, date, r);
    assert it in s.batches[i].items;
    assert r == MakeReceipt(s.batches[i], it, sweep.Outcome(), tip, None, sweep.Message(), [], date);
  }

  lemma ReceiptsTell(kind: Retirement, sweep: Sweep, s: Snapshot, endpoint: string, tip: U64, date: int, r: Receipt)
    requires Retiring(kind, sweep, tip)
    ensures r in SweepBatches(sweep, endpoint, s.batches, date).1 <==> IsTold(kind, s, endpoint, tip, date, r)
  {
    SweepReceiptsAre(sweep, s.batches, endpoint, date, r);
    if MadeForSome(sweep, s.batches, endpoint, date, r) {
      var i: nat :| MadeFor(sweep, s.batches, endpoint, date, r, i);
      MadeIsTold(kind, sweep, s, endpoint, tip, date, r, i);
    }
    if IsTold(kind, s, endpoint, tip, date, r) {
      var i: nat, k: nat :| TellsRetired(kind, s, endpoint, tip, date, r, i, k);
      ToldIsMade(kind, sweep, s, endpoint, tip, date, r, i, k);
    }
  }
}
