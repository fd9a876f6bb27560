/** What every stored snapshot satisfies, and what follows from it about lookups by id. */
module OutboxInvariant {
  import opened Common
  import opened OutboxModel
  import opened Counting

  ghost predicate UniqueBatches(batches: seq<Batch>) {
    forall i, j :: 0 <= i < j < |batches| ==> batches[i].batchId != batches[j].batchId
  }

  /** No item id is stored twice, in one batch or in two. */
  ghost predicate UniqueItems(batches: seq<Batch>) {
    forall id: string :: CountAll(ById(id), batches) <= 1
  }

  /** Receipts and items awaiting reconciliation correspond one to one. */
  ghost predicate Matched(s: Snapshot) {
    forall d: Debt :: CountAll(ByDebt(d), s.batches) == CountReceipts(d, s.receipts)
  }

  ghost predicate ItemOk(sha: Data -> string, it: Item) {
    && it.digest == sha(it.raw)
    && it.scheduledHeight < it.expiryHeight
    && (it.status != Submitting ==> it.attemptId.None? && it.attemptStartedAt.None?)
  }

  /** Timing that can be sampled, and no announcement both pending and delivered. */
  ghost predicate BatchOk(sha: Data -> string, announced: seq<string>, b: Batch) {
    && 0 < b.timingMean <= b.timingMax
    && !(b.readyPendingAt.Some? && b.readyNotifiedAt.Some?)
    && !(b.noticePendingAt.Some? && b.noticedAt.Some?)
    && !(b.completePendingAt.Some? && b.completeNotifiedAt.Some?)
    && (b.completePendingAt.Some? ==> b.batchId !in announced)
    && forall j :: 0 <= j < |b.items| ==> ItemOk(sha, b.items[j])
  }

  ghost predicate AllOk(sha: Data -> string, s: Snapshot) {
    forall i :: 0 <= i < |s.batches| ==> BatchOk(sha, Announced(s), s.batches[i])
  }

  ghost predicate Inv(sha: Data -> string, s: Snapshot) {
    UniqueBatches(s.batches) && UniqueItems(s.batches) && Matched(s) && AllOk(sha, s)
  }

  // ----- lookups ----------------------------------------------------------------------------

  /** An item id stands for one position. */
  lemma SamePosition(batches: seq<Batch>, i: nat, j: nat, k: nat, l: nat)
    requires UniqueItems(batches)
    requires i < |batches| && j < |batches[i].items| && k < |batches| && l < |batches[k].items|
    requires batches[i].items[j].itemId == batches[k].items[l].itemId
    ensures i == k && j == l
  {
    var q := ById(batches[i].items[j].itemId);
    CountAllPresent(q, batches, i, j);
    CountAllPresent(q, batches, k, l);
    if i < k { CountAllTwo(q, batches, i, k); }
    if k < i { CountAllTwo(q, batches, k, i); }
    if i == k && j < l { CountTwo(q, OwnerOf(batches[i]), batches[i].items, j, l); CountAllSplit(q, batches, i); }
    if i == k && l < j { CountTwo(q, OwnerOf(batches[i]), batches[i].items, l, j); CountAllSplit(q, batches, i); }
  }

  /** A stored item is where a lookup by its id finds it. */
  lemma LocationFinds(batches: seq<Batch>, i: nat, j: nat)
    requires UniqueItems(batches) && i < |batches| && j < |batches[i].items|
    ensures ItemLocation(batches, batches[i].items[j].itemId) == Some((i, j))
  {
    var id := batches[i].items[j].itemId;
    assert ItemIndex(batches[i].items, id) <= j;
    var at := ItemLocation(batches, id);
    assert at.Some?;
    SamePosition(batches, i, j, at.value.0, at.value.1);
  }

  lemma BatchFinds(batches: seq<Batch>, i: nat)
    requires UniqueBatches(batches) && i < |batches|
    ensures BatchIndex(batches, batches[i].batchId) == i
  {
    assert BatchIndex(batches, batches[i].batchId) <= i;
  }

  lemma ItemFinds(batches: seq<Batch>, i: nat, j: nat)
    requires UniqueItems(batches) && i < |batches| && j < |batches[i].items|
    ensures ItemIndex(batches[i].items, batches[i].items[j].itemId) == j
  {
    var at := ItemIndex(batches[i].items, batches[i].items[j].itemId);
    assert at <= j;
    SamePosition(batches, i, j, i, at);
  }

  // ----- receipts ---------------------------------------------------------------------------

  ghost predicate Owes(s: Snapshot, i: nat, j: nat, r: Receipt)
    requires i < |s.batches| && j < |s.batches[i].items|
  {
    && Awaiting(s.batches[i].items[j].status)
    && ReceiptDebt(r) == Debt(OwnerOf(s.batches[i]), s.batches[i].items[j].itemId, s.batches[i].items[j].txid, s.batches[i].items[j].status)
  }

  /** Every listed receipt has its item, in the status it reports. */
  lemma ReceiptHasItem(s: Snapshot, r: Receipt) returns (i: nat, j: nat)
    requires Matched(s) && r in s.receipts
    ensures i < |s.batches| && j < |s.batches[i].items| && Owes(s, i, j, r)
  {
    var m :| 0 <= m < |s.receipts| && s.receipts[m] == r;
    CountReceiptsSplit(ReceiptDebt(r), s.receipts, m);
    i, j := CountAllWitness(ByDebt(ReceiptDebt(r)), s.batches);
  }

  /** Every item awaiting reconciliation has its receipt. */
  lemma ItemHasReceipt(s: Snapshot, i: nat, j: nat) returns (m: nat)
    requires Matched(s) && i < |s.batches| && j < |s.batches[i].items| && Awaiting(s.batches[i].items[j].status)
    ensures m < |s.receipts| && Owes(s, i, j, s.receipts[m])
  {
    var it := s.batches[i].items[j];
    var d := Debt(OwnerOf(s.batches[i]), it.itemId, it.txid, it.status);
    CountAllPresent(ByDebt(d), s.batches, i, j);
    m := CountReceiptsWitness(d, s.receipts);
  }

  /** No item is reported twice, not even with two outcomes. */
  lemma ReceiptsDistinct(s: Snapshot, m: nat, n: nat)
    requires Matched(s) && UniqueItems(s.batches) && m < n < |s.receipts|
    ensures s.receipts[m].itemId != s.receipts[n].itemId
  {
    var a, b := s.receipts[m], s.receipts[n];
    if a.itemId == b.itemId {
      var i, j := ReceiptHasItem(s, a);
      var k, l := ReceiptHasItem(s, b);
      SamePosition(s.batches, i, j, k, l);
      var d := ReceiptDebt(a);
      assert ReceiptDebt(b) == d;
      CountReceiptsSplit(d, s.receipts, n);
      CountReceiptsSplit(d, s.receipts[..n], m);
      assert s.receipts[..n][m] == a;
      assert CountReceipts(d, s.receipts) >= 2;
      DebtOnce(s.batches, d);
      assert false;
    }
  }

  lemma {:induction false} HitBound(d: Debt, o: Owner, items: seq<Item>)
    ensures Count(ByDebt(d), o, items) <= Count(ById(d.itemId), o, items)
  {
    if items != [] {
      HitBound(d, o, items[..|items| - 1]);
    }
  }

  lemma {:induction false} HitBoundAll(d: Debt, batches: seq<Batch>)
    ensures CountAll(ByDebt(d), batches) <= CountAll(ById(d.itemId), batches)
  {
    if batches != [] {
      HitBoundAll(d, batches[..|batches| - 1]);
      HitBound(d, OwnerOf(batches[|batches| - 1]), batches[|batches| - 1].items);
    }
  }

  lemma DebtOnce(batches: seq<Batch>, d: Debt)
    requires UniqueItems(batches)
    ensures CountAll(ByDebt(d), batches) <= 1
  {
    HitBoundAll(d, batches);
  }

  /**
   A receipt the channel lists still has the raw transaction it is about: the lookup by batch id and
   item id succeeds, and finds an item with the receipt's txid, owner and status.
   */
  lemma ListedReceiptHasPayload(sha: Data -> string, s: Snapshot, r: Receipt)
    requires Inv(sha, s) && r in s.receipts
    ensures ReceiptPayload(s, r).Some?
    ensures exists i, j ::
      0 <= i < |s.batches| && 0 <= j < |s.batches[i].items| && Owes(s, i, j, r) && ReceiptPayload(s, r) == Some(s.batches[i].items[j].raw)
  {
    var i, j := ReceiptHasItem(s, r);
    BatchFinds(s.batches, i);
    ItemFinds(s.batches, i, j);
    assert ReceiptPayload(s, r) == Some(s.batches[i].items[j].raw);
  }
}
