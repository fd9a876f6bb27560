/**
 Counting over the outbox. Item ids and outstanding reconciliations are both counted with the same
 function, so one set of laws serves the uniqueness of ids and the matching of receipts.
 */
module Counting {
  import opened OutboxModel

  /** The part of a batch that names it and that no mutation changes. */
  datatype Owner = Owner(batchId: string, network: string, accountUuid: string, runId: string)

  function OwnerOf(b: Batch): Owner { Owner(b.batchId, b.network, b.accountUuid, b.runId) }

  /** One reconciliation the app still owes: which item of which batch, and what became of it. */
  datatype Debt = Debt(owner: Owner, itemId: string, txid: string, status: ItemStatus)

  predicate Awaiting(s: ItemStatus) { s == Accepted || s == Rejected || s == Expired || s == NeedsResign }

  function StatusOf(o: Outcome): ItemStatus {
    match o
    case AcceptedOutcome => Accepted
    case AcceptedEquivalentOutcome => Accepted
    case RejectedOutcome => Rejected
    case ExpiredOutcome => Expired
    case NeedsResignOutcome => NeedsResign
  }

  datatype Query = ById(itemId: string) | ByDebt(debt: Debt)

  function Hit(q: Query, o: Owner, it: Item): nat {
    match q
    case ById(id) => if it.itemId == id then 1 else 0
    case ByDebt(d) => if Awaiting(it.status) && d == Debt(o, it.itemId, it.txid, it.status) then 1 else 0
  }

  function Count(q: Query, o: Owner, items: seq<Item>): nat {
    if items == [] then 0 else Count(q, o, items[..|items| - 1]) + Hit(q, o, items[|items| - 1])
  }

  function CountIn(q: Query, b: Batch): nat { Count(q, OwnerOf(b), b.items) }

  function CountAll(q: Query, batches: seq<Batch>): nat {
    if batches == [] then 0 else CountAll(q, batches[..|batches| - 1]) + CountIn(q, batches[|batches| - 1])
  }

  function ReceiptDebt(r: Receipt): Debt {
    Debt(Owner(r.batchId, r.network, r.accountUuid, r.runId), r.itemId, r.txid, StatusOf(r.outcome))
  }

  function CountReceipts(d: Debt, receipts: seq<Receipt>): nat {
    if receipts == [] then 0
    else CountReceipts(d, receipts[..|receipts| - 1]) + (if ReceiptDebt(receipts[|receipts| - 1]) == d then 1 else 0)
  }

  // ----- laws of Count ----------------------------------------------------------------------

  lemma {:induction false} CountConcat(q: Query, o: Owner, a: seq<Item>, b: seq<Item>)
    ensures Count(q, o, a + b) == Count(q, o, a) + Count(q, o, b)
  {
    if b == [] {
      assert a + b == a;
    } else {
      CountConcat(q, o, a, b[..|b| - 1]);
      assert (a + b)[..|a + b| - 1] == a + b[..|b| - 1];
    }
  }

  lemma {:induction false} CountSame(q: Query, o: Owner, a: seq<Item>, b: seq<Item>)
    requires |a| == |b| && forall i :: 0 <= i < |a| ==> Hit(q, o, a[i]) == Hit(q, o, b[i])
    ensures Count(q, o, a) == Count(q, o, b)
  {
    if a != [] {
      CountSame(q, o, a[..|a| - 1], b[..|b| - 1]);
    }
  }

  lemma CountSplit(q: Query, o: Owner, items: seq<Item>, i: nat)
    requires i < |items|
    ensures Count(q, o, items) == Count(q, o, items[..i]) + Hit(q, o, items[i]) + Count(q, o, items[i + 1..])
  {
    assert items == items[..i + 1] + items[i + 1..];
    CountConcat(q, o, items[..i + 1], items[i + 1..]);
    assert items[..i + 1][..i] == items[..i];
  }

  lemma CountUpdate(q: Query, o: Owner, items: seq<Item>, i: nat, it: Item)
    requires i < |items|
    ensures Count(q, o, items[i := it]) + Hit(q, o, items[i]) == Count(q, o, items) + Hit(q, o, it)
  {
    CountSplit(q, o, items, i);
    CountSplit(q, o, items[i := it], i);
    assert items[i := it][..i] == items[..i] && items[i := it][i + 1..] == items[i + 1..];
  }

  /** Two positions contribute together. */
  lemma CountTwo(q: Query, o: Owner, items: seq<Item>, i: nat, j: nat)
    requires i < j < |items|
    ensures Hit(q, o, items[i]) + Hit(q, o, items[j]) <= Count(q, o, items)
  {
    CountSplit(q, o, items, j);
    CountSplit(q, o, items[..j], i);
    assert items[..j][i] == items[i];
  }

  lemma {:induction false} CountWitness(q: Query, o: Owner, items: seq<Item>) returns (i: nat)
    requires Count(q, o, items) > 0
    ensures i < |items| && Hit(q, o, items[i]) > 0
  {
    i := |items| - 1;
    if Hit(q, o, items[i]) == 0 {
      i := CountWitness(q, o, items[..|items| - 1]);
    }
  }

  // ----- laws of CountAll -------------------------------------------------------------------

  lemma {:induction false} CountAllConcat(q: Query, a: seq<Batch>, b: seq<Batch>)
    ensures CountAll(q, a + b) == CountAll(q, a) + CountAll(q, b)
  {
    if b == [] {
      assert a + b == a;
    } else {
      CountAllConcat(q, a, b[..|b| - 1]);
      assert (a + b)[..|a + b| - 1] == a + b[..|b| - 1];
    }
  }

  lemma {:induction false} CountAllSame(q: Query, a: seq<Batch>, b: seq<Batch>)
    requires |a| == |b| && forall i :: 0 <= i < |a| ==> CountIn(q, a[i]) == CountIn(q, b[i])
    ensures CountAll(q, a) == CountAll(q, b)
  {
    if a != [] {
      CountAllSame(q, a[..|a| - 1], b[..|b| - 1]);
    }
  }

  lemma CountAllSplit(q: Query, batches: seq<Batch>, i: nat)
    requires i < |batches|
    ensures CountAll(q, batches) == CountAll(q, batches[..i]) + CountIn(q, batches[i]) + CountAll(q, batches[i + 1..])
  {
    assert batches == batches[..i + 1] + batches[i + 1..];
    CountAllConcat(q, batches[..i + 1], batches[i + 1..]);
    assert batches[..i + 1][..i] == batches[..i];
  }

  lemma CountAllUpdate(q: Query, batches: seq<Batch>, i: nat, b: Batch)
    requires i < |batches|
    ensures CountAll(q, batches[i := b]) + CountIn(q, batches[i]) == CountAll(q, batches) + CountIn(q, b)
  {
    CountAllSplit(q, batches, i);
    CountAllSplit(q, batches[i := b], i);
    assert batches[i := b][..i] == batches[..i] && batches[i := b][i + 1..] == batches[i + 1..];
  }

  lemma CountAllRemove(q: Query, batches: seq<Batch>, i: nat)
    requires i < |batches|
    ensures CountAll(q, batches[..i] + batches[i + 1..]) + CountIn(q, batches[i]) == CountAll(q, batches)
  {
    CountAllSplit(q, batches, i);
    CountAllConcat(q, batches[..i], batches[i + 1..]);
  }

  lemma CountAllTwo(q: Query, batches: seq<Batch>, i: nat, j: nat)
    requires i < j < |batches|
    ensures CountIn(q, batches[i]) + CountIn(q, batches[j]) <= CountAll(q, batches)
  {
    CountAllSplit(q, batches, j);
    CountAllSplit(q, batches[..j], i);
    assert batches[..j][i] == batches[i];
  }

  lemma {:induction false} CountAllWitness(q: Query, batches: seq<Batch>) returns (i: nat, j: nat)
    requires CountAll(q, batches) > 0
    ensures i < |batches| && j < |batches[i].items| && Hit(q, OwnerOf(batches[i]), batches[i].items[j]) > 0
  {
    i := |batches| - 1;
    if CountIn(q, batches[i]) > 0 {
      j := CountWitness(q, OwnerOf(batches[i]), batches[i].items);
    } else {
      i, j := CountAllWitness(q, batches[..|batches| - 1]);
    }
  }

  /** An id that some item carries is counted. */
  lemma CountAllPresent(q: Query, batches: seq<Batch>, i: nat, j: nat)
    requires i < |batches| && j < |batches[i].items|
    ensures Hit(q, OwnerOf(batches[i]), batches[i].items[j]) <= CountIn(q, batches[i]) <= CountAll(q, batches)
  {
    CountSplit(q, OwnerOf(batches[i]), batches[i].items, j);
    CountAllSplit(q, batches, i);
  }

  // ----- laws of CountReceipts --------------------------------------------------------------

  lemma {:induction false} CountReceiptsConcat(d: Debt, a: seq<Receipt>, b: seq<Receipt>)
    ensures CountReceipts(d, a + b) == CountReceipts(d, a) + CountReceipts(d, b)
  {
    if b == [] {
      assert a + b == a;
    } else {
      CountReceiptsConcat(d, a, b[..|b| - 1]);
      assert (a + b)[..|a + b| - 1] == a + b[..|b| - 1];
    }
  }

  lemma CountReceiptsOne(d: Debt, r: Receipt)
    ensures CountReceipts(d, [r]) == if ReceiptDebt(r) == d then 1 else 0
  {
    assert [r][..0] == [];
  }

  lemma CountReceiptsSplit(d: Debt, receipts: seq<Receipt>, i: nat)
    requires i < |receipts|
    ensures CountReceipts(d, receipts)
         == CountReceipts(d, receipts[..i]) + (if ReceiptDebt(receipts[i]) == d then 1 else 0) + CountReceipts(d, receipts[i + 1..])
  {
    assert receipts == receipts[..i] + [receipts[i]] + receipts[i + 1..];
    CountReceiptsConcat(d, receipts[..i] + [receipts[i]], receipts[i + 1..]);
    CountReceiptsConcat(d, receipts[..i], [receipts[i]]);
    CountReceiptsOne(d, receipts[i]);
  }

  lemma {:induction false} CountReceiptsWitness(d: Debt, receipts: seq<Receipt>) returns (i: nat)
    requires CountReceipts(d, receipts) > 0
    ensures i < |receipts| && ReceiptDebt(receipts[i]) == d
  {
    i := |receipts| - 1;
    if ReceiptDebt(receipts[i]) != d {
      i := CountReceiptsWitness(d, receipts[..|receipts| - 1]);
    }
  }
}
