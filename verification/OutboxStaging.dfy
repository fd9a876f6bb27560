/** Staging: what a restage adds, what it leaves alone, and that staging twice is staging once. */
module OutboxStaging {
  import opened Common
  import opened OutboxModel
  import opened Counting
  import opened OutboxInvariant
  import opened OutboxSteps

  /** What the channel's decoder guarantees of a batch: no item carries an attempt. */
  ghost predicate FromChannel(b: Batch) {
    forall j :: 0 <= j < |b.items| ==> b.items[j].attemptCount == 0 && b.items[j].attemptId.None? && b.items[j].attemptStartedAt.None?
  }

  /** Item ids are unique across batches: no incoming id is stored under another batch id. */
  ghost predicate IdsFree(s: Snapshot, b: Batch) {
    forall i, j, k :: 0 <= i < |s.batches| && 0 <= j < |s.batches[i].items| && 0 <= k < |b.items|
                      && s.batches[i].items[j].itemId == b.items[k].itemId
                      ==> s.batches[i].batchId == b.batchId
  }

  lemma {:induction false} AbsentCount(id: string, o: Owner, items: seq<Item>)
    requires forall j :: 0 <= j < |items| ==> items[j].itemId != id
    ensures Count(ById(id), o, items) == 0
  {
    if items != [] {
      AbsentCount(id, o, items[..|items| - 1]);
    }
  }

  lemma {:induction false} AbsentEverywhere(id: string, batches: seq<Batch>)
    requires forall i :: 0 <= i < |batches| ==> forall j :: 0 <= j < |batches[i].items| ==> batches[i].items[j].itemId != id
    ensures CountAll(ById(id), batches) == 0
  {
    if batches != [] {
      AbsentEverywhere(id, batches[..|batches| - 1]);
      AbsentCount(id, OwnerOf(batches[|batches| - 1]), batches[|batches| - 1].items);
    }
  }

  lemma {:induction false} DistinctCount(id: string, o: Owner, items: seq<Item>)
    requires forall i, j :: 0 <= i < j < |items| ==> items[i].itemId != items[j].itemId
    ensures Count(ById(id), o, items) <= 1
  {
    if items != [] {
      DistinctCount(id, o, items[..|items| - 1]);
      if items[|items| - 1].itemId == id {
        AbsentCount(id, o, items[..|items| - 1]);
      }
    }
  }

  lemma {:induction false} StagedOwesNothing(d: Debt, o: Owner, items: seq<Item>)
    requires forall j :: 0 <= j < |items| ==> items[j].status == Staged
    ensures Count(ByDebt(d), o, items) == 0
  {
    if items != [] {
      StagedOwesNothing(d, o, items[..|items| - 1]);
    }
  }

  /** The items a restage adds come from the request, under ids the batch does not hold. */
  ghost predicate NewTo(existing: seq<Item>, incoming: seq<Item>, it: Item) {
    it in incoming && ItemIndex(existing, it.itemId) == |existing|
  }

  lemma {:induction false} AddedAreNew(existing: seq<Item>, incoming: seq<Item>)
    requires DistinctItems(incoming)
    requires AddedItems(existing, incoming).Ok?
    ensures var added := AddedItems(existing, incoming).value;
      && (forall j :: 0 <= j < |added| ==> NewTo(existing, incoming, added[j]))
      && (forall i, j :: 0 <= i < j < |added| ==> added[i].itemId != added[j].itemId)
  {
    if incoming != [] {
      var front, last := incoming[..|incoming| - 1], incoming[|incoming| - 1];
      AddedAreNew(existing, front);
      assert incoming == front + [last];
      var before := AddedItems(existing, front).value;
      forall j | 0 <= j < |before| ensures NewTo(existing, incoming, before[j]) && before[j].itemId != last.itemId {
        assert NewTo(existing, front, before[j]);
        var k :| 0 <= k < |front| && front[k] == before[j];
        assert incoming[k].itemId != incoming[|incoming| - 1].itemId;
      }
    }
  }

  /** What the incoming items must look like for the stored ones to stay well formed. */
  lemma IncomingOk(sha: Data -> string, b: Batch, j: nat)
    requires ValidIncoming(sha, b) && FromChannel(b) && j < |b.items|
    ensures ItemOk(sha, b.items[j]) && b.items[j].attemptCount == 0 && b.items[j].status == Staged
  {
  }

  /** No incoming item that the batch lacks is stored anywhere. */
  lemma NewIdIsFree(s: Snapshot, b: Batch, it: Item)
    requires UniqueBatches(s.batches) && IdsFree(s, b) && it in b.items
    requires var at := BatchIndex(s.batches, b.batchId);
      at < |s.batches| ==> ItemIndex(s.batches[at].items, it.itemId) == |s.batches[at].items|
    ensures CountAll(ById(it.itemId), s.batches) == 0
  {
    var k :| 0 <= k < |b.items| && b.items[k] == it;
    forall i | 0 <= i < |s.batches|
      ensures forall j :: 0 <= j < |s.batches[i].items| ==> s.batches[i].items[j].itemId != it.itemId
    {
      forall j | 0 <= j < |s.batches[i].items| ensures s.batches[i].items[j].itemId != it.itemId {
        if s.batches[i].items[j].itemId == b.items[k].itemId {
          BatchFinds(s.batches, i);
          assert false;
        }
      }
    }
    AbsentEverywhere(it.itemId, s.batches);
  }

  lemma StageNew(sha: Data -> string, s: Snapshot, b: Batch)
    requires Inv(sha, s) && ValidIncoming(sha, b) && FromChannel(b) && IdsFree(s, b)
    requires BatchIndex(s.batches, b.batchId) == |s.batches|
    ensures Inv(sha, s.(batches := s.batches + [b])) && Descends(s, s.(batches := s.batches + [b]), Nobody)
  {
    var t := s.(batches := s.batches + [b]);
    forall q: Query ensures CountAll(q, t.batches) == CountAll(q, s.batches) + CountIn(q, b) {
      assert t.batches[..|s.batches|] == s.batches;
    }
    forall id: string ensures CountAll(ById(id), t.batches) <= 1 {
      DistinctCount(id, OwnerOf(b), b.items);
      if CountIn(ById(id), b) > 0 {
        var k := CountWitness(ById(id), OwnerOf(b), b.items);
        NewIdIsFree(s, b, b.items[k]);
      }
    }
    forall d: Debt ensures CountAll(ByDebt(d), t.batches) == CountReceipts(d, t.receipts) {
      StagedOwesNothing(d, OwnerOf(b), b.items);
    }
    forall i | 0 <= i < |t.batches| ensures BatchOk(sha, Announced(t), t.batches[i]) {
      if i < |s.batches| {
        assert BatchOk(sha, Announced(s), s.batches[i]);
      } else {
        forall j | 0 <= j < |b.items| ensures ItemOk(sha, b.items[j]) { IncomingOk(sha, b, j); }
      }
    }
    StageNewDescends(sha, s, b, t);
  }

  lemma StageNewDescends(sha: Data -> string, s: Snapshot, b: Batch, t: Snapshot)
    requires Inv(sha, s) && ValidIncoming(sha, b) && FromChannel(b) && IdsFree(s, b)
    requires BatchIndex(s.batches, b.batchId) == |s.batches| && t == s.(batches := s.batches + [b])
    ensures Descends(s, t, Nobody)
  {
    forall k, l | 0 <= k < |t.batches| && 0 <= l < |t.batches[k].items|
      ensures Inherits(s, t.batches[k].batchId, t.batches[k].items[l], Nobody) || Fresh(s, t.batches[k].items[l])
    {
      if k < |s.batches| {
        assert Follows(s.batches[k].items[l], t.batches[k].items[l], Nobody);
      } else {
        IncomingOk(sha, b, l);
        NewIdIsFree(s, b, b.items[l]);
      }
    }
  }

  /** The items a restage adds, all that the invariant asks of them. */
  ghost predicate Additions(sha: Data -> string, s: Snapshot, added: seq<Item>) {
    && (forall j :: 0 <= j < |added| ==> ItemOk(sha, added[j]) && Fresh(s, added[j]))
    && (forall i, j :: 0 <= i < j < |added| ==> added[i].itemId != added[j].itemId)
  }

  lemma AddedItemsOk(sha: Data -> string, s: Snapshot, b: Batch, added: seq<Item>)
    requires Inv(sha, s) && ValidIncoming(sha, b) && FromChannel(b) && IdsFree(s, b)
    requires BatchIndex(s.batches, b.batchId) < |s.batches|
    requires AddedItems(s.batches[BatchIndex(s.batches, b.batchId)].items, b.items) == Ok(added)
    ensures Additions(sha, s, added)
  {
    var existing := s.batches[BatchIndex(s.batches, b.batchId)].items;
    AddedAreNew(existing, b.items);
    forall j | 0 <= j < |added| ensures ItemOk(sha, added[j]) && Fresh(s, added[j]) {
      assert NewTo(existing, b.items, added[j]);
      var k :| 0 <= k < |b.items| && b.items[k] == added[j];
      IncomingOk(sha, b, k);
      NewIdIsFree(s, b, added[j]);
    }
  }

  lemma ExtendStep(sha: Data -> string, s: Snapshot, at: nat, c: Batch, added: seq<Item>)
    requires Inv(sha, s) && at < |s.batches| && Additions(sha, s, added)
    requires OwnerOf(c) == OwnerOf(s.batches[at]) && c.items == s.batches[at].items + added
    requires BatchOk(sha, Announced(s), c.(items := []))
    ensures Inv(sha, WithBatch(s, at, c)) && Descends(s, WithBatch(s, at, c), Nobody)
  {
    var t := WithBatch(s, at, c);
    var b := s.batches[at];
    assert Announced(t) == Announced(s);
    forall q: Query ensures CountAll(q, t.batches) == CountAll(q, s.batches) + Count(q, OwnerOf(b), added) {
      CountAllUpdate(q, s.batches, at, c);
      CountConcat(q, OwnerOf(b), b.items, added);
    }
    forall id: string ensures CountAll(ById(id), t.batches) <= 1 {
      DistinctCount(id, OwnerOf(b), added);
      if Count(ById(id), OwnerOf(b), added) > 0 {
        var k := CountWitness(ById(id), OwnerOf(b), added);
        assert Fresh(s, added[k]);
      }
    }
    forall d: Debt ensures CountAll(ByDebt(d), t.batches) == CountReceipts(d, t.receipts) {
      StagedOwesNothing(d, OwnerOf(b), added);
    }
    assert BatchOk(sha, Announced(s), b);
    forall i | 0 <= i < |t.batches| ensures BatchOk(sha, Announced(t), t.batches[i]) {
      assert BatchOk(sha, Announced(s), s.batches[i]);
    }
    ExtendDescends(s, at, c, added);
  }

  lemma ExtendDescends(s: Snapshot, at: nat, c: Batch, added: seq<Item>)
    requires at < |s.batches| && (forall j :: 0 <= j < |added| ==> Fresh(s, added[j]))
    requires OwnerOf(c) == OwnerOf(s.batches[at]) && c.items == s.batches[at].items + added
    ensures Descends(s, WithBatch(s, at, c), Nobody)
  {
    var t := WithBatch(s, at, c);
    forall k, l | 0 <= k < |t.batches| && 0 <= l < |t.batches[k].items|
      ensures Inherits(s, t.batches[k].batchId, t.batches[k].items[l], Nobody) || Fresh(s, t.batches[k].items[l])
    {
      if l < |s.batches[k].items| {
        assert Follows(s.batches[k].items[l], t.batches[k].items[l], Nobody);
      }
    }
  }

  lemma StageKeeps(sha: Data -> string, s: Snapshot, b: Batch)
    requires Inv(sha, s) && FromChannel(b) && IdsFree(s, b)
    ensures var r := Stage(sha, s, b); r.Ok? ==> Inv(sha, r.value) && Descends(s, r.value, Nobody)
  {
    var r := Stage(sha, s, b);
    var at := BatchIndex(s.batches, b.batchId);
    if r.Ok? {
      if at == |s.batches| {
        StageNew(sha, s, b);
      } else {
        var added := StageRestages(sha, s, b, at, r.value);
        RestageKeeps(sha, s, b, at, added, Restaged(s.batches[at], b, added));
      }
    }
  }

  lemma StageRestages(sha: Data -> string, s: Snapshot, b: Batch, at: nat, t: Snapshot) returns (added: seq<Item>)
    requires Stage(sha, s, b) == Ok(t) && at == BatchIndex(s.batches, b.batchId) < |s.batches|
    ensures ValidIncoming(sha, b) && s.batches[at].BelongsTo(b.network, b.accountUuid, b.runId)
    ensures AddedItems(s.batches[at].items, b.items) == Ok(added) && t == WithBatch(s, at, Restaged(s.batches[at], b, added))
  {
    added := AddedItems(s.batches[at].items, b.items).value;
  }

  lemma RestageKeeps(sha: Data -> string, s: Snapshot, b: Batch, at: nat, added: seq<Item>, c: Batch)
    requires Inv(sha, s) && FromChannel(b) && IdsFree(s, b) && ValidIncoming(sha, b)
    requires at == BatchIndex(s.batches, b.batchId) < |s.batches| && s.batches[at].BelongsTo(b.network, b.accountUuid, b.runId)
    requires AddedItems(s.batches[at].items, b.items) == Ok(added) && c == Restaged(s.batches[at], b, added)
    ensures Inv(sha, WithBatch(s, at, c)) && Descends(s, WithBatch(s, at, c), Nobody)
  {
    AddedItemsOk(sha, s, b, added);
    assert BatchOk(sha, Announced(s), s.batches[at]);
    ExtendStep(sha, s, at, c, added);
  }

  // ----- why the ids must be free ---------------------------------------------------------------

  lemma StagedItems(sha: Data -> string, s: Snapshot, b: Batch, t: Snapshot)
    requires Stage(sha, s, b) == Ok(t) && BatchIndex(s.batches, b.batchId) < |s.batches|
    ensures var at := BatchIndex(s.batches, b.batchId);
      && |t.batches| == |s.batches| && AddedItems(s.batches[at].items, b.items).Ok?
      && t.batches[at].items == s.batches[at].items + AddedItems(s.batches[at].items, b.items).value
  {
  }

  lemma RestagedHolds(existing: seq<Item>, incoming: seq<Item>, k: nat) returns (l: nat)
    requires AddedItems(existing, incoming).Ok? && k < |incoming|
    ensures l < |existing| + |AddedItems(existing, incoming).value|
    ensures (existing + AddedItems(existing, incoming).value)[l].itemId == incoming[k].itemId
  {
    IncomingAccounted(existing, incoming, k);
    l := ItemIndex(existing, incoming[k].itemId);
    if l == |existing| {
      var added := AddedItems(existing, incoming).value;
      var j :| 0 <= j < |added| && added[j] == incoming[k];
      l := |existing| + j;
    }
  }

  /** Wherever a batch is staged, every incoming id is held there afterwards. */
  lemma StagedHolds(sha: Data -> string, s: Snapshot, b: Batch, t: Snapshot, k: nat) returns (l: nat)
    requires Stage(sha, s, b) == Ok(t) && k < |b.items|
    ensures var at := BatchIndex(s.batches, b.batchId);
      at < |t.batches| && l < |t.batches[at].items| && t.batches[at].items[l].itemId == b.items[k].itemId
  {
    var at := BatchIndex(s.batches, b.batchId);
    if at == |s.batches| {
      l := k;
    } else {
      StagedItems(sha, s, b, t);
      l := RestagedHolds(s.batches[at].items, b.items, k);
    }
  }

  /** An id stored under another batch id is stored twice once the batch is staged. */
  lemma TakenIdsClash(sha: Data -> string, s: Snapshot, b: Batch, t: Snapshot, i: nat, j: nat, k: nat)
    requires Stage(sha, s, b) == Ok(t) && UniqueItems(t.batches)
    requires i < |s.batches| && j < |s.batches[i].items| && k < |b.items| && s.batches[i].items[j].itemId == b.items[k].itemId
    ensures s.batches[i].batchId == b.batchId
  {
    var at := BatchIndex(s.batches, b.batchId);
    var l := StagedHolds(sha, s, b, t, k);
    if i != at {
      assert t.batches[i] == s.batches[i];
      SamePosition(t.batches, i, j, at, l);
    }
  }

  /** Staging accepts any ids; it keeps the invariant exactly when no incoming id is stored under another batch id. */
  lemma StageKeepsExactly(sha: Data -> string, s: Snapshot, b: Batch, t: Snapshot)
    requires Inv(sha, s) && FromChannel(b) && Stage(sha, s, b) == Ok(t)
    ensures Inv(sha, t) <==> IdsFree(s, b)
  {
    if IdsFree(s, b) {
      StageKeeps(sha, s, b);
    }
    if Inv(sha, t) {
      forall i, j, k | 0 <= i < |s.batches| && 0 <= j < |s.batches[i].items| && 0 <= k < |b.items|
                       && s.batches[i].items[j].itemId == b.items[k].itemId
        ensures s.batches[i].batchId == b.batchId
      {
        TakenIdsClash(sha, s, b, t, i, j, k);
      }
    }
  }

  // ----- staging twice ----------------------------------------------------------------------

  /** Staging keeps every stored item as it is: no status and no schedule is rolled back. */
  lemma StageKeepsItems(sha: Data -> string, s: Snapshot, b: Batch)
    requires Stage(sha, s, b).Ok?
    ensures var t := Stage(sha, s, b).value;
      && |s.batches| <= |t.batches|
      && (forall i :: 0 <= i < |s.batches| ==> s.batches[i].items <= t.batches[i].items)
      && t.receipts == s.receipts
  {
  }

  lemma IndexInExtended(existing: seq<Item>, added: seq<Item>, id: string)
    ensures ItemIndex(existing, id) < |existing| ==> ItemIndex(existing + added, id) == ItemIndex(existing, id)
    ensures ItemIndex(existing, id) == |existing| ==> ItemIndex(existing + added, id) == |existing| + ItemIndex(added, id)
  {
    var all := existing + added;
    assert forall m :: 0 <= m < |existing| ==> all[m] == existing[m];
    assert forall m :: 0 <= m < |added| ==> all[|existing| + m] == added[m];
    var i := ItemIndex(all, id);
    if ItemIndex(existing, id) == |existing| && |existing| <= i < |all| {
      assert added[i - |existing|].itemId == id;
    }
  }

  /** Every incoming item is either delivered under the same terms already or among the added ones. */
  lemma {:induction false} IncomingAccounted(existing: seq<Item>, incoming: seq<Item>, k: nat)
    requires AddedItems(existing, incoming).Ok? && k < |incoming|
    ensures var at := ItemIndex(existing, incoming[k].itemId);
      if at < |existing| then SameDelivery(existing[at], incoming[k])
      else incoming[k] in AddedItems(existing, incoming).value
  {
    if k < |incoming| - 1 {
      IncomingAccounted(existing, incoming[..|incoming| - 1], k);
    }
  }

  /** Items that are all held under the same terms add nothing. */
  lemma {:induction false} HeldAddsNothing(existing: seq<Item>, incoming: seq<Item>)
    requires forall k :: 0 <= k < |incoming| ==>
      var at := ItemIndex(existing, incoming[k].itemId); at < |existing| && SameDelivery(existing[at], incoming[k])
    ensures AddedItems(existing, incoming) == Ok([])
  {
    if incoming != [] {
      HeldAddsNothing(existing, incoming[..|incoming| - 1]);
    }
  }

  lemma SecondMergeAddsNothing(existing: seq<Item>, incoming: seq<Item>, added: seq<Item>)
    requires DistinctItems(incoming) && AddedItems(existing, incoming) == Ok(added)
    ensures AddedItems(existing + added, incoming) == Ok([])
  {
    AddedAreNew(existing, incoming);
    var all := existing + added;
    forall k | 0 <= k < |incoming|
      ensures var at := ItemIndex(all, incoming[k].itemId); at < |all| && SameDelivery(all[at], incoming[k])
    {
      var id := incoming[k].itemId;
      IncomingAccounted(existing, incoming, k);
      IndexInExtended(existing, added, id);
      if ItemIndex(existing, id) == |existing| {
        var j :| 0 <= j < |added| && added[j] == incoming[k];
        var m := ItemIndex(added, id);
        assert m <= j;
        assert m == j;
        assert all[|existing| + m] == incoming[k];
      }
    }
    HeldAddsNothing(all, incoming);
  }

  lemma {:induction false} IndexUnchanged(batches: seq<Batch>, at: nat, c: Batch, batchId: string)
    requires at < |batches| && BatchIndex(batches, batchId) == at && c.batchId == batchId
    ensures BatchIndex(batches[at := c], batchId) == at
  {
    var i := BatchIndex(batches[at := c], batchId);
    assert batches[at := c][at].batchId == batchId;
    assert i <= at;
    assert forall m :: 0 <= m < at ==> batches[at := c][m] == batches[m];
  }

  /** Restaging against a batch that holds everything under the same terms changes nothing. */
  lemma RestageIsQuiet(sha: Data -> string, t: Snapshot, b: Batch)
    requires ValidIncoming(sha, b)
    requires var at := BatchIndex(t.batches, b.batchId);
      && at < |t.batches|
      && t.batches[at].BelongsTo(b.network, b.accountUuid, b.runId)
      && t.batches[at].url == b.url && t.batches[at].timingMean == b.timingMean && t.batches[at].timingMax == b.timingMax
      && t.batches[at].nextProofHeight == b.nextProofHeight
      && AddedItems(t.batches[at].items, b.items) == Ok([])
    ensures Stage(sha, t, b) == Ok(t)
  {
    var at := BatchIndex(t.batches, b.batchId);
    var c := t.batches[at];
    assert c.items + [] == c.items;
    assert Restaged(c, b, []) == c;
    assert t.batches[at := c] == t.batches;
  }

  lemma FoundAtEnd(batches: seq<Batch>, b: Batch)
    requires BatchIndex(batches, b.batchId) == |batches|
    ensures BatchIndex(batches + [b], b.batchId) == |batches|
  {
    assert (batches + [b])[..|batches|] == batches;
  }

  /** Staging the same batch again succeeds and changes nothing. */
  lemma StageTwiceIsOnce(sha: Data -> string, s: Snapshot, b: Batch)
    requires Stage(sha, s, b).Ok?
    ensures Stage(sha, Stage(sha, s, b).value, b) == Stage(sha, s, b)
  {
    var t := Stage(sha, s, b).value;
    var at := BatchIndex(s.batches, b.batchId);
    if at == |s.batches| {
      FoundAtEnd(s.batches, b);
      SameItemsHeld(b.items);
    } else {
      var added := AddedItems(s.batches[at].items, b.items).value;
      IndexUnchanged(s.batches, at, Restaged(s.batches[at], b, added), b.batchId);
      SecondMergeAddsNothing(s.batches[at].items, b.items, added);
    }
    RestageIsQuiet(sha, t, b);
  }

  lemma SameItemsHeld(items: seq<Item>)
    requires DistinctItems(items)
    ensures AddedItems(items, items) == Ok([])
  {
    forall k | 0 <= k < |items|
      ensures ItemIndex(items, items[k].itemId) == k
    {
      var i := ItemIndex(items, items[k].itemId);
      assert i <= k;
    }
    HeldAddsNothing(items, items);
  }
}
