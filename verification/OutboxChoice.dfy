/** Which batch and which item are chosen: the least by their sort keys among those that qualify. */
module OutboxChoice {
  import opened Common
  import opened StringOrder
  import opened OutboxModel

  // ----- batches ------------------------------------------------------------------------------

  lemma PrecedesTransitive(a: Batch, b: Batch, c: Batch, rank: Batch -> nat)
    requires Precedes(a, b, rank) && !Precedes(c, b, rank)
    ensures !Precedes(c, a, rank)
  {
    if rank(a) == rank(c) {
      LessTrichotomy(b.batchId, c.batchId);
      LessTrichotomy(a.batchId, c.batchId);
      if Less(c.batchId, a.batchId) {
        LessTransitive(c.batchId, a.batchId, b.batchId);
      }
    }
  }

  /** No batch that matches precedes the best one, and no earlier one equals it in both keys. */
  lemma {:induction false} BestBatchIsLeast(batches: seq<Batch>, matches: Batch -> bool, rank: Batch -> nat, i: nat)
    requires i < |batches| && matches(batches[i])
    ensures BestBatch(batches, matches, rank).Some?
    ensures !Precedes(batches[i], batches[BestBatch(batches, matches, rank).value], rank)
  {
    var front, last := batches[..|batches| - 1], batches[|batches| - 1];
    var before := BestBatch(front, matches, rank);
    LessIrreflexive(last.batchId);
    if i < |front| {
      assert front[i] == batches[i];
      BestBatchIsLeast(front, matches, rank, i);
      if matches(last) && Precedes(last, front[before.value], rank) {
        PrecedesTransitive(last, front[before.value], front[i], rank);
      }
    }
  }

  /** The proof announced first is the one of the lowest height among those reached, then of the lowest batch id. */
  lemma ProofIsEarliest(s: Snapshot, tip: U64, endpoint: string, i: nat)
    requires i < |s.batches| && ProofReached(s.batches[i], tip, endpoint)
    ensures ProofCandidate(s, tip, endpoint).Some?
    ensures var best := s.batches[ProofCandidate(s, tip, endpoint).value];
      && ProofReached(best, tip, endpoint)
      && best.nextProofHeight.value <= s.batches[i].nextProofHeight.value
      && (best.nextProofHeight == s.batches[i].nextProofHeight ==> !Less(s.batches[i].batchId, best.batchId))
  {
    BestBatchIsLeast(s.batches, (b: Batch) => ProofReached(b, tip, endpoint), ProofRank, i);
  }

  /** An endpoint is inspected exactly when some armed batch needs it, and then it is that batch's own. */
  lemma EndpointIsInspectable(s: Snapshot)
    ensures NextEndpoint(s).1.Some? <==> exists b :: b in s.batches && Inspectable(b)
    ensures NextEndpoint(s).1.Some? ==> exists b :: b in s.batches && Inspectable(b) && b.url == NextEndpoint(s).1.value
  {
    var endpoints := Endpoints(s);
    if b :| b in s.batches && Inspectable(b) {
      assert b.url in EndpointsOf(s.batches);
      assert b.url in endpoints;
    }
    if endpoints != [] {
      assert NextKey(endpoints, s.lastEndpoint) in endpoints;
      assert NextKey(endpoints, s.lastEndpoint) in EndpointsOf(s.batches);
    }
  }

  // ----- items --------------------------------------------------------------------------------

  lemma ItemPrecedesTransitive(a: Item, b: Item, c: Item)
    requires ItemPrecedes(a, b) && !ItemPrecedes(c, b)
    ensures !ItemPrecedes(c, a)
  {
    if a.scheduledHeight == c.scheduledHeight {
      LessTrichotomy(b.txid, c.txid);
      LessTrichotomy(a.txid, c.txid);
      if Less(c.txid, a.txid) {
        LessTransitive(c.txid, a.txid, b.txid);
      }
    }
  }

  lemma {:induction false} BestItemIsLeast(items: seq<Item>, tip: U64, date: int, i: nat)
    requires i < |items| && Due(items[i], tip, date)
    ensures BestItem(items, tip, date).Some?
    ensures !ItemPrecedes(items[i], items[BestItem(items, tip, date).value])
  {
    var front, last := items[..|items| - 1], items[|items| - 1];
    var before := BestItem(front, tip, date);
    LessIrreflexive(last.txid);
    if i < |front| {
      assert front[i] == items[i];
      BestItemIsLeast(front, tip, date, i);
      if Due(last, tip, date) && ItemPrecedes(last, front[before.value]) {
        ItemPrecedesTransitive(last, front[before.value], front[i]);
      }
    }
  }

  lemma ItemPrecedesAll(a: Item, b: Item, c: Item)
    requires ItemPrecedes(a, b) && !ItemPrecedes(c, b)
    ensures ItemPrecedes(a, c)
  {
    LessTrichotomy(b.txid, c.txid);
    if a.scheduledHeight == b.scheduledHeight == c.scheduledHeight && b.txid != c.txid {
      LessTransitive(a.txid, b.txid, c.txid);
    }
  }

  /** Of equal items the first is taken. */
  lemma {:induction false} BestItemIsFirst(items: seq<Item>, tip: U64, date: int, i: nat)
    requires BestItem(items, tip, date).Some? && i < BestItem(items, tip, date).value && Due(items[i], tip, date)
    ensures ItemPrecedes(items[BestItem(items, tip, date).value], items[i])
  {
    var front, last := items[..|items| - 1], items[|items| - 1];
    var before := BestItem(front, tip, date);
    assert front[i] == items[i];
    if BestItem(items, tip, date).value == |items| - 1 {
      BestItemIsLeast(front, tip, date, i);
      ItemPrecedesAll(last, front[before.value], front[i]);
    } else {
      BestItemIsFirst(front, tip, date, i);
    }
  }

  /**
   What `selectDue` selects: something is selected exactly when some armed batch of the endpoint has a due
   item; then it is a due item of such a batch, in the scope that comes next in the rotation, and no due
   item of that batch has a lower height, or the same height and a lower txid.
   */
  lemma SelectedIsLeast(s: Snapshot, tip: U64, endpoint: Option<string>, date: int)
    ensures SelectDue(s, tip, endpoint, date).1.Some? <==> exists b :: b in s.batches && DueBatch(b, tip, endpoint, date)
    ensures SelectDue(s, tip, endpoint, date).1.Some? ==> ChosenIn(s, tip, endpoint, date, SelectDue(s, tip, endpoint, date).1.value)
  {
    var scopes := DueScopes(s, tip, endpoint, date);
    SomeScope(s, tip, endpoint, date);
    if scopes != [] {
      var scope := NextKey(scopes, s.lastScope);
      assert scope in scopes;
      var i := ScopeBatch(s.batches, tip, endpoint, date, scope);
      assert s.batches[i] in s.batches;
      var sel := SelectDue(s, tip, endpoint, date).1.value;
      forall k | 0 <= k < |s.batches[i].items| && Due(s.batches[i].items[k], tip, date)
        ensures !ItemPrecedes(s.batches[i].items[k], sel.item)
      {
        BestItemIsLeast(s.batches[i].items, tip, date, k);
      }
      assert IsLeastOf(s.batches[i], tip, date, sel.item);
    }
  }

  ghost predicate IsLeastOf(b: Batch, tip: U64, date: int, it: Item) {
    && it in b.items && Due(it, tip, date)
    && forall k :: 0 <= k < |b.items| && Due(b.items[k], tip, date) ==> !ItemPrecedes(b.items[k], it)
  }

  ghost predicate ChosenIn(s: Snapshot, tip: U64, endpoint: Option<string>, date: int, sel: Selection) {
    DueScopes(s, tip, endpoint, date) != [] &&
    exists b :: b in s.batches && DueBatch(b, tip, endpoint, date) && b.batchId == sel.batchId && b.url == sel.url
      && b.ScopeKey() == sel.scopeKey == NextKey(DueScopes(s, tip, endpoint, date), s.lastScope)
      && IsLeastOf(b, tip, date, sel.item)
  }

  lemma SomeScope(s: Snapshot, tip: U64, endpoint: Option<string>, date: int)
    ensures DueScopes(s, tip, endpoint, date) != [] <==> exists b :: b in s.batches && DueBatch(b, tip, endpoint, date)
  {
    var scopes := DueScopes(s, tip, endpoint, date);
    if b :| b in s.batches && DueBatch(b, tip, endpoint, date) {
      assert b.ScopeKey() in ScopesOf(s.batches, tip, endpoint, date);
      assert b.ScopeKey() in scopes;
    }
    if scopes != [] {
      assert scopes[0] in scopes && scopes[0] in ScopesOf(s.batches, tip, endpoint, date);
    }
  }
}
