/**
 Exactly when a run of the runner has something to send, told from the snapshot as it was stored before
 the run: neither the recovery, nor the sweeps, nor the announcement that precede the selection appear.
 */
module OutboxReadiness {
  import opened Common
  import opened StringOrder
  import opened OutboxModel
  import opened OutboxInvariant
  import opened OutboxUpdates
  import opened OutboxSelection
  import opened OutboxChoice
  import opened Rescheduling

  /** Armed, due, inside the window of the tip, and with no retry to wait for. */
  ghost predicate Ready(it: Item, tip: U64, date: int) {
    && it.status == Armed && it.scheduledHeight <= tip && InWindow(it, tip)
    && (it.nextAttemptAt.None? || it.nextAttemptAt.value <= date)
  }

  /** An item in circulation, or put back into it by the recovery of an interrupted submission. */
  predicate Live(it: Item) { it.status == Armed || it.status == Submitting }

  /** Nothing live in the batch has to be retired at this tip; retiring an item disarms its whole batch. */
  ghost predicate Sound(b: Batch, tip: U64) {
    forall j :: 0 <= j < |b.items| && Live(b.items[j]) ==>
      tip < b.items[j].expiryHeight && (b.items[j].scheduledHeight <= tip ==> InWindow(b.items[j], tip))
  }

  ghost predicate ReadyBatch(b: Batch, endpoint: string, tip: U64, date: int) {
    && b.url == endpoint && b.armedAt.Some? && Sound(b, tip)
    && exists j :: 0 <= j < |b.items| && Ready(b.items[j], tip, date)
  }

  // ----- one batch, from the start of the run to the selection -----------------------------------

  function Recovered(b: Batch, date: int): Batch { b.(items := MapItems(b.items, Interrupted(date))) }

  function SweptTwice(b: Batch, tip: U64): Batch {
    var e := SweptBatch(ExpirySweep(tip), b);
    match CanonicalExpiry(tip) case Some(canonical) => SweptBatch(ResignSweep(tip, canonical), e) case None => e
  }

  ghost predicate NoHit(sweep: Sweep, b: Batch) { forall j :: 0 <= j < |b.items| ==> !sweep.Hits(b.items[j]) }

  lemma Unhit(sweep: Sweep, b: Batch)
    ensures NoHit(sweep, b) ==> SweptBatch(sweep, b) == b
    ensures !NoHit(sweep, b) ==> SweptBatch(sweep, b).armedAt.None?
    ensures SweptBatch(sweep, b).armedAt.Some? ==> b.armedAt.Some?
  {
    if NoHit(sweep, b) {
      assert SweptItems(sweep, b.items) == b.items;
    } else {
      var j :| 0 <= j < |b.items| && sweep.Hits(b.items[j]);
      assert b.items[j] in b.items;
    }
  }

  /** The sweeps leave a batch armed exactly when it was, and has nothing to retire; then they change nothing. */
  lemma SweptOrDisarmed(b: Batch, tip: U64)
    requires forall j :: 0 <= j < |b.items| ==> b.items[j].status != Submitting
    ensures Sound(b, tip) ==> SweptTwice(b, tip) == b
    ensures !Sound(b, tip) ==> SweptTwice(b, tip).armedAt.None?
  {
    var e := SweptBatch(ExpirySweep(tip), b);
    Unhit(ExpirySweep(tip), b);
    if NoHit(ExpirySweep(tip), b) {
      if CanonicalExpiry(tip).Some? {
        Unhit(ResignSweep(tip, CanonicalExpiry(tip).value), b);
        HitsAreUnsound(b, tip);
      }
    } else {
      if CanonicalExpiry(tip).Some? {
        Unhit(ResignSweep(tip, CanonicalExpiry(tip).value), e);
      }
    }
  }

  lemma HitsAreUnsound(b: Batch, tip: U64)
    requires (forall j :: 0 <= j < |b.items| ==> b.items[j].status != Submitting) && NoHit(ExpirySweep(tip), b) && CanonicalExpiry(tip).Some?
    ensures NoHit(ResignSweep(tip, CanonicalExpiry(tip).value), b) <==> Sound(b, tip)
  {
    var sweep := ResignSweep(tip, CanonicalExpiry(tip).value);
    if NoHit(sweep, b) {
      forall j | 0 <= j < |b.items| && Live(b.items[j])
        ensures tip < b.items[j].expiryHeight && (b.items[j].scheduledHeight <= tip ==> InWindow(b.items[j], tip))
      {
        assert !ExpirySweep(tip).Hits(b.items[j]) && !sweep.Hits(b.items[j]);
      }
    }
  }

  /** Recovery delays what it puts back, and changes neither the schedule nor the expiry of anything. */
  lemma RecoveredItemIs(it: Item, tip: U64, date: int)
    ensures var r := Interrupted(date)(it);
      && Live(r) == Live(it) && r.status != Submitting && r.scheduledHeight == it.scheduledHeight && r.expiryHeight == it.expiryHeight
      && (it.status != Submitting ==> r == it)
      && (it.status == Submitting ==> !Due(r, tip, date))
  {
  }

  lemma RecoveredSound(b: Batch, tip: U64, date: int)
    ensures Sound(Recovered(b, date), tip) <==> Sound(b, tip)
    ensures forall j :: 0 <= j < |b.items| ==> Recovered(b, date).items[j].status != Submitting
  {
    var r := Recovered(b, date);
    forall j | 0 <= j < |b.items|
      ensures r.items[j].status != Submitting && Live(r.items[j]) == Live(b.items[j])
      ensures r.items[j].scheduledHeight == b.items[j].scheduledHeight && r.items[j].expiryHeight == b.items[j].expiryHeight
    {
      RecoveredItemIs(b.items[j], tip, date);
    }
  }

  /** What the selection sees of a batch. */
  lemma ReadyIsDue(b: Batch, endpoint: string, tip: U64, date: int)
    ensures var c := if b.url == endpoint then SweptTwice(Recovered(b, date), tip) else Recovered(b, date);
      && (DueBatch(c, tip, Some(endpoint), date) <==> ReadyBatch(b, endpoint, tip, date))
      && (ReadyBatch(b, endpoint, tip, date) ==> c == Recovered(b, date))
  {
    var r := Recovered(b, date);
    RecoveredSound(b, tip, date);
    SweptOrDisarmed(r, tip);
    if b.url == endpoint && Sound(b, tip) {
      ReadyItems(b, tip, date);
      DueIndexed(r, tip, date);
    }
  }

  lemma DueIndexed(b: Batch, tip: U64, date: int)
    ensures (exists it :: it in b.items && Due(it, tip, date)) <==> exists j :: 0 <= j < |b.items| && Due(b.items[j], tip, date)
  {
    if it :| it in b.items && Due(it, tip, date) {
      var j :| 0 <= j < |b.items| && b.items[j] == it;
      assert Due(b.items[j], tip, date);
    }
  }

  /** In a sound batch an item is due after the recovery exactly when it was ready before it, and is then as it was. */
  lemma ReadyItems(b: Batch, tip: U64, date: int)
    requires Sound(b, tip)
    ensures forall j :: 0 <= j < |b.items| ==>
      && (Due(Recovered(b, date).items[j], tip, date) <==> Ready(b.items[j], tip, date))
      && (Ready(b.items[j], tip, date) ==> Recovered(b, date).items[j] == b.items[j])
  {
    forall j | 0 <= j < |b.items|
      ensures Due(Recovered(b, date).items[j], tip, date) <==> Ready(b.items[j], tip, date)
      ensures Ready(b.items[j], tip, date) ==> Recovered(b, date).items[j] == b.items[j]
    {
      RecoveredItemIs(b.items[j], tip, date);
    }
  }

  // ----- the snapshot that the selection sees ------------------------------------------------------

  /** The snapshot after the recovery, the sweeps and the announcement. */
  function Marked(s: Snapshot, tip: U64, endpoint: string, verify: bool, date: int): Snapshot {
    var swept := Swept(Open(s, date).0, tip, endpoint, date);
    if verify then swept else MarkProofReady(swept, tip, endpoint, date)
  }

  /** All that the selection looks at. */
  ghost predicate Alike(b: Batch, c: Batch) { c == b.(readyPendingAt := c.readyPendingAt) }

  lemma SweptBatches(s: Snapshot, tip: U64, endpoint: string, date: int)
    ensures var t := Swept(s, tip, endpoint, date);
      && t.lastScope == s.lastScope && |t.batches| == |s.batches|
      && forall i :: 0 <= i < |s.batches| ==>
           t.batches[i] == if s.batches[i].url == endpoint then SweptTwice(s.batches[i], tip) else s.batches[i]
  {
    var e := ExpireItems(s, tip, endpoint, date);
    forall i | 0 <= i < |s.batches| ensures e.batches[i].url == s.batches[i].url {}
  }

  lemma MarkedAlike(s: Snapshot, tip: U64, endpoint: string, date: int)
    ensures var t := MarkProofReady(s, tip, endpoint, date);
      && t.lastScope == s.lastScope && |t.batches| == |s.batches|
      && forall i :: 0 <= i < |s.batches| ==> Alike(s.batches[i], t.batches[i])
  {
  }

  lemma MarkedBatches(s: Snapshot, tip: U64, endpoint: string, verify: bool, date: int)
    ensures var m := Marked(s, tip, endpoint, verify, date);
      && m.lastScope == s.lastScope && |m.batches| == |s.batches|
      && forall i :: 0 <= i < |s.batches| ==> Seen(s.batches[i], m.batches[i], endpoint, tip, date)
  {
    var t := Open(s, date).0;
    OpenedBatches(s, date);
    SweptBatches(t, tip, endpoint, date);
    MarkedAlike(Swept(t, tip, endpoint, date), tip, endpoint, date);
  }

  lemma OpenedBatches(s: Snapshot, date: int)
    ensures var t := Open(s, date).0;
      && t.lastScope == s.lastScope && |t.batches| == |s.batches|
      && forall i :: 0 <= i < |s.batches| ==> t.batches[i] == Recovered(s.batches[i], date)
  {
  }

  ghost predicate Seen(b: Batch, c: Batch, endpoint: string, tip: U64, date: int) {
    Alike(if b.url == endpoint then SweptTwice(Recovered(b, date), tip) else Recovered(b, date), c)
  }

  /** A batch is due in the selection exactly when it was ready at the start, and then its ready items are its due items. */
  lemma SeenIsDue(b: Batch, c: Batch, endpoint: string, tip: U64, date: int)
    requires Seen(b, c, endpoint, tip, date)
    ensures DueBatch(c, tip, Some(endpoint), date) <==> ReadyBatch(b, endpoint, tip, date)
    ensures c.batchId == b.batchId && c.accountUuid == b.accountUuid && c.url == b.url && c.ScopeKey() == b.ScopeKey()
    ensures ReadyBatch(b, endpoint, tip, date) ==>
      && c.items == Recovered(b, date).items
      && forall j :: 0 <= j < |b.items| ==>
           && (Due(c.items[j], tip, date) <==> Ready(b.items[j], tip, date))
           && (Ready(b.items[j], tip, date) ==> c.items[j] == b.items[j])
  {
    ReadyIsDue(b, endpoint, tip, date);
    if ReadyBatch(b, endpoint, tip, date) {
      ReadyItems(b, tip, date);
    }
  }

  // ----- what a run selects -----------------------------------------------------------------------

  ghost predicate SomethingReady(s: Snapshot, endpoint: string, tip: U64, date: int) {
    exists i :: 0 <= i < |s.batches| && ReadyBatch(s.batches[i], endpoint, tip, date)
  }

  /** The scopes with a ready batch, in order. */
  ghost predicate ReadyScopes(s: Snapshot, endpoint: string, tip: U64, date: int, scopes: seq<string>) {
    && StrictlySorted(scopes)
    && forall k :: k in scopes <==> exists i :: 0 <= i < |s.batches| && ReadyBatch(s.batches[i], endpoint, tip, date) && s.batches[i].ScopeKey() == k
  }

  /** The scope that comes next in the rotation over the scopes with a ready batch. */
  ghost predicate NextInTurn(s: Snapshot, endpoint: string, tip: U64, date: int, scope: string) {
    exists scopes: seq<string> :: scopes != [] && ReadyScopes(s, endpoint, tip, date, scopes) && scope == NextKey(scopes, s.lastScope)
  }

  /** A lower height, or the same height and a lower txid. */
  predicate Before(a: Item, b: Item) {
    a.scheduledHeight < b.scheduledHeight || (a.scheduledHeight == b.scheduledHeight && Less(a.txid, b.txid))
  }

  /** The first ready batch of the scope whose turn it is, and in it the ready item of least height, then of least txid. */
  ghost predicate ChosenAt(s: Snapshot, endpoint: string, tip: U64, date: int, i: nat, j: nat) {
    && i < |s.batches| && ReadyBatch(s.batches[i], endpoint, tip, date)
    && j < |s.batches[i].items| && Ready(s.batches[i].items[j], tip, date)
    && (forall k :: 0 <= k < |s.batches[i].items| && Ready(s.batches[i].items[k], tip, date)
          ==> !Before(s.batches[i].items[k], s.batches[i].items[j]))
    && (forall k :: 0 <= k < j && Ready(s.batches[i].items[k], tip, date) ==> Before(s.batches[i].items[j], s.batches[i].items[k]))
    && (forall k :: 0 <= k < i && ReadyBatch(s.batches[k], endpoint, tip, date) ==> s.batches[k].ScopeKey() != s.batches[i].ScopeKey())
    && NextInTurn(s, endpoint, tip, date, s.batches[i].ScopeKey())
  }

  /** Only one item is chosen. */
  lemma ChosenOnce(s: Snapshot, endpoint: string, tip: U64, date: int, i: nat, j: nat, k: nat, l: nat)
    requires ChosenAt(s, endpoint, tip, date, i, j) && ChosenAt(s, endpoint, tip, date, k, l)
    ensures i == k && j == l
  {
    TurnIsUnique(s, endpoint, tip, date, s.batches[i].ScopeKey(), s.batches[k].ScopeKey());
    assert i == k;
    assert Ready(s.batches[i].items[j], tip, date) && Ready(s.batches[i].items[l], tip, date);
  }

  lemma TurnIsUnique(s: Snapshot, endpoint: string, tip: U64, date: int, a: string, b: string)
    requires NextInTurn(s, endpoint, tip, date, a) && NextInTurn(s, endpoint, tip, date, b)
    ensures a == b
  {
    var x: seq<string> :| x != [] && ReadyScopes(s, endpoint, tip, date, x) && a == NextKey(x, s.lastScope);
    var y: seq<string> :| y != [] && ReadyScopes(s, endpoint, tip, date, y) && b == NextKey(y, s.lastScope);
    SortedUnique(x, y);
  }

  function SelectionOf(b: Batch, j: nat): Selection
    requires j < |b.items|
  {
    Selection(b.batchId, b.accountUuid, b.ScopeKey(), b.url, b.items[j])
  }

  lemma ScopesAreReady(s: Snapshot, m: Snapshot, endpoint: string, tip: U64, date: int)
    requires |m.batches| == |s.batches|
    requires forall i :: 0 <= i < |s.batches| ==> Seen(s.batches[i], m.batches[i], endpoint, tip, date)
    ensures ReadyScopes(s, endpoint, tip, date, DueScopes(m, tip, Some(endpoint), date))
  {
    var scopes := DueScopes(m, tip, Some(endpoint), date);
    forall k
      ensures k in scopes <==> exists i :: 0 <= i < |s.batches| && ReadyBatch(s.batches[i], endpoint, tip, date) && s.batches[i].ScopeKey() == k
    {
      if k in scopes {
        var b :| b in m.batches && DueBatch(b, tip, Some(endpoint), date) && b.ScopeKey() == k;
        var i :| 0 <= i < |m.batches| && m.batches[i] == b;
        SeenIsDue(s.batches[i], m.batches[i], endpoint, tip, date);
      }
      if i :| 0 <= i < |s.batches| && ReadyBatch(s.batches[i], endpoint, tip, date) && s.batches[i].ScopeKey() == k {
        SeenIsDue(s.batches[i], m.batches[i], endpoint, tip, date);
        assert m.batches[i] in m.batches;
      }
    }
  }

  /** A run selects something exactly when something is ready, and then the item chosen, as it is stored. */
  lemma SelectsWhatIsReady(s: Snapshot, endpoint: string, tip: U64, verify: bool, date: int) returns (i: nat, j: nat)
    ensures Select(Open(s, date).0, tip, endpoint, verify, date).1.Some? <==> SomethingReady(s, endpoint, tip, date)
    ensures SomethingReady(s, endpoint, tip, date) ==>
      && ChosenAt(s, endpoint, tip, date, i, j)
      && Select(Open(s, date).0, tip, endpoint, verify, date).1 == Some(SelectionOf(s.batches[i], j))
  {
    var m := Marked(s, tip, endpoint, verify, date);
    MarkedBatches(s, tip, endpoint, verify, date);
    i, j := ChosenIsReady(s, m, endpoint, tip, date);
  }

  lemma ReadyMeansScope(s: Snapshot, endpoint: string, tip: U64, date: int, scopes: seq<string>)
    requires ReadyScopes(s, endpoint, tip, date, scopes)
    ensures scopes != [] <==> SomethingReady(s, endpoint, tip, date)
  {
    if k :| 0 <= k < |s.batches| && ReadyBatch(s.batches[k], endpoint, tip, date) {
      assert s.batches[k].ScopeKey() in scopes;
    }
    if scopes != [] {
      assert scopes[0] in scopes;
    }
  }

  lemma ChosenIsReady(s: Snapshot, m: Snapshot, endpoint: string, tip: U64, date: int) returns (i: nat, j: nat)
    requires |m.batches| == |s.batches| && m.lastScope == s.lastScope
    requires forall i :: 0 <= i < |s.batches| ==> Seen(s.batches[i], m.batches[i], endpoint, tip, date)
    ensures SelectDue(m, tip, Some(endpoint), date).1.Some? <==> SomethingReady(s, endpoint, tip, date)
    ensures SomethingReady(s, endpoint, tip, date) ==>
      && ChosenAt(s, endpoint, tip, date, i, j)
      && SelectDue(m, tip, Some(endpoint), date).1 == Some(SelectionOf(s.batches[i], j))
  {
    var scopes := DueScopes(m, tip, Some(endpoint), date);
    ScopesAreReady(s, m, endpoint, tip, date);
    ReadyMeansScope(s, endpoint, tip, date, scopes);
    i, j := 0, 0;
    if scopes != [] {
      var scope := NextKey(scopes, m.lastScope);
      assert scope in scopes;
      i := ScopeBatch(m.batches, tip, Some(endpoint), date, scope);
      j := ChosenInScope(s, m, endpoint, tip, date, scopes, i);
    }
  }

  lemma ChosenInScope(s: Snapshot, m: Snapshot, endpoint: string, tip: U64, date: int, scopes: seq<string>, i: nat) returns (j: nat)
    requires |m.batches| == |s.batches| && m.lastScope == s.lastScope
    requires forall i :: 0 <= i < |s.batches| ==> Seen(s.batches[i], m.batches[i], endpoint, tip, date)
    requires scopes == DueScopes(m, tip, Some(endpoint), date) && scopes != [] && ReadyScopes(s, endpoint, tip, date, scopes)
    requires exists b :: b in m.batches && DueBatch(b, tip, Some(endpoint), date) && b.ScopeKey() == NextKey(scopes, m.lastScope)
    requires i == ScopeBatch(m.batches, tip, Some(endpoint), date, NextKey(scopes, m.lastScope))
    ensures ChosenAt(s, endpoint, tip, date, i, j)
    ensures SelectDue(m, tip, Some(endpoint), date).1 == Some(SelectionOf(s.batches[i], j))
  {
    j := BestItem(m.batches[i].items, tip, date).value;
    FirstOfScope(s, m, endpoint, tip, date, NextKey(scopes, m.lastScope), i);
    LeastOfBatch(s.batches[i], m.batches[i], endpoint, tip, date);
    SeenIsDue(s.batches[i], m.batches[i], endpoint, tip, date);
  }

  lemma FirstOfScope(s: Snapshot, m: Snapshot, endpoint: string, tip: U64, date: int, scope: string, i: nat)
    requires |m.batches| == |s.batches|
    requires forall i :: 0 <= i < |s.batches| ==> Seen(s.batches[i], m.batches[i], endpoint, tip, date)
    requires exists b :: b in m.batches && DueBatch(b, tip, Some(endpoint), date) && b.ScopeKey() == scope
    requires i == ScopeBatch(m.batches, tip, Some(endpoint), date, scope)
    ensures ReadyBatch(s.batches[i], endpoint, tip, date) && s.batches[i].ScopeKey() == scope
    ensures forall k :: 0 <= k < i && ReadyBatch(s.batches[k], endpoint, tip, date) ==> s.batches[k].ScopeKey() != scope
  {
    SeenIsDue(s.batches[i], m.batches[i], endpoint, tip, date);
    forall k | 0 <= k < i && ReadyBatch(s.batches[k], endpoint, tip, date) ensures s.batches[k].ScopeKey() != scope {
      SeenIsDue(s.batches[k], m.batches[k], endpoint, tip, date);
    }
  }

  lemma LeastOfBatch(b: Batch, c: Batch, endpoint: string, tip: U64, date: int)
    requires Seen(b, c, endpoint, tip, date) && ReadyBatch(b, endpoint, tip, date)
    ensures BestItem(c.items, tip, date).Some?
    ensures var j := BestItem(c.items, tip, date).value;
      && j < |b.items| && Ready(b.items[j], tip, date) && c.items[j] == b.items[j]
      && (forall k :: 0 <= k < |b.items| && Ready(b.items[k], tip, date) ==> !ItemPrecedes(b.items[k], b.items[j]))
      && (forall k :: 0 <= k < j && Ready(b.items[k], tip, date) ==> ItemPrecedes(b.items[j], b.items[k]))
  {
    SeenIsDue(b, c, endpoint, tip, date);
    var k0 :| 0 <= k0 < |b.items| && Ready(b.items[k0], tip, date);
    assert Due(c.items[k0], tip, date);
    var j := BestItem(c.items, tip, date).value;
    forall k | 0 <= k < |b.items| && Ready(b.items[k], tip, date) ensures !ItemPrecedes(b.items[k], b.items[j]) {
      BestItemIsLeast(c.items, tip, date, k);
    }
    forall k | 0 <= k < j && Ready(b.items[k], tip, date) ensures ItemPrecedes(b.items[j], b.items[k]) {
      BestItemIsFirst(c.items, tip, date, k);
    }
  }

  // ----- the endpoint -------------------------------------------------------------------------------

  /** The batch is armed and has a live item, or a proof announcement still to make. */
  ghost predicate NeedsInspection(b: Batch) {
    && b.armedAt.Some?
    && ((exists j :: 0 <= j < |b.items| && Live(b.items[j])) || (b.nextProofHeight.Some? && b.AwaitsProofReadyAnnouncement()))
  }

  ghost predicate InspectedEndpoints(s: Snapshot, endpoints: seq<string>) {
    && StrictlySorted(endpoints)
    && forall e :: e in endpoints <==> exists i :: 0 <= i < |s.batches| && NeedsInspection(s.batches[i]) && s.batches[i].url == e
  }

  /** The endpoint that comes next in the rotation over those of the batches that need inspection. */
  ghost predicate Inspected(s: Snapshot, endpoint: string) {
    exists endpoints: seq<string> :: endpoints != [] && InspectedEndpoints(s, endpoints) && endpoint == NextKey(endpoints, s.lastEndpoint)
  }

  lemma NeedsIsInspectable(b: Batch, date: int)
    ensures Inspectable(Recovered(b, date)) <==> NeedsInspection(b)
  {
    var r := Recovered(b, date);
    forall j | 0 <= j < |b.items| ensures r.items[j].status == Armed <==> Live(b.items[j]) {}
    if HasArmed(r.items) {
      var it :| it in r.items && it.status == Armed;
      var j :| 0 <= j < |r.items| && r.items[j] == it;
      assert Live(b.items[j]);
    }
    if j :| 0 <= j < |b.items| && Live(b.items[j]) {
      assert r.items[j] in r.items;
    }
  }

  lemma EndpointsAreInspected(s: Snapshot, date: int)
    ensures InspectedEndpoints(s, Endpoints(RecoverInterrupted(s, date)))
  {
    var t := RecoverInterrupted(s, date);
    var endpoints := Endpoints(t);
    forall e
      ensures e in endpoints <==> exists i :: 0 <= i < |s.batches| && NeedsInspection(s.batches[i]) && s.batches[i].url == e
    {
      if e in endpoints {
        var b :| b in t.batches && Inspectable(b) && b.url == e;
        var i :| 0 <= i < |t.batches| && t.batches[i] == b;
        NeedsIsInspectable(s.batches[i], date);
      }
      if i :| 0 <= i < |s.batches| && NeedsInspection(s.batches[i]) && s.batches[i].url == e {
        NeedsIsInspectable(s.batches[i], date);
        assert t.batches[i] in t.batches && Inspectable(t.batches[i]);
      }
    }
  }

  /** The run inspects the endpoint whose turn it is, and none exactly when no batch needs inspection. */
  lemma OpensInspected(s: Snapshot, date: int)
    ensures Open(s, date).1.Some? ==> Inspected(s, Open(s, date).1.value)
    ensures Open(s, date).1.None? <==> forall i :: 0 <= i < |s.batches| ==> !NeedsInspection(s.batches[i])
    ensures forall e :: Inspected(s, e) ==> Open(s, date).1 == Some(e)
  {
    var endpoints := Endpoints(RecoverInterrupted(s, date));
    EndpointsAreInspected(s, date);
    assert RecoverInterrupted(s, date).lastEndpoint == s.lastEndpoint;
    if i :| 0 <= i < |s.batches| && NeedsInspection(s.batches[i]) {
      assert s.batches[i].url in endpoints;
    }
    if endpoints != [] {
      assert endpoints[0] in endpoints;
    }
    forall e | Inspected(s, e) ensures Open(s, date).1 == Some(e) {
      var other: seq<string> :| other != [] && InspectedEndpoints(s, other) && e == NextKey(other, s.lastEndpoint);
      SortedUnique(endpoints, other);
    }
  }

  // ----- the check ---------------------------------------------------------------------------------

  /** The check of the chosen item, in the batch as it was stored. */
  ghost predicate PassesCheck(b: Batch, j: nat, tip: U64, date: int)
    requires j < |b.items|
  {
    CheckPasses(Recovered(b, date).items, b.items[j].itemId, tip)
  }

  /** The other live items of the batch whose height the tip has reached. */
  ghost function OverdueLive(b: Batch, j: nat, tip: U64): set<nat>
    requires j < |b.items|
  {
    set k: nat | 0 <= k < |b.items| && Live(b.items[k]) && b.items[k].scheduledHeight <= tip && b.items[k].itemId != b.items[j].itemId
  }

  /** What the check asks of a ready batch: its n other overdue items must all fit between the tip and the canonical expiry. */
  lemma CheckNeedsRoom(b: Batch, j: nat, tip: U64, date: int)
    requires j < |b.items| && Sound(b, tip) && CanonicalExpiry(tip).Some?
    ensures PassesCheck(b, j, tip, date) <==> OverdueLive(b, j, tip) == {} || tip + |OverdueLive(b, j, tip)| < CanonicalExpiry(tip).value
  {
    var items, id := Recovered(b, date).items, b.items[j].itemId;
    ExpiriesAreCanonical(b, j, tip, date);
    OverdueCount(b, j, tip, date);
    RoomForEqual(SortedExpiries(items, id, tip), tip, CanonicalExpiry(tip).value);
    assert |OverdueLive(b, j, tip)| == 0 <==> OverdueLive(b, j, tip) == {};
  }

  lemma RoomForEqual(e: seq<U64>, tip: U64, expiry: U64)
    requires forall k :: 0 <= k < |e| ==> e[k] == expiry
    ensures RoomFor(e, 0, tip) <==> e == [] || tip + |e| < expiry
  {
    RoomForExact(e, 0, tip);
    if e != [] {
      assert e[|e| - 1] == expiry;
    }
  }

  lemma ExpiriesAreCanonical(b: Batch, j: nat, tip: U64, date: int)
    requires j < |b.items| && Sound(b, tip) && CanonicalExpiry(tip).Some?
    ensures var e := SortedExpiries(Recovered(b, date).items, b.items[j].itemId, tip);
      forall k :: 0 <= k < |e| ==> e[k] == CanonicalExpiry(tip).value
  {
    var items, id := Recovered(b, date).items, b.items[j].itemId;
    var e := SortedExpiries(items, id, tip);
    SortedExpiriesMatch(items, id, tip);
    forall k | 0 <= k < |e| ensures e[k] == CanonicalExpiry(tip).value {
      assert PeerExpiry(items, id, tip, e[k]);
      var i :| 0 <= i < |items| && Overdue(items[i], id, tip) && items[i].expiryHeight == e[k];
      RecoveredItemIs(b.items[i], tip, date);
    }
  }

  lemma OverdueCount(b: Batch, j: nat, tip: U64, date: int)
    requires j < |b.items|
    ensures |SortedExpiries(Recovered(b, date).items, b.items[j].itemId, tip)| == |OverdueLive(b, j, tip)|
  {
    var items, id := Recovered(b, date).items, b.items[j].itemId;
    var indexes := OverdueIndexes(items, id, tip);
    SortedExpiriesMatch(items, id, tip);
    OverdueAreLive(b, j, tip, date);
    OverdueExpiriesMatch(items, id, tip);
    SizeOfList(indexes, OverdueLive(b, j, tip));
    assert |SortedExpiries(items, id, tip)| == |indexes|;
  }

  lemma SizeOfList(list: seq<nat>, members: set<nat>)
    requires Distinct(list) && forall k: nat :: k in members <==> k in list
    ensures |members| == |list|
  {
    DistinctSize<nat>(list);
    assert (set x: nat | x in list) == members;
  }

  lemma OverdueAreLive(b: Batch, j: nat, tip: U64, date: int)
    requires j < |b.items|
    ensures forall k: nat :: k in OverdueLive(b, j, tip) <==> k in OverdueIndexes(Recovered(b, date).items, b.items[j].itemId, tip)
  {
    var items := Recovered(b, date).items;
    var indexes := OverdueIndexes(items, b.items[j].itemId, tip);
    forall k: nat ensures k in OverdueLive(b, j, tip) <==> k in indexes {
      if k < |items| {
        RecoveredItemIs(b.items[k], tip, date);
        assert items[k].itemId == b.items[k].itemId;
      }
      if k in indexes {
        var m :| 0 <= m < |indexes| && indexes[m] == k;
        assert Overdue(items[indexes[m]], b.items[j].itemId, tip);
      }
    }
  }

  /** The write-ahead of a run succeeds exactly when the chosen item passes the check, and then it is the chosen item that is written ahead. */
  lemma PreparesWhatPasses(sha: Data -> string, s: Snapshot, endpoint: string, tip: U64, verify: bool, attemptId: string, date: int, i: nat, j: nat)
    requires Inv(sha, s) && ChosenAt(s, endpoint, tip, date, i, j)
    requires Select(Open(s, date).0, tip, endpoint, verify, date).1 == Some(SelectionOf(s.batches[i], j))
    ensures var r := Prepare(Open(s, date).0, tip, endpoint, verify, attemptId, date);
      && (r.Ok? <==> PassesCheck(s.batches[i], j, tip, date))
      && (r.Ok? ==> r.value.1 == Some(SelectionOf(s.batches[i], j)))
      && (r.Err? ==> r.error == InvalidSchedule)
  {
    var t := Open(s, date).0;
    var selected := Select(t, tip, endpoint, verify, date).0;
    OpenKeeps(sha, s, date);
    SelectKeeps(sha, t, tip, endpoint, verify, date);
    SelectedStands(sha, s, selected, endpoint, tip, verify, date, i, j);
    BegunLocates(sha, selected, (i, j), attemptId, date);
    PrepareIs(t, tip, endpoint, verify, attemptId, date, selected, SelectionOf(s.batches[i], j));
  }

  lemma PrepareIs(t: Snapshot, tip: U64, endpoint: string, verify: bool, attemptId: string, date: int, selected: Snapshot, sel: Selection)
    requires Select(t, tip, endpoint, verify, date) == (selected, Some(sel))
    requires BeginSubmission(selected, sel.item.itemId, attemptId, date).Ok?
    ensures var valid := ValidateRescheduling(selected, sel.item.itemId, tip);
      Prepare(t, tip, endpoint, verify, attemptId, date)
      == if valid.Ok? then Ok((BeginSubmission(selected, sel.item.itemId, attemptId, date).value, Some(sel))) else Err(valid.error)
  {
  }

  lemma SelectedStands(sha: Data -> string, s: Snapshot, t: Snapshot, endpoint: string, tip: U64, verify: bool, date: int, i: nat, j: nat)
    requires ChosenAt(s, endpoint, tip, date, i, j) && Inv(sha, t)
    requires t == Select(Open(s, date).0, tip, endpoint, verify, date).0
    ensures i < |t.batches| && t.batches[i].items == Recovered(s.batches[i], date).items && j < |t.batches[i].items|
    ensures t.batches[i].items[j] == s.batches[i].items[j]
    ensures ItemLocation(t.batches, s.batches[i].items[j].itemId) == Some((i, j))
  {
    MarkedBatches(s, tip, endpoint, verify, date);
    assert t.batches == Marked(s, tip, endpoint, verify, date).batches;
    SeenIsDue(s.batches[i], t.batches[i], endpoint, tip, date);
    LocationFinds(t.batches, i, j);
  }

  // ----- what a run sends ----------------------------------------------------------------------------

  /** The item at this position is the one that a run sends at this tip and date, if it is not cancelled. */
  ghost predicate Sends(s: Snapshot, tip: U64, date: int, endpoint: string, i: nat, j: nat) {
    Inspected(s, endpoint) && ChosenAt(s, endpoint, tip, date, i, j) && PassesCheck(s.batches[i], j, tip, date)
  }

  ghost predicate Sendable(s: Snapshot, tip: U64, date: int) {
    exists endpoint: string, i: nat, j: nat :: Sends(s, tip, date, endpoint, i, j)
  }

  /** The selection is the item that the run sends, with the payload that was stored before the run. */
  ghost predicate IsSent(s: Snapshot, tip: U64, date: int, sel: Selection) {
    exists endpoint: string, i: nat, j: nat :: Sends(s, tip, date, endpoint, i, j) && sel == SelectionOf(s.batches[i], j)
  }

  /** The write-ahead selects something exactly when there is something to send, and then exactly that. */
  lemma WritesAheadWhatIsSent(sha: Data -> string, s: Snapshot, tip: U64, verify: bool, attemptId: string, date: int, endpoint: string)
    requires Inv(sha, s) && Open(s, date).1 == Some(endpoint)
    ensures var r := Prepare(Open(s, date).0, tip, endpoint, verify, attemptId, date);
      && (r.Ok? && r.value.1.Some? <==> Sendable(s, tip, date))
      && (r.Ok? && r.value.1.Some? ==> IsSent(s, tip, date, r.value.1.value))
      && (r.Err? ==> SomethingReady(s, endpoint, tip, date))
      && (r.Ok? && r.value.1.None? ==> !SomethingReady(s, endpoint, tip, date))
  {
    OpensInspected(s, date);
    var i, j := SelectsWhatIsReady(s, endpoint, tip, verify, date);
    if SomethingReady(s, endpoint, tip, date) {
      PreparesWhatPasses(sha, s, endpoint, tip, verify, attemptId, date, i, j);
      SendsOnly(s, tip, date, endpoint, i, j);
    } else {
      NothingToSend(s, tip, date, endpoint);
    }
  }

  lemma SendsOnly(s: Snapshot, tip: U64, date: int, endpoint: string, i: nat, j: nat)
    requires Inspected(s, endpoint) && (forall e :: Inspected(s, e) ==> e == endpoint) && ChosenAt(s, endpoint, tip, date, i, j)
    ensures Sendable(s, tip, date) <==> PassesCheck(s.batches[i], j, tip, date)
    ensures PassesCheck(s.batches[i], j, tip, date) ==> IsSent(s, tip, date, SelectionOf(s.batches[i], j))
  {
    if PassesCheck(s.batches[i], j, tip, date) {
      assert Sends(s, tip, date, endpoint, i, j);
    }
    if e: string, k: nat, l: nat :| Sends(s, tip, date, e, k, l) {
      ChosenOnce(s, endpoint, tip, date, i, j, k, l);
    }
  }

  lemma NothingToSend(s: Snapshot, tip: U64, date: int, endpoint: string)
    requires (forall e :: Inspected(s, e) ==> e == endpoint) && !SomethingReady(s, endpoint, tip, date)
    ensures !Sendable(s, tip, date)
  {
    if Sendable(s, tip, date) {
      SentIsReady(s, tip, date);
    }
  }

  lemma SentIsReady(s: Snapshot, tip: U64, date: int)
    requires Sendable(s, tip, date)
    ensures exists e :: Inspected(s, e) && SomethingReady(s, e, tip, date)
  {
    var e: string, i: nat, j: nat :| Sends(s, tip, date, e, i, j);
    assert ReadyBatch(s.batches[i], e, tip, date);
  }
}
