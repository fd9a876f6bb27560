/**
 One execution in full, from the empty store: a batch of one item is staged and armed, a run writes its
 attempt ahead, and a revocation in flight then loses the send.
 */
module OutboxScenario {
  import opened Common
  import opened StringOrder
  import opened OutboxModel
  import opened OutboxStaging
  import opened OutboxUpdates
  import opened OutboxRunner
  import opened OutboxForgotten

  const EXPIRY: U64 := 2 * EXPIRY_MODULUS

  function OnlyItem(sha: Data -> string): Item { NewItem(sha, "i", 0, "x", [1], 0, 0, 0, EXPIRY) }

  function OnlyBatch(sha: Data -> string): Batch {
    Batch("b", "n", "a", "r", "u", 1, 1, 0, None, None, None, None, None, None, None, None, [OnlyItem(sha)])
  }

  /** The batch once it is armed, with its item in a given state. */
  function ArmedWith(sha: Data -> string, it: Item): Batch { OnlyBatch(sha).(armedAt := Some(0), items := [it]) }

  function ArmedItem(sha: Data -> string): Item { OnlyItem(sha).(status := Armed) }

  function Holding(b: Batch, lastEndpoint: Option<string>): Snapshot { EMPTY.(batches := [b], lastEndpoint := lastEndpoint) }

  lemma BatchIsValid(sha: Data -> string)
    ensures ValidIncoming(sha, OnlyBatch(sha)) && FromChannel(OnlyBatch(sha)) && IdsFree(EMPTY, OnlyBatch(sha))
  {
  }

  lemma Staged(sha: Data -> string)
    ensures Stage(sha, EMPTY, OnlyBatch(sha)) == Ok(Holding(OnlyBatch(sha), None))
  {
    BatchIsValid(sha);
    assert [] + [OnlyBatch(sha)] == [OnlyBatch(sha)];
  }

  lemma FoundFirst(b: Batch, lastEndpoint: Option<string>)
    ensures BatchIndex(Holding(b, lastEndpoint).batches, b.batchId) == 0
  {
    assert Holding(b, lastEndpoint).batches[..0] == [];
  }

  lemma Armed1(sha: Data -> string)
    ensures ArmBatch(Holding(OnlyBatch(sha), None), "b", map["i" := OnlyItem(sha).digest], 0)
         == Ok(Holding(ArmedWith(sha, ArmedItem(sha)), None))
  {
    var digests := map["i" := OnlyItem(sha).digest];
    FoundFirst(OnlyBatch(sha), None);
    assert "i" in digests && OnlyItem(sha) in OnlyBatch(sha).items;
    assert MapItems([OnlyItem(sha)], ArmedIfExpected(digests)) == [ArmedItem(sha)];
    assert [OnlyBatch(sha)][0 := ArmedWith(sha, ArmedItem(sha))] == [ArmedWith(sha, ArmedItem(sha))];
  }

  /** A store with one batch has one endpoint and one scope to choose from. */
  lemma OnlyKey(keys: seq<string>, last: Option<string>, key: string)
    requires keys != [] && forall k :: k in keys ==> k == key
    ensures NextKey(SortedDistinct(keys), last) == key && SortedDistinct(keys) != []
  {
    assert keys[0] in keys;
    assert keys[0] in SortedDistinct(keys);
    assert NextKey(SortedDistinct(keys), last) in SortedDistinct(keys);
  }

  lemma Opened1(sha: Data -> string)
    ensures Open(Holding(ArmedWith(sha, ArmedItem(sha)), None), 0) == (Holding(ArmedWith(sha, ArmedItem(sha)), Some("u")), Some("u"))
  {
    var b := ArmedWith(sha, ArmedItem(sha));
    var s := Holding(b, None);
    assert MapItems(b.items, Interrupted(0)) == b.items;
    assert RecoverInterrupted(s, 0).batches == [b];
    assert b in s.batches && ArmedItem(sha) in b.items && HasArmed(b.items);
    assert "u" in EndpointsOf(s.batches);
    OnlyKey(EndpointsOf(s.batches), None, "u");
  }

  lemma QuietItem(sweep: Sweep, b: Batch, it: Item, date: int)
    requires b.items == [it] && !sweep.Hits(it)
    ensures SweptItems(sweep, b.items) == b.items && SweepReceipts(sweep, b, b.items, date) == []
  {
    assert [it][..0] == [];
    assert SweptItems(sweep, b.items)[0] == it;
  }

  lemma QuietSweep(sweep: Sweep, b: Batch, it: Item, endpoint: string, date: int)
    requires b.items == [it] && !sweep.Hits(it)
    ensures SweepBatches(sweep, endpoint, [b], date) == ([b], [])
  {
    QuietItem(sweep, b, it, date);
    assert SweptBatch(sweep, b) == b;
    assert [b][..0] == [];
    assert SweepBatches(sweep, endpoint, [], date) == ([], []);
    assert [b][0] == b && [] + [b] == [b];
  }

  lemma Unswept(sha: Data -> string)
    ensures var s := Holding(ArmedWith(sha, ArmedItem(sha)), Some("u")); Swept(s, 0, "u", 0) == s
  {
    var b := ArmedWith(sha, ArmedItem(sha));
    QuietSweep(ExpirySweep(0), b, ArmedItem(sha), "u", 0);
    assert CanonicalExpiry(0) == Some(EXPIRY);
    QuietSweep(ResignSweep(0, EXPIRY), b, ArmedItem(sha), "u", 0);
  }

  function OnlySelection(sha: Data -> string): Selection { Selection("b", "a", "n:a", "u", ArmedItem(sha)) }

  lemma OnlyDue(sha: Data -> string, batches: seq<Batch>)
    requires batches == [ArmedWith(sha, ArmedItem(sha))]
    ensures "n:a" in ScopesOf(batches, 0, Some("u"), 0) && forall k :: k in ScopesOf(batches, 0, Some("u"), 0) ==> k == "n:a"
  {
    var b := batches[0];
    assert ArmedItem(sha) in b.items && Due(ArmedItem(sha), 0, 0);
    assert b in batches && DueBatch(b, 0, Some("u"), 0) && b.ScopeKey() == "n:a";
  }

  lemma Picked(sha: Data -> string, s: Snapshot)
    requires s.batches == [ArmedWith(sha, ArmedItem(sha))] && s.lastScope.None?
    ensures SelectDue(s, 0, Some("u"), 0) == (s.(lastScope := Some("n:a")), Some(OnlySelection(sha)))
  {
    OnlyDue(sha, s.batches);
    OnlyKey(ScopesOf(s.batches, 0, Some("u"), 0), None, "n:a");
    assert s.batches[ScopeBatch(s.batches, 0, Some("u"), 0, "n:a")] == ArmedWith(sha, ArmedItem(sha));
    var best := BestItem(s.batches[0].items, 0, 0);
    assert ArmedItem(sha) in s.batches[0].items && Due(s.batches[0].items[0], 0, 0);
    assert s.batches[0].items[best.value] == ArmedItem(sha);
  }

  lemma Selected1(sha: Data -> string)
    ensures var s := Holding(ArmedWith(sha, ArmedItem(sha)), Some("u"));
      Select(s, 0, "u", true, 0) == (s.(lastScope := Some("n:a")), Some(OnlySelection(sha)))
  {
    Unswept(sha);
    Picked(sha, Holding(ArmedWith(sha, ArmedItem(sha)), Some("u")));
  }

  lemma Validated1(b: Batch, it: Item, s: Snapshot)
    requires b.items == [it] && s.batches == [b]
    ensures ItemLocation(s.batches, it.itemId) == Some((0, 0)) && ValidateRescheduling(s, it.itemId, 0).Ok?
  {
    assert b.items[..0] == [] && s.batches[..0] == [];
    assert ItemIndex(b.items, it.itemId) == 0;
    assert ItemLocation([], it.itemId) == None;
    assert OverdueExpiries(b.items, it.itemId, 0) == [];
  }

  function SubmittingItem(sha: Data -> string): Item {
    ArmedItem(sha).(status := Submitting, attemptId := Some("t"), attemptStartedAt := Some(0))
  }

  lemma Begun1(sha: Data -> string, s: Snapshot)
    requires s.batches == [ArmedWith(sha, ArmedItem(sha))]
    ensures BeginSubmission(s, "i", "t", 0) == Ok(s.(batches := [ArmedWith(sha, SubmittingItem(sha))]))
  {
    var b := ArmedWith(sha, ArmedItem(sha));
    Validated1(b, ArmedItem(sha), s);
    assert b.items[0 := SubmittingItem(sha)] == [SubmittingItem(sha)];
    assert s.batches[0 := ArmedWith(sha, SubmittingItem(sha))] == [ArmedWith(sha, SubmittingItem(sha))];
  }

  function WrittenAhead(sha: Data -> string): Snapshot {
    Holding(ArmedWith(sha, SubmittingItem(sha)), Some("u")).(lastScope := Some("n:a"))
  }

  lemma Prepared1(sha: Data -> string)
    ensures Prepare(Holding(ArmedWith(sha, ArmedItem(sha)), Some("u")), 0, "u", true, "t", 0)
         == Ok((WrittenAhead(sha), Some(OnlySelection(sha))))
  {
    var b := ArmedWith(sha, ArmedItem(sha));
    var s := Holding(b, Some("u")).(lastScope := Some("n:a"));
    Selected1(sha);
    Validated1(b, ArmedItem(sha), s);
    Begun1(sha, s);
  }

  // ----- the execution ------------------------------------------------------------------------

  /** Staged and armed by the channel. */
  lemma ArmedRun(sha: Data -> string) returns (ws: seq<World>, es: seq<Event>)
    ensures IsExecution(sha, ws, es)
    ensures es == [Channel(StageUpdate(OnlyBatch(sha))), Channel(ArmUpdate("b", map["i" := OnlyItem(sha).digest], 0))]
    ensures ws[|es|].store == Holding(ArmedWith(sha, ArmedItem(sha)), None) && ws[|es|].pc.Idle?
  {
    BatchIsValid(sha);
    Staged(sha);
    Armed1(sha);
    ws, es := [START], [];
    ws, es := ExtendChannel(sha, ws, es, StageUpdate(OnlyBatch(sha)), Holding(OnlyBatch(sha), None));
    ws, es := ExtendChannel(sha, ws, es, ArmUpdate("b", map["i" := OnlyItem(sha).digest], 0), Holding(ArmedWith(sha, ArmedItem(sha)), None));
  }

  lemma BeginStep(sha: Data -> string, w: World, store: Snapshot, endpoint: string)
    requires w.pc.Idle? && Open(w.store, 0) == (store, Some(endpoint))
    ensures Enabled(sha, w, BeginRun(0))
    ensures Step(sha, w, BeginRun(0)).store == store && Step(sha, w, BeginRun(0)).pc == Opened(endpoint)
  {
  }

  lemma TipStep(sha: Data -> string, w: World)
    requires w.pc.Opened?
    ensures Enabled(sha, w, TipArrives(0))
    ensures Step(sha, w, TipArrives(0)).store == w.store && Step(sha, w, TipArrives(0)).pc == AtTip(w.pc.endpoint, 0)
  {
  }

  lemma WriteStep(sha: Data -> string, w: World, prepared: Result<(Snapshot, Option<Selection>), OutboxError>)
    requires w.pc.AtTip? && prepared == Prepare(w.store, w.pc.tip, w.pc.endpoint, true, "t", 0) && prepared.Ok? && prepared.value.1.Some?
    ensures Enabled(sha, w, WriteAhead(true, "t", 0))
    ensures var next := Step(sha, w, WriteAhead(true, "t", 0));
      next.store == prepared.value.0 && next.pc == Prepared(w.pc.endpoint, w.pc.tip, prepared.value.1.value)
  {
    var e := WriteAhead(true, "t", 0);
    WriteAheadStep(sha, w, e, PrepareUpdate(w.pc.tip, w.pc.endpoint, true, "t", 0), prepared);
    WriteAheadPc(sha, w, e, prepared);
  }

  lemma OpenedRun(sha: Data -> string) returns (ws: seq<World>, es: seq<Event>)
    ensures IsExecution(sha, ws, es) && |es| == 3
    ensures ws[3].store == Holding(ArmedWith(sha, ArmedItem(sha)), Some("u")) && ws[3].pc == Opened("u")
  {
    var before, begun := ArmedRun(sha);
    Opened1(sha);
    BeginStep(sha, before[2], Holding(ArmedWith(sha, ArmedItem(sha)), Some("u")), "u");
    ws, es := Extend(sha, before, begun, BeginRun(0));
  }

  lemma AtTipRun(sha: Data -> string) returns (ws: seq<World>, es: seq<Event>)
    ensures IsExecution(sha, ws, es) && |es| == 4
    ensures ws[4].store == Holding(ArmedWith(sha, ArmedItem(sha)), Some("u")) && ws[4].pc == AtTip("u", 0)
  {
    var before, begun := OpenedRun(sha);
    TipStep(sha, before[3]);
    ws, es := Extend(sha, before, begun, TipArrives(0));
  }

  lemma ExtendWrite(sha: Data -> string, worlds: seq<World>, events: seq<Event>, prepared: Result<(Snapshot, Option<Selection>), OutboxError>)
    returns (ws: seq<World>, es: seq<Event>)
    requires IsExecution(sha, worlds, events) && worlds[|events|].pc.AtTip? && prepared.Ok? && prepared.value.1.Some?
    requires prepared == Prepare(worlds[|events|].store, worlds[|events|].pc.tip, worlds[|events|].pc.endpoint, true, "t", 0)
    ensures es == events + [WriteAhead(true, "t", 0)] && IsExecution(sha, ws, es)
    ensures ws[|es|].store == prepared.value.0
    ensures ws[|es|].pc == Prepared(worlds[|events|].pc.endpoint, worlds[|events|].pc.tip, prepared.value.1.value)
  {
    WriteStep(sha, worlds[|events|], prepared);
    ws, es := Extend(sha, worlds, events, WriteAhead(true, "t", 0));
  }

  lemma WrittenRun(sha: Data -> string) returns (ws: seq<World>, es: seq<Event>)
    ensures IsExecution(sha, ws, es) && |es| == 5 && es[4].WriteAhead?
    ensures ws[5].store == WrittenAhead(sha) && ws[5].pc == Prepared("u", 0, OnlySelection(sha))
  {
    var before, begun := AtTipRun(sha);
    Prepared1(sha);
    ws, es := ExtendWrite(sha, before, begun, Ok((WrittenAhead(sha), Some(OnlySelection(sha)))));
  }

  /**
   There is an execution that sends a payload it wrote ahead and ends with that item stored, without an
   attempt on record, and free to be discarded.
   */
  lemma RevocationLosesASend(sha: Data -> string) returns (ws: seq<World>, es: seq<Event>)
    ensures IsExecution(sha, ws, es) && |es| == 8
    ensures es[4].WriteAhead? && ws[5].pc.Prepared? && ws[5].pc.sel == OnlySelection(sha)
    ensures es[5..] == RevokedInFlight(OnlyBatch(sha)) && es[6].Send?
    ensures Forgotten(ws[8].store, "b", OnlySelection(sha).item.itemId)
  {
    var before, begun := WrittenRun(sha);
    CanBeRevoked(sha, before[5].store);
    ws, es := RevokedInFlightIsForgotten(sha, before, begun, OnlyBatch(sha));
    assert ws[5] == before[5];
  }

  /** Everything that the loss needs of the store that was written ahead. */
  lemma CanBeRevoked(sha: Data -> string, s: Snapshot)
    requires s == WrittenAhead(sha)
    ensures ValidIncoming(sha, OnlyBatch(sha)) && FromChannel(OnlyBatch(sha))
    ensures exists k :: 0 <= k < |OnlyBatch(sha).items| && OnlyBatch(sha).items[k].itemId == OnlySelection(sha).item.itemId
    ensures forall i :: 0 <= i < |s.batches| && s.batches[i].batchId == OnlyBatch(sha).batchId ==>
      s.batches[i].network == OnlyBatch(sha).network && s.batches[i].accountUuid == OnlyBatch(sha).accountUuid
    ensures IdsFree(Revoke(s, OnlyBatch(sha).network, OnlyBatch(sha).accountUuid), OnlyBatch(sha))
  {
    BatchIsValid(sha);
    assert OnlyBatch(sha).items[0].itemId == OnlySelection(sha).item.itemId;
    NothingLeft(sha, s);
  }

  lemma SomethingIn(batches: seq<Batch>)
    ensures batches == [] || exists b :: b in batches
  {
    if batches != [] {
      assert batches[0] in batches;
    }
  }

  lemma NothingLeft(sha: Data -> string, s: Snapshot)
    requires s == WrittenAhead(sha)
    ensures IdsFree(Revoke(s, "n", "a"), OnlyBatch(sha))
  {
    var b, left := s.batches[0], Revoke(s, "n", "a").batches;
    assert b in s.batches && b.network == "n" && b.accountUuid == "a";
    assert InAccount(s, "n", "a", b.batchId);
    assert b !in left && forall x :: x in left ==> x == b;
    SomethingIn(left);
  }
}
