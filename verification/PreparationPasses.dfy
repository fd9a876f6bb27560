/** What a tracking pass makes of everything it saw, and exactly who is parked after each step. */
module PreparationPasses {
  import opened Common
  import Notifications
  import opened Preparation

  // ----- one run ----------------------------------------------------------------------------------------

  /** How many confirmations the chain shows for the transaction. */
  ghost function Depth(o: Observation, tip: nat): nat { if o.Mined? && o.height <= tip then tip + 1 - o.height else 0 }

  ghost predicate AllDeep(observations: seq<Observation>, tip: nat) {
    observations != [] && forall k :: 0 <= k < |observations| ==> Depth(observations[k], tip) >= 3
  }

  ghost predicate AnyForked(observations: seq<Observation>) { exists k :: 0 <= k < |observations| && observations[k].Forked? }

  /** The run waits, and what was asked about it gave nothing to judge by yet: it is asked again. */
  ghost predicate SaysNothing(q: Query) {
    q.NoAnswer? || (q.NoTransactions? && q.passes < 2) || (q.Answered? && q.observations == [])
  }

  /** The run waits, and what was asked about it cannot be answered in the background. */
  ghost predicate Fails(q: Query) {
    q.Unlistable? || (q.NoTransactions? && q.passes >= 2) || (q.Answered? && AnyForked(q.observations))
  }

  /**
   What one pass decides about a run. An unreadable run, a stage that only the foreground can leave, a
   transaction on another chain and a second pass without transactions need the foreground, and all but
   the stage that waits for the user are a failure of the background task; a missing answer never is.
   */
  lemma DispositionIs(i: Inspected, q: Query)
    ensures var d := DispositionFor(i, q);
      && (d.Inactive? <==> i == InState(4))
      && (d.TerminalFailure? <==> i.InState? && i.state > 5)
      && (d == NeedsForeground(false) <==> i == InState(5))
      && (d == NeedsForeground(true) <==>
            i.Unreadable? || i == InState(1) || i == InState(2) || i == InState(3) || (i == InState(0) && Fails(q)))
      && (d.Retry? <==> i == InState(0) && SaysNothing(q))
      && (d.Confirmed? <==> i == InState(0) && q.Answered? && AllDeep(q.observations, q.tip))
      && (d.InProgress? <==> i == InState(0) && q.Answered? && q.observations != [] && !AnyForked(q.observations) && !AllDeep(q.observations, q.tip))
  {
    if i == InState(0) && q.Answered? && q.observations != [] {
      OnlyTheChainConfirms(i, q);
      DeepIs(q.observations, q.tip);
    }
  }

  lemma DeepIs(observations: seq<Observation>, tip: nat)
    requires observations != []
    ensures AllDeep(observations, tip)
       <==> forall k :: 0 <= k < |observations| ==> observations[k].Mined? && tip >= observations[k].height + 2
    ensures AllDeep(observations, tip) ==> !AnyForked(observations)
  {
    forall k | 0 <= k < |observations|
      ensures Depth(observations[k], tip) >= 3 <==> observations[k].Mined? && tip >= observations[k].height + 2
    {
    }
  }

  /** The transactions that have at least `n` confirmations. */
  ghost function AtDepth(observations: seq<Observation>, tip: nat, n: nat): set<nat> {
    set k: nat | k < |observations| && Depth(observations[k], tip) >= n
  }

  lemma AtDepthStep(observations: seq<Observation>, tip: nat, n: nat)
    requires observations != []
    ensures |AtDepth(observations, tip, n)|
         == |AtDepth(observations[..|observations| - 1], tip, n)| + if Depth(observations[|observations| - 1], tip) >= n then 1 else 0
  {
    var front := AtDepth(observations[..|observations| - 1], tip, n);
    if Depth(observations[|observations| - 1], tip) >= n {
      assert AtDepth(observations, tip, n) == front + {|observations| - 1};
    } else {
      assert AtDepth(observations, tip, n) == front;
    }
  }

  lemma {:induction false} UnitsAre(observations: seq<Observation>, tip: nat)
    ensures ConfirmedUnits(observations, tip, 3)
         == |AtDepth(observations, tip, 1)| + |AtDepth(observations, tip, 2)| + |AtDepth(observations, tip, 3)|
    ensures Completed(observations, tip, 3) == |AtDepth(observations, tip, 3)|
  {
    if observations == [] {
      assert AtDepth([], tip, 1) == AtDepth([], tip, 2) == AtDepth([], tip, 3) == {};
    } else {
      UnitsAre(observations[..|observations| - 1], tip);
      AtDepthStep(observations, tip, 1);
      AtDepthStep(observations, tip, 2);
      AtDepthStep(observations, tip, 3);
    }
  }

  /**
   The progress of a wave: every transaction counts one unit for each of its first three confirmations, out
   of three for each transaction listed, or for each stage planned if those are more.
   */
  lemma ProgressIs(observations: seq<Observation>, tip: nat, stages: nat)
    ensures var p := ConfirmationProgress(observations, tip, CONFIRMATION_TARGET, stages);
      && p.confirmedUnits == |AtDepth(observations, tip, 1)| + |AtDepth(observations, tip, 2)| + |AtDepth(observations, tip, 3)|
      && p.completedTransactions == |AtDepth(observations, tip, 3)|
      && p.totalTransactions >= |observations| && p.totalTransactions >= stages
      && (p.totalTransactions == |observations| || p.totalTransactions == stages)
      && p.totalUnits == 3 * p.totalTransactions
  {
    UnitsAre(observations, tip);
  }

  // ----- one pass -----------------------------------------------------------------------------------------

  /** The alert that speaks for a result. */
  ghost predicate Speaks(d: Disposition, kind: Notifications.Kind) {
    match kind
    case ConfirmedWaveReady => d.Confirmed?
    case NeedsForegroundRecovery => d.NeedsForeground?
    case TerminalFailure => d.TerminalFailure?
  }

  ghost predicate SpokenFor(results: seq<ScopeResult>, a: Alert) {
    exists i :: 0 <= i < |results| && results[i].scope == a.scope && Speaks(results[i].disposition, a.kind)
  }

  ghost predicate WaveOf(results: seq<ScopeResult>, scope: string) {
    exists i :: 0 <= i < |results| && results[i].scope == scope && results[i].disposition.Confirmed?
  }

  ghost predicate Breaks(d: Disposition) { d.TerminalFailure? || d == NeedsForeground(true) }

  ghost predicate AnyBreaks(results: seq<ScopeResult>) { exists i :: 0 <= i < |results| && Breaks(results[i].disposition) }

  ghost predicate CarriesProgress(d: Disposition) { d.Confirmed? || d.InProgress? }

  /** The last result that carries progress for the run is at `i`. */
  ghost predicate LastWord(results: seq<ScopeResult>, scope: string, i: nat) {
    && i < |results| && results[i].scope == scope && CarriesProgress(results[i].disposition)
    && forall k :: i < k < |results| && results[k].scope == scope ==> !CarriesProgress(results[k].disposition)
  }

  ghost predicate Silent(results: seq<ScopeResult>, scope: string) {
    forall k :: 0 <= k < |results| && results[k].scope == scope ==> !CarriesProgress(results[k].disposition)
  }

  /** What the pass knows of a run: its last progress in the pass, or what was cached. */
  ghost predicate KnownProgress(results: seq<ScopeResult>, cached: map<string, Progress>, progress: map<string, Progress>, scope: string) {
    && (forall i: nat :: LastWord(results, scope, i) ==> scope in progress && progress[scope] == results[i].disposition.progress)
    && (Silent(results, scope) ==> (scope in progress <==> scope in cached) && (scope in cached ==> progress[scope] == cached[scope]))
  }

  /** The results at which a run is asked again of which no progress is known. */
  ghost function BlindRetries(results: seq<ScopeResult>, cached: map<string, Progress>): set<nat> {
    set i: nat | i < |results| && results[i].disposition.Retry? && results[i].scope !in cached && Silent(results[..i], results[i].scope)
  }

  lemma AlertsStep(front: seq<ScopeResult>, last: ScopeResult, a: Alert)
    ensures SpokenFor(front + [last], a) <==> SpokenFor(front, a) || (last.scope == a.scope && Speaks(last.disposition, a.kind))
    ensures WaveOf(front + [last], a.scope) <==> WaveOf(front, a.scope) || (last.scope == a.scope && last.disposition.Confirmed?)
  {
    var all := front + [last];
    assert all[|front|] == last;
    assert forall i :: 0 <= i < |front| ==> all[i] == front[i];
    if SpokenFor(front, a) {
      var i :| 0 <= i < |front| && front[i].scope == a.scope && Speaks(front[i].disposition, a.kind);
      assert all[i].scope == a.scope && Speaks(all[i].disposition, a.kind);
    }
    if WaveOf(front, a.scope) {
      var i :| 0 <= i < |front| && front[i].scope == a.scope && front[i].disposition.Confirmed?;
      assert all[i].scope == a.scope && all[i].disposition.Confirmed?;
    }
  }

  /** An alert is raised exactly for a result that closes its run, of the kind that speaks for it; waves are the confirmed runs. */
  lemma {:induction false} AlertsAre(results: seq<ScopeResult>, cached: map<string, Progress>, a: Alert)
    ensures a in Tracked(results, cached).alerts <==> SpokenFor(results, a)
    ensures a.scope in Tracked(results, cached).confirmedWaves <==> WaveOf(results, a.scope)
  {
    if results != [] {
      var front, last := results[..|results| - 1], results[|results| - 1];
      AlertsAre(front, cached, a);
      assert results == front + [last];
      AlertsStep(front, last, a);
    }
  }

  /** The results that close their run. */
  ghost function Closing(results: seq<ScopeResult>): set<nat> { set i: nat | i < |results| && Closes(results[i].disposition) }

  lemma ClosingStep(front: seq<ScopeResult>, last: ScopeResult)
    ensures |Closing(front + [last])| == |Closing(front)| + if Closes(last.disposition) then 1 else 0
  {
    var more := Closing(front) + if Closes(last.disposition) then {|front|} else {};
    forall i: nat ensures i in Closing(front + [last]) <==> i in more {
      ClosesAt(front, last, i);
    }
    assert Closing(front + [last]) == more;
  }

  lemma ClosesAt(front: seq<ScopeResult>, last: ScopeResult, i: nat)
    ensures i in Closing(front + [last]) <==> i in Closing(front) || (i == |front| && Closes(last.disposition))
  {
    if i < |front| {
      assert (front + [last])[i] == front[i];
    }
  }

  lemma BreaksStep(front: seq<ScopeResult>, last: ScopeResult)
    ensures AnyBreaks(front + [last]) <==> AnyBreaks(front) || Breaks(last.disposition)
  {
    var all := front + [last];
    assert all[|front|] == last;
    if i :| 0 <= i < |front| && Breaks(front[i].disposition) {
      assert all[i] == front[i];
    }
  }

  lemma ClassifyCounts(p: Pass, r: ScopeResult)
    ensures |Classify(p, r).alerts| == |p.alerts| + if Closes(r.disposition) then 1 else 0
    ensures Classify(p, r).taskFailure <==> p.taskFailure || Breaks(r.disposition)
  {
  }

  /** As many alerts as results that close a run; the background task failed exactly if some result breaks it. */
  lemma {:induction false} AlertsCount(results: seq<ScopeResult>, cached: map<string, Progress>)
    ensures |Tracked(results, cached).alerts| == |Closing(results)|
    ensures Tracked(results, cached).taskFailure <==> AnyBreaks(results)
  {
    if results == [] {
      assert Closing([]) == {};
    } else {
      var front, last := results[..|results| - 1], results[|results| - 1];
      AlertsCount(front, cached);
      assert results == front + [last];
      ClosingStep(front, last);
      BreaksStep(front, last);
      ClassifyCounts(Tracked(front, cached), last);
    }
  }

  lemma SilentStep(front: seq<ScopeResult>, last: ScopeResult, scope: string)
    ensures Silent(front + [last], scope) <==> Silent(front, scope) && !(last.scope == scope && CarriesProgress(last.disposition))
  {
    var all := front + [last];
    assert all[|front|] == last;
    assert forall i :: 0 <= i < |front| ==> all[i] == front[i];
  }

  /** The last word on a run is the last result, if that carries progress for it, and otherwise what it was before. */
  lemma LastWordStep(front: seq<ScopeResult>, last: ScopeResult, scope: string, i: nat)
    requires LastWord(front + [last], scope, i)
    ensures i <= |front| && (i == |front| <==> last.scope == scope && CarriesProgress(last.disposition))
    ensures i < |front| ==> LastWord(front, scope, i) && (front + [last])[i] == front[i]
  {
    var all := front + [last];
    assert all[|front|] == last;
    assert forall k :: 0 <= k < |front| ==> all[k] == front[k];
  }

  lemma ClassifyProgress(p: Pass, r: ScopeResult)
    ensures Classify(p, r).progress == if CarriesProgress(r.disposition) then p.progress[r.scope := r.disposition.progress] else p.progress
  {
  }

  lemma TrackedStep(results: seq<ScopeResult>, cached: map<string, Progress>) returns (front: seq<ScopeResult>, last: ScopeResult)
    requires results != []
    ensures results == front + [last] && Tracked(results, cached) == Classify(Tracked(front, cached), last) && |front| == |results| - 1
  {
    front, last := results[..|results| - 1], results[|results| - 1];
  }

  /** The progress known after a pass is the last one that the pass saw of the run, or the cached one. */
  lemma {:induction false} ProgressKnown(results: seq<ScopeResult>, cached: map<string, Progress>, scope: string)
    ensures KnownProgress(results, cached, Tracked(results, cached).progress, scope) == true
    decreases |results|
  {
    if results == [] {
      NothingKnown(cached, scope);
    } else {
      var front, last := TrackedStep(results, cached);
      ProgressKnown(front, cached, scope);
      ClassifyProgress(Tracked(front, cached), last);
      KnownStep(front, last, cached, Tracked(front, cached).progress, Tracked(results, cached).progress, scope);
    }
  }

  lemma NothingKnown(cached: map<string, Progress>, scope: string)
    ensures KnownProgress([], cached, cached, scope)
  {
  }

  lemma {:induction false} KnownMeans(results: seq<ScopeResult>, cached: map<string, Progress>, scope: string)
    ensures scope in Tracked(results, cached).progress <==> scope in cached || !Silent(results, scope)
    decreases |results|
  {
    if results != [] {
      var front, last := TrackedStep(results, cached);
      KnownMeans(front, cached, scope);
      ClassifyProgress(Tracked(front, cached), last);
      SilentStep(front, last, scope);
    }
  }

  lemma KnownStep(front: seq<ScopeResult>, last: ScopeResult, cached: map<string, Progress>,
                  before: map<string, Progress>, after: map<string, Progress>, scope: string)
    requires KnownProgress(front, cached, before, scope)
    requires after == if CarriesProgress(last.disposition) then before[last.scope := last.disposition.progress] else before
    ensures KnownProgress(front + [last], cached, after, scope)
  {
    if last.scope == scope && CarriesProgress(last.disposition) {
      KnownNow(front, last, cached, after, scope);
    } else {
      KnownBefore(front, last, cached, before, after, scope);
    }
  }

  lemma KnownNow(front: seq<ScopeResult>, last: ScopeResult, cached: map<string, Progress>, after: map<string, Progress>, scope: string)
    requires last.scope == scope && CarriesProgress(last.disposition) && scope in after && after[scope] == last.disposition.progress
    ensures KnownProgress(front + [last], cached, after, scope)
  {
    SilentStep(front, last, scope);
    forall i: nat | LastWord(front + [last], scope, i) ensures (front + [last])[i] == last {
      LastWordStep(front, last, scope, i);
    }
  }

  /** A result that carries no progress for the run leaves what is known of it. */
  lemma KnownBefore(front: seq<ScopeResult>, last: ScopeResult, cached: map<string, Progress>,
                    before: map<string, Progress>, after: map<string, Progress>, scope: string)
    requires KnownProgress(front, cached, before, scope) && !(last.scope == scope && CarriesProgress(last.disposition))
    requires (scope in after <==> scope in before) && (scope in before ==> after[scope] == before[scope])
    ensures KnownProgress(front + [last], cached, after, scope)
  {
    SilentStep(front, last, scope);
    forall i: nat | LastWord(front + [last], scope, i)
      ensures scope in after && after[scope] == (front + [last])[i].disposition.progress
    {
      LastWordStep(front, last, scope, i);
    }
  }

  ghost predicate IsBlind(front: seq<ScopeResult>, last: ScopeResult, cached: map<string, Progress>) {
    last.disposition.Retry? && last.scope !in cached && Silent(front, last.scope)
  }

  lemma BlindStep(front: seq<ScopeResult>, last: ScopeResult, cached: map<string, Progress>)
    ensures |BlindRetries(front + [last], cached)| == |BlindRetries(front, cached)| + if IsBlind(front, last, cached) then 1 else 0
  {
    var more := BlindRetries(front, cached) + if IsBlind(front, last, cached) then {|front|} else {};
    forall i: nat ensures i in BlindRetries(front + [last], cached) <==> i in more {
      BlindAt(front, last, cached, i);
    }
    assert BlindRetries(front + [last], cached) == more;
  }

  lemma BlindAt(front: seq<ScopeResult>, last: ScopeResult, cached: map<string, Progress>, i: nat)
    ensures i in BlindRetries(front + [last], cached) <==> i in BlindRetries(front, cached) || (i == |front| && IsBlind(front, last, cached))
  {
    var all := front + [last];
    if i < |front| {
      assert all[..i] == front[..i] && all[i] == front[i];
    } else if i == |front| {
      assert all[..i] == front && all[i] == last;
    }
  }

  /** The count that ends a background task which gets nowhere: the results that ask again about a run of which nothing is known yet. */
  lemma {:induction false} RetriesAre(results: seq<ScopeResult>, cached: map<string, Progress>)
    ensures Tracked(results, cached).retriesWithoutProgress == |BlindRetries(results, cached)|
  {
    if results == [] {
      assert BlindRetries([], cached) == {};
    } else {
      var front, last := results[..|results| - 1], results[|results| - 1];
      RetriesAre(front, cached);
      KnownMeans(front, cached, last.scope);
      assert results == front + [last];
      BlindStep(front, last, cached);
      ClassifyRetries(Tracked(front, cached), last);
    }
  }

  lemma ClassifyRetries(p: Pass, r: ScopeResult)
    ensures Classify(p, r).retriesWithoutProgress == p.retriesWithoutProgress + if r.disposition.Retry? && r.scope !in p.progress then 1 else 0
  {
  }

  /** Every run that was not parked has its result, in the order in which the runs were looked at, and no other has one. */
  lemma {:induction false} ResultsAre(sightings: seq<Sighting>, parked: set<string>, r: ScopeResult)
    ensures r in Results(sightings, parked) <==> SeenAs(sightings, parked, r)
    ensures |Results(sightings, parked)| == |LookedAt(sightings, parked)|
  {
    if sightings == [] {
      assert LookedAt([], parked) == {};
    } else {
      var front, last := sightings[..|sightings| - 1], sightings[|sightings| - 1];
      ResultsAre(front, parked, r);
      assert sightings == front + [last];
      LookStep(front, last, parked);
      SeenStep(front, last, parked, r);
    }
  }

  lemma LookStep(front: seq<Sighting>, last: Sighting, parked: set<string>)
    ensures |LookedAt(front + [last], parked)| == |LookedAt(front, parked)| + if last.scope in parked then 0 else 1
  {
    var all := front + [last];
    assert all[|front|] == last;
    assert forall i :: 0 <= i < |front| ==> all[i] == front[i];
    if last.scope in parked {
      assert LookedAt(all, parked) == LookedAt(front, parked);
    } else {
      assert LookedAt(all, parked) == LookedAt(front, parked) + {|front|};
    }
  }

  lemma SeenStep(front: seq<Sighting>, last: Sighting, parked: set<string>, r: ScopeResult)
    ensures SeenAs(front + [last], parked, r) <==> SeenAs(front, parked, r) || SeenAt(last, parked, r)
  {
    var all := front + [last];
    assert all[|front|] == last;
    if j :| 0 <= j < |front| && SeenAt(front[j], parked, r) {
      assert all[j] == front[j];
    }
  }

  ghost predicate SeenAt(s: Sighting, parked: set<string>, r: ScopeResult) {
    s.scope !in parked && r == ScopeResult(s.scope, DispositionFor(s.inspected, s.query))
  }

  ghost predicate SeenAs(sightings: seq<Sighting>, parked: set<string>, r: ScopeResult) {
    exists j :: 0 <= j < |sightings| && SeenAt(sightings[j], parked, r)
  }

  ghost function LookedAt(sightings: seq<Sighting>, parked: set<string>): set<nat> {
    set j: nat | j < |sightings| && sightings[j].scope !in parked
  }

  /** A run that was not parked and that this pass can only leave to the foreground. */
  ghost predicate ClosesRun(s: Sighting, parked: set<string>, scope: string) {
    s.scope == scope && scope !in parked && Closes(DispositionFor(s.inspected, s.query))
  }

  ghost predicate ClosedBy(sightings: seq<Sighting>, parked: set<string>, scope: string) {
    exists j :: 0 <= j < |sightings| && ClosesRun(sightings[j], parked, scope)
  }

  /** What a whole pass closes, from what was seen. */
  lemma ClosedIs(sightings: seq<Sighting>, parked: set<string>, scope: string)
    ensures Classified(Results(sightings, parked), scope) <==> ClosedBy(sightings, parked, scope)
  {
    var results := Results(sightings, parked);
    if Classified(results, scope) {
      var i :| 0 <= i < |results| && results[i].scope == scope && Closes(results[i].disposition);
      var j := ResultsAreSightings(sightings, parked, i);
      assert ClosesRun(sightings[j], parked, scope);
    }
    if j :| 0 <= j < |sightings| && ClosesRun(sightings[j], parked, scope) {
      var r := ScopeResult(scope, DispositionFor(sightings[j].inspected, sightings[j].query));
      assert SeenAt(sightings[j], parked, r);
      ResultsAre(sightings, parked, r);
      var i :| 0 <= i < |results| && results[i] == r;
    }
  }

  // ----- who is parked --------------------------------------------------------------------------------------

  ghost predicate Waits(i: Inspection, scope: string) { i.Some? && scope in i.value && i.value[scope] == InState(0) }

  /** The inspection found a run that cannot be read, or one that goes on: waiting, or in a stage of the foreground. */
  ghost predicate GoesOn(i: Inspection, scope: string) {
    && i.Some? && scope in i.value
    && (i.value[scope].Unreadable? || i.value[scope].state == 0 || i.value[scope].state == 2 || i.value[scope].state == 3 || i.value[scope].state == 5)
  }

  /** Nothing waits, and something may need the foreground: the inspection failed or found a run that goes on. */
  ghost predicate ForegroundIsNext(i: Inspection) {
    i.None? || ((forall scope :: !Waits(i, scope)) && exists scope :: GoesOn(i, scope))
  }

  lemma TargetIs(i: Inspection)
    ensures TargetOf(i) == BackgroundProcessing <==> ForegroundIsNext(i)
    ensures TargetOf(i) == ContinuedProcessing <==> exists scope :: Waits(i, scope)
    ensures TargetOf(i) == TargetTerminal <==> i.Some? && forall scope :: scope in i.value ==> i.value[scope] == InState(4)
  {
    if i.Some? {
      TargetIsExact(i.value);
      assert forall scope :: Waits(i, scope) <==> scope in Trackable(i.value);
      assert forall scope :: GoesOn(i, scope) <==> scope in Eligible(i.value);
      TerminalIs(i.value);
    }
  }

  lemma TerminalIs(runs: map<string, Inspected>)
    ensures TargetOf(Some(runs)) == TargetTerminal <==> forall scope :: scope in runs ==> runs[scope] == InState(4)
  {
    var states := States(runs);
    if forall scope :: scope in runs ==> runs[scope] == InState(4) {
      assert forall state :: state in states ==> state == 4;
    }
    if TargetOf(Some(runs)) == TargetTerminal {
      forall scope | scope in runs ensures runs[scope] == InState(4) {
        assert !runs[scope].Unreadable?;
        assert runs[scope].state in states;
      }
    }
  }

  /**
   Exactly who is parked after each step: a handoff adds who goes on and was not seen waiting; a launch and
   a mutation replace the set by who goes on when the foreground is next, and a mutation first drops who
   does not go on; a pass adds who it closed once the alert is out or not wanted; a release drops one or all.
   */
  lemma ParkedIs(parked: set<string>, s: Step, scope: string)
    ensures scope in Next(parked, s) <==>
      match s
      case Handoff(eligible, trackable) => scope in parked || (GoesOn(eligible, scope) && !Waits(trackable, scope))
      case Launch(target, marked) =>
        if ForegroundIsNext(target) && marked.Some? then GoesOn(marked, scope) else scope in parked
      case ResumeAfterMutation(pruned, target, marked) =>
        if ForegroundIsNext(target) && marked.Some? then GoesOn(marked, scope)
        else scope in parked && (pruned.Some? ==> GoesOn(pruned, scope))
      case ApplyPass(results, _, quiesced, disabled, submitted) =>
        scope in parked || (Classified(results, scope) && !quiesced && (disabled || submitted))
      case Release(released) => scope in parked && scope != released
      case ReleaseAll => false
  {
    match s
    case Launch(target, _) => TargetIs(target);
    case ResumeAfterMutation(_, target, _) => TargetIs(target);
    case ApplyPass(results, cached, _, _, _) =>
      ReadyIsClassified(results, cached, scope);
      PassAlerts(results, cached);
    case _ =>
  }

  /** No alert without a run that is closed. */
  lemma AlertsAreClosings(results: seq<ScopeResult>, cached: map<string, Progress>)
    ensures Tracked(results, cached).alerts != [] <==> exists scope :: Classified(results, scope)
  {
    var alerts := Tracked(results, cached).alerts;
    if alerts != [] {
      assert Alerted(alerts, alerts[0].scope);
      ReadyIsClassified(results, cached, alerts[0].scope);
    }
    if scope :| Classified(results, scope) {
      ReadyIsClassified(results, cached, scope);
    }
  }

  lemma PassAlerts(results: seq<ScopeResult>, cached: map<string, Progress>)
    ensures Tracked(results, cached).ready != {} ==> Tracked(results, cached).alerts != []
  {
    if scope :| scope in Tracked(results, cached).ready {
      ReadyIsClassified(results, cached, scope);
      assert Alerted(Tracked(results, cached).alerts, scope);
    }
  }

  /** Exactly when a launch tracks: some run waits, and some waiting run is not parked, or nothing is parked that could explain that none is left. */
  lemma LaunchTracks(target: Inspection, trackable: Inspection, parked: set<string>)
    ensures ShouldTrackOnLaunch(DispositionOf(TargetOf(target)), Pending(parked, TrackableIn(trackable)), parked)
       <==> (exists scope :: Waits(target, scope)) && ((exists scope :: Waits(trackable, scope) && scope !in parked) || parked == {})
  {
    TargetIs(target);
    var pending := Pending(parked, TrackableIn(trackable));
    forall scope ensures scope in pending <==> Waits(trackable, scope) && scope !in parked {}
    if pending != {} {
      var scope :| scope in pending;
      assert Waits(trackable, scope) && scope !in parked;
    }
  }

  /** A run that the user's continuation released is tracked again: pending at once, and a launch keeps tracking it. */
  lemma ReleasedRunIsTracked(runs: map<string, Inspected>, parked: set<string>, scope: string)
    requires scope in runs && runs[scope] == InState(0)
    ensures var after := Next(parked, Release(scope));
      && scope in Pending(after, Trackable(runs))
      && ShouldTrackOnLaunch(DispositionOf(TargetOf(Some(runs))), Pending(after, Trackable(runs)), after)
      && (forall other :: other != scope ==> (other in after <==> other in parked))
  {
    UnparkedRunIsPending(runs, Next(parked, Release(scope)), scope);
  }

  // ----- the progress bar -----------------------------------------------------------------------------------

  /** `Rounded` is the nearest integer to the quotient, and the larger of two that are equally near. */
  lemma RoundedIsNearest(a: nat, b: nat)
    requires b > 0
    ensures b * (2 * Rounded(a, b) - 1) <= 2 * a < b * (2 * Rounded(a, b) + 1)
  {
    var q := (2 * a + b) / (2 * b);
    assert 2 * a + b == 2 * b * q + (2 * a + b) % (2 * b);
    assert b * (2 * q - 1) == 2 * b * q - b && b * (2 * q + 1) == 2 * b * q + b;
  }

  /** The next boundary is the share of one confirmation more, rounded down; at the end it is the whole bar. */
  lemma BoundaryIs(p: Progress, display: nat)
    ensures NextBoundary(p, display) * Total(p) <= MinInt(Total(p), Within(p) + 1) * display < (NextBoundary(p, display) + 1) * Total(p)
    ensures Within(p) == Total(p) ==> NextBoundary(p, display) == display
  {
    var share, total := (if Within(p) < Total(p) then Within(p) + 1 else Total(p)) * display, Total(p);
    assert share == (share / total) * total + share % total;
    assert (share / total + 1) * total == (share / total) * total + total;
    if Within(p) == Total(p) {
      assert share == display * total;
      WholeShare(display, total);
    }
  }

  lemma WholeShare(display: nat, total: nat)
    requires total > 0
    ensures display * total / total == display
  {
    var q := display * total / total;
    assert display * total == q * total + display * total % total;
    assert (display - q) * total == display * total % total;
    if q < display {
      TimesGrows(1, display - q, total);
    }
    if display < q {
      assert (q - display) * total == -(display * total % total);
      TimesGrows(1, q - display, total);
    }
  }

  /** Where the bar goes from `previous` while the wave is open, given what is asked for and the next boundary. */
  lemma OpenBar(previous: int, asked: int, boundary: int, display: int, shown: int)
    requires 0 <= previous < display && 0 <= asked
    requires shown == var bound := display - 1; var requested := MinInt(bound, asked);
      MaxInt(previous, MaxInt(requested, MinInt(MinInt(bound, MaxInt(requested, boundary - 1)), previous + 1)))
    ensures previous < asked ==> shown == MinInt(display - 1, asked)
    ensures asked <= previous ==> shown == if previous + 1 < MinInt(boundary, display) then previous + 1 else previous
  {
  }

  /**
   Exactly where an update leaves the bar. While the wave is open: at the confirmed fraction if that is
   ahead, short of the full bar; otherwise one unit on if that stays below the next boundary and the full
   bar, or else where it was. Once it is complete: at the confirmed fraction, or where it was.
   */
  lemma BarIs(previous: int, p: Progress, display: nat, asked: int, boundary: int)
    requires 0 <= previous < display && asked == Requested(p, display) && boundary == NextBoundary(p, display)
    ensures var shown := DisplayedUnits(previous, p, display);
      if p.isComplete then shown == MaxInt(previous, MinInt(display, asked))
      else if previous < asked then shown == MinInt(display - 1, asked)
      else shown == if previous + 1 < MinInt(boundary, display) then previous + 1 else previous
  {
    if !p.isComplete {
      OpenBar(previous, asked, boundary, display, DisplayedUnits(previous, p, display));
    }
  }

  /** Until the first pass comes back, each heartbeat shows one unit more, up to 50 of the 1000 of the bar. */
  lemma {:induction false} FirstHeartbeats(bars: seq<Bar>, ticks: seq<Tick>, n: nat)
    requires IsTracking(bars, ticks) && n < |bars| && forall k :: 0 <= k < n ==> ticks[k].Heartbeat?
    ensures bars[n] == Bar(MinInt(50, n), None)
  {
    if n > 0 {
      FirstHeartbeats(bars, ticks, n - 1);
    }
  }

  lemma Quotient(q: nat, d: nat, r: nat)
    requires r < d
    ensures (q * d + r) / d == q
  {
    var x := q * d + r;
    assert x == (x / d) * d + x % d;
    assert (x / d - q) * d == r - x % d;
    if q < x / d {
      TimesGrows(1, x / d - q, d);
    }
    if x / d < q {
      assert (q - x / d) * d == x % d - r;
      TimesGrows(1, q - x / d, d);
    }
  }

  lemma WholeIsRounded(whole: nat, t: nat)
    requires t > 0
    ensures Rounded(t * whole, t) == whole
  {
    assert 2 * (t * whole) + t == whole * (2 * t) + t;
    Quotient(whole, 2 * t, t);
  }

  /** A wave of which every unit is confirmed shows 949 of the 1000 units: preparation never fills the bar. */
  lemma CompleteWaveShows(previous: int, p: Progress)
    requires 0 <= previous < 949 && p.isComplete && p.confirmedUnits >= p.totalUnits > 0
    ensures DisplayedUnits(previous, p, PROGRESS_LIMIT) == 949
  {
    WholeIsRounded(949, p.totalUnits);
    BarIs(previous, p, PROGRESS_LIMIT, Requested(p, PROGRESS_LIMIT), NextBoundary(p, PROGRESS_LIMIT));
  }
}
