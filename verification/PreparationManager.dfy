/**
 The manager of the background preparation task: the parked runs, the cached progress and the bar, with
 the loops over the stored credentials and over the results of a pass.
 */
module PreparationManager {
  import opened Common
  import Notifications
  import opened Preparation
  import opened PreparationPasses

  /** A stored credential, with the run bound to it, if any, and what inspecting that run says. */
  datatype Manifest = Manifest(scope: Option<string>, inspected: Inspected)

  /** Credentials are stored by network and account, so no two are bound to one run. */
  ghost predicate OneRunEach(manifests: seq<Manifest>) {
    forall i, j :: 0 <= i < j < |manifests| && manifests[i].scope.Some? ==> manifests[i].scope != manifests[j].scope
  }

  function RunsOf(manifests: seq<Manifest>): map<string, Inspected> {
    if manifests == [] then map[]
    else
      var runs, last := RunsOf(manifests[..|manifests| - 1]), manifests[|manifests| - 1];
      if last.scope.Some? then runs[last.scope.value := last.inspected] else runs
  }

  ghost function Seen(manifests: Option<seq<Manifest>>): Inspection {
    match manifests case Some(ms) => Some(RunsOf(ms)) case None => None
  }

  ghost predicate Wellformed(manifests: Option<seq<Manifest>>) { manifests.Some? ==> OneRunEach(manifests.value) }

  lemma {:induction false} NewRun(manifests: seq<Manifest>, n: nat, k: nat)
    requires OneRunEach(manifests) && n <= k < |manifests| && manifests[k].scope.Some?
    ensures manifests[k].scope.value !in RunsOf(manifests[..n])
  {
    if n > 0 {
      assert manifests[..n][..n - 1] == manifests[..n - 1];
      NewRun(manifests, n - 1, k);
    }
  }

  lemma RunsStep(manifests: seq<Manifest>, n: nat)
    requires OneRunEach(manifests) && n < |manifests|
    ensures manifests[n].scope.None? ==> RunsOf(manifests[..n + 1]) == RunsOf(manifests[..n])
    ensures manifests[n].scope.Some? ==>
      && manifests[n].scope.value !in RunsOf(manifests[..n])
      && RunsOf(manifests[..n + 1]) == RunsOf(manifests[..n])[manifests[n].scope.value := manifests[n].inspected]
  {
    assert manifests[..n + 1][..n] == manifests[..n];
    if manifests[n].scope.Some? {
      NewRun(manifests, n, n);
    }
  }

  lemma AddRun(runs: map<string, Inspected>, scope: string, i: Inspected)
    requires scope !in runs
    ensures Eligible(runs[scope := i]) == Eligible(runs) + (if i.Unreadable? || NeedsContinuation(i.state) then {scope} else {})
    ensures Trackable(runs[scope := i]) == Trackable(runs) + (if i == InState(0) then {scope} else {})
  {
  }

  lemma AddState(runs: map<string, Inspected>, scope: string, i: Inspected)
    requires scope !in runs
    ensures States(runs[scope := i]) == States(runs) + (if i.InState? then {i.state} else {})
    ensures AnyUnreadable(runs[scope := i]) <==> AnyUnreadable(runs) || i.Unreadable?
  {
    var more := runs[scope := i];
    assert more[scope] == i;
    forall state | state in States(runs)
      ensures state in States(more)
    {
      var s :| s in runs && runs[s].InState? && runs[s].state == state;
      assert more[s] == runs[s];
    }
    if AnyUnreadable(runs) {
      var s :| s in runs && runs[s].Unreadable?;
      assert more[s] == runs[s];
    }
  }

  method EligibleScopes(manifests: Option<seq<Manifest>>) returns (scopes: Option<set<string>>)
    requires Wellformed(manifests)
    ensures scopes == match Seen(manifests) case Some(runs) => Some(Eligible(runs)) case None => None
  {
    if manifests.None? {
      return None;
    }
    var ms, found := manifests.value, {};
    for n := 0 to |ms|
      invariant found == Eligible(RunsOf(ms[..n]))
    {
      RunsStep(ms, n);
      if ms[n].scope.Some? {
        AddRun(RunsOf(ms[..n]), ms[n].scope.value, ms[n].inspected);
        if ms[n].inspected.Unreadable? || NeedsContinuation(ms[n].inspected.state) {
          found := found + {ms[n].scope.value};
        }
      }
    }
    assert ms[..|ms|] == ms;
    return Some(found);
  }

  method TrackableScopes(manifests: Option<seq<Manifest>>) returns (scopes: Option<set<string>>)
    requires Wellformed(manifests)
    ensures scopes == match Seen(manifests) case Some(runs) => Some(Trackable(runs)) case None => None
  {
    if manifests.None? {
      return None;
    }
    var ms, found := manifests.value, {};
    for n := 0 to |ms|
      invariant found == Trackable(RunsOf(ms[..n]))
    {
      RunsStep(ms, n);
      if ms[n].scope.Some? {
        AddRun(RunsOf(ms[..n]), ms[n].scope.value, ms[n].inspected);
        if ms[n].inspected == InState(0) {
          found := found + {ms[n].scope.value};
        }
      }
    }
    assert ms[..|ms|] == ms;
    return Some(found);
  }

  method InspectTarget(manifests: Option<seq<Manifest>>) returns (target: ResumeTarget)
    requires Wellformed(manifests)
    ensures target == TargetOf(Seen(manifests))
  {
    if manifests.None? {
      return ResumeTargetOf({}, true);
    }
    var ms, states, inspectionFailed := manifests.value, {}, false;
    for n := 0 to |ms|
      invariant states == States(RunsOf(ms[..n])) && inspectionFailed == AnyUnreadable(RunsOf(ms[..n]))
    {
      RunsStep(ms, n);
      if ms[n].scope.Some? {
        AddState(RunsOf(ms[..n]), ms[n].scope.value, ms[n].inspected);
        match ms[n].inspected {
          case Unreadable => inspectionFailed := true;
          case InState(state) => states := states + {state};
        }
      }
    }
    assert ms[..|ms|] == ms;
    return ResumeTargetOf(states, inspectionFailed);
  }

  class Manager {
    var foregroundContinuationScopes: set<string>
    var trackingProgressByScope: map<string, Progress>
    var latestTrackingProgress: Option<Progress>
    var displayedProgressUnits: int
    var taskProgress: bool

    constructor (recorded: set<string>)
      ensures foregroundContinuationScopes == recorded && !taskProgress
    {
      foregroundContinuationScopes, trackingProgressByScope := recorded, map[];
      latestTrackingProgress, displayedProgressUnits, taskProgress := None, 0, false;
    }

    ghost function View(): Bar
      reads this
    {
      Bar(displayedProgressUnits, latestTrackingProgress)
    }

    // ----- the parked runs ---------------------------------------------------------------------

    method MarkReady(manifests: Option<seq<Manifest>>) returns (any: bool)
      requires Wellformed(manifests)
      modifies this`foregroundContinuationScopes
      ensures foregroundContinuationScopes == Blanket(old(foregroundContinuationScopes), Seen(manifests))
      ensures any <==> Seen(manifests).Some? && Eligible(Seen(manifests).value) != {}
    {
      var scopes := EligibleScopes(manifests);
      if scopes.None? {
        return false;
      }
      foregroundContinuationScopes := scopes.value;
      return scopes.value != {};
    }

    method MarkReadyForHandoff(first: Option<seq<Manifest>>, second: Option<seq<Manifest>>) returns (any: bool)
      requires Wellformed(first) && Wellformed(second)
      modifies this`foregroundContinuationScopes
      ensures foregroundContinuationScopes == Next(old(foregroundContinuationScopes), Handoff(Seen(first), Seen(second)))
      ensures any <==> Seen(first).Some? && Eligible(Seen(first).value) != {}
    {
      var eligible := EligibleScopes(first);
      if eligible.None? {
        return false;
      }
      var trackable := TrackableScopes(second);
      var held := if trackable.Some? then trackable.value else {};
      foregroundContinuationScopes := foregroundContinuationScopes + (eligible.value - held);
      return eligible.value != {};
    }

    method Prune(manifests: Option<seq<Manifest>>)
      requires Wellformed(manifests)
      modifies this`foregroundContinuationScopes
      ensures foregroundContinuationScopes == Pruned(old(foregroundContinuationScopes), Seen(manifests))
    {
      var scopes := EligibleScopes(manifests);
      if scopes.Some? {
        foregroundContinuationScopes := foregroundContinuationScopes * scopes.value;
      }
    }

    method ResumeAfterMutation(first: Option<seq<Manifest>>, second: Option<seq<Manifest>>, third: Option<seq<Manifest>>)
      requires Wellformed(first) && Wellformed(second) && Wellformed(third)
      modifies this`foregroundContinuationScopes
      ensures foregroundContinuationScopes
           == Next(old(foregroundContinuationScopes), Step.ResumeAfterMutation(Seen(first), Seen(second), Seen(third)))
    {
      Prune(first);
      var target := InspectTarget(second);
      if target == BackgroundProcessing {
        var any := MarkReady(third);
      }
    }

    /** The system starts the queued work; tracking begins only when some run is left to observe. */
    method HandleLaunch(first: Option<seq<Manifest>>, second: Option<seq<Manifest>>, quiesced: bool, disabled: bool) returns (tracks: bool)
      requires Wellformed(first) && Wellformed(second)
      modifies this
      ensures foregroundContinuationScopes == Next(old(foregroundContinuationScopes), Launch(Seen(first), Seen(second)))
      ensures tracks <==>
        !old(taskProgress) && !quiesced && !disabled
        && ShouldTrackOnLaunch(DispositionOf(TargetOf(Seen(first))), Pending(foregroundContinuationScopes, TrackableIn(Seen(second))),
             foregroundContinuationScopes)
      ensures tracks ==> taskProgress && View() == Bar(0, None)
      ensures !tracks ==> taskProgress == old(taskProgress) && View() == old(View())
    {
      var target := InspectTarget(first);
      if DispositionOf(target) == ForegroundOnly {
        var any := MarkReady(second);
        return false;
      }
      var trackable := TrackableScopes(second);
      var pending := (if trackable.Some? then trackable.value else {}) - foregroundContinuationScopes;
      tracks := DispositionOf(target) == TrackConfirmations && (pending != {} || foregroundContinuationScopes == {});
      tracks := tracks && !quiesced && !disabled && !taskProgress;
      if tracks {
        trackingProgressByScope, latestTrackingProgress, displayedProgressUnits, taskProgress := map[], None, 0, true;
      }
    }

    method Acknowledge(scope: string)
      modifies this`foregroundContinuationScopes
      ensures foregroundContinuationScopes == Next(old(foregroundContinuationScopes), Release(scope))
    {
      foregroundContinuationScopes := foregroundContinuationScopes - {scope};
    }

    method Clear()
      modifies this`foregroundContinuationScopes
      ensures foregroundContinuationScopes == Next(old(foregroundContinuationScopes), ReleaseAll)
    {
      foregroundContinuationScopes := {};
    }

    // ----- a pass ------------------------------------------------------------------------------

    /** One pass over the runs, given what each query answers. */
    method PassResults(sightings: seq<Sighting>) returns (results: seq<ScopeResult>)
      ensures results == Results(sightings, foregroundContinuationScopes)
    {
      results := [];
      for n := 0 to |sightings|
        invariant results == Results(sightings[..n], foregroundContinuationScopes)
      {
        var s := sightings[n];
        assert sightings[..n + 1][..n] == sightings[..n];
        if s.scope !in foregroundContinuationScopes {
          results := results + [ScopeResult(s.scope, DispositionFor(s.inspected, s.query))];
        }
      }
      assert sightings[..|sightings|] == sightings;
    }

    method TrackingBatch(results: seq<ScopeResult>) returns (pass: Pass)
      modifies this`trackingProgressByScope
      ensures pass == Tracked(results, old(trackingProgressByScope)) && trackingProgressByScope == pass.progress
    {
      var ready, waves, alerts: seq<Alert> := {}, {}, [];
      var shouldContinue, taskFailure, retries := false, false, 0;
      for n := 0 to |results|
        invariant Pass(trackingProgressByScope, ready, waves, alerts, shouldContinue, taskFailure, retries)
               == Tracked(results[..n], old(trackingProgressByScope))
      {
        var scope := results[n].scope;
        assert results[..n + 1][..n] == results[..n];
        match results[n].disposition {
          case InProgress(progress) =>
            trackingProgressByScope, shouldContinue := trackingProgressByScope[scope := progress], true;
          case Retry =>
            shouldContinue := true;
            if scope !in trackingProgressByScope {
              retries := retries + 1;
            }
          case Confirmed(progress) =>
            trackingProgressByScope := trackingProgressByScope[scope := progress];
            ready, waves := ready + {scope}, waves + {scope};
            alerts := alerts + [Alert(scope, Notifications.ConfirmedWaveReady)];
          case NeedsForeground(taskFailed) =>
            ready, taskFailure := ready + {scope}, taskFailure || taskFailed;
            alerts := alerts + [Alert(scope, Notifications.NeedsForegroundRecovery)];
          case TerminalFailure =>
            ready, taskFailure := ready + {scope}, true;
            alerts := alerts + [Alert(scope, Notifications.TerminalFailure)];
          case Inactive =>
        }
      }
      assert results[..|results|] == results;
      pass := Pass(trackingProgressByScope, ready, waves, alerts, shouldContinue, taskFailure, retries);
    }

    /** Parks what the pass closed; `accepted` is what the notification centre answers when it is asked. */
    method ApplyBatch(results: seq<ScopeResult>, quiesced: bool, disabled: bool, accepted: bool) returns (submitted: bool)
      modifies this`trackingProgressByScope, this`foregroundContinuationScopes
      ensures foregroundContinuationScopes
           == Next(old(foregroundContinuationScopes), ApplyPass(results, old(trackingProgressByScope), quiesced, disabled, accepted))
      ensures submitted <==> quiesced || disabled || accepted || Tracked(results, old(trackingProgressByScope)).alerts == []
    {
      var pass := TrackingBatch(results);
      if quiesced {
        return true;
      }
      var required := pass.alerts != [] && !disabled;
      submitted := !required || accepted;
      if pass.ready != {} && submitted {
        foregroundContinuationScopes := foregroundContinuationScopes + pass.ready;
      }
    }

    /**
     A whole pass of a running task, from the queries to the parked set: it parks exactly the runs that
     were not parked before and that their own sighting closed, once their alert is out or not wanted;
     whoever it tells the user is confirmed is three blocks deep.
     */
    method RunPass(sightings: seq<Sighting>, quiesced: bool, disabled: bool, accepted: bool) returns (submitted: bool, ghost pass: Pass)
      modifies this`trackingProgressByScope, this`foregroundContinuationScopes
      ensures old(foregroundContinuationScopes) <= foregroundContinuationScopes
      ensures forall scope :: scope in foregroundContinuationScopes && scope !in old(foregroundContinuationScopes)
                ==> Classified(Results(sightings, old(foregroundContinuationScopes)), scope) && !quiesced && (accepted || disabled)
      ensures forall scope :: scope in pass.confirmedWaves
                ==> scope !in old(foregroundContinuationScopes) && exists j :: 0 <= j < |sightings| && DeepRun(sightings[j], scope)
      ensures forall scope :: scope in pass.confirmedWaves && !quiesced && submitted ==> scope in foregroundContinuationScopes
      ensures pass == Tracked(Results(sightings, old(foregroundContinuationScopes)), old(trackingProgressByScope))
      ensures forall scope :: scope in foregroundContinuationScopes
                <==> scope in old(foregroundContinuationScopes)
                     || (!quiesced && (disabled || accepted) && ClosedBy(sightings, old(foregroundContinuationScopes), scope))
      ensures submitted <==> quiesced || disabled || accepted || forall scope :: !ClosedBy(sightings, old(foregroundContinuationScopes), scope)
    {
      var results := PassResults(sightings);
      pass := Tracked(results, trackingProgressByScope);
      forall scope
        ensures scope in pass.ready <==> Classified(results, scope)
        ensures scope in pass.ready ==> Alerted(pass.alerts, scope)
        ensures scope in pass.confirmedWaves ==> scope in pass.ready
      {
        ReadyIsClassified(results, trackingProgressByScope, scope);
      }
      forall scope | scope in pass.confirmedWaves
        ensures scope !in foregroundContinuationScopes
        ensures exists j :: 0 <= j < |sightings| && DeepRun(sightings[j], scope)
      {
        ConfirmedWaveIsObserved(sightings, foregroundContinuationScopes, trackingProgressByScope, scope);
      }
      forall scope
        ensures Classified(results, scope) <==> ClosedBy(sightings, foregroundContinuationScopes, scope)
      {
        ClosedIs(sightings, foregroundContinuationScopes, scope);
      }
      PassAlerts(results, trackingProgressByScope);
      AlertsAreClosings(results, trackingProgressByScope);
      submitted := ApplyBatch(results, quiesced, disabled, accepted);
    }

    // ----- the bar -----------------------------------------------------------------------------

    method UpdateProgress(progress: Progress)
      modifies this`latestTrackingProgress, this`displayedProgressUnits
      ensures View() == if taskProgress then Ticked(old(View()), Update(progress)) else old(View())
    {
      if taskProgress {
        latestTrackingProgress := Some(progress);
        displayedProgressUnits := DisplayedUnits(displayedProgressUnits, progress, PROGRESS_LIMIT);
      }
    }

    method AdvanceHeartbeat()
      modifies this`displayedProgressUnits
      ensures View() == if taskProgress then Ticked(old(View()), Heartbeat) else old(View())
    {
      if taskProgress {
        match latestTrackingProgress {
          case Some(progress) => displayedProgressUnits := DisplayedUnits(displayedProgressUnits, progress, PROGRESS_LIMIT);
          case None => displayedProgressUnits := MinInt(50, displayedProgressUnits + 1);
        }
      }
    }
  }
}
