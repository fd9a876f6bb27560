/**
 Denomination preparation: which runs the background task may track, which are parked for the foreground
 app, and how far the progress bar may move. Fractions are exact here, where the program uses doubles.
 */
module Preparation {
  import opened Common
  import Notifications
  import WireFormat

  // ----- confirmations ------------------------------------------------------------------------

  type Observation = WireFormat.Observation

  datatype Progress = Progress(confirmedUnits: int, totalUnits: int, completedTransactions: int, totalTransactions: int, isComplete: bool)

  /** How many confirmations a transaction counts, at most the target. */
  function Confirmations(o: Observation, tip: nat, target: nat): (r: nat)
    ensures r <= target
  {
    if o.Mined? && tip >= o.height then Min(target, tip - o.height + 1) else 0
  }

  function ConfirmedUnits(observations: seq<Observation>, tip: nat, target: nat): nat {
    if observations == [] then 0
    else ConfirmedUnits(observations[..|observations| - 1], tip, target) + Confirmations(observations[|observations| - 1], tip, target)
  }

  function Completed(observations: seq<Observation>, tip: nat, target: nat): (r: nat)
    ensures r <= |observations|
  {
    if observations == [] then 0
    else
      Completed(observations[..|observations| - 1], tip, target)
      + (if Confirmations(observations[|observations| - 1], tip, target) >= target then 1 else 0)
  }

  function ConfirmationProgress(observations: seq<Observation>, tip: nat, confirmationTarget: nat, stages: nat): Progress {
    var target := Max(1, confirmationTarget);
    var total := Max(|observations|, stages);
    Progress(ConfirmedUnits(observations, tip, target), total * target, Completed(observations, tip, target), total,
             observations != [] && Completed(observations, tip, target) == |observations|)
  }

  lemma {:induction false} UnitsBounded(observations: seq<Observation>, tip: nat, target: nat)
    ensures ConfirmedUnits(observations, tip, target) <= |observations| * target
  {
    if observations != [] {
      UnitsBounded(observations[..|observations| - 1], tip, target);
      assert |observations| * target == (|observations| - 1) * target + target;
    }
  }

  lemma {:induction false} CompletedIsAll(observations: seq<Observation>, tip: nat, target: nat)
    requires target > 0
    ensures (Completed(observations, tip, target) == |observations| <==>
              forall i :: 0 <= i < |observations| ==> Confirmations(observations[i], tip, target) == target)
  {
    if observations != [] {
      var front := observations[..|observations| - 1];
      CompletedIsAll(front, tip, target);
      assert forall i :: 0 <= i < |front| ==> front[i] == observations[i];
    }
  }

  lemma TimesGrows(a: nat, b: nat, t: nat)
    requires a <= b
    ensures a * t <= b * t
  {
  }

  /** Progress stays within its total, and is complete exactly when there is something to observe and all of it reached the target. */
  lemma ProgressIsSound(observations: seq<Observation>, tip: nat, confirmationTarget: nat, stages: nat)
    ensures var p := ConfirmationProgress(observations, tip, confirmationTarget, stages);
      && 0 <= p.confirmedUnits <= p.totalUnits
      && (p.isComplete <==> observations != [] && forall i :: 0 <= i < |observations| ==>
            Confirmations(observations[i], tip, Max(1, confirmationTarget)) == Max(1, confirmationTarget))
  {
    var target := Max(1, confirmationTarget);
    UnitsBounded(observations, tip, target);
    CompletedIsAll(observations, tip, target);
    TimesGrows(|observations|, Max(|observations|, stages), target);
  }

  lemma {:induction false} UnitsGrow(observations: seq<Observation>, tip: nat, later: nat, target: nat)
    requires tip <= later
    ensures ConfirmedUnits(observations, tip, target) <= ConfirmedUnits(observations, later, target)
    ensures Completed(observations, tip, target) <= Completed(observations, later, target)
  {
    if observations != [] {
      UnitsGrow(observations[..|observations| - 1], tip, later, target);
    }
  }

  // ----- what tracking decides about a run ------------------------------------------------------

  datatype Disposition =
    | InProgress(progress: Progress)
    | Confirmed(progress: Progress)
    | Retry
    | NeedsForeground(taskFailed: bool)
    | TerminalFailure
    | Inactive

  /** What inspecting one run says: a state, or nothing. */
  datatype Inspected = Unreadable | InState(state: nat)

  /** How far one pass got with a run: listing its transactions, asking for the tip, asking for each transaction. */
  datatype Query =
    | Unlistable
    | NoTransactions(passes: nat)
    | NoAnswer
    | Answered(observations: seq<Observation>, tip: nat, stages: nat)

  const CONFIRMATION_TARGET := 3
  const EMPTY_PASS_LIMIT := 2

  function ObservedDisposition(observations: seq<Observation>, tip: nat, target: nat, stages: nat): Disposition {
    if exists i :: 0 <= i < |observations| && observations[i].Forked? then NeedsForeground(true)
    else
      var progress := ConfirmationProgress(observations, tip, target, stages);
      if progress.isComplete then Confirmed(progress) else InProgress(progress)
  }

  /** The disposition of one run in one pass; `passes` counts the passes so far that found no transaction to ask about, this one included. */
  function DispositionFor(i: Inspected, q: Query): Disposition {
    match i
    case Unreadable => NeedsForeground(true)
    case InState(state) =>
      if state == 0 then
        match q
        case Unlistable => NeedsForeground(true)
        case NoTransactions(passes) => if passes >= EMPTY_PASS_LIMIT then NeedsForeground(true) else Retry
        case NoAnswer => Retry
        case Answered(observations, tip, stages) =>
          if observations == [] then Retry else ObservedDisposition(observations, tip, CONFIRMATION_TARGET, stages)
      else if state == 4 then Inactive
      else if 1 <= state <= 5 then NeedsForeground(state != 5)
      else TerminalFailure
  }

  /** Only the chain confirms a wave: the run waits for confirmations, and every transaction listed is mined three blocks deep. */
  lemma OnlyTheChainConfirms(i: Inspected, q: Query)
    ensures DispositionFor(i, q).Confirmed?
       <==> && i == InState(0) && q.Answered? && q.observations != []
            && forall k :: 0 <= k < |q.observations| ==> q.observations[k].Mined? && q.tip >= q.observations[k].height + 2
  {
    if i == InState(0) && q.Answered? {
      ProgressIsSound(q.observations, q.tip, CONFIRMATION_TARGET, q.stages);
      DeepEnough(q.observations, q.tip);
    }
  }

  lemma DeepEnough(observations: seq<Observation>, tip: nat)
    ensures (forall k :: 0 <= k < |observations| ==> Confirmations(observations[k], tip, 3) == 3)
       <==> (forall k :: 0 <= k < |observations| ==> observations[k].Mined? && tip >= observations[k].height + 2)
  {
    if forall k :: 0 <= k < |observations| ==> Confirmations(observations[k], tip, 3) == 3 {
      forall k | 0 <= k < |observations|
        ensures observations[k].Mined? && tip >= observations[k].height + 2
      {
        assert Confirmations(observations[k], tip, 3) == 3;
      }
    }
  }

  datatype Sighting = Sighting(scope: string, inspected: Inspected, query: Query)

  datatype ScopeResult = ScopeResult(scope: string, disposition: Disposition)

  datatype Alert = Alert(scope: string, kind: Notifications.Kind)

  /** What one tracking pass found, over the progress cached so far. */
  datatype Pass = Pass(
    progress: map<string, Progress>,
    ready: set<string>,
    confirmedWaves: set<string>,
    alerts: seq<Alert>,
    shouldContinue: bool,
    taskFailure: bool,
    retriesWithoutProgress: nat)

  predicate Closes(d: Disposition) { d.Confirmed? || d.NeedsForeground? || d.TerminalFailure? }

  function AlertFor(d: Disposition): Notifications.Kind
    requires Closes(d)
  {
    match d
    case Confirmed(_) => Notifications.ConfirmedWaveReady
    case NeedsForeground(_) => Notifications.NeedsForegroundRecovery
    case TerminalFailure => Notifications.TerminalFailure
  }

  function Classify(p: Pass, r: ScopeResult): Pass {
    match r.disposition
    case InProgress(progress) => p.(progress := p.progress[r.scope := progress], shouldContinue := true)
    case Retry =>
      p.(shouldContinue := true,
         retriesWithoutProgress := if r.scope in p.progress then p.retriesWithoutProgress else p.retriesWithoutProgress + 1)
    case Confirmed(progress) =>
      p.(progress := p.progress[r.scope := progress], ready := p.ready + {r.scope}, confirmedWaves := p.confirmedWaves + {r.scope},
         alerts := p.alerts + [Alert(r.scope, Notifications.ConfirmedWaveReady)])
    case NeedsForeground(taskFailed) =>
      p.(ready := p.ready + {r.scope}, taskFailure := p.taskFailure || taskFailed,
         alerts := p.alerts + [Alert(r.scope, Notifications.NeedsForegroundRecovery)])
    case TerminalFailure =>
      p.(ready := p.ready + {r.scope}, taskFailure := true, alerts := p.alerts + [Alert(r.scope, Notifications.TerminalFailure)])
    case Inactive => p
  }

  function Tracked(results: seq<ScopeResult>, progress: map<string, Progress>): Pass {
    if results == [] then Pass(progress, {}, {}, [], false, false, 0)
    else Classify(Tracked(results[..|results| - 1], progress), results[|results| - 1])
  }

  ghost predicate Classified(results: seq<ScopeResult>, scope: string) {
    exists i :: 0 <= i < |results| && results[i].scope == scope && Closes(results[i].disposition)
  }

  ghost predicate Alerted(alerts: seq<Alert>, scope: string) {
    exists i :: 0 <= i < |alerts| && alerts[i].scope == scope
  }

  lemma ClassifiedStep(results: seq<ScopeResult>, last: ScopeResult, scope: string)
    ensures Classified(results + [last], scope) <==> Classified(results, scope) || (last.scope == scope && Closes(last.disposition))
  {
    var all := results + [last];
    assert all[|results|] == last;
    if Classified(results, scope) {
      var i :| 0 <= i < |results| && results[i].scope == scope && Closes(results[i].disposition);
      assert all[i] == results[i];
    }
  }

  lemma AlertedStep(alerts: seq<Alert>, last: Alert, scope: string)
    ensures Alerted(alerts + [last], scope) <==> Alerted(alerts, scope) || last.scope == scope
  {
    var all := alerts + [last];
    assert all[|alerts|] == last;
    if Alerted(alerts, scope) {
      var i :| 0 <= i < |alerts| && alerts[i].scope == scope;
      assert all[i] == alerts[i];
    }
  }

  lemma ClassifyStep(p: Pass, r: ScopeResult, scope: string)
    ensures scope in Classify(p, r).ready <==> scope in p.ready || (r.scope == scope && Closes(r.disposition))
    ensures Alerted(Classify(p, r).alerts, scope) <==> Alerted(p.alerts, scope) || (r.scope == scope && Closes(r.disposition))
  {
    if Closes(r.disposition) {
      AlertedStep(p.alerts, Alert(r.scope, AlertFor(r.disposition)), scope);
    }
  }

  /** A run is ready for the foreground exactly when a result closed it, and then an alert speaks for it. */
  lemma {:induction false} ReadyIsClassified(results: seq<ScopeResult>, progress: map<string, Progress>, scope: string)
    ensures scope in Tracked(results, progress).ready <==> Classified(results, scope)
    ensures scope in Tracked(results, progress).ready <==> Alerted(Tracked(results, progress).alerts, scope)
    ensures scope in Tracked(results, progress).confirmedWaves ==> scope in Tracked(results, progress).ready
  {
    if results != [] {
      var front, last := results[..|results| - 1], results[|results| - 1];
      ReadyIsClassified(front, progress, scope);
      ClassifiedStep(front, last, scope);
      assert front + [last] == results;
      ClassifyStep(Tracked(front, progress), last, scope);
    }
  }

  /** Tracking goes on exactly while some run still has something to observe. */
  lemma {:induction false} ContinuesWhileOpen(results: seq<ScopeResult>, progress: map<string, Progress>)
    ensures Tracked(results, progress).shouldContinue
       <==> exists i :: 0 <= i < |results| && (results[i].disposition.InProgress? || results[i].disposition.Retry?)
  {
    if results != [] {
      var front := results[..|results| - 1];
      ContinuesWhileOpen(front, progress);
      if Tracked(front, progress).shouldContinue {
        var i :| 0 <= i < |front| && (front[i].disposition.InProgress? || front[i].disposition.Retry?);
        assert results[i] == front[i];
      }
    }
  }

  /** The results of one pass: a run parked when the pass began is not looked at. */
  function Results(sightings: seq<Sighting>, parked: set<string>): seq<ScopeResult> {
    if sightings == [] then []
    else
      var front, last := Results(sightings[..|sightings| - 1], parked), sightings[|sightings| - 1];
      if last.scope in parked then front else front + [ScopeResult(last.scope, DispositionFor(last.inspected, last.query))]
  }

  /** Every result comes from a run that was looked at, and none from a parked run. */
  lemma {:induction false} ResultsAreSightings(sightings: seq<Sighting>, parked: set<string>, k: nat) returns (j: nat)
    requires k < |Results(sightings, parked)|
    ensures j < |sightings| && sightings[j].scope !in parked
    ensures Results(sightings, parked)[k] == ScopeResult(sightings[j].scope, DispositionFor(sightings[j].inspected, sightings[j].query))
  {
    var front := sightings[..|sightings| - 1];
    if k < |Results(front, parked)| {
      j := ResultsAreSightings(front, parked, k);
    } else {
      j := |sightings| - 1;
    }
  }

  /** Each confirmed wave of a pass is a run that was not parked, waits for confirmations, and has every listed transaction three blocks deep. */
  lemma {:induction false} ConfirmedWaveIsObserved(sightings: seq<Sighting>, parked: set<string>, cached: map<string, Progress>, scope: string)
    requires scope in Tracked(Results(sightings, parked), cached).confirmedWaves
    ensures scope !in parked
    ensures exists j :: 0 <= j < |sightings| && DeepRun(sightings[j], scope)
  {
    var results := Results(sightings, parked);
    var k := WaveResult(results, cached, scope);
    var j := ResultsAreSightings(sightings, parked, k);
    OnlyTheChainConfirms(sightings[j].inspected, sightings[j].query);
    assert DeepRun(sightings[j], scope);
  }

  ghost predicate DeepRun(s: Sighting, scope: string) {
    && s.scope == scope && s.inspected == InState(0) && s.query.Answered? && s.query.observations != []
    && forall k :: 0 <= k < |s.query.observations| ==>
         s.query.observations[k].Mined? && s.query.tip >= s.query.observations[k].height + 2
  }

  lemma {:induction false} WaveResult(results: seq<ScopeResult>, cached: map<string, Progress>, scope: string) returns (k: nat)
    requires scope in Tracked(results, cached).confirmedWaves
    ensures k < |results| && results[k].scope == scope && results[k].disposition.Confirmed?
  {
    var front, last := results[..|results| - 1], results[|results| - 1];
    if last.disposition.Confirmed? && last.scope == scope {
      k := |results| - 1;
    } else {
      k := WaveResult(front, cached, scope);
    }
  }

  // ----- inspections ----------------------------------------------------------------------------

  /** One inspection of every run bound to a credential, or none when the credentials cannot be read. */
  type Inspection = Option<map<string, Inspected>>

  predicate NeedsContinuation(state: nat) { state == 0 || state == 2 || state == 3 || state == 5 }

  /** Runs waiting for confirmations: the ones a read-only task can advance. */
  function Trackable(runs: map<string, Inspected>): set<string> {
    set scope | scope in runs && runs[scope] == InState(0)
  }

  function Eligible(runs: map<string, Inspected>): set<string> {
    set scope | scope in runs && (runs[scope].Unreadable? || NeedsContinuation(runs[scope].state))
  }

  function States(runs: map<string, Inspected>): set<nat> {
    set scope | scope in runs && runs[scope].InState? :: runs[scope].state
  }

  predicate AnyUnreadable(runs: map<string, Inspected>) { exists scope :: scope in runs && runs[scope].Unreadable? }

  datatype ResumeTarget = TargetIdle | TargetTerminal | ContinuedProcessing | BackgroundProcessing

  function ResumeTargetOf(states: set<nat>, inspectionFailed: bool): ResumeTarget {
    if 0 in states then ContinuedProcessing
    else if inspectionFailed || 2 in states || 3 in states || 5 in states then BackgroundProcessing
    else if forall s :: s in states ==> s == 4 then TargetTerminal
    else TargetIdle
  }

  function TargetOf(i: Inspection): ResumeTarget {
    match i
    case None => ResumeTargetOf({}, true)
    case Some(runs) => ResumeTargetOf(States(runs), AnyUnreadable(runs))
  }

  datatype TaskDisposition = TrackConfirmations | ForegroundOnly | CompleteTask

  function DispositionOf(t: ResumeTarget): TaskDisposition {
    match t case ContinuedProcessing => TrackConfirmations case BackgroundProcessing => ForegroundOnly case _ => CompleteTask
  }

  function HandoffScopes(existing: set<string>, eligible: set<string>, trackable: set<string>): set<string> {
    existing + (eligible - trackable)
  }

  function AfterSubmission(existing: set<string>, ready: set<string>, required: bool, submitted: bool): set<string> {
    if required && !submitted then existing else existing + ready
  }

  function Pending(parked: set<string>, trackable: set<string>): set<string> { trackable - parked }

  predicate ShouldTrackOnLaunch(d: TaskDisposition, pending: set<string>, recorded: set<string>) {
    d == TrackConfirmations && (pending != {} || recorded == {})
  }

  // ----- every write of the parked set ----------------------------------------------------------

  /**
   A step names every inspection it makes, because the program reads the credentials and the runs anew
   each time.
   */
  datatype Step =
    /** A foreground launch, the claim of a pending request, or the end of a task that was handed off. */
    | Handoff(eligible: Inspection, trackable: Inspection)
    /** The system starts the queued task. */
    | Launch(target: Inspection, marked: Inspection)
    | ResumeAfterMutation(pruned: Inspection, target: Inspection, marked: Inspection)
    | ApplyPass(results: seq<ScopeResult>, cached: map<string, Progress>, quiesced: bool, notificationsDisabled: bool, submitted: bool)
    /** An acknowledged continuation, or a run whose credential is gone. */
    | Release(scope: string)
    /** Notifications disabled, the wallet quiesced, or no preparation left. */
    | ReleaseAll

  /** Marks every eligible run, over whatever was recorded. */
  function Blanket(parked: set<string>, i: Inspection): set<string> {
    match i case Some(runs) => Eligible(runs) case None => parked
  }

  function Pruned(parked: set<string>, i: Inspection): set<string> {
    match i case Some(runs) => parked * Eligible(runs) case None => parked
  }

  function TrackableIn(i: Inspection): set<string> {
    match i case Some(runs) => Trackable(runs) case None => {}
  }

  function Next(parked: set<string>, s: Step): set<string> {
    match s
    case Handoff(eligible, trackable) =>
      (match eligible case Some(runs) => HandoffScopes(parked, Eligible(runs), TrackableIn(trackable)) case None => parked)
    case Launch(target, marked) => if DispositionOf(TargetOf(target)) == ForegroundOnly then Blanket(parked, marked) else parked
    case ResumeAfterMutation(pruned, target, marked) =>
      if TargetOf(target) == BackgroundProcessing then Blanket(Pruned(parked, pruned), marked) else Pruned(parked, pruned)
    case ApplyPass(results, cached, quiesced, disabled, submitted) =>
      var pass := Tracked(results, cached);
      if quiesced || pass.ready == {} then parked
      else AfterSubmission(parked, pass.ready, pass.alerts != [] && !disabled, submitted)
    case Release(scope) => parked - {scope}
    case ReleaseAll => {}
  }

  /** The inspection whose eligible runs a step marks, when it marks any. */
  function MarkingOf(s: Step): Inspection {
    match s
    case Handoff(eligible, _) => eligible
    case Launch(_, marked) => marked
    case ResumeAfterMutation(_, _, marked) => marked
    case _ => None
  }

  /** The inspection that decides whether, or which, runs are marked. */
  function DecidingOf(s: Step): Inspection {
    match s
    case Handoff(_, trackable) => trackable
    case Launch(target, _) => target
    case ResumeAfterMutation(_, target, _) => target
    case _ => None
  }

  /** Marking and deciding saw the same. */
  predicate Consistent(s: Step) { MarkingOf(s) == DecidingOf(s) }

  /** The run's alert was submitted, or none was required because notifications are off. */
  ghost predicate Announced(s: Step, scope: string) {
    s.ApplyPass? && Classified(s.results, scope) && !s.quiesced && (s.submitted || s.notificationsDisabled)
  }

  lemma HasState(runs: map<string, Inspected>, state: nat)
    requires state in States(runs)
    ensures exists scope :: scope in runs && runs[scope] == InState(state)
  {
    var scope :| scope in runs && runs[scope].InState? && runs[scope].state == state;
    assert runs[scope] == InState(state);
  }

  lemma TrackableStates(runs: map<string, Inspected>)
    ensures 0 in States(runs) <==> Trackable(runs) != {}
  {
    if 0 in States(runs) {
      HasState(runs, 0);
      var scope :| scope in runs && runs[scope] == InState(0);
      assert scope in Trackable(runs);
    }
    if scope :| scope in Trackable(runs) {
      assert runs[scope].state in States(runs);
    }
  }

  lemma EligibleStates(runs: map<string, Inspected>)
    ensures AnyUnreadable(runs) || (exists state :: state in States(runs) && NeedsContinuation(state)) <==> Eligible(runs) != {}
  {
    if AnyUnreadable(runs) {
      var scope :| scope in runs && runs[scope].Unreadable?;
      assert scope in Eligible(runs);
    } else if state :| state in States(runs) && NeedsContinuation(state) {
      HasState(runs, state);
      var scope :| scope in runs && runs[scope] == InState(state);
      assert scope in Eligible(runs);
    }
    if scope :| scope in Eligible(runs) && runs[scope].InState? {
      assert runs[scope].state in States(runs);
    }
  }

  /** What the resume target comes down to: track while any run waits for confirmations; otherwise the foreground is needed exactly when some run is eligible. */
  lemma TargetIsExact(runs: map<string, Inspected>)
    ensures TargetOf(Some(runs)) == ContinuedProcessing <==> Trackable(runs) != {}
    ensures TargetOf(Some(runs)) == BackgroundProcessing <==> Trackable(runs) == {} && Eligible(runs) != {}
  {
    TrackableStates(runs);
    EligibleStates(runs);
    assert NeedsContinuation(2) && NeedsContinuation(3) && NeedsContinuation(5);
  }

  /** Whoever a step marks: the marking inspection found the run in need of the foreground, and not waiting for confirmations. */
  predicate ForegroundRun(s: Step, scope: string) {
    MarkingOf(s).Some? && scope in Eligible(MarkingOf(s).value) && scope !in Trackable(MarkingOf(s).value)
  }

  /**
   Who is parked, and why: when marking and deciding saw the same, a step adds a run only if the run was
   inspected as something other than waiting for confirmations and still in need of the foreground, or if
   a tracking pass closed it and its alert was submitted or not required.
   */
  lemma NothingTrackableIsParked(parked: set<string>, s: Step, scope: string)
    requires Consistent(s) && scope !in parked && scope in Next(parked, s)
    ensures Announced(s, scope) || ForegroundRun(s, scope)
  {
    match s
    case ApplyPass(results, cached, _, _, _) =>
      ReadyIsClassified(results, cached, scope);
      assert Alerted(Tracked(results, cached).alerts, scope);
    case Launch(Some(runs), _) => TargetIsExact(runs);
    case ResumeAfterMutation(_, Some(runs), _) => TargetIsExact(runs);
    case _ =>
  }

  /**
   Without that agreement the rule can fail, and this says exactly when: a run that the marking inspection
   sees waiting for confirmations is parked exactly when the deciding inspection did not see it so on a
   handoff, and, on a launch or after a mutation, when the deciding inspection failed or saw no waiting run
   but some run that needs the foreground.
   */
  lemma TrackableIsParkedExactly(parked: set<string>, s: Step, scope: string)
    requires !s.ApplyPass? && scope !in parked && scope in TrackableIn(MarkingOf(s))
    ensures scope in Next(parked, s)
       <==> if s.Handoff? then scope !in TrackableIn(s.trackable)
            else DecidingOf(s).None? || (Trackable(DecidingOf(s).value) == {} && Eligible(DecidingOf(s).value) != {})
  {
    if DecidingOf(s).Some? {
      TargetIsExact(DecidingOf(s).value);
    }
  }

  /** One failed read of the credentials, followed by one that succeeds, parks a healthy run at launch or at a handoff. */
  lemma TornInspectionParks(scope: string)
    ensures var healthy := Some(map[scope := InState(0)]);
      && scope in Next({}, Launch(None, healthy))
      && scope in Next({}, Handoff(healthy, None))
      && scope in Next({}, ResumeAfterMutation(healthy, None, healthy))
  {
    var runs := map[scope := InState(0)];
    assert scope in Trackable(runs);
    TrackableIsParkedExactly({}, Launch(None, Some(runs)), scope);
    TrackableIsParkedExactly({}, Handoff(Some(runs), None), scope);
    TrackableIsParkedExactly({}, ResumeAfterMutation(Some(runs), None, Some(runs)), scope);
  }

  /** Any sequence of steps, each with its own inspection. */
  ghost predicate IsRun(states: seq<set<string>>, steps: seq<Step>) {
    && |states| == |steps| + 1 && states[0] == {}
    && forall n :: 0 <= n < |steps| ==> states[n + 1] == Next(states[n], steps[n])
  }

  /** In any run of consistent steps, whoever is parked was parked by a step that had that reason, and has stayed parked since. */
  lemma {:induction false} ParkedForAReason(states: seq<set<string>>, steps: seq<Step>, n: nat, scope: string) returns (m: nat)
    requires IsRun(states, steps) && n < |states| && scope in states[n]
    requires forall k :: 0 <= k < |steps| ==> Consistent(steps[k])
    ensures m < n && scope !in states[m] && (forall k :: m < k <= n ==> scope in states[k])
    ensures Announced(steps[m], scope) || ForegroundRun(steps[m], scope)
  {
    m := n - 1;
    if scope in states[m] {
      m := ParkedForAReason(states, steps, m, scope);
    } else {
      NothingTrackableIsParked(states[m], steps[m], scope);
    }
  }

  /** An unparked run that waits for confirmations is pending work, whatever any other account does: it is tracked, and a launch keeps tracking it. */
  lemma UnparkedRunIsPending(runs: map<string, Inspected>, parked: set<string>, scope: string)
    requires scope in runs && runs[scope] == InState(0) && scope !in parked
    ensures TargetOf(Some(runs)) == ContinuedProcessing
    ensures scope in Pending(parked, Trackable(runs))
    ensures ShouldTrackOnLaunch(DispositionOf(TargetOf(Some(runs))), Pending(parked, Trackable(runs)), parked)
  {
    assert runs[scope].state in States(runs);
    assert scope in Pending(parked, Trackable(runs));
  }

  /** Nothing but runs that wait for confirmations is ever pending, and a parked run is not. */
  lemma PendingIsExact(runs: map<string, Inspected>, parked: set<string>, scope: string)
    ensures scope in Pending(parked, Trackable(runs)) <==> scope in runs && runs[scope] == InState(0) && scope !in parked
  {
  }

  // ----- the progress bar -----------------------------------------------------------------------

  function MaxInt(a: int, b: int): int { if a >= b then a else b }

  function MinInt(a: int, b: int): int { if a <= b then a else b }

  /** `a / b` rounded to the nearest integer, halves away from zero. */
  function Rounded(a: nat, b: nat): nat
    requires b > 0
  {
    (2 * a + b) / (2 * b)
  }

  function Total(p: Progress): (r: nat)
    ensures r > 0
  {
    MaxInt(1, p.totalUnits)
  }

  /** Confirmed units, kept within the total. */
  function Within(p: Progress): (r: nat)
    ensures r <= Total(p)
  {
    MinInt(Total(p), MaxInt(0, p.confirmedUnits))
  }

  /** The units the confirmed fraction asks for. */
  function Requested(p: Progress, display: nat): nat { Rounded(Within(p) * display, Total(p)) }

  /** Where the bar stands once the next confirmation has come. */
  function NextBoundary(p: Progress, display: nat): nat {
    (if Within(p) < Total(p) then Within(p) + 1 else Total(p)) * display / Total(p)
  }

  function Bound(p: Progress, display: nat): int { if p.isComplete then display else MaxInt(0, display - 1) }

  function DisplayedUnits(previous: int, p: Progress, displayUnitCount: int): int {
    var display: nat := MaxInt(1, displayUnitCount);
    var bound := Bound(p, display);
    var before := MinInt(bound, MaxInt(0, previous));
    var requested := MinInt(bound, Requested(p, display));
    if p.isComplete then MaxInt(before, requested)
    else
      var heartbeat := MinInt(bound, MaxInt(requested, NextBoundary(p, display) - 1));
      MaxInt(before, MaxInt(requested, MinInt(heartbeat, before + 1)))
  }

  /**
   One update of the bar: from any position it showed before the wave completed it never moves back, it
   stays short of the full bar until the wave is complete, and it passes neither the fraction confirmed
   nor the boundary of the next confirmation unless it was there already.
   */
  lemma OneUpdate(previous: int, p: Progress, displayUnitCount: int)
    requires displayUnitCount >= 1 && 0 <= previous <= displayUnitCount - 1
    ensures var shown := DisplayedUnits(previous, p, displayUnitCount);
      && previous <= shown
      && (!p.isComplete ==> shown <= displayUnitCount - 1)
      && (p.isComplete ==> shown <= displayUnitCount)
      && (!p.isComplete ==> shown <= MaxInt(previous, MaxInt(Requested(p, displayUnitCount), NextBoundary(p, displayUnitCount) - 1)))
      && (!p.isComplete ==> MinInt(displayUnitCount - 1, Requested(p, displayUnitCount)) <= shown)
      && shown <= MaxInt(previous + 1, Requested(p, displayUnitCount))
  {
  }

  /** The bar after a number of heartbeats on unchanged progress. */
  function Beats(previous: int, p: Progress, displayUnitCount: int, n: nat): int {
    if n == 0 then previous else DisplayedUnits(Beats(previous, p, displayUnitCount, n - 1), p, displayUnitCount)
  }

  /**
   Any number of heartbeats on unchanged progress stays short of the boundary of the next confirmation,
   exactly when the bar had not reached it before and rounding the confirmed fraction does not.
   */
  lemma {:induction false} HeartbeatsStayBelow(previous: int, p: Progress, displayUnitCount: int, n: nat)
    requires displayUnitCount >= 1 && 0 <= previous <= displayUnitCount - 1 && !p.isComplete
    ensures var shown := Beats(previous, p, displayUnitCount, n);
      && previous <= shown <= displayUnitCount - 1
      && (n > 0 ==>
            (shown < NextBoundary(p, displayUnitCount)
             <==> previous < NextBoundary(p, displayUnitCount)
                  && MinInt(displayUnitCount - 1, Requested(p, displayUnitCount)) < NextBoundary(p, displayUnitCount)))
  {
    if n > 0 {
      HeartbeatsStayBelow(previous, p, displayUnitCount, n - 1);
      OneUpdate(Beats(previous, p, displayUnitCount, n - 1), p, displayUnitCount);
    }
  }

  lemma RoundingBelow(a: nat, b: nat, t: nat)
    requires t > 0 && 2 * a + t < 2 * b
    ensures Rounded(a, t) <= b / t
  {
    RoundedFits(a, t);
    FloorIsLargest(b, t, Rounded(a, t));
  }

  lemma RoundedFits(a: nat, t: nat)
    requires t > 0
    ensures 2 * t * Rounded(a, t) <= 2 * a + t
  {
    var q := (2 * a + t) / (2 * t);
    assert (2 * t) * q + (2 * a + t) % (2 * t) == 2 * a + t;
  }

  lemma FloorIsLargest(b: nat, t: nat, q: nat)
    requires t > 0 && t * q <= b
    ensures q <= b / t
  {
    var floor := b / t;
    assert b == floor * t + b % t;
    if floor + 1 <= q {
      TimesGrows(floor + 1, q, t);
    }
  }

  /** With more display units than confirmations still to count, rounding alone does not pass the next boundary. */
  lemma RequestedFits(p: Progress, display: nat)
    requires 0 <= p.confirmedUnits < p.totalUnits < display
    ensures Requested(p, display) <= NextBoundary(p, display)
  {
    var c, t := p.confirmedUnits, p.totalUnits;
    assert (c + 1) * display == c * display + display;
    RoundingBelow(c * display, (c + 1) * display, t);
  }

  // ----- a tracking task ------------------------------------------------------------------------

  const PROGRESS_LIMIT := 949

  datatype Bar = Bar(shown: int, latest: Option<Progress>)

  datatype Tick = Update(progress: Progress) | Heartbeat

  function Ticked(b: Bar, t: Tick): Bar {
    match t
    case Update(progress) => Bar(DisplayedUnits(b.shown, progress, PROGRESS_LIMIT), Some(progress))
    case Heartbeat =>
      match b.latest
      case Some(progress) => b.(shown := DisplayedUnits(b.shown, progress, PROGRESS_LIMIT))
      case None => b.(shown := MinInt(50, b.shown + 1))
  }

  /** A tracking task from its start, up to the first complete wave. */
  ghost predicate IsTracking(bars: seq<Bar>, ticks: seq<Tick>) {
    && |bars| == |ticks| + 1 && bars[0] == Bar(0, None)
    && forall n :: 0 <= n < |ticks| ==> bars[n + 1] == Ticked(bars[n], ticks[n]) && (ticks[n].Update? ==> !ticks[n].progress.isComplete)
  }

  ghost predicate BarOk(b: Bar) {
    && 0 <= b.shown <= PROGRESS_LIMIT - 1
    && (b.latest.None? ==> b.shown <= 50)
    && (b.latest.Some? ==> !b.latest.value.isComplete)
  }

  lemma TickKeeps(b: Bar, t: Tick)
    requires BarOk(b) && (t.Update? ==> !t.progress.isComplete)
    ensures BarOk(Ticked(b, t)) && b.shown <= Ticked(b, t).shown
  {
    match t
    case Update(progress) => OneUpdate(b.shown, progress, PROGRESS_LIMIT);
    case Heartbeat => if b.latest.Some? { OneUpdate(b.shown, b.latest.value, PROGRESS_LIMIT); }
  }

  /** Over any number of passes and heartbeats up to the first complete wave, the bar never moves back and never fills. */
  lemma {:induction false} BarNeverMovesBack(bars: seq<Bar>, ticks: seq<Tick>, m: nat, n: nat)
    requires IsTracking(bars, ticks) && m <= n < |bars|
    ensures bars[m].shown <= bars[n].shown < PROGRESS_LIMIT && BarOk(bars[n])
  {
    if n > 0 {
      BarNeverMovesBack(bars, ticks, if m < n then m else m - 1, n - 1);
      TickKeeps(bars[n - 1], ticks[n - 1]);
    }
  }
}
