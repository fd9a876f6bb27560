/**
 The notification coordinator: events are aggregated into one summary, every submission of the summary
 has a generation, and the callers of all submissions wait for the newest one. Each block that runs on
 the coordinator's serial queue is one step.
 */
module Notifications {
  import opened Common

  datatype Kind = ConfirmedWaveReady | NeedsForegroundRecovery | TerminalFailure

  function Raw(kind: Kind): string {
    match kind
    case ConfirmedWaveReady => "confirmedWaveReady"
    case NeedsForegroundRecovery => "needsForegroundRecovery"
    case TerminalFailure => "terminalFailure"
  }

  datatype Event = Event(scope: string, kind: Kind, fingerprint: string)
  {
    function Key(): string { scope + "|" + Raw(kind) }
  }

  /** The events of the batch, by key, what was accepted under each key, and when the summary is due. */
  datatype Batch = Batch(pending: map<string, Event>, accepted: map<string, string>, deadline: Option<int>)
  {
    /** There is something to announce. */
    predicate HasSummary() { pending != map[] }

    predicate Accepted(e: Event) { e.Key() in accepted && accepted[e.Key()] == e.fingerprint }

    function Enqueue(e: Event): (Batch, bool) {
      if Accepted(e) then (this, false)
      else if e.Key() in pending && pending[e.Key()] == e then (this, false)
      else (this.(pending := pending[e.Key() := e]), true)
    }

    function EnqueueAll(events: seq<Event>): (Batch, bool) {
      if events == [] then (this, false)
      else
        var (before, changed) := EnqueueAll(events[..|events| - 1]);
        var (after, more) := before.Enqueue(events[|events| - 1]);
        (after, changed || more)
    }

    function MarkAccepted(events: map<string, Event>): Batch {
      this.(accepted := accepted + (map k | k in events :: events[k].fingerprint))
    }

    function Resolve(scope: string): Batch {
      Batch(map k | k in pending && pending[k].scope != scope :: pending[k],
            map k | k in accepted && k != scope && !(scope + "|" <= k) :: accepted[k],
            None)
    }

    function Retain(scopes: set<string>): (Batch, bool) {
      var kept := map k | k in pending && pending[k].scope in scopes :: pending[k];
      (Batch(kept,
             map k | k in accepted && (exists s :: s in scopes && (k == s || s + "|" <= k)) :: accepted[k],
             if kept == map[] then None else deadline),
       kept != pending)
    }

    function BeginNew(): Batch { this.(pending := map[], deadline := None) }

    function Expire(now: int): Batch { if deadline.Some? && deadline.value <= now then BeginNew() else this }
  }

  const EMPTY := Batch(map[], map[], None)

  const WINDOW := 30

  // ----- keys ---------------------------------------------------------------------------------

  /** The key of an event tells its scope and its kind, whatever characters the scope contains. */
  lemma KeyIsInjective(a: Event, b: Event)
    requires a.Key() == b.Key()
    ensures a.scope == b.scope && a.kind == b.kind
  {
    var k := a.Key();
    var n := |k|;
    assert k[n - 1] == Raw(a.kind)[|Raw(a.kind)| - 1] == Raw(b.kind)[|Raw(b.kind)| - 1];
    assert k[n - 2] == Raw(a.kind)[|Raw(a.kind)| - 2] == Raw(b.kind)[|Raw(b.kind)| - 2];
    assert a.kind == b.kind;
    assert k[..n - |Raw(a.kind)| - 1] == a.scope && k[..n - |Raw(b.kind)| - 1] == b.scope;
  }

  /** Every pending event is filed under its own key. */
  ghost predicate Filed(pending: map<string, Event>) {
    forall k :: k in pending ==> pending[k].Key() == k
  }

  /** Enqueueing says whether anything changed: nothing does exactly when the event is accepted or pending as it is. */
  lemma EnqueueTells(b: Batch, e: Event)
    requires Filed(b.pending)
    ensures var (after, changed) := b.Enqueue(e);
      && (changed <==> after != b)
      && (!changed <==> b.Accepted(e) || (e.Key() in b.pending && b.pending[e.Key()] == e))
      && Filed(after.pending) && after.accepted == b.accepted
      && !after.Enqueue(e).1
  {
    var (after, changed) := b.Enqueue(e);
    if changed {
      assert after.pending[e.Key()] == e;
    }
  }

  /** An accepted event of one kind never suppresses another kind of the same scope. */
  lemma KindsAreIndependent(b: Batch, accepted: Event, e: Event)
    requires e.scope == accepted.scope && e.kind != accepted.kind && !b.Accepted(e)
    ensures !b.MarkAccepted(map[accepted.Key() := accepted]).Accepted(e)
  {
    if e.Key() == accepted.Key() { KeyIsInjective(e, accepted); }
  }

  /** After a scope is resolved, any event of that scope can be raised again, and none of it is pending. */
  lemma ResolveReallows(b: Batch, scope: string, e: Event)
    requires e.scope == scope
    ensures b.Resolve(scope).Enqueue(e).1
    ensures forall k :: k in b.Resolve(scope).pending ==> b.pending[k].scope != scope
  {
    assert scope + "|" <= e.Key();
    var after := b.Resolve(scope);
    assert e.Key() !in after.accepted;
    assert e.Key() in after.pending ==> after.pending[e.Key()].scope != scope;
  }

  ghost predicate Plain(scope: string) { '|' !in scope }

  lemma {:induction false} PrefixIsScope(scope: string, e: Event)
    requires Plain(scope) && Plain(e.scope) && scope + "|" <= e.Key()
    ensures e.scope == scope
  {
    var k := e.Key();
    assert k[|scope|] == (scope + "|")[|scope|] == '|' && k[|e.scope|] == '|';
    assert forall i :: 0 <= i < |e.scope| ==> k[i] == e.scope[i] && e.scope[i] in e.scope;
    assert forall i :: 0 <= i < |scope| ==> k[i] == (scope + "|")[i] == scope[i] && scope[i] in scope;
    assert |scope| == |e.scope|;
  }

  /** Resolving a scope leaves what was accepted for other scopes, as long as scope names contain no bar. */
  lemma ResolveKeepsOthers(b: Batch, scope: string, e: Event)
    requires Plain(scope) && Plain(e.scope) && e.scope != scope
    ensures b.Resolve(scope).Accepted(e) <==> b.Accepted(e)
  {
    if scope + "|" <= e.Key() { PrefixIsScope(scope, e); }
    assert e.Key()[|e.scope|] == '|';
  }

  // ----- the coordinator ------------------------------------------------------------------------

  /** Whom a submission answers: a caller, or nobody when the coordinator submits on its own account. */
  datatype Waiter = Nobody | Caller(id: nat)

  /**
   The coordinator's fields, and what the notification centre still owes it: per generation the events of
   the request whose callback has not come. `asked` and `answers` record, as history, which callers asked
   and what each was told.
   */
  datatype Coordinator = Coordinator(
    batch: Batch,
    generation: nat,
    waiting: seq<Waiter>,
    outstanding: map<nat, map<string, Event>>,
    asked: seq<nat>,
    answers: seq<(nat, bool)>)

  const START := Coordinator(EMPTY, 0, [], map[], [], [])

  function Told(waiting: seq<Waiter>, submitted: bool): seq<(nat, bool)> {
    if waiting == [] then []
    else Told(waiting[..|waiting| - 1], submitted)
         + (match waiting[|waiting| - 1] case Caller(id) => [(id, submitted)] case Nobody => [])
  }

  lemma ToldOne(w: Waiter, submitted: bool)
    ensures Told([w], submitted) == if w.Caller? then [(w.id, submitted)] else []
  {
    assert [w][..0] == [] && [w][|[w]| - 1] == w;
    assert Told([w][..0], submitted) == [];
  }

  function Flush(c: Coordinator, submitted: bool): Coordinator {
    c.(waiting := [], answers := c.answers + Told(c.waiting, submitted))
  }

  function Answer(c: Coordinator, w: Waiter, submitted: bool): Coordinator {
    c.(answers := c.answers + Told([w], submitted))
  }

  function Schedule(c: Coordinator, now: int, w: Waiter): Coordinator {
    if !c.batch.HasSummary() then Answer(c, w, true)
    else
      c.(batch := c.batch.(deadline := if c.batch.deadline.Some? then c.batch.deadline else Some(now + WINDOW)),
         generation := c.generation + 1,
         waiting := c.waiting + [w],
         outstanding := c.outstanding[c.generation + 1 := c.batch.pending])
  }

  /** Nothing is left to announce: whoever waits got what it needed. */
  function Withdraw(c: Coordinator, submitted: bool): Coordinator {
    Flush(c.(generation := c.generation + 1), submitted)
  }

  datatype Step =
    | Enqueue(now: int, events: seq<Event>, caller: nat)
    | Resolve(now: int, scope: string)
    | Retain(now: int, scopes: set<string>)
    /** The second half of a resolve or a retain, once the centre has listed its pending requests. */
    | Refresh(now: int, summaryIsPending: bool)
    | ClearDelivered(now: int)
    | Suppress
    | ClearAll
    | AddReturned(generation: nat, ok: bool)

  predicate Can(c: Coordinator, s: Step) {
    s.AddReturned? ==> s.generation in c.outstanding
  }

  function Ask(c: Coordinator, now: int, events: seq<Event>, caller: nat): Coordinator {
    var d := c.(asked := c.asked + [caller]);
    if events == [] then Answer(d, Caller(caller), true)
    else
      var (batch, changed) := d.batch.Expire(now).EnqueueAll(events);
      if !changed then
        if forall i :: 0 <= i < |events| ==> batch.Accepted(events[i])
        then Answer(d.(batch := batch), Caller(caller), true)
        else Schedule(d.(batch := batch), now, Caller(caller))
      else
        Schedule(d.(batch := batch.(deadline := if batch.deadline.None? then Some(now + WINDOW) else batch.deadline)), now, Caller(caller))
  }

  predicate Ahead(deadline: Option<int>, now: int) { deadline.Some? && deadline.value > now }

  function ResolveScope(c: Coordinator, now: int, scope: string): Coordinator {
    var batch := c.batch.Resolve(scope);
    var carried := if batch.HasSummary() && Ahead(c.batch.deadline, now) then batch.(deadline := c.batch.deadline) else batch;
    var d := c.(batch := carried);
    if carried.HasSummary() then d else Withdraw(d, true)
  }

  function RetainScopes(c: Coordinator, now: int, scopes: set<string>): Coordinator {
    var batch := c.batch.Retain(scopes).0;
    var d := c.(batch := batch.(deadline := if batch.HasSummary() && Ahead(c.batch.deadline, now) then c.batch.deadline else None));
    if batch.HasSummary() then d else Withdraw(d, true)
  }

  function Next(c: Coordinator, s: Step): Coordinator
    requires Can(c, s)
  {
    match s
    case Enqueue(now, events, caller) => Ask(c, now, events, caller)
    case Resolve(now, scope) => ResolveScope(c, now, scope)
    case Retain(now, scopes) => RetainScopes(c, now, scopes)
    case Refresh(now, summaryIsPending) =>
      if !c.batch.HasSummary() then c
      else if !summaryIsPending then c.(batch := c.batch.(deadline := None))
      else Schedule(c, now, Nobody)
    case ClearDelivered(now) =>
      if !c.batch.HasSummary() then c else Schedule(c.(batch := c.batch.(deadline := None)), now, Nobody)
    case Suppress =>
      Withdraw(c.(batch := c.batch.MarkAccepted(c.batch.pending).BeginNew()), true)
    case ClearAll =>
      Withdraw(c.(batch := EMPTY), false)
    case AddReturned(generation, ok) =>
      var d := c.(outstanding := c.outstanding - {generation});
      if generation != c.generation then d
      else Flush(if ok then d.(batch := d.batch.MarkAccepted(c.outstanding[generation])) else d, ok)
  }

  // ----- everyone is answered, once ---------------------------------------------------------------

  function IsCaller(w: Waiter, id: nat): nat { if w == Caller(id) then 1 else 0 }

  /** How often a caller waits, how often it was told something, and how often it asked. */
  function TimesWaiting(waiting: seq<Waiter>, id: nat): nat {
    if waiting == [] then 0 else TimesWaiting(waiting[..|waiting| - 1], id) + IsCaller(waiting[|waiting| - 1], id)
  }

  function TimesTold(answers: seq<(nat, bool)>, id: nat): nat {
    if answers == [] then 0 else TimesTold(answers[..|answers| - 1], id) + (if answers[|answers| - 1].0 == id then 1 else 0)
  }

  function TimesAsked(asked: seq<nat>, id: nat): nat {
    if asked == [] then 0 else TimesAsked(asked[..|asked| - 1], id) + (if asked[|asked| - 1] == id then 1 else 0)
  }

  /** The caller `extra`, if it is one, has asked and is about to be told or to wait. */
  ghost predicate Balanced(c: Coordinator, extra: Waiter) {
    forall id: nat :: TimesAsked(c.asked, id) == TimesTold(c.answers, id) + TimesWaiting(c.waiting, id) + IsCaller(extra, id)
  }

  /** What the centre still owes: callbacks of submissions made so far. */
  ghost predicate Owing(c: Coordinator) {
    && (forall g :: g in c.outstanding ==> g <= c.generation && Filed(c.outstanding[g]))
    && Filed(c.batch.pending)
  }

  /** Callers wait only for the newest submission, while its callback is outstanding. */
  ghost predicate WaitingIsOwed(c: Coordinator) { c.waiting != [] ==> c.generation in c.outstanding }

  ghost predicate Inv(c: Coordinator) { WaitingIsOwed(c) && Owing(c) && Balanced(c, Nobody) }

  lemma {:induction false} ToldConcat(a: seq<(nat, bool)>, b: seq<(nat, bool)>, id: nat)
    ensures TimesTold(a + b, id) == TimesTold(a, id) + TimesTold(b, id)
  {
    if b == [] {
      assert a + b == a;
    } else {
      ToldConcat(a, b[..|b| - 1], id);
      assert (a + b)[..|a + b| - 1] == a + b[..|b| - 1];
    }
  }

  lemma {:induction false} FlushTellsAll(waiting: seq<Waiter>, submitted: bool, id: nat)
    ensures TimesTold(Told(waiting, submitted), id) == TimesWaiting(waiting, id)
  {
    if waiting != [] {
      var before, last := Told(waiting[..|waiting| - 1], submitted), waiting[|waiting| - 1];
      FlushTellsAll(waiting[..|waiting| - 1], submitted, id);
      ToldConcat(before, if last.Caller? then [(last.id, submitted)] else [], id);
      if last.Caller? { assert [(last.id, submitted)][..0] == []; }
    }
  }

  lemma {:induction false} FlushSays(waiting: seq<Waiter>, submitted: bool)
    ensures forall i :: 0 <= i < |Told(waiting, submitted)| ==> Told(waiting, submitted)[i].1 == submitted
  {
    if waiting != [] {
      FlushSays(waiting[..|waiting| - 1], submitted);
    }
  }

  lemma WaitingAppend(waiting: seq<Waiter>, w: Waiter, id: nat)
    ensures TimesWaiting(waiting + [w], id) == TimesWaiting(waiting, id) + IsCaller(w, id)
  {
    assert (waiting + [w])[..|waiting|] == waiting;
  }

  lemma AskedAppend(asked: seq<nat>, caller: nat, id: nat)
    ensures TimesAsked(asked + [caller], id) == TimesAsked(asked, id) + IsCaller(Caller(caller), id)
  {
    assert (asked + [caller])[..|asked|] == asked;
  }

  lemma FlushKeeps(c: Coordinator, submitted: bool)
    requires Owing(c) && Balanced(c, Nobody)
    ensures Inv(Flush(c, submitted))
  {
    var d := Flush(c, submitted);
    forall id: nat ensures TimesAsked(d.asked, id) == TimesTold(d.answers, id) + TimesWaiting(d.waiting, id) {
      ToldConcat(c.answers, Told(c.waiting, submitted), id);
      FlushTellsAll(c.waiting, submitted, id);
      assert TimesAsked(c.asked, id) == TimesTold(c.answers, id) + TimesWaiting(c.waiting, id) + IsCaller(Nobody, id);
    }
  }

  /** A caller that is told at once. */
  lemma AnswerKeeps(c: Coordinator, w: Waiter, submitted: bool)
    requires WaitingIsOwed(c) && Owing(c) && Balanced(c, w)
    ensures Inv(Answer(c, w, submitted))
  {
    var d := Answer(c, w, submitted);
    forall id: nat ensures TimesAsked(d.asked, id) == TimesTold(d.answers, id) + TimesWaiting(d.waiting, id) {
      ToldConcat(c.answers, Told([w], submitted), id);
      FlushTellsAll([w], submitted, id);
      WaitingAppend([], w, id);
      assert [] + [w] == [w];
      assert TimesAsked(c.asked, id) == TimesTold(c.answers, id) + TimesWaiting(c.waiting, id) + IsCaller(w, id);
    }
  }

  /** A caller that waits for the submission made on its account. */
  lemma SubmitKeeps(c: Coordinator, d: Coordinator, w: Waiter)
    requires Owing(c) && Balanced(c, w)
    requires d.waiting == c.waiting + [w] && d.asked == c.asked && d.answers == c.answers
    ensures Balanced(d, Nobody)
  {
    forall id: nat ensures TimesAsked(d.asked, id) == TimesTold(d.answers, id) + TimesWaiting(d.waiting, id) + IsCaller(Nobody, id) {
      WaitingAppend(c.waiting, w, id);
      assert TimesAsked(c.asked, id) == TimesTold(c.answers, id) + TimesWaiting(c.waiting, id) + IsCaller(w, id);
    }
  }

  lemma ScheduleKeeps(c: Coordinator, now: int, w: Waiter)
    requires WaitingIsOwed(c) && Owing(c) && Balanced(c, w)
    ensures Inv(Schedule(c, now, w))
  {
    if c.batch.HasSummary() {
      SubmitKeeps(c, Schedule(c, now, w), w);
    } else {
      AnswerKeeps(c, w, true);
    }
  }

  lemma {:induction false} EnqueueAllFiles(b: Batch, events: seq<Event>)
    requires Filed(b.pending)
    ensures Filed(b.EnqueueAll(events).0.pending)
  {
    if events != [] {
      EnqueueAllFiles(b, events[..|events| - 1]);
    }
  }

  lemma AskBalances(c: Coordinator, d: Coordinator, caller: nat)
    requires Balanced(c, Nobody)
    requires d.asked == c.asked + [caller] && d.answers == c.answers && d.waiting == c.waiting
    ensures Balanced(d, Caller(caller))
  {
    forall id: nat ensures TimesAsked(d.asked, id) == TimesTold(d.answers, id) + TimesWaiting(d.waiting, id) + IsCaller(Caller(caller), id) {
      AskedAppend(c.asked, caller, id);
      assert TimesAsked(c.asked, id) == TimesTold(c.answers, id) + TimesWaiting(c.waiting, id) + IsCaller(Nobody, id);
    }
  }

  lemma AskKeeps(c: Coordinator, now: int, events: seq<Event>, caller: nat)
    requires Inv(c)
    ensures Inv(Ask(c, now, events, caller))
  {
    var d := c.(asked := c.asked + [caller]);
    AskBalances(c, d, caller);
    if events == [] {
      AnswerKeeps(d, Caller(caller), true);
    } else {
      var (batch, changed) := d.batch.Expire(now).EnqueueAll(events);
      EnqueueAllFiles(d.batch.Expire(now), events);
      var e := d.(batch := if changed && batch.deadline.None? then batch.(deadline := Some(now + WINDOW)) else batch);
      AskBalances(c, e, caller);
      AnswerKeeps(e, Caller(caller), true);
      ScheduleKeeps(e, now, Caller(caller));
    }
  }

  /** Withdrawing the summary answers everyone who waits for it. */
  lemma WithdrawKeeps(c: Coordinator, batch: Batch, submitted: bool)
    requires Inv(c) && Filed(batch.pending)
    ensures Inv(Withdraw(c.(batch := batch), submitted))
  {
    var d := c.(batch := batch, generation := c.generation + 1);
    assert Balanced(d, Nobody);
    FlushKeeps(d, submitted);
  }

  /** A submission on the coordinator's own account, or a change of the batch alone. */
  lemma OwnAccountKeeps(c: Coordinator, batch: Batch, now: int)
    requires Inv(c) && Filed(batch.pending)
    ensures Inv(c.(batch := batch)) && Inv(Schedule(c.(batch := batch), now, Nobody))
  {
    assert Balanced(c.(batch := batch), Nobody);
    ScheduleKeeps(c.(batch := batch), now, Nobody);
  }

  lemma CallbackKeeps(c: Coordinator, generation: nat, ok: bool)
    requires Inv(c) && generation in c.outstanding
    ensures Inv(Next(c, AddReturned(generation, ok)))
  {
    var d := c.(outstanding := c.outstanding - {generation});
    var e := if ok then d.(batch := d.batch.MarkAccepted(c.outstanding[generation])) else d;
    assert Balanced(d, Nobody) && Balanced(e, Nobody);
    FlushKeeps(e, ok);
  }

  /** Every step, from every state that satisfies the invariant, keeps it. */
  lemma NextKeeps(c: Coordinator, s: Step)
    requires Inv(c) && Can(c, s)
    ensures Inv(Next(c, s))
  {
    match s
    case Enqueue(now, events, caller) => AskKeeps(c, now, events, caller);
    case Resolve(now, scope) => ResolveKeeps(c, now, scope);
    case Retain(now, scopes) => RetainKeeps(c, now, scopes);
    case Refresh(now, summaryIsPending) =>
      OwnAccountKeeps(c, c.batch, now);
      OwnAccountKeeps(c, c.batch.(deadline := None), now);
    case ClearDelivered(now) => OwnAccountKeeps(c, c.batch.(deadline := None), now);
    case Suppress => WithdrawKeeps(c, c.batch.MarkAccepted(c.batch.pending).BeginNew(), true);
    case ClearAll => WithdrawKeeps(c, EMPTY, false);
    case AddReturned(generation, ok) => CallbackKeeps(c, generation, ok);
  }

  lemma ResolveKeeps(c: Coordinator, now: int, scope: string)
    requires Inv(c)
    ensures Inv(ResolveScope(c, now, scope))
  {
    var batch := c.batch.Resolve(scope);
    WithdrawKeeps(c, batch, true);
    OwnAccountKeeps(c, if batch.HasSummary() && Ahead(c.batch.deadline, now) then batch.(deadline := c.batch.deadline) else batch, now);
  }

  lemma RetainKeeps(c: Coordinator, now: int, scopes: set<string>)
    requires Inv(c)
    ensures Inv(RetainScopes(c, now, scopes))
  {
    var batch := c.batch.Retain(scopes).0;
    var carried := batch.(deadline := if batch.HasSummary() && Ahead(c.batch.deadline, now) then c.batch.deadline else None);
    WithdrawKeeps(c, carried, true);
    OwnAccountKeeps(c, carried, now);
  }

  /** Any sequence of calls and callbacks, the callbacks in any order and each at most once. */
  ghost predicate IsRun(states: seq<Coordinator>, steps: seq<Step>) {
    && |states| == |steps| + 1 && states[0] == START
    && forall n :: 0 <= n < |steps| ==> Can(states[n], steps[n]) && states[n + 1] == Next(states[n], steps[n])
  }

  lemma {:induction false} RunKeeps(states: seq<Coordinator>, steps: seq<Step>, n: nat)
    requires IsRun(states, steps) && n < |states|
    ensures Inv(states[n])
  {
    if n > 0 {
      RunKeeps(states, steps, n - 1);
      NextKeeps(states[n - 1], steps[n - 1]);
    }
  }

  /** Waiting callers are never stranded: while anyone waits, the newest submission's callback is still to come. */
  lemma WaitersAreOwed(states: seq<Coordinator>, steps: seq<Step>, n: nat)
    requires IsRun(states, steps) && n < |states| && states[n].waiting != []
    ensures states[n].generation in states[n].outstanding
  {
    RunKeeps(states, steps, n);
  }

  /** No caller is answered more often than it asked, and once the centre owes no callback every caller has been answered. */
  lemma AnsweredExactlyOnce(states: seq<Coordinator>, steps: seq<Step>, n: nat, id: nat)
    requires IsRun(states, steps) && n < |states|
    ensures TimesTold(states[n].answers, id) <= TimesAsked(states[n].asked, id)
    ensures states[n].outstanding == map[] ==> TimesTold(states[n].answers, id) == TimesAsked(states[n].asked, id)
  {
    RunKeeps(states, steps, n);
    var c := states[n];
    assert TimesAsked(c.asked, id) == TimesTold(c.answers, id) + TimesWaiting(c.waiting, id) + IsCaller(Nobody, id);
  }

  /** The callback of a superseded submission changes nothing and answers nobody. */
  lemma SupersededChangesNothing(c: Coordinator, generation: nat, ok: bool)
    requires generation in c.outstanding && generation != c.generation
    ensures var d := Next(c, AddReturned(generation, ok));
      d == c.(outstanding := c.outstanding - {generation}) && d.answers == c.answers && d.batch == c.batch
  {
  }

  /** The callback of the newest submission answers everyone who waits, with what became of it. */
  lemma NewestAnswersEveryone(c: Coordinator, ok: bool)
    requires Inv(c) && c.generation in c.outstanding
    ensures var d := Next(c, AddReturned(c.generation, ok));
      && d.waiting == []
      && c.answers <= d.answers && (forall id: nat :: TimesTold(d.answers[|c.answers|..], id) == TimesWaiting(c.waiting, id))
      && (forall i :: |c.answers| <= i < |d.answers| ==> d.answers[i].1 == ok)
      && (ok ==> forall k :: k in c.outstanding[c.generation] ==> d.batch.Accepted(c.outstanding[c.generation][k]))
  {
    var d := Next(c, AddReturned(c.generation, ok));
    FlushSays(c.waiting, ok);
    assert d.answers[|c.answers|..] == Told(c.waiting, ok);
    forall id: nat ensures TimesTold(d.answers[|c.answers|..], id) == TimesWaiting(c.waiting, id) { FlushTellsAll(c.waiting, ok, id); }
    if ok {
      MarkedIsAccepted(c.batch, c.outstanding[c.generation]);
    }
  }

  lemma MarkedIsAccepted(b: Batch, events: map<string, Event>)
    requires Filed(events)
    ensures forall k :: k in events ==> b.MarkAccepted(events).Accepted(events[k])
  {
    forall k | k in events ensures b.MarkAccepted(events).Accepted(events[k]) {
      assert events[k].Key() == k;
    }
  }
}
