/** Direct connections under every interleaving: when their I/O runs, who is woken, and when the wait for them ends. */
module NetworkPrivacyLeases {
  import opened NetworkPrivacy
  import opened NetworkPrivacyRoute

  predicate InWakers(pc: Pc) { pc.EnableDesire? || pc.EnableStatus? || pc.EnableEpoch? || pc.EnableDrain? }

  predicate InPoll(pc: LeasePc) { pc.PollDesired? || pc.PollEpoch? || pc.PollInsert? || pc.PollInner? || pc.PollUnlock? }

  /** Past the read that Tor is not desired, and not yet cancelled. */
  predicate Allowed(pc: LeasePc) { pc.PollEpoch? || pc.PollInsert? || pc.PollInner? }

  /** Past the comparison of epochs. */
  predicate Current(pc: LeasePc) { pc.PollInsert? || pc.PollInner? }

  predicate ThreadOwns(g: Gate, t: nat, pc: Pc) { InWakers(pc) <==> g.waker == ByThread(t) }

  predicate LeaseOwns(g: Gate, id: nat, pc: LeasePc) { InPoll(pc) <==> g.waker == ByLease(id) }

  /** What holds of one lease in any reachable state. */
  predicate LeaseOk(g: Gate, id: nat, lease: Lease) {
    && LeaseOwns(g, id, lease.pc)
    && (id in g.live <==> !lease.pc.DropNotify?)
    && (Current(lease.pc) ==> lease.epoch == g.epoch)
    && (g.barred ==> !Allowed(lease.pc))
    && (lease.pc.Opening? || lease.pc.DropCount? || lease.pc.DropNotify? ==> id !in g.wakers && !lease.parked)
    && (!lease.pc.Opening? ==> lease.epoch <= g.epoch)
  }

  /** The wakers that a call took out of the table and has still to wake. */
  function Drained(pc: Pc): set<nat> { if pc.EnableWake? then pc.drained else {} }

  ghost predicate AboutToWake(s: State, id: nat) {
    exists t :: t in s.threads && id in Drained(s.threads[t])
  }

  ghost predicate AboutToNotify(g: Gate) {
    exists id :: id in g.leases && g.leases[id].pc.DropNotify?
  }

  /** A wait has seen no notification that it slept through. */
  predicate WaitOk(g: Gate, notifying: bool, pc: Pc) {
    && (pc.WaitCheck? ==> pc.generation <= g.generation)
    && (pc.WaitPark? ==> pc.generation <= g.generation && (pc.generation == g.generation ==> g.active > 0 || notifying))
  }

  /** Every waker in the table is of the current epoch, except while an enable that moved the epoch on is about to drain it. */
  ghost predicate TableIsCurrent(s: State) {
    forall id :: id in s.gate.wakers ==>
      && id in s.gate.leases
      && (s.gate.leases[id].epoch == s.gate.epoch
          || (s.gate.waker.ByThread? && s.gate.waker.thread in s.threads && s.threads[s.gate.waker.thread].EnableDrain?))
  }

  ghost predicate Gated(s: State) {
    && (forall t :: t in s.threads ==> ThreadOwns(s.gate, t, s.threads[t]))
    && (s.gate.waker.ByThread? ==> s.gate.waker.thread in s.threads)
    && (s.gate.waker.ByLease? ==> s.gate.waker.lease in s.gate.leases)
    && (forall id :: id in s.gate.leases ==> id < s.gate.nextId && LeaseOk(s.gate, id, s.gate.leases[id]))
    && (s.gate.barred ==> s.route.desired)
    && TableIsCurrent(s)
  }

  ghost predicate Counted(s: State) {
    && s.gate.active == |s.gate.live|
    && (forall id :: id in s.gate.live ==> id in s.gate.leases)
    && (forall id :: id in s.gate.leases ==> (id in s.gate.live <==> !s.gate.leases[id].pc.DropNotify?))
    && (forall t :: t in s.threads ==> WaitOk(s.gate, AboutToNotify(s.gate), s.threads[t]))
  }

  /** Every registered waker is in the table, or in the hands of a call that is about to wake it. */
  ghost predicate NoneForgotten(s: State) {
    forall id :: id in s.gate.leases && s.gate.leases[id].parked ==> id in s.gate.wakers || AboutToWake(s, id)
  }

  // ----- gating: steps of a call ----------------------------------------------------------------

  lemma ActGates(r: Route, g: Gate, t: nat, pc: Pc, pick: nat, ok: bool, made: Client)
    requires ThreadOwns(g, t, pc) && CanRun(r, g, pc, pick)
    ensures var h := ActGate(r, g, t, pc, pick);
      && ThreadOwns(h, t, ActPc(r, g, pc, pick, ok, made))
      && (h.waker != g.waker ==> (g.waker == Free && h.waker == ByThread(t)) || (g.waker == ByThread(t) && h.waker == Free))
  {
    ActInWakers(r, g, pc, pick, ok, made);
    ActWaker(r, g, t, pc, pick);
  }

  lemma ActInWakers(r: Route, g: Gate, pc: Pc, pick: nat, ok: bool, made: Client)
    ensures InWakers(ActPc(r, g, pc, pick, ok, made)) <==> pc.EnableLock? || (InWakers(pc) && !pc.EnableDrain?)
  {
  }

  lemma ActWaker(r: Route, g: Gate, t: nat, pc: Pc, pick: nat)
    ensures ActGate(r, g, t, pc, pick).waker == if pc.EnableLock? then ByThread(t) else if pc.EnableDrain? then Free else g.waker
  {
  }

  /** What the step of a call does to the table, the epoch and the bar. */
  lemma ActOnTable(r: Route, g: Gate, t: nat, pc: Pc, pick: nat)
    ensures var h := ActGate(r, g, t, pc, pick);
      && h.epoch == (if pc.EnableEpoch? then g.epoch + 1 else g.epoch)
      && h.wakers == (if pc.EnableDrain? then {} else g.wakers)
      && h.barred == (if pc.EnableDrain? then r.desired else if pc.DisableDesire? then false else g.barred)
  {
  }

  lemma ActDrains(r: Route, g: Gate, pc: Pc, pick: nat, ok: bool, made: Client)
    ensures var next := ActPc(r, g, pc, pick, ok, made);
      && (next.EnableDrain? <==> pc.EnableEpoch?)
      && (pc.EnableDrain? ==> next == EnableWake(g.wakers))
  {
  }

  /** While the bar stands Tor is desired. */
  lemma ActBars(r: Route, g: Gate, t: nat, pc: Pc, pick: nat)
    requires g.barred ==> r.desired
    ensures ActGate(r, g, t, pc, pick).barred ==> ActRoute(r, t, pc).desired
  {
    ActLocks(r, t, pc);
    ActOnTable(r, g, t, pc, pick);
  }

  lemma ActOnLeases(r: Route, g: Gate, t: nat, pc: Pc, pick: nat)
    ensures var h := ActGate(r, g, t, pc, pick);
      && h.leases.Keys == g.leases.Keys && h.live == g.live && h.active == g.active
      && h.nextId == g.nextId && h.generation == g.generation
      && (forall id :: id in g.leases ==>
            h.leases[id] == if pc.EnableWake? && pc.drained != {} && id == pick then g.leases[id].(parked := false) else g.leases[id])
  {
  }

  lemma LeaseStaysOk(r: Route, g: Gate, t: nat, pc: Pc, pick: nat, id: nat)
    requires ThreadOwns(g, t, pc) && CanRun(r, g, pc, pick) && id in g.leases && LeaseOk(g, id, g.leases[id])
    ensures var h := ActGate(r, g, t, pc, pick); id in h.leases && LeaseOk(h, id, h.leases[id])
  {
    ActWaker(r, g, t, pc, pick);
    ActOnTable(r, g, t, pc, pick);
    ActOnLeases(r, g, t, pc, pick);
  }

  lemma RunKeepsTable(s: State, t: nat, pick: nat, ok: bool, made: Client)
    requires Gated(s) && t in s.threads && CanRun(s.route, s.gate, s.threads[t], pick)
    ensures TableIsCurrent(Run(s, t, pick, ok, made))
  {
    var r, g, pc := s.route, s.gate, s.threads[t];
    assert ThreadOwns(g, t, pc);
    ActWaker(r, g, t, pc, pick);
    ActOnTable(r, g, t, pc, pick);
    ActDrains(r, g, pc, pick, ok, made);
    ActOnLeases(r, g, t, pc, pick);
  }

  lemma RunIsGated(s: State, t: nat, pick: nat, ok: bool, made: Client)
    requires Gated(s) && t in s.threads && CanRun(s.route, s.gate, s.threads[t], pick)
    ensures Gated(Run(s, t, pick, ok, made))
  {
    var r, g, pc := s.route, s.gate, s.threads[t];
    var u := Run(s, t, pick, ok, made);
    assert ThreadOwns(g, t, pc);
    ActGates(r, g, t, pc, pick, ok, made);
    ActBars(r, g, t, pc, pick);
    ActOnLeases(r, g, t, pc, pick);
    forall id | id in u.gate.leases ensures LeaseOk(u.gate, id, u.gate.leases[id]) {
      LeaseStaysOk(r, g, t, pc, pick, id);
    }
    RunKeepsTable(s, t, pick, ok, made);
  }

  // ----- gating: steps of a lease ---------------------------------------------------------------

  /** What the step of one lease leaves of the gate. */
  ghost predicate Moved(g: Gate, h: Gate, id: nat) {
    && h.epoch == g.epoch && h.barred == g.barred && h.nextId == g.nextId
    && (h.waker != g.waker ==> (g.waker == Free && h.waker == ByLease(id)) || (g.waker == ByLease(id) && h.waker == Free))
    && (forall k :: k != id ==> (k in h.leases <==> k in g.leases) && (k in h.wakers <==> k in g.wakers) && (k in h.live <==> k in g.live))
    && (forall k :: k in h.leases && k != id ==> h.leases[k] == g.leases[k])
    && (id in h.leases ==> LeaseOk(h, id, h.leases[id]))
    && (id !in h.leases ==> id !in h.wakers && id !in h.live && h.waker != ByLease(id))
    && (id in h.wakers && id in h.leases ==> id in g.wakers || h.leases[id].epoch == h.epoch)
    && (id in h.leases && id in g.wakers && id in g.leases ==> h.leases[id].epoch == g.leases[id].epoch)
  }

  lemma MoveOnGate(g: Gate, desired: bool, id: nat, drop: bool, ready: bool)
    requires id in g.leases && CanMove(g, g.leases[id]) && LeaseOk(g, id, g.leases[id]) && (g.barred ==> desired)
    ensures Moved(g, Move(g, desired, id, drop, ready), id)
  {
  }

  lemma MovedTable(s: State, h: Gate, id: nat)
    requires Gated(s) && id in s.gate.leases && Moved(s.gate, h, id)
    ensures TableIsCurrent(s.(gate := h))
  {
  }

  lemma MovedIsGated(s: State, h: Gate, id: nat)
    requires Gated(s) && id in s.gate.leases && Moved(s.gate, h, id)
    ensures Gated(s.(gate := h))
  {
    MovedTable(s, h, id);
    forall k | k in h.leases ensures LeaseOk(h, k, h.leases[k]) {
      if k != id { assert LeaseOk(s.gate, k, s.gate.leases[k]); }
    }
  }

  lemma MoveIsGated(s: State, id: nat, drop: bool, ready: bool)
    requires Gated(s) && id in s.gate.leases && CanMove(s.gate, s.gate.leases[id])
    ensures Gated(s.(gate := Move(s.gate, s.route.desired, id, drop, ready)))
  {
    assert LeaseOk(s.gate, id, s.gate.leases[id]);
    MoveOnGate(s.gate, s.route.desired, id, drop, ready);
    MovedIsGated(s, Move(s.gate, s.route.desired, id, drop, ready), id);
  }

  lemma OpenIsGated(s: State)
    requires Gated(s)
    ensures Gated(s.(gate := Opened(s.gate)))
  {
    var h := Opened(s.gate);
    forall k | k in h.leases ensures LeaseOk(h, k, h.leases[k]) {
      if k != s.gate.nextId { assert LeaseOk(s.gate, k, s.gate.leases[k]); }
    }
  }

  lemma CallIsGated(s: State, t: nat, pc: Pc)
    requires Gated(s) && (t in s.threads ==> s.threads[t].Idle? || Exit(s.threads[t])) && (Entry(pc) || pc.Idle?)
    ensures Gated(s.(threads := s.threads[t := pc]))
  {
    if t in s.threads { assert ThreadOwns(s.gate, t, s.threads[t]); }
  }

  lemma NextIsGated(s: State, a: Action)
    requires Gated(s) && Can(s, a)
    ensures Gated(Next(s, a))
  {
    match a
    case Call(t, entry) => CallIsGated(s, t, entry);
    case ThreadStep(t, pick, ok, made) => RunIsGated(s, t, pick, ok, made);
    case Abandon(t) => CallIsGated(s, t, Idle);
    case Open => OpenIsGated(s);
    case LeaseStep(id, drop, ready) => MoveIsGated(s, id, drop, ready);
  }

  lemma {:induction false} ReachableIsGated(states: seq<State>, actions: seq<Action>, n: nat)
    requires IsExecution(states, actions) && n < |states|
    ensures Gated(states[n])
  {
    if n > 0 {
      ReachableIsGated(states, actions, n - 1);
      NextIsGated(states[n - 1], actions[n - 1]);
    }
  }

  // ----- when the I/O of a connection runs ------------------------------------------------------

  /**
   Inner I/O runs only in a lease of the current epoch, and never between the end of a critical section
   of `begin_tor_enable` and the next `disable_tor`.
   */
  lemma IoIsAllowed(states: seq<State>, actions: seq<Action>, n: nat, id: nat)
    requires IsExecution(states, actions) && n < |states| && id in states[n].gate.leases
    requires states[n].gate.leases[id].pc.PollInner?
    ensures !states[n].gate.barred && states[n].gate.leases[id].epoch == states[n].gate.epoch
  {
    ReachableIsGated(states, actions, n);
    assert LeaseOk(states[n].gate, id, states[n].gate.leases[id]);
  }

  /** The bar falls only with `disable_tor`, and while it stands Tor is desired. */
  lemma BarFallsOnlyByDisable(s: State, a: Action)
    requires Gated(s) && Can(s, a) && s.gate.barred
    ensures s.route.desired
    ensures !Next(s, a).gate.barred ==> a.ThreadStep? && s.threads[a.thread].DisableDesire?
  {
  }

  ghost predicate Drains(s: State, a: Action) {
    a.ThreadStep? && a.thread in s.threads && s.threads[a.thread].EnableDrain?
  }

  ghost predicate Disables(s: State, a: Action) {
    a.ThreadStep? && a.thread in s.threads && s.threads[a.thread].DisableDesire?
  }

  lemma {:induction false} BarStands(states: seq<State>, actions: seq<Action>, m: nat, n: nat)
    requires IsExecution(states, actions) && m < n < |states|
    requires Drains(states[m], actions[m]) && states[m].route.desired
    requires forall k :: m < k < n ==> !Disables(states[k], actions[k])
    ensures states[n].gate.barred
  {
    var k := n - 1;
    if m < k {
      BarStands(states, actions, m, k);
      ReachableIsGated(states, actions, k);
      assert !Disables(states[k], actions[k]);
      BarStays(states[k], actions[k], states[n]);
    } else {
      BarRises(states[m], actions[m], states[n]);
    }
  }

  lemma BarStays(s: State, a: Action, t: State)
    requires Gated(s) && Can(s, a) && t == Next(s, a) && s.gate.barred && !Disables(s, a)
    ensures t.gate.barred
  {
    BarFallsOnlyByDisable(s, a);
  }

  lemma BarRises(s: State, a: Action, t: State)
    requires Can(s, a) && t == Next(s, a) && Drains(s, a) && s.route.desired
    ensures t.gate.barred
  {
  }

  /**
   The main promise of `begin_tor_enable`: once its critical section has ended with Tor desired, no
   direct connection, old or new, runs its I/O until some `disable_tor` clears the intent.
   */
  lemma NoDirectIoAfterEnable(states: seq<State>, actions: seq<Action>, m: nat, n: nat, id: nat)
    requires IsExecution(states, actions) && m < n < |states|
    requires Drains(states[m], actions[m]) && states[m].route.desired
    requires forall k :: m < k < n ==> !Disables(states[k], actions[k])
    requires id in states[n].gate.leases
    ensures !states[n].gate.leases[id].pc.PollInner?
    ensures states[n].route.desired
  {
    BarStands(states, actions, m, n);
    ReachableIsGated(states, actions, n);
    assert LeaseOk(states[n].gate, id, states[n].gate.leases[id]);
  }

  /** A lease of an earlier epoch, or one that is gone: its id is not given out again. */
  ghost predicate OldLease(g: Gate, id: nat) {
    id < g.nextId && (id in g.leases ==> !g.leases[id].pc.Opening? && g.leases[id].epoch < g.epoch)
  }

  lemma MoveKeepsOld(g: Gate, desired: bool, k: nat, drop: bool, ready: bool, id: nat)
    requires k in g.leases && CanMove(g, g.leases[k]) && OldLease(g, id)
    ensures OldLease(Move(g, desired, k, drop, ready), id)
  {
  }

  lemma RunKeepsOld(s: State, t: nat, pick: nat, ok: bool, made: Client, id: nat)
    requires t in s.threads && CanRun(s.route, s.gate, s.threads[t], pick) && ThreadOwns(s.gate, t, s.threads[t]) && OldLease(s.gate, id)
    ensures OldLease(Run(s, t, pick, ok, made).gate, id)
  {
    ActOnLeases(s.route, s.gate, t, s.threads[t], pick);
    ActOnTable(s.route, s.gate, t, s.threads[t], pick);
  }

  lemma NextKeepsOld(s: State, a: Action, id: nat)
    requires Gated(s) && Can(s, a) && OldLease(s.gate, id)
    ensures OldLease(Next(s, a).gate, id)
  {
    match a
    case ThreadStep(t, pick, ok, made) =>
      assert ThreadOwns(s.gate, t, s.threads[t]);
      RunKeepsOld(s, t, pick, ok, made, id);
    case LeaseStep(k, drop, ready) => MoveKeepsOld(s.gate, s.route.desired, k, drop, ready, id);
    case _ =>
  }

  lemma {:induction false} OldLeaseStaysOld(states: seq<State>, actions: seq<Action>, m: nat, n: nat, id: nat)
    requires IsExecution(states, actions) && m <= n < |states| && OldLease(states[m].gate, id)
    ensures OldLease(states[n].gate, id)
  {
    if m < n {
      OldLeaseStaysOld(states, actions, m, n - 1, id);
      ReachableIsGated(states, actions, n - 1);
      NextKeepsOld(states[n - 1], actions[n - 1], id);
    }
  }

  /** A lease from before a `begin_tor_enable` never runs its I/O again, not even after a `disable_tor`. */
  lemma OldLeaseNeverRuns(states: seq<State>, actions: seq<Action>, m: nat, n: nat, id: nat)
    requires IsExecution(states, actions) && m <= n < |states|
    requires id in states[m].gate.leases && !states[m].gate.leases[id].pc.Opening?
    requires states[m].gate.leases[id].epoch < states[m].gate.epoch
    ensures id in states[n].gate.leases ==> !states[n].gate.leases[id].pc.PollInner?
  {
    ReachableIsGated(states, actions, m);
    OldLeaseStaysOld(states, actions, m, n, id);
    ReachableIsGated(states, actions, n);
    assert id in states[n].gate.leases ==> LeaseOk(states[n].gate, id, states[n].gate.leases[id]);
  }

  // ----- the count and the wait for it ----------------------------------------------------------

  lemma RunIsCounted(s: State, t: nat, pick: nat, ok: bool, made: Client)
    requires Counted(s) && t in s.threads && CanRun(s.route, s.gate, s.threads[t], pick)
    ensures Counted(Run(s, t, pick, ok, made))
  {
    var r, g, pc := s.route, s.gate, s.threads[t];
    var u := Run(s, t, pick, ok, made);
    ActOnLeases(r, g, t, pc, pick);
    assert AboutToNotify(g) ==> AboutToNotify(u.gate) by {
      if AboutToNotify(g) {
        var id :| id in g.leases && g.leases[id].pc.DropNotify?;
        assert id in u.gate.leases && u.gate.leases[id].pc.DropNotify?;
      }
    }
    assert WaitOk(g, AboutToNotify(g), pc);
    ActWaits(r, g, t, pc, pick, ok, made, AboutToNotify(g));
    forall k | k in u.threads ensures WaitOk(u.gate, AboutToNotify(u.gate), u.threads[k]) {
      if k != t { assert WaitOk(g, AboutToNotify(g), s.threads[k]); }
    }
  }

  lemma ActWaits(r: Route, g: Gate, t: nat, pc: Pc, pick: nat, ok: bool, made: Client, notifying: bool)
    requires CanRun(r, g, pc, pick) && WaitOk(g, notifying, pc)
    ensures WaitOk(ActGate(r, g, t, pc, pick), notifying, ActPc(r, g, pc, pick, ok, made))
  {
    ActOnLeases(r, g, t, pc, pick);
    NextWaits(r, g, pc, pick, ok, made);
  }

  lemma NextWaits(r: Route, g: Gate, pc: Pc, pick: nat, ok: bool, made: Client)
    ensures var next := ActPc(r, g, pc, pick, ok, made);
      && (next.WaitCheck? ==> pc.WaitRegister? && next.generation == g.generation)
      && (next.WaitPark? ==> pc.WaitCheck? && g.active > 0 && next.generation == pc.generation)
      && (next.Closed? ==> pc.WaitCheck? && g.active == 0)
  {
  }

  lemma CountLess(live: set<nat>, id: nat)
    requires id in live
    ensures |live - {id}| == |live| - 1
  {
  }

  /** What the step of one lease leaves of the count, and when it owes a notification. */
  ghost predicate CountMoved(g: Gate, h: Gate, id: nat)
    requires id in g.leases
  {
    && h.active == |h.live|
    && (id in h.leases ==> (id in h.live <==> !h.leases[id].pc.DropNotify?)) && (id in h.live ==> id in h.leases)
    && (forall k :: k != id ==> (k in h.leases <==> k in g.leases) && (k in h.live <==> k in g.live))
    && (forall k :: k in h.leases && k != id ==> h.leases[k] == g.leases[k])
    && g.generation <= h.generation
    && (h.generation == g.generation ==> !g.leases[id].pc.DropNotify?)
    && (h.generation == g.generation && g.active > 0 && h.active == 0 ==> id in h.leases && h.leases[id].pc.DropNotify?)
  }

  lemma MoveCounts(g: Gate, desired: bool, id: nat, drop: bool, ready: bool)
    requires id in g.leases && CanMove(g, g.leases[id]) && g.active == |g.live| && (id in g.live <==> !g.leases[id].pc.DropNotify?)
    ensures CountMoved(g, Move(g, desired, id, drop, ready), id)
  {
    if g.leases[id].pc.DropCount? { CountLess(g.live, id); }
  }

  lemma MovedNotifies(g: Gate, h: Gate, id: nat)
    requires id in g.leases && CountMoved(g, h, id) && h.generation == g.generation
    ensures AboutToNotify(g) ==> AboutToNotify(h)
    ensures g.active > 0 && h.active == 0 ==> AboutToNotify(h)
  {
    if AboutToNotify(g) {
      var k :| k in g.leases && g.leases[k].pc.DropNotify?;
      assert k in h.leases && h.leases[k].pc.DropNotify?;
    }
  }

  lemma MovedWait(g: Gate, h: Gate, id: nat, pc: Pc)
    requires id in g.leases && CountMoved(g, h, id) && WaitOk(g, AboutToNotify(g), pc)
    ensures WaitOk(h, AboutToNotify(h), pc)
  {
    if h.generation == g.generation {
      MovedNotifies(g, h, id);
    }
  }

  lemma MovedIsCounted(s: State, h: Gate, id: nat)
    requires Counted(s) && id in s.gate.leases && CountMoved(s.gate, h, id)
    ensures Counted(s.(gate := h))
  {
    forall t | t in s.threads ensures WaitOk(h, AboutToNotify(h), s.threads[t]) {
      assert WaitOk(s.gate, AboutToNotify(s.gate), s.threads[t]);
      MovedWait(s.gate, h, id, s.threads[t]);
    }
  }

  lemma MoveIsCounted(s: State, id: nat, drop: bool, ready: bool)
    requires Counted(s) && id in s.gate.leases && CanMove(s.gate, s.gate.leases[id])
    ensures Counted(s.(gate := Move(s.gate, s.route.desired, id, drop, ready)))
  {
    MoveCounts(s.gate, s.route.desired, id, drop, ready);
    MovedIsCounted(s, Move(s.gate, s.route.desired, id, drop, ready), id);
  }

  lemma OpenIsCounted(s: State)
    requires Counted(s) && Gated(s)
    ensures Counted(s.(gate := Opened(s.gate)))
  {
    var g, h := s.gate, Opened(s.gate);
    if AboutToNotify(g) {
      var k :| k in g.leases && g.leases[k].pc.DropNotify?;
      assert k in h.leases && h.leases[k].pc.DropNotify?;
    }
    forall t | t in s.threads ensures WaitOk(h, AboutToNotify(h), s.threads[t]) {
      assert WaitOk(g, AboutToNotify(g), s.threads[t]);
    }
  }

  lemma NextIsCounted(s: State, a: Action)
    requires Counted(s) && Gated(s) && Can(s, a)
    ensures Counted(Next(s, a))
  {
    match a
    case ThreadStep(t, pick, ok, made) => RunIsCounted(s, t, pick, ok, made);
    case Open => OpenIsCounted(s);
    case LeaseStep(id, drop, ready) => MoveIsCounted(s, id, drop, ready);
    case _ =>
      forall t | t in Next(s, a).threads ensures WaitOk(s.gate, AboutToNotify(s.gate), Next(s, a).threads[t]) {
        if t != a.thread { assert WaitOk(s.gate, AboutToNotify(s.gate), s.threads[t]); }
      }
  }

  lemma {:induction false} ReachableIsCounted(states: seq<State>, actions: seq<Action>, n: nat)
    requires IsExecution(states, actions) && n < |states|
    ensures Counted(states[n])
  {
    if n > 0 {
      ReachableIsCounted(states, actions, n - 1);
      ReachableIsGated(states, actions, n - 1);
      NextIsCounted(states[n - 1], actions[n - 1]);
    }
  }

  /** The wait for direct connections succeeds only at an instant with no live lease. */
  lemma WaitEndsAtZero(states: seq<State>, actions: seq<Action>, n: nat, t: nat)
    requires IsExecution(states, actions) && n < |actions|
    requires t in states[n + 1].threads && states[n + 1].threads[t].Closed?
    requires !(t in states[n].threads && states[n].threads[t].Closed?)
    ensures states[n].gate.live == {}
    ensures forall id :: id in states[n].gate.leases ==> states[n].gate.leases[id].pc.DropNotify?
  {
    ReachableIsCounted(states, actions, n);
    ClosedAtZero(states[n], actions[n], t);
  }

  lemma ClosedAtZero(s: State, a: Action, t: nat)
    requires Can(s, a) && t in Next(s, a).threads && Next(s, a).threads[t].Closed?
    requires !(t in s.threads && s.threads[t].Closed?)
    ensures s.gate.active == 0
  {
    if a.ThreadStep? && a.thread == t {
      NextWaits(s.route, s.gate, s.threads[t], a.pick, a.ok, a.made);
    }
  }

  /** The wait misses no wakeup: while it is parked and not yet notified, a lease is live, or one is about to notify it. */
  lemma NoMissedWakeup(states: seq<State>, actions: seq<Action>, n: nat, t: nat)
    requires IsExecution(states, actions) && n < |states| && t in states[n].threads && states[n].threads[t].WaitPark?
    requires !CanRun(states[n].route, states[n].gate, states[n].threads[t], 0)
    ensures states[n].gate.live != {} || AboutToNotify(states[n].gate)
  {
    ReachableIsCounted(states, actions, n);
    assert WaitOk(states[n].gate, AboutToNotify(states[n].gate), states[n].threads[t]);
  }

  // ----- nobody is left asleep ------------------------------------------------------------------

  lemma ActDrained(r: Route, g: Gate, pc: Pc, pick: nat, ok: bool, made: Client)
    ensures Drained(ActPc(r, g, pc, pick, ok, made)) == if pc.EnableDrain? then g.wakers else Drained(pc) - {pick}
  {
  }

  lemma ActWakes(r: Route, g: Gate, t: nat, pc: Pc, pick: nat, ok: bool, made: Client, id: nat)
    requires id in g.leases
    requires g.leases[id].parked ==> id in g.wakers || id in Drained(pc)
    ensures var h := ActGate(r, g, t, pc, pick);
      id in h.leases && (h.leases[id].parked ==> id in h.wakers || id in Drained(ActPc(r, g, pc, pick, ok, made)))
  {
    ActOnLeases(r, g, t, pc, pick);
    ActOnTable(r, g, t, pc, pick);
    ActDrained(r, g, pc, pick, ok, made);
  }

  lemma RunForgetsNone(s: State, t: nat, pick: nat, ok: bool, made: Client)
    requires NoneForgotten(s) && t in s.threads && CanRun(s.route, s.gate, s.threads[t], pick)
    ensures NoneForgotten(Run(s, t, pick, ok, made))
  {
    var r, g, pc := s.route, s.gate, s.threads[t];
    var u := Run(s, t, pick, ok, made);
    ActOnLeases(r, g, t, pc, pick);
    forall id | id in u.gate.leases && u.gate.leases[id].parked ensures id in u.gate.wakers || AboutToWake(u, id) {
      if id in g.wakers || id in Drained(pc) {
        ActWakes(r, g, t, pc, pick, ok, made, id);
        if id in Drained(u.threads[t]) { assert AboutToWake(u, id); }
      } else {
        assert AboutToWake(s, id);
        var k :| k in s.threads && id in Drained(s.threads[k]);
        assert k in u.threads && id in Drained(u.threads[k]);
      }
    }
  }

  lemma MoveForgetsNone(s: State, id: nat, drop: bool, ready: bool)
    requires NoneForgotten(s) && id in s.gate.leases && CanMove(s.gate, s.gate.leases[id])
    ensures NoneForgotten(s.(gate := Move(s.gate, s.route.desired, id, drop, ready)))
  {
    var h := Move(s.gate, s.route.desired, id, drop, ready);
    var u := s.(gate := h);
    forall k | k in h.leases && h.leases[k].parked ensures k in h.wakers || AboutToWake(u, k) {
      if !(k in h.wakers) {
        assert k in s.gate.leases && s.gate.leases[k].parked && k !in s.gate.wakers;
        var t :| t in s.threads && k in Drained(s.threads[t]);
        assert t in u.threads && k in Drained(u.threads[t]);
      }
    }
  }

  lemma CallForgetsNone(s: State, t: nat, pc: Pc)
    requires NoneForgotten(s) && (t in s.threads ==> s.threads[t].Idle? || Exit(s.threads[t]))
    ensures NoneForgotten(s.(threads := s.threads[t := pc]))
  {
    var u := s.(threads := s.threads[t := pc]);
    forall id | id in u.gate.leases && u.gate.leases[id].parked ensures id in u.gate.wakers || AboutToWake(u, id) {
      if id !in s.gate.wakers {
        var k :| k in s.threads && id in Drained(s.threads[k]);
        assert k in u.threads && id in Drained(u.threads[k]);
      }
    }
  }

  lemma OpenForgetsNone(s: State)
    requires NoneForgotten(s)
    ensures NoneForgotten(s.(gate := Opened(s.gate)))
  {
    var u := s.(gate := Opened(s.gate));
    forall id | id in u.gate.leases && u.gate.leases[id].parked ensures id in u.gate.wakers || AboutToWake(u, id) {
      if id !in s.gate.wakers {
        var k :| k in s.threads && id in Drained(s.threads[k]);
        assert k in u.threads && id in Drained(u.threads[k]);
      }
    }
  }

  lemma NextForgetsNone(s: State, a: Action)
    requires NoneForgotten(s) && Can(s, a)
    ensures NoneForgotten(Next(s, a))
  {
    match a
    case Call(t, entry) => CallForgetsNone(s, t, entry);
    case ThreadStep(t, pick, ok, made) => RunForgetsNone(s, t, pick, ok, made);
    case Abandon(t) => CallForgetsNone(s, t, Idle);
    case Open => OpenForgetsNone(s);
    case LeaseStep(id, drop, ready) => MoveForgetsNone(s, id, drop, ready);
  }

  lemma {:induction false} ReachableForgetsNone(states: seq<State>, actions: seq<Action>, n: nat)
    requires IsExecution(states, actions) && n < |states|
    ensures NoneForgotten(states[n])
  {
    if n > 0 {
      ReachableForgetsNone(states, actions, n - 1);
      NextForgetsNone(states[n - 1], actions[n - 1]);
    }
  }

  /**
   Every parked waker was drained and woken: when the waker lock is free and no enable is still waking,
   a lease whose waker has not been woken is of the current epoch.
   */
  lemma NobodyLeftAsleep(states: seq<State>, actions: seq<Action>, n: nat, id: nat)
    requires IsExecution(states, actions) && n < |states| && states[n].gate.waker == Free
    requires forall t :: t in states[n].threads ==> !states[n].threads[t].EnableWake?
    requires id in states[n].gate.leases && states[n].gate.leases[id].parked
    ensures id in states[n].gate.wakers && states[n].gate.leases[id].epoch == states[n].gate.epoch
  {
    ReachableForgetsNone(states, actions, n);
    ReachableIsGated(states, actions, n);
    assert id in states[n].gate.wakers || AboutToWake(states[n], id);
  }
}
