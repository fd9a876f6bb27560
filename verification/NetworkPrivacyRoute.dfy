/** The route and the dormancy mode under every interleaving: what holds while the slot lock is free. */
module NetworkPrivacyRoute {
  import opened Common
  import opened NetworkPrivacy

  predicate InSlot(pc: Pc) {
    pc.EnableClear? || pc.EnableUnlock?
    || pc.DisableDesire? || pc.DisableStatus? || pc.DisableClear? || pc.DisableUnlock?
    || pc.PublishCheck? || pc.PublishRead? || pc.PublishApply? || pc.PublishInstall? || pc.PublishReady? || pc.PublishUnlock?
    || pc.FailClear? || pc.FailCheck? || pc.FailStatus? || pc.FailUnlock?
  }

  predicate InDormancy(pc: Pc) { pc.DormantStore? || pc.DormantRead? || pc.DormantApply? || pc.DormantUnlock? }

  /** Past the check under the slot lock that Tor is still desired, and before what it licenses is done. */
  predicate Licensed(pc: Pc) {
    pc.PublishRead? || pc.PublishApply? || pc.PublishInstall? || pc.PublishReady? || pc.FailStatus?
  }

  /** A request for a mode has been recorded and is still to be applied. */
  predicate Applying(pc: Pc) { pc.DormantRead? || pc.DormantApply? }

  /** The published status or client is left over from before the route went direct. */
  predicate Stale(r: Route) { !r.desired && (r.status == Ready || r.status == Failed || r.client.Some?) }

  /** A call is in a critical section exactly when it owns the lock, and what it learned there still holds. */
  predicate Local(r: Route, t: nat, pc: Pc) {
    && OwnsSlot(r, t, pc)
    && OwnsDormancy(r, t, pc)
    && (Licensed(pc) ==> r.desired)
    && (pc.DormantApply? ==> pc.mode == r.intent)
  }

  predicate OwnsSlot(r: Route, t: nat, pc: Pc) { InSlot(pc) <==> r.slot == Some(t) }

  predicate OwnsDormancy(r: Route, t: nat, pc: Pc) { InDormancy(pc) <==> r.dormancy == Some(t) }

  /** What the holder of the slot has still to overwrite. */
  predicate HolderClears(r: Route, pc: Pc) {
    && (Stale(r) ==> pc.DisableStatus? || pc.DisableClear?)
    && (pc.DisableClear? ==> r.status != Ready && r.status != Failed)
  }

  /** A mode read for a client that is being installed is the recorded one, unless a newer request is being applied. */
  predicate ModeFits(r: Route, pc: Pc) {
    && (pc.PublishApply? ==> pc.mode == r.intent)
    && (pc.PublishInstall? ==> pc.client.mode == r.intent)
  }

  ghost predicate SomeoneApplies(s: State) {
    s.route.dormancy.Some? && s.route.dormancy.value in s.threads && Applying(s.threads[s.route.dormancy.value])
  }

  ghost predicate Safe(s: State) {
    && (forall t :: t in s.threads ==> Local(s.route, t, s.threads[t]))
    && (s.route.slot.Some? ==> s.route.slot.value in s.threads)
    && (s.route.dormancy.Some? ==> s.route.dormancy.value in s.threads)
    && (s.route.slot.None? ==> !Stale(s.route))
    && (s.route.slot.Some? ==> HolderClears(s.route, s.threads[s.route.slot.value]))
    && (!SomeoneApplies(s) ==>
          && (s.route.client.Some? ==> s.route.client.value.mode == s.route.intent)
          && (s.route.slot.Some? ==> ModeFits(s.route, s.threads[s.route.slot.value])))
  }

  // ----- one step -----------------------------------------------------------------------------

  /** A lock changes hands only from free to the call that steps, or from that call to free. */
  predicate Handed(before: Option<nat>, after: Option<nat>, t: nat) {
    after == before || (before.None? && after == Some(t)) || (before == Some(t) && after.None?)
  }

  /** The call that steps keeps its own promises. */
  lemma ActIsLocal(r: Route, g: Gate, t: nat, pc: Pc, pick: nat, ok: bool, made: Client)
    requires Local(r, t, pc) && CanRun(r, g, pc, pick)
    ensures Local(ActRoute(r, t, pc), t, ActPc(r, g, pc, pick, ok, made))
  {
    ActInSlot(r, g, pc, pick, ok, made);
    ActInDormancy(r, g, pc, pick, ok, made);
    ActLearns(r, g, pc, pick, ok, made);
    ActLocks(r, t, pc);
  }

  lemma ActInSlot(r: Route, g: Gate, pc: Pc, pick: nat, ok: bool, made: Client)
    ensures InSlot(ActPc(r, g, pc, pick, ok, made)) <==> TakesSlot(pc) || (InSlot(pc) && !LeavesSlot(pc))
  {
    if InSlot(pc) || TakesSlot(pc) {
      ActStaysInSlot(r, g, pc, pick, ok, made);
    }
  }

  lemma ActStaysInSlot(r: Route, g: Gate, pc: Pc, pick: nat, ok: bool, made: Client)
    requires InSlot(pc) || TakesSlot(pc)
    ensures InSlot(ActPc(r, g, pc, pick, ok, made)) <==> !LeavesSlot(pc)
  {
  }

  lemma ActInDormancy(r: Route, g: Gate, pc: Pc, pick: nat, ok: bool, made: Client)
    ensures InDormancy(ActPc(r, g, pc, pick, ok, made)) <==> pc.DormantLock? || (InDormancy(pc) && !pc.DormantUnlock?)
  {
  }

  /** What a call knows because it just read it. */
  lemma ActLearns(r: Route, g: Gate, pc: Pc, pick: nat, ok: bool, made: Client)
    ensures var next := ActPc(r, g, pc, pick, ok, made);
      && (Licensed(next) ==> Licensed(pc) || r.desired)
      && (next.DormantApply? ==> pc.DormantRead? && next.mode == r.intent)
  {
  }

  lemma ActLocks(r: Route, t: nat, pc: Pc)
    ensures var q := ActRoute(r, t, pc);
      && q.slot == (if TakesSlot(pc) then Some(t) else if LeavesSlot(pc) then None else r.slot)
      && q.dormancy == (if pc.DormantLock? then Some(t) else if pc.DormantUnlock? then None else r.dormancy)
      && (q.desired != r.desired ==> if r.desired then pc.DisableDesire? else pc.EnableDesire? || pc.BootDesire?)
      && (q.intent != r.intent ==> pc.DormantStore?)
  {
  }

  /** Without a lock, a step changes nothing that the holder of the lock relies on. */
  lemma ActRespectsLocks(r: Route, g: Gate, t: nat, pc: Pc, pick: nat)
    requires Local(r, t, pc) && CanRun(r, g, pc, pick)
    ensures var q := ActRoute(r, t, pc);
      && Handed(r.slot, q.slot, t) && Handed(r.dormancy, q.dormancy, t)
      && (r.desired && !q.desired ==> r.slot == Some(t))
      && (q.intent != r.intent ==> r.dormancy == Some(t))
  {
    ActLocks(r, t, pc);
  }

  lemma OthersStayLocal(r: Route, g: Gate, t: nat, pc: Pc, pick: nat, u: nat, other: Pc)
    requires Local(r, t, pc) && CanRun(r, g, pc, pick) && u != t && Local(r, u, other)
    ensures Local(ActRoute(r, t, pc), u, other)
  {
    ActRespectsLocks(r, g, t, pc, pick);
  }

  /** A step that does not hold the slot leaves nothing stale that was not. */
  lemma ActOutside(r: Route, t: nat, pc: Pc)
    requires !InSlot(pc)
    ensures var q := ActRoute(r, t, pc); Stale(q) ==> Stale(r) && (q.status == Ready || q.status == Failed ==> q.status == r.status)
  {
  }

  /** What a step does to a stale status or client, when its call holds the slot and when it does not. */
  lemma ActClears(r: Route, g: Gate, t: nat, pc: Pc, pick: nat, ok: bool, made: Client)
    requires Local(r, t, pc) && CanRun(r, g, pc, pick)
    requires r.slot.None? ==> !Stale(r)
    requires r.slot == Some(t) ==> HolderClears(r, pc)
    ensures var q := ActRoute(r, t, pc);
      && (q.slot.None? ==> !Stale(q))
      && (q.slot == Some(t) ==> HolderClears(q, ActPc(r, g, pc, pick, ok, made)))
  {
    if InSlot(pc) {
      HolderActs(r, g, t, pc, pick, ok, made);
    } else {
      ActOutside(r, t, pc);
    }
  }

  lemma HolderActs(r: Route, g: Gate, t: nat, pc: Pc, pick: nat, ok: bool, made: Client)
    requires InSlot(pc) && (Licensed(pc) ==> r.desired) && HolderClears(r, pc)
    ensures HolderClears(ActRoute(r, t, pc), ActPc(r, g, pc, pick, ok, made))
    ensures LeavesSlot(pc) ==> !Stale(ActRoute(r, t, pc))
  {
  }

  lemma OtherHolderClears(r: Route, t: nat, pc: Pc, held: Pc)
    requires !InSlot(pc) && HolderClears(r, held)
    ensures HolderClears(ActRoute(r, t, pc), held)
  {
  }

  /** The installed client's mode, and that of a client being installed, after a step that leaves no request unapplied. */
  ghost predicate ModesFit(r: Route, holder: Pc) {
    && (r.client.Some? ==> r.client.value.mode == r.intent)
    && (r.slot.Some? ==> ModeFits(r, holder))
  }

  lemma ActModes(r: Route, g: Gate, pc: Pc, pick: nat, ok: bool, made: Client)
    ensures var next := ActPc(r, g, pc, pick, ok, made);
      && (next.PublishApply? ==> pc.PublishRead? && next.mode == r.intent)
      && (next.PublishInstall? ==> pc.PublishApply? && next.client.mode == pc.mode)
      && (Applying(next) ==> pc.DormantStore? || pc.DormantRead?)
      && (pc.DormantStore? || pc.DormantRead? ==> Applying(next))
  {
  }

  lemma ActClient(r: Route, t: nat, pc: Pc)
    requires !InDormancy(pc)
    ensures var q := ActRoute(r, t, pc);
      && q.intent == r.intent
      && q.client == if ClearsClient(pc) then None else if pc.PublishInstall? then Some(pc.client) else r.client
  {
  }

  lemma DormantFits(r: Route, t: nat, pc: Pc, holder: Pc)
    requires InDormancy(pc) && (pc.DormantApply? ==> pc.mode == r.intent)
    requires !Applying(pc) ==> ModesFit(r, holder)
    requires pc.DormantApply? ==> r.slot.None?
    ensures pc.DormantApply? || pc.DormantUnlock? ==> ModesFit(ActRoute(r, t, pc), holder)
  {
  }

  lemma ActFits(r: Route, g: Gate, t: nat, pc: Pc, pick: nat, ok: bool, made: Client, holder: Pc)
    requires Local(r, t, pc) && CanRun(r, g, pc, pick) && (r.slot == Some(t) ==> holder == pc)
    requires r.dormancy != Some(t) ==> ModesFit(r, holder)
    requires r.dormancy == Some(t) && !Applying(pc) ==> ModesFit(r, holder)
    ensures var q, next := ActRoute(r, t, pc), ActPc(r, g, pc, pick, ok, made);
      !Applying(next) ==> ModesFit(q, if q.slot == Some(t) then next else holder)
  {
    ActModes(r, g, pc, pick, ok, made);
    ActLocks(r, t, pc);
    if InDormancy(pc) {
      DormantFits(r, t, pc, holder);
    } else {
      ActClient(r, t, pc);
    }
  }

  lemma RunIsSafe(s: State, t: nat, pick: nat, ok: bool, made: Client)
    requires Safe(s) && t in s.threads && CanRun(s.route, s.gate, s.threads[t], pick)
    ensures Safe(Run(s, t, pick, ok, made))
  {
    var r, g, pc := s.route, s.gate, s.threads[t];
    var u := Run(s, t, pick, ok, made);
    ActIsLocal(r, g, t, pc, pick, ok, made);
    ActRespectsLocks(r, g, t, pc, pick);
    forall k | k in u.threads ensures Local(u.route, k, u.threads[k]) {
      if k != t { OthersStayLocal(r, g, t, pc, pick, k, s.threads[k]); }
    }
    ActClears(r, g, t, pc, pick, ok, made);
    if r.slot.Some? && r.slot.value != t {
      OtherHolderClears(r, t, pc, s.threads[r.slot.value]);
    }
    RunFits(s, t, pick, ok, made);
  }

  lemma RunFits(s: State, t: nat, pick: nat, ok: bool, made: Client)
    requires Safe(s) && t in s.threads && CanRun(s.route, s.gate, s.threads[t], pick)
    ensures var u := Run(s, t, pick, ok, made);
      !SomeoneApplies(u) ==>
        && (u.route.client.Some? ==> u.route.client.value.mode == u.route.intent)
        && (u.route.slot.Some? ==> ModeFits(u.route, u.threads[u.route.slot.value]))
  {
    var r, g, pc := s.route, s.gate, s.threads[t];
    var u := Run(s, t, pick, ok, made);
    ActIsLocal(r, g, t, pc, pick, ok, made);
    ActRespectsLocks(r, g, t, pc, pick);
    if !SomeoneApplies(u) {
      var holder := if r.slot.Some? then s.threads[r.slot.value] else pc;
      if r.dormancy != Some(t) {
        assert !SomeoneApplies(s);
      }
      ActFits(r, g, t, pc, pick, ok, made, holder);
    }
  }

  lemma CallIsSafe(s: State, t: nat, pc: Pc)
    requires Safe(s) && (t in s.threads ==> s.threads[t].Idle? || Exit(s.threads[t])) && (Entry(pc) || pc.Idle?)
    ensures Safe(s.(threads := s.threads[t := pc]))
  {
    var u := s.(threads := s.threads[t := pc]);
    CallOwnsNothing(s, t);
    EntryIsLocal(s.route, t, pc);
    forall k | k in u.threads ensures Local(u.route, k, u.threads[k]) {
      if k != t { assert Local(s.route, k, s.threads[k]); }
    }
    assert SomeoneApplies(u) == SomeoneApplies(s);
  }

  lemma EntryIsLocal(r: Route, t: nat, pc: Pc)
    requires r.slot != Some(t) && r.dormancy != Some(t) && (Entry(pc) || pc.Idle?)
    ensures Local(r, t, pc)
  {
  }

  lemma CallOwnsNothing(s: State, t: nat)
    requires Safe(s) && (t in s.threads ==> s.threads[t].Idle? || Exit(s.threads[t]))
    ensures s.route.slot != Some(t) && s.route.dormancy != Some(t)
  {
    if t in s.threads { assert Local(s.route, t, s.threads[t]); }
  }

  lemma NextIsSafe(s: State, a: Action)
    requires Safe(s) && Can(s, a)
    ensures Safe(Next(s, a))
  {
    match a
    case Call(t, entry) => CallIsSafe(s, t, entry);
    case ThreadStep(t, pick, ok, made) => RunIsSafe(s, t, pick, ok, made);
    case Abandon(t) => CallIsSafe(s, t, Idle);
    case _ => assert Next(s, a).route == s.route && Next(s, a).threads == s.threads;
  }

  /** Any number of calls and connections, interleaved in any order. */
  ghost predicate IsExecution(states: seq<State>, actions: seq<Action>) {
    && |states| == |actions| + 1 && states[0] == START
    && forall n :: 0 <= n < |actions| ==> Can(states[n], actions[n]) && states[n + 1] == Next(states[n], actions[n])
  }

  lemma {:induction false} ReachableIsSafe(states: seq<State>, actions: seq<Action>, n: nat)
    requires IsExecution(states, actions) && n < |states|
    ensures Safe(states[n])
  {
    if n > 0 {
      ReachableIsSafe(states, actions, n - 1);
      NextIsSafe(states[n - 1], actions[n - 1]);
    }
  }

  /**
   Under every interleaving of enable, disable, publish and failure: whenever the slot lock is free, a
   Ready or Failed status or an installed client implies that Tor is desired.
   */
  lemma FreeSlotIsConsistent(states: seq<State>, actions: seq<Action>, n: nat)
    requires IsExecution(states, actions) && n < |states| && states[n].route.slot.None?
    ensures states[n].route.status == Ready || states[n].route.status == Failed || states[n].route.client.Some? ==> states[n].route.desired
  {
    ReachableIsSafe(states, actions, n);
  }

  /**
   No dormancy request is lost: whenever no `set_tor_dormant` call is between its two lock operations and
   no call holds the slot, an installed client's last applied mode is the recorded intent.
   */
  lemma DormancyIsNotLost(states: seq<State>, actions: seq<Action>, n: nat)
    requires IsExecution(states, actions) && n < |states|
    requires states[n].route.slot.None? && states[n].route.dormancy.None? && states[n].route.client.Some?
    ensures states[n].route.client.value.mode == states[n].route.intent
  {
    ReachableIsSafe(states, actions, n);
  }

  // ----- what a route reader returns ----------------------------------------------------------

  predicate HasRead(pc: Pc) { pc.RouteStatus? || pc.Routed? }

  ghost predicate IsReader(s: State, t: nat) { t in s.threads && HasRead(s.threads[t]) }

  /** A reader past its read of the intent keeps what it read, until it is gone. */
  lemma ReaderStep(s: State, a: Action, t: nat)
    requires Can(s, a) && IsReader(Next(s, a), t)
    ensures t in s.threads
    ensures IsReader(s, t) ==> s.threads[t].desired == Next(s, a).threads[t].desired
    ensures !IsReader(s, t) ==> s.threads[t].RouteDesired? && Next(s, a).threads[t].desired == s.route.desired
  {
  }

  /** The intent a reader acts on is one the process had at some instant of the call. */
  lemma {:induction false} IntentWasRead(states: seq<State>, actions: seq<Action>, n: nat, t: nat) returns (m: nat)
    requires IsExecution(states, actions) && n < |states| && IsReader(states[n], t)
    ensures m < n && t in states[m].threads && states[m].threads[t].RouteDesired?
    ensures states[m].route.desired == states[n].threads[t].desired
    ensures forall k :: m < k <= n ==> IsReader(states[k], t)
  {
    m := n - 1;
    ReaderStep(states[m], actions[m], t);
    if IsReader(states[m], t) {
      m := IntentWasRead(states, actions, m, t);
    }
  }

  lemma RouteIsDecided(s: State, a: Action, t: nat)
    requires Can(s, a) && t in Next(s, a).threads && Next(s, a).threads[t].Routed?
    requires t in s.threads && s.threads[t].Routed? ==> Decided(s.threads[t])
    ensures Decided(Next(s, a).threads[t])
  {
  }

  /** A direct route was decided on an intent that was off; a client is handed out only when one was found under a Ready status. */
  predicate Decided(pc: Pc)
    requires pc.Routed?
  {
    && (pc.route == Ok(RouteDirect) <==> !pc.desired)
    && (pc.route == Ok(TorShared) || pc.route == Ok(TorIsolated) ==> pc.desired && pc.status == Ready && pc.found.Some?)
    && (pc.route.Err? ==> pc.desired)
  }

  lemma {:induction false} RoutesAreDecided(states: seq<State>, actions: seq<Action>, n: nat, t: nat)
    requires IsExecution(states, actions) && n < |states| && t in states[n].threads && states[n].threads[t].Routed?
    ensures Decided(states[n].threads[t])
  {
    if n > 0 {
      if t in states[n - 1].threads && states[n - 1].threads[t].Routed? {
        RoutesAreDecided(states, actions, n - 1, t);
      }
      RouteIsDecided(states[n - 1], actions[n - 1], t);
    }
  }

  /** `tor_client_for_route` returns the direct route only if, at some instant of that very call, Tor was not desired. */
  lemma DirectOnlyWhenNotDesired(states: seq<State>, actions: seq<Action>, n: nat, t: nat) returns (m: nat)
    requires IsExecution(states, actions) && n < |states| && t in states[n].threads
    requires states[n].threads[t].Routed? && states[n].threads[t].route == Ok(RouteDirect)
    ensures m < n && !states[m].route.desired && t in states[m].threads && states[m].threads[t].RouteDesired?
    ensures forall k :: m < k <= n ==> IsReader(states[k], t)
  {
    RoutesAreDecided(states, actions, n, t);
    m := IntentWasRead(states, actions, n, t);
  }
}
