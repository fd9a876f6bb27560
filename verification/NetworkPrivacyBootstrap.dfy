/** Which end of a bootstrap leads where, under every interleaving: who installs a client, and who stores Ready or Failed. */
module NetworkPrivacyBootstrap {
  import opened Common
  import opened NetworkPrivacy
  import opened NetworkPrivacyRoute

  predicate Publishing(pc: Pc) {
    pc.PublishLock? || pc.PublishCheck? || pc.PublishRead? || pc.PublishApply? || pc.PublishInstall? || pc.PublishReady? || pc.PublishUnlock?
  }

  predicate Failing(pc: Pc) { pc.FailLock? || pc.FailClear? || pc.FailCheck? || pc.FailStatus? || pc.FailUnlock? }

  /** The client that a publishing call has in hand. */
  function InHand(pc: Pc): Option<Client> {
    match pc
    case PublishLock(client) => Some(client)
    case PublishCheck(client) => Some(client)
    case PublishRead(client) => Some(client)
    case PublishApply(client, _) => Some(client)
    case PublishInstall(client) => Some(client)
    case _ => None
  }

  ghost predicate OwnStep(a: Action, t: nat) { a.ThreadStep? && a.thread == t }

  /** The awaited bootstrap of this call ends here, in this way. */
  ghost predicate BootEnds(s: State, a: Action, t: nat, ok: bool) {
    OwnStep(a, t) && a.ok == ok && t in s.threads && s.threads[t].Booting?
  }

  // ----- where a publishing or failing call comes from ----------------------------------------------

  lemma NextPublishing(r: Route, g: Gate, pc: Pc, pick: nat, ok: bool, made: Client)
    ensures var next := ActPc(r, g, pc, pick, ok, made);
      && (Publishing(next) ==> (Publishing(pc) && !pc.PublishUnlock?) || (pc.Booting? && ok && next == PublishLock(made)))
      && (Publishing(pc) && InHand(next).Some? ==> InHand(pc).Some? && InHand(next).value.id == InHand(pc).value.id)
  {
  }

  lemma NextFailing(r: Route, g: Gate, pc: Pc, pick: nat, ok: bool, made: Client)
    ensures var next := ActPc(r, g, pc, pick, ok, made);
      Failing(next) ==> (Failing(pc) && !pc.FailUnlock?) || (pc.Booting? && !ok && next == FailLock)
  {
  }

  lemma PublishStep(s: State, a: Action, t: nat)
    requires Can(s, a) && t in Next(s, a).threads && Publishing(Next(s, a).threads[t])
    ensures t in s.threads
    ensures Publishing(s.threads[t]) || (BootEnds(s, a, t, true) && Next(s, a).threads[t] == PublishLock(a.made))
    ensures Publishing(s.threads[t]) && InHand(Next(s, a).threads[t]).Some? ==>
      InHand(s.threads[t]).Some? && InHand(Next(s, a).threads[t]).value.id == InHand(s.threads[t]).value.id
  {
    if OwnStep(a, t) {
      NextPublishing(s.route, s.gate, s.threads[t], a.pick, a.ok, a.made);
    }
  }

  lemma FailStep(s: State, a: Action, t: nat)
    requires Can(s, a) && t in Next(s, a).threads && Failing(Next(s, a).threads[t])
    ensures t in s.threads && (Failing(s.threads[t]) || BootEnds(s, a, t, false))
  {
    if OwnStep(a, t) {
      NextFailing(s.route, s.gate, s.threads[t], a.pick, a.ok, a.made);
    }
  }

  /** The bootstrap of call `t` ended well in step `m`, and the call has been publishing until state `n`. */
  ghost predicate Succeeded(states: seq<State>, actions: seq<Action>, t: nat, m: nat, n: nat) {
    && |states| == |actions| + 1 && m < n < |states| && BootEnds(states[m], actions[m], t, true)
    && forall k :: m < k <= n ==> t in states[k].threads && Publishing(states[k].threads[t])
  }

  /** The bootstrap of call `t` failed in step `m`, and the call has been recording that until state `n`. */
  ghost predicate HasFailed(states: seq<State>, actions: seq<Action>, t: nat, m: nat, n: nat) {
    && |states| == |actions| + 1 && m < n < |states| && BootEnds(states[m], actions[m], t, false)
    && forall k :: m < k <= n ==> t in states[k].threads && Failing(states[k].threads[t])
  }

  /** A call that publishes had its bootstrap end well, and has published ever since. */
  lemma {:induction false} PublishOrigin(states: seq<State>, actions: seq<Action>, n: nat, t: nat) returns (m: nat)
    requires IsExecution(states, actions) && n < |states| && t in states[n].threads && Publishing(states[n].threads[t])
    ensures Succeeded(states, actions, t, m, n)
  {
    m := n - 1;
    PublishStep(states[m], actions[m], t);
    if Publishing(states[m].threads[t]) {
      m := PublishOrigin(states, actions, m, t);
    }
  }

  /** The client that such a call has in hand is the one that was made for it. */
  lemma {:induction false} InHandWasMade(states: seq<State>, actions: seq<Action>, t: nat, m: nat, n: nat)
    requires IsExecution(states, actions) && Succeeded(states, actions, t, m, n) && InHand(states[n].threads[t]).Some?
    ensures InHand(states[n].threads[t]).value.id == actions[m].made.id
  {
    var k := n - 1;
    PublishStep(states[k], actions[k], t);
    if m < k {
      InHandWasMade(states, actions, t, m, k);
    }
  }

  /** A call that stores a failure had its bootstrap fail, and has been at it ever since. */
  lemma {:induction false} FailOrigin(states: seq<State>, actions: seq<Action>, n: nat, t: nat) returns (m: nat)
    requires IsExecution(states, actions) && n < |states| && t in states[n].threads && Failing(states[n].threads[t])
    ensures HasFailed(states, actions, t, m, n)
  {
    m := n - 1;
    FailStep(states[m], actions[m], t);
    if Failing(states[m].threads[t]) {
      m := FailOrigin(states, actions, m, t);
    }
  }

  // ----- what only such a call writes ---------------------------------------------------------------

  ghost predicate StepsAt(s: State, a: Action, pc: Pc) {
    a.ThreadStep? && a.thread in s.threads && s.threads[a.thread] == pc
  }

  lemma ClientStep(r: Route, t: nat, pc: Pc)
    requires ActRoute(r, t, pc).client.Some?
    ensures || (pc.PublishInstall? && ActRoute(r, t, pc).client == Some(pc.client))
            || (r.client.Some? && ActRoute(r, t, pc).client.value.id == r.client.value.id)
  {
  }

  lemma ClientChange(s: State, a: Action)
    requires Can(s, a) && Next(s, a).route.client.Some?
    ensures || (a.ThreadStep? && a.thread in s.threads && s.threads[a.thread].PublishInstall?
                && Next(s, a).route.client == Some(s.threads[a.thread].client))
            || (s.route.client.Some? && Next(s, a).route.client.value.id == s.route.client.value.id)
  {
    if a.ThreadStep? {
      ClientStep(s.route, a.thread, s.threads[a.thread]);
    }
  }

  /** An installed client is, up to its mode, the one that a bootstrap of some call made. */
  lemma {:induction false} ClientWasMade(states: seq<State>, actions: seq<Action>, n: nat) returns (m: nat, t: nat)
    requires IsExecution(states, actions) && n < |states| && states[n].route.client.Some?
    ensures m < n && BootEnds(states[m], actions[m], t, true) && actions[m].made.id == states[n].route.client.value.id
  {
    var k := n - 1;
    ClientChange(states[k], actions[k]);
    if actions[k].ThreadStep? && actions[k].thread in states[k].threads && states[k].threads[actions[k].thread].PublishInstall?
       && states[n].route.client == Some(states[k].threads[actions[k].thread].client)
    {
      t := actions[k].thread;
      m := PublishOrigin(states, actions, k, t);
      InHandWasMade(states, actions, t, m, k);
    } else {
      m, t := ClientWasMade(states, actions, k);
    }
  }

  lemma StatusStep(r: Route, t: nat, pc: Pc)
    ensures var q := ActRoute(r, t, pc);
      && (q.status != r.status && q.status == Ready ==> pc.PublishReady?)
      && (q.status != r.status && q.status == Failed ==> pc.FailStatus?)
      && (q.status != r.status && q.status == Bootstrapping ==> pc.EnableStatus? || pc.BootStatus?)
      && (q.status != r.status && q.status == Direct ==> pc.DisableStatus?)
      && (pc.PublishReady? ==> q.status == Ready) && (pc.FailStatus? ==> q.status == Failed)
      && (pc.EnableStatus? || pc.BootStatus? ==> q.status == Bootstrapping) && (pc.DisableStatus? ==> q.status == Direct)
  {
  }

  /** Ready is stored only by a call whose bootstrap ended well, while Tor is desired. */
  lemma ReadyWasBooted(states: seq<State>, actions: seq<Action>, n: nat) returns (m: nat)
    requires IsExecution(states, actions) && n < |actions| && states[n].route.status != Ready && states[n + 1].route.status == Ready
    ensures StepsAt(states[n], actions[n], PublishReady) && states[n].route.desired
    ensures Succeeded(states, actions, actions[n].thread, m, n)
  {
    var a := actions[n];
    ReachableIsSafe(states, actions, n);
    StatusStep(states[n].route, a.thread, states[n].threads[a.thread]);
    assert Local(states[n].route, a.thread, states[n].threads[a.thread]);
    m := PublishOrigin(states, actions, n, a.thread);
  }

  /** Failed is stored only by a call whose bootstrap failed, while Tor is desired. */
  lemma FailedWasBooted(states: seq<State>, actions: seq<Action>, n: nat) returns (m: nat)
    requires IsExecution(states, actions) && n < |actions| && states[n].route.status != Failed && states[n + 1].route.status == Failed
    ensures StepsAt(states[n], actions[n], FailStatus) && states[n].route.desired
    ensures HasFailed(states, actions, actions[n].thread, m, n)
  {
    var a := actions[n];
    ReachableIsSafe(states, actions, n);
    StatusStep(states[n].route, a.thread, states[n].threads[a.thread]);
    assert Local(states[n].route, a.thread, states[n].threads[a.thread]);
    m := FailOrigin(states, actions, n, a.thread);
  }

  // ----- while a call holds the slot -----------------------------------------------------------------

  ghost predicate StoresBootstrapping(s: State, a: Action) { StepsAt(s, a, EnableStatus) || StepsAt(s, a, BootStatus) }

  /** Another call's step, or a lease's, leaves the client to who holds the slot, and the status too, but that it may store Bootstrapping. */
  lemma OthersKeep(s: State, a: Action, t: nat)
    requires Safe(s) && Can(s, a) && s.route.slot == Some(t) && !OwnStep(a, t)
    ensures Next(s, a).route.client == s.route.client
    ensures Next(s, a).route.status == if StoresBootstrapping(s, a) then Bootstrapping else s.route.status
  {
    if a.ThreadStep? {
      var pc := s.threads[a.thread];
      assert Local(s.route, a.thread, pc);
      OtherStep(s.route, s.gate, a.thread, pc, a.pick, t);
    }
  }

  lemma OtherStep(r: Route, g: Gate, u: nat, pc: Pc, pick: nat, t: nat)
    requires Local(r, u, pc) && CanRun(r, g, pc, pick) && r.slot == Some(t) && u != t
    ensures ActRoute(r, u, pc).client == r.client
    ensures ActRoute(r, u, pc).status == if pc.EnableStatus? || pc.BootStatus? then Bootstrapping else r.status
  {
  }

  lemma HoldsSlot(states: seq<State>, actions: seq<Action>, n: nat, t: nat)
    requires IsExecution(states, actions) && n < |states| && t in states[n].threads && InSlot(states[n].threads[t])
    ensures Safe(states[n]) && states[n].route.slot == Some(t)
  {
    ReachableIsSafe(states, actions, n);
    assert Local(states[n].route, t, states[n].threads[t]);
  }

  /** Since step `q` and before state `n`, some call that starts over has stored Bootstrapping. */
  ghost predicate StartedOver(states: seq<State>, actions: seq<Action>, q: nat, n: nat)
    requires n < |states| && |states| == |actions| + 1
  {
    exists j :: q < j < n && StoresBootstrapping(states[j], actions[j])
  }

  /** Step `p` of call `t` is the one at which it checks, in the slot, whether Tor is still desired. */
  ghost predicate Checks(s: State, a: Action, t: nat) {
    OwnStep(a, t) && t in s.threads && (s.threads[t].PublishCheck? || s.threads[t].FailCheck?)
  }

  ghost predicate Untouched(actions: seq<Action>, t: nat, p: nat, n: nat)
    requires n <= |actions|
  {
    forall k :: p < k < n ==> !OwnStep(actions[k], t)
  }

  // ----- the call whose bootstrap ended well -----------------------------------------------------------

  /** Past its check, on its way to install its client or to store Ready. */
  predicate Licenses(pc: Pc) { pc.PublishRead? || pc.PublishApply? || pc.PublishInstall? || pc.PublishReady? }

  lemma NextLicensed(r: Route, g: Gate, t: nat, pc: Pc, pick: nat, ok: bool, made: Client)
    ensures var next, q := ActPc(r, g, pc, pick, ok, made), ActRoute(r, t, pc);
      && (Licenses(next) ==> (pc.PublishCheck? && r.desired) || Licenses(pc))
      && (next.PublishReady? ==> pc.PublishInstall? && q.client == Some(pc.client))
      && (next.PublishUnlock? ==> (pc.PublishCheck? && !r.desired) || (pc.PublishReady? && q.client == r.client && q.status == Ready))
      && (next.PublishUnlock? ==> !Licenses(pc) || pc.PublishReady?)
  {
  }

  /** Such a call read that Tor was desired when it made its check. */
  lemma {:induction false} CheckedOn(states: seq<State>, actions: seq<Action>, t: nat, m: nat, n: nat) returns (p: nat)
    requires IsExecution(states, actions) && Succeeded(states, actions, t, m, n) && Licenses(states[n].threads[t])
    ensures m < p < n && Checks(states[p], actions[p], t) && states[p].route.desired
  {
    p := n - 1;
    var s, a := states[p], actions[p];
    PublishStep(s, a, t);
    if OwnStep(a, t) {
      NextLicensed(s.route, s.gate, t, s.threads[t], a.pick, a.ok, a.made);
    }
    if Licenses(s.threads[t]) {
      p := CheckedOn(states, actions, t, m, p);
    }
  }

  /** About to store Ready, it has installed the client that its bootstrap made. */
  lemma {:induction false} Installed(states: seq<State>, actions: seq<Action>, t: nat, m: nat, n: nat)
    requires IsExecution(states, actions) && Succeeded(states, actions, t, m, n) && states[n].threads[t].PublishReady?
    ensures states[n].route.client.Some? && states[n].route.client.value.id == actions[m].made.id
  {
    var k := n - 1;
    var s, a := states[k], actions[k];
    if OwnStep(a, t) {
      NextLicensed(s.route, s.gate, t, s.threads[t], a.pick, a.ok, a.made);
      InHandWasMade(states, actions, t, m, k);
    } else {
      HoldsSlot(states, actions, k, t);
      OthersKeep(s, a, t);
      Installed(states, actions, t, m, k);
    }
  }

  /** What such a call leaves at its unlock, if it stored Ready in step `q`. */
  ghost predicate LeavesReady(states: seq<State>, actions: seq<Action>, t: nat, id: nat, q: nat, n: nat)
    requires |states| == |actions| + 1 && q < n < |states|
  {
    && OwnStep(actions[q], t) && StepsAt(states[q], actions[q], PublishReady)
    && states[n].route.client.Some? && states[n].route.client.value.id == id
    && states[n].route.status == if StartedOver(states, actions, q, n) then Bootstrapping else Ready
  }

  /**
   A call whose bootstrap ended well, at its unlock. It made its check once, in the slot. If Tor was desired,
   the client made for it is installed, and it has stored Ready, which still stands exactly if no call that
   starts over has stored Bootstrapping since. If not, it went straight to its unlock.
   */
  lemma {:induction false} SuccessEnds(states: seq<State>, actions: seq<Action>, t: nat, m: nat, n: nat) returns (p: nat, q: nat)
    requires IsExecution(states, actions) && Succeeded(states, actions, t, m, n) && states[n].threads[t].PublishUnlock?
    ensures m < p <= q < n && Checks(states[p], actions[p], t)
    ensures states[p].route.desired ==> LeavesReady(states, actions, t, actions[m].made.id, q, n)
    ensures !states[p].route.desired ==> Untouched(actions, t, p, n)
  {
    var k := n - 1;
    if OwnStep(actions[k], t) {
      p := SuccessSettles(states, actions, t, m, k);
      q := k;
    } else {
      p, q := SuccessEnds(states, actions, t, m, k);
      WaitsForUnlock(states, actions, t, p, q, k);
    }
  }

  lemma SuccessSettles(states: seq<State>, actions: seq<Action>, t: nat, m: nat, k: nat) returns (p: nat)
    requires IsExecution(states, actions) && k < |actions| && Succeeded(states, actions, t, m, k + 1)
    requires OwnStep(actions[k], t) && states[k + 1].threads[t].PublishUnlock?
    ensures m < p <= k && Checks(states[p], actions[p], t)
    ensures states[p].route.desired ==> LeavesReady(states, actions, t, actions[m].made.id, k, k + 1)
    ensures !states[p].route.desired ==> p == k
  {
    var s, a := states[k], actions[k];
    NextLicensed(s.route, s.gate, t, s.threads[t], a.pick, a.ok, a.made);
    p := k;
    if s.threads[t].PublishReady? {
      p := CheckedOn(states, actions, t, m, k);
      Installed(states, actions, t, m, k);
    }
  }

  /** Steps of others until the unlock leave what the call left, but that Bootstrapping may replace the status. */
  lemma WaitsForUnlock(states: seq<State>, actions: seq<Action>, t: nat, p: nat, q: nat, k: nat)
    requires IsExecution(states, actions) && p <= q < k < |actions| && !OwnStep(actions[k], t)
    requires t in states[k].threads && InSlot(states[k].threads[t])
    ensures Untouched(actions, t, p, k) ==> Untouched(actions, t, p, k + 1)
    ensures forall id: nat :: LeavesReady(states, actions, t, id, q, k) ==> LeavesReady(states, actions, t, id, q, k + 1)
    ensures LeavesFailed(states, actions, t, q, k) ==> LeavesFailed(states, actions, t, q, k + 1)
  {
    HoldsSlot(states, actions, k, t);
    OthersKeep(states[k], actions[k], t);
    assert StartedOver(states, actions, q, k + 1) <==> StartedOver(states, actions, q, k) || StoresBootstrapping(states[k], actions[k]);
  }

  // ----- the call whose bootstrap failed ----------------------------------------------------------------

  lemma NextFailed(r: Route, g: Gate, t: nat, pc: Pc, pick: nat, ok: bool, made: Client)
    ensures var next, q := ActPc(r, g, pc, pick, ok, made), ActRoute(r, t, pc);
      && (next.FailCheck? ==> pc.FailClear? && q.client.None?)
      && (next.FailStatus? ==> pc.FailCheck? && r.desired && q.client == r.client)
      && (next.FailUnlock? ==> (pc.FailCheck? && !r.desired && q.client == r.client) || (pc.FailStatus? && q.client == r.client && q.status == Failed))
  {
  }

  predicate Cleared(pc: Pc) { pc.FailCheck? || pc.FailStatus? || pc.FailUnlock? }

  /** Past its clearing, a call whose bootstrap failed has taken the client away. */
  lemma {:induction false} FailedHasNoClient(states: seq<State>, actions: seq<Action>, t: nat, m: nat, n: nat)
    requires IsExecution(states, actions) && HasFailed(states, actions, t, m, n) && Cleared(states[n].threads[t])
    ensures states[n].route.client.None?
  {
    var k := n - 1;
    var s, a := states[k], actions[k];
    if OwnStep(a, t) {
      NextFailed(s.route, s.gate, t, s.threads[t], a.pick, a.ok, a.made);
      if Cleared(s.threads[t]) {
        FailedHasNoClient(states, actions, t, m, k);
      }
    } else {
      HoldsSlot(states, actions, k, t);
      OthersKeep(s, a, t);
      FailedHasNoClient(states, actions, t, m, k);
    }
  }

  /** About to store Failed, it read that Tor was desired when it made its check. */
  lemma {:induction false} FailCheckedOn(states: seq<State>, actions: seq<Action>, t: nat, m: nat, n: nat) returns (p: nat)
    requires IsExecution(states, actions) && HasFailed(states, actions, t, m, n) && states[n].threads[t].FailStatus?
    ensures m < p < n && Checks(states[p], actions[p], t) && states[p].route.desired
  {
    p := n - 1;
    var s, a := states[p], actions[p];
    if OwnStep(a, t) {
      NextFailed(s.route, s.gate, t, s.threads[t], a.pick, a.ok, a.made);
    } else {
      p := FailCheckedOn(states, actions, t, m, p);
    }
  }

  /** What such a call leaves at its unlock, if it stored Failed in step `q`. */
  ghost predicate LeavesFailed(states: seq<State>, actions: seq<Action>, t: nat, q: nat, n: nat)
    requires |states| == |actions| + 1 && q < n < |states|
  {
    && OwnStep(actions[q], t) && StepsAt(states[q], actions[q], FailStatus)
    && states[n].route.status == if StartedOver(states, actions, q, n) then Bootstrapping else Failed
  }

  /**
   A call whose bootstrap failed, at its unlock: no client is installed. It made its check once, in the slot.
   If Tor was desired, it has stored Failed, which still stands exactly if no call that starts over has stored
   Bootstrapping since. If not, it went straight to its unlock.
   */
  lemma {:induction false} FailureEnds(states: seq<State>, actions: seq<Action>, t: nat, m: nat, n: nat) returns (p: nat, q: nat)
    requires IsExecution(states, actions) && HasFailed(states, actions, t, m, n) && states[n].threads[t].FailUnlock?
    ensures m < p <= q < n && Checks(states[p], actions[p], t)
    ensures states[n].route.client.None?
    ensures states[p].route.desired ==> LeavesFailed(states, actions, t, q, n)
    ensures !states[p].route.desired ==> Untouched(actions, t, p, n)
  {
    var k := n - 1;
    FailedHasNoClient(states, actions, t, m, n);
    if OwnStep(actions[k], t) {
      p := FailureSettles(states, actions, t, m, k);
      q := k;
    } else {
      p, q := FailureEnds(states, actions, t, m, k);
      WaitsForUnlock(states, actions, t, p, q, k);
    }
  }

  lemma FailureSettles(states: seq<State>, actions: seq<Action>, t: nat, m: nat, k: nat) returns (p: nat)
    requires IsExecution(states, actions) && k < |actions| && HasFailed(states, actions, t, m, k + 1)
    requires OwnStep(actions[k], t) && states[k + 1].threads[t].FailUnlock?
    ensures m < p <= k && Checks(states[p], actions[p], t)
    ensures states[p].route.desired ==> LeavesFailed(states, actions, t, k, k + 1)
    ensures !states[p].route.desired ==> p == k
  {
    var s, a := states[k], actions[k];
    NextFailed(s.route, s.gate, t, s.threads[t], a.pick, a.ok, a.made);
    p := k;
    if s.threads[t].FailStatus? {
      p := FailCheckedOn(states, actions, t, m, k);
    }
  }

  // ----- why Ready may not stand at the unlock -----------------------------------------------------------

  const MADE := Client(7, Normal)

  /** One bootstrap of thread 1 that ends well; then thread 2 starts over before thread 1 leaves the slot. */
  function StoryRoute(k: nat): Route {
    Route(k >= 2, if k >= 16 then Bootstrapping else if k >= 12 then Ready else if k >= 5 then Bootstrapping else Direct,
          if k >= 11 then Some(MADE) else None, Normal, if k >= 7 then Some(1) else None, None)
  }

  function StoryPc(k: nat): Pc {
    match k
    case 1 => BootDesire
    case 2 => BootCheck
    case 3 => BootReadStatus
    case 4 => BootStatus
    case 5 => Booting
    case 6 => PublishLock(MADE)
    case 7 => PublishCheck(MADE)
    case 8 => PublishRead(MADE)
    case 9 => PublishApply(MADE, Normal)
    case 10 => PublishInstall(MADE)
    case 11 => PublishReady
    case _ => PublishUnlock
  }

  function StoryThreads(k: nat): map<nat, Pc> {
    match k
    case 0 => map[]
    case 13 => map[1 := PublishUnlock, 2 := EnableLock]
    case 14 => map[1 := PublishUnlock, 2 := EnableDesire]
    case 15 => map[1 := PublishUnlock, 2 := EnableStatus]
    case 16 => map[1 := PublishUnlock, 2 := EnableEpoch]
    case _ => map[1 := StoryPc(k)]
  }

  function Story(k: nat): State {
    State(StoryRoute(k), if k >= 14 then START.gate.(waker := ByThread(2)) else START.gate, StoryThreads(k))
  }

  function Plot(k: nat): Action {
    if k == 0 then Call(1, BootDesire)
    else if k == 12 then Call(2, EnableLock)
    else ThreadStep(if k < 12 then 1 else 2, 0, true, MADE)
  }

  lemma StoryBoots(k: nat)
    requires k < 6
    ensures Can(Story(k), Plot(k)) && Story(k + 1) == Next(Story(k), Plot(k))
  {
  }

  lemma StoryPublishes(k: nat)
    requires 6 <= k < 12
    ensures Can(Story(k), Plot(k)) && Story(k + 1) == Next(Story(k), Plot(k))
  {
  }

  lemma StoryStartsOver(k: nat)
    requires 12 <= k < 16
    ensures Can(Story(k), Plot(k)) && Story(k + 1) == Next(Story(k), Plot(k))
  {
  }

  lemma StoryMoves(k: nat)
    requires k < 16
    ensures Can(Story(k), Plot(k)) && Story(k + 1) == Next(Story(k), Plot(k))
  {
    if k < 6 {
      StoryBoots(k);
    } else if k < 12 {
      StoryPublishes(k);
    } else {
      StoryStartsOver(k);
    }
  }

  lemma StoryRuns(states: seq<State>, actions: seq<Action>)
    requires |states| == 17 && |actions| == 16
    requires (forall k :: 0 <= k < 17 ==> states[k] == Story(k)) && forall k :: 0 <= k < 16 ==> actions[k] == Plot(k)
    ensures IsExecution(states, actions)
  {
    forall n: nat | n < |actions| ensures Can(states[n], actions[n]) && states[n + 1] == Next(states[n], actions[n]) {
      StoryMoves(n);
    }
  }

  lemma StorySucceeds(states: seq<State>, actions: seq<Action>)
    requires |states| == 17 && |actions| == 16
    requires (forall k :: 0 <= k < 17 ==> states[k] == Story(k)) && forall k :: 0 <= k < 16 ==> actions[k] == Plot(k)
    ensures Succeeded(states, actions, 1, 5, 16) && Checks(states[7], actions[7], 1)
  {
    forall k: nat | 5 < k <= 16 ensures 1 in states[k].threads && Publishing(states[k].threads[1]) {
      assert states[k] == Story(k);
    }
  }

  /**
   That a call which checked that Tor is desired, and installed its client, leaves the status Ready at its
   unlock is not so: `begin_tor_enable` stores Bootstrapping without the slot lock.
   */
  lemma ReadyIsOverwritten() returns (states: seq<State>, actions: seq<Action>)
    ensures IsExecution(states, actions) && Succeeded(states, actions, 1, 5, 16) && states[16].threads[1].PublishUnlock?
    ensures Checks(states[7], actions[7], 1) && states[7].route.desired
    ensures states[16].route.client == Some(MADE) && states[16].route.status == Bootstrapping
  {
    states, actions := seq(17, k requires 0 <= k => Story(k)), seq(16, k requires 0 <= k => Plot(k));
    StoryRuns(states, actions);
    StorySucceeds(states, actions);
  }
}
