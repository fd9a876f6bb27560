/** What each call does when nobody else moves until it ends: the effects that its documentation promises. */
module NetworkPrivacyAlone {
  import opened Common
  import opened NetworkPrivacy

  /** The call has ended, so that it takes no further step. */
  predicate Ended(pc: Pc) { pc.Idle? || pc.Routed? || pc.Closed? }

  /** Step `k` is a step of thread `t`. */
  ghost predicate ThreadMoves(states: seq<State>, actions: seq<Action>, t: nat, k: nat)
    requires k < |actions| && |states| == |actions| + 1
  {
    && actions[k].ThreadStep? && actions[k].thread == t
    && Can(states[k], actions[k]) && states[k + 1] == Next(states[k], actions[k])
  }

  /** Call `t` stands at `pc` in state `m` and runs to its end in state `n` with nobody else moving. */
  ghost predicate RunsOut(states: seq<State>, actions: seq<Action>, t: nat, pc: Pc, m: nat, n: nat) {
    && |states| == |actions| + 1 && m <= n < |states|
    && (forall k :: m <= k < n ==> ThreadMoves(states, actions, t, k))
    && t in states[m].threads && states[m].threads[t] == pc
    && t in states[n].threads && Ended(states[n].threads[t])
  }

  /** A call that has not ended yet takes its next step. */
  lemma Step(states: seq<State>, actions: seq<Action>, t: nat, pc: Pc, k: nat, n: nat) returns (next: Pc)
    requires RunsOut(states, actions, t, pc, k, n) && !Ended(pc)
    ensures k < n && actions[k].ThreadStep? && CanRun(states[k].route, states[k].gate, pc, actions[k].pick)
    ensures next == ActPc(states[k].route, states[k].gate, pc, actions[k].pick, actions[k].ok, actions[k].made)
    ensures RunsOut(states, actions, t, next, k + 1, n)
    ensures states[k + 1].route == ActRoute(states[k].route, t, pc)
    ensures states[k + 1].gate == ActGate(states[k].route, states[k].gate, t, pc, actions[k].pick)
  {
    assert k < n;
    assert ThreadMoves(states, actions, t, k);
    next := states[k + 1].threads[t];
  }

  /** A call that has ended stays where it is. */
  lemma Stops(states: seq<State>, actions: seq<Action>, t: nat, pc: Pc, k: nat, n: nat)
    requires RunsOut(states, actions, t, pc, k, n) && Ended(pc)
    ensures k == n
  {
    assert k < n ==> ThreadMoves(states, actions, t, k);
  }

  // ----- disabling and dormancy -----------------------------------------------------------------------

  /** What is left of `disable_tor` at `pc`, done to the route. */
  function DisableLeft(r: Route, pc: Pc): Route {
    Route(r.desired && !pc.DisableLock? && !pc.DisableDesire?,
          if pc.DisableLock? || pc.DisableDesire? || pc.DisableStatus? then Direct else r.status,
          if pc.Idle? || pc.DisableUnlock? then r.client else None,
          r.intent, if pc.Idle? then r.slot else None, r.dormancy)
  }

  predicate Disabling(pc: Pc) { pc.DisableLock? || pc.DisableDesire? || pc.DisableStatus? || pc.DisableClear? || pc.DisableUnlock? }

  lemma {:induction false} DisableRuns(states: seq<State>, actions: seq<Action>, t: nat, pc: Pc, m: nat, n: nat)
    requires RunsOut(states, actions, t, pc, m, n) && (Disabling(pc) || pc.Idle?)
    ensures states[n].route == DisableLeft(states[m].route, pc)
    ensures states[n].gate == if pc.DisableLock? || pc.DisableDesire? then states[m].gate.(barred := false) else states[m].gate
    decreases n - m
  {
    if Disabling(pc) {
      var next := Step(states, actions, t, pc, m, n);
      DisableRuns(states, actions, t, next, m + 1, n);
    } else {
      Stops(states, actions, t, pc, m, n);
    }
  }

  /** `disable_tor` leaves the direct route: Tor is not desired, there is no client, and nothing bars direct connections. */
  lemma DisableAlone(states: seq<State>, actions: seq<Action>, t: nat, m: nat, n: nat)
    requires RunsOut(states, actions, t, DisableLock, m, n)
    ensures states[n].route == states[m].route.(desired := false, status := Direct, client := None)
    ensures states[n].gate == states[m].gate.(barred := false)
  {
    DisableRuns(states, actions, t, DisableLock, m, n);
    var next := Step(states, actions, t, DisableLock, m, n);
  }

  /** The intent recorded, and an installed client put into the mode that is wanted. */
  function DormantLeft(r: Route, intent: Mode, wanted: Mode): Route {
    r.(intent := intent, client := if r.client.Some? then Some(Client(r.client.value.id, wanted)) else None)
  }

  predicate ToApply(pc: Pc, r: Route, wanted: Mode) {
    (pc.DormantRead? && r.intent == wanted) || (pc.DormantApply? && pc.mode == wanted)
  }

  lemma {:induction false} DormantRuns(states: seq<State>, actions: seq<Action>, t: nat, wanted: Mode, pc: Pc, m: nat, n: nat)
    requires RunsOut(states, actions, t, pc, m, n) && ToApply(pc, states[m].route, wanted)
    ensures states[n].route == DormantLeft(states[m].route, states[m].route.intent, wanted).(dormancy := None) && states[n].gate == states[m].gate
    decreases n - m
  {
    var next := Step(states, actions, t, pc, m, n);
    if pc.DormantRead? {
      DormantRuns(states, actions, t, wanted, next, m + 1, n);
    } else {
      var last := Step(states, actions, t, next, m + 1, n);
      Stops(states, actions, t, last, m + 2, n);
    }
  }

  /** `set_tor_dormant` records the mode and puts an installed client into it. */
  lemma DormantAlone(states: seq<State>, actions: seq<Action>, t: nat, wanted: Mode, m: nat, n: nat)
    requires RunsOut(states, actions, t, DormantLock(wanted), m, n)
    ensures states[n].route == DormantLeft(states[m].route, wanted, wanted) && states[n].gate == states[m].gate
  {
    var p1 := Step(states, actions, t, DormantLock(wanted), m, n);
    var p2 := Step(states, actions, t, p1, m + 1, n);
    DormantRuns(states, actions, t, wanted, p2, m + 2, n);
  }

  // ----- enabling ---------------------------------------------------------------------------------------

  /** The drained wakers are woken one by one; nothing else moves. */
  lemma {:induction false} WakesAll(states: seq<State>, actions: seq<Action>, t: nat, drained: set<nat>, k: nat, n: nat) returns (j: nat)
    requires RunsOut(states, actions, t, EnableWake(drained), k, n)
    ensures RunsOut(states, actions, t, EnableSlot, j, n)
    ensures states[j].route == states[k].route && WokenFrom(states[k].gate, states[j].gate, drained)
    decreases drained
  {
    var next := Step(states, actions, t, EnableWake(drained), k, n);
    j := k + 1;
    if drained != {} {
      var pick := actions[k].pick;
      j := WakesAll(states, actions, t, drained - {pick}, k + 1, n);
      OneWoken(states[k].gate, states[j].gate, drained, pick);
    }
  }

  lemma OneWoken(g: Gate, h: Gate, drained: set<nat>, pick: nat)
    requires pick in drained && WokenFrom(Woken(g, pick), h, drained - {pick})
    ensures WokenFrom(g, h, drained)
  {
  }

  /** The same gate, but that the leases in `ids` have nothing left to be woken. */
  ghost predicate WokenFrom(g: Gate, h: Gate, ids: set<nat>) {
    && h == g.(leases := h.leases) && h.leases.Keys == g.leases.Keys
    && forall id :: id in g.leases ==> h.leases[id] == if id in ids then g.leases[id].(parked := false) else g.leases[id]
  }

  predicate Draining(pc: Pc) { pc.EnableLock? || pc.EnableDesire? || pc.EnableStatus? || pc.EnableEpoch? || pc.EnableDrain? }

  /** What is left, at `pc`, of the critical section of `begin_tor_enable`. */
  function DrainLeft(r: Route, pc: Pc): Route {
    r.(desired := r.desired || pc.EnableLock? || pc.EnableDesire?,
       status := if pc.EnableLock? || pc.EnableDesire? || pc.EnableStatus? then Bootstrapping else r.status)
  }

  lemma {:induction false} DrainRuns(states: seq<State>, actions: seq<Action>, t: nat, pc: Pc, m: nat, n: nat) returns (j: nat)
    requires RunsOut(states, actions, t, pc, m, n) && Draining(pc)
    ensures RunsOut(states, actions, t, EnableWake(states[m].gate.wakers), j, n)
    ensures states[j].route == DrainLeft(states[m].route, pc)
    ensures states[j].gate == states[m].gate.(
      epoch := states[m].gate.epoch + if pc.EnableDrain? then 0 else 1, wakers := {}, waker := Free, barred := states[j].route.desired)
    decreases n - m
  {
    var next := Step(states, actions, t, pc, m, n);
    j := m + 1;
    if !pc.EnableDrain? {
      j := DrainRuns(states, actions, t, next, m + 1, n);
    }
  }

  /**
   `begin_tor_enable` fails closed at once: Tor is desired and still connecting, there is no client, the
   epoch of all earlier leases is over, and each of them that left a waker in the table has been woken.
   */
  lemma EnableAlone(states: seq<State>, actions: seq<Action>, t: nat, m: nat, n: nat)
    requires RunsOut(states, actions, t, EnableLock, m, n)
    ensures states[n].route == states[m].route.(desired := true, status := Bootstrapping, client := None)
    ensures var g := states[m].gate;
      WokenFrom(g.(epoch := g.epoch + 1, wakers := {}, barred := true), states[n].gate, g.wakers)
  {
    var first := Step(states, actions, t, EnableLock, m, n);
    var i := DrainRuns(states, actions, t, EnableLock, m, n);
    var j := WakesAll(states, actions, t, states[m].gate.wakers, i, n);
    ClearsAlone(states, actions, t, j, n);
  }

  lemma ClearsAlone(states: seq<State>, actions: seq<Action>, t: nat, m: nat, n: nat)
    requires RunsOut(states, actions, t, EnableSlot, m, n)
    ensures states[n].route == states[m].route.(client := None) && states[n].gate == states[m].gate
  {
    var p1 := Step(states, actions, t, EnableSlot, m, n);
    var p2 := Step(states, actions, t, p1, m + 1, n);
    var p3 := Step(states, actions, t, p2, m + 2, n);
    Stops(states, actions, t, p3, m + 3, n);
  }

  // ----- bootstrapping ----------------------------------------------------------------------------------

  /** What is left of a publication at `pc`, once its check is passed. */
  function PublishLeft(r: Route, pc: Pc): Route {
    r.(client := match pc
                 case PublishRead(client) => Some(client.(mode := r.intent))
                 case PublishApply(client, mode) => Some(client.(mode := mode))
                 case PublishInstall(client) => Some(client)
                 case _ => r.client,
       status := if pc.PublishUnlock? then r.status else Ready,
       slot := None)
  }

  predicate Published(pc: Pc) { pc.PublishRead? || pc.PublishApply? || pc.PublishInstall? || pc.PublishReady? || pc.PublishUnlock? }

  lemma {:induction false} PublishRuns(states: seq<State>, actions: seq<Action>, t: nat, pc: Pc, m: nat, n: nat)
    requires RunsOut(states, actions, t, pc, m, n) && Published(pc)
    ensures states[n].route == PublishLeft(states[m].route, pc) && states[n].gate == states[m].gate
    decreases n - m
  {
    var next := Step(states, actions, t, pc, m, n);
    if pc.PublishUnlock? {
      Stops(states, actions, t, next, m + 1, n);
    } else {
      PublishRuns(states, actions, t, next, m + 1, n);
    }
  }

  /** A client that was made is put into the recorded mode and installed, and Tor is ready; or dropped, if Tor is not desired. */
  lemma PublishAlone(states: seq<State>, actions: seq<Action>, t: nat, made: Client, m: nat, n: nat)
    requires RunsOut(states, actions, t, PublishLock(made), m, n)
    ensures var r := states[m].route;
      states[n].route == if r.desired then r.(client := Some(Client(made.id, r.intent)), status := Ready) else r
    ensures states[n].gate == states[m].gate
  {
    var p1 := Step(states, actions, t, PublishLock(made), m, n);
    var p2 := Step(states, actions, t, p1, m + 1, n);
    PublishRuns(states, actions, t, p2, m + 2, n);
  }

  predicate Recording(pc: Pc) { pc.FailClear? || pc.FailCheck? || pc.FailStatus? || pc.FailUnlock? }

  /** What is left of the recording of a failure at `pc`. */
  function FailLeft(r: Route, pc: Pc): Route {
    r.(client := if pc.FailClear? then None else r.client,
       status := if pc.FailStatus? || (r.desired && !pc.FailUnlock?) then Failed else r.status,
       slot := None)
  }

  lemma {:induction false} FailRuns(states: seq<State>, actions: seq<Action>, t: nat, pc: Pc, m: nat, n: nat)
    requires RunsOut(states, actions, t, pc, m, n) && Recording(pc)
    ensures states[n].route == FailLeft(states[m].route, pc) && states[n].gate == states[m].gate
    decreases n - m
  {
    var next := Step(states, actions, t, pc, m, n);
    if pc.FailUnlock? {
      Stops(states, actions, t, next, m + 1, n);
    } else {
      FailRuns(states, actions, t, next, m + 1, n);
    }
  }

  /** A failure takes the client away, and is recorded if Tor is desired. */
  lemma FailAlone(states: seq<State>, actions: seq<Action>, t: nat, m: nat, n: nat)
    requires RunsOut(states, actions, t, FailLock, m, n)
    ensures var r := states[m].route;
      states[n].route == r.(client := None, status := if r.desired then Failed else r.status)
    ensures states[n].gate == states[m].gate
  {
    var p1 := Step(states, actions, t, FailLock, m, n);
    FailRuns(states, actions, t, p1, m + 1, n);
  }

  /** How a call that awaited its bootstrap leaves the route: Tor ready with the client made for it, or Tor without a client. */
  function Awaited(r: Route, ok: bool, made: Client): Route {
    if ok then Route(true, Ready, Some(Client(made.id, r.intent)), r.intent, r.slot, r.dormancy)
    else Route(true, Failed, None, r.intent, r.slot, r.dormancy)
  }

  /** From its Bootstrapping on: the awaited bootstrap ends in step `m + 1`, and its end decides. */
  lemma AwaitAlone(states: seq<State>, actions: seq<Action>, t: nat, m: nat, n: nat)
    requires RunsOut(states, actions, t, BootStatus, m, n) && states[m].route.desired
    ensures m + 1 < n && actions[m + 1].ThreadStep?
    ensures states[n].route == Awaited(states[m].route, actions[m + 1].ok, actions[m + 1].made) && states[n].gate == states[m].gate
  {
    var p1 := Step(states, actions, t, BootStatus, m, n);
    var p2 := Step(states, actions, t, Booting, m + 1, n);
    if actions[m + 1].ok {
      PublishAlone(states, actions, t, actions[m + 1].made, m + 2, n);
    } else {
      FailAlone(states, actions, t, m + 2, n);
    }
  }

  predicate HasTor(r: Route) { r.status == Ready && r.client.Some? }

  /** Under a Ready status an installed client is kept, and otherwise the call comes to its Bootstrapping. */
  lemma ReadsClientAlone(states: seq<State>, actions: seq<Action>, t: nat, m: nat, n: nat)
    requires RunsOut(states, actions, t, BootReadClient, m, n)
    ensures states[m].route.client.Some? ==> states[n].route == states[m].route && states[n].gate == states[m].gate
    ensures states[m].route.client.None? ==>
      m < n && RunsOut(states, actions, t, BootStatus, m + 1, n) && states[m + 1].route == states[m].route && states[m + 1].gate == states[m].gate
  {
    var next := Step(states, actions, t, BootReadClient, m, n);
    if states[m].route.client.Some? {
      Stops(states, actions, t, Idle, m + 1, n);
    }
  }

  /** Once Tor is desired: a client that is ready is kept, and otherwise the call comes to its Bootstrapping. */
  lemma ReadsAlone(states: seq<State>, actions: seq<Action>, t: nat, m: nat, n: nat) returns (j: nat)
    requires RunsOut(states, actions, t, BootReadStatus, m, n)
    ensures HasTor(states[m].route) ==> states[n].route == states[m].route && states[n].gate == states[m].gate
    ensures !HasTor(states[m].route) ==>
      && RunsOut(states, actions, t, BootStatus, j, n) && m < j
      && states[j].route == states[m].route && states[j].gate == states[m].gate
  {
    var next := Step(states, actions, t, BootReadStatus, m, n);
    j := m + 1;
    if states[m].route.status == Ready {
      ReadsClientAlone(states, actions, t, m + 1, n);
      j := m + 2;
    }
  }

  /** Once Tor is desired: a client that is ready is kept; otherwise the bootstrap, ending in step `b`, decides. */
  lemma BootsAlone(states: seq<State>, actions: seq<Action>, t: nat, m: nat, n: nat) returns (b: nat)
    requires RunsOut(states, actions, t, BootReadStatus, m, n) && states[m].route.desired
    ensures states[n].gate == states[m].gate
    ensures HasTor(states[m].route) ==> states[n].route == states[m].route
    ensures !HasTor(states[m].route) ==>
      m < b < n && actions[b].ThreadStep? && states[n].route == Awaited(states[m].route, actions[b].ok, actions[b].made)
  {
    b := ReadsAlone(states, actions, t, m, n);
    if !HasTor(states[m].route) {
      AwaitAlone(states, actions, t, b, n);
      b := b + 1;
    }
  }

  /**
   `enable_tor` makes Tor desired. If a client is installed and Tor is ready, that is all. Otherwise it waits
   for a bootstrap, in step `b`: if that ends well, Tor is ready with the client that was made, in the
   recorded mode; if it fails, the route stays Tor without a client, and the status says that it failed.
   */
  lemma BootAlone(states: seq<State>, actions: seq<Action>, t: nat, m: nat, n: nat) returns (b: nat)
    requires RunsOut(states, actions, t, BootDesire, m, n)
    ensures states[n].gate == states[m].gate
    ensures HasTor(states[m].route) ==> states[n].route == states[m].route.(desired := true)
    ensures !HasTor(states[m].route) ==>
      m < b < n && actions[b].ThreadStep? && states[n].route == Awaited(states[m].route, actions[b].ok, actions[b].made)
  {
    var p1 := Step(states, actions, t, BootDesire, m, n);
    var p2 := Step(states, actions, t, BootCheck, m + 1, n);
    b := BootsAlone(states, actions, t, m + 2, n);
  }

  // ----- reading the route ------------------------------------------------------------------------------

  /** What a caller is told for each standing of the route. */
  ghost predicate Tells(r: Route, isolated: bool, route: Result<RouteDecision, string>) {
    && (!r.desired ==> route == Ok(RouteDirect))
    && (r.desired && r.status == Ready && r.client.Some? ==> route == Ok(if isolated then TorIsolated else TorShared))
    && (r.desired && r.status == Bootstrapping ==> route == Err("Tor is still connecting"))
    && (r.desired && r.status == Failed ==> route == Err("Tor connection failed"))
    && (r.desired && (r.status == Direct || (r.status == Ready && r.client.None?)) ==> route == Err("Tor is enabled but unavailable"))
  }

  /** What `tor_client_for_route` answers when the route stands still, and the client that it hands out. */
  lemma RouteAlone(states: seq<State>, actions: seq<Action>, t: nat, isolated: bool, m: nat, n: nat)
    requires RunsOut(states, actions, t, RouteClient(isolated), m, n)
    ensures states[n].route == states[m].route && states[n].gate == states[m].gate
    ensures states[n].threads[t].Routed? && states[n].threads[t].found == states[m].route.client
    ensures Tells(states[m].route, isolated, states[n].threads[t].route)
  {
    var r := states[m].route;
    var p1 := Step(states, actions, t, RouteClient(isolated), m, n);
    RouteRuns(states, actions, t, isolated, r, m + 1, n);
    TableTells(r, isolated);
  }

  lemma RouteRuns(states: seq<State>, actions: seq<Action>, t: nat, isolated: bool, r: Route, m: nat, n: nat)
    requires RunsOut(states, actions, t, RouteDesired(isolated, r.client), m, n) && states[m].route == r
    ensures states[n].route == r && states[n].gate == states[m].gate
    ensures states[n].threads[t] == Routed(r.client, r.desired, r.status, DecideRoute(r.desired, r.status, r.client.Some?, isolated))
  {
    var p2 := Step(states, actions, t, RouteDesired(isolated, r.client), m, n);
    var p3 := Step(states, actions, t, p2, m + 1, n);
    Stops(states, actions, t, p3, m + 2, n);
  }

  lemma TableTells(r: Route, isolated: bool)
    ensures Tells(r, isolated, DecideRoute(r.desired, r.status, r.client.Some?, isolated))
  {
  }

  // ----- direct connections -----------------------------------------------------------------------------

  /** A wait whose check finds no live connection closes; one that finds some parks until notified. */
  lemma WaitAlone(states: seq<State>, actions: seq<Action>, t: nat, m: nat)
    requires |states| == |actions| + 1 && m + 2 < |states| && t in states[m].threads && states[m].threads[t].WaitRegister?
    requires ThreadMoves(states, actions, t, m) && ThreadMoves(states, actions, t, m + 1)
    ensures states[m + 2].route == states[m].route && states[m + 2].gate == states[m].gate
    ensures states[m + 2].threads[t] == if states[m].gate.active == 0 then Closed else WaitPark(states[m].gate.generation)
  {
  }

  /** Step `k` is a step of lease `id`, which is not dropped. */
  ghost predicate LeaseMoves(states: seq<State>, actions: seq<Action>, id: nat, k: nat)
    requires k < |actions| && |states| == |actions| + 1
  {
    && actions[k].LeaseStep? && actions[k].lease == id && !actions[k].drop
    && Can(states[k], actions[k]) && states[k + 1] == Next(states[k], actions[k])
  }

  /** From state `m` to state `n`, lease `id` alone takes steps. */
  ghost predicate OnlyLease(states: seq<State>, actions: seq<Action>, id: nat, m: nat, n: nat) {
    && |states| == |actions| + 1 && m <= n < |states| && forall k :: m <= k < n ==> LeaseMoves(states, actions, id, k)
  }

  lemma LeaseStep(states: seq<State>, actions: seq<Action>, id: nat, k: nat, n: nat)
    requires OnlyLease(states, actions, id, k, n) && k < n && id in states[k].gate.leases
    ensures OnlyLease(states, actions, id, k + 1, n) && states[k + 1].route == states[k].route
    ensures actions[k].LeaseStep? && CanMove(states[k].gate, states[k].gate.leases[id])
    ensures states[k + 1].gate == Move(states[k].gate, states[k].route.desired, id, false, actions[k].ready)
  {
    assert LeaseMoves(states, actions, id, k);
  }

  /** A poll with nobody else moving reaches the inner I/O exactly if Tor is not desired and the lease is of the current epoch. */
  lemma PollAlone(states: seq<State>, actions: seq<Action>, id: nat, m: nat, n: nat)
    requires OnlyLease(states, actions, id, m, n) && id in states[m].gate.leases && states[m].gate.leases[id].pc.Resting?
    requires n == m + if PollsInner(states[m], id) then 6 else if states[m].route.desired then 3 else 4
    ensures id in states[n].gate.leases && states[n].gate.leases[id].pc.Resting? && states[n].gate.waker == Free
    ensures (exists k :: m < k < n && Inside(states[k], id)) <==> PollsInner(states[m], id)
  {
    LeaseStep(states, actions, id, m, n);
    LeaseStep(states, actions, id, m + 1, n);
    LeaseStep(states, actions, id, m + 2, n);
    if !states[m].route.desired {
      LeaseStep(states, actions, id, m + 3, n);
      if PollsInner(states[m], id) {
        LeaseStep(states, actions, id, m + 4, n);
        LeaseStep(states, actions, id, m + 5, n);
        assert Inside(states[m + 4], id);
      }
    }
  }

  /** A direct connection that opens belongs to the epoch it reads: its polls reach the inner I/O if Tor is not desired. */
  lemma OpenAlone(states: seq<State>, actions: seq<Action>, id: nat, m: nat)
    requires OnlyLease(states, actions, id, m, m + 1) && id in states[m].gate.leases && states[m].gate.leases[id].pc.Opening?
    ensures id in states[m + 1].gate.leases && states[m + 1].gate.leases[id].pc.Resting?
    ensures PollsInner(states[m + 1], id) <==> !states[m].route.desired
  {
    LeaseStep(states, actions, id, m, m + 1);
  }

  ghost predicate Inside(s: State, id: nat) { id in s.gate.leases && s.gate.leases[id].pc.PollInner? }

  ghost predicate PollsInner(s: State, id: nat) {
    id in s.gate.leases && !s.route.desired && s.gate.leases[id].epoch == s.gate.epoch
  }
}
