/**
 The Tor route policy as a shared-memory protocol: what each call does to the process-wide statics, one
 atomic load, store or lock operation at a time, interleaved in any order with any number of other calls
 and of direct connections. Bootstraps are not serialised here, so every claim holds without their lock.
 */
module NetworkPrivacy {
  import opened Common

  datatype Status = Direct | Bootstrapping | Ready | Failed

  datatype Mode = Soft | Normal

  /** A Tor client and the dormancy mode last applied to it. */
  datatype Client = Client(id: nat, mode: Mode)

  datatype WakerOwner = Free | ByThread(thread: nat) | ByLease(lease: nat)

  /** The next atomic step of a call. */
  datatype Pc =
    | Idle
    // begin_tor_enable
    | EnableLock | EnableDesire | EnableStatus | EnableEpoch | EnableDrain | EnableWake(drained: set<nat>)
    | EnableSlot | EnableClear | EnableUnlock
    // disable_tor
    | DisableLock | DisableDesire | DisableStatus | DisableClear | DisableUnlock
    // enable_tor and bootstrap_tor
    | BootDesire | BootCheck | BootReadStatus | BootReadClient | BootStatus | Booting
    // install_bootstrapped_client
    | PublishLock(client: Client) | PublishCheck(client: Client) | PublishRead(client: Client)
    | PublishApply(client: Client, mode: Mode) | PublishInstall(client: Client) | PublishReady | PublishUnlock
    // set_tor_failed
    | FailLock | FailClear | FailCheck | FailStatus | FailUnlock
    // set_tor_dormant
    | DormantLock(wanted: Mode) | DormantStore(wanted: Mode) | DormantRead | DormantApply(mode: Mode) | DormantUnlock
    // tor_client_for_route
    | RouteClient(isolated: bool) | RouteDesired(isolated: bool, found: Option<Client>)
    | RouteStatus(isolated: bool, found: Option<Client>, desired: bool)
    | Routed(found: Option<Client>, desired: bool, status: Status, route: Result<RouteDecision, string>)
    // wait_for_direct_connections_to_close
    | WaitRegister | WaitCheck(generation: nat) | WaitPark(generation: nat) | Closed

  datatype RouteDecision = RouteDirect | TorShared | TorIsolated

  /** Where a direct connection stands: opening, between polls, inside one poll, or being dropped. */
  datatype LeasePc = Opening | Resting | PollDesired | PollEpoch | PollInsert | PollInner | PollUnlock | DropCount | DropNotify

  /** A lease, and (as history only) whether a waker it left behind still has to be woken. */
  datatype Lease = Lease(epoch: nat, pc: LeasePc, parked: bool)

  /** The statics that decide the route, with the owners of the slot and dormancy locks. */
  datatype Route = Route(desired: bool, status: Status, client: Option<Client>, intent: Mode, slot: Option<nat>, dormancy: Option<nat>)

  /**
   The statics that gate direct connections, with the owner of the waker lock, and the leases. Two fields
   are history that nothing reads: the live leases, and `barred`, true from the end of a critical section
   of `begin_tor_enable` that left Tor desired until the next `disable_tor`.
   */
  datatype Gate = Gate(waker: WakerOwner, epoch: nat, wakers: set<nat>, active: nat, generation: nat, leases: map<nat, Lease>, nextId: nat,
                       live: set<nat>, barred: bool)

  datatype State = State(route: Route, gate: Gate, threads: map<nat, Pc>)

  const START := State(Route(false, Direct, None, Normal, None, None), Gate(Free, 0, {}, 0, 0, map[], 1, {}, false), map[])

  function DecideRoute(desired: bool, status: Status, hasClient: bool, isolated: bool): (r: Result<RouteDecision, string>)
    ensures r == Ok(RouteDirect) <==> !desired
    ensures r.Ok? && r.value != RouteDirect ==> status == Ready && hasClient && (r.value == TorIsolated <==> isolated)
    ensures r.Err? <==> desired && !(status == Ready && hasClient)
  {
    if !desired then Ok(RouteDirect)
    else if status != Ready || !hasClient then
      Err(match status
          case Bootstrapping => "Tor is still connecting"
          case Failed => "Tor connection failed"
          case _ => "Tor is enabled but unavailable")
    else Ok(if isolated then TorIsolated else TorShared)
  }

  // ----- one step of a call -------------------------------------------------------------------

  /** Whether the step can be taken now: locks are free, and a parked wait was notified. */
  predicate CanRun(r: Route, g: Gate, pc: Pc, pick: nat) {
    match pc
    case Idle => false
    case Routed(_, _, _, _) => false
    case Closed => false
    case EnableLock => g.waker == Free
    case EnableWake(drained) => drained != {} ==> pick in drained
    case EnableSlot => r.slot.None?
    case DisableLock => r.slot.None?
    case PublishLock(_) => r.slot.None?
    case FailLock => r.slot.None?
    case BootReadClient => r.slot.None?
    case RouteClient(_) => r.slot.None?
    case DormantLock(_) => r.dormancy.None?
    case DormantApply(_) => r.slot.None?
    case WaitPark(generation) => generation < g.generation
    case _ => true
  }

  function Woken(g: Gate, id: nat): Gate {
    if id in g.leases then g.(leases := g.leases[id := g.leases[id].(parked := false)]) else g
  }

  predicate TakesSlot(pc: Pc) { pc.EnableSlot? || pc.DisableLock? || pc.PublishLock? || pc.FailLock? }

  predicate LeavesSlot(pc: Pc) { pc.EnableUnlock? || pc.DisableUnlock? || pc.PublishUnlock? || pc.FailUnlock? }

  predicate ClearsClient(pc: Pc) { pc.EnableClear? || pc.DisableClear? || pc.FailClear? }

  /** What a step of thread `t` does to the statics that decide the route. */
  function ActRoute(r: Route, t: nat, pc: Pc): Route {
    if TakesSlot(pc) then r.(slot := Some(t))
    else if LeavesSlot(pc) then r.(slot := None)
    else if ClearsClient(pc) then r.(client := None)
    else
      match pc
      case EnableDesire => r.(desired := true)
      case EnableStatus => r.(status := Bootstrapping)
      case DisableDesire => r.(desired := false)
      case DisableStatus => r.(status := Direct)
      case BootDesire => r.(desired := true)
      case BootStatus => r.(status := Bootstrapping)
      case PublishInstall(client) => r.(client := Some(client))
      case PublishReady => r.(status := Ready)
      case FailStatus => r.(status := Failed)
      case DormantLock(_) => r.(dormancy := Some(t))
      case DormantStore(wanted) => r.(intent := wanted)
      case DormantApply(mode) => if r.client.Some? then r.(client := Some(r.client.value.(mode := mode))) else r
      case DormantUnlock => r.(dormancy := None)
      case _ => r
  }

  /** What it does to the statics that gate direct connections. `pick` is the waker to wake. */
  function ActGate(r: Route, g: Gate, t: nat, pc: Pc, pick: nat): Gate {
    match pc
    case EnableLock => g.(waker := ByThread(t))
    case EnableEpoch => g.(epoch := g.epoch + 1)
    case EnableDrain => g.(wakers := {}, waker := Free, barred := r.desired)
    case EnableWake(drained) => if drained == {} then g else Woken(g, pick)
    case DisableDesire => g.(barred := false)
    case _ => g
  }

  /** Where it leaves its own call. `ok` is how an awaited bootstrap ended, `made` is its client. */
  function ActPc(r: Route, g: Gate, pc: Pc, pick: nat, ok: bool, made: Client): Pc {
    match pc
    case EnableLock => EnableDesire
    case EnableDesire => EnableStatus
    case EnableStatus => EnableEpoch
    case EnableEpoch => EnableDrain
    case EnableDrain => EnableWake(g.wakers)
    case EnableWake(drained) => if drained == {} then EnableSlot else EnableWake(drained - {pick})
    case EnableSlot => EnableClear
    case EnableClear => EnableUnlock
    case DisableLock => DisableDesire
    case DisableDesire => DisableStatus
    case DisableStatus => DisableClear
    case DisableClear => DisableUnlock
    case BootDesire => BootCheck
    case BootCheck => if r.desired then BootReadStatus else Idle
    case BootReadStatus => if r.status == Ready then BootReadClient else BootStatus
    case BootReadClient => if r.client.Some? then Idle else BootStatus
    case BootStatus => Booting
    case Booting => if ok then PublishLock(made) else FailLock
    case PublishLock(client) => PublishCheck(client)
    case PublishCheck(client) => if r.desired then PublishRead(client) else PublishUnlock
    case PublishRead(client) => PublishApply(client, r.intent)
    case PublishApply(client, mode) => PublishInstall(client.(mode := mode))
    case PublishInstall(_) => PublishReady
    case PublishReady => PublishUnlock
    case FailLock => FailClear
    case FailClear => FailCheck
    case FailCheck => if r.desired then FailStatus else FailUnlock
    case FailStatus => FailUnlock
    case DormantLock(wanted) => DormantStore(wanted)
    case DormantStore(_) => DormantRead
    case DormantRead => DormantApply(r.intent)
    case DormantApply(_) => DormantUnlock
    case RouteClient(isolated) => RouteDesired(isolated, r.client)
    case RouteDesired(isolated, found) => RouteStatus(isolated, found, r.desired)
    case RouteStatus(isolated, found, desired) =>
      Routed(found, desired, r.status, DecideRoute(desired, r.status, found.Some?, isolated))
    case WaitRegister => WaitCheck(g.generation)
    case WaitCheck(generation) => if g.active == 0 then Closed else WaitPark(generation)
    case WaitPark(_) => WaitRegister
    case _ => Idle
  }

  function Run(s: State, t: nat, pick: nat, ok: bool, made: Client): State
    requires t in s.threads && CanRun(s.route, s.gate, s.threads[t], pick)
  {
    var r, g, pc := s.route, s.gate, s.threads[t];
    State(ActRoute(r, t, pc), ActGate(r, g, t, pc, pick), s.threads[t := ActPc(r, g, pc, pick, ok, made)])
  }

  /** The first step of each call. */
  predicate Entry(pc: Pc) {
    pc.EnableLock? || pc.DisableLock? || pc.BootDesire? || pc.DormantLock? || pc.RouteClient? || pc.WaitRegister?
  }

  /** Where a call may end without another step: a wait or a bootstrap whose task is dropped, or a result taken. */
  predicate Exit(pc: Pc) { pc.WaitPark? || pc.Booting? || pc.Routed? || pc.Closed? }

  // ----- one step of a lease ------------------------------------------------------------------

  predicate CanMove(g: Gate, lease: Lease) {
    lease.pc.Resting? ==> g.waker == Free
  }

  function Set(g: Gate, id: nat, lease: Lease): Gate { g.(leases := g.leases[id := lease]) }

  function Gone(g: Gate, id: nat): Gate { g.(leases := g.leases - {id}) }

  /** One step of a lease. `drop` ends it between two polls; `ready` is whether the inner I/O completed. */
  function Move(g: Gate, desired: bool, id: nat, drop: bool, ready: bool): Gate
    requires id in g.leases && CanMove(g, g.leases[id])
  {
    var lease := g.leases[id];
    match lease.pc
    case Opening => Set(g, id, lease.(epoch := g.epoch, pc := Resting))
    case Resting =>
      if drop then Set(g.(wakers := g.wakers - {id}), id, lease.(pc := DropCount, parked := false))
      else Set(g.(waker := ByLease(id)), id, lease.(pc := PollDesired))
    case PollDesired => Set(g, id, lease.(pc := if desired then PollUnlock else PollEpoch))
    case PollEpoch => Set(g, id, lease.(pc := if lease.epoch != g.epoch then PollUnlock else PollInsert))
    case PollInsert => Set(g.(wakers := g.wakers + {id}), id, lease.(pc := PollInner, parked := true))
    case PollInner => Set(g, id, lease.(pc := PollUnlock, parked := lease.parked && !ready))
    case PollUnlock => Set(g.(waker := Free), id, lease.(pc := Resting))
    case DropCount =>
      var counted := g.(active := if g.active > 0 then g.active - 1 else 0, live := g.live - {id});
      if g.active == 1 then Set(counted, id, lease.(pc := DropNotify)) else Gone(counted, id)
    case DropNotify => Gone(g.(generation := g.generation + 1), id)
  }

  /** A new lease: it counts as active and has its id before it reads the epoch it belongs to. */
  function Opened(g: Gate): Gate {
    g.(leases := g.leases[g.nextId := Lease(0, Opening, false)], nextId := g.nextId + 1,
       active := g.active + 1, live := g.live + {g.nextId})
  }

  datatype Action =
    | Call(thread: nat, entry: Pc)
    | ThreadStep(thread: nat, pick: nat, ok: bool, made: Client)
    | Abandon(thread: nat)
    | Open
    | LeaseStep(lease: nat, drop: bool, ready: bool)

  predicate Can(s: State, a: Action) {
    match a
    case Call(t, entry) => (t !in s.threads || s.threads[t].Idle?) && Entry(entry)
    case ThreadStep(t, pick, _, _) => t in s.threads && CanRun(s.route, s.gate, s.threads[t], pick)
    case Abandon(t) => t in s.threads && Exit(s.threads[t])
    case Open => true
    case LeaseStep(id, _, _) => id in s.gate.leases && CanMove(s.gate, s.gate.leases[id])
  }

  function Next(s: State, a: Action): State
    requires Can(s, a)
  {
    match a
    case Call(t, entry) => s.(threads := s.threads[t := entry])
    case ThreadStep(t, pick, ok, made) => Run(s, t, pick, ok, made)
    case Abandon(t) => s.(threads := s.threads[t := Idle])
    case Open => s.(gate := Opened(s.gate))
    case LeaseStep(id, drop, ready) => s.(gate := Move(s.gate, s.route.desired, id, drop, ready))
  }
}
