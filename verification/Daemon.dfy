/**
 The daemon's authoritative routing state as a value: capture decisions, the failsafe, the
 handoff gate, endpoint availability and the staged route policy, around one ledger.
 */
module Daemon {
  import opened Base
  import opened Ledger
  import H = Handoff

  // ---------------------------------------------------------------- configuration

  datatype Paired = Paired(host: HostId, peer: nat)

  datatype DeviceRoute = DeviceRoute(device: DeviceId, route: Route)

  datatype ShortcutKey = AnyControl | AnyAlt | AnyShift | AnyMeta | AnyBackspace | AnyEscape
                       | Physical(page: nat, usage: nat)

  /** Sections of the configuration that routing never looks at, with their own validity. */
  datatype OtherSections = OtherSections(wellFormed: bool, content: nat)

  type U32 = x: nat | x < 0x1_0000_0000

  datatype Config = Config(
    paired: seq<Paired>,
    routes: seq<DeviceRoute>,
    revision: U64,
    shortcut: seq<ShortcutKey>,
    suspendSeconds: U32,
    other: OtherSections)

  const MAX_DEVICE_ROUTES: nat := 1024

  type Table = map<DeviceId, Route>

  predicate ValidEntry(r: DeviceRoute) {
    r.device != NIL && (r.route.ToHost? ==> r.route.host != NIL)
  }

  /** The compiled table, or nothing for nil identifiers, duplicates or too many entries. */
  function Compile(routes: seq<DeviceRoute>): Option<Table> {
    if routes == [] then Some(map[])
    else
      var last := routes[|routes| - 1];
      match Compile(routes[..|routes| - 1])
      case None => None
      case Some(t) =>
        if !ValidEntry(last) || last.device in t || |t| >= MAX_DEVICE_ROUTES then None
        else Some(t[last.device := last.route])
  }

  /** Devices without an entry follow the active host. */
  function RouteFor(t: Table, d: DeviceId): Route {
    if d in t then t[d] else FollowActiveHost
  }

  predicate ValidConfig(c: Config) {
    && c.other.wellFormed
    && |c.paired| <= 256
    && (forall i, j | 0 <= i < j < |c.paired| ::
        c.paired[i].host != c.paired[j].host && c.paired[i].peer != c.paired[j].peer)
    && (forall p | p in c.paired :: p.host != NIL && p.peer != NIL)
    && |c.routes| <= MAX_DEVICE_ROUTES
    && (forall i, j | 0 <= i < j < |c.routes| :: c.routes[i].device != c.routes[j].device)
    && (forall r | r in c.routes ::
          r.device != NIL
            && (r.route.ToHost? ==> r.route.host != NIL && exists p | p in c.paired :: p.host == r.route.host))
    && 1 <= |c.shortcut| <= 8
    && (forall i, j | 0 <= i < j < |c.shortcut| :: c.shortcut[i] != c.shortcut[j])
    && c.suspendSeconds >= 1
  }

  predicate PairsEndpoint(c: Config, e: Endpoint) {
    Paired(e.host, e.peer) in c.paired
  }

  predicate PairsHost(c: Config, h: HostId) {
    exists p | p in c.paired :: p.host == h
  }

  // ---------------------------------------------------------------- state

  datatype PeerState = Disconnected | Discovering | Connecting | Authenticating | Connected | Degraded

  datatype Availability = Availability(endpoint: Endpoint, state: PeerState)

  datatype Lifecycle = Running(requested: bool) | ShuttingDown

  datatype Transition = Press | Repeat | Release

  /** A control and what happened to it. */
  datatype Touch = Touch(control: Control, transition: Transition)

  /** A remote decision handed out and not yet confirmed or failed. */
  datatype Decision = Decision(id: U64, device: DeviceId, touch: Option<Touch>, previous: Option<Latch>,
                               endpoint: Endpoint)

  datatype Candidate = Candidate(revision: U64, config: Config, table: Table, affected: set<DeviceId>)

  /** What capture callbacks see. */
  datatype Snapshot = Snapshot(view: H.View, table: Table, peers: map<HostId, PeerState>, enabled: bool,
                               ready: bool, handoff: bool)

  datatype Core = Core(
    config: Config,
    view: H.View,
    table: Table,
    peers: map<HostId, PeerState>,
    endpoints: map<HostId, Availability>,
    lifecycle: Lifecycle,
    suspendedUntil: U64,
    drain: bool,
    ledger: Ledger,
    decision: Option<Decision>,
    candidate: Option<Candidate>,
    revision: U64,
    gated: set<DeviceId>,
    ready: bool,
    handoff: bool,
    published: Snapshot)

  datatype Result<+T> = Ok(value: T) | Err(error: Error)

  /** One finished operation: the state it leaves and what it reports. */
  datatype Turn<+T> = Turn(core: Core, result: Result<T>)

  function AsResult(error: Option<Error>): Result<()> {
    if error.Some? then Err(error.value) else Ok(())
  }

  function Done(s: Core, error: Option<Error>): Turn<()> {
    Turn(s, AsResult(error))
  }

  // ---------------------------------------------------------------- gating and publication

  predicate RoutingActive(s: Core, now: U64) {
    && s.lifecycle == Running(true)
    && now >= s.suspendedUntil
    && !s.drain
    && s.ready
    && (!Pending(s.ledger) || s.candidate.Some?)
    && s.decision.None?
  }

  /** What capture callbacks see is the state as it stood when `now` was the time. */
  predicate Mirrors(s: Core, now: U64) {
    s.published == Snapshot(s.view, s.table, s.peers, RoutingActive(s, now), s.ready, s.handoff)
  }

  function Publish(s: Core, now: U64): (t: Core)
    ensures t == s.(published := t.published) && Mirrors(t, now)
  {
    s.(published := Snapshot(s.view, s.table, s.peers, RoutingActive(s, now), s.ready, s.handoff))
  }

  function GoLocal(s: Core): Core {
    s.(view := s.view.(activeHost := s.view.localHost))
  }

  /** Routing is closed, control is local, and every held control is owed its release. */
  function FailClosed(s: Core, now: U64): Turn<()> {
    var q := Queue(s.ledger, s.ledger.held.Keys);
    Done(Publish(GoLocal(s).(ready := false, handoff := false, ledger := q.ledger), now), q.error)
  }

  function HeldOn(l: Ledger, e: Endpoint): set<HeldKey> {
    set k | k in l.held && k.endpoint == e
  }

  function HeldBy(l: Ledger, devices: set<DeviceId>): set<HeldKey> {
    set k | k in l.held && k.device in devices
  }

  function HeldUnpaired(l: Ledger, c: Config): set<HeldKey> {
    set k | k in l.held && !PairsEndpoint(c, k.endpoint)
  }

  function FollowingHeld(l: Ledger): set<HeldKey> {
    set k | k in l.held && l.held[k].route == FollowActiveHost
  }

  // ---------------------------------------------------------------- failsafe

  predicate ShortcutMatches(k: ShortcutKey, c: KeyCode) {
    match k
    case AnyControl => c == ControlLeft || c == ControlRight
    case AnyAlt => c == AltLeft || c == AltRight
    case AnyShift => c == ShiftLeft || c == ShiftRight
    case AnyMeta => c == MetaLeft || c == MetaRight
    case AnyBackspace => c == Backspace
    case AnyEscape => c == Escape
    case Physical(page, usage) => c == Unidentified(page, usage)
  }

  /** The key is down on some device, wherever its lifecycle went. */
  predicate ShortcutPressed(l: Ledger, k: ShortcutKey) {
    exists s | s in l.latches :: s.control.Key? && ShortcutMatches(k, s.control.code)
  }

  predicate FailsafeMatches(s: Core) {
    forall k | k in s.config.shortcut :: ShortcutPressed(s.ledger, k)
  }

  predicate AnyFailsafeKey(s: Core) {
    exists k | k in s.config.shortcut :: ShortcutPressed(s.ledger, k)
  }

  const NANOS_PER_SECOND: nat := 1_000_000_000

  function SuspensionEnd(c: Config, now: U64): U64 {
    if now + c.suspendSeconds * NANOS_PER_SECOND <= U64_MAX then now + c.suspendSeconds * NANOS_PER_SECOND else U64_MAX
  }

  function ActivateFailsafe(s: Core, now: U64): Turn<()> {
    var q := Queue(s.ledger, s.ledger.held.Keys);
    var t := GoLocal(s).(suspendedUntil := SuspensionEnd(s.config, now), handoff := false, ledger := q.ledger,
                         ready := s.ready && q.error.None?);
    Done(Publish(t, now), q.error)
  }

  // ---------------------------------------------------------------- captured input

  datatype KeyState = Pressed | Repeated | Lifted

  datatype Payload = KeyPayload(code: KeyCode, state: KeyState) | ButtonPayload(button: nat, down: bool)
    | Motion(finite: bool)

  datatype Event = Event(physical: bool, sourceHost: HostId, device: DeviceId, payload: Payload)

  datatype Disposition = AllowLocal | SuppressLocal

  datatype RouteState = StateLocal | StateInert | StateQueued | StateGated

  datatype CaptureOutcome = CaptureOutcome(disposition: Disposition, failsafe: bool, state: RouteState)

  const LOCAL := CaptureOutcome(AllowLocal, false, StateLocal)
  const LOCAL_GATED := CaptureOutcome(AllowLocal, false, StateGated)
  const ESCAPED := CaptureOutcome(AllowLocal, true, StateGated)
  const INERT := CaptureOutcome(SuppressLocal, false, StateInert)
  const QUEUED := CaptureOutcome(SuppressLocal, false, StateQueued)
  const SUPPRESSED_GATED := CaptureOutcome(SuppressLocal, false, StateGated)

  /** The affine right to queue one event on one endpoint. */
  datatype InputEffect = InputEffect(id: U64, endpoint: Endpoint, event: Event)

  datatype CaptureDecision =
    | DecidedLocal(outcome: CaptureOutcome)
    | DecidedInert(outcome: CaptureOutcome)
    | DecidedRemote(effect: InputEffect)
    | DecidedFault(outcome: CaptureOutcome, error: Error)

  function TouchOf(p: Payload): Option<Touch> {
    match p
    case KeyPayload(code, Pressed) => Some(Touch(Key(code), Press))
    case KeyPayload(code, Repeated) => Some(Touch(Key(code), Repeat))
    case KeyPayload(code, Lifted) => Some(Touch(Key(code), Release))
    case ButtonPayload(b, down) => Some(Touch(Button(b), if down then Press else Release))
    case Motion(_) => None
  }

  predicate Is(touch: Option<Touch>, t: Transition) {
    touch.Some? && touch.value.transition == t
  }

  predicate Eligible(s: Core, e: Event) {
    e.physical && e.sourceHost == s.view.localHost && e.device != NIL && (e.payload.Motion? ==> e.payload.finite)
  }

  const MAX_PHYSICAL_DEVICES: nat := 64
  const MAX_PHYSICAL_PER_DEVICE: nat := 256
  const MAX_PHYSICAL_TOTAL: nat := 1024

  function Devices(latches: map<Slot, Latch>): set<DeviceId> {
    set s | s in latches :: s.device
  }

  function SlotsOf(latches: map<Slot, Latch>, d: DeviceId): set<Slot> {
    set s | s in latches && s.device == d
  }

  predicate HasPhysicalRoom(latches: map<Slot, Latch>, d: DeviceId) {
    && (d in Devices(latches) || |Devices(latches)| < MAX_PHYSICAL_DEVICES)
    && |SlotsOf(latches, d)| < MAX_PHYSICAL_PER_DEVICE
    && |latches| < MAX_PHYSICAL_TOTAL
  }

  function LatchAt(l: Ledger, slot: Slot): Option<Latch> {
    if slot in l.latches then Some(l.latches[slot]) else None
  }

  /** What a stateful event does to the physical state before anything is decided. */
  function Register(l: Ledger, slot: Slot, t: Transition): Ledger {
    match t
    case Press => if slot in l.latches then l else l.(latches := l.latches[slot := ToLocal])
    case Repeat => l
    case Release => l.(latches := l.latches - {slot})
  }

  /** One identifier is used up. */
  function Burn(l: Ledger): Ledger
    requires l.nextId < U64_MAX
  {
    l.(nextId := l.nextId + 1)
  }

  /** Hands out one remote decision, or falls back when no identifier or room is left. */
  function PrepareRemote(s: Core, e: Event, endpoint: Endpoint, touch: Option<Touch>, previous: Option<Latch>,
                         now: U64): Turn<CaptureDecision> {
    if Is(touch, Press) && previous.None? && |s.ledger.held| >= MAX_REMOTE_HELD then
      Turn(FailClosed(s, now).core, Err(CapacityExceeded))
    else if s.ledger.nextId == U64_MAX then
      var f := FailClosed(s, now);
      var outcome := if previous.Some? && previous.value.ToRemote? then SUPPRESSED_GATED else LOCAL_GATED;
      Turn(f.core, Ok(DecidedFault(outcome, if f.result.Err? then f.result.error else IdentifiersExhausted)))
    else
      var id := s.ledger.nextId;
      Turn(s.(ledger := Burn(s.ledger), decision := Some(Decision(id, e.device, touch, previous, endpoint))),
           Ok(DecidedRemote(InputEffect(id, endpoint, e))))
  }

  function TargetEndpoint(s: Core, target: HostId, route: Route, now: U64): Option<Endpoint> {
    if target !in s.endpoints then None
    else
      var a := s.endpoints[target];
      if RoutingActive(s, now) && (!s.handoff || route != FollowActiveHost) && a.state == Connected
      then Some(a.endpoint) else None
  }

  predicate EndpointAvailable(s: Core, e: Endpoint, route: Route, now: U64) {
    TargetEndpoint(s, e.host, route, now) == Some(e)
  }

  /** Where the committed policy sends a device; nothing means this host. */
  function Destination(s: Core, d: DeviceId): Option<HostId> {
    if s.view.activeHost == NIL || s.view.localHost == NIL then None
    else
      match RouteFor(s.table, d)
      case LocalOnly => None
      case FollowActiveHost => if s.view.activeHost == s.view.localHost then None else Some(s.view.activeHost)
      case ToHost(h) => if h == s.view.localHost then None else Some(h)
  }

  predicate DeviceGated(s: Core, d: DeviceId) {
    d in s.gated || (s.candidate.Some? && d in s.candidate.value.affected)
  }

  function PrepareCaptured(s: Core, e: Event, now: U64): Turn<CaptureDecision> {
    if s.decision.Some? then Turn(s, Err(Unavailable))
    else if !Eligible(s, e) then Turn(s, Ok(DecidedLocal(LOCAL)))
    else
      var touch := TouchOf(e.payload);
      if touch.None? then Decide(s, e, touch, None, now)
      else
        var slot := Slot(e.device, touch.value.control);
        var previous := LatchAt(s.ledger, slot);
        if Is(touch, Press) && previous.None? && !HasPhysicalRoom(s.ledger.latches, e.device) then
          Turn(FailClosed(s, now).core, Err(CapacityExceeded))
        else
          Decide(s.(ledger := Register(s.ledger, slot, touch.value.transition)), e, touch, previous, now)
  }

  /** The failsafe is looked at before any routing decision. */
  function Decide(s: Core, e: Event, touch: Option<Touch>, previous: Option<Latch>, now: U64): Turn<CaptureDecision> {
    if FailsafeMatches(s) && !s.drain then
      var f := ActivateFailsafe(s.(drain := true), now);
      Turn(f.core, Ok(if f.result.Ok? then DecidedLocal(ESCAPED) else DecidedFault(ESCAPED, f.result.error)))
    else if s.drain then
      Turn(Publish(s.(drain := AnyFailsafeKey(s)), now), Ok(DecidedLocal(LOCAL_GATED)))
    else if previous.Some? then Continue(s, e, touch, previous.value, now)
    else if Is(touch, Repeat) || Is(touch, Release) then Turn(s, Ok(DecidedLocal(LOCAL)))
    else Begin(s, e, touch, now)
  }

  /** A lifecycle that is already under way goes where it went before. */
  function Continue(s: Core, e: Event, touch: Option<Touch>, latch: Latch, now: U64): Turn<CaptureDecision> {
    match latch
    case ToLocal => Turn(s, Ok(DecidedLocal(LOCAL)))
    case Quarantined => Turn(s, Ok(DecidedInert(INERT)))
    case ToRemote(endpoint, route) =>
      if EndpointAvailable(s, endpoint, route, now) then PrepareRemote(s, e, endpoint, touch, Some(latch), now)
      else
        var f := FailClosed(s, now);
        Turn(f.core,
             Ok(if f.result.Ok? then DecidedInert(SUPPRESSED_GATED)
                else DecidedFault(SUPPRESSED_GATED, f.result.error)))
  }

  /** A new lifecycle, or an event without one. */
  function Begin(s: Core, e: Event, touch: Option<Touch>, now: U64): Turn<CaptureDecision> {
    var route := RouteFor(s.table, e.device);
    if DeviceGated(s, e.device) then Turn(s, Ok(DecidedLocal(LOCAL_GATED)))
    else if s.handoff && route == FollowActiveHost then
      var l := s.ledger;
      var parked := Is(touch, Press) && Slot(e.device, touch.value.control) in l.latches;
      Turn(if parked then s.(ledger := l.(latches := l.latches[Slot(e.device, touch.value.control) := Quarantined]))
           else s,
           Ok(DecidedInert(INERT)))
    else
      match Destination(s, e.device)
      case None => Turn(s, Ok(DecidedLocal(LOCAL)))
      case Some(target) =>
        match TargetEndpoint(s, target, route, now)
        case None => Turn(s, Ok(DecidedLocal(LOCAL_GATED)))
        case Some(endpoint) => PrepareRemote(s, e, endpoint, touch, None, now)
  }

  /** Takes the outstanding decision back, or closes routing when the token does not match it. */
  function TakeDecision(s: Core, id: U64, now: U64): Turn<Decision> {
    if s.decision.Some? && s.decision.value.id == id
    then Turn(s.(decision := None), Ok(s.decision.value))
    else Turn(Publish(GoLocal(s).(ready := false, handoff := false), now), Err(StaleDecision))
  }

  function RouteOf(s: Core, d: Decision): Route {
    if d.previous.Some? && d.previous.value.ToRemote? then d.previous.value.route else RouteFor(s.table, d.device)
  }

  /** What an accepted decision does to the ledger, or why it cannot be entered. */
  function Enter(l: Ledger, d: Decision, route: Route, sequence: U64): Result<Ledger> {
    if d.touch.None? then Ok(l)
    else
      var key := HeldKey(d.endpoint, d.device, d.touch.value.control);
      match d.touch.value.transition
      case Press =>
        if key !in l.held && |l.held| >= MAX_REMOTE_HELD then Err(CapacityExceeded)
        else
          var latches := if SlotOf(key) in l.latches then l.latches[SlotOf(key) := ToRemote(d.endpoint, route)]
            else l.latches;
          Ok(l.(held := l.held[key := Held(route, sequence)], latches := latches))
      case Release => Ok(l.(held := l.held - {key}))
      case Repeat =>
        if key !in l.held then Err(StaleDecision)
        else Ok(l.(held := l.held[key := l.held[key].(sequence := sequence)]))
  }

  /** The event entered the endpoint's queue under `sequence`. */
  function ConfirmRemote(s: Core, effect: InputEffect, sequence: U64, now: U64): Turn<CaptureOutcome> {
    var taken := TakeDecision(s, effect.id, now);
    if taken.result.Err? then Turn(taken.core, Err(taken.result.error))
    else
      var d := taken.result.value;
      match Enter(taken.core.ledger, d, RouteOf(taken.core, d), sequence)
      case Ok(l) => Turn(Publish(taken.core.(ledger := l), now), Ok(QUEUED))
      case Err(error) =>
        var f := FailClosed(taken.core, now);
        Turn(f.core, Err(if error == CapacityExceeded && f.result.Err? then f.result.error else error))
  }

  /** The event did not enter the queue. */
  function FailRemote(s0: Core, effect: InputEffect, now: U64): Turn<CaptureOutcome> {
    var taken := TakeDecision(s0, effect.id, now);
    if taken.result.Err? then Turn(taken.core, Err(taken.result.error))
    else
      var d := taken.result.value;
      var l := taken.core.ledger;
      var first := Is(d.touch, Press) && d.previous.None? && Slot(d.device, d.touch.value.control) in l.latches;
      var s :=
        if first then taken.core.(ledger := l.(latches := l.latches[Slot(d.device, d.touch.value.control) := ToLocal]))
        else taken.core;
      Turn(FailClosed(s, now).core,
           Ok(if d.previous.Some? && d.previous.value.ToRemote? then SUPPRESSED_GATED else LOCAL_GATED))
  }

  /** One captured record from decision to settlement: `accepted` is its place in the queue, if it got one. */
  function Capture(s: Core, e: Event, accepted: Option<U64>, now: U64): Turn<CaptureOutcome> {
    var p := PrepareCaptured(s, e, now);
    match p.result
    case Err(error) => Turn(p.core, Err(error))
    case Ok(DecidedRemote(effect)) =>
      if accepted.Some? then ConfirmRemote(p.core, effect, accepted.value, now) else FailRemote(p.core, effect, now)
    case Ok(d) => Turn(p.core, Ok(d.outcome))
  }

  /** What the capture callback is told; an error lets the event act locally. */
  function DispositionOf(r: Result<CaptureOutcome>): Disposition {
    if r.Ok? then r.value.disposition else AllowLocal
  }

  // ---------------------------------------------------------------- cleanup

  function TakeCleanup(s: Core): (Core, Option<Token>) {
    var (l, t) := Take(s.ledger);
    (s.(ledger := l), t)
  }

  function ConfirmCleanup(s: Core, t: Token, now: U64): Turn<()> {
    if !Settles(s.ledger, t) then Turn(Publish(s.(ready := false), now), Err(StaleCleanup))
    else Turn(Publish(s.(ledger := Released(s.ledger)), now), Ok(()))
  }

  function RetryCleanup(s: Core, t: Token, now: U64): Turn<()> {
    if !Settles(s.ledger, t) then Turn(Publish(s.(ready := false), now), Err(StaleCleanup))
    else Turn(Publish(GoLocal(s).(ledger := s.ledger.(inFlight := None), ready := false, handoff := false), now),
              Ok(()))
  }

  /** The host behind a lost endpoint is no longer reachable, if that endpoint was the one in use. */
  function LoseHost(s: Core, e: Endpoint): Core {
    if e.host !in s.endpoints || s.endpoints[e.host].endpoint != e then s
    else
      s.(view := if s.view.activeHost == e.host then s.view.(activeHost := s.view.localHost) else s.view,
         endpoints := s.endpoints - {e.host},
         peers := if e.host in s.peers then s.peers[e.host := Disconnected] else s.peers,
         ready := false, handoff := false)
  }

  function TransportInvalidated(s: Core, e: Endpoint, now: U64): Core {
    Publish(LoseHost(s, e).(ledger := Invalidate(s.ledger, e)), now)
  }

  // ---------------------------------------------------------------- lifecycle and gates

  /** Publishes a change that came with time alone, and says whether there was one. */
  function Tick(s: Core, now: U64): (Core, bool) {
    var t := s.(drain := s.drain && AnyFailsafeKey(s));
    if t.published.enabled == RoutingActive(t, now) then (t, false) else (Publish(t, now), true)
  }

  function Enable(s: Core, now: U64): Core {
    if s.lifecycle.Running? then Publish(s.(lifecycle := Running(true)), now) else s
  }

  function Disable(s: Core, now: U64): Turn<()> {
    if s.decision.Some? then Turn(s, Err(Unavailable))
    else
      var q := Queue(s.ledger, s.ledger.held.Keys);
      var lifecycle := if s.lifecycle.Running? then Running(false) else s.lifecycle;
      Done(Publish(GoLocal(s).(lifecycle := lifecycle, handoff := false, ledger := q.ledger), now), q.error)
  }

  function Shutdown(s: Core, now: U64): Turn<()> {
    if s.decision.Some? then Turn(s, Err(Unavailable))
    else
      var q := Queue(s.ledger, s.ledger.held.Keys);
      Done(Publish(GoLocal(s).(lifecycle := ShuttingDown, handoff := false, ledger := q.ledger), now), q.error)
  }

  function Emergency(s: Core, now: U64): Turn<()> {
    if s.decision.Some? then Turn(s, Err(Unavailable))
    else ActivateFailsafe(s.(drain := true), now)
  }

  function ClearReady(s: Core, now: U64): Turn<()> {
    if s.decision.Some? then Turn(s, Err(Unavailable)) else FailClosed(s, now)
  }

  function MarkReady(s: Core, now: U64): Turn<()> {
    if || s.decision.Some? || Pending(s.ledger) || s.ledger.held != map[]
       || !(exists h | h in s.endpoints :: s.endpoints[h].state == Connected)
       || !s.lifecycle.Running?
    then Turn(s, Err(Unavailable))
    else Turn(Publish(s.(ready := true), now), Ok(()))
  }

  const MAX_GATED_DEVICES: nat := MAX_DEVICE_ROUTES

  function GateDevices(s: Core, devices: set<DeviceId>, now: U64): Turn<()> {
    if s.decision.Some? || NIL in devices then Turn(s, Err(Unavailable))
    else if |s.gated + devices| > MAX_GATED_DEVICES then Turn(s, Err(CapacityExceeded))
    else
      var q := Queue(s.ledger, HeldBy(s.ledger, devices));
      Done(Publish(s.(gated := s.gated + devices, ledger := q.ledger), now), q.error)
  }

  /** Something of the device is still held, or owed, on some peer. */
  predicate DevicePending(l: Ledger, d: DeviceId) {
    (exists k | k in l.held :: k.device == d) || (exists e | e in l.cleanup :: e.key.device == d)
  }

  function RestoreDevice(s: Core, d: DeviceId, now: U64): Turn<()> {
    if DevicePending(s.ledger, d) then Turn(s, Err(CleanupPending))
    else
      var latches := map c | c in s.ledger.latches && c.device != d :: s.ledger.latches[c];
      Turn(Publish(s.(ledger := s.ledger.(latches := latches), gated := s.gated - {d}), now), Ok(()))
  }

  // ---------------------------------------------------------------- peers and endpoints

  function SetPeerState(s: Core, h: HostId, state: PeerState, now: U64): Turn<()> {
    if s.decision.Some? then Turn(s, Err(Unavailable))
    else if h !in s.peers then Turn(s, Ok(()))
    else if h in s.endpoints then Turn(s, Err(Unavailable))
    else Turn(Publish(s.(peers := s.peers[h := state]), now), Ok(()))
  }

  function InstallEndpoint(s: Core, e: Endpoint, now: U64): Turn<()> {
    if s.decision.Some? || !PairsEndpoint(s.config, e) then Turn(s, Err(Unavailable))
    else if e.host in s.endpoints && s.endpoints[e.host].endpoint != e then Turn(s, Err(Unavailable))
    else
      Turn(Publish(s.(endpoints := s.endpoints[e.host := Availability(e, Connected)],
                      peers := s.peers[e.host := Connected]), now), Ok(()))
  }

  predicate Installed(s: Core, e: Endpoint) {
    e.host in s.endpoints && s.endpoints[e.host].endpoint == e
  }

  function SetEndpointState(s: Core, e: Endpoint, state: PeerState, now: U64): Turn<()> {
    if s.decision.Some? || !Installed(s, e) then Turn(s, Err(Unavailable))
    else
      var t := s.(endpoints := s.endpoints[e.host := Availability(e, state)], peers := s.peers[e.host := state]);
      if state == Connected then Turn(Publish(t, now), Ok(()))
      else
        var q := Queue(s.ledger, HeldOn(s.ledger, e));
        var u := if s.view.activeHost == e.host then GoLocal(t) else t;
        Done(Publish(u.(handoff := false, ready := false, ledger := q.ledger), now), q.error)
  }

  predicate HasObligations(l: Ledger, e: Endpoint) {
    (exists k | k in l.held :: k.endpoint == e) || (exists c | c in l.cleanup :: c.key.endpoint == e)
  }

  function RetireEndpoint(s: Core, e: Endpoint, now: U64): Turn<()> {
    if s.decision.Some? || !Installed(s, e) || s.endpoints[e.host].state == Connected
      || HasObligations(s.ledger, e) then
      Turn(s, Err(CleanupPending))
    else
      var t := if s.view.activeHost == e.host then GoLocal(s) else s;
      Turn(Publish(t.(endpoints := s.endpoints - {e.host}, peers := s.peers[e.host := Disconnected],
                      ready := false, handoff := false), now), Ok(()))
  }

  // ---------------------------------------------------------------- workspace and handoff

  datatype WorkspaceError = CapturePending | WorkspaceCleanup | LocalHostChanged | InvalidAuthority
                          | InvalidConfig | InvalidTable

  datatype WorkspaceTurn = WorkspaceTurn(core: Core, error: Option<WorkspaceError>)

  function UpdateWorkspace(s: Core, v: H.View, now: U64): WorkspaceTurn {
    if s.decision.Some? then WorkspaceTurn(s, Some(CapturePending))
    else if s.candidate.Some? then WorkspaceTurn(s, Some(WorkspaceCleanup))
    else if v.localHost != s.view.localHost then WorkspaceTurn(s, Some(LocalHostChanged))
    else if v.activeDisplay != v.pointer.display then WorkspaceTurn(s, Some(InvalidAuthority))
    else if v.activeHost == s.view.activeHost then WorkspaceTurn(Publish(s.(view := v), now), None)
    else
      var q := Queue(s.ledger, FollowingHeld(s.ledger));
      var t := s.(ledger := q.ledger);
      if q.error.Some? then WorkspaceTurn(s, Some(WorkspaceCleanup))
      else if Pending(q.ledger) then WorkspaceTurn(Publish(t, now), Some(WorkspaceCleanup))
      else WorkspaceTurn(Publish(t.(view := v), now), None)
  }

  function BeginHandoff(s: Core, now: U64): Turn<()> {
    if s.decision.Some? || s.candidate.Some? then Turn(s, Err(Unavailable))
    else
      var q := Queue(s.ledger, FollowingHeld(s.ledger));
      Done(Publish(s.(handoff := true, ledger := q.ledger), now), q.error)
  }

  function CancelHandoff(s: Core, now: U64): Core {
    Publish(GoLocal(s).(handoff := false), now)
  }

  function AbortBarrier(s: Core, now: U64): Core {
    Publish(s.(handoff := false), now)
  }

  function FinishHandoff(s: Core, v: H.View, now: U64): WorkspaceTurn {
    if s.decision.Some? then WorkspaceTurn(s, Some(CapturePending))
    else if s.candidate.Some? || Pending(s.ledger) then WorkspaceTurn(s, Some(WorkspaceCleanup))
    else
      var u := UpdateWorkspace(s, v, now);
      if u.error.Some? then u else WorkspaceTurn(Publish(u.core.(handoff := false), now), None)
  }

  // ---------------------------------------------------------------- route policy

  datatype PolicyStatus = PolicyCleanup | ReadyToPersist

  datatype PolicyError = InvalidCandidate | StaleRevision | ConflictingUpdate | RevisionExhausted
                       | PolicyCapturePending | CleanupUnavailable | NotReady

  datatype PolicyTurn<+T> = PolicyDone(core: Core, value: T) | PolicyFailed(core: Core, error: PolicyError)

  function Affected(from: Config, to: Config, current: Table, next: Table): set<DeviceId> {
    set r | r in from.routes + to.routes && RouteFor(current, r.device) != RouteFor(next, r.device) :: r.device
  }

  predicate ResolvesTo(route: Route, e: Endpoint, v: H.View, endpoints: map<HostId, Availability>) {
    && (match route
        case LocalOnly => e.host == v.localHost
        case FollowActiveHost => e.host == v.activeHost && e.host != v.localHost
        case ToHost(h) => h == e.host && e.host != v.localHost)
    && e.host in endpoints && endpoints[e.host].endpoint == e
  }

  /** Held controls the candidate policy would leave on an endpoint it does not route to. */
  function Misrouted(s: Core, c: Candidate): set<HeldKey> {
    set k | k in s.ledger.held && k.device in c.affected
      && !ResolvesTo(RouteFor(c.table, k.device), k.endpoint, s.view, s.endpoints)
  }

  function PolicyProgress(s: Core, c: Candidate): PolicyStatus {
    if Pending(s.ledger) || Misrouted(s, c) != {} then PolicyCleanup else ReadyToPersist
  }

  function PrepareRoutes(s: Core, proposed: Config, expected: U64, now: U64): PolicyTurn<PolicyStatus> {
    if s.decision.Some? then PolicyFailed(s, PolicyCapturePending)
    else if s.handoff then PolicyFailed(s, CleanupUnavailable)
    else if s.candidate.Some? then
      var c := s.candidate.value;
      if expected != s.revision then PolicyFailed(s, StaleRevision)
      else if proposed.(revision := c.revision) != c.config then PolicyFailed(s, ConflictingUpdate)
      else PolicyDone(s, PolicyProgress(s, c))
    else if expected != s.revision then PolicyFailed(s, StaleRevision)
    else if s.revision == U64_MAX then PolicyFailed(s, RevisionExhausted)
    else
      var config := proposed.(revision := s.revision + 1);
      var table := Compile(config.routes);
      if !ValidConfig(config) || table.None?
        || config != s.config.(routes := config.routes, revision := s.revision + 1) then
        PolicyFailed(s, InvalidCandidate)
      else if Pending(s.ledger) then PolicyFailed(s, CleanupUnavailable)
      else
        var c := Candidate(s.revision + 1, config, table.value, Affected(s.config, config, s.table, table.value));
        var q := Queue(s.ledger, Misrouted(s, c));
        if q.error.Some? then PolicyFailed(s, CleanupUnavailable)
        else
          var t := Publish(s.(ledger := q.ledger, candidate := Some(c)), now);
          PolicyDone(t, PolicyProgress(t, c))
  }

  function RetryRoutes(s: Core, now: U64): PolicyTurn<PolicyStatus> {
    if s.decision.Some? then PolicyFailed(s, PolicyCapturePending)
    else if s.candidate.None? then PolicyFailed(s, NotReady)
    else
      var c := s.candidate.value;
      var q := Queue(s.ledger, Misrouted(s, c));
      if q.error.Some? then PolicyFailed(s, CleanupUnavailable)
      else
        var t := Publish(s.(ledger := q.ledger), now);
        PolicyDone(t, PolicyProgress(t, c))
  }

  /** The durable payload, only once nothing it displaces is still held. */
  function StagedRoutes(s: Core): Option<Candidate> {
    if s.candidate.Some? && PolicyProgress(s, s.candidate.value) == ReadyToPersist then s.candidate else None
  }

  /** Lifecycles that continue under the new policy carry its routes. */
  function Relabel(l: Ledger, table: Table): Ledger {
    l.(held := map k | k in l.held :: l.held[k].(route := RouteFor(table, k.device)),
       latches := map c | c in l.latches ::
         if l.latches[c].ToRemote? then l.latches[c].(route := RouteFor(table, c.device)) else l.latches[c])
  }

  function CommitRoutes(s: Core, revision: U64, now: U64): PolicyTurn<U64> {
    if s.decision.Some? then PolicyFailed(s, PolicyCapturePending)
    else if StagedRoutes(s).None? then PolicyFailed(s, NotReady)
    else
      var c := s.candidate.value;
      if c.revision != revision then PolicyFailed(s, ConflictingUpdate)
      else
        PolicyDone(Publish(s.(ledger := Relabel(s.ledger, c.table), candidate := None, config := c.config,
                              table := c.table, revision := revision), now), revision)
  }

  function AbortRoutes(s: Core, revision: U64, now: U64): PolicyTurn<()> {
    if s.candidate.None? then PolicyFailed(s, NotReady)
    else if s.candidate.value.revision != revision then PolicyFailed(s, ConflictingUpdate)
    else PolicyDone(Publish(s.(candidate := None), now), ())
  }

  function PeersFor(c: Config, peers: map<HostId, PeerState>): map<HostId, PeerState> {
    map p | p in c.paired :: p.host := if p.host in peers then peers[p.host] else Disconnected
  }

  /** Replaces everything but the route policy, once nothing is held on a peer that is gone. */
  function ReplaceConfig(s: Core, config: Config, now: U64): WorkspaceTurn {
    if s.decision.Some? then WorkspaceTurn(s, Some(CapturePending))
    else if s.candidate.Some? then WorkspaceTurn(s, Some(WorkspaceCleanup))
    else if !ValidConfig(config) then WorkspaceTurn(s, Some(InvalidConfig))
    else if Compile(config.routes).None? then WorkspaceTurn(s, Some(InvalidTable))
    else if Pending(s.ledger) then WorkspaceTurn(s, Some(WorkspaceCleanup))
    else
      var q := Queue(s.ledger, HeldUnpaired(s.ledger, config));
      if q.error.Some? then WorkspaceTurn(s, Some(WorkspaceCleanup))
      else if Pending(q.ledger) then WorkspaceTurn(Publish(s.(ledger := q.ledger), now), Some(WorkspaceCleanup))
      else WorkspaceTurn(Publish(Adopt(s.(ledger := q.ledger), config, Compile(config.routes).value), now), None)
  }

  /** The new configuration takes effect; an active host that is no longer paired gives way to this one. */
  function Adopt(s: Core, config: Config, table: Table): (t: Core)
    ensures t == s.(view := t.view, ready := t.ready, handoff := t.handoff, peers := t.peers, config := config,
                    table := table)
    ensures (t.view == s.view && t.handoff == s.handoff)
            || (t.view == s.view.(activeHost := s.view.localHost) && !t.handoff)
  {
    var peers := PeersFor(config, s.peers);
    var lost := s.view.activeHost !in peers && s.view.activeHost != s.view.localHost;
    (if lost then GoLocal(s).(ready := false, handoff := false)
     else s).(peers := peers, config := config, table := table)
  }

  function AsWorkspaceError(e: PolicyError): WorkspaceError {
    match e
    case PolicyCapturePending => CapturePending
    case CleanupUnavailable => WorkspaceCleanup
    case NotReady => WorkspaceCleanup
    case _ => InvalidTable
  }

  /** Stages and commits a changed route policy at once, where nothing stands in the way. */
  function ReplaceRoutes(s: Core, config: Config, now: U64): WorkspaceTurn {
    var p := PrepareRoutes(s, config, s.revision, now);
    if p.PolicyFailed? then WorkspaceTurn(p.core, Some(AsWorkspaceError(p.error)))
    else if p.value == PolicyCleanup then WorkspaceTurn(p.core, Some(WorkspaceCleanup))
    else
      var staged := StagedRoutes(p.core);
      if staged.None? then WorkspaceTurn(p.core, Some(InvalidTable))
      else
        var c := CommitRoutes(p.core, staged.value.revision, now);
        WorkspaceTurn(c.core, if c.PolicyDone? then None else Some(InvalidTable))
  }

  function UpdateConfig(s: Core, config: Config, now: U64): WorkspaceTurn {
    if config.routes == s.config.routes && config.revision == s.revision then ReplaceConfig(s, config, now)
    else ReplaceRoutes(s, config, now)
  }

  /** A running core whose authority is local and whose peers are all still unknown. */
  function Start(config: Config, v: H.View): Option<Core> {
    var table := Compile(config.routes);
    if !ValidConfig(config) || v.localHost == NIL || v.activeHost != v.localHost || v.activeDisplay != v.pointer.display
      || table.None? then None
    else
      var peers := PeersFor(config, map[]);
      Some(Core(config, v, table.value, peers, map[], Running(true), 0, false, Ledger(map[], map[], [], None, 1),
                None, None, config.revision, {}, false, false, Snapshot(v, table.value, peers, false, false, false)))
  }
}
