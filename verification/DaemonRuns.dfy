/** Runs of the daemon core: every operation at every moment, in any order. */
module DaemonRuns {
  import opened Base
  import opened Ledger
  import opened Daemon
  import opened LedgerLemmas
  import H = Handoff

  // ---------------------------------------------------------------- operations

  datatype Op =
    | Captured(event: Event, accepted: Option<U64>)
    | Ticked
    | ConfigUpdated(config: Config)
    | RoutesPrepared(config: Config, expected: U64)
    | RoutesRetried
    | RoutesCommitted(revision: U64)
    | RoutesAborted(revision: U64)
    | DevicesGated(devices: set<DeviceId>)
    | DeviceRestored(device: DeviceId)
    | WorkspaceUpdated(view: H.View)
    | HandoffBegun
    | HandoffCancelled
    | BarrierAborted
    | HandoffFinished(view: H.View)
    | PeerStateSet(host: HostId, state: PeerState)
    | EndpointInstalled(endpoint: Endpoint)
    | EndpointStateSet(endpoint: Endpoint, state: PeerState)
    | EndpointRetired(endpoint: Endpoint)
    | Enabled
    | Disabled
    | EmergencyTriggered
    | ShutDown
    | ReadyCleared
    | ReadyMarked
    | CleanupTaken
    | CleanupConfirmed(token: Token)
    | CleanupRetried(token: Token)
    | TransportLost(endpoint: Endpoint)

  function Apply(s: Core, op: Op, now: U64): Core {
    match op
    case Captured(e, accepted) => Capture(s, e, accepted, now).core
    case Ticked => Tick(s, now).0
    case ConfigUpdated(c) => UpdateConfig(s, c, now).core
    case RoutesPrepared(c, expected) => PrepareRoutes(s, c, expected, now).core
    case RoutesRetried => RetryRoutes(s, now).core
    case RoutesCommitted(r) => CommitRoutes(s, r, now).core
    case RoutesAborted(r) => AbortRoutes(s, r, now).core
    case DevicesGated(devices) => GateDevices(s, devices, now).core
    case DeviceRestored(d) => RestoreDevice(s, d, now).core
    case WorkspaceUpdated(v) => UpdateWorkspace(s, v, now).core
    case HandoffBegun => BeginHandoff(s, now).core
    case HandoffCancelled => CancelHandoff(s, now)
    case BarrierAborted => AbortBarrier(s, now)
    case HandoffFinished(v) => FinishHandoff(s, v, now).core
    case PeerStateSet(h, state) => SetPeerState(s, h, state, now).core
    case EndpointInstalled(e) => InstallEndpoint(s, e, now).core
    case EndpointStateSet(e, state) => SetEndpointState(s, e, state, now).core
    case EndpointRetired(e) => RetireEndpoint(s, e, now).core
    case Enabled => Enable(s, now)
    case Disabled => Disable(s, now).core
    case EmergencyTriggered => Emergency(s, now).core
    case ShutDown => Shutdown(s, now).core
    case ReadyCleared => ClearReady(s, now).core
    case ReadyMarked => MarkReady(s, now).core
    case CleanupTaken => TakeCleanup(s).0
    case CleanupConfirmed(t) => ConfirmCleanup(s, t, now).core
    case CleanupRetried(t) => RetryCleanup(s, t, now).core
    case TransportLost(e) => TransportInvalidated(s, e, now)
  }

  datatype Step = Step(now: U64, op: Op)

  function Execute(s: Core, steps: seq<Step>): Core
    decreases |steps|
  {
    if steps == [] then s
    else
      var n := |steps| - 1;
      Apply(Execute(s, steps[..n]), steps[n].op, steps[n].now)
  }

  // ---------------------------------------------------------------- what a capture does

  /** The ledger once the event's own press or release is noted. */
  function Noted(l: Ledger, e: Event): Ledger {
    var touch := TouchOf(e.payload);
    if touch.None? then l else Register(l, Slot(e.device, touch.value.control), touch.value.transition)
  }

  /** What becomes of a decision: a remote one is confirmed or failed, any other is final. */
  function Settlement(r: Turn<CaptureDecision>, accepted: Option<U64>, now: U64): Core {
    if r.result.Ok? && r.result.value.DecidedRemote? then
      if accepted.Some? then ConfirmRemote(r.core, r.result.value.effect, accepted.value, now).core
      else FailRemote(r.core, r.result.value.effect, now).core
    else r.core
  }

  /** Something an endpoint was told for certain, or an endpoint's end. */
  datatype Fact = Down(key: HeldKey, sequence: U64) | Still(key: HeldKey, sequence: U64) | Up(key: HeldKey)
    | Gone(endpoint: Endpoint)

  /** What a confirmed decision told its endpoint. */
  function Told(r: Turn<CaptureDecision>, e: Event, accepted: Option<U64>, now: U64): seq<Fact> {
    if r.result.Err? || !r.result.value.DecidedRemote? || accepted.None? || TouchOf(e.payload).None? then []
    else if ConfirmRemote(r.core, r.result.value.effect, accepted.value, now).result.Err? then []
    else
      var touch := TouchOf(e.payload).value;
      var key := HeldKey(r.result.value.effect.endpoint, e.device, touch.control);
      match touch.transition
      case Press => [Down(key, accepted.value)]
      case Repeat => [Still(key, accepted.value)]
      case Release => [Up(key)]
  }

  /** A first press is on its way to `endpoint`. */
  predicate Sends(l: Ledger, r: Turn<CaptureDecision>, e: Event, accepted: Option<U64>) {
    && accepted.Some? && r.result.Ok? && r.result.value.DecidedRemote?
    && Is(TouchOf(e.payload), Press) && Slot(e.device, TouchOf(e.payload).value.control) !in l.latches
  }

  /** What no capture changes, except that it may fall back to local authority. */
  ghost predicate SamePolicy(s: Core, t: Core) {
    && t.config == s.config && t.table == s.table && t.candidate == s.candidate && t.revision == s.revision
    && t.gated == s.gated && t.endpoints == s.endpoints && t.peers == s.peers && t.lifecycle == s.lifecycle
    && (t.view == s.view || t.view == s.view.(activeHost := s.view.localHost)) && (t.handoff ==> s.handoff)
  }

  /** A handed-out decision changes nothing but the identifier counter and the decision itself. */
  lemma {:induction false} HandedOut(p: Core, e: Event, endpoint: Endpoint, touch: Option<Touch>,
                                     previous: Option<Latch>, now: U64, r: Turn<CaptureDecision>)
    requires r == PrepareRemote(p, e, endpoint, touch, previous, now)
    ensures r.result.Ok? && r.result.value.DecidedRemote? ==>
              && p.ledger.nextId < U64_MAX
              && r.core == p.(ledger := Burn(p.ledger),
                              decision := Some(Decision(p.ledger.nextId, e.device, touch, previous, endpoint)))
              && r.result.value.effect == InputEffect(p.ledger.nextId, endpoint, e)
              && (Is(touch, Press) && previous.None? ==> |p.ledger.held| < MAX_REMOTE_HELD)
    ensures r.result.Err? || !r.result.value.DecidedRemote? ==> r.core == FailClosed(p, now).core
  {
    hide FailClosed;
  }

  lemma {:induction false} ClosedOff(s: Core, now: U64)
    ensures var t := FailClosed(s, now).core;
            t.ledger == Queue(s.ledger, s.ledger.held.Keys).ledger && t.decision == s.decision && SamePolicy(s, t)
            && t.drain == s.drain
  {
    hide Queue, RoutingActive;
  }

  lemma {:induction false} Taken(s: Core, id: U64, now: U64)
    requires s.decision.Some? && s.decision.value.id == id
    ensures TakeDecision(s, id, now) == Turn(s.(decision := None), Ok(s.decision.value))
  {
  }

  lemma {:induction false} ConfirmSettles(s: Core, effect: InputEffect, sequence: U64, now: U64)
    requires s.decision.Some? && s.decision.value.id == effect.id
    ensures var t := ConfirmRemote(s, effect, sequence, now).core;
            var l := Enter(s.ledger, s.decision.value, RouteOf(s, s.decision.value), sequence);
            t.ledger == (if l.Ok? then l.value else Queue(s.ledger, s.ledger.held.Keys).ledger)
            && (ConfirmRemote(s, effect, sequence, now).result.Ok? <==> l.Ok?)
            && t.decision.None? && SamePolicy(s, t) && t.drain == s.drain
  {
    Taken(s, effect.id, now);
    ClosedOff(s.(decision := None), now);
    assert RouteOf(s.(decision := None), s.decision.value) == RouteOf(s, s.decision.value);
    hide Queue, RoutingActive, RouteOf, Enter, TakeDecision, FailClosed;
  }

  lemma {:induction false} FailSettles(s: Core, effect: InputEffect, now: U64)
    requires s.decision.Some? && s.decision.value.id == effect.id
    requires var d := s.decision.value;
             Is(d.touch, Press) && d.previous.None? && Slot(d.device, d.touch.value.control) in s.ledger.latches
             ==> s.ledger.latches[Slot(d.device, d.touch.value.control)] == ToLocal
    ensures var t := FailRemote(s, effect, now).core;
            t.ledger == Queue(s.ledger, s.ledger.held.Keys).ledger && t.decision.None? && SamePolicy(s, t)
              && t.drain == s.drain
  {
    Taken(s, effect.id, now);
    ClosedOff(s.(decision := None), now);
    var d := s.decision.value;
    hide Queue, RoutingActive, TakeDecision, FailClosed;
    if Is(d.touch, Press) && d.previous.None? && Slot(d.device, d.touch.value.control) in s.ledger.latches {
      assert s.ledger.latches[Slot(d.device, d.touch.value.control) := ToLocal] == s.ledger.latches;
    }
  }

  /** What a capture did to the ledger, decision and settlement together. */
  datatype Case =
    | Unchanged
    | Refuses
    | OnlyNotes
    | Parks
    | Closes(burned: bool)
    | Passes
    | Holds(key: HeldKey, route: Route, first: bool)
    | Lifts(key: HeldKey)
    | Repeats(key: HeldKey)

  /** What the endpoint was told in a case. */
  function Says(c: Case, accepted: Option<U64>): seq<Fact> {
    if accepted.None? then []
    else
      match c
      case Holds(key, _, _) => [Down(key, accepted.value)]
      case Lifts(key) => [Up(key)]
      case Repeats(key) => [Still(key, accepted.value)]
      case _ => []
  }

  /** The case agrees with what the decision itself shows. */
  ghost predicate Shown(l: Ledger, r: Turn<CaptureDecision>, e: Event, accepted: Option<U64>, now: U64, c: Case) {
    && Told(r, e, accepted, now) == Says(c, accepted)
    && (Sends(l, r, e, accepted) <==> c.Holds? && c.first)
    && (c.Holds? ==> r.result.Ok? && r.result.value.DecidedRemote? && r.result.value.effect.endpoint == c.key.endpoint)
    && (r.result.Ok? && r.result.value.DecidedRemote? && accepted.Some? ==>
          c == Closes(true) || ConfirmRemote(r.core, r.result.value.effect, accepted.value, now).result.Ok?)
  }

  ghost predicate Touches(e: Event, key: HeldKey, t: Transition) {
    key.device == e.device && TouchOf(e.payload) == Some(Touch(key.control, t))
  }

  /** The touched control has an open remote lifecycle, but nothing is held for it. */
  ghost predicate Missing(l: Ledger, e: Event) {
    var touch := TouchOf(e.payload);
    && touch.Some?
    && var slot := Slot(e.device, touch.value.control);
       slot in l.latches && l.latches[slot].ToRemote?
         && HeldKey(l.latches[slot].endpoint, slot.device, slot.control) !in l.held
  }

  /** The ledger `m` that a case leaves behind. */
  ghost predicate Leaves(l: Ledger, e: Event, accepted: Option<U64>, c: Case, m: Ledger) {
    var n := Noted(l, e);
    match c
    case Unchanged => m == l
    case Refuses => m == Queue(l, l.held.Keys).ledger
    case OnlyNotes => m == n
    case Parks =>
      var touch := TouchOf(e.payload);
      && Is(touch, Press) && Slot(e.device, touch.value.control) !in l.latches
      && m == n.(latches := n.latches[Slot(e.device, touch.value.control) := Quarantined])
    case Closes(burned) =>
      && (burned ==> l.nextId < U64_MAX) && (burned && accepted.Some? ==> Missing(l, e))
      && m == Queue(if burned then Burn(n) else n, l.held.Keys).ledger
    case Passes => l.nextId < U64_MAX && m == Burn(n) && TouchOf(e.payload).None?
    case Holds(key, route, first) =>
      && accepted.Some? && l.nextId < U64_MAX && Touches(e, key, Press)
      && LatchAt(l, SlotOf(key)) == (if first then None else Some(ToRemote(key.endpoint, route)))
      && (key in l.held || |l.held| < MAX_REMOTE_HELD)
      && m == Burn(n).(held := l.held[key := Held(route, accepted.value)],
                       latches := n.latches[SlotOf(key) := ToRemote(key.endpoint, route)])
    case Lifts(key) =>
      && accepted.Some? && l.nextId < U64_MAX && Touches(e, key, Release) && Open(l, key)
      && m == Burn(n).(held := l.held - {key})
    case Repeats(key) =>
      && accepted.Some? && l.nextId < U64_MAX && Touches(e, key, Repeat) && key in l.held
      && m == Burn(n).(held := l.held[key := l.held[key].(sequence := accepted.value)])
  }

  /** Why a control came to be held: routing was open to it, and no handoff was moving it. */
  ghost predicate Justified(s: Core, e: Event, now: U64, c: Case) {
    && (c.Holds? ==>
          && (s.handoff ==> c.route != FollowActiveHost)
          && (c.first ==>
               c.route == RouteFor(s.table, e.device) && RoutingActive(s, now) && |s.ledger.held| < MAX_REMOTE_HELD))
    && (c == OnlyNotes && Is(TouchOf(e.payload), Release) && !s.drain ==>
          var latch := LatchAt(s.ledger, Slot(e.device, TouchOf(e.payload).value.control));
          latch.Some? ==> !latch.value.ToRemote?)
  }

  /** How the drain of the failsafe goes on after a case. */
  ghost predicate Drains(before: bool, after: bool, c: Case) {
    && (after ==> c.Closes? || c == Refuses || (before && (c == Unchanged || c == OnlyNotes)))
    && (before ==> c == Unchanged || c == Refuses || c == OnlyNotes)
  }

  /** The circumstances in which a remote decision is prepared. */
  ghost predicate Asked(s: Core, e: Event, d: Decision, now: U64) {
    && s.decision.None? && d.device == e.device && d.touch == TouchOf(e.payload)
    && (d.touch.None? ==> d.previous.None?)
    && (d.touch.Some? ==> d.previous == LatchAt(s.ledger, Slot(e.device, d.touch.value.control)))
    && (d.previous.Some? ==> d.previous.value.ToRemote? && d.previous.value.endpoint == d.endpoint)
    && (d.previous.None? && d.touch.Some? ==> d.touch.value.transition == Press && RoutingActive(s, now))
    && (d.touch.Some? && s.handoff ==> RouteOf(s, d) != FollowActiveHost)
  }

  lemma {:induction false} PressLeaves(s: Core, e: Event, d: Decision, sequence: U64, now: U64, l: Result<Ledger>)
    requires Asked(s, e, d, now) && s.ledger.nextId < U64_MAX && Is(d.touch, Press)
    requires d.previous.None? ==> |s.ledger.held| < MAX_REMOTE_HELD
    requires l == Enter(Burn(Noted(s.ledger, e)), d, RouteOf(s, d), sequence) && l.Ok?
    ensures var c := Holds(HeldKey(d.endpoint, e.device, d.touch.value.control), RouteOf(s, d), d.previous.None?);
            Leaves(s.ledger, e, Some(sequence), c, l.value) && Justified(s, e, now, c)
  {
    hide Queue, RoutingActive, RouteFor, TouchOf;
  }

  lemma {:induction false} ReleaseLeaves(s: Core, e: Event, d: Decision, sequence: U64, now: U64, l: Result<Ledger>)
    requires Asked(s, e, d, now) && s.ledger.nextId < U64_MAX && Is(d.touch, Release)
    requires l == Enter(Burn(Noted(s.ledger, e)), d, RouteOf(s, d), sequence)
    ensures l.Ok?
            && Leaves(s.ledger, e, Some(sequence), Lifts(HeldKey(d.endpoint, e.device, d.touch.value.control)), l.value)
  {
    hide Queue, RoutingActive, RouteFor, TouchOf;
  }

  lemma {:induction false} RepeatLeaves(s: Core, e: Event, d: Decision, sequence: U64, now: U64, l: Result<Ledger>)
    requires Asked(s, e, d, now) && s.ledger.nextId < U64_MAX && Is(d.touch, Repeat)
    requires l == Enter(Burn(Noted(s.ledger, e)), d, RouteOf(s, d), sequence) && l.Ok?
    ensures Leaves(s.ledger, e, Some(sequence), Repeats(HeldKey(d.endpoint, e.device, d.touch.value.control)), l.value)
  {
    hide Queue, RoutingActive, RouteFor, TouchOf;
  }

  lemma {:induction false} ClosesLeaves(l: Ledger, e: Event, accepted: Option<U64>, burned: bool)
    requires burned ==> l.nextId < U64_MAX
    requires burned && accepted.Some? ==> Missing(l, e)
    ensures var n := if burned then Burn(Noted(l, e)) else Noted(l, e);
            Leaves(l, e, accepted, Closes(burned), Queue(n, n.held.Keys).ledger)
  {
    hide Queue, TouchOf;
  }

  lemma {:induction false} PassesLeaves(s: Core, e: Event, d: Decision, sequence: U64, now: U64, l: Result<Ledger>)
    requires Asked(s, e, d, now) && s.ledger.nextId < U64_MAX && d.touch.None?
    requires l == Enter(Burn(Noted(s.ledger, e)), d, RouteOf(s, d), sequence)
    ensures l.Ok? && Leaves(s.ledger, e, Some(sequence), Passes, l.value)
  {
    hide Queue, RoutingActive, RouteFor, TouchOf;
  }

  lemma {:induction false} ErrMissing(s: Core, e: Event, d: Decision, sequence: U64, now: U64, l: Result<Ledger>)
    requires Asked(s, e, d, now) && s.ledger.nextId < U64_MAX
    requires Is(d.touch, Press) && d.previous.None? ==> |s.ledger.held| < MAX_REMOTE_HELD
    requires l == Enter(Burn(Noted(s.ledger, e)), d, RouteOf(s, d), sequence) && l.Err?
    ensures Missing(s.ledger, e)
  {
    hide TouchOf, RoutingActive, RouteFor, Queue;
    assert d.touch.Some? && d.previous.Some?;
  }

  lemma {:induction false} EnterLeaves(s: Core, e: Event, d: Decision, sequence: U64, now: U64, l: Result<Ledger>,
                                       m: Ledger)
    returns (c: Case)
    requires Asked(s, e, d, now) && s.ledger.nextId < U64_MAX
    requires Is(d.touch, Press) && d.previous.None? ==> |s.ledger.held| < MAX_REMOTE_HELD
    requires var n := Burn(Noted(s.ledger, e));
             && l == Enter(n, d, RouteOf(s, d), sequence)
             && m == if l.Ok? then l.value else Queue(n, n.held.Keys).ledger
    ensures Leaves(s.ledger, e, Some(sequence), c, m) && Justified(s, e, now, c)
    ensures if l.Err? then c == Closes(true) else if d.touch.None? then c == Passes
            else var key := HeldKey(d.endpoint, e.device, d.touch.value.control);
                 match d.touch.value.transition
                 case Press => c == Holds(key, RouteOf(s, d), d.previous.None?)
                 case Release => c == Lifts(key)
                 case Repeat => c == Repeats(key)
  {
    hide Leaves, Enter, Queue, RoutingActive, RouteFor, TouchOf, Asked, Noted, Missing;
    if l.Err? {
      c := Closes(true);
      ErrMissing(s, e, d, sequence, now, l);
      ClosesLeaves(s.ledger, e, Some(sequence), true);
    } else if d.touch.None? {
      c := Passes;
      PassesLeaves(s, e, d, sequence, now, l);
    } else {
      var key := HeldKey(d.endpoint, e.device, d.touch.value.control);
      match d.touch.value.transition {
        case Press =>
          PressLeaves(s, e, d, sequence, now, l);
          c := Holds(key, RouteOf(s, d), d.previous.None?);
        case Release =>
          ReleaseLeaves(s, e, d, sequence, now, l);
          c := Lifts(key);
        case Repeat =>
          RepeatLeaves(s, e, d, sequence, now, l);
          c := Repeats(key);
      }
    }
  }

  lemma {:induction false} ShowsNothing(l: Ledger, r: Turn<CaptureDecision>, e: Event, accepted: Option<U64>, now: U64,
                                        c: Case)
    requires r.result.Err? || !r.result.value.DecidedRemote? || accepted.None?
    requires !c.Holds? && !c.Lifts? && !c.Repeats?
    ensures Shown(l, r, e, accepted, now, c)
  {
    hide TouchOf, ConfirmRemote;
  }

  lemma {:induction false} ShowsAccepted(s: Core, e: Event, d: Decision, sequence: U64, now: U64,
                                         r: Turn<CaptureDecision>, entered: bool, c: Case)
    requires d.touch == TouchOf(e.payload) && d.device == e.device
    requires d.touch.Some? ==> d.previous == LatchAt(s.ledger, Slot(e.device, d.touch.value.control))
    requires r.result == Ok(DecidedRemote(InputEffect(d.id, d.endpoint, e)))
    requires ConfirmRemote(r.core, r.result.value.effect, sequence, now).result.Ok? <==> entered
    requires Is(d.touch, Press) && d.previous.None? ==> entered
    requires if !entered then c == Closes(true) else if d.touch.None? then c == Passes
             else var key := HeldKey(d.endpoint, e.device, d.touch.value.control);
                  match d.touch.value.transition
                  case Press => c == Holds(key, RouteOf(s, d), d.previous.None?)
                  case Release => c == Lifts(key)
                  case Repeat => c == Repeats(key)
    ensures Shown(s.ledger, r, e, Some(sequence), now, c)
  {
    hide TouchOf, ConfirmRemote, RouteOf;
  }

  lemma {:induction false} RefusedCase(s: Core, p: Core, e: Event, accepted: Option<U64>, now: U64,
                                       r: Turn<CaptureDecision>)
    requires s.decision.None? && p == s.(ledger := Noted(s.ledger, e))
    requires (r.result.Err? || !r.result.value.DecidedRemote?) && r.core == FailClosed(p, now).core
    ensures var t := Settlement(r, accepted, now);
            && Leaves(s.ledger, e, accepted, Closes(false), t.ledger)
            && Shown(s.ledger, r, e, accepted, now, Closes(false))
            && t.decision.None? && SamePolicy(s, t) && t.drain == s.drain
  {
    hide Queue, RoutingActive, Leaves, FailRemote, ConfirmRemote, TouchOf, FailClosed, Shown, Noted, Missing;
    ClosedOff(p, now);
    ClosesLeaves(s.ledger, e, accepted, false);
    ShowsNothing(s.ledger, r, e, accepted, now, Closes(false));
  }

  lemma {:induction false} FailedCase(s: Core, p: Core, e: Event, d: Decision, now: U64, r: Turn<CaptureDecision>)
    requires Asked(s, e, d, now) && s.ledger.nextId < U64_MAX
    requires p == s.(ledger := Noted(s.ledger, e)) && p.ledger.nextId == s.ledger.nextId
    requires r == Turn(p.(ledger := Burn(p.ledger), decision := Some(d)),
                       Ok(DecidedRemote(InputEffect(d.id, d.endpoint, e))))
    ensures var t := Settlement(r, None, now);
            && Leaves(s.ledger, e, None, Closes(true), t.ledger) && Shown(s.ledger, r, e, None, now, Closes(true))
            && t.decision.None? && SamePolicy(s, t) && t.drain == s.drain
  {
    hide Queue, RoutingActive, Leaves, FailRemote, ConfirmRemote, TouchOf, Shown, Noted, Missing, Asked;
    AskedAbout(s, e, d, now);
    NotedAbout(s.ledger, e, d);
    FailSettles(r.core, r.result.value.effect, now);
    ClosesLeaves(s.ledger, e, None, true);
    ShowsNothing(s.ledger, r, e, None, now, Closes(true));
  }

  /** A prepared remote decision, settled either way, is one of the cases. */
  lemma {:induction false} RemoteCase(s: Core, p: Core, e: Event, d: Decision, accepted: Option<U64>, now: U64,
                                      r: Turn<CaptureDecision>)
    returns (c: Case)
    requires Asked(s, e, d, now) && d.id == s.ledger.nextId
    requires p == s.(ledger := Noted(s.ledger, e))
    requires r == PrepareRemote(p, e, d.endpoint, d.touch, d.previous, now)
    ensures Leaves(s.ledger, e, accepted, c, Settlement(r, accepted, now).ledger) && Justified(s, e, now, c)
    ensures Settlement(r, accepted, now).decision.None? && SamePolicy(s, Settlement(r, accepted, now))
    ensures Settlement(r, accepted, now).drain == s.drain
    ensures Shown(s.ledger, r, e, accepted, now, c)
  {
    hide PrepareRemote, RoutingActive, Leaves, Settlement, TouchOf, FailClosed, Shown, Noted, Asked, SamePolicy,
         RouteFor;
    HandedOut(p, e, d.endpoint, d.touch, d.previous, now, r);
    AskedAbout(s, e, d, now);
    NotedAbout(s.ledger, e, d);
    if r.result.Err? || !r.result.value.DecidedRemote? {
      c := Closes(false);
      RefusedCase(s, p, e, accepted, now, r);
    } else if accepted.Some? {
      c := AcceptedCase(s, p, e, d, accepted.value, now, r);
    } else {
      c := Closes(true);
      FailedCase(s, p, e, d, now, r);
    }
  }

  lemma {:induction false} AskedAbout(s: Core, e: Event, d: Decision, now: U64)
    requires Asked(s, e, d, now)
    ensures s.decision.None? && d.touch == TouchOf(e.payload) && d.device == e.device
    ensures d.touch.Some? ==> d.previous == LatchAt(s.ledger, Slot(e.device, d.touch.value.control))
  {
    hide TouchOf, RoutingActive;
  }

  lemma {:induction false} NotedAbout(l: Ledger, e: Event, d: Decision)
    requires d.touch == TouchOf(e.payload) && d.device == e.device
    requires d.touch.Some? ==> d.previous == LatchAt(l, Slot(e.device, d.touch.value.control))
    ensures var n := Noted(l, e);
            && n == l.(latches := n.latches)
            && (Is(d.touch, Press) && d.previous.None? ==>
                  var slot := Slot(d.device, d.touch.value.control); slot in n.latches && n.latches[slot] == ToLocal)
  {
    hide TouchOf;
  }

  lemma {:induction false} RouteOfSame(s: Core, t: Core, d: Decision)
    requires s.table == t.table
    ensures RouteOf(s, d) == RouteOf(t, d)
  {
  }

  lemma {:induction false} PressEnters(l: Ledger, e: Event, d: Decision, route: Route, sequence: U64)
    requires Is(d.touch, Press) && |l.held| < MAX_REMOTE_HELD && l.nextId < U64_MAX
    ensures Enter(Burn(Noted(l, e)), d, route, sequence).Ok?
  {
    hide TouchOf;
  }

  lemma {:induction false} AcceptedCase(s: Core, p: Core, e: Event, d: Decision, sequence: U64, now: U64,
                                        r: Turn<CaptureDecision>)
    returns (c: Case)
    requires Asked(s, e, d, now) && d.id == s.ledger.nextId < U64_MAX
    requires p == s.(ledger := Noted(s.ledger, e)) && p.ledger.nextId == s.ledger.nextId
    requires r == Turn(p.(ledger := Burn(p.ledger), decision := Some(d)),
                       Ok(DecidedRemote(InputEffect(d.id, d.endpoint, e))))
    requires Is(d.touch, Press) && d.previous.None? ==> |s.ledger.held| < MAX_REMOTE_HELD
    ensures Leaves(s.ledger, e, Some(sequence), c, Settlement(r, Some(sequence), now).ledger) && Justified(s, e, now, c)
    ensures Settlement(r, Some(sequence), now).decision.None? && SamePolicy(s, Settlement(r, Some(sequence), now))
    ensures Settlement(r, Some(sequence), now).drain == s.drain
    ensures Shown(s.ledger, r, e, Some(sequence), now, c)
  {
    hide Queue, RoutingActive, Leaves, ConfirmRemote, Enter, TouchOf, RouteOf, Noted, Asked, Justified, Shown;
    RouteOfSame(s, r.core, d);
    AskedAbout(s, e, d, now);
    if Is(d.touch, Press) && d.previous.None? { PressEnters(s.ledger, e, d, RouteOf(s, d), sequence); }
    ConfirmSettles(r.core, r.result.value.effect, sequence, now);
    var l := Enter(r.core.ledger, d, RouteOf(s, d), sequence);
    var left := if l.Ok? then l.value else Queue(r.core.ledger, r.core.ledger.held.Keys).ledger;
    c := EnterLeaves(s, e, d, sequence, now, l, left);
    ShowsAccepted(s, e, d, sequence, now, r, l.Ok?, c);
  }

  /** `r`, prepared for `e` at `s`, is one of the cases once settled. */
  ghost predicate Accounts(s: Core, e: Event, accepted: Option<U64>, now: U64, r: Turn<CaptureDecision>, c: Case) {
    var t := Settlement(r, accepted, now);
    && Leaves(s.ledger, e, accepted, c, t.ledger) && Justified(s, e, now, c)
    && t.decision.None? && SamePolicy(s, t) && Shown(s.ledger, r, e, accepted, now, c) && Drains(s.drain, t.drain, c)
  }

  lemma {:induction false} NotedCase(s: Core, p: Core, e: Event, accepted: Option<U64>, now: U64,
                                     r: Turn<CaptureDecision>)
    requires s.decision.None? && p == s.(ledger := Noted(s.ledger, e))
    requires r.result.Ok? && !r.result.value.DecidedRemote?
    requires r.core.ledger == p.ledger && r.core.decision == p.decision && SamePolicy(p, r.core)
    requires r.core.drain ==> s.drain
    requires Justified(s, e, now, OnlyNotes)
    ensures Accounts(s, e, accepted, now, r, OnlyNotes)
  {
    ShowsNothing(s.ledger, r, e, accepted, now, OnlyNotes);
    hide TouchOf, Queue, RoutingActive, Shown;
  }

  lemma {:induction false} ContinueCase(s: Core, p: Core, e: Event, latch: Latch, accepted: Option<U64>, now: U64)
    returns (c: Case)
    requires s.decision.None? && p == s.(ledger := Noted(s.ledger, e)) && TouchOf(e.payload).Some?
    requires LatchAt(s.ledger, Slot(e.device, TouchOf(e.payload).value.control)) == Some(latch) && !s.drain
    ensures Accounts(s, e, accepted, now, Continue(p, e, TouchOf(e.payload), latch, now), c)
  {
    hide TouchOf, Queue, RoutingActive, Noted, Accounts, PrepareRemote, FailClosed, Leaves;
    var r := Continue(p, e, TouchOf(e.payload), latch, now);
    if !latch.ToRemote? {
      NotedCase(s, p, e, accepted, now, r);
      c := OnlyNotes;
    } else if EndpointAvailable(p, latch.endpoint, latch.route, now) {
      var d := Decision(s.ledger.nextId, e.device, TouchOf(e.payload), Some(latch), latch.endpoint);
      assert Asked(s, e, d, now);
      c := RemoteCase(s, p, e, d, accepted, now, r);
      AccountsFor(s, e, accepted, now, r, c);
    } else {
      ClosedOff(p, now);
      c := ClosingCase(s, p, e, accepted, now, r);
    }
  }

  lemma {:induction false} AccountsFor(s: Core, e: Event, accepted: Option<U64>, now: U64, r: Turn<CaptureDecision>,
                                       c: Case)
    requires Leaves(s.ledger, e, accepted, c, Settlement(r, accepted, now).ledger) && Justified(s, e, now, c)
    requires Settlement(r, accepted, now).decision.None? && SamePolicy(s, Settlement(r, accepted, now))
    requires Shown(s.ledger, r, e, accepted, now, c) && Settlement(r, accepted, now).drain == s.drain == false
    ensures Accounts(s, e, accepted, now, r, c)
  {
    hide Leaves, Settlement, Shown;
  }

  lemma {:induction false} ClosingCase(s: Core, p: Core, e: Event, accepted: Option<U64>, now: U64,
                                       r: Turn<CaptureDecision>)
    returns (c: Case)
    requires s.decision.None? && p == s.(ledger := Noted(s.ledger, e))
    requires r.result.Err? || !r.result.value.DecidedRemote?
    requires r.core.ledger == Queue(p.ledger, p.ledger.held.Keys).ledger && r.core.decision.None?
             && SamePolicy(s, r.core) && !s.drain
    ensures Accounts(s, e, accepted, now, r, c)
  {
    c := Closes(false);
    ShowsNothing(s.ledger, r, e, accepted, now, c);
    hide Leaves, Queue, Noted, Shown;
    ClosesLeaves(s.ledger, e, accepted, false);
  }

  lemma {:induction false} BeginCase(s: Core, p: Core, e: Event, accepted: Option<U64>, now: U64)
    returns (c: Case)
    requires s.decision.None? && p == s.(ledger := Noted(s.ledger, e))
    requires var touch := TouchOf(e.payload);
             touch.Some? ==>
               touch.value.transition == Press && LatchAt(s.ledger, Slot(e.device, touch.value.control)).None?
    requires !s.drain
    ensures Accounts(s, e, accepted, now, Begin(p, e, TouchOf(e.payload), now), c)
  {
    var r := Begin(p, e, TouchOf(e.payload), now);
    var touch := TouchOf(e.payload);
    var route := RouteFor(s.table, e.device);
    hide TouchOf, Queue, Accounts, PrepareRemote, RouteFor, Destination, DeviceGated, Leaves;
    if DeviceGated(p, e.device) {
      NotedCase(s, p, e, accepted, now, r);
      c := OnlyNotes;
    } else if p.handoff && route == FollowActiveHost {
      if Is(touch, Press) {
        c := ParkCase(s, p, e, accepted, now, r);
      } else {
        NotedCase(s, p, e, accepted, now, r);
        c := OnlyNotes;
      }
    } else if Destination(p, e.device).None? || TargetEndpoint(p, Destination(p, e.device).value, route, now).None? {
      NotedCase(s, p, e, accepted, now, r);
      c := OnlyNotes;
    } else {
      var endpoint := TargetEndpoint(p, Destination(p, e.device).value, route, now).value;
      var d := Decision(s.ledger.nextId, e.device, touch, None, endpoint);
      assert RoutingActive(s, now) by { assert RoutingActive(p, now); }
      assert Asked(s, e, d, now);
      c := RemoteCase(s, p, e, d, accepted, now, r);
      AccountsFor(s, e, accepted, now, r, c);
    }
  }

  lemma {:induction false} ParkCase(s: Core, p: Core, e: Event, accepted: Option<U64>, now: U64,
                                    r: Turn<CaptureDecision>)
    returns (c: Case)
    requires s.decision.None? && p == s.(ledger := Noted(s.ledger, e)) && Is(TouchOf(e.payload), Press)
    requires LatchAt(s.ledger, Slot(e.device, TouchOf(e.payload).value.control)).None? && !s.drain
    requires var slot := Slot(e.device, TouchOf(e.payload).value.control);
             r == Turn(p.(ledger := p.ledger.(latches := p.ledger.latches[slot := Quarantined])),
                       Ok(DecidedInert(INERT)))
    ensures Accounts(s, e, accepted, now, r, c)
  {
    c := Parks;
    ShowsNothing(s.ledger, r, e, accepted, now, c);
    hide TouchOf, Queue, RoutingActive, Shown;
  }

  lemma {:induction false} Escaped(p: Core, now: U64)
    ensures var t := ActivateFailsafe(p.(drain := true), now).core;
            t.ledger == Queue(p.ledger, p.ledger.held.Keys).ledger && t.decision == p.decision && SamePolicy(p, t)
  {
    hide Queue, RoutingActive, SuspensionEnd;
  }

  lemma {:induction false} DecideCase(s: Core, p: Core, e: Event, previous: Option<Latch>, accepted: Option<U64>,
                                      now: U64)
    returns (c: Case)
    requires s.decision.None? && p == s.(ledger := Noted(s.ledger, e))
    requires var touch := TouchOf(e.payload);
             previous == if touch.Some? then LatchAt(s.ledger, Slot(e.device, touch.value.control)) else None
    ensures Accounts(s, e, accepted, now, Decide(p, e, TouchOf(e.payload), previous, now), c)
  {
    var touch := TouchOf(e.payload);
    var r := Decide(p, e, touch, previous, now);
    hide TouchOf, Queue, RoutingActive, Accounts, Leaves, FailsafeMatches, AnyFailsafeKey, Continue, Begin,
         ActivateFailsafe, Noted;
    if FailsafeMatches(p) && !p.drain {
      Escaped(p, now);
      c := ClosingCase(s, p, e, accepted, now, r);
    } else if p.drain || (previous.None? && (Is(touch, Repeat) || Is(touch, Release))) {
      NotedCase(s, p, e, accepted, now, r);
      c := OnlyNotes;
    } else if previous.Some? {
      c := ContinueCase(s, p, e, previous.value, accepted, now);
    } else {
      c := BeginCase(s, p, e, accepted, now);
    }
  }

  lemma {:induction false} PrepareCase(s: Core, e: Event, accepted: Option<U64>, now: U64)
    returns (c: Case)
    requires s.decision.None?
    ensures Accounts(s, e, accepted, now, PrepareCaptured(s, e, now), c)
    ensures c == Unchanged || c == Refuses || Eligible(s, e)
  {
    var touch := TouchOf(e.payload);
    var r := PrepareCaptured(s, e, now);
    if !Eligible(s, e) {
      c := Unchanged;
      ShowsNothing(s.ledger, r, e, accepted, now, c);
      hide TouchOf, Queue, RoutingActive, Shown, Decide, Eligible;
    } else if touch.None? {
      assert s == s.(ledger := Noted(s.ledger, e));
      hide TouchOf, Queue, RoutingActive, Accounts, Decide, HasPhysicalRoom, Eligible;
      c := DecideCase(s, s, e, None, accepted, now);
    } else {
      var slot := Slot(e.device, touch.value.control);
      var previous := LatchAt(s.ledger, slot);
      var p := s.(ledger := Noted(s.ledger, e));
      assert p == s.(ledger := Register(s.ledger, slot, touch.value.transition));
      if Is(touch, Press) && previous.None? && !HasPhysicalRoom(s.ledger.latches, e.device) {
        ClosedOff(s, now);
        c := Refuses;
        ShowsNothing(s.ledger, r, e, accepted, now, c);
        hide TouchOf, Queue, RoutingActive, Decide, HasPhysicalRoom, FailClosed, Eligible, Shown;
      } else {
        hide TouchOf, Queue, RoutingActive, Accounts, Decide, HasPhysicalRoom, Eligible, Noted;
        c := DecideCase(s, p, e, previous, accepted, now);
      }
    }
  }

  /** Every capture is one of the cases, and settles its decision before anything else happens. */
  lemma {:induction false} CaptureCase(s: Core, e: Event, accepted: Option<U64>, now: U64)
    returns (c: Case)
    requires s.decision.None?
    ensures var t := Capture(s, e, accepted, now).core;
            && Leaves(s.ledger, e, accepted, c, t.ledger) && Justified(s, e, now, c)
            && t.decision.None? && SamePolicy(s, t) && Drains(s.drain, t.drain, c)
    ensures Shown(s.ledger, PrepareCaptured(s, e, now), e, accepted, now, c)
    ensures c == Unchanged || c == Refuses || Eligible(s, e)
  {
    c := PrepareCase(s, e, accepted, now);
    hide PrepareCaptured, Leaves, ConfirmRemote, FailRemote, SamePolicy, Justified, Eligible, Shown;
  }

  // ---------------------------------------------------------------- what every other operation does

  datatype Move =
    | Queueing(picked: set<HeldKey>)
    | Relabelling(picked: set<HeldKey>, table: Table)
    | Forgetting(device: DeviceId)
    | Lending
    | Releasing
    | Returning
    | Losing(endpoint: Endpoint)

  /** The ledger `n` that a move leaves behind. */
  ghost predicate Moves(l: Ledger, m: Move, n: Ledger) {
    match m
    case Queueing(picked) => n == Queue(l, picked).ledger
    case Relabelling(picked, table) => n == Relabel(Queue(l, picked).ledger, table)
    case Forgetting(d) =>
      && (forall k | k in l.held :: k.device != d)
      && n == l.(latches := map c | c in l.latches && c.device != d :: l.latches[c])
    case Lending => n == Take(l).0
    case Releasing => l.cleanup != [] && l.inFlight == Some(l.cleanup[0].id) && n == Released(l)
    case Returning => n == l.(inFlight := None)
    case Losing(e) => n == Invalidate(l, e)
  }

  lemma {:induction false} PrepareMoves(s: Core, config: Config, expected: U64, now: U64)
    returns (picked: set<HeldKey>)
    requires s.decision.None?
    ensures var t := PrepareRoutes(s, config, expected, now).core;
            t.ledger == Queue(s.ledger, picked).ledger && t.decision.None? && t.revision == s.revision
  {
    QueueNothing(s.ledger);
    hide Queue, ValidConfig, Compile, RoutingActive, PolicyProgress;
    var t := PrepareRoutes(s, config, expected, now).core;
    picked := if t.ledger == s.ledger then {} else Misrouted(s, t.candidate.value);
  }

  lemma {:induction false} CommitMoves(s: Core, revision: U64, now: U64)
    requires s.decision.None?
    ensures var r := CommitRoutes(s, revision, now);
            && (r.PolicyFailed? ==> r.core == s)
            && (r.PolicyDone? ==> s.candidate.Some? && r.core.table == s.candidate.value.table && r.core.decision.None?
                                  && r.core.ledger == Relabel(s.ledger, r.core.table))
  {
    hide Relabel, RoutingActive, PolicyProgress;
  }

  lemma {:induction false} RetryMoves(s: Core, now: U64)
    returns (picked: set<HeldKey>)
    requires s.decision.None?
    ensures var t := RetryRoutes(s, now).core;
            t.ledger == Queue(s.ledger, picked).ledger && t.decision.None? && t.revision == s.revision
  {
    QueueNothing(s.ledger);
    picked := if s.candidate.Some? then Misrouted(s, s.candidate.value) else {};
    QueueRefused(s.ledger, picked);
    hide Queue, RoutingActive, PolicyProgress;
  }

  lemma {:induction false} ReplaceConfigMoves(s: Core, config: Config, now: U64)
    returns (picked: set<HeldKey>)
    requires s.decision.None?
    ensures var t := ReplaceConfig(s, config, now).core;
            t.ledger == Queue(s.ledger, picked).ledger && t.decision.None? && t.revision == s.revision
  {
    QueueNothing(s.ledger);
    hide Queue, ValidConfig, Compile, RoutingActive, PairsEndpoint, Adopt;
    picked := if ReplaceConfig(s, config, now).core.ledger == s.ledger then {} else HeldUnpaired(s.ledger, config);
  }

  lemma {:induction false} ReplaceRoutesMoves(s: Core, config: Config, now: U64)
    returns (m: Move)
    requires s.decision.None?
    ensures var t := ReplaceRoutes(s, config, now).core;
            Moves(s.ledger, m, t.ledger) && t.decision.None? && (m.Relabelling? ==> m.table == t.table)
            && (m.Relabelling? || (m.Queueing? && t.revision == s.revision))
  {
    var picked := PrepareMoves(s, config, s.revision, now);
    var p := PrepareRoutes(s, config, s.revision, now);
    hide PrepareRoutes, CommitRoutes, Queue, StagedRoutes, Relabel;
    m := Queueing(picked);
    if p.PolicyDone? && p.value == ReadyToPersist && StagedRoutes(p.core).Some? {
      CommitMoves(p.core, StagedRoutes(p.core).value.revision, now);
      if CommitRoutes(p.core, StagedRoutes(p.core).value.revision, now).PolicyDone? {
        m := Relabelling(picked, p.core.candidate.value.table);
      }
    }
  }

  lemma {:induction false} ConfigMoves(s: Core, config: Config, now: U64)
    returns (m: Move)
    requires s.decision.None?
    ensures var t := UpdateConfig(s, config, now).core;
            Moves(s.ledger, m, t.ledger) && t.decision.None? && (m.Relabelling? ==> m.table == t.table)
            && (m.Relabelling? || (m.Queueing? && t.revision == s.revision))
  {
    hide ReplaceConfig, ReplaceRoutes, Queue, Relabel;
    if config.routes == s.config.routes && config.revision == s.revision {
      var picked := ReplaceConfigMoves(s, config, now);
      m := Queueing(picked);
    } else {
      m := ReplaceRoutesMoves(s, config, now);
    }
  }

  lemma {:induction false} StopMoves(s: Core, now: U64)
    requires s.decision.None?
    ensures var q := Queue(s.ledger, s.ledger.held.Keys).ledger;
            && Disable(s, now).core.ledger == q && Disable(s, now).core.decision.None?
            && Emergency(s, now).core.ledger == q && Emergency(s, now).core.decision.None?
            && Shutdown(s, now).core.ledger == q && Shutdown(s, now).core.decision.None?
            && ClearReady(s, now).core.ledger == q && ClearReady(s, now).core.decision.None?
  {
    hide Queue, RoutingActive, SuspensionEnd;
  }

  lemma {:induction false} WorkspaceMoves(s: Core, v: H.View, now: U64)
    returns (picked: set<HeldKey>)
    requires s.decision.None?
    ensures var t := UpdateWorkspace(s, v, now).core; t.ledger == Queue(s.ledger, picked).ledger && t.decision.None?
  {
    hide Queue, FollowingHeld, Publish, Mirrors;
    QueueNothing(s.ledger);
    QueueRefused(s.ledger, FollowingHeld(s.ledger));
    picked := if UpdateWorkspace(s, v, now).core.ledger == s.ledger then {} else FollowingHeld(s.ledger);
  }

  lemma {:induction false} FinishMoves(s: Core, v: H.View, now: U64)
    returns (picked: set<HeldKey>)
    requires s.decision.None?
    ensures var t := FinishHandoff(s, v, now).core; t.ledger == Queue(s.ledger, picked).ledger && t.decision.None?
  {
    QueueNothing(s.ledger);
    picked := WorkspaceMoves(s, v, now);
    hide Queue, RoutingActive, UpdateWorkspace;
    if FinishHandoff(s, v, now).core == s { picked := {}; }
  }

  lemma {:induction false} GateMoves(s: Core, devices: set<DeviceId>, now: U64)
    returns (picked: set<HeldKey>)
    requires s.decision.None?
    ensures var t := GateDevices(s, devices, now).core; t.ledger == Queue(s.ledger, picked).ledger && t.decision.None?
  {
    QueueNothing(s.ledger);
    hide Queue, RoutingActive;
    picked := if GateDevices(s, devices, now).core.ledger == s.ledger then {} else HeldBy(s.ledger, devices);
  }

  lemma {:induction false} EndpointMoves(s: Core, e: Endpoint, state: PeerState, now: U64)
    returns (picked: set<HeldKey>)
    requires s.decision.None?
    ensures var t := SetEndpointState(s, e, state, now).core;
            t.ledger == Queue(s.ledger, picked).ledger && t.decision.None?
  {
    QueueNothing(s.ledger);
    hide Queue, RoutingActive;
    picked := if SetEndpointState(s, e, state, now).core.ledger == s.ledger then {} else HeldOn(s.ledger, e);
  }

  lemma {:induction false} BeginMoves(s: Core, now: U64)
    returns (picked: set<HeldKey>)
    requires s.decision.None?
    ensures var t := BeginHandoff(s, now).core; t.ledger == Queue(s.ledger, picked).ledger && t.decision.None?
  {
    QueueNothing(s.ledger);
    hide Queue, RoutingActive;
    picked := if s.candidate.Some? then {} else FollowingHeld(s.ledger);
  }

  ghost predicate Idle(op: Op) {
    || op.Ticked? || op.HandoffCancelled? || op.BarrierAborted? || op.PeerStateSet? || op.EndpointInstalled?
    || op.EndpointRetired? || op.Enabled? || op.ReadyMarked? || op.RoutesAborted?
  }

  lemma {:induction false} IdleMoves(s: Core, op: Op, now: U64)
    requires s.decision.None? && Idle(op)
    ensures Apply(s, op, now).ledger == s.ledger && Apply(s, op, now).decision.None?
  {
    hide Queue, RoutingActive, AnyFailsafeKey, HasObligations, Capture, UpdateConfig, PrepareRoutes, RetryRoutes,
         CommitRoutes, GateDevices, UpdateWorkspace, BeginHandoff, FinishHandoff, SetEndpointState, Disable, Emergency,
         Shutdown, ClearReady, ConfirmCleanup, RetryCleanup, TransportInvalidated, RestoreDevice, TakeCleanup;
  }

  /** The move says which operation it was, where that matters. */
  ghost predicate Names(l: Ledger, op: Op, m: Move) {
    && (m.Releasing? <==> op.CleanupConfirmed? && Settles(l, op.token))
    && (op.CleanupConfirmed? ==> m == Releasing || m == Queueing({}))
    && (m.Losing? <==> op.TransportLost?) && (m.Losing? ==> m.endpoint == op.endpoint)
    && (m.Forgetting? ==> op == DeviceRestored(m.device))
    && (op.EmergencyTriggered? ==> m == Queueing(l.held.Keys))
    && (m.Relabelling? ==> op.RoutesCommitted? || op.ConfigUpdated?)
  }

  /** Nothing but captures and the moves ever changes the ledger. */
  lemma {:induction false} OpMoves(s: Core, op: Op, now: U64)
    returns (m: Move)
    requires s.decision.None? && !op.Captured?
    ensures var t := Apply(s, op, now);
            Moves(s.ledger, m, t.ledger) && t.decision.None? && (m.Relabelling? ==> m.table == t.table)
    ensures Names(s.ledger, op, m)
    ensures op.ConfigUpdated? || op.RoutesPrepared? || op.RoutesCommitted? ==>
              m.Relabelling? || Apply(s, op, now).revision == s.revision
  {
    hide Apply, Moves;
    if op.CleanupTaken? || op.CleanupConfirmed? || op.CleanupRetried? || op.TransportLost? || op.DeviceRestored? {
      m := LedgerOpMoves(s, op, now);
    } else if op.ConfigUpdated? || op.RoutesPrepared? || op.RoutesRetried? || op.RoutesCommitted? {
      m := RouteOpMoves(s, op, now);
    } else {
      m := ControlOpMoves(s, op, now);
    }
  }

  lemma {:induction false} RouteOpMoves(s: Core, op: Op, now: U64)
    returns (m: Move)
    requires s.decision.None?
    requires op.ConfigUpdated? || op.RoutesPrepared? || op.RoutesRetried? || op.RoutesCommitted?
    ensures var t := Apply(s, op, now);
            Moves(s.ledger, m, t.ledger) && t.decision.None? && (m.Relabelling? ==> m.table == t.table)
    ensures (m.Queueing? && Apply(s, op, now).revision == s.revision)
            || (m.Relabelling? && (op.RoutesCommitted? || op.ConfigUpdated?))
  {
    hide Queue, Relabel, UpdateConfig, PrepareRoutes, RetryRoutes, CommitRoutes;
    match op {
      case ConfigUpdated(c) => m := ConfigMoves(s, c, now);
      case RoutesPrepared(c, expected) => var picked := PrepareMoves(s, c, expected, now); m := Queueing(picked);
      case RoutesRetried => var picked := RetryMoves(s, now); m := Queueing(picked);
      case RoutesCommitted(r) =>
        QueueNothing(s.ledger);
        CommitMoves(s, r, now);
        m := if CommitRoutes(s, r, now).PolicyDone? then Relabelling({}, s.candidate.value.table) else Queueing({});
    }
  }

  lemma {:induction false} ControlOpMoves(s: Core, op: Op, now: U64)
    returns (m: Move)
    requires s.decision.None?
    requires !op.Captured? && !op.CleanupTaken? && !op.CleanupConfirmed? && !op.CleanupRetried? && !op.TransportLost?
             && !op.DeviceRestored? && !op.ConfigUpdated? && !op.RoutesPrepared? && !op.RoutesRetried?
             && !op.RoutesCommitted?
    ensures var t := Apply(s, op, now); Moves(s.ledger, m, t.ledger) && t.decision.None?
    ensures m.Queueing? && (op.EmergencyTriggered? ==> m.picked == s.ledger.held.Keys)
  {
    if Idle(op) {
      QueueNothing(s.ledger);
      m := Queueing({});
      IdleMoves(s, op, now);
    } else {
      hide Queue, Idle, GateDevices, UpdateWorkspace, FinishHandoff, BeginHandoff, SetEndpointState, Disable, Emergency,
           Shutdown, ClearReady;
      var picked := {};
      match op {
        case DevicesGated(devices) => picked := GateMoves(s, devices, now);
        case WorkspaceUpdated(v) => picked := WorkspaceMoves(s, v, now);
        case HandoffFinished(v) => picked := FinishMoves(s, v, now);
        case HandoffBegun => picked := BeginMoves(s, now);
        case EndpointStateSet(e, state) => picked := EndpointMoves(s, e, state, now);
        case _ => StopMoves(s, now); picked := s.ledger.held.Keys;
      }
      m := Queueing(picked);
    }
  }

  lemma {:induction false} LedgerOpMoves(s: Core, op: Op, now: U64)
    returns (m: Move)
    requires s.decision.None?
    requires op.CleanupTaken? || op.CleanupConfirmed? || op.CleanupRetried? || op.TransportLost? || op.DeviceRestored?
    ensures var t := Apply(s, op, now); Moves(s.ledger, m, t.ledger) && t.decision.None? && Names(s.ledger, op, m)
  {
    hide Moves, ConfirmCleanup, RetryCleanup, TransportInvalidated, RestoreDevice, TakeCleanup, Capture, Tick,
         UpdateConfig, PrepareRoutes, RetryRoutes, CommitRoutes, AbortRoutes, GateDevices, UpdateWorkspace,
         BeginHandoff, CancelHandoff, AbortBarrier, FinishHandoff, SetPeerState, InstallEndpoint, SetEndpointState,
         RetireEndpoint, Enable, Disable, Emergency, Shutdown, ClearReady, MarkReady;
    match op {
      case CleanupTaken => m := TakeMoves(s);
      case CleanupConfirmed(t) => m := ConfirmMoves(s, t, now);
      case CleanupRetried(t) => m := RetriedMoves(s, t, now);
      case TransportLost(e) => m := LostMoves(s, e, now);
      case DeviceRestored(d) => m := RestoreMoves(s, d, now);
    }
  }

  lemma {:induction false} TakeMoves(s: Core)
    returns (m: Move)
    ensures var t := TakeCleanup(s).0; Moves(s.ledger, m, t.ledger) && t.decision == s.decision && m == Lending
  {
    m := Lending;
  }

  lemma {:induction false} ConfirmMoves(s: Core, token: Token, now: U64)
    returns (m: Move)
    ensures var t := ConfirmCleanup(s, token, now).core; Moves(s.ledger, m, t.ledger) && t.decision == s.decision
    ensures m == if Settles(s.ledger, token) then Releasing else Queueing({})
  {
    QueueNothing(s.ledger);
    hide Queue, RoutingActive, Released;
    m := if Settles(s.ledger, token) then Releasing else Queueing({});
  }

  lemma {:induction false} RetriedMoves(s: Core, token: Token, now: U64)
    returns (m: Move)
    ensures var t := RetryCleanup(s, token, now).core; Moves(s.ledger, m, t.ledger) && t.decision == s.decision
    ensures m == if Settles(s.ledger, token) then Returning else Queueing({})
  {
    QueueNothing(s.ledger);
    hide Queue, RoutingActive;
    m := if Settles(s.ledger, token) then Returning else Queueing({});
  }

  lemma {:induction false} LostMoves(s: Core, e: Endpoint, now: U64)
    returns (m: Move)
    ensures var t := TransportInvalidated(s, e, now);
            Moves(s.ledger, m, t.ledger) && t.decision == s.decision && m == Losing(e)
  {
    hide Invalidate, RoutingActive;
    m := Losing(e);
  }

  lemma {:induction false} RestoreMoves(s: Core, d: DeviceId, now: U64)
    returns (m: Move)
    ensures var t := RestoreDevice(s, d, now).core; Moves(s.ledger, m, t.ledger) && t.decision == s.decision
    ensures m == Forgetting(d) || m == Queueing({})
  {
    QueueNothing(s.ledger);
    hide Queue, RoutingActive;
    m := if RestoreDevice(s, d, now).result.Ok? then Forgetting(d) else Queueing({});
  }
}
