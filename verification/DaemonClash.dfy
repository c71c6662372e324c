/**
 A reachable exception to coherence: while a route candidate is retained, routing does not wait for owed
 releases, so after disabling and enabling routing a key can be pressed again before its release went out.
 */
module DaemonClash {
  import opened Base
  import opened Ledger
  import opened Daemon
  import opened LedgerLemmas
  import opened DaemonRuns
  import opened DaemonLedger
  import opened DaemonCoherence
  import H = Handoff
  import T = Topology

  const PEER := Endpoint(7, 2, 0, 0, 0)
  const KEY := HeldKey(PEER, 5, Button(0))
  const SLOT := Slot(5, Button(0))
  const PRESS := Event(true, 1, 5, ButtonPayload(0, true))
  const LIFT := Event(true, 1, 5, ButtonPayload(0, false))
  const BEFORE := Config([Paired(2, 7)], [DeviceRoute(5, ToHost(2))], 0, [AnyEscape], 1, OtherSections(true, 0))
  const AFTER := BEFORE.(routes := [DeviceRoute(5, ToHost(2)), DeviceRoute(6, LocalOnly)], revision := 1)
  const VIEW := H.View(1, 1, 3, T.Pointer(3, 0.0, 0.0))

  /** Everything but the ledger, the candidate and the switch is ready to route the device to the peer. */
  ghost predicate Routable(s: Core) {
    && s.decision.None? && s.suspendedUntil == 0 && !s.drain && s.ready && !s.handoff && s.gated == {}
    && s.config == BEFORE && s.view == VIEW && s.revision == 0
    && s.table == map[5 := ToHost(2)]
    && s.endpoints == map[2 := Availability(PEER, Connected)]
    && (s.candidate.Some? ==> s.candidate.value.affected <= {6})
  }

  lemma {:induction false} ValidBefore()
    ensures ValidConfig(BEFORE) && Compile(BEFORE.routes) == Some(map[5 := ToHost(2)])
  {
    assert BEFORE.paired[0].host == 2;
    assert Paired(2, 7) in BEFORE.paired;
    assert BEFORE.routes[..0] == [];
  }

  lemma {:induction false} ValidAfter()
    ensures ValidConfig(AFTER) && Compile(AFTER.routes) == Some(map[5 := ToHost(2), 6 := LocalOnly])
  {
    assert AFTER.paired[0].host == 2 && Paired(2, 7) in AFTER.paired;
    assert AFTER.routes[..1] == BEFORE.routes;
    assert Compile(AFTER.routes[..1]) == Some(map[5 := ToHost(2)]) by { ValidBefore(); }
    var t := map[5 := ToHost(2)];
    assert 6 !in t && |t| == 1;
    assert t[6 := LocalOnly] == map[5 := ToHost(2), 6 := LocalOnly];
  }

  lemma {:induction false} Starts() returns (s: Core)
    ensures Start(BEFORE, VIEW) == Some(s)
    ensures s.decision.None? && s.config == BEFORE && s.view == VIEW && s.revision == 0
            && s.table == map[5 := ToHost(2)]
    ensures s.endpoints == map[] && s.lifecycle == Running(true) && s.suspendedUntil == 0 && !s.drain && !s.handoff
            && s.gated == {}
    ensures s.candidate.None? && s.ledger == Ledger(map[], map[], [], None, 1)
  {
    ValidBefore();
    hide Compile, ValidConfig;
    s := Start(BEFORE, VIEW).value;
  }

  lemma {:induction false} Readied(s: Core, now: U64) returns (u: Core)
    requires Start(BEFORE, VIEW) == Some(s)
    ensures u == MarkReady(InstallEndpoint(s, PEER, now).core, now).core
    ensures Routable(u) && u.candidate.None? && u.lifecycle == Running(true)
            && u.ledger == Ledger(map[], map[], [], None, 1)
  {
    var s0 := Starts();
    hide Start, RoutingActive;
    var t := InstallEndpoint(s, PEER, now).core;
    assert PairsEndpoint(s.config, PEER);
    assert t.endpoints == map[2 := Availability(PEER, Connected)];
    u := MarkReady(t, now).core;
    assert t.endpoints[2].state == Connected;
  }

  lemma {:induction false} NoShortcut(s: Core)
    requires s.config == BEFORE && (forall c | c in s.ledger.latches :: !c.control.Key?)
    ensures !FailsafeMatches(s)
  {
    assert AnyEscape == s.config.shortcut[0];
    assert !ShortcutPressed(s.ledger, AnyEscape);
  }

  const TOUCH := Some(Touch(Button(0), Press))

  /** Routing is open for the peer's device. */
  ghost predicate Clear(s: Core) {
    Routable(s) && s.lifecycle == Running(true) && (s.candidate.Some? || !Pending(s.ledger))
  }

  lemma {:induction false} ClearTarget(s: Core, now: U64)
    requires Clear(s)
    ensures Destination(s, 5) == Some(2) && TargetEndpoint(s, 2, ToHost(2), now) == Some(PEER)
    ensures !DeviceGated(s, 5) && RouteFor(s.table, 5) == ToHost(2)
  {
  }

  lemma {:induction false} PressBegins(s: Core, p: Core, now: U64)
    requires s.decision.None? && s.view == VIEW && s.ledger.latches == map[]
    requires p == s.(ledger := s.ledger.(latches := map[SLOT := ToLocal]))
    ensures PrepareCaptured(s, PRESS, now) == Decide(p, PRESS, TOUCH, None, now)
  {
    hide Decide, FailClosed;
    assert SlotsOf(s.ledger.latches, 5) == {} && Devices(s.ledger.latches) == {};
  }

  lemma {:induction false} PressPrepared(s: Core, p: Core, now: U64)
    requires Clear(s) && s.ledger.latches == map[]
    requires p == s.(ledger := s.ledger.(latches := map[SLOT := ToLocal]))
    ensures PrepareCaptured(s, PRESS, now) == PrepareRemote(p, PRESS, PEER, TOUCH, None, now)
  {
    hide PrepareCaptured, FailsafeMatches, RoutingActive, PrepareRemote, TargetEndpoint, Destination, DeviceGated,
         RouteFor;
    PressBegins(s, p, now);
    NoShortcut(p);
    ClearTarget(p, now);
  }

  lemma {:induction false} PressHolds(l: Ledger, c: Case, m: Ledger)
    requires Leaves(l, PRESS, Some(1), c, m) && c.Holds? && c.first && c.key.endpoint == PEER && c.route == ToHost(2)
    requires l.latches == map[]
    ensures m == l.(held := l.held[KEY := Held(ToHost(2), 1)], latches := map[SLOT := ToRemote(PEER, ToHost(2))],
                    nextId := m.nextId)
    ensures m.nextId == l.nextId + 1
  {
    hide Queue;
    assert c.key == KEY;
  }

  /** A press is sent whenever routing is open and the control is not latched. */
  lemma {:induction false} PressGoes(s: Core, now: U64)
    requires Clear(s) && s.ledger.latches == map[] && s.ledger.nextId < 1000 && |s.ledger.held| < 2
    ensures var r := PrepareCaptured(s, PRESS, now);
            Sends(s.ledger, r, PRESS, Some(1)) && r.result.value.effect.endpoint == PEER
    ensures var t := Capture(s, PRESS, Some(1), now).core;
            && t.ledger.held == s.ledger.held[KEY := Held(ToHost(2), 1)] && t.ledger.cleanup == s.ledger.cleanup
            && t.ledger.latches == map[SLOT := ToRemote(PEER, ToHost(2))] && t.ledger.inFlight == s.ledger.inFlight
            && t.ledger.nextId == s.ledger.nextId + 1
  {
    hide PrepareCaptured, Capture, Leaves, RoutingActive, FailClosed, RouteFor, Told, Clear;
    var p := s.(ledger := s.ledger.(latches := map[SLOT := ToLocal]));
    PressPrepared(s, p, now);
    ClearTarget(s, now);
    assert s.decision.None? by { ClearSettled(s); }
    var c := CaptureCase(s, PRESS, Some(1), now);
    PressHolds(s.ledger, c, Capture(s, PRESS, Some(1), now).core.ledger);
  }

  lemma {:induction false} ClearSettled(s: Core)
    requires Clear(s)
    ensures s.decision.None?
  {
  }

  /** The pressed control is held, a candidate for another device is retained, and nothing is owed. */
  ghost predicate Pressed(s: Core) {
    && Routable(s) && s.ledger.held == map[KEY := Held(ToHost(2), 1)] && s.ledger.inFlight.None? && s.ledger.nextId == 2
  }

  lemma {:induction false} NothingMisrouted(s: Core, c: Candidate)
    requires Pressed(s) && c.config == AFTER && c.table == map[5 := ToHost(2), 6 := LocalOnly]
    requires c.affected == Affected(s.config, AFTER, s.table, c.table)
    ensures c.affected <= {6} && Misrouted(s, c) == {}
  {
    assert c.affected <= {6};
  }

  lemma {:induction false} QueueNothingSucceeds(l: Ledger)
    requires l.cleanup == []
    ensures Queue(l, {}) == Queued(l, None)
  {
    assert Unowed(l, {}) == {};
    QueueNothing(l);
  }

  lemma {:induction false} Stages(s: Core, now: U64)
    requires Pressed(s) && s.ledger.cleanup == [] && s.candidate.None?
    ensures var t := PrepareRoutes(s, AFTER, 0, now).core;
            Pressed(t) && t.ledger == s.ledger && t.candidate.Some? && t.lifecycle == s.lifecycle
  {
    hide Compile, ValidConfig, Queue, RoutingActive, Misrouted, Affected, Mirrors;
    ValidAfter();
    QueueNothingSucceeds(s.ledger);
    var table := map[5 := ToHost(2), 6 := LocalOnly];
    var c := Candidate(1, AFTER, table, Affected(s.config, AFTER, s.table, table));
    NothingMisrouted(s, c);
  }

  lemma {:induction false} QueuesKey(l: Ledger)
    requires l.held == map[KEY := Held(ToHost(2), 1)] && l.nextId == 2 && l.cleanup == []
    requires l.latches == map[SLOT := ToRemote(PEER, ToHost(2))]
    ensures var q := Queue(l, l.held.Keys);
            && q.error.None? && q.ledger.held == l.held && q.ledger.nextId == 3
            && Owed(q.ledger.cleanup) == {KEY} && |q.ledger.cleanup| == 1
            && q.ledger.latches == map[SLOT := Quarantined]
  {
    hide Queue, Ordered, Quarantine, Unowed, Owed;
    assert l.held.Keys == {KEY};
    KeyFits(l);
    var added := QueueEffect(l, {KEY});
    OwedAppend(l.cleanup, added);
    CutsOffKey(l.latches);
    NothingOwed();
  }

  lemma {:induction false} NothingOwed()
    ensures Owed([]) == {}
  {
  }

  lemma {:induction false} KeyFits(l: Ledger)
    requires l.held == map[KEY := Held(ToHost(2), 1)] && l.nextId == 2 && l.cleanup == []
    ensures Unowed(l, {KEY}) == {KEY} && Queue(l, {KEY}).error.None?
  {
    hide Quarantine, Ordered, Obligations;
    assert Unowed(l, {KEY}) == {KEY};
    OrderedVisits({KEY});
  }

  lemma {:induction false} CutsOffKey(latches: map<Slot, Latch>)
    requires latches == map[SLOT := ToRemote(PEER, ToHost(2))]
    ensures Quarantine(latches, {KEY}) == map[SLOT := Quarantined]
  {
  }

  lemma {:induction false} SwitchedOff(s: Core, now: U64)
    requires Pressed(s) && s.ledger.cleanup == [] && s.ledger.latches == map[SLOT := ToRemote(PEER, ToHost(2))]
             && s.lifecycle == Running(true)
    ensures var t := Disable(s, now).core;
            && Routable(t) && t.candidate == s.candidate && t.lifecycle == Running(false)
            && t.ledger.held == s.ledger.held && Owed(t.ledger.cleanup) == {KEY} && |t.ledger.cleanup| == 1
            && t.ledger.latches == map[SLOT := Quarantined]
            && t.ledger.nextId == 3
  {
    hide Queue, RoutingActive, Owed, Mirrors;
    QueuesKey(s.ledger);
  }

  lemma {:induction false} LiftIsInert(s: Core, now: U64)
    requires Routable(s) && s.ledger.latches == map[SLOT := Quarantined]
    ensures Capture(s, LIFT, None, now).core == s.(ledger := s.ledger.(latches := map[]))
  {
    var p := s.(ledger := s.ledger.(latches := map[]));
    assert Register(s.ledger, SLOT, Release) == p.ledger;
    NoShortcut(p);
    assert PrepareCaptured(s, LIFT, now) == Decide(p, LIFT, Some(Touch(Button(0), Release)), Some(Quarantined), now)
           by { hide Decide; }
    hide PrepareCaptured, FailsafeMatches;
  }

  lemma {:induction false} Runs(s: Core, steps: seq<Step>, op: Op)
    ensures Execute(s, steps + [Step(0, op)]) == Apply(Execute(s, steps), op, 0)
  {
    hide Apply;
    assert (steps + [Step(0, op)])[..|steps|] == steps;
  }

  /** Up to the press: installed, ready, and held at the peer. */
  lemma {:induction false} FirstHalf(s: Core) returns (steps: seq<Step>)
    requires Start(BEFORE, VIEW) == Some(s)
    ensures var u := Execute(s, steps);
            Pressed(u) && u.ledger.cleanup == [] && u.candidate.None? && u.lifecycle == Running(true)
            && u.ledger.latches == map[SLOT := ToRemote(PEER, ToHost(2))]
  {
    hide Apply, Start, Capture, MarkReady, InstallEndpoint;
    var a := [Step(0, EndpointInstalled(PEER))];
    assert [] + a == a;
    assert Execute(s, []) == s;
    Runs(s, [], EndpointInstalled(PEER));
    Runs(s, a, ReadyMarked);
    var b := a + [Step(0, ReadyMarked)];
    Runs(s, b, Captured(PRESS, Some(1)));
    steps := b + [Step(0, Captured(PRESS, Some(1)))];
    AppliedEarly(s);
    AppliedEarly(Execute(s, a));
    AppliedEarly(Execute(s, b));
    hide Execute;
    var u := Readied(s, 0);
    PressGoes(u, 0);
    CapturedAlike(u, PRESS, Some(1));
  }

  lemma {:induction false} AppliedEarly(s: Core)
    ensures Apply(s, EndpointInstalled(PEER), 0) == InstallEndpoint(s, PEER, 0).core
    ensures Apply(s, ReadyMarked, 0) == MarkReady(s, 0).core
    ensures Apply(s, Captured(PRESS, Some(1)), 0) == Capture(s, PRESS, Some(1), 0).core
  {
    hide Capture, Tick, UpdateConfig, PrepareRoutes, RetryRoutes, CommitRoutes, AbortRoutes, GateDevices, RestoreDevice,
         UpdateWorkspace, BeginHandoff, CancelHandoff, AbortBarrier, FinishHandoff, SetPeerState, InstallEndpoint,
         SetEndpointState, RetireEndpoint, Enable, Disable, Emergency, Shutdown, ClearReady, MarkReady, TakeCleanup,
         ConfirmCleanup, RetryCleanup, TransportInvalidated;
  }

  lemma {:induction false} AppliedLate(s: Core)
    ensures Apply(s, RoutesPrepared(AFTER, 0), 0) == PrepareRoutes(s, AFTER, 0, 0).core
    ensures Apply(s, Disabled, 0) == Disable(s, 0).core
    ensures Apply(s, Captured(LIFT, None), 0) == Capture(s, LIFT, None, 0).core
    ensures Apply(s, Enabled, 0) == Enable(s, 0)
  {
    hide Capture, Tick, UpdateConfig, PrepareRoutes, RetryRoutes, CommitRoutes, AbortRoutes, GateDevices, RestoreDevice,
         UpdateWorkspace, BeginHandoff, CancelHandoff, AbortBarrier, FinishHandoff, SetPeerState, InstallEndpoint,
         SetEndpointState, RetireEndpoint, Enable, Disable, Emergency, Shutdown, ClearReady, MarkReady, TakeCleanup,
         ConfirmCleanup, RetryCleanup, TransportInvalidated;
  }

  /** A press that goes out changes nothing but the ledger that matters here. */
  lemma {:induction false} CapturedAlike(s: Core, e: Event, accepted: Option<U64>)
    requires Clear(s) && s.ledger.latches == map[] && s.ledger.nextId < 1000 && |s.ledger.held| < 2 && e == PRESS
             && accepted == Some(1)
    ensures var t := Capture(s, PRESS, Some(1), 0).core;
            Routable(t) && t.lifecycle == s.lifecycle && t.candidate == s.candidate
  {
    var p := s.(ledger := s.ledger.(latches := map[SLOT := ToLocal]));
    hide PrepareCaptured, RoutingActive, Mirrors;
    PressPrepared(s, p, 0);
  }

  lemma {:induction false} SwitchedOn(s: Core)
    requires Routable(s) && s.lifecycle == Running(false)
    ensures var t := Enable(s, 0);
            t.lifecycle == Running(true) && t == s.(lifecycle := t.lifecycle, published := t.published)
  {
    hide RoutingActive, Mirrors;
  }

  /** A candidate for another device is staged, routing goes off and on again, and the key is let go meanwhile. */
  lemma {:induction false} SecondHalf(s: Core, a: seq<Step>) returns (steps: seq<Step>)
    requires var u := Execute(s, a);
             Pressed(u) && u.ledger.cleanup == [] && u.candidate.None? && u.lifecycle == Running(true)
             && u.ledger.latches == map[SLOT := ToRemote(PEER, ToHost(2))]
    ensures var u := Execute(s, steps);
            Clear(u) && u.ledger.latches == map[] && u.ledger.held == map[KEY := Held(ToHost(2), 1)]
              && u.ledger.nextId == 3
            && Owed(u.ledger.cleanup) == {KEY} && |u.ledger.cleanup| == 1
  {
    hide Apply, Capture, Disable, PrepareRoutes, Enable, Owed;
    var b := a + [Step(0, RoutesPrepared(AFTER, 0))];
    var c := b + [Step(0, Disabled)];
    var d := c + [Step(0, Captured(LIFT, None))];
    steps := d + [Step(0, Enabled)];
    Runs(s, a, RoutesPrepared(AFTER, 0));
    Runs(s, b, Disabled);
    Runs(s, c, Captured(LIFT, None));
    Runs(s, d, Enabled);
    hide Execute;
    AppliedLate(Execute(s, a));
    AppliedLate(Execute(s, b));
    AppliedLate(Execute(s, c));
    AppliedLate(Execute(s, d));
    Stages(Execute(s, a), 0);
    SwitchedOff(Execute(s, b), 0);
    LiftIsInert(Execute(s, c), 0);
    SwitchedOn(Execute(s, d));
  }

  /** The last step of the run from a fresh start is the one that breaks coherence. */
  ghost predicate Breaks(s: Core, steps: seq<Step>) {
    && Start(BEFORE, VIEW) == Some(s) && steps != []
    && Coherent(Execute(s, steps[..|steps| - 1]).ledger) && !Coherent(Execute(s, steps).ledger)
  }

  /** From a fresh start, while a candidate for another device is retained, switching routing off and on lets a key
      be pressed again before its release went out: it is then open and owed at once. */
  lemma {:induction false} CoherenceNeedsNoCandidate() returns (s: Core, steps: seq<Step>)
    ensures Breaks(s, steps)
  {
    hide Apply, Start, Execute, Owed, PrepareCaptured, TouchOf, Coherent, Represses;
    s := Starts();
    var a := FirstHalf(s);
    var f := SecondHalf(s, a);
    steps := f + [Step(0, Captured(PRESS, Some(1)))];
    assert steps[..|steps| - 1] == f;
    var u := Execute(s, f);
    PressGoes(u, 0);
    ReleaseOwed(u.ledger);
    RepressesSends(u, Captured(PRESS, Some(1)), 0);
    CoherentExactly(u, Captured(PRESS, Some(1)), 0);
    Runs(s, f, Captured(PRESS, Some(1)));
    PressTouches();
  }

  lemma {:induction false} PressTouches()
    ensures TouchOf(PRESS.payload) == TOUCH
  {
  }

  lemma {:induction false} ReleaseOwed(l: Ledger)
    requires l.latches == map[] && |l.cleanup| == 1 && Owed(l.cleanup) == {KEY} && KEY in l.held
    ensures Coherent(l)
  {
  }
}
