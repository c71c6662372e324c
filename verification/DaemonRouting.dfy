/** Where a captured event goes, from the configuration, the view and the sessions as they are before it. */
module DaemonRouting {
  import opened Base
  import opened Ledger
  import opened Daemon
  import opened LedgerLemmas
  import opened DaemonRuns
  import opened DaemonLedger
  import opened DaemonPolicy
  import H = Handoff

  // ---------------------------------------------------------------- policy

  /** What a list of routes says of a device; without an entry it follows the active host. */
  function Policy(routes: seq<DeviceRoute>, d: DeviceId): Route {
    if routes == [] then FollowActiveHost
    else if routes[|routes| - 1].device == d then routes[|routes| - 1].route
    else Policy(routes[..|routes| - 1], d)
  }

  lemma {:induction false} PolicyCompiled(routes: seq<DeviceRoute>, t: Table, d: DeviceId)
    requires Compile(routes) == Some(t)
    ensures RouteFor(t, d) == Policy(routes, d)
  {
    if routes != [] {
      var n := |routes| - 1;
      PolicyCompiled(routes[..n], Compile(routes[..n]).value, d);
    }
  }

  /** A valid configuration routes devices only to paired hosts, and pairs each host with one peer and each peer
      once. */
  lemma {:induction false} ValidPolicy(c: Config, d: DeviceId, p: Paired, q: Paired)
    requires ValidConfig(c)
    ensures Policy(c.routes, d).ToHost? ==> exists x | x in c.paired :: x.host == Policy(c.routes, d).host
    ensures p in c.paired && q in c.paired && (p.host == q.host || p.peer == q.peer) ==> p == q
  {
    PolicyListed(c.routes, d);
    if p in c.paired && q in c.paired {
      var i :| 0 <= i < |c.paired| && c.paired[i] == p;
      var j :| 0 <= j < |c.paired| && c.paired[j] == q;
      hide Policy;
      assert i < j || j < i || p == q;
    }
  }

  lemma {:induction false} PolicyListed(routes: seq<DeviceRoute>, d: DeviceId)
    ensures Policy(routes, d) == FollowActiveHost || DeviceRoute(d, Policy(routes, d)) in routes
  {
    if routes != [] { PolicyListed(routes[..|routes| - 1], d); }
  }

  /** The policy sends the device to host `h`, which is not this one. */
  predicate Sent(routes: seq<DeviceRoute>, v: H.View, d: DeviceId, h: HostId) {
    && v.localHost != NIL && v.activeHost != NIL && h != v.localHost
    && match Policy(routes, d)
       case LocalOnly => false
       case FollowActiveHost => h == v.activeHost
       case ToHost(g) => h == g
  }

  /** `ep` is the connected session of the host the policy sends the device to. */
  ghost predicate Reached(s: Core, d: DeviceId, ep: Endpoint) {
    exists h | h in s.endpoints :: Sent(s.config.routes, s.view, d, h) && s.endpoints[h] == Availability(ep, Connected)
  }

  /** Nothing keeps routing closed as a whole. */
  predicate Unlocked(s: Core, now: U64) {
    && s.lifecycle == Running(true) && s.suspendedUntil <= now && s.ready
    && (s.candidate.Some? || (s.ledger.cleanup == [] && s.ledger.inFlight.None?))
  }

  /** The device is gated, or a candidate policy is about to route it differently. */
  predicate Paused(s: Core, d: DeviceId) {
    || d in s.gated
    || (s.candidate.Some? && Policy(s.candidate.value.config.routes, d) != Policy(s.config.routes, d))
  }

  // ---------------------------------------------------------------- keys and buttons

  /** The event presses, repeats or releases a control. */
  predicate Does(e: Event, c: Control, t: Transition) {
    match c
    case Key(code) =>
      e.payload == KeyPayload(code, match t case Press => Pressed case Repeat => Repeated case Release => Lifted)
    case Button(b) =>
      || (t == Press && e.payload == ButtonPayload(b, true))
      || (t == Release && e.payload == ButtonPayload(b, false))
  }

  lemma {:induction false} DoesTouch(e: Event, c: Control, t: Transition)
    ensures Does(e, c, t) <==> TouchOf(e.payload) == Some(Touch(c, t))
  {
  }

  /** The physical keys that count for one key of the shortcut: either side of a modifier. */
  function KeysOf(k: ShortcutKey): set<KeyCode> {
    match k
    case AnyControl => {ControlLeft, ControlRight}
    case AnyAlt => {AltLeft, AltRight}
    case AnyShift => {ShiftLeft, ShiftRight}
    case AnyMeta => {MetaLeft, MetaRight}
    case AnyBackspace => {Backspace}
    case AnyEscape => {Escape}
    case Physical(page, usage) => {Unidentified(page, usage)}
  }

  /** Some device has one of the keys down. */
  ghost predicate AnyDown(slots: set<Slot>, keys: set<KeyCode>) {
    exists s | s in slots :: s.control.Key? && s.control.code in keys
  }

  /** What is down once the event is counted in. */
  function DownAfter(slots: set<Slot>, e: Event): set<Slot> {
    match e.payload
    case KeyPayload(code, Pressed) => slots + {Slot(e.device, Key(code))}
    case KeyPayload(code, Lifted) => slots - {Slot(e.device, Key(code))}
    case ButtonPayload(b, true) => slots + {Slot(e.device, Button(b))}
    case ButtonPayload(b, false) => slots - {Slot(e.device, Button(b))}
    case _ => slots
  }

  /** Every key of the shortcut is down on some device. */
  ghost predicate Completed(c: Config, slots: set<Slot>) {
    forall k | k in c.shortcut :: AnyDown(slots, KeysOf(k))
  }

  ghost predicate Clinging(c: Config, slots: set<Slot>) {
    exists k | k in c.shortcut :: AnyDown(slots, KeysOf(k))
  }

  lemma {:induction false} ShortcutRead(s: Core)
    ensures FailsafeMatches(s) <==> Completed(s.config, s.ledger.latches.Keys)
    ensures AnyFailsafeKey(s) <==> Clinging(s.config, s.ledger.latches.Keys)
  {
    forall k ensures ShortcutPressed(s.ledger, k) <==> AnyDown(s.ledger.latches.Keys, KeysOf(k)) {
      KeyRead(s.ledger, k);
    }
  }

  lemma {:induction false} KeyRead(l: Ledger, k: ShortcutKey)
    ensures ShortcutPressed(l, k) <==> AnyDown(l.latches.Keys, KeysOf(k))
  {
    assert forall c :: ShortcutMatches(k, c) <==> c in KeysOf(k);
    hide ShortcutMatches, KeysOf;
    if s :| s in l.latches && s.control.Key? && ShortcutMatches(k, s.control.code) {
      assert s in l.latches.Keys;
    }
  }

  lemma {:induction false} NotedKeys(l: Ledger, e: Event)
    ensures Noted(l, e).latches.Keys == DownAfter(l.latches.Keys, e)
  {
  }

  // ---------------------------------------------------------------- events that begin something

  /** Input of this host's own, that anything may be done with. */
  predicate Own(s: Core, e: Event) {
    e.physical && e.sourceHost == s.view.localHost && e.device != NIL && e.payload != Motion(false)
  }

  /** A movement, or the press of a control that was up and fits. */
  ghost predicate Starts(s: Core, e: Event, press: Option<Control>) {
    && s.decision.None? && !s.drain && Own(s, e)
    && !Completed(s.config, DownAfter(s.ledger.latches.Keys, e))
    && if press.None? then e.payload.Motion?
       else && Does(e, press.value, Press) && Slot(e.device, press.value) !in s.ledger.latches
            && HasPhysicalRoom(s.ledger.latches, e.device)
  }

  lemma {:induction false} StartsBegin(s: Core, e: Event, press: Option<Control>, now: U64)
    requires Starts(s, e, press)
    ensures PrepareCaptured(s, e, now) == Begin(s.(ledger := Noted(s.ledger, e)), e, TouchOf(e.payload), now)
    ensures Is(TouchOf(e.payload), Press) <==> press.Some?
  {
    if press.Some? { DoesTouch(e, press.value, Press); }
    NotedKeys(s.ledger, e);
    ShortcutRead(s.(ledger := Noted(s.ledger, e)));
    hide Begin, FailsafeMatches, HasPhysicalRoom, Completed, FailClosed, AnyFailsafeKey, DownAfter, Does;
  }

  /** The policy as compiled is the policy as written, for the device and for what is about to change. */
  lemma {:induction false} WrittenPolicy(s: Core, d: DeviceId)
    requires Policied(s)
    ensures RouteFor(s.table, d) == Policy(s.config.routes, d) && (DeviceGated(s, d) <==> Paused(s, d))
  {
    PolicyCompiled(s.config.routes, s.table, d);
    if s.candidate.Some? {
      AffectedExactly(s, d);
      PolicyCompiled(s.candidate.value.config.routes, s.candidate.value.table, d);
    }
    hide ValidConfig, Compile, Affected, RouteFor, Policy;
  }

  lemma {:induction false} NotedSame(s: Core, e: Event, now: U64)
    ensures var p := s.(ledger := Noted(s.ledger, e));
            && p.ledger == s.ledger.(latches := p.ledger.latches)
            && (RoutingActive(p, now) <==> Unlocked(s, now) && !s.drain && s.decision.None?)
  {
  }

  /** A fresh event is queued for a session exactly if routing is open and that session is the connected one of the
      host the policy names: the host of its entry, or the active host without one. Otherwise it acts here. */
  lemma {:induction false} GoesExactly(s: Core, e: Event, press: Option<Control>, ep: Endpoint, now: U64)
    requires Policied(s) && Starts(s, e, press) && !Paused(s, e.device)
    requires !(s.handoff && Policy(s.config.routes, e.device) == FollowActiveHost)
    requires (press.Some? ==> |s.ledger.held| < 1024) && s.ledger.nextId < U64_MAX
    ensures var r := PrepareCaptured(s, e, now).result;
            && (r == Ok(DecidedRemote(InputEffect(s.ledger.nextId, ep, e))) <==>
                 Unlocked(s, now) && Reached(s, e.device, ep))
            && (if Unlocked(s, now) && exists x :: Reached(s, e.device, x) then r.Ok? && r.value.DecidedRemote?
                else if exists h: HostId :: Sent(s.config.routes, s.view, e.device, h)
                then r == Ok(DecidedLocal(LOCAL_GATED)) else r == Ok(DecidedLocal(LOCAL)))
  {
    StartsBegin(s, e, press, now);
    WrittenPolicy(s, e.device);
    NotedSame(s, e, now);
    hide PrepareCaptured, Starts, Policied, RouteFor, Policy, RoutingActive, Unlocked, Noted, TouchOf, DeviceGated,
         Paused, Begin, Destination, TargetEndpoint, Sent, Reached;
    var p := s.(ledger := Noted(s.ledger, e));
    SameGates(s, p, e.device);
    SentDestination(s, p, e.device);
    ReachedAt(s, p, e.device);
    BeginGoes(p, e, TouchOf(e.payload), now);
    var t := Destination(p, e.device);
    if t.Some? {
      assert Sent(s.config.routes, s.view, e.device, t.value);
      TargetReached(s, p, t.value, RouteFor(s.table, e.device), now);
      if t.value in s.endpoints && s.endpoints[t.value].state == Connected {
        assert Reached(s, e.device, s.endpoints[t.value].endpoint);
      }
    }
  }

  lemma {:induction false} ReachedAt(s: Core, p: Core, d: DeviceId)
    requires p == s.(ledger := p.ledger) && RouteFor(s.table, d) == Policy(s.config.routes, d)
    ensures forall ep :: Reached(s, d, ep) <==>
              var t := Destination(p, d);
              t.Some? && t.value in s.endpoints && s.endpoints[t.value] == Availability(ep, Connected)
  {
    SentDestination(s, p, d);
    hide Sent, Destination;
  }

  /** What is decided for an event that begins something and is not held back. */
  lemma {:induction false} BeginGoes(p: Core, e: Event, touch: Option<Touch>, now: U64)
    requires !DeviceGated(p, e.device) && !(p.handoff && RouteFor(p.table, e.device) == FollowActiveHost)
    requires (Is(touch, Press) ==> |p.ledger.held| < 1024) && p.ledger.nextId < U64_MAX
    ensures var r := Begin(p, e, touch, now).result;
            match Destination(p, e.device)
            case None => r == Ok(DecidedLocal(LOCAL))
            case Some(h) =>
              var x := TargetEndpoint(p, h, RouteFor(p.table, e.device), now);
              r == Ok(if x.None? then DecidedLocal(LOCAL_GATED)
                      else DecidedRemote(InputEffect(p.ledger.nextId, x.value, e)))
  {
    hide Destination, TargetEndpoint, RouteFor, DeviceGated, FailClosed;
  }

  lemma {:induction false} TargetReached(s: Core, p: Core, h: HostId, route: Route, now: U64)
    requires p == s.(ledger := p.ledger) && !(s.handoff && route == FollowActiveHost)
    ensures TargetEndpoint(p, h, route, now)
            == if h in s.endpoints && s.endpoints[h].state == Connected && RoutingActive(p, now)
               then Some(s.endpoints[h].endpoint) else None
  {
    hide RoutingActive;
  }

  lemma {:induction false} SameGates(s: Core, p: Core, d: DeviceId)
    requires p == s.(ledger := p.ledger)
    ensures DeviceGated(p, d) == DeviceGated(s, d)
  {
  }

  lemma {:induction false} SentDestination(s: Core, p: Core, d: DeviceId)
    requires p == s.(ledger := p.ledger) && RouteFor(s.table, d) == Policy(s.config.routes, d)
    ensures forall h: HostId :: Sent(s.config.routes, s.view, d, h) <==> Destination(p, d) == Some(h)
  {
    hide RouteFor, Policy;
  }

  /** A fresh event of a device that is held back, or that a handoff is moving, goes nowhere. */
  lemma {:induction false} HeldBack(s: Core, e: Event, press: Option<Control>, now: U64)
    requires Policied(s) && Starts(s, e, press)
    ensures var r := PrepareCaptured(s, e, now).result;
            && (Paused(s, e.device) ==> r == Ok(DecidedLocal(LOCAL_GATED)))
            && (!Paused(s, e.device) && s.handoff && Policy(s.config.routes, e.device) == FollowActiveHost ==>
                  r == Ok(DecidedInert(INERT)))
  {
    StartsBegin(s, e, press, now);
    WrittenPolicy(s, e.device);
    hide PrepareCaptured, Starts, Policied, RouteFor, Policy, Noted, TouchOf, DeviceGated, Paused;
    SameGates(s, s.(ledger := Noted(s.ledger, e)), e.device);
  }

  /** With no room left at the peers, or no identifier, the event is refused or acts here, and routing is shut. */
  lemma {:induction false} NoRoomAbroad(s: Core, e: Event, press: Option<Control>, ep: Endpoint, now: U64)
    requires Policied(s) && Starts(s, e, press) && !Paused(s, e.device)
    requires !(s.handoff && Policy(s.config.routes, e.device) == FollowActiveHost)
    requires Unlocked(s, now) && Reached(s, e.device, ep)
    requires (press.Some? && |s.ledger.held| >= 1024) || s.ledger.nextId == U64_MAX
    ensures var r := PrepareCaptured(s, e, now);
            && !r.core.ready && r.core.view.activeHost == s.view.localHost
            && (if press.Some? && |s.ledger.held| >= 1024 then r.result == Err(CapacityExceeded)
                else r.result.Ok? && r.result.value.DecidedFault? && r.result.value.outcome == LOCAL_GATED)
  {
    StartsBegin(s, e, press, now);
    WrittenPolicy(s, e.device);
    NotedSame(s, e, now);
    hide PrepareCaptured, Starts, Policied, RouteFor, Policy, RoutingActive, Unlocked, Noted, TouchOf, DeviceGated,
         Paused, Queue;
    var p := s.(ledger := Noted(s.ledger, e));
    SameGates(s, p, e.device);
    SentDestination(s, p, e.device);
    hide Sent;
  }

  // ---------------------------------------------------------------- events that continue something, and all others

  /** An event of a control that is down goes on where its press went: here, nowhere, or to the very session it was
      pressed on, as long as that is connected, routing is open and no handoff is moving it. */
  lemma {:induction false} ContinuesExactly(s: Core, e: Event, c: Control, t: Transition, now: U64)
    requires s.decision.None? && !s.drain && Own(s, e) && Does(e, c, t) && Slot(e.device, c) in s.ledger.latches
    requires !Completed(s.config, DownAfter(s.ledger.latches.Keys, e))
    ensures var r := PrepareCaptured(s, e, now);
            match s.ledger.latches[Slot(e.device, c)]
            case ToLocal => r.result == Ok(DecidedLocal(LOCAL))
            case Quarantined => r.result == Ok(DecidedInert(INERT))
            case ToRemote(ep, route) =>
              var open := Unlocked(s, now) && !(s.handoff && route == FollowActiveHost)
                          && ep.host in s.endpoints && s.endpoints[ep.host] == Availability(ep, Connected);
              && (r.result == Ok(DecidedRemote(InputEffect(s.ledger.nextId, ep, e))) <==>
                   open && s.ledger.nextId < U64_MAX)
              && (!(open && s.ledger.nextId < U64_MAX) ==>
                    && !r.core.ready && r.core.view.activeHost == s.view.localHost && r.result.Ok?
                    && (r.result.value.DecidedInert? || r.result.value.DecidedFault?)
                    && r.result.value.outcome == SUPPRESSED_GATED)
  {
    DoesTouch(e, c, t);
    NotedKeys(s.ledger, e);
    NotedSame(s, e, now);
    var p := s.(ledger := Noted(s.ledger, e));
    ShortcutRead(p);
    assert PrepareCaptured(s, e, now)
           == Continue(p, e, TouchOf(e.payload), s.ledger.latches[Slot(e.device, c)], now) by {
      hide Continue, FailsafeMatches, HasPhysicalRoom, Completed, FailClosed, AnyFailsafeKey, DownAfter, Does;
    }
    hide PrepareCaptured, RoutingActive, Unlocked, Noted, TouchOf, Queue, FailsafeMatches, Completed, DownAfter, Does;
  }

  /** A repetition or release without a press acts here and changes nothing. */
  lemma {:induction false} StrayActsHere(s: Core, e: Event, c: Control, t: Transition, now: U64)
    requires s.decision.None? && !s.drain && Own(s, e) && Does(e, c, t) && t != Press
    requires Slot(e.device, c) !in s.ledger.latches && !Completed(s.config, DownAfter(s.ledger.latches.Keys, e))
    ensures PrepareCaptured(s, e, now) == Turn(s, Ok(DecidedLocal(LOCAL)))
  {
    DoesTouch(e, c, t);
    NotedKeys(s.ledger, e);
    var p := s.(ledger := Noted(s.ledger, e));
    assert p.ledger.latches == s.ledger.latches;
    ShortcutRead(p);
    hide FailsafeMatches, HasPhysicalRoom, Completed, FailClosed, AnyFailsafeKey, DownAfter, Does;
  }

  /** Input that is not this host's own acts here and changes nothing. */
  lemma {:induction false} ForeignActsHere(s: Core, e: Event, now: U64)
    requires s.decision.None? && !Own(s, e)
    ensures PrepareCaptured(s, e, now) == Turn(s, Ok(DecidedLocal(LOCAL)))
  {
  }

  /** While an escape drains, everything acts here, and it drains exactly until no key of the shortcut is down. */
  lemma {:induction false} DrainsHere(s: Core, e: Event, now: U64)
    requires s.decision.None? && s.drain && Own(s, e)
    requires forall c | Does(e, c, Press) ::
             Slot(e.device, c) in s.ledger.latches || HasPhysicalRoom(s.ledger.latches, e.device)
    ensures var r := PrepareCaptured(s, e, now);
            && r.result == Ok(DecidedLocal(LOCAL_GATED))
            && (r.core.drain <==> Clinging(s.config, DownAfter(s.ledger.latches.Keys, e)))
    ensures Tick(s, now).0.drain <==> Clinging(s.config, s.ledger.latches.Keys)
  {
    var touch := TouchOf(e.payload);
    if touch.Some? { DoesTouch(e, touch.value.control, touch.value.transition); }
    NotedKeys(s.ledger, e);
    ShortcutRead(s);
    ShortcutRead(s.(ledger := Noted(s.ledger, e)));
    hide FailsafeMatches, HasPhysicalRoom, Clinging, FailClosed, AnyFailsafeKey, DownAfter, Does, TouchOf,
         RoutingActive;
  }

  // ---------------------------------------------------------------- how much can be down

  /** At most 64 devices with something down, 256 controls on each, 1024 in all. */
  ghost predicate Bearable(slots: set<Slot>) {
    && |(set s | s in slots :: s.device)| <= 64 && |slots| <= 1024
    && forall d: DeviceId :: |On(slots, d)| <= 256
  }

  function On(slots: set<Slot>, d: DeviceId): set<Slot> {
    set s | s in slots && s.device == d
  }

  /** A press is turned away exactly if it would be one too many. */
  lemma {:induction false} RoomExactly(latches: map<Slot, Latch>, slot: Slot)
    requires Bearable(latches.Keys) && slot !in latches
    ensures HasPhysicalRoom(latches, slot.device) <==> Bearable(latches.Keys + {slot})
  {
    var keys := latches.Keys;
    var more := keys + {slot};
    assert Devices(latches) == (set s | s in keys :: s.device);
    assert (set s | s in more :: s.device) == Devices(latches) + {slot.device};
    assert SlotsOf(latches, slot.device) == On(keys, slot.device);
    assert On(more, slot.device) == On(keys, slot.device) + {slot};
    assert forall d | d != slot.device :: On(more, d) == On(keys, d);
    assert |latches| == |keys|;
  }

  lemma {:induction false} FewerBearable(a: set<Slot>, b: set<Slot>)
    requires Bearable(a) && b <= a
    ensures Bearable(b)
  {
    var (da, db) := (set s | s in a :: s.device, set s | s in b :: s.device);
    assert db <= da;
    Subset(db, da);
    Subset(b, a);
    forall d: DeviceId ensures |On(b, d)| <= 256 {
      assert On(b, d) <= On(a, d);
      Subset(On(b, d), On(a, d));
      assert |On(a, d)| <= 256;
    }
  }

  lemma {:induction false} Subset<T>(a: set<T>, b: set<T>)
    requires a <= b
    ensures |a| <= |b|
  {
    assert a + (b - a) == b;
  }

  lemma {:induction false} CaptureBearable(s: Core, e: Event, accepted: Option<U64>, now: U64)
    requires s.decision.None? && Bearable(s.ledger.latches.Keys)
    ensures Bearable(Capture(s, e, accepted, now).core.ledger.latches.Keys)
  {
    var c := CaptureCase(s, e, accepted, now);
    var m := Capture(s, e, accepted, now).core.ledger;
    CaseSlots(s.ledger, e, accepted, c, m);
    NotedKeys(s.ledger, e);
    hide Bearable, Leaves, Capture, DownAfter, Noted;
    if m.latches.Keys <= s.ledger.latches.Keys {
      FewerBearable(s.ledger.latches.Keys, m.latches.Keys);
    } else {
      PressedFits(s, e, accepted, now, c);
      FewerBearable(Noted(s.ledger, e).latches.Keys, m.latches.Keys);
    }
  }

  lemma {:induction false} CaseSlots(l: Ledger, e: Event, accepted: Option<U64>, c: Case, m: Ledger)
    requires Leaves(l, e, accepted, c, m)
    ensures m.latches.Keys <= l.latches.Keys || m.latches.Keys <= Noted(l, e).latches.Keys
    ensures c == Refuses || c == Unchanged ==> m.latches.Keys == l.latches.Keys
  {
    hide Queue, TouchOf, Missing;
    var n := Noted(l, e);
    QueueSlots(l, l.held.Keys);
    QueueSlots(n, l.held.Keys);
    if c.Closes? && c.burned { QueueSlots(Burn(n), l.held.Keys); }
  }

  lemma {:induction false} QueueSlots(l: Ledger, picked: set<HeldKey>)
    ensures Queue(l, picked).ledger.latches.Keys == l.latches.Keys
  {
    var added := QueueEffect(l, picked);
    hide Queue;
  }

  lemma {:induction false} PressedFits(s: Core, e: Event, accepted: Option<U64>, now: U64, c: Case)
    requires s.decision.None? && Bearable(s.ledger.latches.Keys)
    requires var m := Capture(s, e, accepted, now).core.ledger;
             Leaves(s.ledger, e, accepted, c, m) && !(m.latches.Keys <= s.ledger.latches.Keys)
    ensures Bearable(Noted(s.ledger, e).latches.Keys)
  {
    var touch := TouchOf(e.payload);
    hide Bearable, Leaves, Capture, HasPhysicalRoom, TouchOf;
    CaseSlots(s.ledger, e, accepted, c, Capture(s, e, accepted, now).core.ledger);
    if touch.Some? && touch.value.transition == Press && Slot(e.device, touch.value.control) !in s.ledger.latches {
      var slot := Slot(e.device, touch.value.control);
      RoomExactly(s.ledger.latches, slot);
      assert Noted(s.ledger, e).latches.Keys == s.ledger.latches.Keys + {slot};
      if !HasPhysicalRoom(s.ledger.latches, e.device) { FullRefuses(s, e, accepted, now); }
    } else {
      FewerBearable(s.ledger.latches.Keys, Noted(s.ledger, e).latches.Keys);
    }
  }

  lemma {:induction false} FullRefuses(s: Core, e: Event, accepted: Option<U64>, now: U64)
    requires s.decision.None? && Is(TouchOf(e.payload), Press)
    requires Slot(e.device, TouchOf(e.payload).value.control) !in s.ledger.latches
    requires !HasPhysicalRoom(s.ledger.latches, e.device)
    ensures Capture(s, e, accepted, now).core.ledger.latches.Keys == s.ledger.latches.Keys
  {
    QueueSlots(s.ledger, s.ledger.held.Keys);
    ClosedOff(s, now);
    hide TouchOf, HasPhysicalRoom, Queue, Decide, FailClosed, ConfirmRemote, FailRemote;
  }

  /** In every run no more is down than the tables hold. */
  lemma {:induction false} PhysicallyBounded(config: Config, v: H.View, s: Core, steps: seq<Step>)
    requires Start(config, v) == Some(s)
    ensures Bearable(Execute(s, steps).ledger.latches.Keys) && Execute(s, steps).decision.None?
    decreases |steps|
  {
    hide Apply, Bearable;
    if steps == [] {
      StartsEmpty(config, v, s);
      assert Bearable(s.ledger.latches.Keys) by { NothingBearable(s.ledger.latches.Keys); }
    } else {
      hide Start;
      var n := |steps| - 1;
      PhysicallyBounded(config, v, s, steps[..n]);
      var u := Execute(s, steps[..n]);
      StepBearable(u, steps[n].op, steps[n].now);
    }
  }

  lemma {:induction false} NothingBearable(slots: set<Slot>)
    requires slots == {}
    ensures Bearable(slots)
  {
    assert (set s | s in slots :: s.device) == {};
    assert forall d: DeviceId :: On(slots, d) == {};
  }

  lemma {:induction false} StepBearable(s: Core, op: Op, now: U64)
    requires s.decision.None? && Bearable(s.ledger.latches.Keys)
    ensures Bearable(Apply(s, op, now).ledger.latches.Keys) && Apply(s, op, now).decision.None?
  {
    hide Apply, Bearable, Capture, Moves;
    if op.Captured? {
      ApplyCapture(s, op, now);
      CaptureBearable(s, op.event, op.accepted, now);
      var c := CaptureCase(s, op.event, op.accepted, now);
    } else {
      var m := OpMoves(s, op, now);
      MoveSlots(s.ledger, m, Apply(s, op, now).ledger);
      FewerBearable(s.ledger.latches.Keys, Apply(s, op, now).ledger.latches.Keys);
    }
  }

  lemma {:induction false} MoveSlots(l: Ledger, m: Move, n: Ledger)
    requires Moves(l, m, n)
    ensures n.latches.Keys <= l.latches.Keys
  {
    if m.Queueing? || m.Relabelling? { QueueSlots(l, m.picked); }
    hide Queue;
  }
}
