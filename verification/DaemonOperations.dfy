/** Exactly when each request to the core is granted, and what it leaves behind. */
module DaemonOperations {
  import opened Base
  import opened Ledger
  import opened Daemon
  import opened LedgerLemmas
  import opened DaemonRuns
  import opened DaemonLedger
  import opened DaemonControl
  import opened DaemonPolicy
  import opened DaemonRouting
  import opened DaemonFailsafe
  import opened DaemonReroute
  import H = Handoff

  // ---------------------------------------------------------------- releases taken on

  /** Releases for all of `picked` can be owed. */
  ghost predicate CanOwe(l: Ledger, picked: set<HeldKey>) {
    var added := |picked - Owed(l.cleanup)|;
    |l.cleanup| + added <= 1024 && l.nextId + added <= U64_MAX
  }

  /** Releases for all of `picked` are owed, besides those that were; or, without room, everything is as before. */
  ghost predicate Owes(l: Ledger, m: Ledger, picked: set<HeldKey>) {
    && m.held == l.held && m.inFlight == l.inFlight
    && if CanOwe(l, picked) then Owed(m.cleanup) == Owed(l.cleanup) + picked else m == l
  }

  lemma {:induction false} QueueOwes(l: Ledger, picked: set<HeldKey>)
    requires picked <= l.held.Keys
    ensures Owes(l, Queue(l, picked).ledger, picked) && (Queue(l, picked).error.None? <==> CanOwe(l, picked))
  {
    OwesPicked(l, picked);
    hide Queue;
  }

  /** A barrier is through exactly with nothing picked and nothing owed, and then changed nothing. */
  lemma {:induction false} BarrierThrough(l: Ledger, picked: set<HeldKey>)
    requires picked <= l.held.Keys
    ensures var q := Queue(l, picked);
            && Owes(l, q.ledger, picked) && (q.error.Some? ==> q.ledger == l)
            && (q.error.None? && !Pending(q.ledger) <==> Settled(l) && picked == {})
            && (Settled(l) && picked == {} ==> q.ledger == l)
  {
    QueueOwes(l, picked);
    OwesPicked(l, picked);
    QueueNothing(l);
    hide Queue, Owes, Owed;
    if picked == {} && Settled(l) { EmptyFits(l); }
  }

  lemma {:induction false} EmptyFits(l: Ledger)
    requires l.cleanup == []
    ensures |{} - Owed(l.cleanup)| == 0
  {
  }

  ghost predicate Granted<T>(r: Turn<T>) {
    r.result.Ok?
  }

  // ---------------------------------------------------------------- beginning, and decisions that are not outstanding

  /** A core starts exactly from a valid configuration and a view that is local and consistent; nothing is connected,
      held or routed yet. */
  lemma {:induction false} BeginsWith(config: Config, v: H.View, now: U64)
    ensures var s := Start(config, v);
            && (s.Some? <==>
                  && ValidConfig(config) && v.localHost != NIL && v.activeHost == v.localHost
                  && v.activeDisplay == v.pointer.display)
            && (s.Some? ==>
                  && s.value.config == config && s.value.view == v && s.value.endpoints == map[] && s.value.gated == {}
                  && s.value.ledger.held == map[] && s.value.ledger.latches == map[] && Settled(s.value.ledger)
                  && s.value.lifecycle == Running(true) && !s.value.ready && !s.value.drain && !s.value.handoff
                  && s.value.suspendedUntil == 0 && s.value.revision == config.revision && s.value.candidate.None?
                  && (forall h | h in s.value.peers :: PairsHost(config, h) && s.value.peers[h] == Disconnected)
                  && Mirrors(s.value, now))
  {
    if ValidConfig(config) { ValidCompiles(config); }
    hide ValidConfig, Compile;
  }

  /** Settling a decision that is not the outstanding one is refused, takes control back and closes routing, and leaves
      what is held and owed alone. */
  lemma {:induction false} StaleDecisionCloses(s: Core, effect: InputEffect, sequence: U64, now: U64)
    requires s.decision.None? || s.decision.value.id != effect.id
    ensures var r := ConfirmRemote(s, effect, sequence, now);
            && r.result == Err(StaleDecision) && !r.core.ready && !r.core.handoff
            && r.core.view.activeHost == s.view.localHost
            && r.core.ledger == s.ledger && r.core.decision == s.decision
    ensures FailRemote(s, effect, now) == ConfirmRemote(s, effect, sequence, now)
  {
    hide RoutingActive, Mirrors, Publish, FailClosed, Enter;
  }

  /** A queued event can be recorded: a press within the bound on held controls, a repetition of one that is held, and
      everything else. */
  predicate Recordable(l: Ledger, d: Decision) {
    d.touch.Some? ==>
      var key := HeldKey(d.endpoint, d.device, d.touch.value.control);
      && (d.touch.value.transition == Press ==> key in l.held || |l.held| < 1024)
      && (d.touch.value.transition == Repeat ==> key in l.held)
  }

  /** Why releases for everything held cannot be owed. */
  function Shortage(l: Ledger): Error {
    if |l.cleanup| + |l.held.Keys - Owed(l.cleanup)| > 1024 then CapacityExceeded else IdentifiersExhausted
  }

  /** Confirming the outstanding decision succeeds exactly if it can be recorded; otherwise routing closes, everything
      held
      is owed its release, and the error says what was missing. */
  lemma {:induction false} ConfirmsExactly(s: Core, effect: InputEffect, sequence: U64, now: U64)
    requires s.decision.Some? && s.decision.value.id == effect.id
    ensures var r := ConfirmRemote(s, effect, sequence, now);
            var d := s.decision.value;
            && r.core.decision.None?
            && (if Recordable(s.ledger, d) then r.result == Ok(QUEUED)
                else
                  && Owes(s.ledger, r.core.ledger, s.ledger.held.Keys) && !r.core.ready && Local(r.core)
                  && r.result == Err(if d.touch.value.transition == Repeat then StaleDecision
                                     else if CanOwe(s.ledger, s.ledger.held.Keys) then CapacityExceeded
                                     else Shortage(s.ledger)))
  {
    hide TakeDecision, FailClosed, Enter, Owes, CanOwe, Shortage, Recordable, RouteOf, Mirrors;
    var d := s.decision.value;
    var t := s.(decision := None);
    Taken(s, effect.id, now);
    EntersExactly(s.ledger, d, RouteOf(t, d), sequence);
    ClosingReports(t, now);
  }

  lemma {:induction false} EntersExactly(l: Ledger, d: Decision, route: Route, sequence: U64)
    ensures var r := Enter(l, d, route, sequence);
            && (r.Ok? <==> Recordable(l, d))
            && (r.Err? ==> d.touch.Some? && r.error == if d.touch.value.transition == Repeat then StaleDecision
                else CapacityExceeded)
  {
  }

  lemma {:induction false} ClosingReports(s: Core, now: U64)
    ensures var f := FailClosed(s, now);
            && Owes(s.ledger, f.core.ledger, s.ledger.held.Keys) && !f.core.ready && Local(f.core)
            && f.core.decision == s.decision
            && f.result == (if CanOwe(s.ledger, s.ledger.held.Keys) then Ok(()) else Err(Shortage(s.ledger)))
  {
    hide Queue, RoutingActive, Mirrors, Publish, Owes, CanOwe, Shortage;
    QueueOwes(s.ledger, s.ledger.held.Keys);
    QueueErrs(s.ledger);
  }

  lemma {:induction false} QueueErrs(l: Ledger)
    ensures Queue(l, l.held.Keys).error.Some? ==> Queue(l, l.held.Keys).error.value == Shortage(l)
  {
    assert Unowed(l, l.held.Keys) == l.held.Keys - Owed(l.cleanup);
    OrderedVisits(Unowed(l, l.held.Keys));
    hide Ordered, Obligations, Quarantine, Owed;
  }

  // ---------------------------------------------------------------- stopping and starting

  /** Every way of stopping returns control to this host and owes a release for everything held; each is refused only
      in the middle of a capture, and reports an error exactly when the releases cannot be owed. */
  lemma {:induction false} StopsExactly(s: Core, now: U64)
    requires s.decision.None?
    ensures var r := Disable(s, now);
            && (Granted(r) <==> CanOwe(s.ledger, s.ledger.held.Keys))
            && Owes(s.ledger, r.core.ledger, s.ledger.held.Keys)
            && r.core == s.(view := s.view.(activeHost := s.view.localHost), handoff := false, ledger := r.core.ledger,
                            published := r.core.published,
                            lifecycle := if s.lifecycle == ShuttingDown then ShuttingDown else Running(false))
    ensures var r := Shutdown(s, now);
            && (Granted(r) <==> CanOwe(s.ledger, s.ledger.held.Keys))
            && Owes(s.ledger, r.core.ledger, s.ledger.held.Keys)
            && r.core == s.(view := s.view.(activeHost := s.view.localHost), handoff := false, ledger := r.core.ledger,
                            published := r.core.published, lifecycle := ShuttingDown)
  {
    hide Queue, RoutingActive, Mirrors, Publish;
    QueueOwes(s.ledger, s.ledger.held.Keys);
    hide Owes, CanOwe;
  }

  lemma {:induction false} ClosesExactly(s: Core, now: U64)
    requires s.decision.None?
    ensures var r := ClearReady(s, now);
            && (Granted(r) <==> CanOwe(s.ledger, s.ledger.held.Keys))
            && Owes(s.ledger, r.core.ledger, s.ledger.held.Keys)
            && r.core == s.(view := s.view.(activeHost := s.view.localHost), handoff := false, ledger := r.core.ledger,
                            published := r.core.published, ready := false)
    ensures var r := Emergency(s, now);
            && (Granted(r) <==> CanOwe(s.ledger, s.ledger.held.Keys))
            && Owes(s.ledger, r.core.ledger, s.ledger.held.Keys)
            && r.core == s.(view := s.view.(activeHost := s.view.localHost), handoff := false, ledger := r.core.ledger,
                            published := r.core.published, drain := true,
                            suspendedUntil := Until(s.config.suspendSeconds, now), ready := s.ready && Granted(r))
  {
    hide Queue, RoutingActive, Mirrors, Publish;
    QueueOwes(s.ledger, s.ledger.held.Keys);
    hide Owes, CanOwe;
  }

  /** Routing is requested unless shutting down; it is made ready exactly with nothing held or owed, something
      connected,
      and not shutting down. */
  lemma {:induction false} StartsExactly(s: Core, now: U64)
    ensures var t := Enable(s, now);
            if s.lifecycle == ShuttingDown then t == s
            else t == s.(lifecycle := Running(true), published := t.published)
    ensures var r := MarkReady(s, now);
            && (Granted(r) <==>
                  && s.decision.None? && s.ledger.held == map[] && Settled(s.ledger) && s.lifecycle != ShuttingDown
                  && exists h | h in s.endpoints :: s.endpoints[h].state == Connected)
            && r.core == (if Granted(r) then s.(ready := true, published := r.core.published) else s)
  {
    hide RoutingActive, Mirrors, Publish;
  }

  lemma {:induction false} StaysDown(s: Core, op: Op, now: U64)
    requires s.decision.None? && s.lifecycle == ShuttingDown
    ensures Apply(s, op, now).lifecycle == ShuttingDown && Apply(s, op, now).decision.None?
  {
    hide Apply, Capture, Leaves, Justified, Shown, Drains;
    StepSettled(s, op, now);
    if op.Captured? {
      ApplyCapture(s, op, now);
      var c := CaptureCase(s, op.event, op.accepted, now);
    } else {
      OpSteers(s, op, now);
    }
  }

  /** After a shutdown nothing ever leaves this host again, whatever is still asked of the core. */
  lemma {:induction false} ShutdownIsFinal(s: Core, steps: seq<Step>, e: Event, now: U64)
    requires s.decision.None? && s.lifecycle == ShuttingDown
    ensures var u := Execute(s, steps);
            u.lifecycle == ShuttingDown && u.decision.None? && !Remote(PrepareCaptured(u, e, now))
    decreases |steps|
  {
    hide Apply, PrepareCaptured;
    if steps == [] {
      CapturedAway(s, e, now);
    } else {
      var n := |steps| - 1;
      ShutdownIsFinal(s, steps[..n], e, now);
      StaysDown(Execute(s, steps[..n]), steps[n].op, steps[n].now);
      CapturedAway(Execute(s, steps), e, now);
    }
  }

  // ---------------------------------------------------------------- sessions

  /** A session is put to use exactly if it is paired and the host has no other. */
  lemma {:induction false} InstallsExactly(s: Core, e: Endpoint, now: U64)
    ensures var r := InstallEndpoint(s, e, now);
            && (Granted(r) <==>
                  && s.decision.None? && Paired(e.host, e.peer) in s.config.paired
                  && (e.host in s.endpoints ==> s.endpoints[e.host].endpoint == e))
            && r.core == (if !Granted(r) then s
                          else s.(endpoints := s.endpoints[e.host := Availability(e, Connected)],
                                  peers := s.peers[e.host := Connected], published := r.core.published))
  {
    hide RoutingActive, Mirrors, Publish;
  }

  /** The session in use changes health: on leaving the connected state control comes back if its host had it, routing
      closes, and everything held there is owed its release. */
  lemma {:induction false} HealthExactly(s: Core, e: Endpoint, state: PeerState, now: U64)
    requires s.decision.None? && e.host in s.endpoints && s.endpoints[e.host].endpoint == e
    ensures var r := SetEndpointState(s, e, state, now);
            var there := set k | k in s.ledger.held && k.endpoint == e;
            && r.core.endpoints == s.endpoints[e.host := Availability(e, state)]
            && r.core.peers == s.peers[e.host := state]
            && (if state == Connected then r.core.ledger == s.ledger && r.core.view == s.view && r.core.ready == s.ready
                else
                  && Owes(s.ledger, r.core.ledger, there) && (Granted(r) <==> CanOwe(s.ledger, there))
                  && !r.core.ready && !r.core.handoff
                  && r.core.view
                    == (if s.view.activeHost == e.host then s.view.(activeHost := s.view.localHost) else s.view))
            && r.core == s.(endpoints := r.core.endpoints, peers := r.core.peers, ledger := r.core.ledger,
                            view := r.core.view,
                            ready := r.core.ready, handoff := r.core.handoff, published := r.core.published)
  {
    hide Queue, RoutingActive, Mirrors, Publish, HeldOn;
    assert HeldOn(s.ledger, e) == set k | k in s.ledger.held && k.endpoint == e by { OnSession(s.ledger, e); }
    QueueOwes(s.ledger, HeldOn(s.ledger, e));
    hide Owes, CanOwe;
  }

  lemma {:induction false} OnSession(l: Ledger, e: Endpoint)
    ensures HeldOn(l, e) == (set k | k in l.held && k.endpoint == e) && HeldOn(l, e) <= l.held.Keys
  {
  }

  /** Health of a session not in use is refused. */
  lemma {:induction false} HealthOfOthers(s: Core, e: Endpoint, state: PeerState, now: U64)
    requires s.decision.Some? || e.host !in s.endpoints || s.endpoints[e.host].endpoint != e
    ensures SetEndpointState(s, e, state, now) == Turn(s, Err(Unavailable))
  {
  }

  /** A session is retired exactly if it is in use, no longer connected, and nothing is held or owed there. */
  lemma {:induction false} RetiresExactly(s: Core, e: Endpoint, now: U64)
    ensures var r := RetireEndpoint(s, e, now);
            && (Granted(r) <==>
                  && s.decision.None? && e.host in s.endpoints && s.endpoints[e.host].endpoint == e
                  && s.endpoints[e.host].state != Connected
                  && (forall k | k in s.ledger.held :: k.endpoint != e)
                  && (forall x | x in s.ledger.cleanup :: x.key.endpoint != e))
            && (Granted(r) ==>
                  && r.core.endpoints == s.endpoints - {e.host} && r.core.peers == s.peers[e.host := Disconnected]
                  && !r.core.ready && !r.core.handoff && r.core.ledger == s.ledger
                  && r.core.view
                    == (if s.view.activeHost == e.host then s.view.(activeHost := s.view.localHost) else s.view))
            && (!Granted(r) ==> r.core == s)
  {
    hide RoutingActive, Mirrors, Publish;
  }

  /** A lost session takes everything held and owed there with it; if it was in use, its host is gone too, and control
      and readiness with it. */
  lemma {:induction false} LosesExactly(s: Core, e: Endpoint, now: U64)
    ensures var t := TransportInvalidated(s, e, now);
            && (forall k :: k in t.ledger.held <==> k in s.ledger.held && k.endpoint != e)
            && (forall x :: x in t.ledger.cleanup <==> x in s.ledger.cleanup && x.key.endpoint != e)
            && (t.ledger.inFlight == (if s.ledger.cleanup != [] && s.ledger.inFlight == Some(s.ledger.cleanup[0].id)
                                         && s.ledger.cleanup[0].key.endpoint == e then None else s.ledger.inFlight))
            && t.ledger.latches.Keys == s.ledger.latches.Keys
            && (forall c | c in s.ledger.latches ::
                  if s.ledger.latches[c].ToRemote? && s.ledger.latches[c].endpoint == e
                  then t.ledger.latches[c] == Quarantined else t.ledger.latches[c] == s.ledger.latches[c])
            && (if e.host in s.endpoints && s.endpoints[e.host].endpoint == e then
                  && t.endpoints == s.endpoints - {e.host}
                  && (e.host in s.peers ==> t.peers == s.peers[e.host := Disconnected])
                  && !t.ready && !t.handoff
                  && t.view == (if s.view.activeHost == e.host then s.view.(activeHost := s.view.localHost) else s.view)
                else t == s.(ledger := t.ledger, published := t.published))
  {
    WithoutKeeps(s.ledger.cleanup, e);
    hide RoutingActive, Mirrors, Publish, Without;
  }

  /** A state reported before admission is noted for a known peer without a session, and refused with one. */
  lemma {:induction false} PeerStateExactly(s: Core, h: HostId, state: PeerState, now: U64)
    requires s.decision.None?
    ensures var r := SetPeerState(s, h, state, now);
            && (Granted(r) <==> h !in s.peers || h !in s.endpoints)
            && r.core == (if h in s.peers
                          && h !in s.endpoints then s.(peers := s.peers[h := state], published := r.core.published)
                          else s)
  {
    hide RoutingActive, Mirrors, Publish;
  }

  // ---------------------------------------------------------------- devices

  /** Devices are gated as long as there are no more than 1024 of them and none is nil, and what they hold is owed its
      release; a device is restored exactly once nothing of it is held or owed. */
  lemma {:induction false} GatesExactly(s: Core, devices: set<DeviceId>, now: U64)
    requires s.decision.None?
    ensures var r := GateDevices(s, devices, now);
            var theirs := set k | k in s.ledger.held && k.device in devices;
            if NIL !in devices && |s.gated + devices| <= 1024 then
              && Owes(s.ledger, r.core.ledger, theirs) && (Granted(r) <==> CanOwe(s.ledger, theirs))
              && r.core == s.(gated := s.gated + devices, ledger := r.core.ledger, published := r.core.published)
            else !Granted(r) && r.core == s
  {
    hide Queue, RoutingActive, Mirrors, Publish;
    QueueOwes(s.ledger, HeldBy(s.ledger, devices));
    hide Owes, CanOwe;
  }

  lemma {:induction false} RestoresExactly(s: Core, d: DeviceId, now: U64)
    ensures var r := RestoreDevice(s, d, now);
            && (Granted(r) <==>
                  (forall k | k in s.ledger.held :: k.device != d)
                    && (forall x | x in s.ledger.cleanup :: x.key.device != d))
            && (Granted(r) ==>
                  && r.core.gated == s.gated - {d} && r.core.ledger == s.ledger.(latches := r.core.ledger.latches)
                  && (forall c :: c in r.core.ledger.latches <==> c in s.ledger.latches && c.device != d)
                  && (forall c | c in r.core.ledger.latches :: r.core.ledger.latches[c] == s.ledger.latches[c]))
            && r.core == (if Granted(r) then s.(gated := r.core.gated, ledger := r.core.ledger,
                                                published := r.core.published) else s)
  {
    hide RoutingActive, Mirrors, Publish;
  }

  // ---------------------------------------------------------------- view and handoff

  /** Held controls that follow the active host. */
  ghost function Followers(l: Ledger): set<HeldKey> {
    set k | k in l.held && l.held[k].route == FollowActiveHost
  }

  predicate Presentable(s: Core, v: H.View) {
    v.localHost == s.view.localHost && v.activeDisplay == v.pointer.display
  }

  /** A view is adopted exactly if it is this host's, consistent, and either keeps the active host or finds nothing owed
      and nothing following; a change of host otherwise owes the followers their release and waits. */
  lemma {:induction false} ViewExactly(s: Core, v: H.View, now: U64)
    requires s.decision.None?
    ensures var r := UpdateWorkspace(s, v, now);
            && (r.error.None? <==>
                  && s.candidate.None? && Presentable(s, v)
                  && (v.activeHost == s.view.activeHost || (Settled(s.ledger) && Followers(s.ledger) == {})))
            && (r.error.None? ==> r.core.view == v && r.core.ledger == s.ledger)
            && (r.error.Some? ==> r.core.view == s.view)
            && (r.error.Some? && s.candidate.None? && Presentable(s, v) ==>
                 Owes(s.ledger, r.core.ledger, Followers(s.ledger)))
            && r.core == s.(view := r.core.view, ledger := r.core.ledger, published := r.core.published)
  {
    hide Queue, RoutingActive, Mirrors, Publish, FollowingHeld, Owes, Followers, Pending, Settled;
    FollowersRead(s.ledger);
    BarrierThrough(s.ledger, FollowingHeld(s.ledger));
  }

  lemma {:induction false} FollowersRead(l: Ledger)
    ensures FollowingHeld(l) == Followers(l) && Followers(l) <= l.held.Keys
  {
  }

  /** A handoff raises its gate and owes the followers their release, unless a candidate is retained; cancelling it
      also takes control back, giving up the barrier does not. */
  lemma {:induction false} HandoffExactly(s: Core, now: U64)
    requires s.decision.None?
    ensures var r := BeginHandoff(s, now);
            if s.candidate.Some? then !Granted(r) && r.core == s
            else
              && Owes(s.ledger, r.core.ledger, Followers(s.ledger))
              && (Granted(r) <==> CanOwe(s.ledger, Followers(s.ledger)))
              && r.core == s.(handoff := true, ledger := r.core.ledger, published := r.core.published)
    ensures CancelHandoff(s, now) == s.(view := s.view.(activeHost := s.view.localHost), handoff := false,
                                        published := CancelHandoff(s, now).published)
    ensures AbortBarrier(s, now) == s.(handoff := false, published := AbortBarrier(s, now).published)
  {
    hide Queue, RoutingActive, Mirrors, Publish, FollowingHeld, Owes, CanOwe, Followers;
    FollowersRead(s.ledger);
    QueueOwes(s.ledger, FollowingHeld(s.ledger));
  }

  /** A handoff is finished exactly with nothing owed at all, by a view that could be adopted; that lowers the gate. */
  lemma {:induction false} FinishExactly(s: Core, v: H.View, now: U64)
    requires s.decision.None?
    ensures var r := FinishHandoff(s, v, now);
            && (r.error.None? <==>
                  && s.candidate.None? && Settled(s.ledger) && Presentable(s, v)
                  && (v.activeHost == s.view.activeHost || Followers(s.ledger) == {}))
            && (r.error.None? ==> r.core.view == v && !r.core.handoff)
            && (r.error.Some? ==> r.core.view == s.view && r.core.handoff == s.handoff)
  {
    hide RoutingActive, Mirrors, Publish, UpdateWorkspace, Owes, Followers;
    ViewExactly(s, v, now);
  }

  // ---------------------------------------------------------------- configuration

  /** Held controls on sessions the configuration does not pair. */
  ghost function Unpaired(l: Ledger, c: Config): set<HeldKey> {
    set k | k in l.held && Paired(k.endpoint.host, k.endpoint.peer) !in c.paired
  }

  /** A configuration with the same routes and revision takes effect exactly if it is valid, nothing is owed, no
      candidate
      is retained, and nothing is held on a session it does not pair; what is, is otherwise owed its release. */
  lemma {:induction false} ConfigExactly(s: Core, c: Config, now: U64)
    requires s.decision.None? && c.routes == s.config.routes && c.revision == s.revision
    ensures var r := UpdateConfig(s, c, now);
            && (r.error.None? <==>
                  && s.candidate.None? && ValidConfig(c) && Settled(s.ledger) && Unpaired(s.ledger, c) == {})
            && (r.error.None? ==> r.core.config == c && r.core.ledger == s.ledger)
            && (r.error.Some? ==>
                  && r.core == s.(ledger := r.core.ledger, published := r.core.published)
                  && if s.candidate.None? && ValidConfig(c)
                  && Settled(s.ledger) then Owes(s.ledger, r.core.ledger, Unpaired(s.ledger, c))
                     else r.core == s)
  {
    hide Queue, RoutingActive, Mirrors, Publish, HeldUnpaired, ValidConfig, Compile, Adopt, ReplaceRoutes, Owes,
         Unpaired, Pending, Settled;
    UnpairedRead(s.ledger, c);
    BarrierThrough(s.ledger, HeldUnpaired(s.ledger, c));
    SettledRead(s.ledger);
    if ValidConfig(c) { ValidCompiles(c); }
  }

  lemma {:induction false} SettledRead(l: Ledger)
    ensures Settled(l) <==> !Pending(l)
  {
  }

  /** A configuration with other routes takes effect at once exactly if it changes nothing else, could be staged, and
      displaces nothing. */
  lemma {:induction false} RoutesAtOnce(s: Core, c: Config, now: U64)
    requires s.decision.None? && Policied(s) && Abroad(s) && s.candidate.None?
    requires !(c.routes == s.config.routes && c.revision == s.revision)
    ensures var r := UpdateConfig(s, c, now);
            && (r.error.None? <==>
                  && !s.handoff && s.revision < U64_MAX && Settled(s.ledger) && ValidConfig(Next(s, c))
                  && c == s.config.(routes := c.routes, revision := c.revision) && Displaced(s, c.routes) == {})
            && (r.error.None? ==> r.core.config == Next(s, c) && r.core.revision == s.revision + 1)
            && (r.error.Some? ==> r.core.config == s.config && r.core.revision == s.revision)
  {
    hide PrepareRoutes, CommitRoutes, ReplaceConfig, StagedRoutes, Displaced, Policied, Abroad, ValidConfig, Owed,
         Settled, RetryRoutes, Placed, Policy;
    StagesExactly(s, c, s.revision, now);
    var p := PrepareRoutes(s, c, s.revision, now);
    if Displaced(s, c.routes) == {} { assert |Displaced(s, c.routes)| == 0; }
    PrepareFrame(s, c, now);
    if p.PolicyDone? {
      StagedAbroad(s, c, now);
      RetriesExactly(p.core, now);
      SameDisplaced(s, p.core, c.routes);
      StagedIsRetained(p.core);
      CommitPlaces(p.core, s.revision + 1, now);
    }
  }

  lemma {:induction false} StagedIsRetained(s: Core)
    ensures StagedRoutes(s).Some? ==> StagedRoutes(s) == s.candidate
  {
    hide PolicyProgress;
  }

  lemma {:induction false} SameDisplaced(s: Core, t: Core, routes: seq<DeviceRoute>)
    requires t.config == s.config && t.ledger.held == s.ledger.held && t.view == s.view && t.endpoints == s.endpoints
    ensures Displaced(t, routes) == Displaced(s, routes)
  {
    hide Policy;
  }

  lemma {:induction false} StagedAbroad(s: Core, c: Config, now: U64)
    requires s.decision.None? && Policied(s) && Abroad(s) && s.candidate.None?
    ensures var t := PrepareRoutes(s, c, s.revision, now).core;
            && Abroad(t) && Policied(t) && t.decision.None? && t.view == s.view && t.endpoints == s.endpoints
            && t.revision == s.revision
            && (t.candidate.Some? ==> t.candidate.value.revision == s.revision + 1)
  {
    hide ValidConfig, Compile, Affected, RoutingActive, Mirrors, Policy, Relabel;
    PrepareTransacts(s, c, s.revision, now);
    var picked := PrepareMoves(s, c, s.revision, now);
    QueueSpreads(s.ledger, picked);
    PrepareFrame(s, c, now);
    hide PrepareRoutes, Queue;
  }

  lemma {:induction false} PrepareFrame(s: Core, c: Config, now: U64)
    ensures var r := PrepareRoutes(s, c, s.revision, now);
            && r.core.view == s.view && r.core.endpoints == s.endpoints
            && (s.candidate.None? && r.PolicyDone? && r.value == ReadyToPersist ==> Settled(r.core.ledger))
  {
    hide Queue, Misrouted, ValidConfig, Compile, Affected, RoutingActive, Mirrors, Publish;
  }

  lemma {:induction false} UnpairedRead(l: Ledger, c: Config)
    ensures HeldUnpaired(l, c) == Unpaired(l, c) && Unpaired(l, c) <= l.held.Keys
  {
  }
}
