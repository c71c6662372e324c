/** Changing the policy: what it displaces is released first, and what stays held is where the new policy wants it. */
module DaemonReroute {
  import opened Base
  import opened Ledger
  import opened Daemon
  import opened LedgerLemmas
  import opened DaemonRuns
  import opened DaemonLedger
  import opened DaemonControl
  import opened DaemonPolicy
  import opened DaemonRouting
  import H = Handoff

  // ---------------------------------------------------------------- nothing is held on this host itself

  /** Sessions are filed under their own host, and neither holds nor open lifecycles are with this host. */
  ghost predicate Abroad(s: Core) {
    && Filed(s.endpoints)
    && (forall k | k in s.ledger.held :: k.endpoint.host != s.view.localHost)
    && (forall c | c in s.ledger.latches && s.ledger.latches[c].ToRemote? ::
          s.ledger.latches[c].endpoint.host != s.view.localHost)
  }

  lemma {:induction false} RemoteAbroad(p: Core, e: Event, touch: Option<Touch>, previous: Option<Latch>, now: U64)
    requires forall h | h in p.endpoints :: p.endpoints[h].endpoint.host == h
    requires previous.Some? && previous.value.ToRemote? ==> previous.value.endpoint.host != p.view.localHost
    ensures var r := Decide(p, e, touch, previous, now);
            r.result.Ok? && r.result.value.DecidedRemote? ==> r.result.value.effect.endpoint.host != p.view.localHost
  {
    hide FailClosed, ActivateFailsafe, FailsafeMatches, AnyFailsafeKey, RouteFor, DeviceGated, RoutingActive;
  }

  lemma {:induction false} CapturedAbroad(s: Core, e: Event, now: U64)
    requires Abroad(s)
    ensures var r := PrepareCaptured(s, e, now);
            r.result.Ok? && r.result.value.DecidedRemote? ==> r.result.value.effect.endpoint.host != s.view.localHost
  {
    hide Decide, TouchOf, HasPhysicalRoom, FailClosed, Eligible;
    var touch := TouchOf(e.payload);
    if touch.None? {
      RemoteAbroad(s, e, touch, None, now);
    } else {
      var slot := Slot(e.device, touch.value.control);
      RemoteAbroad(s.(ledger := Register(s.ledger, slot, touch.value.transition)), e, touch, LatchAt(s.ledger, slot),
                   now);
    }
  }

  /** Lifecycles with peers, and holds there, only grow by what `key` says. */
  ghost predicate Spreads(l: Ledger, m: Ledger, key: Option<HeldKey>) {
    && (forall k | k in m.held :: k in l.held || key == Some(k))
    && (forall c | c in m.latches && m.latches[c].ToRemote? ::
          || (c in l.latches && l.latches[c].ToRemote? && l.latches[c].endpoint == m.latches[c].endpoint)
          || (key.Some? && m.latches[c].endpoint == key.value.endpoint))
  }

  lemma {:induction false} CaptureSpreads(l: Ledger, e: Event, accepted: Option<U64>, c: Case, m: Ledger)
    requires Leaves(l, e, accepted, c, m)
    ensures Spreads(l, m, if c.Holds? then Some(c.key) else None)
  {
    hide Queue, TouchOf, Missing, Spreads, Noted;
    var n := Noted(l, e);
    NotedSpreads(l, e);
    match c {
      case Refuses => QueueSpreads(l, l.held.Keys);
      case Closes(burned) =>
        var b := if burned then Burn(n) else n;
        SameSpreads(n, b);
        QueueSpreads(b, l.held.Keys);
        SpreadsOn(l, n, m);
      case Holds(key, route, _) => HoldSpreads(l, n, key, route, m);
      case _ => FewerSpreads(l, n, m);
    }
  }

  lemma {:induction false} NotedSpreads(l: Ledger, e: Event)
    ensures Spreads(l, Noted(l, e), None) && Noted(l, e).held == l.held && Spreads(l, l, None)
  {
    hide TouchOf;
  }

  lemma {:induction false} SameSpreads(n: Ledger, b: Ledger)
    requires b.latches == n.latches && b.held == n.held
    ensures forall m :: Spreads(b, m, None) ==> Spreads(n, m, None)
  {
  }

  lemma {:induction false} SpreadsOn(l: Ledger, n: Ledger, m: Ledger)
    requires Spreads(l, n, None) && Spreads(n, m, None)
    ensures Spreads(l, m, None)
  {
  }

  lemma {:induction false} HoldSpreads(l: Ledger, n: Ledger, key: HeldKey, route: Route, m: Ledger)
    requires Spreads(l, n, None) && n.held == l.held && m.held.Keys == l.held.Keys + {key}
    requires m.latches == n.latches[SlotOf(key) := ToRemote(key.endpoint, route)]
    ensures Spreads(l, m, Some(key))
  {
  }

  lemma {:induction false} FewerSpreads(l: Ledger, n: Ledger, m: Ledger)
    requires Spreads(l, n, None) && Spreads(l, l, None) && m.held.Keys <= l.held.Keys
    requires forall c | c in m.latches && m.latches[c].ToRemote? ::
               (c in n.latches && n.latches[c] == m.latches[c]) || (c in l.latches && l.latches[c] == m.latches[c])
    ensures Spreads(l, m, None)
  {
  }

  lemma {:induction false} QueueSpreads(l: Ledger, picked: set<HeldKey>)
    ensures Spreads(l, Queue(l, picked).ledger, None) && Queue(l, picked).ledger.held == l.held
  {
    var added := QueueEffect(l, picked);
    hide Queue;
  }

  lemma {:induction false} MoveSpreads(l: Ledger, m: Move, n: Ledger)
    requires Moves(l, m, n)
    ensures Spreads(l, n, None)
  {
    if m.Queueing? || m.Relabelling? { QueueSpreads(l, m.picked); }
    hide Queue, Without;
  }

  ghost predicate Filed(endpoints: map<HostId, Availability>) {
    forall h | h in endpoints :: endpoints[h].endpoint.host == h
  }

  lemma {:induction false} InstallFiled(s: Core, e: Endpoint, now: U64)
    requires Filed(s.endpoints)
    ensures Filed(InstallEndpoint(s, e, now).core.endpoints)
  {
    hide RoutingActive, Mirrors, PairsEndpoint;
  }

  lemma {:induction false} StateFiled(s: Core, e: Endpoint, state: PeerState, now: U64)
    requires Filed(s.endpoints)
    ensures Filed(SetEndpointState(s, e, state, now).core.endpoints)
  {
    hide Queue, RoutingActive, Mirrors, HeldOn;
  }

  lemma {:induction false} RetireFiled(s: Core, e: Endpoint, now: U64)
    requires Filed(s.endpoints)
    ensures Filed(RetireEndpoint(s, e, now).core.endpoints)
  {
    hide RoutingActive, Mirrors, HasObligations;
  }

  lemma {:induction false} LostFiled(s: Core, e: Endpoint, now: U64)
    requires Filed(s.endpoints)
    ensures Filed(TransportInvalidated(s, e, now).endpoints)
  {
    hide RoutingActive, Mirrors, Invalidate;
  }

  lemma {:induction false} SessionsFiled(s: Core, op: Op, now: U64)
    requires s.decision.None? && !op.Captured? && Filed(s.endpoints)
    ensures Filed(Apply(s, op, now).endpoints)
  {
    hide Filed, Tick, UpdateConfig, PrepareRoutes, RetryRoutes, CommitRoutes, AbortRoutes, GateDevices, RestoreDevice,
         UpdateWorkspace, BeginHandoff, CancelHandoff, AbortBarrier, FinishHandoff, SetPeerState, InstallEndpoint,
         SetEndpointState, RetireEndpoint, Enable, Disable, Emergency, Shutdown, ClearReady, MarkReady, TakeCleanup,
         ConfirmCleanup, RetryCleanup, TransportInvalidated, Capture;
    match op {
      case EndpointInstalled(e) => InstallFiled(s, e, now);
      case EndpointStateSet(e, state) => StateFiled(s, e, state, now);
      case EndpointRetired(e) => RetireFiled(s, e, now);
      case TransportLost(e) => LostFiled(s, e, now);
      case _ =>
        OpSteers(s, op, now);
        hide Apply;
    }
  }

  /** In every run, nothing is ever held on this host itself. */
  lemma {:induction false} HeldAbroad(config: Config, v: H.View, s: Core, steps: seq<Step>)
    requires Start(config, v) == Some(s)
    ensures Abroad(Execute(s, steps)) && Execute(s, steps).decision.None?
    decreases |steps|
  {
    hide Apply, Start, Abroad;
    if steps == [] {
      StartsEmpty(config, v, s);
      StartsAbroad(config, v, s);
    } else {
      var n := |steps| - 1;
      HeldAbroad(config, v, s, steps[..n]);
      StepAbroad(Execute(s, steps[..n]), steps[n].op, steps[n].now);
    }
  }

  lemma {:induction false} StartsAbroad(config: Config, v: H.View, s: Core)
    requires Start(config, v) == Some(s)
    ensures Abroad(s)
  {
    hide ValidConfig, Compile, PeersFor;
  }

  lemma {:induction false} StepAbroad(s: Core, op: Op, now: U64)
    requires s.decision.None? && Abroad(s)
    ensures Abroad(Apply(s, op, now)) && Apply(s, op, now).decision.None?
  {
    hide Apply, Leaves, Moves, Capture, PrepareCaptured, Justified, Drains, Told;
    var t := Apply(s, op, now);
    if op.Captured? {
      ApplyCapture(s, op, now);
      var c := CaptureCase(s, op.event, op.accepted, now);
      CaptureSpreads(s.ledger, op.event, op.accepted, c, t.ledger);
      CapturedAbroad(s, op.event, now);
    } else {
      var m := OpMoves(s, op, now);
      MoveSpreads(s.ledger, m, t.ledger);
      SessionsFiled(s, op, now);
      OpSteers(s, op, now);
    }
  }

  // ---------------------------------------------------------------- what a policy displaces

  /** The control is held where the policy wants it: at the session of the host it names. */
  ghost predicate Placed(s: Core, routes: seq<DeviceRoute>, k: HeldKey) {
    && k.endpoint.host in s.endpoints && s.endpoints[k.endpoint.host].endpoint == k.endpoint
    && k.endpoint.host != s.view.localHost
    && match Policy(routes, k.device)
       case LocalOnly => false
       case FollowActiveHost => k.endpoint.host == s.view.activeHost
       case ToHost(h) => k.endpoint.host == h
  }

  /** Held controls of devices the new policy routes differently that it does not want where they are. */
  ghost function Displaced(s: Core, next: seq<DeviceRoute>): set<HeldKey> {
    set k | k in s.ledger.held && Policy(next, k.device) != Policy(s.config.routes, k.device) && !Placed(s, next, k)
  }

  ghost predicate Settled(l: Ledger) {
    l.cleanup == [] && l.inFlight.None?
  }

  lemma {:induction false} MisroutedDisplaced(s: Core)
    requires Policied(s) && Abroad(s) && s.candidate.Some?
    ensures Misrouted(s, s.candidate.value) == Displaced(s, s.candidate.value.config.routes)
  {
    hide ValidConfig, Compile, Affected;
    var c := s.candidate.value;
    forall k | k in s.ledger.held
      ensures k in Misrouted(s, c) <==> k in Displaced(s, c.config.routes)
    {
      AffectedExactly(s, k.device);
      PolicyCompiled(s.config.routes, s.table, k.device);
      PolicyCompiled(c.config.routes, c.table, k.device);
      hide RouteFor, Policy;
    }
  }

  lemma {:induction false} OwesPicked(l: Ledger, picked: set<HeldKey>)
    requires picked <= l.held.Keys
    ensures var q := Queue(l, picked);
            && (q.error.None? <==>
                  |l.cleanup| + |picked - Owed(l.cleanup)| <= 1024 && l.nextId + |picked - Owed(l.cleanup)| <= U64_MAX)
            && (q.error.None? ==> Owed(q.ledger.cleanup) == Owed(l.cleanup) + picked && q.ledger.inFlight == l.inFlight)
            && q.ledger.held == l.held && (q.error.Some? ==> q.ledger == l)
            && (q.error.None? ==> (q.ledger.cleanup == [] <==> l.cleanup == [] && picked == {}))
  {
    hide Queue, Unowed, Owed, Queues;
    var added := QueueEffect(l, picked);
    FitsExactly(l, picked);
    if Queue(l, picked).error.None? {
      OwedAppend(l.cleanup, added);
      AddedKeys(l, picked, Queue(l, picked).ledger, added);
    }
  }

  lemma {:induction false} FitsExactly(l: Ledger, picked: set<HeldKey>)
    requires picked <= l.held.Keys
    ensures Unowed(l, picked) == picked - Owed(l.cleanup)
    ensures Queue(l, picked).error.None? <==>
              |l.cleanup| + |Unowed(l, picked)| <= 1024 && l.nextId + |Unowed(l, picked)| <= U64_MAX
  {
    hide Ordered, Obligations, Quarantine, Owed;
    OrderedVisits(Unowed(l, picked));
  }

  lemma {:induction false} AddedKeys(l: Ledger, picked: set<HeldKey>, m: Ledger, added: seq<Entry>)
    requires Queues(l, picked, m, added)
    ensures Owed(added) == Unowed(l, picked) && |added| == |Unowed(l, picked)|
    ensures m.cleanup == l.cleanup + added && m.held == l.held && m.inFlight == l.inFlight
  {
    hide Unowed, Quarantine;
  }

  /** The proposal as the next revision. */
  function Next(s: Core, proposed: Config): Config {
    if s.revision < U64_MAX then proposed.(revision := s.revision + 1) else proposed
  }

  /** A proposal is staged exactly if it is for the revision in force, changes only routes, is valid, nothing is owed or
      being handed off, and releases for all it displaces can be owed;
        then exactly those are owed, and it is ready to be
      saved exactly if there are none. */
  lemma {:induction false} StagesExactly(s: Core, proposed: Config, expected: U64, now: U64)
    requires s.decision.None? && Policied(s) && Abroad(s) && s.candidate.None?
    ensures var r := PrepareRoutes(s, proposed, expected, now);
            var displaced := Displaced(s, proposed.routes);
            && (r.PolicyDone? <==>
                  && !s.handoff && expected == s.revision && s.revision < U64_MAX && Settled(s.ledger)
                  && ValidConfig(Next(s, proposed))
                  && proposed == s.config.(routes := proposed.routes, revision := proposed.revision)
                  && |displaced| <= 1024 && s.ledger.nextId + |displaced| <= U64_MAX)
            && (r.PolicyDone? ==>
                  && r.core.candidate.Some? && r.core.candidate.value.config == Next(s, proposed)
                  && r.core.config == s.config
                  && r.core.ledger.held == s.ledger.held && Owed(r.core.ledger.cleanup) == displaced
                  && (r.value == ReadyToPersist <==> displaced == {}))
            && (r.PolicyFailed? ==> r.core == s)
  {
    if s.revision < U64_MAX && ValidConfig(Next(s, proposed)) {
      ValidCompiles(Next(s, proposed));
      StagesValid(s, proposed, expected, now);
    } else {
      hide Queue, Misrouted, Displaced, Compile, ValidConfig, Affected, Owed, RoutingActive, Policied, Abroad;
    }
  }

  lemma {:induction false} StagesValid(s: Core, proposed: Config, expected: U64, now: U64)
    requires s.decision.None? && Policied(s) && Abroad(s) && s.candidate.None? && s.revision < U64_MAX
    requires ValidConfig(Next(s, proposed)) && Compile(proposed.routes).Some?
    ensures var r := PrepareRoutes(s, proposed, expected, now);
            var displaced := Displaced(s, proposed.routes);
            && (r.PolicyDone? <==>
                  && !s.handoff && expected == s.revision && Settled(s.ledger)
                  && proposed == s.config.(routes := proposed.routes, revision := proposed.revision)
                  && |displaced| <= 1024 && s.ledger.nextId + |displaced| <= U64_MAX)
            && (r.PolicyDone? ==>
                  && r.core.candidate.Some? && r.core.candidate.value.config == Next(s, proposed)
                  && r.core.config == s.config
                  && r.core.ledger.held == s.ledger.held && Owed(r.core.ledger.cleanup) == displaced
                  && (r.value == ReadyToPersist <==> displaced == {}))
            && (r.PolicyFailed? ==> r.core == s)
  {
    hide Queue, Misrouted, Displaced, Compile, ValidConfig, Affected, Owed, RoutingActive, Policied, Abroad, Mirrors;
    var table := Compile(proposed.routes).value;
    var c := Candidate(s.revision + 1, Next(s, proposed), table, Affected(s.config, Next(s, proposed), s.table, table));
    if !s.handoff && proposed == s.config.(routes := proposed.routes, revision := proposed.revision) {
      WouldDisplace(s, proposed, c);
      OwesPicked(s.ledger, Displaced(s, proposed.routes));
      NothingOwedYet(s.ledger);
      MisroutedSame(s, c);
    }
  }

  lemma {:induction false} WouldDisplace(s: Core, proposed: Config, c: Candidate)
    requires Policied(s) && Abroad(s) && s.candidate.None? && s.revision < U64_MAX && !s.handoff
    requires ValidConfig(Next(s, proposed))
             && proposed == s.config.(routes := proposed.routes, revision := proposed.revision)
    requires c.config == Next(s, proposed) && c.revision == s.revision + 1 && Compile(proposed.routes) == Some(c.table)
    requires c.affected == Affected(s.config, c.config, s.table, c.table)
    ensures Misrouted(s, c) == Displaced(s, proposed.routes) && Misrouted(s, c) <= s.ledger.held.Keys
  {
    hide ValidConfig, Compile, Affected;
    var u := s.(candidate := Some(c));
    StagedPolicied(s, c);
    MisroutedDisplaced(u);
    hide Policied, Policy, ResolvesTo, RouteFor;
    assert Misrouted(s, c) == Misrouted(u, c) && Displaced(u, proposed.routes) == Displaced(s, proposed.routes);
  }

  lemma {:induction false} NothingOwedYet(l: Ledger)
    ensures l.cleanup == [] ==> Owed(l.cleanup) == {}
  {
  }

  lemma {:induction false} StagedPolicied(s: Core, c: Candidate)
    requires Policied(s) && Staged(s, c) && !s.handoff
    ensures Policied(s.(candidate := Some(c)))
  {
    hide ValidConfig, Compile, Affected;
  }

  lemma {:induction false} MisroutedSame(s: Core, c: Candidate)
    ensures forall t: Core | t == s.(ledger := t.ledger, candidate := t.candidate, published := t.published)
               && t.ledger.held == s.ledger.held :: Misrouted(t, c) == Misrouted(s, c)
  {
    hide ResolvesTo, RouteFor;
  }

  /** While a candidate is retained only it is answered to, for the revision in force: with its progress, and no other
      effect. */
  lemma {:induction false} RestagesExactly(s: Core, proposed: Config, expected: U64, now: U64)
    requires s.decision.None? && Policied(s) && Abroad(s) && s.candidate.Some?
    ensures var r := PrepareRoutes(s, proposed, expected, now);
            && (r.PolicyDone? <==>
                  expected == s.revision && proposed == s.candidate.value.config.(revision := proposed.revision))
            && r.core == s
            && (r.PolicyDone? ==>
                  (r.value == ReadyToPersist <==>
                     Displaced(s, s.candidate.value.config.routes) == {} && Settled(s.ledger)))
  {
    hide ValidConfig, Compile, Misrouted, Displaced, PolicyProgress, Affected;
    MisroutedDisplaced(s);
    ProgressRead(s, s.candidate.value);
  }

  /** Another attempt owes a release for whatever is displaced by now, and reports ready exactly if nothing is displaced
      and nothing owed at all. */
  lemma {:induction false} RetriesExactly(s: Core, now: U64)
    requires s.decision.None? && Policied(s) && Abroad(s) && s.candidate.Some?
    ensures var r := RetryRoutes(s, now);
            var displaced := Displaced(s, s.candidate.value.config.routes);
            var added := |displaced - Owed(s.ledger.cleanup)|;
            && (r.PolicyDone? <==> |s.ledger.cleanup| + added <= 1024 && s.ledger.nextId + added <= U64_MAX)
            && (r.PolicyDone? ==>
                  && Owed(r.core.ledger.cleanup) == Owed(s.ledger.cleanup) + displaced
                  && r.core.ledger.held == s.ledger.held
                  && r.core.candidate == s.candidate
                  && (r.value == ReadyToPersist <==> displaced == {} && Settled(s.ledger))
                  && (r.value == ReadyToPersist ==> Settled(r.core.ledger)))
            && (r.PolicyFailed? ==> r.core == s)
            && (StagedRoutes(s).Some? <==> displaced == {} && Settled(s.ledger))
  {
    hide Queue, Misrouted, Displaced, Owed, RoutingActive, Policied, Abroad, Mirrors, Publish, PolicyProgress;
    var c := s.candidate.value;
    MisroutedDisplaced(s);
    DisplacedHeld(s, c.config.routes);
    OwesPicked(s.ledger, Misrouted(s, c));
    MisroutedSame(s, c);
    ProgressRead(s, c);
    ProgressRead(RetryRoutes(s, now).core, c);
  }

  lemma {:induction false} DisplacedHeld(s: Core, routes: seq<DeviceRoute>)
    ensures Displaced(s, routes) <= s.ledger.held.Keys
  {
    hide Policy, Placed;
  }

  lemma {:induction false} ProgressRead(s: Core, c: Candidate)
    ensures PolicyProgress(s, c) == ReadyToPersist <==> Settled(s.ledger) && Misrouted(s, c) == {}
  {
    hide Misrouted;
  }

  /** A candidate is committed exactly if it is the retained one, displaces nothing and nothing is owed. Afterwards it
      is
      the policy, the same controls are held, and each whose device it routes differently is where it wants it. */
  lemma {:induction false} CommitPlaces(s: Core, revision: U64, now: U64)
    requires s.decision.None? && Policied(s) && Abroad(s)
    ensures var r := CommitRoutes(s, revision, now);
            && (r.PolicyDone? <==>
                  && s.candidate.Some? && s.candidate.value.revision == revision && Settled(s.ledger)
                  && Displaced(s, s.candidate.value.config.routes) == {})
            && (r.PolicyDone? ==>
                  && r.core.config == s.candidate.value.config && r.core.candidate.None? && r.core.revision == revision
                  && r.core.ledger.held.Keys == s.ledger.held.Keys
                  && forall k | k in r.core.ledger.held ::
                       || Policy(r.core.config.routes, k.device) == Policy(s.config.routes, k.device)
                       || Placed(r.core, r.core.config.routes, k))
            && (r.PolicyFailed? ==> r.core == s)
  {
    if s.candidate.Some? {
      MisroutedDisplaced(s);
      var r := CommitRoutes(s, revision, now);
      if r.PolicyDone? {
        forall k | k in r.core.ledger.held
                   && Policy(r.core.config.routes, k.device) != Policy(s.config.routes, k.device)
          ensures Placed(r.core, r.core.config.routes, k)
        {
          assert k !in Displaced(s, s.candidate.value.config.routes);
          hide Policy;
        }
      }
      hide Misrouted, Displaced, Policied, Abroad, RoutingActive, Mirrors, Placed;
    }
  }

  /** Giving a candidate up drops it and nothing else. */
  lemma {:induction false} AbortsExactly(s: Core, revision: U64, now: U64)
    ensures var r := AbortRoutes(s, revision, now);
            && (r.PolicyDone? <==> s.candidate.Some? && s.candidate.value.revision == revision)
            && r.core == (if r.PolicyDone? then s.(candidate := None, published := r.core.published) else s)
  {
    hide RoutingActive, Mirrors;
  }
}
