/** The route policy as a transaction: one candidate at a time, one revision per commit, one table per policy. */
module DaemonPolicy {
  import opened Base
  import opened Ledger
  import opened Daemon
  import opened LedgerLemmas
  import opened DaemonRuns
  import opened DaemonLedger
  import opened DaemonControl
  import H = Handoff

  // ---------------------------------------------------------------- compilation

  /** A route list compiles exactly when its entries are well formed, distinct and few enough. */
  ghost predicate Compilable(routes: seq<DeviceRoute>) {
    && |routes| <= MAX_DEVICE_ROUTES
    && (forall r | r in routes :: ValidEntry(r))
    && (forall i, j | 0 <= i < j < |routes| :: routes[i].device != routes[j].device)
  }

  /** The table says of every device what its entry says, and nothing of any other. */
  ghost predicate Tabulates(routes: seq<DeviceRoute>, t: Table) {
    && |t| == |routes|
    && (forall r | r in routes :: r.device in t && t[r.device] == r.route)
    && (forall d | d in t :: exists r | r in routes :: r.device == d)
  }

  lemma {:induction false} CompilableSnoc(init: seq<DeviceRoute>, last: DeviceRoute)
    ensures Compilable(init + [last]) <==>
              Compilable(init) && |init| < MAX_DEVICE_ROUTES && ValidEntry(last)
                && forall r | r in init :: r.device != last.device
  {
    hide ValidEntry;
    var all := init + [last];
    assert forall r :: r in all <==> r in init || r == last;
    if Compilable(all) {
      assert forall i | 0 <= i < |init| :: all[i] == init[i];
      forall r | r in init ensures r.device != last.device {
        var i :| 0 <= i < |init| && init[i] == r;
        assert all[i] == r && all[|init|] == last;
      }
    }
  }

  lemma {:induction false} TabulatesSnoc(init: seq<DeviceRoute>, last: DeviceRoute, t: Table)
    requires Tabulates(init, t)
    ensures last.device in t <==> exists r | r in init :: r.device == last.device
    ensures last.device !in t ==> Tabulates(init + [last], t[last.device := last.route])
  {
    var all := init + [last];
    assert forall r :: r in all <==> r in init || r == last;
    if last.device !in t {
      var u := t[last.device := last.route];
      forall d | d in u ensures exists r | r in all :: r.device == d {
        if d == last.device { assert last in all; } else { var r :| r in init && r.device == d; assert r in all; }
      }
    }
  }

  lemma {:induction false} CompileExactly(routes: seq<DeviceRoute>)
    ensures Compile(routes).Some? <==> Compilable(routes)
    ensures Compile(routes).Some? ==> Tabulates(routes, Compile(routes).value)
  {
    if routes != [] {
      var n := |routes| - 1;
      assert routes == routes[..n] + [routes[n]];
      CompileExactly(routes[..n]);
      CompilableSnoc(routes[..n], routes[n]);
      hide Compilable, Tabulates, ValidEntry;
      if Compile(routes[..n]).Some? {
        TabulatesSnoc(routes[..n], routes[n], Compile(routes[..n]).value);
        TabulatesSize(routes[..n], Compile(routes[..n]).value);
      }
    }
  }

  lemma {:induction false} TabulatesSize(routes: seq<DeviceRoute>, t: Table)
    requires Tabulates(routes, t)
    ensures |t| == |routes|
  {
  }

  /** A valid configuration always compiles, so its routes never fail to take effect. */
  lemma {:induction false} ValidCompiles(c: Config)
    requires ValidConfig(c)
    ensures Compile(c.routes).Some?
  {
    CompileExactly(c.routes);
  }

  // ---------------------------------------------------------------- the transaction

  /** A candidate differs from the committed configuration in its routes and the next revision only. */
  ghost predicate Staged(s: Core, c: Candidate) {
    && s.revision < U64_MAX && c.revision == s.revision + 1
    && c.config == s.config.(routes := c.config.routes, revision := c.revision)
    && ValidConfig(c.config) && Compile(c.config.routes) == Some(c.table)
    && c.affected == Affected(s.config, c.config, s.table, c.table)
  }

  ghost predicate Policied(s: Core) {
    && ValidConfig(s.config) && Compile(s.config.routes) == Some(s.table) && s.config.revision == s.revision
    && (s.candidate.Some? ==> Staged(s, s.candidate.value) && !s.handoff)
  }

  /** One step of the transaction: nothing, staging, giving up, or committing the one retained candidate. */
  ghost predicate Transacts(s: Core, t: Core) {
    if t.revision == s.revision then
      && t.config.routes == s.config.routes && t.table == s.table
      && (s.candidate.Some? ==> t.candidate == s.candidate || t.candidate.None?)
    else
      && s.revision < U64_MAX && t.revision == s.revision + 1 && t.candidate.None?
      && (s.candidate.Some? ==> t.config == s.candidate.value.config && t.table == s.candidate.value.table)
  }

  lemma {:induction false} PrepareTransacts(s: Core, c: Config, expected: U64, now: U64)
    requires Policied(s)
    ensures var r := PrepareRoutes(s, c, expected, now);
            && Policied(r.core) && Transacts(s, r.core) && r.core.revision == s.revision
            && (r.PolicyDone? ==> r.core.candidate.Some?)
            && (r.core.candidate != s.candidate ==> s.candidate.None?)
  {
    hide Queue, RoutingActive, Mirrors, Publish, PolicyProgress, Misrouted, ValidConfig, Compile, Affected;
  }

  lemma {:induction false} CommitTransacts(s: Core, revision: U64, now: U64)
    requires Policied(s)
    ensures var r := CommitRoutes(s, revision, now);
            && Policied(r.core) && Transacts(s, r.core)
            && (r.PolicyDone? ==> s.candidate.Some? && r.core.revision == revision == s.candidate.value.revision)
            && (r.PolicyFailed? ==> r.core == s)
  {
    hide RoutingActive, Mirrors, Publish, PolicyProgress, Relabel, ValidConfig, Compile, Affected;
  }

  lemma {:induction false} ReplaceTransacts(s: Core, c: Config, now: U64)
    requires Policied(s) && c.routes == s.config.routes && c.revision == s.revision
    ensures Policied(ReplaceConfig(s, c, now).core) && Transacts(s, ReplaceConfig(s, c, now).core)
  {
    hide Queue, RoutingActive, Mirrors, Publish, ValidConfig, Compile, Affected, PairsEndpoint, Adopt;
  }

  lemma {:induction false} ReplaceRoutesTransacts(s: Core, c: Config, now: U64)
    requires Policied(s)
    ensures Policied(ReplaceRoutes(s, c, now).core) && Transacts(s, ReplaceRoutes(s, c, now).core)
  {
    PrepareTransacts(s, c, s.revision, now);
    var p := PrepareRoutes(s, c, s.revision, now);
    if StagedRoutes(p.core).Some? { CommitTransacts(p.core, StagedRoutes(p.core).value.revision, now); }
    hide PrepareRoutes, CommitRoutes, StagedRoutes, Policied;
  }

  lemma {:induction false} ConfigTransacts(s: Core, c: Config, now: U64)
    requires Policied(s)
    ensures Policied(UpdateConfig(s, c, now).core) && Transacts(s, UpdateConfig(s, c, now).core)
  {
    hide Policied, Transacts, ReplaceConfig, ReplaceRoutes;
    if c.routes == s.config.routes && c.revision == s.revision {
      ReplaceTransacts(s, c, now);
    } else {
      ReplaceRoutesTransacts(s, c, now);
    }
  }

  lemma {:induction false} AbortTransacts(s: Core, revision: U64, now: U64)
    requires Policied(s)
    ensures Policied(AbortRoutes(s, revision, now).core) && Transacts(s, AbortRoutes(s, revision, now).core)
  {
    hide RoutingActive, Mirrors, Publish, ValidConfig, Compile, Affected;
  }

  lemma {:induction false} KeptTransacts(s: Core, t: Core)
    requires Policied(s) && KeepsPolicy(s, t) && (t.handoff ==> s.handoff || s.candidate.None?)
    ensures Policied(t) && Transacts(s, t)
  {
    hide ValidConfig, Compile, Affected;
  }

  /** Whatever happens, the committed policy and its table change together, by whole revisions, one at a time. */
  lemma {:induction false} StepTransacts(s: Core, op: Op, now: U64)
    requires s.decision.None? && Policied(s)
    ensures Policied(Apply(s, op, now)) && Transacts(s, Apply(s, op, now))
  {
    hide Policied, Transacts, Leaves, Justified, Shown, Drains, Capture, UpdateConfig, PrepareRoutes, CommitRoutes,
         AbortRoutes;
    var t := Apply(s, op, now);
    match op {
      case Captured(e, accepted) =>
        var c := CaptureCase(s, e, accepted, now);
        KeptTransacts(s, t);
      case ConfigUpdated(c) => ConfigTransacts(s, c, now);
      case RoutesPrepared(c, expected) => PrepareTransacts(s, c, expected, now);
      case RoutesCommitted(r) => CommitTransacts(s, r, now);
      case RoutesAborted(r) => AbortTransacts(s, r, now);
      case _ =>
        hide Apply;
        OpSteers(s, op, now);
        KeptTransacts(s, t);
    }
  }

  /** In every run the table is the committed configuration's own, the configuration carries the committed revision,
      and every step either keeps the policy or commits the retained candidate as the next revision. */
  lemma {:induction false} RoutePolicy(config: Config, v: H.View, s: Core, steps: seq<Step>)
    requires Start(config, v) == Some(s)
    ensures Policied(Execute(s, steps))
    ensures steps != [] ==> Transacts(Execute(s, steps[..|steps| - 1]), Execute(s, steps))
    ensures s.revision <= Execute(s, steps).revision
  {
    hide Apply, Start, Policied;
    StartPolicied(config, v, s);
    if steps != [] {
      var n := |steps| - 1;
      RoutePolicy(config, v, s, steps[..n]);
      RunSettled(s, steps[..n]);
      StepTransacts(Execute(s, steps[..n]), steps[n].op, steps[n].now);
    }
  }

  lemma {:induction false} StartPolicied(config: Config, v: H.View, s: Core)
    requires Start(config, v) == Some(s)
    ensures s.decision.None? && Policied(s)
  {
    hide ValidConfig, Compile, PeersFor;
  }

  /** Adopting a configuration leaves exactly the paired hosts as peers, known ones in the state they were in, and takes
      control back, closing routing, exactly when the active host is a peer that is no longer paired. */
  lemma {:induction false} AdoptionTakesBack(s: Core, config: Config, table: Table)
    ensures var t := Adopt(s, config, table);
            var lost := s.view.activeHost != s.view.localHost && !PairsHost(config, s.view.activeHost);
            && (forall h :: h in t.peers <==> PairsHost(config, h))
            && (forall h | h in t.peers :: t.peers[h] == if h in s.peers then s.peers[h] else Disconnected)
            && (if lost then Local(t) && !t.ready && !t.handoff
                else t.view == s.view && t.ready == s.ready && t.handoff == s.handoff)
  {
    var peers := PeersFor(config, s.peers);
    forall h ensures h in peers <==> PairsHost(config, h) {
      if p :| p in config.paired && p.host == h { assert p.host in peers; }
    }
  }

  /** The devices a candidate gates are exactly those whose effective route it changes. */
  lemma {:induction false} AffectedExactly(s: Core, d: DeviceId)
    requires Policied(s) && s.candidate.Some?
    ensures d in s.candidate.value.affected <==> RouteFor(s.table, d) != RouteFor(s.candidate.value.table, d)
  {
    var c := s.candidate.value;
    CompileExactly(s.config.routes);
    CompileExactly(c.config.routes);
    hide ValidConfig, Compile, Compilable;
    if RouteFor(s.table, d) != RouteFor(c.table, d) {
      assert d in s.table || d in c.table;
      var r :| r in s.config.routes + c.config.routes && r.device == d;
      assert d in c.affected;
    }
  }

  // ---------------------------------------------------------------- routes in the ledger

  /** Everything held remotely, and every open remote lifecycle, carries its device's committed route. */
  ghost predicate Labelled(l: Ledger, table: Table) {
    && (forall k | k in l.held :: l.held[k].route == RouteFor(table, k.device))
    && (forall c | c in l.latches && l.latches[c].ToRemote? :: l.latches[c].route == RouteFor(table, c.device))
  }

  lemma {:induction false} QueueLabelled(l: Ledger, picked: set<HeldKey>, table: Table)
    requires Labelled(l, table)
    ensures Labelled(Queue(l, picked).ledger, table)
  {
    hide RouteFor;
  }

  lemma {:induction false} NotedLabelled(l: Ledger, e: Event, table: Table)
    requires Labelled(l, table)
    ensures Labelled(Noted(l, e), table)
  {
    hide RouteFor, TouchOf;
  }

  lemma {:induction false} LeavesLabelled(s: Core, e: Event, accepted: Option<U64>, now: U64, c: Case, m: Ledger)
    requires Labelled(s.ledger, s.table) && Leaves(s.ledger, e, accepted, c, m) && Justified(s, e, now, c)
    ensures Labelled(m, s.table)
  {
    hide Queue, RouteFor, TouchOf, Noted, Missing, RoutingActive;
    var l := s.ledger;
    var n := Noted(l, e);
    NotedFrame(l, e);
    NotedLabelled(l, e, s.table);
    if c.Closes? {
      QueueLabelled(if c.burned then Burn(n) else n, l.held.Keys, s.table);
    } else if c.Refuses? {
      QueueLabelled(l, l.held.Keys, s.table);
    }
  }

  lemma {:induction false} MovesLabelled(l: Ledger, m: Move, n: Ledger, table: Table)
    requires Labelled(l, table) && Moves(l, m, n) && !m.Relabelling?
    ensures Labelled(n, table)
  {
    hide Queue, RouteFor;
    if m.Queueing? { QueueLabelled(l, m.picked, table); }
  }

  lemma {:induction false} RelabelLabelled(l: Ledger, m: Move, n: Ledger)
    requires Moves(l, m, n) && m.Relabelling?
    ensures Labelled(n, m.table)
  {
    hide Queue, RouteFor;
  }

  lemma {:induction false} StepLabelled(s: Core, op: Op, now: U64)
    requires s.decision.None? && Policied(s) && Labelled(s.ledger, s.table)
    ensures Labelled(Apply(s, op, now).ledger, Apply(s, op, now).table)
  {
    hide Apply, Leaves, Moves, Labelled, Policied, Capture, Justified, Queue;
    var t := Apply(s, op, now);
    if op.Captured? {
      var c := CaptureCase(s, op.event, op.accepted, now);
      ApplyCapture(s, op, now);
      LeavesLabelled(s, op.event, op.accepted, now, c, t.ledger);
    } else {
      var m := OpMoves(s, op, now);
      if m.Relabelling? {
        RelabelLabelled(s.ledger, m, t.ledger);
      } else {
        MovesLabelled(s.ledger, m, t.ledger, s.table);
        OpSteers(s, op, now);
        StepTransacts(s, op, now);
        if op.RoutesAborted? { AbortKeeps(s, op, now); }
      }
    }
  }

  lemma {:induction false} AbortKeeps(s: Core, op: Op, now: U64)
    requires op.RoutesAborted?
    ensures Apply(s, op, now).table == s.table
  {
    hide RoutingActive;
  }

  /** In every run, whatever is held on a peer is held under the committed route of its device. */
  lemma {:induction false} RoutesCommittedOnly(config: Config, v: H.View, s: Core, steps: seq<Step>)
    requires Start(config, v) == Some(s)
    ensures Labelled(Execute(s, steps).ledger, Execute(s, steps).table)
  {
    hide Apply, Start, Policied, Labelled;
    if steps == [] {
      StartsEmpty(config, v, s);
      NothingLabelled(s.ledger, s.table);
    } else {
      var n := |steps| - 1;
      RoutesCommittedOnly(config, v, s, steps[..n]);
      RoutePolicy(config, v, s, steps[..n]);
      StartPolicied(config, v, s);
      RunSettled(s, steps[..n]);
      StepLabelled(Execute(s, steps[..n]), steps[n].op, steps[n].now);
    }
  }

  lemma {:induction false} NothingLabelled(l: Ledger, table: Table)
    requires l.held == map[] && l.latches == map[]
    ensures Labelled(l, table)
  {
  }
}
