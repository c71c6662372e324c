/** What operations other than captures do to everything around the ledger. */
module DaemonControl {
  import opened Base
  import opened Ledger
  import opened Daemon
  import opened DaemonRuns
  import H = Handoff

  ghost predicate KeepsPolicy(s: Core, t: Core) {
    t.config == s.config && t.table == s.table && t.candidate == s.candidate && t.revision == s.revision
  }

  ghost predicate Local(s: Core) {
    s.view.activeHost == s.view.localHost
  }

  predicate ForPolicy(op: Op) {
    op.ConfigUpdated? || op.RoutesPrepared? || op.RoutesCommitted? || op.RoutesAborted?
  }

  /** How an operation other than a capture may steer the core. */
  ghost predicate Steers(s: Core, op: Op, now: U64, t: Core) {
    && t.view.localHost == s.view.localHost
    && (t.drain != s.drain ==> op.EmergencyTriggered? || (op.Ticked? && !AnyFailsafeKey(s)))
    && (t.drain && !s.drain ==> op.EmergencyTriggered?)
    && (t.suspendedUntil != s.suspendedUntil ==> op.EmergencyTriggered?)
    && (op.EmergencyTriggered? ==> t.drain && t.suspendedUntil == SuspensionEnd(s.config, now) && Local(t))
    && (t.handoff && !s.handoff ==> op.HandoffBegun? && s.candidate.None?)
    && (t.view.activeHost != s.view.activeHost ==> Local(t) || op.WorkspaceUpdated? || op.HandoffFinished?)
    && (ForPolicy(op) || KeepsPolicy(s, t))
    && (t == s || op.CleanupTaken? || op.Ticked? || Mirrors(t, now))
    && (op.Ticked? ==>
         t == s.(drain := t.drain, published := t.published) && t.published.enabled == RoutingActive(t, now)
                       && (t.published == s.published || Mirrors(t, now)))
    && (op.CleanupTaken? ==> t == s.(ledger := t.ledger) && Pending(t.ledger) == Pending(s.ledger))
    && (op.EndpointInstalled? || op.EndpointStateSet? || op.EndpointRetired? || op.TransportLost?
        || t.endpoints == s.endpoints)
    && (t.lifecycle != s.lifecycle ==> s.lifecycle.Running? && (op.Enabled? || op.Disabled? || op.ShutDown?))
  }

  lemma {:induction false} IdleSteers(s: Core, op: Op, now: U64)
    requires s.decision.None?
    requires op.HandoffCancelled? || op.BarrierAborted? || op.Enabled? || op.ReadyMarked? || op.PeerStateSet?
             || op.RoutesAborted?
    ensures Steers(s, op, now, Apply(s, op, now))
  {
    hide Queue, RoutingActive, Mirrors, Publish, Capture, UpdateConfig, PrepareRoutes, RetryRoutes, CommitRoutes,
         GateDevices, UpdateWorkspace, BeginHandoff, FinishHandoff, SetEndpointState, Disable, Emergency, Shutdown,
         ClearReady, ConfirmCleanup, RetryCleanup, TransportInvalidated, RestoreDevice, TakeCleanup, Tick,
         InstallEndpoint, RetireEndpoint, AnyFailsafeKey, SuspensionEnd;
  }

  lemma {:induction false} TickSteers(s: Core, now: U64)
    ensures Steers(s, Ticked, now, Tick(s, now).0)
  {
    hide Queue, AnyFailsafeKey, SuspensionEnd;
  }

  lemma {:induction false} StopSteers(s: Core, now: U64)
    requires s.decision.None?
    ensures Steers(s, Disabled, now, Disable(s, now).core) && Steers(s, ShutDown, now, Shutdown(s, now).core)
    ensures Steers(s, ReadyCleared, now, ClearReady(s, now).core)
  {
    hide Queue, RoutingActive, Mirrors, Publish, AnyFailsafeKey, SuspensionEnd;
  }

  lemma {:induction false} EmergencySteers(s: Core, now: U64)
    requires s.decision.None?
    ensures Steers(s, EmergencyTriggered, now, Emergency(s, now).core)
  {
    hide Queue, RoutingActive, Mirrors, Publish, AnyFailsafeKey, SuspensionEnd;
  }

  lemma {:induction false} DeviceSteers(s: Core, devices: set<DeviceId>, d: DeviceId, now: U64)
    ensures Steers(s, DevicesGated(devices), now, GateDevices(s, devices, now).core)
    ensures Steers(s, DeviceRestored(d), now, RestoreDevice(s, d, now).core)
  {
    hide Queue, RoutingActive, Mirrors, Publish, AnyFailsafeKey, SuspensionEnd;
  }

  lemma {:induction false} WorkspaceShape(s: Core, v: H.View, now: U64)
    ensures var t := UpdateWorkspace(s, v, now).core;
            || t == s
            || (&& t == s.(view := t.view, ledger := t.ledger, published := t.published)
                && Mirrors(t, now) && t.view.localHost == s.view.localHost)
  {
    hide Queue, RoutingActive, Mirrors, FollowingHeld, Pending;
  }

  lemma {:induction false} WorkspaceSteers(s: Core, v: H.View, now: U64)
    ensures Steers(s, WorkspaceUpdated(v), now, UpdateWorkspace(s, v, now).core)
  {
    hide UpdateWorkspace, Mirrors, AnyFailsafeKey, SuspensionEnd, RoutingActive, Pending;
    WorkspaceShape(s, v, now);
  }

  lemma {:induction false} FinishSteers(s: Core, v: H.View, now: U64)
    ensures Steers(s, HandoffFinished(v), now, FinishHandoff(s, v, now).core)
  {
    WorkspaceSteers(s, v, now);
    hide Queue, RoutingActive, Mirrors, Publish, AnyFailsafeKey, SuspensionEnd, UpdateWorkspace;
  }

  lemma {:induction false} BeginSteers(s: Core, now: U64)
    ensures Steers(s, HandoffBegun, now, BeginHandoff(s, now).core)
  {
    hide Queue, RoutingActive, Mirrors, Publish, AnyFailsafeKey, SuspensionEnd, FollowingHeld;
  }

  lemma {:induction false} InstallSteers(s: Core, e: Endpoint, now: U64)
    ensures Steers(s, EndpointInstalled(e), now, InstallEndpoint(s, e, now).core)
    ensures Steers(s, EndpointRetired(e), now, RetireEndpoint(s, e, now).core)
  {
    hide Queue, RoutingActive, Mirrors, Publish, AnyFailsafeKey, SuspensionEnd, HasObligations, PairsEndpoint;
  }

  lemma {:induction false} EndpointSteers(s: Core, e: Endpoint, state: PeerState, now: U64)
    ensures Steers(s, EndpointStateSet(e, state), now, SetEndpointState(s, e, state, now).core)
  {
    hide Queue, RoutingActive, Mirrors, Publish, AnyFailsafeKey, SuspensionEnd;
  }

  lemma {:induction false} LostSteers(s: Core, e: Endpoint, now: U64)
    ensures Steers(s, TransportLost(e), now, TransportInvalidated(s, e, now))
  {
    hide Queue, RoutingActive, Mirrors, Publish, AnyFailsafeKey, SuspensionEnd, Invalidate;
  }

  lemma {:induction false} TakeSteers(s: Core, now: U64)
    ensures Steers(s, CleanupTaken, now, TakeCleanup(s).0)
  {
    hide Queue, RoutingActive, Mirrors, Publish, AnyFailsafeKey, SuspensionEnd;
  }

  lemma {:induction false} ConfirmSteers(s: Core, t: Token, now: U64)
    ensures Steers(s, CleanupConfirmed(t), now, ConfirmCleanup(s, t, now).core)
  {
    hide Queue, RoutingActive, Mirrors, Publish, AnyFailsafeKey, SuspensionEnd;
  }

  lemma {:induction false} RetriedSteers(s: Core, t: Token, now: U64)
    ensures Steers(s, CleanupRetried(t), now, RetryCleanup(s, t, now).core)
  {
    hide Queue, RoutingActive, Mirrors, Publish, AnyFailsafeKey, SuspensionEnd;
  }

  lemma {:induction false} PrepareSteers(s: Core, c: Config, expected: U64, now: U64)
    ensures Steers(s, RoutesPrepared(c, expected), now, PrepareRoutes(s, c, expected, now).core)
  {
    hide Queue, RoutingActive, Mirrors, Publish, AnyFailsafeKey, SuspensionEnd, ValidConfig, Compile, PolicyProgress,
         Misrouted;
  }

  lemma {:induction false} RetrySteers(s: Core, now: U64)
    ensures Steers(s, RoutesRetried, now, RetryRoutes(s, now).core)
  {
    hide Queue, RoutingActive, Mirrors, Publish, AnyFailsafeKey, SuspensionEnd, PolicyProgress, Misrouted;
  }

  lemma {:induction false} CommitSteers(s: Core, revision: U64, now: U64)
    ensures Steers(s, RoutesCommitted(revision), now, CommitRoutes(s, revision, now).core)
  {
    hide Queue, RoutingActive, Mirrors, Publish, AnyFailsafeKey, SuspensionEnd, PolicyProgress, Relabel;
  }

  lemma {:induction false} ReplaceConfigSteers(s: Core, c: Config, now: U64)
    ensures Steers(s, ConfigUpdated(c), now, ReplaceConfig(s, c, now).core)
  {
    hide Queue, RoutingActive, Mirrors, Publish, AnyFailsafeKey, SuspensionEnd, ValidConfig, Compile, Adopt,
         PairsEndpoint;
  }

  lemma {:induction false} ReplaceRoutesSteers(s: Core, c: Config, now: U64)
    ensures Steers(s, ConfigUpdated(c), now, ReplaceRoutes(s, c, now).core)
  {
    PrepareSteers(s, c, s.revision, now);
    var p := PrepareRoutes(s, c, s.revision, now).core;
    if StagedRoutes(p).Some? { CommitSteers(p, StagedRoutes(p).value.revision, now); }
    hide Queue, RoutingActive, Mirrors, Publish, AnyFailsafeKey, SuspensionEnd, PrepareRoutes, CommitRoutes,
         StagedRoutes;
  }

  lemma {:induction false} ConfigSteers(s: Core, c: Config, now: U64)
    ensures Steers(s, ConfigUpdated(c), now, UpdateConfig(s, c, now).core)
  {
    hide Steers, ReplaceConfig, ReplaceRoutes;
    ReplaceConfigSteers(s, c, now);
    ReplaceRoutesSteers(s, c, now);
  }

  /** Every operation other than a capture steers the core only as described. */
  lemma {:induction false} OpSteers(s: Core, op: Op, now: U64)
    requires s.decision.None? && !op.Captured?
    ensures Steers(s, op, now, Apply(s, op, now))
  {
    hide Steers, Capture, Tick, UpdateConfig, PrepareRoutes, RetryRoutes, CommitRoutes, AbortRoutes, GateDevices,
         RestoreDevice, UpdateWorkspace, BeginHandoff, CancelHandoff, AbortBarrier, FinishHandoff, SetPeerState,
         InstallEndpoint, SetEndpointState, RetireEndpoint, Enable, Disable, Emergency, Shutdown, ClearReady, MarkReady,
         TakeCleanup, ConfirmCleanup, RetryCleanup, TransportInvalidated;
    match op {
      case Ticked => TickSteers(s, now);
      case ConfigUpdated(c) => ConfigSteers(s, c, now);
      case RoutesPrepared(c, expected) => PrepareSteers(s, c, expected, now);
      case RoutesRetried => RetrySteers(s, now);
      case RoutesCommitted(r) => CommitSteers(s, r, now);
      case DevicesGated(devices) => DeviceSteers(s, devices, NIL, now);
      case DeviceRestored(d) => DeviceSteers(s, {}, d, now);
      case WorkspaceUpdated(v) => WorkspaceSteers(s, v, now);
      case HandoffBegun => BeginSteers(s, now);
      case HandoffFinished(v) => FinishSteers(s, v, now);
      case EndpointInstalled(e) => InstallSteers(s, e, now);
      case EndpointRetired(e) => InstallSteers(s, e, now);
      case EndpointStateSet(e, state) => EndpointSteers(s, e, state, now);
      case EmergencyTriggered => EmergencySteers(s, now);
      case Disabled => StopSteers(s, now);
      case ShutDown => StopSteers(s, now);
      case ReadyCleared => StopSteers(s, now);
      case CleanupTaken => TakeSteers(s, now);
      case CleanupConfirmed(t) => ConfirmSteers(s, t, now);
      case CleanupRetried(t) => RetriedSteers(s, t, now);
      case TransportLost(e) => LostSteers(s, e, now);
      case _ => IdleSteers(s, op, now);
    }
  }
}
