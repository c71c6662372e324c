/** Authority moves to another host only when nothing that follows the active host is still held. */
module DaemonBarrier {
  import opened Base
  import opened Ledger
  import opened Daemon
  import opened LedgerLemmas
  import opened DaemonRuns
  import opened DaemonLedger
  import opened DaemonControl
  import opened DaemonPolicy
  import H = Handoff

  lemma {:induction false} NothingLeft(l: Ledger, picked: set<HeldKey>)
    requires Queue(l, picked).error.None? && Queue(l, picked).ledger.cleanup == []
    ensures picked * l.held.Keys == {}
  {
    var added := QueueEffect(l, picked);
    assert l.cleanup == [] && added == [];
  }

  /** Where an update of the workspace moves authority, no control is held under the active host's route. */
  lemma {:induction false} WorkspaceBarrier(s: Core, v: H.View, now: U64)
    requires UpdateWorkspace(s, v, now).error.None?
    ensures var t := UpdateWorkspace(s, v, now).core;
            && t.view == v && v.localHost == s.view.localHost && t.handoff == s.handoff
            && (v.activeHost != s.view.activeHost ==> FollowingHeld(t.ledger) == {} && !Pending(t.ledger))
  {
    var q := Queue(s.ledger, FollowingHeld(s.ledger));
    QueueHeld(s.ledger, FollowingHeld(s.ledger));
    if v.activeHost != s.view.activeHost {
      NothingLeft(s.ledger, FollowingHeld(s.ledger));
      assert FollowingHeld(s.ledger) * s.ledger.held.Keys == FollowingHeld(s.ledger);
    }
    hide Queue, RoutingActive;
  }

  /** Finishing a handoff opens routing again under the new authority, with nothing left behind. */
  lemma {:induction false} FinishBarrier(s: Core, v: H.View, now: U64)
    requires FinishHandoff(s, v, now).error.None?
    ensures var t := FinishHandoff(s, v, now).core;
            && t.view == v && !t.handoff
            && (v.activeHost != s.view.activeHost ==> FollowingHeld(t.ledger) == {} && !Pending(t.ledger))
  {
    hide Queue, RoutingActive, UpdateWorkspace, FollowingHeld;
    WorkspaceBarrier(s, v, now);
  }

  /** Beginning a handoff puts every control that follows the active host under an owed release. */
  lemma {:induction false} BeginOwes(s: Core, now: U64)
    requires BeginHandoff(s, now).result.Ok?
    ensures var t := BeginHandoff(s, now).core;
            t.handoff && t.candidate.None? && t.decision.None? && FollowingHeld(t.ledger) <= Owed(t.ledger.cleanup)
  {
    var added := QueueEffect(s.ledger, FollowingHeld(s.ledger));
    OwedAppend(s.ledger.cleanup, added);
    QueueHeld(s.ledger, FollowingHeld(s.ledger));
    hide Queue, RoutingActive;
  }

  lemma {:induction false} BlockedRoutes(s: Core, c: Config, expected: U64, revision: U64, now: U64)
    requires s.decision.None? && s.handoff && s.candidate.None?
    ensures PrepareRoutes(s, c, expected, now).core == s && CommitRoutes(s, revision, now).core == s
    ensures RetryRoutes(s, now).core == s && AbortRoutes(s, revision, now).core == s
    ensures ReplaceRoutes(s, c, now).core == s
  {
    hide Queue, RoutingActive, ValidConfig, Compile, PolicyProgress, Relabel, Misrouted;
  }

  lemma {:induction false} BlockedConfig(s: Core, c: Config, now: U64)
    requires s.decision.None? && s.handoff && s.candidate.None?
    ensures var t := UpdateConfig(s, c, now).core; t.ledger.held == s.ledger.held && t.candidate.None?
  {
    BlockedRoutes(s, c, 0, 0, now);
    hide ReplaceRoutes;
    var picked := ReplaceConfigMoves(s, c, now);
    QueueHeld(s.ledger, picked);
    assert ReplaceConfig(s, c, now).core.candidate.None?
           by { hide Queue, RoutingActive, ValidConfig, Compile, Adopt, PairsEndpoint; }
    hide ReplaceConfig;
  }

  lemma {:induction false} LeavesFollowing(s: Core, e: Event, accepted: Option<U64>, now: U64, c: Case, m: Ledger)
    requires s.handoff && Leaves(s.ledger, e, accepted, c, m) && Justified(s, e, now, c)
    ensures FollowingHeld(m) <= FollowingHeld(s.ledger)
  {
    hide Leaves, RouteFor, RoutingActive, TouchOf;
    LeavesHeld(s.ledger, e, accepted, c, m);
  }

  lemma {:induction false} MovesFollowing(l: Ledger, m: Move, n: Ledger)
    requires Moves(l, m, n) && !m.Relabelling?
    ensures FollowingHeld(n) <= FollowingHeld(l)
  {
    hide Moves;
    MovesHeld(l, m, n);
  }

  lemma {:induction false} PolicyFollowing(s: Core, op: Op, now: U64)
    requires s.decision.None? && s.handoff && s.candidate.None? && ForPolicy(op)
    ensures var t := Apply(s, op, now); FollowingHeld(t.ledger) <= FollowingHeld(s.ledger) && t.candidate.None?
  {
    hide Capture, Tick, UpdateConfig, PrepareRoutes, RetryRoutes, CommitRoutes, AbortRoutes, GateDevices, RestoreDevice,
         UpdateWorkspace, BeginHandoff, CancelHandoff, AbortBarrier, FinishHandoff, SetPeerState, InstallEndpoint,
         SetEndpointState, RetireEndpoint, Enable, Disable, Emergency, Shutdown, ClearReady, MarkReady, TakeCleanup,
         ConfirmCleanup, RetryCleanup, TransportInvalidated;
    match op {
      case ConfigUpdated(c) => BlockedConfig(s, c, now);
      case RoutesPrepared(c, expected) => BlockedRoutes(s, c, expected, 0, now);
      case RoutesCommitted(r) => BlockedRoutes(s, s.config, 0, r, now);
      case RoutesAborted(r) => BlockedRoutes(s, s.config, 0, r, now);
    }
  }

  lemma {:induction false} StepFollowing(s: Core, op: Op, now: U64)
    requires s.decision.None? && s.handoff && s.candidate.None?
    ensures var t := Apply(s, op, now); FollowingHeld(t.ledger) <= FollowingHeld(s.ledger) && t.candidate.None?
  {
    hide Apply, Leaves, Moves, Justified, Capture, FollowingHeld;
    var t := Apply(s, op, now);
    if ForPolicy(op) {
      PolicyFollowing(s, op, now);
    } else if op.Captured? {
      var c := CaptureCase(s, op.event, op.accepted, now);
      ApplyCapture(s, op, now);
      LeavesFollowing(s, op.event, op.accepted, now, c, t.ledger);
    } else {
      var m := OpMoves(s, op, now);
      OpSteers(s, op, now);
      MovesFollowing(s.ledger, m, t.ledger);
    }
  }

  /** From the moment a handoff begins until it is completed or given up, no control comes to be held under the
      active host's route, whatever else happens meanwhile. */
  lemma {:induction false} NothingNewFollows(s: Core, now: U64, steps: seq<Step>)
    requires BeginHandoff(s, now).result.Ok?
    requires forall i | 0 <= i < |steps| :: Execute(BeginHandoff(s, now).core, steps[..i]).handoff
    ensures var t := BeginHandoff(s, now).core;
            var u := Execute(t, steps);
            && u.decision.None? && u.candidate.None?
            && FollowingHeld(u.ledger) <= FollowingHeld(t.ledger) <= Owed(t.ledger.cleanup)
    decreases |steps|
  {
    hide Apply, FollowingHeld, BeginHandoff, Owed;
    BeginOwes(s, now);
    var t := BeginHandoff(s, now).core;
    if steps != [] {
      var n := |steps| - 1;
      forall i | 0 <= i < n ensures Execute(t, steps[..n][..i]).handoff { assert steps[..n][..i] == steps[..i]; }
      NothingNewFollows(s, now, steps[..n]);
      var u := Execute(t, steps[..n]);
      StepSettled(u, steps[n].op, steps[n].now);
      StepFollowing(u, steps[n].op, steps[n].now);
    }
  }
}
