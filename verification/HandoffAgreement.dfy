/** Commit agreement: source and destination resolve the same transition. */
module HandoffAgreement {
  import opened Base
  import opened Topology
  import opened Handoff
  import opened HandoffValidity
  import opened HandoffNetwork
  import opened HandoffSafety

  /** The protocol epoch is a digest of geometry and links; equal digests are taken to mean equal content. */
  ghost predicate EpochIdentifies(v: Workspace, w: Workspace) {
    v.protocolEpoch == w.protocolEpoch ==> v.displays == w.displays && v.links == w.links
  }

  lemma {:induction false} ResolveSame(v: Workspace, w: Workspace, source: DisplayId, edge: Edge, position: real)
    requires v.displays == w.displays && v.links == w.links
    ensures Resolve(v, source, edge, position) == Resolve(w, source, edge, position)
  {
  }

  // ---------------------------------------------------------------- where a pending inbound transition comes from

  /** Whatever is pending inbound was pending before. */
  ghost predicate Carried(c: Coordinator, d: Coordinator) {
    d.inbound.Some? ==>
      && c.inbound.Some?
      && d.inbound.value.enter == c.inbound.value.enter
      && d.inbound.value.transition == c.inbound.value.transition
  }

  lemma {:induction false} PrepareCarried(c: Coordinator, now: U64)
    ensures Carried(c, Prepare(c, now).state)
  {
  }

  lemma {:induction false} AckCarried(c: Coordinator, s: Session, a: Ack, now: U64)
    ensures Carried(c, ReceiveAck(c, s, a, now).state)
  {
    PrepareCarried(c, now);
  }

  lemma {:induction false} BeginCarried(c: Coordinator, e: Effect, now: U64)
    ensures Carried(c, BeginDispatch(c, e, now).state)
  {
    PrepareCarried(c, now);
  }

  lemma {:induction false} ProposeCarried(c: Coordinator, s: Session, edge: Edge, position: real, now: U64)
    requires Valid(c)
    ensures Carried(c, ProposeLeave(c, s, edge, position, now).state)
  {
    hide Resolve;
  }

  lemma {:induction false} SentCarried(c: Coordinator, e: Effect, now: U64)
    requires Valid(c)
    ensures Carried(c, EffectSent(c, e, now).state)
  {
    hide Resolve;
  }

  lemma {:induction false} CommitCarried(c: Coordinator, s: Session, m: Commit, now: U64)
    requires Valid(c)
    ensures Carried(c, ReceiveCommit(c, s, m, now).state)
  {
    hide Resolve;
  }

  lemma {:induction false} ClassifyCarried(c: Coordinator, id: U64, sequence: U64)
    ensures Carried(c, Classify(c, id, sequence).state) && Classify(c, id, sequence).state.workspace == c.workspace
  {
  }

  lemma {:induction false} ReplayedLeaveCarried(c: Coordinator, s: Session, m: Leave)
    ensures Carried(c, ReplayedLeave(c, s, m).state)
  {
  }

  lemma {:induction false} AcceptLeaveCarried(c: Coordinator, s: Session, m: Leave, now: U64)
    ensures var d := AcceptLeave(c, s, m, now).state;
            || Carried(c, d)
            || (&& d.inbound.Some? && m.epoch == c.workspace.protocolEpoch && d.inbound.value.enter.id == m.id
                && Resolve(c.workspace, m.sourceDisplay, m.edge, m.position) == Some(d.inbound.value.transition))
  {
    hide Resolve;
  }

  lemma {:induction false} PrepareSameWorkspace(c: Coordinator, now: U64)
    ensures Prepare(c, now).state.workspace == c.workspace
  {
    hide Resolve;
  }

  lemma {:induction false} LeaveCarried(c: Coordinator, s: Session, m: Leave, now: U64)
    requires Valid(c)
    ensures var d := ReceiveLeave(c, s, m, now).state;
            || Carried(c, d)
            || (&& d.inbound.Some? && m.epoch == c.workspace.protocolEpoch && d.inbound.value.enter.id == m.id
                && Resolve(c.workspace, m.sourceDisplay, m.edge, m.position) == Some(d.inbound.value.transition))
  {
    hide Resolve, Valid, Prepare, Classify, ReplayedLeave, AcceptLeave;
    PrepareCarried(c, now);
    PrepareSameWorkspace(c, now);
    var p := Prepare(c, now).state;
    ClassifyCarried(p, m.id, m.sequence);
    var k := Classify(p, m.id, m.sequence).state;
    ReplayedLeaveCarried(k, s, m);
    AcceptLeaveCarried(k, s, m, now);
  }

  lemma {:induction false} ReplayedCarried(c: Coordinator, s: Session, m: Enter)
    ensures Carried(c, ReplayedEnter(c, s, m).state)
  {
  }

  /** A promise made now is for the transition resolved now. */
  ghost predicate Promises(c: Coordinator, d: Coordinator, m: Enter) {
    && d.inbound.Some? && m.epoch == c.workspace.protocolEpoch && d.inbound.value.enter.id == m.id
    && Resolve(c.workspace, m.sourceDisplay, m.destEdge.Opposite(), m.position) == Some(d.inbound.value.transition)
  }

  lemma {:induction false} DecideCarried(c: Coordinator, s: Session, m: Enter, now: U64)
    ensures var d := DecideEnter(c, s, m, now).state; Carried(c, d) || Promises(c, d, m)
  {
    hide Resolve, VerdictFor;
  }

  lemma {:induction false} EnterCarried(c: Coordinator, s: Session, m: Enter, now: U64)
    requires Valid(c)
    ensures var d := ReceiveEnter(c, s, m, now).state;
            || Carried(c, d)
            || (&& m.epoch == c.workspace.protocolEpoch && d.inbound.value.enter.id == m.id
                && Resolve(c.workspace, m.sourceDisplay, m.destEdge.Opposite(), m.position)
                  == Some(d.inbound.value.transition))
  {
    hide Resolve, Valid, Prepare, Classify, ReplayedEnter, DecideEnter;
    PrepareCarried(c, now);
    PrepareSameWorkspace(c, now);
    var p := Prepare(c, now).state;
    ClassifyCarried(p, m.id, m.sequence);
    var k := Classify(p, m.id, m.sequence).state;
    ReplayedCarried(k, s, m);
    DecideCarried(k, s, m, now);
  }

  // ---------------------------------------------------------------- the agreement invariant

  /** A view that shows the outcome of a completed transition. */
  predicate Landed(v: View, t: Transition) {
    v.activeHost == t.destHost && v.activeDisplay == t.pointer.display && v.pointer == t.pointer
  }

  predicate CommitQueuedBy(x: Host) {
    x.stage.Queued? && x.stage.effect.purpose == ForCommit
  }

  /** Source `x` and destination `y` mean the same transition by the same identifier. */
  ghost predicate Agree(x: Host, y: Host) {
    && (x.c.outbound.Some? ==>
          forall m | m in x.sent ::
            && (m.LeaveMsg? && m.leave.id == x.c.lastOut ==> m.leave == x.c.outbound.value.leave)
            && (m.EnterMsg? && m.enter.id == x.c.lastOut ==> m.enter == x.c.outbound.value.enter))
    && (x.c.outbound.Some? && y.c.inbound.Some? && y.c.inbound.value.enter.id == x.c.lastOut ==>
          y.c.inbound.value.transition == x.c.outbound.value.transition)
    && (forall m | m in x.sent && Live(y, m) ::
          && m.commit.id == x.c.lastOut
          && (CommitQueuedBy(x) || (x.c.outbound.None? && Landed(x.c.view, y.c.inbound.value.transition))))
  }

  ghost predicate AgreeInv(x: Host, y: Host) {
    && Agree(x, y) && Agree(y, x)
    && EpochIdentifies(x.c.workspace, y.c.workspace)
  }

  /** Nobody holds authority while its own Commit is live, and only one Commit is. */
  ghost predicate LetGo(x: Host, y: Host) {
    && !(Holds(x) && LiveInto(y, x))
    && !(Holds(y) && LiveInto(x, y))
    && !(LiveInto(x, y) && LiveInto(y, x))
  }

  /** Host `x`, the source, does anything but propose or settle a Commit. */
  lemma {:induction false} SourceQuiet(x: Host, x': Host, y: Host)
    requires Inv(x, y) && Agree(x, y) && LetGo(x, y) && !x.stage.Queued?
    requires x'.sent == x.sent && Moved(x.c, x'.c, y.c.lastOut)
    ensures Agree(x', y)
  {
    hide Resolve, EffectReady, MatchesOutbound;
  }

  /** Host `x`, the destination, does anything but open a new inbound transition. */
  lemma {:induction false} DestinationQuiet(x: Host, x': Host, y: Host)
    requires Inv(x, y) && Agree(y, x)
    requires Carried(x.c, x'.c) && Moved(x.c, x'.c, y.c.lastOut)
    ensures Agree(y, x')
  {
    hide Resolve, EffectReady, MatchesOutbound, Valid;
  }

  lemma {:induction false} DeliverLeave(x: Host, y: Host, l: Leave, now: U64)
    requires Inv(x, y) && AgreeInv(x, y) && LetGo(x, y) && x.stage.Idle? && LeaveMsg(l) in y.sent
    ensures AgreeInv(Deliver(x, LeaveMsg(l), now), y)
  {
    hide Resolve, ReceiveLeave, EffectReady, MatchesOutbound;
    var x' := Deliver(x, LeaveMsg(l), now);
    assert Claim(LeaveMsg(l)) == Some(l.id);
    LeaveMoved(x.c, SessionOf(x), l, now, y.c.lastOut);
    LeaveCarried(x.c, SessionOf(x), l, now);
    SourceQuiet(x, x', y);
    if Carried(x.c, x'.c) {
      DestinationQuiet(x, x', y);
    } else if y.c.outbound.Some? && l.id == y.c.lastOut {
      ResolveSame(x.c.workspace, y.c.workspace, l.sourceDisplay, l.edge, l.position);
    }
  }

  lemma {:induction false} DeliverEnter(x: Host, y: Host, e: Enter, now: U64)
    requires Inv(x, y) && AgreeInv(x, y) && LetGo(x, y) && x.stage.Idle? && EnterMsg(e) in y.sent
    ensures AgreeInv(Deliver(x, EnterMsg(e), now), y)
  {
    hide Resolve, ReceiveEnter, EffectReady, MatchesOutbound;
    var x' := Deliver(x, EnterMsg(e), now);
    assert Claim(EnterMsg(e)) == Some(e.id);
    EnterMoved(x.c, SessionOf(x), e, now, y.c.lastOut);
    EnterCarried(x.c, SessionOf(x), e, now);
    SourceQuiet(x, x', y);
    if Carried(x.c, x'.c) {
      DestinationQuiet(x, x', y);
    } else if y.c.outbound.Some? && e.id == y.c.lastOut {
      ResolveSame(x.c.workspace, y.c.workspace, e.sourceDisplay, e.destEdge.Opposite(), e.position);
      var t := y.c.outbound.value.transition;
      assert t.destEdge.Opposite() == t.sourceEdge;
    }
  }

  lemma {:induction false} DeliverCommit(x: Host, y: Host, m: Commit, now: U64)
    requires Inv(x, y) && AgreeInv(x, y) && LetGo(x, y) && x.stage.Idle? && CommitMsg(m) in y.sent
    ensures AgreeInv(Deliver(x, CommitMsg(m), now), y)
  {
    hide Resolve, ReceiveCommit, EffectReady, MatchesOutbound;
    var x' := Deliver(x, CommitMsg(m), now);
    CommitMoved(x.c, SessionOf(x), m, now, y.c.lastOut);
    CommitCarried(x.c, SessionOf(x), m, now);
    if ReceiveCommit(x.c, SessionOf(x), m, now).result == Ok(Applied) {
      assert Live(x, CommitMsg(m));
    } else {
      SourceQuiet(x, x', y);
      DestinationQuiet(x, x', y);
    }
  }

  lemma {:induction false} DeliverAgree(x: Host, y: Host, m: Message, now: U64)
    requires Inv(x, y) && AgreeInv(x, y) && LetGo(x, y) && x.stage.Idle? && m in y.sent
    ensures AgreeInv(Deliver(x, m, now), y)
  {
    hide Resolve, ReceiveLeave, ReceiveEnter, ReceiveAck, ReceiveCommit, EffectReady, MatchesOutbound;
    match m
    case LeaveMsg(l) => DeliverLeave(x, y, l, now);
    case EnterMsg(e) => DeliverEnter(x, y, e, now);
    case AckMsg(a) =>
      AckMoved(x.c, SessionOf(x), a, now, y.c.lastOut);
      AckCarried(x.c, SessionOf(x), a, now);
      SourceQuiet(x, Deliver(x, m, now), y);
      DestinationQuiet(x, Deliver(x, m, now), y);
    case CommitMsg(t) => DeliverCommit(x, y, t, now);
  }

  lemma {:induction false} ProposeAgree(x: Host, y: Host, edge: Edge, position: real, now: U64)
    requires Inv(x, y) && AgreeInv(x, y) && LetGo(x, y) && x.stage.Idle?
    ensures AgreeInv(Perform(x, y, DoPropose(edge, position, now)), y)
  {
    hide Resolve, ProposeLeave, EffectReady, MatchesOutbound;
    var x' := Perform(x, y, DoPropose(edge, position, now));
    ProposeMoved(x.c, SessionOf(x), edge, position, now, y.c.lastOut);
    ProposeCarried(x.c, SessionOf(x), edge, position, now);
    if ProposeLeave(x.c, SessionOf(x), edge, position, now).result.Err? {
      SourceQuiet(x, x', y);
      DestinationQuiet(x, x', y);
    } else {
      forall m | m in x'.sent ensures Claim(m).Some? ==> Claim(m).value < x'.c.lastOut {
      }
      assert Holds(x);
      assert Agree(x', y);
      assert Agree(y, x');
    }
  }

  lemma {:induction false} BeginAgree(x: Host, y: Host, e: Effect, now: U64)
    requires Inv(x, y) && AgreeInv(x, y) && LetGo(x, y) && x.stage.Idle?
    ensures AgreeInv(Perform(x, y, DoBegin(e, now)), y)
  {
    hide Resolve, BeginDispatch, EffectReady, MatchesOutbound;
    var x' := Perform(x, y, DoBegin(e, now));
    BeginMoved(x.c, e, now, y.c.lastOut);
    BeginCarried(x.c, e, now);
    if BeginDispatch(x.c, e, now).result.Err? || e.purpose != ForCommit {
      SourceQuiet(x, x', y);
      DestinationQuiet(x, x', y);
    }
  }

  lemma {:induction false} EnqueueAgree(x: Host, y: Host)
    requires Inv(x, y) && AgreeInv(x, y) && LetGo(x, y) && x.stage.Started?
    ensures AgreeInv(Perform(x, y, DoEnqueue), y)
  {
    hide Resolve;
    var x' := Perform(x, y, DoEnqueue);
    var m := x.stage.effect.message;
    forall n | n in x'.sent ensures n in x.sent || n == m {
      if n !in x.sent { assert n in [m]; }
    }
  }

  lemma {:induction false} FinishAgree(x: Host, y: Host)
    requires Inv(x, y) && AgreeInv(x, y) && LetGo(x, y) && x.stage.Queued?
    ensures AgreeInv(Perform(x, y, DoFinish), y)
  {
    hide Resolve, EffectSent, EffectReady;
    var e := x.stage.effect;
    var x' := Perform(x, y, DoFinish);
    FinishMoved(x.c, e, y.c.lastOut);
    SentCarried(x.c, e, x.c.now);
    if e.purpose != ForCommit {
      DestinationQuiet(x, x', y);
    }
  }

  lemma {:induction false} PerformAgree(x: Host, y: Host, act: Act)
    requires Inv(x, y) && AgreeInv(x, y) && LetGo(x, y)
    ensures AgreeInv(Perform(x, y, act), y)
  {
    hide Resolve, Half, Deliver, ProposeLeave, BeginDispatch, EffectSent, Agree, Moved, LetGo;
    HalfFacts(x, y);
    var bound := y.c.lastOut;
    var x' := Perform(x, y, act);
    if x.stage.Idle? {
      match act
      case DoPropose(edge, position, now) => ProposeAgree(x, y, edge, position, now);
      case DoObserve(p) => ObserveMoved(x.c, p, bound); QuietAgree(x, x', y);
      case DoDeliver(k, now) => if k < |y.sent| { DeliverAgree(x, y, y.sent[k], now); }
      case DoBegin(e, now) => BeginAgree(x, y, e, now);
      case DoAbandon(e) => AbandonMoved(x.c, e, bound); QuietAgree(x, x', y);
      case DoPoll(now) => PrepareMoved(x.c, now, bound); QuietAgree(x, x', y);
      case _ =>
    } else {
      match (x.stage, act)
      case (Started(e, now), DoEnqueue) => EnqueueAgree(x, y);
      case (Started(e, now), DoFail) => AbandonMoved(x.c, e, bound); QuietAgree(x, x', y);
      case (Queued(e, now), DoFinish) => FinishAgree(x, y);
      case _ =>
    }
  }

  lemma {:induction false} QuietAgree(x: Host, x': Host, y: Host)
    requires Inv(x, y) && AgreeInv(x, y) && LetGo(x, y) && !x.stage.Queued?
    requires x'.sent == x.sent && Carried(x.c, x'.c) && Moved(x.c, x'.c, y.c.lastOut)
    ensures AgreeInv(x', y)
  {
    hide Agree, Inv, LetGo;
    SourceQuiet(x, x', y);
    DestinationQuiet(x, x', y);
  }

  lemma {:induction false} ExecuteAgree(s: System, steps: seq<Step>)
    requires SystemInv(s) && AgreeInv(s.a, s.b) && (Untouched(s) || OneToken(s))
    ensures AgreeInv(Execute(s, steps).a, Execute(s, steps).b)
    decreases |steps|
  {
    hide Half, AgreeInv, Perform;
    if steps != [] {
      var t := Advance(s, steps[0]);
      AdvanceInv(s, steps[0]);
      assert LetGo(s.a, s.b) && LetGo(s.b, s.a);
      if s.a.c.session.Some? && s.b.c.session.Some? {
        match steps[0]
        case ByA(act) => PerformAgree(s.a, s.b, act);
        case ByB(act) => AgreeSymmetric(s.a, s.b); PerformAgree(s.b, s.a, act); AgreeSymmetric(t.b, t.a);
      }
      ExecuteAgree(t, steps[1..]);
    }
  }

  lemma {:induction false} AgreeSymmetric(x: Host, y: Host)
    requires AgreeInv(x, y)
    ensures AgreeInv(y, x)
  {
  }

  /** The view a host has once it has finished the dispatch it may be inside of. */
  function SettledView(x: Host): View {
    if CommitQueuedBy(x) then EffectSent(x.c, x.stage.effect, x.stage.now).state.view else x.c.view
  }

  ghost predicate SameOutcome(v: View, w: View) {
    v.activeHost == w.activeHost && v.activeDisplay == w.activeDisplay && v.pointer == w.pointer
  }

  /**
   Commit agreement: at the moment either host applies its peer's Commit, in any run, both
   hosts show the same active host, the same display and the same pointer.
   */
  lemma {:induction false} CommitAgreement(s: System, steps: seq<Step>, toB: bool, m: Commit, now: U64)
    requires Initial(s) && EpochIdentifies(s.a.c.workspace, s.b.c.workspace)
    requires var t := Execute(s, steps);
             var (source, dest) := if toB then (t.a, t.b) else (t.b, t.a);
             && dest.c.session.Some? && dest.stage.Idle?
             && CommitMsg(m) in source.sent
             && ReceiveCommit(dest.c, SessionOf(dest), m, now).result == Ok(Applied)
    ensures var t := Execute(s, steps);
            var (source, dest) := if toB then (t.a, t.b) else (t.b, t.a);
            var after := Deliver(dest, CommitMsg(m), now);
            && after.c.view.activeHost == after.c.view.localHost
            && SameOutcome(after.c.view, SettledView(source))
  {
    hide Execute, Resolve, ReceiveCommit, EffectSent;
    InitialInv(s);
    ExecuteInv(s, steps);
    ExecuteAgree(s, steps);
    var t := Execute(s, steps);
    var (source, dest) := if toB then (t.a, t.b) else (t.b, t.a);
    ApplyStep(dest, source, m, now);
    CommitMoved(dest.c, SessionOf(dest), m, now, source.c.lastOut);
    if CommitQueuedBy(source) {
      FinishMoved(source.c, source.stage.effect, dest.c.lastOut);
    }
  }
}
