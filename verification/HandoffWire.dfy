/** What is on the wire is true: every queued message describes a crossing configured at its sender. */
module HandoffWire {
  import opened Base
  import opened Topology
  import opened Handoff
  import opened HandoffValidity
  import opened HandoffNetwork
  import opened HandoffSafety

  /** The message, sent by a host of this workspace to this peer, names a crossing from the one to the other. */
  ghost predicate True(w: Workspace, here: HostId, peer: HostId, m: Message) {
    match m
    case LeaveMsg(l) =>
      && l.id == l.sequence && l.epoch == w.protocolEpoch && l.sourceHost == here
      && var t := Resolve(w, l.sourceDisplay, l.edge, l.position);
         t.Some? && t.value.sourceHost == here && t.value.destHost == peer
    case EnterMsg(e) =>
      && e.id == e.sequence && e.epoch == w.protocolEpoch && e.sourceHost == here && e.destHost == peer
      && var t := Resolve(w, e.sourceDisplay, e.destEdge.Opposite(), e.position);
         t.Some? && t.value.sourceHost == here && t.value.destHost == peer && t.value.destDisplay == e.destDisplay
    case CommitMsg(k) =>
      && k.id == k.sequence && k.epoch == w.protocolEpoch && k.sourceHost == here && k.destHost == peer
      && OwnerOf(w, k.sourceDisplay) == Some(here) && OwnerOf(w, k.destDisplay) == Some(peer)
    case AckMsg(_) => true
  }

  ghost predicate Truthful(x: Host) {
    x.c.session.Some?
      && forall m | m in x.sent :: True(x.c.workspace, x.c.view.localHost, x.c.session.value.remoteHost, m)
  }

  /** What no operation between two hosts touches. */
  ghost predicate SameGround(c: Coordinator, d: Coordinator) {
    d.workspace == c.workspace && d.session == c.session && d.view.localHost == c.view.localHost
  }

  lemma {:induction false} PrepareGround(c: Coordinator, now: U64)
    ensures SameGround(c, Prepare(c, now).state)
  {
  }

  lemma {:induction false} AskGround(c: Coordinator, s: Session, edge: Edge, position: real, p: Pointer, now: U64)
    ensures SameGround(c, ProposeLeave(c, s, edge, position, now).state) && SameGround(c, ObservePointer(c, p).state)
  {
    PrepareGround(c, now);
    hide Resolve, Prepare;
  }

  lemma {:induction false} HearGround(c: Coordinator, s: Session, m: Message, now: U64)
    ensures SameGround(c, match m case LeaveMsg(l) => ReceiveLeave(c, s, l, now).state
                                  case EnterMsg(e) => ReceiveEnter(c, s, e, now).state
                                  case AckMsg(a) => ReceiveAck(c, s, a, now).state
                                  case CommitMsg(k) => ReceiveCommit(c, s, k, now).state)
  {
    PrepareGround(c, now);
    hide Resolve, Prepare;
  }

  lemma {:induction false} SendGround(c: Coordinator, e: Effect, now: U64)
    ensures SameGround(c, BeginDispatch(c, e, now).state) && SameGround(c, EffectSent(c, e, now).state)
    ensures SameGround(c, EffectFailed(c, e).state)
  {
    PrepareGround(c, now);
    hide Resolve, Prepare, EffectReady;
  }

  lemma {:induction false} PerformGround(x: Host, y: Host, act: Act)
    requires x.c.session.Some?
    ensures SameGround(x.c, Perform(x, y, act).c)
  {
    hide Resolve, ProposeLeave, ObservePointer, ReceiveLeave, ReceiveEnter, ReceiveAck, ReceiveCommit, BeginDispatch,
         EffectSent, EffectFailed, Prepare;
    if x.stage.Idle? {
      match act
      case DoPropose(edge, position, now) => AskGround(x.c, SessionOf(x), edge, position, x.c.fallback, now);
      case DoObserve(p) => AskGround(x.c, SessionOf(x), Left, 0.0, p, 0);
      case DoDeliver(k, now) => if k < |y.sent| { HearGround(x.c, SessionOf(x), y.sent[k], now); }
      case DoBegin(e, now) => SendGround(x.c, e, now);
      case DoAbandon(e) => SendGround(x.c, e, 0);
      case DoPoll(now) => PrepareGround(x.c, now);
      case _ =>
    } else {
      SendGround(x.c, x.stage.effect, x.stage.now);
    }
  }

  lemma {:induction false} QueuedIsTrue(x: Host, e: Effect, now: U64)
    requires Valid(x.c) && x.c.session.Some? && InDispatch(x.c, e, now)
    ensures True(x.c.workspace, x.c.view.localHost, x.c.session.value.remoteHost, e.message)
  {
    hide Resolve;
  }

  lemma {:induction false} PerformTruthful(x: Host, y: Host, act: Act)
    requires Valid(x.c) && StageOk(x) && Truthful(x)
    ensures Truthful(Perform(x, y, act))
  {
    PerformGround(x, y, act);
    var x' := Perform(x, y, act);
    if x.stage.Started? && act == DoEnqueue {
      QueuedIsTrue(x, x.stage.effect, x.stage.now);
    } else {
      SentSame(x, y, act);
    }
    hide Perform, Valid, StageOk, True;
  }

  lemma {:induction false} SentSame(x: Host, y: Host, act: Act)
    requires x.c.session.Some? && !(x.stage.Started? && act == DoEnqueue)
    ensures Perform(x, y, act).sent == x.sent
  {
    hide ProposeLeave, ObservePointer, ReceiveLeave, ReceiveEnter, ReceiveAck, ReceiveCommit, BeginDispatch,
         EffectSent, EffectFailed, Prepare;
  }

  lemma {:induction false} RunTruthful(s: System, steps: seq<Step>)
    requires SystemInv(s) && Truthful(s.a) && Truthful(s.b)
    ensures Truthful(Execute(s, steps).a) && Truthful(Execute(s, steps).b)
    decreases |steps|
  {
    hide Half, Perform, Truthful;
    if steps != [] {
      AdvanceInv(s, steps[0]);
      HalvesFit(s.a, s.b);
      HalvesFit(s.b, s.a);
      match steps[0] {
        case ByA(act) => PerformTruthful(s.a, s.b, act);
        case ByB(act) => PerformTruthful(s.b, s.a, act);
      }
      RunTruthful(Advance(s, steps[0]), steps[1..]);
    }
  }

  /** In every run each host queues only messages that describe a crossing configured at its own end, from itself to its
      peer. */
  lemma {:induction false} WireIsTrue(s: System, steps: seq<Step>)
    requires Initial(s)
    ensures Truthful(Execute(s, steps).a) && Truthful(Execute(s, steps).b)
  {
    hide Execute, Valid;
    InitialInv(s);
    RunTruthful(s, steps);
  }

  lemma {:induction false} HalvesFit(x: Host, y: Host)
    requires Half(x, y)
    ensures Valid(x.c) && StageOk(x) && x.c.session.Some?
  {
    hide Valid, StageOk;
  }
}
