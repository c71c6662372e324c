/** Replays: a message handled once has no further effect on authority or counters. */
module HandoffReplay {
  import opened Base
  import opened Topology
  import opened Handoff
  import opened HandoffValidity
  import opened HandoffNetwork
  import opened HandoffSafety
  import opened HandoffDiscipline

  /** The host reports success for this delivery. */
  predicate Handled(x: Host, m: Message, now: U64)
    requires x.c.session.Some?
  {
    match m
    case LeaveMsg(l) => ReceiveLeave(x.c, SessionOf(x), l, now).result.Ok?
    case EnterMsg(e) => ReceiveEnter(x.c, SessionOf(x), e, now).result.Ok?
    case AckMsg(a) => ReceiveAck(x.c, SessionOf(x), a, now).result.Ok?
    case CommitMsg(t) => ReceiveCommit(x.c, SessionOf(x), t, now).result.Ok?
  }

  /** Nothing pending can still be moved by this message. A Leave is only a hint: delivering one, handled before or
      not, never moves authority or counters. */
  predicate Spent(c: Coordinator, m: Message) {
    match m
    case LeaveMsg(_) => true
    case EnterMsg(e) => e.id <= c.lastIn
    case AckMsg(a) => a.id < c.lastOut || (a.id == c.lastOut && (c.outbound.None? || Committing(c)))
    case CommitMsg(t) => t.id <= c.lastIn && !(Promised(c) && c.inbound.value.enter.id == t.id)
  }

  lemma {:induction false} SpentOnce(x: Host, m: Message, now: U64)
    requires Valid(x.c) && Tombs(x.c) && x.c.session.Some? && Handled(x, m, now)
    ensures Spent(Deliver(x, m, now).c, m)
  {
    hide Resolve, ReceiveLeave, ReceiveEnter, ReceiveAck, ReceiveCommit;
    match m
    case LeaveMsg(_) =>
    case EnterMsg(e) => EnterOnce(x.c, SessionOf(x), e, now);
    case AckMsg(a) => AckOnce(x.c, SessionOf(x), a, now);
    case CommitMsg(t) => CommitOnce(x.c, SessionOf(x), t, now);
  }

  lemma {:induction false} EnterOnce(c: Coordinator, s: Session, e: Enter, now: U64)
    requires ReceiveEnter(c, s, e, now).result.Ok?
    ensures Spent(ReceiveEnter(c, s, e, now).state, EnterMsg(e))
  {
    hide Resolve, Expire, EnterAuthority, ResolveEnter;
  }

  lemma {:induction false} AckOnce(c: Coordinator, s: Session, a: Ack, now: U64)
    requires Valid(c) && Tombs(c) && ReceiveAck(c, s, a, now).result.Ok?
    ensures Spent(ReceiveAck(c, s, a, now).state, AckMsg(a))
  {
    hide Resolve;
    PrepareKept(c, now);
    PrepareSteady(c, now);
  }

  lemma {:induction false} CommitOnce(c: Coordinator, s: Session, t: Commit, now: U64)
    requires Valid(c) && Tombs(c) && ReceiveCommit(c, s, t, now).result.Ok?
    ensures Spent(ReceiveCommit(c, s, t, now).state, CommitMsg(t))
  {
    hide Resolve;
    PrepareKept(c, now);
    PrepareSteady(c, now);
  }

  lemma {:induction false} SpentThroughQuiet(c: Coordinator, d: Coordinator, bound: U64, m: Message)
    requires Spent(c, m) && Moved(c, d, bound) && Steady(c, d)
    ensures Spent(d, m)
  {
    hide Resolve, Valid;
  }

  lemma {:induction false} SpentThroughDelivery(x: Host, y: Host, n: Message, now: U64, m: Message)
    requires Inv(x, y) && Tombs(x.c) && x.stage.Idle? && n in y.sent && Spent(x.c, m)
    ensures Spent(Deliver(x, n, now).c, m)
  {
    hide Resolve, ReceiveLeave, ReceiveEnter, ReceiveAck, ReceiveCommit, Moved, Steady, EffectReady, MatchesOutbound;
    var bound := y.c.lastOut;
    var s := SessionOf(x);
    var d := Deliver(x, n, now).c;
    match n
    case LeaveMsg(l) =>
      assert Claim(n) == Some(l.id);
      LeaveMoved(x.c, s, l, now, bound); LeaveSteady(x.c, s, l, now); SpentThroughQuiet(x.c, d, bound, m);
    case EnterMsg(e) =>
      assert Claim(n) == Some(e.id);
      EnterMoved(x.c, s, e, now, bound); EnterSteady(x.c, s, e, now); SpentThroughQuiet(x.c, d, bound, m);
    case AckMsg(a) =>
      AckMoved(x.c, s, a, now, bound); AckSteady(x.c, s, a, now); SpentThroughQuiet(x.c, d, bound, m);
    case CommitMsg(t) =>
      CommitMoved(x.c, s, t, now, bound); CommitSteady(x.c, s, t, now);
      if ReceiveCommit(x.c, s, t, now).result != Ok(Applied) { SpentThroughQuiet(x.c, d, bound, m); }
  }

  lemma {:induction false} SpentThroughDispatch(x: Host, y: Host, act: Act, m: Message)
    requires Inv(x, y) && Tombs(x.c) && Spent(x.c, m)
    requires x.stage.Queued? || (x.stage.Idle? && (act.DoBegin? || act.DoPropose?))
    ensures Spent(Perform(x, y, act).c, m)
  {
    hide Resolve, ProposeLeave, BeginDispatch, EffectSent, EffectReady, Deliver, ObservePointer;
    var bound := y.c.lastOut;
    if x.stage.Queued? {
      FinishMoved(x.c, x.stage.effect, bound);
      FinishSteady(x.c, x.stage.effect);
    } else if act.DoBegin? {
      BeginMoved(x.c, act.effect, act.now, bound);
      BeginSteady(x.c, act.effect, act.now);
    } else {
      ProposeMoved(x.c, SessionOf(x), act.edge, act.position, act.now, bound);
      ProposeSteady(x.c, SessionOf(x), act.edge, act.position, act.now);
    }
  }

  lemma {:induction false} SpentStable(x: Host, y: Host, act: Act, m: Message)
    requires Inv(x, y) && Tombs(x.c) && Spent(x.c, m)
    ensures Spent(Perform(x, y, act).c, m)
  {
    hide Resolve, Half, Deliver, ProposeLeave, ObservePointer, BeginDispatch, EffectFailed, EffectSent, Prepare, Moved,
         Steady, Spent;
    HalfFacts(x, y);
    var bound := y.c.lastOut;
    var d := Perform(x, y, act).c;
    if x.stage.Queued? || (x.stage.Idle? && (act.DoBegin? || act.DoPropose?)) {
      SpentThroughDispatch(x, y, act, m);
    } else if x.stage.Idle? {
      match act
      case DoObserve(p) => ObserveMoved(x.c, p, bound); ObserveSteady(x.c, p); SpentThroughQuiet(x.c, d, bound, m);
      case DoDeliver(k, now) => if k < |y.sent| { SpentThroughDelivery(x, y, y.sent[k], now, m); }
      case DoAbandon(e) => AbandonMoved(x.c, e, bound); AbandonSteady(x.c, e); SpentThroughQuiet(x.c, d, bound, m);
      case DoPoll(now) => PrepareMoved(x.c, now, bound); PrepareSteady(x.c, now); SpentThroughQuiet(x.c, d, bound, m);
      case _ =>
    } else if act.DoFail? {
      AbandonMoved(x.c, x.stage.effect, bound); AbandonSteady(x.c, x.stage.effect); SpentThroughQuiet(x.c, d, bound, m);
    }
  }

  /** Authority and counters as the clock alone would have left them. */
  predicate Inert(c: Coordinator, d: Coordinator, now: U64) {
    && d.view.activeHost == c.view.activeHost
    && d.lastOut == c.lastOut
    && d.lastIn == Prepare(c, now).state.lastIn
  }

  lemma {:induction false} LeaveInert(c: Coordinator, s: Session, l: Leave, now: U64)
    requires Valid(c)
    ensures Inert(c, ReceiveLeave(c, s, l, now).state, now)
  {
    hide Resolve;
    PrepareKept(c, now);
  }

  lemma {:induction false} EnterInert(c: Coordinator, s: Session, e: Enter, now: U64)
    requires Valid(c) && Spent(c, EnterMsg(e))
    ensures Inert(c, ReceiveEnter(c, s, e, now).state, now)
  {
    hide Resolve, DecideEnter;
    PrepareKept(c, now);
  }

  lemma {:induction false} AckInert(c: Coordinator, s: Session, a: Ack, now: U64)
    requires Valid(c) && Spent(c, AckMsg(a))
    ensures Inert(c, ReceiveAck(c, s, a, now).state, now)
  {
    hide Resolve;
    PrepareKept(c, now);
  }

  lemma {:induction false} CommitInert(c: Coordinator, s: Session, t: Commit, now: U64)
    requires Valid(c) && Spent(c, CommitMsg(t))
    ensures Inert(c, ReceiveCommit(c, s, t, now).state, now)
    ensures ReceiveCommit(c, s, t, now).result != Ok(Applied)
  {
    hide Resolve;
    PrepareKept(c, now);
  }

  /** Delivering a spent message does no more than the clock alone would have done. */
  lemma {:induction false} SpentInert(x: Host, m: Message, now: U64)
    requires Valid(x.c) && x.c.session.Some? && Spent(x.c, m)
    ensures Inert(x.c, Deliver(x, m, now).c, now) && Deliver(x, m, now).applied == x.applied
  {
    hide Resolve, ReceiveLeave, ReceiveEnter, ReceiveAck, ReceiveCommit, Inert, Spent;
    var s := SessionOf(x);
    match m
    case LeaveMsg(l) => LeaveInert(x.c, s, l, now);
    case EnterMsg(e) => EnterInert(x.c, s, e, now);
    case AckMsg(a) => AckInert(x.c, s, a, now);
    case CommitMsg(t) => CommitInert(x.c, s, t, now);
  }

  /** A message the receiver has handled stays spent for the rest of every run. */
  lemma {:induction false} SpentForever(s: System, steps: seq<Step>, atB: bool, m: Message)
    requires SystemInv(s) && Disciplined(s) && Spent(if atB then s.b.c else s.a.c, m)
    ensures var t := Execute(s, steps); Spent(if atB then t.b.c else t.a.c, m)
    decreases |steps|
  {
    hide Half, Perform, TraceOk, AnswerOk, AppliedOk, Spent;
    if steps != [] {
      HalfFacts(s.a, s.b);
      HalfFacts(s.b, s.a);
      AdvanceInv(s, steps[0]);
      AdvanceDisc(s, steps[0]);
      match steps[0] {
        case ByA(act) => if !atB { SpentStable(s.a, s.b, act, m); }
        case ByB(act) => if atB { SpentStable(s.b, s.a, act, m); }
      }
      SpentForever(Advance(s, steps[0]), steps[1..], atB, m);
    }
  }

  function ReceiverOf(s: System, atB: bool): Host {
    if atB then s.b else s.a
  }

  function SenderTo(s: System, atB: bool): Host {
    if atB then s.a else s.b
  }

  function Delivery(atB: bool, k: nat, now: U64): Step {
    if atB then ByB(DoDeliver(k, now)) else ByA(DoDeliver(k, now))
  }

  /**
   Replays are inert: once a host has reported success for a message, delivering it again at
   any later point of any run changes neither the active host nor a sequence counter, and
   applies no Commit.
   */
  lemma {:induction false} ReplayInert(s: System, before: seq<Step>, atB: bool, k: nat, first: U64, after: seq<Step>,
                                       again: U64)
    requires Initial(s)
    requires var t := Execute(s, before);
             var x := ReceiverOf(t, atB);
             && x.c.session.Some? && x.stage.Idle?
             && k < |SenderTo(t, atB).sent| && Handled(x, SenderTo(t, atB).sent[k], first)
    ensures var t := Execute(s, before);
            var x := ReceiverOf(Execute(Advance(t, Delivery(atB, k, first)), after), atB);
            && x.c.session.Some?
            && var d := Deliver(x, SenderTo(t, atB).sent[k], again);
            && Inert(x.c, d.c, again)
            && d.applied == x.applied
  {
    hide Execute, Half, TraceOk, AnswerOk, AppliedOk, Deliver, Handled, Spent, Prepare;
    var t := Execute(s, before);
    var m := SenderTo(t, atB).sent[k];
    InitialInv(s); InitialDisc(s);
    ExecuteInv(s, before); ExecuteDisc(s, before);
    var t1 := Advance(t, Delivery(atB, k, first));
    HalfFacts(t.a, t.b); HalfFacts(t.b, t.a);
    SpentOnce(ReceiverOf(t, atB), m, first);
    AdvanceInv(t, Delivery(atB, k, first)); AdvanceDisc(t, Delivery(atB, k, first));
    SpentForever(t1, after, atB, m);
    var t2 := Execute(t1, after);
    ExecuteInv(t1, after); ExecuteDisc(t1, after);
    HalfFacts(t2.a, t2.b); HalfFacts(t2.b, t2.a);
    SpentInert(ReceiverOf(t2, atB), m, again);
  }
}
