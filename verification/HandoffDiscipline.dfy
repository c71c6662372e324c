/**
 Message discipline: what a host sends for one transition, what must have been answered
 before it commits, and that nothing delivered twice takes effect twice.
 */
module HandoffDiscipline {
  import opened Base
  import opened Topology
  import opened Handoff
  import opened HandoffValidity
  import opened HandoffNetwork
  import opened HandoffSafety

  // ---------------------------------------------------------------- replay tombstones

  /** Tombstones name transitions that can no longer be pending. */
  ghost predicate Tombs(c: Coordinator) {
    && (c.completedOut.Some? ==>
          var id := c.completedOut.value.ack.id;
          id < c.lastOut || (id == c.lastOut && c.outbound.None?))
    && (c.completedIn.Some? && c.completedIn.value.commit.Some? ==>
          var id := c.completedIn.value.commit.value.id;
          id <= c.lastIn && (Promised(c) ==> id < c.inbound.value.enter.id))
  }

  /** A pending proposal survives an operation only in the same phase, or by being acknowledged. */
  ghost predicate Steady(c: Coordinator, d: Coordinator) {
    && Tombs(d)
    && (d.outbound.Some? ==>
          && c.outbound.Some?
          && (|| (d.outbound.value.phase == c.outbound.value.phase
                  && d.outbound.value.acceptedAck == c.outbound.value.acceptedAck)
              || (c.outbound.value.phase == AwaitingAck && d.outbound.value.phase == CommitQueued)))
  }

  lemma {:induction false} PrepareSteady(c: Coordinator, now: U64)
    requires Valid(c) && Tombs(c)
    ensures Steady(c, Prepare(c, now).state)
  {
    hide Resolve;
  }

  lemma {:induction false} ObserveSteady(c: Coordinator, p: Pointer)
    requires Valid(c) && Tombs(c)
    ensures Steady(c, ObservePointer(c, p).state)
  {
    hide Resolve;
  }

  lemma {:induction false} LeaveSteady(c: Coordinator, s: Session, m: Leave, now: U64)
    requires Valid(c) && Tombs(c)
    ensures Steady(c, ReceiveLeave(c, s, m, now).state)
  {
    hide Resolve;
    PrepareSteady(c, now);
  }

  lemma {:induction false} EnterSteady(c: Coordinator, s: Session, m: Enter, now: U64)
    requires Valid(c) && Tombs(c)
    ensures Steady(c, ReceiveEnter(c, s, m, now).state)
  {
    hide Resolve, DecideEnter, ReplayedEnter;
    PrepareSteady(c, now);
    PrepareKept(c, now);
    var p := Prepare(c, now).state;
    ReplayedEnterSteady(p, s, m);
    DecideSteady(p, s, m, now);
  }

  lemma {:induction false} ReplayedEnterSteady(c: Coordinator, s: Session, m: Enter)
    requires Tombs(c)
    ensures Steady(c, ReplayedEnter(c, s, m).state)
  {
  }

  lemma {:induction false} RejectSteady(c: Coordinator, s: Session, m: Enter, verdict: Verdict)
    requires Tombs(c) && m.id == c.lastIn + 1
    ensures Steady(c, Reject(c, s, m, verdict).state)
  {
  }

  lemma {:induction false} AcceptSteady(c: Coordinator, s: Session, m: Enter, t: Transition, deadline: U64)
    requires Tombs(c) && m.id == c.lastIn + 1
    ensures Steady(c, Accept(c, s, m, t, deadline).state)
  {
  }

  lemma {:induction false} DecideSteady(c: Coordinator, s: Session, m: Enter, now: U64)
    requires Tombs(c)
    ensures m.id == c.lastIn + 1 ==> Steady(c, DecideEnter(c, s, m, now).state)
  {
    if m.id == c.lastIn + 1 {
      assert Steady(c, c);
      hide Resolve, EnterAuthority, ResolveEnter, Steady, Reject, Accept;
      forall v { RejectSteady(c, s, m, v); }
      forall t, deadline { AcceptSteady(c, s, m, t, deadline); }
    }
  }

  lemma {:induction false} AckSteady(c: Coordinator, s: Session, a: Ack, now: U64)
    requires Valid(c) && Tombs(c)
    ensures Steady(c, ReceiveAck(c, s, a, now).state)
  {
    hide Resolve;
    PrepareSteady(c, now);
  }

  lemma {:induction false} CommitSteady(c: Coordinator, s: Session, m: Commit, now: U64)
    requires Valid(c) && Tombs(c)
    ensures Steady(c, ReceiveCommit(c, s, m, now).state)
  {
    hide Resolve;
    PrepareSteady(c, now);
  }

  lemma {:induction false} AbandonSteady(c: Coordinator, e: Effect)
    requires Valid(c) && Tombs(c)
    ensures Steady(c, EffectFailed(c, e).state)
  {
    hide Resolve;
  }

  // ---------------------------------------------------------------- the discipline invariant

  /** The claims made in `sent` for one transition identifier, in sending order. */
  function Claims(sent: seq<Message>, id: U64): seq<Message>
    decreases |sent|
  {
    if sent == [] then []
    else
      var m := sent[|sent| - 1];
      Claims(sent[..|sent| - 1], id) + (if Claim(m) == Some(id) then [m] else [])
  }

  lemma {:induction false} ClaimsAppend(sent: seq<Message>, m: Message, id: U64)
    ensures Claims(sent + [m], id) == Claims(sent, id) + (if Claim(m) == Some(id) then [m] else [])
  {
    assert (sent + [m])[..|sent|] == sent;
  }

  /** The whole conversation of a source about one transition. */
  function Script(id: U64, epoch: U64, t: Transition): (r: seq<Message>)
    ensures |r| == 3
  {
    [LeaveMsg(MakeLeave(id, epoch, t)), EnterMsg(MakeEnter(id, epoch, t)),
     CommitMsg(MakeCommit(MakeEnter(id, epoch, t), t))]
  }

  function Ordinal(p: Phase): nat {
    match p
    case LeaveQueued => 0
    case EnterQueued => 1
    case _ => 2
  }

  /** How much of the script of the pending proposal has been queued. */
  function Progress(x: Host): (n: nat)
    requires x.c.outbound.Some?
    ensures n <= 3
  {
    Ordinal(x.c.outbound.value.phase)
    + (if x.stage.Queued? && Claim(x.stage.effect.message).Some? then 1 else 0)
  }

  ghost predicate OnScript(x: Host, id: U64) {
    exists t :: Claims(x.sent, id) <= Script(id, x.c.workspace.protocolEpoch, t)
  }

  ghost predicate TraceOk(x: Host) {
    && (forall id: U64 :: id > x.c.lastOut ==> Claims(x.sent, id) == [])
    && (forall id: U64 :: id <= x.c.lastOut ==> OnScript(x, id))
    && (x.c.outbound.Some? ==>
          Claims(x.sent, x.c.lastOut)
          == Script(x.c.lastOut, x.c.workspace.protocolEpoch, x.c.outbound.value.transition)[..Progress(x)])
  }

  /** The acknowledgement `a` accepts exactly the transition that `m` commits. */
  predicate Answers(a: Ack, m: Commit) {
    a.id == m.id && a.verdict == Accepted && a.epoch == m.epoch && a.receiver == m.destHost
      && a.display == m.destDisplay
  }

  ghost predicate Answered(m: Commit, y: Host) {
    exists a :: AckMsg(a) in y.sent && Answers(a, m)
  }

  ghost predicate AnswerOk(x: Host, y: Host) {
    && (Committing(x.c) ==> var o := x.c.outbound.value; Answered(MakeCommit(o.enter, o.transition), y))
    && (forall m | m in x.sent && m.CommitMsg? :: Answered(m.commit, y))
  }

  ghost predicate AppliedOk(x: Host) {
    && (forall i, j | 0 <= i < j < |x.applied| :: x.applied[i] < x.applied[j])
    && (forall i | 0 <= i < |x.applied| ::
          x.applied[i] <= x.c.lastIn && (Promised(x.c) ==> x.applied[i] < x.c.inbound.value.enter.id))
  }

  ghost predicate Disc(x: Host, y: Host) {
    Tombs(x.c) && TraceOk(x) && AnswerOk(x, y) && AppliedOk(x)
  }

  lemma {:induction false} AckAnswers(c: Coordinator, s: Session, a: Ack, now: U64)
    requires Valid(c)
    ensures var d := ReceiveAck(c, s, a, now).state;
            Committing(d) ==>
              Committing(c) || Answers(a, MakeCommit(d.outbound.value.enter, d.outbound.value.transition))
  {
    hide Resolve;
    PrepareKept(c, now);
  }

  lemma {:induction false} QuietDisc(x: Host, x': Host, y: Host)
    requires Inv(x, y) && Disc(x, y) && !x.stage.Queued? && !x'.stage.Queued?
    requires x'.sent == x.sent && x'.applied == x.applied
    requires Moved(x.c, x'.c, y.c.lastOut) && Steady(x.c, x'.c)
    requires Committing(x'.c) && !Committing(x.c) ==>
               Answered(MakeCommit(x'.c.outbound.value.enter, x'.c.outbound.value.transition), y)
    ensures Disc(x', y)
  {
    hide Resolve, Claims, Script, EffectReady, MatchesOutbound;
    forall id: U64 | id <= x'.c.lastOut ensures OnScript(x', id) {
      assert OnScript(x, id);
      var t :| Claims(x.sent, id) <= Script(id, x.c.workspace.protocolEpoch, t);
      assert Claims(x'.sent, id) <= Script(id, x'.c.workspace.protocolEpoch, t);
    }
  }

  /** The peer queuing more never invalidates what this host has claimed. */
  lemma {:induction false} PeerDisc(x: Host, y: Host, y': Host)
    requires Disc(x, y) && (forall m | m in y.sent :: m in y'.sent)
    ensures Disc(x, y')
  {
    hide Claims, Script;
    forall m: Commit | Answered(m, y) ensures Answered(m, y') {
    }
  }

  lemma {:induction false} ProposeDisc(x: Host, y: Host, edge: Edge, position: real, now: U64)
    requires Inv(x, y) && Disc(x, y) && x.stage.Idle?
    ensures Disc(Perform(x, y, DoPropose(edge, position, now)), y)
  {
    hide Resolve, Claims, Script, ProposeLeave, EffectReady, MatchesOutbound;
    var x' := Perform(x, y, DoPropose(edge, position, now));
    var s := SessionOf(x);
    ProposeMoved(x.c, s, edge, position, now, y.c.lastOut);
    ProposeSteady(x.c, s, edge, position, now);
    if ProposeLeave(x.c, s, edge, position, now).result.Err? {
      QuietDisc(x, x', y);
    } else {
      var quiet := x.(c := x'.c.(lastOut := x.c.lastOut, outbound := None));
      QuietDisc(x, quiet, y);
      forall id: U64 | id <= x'.c.lastOut ensures OnScript(x', id) {
        if id <= x.c.lastOut {
          assert OnScript(quiet, id);
          var t :| Claims(quiet.sent, id) <= Script(id, quiet.c.workspace.protocolEpoch, t);
          assert Claims(x'.sent, id) <= Script(id, x'.c.workspace.protocolEpoch, t);
        } else {
          var t := x'.c.outbound.value.transition;
          assert Claims(x'.sent, id) <= Script(id, x'.c.workspace.protocolEpoch, t);
        }
      }
    }
  }

  lemma {:induction false} ProposeSteady(c: Coordinator, s: Session, edge: Edge, position: real, now: U64)
    requires Valid(c) && Tombs(c)
    ensures var t := ProposeLeave(c, s, edge, position, now);
            && (t.result.Err? ==> Steady(c, t.state))
            && (t.result.Ok? ==> Tombs(t.state) && Steady(c, t.state.(lastOut := c.lastOut, outbound := None)))
  {
    hide Resolve;
    PrepareSteady(c, now);
  }

  lemma {:induction false} DeliverDisc(x: Host, y: Host, m: Message, now: U64)
    requires Inv(x, y) && Disc(x, y) && x.stage.Idle? && m in y.sent
    ensures Disc(Deliver(x, m, now), y)
  {
    hide Resolve, ReceiveLeave, ReceiveEnter, ReceiveAck, ReceiveCommit, TraceOk, EffectReady, MatchesOutbound, Moved,
         Steady;
    var bound := y.c.lastOut;
    var s := SessionOf(x);
    var x' := Deliver(x, m, now);
    match m
    case LeaveMsg(l) =>
      assert Claim(m) == Some(l.id);
      LeaveMoved(x.c, s, l, now, bound); LeaveSteady(x.c, s, l, now); QuietDisc(x, x', y);
    case EnterMsg(e) =>
      assert Claim(m) == Some(e.id);
      EnterMoved(x.c, s, e, now, bound); EnterSteady(x.c, s, e, now); QuietDisc(x, x', y);
    case AckMsg(a) =>
      AckMoved(x.c, s, a, now, bound); AckSteady(x.c, s, a, now); AckAnswers(x.c, s, a, now); QuietDisc(x, x', y);
    case CommitMsg(t) =>
      CommitMoved(x.c, s, t, now, bound);
      CommitSteady(x.c, s, t, now);
      if ReceiveCommit(x.c, s, t, now).result == Ok(Applied) {
        ApplyDisc(x, y, t, now);
      } else {
        QuietDisc(x, x', y);
      }
  }

  /** A Commit is applied under an identifier above every one applied before. */
  lemma {:induction false} ApplyDisc(x: Host, y: Host, m: Commit, now: U64)
    requires Inv(x, y) && Disc(x, y) && x.stage.Idle? && CommitMsg(m) in y.sent
    requires ReceiveCommit(x.c, SessionOf(x), m, now).result == Ok(Applied)
    ensures Disc(Deliver(x, CommitMsg(m), now), y)
  {
    hide Resolve, ReceiveCommit, Claims, Script, EffectReady, MatchesOutbound;
    CommitMoved(x.c, SessionOf(x), m, now, y.c.lastOut);
    CommitSteady(x.c, SessionOf(x), m, now);
    var x' := Deliver(x, CommitMsg(m), now);
    forall id: U64 | id <= x'.c.lastOut ensures OnScript(x', id) {
      assert OnScript(x, id);
      var t :| Claims(x.sent, id) <= Script(id, x.c.workspace.protocolEpoch, t);
      assert Claims(x'.sent, id) <= Script(id, x'.c.workspace.protocolEpoch, t);
    }
  }

  lemma {:induction false} BeginDisc(x: Host, y: Host, e: Effect, now: U64)
    requires Inv(x, y) && Disc(x, y) && x.stage.Idle?
    ensures Disc(Perform(x, y, DoBegin(e, now)), y)
  {
    hide Resolve, BeginDispatch, Claims, Script, EffectReady, MatchesOutbound;
    BeginMoved(x.c, e, now, y.c.lastOut);
    BeginSteady(x.c, e, now);
    var x' := Perform(x, y, DoBegin(e, now));
    if BeginDispatch(x.c, e, now).result.Err? || e.purpose != ForCommit {
      QuietDisc(x, x', y);
    } else {
      var quiet := x.(c := x'.c.(outbound := Some(x.c.outbound.value)));
      QuietDisc(x, quiet, y);
      forall id: U64 | id <= x'.c.lastOut ensures OnScript(x', id) {
        assert OnScript(quiet, id);
        var t :| Claims(quiet.sent, id) <= Script(id, quiet.c.workspace.protocolEpoch, t);
        assert Claims(x'.sent, id) <= Script(id, x'.c.workspace.protocolEpoch, t);
      }
    }
  }

  lemma {:induction false} BeginSteady(c: Coordinator, e: Effect, now: U64)
    requires Valid(c) && Tombs(c)
    ensures var t := BeginDispatch(c, e, now);
            && Tombs(t.state)
            && (t.result.Err? || e.purpose != ForCommit ==> Steady(c, t.state))
            && (t.result.Ok? && e.purpose == ForCommit ==>
                  c.outbound.Some? && c.outbound.value.phase == CommitQueued
                  && Steady(c, t.state.(outbound := c.outbound)))
  {
    hide Resolve;
    PrepareSteady(c, now);
  }

  /** Queuing one more message of the script, or an acknowledgement. */
  lemma {:induction false} EnqueueDisc(x: Host, y: Host)
    requires Inv(x, y) && Disc(x, y) && x.stage.Started?
    ensures Disc(Perform(x, y, DoEnqueue), y)
  {
    hide Resolve, Claims;
    var x' := Perform(x, y, DoEnqueue);
    var m := x.stage.effect.message;
    var epoch := x.c.workspace.protocolEpoch;
    forall id: U64 ensures Claims(x'.sent, id) == Claims(x.sent, id) + (if Claim(m) == Some(id) then [m] else []) {
      ClaimsAppend(x.sent, m, id);
    }
    if Claim(m).Some? {
      var o := x.c.outbound.value;
      assert Claim(m).value == x.c.lastOut && m == Script(o.id, epoch, o.transition)[Progress(x)];
      assert Claims(x'.sent, x.c.lastOut) == Script(o.id, epoch, o.transition)[..Progress(x')];
    }
    forall id: U64 | id <= x'.c.lastOut ensures OnScript(x', id) {
      if Claim(m) == Some(id) {
        var t := x.c.outbound.value.transition;
        assert Claims(x'.sent, id) <= Script(id, epoch, t);
      } else {
        assert OnScript(x, id);
        var t :| Claims(x.sent, id) <= Script(id, epoch, t);
        assert Claims(x'.sent, id) <= Script(id, epoch, t);
      }
    }
    forall n | n in x'.sent && n.CommitMsg? ensures Answered(n.commit, y) {
      if n !in x.sent { assert n in [m]; }
    }
  }

  lemma {:induction false} FinishSteady(c: Coordinator, e: Effect)
    requires Valid(c) && Tombs(c) && InDispatch(c, e, c.now) && c.lifecycle == Running && c.healthy
    ensures var d := EffectSent(c, e, c.now).state;
            && Tombs(d)
            && (Committing(d) ==> Committing(c) && d.outbound == c.outbound)
            && (Committing(c) && d.outbound.Some? ==> Committing(d))
            && (d.outbound.Some? ==>
                  c.outbound.Some? && Ordinal(d.outbound.value.phase)
                  == Ordinal(c.outbound.value.phase) + (if Claim(e.message).Some? then 1 else 0))
  {
    hide Resolve;
    PrepareAgain(c);
  }

  lemma {:induction false} FinishDisc(x: Host, y: Host)
    requires Inv(x, y) && Disc(x, y) && x.stage.Queued?
    ensures Disc(Perform(x, y, DoFinish), y)
  {
    hide Resolve, EffectSent, Claims, Script, EffectReady;
    var e := x.stage.effect;
    FinishMoved(x.c, e, y.c.lastOut);
    FinishSteady(x.c, e);
    var x' := Perform(x, y, DoFinish);
    forall id: U64 | id <= x'.c.lastOut ensures OnScript(x', id) {
      assert OnScript(x, id);
      var t :| Claims(x.sent, id) <= Script(id, x.c.workspace.protocolEpoch, t);
      assert Claims(x'.sent, id) <= Script(id, x'.c.workspace.protocolEpoch, t);
    }
  }

  lemma {:induction false} PerformDisc(x: Host, y: Host, act: Act)
    requires Inv(x, y) && Disc(x, y)
    ensures Disc(Perform(x, y, act), y)
    ensures forall m | m in x.sent :: m in Perform(x, y, act).sent
  {
    hide Resolve, Half, Deliver, ProposeLeave, ObservePointer, BeginDispatch, EffectFailed, EffectSent, Prepare, Moved,
         Steady, TraceOk, AnswerOk, AppliedOk;
    HalfFacts(x, y);
    var bound := y.c.lastOut;
    var x' := Perform(x, y, act);
    if x.stage.Idle? {
      match act
      case DoPropose(edge, position, now) => ProposeDisc(x, y, edge, position, now);
      case DoObserve(p) => ObserveMoved(x.c, p, bound); ObserveSteady(x.c, p); QuietDisc(x, x', y);
      case DoDeliver(k, now) => if k < |y.sent| { DeliverDisc(x, y, y.sent[k], now); DeliverSent(x, y.sent[k], now); }
      case DoBegin(e, now) => BeginDisc(x, y, e, now);
      case DoAbandon(e) => AbandonMoved(x.c, e, bound); AbandonSteady(x.c, e); QuietDisc(x, x', y);
      case DoPoll(now) => PrepareMoved(x.c, now, bound); PrepareSteady(x.c, now); QuietDisc(x, x', y);
      case _ =>
    } else {
      match (x.stage, act)
      case (Started(e, now), DoEnqueue) => EnqueueDisc(x, y);
      case (Started(e, now), DoFail) => AbandonMoved(x.c, e, bound); AbandonSteady(x.c, e); QuietDisc(x, x', y);
      case (Queued(e, now), DoFinish) => FinishDisc(x, y);
      case _ =>
    }
  }

  lemma {:induction false} DeliverSent(x: Host, m: Message, now: U64)
    requires x.c.session.Some?
    ensures Deliver(x, m, now).sent == x.sent
  {
  }

  // ---------------------------------------------------------------- whole runs

  ghost predicate Disciplined(s: System) {
    Disc(s.a, s.b) && Disc(s.b, s.a)
  }

  lemma {:induction false} AdvanceDisc(s: System, step: Step)
    requires SystemInv(s) && Disciplined(s)
    ensures Disciplined(Advance(s, step))
  {
    hide Half, Perform, Disc;
    HalfFacts(s.a, s.b);
    HalfFacts(s.b, s.a);
    match step
    case ByA(act) => PerformDisc(s.a, s.b, act); PeerDisc(s.b, s.a, Perform(s.a, s.b, act));
    case ByB(act) => PerformDisc(s.b, s.a, act); PeerDisc(s.a, s.b, Perform(s.b, s.a, act));
  }

  lemma {:induction false} ExecuteDisc(s: System, steps: seq<Step>)
    requires SystemInv(s) && Disciplined(s)
    ensures Disciplined(Execute(s, steps))
    decreases |steps|
  {
    hide SystemInv, Disciplined, Advance;
    if steps != [] {
      AdvanceInv(s, steps[0]);
      AdvanceDisc(s, steps[0]);
      ExecuteDisc(Advance(s, steps[0]), steps[1..]);
    }
  }

  lemma {:induction false} InitialDisc(s: System)
    requires Initial(s)
    ensures Disciplined(s)
  {
    forall x: Host, id: U64 | x.sent == [] ensures OnScript(x, id) {
      var t: Transition :| true;
      assert Claims(x.sent, id) <= Script(id, x.c.workspace.protocolEpoch, t);
    }
  }

  /**
   Two-phase discipline: what a host has queued about any one transition identifier is a
   prefix of Leave, Enter, Commit for one single transition.
   */
  lemma {:induction false} TwoPhase(s: System, steps: seq<Step>, id: U64)
    requires Initial(s)
    ensures var x := Execute(s, steps).a;
            exists t :: Claims(x.sent, id) <= Script(id, x.c.workspace.protocolEpoch, t)
    ensures var x := Execute(s, steps).b;
            exists t :: Claims(x.sent, id) <= Script(id, x.c.workspace.protocolEpoch, t)
  {
    hide Execute, Claims, Script;
    InitialInv(s);
    InitialDisc(s);
    ExecuteDisc(s, steps);
    var t := Execute(s, steps);
    ScriptEverywhere(t.a, t.b, id);
    ScriptEverywhere(t.b, t.a, id);
  }

  lemma {:induction false} ScriptEverywhere(x: Host, y: Host, id: U64)
    requires Disc(x, y)
    ensures OnScript(x, id)
  {
    hide Claims, Script;
    if id > x.c.lastOut {
      var t: Transition :| true;
      assert Claims(x.sent, id) <= Script(id, x.c.workspace.protocolEpoch, t);
    }
  }

  /** No Commit is ever queued that the peer has not accepted with exactly matching fields. */
  lemma {:induction false} CommitAnswered(s: System, steps: seq<Step>, m: Commit)
    requires Initial(s)
    ensures var t := Execute(s, steps);
            && (CommitMsg(m) in t.a.sent ==> exists a :: AckMsg(a) in t.b.sent && Answers(a, m))
            && (CommitMsg(m) in t.b.sent ==> exists a :: AckMsg(a) in t.a.sent && Answers(a, m))
  {
    hide Execute, Claims, Script;
    InitialInv(s);
    InitialDisc(s);
    ExecuteDisc(s, steps);
    var t := Execute(s, steps);
    assert CommitMsg(m) in t.a.sent ==> Answered(m, t.b);
    assert CommitMsg(m) in t.b.sent ==> Answered(m, t.a);
  }

  /** Each host applies Commits under strictly increasing identifiers: none is applied twice. */
  lemma {:induction false} AppliedOnce(s: System, steps: seq<Step>)
    requires Initial(s)
    ensures var t := Execute(s, steps);
            && (forall i, j | 0 <= i < j < |t.a.applied| :: t.a.applied[i] < t.a.applied[j])
            && (forall i, j | 0 <= i < j < |t.b.applied| :: t.b.applied[i] < t.b.applied[j])
  {
    hide Execute, Claims, Script;
    InitialInv(s);
    InitialDisc(s);
    ExecuteDisc(s, steps);
  }
}
