/** Single authority: in every run of two connected hosts at most one of them has it. */
module HandoffSafety {
  import opened Base
  import opened Topology
  import opened Handoff
  import opened HandoffValidity
  import opened HandoffNetwork

  // ---------------------------------------------------------------- what one operation may move

  ghost predicate Bounded(c: Coordinator, bound: U64) {
    && c.lastIn <= bound
    && (c.inbound.Some? ==> c.inbound.value.enter.id <= bound)
  }

  predicate Promised(c: Coordinator) {
    c.inbound.Some? && !c.inbound.value.Hint?
  }

  predicate Committing(c: Coordinator) {
    c.outbound.Some? && (c.outbound.value.phase == CommitQueued || c.outbound.value.phase == CommitDispatching)
  }

  /**
   The effect of any operation that neither proposes, commits nor completes a Commit, when
   everything the peer ever claimed is at most `bound`.
   */
  ghost predicate Moved(c: Coordinator, d: Coordinator, bound: U64) {
    && Kept(c, d)
    && d.session == c.session && d.healthy == c.healthy && d.lifecycle == c.lifecycle && d.workspace == c.workspace
    && (c.view.activeHost != c.view.localHost ==> d.view == c.view)
    && (c.view.activeHost == c.view.localHost ==> d.view.activeHost == d.view.localHost)
    && RepliesOk(d)
    && d.lastOut == c.lastOut
    && c.lastIn <= d.lastIn && Bounded(d, bound)
    && (Promised(d) ==>
          || (Promised(c) && d.inbound.value.enter == c.inbound.value.enter
              && d.inbound.value.transition == c.inbound.value.transition)
          || d.inbound.value.enter.id > c.lastIn)
    && (d.outbound.Some? ==> c.outbound.Some? && d.outbound.value.transition == c.outbound.value.transition)
    && (d.outbound.Some? && d.outbound.value.phase == CommitDispatching ==> c.outbound.value.phase == CommitDispatching)
    && (c.inbound.None? && c.lastIn == bound ==> d.inbound.None?)
  }

  lemma {:induction false} PrepareMoved(c: Coordinator, now: U64, bound: U64)
    requires Valid(c) && RepliesOk(c) && Bounded(c, bound)
    ensures Moved(c, Prepare(c, now).state, bound)
    ensures Committing(Prepare(c, now).state) ==> Committing(c)
  {
    hide Resolve;
  }

  lemma {:induction false} ClassifyMoved(c: Coordinator, id: U64, sequence: U64, bound: U64)
    requires Valid(c) && RepliesOk(c) && Bounded(c, bound)
    ensures Moved(c, Classify(c, id, sequence).state, bound)
    ensures Committing(Classify(c, id, sequence).state) ==> Committing(c)
  {
    hide Resolve;
  }

  lemma {:induction false} MovedTrans(c: Coordinator, d: Coordinator, e: Coordinator, bound: U64)
    requires Bounded(c, bound) && Moved(c, d, bound) && Moved(d, e, bound)
    ensures Moved(c, e, bound)
  {
    hide Resolve, Valid;
  }

  lemma {:induction false} ObserveMoved(c: Coordinator, p: Pointer, bound: U64)
    requires Valid(c) && RepliesOk(c) && Bounded(c, bound)
    ensures Moved(c, ObservePointer(c, p).state, bound)
    ensures Committing(ObservePointer(c, p).state) ==> Committing(c)
  {
    hide Resolve;
  }

  lemma {:induction false} AcceptLeaveMoved(c: Coordinator, s: Session, m: Leave, bound: U64)
    requires Valid(c) && RepliesOk(c) && Bounded(c, bound)
    requires c.session == Some(s) && m.id == c.lastIn + 1 <= bound
    ensures Moved(c, AcceptLeave(c, s, m, c.now).state, bound)
    ensures Committing(AcceptLeave(c, s, m, c.now).state) ==> Committing(c)
  {
    hide Resolve;
  }

  lemma {:induction false} LeaveMoved(c: Coordinator, s: Session, m: Leave, now: U64, bound: U64)
    requires Valid(c) && RepliesOk(c) && Bounded(c, bound) && m.id <= bound
    ensures Moved(c, ReceiveLeave(c, s, m, now).state, bound)
    ensures Committing(ReceiveLeave(c, s, m, now).state) ==> Committing(c)
  {
    hide Resolve, AcceptLeave, Moved;
    var p := Prepare(c, now);
    PrepareMoved(c, now, bound);
    var after := ReceiveLeave(c, s, m, now).state;
    assert Valid(p.state) && RepliesOk(p.state) && Bounded(p.state, bound) by { MovedFacts(c, p.state, bound); }
    if p.result.Ok? && RequireAvailable(p.state, s).Ok? && p.state.reply.None? {
      var k := Classify(p.state, m.id, m.sequence);
      ClassifyMoved(p.state, m.id, m.sequence, bound);
      MovedTrans(c, p.state, k.state, bound);
      if k.result.Ok? && k.result.value.Expected? {
        AcceptLeaveMoved(p.state, s, m, bound);
        MovedTrans(c, p.state, after, bound);
      }
    }
  }

  lemma {:induction false} MovedFacts(c: Coordinator, d: Coordinator, bound: U64)
    requires Moved(c, d, bound)
    ensures Kept(c, d) && Valid(d) && RepliesOk(d) && Bounded(d, bound) && d.lastIn >= c.lastIn
            && d.session == c.session
  {
    hide Resolve;
  }

  lemma {:induction false} RejectMoved(c: Coordinator, s: Session, m: Enter, verdict: Verdict, bound: U64)
    requires Valid(c) && RepliesOk(c) && Bounded(c, bound)
    requires c.session == Some(s) && m.id == c.lastIn + 1 <= bound
    ensures Moved(c, Reject(c, s, m, verdict).state, bound)
    ensures Committing(Reject(c, s, m, verdict).state) ==> Committing(c)
  {
    hide Resolve;
  }

  lemma {:induction false} DecideMoved(c: Coordinator, s: Session, m: Enter, bound: U64)
    requires Valid(c) && RepliesOk(c) && Bounded(c, bound)
    requires c.session == Some(s) && m.id == m.sequence == c.lastIn + 1 <= bound
    ensures Moved(c, DecideEnter(c, s, m, c.now).state, bound)
    ensures Committing(DecideEnter(c, s, m, c.now).state) ==> Committing(c)
  {
    hide Resolve, Reject;
    forall verdict { RejectMoved(c, s, m, verdict, bound); }
  }

  lemma {:induction false} StillMoved(c: Coordinator, bound: U64)
    requires Valid(c) && RepliesOk(c) && Bounded(c, bound)
    ensures Moved(c, c, bound)
  {
    hide Resolve, ValidView, ValidFallback;
  }

  lemma {:induction false} ResendMoved(c: Coordinator, s: Session, m: Enter, ack: Ack, bound: U64)
    requires Valid(c) && RepliesOk(c) && Bounded(c, bound) && c.session == Some(s)
    requires ack.id <= c.lastIn
    ensures Moved(c, SendReply(c, s, m, ForDuplicateAck, ack).state, bound)
    ensures Committing(SendReply(c, s, m, ForDuplicateAck, ack).state) ==> Committing(c)
  {
    hide Resolve, ValidView, ValidFallback;
  }

  lemma {:induction false} ReplayedEnterMoved(c: Coordinator, s: Session, m: Enter, bound: U64)
    requires Valid(c) && RepliesOk(c) && Bounded(c, bound) && c.session == Some(s)
    ensures Moved(c, ReplayedEnter(c, s, m).state, bound)
    ensures Committing(ReplayedEnter(c, s, m).state) ==> Committing(c)
  {
    hide Resolve, ValidView, ValidFallback, SendReply, Moved;
    StillMoved(c, bound);
    if c.inbound.Some? && c.inbound.value.Prepared? {
      ResendMoved(c, s, m, c.inbound.value.ack, bound);
    }
    if c.completedIn.Some? {
      ResendMoved(c, s, m, c.completedIn.value.ack, bound);
    }
  }

  lemma {:induction false} EnterMoved(c: Coordinator, s: Session, m: Enter, now: U64, bound: U64)
    requires Valid(c) && RepliesOk(c) && Bounded(c, bound) && m.id <= bound
    ensures Moved(c, ReceiveEnter(c, s, m, now).state, bound)
    ensures Committing(ReceiveEnter(c, s, m, now).state) ==> Committing(c)
  {
    hide Resolve, DecideEnter, ReplayedEnter, Moved;
    var p := Prepare(c, now);
    PrepareMoved(c, now, bound);
    var after := ReceiveEnter(c, s, m, now).state;
    assert Valid(p.state) && RepliesOk(p.state) && Bounded(p.state, bound) by { MovedFacts(c, p.state, bound); }
    if p.result.Ok? && RequireAvailable(p.state, s).Ok? && p.state.reply.None? {
      var k := Classify(p.state, m.id, m.sequence);
      ClassifyMoved(p.state, m.id, m.sequence, bound);
      MovedTrans(c, p.state, k.state, bound);
      if k.result.Ok? {
        if k.result.value.Expected? {
          DecideMoved(p.state, s, m, bound);
        } else {
          ReplayedEnterMoved(p.state, s, m, bound);
        }
        MovedTrans(c, p.state, after, bound);
      }
    }
  }

  lemma {:induction false} AckMoved(c: Coordinator, s: Session, a: Ack, now: U64, bound: U64)
    requires Valid(c) && RepliesOk(c) && Bounded(c, bound)
    ensures Moved(c, ReceiveAck(c, s, a, now).state, bound)
    ensures Committing(ReceiveAck(c, s, a, now).state) ==>
              Committing(c) || (a.verdict == Accepted && a.id == c.lastOut
                                && ReceiveAck(c, s, a, now).state.outbound.value.acceptedAck == Some(a))
  {
    hide Resolve;
    PrepareMoved(c, now, bound);
  }

  lemma {:induction false} CommitMoved(c: Coordinator, s: Session, m: Commit, now: U64, bound: U64)
    requires Valid(c) && RepliesOk(c) && Bounded(c, bound)
    ensures var t := ReceiveCommit(c, s, m, now);
            if t.result == Ok(Applied) then
              && Promised(c) && c.inbound.value.Prepared? && c.inbound.value.enter.id == c.lastIn == m.id
              && t.state == ApplyCommit(Expire(c.(now := now), now)) && now >= c.now
              && Expire(c.(now := now), now).inbound == c.inbound
            else
              Moved(c, t.state, bound) && (Committing(t.state) ==> Committing(c))
  {
    hide Resolve;
    PrepareMoved(c, now, bound);
  }

  lemma {:induction false} BeginMoved(c: Coordinator, e: Effect, now: U64, bound: U64)
    requires Valid(c) && RepliesOk(c) && Bounded(c, bound)
    requires !(c.outbound.Some? && c.outbound.value.phase == CommitDispatching)
    ensures var t := BeginDispatch(c, e, now);
            && (Committing(t.state) ==> Committing(c))
            && (t.result.Ok? ==> InDispatch(t.state, e, now))
            && (t.result.Err? || e.purpose != ForCommit ==> Moved(c, t.state, bound))
            && (t.result.Ok? && e.purpose == ForCommit ==>
                  && Committing(t.state) && now >= c.now
                  && t.state.outbound == Some(c.outbound.value.(phase := CommitDispatching))
                  && Moved(c, t.state.(outbound := Some(c.outbound.value)), bound))
  {
    hide Resolve;
    PrepareMoved(c, now, bound);
  }

  lemma {:induction false} AbandonOwnMoved(c: Coordinator, bound: U64)
    requires Valid(c) && RepliesOk(c) && Bounded(c, bound) && c.outbound.Some?
    ensures Moved(c, FailLocal(c.(outbound := None)), bound)
  {
    hide Resolve;
  }

  lemma {:induction false} AbandonReplyMoved(c: Coordinator, bound: U64)
    requires Valid(c) && RepliesOk(c) && Bounded(c, bound)
    ensures Moved(c, c.(inbound := None), bound) && Moved(c, c.(reply := None), bound) && Moved(c, c, bound)
  {
    hide Resolve;
  }

  lemma {:induction false} AbandonMoved(c: Coordinator, e: Effect, bound: U64)
    requires Valid(c) && RepliesOk(c) && Bounded(c, bound)
    ensures Moved(c, EffectFailed(c, e).state, bound)
    ensures Committing(EffectFailed(c, e).state) ==> Committing(c)
    ensures InDispatch(c, e, c.now) && e.purpose == ForCommit ==> EffectFailed(c, e).state.outbound.None?
  {
    hide Resolve, Moved, Valid, FailLocal;
    AbandonReplyMoved(c, bound);
    if c.outbound.Some? {
      AbandonOwnMoved(c, bound);
      FailLocalFrame(c.(outbound := None));
    }
  }

  lemma {:induction false} FailLocalFrame(c: Coordinator)
    ensures FailLocal(c) == c.(view := FailLocal(c).view)
  {
  }

  /** A clock that did not move expires nothing more. */
  lemma {:induction false} PrepareAgain(c: Coordinator)
    requires Valid(c)
    ensures Prepare(c, c.now) == Turn(c, Ok(()))
  {
    hide Resolve;
  }

  /** Completing a begun dispatch; a Commit always completes by giving authority away. */
  lemma {:induction false} FinishMoved(c: Coordinator, e: Effect, bound: U64)
    requires Valid(c) && RepliesOk(c) && Bounded(c, bound) && InDispatch(c, e, c.now)
    requires c.lifecycle == Running && c.healthy
    ensures var t := EffectSent(c, e, c.now);
            && (Committing(t.state) ==> Committing(c))
            && (e.purpose != ForCommit ==> Moved(c, t.state, bound))
            && (e.purpose == ForCommit ==>
                  && t.result == Ok(AuthorityCommitted)
                  && var o := c.outbound.value;
                  && t.state == c.(outbound := None,
                                   view := SetActive(c.view, o.transition.destHost, o.transition.pointer),
                                   completedOut := Some(CompletedOut(o.session, o.acceptedAck.value))))
  {
    hide Resolve;
    PrepareAgain(c);
  }

  lemma {:induction false} ProposeMoved(c: Coordinator, s: Session, edge: Edge, position: real, now: U64, bound: U64)
    requires Valid(c) && RepliesOk(c) && Bounded(c, bound)
    requires !(c.outbound.Some? && c.outbound.value.phase == CommitDispatching)
    ensures var t := ProposeLeave(c, s, edge, position, now);
            && (Committing(t.state) ==> Committing(c))
            && (t.result.Err? ==> Moved(c, t.state, bound))
            && (t.result.Ok? ==>
                  && c.view.activeHost == c.view.localHost
                  && t.state.lastOut == c.lastOut + 1
                  && t.state.outbound.Some? && t.state.outbound.value.phase == LeaveQueued
                  && Moved(c, t.state.(lastOut := c.lastOut, outbound := None), bound))
  {
    hide Resolve;
    PrepareMoved(c, now, bound);
  }

  // ---------------------------------------------------------------- one step keeps the invariant

  /** A step from `x` to `x'` beside `y` keeps the invariant and creates no second token. */
  ghost predicate Keeps(x: Host, x': Host, y: Host) {
    && Inv(x', y)
    && (Exclusive(x, y) ==> Exclusive(x', y))
    && (NoCommits(x) && NoCommits(y) ==> NoCommits(x') || Exclusive(x', y))
  }

  /** A step that moves nothing but the host's own coordinator, within `Moved`. */
  lemma {:induction false} QuietStep(x: Host, x': Host, y: Host)
    requires Inv(x, y) && x'.sent == x.sent && StageOk(x')
    requires Moved(x.c, x'.c, y.c.lastOut)
    requires Committing(x'.c) ==> Committing(x.c) || x.c.lastOut <= y.c.lastIn
    requires Holds(x') ==> Holds(x)
    ensures Keeps(x, x', y)
  {
    hide Resolve, MatchesOutbound, EffectReady, StageOk;
    forall m | m in y.sent && Live(x', m) ensures Live(x, m) {
    }
  }

  lemma {:induction false} ProposeStep(x: Host, y: Host, edge: Edge, position: real, now: U64)
    requires Inv(x, y) && x.stage.Idle?
    ensures Keeps(x, Perform(x, y, DoPropose(edge, position, now)), y)
  {
    hide Resolve, ProposeLeave, MatchesOutbound, EffectReady;
    var bound := y.c.lastOut;
    ProposeKept(x.c, SessionOf(x), edge, position, now);
    ProposeMoved(x.c, SessionOf(x), edge, position, now, bound);
    var x' := Perform(x, y, DoPropose(edge, position, now));
    if ProposeLeave(x.c, SessionOf(x), edge, position, now).result.Err? {
      QuietStep(x, x', y);
    }
  }

  lemma {:induction false} DeliverStep(x: Host, y: Host, m: Message, now: U64)
    requires Inv(x, y) && x.stage.Idle? && m in y.sent
    ensures Keeps(x, Deliver(x, m, now), y)
  {
    hide Resolve, ReceiveLeave, ReceiveEnter, ReceiveAck, ReceiveCommit, MatchesOutbound, EffectReady, ApplyCommit,
         Expire;
    var bound := y.c.lastOut;
    var s := SessionOf(x);
    var x' := Deliver(x, m, now);
    match m
    case LeaveMsg(l) => assert Claim(m) == Some(l.id); LeaveMoved(x.c, s, l, now, bound); QuietStep(x, x', y);
    case EnterMsg(e) => assert Claim(m) == Some(e.id); EnterMoved(x.c, s, e, now, bound); QuietStep(x, x', y);
    case AckMsg(a) => AckMoved(x.c, s, a, now, bound); QuietStep(x, x', y);
    case CommitMsg(t) =>
      CommitMoved(x.c, s, t, now, bound);
      if ReceiveCommit(x.c, s, t, now).result == Ok(Applied) {
        ApplyStep(x, y, t, now);
      } else {
        QuietStep(x, x', y);
      }
  }

  /** The destination applies a Commit: it was live, so its sender no longer holds authority. */
  lemma {:induction false} ApplyStep(x: Host, y: Host, m: Commit, now: U64)
    requires Inv(x, y) && x.stage.Idle? && CommitMsg(m) in y.sent
    requires ReceiveCommit(x.c, SessionOf(x), m, now).result == Ok(Applied)
    ensures Keeps(x, Deliver(x, CommitMsg(m), now), y)
    ensures Live(x, CommitMsg(m)) && Holds(Deliver(x, CommitMsg(m), now))
  {
    hide Resolve, ReceiveCommit, MatchesOutbound, EffectReady;
    var x' := Deliver(x, CommitMsg(m), now);
    CommitValid(x.c, SessionOf(x), m, now);
    CommitMoved(x.c, SessionOf(x), m, now, y.c.lastOut);
    assert Live(x, CommitMsg(m));
    assert !LiveInto(x', y);
    assert LiveInto(y, x') == LiveInto(y, x);
  }

  lemma {:induction false} BeginStep(x: Host, y: Host, e: Effect, now: U64)
    requires Inv(x, y) && x.stage.Idle?
    ensures Keeps(x, Perform(x, y, DoBegin(e, now)), y)
  {
    hide Resolve, BeginDispatch, MatchesOutbound, EffectReady;
    BeginKept(x.c, e, now);
    BeginMoved(x.c, e, now, y.c.lastOut);
    var x' := Perform(x, y, DoBegin(e, now));
    if BeginDispatch(x.c, e, now).result.Err? || e.purpose != ForCommit {
      QuietStep(x, x', y);
    }
  }

  /** What a begun dispatch puts in the queue stays within what was allocated and promised. */
  lemma {:induction false} EnqueuedBounds(x: Host, y: Host)
    requires Inv(x, y) && x.stage.Started?
    ensures var m := x.stage.effect.message;
            && (Claim(m).Some? ==> Claim(m).value <= x.c.lastOut)
            && (m.AckMsg? && m.ack.verdict == Accepted ==> m.ack.id <= x.c.lastIn)
            && (m.CommitMsg? ==> m.commit.id <= y.c.lastIn)
  {
    hide Resolve, ValidView, ValidFallback;
  }

  lemma {:induction false} EnqueueStep(x: Host, y: Host)
    requires Inv(x, y) && x.stage.Started?
    ensures Keeps(x, Perform(x, y, DoEnqueue), y)
  {
    EnqueuedBounds(x, y);
    hide Resolve, Valid, RepliesOk, InDispatch;
    var x' := Perform(x, y, DoEnqueue);
    var m := x.stage.effect.message;
    forall n | n in x'.sent ensures n in x.sent || n == m {
      if n !in x.sent { assert n in [m]; }
    }
  }

  lemma {:induction false} FinishStep(x: Host, y: Host)
    requires Inv(x, y) && x.stage.Queued?
    ensures Keeps(x, Perform(x, y, DoFinish), y)
  {
    hide Resolve, EffectSent, EffectReady;
    var e := x.stage.effect;
    FinishKept(x.c, e, x.c.now);
    FinishMoved(x.c, e, y.c.lastOut);
    var x' := Perform(x, y, DoFinish);
    if e.purpose != ForCommit {
      QuietStep(x, x', y);
    } else {
      assert x'.c.view.activeHost == y.c.view.localHost;
      assert forall m :: Live(x', m) == Live(x, m);
      assert Inv(x', y);
    }
  }

  lemma {:induction false} FailStep(x: Host, y: Host)
    requires Inv(x, y) && x.stage.Started?
    ensures Keeps(x, Perform(x, y, DoFail), y)
  {
    hide Resolve, EffectFailed, MatchesOutbound, EffectReady;
    AbandonMoved(x.c, x.stage.effect, y.c.lastOut);
    QuietStep(x, Perform(x, y, DoFail), y);
  }

  lemma {:induction false} PerformStep(x: Host, y: Host, act: Act)
    requires Inv(x, y)
    ensures Keeps(x, Perform(x, y, act), y)
  {
    hide Resolve, Half, Deliver, ProposeLeave, ObservePointer, BeginDispatch, EffectFailed, EffectSent, Prepare;
    HalfFacts(x, y);
    var bound := y.c.lastOut;
    var x' := Perform(x, y, act);
    if x.stage.Idle? {
      match act
      case DoPropose(edge, position, now) => ProposeStep(x, y, edge, position, now);
      case DoObserve(p) => ObserveMoved(x.c, p, bound); QuietStep(x, x', y);
      case DoDeliver(k, now) => if k < |y.sent| { DeliverStep(x, y, y.sent[k], now); }
      case DoBegin(e, now) => BeginStep(x, y, e, now);
      case DoAbandon(e) => AbandonMoved(x.c, e, bound); QuietStep(x, x', y);
      case DoPoll(now) => PrepareMoved(x.c, now, bound); QuietStep(x, x', y);
      case _ =>
    } else {
      match (x.stage, act)
      case (Started(e, now), DoEnqueue) => EnqueueStep(x, y);
      case (Started(e, now), DoFail) => FailStep(x, y);
      case (Queued(e, now), DoFinish) => FinishStep(x, y);
      case _ =>
    }
  }

  lemma {:induction false} HalfFacts(x: Host, y: Host)
    requires Inv(x, y)
    ensures Valid(x.c) && RepliesOk(x.c) && Bounded(x.c, y.c.lastOut) && StageOk(x) && x.c.session.Some?
  {
  }

  // ---------------------------------------------------------------- whole runs

  /** A coordinator whose session has just been bound. */
  ghost predicate Fresh(x: Host) {
    && x.stage.Idle? && x.sent == [] && x.applied == []
    && x.c.lastIn == 0 && x.c.lastOut == 0 && x.c.outbound.None? && x.c.inbound.None? && x.c.reply.None?
    && x.c.completedIn.None? && x.c.completedOut.None? && x.c.expiredIn.None?
  }

  /** Two hosts that have just been connected to each other. */
  ghost predicate Initial(s: System) {
    Connected(s.a, s.b) && Connected(s.b, s.a) && Fresh(s.a) && Fresh(s.b)
  }

  ghost predicate SystemInv(s: System) {
    Inv(s.a, s.b)
  }

  ghost predicate OneToken(s: System) {
    Exclusive(s.a, s.b)
  }

  ghost predicate Untouched(s: System) {
    NoCommits(s.a) && NoCommits(s.b)
  }

  lemma {:induction false} AdvanceInv(s: System, step: Step)
    requires SystemInv(s)
    ensures SystemInv(Advance(s, step))
    ensures OneToken(s) ==> OneToken(Advance(s, step))
    ensures Untouched(s) ==> Untouched(Advance(s, step)) || OneToken(Advance(s, step))
  {
    hide Half, Perform;
    match step
    case ByA(act) => PerformStep(s.a, s.b, act);
    case ByB(act) => PerformStep(s.b, s.a, act);
  }

  lemma {:induction false} ExecuteInv(s: System, steps: seq<Step>)
    requires SystemInv(s)
    ensures SystemInv(Execute(s, steps))
    ensures OneToken(s) ==> OneToken(Execute(s, steps))
    ensures Untouched(s) ==> Untouched(Execute(s, steps)) || OneToken(Execute(s, steps))
    decreases |steps|
  {
    hide SystemInv, OneToken, Untouched, Advance;
    if steps != [] {
      AdvanceInv(s, steps[0]);
      ExecuteInv(Advance(s, steps[0]), steps[1..]);
    }
  }

  lemma {:induction false} InitialInv(s: System)
    requires Initial(s)
    ensures SystemInv(s) && Untouched(s)
    ensures s.a.c.view.activeHost == s.b.c.view.activeHost ==> OneToken(s)
  {
  }

  /**
   Single authority: when both hosts start out agreeing on the owner, then however messages
   are lost, duplicated, delayed or reordered, whatever times out and whichever sends fail,
   the two coordinators never both have local authority.
   */
  lemma {:induction false} SingleAuthority(s: System, steps: seq<Step>)
    requires Initial(s) && s.a.c.view.activeHost == s.b.c.view.activeHost
    ensures var t := Execute(s, steps); !(HasLocalAuthority(t.a.c) && HasLocalAuthority(t.b.c))
  {
    hide Execute;
    InitialInv(s);
    ExecuteInv(s, steps);
  }

  /**
   Two hosts that both start out local have one authority from the moment either of them
   has queued its first Commit.
   */
  lemma {:induction false} StartupConverges(s: System, steps: seq<Step>)
    requires Initial(s)
    requires !Untouched(Execute(s, steps))
    ensures var t := Execute(s, steps); !(HasLocalAuthority(t.a.c) && HasLocalAuthority(t.b.c))
  {
    hide Execute;
    InitialInv(s);
    ExecuteInv(s, steps);
  }
}
