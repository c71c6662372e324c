/**
 What every coordinator operation keeps, whatever sessions, messages, effects and clock
 readings the environment supplies.
 */
module HandoffValidity {
  import opened Base
  import opened Topology
  import opened Handoff

  /** A pending proposal made by this host. */
  ghost predicate ValidOutbound(c: Coordinator, o: Outbound) {
    && c.view.activeHost == c.view.localHost
    && c.session == Some(o.session)
    && o.id == c.lastOut
    && o.deadline > c.now
    && Resolve(c.workspace, o.transition.sourceDisplay, o.transition.sourceEdge, o.transition.position)
      == Some(o.transition)
    && o.transition.sourceHost == c.view.localHost
    && o.transition.destHost == o.session.remoteHost
    && o.leave == MakeLeave(o.id, c.workspace.protocolEpoch, o.transition)
    && o.enter == MakeEnter(o.id, c.workspace.protocolEpoch, o.transition)
    && (o.phase == CommitQueued || o.phase == CommitDispatching ==>
          && o.acceptedAck.Some? && o.acceptedAck.value.verdict == Accepted
          && o.acceptedAck.value.id == o.id && AckFits(o, o.acceptedAck.value))
  }

  /** A pending proposal made by the peer. */
  ghost predicate ValidInbound(c: Coordinator, i: Inbound) {
    && c.session == Some(i.session)
    && i.deadline > c.now
    && Resolve(c.workspace, i.transition.sourceDisplay, i.transition.sourceEdge, i.transition.position)
      == Some(i.transition)
    && CrossesToLocal(c, i.transition)
    && i.enter == MakeEnter(i.enter.id, c.workspace.protocolEpoch, i.transition)
    && i.leave.id == i.enter.id
    && (if i.Hint? then i.enter.id == c.lastIn + 1 else i.enter.id == c.lastIn)
    && (!i.Hint? ==> i.ack == MakeAck(i.enter, c.view.localHost, Accepted))
    && (i.Prepared? ==> i.commit == MakeCommit(i.enter, i.transition))
  }

  ghost predicate ValidReply(c: Coordinator, r: Reply) {
    && c.session == Some(r.session)
    && r.deadline > c.now
    && r.message.AckMsg?
    && (r.purpose == ForDuplicateAck || r.purpose == ForRejectedAck)
  }

  /**
   The authority a coordinator reports is always real: the active display belongs to the
   active host and holds the pointer, a local point to fall back to exists, at most one
   direction is being negotiated and nothing pending has outlived its deadline.
   */
  ghost predicate Valid(c: Coordinator) {
    && c.timeout > 0
    && ValidView(c.workspace, c.view)
    && ValidFallback(c.view.localHost, c.workspace, c.fallback)
    && (c.session.Some? ==> c.session.value.localHost == c.view.localHost
                            && c.session.value.remoteHost != c.view.localHost)
    && (c.session.None? ==> c.outbound.None? && c.inbound.None? && c.reply.None?)
    && !(c.outbound.Some? && c.inbound.Some?)
    && (c.outbound.Some? ==> ValidOutbound(c, c.outbound.value))
    && (c.inbound.Some? ==> ValidInbound(c, c.inbound.value))
    && (c.reply.Some? ==> ValidReply(c, c.reply.value))
  }

  /** What no operation on a valid coordinator changes, and authority it does not grab. */
  ghost predicate Kept(c: Coordinator, d: Coordinator) {
    && Valid(d)
    && d.owner == c.owner && d.timeout == c.timeout && d.view.localHost == c.view.localHost
    && d.now >= c.now
    && (c.view.activeHost != c.view.localHost ==> d.view.activeHost != d.view.localHost)
  }

  lemma {:induction false} CreateValid(owner: nat, timeout: U64, w: Workspace, v: View, fallback: Pointer)
    requires timeout > 0
    ensures var r := Create(owner, timeout, w, v, fallback);
            (r.Ok? <==> ValidView(w, v) && ValidFallback(v.localHost, w, fallback)) && (r.Ok? ==> Valid(r.value))
  {
  }

  lemma {:induction false} PrepareKept(c: Coordinator, now: U64)
    requires Valid(c)
    ensures Kept(c, Prepare(c, now).state)
    ensures Prepare(c, now).state.view.activeHost == c.view.activeHost
  {
    hide Resolve;
  }

  lemma {:induction false} ClassifyKept(c: Coordinator, id: U64, sequence: U64)
    requires Valid(c)
    ensures Kept(c, Classify(c, id, sequence).state)
  {
    hide Resolve;
  }

  lemma {:induction false} ProposeKept(c: Coordinator, s: Session, edge: Edge, position: real, now: U64)
    requires Valid(c)
    ensures Kept(c, ProposeLeave(c, s, edge, position, now).state)
  {
    hide Resolve;
    PrepareKept(c, now);
  }

  lemma {:induction false} LeaveKept(c: Coordinator, s: Session, m: Leave, now: U64)
    requires Valid(c)
    ensures Kept(c, ReceiveLeave(c, s, m, now).state)
  {
    hide Resolve;
    PrepareKept(c, now);
    ClassifyKept(Prepare(c, now).state, m.id, m.sequence);
  }

  lemma {:induction false} RejectKept(c: Coordinator, s: Session, m: Enter, verdict: Verdict)
    requires Valid(c) && c.session == Some(s)
    ensures Kept(c, Reject(c, s, m, verdict).state)
  {
    hide Resolve;
  }

  lemma {:induction false} DecideKept(c: Coordinator, s: Session, m: Enter, now: U64)
    requires Valid(c) && c.session == Some(s) && m.id == m.sequence == c.lastIn + 1 && now == c.now
    ensures Kept(c, DecideEnter(c, s, m, now).state)
  {
    hide Resolve, Reject;
    forall verdict { RejectKept(c, s, m, verdict); }
  }

  lemma {:induction false} ReplayedEnterKept(c: Coordinator, s: Session, m: Enter)
    requires Valid(c) && c.session == Some(s)
    ensures Kept(c, ReplayedEnter(c, s, m).state)
  {
    hide Resolve;
  }

  lemma {:induction false} EnterKept(c: Coordinator, s: Session, m: Enter, now: U64)
    requires Valid(c)
    ensures Kept(c, ReceiveEnter(c, s, m, now).state)
  {
    hide Resolve, DecideEnter, ReplayedEnter;
    PrepareKept(c, now);
    var p := Prepare(c, now).state;
    ClassifyKept(p, m.id, m.sequence);
    var k := Classify(p, m.id, m.sequence);
    if Prepare(c, now).result.Ok? && k.result.Ok? && RequireAvailable(p, s).Ok? {
      if k.result.value.Expected? {
        DecideKept(p, s, m, now);
      } else {
        ReplayedEnterKept(p, s, m);
      }
    }
  }

  lemma {:induction false} AckKept(c: Coordinator, s: Session, a: Ack, now: U64)
    requires Valid(c)
    ensures Kept(c, ReceiveAck(c, s, a, now).state)
  {
    hide Resolve;
    PrepareKept(c, now);
  }

  lemma {:induction false} CommitValid(c: Coordinator, s: Session, m: Commit, now: U64)
    requires Valid(c)
    ensures Valid(ReceiveCommit(c, s, m, now).state)
    ensures ReceiveCommit(c, s, m, now).state.now >= c.now
    ensures ReceiveCommit(c, s, m, now).state.view.localHost == c.view.localHost
    ensures ReceiveCommit(c, s, m, now).state.owner == c.owner
  {
    hide Resolve;
    PrepareKept(c, now);
  }

  lemma {:induction false} BeginKept(c: Coordinator, e: Effect, now: U64)
    requires Valid(c)
    ensures Kept(c, BeginDispatch(c, e, now).state)
  {
    hide Resolve;
    PrepareKept(c, now);
  }

  lemma {:induction false} FinishKept(c: Coordinator, e: Effect, now: U64)
    requires Valid(c)
    ensures Kept(c, EffectSent(c, e, now).state)
  {
    hide Resolve, LeaveSent, EnterSent, AcceptedAckSent, CommitSent, ReplySent;
    PrepareKept(c, now);
    var p := Prepare(c, now).state;
    match e.purpose
    case ForLeave => LeaveSentKept(p, e);
    case ForEnter => EnterSentKept(p, e);
    case ForAcceptedAck => AcceptedAckSentKept(p, e);
    case ForCommit => CommitSentKept(p, e);
    case _ => ReplySentKept(p, e);
  }

  lemma {:induction false} LeaveSentKept(c: Coordinator, e: Effect)
    requires Valid(c)
    ensures Kept(c, LeaveSent(c, e).state)
  {
    hide Resolve;
  }

  lemma {:induction false} EnterSentKept(c: Coordinator, e: Effect)
    requires Valid(c)
    ensures Kept(c, EnterSent(c, e).state)
  {
    hide Resolve;
  }

  lemma {:induction false} AcceptedAckSentKept(c: Coordinator, e: Effect)
    requires Valid(c)
    ensures Kept(c, AcceptedAckSent(c, e).state)
  {
    hide Resolve;
  }

  lemma {:induction false} CommitSentKept(c: Coordinator, e: Effect)
    requires Valid(c)
    ensures Kept(c, CommitSent(c, e).state)
  {
    hide Resolve;
  }

  lemma {:induction false} ReplySentKept(c: Coordinator, e: Effect)
    requires Valid(c)
    ensures Kept(c, ReplySent(c, e).state)
  {
    hide Resolve;
  }

  lemma {:induction false} AbandonKept(c: Coordinator, e: Effect)
    requires Valid(c)
    ensures Kept(c, EffectFailed(c, e).state)
  {
    hide Resolve;
  }

  // ---------------------------------------------------------------- where authority goes

  /** Authority is taken up exactly by applying the Commit that was promised, and at the place it was promised for. */
  lemma {:induction false} CommitGrants(c: Coordinator, s: Session, m: Commit, now: U64)
    requires Valid(c)
    ensures var t := ReceiveCommit(c, s, m, now);
            if t.result == Ok(Applied) then
              && HasLocalAuthority(t.state)
              && c.inbound.Some? && c.inbound.value.Prepared? && c.inbound.value.commit == m
              && t.state.view.pointer == t.state.fallback == c.inbound.value.transition.pointer
            else t.state.view.activeHost == c.view.activeHost
  {
    hide Resolve;
    PrepareKept(c, now);
  }

  /** A Commit becomes possible only by the accepting answer to the proposal that waits for one; until it is
      dispatched, and after a refusal, this host keeps its authority. */
  lemma {:induction false} AckPermits(c: Coordinator, s: Session, a: Ack, now: U64)
    requires Valid(c)
    ensures var t := ReceiveAck(c, s, a, now);
            && t.state.view.activeHost == c.view.activeHost
            && (t.result.Ok? && t.result.value.CommitNext? ==>
                  && a.verdict == Accepted && c.outbound.Some? && c.outbound.value.phase == AwaitingAck
                  && a.id == c.lastOut && AckFits(c.outbound.value, a)
                  && t.result.value.effect.purpose == ForCommit && HasLocalAuthority(t.state))
            && (t.result == Ok(RejectedByPeer) ==>
                  a.verdict != Accepted && t.state.outbound.None? && HasLocalAuthority(t.state))
  {
    hide Resolve;
    PrepareKept(c, now);
  }

  /** From the moment a Commit may be queued this host reports no authority, and it holds the peer's acceptance. */
  lemma {:induction false} BeginSuspends(c: Coordinator, e: Effect, now: U64)
    requires Valid(c)
    ensures var t := BeginDispatch(c, e, now);
            t.result.Ok? && e.purpose == ForCommit ==>
              && !HasLocalAuthority(t.state) && t.state.outbound.Some?
              && t.state.outbound.value.acceptedAck.Some?
              && t.state.outbound.value.acceptedAck.value.verdict == Accepted
  {
    hide Resolve;
    PrepareKept(c, now);
  }

  /** A queued Commit makes the peer active, where the crossing led; no other completed send moves authority. */
  lemma {:induction false} SentSettles(c: Coordinator, e: Effect, now: U64)
    requires Valid(c)
    ensures var t := EffectSent(c, e, now);
            if t.result == Ok(AuthorityCommitted) then
              && e.purpose == ForCommit && c.outbound.Some? && c.outbound.value.phase == CommitDispatching
              && t.state.view.activeHost == e.session.remoteHost != t.state.view.localHost
              && t.state.view.pointer == c.outbound.value.transition.pointer
            else t.state.view.activeHost == c.view.activeHost
  {
    hide Resolve, LeaveSent, EnterSent, AcceptedAckSent, ReplySent;
    PrepareKept(c, now);
    var p := Prepare(c, now).state;
    SentLeaves(p, e);
  }

  lemma {:induction false} SentLeaves(c: Coordinator, e: Effect)
    ensures LeaveSent(c, e).state.view == c.view && LeaveSent(c, e).result != Ok(AuthorityCommitted)
    ensures EnterSent(c, e).state.view == c.view && EnterSent(c, e).result != Ok(AuthorityCommitted)
    ensures AcceptedAckSent(c, e).state.view == c.view && AcceptedAckSent(c, e).result != Ok(AuthorityCommitted)
    ensures ReplySent(c, e).state.view == c.view && ReplySent(c, e).result != Ok(AuthorityCommitted)
  {
  }

  /** A proposal that could not be queued is over, and this host has its authority back. */
  lemma {:induction false} FailureRestores(c: Coordinator, e: Effect)
    requires Valid(c)
    ensures var t := EffectFailed(c, e);
            && t.state.view.activeHost == c.view.activeHost
            && (t.result.Ok? && (e.purpose == ForLeave || e.purpose == ForEnter || e.purpose == ForCommit) ==>
                  t.state.outbound.None? && HasLocalAuthority(t.state))
  {
    hide Resolve;
  }

  // ---------------------------------------------------------------- whole runs

  datatype Op =
    | Bind(s: Session) | Healthy(s: Session) | Degrade(s: Session) | Disconnect(s: Session)
    | Replace(w: Workspace, p: Pointer) | Revoke | Shutdown
    | Propose(s: Session, edge: Edge, position: real, now: U64) | Observe(p: Pointer)
    | OnLeave(s: Session, leave: Leave, now: U64) | OnEnter(s: Session, enter: Enter, now: U64)
    | OnAck(s: Session, ack: Ack, now: U64) | OnCommit(s: Session, commit: Commit, now: U64)
    | Begin(e: Effect, now: U64) | Finish(e: Effect, now: U64) | Abandon(e: Effect) | Poll(now: U64)

  function Apply(c: Coordinator, op: Op): Coordinator {
    match op
    case Bind(s) => BindSession(c, s).state
    case Healthy(s) => MarkHealthy(c, s).state
    case Degrade(s) => DegradeSession(c, s).state
    case Disconnect(s) => DisconnectSession(c, s).state
    case Replace(w, p) => ReplaceWorkspace(c, w, p).state
    case Revoke => Terminated(c, Revoked)
    case Shutdown => Terminated(c, ShuttingDown)
    case Propose(s, edge, position, now) => ProposeLeave(c, s, edge, position, now).state
    case Observe(p) => ObservePointer(c, p).state
    case OnLeave(s, m, now) => ReceiveLeave(c, s, m, now).state
    case OnEnter(s, m, now) => ReceiveEnter(c, s, m, now).state
    case OnAck(s, m, now) => ReceiveAck(c, s, m, now).state
    case OnCommit(s, m, now) => ReceiveCommit(c, s, m, now).state
    case Begin(e, now) => BeginDispatch(c, e, now).state
    case Finish(e, now) => EffectSent(c, e, now).state
    case Abandon(e) => EffectFailed(c, e).state
    case Poll(now) => Prepare(c, now).state
  }

  function Run(c: Coordinator, ops: seq<Op>): Coordinator
    decreases |ops|
  {
    if ops == [] then c else Run(Apply(c, ops[0]), ops[1..])
  }

  /** Operations by which the owner of the coordinator itself changes session or workspace. */
  predicate Administrative(op: Op) {
    op.Bind? || op.Degrade? || op.Disconnect? || op.Replace? || op.Revoke? || op.Shutdown?
  }

  /**
   Every operation keeps validity, and a coordinator whose peer is active becomes active
   itself only by the peer's Commit or by an administrative operation.
   */
  lemma {:induction false} ApplyKept(c: Coordinator, op: Op)
    requires Valid(c)
    ensures Valid(Apply(c, op))
    ensures Apply(c, op).view.localHost == c.view.localHost && Apply(c, op).now >= c.now
    ensures !Administrative(op) && !op.OnCommit? ==> Kept(c, Apply(c, op))
  {
    hide Resolve, ProposeLeave, ReceiveLeave, ReceiveEnter, ReceiveAck, ReceiveCommit, BeginDispatch, EffectSent,
         EffectFailed;
    match op
    case Propose(s, edge, position, now) => ProposeKept(c, s, edge, position, now);
    case OnLeave(s, m, now) => LeaveKept(c, s, m, now);
    case OnEnter(s, m, now) => EnterKept(c, s, m, now);
    case OnAck(s, m, now) => AckKept(c, s, m, now);
    case OnCommit(s, m, now) => CommitValid(c, s, m, now);
    case Begin(e, now) => BeginKept(c, e, now);
    case Finish(e, now) => FinishKept(c, e, now);
    case Abandon(e) => AbandonKept(c, e);
    case Poll(now) => PrepareKept(c, now);
    case _ =>
  }

  /** Validity holds at the end of every sequence of operations. */
  lemma {:induction false} RunValid(c: Coordinator, ops: seq<Op>)
    requires Valid(c)
    ensures Valid(Run(c, ops))
    decreases |ops|
  {
    hide Resolve, Apply;
    if ops != [] {
      ApplyKept(c, ops[0]);
      RunValid(Apply(c, ops[0]), ops[1..]);
    }
  }
}
