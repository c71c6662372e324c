/**
 The pointer handoff coordinator as a value: its state and one function per operation.
 An operation yields the next state together with its result, also when it fails.
 */
module Handoff {
  import opened Base
  import opened Topology

  // ---------------------------------------------------------------- wire messages

  datatype Leave = Leave(id: U64, epoch: U64, sequence: U64, sourceHost: HostId,
                         sourceDisplay: DisplayId, edge: Edge, position: real)

  datatype Enter = Enter(id: U64, epoch: U64, sequence: U64, sourceHost: HostId, destHost: HostId,
                         sourceDisplay: DisplayId, destDisplay: DisplayId, destEdge: Edge, position: real)

  datatype Verdict = Accepted | StaleEpoch | UnknownDisplay | NotOwner | Refused

  datatype Ack = Ack(id: U64, epoch: U64, receiver: HostId, display: DisplayId, verdict: Verdict)

  datatype Commit = Commit(id: U64, epoch: U64, sequence: U64, sourceHost: HostId, destHost: HostId,
                           sourceDisplay: DisplayId, destDisplay: DisplayId)

  datatype Message = LeaveMsg(leave: Leave) | EnterMsg(enter: Enter) | AckMsg(ack: Ack) | CommitMsg(commit: Commit)

  function MakeLeave(id: U64, epoch: U64, t: Transition): Leave {
    Leave(id, epoch, id, t.sourceHost, t.sourceDisplay, t.sourceEdge, t.position)
  }

  function MakeEnter(id: U64, epoch: U64, t: Transition): Enter {
    Enter(id, epoch, id, t.sourceHost, t.destHost, t.sourceDisplay, t.destDisplay, t.destEdge, t.position)
  }

  function MakeAck(e: Enter, receiver: HostId, verdict: Verdict): Ack {
    Ack(e.id, e.epoch, receiver, e.destDisplay, verdict)
  }

  function MakeCommit(e: Enter, t: Transition): Commit {
    Commit(e.id, e.epoch, e.id, t.sourceHost, t.destHost, t.sourceDisplay, t.destDisplay)
  }

  // ---------------------------------------------------------------- coordinator state

  datatype Session = Session(generation: nat, localHost: HostId, remoteHost: HostId, credential: nat)

  datatype Lifecycle = Running | Revoked | ShuttingDown

  datatype View = View(localHost: HostId, activeHost: HostId, activeDisplay: DisplayId, pointer: Pointer)

  datatype Phase = LeaveQueued | EnterQueued | AwaitingAck | CommitQueued | CommitDispatching

  datatype Outbound = Outbound(session: Session, id: U64, deadline: U64, leave: Leave, enter: Enter,
                               acceptedAck: Option<Ack>, transition: Transition, phase: Phase)

  datatype Inbound =
    | Hint(session: Session, deadline: U64, leave: Leave, enter: Enter, transition: Transition)
    | Proposal(session: Session, deadline: U64, leave: Leave, enter: Enter, ack: Ack, transition: Transition)
    | Prepared(session: Session, deadline: U64, leave: Leave, enter: Enter, ack: Ack, commit: Commit,
               transition: Transition)

  datatype CompletedOut = CompletedOut(session: Session, ack: Ack)

  datatype CompletedIn = CompletedIn(session: Session, leave: Option<Leave>, enter: Enter, ack: Ack,
                                     commit: Option<Commit>)

  datatype ExpiredIn = ExpiredIn(session: Session, leave: Leave, enter: Enter)

  datatype Purpose = ForLeave | ForEnter | ForAcceptedAck | ForDuplicateAck | ForRejectedAck | ForCommit

  datatype Reply = Reply(session: Session, id: U64, deadline: U64, purpose: Purpose, enter: Enter, message: Message)

  /** A capability to send one message, to be settled as sent or failed. */
  datatype Effect = Effect(owner: nat, session: Session, id: U64, purpose: Purpose, message: Message)

  datatype Coordinator = Coordinator(
    owner: nat,
    timeout: U64,
    lifecycle: Lifecycle,
    session: Option<Session>,
    healthy: bool,
    workspace: Workspace,
    view: View,
    fallback: Pointer,
    now: U64,
    lastOut: U64,
    lastIn: U64,
    outbound: Option<Outbound>,
    inbound: Option<Inbound>,
    completedOut: Option<CompletedOut>,
    completedIn: Option<CompletedIn>,
    expiredIn: Option<ExpiredIn>,
    reply: Option<Reply>)

  datatype Error =
    | InvalidConfig | InvalidWorkspaceState | Unavailable | NoCurrentSession | StaleSession
    | NotAuthoritative | NotRemoteTransition | PendingConflict | InvalidWorkspaceEpoch | InvalidHost
    | InvalidDisplay | InvalidTransition | InvalidSequence | StaleSequence | FutureSequence
    | ConflictingReplay | SequenceExhausted | ClockRegressed | ClockOverflow | InvalidEffect | StaleEffect

  datatype Status = Applied | Duplicate | Cleared | NoChange

  datatype Completion = Sent | AuthorityCommitted | Next(effect: Effect)

  datatype AckOutcome = DuplicateAck | RejectedByPeer | CommitNext(effect: Effect)

  datatype Result<+T> = Ok(value: T) | Err(error: Error)

  /** One finished operation: the state it leaves and what it reports. */
  datatype Turn<+T> = Turn(state: Coordinator, result: Result<T>)

  // ---------------------------------------------------------------- shared pieces

  predicate HasLocalAuthority(c: Coordinator) {
    && c.view.activeHost == c.view.localHost
    && !(c.outbound.Some? && c.outbound.value.phase == CommitDispatching)
  }

  function SetActive(v: View, host: HostId, p: Pointer): View {
    v.(activeHost := host, activeDisplay := p.display, pointer := p)
  }

  function FailLocal(c: Coordinator): Coordinator {
    c.(view := SetActive(c.view, c.view.localHost, c.fallback))
  }

  function ClearTransitions(c: Coordinator): Coordinator {
    c.(outbound := None, inbound := None, completedOut := None, completedIn := None, expiredIn := None, reply := None)
  }

  predicate OutboundDue(c: Coordinator, now: U64) {
    c.outbound.Some? && c.outbound.value.deadline <= now
  }

  predicate InboundDue(c: Coordinator, now: U64) {
    c.inbound.Some? && c.inbound.value.deadline <= now
  }

  predicate ReplyDue(c: Coordinator, now: U64) {
    c.reply.Some? && c.reply.value.deadline <= now
  }

  /** Drops every pending item whose deadline has been reached. */
  function Expire(c: Coordinator, now: U64): Coordinator {
    var c1 := if InboundDue(c, now) then
                var p := c.inbound.value;
                c.(inbound := None,
                   lastIn := if p.Hint? then p.leave.id else c.lastIn,
                   expiredIn := Some(ExpiredIn(p.session, p.leave, p.enter)))
              else c;
    var c2 := if ReplyDue(c, now) then c1.(reply := None) else c1;
    if OutboundDue(c, now) then FailLocal(c2.(outbound := None)) else c2
  }

  /** Advances the monotonic clock and expires; nothing changes when the clock regressed. */
  function Prepare(c: Coordinator, now: U64): Turn<()> {
    if now < c.now then Turn(c, Err(ClockRegressed))
    else Turn(Expire(c.(now := now), now), Ok(()))
  }

  function RequireSession(c: Coordinator, s: Session): Result<()> {
    if c.session.None? then Err(NoCurrentSession)
    else if c.session.value != s then Err(StaleSession)
    else Ok(())
  }

  function RequireAvailable(c: Coordinator, s: Session): Result<()> {
    if c.lifecycle != Running then Err(Unavailable)
    else
      var r := RequireSession(c, s);
      if r.Err? then r
      else if !c.healthy then Err(Unavailable)
      else Ok(())
  }

  function Deadline(c: Coordinator, now: U64): Result<U64> {
    match CheckedAdd(now, c.timeout)
    case Some(d) => Ok(d)
    case None => Err(ClockOverflow)
  }

  function SequenceRelation(received: U64, current: U64): Error {
    if received == 0 then InvalidSequence
    else if received <= current then StaleSequence
    else FutureSequence
  }

  datatype Arrival = Replayed | Expected

  /** Classifies an inbound transition identifier against the last handled one. */
  function Classify(c: Coordinator, id: U64, sequence: U64): Turn<Arrival> {
    if id == 0 || id != sequence then Turn(c, Err(InvalidSequence))
    else if id == c.lastIn then Turn(c, Ok(Replayed))
    else if c.lastIn == U64_MAX then Turn(ClearTransitions(c), Err(SequenceExhausted))
    else if id < c.lastIn + 1 then Turn(c, Err(StaleSequence))
    else if id > c.lastIn + 1 then Turn(c, Err(FutureSequence))
    else Turn(c, Ok(Expected))
  }

  function MakeEffect(c: Coordinator, s: Session, id: U64, purpose: Purpose, m: Message): Effect {
    Effect(c.owner, s, id, purpose, m)
  }

  // ---------------------------------------------------------------- session and workspace lifecycle

  function BindSession(c: Coordinator, s: Session): Turn<Status> {
    if c.lifecycle != Running then Turn(c, Err(Unavailable))
    else if s.localHost != c.view.localHost || s.remoteHost == c.view.localHost then Turn(c, Err(InvalidHost))
    else if c.session == Some(s) then Turn(c, Ok(Duplicate))
    else
      var base := if c.session.Some? then ClearTransitions(FailLocal(c)) else c;
      Turn(base.(session := Some(s), healthy := true, lastOut := 0, lastIn := 0), Ok(Applied))
  }

  function MarkHealthy(c: Coordinator, s: Session): Turn<Status> {
    if c.lifecycle != Running then Turn(c, Err(Unavailable))
    else
      var r := RequireSession(c, s);
      if r.Err? then Turn(c, Err(r.error))
      else if c.healthy then Turn(c, Ok(Duplicate))
      else Turn(c.(healthy := true), Ok(Applied))
  }

  function DegradeSession(c: Coordinator, s: Session): Turn<Status> {
    var r := RequireSession(c, s);
    if r.Err? then Turn(c, Err(r.error))
    else
      Turn(ClearTransitions(FailLocal(c.(healthy := false))),
           Ok(if c.healthy || c.outbound.Some? || c.inbound.Some? then Cleared else Duplicate))
  }

  function DisconnectSession(c: Coordinator, s: Session): Turn<Status> {
    var r := RequireSession(c, s);
    if r.Err? then Turn(c, Err(r.error))
    else Turn(Terminated(c, c.lifecycle), Ok(Cleared))
  }

  /** Local authority, no transition state and no session. */
  function Terminated(c: Coordinator, lifecycle: Lifecycle): Coordinator {
    ClearTransitions(FailLocal(c)).(session := None, healthy := false, lifecycle := lifecycle)
  }

  predicate ValidFallback(local: HostId, w: Workspace, p: Pointer) {
    local != NIL && OwnerOf(w, p.display) == Some(local) && Contains(w, p)
  }

  predicate ValidView(w: Workspace, v: View) {
    && v.pointer.display == v.activeDisplay
    && OwnerOf(w, v.activeDisplay) == Some(v.activeHost)
    && Contains(w, v.pointer)
  }

  function ReplaceWorkspace(c: Coordinator, w: Workspace, fallback: Pointer): Turn<Status> {
    if c.lifecycle != Running then Turn(c, Err(Unavailable))
    else if w.epoch <= c.workspace.epoch then Turn(c, Err(InvalidWorkspaceEpoch))
    else if !ValidFallback(c.view.localHost, w, fallback) then Turn(c, Err(InvalidWorkspaceState))
    else Turn(ClearTransitions(FailLocal(c.(workspace := w, fallback := fallback))), Ok(Cleared))
  }

  function Create(owner: nat, timeout: U64, w: Workspace, v: View, fallback: Pointer): Result<Coordinator> {
    if !ValidView(w, v) || !ValidFallback(v.localHost, w, fallback) then Err(InvalidWorkspaceState)
    else Ok(Coordinator(owner, timeout, Running, None, false, w, v, fallback, 0, 0, 0,
                        None, None, None, None, None, None))
  }

  // ---------------------------------------------------------------- source side

  function ObservePointer(c: Coordinator, p: Pointer): Turn<Status> {
    if c.lifecycle != Running then Turn(c, Err(Unavailable))
    else if !HasLocalAuthority(c) then Turn(c, Err(NotAuthoritative))
    else if c.outbound.Some? || c.inbound.Some? || c.reply.Some? then Turn(c, Err(PendingConflict))
    else if OwnerOf(c.workspace, p.display) != Some(c.view.localHost) || !Contains(c.workspace, p) then
      Turn(c, Err(InvalidWorkspaceState))
    else if c.view.pointer == p then Turn(c, Ok(Duplicate))
    else Turn(c.(view := SetActive(c.view, c.view.localHost, p)), Ok(Applied))
  }

  function ProposeLeave(c0: Coordinator, s: Session, edge: Edge, position: real, now: U64): Turn<Effect> {
    var p := Prepare(c0, now);
    var c := p.state;
    if p.result.Err? then Turn(c, Err(p.result.error))
    else
      var a := RequireAvailable(c, s);
      if a.Err? then Turn(c, Err(a.error))
      else if c.outbound.Some? || c.inbound.Some? then Turn(c, Err(PendingConflict))
      else if !HasLocalAuthority(c) || c.view.activeDisplay != c.view.pointer.display then
        Turn(c, Err(NotAuthoritative))
      else
        match Resolve(c.workspace, c.view.activeDisplay, edge, position)
        case None => Turn(c, Err(InvalidTransition))
        case Some(t) =>
          if t.sourceHost != c.view.localHost || t.destHost != s.remoteHost then
            Turn(c, Err(NotRemoteTransition))
          else if c.lastOut == U64_MAX then Turn(FailLocal(c), Err(SequenceExhausted))
          else
            var id := c.lastOut + 1;
            var d := Deadline(c, now);
            if d.Err? then Turn(c, Err(d.error))
            else
              var leave := MakeLeave(id, c.workspace.protocolEpoch, t);
              var enter := MakeEnter(id, c.workspace.protocolEpoch, t);
              Turn(c.(lastOut := id,
                      outbound := Some(Outbound(s, id, d.value, leave, enter, None, t, LeaveQueued))),
                   Ok(MakeEffect(c, s, id, ForLeave, LeaveMsg(leave))))
  }

  predicate AckFits(o: Outbound, a: Ack) {
    a.epoch == o.enter.epoch && a.receiver == o.transition.destHost && a.display == o.enter.destDisplay
  }

  function ReceiveAck(c0: Coordinator, s: Session, a: Ack, now: U64): Turn<AckOutcome> {
    var p := Prepare(c0, now);
    var c := p.state;
    if p.result.Err? then Turn(c, Err(p.result.error))
    else
      var r := RequireAvailable(c, s);
      if r.Err? then Turn(c, Err(r.error))
      else if c.completedOut.Some? && c.completedOut.value.ack.id == a.id then
        Turn(c, if c.completedOut.value == CompletedOut(s, a) then Ok(DuplicateAck) else Err(ConflictingReplay))
      else if c.outbound.None? then Turn(c, Err(SequenceRelation(a.id, c.lastOut)))
      else
        var o := c.outbound.value;
        if a.id != o.id then Turn(c, Err(SequenceRelation(a.id, o.id)))
        else if o.session != s || o.phase != AwaitingAck then Turn(c, Err(StaleEffect))
        else if !AckFits(o, a) then Turn(FailLocal(c).(outbound := None), Err(ConflictingReplay))
        else if a.verdict != Accepted then
          Turn(FailLocal(c).(outbound := None, completedOut := Some(CompletedOut(s, a))), Ok(RejectedByPeer))
        else
          Turn(c.(outbound := Some(o.(phase := CommitQueued, acceptedAck := Some(a)))),
               Ok(CommitNext(MakeEffect(c, o.session, o.id, ForCommit, CommitMsg(MakeCommit(o.enter, o.transition))))))
  }

  // ---------------------------------------------------------------- destination side

  predicate RemoteMaySource(c: Coordinator, s: Session, source: DisplayId) {
    || (c.view.activeHost == s.remoteHost && OwnerOf(c.workspace, source) == Some(s.remoteHost))
    || HasLocalAuthority(c)
  }

  function LeaveAuthority(c: Coordinator, s: Session, m: Leave): Result<()> {
    if m.epoch != c.workspace.protocolEpoch then Err(InvalidWorkspaceEpoch)
    else if m.sourceHost != s.remoteHost then Err(InvalidHost)
    else if !RemoteMaySource(c, s, m.sourceDisplay) then Err(NotAuthoritative)
    else Ok(())
  }

  function EnterAuthority(c: Coordinator, s: Session, m: Enter): Result<()> {
    if m.epoch != c.workspace.protocolEpoch then Err(InvalidWorkspaceEpoch)
    else if m.sourceHost != s.remoteHost || m.destHost != c.view.localHost then Err(InvalidHost)
    else if OwnerOf(c.workspace, m.sourceDisplay) != Some(s.remoteHost)
            || OwnerOf(c.workspace, m.destDisplay) != Some(c.view.localHost) then Err(InvalidDisplay)
    else if !RemoteMaySource(c, s, m.sourceDisplay) then Err(NotAuthoritative)
    else Ok(())
  }

  predicate CrossesToLocal(c: Coordinator, t: Transition) {
    c.session.Some? && t.sourceHost == c.session.value.remoteHost && t.destHost == c.view.localHost
  }

  function CheckDestination(c: Coordinator, t: Transition): Result<Transition> {
    if c.session.None? then Err(NoCurrentSession)
    else if !CrossesToLocal(c, t) then Err(NotRemoteTransition)
    else Ok(t)
  }

  function ResolveLeave(c: Coordinator, m: Leave): Result<Transition> {
    match Resolve(c.workspace, m.sourceDisplay, m.edge, m.position)
    case None => Err(InvalidTransition)
    case Some(t) => CheckDestination(c, t)
  }

  /** The configured crossing over `edge` arrives exactly where the message says. */
  predicate EdgeMatches(w: Workspace, m: Enter, edge: Edge) {
    var r := Resolve(w, m.sourceDisplay, edge, m.position);
    && r.Some?
    && r.value.destDisplay == m.destDisplay && r.value.destEdge == m.destEdge
    && r.value.destHost == m.destHost && r.value.sourceHost == m.sourceHost
  }

  /** Links join opposite edges, so only the edge opposite the entered one can match. */
  function ResolveEnter(c: Coordinator, m: Enter): Result<Transition> {
    if EdgeMatches(c.workspace, m, m.destEdge.Opposite())
    then CheckDestination(c, Resolve(c.workspace, m.sourceDisplay, m.destEdge.Opposite(), m.position).value)
    else Err(InvalidTransition)
  }

  function ReplayedLeave(c: Coordinator, s: Session, m: Leave): Turn<Status> {
    if || (c.inbound.Some? && c.inbound.value.session == s && c.inbound.value.leave == m)
       || (c.completedIn.Some? && c.completedIn.value.session == s && c.completedIn.value.leave == Some(m))
       || (c.expiredIn.Some? && c.expiredIn.value.session == s && c.expiredIn.value.leave == m)
    then Turn(c, Ok(Duplicate))
    else Turn(c, Err(ConflictingReplay))
  }

  function ReceiveLeave(c0: Coordinator, s: Session, m: Leave, now: U64): Turn<Status> {
    var p := Prepare(c0, now);
    if p.result.Err? then Turn(p.state, Err(p.result.error))
    else
      var r := RequireAvailable(p.state, s);
      if r.Err? then Turn(p.state, Err(r.error))
      else if p.state.reply.Some? then Turn(p.state, Err(PendingConflict))
      else
        var k := Classify(p.state, m.id, m.sequence);
        if k.result.Err? then Turn(k.state, Err(k.result.error))
        else if k.result.value.Replayed? then ReplayedLeave(k.state, s, m)
        else AcceptLeave(k.state, s, m, now)
  }

  /** A Leave carrying the next expected identifier. */
  function AcceptLeave(c: Coordinator, s: Session, m: Leave, now: U64): Turn<Status> {
    if c.outbound.Some? then Turn(c, Err(PendingConflict))
    else if c.inbound.Some? then
      Turn(c, if c.inbound.value.leave == m then Ok(Duplicate) else Err(ConflictingReplay))
    else
      var a := LeaveAuthority(c, s, m);
      if a.Err? then Turn(c, Err(a.error))
      else
        var t := ResolveLeave(c, m);
        if t.Err? then Turn(c, Err(t.error))
        else
          var d := Deadline(c, now);
          if d.Err? then Turn(c, Err(d.error))
          else
            Turn(c.(inbound := Some(Hint(s, d.value, m, MakeEnter(m.id, c.workspace.protocolEpoch, t.value), t.value))),
                 Ok(Applied))
  }

  function SendReply(c: Coordinator, s: Session, m: Enter, purpose: Purpose, ack: Ack): Turn<Effect> {
    var d := Deadline(c, c.now);
    if d.Err? then Turn(c, Err(d.error))
    else
      Turn(c.(reply := Some(Reply(s, m.id, d.value, purpose, m, AckMsg(ack)))),
           Ok(MakeEffect(c, s, m.id, purpose, AckMsg(ack))))
  }

  /** Refuses an Enter and, as a side effect, discards whatever was pending inbound. */
  function Reject(c: Coordinator, s: Session, m: Enter, verdict: Verdict): Turn<Effect> {
    if c.reply.Some? then Turn(c, Err(PendingConflict))
    else
      var d := Deadline(c, c.now);
      if d.Err? then Turn(ClearTransitions(c), Err(d.error))
      else SendReply(c.(lastIn := m.id, inbound := None), s, m, ForRejectedAck, MakeAck(m, c.view.localHost, verdict))
  }

  function Accept(c: Coordinator, s: Session, m: Enter, t: Transition, deadline: U64): Turn<Effect> {
    var leave := MakeLeave(m.id, c.workspace.protocolEpoch, t);
    var ack := MakeAck(m, c.view.localHost, Accepted);
    Turn(c.(lastIn := m.id, inbound := Some(Proposal(s, deadline, leave, m, ack, t))),
         Ok(MakeEffect(c, s, m.id, ForAcceptedAck, AckMsg(ack))))
  }

  function ReplayedEnter(c: Coordinator, s: Session, m: Enter): Turn<Effect> {
    if c.expiredIn.Some? && c.expiredIn.value.session == s && c.expiredIn.value.enter == m then
      Turn(c, Err(StaleEffect))
    else if c.inbound.Some? && c.inbound.value.Proposal? && c.inbound.value.session == s
      && c.inbound.value.enter == m then
      Turn(c, Err(StaleEffect))
    else if c.inbound.Some? && c.inbound.value.Prepared? && c.inbound.value.session == s
      && c.inbound.value.enter == m then
      SendReply(c, s, m, ForDuplicateAck, c.inbound.value.ack)
    else if c.completedIn.Some? && c.completedIn.value.session == s && c.completedIn.value.enter == m then
      if c.reply.Some? then Turn(c, Err(PendingConflict))
      else SendReply(c, s, m, ForDuplicateAck, c.completedIn.value.ack)
    else
      Turn(c, Err(ConflictingReplay))
  }

  function VerdictFor(e: Error): Verdict {
    match e
    case InvalidWorkspaceEpoch => StaleEpoch
    case InvalidDisplay => UnknownDisplay
    case NotAuthoritative => NotOwner
    case InvalidHost => NotOwner
    case _ => Refused
  }

  function ReceiveEnter(c0: Coordinator, s: Session, m: Enter, now: U64): Turn<Effect> {
    var p := Prepare(c0, now);
    if p.result.Err? then Turn(p.state, Err(p.result.error))
    else
      var r := RequireAvailable(p.state, s);
      if r.Err? then Turn(p.state, Err(r.error))
      else if p.state.reply.Some? then
        Turn(p.state, Err(if p.state.reply.value.session == s && p.state.reply.value.enter == m
                          then StaleEffect else PendingConflict))
      else
        var k := Classify(p.state, m.id, m.sequence);
        if k.result.Err? then Turn(k.state, Err(k.result.error))
        else if k.result.value.Replayed? then ReplayedEnter(k.state, s, m)
        else DecideEnter(k.state, s, m, now)
  }

  /** An Enter carrying the next expected identifier. */
  function DecideEnter(c: Coordinator, s: Session, m: Enter, now: U64): Turn<Effect> {
    if c.outbound.Some? then Reject(c, s, m, Refused)
    else if c.inbound.Some? then
      var i := c.inbound.value;
      if i.Hint? && i.session == s && i.enter == m then Accept(c, s, m, i.transition, i.deadline)
      else if i.Proposal? && i.session == s && i.enter == m then Turn(c, Err(StaleEffect))
      else Reject(c, s, m, Refused)
    else
      var a := EnterAuthority(c, s, m);
      if a.Err? then Reject(c, s, m, VerdictFor(a.error))
      else
        var t := ResolveEnter(c, m);
        if t.Err? then Reject(c, s, m, if t.error == InvalidDisplay then UnknownDisplay else Refused)
        else
          var d := Deadline(c, now);
          if d.Err? then Turn(c, Err(d.error))
          else Accept(c, s, m, t.value, d.value)
  }

  function ReceiveCommit(c0: Coordinator, s: Session, m: Commit, now: U64): Turn<Status> {
    var p := Prepare(c0, now);
    var c := p.state;
    if p.result.Err? then Turn(c, Err(p.result.error))
    else
      var r := RequireAvailable(c, s);
      if r.Err? then Turn(c, Err(r.error))
      else if m.id == 0 || m.id != m.sequence then Turn(c, Err(InvalidSequence))
      else if c.completedIn.Some? && c.completedIn.value.commit.Some?
              && c.completedIn.value.commit.value.id == m.id then
        Turn(c, if c.completedIn.value.session == s && c.completedIn.value.commit == Some(m)
                then Ok(Duplicate) else Err(ConflictingReplay))
      else if c.inbound.None? || !c.inbound.value.Prepared? then Turn(c, Err(SequenceRelation(m.id, c.lastIn)))
      else if c.inbound.value.session != s || c.inbound.value.commit != m then Turn(c, Err(ConflictingReplay))
      else Turn(ApplyCommit(c), Ok(Applied))
  }

  /** The destination takes authority over the prepared transition. */
  function ApplyCommit(c: Coordinator): Coordinator
    requires c.inbound.Some? && c.inbound.value.Prepared?
  {
    var i := c.inbound.value;
    c.(inbound := None,
       view := SetActive(c.view, i.transition.destHost, i.transition.pointer),
       fallback := i.transition.pointer,
       completedIn := Some(CompletedIn(i.session, Some(i.leave), i.enter, i.ack, Some(i.commit))))
  }

  // ---------------------------------------------------------------- effects

  predicate MatchesOutbound(c: Coordinator, e: Effect) {
    && c.outbound.Some?
    && var o := c.outbound.value;
    && o.session == e.session && o.id == e.id
    && match o.phase
       case LeaveQueued => e.purpose == ForLeave && e.message == LeaveMsg(o.leave)
       case EnterQueued => e.purpose == ForEnter && e.message == EnterMsg(o.enter)
       case AwaitingAck => false
       case CommitQueued => e.purpose == ForCommit && e.message == CommitMsg(MakeCommit(o.enter, o.transition))
       case CommitDispatching => e.purpose == ForCommit && e.message == CommitMsg(MakeCommit(o.enter, o.transition))
  }

  predicate MatchesInboundAck(c: Coordinator, e: Effect) {
    && c.inbound.Some? && c.inbound.value.Proposal?
    && c.inbound.value.session == e.session
    && c.inbound.value.enter.id == e.id
    && e.message == AckMsg(c.inbound.value.ack)
  }

  predicate MatchesReply(c: Coordinator, e: Effect) {
    && c.reply.Some?
    && c.reply.value.session == e.session && c.reply.value.id == e.id && c.reply.value.purpose == e.purpose
    && e.message.AckMsg? && c.reply.value.message == e.message
  }

  predicate EffectReady(c: Coordinator, e: Effect) {
    match e.purpose
    case ForLeave => MatchesOutbound(c, e)
    case ForEnter => MatchesOutbound(c, e)
    case ForAcceptedAck => MatchesInboundAck(c, e)
    case ForCommit => MatchesOutbound(c, e) && c.outbound.value.phase == CommitQueued
    case _ => MatchesReply(c, e)
  }

  /**
   First half of a dispatch: the effect is checked against the state and, for a Commit,
   the coordinator gives up operational authority before the message can be queued.
   */
  function BeginDispatch(c0: Coordinator, e: Effect, now: U64): Turn<()> {
    var p := Prepare(c0, now);
    var c := p.state;
    if p.result.Err? then Turn(c, Err(p.result.error))
    else if e.owner != c.owner then Turn(c, Err(InvalidEffect))
    else
      var r := RequireAvailable(c, e.session);
      if r.Err? then Turn(c, Err(r.error))
      else if !EffectReady(c, e) then Turn(c, Err(StaleEffect))
      else if e.purpose == ForCommit then
        Turn(c.(outbound := Some(c.outbound.value.(phase := CommitDispatching))), Ok(()))
      else Turn(c, Ok(()))
  }

  /** The message entered the queue. */
  function EffectSent(c0: Coordinator, e: Effect, now: U64): Turn<Completion> {
    var p := Prepare(c0, now);
    var c := p.state;
    if p.result.Err? then Turn(c, Err(p.result.error))
    else if e.owner != c.owner then Turn(c, Err(InvalidEffect))
    else
      var r := RequireAvailable(c, e.session);
      if r.Err? then Turn(c, Err(r.error))
      else
        match e.purpose
        case ForLeave => LeaveSent(c, e)
        case ForEnter => EnterSent(c, e)
        case ForAcceptedAck => AcceptedAckSent(c, e)
        case ForCommit => CommitSent(c, e)
        case _ => ReplySent(c, e)
  }

  function LeaveSent(c: Coordinator, e: Effect): Turn<Completion> {
    if c.outbound.None? then Turn(c, Err(StaleEffect))
    else
      var o := c.outbound.value;
      if o.session != e.session || o.id != e.id || o.phase != LeaveQueued || e.message != LeaveMsg(o.leave) then
        Turn(c, Err(InvalidEffect))
      else
        Turn(c.(outbound := Some(o.(phase := EnterQueued))),
             Ok(Next(MakeEffect(c, o.session, o.id, ForEnter, EnterMsg(o.enter)))))
  }

  function EnterSent(c: Coordinator, e: Effect): Turn<Completion> {
    if c.outbound.None? then Turn(c, Err(StaleEffect))
    else
      var o := c.outbound.value;
      if o.session != e.session || o.id != e.id || o.phase != EnterQueued || e.message != EnterMsg(o.enter) then
        Turn(c, Err(InvalidEffect))
      else Turn(c.(outbound := Some(o.(phase := AwaitingAck))), Ok(Sent))
  }

  /** Anything pending that is not a proposal is dropped by a late acknowledgement report. */
  function AcceptedAckSent(c: Coordinator, e: Effect): Turn<Completion> {
    if c.inbound.None? || !c.inbound.value.Proposal? then Turn(c.(inbound := None), Err(StaleEffect))
    else if !MatchesInboundAck(c, e) then Turn(c, Err(InvalidEffect))
    else
      var i := c.inbound.value;
      Turn(c.(inbound := Some(Prepared(i.session, i.deadline, i.leave, i.enter, i.ack,
                                       MakeCommit(i.enter, i.transition), i.transition))), Ok(Sent))
  }

  function CommitSent(c: Coordinator, e: Effect): Turn<Completion> {
    if !MatchesOutbound(c, e) || c.outbound.value.phase != CommitDispatching then Turn(c, Err(StaleEffect))
    else
      var o := c.outbound.value;
      if o.acceptedAck.None? then Turn(FailLocal(c.(outbound := None)), Err(InvalidEffect))
      else
        Turn(c.(outbound := None,
                view := SetActive(c.view, o.transition.destHost, o.transition.pointer),
                completedOut := Some(CompletedOut(o.session, o.acceptedAck.value))), Ok(AuthorityCommitted))
  }

  function ReplySent(c: Coordinator, e: Effect): Turn<Completion> {
    if !MatchesReply(c, e) then Turn(c, Err(StaleEffect))
    else
      var r := c.reply.value;
      var done := if r.purpose == ForRejectedAck
                  then Some(CompletedIn(r.session, None, r.enter, r.message.ack, None)) else c.completedIn;
      Turn(c.(reply := None, completedIn := done), Ok(Sent))
  }

  /** The message could not be queued. */
  function EffectFailed(c: Coordinator, e: Effect): Turn<Status> {
    if e.owner != c.owner then Turn(c, Err(InvalidEffect))
    else if c.session != Some(e.session) then Turn(c, Err(StaleEffect))
    else
      match e.purpose
      case ForAcceptedAck =>
        if !MatchesInboundAck(c, e) then Turn(c, Err(StaleEffect))
        else Turn(c.(inbound := None), Ok(Cleared))
      case ForDuplicateAck =>
        if !MatchesReply(c, e) then Turn(c, Err(StaleEffect)) else Turn(c.(reply := None), Ok(NoChange))
      case ForRejectedAck =>
        if !MatchesReply(c, e) then Turn(c, Err(StaleEffect)) else Turn(c.(reply := None), Ok(NoChange))
      case _ =>
        if !MatchesOutbound(c, e) then Turn(c, Err(StaleEffect))
        else Turn(FailLocal(c.(outbound := None)), Ok(Cleared))
  }
}
