/**
 The coordinator as the daemon runs it: fields updated in place, early returns, a search
 over edges. Every method is tied to the value-level operation of the same name; what a
 caller sees keeps the coordinator valid and says where authority went.
 */
module CoordinatorCore {
  import opened Base
  import opened Topology
  import opened Handoff
  import V = HandoffValidity

  datatype DispatchOutcome = Completed(completion: Completion) | HandoffError(error: Error) | QueueError

  class Core {
    const owner: nat
    const timeout: U64
    var lifecycle: Lifecycle
    var session: Option<Session>
    var healthy: bool
    var workspace: Workspace
    var view: View
    var fallback: Pointer
    var clock: U64
    var lastOut: U64
    var lastIn: U64
    var outbound: Option<Outbound>
    var inbound: Option<Inbound>
    var completedOut: Option<CompletedOut>
    var completedIn: Option<CompletedIn>
    var expiredIn: Option<ExpiredIn>
    var reply: Option<Reply>

    /** The fields as one value; the read-only checks are functions of it. */
    function State(): Coordinator
      reads this
    {
      Coordinator(owner, timeout, lifecycle, session, healthy, workspace, view, fallback, clock, lastOut, lastIn,
                  outbound, inbound, completedOut, completedIn, expiredIn, reply)
    }

    ghost predicate Valid()
      reads this
    {
      V.Valid(State())
    }

    constructor (owner: nat, timeout: U64, w: Workspace, v: View, local: Pointer)
      requires timeout > 0 && ValidView(w, v) && ValidFallback(v.localHost, w, local)
      ensures Create(owner, timeout, w, v, local) == Ok(State()) && Valid()
    {
      this.owner, this.timeout := owner, timeout;
      lifecycle, session, healthy := Running, None, false;
      workspace, view, fallback := w, v, local;
      clock, lastOut, lastIn := 0, 0, 0;
      outbound, inbound, completedOut, completedIn, expiredIn, reply := None, None, None, None, None, None;
    }

    method SetActivePointer(host: HostId, p: Pointer)
      modifies this`view
      ensures view == SetActive(old(view), host, p)
    {
      view := view.(activeHost := host);
      view := view.(activeDisplay := p.display);
      view := view.(pointer := p);
    }

    method FailLocal()
      modifies this`view
      ensures State() == Handoff.FailLocal(old(State()))
    {
      SetActivePointer(view.localHost, fallback);
    }

    method ClearTransitionState()
      modifies this
      ensures State() == ClearTransitions(old(State()))
    {
      outbound := None;
      inbound := None;
      completedOut := None;
      completedIn := None;
      expiredIn := None;
      reply := None;
    }

    method ExpireDue(now: U64) returns (outboundDue: bool, inboundDue: bool, replyDue: bool)
      modifies this
      ensures State() == Expire(old(State()), now)
      ensures outboundDue == OutboundDue(old(State()), now)
      ensures inboundDue == InboundDue(old(State()), now)
      ensures replyDue == ReplyDue(old(State()), now)
    {
      outboundDue := outbound.Some? && now >= outbound.value.deadline;
      inboundDue := inbound.Some? && now >= inbound.value.deadline;
      replyDue := reply.Some? && now >= reply.value.deadline;
      if outboundDue {
        outbound := None;
      }
      if inboundDue {
        var pending := inbound.value;
        inbound := None;
        if pending.Hint? {
          lastIn := pending.leave.id;
        }
        expiredIn := Some(ExpiredIn(pending.session, pending.leave, pending.enter));
      }
      if replyDue {
        reply := None;
      }
      if outboundDue {
        FailLocal();
      }
    }

    method PrepareOperation(now: U64) returns (r: Result<()>)
      modifies this
      ensures Prepare(old(State()), now) == Turn(State(), r)
    {
      if now < clock {
        return Err(ClockRegressed);
      }
      clock := now;
      var _, _, _ := ExpireDue(now);
      return Ok(());
    }

    /** Advances the clock and reports what ran out of time. */
    method PollTimeout(now: U64) returns (r: Result<(bool, bool, bool)>)
      requires Valid()
      modifies this
      ensures State() == Prepare(old(State()), now).state && V.Kept(old(State()), State())
      ensures r.Err? <==> now < old(clock)
      ensures r.Ok? ==>
                r.value == (OutboundDue(old(State()), now), InboundDue(old(State()), now), ReplyDue(old(State()), now))
      ensures r.Ok? && r.value.0 ==> HasLocalAuthority(State())
    {
      V.PrepareKept(State(), now);
      if now < clock {
        return Err(ClockRegressed);
      }
      clock := now;
      var outboundDue, inboundDue, replyDue := ExpireDue(now);
      return Ok((outboundDue, inboundDue, replyDue));
    }

    method BindSession(s: Session) returns (r: Result<Status>)
      requires Valid()
      modifies this
      ensures Handoff.BindSession(old(State()), s) == Turn(State(), r)
      ensures Valid()
    {
      V.ApplyKept(State(), V.Bind(s));
      if lifecycle != Running {
        return Err(Unavailable);
      }
      if s.localHost != view.localHost || s.remoteHost == view.localHost {
        return Err(InvalidHost);
      }
      if session == Some(s) {
        return Ok(Duplicate);
      }
      if session.Some? {
        FailLocal();
        ClearTransitionState();
      }
      session := Some(s);
      healthy := true;
      lastOut := 0;
      lastIn := 0;
      return Ok(Applied);
    }

    method MarkSessionHealthy(s: Session) returns (r: Result<Status>)
      requires Valid()
      modifies this
      ensures MarkHealthy(old(State()), s) == Turn(State(), r)
      ensures V.Kept(old(State()), State())
    {
      V.ApplyKept(State(), V.Healthy(s));
      if lifecycle != Running {
        return Err(Unavailable);
      }
      var required := RequireSession(State(), s);
      if required.Err? {
        return Err(required.error);
      }
      if healthy {
        return Ok(Duplicate);
      }
      healthy := true;
      return Ok(Applied);
    }

    method DegradeSession(s: Session) returns (r: Result<Status>)
      requires Valid()
      modifies this
      ensures Handoff.DegradeSession(old(State()), s) == Turn(State(), r)
      ensures Valid()
      ensures r.Ok? ==> HasLocalAuthority(State()) && !healthy
    {
      V.ApplyKept(State(), V.Degrade(s));
      var required := RequireSession(State(), s);
      if required.Err? {
        return Err(required.error);
      }
      var changed := healthy || outbound.Some? || inbound.Some?;
      healthy := false;
      FailLocal();
      ClearTransitionState();
      return Ok(if changed then Cleared else Duplicate);
    }

    method DisconnectSession(s: Session) returns (r: Result<Status>)
      requires Valid()
      modifies this
      ensures Handoff.DisconnectSession(old(State()), s) == Turn(State(), r)
      ensures Valid()
      ensures r.Ok? ==> HasLocalAuthority(State()) && session.None?
    {
      V.ApplyKept(State(), V.Disconnect(s));
      var required := RequireSession(State(), s);
      if required.Err? {
        return Err(required.error);
      }
      FailLocal();
      ClearTransitionState();
      session := None;
      healthy := false;
      return Ok(Cleared);
    }

    /** Revocation and shutdown: the same cleanup into different final lifecycles. */
    method Terminate(final: Lifecycle)
      requires Valid()
      modifies this
      ensures State() == Terminated(old(State()), final)
      ensures Valid()
      ensures HasLocalAuthority(State()) && session.None?
    {
      V.ApplyKept(State(), if final == Revoked then V.Revoke else V.Shutdown);
      FailLocal();
      ClearTransitionState();
      session := None;
      healthy := false;
      lifecycle := final;
    }

    method ReplaceWorkspace(w: Workspace, local: Pointer) returns (r: Result<Status>)
      requires Valid()
      modifies this
      ensures Handoff.ReplaceWorkspace(old(State()), w, local) == Turn(State(), r)
      ensures Valid()
      ensures r.Ok? ==> HasLocalAuthority(State()) && view.pointer == local
    {
      V.ApplyKept(State(), V.Replace(w, local));
      if lifecycle != Running {
        return Err(Unavailable);
      }
      if w.epoch <= workspace.epoch {
        return Err(InvalidWorkspaceEpoch);
      }
      if !ValidFallback(view.localHost, w, local) {
        return Err(InvalidWorkspaceState);
      }
      workspace := w;
      fallback := local;
      FailLocal();
      ClearTransitionState();
      return Ok(Cleared);
    }

    method ObserveLocalPointer(p: Pointer) returns (r: Result<Status>)
      requires Valid()
      modifies this
      ensures ObservePointer(old(State()), p) == Turn(State(), r)
      ensures V.Kept(old(State()), State())
    {
      V.ApplyKept(State(), V.Observe(p));
      if lifecycle != Running {
        return Err(Unavailable);
      }
      if !HasLocalAuthority(State()) {
        return Err(NotAuthoritative);
      }
      if outbound.Some? || inbound.Some? || reply.Some? {
        return Err(PendingConflict);
      }
      if OwnerOf(workspace, p.display) != Some(view.localHost) || !Contains(workspace, p) {
        return Err(InvalidWorkspaceState);
      }
      if view.pointer == p {
        return Ok(Duplicate);
      }
      SetActivePointer(view.localHost, p);
      return Ok(Applied);
    }

    method ProposeLeave(s: Session, edge: Edge, position: real, now: U64) returns (r: Result<Effect>)
      requires Valid()
      modifies this
      ensures Handoff.ProposeLeave(old(State()), s, edge, position, now) == Turn(State(), r)
      ensures V.Kept(old(State()), State())
    {
      hide Resolve, Expire, V.Valid;
      V.ProposeKept(State(), s, edge, position, now);
      var prepared := PrepareOperation(now);
      if prepared.Err? {
        return Err(prepared.error);
      }
      var available := RequireAvailable(State(), s);
      if available.Err? {
        return Err(available.error);
      }
      if outbound.Some? || inbound.Some? {
        return Err(PendingConflict);
      }
      if !HasLocalAuthority(State()) || view.activeDisplay != view.pointer.display {
        return Err(NotAuthoritative);
      }
      var resolved := Resolve(workspace, view.activeDisplay, edge, position);
      if resolved.None? {
        return Err(InvalidTransition);
      }
      var transition := resolved.value;
      if transition.sourceHost != view.localHost || transition.destHost != s.remoteHost {
        return Err(NotRemoteTransition);
      }
      if lastOut == U64_MAX {
        FailLocal();
        return Err(SequenceExhausted);
      }
      var id := lastOut + 1;
      var deadline := Deadline(State(), now);
      if deadline.Err? {
        return Err(deadline.error);
      }
      var leave := MakeLeave(id, workspace.protocolEpoch, transition);
      var enter := MakeEnter(id, workspace.protocolEpoch, transition);
      lastOut := id;
      outbound := Some(Outbound(s, id, deadline.value, leave, enter, None, transition, LeaveQueued));
      return Ok(MakeEffect(State(), s, id, ForLeave, LeaveMsg(leave)));
    }

    method ClassifyInboundSequence(id: U64, sequence: U64) returns (r: Result<Arrival>)
      modifies this
      ensures Classify(old(State()), id, sequence) == Turn(State(), r)
    {
      if id == 0 || id != sequence {
        return Err(InvalidSequence);
      }
      if id == lastIn {
        return Ok(Replayed);
      }
      var expected := CheckedAdd(lastIn, 1);
      if expected.None? {
        ClearTransitionState();
        return Err(SequenceExhausted);
      }
      if id < expected.value {
        return Err(StaleSequence);
      }
      if id > expected.value {
        return Err(FutureSequence);
      }
      return Ok(Expected);
    }

    method ReceiveLeave(s: Session, m: Leave, now: U64) returns (r: Result<Status>)
      requires Valid()
      modifies this
      ensures Handoff.ReceiveLeave(old(State()), s, m, now) == Turn(State(), r)
      ensures V.Kept(old(State()), State())
    {
      hide Resolve, Expire, V.Valid;
      V.LeaveKept(State(), s, m, now);
      var prepared := PrepareOperation(now);
      if prepared.Err? {
        return Err(prepared.error);
      }
      var available := RequireAvailable(State(), s);
      if available.Err? {
        return Err(available.error);
      }
      if reply.Some? {
        return Err(PendingConflict);
      }
      var arrival := ClassifyInboundSequence(m.id, m.sequence);
      if arrival.Err? {
        return Err(arrival.error);
      }
      if arrival.value == Replayed {
        return ReplayedLeave(State(), s, m).result;
      }
      if outbound.Some? {
        return Err(PendingConflict);
      }
      if inbound.Some? {
        return if inbound.value.leave == m then Ok(Duplicate) else Err(ConflictingReplay);
      }
      var authority := LeaveAuthority(State(), s, m);
      if authority.Err? {
        return Err(authority.error);
      }
      var resolved := ResolveLeave(State(), m);
      if resolved.Err? {
        return Err(resolved.error);
      }
      var enter := MakeEnter(m.id, workspace.protocolEpoch, resolved.value);
      var deadline := Deadline(State(), now);
      if deadline.Err? {
        return Err(deadline.error);
      }
      inbound := Some(Hint(s, deadline.value, m, enter, resolved.value));
      return Ok(Applied);
    }

    /**
     Searches all edges for the one crossing that arrives where the message says. The search
     would reject two matches; links join opposite edges, so there is never more than one.
     */
    method ResolveEnter(m: Enter) returns (r: Result<Transition>)
      ensures r == Handoff.ResolveEnter(State(), m)
    {
      hide Resolve;
      var matched: Option<Transition> := None;
      for i := 0 to |EDGES|
        invariant matched.Some? <==> exists k :: 0 <= k < i && EdgeMatches(workspace, m, EDGES[k])
        invariant matched.Some? ==>
                    && EdgeMatches(workspace, m, m.destEdge.Opposite())
                    && Some(matched.value) == Resolve(workspace, m.sourceDisplay, m.destEdge.Opposite(), m.position)
      {
        var candidate := Resolve(workspace, m.sourceDisplay, EDGES[i], m.position);
        if EdgeMatches(workspace, m, EDGES[i]) {
          assert EDGES[i] == m.destEdge.Opposite();
          assert matched.None? by { EdgesDistinct(i); }
          if matched.Some? {
            return Err(InvalidTransition);
          }
          matched := candidate;
        }
      }
      assert EdgeMatches(workspace, m, m.destEdge.Opposite()) ==> matched.Some? by {
        var k := EdgeIndex(m.destEdge.Opposite());
      }
      if matched.None? {
        return Err(InvalidTransition);
      }
      return CheckDestination(State(), matched.value);
    }

    method RejectEnter(s: Session, m: Enter, verdict: Verdict) returns (r: Result<Effect>)
      modifies this
      ensures Reject(old(State()), s, m, verdict) == Turn(State(), r)
    {
      if reply.Some? {
        return Err(PendingConflict);
      }
      var ack := MakeAck(m, view.localHost, verdict);
      var deadline := Deadline(State(), clock);
      if deadline.Err? {
        ClearTransitionState();
        return Err(deadline.error);
      }
      lastIn := m.id;
      inbound := None;
      reply := Some(Reply(s, m.id, deadline.value, ForRejectedAck, m, AckMsg(ack)));
      return Ok(MakeEffect(State(), s, m.id, ForRejectedAck, AckMsg(ack)));
    }

    method AcceptEnter(s: Session, m: Enter, transition: Transition, deadline: U64) returns (effect: Effect)
      modifies this
      ensures Accept(old(State()), s, m, transition, deadline) == Turn(State(), Ok(effect))
    {
      var leave := MakeLeave(m.id, workspace.protocolEpoch, transition);
      var ack := MakeAck(m, view.localHost, Accepted);
      lastIn := m.id;
      inbound := Some(Proposal(s, deadline, leave, m, ack, transition));
      effect := MakeEffect(State(), s, m.id, ForAcceptedAck, AckMsg(ack));
    }

    method RepeatAck(s: Session, m: Enter, ack: Ack) returns (r: Result<Effect>)
      modifies this
      ensures SendReply(old(State()), s, m, ForDuplicateAck, ack) == Turn(State(), r)
    {
      var deadline := Deadline(State(), clock);
      if deadline.Err? {
        return Err(deadline.error);
      }
      reply := Some(Reply(s, m.id, deadline.value, ForDuplicateAck, m, AckMsg(ack)));
      return Ok(MakeEffect(State(), s, m.id, ForDuplicateAck, AckMsg(ack)));
    }

    method DuplicateEnter(s: Session, m: Enter) returns (r: Result<Effect>)
      modifies this
      ensures ReplayedEnter(old(State()), s, m) == Turn(State(), r)
    {
      if expiredIn.Some? && expiredIn.value.session == s && expiredIn.value.enter == m {
        return Err(StaleEffect);
      }
      if inbound.Some? && inbound.value.session == s && inbound.value.enter == m {
        if inbound.value.Proposal? {
          return Err(StaleEffect);
        }
        if inbound.value.Prepared? {
          r := RepeatAck(s, m, inbound.value.ack);
          return;
        }
      }
      if completedIn.Some? && completedIn.value.session == s && completedIn.value.enter == m {
        if reply.Some? {
          return Err(PendingConflict);
        }
        r := RepeatAck(s, m, completedIn.value.ack);
        return;
      }
      return Err(ConflictingReplay);
    }

    method ReceiveEnter(s: Session, m: Enter, now: U64) returns (r: Result<Effect>)
      requires Valid()
      modifies this
      ensures Handoff.ReceiveEnter(old(State()), s, m, now) == Turn(State(), r)
      ensures V.Kept(old(State()), State())
    {
      hide Resolve, Expire, Reject, Accept, ReplayedEnter, EnterAuthority, Handoff.ResolveEnter, DecideEnter, V.Valid;
      V.EnterKept(State(), s, m, now);
      var prepared := PrepareOperation(now);
      if prepared.Err? {
        return Err(prepared.error);
      }
      var available := RequireAvailable(State(), s);
      if available.Err? {
        return Err(available.error);
      }
      if reply.Some? {
        return Err(if reply.value.session == s && reply.value.enter == m then StaleEffect else PendingConflict);
      }
      var arrival := ClassifyInboundSequence(m.id, m.sequence);
      if arrival.Err? {
        return Err(arrival.error);
      }
      if arrival.value == Replayed {
        r := DuplicateEnter(s, m);
        return;
      }
      r := ReceiveNextEnter(s, m, now);
    }

    method ReceiveNextEnter(s: Session, m: Enter, now: U64) returns (r: Result<Effect>)
      modifies this
      ensures DecideEnter(old(State()), s, m, now) == Turn(State(), r)
    {
      hide Resolve, Reject, Accept, EnterAuthority, Handoff.ResolveEnter;
      if outbound.Some? {
        r := RejectEnter(s, m, Refused);
        return;
      }
      if inbound.Some? {
        var pending := inbound.value;
        if pending.session == s && pending.enter == m {
          if pending.Hint? {
            var effect := AcceptEnter(s, m, pending.transition, pending.deadline);
            return Ok(effect);
          }
          if pending.Proposal? {
            return Err(StaleEffect);
          }
        }
        r := RejectEnter(s, m, Refused);
        return;
      }
      var authority := EnterAuthority(State(), s, m);
      if authority.Err? {
        r := RejectEnter(s, m, VerdictFor(authority.error));
        return;
      }
      var resolved := ResolveEnter(m);
      if resolved.Err? {
        r := RejectEnter(s, m, if resolved.error == InvalidDisplay then UnknownDisplay else Refused);
        return;
      }
      var deadline := Deadline(State(), now);
      if deadline.Err? {
        return Err(deadline.error);
      }
      var effect := AcceptEnter(s, m, resolved.value, deadline.value);
      return Ok(effect);
    }

    method ReceiveAck(s: Session, a: Ack, now: U64) returns (r: Result<AckOutcome>)
      requires Valid()
      modifies this
      ensures Handoff.ReceiveAck(old(State()), s, a, now) == Turn(State(), r)
      ensures V.Kept(old(State()), State())
      ensures view.activeHost == old(view.activeHost)
      ensures r.Ok? && r.value.CommitNext? ==>
                && a.verdict == Accepted && a.id == old(lastOut) && r.value.effect.purpose == ForCommit
                && old(outbound).Some? && old(outbound).value.phase == AwaitingAck && HasLocalAuthority(State())
      ensures r == Ok(RejectedByPeer) ==> HasLocalAuthority(State())
    {
      hide Resolve, Expire, V.Valid;
      V.AckKept(State(), s, a, now);
      V.AckPermits(State(), s, a, now);
      var prepared := PrepareOperation(now);
      if prepared.Err? {
        return Err(prepared.error);
      }
      var available := RequireAvailable(State(), s);
      if available.Err? {
        return Err(available.error);
      }
      if completedOut.Some? && a.id == completedOut.value.ack.id {
        if completedOut.value.session == s && completedOut.value.ack == a {
          return Ok(DuplicateAck);
        }
        return Err(ConflictingReplay);
      }
      if outbound.None? {
        return Err(SequenceRelation(a.id, lastOut));
      }
      var pending := outbound.value;
      if a.id != pending.id {
        return Err(SequenceRelation(a.id, pending.id));
      }
      if pending.session != s || pending.phase != AwaitingAck {
        return Err(StaleEffect);
      }
      if !AckFits(pending, a) {
        FailLocal();
        outbound := None;
        return Err(ConflictingReplay);
      }
      if a.verdict != Accepted {
        outbound := None;
        FailLocal();
        completedOut := Some(CompletedOut(s, a));
        return Ok(RejectedByPeer);
      }
      var commit := MakeCommit(pending.enter, pending.transition);
      outbound := Some(pending.(phase := CommitQueued, acceptedAck := Some(a)));
      return Ok(CommitNext(MakeEffect(State(), pending.session, pending.id, ForCommit, CommitMsg(commit))));
    }

    method ReceiveCommit(s: Session, m: Commit, now: U64) returns (r: Result<Status>)
      requires Valid()
      modifies this
      ensures Handoff.ReceiveCommit(old(State()), s, m, now) == Turn(State(), r)
      ensures Valid()
      ensures r == Ok(Applied) ==>
                && HasLocalAuthority(State())
                && old(inbound).Some? && old(inbound).value.Prepared? && old(inbound).value.commit == m
                && view.pointer == fallback == old(inbound).value.transition.pointer
      ensures r != Ok(Applied) ==> view.activeHost == old(view.activeHost)
    {
      hide Resolve, Expire, V.Valid;
      V.CommitValid(State(), s, m, now);
      V.CommitGrants(State(), s, m, now);
      var prepared := PrepareOperation(now);
      if prepared.Err? {
        return Err(prepared.error);
      }
      var available := RequireAvailable(State(), s);
      if available.Err? {
        return Err(available.error);
      }
      if m.id == 0 || m.id != m.sequence {
        return Err(InvalidSequence);
      }
      if completedIn.Some? && completedIn.value.commit.Some? && completedIn.value.commit.value.id == m.id {
        if completedIn.value.session == s && completedIn.value.commit.value == m {
          return Ok(Duplicate);
        }
        return Err(ConflictingReplay);
      }
      if inbound.None? || !inbound.value.Prepared? {
        return Err(SequenceRelation(m.id, lastIn));
      }
      var pending := inbound.value;
      if pending.session != s || m != pending.commit {
        return Err(ConflictingReplay);
      }
      inbound := None;
      SetActivePointer(pending.transition.destHost, pending.transition.pointer);
      fallback := pending.transition.pointer;
      completedIn :=
        Some(CompletedIn(pending.session, Some(pending.leave), pending.enter, pending.ack, Some(pending.commit)));
      return Ok(Applied);
    }

    method BeginDispatch(e: Effect, now: U64) returns (r: Result<()>)
      requires Valid()
      modifies this
      ensures Handoff.BeginDispatch(old(State()), e, now) == Turn(State(), r)
      ensures V.Kept(old(State()), State())
      ensures r.Ok? && e.purpose == ForCommit ==> !HasLocalAuthority(State())
    {
      hide Resolve, Expire, V.Valid;
      V.BeginKept(State(), e, now);
      V.BeginSuspends(State(), e, now);
      var prepared := PrepareOperation(now);
      if prepared.Err? {
        return prepared;
      }
      if e.owner != owner {
        return Err(InvalidEffect);
      }
      var available := RequireAvailable(State(), e.session);
      if available.Err? {
        return available;
      }
      if !EffectReady(State(), e) {
        return Err(StaleEffect);
      }
      if e.purpose == ForCommit {
        outbound := Some(outbound.value.(phase := CommitDispatching));
      }
      return Ok(());
    }

    method EffectSent(e: Effect, now: U64) returns (r: Result<Completion>)
      requires Valid()
      modifies this
      ensures Handoff.EffectSent(old(State()), e, now) == Turn(State(), r)
      ensures V.Kept(old(State()), State())
      ensures if r == Ok(AuthorityCommitted) then view.activeHost == e.session.remoteHost != view.localHost
              else view.activeHost == old(view.activeHost)
    {
      hide Resolve, Expire, LeaveSent, EnterSent, AcceptedAckSent, CommitSent, ReplySent, V.Valid;
      V.FinishKept(State(), e, now);
      V.SentSettles(State(), e, now);
      var prepared := PrepareOperation(now);
      if prepared.Err? {
        return Err(prepared.error);
      }
      if e.owner != owner {
        return Err(InvalidEffect);
      }
      var available := RequireAvailable(State(), e.session);
      if available.Err? {
        return Err(available.error);
      }
      match e.purpose {
        case ForLeave => r := LeaveEffectSent(e);
        case ForEnter => r := EnterEffectSent(e);
        case ForAcceptedAck => r := AcceptedAckEffectSent(e);
        case ForCommit => r := CommitEffectSent(e);
        case _ => r := ReplyEffectSent(e);
      }
    }

    method LeaveEffectSent(e: Effect) returns (r: Result<Completion>)
      modifies this
      ensures LeaveSent(old(State()), e) == Turn(State(), r)
    {
      if outbound.None? {
        return Err(StaleEffect);
      }
      var pending := outbound.value;
      if pending.session != e.session || pending.id != e.id || pending.phase != LeaveQueued
        || e.message != LeaveMsg(pending.leave) {
        return Err(InvalidEffect);
      }
      outbound := Some(pending.(phase := EnterQueued));
      return Ok(Next(MakeEffect(State(), pending.session, pending.id, ForEnter, EnterMsg(pending.enter))));
    }

    method EnterEffectSent(e: Effect) returns (r: Result<Completion>)
      modifies this
      ensures EnterSent(old(State()), e) == Turn(State(), r)
    {
      if outbound.None? {
        return Err(StaleEffect);
      }
      var pending := outbound.value;
      if pending.session != e.session || pending.id != e.id || pending.phase != EnterQueued
        || e.message != EnterMsg(pending.enter) {
        return Err(InvalidEffect);
      }
      outbound := Some(pending.(phase := AwaitingAck));
      return Ok(Sent);
    }

    method AcceptedAckEffectSent(e: Effect) returns (r: Result<Completion>)
      modifies this
      ensures AcceptedAckSent(old(State()), e) == Turn(State(), r)
    {
      var taken := inbound;
      inbound := None;
      if taken.None? || !taken.value.Proposal? {
        return Err(StaleEffect);
      }
      var pending := taken.value;
      if pending.session != e.session || pending.enter.id != e.id || e.message != AckMsg(pending.ack) {
        inbound := taken;
        return Err(InvalidEffect);
      }
      var commit := MakeCommit(pending.enter, pending.transition);
      inbound := Some(Prepared(pending.session, pending.deadline, pending.leave, pending.enter, pending.ack, commit,
                               pending.transition));
      return Ok(Sent);
    }

    method CommitEffectSent(e: Effect) returns (r: Result<Completion>)
      modifies this
      ensures CommitSent(old(State()), e) == Turn(State(), r)
    {
      if !MatchesOutbound(State(), e) || outbound.value.phase != CommitDispatching {
        return Err(StaleEffect);
      }
      var pending := outbound.value;
      outbound := None;
      if pending.acceptedAck.None? {
        FailLocal();
        return Err(InvalidEffect);
      }
      SetActivePointer(pending.transition.destHost, pending.transition.pointer);
      completedOut := Some(CompletedOut(pending.session, pending.acceptedAck.value));
      return Ok(AuthorityCommitted);
    }

    method ReplyEffectSent(e: Effect) returns (r: Result<Completion>)
      modifies this
      ensures ReplySent(old(State()), e) == Turn(State(), r)
    {
      if !MatchesReply(State(), e) {
        return Err(StaleEffect);
      }
      var sent := reply.value;
      reply := None;
      if sent.purpose == ForRejectedAck {
        completedIn := Some(CompletedIn(sent.session, None, sent.enter, sent.message.ack, None));
      }
      return Ok(Sent);
    }

    method EffectFailed(e: Effect) returns (r: Result<Status>)
      requires Valid()
      modifies this
      ensures Handoff.EffectFailed(old(State()), e) == Turn(State(), r)
      ensures V.Kept(old(State()), State())
      ensures view.activeHost == old(view.activeHost)
      ensures r.Ok? && (e.purpose == ForLeave || e.purpose == ForEnter || e.purpose == ForCommit) ==>
                HasLocalAuthority(State())
    {
      V.AbandonKept(State(), e);
      V.FailureRestores(State(), e);
      if e.owner != owner {
        return Err(InvalidEffect);
      }
      if session != Some(e.session) {
        return Err(StaleEffect);
      }
      match e.purpose {
        case ForAcceptedAck =>
          if !MatchesInboundAck(State(), e) {
            return Err(StaleEffect);
          }
          inbound := None;
          return Ok(Cleared);
        case ForDuplicateAck | ForRejectedAck =>
          if !MatchesReply(State(), e) {
            return Err(StaleEffect);
          }
          reply := None;
          return Ok(NoChange);
        case ForLeave | ForEnter | ForCommit =>
          if !MatchesOutbound(State(), e) {
            return Err(StaleEffect);
          }
          outbound := None;
          FailLocal();
          return Ok(Cleared);
      }
    }

    /**
     A whole dispatch around one attempt to queue the message. `authority` is what the
     coordinator reports while the attempt is made: never for a Commit.
     */
    method DispatchEffect(e: Effect, now: U64, queued: bool) returns (authority: bool, r: DispatchOutcome)
      requires Valid()
      modifies this
      ensures V.Kept(old(State()), State())
      ensures var b := Handoff.BeginDispatch(old(State()), e, now);
              if b.result.Err? then State() == b.state && r == HandoffError(b.result.error)
              else
                && authority == HasLocalAuthority(b.state)
                && (e.purpose == ForCommit ==> !authority)
                && (if queued then
                      var f := Handoff.EffectSent(b.state, e, now);
                      State() == f.state
                        && r == (if f.result.Ok? then Completed(f.result.value) else HandoffError(f.result.error))
                    else
                      var f := Handoff.EffectFailed(b.state, e);
                      State() == f.state && r == (if f.result.Ok? then QueueError else HandoffError(f.result.error)))
    {
      hide Resolve, Expire, EffectReady, Handoff.EffectSent, Handoff.EffectFailed, V.Valid;
      authority := false;
      var begun := BeginDispatch(e, now);
      if begun.Err? {
        return authority, HandoffError(begun.error);
      }
      authority := HasLocalAuthority(State());
      if !queued {
        var failed := EffectFailed(e);
        return authority, if failed.Err? then HandoffError(failed.error) else QueueError;
      }
      var sent := EffectSent(e, now);
      return authority, if sent.Ok? then Completed(sent.value) else HandoffError(sent.error);
    }

    static lemma {:induction false} EdgesDistinct(i: nat)
      requires i < |EDGES|
      ensures forall k :: 0 <= k < i ==> EDGES[k] != EDGES[i]
    {
    }

    static lemma {:induction false} EdgeIndex(edge: Edge) returns (k: nat)
      ensures k < |EDGES| && EDGES[k] == edge
    {
      k := match edge case Left => 0 case Right => 1 case Top => 2 case Bottom => 3;
    }
  }
}
