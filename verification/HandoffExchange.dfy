/** Exactly when each message, proposal and send takes effect, read off the coordinator before it happens. */
module HandoffExchange {
  import opened Base
  import opened Topology
  import opened Handoff
  import opened HandoffValidity

  // ---------------------------------------------------------------- time and session

  predicate Proposing(c: Coordinator, now: U64) {
    c.outbound.Some? && now < c.outbound.value.deadline
  }

  predicate Promising(c: Coordinator, now: U64) {
    c.inbound.Some? && now < c.inbound.value.deadline
  }

  predicate Replying(c: Coordinator, now: U64) {
    c.reply.Some? && now < c.reply.value.deadline
  }

  /** The last identifier of the peer that counts as handled; a hint that ran out of time is. */
  function LastHandled(c: Coordinator, now: U64): U64 {
    if c.inbound.Some? && c.inbound.value.Hint? && !Promising(c, now) then c.inbound.value.leave.id else c.lastIn
  }

  /** The coordinator once the clock shows `now`. */
  function Aged(c: Coordinator, now: U64): Coordinator {
    Prepare(c, now).state
  }

  /** What has reached its deadline is gone and only that: an expired proposal returns the pointer to this host's own
      point, an expired promise stays known as expired. */
  lemma {:induction false} AgedExactly(c: Coordinator, now: U64)
    requires Valid(c) && c.now <= now
    ensures var d := Aged(c, now);
            && d.now == now && d.lastIn == LastHandled(c, now)
            && d.outbound == (if Proposing(c, now) then c.outbound else None)
            && d.inbound == (if Promising(c, now) then c.inbound else None)
            && d.reply == (if Replying(c, now) then c.reply else None)
            && d.view.activeHost == c.view.activeHost
            && (if c.outbound.Some? && !Proposing(c, now)
                then d.view.pointer == c.fallback && d.view.activeDisplay == c.fallback.display else d.view == c.view)
            && (if c.inbound.Some? && !Promising(c, now)
                then d.expiredIn
                  == Some(ExpiredIn(c.inbound.value.session, c.inbound.value.leave, c.inbound.value.enter))
                else d.expiredIn == c.expiredIn)
            && d == c.(now := d.now, lastIn := d.lastIn, outbound := d.outbound, inbound := d.inbound, reply := d.reply,
                       view := d.view, expiredIn := d.expiredIn) && d.view.localHost == c.view.localHost
  {
    hide Resolve;
  }

  /** Why nothing at all is done for a session at a time. */
  function Closed(c: Coordinator, s: Session, now: U64): Option<Error> {
    if now < c.now then Some(ClockRegressed)
    else if c.lifecycle != Running then Some(Unavailable)
    else if c.session.None? then Some(NoCurrentSession)
    else if c.session != Some(s) then Some(StaleSession)
    else if !c.healthy then Some(Unavailable)
    else None
  }

  predicate Serves(c: Coordinator, s: Session, now: U64) {
    Closed(c, s, now).None?
  }

  /** Every operation of a session is refused for the same reasons, with nothing but time passing. */
  lemma {:induction false} RefusedAlike(c: Coordinator, s: Session, now: U64, edge: Edge, position: real, l: Leave,
                                        n: Enter, a: Ack, m: Commit, e: Effect)
    requires !Serves(c, s, now) && e.session == s && e.owner == c.owner
    ensures var error := Closed(c, s, now).value;
            && ProposeLeave(c, s, edge, position, now) == Turn(Aged(c, now), Err(error))
            && ReceiveLeave(c, s, l, now) == Turn(Aged(c, now), Err(error))
            && ReceiveEnter(c, s, n, now) == Turn(Aged(c, now), Err(error))
            && ReceiveAck(c, s, a, now) == Turn(Aged(c, now), Err(error))
            && ReceiveCommit(c, s, m, now) == Turn(Aged(c, now), Err(error))
            && BeginDispatch(c, e, now) == Turn(Aged(c, now), Err(error))
            && EffectSent(c, e, now) == Turn(Aged(c, now), Err(error))
    ensures now < c.now ==> Aged(c, now) == c
  {
    hide Resolve, Prepare, Classify, DecideEnter, AcceptLeave, EffectReady;
    AgedSame(c, now);
  }

  lemma {:induction false} AgedSame(c: Coordinator, now: U64)
    ensures var d := Aged(c, now);
            && d.lifecycle == c.lifecycle && d.session == c.session && d.healthy == c.healthy && d.owner == c.owner
            && (now < c.now ==> Prepare(c, now) == Turn(c, Err(ClockRegressed)))
            && (c.now <= now ==> Prepare(c, now).result.Ok?)
  {
  }

  // ---------------------------------------------------------------- asking

  /** A configured crossing from a display over an edge, at a position, leads from one host to another. */
  predicate Leads(w: Workspace, source: DisplayId, edge: Edge, position: real, from: HostId, to: HostId) {
    var t := Resolve(w, source, edge, position);
    t.Some? && t.value.sourceHost == from && t.value.destHost == to
  }

  /** A proposal is made exactly by the active host, with nothing pending, for a crossing from the active display to
      the session's peer; it is numbered next and says just that. */
  lemma {:induction false} ProposesExactly(c: Coordinator, s: Session, edge: Edge, position: real, now: U64)
    requires Valid(c) && Serves(c, s, now)
    ensures var d := Aged(c, now);
            var t := ProposeLeave(c, s, edge, position, now);
            && (t.result.Ok? <==>
                  && !Proposing(c, now) && !Promising(c, now) && c.view.activeHost == c.view.localHost
                  && Leads(c.workspace, d.view.activeDisplay, edge, position, c.view.localHost, s.remoteHost)
                  && c.lastOut < U64_MAX && now + c.timeout <= U64_MAX)
            && (t.result.Ok? ==>
                  && t.result.value == Effect(c.owner, s, c.lastOut + 1, ForLeave,
                       LeaveMsg(Leave(c.lastOut + 1, c.workspace.protocolEpoch, c.lastOut + 1, c.view.localHost,
                                      d.view.activeDisplay, edge, position)))
                  && t.state == d.(lastOut := c.lastOut + 1, outbound := t.state.outbound)
                  && t.state.outbound.Some? && t.state.outbound.value.deadline == now + c.timeout
                  && Some(t.state.outbound.value.transition)
                     == Resolve(c.workspace, d.view.activeDisplay, edge, position))
            && (t.result.Err? && t.result != Err(SequenceExhausted) ==> t.state == d)
            && (t.result == Err(SequenceExhausted) ==>
                  t.state == d.(view := View(c.view.localHost, c.view.localHost, c.fallback.display, c.fallback)))
            && (t.result == Err(SequenceExhausted) <==>
                  && !Proposing(c, now) && !Promising(c, now) && c.view.activeHost == c.view.localHost
                  && c.lastOut == U64_MAX
                  && Leads(c.workspace, d.view.activeDisplay, edge, position, c.view.localHost, s.remoteHost))
            && (t.result == Err(PendingConflict) <==> Proposing(c, now) || Promising(c, now))
  {
    hide Resolve, Prepare, Valid;
    PrepareKept(c, now);
    AgedSame(c, now);
    AgedExactly(c, now);
    PointerShown(Aged(c, now));
  }

  lemma {:induction false} PointerShown(c: Coordinator)
    requires Valid(c)
    ensures c.view.activeDisplay == c.view.pointer.display
            && (c.session.Some? ==> c.session.value.localHost == c.view.localHost)
    ensures OwnerOf(c.workspace, c.view.activeDisplay) == Some(c.view.activeHost)
  {
    hide Resolve;
  }

  /** The pointer is followed exactly where this host has authority, nothing is pending, and the point is its own. */
  lemma {:induction false} ObservesExactly(c: Coordinator, p: Pointer)
    requires Valid(c)
    ensures var t := ObservePointer(c, p);
            && (t.result.Ok? <==>
                  && c.lifecycle == Running && c.view.activeHost == c.view.localHost
                  && c.outbound.None? && c.inbound.None? && c.reply.None?
                  && OwnerOf(c.workspace, p.display) == Some(c.view.localHost) && Contains(c.workspace, p))
            && (t.result.Ok? ==> t.state == c.(view := View(c.view.localHost, c.view.localHost, p.display, p)))
            && (t.result == Ok(Duplicate) ==> c.view.pointer == p)
            && (t.result.Err? ==> t.state == c)
  {
    hide Resolve;
  }

  // ---------------------------------------------------------------- being asked

  /** The peer may move the pointer here: it has it, or this host has it and nothing of its own under way. */
  predicate PeerMayAsk(c: Coordinator, s: Session) {
    c.view.activeHost == s.remoteHost || c.view.activeHost == c.view.localHost
  }

  predicate Numbered(c: Coordinator, id: U64, sequence: U64, now: U64) {
    id == sequence && id == LastHandled(c, now) + 1
  }

  /** A Leave is taken up exactly if nothing is pending, it carries the next number and this workspace's epoch, the
      peer may ask, and the crossing it names leads from the peer to this host. */
  lemma {:induction false} LeaveTakenUp(c: Coordinator, s: Session, m: Leave, now: U64)
    requires Valid(c) && Serves(c, s, now)
    ensures var t := ReceiveLeave(c, s, m, now);
            && (t.result == Ok(Applied) <==>
                  && !Proposing(c, now) && !Promising(c, now) && !Replying(c, now) && Numbered(c, m.id, m.sequence, now)
                  && m.epoch == c.workspace.protocolEpoch && m.sourceHost == s.remoteHost && PeerMayAsk(c, s)
                  && Leads(c.workspace, m.sourceDisplay, m.edge, m.position, s.remoteHost, c.view.localHost)
                  && now + c.timeout <= U64_MAX)
            && (t.result == Ok(Applied) ==>
                  && t.state == Aged(c, now).(inbound := t.state.inbound) && t.state.inbound.Some?
                  && var i := t.state.inbound.value;
                     && i.Hint? && i.leave == m && i.deadline == now + c.timeout
                     && Some(i.transition) == Resolve(c.workspace, m.sourceDisplay, m.edge, m.position))
  {
    hide Resolve, Prepare, Valid;
    PrepareKept(c, now);
    AgedSame(c, now);
    AgedExactly(c, now);
    PendingHere(Aged(c, now));
    ResolvedOwner(c.workspace, m.sourceDisplay, m.edge, m.position);
  }

  lemma {:induction false} ResolvedOwner(w: Workspace, source: DisplayId, edge: Edge, position: real)
    ensures var t := Resolve(w, source, edge, position); t.Some? ==> OwnerOf(w, source) == Some(t.value.sourceHost)
  {
  }

  /** A Leave counts as a repetition exactly if it is the one of the transition handled last, pending, completed or
      expired, or the one pending and not yet entered; a repetition changes nothing. */
  lemma {:induction false} LeaveRepeated(c: Coordinator, s: Session, m: Leave, now: U64)
    requires Valid(c) && Serves(c, s, now) && m.id == m.sequence && m.id != 0
    ensures var d := Aged(c, now);
            var t := ReceiveLeave(c, s, m, now);
            && (t.result == Ok(Duplicate) <==>
                  && !Replying(c, now)
                  && (if m.id == d.lastIn then
                        || (Promising(c, now) && c.inbound.value.leave == m)
                        || (c.completedIn.Some? && c.completedIn.value.session == s
                            && c.completedIn.value.leave == Some(m))
                        || (d.expiredIn.Some? && d.expiredIn.value.session == s && d.expiredIn.value.leave == m)
                      else m.id == d.lastIn + 1 && Promising(c, now) && c.inbound.value.leave == m))
            && (t.result == Ok(Duplicate) ==> t.state == d)
  {
    hide Resolve, Prepare, Valid;
    PrepareKept(c, now);
    AgedSame(c, now);
    AgedExactly(c, now);
    PendingHere(Aged(c, now));
  }

  /** The Enter fits a crossing: its displays belong to the two hosts and a link joins them where it says. */
  predicate Crosses(c: Coordinator, s: Session, m: Enter) {
    && m.sourceHost == s.remoteHost && m.destHost == c.view.localHost
    && var t := Resolve(c.workspace, m.sourceDisplay, m.destEdge.Opposite(), m.position);
       && t.Some? && t.value.sourceHost == m.sourceHost && t.value.destHost == m.destHost
       && t.value.destDisplay == m.destDisplay && t.value.destEdge == m.destEdge
  }

  function AckOf(t: Turn<Effect>): Option<Ack> {
    if t.result.Ok? && t.result.value.message.AckMsg? then Some(t.result.value.message.ack) else None
  }

  /** A numbered Enter is accepted exactly if it is the one a pending Leave announced, or, with nothing pending, if it
      carries this workspace's epoch, the peer may ask, and it fits a crossing from the peer to this host. */
  lemma {:induction false} EnterAccepted(c: Coordinator, s: Session, m: Enter, now: U64)
    requires Valid(c) && Serves(c, s, now) && !Replying(c, now) && Numbered(c, m.id, m.sequence, now)
    requires now + c.timeout <= U64_MAX
    ensures var t := ReceiveEnter(c, s, m, now);
            && AckOf(t).Some?
            && AckOf(t).value.(verdict := Accepted) == Ack(m.id, m.epoch, c.view.localHost, m.destDisplay, Accepted)
            && (AckOf(t).value.verdict == Accepted <==>
                  && !Proposing(c, now)
                  && (if Promising(c, now) then c.inbound.value.Hint? && c.inbound.value.enter == m
                      else m.epoch == c.workspace.protocolEpoch && PeerMayAsk(c, s) && Crosses(c, s, m)))
            && (AckOf(t).value.verdict == Accepted <==> t.result.value.purpose == ForAcceptedAck)
            && (AckOf(t).value.verdict != Accepted <==> t.result.value.purpose == ForRejectedAck)
            && t.state.lastIn == m.id && t.state.view == Aged(c, now).view
            && (AckOf(t).value.verdict == Accepted <==> t.state.inbound.Some?)
            && (t.state.inbound.Some? ==>
                  && t.state.inbound.value.Proposal? && t.state.inbound.value.enter == m
                  && (if Promising(c, now) then t.state.inbound.value.transition == c.inbound.value.transition
                      else Some(t.state.inbound.value.transition)
                           == Resolve(c.workspace, m.sourceDisplay, m.destEdge.Opposite(), m.position)))
  {
    hide Resolve, VerdictFor;
    PrepareKept(c, now);
    hide Prepare;
    EnterNumbered(c, s, m, now);
    DecidesEnter(Aged(c, now), s, m, now);
    AgedExactly(c, now);
  }

  lemma {:induction false} EnterNumbered(c: Coordinator, s: Session, m: Enter, now: U64)
    requires Valid(c) && Serves(c, s, now) && !Replying(c, now) && Numbered(c, m.id, m.sequence, now)
    ensures ReceiveEnter(c, s, m, now) == DecideEnter(Aged(c, now), s, m, now)
  {
    hide Resolve, DecideEnter, ReplayedEnter;
  }

  lemma {:induction false} DecidesEnter(c: Coordinator, s: Session, m: Enter, now: U64)
    requires Valid(c) && c.session == Some(s) && c.reply.None? && m.id == c.lastIn + 1
    requires now == c.now && now + c.timeout <= U64_MAX
    ensures var t := DecideEnter(c, s, m, now);
            && AckOf(t).Some?
            && AckOf(t).value.(verdict := Accepted) == Ack(m.id, m.epoch, c.view.localHost, m.destDisplay, Accepted)
            && (AckOf(t).value.verdict == Accepted <==>
                  && c.outbound.None?
                  && (if c.inbound.Some? then c.inbound.value.Hint? && c.inbound.value.enter == m
                      else m.epoch == c.workspace.protocolEpoch && PeerMayAsk(c, s) && Crosses(c, s, m)))
            && (AckOf(t).value.verdict == Accepted <==> t.result.value.purpose == ForAcceptedAck)
            && (AckOf(t).value.verdict != Accepted <==> t.result.value.purpose == ForRejectedAck)
            && t.state.lastIn == m.id && t.state.view == c.view
            && (AckOf(t).value.verdict == Accepted <==> t.state.inbound.Some?)
            && (t.state.inbound.Some? ==>
                  && t.state.inbound.value.Proposal? && t.state.inbound.value.enter == m
                  && (if c.inbound.Some? then t.state.inbound.value.transition == c.inbound.value.transition
                      else Some(t.state.inbound.value.transition)
                           == Resolve(c.workspace, m.sourceDisplay, m.destEdge.Opposite(), m.position)))
  {
    hide Resolve;
  }

  /** With nothing pending, the refusal says why: another epoch, a display that is not the host's, a host that is not
      entitled, or no such crossing. */
  lemma {:induction false} RefusalSaysWhy(c: Coordinator, s: Session, m: Enter, now: U64)
    requires Valid(c) && Serves(c, s, now) && !Replying(c, now) && Numbered(c, m.id, m.sequence, now)
    requires now + c.timeout <= U64_MAX && !Proposing(c, now) && !Promising(c, now)
    ensures AckOf(ReceiveEnter(c, s, m, now)).Some?
    ensures var verdict := AckOf(ReceiveEnter(c, s, m, now)).value.verdict;
            var owned := OwnerOf(c.workspace, m.sourceDisplay) == Some(s.remoteHost)
                         && OwnerOf(c.workspace, m.destDisplay) == Some(c.view.localHost);
            var addressed := m.sourceHost == s.remoteHost && m.destHost == c.view.localHost;
            && (verdict == StaleEpoch <==> m.epoch != c.workspace.protocolEpoch)
            && (verdict == UnknownDisplay <==> verdict != StaleEpoch && addressed && !owned)
            && (verdict == NotOwner <==> verdict != StaleEpoch && (!addressed || (owned && !PeerMayAsk(c, s))))
  {
    hide Resolve;
    EnterNumbered(c, s, m, now);
    PrepareKept(c, now);
    AgedExactly(c, now);
    hide Prepare, ReceiveEnter;
  }

  /** An Enter that was answered gets the same answer again; one whose answer is still to be sent, or that has expired,
      is
      refused as stale, and any other of that number as conflicting. Nothing else changes. */
  lemma {:induction false} AnsweredAlike(c: Coordinator, s: Session, m: Enter, now: U64)
    requires Valid(c) && Serves(c, s, now) && !Replying(c, now) && now + c.timeout <= U64_MAX
    requires m.id == m.sequence && m.id == LastHandled(c, now) && m.id != 0
    ensures var d := Aged(c, now);
            var t := ReceiveEnter(c, s, m, now);
            var expired := d.expiredIn.Some? && d.expiredIn.value.session == s && d.expiredIn.value.enter == m;
            var pending := Promising(c, now) && !c.inbound.value.Hint? && c.inbound.value.enter == m;
            var completed := c.completedIn.Some? && c.completedIn.value.session == s && c.completedIn.value.enter == m;
            && t.state == d.(reply := t.state.reply)
            && (AckOf(t).Some? ==> t.result.value.purpose == ForDuplicateAck)
            && if expired || (pending && c.inbound.value.Proposal?) then t == Turn(d, Err(StaleEffect))
               else if pending then AckOf(t) == Some(c.inbound.value.ack)
               else if completed then AckOf(t) == Some(c.completedIn.value.ack)
               else t == Turn(d, Err(ConflictingReplay))
  {
    hide Resolve, DecideEnter, Prepare, Valid;
    PrepareKept(c, now);
    AgedSame(c, now);
    AgedExactly(c, now);
    PendingHere(Aged(c, now));
  }

  lemma {:induction false} PendingHere(c: Coordinator)
    requires Valid(c)
    ensures c.inbound.Some? ==> c.session == Some(c.inbound.value.session) && c.outbound.None?
  {
    hide Resolve;
  }

  /** Why a number is out of turn: none, one handled before, or one too far ahead. */
  function OutOfTurn(id: U64, last: U64): Error {
    if id == 0 then InvalidSequence else if last < id then FutureSequence else StaleSequence
  }

  /** A number out of turn is refused with the reason; when no number can follow, everything under way is dropped. */
  lemma {:induction false} NumberingSaysWhy(c: Coordinator, s: Session, l: Leave, m: Enter, now: U64)
    requires Valid(c) && Serves(c, s, now) && !Replying(c, now)
    ensures var t := ReceiveLeave(c, s, l, now);
            var last := LastHandled(c, now);
            && (l.id == 0 || l.id != l.sequence ==> t == Turn(Aged(c, now), Err(InvalidSequence)))
            && (l.id == l.sequence && l.id != 0 && l.id != last ==>
                  if last == U64_MAX then t == Turn(Blank(Aged(c, now)), Err(SequenceExhausted))
                  else l.id != last + 1 ==> t == Turn(Aged(c, now), Err(OutOfTurn(l.id, last))))
    ensures var t := ReceiveEnter(c, s, m, now);
            var last := LastHandled(c, now);
            && (m.id == 0 || m.id != m.sequence ==> t == Turn(Aged(c, now), Err(InvalidSequence)))
            && (m.id == m.sequence && m.id != 0 && m.id != last ==>
                  if last == U64_MAX then t == Turn(Blank(Aged(c, now)), Err(SequenceExhausted))
                  else m.id != last + 1 ==> t == Turn(Aged(c, now), Err(OutOfTurn(m.id, last))))
  {
    hide Resolve, ReplayedLeave, AcceptLeave, ReplayedEnter, DecideEnter, Prepare, Valid;
    AgedSame(c, now);
    AgedExactly(c, now);
  }

  /** The coordinator with nothing under way and nothing remembered of earlier transitions. */
  function Blank(c: Coordinator): Coordinator {
    c.(outbound := None, inbound := None, reply := None, completedOut := None, completedIn := None, expiredIn := None)
  }

  /** An answer or Commit that nothing waits for is refused by its number. */
  lemma {:induction false} UnexpectedSaysWhy(c: Coordinator, s: Session, a: Ack, m: Commit, now: U64)
    requires Valid(c) && Serves(c, s, now)
    ensures !Proposing(c, now) && !(c.completedOut.Some? && c.completedOut.value.ack.id == a.id) ==>
              ReceiveAck(c, s, a, now) == Turn(Aged(c, now), Err(OutOfTurn(a.id, c.lastOut)))
    ensures m.id != 0 && m.id == m.sequence && !(Promising(c, now) && c.inbound.value.Prepared?)
            && !(c.completedIn.Some? && c.completedIn.value.commit.Some?
                 && c.completedIn.value.commit.value.id == m.id) ==>
              ReceiveCommit(c, s, m, now) == Turn(Aged(c, now), Err(OutOfTurn(m.id, LastHandled(c, now))))
  {
    hide Resolve, Prepare, Valid;
    AgedSame(c, now);
    AgedExactly(c, now);
  }

  /** An Enter that cannot be given time for an answer is refused: if it would have been rejected, everything under way
      is dropped with it. */
  lemma {:induction false} NoTimeToAnswer(c: Coordinator, s: Session, m: Enter, now: U64)
    requires Valid(c) && Serves(c, s, now) && !Replying(c, now) && Numbered(c, m.id, m.sequence, now)
    requires now + c.timeout > U64_MAX && !(Promising(c, now) && c.inbound.value.Hint? && c.inbound.value.enter == m)
    ensures var t := ReceiveEnter(c, s, m, now);
            var fits := !Proposing(c, now) && !Promising(c, now) && m.epoch == c.workspace.protocolEpoch
                        && PeerMayAsk(c, s) && Crosses(c, s, m);
            t == Turn(if fits then Aged(c, now) else Blank(Aged(c, now)), Err(ClockOverflow))
  {
    hide Resolve, VerdictFor, Valid, Prepare;
    EnterNumbered(c, s, m, now);
    PrepareKept(c, now);
    AgedExactly(c, now);
    OvertakenEnter(Aged(c, now), s, m, now);
    hide ReceiveEnter, DecideEnter;
  }

  lemma {:induction false} OvertakenEnter(c: Coordinator, s: Session, m: Enter, now: U64)
    requires Valid(c) && c.session == Some(s) && c.reply.None? && m.id == c.lastIn + 1
    requires now == c.now && now + c.timeout > U64_MAX
    requires !(c.inbound.Some? && c.inbound.value.Hint? && c.inbound.value.enter == m)
    ensures var t := DecideEnter(c, s, m, now);
            var fits := c.outbound.None? && c.inbound.None? && m.epoch == c.workspace.protocolEpoch
                        && PeerMayAsk(c, s) && Crosses(c, s, m);
            t == Turn(if fits then c else Blank(c), Err(ClockOverflow))
  {
    hide Resolve;
  }

  // ---------------------------------------------------------------- being answered

  /** The answer fits the proposal that waits for it. */
  predicate Answers(c: Coordinator, a: Ack, now: U64) {
    && Proposing(c, now) && c.outbound.value.phase == AwaitingAck && a.id == c.lastOut
    && !(c.completedOut.Some? && c.completedOut.value.ack.id == a.id)
  }

  predicate SameCrossing(o: Outbound, a: Ack) {
    && a.epoch == o.enter.epoch && a.receiver == o.enter.destHost && a.display == o.enter.destDisplay
  }

  /** The answer to the waiting proposal leads on to a Commit exactly if it accepts this crossing; a refusal, or an
      answer about another crossing, ends the proposal with the pointer back at this host's own point. */
  lemma {:induction false} AnswerDecides(c: Coordinator, s: Session, a: Ack, now: U64)
    requires Valid(c) && Serves(c, s, now)
    ensures var t := ReceiveAck(c, s, a, now);
            && (t.result.Ok? && t.result.value.CommitNext? <==>
                  Answers(c, a, now) && SameCrossing(c.outbound.value, a) && a.verdict == Accepted)
            && (t.result == Ok(RejectedByPeer) <==>
                  Answers(c, a, now) && SameCrossing(c.outbound.value, a) && a.verdict != Accepted)
            && (Answers(c, a, now) && !(SameCrossing(c.outbound.value, a) && a.verdict == Accepted) ==>
                  && t.state.outbound.None? && t.state.view.pointer == c.fallback && HasLocalAuthority(t.state))
            && (t.result.Ok? && t.result.value.CommitNext? ==>
                  && t.result.value.effect == Effect(c.owner, s, a.id, ForCommit,
                       CommitMsg(Commit(a.id, c.workspace.protocolEpoch, a.id, c.view.localHost, s.remoteHost,
                                        c.outbound.value.transition.sourceDisplay,
                                          c.outbound.value.transition.destDisplay)))
                  && t.state == Aged(c,
                                     now).(outbound :=
                                           Some(c.outbound.value.(phase := CommitQueued, acceptedAck := Some(a)))))
            && (!Answers(c, a, now) ==> t.state == Aged(c, now))
            && (t.result == Ok(DuplicateAck) <==> c.completedOut == Some(CompletedOut(s, a)))
  {
    hide Resolve;
    PrepareKept(c, now);
  }

  /** A Commit is applied exactly if it is the very one promised and not over; nothing else moves the view. */
  lemma {:induction false} CommitApplies(c: Coordinator, s: Session, m: Commit, now: U64)
    requires Valid(c) && Serves(c, s, now)
    ensures var t := ReceiveCommit(c, s, m, now);
            && (t.result == Ok(Applied) <==>
                  && Promising(c, now) && c.inbound.value.Prepared? && c.inbound.value.commit == m && m.id != 0
                  && !(c.completedIn.Some? && c.completedIn.value.commit.Some?
                       && c.completedIn.value.commit.value.id == m.id))
            && (t.result == Ok(Applied) ==>
                  && t.state.view == View(c.view.localHost, c.view.localHost, c.inbound.value.transition.destDisplay,
                                          c.inbound.value.transition.pointer)
                  && t.state.inbound.None? && t.state.completedIn.Some?
                  && t.state.completedIn.value.commit == Some(m)
                  && t.state.completedIn.value.enter == c.inbound.value.enter)
            && (t.result != Ok(Applied) ==> t.state == Aged(c, now))
            && (t.result == Ok(Duplicate) <==>
                  m.id != 0 && m.id == m.sequence && c.completedIn.Some? && c.completedIn.value.session == s
                  && c.completedIn.value.commit == Some(m))
  {
    hide Resolve;
    PrepareKept(c, now);
  }

  // ---------------------------------------------------------------- sending

  /** The sends a coordinator is waiting to make, each with the message it stands for. */
  function Outstanding(c: Coordinator): set<Effect> {
    (if c.outbound.None? then {}
     else
       var o := c.outbound.value;
       match o.phase
       case LeaveQueued => {Effect(c.owner, o.session, o.id, ForLeave, LeaveMsg(o.leave))}
       case EnterQueued => {Effect(c.owner, o.session, o.id, ForEnter, EnterMsg(o.enter))}
       case CommitQueued => {Effect(c.owner, o.session, o.id, ForCommit, CommitMsg(MakeCommit(o.enter, o.transition)))}
       case _ => {})
    + (if c.inbound.Some? && c.inbound.value.Proposal?
       then {Effect(c.owner, c.inbound.value.session, c.inbound.value.enter.id, ForAcceptedAck,
                    AckMsg(c.inbound.value.ack))}
       else {})
    + (if c.reply.Some?
       then {Effect(c.owner, c.reply.value.session, c.reply.value.id, c.reply.value.purpose, c.reply.value.message)}
       else {})
  }

  /** A Commit handed to the queue whose fate is not yet known. */
  predicate Dispatching(c: Coordinator, e: Effect) {
    && c.outbound.Some? && c.outbound.value.phase == CommitDispatching
    && e == Effect(c.owner, c.outbound.value.session, c.outbound.value.id, ForCommit,
                   CommitMsg(MakeCommit(c.outbound.value.enter, c.outbound.value.transition)))
  }

  /** A send may begin exactly if it is outstanding; only a Commit changes anything by it. */
  lemma {:induction false} BeginsExactly(c: Coordinator, e: Effect, now: U64)
    requires Valid(c) && Serves(c, e.session, now)
    ensures var d := Aged(c, now);
            var t := BeginDispatch(c, e, now);
            && (t.result.Ok? <==> e in Outstanding(d))
            && (t.result.Ok? && e.purpose == ForCommit ==>
                  && Dispatching(t.state, e)
                  && t.state == d.(outbound := Some(d.outbound.value.(phase := CommitDispatching))))
            && (!(t.result.Ok? && e.purpose == ForCommit) ==> t.state == d)
  {
    hide Resolve;
    PrepareKept(c, now);
  }

  /** A send is completed exactly if it is outstanding, or a Commit being dispatched. Then the next step is due: the
      Enter after the Leave, waiting after the Enter, the Commit after the acceptance, the peer's authority after the
      Commit. */
  lemma {:induction false} SentExactly(c: Coordinator, e: Effect, now: U64)
    requires Valid(c) && Serves(c, e.session, now)
    ensures var d := Aged(c, now);
            var t := EffectSent(c, e, now);
            && (t.result.Ok? <==> if e.purpose == ForCommit then Dispatching(d, e) else e in Outstanding(d))
            && (t.result.Ok? && e.purpose == ForLeave ==>
                  && t.state == d.(outbound := Some(d.outbound.value.(phase := EnterQueued)))
                  && t.result == Ok(Next(Effect(c.owner, e.session, e.id, ForEnter, EnterMsg(d.outbound.value.enter)))))
            && (t.result.Ok? && e.purpose == ForEnter ==>
                  t.state == d.(outbound := Some(d.outbound.value.(phase := AwaitingAck))) && t.result == Ok(Sent))
            && (t.result.Ok? && e.purpose == ForAcceptedAck ==>
                  && t.result == Ok(Sent) && t.state == d.(inbound := t.state.inbound)
                  && t.state.inbound.Some? && t.state.inbound.value.Prepared?
                  && t.state.inbound.value.enter == d.inbound.value.enter
                  && t.state.inbound.value.ack == d.inbound.value.ack
                  && t.state.inbound.value.transition == d.inbound.value.transition
                  && t.state.inbound.value.deadline == d.inbound.value.deadline)
            && (t.result.Ok? && e.purpose == ForCommit ==>
                  && t.result == Ok(AuthorityCommitted) && t.state.outbound.None?
                  && t.state.view
                     == View(c.view.localHost, e.session.remoteHost, d.outbound.value.transition.destDisplay,
                             d.outbound.value.transition.pointer)
                  && t.state.completedOut == Some(CompletedOut(e.session, d.outbound.value.acceptedAck.value)))
            && (t.result.Ok? && (e.purpose == ForDuplicateAck || e.purpose == ForRejectedAck) ==>
                  && t.result == Ok(Sent) && t.state == d.(reply := None, completedIn := t.state.completedIn)
                  && t.state.completedIn == (if e.purpose == ForDuplicateAck then d.completedIn
                       else Some(CompletedIn(e.session, None, d.reply.value.enter, e.message.ack, None))))
  {
    hide Resolve;
    PrepareKept(c, now);
    hide Prepare;
  }

  /** A failure is recorded exactly if the send is outstanding or a Commit being dispatched: an answer is forgotten, a
      proposal given up with the pointer back at this host's own point. */
  lemma {:induction false} FailsExactly(c: Coordinator, e: Effect)
    requires Valid(c) && c.session == Some(e.session)
    ensures var t := EffectFailed(c, e);
            && (t.result.Ok? <==> e in Outstanding(c) || Dispatching(c, e))
            && (t.result.Err? ==> t.state == c)
            && (t.result.Ok? && e.purpose == ForAcceptedAck ==> t.state == c.(inbound := None))
            && (t.result.Ok? && (e.purpose == ForDuplicateAck || e.purpose == ForRejectedAck) ==>
                 t.state == c.(reply := None))
            && (t.result.Ok? && (e.purpose == ForLeave || e.purpose == ForEnter || e.purpose == ForCommit) ==>
                  t.state == c.(outbound := None,
                                view := View(c.view.localHost, c.view.localHost, c.fallback.display, c.fallback)))
  {
    hide Resolve;
  }

  /** Whatever send an operation hands out is outstanding afterwards. */
  lemma {:induction false} HandedOutOutstanding(c: Coordinator, s: Session, edge: Edge, position: real, m: Enter,
                                                a: Ack, now: U64)
    requires Valid(c)
    ensures var t := ProposeLeave(c, s, edge, position, now); t.result.Ok? ==> t.result.value in Outstanding(t.state)
    ensures var t := ReceiveEnter(c, s, m, now); t.result.Ok? ==> t.result.value in Outstanding(t.state)
    ensures var t := ReceiveAck(c, s, a, now);
            t.result.Ok? && t.result.value.CommitNext? ==> t.result.value.effect in Outstanding(t.state)
  {
    hide Resolve, Prepare;
  }

  // ---------------------------------------------------------------- what the owner of the coordinator may do

  /** Local authority at this host's own point, with nothing under way or remembered. */
  predicate Reset(c: Coordinator) {
    && c.view == View(c.view.localHost, c.view.localHost, c.fallback.display, c.fallback)
    && c.outbound.None? && c.inbound.None? && c.reply.None?
    && c.completedOut.None? && c.completedIn.None? && c.expiredIn.None?
  }

  /** Losing the session in any way, or changing the workspace, starts afresh from this host's own point. */
  lemma {:induction false} AdministrationResets(c: Coordinator, s: Session, w: Workspace, p: Pointer)
    requires Valid(c)
    ensures var t := DegradeSession(c, s);
            && (t.result.Ok? <==> c.session == Some(s))
            && (t.result.Ok? ==> Reset(t.state) && t.state.session == c.session && !t.state.healthy
                                 && t.state.lastOut == c.lastOut && t.state.lastIn == c.lastIn)
            && (t.result == Ok(Duplicate) <==>
                 c.session == Some(s) && !c.healthy && c.outbound.None? && c.inbound.None?)
            && (t.result.Err? ==> t.state == c)
    ensures var t := DisconnectSession(c, s);
            && (t.result.Ok? <==> c.session == Some(s))
            && (t.result.Ok? ==> Reset(t.state) && t.state.session.None? && t.state.lifecycle == c.lifecycle)
            && (t.result.Err? ==> t.state == c)
    ensures Reset(Terminated(c, Revoked)) && Terminated(c, Revoked).session.None?
            && Terminated(c, Revoked).lifecycle == Revoked
    ensures Reset(Terminated(c, ShuttingDown)) && Terminated(c, ShuttingDown).session.None?
    ensures Terminated(c, ShuttingDown).lifecycle == ShuttingDown
    ensures var t := ReplaceWorkspace(c, w, p);
            && (t.result.Ok? <==>
                  && c.lifecycle == Running && c.workspace.epoch < w.epoch
                  && OwnerOf(w, p.display) == Some(c.view.localHost) && Contains(w, p))
            && (t.result.Ok? ==>
                 Reset(t.state) && t.state.workspace == w && t.state.fallback == p && t.state.session == c.session)
            && (t.result.Err? ==> t.state == c)
    ensures var t := BindSession(c, s);
            && (t.result.Ok? <==>
                  c.lifecycle == Running && s.localHost == c.view.localHost && s.remoteHost != c.view.localHost)
            && (t.result == Ok(Applied) <==> t.result.Ok? && c.session != Some(s))
            && (t.result == Ok(Applied) ==>
                  && t.state.session == Some(s) && t.state.healthy && t.state.lastOut == 0 && t.state.lastIn == 0
                  && (c.session.Some? ==> Reset(t.state)) && (c.session.None? ==> t.state.view == c.view))
            && (t.result != Ok(Applied) ==> t.state == c)
    ensures var t := MarkHealthy(c, s);
            && (t.result.Ok? <==> c.lifecycle == Running && c.session == Some(s))
            && t.state == (if t.result.Ok? then c.(healthy := true) else c)
  {
    hide Resolve;
  }
}
