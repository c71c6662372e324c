/** A handoff over a network without faults completes. */
module HandoffProgress {
  import opened Base
  import opened Topology
  import opened Handoff
  import opened HandoffValidity
  import opened HandoffNetwork
  import opened HandoffSafety
  import opened HandoffAgreement

  /** Several steps of host `x` while its peer rests. */
  function PerformAll(x: Host, y: Host, acts: seq<Act>): Host
    decreases |acts|
  {
    if acts == [] || x.c.session.None? then x else PerformAll(Perform(x, y, acts[0]), y, acts[1..])
  }

  function Sending(e: Effect, now: U64): seq<Act> {
    [DoBegin(e, now), DoEnqueue, DoFinish]
  }

  lemma {:induction false} PerformAllAppend(x: Host, y: Host, first: seq<Act>, second: seq<Act>)
    ensures PerformAll(x, y, first + second) == PerformAll(PerformAll(x, y, first), y, second)
    decreases |first|
  {
    hide Perform;
    if first == [] {
      assert first + second == second;
    } else if x.c.session.Some? {
      assert (first + second)[1..] == first[1..] + second;
      PerformAllAppend(Perform(x, y, first[0]), y, first[1..], second);
    }
  }

  /** A begun dispatch that is queued and finished. */
  lemma {:induction false} SendingEffect(x: Host, y: Host, e: Effect, now: U64)
    requires Calm(x, now) && e.owner == x.c.owner && x.c.session == Some(e.session) && EffectReady(x.c, e)
    ensures var b := BeginDispatch(x.c, e, now).state;
            PerformAll(x, y, Sending(e, now))
              == Host(EffectSent(b, e, now).state, Idle, x.sent + [e.message], x.applied)
    ensures BeginDispatch(x.c, e, now).state
            == (if e.purpose == ForCommit then x.c.(outbound := Some(x.c.outbound.value.(phase := CommitDispatching)))
                else x.c)
  {
    hide Resolve, EffectReady, EffectSent;
    PrepareAgain(x.c);
    BeginKept(x.c, e, now);
    var x1 := Perform(x, y, DoBegin(e, now));
    var x2 := Perform(x1, y, DoEnqueue);
    var x3 := Perform(x2, y, DoFinish);
    assert PerformAll(x2, y, [DoFinish]) == x3;
    assert Sending(e, now)[1..][1..] == [DoFinish];
  }

  /** A host at rest at time `now`, with room for one more deadline. */
  ghost predicate Calm(x: Host, now: U64) {
    && x.stage.Idle? && x.c.lifecycle == Running && x.c.healthy && x.c.session.Some?
    && Valid(x.c) && x.c.now == now && now + x.c.timeout <= U64_MAX
  }

  /** The proposal itself: nothing has been queued yet. */
  lemma {:induction false} Proposes(x: Host, y: Host, edge: Edge, position: real, now: U64)
    requires Calm(x, now) && Fresh(x)
    requires x.c.view.activeHost == x.c.view.localHost
    requires var r := Resolve(x.c.workspace, x.c.view.activeDisplay, edge, position);
             r.Some? && r.value.destHost == x.c.session.value.remoteHost
    ensures var t := Resolve(x.c.workspace, x.c.view.activeDisplay, edge, position).value;
            var leave := MakeLeave(1, x.c.workspace.protocolEpoch, t);
            var enter := MakeEnter(1, x.c.workspace.protocolEpoch, t);
            var asked := Outbound(x.c.session.value, 1, now + x.c.timeout, leave, enter, None, t, LeaveQueued);
            var x1 := Perform(x, y, DoPropose(edge, position, now));
            x1 == x.(c := x.c.(lastOut := 1, outbound := Some(asked))) && Calm(x1, now)
  {
    hide Resolve;
    PrepareAgain(x.c);
    ProposeKept(x.c, x.c.session.value, edge, position, now);
  }

  /** Queueing the Leave makes the Enter ready, queueing the Enter starts the wait. */
  lemma {:induction false} AskGoesOut(x: Host, y: Host, o: Outbound, now: U64, entering: bool)
    requires Calm(x, now) && x.c.outbound == Some(o) && o.session == x.c.session.value && o.acceptedAck.None?
             && o.id == o.leave.id == o.enter.id
    requires o.phase == if entering then EnterQueued else LeaveQueued
    ensures var m := if entering then EnterMsg(o.enter) else LeaveMsg(o.leave);
            var e := Effect(x.c.owner, o.session, o.id, if entering then ForEnter else ForLeave, m);
            var x1 := PerformAll(x, y, Sending(e, now));
            x1 == x.(c := x.c.(outbound := Some(o.(phase := if entering then AwaitingAck else EnterQueued))),
                     sent := x.sent + [m])
            && Calm(x1, now)
  {
    hide Resolve;
    var m := if entering then EnterMsg(o.enter) else LeaveMsg(o.leave);
    var e := Effect(x.c.owner, o.session, o.id, if entering then ForEnter else ForLeave, m);
    PrepareAgain(x.c);
    SendingEffect(x, y, e, now);
    FinishKept(x.c, e, now);
  }

  /** The source asks: Leave and Enter are queued and it waits for the answer. */
  lemma {:induction false} SourceAsks(x: Host, y: Host, edge: Edge, position: real, now: U64)
    returns (acts: seq<Act>, x': Host)
    requires Calm(x, now) && Fresh(x)
    requires x.c.view.activeHost == x.c.view.localHost
    requires var r := Resolve(x.c.workspace, x.c.view.activeDisplay, edge, position);
             r.Some? && r.value.destHost == x.c.session.value.remoteHost
    ensures x' == PerformAll(x, y, acts) && Calm(x', now)
    ensures var t := Resolve(x.c.workspace, x.c.view.activeDisplay, edge, position).value;
            var leave := MakeLeave(1, x.c.workspace.protocolEpoch, t);
            var enter := MakeEnter(1, x.c.workspace.protocolEpoch, t);
            && x'.sent == [LeaveMsg(leave), EnterMsg(enter)]
            && x'.c == x.c.(lastOut := 1,
                            outbound := Some(Outbound(x.c.session.value, 1, now + x.c.timeout, leave, enter, None, t,
                                                      AwaitingAck)))
  {
    var t := Resolve(x.c.workspace, x.c.view.activeDisplay, edge, position).value;
    var s := x.c.session.value;
    var leave := MakeLeave(1, x.c.workspace.protocolEpoch, t);
    var enter := MakeEnter(1, x.c.workspace.protocolEpoch, t);
    var e1 := Effect(x.c.owner, s, 1, ForLeave, LeaveMsg(leave));
    var e2 := Effect(x.c.owner, s, 1, ForEnter, EnterMsg(enter));
    var asked := Outbound(s, 1, now + x.c.timeout, leave, enter, None, t, LeaveQueued);
    assert PerformAll(x, y, [DoPropose(edge, position, now)]) == Perform(x, y, DoPropose(edge, position, now))
           by { hide Resolve, Perform; }
    hide Resolve, Perform, PerformAll, Valid;
    Proposes(x, y, edge, position, now);
    var x1 := Perform(x, y, DoPropose(edge, position, now));
    AskGoesOut(x1, y, asked, now, false);
    var x2 := PerformAll(x1, y, Sending(e1, now));
    AskGoesOut(x2, y, asked.(phase := EnterQueued), now, true);
    x' := PerformAll(x2, y, Sending(e2, now));
    acts := [DoPropose(edge, position, now)] + (Sending(e1, now) + Sending(e2, now));
    PerformAllAppend(x, y, [DoPropose(edge, position, now)], Sending(e1, now) + Sending(e2, now));
    PerformAllAppend(x1, y, Sending(e1, now), Sending(e2, now));
  }

  /** The destination hears the Enter, after the Leave or without it, and makes its promise. */
  lemma {:induction false} DestinationHears(y: Host, x: Host, t: Transition, now: U64, lost: bool)
    returns (heard: seq<Act>, y': Host)
    requires Calm(y, now) && Fresh(y)
    requires y.c.view.activeHost == y.c.session.value.remoteHost || y.c.view.activeHost == y.c.view.localHost
    requires Resolve(y.c.workspace, t.sourceDisplay, t.sourceEdge, t.position) == Some(t)
    requires t.sourceHost == y.c.session.value.remoteHost && t.destHost == y.c.view.localHost
    requires var epoch := y.c.workspace.protocolEpoch;
             x.sent == [LeaveMsg(MakeLeave(1, epoch, t)), EnterMsg(MakeEnter(1, epoch, t))]
    ensures y' == PerformAll(y, x, heard) && Calm(y', now)
    ensures var enter := MakeEnter(1, y.c.workspace.protocolEpoch, t);
            y' == y.(c := y.c.(lastIn := 1, inbound := Some(Proposal(y.c.session.value, now + y.c.timeout,
                               MakeLeave(1, y.c.workspace.protocolEpoch, t), enter,
                               MakeAck(enter, y.c.view.localHost, Accepted), t))))
  {
    hide Resolve;
    var s := y.c.session.value;
    var epoch := y.c.workspace.protocolEpoch;
    var leave, enter := MakeLeave(1, epoch, t), MakeEnter(1, epoch, t);
    var ack := MakeAck(enter, y.c.view.localHost, Accepted);
    PrepareAgain(y.c);
    if lost {
      y' := Perform(y, x, DoDeliver(1, now));
      EnterKept(y.c, s, enter, now);
      assert EdgeMatches(y.c.workspace, enter, t.sourceEdge);
      heard := [DoDeliver(1, now)];
      assert PerformAll(y', x, []) == y';
    } else {
      var y1 := Perform(y, x, DoDeliver(0, now));
      LeaveKept(y.c, s, leave, now);
      assert y1.c == y.c.(inbound := Some(Hint(s, now + y.c.timeout, leave, enter, t)));
      y' := Perform(y1, x, DoDeliver(1, now));
      PrepareAgain(y1.c);
      EnterKept(y1.c, s, enter, now);
      heard := [DoDeliver(0, now), DoDeliver(1, now)];
      assert PerformAll(y1, x, heard[1..]) == y';
    }
  }

  /** The destination hears the Enter, promises and queues its acceptance. */
  lemma {:induction false} DestinationPromises(y: Host, x: Host, t: Transition, now: U64, lost: bool)
    returns (acts: seq<Act>, y': Host)
    requires Calm(y, now) && Fresh(y)
    requires y.c.view.activeHost == y.c.session.value.remoteHost || y.c.view.activeHost == y.c.view.localHost
    requires Resolve(y.c.workspace, t.sourceDisplay, t.sourceEdge, t.position) == Some(t)
    requires t.sourceHost == y.c.session.value.remoteHost && t.destHost == y.c.view.localHost
    requires var epoch := y.c.workspace.protocolEpoch;
             x.sent == [LeaveMsg(MakeLeave(1, epoch, t)), EnterMsg(MakeEnter(1, epoch, t))]
    ensures y' == PerformAll(y, x, acts) && Calm(y', now)
    ensures var enter := MakeEnter(1, y.c.workspace.protocolEpoch, t);
            var ack := MakeAck(enter, y.c.view.localHost, Accepted);
            && y'.sent == [AckMsg(ack)] && y'.applied == []
            && y'.c == y.c.(lastIn := 1, inbound := Some(Prepared(y.c.session.value, now + y.c.timeout,
                            MakeLeave(1, y.c.workspace.protocolEpoch, t), enter, ack, MakeCommit(enter, t), t)))
  {
    hide Resolve;
    var s := y.c.session.value;
    var epoch := y.c.workspace.protocolEpoch;
    var enter := MakeEnter(1, epoch, t);
    var ack := MakeAck(enter, y.c.view.localHost, Accepted);
    var e := Effect(y.c.owner, s, 1, ForAcceptedAck, AckMsg(ack));
    var heard, y2 := DestinationHears(y, x, t, now, lost);
    SendingEffect(y2, x, e, now);
    PrepareAgain(y2.c);
    FinishKept(y2.c, e, now);
    y' := PerformAll(y2, x, Sending(e, now));
    PerformAllAppend(y, x, heard, Sending(e, now));
    acts := heard + Sending(e, now);
  }

  /** The source hears the acceptance and commits. */
  lemma {:induction false} SourceCommits(x: Host, y: Host, now: U64) returns (acts: seq<Act>, x': Host)
    requires Calm(x, now) && x.c.outbound.Some? && x.c.outbound.value.phase == AwaitingAck && x.c.completedOut.None?
    requires y.sent == [AckMsg(MakeAck(x.c.outbound.value.enter, x.c.outbound.value.transition.destHost, Accepted))]
    ensures x' == PerformAll(x, y, acts) && x'.stage.Idle?
    ensures var o := x.c.outbound.value;
            && x'.sent == x.sent + [CommitMsg(MakeCommit(o.enter, o.transition))]
            && Landed(x'.c.view, o.transition) && x'.c.outbound.None? && x'.c.view.localHost == x.c.view.localHost
  {
    hide Resolve;
    var o := x.c.outbound.value;
    var ack := y.sent[0].ack;
    var e := Effect(x.c.owner, o.session, o.id, ForCommit, CommitMsg(MakeCommit(o.enter, o.transition)));
    var x1 := Perform(x, y, DoDeliver(0, now));
    PrepareAgain(x.c);
    AckKept(x.c, o.session, ack, now);
    assert x1.c == x.c.(outbound := Some(o.(phase := CommitQueued, acceptedAck := Some(ack))));
    SendingEffect(x1, y, e, now);
    var b := BeginDispatch(x1.c, e, now).state;
    BeginKept(x1.c, e, now);
    PrepareAgain(b);
    x' := PerformAll(x1, y, Sending(e, now));
    PerformAllAppend(x, y, [DoDeliver(0, now)], Sending(e, now));
    assert PerformAll(x1, y, []) == x1;
    acts := [DoDeliver(0, now)] + Sending(e, now);
  }

  function AllByA(acts: seq<Act>): seq<Step> {
    seq(|acts|, i requires 0 <= i < |acts| => ByA(acts[i]))
  }

  function AllByB(acts: seq<Act>): seq<Step> {
    seq(|acts|, i requires 0 <= i < |acts| => ByB(acts[i]))
  }

  lemma {:induction false} ExecuteA(s: System, acts: seq<Act>)
    requires s.b.c.session.Some?
    ensures Execute(s, AllByA(acts)) == s.(a := PerformAll(s.a, s.b, acts))
    decreases |acts|
  {
    hide Perform;
    if acts != [] {
      assert AllByA(acts)[1..] == AllByA(acts[1..]);
      if s.a.c.session.Some? {
        ExecuteA(s.(a := Perform(s.a, s.b, acts[0])), acts[1..]);
      } else {
        ExecuteA(s, acts[1..]);
        assert PerformAll(s.a, s.b, acts[1..]) == s.a;
      }
    }
  }

  lemma {:induction false} ExecuteB(s: System, acts: seq<Act>)
    requires s.a.c.session.Some?
    ensures Execute(s, AllByB(acts)) == s.(b := PerformAll(s.b, s.a, acts))
    decreases |acts|
  {
    hide Perform;
    if acts != [] {
      assert AllByB(acts)[1..] == AllByB(acts[1..]);
      if s.b.c.session.Some? {
        ExecuteB(s.(b := Perform(s.b, s.a, acts[0])), acts[1..]);
      } else {
        ExecuteB(s, acts[1..]);
        assert PerformAll(s.b, s.a, acts[1..]) == s.b;
      }
    }
  }

  lemma {:induction false} ExecuteAppend(s: System, first: seq<Step>, second: seq<Step>)
    ensures Execute(s, first + second) == Execute(Execute(s, first), second)
    decreases |first|
  {
    hide Advance;
    if first == [] {
      assert first + second == second;
    } else {
      assert (first + second)[1..] == first[1..] + second;
      ExecuteAppend(Advance(s, first[0]), first[1..], second);
    }
  }

  /**
   From two hosts of which A is active to itself, and B agrees or is active to itself too, every
   configured crossing from A's active display to B can be carried through, also when the Leave
   is lost: there is a run after which B alone has authority and both show where the pointer landed.
   */
  lemma {:induction false} HandoffCompletes(s: System, edge: Edge, position: real, lost: bool)
    returns (steps: seq<Step>)
    requires Initial(s) && Calm(s.a, s.a.c.now) && Calm(s.b, s.b.c.now)
    requires s.a.c.view.activeHost == s.a.c.view.localHost
    requires s.b.c.view.activeHost == s.a.c.view.localHost || s.b.c.view.activeHost == s.b.c.view.localHost
    requires s.a.c.workspace.protocolEpoch == s.b.c.workspace.protocolEpoch
    requires EpochIdentifies(s.a.c.workspace, s.b.c.workspace)
    requires var r := Resolve(s.a.c.workspace, s.a.c.view.activeDisplay, edge, position);
             r.Some? && r.value.destHost == s.b.c.view.localHost
    ensures var t := Resolve(s.a.c.workspace, s.a.c.view.activeDisplay, edge, position).value;
            var end := Execute(s, steps);
            && Landed(end.a.c.view, t) && Landed(end.b.c.view, t)
            && HasLocalAuthority(end.b.c) && !HasLocalAuthority(end.a.c)
  {
    hide Resolve, Execute, PerformAll, Perform;
    var (a, b) := (s.a, s.b);
    var t := Resolve(a.c.workspace, a.c.view.activeDisplay, edge, position).value;
    ResolveSame(a.c.workspace, b.c.workspace, a.c.view.activeDisplay, edge, position);
    var ask, a1 := SourceAsks(a, b, edge, position, a.c.now);
    ExecuteA(s, ask);
    var promise, b1 := DestinationPromises(b, a1, t, b.c.now, lost);
    ExecuteB(System(a1, b), promise);
    var settle, a2 := SourceCommits(a1, b1, a1.c.now);
    ExecuteA(System(a1, b1), settle);
    var b2 := LastDelivery(b1, a2);
    var last := [DoDeliver(2, b1.c.now)];
    assert a2.c.session.Some? by { Sessions(s, AllByA(ask), AllByB(promise), AllByA(settle)); }
    ExecuteB(System(a2, b1), last);
    ExecuteAppend(s, AllByA(ask), AllByB(promise));
    ExecuteAppend(s, AllByA(ask) + AllByB(promise), AllByA(settle));
    ExecuteAppend(s, AllByA(ask) + AllByB(promise) + AllByA(settle), AllByB(last));
    steps := AllByA(ask) + AllByB(promise) + AllByA(settle) + AllByB(last);
  }

  /** The destination applies the Commit it is prepared for. */
  lemma {:induction false} LastDelivery(y: Host, x: Host) returns (y': Host)
    requires Calm(y, y.c.now) && y.c.inbound.Some? && y.c.inbound.value.Prepared? && y.c.completedIn.None?
    requires y.c.inbound.value.enter.id == 1
    requires |x.sent| == 3 && x.sent[2] == CommitMsg(y.c.inbound.value.commit)
    ensures y' == PerformAll(y, x, [DoDeliver(2, y.c.now)])
    ensures Landed(y'.c.view, y.c.inbound.value.transition) && y'.c.outbound.None?
    ensures y'.c.view.localHost == y.c.view.localHost
  {
    hide Resolve;
    PrepareAgain(y.c);
    y' := Perform(y, x, DoDeliver(2, y.c.now));
    assert PerformAll(y', x, []) == y';
  }

  lemma {:induction false} Sessions(s: System, p: seq<Step>, q: seq<Step>, r: seq<Step>)
    requires Initial(s)
    ensures Execute(Execute(Execute(s, p), q), r).a.c.session.Some?
  {
    hide Execute;
    InitialInv(s);
    ExecuteInv(s, p);
    ExecuteInv(Execute(s, p), q);
    ExecuteInv(Execute(Execute(s, p), q), r);
  }
}
