/**
 Two coordinators joined by a network that may lose, duplicate, delay and reorder.

 A host keeps everything it ever queued; delivering any of it, at any time and any number
 of times, covers every such network. A dispatch is not atomic: after a message is queued
 the peer may act on it before the sender records that it was sent.
 */
module HandoffNetwork {
  import opened Base
  import opened Topology
  import opened Handoff
  import opened HandoffValidity

  datatype Stage = Idle | Started(effect: Effect, now: U64) | Queued(effect: Effect, now: U64)

  /** One host: its coordinator, the dispatch it is inside of, all it queued, all Commits it applied. */
  datatype Host = Host(c: Coordinator, stage: Stage, sent: seq<Message>, applied: seq<U64>)

  datatype Act =
    | DoPropose(edge: Edge, position: real, now: U64)
    | DoObserve(pointer: Pointer)
    | DoDeliver(index: nat, now: U64)
    | DoBegin(effect: Effect, now: U64)
    | DoEnqueue
    | DoFinish
    | DoFail
    | DoAbandon(effect: Effect)
    | DoPoll(now: U64)

  function SessionOf(x: Host): Session
    requires x.c.session.Some?
  {
    x.c.session.value
  }

  /** Host `x` handles one message its peer queued. */
  function Deliver(x: Host, m: Message, now: U64): Host
    requires x.c.session.Some?
  {
    var s := SessionOf(x);
    match m
    case LeaveMsg(l) => x.(c := ReceiveLeave(x.c, s, l, now).state)
    case EnterMsg(e) => x.(c := ReceiveEnter(x.c, s, e, now).state)
    case AckMsg(a) => x.(c := ReceiveAck(x.c, s, a, now).state)
    case CommitMsg(m) =>
      var t := ReceiveCommit(x.c, s, m, now);
      x.(c := t.state, applied := if t.result == Ok(Applied) then x.applied + [m.id] else x.applied)
  }

  /** One step of host `x`; while a dispatch is running nothing else can run on that host. */
  function Perform(x: Host, y: Host, act: Act): Host
    requires x.c.session.Some?
  {
    if x.stage.Idle? then
      match act
      case DoPropose(edge, position, now) => x.(c := ProposeLeave(x.c, SessionOf(x), edge, position, now).state)
      case DoObserve(p) => x.(c := ObservePointer(x.c, p).state)
      case DoDeliver(k, now) => if k < |y.sent| then Deliver(x, y.sent[k], now) else x
      case DoBegin(e, now) =>
        var t := BeginDispatch(x.c, e, now);
        x.(c := t.state, stage := if t.result.Ok? then Started(e, now) else Idle)
      case DoAbandon(e) => x.(c := EffectFailed(x.c, e).state)
      case DoPoll(now) => x.(c := Prepare(x.c, now).state)
      case _ => x
    else
      match (x.stage, act)
      case (Started(e, now), DoEnqueue) => x.(stage := Queued(e, now), sent := x.sent + [e.message])
      case (Started(e, now), DoFail) => x.(c := EffectFailed(x.c, e).state, stage := Idle)
      case (Queued(e, now), DoFinish) => x.(c := EffectSent(x.c, e, now).state, stage := Idle)
      case _ => x
  }

  datatype System = System(a: Host, b: Host)

  datatype Step = ByA(act: Act) | ByB(act: Act)

  /** One step of the system; nothing happens between hosts without a session. */
  function Advance(s: System, step: Step): System {
    if s.a.c.session.None? || s.b.c.session.None? then s
    else
      match step
      case ByA(act) => s.(a := Perform(s.a, s.b, act))
      case ByB(act) => s.(b := Perform(s.b, s.a, act))
  }

  /** The state after a sequence of steps, taken by the two hosts in any interleaving. */
  function Execute(s: System, steps: seq<Step>): System
    decreases |steps|
  {
    if steps == [] then s else Execute(Advance(s, steps[0]), steps[1..])
  }

  /** The host would still route input locally were its current dispatch to fail. */
  predicate Holds(x: Host) {
    && x.c.view.activeHost == x.c.view.localHost
    && !(x.stage.Queued? && x.stage.effect.purpose == ForCommit)
  }

  // ---------------------------------------------------------------- invariant

  /** Both ends of one healthy session between two different hosts. */
  ghost predicate Connected(x: Host, y: Host) {
    && Valid(x.c) && x.c.lifecycle == Running && x.c.healthy
    && x.c.session.Some? && x.c.session.value.remoteHost == y.c.view.localHost
    && x.c.view.localHost != y.c.view.localHost
  }

  ghost predicate StageOk(x: Host) {
    match x.stage
    case Idle => !(x.c.outbound.Some? && x.c.outbound.value.phase == CommitDispatching)
    case Started(e, now) => InDispatch(x.c, e, now)
    case Queued(e, now) => InDispatch(x.c, e, now) && e.message in x.sent
  }

  ghost predicate InDispatch(c: Coordinator, e: Effect, now: U64) {
    && now == c.now && e.owner == c.owner && c.session == Some(e.session)
    && (if e.purpose == ForCommit
        then MatchesOutbound(c, e) && c.outbound.value.phase == CommitDispatching
        else EffectReady(c, e) && !(c.outbound.Some? && c.outbound.value.phase == CommitDispatching))
  }

  /** Acknowledgements this host may still repeat concern identifiers it has handled. */
  ghost predicate RepliesOk(c: Coordinator) {
    && (c.reply.Some? ==> c.reply.value.message.AckMsg? && c.reply.value.message.ack.id <= c.lastIn)
    && (c.completedIn.Some? ==> c.completedIn.value.ack.id <= c.lastIn)
  }

  /** The transition identifier of a message that asks for, or transfers, authority. */
  function Claim(m: Message): Option<U64> {
    match m
    case LeaveMsg(l) => Some(l.id)
    case EnterMsg(e) => Some(e.id)
    case CommitMsg(t) => Some(t.id)
    case AckMsg(_) => None
  }

  /** What host `x` queued, seen against its own counters and its peer `y`. */
  ghost predicate SentOk(x: Host, y: Host) {
    && (forall m | m in x.sent && Claim(m).Some? :: Claim(m).value <= x.c.lastOut)
    && (forall m | m in x.sent && m.AckMsg? && m.ack.verdict == Accepted :: m.ack.id <= x.c.lastIn)
    && (forall m | m in x.sent && m.CommitMsg? :: m.commit.id <= y.c.lastIn)
  }

  ghost predicate PendingOk(x: Host, y: Host) {
    && x.c.lastIn <= y.c.lastOut
    && (x.c.inbound.Some? ==> x.c.inbound.value.enter.id <= y.c.lastOut)
    && (x.c.outbound.Some?
        && (x.c.outbound.value.phase == CommitQueued || x.c.outbound.value.phase == CommitDispatching)
        ==> x.c.outbound.value.id <= y.c.lastIn)
  }

  /** Host `y` would apply the queued Commit `m` of its peer once its own dispatch is over. */
  ghost predicate Live(y: Host, m: Message) {
    && m.CommitMsg?
    && y.c.inbound.Some? && !y.c.inbound.value.Hint?
    && y.c.inbound.value.enter.id == m.commit.id
  }

  /** A live Commit of `x` can still make `y` active. */
  ghost predicate LiveInto(y: Host, x: Host) {
    exists m :: m in x.sent && Live(y, m)
  }

  ghost predicate Half(x: Host, y: Host) {
    Connected(x, y) && StageOk(x) && RepliesOk(x.c) && SentOk(x, y) && PendingOk(x, y)
  }

  /** What every step of two connected hosts keeps. */
  ghost predicate Inv(x: Host, y: Host) {
    Half(x, y) && Half(y, x)
  }

  ghost predicate NoCommits(x: Host) {
    forall m | m in x.sent :: !m.CommitMsg?
  }

  /**
   Authority is a token: one host holds it, or it travels in one live Commit whose sender
   has let go of it, or it is lost until the session is re-established.
   */
  ghost predicate Exclusive(x: Host, y: Host) {
    && !(Holds(x) && Holds(y))
    && !(LiveInto(x, y) && LiveInto(y, x))
    && !(Holds(x) && LiveInto(y, x))
    && !(Holds(y) && LiveInto(x, y))
  }
}
