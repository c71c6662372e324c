/**
 The ledger over whole runs: it is the replay of what endpoints were told, its three parts agree,
 no release is lost and no control is left stuck.
 */
module DaemonLedger {
  import opened Base
  import opened Ledger
  import opened Daemon
  import opened LedgerLemmas
  import opened DaemonRuns
  import H = Handoff

  // ---------------------------------------------------------------- obligations

  lemma {:induction false} NotedFrame(l: Ledger, e: Event)
    ensures Noted(l, e) == l.(latches := Noted(l, e).latches)
  {
    hide TouchOf;
  }

  /** A capture appends obligations for everything held, or leaves the queue as it is. */
  lemma {:induction false} LeavesQueue(l: Ledger, e: Event, accepted: Option<U64>, c: Case, m: Ledger)
    returns (b: Ledger)
    requires Leaves(l, e, accepted, c, m)
    ensures b.held == l.held && b.cleanup == l.cleanup && b.inFlight == l.inFlight
            && l.nextId <= b.nextId <= l.nextId + 1
    ensures if c.Closes? || c.Refuses? then m == Queue(b, b.held.Keys).ledger
            else m.cleanup == l.cleanup && m.inFlight == l.inFlight && m.nextId == b.nextId
  {
    hide Queue, TouchOf, Missing, Noted, Touches, Is;
    NotedFrame(l, e);
    var n := Noted(l, e);
    b := match c
      case Unchanged => l
      case Refuses => l
      case OnlyNotes => n
      case Parks => n
      case Closes(burned) => if burned then Burn(n) else n
      case _ => Burn(n);
  }

  lemma {:induction false} LeavesNumbered(l: Ledger, e: Event, accepted: Option<U64>, c: Case, m: Ledger)
    requires Numbered(l) && Leaves(l, e, accepted, c, m)
    ensures Numbered(m)
  {
    hide Queue, Leaves;
    var b := LeavesQueue(l, e, accepted, c, m);
    QueueNumbered(b, b.held.Keys);
  }

  lemma {:induction false} MovesNumbered(l: Ledger, m: Move, n: Ledger)
    requires Numbered(l) && Moves(l, m, n)
    ensures Numbered(n)
  {
    hide Queue, Invalidate;
    match m {
      case Queueing(p) => QueueNumbered(l, p);
      case Relabelling(p, _) => QueueNumbered(l, p);
      case Losing(e) => InvalidateNumbered(l, e);
      case _ =>
    }
  }

  /** Obligations are numbered in order, never reuse an identifier, and only the front is ever lent. */
  lemma {:induction false} StepNumbered(s: Core, op: Op, now: U64)
    requires s.decision.None? && Numbered(s.ledger)
    ensures Apply(s, op, now).decision.None? && Numbered(Apply(s, op, now).ledger)
  {
    hide Numbered, Leaves, Moves, Names;
    if op.Captured? {
      var c := CaptureCase(s, op.event, op.accepted, now);
      LeavesNumbered(s.ledger, op.event, op.accepted, c, Apply(s, op, now).ledger);
    } else {
      var m := OpMoves(s, op, now);
      MovesNumbered(s.ledger, m, Apply(s, op, now).ledger);
    }
  }

  /** No release is lost: the queue only grows, except that a settled token takes exactly the front and a
      lost transport takes exactly its own entries. */
  lemma {:induction false} ObligationsKept(s: Core, op: Op, now: U64)
    requires s.decision.None?
    ensures var c := s.ledger.cleanup;
            var d := Apply(s, op, now).ledger.cleanup;
            if op.CleanupConfirmed? && Settles(s.ledger, op.token) then d == c[1..]
            else if op.TransportLost? then
              d == Without(c, op.endpoint) && forall x :: x in d <==> x in c && x.key.endpoint != op.endpoint
            else c <= d
  {
    hide Apply, Leaves, Moves;
    if op.Captured? {
      var c := CaptureCase(s, op.event, op.accepted, now);
      assert Apply(s, op, now) == Capture(s, op.event, op.accepted, now).core by { ApplyCapture(s, op, now); }
      var b := LeavesQueue(s.ledger, op.event, op.accepted, c, Apply(s, op, now).ledger);
      QueueGrows(b, b.held.Keys);
    } else {
      var m := OpMoves(s, op, now);
      MovesQueue(s.ledger, m, Apply(s, op, now).ledger);
      if op.TransportLost? { WithoutKeeps(s.ledger.cleanup, op.endpoint); }
    }
  }

  lemma {:induction false} ApplyCapture(s: Core, op: Op, now: U64)
    requires op.Captured?
    ensures Apply(s, op, now) == Capture(s, op.event, op.accepted, now).core
  {
    hide Capture;
  }

  lemma {:induction false} QueueGrows(l: Ledger, picked: set<HeldKey>)
    ensures l.cleanup <= Queue(l, picked).ledger.cleanup
  {
    var added := QueueEffect(l, picked);
  }

  lemma {:induction false} MovesQueue(l: Ledger, m: Move, n: Ledger)
    requires Moves(l, m, n)
    ensures match m
            case Releasing => l.cleanup != [] && n.cleanup == l.cleanup[1..]
            case Losing(e) => n.cleanup == Without(l.cleanup, e)
            case _ => l.cleanup <= n.cleanup
  {
    match m {
      case Queueing(p) => QueueGrows(l, p);
      case Relabelling(p, _) => QueueGrows(l, p);
      case _ =>
    }
  }

  // ---------------------------------------------------------------- tokens

  /** An identifier stands for this one obligation, for good. */
  ghost predicate Only(l: Ledger, x: Entry) {
    x.id < l.nextId && forall y | y in l.cleanup && y.id == x.id :: y == x
  }

  /** An identifier whose obligation is gone, for good. */
  ghost predicate Retired(l: Ledger, id: U64) {
    id < l.nextId && forall y | y in l.cleanup :: y.id != id
  }

  lemma {:induction false} QueueOnly(l: Ledger, picked: set<HeldKey>, x: Entry)
    ensures Only(l, x) ==> Only(Queue(l, picked).ledger, x)
    ensures Retired(l, x.id) ==> Retired(Queue(l, picked).ledger, x.id)
  {
    var added := QueueEffect(l, picked);
    hide Queue;
  }

  lemma {:induction false} StepOnly(s: Core, op: Op, now: U64, x: Entry)
    requires s.decision.None?
    ensures Only(s.ledger, x) ==> Only(Apply(s, op, now).ledger, x)
    ensures Retired(s.ledger, x.id) ==> Retired(Apply(s, op, now).ledger, x.id)
  {
    hide Apply, Leaves, Queue;
    if op.Captured? {
      var c := CaptureCase(s, op.event, op.accepted, now);
      ApplyCapture(s, op, now);
      var b := LeavesQueue(s.ledger, op.event, op.accepted, c, Apply(s, op, now).ledger);
      QueueOnly(b, b.held.Keys, x);
    } else {
      var m := OpMoves(s, op, now);
      if m.Queueing? || m.Relabelling? { QueueOnly(s.ledger, m.picked, x); }
      if m.Losing? { WithoutKeeps(s.ledger.cleanup, m.endpoint); }
    }
  }

  lemma {:induction false} StepSettled(s: Core, op: Op, now: U64)
    requires s.decision.None?
    ensures Apply(s, op, now).decision.None?
  {
    hide Moves, Leaves, Names;
    if op.Captured? {
      var c := CaptureCase(s, op.event, op.accepted, now);
    } else {
      var m := OpMoves(s, op, now);
    }
  }

  /** No decision outlives the capture that asked for it. */
  lemma {:induction false} RunSettled(s: Core, steps: seq<Step>)
    requires s.decision.None?
    ensures Execute(s, steps).decision.None?
  {
    hide Apply;
    if steps != [] {
      var n := |steps| - 1;
      RunSettled(s, steps[..n]);
      StepSettled(Execute(s, steps[..n]), steps[n].op, steps[n].now);
    }
  }

  lemma {:induction false} RunOnly(s: Core, steps: seq<Step>, x: Entry)
    requires s.decision.None?
    ensures Only(s.ledger, x) ==> Only(Execute(s, steps).ledger, x)
    ensures Retired(s.ledger, x.id) ==> Retired(Execute(s, steps).ledger, x.id)
  {
    hide Apply, Only, Retired;
    if steps != [] {
      var n := |steps| - 1;
      RunSettled(s, steps[..n]);
      RunOnly(s, steps[..n], x);
      StepOnly(Execute(s, steps[..n]), steps[n].op, steps[n].now, x);
    }
  }

  /** However long a token is kept, it settles only the obligation it was lent for. */
  lemma {:induction false} TokenSettlesItsOwn(s: Core, steps: seq<Step>)
    requires s.decision.None? && Numbered(s.ledger)
    ensures var t := TakeCleanup(s).1;
            var u := Execute(TakeCleanup(s).0, steps);
            t.Some? && Settles(u.ledger, t.value) ==>
              u.ledger.cleanup[0] == s.ledger.cleanup[0] == Entry(t.value.id, t.value.key, t.value.covered)
  {
    if TakeCleanup(s).1.Some? {
      var x := s.ledger.cleanup[0];
      var taken := TakeCleanup(s).0;
      assert Only(taken.ledger, x);
      RunOnly(taken, steps, x);
      hide Execute;
    }
  }

  /** Once a token has been confirmed, nothing carrying its identifier is ever accepted again. */
  lemma {:induction false} TokenSettlesOnce(s: Core, t: Token, now: U64, steps: seq<Step>, again: Token)
    requires s.decision.None? && Numbered(s.ledger) && ConfirmCleanup(s, t, now).result.Ok? && again.id == t.id
    ensures !Settles(Execute(ConfirmCleanup(s, t, now).core, steps).ledger, again)
  {
    var c := ConfirmCleanup(s, t, now).core;
    var x := s.ledger.cleanup[0];
    assert c.ledger == Released(s.ledger) && c.decision.None? by { hide RoutingActive; }
    assert Retired(c.ledger, x.id) by { assert x in s.ledger.cleanup; }
    hide ConfirmCleanup;
    RunOnly(c, steps, x);
    var u := Execute(c, steps).ledger;
    hide Execute;
  }

  // ---------------------------------------------------------------- the ledger is a replay

  /** What one operation told endpoints, judged by its result alone. */
  function Facts(s: Core, op: Op, now: U64): seq<Fact> {
    match op
    case Captured(e, accepted) => Told(PrepareCaptured(s, e, now), e, accepted, now)
    case CleanupConfirmed(t) => if ConfirmCleanup(s, t, now).result.Ok? then [Up(t.key)] else []
    case TransportLost(e) => [Gone(e)]
    case _ => []
  }

  function History(s: Core, steps: seq<Step>): seq<Fact>
    decreases |steps|
  {
    if steps == [] then []
    else
      var n := |steps| - 1;
      History(s, steps[..n]) + Facts(Execute(s, steps[..n]), steps[n].op, steps[n].now)
  }

  function Recall(m: map<HeldKey, U64>, f: Fact): map<HeldKey, U64> {
    match f
    case Down(k, seq_) => m[k := seq_]
    case Still(k, seq_) => if k in m then m[k := seq_] else m
    case Up(k) => m - {k}
    case Gone(e) => map k | k in m && k.endpoint != e :: m[k]
  }

  /** What the endpoints hold, from what they were told. */
  function Replay(facts: seq<Fact>): map<HeldKey, U64>
    decreases |facts|
  {
    if facts == [] then map[] else Recall(Replay(facts[..|facts| - 1]), facts[|facts| - 1])
  }

  function Sequences(held: map<HeldKey, Held>): map<HeldKey, U64> {
    map k | k in held :: held[k].sequence
  }

  /** Every token a run was lent. */
  function Minted(s: Core, steps: seq<Step>): set<Token>
    decreases |steps|
  {
    if steps == [] then {}
    else
      var n := |steps| - 1;
      var t := if steps[n].op.CleanupTaken? then TakeCleanup(Execute(s, steps[..n])).1 else None;
      Minted(s, steps[..n]) + if t.Some? then {t.value} else {}
  }

  /** Tokens cannot be forged: a run confirms only tokens it was lent before. */
  ghost predicate Genuine(s: Core, steps: seq<Step>)
    decreases |steps|
  {
    steps != [] ==>
      var n := |steps| - 1;
      Genuine(s, steps[..n]) && (steps[n].op.CleanupConfirmed? ==> steps[n].op.token in Minted(s, steps[..n]))
  }

  function RecallAll(m: map<HeldKey, U64>, facts: seq<Fact>): map<HeldKey, U64>
    decreases |facts|
  {
    if facts == [] then m else RecallAll(Recall(m, facts[0]), facts[1..])
  }

  lemma {:induction false} ReplayAppend(a: seq<Fact>, b: seq<Fact>)
    requires |b| <= 1
    ensures Replay(a + b) == RecallAll(Replay(a), b)
  {
    if b == [] {
      assert a + b == a;
    } else {
      assert (a + b)[..|a + b| - 1] == a;
      assert RecallAll(Recall(Replay(a), b[0]), b[1..]) == Recall(Replay(a), b[0]);
    }
  }

  lemma {:induction false} LeavesHeld(l: Ledger, e: Event, accepted: Option<U64>, c: Case, m: Ledger)
    requires Leaves(l, e, accepted, c, m)
    ensures match c
            case Holds(key, route, _) => accepted.Some? && m.held == l.held[key := Held(route, accepted.value)]
              && (key in l.held || |l.held| < MAX_REMOTE_HELD)
            case Lifts(key) => accepted.Some? && m.held == l.held - {key}
            case Repeats(key) => accepted.Some? && key in l.held
              && m.held == l.held[key := l.held[key].(sequence := accepted.value)]
            case _ => m.held == l.held
  {
    hide Queue, TouchOf, Missing, Noted, Touches, Is;
    NotedFrame(l, e);
    var n := Noted(l, e);
    if c.Closes? { QueueHeld(if c.burned then Burn(n) else n, l.held.Keys); }
    if c.Refuses? { QueueHeld(l, l.held.Keys); }
  }

  lemma {:induction false} QueueHeld(l: Ledger, picked: set<HeldKey>)
    ensures Queue(l, picked).ledger.held == l.held
  {
  }

  lemma {:induction false} DownFollows(held: map<HeldKey, Held>, k: HeldKey, h: Held)
    requires |held| <= MAX_REMOTE_HELD && (k in held || |held| < MAX_REMOTE_HELD)
    ensures Sequences(held[k := h]) == RecallAll(Sequences(held), [Down(k, h.sequence)])
            && |held[k := h]| <= MAX_REMOTE_HELD
  {
    RecallOne(Sequences(held), Down(k, h.sequence));
    Grows(held, held[k := h], k);
  }

  lemma {:induction false} StillFollows(held: map<HeldKey, Held>, k: HeldKey, q: U64)
    requires k in held
    ensures var after := held[k := held[k].(sequence := q)];
            Sequences(after) == RecallAll(Sequences(held), [Still(k, q)]) && |after| <= |held|
  {
    RecallOne(Sequences(held), Still(k, q));
    Shrinks(held[k := held[k].(sequence := q)], held);
  }

  lemma {:induction false} UpFollows(held: map<HeldKey, Held>, k: HeldKey)
    ensures Sequences(held - {k}) == RecallAll(Sequences(held), [Up(k)]) && |held - {k}| <= |held|
  {
    RecallOne(Sequences(held), Up(k));
    Shrinks(held - {k}, held);
  }

  lemma {:induction false} GoneFollows(held: map<HeldKey, Held>, e: Endpoint, after: map<HeldKey, Held>)
    requires after == map k | k in held && k.endpoint != e :: held[k]
    ensures Sequences(after) == RecallAll(Sequences(held), [Gone(e)]) && |after| <= |held|
  {
    RecallOne(Sequences(held), Gone(e));
    Shrinks(after, held);
  }

  lemma {:induction false} RelabelFollows(held: map<HeldKey, Held>, table: Table, after: map<HeldKey, Held>)
    requires after == map k | k in held :: held[k].(route := RouteFor(table, k.device))
    ensures Sequences(after) == Sequences(held) && |after| <= |held|
  {
    Shrinks(after, held);
  }

  lemma {:induction false} LeavesReplay(l: Ledger, e: Event, accepted: Option<U64>, c: Case, m: Ledger)
    requires Leaves(l, e, accepted, c, m) && |l.held| <= MAX_REMOTE_HELD
    ensures Sequences(m.held) == RecallAll(Sequences(l.held), Says(c, accepted)) && |m.held| <= MAX_REMOTE_HELD
  {
    hide Leaves, Sequences;
    LeavesHeld(l, e, accepted, c, m);
    if c.Holds? {
      DownFollows(l.held, c.key, Held(c.route, accepted.value));
    } else if c.Repeats? {
      StillFollows(l.held, c.key, accepted.value);
    } else if c.Lifts? {
      UpFollows(l.held, c.key);
    }
  }

  lemma {:induction false} RecallOne(m: map<HeldKey, U64>, f: Fact)
    ensures RecallAll(m, [f]) == Recall(m, f)
  {
    assert [f][1..] == [];
  }

  lemma {:induction false} Grows(a: map<HeldKey, Held>, b: map<HeldKey, Held>, k: HeldKey)
    requires b.Keys == a.Keys + {k} && |a| <= MAX_REMOTE_HELD && (k in a || |a| < MAX_REMOTE_HELD)
    ensures |b| <= MAX_REMOTE_HELD
  {
    assert |a| == |a.Keys| && |b| == |b.Keys|;
    if k in a { assert a.Keys + {k} == a.Keys; }
  }

  lemma {:induction false} Shrinks(a: map<HeldKey, Held>, b: map<HeldKey, Held>)
    requires a.Keys <= b.Keys
    ensures |a| <= |b|
  {
    assert |a| == |a.Keys| && |b| == |b.Keys|;
    Smaller(a.Keys, b.Keys);
  }

  lemma {:induction false} MovesHeld(l: Ledger, m: Move, n: Ledger)
    requires Moves(l, m, n)
    ensures match m
            case Releasing => l.cleanup != [] && n.held == l.held - {l.cleanup[0].key}
            case Losing(e) => n.held == map k | k in l.held && k.endpoint != e :: l.held[k]
            case Relabelling(_, table) => n.held == map k | k in l.held ::
              l.held[k].(route := RouteFor(table, k.device))
            case _ => n.held == l.held
  {
    hide Queue;
    if m.Queueing? || m.Relabelling? { QueueHeld(l, m.picked); }
  }

  lemma {:induction false} MovesReplay(l: Ledger, m: Move, n: Ledger)
    requires Moves(l, m, n) && |l.held| <= MAX_REMOTE_HELD
    ensures |n.held| <= MAX_REMOTE_HELD
    ensures match m
            case Releasing => l.cleanup != []
              && Sequences(n.held) == RecallAll(Sequences(l.held), [Up(l.cleanup[0].key)])
            case Losing(e) => Sequences(n.held) == RecallAll(Sequences(l.held), [Gone(e)])
            case _ => Sequences(n.held) == Sequences(l.held)
  {
    hide Moves, Sequences, RecallAll;
    MovesHeld(l, m, n);
    match m {
      case Relabelling(_, table) => RelabelFollows(l.held, table, n.held);
      case Releasing => UpFollows(l.held, l.cleanup[0].key);
      case Losing(e) => GoneFollows(l.held, e, n.held);
      case _ =>
    }
  }

  lemma {:induction false} StepReplay(s: Core, op: Op, now: U64)
    requires s.decision.None? && |s.ledger.held| <= MAX_REMOTE_HELD
    requires op.CleanupConfirmed? && Settles(s.ledger, op.token) ==> op.token.key == s.ledger.cleanup[0].key
    ensures var t := Apply(s, op, now);
            Sequences(t.ledger.held) == RecallAll(Sequences(s.ledger.held), Facts(s, op, now))
              && |t.ledger.held| <= MAX_REMOTE_HELD
    ensures |Facts(s, op, now)| <= 1
  {
    if op.Captured? {
      hide Apply, Leaves, PrepareCaptured, Capture, Justified, Drains;
      var c := CaptureCase(s, op.event, op.accepted, now);
      ApplyCapture(s, op, now);
      LeavesReplay(s.ledger, op.event, op.accepted, c, Apply(s, op, now).ledger);
    } else {
      hide Apply, Moves, Sequences;
      var m := OpMoves(s, op, now);
      MovesReplay(s.ledger, m, Apply(s, op, now).ledger);
      FactsOfMove(s, op, now);
    }
  }

  lemma {:induction false} FactsOfMove(s: Core, op: Op, now: U64)
    requires !op.Captured?
    ensures Facts(s, op, now) == if op.CleanupConfirmed? && Settles(s.ledger, op.token) then [Up(op.token.key)]
                                 else if op.TransportLost? then [Gone(op.endpoint)] else []
  {
    hide PrepareCaptured, Told, RoutingActive;
  }

  /** Tokens a run was lent still name the obligation they were lent for. */
  lemma {:induction false} MintedOnly(s: Core, steps: seq<Step>)
    requires s.decision.None? && Numbered(s.ledger)
    ensures Execute(s, steps).decision.None? && Numbered(Execute(s, steps).ledger)
    ensures forall t | t in Minted(s, steps) :: Only(Execute(s, steps).ledger, Entry(t.id, t.key, t.covered))
  {
    hide Apply, Only, Numbered;
    if steps != [] {
      var n := |steps| - 1;
      var u := Execute(s, steps[..n]);
      MintedOnly(s, steps[..n]);
      StepNumbered(u, steps[n].op, steps[n].now);
      forall t | t in Minted(s, steps) ensures Only(Execute(s, steps).ledger, Entry(t.id, t.key, t.covered)) {
        if t in Minted(s, steps[..n]) {
          StepOnly(u, steps[n].op, steps[n].now, Entry(t.id, t.key, t.covered));
        } else {
          TakenOnly(u, t);
          StepOnly(u, steps[n].op, steps[n].now, Entry(t.id, t.key, t.covered));
        }
      }
    }
  }

  lemma {:induction false} TakenOnly(s: Core, t: Token)
    requires Numbered(s.ledger) && TakeCleanup(s).1 == Some(t)
    ensures Only(s.ledger, Entry(t.id, t.key, t.covered))
  {
    assert s.ledger.cleanup[0] in s.ledger.cleanup;
  }

  /** At every moment of every run, what the ledger says is held where, and since which input, is exactly
      what follows from what the endpoints were told; and it never outgrows its bound. */
  lemma {:induction false} LedgerIsReplay(config: Config, v: H.View, s: Core, steps: seq<Step>)
    requires Start(config, v) == Some(s) && Genuine(s, steps)
    ensures Sequences(Execute(s, steps).ledger.held) == Replay(History(s, steps))
    ensures |Execute(s, steps).ledger.held| <= 1024
  {
    StartsEmpty(config, v, s);
    hide Apply, Start, Facts, Numbered, Sequences;
    if steps != [] {
      var n := |steps| - 1;
      var u := Execute(s, steps[..n]);
      LedgerIsReplay(config, v, s, steps[..n]);
      MintedOnly(s, steps[..n]);
      if steps[n].op.CleanupConfirmed? && Settles(u.ledger, steps[n].op.token) {
        assert u.ledger.cleanup[0] in u.ledger.cleanup;
      }
      StepReplay(u, steps[n].op, steps[n].now);
      ReplayAppend(History(s, steps[..n]), Facts(u, steps[n].op, steps[n].now));
    }
  }

  lemma {:induction false} StartsEmpty(config: Config, v: H.View, s: Core)
    requires Start(config, v) == Some(s)
    ensures s.decision.None? && Numbered(s.ledger) && s.ledger.held == map[] && s.ledger.latches == map[]
            && s.ledger.cleanup == []
    ensures s.candidate.None? && !s.handoff && !s.drain && Sequences(s.ledger.held) == map[]
  {
    hide ValidConfig, Compile, PeersFor;
  }
}
