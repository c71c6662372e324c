/** No key is left stuck on a peer: whatever is held there is owed its release or still being tracked here. */
module DaemonNoStuck {
  import opened Base
  import opened Ledger
  import opened Daemon
  import opened LedgerLemmas
  import opened DaemonRuns
  import opened DaemonLedger
  import opened DaemonCoherence
  import opened DaemonControl
  import H = Handoff

  /** If everything had to be released now, the queue and the identifiers would suffice. */
  ghost predicate Room(l: Ledger) {
    |l.cleanup| + |l.held.Keys - Owed(l.cleanup)| <= MAX_CLEANUP && l.nextId + MAX_CLEANUP < U64_MAX
  }

  /** While the failsafe drains, nothing at all is still open remotely. */
  ghost predicate Tracked(l: Ledger, drain: bool) {
    Accounted(l) && (drain ==> l.held.Keys <= Owed(l.cleanup))
  }

  lemma {:induction false} RoomQueues(l: Ledger, b: Ledger)
    requires Room(l) && b.held == l.held && b.cleanup == l.cleanup && b.nextId <= l.nextId + 1
    ensures Queue(b, b.held.Keys).error.None?
  {
    assert Unowed(b, b.held.Keys) == l.held.Keys - Owed(l.cleanup);
    OrderedVisits(Unowed(b, b.held.Keys));
  }

  lemma {:induction false} SetAside(l: Ledger, b: Ledger)
    requires Room(l) && b.held == l.held && b.cleanup == l.cleanup && b.nextId <= l.nextId + 1
    ensures Tracked(Queue(b, b.held.Keys).ledger, true)
  {
    RoomQueues(l, b);
    QueueAll(b);
  }

  lemma {:induction false} NotedTracked(l: Ledger, e: Event, drain: bool)
    requires Tracked(l, drain)
    requires !drain && Is(TouchOf(e.payload), Release) ==>
               var latch := LatchAt(l, Slot(e.device, TouchOf(e.payload).value.control));
               latch.Some? ==> !latch.value.ToRemote?
    ensures Tracked(Noted(l, e), drain)
  {
    hide TouchOf, Owed;
    var n := Noted(l, e);
    forall k | k in n.held ensures k in Owed(n.cleanup) || Open(n, k) {
      if Open(l, k) && k !in Owed(l.cleanup) { assert Open(n, k); }
    }
  }

  lemma {:induction false} HoldsTracked(l: Ledger, n: Ledger, key: HeldKey, h: Held, m: Ledger)
    requires Accounted(l) && (SlotOf(key) in l.latches ==> Open(l, key))
    requires forall s | s != SlotOf(key) :: s in l.latches ==> s in n.latches && n.latches[s] == l.latches[s]
    requires m.held == l.held[key := h] && m.cleanup == l.cleanup
    requires m.latches == n.latches[SlotOf(key) := ToRemote(key.endpoint, h.route)]
    ensures Accounted(m)
  {
    hide Owed;
    forall k | k in m.held ensures k in Owed(m.cleanup) || Open(m, k) {
      if k != key && k !in Owed(l.cleanup) {
        assert Open(l, k);
        assert SlotOf(k) != SlotOf(key);
      }
    }
  }

  lemma {:induction false} LiftsTracked(l: Ledger, n: Ledger, key: HeldKey, m: Ledger)
    requires Accounted(l) && Open(l, key)
    requires forall s | s != SlotOf(key) :: s in l.latches ==> s in n.latches && n.latches[s] == l.latches[s]
    requires m.held == l.held - {key} && m.cleanup == l.cleanup && m.latches == n.latches
    ensures Accounted(m)
  {
    hide Owed;
    forall k | k in m.held ensures k in Owed(m.cleanup) || Open(m, k) {
      if k !in Owed(l.cleanup) {
        assert Open(l, k);
        assert SlotOf(k) != SlotOf(key);
      }
    }
  }

  lemma {:induction false} NotedElsewhere(l: Ledger, e: Event, key: HeldKey, t: Transition)
    requires Touches(e, key, t)
    ensures forall s | s != SlotOf(key) :: s in l.latches ==>
              s in Noted(l, e).latches && Noted(l, e).latches[s] == l.latches[s]
    ensures t == Repeat ==> Noted(l, e) == l
  {
    hide TouchOf;
  }

  lemma {:induction false} ParksTracked(l: Ledger, n: Ledger, slot: Slot, m: Ledger)
    requires Accounted(l) && slot !in l.latches && n.held == l.held && n.cleanup == l.cleanup
    requires forall s | s != slot :: s in l.latches ==> s in n.latches && n.latches[s] == l.latches[s]
    requires m == n.(latches := n.latches[slot := Quarantined])
    ensures Accounted(m)
  {
    hide Owed;
    forall k | k in m.held ensures k in Owed(m.cleanup) || Open(m, k) {
      if k !in Owed(l.cleanup) {
        assert Open(l, k);
        assert SlotOf(k) != slot;
      }
    }
  }

  lemma {:induction false} LeavesTracked(s: Core, e: Event, accepted: Option<U64>, now: U64, c: Case, m: Ledger,
                                         drain: bool)
    requires Tracked(s.ledger, s.drain) && Room(s.ledger)
    requires Leaves(s.ledger, e, accepted, c, m) && Justified(s, e, now, c) && Drains(s.drain, drain, c)
    ensures Tracked(m, drain)
  {
    hide Queue, Noted, TouchOf, Missing, Owed, Room, RouteFor, RoutingActive;
    var l := s.ledger;
    var n := Noted(l, e);
    NotedFrame(l, e);
    match c {
      case Unchanged =>
      case Refuses => SetAside(l, l);
      case OnlyNotes => NotedTracked(l, e, s.drain);
      case Parks =>
        var slot := Slot(e.device, TouchOf(e.payload).value.control);
        NotedElsewhere(l, e, HeldKey(Endpoint(0, 0, 0, 0, 0), slot.device, slot.control), Press);
        ParksTracked(l, n, slot, m);
      case Closes(burned) => SetAside(l, if burned then Burn(n) else n);
      case Passes => NothingNoted(l, e);
      case Holds(key, route, first) =>
        NotedElsewhere(l, e, key, Press);
        HoldsTracked(l, n, key, Held(route, accepted.value), m);
      case Lifts(key) =>
        NotedElsewhere(l, e, key, Release);
        LiftsTracked(l, n, key, m);
      case Repeats(key) => NotedElsewhere(l, e, key, Repeat);
    }
  }

  lemma {:induction false} NothingNoted(l: Ledger, e: Event)
    requires TouchOf(e.payload).None?
    ensures Noted(l, e) == l
  {
  }

  lemma {:induction false} MovesTracked(l: Ledger, m: Move, n: Ledger, drain: bool)
    requires Tracked(l, drain) && Moves(l, m, n)
    ensures Tracked(n, drain)
  {
    hide Queue, Invalidate, Released, Owed;
    match m {
      case Queueing(p) => QueueAccounted(l, p); QueueOwes(l, p);
      case Relabelling(p, table) =>
        QueueAccounted(l, p);
        QueueOwes(l, p);
        RelabelTracked(Queue(l, p).ledger, table, drain);
      case Forgetting(d) =>
        forall k | k in n.held ensures k in Owed(n.cleanup) || Open(n, k) { assert Open(l, k) ==> Open(n, k); }
      case Releasing => ReleasedAccounted(l);
      case Losing(e) => InvalidateAccounted(l, e);
      case Lending => assert forall k | Open(l, k) :: Open(n, k);
      case Returning => assert forall k | Open(l, k) :: Open(n, k);
    }
  }

  lemma {:induction false} QueueOwes(l: Ledger, picked: set<HeldKey>)
    ensures Queue(l, picked).ledger.held == l.held
    ensures l.held.Keys <= Owed(l.cleanup) ==> l.held.Keys <= Owed(Queue(l, picked).ledger.cleanup)
  {
    var added := QueueEffect(l, picked);
    OwedAppend(l.cleanup, added);
  }

  lemma {:induction false} RelabelTracked(l: Ledger, table: Table, drain: bool)
    requires Tracked(l, drain)
    ensures Tracked(Relabel(l, table), drain)
  {
    hide Owed, RouteFor;
    var m := Relabel(l, table);
    assert m.held.Keys == l.held.Keys;
    forall k | k in m.held ensures k in Owed(m.cleanup) || Open(m, k) { assert Open(l, k) ==> Open(m, k); }
  }

  lemma {:induction false} StepTracked(s: Core, op: Op, now: U64)
    requires s.decision.None? && Tracked(s.ledger, s.drain) && Room(s.ledger)
    ensures Tracked(Apply(s, op, now).ledger, Apply(s, op, now).drain)
  {
    hide Apply, Leaves, Moves, Tracked, Room, Queue;
    var t := Apply(s, op, now);
    if op.Captured? {
      hide Justified, Drains, Capture, Shown;
      var c := CaptureCase(s, op.event, op.accepted, now);
      ApplyCapture(s, op, now);
      LeavesTracked(s, op.event, op.accepted, now, c, t.ledger, t.drain);
    } else {
      var m := OpMoves(s, op, now);
      OpSteers(s, op, now);
      if op.EmergencyTriggered? {
        MovesToQueue(s.ledger, m, t.ledger);
        SetAside(s.ledger, s.ledger);
      } else {
        MovesTracked(s.ledger, m, t.ledger, s.drain);
      }
      hide Steers;
      TrackedLess(t.ledger, t.drain);
    }
  }

  lemma {:induction false} MovesToQueue(l: Ledger, m: Move, n: Ledger)
    requires Moves(l, m, n) && m.Queueing?
    ensures n == Queue(l, m.picked).ledger
  {
  }

  lemma {:induction false} TrackedLess(l: Ledger, drain: bool)
    requires Tracked(l, drain) || Tracked(l, true)
    ensures Tracked(l, drain) && Tracked(l, false)
  {
  }

  ghost predicate Roomy(s: Core, steps: seq<Step>) {
    forall i | 0 <= i < |steps| :: Room(Execute(s, steps[..i]).ledger)
  }

  lemma {:induction false} StartTracked(config: Config, v: H.View, s: Core)
    requires Start(config, v) == Some(s)
    ensures s.decision.None? && Tracked(s.ledger, s.drain)
  {
    hide Start;
    StartsEmpty(config, v, s);
  }

  /** In every run that always had room to release everything, nothing held on a peer is out of sight. */
  lemma {:induction false} NothingStuck(config: Config, v: H.View, s: Core, steps: seq<Step>)
    requires Start(config, v) == Some(s) && Roomy(s, steps)
    ensures Tracked(Execute(s, steps).ledger, Execute(s, steps).drain)
  {
    hide Apply, Start, Room, Tracked;
    StartTracked(config, v, s);
    if steps != [] {
      var n := |steps| - 1;
      forall i | 0 <= i < n ensures Room(Execute(s, steps[..n][..i]).ledger) { assert steps[..n][..i] == steps[..i]; }
      NothingStuck(config, v, s, steps[..n]);
      RunSettled(s, steps[..n]);
      StepTracked(Execute(s, steps[..n]), steps[n].op, steps[n].now);
    }
  }

  /** A coherent ledger always has room, as long as identifiers last. */
  lemma {:induction false} CoherentRoom(l: Ledger)
    requires Coherent(l) && |l.held| <= MAX_REMOTE_HELD && l.nextId + MAX_CLEANUP < U64_MAX
    ensures Room(l)
  {
    OwedCount(l.cleanup);
    Fits(Owed(l.cleanup), l.held.Keys - Owed(l.cleanup), l.held.Keys);
  }

  lemma {:induction false} StepNumbers(s: Core, op: Op, now: U64)
    requires s.decision.None?
    ensures s.ledger.nextId <= Apply(s, op, now).ledger.nextId
  {
    hide Apply, Leaves, Queue;
    if op.Captured? {
      var c := CaptureCase(s, op.event, op.accepted, now);
      ApplyCapture(s, op, now);
      var b := LeavesQueue(s.ledger, op.event, op.accepted, c, Apply(s, op, now).ledger);
      QueueNumbers(b, b.held.Keys);
    } else {
      var m := OpMoves(s, op, now);
      if m.Queueing? || m.Relabelling? { QueueNumbers(s.ledger, m.picked); }
    }
  }

  lemma {:induction false} QueueNumbers(l: Ledger, picked: set<HeldKey>)
    ensures l.nextId <= Queue(l, picked).ledger.nextId
  {
  }

  lemma {:induction false} RunNumbers(s: Core, steps: seq<Step>, i: nat)
    requires s.decision.None? && i <= |steps|
    ensures Execute(s, steps[..i]).ledger.nextId <= Execute(s, steps).ledger.nextId
    decreases |steps|
  {
    hide Apply;
    if i < |steps| {
      var n := |steps| - 1;
      RunNumbers(s, steps[..n], i);
      assert steps[..n][..i] == steps[..i];
      RunSettled(s, steps[..n]);
      StepNumbers(Execute(s, steps[..n]), steps[n].op, steps[n].now);
    } else {
      assert steps[..i] == steps;
    }
  }

  /** In every run without a retained route candidate, for as long as identifiers last, every control held on a
      peer has its release owed or its lifecycle still open here. */
  lemma {:induction false} NoStuckKey(config: Config, v: H.View, s: Core, steps: seq<Step>)
    requires Start(config, v) == Some(s) && Uncandidated(s, steps)
    requires Execute(s, steps).ledger.nextId + MAX_CLEANUP < U64_MAX
    ensures Tracked(Execute(s, steps).ledger, Execute(s, steps).drain)
  {
    hide Apply, Execute, Start, Room, Coherent, Tracked;
    StartsEmpty(config, v, s);
    forall i | 0 <= i < |steps| ensures Room(Execute(s, steps[..i]).ledger) {
      forall j | 0 <= j < i ensures Execute(s, steps[..i][..j]).candidate.None? {
        assert steps[..i][..j] == steps[..j];
      }
      Coherence(config, v, s, steps[..i]);
      RunNumbers(s, steps, i);
      CoherentRoom(Execute(s, steps[..i]).ledger);
    }
    NothingStuck(config, v, s, steps);
  }
}
