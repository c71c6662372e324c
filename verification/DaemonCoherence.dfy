/** Latches, held controls and owed releases agree with each other, and exactly when they might not. */
module DaemonCoherence {
  import opened Base
  import opened Ledger
  import opened Daemon
  import opened LedgerLemmas
  import opened DaemonRuns
  import opened DaemonLedger
  import H = Handoff

  // ---------------------------------------------------------------- one step

  ghost predicate FewerRemote(l: Ledger, n: Ledger) {
    forall s | s in n.latches && n.latches[s].ToRemote? :: s in l.latches && l.latches[s] == n.latches[s]
  }

  lemma {:induction false} FewerCoherent(l: Ledger, n: Ledger)
    requires Coherent(l) && n.held == l.held && n.cleanup == l.cleanup && FewerRemote(l, n)
    ensures Coherent(n)
  {
  }

  lemma {:induction false} NotedFewer(l: Ledger, e: Event)
    ensures FewerRemote(l, Noted(l, e))
    ensures Is(TouchOf(e.payload), Release) ==> Slot(e.device, TouchOf(e.payload).value.control) !in Noted(l, e).latches
  {
    hide TouchOf;
  }

  lemma {:induction false} HoldsCoherent(l: Ledger, n: Ledger, key: HeldKey, h: Held, m: Ledger)
    requires Coherent(l) && n.held == l.held && n.cleanup == l.cleanup && FewerRemote(l, n)
    requires m.held == l.held[key := h] && m.cleanup == l.cleanup
    requires m.latches == n.latches[SlotOf(key) := ToRemote(key.endpoint, h.route)]
    ensures Coherent(m) <==> key !in Owed(l.cleanup)
  {
    hide Owed, DistinctKeys;
    assert m.latches[SlotOf(key)].ToRemote? && HeldKey(key.endpoint, SlotOf(key).device, SlotOf(key).control) == key;
    forall s | s in m.latches && m.latches[s].ToRemote? && s != SlotOf(key)
      ensures var k := HeldKey(m.latches[s].endpoint, s.device, s.control);
              k in m.held && m.held[k].route == m.latches[s].route && k !in Owed(m.cleanup)
    {
      assert n.latches[s] == m.latches[s] && l.latches[s] == m.latches[s];
    }
  }

  lemma {:induction false} LiftsCoherent(l: Ledger, n: Ledger, key: HeldKey, m: Ledger)
    requires Coherent(l) && n.held == l.held && n.cleanup == l.cleanup && FewerRemote(l, n)
    requires Open(l, key) && SlotOf(key) !in n.latches
    requires m.held == l.held - {key} && m.cleanup == l.cleanup && m.latches == n.latches
    ensures Coherent(m)
  {
    hide Owed, DistinctKeys;
    assert HeldKey(key.endpoint, SlotOf(key).device, SlotOf(key).control) == key;
    assert key !in Owed(l.cleanup);
  }

  lemma {:induction false} RepeatsCoherent(l: Ledger, n: Ledger, key: HeldKey, q: U64, m: Ledger)
    requires Coherent(l) && n.held == l.held && n.cleanup == l.cleanup && FewerRemote(l, n) && key in l.held
    requires m.held == l.held[key := l.held[key].(sequence := q)] && m.cleanup == l.cleanup && m.latches == n.latches
    ensures Coherent(m)
  {
    hide Owed, DistinctKeys;
  }

  /** A first press that goes out while the release of the same control is still owed there. */
  ghost predicate Clashes(l: Ledger, c: Case) {
    c.Holds? && c.first && c.key in Owed(l.cleanup)
  }

  lemma {:induction false} LeavesCoherent(l: Ledger, e: Event, accepted: Option<U64>, c: Case, m: Ledger)
    requires Coherent(l) && Leaves(l, e, accepted, c, m)
    ensures Coherent(m) <==> !Clashes(l, c)
  {
    hide Queue, Coherent, Noted, TouchOf, Missing, Owed, FewerRemote;
    var n := Noted(l, e);
    NotedFrame(l, e);
    NotedFewer(l, e);
    FewerCoherent(l, n);
    match c {
      case Unchanged =>
      case Refuses => QueueCoherent(l, l.held.Keys);
      case OnlyNotes =>
      case Parks => ParksCoherent(l, n, Slot(e.device, TouchOf(e.payload).value.control), m);
      case Closes(burned) =>
        var b := if burned then Burn(n) else n;
        SameCoherent(n, b);
        QueueCoherent(b, l.held.Keys);
      case Passes => SameCoherent(n, m);
      case Holds(key, route, first) =>
        HoldsCoherent(l, n, key, Held(route, accepted.value), m);
        if !first { OpenNotOwed(l, key); }
      case Lifts(key) => LiftsCoherent(l, n, key, m);
      case Repeats(key) => RepeatsCoherent(l, n, key, accepted.value, m);
    }
  }

  lemma {:induction false} ParksCoherent(l: Ledger, n: Ledger, slot: Slot, m: Ledger)
    requires Coherent(n) && m == n.(latches := n.latches[slot := Quarantined])
    ensures Coherent(m)
  {
    FewerCoherent(n, m);
  }

  lemma {:induction false} SameCoherent(a: Ledger, b: Ledger)
    requires a.latches == b.latches && a.held == b.held && a.cleanup == b.cleanup
    ensures Coherent(a) ==> Coherent(b)
  {
  }

  lemma {:induction false} OpenNotOwed(l: Ledger, key: HeldKey)
    requires Coherent(l) && Open(l, key)
    ensures key !in Owed(l.cleanup) && key in l.held
  {
    assert HeldKey(key.endpoint, SlotOf(key).device, SlotOf(key).control) == key;
  }

  lemma {:induction false} MovesCoherent(l: Ledger, m: Move, n: Ledger)
    requires Coherent(l) && Moves(l, m, n)
    ensures Coherent(n)
  {
    hide Queue, Coherent, Invalidate, Released;
    match m {
      case Queueing(p) => QueueCoherent(l, p);
      case Relabelling(p, table) =>
        QueueCoherent(l, p);
        RelabelCoherent(Queue(l, p).ledger, table);
      case Forgetting(d) => FewerCoherent(l, n);
      case Releasing => ReleasedCoherent(l);
      case Losing(e) => InvalidateCoherent(l, e);
      case _ => SameCoherent(l, n);
    }
  }

  lemma {:induction false} RelabelCoherent(l: Ledger, table: Table)
    requires Coherent(l)
    ensures Coherent(Relabel(l, table))
  {
    var m := Relabel(l, table);
    hide RouteFor, Owed, DistinctKeys;
    forall s | s in m.latches && m.latches[s].ToRemote?
      ensures var k := HeldKey(m.latches[s].endpoint, s.device, s.control);
              k in m.held && m.held[k].route == m.latches[s].route && k !in Owed(m.cleanup)
    {
      assert l.latches[s].ToRemote? && l.latches[s].endpoint == m.latches[s].endpoint;
    }
  }

  /** The endpoint at which a first press by `d` would be held, as far as routing is open for the device. */
  function Target(s: Core, d: DeviceId, now: U64): Option<Endpoint> {
    var route := RouteFor(s.table, d);
    if DeviceGated(s, d) || (s.handoff && route == FollowActiveHost) || Destination(s, d).None? then None
    else TargetEndpoint(s, Destination(s, d).value, route, now)
  }

  /** The control is new, there is room for it here and at the peer, and it does not complete the shortcut. */
  predicate Pressable(s: Core, slot: Slot) {
    && slot !in s.ledger.latches && HasPhysicalRoom(s.ledger.latches, slot.device)
    && !s.drain && !FailsafeMatches(s.(ledger := s.ledger.(latches := s.ledger.latches[slot := ToLocal])))
    && |s.ledger.held| < MAX_REMOTE_HELD && s.ledger.nextId < U64_MAX
  }

  /** A first press is captured and queued for the very endpoint that is still owed a release of the control. */
  predicate Represses(s: Core, op: Op, now: U64) {
    && op.Captured? && op.accepted.Some? && Eligible(s, op.event) && Is(TouchOf(op.event.payload), Press)
    && var slot := Slot(op.event.device, TouchOf(op.event.payload).value.control);
       var target := Target(s, slot.device, now);
       && Pressable(s, slot)
       && target.Some? && HeldKey(target.value, slot.device, slot.control) in Owed(s.ledger.cleanup)
  }

  /** The guards are those of a capture that hands out a remote decision for a first press. */
  lemma {:induction false} RepressesSends(s: Core, op: Op, now: U64)
    requires s.decision.None? && op.Captured?
    ensures var r := PrepareCaptured(s, op.event, now);
            Represses(s, op, now) <==>
              && Sends(s.ledger, r, op.event, op.accepted)
              && HeldKey(r.result.value.effect.endpoint, op.event.device, TouchOf(op.event.payload).value.control)
                 in Owed(s.ledger.cleanup)
  {
    hide FailClosed, ActivateFailsafe, FailsafeMatches, AnyFailsafeKey, HasPhysicalRoom, RouteFor, Owed, TouchOf,
         Eligible;
  }

  /** Coherence survives every operation except exactly a first press of a control whose release is still owed. */
  lemma {:induction false} CoherentExactly(s: Core, op: Op, now: U64)
    requires s.decision.None? && Coherent(s.ledger)
    ensures Coherent(Apply(s, op, now).ledger) <==> !Represses(s, op, now)
  {
    hide Apply, Coherent, Owed, PrepareCaptured, Capture, Represses;
    if op.Captured? {
      RepressesSends(s, op, now);
      var c := CaptureCase(s, op.event, op.accepted, now);
      ApplyCapture(s, op, now);
      LeavesCoherent(s.ledger, op.event, op.accepted, c, Apply(s, op, now).ledger);
      assert Clashes(s.ledger, c) <==> Represses(s, op, now) by { hide Told, Drains, Justified, Noted; }
    } else {
      var m := OpMoves(s, op, now);
      MovesCoherent(s.ledger, m, Apply(s, op, now).ledger);
      assert !Represses(s, op, now) by { OnlyCaptures(s, op, now); }
    }
  }

  lemma {:induction false} OnlyCaptures(s: Core, op: Op, now: U64)
    ensures Represses(s, op, now) ==> op.Captured?
  {
  }

  /** Without a retained route candidate, routing waits for owed releases, so no press can overtake one. */
  lemma {:induction false} NoCandidateNoClash(s: Core, op: Op, now: U64)
    requires s.decision.None? && s.candidate.None?
    ensures !Represses(s, op, now)
  {
    hide PrepareCaptured, Capture, Leaves, Represses;
    OnlyCaptures(s, op, now);
    if op.Captured? {
      RepressesSends(s, op, now);
      var c := CaptureCase(s, op.event, op.accepted, now);
    }
  }

  // ---------------------------------------------------------------- runs

  ghost predicate Orderly(s: Core, steps: seq<Step>) {
    forall i | 0 <= i < |steps| :: !Represses(Execute(s, steps[..i]), steps[i].op, steps[i].now)
  }

  ghost predicate Uncandidated(s: Core, steps: seq<Step>) {
    forall i | 0 <= i < |steps| :: Execute(s, steps[..i]).candidate.None?
  }

  lemma {:induction false} RunCoherent(s: Core, steps: seq<Step>)
    requires s.decision.None? && Coherent(s.ledger) && |s.ledger.held| <= MAX_REMOTE_HELD && Orderly(s, steps)
    ensures var u := Execute(s, steps); u.decision.None? && Coherent(u.ledger) && |u.ledger.held| <= MAX_REMOTE_HELD
  {
    hide Apply, Coherent, Represses;
    if steps != [] {
      var n := |steps| - 1;
      var u := Execute(s, steps[..n]);
      forall i | 0 <= i < n ensures !Represses(Execute(s, steps[..n][..i]), steps[..n][i].op, steps[..n][i].now) {
        assert steps[..n][..i] == steps[..i];
      }
      RunCoherent(s, steps[..n]);
      StepSettled(u, steps[n].op, steps[n].now);
      StepBounded(u, steps[n].op, steps[n].now);
      assert !Represses(u, steps[n].op, steps[n].now);
      CoherentExactly(u, steps[n].op, steps[n].now);
    }
  }

  /** A run is coherent throughout if and only if it never presses a control whose release is still owed there. */
  lemma {:induction false} CoherentThroughout(s: Core, steps: seq<Step>)
    requires s.decision.None? && Coherent(s.ledger) && |s.ledger.held| <= MAX_REMOTE_HELD
    ensures (forall i | 0 <= i <= |steps| :: Coherent(Execute(s, steps[..i]).ledger)) <==> Orderly(s, steps)
  {
    hide Apply, Coherent, Represses, Execute;
    if Orderly(s, steps) {
      forall i | 0 <= i <= |steps| ensures Coherent(Execute(s, steps[..i]).ledger) {
        forall j | 0 <= j < i ensures !Represses(Execute(s, steps[..i][..j]), steps[..i][j].op, steps[..i][j].now) {
          assert steps[..i][..j] == steps[..j];
        }
        RunCoherent(s, steps[..i]);
      }
    }
    if forall i | 0 <= i <= |steps| :: Coherent(Execute(s, steps[..i]).ledger) {
      forall i | 0 <= i < |steps| ensures !Represses(Execute(s, steps[..i]), steps[i].op, steps[i].now) {
        RunSettled(s, steps[..i]);
        StepLast(s, steps, i);
        assert Coherent(Execute(s, steps[..i]).ledger) && Coherent(Execute(s, steps[..i + 1]).ledger);
        CoherentExactly(Execute(s, steps[..i]), steps[i].op, steps[i].now);
      }
    }
  }

  lemma {:induction false} StepLast(s: Core, steps: seq<Step>, i: nat)
    requires i < |steps|
    ensures Execute(s, steps[..i + 1]) == Apply(Execute(s, steps[..i]), steps[i].op, steps[i].now)
  {
    hide Apply;
    assert steps[..i + 1][..i] == steps[..i];
  }

  lemma {:induction false} StepBounded(s: Core, op: Op, now: U64)
    requires s.decision.None? && |s.ledger.held| <= MAX_REMOTE_HELD
    ensures |Apply(s, op, now).ledger.held| <= MAX_REMOTE_HELD
  {
    hide Apply, Leaves, Moves, Sequences, RecallAll, Capture;
    if op.Captured? {
      var c := CaptureCase(s, op.event, op.accepted, now);
      ApplyCapture(s, op, now);
      LeavesReplay(s.ledger, op.event, op.accepted, c, Apply(s, op, now).ledger);
    } else {
      var m := OpMoves(s, op, now);
      MovesReplay(s.ledger, m, Apply(s, op, now).ledger);
    }
  }

  lemma {:induction false} UncandidatedOrderly(s: Core, steps: seq<Step>, i: nat)
    requires s.decision.None? && Uncandidated(s, steps) && i < |steps|
    ensures !Represses(Execute(s, steps[..i]), steps[i].op, steps[i].now)
  {
    hide Execute, Represses, Apply;
    RunSettled(s, steps[..i]);
    NoCandidateNoClash(Execute(s, steps[..i]), steps[i].op, steps[i].now);
  }

  /** In every run without a retained route candidate, latches, held controls and owed releases agree. */
  lemma {:induction false} Coherence(config: Config, v: H.View, s: Core, steps: seq<Step>)
    requires Start(config, v) == Some(s) && Uncandidated(s, steps)
    ensures Coherent(Execute(s, steps).ledger) && |Execute(s, steps).ledger.held| <= MAX_REMOTE_HELD
  {
    hide Execute, Represses, Apply, Start;
    StartsEmpty(config, v, s);
    forall i | 0 <= i < |steps| ensures !Represses(Execute(s, steps[..i]), steps[i].op, steps[i].now) {
      UncandidatedOrderly(s, steps, i);
    }
    RunCoherent(s, steps);
  }

  // ---------------------------------------------------------------- what coherence buys

  /** A queued event is always recorded: neither the capacity nor the missing-hold branch of confirmation is
      reachable. */
  lemma {:induction false} ConfirmNeverFails(s: Core, e: Event, sequence: U64, now: U64)
    requires s.decision.None? && Coherent(s.ledger)
    ensures var r := PrepareCaptured(s, e, now);
            r.result.Ok? && r.result.value.DecidedRemote? ==>
              ConfirmRemote(r.core, r.result.value.effect, sequence, now).result.Ok?
  {
    hide PrepareCaptured, ConfirmRemote, Capture, Queue, TouchOf;
    var c := CaptureCase(s, e, Some(sequence), now);
  }

  /** Every picked control gets its release owed, unless the identifiers have run out. */
  lemma {:induction false} QueueNeverOverflows(s: Core, picked: set<HeldKey>)
    requires Coherent(s.ledger) && |s.ledger.held| <= MAX_REMOTE_HELD
    ensures Queue(s.ledger, picked).error.Some? <==> s.ledger.nextId + |Unowed(s.ledger, picked)| > U64_MAX
    ensures Queue(s.ledger, picked).error.Some? ==> Queue(s.ledger, picked).error.value == IdentifiersExhausted
  {
    QueueRoom(s.ledger, picked);
  }
}
