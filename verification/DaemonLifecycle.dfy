/** One press, one destination: where a lifecycle goes is settled once and only ever cut short. */
module DaemonLifecycle {
  import opened Base
  import opened Ledger
  import opened Daemon
  import opened LedgerLemmas
  import opened DaemonRuns
  import opened DaemonLedger

  /** A local lifecycle stays local; a remote one keeps its endpoint or is cut off; a cut-off one stays so. */
  ghost predicate Continues(a: Latch, b: Latch) {
    match a
    case ToLocal => b == ToLocal
    case ToRemote(e, _) => b == Quarantined || (b.ToRemote? && b.endpoint == e)
    case Quarantined => b == Quarantined
  }

  /** The operation ends the lifecycle of a control: its physical release, or its device coming back. */
  predicate Ends(op: Op, slot: Slot) {
    || (op.Captured? && op.event.device == slot.device
        && TouchOf(op.event.payload) == Some(Touch(slot.control, Release)))
    || op == DeviceRestored(slot.device)
  }

  ghost predicate Carries(l: Ledger, m: Ledger, slot: Slot) {
    slot in l.latches ==> slot in m.latches && Continues(l.latches[slot], m.latches[slot])
  }

  lemma {:induction false} QueueCarries(l: Ledger, picked: set<HeldKey>, slot: Slot)
    ensures Carries(l, Queue(l, picked).ledger, slot)
  {
  }

  lemma {:induction false} NotedCarries(l: Ledger, e: Event, slot: Slot)
    requires !(e.device == slot.device && TouchOf(e.payload) == Some(Touch(slot.control, Release)))
    ensures slot in l.latches ==> slot in Noted(l, e).latches && Noted(l, e).latches[slot] == l.latches[slot]
  {
    hide TouchOf;
  }

  lemma {:induction false} LeavesCarries(l: Ledger, e: Event, accepted: Option<U64>, c: Case, m: Ledger, slot: Slot)
    requires Leaves(l, e, accepted, c, m)
    requires !(e.device == slot.device && TouchOf(e.payload) == Some(Touch(slot.control, Release)))
    ensures Carries(l, m, slot)
  {
    hide Queue, TouchOf, Noted, Missing;
    var n := Noted(l, e);
    NotedCarries(l, e, slot);
    if c.Closes? {
      QueueCarries(if c.burned then Burn(n) else n, l.held.Keys, slot);
    } else if c.Refuses? {
      QueueCarries(l, l.held.Keys, slot);
    }
  }

  lemma {:induction false} MovesCarries(l: Ledger, m: Move, n: Ledger, slot: Slot)
    requires Moves(l, m, n) && m != Forgetting(slot.device)
    ensures Carries(l, n, slot)
  {
    hide Queue;
    if m.Queueing? || m.Relabelling? { QueueCarries(l, m.picked, slot); }
  }

  lemma {:induction false} StepCarries(s: Core, op: Op, now: U64, slot: Slot)
    requires s.decision.None? && !Ends(op, slot)
    ensures Carries(s.ledger, Apply(s, op, now).ledger, slot)
  {
    hide Apply, Leaves, Moves, Carries, Capture;
    if op.Captured? {
      var c := CaptureCase(s, op.event, op.accepted, now);
      ApplyCapture(s, op, now);
      LeavesCarries(s.ledger, op.event, op.accepted, c, Apply(s, op, now).ledger, slot);
    } else {
      var m := OpMoves(s, op, now);
      MovesCarries(s.ledger, m, Apply(s, op, now).ledger, slot);
    }
  }

  /** However captures, handoffs, policy commits, cleanups and lost transports interleave, a pressed control's
      lifecycle never changes destination before its physical release or its device's restoration. */
  lemma {:induction false} OneDestination(s: Core, steps: seq<Step>, slot: Slot)
    requires s.decision.None? && slot in s.ledger.latches
    requires forall i | 0 <= i < |steps| :: !Ends(steps[i].op, slot)
    ensures slot in Execute(s, steps).ledger.latches
    ensures Continues(s.ledger.latches[slot], Execute(s, steps).ledger.latches[slot])
  {
    hide Apply, Ends;
    if steps != [] {
      var n := |steps| - 1;
      OneDestination(s, steps[..n], slot);
      RunSettled(s, steps[..n]);
      StepCarries(Execute(s, steps[..n]), steps[n].op, steps[n].now, slot);
    }
  }
}
