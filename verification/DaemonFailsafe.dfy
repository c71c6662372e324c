/** What the person at the keyboard can rely on: events are swallowed only for cause, and the shortcut always works. */
module DaemonFailsafe {
  import opened Base
  import opened Ledger
  import opened Daemon
  import opened LedgerLemmas
  import opened DaemonRuns
  import opened DaemonLedger
  import opened DaemonControl
  import opened DaemonCoherence
  import opened DaemonRouting

  // ---------------------------------------------------------------- suppression

  /** The event's own lifecycle had already left this host, or been cut off. */
  ghost predicate AlreadyAway(l: Ledger, e: Event) {
    var touch := TouchOf(e.payload);
    touch.Some? && var latch := LatchAt(l, Slot(e.device, touch.value.control)); latch.Some? && latch.value != ToLocal
  }

  predicate Remote(r: Turn<CaptureDecision>) {
    r.result.Ok? && r.result.value.DecidedRemote?
  }

  /** The prepared decision's own outcome, if it is final. */
  ghost predicate Suppresses(r: Turn<CaptureDecision>) {
    r.result.Ok? && !r.result.value.DecidedRemote? && r.result.value.outcome.disposition == SuppressLocal
  }

  lemma {:induction false} PreparedRemotely(s: Core, e: Event, endpoint: Endpoint, touch: Option<Touch>,
                                            previous: Option<Latch>, now: U64)
    ensures var r := PrepareRemote(s, e, endpoint, touch, previous, now);
            && (Suppresses(r) ==> previous.Some? && previous.value.ToRemote?)
            && (Remote(r) ==> r.core.decision.Some? && r.core.decision.value.previous == previous
                              && r.core.decision.value.id == r.result.value.effect.id)
  {
    hide FailClosed;
  }

  lemma {:induction false} DecidedAway(p: Core, e: Event, touch: Option<Touch>, previous: Option<Latch>, now: U64)
    ensures var r := Decide(p, e, touch, previous, now);
            && (Suppresses(r) ==>
                 (previous.Some? && previous.value != ToLocal)
                   || (p.handoff && RouteFor(p.table, e.device) == FollowActiveHost))
            && (Remote(r) ==> r.core.decision.Some? && r.core.decision.value.previous == previous
                              && r.core.decision.value.id == r.result.value.effect.id)
            && (Remote(r) ==> !p.drain && RoutingActive(p, now))
  {
    hide FailClosed, ActivateFailsafe, FailsafeMatches, AnyFailsafeKey, PrepareRemote, RouteFor, Destination,
         DeviceGated, RoutingActive;
    if previous.Some? && previous.value.ToRemote? {
      PreparedRemotely(p, e, previous.value.endpoint, touch, previous, now);
    } else if previous.None? && Destination(p, e.device).Some? {
      var endpoint := TargetEndpoint(p, Destination(p, e.device).value, RouteFor(p.table, e.device), now);
      if endpoint.Some? { PreparedRemotely(p, e, endpoint.value, touch, None, now); }
    }
  }

  lemma {:induction false} CapturedAway(s: Core, e: Event, now: U64)
    requires s.decision.None?
    ensures var r := PrepareCaptured(s, e, now);
            && (Suppresses(r) ==>
                 AlreadyAway(s.ledger, e) || (s.handoff && RouteFor(s.table, e.device) == FollowActiveHost))
            && (Remote(r) ==> !s.drain && RoutingActive(s, now) && r.core.decision.Some?
                              && r.core.decision.value.id == r.result.value.effect.id
                              && (var before := r.core.decision.value.previous;
                                  before.Some? && before.value.ToRemote? ==> AlreadyAway(s.ledger, e)))
  {
    hide Decide, TouchOf, HasPhysicalRoom, FailClosed, RouteFor, Eligible;
    var touch := TouchOf(e.payload);
    if touch.None? {
      DecidedAway(s, e, touch, None, now);
    } else {
      var slot := Slot(e.device, touch.value.control);
      var p := s.(ledger := Register(s.ledger, slot, touch.value.transition));
      DecidedAway(p, e, touch, LatchAt(s.ledger, slot), now);
      assert RoutingActive(p, now) == RoutingActive(s, now);
    }
  }

  lemma {:induction false} ConfirmOutcome(s: Core, effect: InputEffect, sequence: U64, now: U64)
    ensures var r := ConfirmRemote(s, effect, sequence, now).result; r.Ok? ==> r.value == QUEUED
  {
    hide FailClosed, Enter, TakeDecision;
  }

  lemma {:induction false} FailOutcome(s: Core, effect: InputEffect, now: U64)
    requires s.decision.Some? && s.decision.value.id == effect.id
    ensures var r := FailRemote(s, effect, now);
            var away := s.decision.value.previous.Some? && s.decision.value.previous.value.ToRemote?;
            && r.result == Ok(if away then SUPPRESSED_GATED else LOCAL_GATED)
            && !r.core.ready && Local(r.core)
  {
    hide Queue, RoutingActive;
  }

  /** An event is kept from acting locally only if it went into a peer's queue, or its lifecycle had already left,
      or a handoff is moving everything its device follows. */
  lemma {:induction false} FailOpen(s: Core, e: Event, accepted: Option<U64>, now: U64)
    requires s.decision.None?
    ensures DispositionOf(Capture(s, e, accepted, now).result) == SuppressLocal ==>
              || (accepted.Some? && Remote(PrepareCaptured(s, e, now)))
              || AlreadyAway(s.ledger, e)
              || (s.handoff && RouteFor(s.table, e.device) == FollowActiveHost)
  {
    hide PrepareCaptured, ConfirmRemote, FailRemote, AlreadyAway, RouteFor, RoutingActive;
    CapturedAway(s, e, now);
    var p := PrepareCaptured(s, e, now);
    if Remote(p) && accepted.None? { FailOutcome(p.core, p.result.value.effect, now); }
  }

  /** A new press or a plain movement whose event cannot be queued acts locally, and routing is shut. */
  lemma {:induction false} FailedSendIsLocal(s: Core, e: Event, now: U64)
    requires s.decision.None? && Remote(PrepareCaptured(s, e, now)) && !AlreadyAway(s.ledger, e)
    ensures var r := Capture(s, e, None, now);
            DispositionOf(r.result) == AllowLocal && !r.core.ready && Local(r.core)
              && forall later :: !RoutingActive(r.core, later)
  {
    hide PrepareCaptured, FailRemote, AlreadyAway, RouteFor;
    CapturedAway(s, e, now);
    var p := PrepareCaptured(s, e, now);
    FailOutcome(p.core, p.result.value.effect, now);
  }

  /** No event acts in two places: whatever was queued for a peer is kept from acting locally. */
  lemma {:induction false} NeverBoth(s: Core, e: Event, sequence: U64, now: U64)
    requires s.decision.None? && Coherent(s.ledger) && Remote(PrepareCaptured(s, e, now))
    ensures DispositionOf(Capture(s, e, Some(sequence), now).result) == SuppressLocal
  {
    hide PrepareCaptured, ConfirmRemote, Coherent;
    ConfirmNeverFails(s, e, sequence, now);
    var p := PrepareCaptured(s, e, now);
    ConfirmOutcome(p.core, p.result.value.effect, sequence, now);
  }

  // ---------------------------------------------------------------- the escape shortcut

  /** The event would press one control more than the physical table can hold. */
  predicate Overfills(l: Ledger, e: Event) {
    var touch := TouchOf(e.payload);
    Is(touch, Press) && Slot(e.device, touch.value.control) !in l.latches && !HasPhysicalRoom(l.latches, e.device)
  }

  /** The end of a suspension that begins at `now`, in nanoseconds, or the end of time. */
  function Until(seconds: nat, now: U64): U64 {
    if now + seconds * 1_000_000_000 < 0x1_0000_0000_0000_0000 then now + seconds * 1_000_000_000
    else 0xFFFF_FFFF_FFFF_FFFF
  }

  /** However its keys are spread over devices, completing the shortcut returns control to this host at once, even
      when the releases it owes cannot be queued. A key too many for the physical table does the same and shuts
      routing until it is made ready again, but starts no suspension. */
  lemma {:induction false} ShortcutEscapes(s: Core, e: Event, accepted: Option<U64>, now: U64)
    requires s.decision.None? && Own(s, e) && !s.drain && Completed(s.config, DownAfter(s.ledger.latches.Keys, e))
    ensures var r := Capture(s, e, accepted, now);
            && Local(r.core) && !r.core.handoff && !RoutingActive(r.core, now) && DispositionOf(r.result) == AllowLocal
            && if Overfills(s.ledger, e) then
                 && r.result == Err(CapacityExceeded) && !r.core.ready
                 && !r.core.drain && r.core.suspendedUntil == s.suspendedUntil
               else
                 r.result == Ok(ESCAPED) && r.core.drain && r.core.suspendedUntil == Until(s.config.suspendSeconds, now)
  {
    NotedKeys(s.ledger, e);
    ShortcutRead(s.(ledger := Noted(s.ledger, e)));
    hide Completed, DownAfter, Noted, Overfills, FailsafeMatches, RoutingActive, Capture;
    if Overfills(s.ledger, e) {
      OverfullCloses(s, e, accepted, now);
    } else {
      EscapeActivates(s, e, accepted, now);
    }
  }

  /** A press too many for the physical table is refused at any time, takes control back and shuts routing. */
  lemma {:induction false} OverfullCloses(s: Core, e: Event, accepted: Option<U64>, now: U64)
    requires s.decision.None? && Own(s, e) && Overfills(s.ledger, e)
    ensures var r := Capture(s, e, accepted, now);
            && r.result == Err(CapacityExceeded) && Local(r.core) && !r.core.handoff && !r.core.ready
            && r.core.drain == s.drain && r.core.suspendedUntil == s.suspendedUntil && !RoutingActive(r.core, now)
  {
    hide TouchOf, HasPhysicalRoom, Queue, Decide, ConfirmRemote, FailRemote;
  }

  lemma {:induction false} EscapeActivates(s: Core, e: Event, accepted: Option<U64>, now: U64)
    requires s.decision.None? && Eligible(s, e) && !s.drain && !Overfills(s.ledger, e)
    requires FailsafeMatches(s.(ledger := Noted(s.ledger, e)))
    ensures var r := Capture(s, e, accepted, now);
            && r.result == Ok(ESCAPED)
            && r.core.drain && Local(r.core) && !r.core.handoff && r.core.suspendedUntil == SuspensionEnd(s.config, now)
            && !RoutingActive(r.core, now)
  {
    var p := s.(ledger := Noted(s.ledger, e));
    var touch := TouchOf(e.payload);
    var previous := if touch.None? then None else LatchAt(s.ledger, Slot(e.device, touch.value.control));
    assert PrepareCaptured(s, e, now) == Decide(p, e, touch, previous, now) by {
      hide Decide, HasPhysicalRoom, FailClosed, TouchOf, FailsafeMatches;
    }
    hide TouchOf, PrepareCaptured, HasPhysicalRoom, FailsafeMatches, Noted, Queue, SuspensionEnd, ConfirmRemote,
         FailRemote, Continue, Begin;
  }

  /** How a capture may touch the escape state. */
  ghost predicate Escapes(s: Core, now: U64, t: Core) {
    && (t.suspendedUntil == s.suspendedUntil || t.suspendedUntil == SuspensionEnd(s.config, now))
    && (s.drain && !t.drain ==> !AnyFailsafeKey(t))
  }

  lemma {:induction false} ClosedEscapes(s: Core, now: U64)
    ensures var t := FailClosed(s, now).core; t.suspendedUntil == s.suspendedUntil && t.drain == s.drain
  {
    hide Queue, RoutingActive;
  }

  lemma {:induction false} TakenEscapes(s: Core, id: U64, now: U64)
    ensures var t := TakeDecision(s, id, now).core; t.suspendedUntil == s.suspendedUntil && t.drain == s.drain
  {
    hide RoutingActive;
  }

  lemma {:induction false} ConfirmEscapes(s: Core, effect: InputEffect, sequence: U64, now: U64)
    ensures var t := ConfirmRemote(s, effect, sequence, now).core;
            t.suspendedUntil == s.suspendedUntil && t.drain == s.drain
  {
    hide TakeDecision, FailClosed, RoutingActive, Enter, RouteOf;
    TakenEscapes(s, effect.id, now);
    ClosedEscapes(TakeDecision(s, effect.id, now).core, now);
  }

  lemma {:induction false} FailEscapes(s: Core, effect: InputEffect, now: U64)
    ensures var t := FailRemote(s, effect, now).core; t.suspendedUntil == s.suspendedUntil && t.drain == s.drain
  {
    hide TakeDecision, Queue, RoutingActive;
    TakenEscapes(s, effect.id, now);
  }

  lemma {:induction false} DecideEscapes(p: Core, e: Event, touch: Option<Touch>, previous: Option<Latch>, now: U64)
    ensures var t := Decide(p, e, touch, previous, now).core;
            && (t.suspendedUntil == p.suspendedUntil || t.suspendedUntil == SuspensionEnd(p.config, now))
            && (p.drain && !t.drain ==> !AnyFailsafeKey(t))
  {
    hide FailClosed, FailsafeMatches, RouteFor, Destination, DeviceGated, RoutingActive, SuspensionEnd, Queue,
         EndpointAvailable, TargetEndpoint;
    ClosedEscapes(p, now);
  }

  lemma {:induction false} CaptureEscapes(s: Core, e: Event, accepted: Option<U64>, now: U64)
    requires s.decision.None?
    ensures Escapes(s, now, Capture(s, e, accepted, now).core)
  {
    PrepareEscapes(s, e, now);
    CapturedAway(s, e, now);
    hide PrepareCaptured, ConfirmRemote, FailRemote, AnyFailsafeKey, SuspensionEnd, RoutingActive;
    var p := PrepareCaptured(s, e, now);
    if Remote(p) {
      if accepted.Some? {
        ConfirmEscapes(p.core, p.result.value.effect, accepted.value, now);
      } else {
        FailEscapes(p.core, p.result.value.effect, now);
      }
    }
  }

  lemma {:induction false} PrepareEscapes(s: Core, e: Event, now: U64)
    ensures Escapes(s, now, PrepareCaptured(s, e, now).core)
  {
    hide Decide, TouchOf, HasPhysicalRoom, FailClosed, Eligible, SuspensionEnd, AnyFailsafeKey;
    ClosedEscapes(s, now);
    var touch := TouchOf(e.payload);
    if touch.None? {
      DecideEscapes(s, e, touch, None, now);
    } else {
      var slot := Slot(e.device, touch.value.control);
      DecideEscapes(s.(ledger := Register(s.ledger, slot, touch.value.transition)), e, touch, LatchAt(s.ledger, slot),
                    now);
    }
  }

  /** Nothing in a run changes what the shortcut is or how long it suspends. */
  ghost predicate SameShortcut(s: Core, t: Core) {
    t.config.shortcut == s.config.shortcut && t.config.suspendSeconds == s.config.suspendSeconds
  }

  /** Since `s`, at some moment of the run, no key of the shortcut was down. */
  ghost predicate LetGo(s: Core, steps: seq<Step>) {
    exists i :: 0 <= i <= |steps|
      && !Clinging(Execute(s, steps[..i]).config, Execute(s, steps[..i]).ledger.latches.Keys)
  }

  lemma {:induction false} LetGoLater(s: Core, steps: seq<Step>, n: nat)
    requires n <= |steps| && LetGo(s, steps[..n])
    ensures LetGo(s, steps)
  {
    hide Execute, Clinging;
    var i :| 0 <= i <= n && var u := Execute(s, steps[..n][..i]); !Clinging(u.config, u.ledger.latches.Keys);
    assert steps[..n][..i] == steps[..i];
  }

  lemma {:induction false} LetGoNow(s: Core, steps: seq<Step>, n: nat)
    requires n <= |steps| && !AnyFailsafeKey(Execute(s, steps[..n]))
    ensures LetGo(s, steps)
  {
    hide AnyFailsafeKey, Clinging, Execute;
    ShortcutRead(Execute(s, steps[..n]));
  }

  lemma {:induction false} LaterEnds(c: Config, d: Config, a: U64, b: U64)
    requires a <= b && c.suspendSeconds == d.suspendSeconds
    ensures SuspensionEnd(c, a) <= SuspensionEnd(d, b)
  {
  }

  lemma {:induction false} StaysSuspended(s: Core, began: U64, steps: seq<Step>)
    requires s.decision.None? && s.drain && s.suspendedUntil == SuspensionEnd(s.config, began)
    requires forall i | 0 <= i < |steps| :: began <= steps[i].now
    requires forall i | 0 <= i <= |steps| :: SameShortcut(s, Execute(s, steps[..i]))
    ensures var u := Execute(s, steps); s.suspendedUntil <= u.suspendedUntil && (u.drain || LetGo(s, steps))
    decreases |steps|
  {
    hide Apply, SuspensionEnd, AnyFailsafeKey, LetGo;
    if steps != [] {
      var n := |steps| - 1;
      var u := Execute(s, steps[..n]);
      forall i | 0 <= i <= n ensures SameShortcut(s, Execute(s, steps[..n][..i])) {
        assert steps[..n][..i] == steps[..i];
      }
      StaysSuspended(s, began, steps[..n]);
      RunSettled(s, steps[..n]);
      assert SameShortcut(s, u);
      LaterEnds(s.config, u.config, began, steps[n].now);
      if LetGo(s, steps[..n]) { LetGoLater(s, steps, n); }
      StepEscapes(u, steps[n].op, steps[n].now);
      assert steps[..|steps|] == steps;
      if !AnyFailsafeKey(u) { LetGoNow(s, steps, n); }
      if !AnyFailsafeKey(Execute(s, steps)) { LetGoNow(s, steps, |steps|); }
    }
  }

  lemma {:induction false} StepEscapes(s: Core, op: Op, now: U64)
    requires s.decision.None?
    ensures var t := Apply(s, op, now);
            && (t.suspendedUntil == s.suspendedUntil || t.suspendedUntil == SuspensionEnd(s.config, now))
            && (s.drain && !t.drain ==> !AnyFailsafeKey(s) || !AnyFailsafeKey(t))
  {
    hide Apply, SuspensionEnd, AnyFailsafeKey, Capture;
    if op.Captured? {
      ApplyCapture(s, op, now);
      CaptureEscapes(s, op.event, op.accepted, now);
    } else {
      OpSteers(s, op, now);
    }
  }

  /** After an escape, no event leaves this host until every key of the shortcut has been let go and the suspension
      is over, whatever happens in between. */
  lemma {:induction false} FailsafeDominates(s: Core, began: U64, steps: seq<Step>, e: Event, now: U64)
    requires s.decision.None? && s.drain && s.suspendedUntil == SuspensionEnd(s.config, began)
    requires forall i | 0 <= i < |steps| :: began <= steps[i].now
    requires forall i | 0 <= i <= |steps| :: SameShortcut(s, Execute(s, steps[..i]))
    requires Remote(PrepareCaptured(Execute(s, steps), e, now))
    ensures LetGo(s, steps) && Until(s.config.suspendSeconds, began) <= now
  {
    assert Until(s.config.suspendSeconds, began) == SuspensionEnd(s.config, began);
    hide Apply, Execute, PrepareCaptured, SuspensionEnd, AnyFailsafeKey, LetGo;
    StaysSuspended(s, began, steps);
    RunSettled(s, steps);
    CapturedAway(Execute(s, steps), e, now);
  }
}
