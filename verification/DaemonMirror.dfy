/** Capture callbacks always see the core's state as it really is. */
module DaemonMirror {
  import opened Base
  import opened Ledger
  import opened Daemon
  import opened DaemonRuns
  import opened DaemonLedger
  import opened DaemonControl
  import opened DaemonFailsafe
  import H = Handoff

  lemma {:induction false} ClosedMirrors(s: Core, now: U64)
    ensures Mirrors(FailClosed(s, now).core, now)
  {
    hide Queue, RoutingActive, Mirrors, Publish;
  }

  lemma {:induction false} TakenMirrors(s: Core, id: U64, now: U64)
    ensures TakeDecision(s, id, now).result.Err? ==> Mirrors(TakeDecision(s, id, now).core, now)
  {
    hide RoutingActive, Mirrors, Publish;
  }

  lemma {:induction false} ConfirmMirrors(s: Core, effect: InputEffect, sequence: U64, now: U64)
    ensures Mirrors(ConfirmRemote(s, effect, sequence, now).core, now)
  {
    hide TakeDecision, FailClosed, Enter, RouteOf, Mirrors, Publish;
    TakenMirrors(s, effect.id, now);
    ClosedMirrors(TakeDecision(s, effect.id, now).core, now);
  }

  lemma {:induction false} FailMirrors(s: Core, effect: InputEffect, now: U64)
    ensures Mirrors(FailRemote(s, effect, now).core, now)
  {
    hide TakeDecision, FailClosed, Mirrors, Publish;
    TakenMirrors(s, effect.id, now);
    var taken := TakeDecision(s, effect.id, now);
    if taken.result.Ok? {
      var d := taken.result.value;
      var l := taken.core.ledger;
      ClosedMirrors(taken.core, now);
      if Is(d.touch, Press) && d.previous.None? && Slot(d.device, d.touch.value.control) in l.latches {
        ClosedMirrors(taken.core.(ledger := l.(latches := l.latches[Slot(d.device, d.touch.value.control) := ToLocal])),
                      now);
      }
    }
  }

  lemma {:induction false} SameFaceMirrors(s: Core, t: Core, latches: map<Slot, Latch>, at: U64)
    requires Mirrors(s, at) && t == s.(ledger := s.ledger.(latches := latches))
    ensures Mirrors(t, at)
  {
  }

  lemma {:induction false} ContinueMirrors(p: Core, e: Event, touch: Option<Touch>, latch: Latch, at: U64, now: U64)
    requires Mirrors(p, at)
    ensures var r := Continue(p, e, touch, latch, now); Remote(r) || Mirrors(r.core, at) || Mirrors(r.core, now)
  {
    hide FailClosed, EndpointAvailable, Mirrors;
    ClosedMirrors(p, now);
  }

  lemma {:induction false} BeginMirrors(p: Core, e: Event, touch: Option<Touch>, at: U64, now: U64)
    requires Mirrors(p, at)
    ensures var r := Begin(p, e, touch, now); Remote(r) || Mirrors(r.core, at) || Mirrors(r.core, now)
  {
    hide FailClosed, TargetEndpoint, Destination, RouteFor, DeviceGated, Mirrors;
    ClosedMirrors(p, now);
    if Is(touch, Press) && Slot(e.device, touch.value.control) in p.ledger.latches {
      var latches := p.ledger.latches[Slot(e.device, touch.value.control) := Quarantined];
      SameFaceMirrors(p, p.(ledger := p.ledger.(latches := latches)), latches, at);
    }
  }

  lemma {:induction false} DecideMirrors(p: Core, e: Event, touch: Option<Touch>, previous: Option<Latch>, at: U64,
                                         now: U64)
    requires Mirrors(p, at)
    ensures var r := Decide(p, e, touch, previous, now); Remote(r) || Mirrors(r.core, at) || Mirrors(r.core, now)
  {
    hide Continue, Begin, FailsafeMatches, AnyFailsafeKey, Mirrors, Publish, Queue, SuspensionEnd;
    if previous.Some? { ContinueMirrors(p, e, touch, previous.value, at, now); }
    BeginMirrors(p, e, touch, at, now);
  }

  lemma {:induction false} CaptureMirrors(s: Core, e: Event, accepted: Option<U64>, at: U64, now: U64)
    requires Mirrors(s, at)
    ensures var t := Capture(s, e, accepted, now).core; Mirrors(t, at) || Mirrors(t, now)
  {
    hide Decide, ConfirmRemote, FailRemote, Mirrors, HasPhysicalRoom, Eligible, TouchOf, FailClosed;
    var r := PrepareCaptured(s, e, now);
    var touch := TouchOf(e.payload);
    ClosedMirrors(s, now);
    DecideMirrors(s, e, touch, None, at, now);
    if touch.Some? {
      var slot := Slot(e.device, touch.value.control);
      var p := s.(ledger := Register(s.ledger, slot, touch.value.transition));
      SameFaceMirrors(s, p, p.ledger.latches, at);
      DecideMirrors(p, e, touch, LatchAt(s.ledger, slot), at, now);
    }
    if Remote(r) {
      if accepted.Some? {
        ConfirmMirrors(r.core, r.result.value.effect, accepted.value, now);
      } else {
        FailMirrors(r.core, r.result.value.effect, now);
      }
    }
  }

  lemma {:induction false} StepMirrors(s: Core, op: Op, at: U64, now: U64)
    requires s.decision.None? && Mirrors(s, at)
    ensures Mirrors(Apply(s, op, now), at) || Mirrors(Apply(s, op, now), now)
  {
    hide Apply, Capture, AnyFailsafeKey, SuspensionEnd;
    if op.Captured? {
      ApplyCapture(s, op, now);
      CaptureMirrors(s, op.event, op.accepted, at, now);
    } else {
      OpSteers(s, op, now);
    }
  }

  /** At every moment of every run the published snapshot is the core's own state, with routing judged at the
      time of some earlier step. */
  lemma {:induction false} SnapshotIsState(config: Config, v: H.View, s: Core, steps: seq<Step>) returns (at: U64)
    requires Start(config, v) == Some(s)
    ensures Mirrors(Execute(s, steps), at)
    ensures at == 0 || exists i :: 0 <= i < |steps| && at == steps[i].now
  {
    hide Apply, Mirrors, Start;
    if steps == [] {
      at := 0;
      StartMirrors(config, v, s);
    } else {
      var n := |steps| - 1;
      at := SnapshotIsState(config, v, s, steps[..n]);
      StartsEmpty(config, v, s);
      RunSettled(s, steps[..n]);
      StepMirrors(Execute(s, steps[..n]), steps[n].op, at, steps[n].now);
      if !Mirrors(Execute(s, steps), at) {
        at := steps[n].now;
      } else if at != 0 {
        var i :| 0 <= i < n && at == steps[..n][i].now;
        assert at == steps[i].now;
      }
    }
  }

  lemma {:induction false} StartMirrors(config: Config, v: H.View, s: Core)
    requires Start(config, v) == Some(s)
    ensures Mirrors(s, 0)
  {
    hide ValidConfig, Compile, PeersFor;
  }
}
