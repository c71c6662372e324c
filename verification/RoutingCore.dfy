/**
 The daemon core as it runs: fields updated in place, early returns, a loop that pushes release
 obligations. Every method is tied to the value-level operation of the same name.
 */
module RoutingCore {
  import opened Base
  import opened Ledger
  import opened Physical
  import opened LedgerLemmas
  import D = Daemon
  import H = Handoff

  datatype PolicyResult<+T> = Granted(value: T) | Denied(error: D.PolicyError)

  /** The state an operation on the route policy leaves, and what it reports. */
  function AsPolicy<T>(t: D.PolicyTurn<T>): (D.Core, PolicyResult<T>) {
    match t
    case PolicyDone(core, value) => (core, Granted(value))
    case PolicyFailed(core, error) => (core, Denied(error))
  }

  class DaemonCore {
    var config: D.Config
    var view: H.View
    var table: D.Table
    var peers: map<HostId, D.PeerState>
    var endpoints: map<HostId, D.Availability>
    var lifecycle: D.Lifecycle
    var suspendedUntil: U64
    var drain: bool
    var physical: Nested
    var physicalCount: nat
    var held: map<HeldKey, Held>
    var cleanup: seq<Entry>
    var inFlight: Option<U64>
    var decision: Option<D.Decision>
    var candidate: Option<D.Candidate>
    var revision: U64
    var gated: set<DeviceId>
    var nextId: U64
    var ready: bool
    var handoff: bool
    var published: D.Snapshot

    /** The ledger part of the fields as one value. */
    function Books(): Ledger
      reads this`physical, this`held, this`cleanup, this`inFlight, this`nextId
    {
      Ledger(Flat(physical), held, cleanup, inFlight, nextId)
    }

    /** The fields as one value; the read-only checks are functions of it. */
    function State(): D.Core
      reads this
    {
      D.Core(config, view, table, peers, endpoints, lifecycle, suspendedUntil, drain, Books(), decision, candidate,
             revision, gated, ready, handoff, published)
    }

    /** The per-device maps hold no empty device, and the running count is their size. */
    ghost predicate Valid()
      reads this`physical, this`physicalCount
    {
      Trim(physical) && physicalCount == |Flat(physical)|
    }

    constructor (c: D.Config, v: H.View)
      requires D.Start(c, v).Some?
      ensures Valid() && D.Start(c, v) == Some(State())
    {
      config, view, table := c, v, D.Compile(c.routes).value;
      peers, endpoints := D.PeersFor(c, map[]), map[];
      lifecycle, suspendedUntil, drain := D.Running(true), 0, false;
      physical, physicalCount := map[], 0;
      held, cleanup, inFlight, decision, candidate := map[], [], None, None, None;
      revision, gated, nextId, ready, handoff := c.revision, {}, 1, false, false;
      published := D.Snapshot(v, D.Compile(c.routes).value, D.PeersFor(c, map[]), false, false, false);
    }

    // -------------------------------------------------------------- publication and cleanup ownership

    method Publish(now: U64)
      modifies this`published
      ensures State() == D.Publish(old(State()), now)
    {
      published := D.Snapshot(view, table, peers, D.RoutingActive(State(), now), ready, handoff);
    }

    /** Cuts off the lifecycle of a control whose release has just been queued. */
    method CutOff(key: HeldKey)
      requires Valid()
      modifies this`physical
      ensures Valid() && Flat(physical) == Quarantine(old(Flat(physical)), {key})
    {
      hide Flat, Trim, Quarantine;
      CutsOff(physical, key);
      if key.device in physical && key.control in physical[key.device] {
        var latch := physical[key.device][key.control];
        if latch.ToRemote? && latch.endpoint == key.endpoint {
          physical := physical[key.device := physical[key.device][key.control := Quarantined]];
        }
      }
    }

    method QueueRemoteCleanup(picked: set<HeldKey>) returns (error: Option<Error>)
      requires Valid()
      modifies this`physical, this`cleanup, this`nextId
      ensures Valid() && Queue(old(Books()), picked) == Queued(Books(), error)
      ensures State() == old(State()).(ledger := Queue(old(Books()), picked).ledger)
    {
      hide Flat, Trim, Quarantine, Ordered, Unowed, Obligations, Upto;
      var unowed := Unowed(Books(), picked);
      var candidates := Ordered(unowed);
      Orders(Books(), picked);
      if |cleanup| + |candidates| > MAX_CLEANUP {
        return Some(CapacityExceeded);
      }
      if nextId + |candidates| > U64_MAX {
        return Some(IdentifiersExhausted);
      }
      ghost var before := Books();
      ghost var owed := Obligations(held, candidates, nextId);
      var i := 0;
      QuarantineNone(before.latches, candidates);
      while i < |candidates|
        invariant 0 <= i <= |candidates| && Valid()
        invariant nextId == before.nextId + i
        invariant cleanup == before.cleanup + owed[..i]
        invariant Flat(physical) == Quarantine(before.latches, Upto(candidates, i))
      {
        var key := candidates[i];
        ObligationsNext(held, candidates, before.nextId, i);
        cleanup := cleanup + [Entry(nextId, key, held[key].sequence)];
        nextId := nextId + 1;
        CutOff(key);
        QuarantineMore(before.latches, candidates, i);
        i := i + 1;
      }
      QuarantineAll(before.latches, candidates, unowed);
      assert owed[..i] == owed;
      return None;
    }

    /** Routing is shut and control comes back to this host. */
    method Surrender()
      modifies this`ready, this`view, this`handoff
      ensures State() == D.GoLocal(old(State())).(ready := false, handoff := false)
    {
      hide Flat;
      ready := false;
      view := view.(activeHost := view.localHost);
      handoff := false;
    }

    /** Control comes back to this host and every held control is owed its release. */
    method Withdraw() returns (error: Option<Error>)
      requires Valid()
      modifies this`view, this`handoff, this`physical, this`cleanup, this`nextId
      ensures Valid() && State() == Withdrawn(old(State())) && error == Queue(old(Books()), old(held).Keys).error
    {
      hide Queue, Flat, Trim;
      view := view.(activeHost := view.localHost);
      handoff := false;
      assert Books() == old(Books());
      error := QueueRemoteCleanup(held.Keys);
    }

    method FailClosed(now: U64) returns (r: D.Result<()>)
      requires Valid()
      modifies this
      ensures Valid() && D.FailClosed(old(State()), now) == D.Turn(State(), r)
    {
      hide Queue, Flat, Trim, D.Publish, D.FailClosed;
      ClosedOff(State(), now);
      ready := false;
      var error := Withdraw();
      Publish(now);
      return D.AsResult(error);
    }

    method ActivateFailsafe(now: U64) returns (r: D.Result<()>)
      requires Valid()
      modifies this
      ensures Valid() && D.ActivateFailsafe(old(State()), now) == D.Turn(State(), r)
    {
      hide Queue, Flat, Trim, D.Publish, D.SuspensionEnd, D.ActivateFailsafe;
      Escaped(State(), now);
      suspendedUntil := D.SuspensionEnd(config, now);
      var error := Withdraw();
      if error.Some? {
        ready := false;
      }
      Publish(now);
      return D.AsResult(error);
    }

    // -------------------------------------------------------------- captured input

    method NotePress(device: DeviceId, control: Control)
      requires Valid() && Slot(device, control) !in Flat(physical)
      modifies this`physical, this`physicalCount
      ensures Valid() && Books() == D.Register(old(Books()), Slot(device, control), D.Press)
    {
      hide Trim, Flat;
      Inserts(physical, Slot(device, control));
      var controls := if device in physical then physical[device] else map[];
      physical := physical[device := controls[control := ToLocal]];
      physicalCount := physicalCount + 1;
    }

    method NoteRelease(device: DeviceId, control: Control)
      requires Valid()
      modifies this`physical, this`physicalCount
      ensures Valid() && Books() == D.Register(old(Books()), Slot(device, control), D.Release)
    {
      hide Trim, Flat;
      Removes(physical, Slot(device, control));
      if device in physical && control in physical[device] {
        physicalCount := physicalCount - 1;
        var rest := physical[device] - {control};
        physical := physical[device := rest];
        if rest == map[] {
          physical := physical - {device};
        }
      }
    }

    method PrepareCaptured(e: D.Event, now: U64) returns (r: D.Result<D.CaptureDecision>)
      requires Valid()
      modifies this
      ensures Valid() && D.PrepareCaptured(old(State()), e, now) == D.Turn(State(), r)
    {
      hide Queue, Flat, Trim, D.RoutingActive, D.Mirrors, D.HasPhysicalRoom, D.Decide, D.TouchOf, D.FailClosed;
      if decision.Some? {
        return D.Err(Unavailable);
      }
      if !D.Eligible(State(), e) {
        return D.Ok(D.DecidedLocal(D.LOCAL));
      }
      var touch := D.TouchOf(e.payload);
      var previous: Option<Latch> := None;
      if touch.Some? {
        var control := touch.value.control;
        FlatAt(physical, Slot(e.device, control));
        if e.device in physical && control in physical[e.device] {
          previous := Some(physical[e.device][control]);
        }
        if touch.value.transition == D.Press && previous.None? {
          var room := EnsurePhysicalCapacity(e.device);
          if !room {
            var _ := FailClosed(now);
            return D.Err(CapacityExceeded);
          }
          NotePress(e.device, control);
        } else if touch.value.transition == D.Release {
          NoteRelease(e.device, control);
        }
      }
      r := Decide(e, touch, previous, now);
    }

    method EnsurePhysicalCapacity(device: DeviceId) returns (room: bool)
      requires Valid()
      ensures room == D.HasPhysicalRoom(Flat(physical), device)
    {
      hide Flat;
      Counts(physical, device);
      DeviceCount(Flat(physical), physical.Keys);
      room := && (device in physical || |physical| < D.MAX_PHYSICAL_DEVICES)
              && (device !in physical || |physical[device]| < D.MAX_PHYSICAL_PER_DEVICE)
              && physicalCount < D.MAX_PHYSICAL_TOTAL;
    }

    method Decide(e: D.Event, touch: Option<D.Touch>, previous: Option<Latch>, now: U64)
      returns (r: D.Result<D.CaptureDecision>)
      requires Valid()
      modifies this
      ensures Valid() && D.Decide(old(State()), e, touch, previous, now) == D.Turn(State(), r)
    {
      hide Queue, Flat, Trim, D.RoutingActive, D.Mirrors, D.ActivateFailsafe, D.FailsafeMatches, D.AnyFailsafeKey,
           D.Continue, D.Begin;
      if D.FailsafeMatches(State()) && !drain {
        drain := true;
        var f := ActivateFailsafe(now);
        return D.Ok(if f.Ok? then D.DecidedLocal(D.ESCAPED) else D.DecidedFault(D.ESCAPED, f.error));
      }
      if drain {
        if !D.AnyFailsafeKey(State()) {
          drain := false;
        }
        Publish(now);
        return D.Ok(D.DecidedLocal(D.LOCAL_GATED));
      }
      if previous.Some? {
        r := Continue(e, touch, previous.value, now);
        return;
      }
      if D.Is(touch, D.Repeat) || D.Is(touch, D.Release) {
        return D.Ok(D.DecidedLocal(D.LOCAL));
      }
      r := Begin(e, touch, now);
    }

    method Continue(e: D.Event, touch: Option<D.Touch>, latch: Latch, now: U64) returns (r: D.Result<D.CaptureDecision>)
      requires Valid()
      modifies this
      ensures Valid() && D.Continue(old(State()), e, touch, latch, now) == D.Turn(State(), r)
    {
      hide Flat, Trim, D.EndpointAvailable, D.FailClosed, D.PrepareRemote;
      match latch {
        case ToLocal => return D.Ok(D.DecidedLocal(D.LOCAL));
        case Quarantined => return D.Ok(D.DecidedInert(D.INERT));
        case ToRemote(endpoint, route) =>
          if !D.EndpointAvailable(State(), endpoint, route, now) {
            var f := FailClosed(now);
            return D.Ok(if f.Ok? then D.DecidedInert(D.SUPPRESSED_GATED)
                        else D.DecidedFault(D.SUPPRESSED_GATED, f.error));
          }
          r := PrepareRemote(e, endpoint, touch, Some(latch), now);
      }
    }

    method Begin(e: D.Event, touch: Option<D.Touch>, now: U64) returns (r: D.Result<D.CaptureDecision>)
      requires Valid()
      modifies this
      ensures Valid() && D.Begin(old(State()), e, touch, now) == D.Turn(State(), r)
    {
      hide Flat, Trim, D.RouteFor, D.DeviceGated, D.Destination, D.TargetEndpoint, D.PrepareRemote;
      var route := D.RouteFor(table, e.device);
      if D.DeviceGated(State(), e.device) {
        return D.Ok(D.DecidedLocal(D.LOCAL_GATED));
      }
      if handoff && route == FollowActiveHost {
        if D.Is(touch, D.Press) {
          Relatch(e.device, touch.value.control, Quarantined);
        }
        return D.Ok(D.DecidedInert(D.INERT));
      }
      var destination := D.Destination(State(), e.device);
      if destination.None? {
        return D.Ok(D.DecidedLocal(D.LOCAL));
      }
      var endpoint := D.TargetEndpoint(State(), destination.value, route, now);
      if endpoint.None? {
        return D.Ok(D.DecidedLocal(D.LOCAL_GATED));
      }
      r := PrepareRemote(e, endpoint.value, touch, None, now);
    }

    /** Rewrites the latch of a control, if it is pressed. */
    method Relatch(device: DeviceId, control: Control, latch: Latch)
      requires Valid()
      modifies this`physical
      ensures Valid()
      ensures var s := Slot(device, control);
              Flat(physical) == if s in old(Flat(physical)) then old(Flat(physical))[s := latch]
                else old(Flat(physical))
    {
      hide Flat, Trim;
      Rewrites(physical, Slot(device, control), latch);
      if device in physical && control in physical[device] {
        physical := physical[device := physical[device][control := latch]];
      }
    }

    method PrepareRemote(e: D.Event, endpoint: Endpoint, touch: Option<D.Touch>, previous: Option<Latch>, now: U64)
      returns (r: D.Result<D.CaptureDecision>)
      requires Valid()
      modifies this
      ensures Valid() && D.PrepareRemote(old(State()), e, endpoint, touch, previous, now) == D.Turn(State(), r)
    {
      hide Flat, Trim, D.FailClosed;
      if D.Is(touch, D.Press) && previous.None? && |held| >= MAX_REMOTE_HELD {
        var _ := FailClosed(now);
        return D.Err(CapacityExceeded);
      }
      if nextId == U64_MAX {
        var f := FailClosed(now);
        var outcome := if previous.Some? && previous.value.ToRemote? then D.SUPPRESSED_GATED else D.LOCAL_GATED;
        return D.Ok(D.DecidedFault(outcome, if f.Err? then f.error else IdentifiersExhausted));
      }
      var id := nextId;
      nextId := nextId + 1;
      decision := Some(D.Decision(id, e.device, touch, previous, endpoint));
      return D.Ok(D.DecidedRemote(D.InputEffect(id, endpoint, e)));
    }

    method TakeMatchingRemote(id: U64, now: U64) returns (r: D.Result<D.Decision>)
      requires Valid()
      modifies this
      ensures Valid() && D.TakeDecision(old(State()), id, now) == D.Turn(State(), r)
    {
      hide Flat, Trim, D.Publish;
      if decision.None? || decision.value.id != id {
        Surrender();
        Publish(now);
        return D.Err(StaleDecision);
      }
      r := D.Ok(decision.value);
      decision := None;
    }

    method ConfirmRemote(effect: D.InputEffect, sequence: U64, now: U64) returns (r: D.Result<D.CaptureOutcome>)
      requires Valid()
      modifies this
      ensures Valid() && D.ConfirmRemote(old(State()), effect, sequence, now) == D.Turn(State(), r)
    {
      hide Flat, Trim, D.TakeDecision, D.FailClosed, D.RoutingActive, D.Mirrors, D.Enter, D.RouteOf;
      var taken := TakeMatchingRemote(effect.id, now);
      if taken.Err? {
        return D.Err(taken.error);
      }
      var error := Enter(taken.value, sequence);
      if error.Some? {
        var f := FailClosed(now);
        return D.Err(if error.value == CapacityExceeded && f.Err? then f.error else error.value);
      }
      Publish(now);
      return D.Ok(D.QUEUED);
    }

    /** Records a decision whose event was queued. */
    method Enter(d: D.Decision, sequence: U64) returns (error: Option<Error>)
      requires Valid()
      modifies this`held, this`physical
      ensures Valid()
      ensures var l := D.Enter(old(Books()), d, D.RouteOf(old(State()), d), sequence);
              if error.Some? then Books() == old(Books()) && l == D.Err(error.value) else l == D.Ok(Books())
    {
      hide Flat, Trim, D.RouteOf;
      if d.touch.None? {
        return None;
      }
      var key := HeldKey(d.endpoint, d.device, d.touch.value.control);
      match d.touch.value.transition {
        case Press =>
          if key !in held && |held| >= MAX_REMOTE_HELD {
            return Some(CapacityExceeded);
          }
          var route := D.RouteOf(State(), d);
          held := held[key := Held(route, sequence)];
          Relatch(d.device, d.touch.value.control, ToRemote(d.endpoint, route));
        case Release =>
          held := held - {key};
        case Repeat =>
          if key !in held {
            return Some(StaleDecision);
          }
          held := held[key := held[key].(sequence := sequence)];
      }
      return None;
    }

    method FailRemote(effect: D.InputEffect, now: U64) returns (r: D.Result<D.CaptureOutcome>)
      requires Valid()
      modifies this
      ensures Valid() && D.FailRemote(old(State()), effect, now) == D.Turn(State(), r)
    {
      hide Flat, Trim, D.TakeDecision, D.FailClosed;
      var taken := TakeMatchingRemote(effect.id, now);
      if taken.Err? {
        return D.Err(taken.error);
      }
      var d := taken.value;
      if D.Is(d.touch, D.Press) && d.previous.None? {
        Relatch(d.device, d.touch.value.control, ToLocal);
      }
      var suppress := d.previous.Some? && d.previous.value.ToRemote?;
      var _ := FailClosed(now);
      return D.Ok(if suppress then D.SUPPRESSED_GATED else D.LOCAL_GATED);
    }

    /** The entry point that never dispatches: every remote decision falls back to local control. */
    method ProcessCaptured(e: D.Event, now: U64) returns (disposition: D.Disposition, failsafe: bool)
      requires Valid()
      modifies this
      ensures Valid()
      ensures var c := D.Capture(old(State()), e, None, now);
              State() == c.core && disposition == D.DispositionOf(c.result)
              && failsafe == (c.result.Ok? && c.result.value.failsafe)
    {
      hide Flat, Trim, D.PrepareCaptured, D.FailRemote;
      var outcome := D.LOCAL_GATED;
      var p := PrepareCaptured(e, now);
      if p.Ok? {
        if p.value.DecidedRemote? {
          var f := FailRemote(p.value.effect, now);
          if f.Ok? {
            outcome := f.value;
          }
        } else {
          outcome := p.value.outcome;
        }
      }
      return outcome.disposition, outcome.failsafe;
    }

    // -------------------------------------------------------------- cleanup

    method TakeNextCleanupRelease() returns (token: Option<Token>)
      requires Valid()
      modifies this`inFlight
      ensures Valid() && D.TakeCleanup(old(State())) == (State(), token)
    {
      hide Flat, Trim;
      if inFlight.Some? || cleanup == [] {
        return None;
      }
      var entry := cleanup[0];
      inFlight := Some(entry.id);
      return Some(Token(entry.id, entry.key, entry.covered));
    }

    method ConfirmCleanupRelease(t: Token, now: U64) returns (r: D.Result<()>)
      requires Valid()
      modifies this
      ensures Valid() && D.ConfirmCleanup(old(State()), t, now) == D.Turn(State(), r)
    {
      hide Flat, Trim, D.Publish;
      if inFlight != Some(t.id) || cleanup == [] || cleanup[0].id != t.id {
        ready := false;
        Publish(now);
        return D.Err(StaleCleanup);
      }
      DropFront();
      Publish(now);
      return D.Ok(());
    }

    method DropFront()
      requires cleanup != []
      modifies this`cleanup, this`inFlight, this`held
      ensures State() == old(State()).(ledger := Released(old(Books())))
    {
      hide Flat;
      var entry := cleanup[0];
      cleanup := cleanup[1..];
      inFlight := None;
      held := held - {entry.key};
    }

    method RetryCleanupRelease(t: Token, now: U64) returns (r: D.Result<()>)
      requires Valid()
      modifies this
      ensures Valid() && D.RetryCleanup(old(State()), t, now) == D.Turn(State(), r)
    {
      hide Flat, Trim, D.Publish;
      if inFlight != Some(t.id) || cleanup == [] || cleanup[0].id != t.id {
        ready := false;
        Publish(now);
        return D.Err(StaleCleanup);
      }
      inFlight := None;
      Surrender();
      Publish(now);
      return D.Ok(());
    }

    /** Drops the obligations of one endpoint, keeping the rest in order. */
    method DropObligations(e: Endpoint)
      modifies this`cleanup
      ensures cleanup == Without(old(cleanup), e)
    {
      var kept: seq<Entry> := [];
      var i := 0;
      while i < |cleanup|
        invariant 0 <= i <= |cleanup|
        invariant kept + Without(cleanup[i..], e) == Without(cleanup, e)
      {
        assert cleanup[i..][1..] == cleanup[i + 1..];
        if cleanup[i].key.endpoint != e {
          kept := kept + [cleanup[i]];
        }
        i := i + 1;
      }
      cleanup := kept;
    }

    /** Cuts off every lifecycle that runs to one endpoint. */
    method CutOffEndpoint(e: Endpoint)
      requires Valid()
      modifies this`physical
      ensures Valid() && Flat(physical) == Invalidate(old(Books()), e).latches
    {
      hide Flat, Trim;
      ghost var before := physical;
      physical := map d | d in physical ::
        map c | c in physical[d] ::
          if physical[d][c].ToRemote? && physical[d][c].endpoint == e then Quarantined else physical[d][c];
      CutsOffAll(before, physical, e);
      FlatMap(before, physical);
    }

    method LoseHost(e: Endpoint)
      modifies this`endpoints, this`peers, this`view, this`ready, this`handoff
      ensures var t := D.LoseHost(old(State()), e);
              endpoints == t.endpoints && peers == t.peers && view == t.view && ready == t.ready && handoff == t.handoff
    {
      hide Flat;
      if e.host in endpoints && endpoints[e.host].endpoint == e {
        endpoints := endpoints - {e.host};
        if e.host in peers {
          peers := peers[e.host := D.Disconnected];
        }
        if view.activeHost == e.host {
          view := view.(activeHost := view.localHost);
        }
        ready := false;
        handoff := false;
      }
    }

    /** Everything owed to or held on a lost endpoint is gone. */
    method Forsake(e: Endpoint)
      requires Valid()
      modifies this`cleanup, this`inFlight, this`held, this`physical
      ensures Valid() && Books() == Invalidate(old(Books()), e)
    {
      hide Flat, Trim, Without;
      var lent := cleanup != [] && Some(cleanup[0].id) == inFlight && cleanup[0].key.endpoint == e;
      CutOffEndpoint(e);
      DropObligations(e);
      if lent {
        inFlight := None;
      }
      held := map k | k in held && k.endpoint != e :: held[k];
    }

    method LoseReach(e: Endpoint)
      modifies this`endpoints, this`peers, this`view, this`ready, this`handoff
      ensures State() == D.LoseHost(old(State()), e)
    {
      hide Flat, D.LoseHost;
      LostFrame(State(), e);
      LoseHost(e);
    }

    method LoseObligations(e: Endpoint)
      requires Valid()
      modifies this`cleanup, this`inFlight, this`held, this`physical
      ensures Valid() && State() == old(State()).(ledger := Invalidate(old(Books()), e))
    {
      hide Flat, Trim, Invalidate;
      Forsake(e);
    }

    method ConfirmTransportInvalidated(e: Endpoint, now: U64)
      requires Valid()
      modifies this
      ensures Valid() && D.TransportInvalidated(old(State()), e, now) == State()
    {
      hide Flat, Trim, D.Publish, Invalidate, D.LoseHost;
      LostFrame(State(), e);
      LoseReach(e);
      LoseObligations(e);
      Publish(now);
    }

    // -------------------------------------------------------------- lifecycle and gates

    method Tick(now: U64) returns (changed: bool)
      requires Valid()
      modifies this
      ensures Valid() && D.Tick(old(State()), now) == (State(), changed)
    {
      hide Flat, Trim, D.Publish, D.RoutingActive, D.AnyFailsafeKey;
      if drain && !D.AnyFailsafeKey(State()) {
        drain := false;
      }
      if published.enabled == D.RoutingActive(State(), now) {
        return false;
      }
      Publish(now);
      return true;
    }

    method Enable(now: U64)
      requires Valid()
      modifies this
      ensures Valid() && D.Enable(old(State()), now) == State()
    {
      hide Flat, Trim, D.Publish;
      if lifecycle.Running? {
        lifecycle := D.Running(true);
        Publish(now);
      }
    }

    method Disable(now: U64) returns (r: D.Result<()>)
      requires Valid()
      modifies this
      ensures Valid() && D.Disable(old(State()), now) == D.Turn(State(), r)
    {
      hide Queue, Flat, Trim, D.Publish;
      if decision.Some? {
        return D.Err(Unavailable);
      }
      if lifecycle.Running? {
        lifecycle := D.Running(false);
      }
      var error := Withdraw();
      Publish(now);
      return D.AsResult(error);
    }

    method Shutdown(now: U64) returns (r: D.Result<()>)
      requires Valid()
      modifies this
      ensures Valid() && D.Shutdown(old(State()), now) == D.Turn(State(), r)
    {
      hide Queue, Flat, Trim, D.Publish;
      if decision.Some? {
        return D.Err(Unavailable);
      }
      lifecycle := D.ShuttingDown;
      var error := Withdraw();
      Publish(now);
      return D.AsResult(error);
    }

    method TriggerEmergency(now: U64) returns (r: D.Result<()>)
      requires Valid()
      modifies this
      ensures Valid() && D.Emergency(old(State()), now) == D.Turn(State(), r)
    {
      hide Flat, Trim, D.ActivateFailsafe;
      if decision.Some? {
        return D.Err(Unavailable);
      }
      drain := true;
      r := ActivateFailsafe(now);
    }

    method ClearWorkspaceRoutingReady(now: U64) returns (r: D.Result<()>)
      requires Valid()
      modifies this
      ensures Valid() && D.ClearReady(old(State()), now) == D.Turn(State(), r)
    {
      hide Flat, Trim, D.FailClosed;
      if decision.Some? {
        return D.Err(Unavailable);
      }
      r := FailClosed(now);
    }

    method MarkWorkspaceRoutingReady(now: U64) returns (r: D.Result<()>)
      requires Valid()
      modifies this
      ensures Valid() && D.MarkReady(old(State()), now) == D.Turn(State(), r)
    {
      hide Flat, Trim, D.Publish;
      if || decision.Some? || cleanup != [] || inFlight.Some? || held != map[]
         || !(exists h | h in endpoints :: endpoints[h].state == D.Connected)
         || !lifecycle.Running?
      {
        return D.Err(Unavailable);
      }
      ready := true;
      Publish(now);
      return D.Ok(());
    }

    method GateLocalDevices(devices: set<DeviceId>, now: U64) returns (r: D.Result<()>)
      requires Valid()
      modifies this
      ensures Valid() && D.GateDevices(old(State()), devices, now) == D.Turn(State(), r)
    {
      hide Queue, Flat, Trim, D.Publish, D.HeldBy;
      if decision.Some? || NIL in devices {
        return D.Err(Unavailable);
      }
      if |gated + devices| > D.MAX_GATED_DEVICES {
        return D.Err(CapacityExceeded);
      }
      gated := gated + devices;
      var error := QueueRemoteCleanup(D.HeldBy(Books(), devices));
      Publish(now);
      return D.AsResult(error);
    }

    method RestoreLocalDevice(d: DeviceId, now: U64) returns (r: D.Result<()>)
      requires Valid()
      modifies this
      ensures Valid() && D.RestoreDevice(old(State()), d, now) == D.Turn(State(), r)
    {
      hide Flat, Trim, D.Publish, D.DevicePending;
      if D.DevicePending(Books(), d) {
        return D.Err(CleanupPending);
      }
      ForgetControls(d);
      gated := gated - {d};
      Publish(now);
      return D.Ok(());
    }

    // -------------------------------------------------------------- peers and endpoints

    method SetPeerState(h: HostId, state: D.PeerState, now: U64) returns (r: D.Result<()>)
      requires Valid()
      modifies this
      ensures Valid() && D.SetPeerState(old(State()), h, state, now) == D.Turn(State(), r)
    {
      hide Flat, Trim, D.Publish;
      if decision.Some? {
        return D.Err(Unavailable);
      }
      if h !in peers {
        return D.Ok(());
      }
      if h in endpoints {
        return D.Err(Unavailable);
      }
      peers := peers[h := state];
      Publish(now);
      return D.Ok(());
    }

    method Reach(e: Endpoint, state: D.PeerState)
      modifies this`endpoints, this`peers
      ensures State()
              == old(State()).(endpoints := old(endpoints)[e.host := D.Availability(e, state)],
                               peers := old(peers)[e.host := state])
    {
      hide Flat;
      endpoints := endpoints[e.host := D.Availability(e, state)];
      peers := peers[e.host := state];
    }

    method InstallSessionEndpoint(e: Endpoint, now: U64) returns (r: D.Result<()>)
      requires Valid()
      modifies this
      ensures Valid() && D.InstallEndpoint(old(State()), e, now) == D.Turn(State(), r)
    {
      hide Flat, Trim, D.Publish, D.PairsEndpoint;
      if decision.Some? || !D.PairsEndpoint(config, e) {
        return D.Err(Unavailable);
      }
      if e.host in endpoints && endpoints[e.host].endpoint != e {
        return D.Err(Unavailable);
      }
      Reach(e, D.Connected);
      Publish(now);
      return D.Ok(());
    }

    /** Authority that rested with `h` comes back to this host; a pending handoff and readiness are over. */
    method Retreat(h: HostId)
      modifies this`view, this`handoff, this`ready
      ensures State()
              == (if old(view).activeHost == h then D.GoLocal(old(State()))
                  else old(State())).(handoff := false, ready := false)
    {
      hide Flat;
      if view.activeHost == h {
        view := view.(activeHost := view.localHost);
      }
      handoff := false;
      ready := false;
    }

    method SetEndpointState(e: Endpoint, state: D.PeerState, now: U64) returns (r: D.Result<()>)
      requires Valid()
      modifies this
      ensures Valid() && D.SetEndpointState(old(State()), e, state, now) == D.Turn(State(), r)
    {
      hide Queue, Flat, Trim, D.Publish, D.HeldOn;
      if decision.Some? || e.host !in endpoints || endpoints[e.host].endpoint != e {
        return D.Err(Unavailable);
      }
      Reach(e, state);
      if state == D.Connected {
        Publish(now);
        return D.Ok(());
      }
      Retreat(e.host);
      var error := QueueRemoteCleanup(D.HeldOn(Books(), e));
      Publish(now);
      return D.AsResult(error);
    }

    method Unreach(h: HostId)
      modifies this`endpoints, this`peers
      ensures State() == old(State()).(endpoints := old(endpoints) - {h}, peers := old(peers)[h := D.Disconnected])
    {
      hide Flat;
      endpoints := endpoints - {h};
      peers := peers[h := D.Disconnected];
    }

    method RetireSessionEndpoint(e: Endpoint, now: U64) returns (r: D.Result<()>)
      requires Valid()
      modifies this
      ensures Valid() && D.RetireEndpoint(old(State()), e, now) == D.Turn(State(), r)
    {
      hide Flat, Trim, D.Publish, D.HasObligations;
      if || decision.Some? || e.host !in endpoints || endpoints[e.host].endpoint != e
         || endpoints[e.host].state == D.Connected || D.HasObligations(Books(), e)
      {
        return D.Err(CleanupPending);
      }
      Unreach(e.host);
      Retreat(e.host);
      Publish(now);
      return D.Ok(());
    }

    // -------------------------------------------------------------- workspace and handoff

    method UpdateWorkspace(v: H.View, now: U64) returns (error: Option<D.WorkspaceError>)
      requires Valid()
      modifies this
      ensures Valid() && D.UpdateWorkspace(old(State()), v, now) == D.WorkspaceTurn(State(), error)
    {
      hide Queue, Flat, Trim, D.Publish, D.FollowingHeld;
      if decision.Some? {
        return Some(D.CapturePending);
      }
      if candidate.Some? {
        return Some(D.WorkspaceCleanup);
      }
      if v.localHost != view.localHost {
        return Some(D.LocalHostChanged);
      }
      if v.activeDisplay != v.pointer.display {
        return Some(D.InvalidAuthority);
      }
      if v.activeHost != view.activeHost {
        Refused(Books(), D.FollowingHeld(Books()));
        var failed := QueueRemoteCleanup(D.FollowingHeld(Books()));
        if failed.Some? {
          return Some(D.WorkspaceCleanup);
        }
        if cleanup != [] || inFlight.Some? {
          Publish(now);
          return Some(D.WorkspaceCleanup);
        }
      }
      view := v;
      Publish(now);
      return None;
    }

    method BeginPointerHandoff(now: U64) returns (r: D.Result<()>)
      requires Valid()
      modifies this
      ensures Valid() && D.BeginHandoff(old(State()), now) == D.Turn(State(), r)
    {
      hide Queue, Flat, Trim, D.Publish, D.FollowingHeld;
      if decision.Some? || candidate.Some? {
        return D.Err(Unavailable);
      }
      handoff := true;
      assert Books() == old(Books());
      var error := QueueRemoteCleanup(D.FollowingHeld(Books()));
      Publish(now);
      return D.AsResult(error);
    }

    method CancelPointerHandoff(now: U64)
      requires Valid()
      modifies this
      ensures Valid() && D.CancelHandoff(old(State()), now) == State()
    {
      hide Flat, Trim, D.Publish;
      handoff := false;
      view := view.(activeHost := view.localHost);
      Publish(now);
    }

    method AbortDestinationHandoffBarrier(now: U64)
      requires Valid()
      modifies this
      ensures Valid() && D.AbortBarrier(old(State()), now) == State()
    {
      hide Flat, Trim, D.Publish;
      handoff := false;
      Publish(now);
    }

    method FinishPointerHandoff(v: H.View, now: U64) returns (error: Option<D.WorkspaceError>)
      requires Valid()
      modifies this
      ensures Valid() && D.FinishHandoff(old(State()), v, now) == D.WorkspaceTurn(State(), error)
    {
      hide Flat, Trim, D.Publish, D.UpdateWorkspace;
      if decision.Some? {
        return Some(D.CapturePending);
      }
      if candidate.Some? {
        return Some(D.WorkspaceCleanup);
      }
      if cleanup != [] || inFlight.Some? {
        return Some(D.WorkspaceCleanup);
      }
      error := UpdateWorkspace(v, now);
      if error.None? {
        handoff := false;
        Publish(now);
      }
    }

    // -------------------------------------------------------------- route policy

    method PrepareRoutePolicyUpdate(proposed: D.Config, expected: U64, now: U64)
      returns (r: PolicyResult<D.PolicyStatus>)
      requires Valid()
      modifies this
      ensures Valid() && AsPolicy(D.PrepareRoutes(old(State()), proposed, expected, now)) == (State(), r)
    {
      hide Queue, Flat, Trim, D.Publish, D.PolicyProgress, D.Misrouted, D.Affected, D.Compile, D.ValidConfig;
      if decision.Some? {
        return Denied(D.PolicyCapturePending);
      }
      if handoff {
        return Denied(D.CleanupUnavailable);
      }
      if candidate.Some? {
        var c := candidate.value;
        if expected == revision && proposed.(revision := c.revision) == c.config {
          return Granted(D.PolicyProgress(State(), c));
        }
        return Denied(if expected != revision then D.StaleRevision else D.ConflictingUpdate);
      }
      if expected != revision {
        return Denied(D.StaleRevision);
      }
      if revision == U64_MAX {
        return Denied(D.RevisionExhausted);
      }
      var next := proposed.(revision := revision + 1);
      var compiled := D.Compile(next.routes);
      if !D.ValidConfig(next) || compiled.None? || next != config.(routes := next.routes, revision := revision + 1) {
        return Denied(D.InvalidCandidate);
      }
      if cleanup != [] || inFlight.Some? {
        return Denied(D.CleanupUnavailable);
      }
      r := Stage(D.Candidate(revision + 1, next, compiled.value, D.Affected(config, next, table, compiled.value)), now);
    }

    /** Retains a checked candidate together with the releases it calls for. */
    method Stage(c: D.Candidate, now: U64) returns (r: PolicyResult<D.PolicyStatus>)
      requires Valid()
      modifies this
      ensures var q := Queue(old(Books()), D.Misrouted(old(State()), c));
              && Valid()
              && (q.error.Some? ==> State() == old(State()) && r == Denied(D.CleanupUnavailable))
              && (q.error.None? ==> State() == D.Publish(old(State()).(ledger := q.ledger, candidate := Some(c)), now)
                                    && r == Granted(D.PolicyProgress(State(), c)))
    {
      hide Queue, Flat, Trim, D.Publish, D.PolicyProgress, D.Misrouted;
      Refused(Books(), D.Misrouted(State(), c));
      var error := QueueRemoteCleanup(D.Misrouted(State(), c));
      if error.Some? {
        return Denied(D.CleanupUnavailable);
      }
      candidate := Some(c);
      Publish(now);
      return Granted(D.PolicyProgress(State(), c));
    }

    method RetryRoutePolicyUpdate(now: U64) returns (r: PolicyResult<D.PolicyStatus>)
      requires Valid()
      modifies this
      ensures Valid() && AsPolicy(D.RetryRoutes(old(State()), now)) == (State(), r)
    {
      hide Queue, Flat, Trim, D.Publish, D.PolicyProgress, D.Misrouted;
      if decision.Some? {
        return Denied(D.PolicyCapturePending);
      }
      if candidate.None? {
        return Denied(D.NotReady);
      }
      Refused(Books(), D.Misrouted(State(), candidate.value));
      var error := QueueRemoteCleanup(D.Misrouted(State(), candidate.value));
      if error.Some? {
        return Denied(D.CleanupUnavailable);
      }
      Publish(now);
      return Granted(D.PolicyProgress(State(), candidate.value));
    }

    /** Lifecycles that continue under the new policy carry its routes. */
    method Relabel(t: D.Table)
      requires Valid()
      modifies this`held, this`physical
      ensures Valid() && State() == old(State()).(ledger := D.Relabel(old(Books()), t))
    {
      hide Flat, Trim, D.Relabel;
      RelabelBooks(t);
    }

    method RelabelBooks(t: D.Table)
      requires Valid()
      modifies this`held, this`physical
      ensures Valid() && Books() == D.Relabel(old(Books()), t)
    {
      hide Flat, Trim, D.RouteFor;
      ghost var before := physical;
      held := map k | k in held :: held[k].(route := D.RouteFor(t, k.device));
      physical := map d | d in physical ::
        map c | c in physical[d] ::
          if physical[d][c].ToRemote? then physical[d][c].(route := D.RouteFor(t, d)) else physical[d][c];
      RelabelsAll(before, physical, t);
      FlatMap(before, physical);
    }

    method CommitRoutePolicyUpdate(next: U64, now: U64) returns (r: PolicyResult<U64>)
      requires Valid()
      modifies this
      ensures Valid() && AsPolicy(D.CommitRoutes(old(State()), next, now)) == (State(), r)
    {
      hide Flat, Trim, D.Publish, D.PolicyProgress, D.Relabel;
      if decision.Some? {
        return Denied(D.PolicyCapturePending);
      }
      if candidate.None? || D.PolicyProgress(State(), candidate.value) != D.ReadyToPersist {
        return Denied(D.NotReady);
      }
      var c := candidate.value;
      if c.revision != next {
        return Denied(D.ConflictingUpdate);
      }
      Relabel(c.table);
      Adopt(c, next);
      Publish(now);
      return Granted(next);
    }

    method Adopt(c: D.Candidate, next: U64)
      modifies this`config, this`table, this`revision, this`candidate
      ensures State() == old(State()).(candidate := None, config := c.config, table := c.table, revision := next)
    {
      hide Flat;
      candidate := None;
      config := c.config;
      table := c.table;
      revision := next;
    }

    method AbortRoutePolicyUpdate(next: U64, now: U64) returns (r: PolicyResult<()>)
      requires Valid()
      modifies this
      ensures Valid() && AsPolicy(D.AbortRoutes(old(State()), next, now)) == (State(), r)
    {
      hide Flat, Trim, D.Publish;
      if candidate.None? {
        return Denied(D.NotReady);
      }
      if candidate.value.revision != next {
        return Denied(D.ConflictingUpdate);
      }
      candidate := None;
      Publish(now);
      return Granted(());
    }

    method UpdateConfig(c: D.Config, now: U64) returns (error: Option<D.WorkspaceError>)
      requires Valid()
      modifies this
      ensures Valid() && D.UpdateConfig(old(State()), c, now) == D.WorkspaceTurn(State(), error)
    {
      hide Flat, Trim, D.PrepareRoutes, D.CommitRoutes, D.PolicyProgress, D.ReplaceConfig;
      if c.routes == config.routes && c.revision == revision {
        error := ReplaceConfig(c, now);
        return;
      }
      var p := PrepareRoutePolicyUpdate(c, revision, now);
      if p.Denied? {
        return Some(D.AsWorkspaceError(p.error));
      }
      if p.value == D.PolicyCleanup {
        return Some(D.WorkspaceCleanup);
      }
      var staged := D.StagedRoutes(State());
      if staged.None? {
        return Some(D.InvalidTable);
      }
      var r := CommitRoutePolicyUpdate(staged.value.revision, now);
      return if r.Granted? then None else Some(D.InvalidTable);
    }

    method ReplaceConfig(c: D.Config, now: U64) returns (error: Option<D.WorkspaceError>)
      requires Valid()
      modifies this
      ensures Valid() && D.ReplaceConfig(old(State()), c, now) == D.WorkspaceTurn(State(), error)
    {
      hide Queue, Flat, Trim, D.Publish, D.ValidConfig, D.Compile, D.HeldUnpaired, D.Adopt;
      if decision.Some? {
        return Some(D.CapturePending);
      }
      if candidate.Some? {
        return Some(D.WorkspaceCleanup);
      }
      if !D.ValidConfig(c) {
        return Some(D.InvalidConfig);
      }
      var compiled := D.Compile(c.routes);
      if compiled.None? {
        return Some(D.InvalidTable);
      }
      if cleanup != [] || inFlight.Some? {
        return Some(D.WorkspaceCleanup);
      }
      var gone := D.HeldUnpaired(Books(), c);
      Refused(Books(), gone);
      var failed := QueueRemoteCleanup(gone);
      if failed.Some? {
        return Some(D.WorkspaceCleanup);
      }
      if cleanup != [] || inFlight.Some? {
        Publish(now);
        return Some(D.WorkspaceCleanup);
      }
      AdoptConfig(c, compiled.value);
      Publish(now);
      return None;
    }

    method AdoptConfig(c: D.Config, t: D.Table)
      modifies this`peers, this`view, this`ready, this`handoff, this`config, this`table
      ensures State() == D.Adopt(old(State()), c, t)
    {
      hide Flat, D.Adopt;
      TakeConfig(c, t);
    }

    method TakeConfig(c: D.Config, t: D.Table)
      modifies this`peers, this`view, this`ready, this`handoff, this`config, this`table
      ensures var u := D.Adopt(old(State()), c, t);
              && peers == u.peers && view == u.view && ready == u.ready && handoff == u.handoff
              && config == c && table == t
    {
      hide Flat, D.PeersFor;
      peers := D.PeersFor(c, peers);
      if view.activeHost !in peers && view.activeHost != view.localHost {
        view := view.(activeHost := view.localHost);
        ready := false;
        handoff := false;
      }
      config := c;
      table := t;
    }

    method ForgetControls(d: DeviceId)
      requires Valid()
      modifies this`physical, this`physicalCount
      ensures Valid()
      ensures var rest := map c | c in old(Books()).latches && c.device != d :: old(Books()).latches[c];
              State() == old(State()).(ledger := old(Books()).(latches := rest))
    {
      hide Flat, Trim;
      ForgetDevice(d);
    }

    method ForgetDevice(d: DeviceId)
      requires Valid()
      modifies this`physical, this`physicalCount
      ensures Valid() && Flat(physical) == map s | s in old(Flat(physical)) && s.device != d :: old(Flat(physical))[s]
    {
      hide Flat, Trim;
      Forgets(physical, d);
      if d in physical {
        physicalCount := physicalCount - |physical[d]|;
        physical := physical - {d};
      }
    }
  }

  lemma {:induction false} CutsOff(n: Nested, key: HeldKey)
    requires Trim(n)
    ensures var cut := key.device in n && key.control in n[key.device] && n[key.device][key.control].ToRemote?
                       && n[key.device][key.control].endpoint == key.endpoint;
            var m := if cut then n[key.device := n[key.device][key.control := Quarantined]] else n;
            Trim(m) && Flat(m) == Quarantine(Flat(n), {key}) && |Flat(m)| == |Flat(n)|
  {
    hide Flat;
    var s := SlotOf(key);
    FlatAt(n, s);
    FlatInsert(n, s, Quarantined);
    Insertion(Flat(n), s, Quarantined);
    CutsOffFlat(Flat(n), key);
  }

  lemma {:induction false} CutsOffFlat(latches: map<Slot, Latch>, key: HeldKey)
    ensures var s := SlotOf(key);
            Quarantine(latches, {key}) ==
              if s in latches && latches[s].ToRemote? && latches[s].endpoint == key.endpoint
              then latches[s := Quarantined] else latches
  {
  }

  lemma {:induction false} Orders(l: Ledger, picked: set<HeldKey>)
    ensures (forall k | k in Ordered(Unowed(l, picked)) :: k in l.held)
            && |Ordered(Unowed(l, picked))| == |Unowed(l, picked)|
    ensures forall k :: k in Ordered(Unowed(l, picked)) <==> k in Unowed(l, picked)
  {
    OrderedVisits(Unowed(l, picked));
  }

  lemma {:induction false} ObligationsNext(held: map<HeldKey, Held>, order: seq<HeldKey>, id: U64, i: nat)
    requires (forall k | k in order :: k in held) && id + |order| <= U64_MAX && i < |order|
    ensures order[i] in held
    ensures var owed := Obligations(held, order, id);
            owed[..i + 1] == owed[..i] + [Entry(id + i, order[i], held[order[i]].sequence)]
  {
  }

  lemma {:induction false} QuarantineAll(latches: map<Slot, Latch>, keys: seq<HeldKey>, all: set<HeldKey>)
    requires forall k :: k in keys <==> k in all
    ensures Quarantine(latches, Upto(keys, |keys|)) == Quarantine(latches, all)
  {
    assert Upto(keys, |keys|) == all;
  }

  ghost function Upto(keys: seq<HeldKey>, i: nat): set<HeldKey>
    requires i <= |keys|
  {
    set k | k in keys[..i]
  }

  lemma {:induction false} QuarantineNone(latches: map<Slot, Latch>, keys: seq<HeldKey>)
    ensures Quarantine(latches, Upto(keys, 0)) == latches
  {
    assert Upto(keys, 0) == {};
  }

  lemma {:induction false} QuarantineMore(latches: map<Slot, Latch>, keys: seq<HeldKey>, i: nat)
    requires i < |keys|
    ensures Quarantine(Quarantine(latches, Upto(keys, i)), {keys[i]}) == Quarantine(latches, Upto(keys, i + 1))
  {
    assert Upto(keys, i + 1) == Upto(keys, i) + {keys[i]};
  }

  lemma {:induction false} Inserts(n: Nested, s: Slot)
    requires Trim(n) && s !in Flat(n)
    ensures var inner := if s.device in n then n[s.device] else map[];
            var m := n[s.device := inner[s.control := ToLocal]];
            Trim(m) && Flat(m) == Flat(n)[s := ToLocal] && |Flat(m)| == |Flat(n)| + 1
  {
    hide Flat;
    FlatInsert(n, s, ToLocal);
    Insertion(Flat(n), s, ToLocal);
  }

  lemma {:induction false} Removes(n: Nested, s: Slot)
    requires Trim(n)
    ensures if s.device in n && s.control in n[s.device] then
              var rest := n[s.device] - {s.control};
              var m := if rest == map[] then n[s.device := rest] - {s.device} else n[s.device := rest];
              Trim(m) && Flat(m) == Flat(n) - {s} && |Flat(m)| == |Flat(n)| - 1 && |Flat(n)| > 0
            else Flat(n) - {s} == Flat(n)
  {
    hide Flat;
    FlatAt(n, s);
    if s.device in n && s.control in n[s.device] {
      var rest := n[s.device] - {s.control};
      assert n[s.device := rest] - {s.device} == n - {s.device};
      FlatRemove(n, s, if rest == map[] then n - {s.device} else n[s.device := rest]);
      Removal(Flat(n), s);
    }
  }

  lemma {:induction false} Rewrites(n: Nested, s: Slot, latch: Latch)
    requires Trim(n)
    ensures s in Flat(n) <==> s.device in n && s.control in n[s.device]
    ensures s in Flat(n) ==>
              var m := n[s.device := n[s.device][s.control := latch]];
              Trim(m) && Flat(m) == Flat(n)[s := latch] && |Flat(m)| == |Flat(n)|
  {
    hide Flat;
    FlatAt(n, s);
    FlatInsert(n, s, latch);
    Insertion(Flat(n), s, latch);
  }

  lemma {:induction false} DeviceCount(latches: map<Slot, Latch>, devices: set<DeviceId>)
    requires D.Devices(latches) == devices
    ensures forall d :: d in D.Devices(latches) <==> d in devices
    ensures forall d :: d !in devices ==> |D.SlotsOf(latches, d)| == 0
  {
    forall d | d !in devices ensures |D.SlotsOf(latches, d)| == 0 {
      assert forall s | s in latches :: s.device in D.Devices(latches);
      assert D.SlotsOf(latches, d) == {};
    }
  }

  function Withdrawn(s: D.Core): D.Core {
    s.(view := s.view.(activeHost := s.view.localHost), handoff := false,
       ledger := Queue(s.ledger, s.ledger.held.Keys).ledger)
  }

  lemma {:induction false} ClosedOff(s: D.Core, now: U64)
    ensures D.FailClosed(s, now) ==
              D.Turn(D.Publish(Withdrawn(s.(ready := false)), now),
                     D.AsResult(Queue(s.ledger, s.ledger.held.Keys).error))
  {
    hide Queue, D.Publish;
  }

  lemma {:induction false} Escaped(s: D.Core, now: U64)
    ensures var t := Withdrawn(s.(suspendedUntil := D.SuspensionEnd(s.config, now)));
            var error := Queue(s.ledger, s.ledger.held.Keys).error;
            D.ActivateFailsafe(s, now) ==
              D.Turn(D.Publish(if error.Some? then t.(ready := false) else t, now), D.AsResult(error))
  {
    hide Queue, D.Publish, D.SuspensionEnd;
  }

  lemma {:induction false} CutsOffAll(n: Nested, m: Nested, e: Endpoint)
    requires m.Keys == n.Keys && forall d | d in n ::
               m[d].Keys == n[d].Keys && forall c | c in n[d] ::
                 m[d][c] == if n[d][c].ToRemote? && n[d][c].endpoint == e then Quarantined else n[d][c]
    ensures Flat(m) == map s | s in Flat(n) ::
              if Flat(n)[s].ToRemote? && Flat(n)[s].endpoint == e then Quarantined else Flat(n)[s]
  {
    hide Flat;
    forall s: Slot
      ensures s in Flat(m) <==> s in Flat(n)
      ensures s in Flat(m) ==> Flat(m)[s] == if Flat(n)[s].ToRemote? && Flat(n)[s].endpoint == e then Quarantined
              else Flat(n)[s]
    {
      FlatAt(n, s);
      FlatAt(m, s);
    }
  }

  lemma {:induction false} Forgets(n: Nested, d: DeviceId)
    requires Trim(n)
    ensures Trim(n - {d}) && Flat(n - {d}) == map s | s in Flat(n) && s.device != d :: Flat(n)[s]
    ensures d in n ==> |n[d]| <= |Flat(n)| && |Flat(n - {d})| == |Flat(n)| - |n[d]|
    ensures d !in n ==> (map s | s in Flat(n) && s.device != d :: Flat(n)[s]) == Flat(n)
  {
    hide Flat;
    FlatForget(n, d);
    Forgetting(Flat(n), d);
    Counts(n, d);
    if d !in n { assert n - {d} == n; }
  }

  lemma {:induction false} LostFrame(s: D.Core, e: Endpoint)
    ensures var t := D.LoseHost(s, e);
            t == s.(view := t.view, endpoints := t.endpoints, peers := t.peers, ready := t.ready, handoff := t.handoff)
  {
  }

  lemma {:induction false} Refused(l: Ledger, picked: set<HeldKey>)
    ensures Queue(l, picked).error.Some? ==> Queue(l, picked).ledger == l
  {
  }

  lemma {:induction false} RelabelsAll(n: Nested, m: Nested, t: D.Table)
    requires m.Keys == n.Keys && forall d | d in n ::
               m[d].Keys == n[d].Keys && forall c | c in n[d] ::
                 m[d][c] == if n[d][c].ToRemote? then n[d][c].(route := D.RouteFor(t, d)) else n[d][c]
    ensures Flat(m) == map s | s in Flat(n) ::
              if Flat(n)[s].ToRemote? then Flat(n)[s].(route := D.RouteFor(t, s.device)) else Flat(n)[s]
  {
    hide Flat, D.RouteFor;
    forall s: Slot
      ensures s in Flat(m) <==> s in Flat(n)
      ensures s in Flat(m) ==> Flat(m)[s] == if Flat(n)[s].ToRemote? then Flat(n)[s].(route := D.RouteFor(t, s.device))
              else Flat(n)[s]
    {
      FlatAt(n, s);
      FlatAt(m, s);
    }
  }
}
