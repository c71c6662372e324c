/** The inventory over whole runs: bound to live sessions, within bounds, exactly published, and never going back. */
module InventoryRuns {
  import opened Base
  import opened Inventory

  // ---------------------------------------------------------------- counting

  lemma {:induction false} TotalPick(records: map<HostId, Record>, h: HostId)
    requires h in records
    ensures Total(records) == |records[h].devices| + Total(records - {h})
    decreases |records|
  {
    Fewer(records, h);
    var g :| g in records && Total(records) == |records[g].devices| + Total(records - {g});
    if g != h {
      Fewer(records, g);
      TotalPick(records - {g}, h);
      TotalPick(records - {h}, g);
      assert records - {g} - {h} == records - {h} - {g};
    }
  }

  lemma {:induction false} Fewer(records: map<HostId, Record>, h: HostId)
    requires h in records
    ensures |records - {h}| < |records|
  {
    assert (records - {h}).Keys == records.Keys - {h};
    assert |records - {h}| == |(records - {h}).Keys| && |records| == |records.Keys|;
  }

  lemma {:induction false} TotalPut(records: map<HostId, Record>, h: HostId, r: Record)
    ensures Total(records[h := r]) == Total(records - {h}) + |r.devices|
  {
    TotalPick(records[h := r], h);
    assert records[h := r] - {h} == records - {h};
  }

  lemma {:induction false} TotalDrop(records: map<HostId, Record>, h: HostId)
    ensures Total(records - {h}) <= Total(records)
  {
    if h in records { TotalPick(records, h); } else { assert records - {h} == records; }
  }

  lemma {:induction false} TotalSome(records: map<HostId, Record>, kept: map<HostId, Record>)
    requires forall h | h in kept :: h in records && kept[h] == records[h]
    ensures Total(kept) <= Total(records)
    decreases |kept|
  {
    if kept != map[] {
      var h :| h in kept;
      Fewer(kept, h);
      TotalPick(kept, h);
      TotalPick(records, h);
      TotalSome(records - {h}, kept - {h});
    }
  }

  // ---------------------------------------------------------------- what every operation keeps

  /** A record comes from here, or from the very session now bound to its host, and lists that host's devices only. */
  ghost predicate RecordOk(s: Inventory, h: HostId, r: Record) {
    && (if r.source == FromHere then h == s.localHost
        else h != s.localHost && r.source.binding.remoteHost == h && Active(s, r.source.binding))
    && r.revision > 0 && |r.devices| <= s.limits.perHost
    && (forall id | id in r.devices :: r.devices[id].id == id && ValidDevice(r.devices[id], h))
  }

  ghost predicate SlotOk(s: Inventory, h: HostId, slot: Slot) {
    && (slot.current.Some? ==>
         slot.current.value.remoteHost == h && slot.current.value.localHost == s.localHost && h != s.localHost)
    && (slot.current.Some? && slot.retired.Some? ==>
         !AtMost(slot.current.value.generation, slot.retired.value.generation))
    && (slot.suspended.Some? ==> slot.current.Some? && h !in s.records)
  }

  ghost predicate Bounded(s: Inventory) {
    ValidLimits(s.limits) && Total(s.records) <= s.limits.total && |s.sessions| <= s.limits.remoteHosts
  }

  ghost predicate Consistent(s: Inventory) {
    && Bounded(s)
    && s.published == Projection(s.records)
    && (forall h | h in s.records :: RecordOk(s, h, s.records[h]))
    && (forall h | h in s.sessions :: SlotOk(s, h, s.sessions[h]))
    && (s.closed ==> s.sessions == map[])
  }

  /** A source that may write the record of a host. */
  ghost predicate Entitled(s: Inventory, source: Source, h: HostId) {
    if source == FromHere then h == s.localHost
    else h != s.localHost && source.binding.remoteHost == h && Active(s, source.binding)
  }

  lemma {:induction false} ListOk(host: HostId, devices: seq<Device>)
    ensures var l := List(host, devices);
            l.Listed? ==>
              && |l.devices| == |devices|
              && forall id | id in l.devices :: l.devices[id].id == id && ValidDevice(l.devices[id], host)
    decreases |devices|
  {
    if devices != [] { ListOk(host, devices[..|devices| - 1]); }
  }

  /** Writing one entitled record keeps everything, once the suspension it ends is forgotten with it. */
  lemma {:induction false} PutConsistent(s: Inventory, h: HostId, r: Record, sessions: map<HostId, Slot>)
    requires Consistent(s) && Entitled(s, r.source, h) && HasRoom(s, h, |r.devices|)
    requires r.revision > 0 && |r.devices| <= s.limits.perHost
    requires forall id | id in r.devices :: r.devices[id].id == id && ValidDevice(r.devices[id], h)
    requires sessions == (if h in s.sessions then s.sessions[h := s.sessions[h].(suspended := None)] else s.sessions)
    ensures Consistent(Publish(s.(records := s.records[h := r], sessions := sessions)))
  {
    TotalPut(s.records, h, r);
    var t := Publish(s.(records := s.records[h := r], sessions := sessions));
    hide Total, Projection;
    assert t.sessions.Keys == s.sessions.Keys;
    assert |t.sessions| == |t.sessions.Keys| && |s.sessions| == |s.sessions.Keys|;
    assert forall b | Active(s, b) :: Active(t, b);
  }

  lemma {:induction false} DropConsistent(s: Inventory, h: HostId, slot: Slot)
    requires Consistent(s) && h in s.sessions && h in s.records
    requires slot.current.Some? ==> slot.current == s.sessions[h].current && slot.retired == s.sessions[h].retired
    requires slot.current.None? ==> slot.suspended.None?
    ensures Consistent(Publish(s.(records := s.records - {h}, sessions := s.sessions[h := slot])))
  {
    TotalDrop(s.records, h);
    var t := Publish(s.(records := s.records - {h}, sessions := s.sessions[h := slot]));
    hide Total, Projection;
    assert t.sessions.Keys == s.sessions.Keys;
    assert |t.sessions| == |t.sessions.Keys| && |s.sessions| == |s.sessions.Keys|;
    forall g | g in t.records ensures RecordOk(t, g, t.records[g]) { assert RecordOk(s, g, s.records[g]); }
  }

  lemma {:induction false} Unsuspended(s: Inventory, h: HostId)
    requires Consistent(s) && (h in s.records || h == s.localHost)
    ensures (if h in s.sessions then s.sessions[h := s.sessions[h].(suspended := None)] else s.sessions) == s.sessions
  {
    hide Total, Projection;
    if h in s.sessions { assert SlotOk(s, h, s.sessions[h]); }
  }

  lemma {:induction false} SnapshotConsistent(s: Inventory, source: Source, h: HostId, revision: U64,
                                              devices: seq<Device>)
    requires Consistent(s) && Entitled(s, source, h)
    ensures var t := ApplySnapshot(s, source, h, revision, devices);
            t.error.None? ==>
              var sessions := if h in s.sessions then s.sessions[h := s.sessions[h].(suspended := None)]
                else s.sessions;
              Consistent(t.inventory.(sessions := sessions)) && t.inventory.sessions == s.sessions
  {
    hide Total, Projection, List;
    ListOk(h, devices);
    var t := ApplySnapshot(s, source, h, revision, devices);
    if t.error.None? {
      var r := Record(source, revision, List(h, devices).devices);
      var sessions := if h in s.sessions then s.sessions[h := s.sessions[h].(suspended := None)] else s.sessions;
      assert Bounded(s);
      hide Consistent;
      PutConsistent(s, h, r, sessions);
      assert Publish(s.(records := s.records[h := r], sessions := sessions)) == t.inventory.(sessions := sessions);
    }
  }

  lemma {:induction false} AddConsistent(s: Inventory, source: Source, h: HostId, revision: U64, d: Device)
    requires Consistent(s) && Entitled(s, source, h)
    ensures Consistent(ApplyAdd(s, source, h, revision, d).inventory)
  {
    hide Total, Projection;
    var t := ApplyAdd(s, source, h, revision, d);
    if t.error.None? {
      assert RecordOk(s, h, s.records[h]);
      Unsuspended(s, h);
      PutConsistent(s, h, Record(source, revision, s.records[h].devices[d.id := d]), s.sessions);
      assert s.(records := t.inventory.records, sessions := s.sessions) == s.(records := t.inventory.records);
    }
  }

  lemma {:induction false} RemoveConsistent(s: Inventory, source: Source, h: HostId, revision: U64, id: DeviceId)
    requires Consistent(s) && Entitled(s, source, h)
    ensures Consistent(ApplyRemove(s, source, h, revision, id).inventory)
  {
    hide Total, Projection;
    var t := ApplyRemove(s, source, h, revision, id);
    if t.error.None? {
      assert RecordOk(s, h, s.records[h]);
      var rest := s.records[h].devices - {id};
      assert rest.Keys == s.records[h].devices.Keys - {id};
      assert |rest| == |rest.Keys| && |s.records[h].devices| == |s.records[h].devices.Keys|;
      TotalPick(s.records, h);
      Unsuspended(s, h);
      PutConsistent(s, h, Record(source, revision, rest), s.sessions);
      assert s.(records := t.inventory.records, sessions := s.sessions) == s.(records := t.inventory.records);
    }
  }

  lemma {:induction false} ActivateConsistent(s: Inventory, b: Binding)
    requires Consistent(s) && b.localHost == s.localHost && b.remoteHost != s.localHost
    ensures Consistent(Activate(s, b).inventory)
  {
    hide Total, Projection;
    var t := Activate(s, b).inventory;
    if t != s {
      var h := b.remoteHost;
      assert h in s.records ==> RecordOk(s, h, s.records[h]);
      if h in s.sessions {
        assert t.sessions.Keys == s.sessions.Keys;
        assert |t.sessions| == |t.sessions.Keys| && |s.sessions| == |s.sessions.Keys|;
      }
      forall g | g in t.records ensures RecordOk(t, g, t.records[g]) { assert RecordOk(s, g, s.records[g]); }
      forall g | g in t.sessions ensures SlotOk(t, g, t.sessions[g]) {
        if g in s.sessions { assert SlotOk(s, g, s.sessions[g]); }
      }
    }
  }

  lemma {:induction false} InvalidateConsistent(s: Inventory, b: Binding)
    requires Consistent(s)
    ensures Consistent(Invalidate(s, b).0)
  {
    hide Total, Projection;
    if Active(s, b) {
      var h := b.remoteHost;
      if OwnRecord(s, b) {
        DropConsistent(s, h, Slot(None, Some(b), None));
      } else {
        var t := Invalidate(s, b).0;
        assert t.sessions.Keys == s.sessions.Keys;
        assert |t.sessions| == |t.sessions.Keys| && |s.sessions| == |s.sessions.Keys|;
        forall g | g in t.records ensures RecordOk(t, g, t.records[g]) { assert RecordOk(s, g, s.records[g]); }
        forall g | g in t.sessions ensures SlotOk(t, g, t.sessions[g]) { assert SlotOk(s, g, s.sessions[g]); }
      }
    }
  }

  lemma {:induction false} SuspendConsistent(s: Inventory, b: Binding)
    requires Consistent(s)
    ensures Consistent(Suspend(s, b).0)
  {
    hide Total, Projection;
    if Active(s, b) && OwnRecord(s, b) {
      var t := Suspend(s, b).0;
      DropConsistent(s, b.remoteHost, t.sessions[b.remoteHost]);
    }
  }

  lemma {:induction false} InvalidateAllConsistent(s: Inventory)
    requires Consistent(s)
    ensures Consistent(InvalidateAll(s))
  {
    var t := InvalidateAll(s);
    TotalSome(s.records, t.records);
    hide Total, Projection;
    forall g | g in t.records ensures RecordOk(t, g, t.records[g]) { assert RecordOk(s, g, s.records[g]); }
  }

  lemma {:induction false} PeerSnapshotConsistent(s: Inventory, b: Binding, m: Snapshot)
    requires Consistent(s) && b.remoteHost != s.localHost
    ensures Consistent(RemoteSnapshot(s, b, m).inventory)
  {
    hide ApplySnapshot, WellFormed, Consistent;
    if Active(s, b) {
      SnapshotConsistent(s, FromPeer(b), b.remoteHost, m.revision, m.devices);
      SnapshotRefuses(s, FromPeer(b), b.remoteHost, m.revision, m.devices);
    }
  }

  lemma {:induction false} SnapshotRefuses(s: Inventory, source: Source, h: HostId, revision: U64, devices: seq<Device>)
    ensures var t := ApplySnapshot(s, source, h, revision, devices); t.error.Some? ==> t.inventory == s
  {
    hide List, Projection, Total;
  }

  lemma {:induction false} LocalSnapshotConsistent(s: Inventory, revision: U64, devices: seq<Device>)
    requires Consistent(s)
    ensures Consistent(ApplySnapshot(s, FromHere, s.localHost, revision, devices).inventory)
  {
    hide ApplySnapshot, Consistent;
    SnapshotConsistent(s, FromHere, s.localHost, revision, devices);
    SnapshotRefuses(s, FromHere, s.localHost, revision, devices);
    Unsuspended(s, s.localHost);
    var t := ApplySnapshot(s, FromHere, s.localHost, revision, devices).inventory;
    assert t.sessions == s.sessions ==> t.(sessions := s.sessions) == t;
  }

  lemma {:induction false} BindsAway(s: Inventory, x: Session)
    ensures Bind(s, x).Some? ==> Bind(s, x).value.remoteHost != s.localHost && Bind(s, x).value.localHost == s.localHost
  {
  }

  /** Every operation keeps records bound to live sessions, bounds respected and the published view exact. */
  lemma {:induction false} StepConsistent(s: Inventory, op: Op)
    requires Consistent(s)
    ensures Consistent(Apply(s, op).inventory)
  {
    hide Consistent, ApplySnapshot, ApplyAdd, ApplyRemove, Activate, RemoteSnapshot, RemoteAdd, RemoteRemove,
         Invalidate, Suspend, InvalidateAll, Bind;
    match op {
      case LocalSnapshot(r, devices) => LocalSnapshotConsistent(s, r, devices);
      case LocalAdd(r, d) => AddConsistent(s, FromHere, s.localHost, r, d);
      case LocalRemove(r, id) => RemoveConsistent(s, FromHere, s.localHost, r, id);
      case AllInvalidated => InvalidateAllConsistent(s);
      case _ =>
        BindsAway(s, op.session);
        if Bind(s, op.session).Some? { PeerConsistent(s, op, Bind(s, op.session).value); }
    }
  }

  lemma {:induction false} PeerConsistent(s: Inventory, op: Op, b: Binding)
    requires Consistent(s) && b.remoteHost != s.localHost && b.localHost == s.localHost
    ensures Consistent(Activate(s, b).inventory) && Consistent(Invalidate(s, b).0) && Consistent(Suspend(s, b).0)
    ensures op.PeerSnapshot? ==> Consistent(RemoteSnapshot(s, b, op.message).inventory)
    ensures op.PeerAdd? ==> Consistent(RemoteAdd(s, b, op.revision, op.device).inventory)
    ensures op.PeerRemove? ==> Consistent(RemoteRemove(s, b, op.revision, op.host, op.id).inventory)
  {
    hide Consistent, ApplyAdd, ApplyRemove, Activate, RemoteSnapshot, Invalidate, Suspend, WellFormedDevice;
    ActivateConsistent(s, b);
    InvalidateConsistent(s, b);
    SuspendConsistent(s, b);
    if op.PeerSnapshot? { PeerSnapshotConsistent(s, b, op.message); }
    if op.PeerAdd? && Active(s, b) { AddConsistent(s, FromPeer(b), b.remoteHost, op.revision, op.device); }
    if op.PeerRemove? && Active(s, b) { RemoveConsistent(s, FromPeer(b), b.remoteHost, op.revision, op.id); }
  }

  /** In every run, each peer's record comes from exactly its current session, all bounds hold, and what is published
      is what is recorded. */
  lemma {:induction false} SessionBound(local: HostId, l: Limits, s: Inventory, ops: seq<Op>)
    requires Create(local, l) == Some(s)
    ensures Consistent(Run(s, ops))
    decreases |ops|
  {
    hide Apply;
    if ops != [] {
      hide Consistent;
      var n := |ops| - 1;
      SessionBound(local, l, s, ops[..n]);
      StepConsistent(Run(s, ops[..n]), ops[n]);
    }
  }

  /** A refused call changes nothing at all. */
  lemma {:induction false} RefusalChangesNothing(s: Inventory, op: Op)
    ensures Apply(s, op).error.Some? ==> Apply(s, op).inventory == s
  {
    hide List, Total, Projection, WellFormed;
  }

  // ---------------------------------------------------------------- nothing comes back

  /** The generation of `b`, or a later one for the same host, is over; or everything is. */
  ghost predicate Over(s: Inventory, b: Binding) {
    || s.closed
    || (b.remoteHost in s.sessions && s.sessions[b.remoteHost].retired.Some?
        && AtMost(b.generation, s.sessions[b.remoteHost].retired.value.generation))
  }

  lemma {:induction false} OverNotActive(s: Inventory, b: Binding)
    requires Consistent(s) && Over(s, b)
    ensures !Active(s, b) && !OwnRecord(s, b)
  {
    hide Total, Projection;
    assert b.remoteHost in s.sessions ==> SlotOk(s, b.remoteHost, s.sessions[b.remoteHost]);
    assert b.remoteHost in s.records ==> RecordOk(s, b.remoteHost, s.records[b.remoteHost]);
  }

  /** How an operation may change the sessions. */
  ghost predicate Sessions(s: Inventory, t: Inventory) {
    && (s.closed ==> t.closed)
    && (t.closed || forall h | h in s.sessions ::
          h in t.sessions && (t.sessions[h].retired == s.sessions[h].retired
                              || (s.sessions[h].current.Some? && t.sessions[h].retired == s.sessions[h].current)))
  }

  lemma {:induction false} StepSessions(s: Inventory, op: Op)
    ensures Sessions(s, Apply(s, op).inventory)
  {
    hide List, Total, Projection, WellFormed, HasRoom;
  }

  lemma {:induction false} StepOver(s: Inventory, op: Op, b: Binding)
    requires Consistent(s) && Over(s, b)
    ensures Over(Apply(s, op).inventory, b)
  {
    hide Apply, Total, Projection;
    StepSessions(s, op);
    if !s.closed { assert SlotOk(s, b.remoteHost, s.sessions[b.remoteHost]); }
  }

  /** A session that has ended, and any older one of the same host, never becomes current again. */
  lemma {:induction false} NeverAgain(s: Inventory, b: Binding, ops: seq<Op>)
    requires Consistent(s) && Over(s, b)
    ensures var t := Run(s, ops); Consistent(t) && Over(t, b) && !Active(t, b) && !OwnRecord(t, b)
    decreases |ops|
  {
    hide Apply, Consistent, Over;
    if ops == [] {
      OverNotActive(s, b);
    } else {
      var n := |ops| - 1;
      NeverAgain(s, b, ops[..n]);
      var u := Run(s, ops[..n]);
      StepConsistent(u, ops[n]);
      StepOver(u, ops[n], b);
      OverNotActive(Apply(u, ops[n]).inventory, b);
    }
  }

  lemma {:induction false} InvalidatedIsOver(s: Inventory, b: Binding)
    requires Invalidate(s, b).1
    ensures Over(Invalidate(s, b).0, b)
  {
    hide Projection;
  }

  // ---------------------------------------------------------------- revisions

  datatype Acceptance = Acceptance(source: Source, revision: U64)

  /** The revision an operation was accepted with, if it carried one and was accepted. */
  ghost function Accepted(s: Inventory, op: Op): seq<Acceptance> {
    if Apply(s, op).error.Some? then []
    else
      match op
      case LocalSnapshot(r, _) => [Acceptance(FromHere, r)]
      case LocalAdd(r, _) => [Acceptance(FromHere, r)]
      case LocalRemove(r, _) => [Acceptance(FromHere, r)]
      case PeerSnapshot(x, m) => if Bind(s, x).Some? then [Acceptance(FromPeer(Bind(s, x).value), m.revision)] else []
      case PeerAdd(x, r, _) => if Bind(s, x).Some? then [Acceptance(FromPeer(Bind(s, x).value), r)] else []
      case PeerRemove(x, r, _, _) => if Bind(s, x).Some? then [Acceptance(FromPeer(Bind(s, x).value), r)] else []
      case _ => []
  }

  ghost function History(s: Inventory, ops: seq<Op>): seq<Acceptance>
    decreases |ops|
  {
    if ops == [] then [] else History(s, ops[..|ops| - 1]) + Accepted(Run(s, ops[..|ops| - 1]), ops[|ops| - 1])
  }

  /** The inventory remembers that revisions up to `a` were accepted from its source. */
  ghost predicate Remembers(s: Inventory, a: Acceptance) {
    match a.source
    case FromHere => s.localHost in s.records && a.revision <= s.records[s.localHost].revision
    case FromPeer(b) =>
      || Over(s, b)
      || (Active(s, b) && OwnRecord(s, b) && a.revision <= s.records[b.remoteHost].revision)
      || (Active(s, b) && s.sessions[b.remoteHost].suspended.Some?
          && a.revision <= s.sessions[b.remoteHost].suspended.value)
  }

  lemma {:induction false} NewerThanRemembered(s: Inventory, op: Op, a: Acceptance)
    requires Consistent(s) && Remembers(s, a) && |Accepted(s, op)| == 1 && Accepted(s, op)[0].source == a.source
    ensures a.revision < Accepted(s, op)[0].revision
  {
    hide List, Total, Projection, WellFormed, HasRoom, AtMost;
    if a.source.FromPeer? {
      if Over(s, a.source.binding) { OverNotActive(s, a.source.binding); }
      if Active(s, a.source.binding) {
        assert SlotOk(s, a.source.binding.remoteHost, s.sessions[a.source.binding.remoteHost]);
      }
    }
  }

  lemma {:induction false} PutRemembers(s: Inventory, t: Inventory, h: HostId, r: Record, a: Acceptance)
    requires Consistent(s) && Remembers(s, a) && Entitled(s, r.source, h)
    requires h in s.records ==> s.records[h].source == r.source && s.records[h].revision < r.revision
    requires h in s.sessions && s.sessions[h].suspended.Some? ==> s.sessions[h].suspended.value < r.revision
    requires t.records == s.records[h := r] && t.closed == s.closed && t.localHost == s.localHost
    requires t.sessions == s.sessions
             || (h in s.sessions && t.sessions == s.sessions[h := s.sessions[h].(suspended := None)])
    ensures Remembers(t, a)
  {
    hide Total, Projection, AtMost;
  }

  lemma {:induction false} SnapshotRemembers(s: Inventory, source: Source, h: HostId, revision: U64,
                                             devices: seq<Device>, a: Acceptance)
    requires Consistent(s) && Remembers(s, a) && Entitled(s, source, h)
    requires h in s.sessions && s.sessions[h].suspended.Some? ==> s.sessions[h].suspended.value < revision
    ensures var t := ApplySnapshot(s, source, h, revision, devices);
            && Remembers(t.inventory, a)
            && (t.error.None? && h in s.sessions ==>
                  Remembers(t.inventory.(sessions := s.sessions[h := s.sessions[h].(suspended := None)]), a))
  {
    hide List, Total, Projection, HasRoom, AtMost, Consistent, Remembers;
    var t := ApplySnapshot(s, source, h, revision, devices);
    if t.error.None? {
      var r := t.inventory.records[h];
      PutRemembers(s, t.inventory, h, r, a);
      if h in s.sessions {
        PutRemembers(s, t.inventory.(sessions := s.sessions[h := s.sessions[h].(suspended := None)]), h, r, a);
      }
    }
  }

  lemma {:induction false} LocalUnsuspended(s: Inventory)
    requires Consistent(s)
    ensures s.localHost in s.sessions ==> s.sessions[s.localHost].suspended.None?
    ensures forall h | h in s.records && h in s.sessions :: s.sessions[h].suspended.None?
  {
    hide Total, Projection;
    assert s.localHost in s.sessions ==> SlotOk(s, s.localHost, s.sessions[s.localHost]);
  }

  lemma {:induction false} DeltaRemembers(s: Inventory, source: Source, h: HostId, revision: U64, d: Device,
                                          id: DeviceId, a: Acceptance)
    requires Consistent(s) && Remembers(s, a) && Entitled(s, source, h)
    ensures Remembers(ApplyAdd(s, source, h, revision, d).inventory, a)
    ensures Remembers(ApplyRemove(s, source, h, revision, id).inventory, a)
  {
    hide Total, Projection, HasRoom, AtMost, Consistent, Remembers, ValidDevice;
    LocalUnsuspended(s);
    var t := ApplyAdd(s, source, h, revision, d);
    if t.error.None? { PutRemembers(s, t.inventory, h, t.inventory.records[h], a); }
    var u := ApplyRemove(s, source, h, revision, id);
    if u.error.None? { PutRemembers(s, u.inventory, h, u.inventory.records[h], a); }
  }

  lemma {:induction false} PeerSnapshotRemembers(s: Inventory, b: Binding, m: Snapshot, a: Acceptance)
    requires Consistent(s) && Remembers(s, a) && b.remoteHost != s.localHost
    ensures Remembers(RemoteSnapshot(s, b, m).inventory, a)
  {
    hide ApplySnapshot, WellFormed, Consistent, Remembers;
    if Active(s, b)
      && (s.sessions[b.remoteHost].suspended.Some? ==> s.sessions[b.remoteHost].suspended.value < m.revision) {
      SnapshotRemembers(s, FromPeer(b), b.remoteHost, m.revision, m.devices, a);
      SnapshotSessions(s, FromPeer(b), b.remoteHost, m.revision, m.devices);
    }
  }

  lemma {:induction false} SnapshotSessions(s: Inventory, source: Source, h: HostId, revision: U64,
                                            devices: seq<Device>)
    ensures ApplySnapshot(s, source, h, revision, devices).inventory.sessions == s.sessions
  {
    hide List, Total, Projection, HasRoom;
  }

  lemma {:induction false} ActivateRemembers(s: Inventory, b: Binding, a: Acceptance)
    requires Consistent(s) && Remembers(s, a) && b.remoteHost != s.localHost
    ensures Remembers(Activate(s, b).inventory, a)
  {
    hide Total, Projection, AtMost;
  }

  lemma {:induction false} InvalidateRemembers(s: Inventory, b: Binding, a: Acceptance)
    requires Consistent(s) && Remembers(s, a) && b.remoteHost != s.localHost
    ensures Remembers(Invalidate(s, b).0, a)
  {
    hide Total, Projection;
    assert b.remoteHost in s.sessions ==> SlotOk(s, b.remoteHost, s.sessions[b.remoteHost]);
  }

  lemma {:induction false} SuspendRemembers(s: Inventory, b: Binding, a: Acceptance)
    requires Consistent(s) && Remembers(s, a) && b.remoteHost != s.localHost
    ensures Remembers(Suspend(s, b).0, a)
  {
    hide Total, Projection, AtMost;
  }

  lemma {:induction false} AllRemembers(s: Inventory, a: Acceptance)
    requires Consistent(s) && Remembers(s, a)
    ensures Remembers(InvalidateAll(s), a)
  {
    hide Total, Projection, AtMost;
    assert s.localHost in s.records ==> RecordOk(s, s.localHost, s.records[s.localHost]);
  }

  lemma {:induction false} PeerRemembers(s: Inventory, op: Op, b: Binding, a: Acceptance)
    requires Consistent(s) && Remembers(s, a) && b.remoteHost != s.localHost
    ensures Remembers(Activate(s, b).inventory, a) && Remembers(Invalidate(s, b).0, a) && Remembers(Suspend(s, b).0, a)
    ensures op.PeerSnapshot? ==> Remembers(RemoteSnapshot(s, b, op.message).inventory, a)
    ensures op.PeerAdd? ==> Remembers(RemoteAdd(s, b, op.revision, op.device).inventory, a)
    ensures op.PeerRemove? ==> Remembers(RemoteRemove(s, b, op.revision, op.host, op.id).inventory, a)
  {
    hide Consistent, Remembers, ApplyAdd, ApplyRemove, Activate, RemoteSnapshot, Invalidate, Suspend, WellFormedDevice;
    var none := Device(NIL, NIL, false, 0);
    ActivateRemembers(s, b, a);
    InvalidateRemembers(s, b, a);
    SuspendRemembers(s, b, a);
    if op.PeerSnapshot? { PeerSnapshotRemembers(s, b, op.message, a); }
    if op.PeerAdd? && Active(s, b) { DeltaRemembers(s, FromPeer(b), b.remoteHost, op.revision, op.device, NIL, a); }
    if op.PeerRemove? && Active(s, b) { DeltaRemembers(s, FromPeer(b), b.remoteHost, op.revision, none, op.id, a); }
  }

  lemma {:induction false} StepRemembers(s: Inventory, op: Op, a: Acceptance)
    requires Consistent(s) && Remembers(s, a)
    ensures Remembers(Apply(s, op).inventory, a)
  {
    hide Consistent, Remembers, ApplySnapshot, ApplyAdd, ApplyRemove, Activate, RemoteSnapshot, RemoteAdd, RemoteRemove,
         Invalidate, Suspend, InvalidateAll, Bind;
    var none := Device(NIL, NIL, false, 0);
    LocalUnsuspended(s);
    match op {
      case LocalSnapshot(r, devices) => SnapshotRemembers(s, FromHere, s.localHost, r, devices, a);
      case LocalAdd(r, d) => DeltaRemembers(s, FromHere, s.localHost, r, d, NIL, a);
      case LocalRemove(r, id) => DeltaRemembers(s, FromHere, s.localHost, r, none, id, a);
      case AllInvalidated => AllRemembers(s, a);
      case _ =>
        BindsAway(s, op.session);
        if Bind(s, op.session).Some? { PeerRemembers(s, op, Bind(s, op.session).value, a); }
    }
  }

  lemma {:induction false} AcceptedRemembered(s: Inventory, op: Op)
    requires Consistent(s) && |Accepted(s, op)| == 1
    ensures Remembers(Apply(s, op).inventory, Accepted(s, op)[0])
  {
    hide List, Total, Projection, WellFormed, HasRoom, AtMost, Consistent;
  }

  lemma {:induction false} AcceptedOnce(s: Inventory, op: Op)
    ensures |Accepted(s, op)| <= 1
  {
    hide Apply, Bind;
  }

  ghost predicate Increasing(hist: seq<Acceptance>) {
    forall i, j | 0 <= i < j < |hist| && hist[i].source == hist[j].source :: hist[i].revision < hist[j].revision
  }

  /** In every run, the revisions accepted from this host, and from any one session, strictly increase, whatever
      suspensions, other hosts and refused calls come in between. */
  lemma {:induction false} RevisionsIncrease(local: HostId, l: Limits, s: Inventory, ops: seq<Op>)
    requires Create(local, l) == Some(s)
    ensures var hist := History(s, ops);
            && (forall a | a in hist :: Remembers(Run(s, ops), a))
            && Increasing(hist)
    decreases |ops|
  {
    hide Apply, Accepted, Consistent, Remembers;
    if ops != [] {
      var n := |ops| - 1;
      RevisionsIncrease(local, l, s, ops[..n]);
      SessionBound(local, l, s, ops[..n]);
      var u := Run(s, ops[..n]);
      var before := History(s, ops[..n]);
      var more := Accepted(u, ops[n]);
      AcceptedOnce(u, ops[n]);
      var hist := before + more;
      forall a | a in hist ensures Remembers(Run(s, ops), a) {
        if a in before {
          StepRemembers(u, ops[n], a);
        } else {
          assert a in more && more == [a];
          AcceptedRemembered(u, ops[n]);
        }
      }
      forall i, j | 0 <= i < j < |hist| && hist[i].source == hist[j].source
        ensures hist[i].revision < hist[j].revision
      {
        if j < |before| {
          assert before[i] == hist[i] && before[j] == hist[j];
        } else {
          assert j == |before| && before[i] == hist[i] && before[i] in before && more[0] == hist[j];
          NewerThanRemembered(u, ops[n], before[i]);
        }
      }
    }
  }
}
