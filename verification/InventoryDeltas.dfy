/** Adding and removing devices one by one comes to the same as sending the whole list once. */
module InventoryDeltas {
  import opened Base
  import opened Inventory
  import opened InventoryRuns

  datatype Delta = Added(revision: U64, device: Device) | Removed(revision: U64, id: DeviceId)

  ghost function ApplyDelta(s: Inventory, source: Source, h: HostId, d: Delta): Turn {
    match d
    case Added(r, device) => ApplyAdd(s, source, h, r, device)
    case Removed(r, id) => ApplyRemove(s, source, h, r, id)
  }

  /** The inventory after all deltas, if every one was accepted. */
  ghost function ApplyDeltas(s: Inventory, source: Source, h: HostId, ds: seq<Delta>): Option<Inventory>
    decreases |ds|
  {
    if ds == [] then Some(s)
    else
      match ApplyDeltas(s, source, h, ds[..|ds| - 1])
      case None => None
      case Some(t) => var r := ApplyDelta(t, source, h, ds[|ds| - 1]); if r.error.None? then Some(r.inventory) else None
  }

  lemma {:induction false} DeltaShape(s: Inventory, source: Source, h: HostId, d: Delta)
    requires ApplyDelta(s, source, h, d).error.None?
    ensures var t := ApplyDelta(s, source, h, d).inventory;
            && h in s.records && h in t.records && t.records[h].source == source == s.records[h].source
            && t.records[h].revision == s.records[h].revision + 1 == d.revision
            && t == Publish(s.(records := s.records[h := t.records[h]]))
  {
    hide Total, Projection, HasRoom, ValidDevice;
  }

  lemma {:induction false} DeltaConsistent(s: Inventory, source: Source, h: HostId, d: Delta)
    requires Consistent(s) && Entitled(s, source, h)
    ensures Consistent(ApplyDelta(s, source, h, d).inventory)
  {
    hide Consistent, ApplyAdd, ApplyRemove;
    if d.Added? {
      AddConsistent(s, source, h, d.revision, d.device);
    } else {
      RemoveConsistent(s, source, h, d.revision, d.id);
    }
  }

  lemma {:induction false} DeltasShape(s: Inventory, source: Source, h: HostId, ds: seq<Delta>)
    requires Consistent(s) && Entitled(s, source, h) && ApplyDeltas(s, source, h, ds).Some?
    ensures var t := ApplyDeltas(s, source, h, ds).value;
            && Consistent(t) && Entitled(t, source, h) && t.sessions == s.sessions && t.localHost == s.localHost
            && (ds != [] ==>
                  && h in s.records && h in t.records && t.records[h].source == source == s.records[h].source
                  && t.records[h].revision == s.records[h].revision + |ds|
                  && t == Publish(s.(records := s.records[h := t.records[h]])))
    decreases |ds|
  {
    hide Consistent, ApplyDelta, Projection, Total;
    if ds != [] {
      var n := |ds| - 1;
      DeltasShape(s, source, h, ds[..n]);
      var u := ApplyDeltas(s, source, h, ds[..n]).value;
      var t := ApplyDeltas(s, source, h, ds).value;
      DeltaConsistent(u, source, h, ds[n]);
      DeltaShape(u, source, h, ds[n]);
      if ds[..n] != [] {
        assert s.records[h := u.records[h]][h := t.records[h]] == s.records[h := t.records[h]];
      }
    }
  }

  /** Every device map of a consistent record can be sent as a list. */
  lemma {:induction false} Enumerates(h: HostId, devices: map<DeviceId, Device>) returns (listing: seq<Device>)
    requires forall id | id in devices :: devices[id].id == id && ValidDevice(devices[id], h)
    ensures List(h, listing) == Listed(devices)
    decreases |devices|
  {
    if devices == map[] {
      listing := [];
    } else {
      var id :| id in devices;
      assert (devices - {id}).Keys == devices.Keys - {id};
      assert |devices - {id}| == |(devices - {id}).Keys| && |devices| == |devices.Keys|;
      var rest := Enumerates(h, devices - {id});
      listing := rest + [devices[id]];
      assert listing[..|listing| - 1] == rest;
      assert (devices - {id})[id := devices[id]] == devices;
    }
  }

  // ---------------------------------------------------------------- what the deltas say

  /** The devices after some deltas, read off the deltas alone: an addition puts, a removal deletes. */
  function Expected(devices: map<DeviceId, Device>, ds: seq<Delta>): map<DeviceId, Device>
    decreases |ds|
  {
    if ds == [] then devices
    else
      var before := Expected(devices, ds[..|ds| - 1]);
      match ds[|ds| - 1]
      case Added(_, d) => before[d.id := d]
      case Removed(_, id) => before - {id}
  }

  function Named(d: Delta): DeviceId {
    if d.Added? then d.device.id else d.id
  }

  /** The last delta to name a device decides whether it is there; unnamed devices stay as they were. */
  lemma {:induction false} LastDeltaDecides(devices: map<DeviceId, Device>, ds: seq<Delta>, id: DeviceId, last: nat)
    requires last <= |ds| && (forall i | last <= i < |ds| :: Named(ds[i]) != id)
    requires last > 0 ==> Named(ds[last - 1]) == id
    ensures var result := Expected(devices, ds);
            if last == 0 then
              (id in result <==> id in devices) && (id in result ==> result[id] == devices[id])
            else
              (id in result <==> ds[last - 1].Added?) && (id in result ==> result[id] == ds[last - 1].device)
    decreases |ds|
  {
    if ds != [] && last < |ds| { LastDeltaDecides(devices, ds[..|ds| - 1], id, last); }
  }

  /** A delta is accepted exactly from the session the record came through, at the very next revision: a new valid
      device as long as it fits, or the removal of one that is there. */
  lemma {:induction false} DeltaAccepted(s: Inventory, source: Source, h: HostId, d: Delta)
    ensures ApplyDelta(s, source, h, d).error.None? <==>
              && h in s.records && s.records[h].source == source && d.revision == s.records[h].revision + 1
              && (match d
                  case Added(_, x) =>
                    && h != NIL && x.id != NIL && x.host == h && x.named && x.id !in s.records[h].devices
                    && |s.records[h].devices| < s.limits.perHost && Total(s.records) < s.limits.total
                  case Removed(_, id) => id != NIL && id in s.records[h].devices)
  {
    hide Total, Projection;
    if h in s.records {
      TotalPick(s.records, h);
      if d.Added? && d.device.id !in s.records[h].devices {
        var more := s.records[h].devices[d.device.id := d.device];
        assert more.Keys == s.records[h].devices.Keys + {d.device.id};
        assert |more| == |more.Keys| && |s.records[h].devices| == |s.records[h].devices.Keys|;
      }
    }
  }

  lemma {:induction false} DeltaLeaves(s: Inventory, source: Source, h: HostId, d: Delta)
    requires ApplyDelta(s, source, h, d).error.None?
    ensures h in s.records && h in ApplyDelta(s, source, h, d).inventory.records
    ensures ApplyDelta(s, source, h, d).inventory.records[h].devices == Expected(s.records[h].devices, [d])
  {
    hide Total, Projection, HasRoom, ValidDevice;
    assert [d][..0] == [];
  }

  lemma {:induction false} ExpectedLast(devices: map<DeviceId, Device>, ds: seq<Delta>)
    requires ds != []
    ensures Expected(devices, ds) == Expected(Expected(devices, ds[..|ds| - 1]), [ds[|ds| - 1]])
  {
    assert [ds[|ds| - 1]][..0] == [];
  }

  /** Any accepted sequence of deltas ends in exactly the devices the deltas spell out. */
  lemma {:induction false} DeltasLeave(s: Inventory, source: Source, h: HostId, ds: seq<Delta>)
    requires Consistent(s) && Entitled(s, source, h) && h in s.records && ApplyDeltas(s, source, h, ds).Some?
    ensures var t := ApplyDeltas(s, source, h, ds).value;
            h in t.records && t.records[h].devices == Expected(s.records[h].devices, ds)
    decreases |ds|
  {
    hide Consistent, ApplyDelta, Projection, Total, Expected;
    if ds == [] {
      assert Expected(s.records[h].devices, []) == s.records[h].devices by { NothingExpected(s.records[h].devices); }
    } else {
      var n := |ds| - 1;
      DeltasLeave(s, source, h, ds[..n]);
      DeltaLeaves(ApplyDeltas(s, source, h, ds[..n]).value, source, h, ds[n]);
      ExpectedLast(s.records[h].devices, ds);
    }
  }

  lemma {:induction false} NothingExpected(devices: map<DeviceId, Device>)
    ensures Expected(devices, []) == devices
  {
  }

  /** From any full snapshot, any accepted sequence of additions and removals leaves exactly the inventory that one
      full snapshot of the devices they spell out, at the final revision, would have left; and revisions are
      consecutive. */
  lemma {:induction false} DeltasRefineSnapshot(s: Inventory, source: Source, h: HostId, ds: seq<Delta>,
                                                listing: seq<Device>)
    requires Consistent(s) && Entitled(s, source, h) && h in s.records && ds != []
    requires ApplyDeltas(s, source, h, ds).Some?
    requires List(h, listing) == Listed(Expected(s.records[h].devices, ds))
    ensures ApplySnapshot(s, source, h, ds[|ds| - 1].revision, listing)
            == Turn(ApplyDeltas(s, source, h, ds).value, None)
    ensures forall i | 0 <= i < |ds| :: ds[i].revision == s.records[h].revision + 1 + i
  {
    hide ApplyDeltas, List, Projection, Total, Expected, Consistent, ApplySnapshot, Publish, Entitled;
    DeltasLeave(s, source, h, ds);
    DeltasShape(s, source, h, ds);
    forall i | 0 <= i < |ds| ensures ds[i].revision == s.records[h].revision + 1 + i {
      DeltaNumbered(s, source, h, ds, i);
    }
    SnapshotLeaves(s, source, h, ApplyDeltas(s, source, h, ds).value, listing);
  }

  /** A record one step or more ahead is what a snapshot of its devices would have left. */
  lemma {:induction false} SnapshotLeaves(s: Inventory, source: Source, h: HostId, t: Inventory, listing: seq<Device>)
    requires Consistent(t) && h in s.records && h in t.records && t.records[h].source == source == s.records[h].source
    requires t.records[h].revision > s.records[h].revision
    requires t == Publish(s.(records := s.records[h := t.records[h]]))
    requires List(h, listing) == Listed(t.records[h].devices)
    ensures ApplySnapshot(s, source, h, t.records[h].revision, listing) == Turn(t, None)
  {
    ListOk(h, listing);
    hide List, Projection, Total;
    TotalPut(s.records, h, t.records[h]);
    assert RecordOk(t, h, t.records[h]);
  }

  lemma {:induction false} DeltaNumbered(s: Inventory, source: Source, h: HostId, ds: seq<Delta>, i: nat)
    requires Consistent(s) && Entitled(s, source, h) && h in s.records && ApplyDeltas(s, source, h, ds).Some?
             && i < |ds|
    ensures ds[i].revision == s.records[h].revision + 1 + i
    decreases |ds|
  {
    hide Consistent, ApplyDelta, Projection, Total;
    var n := |ds| - 1;
    if i < n {
      DeltaNumbered(s, source, h, ds[..n], i);
    } else {
      DeltasShape(s, source, h, ds[..n]);
      DeltaShape(ApplyDeltas(s, source, h, ds[..n]).value, source, h, ds[n]);
    }
  }

  /** A list is taken in exactly when every device on it is valid and none is on it twice, and then as it stands. */
  lemma {:induction false} ListExactly(h: HostId, devices: seq<Device>)
    ensures var l := List(h, devices);
            && (l.Listed? <==>
                  && (forall d | d in devices :: h != NIL && d.id != NIL && d.host == h && d.named)
                  && (forall i, j | 0 <= i < j < |devices| :: devices[i].id != devices[j].id))
            && (l.Listed? ==> forall id :: id in l.devices <==> exists d | d in devices :: d.id == id)
            && (l.Listed? ==> forall d | d in devices :: d.id in l.devices && l.devices[d.id] == d)
    decreases |devices|
  {
    if devices != [] {
      var n := |devices| - 1;
      ListExactly(h, devices[..n]);
      assert forall d :: d in devices <==> d in devices[..n] || d == devices[n];
    }
  }
}
