/** The inventory as the daemon keeps it: maps updated in place, loops that check, count and publish. */
module DeviceInventory {
  import opened Base
  import opened Inventory
  import I = Inventory
  import opened InventoryRuns

  class Table {
    const localHost: HostId
    const limits: Limits
    var sessions: map<HostId, Slot>
    var closed: bool
    var records: map<HostId, Record>
    var published: Published

    function State(): I.Inventory
      reads this
    {
      I.Inventory.Inventory(localHost, limits, sessions, closed, records, published)
    }

    constructor (local: HostId, l: Limits)
      requires Create(local, l).Some?
      ensures Create(local, l) == Some(State())
    {
      localHost, limits := local, l;
      sessions, closed, records, published := map[], false, map[], Published(map[], 0);
    }

    method PublishRecords()
      modifies this`published
      ensures State() == Publish(old(State()))
    {
      hide Projection;
      var hosts, count := Collect();
      published := Published(hosts, count);
    }

    /** Host by host, what there is to show and how much of it. */
    method Collect() returns (hosts: map<HostId, HostView>, count: nat)
      ensures Published(hosts, count) == Projection(records)
    {
      hide Total, Projection, Views;
      hosts, count := map[], 0;
      var left := records;
      TotalNone();
      NothingViewed(records);
      while left != map[]
        invariant Views(records, left, hosts)
        invariant count + Total(left) == Total(records)
        decreases |left|
      {
        var h :| h in left;
        Fewer(left, h);
        TotalPick(left, h);
        ViewsMore(records, left, hosts, h);
        count := count + |left[h].devices|;
        hosts := hosts[h := HostView(h, left[h].revision, left[h].devices)];
        left := left - {h};
      }
      AllViewed(records, hosts);
    }

    method EnsureTotalCapacity(replacing: HostId, count: nat) returns (room: bool)
      ensures room == HasRoom(State(), replacing, count)
    {
      hide Total;
      var elsewhere := 0;
      var left := records - {replacing};
      TotalNone();
      while left != map[]
        invariant elsewhere + Total(left) == Total(records - {replacing})
        decreases |left|
      {
        var h :| h in left;
        Fewer(left, h);
        TotalPick(left, h);
        elsewhere := elsewhere + |left[h].devices|;
        left := left - {h};
      }
      room := elsewhere + count <= limits.total;
    }

    method ValidateCandidate(host: HostId, devices: seq<Device>) returns (r: Listing)
      ensures r == if |devices| > limits.perHost then Unlistable(CapacityExceeded) else List(host, devices)
    {
      if |devices| > limits.perHost {
        return Unlistable(CapacityExceeded);
      }
      var candidate: map<DeviceId, Device> := map[];
      var i := 0;
      while i < |devices|
        invariant 0 <= i <= |devices|
        invariant List(host, devices[..i]) == Listed(candidate)
      {
        ListStep(host, devices, i);
        var d := devices[i];
        if !ValidDevice(d, host) {
          ListFails(host, devices, i + 1);
          return Unlistable(InvalidDevice);
        }
        if d.id in candidate {
          ListFails(host, devices, i + 1);
          return Unlistable(DuplicateDevice);
        }
        candidate := candidate[d.id := d];
        i := i + 1;
      }
      assert devices[..i] == devices;
      return Listed(candidate);
    }

    method ApplySnapshotFrom(source: Source, host: HostId, revision: U64, devices: seq<Device>)
      returns (error: Option<Error>)
      modifies this`records, this`published
      ensures ApplySnapshot(old(State()), source, host, revision, devices) == Turn(State(), error)
    {
      hide Total, Projection, List, HasRoom;
      if revision == 0 {
        return Some(InvalidRevision);
      }
      if host in records {
        if records[host].source != source {
          return Some(SessionMismatch);
        }
        if revision <= records[host].revision {
          return Some(StaleRevision);
        }
      }
      var candidate := ValidateCandidate(host, devices);
      if candidate.Unlistable? {
        return Some(candidate.error);
      }
      var room := EnsureTotalCapacity(host, |candidate.devices|);
      if !room {
        return Some(CapacityExceeded);
      }
      records := records[host := Record(source, revision, candidate.devices)];
      PublishRecords();
      return None;
    }

    method ApplyAddFrom(source: Source, host: HostId, revision: U64, device: Device) returns (error: Option<Error>)
      modifies this`records, this`published
      ensures ApplyAdd(old(State()), source, host, revision, device) == Turn(State(), error)
    {
      hide Total, Projection, HasRoom, ValidDevice;
      if host !in records {
        return Some(InventoryUnavailable);
      }
      var existing := records[host];
      if existing.source != source {
        return Some(SessionMismatch);
      }
      var inexact := ExactNext(existing.revision, revision);
      if inexact.Some? {
        return inexact;
      }
      if !ValidDevice(device, host) {
        return Some(InvalidDevice);
      }
      if device.id in existing.devices {
        return Some(DeviceAlreadyExists);
      }
      var candidate := existing.devices[device.id := device];
      if |candidate| > limits.perHost {
        return Some(CapacityExceeded);
      }
      var room := EnsureTotalCapacity(host, |candidate|);
      if !room {
        return Some(CapacityExceeded);
      }
      records := records[host := Record(source, revision, candidate)];
      PublishRecords();
      return None;
    }

    method ApplyRemoveFrom(source: Source, host: HostId, revision: U64, id: DeviceId) returns (error: Option<Error>)
      modifies this`records, this`published
      ensures ApplyRemove(old(State()), source, host, revision, id) == Turn(State(), error)
    {
      hide Total, Projection;
      if id == NIL {
        return Some(InvalidDevice);
      }
      if host !in records {
        return Some(InventoryUnavailable);
      }
      var existing := records[host];
      if existing.source != source {
        return Some(SessionMismatch);
      }
      var inexact := ExactNext(existing.revision, revision);
      if inexact.Some? {
        return inexact;
      }
      if id !in existing.devices {
        return Some(DeviceNotFound);
      }
      records := records[host := Record(source, revision, existing.devices - {id})];
      PublishRecords();
      return None;
    }

    method ActivateBinding(b: Binding) returns (error: Option<Error>)
      modifies this`sessions
      ensures Activate(old(State()), b) == Turn(State(), error)
    {
      var h := b.remoteHost;
      if closed {
        return Some(SessionMismatch);
      }
      var slot := Slot(None, None, None);
      if h in sessions {
        slot := sessions[h];
        if slot.current == Some(b) {
          return None;
        }
        if slot.current.Some? || (slot.retired.Some? && AtMost(b.generation, slot.retired.value.generation)) {
          return Some(SessionMismatch);
        }
      } else if |sessions| >= limits.remoteHosts {
        return Some(CapacityExceeded);
      }
      slot := slot.(current := Some(b));
      slot := slot.(suspended := None);
      sessions := sessions[h := slot];
      return None;
    }

    method InvalidateBinding(b: Binding) returns (done: bool)
      modifies this`sessions, this`records, this`published
      ensures Invalidate(old(State()), b) == (State(), done)
    {
      hide Total, Projection;
      var h := b.remoteHost;
      if h !in sessions || sessions[h].current != Some(b) {
        return false;
      }
      sessions := sessions[h := Slot(None, Some(b), None)];
      if h in records && records[h].source == FromPeer(b) {
        records := records - {h};
        PublishRecords();
      }
      return true;
    }

    method SuspendBinding(b: Binding) returns (done: bool)
      modifies this`sessions, this`records, this`published
      ensures Suspend(old(State()), b) == (State(), done)
    {
      hide Total, Projection;
      var h := b.remoteHost;
      if h !in sessions || sessions[h].current != Some(b) {
        return false;
      }
      if h in records && records[h].source == FromPeer(b) {
        var slot := sessions[h];
        var highest := records[h].revision;
        if slot.suspended.Some? && slot.suspended.value > highest {
          highest := slot.suspended.value;
        }
        sessions := sessions[h := slot.(suspended := Some(highest))];
        records := records - {h};
        PublishRecords();
      }
      return true;
    }

    method InvalidateAllRemote()
      modifies this`closed, this`sessions, this`records, this`published
      ensures State() == InvalidateAll(old(State()))
    {
      hide Total, Projection;
      closed := true;
      sessions := map[];
      records := map h | h in records && records[h].source == FromHere :: records[h];
      PublishRecords();
    }

    method ApplyRemoteSnapshot(b: Binding, m: Snapshot) returns (error: Option<Error>)
      modifies this`sessions, this`records, this`published
      ensures RemoteSnapshot(old(State()), b, m) == Turn(State(), error)
    {
      hide ApplySnapshot, WellFormed;
      var h := b.remoteHost;
      if h !in sessions || sessions[h].current != Some(b) {
        return Some(SessionMismatch);
      }
      if !WellFormed(m) {
        return Some(InvalidMessage);
      }
      if m.host != h {
        return Some(SessionMismatch);
      }
      if |m.devices| > limits.perHost {
        return Some(CapacityExceeded);
      }
      if sessions[h].suspended.Some? && m.revision <= sessions[h].suspended.value {
        return Some(StaleRevision);
      }
      error := ApplySnapshotFrom(FromPeer(b), h, m.revision, m.devices);
      if error.None? {
        sessions := sessions[h := sessions[h].(suspended := None)];
      }
    }

    method ApplyRemoteAdd(b: Binding, revision: U64, d: Device) returns (error: Option<Error>)
      modifies this`records, this`published
      ensures RemoteAdd(old(State()), b, revision, d) == Turn(State(), error)
    {
      hide ApplyAdd;
      if b.remoteHost !in sessions || sessions[b.remoteHost].current != Some(b) {
        return Some(SessionMismatch);
      }
      if revision == 0 || !WellFormedDevice(d) {
        return Some(InvalidMessage);
      }
      if d.host != b.remoteHost {
        return Some(SessionMismatch);
      }
      error := ApplyAddFrom(FromPeer(b), b.remoteHost, revision, d);
    }

    method ApplyRemoteRemove(b: Binding, revision: U64, host: HostId, id: DeviceId) returns (error: Option<Error>)
      modifies this`records, this`published
      ensures RemoteRemove(old(State()), b, revision, host, id) == Turn(State(), error)
    {
      hide ApplyRemove;
      if b.remoteHost !in sessions || sessions[b.remoteHost].current != Some(b) {
        return Some(SessionMismatch);
      }
      if revision == 0 || host == NIL || id == NIL {
        return Some(InvalidMessage);
      }
      if host != b.remoteHost {
        return Some(SessionMismatch);
      }
      error := ApplyRemoveFrom(FromPeer(b), b.remoteHost, revision, id);
    }

    /** A device is shown only to the very session that owns the record it is in. */
    method RemoteDevice(b: Binding, id: DeviceId) returns (device: Option<Device>, error: Option<Error>)
      ensures device.Some? <==> error.None?
      ensures device.Some? <==>
                id != NIL && Active(State(), b) && OwnRecord(State(), b) && id in records[b.remoteHost].devices
      ensures device.Some? ==> device.value == records[b.remoteHost].devices[id]
    {
      if id == NIL {
        return None, Some(InvalidDevice);
      }
      if b.remoteHost !in sessions || sessions[b.remoteHost].current != Some(b) {
        return None, Some(SessionMismatch);
      }
      if b.remoteHost !in records || records[b.remoteHost].source != FromPeer(b) {
        return None, Some(InventoryUnavailable);
      }
      if id !in records[b.remoteHost].devices {
        return None, Some(DeviceNotFound);
      }
      return Some(records[b.remoteHost].devices[id]), None;
    }
  }

  lemma {:induction false} TotalNone()
    ensures Total(map[]) == 0
  {
  }

  lemma {:induction false} ListStep(host: HostId, devices: seq<Device>, i: nat)
    requires i < |devices|
    ensures devices[..i + 1][..i] == devices[..i] && devices[..i + 1][i] == devices[i]
  {
  }

  lemma {:induction false} ListFails(host: HostId, devices: seq<Device>, i: nat)
    requires i <= |devices| && List(host, devices[..i]).Unlistable?
    ensures List(host, devices) == List(host, devices[..i])
    decreases |devices| - i
  {
    if i < |devices| {
      assert devices[..i + 1][..i] == devices[..i];
      ListFails(host, devices, i + 1);
    } else {
      assert devices[..i] == devices;
    }
  }

  /** `hosts` shows exactly the records not among those left. */
  ghost predicate Views(records: map<HostId, Record>, left: map<HostId, Record>, hosts: map<HostId, HostView>) {
    && (forall h | h in left :: h in records && left[h] == records[h])
    && (forall h :: h in hosts <==> h in records && h !in left)
    && (forall h | h in hosts :: hosts[h] == HostView(h, records[h].revision, records[h].devices))
  }

  lemma {:induction false} NothingViewed(records: map<HostId, Record>)
    ensures Views(records, records, map[])
  {
  }

  lemma {:induction false} ViewsMore(records: map<HostId, Record>, left: map<HostId, Record>,
                                     hosts: map<HostId, HostView>, h: HostId)
    requires Views(records, left, hosts) && h in left
    ensures Views(records, left - {h}, hosts[h := HostView(h, left[h].revision, left[h].devices)])
  {
  }

  lemma {:induction false} AllViewed(records: map<HostId, Record>, hosts: map<HostId, HostView>)
    requires Views(records, map[], hosts)
    ensures Published(hosts, Total(records)) == Projection(records)
  {
    hide Total;
    assert hosts.Keys == records.Keys;
  }
}
