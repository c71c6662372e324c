/** Devices of this host and of admitted peers, revision by revision, bound to the exact session they came through. */
module Inventory {
  import opened Base

  // ---------------------------------------------------------------- types

  /** A connection attempt; later attempts compare greater. */
  datatype Generation = Generation(gate: nat, sequence: nat)

  predicate AtMost(a: Generation, b: Generation) {
    a.gate < b.gate || (a.gate == b.gate && a.sequence <= b.sequence)
  }

  datatype Binding = Binding(generation: Generation, localHost: HostId, remoteHost: HostId, remotePeer: nat,
                             fingerprint: nat)

  /** An admitted session as the supervisor presents it. */
  datatype Session = Session(generation: Generation, localHost: HostId, remoteHost: HostId, transportHost: HostId,
                             transportPeer: nat, helloPeer: nat, fingerprint: nat)

  datatype Source = FromHere | FromPeer(binding: Binding)

  /** `named` tells whether the display name is non-blank, short enough and free of control characters. */
  datatype Device = Device(id: DeviceId, host: HostId, named: bool, detail: nat)

  datatype Record = Record(source: Source, revision: U64, devices: map<DeviceId, Device>)

  datatype Slot = Slot(current: Option<Binding>, retired: Option<Binding>, suspended: Option<U64>)

  datatype Limits = Limits(remoteHosts: nat, perHost: nat, total: nat)

  datatype HostView = HostView(host: HostId, revision: U64, devices: map<DeviceId, Device>)

  datatype Published = Published(hosts: map<HostId, HostView>, count: nat)

  datatype Inventory = Inventory(
    localHost: HostId,
    limits: Limits,
    sessions: map<HostId, Slot>,
    closed: bool,
    records: map<HostId, Record>,
    published: Published)

  datatype Error =
    | InvalidConfiguration | InvalidHost | InvalidMessage | InvalidDevice | InvalidRevision | DuplicateDevice
    | DeviceAlreadyExists | DeviceNotFound | CapacityExceeded | StaleRevision | RevisionGap | RevisionExhausted
    | InventoryUnavailable | SessionMismatch

  datatype Turn = Turn(inventory: Inventory, error: Option<Error>)

  const MAX_REMOTE_HOSTS: nat := 256
  const MAX_SNAPSHOT_ITEMS: nat := 256
  const MAX_TOTAL: nat := 4096

  // ---------------------------------------------------------------- counting and projection

  ghost function Total(records: map<HostId, Record>): nat
    decreases |records|
  {
    if records == map[] then 0
    else
      var h :| h in records;
      assert (records - {h}).Keys == records.Keys - {h} && |records - {h}| == |(records - {h}).Keys|
             && |records| == |records.Keys|;
      |records[h].devices| + Total(records - {h})
  }

  ghost function Projection(records: map<HostId, Record>): Published {
    Published(map h | h in records :: HostView(h, records[h].revision, records[h].devices), Total(records))
  }

  ghost function Publish(s: Inventory): Inventory {
    s.(published := Projection(s.records))
  }

  // ---------------------------------------------------------------- creation

  predicate ValidLimits(l: Limits) {
    && 0 < l.remoteHosts <= MAX_REMOTE_HOSTS && 0 < l.perHost <= MAX_SNAPSHOT_ITEMS && 0 < l.total <= MAX_TOTAL
    && l.perHost <= l.total
  }

  function Create(local: HostId, l: Limits): Option<Inventory> {
    if local == NIL || !ValidLimits(l) then None
    else Some(Inventory(local, l, map[], false, map[], Published(map[], 0)))
  }

  // ---------------------------------------------------------------- changes to one host's record

  predicate ValidDevice(d: Device, host: HostId) {
    host != NIL && d.id != NIL && d.host == host && d.named
  }

  datatype Listing = Listed(devices: map<DeviceId, Device>) | Unlistable(error: Error)

  /** The devices as a map, unless one is invalid or listed twice. */
  function List(host: HostId, devices: seq<Device>): Listing
    decreases |devices|
  {
    if devices == [] then Listed(map[])
    else
      var last := devices[|devices| - 1];
      var init := List(host, devices[..|devices| - 1]);
      if init.Unlistable? then init
      else if !ValidDevice(last, host) then Unlistable(InvalidDevice)
      else if last.id in init.devices then Unlistable(DuplicateDevice)
      else Listed(init.devices[last.id := last])
  }

  ghost predicate HasRoom(s: Inventory, host: HostId, count: nat) {
    Total(s.records - {host}) + count <= s.limits.total
  }

  ghost function ApplySnapshot(s: Inventory, source: Source, host: HostId, revision: U64, devices: seq<Device>): Turn {
    if revision == 0 then Turn(s, Some(InvalidRevision))
    else if host in s.records && s.records[host].source != source then Turn(s, Some(SessionMismatch))
    else if host in s.records && revision <= s.records[host].revision then Turn(s, Some(StaleRevision))
    else if |devices| > s.limits.perHost then Turn(s, Some(CapacityExceeded))
    else
      match List(host, devices)
      case Unlistable(error) => Turn(s, Some(error))
      case Listed(candidate) =>
        if !HasRoom(s, host, |candidate|) then Turn(s, Some(CapacityExceeded))
        else Turn(Publish(s.(records := s.records[host := Record(source, revision, candidate)])), None)
  }

  function ExactNext(current: U64, proposed: U64): Option<Error> {
    if proposed == 0 then Some(InvalidRevision)
    else if current == U64_MAX then Some(RevisionExhausted)
    else if proposed < current + 1 then Some(StaleRevision)
    else if proposed > current + 1 then Some(RevisionGap)
    else None
  }

  ghost function ApplyAdd(s: Inventory, source: Source, host: HostId, revision: U64, device: Device): Turn {
    if host !in s.records then Turn(s, Some(InventoryUnavailable))
    else
      var r := s.records[host];
      if r.source != source then Turn(s, Some(SessionMismatch))
      else if ExactNext(r.revision, revision).Some? then Turn(s, ExactNext(r.revision, revision))
      else if !ValidDevice(device, host) then Turn(s, Some(InvalidDevice))
      else if device.id in r.devices then Turn(s, Some(DeviceAlreadyExists))
      else
        var candidate := r.devices[device.id := device];
        if |candidate| > s.limits.perHost || !HasRoom(s, host, |candidate|) then Turn(s, Some(CapacityExceeded))
        else Turn(Publish(s.(records := s.records[host := Record(source, revision, candidate)])), None)
  }

  ghost function ApplyRemove(s: Inventory, source: Source, host: HostId, revision: U64, id: DeviceId): Turn {
    if id == NIL then Turn(s, Some(InvalidDevice))
    else if host !in s.records then Turn(s, Some(InventoryUnavailable))
    else
      var r := s.records[host];
      if r.source != source then Turn(s, Some(SessionMismatch))
      else if ExactNext(r.revision, revision).Some? then Turn(s, ExactNext(r.revision, revision))
      else if id !in r.devices then Turn(s, Some(DeviceNotFound))
      else Turn(Publish(s.(records := s.records[host := Record(source, revision, r.devices - {id})])), None)
  }

  // ---------------------------------------------------------------- sessions

  function Bind(s: Inventory, x: Session): Option<Binding> {
    if || x.localHost != s.localHost || x.remoteHost == NIL || x.remoteHost == x.localHost || x.transportPeer == NIL
       || x.transportHost != x.remoteHost || x.helloPeer != x.transportPeer || x.fingerprint == NIL
    then None
    else Some(Binding(x.generation, x.localHost, x.remoteHost, x.transportPeer, x.fingerprint))
  }

  predicate Active(s: Inventory, b: Binding) {
    b.remoteHost in s.sessions && s.sessions[b.remoteHost].current == Some(b)
  }

  function Activate(s: Inventory, b: Binding): Turn {
    var h := b.remoteHost;
    if s.closed then Turn(s, Some(SessionMismatch))
    else if h in s.sessions then
      var slot := s.sessions[h];
      if slot.current == Some(b) then Turn(s, None)
      else if slot.current.Some? || (slot.retired.Some? && AtMost(b.generation, slot.retired.value.generation)) then
        Turn(s, Some(SessionMismatch))
      else Turn(s.(sessions := s.sessions[h := slot.(current := Some(b), suspended := None)]), None)
    else if |s.sessions| >= s.limits.remoteHosts then Turn(s, Some(CapacityExceeded))
    else Turn(s.(sessions := s.sessions[h := Slot(Some(b), None, None)]), None)
  }

  predicate OwnRecord(s: Inventory, b: Binding) {
    b.remoteHost in s.records && s.records[b.remoteHost].source == FromPeer(b)
  }

  /** The generation is over for good. */
  ghost function Invalidate(s: Inventory, b: Binding): (Inventory, bool) {
    if !Active(s, b) then (s, false)
    else
      var t := s.(sessions := s.sessions[b.remoteHost := Slot(None, Some(b), None)]);
      (if OwnRecord(s, b) then Publish(t.(records := s.records - {b.remoteHost})) else t, true)
  }

  /** The same generation has to publish something strictly newer before it is seen again. */
  ghost function Suspend(s: Inventory, b: Binding): (Inventory, bool) {
    if !Active(s, b) then (s, false)
    else if !OwnRecord(s, b) then (s, true)
    else
      var slot := s.sessions[b.remoteHost];
      var revision := s.records[b.remoteHost].revision;
      var highest := if slot.suspended.Some? && slot.suspended.value > revision then slot.suspended.value else revision;
      (Publish(s.(sessions := s.sessions[b.remoteHost := slot.(suspended := Some(highest))],
                  records := s.records - {b.remoteHost})), true)
  }

  ghost function InvalidateAll(s: Inventory): Inventory {
    Publish(s.(closed := true, sessions := map[],
               records := map h | h in s.records && s.records[h].source == FromHere :: s.records[h]))
  }

  // ---------------------------------------------------------------- messages

  datatype Snapshot = Snapshot(revision: U64, host: HostId, devices: seq<Device>)

  predicate WellFormedDevice(d: Device) {
    d.named && d.id != NIL && d.host != NIL
  }

  predicate WellFormed(m: Snapshot) {
    && m.revision != 0 && m.host != NIL && |m.devices| <= MAX_SNAPSHOT_ITEMS
    && (forall d | d in m.devices :: WellFormedDevice(d) && d.host == m.host)
    && (forall i, j | 0 <= i < j < |m.devices| :: m.devices[i].id != m.devices[j].id)
  }

  ghost function RemoteSnapshot(s: Inventory, b: Binding, m: Snapshot): Turn {
    var h := b.remoteHost;
    if !Active(s, b) then Turn(s, Some(SessionMismatch))
    else if !WellFormed(m) then Turn(s, Some(InvalidMessage))
    else if m.host != h then Turn(s, Some(SessionMismatch))
    else if |m.devices| > s.limits.perHost then Turn(s, Some(CapacityExceeded))
    else
      var slot := s.sessions[h];
      if slot.suspended.Some? && m.revision <= slot.suspended.value then Turn(s, Some(StaleRevision))
      else
        var t := ApplySnapshot(s, FromPeer(b), h, m.revision, m.devices);
        if t.error.Some? then t
        else Turn(t.inventory.(sessions := t.inventory.sessions[h := slot.(suspended := None)]), None)
  }

  ghost function RemoteAdd(s: Inventory, b: Binding, revision: U64, d: Device): Turn {
    if !Active(s, b) then Turn(s, Some(SessionMismatch))
    else if revision == 0 || !WellFormedDevice(d) then Turn(s, Some(InvalidMessage))
    else if d.host != b.remoteHost then Turn(s, Some(SessionMismatch))
    else ApplyAdd(s, FromPeer(b), b.remoteHost, revision, d)
  }

  ghost function RemoteRemove(s: Inventory, b: Binding, revision: U64, host: HostId, id: DeviceId): Turn {
    if !Active(s, b) then Turn(s, Some(SessionMismatch))
    else if revision == 0 || host == NIL || id == NIL then Turn(s, Some(InvalidMessage))
    else if host != b.remoteHost then Turn(s, Some(SessionMismatch))
    else ApplyRemove(s, FromPeer(b), b.remoteHost, revision, id)
  }

  // ---------------------------------------------------------------- operations and runs

  datatype Op =
    | LocalSnapshot(revision: U64, devices: seq<Device>)
    | LocalAdd(revision: U64, device: Device)
    | LocalRemove(revision: U64, id: DeviceId)
    | Activated(session: Session)
    | PeerSnapshot(session: Session, message: Snapshot)
    | PeerAdd(session: Session, revision: U64, device: Device)
    | PeerRemove(session: Session, revision: U64, host: HostId, id: DeviceId)
    | Invalidated(session: Session)
    | Suspended(session: Session)
    | AllInvalidated

  /** An operation made with a session needs a binding first. */
  ghost function Apply(s: Inventory, op: Op): Turn {
    match op
    case LocalSnapshot(r, devices) => ApplySnapshot(s, FromHere, s.localHost, r, devices)
    case LocalAdd(r, d) => ApplyAdd(s, FromHere, s.localHost, r, d)
    case LocalRemove(r, id) => ApplyRemove(s, FromHere, s.localHost, r, id)
    case AllInvalidated => Turn(InvalidateAll(s), None)
    case _ =>
      var b := Bind(s, op.session);
      if b.None? then Turn(s, Some(SessionMismatch))
      else
        match op
        case Activated(_) => Activate(s, b.value)
        case PeerSnapshot(_, m) => RemoteSnapshot(s, b.value, m)
        case PeerAdd(_, r, d) => RemoteAdd(s, b.value, r, d)
        case PeerRemove(_, r, host, id) => RemoteRemove(s, b.value, r, host, id)
        case Invalidated(_) =>
          Turn(Invalidate(s, b.value).0, if Invalidate(s, b.value).1 then None else Some(SessionMismatch))
        case Suspended(_) => Turn(Suspend(s, b.value).0, if Suspend(s, b.value).1 then None else Some(SessionMismatch))
  }

  ghost function Run(s: Inventory, ops: seq<Op>): Inventory
    decreases |ops|
  {
    if ops == [] then s else Apply(Run(s, ops[..|ops| - 1]), ops[|ops| - 1]).inventory
  }
}
