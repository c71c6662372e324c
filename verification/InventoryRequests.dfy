/** Exactly when the inventory takes something in, and what it then shows. */
module InventoryRequests {
  import opened Base
  import opened Inventory
  import opened InventoryRuns
  import opened InventoryDeltas

  /** An inventory needs a host of its own and bounds of at most 256 peers, 256 devices each and 4096 in all. */
  lemma {:induction false} CreatesExactly(local: HostId, l: Limits)
    ensures var s := Create(local, l);
            && (s.Some? <==>
                  local != NIL && 1 <= l.remoteHosts <= 256 && 1 <= l.perHost <= 256 && l.perHost <= l.total <= 4096)
            && (s.Some? ==> s.value.localHost == local && s.value.limits == l && !s.value.closed)
            && (s.Some? ==>
                 s.value.records == map[] && s.value.sessions == map[] && s.value.published == Projection(map[]))
  {
    assert Projection(map[]).hosts == map[];
  }

  /** Devices of one host as they may be listed: valid, each once. */
  ghost predicate Listable(h: HostId, devices: seq<Device>) {
    && (forall d | d in devices :: h != NIL && d.id != NIL && d.host == h && d.named)
    && (forall i, j | 0 <= i < j < |devices| :: devices[i].id != devices[j].id)
  }

  /** The record holds exactly the devices listed. */
  ghost predicate Shows(r: Record, source: Source, revision: U64, devices: seq<Device>) {
    && r.source == source && r.revision == revision
    && (forall id :: id in r.devices <==> exists d | d in devices :: d.id == id)
    && (forall d | d in devices :: d.id in r.devices && r.devices[d.id] == d)
  }

  /** A list replaces a host's record exactly if it is numbered, newer than the record it replaces and from the same
      source, listable, and within the bounds together with all other hosts; then exactly it is shown. */
  lemma {:induction false} SnapshotTaken(s: Inventory, source: Source, h: HostId, revision: U64, devices: seq<Device>)
    ensures var t := ApplySnapshot(s, source, h, revision, devices);
            && (t.error.None? <==>
                  && revision != 0
                  && (h in s.records ==> s.records[h].source == source && s.records[h].revision < revision)
                  && Listable(h, devices) && |devices| <= s.limits.perHost
                  && Total(s.records - {h}) + |devices| <= s.limits.total)
            && (t.error.None? ==>
                  && h in t.inventory.records && Shows(t.inventory.records[h], source, revision, devices)
                  && t.inventory.records - {h} == s.records - {h} && t.inventory.sessions == s.sessions
                  && t.inventory.published == Projection(t.inventory.records))
            && (t.error.Some? ==> t.inventory == s)
  {
    ListExactly(h, devices);
    ListOk(h, devices);
    hide List, Total, Projection;
  }

  /** A peer's list is taken in exactly through its current session, under its own name, well formed and newer than
      whatever was suspended; a suspension is then over. */
  lemma {:induction false} PeerSnapshotTaken(s: Inventory, b: Binding, m: Snapshot)
    requires Consistent(s)
    ensures var t := RemoteSnapshot(s, b, m);
            var h := b.remoteHost;
            && (t.error.None? <==>
                  && h in s.sessions && s.sessions[h].current == Some(b) && m.host == h && h != NIL && m.revision != 0
                  && (s.sessions[h].suspended.Some? ==> s.sessions[h].suspended.value < m.revision)
                  && (h in s.records ==> s.records[h].source == FromPeer(b) && s.records[h].revision < m.revision)
                  && Listable(h, m.devices) && |m.devices| <= s.limits.perHost
                  && Total(s.records - {h}) + |m.devices| <= s.limits.total)
            && (t.error.None? ==>
                  && h in t.inventory.records && Shows(t.inventory.records[h], FromPeer(b), m.revision, m.devices)
                  && t.inventory.sessions == s.sessions[h := s.sessions[h].(suspended := None)]
                  && t.inventory.records - {h} == s.records - {h})
  {
    SnapshotTaken(s, FromPeer(b), b.remoteHost, m.revision, m.devices);
    BoundsFit(s);
    WellFormedRead(m);
    hide ApplySnapshot, Total, Shows, Projection, WellFormed, Listable, Consistent;
  }

  lemma {:induction false} WellFormedRead(m: Snapshot)
    ensures WellFormed(m) <==>
              m.revision != 0 && m.host != NIL && |m.devices| <= MAX_SNAPSHOT_ITEMS && Listable(m.host, m.devices)
  {
  }

  lemma {:induction false} BoundsFit(s: Inventory)
    requires Consistent(s)
    ensures s.limits.perHost <= MAX_SNAPSHOT_ITEMS
  {
    hide Total, Projection;
  }

  /** A peer's single addition or removal is taken in exactly through its current session and under its own name, as the
      delta it is. */
  lemma {:induction false} PeerDeltaTaken(s: Inventory, b: Binding, revision: U64, d: Device, host: HostId,
                                          id: DeviceId)
    ensures var t := RemoteAdd(s, b, revision, d);
            && (t.error.None? <==>
                  Active(s, b) && d.host == b.remoteHost
                  && ApplyDelta(s, FromPeer(b), b.remoteHost, Added(revision, d)).error.None?)
            && (t.error.None? ==> t == ApplyDelta(s, FromPeer(b), b.remoteHost, Added(revision, d)))
            && (t.error.Some? ==> t.inventory == s)
    ensures var t := RemoteRemove(s, b, revision, host, id);
            && (t.error.None? <==>
                  Active(s, b) && host == b.remoteHost && host != NIL
                  && ApplyDelta(s, FromPeer(b), b.remoteHost, Removed(revision, id)).error.None?)
            && (t.error.None? ==> t == ApplyDelta(s, FromPeer(b), b.remoteHost, Removed(revision, id)))
            && (t.error.Some? ==> t.inventory == s)
  {
    DeltaAccepted(s, FromPeer(b), b.remoteHost, Added(revision, d));
    DeltaAccepted(s, FromPeer(b), b.remoteHost, Removed(revision, id));
    hide Total, Projection, HasRoom;
  }

  /** Later in the order of attempts: by gate first, then by sequence within it. */
  predicate Later(a: Generation, b: Generation) {
    if a.gate == b.gate then a.sequence > b.sequence else a.gate > b.gate
  }

  /** A session becomes current exactly if it already is, or the inventory is open, the host has no current session and
      this one is later than the one retired, or the host is new and there is room for it. */
  lemma {:induction false} ActivatesExactly(s: Inventory, b: Binding)
    ensures var t := Activate(s, b);
            var h := b.remoteHost;
            && (t.error.None? <==>
                  && !s.closed
                  && if h in s.sessions then
                       || s.sessions[h].current == Some(b)
                       || (s.sessions[h].current.None?
                           && (s.sessions[h].retired.Some? ==>
                                Later(b.generation, s.sessions[h].retired.value.generation)))
                     else |s.sessions| < s.limits.remoteHosts)
            && (t.error.None? ==>
                  && h in t.inventory.sessions && t.inventory.sessions[h].current == Some(b)
                  && t.inventory.sessions - {h} == s.sessions - {h}
                  && (h in s.sessions ==> t.inventory.sessions[h].retired == s.sessions[h].retired)
                  && (h in s.sessions && s.sessions[h].current.None? ==> t.inventory.sessions[h].suspended.None?))
            && t.inventory == s.(sessions := t.inventory.sessions)
            && (t.error.Some? ==> t.inventory == s)
  {
  }

  /** Only a session between this host and another, whose transport and greeting agree on the peer, has a binding, and
      that names it fully. */
  lemma {:induction false} BindsExactly(s: Inventory, x: Session)
    ensures var b := Bind(s, x);
            && (b.Some? <==>
                  && x.localHost == s.localHost && x.remoteHost != NIL && x.remoteHost != s.localHost
                  && x.transportHost == x.remoteHost && x.transportPeer == x.helloPeer && x.helloPeer != NIL
                  && x.fingerprint != NIL)
            && (b.Some? ==> b.value == Binding(x.generation, s.localHost, x.remoteHost, x.helloPeer, x.fingerprint))
  {
  }

  /** Ending a session retires it and withdraws its record; suspending it withdraws the record and keeps the highest
      revision it ever showed as the floor for its return; closing keeps this host's own record alone. */
  lemma {:induction false} EndsExactly(s: Inventory, b: Binding)
    ensures var (t, done) := Invalidate(s, b);
            var own := b.remoteHost in s.records && s.records[b.remoteHost].source == FromPeer(b);
            && (done <==> Active(s, b))
            && (done ==> t.sessions == s.sessions[b.remoteHost := Slot(None, Some(b), None)])
            && (done ==> t.records == (if own then s.records - {b.remoteHost} else s.records))
            && (!done ==> t == s)
    ensures var (t, done) := Suspend(s, b);
            var own := b.remoteHost in s.records && s.records[b.remoteHost].source == FromPeer(b);
            && (done <==> Active(s, b))
            && (done && own ==>
                  && t.records == s.records - {b.remoteHost} && b.remoteHost in t.sessions
                  && t.sessions - {b.remoteHost} == s.sessions - {b.remoteHost}
                  && var slot := t.sessions[b.remoteHost];
                     && slot.current == Some(b) && slot.retired == s.sessions[b.remoteHost].retired
                     && slot.suspended.Some?
                     && slot.suspended.value >= s.records[b.remoteHost].revision
                     && (s.sessions[b.remoteHost].suspended.Some? ==>
                          slot.suspended.value >= s.sessions[b.remoteHost].suspended.value)
                     && (slot.suspended == s.sessions[b.remoteHost].suspended
                         || slot.suspended.value == s.records[b.remoteHost].revision))
            && (!(done && own) ==> t == s)
    ensures var t := InvalidateAll(s);
            && t.closed && t.sessions == map[]
            && (forall h :: h in t.records <==> h in s.records && s.records[h].source == FromHere)
            && (forall h | h in t.records :: t.records[h] == s.records[h])
  {
    hide Total, Projection;
  }
}
