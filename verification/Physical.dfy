/** Pressed controls as the daemon keeps them, per device, and as one map over slots. */
module Physical {
  import opened Base
  import opened Ledger
  import opened Daemon

  type Nested = map<DeviceId, map<Control, Latch>>

  function Flat(n: Nested): map<Slot, Latch> {
    map d, c | d in n && c in n[d] :: Slot(d, c) := n[d][c]
  }

  /** No device is kept without a pressed control. */
  ghost predicate Trim(n: Nested) {
    forall d | d in n :: n[d] != map[]
  }

  lemma {:induction false} FlatAt(n: Nested, s: Slot)
    ensures s in Flat(n) <==> s.device in n && s.control in n[s.device]
    ensures s in Flat(n) ==> Flat(n)[s] == n[s.device][s.control]
  {
    assert s == Slot(s.device, s.control);
  }

  lemma {:induction false} FlatInsert(n: Nested, s: Slot, latch: Latch)
    ensures var inner := if s.device in n then n[s.device] else map[];
            Flat(n[s.device := inner[s.control := latch]]) == Flat(n)[s := latch]
  {
    var inner := if s.device in n then n[s.device] else map[];
    var m := n[s.device := inner[s.control := latch]];
    forall t: Slot
      ensures t in Flat(m) <==> t in Flat(n)[s := latch]
      ensures t in Flat(m) ==> Flat(m)[t] == Flat(n)[s := latch][t]
    {
      FlatAt(n, t);
      FlatAt(m, t);
    }
  }

  lemma {:induction false} FlatRemove(n: Nested, s: Slot, m: Nested)
    requires s.device in n
    requires m == (if n[s.device] - {s.control} == map[] then n - {s.device}
                   else n[s.device := n[s.device] - {s.control}])
    ensures Flat(m) == Flat(n) - {s} && (Trim(n) ==> Trim(m))
  {
    assert forall c | c in n[s.device] && c != s.control :: c in n[s.device] - {s.control};
    forall t: Slot
      ensures t in Flat(m) <==> t in Flat(n) - {s}
      ensures t in Flat(m) ==> Flat(m)[t] == Flat(n)[t]
    {
      FlatAt(n, t);
      FlatAt(m, t);
    }
  }

  lemma {:induction false} FlatForget(n: Nested, d: DeviceId)
    ensures Flat(n - {d}) == map s | s in Flat(n) && s.device != d :: Flat(n)[s]
  {
    forall t: Slot
      ensures t in Flat(n - {d}) <==> t in Flat(n) && t.device != d
      ensures t in Flat(n - {d}) ==> Flat(n - {d})[t] == Flat(n)[t]
    {
      FlatAt(n, t);
      FlatAt(n - {d}, t);
    }
  }

  lemma {:induction false} SlotCount(d: DeviceId, controls: set<Control>, slots: set<Slot>)
    requires forall s: Slot :: s in slots <==> s.device == d && s.control in controls
    ensures |slots| == |controls|
    decreases |controls|
  {
    if controls == {} {
      assert slots == {};
    } else {
      var c :| c in controls;
      SlotCount(d, controls - {c}, slots - {Slot(d, c)});
      assert Slot(d, c) in slots;
    }
  }

  /** What the bounds on pressed controls count. */
  lemma {:induction false} Counts(n: Nested, d: DeviceId)
    requires Trim(n)
    ensures Devices(Flat(n)) == n.Keys
    ensures |SlotsOf(Flat(n), d)| == if d in n then |n[d]| else 0
  {
    forall e | e in n ensures e in Devices(Flat(n)) {
      var c :| c in n[e];
      FlatAt(n, Slot(e, c));
    }
    forall e | e in Devices(Flat(n)) ensures e in n {
      var s :| s in Flat(n) && s.device == e;
      FlatAt(n, s);
    }
    var controls := if d in n then n[d].Keys else {};
    forall s: Slot ensures s in SlotsOf(Flat(n), d) <==> s.device == d && s.control in controls {
      FlatAt(n, s);
    }
    SlotCount(d, controls, SlotsOf(Flat(n), d));
  }

  lemma {:induction false} Insertion(m: map<Slot, Latch>, s: Slot, latch: Latch)
    ensures |m[s := latch]| == if s in m then |m| else |m| + 1
  {
    assert m[s := latch].Keys == m.Keys + {s};
    assert |m| == |m.Keys| && |m[s := latch]| == |m[s := latch].Keys|;
    if s in m { assert m.Keys + {s} == m.Keys; }
  }

  lemma {:induction false} Removal(m: map<Slot, Latch>, s: Slot)
    requires s in m
    ensures |m - {s}| == |m| - 1
  {
    assert (m - {s}).Keys == m.Keys - {s};
    assert |m| == |m.Keys| && |m - {s}| == |(m - {s}).Keys|;
  }

  lemma {:induction false} Forgetting(m: map<Slot, Latch>, d: DeviceId)
    ensures var rest := map s | s in m && s.device != d :: m[s]; |rest| == |m| - |SlotsOf(m, d)|
  {
    var rest := map s | s in m && s.device != d :: m[s];
    assert m.Keys == rest.Keys + SlotsOf(m, d) && rest.Keys !! SlotsOf(m, d);
    assert |m| == |m.Keys| && |rest| == |rest.Keys|;
  }

  /** The same change to every latch, seen either way. */
  lemma {:induction false} FlatMap(n: Nested, m: Nested)
    requires m.Keys == n.Keys && forall d | d in n :: m[d].Keys == n[d].Keys
    ensures Flat(m).Keys == Flat(n).Keys && |Flat(m)| == |Flat(n)| && (Trim(n) ==> Trim(m))
  {
    forall t: Slot ensures t in Flat(m) <==> t in Flat(n) { FlatAt(n, t); FlatAt(m, t); }
    assert Flat(m).Keys == Flat(n).Keys;
    assert |Flat(m)| == |Flat(m).Keys| && |Flat(n)| == |Flat(n).Keys|;
    forall d | d in m && Trim(n) ensures m[d] != map[] { var c :| c in n[d]; assert c in m[d]; }
  }
}
