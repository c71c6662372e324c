/** What the ledger's own operations keep, whatever the rest of the core does. */
module LedgerLemmas {
  import opened Base
  import opened Ledger

  // ---------------------------------------------------------------- queueing

  /** What `added` looks like when it discharges `unowed`, numbered from `id`. */
  ghost predicate Discharges(held: map<HeldKey, Held>, unowed: set<HeldKey>, id: U64, added: seq<Entry>) {
    && (forall i | 0 <= i < |added| ::
          added[i].id == id + i && added[i].key in unowed && added[i].key in held
            && added[i].covered == held[added[i].key].sequence)
    && DistinctKeys(added)
    && Owed(added) == unowed
    && |added| == |unowed|
  }

  lemma {:induction false} ObligationsDischarge(held: map<HeldKey, Held>, unowed: set<HeldKey>, id: U64)
    requires unowed <= held.Keys && id + |unowed| <= U64_MAX
    ensures (forall k | k in Ordered(unowed) :: k in held) && |Ordered(unowed)| == |unowed|
    ensures Discharges(held, unowed, id, Obligations(held, Ordered(unowed), id))
  {
    OrderedVisits(unowed);
    var order := Ordered(unowed);
    hide Ordered;
    var added := Obligations(held, order, id);
    forall i | 0 <= i < |added| ensures added[i].key == order[i] && order[i] in unowed {
      assert order[i] in order;
    }
    forall k | k in unowed ensures k in Owed(added) {
      assert k in order;
      var i :| 0 <= i < |order| && order[i] == k;
      assert added[i] in added && added[i].key == k;
    }
    forall k | k in Owed(added) ensures k in unowed {
      var i :| 0 <= i < |added| && added[i].key == k;
    }
  }

  /** What queueing does: nothing at all, or one new obligation for every picked control without one. */
  ghost predicate Queues(l: Ledger, picked: set<HeldKey>, m: Ledger, added: seq<Entry>) {
    && Discharges(l.held, Unowed(l, picked), l.nextId, added)
    && l.nextId + |added| <= U64_MAX
    && m == l.(cleanup := l.cleanup + added, latches := Quarantine(l.latches, Unowed(l, picked)),
               nextId := l.nextId + |added|)
  }

  lemma {:induction false} QueueEffect(l: Ledger, picked: set<HeldKey>) returns (added: seq<Entry>)
    ensures var q := Queue(l, picked);
            && (q.error.Some? ==> q.ledger == l)
            && (q.error.None? ==> Queues(l, picked, q.ledger, added))
  {
    var unowed := Unowed(l, picked);
    added := [];
    if Queue(l, picked).error.None? {
      OrderedVisits(unowed);
      ObligationsDischarge(l.held, unowed, l.nextId);
      added := Obligations(l.held, Ordered(unowed), l.nextId);
    }
  }

  lemma {:induction false} OwedAppend(a: seq<Entry>, b: seq<Entry>)
    ensures Owed(a + b) == Owed(a) + Owed(b)
  {
    assert forall e :: e in a + b <==> e in a || e in b;
  }

  lemma {:induction false} QueueRefused(l: Ledger, picked: set<HeldKey>)
    ensures Queue(l, picked).error.Some? ==> Queue(l, picked).ledger == l
  {
  }

  lemma {:induction false} QueueNothing(l: Ledger)
    ensures Queue(l, {}).ledger == l
  {
    var unowed := Unowed(l, {});
    assert unowed == {};
    assert Ordered(unowed) == [];
    assert Quarantine(l.latches, {}) == l.latches;
    assert l.cleanup + [] == l.cleanup;
  }

  // ---------------------------------------------------------------- obligations

  /** Identifiers strictly increase front to back and are never handed out again; only the front is lent. */
  ghost predicate Numbered(l: Ledger) {
    && (forall i, j | 0 <= i < j < |l.cleanup| :: l.cleanup[i].id < l.cleanup[j].id)
    && (forall e | e in l.cleanup :: e.id < l.nextId)
    && (l.inFlight.Some? ==> l.cleanup != [] && l.cleanup[0].id == l.inFlight.value)
  }

  lemma {:induction false} QueueNumbered(l: Ledger, picked: set<HeldKey>)
    requires Numbered(l)
    ensures Numbered(Queue(l, picked).ledger)
  {
    hide Queue, Owed, Unowed, Quarantine, DistinctKeys;
    var added := QueueEffect(l, picked);
  }

  lemma {:induction false} WithoutKeeps(c: seq<Entry>, e: Endpoint)
    ensures forall x :: x in Without(c, e) <==> x in c && x.key.endpoint != e
    ensures |Without(c, e)| <= |c|
    ensures c != [] && c[0].key.endpoint != e ==> Without(c, e) != [] && Without(c, e)[0] == c[0]
  {
    if c != [] { WithoutKeeps(c[1..], e); }
  }

  ghost predicate Ascending(c: seq<Entry>) {
    forall i, j | 0 <= i < j < |c| :: c[i].id < c[j].id
  }

  lemma {:induction false} WithoutAscending(c: seq<Entry>, e: Endpoint)
    requires Ascending(c)
    ensures Ascending(Without(c, e))
  {
    if c != [] {
      WithoutAscending(c[1..], e);
      WithoutKeeps(c[1..], e);
      var rest := Without(c[1..], e);
      forall j | 0 <= j < |rest| ensures c[0].id < rest[j].id {
        assert rest[j] in rest;
        assert rest[j] in c[1..];
      }
    }
  }

  lemma {:induction false} InvalidateNumbered(l: Ledger, e: Endpoint)
    requires Numbered(l)
    ensures Numbered(Invalidate(l, e))
  {
    WithoutKeeps(l.cleanup, e);
    WithoutAscending(l.cleanup, e);
  }

  // ---------------------------------------------------------------- coherence

  ghost predicate DistinctKeys(c: seq<Entry>) {
    forall i, j | 0 <= i < j < |c| :: c[i].key != c[j].key
  }

  /** A live remote lifecycle is held remotely under its own route, and its release is nobody's business yet. */
  ghost predicate Coherent(l: Ledger) {
    && (forall s | s in l.latches && l.latches[s].ToRemote? ::
          var k := HeldKey(l.latches[s].endpoint, s.device, s.control);
          k in l.held && l.held[k].route == l.latches[s].route && k !in Owed(l.cleanup))
    && DistinctKeys(l.cleanup)
    && Owed(l.cleanup) <= l.held.Keys
  }

  lemma {:induction false} OwedCount(c: seq<Entry>)
    requires DistinctKeys(c)
    ensures |Owed(c)| == |c|
  {
    if c != [] {
      var n := |c| - 1;
      OwedCount(c[..n]);
      assert c[n].key !in Owed(c[..n]);
      assert Owed(c) == Owed(c[..n]) + {c[n].key} by {
        forall k | k in Owed(c) ensures k in Owed(c[..n]) + {c[n].key} {
          var i :| 0 <= i < |c| && c[i].key == k;
          if i < n { assert c[..n][i] in c[..n]; }
        }
        assert c[n] in c;
      }
    }
  }

  lemma {:induction false} Fits(a: set<HeldKey>, b: set<HeldKey>, c: set<HeldKey>)
    requires a !! b && a <= c && b <= c
    ensures |a| + |b| <= |c|
  {
    assert |a + b| <= |c| by { Smaller(a + b, c); }
  }

  lemma {:induction false} Smaller(a: set<HeldKey>, b: set<HeldKey>)
    requires a <= b
    ensures |a| <= |b|
  {
    if a != {} {
      var x :| x in a;
      Smaller(a - {x}, b - {x});
    }
  }

  /** Distinct obligations for held controls always fit: only the identifiers can run out. */
  lemma {:induction false} QueueRoom(l: Ledger, picked: set<HeldKey>)
    requires DistinctKeys(l.cleanup) && Owed(l.cleanup) <= l.held.Keys && |l.held| <= MAX_REMOTE_HELD
    ensures Queue(l, picked).error.Some? <==> l.nextId + |Unowed(l, picked)| > U64_MAX
    ensures Queue(l, picked).error.Some? ==> Queue(l, picked).error.value == IdentifiersExhausted
  {
    OwedCount(l.cleanup);
    Fits(Owed(l.cleanup), Unowed(l, picked), l.held.Keys);
    OrderedVisits(Unowed(l, picked));
  }

  lemma {:induction false} DistinctAppend(a: seq<Entry>, b: seq<Entry>)
    requires DistinctKeys(a) && DistinctKeys(b) && Owed(a) !! Owed(b)
    ensures DistinctKeys(a + b)
  {
    forall i, j | 0 <= i < |a| && 0 <= j < |b| ensures a[i].key != b[j].key {
      assert a[i] in a && b[j] in b;
      assert a[i].key in Owed(a) && b[j].key in Owed(b);
    }
  }

  lemma {:induction false} QueueCoherent(l: Ledger, picked: set<HeldKey>)
    requires Coherent(l)
    ensures Coherent(Queue(l, picked).ledger)
  {
    var added := QueueEffect(l, picked);
    var m := Queue(l, picked).ledger;
    if Queue(l, picked).error.None? {
      hide Queue, Owed, DistinctKeys;
      OwedAppend(l.cleanup, added);
      DistinctAppend(l.cleanup, added);
      forall s | s in m.latches && m.latches[s].ToRemote?
        ensures var k := HeldKey(m.latches[s].endpoint, s.device, s.control);
                k in m.held && m.held[k].route == m.latches[s].route && k !in Owed(m.cleanup)
      {
        assert l.latches[s] == m.latches[s];
      }
    }
  }

  lemma {:induction false} InvalidateCoherent(l: Ledger, e: Endpoint)
    requires Coherent(l)
    ensures Coherent(Invalidate(l, e))
  {
    WithoutKeeps(l.cleanup, e);
    WithoutDistinct(l.cleanup, e);
    var m := Invalidate(l, e);
    forall k | k in Owed(m.cleanup) ensures k in m.held && k in Owed(l.cleanup) {
      var x :| x in m.cleanup && x.key == k;
      assert x in l.cleanup;
    }
  }

  lemma {:induction false} WithoutDistinct(c: seq<Entry>, e: Endpoint)
    requires DistinctKeys(c)
    ensures DistinctKeys(Without(c, e))
  {
    if c != [] {
      WithoutDistinct(c[1..], e);
      WithoutKeeps(c[1..], e);
      var rest := Without(c[1..], e);
      forall j | 0 <= j < |rest| ensures c[0].key != rest[j].key {
        assert rest[j] in rest && rest[j] in c[1..];
      }
    }
  }

  lemma {:induction false} ReleasedCoherent(l: Ledger)
    requires Coherent(l) && l.cleanup != []
    ensures Coherent(Released(l))
  {
    var m := Released(l);
    var k := l.cleanup[0].key;
    assert l.cleanup[0] in l.cleanup;
    forall j | j in Owed(m.cleanup) ensures j in Owed(l.cleanup) && j != k {
      var i :| 0 <= i < |m.cleanup| && m.cleanup[i].key == j;
      assert m.cleanup[i] == l.cleanup[i + 1] && l.cleanup[i + 1] in l.cleanup;
    }
  }

  // ---------------------------------------------------------------- nothing stuck

  /** Every control held remotely either has its release owed or still has its lifecycle open here. */
  ghost predicate Accounted(l: Ledger) {
    forall k | k in l.held :: k in Owed(l.cleanup) || Open(l, k)
  }

  ghost predicate Open(l: Ledger, k: HeldKey) {
    SlotOf(k) in l.latches && l.latches[SlotOf(k)].ToRemote? && l.latches[SlotOf(k)].endpoint == k.endpoint
  }

  lemma {:induction false} QueueAccounted(l: Ledger, picked: set<HeldKey>)
    requires Accounted(l)
    ensures Accounted(Queue(l, picked).ledger)
  {
    var added := QueueEffect(l, picked);
    hide Queue;
    OwedAppend(l.cleanup, added);
    forall k | k in l.held && Open(l, k) && k !in Unowed(l, picked)
      ensures Queue(l, picked).error.None? ==> Open(Queue(l, picked).ledger, k)
    {
    }
  }

  /** Queueing everything, when it succeeds, leaves no held control without a release owed. */
  lemma {:induction false} QueueAll(l: Ledger)
    requires Queue(l, l.held.Keys).error.None?
    ensures var m := Queue(l, l.held.Keys).ledger;
            m.held == l.held && m.held.Keys <= Owed(m.cleanup) && Accounted(m)
  {
    var added := QueueEffect(l, l.held.Keys);
    OwedAppend(l.cleanup, added);
  }

  lemma {:induction false} InvalidateAccounted(l: Ledger, e: Endpoint)
    requires Accounted(l)
    ensures Accounted(Invalidate(l, e))
    ensures l.held.Keys <= Owed(l.cleanup) ==> Invalidate(l, e).held.Keys <= Owed(Invalidate(l, e).cleanup)
  {
    WithoutKeeps(l.cleanup, e);
    var m := Invalidate(l, e);
    forall k | k in m.held && k in Owed(l.cleanup) ensures k in Owed(m.cleanup) {
      var x :| x in l.cleanup && x.key == k;
      assert x in m.cleanup;
    }
    forall k | k in m.held && Open(l, k) ensures Open(m, k) {
    }
  }

  lemma {:induction false} ReleasedAccounted(l: Ledger)
    requires l.cleanup != []
    ensures Accounted(l) ==> Accounted(Released(l))
    ensures l.held.Keys <= Owed(l.cleanup) ==> Released(l).held.Keys <= Owed(Released(l).cleanup)
  {
    var m := Released(l);
    forall k | k in m.held && k in Owed(l.cleanup) ensures k in Owed(m.cleanup) {
      var i :| 0 <= i < |l.cleanup| && l.cleanup[i].key == k;
      assert l.cleanup[i] == m.cleanup[i - 1] && m.cleanup[i - 1] in m.cleanup;
    }
    assert forall k | k in m.held && Open(l, k) :: Open(m, k);
  }
}
