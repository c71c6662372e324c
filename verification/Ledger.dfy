/**
 The held-input ledger: which physical controls are down and where their lifecycle was
 sent, which controls are held on which remote endpoint, and which releases are owed.
 */
module Ledger {
  import opened Base
  import KeyOrder

  // ---------------------------------------------------------------- identities

  /** One admitted transport session of a peer; a host identity alone is not an endpoint. */
  datatype Endpoint = Endpoint(peer: nat, host: HostId, generation: nat, version: nat, session: nat)

  datatype KeyCode =
    | ControlLeft | ControlRight | AltLeft | AltRight | ShiftLeft | ShiftRight | MetaLeft | MetaRight
    | Backspace | Escape | Unidentified(page: nat, usage: nat) | Named(ordinal: nat)

  datatype Control = Key(code: KeyCode) | Button(button: nat)

  datatype Route = LocalOnly | FollowActiveHost | ToHost(host: HostId)

  /** A physical control of a physical device. */
  datatype Slot = Slot(device: DeviceId, control: Control)

  /** A control held on a remote endpoint on behalf of a local device. */
  datatype HeldKey = HeldKey(endpoint: Endpoint, device: DeviceId, control: Control)

  function SlotOf(k: HeldKey): Slot {
    Slot(k.device, k.control)
  }

  // ---------------------------------------------------------------- ledger

  /** Where the current lifecycle of a pressed control goes. */
  datatype Latch = ToLocal | ToRemote(endpoint: Endpoint, route: Route) | Quarantined

  datatype Held = Held(route: Route, sequence: U64)

  /** A release owed to an endpoint, covering input up to a sequence number. */
  datatype Entry = Entry(id: U64, key: HeldKey, covered: U64)

  datatype Ledger = Ledger(
    latches: map<Slot, Latch>,
    held: map<HeldKey, Held>,
    cleanup: seq<Entry>,
    inFlight: Option<U64>,
    nextId: U64)

  const MAX_REMOTE_HELD: nat := 1024
  const MAX_CLEANUP: nat := 1024

  datatype Error = Unavailable | CapacityExceeded | StaleDecision | StaleCleanup | CleanupPending | IdentifiersExhausted

  function Owed(cleanup: seq<Entry>): set<HeldKey> {
    set e | e in cleanup :: e.key
  }

  predicate Pending(l: Ledger) {
    l.cleanup != [] || l.inFlight.Some?
  }

  // ---------------------------------------------------------------- ordered traversal of held controls

  function KeyRank(c: KeyCode): seq<nat> {
    match c
    case ControlLeft => [0] case ControlRight => [1] case AltLeft => [2] case AltRight => [3]
    case ShiftLeft => [4] case ShiftRight => [5] case MetaLeft => [6] case MetaRight => [7]
    case Backspace => [8] case Escape => [9]
    case Unidentified(page, usage) => [10, page, usage]
    case Named(ordinal) => [11, ordinal]
  }

  function ControlRank(c: Control): seq<nat> {
    match c
    case Key(code) => [0] + KeyRank(code)
    case Button(b) => [1, b]
  }

  function Rank(k: HeldKey): seq<nat> {
    var e := k.endpoint;
    [e.peer, e.host, e.generation, e.version, e.session, k.device] + ControlRank(k.control)
  }

  lemma {:induction false} RankInjective(a: HeldKey, b: HeldKey)
    requires Rank(a) == Rank(b)
    ensures a == b
  {
    assert Rank(a)[..6] == Rank(b)[..6];
    assert Rank(a)[6..] == ControlRank(a.control) && Rank(b)[6..] == ControlRank(b.control);
    ControlRankInjective(a.control, b.control);
  }

  lemma {:induction false} ControlRankInjective(a: Control, b: Control)
    requires ControlRank(a) == ControlRank(b)
    ensures a == b
  {
    assert ControlRank(a)[0] == ControlRank(b)[0];
    if a.Key? && b.Key? {
      assert ControlRank(a)[1..] == KeyRank(a.code) && ControlRank(b)[1..] == KeyRank(b.code);
      KeyRankInjective(a.code, b.code);
    } else {
      assert ControlRank(a)[1] == ControlRank(b)[1];
    }
  }

  lemma {:induction false} KeyRankInjective(a: KeyCode, b: KeyCode)
    requires KeyRank(a) == KeyRank(b)
    ensures a == b
  {
    assert KeyRank(a)[0] == KeyRank(b)[0];
    if a.Unidentified? {
      assert KeyRank(a)[1] == KeyRank(b)[1] && KeyRank(a)[2] == KeyRank(b)[2];
    } else if a.Named? {
      assert KeyRank(a)[1] == KeyRank(b)[1];
    }
  }

  predicate Before(a: HeldKey, b: HeldKey) {
    KeyOrder.Less(Rank(a), Rank(b))
  }

  predicate IsLeast(k: HeldKey, s: set<HeldKey>) {
    k in s && forall j | j in s && j != k :: Before(k, j)
  }

  lemma {:induction false} LeastExists(s: set<HeldKey>) returns (k: HeldKey)
    requires s != {}
    ensures IsLeast(k, s)
    decreases |s|
  {
    var x :| x in s;
    if s == {x} {
      k := x;
    } else {
      var m := LeastExists(s - {x});
      if Before(x, m) {
        k := x;
        forall j | j in s && j != x ensures Before(x, j) {
          if j != m {
            assert j in s - {x};
            assert Before(m, j);
            KeyOrder.LessTransitive(Rank(x), Rank(m), Rank(j));
          }
        }
      } else {
        k := m;
        KeyOrder.LessTotal(Rank(x), Rank(m));
        if Rank(x) == Rank(m) { RankInjective(x, m); }
      }
    }
  }

  lemma {:induction false} LeastUnique(a: HeldKey, b: HeldKey, s: set<HeldKey>)
    requires IsLeast(a, s) && IsLeast(b, s)
    ensures a == b
  {
    if a != b {
      KeyOrder.LessTransitive(Rank(a), Rank(b), Rank(a));
      KeyOrder.LessIrreflexive(Rank(a));
    }
  }

  ghost predicate Distinct<T>(s: seq<T>) {
    forall i, j | 0 <= i < j < |s| :: s[i] != s[j]
  }

  /** The first element a sorted map visits. */
  function Least(s: set<HeldKey>): (k: HeldKey)
    requires s != {}
    ensures IsLeast(k, s)
  {
    assert exists k :: IsLeast(k, s) by { var k := LeastExists(s); }
    assert forall a, b | IsLeast(a, s) && IsLeast(b, s) :: a == b by {
      forall a, b | IsLeast(a, s) && IsLeast(b, s) ensures a == b { LeastUnique(a, b, s); }
    }
    var k :| IsLeast(k, s);
    k
  }

  /** The elements of a set in the order a sorted map visits them. */
  function Ordered(s: set<HeldKey>): seq<HeldKey>
    decreases |s|
  {
    if s == {} then [] else [Least(s)] + Ordered(s - {Least(s)})
  }

  lemma {:induction false} OrderedVisits(s: set<HeldKey>)
    ensures forall k :: k in Ordered(s) <==> k in s
    ensures |Ordered(s)| == |s| && Distinct(Ordered(s))
    ensures forall i, j | 0 <= i < j < |Ordered(s)| :: Before(Ordered(s)[i], Ordered(s)[j])
    decreases |s|
  {
    hide Before, Least;
    if s != {} {
      var k := Least(s);
      OrderedVisits(s - {k});
      var rest := Ordered(s - {k});
      assert Ordered(s) == [k] + rest;
      forall i, j | 0 <= i < j < |Ordered(s)|
        ensures Before(Ordered(s)[i], Ordered(s)[j]) && Ordered(s)[i] != Ordered(s)[j]
      {
        assert Ordered(s)[j] == rest[j-1] && rest[j-1] in s - {k};
        if i > 0 { assert Ordered(s)[i] == rest[i-1]; }
      }
    }
  }

  // ---------------------------------------------------------------- operations

  /** Lifecycles of controls about to be released remotely end: nothing more is forwarded for them. */
  function Quarantine(latches: map<Slot, Latch>, keys: set<HeldKey>): (r: map<Slot, Latch>)
    ensures r.Keys == latches.Keys
    ensures forall s | s in r && r[s].ToRemote? :: HeldKey(r[s].endpoint, s.device, s.control) !in keys
    ensures forall s | s in r && r[s] != latches[s] ::
              && r[s] == Quarantined && latches[s].ToRemote?
              && HeldKey(latches[s].endpoint, s.device, s.control) in keys
  {
    map s | s in latches ::
      if latches[s].ToRemote? && HeldKey(latches[s].endpoint, s.device, s.control) in keys
      then Quarantined else latches[s]
  }

  function Obligations(held: map<HeldKey, Held>, order: seq<HeldKey>, id: U64): (r: seq<Entry>)
    requires (forall k | k in order :: k in held) && id + |order| <= U64_MAX
    ensures |r| == |order|
  {
    seq(|order|, i requires 0 <= i < |order| => Entry(id + i, order[i], held[order[i]].sequence))
  }

  /** Picked controls that are held and have no release owed yet. */
  function Unowed(l: Ledger, picked: set<HeldKey>): set<HeldKey> {
    picked * l.held.Keys - Owed(l.cleanup)
  }

  datatype Queued = Queued(ledger: Ledger, error: Option<Error>)

  /** Takes ownership of a release for every picked held control that has none yet, or for none. */
  function Queue(l: Ledger, picked: set<HeldKey>): Queued {
    var unowed := Unowed(l, picked);
    OrderedVisits(unowed);
    var order := Ordered(unowed);
    if |l.cleanup| + |order| > MAX_CLEANUP then Queued(l, Some(CapacityExceeded))
    else if l.nextId + |order| > U64_MAX then Queued(l, Some(IdentifiersExhausted))
    else
      Queued(l.(cleanup := l.cleanup + Obligations(l.held, order, l.nextId),
                latches := Quarantine(l.latches, unowed),
                nextId := l.nextId + |order|), None)
  }

  /** The affine right to attempt, and then settle, one owed release. */
  datatype Token = Token(id: U64, key: HeldKey, covered: U64)

  /** Lends out the front of the queue, once. */
  function Take(l: Ledger): (Ledger, Option<Token>) {
    if l.inFlight.Some? || l.cleanup == [] then (l, None)
    else
      var e := l.cleanup[0];
      (l.(inFlight := Some(e.id)), Some(Token(e.id, e.key, e.covered)))
  }

  predicate Settles(l: Ledger, t: Token) {
    l.inFlight == Some(t.id) && l.cleanup != [] && l.cleanup[0].id == t.id
  }

  /** The release entered the endpoint's queue: the control is no longer held there. */
  function Released(l: Ledger): Ledger
    requires l.cleanup != []
  {
    l.(cleanup := l.cleanup[1..], inFlight := None, held := l.held - {l.cleanup[0].key})
  }

  function Without(cleanup: seq<Entry>, e: Endpoint): seq<Entry> {
    if cleanup == [] then []
    else (if cleanup[0].key.endpoint == e then [] else [cleanup[0]]) + Without(cleanup[1..], e)
  }

  /** The transport of one endpoint is gone for good, and everything owed to it with it. */
  function Invalidate(l: Ledger, e: Endpoint): Ledger {
    var lent := l.cleanup != [] && l.inFlight == Some(l.cleanup[0].id) && l.cleanup[0].key.endpoint == e;
    l.(cleanup := Without(l.cleanup, e),
       inFlight := if lent then None else l.inFlight,
       held := map k | k in l.held && k.endpoint != e :: l.held[k],
       latches := map s | s in l.latches ::
         if l.latches[s].ToRemote? && l.latches[s].endpoint == e then Quarantined else l.latches[s])
  }
}
