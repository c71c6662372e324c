/** Clipboards among many hosts: applied text is never published again, and no update is applied twice unnoticed. */
module ClipboardRuns {
  import opened Base
  import opened Clipboard

  // ---------------------------------------------------------------- the replay window

  ghost predicate Sound(s: Sync) {
    s.capacity >= 1 && Distinct(s.recent) && |s.recent| <= s.capacity && |s.echoes| <= s.capacity
  }

  datatype Op = Observed(text: string, id: Id) | Received(update: Update) | Cancelled(id: Id) | Switched(on: bool)

  function Step(s: Sync, digest: string -> Digest, op: Op): Sync {
    match op
    case Observed(text, id) => Observe(s, digest, text, id).0
    case Received(u) => Receive(s, digest, u).0
    case Cancelled(id) => Cancel(s, id).0
    case Switched(on) => SetEnabled(s, on)
  }

  function Run(s: Sync, digest: string -> Digest, ops: seq<Op>): Sync
    decreases |ops|
  {
    if ops == [] then s else Step(Run(s, digest, ops[..|ops| - 1]), digest, ops[|ops| - 1])
  }

  lemma {:induction false} InsertSound(order: seq<Id>, capacity: nat, id: Id)
    requires capacity >= 1 && Distinct(order) && |order| <= capacity
    ensures var r := Insert(order, capacity, id); Distinct(r) && |r| <= capacity && id in r
  {
    var r := Insert(order, capacity, id);
    if id !in order { assert r[|r| - 1] == id; }
  }

  lemma {:induction false} StepSound(s: Sync, digest: string -> Digest, op: Op)
    requires Sound(s)
    ensures Sound(Step(s, digest, op)) && Step(s, digest, op).capacity == s.capacity
  {
    hide Utf8Length, Insert, Distinct;
    match op {
      case Observed(text, id) => EchoOfFirst(s.echoes, digest(text)); InsertSound(s.recent, s.capacity, id);
      case Received(u) => InsertSound(s.recent, s.capacity, u.id);
      case Cancelled(id) => EchoForFirst(s.echoes, id); RemoveKeeps(s.recent, id);
      case Switched(_) =>
    }
  }

  /** How many identifiers were remembered after `id`. */
  function After(order: seq<Id>, id: Id): nat
    requires id in order
  {
    if order[0] == id then |order| - 1 else After(order[1..], id)
  }

  /** The operation makes the window remember one more identifier. */
  predicate Remembers(s: Sync, digest: string -> Digest, op: Op) {
    match op
    case Observed(text, id) => Observe(s, digest, text, id).1.Publish? && id !in s.recent
    case Received(u) => u.id in Step(s, digest, op).recent && u.id !in s.recent
    case _ => false
  }

  function Remembered(s: Sync, digest: string -> Digest, ops: seq<Op>): nat
    decreases |ops|
  {
    if ops == [] then 0
    else
      var n := |ops| - 1;
      Remembered(s, digest, ops[..n]) + if Remembers(Run(s, digest, ops[..n]), digest, ops[n]) then 1 else 0
  }

  lemma {:induction false} AfterAppend(order: seq<Id>, id: Id, x: Id)
    requires id in order && id != x
    ensures id in order + [x] && After(order + [x], id) == After(order, id) + 1
  {
    if order[0] != id {
      assert (order + [x])[1..] == order[1..] + [x];
      AfterAppend(order[1..], id, x);
    }
  }

  lemma {:induction false} AfterBound(order: seq<Id>, id: Id)
    requires id in order
    ensures After(order, id) < |order|
  {
    if order[0] != id { AfterBound(order[1..], id); }
  }

  lemma {:induction false} AfterInsert(order: seq<Id>, capacity: nat, id: Id, x: Id)
    requires capacity >= 1 && Distinct(order) && |order| <= capacity && id in order
    ensures var r := Insert(order, capacity, x);
            && (x in order ==> r == order)
            && (x !in order && id in r ==> After(r, id) == After(order, id) + 1)
            && (x !in order && id !in r ==> After(order, id) + 1 == capacity)
  {
    if x !in order {
      AfterAppend(order, id, x);
      var longer := order + [x];
      if |longer| > capacity {
        if order[0] == id {
          assert id !in longer[1..] by { assert longer[1..] == order[1..] + [x]; }
        } else {
          assert longer[0] != id;
        }
      }
    }
  }

  lemma {:induction false} AfterRemove(order: seq<Id>, id: Id, x: Id)
    requires Distinct(order) && id in order && x != id
    ensures id in Remove(order, x) && After(Remove(order, x), id) <= After(order, id)
  {
    RemoveKeeps(order, x);
    if order[0] == id {
      assert Remove(order, x)[0] == id;
    } else if order[0] == x {
    } else {
      AfterRemove(order[1..], id, x);
      assert Remove(order, x)[1..] == Remove(order[1..], x);
    }
  }

  /** One operation moves an identifier at most one place towards being forgotten. */
  lemma {:induction false} StepWindow(s: Sync, digest: string -> Digest, op: Op, id: Id)
    requires Sound(s) && id in s.recent && op != Cancelled(id)
    requires After(s.recent, id) + (if Remembers(s, digest, op) then 1 else 0) < s.capacity
    ensures var t := Step(s, digest, op);
            id in t.recent && After(t.recent, id) <= After(s.recent, id) + (if Remembers(s, digest, op) then 1 else 0)
  {
    hide Utf8Length, After, Insert, Remove;
    match op {
      case Observed(text, x) => AfterInsert(s.recent, s.capacity, id, x); InsertSound(s.recent, s.capacity, x);
      case Received(u) => AfterInsert(s.recent, s.capacity, id, u.id); InsertSound(s.recent, s.capacity, u.id);
      case Cancelled(x) => AfterRemove(s.recent, id, x);
      case Switched(_) =>
    }
  }

  lemma {:induction false} RunWindow(s: Sync, digest: string -> Digest, ops: seq<Op>, id: Id)
    requires Sound(s) && id in s.recent && (forall i | 0 <= i < |ops| :: ops[i] != Cancelled(id))
    requires After(s.recent, id) + Remembered(s, digest, ops) < s.capacity
    ensures var t := Run(s, digest, ops);
            Sound(t) && t.capacity == s.capacity && id in t.recent
              && After(t.recent, id) <= After(s.recent, id) + Remembered(s, digest, ops)
    decreases |ops|
  {
    hide Step, After, Remembers;
    if ops != [] {
      var n := |ops| - 1;
      RunWindow(s, digest, ops[..n], id);
      var u := Run(s, digest, ops[..n]);
      StepSound(u, digest, ops[n]);
      StepWindow(u, digest, ops[n], id);
    }
  }

  /** An applied update is not applied again unless it was cancelled, or at least as many further identifiers
      came to be remembered as the window holds. */
  lemma {:induction false} AppliedAtMostOnce(s: Sync, digest: string -> Digest, u: Update, ops: seq<Op>, again: Update)
    requires Sound(s) && Receive(s, digest, u).1.Apply? && again.id == u.id
    requires forall i | 0 <= i < |ops| :: ops[i] != Cancelled(u.id)
    requires Remembered(Receive(s, digest, u).0, digest, ops) < s.capacity
    ensures !Receive(Run(Receive(s, digest, u).0, digest, ops), digest, again).1.Apply?
  {
    var t := Receive(s, digest, u).0;
    StepSound(s, digest, Received(u));
    InsertedLast(s.recent, s.capacity, u.id);
    hide Step, Utf8Length;
    RunWindow(t, digest, ops, u.id);
  }

  lemma {:induction false} InsertedLast(order: seq<Id>, capacity: nat, id: Id)
    requires capacity >= 1 && Distinct(order) && |order| <= capacity && id !in order
    ensures var r := Insert(order, capacity, id); id in r && After(r, id) == 0
  {
    var r := Insert(order, capacity, id);
    assert r[|r| - 1] == id;
    LastAfter(r, id);
  }

  lemma {:induction false} LastAfter(order: seq<Id>, id: Id)
    requires order != [] && order[|order| - 1] == id && forall i | 0 <= i < |order| - 1 :: order[i] != id
    ensures After(order, id) == 0
  {
    if |order| > 1 { LastAfter(order[1..], id); }
  }

  function InsertAll(order: seq<Id>, capacity: nat, ids: seq<Id>): seq<Id>
    decreases |ids|
  {
    if ids == [] then order else Insert(InsertAll(order, capacity, ids[..|ids| - 1]), capacity, ids[|ids| - 1])
  }

  /** The newest `capacity` of a sequence. */
  function Newest(all: seq<Id>, capacity: nat): seq<Id> {
    if |all| <= capacity then all else all[|all| - capacity..]
  }

  lemma {:induction false} InsertNewest(all: seq<Id>, capacity: nat, x: Id)
    requires capacity >= 1 && x !in all
    ensures Insert(Newest(all, capacity), capacity, x) == Newest(all + [x], capacity)
  {
    var before := Newest(all, capacity);
    assert forall y | y in before :: y in all;
    if |all| >= capacity {
      assert before == all[|all| - capacity..];
      assert (before + [x])[1..] == (all + [x])[|all| + 1 - capacity..];
    }
  }

  lemma {:induction false} InsertAllNewest(order: seq<Id>, capacity: nat, ids: seq<Id>)
    requires capacity >= 1 && |order| <= capacity && Distinct(order + ids)
    ensures InsertAll(order, capacity, ids) == Newest(order + ids, capacity)
    decreases |ids|
  {
    if ids == [] {
      assert order + ids == order;
    } else {
      var n := |ids| - 1;
      var prior := order + ids[..n];
      assert order + ids == prior + [ids[n]];
      assert forall i | 0 <= i < |prior| :: (order + ids)[i] == prior[i];
      assert (order + ids)[|prior|] == ids[n];
      InsertAllNewest(order, capacity, ids[..n]);
      InsertNewest(prior, capacity, ids[n]);
    }
  }

  /** The bound is exact: that many new identifiers do push everything older out. */
  lemma {:induction false} WindowForgets(order: seq<Id>, capacity: nat, ids: seq<Id>, x: Id)
    requires capacity >= 1 && |order| <= capacity && Distinct(order + ids) && |ids| >= capacity && x in order
    ensures x !in InsertAll(order, capacity, ids)
  {
    InsertAllNewest(order, capacity, ids);
    var all := order + ids;
    var i :| 0 <= i < |order| && order[i] == x;
    assert all[i] == x;
    var tail := all[|all| - capacity..];
    assert forall j | 0 <= j < |tail| :: tail[j] == all[|all| - capacity + j] && tail[j] != x;
  }

  // ---------------------------------------------------------------- hosts that copy, write and notify each other

  /** A host's synchronizer, its clipboard writes under way, and the notifications those writes will cause. */
  datatype Node = Node(sync: Sync, writing: seq<Update>, notifying: seq<Update>)

  datatype Net = Net(nodes: map<HostId, Node>, sent: set<Update>)

  datatype Event =
    | Copied(host: HostId, text: string, id: Id)
    | Delivered(host: HostId, update: Update)
    | WriteDone(host: HostId, at: nat)
    | WriteFailed(host: HostId, at: nat)
    | Notified(host: HostId, at: nat, id: Id)
    | ModeSet(host: HostId, on: bool)

  function Dropped(us: seq<Update>, i: nat): seq<Update>
    requires i < |us|
  {
    us[..i] + us[i + 1..]
  }

  function Sending(d: Decision): set<Update> {
    if d.Publish? then {d.update} else {}
  }

  /** One thing happens somewhere; updates once sent may arrive any number of times, in any order, or never. */
  function Happens(w: Net, digest: string -> Digest, e: Event): Net {
    if e.host !in w.nodes then w
    else
      var n := w.nodes[e.host];
      match e
      case Copied(h, text, id) =>
        var (s, d) := Observe(n.sync, digest, text, id);
        Net(w.nodes[h := n.(sync := s)], w.sent + Sending(d))
      case Delivered(h, u) =>
        if u !in w.sent then w
        else
          var (s, d) := Receive(n.sync, digest, u);
          w.(nodes := w.nodes[h := n.(sync := s, writing := if d.Apply? then n.writing + [u] else n.writing)])
      case WriteDone(h, i) =>
        if i >= |n.writing| then w
        else w.(nodes := w.nodes[h := n.(writing := Dropped(n.writing, i), notifying := n.notifying + [n.writing[i]])])
      case WriteFailed(h, i) =>
        if i >= |n.writing| then w
        else w.(nodes := w.nodes[h := n.(writing := Dropped(n.writing, i), sync := Cancel(n.sync, n.writing[i].id).0)])
      case Notified(h, i, id) =>
        if i >= |n.notifying| then w
        else
          var (s, d) := Observe(n.sync, digest, n.notifying[i].text, id);
          Net(w.nodes[h := n.(sync := s, notifying := Dropped(n.notifying, i))], w.sent + Sending(d))
      case ModeSet(h, on) => w.(nodes := w.nodes[h := n.(sync := SetEnabled(n.sync, on))])
  }

  /** New updates get new names, a user's copy does not coincide with an outstanding echo, no echo is evicted, and
      the mode changes only while no write is under way and no notification due. */
  ghost predicate Polite(w: Net, digest: string -> Digest, e: Event) {
    e.host in w.nodes ==>
      var n := w.nodes[e.host];
      match e
      case Copied(_, text, id) =>
        (forall u | u in w.sent :: u.id != id) && forall x | x in n.sync.echoes :: x.hash != digest(text)
      case Delivered(_, u) => |n.sync.echoes| < n.sync.capacity
      case Notified(_, _, id) => forall u | u in w.sent :: u.id != id
      case ModeSet(_, on) => on == n.sync.enabled || Idle(n)
      case _ => true
  }

  /** No clipboard write of the host is under way or still to be notified. */
  predicate Idle(n: Node) {
    n.writing == [] && n.notifying == []
  }

  function Hashes(echoes: seq<Echo>): seq<Digest> {
    seq(|echoes|, i requires 0 <= i < |echoes| => echoes[i].hash)
  }

  function Expected(echoes: seq<Echo>): multiset<Digest> {
    multiset(Hashes(echoes))
  }

  function Due(us: seq<Update>): multiset<Digest> {
    multiset(seq(|us|, i requires 0 <= i < |us| => us[i].hash))
  }

  /** Every write under way or about to be notified has its own echo expected. */
  ghost predicate Covered(n: Node) {
    Due(n.writing) + Due(n.notifying) <= Expected(n.sync.echoes)
  }

  ghost predicate Known(w: Net, digest: string -> Digest, h: HostId, n: Node) {
    && n.sync.host == h && Sound(n.sync) && (Idle(n) || n.sync.enabled)
    && (forall u | u in n.writing + n.notifying :: u in w.sent && Utf8Length(u.text) <= n.sync.maximum)
    && (forall x | x in n.sync.echoes :: exists u | u in w.sent :: u.id == x.id && u.hash == x.hash)
  }

  ghost predicate Quiet(w: Net, digest: string -> Digest) {
    && (forall u | u in w.sent :: u.hash == digest(u.text))
    && (forall u, v | u in w.sent && v in w.sent && u.id == v.id :: u == v)
    && (forall h | h in w.nodes :: Covered(w.nodes[h]) && Known(w, digest, h, w.nodes[h]))
  }

  lemma {:induction false} DueDropped(us: seq<Update>, i: nat)
    requires i < |us|
    ensures Due(Dropped(us, i)) + multiset{us[i].hash} == Due(us)
  {
    var all := seq(|us|, j requires 0 <= j < |us| => us[j].hash);
    assert all == all[..i] + [us[i].hash] + all[i + 1..];
    var rest := Dropped(us, i);
    assert seq(|rest|, j requires 0 <= j < |rest| => rest[j].hash) == all[..i] + all[i + 1..];
  }

  lemma {:induction false} DueAppend(us: seq<Update>, u: Update)
    ensures Due(us + [u]) == Due(us) + multiset{u.hash}
  {
    var longer := us + [u];
    assert seq(|longer|, j requires 0 <= j < |longer| => longer[j].hash)
           == seq(|us|, j requires 0 <= j < |us| => us[j].hash) + [u.hash];
  }

  lemma {:induction false} ExpectedDropped(echoes: seq<Echo>, i: nat)
    requires i < |echoes|
    ensures Expected(Without(echoes, i)) + multiset{echoes[i].hash} == Expected(echoes)
  {
    var all := seq(|echoes|, j requires 0 <= j < |echoes| => echoes[j].hash);
    assert all == all[..i] + [echoes[i].hash] + all[i + 1..];
    var rest := Without(echoes, i);
    assert seq(|rest|, j requires 0 <= j < |rest| => rest[j].hash) == all[..i] + all[i + 1..];
  }

  lemma {:induction false} ExpectedAppend(echoes: seq<Echo>, x: Echo)
    ensures Expected(echoes + [x]) == Expected(echoes) + multiset{x.hash}
  {
    var longer := echoes + [x];
    assert seq(|longer|, j requires 0 <= j < |longer| => longer[j].hash)
        == seq(|echoes|, j requires 0 <= j < |echoes| => echoes[j].hash) + [x.hash];
  }

  lemma {:induction false} ExpectedHas(echoes: seq<Echo>, hash: Digest)
    ensures hash in Expected(echoes) <==> exists x | x in echoes :: x.hash == hash
  {
    var all := seq(|echoes|, j requires 0 <= j < |echoes| => echoes[j].hash);
    if hash in Expected(echoes) {
      assert hash in all;
      var i :| 0 <= i < |all| && all[i] == hash;
      assert echoes[i] in echoes;
    }
    if x :| x in echoes && x.hash == hash {
      var i :| 0 <= i < |echoes| && echoes[i] == x;
      assert all[i] == hash;
      assert hash in all;
    }
  }

  /** A notification of applied text is recognised for what it is. */
  lemma {:induction false} EchoRecognised(w: Net, digest: string -> Digest, h: HostId, i: nat, id: Id)
    requires Quiet(w, digest) && h in w.nodes && i < |w.nodes[h].notifying|
    ensures var n := w.nodes[h];
            var d := Observe(n.sync, digest, n.notifying[i].text, id).1;
            d.Ignore? && d.reason.LocalEcho?
  {
    var n := w.nodes[h];
    var u := n.notifying[i];
    assert u in n.writing + n.notifying;
    DueDropped(n.notifying, i);
    assert u.hash in Expected(n.sync.echoes);
    ExpectedHas(n.sync.echoes, u.hash);
    EchoOfFirst(n.sync.echoes, u.hash);
  }

  /** Changing one node, and perhaps sending something new, keeps everyone else as they were. */
  lemma {:induction false} Elsewhere(w: Net, digest: string -> Digest, h: HostId, n: Node, sent: set<Update>)
    requires Quiet(w, digest) && h in w.nodes && w.sent <= sent
    requires forall u | u in sent :: u.hash == digest(u.text)
    requires forall u, v | u in sent && v in sent && u.id == v.id :: u == v
    requires Covered(n) && Known(Net(w.nodes, sent), digest, h, n)
    ensures Quiet(Net(w.nodes[h := n], sent), digest)
  {
    hide Covered, Sound, Utf8Length;
    var t := Net(w.nodes[h := n], sent);
    forall g | g in t.nodes ensures Covered(t.nodes[g]) && Known(t, digest, g, t.nodes[g]) {
      if g != h {
        forall x | x in w.nodes[g].sync.echoes ensures exists u | u in sent :: u.id == x.id && u.hash == x.hash {
          var u :| u in w.sent && u.id == x.id && u.hash == x.hash;
        }
      }
    }
  }

  lemma {:induction false} CopiedQuiet(w: Net, digest: string -> Digest, h: HostId, text: string, id: Id)
    requires Quiet(w, digest) && h in w.nodes && Polite(w, digest, Copied(h, text, id))
    ensures Quiet(Happens(w, digest, Copied(h, text, id)), digest)
  {
    hide Utf8Length, Insert, Covered;
    var n := w.nodes[h];
    var (s, d) := Observe(n.sync, digest, text, id);
    EchoOfFirst(n.sync.echoes, digest(text));
    StepSound(n.sync, digest, Observed(text, id));
    assert s.echoes == n.sync.echoes && s.enabled == n.sync.enabled && s.host == h && s.maximum == n.sync.maximum;
    SameCovered(n, n.(sync := s));
    var m := n.(sync := s);
    var sent := w.sent + Sending(d);
    forall x | x in s.echoes ensures exists u | u in sent :: u.id == x.id && u.hash == x.hash {
      var u :| u in w.sent && u.id == x.id && u.hash == x.hash;
      assert u in sent;
    }
    assert m.writing + m.notifying == n.writing + n.notifying;
    hide Sound, Observe;
    Elsewhere(w, digest, h, m, sent);
  }

  lemma {:induction false} SameCovered(n: Node, m: Node)
    requires Covered(n) && m.writing == n.writing && m.notifying == n.notifying && m.sync.echoes == n.sync.echoes
    ensures Covered(m)
  {
  }

  lemma {:induction false} DeliveredQuiet(w: Net, digest: string -> Digest, h: HostId, u: Update)
    requires Quiet(w, digest) && h in w.nodes && Polite(w, digest, Delivered(h, u))
    ensures Quiet(Happens(w, digest, Delivered(h, u)), digest)
  {
    hide Utf8Length, Insert, Due, Expected;
    var n := w.nodes[h];
    if u in w.sent {
      var (s, d) := Receive(n.sync, digest, u);
      StepSound(n.sync, digest, Received(u));
      var m := n.(sync := s, writing := if d.Apply? then n.writing + [u] else n.writing);
      if d.Apply? {
        DueAppend(n.writing, u);
        ExpectedAppend(n.sync.echoes, Echo(u.id, u.hash, n.sync.current));
      }
      hide Sound;
      assert forall v | v in m.writing + m.notifying :: v in n.writing + n.notifying || (v == u && d.Apply?);
      Elsewhere(w, digest, h, m, w.sent);
    }
  }

  lemma {:induction false} WriteDoneQuiet(w: Net, digest: string -> Digest, h: HostId, i: nat)
    requires Quiet(w, digest) && h in w.nodes && i < |w.nodes[h].writing|
    ensures Quiet(Happens(w, digest, WriteDone(h, i)), digest)
  {
    hide Utf8Length, Due, Expected, Sound;
    var n := w.nodes[h];
    var m := n.(writing := Dropped(n.writing, i), notifying := n.notifying + [n.writing[i]]);
    DueDropped(n.writing, i);
    DueAppend(n.notifying, n.writing[i]);
    assert forall v | v in m.writing + m.notifying :: v in n.writing + n.notifying;
    Elsewhere(w, digest, h, m, w.sent);
  }

  lemma {:induction false} OneLess(a: multiset<Digest>, b: multiset<Digest>, e: multiset<Digest>, x: Digest,
                                   a1: multiset<Digest>, e1: multiset<Digest>)
    requires a1 == a + multiset{x} && e1 == e + multiset{x} && a1 + b <= e1
    ensures a + b <= e
  {
    forall y ensures (a + b)[y] <= e[y] {
      assert (a1 + b)[y] <= e1[y];
    }
  }

  lemma {:induction false} WriteFailedQuiet(w: Net, digest: string -> Digest, h: HostId, i: nat)
    requires Quiet(w, digest) && h in w.nodes && i < |w.nodes[h].writing|
    ensures Quiet(Happens(w, digest, WriteFailed(h, i)), digest)
  {
    hide Utf8Length, Due, Expected, Remove;
    var n := w.nodes[h];
    var u := n.writing[i];
    assert u in n.writing + n.notifying;
    EchoForFirst(n.sync.echoes, u.id);
    StepSound(n.sync, digest, Cancelled(u.id));
    var s := Cancel(n.sync, u.id).0;
    var m := n.(writing := Dropped(n.writing, i), sync := s);
    DueDropped(n.writing, i);
    var p := EchoFor(n.sync.echoes, u.id);
    if p.Some? {
      var x := n.sync.echoes[p.value];
      assert x in n.sync.echoes;
      var v :| v in w.sent && v.id == x.id && v.hash == x.hash;
      assert v == u;
      ExpectedDropped(n.sync.echoes, p.value);
      OneLess(Due(m.writing), Due(m.notifying), Expected(s.echoes), u.hash, Due(n.writing), Expected(n.sync.echoes));
    }
    hide Sound;
    assert forall v | v in m.writing + m.notifying :: v in n.writing + n.notifying;
    assert forall x | x in s.echoes :: x in n.sync.echoes;
    Elsewhere(w, digest, h, m, w.sent);
  }

  lemma {:induction false} EchoConsumed(s: Sync, digest: string -> Digest, text: string, id: Id)
    requires Observe(s, digest, text, id).1.Ignore? && Observe(s, digest, text, id).1.reason.LocalEcho?
    ensures var p := EchoOf(s.echoes, digest(text));
            && p.Some? && p.value < |s.echoes| && s.echoes[p.value].hash == digest(text)
            && Observe(s, digest, text, id).0 == s.(echoes := Without(s.echoes, p.value), current := Some(digest(text)))
  {
    hide Utf8Length, Insert;
    EchoOfFirst(s.echoes, digest(text));
  }

  lemma {:induction false} NotifiedQuiet(w: Net, digest: string -> Digest, h: HostId, i: nat, id: Id)
    requires Quiet(w, digest) && h in w.nodes && i < |w.nodes[h].notifying|
    ensures Quiet(Happens(w, digest, Notified(h, i, id)), digest)
  {
    hide Utf8Length, Due, Expected, Observe, Sound, Step;
    var n := w.nodes[h];
    var u := n.notifying[i];
    assert u in n.writing + n.notifying;
    EchoRecognised(w, digest, h, i, id);
    EchoConsumed(n.sync, digest, u.text, id);
    ObservedSound(n.sync, digest, u.text, id);
    var (s, d) := Observe(n.sync, digest, u.text, id);
    var m := n.(sync := s, notifying := Dropped(n.notifying, i));
    DueDropped(n.notifying, i);
    ExpectedDropped(n.sync.echoes, EchoOf(n.sync.echoes, u.hash).value);
    OneLess(Due(m.notifying), Due(m.writing), Expected(s.echoes), u.hash, Due(n.notifying), Expected(n.sync.echoes));
    assert w.sent + Sending(d) == w.sent;
    assert forall v | v in m.writing + m.notifying :: v in n.writing + n.notifying;
    assert forall x | x in s.echoes :: x in n.sync.echoes;
    Elsewhere(w, digest, h, m, w.sent);
  }

  lemma {:induction false} ModeSetQuiet(w: Net, digest: string -> Digest, h: HostId, on: bool)
    requires Quiet(w, digest) && h in w.nodes && Polite(w, digest, ModeSet(h, on))
    ensures Quiet(Happens(w, digest, ModeSet(h, on)), digest)
  {
    hide Utf8Length, Sound, Expected;
    var n := w.nodes[h];
    StepSound(n.sync, digest, Switched(on));
    var m := n.(sync := SetEnabled(n.sync, on));
    assert Covered(n) && Known(w, digest, h, n);
    if on != n.sync.enabled {
      assert Due(m.writing) == multiset{} && Due(m.notifying) == multiset{};
    } else {
      assert m == n;
    }
    Elsewhere(w, digest, h, m, w.sent);
  }

  lemma {:induction false} ObservedSound(s: Sync, digest: string -> Digest, text: string, id: Id)
    requires Sound(s)
    ensures Sound(Observe(s, digest, text, id).0)
  {
    hide Sound, Observe;
    StepSound(s, digest, Observed(text, id));
  }

  lemma {:induction false} HappensQuiet(w: Net, digest: string -> Digest, e: Event)
    requires Quiet(w, digest) && Polite(w, digest, e)
    ensures Quiet(Happens(w, digest, e), digest)
  {
    if e.host in w.nodes {
      hide Quiet, Polite;
      match e {
        case Copied(h, text, id) => CopiedQuiet(w, digest, h, text, id);
        case Delivered(h, u) => DeliveredQuiet(w, digest, h, u);
        case WriteDone(h, i) => if i < |w.nodes[h].writing| { WriteDoneQuiet(w, digest, h, i); }
        case WriteFailed(h, i) => if i < |w.nodes[h].writing| { WriteFailedQuiet(w, digest, h, i); }
        case Notified(h, i, id) => if i < |w.nodes[h].notifying| { NotifiedQuiet(w, digest, h, i, id); }
        case ModeSet(h, on) => ModeSetQuiet(w, digest, h, on);
      }
    }
  }

  function HappenAll(w: Net, digest: string -> Digest, events: seq<Event>): Net
    decreases |events|
  {
    if events == [] then w else Happens(HappenAll(w, digest, events[..|events| - 1]), digest, events[|events| - 1])
  }

  ghost predicate Beginning(w: Net) {
    w.sent == {} && forall h | h in w.nodes ::
      var s := w.nodes[h].sync;
      s.capacity >= 1 && s == Fresh(h, s.enabled, s.maximum, s.capacity) && Idle(w.nodes[h])
  }

  ghost predicate PoliteRun(w: Net, digest: string -> Digest, events: seq<Event>) {
    forall i | 0 <= i < |events| :: Polite(HappenAll(w, digest, events[..i]), digest, events[i])
  }

  lemma {:induction false} RunQuiet(w: Net, digest: string -> Digest, events: seq<Event>)
    requires Beginning(w) && PoliteRun(w, digest, events)
    ensures Quiet(HappenAll(w, digest, events), digest)
    decreases |events|
  {
    hide Happens, Polite, Utf8Length;
    if events != [] {
      hide Quiet;
      var n := |events| - 1;
      forall i | 0 <= i < n ensures Polite(HappenAll(w, digest, events[..n][..i]), digest, events[..n][i]) {
        assert events[..n][..i] == events[..i];
      }
      RunQuiet(w, digest, events[..n]);
      HappensQuiet(HappenAll(w, digest, events[..n]), digest, events[n]);
    }
  }

  /** Among any number of hosts, with deliveries lost, repeated and reordered, writes failing and modes switched while
      nothing is outstanding, the notification of an applied update is taken for the echo it is and never published. */
  lemma {:induction false} LoopFree(w: Net, digest: string -> Digest, events: seq<Event>, h: HostId, i: nat, id: Id)
    requires Beginning(w) && PoliteRun(w, digest, events)
    requires var v := HappenAll(w, digest, events); h in v.nodes && i < |v.nodes[h].notifying|
    ensures var v := HappenAll(w, digest, events);
            var d := Observe(v.nodes[h].sync, digest, v.nodes[h].notifying[i].text, id).1;
            d.Ignore? && d.reason.LocalEcho? && Happens(v, digest, Notified(h, i, id)).sent == v.sent
  {
    hide HappenAll, Quiet, Beginning, PoliteRun, Observe, Happens;
    RunQuiet(w, digest, events);
    var v := HappenAll(w, digest, events);
    EchoRecognised(v, digest, h, i, id);
    NotifiedSends(v, digest, h, i, id);
  }

  lemma {:induction false} NotifiedSends(w: Net, digest: string -> Digest, h: HostId, i: nat, id: Id)
    requires h in w.nodes && i < |w.nodes[h].notifying|
    ensures var d := Observe(w.nodes[h].sync, digest, w.nodes[h].notifying[i].text, id).1;
            Happens(w, digest, Notified(h, i, id)).sent == w.sent + Sending(d)
  {
    hide Observe;
  }

  // ---------------------------------------------------------------- why politeness matters

  /** A report is published exactly when it is admissible, not expected as an echo, and not what was last seen. */
  lemma {:induction false} PublishesExactly(s: Sync, digest: string -> Digest, text: string, id: Id)
    ensures Observe(s, digest, text, id).1.Publish? <==>
              && s.enabled && Utf8Length(text) <= s.maximum && s.current != Some(digest(text))
              && forall x | x in s.echoes :: x.hash != digest(text)
  {
    hide Utf8Length;
    EchoOfFirst(s.echoes, digest(text));
  }

  /** Whatever is being written or notified was checked when it arrived. */
  ghost predicate Checked(n: Node, digest: string -> Digest) {
    forall u | u in n.writing + n.notifying :: u.hash == digest(u.text) && Utf8Length(u.text) <= n.sync.maximum
  }

  lemma {:induction false} MaximumKept(s: Sync, digest: string -> Digest, op: Op)
    ensures Step(s, digest, op).maximum == s.maximum
  {
    hide Utf8Length, Insert, Remove;
  }

  lemma {:induction false} FewerChecked(n: Node, m: Node, digest: string -> Digest)
    requires Checked(n, digest) && m.sync.maximum == n.sync.maximum
    requires forall u | u in m.writing + m.notifying :: u in n.writing + n.notifying
    ensures Checked(m, digest)
  {
  }

  lemma {:induction false} ReceiveChecked(n: Node, digest: string -> Digest, u: Update)
    requires Checked(n, digest)
    ensures var (s, d) := Receive(n.sync, digest, u);
            Checked(n.(sync := s, writing := if d.Apply? then n.writing + [u] else n.writing), digest)
  {
    hide Utf8Length, Insert;
    var longer := n.writing + [u];
    assert forall v | v in longer + n.notifying :: v in n.writing + n.notifying || v == u;
  }

  lemma {:induction false} HappensChecked(w: Net, digest: string -> Digest, e: Event)
    requires forall h | h in w.nodes :: Checked(w.nodes[h], digest)
    ensures forall h | h in Happens(w, digest, e).nodes :: Checked(Happens(w, digest, e).nodes[h], digest)
  {
    if e.host in w.nodes {
      var n := w.nodes[e.host];
      match e {
        case Copied(h, text, id) => MaximumKept(n.sync, digest, Observed(text, id));
        case Delivered(h, u) => ReceiveChecked(n, digest, u);
        case WriteDone(h, i) =>
        case WriteFailed(h, i) => if i < |n.writing| { MaximumKept(n.sync, digest, Cancelled(n.writing[i].id)); }
        case Notified(h, i, id) =>
          if i < |n.notifying| { MaximumKept(n.sync, digest, Observed(n.notifying[i].text, id)); }
        case ModeSet(h, on) =>
      }
      hide Checked, Observe, Receive, Cancel;
      if !e.Delivered? { FewerChecked(n, Happens(w, digest, e).nodes[e.host], digest); }
    }
  }

  lemma {:induction false} RunChecked(w: Net, digest: string -> Digest, events: seq<Event>)
    requires Beginning(w)
    ensures forall h | h in HappenAll(w, digest, events).nodes :: Checked(HappenAll(w, digest, events).nodes[h], digest)
    decreases |events|
  {
    hide Happens, Utf8Length;
    if events != [] {
      RunChecked(w, digest, events[..|events| - 1]);
      HappensChecked(HappenAll(w, digest, events[..|events| - 1]), digest, events[|events| - 1]);
    }
  }

  /** After any events at all, polite or not, the notification of an applied update goes out to the other hosts if and
      only if the host is enabled, no echo of that content is expected, and something else was seen last. */
  lemma {:induction false} RepublishesExactly(w: Net, digest: string -> Digest, events: seq<Event>, h: HostId, i: nat,
                                              id: Id)
    requires Beginning(w)
    requires var v := HappenAll(w, digest, events);
             h in v.nodes && i < |v.nodes[h].notifying| && forall u | u in v.sent :: u.id != id
    ensures var v := HappenAll(w, digest, events);
            var (s, u) := (v.nodes[h].sync, v.nodes[h].notifying[i]);
            Happens(v, digest, Notified(h, i, id)).sent != v.sent <==>
              s.enabled && u.hash !in Expected(s.echoes) && s.current != Some(u.hash)
  {
    RunChecked(w, digest, events);
    hide HappenAll, Utf8Length, Expected, Beginning;
    var v := HappenAll(w, digest, events);
    var (s, u) := (v.nodes[h].sync, v.nodes[h].notifying[i]);
    assert u in v.nodes[h].writing + v.nodes[h].notifying;
    PublishesExactly(s, digest, u.text, id);
    ExpectedHas(s.echoes, u.hash);
    ObserveSends(s, digest, u.text, id);
    NotifiedSends(v, digest, h, i, id);
    hide Observe, Happens;
    var d := Observe(s, digest, u.text, id).1;
    if d.Publish? { assert d.update in v.sent + Sending(d) && d.update !in v.sent; }
  }

  lemma {:induction false} ObserveSends(s: Sync, digest: string -> Digest, text: string, id: Id)
    ensures var d := Observe(s, digest, text, id).1; d.Publish? ==> d.update.id == id
  {
    hide Utf8Length;
  }

  /** Switching the mode off and on again forgets every echo: the notification of an update applied before is then
      published as if it were new. */
  lemma {:induction false} ToggleRepublishes(s: Sync, digest: string -> Digest, u: Update, id: Id)
    requires Receive(s, digest, u).1.Apply?
    ensures var s1 := Receive(s, digest, u).0;
            Observe(SetEnabled(SetEnabled(s1, false), true), digest, u.text, id).1.Publish?
  {
    hide Utf8Length, Insert;
  }

  /** Two admissible updates from elsewhere with different contents. */
  ghost predicate Pair(s: Sync, digest: string -> Digest, u: Update, v: Update) {
    && s.enabled && s.echoes == [] && s.current.None? && s.recent == [] && u.origin != s.host && v.origin != s.host
    && u.id != v.id
    && u.hash == digest(u.text) && v.hash == digest(v.text) && u.hash != v.hash
    && Utf8Length(u.text) <= s.maximum && Utf8Length(v.text) <= s.maximum
  }

  /** A user who copies the very text being applied uses up its echo; once something newer arrives, the late
      notification of the first is published as if it were new. */
  lemma {:induction false} CoincidenceRepublishes(s: Sync, digest: string -> Digest, u: Update, v: Update, a: Id, b: Id)
    requires Pair(s, digest, u, v) && s.capacity >= 2
    ensures var s1 := Receive(s, digest, u).0;
            var s2 := Observe(s1, digest, u.text, a).0;
            var s3 := Receive(s2, digest, v).0;
            Receive(s, digest, u).1.Apply? && Receive(s2, digest, v).1.Apply?
              && Observe(s3, digest, u.text, b).1.Publish?
  {
    hide Utf8Length;
    var s1 := Receive(s, digest, u).0;
    assert s1.echoes == [Echo(u.id, u.hash, None)] && s1.recent == [u.id];
    var s2 := Observe(s1, digest, u.text, a).0;
    assert s2.echoes == [] && s2.current == Some(u.hash);
    var s3 := Receive(s2, digest, v).0;
    assert s3.echoes == [Echo(v.id, v.hash, Some(u.hash))] && s3.current == Some(v.hash);
    PublishesExactly(s3, digest, u.text, b);
  }

  // ---------------------------------------------------------------- what a window full of further updates forgets

  function Ids(us: seq<Update>): seq<Id> {
    seq(|us|, i requires 0 <= i < |us| => us[i].id)
  }

  function Contents(us: seq<Update>): seq<Digest> {
    seq(|us|, i requires 0 <= i < |us| => us[i].hash)
  }

  function Arrivals(us: seq<Update>): seq<Op> {
    seq(|us|, i requires 0 <= i < |us| => Received(us[i]))
  }

  /** Admissible updates from elsewhere, none of them in the window, each with another content than the one before. */
  ghost predicate Stream(s: Sync, digest: string -> Digest, us: seq<Update>) {
    && Sound(s) && s.enabled && Distinct(s.recent + Ids(us))
    && (forall u | u in us :: u.origin != s.host && u.hash == digest(u.text) && Utf8Length(u.text) <= s.maximum)
    && (us != [] ==> s.current != Some(us[0].hash))
    && (forall i | 0 < i < |us| :: us[i - 1].hash != us[i].hash)
  }

  lemma {:induction false} StreamPrefix(s: Sync, digest: string -> Digest, us: seq<Update>)
    requires us != [] && Stream(s, digest, us)
    ensures var n := |us| - 1;
            && Stream(s, digest, us[..n]) && |Arrivals(us)| == |us|
            && Arrivals(us)[..n] == Arrivals(us[..n]) && Arrivals(us)[n] == Received(us[n])
    ensures var n := |us| - 1;
            Ids(us) == Ids(us[..n]) + [us[n].id] && Contents(us) == Contents(us[..n]) + [us[n].hash]
    ensures us[|us| - 1].id !in s.recent + Ids(us[..|us| - 1])
  {
    hide Utf8Length, Sound;
    var n := |us| - 1;
    assert Ids(us) == Ids(us[..n]) + [us[n].id];
    var all, prior := s.recent + Ids(us), s.recent + Ids(us[..n]);
    assert all == prior + [us[n].id];
    assert forall i | 0 <= i < |prior| :: all[i] == prior[i];
    assert all[|prior|] == us[n].id;
  }

  /** What the window and the awaited echoes are after such updates. */
  ghost predicate Kept(s: Sync, us: seq<Update>, t: Sync) {
    && t.host == s.host && t.enabled == s.enabled && t.maximum == s.maximum && t.capacity == s.capacity
    && t.recent == Newest(s.recent + Ids(us), s.capacity)
    && Hashes(t.echoes) == Newest(Hashes(s.echoes) + Contents(us), s.capacity)
    && t.current == (if us == [] then s.current else Some(us[|us| - 1].hash))
  }

  lemma {:induction false} ArrivalApplies(s: Sync, digest: string -> Digest, us: seq<Update>, t: Sync)
    requires us != [] && Stream(s, digest, us) && Kept(s, us[..|us| - 1], t)
    ensures var u := us[|us| - 1]; Receive(t, digest, u).1.Apply? && Remembers(t, digest, Received(u))
    ensures Kept(s, us, Receive(t, digest, us[|us| - 1]).0)
  {
    var n := |us| - 1;
    var u := us[n];
    StreamPrefix(s, digest, us);
    hide Utf8Length, Ids, Contents, Arrivals, Distinct;
    assert u in us;
    assert u.id !in t.recent;
    InsertNewest(s.recent + Ids(us[..n]), s.capacity, u.id);
    assert s.recent + Ids(us) == s.recent + Ids(us[..n]) + [u.id];
    var echoes := t.echoes + [Echo(u.id, u.hash, t.current)];
    assert Hashes(echoes) == Hashes(t.echoes) + [u.hash];
    assert |echoes| > s.capacity ==> Hashes(echoes[1..]) == Hashes(echoes)[1..];
    NewestAppend(Hashes(s.echoes) + Contents(us[..n]), s.capacity, u.hash);
    assert Hashes(s.echoes) + Contents(us) == Hashes(s.echoes) + Contents(us[..n]) + [u.hash];
    InsertedLast0(t.recent, s.capacity, u.id);
  }

  lemma {:induction false} InsertedLast0(order: seq<Id>, capacity: nat, id: Id)
    requires capacity >= 1
    ensures id in Insert(order, capacity, id)
  {
    var r := Insert(order, capacity, id);
    if id !in order { assert r[|r| - 1] == id; }
  }

  lemma {:induction false} NewestAppend(all: seq<Digest>, capacity: nat, x: Digest)
    requires capacity >= 1
    ensures var before := Newest(all, capacity);
            Newest(all + [x], capacity) == if |before| + 1 > capacity then (before + [x])[1..] else before + [x]
  {
    if |all| >= capacity {
      assert Newest(all, capacity) == all[|all| - capacity..];
      assert (Newest(all, capacity) + [x])[1..] == (all + [x])[|all| + 1 - capacity..];
    }
  }

  lemma {:induction false} StreamRuns(s: Sync, digest: string -> Digest, us: seq<Update>)
    requires Stream(s, digest, us)
    ensures Kept(s, us, Run(s, digest, Arrivals(us))) && Remembered(s, digest, Arrivals(us)) == |us|
    decreases |us|
  {
    if us == [] {
      hide Utf8Length;
      assert s.recent + Ids(us) == s.recent && Hashes(s.echoes) + Contents(us) == Hashes(s.echoes);
    } else {
      hide Receive, Utf8Length, Remembers, Stream, Kept, Ids, Contents, Arrivals;
      var n := |us| - 1;
      StreamPrefix(s, digest, us);
      StreamRuns(s, digest, us[..n]);
      ArrivalApplies(s, digest, us, Run(s, digest, Arrivals(us[..n])));
    }
  }

  /** Each of the updates is applied as it arrives. */
  lemma {:induction false} StreamApplies(s: Sync, digest: string -> Digest, us: seq<Update>, i: nat)
    requires Stream(s, digest, us) && i < |us|
    ensures Receive(Run(s, digest, Arrivals(us[..i])), digest, us[i]).1.Apply?
    decreases |us|
  {
    hide Receive, Utf8Length, Remembers, Stream, Kept, Ids, Contents, Arrivals, Run;
    var n := |us| - 1;
    StreamPrefix(s, digest, us);
    if i < n {
      StreamApplies(s, digest, us[..n], i);
      assert us[..n][..i] == us[..i];
    } else {
      StreamRuns(s, digest, us[..n]);
      ArrivalApplies(s, digest, us, Run(s, digest, Arrivals(us[..n])));
    }
  }

  lemma {:induction false} PushedOut(all: seq<nat>, capacity: nat, at: nat)
    requires at < |all| - capacity && forall i | at < i < |all| :: all[i] != all[at]
    ensures all[at] !in Newest(all, capacity)
  {
    var tail := Newest(all, capacity);
    assert forall j | 0 <= j < |tail| :: tail[j] == all[|all| - capacity + j];
  }

  /** The bound on repeated application is exact: once as many further updates were applied as the window holds,
      the first one is applied again. */
  lemma {:induction false} AppliedAgain(s: Sync, digest: string -> Digest, u: Update, others: seq<Update>)
    requires Stream(s, digest, [u] + others) && |others| >= s.capacity && others[|others| - 1].hash != u.hash
    ensures Receive(s, digest, u).1.Apply? && Remembered(s, digest, Arrivals([u] + others)) == 1 + |others|
    ensures Receive(Run(s, digest, Arrivals([u] + others)), digest, u).1.Apply?
  {
    var us := [u] + others;
    StreamRuns(s, digest, us);
    StreamApplies(s, digest, us, 0);
    assert Arrivals(us[..0]) == [];
    hide Run, Remembered, Utf8Length, Insert;
    var all := s.recent + Ids(us);
    assert all[|s.recent|] == u.id;
    PushedOut(all, s.capacity, |s.recent|);
    assert u in us && us[|us| - 1] == others[|others| - 1];
  }

  /** Once as many further updates were applied as echoes can be awaited, the first one's echo is gone and its late
      notification is published as if it were new. */
  lemma {:induction false} EvictionRepublishes(s: Sync, digest: string -> Digest, u: Update, others: seq<Update>,
                                               id: Id)
    requires Stream(s, digest, [u] + others) && |others| >= s.capacity && forall v | v in others :: v.hash != u.hash
    ensures Receive(s, digest, u).1.Apply?
    ensures Observe(Run(s, digest, Arrivals([u] + others)), digest, u.text, id).1.Publish?
  {
    var us := [u] + others;
    StreamRuns(s, digest, us);
    StreamApplies(s, digest, us, 0);
    assert Arrivals(us[..0]) == [];
    hide Run, Remembered, Utf8Length, Insert, Receive;
    var t := Run(s, digest, Arrivals(us));
    var all := Hashes(s.echoes) + Contents(us);
    assert all[|s.echoes|] == u.hash;
    forall i | |s.echoes| < i < |all| ensures all[i] != u.hash { assert all[i] == others[i - |s.echoes| - 1].hash; }
    PushedOut(all, s.capacity, |s.echoes|);
    assert u in us && us[|us| - 1] in others;
    forall x | x in t.echoes ensures x.hash != u.hash {
      var i :| 0 <= i < |t.echoes| && t.echoes[i] == x;
      assert Hashes(t.echoes)[i] == x.hash;
    }
    PublishesExactly(t, digest, u.text, id);
  }

  // ---------------------------------------------------------------- what arrives, and writes that fail

  /** An update is applied exactly when it is intact, small enough, from elsewhere, not in the window, and other than
      what was last seen; and what passes all checks but the last is remembered all the same. */
  lemma {:induction false} AppliesExactly(s: Sync, digest: string -> Digest, u: Update)
    requires Sound(s)
    ensures var (t, d) := Receive(s, digest, u);
            var fits := s.enabled && Utf8Length(u.text) <= s.maximum && u.hash == digest(u.text) && u.origin != s.host;
            && (d == Apply(u) <==> fits && u.id !in s.recent && s.current != Some(u.hash))
            && (d.Apply? ==> d.update == u && t.current == Some(u.hash))
            && (u.id in t.recent <==> fits || u.id in s.recent)
            && (!d.Apply? ==> t.current == s.current && t.echoes == s.echoes)
  {
    hide Utf8Length, Insert;
    InsertSound(s.recent, s.capacity, u.id);
  }

  /** A report that is looked at becomes the content last seen; it uses up one awaited echo of its content if there is
      one, and is published, under its own name and remembered, exactly if there is none and it is new. */
  lemma {:induction false} ReportCounts(s: Sync, digest: string -> Digest, text: string, id: Id)
    requires Sound(s)
    ensures var (t, d) := Observe(s, digest, text, id);
            var hash := digest(text);
            if !s.enabled || Utf8Length(text) > s.maximum then t == s && !d.Publish?
            else
              && t.current == Some(hash) && Expected(t.echoes) == Expected(s.echoes) - multiset{hash}
              && (d.Ignore? && d.reason.LocalEcho? <==> hash in Expected(s.echoes))
              && (d.Publish? <==> hash !in Expected(s.echoes) && s.current != Some(hash))
              && (d.Publish? ==> d.update == Update(id, s.host, hash, text) && id in t.recent)
              && (!d.Publish? ==> t.recent == s.recent)
  {
    hide Utf8Length, Insert, Expected;
    EchoOfFirst(s.echoes, digest(text));
    ExpectedHas(s.echoes, digest(text));
    InsertSound(s.recent, s.capacity, id);
    var p := EchoOf(s.echoes, digest(text));
    if p.Some? { ExpectedDropped(s.echoes, p.value); }
  }

  /** What remains of the awaited echoes, or of the window, once one more has come in and gone again. */
  function Spared<T>(all: seq<T>, capacity: nat): seq<T> {
    if |all| < capacity || all == [] then all else all[1..]
  }

  /** Cancelling an update just applied undoes it: the content last seen is what it was, nothing of the update is
      awaited or remembered, and when it is delivered again it is applied again. */
  lemma {:induction false} CancelUndoes(s: Sync, digest: string -> Digest, u: Update)
    requires Sound(s) && Receive(s, digest, u).1.Apply? && forall x | x in s.echoes :: x.id != u.id
    ensures var (t, known) := Cancel(Receive(s, digest, u).0, u.id);
            && known && t.current == s.current && t.enabled && u.id !in t.recent
            && t.echoes == Spared(s.echoes, s.capacity) && t.recent == Spared(s.recent, s.capacity)
            && Receive(t, digest, u).1 == Apply(u)
  {
    hide Utf8Length;
    var s1 := Receive(s, digest, u).0;
    var kept := Spared(s.echoes, s.capacity);
    assert s1.echoes == kept + [Echo(u.id, u.hash, s.current)];
    FirstEchoLast(kept, Echo(u.id, u.hash, s.current));
    assert Without(s1.echoes, |kept|) == kept;
    assert s1.recent == Spared(s.recent, s.capacity) + [u.id];
    assert forall x | x in Spared(s.recent, s.capacity) :: x in s.recent;
    var n := |s1.recent| - 1;
    assert s1.recent[..n] == Spared(s.recent, s.capacity);
    RemoveAt(s1.recent, u.id, n);
    assert s1.recent[n + 1..] == [];
  }

  lemma {:induction false} FirstEchoLast(echoes: seq<Echo>, x: Echo)
    requires forall y | y in echoes :: y.id != x.id
    ensures EchoFor(echoes + [x], x.id) == Some(|echoes|)
  {
    if echoes != [] {
      assert (echoes + [x])[1..] == echoes[1..] + [x];
      FirstEchoLast(echoes[1..], x);
    }
  }

  /** In general cancelling goes by the oldest awaited echo of that name, and brings the content back exactly when that
      echo replaced it with this update's. */
  lemma {:induction false} CancelUndoesExactly(s: Sync, digest: string -> Digest, u: Update, x: Echo)
    requires Sound(s) && Receive(s, digest, u).1.Apply?
    requires var awaited := Receive(s, digest, u).0.echoes;
             exists i :: 0 <= i < |awaited| && awaited[i] == x && x.id == u.id
               && forall j | 0 <= j < i :: awaited[j].id != u.id
    ensures Cancel(Receive(s, digest, u).0, u.id).0.current == s.current <==>
              x.hash == u.hash && x.previous == s.current
  {
    hide Utf8Length, Insert, Remove;
    EchoForFirst(Receive(s, digest, u).0.echoes, u.id);
  }

  /** A name pushed out of the window by two copies, and applied a second time, has two echoes awaited: cancelling the
      second application removes the first one's and brings back content from before the copies. */
  lemma {:induction false} CancelMisses(s: Sync, digest: string -> Digest, u: Update, a: string, b: string, x: Id,
                                        y: Id)
    requires s == Sync(s.host, true, s.maximum, 2, [], [], None) && u.origin != s.host && u.hash == digest(u.text)
    requires Utf8Length(u.text) <= s.maximum && Utf8Length(a) <= s.maximum && Utf8Length(b) <= s.maximum
    requires digest(a) != digest(b) && u.hash != digest(a) && u.hash != digest(b) && u.id != x && u.id != y && x != y
    ensures var t := Run(s, digest, [Received(u), Observed(a, x), Observed(b, y)]);
            && Receive(t, digest, u).1.Apply?
            && t.current == Some(digest(b)) && Cancel(Receive(t, digest, u).0, u.id).0.current == None
  {
    hide Utf8Length;
    var ops := [Received(u), Observed(a, x), Observed(b, y)];
    assert ops[..2] == [Received(u), Observed(a, x)] && ops[..2][..1] == [Received(u)] && [Received(u)][..0] == [];
    assert Run(s, digest, []) == s;
    var s1 := Step(s, digest, Received(u));
    assert s1 == Run(s, digest, [Received(u)]);
    assert s1.echoes == [Echo(u.id, u.hash, None)] && s1.recent == [u.id] && s1.current == Some(u.hash);
    EchoOfFirst(s1.echoes, digest(a));
    EchoOfFirst(s1.echoes, digest(b));
    assert [u.id] + [x] == [u.id, x] && ([u.id, x] + [y])[1..] == [x, y];
    var s2 := Step(s1, digest, Observed(a, x));
    assert s2 == Run(s, digest, ops[..2]);
    assert s2.echoes == s1.echoes && s2.recent == [u.id, x] && s2.current == Some(digest(a));
    var t := Step(s2, digest, Observed(b, y));
    assert t == Run(s, digest, ops);
    assert t.echoes == s1.echoes && t.recent == [x, y] && t.current == Some(digest(b));
    assert Receive(t, digest, u).0.echoes == [Echo(u.id, u.hash, None), Echo(u.id, u.hash, Some(digest(b)))];
  }

  /** Every awaited echo replaced something else, and none is awaited while disabled. */
  ghost predicate Awaiting(s: Sync) {
    (forall x | x in s.echoes :: x.previous != Some(x.hash)) && (s.echoes != [] ==> s.enabled)
  }

  lemma {:induction false} RunAwaits(s: Sync, digest: string -> Digest, ops: seq<Op>)
    requires Sound(s) && Awaiting(s)
    ensures var t := Run(s, digest, ops);
            && Sound(t) && Awaiting(t)
            && t.host == s.host && t.maximum == s.maximum && t.capacity == s.capacity
    decreases |ops|
  {
    hide Sound, Utf8Length, Insert, Remove;
    if ops != [] {
      var n := |ops| - 1;
      RunAwaits(s, digest, ops[..n]);
      StepSound(Run(s, digest, ops[..n]), digest, ops[n]);
      StepAwaits(Run(s, digest, ops[..n]), digest, ops[n]);
      hide Step, Awaiting;
    }
  }

  lemma {:induction false} StepAwaits(s: Sync, digest: string -> Digest, op: Op)
    requires Awaiting(s)
    ensures Awaiting(Step(s, digest, op)) && Step(s, digest, op).host == s.host
    ensures Step(s, digest, op).maximum == s.maximum && Step(s, digest, op).capacity == s.capacity
  {
    hide Utf8Length, Insert, Remove;
  }

  /** However much happened since it was applied, an update whose write fails can be cancelled exactly while an echo of
      it is awaited. Content seen last is kept exactly if something
        else superseded it, and otherwise what it replaced is
      back; delivered again, it is applied exactly if its content is not what was seen last. */
  lemma {:induction false} FailedWriteRetries(s: Sync, digest: string -> Digest, u: Update, ops: seq<Op>, x: Echo)
    requires Sound(s) && Awaiting(s) && Receive(s, digest, u).1.Apply?
    requires var awaited := Run(Receive(s, digest, u).0, digest, ops).echoes;
             || (forall y | y in awaited :: y.id != u.id)
             || (exists i :: 0 <= i < |awaited| && awaited[i] == x && x.id == u.id
                             && forall j | 0 <= j < i :: awaited[j].id != u.id)
    ensures var t := Run(Receive(s, digest, u).0, digest, ops);
            var (c, known) := Cancel(t, u.id);
            && (known <==> exists y | y in t.echoes :: y.id == u.id)
            && (!known ==> c == t)
            && (known ==> |c.echoes| == |t.echoes| - 1 && u.id !in c.recent)
            && (known ==> (c.current == t.current <==> t.current != Some(x.hash)))
            && (known && t.current == Some(x.hash) ==> c.current == x.previous)
            && (known ==> (Receive(c, digest, u).1 == Apply(u) <==> c.current != Some(u.hash)))
  {
    hide Utf8Length, Insert, Remove, Run;
    StepSound(s, digest, Received(u));
    StepAwaits(s, digest, Received(u));
    var s1 := Receive(s, digest, u).0;
    RunAwaits(s1, digest, ops);
    var t := Run(s1, digest, ops);
    EchoForFirst(t.echoes, u.id);
    RemoveKeeps(t.recent, u.id);
  }
}
