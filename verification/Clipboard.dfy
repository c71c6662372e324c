/** Clipboard text shared between hosts: what is published, what is applied, and what is recognised as an echo. */
module Clipboard {
  import opened Base

  type Id = nat
  type Digest = nat

  // ---------------------------------------------------------------- recently seen updates

  /** Remembers `id`, forgetting the oldest when there are too many. */
  function Insert(order: seq<Id>, capacity: nat, id: Id): seq<Id> {
    if id in order then order
    else if |order| + 1 > capacity then (order + [id])[1..]
    else order + [id]
  }

  function Remove(order: seq<Id>, id: Id): seq<Id> {
    if order == [] then []
    else if order[0] == id then order[1..]
    else [order[0]] + Remove(order[1..], id)
  }

  ghost predicate Distinct(order: seq<Id>) {
    forall i, j | 0 <= i < j < |order| :: order[i] != order[j]
  }

  lemma {:induction false} RemoveKeeps(order: seq<Id>, id: Id)
    requires Distinct(order)
    ensures var r := Remove(order, id);
            && Distinct(r) && (forall x :: x in r <==> x in order && x != id)
            && |r| == |order| - (if id in order then 1 else 0)
  {
    if order != [] {
      if order[0] == id {
        assert id !in order[1..];
      } else {
        RemoveKeeps(order[1..], id);
        assert order[0] !in order[1..];
        assert order[0] !in Remove(order[1..], id);
      }
      assert order == [order[0]] + order[1..];
    }
  }

  class RecentUpdateIds {
    const capacity: nat
    var order: seq<Id>
    var members: set<Id>

    /** Deque and set hold the same identifiers, each once, and never too many. */
    ghost predicate Valid()
      reads this
    {
      capacity >= 1 && Distinct(order) && members == (set x | x in order) && |order| <= capacity
    }

    constructor (capacity: nat)
      requires capacity >= 1
      ensures Valid() && order == [] && this.capacity == capacity
    {
      this.capacity, order, members := capacity, [], {};
    }

    method Contains(id: Id) returns (r: bool)
      requires Valid()
      ensures r == (id in order)
    {
      r := id in members;
    }

    method InsertId(id: Id)
      requires Valid()
      modifies this
      ensures Valid() && order == Insert(old(order), capacity, id)
    {
      if id in members {
        return;
      }
      Evicts(order, id);
      members := members + {id};
      order := order + [id];
      if |order| > capacity {
        var evicted := order[0];
        order := order[1..];
        members := members - {evicted};
      }
    }

    method RemoveId(id: Id) returns (removed: bool)
      requires Valid()
      modifies this
      ensures Valid() && order == Remove(old(order), id) && removed == (id in old(order))
    {
      RemoveKeeps(order, id);
      if id !in members {
        RemoveAbsent(order, id);
        return false;
      }
      members := members - {id};
      var position := 0;
      while position < |order| && order[position] != id
        invariant 0 <= position <= |order| && id !in order[..position]
      {
        position := position + 1;
      }
      RemoveAt(order, id, position);
      order := order[..position] + order[position + 1..];
      return true;
    }
  }

  lemma {:induction false} Evicts(order: seq<Id>, id: Id)
    requires Distinct(order) && id !in order
    ensures var longer := order + [id];
            && Distinct(longer) && Distinct(longer[1..])
            && (set x | x in longer) == (set x | x in order) + {id}
            && (set x | x in longer[1..]) == (set x | x in longer) - {longer[0]}
  {
    var longer := order + [id];
    assert longer == [longer[0]] + longer[1..];
    assert longer[0] !in longer[1..];
    assert forall x :: x in longer <==> x in order || x == id;
  }

  lemma {:induction false} RemoveAbsent(order: seq<Id>, id: Id)
    requires id !in order
    ensures Remove(order, id) == order
  {
    if order != [] {
      RemoveAbsent(order[1..], id);
      assert order == [order[0]] + order[1..];
    }
  }

  lemma {:induction false} RemoveAt(order: seq<Id>, id: Id, position: nat)
    requires position < |order| && order[position] == id && id !in order[..position]
    ensures Remove(order, id) == order[..position] + order[position + 1..]
  {
    if position > 0 {
      assert order[0] in order[..position];
      assert forall x | x in order[1..][..position - 1] :: x in order[..position];
      RemoveAt(order[1..], id, position - 1);
      assert order[..position] == [order[0]] + order[1..][..position - 1];
    }
  }

  // ---------------------------------------------------------------- synchronizer

  datatype Update = Update(id: Id, origin: HostId, hash: Digest, text: string)

  datatype IgnoreReason = Disabled | DuplicateUpdate(id: Id) | LocallyOriginated(id: Id) | LocalEcho(id: Id)
    | UnchangedContent

  datatype RejectReason = PayloadTooLarge(actual: nat, maximum: nat)
    | HashMismatch(declared: Digest, calculated: Digest)

  datatype Decision = Publish(update: Update) | Apply(update: Update) | Ignore(reason: IgnoreReason)
    | Reject(cause: RejectReason)

  /** An applied update whose clipboard notification is still to come. */
  datatype Echo = Echo(id: Id, hash: Digest, previous: Option<Digest>)

  datatype Sync = Sync(host: HostId, enabled: bool, maximum: nat, capacity: nat, recent: seq<Id>, echoes: seq<Echo>,
                       current: Option<Digest>)

  function Fresh(host: HostId, enabled: bool, maximum: nat, capacity: nat): Sync {
    Sync(host, enabled, maximum, capacity, [], [], None)
  }

  /** Bytes a character takes in UTF-8. */
  function Width(c: char): nat {
    if c as int < 0x80 then 1 else if c as int < 0x800 then 2 else if c as int < 0x10000 then 3 else 4
  }

  function Utf8Length(text: string): nat {
    if text == "" then 0 else Width(text[0]) + Utf8Length(text[1..])
  }

  function EchoOf(echoes: seq<Echo>, hash: Digest): Option<nat> {
    if echoes == [] then None
    else if echoes[0].hash == hash then Some(0)
    else
      var rest := EchoOf(echoes[1..], hash);
      if rest.Some? then Some(rest.value + 1) else None
  }

  lemma {:induction false} EchoOfFirst(echoes: seq<Echo>, hash: Digest)
    ensures var p := EchoOf(echoes, hash);
            && (p.Some? ==>
                 p.value < |echoes| && echoes[p.value].hash == hash
                   && forall i | 0 <= i < p.value :: echoes[i].hash != hash)
            && (p.None? ==> forall e | e in echoes :: e.hash != hash)
  {
    if echoes != [] { EchoOfFirst(echoes[1..], hash); }
  }

  function EchoFor(echoes: seq<Echo>, id: Id): Option<nat> {
    if echoes == [] then None
    else if echoes[0].id == id then Some(0)
    else
      var rest := EchoFor(echoes[1..], id);
      if rest.Some? then Some(rest.value + 1) else None
  }

  lemma {:induction false} EchoForFirst(echoes: seq<Echo>, id: Id)
    ensures var p := EchoFor(echoes, id);
            && (p.Some? ==>
                 p.value < |echoes| && echoes[p.value].id == id && forall i | 0 <= i < p.value :: echoes[i].id != id)
            && (p.None? ==> forall e | e in echoes :: e.id != id)
  {
    if echoes != [] { EchoForFirst(echoes[1..], id); }
  }

  function Without(echoes: seq<Echo>, i: nat): seq<Echo>
    requires i < |echoes|
  {
    echoes[..i] + echoes[i + 1..]
  }

  /** The platform reports `text` on the local clipboard; `id` is what a new update would be called. */
  function Observe(s: Sync, digest: string -> Digest, text: string, id: Id): (Sync, Decision) {
    if !s.enabled then (s, Ignore(Disabled))
    else if Utf8Length(text) > s.maximum then (s, Reject(PayloadTooLarge(Utf8Length(text), s.maximum)))
    else
      var hash := digest(text);
      var p := EchoOf(s.echoes, hash);
      EchoOfFirst(s.echoes, hash);
      if p.Some? then
        (s.(echoes := Without(s.echoes, p.value), current := Some(hash)), Ignore(LocalEcho(s.echoes[p.value].id)))
      else if s.current == Some(hash) then (s, Ignore(UnchangedContent))
      else (s.(current := Some(hash), recent := Insert(s.recent, s.capacity, id)),
            Publish(Update(id, s.host, hash, text)))
  }

  function Receive(s: Sync, digest: string -> Digest, u: Update): (Sync, Decision) {
    if !s.enabled then (s, Ignore(Disabled))
    else if Utf8Length(u.text) > s.maximum then (s, Reject(PayloadTooLarge(Utf8Length(u.text), s.maximum)))
    else if digest(u.text) != u.hash then (s, Reject(HashMismatch(u.hash, digest(u.text))))
    else if u.origin == s.host then (s, Ignore(LocallyOriginated(u.id)))
    else if u.id in s.recent then (s, Ignore(DuplicateUpdate(u.id)))
    else
      var t := s.(recent := Insert(s.recent, s.capacity, u.id));
      if s.current == Some(u.hash) then (t, Ignore(UnchangedContent))
      else
        var echoes := s.echoes + [Echo(u.id, u.hash, s.current)];
        (t.(current := Some(u.hash), echoes := if |echoes| > s.capacity then echoes[1..] else echoes), Apply(u))
  }

  /** The write of an applied update failed: its echo will not come, and it may be tried again. */
  function Cancel(s: Sync, id: Id): (Sync, bool) {
    var p := EchoFor(s.echoes, id);
    EchoForFirst(s.echoes, id);
    if p.None? then (s, false)
    else
      var e := s.echoes[p.value];
      (s.(echoes := Without(s.echoes, p.value), recent := Remove(s.recent, id),
          current := if s.current == Some(e.hash) then e.previous else s.current), true)
  }

  function SetEnabled(s: Sync, enabled: bool): Sync {
    if s.enabled == enabled then s else s.(enabled := enabled, current := None, echoes := [])
  }

  class ClipboardSynchronizer {
    const host: HostId
    const maximum: nat
    var enabled: bool
    const recent: RecentUpdateIds
    var echoes: seq<Echo>
    var current: Option<Digest>

    ghost predicate Valid()
      reads this, recent
    {
      recent.Valid() && |echoes| <= recent.capacity
    }

    function State(): Sync
      reads this, recent
    {
      Sync(host, enabled, maximum, recent.capacity, recent.order, echoes, current)
    }

    constructor (host: HostId, enabled: bool, maximum: nat, capacity: nat)
      requires capacity >= 1
      ensures Valid() && fresh(recent) && State() == Fresh(host, enabled, maximum, capacity)
    {
      this.host, this.enabled, this.maximum := host, enabled, maximum;
      recent := new RecentUpdateIds(capacity);
      echoes, current := [], None;
    }

    method SetMode(on: bool) returns (previous: bool)
      requires Valid()
      modifies this
      ensures Valid() && State() == SetEnabled(old(State()), on) && previous == old(enabled)
    {
      previous := enabled;
      if previous != on {
        enabled := on;
        current := None;
        echoes := [];
      }
    }

    method ObserveLocalText(digest: string -> Digest, text: string, id: Id) returns (d: Decision)
      requires Valid()
      modifies this, recent
      ensures Valid() && Observe(old(State()), digest, text, id) == (State(), d)
    {
      hide Utf8Length, Insert;
      if !enabled {
        return Ignore(Disabled);
      }
      if Utf8Length(text) > maximum {
        return Reject(PayloadTooLarge(Utf8Length(text), maximum));
      }
      var hash := digest(text);
      EchoOfFirst(echoes, hash);
      var position := 0;
      while position < |echoes| && echoes[position].hash != hash
        invariant 0 <= position <= |echoes| && forall i | 0 <= i < position :: echoes[i].hash != hash
      {
        position := position + 1;
      }
      if position < |echoes| {
        var expected := echoes[position];
        echoes := echoes[..position] + echoes[position + 1..];
        current := Some(hash);
        return Ignore(LocalEcho(expected.id));
      }
      if current == Some(hash) {
        return Ignore(UnchangedContent);
      }
      current := Some(hash);
      recent.InsertId(id);
      return Publish(Update(id, host, hash, text));
    }

    method ReceiveRemote(digest: string -> Digest, u: Update) returns (d: Decision)
      requires Valid()
      modifies this, recent
      ensures Valid() && Receive(old(State()), digest, u) == (State(), d)
    {
      hide Utf8Length, Insert;
      if !enabled {
        return Ignore(Disabled);
      }
      if Utf8Length(u.text) > maximum {
        return Reject(PayloadTooLarge(Utf8Length(u.text), maximum));
      }
      var calculated := digest(u.text);
      if calculated != u.hash {
        return Reject(HashMismatch(u.hash, calculated));
      }
      if u.origin == host {
        return Ignore(LocallyOriginated(u.id));
      }
      var seen := recent.Contains(u.id);
      if seen {
        return Ignore(DuplicateUpdate(u.id));
      }
      recent.InsertId(u.id);
      if current == Some(u.hash) {
        return Ignore(UnchangedContent);
      }
      var previous := current;
      current := Some(u.hash);
      echoes := echoes + [Echo(u.id, u.hash, previous)];
      if |echoes| > recent.capacity {
        echoes := echoes[1..];
      }
      return Apply(u);
    }

    method CancelExpectedEcho(id: Id) returns (cancelled: bool)
      requires Valid()
      modifies this, recent
      ensures Valid() && Cancel(old(State()), id) == (State(), cancelled)
    {
      hide Remove;
      EchoForFirst(echoes, id);
      var position := 0;
      while position < |echoes| && echoes[position].id != id
        invariant 0 <= position <= |echoes| && forall i | 0 <= i < position :: echoes[i].id != id
      {
        position := position + 1;
      }
      if position == |echoes| {
        return false;
      }
      var expected := echoes[position];
      echoes := echoes[..position] + echoes[position + 1..];
      var _ := recent.RemoveId(id);
      if current == Some(expected.hash) {
        current := expected.previous;
      }
      return true;
    }
  }
}
