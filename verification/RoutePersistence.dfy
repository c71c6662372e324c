/** Route policy on disk and in force: a revision is saved before it is committed, and given up only once undone on
    disk. */
module RoutePersistence {
  import opened Base
  import opened Ledger
  import opened Daemon
  import opened DaemonRuns
  import opened DaemonLedger
  import opened DaemonControl
  import opened DaemonPolicy
  import S = ConfigStore
  import H = Handoff

  // ---------------------------------------------------------------- what a save may leave behind

  /** A failed save may or may not have put the new configuration in place. */
  datatype Saving = Stored | NotStored(installed: bool)

  function Written(content: Config, c: Config, s: Saving): Config {
    if s == NotStored(false) then content else c
  }

  /** The file store behaves in no other way towards whoever loads from it. */
  lemma {:induction false} FileStoreWrites(d: S.Disk, content: Config, c: Config, fits: bool, f: S.Fates)
    returns (s: Saving)
    requires S.Load(d) == S.Found(content)
    ensures var a := S.Save(d, c, fits, f);
            S.Load(a.disk) == S.Found(Written(content, c, s)) && (a.outcome == S.Saved ==> s == Stored)
  {
    S.CrashSafe(d, c, fits, f);
    hide S.Save;
    var a := S.Save(d, c, fits, f);
    s := if a.outcome == S.Saved then Stored else NotStored(S.Load(a.disk) == S.Found(c) && content != c);
  }

  // ---------------------------------------------------------------- the manager's operations

  /** The routing core of a peer, and the one store its policy has been bound to. */
  datatype Peer = Peer(core: Core, authority: Option<nat>)

  datatype Progress = CleanupFirst | PersistencePending | Committed

  datatype Reply = Reply(progress: Progress, revision: U64) | Busy | Policy(error: PolicyError)

  /** Every store by its authority, with what loading from it yields. */
  type Stores = map<nat, Config>

  datatype Managed = Managed(peer: Peer, stores: Stores, reply: Reply)

  /** The first store used is the only one ever used. */
  function RequireStore(p: Peer, store: nat): Option<Peer> {
    if p.authority.None? then Some(p.(authority := Some(store)))
    else if p.authority.value == store then Some(p)
    else None
  }

  function Persist(stores: Stores, store: nat, c: Config, s: Saving): Stores {
    if store in stores then stores[store := Written(stores[store], c, s)] else stores
  }

  function Settle(p: Peer, stores: Stores, status: PolicyStatus, store: nat, saving: Saving, now: U64): Managed {
    var before := p.core.revision;
    if status == PolicyCleanup then Managed(p, stores, Reply(CleanupFirst, before))
    else
      var staged := StagedRoutes(p.core);
      if staged.None? then Managed(p, stores, Busy)
      else
        var after := Persist(stores, store, staged.value.config, saving);
        if saving != Stored then Managed(p, after, Reply(PersistencePending, before))
        else
          var c := CommitRoutes(p.core, staged.value.revision, now);
          if c.PolicyDone? then Managed(p.(core := c.core), after, Reply(Committed, c.value))
          else Managed(p, after, Policy(c.error))
  }

  /** The releases a proposal calls for are attempted at once; `delivered` tells whether all went out. */
  function Drain(core: Core, drain: seq<Step>): Core {
    Execute(core, drain)
  }

  function ReplaceUpdate(p0: Peer, stores: Stores, c: Config, expected: U64, drain: seq<Step>, delivered: bool,
                         store: nat, saving: Saving, now: U64): Managed {
    match RequireStore(p0, store)
    case None => Managed(p0, stores, Busy)
    case Some(p) =>
      var r := PrepareRoutes(p.core, c, expected, now);
      if r.PolicyFailed? then Managed(p.(core := r.core), stores, Policy(r.error))
      else if r.value == ReadyToPersist then Settle(p.(core := r.core), stores, r.value, store, saving, now)
      else if !delivered then Managed(p.(core := Drain(r.core, drain)), stores, Reply(CleanupFirst, expected))
      else Resume(p.(core := Drain(r.core, drain)), stores, store, saving, now)
  }

  function Resume(p: Peer, stores: Stores, store: nat, saving: Saving, now: U64): Managed {
    var r := RetryRoutes(p.core, now);
    if r.PolicyFailed? then Managed(p.(core := r.core), stores, Policy(r.error))
    else Settle(p.(core := r.core), stores, r.value, store, saving, now)
  }

  function RetryUpdate(p0: Peer, stores: Stores, drain: seq<Step>, delivered: bool, store: nat, saving: Saving,
                       now: U64): Managed {
    match RequireStore(p0, store)
    case None => Managed(p0, stores, Busy)
    case Some(p) =>
      var q := p.(core := Drain(p.core, drain));
      if !delivered then Managed(q, stores, Reply(CleanupFirst, q.core.revision))
        else Resume(q, stores, store, saving, now)
  }

  function AbortUpdate(p0: Peer, stores: Stores, drain: seq<Step>, delivered: bool, store: nat, saving: Saving,
                       now: U64): Managed {
    match RequireStore(p0, store)
    case None => Managed(p0, stores, Busy)
    case Some(p) =>
      var q := p.(core := Drain(p.core, drain));
      if !delivered then Managed(q, stores, Reply(CleanupFirst, q.core.revision))
      else
        var r := RetryRoutes(q.core, now);
        if r.PolicyFailed? then Managed(q.(core := r.core), stores, Policy(r.error))
        else GiveUp(q.(core := r.core), stores, r.value, store, saving, now)
  }

  function GiveUp(p: Peer, stores: Stores, status: PolicyStatus, store: nat, saving: Saving, now: U64): Managed {
    var revision := p.core.revision;
    if status == PolicyCleanup then Managed(p, stores, Reply(CleanupFirst, revision))
    else
      var staged := StagedRoutes(p.core);
      if staged.None? then Managed(p, stores, Busy)
      else
        var after := Persist(stores, store, p.core.config, saving);
        if saving != Stored then Managed(p, after, Reply(PersistencePending, revision))
        else
          var a := AbortRoutes(p.core, staged.value.revision, now);
          Managed(p.(core := a.core), after, if a.PolicyDone? then Reply(Committed, revision) else Policy(a.error))
  }

  // ---------------------------------------------------------------- runs

  predicate Draining(steps: seq<Step>) {
    forall i | 0 <= i < |steps| ::
      steps[i].op.CleanupTaken? || steps[i].op.CleanupConfirmed? || steps[i].op.CleanupRetried?
  }

  datatype Act =
    | Replaced(config: Config, expected: U64, drain: seq<Step>, delivered: bool, store: nat, saving: Saving)
    | Retried(drain: seq<Step>, delivered: bool, store: nat, saving: Saving)
    | Aborted(drain: seq<Step>, delivered: bool, store: nat, saving: Saving)
    | Elsewhere(op: Op)

  /** Only the manager's own operations touch the route policy. */
  predicate Allowed(a: Act) {
    match a
    case Elsewhere(op) => !ForPolicy(op)
    case _ => Draining(a.drain)
  }

  datatype World = World(peer: Peer, stores: Stores)

  function Perform(w: World, a: Act, now: U64): World {
    match a
    case Replaced(c, expected, drain, delivered, store, saving) =>
      var m := ReplaceUpdate(w.peer, w.stores, c, expected, drain, delivered, store, saving, now);
      World(m.peer, m.stores)
    case Retried(drain, delivered, store, saving) =>
      var m := RetryUpdate(w.peer, w.stores, drain, delivered, store, saving, now);
      World(m.peer, m.stores)
    case Aborted(drain, delivered, store, saving) =>
      var m := AbortUpdate(w.peer, w.stores, drain, delivered, store, saving, now);
      World(m.peer, m.stores)
    case Elsewhere(op) => w.(peer := w.peer.(core := Apply(w.peer.core, op, now)))
  }

  datatype Move = Move(now: U64, act: Act)

  function PerformAll(w: World, moves: seq<Move>): World
    decreases |moves|
  {
    if moves == [] then w
    else
      var n := |moves| - 1;
      Perform(PerformAll(w, moves[..n]), moves[n].act, moves[n].now)
  }

  /** The bound store holds the policy in force or the retained candidate; until one is bound, all hold the policy in
      force. */
  ghost predicate Durable(p: Peer, stores: Stores) {
    && p.core.decision.None? && Policied(p.core)
    && (forall s | s in stores && (p.authority.None? || s == p.authority.value) ::
          stores[s] == p.core.config
            || (p.authority.Some? && p.core.candidate.Some? && stores[s] == p.core.candidate.value.config))
    && (p.authority.None? ==> p.core.candidate.None?)
  }

  /** A change of revision happened together with a successful save of exactly what came into force. */
  ghost predicate SavedFirst(p: Peer, q: Peer, stores: Stores, saving: Saving) {
    q.core.revision != p.core.revision ==>
      saving == Stored && q.authority.Some?
        && (q.authority.value in stores ==> stores[q.authority.value] == q.core.config)
  }

  /** The policy in force stays what it was or gives way to a later revision. */
  ghost predicate Advances(p: Peer, q: Peer) {
    || p.core.revision < q.core.revision
    || (p.core.revision == q.core.revision && p.core.config == q.core.config)
  }

  lemma {:induction false} DrainKeeps(core: Core, drain: seq<Step>)
    requires core.decision.None? && Draining(drain)
    ensures var t := Drain(core, drain); t.decision.None? && KeepsPolicy(core, t) && (t.handoff ==> core.handoff)
  {
    hide Apply;
    if drain != [] {
      var n := |drain| - 1;
      DrainKeeps(core, drain[..n]);
      var t := Execute(core, drain[..n]);
      StepSettled(t, drain[n].op, drain[n].now);
      OpSteers(t, drain[n].op, drain[n].now);
    }
  }

  lemma {:induction false} KeptDurable(p: Peer, t: Core, stores: Stores)
    requires Durable(p, stores) && t.decision.None? && KeepsPolicy(p.core, t)
             && (t.handoff ==> p.core.handoff || p.core.candidate.None?)
    ensures Durable(p.(core := t), stores)
  {
    hide Policied;
    KeptTransacts(p.core, t);
  }

  lemma {:induction false} BoundDurable(p: Peer, store: nat, stores: Stores)
    requires Durable(p, stores)
    ensures RequireStore(p, store).Some? ==> Durable(RequireStore(p, store).value, stores)
  {
    hide Policied;
  }

  lemma {:induction false} CommitExactly(s: Core, now: U64)
    requires s.decision.None? && StagedRoutes(s).Some?
    ensures var c := CommitRoutes(s, StagedRoutes(s).value.revision, now);
            && StagedRoutes(s) == s.candidate
            && c.PolicyDone? && c.core.config == s.candidate.value.config && c.core.candidate.None?
            && c.core.decision.None?
            && c.core.revision == s.candidate.value.revision
  {
    hide PolicyProgress, Relabel, RoutingActive, Mirrors;
  }

  lemma {:induction false} SettleDurable(p: Peer, stores: Stores, status: PolicyStatus, store: nat, saving: Saving,
                                         now: U64)
    requires Durable(p, stores) && p.authority == Some(store)
    ensures var m := Settle(p, stores, status, store, saving, now);
            && Durable(m.peer, m.stores) && SavedFirst(p, m.peer, m.stores, saving) && Advances(p, m.peer)
            && m.peer.authority == p.authority && m.stores.Keys == stores.Keys
  {
    hide Policied, CommitRoutes, StagedRoutes;
    if StagedRoutes(p.core).Some? {
      CandidateNext(p.core);
      CommitExactly(p.core, now);
      CommitTransacts(p.core, StagedRoutes(p.core).value.revision, now);
    }
  }

  lemma {:induction false} CandidateNext(s: Core)
    requires Policied(s)
    ensures s.candidate.Some? ==> s.candidate.value.revision == s.revision + 1
  {
    hide ValidConfig, Compile, Affected;
  }

  lemma {:induction false} AbortExactly(s: Core, now: U64)
    requires s.decision.None? && s.candidate.Some?
    ensures var a := AbortRoutes(s, s.candidate.value.revision, now);
            a.PolicyDone? && a.core.config == s.config && a.core.candidate.None? && a.core.decision.None?
              && a.core.revision == s.revision
  {
    hide RoutingActive, Mirrors;
  }

  lemma {:induction false} GiveUpDurable(p: Peer, stores: Stores, status: PolicyStatus, store: nat, saving: Saving,
                                         now: U64)
    requires Durable(p, stores) && p.authority == Some(store)
    ensures var m := GiveUp(p, stores, status, store, saving, now);
            && Durable(m.peer, m.stores) && m.peer.core.revision == p.core.revision && Advances(p, m.peer)
            && m.peer.authority == p.authority && m.stores.Keys == stores.Keys
  {
    hide Policied, AbortRoutes, StagedRoutes;
    if StagedRoutes(p.core).Some? {
      StagedIsCandidate(p.core);
      AbortExactly(p.core, now);
      AbortTransacts(p.core, p.core.candidate.value.revision, now);
    }
  }

  lemma {:induction false} StagedIsCandidate(s: Core)
    ensures StagedRoutes(s).Some? ==> StagedRoutes(s) == s.candidate
  {
    hide PolicyProgress;
  }

  lemma {:induction false} RetryKeeps(s: Core, now: U64)
    requires s.decision.None?
    ensures var t := RetryRoutes(s, now).core; t.decision.None? && KeepsPolicy(s, t) && (t.handoff ==> s.handoff)
  {
    hide RetryRoutes;
    var picked := RetryMoves(s, now);
    RetrySteers(s, now);
  }

  lemma {:induction false} ResumeDurable(p: Peer, stores: Stores, store: nat, saving: Saving, now: U64)
    requires Durable(p, stores) && p.authority == Some(store)
    ensures var m := Resume(p, stores, store, saving, now);
            && Durable(m.peer, m.stores) && SavedFirst(p, m.peer, m.stores, saving) && Advances(p, m.peer)
            && m.peer.authority == p.authority && m.stores.Keys == stores.Keys
  {
    hide Policied, RetryRoutes, Settle, Durable;
    Deciding(p, stores);
    RetryKeeps(p.core, now);
    var t := RetryRoutes(p.core, now);
    KeptDurable(p, t.core, stores);
    if t.PolicyDone? { SettleDurable(p.(core := t.core), stores, t.value, store, saving, now); }
  }

  lemma {:induction false} Deciding(p: Peer, stores: Stores)
    requires Durable(p, stores)
    ensures p.core.decision.None? && Policied(p.core)
  {
  }

  lemma {:induction false} PrepareKeeps(p: Peer, stores: Stores, c: Config, expected: U64, now: U64)
    requires Durable(p, stores) && p.authority.Some?
    ensures var t := PrepareRoutes(p.core, c, expected, now).core;
            Durable(p.(core := t), stores) && t.revision == p.core.revision && t.config == p.core.config
  {
    hide Policied, PrepareRoutes;
    var picked := PrepareMoves(p.core, c, expected, now);
    PrepareTransacts(p.core, c, expected, now);
    PrepareSteers(p.core, c, expected, now);
    assert PrepareRoutes(p.core, c, expected, now).core.config == p.core.config
           by { PrepareSameConfig(p.core, c, expected, now); }
  }

  lemma {:induction false} PrepareSameConfig(s: Core, c: Config, expected: U64, now: U64)
    ensures PrepareRoutes(s, c, expected, now).core.config == s.config
  {
    hide Queue, RoutingActive, Mirrors, PolicyProgress, Misrouted, ValidConfig, Compile, Affected;
  }

  lemma {:induction false} ReplaceDurable(p0: Peer, stores: Stores, c: Config, expected: U64, drain: seq<Step>,
                                          delivered: bool, store: nat, saving: Saving, now: U64)
    requires Durable(p0, stores) && Draining(drain)
    ensures var m := ReplaceUpdate(p0, stores, c, expected, drain, delivered, store, saving, now);
            && Durable(m.peer, m.stores) && SavedFirst(p0, m.peer, m.stores, saving) && m.stores.Keys == stores.Keys
            && Advances(p0, m.peer) && m.peer.authority in {p0.authority, Some(store)}
  {
    hide Policied, PrepareRoutes, Settle, Durable, Resume, Drain, Draining;
    BoundDurable(p0, store, stores);
    if RequireStore(p0, store).Some? {
      var p := RequireStore(p0, store).value;
      PrepareKeeps(p, stores, c, expected, now);
      var r := PrepareRoutes(p.core, c, expected, now);
      var q := p.(core := r.core);
      if r.PolicyDone? {
        if r.value == ReadyToPersist {
          SettleDurable(q, stores, r.value, store, saving, now);
        } else {
          Deciding(q, stores);
          DrainKeeps(q.core, drain);
          KeptDurable(q, Drain(q.core, drain), stores);
          ResumeDurable(q.(core := Drain(q.core, drain)), stores, store, saving, now);
        }
      }
    }
  }

  lemma {:induction false} DrainDurable(p0: Peer, stores: Stores, drain: seq<Step>, store: nat)
    requires Durable(p0, stores) && Draining(drain)
    ensures var b := RequireStore(p0, store);
            b.Some? ==>
              var q := b.value.(core := Drain(b.value.core, drain));
              && Durable(q, stores) && q.authority == Some(store)
              && q.core.revision == p0.core.revision && q.core.config == p0.core.config
  {
    hide Policied, Durable, Drain, Draining;
    BoundDurable(p0, store, stores);
    if RequireStore(p0, store).Some? {
      var p := RequireStore(p0, store).value;
      Deciding(p, stores);
      DrainKeeps(p.core, drain);
      KeptDurable(p, Drain(p.core, drain), stores);
    }
  }

  lemma {:induction false} RetryDurable(p0: Peer, stores: Stores, drain: seq<Step>, delivered: bool, store: nat,
                                        saving: Saving, now: U64)
    requires Durable(p0, stores) && Draining(drain)
    ensures var m := RetryUpdate(p0, stores, drain, delivered, store, saving, now);
            && Durable(m.peer, m.stores) && SavedFirst(p0, m.peer, m.stores, saving) && m.stores.Keys == stores.Keys
            && Advances(p0, m.peer) && m.peer.authority in {p0.authority, Some(store)}
  {
    hide Durable, Resume, Drain, Draining;
    DrainDurable(p0, stores, drain, store);
    if RequireStore(p0, store).Some? && delivered {
      var p := RequireStore(p0, store).value;
      ResumeDurable(p.(core := Drain(p.core, drain)), stores, store, saving, now);
    }
  }

  lemma {:induction false} AbortDurable(p0: Peer, stores: Stores, drain: seq<Step>, delivered: bool, store: nat,
                                        saving: Saving, now: U64)
    requires Durable(p0, stores) && Draining(drain)
    ensures var m := AbortUpdate(p0, stores, drain, delivered, store, saving, now);
            && Durable(m.peer, m.stores) && m.peer.core.revision == p0.core.revision && m.stores.Keys == stores.Keys
            && Advances(p0, m.peer) && m.peer.authority in {p0.authority, Some(store)}
  {
    hide Durable, GiveUp, Drain, Draining, RetryRoutes, Policied;
    DrainDurable(p0, stores, drain, store);
    if RequireStore(p0, store).Some? && delivered {
      var p := RequireStore(p0, store).value;
      var q := p.(core := Drain(p.core, drain));
      Deciding(q, stores);
      RetryKeeps(q.core, now);
      var r := RetryRoutes(q.core, now);
      KeptDurable(q, r.core, stores);
      if r.PolicyDone? { GiveUpDurable(q.(core := r.core), stores, r.value, store, saving, now); }
    }
  }

  lemma {:induction false} ElsewhereDurable(p: Peer, stores: Stores, op: Op, now: U64)
    requires Durable(p, stores) && !ForPolicy(op)
    ensures Durable(p.(core := Apply(p.core, op, now)), stores) && Apply(p.core, op, now).revision == p.core.revision
    ensures Advances(p, p.(core := Apply(p.core, op, now)))
  {
    hide Apply, Policied, Leaves, Justified, Shown, Drains, Capture;
    StepSettled(p.core, op, now);
    if op.Captured? {
      var c := CaptureCase(p.core, op.event, op.accepted, now);
      ApplyCapture(p.core, op, now);
    } else {
      OpSteers(p.core, op, now);
    }
    KeptDurable(p, Apply(p.core, op, now), stores);
  }

  /** What an act said about its own save; acts elsewhere save nothing. */
  function SavingOf(a: Act): Saving {
    if a.Elsewhere? then NotStored(false) else a.saving
  }

  function BoundBy(a: Act): Option<nat> {
    if a.Elsewhere? then None else Some(a.store)
  }

  lemma {:induction false} PerformDurable(w: World, a: Act, now: U64)
    requires Durable(w.peer, w.stores) && Allowed(a)
    ensures var v := Perform(w, a, now);
            && Durable(v.peer, v.stores) && SavedFirst(w.peer, v.peer, v.stores, SavingOf(a))
            && v.stores.Keys == w.stores.Keys
            && Advances(w.peer, v.peer) && (v.peer.authority == w.peer.authority || v.peer.authority == BoundBy(a))
  {
    hide Durable, ReplaceUpdate, RetryUpdate, AbortUpdate, Apply, Draining;
    match a {
      case Replaced(c, expected, drain, delivered, store, saving) =>
        ReplaceDurable(w.peer, w.stores, c, expected, drain, delivered, store, saving, now);
      case Retried(drain, delivered, store, saving) =>
        RetryDurable(w.peer, w.stores, drain, delivered, store, saving, now);
      case Aborted(drain, delivered, store, saving) =>
        AbortDurable(w.peer, w.stores, drain, delivered, store, saving, now);
      case Elsewhere(op) => ElsewhereDurable(w.peer, w.stores, op, now);
    }
  }

  /** In every run in which only the manager changes the policy, the bound store always yields the policy in force or
      the one retained candidate, and a revision comes into force only in the step that has just saved it. */
  lemma {:induction false} PersistBeforeCommit(config: Config, v: H.View, s: Core, stores: Stores, moves: seq<Move>)
    requires Start(config, v) == Some(s) && (forall x | x in stores :: stores[x] == s.config)
    requires forall i | 0 <= i < |moves| :: Allowed(moves[i].act)
    ensures var w := PerformAll(World(Peer(s, None), stores), moves);
            Durable(w.peer, w.stores) && w.stores.Keys == stores.Keys
    ensures moves != [] ==>
              var before := PerformAll(World(Peer(s, None), stores), moves[..|moves| - 1]);
              var after := PerformAll(World(Peer(s, None), stores), moves);
              SavedFirst(before.peer, after.peer, after.stores, SavingOf(moves[|moves| - 1].act))
    decreases |moves|
  {
    hide Durable, Perform, Start, Allowed, SavedFirst;
    if moves == [] {
      StartDurable(config, v, s, stores);
    } else {
      var n := |moves| - 1;
      PersistBeforeCommit(config, v, s, stores, moves[..n]);
      PerformDurable(PerformAll(World(Peer(s, None), stores), moves[..n]), moves[n].act, moves[n].now);
    }
  }

  lemma {:induction false} StartDurable(config: Config, v: H.View, s: Core, stores: Stores)
    requires Start(config, v) == Some(s) && (forall x | x in stores :: stores[x] == s.config)
    ensures Durable(Peer(s, None), stores)
  {
    hide Start, Policied;
    StartPolicied(config, v, s);
    StartsEmpty(config, v, s);
  }

  // ---------------------------------------------------------------- crashes and restarts

  /** The process goes on, or it stops, perhaps inside an act whose save did or did not take effect, and starts again
      from its store. */
  datatype LifeStep = Lives(move: Move) | Dies(during: Option<Move>, view: H.View)

  predicate Startable(v: H.View) {
    v.localHost != NIL && v.activeHost == v.localHost && v.activeDisplay == v.pointer.display
  }

  predicate UsesHome(a: Act, home: nat) {
    Allowed(a) && BoundBy(a) in {None, Some(home)}
  }

  /** One store is used throughout, and each start shows a local view. */
  predicate AtHome(step: LifeStep, home: nat) {
    match step
    case Lives(m) => UsesHome(m.act, home)
    case Dies(during, v) => Startable(v) && (during.Some? ==> UsesHome(during.value.act, home))
  }

  /** What the store holds when the process stops. */
  function LeftBehind(w: World, during: Option<Move>): Stores {
    if during.Some? then Perform(w, during.value.act, during.value.now).stores else w.stores
  }

  function Live(w: World, home: nat, step: LifeStep): World {
    match step
    case Lives(m) => Perform(w, m.act, m.now)
    case Dies(during, v) =>
      var stores := LeftBehind(w, during);
      var s := if home in stores then Start(stores[home], v) else None;
      if s.None? then w else World(Peer(s.value, None), stores)
  }

  function LiveAll(w: World, home: nat, steps: seq<LifeStep>): World
    decreases |steps|
  {
    if steps == [] then w else Live(LiveAll(w, home, steps[..|steps| - 1]), home, steps[|steps| - 1])
  }

  /** The one store there is backs the peer's policy. */
  ghost predicate Homed(w: World, home: nat) {
    Durable(w.peer, w.stores) && w.stores.Keys == {home} && w.peer.authority in {None, Some(home)}
  }

  lemma {:induction false} HeldConfigStarts(p: Peer, c: Config, v: H.View)
    requires Policied(p.core) && Startable(v)
    requires c == p.core.config || (p.core.candidate.Some? && c == p.core.candidate.value.config)
    ensures var s := Start(c, v);
            s.Some? && s.value.config == c && s.value.revision == c.revision && Advances(p, Peer(s.value, None))
  {
    hide ValidConfig, Compile, PeersFor, Affected;
  }

  /** A restart finds in force exactly what was in force when the process stopped, or the candidate then retained. */
  lemma {:induction false} RestartResumes(w: World, home: nat, v: H.View)
    requires Homed(w, home) && Startable(v)
    ensures var u := Live(w, home, Dies(None, v));
            && Homed(u, home) && Advances(w.peer, u.peer) && u.stores == w.stores
            && u.peer.core.candidate.None? && u.peer.core.config == w.stores[home]
            && (u.peer.core.config == w.peer.core.config
                || (w.peer.core.candidate.Some? && u.peer.core.config == w.peer.core.candidate.value.config))
  {
    hide Start, Policied;
    assert home in w.stores.Keys;
    var c := w.stores[home];
    HeldConfigStarts(w.peer, c, v);
    StartDurable(c, v, Start(c, v).value, w.stores);
  }

  lemma {:induction false} LiveHomed(w: World, home: nat, step: LifeStep)
    requires Homed(w, home) && AtHome(step, home)
    ensures Homed(Live(w, home, step), home) && Advances(w.peer, Live(w, home, step).peer)
  {
    hide Durable, Perform, Start, Allowed, SavedFirst, Startable;
    match step
    case Lives(m) => PerformDurable(w, m.act, m.now);
    case Dies(during, v) =>
      if during.Some? {
        PerformDurable(w, during.value.act, during.value.now);
        var u := Perform(w, during.value.act, during.value.now);
        RestartResumes(u, home, v);
      } else {
        RestartResumes(w, home, v);
      }
  }

  lemma {:induction false} LivesHomed(w: World, home: nat, steps: seq<LifeStep>)
    requires Homed(w, home) && forall k | 0 <= k < |steps| :: AtHome(steps[k], home)
    ensures Homed(LiveAll(w, home, steps), home)
    decreases |steps|
  {
    hide Homed, AtHome, Live;
    if steps != [] {
      var n := |steps| - 1;
      LivesHomed(w, home, steps[..n]);
      LiveHomed(LiveAll(w, home, steps[..n]), home, steps[n]);
    }
  }

  /** No crash ever takes a policy back: through any acts, stops inside or between them and restarts, the revision in
      force never falls, and as long as it stays the same so does the configuration. */
  lemma {:induction false} SurvivesCrashes(config: Config, v: H.View, s: Core, home: nat, steps: seq<LifeStep>, i: nat)
    requires Start(config, v) == Some(s) && i <= |steps| && forall k | 0 <= k < |steps| :: AtHome(steps[k], home)
    ensures var w := World(Peer(s, None), map[home := config]);
            Homed(LiveAll(w, home, steps), home)
              && Advances(LiveAll(w, home, steps[..i]).peer, LiveAll(w, home, steps).peer)
    decreases |steps|
  {
    hide Start, Durable, AtHome, Live;
    var w := World(Peer(s, None), map[home := config]);
    assert s.config == config by { StartsWith(config, v, s); }
    StartDurable(config, v, s, w.stores);
    LivesHomed(w, home, steps);
    if i == |steps| {
      assert steps[..i] == steps;
    } else {
      var n := |steps| - 1;
      SurvivesCrashes(config, v, s, home, steps[..n], i);
      assert steps[..n][..i] == steps[..i];
      LivesHomed(w, home, steps[..n]);
      LiveHomed(LiveAll(w, home, steps[..n]), home, steps[n]);
    }
  }

  lemma {:induction false} StartsWith(config: Config, v: H.View, s: Core)
    requires Start(config, v) == Some(s)
    ensures s.config == config
  {
    hide ValidConfig, Compile, PeersFor;
  }
}
