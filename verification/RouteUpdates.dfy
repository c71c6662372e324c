/** Route updates get through: what is stored comes into force, what is given up is undone on disk first. */
module RouteUpdates {
  import opened Base
  import opened Ledger
  import opened Daemon
  import opened DaemonRuns
  import opened DaemonPolicy
  import opened DaemonReroute
  import opened DaemonOperations
  import opened RoutePersistence

  /** The store may be used for the peer's policy. */
  predicate MayUse(p: Peer, store: nat) {
    p.authority.None? || p.authority == Some(store)
  }

  /** A peer bound to one store answers to no other, and nothing changes. */
  lemma {:induction false} OneStoreOnly(p: Peer, stores: Stores, c: Config, expected: U64, drain: seq<Step>,
                                        delivered: bool,
                                        store: nat, saving: Saving, now: U64)
    requires !MayUse(p, store)
    ensures ReplaceUpdate(p, stores, c, expected, drain, delivered, store, saving, now) == Managed(p, stores, Busy)
    ensures RetryUpdate(p, stores, drain, delivered, store, saving, now) == Managed(p, stores, Busy)
    ensures AbortUpdate(p, stores, drain, delivered, store, saving, now) == Managed(p, stores, Busy)
  {
  }

  /** Nothing stands between the retained candidate and its commit but the save. */
  ghost predicate Due(s: Core) {
    && s.decision.None? && Policied(s) && Abroad(s) && s.candidate.Some?
    && Settled(s.ledger) && Displaced(s, s.candidate.value.config.routes) == {}
  }

  /** A due candidate is in force exactly once it is stored, and then it is what the store holds; otherwise it is still
      retained, and the answer says so. */
  lemma {:induction false} StoredComesIntoForce(p: Peer, stores: Stores, store: nat, saving: Saving, now: U64)
    requires Due(p.core)
    ensures var m := Settle(p, stores, ReadyToPersist, store, saving, now);
            var c := p.core.candidate.value;
            && m.peer.authority == p.authority
            && if saving == Stored then
                 && m.reply == Reply(Committed, c.revision) && m.peer.core.config == c.config
                 && m.peer.core.candidate.None?
                 && (store in stores ==> m.stores == stores[store := c.config])
               else m.reply == Reply(PersistencePending, p.core.revision) && m.peer == p
  {
    RetriesExactly(p.core, now);
    StagedIsRetained(p.core);
    CommitPlaces(p.core, p.core.candidate.value.revision, now);
    hide Policied, Abroad, CommitRoutes, StagedRoutes, Displaced, RetryRoutes, Placed, Owed;
  }

  /** A due candidate that is given up is gone exactly once the policy in force is what the store holds again. */
  lemma {:induction false} GivenUpIsUndone(p: Peer, stores: Stores, store: nat, saving: Saving, now: U64)
    requires Due(p.core)
    ensures var m := GiveUp(p, stores, ReadyToPersist, store, saving, now);
            && m.peer.core.config == p.core.config && m.peer.core.revision == p.core.revision
            && if saving == Stored then
                 && m.reply == Reply(Committed, p.core.revision) && m.peer.core.candidate.None?
                 && (store in stores ==> m.stores == stores[store := p.core.config])
               else m.reply == Reply(PersistencePending, p.core.revision) && m.peer == p
  {
    RetriesExactly(p.core, now);
    StagedIsRetained(p.core);
    AbortsExactly(p.core, p.core.candidate.value.revision, now);
    hide Policied, Abroad, AbortRoutes, StagedRoutes, Displaced, RetryRoutes, Owed;
  }

  /** A proposal that can be staged and displaces nothing is in force after one successful request. */
  lemma {:induction false} ProposalComesIntoForce(p: Peer, stores: Stores, c: Config, drain: seq<Step>, delivered: bool,
                                                  store: nat,
                                                  now: U64)
    requires p.core.decision.None? && Policied(p.core) && Abroad(p.core) && p.core.candidate.None? && MayUse(p, store)
    requires !p.core.handoff && p.core.revision < U64_MAX && Settled(p.core.ledger)
    requires ValidConfig(Next(p.core, c)) && c == p.core.config.(routes := c.routes, revision := c.revision)
    requires Displaced(p.core, c.routes) == {}
    ensures var m := ReplaceUpdate(p, stores, c, p.core.revision, drain, delivered, store, Stored, now);
            && m.reply == Reply(Committed, p.core.revision + 1) && m.peer.core.config == Next(p.core, c)
            && m.peer.authority == Some(store) && (store in stores ==> m.stores == stores[store := Next(p.core, c)])
  {
    hide Policied, Abroad, PrepareRoutes, Displaced, ValidConfig, Owed, Settle, Settled;
    StagesExactly(p.core, c, p.core.revision, now);
    assert |Displaced(p.core, c.routes)| == 0;
    StagedAbroad(p.core, c, now);
    PrepareFrame(p.core, c, now);
    var t := PrepareRoutes(p.core, c, p.core.revision, now).core;
    SameDisplaced(p.core, t, c.routes);
    StoredComesIntoForce(Peer(t, Some(store)), stores, store, Stored, now);
  }

  lemma {:induction false} RetryStaysDue(s: Core, now: U64)
    requires Due(s)
    ensures var r := RetryRoutes(s, now);
            && r.PolicyDone? && r.value == ReadyToPersist && Due(r.core) && r.core.candidate == s.candidate
            && r.core.config == s.config && r.core.revision == s.revision
  {
    RetriesExactly(s, now);
    RetryKeeps(s, now);
    RetryFrame(s, now);
    assert |Displaced(s, s.candidate.value.config.routes) - Owed(s.ledger.cleanup)| == 0 && |s.ledger.cleanup| == 0;
    var t := RetryRoutes(s, now).core;
    SameDisplaced(s, t, s.candidate.value.config.routes);
    var picked := RetryMoves(s, now);
    QueueSpreads(s.ledger, picked);
    hide RetryRoutes, Queue, Displaced, Owed;
    assert Abroad(t);
    assert Policied(t) by { hide Abroad; KeptTransacts(s, t); }
  }

  lemma {:induction false} RetryFrame(s: Core, now: U64)
    ensures var t := RetryRoutes(s, now).core; t.view == s.view && t.endpoints == s.endpoints && t.table == s.table
  {
    hide Queue, Misrouted, RoutingActive, Mirrors, PolicyProgress;
  }

  /** Once its releases are delivered and nothing stands in its way, a retained candidate comes into force by a retry
      that is stored, and is gone by a withdrawal that is; with releases undelivered neither touches a store. */
  lemma {:induction false} RetriedComesIntoForce(p: Peer, stores: Stores, drain: seq<Step>, store: nat, saving: Saving,
                                                 now: U64)
    requires MayUse(p, store) && Due(Drain(p.core, drain))
    ensures var m := RetryUpdate(p, stores, drain, true, store, saving, now);
            var s := Drain(p.core, drain);
            && m.peer.authority == Some(store)
            && if saving == Stored then
                 && m.reply == Reply(Committed, s.candidate.value.revision)
                 && m.peer.core.config == s.candidate.value.config
                 && (store in stores ==> m.stores == stores[store := s.candidate.value.config])
               else m.reply == Reply(PersistencePending, s.revision) && m.peer.core.candidate == s.candidate
    ensures var m := AbortUpdate(p, stores, drain, true, store, saving, now);
            var s := Drain(p.core, drain);
            && m.peer.core.config == s.config
            && if saving == Stored then
                 && m.reply == Reply(Committed, s.revision) && m.peer.core.candidate.None?
                 && (store in stores ==> m.stores == stores[store := s.config])
               else m.reply == Reply(PersistencePending, s.revision) && m.peer.core.candidate == s.candidate
    ensures RetryUpdate(p, stores, drain, false, store, saving, now).stores == stores
    ensures AbortUpdate(p, stores, drain, false, store, saving, now).stores == stores
  {
    hide Due, Drain, RetryRoutes, Settle, GiveUp;
    var s := Drain(p.core, drain);
    RetryStaysDue(s, now);
    var q := Peer(RetryRoutes(s, now).core, Some(store));
    StoredComesIntoForce(q, stores, store, saving, now);
    GivenUpIsUndone(q, stores, store, saving, now);
  }

  /** A proposal that displaces something comes into force by one request too, if the releases it owes are delivered on
      the spot and leave nothing in its way. */
  lemma {:induction false} DisplacingComesIntoForce(p: Peer, stores: Stores, c: Config, expected: U64, drain: seq<Step>,
                                                    store: nat,
                                                    now: U64)
    requires MayUse(p, store)
    requires var r := PrepareRoutes(p.core, c, expected, now);
             r.PolicyDone? && r.value == PolicyCleanup && Due(Drain(r.core, drain))
    ensures var m := ReplaceUpdate(p, stores, c, expected, drain, true, store, Stored, now);
            var s := Drain(PrepareRoutes(p.core, c, expected, now).core, drain);
            && m.reply == Reply(Committed, s.candidate.value.revision) && m.peer.core.config == s.candidate.value.config
            && (store in stores ==> m.stores == stores[store := s.candidate.value.config])
  {
    hide Due, Drain, RetryRoutes, Settle, PrepareRoutes;
    var s := Drain(PrepareRoutes(p.core, c, expected, now).core, drain);
    RetryStaysDue(s, now);
    StoredComesIntoForce(Peer(RetryRoutes(s, now).core, Some(store)), stores, store, Stored, now);
  }
}
