/** The manager's route policy operations as it runs them, on a live routing core. */
module PeerManager {
  import opened Base
  import opened RoutePersistence
  import R = RoutingCore
  import D = Daemon

  class ManagedPeer {
    const daemon: R.DaemonCore
    var authority: Option<nat>
    var stores: Stores

    constructor (daemon: R.DaemonCore, stores: Stores)
      ensures this.daemon == daemon && authority.None? && this.stores == stores
    {
      this.daemon, this.authority, this.stores := daemon, None, stores;
    }

    function State(): Peer
      reads this, daemon
    {
      Peer(daemon.State(), authority)
    }

    method RequireRouteStore(store: nat) returns (accepted: bool)
      modifies this`authority
      ensures RequireStore(old(State()), store) == if accepted then Some(State()) else None
      ensures !accepted ==> State() == old(State())
    {
      if authority.Some? {
        return authority.value == store;
      }
      authority := Some(store);
      return true;
    }

    /** Whether the save worked; either way the store may now hold the new content. */
    method Save(store: nat, c: D.Config, saving: Saving) returns (saved: bool)
      modifies this`stores
      ensures stores == Persist(old(stores), store, c, saving) && saved == (saving == Stored)
    {
      if store in stores && saving != NotStored(false) {
        stores := stores[store := c];
      }
      return saving == Stored;
    }

    method SettleRoutePolicyUpdate(status: D.PolicyStatus, store: nat, saving: Saving, now: U64) returns (r: Reply)
      requires daemon.Valid()
      modifies this`stores, daemon
      ensures daemon.Valid()
              && RoutePersistence.Settle(old(State()), old(stores), status, store, saving, now)
                == Managed(State(), stores, r)
    {
      hide D.StagedRoutes, D.CommitRoutes, Persist;
      var committed := daemon.revision;
      if status == D.PolicyCleanup {
        return Reply(CleanupFirst, committed);
      }
      var staged := D.StagedRoutes(daemon.State());
      if staged.None? {
        return Busy;
      }
      CommitFails(daemon.State(), staged.value.revision, now);
      var saved := Save(store, staged.value.config, saving);
      if !saved {
        return Reply(PersistencePending, committed);
      }
      var c := daemon.CommitRoutePolicyUpdate(staged.value.revision, now);
      return if c.Granted? then Reply(Committed, c.value) else Policy(c.error);
    }

    /** The committed configuration goes back to the store before the candidate is dropped. */
    method GiveUpRoutePolicyUpdate(status: D.PolicyStatus, store: nat, saving: Saving, now: U64) returns (r: Reply)
      requires daemon.Valid()
      modifies this`stores, daemon
      ensures daemon.Valid()
              && RoutePersistence.GiveUp(old(State()), old(stores), status, store, saving, now)
                == Managed(State(), stores, r)
    {
      hide D.StagedRoutes, D.AbortRoutes, Persist;
      var committed := daemon.revision;
      if status == D.PolicyCleanup {
        return Reply(CleanupFirst, committed);
      }
      var staged := D.StagedRoutes(daemon.State());
      if staged.None? {
        return Busy;
      }
      var saved := Save(store, daemon.config, saving);
      if !saved {
        return Reply(PersistencePending, committed);
      }
      var a := daemon.AbortRoutePolicyUpdate(staged.value.revision, now);
      return if a.Granted? then Reply(Committed, committed) else Policy(a.error);
    }

    method ResumeRoutePolicyUpdate(store: nat, saving: Saving, now: U64) returns (r: Reply)
      requires daemon.Valid()
      modifies this`stores, daemon
      ensures daemon.Valid()
              && RoutePersistence.Resume(old(State()), old(stores), store, saving, now) == Managed(State(), stores, r)
    {
      hide D.RetryRoutes, RoutePersistence.Settle;
      var status := daemon.RetryRoutePolicyUpdate(now);
      if status.Denied? {
        return Policy(status.error);
      }
      r := SettleRoutePolicyUpdate(status.value, store, saving, now);
    }
  }

  lemma {:induction false} CommitFails(s: D.Core, revision: U64, now: U64)
    ensures D.CommitRoutes(s, revision, now).PolicyFailed? ==> D.CommitRoutes(s, revision, now).core == s
  {
    hide D.PolicyProgress, D.Relabel;
  }
}
