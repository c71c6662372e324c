/** Owed releases go out: in order, each offered until it is settled, until nothing is owed. */
module DaemonDrain {
  import opened Base
  import opened Ledger
  import opened Daemon
  import opened LedgerLemmas
  import opened DaemonReroute

  /** One release is taken, sent and confirmed. */
  function Round(s: Core, now: U64): Core {
    var (t, token) := TakeCleanup(s);
    if token.None? then t else ConfirmCleanup(t, token.value, now).core
  }

  function Rounds(s: Core, n: nat, now: U64): Core {
    if n == 0 then s else Round(Rounds(s, n - 1, now), now)
  }

  /** The front is offered exactly if there is one and none is out; the offer names the release as it was owed. */
  lemma {:induction false} OffersFront(s: Core)
    ensures var (t, token) := TakeCleanup(s);
            && (token.Some? <==> s.ledger.cleanup != [] && s.ledger.inFlight.None?)
            && (token.Some? ==>
                  && token.value.id == s.ledger.cleanup[0].id && token.value.key == s.ledger.cleanup[0].key
                  && token.value.covered == s.ledger.cleanup[0].covered
                  && t == s.(ledger := s.ledger.(inFlight := Some(token.value.id))))
            && (token.None? ==> t == s)
  {
  }

  lemma {:induction false} RoundSettlesFront(s: Core, now: U64)
    requires s.ledger.cleanup != [] && s.ledger.inFlight.None?
    ensures var t := Round(s, now);
            && t.ledger
              == s.ledger.(cleanup := s.ledger.cleanup[1..], held := s.ledger.held - {s.ledger.cleanup[0].key})
            && t == s.(ledger := t.ledger, published := t.published)
  {
    hide RoutingActive, Mirrors;
  }

  /** After as many rounds, that many releases from the front are settled, and exactly what they were owed for is no
      longer held. */
  lemma {:induction false} RoundsSettle(s: Core, n: nat, now: U64)
    requires s.ledger.inFlight.None? && n <= |s.ledger.cleanup|
    ensures var t := Rounds(s, n, now);
            && t.ledger.cleanup == s.ledger.cleanup[n..] && t.ledger.inFlight.None?
            && t.ledger.held == s.ledger.held - Owed(s.ledger.cleanup[..n])
            && t == s.(ledger := s.ledger.(cleanup := t.ledger.cleanup, held := t.ledger.held),
                       published := t.published)
    decreases n
  {
    hide Round;
    if n == 0 {
      assert Owed(s.ledger.cleanup[..0]) == {};
      assert s.ledger.held - {} == s.ledger.held;
    } else {
      RoundsSettle(s, n - 1, now);
      var u := Rounds(s, n - 1, now);
      RoundSettlesFront(u, now);
      var front := s.ledger.cleanup[n - 1];
      assert s.ledger.cleanup[..n] == s.ledger.cleanup[..n - 1] + [front];
      OwedAppend(s.ledger.cleanup[..n - 1], [front]);
      assert Owed([front]) == {front.key} by { OneOwed(front); }
      hide Owed;
      assert (s.ledger.held - Owed(s.ledger.cleanup[..n - 1])) - {front.key}
          == s.ledger.held - (Owed(s.ledger.cleanup[..n - 1]) + {front.key});
    }
  }

  lemma {:induction false} OneOwed(x: Entry)
    ensures Owed([x]) == {x.key}
  {
    assert x in [x];
  }

  /** As many rounds as there are owed releases leave nothing owed, and held exactly what nothing was owed for. */
  lemma {:induction false} CleanupDrains(s: Core, now: U64)
    requires s.ledger.inFlight.None?
    ensures var t := Rounds(s, |s.ledger.cleanup|, now);
            Settled(t.ledger) && t.ledger.held == s.ledger.held - Owed(s.ledger.cleanup)
  {
    RoundsSettle(s, |s.ledger.cleanup|, now);
    assert s.ledger.cleanup[..|s.ledger.cleanup|] == s.ledger.cleanup;
    hide Rounds, Owed;
  }

  /** A release that could not be sent stays at the front, is offered again just as before, and shuts routing meanwhile;
      any other is refused and shuts routing too. */
  lemma {:induction false} RetryOffersAgain(s: Core, token: Token, now: U64)
    ensures var r := RetryCleanup(s, token, now);
            && (r.result.Ok? <==>
                 s.ledger.inFlight == Some(token.id) && s.ledger.cleanup != [] && s.ledger.cleanup[0].id == token.id)
            && !r.core.ready
            && (r.result.Ok? ==>
                  && r.core.ledger == s.ledger.(inFlight := None) && r.core.view.activeHost == s.view.localHost
                  && !r.core.handoff
                  && TakeCleanup(r.core).1 == TakeCleanup(s.(ledger := s.ledger.(inFlight := None))).1
                  && TakeCleanup(r.core).1.Some?)
            && (r.result.Err? ==> r.core.ledger == s.ledger)
  {
    hide RoutingActive, Mirrors, Publish;
  }

  /** Only the release that is out can be confirmed; anything else is refused, shuts routing and leaves the ledger
      alone. */
  lemma {:induction false} ConfirmsOnlyFront(s: Core, token: Token, now: U64)
    ensures var r := ConfirmCleanup(s, token, now);
            && (r.result.Ok? <==>
                 s.ledger.inFlight == Some(token.id) && s.ledger.cleanup != [] && s.ledger.cleanup[0].id == token.id)
            && (r.result.Err? ==> r.core.ledger == s.ledger && !r.core.ready)
  {
    hide RoutingActive, Mirrors, Publish;
  }
}
