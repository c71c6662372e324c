# Verified model of the software KVM's safety core

Two computers share one keyboard and pointer. The daemon on each decides, event by event, where input goes. This
project models the parts of it whose mistakes a user would feel at once, and proves what they keep over whole runs:

- **Pointer handoff** (`Handoff*.dfy`, `CoordinatorCore.dfy`, `Topology.dfy`): the Leave/Enter/Ack/Commit protocol with
  which two coordinators pass authority across a network that may lose, repeat, delay and reorder.
- **Held-input ledger** (`Ledger*.dfy`, `Daemon*.dfy`, `Physical.dfy`, `RoutingCore.dfy`): which keys are down, where their
  lifecycle went, what is held on which peer and which releases are owed, with failsafe, handoff gate and route policy.
- **Route persistence and configuration store** (`ConfigStore.dfy`, `Route*.dfy`, `PeerManager.dfy`): the
  crash-safe file replacement, and the rule that a revision is saved before it comes into force.
- **Device inventory** (`Inventory*.dfy`, `DeviceInventory.dfy`): revisioned device lists bound to exact sessions.
- **Clipboard** (`Clipboard*.dfy`, `Utf8.dfy`): echo suppression and the bounded replay window.

## How it is built

Each component has its state as one datatype and each operation as one function from a state to the next state and the
result it reports; error branches are results, not preconditions. Theorems about runs quantify over all sequences of
operations and are proved by induction over per-operation lemmas. Each operation also has its exact condition: what it
does and when, over configuration, view, sessions and messages as they are before the call. Beside it stands the component as the daemon runs it,
a class with the source's own fields, nested maps, queues, loops and early returns, each of whose methods is proved to
compute its function. The coordinator's class carries its validity as an object invariant, and its methods say where
authority went; the other theorems about runs are stated of the functions.

Time, message delivery, failures of sends, of writes and of file primitives, fresh identifiers and the digest of a text
are parameters. 64-bit counters are bounded and their exhaustion is modelled; coordinates are reals. A capture is one
step from decision to settlement, as the one-shot decision tokens require. Dispatching a handoff message is not one step:
a peer may act on a queued message before its sender has recorded having sent it.

Results that differ from what one might expect:

- Agreement between latches, held controls and owed releases fails while a route candidate is retained, in one way
  only. `DaemonCoherence.CoherentExactly` gives the exact condition, as guards on the state before the call,
  `DaemonClash.CoherenceNeedsNoCandidate` a run.
- A clipboard notification can be republished after its echo was evicted, used up by a user copying the same text, or
  forgotten by switching synchronization off and on (`ClipboardRuns.EvictionRepublishes`,
  `ClipboardRuns.CoincidenceRepublishes`, `ClipboardRuns.ToggleRepublishes`). `ClipboardRuns.RepublishesExactly` gives
  the exact condition after arbitrary events, `ClipboardRuns.LoopFree` rules it out in runs without these three.
- Cancelling a failed clipboard write brings back content from before it was last replaced when the same update was
  applied twice and both notifications are awaited (`ClipboardRuns.CancelMisses`, `ClipboardRuns.CancelUndoesExactly`).
- The documentation of `set_peer_state` (core.rs:1594-1600) promises releases on a non-connected transition; the code
  records the state only, and refuses once an endpoint is installed. The model follows the code.
- The documentation of `handoff_pending` (core.rs:57-59) says capture remains local; the code makes events of devices
  that follow the active host inert. The model follows the code.

`dafny verify dfyconfig.toml` checks the whole project.

## Model

| member | source | states |
|---|---|---|
| Topology.Resolve | crates/kvm-topology/src/configured.rs:182-298 | a configured crossing that resolves echoes the display, edge and position asked for, joins displays owned by the hosts it names through opposite edges, and lands inside the destination display |
| Topology.ResolvesExactly | crates/kvm-topology/src/configured.rs:182-298 | a crossing resolves if and only if a link joins the edge to the facing edge of another display, both edges lie on one line of the plane, and the point of crossing lies on the other edge, its end counting only for a crossing at the very end; it names the linked display and lands in proportion |
| Topology.Landing | crates/kvm-topology/src/configured.rs:230-298 | the landing point lies on the entered edge, within the display, and divides that edge in the crossing's proportion |
| HandoffValidity.CreateValid | crates/kvm-daemon/src/pointer_handoff.rs:569-595 | a coordinator is created exactly for a consistent view and a usable local fallback, and starts valid |
| HandoffValidity.ApplyKept | crates/kvm-daemon/src/pointer_handoff.rs:619-1188 | every operation, administrative ones included, keeps a coordinator valid |
| HandoffValidity.RunValid | crates/kvm-daemon/src/pointer_handoff.rs:619-1995 | after any sequence of operations: never both directions pending; a pending outbound means local authority; the active display belongs to the active host and contains the pointer; the fallback is a local point; nothing pending has reached its deadline |
| HandoffSafety.AdvanceInv | crates/kvm-daemon/src/pointer_handoff.rs:721-1188 | one step of either host, over a network that loses, repeats and reorders, keeps the token invariant from which single authority follows |
| HandoffSafety.SingleAuthority | crates/kvm-daemon/src/pointer_handoff.rs:601-607 | two hosts that start out agreeing on the owner never both have local authority, in any run with lost, duplicated, reordered and late messages, timeouts and failed sends |
| HandoffSafety.StartupConverges | crates/kvm-daemon/src/pointer_handoff.rs:1622-1676 | two hosts that both start out local have a single authority from the first queued Commit on |
| HandoffAgreement.CommitAgreement | crates/kvm-daemon/src/pointer_handoff.rs:1035-1103 | at the moment either host applies its peer's Commit both show the same active host, display and pointer, in every run and in both directions |
| HandoffAgreement.ResolveSame | crates/kvm-daemon/src/pointer_handoff.rs:1418-1464 | a crossing resolves alike wherever geometry and links are the same |
| HandoffAgreement.ExecuteAgree | crates/kvm-daemon/src/pointer_handoff.rs:1035-1464 | what a destination has resolved and not yet applied is, throughout every run, the transition its source resolved |
| HandoffDiscipline.TwoPhase | crates/kvm-daemon/src/pointer_handoff.rs:721-776 | what a host ever queues under one transition identifier is a prefix of Leave, Enter, Commit of one single transition |
| HandoffDiscipline.CommitAnswered | crates/kvm-daemon/src/pointer_handoff.rs:964-1033 | no Commit is ever queued for which the peer has not queued an accepting acknowledgement with matching fields |
| HandoffDiscipline.AppliedOnce | crates/kvm-daemon/src/pointer_handoff.rs:1035-1103 | each host applies Commits under strictly increasing identifiers, so none twice |
| HandoffReplay.ReplayInert | crates/kvm-daemon/src/pointer_handoff.rs:1261-1362 | a message once handled, delivered again at any later point of any run, changes neither the active host nor a sequence counter and applies no Commit |
| HandoffReplay.SpentForever | crates/kvm-daemon/src/pointer_handoff.rs:1822-1860 | a handled message stays recognised as handled through every later step |
| HandoffProgress.HandoffCompletes | crates/kvm-daemon/src/pointer_handoff.rs:721-1188 | from a freshly connected pair of which one is active to itself and the other agrees or is active to itself too, every configured crossing out of the active display has a run, also without the Leave, after which the destination alone has authority and both show where the pointer landed |
| HandoffWire.WireIsTrue | crates/kvm-daemon/src/pointer_handoff.rs:2345-2403 | in every run each host queues only messages that describe a crossing configured at its own end, from itself to its peer |
| HandoffExchange.AgedExactly | crates/kvm-daemon/src/pointer_handoff.rs:1907-1995 | what has reached its deadline is gone and only that; an expired proposal returns the pointer to this host's own point, an expired hint counts as handled |
| HandoffExchange.RefusedAlike | crates/kvm-daemon/src/pointer_handoff.rs:1873-1930 | every operation of a session is refused for the same reasons (clock, lifecycle, session, health), with nothing but time passing |
| HandoffExchange.ProposesExactly | crates/kvm-daemon/src/pointer_handoff.rs:721-776 | a proposal is made if and only if this host is active, nothing is pending, and the crossing from its active display leads to the session's peer; it is numbered next and says just that |
| HandoffExchange.ObservesExactly | crates/kvm-daemon/src/pointer_handoff.rs:778-808 | the pointer is followed if and only if this host has authority, nothing is pending, and the point is its own |
| HandoffExchange.LeaveTakenUp | crates/kvm-daemon/src/pointer_handoff.rs:810-879 | a Leave is taken up if and only if nothing is pending, it carries the next number and this epoch, the peer or this host is active, and its crossing leads from the peer here |
| HandoffExchange.LeaveRepeated | crates/kvm-daemon/src/pointer_handoff.rs:1261-1283 | a Leave counts as a repetition if and only if it is that of the transition handled last or the one pending; it then changes nothing |
| HandoffExchange.EnterAccepted | crates/kvm-daemon/src/pointer_handoff.rs:881-954 | a numbered Enter is accepted if and only if a pending Leave announced it or, with nothing pending, it carries this epoch, the peer or this host is active, and it fits a crossing from the peer here |
| HandoffExchange.RefusalSaysWhy | crates/kvm-daemon/src/pointer_handoff.rs:1364-1416 | with nothing pending the verdict tells a stale epoch, a display that is not the host's, a host not entitled, and no such crossing apart |
| HandoffExchange.NumberingSaysWhy | crates/kvm-daemon/src/pointer_handoff.rs:1822-1850 | a number out of turn is refused with the reason, and when none can follow everything under way is dropped |
| HandoffExchange.UnexpectedSaysWhy | crates/kvm-daemon/src/pointer_handoff.rs:1862-1871 | an answer or Commit that nothing waits for is refused by its number |
| HandoffExchange.NoTimeToAnswer | crates/kvm-daemon/src/pointer_handoff.rs:1485-1521 | an Enter that no time is left to answer is refused, dropping everything under way if it would have been rejected |
| HandoffExchange.AnsweredAlike | crates/kvm-daemon/src/pointer_handoff.rs:1285-1362 | an Enter once answered gets the same answer again; one still to be answered or expired is refused as stale, any other of that number as conflicting, and nothing else changes |
| HandoffExchange.AnswerDecides | crates/kvm-daemon/src/pointer_handoff.rs:956-1033 | an answer leads on to a Commit if and only if it accepts the crossing of the proposal that waits for it; anything else about it ends the proposal at this host's own point |
| HandoffExchange.CommitApplies | crates/kvm-daemon/src/pointer_handoff.rs:1035-1103 | a Commit is applied if and only if it is the very one promised, in time and for the first time |
| HandoffExchange.BeginsExactly | crates/kvm-daemon/src/pointer_handoff.rs:1658-1676 | a send may begin if and only if it is outstanding; only a Commit changes anything by it |
| HandoffExchange.SentExactly | crates/kvm-daemon/src/pointer_handoff.rs:1108-1125 | a send is completed if and only if it is outstanding or a Commit being dispatched, and what is due next is due then |
| HandoffExchange.FailsExactly | crates/kvm-daemon/src/pointer_handoff.rs:1148-1188 | a failure is recorded if and only if the send is outstanding or a Commit being dispatched, and ends what it belonged to |
| HandoffExchange.HandedOutOutstanding | crates/kvm-daemon/src/pointer_handoff.rs:1765-1779 | whatever send an operation hands out is outstanding afterwards |
| HandoffExchange.AdministrationResets | crates/kvm-daemon/src/pointer_handoff.rs:619-719 | binding, degrading, disconnecting, revoking, shutting down and replacing the workspace are granted if and only if the session and workspace allow, and start afresh from this host's own point |
| HandoffValidity.CommitGrants | crates/kvm-daemon/src/pointer_handoff.rs:1035-1103 | authority is taken up exactly by applying the promised Commit, and then at the promised point; any other Commit leaves the active host as it was |
| HandoffValidity.AckPermits | crates/kvm-daemon/src/pointer_handoff.rs:956-1033 | a Commit becomes possible only by a fitting, accepting answer to the one proposal awaiting it; until its dispatch, and after a refusal, the source keeps its authority |
| HandoffValidity.BeginSuspends | crates/kvm-daemon/src/pointer_handoff.rs:1658-1676 | from the moment a Commit may be queued its sender reports no authority, and it holds the peer's acceptance |
| HandoffValidity.SentSettles | crates/kvm-daemon/src/pointer_handoff.rs:1108-1125 | a completed send moves authority exactly when it is that of a Commit being dispatched: to the peer, where the crossing led |
| HandoffValidity.FailureRestores | crates/kvm-daemon/src/pointer_handoff.rs:1148-1188 | a failed send never moves the active host, and a failed proposal or Commit leaves this host with its authority |
| CoordinatorCore.Core.constructor | crates/kvm-daemon/src/pointer_handoff.rs:569-595 | a freshly created coordinator is valid (refines the value-level operation) |
| CoordinatorCore.Core.PollTimeout | crates/kvm-daemon/src/pointer_handoff.rs:1190-1193 | a clock going backwards is refused; otherwise exactly what is due is reported and dropped, and an expired proposal leaves this host with authority (refines the value-level operation) |
| CoordinatorCore.Core.BindSession | crates/kvm-daemon/src/pointer_handoff.rs:619-640 | binding installs a session and starts its counters, or is refused without effect; validity is kept (refines the value-level operation) |
| CoordinatorCore.Core.MarkSessionHealthy | crates/kvm-daemon/src/pointer_handoff.rs:642-654 | only the bound session can become healthy (refines the value-level operation) |
| CoordinatorCore.Core.DegradeSession | crates/kvm-daemon/src/pointer_handoff.rs:656-670 | a degraded session drops what it was negotiating and this host has authority (refines the value-level operation) |
| CoordinatorCore.Core.DisconnectSession | crates/kvm-daemon/src/pointer_handoff.rs:672-682 | a disconnected session leaves nothing behind and this host has authority (refines the value-level operation) |
| CoordinatorCore.Core.Terminate | crates/kvm-daemon/src/pointer_handoff.rs:703-719 | revocation and shutdown are final and local (refines the value-level operation) |
| CoordinatorCore.Core.ReplaceWorkspace | crates/kvm-daemon/src/pointer_handoff.rs:684-701 | a newer workspace with a usable local point is adopted, and this host has authority at that point (refines the value-level operation) |
| CoordinatorCore.Core.ObserveLocalPointer | crates/kvm-daemon/src/pointer_handoff.rs:778-808 | the pointer follows local observation only under local authority and inside a local display; authority is not gained (refines the value-level operation) |
| CoordinatorCore.Core.ProposeLeave | crates/kvm-daemon/src/pointer_handoff.rs:721-776 | a proposal allocates the next identifier and yields a Leave for the resolved crossing; validity is kept and authority not gained, whatever the outcome (refines the value-level operation) |
| CoordinatorCore.Core.ReceiveLeave | crates/kvm-daemon/src/pointer_handoff.rs:810-879 | a Leave opens a pending hint, repeats itself or is refused; validity is kept and authority not gained (refines the value-level operation) |
| CoordinatorCore.Core.ResolveEnter | crates/kvm-daemon/src/pointer_handoff.rs:1435-1464 | the search over edges finds the transition exactly when one single edge matches (refines the value-level operation) |
| CoordinatorCore.Core.ReceiveEnter | crates/kvm-daemon/src/pointer_handoff.rs:881-954 | an Enter is answered by acceptance, refusal or repetition; validity is kept and authority not gained (refines the value-level operation) |
| CoordinatorCore.Core.ReceiveAck | crates/kvm-daemon/src/pointer_handoff.rs:956-1033 | an acknowledgement never moves the active host; it makes a Commit possible only if accepting, fitting and awaited (refines the value-level operation) |
| CoordinatorCore.Core.ReceiveCommit | crates/kvm-daemon/src/pointer_handoff.rs:1035-1106 | this host becomes active only by applying the Commit it promised, at the promised point (refines the value-level operation) |
| CoordinatorCore.Core.BeginDispatch | crates/kvm-daemon/src/pointer_handoff.rs:1658-1676 | a Commit gives up local authority before it can enter the queue (refines the value-level operation) |
| CoordinatorCore.Core.EffectSent | crates/kvm-daemon/src/pointer_handoff.rs:1108-1125 | only a sent Commit moves authority, to the peer (refines the value-level operation) |
| CoordinatorCore.Core.EffectFailed | crates/kvm-daemon/src/pointer_handoff.rs:1148-1188 | a failed send never moves the active host and ends what was proposed (refines the value-level operation) |
| CoordinatorCore.Core.DispatchEffect | crates/kvm-daemon/src/pointer_handoff.rs:1127-1146 | begin, queue, and complete or fail, in this order; no authority while a Commit is being queued, validity kept (refines the value-level operation) |
| Ledger.OrderedVisits | crates/kvm-daemon/src/core.rs:2120-2128 | held controls are visited each exactly once, in one fixed order |
| Ledger.Quarantine | crates/kvm-daemon/src/core.rs:2153-2162 | cutting lifecycles off presses and releases nothing, touches only remote ones that are picked, and leaves none of those |
| LedgerLemmas.QueueEffect | crates/kvm-daemon/src/core.rs:2111-2166 | queueing refuses without effect or adds exactly one obligation, freshly numbered and covering the latest input, for each picked control without one |
| LedgerLemmas.QueueRoom | crates/kvm-daemon/src/core.rs:2129-2138 | where obligations are distinct and for held controls, only identifiers can run out, and exactly when |
| LedgerLemmas.QueueCoherent | crates/kvm-daemon/src/core.rs:2111-2166 | queueing keeps latches, held controls and obligations in agreement |
| LedgerLemmas.ReleasedCoherent | crates/kvm-daemon/src/core.rs:1911-1919 | so does settling the front obligation |
| LedgerLemmas.InvalidateCoherent | crates/kvm-daemon/src/core.rs:1975-1993 | so does losing a transport |
| DaemonRuns.CaptureCase | crates/kvm-daemon/src/core.rs:772-1104 | every capture, from decision to settlement, does one of nine things to the ledger, for stated reasons, and leaves no decision behind |
| DaemonRuns.OpMoves | crates/kvm-daemon/src/core.rs:1140-1995 | every other operation does one of seven things to it |
| DaemonLedger.LedgerIsReplay | crates/kvm-daemon/src/core.rs:990-1058 | in every run the controls held remotely, with the sequence of their latest accepted press or repeat, are exactly what follows from the confirmed presses, releases, cleanup releases and lost transports, and never more than 1024 |
| DaemonLedger.StepNumbered | crates/kvm-daemon/src/core.rs:1870-1995 | obligations are numbered strictly upwards, no identifier is reused, and only the front is ever lent |
| DaemonLedger.ObligationsKept | crates/kvm-daemon/src/core.rs:1870-1995 | no operation loses a release: the old queue is a prefix of the new one, except that a settled token removes exactly the front and a lost transport exactly its own entries |
| DaemonLedger.TokenSettlesItsOwn | crates/kvm-daemon/src/core.rs:1891-1953 | however long a cleanup token is kept, it settles only the obligation it was lent for |
| DaemonLedger.TokenSettlesOnce | crates/kvm-daemon/src/core.rs:1891-1920 | after a token was confirmed nothing with its identifier is accepted again |
| DaemonCoherence.CoherentExactly | crates/kvm-daemon/src/core.rs:1004-1055 | latches, held controls and obligations stay in agreement under every operation, if and only if it is not a first press of a control whose release is still owed to that endpoint |
| DaemonCoherence.RepressesSends | crates/kvm-daemon/src/core.rs:772-960 | the guards that describe such a press in the state before it (eligible, new, room here and there, no shortcut, no drain, not gated, no handoff, reachable target, release owed there) are exactly those of a capture that sends it |
| DaemonCoherence.CoherentThroughout | crates/kvm-daemon/src/core.rs:772-2166 | a run is in agreement at every step if and only if it contains no such press |
| DaemonCoherence.NoCandidateNoClash | crates/kvm-daemon/src/core.rs:2190-2201 | without a retained route candidate such a press is impossible |
| DaemonCoherence.RunCoherent | crates/kvm-daemon/src/core.rs:772-2166 | agreement holds throughout every run without such a press |
| DaemonCoherence.Coherence | crates/kvm-daemon/src/core.rs:1004-1055 | in every run without a retained candidate, each remote latch has a held control of the same endpoint and route and no obligation, and obligations are distinct and for held controls |
| DaemonCoherence.ConfirmNeverFails | crates/kvm-daemon/src/core.rs:990-1058 | where they agree, confirming a queued event always succeeds: its capacity and missing-hold branches are unreachable |
| DaemonCoherence.QueueNeverOverflows | crates/kvm-daemon/src/core.rs:2111-2166 | where they agree, queueing fails only by identifier exhaustion, and exactly then |
| DaemonClash.CoherenceNeedsNoCandidate | crates/kvm-daemon/src/core.rs:2195-2199 | the exception is reachable from a fresh start: with a candidate retained, switching routing off and on lets a key be pressed again while its release is owed |
| DaemonRouting.PolicyCompiled | crates/kvm-router/src/lib.rs:195-247 | the compiled table says of every device what the written routes say, and that without an entry it follows the active host |
| DaemonRouting.ValidPolicy | crates/kvm-daemon/src/core.rs:2295-2303 | a valid configuration routes devices only to paired hosts, and pairs each host and each peer once |
| DaemonRouting.GoesExactly | crates/kvm-daemon/src/core.rs:917-982 | a fresh movement or press is queued for a session if and only if routing is open and that session is the connected one of the host the policy names: the host of its entry, or the active host without one; otherwise it acts here |
| DaemonRouting.HeldBack | crates/kvm-daemon/src/core.rs:917-960 | a fresh event of a gated device, or of one a candidate would route differently, acts here; one a handoff is moving goes nowhere |
| DaemonRouting.NoRoomAbroad | crates/kvm-daemon/src/core.rs:1997-2040 | without room at the peers, or identifiers, the event is refused or acts here, and routing is shut |
| DaemonRouting.ContinuesExactly | crates/kvm-daemon/src/core.rs:889-916 | an event of a pressed control goes on where its press went, to a peer if and only if that very session is connected, routing open and no handoff moving it |
| DaemonRouting.StrayActsHere | crates/kvm-daemon/src/core.rs:889-916 | a repetition or release without a press acts here and changes nothing |
| DaemonRouting.ForeignActsHere | crates/kvm-daemon/src/core.rs:801-813 | input that is not this host's own acts here and changes nothing |
| DaemonRouting.DrainsHere | crates/kvm-daemon/src/core.rs:865-886 | while an escape drains everything acts here, and it drains exactly until no key of the shortcut is down |
| DaemonRouting.ShortcutRead | crates/kvm-daemon/src/core.rs:1805-1821 | the shortcut is complete if and only if each of its keys, either side of a modifier, is down on some device |
| DaemonRouting.RoomExactly | crates/kvm-daemon/src/core.rs:2067-2078 | a press is turned away if and only if it would make more than 64 devices, 256 controls on one, or 1024 in all |
| DaemonRouting.PhysicallyBounded | crates/kvm-daemon/src/core.rs:815-864 | in every run no more is down than that |
| DaemonReroute.HeldAbroad | crates/kvm-daemon/src/core.rs:772-1058 | in every run nothing is held on, and no lifecycle open with, this host itself |
| DaemonReroute.StagesExactly | crates/kvm-daemon/src/core.rs:1246-1319 | a proposal is staged if and only if it is for the revision in force, changes only routes, is valid, nothing is owed or handed off, and all it displaces can be owed; then exactly the displaced controls are owed a release, and it is ready if and only if there are none |
| DaemonReroute.RetriesExactly | crates/kvm-daemon/src/core.rs:1321-1355 | another attempt owes whatever is displaced by now and reports ready if and only if nothing is displaced and nothing owed |
| DaemonReroute.CommitPlaces | crates/kvm-daemon/src/core.rs:1366-1413 | a candidate is committed if and only if it is the retained one, displaces nothing and nothing is owed; afterwards every control held for a device routed differently is at the session of the host the new policy names |
| DaemonReroute.RestagesExactly | crates/kvm-daemon/src/core.rs:1246-1265 | while a candidate is retained only it is answered to, for the revision in force, with its progress and no other effect |
| DaemonReroute.AbortsExactly | crates/kvm-daemon/src/core.rs:1415-1433 | giving a candidate up drops it and nothing else |
| DaemonOperations.BeginsWith | crates/kvm-daemon/src/core.rs:614-667 | a core starts if and only if the configuration is valid and the view local and consistent, with nothing connected, held or routed |
| DaemonOperations.StaleDecisionCloses | crates/kvm-daemon/src/core.rs:2042-2057 | settling a decision that is not outstanding is refused, takes control back, closes routing and leaves the ledger alone |
| DaemonOperations.ConfirmsExactly | crates/kvm-daemon/src/core.rs:990-1064 | confirming the outstanding decision succeeds if and only if it can be recorded; otherwise routing closes, everything held is owed its release and the error says what was missing |
| DaemonOperations.StopsExactly | crates/kvm-daemon/src/core.rs:1735-1784 | disabling and shutting down return control and owe every held control its release, or report that it cannot be owed |
| DaemonOperations.ClosesExactly | crates/kvm-daemon/src/core.rs:1758-1837 | so do clearing readiness and the emergency, which also suspends for the configured time |
| DaemonOperations.StartsExactly | crates/kvm-daemon/src/core.rs:1721-1863 | routing is requested unless shutting down, and made ready if and only if nothing is held or owed and something is connected |
| DaemonOperations.ShutdownIsFinal | crates/kvm-daemon/src/core.rs:1772-1784 | after a shutdown no event leaves this host in any run |
| DaemonOperations.InstallsExactly | crates/kvm-daemon/src/core.rs:1629-1657 | a session is put to use if and only if it is paired and the host has no other |
| DaemonOperations.HealthExactly | crates/kvm-daemon/src/core.rs:1659-1692 | a session that leaves the connected state returns control if its host had it, closes routing and owes everything held there |
| DaemonOperations.RetiresExactly | crates/kvm-daemon/src/core.rs:1694-1719 | a session is retired if and only if it is in use, not connected, and nothing is held or owed there |
| DaemonOperations.LosesExactly | crates/kvm-daemon/src/core.rs:1957-1995 | a lost session takes exactly what is held and owed there with it, and its host if it was in use |
| DaemonOperations.PeerStateExactly | crates/kvm-daemon/src/core.rs:1601-1627 | a state reported before admission is noted for a known peer without a session |
| DaemonOperations.GatesExactly | crates/kvm-daemon/src/core.rs:1445-1472 | gated devices are owed the release of all they hold, within the bound on their number |
| DaemonOperations.RestoresExactly | crates/kvm-daemon/src/core.rs:1474-1497 | a device is restored if and only if nothing of it is held or owed, and exactly its lifecycles are forgotten |
| DaemonOperations.ViewExactly | crates/kvm-daemon/src/core.rs:1506-1544 | a view is adopted if and only if it is this host's, consistent, and keeps the active host or finds nothing owed and nothing following |
| DaemonOperations.HandoffExactly | crates/kvm-daemon/src/core.rs:1548-1572 | a handoff raises its gate and owes the followers their release; cancelling it takes control back, giving up the barrier does not |
| DaemonOperations.FinishExactly | crates/kvm-daemon/src/core.rs:1574-1592 | a handoff is finished if and only if nothing is owed and the view could be adopted; that lowers the gate |
| DaemonOperations.ConfigExactly | crates/kvm-daemon/src/core.rs:1161-1206 | a configuration with the same routes takes effect if and only if it is valid, nothing is owed, no candidate is retained and nothing is held on a session it does not pair |
| DaemonOperations.RoutesAtOnce | crates/kvm-daemon/src/core.rs:1207-1229 | one with other routes takes effect at once if and only if it changes nothing else and displaces nothing |
| DaemonDrain.OffersFront | crates/kvm-daemon/src/core.rs:1870-1889 | the front is offered if and only if there is one and none is out, just as it was owed |
| DaemonDrain.CleanupDrains | crates/kvm-daemon/src/core.rs:1870-1925 | as many rounds of taking and confirming as there are owed releases leave nothing owed, and held exactly what nothing was owed for |
| DaemonDrain.RetryOffersAgain | crates/kvm-daemon/src/core.rs:1927-1955 | a release that could not be sent stays at the front and is offered again |
| DaemonDrain.ConfirmsOnlyFront | crates/kvm-daemon/src/core.rs:1891-1920 | only the release that is out can be confirmed |
| DaemonNoStuck.NothingStuck | crates/kvm-daemon/src/core.rs:772-2166 | in every run with room to release everything, each control held on a peer has its release owed or its lifecycle open here, and all are owed while the failsafe drains |
| DaemonNoStuck.NoStuckKey | crates/kvm-daemon/src/core.rs:772-2166 | without a retained candidate there is always room, so no key is ever stuck while identifiers last |
| DaemonNoStuck.CoherentRoom | crates/kvm-daemon/src/core.rs:2129-2138 | agreement alone guarantees room |
| DaemonLifecycle.StepCarries | crates/kvm-daemon/src/core.rs:815-982 | no operation but its physical release or its device's restoration moves a pressed control's lifecycle elsewhere |
| DaemonLifecycle.OneDestination | crates/kvm-daemon/src/core.rs:815-1055 | in every run a local lifecycle stays local, a remote one keeps its endpoint or is cut off, and a cut-off one stays so, until release or restoration |
| DaemonBarrier.WorkspaceBarrier | crates/kvm-daemon/src/core.rs:1506-1544 | a workspace update that moves authority leaves no control held under the active host's route and nothing owed |
| DaemonBarrier.FinishBarrier | crates/kvm-daemon/src/core.rs:1574-1592 | so does finishing a handoff, which also reopens routing |
| DaemonBarrier.BeginOwes | crates/kvm-daemon/src/core.rs:1548-1557 | beginning a handoff puts every such control under an owed release |
| DaemonBarrier.NothingNewFollows | crates/kvm-daemon/src/core.rs:917-960 | from the beginning of a handoff until it is completed or given up, no control comes to be held under the active host's route |
| DaemonFailsafe.FailOpen | crates/kvm-daemon/src/core.rs:772-983 | an event is kept from acting locally only if it entered a peer's queue, its lifecycle had already left or been cut off, or a handoff is moving what its device follows |
| DaemonFailsafe.FailedSendIsLocal | crates/kvm-daemon/src/core.rs:1066-1104 | a new lifecycle whose event cannot be queued acts locally and leaves routing shut at all times until reopened |
| DaemonFailsafe.NeverBoth | crates/kvm-daemon/src/core.rs:990-1058 | where the ledger agrees, an event queued for a peer never acts locally as well |
| DaemonFailsafe.ShortcutEscapes | crates/kvm-daemon/src/core.rs:865-876 | completing the shortcut, however spread over devices, returns control at once, even if the releases it owes cannot be queued; a completing press too many for the physical table is refused, likewise returns control and shuts routing, but starts no suspension |
| DaemonFailsafe.OverfullCloses | crates/kvm-daemon/src/core.rs:815-830 | a press too many for the physical table is refused at any time, takes control back and shuts routing |
| DaemonFailsafe.FailsafeDominates | crates/kvm-daemon/src/core.rs:865-886 | after an escape no event leaves this host until every shortcut key was let go and the suspension is over, in every run with a clock that does not go back and an unchanged shortcut |
| DaemonPolicy.CompileExactly | crates/kvm-router/src/lib.rs:195-211 | a route list compiles exactly when well formed, free of duplicates and small enough, and then says of each device what its entry says |
| DaemonPolicy.ValidCompiles | crates/kvm-daemon/src/core.rs:2295-2303 | a valid configuration always compiles |
| DaemonPolicy.StepTransacts | crates/kvm-daemon/src/core.rs:1161-1430 | every operation keeps the policy or commits the one retained candidate as the next revision; a retained candidate is never replaced |
| DaemonPolicy.RoutePolicy | crates/kvm-daemon/src/core.rs:1161-1430 | in every run the table is that of the committed configuration, which carries the committed revision, and a candidate differs from it only in routes and the next revision |
| DaemonPolicy.AffectedExactly | crates/kvm-daemon/src/core.rs:2253-2271 | a candidate gates exactly the devices whose effective route it changes |
| DaemonPolicy.RoutesCommittedOnly | crates/kvm-daemon/src/core.rs:1386-1404 | in every run whatever is held on a peer, and every open remote lifecycle, carries its device's committed route |
| DaemonMirror.SnapshotIsState | crates/kvm-daemon/src/core.rs:2179-2188 | in every run the published snapshot is the core's own state, with routing judged at the time of some earlier step |
| Daemon.Publish | crates/kvm-daemon/src/core.rs:2179-2201 | publishing changes nothing but the snapshot, which then shows the state as it stands |
| DaemonPolicy.AdoptionTakesBack | crates/kvm-daemon/src/core.rs:1186-1201 | adopting a configuration leaves exactly its paired hosts as peers, in the states they had, and takes control back exactly when the active host is a peer no longer paired |
| RoutingCore.DaemonCore.constructor | crates/kvm-daemon/src/core.rs:614-667 | a fresh core (refines the value-level operation) |
| RoutingCore.DaemonCore.Publish | crates/kvm-daemon/src/core.rs:2179-2188 | the snapshot is replaced by the current state (refines the value-level operation) |
| RoutingCore.DaemonCore.QueueRemoteCleanup | crates/kvm-daemon/src/core.rs:2111-2166 | the loop pushes one obligation per picked control and cuts off its lifecycle (refines the value-level operation) |
| RoutingCore.DaemonCore.CutOff | crates/kvm-daemon/src/core.rs:2153-2162 | one control's lifecycle is cut off if it runs to that endpoint (refines the value-level operation) |
| RoutingCore.DaemonCore.FailClosed | crates/kvm-daemon/src/core.rs:2102-2109 | routing shut, control local, everything owed (refines the value-level operation) |
| RoutingCore.DaemonCore.ActivateFailsafe | crates/kvm-daemon/src/core.rs:1786-1803 | suspension set, control local, everything owed, readiness lost only on refusal (refines the value-level operation) |
| RoutingCore.DaemonCore.PrepareCaptured | crates/kvm-daemon/src/core.rs:772-983 | the decision of the nested per-device maps is that of the flat ledger (refines the value-level operation) |
| RoutingCore.DaemonCore.EnsurePhysicalCapacity | crates/kvm-daemon/src/core.rs:2067-2078 | the three bounds on pressed controls, read off nested maps and a running count, are those of the flat ledger (refines the value-level operation) |
| RoutingCore.DaemonCore.NotePress | crates/kvm-daemon/src/core.rs:829-834 | a press is noted as local, and counted (refines the value-level operation) |
| RoutingCore.DaemonCore.NoteRelease | crates/kvm-daemon/src/core.rs:845-861 | a release is removed, uncounted, and empties its device (refines the value-level operation) |
| RoutingCore.DaemonCore.Decide | crates/kvm-daemon/src/core.rs:865-939 | failsafe, drain and latch are looked at in this order (refines the value-level operation) |
| RoutingCore.DaemonCore.Continue | crates/kvm-daemon/src/core.rs:907-939 | a lifecycle under way goes where it went before (refines the value-level operation) |
| RoutingCore.DaemonCore.Begin | crates/kvm-daemon/src/core.rs:940-983 | a new one goes where the committed policy sends it, unless gated (refines the value-level operation) |
| RoutingCore.DaemonCore.Relatch | crates/kvm-daemon/src/core.rs:950-957 | one latch is rewritten if its control is pressed (refines the value-level operation) |
| RoutingCore.DaemonCore.PrepareRemote | crates/kvm-daemon/src/core.rs:1997-2040 | one decision is handed out, or the core fails closed (refines the value-level operation) |
| RoutingCore.DaemonCore.TakeMatchingRemote | crates/kvm-daemon/src/core.rs:2042-2057 | only the outstanding decision can be taken back (refines the value-level operation) |
| RoutingCore.DaemonCore.ConfirmRemote | crates/kvm-daemon/src/core.rs:990-1058 | an accepted event is recorded (refines the value-level operation) |
| RoutingCore.DaemonCore.Enter | crates/kvm-daemon/src/core.rs:1004-1055 | press, release and repeat are recorded in held controls and latch (refines the value-level operation) |
| RoutingCore.DaemonCore.FailRemote | crates/kvm-daemon/src/core.rs:1066-1104 | an event that was not queued falls back (refines the value-level operation) |
| RoutingCore.DaemonCore.ProcessCaptured | crates/kvm-daemon/src/core.rs:1110-1132 | the compatibility entry point fails every remote decision back (refines the value-level operation) |
| RoutingCore.DaemonCore.Tick | crates/kvm-daemon/src/core.rs:1140-1150 | time alone publishes exactly when it changes whether routing is active (refines the value-level operation) |
| RoutingCore.DaemonCore.UpdateConfig | crates/kvm-daemon/src/core.rs:1161-1228 | a plain change replaces the configuration, a route change goes through the transaction (refines the value-level operation) |
| RoutingCore.DaemonCore.ReplaceConfig | crates/kvm-daemon/src/core.rs:1165-1204 | no configuration is adopted while something is held on a peer it drops (refines the value-level operation) |
| RoutingCore.DaemonCore.AdoptConfig | crates/kvm-daemon/src/core.rs:1186-1202 | peers, active host, configuration and table change together (refines the value-level operation) |
| RoutingCore.DaemonCore.PrepareRoutePolicyUpdate | crates/kvm-daemon/src/core.rs:1246-1317 | exactly one checked candidate is retained, with the releases it calls for (refines the value-level operation) |
| RoutingCore.DaemonCore.Stage | crates/kvm-daemon/src/core.rs:1297-1316 | candidate and obligations are taken on together or not at all (refines the value-level operation) |
| RoutingCore.DaemonCore.RetryRoutePolicyUpdate | crates/kvm-daemon/src/core.rs:1321-1351 | progress of the retained candidate, never a replacement (refines the value-level operation) |
| RoutingCore.DaemonCore.CommitRoutePolicyUpdate | crates/kvm-daemon/src/core.rs:1366-1411 | the retained candidate comes into force and continuing lifecycles are relabelled (refines the value-level operation) |
| RoutingCore.DaemonCore.Relabel | crates/kvm-daemon/src/core.rs:1386-1404 | held controls and remote latches take the new routes (refines the value-level operation) |
| RoutingCore.DaemonCore.AbortRoutePolicyUpdate | crates/kvm-daemon/src/core.rs:1415-1430 | the candidate alone is dropped, never an obligation (refines the value-level operation) |
| RoutingCore.DaemonCore.GateLocalDevices | crates/kvm-daemon/src/core.rs:1445-1468 | devices are gated and their controls owed, within the bound (refines the value-level operation) |
| RoutingCore.DaemonCore.RestoreLocalDevice | crates/kvm-daemon/src/core.rs:1474-1497 | a device returns, its old controls forgotten, only once nothing of it is held or owed (refines the value-level operation) |
| RoutingCore.DaemonCore.ForgetDevice | crates/kvm-daemon/src/core.rs:1490-1493 | the running count follows a whole device's removal (refines the value-level operation) |
| RoutingCore.DaemonCore.UpdateWorkspace | crates/kvm-daemon/src/core.rs:1506-1544 | authority changes only behind a drained barrier (refines the value-level operation) |
| RoutingCore.DaemonCore.BeginPointerHandoff | crates/kvm-daemon/src/core.rs:1548-1557 | the gate is up and the barrier owed (refines the value-level operation) |
| RoutingCore.DaemonCore.CancelPointerHandoff | crates/kvm-daemon/src/core.rs:1560-1564 | back to local (refines the value-level operation) |
| RoutingCore.DaemonCore.AbortDestinationHandoffBarrier | crates/kvm-daemon/src/core.rs:1568-1571 | the gate is down, authority as before (refines the value-level operation) |
| RoutingCore.DaemonCore.FinishPointerHandoff | crates/kvm-daemon/src/core.rs:1574-1592 | new authority published, gate down, only once nothing is owed (refines the value-level operation) |
| RoutingCore.DaemonCore.SetPeerState | crates/kvm-daemon/src/core.rs:1601-1625 | a pre-admission state is recorded, nothing else (refines the value-level operation) |
| RoutingCore.DaemonCore.InstallSessionEndpoint | crates/kvm-daemon/src/core.rs:1629-1656 | only a paired endpoint, and none beside another (refines the value-level operation) |
| RoutingCore.DaemonCore.SetEndpointState | crates/kvm-daemon/src/core.rs:1659-1689 | losing an endpoint's health takes back authority and owes what it holds (refines the value-level operation) |
| RoutingCore.DaemonCore.RetireSessionEndpoint | crates/kvm-daemon/src/core.rs:1694-1718 | only a settled endpoint retires (refines the value-level operation) |
| RoutingCore.DaemonCore.Enable | crates/kvm-daemon/src/core.rs:1721-1727 | routing requested, unless shutting down (refines the value-level operation) |
| RoutingCore.DaemonCore.Disable | crates/kvm-daemon/src/core.rs:1735-1749 | routing withdrawn, everything owed (refines the value-level operation) |
| RoutingCore.DaemonCore.TriggerEmergency | crates/kvm-daemon/src/core.rs:1758-1764 | the escape without a shortcut (refines the value-level operation) |
| RoutingCore.DaemonCore.Shutdown | crates/kvm-daemon/src/core.rs:1772-1784 | final, local, everything owed (refines the value-level operation) |
| RoutingCore.DaemonCore.ClearWorkspaceRoutingReady | crates/kvm-daemon/src/core.rs:1823-1836 | readiness withdrawn, everything owed (refines the value-level operation) |
| RoutingCore.DaemonCore.MarkWorkspaceRoutingReady | crates/kvm-daemon/src/core.rs:1839-1857 | readiness only with nothing held or owed and an accepting endpoint (refines the value-level operation) |
| RoutingCore.DaemonCore.TakeNextCleanupRelease | crates/kvm-daemon/src/core.rs:1870-1883 | the front is lent once (refines the value-level operation) |
| RoutingCore.DaemonCore.ConfirmCleanupRelease | crates/kvm-daemon/src/core.rs:1891-1920 | a settled release ends the hold (refines the value-level operation) |
| RoutingCore.DaemonCore.RetryCleanupRelease | crates/kvm-daemon/src/core.rs:1927-1953 | a failed release stays at the front and routing is shut (refines the value-level operation) |
| RoutingCore.DaemonCore.ConfirmTransportInvalidated | crates/kvm-daemon/src/core.rs:1957-1995 | everything of one endpoint is gone, and only of that one (refines the value-level operation) |
| RoutingCore.DaemonCore.DropObligations | crates/kvm-daemon/src/core.rs:1980 | the loop keeps the other endpoints' obligations in order (refines the value-level operation) |
| RoutingCore.DaemonCore.CutOffEndpoint | crates/kvm-daemon/src/core.rs:1986-1993 | every lifecycle to the endpoint is cut off, no other (refines the value-level operation) |
| Physical.Counts | crates/kvm-daemon/src/core.rs:2067-2078 | the nested maps have as many devices and controls as the flat ledger |
| Physical.FlatRemove | crates/kvm-daemon/src/core.rs:845-861 | removing a control, and its device when empty, is removing one slot |
| ConfigStore.CrashSafe | crates/kvm-config/src/store.rs:145-213 | wherever a save stops or fails, the restoring rename included, load then yields what it did before or the new configuration; success yields the new one; refusal, exactly for an invalid or oversized one, touches no file |
| ConfigStore.NothingInvented | crates/kvm-config/src/store.rs:132-213 | after any number of attempts, failures and restarts load yields the initial content or some configuration saved since |
| ConfigStore.NeverOlder | crates/kvm-config/src/store.rs:132-213 | what was once saved successfully is never lost to something older |
| ConfigStore.FileConfigStore.LoadConfig | crates/kvm-config/src/store.rs:132-143 | the primary file, and the backup only in its absence |
| ConfigStore.FileConfigStore.SaveConfig | crates/kvm-config/src/store.rs:145-213 | the imperative save is the step-by-step one, with its crash safety |
| ConfigStore.FileConfigStore.WriteAndReplace | crates/kvm-config/src/store.rs:155-206 | temporary file, backup, replacement and tidying, with every early exit |
| ConfigStore.MemoryConfigStore.SaveConfig | crates/kvm-config/src/store.rs:272-276 | an invalid configuration is refused and leaves the value, a valid one is what loads next |
| ConfigStore.SavesExactly | crates/kvm-config/src/store.rs:145-213 | an attempt succeeds if and only if the configuration is valid and fits and every primitive it needs works; it then leaves the new primary alone, and one that could put the old file back leaves it in place |
| RouteUpdates.OneStoreOnly | crates/kvm-daemon/src/peer_manager.rs:2597-2613 | a peer bound to one store answers to no other |
| RouteUpdates.StoredComesIntoForce | crates/kvm-daemon/src/peer_manager.rs:2641-2682 | a candidate nothing stands in the way of is in force if and only if it was stored, and then is what the store holds |
| RouteUpdates.GivenUpIsUndone | crates/kvm-daemon/src/peer_manager.rs:1191-1221 | a candidate given up is gone if and only if the policy in force was stored back |
| RouteUpdates.RetriedComesIntoForce | crates/kvm-daemon/src/peer_manager.rs:1114-1221 | once its releases are delivered, a retained candidate comes into force by a retry that is stored and is gone by a withdrawal that is; undelivered, neither touches a store |
| RouteUpdates.DisplacingComesIntoForce | crates/kvm-daemon/src/peer_manager.rs:2641-2682 | so does a proposal that displaces something, if its releases are delivered on the spot |
| RouteUpdates.ProposalComesIntoForce | crates/kvm-daemon/src/peer_manager.rs:2641-2682 | a proposal that can be staged and displaces nothing is in force after one successful request |
| RoutePersistence.FileStoreWrites | crates/kvm-config/src/store.rs:145-213 | the file store shows its readers no other behaviour than the one assumed of stores |
| RoutePersistence.PerformDurable | crates/kvm-daemon/src/peer_manager.rs:1159-1221 | every manager operation, and everything that happens elsewhere, keeps the bound store at the policy in force or the retained candidate |
| RoutePersistence.PersistBeforeCommit | crates/kvm-daemon/src/peer_manager.rs:2641-2682 | in every run in which only the manager changes the policy, the bound store yields the policy in force or the retained candidate, and a revision comes into force only in the step that saved exactly it |
| RoutePersistence.RestartResumes | crates/kvm-daemon/src/peer_manager.rs:2641-2682 | after a stop, starting from the store brings into force exactly what was in force or the candidate then retained |
| RoutePersistence.SurvivesCrashes | crates/kvm-daemon/src/peer_manager.rs:1159-1221 | through any acts, stops inside or between them and restarts, the revision in force never falls, and while it stays the same so does the configuration |
| PeerManager.ManagedPeer.RequireRouteStore | crates/kvm-daemon/src/peer_manager.rs:2597-2613 | the first store used is bound, any other refused |
| PeerManager.ManagedPeer.SettleRoutePolicyUpdate | crates/kvm-daemon/src/peer_manager.rs:2641-2682 | saved first, committed second, on a live routing core |
| PeerManager.ManagedPeer.GiveUpRoutePolicyUpdate | crates/kvm-daemon/src/peer_manager.rs:1191-1221 | the committed configuration is saved back before the candidate is dropped |
| PeerManager.ManagedPeer.ResumeRoutePolicyUpdate | crates/kvm-daemon/src/peer_manager.rs:1131-1149 | progress first, then settlement |
| InventoryRuns.StepConsistent | crates/kvm-daemon/src/device_inventory.rs:479-851 | every operation keeps each remote record's source the host's current session, all bounds, and the published view exact |
| InventoryRuns.SessionBound | crates/kvm-daemon/src/device_inventory.rs:445-851 | so in every run |
| InventoryRuns.RefusalChangesNothing | crates/kvm-daemon/src/device_inventory.rs:479-760 | a refused call changes nothing |
| InventoryRuns.NeverAgain | crates/kvm-daemon/src/device_inventory.rs:479-560 | a retired generation, and any older one of that host, never becomes current again nor owns a record |
| InventoryRuns.InvalidatedIsOver | crates/kvm-daemon/src/device_inventory.rs:541-560 | invalidating the current session retires it in that sense |
| InventoryRuns.RevisionsIncrease | crates/kvm-daemon/src/device_inventory.rs:562-760 | in every run the revisions accepted from this host, and within any one session, strictly increase, suspensions notwithstanding |
| InventoryDeltas.DeltasRefineSnapshot | crates/kvm-daemon/src/device_inventory.rs:662-760 | any accepted sequence of additions and removals leaves exactly the inventory that one full snapshot of the devices they spell out, at the final revision, would, with consecutive revisions |
| InventoryDeltas.DeltasLeave | crates/kvm-daemon/src/device_inventory.rs:693-760 | an accepted sequence ends in exactly the devices read off the deltas alone: an addition puts, a removal deletes |
| InventoryDeltas.LastDeltaDecides | crates/kvm-daemon/src/device_inventory.rs:693-760 | the last delta to name a device decides whether it is there; unnamed devices stay |
| InventoryDeltas.DeltaAccepted | crates/kvm-daemon/src/device_inventory.rs:693-760 | a delta is accepted if and only if it comes from the record's own source at the very next revision and adds a new valid device that fits, or removes one that is there |
| InventoryDeltas.ListExactly | crates/kvm-daemon/src/device_inventory.rs:762-778 | a list is taken in if and only if every device on it is valid and none repeated, and then as it stands |
| InventoryRequests.CreatesExactly | crates/kvm-daemon/src/device_inventory.rs:270-285 | an inventory needs a host and bounds of at most 256 peers, 256 devices each and 4096 in all |
| InventoryRequests.SnapshotTaken | crates/kvm-daemon/src/device_inventory.rs:662-691 | a list replaces a record if and only if it is numbered, newer, from the same source, listable and within all bounds; then exactly it is recorded |
| InventoryRequests.PeerSnapshotTaken | crates/kvm-daemon/src/device_inventory.rs:585-619 | a peer's list is taken in if and only if it comes through its current session under its own name and is newer than whatever was suspended |
| InventoryRequests.PeerDeltaTaken | crates/kvm-daemon/src/device_inventory.rs:621-660 | a peer's delta is taken in if and only if it comes through its current session under its own name and is acceptable as a delta |
| InventoryRequests.ActivatesExactly | crates/kvm-daemon/src/device_inventory.rs:479-508 | a session becomes current if and only if it is, or the slot is empty and it is later than the one retired, or there is room for a new host |
| InventoryRequests.BindsExactly | crates/kvm-daemon/src/device_inventory.rs:453-477 | a session has a binding if and only if its ends, transport and greeting agree |
| InventoryRequests.EndsExactly | crates/kvm-daemon/src/device_inventory.rs:445-583 | ending, suspending and closing withdraw exactly the records concerned and keep the floor for a return |
| InventoryDeltas.Enumerates | crates/kvm-daemon/src/device_inventory.rs:762-778 | every device map a record can hold can be sent as a list |
| DeviceInventory.Table.constructor | crates/kvm-daemon/src/device_inventory.rs:270-285 | an empty inventory for a non-nil host and admissible bounds |
| DeviceInventory.Table.PublishRecords | crates/kvm-daemon/src/device_inventory.rs:802-821 | the published view becomes the exact projection of the records |
| DeviceInventory.Table.Collect | crates/kvm-daemon/src/device_inventory.rs:802-815 | the loop shows every host once and counts every device once |
| DeviceInventory.Table.EnsureTotalCapacity | crates/kvm-daemon/src/device_inventory.rs:780-800 | the fold over the other hosts' records decides exactly whether the total stays within bound |
| DeviceInventory.Table.ValidateCandidate | crates/kvm-daemon/src/device_inventory.rs:762-778 | the loop builds the device map, or stops at the first invalid or repeated device |
| DeviceInventory.Table.ApplySnapshotFrom | crates/kvm-daemon/src/device_inventory.rs:662-691 | a full replacement, strictly newer |
| DeviceInventory.Table.ApplyAddFrom | crates/kvm-daemon/src/device_inventory.rs:693-727 | one device more, at exactly the next revision |
| DeviceInventory.Table.ApplyRemoveFrom | crates/kvm-daemon/src/device_inventory.rs:729-760 | one device less, at exactly the next revision |
| DeviceInventory.Table.ActivateBinding | crates/kvm-daemon/src/device_inventory.rs:479-508 | a session becomes current only in an empty slot and only if newer than the retired one |
| DeviceInventory.Table.InvalidateBinding | crates/kvm-daemon/src/device_inventory.rs:541-560 | the current session is retired with its record |
| DeviceInventory.Table.SuspendBinding | crates/kvm-daemon/src/device_inventory.rs:562-583 | the current session's record is withdrawn, its revision remembered |
| DeviceInventory.Table.InvalidateAllRemote | crates/kvm-daemon/src/device_inventory.rs:445-451 | only local records remain and no session can return |
| DeviceInventory.Table.ApplyRemoteSnapshot | crates/kvm-daemon/src/device_inventory.rs:585-619 | only through the current session, and newer than anything suspended |
| DeviceInventory.Table.ApplyRemoteAdd | crates/kvm-daemon/src/device_inventory.rs:621-637 | only through the current session |
| DeviceInventory.Table.ApplyRemoteRemove | crates/kvm-daemon/src/device_inventory.rs:639-660 | only through the current session |
| DeviceInventory.Table.RemoteDevice | crates/kvm-daemon/src/device_inventory.rs:523-539 | a device is shown exactly to the session that owns the record it is in |
| ClipboardRuns.LoopFree | crates/kvm-clipboard/src/lib.rs:409-517 | among any number of hosts, with deliveries lost, repeated and reordered and writes failing late, the notification of an applied update is taken for its echo and never published, as long as no echo is evicted, the mode is switched only while nothing is outstanding there, and no user copies what is awaited as an echo |
| ClipboardRuns.HappensQuiet | crates/kvm-clipboard/src/lib.rs:409-517 | each event keeps every outstanding write covered by its own expected echo |
| ClipboardRuns.PublishesExactly | crates/kvm-clipboard/src/lib.rs:409-442 | a report is published if and only if it is admissible, awaited as no echo and not what was last seen |
| ClipboardRuns.ReportCounts | crates/kvm-clipboard/src/lib.rs:409-442 | a report that is looked at becomes the content last seen, uses up one awaited echo of its content if there is one, and is published if and only if there is none and it is new |
| ClipboardRuns.AppliesExactly | crates/kvm-clipboard/src/lib.rs:449-494 | an update is applied if and only if it is intact, small enough, from elsewhere, not in the window and other than what was last seen; what passes all but the last check is remembered |
| ClipboardRuns.CancelUndoes | crates/kvm-clipboard/src/lib.rs:501-517 | cancelling an update just applied undoes it: content, echoes and window are back, and delivered again it is applied again |
| ClipboardRuns.CancelUndoesExactly | crates/kvm-clipboard/src/lib.rs:501-517 | in general the content comes back if and only if the oldest awaited echo of that name replaced it with this update's |
| ClipboardRuns.CancelMisses | crates/kvm-clipboard/src/lib.rs:501-517 | a run in which it does not: a name pushed out of the window and applied twice |
| ClipboardRuns.FailedWriteRetries | crates/kvm-clipboard/src/lib.rs:501-517 | however much happened in between, an awaited update can be cancelled; content is kept if and only if something superseded it, and delivered again it is applied if and only if its content is not what was last seen |
| Utf8.LengthIsEncoded | crates/kvm-clipboard/src/lib.rs:529-536 | the size compared with the limit is the number of bytes of the UTF-8 encoding |
| Utf8.EncodeInjective | crates/kvm-clipboard/src/lib.rs:529-536 | from which the text can be read back |
| ClipboardRuns.RepublishesExactly | crates/kvm-clipboard/src/lib.rs:409-442 | after any events whatever, the notification of an applied update goes out if and only if the host is enabled, no echo of that content is awaited and something else was seen last |
| ClipboardRuns.ToggleRepublishes | crates/kvm-clipboard/src/lib.rs:394-402 | the condition on switching is needed: off and on again forgets every echo, from any state in which an update was applied |
| ClipboardRuns.CoincidenceRepublishes | crates/kvm-clipboard/src/lib.rs:419-442 | the condition on user copies is needed: a concrete run republishes without it |
| ClipboardRuns.EvictionRepublishes | crates/kvm-clipboard/src/lib.rs:482-491 | so is the one on eviction: for any capacity, that many further updates push an echo out and its notification is published |
| ClipboardRuns.AppliedAtMostOnce | crates/kvm-clipboard/src/lib.rs:449-517 | an applied update is not applied again unless it was cancelled or at least as many further identifiers were remembered as the window holds |
| ClipboardRuns.WindowForgets | crates/kvm-clipboard/src/lib.rs:320-333 | that many new identifiers push every older one out of the window |
| ClipboardRuns.AppliedAgain | crates/kvm-clipboard/src/lib.rs:449-494 | that bound is exact: once as many further updates were applied as the window holds, the first is applied again |
| Clipboard.RecentUpdateIds.constructor | crates/kvm-clipboard/src/lib.rs:308-314 | an empty window |
| Clipboard.RecentUpdateIds.Contains | crates/kvm-clipboard/src/lib.rs:316-318 | the set answers for the deque |
| Clipboard.RecentUpdateIds.InsertId | crates/kvm-clipboard/src/lib.rs:320-333 | deque and set agree, without duplicates and within capacity; the oldest gives way |
| Clipboard.RecentUpdateIds.RemoveId | crates/kvm-clipboard/src/lib.rs:335-346 | deque and set still agree after the search and removal |
| Clipboard.ClipboardSynchronizer.constructor | crates/kvm-clipboard/src/lib.rs:370-378 | nothing seen, nothing awaited |
| Clipboard.ClipboardSynchronizer.SetMode | crates/kvm-clipboard/src/lib.rs:394-402 | a change of mode forgets content and echoes |
| Clipboard.ClipboardSynchronizer.ObserveLocalText | crates/kvm-clipboard/src/lib.rs:409-442 | echo, unchanged, published or refused (refines the value-level operation) |
| Clipboard.ClipboardSynchronizer.ReceiveRemote | crates/kvm-clipboard/src/lib.rs:449-494 | applied, ignored or refused (refines the value-level operation) |
| Clipboard.ClipboardSynchronizer.CancelExpectedEcho | crates/kvm-clipboard/src/lib.rs:501-517 | the echo is no longer awaited and the update may come again (refines the value-level operation) |

## Left out

- Control panel, diagnostics, logging, redacted debug output and command line: no state worth proving anything about.
- crates/kvm-daemon/src/display_inventory.rs: a near copy of the device inventory; it would repeat its members.
- The rest of peer_manager.rs, session.rs, supervisor.rs and the network crates: sessions are taken as given, and sending as something that works or fails. The checks a route request passes before it reaches the transaction (known devices, admissible hosts) are not modelled.
- Configuration sections that routing never reads: one validity flag stands for their checks; migration and the text format are not modelled, and decoding an encoded configuration is taken to give it back.
- Topology compilation and floating-point rounding: a compiled workspace is a value, coordinates are reals, and equal protocol epochs are taken to mean equal geometry and links.
- Device names: one flag stands for their syntax checks. Conversion between wire and domain devices is the identity.
- The order in which a sorted map visits held controls is some fixed total order, not the exact order of the original key types.
- Digests are an arbitrary function of the text, so collisions are covered; uniqueness of new update identifiers is assumed where stated.
- Directory synchronisation reordering, rename semantics of other platforms and file permissions: file primitives are atomic and take effect in order, with one writer.
- HandoffSafety.SingleAuthority: runs exclude degrading, disconnecting, rebinding, revoking, shutting down and replacing the workspace, each of which deliberately falls back to local authority; those operations are covered by HandoffValidity.RunValid.
- HandoffProgress.HandoffCompletes: shows that a completing run exists, not that every fair run completes.
- DaemonLedger.LedgerIsReplay: assumes that cleanup tokens are not forged, which the original guarantees by construction; the other ledger theorems do not need it.
- DaemonNoStuck.NoStuckKey: holds while at least 1024 of the 64-bit effect identifiers remain unused.
- DaemonFailsafe.FailsafeDominates: for runs in which the shortcut and the length of the suspension are not reconfigured.
- RoutePersistence.SurvivesCrashes: one store is used throughout; that a save interrupted anywhere leaves it loading the old or the new configuration is RoutePersistence.FileStoreWrites.
- RoutePersistence.PersistBeforeCommit: the in-memory update_config entry point, which bypasses the store, is excluded from these runs.
- ClipboardRuns.LoopFree: for runs without eviction of an awaited echo, without a user copying an awaited text, and with modes switched only where no write or notification is outstanding; the lemmas named above show each to be needed.
