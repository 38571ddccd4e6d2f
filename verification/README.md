# ya-relay in Dafny

A model of the parts of ya-relay where tasks, guards and tables have to agree with each other, and
proofs of what they guarantee.

**Session lifecycle** (`SessionState`, `Registry`, `RoutingTables`, `Drivers`, `Protocol*`). The client
keeps one view per peer, with a lifecycle state, a generation number and a retirement flag; permits give
one task at a time the right to initialize a session; three routing tables publish the result. All tasks
run on one thread and are suspended only where they await, so an operation of the model is the code
between two suspension points. `Protocol.Step` is the effect of one operation, and a run is any sequence
of enabled operations: every interleaving of any number of permit holders, reverse permits, waiters,
refreshes and closing tasks. What the network answers, how many addresses there are and when timeouts
fire is left open. `ProtocolInvariant` and `ProtocolSteps` hold the inductive invariant;
`ProtocolTheorems`, `ProtocolProgress`, `ProtocolClosing` and `ProtocolOwnership` hold what follows for
all runs, `ProtocolPromises` the promises that hold only under a condition, and `ProtocolOutcomes` how
undisturbed attempts end.
`NetworkView` and `SessionLayer` are the same operations on objects that are updated in place.

**Handshake bookkeeping** (`HandshakeGuards`, `SessionInitializer`, `ResponseSlots`, `Dispatcher`):
admissions, incoming slots, leases on temporary sessions and pending responses, whose guards are dropped
at arbitrary later times.

**Indexes and servers** (`AllowedForwards`, `IpChecks`, `Challenges`, `ServerSessions`): the two-way
forwarding index, the server's pending address checks, and the stateless cookie and proof-of-work
handshake. Hash functions and signatures are parameters; what is assumed of them is a named predicate.

**Arithmetic and loops** (`Metrics`, `Ports`, `Framing`, `Forwards`, `Payloads`).

Object identity is a number (`Ref`), generations are unbounded natural numbers, and ghost fields record
which guards are alive. A class method states its effect as an equation with the function that models it,
and the properties are proved of those functions.

## Where the code does not keep a promise

- Exclusive initialization per requested id (client/src/session/network_view.rs:36-37) holds per view.
  `guard` may return the view of another peer that is registered under one of the addresses. A call is
  safe exactly when the id is registered or none of the addresses is known: `GuardSharesIffNamed`. Two such
  calls exclude each other whatever happens in between (`NamedRequestsExclude`); any other call can be
  followed by two current permits (`UnnamedRequestsSplit`), unless its view is being closed and nobody
  holds it, in which case nobody ever will (`UnholdableForever`). `AddressesCanSplitPermits` is a run.
- Of two refreshes that captured the same routing object both can commit, through the same identity or
  through two. A committed refresh is the last one exactly when its description lists every identity that
  leads to the object: `LastRefreshIffAllListed`. In particular it is the last if it drops no identity of
  the object (`DroppingNobodyIsLast`). `PeerRefreshesTwice` gives a run of either kind in which both commit.
- `Forward::decode` checks the length of the buffer before it knows the length of the key. It splits
  beyond the end exactly for the buffers of `AbortsIffOverrun`, for instance those of `LongKeyOverruns`;
  what the codecs hand to it is never one of them: `ForwardsReadAreSafe`.
- `AllowedForwards` relies on entries listing their default id (client/src/direct_session.rs:22):
  `AddKeepsMirrored` is the exact condition, `UndocumentedEntriesBreakIt` a pair of entries.
- `TimeWindow::advance` computes with whole milliseconds but moves by the exact size:
  `NeverPassesIffWholeMilliseconds` says for which sizes it stays behind the given time.

## Model

| member | source | states |
|---|---|---|
| `ProtocolSteps.StepKeeps` | client/src/session/network_view.rs:64-235 | every operation of every task keeps the inductive invariant of registry, permits, waiters, closing tasks and tables |
| `ProtocolSteps.RunKeeps` | client/src/session/network_view.rs:36-53 | the invariant holds after every run, that is for every interleaving of any number of tasks |
| `ProtocolTheorems.PermitsAreExclusive` | client/src/session/network_view.rs:36-37 | two ordinary permits that are current for the same identity are the same permit |
| `ProtocolTheorems.GenerationsHandedOnce` | client/src/session/network_view.rs:25-29 | no generation is ever handed to two ordinary permits |
| `ProtocolTheorems.NoSecondPermit` | client/src/session/network_view.rs:648-695 | while a holder works in its own unclosed generation, locking the view never grants another ordinary permit |
| `ProtocolTheorems.LiveViewUnique` | client/src/session/network_view.rs:47-53 | at most one live view per identity |
| `ProtocolTheorems.RegistryConsistent` | client/src/session/network_view.rs:47-53 | nothing retired is reachable, every live view is found under its own identity, stored handles are unbound, generations are distinct |
| `ProtocolTheorems.IdentityStays` | client/src/session/network_view.rs:120-172 | over any run an identity leads to the same view until that view is retired |
| `ProtocolTheorems.RetirementIsFinal` | client/src/session/network_view.rs:93-113 | after a retirement no identity and no address ever leads to the view again |
| `ProtocolTheorems.RunLater` | client/src/session/network_view.rs:381-395 | over any run views keep their identity, never return from retirement, never go back to an earlier generation, and announcements are only appended |
| `ProtocolTheorems.StaleForever` | client/src/session/network_view.rs:392-395 | a snapshot that has stopped being current never becomes current again |
| `ProtocolTheorems.StaleHasNoEffect` | client/src/session/network_view.rs:94-113 | no operation through a stale snapshot changes a view, the registry or a table |
| `ProtocolTheorems.StalePowerless` | client/src/session/network_view.rs:335-338 | both together, over any run |
| `ProtocolPromises.GuardSharesIffNamed` | client/src/session/network_view.rs:64-85 | the returned view is the one that every later call for the id gets, in every run and for as long as the view lives, exactly when the id was registered or none of the addresses was known |
| `ProtocolPromises.NamedRequestsExclude` | client/src/session/network_view.rs:36-37 | two callers for the same id that meet this condition never hold ordinary permits at the same time, whatever happens between and after their calls |
| `ProtocolPromises.UnnamedRequestsSplit` | client/src/session/network_view.rs:64-85 | every other call can be followed, after at most one lock, by a second caller for the same id so that two ordinary permits are current, if its view is held or not being closed |
| `ProtocolPromises.UnholdableForever` | client/src/session/network_view.rs:660-695 | a view that is being closed and that nobody holds is never held again in any run |
| `ProtocolPromises.AddressesCanSplitPermits` | client/src/session/network_view.rs:36-37 | a concrete run: one caller asks for peer 2 at the address of peer 1 and gets the view of peer 1, another asks for peer 2 alone, and both hold ordinary permits |
| `ProtocolTheorems.RefreshIsAtomic` | client/src/session.rs:700-763 | a refresh commits exactly while generation, state, identities, routing object and physical route are as captured, then redirects exactly the listed identities, and otherwise changes nothing |
| `ProtocolTheorems.RoutesArePublishedCurrent` | client/src/session.rs:201-323 | a new or changed routing was published by a current, open generation, bears its number, and leads through the physical session its address leads to |
| `ProtocolTheorems.SessionsArePublishedCurrent` | client/src/session.rs:201-280 | a new or changed session entry was published by a current, open generation and bears its number |
| `ProtocolPromises.RefreshAtMostOnce` | client/src/session.rs:668-699 | of the refreshes that captured the same routing object, through whichever identities, at most one commits if its description lists every identity that leads to the object, whatever happens in between |
| `ProtocolPromises.LastRefreshIffAllListed` | client/src/session.rs:734-760 | after a committed refresh no refresh of the same captured object through any identity ever commits again, in any run, exactly when its description lists every identity that leads to the object |
| `ProtocolPromises.DroppingNobodyIsLast` | client/src/session.rs:734-760 | in every reachable state a committed refresh that drops no identity of the object it replaces is the last refresh of that object |
| `ProtocolPromises.LastThroughSameIdentityIffListed` | client/src/session.rs:734-760 | no later refresh of the captured object through the same identity commits, in any run, exactly when the description lists that identity |
| `ProtocolPromises.RefreshesAgainIffUnlisted` | client/src/session.rs:734-760 | the same refresh commits a second time right away exactly when the description does not list the identity |
| `ProtocolPromises.PeerRefreshesTwice` | client/src/session.rs:734-760 | two concrete runs that publish two identities and commit twice with a description that lists only the first: through the second identity twice, or through the first and then the second |
| `ProtocolTheorems.EstablishedIsEarned` | client/src/session/session_state.rs:151-230 | in every reachable state each entry into Established follows one whole method without gaps, and a lock granted since the last close or failure |
| `ProtocolTheorems.HolderNeverRefused` | client/src/session.rs:1120-1207 | whatever the network answers, a holder in its own unclosed generation is never refused a transition, its success can be established, and excluded methods are never entered |
| `ProtocolTheorems.OthersSweep` | client/src/session.rs:335-443 | an operation that does not publish removes only entries of the generations and sessions it sweeps |
| `ProtocolProgress.DroppedIsSettled` | client/src/session/network_view.rs:789-847 | after the drop of an ordinary permit its generation is superseded, retired, established, or owed to an unfinished closing task |
| `ProtocolProgress.QuietMeansSettled` | client/src/session/network_view.rs:789-847 | when all permits are dropped and all closing tasks ended, every live view is Closed or Established |
| `ProtocolOwnership.EstablishedSessionIsOwn` | client/src/session/session_initializer.rs:300-345 | in every reachable state the session of an Established view was registered, and for that very generation unless a relayed connection was just completed; a reverse connection reports only the generation's own session |
| `ProtocolOwnership.SuccessIsEstablished` | client/src/session/network_view.rs:813-820 | a successful attempt in its own unclosed generation ends Established with the session registered for it, or the relay's |
| `ProtocolOwnership.OnlyHolderMoves` | client/src/session/network_view.rs:432-478 | while a permit is current and its view not being closed, no operation of anybody else changes the state, except the permit that answers its reverse connection |
| `ProtocolOwnership.UntouchedLives` | client/src/session/network_view.rs:419-478 | an operation changes the lifecycle of no view but the one it acts on |
| `ProtocolOwnership.ClosingShutsForever` | client/src/session/network_view.rs:415-430 | once closing has begun, nothing is ever published for the generation and the view never gives anybody a permit, in the rest of every run |
| `ProtocolProgress.RetiredHoldsNoHandles` | client/src/session/network_view.rs:94-113 | in every reachable state a retired view holds no abort handle |
| `ProtocolProgress.DropProgresses` | client/src/session/network_view.rs:789-838 | every step of the drop handler lowers a rank, so drops complete |
| `ProtocolProgress.CloserProgresses` | client/src/session.rs:384-443 | every step of a closing task lowers a rank, so closing completes |
| `ProtocolProgress.BlockedMissedNothing` | client/src/session/network_view.rs:1006-1024 | a waiter with an empty queue is bound to a current generation in a state that does not end its wait, and missed no announcement that would |
| `ProtocolProgress.FinishWaiterHasWaker` | client/src/session/network_view.rs:904-932 | behind every blocked wait for a finished session there is a permit not yet dropped or a closing task not yet ended |
| `ProtocolProgress.ReceivingProgresses` | client/src/session/network_view.rs:1006-1024 | a waiter with a nonempty queue learns that its generation is over, fails if more announcements are unread than are kept, or takes exactly the next one |
| `ProtocolProgress.LagsIffBehind` | client/src/session/network_view.rs:1019-1022 | whatever anybody does, a wait fails by lagging exactly when the waiter receives while more announcements of its current generation are unread than are kept |
| `ProtocolProgress.NeverLagsIffKeepsUp` | client/src/session/network_view.rs:1006-1024 | over any run a wait has failed by lagging exactly if at some reception the waiter was too far behind |
| `ProtocolProgress.EndedWaitsReturn` | client/src/session/network_view.rs:904-1024 | once the generation is superseded, retired, failed or closed, or in another state the waiter waits for, the waiter is not blocked and comes to its end after no more receptions than announcements are left: with the lag error exactly if it is already too far behind, otherwise it returns |
| `ProtocolProgress.EndingWakes` | client/src/session/network_view.rs:548-560 | whatever ends a blocked waiter's generation or wait also wakes it |
| `ProtocolProgress.AbandonedPowerless` | client/src/session.rs:1272-1346 | once the holder has left its reverse attempt, the permit that answers it can never change the state again |
| `ProtocolClosing.ClosingIsFinal` | client/src/session.rs:429-439 | after the last step of closing no table entry leads to the session, for the rest of every run |
| `ProtocolClosing.UnregisteringIsFinal` | client/src/session.rs:335-371 | unregistering a current generation removes all its entries, and none appears again in any run |
| `ProtocolClosing.UnregisteringHandsOver` | client/src/session.rs:340-443 | if the generation has a physical session, a closing task takes it over, works on nothing else in any run, and when it has ended no table entry leads to the session |
| `ProtocolClosing.RetiringOwnersIsFinal` | client/src/session.rs:407-428 | a retired owner leaves no routes, for the rest of every run |
| `ProtocolClosing.ClosingIsExact` | client/src/session.rs:384-443 | once the owners are collected, a closing task removes no entry of another generation that leads through another session |
| `ProtocolClosing.ClosingLeavesNoOwner` | client/src/session.rs:388-428 | when a closing task has ended, every generation that was registered for a peer routed through the session when its owners were collected, and that of the session's own peer, is no live view's any more and nobody is registered for it |
| `ProtocolClosing.ClosedPeersAreUnregistered` | client/src/session.rs:388-428 | and no such peer is registered for that generation, unless it was not registered when the owners were collected and has been added as an alias since |
| `Protocol.OwnersAreConcerned` | client/src/session.rs:388-406 | the owners of a session are exactly the peers routed through it, with the generations of their routes, and the session's own |
| `ProtocolOutcomes.UndisturbedSuccess` | client/src/session/network_view.rs:789-820 | a successful attempt whose permit is dropped undisturbed is established with its session, announced, and leaves no abort handle |
| `ProtocolOutcomes.UndisturbedFailure` | client/src/session/network_view.rs:789-847 | a failed attempt whose permit is dropped undisturbed announces the failure, lets go of its handles, and is retired and swept |
| `ProtocolOutcomes.UndisturbedReverse` | client/src/session.rs:1272-1346 | a reverse connection that succeeds is reported in the state, and the holder that waits for it goes on with that session |
| `ProtocolOutcomes.UndisturbedDisconnect` | client/src/session.rs:857-870 | disconnecting moves the view to Closing, then retires and sweeps its generation |
| `ProtocolOutcomes.UndisturbedUnregister` | client/src/session.rs:329-371 | unregistering a peer retires and sweeps its generation at once |
| `ProtocolOutcomes.ClosingBeginsWithOwner` | client/src/session.rs:872-899 | closing a session moves the view that owns it to Closing before the owners are collected |
| `ProtocolOutcomes.UnregisteringCollects` | client/src/session.rs:384-406 | unregistering a session collects exactly the peers it concerns |
| `ProtocolOutcomes.SessionTakesEffect` | client/src/session.rs:201-280 | a session is published exactly while its generation is current and in use; then its address and all its identities lead to it, and nothing else is redirected |
| `ProtocolOutcomes.RoutingTakesEffect` | client/src/session.rs:282-323 | a routing is published exactly while its generation is current and in use and its physical session is in place |
| `ProtocolOutcomes.HandleTakesEffect` | client/src/session/network_view.rs:713-721 | an abort handle is kept exactly while the generation is current and not being closed |
| `ProtocolOutcomes.LockGrantsOrWaits` | client/src/session/network_view.rs:648-711 | whoever asks for a lock gets the permit of a new generation, the answering permit of an awaited reverse connection, or waits for the finish of the generation in the way |
| `ProtocolOutcomes.WaiterHearsFromNow` | client/src/session/network_view.rs:697-711 | a new waiter has nothing unread and first looks at the present state |
| `ProtocolOutcomes.EndsWhenOver` | client/src/session/network_view.rs:904-1004 | which states end which wait, in terms of whether anything is still going on |
| `SessionStates.EstablishedOnlyAfterWholeMethod` | client/src/session/session_state.rs:88-230 | in any history a fresh Established is preceded, contiguously and in order, by a whole outgoing, incoming, reverse or relayed method |
| `SessionStates.AllowedIsListed` | client/src/session/session_state.rs:151-230 | the table used in proofs is exactly the list of transitions |
| `SessionStates.BusySinceGrant` | client/src/session/session_state.rs:151-230 | work in progress goes back without interruption to a granted lock |
| `SessionStates.EstablishedSinceGrant` | client/src/session/session_state.rs:151-230 | no session is established without a lock granted since the last close or failure |
| `Registries.LockVerdict` | client/src/session/network_view.rs:660-695 | exactly when a lock is granted, with which generation, and when the caller has to wait |
| `Registries.GuardOk` | client/src/session/network_view.rs:64-85 | finding or creating a view keeps the registry consistent |
| `Registries.GuardFinds` | client/src/session/network_view.rs:64-85 | the view of the identity, else of the first known address, else a new one that the identity and all addresses lead to; nothing else is redirected |
| `Registries.UpdateOk` | client/src/session/network_view.rs:120-172 | registering aliases keeps the registry consistent |
| `Registries.UpdateRegisters` | client/src/session/network_view.rs:120-172 | a description is taken over exactly if its known identities belong to one view; then all its identities and endpoints lead to one view, nothing else is redirected, and its information is replaced if its own identity comes first; otherwise nothing changes |
| `Registries.RetireOk` | client/src/session/network_view.rs:94-113 | retirement keeps the registry consistent and removes every alias and endpoint |
| `Registries.RetireRemovesExactly` | client/src/session/network_view.rs:94-113 | retirement removes exactly the keys that lead to the view |
| `Registries.CommitOk` | client/src/session/network_view.rs:182-235 | committing a refresh keeps the registry consistent |
| `Registries.CommitRegisters` | client/src/session/network_view.rs:182-235 | committing redirects exactly the listed keys and replaces the information |
| `Registries.OpenWhileInUse` | client/src/session/network_view.rs:397-413 | publication is open exactly while the generation is current and being initialized or established, and exactly when a refresh may be committed |
| `Registries.HandlesAccountedFor` | client/src/session/network_view.rs:713-747 | no abort handle is lost: each is kept or returned to be aborted, once, and exactly when |
| `RoutingTables.PublishedIsFound` | client/src/session.rs:240-280 | a published session is found under its address and each identity, as peer and as route, and all other entries stay |
| `Registries.BeginClosingOk` | client/src/session/network_view.rs:419-430 | starting to close keeps the registry consistent although it bypasses the table |
| `Drivers.NextGood` | client/src/session.rs:1120-1407 | each step of a permit holder asks for an allowed transition and keeps it in agreement with the state |
| `Drivers.MethodsInOrder` | client/src/session.rs:1120-1207 | a resolving task that is not refused tries direct, reverse and relayed connections in this order and gives up only after the last |
| `Drivers.EveryAddressIsTried` | client/src/session.rs:1252-1267 | a task that leaves the direct method without a session has begun a handshake with each address that was left |
| `Drivers.GivesUpOnlyAfterTrying` | client/src/session.rs:1120-1270 | a resolving task gives up only after exactly one handshake per address, a reverse connection unless the environment forbids it, and a relayed connection, as far as they are not excluded |
| `Drivers.GoodHandshakeSucceeds` | client/src/session/session_initializer.rs:195-345 | a handshake or relayed connection that nothing goes wrong in ends with the session it was given |
| `Drivers.ServerLearnsEndpoints` | client/src/session.rs:1209-1237 | a connection to the relay server succeeds only after its endpoints have been learned |
| `Drivers.NextReverse` | client/src/session/session_initializer.rs:460-640 | a permit that answers a reverse connection asks only for incoming handshake steps in order |
| `Drivers.ReverseStepAgrees` | client/src/session.rs:1272-1346 | the waiting holder tolerates every step of the reverse handshake and loses no verdict |
| `Drivers.DropAgrees` | client/src/session/network_view.rs:789-838 | a successful attempt can be published and a failed one recorded when the permit is dropped |
| `NetworkViews.NetworkView.FindByAddr` | client/src/session/network_view.rs:304-315 | the first of the addresses that is registered |
| `NetworkViews.NetworkView.GetEntry` | client/src/session/network_view.rs:174-177 | the registered view of an id, if any |
| `NetworkViews.NetworkView.Guard` | client/src/session/network_view.rs:64-85 | the registry becomes the model's, and the returned view is the model's |
| `NetworkViews.NetworkView.UpdateEntry` | client/src/session/network_view.rs:120-172 | all identities and endpoints lead to one view, or nothing changes and the call fails |
| `NetworkViews.NetworkView.RemoveGeneration` | client/src/session/network_view.rs:94-113 | retires exactly a current generation, returns its abort handles, and removes its aliases |
| `NetworkViews.NetworkView.FindConflict` | client/src/session/network_view.rs:201-218 | whether some key already belongs to another view |
| `NetworkViews.NetworkView.CommitRefresh` | client/src/session/network_view.rs:182-235 | commits exactly when allowed and the route is current, otherwise changes nothing |
| `NetworkViews.NetworkView.Transition` | client/src/session/network_view.rs:432-478 | accepts exactly the transitions of the table through a current handle, and announces them |
| `NetworkViews.NetworkView.BeginClosing` | client/src/session/network_view.rs:419-430 | moves a current view to Closing and returns the previous state |
| `NetworkViews.NetworkView.LockSession` | client/src/session/network_view.rs:660-695 | grants or refuses as the model does; a granted right that is not reverse starts a new generation |
| `NetworkViews.NetworkView.RegisterAbortable` | client/src/session/network_view.rs:713-721 | keeps the handle, or returns it to be aborted |
| `NetworkViews.NetworkView.UnregisterAbortable` | client/src/session/network_view.rs:723-728 | forgets the handles of a current generation |
| `NetworkViews.NetworkView.AbortInitialization` | client/src/session/network_view.rs:730-747 | returns the handles of a current generation to be aborted |
| `SessionLayers.SessionLayer.RegisterSession` | client/src/session.rs:201-280 | publishes session and routing exactly when publication is open and the default id is announced, otherwise leaves the tables alone |
| `SessionLayers.SessionLayer.RegisterRouting` | client/src/session.rs:282-323 | publishes exactly when the generation is the registered one and the physical route is current |
| `SessionLayers.SessionLayer.PublishEncryptionRefresh` | client/src/session.rs:700-763 | registry and tables change together or not at all, under the exact commit condition |
| `SessionLayers.SessionLayer.UnregisterGeneration` | client/src/session.rs:335-371 | retires and sweeps exactly one generation and hands out its physical session |
| `SessionLayers.SessionLayer.RemoveRoutes` | client/src/session.rs:347-366 | removes exactly the routes of one generation |
| `SessionLayers.SessionLayer.RetireOwner` | client/src/session.rs:407-428 | retires a registered owner and drops its routes |
| `SessionLayers.SessionLayer.UnregisterSession` | client/src/session.rs:384-443 | run without interruption: no peer that was routed through the session, nor its own, stays registered for that generation, no entry leads to the session, and no other generation and no other entry is affected |
| `HandshakeGuards.ReachableBooks` | client/src/session/session_initializer.rs:76-132 | after any run: admissions are exactly the live ones and at most 256; slots at most 256, one per address, each with a handle; every temporary session counts the live leases on that object |
| `HandshakeGuards.AdmissionReturned` | client/src/session/session_initializer.rs:76-83 | dropping an admission gives back exactly that admission |
| `HandshakeGuards.AdmittedIffRoom` | client/src/session/session_initializer.rs:119-132 | in every reachable state a handshake is admitted exactly if none is admitted for its address, fewer than 256 are, and tokens are left; with a token nobody has |
| `HandshakeGuards.OpenedIffRoom` | client/src/session/session_initializer.rs:429-449 | a slot is opened exactly if fewer than 256 are open and none for the address |
| `HandshakeGuards.LeaseShares` | client/src/session/session_initializer.rs:171-185 | whoever leases at an address shares the object in use there; a new one has one user |
| `HandshakeGuards.SpentForever` | client/src/session/session_initializer.rs:119-132 | a spent admission token never becomes valid again, so it can never remove a newer admission |
| `HandshakeGuards.LeaseReturned` | client/src/session/session_initializer.rs:104-116 | dropping a lease takes one user off its own object and touches no other |
| `HandshakeGuards.LateLeaseIsHarmless` | client/src/session/session_initializer.rs:98-116 | a lease that outlives a shutdown never takes a user off a newer session |
| `HandshakeGuards.ShutdownIsComplete` | client/src/session/session_initializer.rs:647-660 | a shutdown aborts every handshake with a slot and empties the tables |
| `SessionInitializers.SessionInitializerState.AdmitIncoming` | client/src/session/session_initializer.rs:119-132 | admits as the model does, with a fresh token below the 64-bit limit |
| `SessionInitializers.SessionInitializerState.DropAdmission` | client/src/session/session_initializer.rs:76-83 | removes the admission only if the token matches |
| `SessionInitializers.SessionInitializerState.OpenSlot` | client/src/session/session_initializer.rs:429-449 | opens a slot exactly when there is room and the address has none |
| `SessionInitializers.SessionInitializerState.DropSlot` | client/src/session/session_initializer.rs:90-96 | closes the slot and removes its handle |
| `SessionInitializers.SessionInitializerState.LeaseTemporarySession` | client/src/session/session_initializer.rs:171-185 | finds or creates the temporary session and counts the user |
| `SessionInitializers.SessionInitializerState.DropLease` | client/src/session/session_initializer.rs:104-116 | the unchecked decrement cannot underflow; the last user removes the object |
| `SessionInitializers.SessionInitializerState.Shutdown` | client/src/session/session_initializer.rs:647-660 | empties slots, sessions and handles and returns the handles |
| `ResponseSlots.TableIsExact` | client/src/dispatch.rs:251-299 | after any run the table holds for each id exactly the newest request that is still waiting |
| `ResponseSlots.NewRequestWaits` | client/src/dispatch.rs:251-277 | a new request waits in the slot of its id, the one that waited there learns that no response will come, and nothing else changes |
| `ResponseSlots.DropSparesOthers` | client/src/dispatch.rs:167-179 | dropping a request removes no other request's slot |
| `ResponseSlots.ArrivalReachesOne` | client/src/dispatch.rs:302-326 | a response reaches the newest waiting request with its id and no other |
| `ResponseSlots.ResponsesAreNotShared` | client/src/dispatch.rs:302-326 | no two requests get the same response |
| `ResponseSlots.SettledForever` | client/src/dispatch.rs:251-326 | what a request got it keeps |
| `Dispatchers.Dispatcher.Response` | client/src/dispatch.rs:251-277 | registers a request and cancels the one it displaces |
| `Dispatchers.Dispatcher.DispatchResponse` | client/src/dispatch.rs:302-317 | uses up the slot and delivers unless the receiver is gone |
| `Dispatchers.Dispatcher.DropPending` | client/src/dispatch.rs:167-179 | removes the slot only if its own receiver is gone |
| `ForwardIndexes.AddKeepsMirrored` | client/src/direct_session.rs:37-54 | adding keeps the two maps mutually inverse exactly when the entry at the slot is reached by the clean-up |
| `ForwardIndexes.UndocumentedEntriesBreakIt` | client/src/direct_session.rs:21-23 | a concrete pair of entries without their default id that breaks the index |
| `ForwardIndexes.AddSurvivors` | client/src/direct_session.rs:37-54 | for documented entries the survivors are exactly those at other slots with disjoint identities |
| `ForwardIndexes.RemoveIs` | client/src/direct_session.rs:56-67 | removing an identity removes exactly its group and returns it |
| `ForwardIndexes.RemoveEachIs` | client/src/direct_session.rs:46-48 | removing overlapping identities one by one removes exactly the groups they are in |
| `ForwardIndexes.RemoveSlotIs` | client/src/direct_session.rs:69-75 | removing by slot removes that entry and no other |
| `ForwardIndexes.LookupsAgree` | client/src/direct_session.rs:77-90 | every identity of a stored entry resolves to that entry and nothing else does |
| `ForwardIndexes.AlwaysMirrored` | client/src/direct_session.rs:37-75 | the maps stay mutually inverse over any sequence of operations |
| `DirectSessions.AllowedForwards.Add` | client/src/direct_session.rs:37-54 | the index becomes the model's |
| `DirectSessions.AllowedForwards.Remove` | client/src/direct_session.rs:56-67 | the index and the returned entry are the model's |
| `DirectSessions.AllowedForwards.RemoveBySlot` | client/src/direct_session.rs:69-75 | the index and the returned id are the model's |
| `DirectSessions.AllowedForwards.GetById` | client/src/direct_session.rs:85-90 | the entry an identity resolves to |
| `IpChecks.EveryRequestAccountedFor` | server/src/server/ip_checker.rs:187-325 | after any run a request is in exactly one place: pending, resolved by exactly one call, dropped as duplicate, or lost; retry pings never exceed the retry count |
| `IpChecks.RunKeepsBuckets` | server/src/server/ip_checker.rs:187-325 | buckets are never empty, hold only their own address and pairwise distinct sessions |
| `IpChecks.NoTimedOutSurvivor` | server/src/server/ip_checker.rs:242-268 | after sending pings nothing pending has timed out or lost its session |
| `IpChecks.BucketSplits` | server/src/server/ip_checker.rs:247-263 | each request of a bucket is kept, resolved or lost, once |
| `IpChecks.PingsPaid` | server/src/server/ip_checker.rs:255-259 | each retry ping uses up one retry |
| `IpChecks.RequestsGetTheirAnswer` | server/src/server/ip_checker.rs:242-325 | after any run, an operation calls back a pending request with yes exactly if it is a pong from the request's address with the id of its live session, and with no exactly if the address is unreachable or the request has timed out; it loses exactly those whose session is gone, pings exactly those with a retry due, and leaves the others |
| `IpChecks.EnqueuedUnlessPending` | server/src/server/ip_checker.rs:196-204 | a new request is queued exactly if no request of its session is pending at its address |
| `IpChecks.CallsAreAnswers` | server/src/server/ip_checker.rs:279-325 | within a bucket, exactly the requests that the event answers are called back, with that answer |
| `IpChecks.TotalSplits` | server/src/server/ip_checker.rs:238-240 | the number of pending requests does not depend on the order of the buckets |
| `IpCheckers.IpCheckerState.EnqueueRequest` | server/src/server/ip_checker.rs:196-204 | pushes the request unless its session is already pending at that address |
| `IpCheckers.IpCheckerState.FilterPong` | server/src/server/ip_checker.rs:281-303 | resolves the requests of the session, keeps the others, loses those without a session |
| `IpCheckers.IpCheckerState.FailAll` | server/src/server/ip_checker.rs:314-324 | resolves every request whose session still exists |
| `IpCheckers.IpCheckerState.FilterRetry` | server/src/server/ip_checker.rs:247-263 | resolves what timed out, pings the rest while retries are left |
| `IpCheckers.IpCheckerState.ResolveSuccess` | server/src/server/ip_checker.rs:279-307 | resolves the requests of the session at that address |
| `IpCheckers.IpCheckerState.ResolveUnreachable` | server/src/server/ip_checker.rs:309-325 | resolves the whole bucket negatively |
| `IpCheckers.IpCheckerState.SendPings` | server/src/server/ip_checker.rs:242-268 | visits every bucket once |
| `TimeWindows.WindowConserves` | crates/stack/src/metrics.rs:139-191 | total plus accumulator equals everything pushed, over any sequence of pushes and reads |
| `TimeWindows.CombineConserves` | crates/stack/src/metrics.rs:193-239 | adding windows adds what was pushed into either |
| `TimeWindows.SilenceDecays` | crates/stack/src/metrics.rs:165-184 | with nothing accumulated, n silent windows scale the average by exactly (1 - alpha) to the n |
| `TimeWindows.NeverPassesIffWholeMilliseconds` | crates/stack/src/metrics.rs:165-191 | advancing never passes the given time exactly when the window size is a whole number of milliseconds |
| `TimeWindows.FractionsPass` | crates/stack/src/metrics.rs:165-184 | for any other size, an elapsed time at which it does |
| `TimeWindows.AdvanceMoves` | crates/stack/src/metrics.rs:165-191 | how far advancing moves the end of the last window |
| `TimeWindows.CyclesAreRounded` | crates/stack/src/metrics.rs:170-172 | the number of windows is the elapsed time over the size, in milliseconds, rounded half up |
| `TimeWindows.AdvanceIsComplete` | crates/stack/src/metrics.rs:165-184 | for whole milliseconds, advancing to the same time again changes nothing |
| `TimeWindows.CombinedAverage` | crates/stack/src/metrics.rs:200-239 | the merged average is midway between the two at the later end, or the only one there is |
| `TimeWindows.CombineCommutes` | crates/stack/src/metrics.rs:200-239 | of windows that measure in the same way it does not matter which is added to which |
| `TimeWindows.FirstPushCounts` | crates/stack/src/metrics.rs:130-163 | what is pushed at the start of a new window counts at once |
| `TimeWindows.RunFeeds` | crates/stack/src/metrics.rs:139-191 | the average is at any time the moving average of exactly the samples fed to it |
| `TimeWindows.WindowAverageInRange` | crates/stack/src/metrics.rs:139-191 | the average stays within the range of the samples fed to it |
| `Averages.AverageIsWeightedSum` | crates/stack/src/metrics.rs:93-104 | the running average equals the weighted sum of all samples |
| `Averages.SharesAddUp` | crates/stack/src/metrics.rs:71-90 | the weights add up to one |
| `Averages.AverageInRange` | crates/stack/src/metrics.rs:93-104 | the average never leaves the range of the samples |
| `MetricObjects.TimeWindow.Push` | crates/stack/src/metrics.rs:155-163 | accumulates within a window, otherwise advances and feeds one sample |
| `MetricObjects.TimeWindow.Advance` | crates/stack/src/metrics.rs:165-184 | flushes the accumulator and feeds one zero per silent window |
| `MetricObjects.TimeWindow.Add` | crates/stack/src/metrics.rs:200-239 | advances both windows to the later end and merges them |
| `MetricObjects.Ewma.Push` | crates/stack/src/metrics.rs:97-103 | the new average of the old one and the sample |
| `Challenges.CountLeadingZeros` | crates/core/src/challenge.rs:260-271 | counts the leading zero bits |
| `Challenges.LeadingZerosIsThreshold` | crates/core/src/challenge.rs:260-271 | at least d leading zero bits exactly when the big-endian number is below the power of two |
| `Challenges.SolveChallenge` | crates/core/src/challenge.rs:62-79 | returns the solution with the least nonce, and fails only if no 64-bit nonce solves the challenge |
| `Challenges.SolutionVerifies` | crates/core/src/challenge.rs:81-96 | every solution verifies |
| `Challenges.VerifiedIsSolution` | crates/core/src/challenge.rs:81-96 | whatever verifies is the solution for the nonce it starts with |
| `Challenges.SignersRecovered` | crates/core/src/challenge.rs:165-170 | recovery returns the signers in order |
| `Challenges.HonestAnswerRecovered` | crates/core/src/challenge.rs:131-195 | recovery from an honest answer returns default id, all signers in order, the session key and a proof for each |
| `Challenges.RecoveredEach` | crates/core/src/challenge.rs:165-170 | recovery succeeds exactly when every signature reveals a signer, in order |
| `Challenges.RecoveredIsProven` | crates/core/src/challenge.rs:131-208 | whatever is recovered is proven: solution, signatures, expected node, session key proofs |
| `Challenges.RecoversExactlyProven` | crates/core/src/challenge.rs:131-208 | recovery succeeds with some identities exactly if the response solves the challenge, each of them signed the solution in order, the session key proofs are theirs, and the first is the expected node |
| `Challenges.CollectProofs` | crates/core/src/challenge.rs:186-190 | accepts exactly when every proof verifies, and collects them by identity |
| `ServerSessions.PreimageInjective` | server/src/server/session.rs:138-155 | the same bytes are hashed exactly for the same ip address, port and epoch |
| `ServerSessions.CheckSessionId` | server/src/server/session.rs:128-137 | accepts exactly the cookies of the current and the two previous epochs |
| `ServerSessions.CookieBindsAddressAndTime` | server/src/server/session.rs:128-168 | without a collision a cookie is accepted exactly from its ip address and port, in its epoch or the next two |
| `ServerSessions.ChallengedIffSupportedHello` | server/src/server/session.rs:170-366 | a challenge is given exactly in answer to a first request with a supported version; the id given with it, like the id of every success, is accepted from the same endpoint |
| `ServerSessions.GrantedExactlyToProven` | server/src/server/session.rs:170-289 | a session is granted, or a conflict reported, exactly to a response that solves the id's challenge and is signed by all identities it claims, if the id is recent for the sender's endpoint; a conflict exactly if the session is entered for another node |
| `ServerSessions.HonestHandshakeSucceeds` | server/src/server/session.rs:170-366 | an honest reply from the same address within two epochs is answered Ok, or Conflict exactly if the session belongs to another node |
| `ServerSessions.PreimageBindsServer` | server/src/server/session.rs:138-160 | what is hashed into a cookie depends on the server's secret and difficulty |
| `ServerSessions.ChallengeBindsId` | server/src/server/session.rs:118-126 | without a collision, different session ids have different challenges |
| `ServerSessions.LateOrForeignReplyRejected` | server/src/server/session.rs:221-236 | a later reply, or one from another ip address or port, is rejected whatever it contains |
| `Ports.SearchFindsClosest` | crates/stack/src/port.rs:23-30 | the search returns the closest free port in cyclic order |
| `Ports.SearchIsExhaustive` | crates/stack/src/port.rs:13-33 | from any start the search fails exactly when all ports of the range are taken |
| `Ports.Allocator.Next` | crates/stack/src/port.rs:15-33 | allocates what the search finds and marks it taken, for that protocol only |
| `Ports.Allocator.Reserve` | crates/stack/src/port.rs:36-43 | succeeds exactly when the port was free |
| `Ports.Allocator.Free` | crates/stack/src/port.rs:45-47 | frees the port for that protocol only |
| `Framing.VarintRoundTrip` | crates/proto/src/codec.rs:132-165 | a value that fits is read back, whatever follows it (Protocol Buffers Encoding, section "Base 128 Varints") |
| `Framing.VarintBounds` | crates/proto/src/codec.rs:132-153 | bounds of what is read, and exactly which prefixes are too short or too long |
| `Framing.PeekSize` | crates/proto/src/codec.rs:132-153 | reading the prefix byte by byte is reading a varint of at most three groups |
| `Framing.ReadsWhatWasWritten` | crates/proto/src/codec.rs:67-115 | a frame is read back as written and exactly it is consumed |
| `Framing.PartialFrame` | crates/proto/src/codec.rs:78-115 | what is read when only the first bytes of a frame have arrived: thrown away, handed out as a forward, or kept until it is complete, with the bytes still to come |
| `Framing.WrittenIffReadable` | crates/proto/src/codec.rs:132-165 | a size is written exactly if the receiver can read it |
| `Framing.StreamRoundTrip` | crates/proto/src/codec.rs:67-165 | frames written back to back are read back in order and completely |
| `Framing.ReadLosesNothing` | crates/proto/src/codec.rs:78-115 | what is handed out and what remains are consecutive pieces of the buffer |
| `Framing.Buffer.ReadBytes` | crates/proto/src/codec.rs:67-71 | takes one frame off the buffer as the model does |
| `Framing.Buffer.ReadBytesInner` | crates/proto/src/codec.rs:78-115 | advances and splits the buffer as the model does |
| `Forwards.DecodeEncode` | crates/proto/src/proto.rs:105-138 | decoding undoes encoding |
| `Forwards.EncodeDecode` | crates/proto/src/proto.rs:105-138 | encoding undoes decoding exactly for buffers with the canonical key |
| `Forwards.ForwardsArrive` | crates/proto/src/codec.rs:67-115 | a forwarded packet that is sent is read off the stream, or out of its datagram, as one forward and decodes to what was sent |
| `Forwards.OtherWireTypesAreDecoded` | crates/proto/src/proto.rs:113-121 | a decodable buffer without the canonical key |
| `Forwards.AbortsIffOverrun` | crates/proto/src/proto.rs:113-138 | decoding splits beyond the end exactly for buffers with a full header length whose forward key is written in more bytes than needed and followed by too little |
| `Forwards.LongKeyOverruns` | crates/proto/src/proto.rs:113-138 | a concrete buffer of that kind |
| `Forwards.ForwardsReadAreSafe` | crates/proto/src/codec.rs:67-115 | what the stream and the datagram reader hand out as a forward is never such a buffer |
| `Payloads.ShiftIn` | crates/util/src/payload.rs:92-94 | the overlapping backward copy leaves the front followed by the old bytes |
| `Payloads.Payload.Prepend` | crates/util/src/payload.rs:77-102 | the contents become front ++ old |
| `Payloads.Payload.Extend` | crates/util/src/payload.rs:57-75 | the contents become old ++ tail |

## Left out

- Tasks that suspend (resolving a peer, dropping a permit, waiting, closing) are state machines over their suspension points rather than methods with loops, because other tasks run in between.
- Sockets, channels, timers and the polling loops of the virtual network: I/O; timeouts are open choices of the environment.
- ECDSA, ECDH, AES-GCM-SIV, Keccak and SHA: parameters with stated assumptions.
- The server's session table, slot manager and node handlers: the answer of the session table is a parameter of `Handle`.
- The back-off maps of encryption synchronization and the forwarding updates inside the sweeps: they do not influence the tables.
- The abort of a running initialization by a closing task is the separate operation `DroppingHandles`, which any task may perform at any time.
- Error payloads of failed sessions, and failing upgrades of weak session references.
- Closed notification channels: a waiter holds its view, so its channel is open.
- The capacity of the notification channel is a constant on whose value nothing depends. In the wait inside the reverse method lagging is one of the failures the environment may choose.
- `NetworkView::transition` and its siblings that look a view up by id first: they only add a lookup to `Transition` through an unbound handle.
- The test helper that creates temporary sessions without users.
- Wrap-around of the 64-bit generation counter and collisions of random session ids: identifiers are fresh.
- ProtocolPromises.AddressesCanSplitPermits: one run; the general statements are GuardSharesIffNamed, NamedRequestsExclude and UnnamedRequestsSplit.
- ProtocolPromises.PeerRefreshesTwice: two runs; the general statement is LastRefreshIffAllListed.
- ProtocolOwnership.EstablishedSessionIsOwn: that a handshake which reaches its end returns the session it has registered, and a relayed connection a registered session of the relay, is a premise of the driving step.
- NetworkViews.NetworkView.UpdateEntry: a description without identities is refused; the source aborts there before it changes anything, because it takes the first identity.
- ServerSessions.ChallengeBindsId: assumes that the truncated hash does not collide for the two ids.
- ServerSessions.LateOrForeignReplyRejected: the flow label and the scope of a V6 address are not bound by the cookie; assumes that the truncated hash does not collide for the cookies involved, because no 16-byte hash can be injective on all inputs.
- TimeWindows.NeverPassesIffWholeMilliseconds: rounding of 64-bit floats and saturation of the cycle count are not modelled for windows of at least one millisecond.
- Forwards.DecodeEncode: flags are a 16-bit number; the bit helpers are not modelled.
- Payload variants other than their contents and whether they are shared; capacity and reallocation.
- Hamming distance, address mapping, MTU arithmetic, TCP states, configuration, logging and metrics registration: no hard property.
