# Verification of masc-server's stateful protocols

masc-server is the backend of Mission Airsoft Control: devices offer actors, games cast and hire
them, fixtures and light switches are managed and bridged from MQTT. Its difficulty lies in small stateful
protocols that run under mutexes and channels. This project models these protocols in Dafny and
proves what they promise, for every run.

`dafny verify dfyconfig.toml` checks everything.

## How the model is built

Code that changes fields is a class with the same fields, and each method is proved against a
function or a predicate on the old and the new state. Where goroutines share state, a protocol module
adds a step function: one action is one section executed under a mutex or one channel rendezvous,
together with every choice that the scheduler, a map iteration or the environment makes in it.
`Runs.Run` executes a list of actions, so a lemma about `Run(Step, s, actions)` is a statement about
every interleaving. Classes and step functions use the same functions for the sections (`Contracts`,
`SubscriptionIndex`, `ReadyAwaiter.Announced` and `Recorded`, `StateBroadcast.Notified`,
`SwitchRegistry.Registered`).

| module | file | modelled |
|---|---|---|
| `Runs`, `Sequences` | Runs.dfy | runs of a step function, a shared predicate |
| `Contracts`, `Acting` | Acting.dfy | one actor: contract, connection, outgoing log, contract watchers, subscriptions |
| `DeviceProtocol` | DeviceProtocol.dfy | hiring, firing, sending, watchers and device shutdown, interleaved |
| `CastingRules` | CastingRules.dfy | requests, counts, winner lists, grounds for refusing a reply |
| `HiredState` | HiredState.dfy | the actors of a casting: hiring one, rolling back, pending watchers, lost connections |
| `Casting` | Casting.dfy | the casting itself: its loop, hiring all winners or none |
| `SubscriptionIndex`, `Subscriptions` | Subscriptions.dfy | the two indexes with swap-remove, forwarding |
| `IncomingMessages` | Subscriptions.dfy | what an actor does with an incoming message |
| `SubscriptionProtocol` | SubscriptionProtocol.dfy | subscribing, two-phase unsubscribing and delivery, interleaved |
| `ReadyAwaiter` | ReadyAwaiter.dfy | ready-state handlers with one decision |
| `ReadyExceptions` | ReadyExceptions.dfy | when nil does not mean ready, and when an error is recorded although nothing failed |
| `StateBroadcast` | StateBroadcast.dfy | the coalescing notifier of fixture states |
| `Fixtures` | Fixtures.dfy | fixtures, their store, and the manager that caches them |
| `LightSwitches` | LightSwitchHiLo.dfy | toggling on rising edges |
| `SwitchRegistry` | SwitchRegistry.dfy | registration and clean-up of light switches |
| `Players` | Players.dfy | joined players and the log of updates |
| `ShellyTopics` | ShellyTopics.dfy | reading and printing the topics of a Shelly 1 |

## What the code does differently from what one expects

- A watcher goroutine of a fired contract may call fire after the actor was hired again, and so end a
  contract that nobody cancelled. This can happen to a contract if and only if a watcher was pending
  when the hire signed it (`DeviceProtocol.HireIsSafeExactly`, `DeviceProtocol.ContractIsSafeExactly`;
  `DeviceProtocol.StaleWatcherEndsLaterContract` is such a run). A casting leaves such watchers behind
  when it rolls back; its result holds for all other actors (`Casting.Casting.PerformAndHire`).
- The winner count is compared after a conversion to 32 bits; the comparison is right for every
  request exactly below 2^32 (`CastingRules.CastIsExactBelow32Bits`).
- The ready decision rests on its snapshot. When nil is returned, everybody is ready if and only if
  since the snapshot nobody's last word was not to be ready (`ReadyExceptions.NilMeansReadyExactly`),
  and until the result is out somebody can always take readiness back
  (`ReadyExceptions.ReadinessTakenBack`).
- Wrapping a nil error yields an error. A ready handler that has sent ReadyAccepted without any failure
  therefore records one, if the await was aborted while updates were still accepted
  (`ReadyExceptions.RecordedAfterAbort`, `ReadyExceptions.AbortRecordsErrorExactly`); and a casting
  whose jury cannot be told about a refused reply ends with an error although the variable that is
  wrapped is nil (`NoticeFailed` in `Casting.Casting.PerformAndHire`).
- A message to an actor that was never hired dereferences a nil subscription manager, and so does
  firing it (`IncomingMessages.Happen` has the exact condition).
- The scan of the fixture rows may end early without an error. Loading then misses rows, and the cache
  of a new manager agrees with the store if and only if none was missed
  (`Fixtures.StoredManager.LoadKnownFixtures`).
- The comment on setWinners expects an error for every key that was not requested; but a jury may
  assign any key, and its winners are hired and can be retrieved (`CastingRules.CollectedLists`).
- A fixture type that is not supported is shown as basic, so the same offers are refused when they
  come again (`Fixtures.SecondRunIsIdle` has the exact condition).
- A rejected light switch provider leaves the switches before its first clash registered for ever,
  and blocks every later provider with one of them (`SwitchRegistry.StaleEntriesStay`;
  `SwitchRegistry.RejectionLeavesNothing` has the exact condition).
- A shelly whose id holds `shelly1-` is detected but cannot be created
  (`ShellyTopics.CommandsReachDetectedDevice`, `ShellyTopics.IDComesBack`).

## Model

| member | source | states |
|---|---|---|
| Acting.NetActor.ForceSend | acting/acting.go:274-286 | nothing leaves a disconnected actor; otherwise exactly the message is appended to what was sent |
| Acting.NetActor.Hire | acting/acting.go:197-238 | succeeds exactly for a connected actor without contract; then the actor was told, has a new contract and a watcher for it; without a contract the subscriptions begin anew even if the actor cannot be told |
| Acting.NetActor.Fire | acting/acting.go:252-270 | ends the contract, cancelled, after telling the actor if it is connected; with or without a contract all subscriptions are cancelled, and without a manager that is the nil dereference |
| Acting.NetActor.Send | acting/acting.go:288-304 | succeeds exactly for a hired and connected actor; then what it was given is appended to the log, and nothing else changes |
| Acting.NetActor.RunWatcher | acting/acting.go:233-236 | the watcher of a cancelled contract calls fire once; of a valid actor it always has a manager |
| Acting.NetActorDevice.Shutdown | acting/acting.go:487-502 | in any order of the map, every actor is disconnected and its contract, if it has one, cancelled; nothing else changes |
| DeviceProtocol.MemberStepKeeps | acting/acting.go:197-304 | every section of hiring, firing and sending keeps a watcher for each valid contract and the shape of the log; an actor dismissed by the shutdown gets no further contract |
| DeviceProtocol.RunsKeepInv | acting/acting.go:197-304 | in every interleaving: each valid contract has a watcher that has not fired, the lock holders fit the contract, visited actors are dismissed |
| DeviceProtocol.ShutdownLeavesNoValidContract | acting/acting.go:487-502 | whatever hire races with the shutdown, a visited actor is disconnected, and a contract that it still has is cancelled with its watcher yet to run |
| DeviceProtocol.NoHireSurvivesShutdown | acting/acting.go:487-502 | after the visit no hire succeeds any more, and once the due watchers have run the actor has no contract in any continuation |
| DeviceProtocol.ScannedLogHasSessions | acting/acting.go:210-268 | an accepted log is a prefix of complete sessions, with only the last one possibly open |
| DeviceProtocol.OutgoingLogIsPrefixOfSessions | acting/acting.go:197-304 | in every interleaving the outgoing log is a prefix of (YouAreIn payload* Fired)*, complete while a connected actor rests without contract |
| DeviceProtocol.NothingSentAfterDisconnect | acting/acting.go:274-286 | a disconnected actor stays disconnected and its log stands still in every continuation |
| DeviceProtocol.LogIsWhatWasSaid | acting/acting.go:197-304 | in every interleaving the log holds exactly what was said, in order: the notice of each hire that met the actor free and connected, the messages that met it hired and connected, the notice of each fire that met it so |
| DeviceProtocol.PayloadsAreAccepted | acting/acting.go:288-304 | in every interleaving the payloads that an actor gets are, in order, the contents of the messages that met it hired and connected |
| DeviceProtocol.UndisturbedHire | acting/acting.go:197-238 | the two sections of a hire, run without interruption, are the specification that the method is proved against |
| DeviceProtocol.UndisturbedFire | acting/acting.go:252-270 | the same for fire, called directly or by a watcher |
| DeviceProtocol.UndisturbedVisit | acting/acting.go:490-501 | the two steps by which the shutdown visits an actor, run without interruption, are what the method does to it |
| DeviceProtocol.ContractIsSafeExactly | acting/acting.go:233-270 | in every reachable state with the lock free: a valid contract can be ended by a watcher without having been cancelled if and only if a watcher of another contract is pending |
| DeviceProtocol.HireIsSafeExactly | acting/acting.go:197-238 | in every reachable state: the contract that a hire signs can be ended so if and only if a watcher is pending when it is signed |
| DeviceProtocol.StaleWatcherEnds | acting/acting.go:233-270 | a pending watcher of another contract can end the valid contract at once |
| DeviceProtocol.SafeEndsCancelled | acting/acting.go:233-270 | once only its own watcher is pending, no continuation has a watcher end the contract without its having been cancelled |
| DeviceProtocol.StaleWatcherEndsLaterContract | acting/acting.go:233-236 | the witness: a run from a new device in which the watcher of an old contract ends a new one |
| CastingRules.CastIsExactBelow32Bits | casting/casting.go:300-326 | the comparison after conversion to 32 bits agrees with the true one for all requests if and only if the count is below 2^32 |
| CastingRules.CastIsExactOnUint32 | casting/casting.go:300-326 | every count that 32 bits hold is judged as without the conversion |
| CastingRules.SatisfiableExactly | casting/casting.go:127-144 | the checks on minimum and maximum let a request pass if and only if some positive 32-bit count is within its range |
| Casting.Casting.AddRequest | casting/casting.go:113-167 | accepted exactly in the ready state when the requests stay valid (distinct keys, maximum at least 1, minimum not above maximum); then appended, otherwise unchanged |
| CastingRules.CollectedLists | casting/casting.go:334-358 | the winner map has the requested and the assigned keys, and each list is the sub-list of assignments of that key, in order |
| CastingRules.WinnersInOrder | casting/casting.go:334-358 | each assignment puts its actor in the place that the number of earlier assignments of its key gives, and there are no other winners |
| Casting.Casting.SetWinners | casting/casting.go:334-358 | succeeds exactly when all assigned actors are known, and then the winners are those of the assignments |
| Casting.Casting.AssureWinnersSatisfyRequests | casting/casting.go:300-327 | succeeds exactly when every request passes the count comparison |
| HiredState.HireNext | casting/casting.go:272-273 | one hire of the loop, with watchers running and connections lost before it: it succeeds only for an online actor without contract, and is refused only to one that was hired, or offline, or has just lost its connection; nobody else is touched |
| HiredState.FireAllActors | acting/acting.go:686-691 | each listed actor loses its contract, is told once if it had one and is connected, and has all subscriptions cancelled; the watchers stay pending |
| HiredState.RollBack | casting/casting.go:274-280 | after the rollback exactly those are hired that were before, each hired one having been told of its firing; they are exposed to their watchers |
| HiredState.PendingMeansStale | acting/acting.go:233-236 | a valid contract has other watchers than its own if and only if the actor has a pending one |
| Casting.Casting.HireListed | casting/casting.go:272-293 | the list of one key: all of it is hired in addition to what was hired so far, or everything hired so far is fired, on a ground that is there without the lost connections, and those are hired that were first; but for the exposed actors |
| Casting.Casting.HireOrFire | casting/casting.go:273-291 | the same for one listing |
| Casting.Casting.HireWinners | casting/casting.go:268-295 | all or nothing in every map order, with the given connections lost and pending watchers running at any time: all listed actors hired and told so once, pairwise distinct, online, none hired before; or those hired that were before, and some winner is listed twice, was hired before, or is offline or loses its connection in the round. Nobody else is touched; but for the exposed actors |
| Casting.Casting.TryAssignments | casting/casting.go:225-252 | one reply either hires exactly its winners with acceptable counts, or leaves those hired that were, on one of the three grounds; a reply that fails before hiring touches nobody |
| Casting.Casting.PerformRound | casting/casting.go:197-256 | one turn of the loop leaves with the result that its events call for, or goes on with the hired set unchanged after a reply with a ground for refusal; exactly the given connections are lost, nobody but the actors of a reply that gets as far as hiring is touched, and everybody is told in turn |
| Casting.Casting.PerformAndHire | casting/casting.go:170-262 | over any number of rounds, with old watchers running at any time: success means state done, all counts in range (below 2^32 assignments), and for every actor that is not exposed: winners pairwise distinct, online, none hired before, all hired and told so once, with no watcher pending; every error leaves those hired that were; the result is the one that the rounds call for. Online are in the end those that were but for the ones that the rounds take. Every actor, exposed or not, is told of its hirings and firings in turn and of nothing else, and nobody but those with a pending watcher at first and those of a reply that got as far as hiring is touched. Exposed are only actors with a pending watcher at first, or such of an earlier round whose watchers have not run; if there are none the statement is about all actors |
| Casting.Casting.AcceptableIsAccepted | casting/casting.go:197-256 | a reply for which there is no ground of refusal, even with the connections that its round takes, ends the loop with success unless it was left before |
| Casting.Casting.AcceptedIsAcceptable | casting/casting.go:197-256 | if nobody is exposed, only such a reply is accepted, judged by the connections at the beginning of its round |
| Casting.Casting.GetWinners | casting/casting.go:377-402 | winners are given exactly when the casting is done and the key is known |
| Casting.Casting.GetWinner | casting/casting.go:361-374 | one winner is given exactly when the key has a single one |
| Subscriptions.SubscriptionManager.SubscribeMessageType | acting/subscriptions.go:104-123 | a new token, entered in both indexes |
| Subscriptions.SubscriptionManager.CancelLifetime | acting/subscriptions.go:151-153 | the first phase ends the lifetime of this subscription and of no other |
| Subscriptions.SubscriptionManager.RemoveSubscription | acting/subscriptions.go:156-197 | the second phase: search, swap with the last, cut, delete; or one of the three errors |
| Subscriptions.SubscriptionManager.Unsubscribe | acting/subscriptions.go:148-198 | both phases, without another section between them: this lifetime ends and no other, and a live token is taken out of the index unless one of the errors arises; an unknown token is the error for exactly that |
| Subscriptions.SubscriptionManager.HandleMessage | acting/subscriptions.go:127-144 | the message is taken by a part of the list of its type, in order, with everybody who is not shut down; their number is returned and the indexes stay |
| Subscriptions.SubscriptionManager.CancelAllSubscriptions | acting/subscriptions.go:202-217 | in any order of the map: both indexes end empty, exactly the live subscriptions are shut down in addition, nothing else changes |
| SubscriptionIndex.Forward | acting/subscriptions.go:127-144 | the forwarding loop: live subscriptions take the message, the others may, in the order of the list, and the takers are counted |
| SubscriptionIndex.PartHasLive | acting/subscriptions.go:133-140 | takers are listed, and everybody listed who is not shut down is a taker |
| IncomingMessages.HandleIncomingMessage | acting/acting.go:326-332 | without a subscription manager there is nobody to hand the message to; otherwise a message that nobody takes is answered with one error, exactly if the actor is hired and connected, and this happens only when all subscriptions of its type are over |
| IncomingMessages.Happen | acting/acting.go:197-332 | whatever happens to a new actor, messages can be handed to it if and only if somebody has tried to hire it, with or without success |
| SubscriptionIndex.SubscribeKeepsAgreement | acting/subscriptions.go:104-123 | subscribing keeps the indexes in agreement, uses a token never used before, and appends to one list only |
| SubscriptionIndex.SwapRemovePermutes | acting/subscriptions.go:193-194 | swap-remove takes out one occurrence and keeps the rest as a multiset |
| SubscriptionIndex.SwapRemoveKeepsOthers | acting/subscriptions.go:193-194 | tokens stay distinct and exactly the removed one is missing |
| SubscriptionIndex.RemoveKeepsAgreement | acting/subscriptions.go:156-197 | removing an issued subscription keeps agreement, changes only its own entries, and never reaches the two branches for an entry that should exist |
| SubscriptionProtocol.IndexesAlwaysAgree | acting/subscriptions.go:104-197 | in every interleaving each live token stands exactly once in the list of its type and nowhere else, and no unsubscribe ends in the two unreachable errors |
| SubscriptionProtocol.OnlyUnsubscribedAreShutDown | acting/subscriptions.go:148-217 | in every interleaving a subscription is shut down if and only if somebody has begun to unsubscribe it and is past the first phase |
| SubscriptionProtocol.RegistryStepOnToken | acting/subscriptions.go:104-217 | while a message is being handled the lists stand still, and only a subscription whose lifetime is over is removed |
| SubscriptionProtocol.ReceivedInOrder | acting/subscriptions.go:127-144 | ordered deliveries give each subscription an increasing list of messages without duplicates, and exactly its deliveries |
| SubscriptionProtocol.StepOnDelivery | acting/subscriptions.go:127-197 | a delivery that was allowed stays allowed, and a message becomes owed only by completing while the subscription is not shut down |
| SubscriptionProtocol.DeliveryHistory | acting/subscriptions.go:127-197 | in every interleaving each subscription receives in order and once messages of its type between subscription and removal, among them all that were completed before its shutdown; the returned counts are the numbers of receivers and sum to all deliveries |
| SubscriptionProtocol.UndisturbedHandling | acting/subscriptions.go:127-144 | whatever part of the list takes a message in the method is a run of the protocol, with the same deliveries and the same count |
| SubscriptionProtocol.CancelAllFrom | acting/subscriptions.go:200-217 | from any agreeing state, also with unsubscribes underway, the parallel unsubscribes end with every live subscription shut down and removed by exactly one of them |
| SubscriptionProtocol.StepKeepsCallers | acting/subscriptions.go:148-197 | no unsubscribe finishes while its subscription is live, and each subscription that is gone was removed by exactly one |
| SubscriptionProtocol.CancelAllEmptiesIndexes | acting/subscriptions.go:200-217 | the same in every reachable state: both indexes are empty, the only error is an unknown token, and without other unsubscribes underway none of its own fails and exactly the live subscriptions are shut down in addition |
| ReadyAwaiter.BuildUpdate | games/ready.go:118-138 | in every map order the update lists each entry once and reports everybody ready exactly when all are |
| ReadyAwaiter.Awaiter.StoreReadyState | games/ready.go:197-199 | the last word of an actor replaces its earlier one and no other |
| ReadyAwaiter.Awaiter.HandleReadyStateUpdate | games/ready.go:110-148 | a late update changes nothing; otherwise exactly one update is appended, which lists all states with their conjunction as flag, followed by the decision exactly when everybody is ready |
| ReadyAwaiter.Awaiter.HandleError | games/ready.go:151-167 | the first error before a decision is stored, ends the acceptance of updates and is the decision; every other one changes nothing |
| ReadyAwaiter.RunsKeepInv | games/ready.go:68-204 | every interleaving of the handlers keeps the places of the handlers, the shared state and the events consistent |
| ReadyAwaiter.OneDecision | games/ready.go:107-167 | at most one decision, no update after it, an all-ready update at most once, as the last one and followed by its decision |
| ReadyAwaiter.UpdatesListRequestedActors | games/ready.go:81-138 | every update lists exactly the requested actors, and its flag is the conjunction of their states |
| ReadyAwaiter.UpdatesAreSent | games/ready.go:107-148 | in every interleaving the updates sent are exactly those that handlers have collected and gone on to send, in order |
| ReadyAwaiter.AccurateListsAll | games/ready.go:118-138 | an all-ready update shows every requested actor as ready |
| ReadyAwaiter.ResultsAreDecided | games/ready.go:91-104 | success is returned only on an all-ready decision with every requested actor ready and no error recorded; a returned error is a request that could not be sent |
| ReadyAwaiter.HandlersSendPrefixes | games/ready.go:174-204 | each handler sends a prefix of [AreYouReady, ReadyAccepted], the latter only after the decision or the abort |
| ReadyExceptions.ReadyIsWhatWasTold | games/ready.go:68-204 | in every interleaving an actor counts as ready if and only if its last word was to be ready |
| ReadyExceptions.NilMeansReadyExactly | games/ready.go:68-148 | every run that returns nil has collected its snapshot at some point; everybody is ready at the return if and only if since then nobody's last word was not to be ready, in particular if nobody took anything back |
| ReadyExceptions.ReadinessTakenBack | games/ready.go:107-148 | from every reachable state in which everybody was found ready and the result is not out, a run returns nil with the actor of the deciding handler not ready |
| ReadyExceptions.ReadinessTakenBackInRun | games/ready.go:68-148 | the witness: a run from the start with one actor that ends so |
| ReadyExceptions.RecordedAfterAbort | games/ready.go:150-191 | in every run, the outcome of sending ReadyAccepted is recorded as an error only if the await was aborted, at a moment at which updates were accepted |
| ReadyExceptions.AbortRecordsErrorExactly | games/ready.go:150-191 | in every reachable state after an abort: an error for a message that was sent is recorded, or can still be, if and only if updates are accepted, no update underway ends this, and some handler is left to do it |
| ReadyExceptions.AbortRecordsError | games/ready.go:188-191 | after an abort, the next handler that sends ReadyAccepted records an error although its message was sent |
| ReadyExceptions.AbortRecordsErrorInRun | games/ready.go:68-191 | the witness: a run from the start with one actor that ends so |
| StateBroadcast.FixtureStateBroadcaster.HandleFixtureStateUpdated | lighting/state_broadcast.go:90-102 | a request is made exactly when the broadcaster runs and none is there; then it is there |
| StateBroadcast.FixtureStateBroadcaster.ResetPublishing | lighting/state_broadcast.go:79-81 | after the reset the next notification makes a request again |
| StateBroadcast.StepKeepsTokens | lighting/state_broadcast.go:76-107 | every step keeps the accounting of requests, notifications and publications |
| StateBroadcast.StepKeepsInv | lighting/state_broadcast.go:49-107 | every step also keeps what the reading of the fixtures, the snapshot and the last publication may show |
| StateBroadcast.OneRequestToken | lighting/state_broadcast.go:76-107 | isPublishing holds exactly while one request token exists, never two |
| StateBroadcast.NoLostUpdates | lighting/state_broadcast.go:49-107 | whenever the loop is idle with no notifier waiting, the last publication shows every notified change, and exactly the current state if none is unnotified |
| StateBroadcast.EveryNotificationIsServed | lighting/state_broadcast.go:49-107 | what a fixture was at any notification, every later idle moment finds published, or something newer |
| StateBroadcast.PublicationsAreCoalesced | lighting/state_broadcast.go:49-107 | never more publications than notifications |
| StateBroadcast.CanCatchUp | lighting/state_broadcast.go:49-107 | from every reachable state of a running broadcaster its loop can become idle on its own, and if a request was there it has then published every fixture as it is |
| Fixtures.Fixture.SetEnabled | lighting/fixture_basic.go:123-130 | sets the state; disabling ends the locating mode |
| Fixtures.Fixture.ToggleEnabled | lighting/fixture_basic.go:132-139 | inverts the state; disabling ends the locating mode |
| Fixtures.FixtureStore.GetFixtures | stores/lighting.go:29-50 | fails exactly if the call does; otherwise gives the rows that were scanned, all of them unless the scan is cut |
| Fixtures.FixtureStore.CreateFixture | stores/lighting.go:54-72 | refused exactly if the call fails or the device and provider id are there; otherwise a row with a new id and no other change |
| Fixtures.FixtureStore.SetFixtureName | stores/lighting.go:92-107 | succeeds exactly for a stored id when the call does not fail; then the row gets the name and nothing else changes |
| Fixtures.FixtureStore.DeleteFixture | stores/lighting.go:75-89 | succeeds exactly for a stored id when the call does not fail; then the row disappears and nothing else changes |
| Fixtures.StoredManager.LoadKnownFixtures | lighting/manager.go:114-134 | fails exactly if the call of the store does, and then changes nothing; otherwise every scanned row, all of them unless the scan is cut, is shown by a new fixture and all others are kept; a cache that equals the store still does, and that of a new manager does if and only if no row was missed |
| Fixtures.StoredManager.FindFixture | lighting/manager.go:187-206 | in every map order: a cached fixture of the device and provider id, or there is none |
| Fixtures.StoredManager.AddOffered | lighting/manager.go:185-226 | one offer: for a stored provider id the cached fixture if its type fits and an error if not, without asking the store; for any other a new row and a new fixture with one call, and an error exactly if that call fails |
| Fixtures.StoredManager.CreateAndCache | lighting/manager.go:208-225 | one call of the store; exactly if it does not fail, there is a new row and the fixture that shows it, otherwise no change at all |
| Fixtures.StoredManager.AddFixturesFromProviderMessage | lighting/manager.go:178-228 | succeeds if and only if no call of the store failed and no offer has another type than is known for it when its turn comes; cache and store stay equal whatever fails, known rows and fixtures are kept, and the store is asked once per created row and by the call that fails; on success the results stand for the offers position by position, and offers that are all stored change nothing |
| Fixtures.SucceedsExactly | lighting/manager.go:185-226 | the loop ends without an error if and only if no call failed and no offer clashes; a clash at its end is that of the offer whose turn it was |
| Fixtures.StoredManager.OfferTwice | lighting/manager.go:178-228 | a success creates exactly one row per distinct unseen provider id and one fixture for repeated offers; the same offers again create nothing and give the same fixtures if and only if all types are supported |
| Fixtures.RepeatedOffersShareFixture | lighting/manager.go:185-226 | offers with one provider id get one fixture |
| Fixtures.SecondRunIsIdle | lighting/manager.go:187-206 | after a success, the same offers change neither cache nor store; they succeed if and only if all types are supported, with the same list |
| Fixtures.OneRowPerUnseenProvider | lighting/manager.go:208-226 | the created rows are one for each distinct provider id that was not stored, and no other |
| Fixtures.StoredManager.SetFixtureName | lighting/manager.go:249-266 | an unknown id does not reach the store; otherwise, exactly if the call does not fail, renamed in store and cache, else in neither; no enabled state changes |
| Fixtures.StoredManager.DeleteFixture | lighting/manager.go:294-305 | exactly for a known id when the call does not fail, deleted from store and cache, else from neither |
| Fixtures.StoredManager.ToggleFixtureEnabledByID | lighting/manager.go:75-89 | exactly the named fixture is inverted, and stops locating when disabled, also when applying fails; it succeeds exactly for a known fixture that could be applied |
| Fixtures.StoredManager.Serve | lighting/manager.go:75-305 | every run of loads, offers, renames, deletes and toggles, including failing store calls, keeps cache and store equal on id, device, provider id and name, with device and provider id unique |
| Fixtures.StoredManager.AgreeingCacheIsUnique | lighting/manager.go:187-206 | in a cache that equals its store no two fixtures have the same device and provider id |
| LightSwitches.LightSwitchHiLo.ToggleAssigned | lightswitch/light_switch_hi_lo.go:64-76 | whatever order the goroutines run in, each known fixture changes by the parity of its assignments |
| LightSwitches.LightSwitchHiLo.HandleMessage | lightswitch/light_switch_hi_lo.go:57-80 | toggles on a rising edge and only then, and remembers the level |
| LightSwitches.LightSwitchHiLo.SetAssignments | lightswitch/lightswitch.go:149-157 | the assignments are replaced |
| LightSwitches.LightSwitchHiLo.Run | lightswitch/light_switch_hi_lo.go:42-80 | after any messages and reassignments each known fixture is in its first state XOR the parity of its toggles; without duplicates, of the rising edges at which it was assigned |
| LightSwitches.TogglesAreRisingEdges | lightswitch/light_switch_hi_lo.go:57-80 | without duplicates in the assignments the number of toggles is the number of rising edges at which the fixture was assigned |
| SwitchRegistry.Manager.Accept | lightswitch/manager.go:113-126 | registers up to the first clash, and succeeds when there is none |
| SwitchRegistry.Manager.CleanUp | lightswitch/manager.go:146-155 | removes exactly the switches of the provider |
| SwitchRegistry.RegistersUpToClash | lightswitch/manager.go:116-126 | a call succeeds if and only if its switches are distinct and none is registered; it adds exactly those before the first clash and overwrites nothing |
| SwitchRegistry.RunsKeepInv | lightswitch/manager.go:113-158 | in every interleaving of accepts and clean-ups the entries of each live provider are exactly its switches |
| SwitchRegistry.LiveProvidersAreDisjoint | lightswitch/manager.go:113-158 | accepted live providers own disjoint sets of switches and are registered with exactly these |
| SwitchRegistry.OnlyItsOwnerRemoves | lightswitch/manager.go:113-158 | a registration is never overwritten, and disappears exactly with the clean-up of its owner |
| SwitchRegistry.CleanUpKeepsInv | lightswitch/manager.go:146-155 | a clean-up removes exactly the entries that its provider owns |
| SwitchRegistry.StaleEntriesStay | lightswitch/manager.go:116-126 | what a rejected call has registered stays in every continuation, and no later call with such a switch is accepted |
| SwitchRegistry.StaleEntryInRun | lightswitch/manager.go:113-126 | a run of two accept calls after which such an entry is there |
| SwitchRegistry.RejectionLeavesNothing | lightswitch/manager.go:116-126 | a rejected call leaves nothing behind if and only if its first switch was registered |
| SwitchRegistry.AllEndedLeavesRejected | lightswitch/manager.go:113-158 | when all accepted providers have ended, only entries of rejected calls remain |
| Players.PlayerManagement.AddPlayer | games/player_management.go:71-86 | joins exactly an inactive user and publishes it; the updates still rebuild the active players |
| Players.PlayerManagement.RemovePlayer | games/player_management.go:90-106 | removes exactly an active user and publishes the leave with the team of the join; the updates still rebuild the active players |
| Players.PlayerManagement.PlayersInTeam | games/player_management.go:109-122 | in every map order each player of the team once and nobody else |
| Players.PlayerManagement.ActivePlayers | games/player_management.go:125-134 | in every map order each active player once |
| Players.ReplaysExactlyAlternating | games/player_management.go:71-106 | a log rebuilds a player map if and only if for every user joins and leaves alternate from a join and each leave names the team of its join; the active users are those whose last update is a join, in its team |
| Players.TeamsPartition | games/player_management.go:109-134 | the team lists together are all active players, and no player is in two of them |
| ShellyTopics.SplitJoins | mqttbridge/detection.go:19 | splitting loses nothing and leaves no separator inside a part |
| ShellyTopics.CommandsReachDetectedDevice | mqttbridge/detection.go:18-29 | for every detected topic: the device can be created if and only if the id part does not hold the mark again, and then the printed command topic is the detected id followed by /relay/0/command |
| ShellyTopics.IsDetected | mqttbridge/detection.go:21-27 | relay and input topics are detected for every id |
| ShellyTopics.DetectedExactly | mqttbridge/detection.go:21-27 | exactly the relay and input topics of some id are detected |
| ShellyTopics.CommandsGoBelowRelay | mqttbridge/shellies_shelly1.go:222-234 | commands go below the relay topic of their device, whatever the id |
| ShellyTopics.IDComesBack | mqttbridge/shellies_shelly1.go:73-94 | an id is recovered from its relay or input topic if and only if it holds neither a slash nor the mark; otherwise it is refused or cut at its first slash |
| ShellyTopics.NetShelly.SetRelayState | mqttbridge/shellies_shelly1.go:222-234 | the state is kept, and published as on or off to the command topic of the device |

## Left out

- Websocket, HTTP, MQTT client, pumps, JSON, SQL and logging. The store is abstract: fresh ids, unique device and provider id; which calls fail, without effect, and which scans are cut is given.
- Progress and deadlock freedom, including waiting readers behind a waiting writer. All results are about reachable states.
- The broadcaster after its context is cancelled, where its loop never returns. The set of fixtures is fixed during a run of the broadcaster; a notification before it runs is dropped and not counted.
- Unsubscribing with a subscription of another manager or with an edited token; the subscription protocol follows one manager.
- Concurrent AddRequest calls, whose check and append are separate sections; requests are added one after the other.
- Role checks on winners and the orders sent to the jury: the code neither checks roles nor sends the orders it has built.
- Casting.Casting.PerformAndHire: nobody else hires or fires while the casting works, apart from pending watchers; the rounds say which connections are lost, at any time during the round. When the given rounds are used up, the context is cancelled. The branch for an error of firing all is left out, because that function never returns one.
- Acting.NetActor.Fire: the subscriptions of an actor are a value, the contents of its current manager; what callers still do with the subscriptions of a replaced manager is not followed. A nil dereference is a result, not the end of the process.
- Casting.Casting.AddRequest: the error codes and kinds of the refusals are one refusal.
- The newsletters of casting and of the ready handlers: a closed newsletter is one of the replies, their subscriptions are those of the subscription modules.
- Awaiter and FixtureStateBroadcaster hold the sections under their mutexes; what happens between the sections is in the step functions.
- StateBroadcast.NoLostUpdates: the states of a fixture are counted as versions instead of being listed field by field, and the manager reads the fixtures one by one without being locked against changes of their fields.
- Last-seen times, the actor behind a fixture, the brightness of dimmers, features, and the random part of new names, which is replaced by a constant name.
- Fixtures.Fixture: device and provider id are set once at creation, as the code does before anybody else sees the fixture.
- Deleting a device, which also deletes its fixture rows.
- LightSwitches.LightSwitchHiLo.Run: the store keeps assignments free of duplicates, the model allows any; the set of fixtures does not change and nobody else toggles them during the run.
- Creating light switches from offers in the store, which happens before registration; the model starts with the ids of the created switches.
- The player join office, which only calls the player management with its own team and answers refusals.
- The remaining messages of a Shelly 1: offers, actor ids, input states, and the comparison of fixture states, whose flag is never set.
- The typed newsletter wrappers, gatekeeping, device management, configuration, error wrapping and team deathmatch: plumbing or unfinished.
