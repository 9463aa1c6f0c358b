# Verified model of the HTTP/2-to-UDP logic gateway

This project models the stateful cores of the gateway in Dafny 4.11 and proves what they
guarantee over every run, every interleaving or every input. `dafny verify dfyconfig.toml`
checks all of it.

## What is modelled

**Transaction correlation** (`Pending`, `Manager`, `Protocol`, `Correlation`, `Sources`, `Envelopes`,
`Necessity`, `Acquisition`, `Races`). `Pending.dfy` and `Manager.dfy` are the two objects of
`internal/transaction/manager.go` with their fields, one method per critical section, and
`finish`, `Cancel` and `Close` as they run undisturbed. `Protocol.dfy` interleaves the same
critical sections and channel operations for any number of threads. A thread keeps a looked-up
waiter across its release, and waiters are recycled through the pool, as in the code. `Create`
holds the manager's mutex over four steps, because `acquirePending` writes a waiter without the
waiter's own lock: whoever still holds it may deliver in between. Correlation does not hold for
every such run. Three guards make up `Protocol.Clean`:

- a `Create` takes no object from the pool that a thread still holds;
- a `Create` takes no id that some thread is still committed to removing;
- a waiter is not released while a second `Wait` stands between its lookup and its claim.

`Correlation` proves the guarantees of clean runs. `Necessity.CleanExactlyWhenSafe` proves that
the guards are exact: in every state that a clean run reaches, a step is clean if and only if no
clean continuation makes a waiter go wrong. A waiter goes wrong when a `Wait` has a foreign
outcome, is blocked with nobody left to wake it, sits on an empty slot that refuses every
delivery, is cut off from every reply still to come, or waits on a released object, and when a
delivery is held up by a full slot. `Races` gives concrete reachable runs for each kind of unclean
step. `Acquisition.RunIsSerial` shows that in clean runs the four steps of a `Create` can be taken
for one. `Sources` says where every outcome that a `Wait` receives comes from, and which one it
receives. Of pooled envelopes `Envelopes.EnvelopeAccounted` says, for every run, clean or not, where
each of them is and which three steps drop one.

**Request over the network** (`Gateway`, `GatewayInvariant`, `EndToEnd`, `Results`, `Serving`,
`Completion`, `Recycling`, `GatewayRace`). The retry loop of `internal/transaction/service.go` runs on
top of the waiter protocol, together with dispatcher workers, `Close`, the echoing Logic nodes and a
network that loses, repeats and reorders datagrams but forges none. `Create` is one event here. The
second and third guard are proved here rather than assumed. The first is a guard of `Issue`, and
`Recycling.IssueExactlyWhenSafe` proves that it is exact for the gateway: after any run whose `Issue`
events met it, a further Create that the manager allows is harmless in every continuation whose
`Issue` events meet it if and only if no thread holds the waiter that this Create recycles.
`GatewayRace` gives a reachable run in which one does. `Results` says what lies behind each result of
a Request, and `Serving` that it can succeed, at the first attempt and after a failed Send.
`Completion` proves that a Request is never stuck: each of its events brings it closer to its
return, no other event takes it back, at most 22 happen in any run, and an event of its own or of
`Close` is always possible.

**Consistent-hash routing** (`Nodes`, `Ring`, `ConsistentHash`, `Router`, `Failover`). The hash is an
arbitrary function, so every theorem holds with collisions. The owner of a key is defined
without any ring, as the first point clockwise among the points of a set of ids; the sorted
ring, the binary search, the cache and the in-place exclusion are proved against it.

**Node lifecycle** (`Heartbeat`, `Registry`, `Lifecycle`, `Freshness`). The registry's map and
its methods, the heartbeat service and the monitor realise a step function over events.
The stored state of a node is a pure classification of its event history, from which the
real-time bounds follow, up to the router.

**UDP send batcher** (`Batcher`, `Answering`, `Submitting`, `SendBatch`). A step machine of submitters, the loop, the
bounded channel, the timer and pooled jobs; and the write, answer and drain loops as methods on
job objects. `Batcher.FlushSettlesBuffer` says of the machine's flush what
`SendBatch.Conn.WritePayloadsBatch` says of the loops. `Answering` says exactly which accepted jobs
can still be answered, and which ones must be; `Submitting` says what `submit` returns, in terms of
the steps of the run alone, and when a new call can still succeed.

**Worker pool and envelopes** (`WorkerPool`, `Intake`, `Shutdown`). `Enqueue`, the workers and `Close` of the Logic
node's pool at lock granularity, with the envelope every job owns; what is accepted and that it runs; and that Close is never stuck.

**Pooled body reader** (`BodyReader`). The growing read loop on arrays, the buffer pool, and the
size check of the HTTP handler.

## Model

| member | source | states |
|---|---|---|
| Pendings.Pending.constructor | internal/transaction/manager.go:40-44 | a new waiter is unresolved, unclaimed, and its channel is empty |
| Pendings.Pending.Acquire | internal/transaction/manager.go:46-57 | whatever a pooled object held, after acquiring it is a cleared waiter for the new id |
| Pendings.Pending.ClaimWait | internal/transaction/manager.go:30-38 | true for the first claimer only; nothing but the claim changes |
| Pendings.Pending.TryDeliver | internal/transaction/manager.go:79-88 | the first outcome fills the slot, every later one is refused and changes nothing |
| Pendings.Pending.Receive | internal/transaction/manager.go:193-205 | takes the delivered outcome out of the slot and leaves the flags |
| Pendings.Pending.Drain | internal/transaction/manager.go:63-66 | empties the slot and leaves the flags |
| Pendings.Pending.Reset | internal/transaction/manager.go:67-71 | clears id and flags but not the slot |
| Managers.AdvanceDistinct | internal/transaction/manager.go:143 | fewer than 2^64 increments never repeat an id, across wrap-around |
| Managers.TakenPrefixIsShort | internal/transaction/manager.go:141-147 | pigeonhole: at most as many increments hit a taken id as there are waiters |
| Managers.Manager.constructor | internal/transaction/manager.go:107-109 | a new manager is open and empty |
| Managers.Manager.AllocateID | internal/transaction/manager.go:141-147 | allocation ends after at most waiters + 1 increments, at the first id that is free |
| Managers.Manager.Create | internal/transaction/manager.go:131-162 | every outcome: closed, duplicate id, explicit id, issued id; failures change nothing, success registers a cleared waiter under a free id |
| Managers.Manager.Lookup | internal/transaction/manager.go:288-297 | closed wins over unknown; otherwise the registered waiter |
| Managers.Manager.Remove | internal/transaction/manager.go:304-308 | deletes this id and nothing else |
| Managers.Manager.CloseLocked | internal/transaction/manager.go:261-272 | the winning Close empties the table and snapshots exactly its waiters; a second Close does nothing |
| Managers.Manager.Finish | internal/transaction/manager.go:284-302 | only the waiter of this id changes, only the first outcome gets through, and the error tells which case it was |
| Managers.Manager.Cancel | internal/transaction/manager.go:250-254 | the id is gone afterwards on every path, and an unresolved waiter holds Canceled |
| Managers.Manager.Close | internal/transaction/manager.go:257-282 | every waiter has its earlier outcome or ErrManagerClosed, the table is empty, a second call changes nothing |
| Protocol.StepInv | internal/transaction/manager.go:131-312 | every clean step, in any interleaving, keeps the invariant of table, waiters and threads |
| Acquisition.CreateIsItsParts | internal/transaction/manager.go:131-162 | the four steps of a Create, with nobody between them, register a cleared waiter under the new id |
| Acquisition.NextStepSwaps | internal/transaction/manager.go:46-57 | while a Create is under way nobody else's step touches its waiter: that step and the Create's next one can be taken in either order, to the same end |
| Acquisition.RunIsSerial | internal/transaction/manager.go:131-162 | whatever a clean run interleaves with its Creates, a clean run in which every Create takes its steps in a row leads to the same end |
| Correlation.SendNeverBlocks | internal/transaction/manager.go:79-88 | in every clean run the channel send of a delivery, by finish or by Close, finds the slot free or the waiter done |
| Correlation.WaitGetsOwnFirstDelivery | internal/transaction/manager.go:165-210 | what Wait(id) returns is the one and only outcome delivered to its waiter, by a call for the same id, and no other thread owns that waiter |
| Correlation.AtMostOneDelivery | internal/transaction/manager.go:79-88 | a waiter in use has had at most one delivery, and is done exactly when it has had one |
| Correlation.CloserReaches | internal/transaction/manager.go:278-281 | a running Close reaches every waiter it snapshotted, by its own steps alone, and leaves it its own outcome or ErrManagerClosed |
| Correlation.CancelledWaitReturns | internal/transaction/manager.go:198-208 | a Wait at its second receive has a full slot already or gets one by Close's own steps, so it never blocks for ever; the slot holds the outcome delivered before, or ErrManagerClosed |
| Correlation.CancelledWaitKeepsProgress | internal/transaction/manager.go:198-208 | no step of anybody else empties that slot or lengthens Close's remaining list |
| Sources.OutcomeHasSource | internal/transaction/manager.go:165-302 | in every clean run what Wait(id) returns was brought by a Complete, Fail or Cancel of this id, by the end of the context of a Wait on this id, or by Close |
| Sources.ContextEndsWait | internal/transaction/manager.go:193-208 | a Wait whose context ends returns the outcome delivered before, or ErrManagerClosed once Close has begun, or else its context's error |
| Sources.DeliveredWaitReturns | internal/transaction/manager.go:193-196 | a Wait whose waiter has been reached returns that one outcome at its next step |
| Sources.CallAlone | internal/transaction/manager.go:213-312 | Complete, Fail and Cancel, undisturbed: only the first outcome gets through, to the waiter of this id; an envelope that finds no open waiter goes back to the pool; Cancel frees the id |
| Correlation.ReleasedAtMostOnce | internal/dispatch/dispatch.go:209-250 | in every run a response envelope is put back at most once, has one holder, and while held has not been put back |
| Sources.CloseAlone | internal/transaction/manager.go:257-282 | Close, undisturbed: the table is closed and empty, every waiter it held has its earlier outcome or ErrManagerClosed, no other waiter changes |
| Envelopes.EnvelopeAccounted | internal/dispatch/dispatch.go:209-250 | in every run a decoded envelope is with a thread, in a slot, or put back exactly once, if and only if none of three steps has dropped it: an ERROR that finds its waiter, and the drains of Create and Wait |
| Envelopes.CleanDrops | internal/transaction/manager.go:46-73 | in clean runs the drain of Wait drops nothing |
| Races.DuplicateIsDropped | internal/transaction/manager.go:46-57 | a clean run in which Create's drain does drop one: a duplicate reply delivered to the waiter while it was in the pool |
| Necessity.OrphanedForever | internal/transaction/manager.go:198-208 | a Wait whose waiter nobody can reach any more stays blocked whatever happens |
| Necessity.StaleRemoverCutsOff | internal/transaction/manager.go:304-312 | an old remover deletes the entry of a re-created id, and no Complete, Fail, Cancel or Close finds the new Wait any more |
| Necessity.StaleRemoverOrphans | internal/transaction/manager.go:304-312 | if nobody else holds the object, that Wait, once cancelled, is orphaned |
| Necessity.StaleHolderDeafens | internal/transaction/manager.go:46-57 | a holder of the recycled waiter, whatever its id, delivers between the reset of `done` and the drain, and the new Wait is left on an empty slot that refuses every delivery; or the slot is still full and its send is held up |
| Necessity.DeafForever | internal/transaction/manager.go:79-88 | such a Wait stays so whatever anybody does, even after its own context has ended |
| Necessity.StaleHolderMisdelivers | internal/transaction/manager.go:284-302 | a holder for another id that delivers after the Create hands its outcome to the new id |
| Necessity.SecondWaitClaimsReleased | internal/transaction/manager.go:59-73 | the reset lets a second Wait claim a waiter that is back in the pool |
| Necessity.WaitOnReleasedMisdelivers | internal/transaction/manager.go:59-73 | from there the next Create on that object hands the first Wait a foreign reply |
| Necessity.CleanExactlyWhenSafe | internal/transaction/manager.go:46-73 | in every state that a clean run reaches, a step is clean if and only if no clean continuation makes a waiter go wrong |
| Races.DuplicateReplyHeldAcrossRelease | internal/transaction/manager.go:284-302 | a state, reached with issued ids, in which a duplicate reply still holds a released waiter |
| Races.RecycledWaiterGetsForeignReply | internal/transaction/manager.go:46-57 | a run with issued ids in which id 2 receives the reply to id 1 |
| Races.RecreatedIDGoesDeaf | internal/transaction/manager.go:46-57 | a run in which id 1 is answered twice, released and created again on the same object, and the duplicate answer leaves the new Wait deaf |
| Races.RecreatedIDIsOrphaned | internal/transaction/manager.go:250-254 | a run in which an explicit id is created, awaited, cancelled and created again; the old Wait then deletes the new entry, and the new Wait blocks for ever |
| Races.SecondWaitOwnsReleasedObject | internal/transaction/manager.go:184-196 | a run in which the second of two Waits on one id waits on a released object |
| Gateway.AppendUnique | internal/transaction/service.go:219-226 | the list is extended by at most the new id, contains exactly its old members and that id, and stays free of duplicates |
| GatewayInvariant.EventInv | internal/transaction/service.go:75-197 | every event of requests, dispatcher, network, Logic nodes and Close keeps the system invariant; `Results.EventResultsOk` adds errors and results |
| GatewayInvariant.ReleaseHasNoClaimant | internal/transaction/manager.go:184-196 | with issued ids no second Wait is about to claim the waiter that a request releases |
| GatewayInvariant.FreshIDHasNoRemover | internal/transaction/manager.go:141-147 | no thread is committed to removing a newly issued id |
| EndToEnd.SuccessEchoesRequest | internal/logicnode/run.go:442-468 | a successful Request returns a response with its current id and its own message id and payload, and the message id is 1001, 1002 or 1003 |
| EndToEnd.SuccessEchoesCall | internal/transaction/service.go:75-192 | and these are the message id and the payload that Request was called with |
| EndToEnd.LateAnswerNeverResolvesRetry | internal/transaction/service.go:97-192 | what a second attempt returns carries the second id, which differs from the first |
| EndToEnd.IDsNeverShared | internal/transaction/manager.go:141-153 | no two requests are ever issued the same id |
| EndToEnd.RequestLeavesNothing | internal/transaction/service.go:97-197 | a finished Request has no id left in the table; it sent at most twice, the second time only after a failed Send, under a new id, to another node (which `Failover.Route` makes sure of) |
| EndToEnd.NeverWaitInProgress | internal/transaction/manager.go:189-191 | the claim in a Request's Wait always succeeds |
| Recycling.HolderIsOlder | internal/transaction/manager.go:284-298 | whoever still holds a waiter that may be recycled stands between the lookup and the delivery of finish, for an id issued earlier |
| Recycling.IssueSafeInProtocol | internal/transaction/manager.go:46-57 | in the waiter protocol the Create of a Request is safe if and only if nobody holds the object |
| Recycling.HeldObjectMisleadsRequest | internal/transaction/manager.go:284-302 | if somebody does, a run of the gateway's own events ends with the new Request about to return a foreign outcome |
| Recycling.IssueExactlyWhenSafe | internal/transaction/manager.go:46-73 | after any run whose Creates recycled no held waiter, a further Create that the manager allows is harmless in every continuation of the same kind if and only if no thread holds the waiter it recycles |
| GatewayRace.HeldWhileReleased | internal/transaction/manager.go:284-302 | a run of requests, network, Logic node and two dispatcher workers, with issued ids, after which a duplicate answer holds a waiter that is back in the pool while another Request is about to create |
| GatewayRace.GatewayReturnsForeignAnswer | internal/transaction/manager.go:46-57 | if that Request takes the waiter, a run of the gateway leaves it about to return the duplicate of the other one's answer |
| Results.ResultIsExplained | internal/transaction/service.go:97-197 | what lies behind each result: for a success or an error of Wait one Send that went through, under the current id, after failed ones only; for SendFailed and RouteFailed failed Sends only; for a table error a closed manager; for a context that ended at once nothing sent; a Logic node's error is on the wire under the current id |
| Results.GivesUpOnlyAfterAllAttempts | internal/transaction/service.go:97-163 | unless its context ends between two attempts, a Request returns SendFailed only after two failed Sends |
| Results.ReturnsWhatWaitReceived | internal/transaction/service.go:177-192 | Request returns the envelope or the error that its Wait received |
| Results.AnswerCarriesID | internal/logicnode/run.go:357-468 | a Logic node answers a request with one datagram under the request's own id: OVERLOAD when its queue is full, the echo for 1001, 1002 and 1003, INVALID_MESSAGE for every other message |
| Results.EventResultsOk | internal/transaction/service.go:75-197 | every event also keeps: ERRORs on the wire answer requests with the same id, an error that is delivered is on the wire under the same id, an awaited id stays registered until Close, and each stage fits the Sends so far |
| Results.ErrorAnswersRequest | internal/logicnode/run.go:367-385 | every ERROR on the wire answers a request on the wire with the same id, INVALID_MESSAGE only one for a message other than 1001, 1002 and 1003 |
| Results.LogicErrorIsOwn | internal/protocol/envelope.go:14-46 | an error of a Logic node that a Request returns was sent for its current id; INVALID_MESSAGE only for a message other than 1001, 1002 and 1003 |
| Serving.AttemptCanSucceed | internal/transaction/service.go:97-192 | from every reachable state with an open manager and an id left, a Request at the head of its loop can go on to Success in that attempt |
| Serving.FailedSendGoesOn | internal/transaction/service.go:147-163 | after a failed Send its own steps lead to a second attempt the first time, and to SendFailed the second time |
| Serving.RetryCanSucceed | internal/transaction/service.go:97-192 | a Request whose first Send fails can still succeed, with its second id |
| Serving.SecondAttemptSucceeds | internal/transaction/service.go:97-192 | a run from the initial system in which that happens |
| Completion.OwnEventAdvances | internal/transaction/service.go:97-192 | unless it waits for a delivery that Close owes it, an unfinished Request always has a step of its own that brings it closer to its return |
| Completion.EveryOwnEventLowers | internal/transaction/service.go:97-197 | every event of a Request, whichever way its branches go, lowers its rank |
| Completion.OthersKeepRank | internal/transaction/service.go:97-197 | no event of anybody else changes it |
| Completion.OwedNeverGrows | internal/transaction/manager.go:262-281 | once the table is closed it stays closed, and what Close still owes never grows |
| Completion.RequestIsBounded | internal/transaction/service.go:97-197 | in every run a Request takes at most as many events as its rank |
| Completion.EventsPerRequest | internal/transaction/service.go:97-197 | which makes at most 22 from its start to its return |
| Completion.RequestCanFinish | internal/transaction/service.go:97-197 | from every reachable state a Request whose context has ended gets to its return by its own steps and those of a Close under way |
| Ring.DecimalInjective | internal/router/consistent_hash.go:91 | the decimal text of a number determines it |
| Ring.LabelInjective | internal/router/consistent_hash.go:91-94 | no two virtual nodes are hashed from the same label |
| Ring.DecimalReads | internal/router/consistent_hash.go:91 | decimal text reads as the number it was written from and has no leading zero |
| Ring.LabelReads | internal/router/consistent_hash.go:91-94 | a label is node id and virtual index in decimal with `#` between them |
| Ring.FirstIs | internal/router/consistent_hash.go:59-64 | the first point clockwise has the lowest hash from the key on, or the lowest of all; ties go to the smallest id |
| Ring.FirstExists | internal/router/consistent_hash.go:59-64 | a non-empty set of points has a first point clockwise from any hash, ties included |
| Ring.FirstUnique | internal/router/consistent_hash.go:59-64 | and only one |
| Ring.OwnerIsCandidate | internal/router/consistent_hash.go:59-64 | the owner of a key is one of the given ids |
| Ring.OwnerStable | internal/router/consistent_hash.go:88-106 | dropping any nodes that do not own a key leaves its owner alone |
| Ring.AddingMovesOnlyToNew | internal/router/consistent_hash.go:88-106 | adding a node moves a key to that node or not at all |
| Ring.RemovingMovesExactlyOwned | internal/router/consistent_hash.go:88-106 | removing a node changes the owner of exactly the keys it owned |
| Ring.WalkIsClockwise | internal/router/consistent_hash.go:59-63 | walking on from the search result meets the points in clockwise order, across the wrap |
| Ring.SearchFindsFirst | internal/router/consistent_hash.go:59-63 | binary search with wrap-around ends at the first point clockwise from the hash |
| Ring.FirstAllowed | internal/router/router.go:63-73 | the reference walk stops at the first point whose owner is not excluded |
| Ring.FilterEqualsSkip | internal/router/router.go:63-79 | filtering nodes and building a ring gives the owner that skipping excluded owners on the full ring gives |
| ConsistentHashing.ByteAt | internal/router/consistent_hash.go:74-82 | the shifted bytes are the little-endian digits of the id |
| ConsistentHashing.EncodingInjective | internal/router/consistent_hash.go:67-86 | the fingerprinted bytes determine the sequence of ids |
| ConsistentHashing.CollisionIsAHashCollision | internal/router/consistent_hash.go:67-86 | distinct id sequences share a fingerprint only if the hash itself collides on two different byte strings |
| ConsistentHashing.InsertSorted | internal/router/consistent_hash.go:99-104 | the reference sort keeps the (hash, id) order |
| ConsistentHashing.CacheExactlyWhenNoCollision | internal/router/consistent_hash.go:50-56 | the ring in use always has the current candidates' ids if and only if no two consecutive calls collide |
| ConsistentHashing.CacheRefinesFreshRing | internal/router/consistent_hash.go:39-65 | over any sequence of calls without such a collision the cached ring picks the id a fresh ring would pick |
| ConsistentHashing.CollisionServesStaleOwner | internal/router/consistent_hash.go:52-55 | with a collision a call can be answered with a node that is no candidate |
| ConsistentHashing.SearchGivesOwner | internal/router/consistent_hash.go:59-64 | on any ring of the nodes the search ends at the key's owner |
| ConsistentHashing.ConsistentHash.constructor | internal/router/consistent_hash.go:31-36 | no ring yet; 64 virtual nodes unless a positive number is given |
| ConsistentHashing.ConsistentHash.NodesFingerprint | internal/router/consistent_hash.go:67-86 | the byte loop hashes the encoding of the id sequence |
| ConsistentHashing.ConsistentHash.WriteID | internal/router/consistent_hash.go:74-82 | the reused buffer holds the eight little-endian bytes of the id |
| ConsistentHashing.ConsistentHash.SortRing | internal/router/consistent_hash.go:99-104 | a sorted permutation |
| ConsistentHashing.ConsistentHash.BuildRing | internal/router/consistent_hash.go:88-106 | sorted, with exactly the points of the given nodes, each held by one of them |
| ConsistentHashing.ConsistentHash.Search | internal/router/consistent_hash.go:60 | the first position whose hash is not below the key's |
| ConsistentHashing.ConsistentHash.Select | internal/router/consistent_hash.go:39-65 | error cases; otherwise the owner of the key among the ids the ring in use was built from, which are the given ones unless the fingerprint matched |
| Routing.Router.SupportsMessage | internal/router/router.go:133-142 | true exactly when some service lists the message type |
| Routing.Router.Eligible | internal/router/router.go:114-131 | exactly the ACTIVE Logic nodes that serve the message, in order |
| Routing.Router.CompactExcluded | internal/router/router.go:64-73 | the front of the same array holds exactly the nodes not excluded, in order |
| Routing.Router.SortByID | internal/router/router.go:77 | a permutation sorted by id |
| Routing.Router.Candidates | internal/router/router.go:56-77 | the sorted list has exactly the eligible, not excluded nodes |
| Routing.Router.RouteExcluding | internal/router/router.go:38-80 | every error case in order; otherwise a node of the ring in use, the one that owns the routing key among that ring's ids, which are the allowed ids unless fingerprints collided |
| Routing.MessageIDExactly | internal/router/router.go:82-99 | a message id is found exactly in a DATA_REQUEST or DATA_RESPONSE with the body of its kind |
| Routing.KeyIs | internal/router/router.go:102-112 | the key is the session id if there is one, otherwise the transaction id in decimal |
| Routing.KeySticksToSession | internal/router/router.go:102-112 | requests of one session share a key whatever their transaction ids; otherwise the key tells transaction ids apart; it is missing only when neither is set |
| Routing.SortedIDsCanonical | internal/router/router.go:77 | the sorted candidates, and so their fingerprint, do not depend on the order the registry listed them in |
| Routing.CandidatesAre | internal/router/router.go:63-77 | filter, exclusion and sort together keep exactly the allowed nodes |
| Routing.RoutingSkipsExcluded | internal/router/router.go:56-79 | routing with exclusions picks the first point clockwise, on the ring of all eligible nodes, whose owner is not excluded |
| Routing.ExcludedAgainExactly | internal/router/consistent_hash.go:52-55 | a node that was picked and is then excluded is picked again if and only if the candidates left have the fingerprint of those it was picked from and the ring in use gives it the new key too |
| Routing.ExcludedNodePickedAgain | internal/router/consistent_hash.go:52-55 | and it can be: of two nodes the one that was picked and then excluded is picked again, though the other is left |
| Failover.AllowedIsGoodChoice | internal/router/router.go:56-79 | an allowed id is registered, serves the message, is not excluded, had an accepted heartbeat lately, and meets the guard under which a Request may be routed to it |
| Failover.Route | internal/transaction/service.go:199-206 | a Request with a key gets a node if and only if an eligible one is left; while the ring in use has the candidates' ids it is such a good choice |
| Failover.RouteTwice | internal/transaction/service.go:97-148 | of the two routings of a Request the second, under a new id and without the first one's node, gives an allowed node whenever the fingerprints of the two candidate lists differ; when they collide a Request with a session gets the excluded node again |
| Registry.Memory.Register | internal/registry/registry.go:42-56 | rejects a missing node and id 0; otherwise stores type, address, port, services, load and count as given, as REGISTERED with the current time, and changes nothing else |
| Registry.Memory.Get | internal/registry/registry.go:59-67 | the stored node, if there is one |
| Registry.Memory.Remove | internal/registry/registry.go:70-78 | removes exactly this id, or reports that it is unknown |
| Registry.Memory.List | internal/registry/registry.go:81-89 | every node exactly once |
| Registry.Memory.ApplyHeartbeat | internal/registry/registry.go:92-113 | accepted: state and time of this node change; rejected, unknown or id 0: nothing changes; the stored node is returned along with a rejection, too |
| Registry.Memory.ApplyTimeoutsExcept | internal/registry/registry.go:124-144 | the sweep applies the transition to every node it does not skip, and reports exactly the nodes whose state it changed, each once |
| Registry.Memory.SetRuntime | internal/registry/registry.go:146-159 | only load and transaction count of this node change |
| Lifecycle.DescriptionIsKept | internal/registry/registry.go:42-56 | whatever follows its registration, a node stays known with the type, address, port and services it registered with |
| Heartbeats.HeartbeatExactly | internal/heartbeat/state.go:10-22 | a heartbeat makes a node ACTIVE from every state but UNSPECIFIED, STOPPING and DEAD, and is refused as dead for DEAD alone |
| Heartbeats.TimeoutExactly | internal/heartbeat/state.go:24-36 | the two thresholds of silence, and `changed` exactly when the state changes |
| Lifecycle.CheckOne | internal/heartbeat/state.go:25-36 | what one Check does to one node, the gateway's own entry excepted |
| Lifecycle.StateIsClassification | internal/heartbeat/state.go:12-36 | after any run the stored state is the classification of (registered or heartbeated, when, latest Check since) |
| Lifecycle.DeadExactlyWhenFoundSilent | internal/heartbeat/state.go:25-36 | a registered node is DEAD if and only if some Check since came DeadTimeout or more after everything heard from it until then |
| Lifecycle.HeartbeatAcceptedExactly | internal/heartbeat/state.go:10-22 | a heartbeat is accepted exactly for a known node that is not DEAD; a rejected one changes nothing, and that of a known node is rejected as dead |
| Lifecycle.DeadPersists | internal/heartbeat/state.go:10-22 | DEAD lasts until Register or Remove |
| Lifecycle.TwoChecksAreOne | internal/heartbeat/monitor.go:35-48 | a later Check makes an earlier one immaterial |
| Lifecycle.ChecksCollapse | internal/heartbeat/monitor.go:50-67 | any number of Checks with nothing between them equals the last one |
| Lifecycle.ActiveMeansRecentHeartbeat | internal/heartbeat/monitor.go:35-67 | with Checks at most Interval apart an ACTIVE node had a heartbeat less than SuspectTimeout + Interval ago that was accepted when it came |
| Lifecycle.SilentNodeIsDead | internal/heartbeat/monitor.go:35-67 | a node silent for DeadTimeout + Interval is DEAD |
| Lifecycle.Service.Handle | internal/heartbeat/service.go:26-52 | the error cases, and the registry after it is the event's step; the sequence is echoed and the time clamped at 0 |
| Lifecycle.Monitor.Check | internal/heartbeat/monitor.go:35-48 | the registry after it is the event's step, and exactly the changed nodes are reported, each once |
| Freshness.CandidateExactly | internal/router/router.go:114-131 | after any run a node is a candidate for a message if and only if it is ACTIVE and last registered as a Logic node that lists the message |
| Freshness.RegisteredNodeIsCandidate | internal/router/router.go:114-131 | registration and one heartbeat make a Logic node a candidate for exactly the messages it listed |
| Freshness.RoutedNodeIsFresh | internal/router/router.go:114-131 | every id the router may pick had an accepted heartbeat less than SuspectTimeout + Interval ago |
| Freshness.SilentNodeIsNotRouted | internal/router/router.go:114-131 | a node silent for longer is no candidate |
| Batcher.StepInv | internal/transport/udp/sendqueue.go:87-185 | every step of submitters, loop, timer and close keeps the batcher's invariant |
| Batcher.AcceptedAreAnsweredOrPending | internal/transport/udp/sendqueue.go:87-154 | at every point accepted jobs, in order, are answered ones ++ buffer ++ channel; after the loop has exited only the channel is left |
| Batcher.FlushSizeAndWakeUp | internal/transport/udp/sendqueue.go:89-140 | a flush has between 1 and max jobs, the channel at most 4 * max; at the loop head the timer is pending exactly when jobs are buffered |
| Batcher.TimerMoves | internal/transport/udp/sendqueue.go:109-140 | the timer is armed only when a drain has started a buffer, and fires by time alone |
| Batcher.ReplyNeverBlocks | internal/transport/udp/sendbatch_write_linux.go:49-76 | the answer slot is free, and the answered job is not in the pool |
| Batcher.PooledNotPending | internal/transport/udp/sendqueue.go:29-54 | a job object is never in the pool while the batcher has to answer it |
| Batcher.ReleasedAndAnsweredOnce | internal/transport/udp/sendqueue.go:156-185 | a payload is released at most once, exactly once when submit has returned; a nil answer means the socket took the datagram |
| Batcher.AnsweredAtMostOnce | internal/transport/udp/sendqueue.go:171-184 | no submission is answered twice |
| Batcher.FlushSettlesBuffer | internal/transport/udp/sendqueue.go:101-107 | a flush answers every job of the buffer in order, releases each payload once, and leaves the buffer empty |
| Batcher.RepliesRun | internal/transport/udp/sendbatch_write_linux.go:49-65 | the same for the replies from any position on |
| Batcher.StrandedExactlyInChannel | internal/transport/udp/sendqueue.go:109-129 | after the loop has exited a waiting submit can return if and only if its job is not in the channel |
| Batcher.StrandedForever | internal/transport/udp/sendqueue.go:187-192 | and a job left in the channel is never answered |
| Answering.LoopComesToRest | internal/transport/udp/sendqueue.go:109-140 | left to itself the loop comes to rest: at its head with nothing pending, or, once it is leaving, outside with the channel as it was |
| Answering.AnswerableExactly | internal/transport/udp/sendqueue.go:87-154 | in every reachable state a pending job can be answered by the loop and its timer alone if and only if the loop is not leaving or the job waits for the current flush |
| Answering.TakenIsAnsweredByExit | internal/transport/udp/sendqueue.go:126-129 | in every run, once the loop has exited, every submission it had ever taken from the channel has been answered, in order |
| Answering.CloseStrandsAccepted | internal/transport/udp/sendqueue.go:126-129 | a run in which a submission is accepted, Close stops the loop before it receives, and in no continuation does that submission get an answer |
| Answering.StopMayLeaveChannel | internal/transport/udp/sendqueue.go:126-129 | and no more than that: a stopped loop may exit and leave the whole channel behind |
| Submitting.SubmitReturns | internal/transport/udp/sendqueue.go:156-185 | in every run submit returns nil if and only if its job was answered as sent and its context was alive when it read that; its context's error after a sent answer, the write error, ErrTransportClosed and the early context error each if and only if that is what happened |
| Submitting.AnswerIsReturned | internal/transport/udp/sendqueue.go:173-184 | with an answer in its slot submit's last two steps return it and give the emptied job back |
| Submitting.NotAcceptedReturns | internal/transport/udp/sendqueue.go:158-171 | a submit whose job is not accepted can return whenever its context has ended or the batcher is closed, and releases the payload itself |
| Submitting.NilMeansHandedOver | internal/transport/udp/sendbatch_write_linux.go:49-77 | nil is returned only for a datagram that the socket took in this run, in a batch or on its own |
| Submitting.NewSubmitSucceedsExactly | internal/transport/udp/sendqueue.go:156-192 | in every reachable state a call of submit still to come can return nil if and only if the loop has not begun to leave |
| SendBatch.Conn.WriteOneJob | internal/transport/udp/sendbatch_write_linux.go:68-77 | the payload is released once, and the submitter gets nil exactly when the write had no error and was not short |
| SendBatch.Conn.WritePayloadsBatch | internal/transport/udp/sendbatch_write_linux.go:12-66 | on every path, partial and failed batches included, each job is released once and answered once; with nil if and only if a batch of two or more, all IPv4 and without error, took it, or its own write went out |
| SendBatch.SendBatcher.Drain | internal/transport/udp/sendqueue.go:144-154 | buffer ++ channel is unchanged as a sequence; it stops only when full or when nothing waits |
| WorkerPool.StepCloseOk | internal/logicnode/pool.go:71-124 | every step keeps the agreement of closing flag, lock, channel and queue bound |
| WorkerPool.StepJobOk | internal/logicnode/pool.go:52-100 | every step keeps each accepted job in exactly one place, and its envelope released exactly when it has run or been rejected |
| WorkerPool.NeverSendsOnClosed | internal/logicnode/pool.go:77-83 | no job is ever sent on the closed channel |
| WorkerPool.BoundsHold | internal/logicnode/pool.go:40-69 | the queue keeps within its capacity, at most N jobs run at once, and the busy counter counts them |
| WorkerPool.CloseReturnsAfterAllRan | internal/logicnode/pool.go:116-124 | when the Close call that won the flag returns, every accepted job has run exactly once and no more are accepted |
| Intake.DecidedByRoom | internal/logicnode/pool.go:71-100 | a job is refused only by a pool that is closing or full, taken in only where there is room, at the end of the queue, and that decision stands |
| Intake.OpenPoolAccepts | internal/logicnode/pool.go:71-100 | on a pool that nobody is closing an undisturbed Enqueue returns true exactly when there was room, with the job last in the queue |
| Intake.ClosingPoolRefuses | internal/logicnode/pool.go:71-80 | on a closing pool it returns false and leaves the queue alone |
| Intake.AcceptedCanRun | internal/logicnode/pool.go:52-69 | from every reachable state one worker's own steps run an accepted job, exactly once |
| Intake.CloseCallReturns | internal/logicnode/pool.go:116-124 | every Close call can return, as the one that closed the pool if and only if it set the flag, which on an open pool it does |
| Shutdown.CloseCanReturn | internal/logicnode/pool.go:116-124 | from every reachable state inside Close the calls and workers already under way can finish, so Close can always return |
| Shutdown.DriveWorker | internal/logicnode/pool.go:52-69 | on the closed channel one worker's own steps empty the queue and let it leave |
| Shutdown.DriveReader | internal/logicnode/pool.go:77-100 | an Enqueue under the read lock lets go of it by its own steps |
| WorkerPool.EnvelopeReleasedOnce | internal/logicnode/run.go:357-385 | a request's envelope is released at most once, and exactly once when its job has run or OVERLOAD has been answered |
| BodyReader.Pool.Acquire | internal/httpsrv/body_pool.go:18-20 | an empty buffer of positive capacity that shares no memory with any buffer still pooled, and of at least 4096 bytes if all pooled ones are |
| BodyReader.Pool.Release | internal/httpsrv/body_pool.go:22-31 | nothing happens without a buffer, without capacity, or above the limit; otherwise the buffer goes back empty; a pool of buffers of at least 4096 bytes stays one |
| BodyReader.GrowthIsReal | internal/httpsrv/body_pool.go:47-57 | a full buffer below the limit always grows, so the no-growth guard is unreachable; it doubles unless the limit stops it |
| BodyReader.Fill | internal/httpsrv/body_pool.go:43-74 | the loop holds exactly the next bytes of the reader, has copied at most twice that many while growing, and stops at the bound, the end or the first stall |
| BodyReader.ReadBodyPooled | internal/httpsrv/body_pool.go:36-77 | the next bytes of the reader, fewer than min(limit, rest) exactly when the reader stalled before delivering the rest; an error only if the reader fails within the limit |
| BodyReader.ReadRequestBody | internal/httpsrv/server.go:214-225 | for every reader that did not stall: 413 exactly for bodies over maxBody when it does not fail, 400 when it fails within them, otherwise the whole body; after a stall, what came before it |

## Left out

- Documentation: README.md:67 says that a timeout also fails over; `internal/transaction/service.go` retries only after a failed Send, and the model follows the code.
- EndToEnd.SuccessEchoesRequest: for runs that recycle no waiter while a thread holds it; without that it is false (`GatewayRace.GatewayReturnsForeignAnswer`), and `Recycling.IssueExactlyWhenSafe` gives the exact condition.
- EndToEnd.LateAnswerNeverResolvesRetry: under the same condition.
- EndToEnd.RequestLeavesNothing: that the second node differs rests on the guard of `Routed`, which `Failover.Route` meets while the ring in use has the candidates' ids; after a fingerprint collision the excluded node can be chosen again (`Failover.RouteTwice`, `Routing.ExcludedNodePickedAgain`).
- GatewayInvariant.EventInv: `Issue` recycles no held waiter and stays below the 64-bit wrap-around; a request that brings its own id on the first attempt is not modelled, as the HTTP handler sends none. The dispatcher's bounded queue is not kept apart from the network: a full queue drops the datagram, which the network may do anyway, and its envelope goes to the garbage collector.
- Gateway: `Request` and `Wait` block and interleave with other threads, so they are events of a machine and not one sequential method; that the router skips excluded nodes is a guard of `Routed`, which `Failover.Route` meets while the ring in use has the candidates' ids.
- WorkerPool.CloseReturnsAfterAllRan: a pool has at least one worker, as `newDataWorkerPool` ensures, and jobs end without a panic. The write lock does not hold back new readers, so the model has more interleavings than Go's RWMutex.
- Batcher.ReleasedAndAnsweredOnce: submit may return its context error for a datagram that went out, as in the code, so an error does not mean that nothing was sent. The non-Linux writer is not modelled.
- SendBatch.Conn.WritePayloadsBatch: the socket is a parameter (messages written, error or not, bytes and error per single write); addresses are reduced to whether they are IPv4.
- ConsistentHashing.ConsistentHash.Select: agreement with a fresh ring is about node ids; address and services may be those of the call that built the ring. The mutex is held from the check to the rebuild, so calls are modelled one after another. FNV-1a is an arbitrary function.
- ConsistentHashing.ConsistentHash.SortRing: sort.Slice stands for any sorted permutation.
- Routing.Router.RouteExcluding: nodes are values and never nil; what `cloneNode` guards against (aliasing of registry entries) does not arise.
- Lifecycle.StateIsClassification: one clock that never runs backwards stamps all events, and each handler is atomic; in the code Register reads time.Now before taking the lock, and Handle takes the registry's lock twice.
- Registry.Memory.ApplyHeartbeat: a missing transition function does not arise.
- Lifecycle.Service.Handle: time is in nanoseconds since the epoch.
- Completion.RequestCanFinish: says that the return can be reached; with `Completion.RequestIsBounded` a scheduler that gives the Request and Close their turns reaches it, and scheduling itself is not modelled.
- Protocol.StepInv: the unlocked writes of `acquirePending` are steps in program order, visible at once; `id` and `done` are written in one step, as nothing reads `id`. In clean runs nobody else touches the waiter meanwhile, so Go's memory model has no say there.
- Envelopes after hand-off: the debug log after a successful Complete reads an envelope that already has a new owner; no claim is made about reads.
- Logs, metrics and the pending gauge, which is published outside the lock.
- Sockets, HTTP/2, TLS, protobuf, DNS, YAML, configuration checks, rate gate, round-robin and the Master's HTTP handlers: library wrappers or easy members.
