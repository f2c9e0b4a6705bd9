# Moleculer core: a verified model

Moleculer is a microservices framework for Node.js. Its brokers exchange requests, events and byte
streams over a replicated service registry, and several small concurrent state machines protect the
calls. This project models these parts in Dafny and proves what they promise, for all inputs and
over all runs.

Where the source changes state step by step, the model has three layers: a state as a value with one
step function for each operation, a class whose methods update fields as the source does and are
proved equal to the step functions, and lemmas about every run of steps. Where the source only
computes, the model is functions and lemmas.

| file | what it models |
|---|---|
| `StreamProtocol.dfy` | cutting a stream into numbered packets; the receiver that puts them back in order |
| `Transit.dfy` | pending requests, request and response streams, loss of a node |
| `TransitOutcomes.dfy` | how requests come to an end: which event settles a promise, and how |
| `Registry.dfy` | services, the endpoint lists of actions and events, nodes and INFO packets; the index invariant |
| `RegistryUpdates.dfy` | what a registry event leaves alone; what the loss of a node removes |
| `RegistryConvergence.dfy` | the services of a node follow its newest INFO packet |
| `RegistryPresence.dfy` | which actions and events an INFO packet leaves on a node |
| `RegistryDeliveries.dfy` | upgrades, late packets and names nobody announces any more |
| `RegistryVisibility.dfy` | which actions can be called and which events arrive, by what services declare |
| `RegistryOwners.dfy` | services that share a short name, and which of them owns their endpoint |
| `ServiceRegistry.dfy` | the registry object |
| `EventRouting.dfy` | emit and broadcast across a cluster |
| `EventAgreement.dfy` | why the event catalogs of a cluster agree |
| `Balancer.dfy` | endpoint selection and round robin |
| `CircuitBreaker.dfy` | the breaker, its timers and sweeps, together with the balancer |
| `BreakerMoves.dfy` | which step opens, half-opens and closes a circuit, with counters, timers and endpoints |
| `BreakerDelays.dfy` | when a half-open circuit lets one trial request through |
| `BreakerRecovery.dfy` | how long an endpoint can stay disabled, whatever requests are made |
| `SingleFlight.dfy` | the cache lock and the cache middleware with lock |
| `SingleFlightProgress.dfy` | requests under the cache lock come to an end |
| `SingleFlightFills.dfy` | what requests under the cache lock answer: an entry, another's result, their own |
| `MemoryCacher.dfy` | the memory cacher against a history of writes |
| `JsonText.dfy`, `JsonExt.dfy` | JSON text and the extended JSON serializer |
| `Bulkhead.dfy` | the bulkhead queue |
| `Mixins.dfy` | merging trees of mixins |
| `Middleware.dfy` | hooks around the transporter |
| `RateLimiter.dfy` | the token bucket of the tracer |
| `Prelude.dfy` | shared vocabulary |

## Properties that do not hold as one might expect

Each of these has a lemma that says exactly when the property holds, and most have one with a run or an input
where it does not.

- A second copy of a stream packet keeps the receiver's invariant if and only if the first copy still waits in
  the pool (`ReplayHarmlessIffPooled`); a data packet taken already is written again (`ReplayWritesTwice`).
- When a node is lost, a request stream it was sending stays gone, in every run that brings no packet for its
  id, if and only if no re-dispatch was scheduled at that time (`LostStreamStaysGoneIff`, `LostStreamComesBack`).
- A half-opened breaker lets one trial request through, in all runs, if and only if all options used for the
  endpoint have the same half-open time (`OneTrialIffOneDelay`); when it shrinks, a swept entry's timer lets a
  second one through (`TwoDelaysTwoTrials`).
- A group receives an emitted event exactly once if and only if exactly one of its patterns matches and has
  subscribers (`EmitOncePerGroupIff`).
- An announced action or event need not be on the node after the INFO packet. `UpdateLeavesKeyIff` gives the
  condition for every packet. It fails for a name that moves to a service listed earlier
  (`MovedKeyDependsOnOrder`) and for an upgrade that replaces one version of a service by another
  (`UpgradeLosesTheEvent`).
- Of local services that share a short name, the one registered first owns their common endpoint: removing a
  service takes it away if and only if it is that one (`RemovalTakesListingIffFirst`,
  `RemovedVersionTakesTheEvent`).
- The services of a connecting node do not depend on the order in which its packets, numbered apart, are
  delivered if and only if the newest packet lists its services or every packet with a list lists the services
  the node still has (`OrderIrrelevantIff`); a list and a newer packet without one end differently in the two
  orders (`OrderMattersWithoutList`).
- Endpoints depend on the order of delivery even when services do not: the two packets of the upgrade above
  leave the event when the newer one arrives first (`LateUpgradeKeepsTheEvent`). Which names a delivery ends
  with is decided in the state in which its newest packet is taken (`DeliveryLeavesKeyIff`).
- A name nobody announces stays on a node if and only if a listed service owned it and none of the listed ones
  stopped naming it (`UnannouncedStaysIff`); an event that moves to another group stays in the old one
  (`OldGroupStays`).
- A disabled endpoint is enabled before time passes the moment its timer is due, except while a trial request is
  under way: when that fails the delay starts once more (`EveryRunEnables`, `FailedTrialWaitsAgain`).
- A round trip through the extended serializer keeps the order of a map's entries if and only if its
  integer-like keys come first and ascending (`RoundTripIsIdentityIff`).
- With a missing response other than null, a request that misses the cache under the lock returns it instead of
  calling its handler (`MissCallsHandlerIff`); while no null is stored, no request of any run calls its handler
  (`NobodyFills`).

## Model

| member | source | states |
|---|---|---|
| `StreamProtocol.CutChunk` | src/transit.js:944-957 | for any chunk and size limit the loop yields the pieces of the reference function |
| `StreamProtocol.PiecesLoseNothing` | src/transit.js:944-957 | the pieces concatenate to the chunk and, with a positive limit, none is longer than it |
| `StreamProtocol.Sender.constructor` | src/transit.js:928-941 | a stream opens with packet 0, which carries no data and announces more |
| `StreamProtocol.Sender.Data` | src/transit.js:942-975 | a data event publishes the pieces under consecutive numbers; the payload published is what was read |
| `StreamProtocol.Sender.Close` | src/transit.js:977-1007 | end and error publish one closing packet, so that the whole is a well-formed stream |
| `StreamProtocol.NextKeepsOrder` | src/transit.js:617-665 | taking the packet after the previous number keeps the receiver's invariant, whether it arrives or is re-dispatched |
| `StreamProtocol.EarlyKeepsOrder` | src/transit.js:602-615 | an early packet joins the pool and keeps the invariant |
| `StreamProtocol.StepKeepsOrder` | src/transit.js:559-666 | every delivery and every re-dispatch keeps the invariant: arrived packets are 0 to the previous number, the scheduled one, and the pool |
| `StreamProtocol.RunKeepsOrder` | src/transit.js:559-666 | the invariant holds in every state of every run |
| `StreamProtocol.AlwaysAPrefix` | src/transit.js:559-666 | in every run, whatever the arrival order, the bytes written are a prefix of the bytes sent; the reader sees the opening, the chunks in order and the end, and an error directly before the end exactly if the sender closed with one, never earlier |
| `StreamProtocol.CompleteOnceDrained` | src/transit.js:559-666 | when all packets have arrived and none is scheduled, the reader has seen exactly the opening, all chunks and one end, with one error if and only if the closing packet carries one |
| `StreamProtocol.DrainTerminates` | src/transit.js:654-663 | once all packets have arrived, the remaining re-dispatches number at most the waiting packets and lead to the drained state |
| `StreamProtocol.SendAll` | src/transit.js:928-1007 | end to end: for any chunks and limit, every run of the receiver writes a prefix, and the drained receiver all, of the concatenated chunks; the reader learns of a failure if and only if the sender closed with one |
| `StreamProtocol.ReplayHarmlessIffPooled` | src/transit.js:602-665 | a second copy of a packet keeps the invariant if and only if the first is still pooled |
| `StreamProtocol.ReplayWritesTwice` | src/transit.js:617-652 | a repeated data packet writes its data twice |
| `StreamProtocol.UnnumberedLosesCount` | src/transit.js:597-617 | after a marked packet without a number the next data packet is taken, whatever its number |
| `Transit.Transit.SendARequest` | src/transit.js:830-915 | a request is stored unless the queue limit is set and reached; the result says which |
| `Transit.Transit.RemovePendingRequest` | src/transit.js:1079-1084 | the request and both streams under its id are removed, nothing else changes |
| `Transit.Transit.RequestHandler` | src/transit.js:559-666 | the whole new state after a request packet: streams, pool, scheduled packets and what the stream was told |
| `Transit.Transit.ResponseHandler` | src/transit.js:685-722 | the whole new state after a response packet, including orphans and error responses |
| `Transit.Transit.HandleResponseStream` | src/transit.js:730-819 | the same for a packet of a streamed response |
| `Transit.Transit.RemovePendingRequestByNodeID` | src/transit.js:1093-1157 | the two loops together compute the loss of a node |
| `Transit.BooksAlwaysKept` | src/transit.js:685-844 | in every run the pending requests respect the limit and every response stream belongs to a pending request |
| `Transit.NodeLossIsExact` | src/transit.js:1093-1157 | exactly the requests sent to the node are removed and rejected, exactly its request streams and the streams of those requests are removed and destroyed, all else stays |
| `Transit.LateResponsesChangeNothing` | src/transit.js:685-698 | once a request is not pending, no later run settles it or touches its response stream unless the id is sent again |
| `TransitOutcomes.SettledIff` | src/transit.js:685-722 | in every run a request is resolved, rejected or resolved with a stream if and only if the first event that settles it while it is pending is a response of success, a response of failure or the loss of its node, or the opening packet of a stream |
| `TransitOutcomes.PendingIff` | src/transit.js:685-819 | a request is pending from its acceptance until it is answered, its stream closes, it is given up or its node is lost; nothing else starts or ends it |
| `TransitOutcomes.NoPromiseForgotten` | src/transit.js:685-819 | in every run without a give-up and without unnumbered parts, an accepted request is pending or settled |
| `TransitOutcomes.StreamsEndWithRequest` | src/transit.js:1079-1084 | when a request ends both streams under its id go, and nothing but packets of the id and lost nodes changes a request stream otherwise |
| `TransitOutcomes.OpenerStays` | src/transit.js:566-590 | the sender of a request stream is the one that opened it |
| `Transit.LostStreamStaysGoneIff` | src/transit.js:1093-1102 | in every reachable state a request stream of a lost node stays gone in all runs without a packet for its id if and only if no re-dispatch of it was scheduled |
| `Transit.LostStreamComesBack` | src/transit.js:654-663 | a run from the start in which two packets out of order, the loss of the node and the re-dispatch bring the stream back |
| `Transit.AlwaysScheduled` | src/transit.js:602-663 | in every run only numbered packets other than the first are pooled and scheduled |
| `Transit.RequestHandlerReceives` | src/transit.js:559-666 | per id, the request handler is the receiver of the stream protocol |
| `Transit.ResponseHandlerReceives` | src/transit.js:730-819 | per id, the response handler is the same receiver, and the request stays pending exactly while the stream is open |
| `Transit.RequestStreamDelivered` | src/transit.js:559-666 | a streamed request inside arbitrary other traffic delivers a prefix always, and everything once the run has delivered all its packets and none is scheduled; its end and its failure are told as the sender closed it |
| `Transit.ResponseStreamDelivered` | src/transit.js:730-819 | the same for a streamed response; its request is no longer pending when it has ended |
| `Transit.ArrivedMeansDelivered` | src/transit.js:559-666 | the packets counted as arrived are exactly those the run delivers |
| `Registry.AddKeyKeepsInv` | src/registry/endpoint-list.js:70-84 | adding an endpoint, or updating one of the same node and short name, keeps the index consistent |
| `Registry.DropTopicsKeepsInv` | src/registry/action-catalog.js:133-136 | removing a node from the lists of a name keeps the index consistent |
| `Registry.UnregisterKeepsInv` | src/registry/service-catalog.js:260-268 | removing a service with its endpoints keeps the index consistent |
| `Registry.UnregisterNodeKeepsInv` | src/registry/service-catalog.js:243-251 | removing all services of a node keeps the index consistent |
| `Registry.RegisterServicesKeepsInv` | src/registry/registry.js:217-283 | an update of a remote node keeps the index consistent |
| `Registry.IndexAlwaysConsistent` | src/registry/registry.js:190-283 | in every reachable state each endpoint belongs to a registered service of its node that records the name, full names are unique per node, and local endpoints are the local ones in order |
| `RegistryUpdates.SidsAreNodes` | src/registry/endpoint-list.js:257-283 | removing by the services of a node is the same as removing by the node |
| `RegistryUpdates.LossIsExact` | src/registry/node-catalog.js:197-215 | losing a node leaves in every list exactly the endpoints of the other nodes, in order, and exactly their services |
| `RegistryUpdates.StepsStayHome` | src/registry/registry.js:217-283 | no event changes services, endpoints or record of a node it is not about |
| `RegistryConvergence.UpdateSetsServices` | src/registry/registry.js:217-279 | after an update the node has exactly the services of the list, also with repeated or missing ones |
| `RegistryConvergence.NextPacket` | src/registry/node.js:62-80 | a packet of a connected node is taken if and only if its number is higher; without a list it leaves the services alone |
| `RegistryConvergence.TakenIff` | src/registry/node.js:62-80 | for every state and packet: it is taken if and only if its node is new, was lost, has started again or the number is higher; then record and listed services are those of the packet, otherwise nothing changes |
| `RegistryConvergence.RecordsWhatIsTold` | src/registry/node-catalog.js:146-171 | for packets in any order and number, mixed with any other events, record and services of a connecting node are what its accepted packets tell |
| `RegistryConvergence.Converges` | src/registry/node-catalog.js:146-171 | hence the record has the number of the newest packet, and the services are those of that packet if it lists any |
| `RegistryConvergence.NewestIsFirst` | src/registry/node.js:62-80 | the newest packet is the first of its number: every earlier one has a lower number |
| `RegistryConvergence.DeliveryEnds` | src/registry/node-catalog.js:146-171 | every delivery of packets numbered apart, in any order and amid any events, ends with the record of the newest, with its services if it lists them, and with the old ones if nothing else is listed |
| `RegistryConvergence.OrderIrrelevantIff` | src/registry/node-catalog.js:146-171 | all deliveries of the same packets end with the same services if and only if the newest lists its services or every list is the one the node still has; with each packet once, or in any number of copies |
| `RegistryConvergence.OrderMattersWithoutList` | src/registry/node-catalog.js:168-171 | two runs from the empty registry: a list and a newer packet without one leave the service in one order and nothing in the other |
| `RegistryPresence.RefreshTally` | src/registry/registry.js:235-261 | what processing a service does to the listings of a name on its node: an offer adds its short name, a retraction removes all, and an endpoint found stays with its owner |
| `RegistryPresence.UpdateLeavesKeyIff` | src/registry/registry.js:217-279 | for every state and packet: a name is on the node afterwards if and only if, when a listed service retracts it, one after the last such offers it, and when none does, a listed service owned an endpoint for it or it is offered under a short name not listed before |
| `RegistryPresence.AnnouncedIsPresentIff` | src/registry/registry.js:238-279 | the same for an announced name: no later service may retract it, and an earlier one retracts it, a listed service owned it, or a new short name offers it |
| `RegistryPresence.FreshNodeIsExact` | src/registry/registry.js:217-261 | on a node without services a name is there if and only if nobody retracts it after its last offer; with distinct full names, if and only if it is announced and visible |
| `RegistryVisibility.OffersIsDeclared` | src/registry/registry.js:299-322 | a service offers an action if it declares one of that name that is not private, and protected only at home; an event in its group, or in that of the service when it has none |
| `RegistryVisibility.FreshNodeHasWhatIsDeclared` | src/registry/registry.js:217-261 | on a node that announces distinct services for the first time an action can be called if and only if it is declared published or public, and an event arrives in a group if and only if a service listens to it there |
| `RegistryVisibility.FirstPacketBringsWhatIsDeclared` | src/registry/node-catalog.js:146-171 | the same for the first INFO packet of a node |
| `RegistryVisibility.LocalNodeHasWhatIsDeclared` | src/registry/registry.js:190-208 | for local services, protected actions count as well and private ones never do |
| `RegistryVisibility.RetractsMeansUnnamed` | src/registry/registry.js:240-261 | a service takes a name back if and only if it recorded it and declares nothing of that name any more, visible or not |
| `RegistryPresence.MovedKeyDependsOnOrder` | src/registry/registry.js:240-246 | a name that moves between services is lost or kept depending on their order |
| `RegistryDeliveries.UpgradeLosesTheEvent` | src/registry/registry.js:263-279 | a run from the empty registry: a node announces one version of a service, then another in its place, and is left without an endpoint for their event |
| `RegistryDeliveries.LateUpgradeKeepsTheEvent` | src/registry/node.js:62-80 | the same two packets in the other order leave the same services and an endpoint for the event |
| `RegistryDeliveries.DeliveryLeavesKeyIff` | src/registry/node-catalog.js:146-171 | in every run a name is on the node after the newest packet, whatever comes later, if and only if that packet's script lasts in the state it is taken in |
| `RegistryDeliveries.UnannouncedStaysIff` | src/registry/registry.js:248-261 | a name no listed service offers stays if and only if a listed service owned it and none retracts it |
| `RegistryDeliveries.OldGroupStays` | src/registry/registry.js:250-261 | a run from the empty registry: a service moves its event to another group and the node keeps an endpoint in the old one |
| `RegistryOwners.FirstHolds` | src/registry/endpoint-list.js:70-84 | the first service to offer a name under a short name owns the listing, whatever is registered after it |
| `RegistryOwners.RemovalTakesListingIffFirst` | src/registry/service-catalog.js:260-268 | removing any service takes the listing away if and only if it is the first one that offered it |
| `RegistryOwners.RemovedVersionTakesTheEvent` | src/registry/endpoint-list.js:70-84 | two versions with one event: removing the first takes the endpoint of both, removing the second does not |
| `ServiceRegistry.Catalog.Lookup` | src/registry/service-catalog.js:84-86 | the search finds the first service with the full name on the node |
| `ServiceRegistry.Catalog.RegisterActions` | src/registry/registry.js:320-350 | exactly the actions visible on the node are added, in order |
| `ServiceRegistry.Catalog.RegisterEvents` | src/registry/registry.js:451-465 | every event is added under its group, or under the service name when it has none |
| `ServiceRegistry.Catalog.UnregisterTopics` | src/registry/event-catalog.js:250-254 | the node leaves all lists of the names, one name after the other |
| `ServiceRegistry.Catalog.RegisterLocalService` | src/registry/registry.js:190-208 | a local service is registered once; the index stays consistent |
| `ServiceRegistry.Catalog.RegisterRemoteServices` | src/registry/registry.js:217-283 | both loops together compute the update; the index stays consistent |
| `ServiceRegistry.Catalog.UnregisterService` | src/registry/service-catalog.js:260-268 | the service and its endpoints are removed |
| `ServiceRegistry.Catalog.UnregisterServicesByNode` | src/registry/service-catalog.js:243-251 | the loop removes exactly the services of the node and their endpoints |
| `ServiceRegistry.Catalog.ProcessNodeInfo` | src/registry/node-catalog.js:146-171 | the whole new state after an INFO packet: new, reconnected, newer, repeated or without services |
| `ServiceRegistry.Catalog.Disconnected` | src/registry/node-catalog.js:197-215 | an available node becomes unavailable and loses its services; otherwise nothing happens |
| `EventRouting.GroupedIsExact` | src/service-broker.js:1479-1512 | each node gets at most one packet, which carries exactly the groups chosen on it |
| `EventRouting.GroupsInOrder` | src/service-broker.js:1479-1512 | in the order in which they were chosen |
| `EventRouting.CatalogOrder` | src/registry/event-catalog.js:117-130 | lists are served in the order of the catalog |
| `EventRouting.ChosenIsHandled` | src/service-broker.js:1472-1512 | every pattern chosen by the sender is handled somewhere in the cluster |
| `EventRouting.EmitOncePerGroupIff` | src/service-broker.js:1472-1512 | over sender and receivers, a group handles an event once if and only if one of its patterns matches and has subscribers, and never if and only if none does |
| `EventRouting.HandledAllExact` | src/registry/event-catalog.js:179-209 | a node that receives a broadcast calls each of its own wanted handlers once and nothing else |
| `EventRouting.BroadcastReachesEachOnce` | src/service-broker.js:1565-1606 | a broadcast calls every matching handler of the wanted groups in the cluster exactly once, also under overlapping patterns |
| `EventAgreement.CatalogIsTidy` | src/registry/endpoint-list.js:70-84 | the index invariant gives one list for each name and group, without an endpoint twice |
| `EventAgreement.FreshNodeLists` | src/registry/registry.js:217-261 | after the packet of a node without services each name is listed under exactly the short names that offer it |
| `EventAgreement.ListsWhatIsAnnounced` | src/registry/registry.js:190-283 | a registry that registered its services and then heard from others lists exactly its own events and those announced by the nodes it heard |
| `EventAgreement.AnnouncedClusterAgrees` | src/registry/registry.js:190-283 | hence the catalogs agree for a node that has heard from all others, in any order and whatever the others have heard |
| `EventRouting.Nodes` | src/registry/event-catalog.js:153-169 | the target nodes are those of the endpoints, without repetition |
| `EventRouting.EventCatalog.BalancedEndpoints` | src/registry/event-catalog.js:117-130 | the loop chooses one endpoint of each list that applies |
| `EventRouting.EventCatalog.AllEndpoints` | src/registry/event-catalog.js:153-169 | the loops yield the nodes of all endpoints of lists that apply, each once |
| `EventRouting.EventCatalog.EmitLocalServices` | src/registry/event-catalog.js:179-209 | the loop calls all local endpoints for a broadcast and one per list otherwise |
| `EventRouting.EventCatalog.Emit` | src/service-broker.js:1472-1512 | own handlers are called and remote ones grouped by node |
| `Balancer.RoundRobinIsFair` | src/strategies/round-robin.js:40-46 | from any counter, n selections from n endpoints pick each exactly once |
| `Balancer.AvailableInOrder` | src/registry/endpoint-list.js:147-156 | filtering keeps the order and number of the available endpoints |
| `Balancer.RoundRobin.Select` | src/strategies/round-robin.js:40-46 | the selected endpoint and the new counter, also when the counter was left by a longer list |
| `Balancer.EndpointList.NextLocal` | src/registry/endpoint-list.js:166-185 | nothing is returned exactly when no local endpoint is available, otherwise the available local one in turn; a failed search leaves the counter alone |
| `Balancer.EndpointList.Next` | src/registry/endpoint-list.js:127-157 | outside internal lists nothing is returned exactly when nothing is available, otherwise an available member, local when preferred, and the one in turn where the strategy decides |
| `Balancer.NextMany` | src/registry/endpoint-list.js:127-157 | consecutive calls where the strategy decides follow the rotation, and n of them on n available endpoints choose each once |
| `CircuitBreaker.RunKeepsInv` | src/middlewares/circuit-breaker.js:41-275 | in every run failures never exceed calls, a timer is armed exactly in the open and half-open-wait states, every disabled endpoint has an armed entry, timers of one delay are due in the order of arming, and stored entries are the newest of their name |
| `CircuitBreaker.NoEndpointDisabledForever` | src/middlewares/circuit-breaker.js:129-231 | in every reachable state a disabled endpoint has a stored or swept entry with a timer, and as time passes and timers fire it is enabled within that entry's delay |
| `BreakerRecovery.EveryRunEnables` | src/middlewares/circuit-breaker.js:129-231 | every punctual run past the deadline of a disabled endpoint's timer, with any requests in between, has a state in which the endpoint is enabled; the deadline is at most two delays away |
| `BreakerRecovery.FailedTrialWaitsAgain` | src/middlewares/circuit-breaker.js:129-141 | a run from the start in which a trial request fails late and the endpoint stays disabled past the time its timer was due |
| `CircuitBreaker.TripsAreJustified` | src/middlewares/circuit-breaker.js:116-141 | every trip happens with enough requests and a failure rate at or above the threshold |
| `BreakerMoves.SuccessfulTrialCloses` | src/middlewares/circuit-breaker.js:103-108 | in every reachable state a success on trial closes the circuit, zeroes both counters, turns the timer off and enables the endpoint, and changes nothing else |
| `BreakerMoves.ClosesIff` | src/middlewares/circuit-breaker.js:239-275 | an entry becomes closed in the success of a trial and in no other step |
| `BreakerMoves.OpensIff` | src/middlewares/circuit-breaker.js:116-141 | an entry, stored or new, opens if and only if a request has ended, not as a successful trial, and with it enough requests are counted and enough of them failed |
| `BreakerMoves.HalfOpensIff` | src/middlewares/circuit-breaker.js:182-216 | an entry half-opens when its own timer fires and in no other step |
| `BreakerMoves.TriesIff` | src/middlewares/circuit-breaker.js:224-231 | an entry goes on trial when a request enters its half-open circuit and in no other step |
| `BreakerMoves.CountersAfter` | src/middlewares/circuit-breaker.js:41-108 | what every step does to the counters of every entry |
| `BreakerMoves.TimerAfterStep` | src/middlewares/circuit-breaker.js:129-231 | what every step does to the timer of every entry, with the time it is due |
| `BreakerMoves.SwitchedIff` | src/middlewares/circuit-breaker.js:129-275 | an endpoint is disabled exactly when a circuit of it opens or goes on trial, and enabled exactly when one closes or half-opens |
| `BreakerMoves.SweepForgetsUnused` | src/middlewares/circuit-breaker.js:41-56 | the sweep forgets exactly the entries without requests and is due again a window later |
| `CircuitBreaker.GuardedRoutes` | src/middlewares/circuit-breaker.js:182-231 | without another timer at most one routed request reaches a half-opened endpoint before the entry moves on |
| `CircuitBreaker.RunKeepsAlone` | src/middlewares/circuit-breaker.js:129-231 | with one delay for an endpoint, in every run no other entry has a timer for it while its stored entry is half open |
| `CircuitBreaker.OneDelayOneTrial` | src/middlewares/circuit-breaker.js:182-301 | hence with one delay at most one routed request gets through in every half-open period of every run |
| `BreakerDelays.OneTrialIffOneDelay` | src/middlewares/circuit-breaker.js:140-229 | that bound holds in all runs if and only if the options used for the endpoint have one delay |
| `BreakerDelays.TwoDelaysTwoTrials` | src/middlewares/circuit-breaker.js:41-81 | for any two delays a run from the start, with timers in due order and sweeps a window apart, in which two requests get through |
| `CircuitBreaker.Breaker.GetEpState` | src/middlewares/circuit-breaker.js:66-81 | the stored entry of the endpoint's name, or a new one |
| `CircuitBreaker.Breaker.Failure` | src/middlewares/circuit-breaker.js:90-95 | the whole new state after a failed call |
| `CircuitBreaker.Breaker.Success` | src/middlewares/circuit-breaker.js:103-108 | the whole new state after a successful call |
| `CircuitBreaker.Breaker.TimerFires` | src/middlewares/circuit-breaker.js:182-216 | the endpoint is enabled again and the entry half open |
| `CircuitBreaker.Breaker.Enter` | src/middlewares/circuit-breaker.js:293-301 | the first call into a half-opened endpoint disables it and arms the timer |
| `CircuitBreaker.Breaker.CallBalanced` | src/registry/endpoint-list.js:127-157 | a balanced call only enters an enabled endpoint |
| `CircuitBreaker.Breaker.ResetStore` | src/middlewares/circuit-breaker.js:41-56 | the sweep removes unused entries and resets the counters of the others |
| `Locks.Lock.Acquire` | src/lock.js:21-31 | a free lock is granted, a held one queues the caller |
| `Locks.Lock.Release` | src/lock.js:37-47 | the lock goes to the head of the queue or becomes free |
| `SingleFlight.RunKeepsInv` | src/cachers/base.js:432-495 | in every run the lock table agrees with the processes: one holder per locked key, exactly the waiters in the queue |
| `SingleFlight.AtMostOneHandler` | src/cachers/base.js:432-495 | at most one handler runs per key, counting fills and refreshes; queues are served in order; a taken lock is released once |
| `SingleFlight.FollowersHitTheCache` | src/cachers/base.js:470-482 | a waiter behind a cached value never calls its handler and is a hit with such a value if it ends, while the entry lives; with one value, that value |
| `SingleFlightProgress.FollowersEnd` | src/cachers/base.js:470-482 | it does end as such a hit in every run that goes on until nobody can step |
| `SingleFlightFills.EveryWaiterHitsTheFill` | src/cachers/base.js:470-486 | in every reachable state, when a handler answers v, every request waiting on the key never calls its handler and ends as a hit with v, in every run whose events do not take the entry away or replace it |
| `SingleFlightFills.WaiterHitsTheFill` | src/cachers/base.js:470-486 | the same when the events may replace the entry by values of a given set |
| `SingleFlightFills.AnswerAfter` | src/cachers/base.js:432-495 | what a read answers changes only by the result of a handler for the key, a failed refresh, a write, a removal, an expiry and a prolonging stale hit, and how |
| `SingleFlightFills.FoundIsReturned` | src/cachers/base.js:464-469 | a request that finds a live entry other than the missing response ends as a hit with exactly that data, whatever happens to the entry |
| `SingleFlightFills.StaleIsReturned` | src/cachers/base.js:434-469 | with a stale time also an expired one |
| `SingleFlightFills.OwnResultIsReturned` | src/cachers/base.js:482-491 | a request whose handler answers or fails ends with that answer or failure, in every run |
| `SingleFlightFills.RefreshStartsIff` | src/cachers/base.js:436-458 | a refresher starts if and only if the entry found is stale, not null and the key is not locked |
| `SingleFlightFills.ReadRemovesExpired` | src/cachers/memory.js:98-106 | a read removes the expired entry of its key and nothing else |
| `SingleFlightProgress.StepsAreBounded` | src/cachers/base.js:432-495 | in every run the steps of processes are bounded by a constant for each arrival |
| `SingleFlightProgress.QuietIff` | src/lock.js:21-47 | a state counts as one in which nobody can step if and only if no step of a process or handler is enabled |
| `SingleFlightProgress.NoDeadlock` | src/lock.js:21-47 | in every reachable state in which nobody can step all are done and no key is locked |
| `SingleFlight.MissCallsHandlerIff` | src/cachers/base.js:464-482 | a miss under the lock calls the handler if and only if the missing response is null or undefined |
| `SingleFlight.NobodyFills` | src/cachers/base.js:464-482 | with another missing response, and no null stored, no request calls its handler in any run |
| `MemoryCacher.CacheRefinesHistory` | src/cachers/memory.js:92-194 | the map agrees with the history of writes and removals, up to expired entries |
| `MemoryCacher.ReadsAreCorrect` | src/cachers/memory.js:92-117 | under a clock that does not go back every read answers with the last write neither removed nor expired |
| `MemoryCacher.ReadAnswersLastSet` | src/cachers/memory.js:92-146 | in terms of the log: a read answers some data if and only if the last operation on the key wrote it and its time to live, the given one or else the default, has not passed |
| `MemoryCacher.ExpiredIsRemoved` | src/cachers/memory.js:98-106 | a read removes the expired entry it finds, a sweep all of them, and nothing else goes |
| `MemoryCacher.SweepsAreInvisible` | src/cachers/memory.js:262-273 | leaving out or inserting sweeps changes no answer |
| `MemoryCacher.ClockGoingBackLosesEntry` | src/cachers/memory.js:262-273 | with a clock that goes back it does |
| `MemoryCacher.Cacher.GetItem` | src/cachers/memory.js:92-117 | the answer, and the removal of an expired entry |
| `MemoryCacher.Cacher.SetItem` | src/cachers/memory.js:129-146 | the entry with its expiry from the given or default time to live |
| `MemoryCacher.Cacher.DelItems` | src/cachers/memory.js:156-168 | exactly the given keys are removed |
| `MemoryCacher.Cacher.CleanItems` | src/cachers/memory.js:178-194 | exactly the keys that match a pattern are removed |
| `MemoryCacher.Cacher.Sweep` | src/cachers/memory.js:262-273 | exactly the expired entries are removed |
| `JsonText.ParsePrint` | src/serializers/json-extended.js:145-167 | parsing printed JSON text gives the value back |
| `JsonText.TwoCharacterEscapes` | src/serializers/json-extended.js:161-167 | every two-character escape stands for its character |
| `JsonExt.Base64Back` | src/serializers/json-extended.js:59-91 | decoding encoded bytes gives them back |
| `JsonExt.Base64Vectors` | src/serializers/json-extended.js:76-76 | the test vectors of section 10 of RFC 4648 |
| `JsonExt.WireFormat` | src/serializers/json-extended.js:13-91 | the tag of each type and how its body reads |
| `JsonExt.NestedWireFormat` | src/serializers/json-extended.js:69-72 | the same for maps and sets, which carry JSON text |
| `JsonExt.UnknownTagIsKept` | src/serializers/json-extended.js:99-135 | a string in two brackets without a known tag is left as it is |
| `JsonExt.IndexIff` | src/serializers/json-extended.js:70-70 | the integer-like keys of an object are the decimal texts of numbers below 2^32 - 1 |
| `JsonExt.OwnOrderKeepsEntries` | src/serializers/json-extended.js:59-91 | building an object from entries reorders them and loses none |
| `JsonExt.ReviveReplace` | src/serializers/json-extended.js:59-135 | reviving what the replacer made gives the value, up to the order of map entries |
| `JsonExt.RoundTrip` | src/serializers/json-extended.js:145-167 | for every value nested to any depth, deserializing what was serialized gives it back, up to the order of map entries |
| `JsonExt.RoundTripIsIdentityIff` | src/serializers/json-extended.js:59-167 | it gives back the very value if and only if all maps inside list integer-like keys first and ascending |
| `JsonExt.MapOrderIsLost` | src/serializers/json-extended.js:59-91 | a map with a name before an index comes back in the other order |
| `Bulkhead.AlwaysWithinLimits` | src/middlewares/bulkhead.js:18-135 | in every run the limits hold, a call waits only while all places are taken, calls start in order of arrival, and each is refused, waiting, running or settled |
| `Bulkhead.SettledOnce` | src/middlewares/bulkhead.js:41-118 | a settled call keeps its outcome in every run that follows |
| `Bulkhead.RefusedIff` | src/middlewares/bulkhead.js:118-123 | in every run a call is refused if and only if, when it arrived, every place was taken and the limited queue was full |
| `Bulkhead.ArrivalDecides` | src/middlewares/bulkhead.js:74-134 | an arriving call starts if and only if a place is free, and waits if and only if none is and it is not refused |
| `Bulkhead.SettledIff` | src/middlewares/bulkhead.js:41-118 | in every run a call is settled with an outcome if and only if its handler finished with it |
| `Bulkhead.EveryAcceptedCallSettles` | src/middlewares/bulkhead.js:22-73 | however handlers finish, each finish settles one call, some handler runs while one is unsettled, and in the end all accepted calls are settled |
| `Bulkhead.Bulkhead.Call` | src/middlewares/bulkhead.js:74-134 | the whole new state after a call arrives, and whether it was refused |
| `Bulkhead.Bulkhead.CallNext` | src/middlewares/bulkhead.js:22-42 | the head of the queue starts when there is room |
| `Bulkhead.Bulkhead.Done` | src/middlewares/bulkhead.js:41-118 | the call is settled with its own outcome and the next one starts |
| `Mixins.MergedOrder` | src/service.js:549-567 | for every tree, merged handlers come in post-order of the schemas, mixins from right to left; after and error hooks in exactly the reverse schema order |
| `Mixins.OrderByPhase` | src/service.js:577-707 | by phase: before hooks, events and lifecycle handlers mixins first, after and error hooks the service first |
| `Mixins.NoHandlerLost` | src/service.js:577-626 | with multiplicities, the merged handlers are those of the tree |
| `Mixins.StopMirrorsStart` | src/service.js:297-340 | stop handlers run in the mirror image of the merged order |
| `Mixins.MergeSchemas` | src/service.js:577-707 | the loop over keys computes the merge of every handler list |
| `Mixins.ApplyMixins` | src/service.js:549-567 | the reduction over the reversed mixins computes the flattened schema |
| `Middleware.SendOrder` | src/middleware.js:155-164 | a wrapped handler sees data transformed by the last registered hook first |
| `Middleware.ReceiveOrder` | src/middleware.js:155-164 | with the reversed list the first registered hook comes first |
| `Middleware.WireIsTransparent` | src/transit.js:82-88 | if each middleware undoes itself, whatever goes through the wrapped send arrives unchanged through the wrapped receive, for every list |
| `Middleware.MiddlewareHandler.Add` | src/middleware.js:37-72 | hooks are registered under every name in the order of the middlewares |
| `Middleware.MiddlewareHandler.WrapMethod` | src/middleware.js:155-164 | the loop wraps by all hooks of the name, reversed when asked |
| `RateLimiter.BalanceStaysInBounds` | src/tracing/rate-limiter.js:28-53 | in every run the balance stays between 0 and its maximum |
| `RateLimiter.GrantedComesFromTime` | src/tracing/rate-limiter.js:39-53 | what was granted and what is left are covered by the first balance and the time that passed |
| `RateLimiter.WindowIsBounded` | src/tracing/rate-limiter.js:39-53 | in any window of any run the cost granted is at most the full bucket and what accrues within the window |
| `RateLimiter.WindowInNumbers` | src/tracing/rate-limiter.js:28-53 | that is at most the greater of the rate and 1, and the rate for every second |
| `RateLimiter.CheckInNumbers` | src/tracing/rate-limiter.js:39-53 | one check in numbers; a refused cost leaves the balance alone |
| `RateLimiter.NothingWasted` | src/tracing/rate-limiter.js:39-53 | what was granted and what is left make up the whole accrual, short of a full bucket |
| `RateLimiter.GrantedAfterWaiting` | src/tracing/rate-limiter.js:39-53 | a cost that fits is granted if and only if enough has accrued; a larger one never |
| `RateLimiter.RateLimiter.Check` | src/tracing/rate-limiter.js:39-53 | the new balance and time, and whether the cost is granted |

## Left out

- Transporters, discoverers, heartbeats, the shard, CPU and latency strategies, metrics, loggers, tracing exporters: network and process glue.
- Redis cacher, LRU cacher and the other serializers: thin wrappers over libraries.
- Retry, fallback, timeout, debounce and throttle middlewares: small next to the machines above.
- `utils.match`: event patterns and cache patterns are arbitrary predicates.
- Cache keys are abstract values; the key generator is not modelled.
- `getWithTTL` of the memory cacher ignores expiry and is not part of the history that `ReadsAreCorrect` speaks about; the cache middleware reads through it in `SingleFlight`.
- Object-mode streams, stream timeouts, broker stopping and the disabled balancer.
- Re-dispatches of different streams are independent in the model, which allows more orders than the timer queue of Node.js does.
- A request packet released from the pool is handled for the sender of the packet that released it; the packets of one id are taken to come from one node.
- Breaker timers are never early but may be late, in order only among timers of the same delay, as in Node.js; routing a call and entering the breaker are one step.
- Registry endpoint lists are values inside the catalog: aliasing of a list held by a caller is not captured. The list of event lists is a map by name and group, so its order is not captured. Action and event definitions behind an endpoint are left out.
- A packet that announces a service without its full name, and the pruning of nodes that stay offline.
- `EmitOncePerGroupIff` and `BroadcastReachesEachOnce` speak about clusters whose catalogs agree; `AnnouncedClusterAgrees` derives the agreement where every node has registered services with distinct full names and the sender has heard once from each of the others. Every event endpoint counts as available and every local one has a handler.
- Internal events that go to the local bus only.
- JSON numbers are kept as text without their grammar; white space between tokens and surrogate pairs are not modelled; custom types of the serializer are left out. A text that the source's reviver answers with an invalid date, or a date written in another form, is an error in the model.
- Handler results are strings or abstract values; a bulkhead handler that throws synchronously is not modelled.
- Merging of settings, metadata, methods, actions and dependencies of mixins; only lists of handlers are modelled.
- Middleware hooks transform data; hooks that drop or delay a message are not modelled.
- Token bucket arithmetic is over real numbers, without rounding; costs and rates are not negative.
