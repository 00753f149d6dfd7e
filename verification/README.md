# Peer Compute: a verified model

Peer Compute lets a developer run containers on the machines of peers who trust them and reaches those containers from
the public internet through reverse tunnels. This project models the parts of it that keep state and the printers and
parsers beside them, and proves what they promise.

## What is modelled

**The provider's scheduler** (`internal/scheduler/scheduler.go`), twice.

- `Accounting.dfy` has one function for each region that runs under the scheduler's lock, with the `int64` sums of Go
  written out. `Scheduler.dfy` is the scheduler as a class with the source's fields; its methods, the loop of `StopAll`
  among them, are proved against these functions and against `SequentialCalls.dfy`, which says what whole calls do.
- `SchedulerSteps.dfy` is the same scheduler under concurrency: any number of `Schedule` and `Stop` calls in flight, one
  event for each lock/unlock region, for each unlocked read and for each docker command. What docker answers, which ID
  the clock yields and who moves next is the event's choice. The theorems about it hold in every interleaving:
  conservation and exactly-once release (`SchedulerSafety`), the admission bound, its tightness and what negative sizes
  do to it (`AdmissionBound`, `AdmissionTightness`, `NegativeRequests`), and who owns which container (`Containers`).
  `SequentialCalls.ScheduleIsARun` and `StopIsARun` tie the two together: a completed call is one particular
  interleaving.

**The reverse tunnel** (`cmd/gateway/main.go` with `internal/tunnel/client.go`). `TunnelLink.dfy` is one connection:
gateway reader, pending table, `Request` calls, a FIFO link each way, the provider's routes, its handlers and its
`RegisterDeployment`/`UnregisterDeployment` calls, one event for each region under a mutex, channel operation or
message. `PendingTable`, `Crosstalk`, `RequestIds` and `RouteReplay` hold its theorems. `TunnelSystem.dfy` is the
gateway with any number of connections and the index they share; what is proved of one link is carried over by
`ConnectionsRunAlone`. `LinkProgress.dfy` says that what is begun can be brought to its end. Messages carry an origin
that no step looks at, so that "this response was produced for that request" can be said.

**What ties them together and the codecs**: the deploy and stop handlers over scheduler, trust list and tunnel client
(`Handler.dfy`, one request at a time as a class; `HandlerRaces.dfy`, `HandlerExposure.dfy`, `HandlerCrash.dfy` and
`HandlerRuns.dfy`, any number of handlers that overlap), the way from a host name to the container that answers
(`EndToEnd.dfy`), the trust list and its file (`TrustStore.dfy`), host names (`HostRouting.dfy`), framed messages
(`Codec.dfy`), the payload that is signed (`Signing.dfy`, `AmbiguousPayloads.dfy`, `PayloadWindows.dfy`) and environment
variables (`Environment.dfy`).

`MapSums.dfy` (sums over maps), `Machines.dfy` (runs of a transition system, invariants) and `Options.dfy` are shared.

## What the proofs found

Where the code does not keep a promise in general, the project proves a condition under which it does, as an if and
only if where this is said below, and gives a run or an input for what is left.

- A `Stop` that reads the container ID before `Schedule` has written it, and then releases the record, makes the
  container an orphan: it runs on with no record of it. Once `Schedule` has returned these are exactly the orphans there
  are (`Containers.OrphanIffStoppedEarly`, `EarlyStopLeavesOrphan`).
- `handleDeploy` logs the first 12 characters of the container ID in the record that `Schedule` hands it. With a docker
  whose IDs have 12 characters or more it panics there if and only if a `Stop` had released that record before the
  container ID was written to it (`HandlerCrash.CrashIffLostUnfinished`, with a run in `HandlerRuns.EarlyStopCrashes`).
  A `Stop` that reads no container ID and releases later does not do that (`HandlerRuns.LateReleaseDoesNotCrash`). If
  stop requests reach the scheduler only for deployments whose `Schedule` has returned, nothing panics
  (`HandlerCrash.NoCrashWhenStopsAreLate`). For one request at a time `RequestHandler.PanicsIff` says which do.
- `CanSchedule` gives its lock back before the deployment is registered. While no size is negative and no sum wraps,
  `n` overlapping calls can overshoot the slots by `n - 1`, and by no more (`AdmissionBound.AdmissionBounded`,
  `AdmissionTightness.SlotsAreOvershot`).
- `CanSchedule` does not look at the sign. A request of negative size is refused only at `docker run`; until then its
  charge makes room for others, and when it is given back they are over budget, with one call at a time and no
  wrap-around. A request that passes `CanSchedule` is harmless in this respect if and only if its CPU and memory are not
  negative (`NegativeRequests.WithinBudgetIffNonNegative`).
- With totals inside the budget, a request beyond it passes `CanSchedule` if and only if the `int64` sum wraps
  (`Accounting.AdmitsOverBudgetIffSumWraps`, `SequentialCalls.WrappingRequestExceedsBudget`).
- A deployment ID that is taken breaks the totals, unless, and only unless, the record it overwrites was charged
  nothing (`Accounting.RegisterConservesIff`); IDs come from the clock.
- A request ID may be used again once the earlier call has returned a response or could not be sent
  (`RequestIds.NoCrosstalkOnReuse`). Used again earlier, answers can cross: while both calls are pending
  (`Crosstalk.ReusedIdCrosses`), and also after the first has timed out and cleaned up
  (`RequestIds.ReuseAfterTimeoutCrosses`). These IDs come from the clock as well.
- Two calls for one deployment that overlap leave provider and gateway with the same routes, whenever the link falls
  silent, if and only if they make the same of the route (`RouteReplay.OverlapHarmlessIff`): two unregistrations do no
  harm, a registration and an unregistration can leave the two ends apart for good.
- When two connections register one deployment at the same time, closing the first drops the route of the second
  (`RouteIndex.SharedDeploymentLosesRoute`). When it passes from one to the other, nothing is lost
  (`RouteIndex.IndexIsUnion`).
- A stop request that finds the tunnel down, or whose message is not sent, leaves the provider's route behind, and
  only such a one if requests come one at a time (`RequestHandler.StopKeepsRoutesIff`). If they overlap, so can one
  that begins before the deploy request has been answered (`HandlerRuns.RouteOutlivesDeployment`), and there is no third
  way (`HandlerRaces.StaleOnlyIfHasty`).
- `WriteJSON` cuts the length to 32 bits without a check (`Codec.JsonReads`).
- Another request signs the same text if and only if the request ID or the image has a colon, or among the segments
  from the image to the requester ID three consecutive ones other than the request's own numbers are printed numbers,
  with a segment before and one after (`PayloadWindows.SameTextIff`; `SameTextIffOtherWindow` among requests whose
  request ID has no colon). Among requests with no colon in either ID there is never another (`Signing.PayloadUnique`),
  and that is what the one caller produces: its request ID is a UUID and its requester ID a peer ID
  (`cmd/peerctl/deploy.go:84-91`). For a request that has one in its requester ID,
  `AmbiguousPayloads.CollisionIffAmbiguous` says when a request with no colon in either ID signs the same text.
- A deployment has a host name that reads back if and only if its ID is not `www` and neither it nor the base domain
  has a colon (`HostRouting.HostRoundTrip`).

Three places where text and code differ, and the model follows the code. `README.md` and the comments speak of signed
requests, but `VerifyDeployRequest` (`internal/protocol/codec.go:160-166`) does not look at the signature and the
handlers do not call it. `README.md` speaks of explicit trust between peers: untrusted peers are refused when they
connect (`internal/p2p/gater.go:51-54`), and `handleDeploy` asks again, but `handleStop`
(`internal/handler/handler.go:211-246`) does not, so a peer that was trusted when it connected and no longer is can
still stop deployments; the model's stop requests do not ask either. The comment on `generateDeploymentID` says that IDs
are unique; they are as unique as the clock's nanoseconds.

## Hypotheses

Each is a precondition of the theorems that need it or a predicate on the steps of a run: deployment IDs are fresh (in
the concurrent model the region that registers a deployment takes only a new ID; `FreshIds` for handlers); request sizes
are not negative and, with the budgets, small enough that sums do not wrap (`Bounded` and `FitsInt64`, only for the
admission bound; `Sane`, only for the budget of completed calls, which takes zero and negative sizes); request IDs on a
connection are distinct (`DistinctIds`) or used again only when it is safe (`SafeReuse`), only where correlation needs
it; docker names each container anew and removes what it is told to (`DockerContract`), with IDs of 12 or more
characters where the panic is concerned (`LongIds`); calls for one deployment overlap only if they make the same of its
route (`NoConflict`); a provider begins to use a deployment only when no other connection has to do with it any more
(`Exclusive`); the tunnel is up and sends succeed (`Smooth`, only where routes equal exposures); stop requests come
after the deploy request has been answered and are sent (`Orderly`, and with sends that succeed `Prompt`, only where
overlapping handlers keep routes within or equal to exposures).

## Model

| member | source | states |
|---|---|---|
| MachineInt.WrapStep | internal/scheduler/scheduler.go:106-107 | Go's `int64` addition and subtraction, applied to a number reduced modulo 2^64, give the reduced sum and difference of the true integers |
| MachineInt.Wrap | internal/scheduler/scheduler.go:171-172 | an `int64` is congruent modulo 2^64 to the integer it stands for, and equal to it when that is in range |
| Accounting.RegisterConserves | internal/scheduler/scheduler.go:104-108 | entering a record under a fresh ID keeps both totals equal, modulo 2^64, to the sums of the limits over the map |
| Accounting.RegisterConservesIff | internal/scheduler/scheduler.go:103-108 | registration keeps the totals right if and only if the ID is free or the record it overwrites has both limits zero |
| Accounting.ReleaseConserves | internal/scheduler/scheduler.go:170-177 | deleting a record and giving its limits back keeps both totals equal to the sums, whether or not the record is still there |
| Accounting.ReleaseUndoesRegister | internal/scheduler/scheduler.go:259-266 | release after registration restores map and both totals exactly, even when the sums wrapped |
| Accounting.AdmitsOverBudgetIffSumWraps | internal/scheduler/scheduler.go:64-78 | with totals inside the budget, a request beyond the CPU (memory) budget passes the test exactly when the `int64` sum reaches 2^63 |
| Accounting.VerdictMeans | internal/scheduler/scheduler.go:64-78 | which of the four answers is given when, with the sums modulo 2^64 |
| Accounting.AdmittedIffFits | internal/scheduler/scheduler.go:64-78 | if neither sum leaves `int64`: a request is admitted if and only if there is a slot and both integer sums are within the configuration, and each refusal names the first that is not |
| SchedulerSafety.StepBalanced | internal/scheduler/scheduler.go:103-180 | every region of every call keeps the totals equal to the sums and each record under its own ID |
| SchedulerSafety.StepFits | internal/scheduler/scheduler.go:103-180 | every region keeps, for every ID issued: on the map or released once; the record shows the phase of its call; a lost record keeps its container ID |
| SchedulerSafety.Invariant | internal/scheduler/scheduler.go:82-180 | the two together hold at the end of every interleaving, whatever the environment |
| SchedulerSafety.Conservation | internal/scheduler/scheduler.go:103-180 | in every interleaving the totals are the sums over the map modulo 2^64, and the sums themselves when these fit an `int64`; each ID ever registered is on the map and never released, or off it and released exactly once, however many `Stop` and failing `Schedule` calls race for it |
| SchedulerSafety.StatusAgreesWithContainer | internal/scheduler/scheduler.go:110-143 | in every interleaving a record on the map is running only if its call has returned with its container ID, has a container ID only then, is running or stopping then, and is never stopped or failed |
| SchedulerSafety.RunningHasContainer | internal/scheduler/scheduler.go:137-143 | if docker names its containers, running implies a non-empty container ID and a non-empty container ID implies running or stopping |
| SchedulerSafety.StatusShowsPhase | internal/scheduler/scheduler.go:110-156 | in every interleaving a record on the map shows the status that its call has last written, or that it is being stopped, and then some `Stop` has found it and not yet released it |
| SchedulerSafety.ScheduleCanProceed | internal/scheduler/scheduler.go:82-146 | in every state a `Schedule` call begins as soon as its request is admitted and does its next step at once, whatever docker answers; docker runs exactly what has an ID, an image, some CPU and at least 4 MiB |
| SchedulerSafety.StopCanProceed | internal/scheduler/scheduler.go:149-180 | in every reachable state a `Stop` begins for exactly the deployments on record and goes on to its end |
| AdmissionBound.StepRoom | internal/scheduler/scheduler.go:60-108 | every step keeps records plus calls in the gap within the limits plus `n - 1` requests of the largest size |
| AdmissionBound.AdmissionBounded | internal/scheduler/scheduler.go:60-108 | with no sum that wraps, at most `n` calls between check and register and requests of CPU in [0, c] and memory in [0, m], every reachable state has at most `maxSlots + n - 1` deployments, CPU at most `maxCPU + c(n - 1)` and memory at most `maxMemory + m(n - 1)`, never negative |
| AdmissionBound.OneAtATimeStaysWithinBudget | internal/scheduler/scheduler.go:60-108 | with one call in the gap at a time and no negative sizes the provider never leaves its slots and budgets |
| AdmissionTightness.SlotsAreOvershot | internal/scheduler/scheduler.go:60-108 | for every configuration, every `n` and every request it has room for in all its slots, there is a run with at most `n` calls in the gap that ends with `maxSlots + n - 1` such deployments, all charged |
| AdmissionTightness.BoundIsReached | internal/scheduler/scheduler.go:60-108 | where the budgets are exactly that room, this run ends on all three bounds at once |
| NegativeRequests.NegativeCpuExceedsBudget | internal/scheduler/scheduler.go:68-71 | for every request of negative CPU that passes `CanSchedule` on an empty provider with two slots there is a run, one call in the gap at a time, that ends with the CPU total over budget by as much |
| NegativeRequests.NegativeMemoryExceedsBudget | internal/scheduler/scheduler.go:73-76 | likewise for memory |
| NegativeRequests.WithinBudgetIffNonNegative | internal/scheduler/scheduler.go:60-108 | for a request that passes `CanSchedule`, beside any of non-negative bounded size, one call in the gap at a time and no wrap-around: all runs stay within both budgets if and only if its CPU and memory are not negative |
| Containers.OrphanIffStoppedEarly | internal/scheduler/scheduler.go:113-180 | in every interleaving a live container has no owner if and only if its deployment was released by a `Stop` that had read no container ID and its `Schedule` has returned; otherwise it has exactly one owner |
| Containers.NoOrphans | internal/scheduler/scheduler.go:149-180 | if `Stop` is issued only for deployments whose `Schedule` has returned, every live container has exactly one owner: a record, or a call between run and finalise |
| Containers.EarlyStopLeavesOrphan | internal/scheduler/scheduler.go:160-177 | for every request that is admitted and can be run there is a run, with a `Stop` before the pull, that leaves its container alive with no owner and empty books |
| SequentialCalls.FailedScheduleRestores | internal/scheduler/scheduler.go:113-135 | a `Schedule` that is rejected, or fails to pull or to run, leaves map and totals exactly as they were, for requests of any size |
| SequentialCalls.SuccessfulScheduleAdds | internal/scheduler/scheduler.go:82-146 | a successful `Schedule` was admitted, had a valid configuration, and adds one running record with its container ID and charges its limits, and nothing else |
| SequentialCalls.StopUndoesSchedule | internal/scheduler/scheduler.go:149-180 | stopping a deployment just scheduled finds it and restores map and totals to what they were before it was scheduled |
| SequentialCalls.ScheduleAnswers | internal/scheduler/scheduler.go:82-146 | `Schedule` succeeds if and only if the request is admitted, pulled, has an ID, an image, some CPU and at least 4 MiB, and docker starts it, and answers with docker's container ID; and which failure each other case gives |
| SequentialCalls.ScheduledIsOnRecord | internal/scheduler/scheduler.go:92-145 | after success the record under the ID is running with docker's container ID, the request's image, limits and port and its requester; all others are as before; the totals have grown by its limits |
| SequentialCalls.StopAnswers | internal/scheduler/scheduler.go:149-180 | `Stop` finds exactly what is on record, takes off that record and its charge, and changes nothing if it finds nothing |
| SequentialCalls.CallKeepsBudget | internal/scheduler/scheduler.go:60-180 | each completed call with a fresh ID and a request too small to wrap keeps the totals exact and within the budget and every record valid |
| SequentialCalls.CallsStayInBudget | internal/runtime/docker.go:326-344 | after any list of completed calls every deployment has positive CPU and at least 4 MiB, the totals are the sums and lie in [0, max], and the count is at most slots, millicores, and memory over 4 MiB |
| SequentialCalls.WrappingRequestExceedsBudget | internal/scheduler/scheduler.go:68-76 | a request of 2^63 - 1 millicores on a provider with one in use is scheduled and turns the total negative |
| SequentialCalls.ScheduleIsARun | internal/scheduler/scheduler.go:82-146 | from any state of the concurrent scheduler, the regions of one admitted call with nothing in between are a run that changes the books as the completed call does |
| SequentialCalls.StopIsARun | internal/scheduler/scheduler.go:149-180 | the same for `Stop` |
| ProviderScheduler.Record.constructor | internal/scheduler/scheduler.go:92-101 | a new record has the request's image, requester, limits and port, is pending and has no container |
| ProviderScheduler.Scheduler.constructor | internal/scheduler/scheduler.go:36-57 | a new scheduler is empty with both totals zero; without a configuration it has ten slots, 4000 millicores and 4 GiB |
| ProviderScheduler.Scheduler.CanSchedule | internal/scheduler/scheduler.go:60-79 | if neither sum leaves `int64`, admits exactly what fits; in all cases gives the verdict that the admission theorems are about |
| ProviderScheduler.Scheduler.UpdateStatus | internal/scheduler/scheduler.go:246-252 | sets the status of a record that is there, in place, and changes nothing else |
| ProviderScheduler.Scheduler.ReleaseDeployment | internal/scheduler/scheduler.go:255-267 | deletes the record if it is there, gives back exactly its limits, and leaves its last status visible to whoever holds it |
| ProviderScheduler.Scheduler.RegisterRecord | internal/scheduler/scheduler.go:91-108 | puts a new record on the map and charges its limits, overwriting one under the same ID |
| ProviderScheduler.Scheduler.FinaliseRecord | internal/scheduler/scheduler.go:137-143 | writes container ID and running status to a record that is there |
| ProviderScheduler.Scheduler.Launch | internal/scheduler/scheduler.go:110-145 | from registration on: pull, run, finalise, or fail and release, as the completed call that the sequential theorems are about |
| ProviderScheduler.Scheduler.ScheduleAdmitted | internal/scheduler/scheduler.go:91-146 | registration and the rest; the record returned is the one on the map, and on failure nothing is left under the ID |
| ProviderScheduler.Scheduler.Schedule | internal/scheduler/scheduler.go:82-146 | changes the books as that call does, returns a record exactly on success, and the record returned is the very one on the map; a rejected request leaves the map of records alone, a failed one leaves nothing under the ID |
| ProviderScheduler.Scheduler.Stop | internal/scheduler/scheduler.go:149-180 | reports whether the deployment was there, removes its record and charge, and leaves the record stopped |
| ProviderScheduler.Scheduler.Get | internal/scheduler/scheduler.go:183-193 | a copy of the record, exactly if there is one |
| ProviderScheduler.Scheduler.List | internal/scheduler/scheduler.go:196-206 | a copy of every record, each once, in some order |
| ProviderScheduler.Scheduler.StopAll | internal/scheduler/scheduler.go:225-236 | from balanced books, whatever order the snapshot is in: no error, an empty map and both totals zero |
| ProviderScheduler.StopEachEmpties | internal/scheduler/scheduler.go:229-233 | stopping every ID of a balanced map once, in any order, leaves no deployment and no charge, even when the sums had wrapped |
| ProviderScheduler.ReachableBooksDrain | internal/scheduler/scheduler.go:225-236 | so does stopping what is listed in any state that any interleaving can reach |
| PendingTable.StepEntryFits | cmd/gateway/main.go:311-372 | every step keeps each pending entry tied to a call in flight under that ID with an empty channel, save between the send and the delete |
| PendingTable.NeverBlocks | cmd/gateway/main.go:311-317 | in every interleaving, reused IDs included: the send under the mutex never blocks, the reader can act on what it holds, each pending channel is empty and that of exactly one call in flight |
| PendingTable.Drains | cmd/gateway/main.go:349-372 | once all calls have returned and the reader is out of its region the pending table is empty |
| Crosstalk.Invariant | internal/tunnel/client.go:242-299 | in every interleaving each request on the link is that of a call, and each response, on the link, held, in a channel or returned, was produced after a look that allows it |
| Crosstalk.TokensInvariant | internal/tunnel/client.go:231-299 | for every call, requests in transit plus looks taken are at most one and only after it was sent, and answers owed plus given are at most the looks |
| Crosstalk.AtMostOneResponse | internal/tunnel/client.go:242-299 | in every interleaving a request is looked up at most once and answered at most once |
| Crosstalk.LookupsAreTrue | internal/tunnel/client.go:243-245 | each recorded look is of the routes the provider had in the state in which that handler looked |
| Crosstalk.NoCrosstalk | cmd/gateway/main.go:349-372 | a `Request` call that returns a response gets one with its own request ID; if IDs are distinct it was produced for that very call, for its deployment, and is 404 if the routes seen lacked it and otherwise 500, 502 or from the container at the port seen |
| LinkProgress.EveryReplyIsEnabled | internal/tunnel/client.go:247-287 | a handler can give 404 if and only if it saw no route, and 500, 502 or the answer of the container at the port it saw if and only if it saw one |
| LinkProgress.RequestIsServed | cmd/gateway/main.go:349-372 | from any quiet state of a link a new call can return each of the replies that the provider's routes allow, under its own request ID, leaving nothing behind |
| LinkProgress.UnsentRequestReturns | cmd/gateway/main.go:356-361 | a call that cannot send returns without a response and leaves nothing behind |
| LinkProgress.RegistrationTakesEffect | internal/tunnel/client.go:110-138 | from any quiet state a registration can lead to a quiet state in which both ends have the route at its port and nothing else has changed |
| LinkProgress.UnregistrationTakesEffect | internal/tunnel/client.go:141-156 | the same for an unregistration, after which neither end has the route |
| LinkProgress.UnsentCallChangesNothing | internal/tunnel/client.go:126-128 | a registration or unregistration that cannot be sent changes nothing |
| LinkProgress.GatewayCanMove | cmd/gateway/main.go:268-372 | in every reachable state each call and the reader can do their next step as soon as the mutex is free, and it is free or about to be freed |
| LinkProgress.ProviderCanMove | internal/tunnel/client.go:197-245 | in every reachable state the provider can read the next message, look up every request and go on with every call |
| Crosstalk.LateResponseIsDropped | cmd/gateway/main.go:311-317 | with distinct IDs a response whose call has returned finds no entry, and acting on it changes nothing but the reader's hand |
| Crosstalk.ReusedIdCrosses | cmd/gateway/main.go:463-476 | for any request ID, two deployments, port and content there is a run in which the second call under the ID returns what the first one's container said |
| RequestIds.StepSingle | internal/tunnel/client.go:231-299 | when IDs are used again safely, every step keeps, for each call: request, handler, response on its way, response arrived are at most one in all and only after it was sent; what arrives is its own; an open call's ID leads to it |
| RequestIds.NoCrosstalkOnReuse | cmd/gateway/main.go:349-372 | in every interleaving in which a call begins only under an ID whose earlier calls have returned a response or could not be sent, a response that is returned was produced for that very call from a look that allows it |
| RequestIds.LateIsDroppedOnReuse | cmd/gateway/main.go:311-317 | and a response whose call has returned is dropped without a trace |
| RequestIds.DistinctIdsAreSafe | cmd/gateway/main.go:463-467 | every run with distinct IDs is such a run |
| RequestIds.ReuseAfterTimeoutCrosses | cmd/gateway/main.go:366-371 | for any ID, two deployments, port and content there is a run in which the first call has timed out and cleaned up before the second begins, and the second returns what was meant for the first |
| RouteReplay.StepAgrees | internal/tunnel/client.go:110-156 | every step keeps the agreement of the gateway's routes, once caught up, with the provider's, or with what a call between send and update is about to write |
| RouteReplay.ReplayGivesClientRoutes | internal/tunnel/client.go:110-156 | while the connection is served and overlapping calls for one deployment make the same of its route, acting on all undelivered messages gives the provider's routes, except where a call is between its send and its update, and there that call's target |
| RouteReplay.QuiescentRoutesEqual | cmd/gateway/main.go:284-309 | then, with nothing undelivered and no call in progress, the gateway's `Routes` equal the provider's `routes` |
| RouteReplay.OverlapDiverges | internal/tunnel/client.go:126-153 | for any two calls for one deployment there is a run in which they overlap and that ends, all quiet, with the provider holding what the first makes of the route and the gateway what the second does |
| RouteReplay.OverlapHarmlessIff | internal/tunnel/client.go:110-156 | two calls for one deployment, made any number of times and overlapping in any way, leave both ends with equal routes in every run that ends quiet if and only if they make the same of the route |
| TunnelSystem.ConnectionsRunAlone | cmd/gateway/main.go:244-266 | in every run of the gateway each connection's part is a run of a single link, so all link theorems hold of each connection |
| RouteIndex.StepBacked | cmd/gateway/main.go:284-329 | every step keeps each indexed route backed by a served connection that lists the deployment |
| RouteIndex.NoDanglingRoutes | cmd/gateway/main.go:385-390 | over any number of connections, with re-registration and foreign unregistration, what `GetTunnel` finds is a connection not cleaned up that lists the deployment in its own `Routes` |
| RouteIndex.StepIndexed | cmd/gateway/main.go:284-329 | if a deployment is used on one connection at a time, every step keeps whatever a served connection lists in the index, unless its reader is about to write it there |
| RouteIndex.StepAlone | cmd/gateway/main.go:284-309 | if a provider begins to use a deployment only when no other connection has to do with it, every step keeps it so that at most one has |
| RouteIndex.OwnersAreExclusive | cmd/gateway/main.go:284-309 | every run in which each deployment stays with one connection is such a run |
| RouteIndex.IndexIsUnion | cmd/gateway/main.go:284-329 | if each deployment is used on one connection at a time, `GetTunnel` finds a connection if and only if it is served and lists the deployment, at every moment but that between this connection's two writes for this deployment |
| RouteIndex.HostReachesConnection | cmd/gateway/main.go:405-423 | likewise, under the same hypothesis, for the host name: whatever else is in transit, a request for a deployment's host, on any port, is put on a connection if and only if that is served and lists the deployment |
| RouteIndex.RoutedUntilRemoved | cmd/gateway/main.go:284-329 | from the index write of a registration on, whatever all connections do, every request for the deployment's host is put on the registering connection until that connection unregisters it or is cleaned up |
| RouteIndex.HostReachesProvider | cmd/gateway/main.go:405-423 | on a served connection with nothing on its way to the gateway about this deployment and no call for it between send and update, its host leads there if and only if the provider behind it has a route for it |
| RouteIndex.SharedDeploymentLosesRoute | cmd/gateway/main.go:321-329 | for every deployment registered on two connections there is a run in which closing one leaves the other listing it while `GetTunnel` finds none |
| GatewayProgress.RegistrationIsRouted | cmd/gateway/main.go:284-302 | from any state of the gateway in which a connection is quiet its provider can register a deployment, after which `GetTunnel` finds that connection for it and everything else is as before |
| GatewayProgress.UnregistrationIsRouted | cmd/gateway/main.go:304-309 | the same for an unregistration, after which `GetTunnel` finds nothing for it |
| GatewayProgress.DisconnectDropsItsRoutes | cmd/gateway/main.go:321-329 | a connection that ends takes with it exactly the routes of the deployments it lists |
| EndToEnd.HostIsAnswered | cmd/gateway/main.go:405-495 | over any number of connections with safe reuse of request IDs: when `GetTunnel` finds a connection for a host and a call that later begins there returns a response, the connection listed the deployment, and at some moment after the call began a handler of its provider looked and the response is 404 if there was no route then and otherwise 500, 502 or from the container at that route's port |
| EndToEnd.LooksAreTrue | internal/tunnel/client.go:243-245 | over any number of connections each recorded look is of the routes that connection's provider had at a moment of the run |
| HostRouting.Index | cmd/gateway/main.go:499 | the position of the first occurrence, or -1 exactly when there is none |
| HostRouting.IndexOf | internal/tunnel/server.go:250-257 | the search loop finds the first occurrence or -1 |
| HostRouting.ExtractSubdomain | internal/tunnel/server.go:235-248 | cuts the port and then the base domain, as the reading that the comparison below is about |
| HostRouting.GatewayReadsIff | cmd/gateway/main.go:497-512 | the gateway reads an ID from a host if and only if the host is that ID, a dot and the base domain, perhaps with a colon and more behind, none of them has a colon, and the ID is not `www` |
| HostRouting.ReadingsAgree | cmd/gateway/main.go:497-512 | the gateway's and the tunnel server's versions agree on all hosts and base domains, except that the gateway makes `www` empty |
| HostRouting.HostRoundTrip | cmd/gateway/main.go:497-512 | a host built from a non-empty ID, a base domain and an optional port reads back as the ID if and only if it is not `www` and neither has a colon |
| TunnelClient.Client.constructor | internal/tunnel/client.go:73-83 | a client starts with no routes |
| TunnelClient.Client.Send | internal/tunnel/client.go:179-195 | one message is appended to the link, or none on failure |
| TunnelClient.Client.RegisterDeployment | internal/tunnel/client.go:110-138 | only when connected and sent: exactly the message goes out and the route is set; otherwise nothing changes |
| TunnelClient.Client.UnregisterDeployment | internal/tunnel/client.go:141-156 | without asking whether connected: if sent, the message goes out and the route is deleted; otherwise nothing changes |
| RequestHandler.Handler.constructor | internal/handler/handler.go:32-44 | a handler works on the scheduler, trust list and tunnel client it is given |
| RequestHandler.Handler.ConcludeDeploy | internal/handler/handler.go:98-127 | after scheduling: the panic on a short container ID, the route for an exposed port, the reply |
| RequestHandler.Handler.ScheduleFor | internal/handler/handler.go:87-96 | the scheduler's call changes the books of the provider and nothing else of it |
| RequestHandler.Handler.HandleDeploy | internal/handler/handler.go:55-128 | trust, first pull, scheduling for the remote peer, route and reply, in this order with the early exits, over the real scheduler, trust list and client objects |
| RequestHandler.Handler.HandleStop | internal/handler/handler.go:211-246 | the route goes first if the tunnel is up, then the deployment; the reply says whether it was there |
| RequestHandler.DeployAnswers | internal/handler/handler.go:71-102 | every answer to a deploy request and exactly when it is given, `NotTrusted`, `PullFailed`, each reason for not scheduling, the panic and success |
| RequestHandler.DeployedIsTrue | internal/handler/handler.go:106-127 | a successful answer carries the deployment's ID and docker's container ID, which are on record, running, with the request's image, limits and port and the peer as requester; it says exposed exactly if a port was asked for, the tunnel is up and the message was sent, and then the route is there at that port |
| RequestHandler.StopAnswers | internal/handler/handler.go:225-245 | a stop request finds exactly what is on record and takes that off; the route goes if the tunnel is up and takes the message, found or not; nothing else changes |
| RequestHandler.FailedDeployChangesNothing | internal/handler/handler.go:71-102 | a deploy request answered with an error leaves books, trust list and routes as they were |
| RequestHandler.PanicsIff | internal/handler/handler.go:104 | a deploy request ends the daemon if and only if it is trusted, pulled, admitted, valid and started in a container whose ID has fewer than 12 characters; it is then running on record without a route |
| RequestHandler.DeployKeepsRoutes | internal/handler/handler.go:106-117 | with tunnel up and sends succeeding, a deploy request keeps the routes those of the deployments that expose a port |
| RequestHandler.StopKeepsRoutesIff | internal/handler/handler.go:225-236 | a stop request keeps them so if and only if there was no route, or the tunnel was up and took the message |
| RequestHandler.RoutesFollowDeployments | internal/handler/handler.go:106-117 | over any run of deploy and stop requests with the tunnel up, the routes are exactly those of the registered deployments with an exposed port, at that port |
| RequestHandler.DeployAddsTrusted | internal/handler/handler.go:71-96 | a deployment that a request adds has the request's fresh ID and, as requester, the peer that was trusted |
| RequestHandler.RequesterStays | internal/handler/handler.go:87-96 | no request changes the requester of a deployment on record |
| RequestHandler.Traced | internal/handler/handler.go:71-96 | from any start, a deployment on record was there, with the same requester, or was added by a request of the run from a peer trusted in that state |
| RequestHandler.RequesterWasTrusted | internal/handler/handler.go:71-96 | over any run, whatever the tunnel does and however trust changes, each deployment's requester sent the deploy request that made it and was trusted when it was checked |
| HandlerRaces.HandlersCanProceed | internal/handler/handler.go:55-246 | in every state without a panic deploy handlers go on as soon as `Schedule` has returned, stop handlers begin at any time, and all do their next step at once |
| HandlerRaces.StepInv | internal/handler/handler.go:55-246 | every step of overlapping handlers keeps: a route is at its record's port; a lost deployment has no route and will get none, or was found by a disorderly stop |
| HandlerRaces.StaleOnlyIfHasty | internal/handler/handler.go:106-117 | in every interleaving a route is at the exposed port of a deployment on record, or of one found by a stop that began before the deploy request was answered or whose message was not sent |
| HandlerRaces.RoutesStayWithinExposures | internal/handler/handler.go:225-236 | if every stop that finds its deployment began after the deploy request was answered and was sent, every route names a deployment on record at the port it exposes, in every interleaving |
| HandlerExposure.RoutesEqualExposures | internal/handler/handler.go:106-117 | if moreover the tunnel is up and takes every message, then whenever all handlers have come to their end the routes are exactly those of the deployments on record that expose a port, at that port |
| HandlerRuns.RouteOutlivesDeployment | internal/handler/handler.go:106-117 | for every request that is admitted, can be run and exposes a port there is a run, with a stop between register message and route write, that ends with its route to a deployment that is gone |
| HandlerCrash.CrashIffLostUnfinished | internal/handler/handler.go:104 | with container IDs of 12 or more characters, in every reachable state in which a deploy handler is about to read the container ID, it panics if and only if its record has been released with none written to it; a `Stop` that had read none released it |
| HandlerCrash.CrashOnlyAfterEarlyStop | internal/handler/handler.go:104 | the deployment whose handler has panicked is itself one that was so released |
| HandlerCrash.NoCrashWhenStopsAreLate | internal/handler/handler.go:104 | if stop requests reach the scheduler only for deployments whose `Schedule` has returned, no handler panics in any interleaving |
| HandlerRuns.EarlyStopCrashes | internal/handler/handler.go:87-104 | for every request that is admitted and can be run there is a run, with a stop right after registration, in which its deploy handler panics |
| HandlerRuns.LateReleaseDoesNotCrash | internal/scheduler/scheduler.go:160-177 | for every such request there is a run in which a stop reads no container ID, releases after it was written, and the deploy handler is answered |
| TrustStore.FromListEntries | internal/p2p/trust.go:70-73 | what is loaded has the IDs of the list for keys, each record under its own ID and from the list |
| TrustStore.LastEntryIsLoaded | internal/p2p/trust.go:70-73 | of several entries with one ID the last is the one loaded |
| TrustStore.ListRoundTrip | internal/p2p/trust.go:70-73 | a map written as a list in any order is rebuilt by loading the list |
| TrustStore.TrustManager.constructor | internal/p2p/trust.go:42-47 | a new manager trusts nobody |
| TrustStore.TrustManager.Load | internal/p2p/trust.go:50-76 | the list in the file, later entries winning; a missing file or an unreadable one leaves the map alone, the latter with an error |
| TrustStore.TrustManager.SaveUnlocked | internal/p2p/trust.go:188-209 | the loop builds a list of every record, each once, and writes it, or fails |
| TrustStore.TrustManager.Add | internal/p2p/trust.go:110-129 | afterwards the peer has an entry with this name and these addresses, with the time given if it is new and its old time if not; all other entries are as before; the file is written |
| TrustStore.TrustManager.Remove | internal/p2p/trust.go:133-143 | an unknown peer is an error without a write; a known one is removed and the file written |
| TrustStore.TrustManager.IsTrusted | internal/p2p/trust.go:147-152 | whether the peer has an entry |
| TrustStore.FileAgreesWithMemory | internal/p2p/trust.go:50-143 | after a successful load and any calls, writes failing or not: records are under their own IDs, and if the last write succeeded a fresh load gives the same map |
| TrustStore.WritesSucceed | internal/p2p/trust.go:110-143 | when all writes succeed, either nothing has changed or the last write succeeded |
| TrustStore.SuccessfulWritesAgree | internal/p2p/trust.go:50-143 | when all writes succeed, a fresh load gives the map in memory after any calls |
| TrustStore.TrustedIff | internal/p2p/trust.go:110-152 | after any calls, writes failing or not, a peer is trusted if and only if it was added and not removed since, or was trusted before and not removed |
| TrustStore.TrustedAfterLoad | internal/p2p/trust.go:50-152 | so, after a load, exactly the peers in the file and those added, unless removed since |
| TrustStore.AddMeans | internal/p2p/trust.go:114-126 | in runs, too, an added peer shows the name and addresses given last and the time at which it was new |
| TrustStore.AddedAtIsKept | internal/p2p/trust.go:114-126 | over any calls that do not remove it, a peer keeps the time at which it was first added |
| Codec.U32RoundTrip | internal/protocol/codec.go:51 | every 32-bit length reads back from its four bytes |
| Codec.U32Onto | internal/protocol/codec.go:83 | every four bytes are those of the length they give |
| Codec.FrameLayout | internal/protocol/codec.go:41-58 | a frame is allowed up to 10485760 bytes of payload and is one byte of type, four of length, most significant first, and the payload |
| Codec.JsonLayout | internal/protocol/codec.go:249-254 | four bytes of length modulo 2^32 and the payload |
| Codec.DecodeAnswers | internal/protocol/codec.go:74-99 | every answer of `Decode`, exactly when it is given, and what it leaves of the stream |
| Codec.JsonAnswers | internal/protocol/codec.go:259-274 | the same for `ReadJSON` |
| Codec.Encoder.constructor | internal/protocol/codec.go:28-30 | nothing written yet |
| Codec.Encoder.Encode | internal/protocol/codec.go:33-61 | up to 10 MiB exactly the frame is appended; beyond that an error and nothing |
| Codec.Encoder.WriteJson | internal/protocol/codec.go:242-256 | length modulo 2^32 and payload are appended, whatever the size |
| Codec.Decoder.constructor | internal/protocol/codec.go:69-71 | the stream to read |
| Codec.Decoder.ReadFull | internal/protocol/codec.go:94 | exactly the bytes asked for, or an error that has drained the stream |
| Codec.Decoder.Decode | internal/protocol/codec.go:74-99 | the three reads give the result and leave the rest of the stream that the bijection below is about |
| Codec.Decoder.ReadJson | internal/protocol/codec.go:259-274 | likewise for the form without a type byte |
| Codec.DecodeIffEncoded | internal/protocol/codec.go:74-99 | a decode returns a frame and leaves a rest if and only if the stream is that frame's encoding, at most 10 MiB, and the rest |
| Codec.StreamRoundTrip | internal/protocol/codec.go:33-99 | any sequence of frames encodes to bytes that decode back to it with nothing left over |
| Codec.CleanStreamIsEncoding | internal/protocol/codec.go:33-99 | a stream that decodes to its end is the encoding of what it decodes to |
| Codec.CutStream | internal/protocol/codec.go:74-99 | a stream cut anywhere yields its complete frames and no other, then an error, which is the clean end exactly when the cut falls between frames |
| Codec.JsonRoundTripIff | internal/protocol/codec.go:242-277 | the 4-byte form reads back exactly up to 10 MiB and no further; every longer length up to 2^32 - 1 is rejected |
| Codec.JsonReads | internal/protocol/codec.go:249 | for payloads of any length: the reader goes by the length modulo 2^32, so beyond it a payload is cut or rejected |
| Signing.DigitsInjective | cmd/peerctl/deploy.go:264 | decimal printing of non-negative numbers is injective |
| Signing.DecimalInjective | cmd/peerctl/deploy.go:264 | so is that of signed ones |
| Signing.SplitFirst | cmd/peerctl/deploy.go:264-265 | a text splits at its first colon in one way |
| Signing.SplitLast | cmd/peerctl/deploy.go:264-271 | and at its last |
| Signing.PayloadUnique | cmd/peerctl/deploy.go:262-272 | with colon-free request and requester IDs and any number of colons in the image, two payloads are equal if and only if all seven printed fields are |
| Signing.ColonInRequestIdCollides | cmd/peerctl/deploy.go:264-272 | every request with a colon in its request ID has the payload of another request without one |
| Signing.NumberInRequesterIdCollides | cmd/peerctl/deploy.go:264-272 | every request whose requester ID starts with a number and a colon has the payload of another request |
| AmbiguousPayloads.CanonicalIff | cmd/peerctl/deploy.go:264 | a text is what `%d` prints of some `int64` if and only if it is digits without leading zero, with a minus if negative, and in range |
| AmbiguousPayloads.CollisionIffAmbiguous | cmd/peerctl/deploy.go:262-272 | for every request with a colon-free request ID: another request with both IDs colon-free has the same payload if and only if the requester ID has a colon and up to three segments before its last one are printed numbers |
| PayloadWindows.PayloadSegments | cmd/peerctl/deploy.go:264-272 | the payload is the seven fields in the source's order with a colon between each two |
| PayloadWindows.SameTextIffOtherWindow | cmd/peerctl/deploy.go:262-272 | for every request with a colon-free request ID: another one with a colon-free request ID, whatever its requester ID, has the same payload if and only if among the segments from image to requester ID three consecutive ones other than its own numbers are printed numbers with a segment before and after |
| PayloadWindows.SameTextIff | cmd/peerctl/deploy.go:262-272 | any other request at all has the same payload if and only if the request ID or the image has a colon or there is such a window |
| Environment.ParseEnvVars | cmd/peerctl/deploy.go:222-238 | the nested loops compute the last-wins fold over first-`=` splits, or its failure |
| Environment.ParseFailsIff | cmd/peerctl/deploy.go:229-231 | parsing fails if and only if some argument's first `=` is at index 0; parsed names are not empty and have no `=` |
| Environment.ParsedMeans | cmd/peerctl/deploy.go:224-236 | a name has a value if and only if some argument sets it so, split at its first `=`, and no later one sets it again |
| Environment.AcceptedIff | internal/runtime/docker.go:348-363 | refused are the empty name and `LD_PRELOAD`, `LD_LIBRARY_PATH` and `DOCKER_HOST` in whatever case their letters are, and no other |
| Environment.FlaggedMeans | internal/runtime/docker.go:172 | each value is preceded by `-e` |
| Environment.PrintedOnce | internal/runtime/docker.go:170-174 | as many values are printed as there are accepted variables, and each of those is among them as `KEY=VALUE` |
| Environment.IsValidEnvVar | internal/runtime/docker.go:347-364 | the search accepts exactly the non-empty names whose upper case is not one of the three blocked |
| Environment.EnvArgs | internal/runtime/docker.go:169-174 | the loop appends `-e KEY=VALUE` for exactly the accepted names, each once, in some order |
| Environment.PrintedParses | internal/runtime/docker.go:169-174 | if accepted names have no `=`, what any list of keys prints parses to the map restricted to the accepted ones |
| Environment.EnvRoundTripIff | internal/runtime/docker.go:169-174 | printing in any map order and parsing gives back exactly the accepted variables if and only if no accepted name has an `=` |
| Environment.CommandLineReachesContainer | cmd/peerctl/deploy.go:222-238 | whatever parses on the command line reaches `docker run`, in any order, as it was, but for the refused names |

## Left out

- Gateway and tunnel client loops as classes: `handleTunnelConn`, `Request` and `handleMessages` run concurrently with
  each other, so they are steps of a state machine on values; update in place, aliasing of messages and data races in
  Go's memory model (the unlocked reads of `Routes` by its own goroutine, say) are not captured.
- Data races in `Stop`: `ContainerID` is read twice without the lock (`internal/scheduler/scheduler.go:160-161`); the
  model reads it once.
- ProviderScheduler.Scheduler.StopAll: no other call runs beside it, because methods of the class run to completion;
  overlapping calls are the subject of the concurrent model.
- RequestHandler.Handler.HandleDeploy: one request at a time, for a request that could be read; one that cannot be read
  changes nothing, and the text of replies is not modelled. Overlapping handlers are a state machine on values, of
  which only the provider's own routes are followed, not the messages to the gateway.
- A panic in a handler is taken to end the daemon, as it does in a goroutine that nobody recovers; what libp2p does
  around a stream handler is not part of this model.
- ProviderScheduler.Scheduler.Stop: errors of the container runtime, because `Runtime.Stop` never returns one.
- TunnelClient.Client.constructor: connecting, reconnecting, heartbeat and `Close`; whether the client is connected is a
  field that the handlers read.
- Environment.IsValidEnvVar: upper case is spelled out for the characters that map into A-Z, `strings.ToUpper` on all
  others being taken as not doing so; names are sequences of characters, not of UTF-8 bytes.
- TrustStore.TrustManager.Load: a `null` entry in the file, which would make the source panic; JSON text is taken to
  hold records exactly.
- Environment variables in a deploy request: they are modelled on their own and are no field of the request.
- Start and stop times of deployments, log output, error texts and URLs.
- JSON text: marshalled messages are opaque bytes (framed form) or values (tunnel messages and trust file).
- Write errors of `Encode` and `WriteJSON`: the stream takes what is written.
- HTTP contents: first header values only and a nil request body in the source; replies are opaque here.
- Malformed tunnel messages: both ends log and skip them.
- Blocking socket writes and bounded buffers: links are unbounded FIFO queues, and a send either puts its message on
  the link or fails and puts nothing there.
- Wall-clock time: a timeout can happen whenever a call waits.
- The gateway's `tunnels` map by peer ID: only `Close` uses it.
- The tunnel server of `internal/tunnel/server.go` beyond its host parser: its map is never filled and its forwarding
  is a stub.
- libp2p host, connection gater, mDNS, Noise; peer IDs are their string form.
- Ed25519, SHA-256, key files, identity and `VerifyDeployRequest`.
- `SecurityPolicy`, `ValidateTimestamp`, `parseCPU`, `parseMemory`: single checks or floating point.
- Logs, status and list requests, `ListByRequester`, `ResourceUsage`: they only read.
- The command line, `internal/client`, TLS and ACME.
