# snmp-proxy: a verified model

snmp-proxy is a gateway. It answers HTTP queries by running SNMP operations against many targets with
bounded parallelism, and it forwards SNMP traps it receives to webhooks chosen by a route file. This
project models the deciding core of `internal/gateway` and proves what it promises.

- **Routing** (`TrapRouter`, over `Cidr`, `StableSort`). The loader appends routes and sorts them stably
  with a comparator that never looks at a network; the lookup takes the first match. Proved to be the
  longest-prefix rule with the trap-OID tie-break, over Go's `ParseCIDR`/`Contains` on address bits.
- **The trap service** (`TrapPipeline`, over `TrapPacket`, `Retry`, `Stats`; what holds of it is in
  `TrapInvariants`, `TrapDelivery`, `TrapAnswers`, `TrapShutdown` and `TrapAccounting`). A state machine of the
  reader, the bounded queue, W workers, retries with backoff, and the shutdown; every channel operation
  and every statistics call is one atomic step, every answer of the surroundings is arbitrary, and the
  theorems range over all reachable states or all runs.
- **Queries** (`QueryScheduler`, `QueryTiming`, over `Validation`, `Executor`). The goroutine-per-target
  scheduler as a state machine, first untimed, then with a clock; the validator as methods that change
  request records in place; the executor that relies on what the validator established.
- **Text** (`Text`, `Oid`, `Config`). The OID pattern and its normal form, the SNMPv1 trap OIDs of
  section 3.1 of RFC 3584, and the comma-separated settings.

Code that changes state in the original is a class or a loop here, proved against a function; what the
gateway promises is then proved about that function.

## Where the code and its documentation differ

The model follows the code. Each difference has a lemma that says exactly when it shows, and a concrete
input for which it does.

- *Most specific route.* The gateway documents that the longest prefix wins. An IPv4-mapped CIDR such as
  `::ffff:0.0.0.0/96` counts 96 bits but denotes an IPv4 network of length 0, so it is chosen over
  `0.0.0.0/1` (`TrapRouter.MappedCidrBeatsLongerPlainOne`). The chosen network is the most specific one
  exactly when no mapped rule hides a longer plain one (`TrapRouter.ChoiceIsMostSpecificExactlyWhen`).
- *Trap-OID tie-break.* For the same CIDR a rule with the trap OID is documented to win. A network written
  plainly with the OID loses to the same network written as IPv4-mapped without it
  (`TrapRouter.OidWinsTieExactlyWhen`, `TrapRouter.MappedGenericBeatsPlainOid`).
- *Timeout.* The request format promises a timeout greater than 0. A configured default below one millisecond
  truncates to 0 (`Validation.TimeoutIsPositiveExactlyWhen`,
  `Validation.SubMillisecondDefaultGivesZeroTimeout`).
- *Routing OID and payload OID.* Routing takes the first `snmpTrapOID.0` as decoded, the payload the last
  one after octets became text, and a v1 packet routes by its native fields only
  (`TrapPacket.RoutingAgreesWithPayloadExactlyWhen`, `TrapPacket.TwoTrapOidsDisagree`,
  `TrapPacket.OctetsDisagree`).
- *SNMPv1 trap OIDs.* A negative specific code prints an OID the gateway's own pattern rejects
  (`TrapPacket.V1TrapOidIsNormalExactlyWhen`, `TrapPacket.NegativeSpecificPrintsNoOid`).
- *Backoff.* The configuration puts no upper bound on retries; the delay wraps around in 64 bits from
  retry 38 on (`Retry.BackoffIsExactExactlyWhen`, `Retry.LastOf38DelaysIsNegative`).

## Model

| member | source | states |
|---|---|---|
| `TrapRouter.Router.constructor` | internal/gateway/traps.go:57 | a new router has no routes and the given default |
| `TrapRouter.Router.AppendRoutes` | internal/gateway/traps.go:71-90 | fails exactly when some entry is invalid, with the first invalid entry's error; otherwise one route per entry, in file order, with the entry's own CIDR text, target, network, prefix length and trap OID |
| `TrapRouter.Router.SortRoutes` | internal/gateway/traps.go:91-96 | the list becomes its stable arrangement under the comparator |
| `TrapRouter.Router.Load` | internal/gateway/traps.go:51-98 | succeeds exactly when the default target is valid and the route file is unset, or readable, decodable and valid throughout; each failure has its own error; every lookup in a loaded router answers with the target and CIDR text of the file entry that the longest-prefix rule chooses, or the default |
| `TrapRouter.Router.Match` | internal/gateway/traps.go:100-110 | the answer is the lookup that `TrapRouter.RoutingRefinement` proves to be the declarative choice |
| `TrapRouter.RoutesGrow` | internal/gateway/traps.go:71-90 | a valid entry extends the loaded prefix of the file by its own route, which says what the entry says |
| `TrapRouter.EntryErrorMeans` | internal/gateway/traps.go:72-87 | each error is reported exactly when its check, and none before it, fails: white-space fields, unparsed CIDR, unusable URL, trap OID outside the pattern |
| `TrapRouter.ParseEntry` | internal/gateway/traps.go:82-89 | the parsed entry keeps CIDR text, target and prefix in their places, and spells the entry's trap OID with a leading dot |
| `TrapRouter.SortedRoutesAnswerByFile` | internal/gateway/traps.go:71-110 | over the file's entries alone: the sorted routes answer by longest parsed prefix, then trap OID, then file order, among entries whose network holds the sender and whose trap OID is empty or the trap's |
| `TrapRouter.RouteLessIsStrictWeakOrder` | internal/gateway/traps.go:91-96 | the comparator is a strict weak order, so the sort is well defined |
| `TrapRouter.ScanAfterInsert` | internal/gateway/traps.go:91-110 | adding a route to a sorted list changes the first match exactly when it accepts and is strictly less than the old match |
| `TrapRouter.FirstMatchIsBest` | internal/gateway/traps.go:91-110 | for every rule list, address and OID the first match over the sorted list is the best eligible rule's route, and there is none exactly when no rule is eligible |
| `TrapRouter.BestIsUnique` | internal/gateway/traps.go:91-110 | longest prefix, then OID-specific, then earliest in the file picks at most one rule |
| `TrapRouter.RoutingRefinement` | internal/gateway/traps.go:91-110 | every lookup answers with the best eligible rule, and with the default target exactly when no rule is eligible |
| `TrapRouter.ChoiceIsMostSpecificExactlyWhen` | internal/gateway/traps.go:91-110 | the chosen network lies inside every other matching network if and only if no IPv4-mapped rule hides a longer plain one; for the same network written in the same family a rule with the trap OID beats a generic one |
| `TrapRouter.OidWinsTieExactlyWhen` | internal/gateway/traps.go:91-110 | for the chosen network, however written, a rule with the trap OID beats a generic one if and only if no generic IPv4-mapped rule, unsurpassed among the matching mapped ones, shares its network with a matching plain rule that has the OID |
| `TrapRouter.MappedGenericBeatsPlainOid` | internal/gateway/traps.go:88-96 | the concrete route file, sender and OID for which the tie-break fails |
| `TrapRouter.MappedCidrBeatsLongerPlainOne` | internal/gateway/traps.go:88-96 | the concrete route file and sender for which the documented rule fails |
| `TrapRouter.FileOrderMattersOnlyForTwins` | internal/gateway/traps.go:91-110 | any permutation of the rules gives the same choice up to rules with identical network and OID |
| `Cidr.ContainsIsPrefixMatch` | internal/gateway/traps.go:102 | the masked comparison of the network test is prefix membership, for both families and IPv4-mapped networks |
| `Cidr.To4IsExplicit` | internal/gateway/traps.go:102 | an address is IPv4 when it has 32 bits, or 128 that start with 80 zeros and 16 ones |
| `Cidr.MaskOnesOfMask` | internal/gateway/traps.go:88 | the mask size is the prefix length that was written |
| `Cidr.SharedAddressNests` | internal/gateway/traps.go:91-103 | networks that contain a common address are nested, and equal when their lengths are |
| `Cidr.BlockOfIsWellFormed` | internal/gateway/traps.go:75-88 | every network is a prefix of one family, shorter by the mapped 96 bits if it is IPv4-mapped |
| `Cidr.InsideIsInclusion` | internal/gateway/traps.go:91-103 | nesting of prefixes is inclusion of address sets |
| `Cidr.SamePrefixSameNetwork` | internal/gateway/traps.go:75-88 | width, length and kept bits determine the network |
| `StableSort.SortIsStable` | internal/gateway/traps.go:91 | the sort's result is sorted, a permutation, and keeps equivalent elements in order |
| `StableSort.StableSortIsUnique` | internal/gateway/traps.go:91 | an arrangement is stably sorted if and only if it is the sort's result, so any stable algorithm produces it |
| `StableSort.SortInPlace` | internal/gateway/traps.go:91 | the array ends up as the sort of its old contents |
| `TrapAccounting.StatisticsFollowEveryRun` | internal/gateway/stats.go:61-151 | after every run of the service, however query calls are mixed in, the shared counters are consistent and equal the service's own: matched = decoded, forwarded and failed = sums of the route maps, and each route's counts are its logged deliveries, and its logged failures plus drops |
| `TrapAccounting.EveryReachableStateHasItsStatistics` | internal/gateway/stats.go:99-151 | every reachable state of the service has a sequence of record calls whose counters agree with it for every route |
| `TrapInvariants.InvStep` | internal/gateway/traps.go:254-506 | every step of reader, worker or shutdown keeps the invariant of the whole service |
| `TrapInvariants.ReachableInv` | internal/gateway/traps.go:231-506 | the invariant holds after every run from a fresh start |
| `TrapDelivery.TrapsAreConserved` | internal/gateway/traps.go:284-339 | in every reachable state received = rejected + unmatched + decoded + (0 or 1), decoded = queued + drops + (0 or 1), jobs sent = queue + in hand + delivered + failed + abandoned, and the counters equal the history |
| `TrapDelivery.OffersFollowArrival` | internal/gateway/traps.go:284-335 | jobs are offered to the queue in the order their packets arrived |
| `TrapDelivery.DispatchIsFifoAndExactlyOnce` | internal/gateway/traps.go:329-335 | dequeued jobs followed by the queue are the accepted jobs in order; each dequeued job is in one worker's hands or once in the log; the queue keeps its capacity, and a drop happens only when it is full |
| `TrapDelivery.OutcomesFollowTheRule` | internal/gateway/traps.go:461-506 | every logged outcome is the one its status codes demand: no reply exactly when the payload cannot be encoded; all replies but the last are network failures, 429 or 5xx; delivered exactly when the last is a 2xx; failed on a retryable one only when attempts are used up; abandoned only between attempts |
| `TrapDelivery.LogAgreesWithForwarding` | internal/gateway/traps.go:461-506 | in every reachable state, the logged outcome of each job, with its posts and recorded retries, is that of one uninterrupted forwarding of it |
| `TrapDelivery.OneWorkerKeepsOrder` | internal/gateway/traps.go:454-459 | with one worker, outcomes come in the order of acceptance |
| `TrapDelivery.EveryOutcomeFollowsTheRoutes` | internal/gateway/traps.go:304-339 | end to end over the route file: each outcome is for the target and payload that the longest-prefix rule, or the default, gives to a packet that arrived and was admitted |
| `TrapShutdown.ShutdownIsClean` | internal/gateway/traps.go:254-302 | no run sends on the closed queue; when Close has returned the queue is empty and all have left; if it returned nil, nothing was abandoned and received = rejected + unmatched + forwarded + failed |
| `TrapShutdown.EveryTrapHasOneFate` | internal/gateway/traps.go:254-302 | when Close has returned, the accepted traps are exactly the logged ones plus the dropped ones |
| `TrapAnswers.ExactlyAcceptedInformsAreAnswered` | internal/gateway/traps.go:304-339 | in every reachable state the datagrams answered are exactly the accepted informs the reader is done with, in order of arrival |
| `TrapShutdown.EveryStepMakesProgress` | internal/gateway/traps.go:254-278 | once the socket is closed, every step of anybody lowers the measure |
| `TrapShutdown.SomebodyCanMove` | internal/gateway/traps.go:254-278 | until Close returns, some step other than the deadline is enabled |
| `TrapShutdown.ShutdownAlwaysEnds` | internal/gateway/traps.go:254-278 | every run after closing the socket is bounded; a run that cannot go on has returned from Close, with nil when no deadline cut in |
| `Retry.Attempt` | internal/gateway/traps.go:467-505 | outcome, posts, recorded retries and total sleep of the attempt loop, against arbitrary replies and cancellations |
| `Retry.Forward` | internal/gateway/traps.go:461-506 | exactly one success or failure is recorded per job for its route, unless it is abandoned, which records only its retries; a payload that cannot be encoded fails without a post |
| `Retry.ForwardingRule` | internal/gateway/traps.go:467-506 | without cancellation success is recorded if and only if some reply among the first R+1 is a 2xx and all before it are network failures, 429 or 5xx; a job fails after one post if and only if its first reply has another status, or there is no retry; 1 to R+1 posts; retries = posts - 1, or = posts when abandoned |
| `Retry.Judge` | internal/gateway/traps.go:480-494 | 2xx is a success; network failures, 429 and 5xx are worth another attempt; everything else is final |
| `Retry.FirstDecisive` | internal/gateway/traps.go:469-505 | the loop's end: all earlier replies are network failures, 429 or 5xx, this one is not |
| `Retry.DelayIsExactExactlyWhen` | internal/gateway/traps.go:497 | the delay equals 2^attempt * 100 ms in int64 if and only if attempt <= 36 |
| `Retry.BackoffIsExactExactlyWhen` | internal/gateway/traps.go:495-497 | no delay of a service with R retries wraps if and only if R <= 37 |
| `Retry.LastOf38DelaysIsNegative` | internal/gateway/traps.go:497 | with 38 retries the last delay is negative |
| `Retry.TotalDelayIsGeometric` | internal/gateway/traps.go:495-499 | n <= 37 waits add up to (2^n - 1) * 100 ms |
| `Retry.BackoffFollowsRetries` | internal/gateway/traps.go:467-506 | for R <= 37 the completed waits of a job add up to (2^n - 1) * 100 ms for its n recorded retries, less the one that was cut short when it was abandoned |
| `TrapPacket.ExtractTrapOid` | internal/gateway/traps.go:410-420 | the early-return scan gives the OID of the first variable of that name |
| `TrapPacket.BuildTrapPayload` | internal/gateway/traps.go:381-408 | never fails, and the last-write-wins loop gives the payload that `TrapPacket.PayloadIsExplicit` spells out |
| `TrapPacket.PayloadIsExplicit` | internal/gateway/traps.go:386-408 | receipt time, sender, version name, inform flag, CIDR, every variable, and the OID and uptime of the last variables under 1.3.6.1.6.3.1.1.4.1.0 and 1.3.6.1.2.1.1.3.0, for v1 else the native ones |
| `TrapPacket.RoutingOidIsExplicit` | internal/gateway/traps.go:410-420 | a v1 packet routes by its native OID, any other by the OID its first variable under 1.3.6.1.6.3.1.1.4.1.0 spells, or none |
| `TrapPacket.RoutingAgreesWithPayloadExactlyWhen` | internal/gateway/traps.go:381-420 | routing OID = payload OID if and only if the first and last such variable, or the native v1 fields and the last one, spell the same numbers |
| `TrapPacket.SingleTrapOidDiffersExactlyForOctets` | internal/gateway/traps.go:399-420 | with one such variable in a v2c/v3 packet they differ exactly for octets that spell an OID |
| `TrapPacket.UsualPacketsRouteByPayloadOid` | internal/gateway/traps.go:381-420 | at most one such variable, no raw bytes, none in v1: routed by the OID in the payload |
| `TrapPacket.TwoTrapOidsDisagree` | internal/gateway/traps.go:399-420 | a packet with linkDown and linkUp under that name, routed by the first and forwarded with the second |
| `TrapPacket.OctetsDisagree` | internal/gateway/traps.go:399-420 | a packet whose octets spell linkDown, routed without and forwarded with it |
| `TrapPacket.V1TrapOidPrintsNumbers` | internal/gateway/traps.go:422-434 | a v1 trap OID is the print of the enterprise's numbers, 0 and the specific code, or of the generic trap's numbers |
| `TrapPacket.V1TrapOidIsExplicit` | internal/gateway/traps.go:422-434 | generic traps 0 to 5 are 1.3.6.1.6.3.1.1.5.1 to .6, an enterprise's are its numbers, 0 and the specific code; any other trap has none |
| `TrapPacket.V1TrapOidIsNormalExactlyWhen` | internal/gateway/traps.go:422-434 | empty or a valid normalised OID, except exactly for a valid enterprise with a negative specific code |
| `TrapPacket.NegativeSpecificPrintsNoOid` | internal/gateway/traps.go:426-430 | a vendor's packet for which it is not a valid OID |
| `TrapPacket.V1TrapOidInjective` | internal/gateway/traps.go:422-434 | generic code, normalised enterprise and specific code are recovered, and the two kinds never collide |
| `TrapPacket.RejectedExactlyWhen` | internal/gateway/traps.go:294-326 | a datagram is rejected if and only if it does not decode, its version and PDU type are not one of the five accepted pairs, or it is v1 or v2c with a community outside a non-empty allowlist |
| `TrapPacket.CheckCommunity` | internal/gateway/traps.go:369-379 | the loop allows a community exactly when the allowlist is empty or holds it |
| `TrapPacket.AcceptedJobsFollowTheRules` | internal/gateway/traps.go:304-335 | an admitted packet becomes the job of the best rule, of the default target, or is unmatched |
| `TrapPacket.AcceptedJobsFollowTheFile` | internal/gateway/traps.go:304-335 | the same over the route file's entries, with the target and the whole payload spelled out |
| `QueryScheduler.ParallelismIsBounded` | internal/gateway/server.go:123-133 | targets inside Execute <= tokens held <= MaxParallelTargets in every reachable state |
| `QueryScheduler.SlotsAreOwned` | internal/gateway/server.go:134-141 | only goroutine k writes slot k, and a written slot never changes |
| `QueryScheduler.ResponseIsComplete` | internal/gateway/server.go:121-146 | when execute returns every slot was written exactly once, with its own target's answer or, only under cancellation, what an interrupted execution returned or its refusal; without cancellation the response does not depend on the schedule |
| `QueryScheduler.EveryStepMakesProgress` | internal/gateway/server.go:125-144 | every step lowers a measure |
| `QueryScheduler.SomebodyCanMove` | internal/gateway/server.go:125-144 | no deadlock: until execute returns, a step other than a cancel is enabled |
| `QueryScheduler.EveryRunEnds` | internal/gateway/server.go:121-146 | at most 6n + 2 steps, and a run that cannot go on has returned |
| `QueryScheduler.AnswersAreWellShaped` | internal/gateway/server.go:134-141 | for every target of an accepted query and every behaviour of the network, executing it, interrupted or not, does not panic; its answers tell what became of each operation, and its refusal refuses all |
| `QueryScheduler.ValidatedResponseShapeAndSize` | internal/gateway/server.go:95-106 | for every accepted query, schedule, cancellation and network: one result per request in order, with its target and normalised port; one well-shaped result per operation; without cancellation an operation is ok if and only if it was answered in full within the limit, and none finds the request canceled; refusals and interrupted answers only in a canceled query; at most targets * operations * varbinds variables |
| `QueryScheduler.HasFailures` | internal/gateway/server.go:201-210 | true if and only if some operation's status is "error" |
| `QueryTiming.WaitingIsWorking` | internal/gateway/server.go:130-132 | while time passes somebody executes, and all tokens are in use unless everyone has started |
| `QueryTiming.BatchesFinishOnTime` | internal/gateway/server.go:123-144 | by time m * B at least min(n, m * P) targets are finished |
| `QueryTiming.ExecuteMeetsItsDeadline` | internal/gateway/server.go:123-144 | the clock of an unfinished or finished execute never passes ceil(n / P) * B |
| `QueryTiming.ValidatedQueryMeetsItsDeadline` | internal/gateway/server.go:121-146 | for a validated query: at most MaxParallelTargets inside Execute, and done within ceil(n / MaxParallelTargets) * B |
| `QueryTiming.TimeOrWork` | internal/gateway/server.go:123-144 | until execute returns, a step is enabled or time may pass |
| `QueryTiming.EveryTimedRunEnds` | internal/gateway/server.go:121-146 | every timed run is finite, and one that cannot go on has returned |
| `Validation.OperationRecord.constructor` | internal/gateway/models.go:29-35 | a record with the given fields and OID array |
| `Validation.OperationRecord.Validate` | internal/gateway/validation.go:140-174 | the verdict and the resulting record are those of the checks in order |
| `Validation.ValidateOids` | internal/gateway/validation.go:176-190 | the OIDs before the first invalid one are normalised in place, all of them when accepted |
| `Validation.TargetRecord.constructor` | internal/gateway/models.go:7-16 | a record with the target's fields and its operations |
| `Validation.TargetRecord.ValidateHeader` | internal/gateway/validation.go:20-68 | the header checks and defaults, interleaved as in the source |
| `Validation.TargetRecord.ValidateOperation` | internal/gateway/validation.go:73 | one operation is checked and normalised, the others keep their values |
| `Validation.TargetRecord.ValidateOperations` | internal/gateway/validation.go:69-76 | the first bad operation stops the loop; earlier ones are normal, later ones untouched |
| `Validation.TargetRecord.Validate` | internal/gateway/validation.go:18-77 | verdict and new state of one target |
| `Validation.QueryRecord.ValidateTarget` | internal/gateway/validation.go:18-77 | one target is validated in place, the others keep their values |
| `Validation.QueryRecord.ValidateQuery` | internal/gateway/validation.go:11-79 | verdict and new state of the whole request |
| `Validation.V3CheckMeansAcceptable` | internal/gateway/validation.go:81-120 | credentials pass if and only if they fit their security level |
| `Validation.OpCheckMeansAcceptable` | internal/gateway/validation.go:140-174 | an operation passes if and only if it is acceptable, and is then normalised |
| `Validation.HeaderCheckMeansAcceptable` | internal/gateway/validation.go:20-68 | a target's own fields pass if and only if they are acceptable, and then carry every default |
| `Validation.TargetCheckMeansAcceptable` | internal/gateway/validation.go:18-77 | a target passes if and only if it is acceptable; a blamed operation is the first unacceptable one |
| `Validation.QueryCheckMeansAcceptable` | internal/gateway/validation.go:11-79 | a query passes if and only if it is acceptable, and becomes its normal form; a rejection names the first bad target, with earlier targets normalised and later ones untouched |
| `Validation.V3FaultIsTheFirst` | internal/gateway/validation.go:81-120 | the fault reported is the first, in the order of the checks, that the credentials violate |
| `Validation.OpFaultIsTheFirst` | internal/gateway/validation.go:140-190 | the fault reported is the first that the operation violates, down to the first OID outside the pattern |
| `Validation.TargetFaultIsTheFirst` | internal/gateway/validation.go:18-77 | the fault reported is the first that the target violates, down to its first bad operation |
| `Validation.QueryFaultMeans` | internal/gateway/validation.go:12-17 | no requests, and too many, are reported exactly when there are |
| `Validation.NormalOpIsExplicit` | internal/gateway/validation.go:140-174 | normalising keeps kind and numbers, dots every OID, and gives getbulk and only it its repetitions |
| `Validation.NormalTargetIsExplicit` | internal/gateway/validation.go:23-59 | an accepted target keeps what it says; port 161, version 2c, the configured retries and the whole milliseconds of the configured timeout stand where it says nothing |
| `Validation.NormalTargetIsFixed` | internal/gateway/validation.go:18-77 | the normal form is acceptable and its own normal form |
| `Validation.ValidationIsIdempotent` | internal/gateway/validation.go:11-79 | validating an accepted query again accepts it and changes nothing |
| `Validation.TimeoutIsPositiveExactlyWhen` | internal/gateway/validation.go:50-55 | the timeout used is greater than 0 if and only if the request sets one or the default reaches a millisecond |
| `Validation.SubMillisecondDefaultGivesZeroTimeout` | internal/gateway/validation.go:53-55 | the concrete request and default for which it is 0 |
| `Executor.ExecuteOperation` | internal/gateway/executor.go:137-181 | all converted variables of the reply or none, with the limit applied per branch |
| `Executor.WalkAgreesWithBatchExactlyWhen` | internal/gateway/executor.go:161-198 | the streaming limit accepts what the batch limit accepts, with the same values, if and only if the limit is not negative or something came back |
| `Executor.ErrorResults` | internal/gateway/executor.go:215-222 | one error result per operation, in order, without values |
| `Executor.Execute` | internal/gateway/executor.go:22-55 | panics exactly when a nil pointer is reached; otherwise one result per operation, in order, each decided by its own reply and cancellation only |
| `Executor.ValidatedClientIsFaithful` | internal/gateway/executor.go:57-86 | for an accepted target no pointer is nil, the port survives uint16, and version, community, retries and every credential arrive unchanged, with flags that announce the protocols |
| `Executor.ProtocolsAreNamed` | internal/gateway/executor.go:99-135 | the algorithm chosen for an accepted name is the one of that name |
| `Executor.ProtocolNamesAreTheAlgorithms` | internal/gateway/validation.go:122-138 | the names the validator accepts are exactly those of the algorithms the client can build |
| `Executor.UnknownKindsFail` | internal/gateway/executor.go:178-180 | an operation of any other kind is an SNMP error |
| `Executor.FlagsAnnounceProtocols` | internal/gateway/executor.go:88-135 | the message flags ask for authentication and privacy exactly when a protocol and a passphrase are there |
| `Executor.ValidatedOperationsDispatch` | internal/gateway/executor.go:137-181 | an accepted operation never reaches the default branch, and getbulk has its repetitions |
| `Executor.ValidatedExecution` | internal/gateway/executor.go:22-55 | executing a validated target never panics and gives one well-shaped result per requested operation: ok, reporting all that the agent sent, if and only if connected, not canceled, answered without failure and within the limit; otherwise the error, by its literal code, that stood in the way |
| `Executor.ExecuteValidated` | internal/gateway/executor.go:22-55 | the executing method gives those results for the normal form of a validated target |
| `Snmp.ConvertSingle` | internal/gateway/executor.go:200-213 | a variable is reported under its own numbers with a leading dot, with its type, and with its value, octets as text |
| `Snmp.ConvertPdu` | internal/gateway/executor.go:185-198 | every variable reported in order, or none exactly when there are more than the limit |
| `Snmp.WalkConvert` | internal/gateway/executor.go:162-177 | the callback's limit, as one outcome of the whole walk: every variable reported in order, or none |
| `Stats.Stats.constructor` | internal/gateway/stats.go:12-35 | all counters are zero |
| `Stats.Stats.Tally` | internal/gateway/stats.go:66-77 | the nested loop counts the operations with status "ok" and the others |
| `Stats.Stats.AddLoad` | internal/gateway/stats.go:64-67 | one more query, its targets and its latency; nothing else changes |
| `Stats.Stats.AddOperations` | internal/gateway/stats.go:69-79 | the operation counters grow by the given amounts; nothing else changes |
| `Stats.Stats.Classify` | internal/gateway/stats.go:80-87 | exactly one of successful, fully failed, partially failed grows |
| `Stats.Stats.Record` | internal/gateway/stats.go:61-88 | the effect of one query on all counters |
| `Stats.Stats.RecordTrapReceived` | internal/gateway/stats.go:99-103 | received grows by one; nothing else changes |
| `Stats.Stats.RecordTrapDecoded` | internal/gateway/stats.go:105-110 | decoded and matched grow together |
| `Stats.Stats.RecordTrapRejected` | internal/gateway/stats.go:112-116 | rejected grows by one; nothing else changes |
| `Stats.Stats.RecordTrapUnmatched` | internal/gateway/stats.go:118-122 | unmatched grows by one; nothing else changes |
| `Stats.Stats.RecordTrapQueued` | internal/gateway/stats.go:124-128 | queued grows by one; nothing else changes |
| `Stats.Stats.RecordTrapRetry` | internal/gateway/stats.go:130-134 | retries grow by one; nothing else changes |
| `Stats.Stats.RecordTrapForwardSuccess` | internal/gateway/stats.go:136-143 | forwarded, the route's successes and the latency grow together |
| `Stats.Stats.RecordTrapForwardFailure` | internal/gateway/stats.go:145-151 | failed and the route's failures grow together |
| `Stats.Stats.Snapshot` | internal/gateway/stats.go:153-179 | the snapshot equals the state |
| `Stats.CopyCounts` | internal/gateway/stats.go:181-187 | the copy is equal, whatever order the map is visited in |
| `Stats.EveryRecordKeepsConsistent` | internal/gateway/stats.go:61-151 | total = success + partial + full, operations = successes + failures, matched = decoded, forwarded and failed = sums of the route maps, kept by every call |
| `Stats.EverySnapshotIsConsistent` | internal/gateway/stats.go:61-179 | these equations hold after any sequence of calls, and each route's counts are the calls made for it |
| `Stats.QueriesAreClassified` | internal/gateway/stats.go:61-88 | a query counts as successful when every operation is ok, as failed when none is, else as partially failed; targets and latencies are sums over the calls |
| `Stats.MergeRouteKeys` | internal/gateway/stats.go:226-239 | every key of both maps once, strictly ascending |
| `Stats.TextLessMeans` | internal/gateway/stats.go:237 | ascending means a proper prefix first, else by the first difference |
| `Stats.ListingIsUnique` | internal/gateway/stats.go:226-239 | there is one such listing, so map order never shows |
| `Stats.RouteLines` | internal/gateway/stats.go:219-222 | a success and a failure line for each listed route |
| `Stats.LinesAt` | internal/gateway/stats.go:219-222 | lines 2i and 2i+1 are the successes and the failures of route i, 0 where it has none |
| `Stats.PrintedLinesAddUp` | internal/gateway/stats.go:219-222 | the printed lines add up to the two forwarding totals |
| `Oid.RecogniserIsThePattern` | internal/gateway/validation.go:9 | the one-pass recogniser accepts exactly the words of the regular expression |
| `Text.DigitsAreTen` | internal/gateway/validation.go:9 | a digit of the pattern is one of the ten ASCII digits |
| `Oid.ValidMeansNumbers` | internal/gateway/validation.go:192-194 | valid if and only if every dot-separated component is a digit run |
| `Oid.NormalizePrintsComponents` | internal/gateway/validation.go:196-201 | normalising is printing the parsed components, and keeps them |
| `Oid.NormalizeKeepsValidity` | internal/gateway/validation.go:192-201 | normalising is idempotent and keeps and reflects validity |
| `Oid.NormalizeIdentifies` | internal/gateway/validation.go:196-201 | two texts normalise alike if and only if their components are spelled alike |
| `Oid.PrintThenParse` | internal/gateway/validation.go:9-201 | parsing a printed component list gives it back, valid and normal |
| `Config.SplitCsv` | internal/gateway/config.go:277-285 | the loop gives the trimmed non-empty parts in order |
| `Config.RefusedExactlyWhen` | internal/gateway/config.go:255-263 | a configuration is refused exactly when one of its numbers is out of range |
| `Config.DefaultsAreValid` | internal/gateway/config.go:50-79 | the built-in numbers are in range |
| `Config.JoinedListSurvivesExactlyWhen` | internal/gateway/config.go:92-94 | split(join(items)) = items if and only if the items are trimmed, not empty and without commas |
| `Config.CsvRoundTrip` | internal/gateway/config.go:130-132 | split(join(split(v))) = split(v) for every text |
| `Config.LoadListSetting` | internal/gateway/config.go:92-132 | the flag wins over the environment and the environment over the built-in list, each through printing and splitting; an arbitrary built-in list survives exactly when its items are clean |
| `Config.ListSettingsAreAsConfigured` | internal/gateway/config.go:56-132 | for the built-in lists and every environment value, without a flag: the environment's items when it is set, the built-in list unchanged otherwise |
| `Text.BlankMeansAllSpace` | internal/gateway/validation.go:20 | a text trims to nothing if and only if it is white space throughout |
| `Text.SpacesByCodePoint` | internal/gateway/config.go:280 | white space is Unicode's, by code point |
| `Text.TrimSpaceWindow` | internal/gateway/config.go:280 | trimming cuts out a window with only white space outside and none at its edges |
| `Text.JoinAfterSplit` | internal/gateway/config.go:279 | joining the parts of a split restores the text |
| `Text.SplitAfterJoin` | internal/gateway/config.go:92-94 | splitting a join restores parts that hold no separator |
| `Text.ItoaInjective` | internal/gateway/traps.go:425-430 | different integers print differently |

## Left out

- UDP sockets, SNMP wire encoding and decoding, USM cryptography: a received packet is a value or undecodable, and an agent's reply is an arbitrary list of variables and perhaps a failure.
- The HTTP server and client, JSON, basic authentication, request IDs: a webhook reply is an arbitrary status, a network error or a request that could not be built.
- TLS material, flag and environment parsing, log text, literal Prometheus text: only the list settings, the numeric limits and the per-route lines are modelled.
- Text of a CIDR and of a URL: parsing a CIDR to address bits and length, and the URL check, are parameters of the route loader; of the route file, only whether it is readable and decodable.
- Substrings of error messages (internal/gateway/executor.go:224-242): the classified error of a connection or a reply is arbitrary; the limit and cancellation errors are the real ones.
- Clocks: the receipt time is a parameter; latencies and backoff times are parameters or sums, and the timed scheduler counts abstract ticks.
- Counter overflow: counters are unbounded; only the backoff is computed in 64 bits. Milliseconds times 1,000,000 for a client timeout is not bounded either.
- Text encoding: strings are sequences of characters; bytes that are not UTF-8 are not modelled.
- Library sort: `sort.SliceStable` and `sort.Strings` are an insertion sort here; `StableSort.StableSortIsUnique` makes the choice irrelevant for the result.
- `TrapPipeline.Start`: the state after a successful start, or of a service with traps disabled; a failed start, a second Close and the nil cancel function of a disabled service are not part of this model.
- `TrapPipeline.DoRead`: an inform's response is one step that records the datagram, without the message and whether sending it worked; the packet's fields it overwrites are used by nobody afterwards.
- `Retry.Forward`: one cancellation flag per wait stands for the select between timer and cancellation; a canceled request in flight is a network error.
- `QueryScheduler.Do`: an execution that returns after a cancellation may have seen it at any of its operations, or not at all; that once seen it is seen by all later operations is not modelled.
- `Validation.TargetRecord.ValidateOperation`: requires that no two operations share a record or an OID array, as fresh decoded JSON guarantees.
- `Stats.Stats.Snapshot`: that its maps are copies no later call changes, because maps are values here.
- `Stats.Stats`: the mutex is the atomicity of each call; maps that do not exist yet are empty ones, and `Record` is split into four parts that run under one lock.
