# Verified model of the multiple-protocol controller

The controller polls field devices over Modbus, BACnet and MQTT, publishes what changed to a judging service
through Redis, and reports whether its Modbus gateways are online. This project models the parts of it where
several threads, or many bytes, have to agree, and proves that they do.

| Modules | What they model |
|---|---|
| `JudgeQueue`, `JudgePublisher`, `JudgeSystem` | the publication scheduler: bounded admission, one queue and one ready token per device, a worker pool |
| `FailureLog`, `FailureLogger` | the failure counters, the episodes that are logged about them, and the lossy wake channel of the log writer |
| `MqttEntry`, `MqttSession`, `MqttSystem`, `MqttGrants`, `MqttManager` | shared MQTT connections: owners, subscription reconciliation, client replacement, publishes |
| `GatewayConfig`, `GatewayPool`, `GatewaySystem`, `GatewayProbe`, `GatewayPublish`, `GatewayConns`, `GatewayReload`, `GatewayManager` | gateway health checks, status writes and business transactions racing with configuration reloads |
| `BatchPlanner`, `BatchOptimality`, `BatchDecode` | the greedy read planner, its optimality, and its agreement with single reads |
| `ModbusCodec`, `ModbusOrder`, `ModbusValues`, `ModbusFrame`, `Crc`, `CrcRemainder`, `CrcOrder` | register and coil encoding, endian names, type validation, request frames, CRC-16 |
| `Bacnet`, `BacnetFrames`, `Bytes` | application values, WriteProperty framing and acknowledgement, property value extraction |
| `Text`, `Collections` | trimming, letter case, decimal text, iteration over map keys |

How the concurrent parts are modelled. A section under a mutex, and the receipt of a channel token, is one
function on a state value. A class (`JudgePublisher.Publisher`, `FailureLogger.FailureLogger`,
`MqttManager.MqttClient`, `GatewayManager.Manager`) has the fields and the loops of the original, and each of
its methods ensures that the object's contents become exactly what the function says. A step relation
(`JudgeSystem`, `FailureLog`, `MqttSession` with `MqttSystem`, `GatewaySystem`) takes those functions and the
environment's choices in any order; its lemmas are about every run, that is every finite sequence of enabled
actions from the initial state. Some step functions need the entry numbers or owner counters of a state to be
in range; `GatewaySystem.AnyActionNext`, `MqttSystem.AnyActionNext` and `FailureLog.Extend` prove that they always
are, so that no enabled action is ever excluded from a run. Redis, Paho, sockets and clocks are environment choices in those steps.

What is assumed of the environment:

- MQTT: `Connect` fails only when the entry is cancelled. A subscribe or unsubscribe that ends neither with an
  acknowledgement, a refusal nor a timeout ended because its connection was lost. A broker grants a subscription at
  most the requested quality (MQTT 3.1.1, sections 3.8.4 and 3.9.3). Otherwise any outcome is allowed: a
  subscription may be granted less than requested; a connection may drop, come back, and be announced late; an
  operation that was given up on may still take effect at the broker at any time until its client is replaced; a
  refused subscription may or may not leave the previous one in place.
- Neither `MqttManager.Close` nor the gateway manager's `Close` is called.
- A business transaction releases a gateway guard once.
- Modbus batching: spans end inside the 16-bit address space and no two points of a list span all of it
  (`BatchOptimality.NoWrap`); outside it the planner's 16-bit conversions wrap, see `BatchOptimality.WindowTrueIff`
  and `BatchOptimality.TwoEndsMerge`.

Where the code and what it says of itself differ, the model follows the code, and a lemma says exactly when
the promise holds:

- `MqttEntry.KeyIdentifiesIff`: the key `broker|clientID` identifies a broker and client exactly when neither
  contains the separator; otherwise two different connections share one entry.
- `FailureLog.WakeSafeIff`, `FailureLog.ExitLosesWake`: until the writer exits, the wake-up of a pending failure report is
  never lost exactly when there is a logger; after that it can be.
- `MqttSystem.AppliedIsHeld`, `MqttGrants.DowngradeSettles`: a broker may grant a subscription less than was requested.
  The code looks only for a refusal and records the requested quality, so the broker holds what is recorded exactly when
  it granted the request in full, and a downgrade is not retried while owners and connection stay.
- `ModbusCodec.DecodeSafeIff`: decoding stays in range exactly for points with enough registers for their type; the
  validator admits only such points, points without an explicit type are not validated and can panic.
- `ModbusFrame.CoilFrameHonestIff`: the byte count of a multiple-coil request is right up to 2040 coils.
- `BatchDecode.CoilAgreesIff`: batched and single reads of a coil agree exactly when the point's bit is not positive.
- `GatewayReload.CountsSinceDropIff`, `GatewayReload.OverlapForgetsTarget`: dial failures are counted since the endpoint
  was last healthy or dropped exactly as long as reloads do not overlap; the late cleanup of an earlier reload can
  forget the failures of an endpoint that a later one has loaded again.
- `GatewayConfig.EveryTargetPooledIff`, `GatewaySystem.DialKeptIff`: a checked gateway endpoint can be reported online
  by a dial only if some managed device on it has a serial number.
- `GatewayConns.DialMeetsNoConnection`, `GatewayConns.DialLeftBehind`: no dial overwrites a pooled connection, but a
  transaction whose entry a reload takes away dials for it all the same, and nothing closes that connection.
- `BacnetFrames.AckSettlesIff`, `BacnetFrames.StandardAckRefused`: an answer shorter than ten octets is refused, and the
  acknowledgement of a write, as the standard defines it without routing, has nine.

## Model

| member | source | states |
|---|---|---|
| JudgeQueue.EnqueueKeeps | internal/collector/judge_source_publisher.go:78-131 | Accepting or refusing any event keeps the whole scheduler invariant (token placement, budgets, per-device order), and a token sent under the mutex leaves the ready channel within its capacity |
| JudgeQueue.TakeKeeps | internal/collector/judge_source_publisher.go:136-139 | Receiving a token, a state of its own between the channel and the queue mutex, keeps the invariant |
| JudgeQueue.TokenFindsWork | internal/collector/judge_source_publisher.go:168-182 | A received token always finds a pending publication, so the `!ok` answer and the clamp at zero are unreachable |
| JudgeQueue.NextKeeps | internal/collector/judge_source_publisher.go:168-183 | Handing out the oldest publication keeps the invariant |
| JudgeQueue.CompleteFinds | internal/collector/judge_source_publisher.go:185-195 | A completion finds its device known, with no ready token, itself as the only flight, and counters that cover its payload, so no clamp or nil case is reached |
| JudgeQueue.CompleteKeeps | internal/collector/judge_source_publisher.go:185-203 | Completing keeps the invariant, and the token sent back leaves the ready channel within its capacity |
| JudgeQueue.TokensFit | internal/collector/judge_source_publisher.go:119-123 | There are never more ready tokens than queued publications, so `queueSize` bounds the channel |
| JudgePublisher.DeviceQueue.Append | internal/collector/judge_source_publisher.go:113-124 | Charging appends the publication, adds one and its bytes to the charge, and asks for a token exactly when none was scheduled |
| JudgePublisher.DeviceQueue.Pop | internal/collector/judge_source_publisher.go:175-177 | The oldest pending publication is taken out, nothing else changes |
| JudgePublisher.DeviceQueue.Release | internal/collector/judge_source_publisher.go:191-194 | The charge of one publication is given back, pending is untouched |
| JudgePublisher.Publisher.constructor | internal/collector/judge_source_publisher.go:46-75 | A valid configuration gives the initial state, which satisfies the invariant |
| JudgePublisher.Publisher.Admit | internal/collector/judge_source_publisher.go:79-108 | The verdict names the first of the four budgets that is exceeded, or acceptance |
| JudgePublisher.Publisher.Send | internal/collector/judge_source_publisher.go:119-124 | A channel send under the mutex; its precondition, proved at both calls, is that the channel has room |
| JudgePublisher.Publisher.Enqueue | internal/collector/judge_source_publisher.go:78-131 | The object over device queues moves to exactly the specified state and stays valid; a refusal leaves it as it was |
| JudgePublisher.Publisher.TakeToken | internal/collector/judge_source_publisher.go:136-139 | The oldest ready token moves to the worker |
| JudgePublisher.Publisher.NextPublication | internal/collector/judge_source_publisher.go:168-183 | Always succeeds, with the oldest pending publication of the device; the object moves to exactly the specified state |
| JudgePublisher.Publisher.CompletePublication | internal/collector/judge_source_publisher.go:185-203 | The object moves to exactly the specified state: charge released, device requeued at the tail or forgotten |
| JudgeSystem.AlwaysInv | internal/collector/judge_source_publisher.go:77-203 | The invariant holds after every interleaving of producers and workers |
| JudgeSystem.OnePlaceEach | internal/collector/judge_source_publisher.go:77-203 | In every reachable state a device in `deviceQueues` is in exactly one place, a ready token, a held token or a flight, and any other device in none |
| JudgeSystem.BudgetsHold | internal/collector/judge_source_publisher.go:85-124 | In every reachable state the counters are the sums over the device queues, outstanding is pending plus in flight, all four budgets hold and no clamp acts |
| JudgeSystem.HandedOutInOrder | internal/collector/judge_source_publisher.go:95-203 | For every device and run, accepted is completed, then the at most one flight, then pending; a device without a queue has nothing left unattempted |
| JudgeSystem.RefusalChangesNothing | internal/collector/judge_source_publisher.go:79-109 | An enqueue leaves the state unchanged if and only if the event is empty or one of the four budgets is exhausted |
| JudgeSystem.VerdictNamesBudget | internal/collector/judge_source_publisher.go:79-109 | In every reachable state the verdict is the first exceeded of four budgets, measured on the publications pending and in flight and not on the counters; it is acceptance if and only if none would be exceeded |
| JudgeSystem.TokensInOrder | internal/collector/judge_source_publisher.go:133-151 | Over any run, tokens taken then ready only grow at the end: the channel is first in, first out |
| JudgeSystem.TakenInTurn | internal/collector/judge_source_publisher.go:133-151 | A token at position k is taken after exactly the k tokens in front of it, in every run |
| JudgeSystem.RejoinsAtTail | internal/collector/judge_source_publisher.go:196-201 | After its attempt a device rejoins behind every ready device if and only if it has more pending, and otherwise leaves the map |
| JudgeSystem.StepsCount | internal/collector/judge_source_publisher.go:133-203 | Each worker step uses exactly one of the steps left, and completed plus outstanding is conserved |
| JudgeSystem.StuckIsDrained | internal/collector/judge_source_publisher.go:133-203 | With a worker left, some worker step is possible if and only if work is left; no wakeup is lost |
| JudgeSystem.Drains | internal/collector/judge_source_publisher.go:133-203 | Without further events every interleaving of the workers drains the system in the same exact number of steps and completes exactly what was outstanding, in acceptance order per device |
| FailureLog.WhatFlushWrites | internal/collector/judge_source_failure_log.go:146-166 | Exactly when a flush writes a first failure, a recovery or a summary, in terms of the reason's history: recovery only if no failure followed the last success, summary only after 30 s |
| FailureLog.FlushedKeeps | internal/collector/judge_source_failure_log.go:146-166 | A flush keeps: written plus pending equals all failures, lines form episodes, summaries are spaced, each line has the running total |
| FailureLog.ReachableInv | internal/collector/judge_source_failure_log.go:57-167 | Every state that any interleaving of failures, successes, wake-ups, ticks and flushes reaches keeps every reason's account, the order of lines and, with a logger, the wake-ups |
| FailureLog.NothingLostOrRepeated | internal/collector/judge_source_failure_log.go:57-167 | In every run and for every reason the counts decided plus the pending count are the failures that happened, and the lines follow (first_failure failure_summary* recovered)*, spaced by the interval, written in that order |
| FailureLog.WakeSafeIff | internal/collector/judge_source_failure_log.go:102-140 | In every run, until the writer exits, a due first failure or recovery has a wake token or a flush coming, if and only if there is a logger |
| FailureLog.ExitLosesWake | internal/collector/judge_source_failure_log.go:119-129 | Once the writer has exited a due first failure can be left without either, logger or not |
| FailureLog.HistoryIsDone | internal/collector/judge_source_failure_log.go:57-100 | In every run the history of each reason is what the actions of the run did to it: a failure for each record of its own name, a success for each mention in a report, and unknown names go to the last reason only |
| FailureLog.ReasonsDistinct | internal/collector/judge_source_failure_log.go:14-32 | The seventeen reasons are distinct, so a name is about one reason |
| FailureLog.WakesForNewsIff | internal/collector/judge_source_failure_log.go:69-100 | In every reachable state a failure wakes the writer if and only if no episode of its reason is open, and a success if and only if a failure of the reason has not been followed by one |
| FailureLogger.FailureLogger.Position | internal/collector/judge_source_failure_log.go:61-67 | The first reason with the name, or none |
| FailureLogger.FailureLogger.SignalLocked | internal/collector/judge_source_failure_log.go:102-110 | The wake channel exists and holds its one token |
| FailureLogger.FailureLogger.Record | internal/collector/judge_source_failure_log.go:57-75 | One failure more for the reason, or for the last reason when the name is unknown; a wake-up unless an episode is open |
| FailureLogger.FailureLogger.Success | internal/collector/judge_source_failure_log.go:81-100 | Each known reason named is confirmed, in order, with a wake-up when that confirms something; unknown names are ignored |
| FailureLogger.FailureLogger.FlushReason | internal/collector/judge_source_failure_log.go:147-165 | One reason's part of a flush: exactly the specified lines, at most two, and the specified new counters |
| FailureLogger.FailureLogger.FlushAt | internal/collector/judge_source_failure_log.go:137-167 | A flush writes exactly the specified lines of all reasons in order, into a fixed array that never overflows; without a logger nothing changes |
| MqttEntry.MaxQosIs | internal/conn/mqtt_manager.go:380-385 | The requested quality is an upper bound of the owners' and is asked for by one of them |
| MqttEntry.AddOwnerKeeps | internal/conn/mqtt_manager.go:138-144 | Attaching an owner keeps: cancelled exactly when unused, options shared, applied within filters, restarting only without publishes |
| MqttEntry.ReleaseKeeps | internal/conn/mqtt_manager.go:153-159 | Releasing an owner keeps the same, cancelling exactly with the last use |
| MqttEntry.OtherSectionsKeep | internal/conn/mqtt_manager.go:201-266 | A connect announcement, a client replacement without publishes, and both ends of a publish keep the same |
| MqttEntry.RecordKeeps | internal/conn/mqtt_manager.go:418-430 | Recording an acknowledged operation keeps the same and never cancels |
| MqttEntry.LateConnectIgnored | internal/conn/mqtt_manager.go:201-210 | A connect announcement changes nothing if and only if the entry is cancelled or the client is not its current one |
| MqttEntry.KeyIdentifiesIff | internal/conn/mqtt_manager.go:562 | All configurations with a key agree on broker and client ID if and only if neither contains the separator |
| MqttEntry.SameOptionsIff | internal/conn/mqtt_manager.go:134 | Two configurations can share a connection if and only if they differ in nothing but broker and client ID |
| MqttSession.StepKeeps | internal/conn/mqtt_manager.go:201-454 | Every step of owners, publishes, network and loop keeps the whole session invariant |
| MqttSession.QuietUnlessStirred | internal/conn/mqtt_manager.go:363-436 | A pass stays quiet if and only if no owner comes or goes and the current client announces no connection |
| MqttSession.LoopProgress | internal/conn/mqtt_manager.go:363-436 | Every loop step keeps: in a quiet pass each topic already looked at is settled, and the operation under way is still the one its topic needs |
| MqttSystem.ReachableInv | internal/conn/mqtt_manager.go:99-505 | Every state of the manager that any interleaving reaches satisfies the invariant |
| MqttSystem.AppliedIsHeld | internal/conn/mqtt_manager.go:363-454 | In every run, with the connection up and announced, and for every topic without an operation of unknown, refused or pending outcome, what is applied is what the broker last acknowledged and still holds, at the quality it granted; that is at most the requested one, which is what is recorded, and equal to it if and only if the broker granted the request in full; applied topics always have a filter |
| MqttGrants.GrantSettles | internal/conn/mqtt_manager.go:409-428 | For every quality requested and every one up to it granted there is a run in which a quiet pass ends with the topic recorded at the first, held by the broker at the second, and nothing left to ask |
| MqttGrants.DowngradeSettles | internal/conn/mqtt_manager.go:409-428 | It happens for a concrete configuration, requested at 2 and granted at 1 |
| MqttSystem.QuietPassSettles | internal/conn/mqtt_manager.go:363-436 | In every run, a quiet pass at the end of its topics leaves applied mapping exactly the filtered topics to their maximum requested quality, and no filter without owner |
| MqttSystem.CancelledIffUnused | internal/conn/mqtt_manager.go:476-505 | In every run an entry is cancelled if and only if it has no owner and no publish; an ended entry is cancelled |
| MqttSystem.CancelledForever | internal/conn/mqtt_manager.go:110-172 | Once cancelled an entry stays so and never again has an owner or a publish |
| MqttSystem.OneEntryPerKey | internal/conn/mqtt_manager.go:119-133 | At most one entry that has not ended serves a key, and it is the one the map holds |
| MqttSystem.OwnersShareOptions | internal/conn/mqtt_manager.go:130-144 | Every owner asked for the options and key of its entry, hence for its broker and client unless the entry's have the separator |
| MqttSystem.PublishesPinned | internal/conn/mqtt_manager.go:251-275 | In every run, restarting means no publish, and every publish under way has the client it was admitted on |
| MqttSystem.PublishAdmittedIff | internal/conn/mqtt_manager.go:490-498 | In every reachable state a publish is admitted, on the client its entry then has, if and only if an entry in use serves the key, the client is connected, and that client has announced a connection since it was installed |
| MqttSystem.TimedOutIsReplaced | internal/conn/mqtt_manager.go:251-281 | In every reachable state a client of which an operation has timed out is asked for nothing more: the loop waits to replace it, does so once no publish holds it, and never replaces another |
| MqttSystem.OnlySuccessChanges | internal/conn/mqtt_manager.go:99-145 | A Watch changes the manager if and only if it succeeds; a conflict is reported exactly for an entry in use under the key with other options |
| MqttSystem.StepKeeps | internal/conn/mqtt_manager.go:99-505 | Every step of the manager keeps the index of entries and every session's invariant |
| MqttManager.MqttClient.AddOwner | internal/conn/mqtt_manager.go:138-144 | The topic's owners gain the owner at its quality, nothing else changes |
| MqttManager.MqttClient.ReleaseUnused | internal/conn/mqtt_manager.go:478-488 | Cancels exactly when there is no publish and no topic has an owner |
| MqttManager.MqttClient.Release | internal/conn/mqtt_manager.go:153-159 | The owner is gone from the topic, and the entry is cancelled if that was its last use |
| MqttManager.MqttClient.OnConnect | internal/conn/mqtt_manager.go:201-209 | A current client's announcement starts a new generation with nothing applied and admits publishes; any other changes nothing |
| MqttManager.MqttClient.BeginRestart | internal/conn/mqtt_manager.go:251-266 | The client is replaced, with nothing applied, exactly when no publish is under way |
| MqttManager.MqttClient.StartPublish | internal/conn/mqtt_manager.go:491-498 | A publish is admitted exactly when the entry is in use, has connected, is not restarting and its client is connected |
| MqttManager.MqttClient.FinishPublish | internal/conn/mqtt_manager.go:499 | One publish fewer, and the entry is cancelled if that was its last use |
| MqttManager.MqttClient.Topics | internal/conn/mqtt_manager.go:366-369 | A pass looks at every filtered topic once |
| MqttManager.MqttClient.Requested | internal/conn/mqtt_manager.go:380-385 | The maximum quality any owner asked for |
| MqttManager.MqttClient.Look | internal/conn/mqtt_manager.go:379-392 | Decides unsubscribe without owners, nothing when already applied at the maximum quality, subscribe otherwise |
| MqttManager.MqttClient.Record | internal/conn/mqtt_manager.go:418-430 | In the pass's generation the acknowledged operation is applied, and a filter without owner removed; in another nothing changes |
| MqttManager.MqttManager.Watch | internal/conn/mqtt_manager.go:99-145 | Invalid, waiting and conflict answers change nothing; success attaches the owner to the key's entry, made if there was none, and touches no other entry |
| MqttManager.MqttManager.StartPublish | internal/conn/mqtt_manager.go:491-498 | A publish pins the key's entry exactly when that entry admits it, and touches no other |
| MqttManager.MqttManager.Retire | internal/conn/mqtt_manager.go:231-236 | An ended entry leaves the map, unless another entry serves its key |
| GatewayConfig.EndpointIdentifies | internal/conn/gateway_health.go:129 | Equal endpoint keys mean equal host and port, with or without IPv6 brackets |
| GatewayConfig.TargetsMean | internal/conn/gateway_health.go:110-158 | One target per endpoint, none without IDs, no ID twice; an ID is in an endpoint's target if and only if a managed pure gateway device with that trimmed, non-empty ID has that endpoint |
| GatewayConfig.EveryTargetPooledIff | internal/conn/manager.go:528-582 | Every checked endpoint is also a pool endpoint if and only if each has a managed device with a serial number |
| GatewayConfig.UnserialledGateway | internal/conn/manager.go:535-538 | A pure gateway device without a serial number gives a checked endpoint that has no pool entry |
| GatewayConfig.BuildGatewayTargets | internal/conn/gateway_health.go:112-158 | The grouping loops yield exactly the targets, endpoints and IDs in order of first appearance |
| GatewayConfig.CollectGateways | internal/conn/manager.go:528-582 | The collecting loop yields exactly the endpoints of managed, reachable devices with a serial number |
| GatewayPool.ReloadCurrent | internal/conn/manager.go:230-258 | After a reload every pooled health-dialled connection is of the new generation (there is none) |
| GatewayPool.StoreCurrent | internal/conn/gateway_health.go:342-371 | Storing a health-dialled connection in its own generation keeps every pooled one current |
| GatewaySystem.Keeps | internal/conn/gateway_health.go:174-402 | Every section of every check and transaction, every reload, its late cleanup and every connection reset keeps the whole invariant |
| GatewaySystem.ReachableInv | internal/conn/gateway_health.go:174-402 | Every state that any interleaving reaches satisfies that invariant |
| GatewayProbe.ProbeEndsIff | internal/conn/gateway_health.go:174-246 | In every run a check ends healthy if and only if the socket it looked at last was up on a keep-alive connection or its dialled connection was kept, and unhealthy if and only if the socket was down without the guard or its dial failed with another failure standing |
| GatewayProbe.DialsOnlyToReplace | internal/conn/gateway_health.go:207-216 | In every run a check dials only when it last read no connection, or looked with the guard at a socket that was down or had no keep-alive |
| GatewayProbe.LookDropsIff | internal/conn/gateway_health.go:220-246 | A look leads to dropping that connection if and only if it was with the guard and the socket was down, or up without keep-alive |
| GatewayProbe.DropThenDial | internal/conn/gateway_health.go:289-306 | Dropping closes that connection, if the endpoint still has it, touches no other, and is followed by a dial |
| GatewayProbe.StatusesRight | internal/collector/gateway_status.go:131-188 | In every run every status written says online if and only if its check ended healthy and offline if and only if it ended unhealthy, for an ID of its target |
| GatewayPublish.PublishesInOrder | internal/collector/gateway_status.go:161-176 | In every run what a check has written are the statuses of the first of its IDs, in order, once each and all alike |
| GatewayPublish.PublishesAllIff | internal/collector/gateway_status.go:131-177 | A finished check without a reload since its probe has written all its IDs if it came to a result about the target it was queued for, and none otherwise |
| GatewayConns.DialMeetsNoConnection | internal/conn/gateway_health.go:342-371 | In every run the endpoint of a dialling or storing check has no pooled connection, nor has the entry a transaction dials for; the branch that closes an overwritten connection is never taken |
| GatewayConns.OnlyManagedPooled | internal/conn/manager.go:454-483 | In every run only endpoints with a managed, reachable device with a serial number in the configuration loaded last have a pool entry |
| GatewayConns.ReloadCloses | internal/conn/manager.go:237-250 | A reload keeps exactly the entries of endpoints still managed and closes every pooled connection, whoever dialled it |
| GatewayConns.AbandonedForever | internal/conn/manager.go:404-452 | An entry outside the pool that no process has in its hands keeps its connection in every run: no section closes it |
| GatewayConns.DialLeftBehind | internal/conn/manager.go:404-452 | Such a connection is reachable, for any managed device: a reload between the sections in which a transaction finds its entry and dials |
| GatewaySystem.PassedCheckIsCurrent | internal/collector/gateway_status.go:131-177 | The pre-write check passes if and only if the generation is the probe's; then the queued target is a current one and the ID to be written is that of a gateway device of the current configuration on that endpoint |
| GatewaySystem.AtMostOneLateWrite | internal/collector/gateway_status.go:161-176 | In every run, of one check's statuses at most one is written after a reload |
| GatewaySystem.PooledHealthConnIsCurrent | internal/conn/gateway_health.go:340-371 | In every run a pooled connection dialled by a health check was dialled by one of the current generation, and is an endpoint's |
| GatewaySystem.GuardStep | internal/conn/gateway_health.go:186-202 | What each section of a check or transaction does to the guard: raised only by the process that takes it while down, lowered only by its holder |
| GatewaySystem.OneHolderPerEndpoint | internal/conn/manager.go:385-402 | In every run an endpoint has at most one guard holder among checks and transactions, and at most one dial |
| GatewaySystem.FlagMeansHeld | internal/conn/manager.go:595-609 | In every run the busy flag is up if and only if some process holds the guard |
| GatewaySystem.UnguardedIsPassive | internal/conn/gateway_health.go:190-246 | A check without the guard never dials, and never changes an entry or which entry an endpoint has |
| GatewaySystem.DialReportsIff | internal/conn/gateway_health.go:308-338 | A failed health dial reports unhealthy if and only if it is at least the second failure since the endpoint was last healthy or a cleanup section forgot it; the counter is the number of those failures |
| GatewaySystem.FailuresMean | internal/conn/gateway_health.go:373-387 | The counter reaches one, or two, if and only if that many failures have no later healthy result and no later cleanup section that forgot the endpoint |
| GatewayReload.CleanupSparesTargets | internal/conn/manager.go:271-279 | In every run in which no reload starts while the cleanup of another is pending, no cleanup changes the counter of a current target |
| GatewayReload.CountsSinceDropIff | internal/conn/manager.go:257-279 | In those runs a failed dial of a current target counts if and only if the endpoint was neither healthy nor dropped from the targets since, and had not been dropped with its cleanup still due when the dial failed |
| GatewayReload.TargetReportsIff | internal/conn/gateway_health.go:316-322 | In those runs a failed dial of a current target reports unhealthy if and only if some earlier failure counts in that sense |
| GatewayReload.OverlapForgetsTarget | internal/conn/manager.go:230-279 | With overlapping reloads it fails: a reload without a gateway, one with it, a failed dial and then the first reload's cleanup reach a state where the failure of a current target that was neither healthy nor dropped since is forgotten |
| GatewayReload.OverlapHappens | internal/conn/manager.go:230-279 | Such a state is reachable, for a concrete gateway device |
| GatewaySystem.DialKeptIff | internal/conn/gateway_health.go:332-371 | A dialled connection is pooled and its endpoint reported healthy if and only if no reload happened since the probe and the endpoint has a managed device with a serial number; otherwise the pool is unchanged and the result stale |
| GatewayManager.Manager.ApplyConfig | internal/conn/manager.go:230-271 | The section under the configuration lock: new generation, targets and endpoints of the configuration, every pooled connection closed, vanished endpoints removed |
| GatewayManager.Manager.ForgetDialFailures | internal/conn/manager.go:273-279 | The second section: counters remain exactly for target endpoints |
| GatewayManager.Manager.GatewayTarget | internal/conn/gateway_health.go:248-259 | The endpoint's target with the generation it is of, if it has one |
| GatewayManager.Manager.FindPoolEntry | internal/conn/manager.go:454-466 | The section that looks an entry up: whether the endpoint is managed, its entry if it has one, and whether it is a pure gateway's |
| GatewayManager.Manager.MakePoolEntry | internal/conn/manager.go:468-483 | The later section that checks again and makes the entry if there is still none, exactly for managed endpoints |
| GatewayManager.Manager.StoreGatewayConn | internal/conn/gateway_health.go:342-371 | Stores exactly when the generation is the current one and the endpoint is managed |
| GatewayManager.Manager.DropGatewayConn | internal/conn/gateway_health.go:289-306 | Drops the entry's connection only if it is the expected one |
| GatewayManager.Manager.ResetConnection | internal/conn/manager.go:369-383 | The endpoint's entry has no connection afterwards, no other entry changes |
| GatewayManager.Manager.NoteGatewayDialFailure | internal/conn/gateway_health.go:373-381 | One failure more for the endpoint; the answer is the new count |
| GatewayManager.Manager.ResetGatewayDialFailures | internal/conn/gateway_health.go:383-387 | The endpoint's counter is gone, no other changes |
| GatewayManager.Manager.MarkBusy | internal/conn/manager.go:599-601 | Takes the guard exactly when it was free |
| GatewayManager.Manager.ClearBusy | internal/conn/manager.go:603-605 | The guard is free afterwards |
| BatchPlanner.BatchBuilder.CanAdd | internal/collector/batch.go:84-110 | Exactly the joining condition on the run collected so far |
| BatchPlanner.BatchBuilder.Add | internal/collector/batch.go:112-121 | The run gains the point, and the window still spans it |
| BatchPlanner.BatchBuilder.Build | internal/collector/batch.go:127-138 | The query of the collected run |
| BatchPlanner.PlanList | internal/collector/batch.go:42-55 | The loop over one sorted list yields exactly its greedy plan |
| BatchPlanner.GroupParams | internal/collector/batch.go:24-36 | Enabled points of readable function codes, grouped by code in configuration order; covered has exactly their keys |
| BatchPlanner.BuildBatchQueries | internal/collector/batch.go:23-59 | In any order of the function codes, the queries are the greedy plans of a sorted permutation of each code's enabled points |
| BatchOptimality.JoinsMeans | internal/collector/batch.go:84-110 | The builder's test holds if and only if the enlarged window is within the quantity limit and the register gap within its limit |
| BatchOptimality.PlanSplits | internal/collector/batch.go:38-59 | The plan is a split of the list into runs meeting the limits, a run over the limit being a single point |
| BatchOptimality.GreedyOptimal | internal/collector/batch.go:38-110 | No split of the sorted list into contiguous runs meeting the limits has fewer runs than the plan |
| BatchOptimality.PlanKeepsPoints | internal/collector/batch.go:43-55 | The plan keeps every point, once, in order |
| BatchOptimality.EveryPointOnce | internal/collector/batch.go:23-59 | Every enabled point of a readable function code is in the queries exactly as often as it is configured, and no other is |
| BatchOptimality.PlanWindows | internal/collector/batch.go:112-164 | Every run is read through its true window, which covers each of its points, and meets the limits |
| BatchOptimality.WindowTrueIff | internal/collector/batch.go:127-138 | The 16-bit query is the true window if and only if start and width fit 16 bits |
| BatchOptimality.TwoEndsMerge | internal/collector/batch.go:105-108 | Two coils at the two ends of the address space are merged into a query for no coil |
| BatchDecode.DecodeRegisterBatch | internal/collector/modbus.go:415-453 | A batch response is refused exactly when it is too short; otherwise exactly the points inside the data are recorded, in order, or a slice leaves the data's range; offsets are 64-bit and wrap |
| BatchDecode.BatchAgreesWithSingle | internal/collector/modbus.go:415-453 | Every register point of a plan gets from the batch response exactly the outcome of reading it alone from the same memory |
| BatchDecode.BatchRecordsSingles | internal/collector/modbus.go:415-453 | The batch response of a whole run, whose points have enough registers for their types, records every point of the run, in order, with the value that reading it alone decodes |
| BatchDecode.DecodeDiscreteBatch | internal/collector/modbus.go:459-484 | A response is refused exactly when it is too short; otherwise exactly the points whose byte is inside the data are recorded, in order, with the bit at their offset |
| BatchDecode.PlannedCoilRead | internal/collector/modbus.go:468-482 | In every batch of a coil plan every point gets the coil at its address |
| BatchDecode.CoilAgreesIff | internal/collector/modbus.go:355-369 | Batched reads of a coil and single reads, which ask for at least one coil or are refused, agree for every memory if and only if the point's bit is not positive |
| ModbusCodec.ApplyEndian | internal/collector/modbus.go:543-582 | The swapping branches produce exactly the specified permutation of a fresh copy |
| ModbusCodec.ReorderTwice | internal/collector/modbus.go:530-582 | Applying any endian name twice gives the data back, for any length |
| ModbusOrder.ReversedIsLittle | internal/collector/modbus.go:543-582 | Two, four or eight bytes in order "DCBA", and two in "BA", are read as the number with the least significant byte first |
| ModbusOrder.BytesExchanged | internal/collector/modbus.go:557-582 | Four or eight bytes in order "BADC" are read as the words in order, each least significant byte first |
| ModbusOrder.HalvesExchanged | internal/collector/modbus.go:560-582 | Four or eight bytes in order "CDAB" are read as the second half followed by the first |
| ModbusOrder.OthersArePlain | internal/collector/modbus.go:530-582 | Every other name, in any case and with any white space around it, and every other length, leaves the data as it is |
| ModbusOrder.SwappedFloat | internal/collector/modbus.go:371-413 | A 32-bit float with its words exchanged is decoded from its second word, then its first |
| ModbusCodec.RegisterRoundTrip | internal/protocol/modbusRtu/encodeCommand.go:115-228 | Decoding the explicit encoding of any number a type accepts, with the same type and endian, gives the number back, whatever bytes follow |
| ModbusCodec.DecodeSafeIff | internal/collector/modbus.go:371-413 | Decoding leaves the range for no payload if and only if the point has enough registers for its type |
| ModbusCodec.LegacyOneRegisterPanics | internal/collector/modbus.go:392-395 | An int32 point with one register and no explicit type is decoded out of range |
| ModbusCodec.ValidatePoints | internal/protocol/modbusRtu/modbusRtu.go:82-96 | Points are normalized in place up to the first refused one, and only those |
| ModbusCodec.NormalizeTwice | internal/protocol/modbusRtu/modbusRtu.go:98-123 | Normalizing an accepted point again changes nothing |
| ModbusCodec.AcceptedDecodes | internal/protocol/modbusRtu/modbusRtu.go:98-134 | An accepted explicit register point never decodes out of range, and is short exactly when the payload is |
| ModbusValues.EncodesIff | internal/protocol/modbusRtu/encodeCommand.go:115-228 | A number is encoded if and only if its type can be written and some content of the registers of the type is decoded to it; it then takes exactly those registers |
| ModbusValues.DefaultQuantityFits | internal/collector/modbus.go:283-301 | A point without a configured quantity reads exactly the registers that its type is written with |
| ModbusValues.BuildsIff | internal/protocol/modbusRtu/encodeCommand.go:36-113 | A command is built if and only if its address has 16 bits and its value is a coil, some coils, or a number its registers can hold, one register for code 6 |
| ModbusValues.LegacyFloatIsWord | internal/collector/modbus.go:371-413 | A floating-point type that was not declared explicitly is read as one unsigned register |
| ModbusValues.OneRegisterFlag | internal/collector/modbus.go:371-413 | A truth value in a register is false if and only if both bytes are zero, in every byte order |
| ModbusValues.ReadSupportedIff | internal/protocol/datatypes/datatypes.go:103-113 | A canonical type is supported for a read function code if and only if what is decoded there is always a value of that type |
| ModbusValues.WriteSupportedIff | internal/protocol/datatypes/datatypes.go:118-130 | A canonical type is supported for a register write if and only if a command with some value of it is built; coils carry truth values only |
| ModbusValues.RegistersTaken | internal/protocol/modbusRtu/modbusRtu.go:119-134 | A type asks for exactly the registers its encoded values take |
| ModbusValues.AliasIff | internal/protocol/datatypes/datatypes.go:31-58 | A spelling is accepted for a canonical type if and only if it is one of that type's spellings |
| ModbusValues.AliasIsCanonical | internal/protocol/datatypes/datatypes.go:60-73 | What an accepted spelling stands for is one of the thirteen canonical names that the support rows are about |
| ModbusCodec.PackCoils | internal/protocol/modbusRtu/encodeCommand.go:339-351 | Every coil is at its bit and padding bits are zero |
| ModbusCodec.PackedOnce | internal/protocol/modbusRtu/encodeCommand.go:339-351 | That determines the bytes |
| ModbusFrame.Seal | internal/protocol/modbusRtu/encodeCommand.go:353-371 | The frame is the body followed by two bytes that make its CRC zero |
| ModbusFrame.BuildModbusFrame | internal/protocol/modbusRtu/encodeCommand.go:36-113 | A refused command gives its refusal; any other a frame with a valid CRC that carries device, function, address, count and data |
| ModbusFrame.RegisterFrameDelivers | internal/protocol/modbusRtu/encodeCommand.go:36-113 | The data of a register write frame, decoded as a point of the same type and endian, is the commanded number |
| ModbusFrame.CoilFrameHonestIff | internal/protocol/modbusRtu/encodeCommand.go:84-113 | The byte count of a coil frame is the number of data bytes if and only if there are at most 2040 coils |
| ModbusFrame.CoilCountOverflows | internal/protocol/modbusRtu/encodeCommand.go:84-113 | A frame of 2041 coils has 256 data bytes and announces none |
| Crc.ComputeCRC | internal/collector/modbus.go:599-612 | The two loops compute the CRC function about which everything below is proved |
| Crc.AppendCRC | internal/collector/modbus.go:584-587 | The frame is kept, two bytes follow, and the CRC of the whole is zero |
| Crc.VerifyCRC | internal/collector/modbus.go:589-597 | Accepts if and only if the frame has two bytes and the CRC of the whole frame is zero |
| Crc.StepLinear | internal/collector/modbus.go:603-609 | The bit step distributes over exclusive or |
| Crc.StepInjective | internal/collector/modbus.go:603-609 | The bit step is injective |
| Crc.Residue | internal/collector/modbus.go:589-597 | The CRC of a frame is zero if and only if its last two bytes are the CRC of the rest, low byte first |
| Crc.SerialForm | internal/collector/modbus.go:599-612 | The byte-wise computation is the bit-serial one over the frame's bits, least significant first |
| CrcRemainder.ValueIsRemainder | internal/collector/modbus.go:599-612 | For every frame the CRC is the remainder, by long division of polynomials, of the frame's bits followed by sixteen zeros, the first sixteen complemented, by x^16 + x^15 + x^2 + 1 |
| Crc.BurstDetected | internal/collector/modbus.go:589-612 | A change of a valid frame confined to any 16 consecutive bits is rejected |
| Crc.AdjacentBytesDetected | internal/collector/modbus.go:589-612 | A change of a valid frame confined to two adjacent bytes is rejected |
| Crc.ValidFrameIsEven | internal/collector/modbus.go:589-612 | A valid frame has an even number of one bits |
| Crc.OddErrorsDetected | internal/collector/modbus.go:589-612 | A change of an odd number of bits of a valid frame is rejected |
| CrcOrder.PeriodIff | internal/collector/modbus.go:603-609 | Shifts return the register to where it began exactly at the multiples of 32767 |
| CrcOrder.TwoBitsDetectedIff | internal/collector/modbus.go:589-612 | Two flipped bits of a valid frame of any length are rejected if and only if their distance is not a multiple of 32767 bits, so always in a Modbus frame |
| Bacnet.EncodeUint64 | internal/conn/bacnet_manager.go:544-555 | The loop produces the encoding about which the next rows are proved |
| Bacnet.EncodeInt64 | internal/conn/bacnet_manager.go:557-572 | The loop produces the encoding about which the next rows are proved |
| Bacnet.UintReads | internal/conn/bacnet_manager.go:544-555 | The unsigned encoding denotes its number and has no redundant leading byte |
| Bacnet.IntReads | internal/conn/bacnet_manager.go:557-572 | The signed encoding denotes its number in two's complement and has no redundant leading byte |
| Bacnet.UintShortest | internal/conn/bacnet_manager.go:544-555 | No byte string denoting the number is shorter, and one as short is the encoding itself |
| Bacnet.IntShortest | internal/conn/bacnet_manager.go:557-572 | The same for two's complement |
| Bacnet.ParseUnsigned | internal/conn/bacnet_manager.go:574-583 | The loop reads the big-endian number of the given bytes, or refuses |
| Bacnet.SignExtends | internal/conn/bacnet_manager.go:585-596 | Shifting left and arithmetically right in 64 bits is two's complement of the shorter width |
| Bacnet.ParseSigned | internal/conn/bacnet_manager.go:585-596 | The loop and the shifts read the two's complement number of the given bytes, or refuse |
| Bacnet.RoundTrip | internal/conn/bacnet_manager.go:424-542 | For every bool, 64-bit integer, REAL or DOUBLE bit pattern and any following bytes, parsing what was built gives the value back and consumes exactly its bytes |
| Bacnet.SelfDelimiting | internal/conn/bacnet_manager.go:424-482 | What is accepted is decided by the bytes consumed alone |
| Bacnet.PrefixFree | internal/conn/bacnet_manager.go:424-482 | No shorter prefix of an accepted value is accepted |
| Bacnet.ExtractReadPropertyValue | internal/conn/bacnet_manager.go:380-422 | The field loop and the value scan compute exactly the extraction function |
| Bacnet.WriteIsReadable | internal/conn/bacnet_manager.go:250-296 | Extracting from the service data of any write request gives exactly the value's bytes, even if they contain 0x3e or 0x3f; the length field is the frame length and the object identifier is in place |
| Bacnet.ObjectIDSplits | internal/conn/bacnet_manager.go:250-296 | Object type and 22-bit instance are recovered from the identifier |
| Bacnet.NoPrefixAccepted | internal/conn/bacnet_manager.go:380-422 | No strict prefix of an accepted body is accepted |
| Bacnet.EchoReadsBack | internal/conn/bacnet_manager.go:298-342 | A read answer that carries a written value's body gives that value for its own invoke ID, and is skipped for any other |
| BacnetFrames.RequestNamesObject | internal/conn/bacnet_manager.go:598-621 | Each of the nine object types is sent under the standard's number, with its instance |
| BacnetFrames.TypeNumberIff | internal/conn/bacnet_manager.go:598-621 | No other object type is accepted |
| BacnetFrames.RequestHeader | internal/conn/bacnet_manager.go:263-296 | A write request is a confirmed request for WriteProperty of presentValue, with its invoke number, expecting a reply, the value between its opening and closing tags |
| BacnetFrames.TagsAreStandard | internal/conn/bacnet_manager.go:484-542 | A value is built under the standard's tag number, with its length in the tag up to four octets and in the next octet above |
| BacnetFrames.AckSettlesIff | internal/conn/bacnet_manager.go:344-378 | A simple acknowledgement settles a write request if and only if it repeats the request's invoke number and service choice and is longer than nine octets |
| BacnetFrames.StandardAckRefused | internal/conn/bacnet_manager.go:344-347 | So the nine octets that the standard makes of it are always refused |
| BacnetFrames.EnumeratedReads | internal/conn/bacnet_manager.go:477-478 | An enumerated value is read as the unsigned number of its octets |
| BacnetFrames.StringReads | internal/conn/bacnet_manager.go:472-476 | A character string is read without its first octet, the character set |

## Left out

- Redis, InfluxDB, HTTP, OPC UA, JSON and environment configuration, tracing, logging sinks: library-driven, their outcomes are environment choices.
- Real time: flush and report times are any number of nanoseconds, in any order; timeouts and tickers are steps that may happen at any moment.
- Fairness of the Go scheduler: termination is stated as an exact step count and as the absence of stuck states, not as progress of a real scheduler.
- FailureLog.NothingLostOrRepeated: counters are unbounded, the 64-bit wrap-around of the original counters is not modelled.
- MqttSession.StepKeeps: message routes and handler calls are not part of the session, nor is `Close`; the final unsubscribe is any change of the broker's state.
- MqttManager.MqttManager.Watch: one attempt; waiting for an entry on its way out, the context of the caller and the installed route are not modelled.
- MqttManager.MqttClient.BeginRestart: adding the message routes to the new client is not modelled.
- GatewaySystem.Keeps: pre-dialling of other endpoints and the addresses inside pool entries are not modelled, nor is `Close`.
- GatewayConfig.CollectGateways: the endpoints only, not the device and gateway metadata kept beside them.
- GatewayManager.Manager.ResetConnection: takes the endpoint; finding it from a device's serial number is not modelled.
- GatewayManager.Manager.ApplyConfig: pool entries are numbers into a list of values, so object identity is a number and entry locks are not objects; map iteration order is any order.
- GatewaySystem.PassedCheckIsCurrent: the write to Redis itself follows the check and may come after a reload; GatewaySystem.AtMostOneLateWrite bounds that.
- BatchOptimality.GreedyOptimal: for lists whose 16-bit conversions are exact; what happens outside is stated for the window and by example, not for the count.
- BatchDecode.BatchAgreesWithSingle: for at most 125 registers a point, the Modbus limit, beyond which a response has no valid byte count.
- ModbusCodec.RegisterRoundTrip: floating-point values are bit patterns; conversions of other Go values and the legacy coercions are not modelled. A type name with white space around it is excluded: the encoder trims it and the decoder does not; the validator never lets one through.
- ModbusFrame.BuildModbusFrame: the legacy encoding of points without an explicit type is not modelled.
- Bacnet.RoundTrip: text values are parsed but never built, as in the original.
- BACnet, Modbus and OPC UA collection loops, UUID formatting, gateway pause counter, receipts: they would only add easy members.
- JudgePublisher.Publisher.Enqueue: the failure reason that accompanies a refusal is recorded by the failure log and is not part of the publisher's state.
