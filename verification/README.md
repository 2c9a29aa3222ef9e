# tellus: a verified model

tellus is an actor library with event-sourced persistence. This project models its four
state machines in Dafny and proves, over every run, the guarantees that its documentation writes
down (`docs/actors.md`, `docs/persistence.md`), together with the two example programs that rest
on them.

`dafny verify dfyconfig.toml` checks everything.

**Persistence.** `Fencing` is the central machine: any number of incarnations of one persistence
id over one stream and one snapshot slot. Every store call is a step of its own, every step may
fail, and appends and snapshot saves are requests in flight that the store may execute late, after
their writer was told that they failed, or never. Its main results: the stream is append-only and
holds whole batches, each decided on the fold of exactly the events before it; a running
incarnation is always at the fold of a stream prefix; a stored snapshot that decodes is the fold
it claims to be, also when a slow incarnation overwrites a newer one; continuations start at most
once, after their own append was acknowledged. `Incarnations` follows one incarnation through such a
run: from where it recovers, what a settled command leaves, when it stops or fails. `SnapshotSlot` says when such an overwriting can
happen: the latest snapshot is the one saved last, whatever its position. The slot's position never
falls if and only if the saves are executed in order, which one writer gets whose saves are executed
while it waits for them; two runs show that neither half of that can be dropped. `InMemory` is the
sequential code, `recover` with its page loop and `settle`, over the in-memory store; its page loop
equals one replay of the whole tail. `Postgres` is the statement of the PostgreSQL store at row
level, for racing writers, and refines the atomic conditional append `Fencing` assumes.

What user code must respect is the predicate `EventSourced.Lawful`: `apply` is a function, values
written by this code decode to themselves, and a projection `view` of the state exists that
`apply` respects and that `recovered` and the snapshot round trip keep. With the identity as `view`
the results are equalities of states.

**Actors.** `ActorTree` is a whole actor system as interleaved steps: `watch` and `unwatch` in
their substeps, the run loop, restarts, and the termination sequence in its real order. On it
`DeathWatch` proves the ordering of terminated signals, that no watcher is lost and that a watch
delivers at most once, and `Supervision` proves bottom-up termination across restarts and what
`ActorSystem::terminated` means; `Lifecycles` has the order of the run loop itself. `Mailboxes`, `ActorContexts` and `Quotas` hold the objects
(registry, context, quota, counted sender) with their methods; `Quotas` also proves the accounting
under interleaved senders. `Backoffs` is the restart streak.

**Host.** `Hosts` has the handlers, in place and as functions; `HostRuns` proves conservation,
order, a single incarnation per key and a single ticker over every run. That a terminated signal
is handled only after its sender has terminated is `DeathWatch.DeliveredIsClosed`.

**Examples.** `ScatterGather` is the program on top of `ActorTree`: every run of the actor system
in which the gatherer and its workers do what their code says, with the watch ordering taken from
`DeathWatch`. `WorkPulling` is a closed protocol of its own, shown to end under any schedule. Both are
for any number of documents, workers and shards.

One place where the code and its documentation differ, and the model follows the code:

- The documented backoff `min * 2^(n-1)` is capped by a 32-bit factor: from the 33rd delay on it
  falls short unless `min` is zero or `max` is at most `min * (2^32 - 1)`. `DelayIsDocumented`
  gives the exact condition and `DelayFallsShort` an instance.

## Model

| member | source | states |
|---|---|---|
| SeqNos.AdvancedByIsIteratedSucc | tellus/src/persistence/seq_no.rs:20-28 | advancing by a count is that many successors, saturation included |
| SeqNos.AdvancedBySaturates | tellus/src/persistence/seq_no.rs:20-28 | positions move on by exactly the count, stop at the largest one and never move back |
| Versioned.DefaultDecodeRoundTrips | tellus/src/persistence/versioned.rs:27-43 | a type with the default decode round trips exactly when its codec does |
| Versioned.DefaultDecodeOutcome | tellus/src/persistence/versioned.rs:27-43 | which error, or the value: a foreign manifest, another version and a payload the codec rejects are errors, in this order |
| Versioned.EncodeDecode | tellus/src/persistence/versioned.rs:76-94 | decoding what this code encoded, manifest and version checks included, gives the value back |
| Versioned.ForeignManifest | tellus/src/persistence/versioned.rs:76-94 | a foreign manifest is an error whatever the type's own decode accepts |
| EventSourced.ApplyConcat | tellus/src/persistence/spawn.rs:654-661 | applying two batches one after the other is applying their concatenation |
| EventSourced.FoldIsStepwise | tellus/src/persistence/spawn.rs:654-661 | the fold of no events is the seed, and each further event is applied to the fold before it |
| EventSourced.EncodedEventsDecode | tellus/src/persistence/spawn.rs:621-638 | encoded events decode to exactly the events, in order |
| EventSourced.EncodeEventsOutcome | tellus/src/persistence/spawn.rs:621-638 | encoding succeeds if and only if every event is encodable |
| EventSourced.ReplayPageOutcome | tellus/src/persistence/spawn.rs:589-618 | a page replays without error if and only if it is gapless from the expected position and decodes |
| EventSourced.ReplayPageError | tellus/src/persistence/spawn.rs:589-618 | a failing replay names its first gap or undecodable event |
| EventSourced.ReplayPageApplies | tellus/src/persistence/spawn.rs:589-618 | replay runs exactly the applications the live actor ran and ends behind the page |
| Fencing.StepPreservesInv | tellus/src/persistence/spawn.rs:206-292 | every step of every incarnation and of the store keeps the invariant behind the results below |
| Fencing.SerialHistory | tellus/src/persistence/spawn.rs:420-487 | in every interleaving the stream is append-only and is a concatenation of whole batches, each decided by `handle` on a state folding exactly the events before it |
| Fencing.Fenced | tellus/src/persistence/in_memory_store.rs:49-69 | two batches of such a history never overlap: of the writers racing for a position at most one extended the stream |
| Fencing.LiveEqualsReplay | tellus/src/persistence/spawn.rs:222-292 | between commands the state and position of a running incarnation are the fold of the stream prefix of that length |
| Fencing.SnapshotAgreesWithReplay | tellus/src/persistence/spawn.rs:499-514 | in every run a stored snapshot that decodes is the fold of the prefix it claims, which is within the stream |
| Fencing.ReplayNeverFails | tellus/src/persistence/spawn.rs:380-416 | with writers appending between pages, no page has a gap or an undecodable event, and replay stays at the fold of a prefix |
| Fencing.ContinuationsOnceAfterDurability | tellus/src/persistence/spawn.rs:442-497 | continuations start at most once per decision, only if it has no events or the store acknowledged its own append, which then is in the history; on the fold through that batch |
| Fencing.RaceStartsOneContinuation | tellus/src/persistence/effect.rs:73-84 | of the decisions racing for a position at most one starts its continuations, also when they decided on equal batches |
| Fencing.SettledBeforeNextCommand | tellus/src/persistence/spawn.rs:235-275 | between any two commands an incarnation handles without a restart lies the step that ran the first one's continuations |
| Incarnations.AppendOutcome | tellus/src/persistence/spawn.rs:442-475 | an append is executed if and only if its position is the end of the stream and it fits; its writer hears of a conflict if and only if the position is stale |
| Incarnations.RecoveryStartsAtSnapshot | tellus/src/persistence/spawn.rs:327-378 | recovery starts from the snapshot and the position it covers if one decodes, from the seed at zero otherwise |
| Incarnations.PageReadsOn | tellus/src/persistence/spawn.rs:380-410 | a page applies up to 512 events behind the position, and ends replay if and only if it reaches the end of the stream as it is then |
| Incarnations.ReplayAddsTheTail | tellus/src/persistence/spawn.rs:380-416 | with other writers appending meanwhile, what replay adds to where it started is exactly the events from there on, in order |
| Incarnations.RunsWithRecovered | tellus/src/persistence/spawn.rs:222-232 | the incarnation runs with what `recovered` made of the replayed state, at the replayed position |
| Incarnations.SettlementOutcome | tellus/src/persistence/spawn.rs:250-275 | a settled command leaves the state it was handled on with its events applied and the position behind them; if its effect asks to stop, the incarnation never takes a step again |
| Incarnations.NothingToAppend | tellus/src/persistence/spawn.rs:437-487 | an effect without events touches no store and goes on to its continuations with state and position unchanged |
| Incarnations.StoppedForGood | tellus/src/persistence/spawn.rs:266-269 | a stopped incarnation takes no further step |
| Incarnations.StopsOnlyWhenTold | tellus/src/persistence/spawn.rs:206-275 | an incarnation stops if and only if a settled effect or its parent says so |
| Incarnations.FailsOnlyByFailing | tellus/src/persistence/spawn.rs:222-292 | an incarnation fails if and only if its own step does, a continuation does or its append lost |
| Incarnations.FailureRecoversAnew | tellus/src/persistence/spawn.rs:276-292 | after a failure an incarnation recovers from the store before it handles another command |
| SnapshotSlot.SlotFollowsOrder | tellus/src/persistence/store.rs:60-70 | over any run the position of the stored snapshot never falls if and only if the saves are executed in the order of their positions: the last save wins |
| SnapshotSlot.SlotNeverFalls | tellus/src/persistence/store.rs:60-67 | with one writer whose saves are executed while it waits for them, the slot's position never falls, over restarts and ambiguous appends |
| SnapshotSlot.TwoWritersFall | tellus/src/persistence/in_memory_store.rs:96-114 | a run of two incarnations whose saves are all awaited, in which a save replaces a newer snapshot by an older one |
| SnapshotSlot.LateSaveFalls | tellus/src/persistence/spawn.rs:499-514 | a run of one incarnation in which a save executed late does so |
| InMemory.InMemoryStore.Append | tellus/src/persistence/in_memory_store.rs:49-69 | appends all events at the expected position or none, and touches no other stream |
| InMemory.InMemoryStore.ReadFrom | tellus/src/persistence/in_memory_store.rs:71-90 | the slice of up to `limit` events from the position on |
| InMemory.InMemoryStore.Save | tellus/src/persistence/in_memory_store.rs:96-114 | the last save wins and touches no other slot |
| InMemory.Recover | tellus/src/persistence/spawn.rs:301-417 | the page loop ends, with the outcome of replaying at once what is behind a snapshot that decodes, from that snapshot, or else the whole stream from the seed; after one read per full page and one more |
| InMemory.PrefixIsIrrelevant | tellus/src/persistence/spawn.rs:365-370 | with a snapshot that decodes, recovery does not depend on what stands before its position, decodable or not |
| InMemory.MachineLoadsBase | tellus/src/persistence/spawn.rs:327-378 | the interleaved machine starts replay where the sequential code does |
| InMemory.ReplayConcat | tellus/src/persistence/spawn.rs:380-410 | replaying two pages in turn is replaying their concatenation |
| InMemory.RecoverReachesEnd | tellus/src/persistence/spawn.rs:312-417 | on a stream written by this code recovery succeeds and ends at its length with the fold of all its events |
| InMemory.SnapshotIsInvisible | tellus/src/persistence/spawn.rs:327-378 | in every reachable world recovery gives the same state and position with the stored snapshot and without it |
| InMemory.Settle | tellus/src/persistence/spawn.rs:420-521 | the stream grows by the batch exactly when it is encodable and the position current; fails then, and after the append when applying or a continuation fails; otherwise applies, continues in order and saves the offered snapshot at the new position |
| InMemory.RunThens | tellus/src/persistence/spawn.rs:489-497 | starts the continuations in turn and succeeds exactly when all do |
| InMemory.StartedUpToFailure | tellus/src/persistence/spawn.rs:489-497 | continuations run in order, up to and including the first that fails |
| Postgres.PrepareInsert | tellus-persistence-postgres/src/lib.rs:54-91 | the bound arrays spell the events at consecutive positions, unless one leaves the BIGINT range |
| Postgres.StepRefines | tellus-persistence-postgres/src/lib.rs:93-118 | every step is one of the atomic append: the stream changes only by a commit, as a successful append; the writer is answered a conflict if and only if the append conflicts there, a success if and only if its rows are committed or it has none and the position is current |
| Postgres.LoserLosesAtFirstRow | tellus-persistence-postgres/src/lib.rs:256-261 | an insert conflicts if and only if its key is taken, if and only if the position is stale; it strikes the first row and leaves the table as it was |
| Postgres.AlwaysGapless | tellus-persistence-postgres/migrations/0001_events_and_snapshots.sql:1-9 | over any run of racing writers the stored numbers are exactly 0 to n-1 and rows never change |
| Postgres.RacersSerialise | tellus-persistence-postgres/src/lib.rs:48-118 | all that holds of every step of every run of racing writers |
| Postgres.AcknowledgedIsStored | tellus-persistence-postgres/src/lib.rs:112-117 | once a writer was told of a success, its events stand in the table at the positions it asked for, for the rest of the run |
| Postgres.ReadIsSlice | tellus-persistence-postgres/src/lib.rs:120-145 | `read` answers with the in-memory store's slice if and only if the position is within BIGINT and the limit, cut to BIGINT, suffices; a position beyond is a store error, where nothing could be stored |
| Mailboxes.WatcherRegistry.Add | tellus/src/mailbox.rs:117-123 | registering is idempotent and fails exactly when registration is closed |
| Mailboxes.WatcherRegistry.Remove | tellus/src/mailbox.rs:125-129 | removes the watcher and never reopens registration |
| Mailboxes.WatcherRegistry.Take | tellus/src/mailbox.rs:134-139 | returns all watchers and closes registration |
| ActorContexts.ActorContext.Watch | tellus/src/actor_context.rs:105-113 | afterwards the actor is registered or the signal it would have missed is enqueued behind everything |
| ActorContexts.ActorContext.Unwatch | tellus/src/actor_context.rs:119-123 | ends the watch on both sides and leaves the queue alone |
| ActorContexts.ActorContext.TakeWatchedFor | tellus/src/actor_context.rs:141-143 | tells whether the actor was watched and ends that watch |
| ActorContexts.ActorContext.NextIncoming | tellus/src/actor_context.rs:180-213 | nothing if and only if the queue holds only signals of unwatched actors; otherwise the first other item, with exactly those before it skipped and those behind it kept |
| ActorContexts.TakingSkipsToDeliverable | tellus/src/actor_context.rs:180-213 | that loop is the machine's dequeue steps, also when nothing is left to hand on |
| ActorTree.StepPersists | tellus/src/actor_context.rs:232-285 | no step changes an actor's place in the tree, shortens its mailbox's history or reopens a closed actor |
| Lifecycles.MailboxSurvivesRestarts | tellus/src/actor_context.rs:232-285 | an actor that does not terminate runs on over any number of restarts, and its mailbox's front moves by exactly one per dequeue |
| Lifecycles.DequeuedIsHandedOn | tellus/src/actor_context.rs:199-208 | what is dequeued reaches the actor's code if and only if it is a message or the signal of a watched actor |
| Lifecycles.OneAtATime | tellus/src/actor_context.rs:247-265 | the next item is dequeued only after the code is done with the one before |
| Lifecycles.InitBeforeReceiving | tellus/src/actor_context.rs:241-252 | a restarted actor receives nothing before `init` has been run again |
| Lifecycles.NothingAfterTermination | tellus/src/actor_context.rs:374-382 | once it has begun to terminate, an actor discards what is queued and receives nothing anymore |
| Lifecycles.TerminatesInOrder | tellus/src/actor_context.rs:374-407 | a terminating actor takes exactly the five steps of the sequence, each in its turn |
| Lifecycles.RestartStages | tellus/src/actor_context.rs:327-366 | a restart waits for the old children's channel to close, then for the backoff, and changes nothing else |
| Lifecycles.WatchIsItsSubsteps | tellus/src/actor_context.rs:105-113 | without interference the substeps of `watch` are possible in turn and amount to what the call promises |
| Lifecycles.UnwatchIsItsSubsteps | tellus/src/actor_context.rs:119-123 | likewise for `unwatch` |
| Lifecycles.DeregistersOnce | tellus/src/actor_context.rs:384-386 | a terminating actor leaves the registry of each actor it watched |
| Lifecycles.SendEnqueues | tellus/src/quota.rs:24-49 | a send puts exactly that message at the end of a connected mailbox and touches no other actor |
| DeathWatch.SignalIsBehindAllMessages | tellus/src/actor_context.rs:374-407 | when a terminated signal is handed to a watcher, every message its sender ever put in that mailbox, then or later in the run, has been dequeued |
| DeathWatch.DeliveredIsClosed | tellus/src/actor_context.rs:391-407 | a signal is handed on only after its sender has closed registration |
| DeathWatch.NoWatcherLost | tellus/src/actor_context.rs:105-123 | a running actor that watches another is in its registry, in the list still to be told, or has the signal in its mailbox, outside the middle of a `watch` call |
| DeathWatch.DeadWatchersAreGone | tellus/src/actor_context.rs:384-386 | an actor past its own deregistration is in no open registry |
| DeathWatch.NoDeliveryWhileUnwatched | tellus/src/actor_context.rs:119-123 | after `unwatch`, or after a delivery, no signal of that actor is delivered until a `watch` completes |
| DeathWatch.SingleDelivery | tellus/src/actor_context.rs:199-208 | between two deliveries of one actor's signal lies a `watch` |
| DeathWatch.StepTold | tellus/src/mailbox.rs:193-208 | every watcher a termination took is still to be told, was told, or has no mailbox anymore |
| Supervision.TerminationIsBottomUp | tellus/src/actor_context.rs:374-407 | once anyone was sent an actor's signal, everything ever spawned below it, in any generation, is dead and has told its watchers |
| Supervision.RestartStartsAfresh | tellus/src/actor_context.rs:327-366 | when `init` runs again every child of an earlier generation and everything below it is dead |
| Supervision.BarrenSubtreeIsDead | tellus/src/actor_context.rs:147-155 | behind the closed stop channel no descendant is left |
| Supervision.SystemTerminated | tellus/src/actor_system.rs:100-136 | once `ActorSystem::terminated` resolves, every actor but the root is dead and the root has closed registration |
| Quotas.Quota.Reserve | tellus/src/quota.rs:96-107 | reserves one unit exactly when the count is below the capacity |
| Quotas.Quota.Unreserve | tellus/src/quota.rs:117-122 | releases one unit of a bounded quota |
| Quotas.CountedSender.TrySendCounted | tellus/src/quota.rs:24-37 | enqueues or fails with the right reason; a failure costs no capacity |
| Quotas.CountedSender.TrySendForced | tellus/src/quota.rs:39-45 | passes a full quota but is counted; a failure costs no capacity |
| Quotas.QuotaAccounts | tellus/src/quota.rs:75-141 | in every interleaving the count is what is queued, reserved, being released or lost to the drain; it never underflows; ordinary messages never exceed the capacity |
| Quotas.PassingThroughIsFree | tellus/src/quota.rs:124-141 | a message that passes through, counted or forced, leaves the quota as it was |
| Quotas.FailedSendIsFree | tellus/src/quota.rs:24-49 | a reservation whose send fails is given back |
| Quotas.DequeueTakesOldest | tellus/src/mailbox.rs:193-208 | a dequeue hands out the item, message or signal, that entered at the position it has reached |
| Quotas.FirstInFirstOut | tellus/src/mailbox.rs:69-75 | of two items, whatever their kinds, the one that entered first leaves first |
| Backoffs.New | tellus/src/backoff.rs:28-34 | exactly ordered bounds are accepted |
| Backoffs.DelayBoundedAndMonotone | tellus/src/backoff.rs:47-50 | delays lie within the bounds and never shrink |
| Backoffs.DelayIsDocumented | tellus/src/backoff.rs:47-50 | the delay is the documented formula if and only if the step is below 32, `min` is zero, or `max` is within the largest factor's reach |
| Backoffs.DelayFallsShort | tellus/src/backoff.rs:47-50 | bounds whose 33rd delay is not the documented one |
| Backoffs.RestartCounter.NextRestart | tellus/src/actor_context.rs:438-458 | judges and counts one failure; the counter stays within the limit |
| Backoffs.CounterIsStreak | tellus/src/actor_context.rs:447-455 | over any failure history the counter is the length of the streak, capped at the limit |
| Backoffs.StreakIsLimitedAndPaced | tellus/src/actor_config.rs:85-94 | the n-th failure of a streak restarts after the (n-1)-th delay while n is within the limit and stops the actor afterwards |
| Hosts.Host.Route | tellus/src/host.rs:74-109 | routes as the function `Routed`: tell the live entity, buffer for a stopping one within the limit, spawn for a vacant key |
| Hosts.Host.Deliver | tellus/src/host.rs:134-138 | posts the accepted buffered messages in order and dead-letters the others |
| Hosts.Host.EntityTerminated | tellus/src/host.rs:123-140 | forgets the entity and, if messages wait, spawns the replacement and hands them over |
| Hosts.Host.PassivateIdle | tellus/src/host.rs:143-170 | visits every entry once, in some order, as the function `Swept` |
| Hosts.Host.Terminated | tellus/src/host.rs:111-141 | a ticker's signal sweeps and starts the next ticker, any other one is an entity's |
| HostRuns.SweepAsksTheIdle | tellus/src/host.rs:148-168 | a sweep turns exactly the visited idle entities whose mailbox accepts into stopping ones |
| HostRuns.HostConserves | tellus/src/host.rs:74-141 | over any run every routed message is in exactly one place and was accepted at most once; buffers stay within their limit, in arrival order |
| HostRuns.HostKeepsOrder | tellus/src/host.rs:74-141 | messages for a key are accepted in arrival order, before everything still buffered; nothing follows a passivate message |
| HostRuns.IncarnationsFollowEachOther | tellus/src/host.rs:123-140 | the messages one incarnation accepts are contiguous among those for its key |
| HostRuns.SingleIncarnation | tellus/src/host.rs:364-373 | `keys` and `entries` are inverse, `keys` holds exactly the spawned entities whose signal was not handled, and two of those for one key are the same |
| HostRuns.OneTicker | tellus/src/host.rs:172-178 | with an idle timeout exactly one ticker is outstanding, without one none |
| HostRuns.ReplacementGetsBuffer | tellus/src/host.rs:133-140 | handling the signal of an entity with a buffer appends exactly the buffer, in order, for an entity that had no message before; whatever arrives later stands behind it in every later state |
| HostRuns.RouteOutcome | tellus/src/host.rs:74-109 | a routed message is dead-lettered if and only if the buffer is full or the entity's mailbox did not accept; otherwise it is last in the buffer, or last in the log of the live entity, which is spawned if there was none and counts as used now |
| HostRuns.VacatedWithoutBuffer | tellus/src/host.rs:123-131 | the signal of an entity without waiting messages vacates its key and does nothing else |
| HostRuns.UnknownSignalIgnored | tellus/src/host.rs:123-125 | the signal of an actor that is not hosted changes nothing |
| HostRuns.AliveUntilDeath | tellus/src/host.rs:180-184 | in the runs considered an entity is alive from the step that spawned it until it dies |
| HostRuns.TickSweeps | tellus/src/host.rs:111-170 | the ticker's signal makes exactly the live entities stopping that got no message for the timeout and accept |
| HostRuns.StoppingWasAsked | tellus/src/host.rs:148-168 | an entity the host treats as stopping was sent its passivate message |
| WorkPulling.NothingIsRefused | tellus/examples/work_pulling.rs:64-112 | requests and replies in flight for a worker are at most one together, so a mailbox of capacity one refuses nothing; the counter never underflows |
| WorkPulling.EveryDocumentOnce | tellus/examples/work_pulling.rs:131-166 | when the manager stops, every document was processed exactly once and every worker is dead |
| WorkPullingEnds.NeverStuck | tellus/examples/work_pulling.rs:64-166 | unless the manager has stopped, some actor can take a step |
| WorkPullingEnds.EveryRunIsBounded | tellus/examples/work_pulling.rs:64-166 | under any schedule every step brings the end closer by exactly one: no run is longer than seven steps per worker, two per document and one |
| WorkPullingEnds.EveryRunCompletes | tellus/examples/work_pulling.rs:64-166 | every run that goes on as long as it can has exactly that length and ends stopped, with each document processed once |
| ScatterGather.SignalMeansAdded | tellus/examples/scatter_gather.rs:73-91 | in every run of the actor system a worker's signal is handed to the gatherer only after its partial result was added, and once |
| ScatterGather.TotalIsComplete | tellus/examples/scatter_gather.rs:50-128 | when the gatherer stops, its total is the sum over all shards in 64-bit arithmetic |
| ScatterGather.RangeSumClosed | tellus/examples/scatter_gather.rs:122-124 | a shard's sum in closed form |
| ScatterGatherRun.OneShardCompletes | tellus/examples/scatter_gather.rs:50-91 | an execution that finishes, from the gatherer's start over the worker's whole termination to the total |

## Left out

- Tokio scheduling, wakers and atomics ordering: tasks are interleaved atomic steps.
- Liveness: that a run makes progress needs fairness and terminating user code. Only explicit loops and the work-pulling example are shown to end.
- Stop signals as such: an actor may stop whenever its run loop could, which covers every moment a parent's stop signal can arrive; that a signaled child does stop is liveness.
- Panics, destructor panics and logging: each is the failure of the step it happens in.
- Codec bytes, serde and configuration parsing: the codec is a pair of functions with the round trip of `Versioned.RoundTrips` as hypothesis.
- SQL text, connection pool, migrations and row decoding: the PostgreSQL model has the check, the unique key, the transaction and the BIGINT range.
- Streams of more than 2^63 events: an append beyond that is a store error, as in PostgreSQL; the in-memory store takes it as a bound on its vectors.
- The builders of `Effect`: an effect is its three fields, and a command may yield any of them.
- `ask`, `ReplyTo` plumbing, `PersistenceId` and `SchemaVersion` validation: easy or external.
- Messages sent on an actor's behalf by other tasks: they count as sent from outside and the ordering guarantee does not cover them.
- Flume's retention of a message that slips past the drain: it stays in the queue of a dead mailbox.
- The quota's counter is unbounded: it counts live messages and cannot reach the width of a machine word.
- Host restarts after a panicking `spawn` closure, and `spawn` closures that return an old actor.
- Overflow checks of debug builds in the scatter-gather example: sums wrap as in release builds.
- `TestContext`, `device_manager`, benches and the comparison report.
