# A verified model of the SoroStream SDK's self-contained components

The SDK streams payments over Stellar. Around its RPC calls it keeps ten components that hold real algorithms and
protocols: a plugin registry sorted by Kahn's algorithm, an LRU cache with expiry, an in-flight request deduplicator, a
record/replay transport, a connection pool, a priority request queue, a mock contract ledger, an offline write queue,
observables with a backpressure operator, and a circuit breaker. This project models each of them in Dafny and proves
what they promise over whole runs. `dafny verify dfyconfig.toml` checks everything.

## How the model is built

- Each stateful class of the SDK is a Dafny `class` with the same fields. `Model()` gathers the fields into a value, and
  each method's `ensures` equates the new `Model()` with a transition function of the old one. The theorems are about
  runs of those transition functions, in any interleaving of the events.
- Asynchronous code is cut at its awaits, and the backpressure operator also at its `onDrop` callback, which may call
  back: each stretch between cuts is one atomic step, and arrivals, settlements,
  releases, aborts, microtasks and clock readings interleave freely. Where the order of microtasks matters (the
  deduplicator), the job queue is part of the state and is served first in, first out, as section 9.5 of ECMA-262 demands.
- What an operation does is stated twice: as the transition function, and on the fields alone, without naming that
  function or its helpers. Sections headed "What each call does" and the like, and the `ensures` of the registry's and
  the cache's methods, hold the second form; the run-level theorems build on both.
- Clocks, the outcomes of awaited operations and factories, and host conversions whose meaning is not in the repository
  are parameters of the steps.
- Money, seconds and counters are unbounded integers, as bigints are; the i128 check of `safeClaimable` is explicit.
  Strings that are printed or compared by `<` are sequences of UTF-16 code units (module `Text`).

Files: `PluginRegistry.dfy` (with `Graph.dfy`), `Cache.dfy`, `RequestDeduplicator.dfy`, `ReplayTransport.dfy` (with
`Json.dfy` and `Text.dfy`), `ConnectionPool.dfy`, `RequestQueue.dfy`, `MockLedger.dfy`, `OfflineQueue.dfy`,
`Observable.dfy`, `CircuitBreaker.dfy`; `Sequences.dfy` holds what they share.

## Where the code differs from what it says

Each of these follows the code; the named lemma gives the input or the exact condition.

- The registry's error speaks of a circular dependency, but the sort also rejects an acyclic registry in which one pair
  is constrained twice: `edges` is a set while `inDegree` counts statements (`DoublyStatedIsRejected`). The sort returns if
  and only if the graph is acyclic and no pair is stated twice (`TopologicalSort`).
- Rolling a rejected registration back drops the last Map key. That restores the registry if and only if the plugin was
  new (`RejectedRegisterRestores`). If the plugin was known and names are used once, `list()` throws afterwards if and only if another plugin is
  the last and the new constraints are unsortable even without that one (`RejectedReRegistrationBreaksIff`; an input of
  each kind in `RejectedReRegistrationBreaksList` and `RejectedReRegistrationSpared`).
- Removing a plugin passes its name to an earlier plugin registered under it, and that can close a cycle
  (`UncoveredNameBreaksList`). A removal breaks a sortable registry if and only if the rest has a cycle through a plugin
  to which a removed name passed, or states one of its constraints twice (`RemovalSortableIff`). Over any run whatever,
  `list()` works throughout if and only if no step is one of these two kinds (`ListWorksIffNothingBreaks`).
- The deduplicator's comment promises that a late joiner never observes an entry that has already settled. Over any run,
  no late caller faces a newer entry whose promise it saw settled if and only if no request is started with a promise
  that a late caller waiting for the same key has seen settled (`NeverStaleIffNeverReuses`, step by step `StepStale`; a
  run that violates it in `ReusedPromiseReachesLateCaller`). What a caller then observes also depends on nothing removing
  or replacing that entry before it decides (`JoinsSettledIff`). Also, a call whose key cannot be normalised has already been
  counted when it throws.
- Values survive `serialise` and `deserialise` if and only if no object uses the tag key itself (`SerialiseRoundTrip`);
  an object that spells a tag out is matched like the bigint (`TagLooksLikeBigint`).
- A consumer that closes its own subscription while its `next` runs and then throws is told of an error after the end:
  the catch in `sink.next` does not look at `closed`, while the handler of a rejected promise does (`ErrorAfterTheEnd`).
  At most one ending reaches an observer, and nothing follows it, if and only if no consumer of the run does that
  (`SubscriptionEndsOnce`).
- `withBackpressure` under drop-oldest calls `onDrop` between taking the oldest value out and pushing the new one. If the
  callback makes the source emit, the buffer can be over its bound and out of order (`ReentrantEmission`); if it completes
  the source, completion is passed on and the new value is lost unreported (`ReentrantCompletion`). The bound, the order
  and the accounting hold throughout a run if and only if no callback comes back after it has ended the operator or made
  it receive another value, and none throws after it has completed it (`PipeKeeps`, step by step `StepKeepsIff`).
  Drop-newest needs no such condition (`DropNewestIsSound`).
- A subscription closed synchronously inside its producer never has its teardown called, although the comment in
  `subscribe` says it has been torn down (`TeardownIffClosedAfterReturn`).
- Withdrawing from a locked stream pays nothing and still moves `lastWithdrawTime`, so what had accrued is lost, exactly
  if something had (`LockedWithdrawalForfeits`).
- A withdrawal pays no more than the potential it uses up if and only if it does not move the withdrawal time back
  (`WithdrawPays`), which it can do after an advance by a negative time; a run can then pay out more than was
  deposited (`BackwardsAdvanceOverpays`). Every other call conserves (`StepConserves`).
- A call that throws leaves the ledger as it was, except exactly for a split whose remaining balance overflows or whose
  ratio is not one of whole numbers, which leaves the original cancelled, a creation whose duration is not whole, which
  uses up a number, and a batch cancellation that had begun (`ThrowKeepsLedger`; `SplitOverflowCancels` and, for any
  active stream, `FractionalSplitCancels`; `LateCreationUsesNumber`).
- A cache with a size below 1 still holds one entry: over the runs that do not resize it, it stays within its size if
  and only if that size is at least 1 (`StaysWithinIffPositive`).
- `dequeueNext` orders by timestamp, so the clock stepping back can start a task over an earlier one of its lane and
  priority. The order of enqueueing is kept throughout a run if and only if that never happens
  (`InOrderIffNeverOversteps`).
- A circuit breaker's failure count agrees with its state in every run if and only if the threshold is at least 1
  (`CountMatchesIffPositiveThreshold`).

## Model

The table lists the methods in which a loop or a scan is proved against a specification, and the theorems. The other
methods of the classes are the event handlers; each equates `Model()` with the transition function of its event.

| member | source | states |
|---|---|---|
| `Plugins.PluginRegistry.Register` | src/pluginRegistry.ts:19-43 | registering succeeds iff the new constraints are acyclic and no pair is stated twice; the entries afterwards, stated on the entries: the plugin's own is replaced in its place or added last, and on failure the last one goes |
| `Plugins.PluginRegistry.List` | src/pluginRegistry.ts:45-47 | succeeds iff the entries ask for nothing in circles and nothing twice; then whoever names the last plugin of a name in `before` stands before it, in `after` behind it, and the plugins nothing must precede come first, in order of registration |
| `Plugins.PluginRegistry.UnregisterByName` | src/pluginRegistry.ts:54-61 | removes exactly the entries of that name during iteration, the others staying in order; true iff there was one |
| `Plugins.TopologicalSort` | src/pluginRegistry.ts:106-170 | returns iff the entries ask for nothing in circles and nothing twice; the result is a permutation of all plugins obeying every `before` and `after`, as for list() |
| `Plugins.ConstraintsAreSaid` | src/pluginRegistry.ts:125-142 | the constraints sorted by are exactly the pairs the entries ask for, name by name and direction by direction, and one is repeated iff it is asked for twice |
| `Plugins.SortableIffSaid` | src/pluginRegistry.ts:106-170 | so the exact condition of the sort, stated on the entries' own fields |
| `Plugins.OrderObeys` | src/pluginRegistry.ts:125-142 | an order of the constraints puts every plugin on the side of the named one that its list asks for |
| `Plugins.UnconstrainedKeepsOrder` | src/pluginRegistry.ts:144-148 | without constraints list() is the order of registration |
| `Plugins.BuildTables` | src/pluginRegistry.ts:110-142 | the adjacency sets hold each resolved constraint once, the in-degrees count every statement |
| `Plugins.FirstReady` | src/pluginRegistry.ts:145-148 | the queue starts with exactly the plugins nothing precedes |
| `Plugins.Round` | src/pluginRegistry.ts:151-159 | one round keeps Kahn's invariant: in-degrees count undischarged statements, output plus queue is exactly what reached zero |
| `Plugins.DischargedPreds` | src/pluginRegistry.ts:155-157 | an in-degree reaches zero iff all predecessors are output and no pair into the plugin is repeated |
| `Plugins.KahnEnds` | src/pluginRegistry.ts:161-169 | when the queue is empty, everything has been output iff the constraints were acyclic and distinct |
| `Graph.InDegreeCountsPreds` | src/pluginRegistry.ts:129-140 | the counted in-degree exceeds the number of predecessors iff a pair is repeated |
| `Graph.StuckHasCycle` | src/pluginRegistry.ts:161-166 | if every leftover waits for a leftover, there is a cycle (pigeonhole on a backward walk) |
| `Graph.OrderedIsAcyclic` | src/pluginRegistry.ts:144-159 | a total order obeying every edge rules out cycles |
| `Plugins.RejectedRegisterRestores` | src/pluginRegistry.ts:172-182 | a rejected registration leaves the registry as it was iff the plugin was new |
| `Plugins.RemovalSortableIff` | src/pluginRegistry.ts:49-62 | removing any plugins from a sortable registry keeps it sortable iff the rest has no cycle through, and no doubled constraint of, a plugin to which a removed name passed |
| `Plugins.RemovalKeepsSortable` | src/pluginRegistry.ts:49-62 | in particular, removing plugins whose names pass to no other plugin keeps it sortable |
| `Plugins.ListWorksIffNothingBreaks` | src/pluginRegistry.ts:19-62 | over any run, re-registrations and reused names included: list() works after every call iff no rejected re-registration leaves its constraints behind unsortably and no removal breaks through an uncovered name |
| `Plugins.ListNeverThrows` | src/pluginRegistry.ts:19-62 | after any run of registrations of new plugins with new names and any removals, list() succeeds |
| `Plugins.DoublyStatedIsRejected` | src/pluginRegistry.ts:125-142 | p before q together with q after p is acyclic and still rejected |
| `Plugins.RejectedReRegistrationBreaksIff` | src/pluginRegistry.ts:172-182 | after a rejected re-registration list() throws iff another plugin is the last and the new constraints are unsortable even without it |
| `Plugins.RejectedReRegistrationBreaksList` | src/pluginRegistry.ts:172-182 | three plugins with which it throws: a bystander is dropped |
| `Plugins.RejectedReRegistrationSpared` | src/pluginRegistry.ts:172-182 | two plugins with which it does not: the conflicting one is dropped |
| `Plugins.UncoveredNameBreaksList` | src/pluginRegistry.ts:49-62 | removing a plugin whose name passes to an earlier one closes a cycle |
| `Caching.Cache.Prune` | src/cache.ts:79-90 | deleting during iteration leaves exactly the slots whose expiry has not passed, in order, and counts the rest |
| `Caching.Cache.InvalidatePattern` | src/cache.ts:119-126 | leaves exactly the slots whose keys do not match, in order, and counts the rest |
| `Caching.Cache.SetMaxSize` | src/cache.ts:129-139 | drops from the least recent end until the new size fits: what is left is the most recent part, as long as allowed |
| `Caching.RunValid` | src/cache.ts:46-63 | in every reachable state keys are distinct and the size is at most max(1, maxSize) |
| `Caching.StaysWithinIffPositive` | src/cache.ts:46-63 | over all runs without resizes the store stays within the size asked for iff that size is at least 1 |
| `Caching.SetPutsLast` | src/cache.ts:46-63 | in every reachable state set() puts the new slot at the recent end, in place of its key's old one or else, when full, of exactly the oldest; the hundredth write first drops exactly what has expired |
| `Caching.WritesAreCounted` | src/cache.ts:46-80 | in every run the counter is the number of sets since the last pruning or clearing, every hundredth of which prunes |
| `Caching.GetMovesLast` | src/cache.ts:33-44 | in every reachable state get() moves a live slot to the recent end and returns its value, drops an expired one, and leaves the others in order |
| `Caching.LargerContainsSmaller` | src/cache.ts:33-90 | the same calls through two sizes: the smaller store is a subsequence of the larger, slot for slot, and trails it by at most the size difference |
| `Caching.LargerNeverMissesMore` | src/cache.ts:33-44 | the larger cache never misses where the smaller hits, and returns the same value |
| `Caching.StoreIsLastSet` | src/cache.ts:33-90 | every stored slot is the last one set for its key and not deleted since: refinement of a plain timed map |
| `Caching.HitIsLastSet` | src/cache.ts:33-44 | a hit returns the last value set, no later than its expiry |
| `Caching.RecentlyUsedSurvives` | src/cache.ts:33-139 | a slot just used survives while fewer other keys are set or hit than the size ever allows, resizes included |
| `Caching.UsedKeyStaysCached` | src/cache.ts:33-139 | once set or hit, in any run, a key is found again with the value last set for it until that expires, while fewer other keys are set or hit than the size ever allows |
| `Caching.SetThenGet` | src/cache.ts:46-63 | in every reachable state, however full and whatever the size, a value just set is found until it expires |
| `Deduplication.RunKeeps` | src/requestDeduplicator.ts:159-187 | in every reachable state both tables have the same keys, every settled entry has its own removal queued, and it is queued ahead of every caller who called after the settlement |
| `Deduplication.DrainedMeansPending` | src/requestDeduplicator.ts:173-184 | once the microtasks have drained, everything in flight is pending |
| `Deduplication.StartStale` | src/requestDeduplicator.ts:159-187 | starting a request leaves a late caller facing a promise it saw settled iff one is waiting for the same key and has seen it settled |
| `Deduplication.NeverStaleIffNeverReuses` | src/requestDeduplicator.ts:136-153 | over every run: no late caller ever faces a newer entry with a promise it saw settled iff no request is started that way |
| `Deduplication.LateCallerNeverGetsSettled` | src/requestDeduplicator.ts:136-153 | then no late caller ever joins a promise settled before it called |
| `Deduplication.JoinsSettledIff` | src/requestDeduplicator.ts:145-153 | a late caller that joins gets a promise it saw settled iff a request of its key was started with one after it called, and that entry has been neither removed nor replaced since |
| `Deduplication.ReusedPromiseReachesLateCaller` | src/requestDeduplicator.ts:145-152 | the run in which a forced replacement reusing a settled promise reaches an earlier caller |
| `Deduplication.CallsAreAccountedFor` | src/requestDeduplicator.ts:124-194 | in every run requests = started + deduplicated + undecided + bad keys, corrected for callers undecided at the last reset |
| `Deduplication.CallJoinsDefersOrStarts` | src/requestDeduplicator.ts:124-194 | in every reachable state a call of a request in flight, young enough and not forced, joins at once within its creation turn, starting nothing, and decides later otherwise; any other call starts one and is handed its promise |
| `Deduplication.LateCallerDecides` | src/requestDeduplicator.ts:145-152 | a late caller joins what is joinable when it decides, and otherwise starts a request |
| `Deduplication.TurnEndsWithMicrotasks` | src/requestDeduplicator.ts:165-167 | a creation turn ends with its own queued microtask, so none outlasts the queue |
| `Deduplication.SameTurnSharesPromise` | src/requestDeduplicator.ts:136-138 | two calls of one key in one synchronous turn get the same promise and start one request, whatever happens between them short of clearing or refusing to join |
| `Deduplication.LeavesFlightIff` | src/requestDeduplicator.ts:173-184 | exactly what ends a request's time in flight: a clear, another request of its key, or its own removal, which runs only once it has settled |
| `Deduplication.PendingStaysInFlight` | src/requestDeduplicator.ts:159-187 | in every run a request not so detached stays in flight until it settles |
| `Deduplication.DisabledStartsEach` | src/requestDeduplicator.ts:128-131 | with deduplication disabled every call runs its own request |
| `Text.DecimalRoundTrip` | src/replayTransport.ts:95-104 | reading the decimal text of any integer gives it back |
| `Text.QuoteRoundTrip` | src/replayTransport.ts:135-143 | a quoted string reads back as itself, escapes, surrogate pairs and lone surrogates included |
| `Json.ParsePrinted` | src/requestDeduplicator.ts:280-293 | a parser undoes the printer on every value, bigints included, whatever follows |
| `Json.ParseUndoesStringify` | src/replayTransport.ts:133-145 | parsing the canonical text gives the value with its keys sorted |
| `Json.SameKeyIffEquivalent` | src/replayTransport.ts:129-145 | two values print alike iff they are equal up to the order of object keys |
| `Json.PrintedExample` | src/requestDeduplicator.ts:280-293 | the text of one object with a bigint, a null and an escape, unit by unit |
| `Replay.SerialiseRoundTrip` | src/replayTransport.ts:93-107 | deserialise(serialise(v)) = v iff no object inside uses the tag key |
| `Replay.RecordedClass` | src/replayTransport.ts:114-131 | a request and its recorded form fall into the same matching class |
| `Replay.SerialiseKeepsEquivalence` | src/replayTransport.ts:93-97 | values that do not use the tag key are equivalent iff their serialised forms are |
| `Replay.SameClassIffSerialisedAlike` | src/replayTransport.ts:114-131 | any two requests match iff both have no parameters, or neither and their serialised forms are equal up to key order |
| `Replay.SameClassIffEquivalent` | src/replayTransport.ts:114-131 | two requests that do not use the tag key match iff both have no parameters, or neither and they are structurally equal |
| `Replay.TagLooksLikeBigint` | src/replayTransport.ts:129-131 | a bigint and an object spelling its tag out match without being equal |
| `Replay.ReplayQueue.constructor` | src/replayTransport.ts:156-163 | each method's entries, in recorded order |
| `Replay.ReplayQueue.FindIndex` | src/replayTransport.ts:176-183 | the first entry of a class, or -1 |
| `Replay.ReplayQueue.Locate` | src/replayTransport.ts:173-184 | the request's own class first, then the parameterless entries |
| `Replay.NextPopsFifo` | src/replayTransport.ts:165-192 | next() refines one FIFO per method and class: it pops one and leaves all others alone |
| `Replay.ServedByParamsThenOrder` | src/replayTransport.ts:165-192 | the first entry recorded with the same parameters is served; failing that, the first recorded as null or an empty object; failing that, none |
| `Replay.ReplayDrainsFifo` | src/replayTransport.ts:152-193 | after any calls within the recording, each FIFO has lost as many entries as it had calls |
| `Replay.ReplayIsFaithful` | src/replayTransport.ts:152-193 | the k-th call of a method and class gets the k-th recorded response for them, and none fails |
| `Replay.PermutationIsWithin` | src/replayTransport.ts:152-193 | every permutation of the recorded calls is within the recording |
| `Pooling.ConnectionPool.LeastLoadedSlot` | src/connectionPool.ts:273-279 | the scan finds the first slot with the fewest subscriptions |
| `Pooling.ConnectionPool.TakeNextWaiter` | src/connectionPool.ts:288-303 | removes the waiter no other precedes, and only that one |
| `Pooling.ConnectionPool.BorrowConnection` | src/connectionPool.ts:102-169 | refuses iff limited and every slot is full |
| `Pooling.LeastLoaded` | src/connectionPool.ts:273-279 | no slot has fewer subscriptions, and every earlier one has more |
| `Pooling.NextWaiter` | src/connectionPool.ts:281-303 | no waiter has a higher priority, nor the same and an earlier enqueue sequence |
| `Pooling.RunKeeps` | src/connectionPool.ts:190-246 | in every interleaving at most maxConnections are held, somebody waits only while all are, and every counter equals the leases it counts |
| `Pooling.EveryCallHasOneFate` | src/connectionPool.ts:102-246 | in every run each accepted call is exactly one of waiting, holding, withdrawn by its signal, and released; no other call is any of these |
| `Pooling.AllReleasedIsIdle` | src/connectionPool.ts:211-222 | once every accepted call has been released or withdrawn nothing is held, no slot has a subscription, and nobody waits |
| `Pooling.ReleaseHandsOn` | src/connectionPool.ts:211-222 | in every reachable state a release gives the handle up; a waiter of the highest priority, the first enqueued of those, is served if there is one, and otherwise the slot and the count drop by one; other leases stay |
| `Pooling.AcquireTakesOrWaits` | src/connectionPool.ts:190-246 | in every reachable state acquire() takes the first least loaded slot while fewer than maxConnections are held, and otherwise joins the end of the queue |
| `Pooling.BorrowTakesLeast` | src/connectionPool.ts:102-169 | a poller or server takes the first least loaded slot without counting as a connection, unless it is refused |
| `Pooling.OvertakenOnlyByPriority` | src/connectionPool.ts:211-246 | while a caller waits, every connection granted goes to a caller already waiting with a higher priority, or the same and an earlier call |
| `Pooling.LoadIsEven` | src/connectionPool.ts:203-246 | taken only through acquire(), no slot ever holds more than ceil(maxConnections / poolSize) |
| `Pooling.DefaultIsExclusive` | src/connectionPool.ts:81-91 | with the default cap no two callers hold the same slot |
| `RequestQueueing.PriorityRequestQueue.ScanQueue` | src/request-queue.ts:300-314 | the inner loop: the best of one lane and what was found before |
| `RequestQueueing.PriorityRequestQueue.FindNext` | src/request-queue.ts:287-317 | the nested scan over lanes and positions finds the place below |
| `RequestQueueing.NextPlace` | src/request-queue.ts:287-317 | no queued task comes earlier by priority, enqueue time, lane and position; none is found iff nothing is queued |
| `RequestQueueing.PriorityRequestQueue.DrainQueue` | src/request-queue.ts:267-276 | starts tasks until the cap is reached or nothing waits |
| `RequestQueueing.RunKeeps` | src/request-queue.ts:165-276 | in every run the total is the sum of the lanes and within the cap, tasks wait only while the cap is reached, and each task waits or was started, exactly once |
| `RequestQueueing.FreedSlotGoesToLeast` | src/request-queue.ts:261-325 | in every reachable state a settling task hands its slot to exactly one task, the least waiting by priority, enqueue time, lane and position, which leaves its queue, if any waits; else the slot is free |
| `RequestQueueing.EnqueueStartsOrWaits` | src/request-queue.ts:165-199 | in every reachable state a new task starts at once while fewer than the cap run, and otherwise joins the end of its lane; an unknown lane is added as the lowest |
| `RequestQueueing.LanesKeepOrder` | src/request-queue.ts:138-146 | the lanes asked for, or write before read, keep their order in every run |
| `RequestQueueing.NextIsFirstOfItsQueue` | src/request-queue.ts:300-315 | under a monotone clock the task chosen is the earliest of its lane and priority |
| `RequestQueueing.InOrderIffNeverOversteps` | src/request-queue.ts:278-325 | over any run and any clock, tasks of one lane and priority start in the order of enqueueing iff none is started over an earlier one stamped with a later time |
| `RequestQueueing.StartsInEnqueueOrder` | src/request-queue.ts:278-325 | under a monotone clock that never happens, and every run keeps the order |
| `Ledger.MockSoroStreamClient.BatchCancelStreams` | src/mock.ts:400-418 | cancels until the first failure and keeps what was cancelled before it; locks are ignored |
| `Ledger.WithdrawPays` | src/mock.ts:264-273 | a withdrawal pays no more than the potential it uses up iff it does not move the withdrawal time back |
| `Ledger.SplitConserves` | src/mock.ts:550-604 | the two children together owe no more than the stream they replace, the overflow path included |
| `Ledger.TopUpConserves` | src/mock.ts:353-365 | a top-up adds no more potential than it deposits, for senders and operators |
| `Ledger.ResumeConserves` | src/mock.ts:689-697 | a resume adds exactly the rate times the pause |
| `Ledger.StepConserves` | src/mock.ts:107-709 | every call keeps the ledger sound and pays nothing not owed, deposited or credited, iff it is not a withdrawal whose withdrawal time is ahead of the clock |
| `Ledger.LedgerConserves` | src/mock.ts:107-709 | over every run whose withdrawals are so guarded, negative advances included, paid plus owed never exceeds deposited plus the rate times each resumed pause |
| `Ledger.PayoutsWithinDeposits` | src/mock.ts:264-604 | without resumes, payouts across all streams and recursive splits never exceed deposits |
| `Ledger.ThrowKeepsLedger` | src/mock.ts:124-604 | a call that throws leaves the ledger unchanged except exactly for a split that fails after its checks, a creation whose duration is not whole, and a batch that had begun |
| `Ledger.SplitOverflowCancels` | src/mock.ts:550-559 | a deposit whose split overflows and leaves its stream cancelled |
| `Ledger.FractionalSplitCancels` | src/mock.ts:543-564 | splitting any active stream in the ratio 0.7 to 1 throws and leaves it cancelled |
| `Ledger.LateCreationUsesNumber` | src/mock.ts:161-177 | a creation whose duration is not whole throws after using up a stream number, and changes nothing else |
| `Ledger.BackwardsAdvanceOverpays` | src/mock.ts:107-116 | a run with a negative advance that pays 13 of a deposit of 10 |
| `Ledger.CapNeverBinds` | src/mock.ts:69-80 | in any ledger run that leaves a stream to withdrawals, top-ups, locks and clock shifts, its unlocked claim is exactly rate times elapsed: the deposit never caps it |
| `Ledger.FlowAccounting` | src/mock.ts:177-365 | in any such ledger run, whatever happens to other streams: paid plus forfeited equals the rate times the time withdrawn for, and the deposit is the whole flow plus the dust; children of splits included |
| `Ledger.DustAtCompletion` | src/mock.ts:177-365 | at completion the unpaid rest is amount mod duration plus each top-up mod rate, plus what locks forfeited |
| `Ledger.ScheduleIndependence` | src/mock.ts:264-273 | two streams of any two such runs, never locked, of one rate and withdrawn for equally long, have been paid the same |
| `Ledger.LockedWithdrawalForfeits` | src/mock.ts:69-71 | a locked withdrawal pays nothing, and gives up accrual iff there was some |
| `Ledger.CallSucceedsIff` | src/mock.ts:107-709 | exactly which calls are carried out, on the fields of the ledger; all others throw |
| `Ledger.CallChangesOnlyThese` | src/mock.ts:107-709 | in every run, which fields of an existing stream each call changes and to what: status, recipient, lock, pause, deposit, times; all others, and all other streams, stay |
| `Ledger.CallMovesExactly` | src/mock.ts:97-709 | in every run, what each call deposits, pays and credits, and that the sender, the operators and the set of streams change by their own calls only |
| `Ledger.CreationOpens` | src/mock.ts:161-187 | a creation opens one stream under the next number, with the recipient, deposit, duration and lock asked for and the rate rounded down |
| `Ledger.SplitShares` | src/mock.ts:550-604 | a split cancels the stream and opens two until its old end: the first for the first recipient with the part asked for of what is left, the second for the second recipient with the rest, each rounded down |
| `Ledger.OperatorsAreThoseApproved` | src/mock.ts:492-509 | in every run the operators of a stream are exactly those whose last approval has not been withdrawn |
| `Ledger.CancelledForGood` | src/mock.ts:301-604 | in every run a stream is cancelled iff some cancel, batch, operator cancel or split has cancelled it; nothing brings it back |
| `Ledger.AdvanceIsWaiting` | src/mock.ts:107-116 | advancing an unlocked stream makes it pay at once what it would have paid that much later |
| `Ledger.PauseMovesOnlyTheEnd` | src/mock.ts:660-709 | a pause and its resume, whatever happens to other streams between them, only move the end by the pause; withdrawing between them throws |
| `OfflineQueueing.OfflineWriteQueue.Insert` | src/offlineQueue.ts:169-177 | inserts before the first operation it precedes |
| `OfflineQueueing.InsertKeepsOrder` | src/offlineQueue.ts:169-177 | insertion keeps the queue strictly ordered, for new and put-back operations |
| `OfflineQueueing.RunKeeps` | src/offlineQueue.ts:142-211 | in every reachable state the queue is strictly ordered by priority and sequence, sequences are distinct, and the size is within its bound |
| `OfflineQueueing.OperationsAreConserved` | src/offlineQueue.ts:142-213 | in every run each accepted operation is waiting, being replayed, or has left, exactly once |
| `OfflineQueueing.DrainReplaysInOrder` | src/offlineQueue.ts:183-213 | an undisturbed drain replays its queue in order, cut at one place; a failure put back heads what is left |
| `OfflineQueueing.DrainIsPrefixOfSort` | src/offlineQueue.ts:183-211 | what it replays is a prefix of the stable priority sort of what was enqueued |
| `OfflineQueueing.OrderedIsUnique` | src/offlineQueue.ts:165-177 | a multiset of operations has only one ordered arrangement |
| `OfflineQueueing.TakenIsFirst` | src/offlineQueue.ts:191-192 | whatever is taken precedes everything still waiting, concurrent enqueues included |
| `OfflineQueueing.WaitsByPriority` | src/offlineQueue.ts:165-177 | in every run what waits is sorted by priority, equal ones by their sequence, on the fields |
| `OfflineQueueing.ReconnectionReplaysAll` | src/offlineQueue.ts:129-213 | going online from any reachable state with something waiting and no drain running replays all of it, once each and in order, whatever the outcomes, and leaves the queue empty |
| `OfflineQueueing.OfflineFailureWaitsAgain` | src/offlineQueue.ts:194-210 | a failure while offline ends the drain and waits again, if there is room |
| `OfflineQueueing.ConnectionIsLastReported` | src/offlineQueue.ts:122-134 | the connection is what was last reported |
| `Observing.Subscription.Next` | src/observable.ts:134-155 | delivers while open, makes the calls of the consumer, and on a throw closes and reports, closed or not |
| `Observing.SubscriptionEndsOnce` | src/observable.ts:134-192 | in every run, consumers calling back included: at most one ending reaches the observer and nothing follows it iff no consumer throws out of a next during which the subscription was closed |
| `Observing.ErrorAfterTheEnd` | src/observable.ts:149-154 | completing or unsubscribing in next and then throwing reports an error after the end |
| `Observing.ClosedStaysSilent` | src/observable.ts:130-172 | from the call that closed it on, nothing more is seen and no teardown called |
| `Observing.TeardownIffClosedAfterReturn` | src/observable.ts:174-181 | the teardown is called iff the closing event came after the producer returned |
| `Observing.ObserverHears` | src/observable.ts:132-192 | calls made before or after the producer returns are heard one by one up to the first that ends the subscription; exactly then it is closed and torn down |
| `Observing.ProducerThrowIsHeard` | src/observable.ts:174-178 | a producer that throws is heard as an error, unless the subscription is closed |
| `Observing.StepKeepsIff` | src/observable.ts:290-362 | every step, the return and the throw of onDrop included, keeps the invariant iff it is not a drop-oldest callback coming back after it ended the operator or made it receive, nor throwing after it completed it |
| `Observing.PipeKeeps` | src/observable.ts:290-362 | in every state of a run the buffer is bounded, what was received is delivered, buffered, dropped or about to be pushed, each once and in order, drop-oldest buffers a suffix, a non-empty buffer has its drain, completion passes once: iff no callback does that |
| `Observing.DropNewestIsSound` | src/observable.ts:331-337 | under drop-newest all that holds in every run, whatever callbacks do |
| `Observing.ReentrantEmission` | src/observable.ts:323-330 | an onDrop that makes the source emit leaves the buffer over its bound and out of order |
| `Observing.ReentrantCompletion` | src/observable.ts:323-330 | an onDrop that completes the source loses the arriving value unreported |
| `Observing.StepDrops` | src/observable.ts:320-342 | nothing is dropped while there is room |
| `Observing.DropNewestNeverEvicts` | src/observable.ts:331-337 | under drop-newest, in every run, what was delivered or buffered at any moment is a prefix of what is delivered or buffered later |
| `Observing.CompletionDeliversAll` | src/observable.ts:306-354 | in a run in which no callback does that: when completion is passed on, exactly the values not dropped were delivered, in order |
| `Observing.DrainFinishes` | src/observable.ts:299-317 | after the source finishes, the drain delivers the whole buffer and completes |
| `Observing.EndedRunIsFinal` | src/observable.ts:299-362 | from any ending on, whatever callbacks do, nothing more is received, delivered, dropped or completed |
| `Observing.OperatorEndsIff` | src/observable.ts:299-362 | in every run, exactly the events that end the operator, each with its own ending, which empties the buffer and closes the source |
| `Observing.ValuesMoveIff` | src/observable.ts:299-342 | in every run, exactly the events by which a value is received, delivered or reported dropped, and which value that is |
| `Breaking.CountAlwaysMatches` | src/circuitBreaker.ts:37-105 | for overlapping calls in any order: closed implies below the threshold; open or half-open and not paused implies at or above it |
| `Breaking.CountMatchesIffPositiveThreshold` | src/circuitBreaker.ts:32-74 | that holds for all runs iff the threshold is at least 1 |
| `Breaking.FailedProbeReopens` | src/circuitBreaker.ts:67-74 | a failure while half-open always reopens and restarts the cooldown |
| `Breaking.TripsAtThreshold` | src/circuitBreaker.ts:67-74 | without successes a closed breaker trips at exactly the failure that reaches the threshold |
| `Breaking.ProbesAreSpaced` | src/circuitBreaker.ts:41-58 | any two calls admitted outside closed are at least min(cooldown, probe interval) apart |
| `Breaking.PauseHolds` | src/circuitBreaker.ts:38-89 | nothing is admitted from a pause until a resume, whatever settles or resets meanwhile |
| `Breaking.AlwaysRecovers` | src/circuitBreaker.ts:37-65 | from any reachable state that is not paused, once both timers have run out a call is admitted and its success closes the breaker |
| `Breaking.AdmittedIff` | src/circuitBreaker.ts:37-58 | in every run a call is let through iff nobody has paused the breaker since the last resume and it is closed, or the cooldown since the last failure or pause is over, or the probe interval since the last probe; and otherwise what it is told |
| `Breaking.StateMovesIff` | src/circuitBreaker.ts:37-105 | in every run, exactly which events move the state and the count; a late success never closes an open breaker |

## Left out

- `SoroStreamClient`, `horizon`, `rpc-compat`, `indexer`, `profiler`, `feeBump`, the encoders, React hooks, loggers, error classes, configuration and bundling: I/O, Stellar SDK calls and plumbing.
- Plugin registry: the before/after hooks themselves; a single string given for `before` or `after` is a one-element list.
- ListNeverThrows: is about new plugins and new names only; `ListWorksIffNothingBreaks` covers every run.
- Cache: patterns are predicates on keys (the meaning of regular expressions is the host's); a stored value or key `undefined` is not modelled, nor a predicate that calls back into the cache; `setTtl` only changes a default.
- Deduplicator: `peakInFlight`, the `onDeduplicated` callback, `dedupKey`'s joining of its parts, and factories that call back into the deduplicator.
- Replay transport: file I/O, redaction, request chaining and filters; the text passes of `JSON.stringify` and `JSON.parse` are the identity on data values, a number is the literal the host prints, `BigInt` of anything but plain decimal text is a host parameter, and `undefined`, functions and NaN are not values. The host's moving of index-like object keys to the front is not modelled.
- Connection pool: a pool of size 0 has no slot to grant and throws; idle sweeping, pool events, pollers and servers themselves. An abort of a poller's signal is a release.
- Request queue: wait estimates, durations and `waitForDrain`; tasks that throw synchronously, whose slots are never released. A task that enqueues others while it starts does so after its own slot is taken, which is the same as enqueueing right after.
- Mock ledger: `updateFlowRate` (it re-prices time already accrued), `seedStream`, `cloneStream`, delegates, observables, events and listeners that call back in the middle of a batch, explain and dry-run branches; ledgers share one counter of stream numbers, each here has its own; converting bigints to `Number` and subtracting ratio terms are exact, and clock readings and advances are whole seconds; each call reads the clock once.
- LedgerConserves: assumes a clock that does not run backwards, and that no withdrawal finds a withdrawal time ahead of the clock, which `StepConserves` shows to be what conservation needs of each call.
- FlowAccounting: follows a stream until it is paused, split or cancelled, or topped up by an operator after it has completed; the whole ledger is covered by `LedgerConserves`.
- Offline queue: operation identifiers, the health-check timer (its recovery is going online) and the drained event; priorities are real numbers, so NaN is excluded.
- Observables: a consumer's callbacks for an error or a completion run after the subscription has closed, so what they call has no effect and is not modelled; `map`, `filter`, `shareLatest`, `firstValue` and async iteration. A consumer of the backpressure operator that throws is a rejected delivery.
- Circuit breaker: the error texts; one clock reading per step.
