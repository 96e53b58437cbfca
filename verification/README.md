# Verified model of the apiary control plane

A Dafny 4.11 model of the stateful mechanisms in the control plane of an agent orchestrator, with proofs about whole
runs: warm pools of agent processes shared by concurrent goroutines, the Comb session store and the Keeper's cache in
front of it, the Queen's reconciliation, resource scheduling and autoscaling, the guardrails of the message relay,
circuit breaking, hierarchical task delegation, and the Cell-scoped topic names.

`dafny verify dfyconfig.toml` checks everything.

## How it is organised

| file | models |
|---|---|
| `warmpool.dfy` | the warm pools as a state machine, one step per lock region or outside call, any number of threads |
| `warmpool_orphans.dfy` | what becomes of the drones in a pool that the idle sweeper has forgotten |
| `warmpool_sweeps.dfy` | what a sweep and a refill, left alone, make of pools |
| `warmpool_manager.dfy` | the pool and manager objects, each call from start to end |
| `comb.dfy`, `comb_properties.dfy` | the Comb store and what its runs guarantee |
| `comb_answers.dfy` | what its callers are told, in terms of what was stored |
| `structured.dfy` | the state machine kept inside a Comb session, one transition at a time |
| `structured_races.dfy` | a transition as its four store calls, with anything in between, and two of them at once |
| `keeper_cache.dfy` | the Keeper's FIFO cache and its `/comb/{key}` proxy, one request at a time |
| `keeper_races.dfy`, `keeper_recency.dfy` | the same proxy with requests overlapping; the cache beside a least-recently-used one |
| `keeper_answers.dfy` | what agents are told by the proxy |
| `queen.dfy`, `queen_backing.dfy` | reconciliation of AgentSpecs into Drones; which of them lose their process |
| `queen_counts.dfy` | how many Drones reconciliation leaves, in numbers |
| `scheduler.dfy` | resource reservation and task tiers |
| `metrics.dfy`, `autoscaler.dfy` | aggregated metrics and scaling decisions |
| `ratelimit.dfy`, `tokenbudget.dfy` | token bucket and token budgets |
| `relay.dfy` | the outbound relay: publisher, offers and session resets, one step at a time in any order |
| `relay_accounts.dfy`, `relay_limits.dfy` | what every interleaving of the relay keeps, and where the budgets stop short |
| `relay_minutes.dfy`, `relay_answers.dfy` | what one clock minute can see delivered; what becomes of an offered message, in numbers |
| `circuitbreaker.dfy` | the per-Drone circuit breaker |
| `hierarchical.dfy` | supervisor/worker delegation |
| `topic.dfy` | topic prefixing and namespace validation |
| `decimal.dfy`, `text.dfy`, `arithmetic.dfy`, `wrappers.dfy` | base-10 int64 text; joined names; integer helpers; an option type |

Every mutable object of the program is a class with the program's fields. Each of its methods is proved equal to a
step function on a value (`Step`, `HandleStep`, `CreateStep`, ...), and the lemmas about runs are about those step
functions, so a change to a method's branches breaks the method and a change to a step function breaks the lemmas. What
each operation decides is also stated in the request's and the configuration's own numbers, without its step function.
Time is an explicit argument that never goes backwards. Store, launcher, bus, validators and encoders appear as
parameters that say which calls succeed.

What the program gets wrong is modelled as it is. Where a natural invariant fails, a lemma gives the exact condition under
which it holds, as something that can be read off before the call or off the run:

- `Incr` works on expired entries and does not count its bytes (`internal/comb/comb.go:322-341`): the store answers like an
  eagerly expiring map if and only if no `Incr` finds an expired entry, and an `Incr` keeps the limit if and only if what
  it adds fits.
- A background sweep is visible under a memory limit: the exact margin is `CombProperties.SweepIsVisibleUnderLimit`.
- Re-inserting a cached key drops it from the FIFO order (`internal/keeper/keeper.go:132-151`): inserting keeps the order
  if and only if the key is new. The proxy inserts only after a miss, but overlapping misses of one key break it, and
  such misses can fill the cache beyond any size.
- A PUT's lifetime does not reach the cache (`internal/keeper/keeper.go:116-119`): for a sole writer a GET is right if and
  only if its cached key is still live in Comb.
- The cache is documented as an LRU cache (`docs/ARCHITECTURE.md:128`) and evicts first in, first out: the two agree on
  the next victim if and only if every other key has been used since the last use of the one inserted first.
- A session-budget refusal leaves the minute counter charged (`internal/guardrails/tokenbudget.go:66-90`), under exactly
  the guard of that branch.
- A session reset takes only the tracker's lock, so it can fall between a charge and its publish
  (`internal/keeper/relay.go:418-461`, `internal/guardrails/tokenbudget.go:110-115`): the session budget then bounds what is
  published only together with what was under way. It is safe to reset if and only if nothing is. Likewise a minute keeps
  to its budget by time of delivery if and only if nothing is under way when it begins.
- "Limits requests per minute" (`docs/ARCHITECTURE.md:216`) holds if and only if the burst and sixty refills fit the
  configured number, which they never do with the burst the Keeper configures (`internal/keeper/keeper.go:261`).
- A state transition writes the state before the history (`internal/comb/structured.go:252-277`): the history is lost if
  and only if the memory limit lies between the two, or at some moment of the schedule two transitions have both loaded
  it and neither has stored it. When none of two is lost, their history can still fail to be a chain.
- `handleWorkerOutput` uncounts a task for any message (`internal/patterns/hierarchical.go:282`).
- `Schedule` reserves and nothing releases (`internal/scheduler/scheduler.go:72-74`).
- A breaker can be driven open if and only if its threshold is within `maxFailures`
  (`internal/circuitbreaker/circuitbreaker.go:91-99`).
- One failure-free reconciliation pass is not enough if and only if, by the counts before it, some spec is refused a
  replica in a namespace that later shrinks below its quota. Two passes always are.
- A pool removal cancelled on entry to its cut, or racing with a filler, forgets a pool with drones in it
  (`internal/warmpool/manager.go:458-485`). The i-th of them, counting from zero, then runs for good if and only if
  the borrowers that still hold the pool and the drones that sweepers still plan to cut from it come to at most i.
- Deletion stops the process before the store deletes the record (`internal/queen/queen.go:509-524`): a stored Drone is
  without a process if and only if its last deletion failed.

## Model

| member | source | states |
|---|---|---|
| WarmPools.EveryProcessHasOnePlace | internal/warmpool/manager.go:95-553 | For any number of threads and any interleaving of lock regions, outside calls and cancellations, every launched process is at exactly one of seven places, every recorded size is the real one, and no pool exceeds the largest minimum ever requested |
| WarmPools.NoDroneIsSharedOrStopped | internal/warmpool/manager.go:131-142 | From an empty manager: a pooled process was launched, is in one pool once, is in nobody's hands, and has been neither stopped nor abandoned; a handed-out process has not been stopped; no launched process is lost |
| WarmPools.StepKeepsLocated | internal/warmpool/manager.go:212-339 | Each single step keeps the one-place accounting |
| WarmPools.StepKeepsSound | internal/warmpool/manager.go:497-510 | Each single step keeps every pool's recorded size equal to its real size, duplicate-free, and within the peak request; needs the one-place accounting |
| WarmPools.LaunchKeepsLocated | internal/warmpool/manager.go:263-305 | A launched process is placed in flight in its filler; a failed store places exactly it at stopped; nothing else moves |
| WarmPools.CommitKeepsLocated | internal/warmpool/manager.go:319-336 | The commit after the size re-check moves exactly its process, to the pool when that is below the target and to stopped otherwise |
| WarmPools.BorrowKeepsLocated | internal/warmpool/manager.go:131-170 | Borrowing moves exactly the first process of the pool, into the caller's hands when it runs and to abandoned otherwise |
| WarmPools.ReturnKeepsLocated | internal/warmpool/manager.go:173-209 | A return takes exactly its process out of the caller's hands, and puts it into the pool when there is room and it runs, back otherwise |
| WarmPools.ScaleDownKeepsLocated | internal/warmpool/manager.go:497-510 | The locked cut moves exactly the first processes of the pool to the sweeper |
| WarmPools.StopKeepsLocated | internal/warmpool/manager.go:527-546 | A stop moves exactly the sweeper's first process to stopped |
| WarmPools.CancelKeepsLocated | internal/warmpool/manager.go:512-525 | A cancellation abandons exactly the processes the sweeper had still to stop |
| WarmPools.EveryMoveIsAllowed | internal/warmpool/manager.go:95-553 | Over every run, step by step: in flight leads to pooled or stopped, pooled to handed out, abandoned or being stopped, handed out to being returned, that back or to pooled, being stopped to stopped or abandoned; every other process stays put |
| WarmPoolOrphans.RunKeepsIndexed | internal/warmpool/manager.go:98-113 | In every run distinct keys have distinct existing pools, and sweepers have plans for existing pools only |
| WarmPoolOrphans.DroneIsLostExactlyWhen | internal/warmpool/manager.go:120-553 | The i-th drone of a pool that no key leads to stays in it in every continuation, running and out of reach, if and only if the threads still holding the pool may take at most i: one each borrower, its planned cuts each sweeper |
| WarmPoolOrphans.ForgettingOrphansExactlyWhen | internal/warmpool/manager.go:471-474 | Forgetting a key loses the i-th drone of its pool if and only if those claims are at most i, and some drone if and only if they are fewer than its drones |
| WarmPoolOrphans.CancelledRemovalOrphans | internal/warmpool/manager.go:489-495 | A removal cancelled on entry to its cut forgets the pool with all its drones, and loses exactly those beyond what the other threads claim |
| WarmPoolOrphans.CancelledRemovalHappens | internal/warmpool/manager.go:489-495 | A run from a manager without pools in which a removal is cancelled on entry to its cut and a running drone is lost |
| WarmPoolOrphans.FillerRaceHappens | internal/warmpool/manager.go:319-336 | The same without any cancellation: a filler commits between the removal's cut and the removal of the key |
| WarmPoolOrphans.OrphansStay | internal/warmpool/manager.go:120-209 | In every continuation a forgotten pool stays forgotten and loses drones at the front only, no more of them than the claims spent |
| WarmPoolSweeps.SweepLeftAlone | internal/warmpool/manager.go:405-553 | A sweep of any pools, left alone, in pool fields: a pool idle for longer than the timeout keeps at most its minimum, the last to have joined, any other is unchanged; a key is forgotten if and only if its pool has no minimum and was idle for more than twice the timeout; every drone that leaves is stopped, and nothing else is touched |
| WarmPoolSweeps.SweepFinishes | internal/warmpool/manager.go:460-546 | However a sweeper's steps are lined up, once it is done every pool is shorter by exactly what was planned for it and exactly the keys to remove are gone |
| WarmPoolSweeps.SweepCanFinish | internal/warmpool/manager.go:460-546 | From every state a sweeper has a way to finish |
| WarmPoolSweeps.RunMarksUse | internal/warmpool/manager.go:95-208 | In every run a pool's idle time counts from its last use, by EnsurePool, by a drone taken or by one put back, and its minimum is the last one asked for |
| WarmPoolSweeps.MaintenanceRefills | internal/warmpool/manager.go:362-402 | The maintenance refill of a pool below its minimum, left alone, ends with exactly the minimum: the drones it had, then the new ones |
| WarmPoolSweeps.EnsureFills | internal/warmpool/manager.go:95-117 | EnsurePool, left alone, with or without a pool for the key: a pool with the minimum asked for, used now, holding what it held and then exactly what was missing |
| WarmPoolSweeps.FailuresEndTheFiller | internal/warmpool/manager.go:213-305 | A filler ends at once, leaving its pool alone, when it is cancelled before a launch or when scheduling, launching or storing fails; what it launched and could not store is stopped |
| WarmPoolSweeps.BorrowLeftAlone | internal/warmpool/manager.go:120-170 | GetWarmDrone, left alone: the first drone leaves the pool, into the caller's hands when it runs; an empty pool gives none |
| WarmPoolSweeps.ReturnLeftAlone | internal/warmpool/manager.go:173-209 | ReturnDrone, left alone: a running drone joins a pool below its minimum as the last, any other stays with the caller |
| WarmPools.FatesAreFinal | internal/warmpool/manager.go:512-535 | Stopped and abandoned processes stay so in every continuation |
| WarmPoolManager.WarmPool.FillPool | internal/warmpool/manager.go:212-339 | The fill loop ends exactly as the recursive fill does, with both cancellation checks and whatever others put in and take out while the lock is dropped; it terminates when only finitely many drones are taken |
| WarmPoolManager.WarmPool.TakeWarmDrone | internal/warmpool/manager.go:131-170 | First in, first out; a drone that is not running is dropped and not handed out |
| WarmPoolManager.WarmPool.TakeBack | internal/warmpool/manager.go:195-208 | Appends the drone only below the minimum size |
| WarmPoolManager.WarmPool.ScaleDown | internal/warmpool/manager.go:489-553 | Cancelled on entry nothing is cut; otherwise the drones cut are exactly those stopped followed by those abandoned, and some are abandoned only at a cancellation |
| WarmPoolManager.Manager.EnsurePool | internal/warmpool/manager.go:95-117 | Creates the pool or updates its minimum, then fills it; no other pool is replaced |
| WarmPoolManager.Manager.GetWarmDrone | internal/warmpool/manager.go:120-170 | The head of the pool leaves it and is handed out if and only if it is running; a missing or empty pool answers nothing and changes nothing |
| WarmPoolManager.Manager.ReturnDrone | internal/warmpool/manager.go:173-209 | A drone that is not running, or has no pool, changes nothing |
| WarmPoolManager.FillLeaksNothing | internal/warmpool/manager.go:212-339 | Conservation: whatever fails or is cancelled, every drone pooled, launched or put in by others is pooled, stopped or taken out, as often as it came in; success means the target was met |
| WarmPoolManager.FillReachesTarget | internal/warmpool/manager.go:212-339 | When nothing fails or is cancelled, a fill ends without error at or above the target, however many others put in or take out drones |
| WarmPoolManager.LoneFillLaunchesTheDeficit | internal/warmpool/manager.go:226-236 | Alone it launches exactly the missing number, pools them in order and stops none |
| WarmPoolManager.FirstFailureEndsTheFill | internal/warmpool/manager.go:249-305 | After k rounds that succeed, the first that fails ends the fill with its own error and k new drones in the pool; a drone that could not be stored is stopped |
| Comb.Store.Get | internal/comb/comb.go:89-145 | Answers and new contents as specified; an expired entry is deleted on the way and its bytes refunded |
| Comb.Store.Set | internal/comb/comb.go:148-209 | Writes the entry and charges the difference, or refuses at the limit; a refused write still opens the session |
| Comb.Store.Delete | internal/comb/comb.go:212-243 | Removes the entry and refunds its bytes; only a missing session is an error |
| Comb.Store.Exists | internal/comb/comb.go:246-297 | False for missing and expired keys, deleting the latter |
| Comb.Store.Incr | internal/comb/comb.go:300-344 | Adds one in wrapping int64 arithmetic to the stored decimal, expired or not, without charging bytes; non-numbers are refused |
| Comb.Store.Keys | internal/comb/comb.go:347-389 | Lists exactly the live keys that match, each once |
| Comb.Store.Clear | internal/comb/comb.go:401-424 | The deletion loop empties the session and zeroes its counter |
| Comb.Store.ExpireKeys | internal/comb/comb.go:458-504 | Collect-then-delete removes exactly the expired entries of every session and refunds exactly their bytes |
| Comb.Store.CollectExpired | internal/comb/comb.go:464-491 | Lists every expired entry once, with its size |
| Comb.PurgedCompletely | internal/comb/comb.go:493-503 | Deleting a complete list of expired entries one by one ends in the map of live entries |
| Comb.EntryFrame | internal/comb/comb.go:148-424 | An entry without expiry changes only through calls that name it |
| Comb.BytesWith | internal/comb/comb.go:171-192 | Replacing one value changes a session's bytes by the difference of the lengths, however the bytes are summed up |
| CombAnswers.SetIsReadBack | internal/comb/comb.go:148-209 | A value that Set has stored is read back by every Get of every run until t0 + ttl, for ever if ttl is not positive, as long as nothing names its key or clears its session; after that the key is gone |
| CombAnswers.RemovedIsNotFound | internal/comb/comb.go:212-243 | After Delete or Clear, in every run that does not write it again, the key is not found |
| CombAnswers.ListingIsWhatIsReadable | internal/comb/comb.go:246-389 | Exists and Keys see exactly the keys that a Get would answer: all of them for the pattern "*", the one named for any other |
| CombAnswers.IncrOfNumber | internal/comb/comb.go:300-344 | Incr of a base-10 int64 text n, or of nothing for zero, answers n + 1, wrapping after the greatest, and stores a text of that |
| CombAnswers.IncrOfOther | internal/comb/comb.go:326-330 | Of any other text it answers an error and changes no entry |
| CombAnswers.SetIsRefusedExactlyWhen | internal/comb/comb.go:171-185 | In every run without Incr a Set is refused if and only if its session would then hold more bytes of values than the last limit set, in MiB |
| CombProperties.RunRefines | internal/comb/comb.go:89-389 | For every run from every state: the store answers like an eagerly expiring map and holds its live entries, call by call, if and only if no Incr of the run finds an expired entry |
| CombProperties.StepRefines | internal/comb/comb.go:89-344 | The same for one call of any kind |
| CombProperties.IncrRefinesExactlyWhen | internal/comb/comb.go:322-341 | Incr answers and stores what the eager map would if and only if the entry it finds has not expired |
| CombProperties.LateDeletionIsInvisibleExactlyWhen | internal/comb/comb.go:128-141 | The deletion that follows a lookup of an expired entry, in whatever state another writer has left the store, is invisible if and only if the key is gone or still expired |
| CombProperties.UnlimitedSetsSucceed | internal/comb/comb.go:176-192 | A session without a limit never has a Set refused, at any point of any run |
| CombProperties.RunKeepsBalance | internal/comb/comb.go:171-192 | Conservation: after every run each session's counter plus the drift of its Incr calls since the last Clear is the total length of its values |
| CombProperties.StepKeepsBalance | internal/comb/comb.go:322-341 | The same for every single call, Incr included |
| CombProperties.IncrFreeRunsAreExact | internal/comb/comb.go:236-240 | Without Incr the counters are exact |
| CombProperties.LimitHoldsWithoutIncr | internal/comb/comb.go:176-185 | Without Incr a session at or below its limit stays there until the limit is changed |
| CombProperties.LimitHoldsUpToDrift | internal/comb/comb.go:176-185 | With Incr allowed, in every run a session passes its limit by no more than its drift |
| CombProperties.IncrCounts | internal/comb/comb.go:300-344 | The n-th increment of a missing key answers n, through the decimal text it stores |
| CombProperties.IncrEscapesTheLimit | internal/comb/comb.go:322-341 | An Incr leaves a session within its limit if and only if the bytes it adds fit; the counter does not move |
| CombProperties.IncrSeesExpiredEntries | internal/comb/comb.go:322-341 | For every expired counter Incr answers its successor, where the eager map answers 1 |
| CombProperties.SweepIsVisibleUnderLimit | internal/comb/comb.go:176-185 | A sweep changes the verdict on a Set if and only if the new value exceeds the limit with the expired bytes counted and meets it without them |
| Decimal.ParseUndoesFormat | internal/comb/comb.go:326-337 | Every int64 that is written in base 10 is read back as itself |
| Decimal.ParsesExactly | internal/comb/comb.go:326-337 | A text is read as n if and only if n is an int64 and the text a sign that fits or none, any zeros, and the base-10 digits of n |
| Decimal.FormatNatIsDecimal | internal/comb/comb.go:332-340 | The text of 10n + d is that of n followed by the digit d |
| StructuredRaces.TransitionState | internal/comb/structured.go:240-278 | The four separately locked store calls in order, with whatever other callers do before each and a clock reading for each, with each way of failing and what has been written by then |
| Structured.GetState | internal/comb/structured.go:230-237 | A plain Get of the state key |
| Structured.GetStateHistory | internal/comb/structured.go:281-294 | No stored history reads as empty, an undecodable one as an error |
| Structured.SetState | internal/comb/structured.go:224-227 | A plain Set of the state key, without a guard |
| Structured.TransitionByGuard | internal/comb/structured.go:240-278 | Without limit and expiry a transition is accepted if and only if the session exists and is in the named state or in none; accepted it moves the state and appends itself, refused it changes nothing |
| Structured.ReadersShowTheTransition | internal/comb/structured.go:230-294 | After an accepted transition both readers show it at any later time and change nothing |
| Structured.RefusalsAreTold | internal/comb/structured.go:240-255 | For all states: a lookup error exactly without a session or with an expired state, an invalid transition exactly for a live state that is neither empty nor the one named, a store error exactly when the limit has no room for the new state |
| Structured.UnreadableHistory | internal/comb/structured.go:257-294 | A history that does not decode is an error to its reader; a transition goes on from what the decoder left of it |
| Structured.TransitionsOnlyRun | internal/comb/structured.go:240-278 | In every run of transitions with non-empty targets among other Comb traffic, the history is exactly the accepted calls in order, a chain that ends in the current state |
| Structured.SetStateBreaksUnlessNoOp | internal/comb/structured.go:224-227 | Setting the state directly keeps history and state consistent if and only if it repeats the current state |
| Structured.HistoryIsCutExactlyWhen | internal/comb/structured.go:252-277 | For all states, expired entries included: the history write fails after the state has moved if and only if the call is accepted and the limit lies between usage after the state write and usage after the longer history |
| Structured.LostHistoryWriteBreaks | internal/comb/structured.go:252-277 | When the limit has cut the history, state and history agree if and only if the move was a no-op |
| Structured.EmptyTargetBreaksTheChain | internal/comb/structured.go:247-255 | After any accepted empty target the next transition is accepted whatever it starts from, and the history stays a chain if and only if that is the empty state |
| Structured.ConsistentExactlyWhen | internal/comb/structured.go:240-278 | One call keeps history and state consistent if and only if it is refused or names a non-empty target |
| StructuredRaces.FourCallsAreOneTransition | internal/comb/structured.go:240-278 | With nothing in between, the four store calls are the one-step transition that the lemmas of Structured are about |
| StructuredRaces.FinishIsARun | internal/comb/structured.go:240-278 | However it is interrupted, TransitionState is one side of a run of the two-transition race that the lemmas below are about |
| StructuredRaces.RaceLosesATransitionExactlyWhen | internal/comb/structured.go:257-277 | Of two transitions in any interleaving that both report success, the history keeps only the one stored last if and only if the schedule overlaps, and both in the order stored otherwise |
| StructuredRaces.OverlappedAtSomeMoment | internal/comb/structured.go:259-277 | A schedule overlaps if and only if some prefix of it gives both transitions exactly three of their four store calls: both have loaded the history and neither has stored it |
| StructuredRaces.RaceFollowsSchedule | internal/comb/structured.go:240-278 | In every interleaving, unless one of the two is refused, what each has loaded, the history and the current state are what the schedule alone says |
| StructuredRaces.RaceStaysConsistentExactlyWhen | internal/comb/structured.go:252-277 | For two overlapping successful transitions from any consistent session, history and state agree afterwards if and only if a condition on schedule, start state and the two calls' states holds: the last to set the state names the target of the last to store, and each entry kept continues the one before it |
| StructuredRaces.BothMovesFromOneState | internal/comb/structured.go:240-278 | In every session, two moves out of its state whose guards are both checked first both succeed and are both kept, and the history is a chain if and only if the first was a no-op |
| KeeperCache.CombCache.Get | internal/keeper/keeper.go:79-109 | A hit only until the expiry time; an expired entry leaves data and order together |
| KeeperCache.CombCache.Set | internal/keeper/keeper.go:111-152 | Evicts the head of the order for a new key in a full cache; an existing key leaves the order and is not put back |
| KeeperCache.CombCache.Drop | internal/keeper/keeper.go:154-165 | Takes the key out of data and order |
| KeeperCache.CombCache.RemoveFromOrder | internal/keeper/keeper.go:134-139 | The scan-and-splice loop removes the first occurrence |
| KeeperCache.Keeper.HandleComb | internal/keeper/keeper.go:875-949 | GET, PUT and DELETE as sequences of cache and Comb calls, with every error answer |
| KeeperCache.InsertKeepsFifoIffNew | internal/keeper/keeper.go:121-151 | Inserting keeps the FIFO order if and only if the key is not cached already |
| KeeperCache.EvictsTheOldest | internal/keeper/keeper.go:124-131 | Eviction removes the entry that was inserted first and only that one |
| KeeperCache.HandleKeepsFifo | internal/keeper/keeper.go:886-944 | Every request keeps the order a duplicate-free list of the cached keys by insertion time, within the size bound |
| KeeperCache.RunKeepsSourced | internal/keeper/keeper.go:886-944 | After every run of requests and foreign Comb traffic the order and bound hold and every cached value was live in Comb when it was cached |
| KeeperCache.BoundedStaleness | internal/keeper/keeper.go:886-907 | Whatever a GET serves was Comb's live value for that key at some instant of the last five minutes, whoever else writes |
| KeeperCache.SoleWriterReadsDirectly | internal/keeper/keeper.go:886-944 | For a Keeper that is the only writer and uses no TTL every GET answers what a direct Comb.Get would |
| KeeperCache.CachedReadsAreDirectExactlyWhen | internal/keeper/keeper.go:886-944 | For a Keeper that is the only writer, with any TTLs, after every run a GET answers what a direct Comb.Get would if and only if its key, when cached and not expired there, is still live in Comb |
| KeeperCache.FreshKeeper | internal/keeper/keeper.go:71-77 | A new Keeper satisfies the hypotheses of the lemmas above; for SoleWriterReadsDirectly exactly when nothing in its session expires |
| KeeperCache.StalenessIsReal | internal/keeper/keeper.go:116-119 | Instances: the five minutes used in full after a foreign write, and the case in which a sole writer's TTL makes a cached read differ |
| KeeperAnswers.PutIsAcknowledgedExactlyWhen | internal/keeper/keeper.go:909-931 | A PUT that is acknowledged is answered by every GET, through the cache and direct, until its lifetime is over; one that is not has changed no entry of Comb or the cache |
| KeeperAnswers.DeleteIsAcknowledgedExactlyWhen | internal/keeper/keeper.go:933-946 | A DELETE is turned down if and only if Comb has no such session; acknowledged, the key is gone from Comb and cache |
| KeeperAnswers.ServedForFiveMinutes | internal/keeper/keeper.go:116-119 | What a GET fetched it serves for exactly five more minutes, whatever others do to Comb meanwhile, and then answers as Comb does |
| KeeperAnswers.CachedForItsLifetime | internal/keeper/keeper.go:79-152 | A cached entry is found for exactly its lifetime, five minutes by default |
| KeeperAnswers.OtherRequestsAreErrors | internal/keeper/keeper.go:875-949 | A missing key, a malformed body and any other method are errors that change nothing |
| KeeperAnswers.SessionsAreIsolated | internal/keeper/keeper.go:896-897 | For accepted namespaces the session names of different Cells never coincide |
| KeeperRaces.UninterruptedGet | internal/keeper/keeper.go:886-907 | The three moves of a GET, left alone, are the GET handled in one step |
| KeeperRaces.UninterruptedWrite | internal/keeper/keeper.go:909-944 | Likewise the two moves of a PUT or DELETE |
| KeeperRaces.StalenessWithOverlaps | internal/keeper/keeper.go:886-944 | Requests overlapping in any way: if GETs fill the cache within a lag of their read, a cached answer was live within the last five minutes and that lag |
| KeeperRaces.FillKeepsOrderExactlyWhen | internal/keeper/keeper.go:904-904 | A GET's fill keeps the FIFO order if and only if no other request has cached its key meanwhile |
| KeeperRaces.SizeUnderOverlaps | internal/keeper/keeper.go:111-152 | However requests overlap, a new Keeper's cache passes its size only while its order holds at most one key, and by no more than the fills of keys already cached; without such fills it stays within its size |
| KeeperRaces.FillKeepsSizeExactlyWhen | internal/keeper/keeper.go:121-151 | From within the size a fill stays there if and only if its key is cached, there is room, or the order still has a key to evict |
| KeeperRaces.OverlapsOutgrowAnySize | internal/keeper/keeper.go:886-907 | Whatever the size, overlapping GETs can bring any number of stored keys into the cache together |
| KeeperRaces.FillKeepsMirrorExactlyWhen | internal/keeper/keeper.go:897-904 | A fill keeps the cache equal to Comb if and only if Comb still stores what was read |
| KeeperRaces.WriteKeepsMirrorExactlyWhen | internal/keeper/keeper.go:922-928 | Between a PUT's write and its invalidation cache and Comb agree if and only if the key is not cached or cached with that value |
| KeeperRaces.OverlappingReadsAreDirect | internal/keeper/keeper.go:886-944 | For the only writer, in every interleaving in which no key is written while a GET holds a value of it, whatever the cache serves for a key not just being written is Comb's own answer |
| KeeperRecency.RunKeepsUses | internal/keeper/keeper.go:111-152 | In every run the cache's order is the order of first uses of the keys it holds |
| KeeperRecency.EvictsLeastRecentExactlyWhen | internal/keeper/keeper.go:124-131 | After every run the next eviction removes the least recently used key if and only if every other cached key has been used since the last use of the one inserted first |
| KeeperRecency.JustServedIsEvicted | internal/keeper/keeper.go:124-131 | In every full cache of two or more the key inserted first is evicted by the next miss though it has just been served |
| Queen.Orchestrator.CreateDrone | internal/queen/queen.go:418-506 | Quota check, schedule, launch, store, register, with each failure; a process whose record could not be stored is stopped |
| Queen.Orchestrator.DeleteDrone | internal/queen/queen.go:509-541 | Stops and unregisters the process, then deletes the record, which may fail |
| Queen.Orchestrator.ReconcileAgentSpec | internal/queen/queen.go:320-415 | Creates the missing replicas or deletes the first surplus ones of the listing |
| Queen.Orchestrator.PerformReconciliation | internal/queen/queen.go:235-272 | Reconciles the listed specs in order; nothing happens when they cannot be listed |
| Queen.RunKeepsTracked | internal/queen/queen.go:418-541 | In every run of passes with arbitrary scheduler, launcher and store failures the running processes are exactly the registry's entries and each has its stored Drone |
| Queen.CreateKeepsTracked | internal/queen/queen.go:470-485 | One creation, however it fails, leaves no untracked process |
| Queen.DeleteKeepsTracked | internal/queen/queen.go:509-524 | One deletion, however it fails, leaves no registry entry without a Drone |
| Queen.BackedUnlessDeletionFails | internal/queen/queen.go:510-524 | Deleting keeps a process behind every stored Drone if and only if the store's deletion succeeds |
| QueenBacking.BackedExactlyWhen | internal/queen/queen.go:235-541 | After every run of passes with arbitrary failures a stored Drone is without its process if and only if its last deletion failed, and every one has its process if and only if no failed deletion was left at that |
| QueenCounts.ReconcileReachesMinReplicas | internal/queen/queen.go:354-412 | When nothing fails and there is room, reconciling a spec, from any number of its Drones, ends with exactly minReplicas of them, or one if that is below one; the surplus deleted is the first of the listing |
| QueenCounts.PassReachesMinReplicas | internal/queen/queen.go:235-415 | The same for every spec after a whole pass, if its namespace has room for all that its specs are short of, or no quota that can be looked up |
| QueenCounts.PassKeepsQuota | internal/queen/queen.go:418-432 | Whatever else fails, a pass never takes a namespace past a quota that can be looked up |
| QueenCounts.CreationAnswers | internal/queen/queen.go:418-506 | A creation adds exactly one Drone of the spec with a process of its own, or changes nothing stored or running and names the first thing that failed; the quota counts only if Cell and Drones can be looked up |
| Queen.PassApproachesTargets | internal/queen/queen.go:320-415 | Over a whole pass with any failures every spec moves towards its own target and never past it; without failures a spec above its target lands on it |
| Queen.ReconcileApproachesTarget | internal/queen/queen.go:354-412 | The same for one spec, and no other spec's count changes |
| Queen.DeletesTakeAtMost | internal/queen/queen.go:399-411 | Deleting listed drones takes away at most one each, exactly one each without failures, and leaves all others |
| Queen.PassFillsToQuota | internal/queen/queen.go:418-432 | A failure-free pass with no spec above target takes a namespace of N drones to N plus its total deficit, or to the larger of N and the quota if that is less |
| Queen.PassDoesNothingExactlyWhenSettled | internal/queen/queen.go:354-412 | A failure-free pass changes nothing if and only if every spec is at its target or below it in a namespace without room |
| Queen.SecondPassDoesNothing | internal/queen/queen.go:235-272 | After a failure-free pass that started with no spec above target, another changes nothing |
| Queen.ThirdPassDoesNothing | internal/queen/queen.go:235-272 | From any state two failure-free passes settle everything |
| Queen.PassTotals | internal/queen/queen.go:257-271 | From any state a failure-free pass takes each namespace where the integer fold over its specs' counts, targets and the quota does |
| Queen.PassReplicas | internal/queen/queen.go:354-412 | From any state each spec gains or loses exactly what its own step of that fold does |
| Queen.SecondPassActsExactlyWhen | internal/queen/queen.go:257-271 | From any state a second failure-free pass has something to do if and only if, by the counts before the first, some spec is refused a replica in a namespace whose total ends below its quota |
| Queen.SecondPassIsNeeded | internal/queen/queen.go:257-271 | An instance of the condition in the row above: a spec that gets its replica only in the second pass |
| Scheduling.Scheduler.Schedule | internal/scheduler/scheduler.go:35-98 | Defaults, tier scaling and minimums, then grant or the first resource that is short |
| Scheduling.ApplyTierHints | internal/scheduler/tier.go:114-129 | Scales by the tier's factor, truncating, and raises to the minimums |
| Scheduling.ScheduleInNumbers | internal/scheduler/scheduler.go:35-98 | In the request's own numbers, 500m and 512 MiB by default: four fifths of it for simple tasks, one and a half times it for complex ones, itself otherwise, rounded down and at least 100m and 128 MiB, is granted and taken off, or refused for CPU or for memory exactly when it exceeds what is left |
| Scheduling.HintsFollowTheTier | internal/scheduler/tier.go:31-111 | Priority and cost preference follow the tier, unknown tiers being standard |
| Scheduling.Scheduler.GetResourceAvailability | internal/scheduler/scheduler.go:101-111 | Reports what is left and the fixed totals |
| Scheduling.Conservation | internal/scheduler/scheduler.go:62-74 | For every sequence of calls, available plus everything granted is the initial total and availability never goes negative |
| Scheduling.AtMost800Grants | internal/scheduler/scheduler.go:24-32 | No sequence of calls is granted more than 800 reservations, negative and zero requests included |
| Scheduling.Exactly800GrantsArePossible | internal/scheduler/scheduler.go:24-32 | The bound is reached |
| Scheduling.RefusalIsPermanent | internal/scheduler/scheduler.go:62-74 | Granted if and only if the demand fits; a spec refused once is refused after every further sequence of calls |
| Scheduling.TiersAreOrdered | internal/scheduler/tier.go:86-97 | Any request, negative ones included, demands no more as simple than as standard and no more as standard than as complex |
| Metrics.Collector.RecordLatency | internal/metrics/metrics.go:220-256 | First observation sets all percentiles, later ones raise p95 and p99 and halve into p50 |
| Metrics.Collector.SetQueueDepth | internal/metrics/metrics.go:271-282 | Keeps the larger depth; an initial depth of zero leaves no entry |
| Metrics.Collector.GetLatencyStats | internal/metrics/metrics.go:327-351 | Reads the statistics and refreshes the access time, known key or not |
| Metrics.Collector.GetQueueDepth | internal/metrics/metrics.go:372-387 | Reads the depth and refreshes the access time |
| Metrics.Collector.CleanupIdleMetrics | internal/metrics/metrics.go:508-550 | The two loops delete exactly the keys idle for longer than the limit from all three maps |
| Metrics.AggregatesAreHighWaterMarks | internal/metrics/metrics.go:220-282 | In every run that does not clean the key up, its depth and p95 are the largest depth and latency ever recorded |
| Metrics.CleanupForgetsExactlyIdleKeys | internal/metrics/metrics.go:508-535 | A cleanup forgets a key's aggregates if and only if it is idle |
| Metrics.CleanupForgetsAfterADay | internal/metrics/metrics.go:508-550 | In every run of a new collector a cleanup forgets a key if and only if nothing was recorded or read of it for more than 24 hours |
| Metrics.EveryLatencyCounts | internal/metrics/metrics.go:220-256 | Over every run that keeps the key, the count is that of the latencies recorded, and p99 is their maximum just as p95 is |
| Metrics.MedianMovesHalfWay | internal/metrics/metrics.go:220-256 | p50 moves half way to each latency recorded, rounded towards zero |
| Metrics.KeysAreApart | internal/metrics/metrics.go:220-224 | AgentSpecs of different Cells never share metrics |
| Autoscaler.Evaluator.EvaluateScaling | internal/autoscaler/evaluator.go:29-115 | The successive branches compute the specified replica count from the aggregates, and refresh the key |
| Autoscaler.Evaluator.MakeDecision | internal/autoscaler/evaluator.go:138-167 | Up, Down or none exactly as the desired count is above, below or at the current one |
| Autoscaler.QueueForcesGrowth | internal/autoscaler/evaluator.go:79-99 | A depth above ten makes any evaluation at least double the count or reach the maximum |
| Autoscaler.DownExactlyWhen | internal/autoscaler/evaluator.go:54-99 | Within bounds a spec is scaled down if and only if latency is targeted, measured and below 80 percent, a replica can be spared and the queue is not pressing |
| Autoscaler.LatencyInNumbers | internal/autoscaler/evaluator.go:54-76 | In whole milliseconds, up to the bounds (1 and 10 by default): current * p95 / target rounded down above the target, one less below four fifths of it, and otherwise the current count |
| Autoscaler.QueueInNumbers | internal/autoscaler/evaluator.go:79-99 | Without latency a depth above ten asks for current * (10 + depth) / 10 rounded down, up to the bounds, any other for the current count |
| Autoscaler.BothInNumbers | internal/autoscaler/evaluator.go:79-99 | With both, the larger count is asked for |
| Autoscaler.UnsetInNumbers | internal/autoscaler/evaluator.go:32-38 | Without bounds the count stays, but for none, which becomes one |
| Autoscaler.QueuePressureReachesMax | internal/autoscaler/evaluator.go:40-115 | Once a depth above ten was recorded, k rounds reach at least 2^k times the count or the maximum, whatever else is recorded, while the key is kept |
| Autoscaler.HighLatencyRulesOutDown | internal/autoscaler/evaluator.go:54-78 | Once a latency reached 80 percent of the target the count never goes down again while the key is kept |
| RateLimit.NewRateLimiter | internal/guardrails/ratelimit.go:36-61 | No limiter unless the rate is positive; otherwise a full bucket with the default burst and at least one token a second |
| RateLimit.RateLimiter.Allow | internal/guardrails/ratelimit.go:65-97 | Refills by whole seconds up to the burst and spends one token if there is one |
| RateLimit.AcceptedSinceCreation | internal/guardrails/ratelimit.go:65-97 | For every non-decreasing sequence of calls, acceptances up to t are at most burst plus the smaller of burst and rate for each whole second since creation |
| RateLimit.AcceptedInAnyLaterWindow | internal/guardrails/ratelimit.go:65-97 | In any window after any earlier calls at most burst plus the smaller of burst and rate times (whole seconds plus one) pass |
| RateLimit.AcceptedFromTokens | internal/guardrails/ratelimit.go:70-96 | From any bucket, acceptances are paid for by the tokens in hand and the whole seconds since the last refill |
| RateLimit.SpacedCallsAllPass | internal/guardrails/ratelimit.go:70-96 | A caller who waits a second between calls is never refused |
| RateLimit.OnePerMinuteMeansOnePerSecond | internal/guardrails/ratelimit.go:46-50 | Every limiter, whatever its configuration, lets one call a second through for ever |
| RateLimit.PerMinuteHoldsExactlyWhen | internal/guardrails/ratelimit.go:36-61 | For every rate, burst and history: no minute ever sees more than the configured requests if and only if burst plus sixty times the smaller of burst and rate is within them |
| RateLimit.DefaultBurstExceeds | internal/guardrails/ratelimit.go:42-45 | With no burst configured it never holds: the full bucket passes at once and one more a second later |
| RateLimit.NewPassesItsBurst | internal/guardrails/ratelimit.go:36-61 | A new limiter passes at once exactly its burst: burstSize if positive, otherwise the requests per minute |
| RateLimit.EmptiedPassesRefills | internal/guardrails/ratelimit.go:46-96 | Emptied when new, it passes k seconds later exactly k times a sixtieth of the requests per minute, rounded down and at least one, or its burst if that is less |
| RateLimit.EmptiedLaterPassesRefills | internal/guardrails/ratelimit.go:65-97 | The same after any earlier calls that are a second or more past |
| TokenBudget.TokenBudgetTracker.RecordUsage | internal/guardrails/tokenbudget.go:44-94 | The three checks in order with what each refusal has already charged |
| TokenBudget.TokenBudgetTracker.ResetSession | internal/guardrails/tokenbudget.go:110-115 | Clears the session counter and nothing else |
| TokenBudget.TokenCountIsReadBack | internal/guardrails/tokenbudget.go:138-158 | A count written under either key is read back, the first key taking precedence |
| TokenBudget.VerdictInNumbers | internal/guardrails/tokenbudget.go:44-94 | After any requests to a new tracker the verdict on the next is the first budget it exceeds, if any: alone, with what has passed the same clock minute, with all that was charged |
| TokenBudget.TokenCountExactly | internal/guardrails/tokenbudget.go:138-158 | A message counts the base-10 int64 under the first of the two keys that holds one, and otherwise nothing |
| TokenBudget.RefusalChargesTheMinuteExactlyWhen | internal/guardrails/tokenbudget.go:57-90 | For every clock reading a refusal changes more than the minute rollover if and only if the request fits the request and minute budgets and not the session budget, and then the minute counter by the refused tokens |
| TokenBudget.MinuteCounterExactly | internal/guardrails/tokenbudget.go:59-77 | In every run, whatever the clock does, the minute counter is what was accepted in its minute plus what was refused there after being charged |
| TokenBudget.PhantomChargeRefusesLater | internal/guardrails/tokenbudget.go:66-90 | For every tracker: such a charge turns away a later request of the minute that would have passed if and only if that request fits the other budgets, and the minute's only without the charge |
| Relay.OutboundRelay.Enqueue | internal/keeper/relay.go:38-45 | Appends while there is room, refuses otherwise |
| Relay.OutboundRelay.Try | internal/keeper/relay.go:359-447 | First half of an attempt: sleep on before the retry time, encode, validate, charge |
| Relay.OutboundRelay.Deliver | internal/keeper/relay.go:460-526 | Second half: publish, or give up, or set the retry time by exponential backoff |
| Relay.OutboundRelay.PublishMessageWithRetry | internal/keeper/relay.go:355-530 | The retry loop, with offers and session resets before each attempt and between its charge and its publish, each half with its own clock reading, and cancellation while waiting |
| Relay.OutboundRelay.PublishNext | internal/keeper/relay.go:320-352 | Takes the oldest message and sees it through, unless cancelled before the first attempt |
| Relay.PublishIsARun | internal/keeper/relay.go:355-530 | The retry loop with its interruptions is one of the interleavings that the lemmas below are about |
| RelayAnswers.OfferAnswers | internal/keeper/relay.go:38-45 | A message is answered true if and only if it was accepted as the last in the queue, that is, if there was room |
| RelayAnswers.RetryTimes | internal/keeper/relay.go:503-526 | A lost delivery is tried again after 100 ms, the next after 200 ms, and a third gives the message up |
| RelayAnswers.WaitsForItsTime | internal/keeper/relay.go:359-375 | Before its retry time a message waits uncharged, from then on an attempt goes ahead |
| RelayAnswers.InvalidIsNotCharged | internal/keeper/relay.go:377-412 | A message that cannot be encoded or is invalid is dropped without being charged |
| RelayAnswers.SentIfCharged | internal/keeper/relay.go:414-480 | A counted message goes out if and only if the tracker charges it, and is otherwise dropped with the tracker's verdict |
| RelayAnswers.CancellationAnswers | internal/keeper/relay.go:320-375 | A cancellation is noticed between messages and before an attempt, but not while a message is being sent |
| RelayAnswers.NothingAfterCancellation | internal/keeper/relay.go:320-352 | After it, in every run, nothing is taken or published any more |
| RelayAccounts.BudgetsDominatePublishing | internal/keeper/relay.go:414-462 | In every interleaving from a fresh Keeper: tokens published since the last reset stay within the session budget plus what was charged and undelivered at that reset, those charged in one clock minute within the minute budget, every message within the request budget, and every publish follows its own charge |
| RelayLimits.ResetIsSafeExactlyWhen | internal/guardrails/tokenbudget.go:110-115 | From any reachable state with a queue that can hold a message, and for any budgets: after a reset now no continuation publishes more than the session budget before the next one if and only if no charged message is being sent |
| RelayMinutes.MinuteSeesOneLateMessage | internal/keeper/relay.go:460-462 | By time of delivery a clock minute sees at most the minute budget plus one message charged in an earlier minute, so at most twice the budget |
| RelayMinutes.MinuteIsSafeExactlyWhen | internal/guardrails/tokenbudget.go:57-77 | From any reachable state with a queue that can hold a message, before a minute begins: no continuation from the beginning of that minute delivers more than the minute budget in it if and only if no charged message is under way |
| RelayMinutes.LateAndWholeBudget | internal/keeper/relay.go:460-462 | With a charged message under way, some continuation delivers exactly that message and the whole minute budget within the minute |
| RelayMinutes.TwiceTheBudgetIsReached | internal/keeper/relay.go:414-462 | From a fresh Keeper, for every minute budget, some run delivers twice the budget within one clock minute |
| RelayLimits.PublishStepGrowsLog | internal/keeper/relay.go:503-526 | One message with anything in between: at most one publish, its price once more per failed delivery, and giving up if and only if every attempt left was lost, after every backoff |
| RelayLimits.UndeliverableIsChargedThrice | internal/keeper/relay.go:503-526 | With the bus down, for any budgets and interruptions: charged once per lost delivery and never published; fewer than three times if and only if a budget stops it |
| RelayAccounts.PublishedIsCharged | internal/keeper/relay.go:414-462 | Token conservation: what was charged has been published, lost in a failed delivery or is under way, in all, by minute of the charge, and since the last reset; so over-charges are exactly the failed deliveries |
| RelayAccounts.RunKeepsSound | internal/keeper/relay.go:320-352 | In every interleaving accepted messages are those dealt with, the one in hand and those waiting, the queue respects its bound, the published IDs are those whose outcome says so, and no message is charged more than three times |
| CircuitBreaking.CircuitBreaker.RecordFailure | internal/circuitbreaker/circuitbreaker.go:87-106 | Counts up to the cap, opens at the threshold or from half-open |
| CircuitBreaking.CircuitBreaker.RecordSuccess | internal/circuitbreaker/circuitbreaker.go:109-122 | Closes from half-open, resets when closed, ignored when open |
| CircuitBreaking.CircuitBreaker.AllowRequest | internal/circuitbreaker/circuitbreaker.go:126-166 | Open becomes half-open after the timeout; half-open tracks one request |
| CircuitBreaking.RunKeepsCoherent | internal/circuitbreaker/circuitbreaker.go:87-166 | In every run closed implies fewer failures than the threshold |
| CircuitBreaking.FewFailuresAllowEverything | internal/circuitbreaker/circuitbreaker.go:133-135 | In every run in which there were never as many failures in a row as the threshold, five by default, every request is let through |
| CircuitBreaking.ThresholdOpens | internal/circuitbreaker/circuitbreaker.go:87-106 | After such a run the failure that completes the threshold opens the breaker if and only if the threshold is within maxFailures, ten by default |
| CircuitBreaking.OpenUntilTheTimeout | internal/circuitbreaker/circuitbreaker.go:137-148 | An open breaker turns every request away until the reset timeout has passed since the last failure of the run, and then lets one through |
| CircuitBreaking.ConfiguredTimeout | internal/circuitbreaker/circuitbreaker.go:66-74 | The reset timeout is the one configured, or thirty seconds |
| CircuitBreaking.OnlyTheProbePasses | internal/circuitbreaker/circuitbreaker.go:149-163 | While it is half-open every other request is turned away, and a failure opens it again |
| CircuitBreaking.UntrackedProbe | internal/circuitbreaker/circuitbreaker.go:151-155 | A probe without an ID is not tracked: the next request takes its place |
| CircuitBreaking.OneProbePerPeriod | internal/circuitbreaker/circuitbreaker.go:149-163 | One half-open period lets through at most one non-empty request ID |
| CircuitBreaking.HalfOpenPeriodsAreSpaced | internal/circuitbreaker/circuitbreaker.go:134-148 | In every run half-open periods start at least a reset timeout apart |
| CircuitBreaking.ProbesPerSpan | internal/circuitbreaker/circuitbreaker.go:126-166 | While the breaker does not re-close, at most span divided by timeout, plus one, distinct requests pass |
| CircuitBreaking.ProbeRecovers | internal/circuitbreaker/circuitbreaker.go:113-158 | From any open breaker past its timeout the admitted request may retry after any other requests, and its success restores a closed breaker with a clean count |
| CircuitBreaking.OpensExactlyWhen | internal/circuitbreaker/circuitbreaker.go:87-106 | A series of failures opens a fresh breaker if and only if it is as long as the threshold and the threshold is within maxFailures |
| CircuitBreaking.CanOpenExactlyWhen | internal/circuitbreaker/circuitbreaker.go:91-100 | From any closed breaker some run opens it if and only if its threshold is within maxFailures |
| Hierarchical.Execution.CountTask | internal/patterns/hierarchical.go:170-173 | A submitted task is counted before it is queued |
| Hierarchical.Execution.QueueTask | internal/patterns/hierarchical.go:175-177 | It enters the queue if there is room |
| Hierarchical.Execution.CancelTask | internal/patterns/hierarchical.go:178-184 | A cancelled one is uncounted |
| Hierarchical.Execution.TakeTask | internal/patterns/hierarchical.go:195-208 | The delegation loop takes the oldest task and picks the next worker; without workers the task is dropped and stays counted |
| Hierarchical.Execution.SettleTask | internal/patterns/hierarchical.go:216-258 | A task that cannot be encoded or published is counted as failed |
| Hierarchical.Execution.HandleWorkerOutput | internal/patterns/hierarchical.go:262-284 | Any decodable message files a result under its correlation or own ID and uncounts one task |
| Hierarchical.RunKeepsAccounts | internal/patterns/hierarchical.go:157-284 | In every interleaving active, completed and failed add up to submitted minus cancelled, and tasks leave in queue order |
| Hierarchical.QueueHoldsAHundred | internal/patterns/hierarchical.go:175-184 | In every interleaving the queue takes a task exactly while it holds fewer than a hundred |
| Hierarchical.OutputIsFiled | internal/patterns/hierarchical.go:267-281 | A worker's message is filed under its correlation ID, or under its own if it has none |
| Hierarchical.ResultsAreTheLast | internal/patterns/hierarchical.go:262-284 | In every interleaving a task's result is that of the last message on it |
| Hierarchical.ActiveTasksExactly | internal/patterns/hierarchical.go:282-283 | What ActiveTasks amounts to in every interleaving: tasks on their way, dropped and delivered, less the output messages of the run |
| Hierarchical.ActiveTasksStayCovered | internal/patterns/hierarchical.go:262-284 | Over every run in which output messages never outnumber deliveries, ActiveTasks is at every moment at least the number of tasks on their way, so never negative |
| Hierarchical.ActiveTasksReturnToZeroExactlyWhen | internal/patterns/hierarchical.go:188-284 | With nothing on its way any more, ActiveTasks is zero if and only if the run saw as many output messages as deliveries, or without workers as many as tasks taken |
| Hierarchical.ActiveTasksDrifts | internal/patterns/hierarchical.go:198-202 | One stray message makes it negative; one task without workers is counted for ever |
| Hierarchical.RoundRobinIsFair | internal/patterns/hierarchical.go:188-208 | In every interleaving, after n assignments among k workers the j-th has had the quotient of n by k, plus one if j is below the remainder, and tasks are assigned in queue order |
| Topic.ExtractNamespace | internal/nectar/topic.go:26-40 | The index loop finds the first dot after the prefix and splits there |
| Topic.SplitUndoesPrefix | internal/nectar/topic.go:10-40 | Parsing undoes printing if and only if the namespace has no dot, or with no namespace the topic does not look prefixed |
| Topic.PrefixUndoesSplit | internal/nectar/topic.go:26-40 | Printing undoes parsing if and only if the topic does not start with "cell.." |
| Topic.LabelLanguageByCharacter | internal/api/validation.go:9-10 | The namespace pattern (a host name label after section 2.1 of RFC 1123, without dots) read as a regular language is the same as its per-character description |
| Topic.AcceptedExactlyWhen | internal/api/validation.go:12-28 | A namespace is accepted if and only if it has 1 to 253 lower-case letters, digits and hyphens, none at either end a hyphen; empty and overlong ones are told apart |
| Topic.TopicsOnTheBus | internal/nectar/topic.go:10-22 | A Cell's topic is "cell." with the namespace, a dot and the topic; a system topic keeps its name |
| Topic.AcceptedNamespacesAreIsolated | internal/api/validation.go:12-28 | For accepted namespaces every topic parses back, and two prefixed topics are equal only for equal namespace and topic |
| Topic.DottedNamespacesCollide | internal/nectar/topic.go:10-22 | Without the check two Cells can meet on one topic |

## Left out

- Data races inside one lock region or between the locks of a single Comb, cache or breaker call: each is one atomic step. Warm pools, relay, Keeper requests and state transitions are modelled step by step.
- Comb.Store.Get: the gap between its read lock and its write lock (`internal/comb/comb.go:126-130`), where another writer could replace the expired entry, is part of the atomic step; what the deletion then does is `CombProperties.LateDeletionIsInvisibleExactlyWhen`.
- Comb.Store.Clear: contexts are never cancelled, so the loop always finishes.
- Comb.Store.Set: byte counters are unbounded integers; only Incr models int64 wrap-around.
- Comb.Store.SetMemoryLimit: the multiplication by 1 MiB does not overflow.
- StructuredRaces.TransitionState: the lemmas about two transitions at once are for a session without limit or expiry. JSON is a pair of functions of which four facts are used; conversations, artifacts and scratchpads are not modelled.
- Structured.TransitionsOnlyRun: transitions of the session do not overlap; what two that do can lose is `StructuredRaces.RaceLosesATransitionExactlyWhen`, and when the chain survives them is `StructuredRaces.RaceStaysConsistentExactlyWhen`.
- KeeperCache.SoleWriterReadsDirectly: requests do not overlap; with overlaps the statement is `KeeperRaces.OverlappingReadsAreDirect`.
- KeeperCache.Keeper.HandleComb: one request at a time with one clock reading; overlapping requests are in `keeper_races.dfy`. HTTP headers and bodies are not part of this model.
- WarmPoolManager.WarmPool.FillPool: others take finitely many drones during one fill; with unlimited takers the loop need not end.
- WarmPools.EveryProcessHasOnePlace: the launcher never reuses a process ID, Stop takes effect, and a returner holds what it returns.
- maintainPools and cleanupIdlePools appear as steps of the interleaved model (plan, cut, stop, forget), not as whole methods; the order in which they visit pools is arbitrary.
- The Drone records of warm pools and their phase updates: only whether a store call succeeds matters.
- Queen.RunKeepsTracked: Stop takes effect, a failed Create leaves no record and a failed Delete leaves the record in place; passes with autoscaler or warm pools are not modelled (cmd/apiaryd starts the Queen without them).
- Queen.PassFillsToQuota: all of the store's calls, the scheduler and the launcher succeed, including the Cell lookup; the specs listed have different keys.
- The autoscaler's executor, which applies decisions to the store: a round applies the decision directly.
- Autoscaler.Evaluator.EvaluateScaling: float64 arithmetic is exact real arithmetic with Go's truncation.
- Scheduling.ApplyTierHints: likewise, and integer overflow of the products is not modelled.
- Autoscaler.LatencyInNumbers: a p95 below zero, which no caller records, is left to EvaluateScaling.
- Metrics: token and request-rate aggregates, Prometheus collectors and the cleanup timer, which would only add more of the same.
- RateLimit.RateLimiter.Allow: the nil limiter is the null result of NewRateLimiter; Wait, a polling loop around Allow, is not modelled.
- Relay.OutboundRelay.PublishMessageWithRetry: sleeping is a clock that does not read earlier than the retry time; audit logs, webhooks and metrics are dropped, and so is the inbound direction, which charges nothing.
- RelayAccounts.BudgetsDominatePublishing: the tracker is charged by this relay only.
- TokenBudget.TokenBudgetTracker.ResetSession: nothing in the repository calls it (`internal/guardrails/tokenbudget.go:110` is its only occurrence), so what is proved about session resets, `RelayLimits.ResetIsSafeExactlyWhen` above all, says what a caller could do.
- Hierarchical.Execution.CountTask: undecodable supervisor input is turned away before it is counted and is not a step; the worker list is fixed, and expiry of old results is not modelled.
- CircuitBreaking.CircuitBreaker.AllowRequest: the registry of breakers per Drone and its removal are not modelled.
- Topic.LabelLanguageByCharacter: strings are byte strings; Go's `$` matches only at the end of the text, and so does the model.
- Leader election, RBAC, dead-letter queue, timeout tracking, session sweeping, pipeline and swarm patterns, event filters, manifests, schema validation, encryption, HTTP and gRPC handlers: easier, or calls into libraries that are not part of this model.
