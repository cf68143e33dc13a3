# cashcov: a verified model of the cache-fill and refresh protocol

cashcov is a cache-aside library in front of Redis, written twice: in Go (`cache.go`, `helper.go`,
`lock.go`) and in Python (`cashcov-py/src/cashcov/_handler.py`, `_lock.py`, with an asyncio mirror). Any
number of callers and background workers race on a Redis store with expiring entries, on a table of
per-key locks, on an in-process map of write times, and in Python on a `:stale` shadow entry per key. What
the library promises about stampedes, staleness, cooldown, deduplication and cooperative waiting is a
promise about every interleaving. This project states those promises over all runs and proves them.

Verify everything with `dafny verify dfyconfig.toml`.

## How the model is built

**A step machine for both handlers** (`Protocol.dfy`). A state holds, for every key, the main entry, the
shadow, the lock holder and the timestamps, plus a sequence of threads of any length, each with its job
and program point. One step is one Redis command, one lock operation, the start or end of a generator
call, one timestamp read or record, or one spawn. The environment may start calls and direct writes, let
time pass, evict entries, and write keys from another process; any Redis command may fail, any generator
may fail, any bounded wait may time out, and the probabilistic trigger may fire or not. `Local` is the
program of every thread; where Go and Python differ it branches on the language. A run is a finite
sequence of such events, and the theorems quantify over all of them.

| program points | Go | Python |
|---|---|---|
| `Look`, `Dedup`, `Reread`, `Dispatch`, `Stamp` | `cache.go:274-322`, `helper.go:217-238` | `_handler.py:268-306`, `_handler.py:448-458` |
| `Trigger`, `Gate` | `helper.go:479-579` | `_handler.py:556-611` |
| `LockWait`, `Check`, `GenReady`, `Gen`, `Put`, `PutShadow`, `Record`, `Unlock` | `helper.go:44-63`, `cache.go:181-205` | `_handler.py:182-198`, `_handler.py:486-501` |
| `FreeReady`, `FreeGen`, `Handoff` | `helper.go:79-92`, `helper.go:332-338` | `_handler.py:503-509`, `_handler.py:547-550` |
| `StaleGet` | `helper.go:256-286` | `_handler.py:511-525` |
| `CoopWait`, and `Signal` of the helper | `helper.go:309-343` | `_handler.py:530-550` |
| `TryLock`, `Cool` and the workers' fills | `helper.go:103-163`, `helper.go:392-416` | `_handler.py:617-648` |

**The handlers as classes** (`GoHandler.dfy`, `PythonHandler.dfy`, over `KeyedLocks.dfy`, `RedisStore.dfy`,
`Policies.dfy`, `Keys.dfy`). Methods change the Redis map, the lock table, the timestamp map and the queue
of background tasks, as the originals do. `Undisturbed.Solo` is what a job does when nothing interferes:
the step machine's thread program, iterated until it returns or has to wait for a lock that somebody holds;
any set of its Redis commands may fail, and so may its generator. Every method is proved to leave exactly
the state, the queue and the result that `Solo` prescribes, and to leave every other key alone.
`Embedding.SoloIsRun` closes the gap: a thread of the machine that is left alone really gets there, with
the same workers spawned, cooperative helper goroutine included. So the machine the theorems speak about
and the imperative handlers are the same protocol. `Meaning` says what an undisturbed call, worker or
direct operation comes to in entries, clock readings, options and answers alone, without any of the
machine's own tests, and proves it of `Solo`.

**The theorems** are in one file per promise: `Locking`, `Stampede`, `Reads`, `Errors`, `Progress`, `Cooldown`,
`Shadow`, `Coalescing`, `Ledger`, `StalePolicy`, `Deduplication`, `Shim`, `Triggers`, `Mock`, `Cells`,
`Overlap`, `Disabled`, `Limits` (the last three with the concrete runs built in `Scenarios`).
The pattern is the same everywhere: a law about one step of one thread (`Local...`), its lift to a step of
the system (`Move...`, `Step...`), an invariant of all runs (`Run...`), and the promise.

## Where the code and its documentation disagree

The model follows the code.

- `README.md:341` says lock channels are cleaned up on unlock. `lock.go:18-27` never removes one, and
  mutual exclusion depends on that (`KeyedLocks.KeyedMutex.Ch`).
- `README.policies.md:54` says `MissFillStaleOrSync` needs `WithStaleDataTTL` and otherwise behaves like
  SYNC. In Go it behaves like SYNC either way, unless another process wrote a shadow: a fill never writes
  one, and the stale rewrite that would needs a stale hit first (`StalePolicy.ShadowsNeverAppear`,
  `StalePolicy.StaleIsSync`).
- `README.policies.md:77` says that COOPERATIVE makes at most one generator call per key at a time. A wait
  that times out starts a second one, in both languages and under every configuration
  (`Overlap.CooperativeOverlap`). `Overlap.OverlapExactly` says for which policies there is at most one.
- A per-call DEFAULT miss policy means SYNC in Go and "the handler's policy" in Python; the two differ
  exactly as `Policies.DefaultDiffers` says.
- Python's STALE_OR_SYNC queues a background refresh on a stale answer even with `disable_hit_refresh`
  (`_handler.py:520-524`); Go does not (`helper.go:278-280`). `Disabled.DisabledExactly` is the exact
  statement.
- Go's stale rewrite does not ask for the cooldown (`helper.go:392-416`); the cooldown theorems count the
  writes it records but promise nothing about its own spacing.

## Model

| member | source | states |
|---|---|---|
| `Locking.RunGood` | `lock.go:18-43` | On every run each thread is at a point its job allows; the lock of a key is held exactly by the threads between acquire and release, so occupancy is 0 or 1; a cooperative Go caller waits for a helper of its own key |
| `Locking.MutualExclusion` | `lock.go:29-43` | For any number of keys and threads, two threads inside the locked section of the same key are the same thread |
| `Stampede.CreditBound` | `helper.go:103-123` | The accounting behind stampede protection: fills so far plus the one fill still affordable never exceed removals plus the initial credit |
| `Stampede.StampedeConservation` | `helper.go:44-63` | On every run, also with unlocked Sets and foreign writers, the successful miss fills of a key (SYNC, locked COOPERATIVE, ASYNC write-back) number at most the times it turned absent, plus one if it was absent at the start |
| `Stampede.FirstWriteWins` | `cashcov-py/src/cashcov/_handler.py:492-500` | Without direct Sets and foreign writers every miss fill lands on an absent key, and whatever overwrites a live value is a refresh |
| `Stampede.OverwritesExactly` | `helper.go:48-62` | With outside writers: a miss fill overwrites a live value if and only if that value was stored without the lock after the fill's own second look and is still there |
| `Reads.Linearised` | `cache.go:274-303` | A hit, a dedup hit and every answer given from under the lock was the key's live value at some instant between the start and the return of that very call; a stale answer was the shadow's |
| `Reads.EntriesWritten` | `cashcov-py/src/cashcov/_handler.py:182-198` | Whatever can be read at an instant was stored by a step whose lifetime (ttl, or ttl + stale_ttl for the shadow) had not run out, or was there before the run |
| `Reads.BoundedStaleness` | `cashcov-py/src/cashcov/_handler.py:170-180` | A value answered from the main entry was written less than that write's ttl before the read, one from the shadow less than ttl + stale_ttl before, with mixed per-call ttls |
| `Reads.Provenance` | `cashcov-py/src/cashcov/_handler.py:170-198` | Whatever is stored in the main or shadow entry of a key, held by its threads or returned for it was there before, set for that key, or produced by a generator call for that key |
| `Errors.ToldExactly` | `cache.go:316-322` | On every run, for every returned call: it is told of a failure or handed the zero value if and only if a failure it does not absorb befell it; under SURFACE it is never handed the zero value; under ZERO_VALUE it is told of a failure if and only if it runs in Go and its first GET failed; it gets the miss signal if and only if it is a FAIL_FAST call that entered its fill policy |
| `Progress.StepDecreases` | `helper.go:90` | Each thread step lowers a measure that already pays for the worker it spawns; the environment never raises it |
| `Progress.StepsAreBounded` | `helper.go:324-342` | Whatever the interleaving, n calls with all the workers they spawn take at most 27 n steps |
| `Progress.HolderMoves` | `lock.go:29-33` | The holder of a key lock can always take a step: nobody waits for a lock while holding one |
| `Progress.SomeoneMoves` | `cashcov-py/src/cashcov/_lock.py:34-64` | While a call is unfinished, some thread can take a step that is neither a failure nor a time-out |
| `Progress.RunsComplete` | `README.md:342` | From every reachable state thread steps alone, none of which fails or times out, lead to a state in which every call has returned and every lock is free |
| `Cooldown.CooldownRespected` | `helper.go:178-189` | A refresh worker goes on to its generator exactly when the last recorded write is at least the cooldown old, and then every write recorded so far is |
| `Cooldown.WorkerGoesExactly` | `helper.go:152-155` | Under every configuration, cooldown or none: a refresh worker goes on to its generator if and only if every write this handler recorded for the key lies at least the cooldown back, and gives up otherwise |
| `Cooldown.GateOpensExactly` | `helper.go:521-523` | A hit whose trigger fired answers its value and spawns a refresh with its ttl and generator if and only if every recorded write lies the cooldown back; Go's other hit policies spawn without asking |
| `Cooldown.GeneratorIsCool` | `helper.go:152-158` | When a background refresh starts its generator, every write recorded before its cooldown test is at least the cooldown old |
| `Cooldown.RefreshesAreSpaced` | `cashcov-py/src/cashcov/_handler.py:632-648` | Two completed background refreshes of a key are at least the cooldown apart, whatever fills and Sets come in between |
| `Cooldown.WindowInvariant` | `helper.go:139-163` | n refreshes inside a window span at least (n - 1) cooldowns |
| `Cooldown.CooldownBound` | `helper.go:197-204` | Any window of length T holds at most floor(T / cooldown) + 1 completed background refreshes of a key |
| `Shadow.ShadowCovers` | `cashcov-py/src/cashcov/_handler.py:182-198` | With writers of a key under its lock, no SET failing midway and deletes at any time: whenever no writer is between its two SETs, the shadow holds the main value and outlasts it by stale_ttl |
| `Shadow.ShadowOutlives` | `cashcov-py/src/cashcov/_handler.py:192-197` | Until stale_ttl after the lifetime of the last completed pair of SETs, the shadow is readable and holds that pair's value: also after the main entry expired or was evicted, and while a newer pair is half written |
| `Shadow.StaleIsServed` | `cashcov-py/src/cashcov/_handler.py:511-525` | A STALE_OR_SYNC call that looks at the shadow in that time answers with that value, without a foreground generator call, and queues a refresh |
| `Coalescing.OneGeneratorCall` | `cashcov-py/src/cashcov/_handler.py:486-501` | From any reachable moment at which a key is absent, no call of it is past its second look and no worker of it past its checks: as long as the key is not removed, refreshed, written directly or by a worker, and no call fails or times out, any number of SYNC and COOPERATIVE calls, under any hit policy, cause at most one generator call; once one of them returns it is exactly one, and all return the same value |
| `Ledger.LedgerBalances` | `cache.go:292-306` | The generator calls started for a key equal its locked fills, refreshes, ASYNC returns, time-out bypasses, calls that failed or that the main key did not take, and calls in flight |
| `Ledger.BookedRight` | `helper.go:60-62` | The columns are what they are called: fills and refreshes are the steps by which calls and refresh workers write the main key, ASYNC returns queue their write, and a started call has its generator running |
| `Ledger.QuietBookings` | `helper.go:288-338` | A time-out bypass changes no entry, lock or timestamp of any key; FAIL_FAST never starts a generator |
| `Ledger.RestfulRun` | `helper.go:517-518` | If every call of a key has NONE or disabled hit refresh (and no stale answer that refreshes anyway), the key never has a refresh worker and no generator call of it ends in a refresh |
| `Ledger.FailFastNeverGenerates` | `helper.go:290-293` | If moreover every call is FAIL_FAST, no generator call of the key ever starts |
| `Disabled.DisabledExactly` | `cashcov-py/src/cashcov/_handler.py:520-524` | For every configuration: a key whose calls all use one miss policy with background refresh disabled can get a refresh worker if and only if the handler is the Python one and the policy is STALE_OR_SYNC |
| `StalePolicy.ShadowsNeverAppear` | `cashcov-py/src/cashcov/_handler.py:192-197` | With stale_ttl not positive (and in Go always), no shadow ever exists unless it was there before or another process wrote it |
| `StalePolicy.StaleIsSync` | `cashcov-py/src/cashcov/policies.py:40-44` | Every run of a STALE_OR_SYNC handler without shadows is matched by a run of the SYNC handler from the same start state through the same events in the same order, minus the empty looks at the shadow, to the same clock, entries, locks and results |
| `StalePolicy.SyncIsStale` | `README.policies.md:54` | The other direction: every run of the SYNC handler is matched by one of the STALE_OR_SYNC handler, same start, same events in order, with a look at the shadow added to each fill |
| `Deduplication.Follow` | `cashcov-py/src/cashcov/_handler.py:278-284` | Given which calls end at their second read, the handler without a window follows event by event, skipping only the steps up to that read, and reaches the mapped state |
| `Deduplication.DedupRefines` | `helper.go:217-238` | Every run of a handler with a dedup window is matched by a run without one: same start state, same events in the same order except those skipped steps, same clock, entries, locks and outcomes; a call that ends at its second read becomes a later first look with hit refresh disabled |
| `Deduplication.SecondLookExactly` | `helper.go:218-231` | After a miss a call looks a second time if and only if this handler recorded a write of the key within the window and within the call's ttl; otherwise it enters its fill policy |
| `Deduplication.SecondLookAnswers` | `helper.go:232-237` | A value live at the second look is the answer, without refresh; an absent one leads to the fill policy; a failing GET counts as absent in Go and ends the call in Python |
| `Shim.Registry.constructor` | `cshim/shim.go:78-87` | The registry starts with no handle and no generator |
| `Shim.Registry.NewHandler` | `cshim/shim.go:89-95` | A handle is larger than every handle issued before, hence never issued twice |
| `Shim.Registry.SetGenerator` | `cshim/shim.go:227-235` | Registers or, for NULL, clears the generator of one handle and nothing else |
| `Shim.Registry.DestroyHandler` | `cshim/shim.go:111-116` | Forgets the handle and its registered generator, and nothing else |
| `Shim.Registry.Choose` | `cshim/shim.go:257-334` | NULL exactly for a missing key, a missing callback or an unknown handle; a registered generator replaces the per-call one and leaves background refresh on; otherwise the per-call generator goes out with background refresh disabled |
| `Shim.LocalConfine` | `cache.go:276-278` | A Go call with background refresh disabled spawns no worker that carries a generator |
| `Shim.NeverAfterReturn` | `cshim/shim.go:275-334` | On every run of shim calls, under every policy, a per-call generator is invoked only by its own call and never after that call returned |
| `Shim.UncarriedNeverInvoked` | `helper.go:139-163` | On every run of either handler, a generator that no call was made with is invoked by no step |
| `Shim.SessionIsShimRun` | `cshim/shim.go:291-332` | Whatever registrations and calls happen to a handle, the run of its handler is one that `NeverAfterReturn` speaks about |
| `Shim.RegisteredReplaces` | `cshim/shim.go:318-329` | On every run of a handle's session, the per-call generator of a call made while a generator was registered is never invoked |
| `Overlap.OverlapIsUnlocked` | `helper.go:331-338` | Two generator calls of a key in flight together: one of them belongs to an ASYNC call or to a cooperative call that timed out |
| `Overlap.OneGeneratorAtATime` | `policies.go:64-66` | On a run without ASYNC calls and cooperative time-outs two generator calls of a key in flight are the same one, whatever the other policies and writers |
| `Overlap.InFlightBound` | `README.md:339` | On every run the generator calls of a key in flight number at most one, plus one for each of its ASYNC calls and of its cooperative waits that timed out |
| `Overlap.CooperativeOverlap` | `README.policies.md:77` | For both languages and every configuration a run on which one cooperative caller generates under the lock and another, whose wait timed out, without it |
| `Overlap.OverlapExactly` | `README.policies.md:77` | For every configuration: a key whose calls all use one miss policy can have two generator calls in flight if and only if the policy is ASYNC or COOPERATIVE |
| `Limits.FillOverwritesDirectSet` | `cache.go:181-205` | A concrete run on which a direct Set, which takes no lock, lands between a fill's second look and its SET and is overwritten |
| `Limits.DirectSetsSplitTheShadow` | `cashcov-py/src/cashcov/_handler.py:191-197` | A concrete run on which two direct `set` calls leave a live main entry and a shadow with another value |
| `Triggers.AheadIsOlderThan` | `helper.go:539-579` | For an entry written with the call's ttl and any real threshold f, AHEAD fires exactly when OLDER_THAN with age (1 - f) ttl does; Go's OLDER_THAN never fires for thresholds of 1 and above |
| `Triggers.TriggersPersist` | `cashcov-py/src/cashcov/_handler.py:574-611` | A trigger that fires keeps firing until the entry is rewritten or expires |
| `Keys.Spelled` | `cache.go:173-178` | The Redis key is the prefix, a colon and the user key, or just the user key without a prefix; the shadow key has `:stale` behind it |
| `Keys.FullKeyInjective` | `cashcov-py/src/cashcov/_handler.py:421-422` | Under one prefix, different user keys have different full keys |
| `Keys.HandlersCollide` | `cache.go:177` | Exactly when handlers of two prefixes use the same Redis key: one front starts the other and the rest of it starts the other's user key |
| `Keys.PrefixesSeparate` | `cache.go:173-178` | Handlers with different nonempty prefixes without colons share no Redis key, main or shadow |
| `Keys.BothSpellings` | `helper.go:263` | Go's `fullKey(key + ":stale")` and Python's `full_key + ":stale"` are the same Redis key |
| `Keys.Collisions` | `cashcov-py/src/cashcov/_handler.py:519` | The Redis keys of two user keys collide exactly when the keys are equal or one is the other with `:stale` appended |
| `Cells.ApartExactly` | `helper.go:263` | Under every prefix, two different user keys never change each other's Redis keys, whatever their threads do, if and only if neither is the other with `:stale` appended |
| `Cells.RunMirrors` | `cache.go:173-178` | On every run over such keys the flat Redis map holds exactly the main and shadow entries the step machine gives to each key |
| `Cells.CellProvenance` | `cashcov-py/src/cashcov/_handler.py:421-428` | Whatever a run leaves in one of the two Redis keys of a user key was there before, was set for that key, or came from a generator call for it |
| `Cells.OthersUntouched` | `cashcov-py/src/cashcov/_handler.py:189-203` | A run changes no Redis key but the two of each user key it uses |
| `Cells.HandlersUndisturbed` | `cache.go:173-178` | A run of a handler with one such prefix changes no entry of a handler with another |
| `Policies.DefaultDiffers` | `cache.go:252-258` | Go and Python resolve a miss policy differently exactly for an explicit per-call DEFAULT on a handler that is neither DEFAULT nor SYNC |
| `KeyedLocks.KeyedMutex.constructor` | `lock.go:14-16` | A new keyed mutex has no locks |
| `KeyedLocks.KeyedMutex.Ch` | `lock.go:18-27` | Returns the key's lock object, created free on first use; no existing lock object is ever replaced, and distinct keys keep distinct ones |
| `KeyedLocks.KeyedMutex.Lock` | `lock.go:29-33` | Occupies exactly this key's channel, or waits exactly while it is occupied, with no other lock touched |
| `KeyedLocks.KeyedMutex.TryLock` | `lock.go:35-43` | Succeeds exactly when the key is free, never waits, and leaves the channel occupied either way |
| `KeyedLocks.KeyedMutex.Unlock` | `cashcov-py/src/cashcov/_lock.py:48-52` | Frees exactly this key and keeps the lock table |
| `GoHandler.Handler.constructor` | `cache.go:15-20` | A new handler has no locks, no timestamps and no running goroutines |
| `GoHandler.Handler.Get` | `cache.go:208-231` | Finds the live value of the Redis key spelled prefix, colon, user key, reports it absent, or fails |
| `GoHandler.Handler.Set` | `cache.go:181-205` | Writes the main key with the given or default lifetime and records the write time if anybody consults it; a failing SET changes nothing and records nothing; no Redis key but the one spelled prefix, colon, user key changes |
| `GoHandler.Handler.SetShadow` | `helper.go:430-436` | Writes the one Redis key spelled with `:stale`, or fails and changes nothing |
| `GoHandler.Handler.SetLastRefreshNow` | `helper.go:197-204` | Records the time exactly when a cooldown or a dedup window is configured |
| `GoHandler.Handler.ShouldRefreshNow` | `helper.go:178-189` | Answers the protocol's cooldown test for the key |
| `GoHandler.Handler.FillLocked` | `helper.go:60` | The write of a lock-holding job does what the protocol's SET and record steps do, for calls, write-backs and both refreshes, succeeding or failing |
| `GoHandler.Handler.MissSyncWriteThenReturn` | `helper.go:32-64` | Ends in the state and with the result of the protocol's lock, look, generate, write, unlock, whichever of them fail; if somebody holds the lock it waits and has changed nothing |
| `GoHandler.Handler.MissReturnThenAsyncWrite` | `helper.go:79-92` | Returns the generated value and queues exactly one write-back of it; a failing generator queues nothing |
| `GoHandler.Handler.MissStaleWhileRevalidate` | `helper.go:256-286` | A live shadow is answered, also while the lock is taken, and rewritten in the background unless that is disabled; an absent or unreadable one leads to the SYNC fill |
| `GoHandler.Handler.MissCooperativeRefresh` | `helper.go:309-343` | Behind a free lock the SYNC fill; behind a taken one the time-out: the helper is left waiting, the value is generated and nothing is stored |
| `GoHandler.Handler.FillMiss` | `cache.go:292-306` | The policy switch does what the protocol does from `Dispatch` on, under all five policies, with the lock free or taken |
| `GoHandler.Handler.HandleHitRefresh` | `helper.go:479-525` | Queues one refresh exactly when the protocol's trigger and gate say so, under all five hit policies; a failing TTL command queues none |
| `GoHandler.Handler.CheckDeduplicationBypass` | `helper.go:217-238` | Gives a value exactly when the protocol ends the call at its second look, with that value; a failing second GET counts as absent |
| `GoHandler.Handler.Conclude` | `cache.go:308-322` | Stamps the key for PROBABILISTIC after a success and applies the error policy, never to the miss signal |
| `GoHandler.Handler.StampCreated` | `cache.go:309-314` | Changes the key's creation stamp only |
| `GoHandler.Handler.ResolveCall` | `cache.go:243-268` | Option by option: a positive ttl, threshold or age wins, any other gives the default; a given miss policy wins and DEFAULT means SYNC; given hit and error policies win |
| `GoHandler.Handler.AnswerMiss` | `cache.go:285-322` | The dedup check, the fill and the end of a miss, as one |
| `GoHandler.Handler.Serve` | `cache.go:270-323` | The call with its options resolved does what the protocol's thread program prescribes, in slot, result and queued goroutines, and changes no other key |
| `GoHandler.Handler.GetOrRefresh` | `cache.go:237-323` | The same for the whole call; and in terms of its options: never the zero value under SURFACE, under ZERO_VALUE a failure exactly if the first GET failed, the miss signal exactly for FAIL_FAST on an absent key, and after an undisturbed SYNC fill an entry that lives for the call's ttl |
| `GoHandler.Handler.SpawnBackgroundMissWrite` | `helper.go:103-123` | Gives up if the lock is taken; otherwise writes exactly if EXISTS answers absent and the SET succeeds, and frees the lock in every case |
| `GoHandler.Handler.SpawnBackgroundRefresh` | `helper.go:139-163` | Gives up if the lock is taken; otherwise rewrites exactly if the cooldown is over, the generator and the SET succeed, and frees the lock in every case |
| `GoHandler.Handler.SpawnStaleRefresh` | `helper.go:392-416` | Like the refresh but without the cooldown test; the shadow gets stale_ttl, not ttl + stale_ttl, and is written also after the main SET failed |
| `PythonHandler.CacheHandler.constructor` | `cashcov-py/src/cashcov/_handler.py:119-164` | A new handler has no locks, no write times and an empty queue |
| `PythonHandler.CacheHandler.Get` | `cashcov-py/src/cashcov/_handler.py:170-180` | Finds the live value of the Redis key spelled prefix, colon, user key, reports it absent, or raises |
| `PythonHandler.CacheHandler.Set` | `cashcov-py/src/cashcov/_handler.py:182-198` | Writes main, then shadow when stale_ttl is positive, then the time; a refused or failing command raises and leaves exactly what came before it; no Redis key but the two spelled ones changes |
| `PythonHandler.CacheHandler.Delete` | `cashcov-py/src/cashcov/_handler.py:200-203` | Removes main and shadow, or fails and changes nothing; keeps lock and times; no Redis key but the two spelled ones changes |
| `PythonHandler.CacheHandler.RecordWrite` | `cashcov-py/src/cashcov/_handler.py:430-433` | Records the time exactly when a cooldown or a dedup window is configured |
| `PythonHandler.CacheHandler.ShouldRefresh` | `cashcov-py/src/cashcov/_handler.py:439-446` | Answers the protocol's cooldown test for the key |
| `PythonHandler.CacheHandler.CheckDedup` | `cashcov-py/src/cashcov/_handler.py:448-458` | Answers the protocol's dedup test, with the window clamped to the ttl |
| `PythonHandler.CacheHandler.MissLocked` | `cashcov-py/src/cashcov/_handler.py:486-501` | SYNC and the locked half of COOPERATIVE end as the protocol's lock, look, generate, write, unlock, whichever of them fail; if somebody holds the lock it waits and has changed nothing |
| `PythonHandler.CacheHandler.FillLocked` | `cashcov-py/src/cashcov/_handler.py:500` | The `set` of a lock-holding job does what the protocol's two SETs and the record do, up to the first that fails |
| `PythonHandler.CacheHandler.MissAsync` | `cashcov-py/src/cashcov/_handler.py:503-509` | Returns the generated value and queues exactly one write-back of it |
| `PythonHandler.CacheHandler.MissStaleOrSync` | `cashcov-py/src/cashcov/_handler.py:511-525` | A live shadow is answered, also while the lock is taken, and one refresh queued; one that cannot be decoded queues the refresh and raises; an absent one leads to the SYNC fill, an unreadable one to a failure |
| `PythonHandler.CacheHandler.MissCooperative` | `cashcov-py/src/cashcov/_handler.py:530-550` | Never waits for good: behind a free lock the locked fill, behind a taken one a generated value that is stored nowhere |
| `PythonHandler.CacheHandler.FillMiss` | `cashcov-py/src/cashcov/_handler.py:464-484` | The policy switch, with the missing-generator check before it, does what the protocol does from `Dispatch` on, with the lock free or taken |
| `PythonHandler.CacheHandler.HandleHitRefresh` | `cashcov-py/src/cashcov/_handler.py:556-611` | Queues one refresh exactly when the protocol's trigger and cooldown gate say so; raises exactly when the TTL command it needs fails, or for AHEAD with a zero ttl on a live entry |
| `PythonHandler.CacheHandler.Retry` | `cashcov-py/src/cashcov/_handler.py:278-284` | Ends the call exactly when the protocol ends it at its second look: with the value, or with the failure of that look |
| `PythonHandler.CacheHandler.Conclude` | `cashcov-py/src/cashcov/_handler.py:293-306` | Records the fill under PROBABILISTIC and applies the error policy, never to the miss signal |
| `PythonHandler.CacheHandler.Restamp` | `cashcov-py/src/cashcov/_handler.py:296-297` | Moves the key's write time only |
| `PythonHandler.CacheHandler.ResolveCall` | `cashcov-py/src/cashcov/_handler.py:243-266` | Option by option: any given value wins, also a nonpositive one, and an absent one gives the default; a per-call DEFAULT miss policy counts as absent |
| `PythonHandler.CacheHandler.AnswerMiss` | `cashcov-py/src/cashcov/_handler.py:278-306` | The dedup check, the fill and the end of a miss, as one |
| `PythonHandler.CacheHandler.Serve` | `cashcov-py/src/cashcov/_handler.py:268-306` | The call with its options resolved does what the protocol's thread program prescribes, in slot, result and queued workers, and changes no other key |
| `PythonHandler.CacheHandler.GetOrRefresh` | `cashcov-py/src/cashcov/_handler.py:205-306` | The same for the whole call; and in terms of its arguments: never the zero value under SURFACE and never a failure under ZERO_VALUE, the miss signal exactly for FAIL_FAST on a key that is absent and not given up on by a failing second look, and after an undisturbed SYNC fill an entry that lives for the call's ttl |
| `PythonHandler.CacheHandler.BgWrite` | `cashcov-py/src/cashcov/_handler.py:617-630` | Gives up if the lock is taken; otherwise writes exactly if EXISTS answers absent, up to the first failing command, and frees the lock in every case |
| `PythonHandler.CacheHandler.BgRefresh` | `cashcov-py/src/cashcov/_handler.py:632-648` | Gives up if the lock is taken; otherwise rewrites exactly if the cooldown is over and the generator succeeds, up to the first failing command, and frees the lock in every case |
| `Meaning.HitMeans` | `cashcov-py/src/cashcov/_handler.py:556-611` | An undisturbed hit, in clock readings and options alone: the answer, and exactly when it launches a refresh or raises, for both languages and all five hit policies |
| `Meaning.FirstGetFails` | `cache.go:280-283` | A failing first GET is reported by Go whatever the error policy, and left to the policy by Python |
| `Meaning.SecondGetFails` | `cashcov-py/src/cashcov/_handler.py:280-284` | In Python a failing second look, taken exactly after a write within window and ttl, ends the call |
| `Meaning.FailFastMeans` | `helper.go:290-293` | FAIL_FAST gives the miss signal under either error policy and changes nothing |
| `Meaning.NoGeneratorMeans` | `cashcov-py/src/cashcov/_handler.py:287-290` | A Python miss without a generator fails under every other policy |
| `Meaning.SyncMeans` | `helper.go:32-64` | SYNC waits for a taken lock; under a free one it stores the generated value for the call's ttl, or complains of the step that failed, and leaves the lock free |
| `Meaning.AsyncMeans` | `helper.go:79-92` | ASYNC returns the generated value and queues its write for the call's ttl |
| `Meaning.CooperativeMeans` | `helper.go:309-343` | COOPERATIVE fills under a free lock; behind a taken one it returns a generated value that is stored nowhere, and in Go leaves its helper waiting |
| `Meaning.StaleMeans` | `helper.go:256-286` | STALE_OR_SYNC answers a readable shadow and leaves the right worker behind, in Go only if background refresh is on; without one it fills as SYNC |
| `Meaning.AnswerMeans` | `cache.go:316-322` | The error policy on any undisturbed call, whatever fails |
| `Meaning.WriteBackMeans` | `helper.go:103-123` | The write-back stores its value for its ttl exactly if the lock is free and the key absent |
| `Meaning.RefreshMeans` | `cashcov-py/src/cashcov/_handler.py:632-648` | The refresh stores the generated value for its ttl exactly if the lock is free, no write lies within the cooldown and the generator succeeds |
| `Meaning.StaleRefreshMeans` | `helper.go:392-416` | Go's stale rewrite ignores the cooldown, and writes the shadow for stale_ttl even if the main SET failed |
| `Meaning.AssignMeans` | `cashcov-py/src/cashcov/_handler.py:182-198` | A direct `Set` or `set`, up to its first failing command |
| `Meaning.RemoveMeans` | `cashcov-py/src/cashcov/_handler.py:200-203` | A direct `delete` removes both entries or fails |
| `Undisturbed.LockedChain` | `helper.go:44-59` | A SYNC or cooperative fill of a free key gets the lock and answers the value found by the second look, generates, or fails with that look or the generator |
| `Undisturbed.SetChain` | `cashcov-py/src/cashcov/_handler.py:189-198` | The protocol's steps of a `Set` or `set` add up to main, shadow and time in one, or to what came before the failing command |
| `Undisturbed.HitChain` | `cashcov-py/src/cashcov/_handler.py:564-611` | An undisturbed hit answers the value, and launches a refresh or raises exactly under the stated conditions on ttl, remaining lifetime, cooldown and the TTL command |
| `Undisturbed.WriteBackChain` | `helper.go:109-122` | An undisturbed write-back reaches its SET exactly when EXISTS answers absent |
| `Undisturbed.RefreshChain` | `cashcov-py/src/cashcov/_handler.py:634-644` | An undisturbed refresh reaches its SET exactly when the cooldown is over and the generator succeeds |
| `Embedding.HelperRuns` | `helper.go:325-329` | The cooperative helper takes the free lock, signals and gives the lock back, leaving every key as it was |
| `Embedding.SoloIsRun` | `cache.go:237-323` | Any thread can be run by the machine until it returns or waits for a lock another thread holds; then result or wait, key and spawned workers are those of the undisturbed job, and no other thread has moved |
| `Embedding.SoloReturns` | `cashcov-py/src/cashcov/_lock.py:34-52` | If nobody else holds the lock of its key, that run ends with the thread returned and the key unlocked |
| `Mock.MockCacheHandler.constructor` | `cashcov-py/src/cashcov/testing.py:61-70` | A new mock is empty |
| `Mock.MockCacheHandler.Reset` | `cashcov-py/src/cashcov/testing.py:99-108` | Clears everything, history included |
| `Mock.MockCacheHandler.Get` | `cashcov-py/src/cashcov/testing.py:114-119` | Returns the stored value unless the miss is forced, and logs the call |
| `Mock.MockCacheHandler.Set` | `cashcov-py/src/cashcov/testing.py:121-124` | Stores the value, whatever the ttl, and logs the call |
| `Mock.MockCacheHandler.Delete` | `cashcov-py/src/cashcov/testing.py:126-129` | Removes the value and logs the call |
| `Mock.MockCacheHandler.GetOrRefresh` | `cashcov-py/src/cashcov/testing.py:131-155` | All cases: injected error, forced miss, miss without a generator, failing generator, fill, hit |
| `Mock.SyncMeaning` | `cashcov-py/src/cashcov/_handler.py:268-306` | An undisturbed SYNC + NONE + SURFACE call of the real handler, with any cooldown, dedup window and stale_ttl, returns the live value, or fills once, or surfaces the failure |
| `Mock.SyncCalls` | `cashcov-py/src/cashcov/_handler.py:492-498` | Such a call starts its generator exactly on a miss |
| `Mock.StepAgrees` | `cashcov-py/src/cashcov/testing.py:114-129` | One get, set, delete or get_or_refresh gives the same reply on both handlers and keeps their contents equal |
| `Mock.MockSimulates` | `cashcov-py/src/cashcov/testing.py:131-155` | For every sequence of operations with a generator, without expiry, the mock gives the same values, from_cache flags, failures and generator calls as the real handler |

## Left out

- The Redis client and the JSON codec: values are opaque encoded texts with decode(encode(v)) = v; a
  network or decoding error is a failure of the command. A SET that takes effect but is reported
  as failed is only covered as a foreign write followed by a failure.
- Redis counts TTLs in whole seconds for Python and OLDER_THAN; the model has one tick for every clock,
  and a time stamp and the command beside it read the same clock.
- PROBABILISTIC: the random draw, logarithm, beta and the measured generation time are one
  nondeterministic choice; only the conditions that do not depend on them are modelled.
- Floating point: AHEAD ratios are exact rationals.
- Time-outs of background work and contexts appear as failing commands or generators; a panicking
  generator and one that calls back into the handler are not modelled.
- The bounded thread pool, the asyncio task set, `close` and `aclose`: a queued worker may start late, but
  is not cancelled or refused.
- The asyncio handler is covered as far as each `await` is a step of the same protocol; the timed acquire
  of `AsyncKeyedLock` is not, because its shielded acquire can outlive the time-out and keep the lock.
- `FAIL_FAST` and error policies treat a generator that itself raises the miss signal as an ordinary
  failure.
- Keys that end in `:stale` or `@created` after another key in use: `Keys.Apart` and `GoHandler.Disjoint`
  name the pairs the frame conditions exclude, and the step machine gives every key its own slot, which
  `Cells` justifies for all other keys. The in-process lock and timestamp maps keep their per-key form there.
- Freshness of Go's shadows, cooldown spacing of Go's stale rewrite, and a bound on the waiting time of
  Go's cooperative callers (the time-out covers the first of their two lock waits): the code does not
  promise them.
- DestroyHandler while goroutines run: a running worker keeps its copy of the registered generator.
- Environment and `.env` parsing, option constructors, decorators, the FastAPI manager, the ctypes client,
  the build hook and the examples.
- GoHandler.Handler.GetOrRefresh: states one call with nobody interfering, up to the wait for a lock that
  is taken; what happens while it waits, and every other interleaving, is the step machine's part.
- PythonHandler.CacheHandler.GetOrRefresh: the same.
- KeyedLocks.KeyedMutex.Lock: reports that the caller waits, and does not model the queue of waiting
  callers; which of them gets the lock next is left open in the step machine.
- Overlap.OneGeneratorAtATime: gives a sufficient condition on a single run; `Overlap.InFlightBound` counts
  on every run, and the exact condition on the policy is `Overlap.OverlapExactly`.
