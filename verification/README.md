# Verified models of the F-CTF platform's stateful core

This project models, in Dafny, the parts of the platform whose correctness
depends on state, time or interleaving, and proves properties of the models.

| file | models |
|---|---|
| `TokenBucket.dfy` | the Redis token bucket behind every rate limiter of the challenge gateway, with a clock that may step back and a key that may expire |
| `ConnLimiter.dfy` | the Redis connection limiter and its in-memory twin |
| `ConnDrift.dfy` | one Redis connection counter when its key expires and calls to Redis get no answer |
| `Gateway.dfy` | accept loops and connection goroutines of several gateway processes that share Redis, with slots at four levels (address, global, semaphore, token) |
| `Session.dfy` | the teardown of one proxied session: handler, two copiers and expiry timer around one `sync.Once` and one channel |
| `CopyLoop.dfy` | the copy loop with its byte count and its base64 sample |
| `Migrator.dfy` | the migration of one table: column mapping, batches, bulk upsert |
| `PodSharding.dfy` | the pod watcher: events sharded by UID over FIFO workers, each handler a series of separate remote calls |
| `TimerService.dfy` | the portal's challenge timers: an in-memory map of timeouts beside a stored list |
| `Routes.dfy` | expanding a route and reading team and challenge back from it |
| `ScoreChart.dfy` | the rows of the score-evolution chart |

`dafny verify dfyconfig.toml` checks everything.

## How to read the models

- Where the program changes things step by step there is a class or a method
  with loops, proved equal to a function of the old state. The theorems about
  runs and interleavings are lemmas about those functions.
- Each Lua script is one atomic step. Tokens are `real` numbers: a rounding of
  the number that `HMSET` stores as text, and of floating-point sums, is not
  modelled. In `TokenBucket` a key may expire before any call, no sooner than its
  lifetime allows; in `ConnDrift`
  expiry and every kind of lost call are steps of their own; `Gateway` has
  neither.
- In `Gateway` each limiter is one map of counters. `Gateway.RedisLeftEmpty` plays
  every run on the single Redis that holds all three limiters and gets the same
  answers.
  The deployment has two replicas
  (`FCTF-k3s-manifest/prod/app/challenge-gateway/deployment.yaml:7`), so there is
  one accept loop and one semaphore per process and one set of counters for all.
  Limits are at least 1, which `ChallengeGateway/internal/config/config.go:62-72` sees to.
- In `PodSharding` what the outside answers while an event is handled (clock,
  whether the namespace could be deleted, the challenge's row, the new access
  token) is part of the event, so that both orders of processing see the same.
- In `TimerService` a stop request and its late cleanup are separate steps, so
  any number of requests for one challenge may be under way.

Some results differ from what one would expect of the code:

- One address slot per global slot holds only for connections whose address is
  known: with an empty address the limiter grants without counting.
  `Gateway.IpCountersAgainstGlobal` has the exact balance.
- A release that never runs leaves its slot counted, and so does, under
  fail-closed, an acquire that ran and whose answer was lost. Without the two the
  counter never exceeds the open connections (`ConnDrift.CounterHonestIff`), with
  them it exceeds them by the slots left behind (`ConnDrift.DriftBound`).
- The limit itself holds exactly while no connection is admitted for lack of an
  answer and no counter expires (`ConnDrift.LimitHeldIff`).
- Rejected calls are invisible exactly when they do not step the stored clock back
  (`TokenBucket.RejectedCallIsInvisibleIff`).
- Sharding by pod UID always keeps each pod's order. It keeps to the dispatch order
  as a whole exactly when pods on different shards share neither cache entry nor
  namespace (`PodSharding.ShardedIsSequentialIff`); a pod and its replacement share
  both, and on different shards a namespace can survive that one worker would have
  deleted (`PodSharding.SharedKeyRaces`).
- White space after the challenge number of a bare route makes the expanded
  route unreadable while the bare one parses (`Routes.SpaceShows`); the handler's
  second attempt on the expanded host never helps (`Routes.SecondAttemptIsIdle`).
- A timer that is started while a stop request of its challenge is under way can
  be forgotten by that request's cleanup, and only then
  (`TimerService.RestartSurvivesIff`).

## Model

| member | source | states |
|---|---|---|
| TokenBucket.Redis.RunScript | ChallengeGateway/internal/limiter/redis.go:145-174 | the script's answer and the hash it leaves, for any stored hash or none and any clock reading; a key past its deadline counts as missing, the key's new deadline is the lifetime after the call, and other keys stay |
| TokenBucket.RateLimiter.constructor | ChallengeGateway/internal/limiter/redis.go:70-80 | the limiter's settings, with a key lifetime of 600 seconds |
| TokenBucket.RateLimiter.Allow | ChallengeGateway/internal/limiter/redis.go:82-93 | without a key, or with a rate or burst that is not positive, the call is admitted and Redis untouched; a call lost before the script ran changes nothing, one whose answer is lost has the script's effect, and in both the fail mode decides; otherwise it is one ask of the limiter for that key and reading |
| TokenBucket.KeyAnsweredAlone | ChallengeGateway/internal/limiter/redis.go:82-93 | for every sequence of calls for any keys: the answers one key gets are those of a bucket of its own, expiring on time, whatever is asked for other keys in between |
| TokenBucket.KeysAreIndependent | ChallengeGateway/internal/limiter/redis.go:82-93 | starting from an empty Redis, when rate × lifetime ≥ burst, they are the answers of a bucket that starts full and never expires, called at that key's times only |
| TokenBucket.UnlimitedAlwaysAdmits | ChallengeGateway/internal/limiter/redis.go:83-85 | in every sequence of calls, those without a key or to a limiter that is switched off are admitted |
| TokenBucket.RateKeysMeetIff | ChallengeGateway/internal/limiter/limiter.go:40-42 | the three rate limiters never use the same Redis key, except the HTTP limiter asked for a key that begins with "ip:" and the HTTP address limiter asked for the rest of it |
| TokenBucket.StoredTokensWithin | ChallengeGateway/internal/limiter/redis.go:162-171 | after every run, under any clock, the stored tokens lie between 0 and the burst |
| TokenBucket.SpentBound | ChallengeGateway/internal/limiter/redis.go:162-169 | admissions since a call are paid from that call's level and the clock's forward movement, for any choice of admissions a bucket can pay |
| TokenBucket.WindowBound | ChallengeGateway/internal/limiter/redis.go:153-173 | every contiguous stretch of calls admits at most burst + rate × the sum of the clock's forward steps, whatever the clock does |
| TokenBucket.WindowBoundElapsed | ChallengeGateway/internal/limiter/redis.go:153-173 | with a clock that never steps back, at most burst + rate × elapsed time |
| TokenBucket.GreedyIsOptimal | ChallengeGateway/internal/limiter/redis.go:145-174 | the script's answers keep the window bound in every window, and in every prefix no other choice of calls that keeps it admits more; for any call times |
| TokenBucket.PromiseIffAffordable | ChallengeGateway/internal/limiter/redis.go:145-174 | a choice of calls keeps the bound in every window if and only if a bucket that starts full can pay for it call by call |
| TokenBucket.RejectedCallsAreInvisible | ChallengeGateway/internal/limiter/redis.go:157-172 | with a clock that never steps back, deleting any set of rejected calls changes no other answer |
| TokenBucket.RejectedCallIsInvisibleIff | ChallengeGateway/internal/limiter/redis.go:157-172 | for every bucket and every rejected call: the call shows in no answer to any later run of nondecreasing readings if and only if it did not step the stored clock back |
| TokenBucket.StepBackPaysTwice | ChallengeGateway/internal/limiter/redis.go:162-171 | for every bucket and every rejected call at an earlier reading there is a later reading that is admitted after the call and would not have been without it |
| TokenBucket.RejectedCallsShowAfterStepBack | ChallengeGateway/internal/limiter/redis.go:162-171 | a run with one backward step of a second in which deleting a rejected call turns an admission into a rejection |
| TokenBucket.SpacedCallsAreAdmitted | ChallengeGateway/internal/limiter/redis.go:162-169 | a client that leaves at least 1000 / rate milliseconds between calls is never rejected |
| TokenBucket.EarnedFullIsMissing | ChallengeGateway/internal/limiter/redis.go:157-172 | when rate × lifetime reaches the burst, runs in which the key expires are answered as if it never did, under any clock |
| TokenBucket.ShortTtlShows | ChallengeGateway/internal/limiter/redis.go:157-172 | when it does not, draining the bucket and coming back after the expiry is answered differently |
| TokenBucket.ExpiryIsInvisibleIff | ChallengeGateway/internal/limiter/redis.go:76-172 | expiry of the key never shows in any answer if and only if rate × lifetime ≥ burst |
| TokenBucket.OnTimeIsLegal | ChallengeGateway/internal/limiter/redis.go:172 | a Redis that drops the key exactly when the lifetime set by the last call is over expires it legally, under any clock |
| TokenBucket.OnTimeExpiryIsInvisible | ChallengeGateway/internal/limiter/redis.go:76-172 | such a Redis answers every run as one that never drops the key, when rate × lifetime ≥ burst |
| Wrappers.FullKeyInjective | ChallengeGateway/internal/limiter/redis.go:126 | two keys of one limiter never share a Redis key |
| ConnLimiter.LimiterKeysDisjoint | ChallengeGateway/internal/limiter/limiter.go:43-45 | the address, token and global limiters never use the same Redis key |
| ConnLimiter.OpKeepsMirror | ChallengeGateway/internal/limiter/redis.go:122-141 | one operation gets the same answer from both limiters, keeps them in step and touches one Redis key only |
| ConnLimiter.LimitersBisimilar | ChallengeGateway/internal/limiter/limiter.go:61-85 | both limiters give the same answers to every sequence of acquires and releases on all keys, unmatched releases, empty keys and non-positive limits included |
| ConnLimiter.OpLeavesOthers | ChallengeGateway/internal/limiter/limiter.go:39-46 | an operation of one limiter changes nothing another limiter in the same Redis sees |
| ConnLimiter.Redis.RunAcquire | ChallengeGateway/internal/limiter/redis.go:176-189 | INCR, and DECR again above the limit: granted exactly when the counter was under it, and otherwise unchanged |
| ConnLimiter.Redis.RunRelease | ChallengeGateway/internal/limiter/redis.go:191-200 | DECR, and DEL when nothing is left |
| ConnLimiter.RedisConnLimiter.constructor | ChallengeGateway/internal/limiter/redis.go:107-120 | the settings, with a lifetime of 900 seconds in place of one that is not positive |
| ConnLimiter.RedisConnLimiter.Acquire | ChallengeGateway/internal/limiter/redis.go:122-133 | answer and effect when Redis answers, when the call is lost before the script ran and when only its answer is lost; with an answer it grants exactly while the counter is under the limit, the key empty or the limit not positive |
| ConnLimiter.RedisConnLimiter.Release | ChallengeGateway/internal/limiter/redis.go:135-141 | the release script's effect, or none when the call is lost before it ran |
| ConnLimiter.IPConnLimiter.constructor | ChallengeGateway/internal/limiter/limiter.go:57-59 | a new limiter has its limit and counts nothing |
| ConnLimiter.IPConnLimiter.Acquire | ChallengeGateway/internal/limiter/limiter.go:61-72 | granted and counted exactly while the key is under the limit; an empty key or a non-positive limit is granted uncounted |
| ConnLimiter.IPConnLimiter.Release | ChallengeGateway/internal/limiter/limiter.go:74-85 | one fewer, and no entry when nothing is left or nothing was there |
| ConnDrift.DriftStaysBounded | ChallengeGateway/internal/limiter/redis.go:122-141 | every acquire, release, expiry or lost call keeps the counter within its limit and within reach of the open connections |
| ConnDrift.DriftBound | ChallengeGateway/internal/limiter/redis.go:176-200 | in every matched run from nothing the counter is at most the limit and at most the open connections plus slots that were lost track of; a refusal proves that many exist; open connections are at most limit × (expiries + 1) plus unanswered admissions |
| ConnDrift.DriftBoundIsTight | ChallengeGateway/internal/limiter/redis.go:176-189 | for every limit and number of expiries, with no lost call, a run reaches limit × (expiries + 1) open connections |
| ConnDrift.LostReleasesFill | ChallengeGateway/internal/limiter/redis.go:135-141 | when every release is lost before it runs, the counter fills up, to the limit and everything below, with nothing open |
| ConnDrift.LostAnswersFill | ChallengeGateway/internal/limiter/redis.go:127-131 | so it does under fail-closed when every acquire's answer is lost |
| ConnDrift.CounterHonestIff | ChallengeGateway/internal/limiter/redis.go:122-141 | for every set of kinds of events: in all matched runs over it the counter is at most the open connections, if and only if it has no acquire that takes a slot and is refused for a lost answer, and no lost release beside an acquire that counts |
| ConnDrift.LimitHeldIff | ChallengeGateway/internal/limiter/redis.go:122-141 | for every set of kinds of events: in all matched runs over it no more than the limit are open, if and only if it has no admission for lack of an answer, and no expiry beside answered acquires |
| Gateway.StepFollows | ChallengeGateway/internal/gateway/tcp.go:65-148 | every step moves each counter exactly as it moves its connection in or out of that slot's holders |
| Gateway.StepKeepsInv | ChallengeGateway/internal/gateway/tcp.go:65-105 | every step keeps all counters exact and within limits, the deferred calls in their order, and one connection at a time in each accept loop |
| Gateway.RunKeepsInv | ChallengeGateway/internal/gateway/tcp.go:65-105 | so does every interleaving |
| Gateway.SlotAccounting | ChallengeGateway/internal/gateway/tcp.go:81-103 | in every reachable state each address, global, token and semaphore counter is the number of connections in a stage that holds the slot, and within its limit |
| Gateway.IpCountersSum | ChallengeGateway/internal/gateway/tcp.go:81-98 | the address counters add up to the connections that hold an address slot |
| Gateway.IpCountersAgainstGlobal | ChallengeGateway/internal/gateway/tcp.go:81-101 | in every reachable state the address counters sum to the global counter plus the connections between address and global slot, less those with a global slot and no known address |
| Gateway.NoSlotLeaks | ChallengeGateway/internal/gateway/tcp.go:85-148 | when every connection has ended no counter is left and every semaphore is empty |
| Gateway.RunInRedis | ChallengeGateway/internal/gateway/tcp.go:65-148 | every run, played on one Redis with the three limiters' prefixes, gets from it the answers it goes by, and leaves in it the three maps and no other key |
| Gateway.RedisLeftEmpty | ChallengeGateway/internal/limiter/limiter.go:39-46 | starting from an empty Redis, so does every gateway run, and Redis is empty again when every connection has ended |
| Gateway.BlockedMeansReleasing | ChallengeGateway/internal/gateway/tcp.go:93-101 | whenever an accept loop is blocked on its semaphore, some holder in the same process has already given its global slot back and has at most two deferred calls left |
| Gateway.PopNeverWaits | ChallengeGateway/internal/gateway/tcp.go:95-101 | in every state that keeps the invariant a goroutine's next deferred call can run; the receive from the semaphore, which waits on an empty one, always finds the goroutine's own place |
| Gateway.ReleaseNeverWaits | ChallengeGateway/internal/gateway/tcp.go:95-101 | such a release is always enabled, nothing else changes it, and each step brings it nearer to its end |
| Gateway.WaitingOnlyDrains | ChallengeGateway/internal/gateway/tcp.go:93 | while a loop waits, its semaphore gains no holder and its connection stays put |
| Gateway.FinishedReleaseUnblocks | ChallengeGateway/internal/gateway/tcp.go:93-103 | in every continuation in which that releasing goroutine finishes, the send is possible from then on until it happens |
| Gateway.AcceptLoopProgress | ChallengeGateway/internal/gateway/tcp.go:63-103 | in every reachable state with a blocked loop, some goroutine of its process can finish releasing at once and the send is then possible |
| Gateway.Gateway.constructor | ChallengeGateway/internal/limiter/limiter.go:43-45 | a fresh gateway holds no slot |
| Gateway.Gateway.TakeIpSlot | ChallengeGateway/internal/gateway/tcp.go:81-84 | the address slot is taken or the connection closed |
| Gateway.Gateway.TakeGlobalSlot | ChallengeGateway/internal/gateway/tcp.go:85 | the global slot is taken or the connection is to be rolled back |
| Gateway.Gateway.RollBackIpSlot | ChallengeGateway/internal/gateway/tcp.go:86-90 | the address slot goes back and the connection is closed |
| Gateway.Gateway.TakeTokenSlot | ChallengeGateway/internal/gateway/tcp.go:142-148 | the token's slot is taken and its release deferred, or the handler returns |
| Gateway.Gateway.Spawn | ChallengeGateway/internal/gateway/tcp.go:93-101 | one more place in the process's semaphore and three deferred calls in order |
| Gateway.Gateway.Pop | ChallengeGateway/internal/gateway/tcp.go:95-101 | the last deferred call runs and gives back its slot |
| Gateway.Gateway.TakeSlots | ChallengeGateway/internal/gateway/tcp.go:81-92 | the connection waits for the semaphore if and only if its address and the global counter are under their limits; then both are one higher, and otherwise both as they were |
| Gateway.Gateway.AcceptOne | ChallengeGateway/internal/gateway/tcp.go:66-92 | one turn of the loop is a run of the machine; the connection waits for the semaphore if and only if the rate limiter permits it and address and global counter are under their limits, and is closed otherwise with every counter as it was |
| Gateway.Gateway.Handle | ChallengeGateway/internal/gateway/tcp.go:129-148 | the handler is a run of the machine; it serves if and only if the client is authenticated, the rate limiter permits and the token's counter is under its limit; then that counter is one higher and its release deferred, and otherwise nothing changes |
| Gateway.Gateway.Unwind | ChallengeGateway/internal/gateway/tcp.go:95-101 | all deferred calls run, last one first, and the connection is closed |
| Session.StepKeepsInv | ChallengeGateway/internal/gateway/tcp.go:174-264 | every step keeps the state of the once, the two connections and the channel in agreement with where each goroutine is |
| Session.SafeTeardown | ChallengeGateway/internal/gateway/tcp.go:174-264 | in every interleaving `closeAll` starts at most once, a copier that reports on `done` never blocks, and a handler that returned after dialling has closed both connections |
| Session.SessionIffNotExpired | ChallengeGateway/internal/gateway/tcp.go:184-261 | in every run a session is started if and only if the token was found not expired; with an expired one nothing is read, written or sent and no timer fires, and the handler itself closes both connections before it returns |
| Session.CopierEndsIff | ChallengeGateway/internal/gateway/tcp.go:280-303 | in every run without failing reads and writes of a copier, it is past its loop or writing its last chunk if and only if a read came with an error or the end |
| Session.ExpiryCloses | ChallengeGateway/internal/gateway/tcp.go:206-214 | once the timer has fired and until both connections are closed, some closing step is possible at once |
| Session.AllDeferredRun | ChallengeGateway/internal/gateway/tcp.go:172-204 | a handler that returns after dialling has run both deferred closes, and after a session the cancellation and the stop of the timer too, each once |
| Session.StepCountsDown | ChallengeGateway/internal/gateway/tcp.go:174-264 | after the first close every step of anybody lowers the measure and keeps the client side closed |
| Session.NobodyIsStuck | ChallengeGateway/internal/gateway/tcp.go:194-264 | after the first close, as long as somebody has not ended, some step is possible that waits for no peer, no buffer and no clock |
| Session.RunIsShort | ChallengeGateway/internal/gateway/tcp.go:174-264 | after the first close a run is no longer than the measure it uses up |
| Session.TeardownEnds | ChallengeGateway/internal/gateway/tcp.go:174-264 | from every reachable state with a closed connection every continuation is bounded and can go on until handler, copiers and timer have all ended |
| Base64.RoundTrip | ChallengeGateway/internal/gateway/tcp.go:304-306 | decoding the unpadded encoding (RFC 4648, sections 3.2 and 4) gives back the bytes |
| Base64.CharsOfAlphabet | ChallengeGateway/internal/gateway/tcp.go:305 | each group of six bits is written as the character of that number in the alphabet of RFC 4648, section 4 |
| Base64.EncodeHasNoSpace | ChallengeGateway/internal/gateway/tcp.go:228-236 | the encoding contains no space, so a space ends it in the log line |
| CopyLoop.DeliveryIsFaithful | ChallengeGateway/internal/gateway/tcp.go:280-303 | the destination gets all read bytes in order, or with a failing write everything before that read and a prefix of it |
| CopyLoop.AddChunk | ChallengeGateway/internal/gateway/tcp.go:283-291 | count and sample after a chunk are the length and the first bytes of everything read so far |
| CopyLoop.PassOn | ChallengeGateway/internal/gateway/tcp.go:292-302 | a chunk is written even when it came with an error, an empty one is not; when the loop goes on and with which error it stops |
| CopyLoop.CopyAll | ChallengeGateway/internal/gateway/tcp.go:280-303 | for all read and write results: what is delivered, the byte count, the error and the first bytes of the sample |
| CopyLoop.CopyWithSample | ChallengeGateway/internal/gateway/tcp.go:275-308 | the same with a sample limit of any sign, and the base64 text decodes to exactly the first min(limit, count) bytes read |
| Migrator.UpsertRowOverlays | database-migration/migrator.py:190-233 | whether a row is inserted, updated or left alone, its key's row becomes the old row, or the column defaults, with the new values laid over it |
| Migrator.SequentialOverlays | database-migration/migrator.py:190-233 | with distinct keys, upserting row by row lays each row over what its key had before the first |
| Migrator.SequentialTally | database-migration/migrator.py:190-233 | with distinct keys, the row-by-row counts are those of comparing all rows with the first snapshot |
| Migrator.UpsertAllAppend | database-migration/migrator.py:304-372 | upserting in two batches gives the table and the added counts of upserting in one, distinct keys or not |
| Migrator.BulkOverlays | database-migration/migrator.py:212-233 | inserting the new rows and then updating the changed ones lays every row over what its key had |
| Migrator.BulkIsSequential | database-migration/migrator.py:171-241 | with distinct keys and one set of columns the bulk upsert is not refused and leaves the table, and the three counts, of the row-by-row upsert |
| Migrator.RowsAccountedFor | database-migration/migrator.py:390-392 | inserted, updated and unchanged add up to the number of rows |
| Migrator.InsertedCount | database-migration/migrator.py:212-215 | the inserted count is what the table grows by, with any keys |
| Migrator.UpdatedCount | database-migration/migrator.py:193-208 | with distinct keys the updated count is the number of stored rows that end up different |
| Migrator.MigratedContents | database-migration/migrator.py:304-372 | afterwards every mapped column holds what was migrated, unmapped columns and rows with other keys are untouched, and no other row appears |
| Migrator.RerunChangesNothing | database-migration/migrator.py:190-210 | migrating the same rows again reports all of them unchanged and leaves the table as it was |
| Migrator.MappedRowMeans | database-migration/migrator.py:306-341 | column by column: the value its mapping entry supplies; otherwise, if the column is required, the empty text, zero or false of its type, and nothing if it is not |
| Migrator.MappedRowsAreUniform | database-migration/migrator.py:306-341 | rows of one query are all mapped to the same columns, which one insert statement for all of them needs |
| Migrator.DataMigrator.HasChanges | database-migration/migrator.py:196-203 | true exactly when a non-key column both rows have differs |
| Migrator.DataMigrator.Snapshot | database-migration/migrator.py:149-184 | the stored rows of exactly the batch's keys, by key |
| Migrator.DataMigrator.Classify | database-migration/migrator.py:186-210 | the batch split, in order, into new, changed and unchanged rows |
| Migrator.DataMigrator.UpdateEach | database-migration/migrator.py:217-233 | one update per row, in order, each laid over what its key then has and without effect if there is no such row |
| Migrator.DataMigrator.ExecuteBatch | database-migration/migrator.py:132-241 | for any batch, duplicate keys included: rows judged against one snapshot, the new ones inserted together or refused with one error, an untouched table and nothing inserted or updated, then the updates in order; for distinct keys the table and counts of the row-by-row upsert |
| Migrator.DataMigrator.WriteBatch | database-migration/migrator.py:212-239 | the insert of the new rows goes through or is refused as a whole, and only then are updates made |
| Migrator.DataMigrator.Map | database-migration/migrator.py:306-341 | the mapped row: mapped columns the target has, then defaults for required columns not mapped |
| Migrator.DataMigrator.AddToBatch | database-migration/migrator.py:343-352 | a row joins the batch, and the batch is executed and emptied exactly when it is full, keeping the table equal to upserting the rows already flushed |
| Migrator.DataMigrator.RunBatches | database-migration/migrator.py:296-372 | for every positive batch size the table and counts of upserting all mapped rows in order |
| Migrator.DataMigrator.ProcessTask | database-migration/migrator.py:244-395 | the task leaves the table of the row-by-row upsert of all source rows and adds its counts to the statistics, whatever the batch size |
| PodSharding.PodOrderKept | ControlCenterAndChallengeHostingServer/DeploymentListener/ChallengesInformerService.cs:384-408 | in every interleaving a pod's events already taken, followed by those still queued, are exactly its dispatched events in order |
| PodSharding.StepRefines | ControlCenterAndChallengeHostingServer/DeploymentListener/ChallengesInformerService.cs:212-333 | every dispatch, start, single remote call and end of handling keeps what each shard's pods look like, once its worker has carried out its plan, equal to handling the shard's events one by one |
| PodSharding.RunRefines | ControlCenterAndChallengeHostingServer/DeploymentListener/ChallengesInformerService.cs:212-408 | so does every interleaving |
| PodSharding.SequentialSettles | ControlCenterAndChallengeHostingServer/DeploymentListener/ChallengesInformerService.cs:212-333 | one worker handling everything treats each shard's pods as that shard's events alone would |
| PodSharding.ShardedIsSequential | ControlCenterAndChallengeHostingServer/DeploymentListener/ChallengesInformerService.cs:45-408 | when pods on different shards share neither cache key nor namespace, every interleaving ends, once drained, in the world that handling all events one by one in dispatch order gives |
| PodSharding.ShardedIsSequentialIff | ControlCenterAndChallengeHostingServer/DeploymentListener/ChallengesInformerService.cs:45-408 | for every number of workers, hash and placement of pods: that holds in every world and interleaving if and only if pods on different shards share neither cache key nor namespace |
| PodSharding.IgnoredLeaves | ControlCenterAndChallengeHostingServer/DeploymentListener/ChallengesInformerService.cs:214-222 | a bookmark, an error and a namespace whose name does not parse change nothing |
| PodSharding.EndedLeaves | ControlCenterAndChallengeHostingServer/DeploymentListener/ChallengesInformerService.cs:226-290 | the end of a pod: entry and reservation gone, one open tracking row fewer if there is one, and the stop announced to the entry's user |
| PodSharding.GhostLeaves | ControlCenterAndChallengeHostingServer/DeploymentListener/ChallengesInformerService.cs:233-238 | a pod without an entry: if its namespace can be deleted, that is one deletion more, the reservation is gone and the stop announced; otherwise nothing changes |
| PodSharding.TerminatingLeaves | ControlCenterAndChallengeHostingServer/DeploymentListener/ChallengesInformerService.cs:240-244 | a terminating pod with an entry changes nothing |
| PodSharding.StuckLeaves | ControlCenterAndChallengeHostingServer/DeploymentListener/ChallengesInformerService.cs:247-258 | a stuck pod: if its namespace can be deleted, that is one deletion more, entry and reservation are gone and the failure announced; otherwise at most its restart is noted |
| PodSharding.NotReadyLeaves | ControlCenterAndChallengeHostingServer/DeploymentListener/ChallengesInformerService.cs:247-320 | a pod that is not ready, or whose challenge is being deleted: at most its restart is noted, as not ready, until the time it had |
| PodSharding.SettledLeaves | ControlCenterAndChallengeHostingServer/DeploymentListener/ChallengesInformerService.cs:320-322 | a ready pod whose entry is ready for it changes nothing |
| PodSharding.UpLeaves | ControlCenterAndChallengeHostingServer/ResourceShared/Services/K8sService.cs:246-313 | a pod that comes up: a run that begins is tracked unless it is a preview and ends after the challenge's minutes or 30, a running one keeps its end; the entry is written ready with pod, address and end, if there is a reservation or it is a preview, for a minute at least; the address is announced |
| PodSharding.UpUnknownLeaves | ControlCenterAndChallengeHostingServer/DeploymentListener/ChallengesInformerService.cs:324-331 | a pod that comes up of an unknown challenge: its restart is noted and it is announced without an address |
| PodSharding.CallsInOrder | ControlCenterAndChallengeHostingServer/DeploymentListener/ChallengesInformerService.cs:266-332 | for every event and entry: an end is announced after the removal of the deployment, a removal other than for the pod's own end comes after the namespace's deletion, an address is announced after the entry is written, and a run is tracked before |
| PodSharding.EndsToldAreReal | ControlCenterAndChallengeHostingServer/DeploymentListener/ChallengesInformerService.cs:266-299 | in every interleaving, whatever pods share: when a worker announces the end of a team's deployment, its entry and reservation are gone |
| PodSharding.DeletedIsFinal | ControlCenterAndChallengeHostingServer/DeploymentListener/ChallengesInformerService.cs:226-238 | after the end of a pod neither cache entry nor reservation is there, and no sequence of later events of any pods brings them back |
| PodSharding.RemovedStaysRemoved | ControlCenterAndChallengeHostingServer/ResourceShared/Utils/RedisHelper.cs:359-366 | a team's removed deployment stays removed in every interleaving from every state, whatever calls other workers still have planned |
| PodSharding.GoneStaysGone | ControlCenterAndChallengeHostingServer/DeploymentListener/ChallengesInformerService.cs:232-238 | once the cache entry is gone, no sequence of later events of any pods brings it back |
| PodSharding.RedeliveryIsQuietIff | ControlCenterAndChallengeHostingServer/DeploymentListener/ChallengesInformerService.cs:239-333 | hearing again of a running pod, at any later time and whatever is then answered, makes no calls if and only if its entry was already ready for that pod, or the challenge was known and the reservation, or a preview, let the first hearing store it |
| PodSharding.SharedKeyRaces | ControlCenterAndChallengeHostingServer/DeploymentListener/ChallengesInformerService.cs:225-243 | for any two pods under one cache key and any world with an entry: the end of one and then news of the other terminating deletes the latter's namespace, and in the other order does not |
| PodSharding.SharedNamespaceRaces | ControlCenterAndChallengeHostingServer/DeploymentListener/ChallengesInformerService.cs:266-270 | for any two pods of one namespace and different keys, the announcements of their ends stand in the order of handling |
| PodSharding.OutOfOrder | ControlCenterAndChallengeHostingServer/DeploymentListener/ChallengesInformerService.cs:384-408 | for any two events of different shards there is a legal, drained run that dispatches them in one order and ends as handling them in the other |
| PodSharding.SharingRaces | ControlCenterAndChallengeHostingServer/DeploymentListener/ChallengesInformerService.cs:384-408 | for any two pods on different shards that share a key or a namespace there is such a run that ends differently |
| PodSharding.Informer.constructor | ControlCenterAndChallengeHostingServer/DeploymentListener/ChallengesInformerService.cs:45-54 | one empty queue for each worker, and shards by the hash of the UID modulo the number of workers |
| PodSharding.Informer.DispatchToShard | ControlCenterAndChallengeHostingServer/DeploymentListener/ChallengesInformerService.cs:384-393 | the dispatch step of the sharded machine: the event goes to the end of its shard's queue and no other queue changes; without a UID nothing happens |
| PodSharding.Informer.CleanupGhostResources | ControlCenterAndChallengeHostingServer/DeploymentListener/ChallengesInformerService.cs:291-299 | only when the namespace could be deleted is the deployment removed and the change announced, in this order |
| PodSharding.Informer.HandleDeletion | ControlCenterAndChallengeHostingServer/DeploymentListener/ChallengesInformerService.cs:266-290 | the deployment is removed, the stop announced to the cached user and one open tracking row stopped |
| PodSharding.Informer.HandlePodRestart | ControlCenterAndChallengeHostingServer/DeploymentListener/ChallengesInformerService.cs:301-312 | the entry gets the new pod and is not ready, and is stored only while time remains |
| PodSharding.Informer.HandleChallengeRunning | ControlCenterAndChallengeHostingServer/ResourceShared/Services/K8sService.cs:246-321 | a first start opens a tracking row and sets the end time, a restart keeps it; then the entry is stored and the address announced |
| PodSharding.Informer.HandleRunningState | ControlCenterAndChallengeHostingServer/DeploymentListener/ChallengesInformerService.cs:314-333 | only a ready pod whose entry is neither ready nor being deleted causes calls, announced even when the challenge is unknown |
| PodSharding.Informer.ProcessPodChange | ControlCenterAndChallengeHostingServer/DeploymentListener/ChallengesInformerService.cs:212-262 | for every event and entry, the calls made in order, and what they leave of the pod's part of the world; nothing else changes |
| PodSharding.Informer.RunWorker | ControlCenterAndChallengeHostingServer/DeploymentListener/ChallengesInformerService.cs:395-408 | a worker on its own empties its queue and leaves the world of handling its events in order, unparsable names skipped |
| TimerService.IndexOf | ContestantPortal/src/services/challengeTimerService.ts:76 | the first entry of the challenge, or -1 exactly when there is none |
| TimerService.StepKeepsInv | ContestantPortal/src/services/challengeTimerService.ts:63-215 | every start, stop, firing, check and late cleanup keeps one entry per challenge, every live timeout in the map, no two challenges on one timeout, and every entry due or watched |
| TimerService.RunKeepsInv | ContestantPortal/src/services/challengeTimerService.ts:63-215 | so does every interleaving |
| TimerService.StartUpInv | ContestantPortal/src/services/challengeTimerService.ts:22-43 | starting up from any stored list with unique ids establishes all of it, even when entries run out while they are being scheduled |
| TimerService.StartUpKeeps | ContestantPortal/src/services/challengeTimerService.ts:29-33 | start-up keeps exactly the stored timers that have not run out |
| TimerService.MapAndListAgree | ContestantPortal/src/services/challengeTimerService.ts:22-215 | in every interleaving after start-up: at most one entry and one live timeout per challenge, that timeout in the map, and every entry due or with a live timeout set for exactly it |
| TimerService.StopForgets | ContestantPortal/src/services/challengeTimerService.ts:177-189 | a stop removes the challenge's entry, timeout and map entry and no other challenge's |
| TimerService.RestartSurvivesIff | ContestantPortal/src/services/challengeTimerService.ts:63-189 | for every state and start: the started timer stays in the list in all runs in which it is not due and nobody starts or stops its challenge again, if and only if no stop request of the challenge was under way when it was started, or it was due at once |
| TimerService.CleanupForgets | ContestantPortal/src/services/challengeTimerService.ts:166-189 | the run that forgets it is the single step of that request's cleanup |
| TimerService.StoredUntilStopped | ContestantPortal/src/services/challengeTimerService.ts:166-189 | a timer that is not started again stays in the list if and only if no stop and no cleanup of its challenge happens, older requests' cleanups included |
| TimerService.OnlyDueAreStopped | ContestantPortal/src/services/challengeTimerService.ts:88-214 | every new stop request is for a timer of that challenge whose time has run out |
| TimerService.CheckFindsOverdue | ContestantPortal/src/services/challengeTimerService.ts:203-215 | after a global check every overdue entry has a stop request under way |
| TimerService.CheckRequestsOnce | ContestantPortal/src/services/challengeTimerService.ts:203-215 | a check asks for one stop of every challenge with an overdue entry and of no other |
| TimerService.FireRequestsStop | ContestantPortal/src/services/challengeTimerService.ts:104-106 | a timeout that fires asks for one stop, of its own timer's challenge, and is gone; map and list stay |
| TimerService.DueIsStoppedAtOnce | ContestantPortal/src/services/challengeTimerService.ts:92-96 | scheduling an entry that is due asks for one stop of its challenge and changes nothing else |
| TimerService.RequestsBalance | ContestantPortal/src/services/challengeTimerService.ts:88-215 | in every run the requests of a challenge under way are those there were and those that firings, checks and due starts asked for, less one for each cleanup |
| TimerService.FiredUntilCleanup | ContestantPortal/src/services/challengeTimerService.ts:104-174 | from the firing of a timeout on, its challenge has a request under way until a request of the challenge is cleaned up |
| TimerService.StartStores | ContestantPortal/src/services/challengeTimerService.ts:65-85 | a start stores the timer that runs out the given seconds, 1000 milliseconds each, after the first reading, and leaves it due or watched |
| TimerService.ChallengeTimerService.constructor | ContestantPortal/src/services/challengeTimerService.ts:17-43 | expired entries are dropped from the list and the others scheduled in order, whatever the list; with unique ids the agreement of list and timeouts holds |
| TimerService.ChallengeTimerService.StartTimer | ContestantPortal/src/services/challengeTimerService.ts:63-86 | the entry, running out so many seconds after the first reading, replaces the challenge's old one in place or joins the end, and is scheduled |
| TimerService.ChallengeTimerService.ScheduleAutoStop | ContestantPortal/src/services/challengeTimerService.ts:88-109 | an entry already due is stopped at once, any other replaces the challenge's timeout |
| TimerService.ChallengeTimerService.TimeoutFires | ContestantPortal/src/services/challengeTimerService.ts:104-106 | a timeout that fires is gone and one more stop of its own timer's challenge is under way; the map keeps its entry |
| TimerService.ChallengeTimerService.StopRequestReturned | ContestantPortal/src/services/challengeTimerService.ts:171-174 | the cleanup of a request, whatever came of it, is a stop of the challenge |
| TimerService.ChallengeTimerService.StopTimer | ContestantPortal/src/services/challengeTimerService.ts:177-189 | the new map, timeouts and list |
| TimerService.ChallengeTimerService.GlobalCheck | ContestantPortal/src/services/challengeTimerService.ts:203-215 | one stop request for every overdue entry and nothing else |
| TimerService.ChallengeTimerService.Destroy | ContestantPortal/src/services/challengeTimerService.ts:217-225 | no timeout survives and the list stays |
| Routes.IndexByte | ChallengeGateway/internal/gateway/util.go:62 | the first position of the character, or -1 exactly when it is absent |
| Routes.LastIndexByte | ChallengeGateway/internal/gateway/util.go:57 | the last position of the character, or -1 exactly when it is absent |
| Routes.SplitJoin | ChallengeGateway/internal/gateway/util.go:68 | splitting cuts at every separator and joining restores the string |
| Routes.AtoiDecimal | ChallengeGateway/internal/gateway/util.go:73-80 | reading back the decimal form of any number in the range of a 64-bit int |
| Routes.AtoiOfDecimal | ChallengeGateway/internal/gateway/util.go:73-80 | a decimal number, with either sign or none, is read as itself if it fits 64 bits and refused if not |
| Routes.SuffixIsIgnored | ChallengeGateway/internal/gateway/util.go:65-82 | a trailing "-svc" never changes whether or as what a name parses |
| Routes.ExpandIsIdempotent | ChallengeGateway/internal/token/token.go:74-82 | expanding twice is expanding once |
| Routes.ExpandedParsesAlikeIff | ChallengeGateway/internal/gateway/util.go:48-83 | for every route, expansion leaves the parse as it was, unless the route is bare and its text is "team" and two numbers joined by '-' with white space behind, and then it does not |
| Routes.SpaceShows | ChallengeGateway/internal/gateway/util.go:48-83 | for all ids and any white space behind the route, the route parses and its expansion does not |
| Routes.SecondAttemptIsIdle | ChallengeGateway/internal/gateway/tcp.go:150-154 | when the route does not parse, neither does the expanded host |
| Routes.RouteRoundTrip | ChallengeGateway/internal/token/token.go:74-82 | any two ids in the range of a 64-bit int are read back from "team-t-c" and from its expansion |
| Routes.HostAndPortAreIgnored | ChallengeGateway/internal/gateway/util.go:54-65 | of any name with any domain and port behind it only the name counts |
| Routes.ServiceNameParses | ChallengeGateway/internal/gateway/util.go:46-65 | every "team-t-c-svc" service name with any domain and port gives back its ids |
| Routes.BracketsAreRemoved | ChallengeGateway/internal/gateway/util.go:55-56 | a host in brackets with a port is parsed as what is inside them |
| ScoreChart.DatesAreSolveTimes | ContestantPortal/src/components/ChartComponent.tsx:90-95 | the rows' times are exactly the solve times, each once, rising |
| ScoreChart.DatesIgnoreOrder | ContestantPortal/src/components/ChartComponent.tsx:90-95 | they depend on nothing but the set of solve times |
| ScoreChart.FillPoint | ContestantPortal/src/components/ChartComponent.tsx:103-110 | a row has the two fixed fields and one per team name; a name shared by several teams shows the last, and a team may take a fixed field's name |
| ScoreChart.DataPoints | ContestantPortal/src/components/ChartComponent.tsx:115-131 | one row per time with every team's score up to that time |
| ScoreChart.ChartData | ContestantPortal/src/components/ChartComponent.tsx:86-135 | no rows without solves; otherwise the zero row five minutes early and then one row per time |
| ScoreChart.ColumnIsRunningTotal | ContestantPortal/src/components/ChartComponent.tsx:121-128 | filtering and summing for each time equals one pass over the team's solves by date |
| ScoreChart.TimestampsAreSolveTimes | ContestantPortal/src/components/ChartComponent.tsx:98-119 | the chart's timestamps rise strictly, start five minutes before the first solve and go on with exactly the solve times |
| ScoreChart.ColumnRunsOverSolves | ContestantPortal/src/components/ChartComponent.tsx:86-135 | a team's column in the chart is zero followed by the one-pass running total of its solves by date |
| ScoreChart.ColumnSteps | ContestantPortal/src/components/ChartComponent.tsx:121-128 | from row to row a column changes by exactly what the team's solves at the later time are worth |
| ScoreChart.ColumnEndsAtSum | ContestantPortal/src/components/ChartComponent.tsx:121-128 | the last row shows each team's full sum |
| ScoreChart.NeverFallsIff | ContestantPortal/src/components/ChartComponent.tsx:121-128 | a column never falls if and only if the team's solves at each single time are together worth at least nothing |
| ScoreChart.GainsNeverFall | ContestantPortal/src/components/ChartComponent.tsx:121-128 | in particular when no value is negative |

## Left out

- Gateway.SlotAccounting: no Redis call fails and no key expires; a counter under either is the subject of `ConnDrift`. A gateway started without limiters, and the shutdown of the listener, are not modelled.
- Gateway.Gateway.Handle: dialling and the proxied session take no slot and are one step here; `Session` has their insides. The count of pending authentications is not modelled.
- Session.SafeTeardown: a read that returns nothing and no error, and the handler's deferred token release and pending count after the two closes, are not steps. The timer may fire after it was stopped, which the code does not do, so more runs are covered than happen.
- CopyLoop.CopyAll: the byte count is unbounded where the code's is 64 bits wide. Reads never report more bytes than the buffer holds, and writes never accept a part of a chunk without an error, as the interfaces demand.
- Migrator.DataMigrator.ProcessTask: covers mode `upsert` when every row's key is mapped and no key occurs twice. Duplicate keys are compared with a stale snapshot: `Migrator.DataMigrator.ExecuteBatch` says what a batch with them does, but no theorem compares it with the row-by-row upsert. Values come back from the database equal to what was written.
- Migrator.DataMigrator.ExecuteBatch: the target table has at least one key column and the batch maps all of them. A refused bulk insert is modelled as writing nothing and a database that goes away is not modelled. Insert mode, SQL run before and after a task, the retry wrapper, the rebuild of the dynamic challenge table and its foreign keys are left out.
- PodSharding.ShardedIsSequential: expiry of cache entries and reservations, failing remote calls, and the reconciliation of orphaned tracking rows at reconnect are not modelled. One clock reading serves the handling of one event, and a tracking row's label is the pod's own namespace. UIDs hash by an arbitrary function.
- PodSharding.Informer.HandleChallengeRunning: an exception after the tracking row is written is not modelled; one before it counts as an unknown challenge, which has the same effect. The response's other fields are left out.
- PodSharding.Informer.RunWorker: the loop runs until its queue is empty where the code waits for more.
- TimerService.MapAndListAgree: clock readings never step back and no timeout fires before its timer's expiry; both are assumed of the browser, and the theorem needs them. One tab whose storage works and is changed by nobody else, with delays short enough for the browser's timers. That a timer is stopped at most once is not claimed, since the check repeats requests under way.
- Routes.RouteRoundTrip: strings are sequences of Unicode characters, so ill-formed UTF-8 is left out.
- ScoreChart.ChartData: dates parse, times are whole milliseconds, scores are real numbers, and the label of a row is an arbitrary function of its time. A team called `__proto__` would not become a field of the row object.
- HTTP proxying, cookies and redirects in `http.go`, and token verification: wrappers over library code.
- The deployment consumer, the contest and challenge services, the web pages and the CTFd plugins: queues, database access and presentation.
