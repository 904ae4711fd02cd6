# Verified models of the concurrent and distributed examples

The repository is a collection of stand-alone Go examples. Eleven of its files hold
protocols or algorithms whose point is a guarantee: no goroutine leaks, one lease at a
time, at-least-once with an idempotent consumer, a breaker that protects a sick
downstream. This project models those files and proves the guarantees for every input,
every schedule and any number of participants.

One module per file of the repository (two for the Redis queue and for the word counter):

- `Pipeline.dfy`: any network of `gen`, `square` and `merge` stages over unbuffered
  channels, ownership of `close`, a consumer that may walk away, cancellation.
- `DistributedLock.dfy`: TTL leases, owner tokens, the two scripts, the fence counter,
  the store that checks fences, the renewal loop.
- `CircuitBreaker.dfy`: the breaker with overlapping calls, and against a downstream that
  never recovers.
- `Outbox.dfy`: orders and events in one transaction, any number of interleaved relays
  that stop anywhere, the deduplicating broker, and exact crash accounting.
- `PollerRing.dfy`: resources travelling between pollers, the main loop and sleepers.
- `TaskQueue.dfy`, `RedisKeys.dfy`: requests and engines over Redis counters and lists,
  and the printed keys they rely on.
- `BroadcastHub.dfy`: clients joining, leaving and broadcasting at once.
- `WorkerPool.dfy`: the channel-fed pool with its WaitGroup.
- `Lcg.dfy`, `WordCount.dfy`: the 32-bit generator's period, and the one-pass word count.
- `PushIterators.dfy`: chains of `Filter`, `Map` and `Take` under the yield protocol.

## How the models are built

What a mutex section, a Redis command or script, an SQL statement or a loop over data
does is written as a class or method that updates state the way the Go code does, and as a
function on values that is its specification; the method's postcondition equates the two.
The sections of the hub and the status monitor are single assignments to a set or a map:
their steps make the same assignment directly. `Pool.RunTask` covers two steps of the
pool's state machine, storing the outcome and counting down.

What goroutines or clients do together is a state machine whose steps are those atomic
actions: a critical section, a channel hand-off or close, one command, one statement.
`Enabled` says when a step can happen and `Apply` what it does, through the same
specification functions. A run is a sequence of steps; `Valid` says each was enabled when
it was taken. Invariants are proved step by step and lifted to runs by induction. Fields
described as history are written by steps and steer none; that they say what the
steps of the run did is proved too (`RunRecords`, `RunPolls`, `RunOutcomes`,
`ProcessedIsComputed`, `HistoryIsTheRuns`).

Clocks are integers that steps advance by any amount. Outcomes of user functions,
requests, writes and engines, fresh owner tokens and the choice of schedule are parameters
of steps. Lengths, counters and integers are unbounded except where wrap-around is the
point (the generator).

## What the code does not do

In five places the code does less than its comments, or a reader, would expect:

- "One probe at a time" (`examples/circuit-breaker/breaker.go:112-119`). A call admitted
  before the trip can be recorded during half-open and clears the probing flag.
  `CircuitBreaker.OneProbeAtATimeExactlyWhen`: the promise is kept exactly by breakers
  with a success threshold of at most one, and `CircuitBreaker.TwoProbesAreReachable`
  builds the run that breaks it for any other. `CircuitBreaker.SecondProbeExactlyWhen`
  says in which states it can happen, `CircuitBreaker.ProbesAreBounded` how far.
- "A later holder always carries a larger number"
  (`examples/distributed-lock/lock.go:71-73`). SETNX and INCR are two commands, so a
  client that pauses between them can get a number above that of its successor. An INCR
  is safe exactly while the client's own lease is running
  (`DistributedLock.IncrIsInOrderExactlyWhen`); clients that are late by even a
  millisecond break the promise (`DistributedLock.LargerNumbersExactlyWhen`).
  `DistributedLock.FencingProtectsStore` shows what INCRs in time buy, and
  `DistributedLock.LateIncrBreaksFencing` is a run in which a stale write gets through.
- `Extend` with a TTL under a millisecond deletes the key and still reports success
  (`examples/distributed-lock/lock.go:32-36`, `:95-104`); see
  `DistributedLock.StaleHoldersChangeNothing`.
- `Pool.Run` blocks forever when the concurrency is below one and there is a task
  (`examples/pool/pool.go:60-76`); see `WorkerPool.PoolReturnsExactlyWhen`.
- `Take` over an infinite source does not come back when it has delivered its last
  element, but when it is offered one more (`examples/iterator/main.go:37-50`); see
  `PushIterators.TakeReturnsExactlyWhen`.

## Model

| member | source | states |
|---|---|---|
| Pipeline.ConstructorsKeepWiring | examples/concurrency/pipeline/main.go:20-79 | wiring any stage to any existing channels keeps the discipline: one closing owner per channel, only it or the forwarders it waits for send on it, every stage reads a channel older than its output |
| Pipeline.SenderFindsOpenChannel | examples/concurrency/pipeline/main.go:22-31 | a goroutine that wants to send finds its channel open, so no send on a closed channel can panic |
| Pipeline.RunInv | examples/concurrency/pipeline/main.go:20-79 | in every reachable state a channel is closed exactly if its owner has exited, and once; a stage finishes uncancelled only after its input closed |
| Pipeline.CloseDiscipline | examples/concurrency/pipeline/main.go:59-77 | no double close, only the owner closes, `merge` closes only after all its forwarders exited, no hand-over on a closed channel |
| Pipeline.StepLowersMeasure | examples/concurrency/pipeline/main.go:20-79 | every step of every goroutine and of the consumer lowers one measure |
| Pipeline.RunsAreBounded | examples/concurrency/pipeline/main.go:20-79 | no schedule is infinite: a run is no longer than the measure it starts with |
| Pipeline.CancelledNetworkMoves | examples/concurrency/pipeline/main.go:127-150 | after cancellation, while a goroutine is unfinished some goroutine can move, although receives do not watch the context |
| Pipeline.NoLeaksAfterCancel | examples/concurrency/pipeline/main.go:127-153 | for every network, input, schedule and point of leaving: a cancelled run that went as far as it can has seen every goroutine exit |
| Pipeline.OnlyStepsCancelOrLeave | examples/concurrency/pipeline/main.go:89-149 | a run starts uncancelled with the consumer in its loop; it is cancelled, left or finished exactly by `cancel()`, `break` and the end of the range |
| Pipeline.CanAlwaysShutDown | examples/concurrency/pipeline/main.go:143-150 | from every reachable state the consumer can leave, the context be cancelled, and everything be brought to its end |
| Pipeline.CancelIsNeeded | examples/concurrency/pipeline/main.go:143-150 | once the consumer left a blocked sender, all goroutines exit if and only if somebody cancels |
| Pipeline.DrainedNetworkMoves | examples/concurrency/pipeline/main.go:87-117 | with a draining consumer and a reader on every channel the network is never stuck before the end |
| Pipeline.DrainedNetworkTerminates | examples/concurrency/pipeline/main.go:87-117 | a run without `cancel()` and `break` that cannot go on has ended the consumer's range, with all goroutines exited and all channels closed |
| Pipeline.RunHistory | examples/concurrency/pipeline/main.go:20-51 | every producer has sent a prefix of what it has to send, and a sole reader has received exactly what was sent to it |
| Pipeline.LinearNetworkIsLinear | examples/concurrency/pipeline/main.go:89-100 | composing `gen` and `square` as `linearPipeline` does gives a linear network of any length |
| Pipeline.LinearChannel | examples/concurrency/pipeline/main.go:38-51 | each channel of a linear pipeline carries a prefix of the input mapped that often, and all of it once closed uncancelled |
| Pipeline.LinearDeliversPrefix | examples/concurrency/pipeline/main.go:87-100 | the consumer of a linear pipeline always has a prefix of the mapped input, in order; all of it at the end of a run without `cancel()` |
| Pipeline.SquarePipelinePrints | examples/concurrency/pipeline/main.go:89-100 | `gen` and one `square` deliver the squares of the first numbers in order; `linearPipeline` ends with 1 4 9 16 25 |
| Pipeline.StepConserves | examples/concurrency/pipeline/main.go:38-79 | no step creates, duplicates or changes a value |
| Pipeline.RunConserves | examples/concurrency/pipeline/main.go:20-79 | delivered, held, not yet taken and dropped values together are always the inputs, cancelled or not |
| Pipeline.FanInConserves | examples/concurrency/pipeline/main.go:53-79 | each number is delivered, held or dropped exactly as often as the squared inputs contain it; nothing is dropped in a run without `cancel()` |
| Pipeline.FanInNetwork | examples/concurrency/pipeline/main.go:110-111 | the network `fanInPipeline` builds obeys the wiring discipline |
| Pipeline.FanInPipelineDeliversSquares | examples/concurrency/pipeline/main.go:102-117 | every run of `fanInPipeline`, which neither cancels nor leaves, ends, with the multiset of squares of its numbers |
| Pipeline.FanInPipelinePrints | examples/concurrency/pipeline/main.go:110-124 | with the numbers 1 to 10, the squares 1 to 100, each once |
| DistributedLock.Redis.constructor | examples/distributed-lock/lock.go:38-50 | a fresh Redis has no lock and no fence |
| DistributedLock.Redis.RunSetNX | examples/distributed-lock/lock.go:61-69 | SET NX PX sets the key with its expiry only if no live key is there |
| DistributedLock.Redis.RunRelease | examples/distributed-lock/lock.go:24-28 | the release script deletes exactly the caller's own live key |
| DistributedLock.Redis.RunExtend | examples/distributed-lock/lock.go:32-36 | the extend script renews exactly the caller's own live key; PEXPIRE below 1 ms deletes it and answers 1 |
| DistributedLock.Redis.Acquire | examples/distributed-lock/lock.go:54-78 | undisturbed, `Acquire` succeeds with the next fence exactly if nothing fails and the lock is free; what each failure of the random source, SETNX or INCR reports and leaves behind |
| DistributedLock.Redis.Release | examples/distributed-lock/lock.go:81-90 | with a working link `ErrNotHeld` exactly for a caller that is not the holder; the key goes exactly if the holder's request arrives |
| DistributedLock.Redis.Extend | examples/distributed-lock/lock.go:95-104 | the same for `Extend`, and the new expiry |
| DistributedLock.Redis.RenewWhileWorking | examples/distributed-lock/main.go:99-126 | slices shorter than the lease, each followed by `Extend`, keep the lock for any number of slices |
| DistributedLock.Storage.Write | examples/distributed-lock/main.go:23-34 | a write is refused exactly if its fence is below the highest accepted one, which never falls |
| DistributedLock.RunInv | examples/distributed-lock/lock.go:54-104 | in every reachable state the live key, if any, is the latest acquisition's, with the same expiry, and all earlier leases are over |
| DistributedLock.LeasesNeverOverlap | examples/distributed-lock/lock.go:61-69 | over whole runs the leases of different acquisitions are disjoint; holding is being the token Redis would answer |
| DistributedLock.StaleHoldersChangeNothing | examples/distributed-lock/lock.go:21-36 | `Release` and `Extend` succeed exactly for the holder; a stale call changes nothing; a successful one touches only the caller's acquisition |
| DistributedLock.RenewedLockIsNeverLost | examples/distributed-lock/lock.go:92-104 | a holder that extends before each expiry keeps the lock, with nobody acquiring in between, however often |
| DistributedLock.RenewalGoesOn | examples/distributed-lock/main.go:99-126 | work slices shorter than the TTL, each followed by an extension, can go on for any number of slices in such a run |
| DistributedLock.LockIsFreeExactlyWhen | examples/distributed-lock/lock.go:61-69 | the lock can be acquired exactly when nobody holds it, and, left alone, exactly from the end of the latest lease on |
| DistributedLock.IncrIsInOrderExactlyWhen | examples/distributed-lock/lock.go:71-77 | whatever the others do until then, an INCR at a given time comes before any later holder's if and only if the client's own lease is still running at that time |
| DistributedLock.LargerNumbersExactlyWhen | examples/distributed-lock/lock.go:71-77 | if clients send INCR less than `slack` after their lease ends, later holders have larger numbers in every run if and only if `slack` is not positive |
| DistributedLock.InTimeIsInOrder | examples/distributed-lock/lock.go:61-77 | an INCR within the client's own lease is in order |
| DistributedLock.FencingProtectsStore | examples/distributed-lock/main.go:23-34 | with INCRs in time, accepted writes never go back to an earlier holder, and a write is accepted exactly if no later holder's was |
| DistributedLock.LateIncrBreaksFencing | examples/distributed-lock/lock.go:61-77 | a concrete run in which a late INCR lets a stale write through |
| CircuitBreaker.Breaker.constructor | examples/circuit-breaker/breaker.go:68-75 | a new breaker is closed with clear counters |
| CircuitBreaker.Breaker.Transition | examples/circuit-breaker/breaker.go:161-175 | a transition resets the counters, clears probing unless half-open, and reports itself; none to the same state |
| CircuitBreaker.Breaker.Allow | examples/circuit-breaker/breaker.go:98-123 | the admission decision of each state and its effect |
| CircuitBreaker.Breaker.Record | examples/circuit-breaker/breaker.go:126-157 | the effect of an outcome in each state |
| CircuitBreaker.Breaker.Do | examples/circuit-breaker/breaker.go:87-94 | exactly when the function is invoked, and what its success or failure does in each state; refused, nothing changes |
| CircuitBreaker.DoIsARun | examples/circuit-breaker/breaker.go:87-94 | `Do` is the run of `allow`, the time the function takes, and `record` with the function's own outcome |
| CircuitBreaker.ProbesAreBounded | examples/circuit-breaker/breaker.go:112-119 | probes in flight in half-open are at most one plus the calls of earlier periods recorded in this one; probing only in half-open |
| CircuitBreaker.HistoryIsTheRuns | examples/circuit-breaker/breaker.go:126-175 | the outcomes, leftovers and trips that these results speak of are exactly the run's: what was recorded since the period began, the calls among it that were admitted before, the times of opening |
| CircuitBreaker.OneProbeAtATimeExactlyWhen | examples/circuit-breaker/breaker.go:112-119 | in every run half-open has at most one probe in flight if and only if `successThreshold` is at most one |
| CircuitBreaker.TwoProbesAreReachable | examples/circuit-breaker/breaker.go:112-155 | for every other breaker, a run from `New` to half-open with two probes in flight |
| CircuitBreaker.SecondProbeExactlyWhen | examples/circuit-breaker/breaker.go:112-119 | in every reachable state with a probe in flight, a second can start in the same period if and only if a straggler is in flight and one success does not close the breaker |
| CircuitBreaker.NeverWedged | examples/circuit-breaker/breaker.go:98-123 | in every reachable state the breaker admits a call after the cooldown unless a probe is in flight, and any call that returns makes it do so |
| CircuitBreaker.ProbingRefusesUntilAReturn | examples/circuit-breaker/breaker.go:112-117 | while a probe is out every call is refused until some call is recorded, for ever if none is |
| CircuitBreaker.RunTrace | examples/circuit-breaker/breaker.go:126-157 | every reachable state's counters are what the recorded outcomes of its period say |
| CircuitBreaker.BreakerRefinesTrace | examples/circuit-breaker/breaker.go:41-46 | closed until `failureThreshold` failures in a row, half-open until a failure or `successThreshold` outcomes, legal transitions only, no admission within the cooldown of any trip |
| CircuitBreaker.FailingDownstreamIsProtected | examples/circuit-breaker/breaker.go:105-147 | a sequential caller reaches a dead downstream at most threshold plus elapsed/cooldown times |
| CircuitBreaker.ProtectionIsTight | examples/circuit-breaker/breaker.go:105-147 | that bound is reached after any number of cooldowns |
| Outbox.Store.constructor | examples/outbox-pattern/outbox.go:22-38 | the schema starts empty |
| Outbox.Store.PlaceOrder | examples/outbox-pattern/outbox.go:43-69 | the order and its event appear together, or neither does when a statement or the commit fails |
| Outbox.Store.PendingEvents | examples/outbox-pattern/outbox.go:72-92 | exactly the undispatched events in id order |
| Outbox.PendingIs | examples/outbox-pattern/outbox.go:73-74 | in a table whose ids grow, the query gives exactly the undispatched events in id order |
| Outbox.Mark | examples/outbox-pattern/outbox.go:95-101 | marks the row with that id and no other, and unmarks none |
| Outbox.PendingAfterMark | examples/outbox-pattern/outbox.go:72-101 | marking an event takes exactly that event off the pending ones and keeps the order of the rest |
| Outbox.Broker.constructor | examples/outbox-pattern/outbox.go:119-121 | an empty broker has seen nothing |
| Outbox.Broker.Publish | examples/outbox-pattern/outbox.go:125-134 | delivers an unseen id once, counts a seen one as a duplicate |
| Outbox.Relay | examples/outbox-pattern/outbox.go:139-155 | a crashing run has published exactly the oldest pending event and marked nothing; one whose UPDATE fails has published up to that event and marked those before; any other has done both for all; an error exactly for a failing statement |
| Outbox.RunInv | examples/outbox-pattern/outbox.go:43-155 | whatever the interleaving, each relay's remaining events can only repeat a delivery or be exactly the next one |
| Outbox.DeliveredIsPrefix | examples/outbox-pattern/outbox.go:123-155 | with any number of relays stopping anywhere, `delivered` is the first n events in id order; dispatched implies delivered; the orders are those the run placed, each with exactly its event; the run's publishes are deliveries and duplicates |
| Outbox.CrashesAreAccountedFor | examples/outbox-pattern/outbox.go:136-155 | duplicates, plus one if the oldest pending event is already out, equal the runs that stopped between publish and mark, counted from the operations alone; so do backlog and publishes; an undisturbed run drains the outbox |
| Outbox.FinishedRelayDrains | examples/outbox-pattern/outbox.go:139-155 | a relay that starts in any reachable state and finishes leaves every event that existed then dispatched and delivered, whatever happened in between |
| Outbox.RelayCanFinish | examples/outbox-pattern/outbox.go:144-154 | from any reachable state a running relay can be brought to the end of its events |
| PollerRing.Resource.constructor | examples/share-memory-by-communicating/main.go:61-64 | a new resource has no errors |
| PollerRing.Resource.DoPoll | examples/share-memory-by-communicating/main.go:68-78 | an error counts up, a success resets the count |
| PollerRing.Resource.SleepTime | examples/share-memory-by-communicating/main.go:82-85 | the interval plus the back-off per failure |
| PollerRing.StepOwns | examples/share-memory-by-communicating/main.go:82-117 | each step hands one resource from its owner to the next and leaves every other where it is |
| PollerRing.ExactlyOneOwner | examples/share-memory-by-communicating/main.go:87-117 | at every moment each resource has exactly one owner, and only its poller changes it |
| PollerRing.RingMoves | examples/share-memory-by-communicating/main.go:95-117 | with a poller and a URL, some resource can move now or after a sleeper's nap |
| PollerRing.RingIsPacedAndCurrent | examples/share-memory-by-communicating/main.go:13-93 | for the polls a run contains: `errCount` is the trailing run of failures, successive polls of a URL are 60 seconds and 10 more per failure in a row apart, and with distinct URLs the map holds the latest reported status |
| RedisKeys.AtoiOfItoa | examples/redis/main.go:88-98 | a decimal id can be read back |
| RedisKeys.TaskKeys | examples/redis/main.go:20-25 | queue and counter keys are injective in the engine and never meet |
| RedisKeys.ResultKeys | examples/redis/main.go:98-132 | result keys are injective in engine and job text, and meet neither other family |
| RedisKeys.KeysDoNotCollide | examples/redis/main.go:87-132 | no two jobs share a result list and no list is anyone's counter |
| RedisKeys.KeysInRedis | examples/redis/main.go:20-25 | the keys as they read in Redis, one of each family |
| TaskQueue.Redis.RunIncr | examples/redis/main.go:88-91 | INCR on a missing key, a counter, or a list |
| TaskQueue.Redis.RunRPush | examples/redis/main.go:94-96 | RPUSH on a missing key, a list, or a counter |
| TaskQueue.Redis.RunLPop | examples/redis/main.go:99-106 | the pop takes the oldest element and removes an emptied list; with nothing there it times out and changes nothing |
| TaskQueue.PushResultEffect | examples/redis/main.go:132-135 | pushing a result changes that job's result list and no counter, queue or other list |
| TaskQueue.PopJobEffect | examples/redis/main.go:118-128 | popping a job takes the head of that engine's queue and changes nothing else |
| TaskQueue.StepMoves | examples/redis/main.go:87-136 | every step moves one id from its place to the next and moves no other |
| TaskQueue.EveryIdIsInOnePlace | examples/redis/main.go:87-136 | each issued id is in exactly one place, and nothing else is anywhere |
| TaskQueue.RequestsGetTheirOwnResult | examples/redis/main.go:87-136 | no command fails, no id is shared, no job is processed twice, and a request only gets a value with which an engine loop finished that very job in the run |
| TaskQueue.FinishLeavesItsValue | examples/redis/main.go:128-135 | an engine loop that finishes worked on an issued id and leaves exactly the value it computed in that id's result list |
| TaskQueue.WaitingCanBeServed | examples/redis/main.go:98-136 | no waiting request is lost: from every reachable state, with a loop for its engine, some continuation gives it its result |
| BroadcastHub.Hub.constructor | examples/websocket/hub.go:22-24 | a new hub has no clients |
| BroadcastHub.RegisteredExactlyWhileOpen | examples/websocket/hub.go:27-54 | a client is registered exactly while its read loop runs, and a broadcast starts out with exactly the registered clients |
| BroadcastHub.Hub.Snapshot | examples/websocket/hub.go:49-54 | each registered connection exactly once, in any order |
| BroadcastHub.Hub.Broadcast | examples/websocket/hub.go:48-64 | every reachable client gets the message exactly once, an unreachable one does not keep it from others |
| BroadcastHub.RunInv | examples/websocket/hub.go:48-90 | in every reachable state a receiver's log of a sender is what snapshots and write results call for |
| BroadcastHub.MessagesKeepOrder | examples/websocket/hub.go:48-90 | the messages of one sender that a run writes to a receiver are in the order they were read, without repeats, and exactly those whose snapshot it was in and whose write succeeded |
| BroadcastHub.OpenClientMoves | examples/websocket/hub.go:56-89 | a read loop is never stuck: it can read, write to the next client of its snapshot with either outcome, or go back to reading |
| BroadcastHub.RegisteredReceiverGetsAll | examples/websocket/hub.go:69-90 | a receiver registered throughout whose writes succeed gets every message sent in that time |
| WorkerPool.Pool.RunTask | examples/pool/pool.go:23-26 | running a task counts the WaitGroup down by one and stores the outcome in that task's slot, and in no other if the tasks are distinct |
| WorkerPool.Pool.HasErrors | examples/pool/pool.go:50-57 | true exactly if some task has an error |
| WorkerPool.EveryTaskRunsOnce | examples/pool/pool.go:60-83 | the WaitGroup count is never negative, and after `Run` every function ran exactly once with its own error stored |
| WorkerPool.ConcurrencyIsExact | examples/pool/pool.go:60-71 | never more tasks than the configured concurrency are being worked on, and that many can be |
| WorkerPool.RunsAreBounded | examples/pool/pool.go:60-83 | no schedule is infinite |
| WorkerPool.PoolMoves | examples/pool/pool.go:60-83 | no deadlock with a worker or with nothing to do |
| WorkerPool.PoolReturnsExactlyWhen | examples/pool/pool.go:60-76 | every run ends, and has returned if and only if the concurrency is at least one or there is no task |
| Lcg.SeriesDivisibility | examples/pgo/main.go:84 | 1 + a + ... + a^(n-1) has exactly the factors two of n, for the generator's multiplier a |
| Lcg.ReturnsExactlyAfterModulus | examples/pgo/main.go:82-84 | the generator is back at a state exactly after multiples of 2^32 draws |
| Lcg.FullPeriod | examples/pgo/main.go:82-84 | two draws agree exactly if they are a multiple of 2^32 apart |
| Lcg.EveryStateIsVisited | examples/pgo/main.go:82-84 | every 32-bit state is visited within 2^32 draws |
| Lcg.FourDrawsHitEveryResidue | examples/pgo/main.go:83-85 | four consecutive draws pick one of the 12 indices from each residue class mod 4 |
| Lcg.FirstDraws | examples/pgo/main.go:82-84 | the program's first three states |
| WordCount.WordsOfJoin | examples/pgo/main.go:83-88 | tokenising generated text gives back exactly the drawn words |
| WordCount.WordsKeepLetters | examples/pgo/main.go:96-107 | splitting yields non-empty space-free words and keeps every other character in order |
| WordCount.CountWords | examples/pgo/main.go:94-107 | the one-pass tokeniser counts the maximal space-free words of every text |
| WordCount.HottestIsUnique | examples/pgo/main.go:91-92 | highest count with the smallest word is a unique answer, so map order cannot show |
| WordCount.LessIsLexicographic | examples/pgo/main.go:111 | the order that breaks ties is the lexicographic one: at the first difference the smaller character, or the end, comes first |
| WordCount.CountIsMultiplicity | examples/pgo/main.go:104 | a word's count is how often it occurs |
| WordCount.HottestWord | examples/pgo/main.go:93-116 | every other word occurs less often, or as often and is lexicographically larger; an empty result exactly for a text without words |
| WordCount.Corpus | examples/pgo/main.go:75-89 | the text is the drawn words, each followed by a space |
| WordCount.CorpusStarts | examples/pgo/main.go:76-86 | with the program's vocabulary and seed the text starts with "channel slice atomic" |
| WordCount.Workload | examples/pgo/main.go:46-49 | the hottest word of the generated text is the hottest of the drawn words, for any vocabulary, seed and length |
| PushIterators.YieldInv | examples/iterator/main.go:13-50 | a call of any stage's `yield` keeps every later stage passing on what it means to, and logs one call |
| PushIterators.ChainsAreLazy | examples/iterator/main.go:13-50 | any consumer of any chain sees the meaning of the elements pulled, a prefix of the whole; nobody is called again after false |
| PushIterators.WillingConsumerSeesAll | examples/iterator/main.go:13-50 | a consumer that never stops gets the whole meaning, even where a take stage stopped the source |
| PushIterators.ConsumerGetsWhatItWants | examples/iterator/main.go:13-50 | of the list a chain means, the consumer receives everything up to and including the first element it answers false to, and nothing else |
| PushIterators.TakePulls | examples/iterator/main.go:37-50 | in any chain, a take stage whose follower refused nothing pulls min(n + 1, available) elements from what comes before it |
| PushIterators.TakePullsOneMore | examples/iterator/main.go:64-79 | `Take(n)` at the end of any chain with a consumer that wants everything pulls min(n + 1, available) elements of that chain |
| PushIterators.StopsExactlyWhen | examples/iterator/main.go:13-50 | a chain stops its source if and only if some take stage is offered more than it takes or the consumer refuses some prefix of the chain's meaning |
| PushIterators.TakeReturnsExactlyWhen | examples/iterator/main.go:37-66 | `Take(Filter(Naturals(start), pred), n)` comes back if and only if more than n naturals satisfy `pred`; otherwise it delivers them all and searches for ever |
| PushIterators.EvensOfNaturals | examples/iterator/main.go:64-67 | the first loop of the program, for any count: the even numbers from 2 on |
| PushIterators.OddSquaresOfNaturals | examples/iterator/main.go:69-73 | the second: the squares of the odd numbers from 1 on |
| PushIterators.TakeOfNaturals | examples/iterator/main.go:75-79 | the third: that many naturals from the start |
| PushIterators.RangeFilter | examples/iterator/main.go:13-23 | the filter loop computes what the chain semantics says |
| PushIterators.RangeMap | examples/iterator/main.go:26-34 | the map loop, from any element type to any other, gives what follows it the mapped list, one element for each pulled |
| PushIterators.MapStageIsImage | examples/iterator/main.go:26-34 | a map stage in front of a chain is that chain on the mapped list, call for call |
| PushIterators.SelectIs | examples/iterator/main.go:15-17 | filtering is decided element by element and keeps the order |
| PushIterators.RangeTake | examples/iterator/main.go:37-50 | the take loop with its counter does, and pulls as many elements |
| PushIterators.RangeNaturals | examples/iterator/main.go:53-61 | if some number of naturals is enough to stop the chain, the infinite loop ends, with what the chain makes of that many |

## Left out

- The goroutine bodies of `gen`, `square`, `merge`, `Poller`, the ring's `main`, `enqueueAndWait`, `runEngine`, `ServeHTTP`, `Pool.Run` and `work` are steps of state machines, not sequential methods: their loops block on channels or on Redis in the middle, which a sequential method cannot express.
- Go's memory model: a step is atomic, and channel hand-offs and critical sections are taken to synchronise as the language promises. Panics, `defer` order beyond `close` and `Done`, and WaitGroup misuse are not modelled.
- Fairness: progress results say that something can always move and that runs are finite, or that a nap is all that is missing; that a scheduler eventually takes an enabled step is not modelled.
- DistributedLock.Redis.Acquire: TTLs are finite; a zero TTL (no expiry in the client library) and sub-millisecond TTLs are not modelled, nor are the client library's own retries. In the state machine, a client that never gets its number is one that takes no further step.
- DistributedLock.LeasesNeverOverlap: Redis is one server that keeps its keys and has one monotone clock; failover, eviction and clock jumps are not modelled. Tokens are fresh.
- CircuitBreaker.Breaker.Allow: the default branch for an unknown state has no counterpart, because the mode is one of three values. `openedAt` starts at 0 instead of the zero time and is not read before the first trip.
- CircuitBreaker.FailingDownstreamIsProtected: about one caller at a time and a positive cooldown, as overlapping calls that started before a trip are not bounded by it.
- Outbox.Store.PlaceOrder: ids count up without gaps, as AUTOINCREMENT does when transactions roll back completely; the topic, which is constant, and the printed payload text are an opaque payload that names the order.
- The demo scenario of the outbox that writes twice without a transaction bypasses `PlaceOrder` on purpose and is not modelled.
- The status monitor's ticker and its printing are left out; they read the map and change nothing.
- TaskQueue.RequestsGetTheirOwnResult: Redis is reliable; network errors, retries of a command and an engine's failed push are not modelled. The result text is whatever the engine computed, without the prefix that `enqueueAndWait` prints before it, and the collection of results in `handleQuote` is left out.
- TaskQueue.Redis.RunLPop: the pop that BLPOP ends with, or its timeout; waiting for a push that comes later is the enabledness of the state machine's `StartJob` and `TakeResult` steps.
- BroadcastHub.MessagesKeepOrder: a write reaches the peer or fails; deadlines, the read limit and partial frames are not modelled.
- WorkerPool.EveryTaskRunsOnce: the tasks of a pool are distinct and their functions return; a `Run` on a pool that already ran, which would send on a closed channel, is not modelled.
- WordCount.Corpus: the index is the state modulo the vocabulary size, as on platforms where `int` holds every 32-bit value. Strings are sequences of characters rather than bytes.
- PushIterators.RangeNaturals: wrap-around past the largest `int` is not modelled, and a call that never returns is expressed by chains that keep going on every finite part of the source.
- The stages of one chain share an element type; where `Map` changes the type, `RangeMap` joins two chains.
- The remaining examples (HTTP, gRPC, SQL, Kafka, configuration, logging, generics and the smaller concurrency demonstrations) wrap libraries or are simpler instances of what is modelled here.
