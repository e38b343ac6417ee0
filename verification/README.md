# friendlyrabbit: a verified model of its protocols

friendlyrabbit wraps an AMQP client: a pool of connections and cached channels, a
publisher with an auto-publish pipeline and retries, consumers, and a payload codec.
This project models the parts of it that carry protocol logic and proves what they
promise, for every input, every interleaving and every reachable state. Verify it
with `dafny verify dfyconfig.toml` (Dafny 4.11).

## How the model is laid out

- `Sequences.dfy` holds weighted sums over the slots of a container; conservation laws
  are equations between such sums. `Runs.dfy` says what it means that a run leads from one
  state to another.
- `Pipeline.dfy` is the auto-publisher, the receipt processor, the error drain and the
  channel cache with its other users, as atomic steps over one state. Go channel
  operations, lock operations and counter increments are atomic; sleeps are stutters.
  A goroutine is a slot that is never reused. Letters are pointers: several queue
  entries may share one letter and its `uint16` RetryCount. Broker answers, timeouts,
  cancellations, producers, consumers, stops and the pool's shutdown are steps of the
  environment.
  `PipelineConservation.dfy` proves what every step keeps; `PipelineSafety.dfy`,
  `PipelineBudget.dfy` and `PipelineProgress.dfy` state the theorems, and
  `PipelineChannels.dfy` ties them to what producers submit and to the order of the channels.
- `Publishing.dfy` and `Retrying.dfy` are the sequential code of the publisher and of the
  receipt loop, as classes; `ConfirmationRefinement.dfy` proves that the confirmation
  loop is a run of the pipeline model, and that in every run of the pipeline model, with any
  other steps in between, a publish goroutine does what the loop does.
- `ConnectionPools.dfy` is the sequential code of hosts, pool and channels;
  `Reconnect.dfy` and `FlagSafety.dfy` are the interleavings around them, and
  `FlagExactness.dfy` is the exact condition under which a flag can be lost;
  `FlagRefinement.dfy` shows that the sequential calls are runs of that interleaving model.
- `ConsumerLifecycle.dfy` interleaves callers and loops of one consumer;
  `ConsumerDelivery.dfy` is its consume loop, and `ConsumerRefinement.dfy` ties the loop to
  the pipeline model, so that publisher and consumers share one cache.
- `Payload.dfy` is the codec over a mutable buffer, with the library codecs as functions
  that satisfy stated inverse laws.

## What turned out to be false, and when it holds

- A stop does not always close the letter queue (`EarlyStopStrandsLetters`). When the
  auto-publisher has stopped, the queue is closed if and only if no stop signal was sent
  before the stop check that precedes deliverLetters (`StopClosesExactly`); left open, it
  still holds every letter ever accepted (`LeftWithoutClosing`). The signal is sent by a
  goroutine of its own: if no stop was requested before the check, the queue is closed; a
  stop requested earlier can end either way (`SignalledFirst`, `CheckedFirst`).
- A recovery does not always end. The flush of the close notifications ends if and only if
  the connection drops before none of its first n + 1 looks, n being the notifications
  buffered when it begins and nobody else redialing (`FlushEndsExactly`); a drop right after
  the dial makes it read a closed channel forever (`DropAfterDialSpins`).
- Three StopConsuming calls after one start can block forever holding the lock
  (`ThreeStopsWedge`, `WedgedForever`); exactly the third call can
  (`WedgedExactlyOnThirdStop`), and up to two never do (`TwoStopsNeverWedge`).
- A connection returned flagged can be handed out unrecovered while channels are
  reconnected (`ReconnectsCanHandOutFlagged`). A flag can be cleared by a stale pass, and
  its connection handed out unrecovered, if and only if some goroutine is in a recovery
  pass on that connection at the moment the flag is set (`FlagIsLostExactly`). If every
  flag is set while there is none, no such connection is ever handed out
  (`QuietFlagsAreSafe`); without channel reconnects there never is one
  (`FlaggedAreRecoveredWithoutReconnects`).
- StartConsuming does not look at `started`. Started means exactly one live loop on runs
  where it takes the lock only while started is false (`StartedMeansOneLoop`); each call that
  takes it while started holds ends with two live loops (`UndisciplinedStartDoubles`,
  `SecondStartDoublesTheLoop`).
- A failing letter is attempted 1 + max(0, M - r) times exactly if r < 65535
  (`FailingAttemptsExactly`), and is given up at all exactly if M < 65535 (`GivenUpExactly`).
- Forwarded messages are exactly the broker's deliveries if and only if the delivery
  channel is never read after it closes; each such read forwards an empty message
  (`ForwardsExactlyWhileOpen`).

## Where code and documentation differ

The model follows the code.

- `ChannelHost.transient == true` means that the channel is cached (connectionpool.go:88,
  205); the model calls the field `managed`. GetTransientChannel ignores its argument and
  always makes an ackable channel with ID 0 (connectionpool.go:260-263).
- The comment on deliverLetters speaks of transient channels (publisher.go:308); the
  publish goroutines use cached ones.
- RetryCount counts retries already used, so the default of 3 (message.go:132) leaves a
  letter with a MaxRetryCount of 3 no retry at all.

## Model

| member | source | states |
|---|---|---|
| PipelineConservation.StepKeepsInv | publisher.go:140-406 | every step of every goroutine keeps conservation of letters and of channels, queue order, flow balances, report accounting and the counter modulo 2^16 |
| PipelineConservation.RunKeepsInv | publisher.go:279-406 | every run keeps them, whatever the interleaving |
| PipelineSafety.EntryInExactlyOnePlace | publisher.go:306-406 | an accepted entry is in exactly one of queue, dispatcher, publish goroutine, receipt goroutine, receipt channel, processor, confirmed, exhausted, refused |
| PipelineSafety.EveryFailureIsReported | rabbitservice.go:376-398 | each failed receipt yields exactly one retry-or-exhausted report, and one more exactly when its requeue met the closed queue |
| PipelineSafety.ConfirmedMeansAcked | publisher.go:155-162 | an entry is confirmed at most once and only after an ack; with its receipts processed, exactly after an ack |
| PipelineSafety.CacheIsConserved | connectionpool.go:194-219 | cached, borrowed and shut-down channels are the IDs 0..C-1, each once, over all users; transient channels add nothing |
| PipelineSafety.ReturnNeverBlocks | connectionpool.go:202-212 | whoever holds a cached channel, its send back into the cache never blocks |
| PipelineSafety.AutoPublisherShare | publisher.go:309-323 | live publish goroutines never exceed C/2+1 and each holds at most one channel, so (C-1)/2 are left to others; a letter in hand waits exactly while C/2+1 are live |
| PipelineSafety.ShareIsUsed | publisher.go:309-323 | the share can be used in full: a run with C/2+1 live publish goroutines |
| PipelineSafety.ShutdownFlushesTheCache | connectionpool.go:298-315 | the pool's shutdown takes every cached channel out of the cache, in order, and touches nothing else |
| PipelineSafety.StopDrains | publisher.go:311-343 | when the queue is closed, exactly what was accepted before the last empty observation has been taken and given to publish goroutines, one each, in acceptance order; the rest is left |
| PipelineSafety.ClosedForGood | publisher.go:377-387 | after the close no run sends into or takes from the queue |
| PipelineSafety.StopClosesExactly | publisher.go:279-356 | for every run in which the auto-publisher has stopped: the queue is closed iff no stop signal was sent before the stop check that precedes deliverLetters, which is iff that check found none; it is closed if no stop was requested before it |
| PipelineSafety.StopOnlyWhileStarted | publisher.go:347-356 | in every run a stop is requested only after a start and before the publisher has left |
| PipelineSafety.SignalledFirst | publisher.go:284-356 | from any state with a stop requested before the check, a run leaves the queue open with all it holds |
| PipelineSafety.CheckedFirst | publisher.go:284-356 | from any such state with an empty queue, another run closes it |
| PipelineSafety.LeftWithoutClosing | publisher.go:279-304 | if it left the queue open it never took a letter and all accepted letters are still queued |
| PipelineSafety.EarlyStopStrandsLetters | publisher.go:284-293 | a run in which the early stop leaves letters in an open queue that still accepts |
| PipelineBudget.SharedRetryBudget | rabbitservice.go:378-387 | however many entries share a letter, its requeues are at most max(0, M - r) and its counter never wraps, if r + K + max(0, M - r) <= 65535 |
| PipelineBudget.ExhaustedUsesBudget | rabbitservice.go:381-388 | once an entry is exhausted its letter has used its budget, up to one retry per other entry |
| PipelineBudget.ExactRetryCount | rabbitservice.go:378-391 | a letter queued once and exhausted was attempted exactly 1 + max(0, M - r) times and reported exhausted once |
| PipelineProgress.TaskProgress | publisher.go:144-156 | a live publish goroutine implies an enabled one, because channels are returned before waiting |
| PipelineProgress.Progress | rabbitservice.go:368-437 | deadlock-freedom: a reachable state not at rest has an enabled productive step, whatever buffers are full |
| PipelineProgress.UnfinishedLetterHasAStep | publisher.go:306-406 | before a stop, a letter neither confirmed nor exhausted implies an enabled productive step |
| PipelineProgress.FewConsumersLeaveProgress | connectionpool.go:194-197 | the same with fewer consumers than cached channels, whatever they hold |
| PipelineProgress.NoChannelsNoPublishing | connectionpool.go:194-197 | the proviso is needed: with every channel held by other users no publish goroutine can start |
| PipelineProgress.QuiescentMeansSettled | rabbitservice.go:376-398 | where no productive step is enabled, each accepted letter is confirmed or reported exhausted, exactly one of the two |
| PipelineProgress.StepRanks | publisher.go:140-406 | every productive step lowers the rank; faults, submissions and foreign errors raise it by fixed amounts |
| PipelineProgress.ProductiveStepsAreBounded | publisher.go:140-406 | termination: productive steps of any run are at most 15 per allowed retry, 15 per publish error or nack, 14 per submission, 1 per foreign error |
| PipelineProgress.RunsEndSettled | publisher.go:140-406 | a run from the start that has come to rest has done no more than that, and has left every accepted letter confirmed or reported exhausted, exactly one of the two |
| PipelineProgress.CanSettleEveryLetter | rabbitservice.go:368-437 | from every reachable state of a serving pipeline, whichever publications the broker acknowledges, lets time out or sees cancelled, a run of at most Rank productive steps settles every accepted letter |
| PipelineChannels.IssuedAreSubmitted | publisher.go:377-387 | in every run, the accepted entries are those of the letters submitted while the queue was open, one each, in that order |
| PipelineChannels.SubmissionInExactlyOnePlace | publisher.go:306-406 | each letter submitted to the open queue is, for each submission, in exactly one place, whatever the run |
| PipelineChannels.EverySubmissionIsSettled | publisher.go:140-406 | from submission to settlement: in a run that has come to rest, each submission to the open queue has been confirmed or reported exhausted, exactly one of the two |
| PipelineChannels.ChannelsAreFifo | publisher.go:20-22 | in every run, letter queue, receipt channel, error channel and channel cache are first-in first-out and lose nothing |
| PipelineChannels.SendsWaitExactlyOnFullBuffers | publisher.go:40-42 | no buffer exceeds its capacity; producers, receipt and stop goroutines wait exactly while theirs is full, and never on a closed queue |
| PipelineChannels.PublishersWaitExactly | publisher.go:144-156 | a publish goroutine waits exactly while the cache is empty and for nothing else, whatever the broker answers |
| PipelineChannels.ProcessorWaitsExactly | rabbitservice.go:376-398 | the receipt processor waits exactly for a receipt, for room in the error channel and for room in the open letter queue |
| Publishing.Attempts | publisher.go:142-163 | the attempts of the loop end at the first ack, timeout or cancel; earlier outcomes are publish errors or nacks |
| Publishing.LedgerBalances | publisher.go:144-146 | each attempt borrows one channel and returns that one next, erred exactly on a publish error, whatever the other users make of the cache in between |
| Publishing.Publisher.SendPublishReceipt | publisher.go:390-406 | one receipt with FailedLetter set iff not Success; a failure counts once on the letter |
| Publishing.Publisher.PublishWithConfirmation | publisher.go:140-164 | the loop refines its trace: attempts, ledger, exactly one receipt, success iff the last outcome is an ack, otherwise the timeout or cancel error of this letter; on an empty cache it waits and has emitted nothing |
| Publishing.Publisher.QueueLetters | publisher.go:359-387 | with the dispatcher and other producers in between, exactly a prefix of the batch is accepted; true iff all of it, false iff the queue was or became closed before the next letter, otherwise that letter waits on the full queue |
| Publishing.ToString | message.go:22-28 | total on every receipt the publisher emits: Error is never nil where it is dereferenced, and it is the reason given |
| ConfirmationRefinement.LoopIsARun | publisher.go:140-164 | left alone, the confirmation loop is an executable run of the pipeline with the same effect, and touches nothing else |
| ConfirmationRefinement.EveryRunFollowsTheLoop | publisher.go:140-164 | in every run, whatever is interleaved, the steps of a publish goroutine are those of the loop on some outcomes, and it emits one receipt, successful iff acked, exactly when the last outcome is final |
| Retrying.FailingAttemptsExactly | rabbitservice.go:381-387 | 1 + max(0, M - r) attempts if and only if r < 65535; otherwise M + 2 |
| Retrying.GivenUpExactly | rabbitservice.go:381-387 | a failing letter is eventually given up if and only if M < 65535 |
| Retrying.ConfiguredAttempts | publisher.go:33-35 | a configured MaxRetryCount is kept and 0 stands for 5, in the number of attempts of a failing letter |
| Retrying.RabbitService.ProcessReceipt | rabbitservice.go:378-393 | the retry decision with all its branches, waiting on a full queue included; a receipt of the publisher never takes the no-copy branch |
| Retrying.RabbitService.DriveFailingLetter | rabbitservice.go:368-399 | a letter that always times out, over any number of rounds: attempted until its count first exceeds MaxRetryCount, reported retrying with its count in between and exhausted once; never given up at 65535 |
| ConnectionPools.AfterPause | connectionhost.go:137-153 | what pausing reads: up to and including the first inactive notification |
| ConnectionPools.ConnectionHost.Connect | connectionhost.go:62-128 | an open connection is left alone; a closed one is dialed, with fresh notification channels on success |
| ConnectionPools.ConnectionHost.PauseOnFlowControl | connectionhost.go:132-154 | drains the notifications as AfterPause says, and none of a closed connection |
| ConnectionPools.FlushedExactly | connectionpool.go:168-176 | when the flush of n notifications is over: after more than n looks, none of the first n + 1 preceded by a drop |
| ConnectionPools.FlushEndsExactly | connectionpool.go:168-176 | the flush ends at all iff the connection drops before none of its first n + 1 looks |
| ConnectionPools.DropAfterDialSpins | connectionpool.go:168-176 | after a drop between dial and first look it is not over after any number of looks |
| ConnectionPools.ConnectionPool.TriggerConnectionRecovery | connectionpool.go:154-177 | dials once more than the failures, and only if closed; ends exactly if the flush does, then open, flushed and unflagged; until then the flag stays |
| ConnectionPools.ConnectionPool.VerifyHealthyConnection | connectionpool.go:131-152 | with drops at any time: exactly when it comes to an end; then the connection is unflagged, and open with no pending notification unless it drops once more before the return; no other flag changes |
| ConnectionPools.ConnectionPool.CreateCacheChannel | connectionpool.go:237-257 | the queue is rotated by the attempts; attempt k, failing or not, tried the connection k rotations bring to the front; the channel is on the last one; a connection is flagged exactly if its last attempt failed, and keeps its flag if it was not tried |
| ConnectionPools.ConnectionPool.ReconnectChannel | connectionpool.go:221-234 | the channel is re-created on its own connection, which ends open and unflagged |
| ConnectionPools.ConnectionPool.ReturnChannel | connectionpool.go:202-219 | a managed channel enters the cache, re-created if erred; any other never does |
| ConnectionPools.ConnectionPool.FillCache | connectionpool.go:87-89 | over all channels: rotation by all attempts, attempt k on connection k mod N, channel i on the connection of its last attempt, flags exactly after failed last attempts |
| ConnectionPools.ConnectionPool.InitializeConnections | connectionpool.go:59-92 | fails exactly if a dial does; otherwise attempt k, failing or not, tried connection k mod N, the queue is a permutation of all connections, and with no failures the channels are the round robin and fairly spread |
| ConnectionPools.NewConnectionPool | connectionpool.go:29-57 | a pool exactly if heartbeat, timeout and connection count are nonzero and every dial succeeds; what initialization promises holds of it, and flagged are exactly the connections whose last attempt failed |
| ConnectionPools.InitializationIsRoundRobin | connectionpool.go:64-92 | with no failures the connections of the created channels are the round robin |
| ConnectionPools.FlaggedExactly | connectionpool.go:247-254 | starting without flags, a connection is flagged iff its last attempt failed; without failures none is |
| ConnectionPools.RoundRobinCounts | connectionpool.go:87-89 | C/N channels on each connection and one more on the first C mod N |
| ConnectionPools.RoundRobinIsFair | connectionpool.go:179-188 | the counts of any two connections differ by at most one |
| Reconnect.OpenConnectionIsNeverOverwritten | connectionhost.go:62-75 | for any number of callers, no step replaces an open connection |
| Reconnect.InstalledBound | connectionhost.go:113-127 | installed connections are at most one more than the installed ones that have closed |
| Reconnect.ReconnectConnects | connectionhost.go:62-128 | after any run that leaves the connection closed and the lock free, a caller whose dial succeeds leaves the host open, with connection and both notification channels of the new connection, and nothing else changed |
| Reconnect.FailedDialChangesNothing | connectionhost.go:113-118 | a caller whose dial fails leaves the host exactly as it was |
| Reconnect.EveryDialIsInstalled | connectionhost.go:62-128 | in every run, the installed connections are exactly those dialed successfully, in that order, but for one being installed; the last one is in use |
| Reconnect.WaitersDoNotDial | connectionhost.go:64-75 | once the connection is open, everybody who waited for the lock goes home: until it drops nobody dials or installs, in any run |
| Reconnect.PausingIsUndisturbed | connectionhost.go:132-154 | while one pauses nobody installs, and it reads the current connection's notifications |
| Reconnect.PausesWhileBlocked | connectionhost.go:132-154 | on an open connection a pausing caller keeps the lock as long as the broker blocks, and leaves the host as it was; on a closed one it leaves at once |
| FlagSafety.PooledPlusHeld | connectionpool.go:97-188 | in every run, channel reconnects included, pooled plus held connections are exactly 0..N-1, each once |
| FlagSafety.QuietFlagsAreSafe | connectionpool.go:131-188 | if every flag is set while nobody is in a recovery pass on its connection, no connection returned flagged is handed out before a full recovery pass begun after the flag |
| FlagSafety.FlaggedConnectionsAreRecovered | connectionpool.go:131-188 | the same for every run in which no pass begun before a flag clears it |
| FlagSafety.FlaggedAreRecoveredWithoutReconnects | connectionpool.go:97-188 | without channel reconnects it holds of every run, because the flag is set before the Put |
| FlagExactness.FlagIsLostExactly | connectionpool.go:131-188 | after any run, a flag being set can be cleared stalely, and its connection handed out unrecovered, iff some goroutine is in a recovery pass on that connection now |
| FlagExactness.LostFlagIsARun | connectionpool.go:131-234 | every run that sets a flag at such a moment has a continuation that hands the connection out unrecovered |
| FlagExactness.ReconnectsCanHandOutFlagged | connectionpool.go:221-234 | such a run exists |
| FlagRefinement.GetConnectionIsARun | connectionpool.go:97-177 | left alone, GetConnection is a run of the interleaving model: the head of the queue, verified as the sequential code says, however many dials fail first |
| FlagRefinement.ReconnectIsARun | connectionpool.go:221-225 | so is the verification of a channel reconnect, which leaves the queue as it is |
| FlagRefinement.ReturnConnectionIsARun | connectionpool.go:181-188 | and ReturnConnection, flagged first if asked |
| FlagRefinement.SeenIsRecovered | connectionpool.go:133-149 | what the poll has seen is acted on: a goroutine that found a notification or a closed connection begins a recovery pass, whatever others have done to the connection in between |
| ConsumerLifecycle.StartedMeansOneLoop | consumer.go:72-133 | on disciplined runs, with the lock free, started holds iff exactly one loop is alive; never two |
| ConsumerLifecycle.UndisciplinedStartDoubles | consumer.go:72-81 | a start that takes the lock while started holds gives it back with two loops alive, however the run goes on |
| ConsumerLifecycle.SecondStartDoublesTheLoop | consumer.go:72-133 | a run of two starts with two loops alive |
| ConsumerLifecycle.LoopExitsOnItsOwnStop | consumer.go:92-103 | a loop leaves only on a stop sent for its own start |
| ConsumerLifecycle.TwoStopsNeverWedge | consumer.go:188-202 | with at most two stops per start, a waiting stop call is released by the loop's next stop check |
| ConsumerLifecycle.WedgedExactlyOnThirdStop | consumer.go:188-202 | a waiting stop call is wedged exactly if it is at least the third of its start |
| ConsumerLifecycle.WedgedForever | consumer.go:130-133 | a wedged call keeps the lock in every continuation |
| ConsumerLifecycle.ThreeStopsWedge | consumer.go:188-225 | a run of one start and three stops that wedges |
| ConsumerLifecycle.StopStopsTheLoop | consumer.go:188-202 | after any disciplined run with a running loop, one stop call and the way out of the loop leave the consumer stopped, its buffer empty, and nothing else changed |
| ConsumerDelivery.ForwardsExactlyWhileOpen | consumer.go:154-168 | the forwarded messages are the broker's deliveries in order, once each, iff the closed channel was never read |
| ConsumerDelivery.SessionExactly | consumer.go:136-182 | a session ends with its first channel error, of whose tick it reads nothing, or stop, of whose tick it reads; it reads every tick before |
| ConsumerDelivery.LoopEndsExactly | consumer.go:92-128 | the loop survives every failed set-up and every lost channel, each with one borrow and one return; it ends with the first pass told to stop, or one that still waits or consumes |
| ConsumerDelivery.ClosedChannelFloods | consumer.go:136-182 | once the delivery channel is closed without a channel error, one empty message is forwarded per tick until a stop, after exactly the deliveries read before; the loop never consumes anew |
| ConsumerRefinement.EveryUserPairs | consumer.go:83-128 | in every run of the pipeline, whatever is interleaved, a user's borrows and returns of cached channels pair up, and the open one is what it holds |
| ConsumerRefinement.ConsumeLoopIsARun | consumer.go:83-133 | left alone, the consume loop is an executable run of the pipeline that borrows and returns what its ledger says, and touches nothing else |
| ConsumerRefinement.TransientLeavesTheCacheAlone | connectionpool.go:202-219 | a transient channel is got whatever the cache holds and returned at any time, with the cache as it was |
| ConsumerDelivery.EveryPassReturnsItsChannel | consumer.go:83-128 | every pass returns its channel exactly once, erred on error paths and not on a stop |
| ConsumerDelivery.Consumer.ProcessDeliveries | consumer.go:136-182 | forwards exactly what it reads, and ends as its ticks say, with the channel back unless still consuming |
| ConsumerDelivery.Consumer.Pass | consumer.go:105-127 | borrow, set up, consume; waits on an empty cache; a failing Qos or Consume reads nothing and returns the channel erred; goes on exactly after an error |
| ConsumerDelivery.Consumer.ConsumeLoop | consumer.go:83-133 | over all passes: what is forwarded, reported, borrowed and returned, and when the loop stops |
| Payload.EncryptionRoundTrip | internal/utils/crypto/crypto.go:76-127 | succeeds iff data is non-empty, the key has 16, 24 or 32 bytes and a nonce is there; 12 + n + 16 bytes; decrypts to the data |
| Payload.DecryptsExactlyWhatWasSealed | internal/utils/crypto/crypto.go:110-127 | with an authentic cipher, decryption accepts exactly what was sealed under its key, refuses any other bytes as not authentic, and what it accepts is what encryption writes for its answer |
| Payload.PayloadRoundTrip | json.go:41-102 | whatever is enabled and whatever the type strings, a produced payload reads back to the marshalled input, also under compatible type strings |
| Payload.PayloadSuccess | json.go:41-81 | exactly when ToPayload succeeds, and the length of its output |
| Payload.PayloadExactly | json.go:41-81 | which payload is written, in terms of the library alone: each stage exactly if enabled, zstd exactly if named; and which stage is to blame for each error |
| Payload.RestoredExactly | json.go:83-102 | which message is read, in terms of the library alone; what the cipher does not open is answered with its error, and each other error has its exact condition |
| Payload.Decompress | internal/utils/compression/compression.go:111-121 | dispatch on the type, replacing the buffer; after an error what the reader did not consume is left |
| Payload.ToPayload | json.go:41-81 | the stages over one shared buffer compute the specified payload |
| Payload.ReadPayload | json.go:83-102 | restores the buffer in place; after a failed decryption the cipher's error and the buffer untouched, after a failed decompression its error and a rest of the decrypted bytes |
| Payload.WriteThenRead | json.go:41-102 | reading what was written gives back the marshalled input |

## Left out

- AMQP wire calls, dialing, TLS files and the connection queue's library: they are environment choices, a sequence, and connections that never reopen once closed.
- gzip, zstd, AES-GCM, Argon2 and JSON marshalling internals: functions with stated laws.
- Topology declarations (topologer.go) and configuration records (configs.go): easy members only; the widths of the counters are taken from them.
- PublishWithTransient and PublishWithConfirmationTransient: what follows their early channel close depends on the AMQP library.
- Restarting the auto-publisher after a stop, the service's shutdown flag and the sleep-based order of RabbitService.Shutdown: timing-dependent.
- Direct calls of Publish and PublishWithConfirmation next to the auto-publisher: in the pipeline model they are users of the cache, and their receipts are not modelled.
- The connection half of ConnectionPool.Shutdown: only the flushing of cached channels is a step.
- User-supplied receipt and error handlers, message text, UUIDs, hostnames and timestamps.
- ConnectionPools.ConnectionPool.CreateCacheChannel: stated for connections that do not drop between the successful dial and the return; what happens otherwise is in VerifyHealthyConnection. The same holds of FillCache, InitializeConnections, NewConnectionPool, ReconnectChannel and ReturnChannel.
- PipelineSafety.ReturnNeverBlocks: an erred channel is re-created before the send, which takes as long as the broker does; the pipeline model takes the re-creation to complete, and Progress rests on that.
- Retrying.RabbitService.ProcessReceipt: does not model waiting on a full error channel; that wait is in the pipeline model.
- ConsumerDelivery.Consumer.ProcessDeliveries: does not model waiting on a full message or error buffer; such a wait changes neither the messages nor their order.
- ConsumerLifecycle.StartedMeansOneLoop: stated for runs in which StartConsuming takes the lock only while started is false, because any other call makes it false (UndisciplinedStartDoubles).
- FlagSafety.QuietFlagsAreSafe: stated for runs that flag quietly, because a flag set at any other moment can be lost (FlagIsLostExactly).
- FlagSafety.FlaggedConnectionsAreRecovered: stated for runs without a stale recovery pass, because with one it can be false (ReconnectsCanHandOutFlagged).
