# A verified model of bookie-cpp

bookie-cpp is a small BookKeeper server: clients pipeline AddEntry requests over TCP, a single
journal thread commits them to RocksDB in groups, and each request is answered once its group is
written. A ZooKeeper client keeps the bookie registered, and a load generator drives it through a
rate limiter. This project models those parts in Dafny 4.11 and proves what they guarantee over
every input, every interleaving and every sequence of steps. `dafny verify dfyconfig.toml` checks
all of it.

| files | part |
|---|---|
| Bytes, Bits, StorageKey | big-endian integers, the bit operators, the bytewise order of RocksDB, the 16-byte key |
| Protocol, Frames, Codec, CodecHandlers | packet header, length framing, both codecs, and their cursors in place |
| RateLimiter, LimiterRuns, LimiterComparison | the lazy token bucket, its whole-run bounds, its behaviour under more load and against an exact bucket |
| JournalModel, JournalTheorems | the group-commit journal as a transition system, and its theorems |
| JournalThread, JournalDrain, JournalShutdown | the journal as code, exact liveness, and exactly what a shutdown loses |
| ZooKeeperModel, ZooKeeperClient | sessions, listeners and the bookie's registration, as a transition system and as code |
| Endpoints, System, SystemProofs, SystemTheorems, SystemOrder, SystemLiveness, SystemSharing, SystemWitness | both ends of a connection, and clients + byte streams + handlers + journal as one system |
| Deployment | the objects of a running deployment put together, as code that makes the system's steps |

## How the model is built

* Concurrent code appears twice: as a labelled transition system, with one step per access to
  shared state, and as classes whose methods update fields in place. Each thread's code is
  verified against the steps the other threads may make.
* `JournalThread.Storage.RunJournal` takes as input everything its surroundings decide: what
  producers enqueue and when the log is flushed before each of its steps, whether a non-blocking
  read fails spuriously, and what each database write returns. It ends in the state that these
  steps lead to in the transition system, which is a reachable one (`TicksReach`).
* `System.System` labels interleave any number of client processes and connections with the
  journal. Streams are byte sequences; the server and the client consume them only through frames
  and decoders. Posted continuations may be run in any order; only `SystemOrder` supposes that
  they are run in the order of posting.
* `Deployment.Cluster` holds the objects: for each connection an `AddEntryTask` with its limiter,
  two frame decoders and a `BookieHandler`, all over one `Storage`. Each of its methods runs the
  codec, handler or task code and ensures `s == Step(old(s), label)`, or that a socket read leaves
  `s` alone and hands the bytes to the decoder. `Cluster.Valid` says that `s` is reachable, so the
  theorems hold of what the code leaves; also that each limiter has been asked for one permit at each
  turn of its generator, and for nothing else. The journal thread appears to it as the steps that
  `RunJournal` makes.
* The methods of `ZooKeeperClient.ZooKeeper` take as input what other threads do in every gap in
  which the lock is free.
* Time is an integer number of clock ticks; the rate is a real number; rounding of doubles is not
  modelled. Integers of fixed width are written out where the code packs, casts or compares them.

Facts the model takes from libraries: `MPMCQueue` is a bounded FIFO whose non-blocking read may
fail at any time; a promise is fulfilled at most once, one that is destroyed unfulfilled completes
its future with an exception, and the continuation is posted when the promise is settled and the
continuation attached; containers destroy their elements in an order of their own; an event loop
runs what is posted to it; a RocksDB write batch is applied in order and as a whole; recovery
after a crash yields a prefix of the batches written, all of them when every write was synced;
`LengthFieldBasedFrameDecoder(4, MaxFrameSize)` reads a 4-byte big-endian length, strips it, and
gives up on a frame longer than the limit, the length field counted in. None of these libraries is
part of this model.

## What turned out not to hold

* **Acknowledged means persisted.** `db_->Write`'s status is ignored (src/Storage.cpp:192), so a
  failed write is acknowledged like any other. `AckWithoutPersistence` exhibits an acknowledged
  entry that is nowhere; `AckedArePersistedIff` says in which states the promise holds: exactly
  when every write already acknowledged from succeeded.
* **Responses are never errors.** The handler's IOError answer (src/BookieHandler.cpp:72-77) is
  not given for a failed write, but it is given for promises that are destroyed when the journal
  thread returns and when the queue goes, and it ends the client process
  (src/perfClient.cpp:99-101). A response is an error if and only if its entry is one of those the
  shutdown loses (`ErrorsAreTheLoss`); on a connection one is posted exactly if a promise with a
  continuation attached has been broken (`ErrorsIffBroken`). `AShutdownEndsTheClient` is a run in
  which that happens, in every deployment with a connection.
* **Acknowledged entries survive a crash.** With `fsyncWal` on, exactly in the states in which every
  write already acknowledged from succeeded (`AckedSurviveACrashIff`). Without it not even then:
  that successful writes suffice in every run is true if and only if `fsyncWal` is on
  (`AcksAreDurableIffFsync`).
* **The configured rate is kept.** The interval is truncated to whole microseconds, so the limiter
  lets through more than `rate` permits a second exactly when 1e6 / rate is not a whole number
  (`NominalRateIff`).
* **Entries are stored in order of their ids.** The key order is the order of the ids as unsigned
  numbers; it is the signed order exactly when the first ids that differ have the same sign
  (`SignedOrderIff`).
* **Nothing is lost on shutdown.** The destructor's sentinel drops the batch being collected:
  `AnEntryIsLost` is a run that loses one. With c entries collected and n queued when the
  sentinel is enqueued, quiet producers and reads that fail only on an empty queue, exactly
  (c + n) % 1001 are lost, c not counting while a batch is being committed
  (`ShutdownLossIsForetold`). No schedule, producers included, loses an entry accepted before the
  sentinel if and only if at that moment nothing is queued and no batch is being collected
  (`ShutdownIsSafeIff`); then exactly what arrives behind the sentinel is lost
  (`OnlyLaterEntriesAreLost`).
* **startSession takes each promise's future once.** A second call throws. That happens in a run if
  and only if two attempts overlap: an expired event finds a start still pending, or startSession
  is called besides (`ThrowsIffAttemptsOverlap`, and `OverlapsThrow` for such runs). If events come
  only from live handles and nobody else calls it, it never happens (`OneSessionAtATime`).
* **A client finds its entry in the database.** Each client process counts its ledger ids from 0,
  so two of them use the same keys. Under the key of an entry answered OK is the last put with
  that key among those applied (`AnsweredEntriesAreStored`). That this is the client's own payload
  in every run without a failed write is true if and only if connections with the same ledger
  id send the same payload (`AlwaysStoredIff`; `AnsweredThenOverwritten` is a run in which they
  do not).
* **Responses come in request order.** True of OK responses if the event loop runs continuations in
  the order in which they were posted (`ResponsesComeInOrder`). Conservation, the find for each
  response and the meaning of errors do not depend on it.
* **A header survives the wire.** Encoding keeps 16 bits of flags and decoding 8; a header comes
  back unchanged if and only if its flags fit in a byte (`FromIntToInt`).
* **A response's length is the length of its fields.** 28 bytes are declared and 24 written; the
  other 4 are whatever the buffer held (`ResponseRoundTrip`).

## Model

| member | source | states |
|---|---|---|
| Bytes.LexOrderIsNumeric | src/Storage.cpp:124-125 | big-endian encodings of equal width compare bytewise exactly as the numbers do |
| Bytes.BigEndian32 | src/BookieCodecV2.cpp:118-119 | a 32-bit word is written as its four bytes, most significant first, and read so |
| StorageKey.KeyOrder | src/Storage.cpp:115-127 | the 16-byte key is injective, and its bytewise order is the order of (ledger id, entry id) read as unsigned 64-bit |
| StorageKey.SignedOrderIff | src/Storage.cpp:115-127 | the key order agrees with the signed order of the ids if and only if the first ids that differ have the same sign |
| StorageKey.LedgerIsOneRange | src/Storage.cpp:74-75 | the keys with a ledger's 8-byte prefix are exactly its entries' keys and exactly one closed interval of the key order |
| Protocol.ToIntFromInt | src/BookieCodecV2.cpp:32-42 | re-encoding a decoded header word clears exactly its second lowest byte, for every 32-bit word; it is the identity iff that byte is zero |
| Protocol.FromIntToInt | src/BookieCodecV2.cpp:32-42 | decoding an encoded header restores version and opcode and keeps the flags modulo 256; both protocol flags survive for all 16-bit flag words |
| Protocol.HeaderInBits | src/BookieCodecV2.cpp:32-42 | both conversions are the shifts, masks and ors of the source, taken bit by bit, and decoding and encoding again is value & 0xFFFF00FF |
| Protocol.HeaderRoundTrip | src/BookieCodecV2.cpp:199-203 | the same through the four bytes on the wire |
| Protocol.HeaderOnWire | src/BookieCodecV2.cpp:40-42 | a header is version, operation and 16 bits of flags on the wire, in this order |
| Protocol.FlagsAreBits | src/BookieProtocol.h:142-148 | isFencing and isRecovery are the bits 1 and 2 of the flags, for all 16-bit flag words |
| Codec.FlagsKeepTheirMeaning | src/BookieProtocol.h:142-148 | isFencing and isRecovery give the same answer for the request sent and the request received |
| Frames.FrameDecoder.Read | src/BookiePipeline.cpp:36 | one socket read delivers exactly the frames completed by it and keeps the rest, until a frame exceeds the limit |
| Frames.SplitResumes | src/BookiePipeline.cpp:36 | framing a concatenation is framing its first part and resuming from what was left over |
| Frames.ChunkingIsInvisible | src/BookiePipeline.cpp:36 | the frames delivered do not depend on how the bytes are cut into chunks |
| Frames.ChunkedStreamReframes | src/perfClient.cpp:145 | a pipelined stream in arbitrary chunks is reframed exactly if every frame fits the limit, and the decoder fails otherwise |
| Frames.FrameLimit | src/BookiePipeline.cpp:36 | a frame of up to 5242876 bytes behind its length field is passed on, a longer one stops the decoder |
| Codec.RequestRoundTrip | src/BookieCodecV2.cpp:189-211 | the length field of an AddEntry request counts the bytes that follow, and the server decodes the request whatever the master key bytes hold |
| Codec.RequestLayout | src/BookieCodecV2.cpp:189-211 | which bytes of a request are its length, version, operation, flags, master key, ledger id, entry id and payload |
| Codec.ServerClosesIff | src/BookieCodecV2.cpp:50-97 | by its bytes, exactly which frames the server closes on: under 4 bytes, AddEntry under 40, ReadEntry under 20, or under 40 if its fencing bit is set |
| Codec.ReadEntryDecodes | src/BookieCodecV2.cpp:79-97 | of a ReadEntry request the first id is the ledger's and the second the entry's, with and without the key of a fencing read |
| Codec.RequestStreamRoundTrip | src/BookieCodecV2.cpp:45-77 | any list of AddEntry requests, concatenated, cut into arbitrary chunks, reframed and decoded is the same list with flags modulo 256, if and only if every frame fits MaxFrameSize |
| Codec.ErrorRoundTrip | src/BookieCodecV2.cpp:168 | every int8 error code, negative ones included, survives widening to int32, the wire and narrowing |
| Codec.ResponseRoundTrip | src/BookieCodecV2.cpp:106-126 | the declared 28 bytes follow the length field, the last 4 of them unwritten, and the client decodes the response whatever those hold |
| Codec.ResponseLayout | src/BookieCodecV2.cpp:106-126 | a response is 0, 0, 0, 28, version, operation, 0, 0, the 4 bytes of its error code, ledger id, entry id and 4 bytes more |
| Codec.ClientFailsIff | src/BookieCodecV2.cpp:152-179 | by its bytes, exactly which frames the client closes on, and for which its cursor throws |
| Codec.ResponseStreamRoundTrip | src/BookieCodecV2.cpp:147-171 | any list of responses comes back from its concatenation in arbitrary chunks |
| CodecHandlers.ServerRead | src/BookieCodecV2.cpp:45-104 | the cursor code computes the request, or closes on a short one, never reading past the end |
| CodecHandlers.ServerWrite | src/BookieCodecV2.cpp:106-145 | the 32-byte buffer filled in place is the encoding of the response, its unwritten bytes as allocated |
| CodecHandlers.ClientRead | src/BookieCodecV2.cpp:147-187 | the cursor code computes the response, closes on a missing header, and throws on a frame too short for its fields |
| CodecHandlers.ClientWrite | src/BookieCodecV2.cpp:189-223 | for every operation the first 8 bytes are the length, narrowed to 32 bits, and the header; for AddEntry the 44-byte buffer followed by the chained payload is the encoding of the request, the skipped key bytes as allocated |
| RateLimiter.Limiter.constructor | src/RateLimiter.h:47-53 | for 0 < rate < 1e6 the limiter starts empty, with an interval of at least one microsecond and the truncated rate as burst; for a negative rate it has no usable interval, and for zero whatever the conversion of an infinite quotient gives |
| RateLimiter.Limiter.Acquire | src/RateLimiter.h:59-83 | one call takes the two fields from one state of the bucket to the next, for any number of permits, and the sleep ends at the grant |
| RateLimiter.IntervalBrackets | src/RateLimiter.h:47-53 | for 0 < rate < 1e6 the interval is a whole number us >= 1 of microseconds (1000 ticks) with us * rate <= 1000000 < (us + 1) * rate, and the burst a whole number with burst <= rate < burst + 1 |
| RateLimiter.CallSettles | src/RateLimiter.h:62-78 | after every call the store is within its cap, nextFree has not decreased, and there is no credit while in debt |
| RateLimiter.OneSignedBalance | src/RateLimiter.h:62-78 | right after a call the two fields are determined by one signed balance |
| RateLimiter.RefillNeverRaises | src/RateLimiter.h:62-66 | refilling never raises storedPermits * interval - nextFree |
| RateLimiter.ConsumeLowersExactly | src/RateLimiter.h:70-78 | consuming lowers it by exactly what the permits are worth |
| LimiterRuns.WindowRateBound | src/RateLimiter.h:59-83 | in every window of every run the permits are worth at most the burst plus the time between the first and the last grant |
| LimiterRuns.WindowRateBoundIsTight | src/RateLimiter.h:59-83 | the bound is attained for every number of permits from the burst upwards |
| LimiterRuns.NominalRateIff | src/RateLimiter.h:47-53 | at most `rate` permits a second on top of the burst pass in all windows of all runs, if and only if 1e6 / rate is a whole number |
| LimiterComparison.RefillKeepsHeavier | src/RateLimiter.h:62-66 | the truncating, capped refill keeps a more loaded bucket no better off than a less loaded one |
| LimiterComparison.ConsumeKeepsHeavier | src/RateLimiter.h:70-78 | so does consuming at least as many permits from it |
| LimiterComparison.MoreLoadIsNeverEarlier | src/RateLimiter.h:59-78 | for fixed arrival times, raising the permits of any calls and inserting any calls makes no common call's grant earlier |
| LimiterComparison.RefillTrails | src/RateLimiter.h:62-66 | an idle refill loses less than one interval against a bucket that keeps fractions; any other refill, and one that reaches the cap, loses nothing |
| LimiterComparison.TruncationLossIsBounded | src/RateLimiter.h:62-68 | in every run, capped or not, a grant is never earlier than the exact bucket's and later by at most (interval - 1) for each idle refill |
| LimiterComparison.BackloggedRunIsPacedExactly | src/RateLimiter.h:68-78 | while every call finds the bucket in debt, grants are apart by exactly what the permits not taken from the store are worth |
| JournalModel.StepLoops | src/Storage.cpp:149-200 | the two-loop invariant linking blockForNextEntry, toSyncCount and the collected promises is kept by every step |
| JournalModel.StepPlaced | src/Storage.cpp:156-199 | every step keeps each enqueued entry in exactly one place, in order, with the promises and the write batch holding the same entries |
| JournalModel.StepStored | src/Storage.cpp:191-193 | every step keeps the database the replay of the puts applied and the disk that of the puts synced |
| JournalModel.HeldIsLost | src/Storage.cpp:103-109 | once the thread has returned, the entries enqueued and not acknowledged are exactly those whose promise its vector or the queue still holds |
| JournalModel.StepSettled | src/Storage.cpp:103-109 | promises are destroyed unfulfilled only after the thread has returned, with what holds them, hence only those of entries not acknowledged, the collected ones before any that is queued |
| JournalModel.ReachableInv | src/Storage.cpp:139-202 | all of this holds in every state reachable under any interleaving of producers, flushes and the journal thread |
| JournalTheorems.CrashConsistency | src/Storage.cpp:139-201 | while no Write has failed, the database and what a crash leaves are one-at-a-time replays of prefixes of the enqueue order, and the acknowledged entries lie within, with fsync within the crash's too |
| JournalTheorems.AcksFollowEnqueueOrder | src/Storage.cpp:195-197 | whatever Write returns, each promise is fulfilled at most once and the fulfilled ones are a prefix of the enqueue order |
| JournalTheorems.NeverWaitsOnHeldPromises | src/Storage.cpp:156-189 | a blocking read happens only with an empty batch and no promise unfulfilled; the inner loop is left only with 1 to 1001 entries |
| JournalTheorems.AckedArePersistedIff | src/Storage.cpp:192-197 | in every reachable state, all acknowledged entries were applied by the database if and only if every Write acknowledged from succeeded |
| JournalTheorems.AckWithoutPersistence | src/Storage.cpp:192-197 | a run of five steps after which an entry is acknowledged and absent from the database |
| JournalTheorems.AckedSurviveACrashIff | src/Storage.cpp:145-146 | with fsyncWal, in every reachable state all acknowledged entries are on disk if and only if every Write acknowledged from succeeded |
| JournalTheorems.AcksAreDurableIffFsync | src/Storage.cpp:145-146 | that in every run acknowledged entries are on disk as long as the Writes acknowledged from succeeded, is true if and only if fsyncWal |
| JournalTheorems.GroupCommitRefinesSimpleStore | src/Storage.cpp:139-201 | every run without a failed Write is, step for step, a run of a store that applies one put at a time and acknowledges only what it has applied |
| JournalTheorems.ShutdownLossIsExact | src/Storage.cpp:173-176 | when the sentinel is read, exactly the partial batch of at most 1000 entries and the data behind the sentinel are not acknowledged; everything before is, and if no Write failed the database holds exactly that |
| JournalTheorems.ExitIsFinal | src/Storage.cpp:173-176 | after that nothing is written or acknowledged any more, whatever is enqueued |
| JournalTheorems.EveryFutureSettlesOnce | src/Storage.cpp:103-109 | no future gets both a value and an exception, none gets an exception before the thread has exited, and when the destructor is done the broken ones are exactly those of the lost entries |
| JournalShutdown.ShutdownLossIsForetold | src/Storage.cpp:103-109 | from any state in which the sentinel is enqueued, with quiet producers and reads that fail only on empty, the thread exits after an explicit number of steps having lost exactly the last InHand % 1001 entries, hence nothing if and only if that is 0 |
| JournalShutdown.OnlyLaterEntriesAreLost | src/Storage.cpp:103-109 | if nothing is queued and no batch being collected when the sentinel is enqueued, then under every schedule, producers included, exactly the entries accepted by then are acknowledged, and exactly those that arrive later lost |
| JournalShutdown.ShutdownIsSafeIff | src/Storage.cpp:156-184 | whatever producers enqueue, reads miss and writes fail, no schedule loses an entry accepted before the sentinel if and only if, when it is enqueued, no data is queued and no batch is being collected |
| JournalShutdown.AnEntryIsLost | src/Storage.cpp:173-176 | a run of five steps that drops an entry with its batch and breaks its promise |
| JournalThread.Storage.constructor | src/Storage.cpp:49-54 | the journal starts empty with a queue of 10000 |
| JournalThread.Storage.Put | src/Storage.cpp:111-137 | a put enqueues the encoded key and the data under a promise of its own |
| JournalThread.Storage.Accept | src/Storage.cpp:103-109 | an enqueue, the destructor's sentinel included, is the corresponding step of the transition system |
| JournalThread.Storage.RunJournal | src/Storage.cpp:139-202 | the two nested loops, down to the destruction of what they hold, make exactly the steps of the transition system that producers, flushes, spurious misses and Write outcomes allow, for every such environment |
| JournalThread.Storage.Read | src/Storage.cpp:157-171 | one attempt to read takes the oldest entry, or nothing: if the queue is empty, or on a miss when it does not block |
| JournalThread.Storage.SyncBatch | src/Storage.cpp:187-200 | a closed batch is written with the configured sync option, its promises fulfilled in order and both collections cleared, whatever happens in between |
| JournalThread.Storage.DestroyQueue | src/Storage.cpp:103-109 | the destructor's last part is a run of the transition system after which every future is settled: the promises broken are exactly those of the lost entries |
| JournalThread.TicksAreRuns | src/Storage.cpp:139-202 | whatever the environment, the code's steps are a run of the transition system |
| JournalThread.TicksReach | src/Storage.cpp:139-202 | so everything said of reachable states holds of what the code leaves |
| JournalThread.ArrivalsTakeTheRoom | src/Storage.cpp:111-137 | of what producers offer at once, exactly as many as there is room for are queued, the first ones, in order; none once the queue is gone |
| JournalThread.FlushSyncs | src/Storage.cpp:187-192 | a background flush brings the disk up to the database; without one it stays as it is |
| JournalDrain.QuietStep | src/Storage.cpp:156-200 | with producers quiet each step of the thread lowers an explicit measure by one and accounts for each Write, until the thread blocks |
| JournalDrain.DrainIsExact | src/Storage.cpp:152-201 | from an empty batch with n entries queued the journal acknowledges everything in exactly 2n + 2*ceil(n/1001) + 1 steps with exactly ceil(n/1001) Writes |
| ZooKeeperModel.StepKeepsInv | src/ZooKeeper.cpp:67-109 | every step keeps, for every listener, calls made plus calls decided on equal to the sessions it is to hear of |
| ZooKeeperModel.ExactlyOnceNotification | src/ZooKeeper.cpp:67-109 | under every interleaving, calls made to a listener plus those in flight equal the sessions established since it registered, counting the one then live |
| ZooKeeperModel.RegistrationFollowsSessions | src/BookieRegistration.cpp:31-43 | z-node creations issued, pending or waiting on a callback equal the connected events of the run that found no live session; startSession calls made or pending are one, one more for each expired event, and one more for each direct call after Bookie::start's |
| ZooKeeperModel.OneSessionAtATime | src/ZooKeeper.cpp:59-65 | if events come only from live handles and nobody but Bookie::start calls startSession directly, no future is taken twice, at most one handle is live, and it is the one in zk_ |
| ZooKeeperModel.ThrowsIffAttemptsOverlap | src/ZooKeeper.cpp:59-96 | in every run, once the starts due have been made, some startSession has thrown if and only if an expired event found a start pending or startSession was called directly besides |
| ZooKeeperModel.OverlapsThrow | src/ZooKeeper.cpp:59-65 | a second direct call while a session is being attempted is such a run, and so are two expirations before the restart |
| ZooKeeperClient.EveryCallIsMade | src/ZooKeeper.cpp:82-88 | nothing is lost between snapshot and unlock: an activation makes every call on its list, in order, whatever other threads do meanwhile |
| ZooKeeperClient.NotifiedOfFirstConnections | src/ZooKeeper.cpp:67-109 | for events as the library delivers them, states other than 3 and -112 included: calls made to a listener plus those in flight equal the events of state 3 since it registered that are the first since the start or since a -112, and one for the session then live |
| ZooKeeperClient.ZooKeeper.StartSession | src/ZooKeeper.cpp:59-65 | whoever calls it, a new handle is stored and the promise's future taken, throwing exactly if it was taken before |
| ZooKeeperClient.ZooKeeper.LockedEvent | src/ZooKeeper.cpp:67-92 | the locked part of an event: state 3 stores the handle and, if the promise is unfulfilled, fulfils it and snapshots all listeners; state -112 resets the promise; any other state changes nothing |
| ZooKeeperClient.ZooKeeper.HandleSessionEvent | src/ZooKeeper.cpp:67-97 | a whole event, other threads running whenever the lock is free: which listeners are called, in which order; that the restart after state -112 throws exactly if another start got in between; that a state other than 3 and -112 calls nobody and changes nothing |
| ZooKeeperClient.ZooKeeper.RegisterSessionListener | src/ZooKeeper.cpp:99-109 | the listener is appended, and called exactly if a session was live under the lock, whatever other threads do before the call |
| ZooKeeperClient.BookieRegistration.constructor | src/BookieRegistration.cpp:31-35 | the bookie's listener is registered under the path built from host and port |
| ZooKeeperClient.BookieRegistration.HandleNewZooKeeperSession | src/BookieRegistration.cpp:37-43 | a call of the listener issues one ephemeral creation on the handle held by then |
| Endpoints.AddEntryTask.Start | src/perfClient.cpp:64-88 | the turns of the loop post the next entry ids in order, each at the instant the limiter grants it for the clock readings given |
| Endpoints.EntriesArePaced | src/perfClient.cpp:75-88 | among the entries a fresh AddEntryTask generates, those numbered i to j - 1 take at least the time they are worth, less the burst |
| Endpoints.AddEntryTask.SendNext | src/perfClient.cpp:80-87 | a posted closure puts the encoded AddEntry request of its id on the wire, of version 2 and without flags, and records the id |
| Endpoints.AddEntryTask.Read | src/perfClient.cpp:97-107 | an error response exits, an unknown id is not found, any other erases its entry and nothing else |
| Endpoints.BookieHandler.AttachContinuation | src/BookieHandler.cpp:64-77 | attaching posts at once if the promise is settled already, with its value or its exception, and waits otherwise |
| Endpoints.BookieHandler.Settled | src/BookieHandler.cpp:64-77 | settling a promise posts its continuation if attached, and disturbs no other |
| Endpoints.BookieHandler.RunContinuation | src/BookieHandler.cpp:66-76 | the posted callback that is run leaves the list and writes an AddEntry response of version 2 with OK or IOError and the ids it captured, the buffer beginning with 0, 0, 0, 28, 2, 1, 0, 0 |
| System.RequestStreamHead | src/BookieCodecV2.cpp:45-77 | from the concatenation of encoded requests the server takes exactly the first, and leaves the concatenation of the others |
| System.ResponseStreamHead | src/BookieCodecV2.cpp:147-171 | likewise for responses and the client |
| SystemProofs.AttachKeeps | src/BookieHandler.cpp:63-77 | attaching a continuation, to a pending, fulfilled or broken promise, keeps every attached entry either waiting for its promise or, once settled, posted exactly once with what became of it |
| SystemProofs.SettleKeeps | src/Storage.cpp:195-197 | so does fulfilling the next promise, or breaking any |
| SystemProofs.RespondKeeps | src/BookieHandler.cpp:64-77 | so does running any of the posted continuations |
| SystemProofs.StepKeepsInv | src/BookieHandler.cpp:56-78 | every step of clients, streams, handlers and journal keeps the end-to-end invariant of every connection |
| SystemTheorems.RequestsAreConserved | src/perfClient.cpp:75-107 | on every connection, in every reachable state, the keys of pendingRequests_ are the disjoint union of the ids encoded towards the server, in the journal queue, in the current batch, settled but unanswered, and encoded towards the client |
| SystemTheorems.ResponsesFindTheirRequest | src/perfClient.cpp:97-107 | in whatever order continuations are run, the find for a response always hits, and the response is an error if and only if its entry's promise was broken |
| SystemTheorems.ErrorsAreTheLoss | src/BookieHandler.cpp:64-77 | every response is of version 2, for AddEntry (1) and the ledger of its client, and OK (0) or IOError (101); it is an IOError if and only if its entry was enqueued and is never acknowledged, the journal thread having exited; no entry is answered twice |
| SystemTheorems.ErrorsIffBroken | src/BookieHandler.cpp:72-77 | a connection has an error posted if and only if one of its promises was broken with a continuation attached; neither that nor an end of a client process happens before a promise is broken, nor that before the journal thread exits |
| SystemOrder.ResponsesComeInOrder | src/perfClient.cpp:97-107 | if event loops run continuations in the order of posting, OK responses are written in request order and before any error, what is pending are the entries after those completed, and an OK response is for the oldest of them |
| SystemWitness.AShutdownEndsTheClient | src/perfClient.cpp:99-101 | in every deployment with a connection there is a run in which a shutdown loses an entry, the handler answers IOError and the client process ends |
| SystemTheorems.JournalIsReachable | src/BookieHandler.cpp:56-63 | in every reachable state of the system the journal is in a reachable state of its own |
| SystemTheorems.AnsweredEntriesAreStored | src/Storage.cpp:111-201 | if no Write failed, the key of an entry answered OK holds the last put with that key among those applied, which is the payload its client sent unless another connection sends a different one to the same ledger id; with fsync the same is on disk |
| SystemSharing.AlwaysStoredIff | src/perfClient.cpp:66-127 | in every run without a failed Write all entries answered OK are in the database as their clients sent them, if and only if connections that use the same ledger id send the same payload |
| SystemSharing.AnsweredThenOverwritten | src/Storage.cpp:111-201 | a run in which an entry is answered OK and holds the payload of another connection |
| SystemLiveness.NothingGetsStuck | src/BookieHandler.cpp:56-78 | when nothing can move any more, short of shutdown, every entry generated has been answered and nothing is pending |
| SystemLiveness.ShutdownAnswersEverything | src/Bookie.h:57-61 | shut down and at rest, every request read has been answered, with an error exactly if its entry was lost |
| SystemLiveness.EveryScheduleEnds | src/Storage.cpp:152-201 | without new entries any schedule, spurious misses included, makes at most an explicit number of steps besides background flushes |
| SystemLiveness.RestIsReached | src/Storage.cpp:152-201 | from every state of the invariant the system comes to rest |
| Deployment.SocketRead | src/BookiePipeline.cpp:35-38 | bytes in the socket, bytes kept by the decoder and frames passed on always add up to the stream not yet taken; what is kept holds no whole frame; once the socket is empty the frames passed on are all those of the stream |
| Deployment.Connection.constructor | src/perfClient.cpp:142-150 | the objects of a connection start in the connection's first state, the limiter configured for the rate and never called |
| Deployment.Cluster.constructor | src/Bookie.cpp:30-37 | over the given fresh storage and fresh connections, the cluster is in an initial state of the system |
| Deployment.Cluster.ClientGenerates | src/perfClient.cpp:75-88 | a turn of AddEntryTask's loop is the system's step; it takes one permit and the entry is posted at the instant the limiter grants it |
| Deployment.GeneratedAtPace | src/perfClient.cpp:75-88 | whatever else the deployment does in between, of the entries a client has generated on a connection those numbered i to j - 1 were posted over at least the time they are worth, less the burst |
| Deployment.Cluster.ClientSends | src/perfClient.cpp:80-87 | AddEntryTask's closure and the client codec together are the system's step |
| Deployment.Cluster.ServerSocket | src/BookiePipeline.cpp:35-36 | a socket read of any size is no step of the system; the bytes leave the socket and the decoder passes on exactly the frames they complete; once the socket is empty these are all requests sent and not taken yet, whole, and the decoder keeps nothing |
| Deployment.Cluster.ClientSocket | src/perfClient.cpp:144-147 | the same of the responses and the client |
| Deployment.DecodersNeverFail | src/BookiePipeline.cpp:36 | in no reachable state of a deployment has a frame decoder met a frame over the limit |
| Deployment.Cluster.ServerReads | src/BookieHandler.cpp:43-63 | server codec, handler and storage together take the next frame, which is an AddEntry request, and enqueue its entry: the system's step |
| Deployment.Cluster.ServerAttaches | src/BookieHandler.cpp:64-77 | attaching the two callbacks is the system's step |
| Deployment.Cluster.ServerResponds | src/BookieHandler.cpp:66-76 | a posted callback and the server codec together are the system's step: 32 bytes follow in the socket what was there, beginning with 0, 0, 0, 28, 2, 1, 0, 0 and encoding OK or IOError for the entry the callback captured |
| Deployment.Cluster.ClientReads | src/perfClient.cpp:97-107 | client codec and AddEntryTask together are the system's step, up to the end of the process on an error |
| Deployment.Cluster.JournalSteps | src/Storage.cpp:195-197 | what the journal thread has settled reaches the one handler that waits for it: the system's step |

## Left out

- Endpoints.AddEntryTask.Start: stops after as many turns as it is given clock readings, because there is no endless loop here; the system model lets a client generate at any time without bound.
- JournalThread.Storage.RunJournal: follows the endless loop for as many steps as its environment describes; it destroys its vector in order, while the transition system allows any order.
- Deployment.Cluster.JournalSteps: sees the journal thread through its steps on the shared state; that RunJournal makes these steps is proved separately.
- Codec.RequestRoundTrip: covers AddEntry; the client's ReadEntry and Auth encodings are unimplemented in the source.
- System.ResponseStreamHead: the server's ReadEntry responses carry no data in the source, and the handler never produces them.
- `put` stores the address of a local in the key slice and reads its data pointer after moving it (src/Storage.cpp:123-130); keys and payloads are modelled by value, as intended.
- Only the first buffer of a chained payload is stored (src/Storage.cpp:180); payloads are one flat byte sequence.
- Requests other than AddEntry reaching a handler do nothing in the source; in the system model none is sent.
- Closing connections, EOF, socket errors, and the server's reaction to a failed frame decoder. That event loops still run while the storage is destroyed is allowed, not required.
- Use of the queue after its destruction: no put is made then.
- An exception thrown while a response is being written.
- Overflow of `long` and `int` counters, clock durations and entry ids.
- `std::exit` when a z-node creation fails, and continuations attached to startSession's future.
- RocksDB options, column layout, compaction and opening the database.
- Metrics, timers, logging, configuration and command-line parsing, stream printers and error-message tables.
- Actual sleeping: limiter results are about scheduled grant times.
