# coversocks: mailbox, TCP sender and Go connection, verified

A Dafny model of three state machines of this repository's Go/lwIP stack: the connection's Go and C sides, which every
byte of a TCP connection passes through, and the mailbox layer for threads beneath lwIP. The proofs are about all their
interleavings and all callback sequences.

1. **The mailbox and its primitives** (`src/sys.c`): a ring of 128 slots with two counters that only grow, three
   semaphores whose counter clamps at one, and a `wait_send` counter. Under it lie the condition-variable semaphore and
   the re-entrant critical section whose owner word is read without a lock, and the time arithmetic of timed waits.
2. **The per-connection sender** (`src/tcp.c`): a chain of reference-counted pbufs drained into a bounded send buffer by
   the application, the sent callback and the poll callback, and the life of a connection.
3. **The Go connection** (`lwipcs.go`): `Write` waits under a lock for a token that the acknowledgement callback returns
   through the processing loop; `Read` reports window credit back to that loop; `Close` races with both.

## How the model is built

Each concurrent machine appears twice.

- As a *transition system*: one program counter per thread, one statement per step, any number of threads, any schedule.
  `Reachable` means reached by some schedule from the initial state (defined once, in `Paths`). Invariants are proved
  step by step and lifted to every reachable state, and the properties are lemmas about reachable states.
- As a *class* whose methods are the C or Go functions, updating the fields in place with the loops of the source. The
  object carries its run and the states it passed through as ghost state; every method is proved to extend the run by
  legal steps only (a skipped or altered statement is not a step), to make exactly one call, and to meet its own
  contract. Between any two statements of a method the other threads take whatever steps a parameter, the plan, gives
  them at that tick; `Valid` says that at every tick so far they took exactly those, as far as they were possible, in
  order (`Paths.Obeys`). A method that has to wait lets ticks pass until it can go on or the plan is over; the plan ends
  at a horizon, any number. So a contract covers every interleaving, a call that does not return is blocked in a state
  in which the others have nothing left to do, and contracts speak only of what the others cannot change: what the mutex
  guards, what the method has contributed, the state in which it made its test. Everything proved of reachable states
  holds of the objects.

| files | contents |
|---|---|
| `Common`, `Paths` | options, bytes, the clamped counter, flattening; runs of a transition system |
| `MailboxRing`, `MailboxProtocol`, `MailboxRuns`, `MailboxProperties`, `MailboxOps` | storage, transition system and invariant, composed schedules, properties, the operations as code |
| `Semaphore`, `LightweightLock`, `SysTime` | the pthread-level semaphore, the critical section, the time arithmetic |
| `MailboxStack`, `StackProperties` | the mailbox whose waits and signals are calls of three of those semaphores, its simulation; the converse, and what holds down to the condition variables |
| `TcpModel`, `TcpRaw` | a connection on values, and the same on a heap of pbufs |
| `WriteProtocol`, `WriteProperties`, `WriteRuns`, `GoLoop` | `Write`, `Close` and the loop: transition system, properties, concrete runs, code over the heap of `TcpRaw` |
| `ReadCredit`, `ReadLoop` | `Read`, deliveries and credit: transition system and properties, code |

The levels are linked by theorems. `MailboxProtocol` uses atomic clamped semaphores; `Semaphore` shows the
condition-variable code to be one, and `MailboxStack` puts three of them under the mailbox statement by statement and
proves every run of the whole to be, to its callers, a run of `MailboxProtocol` (`StepSimulates`, `RunSimulates`).
`StackProperties` proves the converse for runs without a timeout (`RunRealizes`). So order, exclusion, the wake-ups of
fetchers and posters and freedom from deadlock hold down to the condition variables, under exactly the same conditions.
`TcpRaw` is proved equal to `TcpModel`; `WriteProtocol` steps `TcpModel`, and `GoLoop` runs over `TcpRaw`.

## What is assumed

- The mailbox, semaphore and sleep code of `src/sys.c` is compiled only when `NO_SYS` is 0 (and the critical section only
  with `SYS_LIGHTWEIGHT_PROT`); `src/lwipopts.h:42` sets `NO_SYS` to 1. It is modelled as written.
- Memory is sequentially consistent. `pthread_cond_wait` may wake spuriously but, untimed, returns 0.
- lwIP is an environment: `tcp_write` takes all of the data or nothing and answers as it likes; only registered callbacks
  run, the sent callback no more often than bytes were taken, as it reports newly acknowledged ones; `tcp_sndbuf` is
  whatever lwIP reports; `pbuf_free` walks the chain while the count reaches zero. A callback's room and a delivery's
  data are parameters.
- Other connections appear only where they share something: their entries in the send queue and in the queue of reports.

## Claims that fail, and exactly when they hold

- *No lost wake-up on `not_empty`.* It fails with two threads in the blocking fetch (`TwoFetchersLoseAWakeUp`). It holds
  in all runs if and only if at most one thread uses that call (`FetchersWakeIffOne`).
- *A poster never sleeps beside a free slot.* The clamp merges two signals (`TwoPostersMergeSignals`); it holds if and
  only if at most one thread uses the blocking post (`PostersWakeIffOne`). For any number of posters the weaker
  `NoStrandedPoster` holds.
- *Fetching and posting threads never wait for each other.* With two blocking fetchers a lost wake-up can leave one asleep
  beside a ring that fills up until a poster sleeps too (`TwoFetchersDeadlock`). It never happens if and only if at most
  one thread uses the blocking fetch, or none the blocking post (`NoDeadlockIff`). The three conditions are the exact
  ones down to the condition variables too (`FetchersAreOwedIffOne`, `PostersAreOwedIffOne`, `StackNeverDeadlocksIff`).
- *The stream is the Writes that returned nil, then a prefix of at most one other.* With two writing goroutines a Write
  may be in the stream, before one that returned nil, and still return an error, because `Write` reads `p.err` after it
  has given the lock back (`TwoWritersConfuse`). The claim holds in all runs without memory shortage if and only if at
  most one goroutine writes (`ErrorsTellTheStreamIffOneWriter`). What holds for any number is
  `StreamIsWritesInLockOrder` and `NilMeansSent`.
- *A Write goes out whole.* The length parameters of `pbuf_alloc` and `pbuf_take` have 16 bits, the caller's has an
  int (`src/tcp.c:339-344`). Unless its length is a multiple of 65536, a Write of any length, alone, with memory, can
  return nil while only its length modulo 65536 was sent (`LoneWrite`). If it is a multiple nothing is sent, so
  nothing is acknowledged, and a lone Write never returns nil (`LoneWriteReturnsIff`); one that follows another may
  (`EmptyWriteReturns`). In the runs without memory shortage whole buffers are what is sent if and only if no buffer
  has 65536 bytes or more, or nobody writes (`WholeIffShort`). Memory shortage is a condition of its own: the pool has
  120 pbufs of 256 bytes, 30720 in all (`src/lwipopts.h:161-164`; the patch raises it), and a buffer that finds no
  pbufs is dropped while its Write waits for the token of a later acknowledgement.
- *The end of a connection is always processed.* `close` takes the lock that a waiting Write holds. The loop that meets
  this waits for good, and with it every connection, if and only if the holder waits for the loop in turn: for its
  token, or for room in the queue (`WaitsForGoodIff`). One unacknowledged byte is enough (`PeerCloses`).
- *Reading never panics.* It panics when a goroutine closes the connection between the test and the put of a delivery,
  and when a buffer is shorter than what arrived. No run panics if and only if no goroutine calls Close and every buffer
  holds the longest delivery (`NeverCrashesIff`).

## Model

| member | source | states |
|---|---|---|
| MailboxRing.WindowPush | src/sys.c:359-367 | storing at `last % 128` and advancing appends to the pending messages and overwrites none |
| MailboxRing.WindowPop | src/sys.c:439-447 | reading `first % 128` and advancing removes exactly the oldest pending message |
| MailboxRing.RingArithmeticFits | src/sys.c:309-322 | no int expression over the counters overflows exactly while at most 2^31-1-128 messages were removed; both indices are in bounds |
| MailboxProtocol.StepKeepsInv | src/sys.c:296-456 | every statement of the four operations, by any thread, keeps mutual exclusion, the ring, the wait_send count and the wake-up promises |
| MailboxProtocol.ReachableInv | src/sys.c:258-456 | so they hold after every schedule from sys_mbox_new |
| MailboxProtocol.RingKept | src/sys.c:314-322 | every statement keeps the ring window equal to what was posted and not yet removed |
| MailboxProtocol.WaitSendKept | src/sys.c:351-357 | every statement keeps wait_send equal to the number of threads between its increment and decrement |
| MailboxProtocol.PosterKept | src/sys.c:351-357 | every statement keeps a sleeping poster backed by a message, a token, a returning poster or a fetcher that owes the signal |
| MailboxProtocol.FetcherKept | src/sys.c:421-437 | with one blocking fetcher, every statement keeps its sleep on a non-empty ring backed by a token or a poster that owes the signal |
| MailboxProtocol.PosterWakeKept | src/sys.c:400-402 | with one blocking poster, every statement keeps its sleep beside a free slot backed by a token or a fetcher that owes the signal |
| MailboxProperties.MutexIsConserved | src/sys.c:296-456 | the mutex counter plus the threads inside the critical sections is always 1, so the clamp never drops the mutex token |
| MailboxProperties.WaitSendIsExact | src/sys.c:351-357 | wait_send is the number of posters between increment and decrement |
| MailboxProperties.SignalsAreSparse | src/sys.c:316-326 | a post signals not_empty exactly if its message is the only one pending, a fetch signals not_full exactly if some poster is between increment and decrement, and nothing else raises either |
| MailboxProperties.RingIsFifo | src/sys.c:309-447 | messages posted, in order, are the messages fetched followed by the slots first..last-1; at most 127 are pending |
| MailboxProperties.TryPostFailsAt127 | src/sys.c:309-312 | trypost is refused exactly when 127 messages are pending |
| MailboxProperties.CountersFitInt | src/sys.c:309-322 | the counters stay exact ints exactly while at most 2^31-1-128 messages were removed |
| MailboxProperties.NoStrandedPoster | src/sys.c:351-357 | a poster asleep always has a message left, a token, a poster on its way or a fetcher that owes the signal, for any number of posters |
| MailboxProperties.TwoFetchersLoseAWakeUp | src/sys.c:316-326 | a run in which one of two fetchers sleeps on although a message is pending and nothing else is in progress |
| MailboxProperties.FetchersWakeIffOne | src/sys.c:316-326 | no wake-up of a fetcher is lost in any run if and only if at most one thread uses the blocking fetch |
| MailboxProperties.TwoPostersMergeSignals | src/sys.c:593-595 | a run in which one of two posters sleeps on although there is room and nothing else is in progress |
| MailboxProperties.PostersWakeIffOne | src/sys.c:593-595 | no poster is left asleep beside a free slot in any run if and only if at most one thread uses the blocking post |
| MailboxProperties.BlockedForAReason | src/sys.c:339-456 | when nothing can move, the mutex is free and either all sleep in fetch on an empty ring or all sleep in post beside messages |
| MailboxProperties.NoDeadlock | src/sys.c:339-456 | with one blocking fetcher, a call of fetch and a call of post are never both stuck while everything is blocked |
| MailboxProperties.TwoFetchersDeadlock | src/sys.c:316-456 | a run in which a fetch and a post sleep for good, with two blocking fetchers and one poster |
| MailboxProperties.NoDeadlockIff | src/sys.c:339-456 | fetch and post never wait for each other in any run if and only if at most one thread uses the blocking fetch, or none the blocking post |
| MailboxProperties.StepUsesFuel | src/sys.c:296-456 | every statement shortens what the calls in progress can still do, wake-ups being paid for by tokens |
| MailboxProperties.CallsFinish | src/sys.c:296-456 | so without new calls every schedule is finite, with a bound known beforehand |
| MailboxProperties.ComesToRest | src/sys.c:296-456 | from every reachable state the calls in progress can run to a point where all are done or asleep |
| MailboxRuns.PostAlone | src/sys.c:296-331 | a post or trypost that meets room and nobody else stores one message and signals not_empty if the ring was empty |
| MailboxRuns.FetchAlone | src/sys.c:376-407 | a fetch or tryfetch that meets a message and nobody else takes the oldest and signals not_full if somebody is counted |
| MailboxRuns.SleepAlone | src/sys.c:421-434 | a fetch that meets an empty ring and nobody else ends up asleep outside the mutex with nothing else changed |
| MailboxRuns.WakeAlone | src/sys.c:436-455 | a woken fetcher that meets a message takes it and its token |
| MailboxRuns.PostSleepAlone | src/sys.c:351-354 | a post that meets a full ring and nobody else ends up counted and asleep |
| MailboxOps.Mailbox.constructor | src/sys.c:258-277 | a new mailbox is empty, with one mutex token and no others, and its run is the empty one |
| MailboxOps.Mailbox.ValidIsReachable | src/sys.c:258-456 | between any two statements of its operations the object is in a reachable state, so all the above holds of it |
| MailboxOps.Mailbox.TryPost | src/sys.c:296-331 | one call, the others moving between any two statements: refused exactly if the ring is full where it tests; otherwise its message is added, once, as the newest; nothing else under the mutex differs, and the mutex is free; it waits only for a mutex that is taken when the others have come to rest |
| MailboxOps.Mailbox.TryFetch | src/sys.c:376-407 | one call: the empty answer exactly if the ring is empty where it tests; otherwise the oldest message there is removed, once, and handed out if a place was given; nothing else under the mutex differs; it waits only for a mutex that is taken when the others have come to rest |
| MailboxOps.Mailbox.Post | src/sys.c:339-374 | one call: it returns only after a test that finds room, with its message added there, once, as the newest of the pending ones; else, when the others have come to rest, it is blocked on a semaphore without a token |
| MailboxOps.Mailbox.Fetch | src/sys.c:409-456 | one call: what it hands out is the oldest message where it made its last test, removed once; it times out only if asked to and its time has run out, possibly beside a token; else, when the others have come to rest, it is blocked on a semaphore without a token |
| MailboxOps.Mailbox.Store | src/sys.c:359-373 | the slot, the emptiness test, the counter, the signal and the release, with the others moving in between, add one message to what the mutex guards |
| MailboxOps.Mailbox.Take | src/sys.c:439-453 | the read, the counter, the signal and the release, with the others moving in between, take one message from what the mutex guards |
| MailboxOps.Mailbox.TakeOldest | src/sys.c:439-455 | what a fetch hands out is the content of slot `first % 128` at its test, and it is gone when the fetch returns |
| Semaphore.RefinesAtomicSemaphore | src/sys.c:548-599 | the effects of the calls replayed on an atomic clamped counter give the counter that is there; a thread outside its calls has had exactly the effects of the calls that returned to it, whoever else is inside |
| Semaphore.TokensAreNotInvented | src/sys.c:578-595 | waits that succeeded plus the counter never exceed the initial count plus the signals |
| Semaphore.NobodyParkedBesideAToken | src/sys.c:557-597 | while the inner mutex is free a parked waiter implies a zero counter; the counter is positive whenever it is decremented |
| Semaphore.StandstillMeansEmpty | src/sys.c:548-599 | if no call can move, the inner mutex is free, the counter is zero and every call is parked in a wait |
| Semaphore.ExpiredTakesNothing | src/sys.c:557-576 | a wait whose time has run out takes no token in any continuation before its next call, even if one comes before it has the inner mutex back |
| Semaphore.StepKeepsInv | src/sys.c:548-599 | every statement, spurious wake-up and timeout keeps the owner, the counter, the parked waiters and the log consistent |
| Semaphore.SysSem.Signal | src/sys.c:583-599 | one call, the others moving between its statements: from where it enters, the counter becomes one, one signal takes effect, nobody is left parked, nothing else changes; it can only be stuck at the inner mutex, taken when the others have come to rest |
| Semaphore.SysSem.Wait | src/sys.c:548-581 | one call, with broadcasts, spurious wake-ups and timeouts at any point: it takes exactly one token, one being there at its last test; it times out only if timed and then takes none; otherwise, when the others have come to rest, it is blocked, and if the inner mutex is free it is parked and the counter zero |
| LightweightLock.OwnerHoldsMutex | src/sys.c:717-757 | a thread that reads itself in the owner word, unlocked, holds the mutex |
| LightweightLock.CountIsNestingDepth | src/sys.c:717-757 | outside its calls a thread owns the lock exactly if its nesting depth is positive, and the count is that depth |
| LightweightLock.SectionsExclude | src/sys.c:717-757 | two threads are never both inside |
| LightweightLock.ReleasedAtOutermost | src/sys.c:745-757 | the mutex is released exactly by the return of the outermost unprotect |
| LightweightLock.StrayUnprotectDoesNothing | src/sys.c:748-756 | an unprotect by a thread that does not hold the lock changes nothing |
| LightweightLock.RefinesReentrantLock | src/sys.c:717-757 | every step shows nothing to the callers or is one atomic operation of a re-entrant lock by its thread |
| LightweightLock.Prot.Protect | src/sys.c:717-735 | one call, the others moving between its statements: when it returns the caller is one level deeper, holds the mutex, is the owner, and the count is its depth; otherwise it waits for a mutex that another thread holds when the others have come to rest |
| LightweightLock.Prot.Unprotect | src/sys.c:744-757 | one call that always returns: one level less deep, the mutex released exactly at the outermost; a stranger gets nothing and changes nothing |
| SysTime.Deadline | src/sys.c:511-523 | the deadline of a timed wait is normalised and exactly timeout milliseconds after now, and is the only such reading |
| SysTime.Elapsed | src/sys.c:537-545 | a timed wait reports the whole milliseconds between two clock readings, modulo 2^32 |
| SysTime.ElapsedAgainstSysNow | src/sys.c:669-681 | that is the difference of sys_now modulo 2^32, or one less, and one less exactly when the wait began later within its millisecond |
| MailboxStack.StepSimulates | src/sys.c:296-456 | with each wait and signal a whole call of the condition-variable semaphore, spurious wake-ups and timeouts included, every step is one statement of the mailbox over atomic semaphores or invisible |
| MailboxStack.RunSimulates | src/sys.c:548-599 | so every schedule of the stack is, to its callers, a schedule of the mailbox over atomic semaphores |
| StackProperties.StepRealizes | src/sys.c:296-456 | conversely, a step of the mailbox other than a timeout is a run of the stack during which nobody else moves |
| StackProperties.RunRealizes | src/sys.c:296-456 | so every run of the mailbox without a timeout is, to its callers, one of the stack |
| StackProperties.StackIsFifo | src/sys.c:309-447 | down to the condition variables: messages leave in the order in which they were posted, at most 127 are pending |
| StackProperties.StatementsExclude | src/sys.c:296-456 | two threads are never both at a statement that reads or writes the mailbox's fields, the test of wait_send included |
| StackProperties.ParkedFetcherIsOwed | src/sys.c:562-595 | with one blocking fetcher, while it is parked beside a message a poster is signalling |
| StackProperties.ParkedPosterIsOwed | src/sys.c:562-595 | with one blocking poster, while it is parked beside a free slot a fetcher is about to signal |
| StackProperties.ParkedPosterIsBacked | src/sys.c:351-357 | with any number of posters, while one is parked there is a message, a fetcher about to signal, or a poster on its way |
| StackProperties.FetchersAreOwedIffOne | src/sys.c:316-326 | no fetcher is left parked beside a message unsignalled, in any run, if and only if at most one thread uses the blocking fetch |
| StackProperties.PostersAreOwedIffOne | src/sys.c:593-595 | no poster is left parked beside a free slot unsignalled, in any run, if and only if at most one thread uses the blocking post |
| StackProperties.ParkedForAReason | src/sys.c:339-456 | with one blocking fetcher, when nobody can go on every call is parked: in fetch on the condition variable of not_empty if the ring is empty, in post on that of not_full if it is not |
| StackProperties.StackNeverDeadlocks | src/sys.c:339-456 | so a blocking fetch and a blocking post are never both stuck |
| StackProperties.StackNeverDeadlocksIff | src/sys.c:339-456 | they never are, in any run, if and only if at most one thread uses the blocking fetch, or none the blocking post |
| TcpModel.ChunksAreTheBuffer | src/tcp.c:339-344 | the pool pbufs of a buffer hold exactly its bytes, none more than 256, in the least number (one for an empty buffer) |
| TcpModel.TakenWholeIff | src/tcp.c:339-344 | the 16-bit length keeps a buffer whole exactly if it is shorter than 65536 bytes; the runs are in WriteRuns |
| TcpModel.DrainHandsOver | src/tcp.c:80-122 | the send loop hands over the first pbufs of the chain, whole and in order, within the room, and does nothing else |
| TcpModel.HandedIsMaximal | src/tcp.c:85-92 | it stops only at a pbuf that does not fit what is left of the room or that tcp_write refuses |
| TcpModel.DrainStops | src/tcp.c:80-122 | when the loop stops the chain is empty, its head exceeds the room left, or the last answer was a refusal; tcp_write was called once for each pbuf handed over and at most once more |
| TcpModel.CallbackExhausts | src/tcp.c:147-185 | after a sent or poll callback with a pending chain, or an admitted send, the chain is empty, its head exceeds the room left, or the last answer was a refusal |
| TcpModel.BytesAreConserved | src/tcp.c:80-199 | whatever the callbacks and answers: bytes written, then pending, then dropped at the close, are the bytes accepted, in order; nothing is dropped while open |
| TcpModel.LifecycleHolds | src/tcp.c:67-309 | one accept upcall first, at most one close upcall, last and exactly when the state is freed; between callbacks a live state is accepted or received |
| TcpModel.EventsAreAnswered | src/tcp.c:171-271 | over any callbacks and answers: the receive upcalls are as many as the deliveries before the end, the acknowledgement upcalls as the sent callbacks that found a connection with nothing pending, one close upcall exactly if it has ended; the bytes accepted are those of the sends admitted, in order |
| TcpModel.OnlyEndOrErrorCloses | src/tcp.c:138-222 | the poll and sent callbacks never close a connection: only the peer's end and an error do |
| TcpModel.ChainIsHandedOver | src/tcp.c:147-185 | a chain of n pbufs is gone after n sent or poll callbacks that find room for its head and a willing tcp_write |
| TcpModel.HeadFitsEmptyBuffer | src/lwipopts.h:164 | the head of a pending chain, at most 256 bytes, always fits an empty send buffer of 2048 |
| TcpRaw.PbufFree | src/tcp.c:106 | lwIP's contract for pbuf_free: counts go down along the chain and pbufs are freed while they reach zero |
| TcpRaw.PbufAlloc | src/tcp.c:339-344 | a fresh chain with one reference each that holds the buffer |
| TcpRaw.TcpPcb.Write | src/tcp.c:92 | tcp_write takes all of the data, which uses up room, or none |
| TcpRaw.RawState.constructor | src/tcp.c:287-301 | a new connection state has no chain and has made its accept upcall |
| TcpRaw.RawAccept | src/tcp.c:273-309 | the three outcomes of an accept, and that a state exists exactly in the good one |
| TcpRaw.RawState.Chop | src/tcp.c:97-106 | taking a reference on the second pbuf and freeing the first frees exactly the first and leaves all counts 1 |
| TcpRaw.RawState.Send | src/tcp.c:80-122 | the loop over the heap does what the model's send loop does and keeps account of every pbuf |
| TcpRaw.RawState.CharSend | src/tcp.c:333-357 | busy with a pending chain, an error without memory, otherwise the buffer is taken and sent as far as possible |
| TcpRaw.RawState.Close | src/tcp.c:53-78 | the user is told, every pbuf of the chain is freed once, the state is gone |
| TcpRaw.RawState.Poll | src/tcp.c:138-169 | the poll callback is the model's |
| TcpRaw.RawState.Sent | src/tcp.c:171-199 | the sent callback is the model's |
| TcpRaw.RawState.Recv | src/tcp.c:201-271 | the receive callback is the model's: data, trash, or the peer's end |
| TcpRaw.RawState.Deliver | src/tcp.c:138-357 | whatever reaches a connection, heap and model agree, and nothing reaches a closed one |
| TcpRaw.Serve | src/tcp.c:53-357 | over any callback sequence each pbuf is freed at most once, the unfreed ones are the pending chain with count 1, a closed connection leaves none |
| WriteProtocol.StepKeepsInv | lwipcs.go:137-436 | every statement of writers, closers, loop and callbacks keeps the lock, token, stream, order and close facts |
| WriteProtocol.ReachableInv | lwipcs.go:137-436 | so they hold after every schedule |
| WriteProperties.TokensAreConserved | lwipcs.go:137-155 | while open, the writers waiting under the lock are as many as queue entries, entry in hand, unacknowledged sends and tokens together, and at most one |
| WriteProperties.TokenAlwaysFits | lwipcs.go:255-265 | the loop never blocks at the token channel, never sends on it when closed, and no channel is closed twice |
| WriteProperties.TokensArePaid | lwipcs.go:247-270 | the tokens received and waiting are no more than the sent callbacks, and these no more than the bytes sent |
| WriteProperties.AckGoesUp | src/tcp.c:186-191 | the loop begins to handle an acknowledgement exactly at the steps at which the C side makes that upcall, and the C side reports the end exactly when the loop frees the state |
| WriteProperties.BusyIsUnreachable | src/tcp.c:335-338 | a pending chain implies one unacknowledged send; a send finds the connection there and nothing pending, so 100 is never returned |
| WriteProperties.StreamIsWritesInLockOrder | lwipcs.go:137-155 | given memory, the bytes given to tcp_write are the Writes that received a token, in lock order, then a prefix of the one waiting |
| WriteProperties.NilMeansSent | lwipcs.go:148-154 | a Write that returned nil received its token, so that what the C side took of it is in the stream; no Write fails while the PCB is open |
| WriteProperties.NothingAfterClose | lwipcs.go:179-193 | after the close nothing more is written and nothing taken is lost |
| WriteProperties.LateWritesAreRefused | lwipcs.go:137-154 | a Write that begins when the PCB is closed takes no lock, queues nothing and never returns nil, in any continuation |
| WriteProperties.BodiesArePlainIff | src/tcp.c:339-344 | what the C side takes of a list of Writes is their buffers exactly if each is shorter than 65536 bytes; the runs are in WriteRuns |
| WriteProperties.OneWriterSees | lwipcs.go:137-155 | with one writing goroutine the stream is the Writes that returned nil and a prefix of at most one other |
| WriteRuns.LoneWrite | src/tcp.c:339-344 | for every length that is not a multiple of 65536, a run within a send buffer of 2048 bytes in which one Write returns nil and lwIP was given the first length modulo 65536 bytes |
| WriteRuns.LoneWriteReturnsIff | src/tcp.c:339-344 | a Write alone on its PCB returns nil in some run if and only if its length is not a multiple of 65536 |
| WriteRuns.EmptyWriteReturns | src/tcp.c:171-199 | a run in which a Write of which nothing is sent returns nil, on the second acknowledgement of the bytes of the one before |
| WriteRuns.WholeIffShort | src/tcp.c:339-344 | in every run without memory shortage the stream is whole buffers in lock order and a prefix of the one in hand, if and only if the buffers stay below 65536 bytes or nobody writes |
| WriteRuns.TwoWritersConfuse | lwipcs.go:148-154 | a run with two writers in which a Write in the stream returns an error before one that returned nil |
| WriteRuns.ErrorsTellTheStreamIffOneWriter | lwipcs.go:137-155 | the errors tell the stream in every run without memory shortage if and only if at most one goroutine writes |
| WriteRuns.DoomedForGood | lwipcs.go:273-291 | once the loop waits in close for a lock whose holder waits for the loop, every continuation leaves loop, lock, connection and stream as they are |
| WriteRuns.WaitsForGoodIff | lwipcs.go:179-193 | a loop that waits for the lock of close waits in every continuation if and only if the holder waits for a token, or for room in the queue |
| WriteRuns.PeerCloses | lwipcs.go:273-291 | a run that leads there: the peer closes, or the connection fails, while the byte of a Write is unacknowledged |
| GoLoop.Server.constructor | lwipcs.go:203-225 | an accepted PCB starts in the initial state |
| GoLoop.Server.Write | lwipcs.go:137-155 | one call, everybody else moving between its statements: if the PCB is closed where it tests, an error; nil puts the Write among those that received a token; it fails exactly if the PCB is closed when it returns; either way the lock is given back; when the others have come to rest it can be stuck at the lock, at the full queue, or under the lock waiting for its token |
| GoLoop.Server.Close | lwipcs.go:158-193 | one call: an error exactly if the PCB was closed where it tests; afterwards error and channel are closed and the lock is free; it can be stuck only at a lock that is held when the others have come to rest |
| GoLoop.Server.Send | lwipcs.go:352-362 | an entry is dropped on a closed PCB, otherwise counted and sent; the call fails only for want of memory |
| GoLoop.Server.TcpSend | lwipcs.go:320-327 | cs_tcp_char_send on the heap, reached only with nothing pending |
| GoLoop.Server.SentBack | src/tcp.c:171-199 | the sent callback on the heap, which goes up into Go exactly when nothing is pending |
| GoLoop.Server.SendDone | lwipcs.go:247-270 | the acknowledgement handler runs to its end without blocking |
| GoLoop.Server.PutToken | lwipcs.go:264 | the channel is open and empty when the token is put |
| GoLoop.Server.End | lwipcs.go:273-291 | the end of a connection: unregistered, closed, freed; or the loop is stuck at the lock, which a Write holds when the others have come to rest |
| GoLoop.Server.NetifProc | lwipcs.go:403-436 | the loop serves its inputs in turn; the run is legal, the stream is as stated, it stops only for lack of input or, the others at rest, at that lock |
| ReadCredit.ReachableInv | lwipcs.go:101-122 | every schedule of reader, loop and closers keeps delivery, credit, sizes and close facts |
| ReadCredit.ReadIsPrefixOfDelivered | lwipcs.go:109-117 | bytes read, in hand and queued are the bytes delivered, in order |
| ReadCredit.CreditIsConserved | lwipcs.go:408-411 | credit given plus credit on its way equals bytes read while open and never exceeds it; the 16-bit cast is lossless; the connection is still there |
| ReadCredit.BytesOrError | lwipcs.go:101-122 | every Read returned bytes and nil, or no bytes and an error |
| ReadCredit.DeliveryBlocksOnlyBehind | lwipcs.go:242 | the loop blocks at a delivery only with at least 1024 bytes delivered and not credited |
| ReadCredit.NothingIsDeliveredAfterClose | lwipcs.go:228-244 | from a closed PCB, unless a delivery is already past its test, no continuation delivers anything, and none panics unless a buffer is too short |
| ReadCredit.NothingIsReadAfterClose | lwipcs.go:101-108 | once the PCB is closed every Read that begins returns no bytes and the error, in any continuation |
| ReadCredit.NeverCrashesIff | lwipcs.go:114-116 | no run panics if and only if only the loop closes and every buffer holds the longest delivery |
| ReadLoop.Receiver.constructor | lwipcs.go:54-71 | a new PCB has empty channels |
| ReadLoop.Receiver.Read | lwipcs.go:101-122 | one call: an error if the PCB is closed where it tests, whatever is queued; else the buffer begins with the next bytes delivered and is otherwise untouched; no bytes exactly with an error; it blocks only at an empty open channel or a full queue of reports, when the others have come to rest |
| ReadLoop.Receiver.Recv | lwipcs.go:228-244 | 1 exactly if the PCB is closed where it tests, and nothing is queued; 0 exactly if it is open there, and the data is queued; it panics at the put only if the PCB was open at the test, and blocks only at a full channel when the others have come to rest |
| ReadLoop.Receiver.CreditBack | lwipcs.go:408-411 | the oldest report's credit goes back whole, or nothing, exactly if the PCB is closed where the loop tests |
| ReadLoop.Receiver.End | lwipcs.go:273-291 | afterwards the error is set, the channel closed and the state freed, or the loop waits at the lock, which another closer or a waiting Write holds |

## Left out

- GoLoop.Server.TcpSend: a failed `pbuf_alloc` is only flagged; `Send` ignores the answer, the waiting Write gets its token at a later acknowledgement, and the stream claims assume that this did not happen.
- GoLoop.Server.End: when the loop is stuck at the lock the method ends there; that it is stuck for good, and exactly when, is `WriteRuns.WaitsForGoodIff`.
- ReadLoop.Receiver.Recv: what lwIP does with data refused after a `Close` by the user is not modelled.
- ReadLoop.Receiver.Read: one reading goroutine; `Intercept` is not modelled.
- TcpRaw.PbufFree: lwIP's function is not part of this model; this is the contract the sender relies on.
- GoLoop.Server.NetifProc: the queue of reports is served in `ReadLoop.Receiver.CreditBack`; the queue of closed PCBs is not served here.
- GoLoop.Server.Close: the put into the queue of closed PCBs after `close`, and what lwIP does with the connection then.
- TcpRaw.RawState.Recv: an incoming pbuf belongs to lwIP and then to `lwipcs.c`, so that its freeing and `tcp_recved` in the branch that trashes data are not represented; `LifecycleHolds` shows that no live connection takes that branch.
- StackProperties.RunRealizes: runs with a timeout are not covered, because a thread that a broadcast has told of a token takes it, where the atomic semaphore lets it time out beside the token.
- MailboxOps.Mailbox.Fetch: the waiting time it returns is not in the contract; the clock is not part of the interleavings, and its arithmetic is `SysTime.Elapsed`.
- Semaphore.SysSem.Wait: the same for the waiting time.
- The lifetime of lwIP's `tcp_pcb` after an error callback (`cs_tcp_raw_error` passes a pcb that lwIP has freed).
- A receive callback with data and an error at once, which the source asserts away (`src/tcp.c:224-229`).
- `sys_mbox_free` with users inside, thread creation, core-lock assertions, `sys_jiffies`.
- The HURD, MACH and fuzzing branches of `src/sys.c`.
- Several blocking fetchers or posters beyond the exact conditions above.
- UDP (`src/udp.c` and its half of `lwipcs.go`), packet input and output, netif setup: plain forwarding.
- `csocks`: dispatch tables and pattern matching, with easy claims only.
- lwIP itself, including the TCP window and retransmission, and the patch to it.
- Logging, timing prints, deadlines, addresses.
