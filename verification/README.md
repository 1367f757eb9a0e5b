# Prefetching streams: a Dafny model

The library wraps a slow inner stream in a *buffered stream*: a filler thread reads ahead into a ring buffer while the
client reads from the other end, seeks, asks for the position and for end of file, and finally destroys the stream. The
model has three layers.

**The ring buffer** (`src/streamlike/util/circbuf.c`). `ring_geometry.dfy` is the offset arithmetic with the branches of
the three region-copy routines, `ring_contents.dfy` says what the array holds as a sequence, `ring_schedule.dfy` says what a
bounded queue and the users' schedules and passes come to without array and loops, and `circbuf.dfy` is the object: an array, two offsets and two flags, with partial and blocking reads and writes, writing from a callback,
input and disposal. The offset invariant is `woff < size` and `roff <= size`: a read may leave `roff == size`.

**The two threads** (`src/streamlike/buffer.c`). `prefetch_model.dfy` gives each thread a program counter over the
statements of `fill_buffer`, `sl_buffer_read_cb`, `sl_buffer_seek_cb` and `sl_buffer_destroy`, with the ring's functions
inlined. A step makes at most one access to memory the other thread may be writing; bytes are copied one a step, from a
snapshot of the other side's offset, and the new offset is published later, in a step of its own; `circbuf_reset` is
four stores. The three mutexes and the three condition variables are explicit. `prefetch_invariant.dfy` states what holds in every
reachable state, `prefetch_filler.dfy` and `prefetch_consumer.dfy` prove that every step keeps it, and
`prefetch_ends.dfy` does the same for what the end of the content and a failed seek leave behind. The remaining files
draw the conclusions: refinement (`prefetch_runs.dfy`), safety, progress, which calls can block and that all others
return (`prefetch_calls.dfy`, `prefetch_returns.dfy`), that seeks and reads can succeed (`prefetch_success.dfy`), and, with runs built step by step, exactly where stronger
promises fail (`prefetch_calls.dfy`, `prefetch_drained.dfy`, `prefetch_marks.dfy`, `prefetch_write.dfy`).

**The HTTP copier** (`src/streamlike/http.c`). `http.dfy` has the write callback and the read loop as methods of an
object, over a model of libcurl's side of one response body.

## Assumptions

- Memory is sequentially consistent. `pthread_cond_wait` may return spuriously, and `pthread_cond_signal` wakes at least
  one of the threads waiting at that moment (POSIX.1-2017).
- The inner stream has fixed content and starts at offset 0; `read(n)` returns as many bytes as remain, up to `n`; a
  successful seek sets its cursor, whatever the offset, and never succeeds for a negative one; a failed seek leaves it.
- A writer callback of the ring supplies no more than asked and stores nothing beyond what it reports.
- Sizes are natural numbers. The ring is allocated for at least one byte and the step size is at least 1; the step size
  may exceed the capacity.
- One client thread, one call at a time, and the filler is created once.
- libcurl presents a refused chunk again from its first byte and no shorter than before, presents nothing while paused,
  and does not report a paused transfer complete. Everything else about it is free: chunk sizes, how many chunks one
  call presents, whether a resume presents some at once, and failures at any point. A read that has used up the
  turns it was given ends as `Waiting`.
- In `circbuf.dfy` the other side runs between the statements, in the places and as far as a schedule says: also
  between the look at an offset and the copy, and between the copy and the publication. A call left asleep when the
  schedule ends reports `done == false`. A turn of the other side is a publication it makes, and a writer that has closed makes none.

## Where the code and its documentation differ

- `src/streamlike/util/circbuf.h:115-117` (and the same words for disposing and writing) says a partial copy stops at the
  right boundary of the array. The code goes round. When it nevertheless stops there is
  `RingGeometry.ReadStopsAtBoundaryIff` and its two siblings, and `CircularBuffer.PassBoundary` passes the boundary from
  every other pair of offsets.
- `src/streamlike/util/circbuf.h:241-242` promises a result below `len` if and only if the writer came up short or reading
  was closed. While reading is open that holds (`PrefetchSafety.WriteTwoAccounts`); a reader that closes after the last
  byte breaks it, on every stream with content for a whole write and on no other (`PrefetchWrite.DocumentedIff`), and
  in exactly the writes of `PrefetchWrite.UndocumentedIff`.
- A short read does not imply a drained ring, because the loop test loads `woff` before `wdone`
  (`src/streamlike/util/circbuf.c:176`). `PrefetchDrained.LeftoverIff` says exactly how much it can leave.
- A failed inner seek leaves reading closed, so the filler may exit, and the next seek then waits for ever
  (`src/streamlike/buffer.c:64`, `79-84`). `PrefetchCalls.CallBlocksIff` says before each call whether it can: a seek over a
  filler exactly if reading has been left closed, a read exactly if no filler was created. Every other call returns.
- With reading left closed, a read can also put the end-of-file mark with content that was never fetched
  (`src/streamlike/buffer.c:107-114`, `429-432`): exactly the reads of `PrefetchMarks.FalseMarkIff`.

## Model

| member | source | states |
|---|---|---|
| PrefetchRuns.TransparentPrefetch | src/streamlike/buffer.c:50-132 | In every interleaving of the filler with any calls of the client, failed seeks included, the answers, each to the call made and with that call's own length or offset, are those of a plain cursor over the content from 0: a read returns the content at the position; under the end-of-file mark exactly all that was asked for or remains; else short only if no more remains than the ring holds less one; after a failed seek that shut reading, exactly all that was asked for or is left of what the ring then held. A seek makes exactly one inner seek and succeeds if and only if that does. Position and mark are the cursor's; the client is at rest exactly if every call has been answered; then reading is closed exactly if a seek shut it and none succeeded since, and the cursor knows how many bytes are left |
| PrefetchRuns.StepRefines | src/streamlike/buffer.c:424-435 | Each step of either thread leaves the client's view alone or is exactly one operation of that cursor |
| PrefetchRuns.ReadIsPlain | src/streamlike/buffer.c:424-435 | A returning read of the length called for delivers the content at the position, as completely as the cursor promises, advances it by the result, and marks end of file if short |
| PrefetchRuns.SeekIsPlain | src/streamlike/buffer.c:484-496 | A returning seek sets the position called for and clears the mark if its one inner seek succeeded, leaving reading open, and changes neither if that failed |
| PrefetchRuns.StepWatched | src/streamlike/buffer.c:445-482 | Every step keeps the call under way, its arguments and the inner seeks made for it as the run alone gives them |
| PrefetchRuns.ReachableInv | src/streamlike/buffer.c:50-132 | The invariant over locks, handshake, end of file, accounting, sleeping, regions and bytes holds in every state of every run |
| PrefetchFiller.FillerKeeps | src/streamlike/buffer.c:50-132 | Each of the filler's statements, in any state of the consumer, keeps the invariant |
| PrefetchConsumer.ConsumerKeeps | src/streamlike/buffer.c:424-497 | Each of the consumer's statements, in any state of the filler, keeps the invariant |
| PrefetchRuns.ReachableEnds | src/streamlike/buffer.c:64-128 | In every state of every run: the inner stream came up short only with a cell of the ring to spare; a read begun under the mark was begun with writing closed; reading is closed only for the destruction, a standing request or a failed seek, the filler then fetches nothing and exits for no other reason, and a read that gives up has emptied the ring |
| PrefetchSafety.CursorConservation | src/streamlike/buffer.c:101-103 | In every state of every run: between a successful inner seek and the reset the inner cursor is at the offset sought; else it is the position (the offset sought, until the client is told) plus the bytes copied out by the running read, the unread bytes of the ring and those fetched but not published, and the unread cells hold the content in order |
| PrefetchSafety.OutsideSeek | src/streamlike/buffer.c:456-489 | Only a seek that has stored its request, or done the inner seek itself, can be in the first two cases |
| PrefetchSafety.ReadDelivers | src/streamlike/buffer.c:429-433 | At every moment of a read the bytes already delivered are the content at the reported position |
| PrefetchSafety.DisjointRegions | src/streamlike/util/circbuf.c:152-170 | The cells a partial write has chosen are inside the array and none is unread, those a partial read has chosen are all unread: the two copies never touch one cell, though both work from stale snapshots |
| PrefetchSafety.InnerStreamExclusive | src/streamlike/buffer.c:58-73 | The two threads are never both in the inner stream: the filler only once started, the consumer only before, holding the lock |
| PrefetchSafety.ExclusiveReset | src/streamlike/buffer.c:68-94 | While the ring is reset a request is pending, the filler holds the seek lock, the consumer is in the seek wait and so neither reads nor sleeps on a ring condition, and both ring mutexes are free (the condition of `src/streamlike/util/circbuf.h:60-62`) |
| PrefetchSafety.NoLostWakeUp | src/streamlike/util/circbuf.c:176-183 | With a mutex free, a thread asleep unsignalled on its condition still has a true wait predicate: the reader's wait, the wait of `circbuf_write2` (lines 409-416) and both waits on the shared condition; the two threads are never both asleep unsignalled on the shared one |
| PrefetchSafety.EofIsSound | src/streamlike/buffer.c:429-432 | Under the mark every byte the inner stream gave is with the client or in the ring; with reading open the inner stream came up short since the last successful seek, its cursor is at or past the content's end and only the ring's bytes remain |
| PrefetchMarks.FalseMarkIff | src/streamlike/buffer.c:429-433 | For every read from every reachable state at rest, however it goes: it ends under a false mark, content remaining beyond the ring's bytes, if and only if reading was closed before it, the content goes on beyond the ring's bytes, and it asks for more than those or the mark was there already |
| PrefetchMarks.FalseMarkReachableIff | src/streamlike/buffer.c:79-128 | A false mark is reachable if and only if there is any content |
| PrefetchMarks.Completes | src/streamlike/buffer.c:424-497 | From anywhere in a run of a call not blocked from its beginning, some run completes it |
| PrefetchSafety.ReaderSeesRealEnd | src/streamlike/buffer.c:107-115 | With reading open, a closed writing side seen by a reading consumer is the real end of the content, never the closing forced by a closed reader |
| PrefetchSafety.ShortReadIsAccounted | src/streamlike/buffer.c:429-433 | With reading open, a read comes up short only when the inner stream has; its result plus what is in the ring is all that remains, and the ring has a cell to spare |
| PrefetchDrained.SealedCallIsExact | src/streamlike/util/circbuf.c:172-185 | With reading open, a read of `len` bytes begun after the closing of the writing side returns `len` bytes or all that remains |
| PrefetchSafety.EofSealsNextRead | src/streamlike/buffer.c:429-432 | Once end of file is marked, every later read is of that kind |
| PrefetchSafety.WriteTwoAccounts | src/streamlike/util/circbuf.c:400-423 | In every run, the result of the filler's write is the number of bytes the inner stream gave during it; a short writer makes it smaller than asked; smaller means short writer or closed reader; with reading open, smaller if and only if the writer came up short |
| PrefetchWrite.DocumentedIff | src/streamlike/util/circbuf.h:241-242 | The documented equivalence holds of every finished write of every run if and only if the content cannot fill one write |
| PrefetchWrite.UndocumentedIff | src/streamlike/util/circbuf.c:400-423 | From every reachable state with the client at rest and a write about to begin: this write can end with the equivalence broken if and only if reading is open and the content can fill it |
| PrefetchSafety.WritePassAsksAll | src/streamlike/util/circbuf.c:407-421 | In every run, a pass of the filler's write that gets past its test chooses regions for exactly all that is still wanted and fits, at least one byte |
| PrefetchSafety.ReadPassTakesAll | src/streamlike/util/circbuf.c:176-183 | In every run, a pass of the client's read chooses regions for exactly all that is still wanted and there: at least one byte, or it turns the offset `size` into 0, or found the writing side closed over an empty ring |
| PrefetchSafety.FillerOutlivesRequests | src/streamlike/buffer.c:64-65 | Unless the last seek failed, the filler exits only when the stream is being destroyed and no request is outstanding |
| PrefetchSafety.FreedAfterExit | src/streamlike/buffer.c:304-351 | Ring, lock and condition are destroyed only after the filler has exited |
| PrefetchReturns.DestroyFrees | src/streamlike/buffer.c:289-351 | Every destruction that is over has freed the ring once and the lock once, and with a filler has closed reading, signalled and joined it once each |
| PrefetchCalls.FillerExistsIff | src/streamlike/buffer.c:380-394 | There is a filler exactly if the client has created one |
| PrefetchProgress.StuckIffAbandoned | src/streamlike/buffer.c:101-128 | A call blocks for ever, spurious wake-ups aside, if and only if it sleeps on a seek after the filler exited, or reads on a stream whose filler was never created |
| PrefetchProgress.StuckOnlyAfterFailure | src/streamlike/buffer.c:79-128 | With a filler created, a call can be stuck only with the last seek failed and reading left closed |
| PrefetchCalls.CallBlocksIff | src/streamlike/buffer.c:64-65 | For every call from every reachable state at rest: some run of it alone ends with no thread able to run if and only if it is a seek over a filler and reading is closed, or a read of at least one byte and no filler was created |
| PrefetchCalls.DeadlockFree | src/streamlike/buffer.c:456-477 | In every run of any other call one of the threads can always go on |
| PrefetchCalls.FailedSeekBlocksNext | src/streamlike/buffer.c:79-128 | For every stream and offset there is a run to a state at rest after a failed seek in which a seek to any offset can block |
| PrefetchSuccess.SeekThenRead | src/streamlike/buffer.c:445-491 | From every reachable state at rest with a filler and reading open, for every offset and length, there is a run in which a seek makes one inner seek and succeeds, and a read after it returns all that was asked for or remains from there |
| PrefetchReturns.CallReturnsInTime | src/streamlike/buffer.c:445-497 | Every read, seek and destruction takes no more than an explicit number of steps of both threads together, and 61 more for each spurious wake-up, in any interleaving and whether inner seeks succeed or not |
| PrefetchReturns.CallCanProceed | src/streamlike/buffer.c:270-313 | And until it is over such a step exists, unless the call was blocked from its beginning |
| PrefetchReturns.StepLowersPotential | src/streamlike/buffer.c:456-484 | Each step of a call that is not a spurious wake-up lowers a potential over content, ring size, the standing request and the program counters |
| PrefetchReturns.SpuriousRaisesPotential | src/streamlike/buffer.c:473-476 | A spurious wake-up raises it by at most 60 |
| PrefetchProgress.FillerStoppedByLock | src/streamlike/util/circbuf.c:311-398 | Nothing but a held mutex stops the filler; in particular every cell it fills is inside the array |
| PrefetchProgress.ConsumerStoppedByLock | src/streamlike/util/circbuf.c:115-185 | Nothing but a held mutex or the join stops the consumer; in particular every cell it copies is inside the array |
| PrefetchProgress.FillerRankDrops | src/streamlike/buffer.c:64-97 | With reading closed, each of the filler's own steps lowers a rank until it resets the ring, clears the request or exits |
| PrefetchProgress.SeekServedInTime | src/streamlike/buffer.c:458-476 | Once a request is stored and reading closed, the filler takes at most `size + 26` steps, in any interleaving and whether the inner seek succeeds or not, before the request is cleared |
| PrefetchProgress.ShutdownInTime | src/streamlike/buffer.c:289-305 | Once destruction has closed reading, the filler takes at most `size + 21` more steps in any interleaving |
| PrefetchTermination.ReadReturnsInTime | src/streamlike/util/circbuf.c:172-185 | Every read finishes within an explicit number of steps of both threads together, and 61 more for each spurious wake-up, for any step size and ring size |
| PrefetchTermination.ReadCanProceed | src/streamlike/util/circbuf.c:176-183 | Until then one of the threads always has a step to take that is not a spurious wake-up |
| PrefetchTermination.StepLowersWork | src/streamlike/buffer.c:99-128 | Each such step lowers a potential over content left, bytes to deliver, offsets and program counters |
| PrefetchDrained.LeftoverIff | src/streamlike/util/circbuf.c:172-185 | With reading open, a short read can leave `k` bytes in the ring if and only if `k` is at most the capacity less one and the length of the content; both directions for every stream and every `k` |
| PrefetchDrained.ShortReadLeaves | src/streamlike/util/circbuf.c:176 | For each such `k` there is a run in which a read returns nothing, short, and the last `k` bytes of the content are in the ring |
| PrefetchDrained.ShortMeansDrainedIff | src/streamlike/util/circbuf.c:176 | So a short read always leaves an empty ring if and only if the ring is for one byte or the content is empty |
| PrefetchDrained.LeftoverOfCall | src/streamlike/util/circbuf.c:172-185 | Call by call, with reading open: a short read has delivered all the ring held when it began, so it leaves no more than remained beyond that, and nothing if writing was closed |
| RingGeometry.ReadRegionsExact | src/streamlike/util/circbuf.c:115-150 | For all offsets and lengths a partial read takes exactly the smaller of what is asked for and what is there, in consecutive cells, and leaves valid offsets; it moves nothing over a non-empty difference only to turn `size` into 0 |
| RingGeometry.WriteRegionsExact | src/streamlike/util/circbuf.c:215-265 | A partial write takes exactly the smaller of what is offered and what fits, in consecutive cells; the full test is exact |
| RingGeometry.ReadStopsAtBoundaryIff | src/streamlike/util/circbuf.h:115-117 | A partial read takes nothing beyond the right boundary, as documented, if and only if that much is not asked for, or nothing is there beyond it |
| RingGeometry.WriteStopsAtBoundaryIff | src/streamlike/util/circbuf.h:173-175 | A partial write places nothing beyond the right boundary if and only if that much is not offered, or nothing fits beyond it |
| RingGeometry.DisposeStopsAtBoundaryIff | src/streamlike/util/circbuf.h:156-158 | Disposing passes the right boundary exactly when reading does |
| RingContents.PlaceAppends | src/streamlike/util/circbuf.c:215-265 | Bytes placed in the two regions are appended to the contents and overwrite nothing unread |
| RingContents.DropOldest | src/streamlike/util/circbuf.c:152-170 | Publishing a read offset `n` places on drops the `n` oldest bytes |
| RingContents.DisposeIsRead | src/streamlike/util/circbuf.c:199-213 | Disposing of `n` bytes leaves the contents that reading `n` bytes leaves |
| RingContents.TwoRoundsDrain | src/streamlike/util/circbuf.c:187-213 | From any valid offsets, `roff == size` included, two rounds of unlimited input and disposal deliver all contents in order and leave none |
| CircularBuffer.CircBuf.Init | src/streamlike/util/circbuf.c:22-72 | Nothing for a size of zero, else an empty open ring with exactly the room asked for |
| CircularBuffer.CircBuf.Reset | src/streamlike/util/circbuf.c:84-90 | Leaves an empty ring open on both sides |
| CircularBuffer.CircBuf.GetLength | src/streamlike/util/circbuf.c:97-103 | The number of unread bytes, for every pair of valid offsets |
| CircularBuffer.CircBuf.CloseRead | src/streamlike/util/circbuf.c:425-438 | Closes reading, an error if closed before |
| CircularBuffer.CircBuf.CloseWrite | src/streamlike/util/circbuf.c:440-453 | Closes writing, an error if closed before |
| CircularBuffer.CircBuf.ReadSome | src/streamlike/util/circbuf.c:115-170 | Delivers the oldest bytes, as many as asked for and there when it looked, and touches no other byte of the caller's buffer; the ring afterwards is what the writer's turns of the schedule, between its look, its copy and its publication, made of it, less those bytes |
| CircularBuffer.CircBuf.WriteSome | src/streamlike/util/circbuf.c:215-286 | The ring afterwards is what the reader's turns of the schedule, between its look, its copy and its publication, made of it, with the first bytes offered at the end, exactly as many as fitted when it looked |
| CircularBuffer.CircBuf.WriteSome2 | src/streamlike/util/circbuf.c:311-398 | The writer is asked for all that is wanted and fitted at the look, first up to the array's end and, if it supplies that, for the rest; exactly what it supplies is appended, in order; no call follows a short one; the flag is set exactly if one was short, which is exactly if fewer bytes came than `WriteSome` would have taken; contents, count and offset are then those of `WriteSome` on the supplied bytes |
| CircularBuffer.CircBuf.InputSome | src/streamlike/util/circbuf.c:187-197 | The block exposed begins at the read offset and is the longest prefix of what was there when it looked, up to the length asked for, that does not go round; the ring changes only by the schedule, and the block stays as it is |
| CircularBuffer.CircBuf.DisposeSome | src/streamlike/util/circbuf.c:199-213 | Drops exactly as many of the oldest bytes as were asked for and there when it looked; else the ring changes only by the schedule |
| CircularBuffer.CircBuf.Write | src/streamlike/util/circbuf.c:288-309 | For every schedule of the reader between the statements the ring is what passes make of it, each putting in all that is still to be written and fitted at its look; what the reader took followed by what is left is what was there followed by the bytes written; reading is closed only by a turn that was run; a short result means it is; a call that has not returned has run the whole schedule and sleeps over a full open ring; it terminates |
| CircularBuffer.CircBuf.Write2 | src/streamlike/util/circbuf.c:400-423 | The same for bytes from a callback, with ring, writer and every one of its calls a function of the schedule, the writer's replies and what was there: each pass asks for all that is still wanted and fitted at its look; the result is the sum of the writer's returns; a short writer call is the last and makes the result short; a short result means a short call or a closed reader |
| CircularBuffer.CircBuf.Read | src/streamlike/util/circbuf.c:172-185 | For every schedule of the writer between the statements, the two loads of the outer test included, delivery and ring are what passes make of them, each taking all that is still wanted and was there at its look; what is delivered followed by what is left is what was there followed by what was put in; writing is closed only by a turn that was run; a short result means it is, and an empty ring if it was closed at the start or nobody ran; a call that has not returned has run the whole schedule and sleeps over an empty open ring; it terminates though a pass over `roff == size` moves nothing |
| CircularBuffer.CircBuf.AwaitRoom | src/streamlike/util/circbuf.c:296-300 | The wait of the writing calls: it runs on only through turns before each of which the ring was full and open, and ends when it is not |
| CircularBuffer.CircBuf.AwaitBytes | src/streamlike/util/circbuf.c:177-181 | The wait of the reading call: the same for an empty ring open for writing |
| RingSchedule.WritesFlow | src/streamlike/util/circbuf.c:288-309 | Whatever passes and turns: what is taken followed by what is left is what was there followed by what was put in, and reading is closed exactly if it was or a turn closed it |
| RingSchedule.FillsFlow | src/streamlike/util/circbuf.c:400-423 | The same for passes from a callback, and what was put in is what the calls report |
| RingSchedule.ReadsFlow | src/streamlike/util/circbuf.c:172-185 | The same for passes that take |
| RingSchedule.AskAllAccounts | src/streamlike/util/circbuf.c:311-376 | The calls of one pass supply no more than was planned, stop at a short one, and supply less exactly if they end with one |
| CircularBuffer.FillAlone | src/streamlike/util/circbuf.c:400-423 | A writer that fills each call, with room for all and nobody running: all is written in at most two calls |
| CircularBuffer.Arrange | src/streamlike/util/circbuf.c:115-286 | Every pair of offsets the invariant allows, `roff == size` included, is reached by partial writes and reads from an empty ring |
| CircularBuffer.PassBoundary | src/streamlike/util/circbuf.c:136-149 | For all offsets, and so in an actual ring, partial reads, disposals and writes outside those conditions do pass the right boundary |
| HttpCopier.Http.WriteCb | src/streamlike/http.c:85-122 | Copies the smaller of what is left of the chunk and of the buffer; accepts only a chunk that leaves room, else has filled the buffer and remembers where to go on; with an abort requested it copies nothing and changes nothing but the state |
| HttpCopier.Http.Present | src/streamlike/http.c:85-122 | Over any new or repeated chunk: exactly what is left of it and fits is moved; it is accepted if room remains, else refused and remembered; position = accepted bytes + part taken of the refused chunk, and the caller's buffer continues the body without gap or repetition |
| HttpCopier.Http.Read | src/streamlike/http.c:461-516 | Delivers the body from the position on and advances it by the count, which is exactly what all chunks presented during the read hold beyond the part taken before, and fits, however they are cut; it gives up only in a turn in which libcurl fails, or over a transfer that had failed; it completes only at the end of the body; it waits only with all turns used, none failed, and a transfer not left paused; and the state field follows |
| HttpCopier.Http.Session | src/streamlike/http.c:461-516 | Any number of reads, of any lengths, over any chunks, pauses and repetitions: the results concatenate to the body from the first position on and advance it by their length, as much as was asked for or to its end unless libcurl failed in a turn of one of them or before, or one still waits: the contract the buffered stream asks of an inner stream |

## Left out

- `sl_buffer_t` and the two threads' view of the ring are a state on values with a step relation, not a class: methods cannot be interleaved statement by statement. `circbuf.dfy` has the ring as a mutable object.
- Weak memory: the flags and offsets of the C code are not atomic, and the model says nothing about reorderings.
- PrefetchReturns.CallReturnsInTime: leaves the fairness that makes both threads run, and any bound on the number of spurious wake-ups, to the scheduler.
- PrefetchDrained.LeftoverOfCall: an upper bound for one call, not every number up to it: the filler publishes a partial write at once, so which numbers occur depends on the regions it has chosen.
- CircularBuffer.CircBuf.WriteSome: a copy is one statement; copies interleaved byte by byte with the other side are proved for the two threads, where the write is the one from a callback.
- HttpCopier.Http.WriteCb: of an abort only what the callback does to its own state; cancelling and seeking an HTTP stream depend on libcurl re-entrancy and are not modelled.
- Opening and closing HTTP streams, header parsing, length and range support, library initialisation and networking.
- The assertion after a failed inner seek in `sl_buffer_seek_cb`: the model takes the branch that returns the error.
- Whence values other than `SL_SEEK_SET` in the buffered stream, which the code does not implement.
- Failures of allocation and of the pthread calls, null-pointer checks, logging and assertions.
- `sl_buffer_blocking_fill_buffer`, `sl_buffer_close_buffer`, `sl_buffer_input_cb` and the length, seekable and checkpoint callbacks: stubs or a thin call.
- `src/streamlike/file.c`, the dispatch functions of `src/streamlike.h` and the C++ wrappers: they forward.
