# turbofile, verified

turbofile gives Python programs asynchronous files. A driver thread carries
their operations out with the kernel's asynchronous I/O, a doorbell wakes the
event loop when results are there, and the Python side puts buffered binary and
text files on top. This project models the parts that carry state, and proves
what they promise.

- **The macOS driver** (`Transfer`, `Replay`, `DriverModel`, `DriverCalls`,
  `DriverOwnership`, `DriverHistory`, `DriverSafety`, `DriverAnswers`,
  `DriverLasting`, `DriverTheorems`, `DriverSteps`, `Driver`, `DriverProgress`).
  One thread schedules jobs over the submission channel, a job queue, a bounded
  set of requests in flight, a table of handles, and opens and closes that
  travel to helper threads. `DriverModel` is the state with one function for
  each thing the driver does, and the actions of clients, helpers and the
  kernel; a run is any sequence of actions, and every answer of the kernel comes
  from an arbitrary oracle. The invariants are proved for every action, the
  theorems for every reachable state; `DriverSteps` says what one step comes to,
  seen from outside. `Driver` is the thread as it is written, an object changed
  in place, each method proved to do what the model's function says, up to the
  loop itself. `Transfer` is one read, write or fsync moved chunk by chunk, and
  `Replay` a job as the chunks the kernel returned for it: the model's history
  keeps those chunks, and what the clients asked for, so that the theorems can
  say what each op is answered with.
- **The doorbell** (`Doorbell`). Every lock-protected section and atomic
  operation is one step, and any interleaving of the pushing threads with the
  one drain is a run.
- **The parallel read** (`ReadGroup`, `ParallelRead`). The chunks of one large
  read, their callbacks interleaved in any order, and the read to the end of the
  file built on it.
- **Text files** (`Codec`, `Cookie`, `TextModel`, `TextTell`, `TextLines`,
  `TextFile`, `Utf8`, `Marked`). The incremental decoder is an abstract machine
  with named laws; the state of a file object stands for the text still to be
  read, and every method is specified by it. `Utf8` shows that the laws can be
  met, `Marked` what goes wrong for a decoder that starts in a state of its own.
- **Binary files and the page cache** (`BinaryFile`, `Residency`). The file with
  read-ahead against a plain file of bytes and a position, and the check that
  lets a read be served from resident pages.

`dafny verify dfyconfig.toml` checks everything.

## Where the code and its promise part

- A read to the end does not reach the end of a file that grew while it ran, if
  its buffer of 65536 bytes or more was filled exactly: the vector's length is
  still zero when it is asked to reserve, so it does not grow and the next chunk
  asks for nothing (`Transfer.GrownFileIsReadShort`). It gets what the file has
  up to its capacity, and falls short exactly when the file has come to exceed
  that: the room for what `fstat` said was left when the read was queued, or,
  below 65536 bytes, that and what the allocator adds
  (`Transfer.ShortExactlyBeyondCapacity`, and for an op of the driver
  `DriverTheorems.ReadRestWithinCapacity`). So it is never short of a file that
  stays within the room or within 65536 bytes
  (`Transfer.NeverShortWithinGrowth`).
- The same cut is made of an unchanged file where that `fstat` failed, the read
  being queued as if nothing were left (`DriverTheorems.ReadRestWithoutSize`),
  and of anything that is no regular file, which the source means to read on
  until a chunk of nothing (`DriverTheorems.ReadRestOfStream`): both get their
  contents up to the capacity.
- `seek(tell())` returns to the same text in every state but one: a decoder that
  has just been made, at a position inside the file that was reached without a
  snapshot, when the flags of a new decoder are not zero
  (`Marked.SeekMayNotReturn`; `TextFiles.TextFile.Seek` has the exact
  condition). Decoders that look for a byte-order mark are of that kind; the
  laws of `Codec` leave room for them: while bytes are held back the flags may
  change, and a final call may leave a truncated mark in the buffer.

## How to read the model

- Bytes are numbers below 256, a file is a sequence of them, a text a sequence
  of code points.
- What other parties decide is an oracle: a function from moments to answers,
  universally quantified. The kernel may report any legal count or error, refuse
  a submission, complete requests in any order; helpers finish in any order;
  clients submit, cancel and leave at any time. A non-empty write moves at least
  one byte, and a read of a regular file returns bytes when there are any.
- `Transfer.Versions` is a file's history: the file at each moment something
  looks at it. `OnlyGrows` says that nothing truncates or rewrites it.
- Ghost fields of the classes are history (what was pushed, delivered, settled,
  submitted), never read by the code.

## Model

| member | source | states |
|---|---|---|
| DriverTheorems.DescriptorsAreConserved | crates/turbofile-core/src/darwin_aio.rs:102-124 | In every reachable state each open descriptor has exactly one owner (a handle entry, a job that owns it, an open that came back, or a close sent to a helper), a closed one has none, and no close was ever asked for a descriptor that was not open. |
| DriverTheorems.JobsUseOpenDescriptors | crates/turbofile-core/src/darwin_aio.rs:724-737 | The descriptor of every queued or in-flight job is open: its own, or that of the live handle it was accepted on. |
| DriverTheorems.CallbacksAreConserved | crates/turbofile-core/src/darwin_aio.rs:429-587 | The callback of each submitted op is in exactly one place (channel, queue, in flight, out at a helper, come back, deferred close, invoked), so it is invoked at most once, and never for an op nobody submitted. |
| DriverTheorems.ExitSettlesAll | crates/turbofile-core/src/darwin_aio.rs:271-276 | When the loop returns, every op ever submitted has been settled exactly once. |
| DriverTheorems.ExitLeavesOnlyHandles | crates/turbofile-core/src/darwin_aio.rs:271-276 | After the loop has returned and the helpers have done their closes, a descriptor is open if and only if a handle holds it; none of those handles is being closed, and none ever was. |
| DriverTheorems.OpsCountJobs | crates/turbofile-core/src/darwin_aio.rs:881-904 | A handle's op count is the number of its queued and in-flight jobs; a close is deferred only while there is one; no job is on a handle that is gone. |
| DriverTheorems.CloseIsAnsweredLast | crates/turbofile-core/src/darwin_aio.rs:698-714 | A close is refused, or its answer is the end of its handle; and when that comes, every job ever accepted on the handle, if there was any, has been answered before, once. |
| DriverTheorems.ClosingIsFinal | crates/turbofile-core/src/darwin_aio.rs:698-722 | Once a handle is closing or gone it stays so in every run: no job is accepted on it any more, and every op on it that is still taken from the channel, its close included, is refused at once with no other effect. |
| DriverTheorems.HandlesAreTold | crates/turbofile-core/src/darwin_aio.rs:678-695 | A client that is told a handle is told one that was given to no other client, the descriptor the handle stands for until its end, and a size that `fstat` gave; the handle is in the table exactly until the log says it has gone. |
| DriverTheorems.HandlesHaveClients | crates/turbofile-core/src/darwin_aio.rs:678-695 | Every handle in the table was told to a client. |
| DriverTheorems.NothingStartsAfterCancel | crates/turbofile-core/src/darwin_aio.rs:408-427 | Once a cancel has been handled for an op, no chunk of it is handed to the kernel any more. |
| DriverTheorems.CancelMarks | crates/turbofile-core/src/darwin_aio.rs:608-620 | Queued jobs are never marked cancelled; the cancelled opens are among the pending ones, and those are exactly the opens out at a helper or come back. |
| DriverTheorems.CancelledAtItsOpen | crates/turbofile-core/src/darwin_aio.rs:608-620 | An op whose cancel was handled and that never became a job, its open being out at a helper, is answered that it was cancelled, whatever came of the open. |
| DriverTheorems.NeverPartial | crates/turbofile-core/src/darwin_aio.rs:866-879 | An op that was a job is answered with a reply exactly when the chunks the kernel has returned for it, put together, complete it, cancelled or not; and the reply is the one they come to: all their bytes, of the full length unless the last chunk met nothing, or the count of a payload all written. |
| DriverTheorems.ErrorsAreEarned | crates/turbofile-core/src/darwin_aio.rs:352-427 | An op that was a job is answered with an error only if a client asked for its cancel and that was handled, and then with that error; if the kernel completed a request of it with an error, refused one, or failed a plain call for it, and then with that very code; or if its chunks come to that error. |
| DriverTheorems.UndisturbedIsAnswered | crates/turbofile-core/src/darwin_aio.rs:866-904 | So in a run in which no client cancels the op and the kernel fails nothing, an op that was a job is answered with the reply its chunks come to, or, after an append, with the error of asking for the size. |
| DriverTheorems.ReadAtIsSlice | crates/turbofile-core/src/darwin_aio.rs:801-948 | A positional read that succeeds replies exactly the bytes of its range, short only where the file ends, for every reachable state: whatever counts the kernel returned, however often the job went back to the queue, and whichever chunks were plain system calls. |
| DriverTheorems.ReadRestWithinCapacity | crates/turbofile-core/src/darwin_aio.rs:492-513 | A read to the end of a file that only grows is answered with what the file holds at its last chunk, up to the capacity of its buffer: the room for what `fstat` said was left when it was queued, or, if that is below 65536 bytes, 65536 and what the allocator adds; so with all the rest exactly when that fits. |
| DriverTheorems.ReadRestIsTail | crates/turbofile-core/src/darwin_aio.rs:917-948 | So it is answered with everything there was at the last chunk if the file never exceeds the position plus the larger of that room and 65536 bytes, whatever the allocator adds. |
| DriverTheorems.ReadRestOfUnchanged | crates/turbofile-core/src/darwin_aio.rs:492-513 | On an unchanged regular file whose size `fstat` said when the read was queued, a read to the end is answered with exactly the rest of the file, and no chunk of it asks the kernel for nothing. |
| DriverTheorems.ReadRestWithoutSize | crates/turbofile-core/src/darwin_aio.rs:494-496 | Where that `fstat` failed, even an unchanged file is answered short, if and only if it is longer than the position plus 65536 bytes and what the allocator adds. |
| DriverTheorems.ReadRestOfStream | crates/turbofile-core/src/darwin_aio.rs:182-194 | Anything but a regular file is answered with its contents from the position on, up to the same capacity. |
| DriverTheorems.WriteIsOnePiece | crates/turbofile-core/src/darwin_aio.rs:917-947 | When a queued write is answered, the payload as far as the kernel took it lies in the file in one piece at its offset, or appended; all of it does if the answer is a reply, which then gives its length and end. |
| DriverAnswers.DoAnswers | crates/turbofile-core/src/darwin_aio.rs:429-587 | Each step keeps every answer, queued job, open and deferred close one that the op submitted under its id calls for, the room of a read to the end being that for what `fstat` said was left. |
| DriverLasting.DoLasts | crates/turbofile-core/src/darwin_aio.rs:429-587 | Each step leaves a handle that is closing or gone so, with no job added on it; each handle told to one client, and standing for what that client was told; the file size every read to the end was queued by one that `fstat` gave before; and every cancel, failure and refusal recorded one that a client or the kernel caused. |
| Replays.ExactUnderWay | crates/turbofile-core/src/darwin_aio.rs:917-929 | While an unchanged regular file is read with room for all of it, every chunk asks for a byte at least. |
| Replays.StreamIsCapacity | crates/turbofile-core/src/darwin_aio.rs:182-194 | A read to the end whose chunks never see a size is done when a chunk gets nothing, and has then what there is up to its capacity. |
| Replays.ReplayEndsWhole | crates/turbofile-core/src/darwin_aio.rs:917-957 | Chunk by chunk from the work as queued: if the chunks end the job with a reply, it is made of exactly what they moved; the one error they can end with is that of asking for the size after an append. |
| Replays.ReadOffIsReadAll | crates/turbofile-core/src/darwin_aio.rs:801-879 | The chunks of a job, whichever way each reached the kernel, are one read of `ReadAll`, with the same result and the same last chunk. |
| Replays.LandedIsPrefix | crates/turbofile-core/src/darwin_aio.rs:917-947 | The chunks of a write, each landing where the job had come to, leave the payload so far in one piece. |
| DriverTheorems.FirstSubmissionsAreFifo | crates/turbofile-core/src/darwin_aio.rs:739-752 | Jobs are first submitted in the order they were queued, but for those cancelled while they waited; jobs submitted before are ahead of fresh ones. |
| DriverTheorems.SlotsAreBounded | crates/turbofile-core/src/darwin_aio.rs:739-752 | Never more requests in flight than the kernel's limit for the process. |
| DriverTheorems.SubmitReadyProgress | crates/turbofile-core/src/darwin_aio.rs:739-796 | After a look at the queue all slots are taken, unless nothing is queued any more or the kernel has just said that it has none; and something is in flight or nothing is queued, so a refused submission never leaves nothing to wait for. |
| DriverSteps.TransfersAreQueued | crates/turbofile-core/src/darwin_aio.rs:429-545 | Every op on a live handle that has something to transfer, sync included, becomes a job on the handle's descriptor, with the range and payload it asked for; it is neither refused nor answered before the kernel has had a chunk of it, and a read to the end is queued by the size `fstat` gives then. |
| DriverSteps.OthersAreAnswered | crates/turbofile-core/src/darwin_aio.rs:429-545 | The other ops on a live handle are answered at once with what the kernel says: the size or that very error, the outcome of the truncation, the end of an empty append, nothing read for an empty read; nothing else changes. |
| DriverSteps.OthersAreRefused | crates/turbofile-core/src/darwin_aio.rs:716-722 | On a handle that is unknown, gone or being closed every op is refused at once, and nothing else changes. |
| DriverSteps.CloseWaitsForJobs | crates/turbofile-core/src/darwin_aio.rs:698-714 | The close of a live handle is put off exactly while a job is queued or in flight on it; else it is carried out at once, with the kernel's own outcome, the handle and its descriptor gone. |
| DriverSteps.OpensHereOrAtHelper | crates/turbofile-core/src/darwin_aio.rs:571-590 | An open goes to a helper exactly when something waits behind it; else it is done at once: failed with the kernel's code, answered with a new handle, or turned into a job on its own descriptor, by what was opened and how large it is. |
| DriverSteps.HelpersAnswer | crates/turbofile-core/src/darwin_aio.rs:102-124 | A helper sends back what the kernel made of the open, with the size asked for on the same descriptor; or closes a descriptor that was open. |
| DriverSteps.OpensComeBack | crates/turbofile-core/src/darwin_aio.rs:608-665 | An open that comes back is done in the same way if nobody cancelled its op; for a cancelled one the descriptor is closed, the op answered so, and no handle or job made. |
| DriverSteps.QueuedIsCancelled | crates/turbofile-core/src/darwin_aio.rs:408-418 | The cancel of a queued job takes that job out of the queue, leaves the others in order, and answers it at once. |
| DriverSteps.OthersAreMarked | crates/turbofile-core/src/darwin_aio.rs:419-427 | A cancel marks the one request in flight, or the open that is out, of its op, and answers nothing; for any other op it does nothing. |
| DriverSteps.QueueIsServed | crates/turbofile-core/src/darwin_aio.rs:739-861 | Whenever there is a slot, the job in front of the queue goes: in flight if the kernel takes it, answered with the code if it is refused, left in front if requests are out to wait for, and else run to its end by plain calls, chunk by chunk as the kernel returns them. |
| DriverSteps.ChunksAreTaken | crates/turbofile-core/src/darwin_aio.rs:863-879 | A request that failed answers its op with that code. A chunk is recorded as the kernel returned it; if it ends the job, that is answered with the result; if not, what is left goes in front of the queue and is the next to go, unless the op was cancelled, which answers it. |
| DriverSteps.LastJobCloses | crates/turbofile-core/src/darwin_aio.rs:881-904 | The end of a job counts one off its handle; the last one, if a close waits, is followed by that close, with the kernel's outcome. |
| DriverSteps.OwnedJobCloses | crates/turbofile-core/src/darwin_aio.rs:669-676 | The end of a job that opened its own descriptor closes it: here, or through a helper if anything is waiting. |
| DriverTheorems.ReachableGood | crates/turbofile-core/src/darwin_aio.rs:247-269 | Every reachable state, whatever clients, helpers and kernel do, meets the whole invariant. |
| DriverTheorems.DoGood | crates/turbofile-core/src/darwin_aio.rs:400-406 | Every step of the driver, a helper, a client or the kernel keeps the whole invariant. |
| DriverCalls.DoCalls | crates/turbofile-core/src/darwin_aio.rs:400-904 | Each step moves or invokes the callback of an op without dropping or duplicating it. |
| DriverCalls.FinishCalls | crates/turbofile-core/src/darwin_aio.rs:881-904 | The end of a job adds one invocation of its own callback to the sum of its op's callbacks, and leaves the sum of every other op's as it was, those of a deferred close included. |
| DriverCalls.HandleCloseCalls | crates/turbofile-core/src/darwin_aio.rs:698-714 | A close is answered, refused or kept in the handle's entry: its callback is in one place afterwards. |
| DriverOwnership.DoOwn | crates/turbofile-core/src/darwin_aio.rs:102-124 | Each step keeps descriptor ownership, the op counts, and that every job's descriptor is open. |
| DriverOwnership.ReleaseOwn | crates/turbofile-core/src/darwin_aio.rs:896-904 | Ending a job on a handle, with the close that may be deferred behind it, keeps descriptor ownership, op counts and the open descriptors of the other jobs. |
| DriverOwnership.HandleOpenedOwn | crates/turbofile-core/src/darwin_aio.rs:608-665 | An open that comes back with a descriptor nobody owns yet leaves every open descriptor with one owner again, whether the op was cancelled or not. |
| DriverHistory.ExecuteSyncHist | crates/turbofile-core/src/darwin_aio.rs:798-861 | Running a job to its end by plain system calls keeps the history invariant: its callback is invoked once, with the result its chunks come to or the code of the call that failed, and nothing is started after a cancel. |
| DriverHistory.SubmitReadyHist | crates/turbofile-core/src/darwin_aio.rs:739-796 | Taking jobs off the queue keeps the history invariant: callbacks, cancels, the order of first submissions, and results that are those of the chunks. |
| DriverSafety.HandleCancelHist | crates/turbofile-core/src/darwin_aio.rs:408-427 | Handling a cancel keeps the history invariant, by which an op whose cancel was handled is not in the queue and is marked where it is in flight or at an open, and no callback is lost. |
| DriverSafety.AdvanceHist | crates/turbofile-core/src/darwin_aio.rs:866-879 | Taking a finished chunk keeps the history invariant: the job goes on as the chunk leaves it, or settles once, with its result, or as cancelled only if a cancel of it was handled; and first submissions keep their order. |
| DriverSafety.DoHist | crates/turbofile-core/src/darwin_aio.rs:271-293 | Each step keeps the history invariants: callbacks, cancels, closes answered last, results that are those of the chunks, order and slots. |
| DriverThread.Driver.constructor | crates/turbofile-core/src/darwin_aio.rs:247-269 | A new driver is in the initial state, which meets the whole invariant. |
| DriverThread.Driver.RunLoop | crates/turbofile-core/src/darwin_aio.rs:271-293 | Any number of passes of the loop is a run of the model, together with whatever the other threads do meanwhile; when it returns, every op has been settled once. |
| DriverThread.Driver.Pass | crates/turbofile-core/src/darwin_aio.rs:271-293 | A pass that does not return takes every request that was complete when it began and every message and opened descriptor that was there, and ends with something in flight or nothing queued. |
| DriverProgress.EveryOpSettles | crates/turbofile-core/src/darwin_aio.rs:271-335 | No op can get stuck: from every reachable state, any schedule that goes on while the driver, the kernel or a helper can, with any answers of theirs and no further message of a client, comes after finitely many steps to where every op ever submitted has been settled exactly once, though the clients stay. |
| DriverProgress.EveryLoopReturns | crates/turbofile-core/src/darwin_aio.rs:271-276 | If the schedule lets the clients leave as well, the loop returns. |
| DriverProgress.EveryStepIsNearer | crates/turbofile-core/src/darwin_aio.rs:271-391 | Every step that changes anything and is no client's message leaves less to do, whichever it is and whatever is answered. |
| DriverProgress.StuckMeansExit | crates/turbofile-core/src/darwin_aio.rs:271-276 | Where no such step is left, the loop returns and the helpers have nothing to do. |
| DriverProgress.StuckMeansDrained | crates/turbofile-core/src/darwin_aio.rs:271-391 | Where only the clients' leaving is left, nothing is queued, in flight, at an open or on its way. |
| DriverProgress.SomeStep | crates/turbofile-core/src/darwin_aio.rs:271-391 | Short of the end there is always a step that leaves less to do: the driver's own, or an answer of the kernel or a helper. |
| DriverThread.Driver.WaitIdle | crates/turbofile-core/src/darwin_aio.rs:298-327 | Reached only with no job queued or in flight; goes on waiting only while there is no message, no opened descriptor and no leaving of the clients to wake up for. |
| DriverThread.Driver.ReapAll | crates/turbofile-core/src/darwin_aio.rs:352-368 | Takes every request that was complete when the pass began, in spite of swap-removal and resubmission, and ends even if the kernel completes everything at once. |
| DriverThread.Driver.DrainChannel | crates/turbofile-core/src/darwin_aio.rs:370-391 | Takes at least all messages and opened descriptors that were there, with more arriving between any takes; notes that the clients are gone only when they are and their messages are taken. |
| DriverThread.ReapWork | crates/turbofile-core/src/darwin_aio.rs:863-879 | Every chunk taken from the kernel leaves less to do: fewer buffers that may grow, or fewer bytes. |
| DriverThread.TakingMissesNone | crates/turbofile-core/src/darwin_aio.rs:352-368 | When a request is taken and the last one moves into its place, no request that was complete is passed over. |
| DriverThread.Driver.Submit | crates/turbofile-core/src/darwin_aio.rs:754-796 | A job goes in flight, is run at once when the process has no slot at all, is given back when the kernel is full, or settles with the kernel's error. |
| DriverThread.Driver.RunSync | crates/turbofile-core/src/darwin_aio.rs:798-861 | The fallback loop does to a job and the state what the recursive `ExecuteSync` says, chunk by chunk. |
| DriverThread.Driver.SubmitWaiting | crates/turbofile-core/src/darwin_aio.rs:739-752 | Fills the slots in queue order; a job the kernel has no room for stays in front. |
| DriverThread.Driver.FinishJob | crates/turbofile-core/src/darwin_aio.rs:881-904 | Closes a descriptor the job owns, invokes the callback, releases the handle, and carries out a deferred close after the last job. |
| DriverThread.Driver.AdvanceJob | crates/turbofile-core/src/darwin_aio.rs:866-879 | One chunk done: settle, settle cancelled, or queue the remainder in front; what that comes to is `DriverSteps.ChunksAreTaken`. |
| DriverThread.Driver.CancelOp | crates/turbofile-core/src/darwin_aio.rs:408-427 | Removes and settles a queued job, marks one in flight or at its open, ignores an unknown op. |
| DriverThread.Driver.CloseFile | crates/turbofile-core/src/darwin_aio.rs:698-714 | Refuses an unknown or closing handle, defers a close while ops are counted, closes at once otherwise. |
| DriverThread.Driver.StartOpen | crates/turbofile-core/src/darwin_aio.rs:568-587 | Opens on this thread without a backlog, sends the open to a helper with one. |
| DriverThread.Driver.HelperAnswered | crates/turbofile-core/src/darwin_aio.rs:608-620 | Closes the descriptor of a cancelled open and settles it; otherwise goes on with the op. |
| DriverThread.Driver.FileOpened | crates/turbofile-core/src/darwin_aio.rs:622-665 | Registers a handle, or queues the read or write that owns the descriptor, by size and limit. |
| DriverThread.Driver.FileOp | crates/turbofile-core/src/darwin_aio.rs:429-545 | Each op on an open handle: answered at once for sizes, truncations and empty transfers, else queued with the right buffer and length; what that comes to is `DriverSteps.TransfersAreQueued` and `DriverSteps.OthersAreAnswered`. |
| DriverThread.Driver.StartOp | crates/turbofile-core/src/darwin_aio.rs:429-566 | Dispatches an op, refusing a handle that is unknown or being closed. |
| DriverThread.Driver.CloseOwnedFd | crates/turbofile-core/src/darwin_aio.rs:667-676 | Closes here without a backlog, through a helper with one. |
| DriverThread.Driver.RegisterFd | crates/turbofile-core/src/darwin_aio.rs:678-696 | A fresh handle takes the descriptor, with no op counted on it, and is told with it and its size: `DriverTheorems.HandlesAreTold`. |
| DriverThread.Driver.Accept | crates/turbofile-core/src/darwin_aio.rs:724-737 | Counts the job on its handle, queues it last and fills the slots. |
| DriverThread.Driver.Help | crates/turbofile-core/src/darwin_aio.rs:102-124 | A helper closes what it is sent to close, and sends every open back with its result. |
| DriverModel.Place | crates/turbofile-core/src/darwin_aio.rs:413-418 | The first queued job with the id, or none. |
| Transfer.SizedReadIsOneRead | crates/turbofile-core/src/darwin_aio.rs:182-194 | A sized read of a range that stays what it is replies exactly the bytes there are, short only at the end of the file, for every sequence of chunk counts. |
| Transfer.WriteIsOneWrite | crates/turbofile-core/src/darwin_aio.rs:917-947 | A write that succeeds has written its whole payload in one piece at its offset, or at the end for an append, and replies its length and end, for every sequence of chunk counts. |
| Transfer.ReadToEndIsExact | crates/turbofile-core/src/darwin_aio.rs:492-513 | On an unchanged regular file a read to the end replies exactly the rest of the file, its buffer never grows, and every chunk asks for a byte at least. |
| Transfer.ReadToEndOfGrowingFile | crates/turbofile-core/src/darwin_aio.rs:917-947 | On a file that only grows a read to the end replies a prefix of the contents, no shorter than the file was when the op was queued; it stops before the end exactly when a buffer of 65536 bytes or more is full and a chunk asked for nothing; the buffer is the one it began with, or a smaller one that has grown to 65536 bytes and what the allocator adds. |
| Transfer.ShortExactlyBeyondCapacity | crates/turbofile-core/src/darwin_aio.rs:917-947 | Such a read gets what the file has at its last chunk up to the capacity, which its room at the start and the allocator fix; so it is short of the end if and only if the file is longer than the position plus that. |
| Transfer.NeverShortWithinGrowth | crates/turbofile-core/src/darwin_aio.rs:917-947 | It is never short of a file that does not exceed the position plus the larger of its room and 65536 bytes. |
| Transfer.GrownFileIsReadShort | crates/turbofile-core/src/darwin_aio.rs:924-928 | That does happen: a vector of 65536 bytes, filled, is not grown, and a file grown by one byte meanwhile is read short. |
| Transfer.Progress | crates/turbofile-core/src/darwin_aio.rs:917-947 | A chunk that does not end a job moves a byte at least and leaves less to do; the job keeps its descriptor, handle and ownership. |
| Transfer.SizedReadFits | crates/turbofile-core/src/darwin_aio.rs:161-170 | Whatever happens to the file, a sized read into the caller's memory reports what it put there, and that fits. |
| Transfer.ReadChunk | crates/turbofile-core/src/darwin_aio.rs:754-767 | A chunk of a regular file is the bytes at the job's offset, none only if none was asked for or the file ends there. |
| Doorbell.ArmedIffOneToken | crates/turbofile-py/src/lib.rs:217-230 | In every run the bridge is armed if and only if exactly one wake token exists, at a thread about to ring, in the pipe or at the running drain; the pipe never holds more than one byte, and bytes written are at most disarms plus one. |
| Doorbell.NoLostWakeup | crates/turbofile-py/src/lib.rs:302-325 | With no thread in mid-push, the drain idle and the pipe empty, nothing is left in the queue. |
| Doorbell.DeliveryOrder | crates/turbofile-py/src/lib.rs:302-325 | Pushed completions are the delivered ones, the rest of the batch in hand and the queue, in that order. |
| Doorbell.RunsAreFinite | crates/turbofile-py/src/lib.rs:302-325 | With pushes stopped, any choice of steps comes to an end. |
| Doorbell.EverythingIsDelivered | crates/turbofile-py/src/lib.rs:302-325 | With pushes stopped, there is always a next step until everything pushed has been delivered in order. |
| Doorbell.InvStep | crates/turbofile-py/src/lib.rs:217-325 | Every atomic step of a producer or the drain keeps the token invariant. |
| Doorbell.LoopBridge.Drain | crates/turbofile-py/src/lib.rs:302-325 | The whole callback, interleaved with any steps of the producers, is a run of the protocol, ends, and delivers at least all that had been pushed before it was woken. |
| Doorbell.LoopBridge.QuietDoorbell | crates/turbofile-py/src/lib.rs:277-292 | Reads the pipe dry before the queue is looked at. |
| Doorbell.LoopBridge.DisarmAndRecheck | crates/turbofile-py/src/lib.rs:309-318 | Disarms, looks again, and goes on or hands the token to the thread that armed first. |
| Doorbell.LoopBridge.DeliverBatch | crates/turbofile-py/src/lib.rs:320-323 | Delivers exactly the batch taken, in order, whatever is pushed meanwhile. |
| Doorbell.LoopBridge.PushCompletion | crates/turbofile-py/src/lib.rs:217-218 | The push under the lock, as one atomic step. |
| Doorbell.LoopBridge.SwapArmed | crates/turbofile-py/src/lib.rs:219-221 | The atomic swap: only the thread that finds the bridge idle will ring. |
| Doorbell.LoopBridge.RingPipe | crates/turbofile-py/src/lib.rs:263-275 | Writes one byte, or none into a full pipe. |
| ReadGroups.SplitRange | crates/turbofile-py/src/lib.rs:628-652 | The loop over the range submits exactly as many chunks as the countdown starts from, each at its multiple of the chunk size. |
| ReadGroups.ChunkOf | crates/turbofile-py/src/lib.rs:628-630 | Each byte of the range lies in a chunk. |
| ReadGroups.ChunksApart | crates/turbofile-py/src/lib.rs:628-630 | Chunks do not overlap. |
| ReadGroups.InvStep | crates/turbofile-py/src/lib.rs:507-545 | Each atomic step of any chunk's callback keeps the group's invariant. |
| ReadGroups.CompletesOnce | crates/turbofile-py/src/lib.rs:526-545 | Under any interleaving the group completes at most once, and then every chunk's op has settled and nobody writes to the buffer any more. |
| ReadGroups.StuckMeansCompleted | crates/turbofile-py/src/lib.rs:526-545 | The group has completed once no callback has a step left. |
| ReadGroups.StepsDecrease | crates/turbofile-py/src/lib.rs:507-545 | Each chunk's callback takes three steps at most. |
| ReadGroups.DeliveredPrefix | crates/turbofile-py/src/lib.rs:509-525 | A completion without an error is one contiguous prefix: every byte of it was put there by a chunk's read, and it ends where the first short chunk does. |
| ReadGroups.DeliveredError | crates/turbofile-py/src/lib.rs:517-523 | A completion with an error is that of the first chunk to fail, in the order they settled. |
| ReadGroups.GroupIsOneRead | crates/turbofile-py/src/lib.rs:602-654 | When each chunk reads what is there, the reply is that of one read of the whole range, in whatever order the chunks settle. |
| ReadGroups.ReadGroup.Record | crates/turbofile-py/src/lib.rs:508-525 | The first locked section: the limit falls to a short read's end, the first error stays. |
| ReadGroups.ReadGroup.CountDownOne | crates/turbofile-py/src/lib.rs:526-528 | The countdown never passes zero, and one chunk sees it reach zero. |
| ReadGroups.ReadGroup.CompleteGroup | crates/turbofile-py/src/lib.rs:529-544 | The future and the buffer are still there to be taken. |
| ReadGroups.ReadGroup.BuildValue | crates/turbofile-py/src/lib.rs:374-383 | The delivered bytes: the buffer when full, else a copy of its prefix. |
| ParallelReads.ReadParallel | crates/turbofile-py/src/lib.rs:602-654 | For every interleaving of the callbacks: it ends after the op of every chunk has, fails if and only if a chunk's op failed, and on a range that stays what it is replies exactly the bytes there are. |
| ParallelReads.ReadToEofParallel | python/turbofile/binary.py:30-55 | On a file that only grows, what the file held from the start offset on at one moment of the call, no earlier than the end of every chunk of the parallel fill: so all of an unchanged file, and of a growing one all that was there by then; it ends once growth stops. |
| ParallelReads.ProbeOfGrowing | python/turbofile/binary.py:48-55 | A probe is empty only when nothing more is there at its last look. |
| Codecs.DecodedInTwo | python/turbofile/text.py:100-109 | Decoding a chunk and later the rest is decoding all at once. |
| Codecs.FeedAfterBuffer | python/turbofile/text.py:100-109 | Feeding the buffered bytes and then more to the emptied decoder is feeding more: why a snapshot of flags and bytes suffices. |
| Cookies.PackRoundTrips | python/turbofile/text.py:233-254 | Unpacking gives back what was packed if and only if every field fits its 64 bits. |
| Cookies.PackIsSum | python/turbofile/text.py:233-247 | A cookie is the sum of its fields, each at its own 64 bits: position, flags, bytes to feed, characters to skip, and the final call on top. |
| Cookies.OrIsSum | python/turbofile/text.py:241-247 | An or with a field shifted past all set bits is a sum. |
| TextModel.FillKeeps | python/turbofile/text.py:100-109 | Filling hands the unread text on unchanged and snapshots what it decodes. |
| TextModel.DrainKeeps | python/turbofile/text.py:116-122 | Reading everything at once gives the unread text and leaves none. |
| TextModel.SeekKeeps | python/turbofile/text.py:328-349 | A seek to a cookie that can be restored succeeds and leaves exactly the text the cookie names. |
| TextTell.CookieNamesRest | python/turbofile/text.py:273-296 | From any clean decoder point the search may stop at, the cookie fits, can be restored, and names exactly the unread text. |
| TextTell.TextFromPoint | python/turbofile/text.py:283-290 | The text from a point inside the snapshot is that point's decoded text and what its decoder makes of the rest of the file. |
| TextLines.SearchIsChunkFree | python/turbofile/text.py:143-178 | Searching what has been read finds the end of the first line of the whole text, whatever is still to come, or shows from where to search on. |
| TextLines.LinesAreText | python/turbofile/text.py:197-207 | The lines are the text, cut up; all of it without a hint. |
| TextFiles.TextFile.constructor | python/turbofile/text.py:30-55 | A new file object has all of the text from its position still to be read. |
| TextFiles.TextFile.TakeChars | python/turbofile/text.py:89-95 | Hands out the next characters of the unread text. |
| TextFiles.TextFile.RewindChars | python/turbofile/text.py:97-98 | Takes characters back in front of the unread text. |
| TextFiles.TextFile.Fill | python/turbofile/text.py:100-109 | The unread text is unchanged; false only at the end, with all of it decoded. |
| TextFiles.TextFile.Read | python/turbofile/text.py:111-129 | Exactly the asked number of characters of the unread text, fewer only at its end, all for a negative size; the rest stays unread. |
| TextFiles.TextFile.ReadLine | python/turbofile/text.py:131-195 | The first line of the unread text cut to the limit, for every newline mode, chunking and limit; never takes back more than the last chunk gave. |
| TextFiles.TextFile.ReadLines | python/turbofile/text.py:197-207 | The lines of the unread text up to the hint; nothing lost between them and what stays unread. |
| TextFiles.TextFile.Tell | python/turbofile/text.py:256-298 | A cookie that names the unread text; nothing observable changes, and the error for a position that cannot be reconstructed is never raised. |
| TextFiles.TextFile.Seek | python/turbofile/text.py:300-354 | Restores what a cookie names, refuses what the source refuses, and for `seek(0, 1)`, that is `seek(tell())`, returns the cookie it went to, which names the unread text as that of `tell` does, and leaves the unread text as it was in all states but one, where it does exactly when flags zero and a new decoder agree on the rest of the file. |
| TextFiles.SearchEnds | python/turbofile/text.py:291-295 | When the snapshot's bytes run out first, the final call gives enough characters. |
| TextFiles.TellThenSeek | python/turbofile/text.py:256-349 | The exact condition under which a cookie just taken leads back to the same text. |
| Marked.SeekMayNotReturn | python/turbofile/text.py:332-341 | A file object with a lawful decoder, opened, sought to a bare position and asked for nothing: reading on gives one letter, and reading on after `seek(tell())` gives the mark before it too. |
| Utf8.Utf8IsLawful | python/turbofile/text.py:83-87 | UTF-8 with the stage that holds a carriage return back meets every law the file object relies on. |
| Utf8.DecodingEncoded | python/turbofile/text.py:83-87 | Decoding the encoding of a text gives the text, its line ends unified if the stage translates. |
| BinaryFiles.BinaryFile.Perform | python/turbofile/binary.py:163-337 | Any sequence of operations gives answers a plain file of bytes and a position allows; an operation fails only where an op of the driver failed in its own call, and is refused exactly on a closed file or one whose mode does not fit, and for that reason. |
| BinaryFiles.ReadLinesIsRest | python/turbofile/binary.py:261-271 | `readlines()` concatenates to exactly the rest of the file. |
| BinaryFiles.ReadIsFile | python/turbofile/binary.py:163-192 | What `read` may answer is the file's bytes at the position, byte by byte, as many as were asked for and are there. |
| BinaryFiles.LineIsFirst | python/turbofile/binary.py:230-259 | What `readline` may answer has a line end nowhere but at its end, and one there unless the limit or the end of the file cuts it. |
| BinaryFiles.FirstOfTail | python/turbofile/binary.py:250-256 | The line cut from the read-ahead is the first line of the rest of the file cut to the limit. |
| BinaryFiles.BinaryFile.constructor | python/turbofile/binary.py:67-81 | Starts at zero, or at the end for appending, with nothing read ahead. |
| BinaryFiles.BinaryFile.Read | python/turbofile/binary.py:163-192 | The asked bytes at the position, all the rest for a negative size; the read-ahead stays a prefix of what is left. |
| BinaryFiles.BinaryFile.ReadAllLarge | python/turbofile/binary.py:194-200 | The read-ahead and a parallel read of the rest are the rest of the file. |
| BinaryFiles.BinaryFile.ReadOne | python/turbofile/binary.py:202-215 | A prefix of the asked bytes, empty only where they are. |
| BinaryFiles.BinaryFile.Peek | python/turbofile/binary.py:220-228 | A prefix of the rest, empty only at the end; the position stays. |
| BinaryFiles.BinaryFile.FetchLine | python/turbofile/binary.py:236-255 | Reads ahead until there is a line end, the limit is reached or the file ends, and keeps the read-ahead as it was if an op fails. |
| BinaryFiles.BinaryFile.NextLine | python/turbofile/binary.py:230-259 | The first line of the rest, cut to the limit. |
| BinaryFiles.BinaryFile.ReadLine | python/turbofile/binary.py:230-259 | As a plain file's `readline`; the position stays when an op fails. |
| BinaryFiles.BinaryFile.ReadLines | python/turbofile/binary.py:261-271 | As a plain file's `readlines`. |
| BinaryFiles.BinaryFile.ReadInto | python/turbofile/binary.py:273-293 | Fills the caller's memory from the read-ahead and the file with exactly the bytes at the position, and leaves the rest of it alone. |
| BinaryFiles.BinaryFile.Write | python/turbofile/binary.py:295-302 | The payload is spliced in at the position or appended, and the position is its end. |
| BinaryFiles.BinaryFile.Seek | python/turbofile/binary.py:308-324 | Moves to the offset from the start, the position or the end and forgets the read-ahead; or raises, exactly on a closed file, a bad `whence` or a negative target, and changes nothing. |
| BinaryFiles.BinaryFile.Tell | python/turbofile/binary.py:326-328 | The position a caller sees, whatever has been read ahead. |
| BinaryFiles.BinaryFile.Truncate | python/turbofile/binary.py:330-337 | Cuts or zero-extends the file: it has the size asked for, each byte below both sizes is the old one, and the rest zero; the position stays. It is refused exactly on a closed file, one not writable, or a negative size. |
| Residency.ViewHoldsFile | crates/turbofile-py/src/fast_path/darwin.rs:49-54 | A mapping length covers the file with the headroom and is whole pages; there is none only when it would not fit 64 bits. |
| Residency.Inner.EnsureView | crates/turbofile-py/src/fast_path/darwin.rs:69-104 | True exactly when the view reaches the end afterwards; false only when the file cannot be mapped or the end lies beyond it and the headroom; a view is never replaced by a shorter one. |
| Residency.Inner.Mincore | crates/turbofile-py/src/fast_path/darwin.rs:121-136 | Called on whole pages inside the mapping only, with a flag for each; the pages taken for resident are those it reported so in that call. |
| Residency.Inner.Resident | crates/turbofile-py/src/fast_path/darwin.rs:106-148 | True only if `mincore` reported every page of the range resident during the call, but for pages that start at or past an end `fstat` gave during the call; false only if the view cannot reach the range, a look failed, or a page that holds data is cold. |
| Residency.Inner.Scan | crates/turbofile-py/src/fast_path/darwin.rs:116-147 | The chunked scan, with its early exit at the first cold page: true only with every page reported, or past the end. |
| Residency.ColdAndBeyond | crates/turbofile-py/src/fast_path/darwin.rs:138-144 | With a cold page at or past the end, all pages after it hold no data either. |
| Residency.Inner.Fill | crates/turbofile-py/src/fast_path/darwin.rs:150-182 | A count means that every page of the range was found resident first, and that exactly the bytes of the range have been written to the caller's memory, short only at the end of the file, as long as the range stays what it is from then on; there is none only when the range is not resident, does not fit the kernel's offsets, or is refused. |
| Residency.Inner.Read | crates/turbofile-py/src/fast_path/mod.rs:51-72 | Exactly the bytes of the range, read once all of it has been found resident, or nothing at all. |
| Residency.Inner.ReadAll | crates/turbofile-py/src/fast_path/mod.rs:91-111 | On a file that only grows, what the file held from the position on at one moment of the call, or nothing at all; bytes are read only once every page of them has been found resident. |

## Left out

- DriverThread.Driver.RunLoop: runs a given number of passes, because a loop that serves clients has no bound; everything is proved after any number of them.
- DriverThread.Driver.DrainChannel: the other threads act between finitely many of the takes, any number of them, without which the loop need not end.
- DriverThread.Driver.WaitIdle: reports that there is still nothing to wake up for instead of blocking.
- TextFiles.TextFile.Seek: a cookie that `tell` cannot have made, other than a plain position, is specified by its effect on the state only; the encoder's state is not modelled.
- TextFiles.TextFile.Read: the checks for a closed or unreadable file are modelled in `BinaryFiles` only, and the buffer below is taken as a file at a position whose `read1` hands out some bytes while there are any, which is what `BinaryFiles.BinaryFile.ReadOne` proves of it.
- BinaryFiles.BinaryFile.Write: an append lands at the end of the file at the moment of the call; how kernels differ in placing appends is not modelled.
- Residency.Inner.Fill: calls interrupted by signals are taken to stop at some time, without which the retry loop need not end; the page size divides 1 MiB.
- ParallelReads.ReadToEofParallel: requires that the file stops changing at some time, without which the loop that reads on need not end; positions are unbounded integers.
- Text writing, encoders, `truncate` of a text file, and decoding errors raised by strict error handlers.
- Threads that lose their helpers (`lose_helpers`, `helpers_gone`, `run_here`), which the source says nothing causes.
- The timing of the driver's polling (`progress`, `suspend_ns`), the number of helper threads, and other measured constants.
- Raw system calls, flags of `open`, memory mapping itself, thread creation, and real time: they are steps of the environment.
- The Linux and portable backends and fast paths, which leave the scheduling to a library or a single system call.
- The doorbell of a loop that has been closed, the interpreter's shutdown, and fork handling: they drop work on purpose.
- `futures.py`, `__init__.py`, mode parsing, metadata methods, benchmarks and packaging.
- Overlapping calls on one file object, for which the source gives no guarantee.
- Whole-file reads and writes by path on the Python side, which are one op each.
