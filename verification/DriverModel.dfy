/** The macOS AIO driver as functions on its whole state
    (crates/turbofile-core/src/darwin_aio.rs): the driver thread's containers,
    the two channels to and from the helper threads, the submission channel,
    and the descriptors the process holds.

    What the kernel, the clients and the helpers decide comes out of an oracle
    read once per decision, so a statement for every oracle is a statement for
    every environment. */
module DriverModel {
  import opened Basics
  import opened Transfer

  datatype Job = Job(id: Id, cancelled: bool, work: SoundWork)

  datatype Op =
    | Nop
    | Open
    | ReadAt(handle: Handle, pos: nat, len: nat, external: bool)
    | ReadRest(handle: Handle, pos: nat)
    | WriteAt(handle: Handle, pos: nat, data: seq<Byte>, append: bool)
    | Close(handle: Handle)
    | Sync(handle: Handle)
    | SetLen(handle: Handle)
    | Size(handle: Handle)
    | ReadFile(inlineMax: nat)
    | WriteFile(data: seq<Byte>)

  datatype Msg = Submit(id: Id, op: Op) | Cancel(id: Id)

  /** What becomes of a descriptor once its open has succeeded. */
  datatype AfterOpen = AsHandle | AsRead(inlineMax: nat) | AsWrite(data: seq<Byte>)

  datatype Pending = Pending(id: Id, after: AfterOpen)

  datatype OpenResult = Opened(fd: Fd, size: nat) | NotOpened(code: int)

  datatype HelperJob = OpenJob(pending: Pending) | CloseJob(fd: Fd)

  datatype Back = Back(pending: Pending, result: OpenResult)

  datatype Entry = Entry(fd: Fd, ops: int, closing: Option<Id>)

  datatype Ret = Returned(moved: Moved) | Failed(code: int)

  /** A submitted request; `ret` is what the kernel has answered, if it has. */
  datatype Flight = Flight(job: Job, ret: Option<Ret>)

  /** What can be seen of the driver from outside, in order. `Closed` records
      whether the descriptor was open; `HandleGone` is the end of a handle and
      the reply to its close at once. */
  datatype Event =
    | Settled(id: Id, result: Result)
    | Closed(fd: Fd, wasOpen: bool)
    | HandleGone(handle: Handle, id: Id, result: Result)

  /** What befalls an op: a chunk of it is handed to the kernel; a cancel of it is
      handled before it has settled; the kernel completes a request of it with
      an error; the kernel refuses a request of it, or a plain call for a chunk
      of it fails. */
  datatype Touch =
    | Issued(id: Id)
    | Doomed(id: Id)
    | Failure(id: Id, code: int)
    | Refusal(id: Id, code: int)

  /** What the clients asked for, the work each op was queued with, what the
      kernel has returned for it so far, and the file size a read to the end was
      queued by: what `fstat` said, if it answered. */
  datatype Ledger = Ledger(
    ops: map<Id, Op>,
    accepted: map<Id, SoundWork>,
    chunks: map<Id, seq<Chunk>>,
    sizes: map<Id, Option<nat>>
  )

  /** `arrivals` are the jobs ever queued, in order, `firsts` those submitted
      at least once, in the order of their first submission, `dropped` those
      cancelled before it. These three, `ledger`, `log` and `trace` are history. */
  datatype State = State(
    rx: seq<Msg>,
    clientsGone: bool,
    nextOp: nat,
    toHelpers: seq<HelperJob>,
    back: seq<Back>,
    pendingOpens: set<Id>,
    cancelledOpens: set<Id>,
    files: map<Handle, Entry>,
    nextId: nat,
    inflight: seq<Flight>,
    queue: seq<Job>,
    maxInflight: nat,
    disconnected: bool,
    open: set<Fd>,
    tick: nat,
    log: seq<Event>,
    trace: seq<Touch>,
    arrivals: seq<Id>,
    firsts: seq<Id>,
    dropped: set<Id>,
    ledger: Ledger
  )

  function Init(maxInflight: nat): State {
    State([], false, 1, [], [], {}, {}, map[], 1, [], [], maxInflight, false,
          {}, 0, [], [], [], [], {}, Ledger(map[], map[], map[], map[]))
  }

  datatype Accept = Taken | Again | Refused(code: int)

  /** One decision of the environment. */
  datatype Answer = Answer(
    accept: Accept,
    failed: Option<int>,
    moved: Moved,
    look: Look,
    closeError: Option<int>,
    openResult: OpenResult,
    truncateError: Option<int>,
    arrived: bool
  )

  type Kernel = nat -> Answer

  const EBADF := 9

  // ---------------------------------------------------------------------
  // System calls
  // ---------------------------------------------------------------------

  /** Nothing that a client, a helper or the discovery of the clients' leaving
      decides has changed. */
  predicate SameClients(s: State, r: State) {
    && r.rx == s.rx && r.back == s.back && r.clientsGone == s.clientsGone && r.disconnected == s.disconnected
    && r.nextOp == s.nextOp && r.maxInflight == s.maxInflight
  }

  function Emit(s: State, event: Event): State {
    s.(log := s.log + [event])
  }

  function Touched(s: State, touch: Touch): State {
    s.(trace := s.trace + [touch])
  }

  function Ticked(s: State): State { s.(tick := s.tick + 1) }

  function CloseRaw(k: Kernel, s: State, fd: Fd): State {
    Ticked(Emit(s, Closed(fd, fd in s.open))).(open := s.open - {fd})
  }

  function CloseResult(k: Kernel, s: State, fd: Fd): Result {
    if fd !in s.open then Err(Os(EBADF))
    else if k(s.tick).closeError.Some? then Err(Os(k(s.tick).closeError.value))
    else Ok(UnitReply)
  }

  /** The open an op needs. The kernel hands out a descriptor that is not in
      use; all but a write to a fresh file also ask for the size, and a
      descriptor whose size cannot be read is closed again. */
  function OpenNow(k: Kernel, s: State, after: AfterOpen): (State, OpenResult) {
    var a := k(s.tick);
    if a.openResult.NotOpened? || a.openResult.fd in s.open then
      (Ticked(s), NotOpened(if a.openResult.NotOpened? then a.openResult.code else 0))
    else
      var fd := a.openResult.fd;
      var s1 := Ticked(s).(open := s.open + {fd});
      if after.AsWrite? then (s1, Opened(fd, 0))
      else if a.look.size.Some? then (s1, Opened(fd, a.look.size.value))
      else (CloseRaw(k, s1, fd), NotOpened(a.look.statError))
  }

  // ---------------------------------------------------------------------
  // Settling
  // ---------------------------------------------------------------------

  /** Whether the driver sees anything waiting on it. A submission may have
      come in since the channel was last looked at. */
  predicate HasBacklog(k: Kernel, s: State) {
    s.rx != [] || k(s.tick).arrived || s.queue != [] || s.pendingOpens != {}
  }

  function CloseOwned(k: Kernel, s: State, fd: Fd): (r: State)
    ensures SameClients(s, r)
  {
    if HasBacklog(k, s) then Ticked(s).(toHelpers := s.toHelpers + [CloseJob(fd)])
    else CloseRaw(k, Ticked(s), fd)
  }

  /** The reply to the close of a handle, its entry already gone. */
  function CloseHandle(k: Kernel, s: State, handle: Handle, fd: Fd, id: Id): State {
    var s1 := s.(files := s.files - {handle});
    Emit(CloseRaw(k, s1, fd), HandleGone(handle, id, CloseResult(k, s1, fd)))
  }

  /** One job less on a handle; the last one carries out a deferred close. */
  function Release(k: Kernel, s: State, handle: Handle): (r: State)
    requires handle in s.files
    ensures r.queue == s.queue && r.inflight == s.inflight
    ensures SameClients(s, r)
  {
    var entry := s.files[handle].(ops := s.files[handle].ops - 1);
    if entry.ops > 0 || entry.closing.None? then s.(files := s.files[handle := entry])
    else CloseHandle(k, s, handle, entry.fd, entry.closing.value)
  }

  function Finish(k: Kernel, s: State, job: Job, result: Result): (r: State)
    ensures r.queue == s.queue && r.inflight == s.inflight
    ensures SameClients(s, r)
  {
    var s1 := if job.work.owned then CloseOwned(k, s, job.work.fd) else s;
    var s2 := Emit(s1, Settled(job.id, result));
    if job.work.handle.None? || job.work.handle.value !in s2.files then s2
    else Release(k, s2, job.work.handle.value)
  }

  // ---------------------------------------------------------------------
  // Submitting
  // ---------------------------------------------------------------------

  function WithFirst(s: State, id: Id): State {
    if id in s.firsts then s else s.(firsts := s.firsts + [id])
  }

  function ChunksOf(chunks: map<Id, seq<Chunk>>, id: Id): seq<Chunk> {
    if id in chunks then chunks[id] else []
  }

  /** The kernel has returned one more chunk of an op. */
  function Recorded(s: State, id: Id, chunk: Chunk): State {
    s.(ledger := s.ledger.(chunks := s.ledger.chunks[id := ChunksOf(s.ledger.chunks, id) + [chunk]]))
  }

  /** The whole job by plain system calls, when the kernel has no slot for
      this process at all. */
  function ExecuteSync(k: Kernel, s: State, job: Job): (r: State)
    ensures r.queue == s.queue && r.inflight == s.inflight
    ensures SameClients(s, r)
    decreases Growable(job.work), Remaining(job.work)
  {
    var a := k(s.tick);
    var s1 := Ticked(Touched(s, Issued(job.id)));
    if a.failed.Some? then
      Finish(k, Touched(s1, Refusal(job.id, a.failed.value)), job, Err(Os(a.failed.value)))
    else
      var m := Clamp(job.work, a.moved);
      var s2 := Recorded(s1, job.id, Chunk(m, a.look));
      match After(job.work, m, a.look)
      case Done(result) => Finish(k, s2, job, result)
      case More(work) =>
        Progress(job.work, m, a.look);
        ExecuteSync(k, s2, job.(work := work))
  }

  /** Whether the kernel has no room for another request just now. */
  predicate IsFull(k: Kernel, s: State) {
    k(s.tick).accept.Again? && s.inflight != []
  }

  /** A job leaves the queue for the kernel. */
  function SubmitJob(k: Kernel, s: State, job: Job): (r: State)
    requires !IsFull(k, s)
    ensures r.queue == s.queue
    ensures r.inflight == s.inflight || r.inflight == s.inflight + [Flight(job, None)]
    ensures SameClients(s, r)
  {
    var s1 := WithFirst(Ticked(s), job.id);
    match k(s.tick).accept
    case Taken => Touched(s1, Issued(job.id)).(inflight := s1.inflight + [Flight(job, None)])
    case Again => ExecuteSync(k, s1, job)
    case Refused(code) => Finish(k, Touched(s1, Refusal(job.id, code)), job, Err(Os(code)))
  }

  function SubmitReady(k: Kernel, s: State): (r: State)
    ensures SameClients(s, r)
    ensures s.inflight <= r.inflight
    decreases |s.queue|
  {
    if |s.inflight| >= s.maxInflight || s.queue == [] then s
    else if IsFull(k, s) then Ticked(s)
    else SubmitReady(k, SubmitJob(k, s.(queue := s.queue[1..]), s.queue[0]))
  }

  function Entered(ledger: Ledger, job: Job): Ledger {
    ledger.(accepted := ledger.accepted[job.id := job.work], chunks := ledger.chunks[job.id := []])
  }

  /** A job is accepted: its handle, if it has one, counts it. */
  function Accepted(s: State, job: Job): State {
    var s1 := s.(arrivals := s.arrivals + [job.id], ledger := Entered(s.ledger, job));
    if job.work.handle.Some? && job.work.handle.value in s.files then
      var h := job.work.handle.value;
      s1.(files := s.files[h := s.files[h].(ops := s.files[h].ops + 1)])
    else s1
  }

  function Pushed(s: State, job: Job, front: bool): State {
    s.(queue := if front then [job] + s.queue else s.queue + [job])
  }

  function Enqueue(k: Kernel, s: State, id: Id, work: SoundWork): (r: State)
    ensures SameClients(s, r)
  {
    SubmitReady(k, Pushed(Accepted(s, Job(id, false, work)), Job(id, false, work), false))
  }

  function Sized(s: State, id: Id, size: Option<nat>): State {
    s.(ledger := s.ledger.(sizes := s.ledger.sizes[id := size]))
  }

  /** A read to the end is queued by the file size; where there is none, as if
      nothing were left. */
  function EnqueueRest(k: Kernel, s: State, id: Id, handle: Option<Handle>, fd: Fd, pos: nat,
                       size: Option<nat>): (r: State)
    ensures SameClients(s, r)
  {
    Enqueue(k, Sized(s, id, size), id, ReadToEnd(handle, fd, handle.None?, pos, SizeOr(size)))
  }

  function SizeOr(size: Option<nat>): nat { if size.Some? then size.value else 0 }

  // ---------------------------------------------------------------------
  // Opens
  // ---------------------------------------------------------------------

  function Register(s: State, fd: Fd, size: nat, id: Id): (r: State)
    ensures SameClients(s, r)
  {
    Emit(s.(files := s.files[s.nextId := Entry(fd, 0, None)], nextId := s.nextId + 1),
         Settled(id, Ok(HandleReply(s.nextId, size, fd))))
  }

  function AfterOpened(k: Kernel, s: State, pending: Pending, result: OpenResult): (r: State)
    ensures SameClients(s, r)
  {
    match result
    case NotOpened(code) => Emit(s, Settled(pending.id, Err(Os(code))))
    case Opened(fd, size) =>
      match pending.after
      case AsHandle => Register(s, fd, size, pending.id)
      case AsRead(inlineMax) =>
        if size > inlineMax then Register(s, fd, size, pending.id)
        else EnqueueRest(k, s, pending.id, None, fd, 0, Some(size))
      case AsWrite(data) => Enqueue(k, s, pending.id, Write(None, fd, true, 0, false, data, 0))
  }

  function OpenThen(k: Kernel, s: State, pending: Pending): (r: State)
    ensures SameClients(s, r)
  {
    if HasBacklog(k, s) then
      Ticked(s).(pendingOpens := s.pendingOpens + {pending.id},
                 toHelpers := s.toHelpers + [OpenJob(pending)])
    else
      var (s1, result) := OpenNow(k, Ticked(s), pending.after);
      AfterOpened(k, s1, pending, result)
  }

  /** A helper's open has come back. */
  function HandleOpened(k: Kernel, s: State, answer: Back): (r: State)
    ensures SameClients(s, r)
  {
    var id := answer.pending.id;
    var s1 := s.(pendingOpens := s.pendingOpens - {id});
    if id in s.cancelledOpens then
      var s2 := s1.(cancelledOpens := s.cancelledOpens - {id});
      var s3 := if answer.result.Opened? then CloseRaw(k, s2, answer.result.fd) else s2;
      Emit(s3, Settled(id, Err(Cancelled)))
    else AfterOpened(k, s1, answer.pending, answer.result)
  }

  // ---------------------------------------------------------------------
  // Messages
  // ---------------------------------------------------------------------

  function WithFd(s: State, handle: Handle): Option<Fd> {
    if handle in s.files && s.files[handle].closing.None? then Some(s.files[handle].fd) else None
  }

  function HandleClose(k: Kernel, s: State, handle: Handle, id: Id): (r: State)
    ensures SameClients(s, r)
  {
    if handle !in s.files || s.files[handle].closing.Some? then Emit(s, Settled(id, Err(BadHandle)))
    else if s.files[handle].ops > 0 then
      s.(files := s.files[handle := s.files[handle].(closing := Some(id))])
    else CloseHandle(k, s, handle, s.files[handle].fd, id)
  }

  function StatReply(k: Kernel, s: State): Result {
    var look := k(s.tick).look;
    if look.size.Some? then Ok(SizeReply(look.size.value)) else Err(Os(look.statError))
  }

  function Settle(s: State, id: Id, result: Result): State { Emit(s, Settled(id, result)) }

  function HandleOp(k: Kernel, s: State, id: Id, op: Op): (r: State)
    ensures SameClients(s, r)
  {
    match op
    case Nop => Settle(s, id, Ok(UnitReply))
    case Open => OpenThen(k, s, Pending(id, AsHandle))
    case ReadFile(inlineMax) => OpenThen(k, s, Pending(id, AsRead(inlineMax)))
    case WriteFile(data) => OpenThen(k, s, Pending(id, AsWrite(data)))
    case Close(handle) => HandleClose(k, s, handle, id)
    case _ =>
      if WithFd(s, op.handle).None? then Settle(s, id, Err(BadHandle))
      else HandleFileOp(k, s, id, op, WithFd(s, op.handle).value)
  }

  /** An op on a handle that is open and not being closed. */
  function HandleFileOp(k: Kernel, s: State, id: Id, op: Op, fd: Fd): (r: State)
    requires op.ReadAt? || op.ReadRest? || op.WriteAt? || op.Sync? || op.SetLen? || op.Size?
    ensures SameClients(s, r)
  {
    var a := k(s.tick);
    match op
    case Size(_) => Settle(Ticked(s), id, StatReply(k, s))
    case SetLen(_) =>
      Settle(Ticked(s), id,
             if a.truncateError.Some? then Err(Os(a.truncateError.value)) else Ok(UnitReply))
    case Sync(handle) => Enqueue(k, s, id, Fsync(Some(handle), fd, false))
    case ReadAt(handle, pos, len, external) =>
      if len == 0 then Settle(s, id, Ok(if external then ReadReply(0) else BytesReply([])))
      else Enqueue(k, s, id, SizedRead(handle, fd, pos, len, external))
    case ReadRest(handle, pos) => EnqueueRest(k, Ticked(s), id, Some(handle), fd, pos, a.look.size)
    case WriteAt(handle, pos, data, append) =>
      if data != [] then Enqueue(k, s, id, Write(Some(handle), fd, false, pos, append, data, 0))
      else if !append then Settle(s, id, Ok(WrittenReply(0, pos)))
      else
        var stat := StatReply(k, s);
        Settle(Ticked(s), id,
               if stat.Ok? then Ok(WrittenReply(0, stat.reply.size)) else stat)
  }

  /** The place of a job among the queued ones, or their number. */
  function Place(queue: seq<Job>, id: Id): (i: nat)
    ensures i <= |queue|
    ensures i < |queue| ==> queue[i].id == id
    ensures forall j :: 0 <= j < i ==> queue[j].id != id
  {
    if queue == [] || queue[0].id == id then 0 else 1 + Place(queue[1..], id)
  }

  function FlightPlace(inflight: seq<Flight>, id: Id): (i: nat)
    ensures i <= |inflight|
    ensures i < |inflight| ==> inflight[i].job.id == id
    ensures forall j :: 0 <= j < i ==> inflight[j].job.id != id
  {
    if inflight == [] || inflight[0].job.id == id then 0 else 1 + FlightPlace(inflight[1..], id)
  }

  function HandleCancel(k: Kernel, s: State, id: Id): (r: State)
    ensures SameClients(s, r)
  {
    var i := Place(s.queue, id);
    var j := FlightPlace(s.inflight, id);
    if i < |s.queue| then
      var s1 := Touched(s, Doomed(id)).(
        queue := s.queue[..i] + s.queue[i + 1..],
        dropped := if id in s.firsts then s.dropped else s.dropped + {id});
      Finish(k, s1, s.queue[i], Err(Cancelled))
    else if j < |s.inflight| then
      var flight := s.inflight[j];
      Touched(s, Doomed(id)).(inflight := s.inflight[j := flight.(job := flight.job.(cancelled := true))])
    else if id in s.pendingOpens then
      Touched(s, Doomed(id)).(cancelledOpens := s.cancelledOpens + {id})
    else s
  }

  function HandleMsg(k: Kernel, s: State, msg: Msg): (r: State)
    ensures SameClients(s, r)
  {
    match msg
    case Submit(id, op) => HandleOp(k, s, id, op)
    case Cancel(id) => HandleCancel(k, s, id)
  }

  // ---------------------------------------------------------------------
  // Completions
  // ---------------------------------------------------------------------

  /** A chunk has completed: finish the job, or put it at the front of the
      queue for its next chunk unless it was cancelled. */
  function Advance(k: Kernel, s: State, job: Job, moved: Moved): (r: State)
    ensures SameClients(s, r)
    ensures s.inflight <= r.inflight
  {
    var a := k(s.tick);
    var m := Clamp(job.work, moved);
    var s1 := Recorded(Ticked(s), job.id, Chunk(m, a.look));
    match After(job.work, m, a.look)
    case Done(result) => Finish(k, s1, job, result)
    case More(work) =>
      if job.cancelled then Finish(k, s1, job.(work := work), Err(Cancelled))
      else SubmitReady(k, Pushed(s1, job.(work := work), true))
  }

  function ReapAt(k: Kernel, s: State, i: nat): (r: State)
    requires i < |s.inflight| && s.inflight[i].ret.Some?
    ensures SameClients(s, r)
    ensures SwapRemove(s.inflight, i) <= r.inflight
  {
    var flight := s.inflight[i];
    var s1 := s.(inflight := SwapRemove(s.inflight, i));
    match flight.ret.value
    case Returned(moved) => Advance(k, s1, flight.job, moved)
    case Failed(code) => Finish(k, s1, flight.job, Err(Os(code)))
  }

  // ---------------------------------------------------------------------
  // Runs
  // ---------------------------------------------------------------------

  /** What can happen next, anywhere: four things the driver thread does, the
      discovery that the clients are gone, and what the clients, the helper
      threads and the kernel do. */
  datatype Action =
    | TakeMsg
    | TakeOpened
    | Reap(i: nat)
    | SubmitMore
    | SeeGone
    | ClientSubmits(op: Op)
    | ClientCancels(id: Id)
    | ClientsLeave
    | HelperDoes(i: nat)
    | KernelAnswers(i: nat, ret: Ret)

  predicate Enabled(s: State, action: Action) {
    match action
    case TakeMsg => s.rx != []
    case TakeOpened => s.back != []
    case Reap(i) => i < |s.inflight| && s.inflight[i].ret.Some?
    case SubmitMore => true
    case SeeGone => s.rx == [] && s.clientsGone
    case ClientSubmits(_) => !s.clientsGone
    case ClientCancels(_) => !s.clientsGone
    case ClientsLeave => true
    case HelperDoes(i) => i < |s.toHelpers|
    case KernelAnswers(i, _) => i < |s.inflight| && s.inflight[i].ret.None?
  }

  /** A helper thread carries out one of the jobs it was sent; several helpers
      may finish theirs in any order. */
  function HelperStep(k: Kernel, s: State, i: nat): State
    requires i < |s.toHelpers|
  {
    var s1 := s.(toHelpers := s.toHelpers[..i] + s.toHelpers[i + 1..]);
    match s.toHelpers[i]
    case CloseJob(fd) => CloseRaw(k, s1, fd)
    case OpenJob(pending) =>
      var (s2, result) := OpenNow(k, s1, pending.after);
      s2.(back := s2.back + [Back(pending, result)])
  }

  function Submitted(s: State, op: Op): State {
    s.(rx := s.rx + [Submit(s.nextOp, op)], nextOp := s.nextOp + 1,
       ledger := s.ledger.(ops := s.ledger.ops[s.nextOp := op]))
  }

  /** The kernel has completed a request. */
  function Completed(s: State, i: nat, ret: Ret): State
    requires i < |s.inflight|
  {
    var r := s.(inflight := s.inflight[i := s.inflight[i].(ret := Some(ret))]);
    if ret.Failed? then Touched(r, Failure(s.inflight[i].job.id, ret.code)) else r
  }

  function Do(k: Kernel, s: State, action: Action): State
    requires Enabled(s, action)
  {
    match action
    case TakeMsg => HandleMsg(k, s.(rx := s.rx[1..]), s.rx[0])
    case TakeOpened => HandleOpened(k, s.(back := s.back[1..]), s.back[0])
    case Reap(i) => ReapAt(k, s, i)
    case SubmitMore => SubmitReady(k, s)
    case SeeGone => s.(disconnected := true)
    case ClientSubmits(op) => Submitted(s, op)
    case ClientCancels(id) => s.(rx := s.rx + [Cancel(id)])
    case ClientsLeave => s.(clientsGone := true)
    case HelperDoes(i) => HelperStep(k, s, i)
    case KernelAnswers(i, ret) => Completed(s, i, ret)
  }

  /** A run. An action that is not possible when its turn comes is skipped. */
  function Run(k: Kernel, s: State, actions: seq<Action>): State
    decreases |actions|
  {
    if actions == [] then s
    else Run(k, if Enabled(s, actions[0]) then Do(k, s, actions[0]) else s, actions[1..])
  }
}
