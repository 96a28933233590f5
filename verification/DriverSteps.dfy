/** What one step of the driver comes to, as the clients, the helpers and the
    kernel see it: which ops are answered at once and with what, which become
    jobs, and where an open, a close, a cancel or a chunk goes. */
module DriverSteps {
  import opened Basics
  import opened Transfer
  import opened DriverModel
  import opened DriverCalls
  import opened DriverOwnership
  import opened DriverHistory
  import opened DriverSafety
  import opened DriverAnswers
  import opened DriverLasting
  import opened DriverTheorems

  /** The handle is in the table and not being closed. */
  predicate Live(s: State, h: Handle) { h in s.files && s.files[h].closing.None? }

  /** The op is the next one to be taken. */
  predicate Incoming(s: State, id: Id, op: Op) { s.rx != [] && s.rx[0] == Submit(id, op) }

  /** Nothing but this answer has come of the op, the environment asked `asked` times. */
  predicate JustAnswered(s: State, r: State, id: Id, result: Result, asked: nat)
    requires s.rx != []
  {
    r == s.(rx := s.rx[1..], tick := s.tick + asked, log := s.log + [Settled(id, result)])
  }

  // ---------------------------------------------------------------------
  // Ops that become jobs
  // ---------------------------------------------------------------------

  /** There are bytes to move, or written ones to make last. */
  predicate Transfers(op: Op) {
    match op
    case ReadAt(_, _, len, _) => len > 0
    case ReadRest(_, _) => true
    case WriteAt(_, _, data, _) => data != []
    case Sync(_) => true
    case _ => false
  }

  /** One more op has become a job. */
  predicate OneMore(s: State, r: State, id: Id, w: SoundWork) {
    r.ledger.accepted == s.ledger.accepted[id := w] && r.arrivals == s.arrivals + [id] && r.nextId == s.nextId
  }

  lemma EnqueueAdds(k: Kernel, s: State, id: Id, work: SoundWork)
    ensures OneMore(s, Enqueue(k, s, id, work), id, work)
    ensures Enqueue(k, s, id, work).ledger.sizes == s.ledger.sizes
  {
    var job := Job(id, false, work);
    SubmitReadyOnward(k, Pushed(Accepted(s, job), job, false));
    hide SubmitReady;
  }

  /** Every transfer on a live handle becomes a job on the handle's descriptor: it
      is neither refused nor answered before the kernel has had a chunk of it. */
  lemma TransfersAreQueued(k: Kernel, s: State, id: Id, op: Op)
    requires Reachable(k, s) && Incoming(s, id, op) && Transfers(op) && Live(s, op.handle)
    ensures var r := Do(k, s, TakeMsg);
      && id !in s.ledger.accepted && id in r.ledger.accepted && OneMore(s, r, id, r.ledger.accepted[id])
      && Asked(op, r.ledger.accepted[id], k(s.tick).look.size)
      && r.ledger.accepted[id].fd == s.files[op.handle].fd
      && (op.ReadRest? ==> SizeOf(r.ledger, id) == k(s.tick).look.size)
  {
    assert id !in s.ledger.accepted by { IncomingIsNew(k, s, id, op); }
    hide Reachable, Enqueue;
    var s1, fd := s.(rx := s.rx[1..]), s.files[op.handle].fd;
    match op
    case ReadAt(h, pos, len, external) => EnqueueAdds(k, s1, id, SizedRead(h, fd, pos, len, external));
    case ReadRest(h, pos) =>
      var size := k(s.tick).look.size;
      EnqueueAdds(k, Sized(Ticked(s1), id, size), id, ReadToEnd(Some(h), fd, false, pos, SizeOr(size)));
    case WriteAt(h, pos, data, append) => EnqueueAdds(k, s1, id, Write(Some(h), fd, false, pos, append, data, 0));
    case Sync(h) => EnqueueAdds(k, s1, id, Fsync(Some(h), fd, false));
  }

  lemma IncomingIsNew(k: Kernel, s: State, id: Id, op: Op)
    requires Reachable(k, s) && Incoming(s, id, op)
    ensures id !in s.ledger.accepted && Doomed(id) !in s.trace
  {
    ReachableGood(k, s);
    hide Reachable, OwnInv, LeaveInv, AnswersInv;
    ReceiveHist(s);
    hide CallsInv, CancelInv, GoneLast, ResultsHonest, FifoInv;
  }

  // ---------------------------------------------------------------------
  // Ops that are answered at once
  // ---------------------------------------------------------------------

  function Outcome(error: Option<int>): Result {
    if error.Some? then Err(Os(error.value)) else Ok(UnitReply)
  }

  /** What the kernel's own answer makes of an op that moves nothing. */
  function Immediate(op: Op, a: Answer): Result
    requires op.ReadAt? || op.WriteAt? || op.SetLen? || op.Size?
  {
    match op
    case ReadAt(_, _, _, external) => Ok(if external then ReadReply(0) else BytesReply([]))
    case WriteAt(_, pos, _, append) =>
      if !append then Ok(WrittenReply(0, pos))
      else if a.look.size.Some? then Ok(WrittenReply(0, a.look.size.value))
      else Err(Os(a.look.statError))
    case SetLen(_) => Outcome(a.truncateError)
    case Size(_) => if a.look.size.Some? then Ok(SizeReply(a.look.size.value)) else Err(Os(a.look.statError))
  }

  /** On a live handle the other ops are answered at once, by what the kernel says
      where it is asked; and nothing else happens. */
  lemma OthersAreAnswered(k: Kernel, s: State, id: Id, op: Op)
    requires Incoming(s, id, op) && (op.ReadAt? || op.WriteAt? || op.SetLen? || op.Size?)
    requires Live(s, op.handle) && !Transfers(op)
    ensures var asked := if op.ReadAt? || (op.WriteAt? && !op.append) then 0 else 1;
      JustAnswered(s, Do(k, s, TakeMsg), id, Immediate(op, k(s.tick)), asked)
  {
    hide Enqueue, EnqueueRest;
  }

  /** On a handle that is unknown, gone or being closed every op is refused at
      once; and nothing else happens. */
  lemma OthersAreRefused(k: Kernel, s: State, id: Id, op: Op, h: Handle)
    requires Incoming(s, id, op) && IsOn(op, h) && !Live(s, h)
    ensures JustAnswered(s, Do(k, s, TakeMsg), id, Err(BadHandle), 0)
  {
    hide CloseHandle, HandleFileOp, OpenThen;
  }

  lemma NopIsAnswered(k: Kernel, s: State, id: Id)
    requires Incoming(s, id, Nop)
    ensures JustAnswered(s, Do(k, s, TakeMsg), id, Ok(UnitReply), 0)
  {}

  // ---------------------------------------------------------------------
  // Closes
  // ---------------------------------------------------------------------

  /** The close of a live handle waits while a job is queued or in flight on it,
      and is carried out at once where none is. */
  lemma CloseWaitsForJobs(k: Kernel, s: State, id: Id, h: Handle)
    requires Reachable(k, s) && Incoming(s, id, Close(h)) && Live(s, h)
    ensures var r, fd := Do(k, s, TakeMsg), s.files[h].fd;
      if JobsOn(s, h) > 0 then
        r == s.(rx := s.rx[1..], files := s.files[h := s.files[h].(closing := Some(id))])
      else
        && fd in s.open && h !in r.files
        && r == s.(rx := s.rx[1..], files := s.files - {h}, open := s.open - {fd}, tick := s.tick + 1,
                   log := s.log + [Closed(fd, true), HandleGone(h, id, Outcome(k(s.tick).closeError))])
  {
    HandleStands(k, s, h);
    hide Reachable, JobsOn;
    if JobsOn(s, h) == 0 {
      var r, fd := Do(k, s, TakeMsg), s.files[h].fd;
      assert r.log == s.log + [Closed(fd, true)] + [HandleGone(h, id, Outcome(k(s.tick).closeError))];
    }
  }

  lemma HandleStands(k: Kernel, s: State, h: Handle)
    requires Reachable(k, s) && h in s.files
    ensures s.files[h].ops == JobsOn(s, h) && s.files[h].fd in s.open
  {
    ReachableGood(k, s);
    HandleIsOpen(s, None, h);
    CountedAlone(s, None, h);
  }

  // ---------------------------------------------------------------------
  // Opens
  // ---------------------------------------------------------------------

  predicate NeedsOpen(op: Op) { op.Open? || op.ReadFile? || op.WriteFile? }

  function AfterOf(op: Op): AfterOpen
    requires NeedsOpen(op)
  {
    match op
    case Open => AsHandle
    case ReadFile(inlineMax) => AsRead(inlineMax)
    case WriteFile(data) => AsWrite(data)
  }

  /** What the kernel's answer makes of an open: a descriptor that was not in use,
      with the file size unless the op writes a fresh file; without a size there
      is no descriptor either. */
  function OpenOf(a: Answer, open: set<Fd>, after: AfterOpen): OpenResult {
    if a.openResult.NotOpened? then a.openResult
    else if a.openResult.fd in open then NotOpened(0)
    else if after.AsWrite? then Opened(a.openResult.fd, 0)
    else if a.look.size.Some? then Opened(a.openResult.fd, a.look.size.value)
    else NotOpened(a.look.statError)
  }

  /** What has become of an op once its open is done: it failed with that error;
      it is answered with a new handle, for that descriptor and size; or it is a
      job on its own descriptor. */
  predicate OpenDone(s: State, r: State, id: Id, after: AfterOpen, result: OpenResult) {
    match result
    case NotOpened(code) =>
      && r.log != [] && Latest(r.log) == Settled(id, Err(Os(code)))
      && r.files == s.files && r.nextId == s.nextId && r.ledger == s.ledger
    case Opened(fd, size) =>
      if after.AsHandle? || (after.AsRead? && size > after.inlineMax) then
        && r.log != [] && Latest(r.log) == Settled(id, Ok(HandleReply(s.nextId, size, fd)))
        && r.files == s.files[s.nextId := Entry(fd, 0, None)] && r.nextId == s.nextId + 1 && r.ledger == s.ledger
      else if after.AsRead? then
        && OneMore(s, r, id, ReadToEnd(None, fd, true, 0, size)) && SizeOf(r.ledger, id) == Some(size)
      else OneMore(s, r, id, Write(None, fd, true, 0, false, after.data, 0))
  }

  lemma OpenNowIs(k: Kernel, s: State, after: AfterOpen)
    ensures var (r, result) := OpenNow(k, s, after);
      && result == OpenOf(k(s.tick), s.open, after) && s.log <= r.log
      && r.open == (if result.Opened? then s.open + {result.fd} else s.open)
      && r == s.(open := r.open, tick := r.tick, log := r.log)
  {
    var a := k(s.tick);
    assert a.openResult.Opened? && a.openResult.fd !in s.open ==>
      s.open + {a.openResult.fd} - {a.openResult.fd} == s.open;
  }

  lemma AfterOpenedIs(k: Kernel, s: State, pending: Pending, result: OpenResult)
    ensures OpenDone(s, AfterOpened(k, s, pending, result), pending.id, pending.after, result)
  {
    hide Enqueue;
    match result
    case NotOpened(_) =>
    case Opened(fd, size) =>
      match pending.after
      case AsHandle =>
      case AsRead(inlineMax) =>
        EnqueueAdds(k, Sized(s, pending.id, Some(size)), pending.id, ReadToEnd(None, fd, true, 0, size));
      case AsWrite(data) => EnqueueAdds(k, s, pending.id, Write(None, fd, true, 0, false, data, 0));
  }

  /** An open with something waiting behind it goes to a helper; with nothing
      waiting it is done here and now. */
  lemma OpensHereOrAtHelper(k: Kernel, s: State, id: Id, op: Op)
    requires Incoming(s, id, op) && NeedsOpen(op)
    ensures var r := Do(k, s, TakeMsg);
      if |s.rx| > 1 || k(s.tick).arrived || s.queue != [] || s.pendingOpens != {} then
        r == s.(rx := s.rx[1..], tick := s.tick + 1, pendingOpens := s.pendingOpens + {id},
                toHelpers := s.toHelpers + [OpenJob(Pending(id, AfterOf(op)))])
      else
        OpenDone(s, r, id, AfterOf(op), OpenOf(k(s.tick + 1), s.open, AfterOf(op)))
  {
    hide OpenNow, AfterOpened;
    var s1 := Ticked(s.(rx := s.rx[1..]));
    var pending := Pending(id, AfterOf(op));
    OpenNowIs(k, s1, pending.after);
    var (s2, result) := OpenNow(k, s1, pending.after);
    AfterOpenedIs(k, s2, pending, result);
  }

  /** A helper opens the file and sends what came of it back, or closes the
      descriptor. */
  lemma HelpersAnswer(k: Kernel, s: State, i: nat)
    requires Reachable(k, s) && i < |s.toHelpers|
    ensures var r := Do(k, s, HelperDoes(i));
      match s.toHelpers[i]
      case OpenJob(pending) =>
        var result := OpenOf(k(s.tick), s.open, pending.after);
        && r.back == s.back + [Back(pending, result)]
        && r.open == (if result.Opened? then s.open + {result.fd} else s.open)
      case CloseJob(fd) => r.open == s.open - {fd} && r.log == s.log + [Closed(fd, true)] && r.back == s.back
  {
    hide OpenNow;
    var s1 := s.(toHelpers := s.toHelpers[..i] + s.toHelpers[i + 1..]);
    match s.toHelpers[i]
    case OpenJob(pending) => OpenNowIs(k, s1, pending.after);
    case CloseJob(fd) => SentCloseIsOpen(k, s, i);
  }

  lemma SentCloseIsOpen(k: Kernel, s: State, i: nat)
    requires Reachable(k, s) && i < |s.toHelpers| && s.toHelpers[i].CloseJob?
    ensures s.toHelpers[i].fd in s.open
  {
    ReachableGood(k, s);
    var fd := s.toHelpers[i].fd;
    assert Surplus(s, fd) + HandOwns(None, fd) == 0;
    SumAtLeast(s.toHelpers, i, HelperCloses(fd));
  }

  /** An open that comes back for an op nobody cancelled is done; for a cancelled
      one its descriptor is closed, and the op answered so. */
  lemma OpensComeBack(k: Kernel, s: State)
    requires Reachable(k, s) && s.back != []
    ensures var r, back := Do(k, s, TakeOpened), s.back[0];
      var id := back.pending.id;
      if Doomed(id) !in s.trace then OpenDone(s, r, id, back.pending.after, back.result)
      else
        && r.log != [] && Latest(r.log) == Settled(id, Err(Cancelled))
        && r.open == (if back.result.Opened? then s.open - {back.result.fd} else s.open)
        && r.files == s.files && r.nextId == s.nextId && r.ledger == s.ledger
  {
    var back := s.back[0];
    var id := back.pending.id;
    assert id in s.cancelledOpens <==> Doomed(id) in s.trace by {
      ReachableGood(k, s);
      TakeBackHist(s);
    }
    hide Reachable, AfterOpened;
    if id !in s.cancelledOpens {
      AfterOpenedIs(k, s.(back := s.back[1..], pendingOpens := s.pendingOpens - {id}), back.pending, back.result);
    }
  }

  // ---------------------------------------------------------------------
  // Cancels
  // ---------------------------------------------------------------------

  lemma FinishEnds(k: Kernel, s: State, job: Job, result: Result)
    ensures var r := Finish(k, s, job, result);
      Settled(job.id, result) in r.log && r.trace == s.trace && r.ledger == s.ledger
  {
    hide CloseOwned, Release;
    CloseOwnedEnds(k, s, job.work.fd);
    var s1 := if job.work.owned then CloseOwned(k, s, job.work.fd) else s;
    var s2 := Emit(s1, Settled(job.id, result));
    assert s2.log[|s1.log|] == Settled(job.id, result);
    if job.work.handle.Some? && job.work.handle.value in s2.files {
      ReleaseEnds(k, s2, job.work.handle.value);
      assert Release(k, s2, job.work.handle.value).log[|s1.log|] == s2.log[|s1.log|];
    }
  }

  lemma CloseOwnedEnds(k: Kernel, s: State, fd: Fd)
    ensures var r := CloseOwned(k, s, fd); r.trace == s.trace && r.ledger == s.ledger
  {}

  lemma ReleaseEnds(k: Kernel, s: State, h: Handle)
    requires h in s.files
    ensures var r := Release(k, s, h); s.log <= r.log && r.trace == s.trace && r.ledger == s.ledger
  {}

  /** A cancel takes a queued job out of the queue and answers it. */
  lemma QueuedIsCancelled(k: Kernel, s: State, i: nat)
    requires Reachable(k, s) && s.rx != [] && i < |s.queue| && s.rx[0] == Cancel(s.queue[i].id)
    ensures var r, id := Do(k, s, TakeMsg), s.queue[i].id;
      && Settled(id, Err(Cancelled)) in r.log && Doomed(id) in r.trace
      && r.queue == s.queue[..i] + s.queue[i + 1..] && r.inflight == s.inflight
  {
    var id := s.queue[i].id;
    assert Place(s.queue, id) == i by {
      ReachableGood(k, s);
      QueuedAlone(s, i);
    }
    hide Reachable, Finish;
    FinishEnds(k, Dropped(s.(rx := s.rx[1..]), i), s.queue[i], Err(Cancelled));
  }

  /** A cancel marks a request in flight and an open that is out, answering
      nothing yet, and does nothing for any other op. */
  lemma OthersAreMarked(k: Kernel, s: State, id: Id)
    requires Reachable(k, s) && s.rx != [] && s.rx[0] == Cancel(id)
    requires forall i :: 0 <= i < |s.queue| ==> s.queue[i].id != id
    ensures var r, s1 := Do(k, s, TakeMsg), s.(rx := s.rx[1..]);
      if exists j :: 0 <= j < |s.inflight| && s.inflight[j].job.id == id then
        && r == s1.(trace := s.trace + [Doomed(id)], inflight := r.inflight)
        && |r.inflight| == |s.inflight| && forall j :: 0 <= j < |s.inflight| ==>
          Marked(s.inflight[j], id, r.inflight[j])
      else if Opening(s, id) > 0 then
        r == s1.(trace := s.trace + [Doomed(id)], cancelledOpens := s.cancelledOpens + {id})
      else r == s1
  {
    FlightsApart(k, s);
    CancelMarks(k, s);
    hide Reachable, Finish, Opening;
  }

  lemma FlightsApart(k: Kernel, s: State)
    requires Reachable(k, s)
    ensures forall i, j :: 0 <= i < j < |s.inflight| ==> s.inflight[i].job.id != s.inflight[j].job.id
  {
    ReachableGood(k, s);
    forall i, j | 0 <= i < j < |s.inflight| ensures s.inflight[i].job.id != s.inflight[j].job.id { OneFlight(s, i, j); }
  }

  // ---------------------------------------------------------------------
  // The queue
  // ---------------------------------------------------------------------

  /** A job by plain calls from moment `t` on: the chunks the kernel returns, one
      after the other, up to the one that ends the job or a call that fails. */
  datatype Plain = Plain(chunks: seq<Chunk>, result: Result)

  function PlainCalls(k: Kernel, w: SoundWork, t: nat): Plain
    decreases Growable(w), Remaining(w)
  {
    if k(t).failed.Some? then Plain([], Err(Os(k(t).failed.value)))
    else
      var chunk := Chunk(Clamp(w, k(t).moved), k(t).look);
      match After(w, chunk.moved, chunk.look)
      case Done(result) => Plain([chunk], result)
      case More(next) =>
        Progress(w, chunk.moved, chunk.look);
        var rest := PlainCalls(k, next, t + 1);
        rest.(chunks := [chunk] + rest.chunks)
  }

  lemma {:induction false} ExecuteSyncIsPlain(k: Kernel, s: State, job: Job)
    ensures var r, plain := ExecuteSync(k, s, job), PlainCalls(k, job.work, s.tick);
      && Settled(job.id, plain.result) in r.log
      && ChunksOf(r.ledger.chunks, job.id) == ChunksOf(s.ledger.chunks, job.id) + plain.chunks
      && s.trace + [Issued(job.id)] <= r.trace
    decreases Growable(job.work), Remaining(job.work)
  {
    hide Finish;
    var a := k(s.tick);
    var s1 := Ticked(Touched(s, Issued(job.id)));
    if a.failed.Some? {
      FinishEnds(k, Touched(s1, Refusal(job.id, a.failed.value)), job, Err(Os(a.failed.value)));
    } else {
      var m := Clamp(job.work, a.moved);
      var s2 := Recorded(s1, job.id, Chunk(m, a.look));
      match After(job.work, m, a.look)
      case Done(result) => FinishEnds(k, s2, job, result);
      case More(work) =>
        Progress(job.work, m, a.look);
        ExecuteSyncIsPlain(k, s2, job.(work := work));
        Joined(ChunksOf(s.ledger.chunks, job.id), Chunk(m, a.look), PlainCalls(k, work, s2.tick).chunks);
    }
  }

  lemma Joined(before: seq<Chunk>, chunk: Chunk, rest: seq<Chunk>)
    ensures before + [chunk] + rest == before + ([chunk] + rest)
  {}

  /** What becomes of the job in front when there is a slot for it, by the
      kernel's answer at moment `t`: the kernel takes it, refuses it, or has to be
      asked again later; or, with nothing in flight to wait for, the job is run to
      its end by plain calls. */
  predicate FrontTaken(k: Kernel, t: nat, s: State, r: State)
    requires s.queue != []
  {
    var job := s.queue[0];
    match k(t).accept
    case Taken =>
      && |r.inflight| > |s.inflight| && r.inflight[|s.inflight|] == Flight(job, None)
      && s.trace + [Issued(job.id)] <= r.trace
    case Again =>
      if s.inflight != [] then r == s.(tick := t + 1)
      else
        var plain := PlainCalls(k, job.work, t + 1);
        && Settled(job.id, plain.result) in r.log && s.trace + [Issued(job.id)] <= r.trace
        && ChunksOf(s.ledger.chunks, job.id) + plain.chunks <= ChunksOf(r.ledger.chunks, job.id)
    case Refused(code) => Settled(job.id, Err(Os(code))) in r.log
  }

  lemma SubmitJobStarts(k: Kernel, s: State, job: Job)
    requires !IsFull(k, s)
    ensures var r := SubmitJob(k, s, job);
      match k(s.tick).accept
      case Taken => r.inflight == s.inflight + [Flight(job, None)] && r.trace == s.trace + [Issued(job.id)]
      case Again =>
        var plain := PlainCalls(k, job.work, s.tick + 1);
        && Settled(job.id, plain.result) in r.log && s.trace + [Issued(job.id)] <= r.trace
        && ChunksOf(r.ledger.chunks, job.id) == ChunksOf(s.ledger.chunks, job.id) + plain.chunks
      case Refused(code) => Settled(job.id, Err(Os(code))) in r.log
  {
    hide Finish, ExecuteSync, PlainCalls;
    var s1 := WithFirst(Ticked(s), job.id);
    match k(s.tick).accept
    case Taken =>
    case Again => ExecuteSyncIsPlain(k, s1, job);
    case Refused(code) => FinishEnds(k, Touched(s1, Refusal(job.id, code)), job, Err(Os(code)));
  }

  lemma FrontIsTaken(k: Kernel, s: State)
    requires s.queue != [] && |s.inflight| < s.maxInflight
    ensures FrontTaken(k, s.tick, s, SubmitReady(k, s))
  {
    hide SubmitJob, PlainCalls, Onward;
    if !IsFull(k, s) {
      var job, popped := s.queue[0], s.(queue := s.queue[1..]);
      var s1 := SubmitJob(k, popped, job);
      assert SubmitReady(k, s) == SubmitReady(k, s1);
      SubmitJobStarts(k, popped, job);
      SubmitReadyOnward(k, s1);
      var r := SubmitReady(k, s1);
      assert s1.inflight <= r.inflight;
      hide SubmitReady;
      match k(s.tick).accept
      case Taken =>
        StillSo(s1, r, Settled(job.id, Ok(UnitReply)), job.id);
        assert r.inflight[|s.inflight|] == s1.inflight[|s.inflight|];
      case Again => StillSo(s1, r, Settled(job.id, PlainCalls(k, job.work, s.tick + 1).result), job.id);
      case Refused(code) => StillSo(s1, r, Settled(job.id, Err(Os(code))), job.id);
    }
  }

  /** What history says it goes on saying. */
  lemma StillSo(s: State, r: State, event: Event, x: Id)
    requires Onward(s, r)
    ensures s.trace <= r.trace && (event in s.log ==> event in r.log)
    ensures ChunksOf(s.ledger.chunks, x) <= ChunksOf(r.ledger.chunks, x)
  {
    if event in s.log {
      var i :| 0 <= i < |s.log| && s.log[i] == event;
      assert r.log[i] == event;
    }
  }

  /** Whenever the driver looks at the queue with a slot free, the job in front
      is the next to go. */
  lemma QueueIsServed(k: Kernel, s: State)
    requires s.queue != [] && |s.inflight| < s.maxInflight
    ensures FrontTaken(k, s.tick, s, Do(k, s, SubmitMore))
  {
    hide SubmitReady;
    FrontIsTaken(k, s);
  }

  // ---------------------------------------------------------------------
  // Chunks
  // ---------------------------------------------------------------------

  /** What becomes of a job whose chunk is recorded in `s`. */
  predicate GoesOn(k: Kernel, s: State, r: State, job: Job, step: Step)
    requires step.More? ==> WellFormed(step.work)
  {
    match step
    case Done(result) => Settled(job.id, result) in r.log
    case More(work) =>
      if job.cancelled then Settled(job.id, Err(Cancelled)) in r.log
      else FrontTaken(k, s.tick, s.(queue := [job.(work := work)] + s.queue), r)
  }

  lemma AdvanceGoesOn(k: Kernel, s: State, job: Job, moved: Moved)
    requires |s.inflight| < s.maxInflight
    ensures var chunk, r := Chunk(Clamp(job.work, moved), k(s.tick).look), Advance(k, s, job, moved);
      && GoesOn(k, Recorded(Ticked(s), job.id, chunk), r, job, After(job.work, chunk.moved, chunk.look))
      && ChunksOf(s.ledger.chunks, job.id) + [chunk] <= ChunksOf(r.ledger.chunks, job.id)
  {
    var m, look := Clamp(job.work, moved), k(s.tick).look;
    var s1 := Recorded(Ticked(s), job.id, Chunk(m, look));
    assert ChunksOf(s1.ledger.chunks, job.id) == ChunksOf(s.ledger.chunks, job.id) + [Chunk(m, look)];
    hide Finish, SubmitReady, Recorded, FrontTaken, After;
    match After(job.work, m, look)
    case Done(result) => FinishEnds(k, s1, job, result);
    case More(work) =>
      if job.cancelled {
        FinishEnds(k, s1, job.(work := work), Err(Cancelled));
      } else {
        var s2 := Pushed(s1, job.(work := work), true);
        FrontIsTaken(k, s2);
        SubmitReadyOnward(k, s2);
        StillSo(s2, SubmitReady(k, s2), Settled(job.id, Ok(UnitReply)), job.id);
      }
  }

  /** A request that failed answers its op with that error. A chunk that was
      returned is recorded: if it ends the job that is answered with the result;
      if it does not, what is left is put in front of the queue, where it is the
      next to go, or a cancelled op is answered so. */
  lemma ChunksAreTaken(k: Kernel, s: State, i: nat)
    requires Reachable(k, s) && i < |s.inflight| && s.inflight[i].ret.Some?
    ensures var r, job := Do(k, s, Reap(i)), s.inflight[i].job;
      && (Doomed(job.id) in s.trace <==> job.cancelled)
      && match s.inflight[i].ret.value
         case Failed(code) => Settled(job.id, Err(Os(code))) in r.log
         case Returned(moved) =>
           var chunk := Chunk(Clamp(job.work, moved), k(s.tick).look);
           && ChunksOf(s.ledger.chunks, job.id) + [chunk] <= ChunksOf(r.ledger.chunks, job.id)
           && GoesOn(k, Recorded(Ticked(LandedAt(s, i)), job.id, chunk), r, job,
                     After(job.work, chunk.moved, chunk.look))
  {
    var job := s.inflight[i].job;
    assert |s.inflight| <= s.maxInflight && (Doomed(job.id) in s.trace <==> job.cancelled) by {
      ReachableGood(k, s);
      LandHist(s, i);
    }
    hide Reachable, Finish, Advance, GoesOn, Recorded, After;
    match s.inflight[i].ret.value
    case Failed(code) => FinishEnds(k, LandedAt(s, i), job, Err(Os(code)));
    case Returned(moved) => AdvanceGoesOn(k, LandedAt(s, i), job, moved);
  }

  /** The request ends its job with this result; the environment is asked next at
      `tick`. */
  predicate EndsJob(k: Kernel, s: State, i: nat, result: Result, tick: nat)
    requires i < |s.inflight| && s.inflight[i].ret.Some?
  {
    var work := s.inflight[i].job.work;
    match s.inflight[i].ret.value
    case Failed(code) => result == Err(Os(code)) && tick == s.tick
    case Returned(moved) =>
      After(work, Clamp(work, moved), k(s.tick).look) == Done(result) && tick == s.tick + 1
  }

  /** The state in which the request's job comes to its end. */
  function EndingAt(k: Kernel, s: State, i: nat): State
    requires i < |s.inflight| && s.inflight[i].ret.Some?
  {
    var job := s.inflight[i].job;
    match s.inflight[i].ret.value
    case Failed(_) => LandedAt(s, i)
    case Returned(moved) =>
      Recorded(Ticked(LandedAt(s, i)), job.id, Chunk(Clamp(job.work, moved), k(s.tick).look))
  }

  lemma ReapEnds(k: Kernel, s: State, i: nat, result: Result, tick: nat)
    requires i < |s.inflight| && s.inflight[i].ret.Some? && EndsJob(k, s, i, result, tick)
    ensures Do(k, s, Reap(i)) == Finish(k, EndingAt(k, s, i), s.inflight[i].job, result)
    ensures var e := EndingAt(k, s, i);
      e.tick == tick && e == s.(inflight := e.inflight, tick := tick, ledger := e.ledger)
  {
    hide Finish;
  }

  lemma FinishOnHandle(k: Kernel, s: State, job: Job, result: Result, h: Handle)
    requires !job.work.owned && job.work.handle == Some(h) && h in s.files && s.files[h].fd in s.open
    ensures var r, entry := Finish(k, s, job, result), s.files[h];
      if entry.ops <= 1 && entry.closing.Some? then
        && r.files == s.files - {h} && r.open == s.open - {entry.fd}
        && r.log == s.log + [Settled(job.id, result), Closed(entry.fd, true),
                             HandleGone(h, entry.closing.value, Outcome(k(s.tick).closeError))]
      else
        && r.files == s.files[h := entry.(ops := entry.ops - 1)] && r.open == s.open
        && r.log == s.log + [Settled(job.id, result)]
  {}

  /** The end of a job counts it off its handle; the last one carries out a close
      that waits for it. */
  lemma LastJobCloses(k: Kernel, s: State, i: nat, result: Result, tick: nat, h: Handle)
    requires Reachable(k, s) && i < |s.inflight| && s.inflight[i].ret.Some? && EndsJob(k, s, i, result, tick)
    requires s.inflight[i].job.work.handle == Some(h)
    ensures h in s.files && JobsOn(s, h) > 0
    ensures var r, id, entry := Do(k, s, Reap(i)), s.inflight[i].job.id, s.files[h];
      if JobsOn(s, h) == 1 && entry.closing.Some? then
        && r.files == s.files - {h} && r.open == s.open - {entry.fd}
        && r.log == s.log + [Settled(id, result), Closed(entry.fd, true),
                             HandleGone(h, entry.closing.value, Outcome(k(tick).closeError))]
      else
        && r.files == s.files[h := entry.(ops := JobsOn(s, h) - 1)] && r.open == s.open
        && r.log == s.log + [Settled(id, result)]
  {
    var job := s.inflight[i].job;
    JobsUseOpenDescriptors(k, s, job);
    HandleStands(k, s, h);
    SumAtLeast(s.inflight, i, FlightOn(h));
    OnHandle(k, s, i);
    hide Reachable, JobsOn, Finish, Do, EndsJob, EndingAt;
    ReapEnds(k, s, i, result, tick);
    FinishOnHandle(k, EndingAt(k, s, i), job, result, h);
  }

  lemma OnHandle(k: Kernel, s: State, i: nat)
    requires Reachable(k, s) && i < |s.inflight|
    ensures s.inflight[i].job.work.owned <==> s.inflight[i].job.work.handle.None?
  {
    ReachableGood(k, s);
    hide Hist;
  }

  /** The end of a job with its own descriptor closes that here, or, with anything
      waiting, through a helper. */
  lemma OwnedJobCloses(k: Kernel, s: State, i: nat, result: Result, tick: nat)
    requires Reachable(k, s) && i < |s.inflight| && s.inflight[i].ret.Some? && EndsJob(k, s, i, result, tick)
    requires s.inflight[i].job.work.handle == None
    ensures var r, id, fd := Do(k, s, Reap(i)), s.inflight[i].job.id, s.inflight[i].job.work.fd;
      if s.rx != [] || k(tick).arrived || s.queue != [] || s.pendingOpens != {} then
        && r.toHelpers == s.toHelpers + [CloseJob(fd)] && r.open == s.open
        && r.log == s.log + [Settled(id, result)]
      else
        && r.toHelpers == s.toHelpers && fd in s.open && r.open == s.open - {fd}
        && r.log == s.log + [Closed(fd, true), Settled(id, result)]
  {
    JobsUseOpenDescriptors(k, s, s.inflight[i].job);
    OnHandle(k, s, i);
    hide Reachable, Do, EndsJob, EndingAt;
    ReapEnds(k, s, i, result, tick);
  }
}
