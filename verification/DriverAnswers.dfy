/** Every answer is an answer to what was asked: the work the driver queues, the
    opens it sends out, the closes it defers and the results it hands back are
    those of the ops the clients submitted. */
module DriverAnswers {
  import opened Basics
  import opened Transfer
  import opened DriverModel
  import opened DriverOwnership

  /** The work an op is queued with, a read to the end by the file size `fstat`
      gave: nothing being left if it gave none. */
  predicate Asked(op: Op, w: Work, size: Option<nat>) {
    match op
    case ReadAt(handle, pos, len, external) => len > 0 && w == SizedRead(handle, w.fd, pos, len, external)
    case ReadRest(handle, pos) => w == ReadToEnd(Some(handle), w.fd, false, pos, SizeOr(size))
    case WriteAt(handle, pos, data, append) => data != [] && w == Write(Some(handle), w.fd, false, pos, append, data, 0)
    case Sync(handle) => w == Fsync(Some(handle), w.fd, false)
    case ReadFile(inlineMax) =>
      size.Some? && size.value <= inlineMax && w == ReadToEnd(None, w.fd, true, 0, size.value)
    case WriteFile(data) => w == Write(None, w.fd, true, 0, false, data, 0)
    case _ => false
  }

  function SizeOf(ledger: Ledger, x: Id): Option<nat> { if x in ledger.sizes then ledger.sizes[x] else None }

  /** A read to the end. */
  predicate ReadsOn(op: Op) { op.ReadRest? || op.ReadFile? }

  /** An accepted op's work is what it asked for, and `fstat` was asked before a
      read to the end. */
  predicate Fair(ledger: Ledger, x: Id) {
    x in ledger.accepted ==>
      && x in ledger.ops && Asked(ledger.ops[x], ledger.accepted[x], SizeOf(ledger, x))
      && (ReadsOn(ledger.ops[x]) ==> x in ledger.sizes)
  }

  /** What an op that was never queued may be answered with. */
  predicate Direct(op: Op, result: Result) {
    match op
    case Nop => result == Ok(UnitReply)
    case Open => result.Ok? ==> result.reply.HandleReply?
    case ReadAt(_, _, len, external) =>
      result.Ok? ==> len == 0 && result.reply == (if external then ReadReply(0) else BytesReply([]))
    case WriteAt(_, pos, data, append) =>
      result.Ok? ==>
        data == [] && result.reply.WrittenReply? && result.reply.n == 0 && (!append ==> result.reply.end == pos)
    case SetLen(_) => result.Ok? ==> result.reply == UnitReply
    case Size(_) => result.Ok? ==> result.reply.SizeReply?
    case ReadFile(inlineMax) => result.Ok? ==> result.reply.HandleReply? && result.reply.size > inlineMax
    case Close(_) => result == Err(BadHandle)
    case _ => result.Err?
  }

  predicate Is(ops: map<Id, Op>, id: Id, op: Op) { id in ops && ops[id] == op }

  predicate Answered(ledger: Ledger, event: Event) {
    match event
    case Settled(id, result) => id in ledger.ops && (id in ledger.accepted || Direct(ledger.ops[id], result))
    case HandleGone(handle, id, _) => Is(ledger.ops, id, Close(handle))
    case Closed(_, _) => true
  }

  /** The open is one the op needs. */
  predicate Fits(ops: map<Id, Op>, pending: Pending) {
    match pending.after
    case AsHandle => Is(ops, pending.id, Open)
    case AsRead(inlineMax) => Is(ops, pending.id, ReadFile(inlineMax))
    case AsWrite(data) => Is(ops, pending.id, WriteFile(data))
  }

  ghost predicate WaitingFits(s: State) {
    && (forall i :: 0 <= i < |s.rx| && s.rx[i].Submit? ==> Is(s.ledger.ops, s.rx[i].id, s.rx[i].op))
    && (forall i :: 0 <= i < |s.toHelpers| && s.toHelpers[i].OpenJob? ==> Fits(s.ledger.ops, s.toHelpers[i].pending))
    && (forall i :: 0 <= i < |s.back| ==> Fits(s.ledger.ops, s.back[i].pending))
    && (forall h :: h in s.files && s.files[h].closing.Some? ==> Is(s.ledger.ops, s.files[h].closing.value, Close(h)))
    && (forall x :: x in s.ledger.ops ==> x < s.nextOp)
  }

  ghost predicate WorkFits(s: State) {
    && (forall x :: x in s.ledger.accepted ==> Fair(s.ledger, x))
    && (forall i :: 0 <= i < |s.queue| ==> s.queue[i].id in s.ledger.accepted)
    && (forall i :: 0 <= i < |s.inflight| ==> s.inflight[i].job.id in s.ledger.accepted)
  }

  /** Where one op's work is about to be entered. */
  ghost predicate WorkFitsBut(s: State, id: Id) {
    && (forall x :: x in s.ledger.accepted && x != id ==> Fair(s.ledger, x))
    && (forall i :: 0 <= i < |s.queue| ==> s.queue[i].id in s.ledger.accepted)
    && (forall i :: 0 <= i < |s.inflight| ==> s.inflight[i].job.id in s.ledger.accepted)
  }

  ghost predicate LogFits(s: State) {
    forall i :: 0 <= i < |s.log| ==> Answered(s.ledger, s.log[i])
  }

  ghost predicate AnswersInv(s: State) { WaitingFits(s) && WorkFits(s) && LogFits(s) }

  // ---------------------------------------------------------------------
  // Settling and submitting
  // ---------------------------------------------------------------------

  lemma EmitAnswers(s: State, event: Event)
    requires AnswersInv(s) && Answered(s.ledger, event)
    ensures AnswersInv(Emit(s, event))
  {
    hide Is, Fits, Fair, Answered;
  }

  lemma CloseRawAnswers(k: Kernel, s: State, fd: Fd)
    requires AnswersInv(s)
    ensures AnswersInv(CloseRaw(k, s, fd))
    ensures CloseRaw(k, s, fd).ledger == s.ledger
  {
    EmitAnswers(s, Closed(fd, fd in s.open));
    hide Is, Fits, Fair, Answered;
  }

  lemma CloseOwnedAnswers(k: Kernel, s: State, fd: Fd)
    requires AnswersInv(s)
    ensures AnswersInv(CloseOwned(k, s, fd))
    ensures CloseOwned(k, s, fd).ledger == s.ledger
  {
    hide Is, Fits, Fair, Answered, CloseRaw;
    CloseRawAnswers(k, Ticked(s), fd);
  }

  lemma CloseHandleAnswers(k: Kernel, s: State, h: Handle, fd: Fd, id: Id)
    requires AnswersInv(s) && Is(s.ledger.ops, id, Close(h))
    ensures AnswersInv(CloseHandle(k, s, h, fd, id))
  {
    hide Is, Fits, Fair, CloseRaw;
    var s1 := s.(files := s.files - {h});
    CloseRawAnswers(k, s1, fd);
    EmitAnswers(CloseRaw(k, s1, fd), HandleGone(h, id, CloseResult(k, s1, fd)));
    hide WaitingFits, WorkFits, LogFits;
  }

  lemma ReleaseAnswers(k: Kernel, s: State, h: Handle)
    requires AnswersInv(s) && h in s.files
    ensures AnswersInv(Release(k, s, h))
  {
    hide Is, Fits, Fair, Answered, CloseHandle;
    var entry := s.files[h].(ops := s.files[h].ops - 1);
    if entry.ops <= 0 && entry.closing.Some? { CloseHandleAnswers(k, s, h, entry.fd, entry.closing.value); }
  }

  lemma FinishAnswers(k: Kernel, s: State, job: Job, result: Result)
    requires AnswersInv(s) && job.id in s.ledger.accepted
    ensures AnswersInv(Finish(k, s, job, result))
  {
    assert job.id in s.ledger.ops by { assert Fair(s.ledger, job.id); }
    hide Is, Fits, Fair, CloseOwned, Release, WaitingFits, LogFits;
    CloseOwnedAnswers(k, s, job.work.fd);
    var s1 := if job.work.owned then CloseOwned(k, s, job.work.fd) else s;
    EmitAnswers(s1, Settled(job.id, result));
    var s2 := Emit(s1, Settled(job.id, result));
    hide WorkFits;
    if job.work.handle.Some? && job.work.handle.value in s2.files { ReleaseAnswers(k, s2, job.work.handle.value); }
  }

  /** The channels, the handle table, the clients' ops and the work they were
      queued with are as they were, and the log; and so are the jobs. */
  lemma SameAnswers(s: State, s': State)
    requires AnswersInv(s)
    requires s' == s.(tick := s'.tick, trace := s'.trace, firsts := s'.firsts, dropped := s'.dropped, open := s'.open,
                      pendingOpens := s'.pendingOpens, cancelledOpens := s'.cancelledOpens,
                      clientsGone := s'.clientsGone, disconnected := s'.disconnected, ledger := s'.ledger)
    requires s'.ledger == s.ledger.(chunks := s'.ledger.chunks)
    ensures AnswersInv(s')
  {
    hide Is, Fits, Asked;
  }

  lemma {:induction false} ExecuteSyncAnswers(k: Kernel, s: State, job: Job)
    requires AnswersInv(s) && job.id in s.ledger.accepted
    ensures AnswersInv(ExecuteSync(k, s, job))
    decreases Growable(job.work), Remaining(job.work)
  {
    hide AnswersInv, Finish;
    var a := k(s.tick);
    var s1 := Ticked(Touched(s, Issued(job.id)));
    SameAnswers(s, s1);
    if a.failed.Some? {
      var s2 := Touched(s1, Refusal(job.id, a.failed.value));
      SameAnswers(s1, s2);
      FinishAnswers(k, s2, job, Err(Os(a.failed.value)));
    } else {
      var m := Clamp(job.work, a.moved);
      var s2 := Recorded(s1, job.id, Chunk(m, a.look));
      SameAnswers(s1, s2);
      match After(job.work, m, a.look)
      case Done(result) => FinishAnswers(k, s2, job, result);
      case More(work) =>
        Progress(job.work, m, a.look);
        ExecuteSyncAnswers(k, s2, job.(work := work));
    }
  }

  lemma TakenAnswers(s: State, job: Job)
    requires AnswersInv(s) && job.id in s.ledger.accepted
    ensures AnswersInv(Touched(s, Issued(job.id)).(inflight := s.inflight + [Flight(job, None)]))
  {
    hide Is, Fits, Fair, Answered;
  }

  lemma SubmitJobAnswers(k: Kernel, s: State, job: Job)
    requires AnswersInv(s) && job.id in s.ledger.accepted && !IsFull(k, s)
    ensures AnswersInv(SubmitJob(k, s, job))
  {
    hide AnswersInv, Finish, ExecuteSync;
    var s1 := WithFirst(Ticked(s), job.id);
    SameAnswers(s, s1);
    match k(s.tick).accept
    case Taken => TakenAnswers(s1, job);
    case Again => ExecuteSyncAnswers(k, s1, job);
    case Refused(code) =>
      SameAnswers(s1, Touched(s1, Refusal(job.id, code)));
      FinishAnswers(k, Touched(s1, Refusal(job.id, code)), job, Err(Os(code)));
  }

  lemma PopAnswers(s: State)
    requires AnswersInv(s) && s.queue != []
    ensures AnswersInv(s.(queue := s.queue[1..])) && s.queue[0].id in s.ledger.accepted
  {
    hide Is, Fits, Fair, Answered;
  }

  lemma {:induction false} SubmitReadyAnswers(k: Kernel, s: State)
    requires AnswersInv(s)
    ensures AnswersInv(SubmitReady(k, s))
    decreases |s.queue|
  {
    hide AnswersInv, SubmitJob;
    if |s.inflight| >= s.maxInflight || s.queue == [] {
    } else if IsFull(k, s) {
      SameAnswers(s, Ticked(s));
    } else {
      var s1 := s.(queue := s.queue[1..]);
      PopAnswers(s);
      SubmitJobAnswers(k, s1, s.queue[0]);
      SubmitReadyAnswers(k, SubmitJob(k, s1, s.queue[0]));
    }
  }

  lemma PushAnswers(s: State, job: Job, front: bool)
    requires AnswersInv(s) && job.id in s.ledger.accepted
    ensures AnswersInv(Pushed(s, job, front))
  {
    hide Is, Fits, Fair, Answered;
  }

  lemma AcceptAnswers(s: State, job: Job)
    requires WaitingFits(s) && LogFits(s) && WorkFitsBut(s, job.id) && job.id in s.ledger.ops
    requires Asked(s.ledger.ops[job.id], job.work, SizeOf(s.ledger, job.id))
    requires ReadsOn(s.ledger.ops[job.id]) ==> job.id in s.ledger.sizes
    ensures AnswersInv(Accepted(s, job))
  {
    AcceptWaiting(s, job);
    AcceptLog(s, job);
    AcceptWork(s, job);
    hide WorkFits, WaitingFits, LogFits;
  }

  lemma AcceptWork(s: State, job: Job)
    requires WorkFitsBut(s, job.id) && job.id in s.ledger.ops
    requires Asked(s.ledger.ops[job.id], job.work, SizeOf(s.ledger, job.id))
    requires ReadsOn(s.ledger.ops[job.id]) ==> job.id in s.ledger.sizes
    ensures WorkFits(Accepted(s, job))
  {
    hide Asked;
    var r := Accepted(s, job);
    forall x | x in r.ledger.accepted ensures Fair(r.ledger, x) {
      if x != job.id { assert Fair(s.ledger, x); }
    }
  }

  lemma AcceptWaiting(s: State, job: Job)
    requires WaitingFits(s)
    ensures WaitingFits(Accepted(s, job))
  {
    hide Is, Fits;
  }

  lemma AcceptLog(s: State, job: Job)
    requires LogFits(s)
    ensures LogFits(Accepted(s, job))
  {
    hide Direct;
    var r := Accepted(s, job);
    forall i | 0 <= i < |r.log| ensures Answered(r.ledger, r.log[i]) { assert Answered(s.ledger, s.log[i]); }
  }

  lemma EnqueueFits(k: Kernel, s: State, id: Id, work: SoundWork)
    requires WaitingFits(s) && LogFits(s) && WorkFitsBut(s, id) && id in s.ledger.ops
    requires Asked(s.ledger.ops[id], work, SizeOf(s.ledger, id))
    requires ReadsOn(s.ledger.ops[id]) ==> id in s.ledger.sizes
    ensures AnswersInv(Enqueue(k, s, id, work))
  {
    hide AnswersInv, WaitingFits, LogFits, WorkFitsBut, Asked, SubmitReady;
    var job := Job(id, false, work);
    AcceptAnswers(s, job);
    PushAnswers(Accepted(s, job), job, false);
    SubmitReadyAnswers(k, Pushed(Accepted(s, job), job, false));
  }

  lemma EnqueueAnswers(k: Kernel, s: State, id: Id, work: SoundWork)
    requires AnswersInv(s) && id in s.ledger.ops && Asked(s.ledger.ops[id], work, SizeOf(s.ledger, id))
    requires ReadsOn(s.ledger.ops[id]) ==> id in s.ledger.sizes
    ensures AnswersInv(Enqueue(k, s, id, work))
  {
    hide WaitingFits, LogFits, Asked, Fair, Enqueue;
    EnqueueFits(k, s, id, work);
  }

  lemma SizedFits(s: State, id: Id, size: Option<nat>)
    requires AnswersInv(s)
    ensures var r := Sized(s, id, size); WaitingFits(r) && LogFits(r) && WorkFitsBut(r, id)
  {
    hide Is, Fits, Asked, Direct;
    var r := Sized(s, id, size);
    forall x | x in r.ledger.accepted && x != id ensures Fair(r.ledger, x) { assert Fair(s.ledger, x); }
    forall i | 0 <= i < |r.log| ensures Answered(r.ledger, r.log[i]) { assert Answered(s.ledger, s.log[i]); }
  }

  lemma EnqueueRestAnswers(k: Kernel, s: State, id: Id, handle: Option<Handle>, fd: Fd, pos: nat, size: Option<nat>)
    requires AnswersInv(s) && id in s.ledger.ops
    requires Asked(s.ledger.ops[id], ReadToEnd(handle, fd, handle.None?, pos, SizeOr(size)), size)
    ensures AnswersInv(EnqueueRest(k, s, id, handle, fd, pos, size))
  {
    SizedFits(s, id, size);
    hide AnswersInv, WaitingFits, LogFits, WorkFitsBut, Asked, Enqueue;
    EnqueueFits(k, Sized(s, id, size), id, ReadToEnd(handle, fd, handle.None?, pos, SizeOr(size)));
  }

  // ---------------------------------------------------------------------
  // Opens
  // ---------------------------------------------------------------------

  lemma RegisterAnswers(s: State, fd: Fd, size: nat, id: Id)
    requires AnswersInv(s) && id in s.ledger.ops
    requires Direct(s.ledger.ops[id], Ok(HandleReply(s.nextId, size, fd)))
    ensures AnswersInv(Register(s, fd, size, id))
  {
    hide Is, Fits, Fair, Direct;
    var s1 := s.(files := s.files[s.nextId := Entry(fd, 0, None)], nextId := s.nextId + 1);
    assert AnswersInv(s1);
    EmitAnswers(s1, Settled(id, Ok(HandleReply(s.nextId, size, fd))));
    hide AnswersInv;
  }

  lemma AfterOpenedAnswers(k: Kernel, s: State, pending: Pending, result: OpenResult)
    requires AnswersInv(s) && Fits(s.ledger.ops, pending)
    ensures AnswersInv(AfterOpened(k, s, pending, result))
  {
    hide AnswersInv, Enqueue, EnqueueRest, Register;
    var id := pending.id;
    match result
    case NotOpened(code) => EmitAnswers(s, Settled(id, Err(Os(code))));
    case Opened(fd, size) =>
      match pending.after
      case AsHandle => RegisterAnswers(s, fd, size, id);
      case AsRead(inlineMax) =>
        if size > inlineMax {
          RegisterAnswers(s, fd, size, id);
        } else {
          EnqueueRestAnswers(k, s, id, None, fd, 0, Some(size));
        }
      case AsWrite(data) => EnqueueAnswers(k, s, id, Write(None, fd, true, 0, false, data, 0));
  }

  lemma OpenNowAnswers(k: Kernel, s: State, after: AfterOpen)
    requires AnswersInv(s)
    ensures AnswersInv(OpenNow(k, s, after).0) && OpenNow(k, s, after).0.ledger == s.ledger
    ensures OpenNow(k, s, after).0.back == s.back
  {
    hide AnswersInv;
    var a := k(s.tick);
    SameAnswers(s, Ticked(s));
    if a.openResult.Opened? {
      var s1 := Ticked(s).(open := s.open + {a.openResult.fd});
      SameAnswers(s, s1);
      CloseRawAnswers(k, s1, a.openResult.fd);
    }
  }

  lemma OpenThenAnswers(k: Kernel, s: State, pending: Pending)
    requires AnswersInv(s) && Fits(s.ledger.ops, pending)
    ensures AnswersInv(OpenThen(k, s, pending))
  {
    hide OpenNow, AfterOpened, Fits;
    if HasBacklog(k, s) {
      SendOpenAnswers(s, pending);
    } else {
      SameAnswers(s, Ticked(s));
      OpenNowAnswers(k, Ticked(s), pending.after);
      AfterOpenedAnswers(k, OpenNow(k, Ticked(s), pending.after).0, pending, OpenNow(k, Ticked(s), pending.after).1);
    }
    hide AnswersInv;
  }

  lemma SendOpenAnswers(s: State, pending: Pending)
    requires AnswersInv(s) && Fits(s.ledger.ops, pending)
    ensures AnswersInv(Ticked(s).(pendingOpens := s.pendingOpens + {pending.id},
                                  toHelpers := s.toHelpers + [OpenJob(pending)]))
  {
    hide Is, Fits, Fair, Answered;
  }

  lemma HandleOpenedAnswers(k: Kernel, s: State, answer: Back)
    requires AnswersInv(s) && Fits(s.ledger.ops, answer.pending)
    ensures AnswersInv(HandleOpened(k, s, answer))
  {
    hide AnswersInv, AfterOpened, CloseRaw;
    var id := answer.pending.id;
    var s1 := s.(pendingOpens := s.pendingOpens - {id});
    SameAnswers(s, s1);
    if id in s.cancelledOpens {
      var s2 := s1.(cancelledOpens := s.cancelledOpens - {id});
      SameAnswers(s, s2);
      if answer.result.Opened? { CloseRawAnswers(k, s2, answer.result.fd); }
      EmitAnswers(if answer.result.Opened? then CloseRaw(k, s2, answer.result.fd) else s2, Settled(id, Err(Cancelled)));
    } else {
      AfterOpenedAnswers(k, s1, answer.pending, answer.result);
    }
  }

  // ---------------------------------------------------------------------
  // Messages
  // ---------------------------------------------------------------------

  lemma HandleCloseAnswers(k: Kernel, s: State, h: Handle, id: Id)
    requires AnswersInv(s) && Is(s.ledger.ops, id, Close(h))
    ensures AnswersInv(HandleClose(k, s, h, id))
  {
    hide CloseHandle, Fits, Fair;
    if h !in s.files || s.files[h].closing.Some? {
      EmitAnswers(s, Settled(id, Err(BadHandle)));
    } else if s.files[h].ops <= 0 {
      CloseHandleAnswers(k, s, h, s.files[h].fd, id);
    }
    hide Answered, Is;
  }

  lemma SettleAnswers(s: State, id: Id, result: Result)
    requires AnswersInv(s) && id in s.ledger.ops && Direct(s.ledger.ops[id], result)
    ensures AnswersInv(Settle(s, id, result)) && AnswersInv(Settle(Ticked(s), id, result))
  {
    hide AnswersInv;
    SameAnswers(s, Ticked(s));
    EmitAnswers(s, Settled(id, result));
    EmitAnswers(Ticked(s), Settled(id, result));
  }

  lemma HandleFileOpAnswers(k: Kernel, s: State, id: Id, op: Op, fd: Fd)
    requires op.ReadAt? || op.ReadRest? || op.WriteAt? || op.Sync? || op.SetLen? || op.Size?
    requires AnswersInv(s) && Is(s.ledger.ops, id, op)
    ensures AnswersInv(HandleFileOp(k, s, id, op, fd))
  {
    hide AnswersInv, Enqueue, EnqueueRest, Settle;
    var a := k(s.tick);
    match op
    case Size(_) => SettleAnswers(s, id, StatReply(k, s));
    case SetLen(_) =>
      SettleAnswers(s, id, if a.truncateError.Some? then Err(Os(a.truncateError.value)) else Ok(UnitReply));
    case Sync(h) => EnqueueAnswers(k, s, id, Fsync(Some(h), fd, false));
    case ReadAt(h, pos, len, external) =>
      if len == 0 {
        SettleAnswers(s, id, Ok(if external then ReadReply(0) else BytesReply([])));
      } else {
        EnqueueAnswers(k, s, id, SizedRead(h, fd, pos, len, external));
      }
    case ReadRest(h, pos) =>
      SameAnswers(s, Ticked(s));
      EnqueueRestAnswers(k, Ticked(s), id, Some(h), fd, pos, a.look.size);
    case WriteAt(h, pos, data, append) =>
      if data != [] {
        EnqueueAnswers(k, s, id, Write(Some(h), fd, false, pos, append, data, 0));
      } else {
        var stat := StatReply(k, s);
        SettleAnswers(s, id, if !append then Ok(WrittenReply(0, pos))
                             else if stat.Ok? then Ok(WrittenReply(0, stat.reply.size)) else stat);
      }
  }

  lemma HandleOpAnswers(k: Kernel, s: State, id: Id, op: Op)
    requires AnswersInv(s) && Is(s.ledger.ops, id, op)
    ensures AnswersInv(HandleOp(k, s, id, op))
  {
    hide AnswersInv, OpenThen, HandleClose, HandleFileOp, Settle;
    match op
    case Nop => SettleAnswers(s, id, Ok(UnitReply));
    case Open => OpenThenAnswers(k, s, Pending(id, AsHandle));
    case ReadFile(inlineMax) => OpenThenAnswers(k, s, Pending(id, AsRead(inlineMax)));
    case WriteFile(data) => OpenThenAnswers(k, s, Pending(id, AsWrite(data)));
    case Close(h) => HandleCloseAnswers(k, s, h, id);
    case _ =>
      if WithFd(s, op.handle).None? {
        SettleAnswers(s, id, Err(BadHandle));
      } else {
        HandleFileOpAnswers(k, s, id, op, WithFd(s, op.handle).value);
      }
  }

  lemma DropAnswers(s: State, i: nat)
    requires AnswersInv(s) && i < |s.queue|
    ensures AnswersInv(Dropped(s, i)) && s.queue[i].id in s.ledger.accepted
  {
    hide Is, Fits, Fair, Answered;
  }

  lemma ChangeFlightAnswers(s: State, j: nat, flight: Flight)
    requires AnswersInv(s) && j < |s.inflight| && flight.job.id == s.inflight[j].job.id
    ensures AnswersInv(s.(inflight := s.inflight[j := flight]))
  {
    hide Is, Fits, Fair, Answered;
  }

  lemma HandleCancelAnswers(k: Kernel, s: State, id: Id)
    requires AnswersInv(s)
    ensures AnswersInv(HandleCancel(k, s, id))
  {
    hide AnswersInv, Finish;
    var i := Place(s.queue, id);
    var j := FlightPlace(s.inflight, id);
    var s0 := Touched(s, Doomed(id));
    SameAnswers(s, s0);
    SameAnswers(s, s0.(cancelledOpens := s.cancelledOpens + {id}));
    if i < |s.queue| {
      DropAnswers(s, i);
      FinishAnswers(k, Dropped(s, i), s.queue[i], Err(Cancelled));
    } else if j < |s.inflight| {
      var flight := s.inflight[j];
      ChangeFlightAnswers(s0, j, flight.(job := flight.job.(cancelled := true)));
    }
  }

  // ---------------------------------------------------------------------
  // Completions, the other threads, runs
  // ---------------------------------------------------------------------

  lemma LandAnswers(s: State, i: nat)
    requires AnswersInv(s) && i < |s.inflight|
    ensures AnswersInv(s.(inflight := SwapRemove(s.inflight, i))) && s.inflight[i].job.id in s.ledger.accepted
  {
    hide Is, Fits, Fair, Answered;
  }

  lemma AdvanceAnswers(k: Kernel, s: State, job: Job, moved: Moved)
    requires AnswersInv(s) && job.id in s.ledger.accepted
    ensures AnswersInv(Advance(k, s, job, moved))
  {
    hide AnswersInv, Finish, SubmitReady;
    var a := k(s.tick);
    var m := Clamp(job.work, moved);
    var s1 := Recorded(Ticked(s), job.id, Chunk(m, a.look));
    SameAnswers(s, s1);
    match After(job.work, m, a.look)
    case Done(result) => FinishAnswers(k, s1, job, result);
    case More(work) =>
      FinishAnswers(k, s1, job.(work := work), Err(Cancelled));
      PushAnswers(s1, job.(work := work), true);
      SubmitReadyAnswers(k, Pushed(s1, job.(work := work), true));
  }

  lemma ReapAtAnswers(k: Kernel, s: State, i: nat)
    requires AnswersInv(s) && i < |s.inflight| && s.inflight[i].ret.Some?
    ensures AnswersInv(ReapAt(k, s, i))
  {
    hide AnswersInv, Finish, Advance;
    var s1 := s.(inflight := SwapRemove(s.inflight, i));
    LandAnswers(s, i);
    match s.inflight[i].ret.value
    case Returned(moved) => AdvanceAnswers(k, s1, s.inflight[i].job, moved);
    case Failed(code) => FinishAnswers(k, s1, s.inflight[i].job, Err(Os(code)));
  }

  lemma HelperTakesAnswers(s: State, i: nat)
    requires AnswersInv(s) && i < |s.toHelpers|
    ensures AnswersInv(s.(toHelpers := s.toHelpers[..i] + s.toHelpers[i + 1..]))
    ensures s.toHelpers[i].OpenJob? ==> Fits(s.ledger.ops, s.toHelpers[i].pending)
  {
    hide Is, Fits, Fair, Answered;
  }

  lemma BackAnswers(s: State, back: Back)
    requires AnswersInv(s) && Fits(s.ledger.ops, back.pending)
    ensures AnswersInv(s.(back := s.back + [back]))
  {
    hide Is, Fits, Fair, Answered;
  }

  lemma HelperStepAnswers(k: Kernel, s: State, i: nat)
    requires AnswersInv(s) && i < |s.toHelpers|
    ensures AnswersInv(HelperStep(k, s, i))
  {
    hide AnswersInv, OpenNow, CloseRaw, Fits;
    var s1 := s.(toHelpers := s.toHelpers[..i] + s.toHelpers[i + 1..]);
    HelperTakesAnswers(s, i);
    match s.toHelpers[i]
    case CloseJob(fd) => CloseRawAnswers(k, s1, fd);
    case OpenJob(pending) =>
      OpenNowAnswers(k, s1, pending.after);
      BackAnswers(OpenNow(k, s1, pending.after).0, Back(pending, OpenNow(k, s1, pending.after).1));
  }

  lemma TakeMsgAnswers(k: Kernel, s: State)
    requires AnswersInv(s) && s.rx != []
    ensures AnswersInv(HandleMsg(k, s.(rx := s.rx[1..]), s.rx[0]))
  {
    hide Fits, Fair, Answered, HandleOp, HandleCancel;
    var s1 := s.(rx := s.rx[1..]);
    assert s.rx[0].Submit? ==> Is(s.ledger.ops, s.rx[0].id, s.rx[0].op);
    hide Is;
    assert AnswersInv(s1);
    hide AnswersInv;
    match s.rx[0]
    case Submit(id, op) => HandleOpAnswers(k, s1, id, op);
    case Cancel(id) => HandleCancelAnswers(k, s1, id);
  }

  lemma TakeOpenedAnswers(k: Kernel, s: State)
    requires AnswersInv(s) && s.back != []
    ensures AnswersInv(HandleOpened(k, s.(back := s.back[1..]), s.back[0]))
  {
    hide Is, Fits, Fair, Answered, HandleOpened;
    HandleOpenedAnswers(k, s.(back := s.back[1..]), s.back[0]);
  }

  lemma SubmitsAnswers(s: State, op: Op)
    requires AnswersInv(s)
    ensures AnswersInv(Submitted(s, op))
  {
    hide Asked;
    var r := Submitted(s, op);
    hide Direct;
    forall i | 0 <= i < |r.log| ensures Answered(r.ledger, r.log[i]) { assert Answered(s.ledger, s.log[i]); }
  }

  lemma CancelsAnswers(s: State, id: Id)
    requires AnswersInv(s)
    ensures AnswersInv(s.(rx := s.rx + [Cancel(id)]))
  {
    hide Is, Fits, Fair, Answered;
  }

  lemma DoAnswers(k: Kernel, s: State, action: Action)
    requires Enabled(s, action) && AnswersInv(s)
    ensures AnswersInv(Do(k, s, action))
  {
    hide AnswersInv, HandleMsg, HandleOpened, ReapAt, SubmitReady, HelperStep;
    match action
    case TakeMsg => TakeMsgAnswers(k, s);
    case TakeOpened => TakeOpenedAnswers(k, s);
    case Reap(i) => ReapAtAnswers(k, s, i);
    case SubmitMore => SubmitReadyAnswers(k, s);
    case ClientSubmits(op) => SubmitsAnswers(s, op);
    case ClientCancels(id) => CancelsAnswers(s, id);
    case HelperDoes(i) => HelperStepAnswers(k, s, i);
    case KernelAnswers(i, ret) =>
      ChangeFlightAnswers(s, i, s.inflight[i].(ret := Some(ret)));
      SameAnswers(s.(inflight := s.inflight[i := s.inflight[i].(ret := Some(ret))]), Completed(s, i, ret));
    case _ => SameAnswers(s, Do(k, s, action));
  }
}
