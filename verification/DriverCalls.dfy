/** Every submitted op settles exactly once: its callback is in one place at a
    time, and every action of the driver, its helpers, the kernel or a client
    moves it or invokes it, neither dropping nor copying it. */
module DriverCalls {
  import opened Basics
  import opened Transfer
  import opened DriverModel

  function MsgIs(x: Id): Msg -> nat { (m: Msg) => if m.Submit? && m.id == x then 1 else 0 }
  function JobIs(x: Id): Job -> nat { (j: Job) => if j.id == x then 1 else 0 }
  function FlightIs(x: Id): Flight -> nat { (f: Flight) => if f.job.id == x then 1 else 0 }
  function HelperIs(x: Id): HelperJob -> nat {
    (h: HelperJob) => if h.OpenJob? && h.pending.id == x then 1 else 0
  }
  function BackIs(x: Id): Back -> nat { (b: Back) => if b.pending.id == x then 1 else 0 }
  function SettledIs(x: Id): Event -> nat { (e: Event) => if !e.Closed? && e.id == x then 1 else 0 }

  /** The handles whose deferred close holds the callback of op `x`. */
  function ClosingAt(files: map<Handle, Entry>, x: Id): set<Handle> {
    set h | h in files && files[h].closing == Some(x)
  }

  function Waits(e: Entry, x: Id): nat { if e.closing == Some(x) then 1 else 0 }

  /** How often the op has been settled. */
  function TimesSettled(s: State, x: Id): nat { Sum(s.log, SettledIs(x)) }

  /** The op's callbacks held by queued and in-flight jobs. */
  function Working(s: State, x: Id): nat { Sum(s.queue, JobIs(x)) + Sum(s.inflight, FlightIs(x)) }

  /** The op's callbacks travelling with its open. */
  function Opening(s: State, x: Id): nat { Sum(s.toHelpers, HelperIs(x)) + Sum(s.back, BackIs(x)) }

  /** All callbacks of the op: not yet taken from the channel, at work, at an
      open, waiting in a deferred close, or invoked. */
  function Calls(s: State, x: Id): nat {
    Sum(s.rx, MsgIs(x)) + Working(s, x) + Opening(s, x) + |ClosingAt(s.files, x)| + TimesSettled(s, x)
  }

  function One(b: bool): nat { if b then 1 else 0 }

  lemma ClosingUpdate(files: map<Handle, Entry>, h: Handle, e: Entry, x: Id)
    ensures |ClosingAt(files[h := e], x)| + (if h in files then Waits(files[h], x) else 0)
         == |ClosingAt(files, x)| + Waits(e, x)
  {
    var before := ClosingAt(files, x) - {h};
    assert ClosingAt(files[h := e], x) == if e.closing == Some(x) then before + {h} else before;
    assert ClosingAt(files, x) == if h in files && files[h].closing == Some(x) then before + {h} else before;
  }

  lemma ClosingRemove(files: map<Handle, Entry>, h: Handle, x: Id)
    requires h in files
    ensures |ClosingAt(files - {h}, x)| + Waits(files[h], x) == |ClosingAt(files, x)|
  {
    var rest := ClosingAt(files - {h}, x);
    assert ClosingAt(files, x) == if files[h].closing == Some(x) then rest + {h} else rest;
  }

  lemma EmitCalls(s: State, event: Event, x: Id)
    ensures Calls(Emit(s, event), x) == Calls(s, x) + SettledIs(x)(event)
  {
    SumSnoc(s.log, event, SettledIs(x));
  }

  lemma CloseRawCalls(k: Kernel, s: State, fd: Fd, x: Id)
    ensures Calls(CloseRaw(k, s, fd), x) == Calls(s, x)
  {
    EmitCalls(s, Closed(fd, fd in s.open), x);
  }

  lemma CloseOwnedCalls(k: Kernel, s: State, fd: Fd, x: Id)
    ensures Calls(CloseOwned(k, s, fd), x) == Calls(s, x)
  {
    CloseRawCalls(k, Ticked(s), fd, x);
    SumSnoc(s.toHelpers, CloseJob(fd), HelperIs(x));
  }

  lemma CloseHandleCalls(k: Kernel, s: State, h: Handle, fd: Fd, id: Id, x: Id)
    requires h in s.files
    ensures Calls(CloseHandle(k, s, h, fd, id), x) + Waits(s.files[h], x) == Calls(s, x) + One(id == x)
  {
    var s1 := s.(files := s.files - {h});
    ClosingRemove(s.files, h, x);
    CloseRawCalls(k, s1, fd, x);
    var s2 := CloseRaw(k, s1, fd);
    EmitCalls(s2, HandleGone(h, id, CloseResult(k, s1, fd)), x);
  }

  lemma ReleaseCalls(k: Kernel, s: State, h: Handle, x: Id)
    requires h in s.files
    ensures Calls(Release(k, s, h), x) == Calls(s, x)
  {
    var entry := s.files[h].(ops := s.files[h].ops - 1);
    if entry.ops > 0 || entry.closing.None? {
      ClosingUpdate(s.files, h, entry, x);
    } else {
      CloseHandleCalls(k, s, h, entry.fd, entry.closing.value, x);
    }
  }

  lemma FinishCalls(k: Kernel, s: State, job: Job, result: Result, x: Id)
    ensures Calls(Finish(k, s, job, result), x) == Calls(s, x) + One(job.id == x)
  {
    var s1 := if job.work.owned then CloseOwned(k, s, job.work.fd) else s;
    CloseOwnedCalls(k, s, job.work.fd, x);
    var s2 := Emit(s1, Settled(job.id, result));
    EmitCalls(s1, Settled(job.id, result), x);
    if job.work.handle.Some? && job.work.handle.value in s2.files {
      ReleaseCalls(k, s2, job.work.handle.value, x);
    }
  }

  lemma {:induction false} ExecuteSyncCalls(k: Kernel, s: State, job: Job, x: Id)
    ensures Calls(ExecuteSync(k, s, job), x) == Calls(s, x) + One(job.id == x)
    decreases Growable(job.work), Remaining(job.work)
  {
    var a := k(s.tick);
    var s1 := Ticked(Touched(s, Issued(job.id)));
    var m := Clamp(job.work, a.moved);
    if a.failed.Some? {
      FinishCalls(k, Touched(s1, Refusal(job.id, a.failed.value)), job, Err(Os(a.failed.value)), x);
    } else {
      var s2 := Recorded(s1, job.id, Chunk(m, a.look));
      match After(job.work, m, a.look)
      case Done(result) => FinishCalls(k, s2, job, result, x);
      case More(work) =>
        Progress(job.work, m, a.look);
        ExecuteSyncCalls(k, s2, job.(work := work), x);
    }
  }

  lemma TakenCalls(s: State, job: Job, x: Id)
    ensures Calls(Touched(s, Issued(job.id)).(inflight := s.inflight + [Flight(job, None)]), x)
         == Calls(s, x) + One(job.id == x)
  {
    SumSnoc(s.inflight, Flight(job, None), FlightIs(x));
  }

  lemma SubmitJobCalls(k: Kernel, s: State, job: Job, x: Id)
    requires !IsFull(k, s)
    ensures Calls(SubmitJob(k, s, job), x) == Calls(s, x) + One(job.id == x)
  {
    var s1 := WithFirst(Ticked(s), job.id);
    assert Calls(s1, x) == Calls(s, x);
    match k(s.tick).accept
    case Taken => TakenCalls(s1, job, x);
    case Again => ExecuteSyncCalls(k, s1, job, x);
    case Refused(code) => FinishCalls(k, Touched(s1, Refusal(job.id, code)), job, Err(Os(code)), x);
  }

  lemma {:induction false} SubmitReadyCalls(k: Kernel, s: State, x: Id)
    ensures Calls(SubmitReady(k, s), x) == Calls(s, x)
    decreases |s.queue|
  {
    if !(|s.inflight| >= s.maxInflight || s.queue == [] || IsFull(k, s)) {
      var s1 := s.(queue := s.queue[1..]);
      SubmitJobCalls(k, s1, s.queue[0], x);
      SubmitReadyCalls(k, SubmitJob(k, s1, s.queue[0]), x);
    }
  }

  lemma AcceptedCalls(s: State, job: Job, x: Id)
    ensures Calls(Accepted(s, job), x) == Calls(s, x)
  {
    if job.work.handle.Some? && job.work.handle.value in s.files {
      var h := job.work.handle.value;
      ClosingUpdate(s.files, h, s.files[h].(ops := s.files[h].ops + 1), x);
    }
  }

  lemma PushedCalls(s: State, job: Job, front: bool, x: Id)
    ensures Calls(Pushed(s, job, front), x) == Calls(s, x) + One(job.id == x)
  {
    SumSnoc(s.queue, job, JobIs(x));
    assert ([job] + s.queue)[1..] == s.queue;
  }

  lemma EnqueueCalls(k: Kernel, s: State, id: Id, work: SoundWork, x: Id)
    ensures Calls(Enqueue(k, s, id, work), x) == Calls(s, x) + One(id == x)
  {
    var job := Job(id, false, work);
    AcceptedCalls(s, job, x);
    PushedCalls(Accepted(s, job), job, false, x);
    SubmitReadyCalls(k, Pushed(Accepted(s, job), job, false), x);
  }

  lemma EnqueueRestCalls(k: Kernel, s: State, id: Id, handle: Option<Handle>, fd: Fd, pos: nat, size: Option<nat>,
                         x: Id)
    ensures Calls(EnqueueRest(k, s, id, handle, fd, pos, size), x) == Calls(s, x) + One(id == x)
  {
    hide Enqueue;
    EnqueueCalls(k, Sized(s, id, size), id, ReadToEnd(handle, fd, handle.None?, pos, SizeOr(size)), x);
  }

  lemma RegisterCalls(s: State, fd: Fd, size: nat, id: Id, x: Id)
    requires s.nextId !in s.files
    ensures Calls(Register(s, fd, size, id), x) == Calls(s, x) + One(id == x)
  {
    ClosingUpdate(s.files, s.nextId, Entry(fd, 0, None), x);
    EmitCalls(s.(files := s.files[s.nextId := Entry(fd, 0, None)], nextId := s.nextId + 1),
              Settled(id, Ok(HandleReply(s.nextId, size, fd))), x);
  }

  lemma OpenNowCalls(k: Kernel, s: State, after: AfterOpen, x: Id)
    ensures Calls(OpenNow(k, s, after).0, x) == Calls(s, x)
    ensures OpenNow(k, s, after).0.files == s.files && OpenNow(k, s, after).0.nextId == s.nextId
  {
    var a := k(s.tick);
    if a.openResult.Opened? {
      CloseRawCalls(k, Ticked(s).(open := s.open + {a.openResult.fd}), a.openResult.fd, x);
    }
  }

  lemma AfterOpenedCalls(k: Kernel, s: State, pending: Pending, result: OpenResult, x: Id)
    requires s.nextId !in s.files
    ensures Calls(AfterOpened(k, s, pending, result), x) == Calls(s, x) + One(pending.id == x)
  {
    match result
    case NotOpened(code) => EmitCalls(s, Settled(pending.id, Err(Os(code))), x);
    case Opened(fd, size) =>
      match pending.after
      case AsHandle => RegisterCalls(s, fd, size, pending.id, x);
      case AsRead(inlineMax) =>
        if size > inlineMax {
          RegisterCalls(s, fd, size, pending.id, x);
        } else {
          EnqueueRestCalls(k, s, pending.id, None, fd, 0, Some(size), x);
        }
      case AsWrite(data) => EnqueueCalls(k, s, pending.id, Write(None, fd, true, 0, false, data, 0), x);
  }

  lemma OpenThenCalls(k: Kernel, s: State, pending: Pending, x: Id)
    requires s.nextId !in s.files
    ensures Calls(OpenThen(k, s, pending), x) == Calls(s, x) + One(pending.id == x)
  {
    hide AfterOpened, OpenNow;
    if HasBacklog(k, s) {
      SumSnoc(s.toHelpers, OpenJob(pending), HelperIs(x));
    } else {
      OpenNowCalls(k, Ticked(s), pending.after, x);
      var (s1, result) := OpenNow(k, Ticked(s), pending.after);
      AfterOpenedCalls(k, s1, pending, result, x);
    }
  }

  lemma HandleOpenedCalls(k: Kernel, s: State, answer: Back, x: Id)
    requires s.nextId !in s.files
    ensures Calls(HandleOpened(k, s, answer), x) == Calls(s, x) + One(answer.pending.id == x)
  {
    var id := answer.pending.id;
    var s1 := s.(pendingOpens := s.pendingOpens - {id});
    if id in s.cancelledOpens {
      var s2 := s1.(cancelledOpens := s.cancelledOpens - {id});
      if answer.result.Opened? { CloseRawCalls(k, s2, answer.result.fd, x); }
      var s3 := if answer.result.Opened? then CloseRaw(k, s2, answer.result.fd) else s2;
      EmitCalls(s3, Settled(id, Err(Cancelled)), x);
    } else {
      AfterOpenedCalls(k, s1, answer.pending, answer.result, x);
    }
  }

  lemma HandleCloseCalls(k: Kernel, s: State, h: Handle, id: Id, x: Id)
    ensures Calls(HandleClose(k, s, h, id), x) == Calls(s, x) + One(id == x)
  {
    EmitCalls(s, Settled(id, Err(BadHandle)), x);
    if h in s.files && s.files[h].closing.None? {
      if s.files[h].ops > 0 {
        ClosingUpdate(s.files, h, s.files[h].(closing := Some(id)), x);
      } else {
        CloseHandleCalls(k, s, h, s.files[h].fd, id, x);
      }
    }
  }

  lemma SettleCalls(s: State, id: Id, result: Result, x: Id)
    ensures Calls(Settle(s, id, result), x) == Calls(s, x) + One(id == x)
    ensures Calls(Settle(Ticked(s), id, result), x) == Calls(s, x) + One(id == x)
  {
    EmitCalls(s, Settled(id, result), x);
    EmitCalls(Ticked(s), Settled(id, result), x);
  }

  lemma HandleFileOpCalls(k: Kernel, s: State, id: Id, op: Op, fd: Fd, x: Id)
    requires op.ReadAt? || op.ReadRest? || op.WriteAt? || op.Sync? || op.SetLen? || op.Size?
    ensures Calls(HandleFileOp(k, s, id, op, fd), x) == Calls(s, x) + One(id == x)
  {
    var a := k(s.tick);
    match op
    case Size(_) => SettleCalls(s, id, StatReply(k, s), x);
    case SetLen(_) =>
      SettleCalls(s, id, if a.truncateError.Some? then Err(Os(a.truncateError.value)) else Ok(UnitReply), x);
    case Sync(h) => EnqueueCalls(k, s, id, Fsync(Some(h), fd, false), x);
    case ReadAt(h, pos, len, external) =>
      SettleCalls(s, id, Ok(if external then ReadReply(0) else BytesReply([])), x);
      EnqueueCalls(k, s, id, SizedRead(h, fd, pos, len, external), x);
    case ReadRest(h, pos) => EnqueueRestCalls(k, Ticked(s), id, Some(h), fd, pos, a.look.size, x);
    case WriteAt(h, pos, data, append) =>
      var stat := StatReply(k, s);
      if data != [] {
        EnqueueCalls(k, s, id, Write(Some(h), fd, false, pos, append, data, 0), x);
      } else if !append {
        SettleCalls(s, id, Ok(WrittenReply(0, pos)), x);
      } else {
        SettleCalls(s, id, if stat.Ok? then Ok(WrittenReply(0, stat.reply.size)) else stat, x);
      }
  }

  lemma HandleOpCalls(k: Kernel, s: State, id: Id, op: Op, x: Id)
    requires s.nextId !in s.files
    ensures Calls(HandleOp(k, s, id, op), x) == Calls(s, x) + One(id == x)
  {
    hide HandleFileOp, OpenThen, HandleClose, Calls;
    match op
    case Nop => SettleCalls(s, id, Ok(UnitReply), x);
    case Open => OpenThenCalls(k, s, Pending(id, AsHandle), x);
    case ReadFile(inlineMax) => OpenThenCalls(k, s, Pending(id, AsRead(inlineMax)), x);
    case WriteFile(data) => OpenThenCalls(k, s, Pending(id, AsWrite(data)), x);
    case Close(h) => HandleCloseCalls(k, s, h, id, x);
    case _ =>
      SettleCalls(s, id, Err(BadHandle), x);
      if WithFd(s, op.handle).Some? {
        HandleFileOpCalls(k, s, id, op, WithFd(s, op.handle).value, x);
      }
  }

  lemma HandleCancelCalls(k: Kernel, s: State, id: Id, x: Id)
    ensures Calls(HandleCancel(k, s, id), x) == Calls(s, x)
  {
    var i := Place(s.queue, id);
    var j := FlightPlace(s.inflight, id);
    if i < |s.queue| {
      SumRemove(s.queue, i, JobIs(x));
      var s1 := Touched(s, Doomed(id)).(
        queue := s.queue[..i] + s.queue[i + 1..],
        dropped := if id in s.firsts then s.dropped else s.dropped + {id});
      FinishCalls(k, s1, s.queue[i], Err(Cancelled), x);
    } else if j < |s.inflight| {
      var flight := s.inflight[j];
      SumUpdate(s.inflight, j, flight.(job := flight.job.(cancelled := true)), FlightIs(x));
    }
  }

  lemma AdvanceCalls(k: Kernel, s: State, job: Job, moved: Moved, x: Id)
    ensures Calls(Advance(k, s, job, moved), x) == Calls(s, x) + One(job.id == x)
  {
    var a := k(s.tick);
    var m := Clamp(job.work, moved);
    var s1 := Recorded(Ticked(s), job.id, Chunk(m, a.look));
    match After(job.work, m, a.look)
    case Done(result) => FinishCalls(k, s1, job, result, x);
    case More(work) =>
      FinishCalls(k, s1, job.(work := work), Err(Cancelled), x);
      PushedCalls(s1, job.(work := work), true, x);
      SubmitReadyCalls(k, Pushed(s1, job.(work := work), true), x);
  }

  lemma ReapAtCalls(k: Kernel, s: State, i: nat, x: Id)
    requires i < |s.inflight| && s.inflight[i].ret.Some?
    ensures Calls(ReapAt(k, s, i), x) == Calls(s, x)
  {
    var flight := s.inflight[i];
    var s1 := s.(inflight := SwapRemove(s.inflight, i));
    SumSwapRemove(s.inflight, i, FlightIs(x));
    match flight.ret.value
    case Returned(moved) => AdvanceCalls(k, s1, flight.job, moved, x);
    case Failed(code) => FinishCalls(k, s1, flight.job, Err(Os(code)), x);
  }

  lemma HelperStepCalls(k: Kernel, s: State, i: nat, x: Id)
    requires i < |s.toHelpers|
    ensures Calls(HelperStep(k, s, i), x) == Calls(s, x)
  {
    var s1 := s.(toHelpers := s.toHelpers[..i] + s.toHelpers[i + 1..]);
    SumRemove(s.toHelpers, i, HelperIs(x));
    match s.toHelpers[i]
    case CloseJob(fd) => CloseRawCalls(k, s1, fd, x);
    case OpenJob(pending) =>
      OpenNowCalls(k, s1, pending.after, x);
      var (s2, result) := OpenNow(k, s1, pending.after);
      SumSnoc(s2.back, Back(pending, result), BackIs(x));
  }

  lemma CompletedCalls(s: State, i: nat, ret: Ret, x: Id)
    requires i < |s.inflight|
    ensures Calls(Completed(s, i, ret), x) == Calls(s, x)
  {
    SumUpdate(s.inflight, i, s.inflight[i].(ret := Some(ret)), FlightIs(x));
  }

  /** No action drops or copies a callback; a client's submission brings in
      the one new callback there is. */
  lemma DoCalls(k: Kernel, s: State, action: Action, x: Id)
    requires Enabled(s, action) && s.nextId !in s.files
    ensures Calls(Do(k, s, action), x)
         == Calls(s, x) + One(action.ClientSubmits? && x == s.nextOp)
  {
    hide HandleOp, HandleCancel, HandleOpened, ReapAt, SubmitReady, HelperStep, Completed;
    match action
    case TakeMsg =>
      var s1 := s.(rx := s.rx[1..]);
      match s.rx[0] {
        case Submit(id, op) => HandleOpCalls(k, s1, id, op, x);
        case Cancel(id) => HandleCancelCalls(k, s1, id, x);
      }
    case TakeOpened => HandleOpenedCalls(k, s.(back := s.back[1..]), s.back[0], x);
    case Reap(i) => ReapAtCalls(k, s, i, x);
    case SubmitMore => SubmitReadyCalls(k, s, x);
    case SeeGone =>
    case ClientSubmits(op) => SumSnoc(s.rx, Submit(s.nextOp, op), MsgIs(x));
    case ClientCancels(id) => SumSnoc(s.rx, Cancel(id), MsgIs(x));
    case ClientsLeave =>
    case HelperDoes(i) => HelperStepCalls(k, s, i, x);
    case KernelAnswers(i, ret) => CompletedCalls(s, i, ret, x);
  }
}
