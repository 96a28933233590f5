/** Every action keeps the driver's invariants, so every run does; and what
    follows of it for the ops, the descriptors and the cancels of a run. */
module DriverSafety {
  import opened Basics
  import opened Transfer
  import opened Replays
  import opened DriverModel
  import opened DriverCalls
  import opened DriverOwnership
  import opened DriverHistory

  // ---------------------------------------------------------------------
  // Opens
  // ---------------------------------------------------------------------

  lemma AddEntryCalls(s: State, fd: Fd, hand: Hand)
    requires CallsInv(s, hand) && s.nextId !in s.files
    ensures CallsInv(s.(files := s.files[s.nextId := Entry(fd, 0, None)], nextId := s.nextId + 1), hand)
  {
    var r := s.(files := s.files[s.nextId := Entry(fd, 0, None)], nextId := s.nextId + 1);
    forall x: Id ensures Calls(r, x) + HandIs(hand, x) == One(1 <= x < r.nextOp) {
      ClosingUpdate(s.files, s.nextId, Entry(fd, 0, None), x);
      assert Calls(s, x) + HandIs(hand, x) == One(1 <= x < s.nextOp);
    }
  }

  lemma AddEntryJobs(s: State, fd: Fd, hand: Hand)
    requires JobsInv(s, hand) && CancelInv(s, hand) && s.nextId !in s.files
    ensures var r := s.(files := s.files[s.nextId := Entry(fd, 0, None)], nextId := s.nextId + 1);
      JobsInv(r, hand) && CancelInv(r, hand)
  {
    var files := s.files[s.nextId := Entry(fd, 0, None)];
    forall x: Id ensures |ClosingAt(files, x)| <= |ClosingAt(s.files, x)| {
      ClosingUpdate(s.files, s.nextId, Entry(fd, 0, None), x);
    }
    hide JobsInv, CancelInv, ClosingAt;
    FilesJobs(s, files, s.nextId + 1, hand);
  }

  lemma AddEntryHist(s: State, fd: Fd, hand: Hand)
    requires Hist(s, hand) && s.nextId !in s.files
    ensures Hist(s.(files := s.files[s.nextId := Entry(fd, 0, None)], nextId := s.nextId + 1), hand)
  {
    hide CallsInv, JobsInv, CancelInv;
    AddEntryCalls(s, fd, hand);
    AddEntryJobs(s, fd, hand);
    FilesGone(s, s.files[s.nextId := Entry(fd, 0, None)], s.nextId + 1);
  }

  lemma RegisterHist(s: State, fd: Fd, size: nat, id: Id)
    requires Hist(s, Fresh(id)) && s.nextId !in s.files && Doomed(id) !in s.trace
    ensures Hist(Register(s, fd, size, id), Nothing)
  {
    hide Hist;
    AddEntryHist(s, fd, Fresh(id));
    SettleHist(s.(files := s.files[s.nextId := Entry(fd, 0, None)], nextId := s.nextId + 1),
               Fresh(id), Ok(HandleReply(s.nextId, size, fd)));
  }

  lemma OpenHist(s: State, open: set<Fd>, hand: Hand)
    requires Hist(s, hand)
    ensures Hist(s.(open := open), hand)
  {
    SameCalls(s, s.(open := open), hand);
    SameJobs(s, s.(open := open), hand);
  }

  lemma OpenNowHist(k: Kernel, s: State, after: AfterOpen, hand: Hand)
    requires Hist(s, hand)
    ensures Hist(OpenNow(k, s, after).0, hand)
  {
    hide Hist;
    var a := k(s.tick);
    TickHist(s, hand);
    if a.openResult.Opened? && a.openResult.fd !in s.open {
      OpenHist(Ticked(s), s.open + {a.openResult.fd}, hand);
      CloseRawHist(k, Ticked(s).(open := s.open + {a.openResult.fd}), a.openResult.fd, hand);
    }
  }

  /** The job an open turns into, accepted by a driver that knows its
      descriptor has no owner yet. */
  lemma EnqueueLooseHist(k: Kernel, s: State, id: Id, work: SoundWork)
    requires LooseInv(s, work.fd) && work.owned && work.handle.None?
    requires Hist(s, Fresh(id)) && Doomed(id) !in s.trace
    ensures Hist(Enqueue(k, s, id, work), Nothing)
  {
    AcceptLooseOwn(s, Job(id, false, work));
    EnqueueHist(k, s, id, work);
  }

  lemma EnqueueOnHandleHist(k: Kernel, s: State, id: Id, work: SoundWork)
    requires OwnInv(s, None) && !work.owned && JobSound(s.files, Job(id, false, work))
    requires Hist(s, Fresh(id)) && Doomed(id) !in s.trace
    ensures Hist(Enqueue(k, s, id, work), Nothing)
  {
    var job := Job(id, false, work);
    AcceptOwn(s, job, work.handle.value);
    PushOwn(Accepted(s, job), job, false);
    EnqueueHist(k, s, id, work);
  }

  lemma EnqueueRestLooseHist(k: Kernel, s: State, id: Id, fd: Fd, size: nat)
    requires LooseInv(s, fd) && Hist(s, Fresh(id)) && Doomed(id) !in s.trace
    ensures Hist(EnqueueRest(k, s, id, None, fd, 0, Some(size)), Nothing)
  {
    hide Hist, LooseInv, Enqueue;
    SizedHist(s, id, Some(size), Fresh(id));
    LooseSame(s, Sized(s, id, Some(size)), fd);
    EnqueueLooseHist(k, Sized(s, id, Some(size)), id, ReadToEnd(None, fd, true, 0, size));
  }

  lemma AfterOpenedHist(k: Kernel, s: State, pending: Pending, result: OpenResult)
    requires result.Opened? ==> LooseInv(s, result.fd)
    requires Hist(s, Fresh(pending.id)) && Doomed(pending.id) !in s.trace && s.nextId !in s.files
    ensures Hist(AfterOpened(k, s, pending, result), Nothing)
  {
    hide Hist, LooseInv, Enqueue, EnqueueRest, Register;
    match result
    case NotOpened(code) => SettleHist(s, Fresh(pending.id), Err(Os(code)));
    case Opened(fd, size) =>
      match pending.after
      case AsHandle => RegisterHist(s, fd, size, pending.id);
      case AsRead(inlineMax) =>
        if size > inlineMax {
          RegisterHist(s, fd, size, pending.id);
        } else {
          EnqueueRestLooseHist(k, s, pending.id, fd, size);
        }
      case AsWrite(data) => EnqueueLooseHist(k, s, pending.id, Write(None, fd, true, 0, false, data, 0));
  }

  function OpenSent(s: State, pending: Pending): State {
    Ticked(s).(pendingOpens := s.pendingOpens + {pending.id}, toHelpers := s.toHelpers + [OpenJob(pending)])
  }

  lemma SendOpenCounts(s: State, pending: Pending, x: Id)
    ensures Opening(OpenSent(s, pending), x) == Opening(s, x) + One(x == pending.id)
    ensures Elsewhere(OpenSent(s, pending), x) == Elsewhere(s, x) + One(x == pending.id)
    ensures Calls(OpenSent(s, pending), x) == Calls(s, x) + One(x == pending.id)
  {
    SumSnoc(s.toHelpers, OpenJob(pending), HelperIs(x));
  }

  lemma SendOpenCalls(s: State, pending: Pending)
    requires CallsInv(s, Fresh(pending.id))
    ensures CallsInv(OpenSent(s, pending), Nothing)
  {
    forall x: Id ensures Calls(OpenSent(s, pending), x) + HandIs(Nothing, x) == One(1 <= x < s.nextOp) {
      SendOpenCounts(s, pending, x);
      assert Calls(s, x) + HandIs(Fresh(pending.id), x) == One(1 <= x < s.nextOp);
    }
  }

  lemma SendOpenJobs(s: State, pending: Pending)
    requires JobsInv(s, Fresh(pending.id)) && CancelInv(s, Fresh(pending.id)) && Doomed(pending.id) !in s.trace
    ensures JobsInv(OpenSent(s, pending), Nothing) && CancelInv(OpenSent(s, pending), Nothing)
  {
    forall x: Id
      ensures Opening(OpenSent(s, pending), x) == Opening(s, x) + One(x == pending.id)
      ensures Elsewhere(OpenSent(s, pending), x) == Elsewhere(s, x) + One(x == pending.id)
    {
      SendOpenCounts(s, pending, x);
    }
  }

  lemma SendOpenHist(s: State, pending: Pending)
    requires Hist(s, Fresh(pending.id)) && Doomed(pending.id) !in s.trace
    ensures Hist(OpenSent(s, pending), Nothing)
  {
    SendOpenCalls(s, pending);
    SendOpenJobs(s, pending);
  }

  lemma FreshEntry(s: State)
    requires EntriesSound(s)
    ensures s.nextId !in s.files
  {}

  lemma OpenThenHist(k: Kernel, s: State, pending: Pending)
    requires OwnInv(s, None) && Hist(s, Fresh(pending.id)) && Doomed(pending.id) !in s.trace
    ensures Hist(OpenThen(k, s, pending), Nothing)
  {
    hide Hist;
    if HasBacklog(k, s) {
      SendOpenHist(s, pending);
    } else {
      TickHist(s, Fresh(pending.id));
      SameOwn(s, Ticked(s));
      OpenNowHist(k, Ticked(s), pending.after, Fresh(pending.id));
      OpenNowOwn(k, Ticked(s), pending.after);
      FreshEntry(s);
      var (s1, result) := OpenNow(k, Ticked(s), pending.after);
      AfterOpenedHist(k, s1, pending, result);
    }
  }

  /** The state once an answer of the helpers is in hand. */
  function BackTaken(s: State): State
    requires s.back != []
  {
    var id := s.back[0].pending.id;
    s.(back := s.back[1..], pendingOpens := s.pendingOpens - {id}, cancelledOpens := s.cancelledOpens - {id})
  }

  lemma TakeBackCounts(s: State, x: Id)
    requires s.back != []
    ensures var id := s.back[0].pending.id;
      && Opening(BackTaken(s), x) + One(x == id) == Opening(s, x)
      && Elsewhere(BackTaken(s), x) + One(x == id) == Elsewhere(s, x)
      && Calls(BackTaken(s), x) + One(x == id) == Calls(s, x)
  {}

  lemma TakeBackCalls(s: State)
    requires CallsInv(s, Nothing) && s.back != []
    ensures CallsInv(BackTaken(s), Fresh(s.back[0].pending.id))
  {
    forall x: Id
      ensures Calls(BackTaken(s), x) + HandIs(Fresh(s.back[0].pending.id), x) == One(1 <= x < s.nextOp)
    {
      TakeBackCounts(s, x);
      assert Calls(s, x) + HandIs(Nothing, x) == One(1 <= x < s.nextOp);
    }
  }

  lemma TakeBackJobs(s: State)
    requires JobsInv(s, Nothing) && CancelInv(s, Nothing) && s.back != []
    requires Opening(s, s.back[0].pending.id) <= 1
    ensures JobsInv(BackTaken(s), Fresh(s.back[0].pending.id))
    ensures CancelInv(BackTaken(s), Fresh(s.back[0].pending.id))
    ensures s.back[0].pending.id !in s.cancelledOpens ==> Doomed(s.back[0].pending.id) !in s.trace
  {
    var id := s.back[0].pending.id;
    forall x: Id
      ensures Opening(BackTaken(s), x) + One(x == id) == Opening(s, x)
      ensures Elsewhere(BackTaken(s), x) + One(x == id) == Elsewhere(s, x)
    {
      TakeBackCounts(s, x);
    }
    assert id in s.ledger.accepted ==> Elsewhere(s, id) == 0;
  }

  /** An answer of the helpers comes into hand. */
  lemma TakeBackHist(s: State)
    requires Hist(s, Nothing) && s.back != []
    ensures Hist(BackTaken(s), Fresh(s.back[0].pending.id))
    ensures s.back[0].pending.id in s.cancelledOpens <==> Doomed(s.back[0].pending.id) in s.trace
  {
    var id := s.back[0].pending.id;
    assert Calls(s, id) + HandIs(Nothing, id) == One(1 <= id < s.nextOp);
    TakeBackCalls(s);
    TakeBackJobs(s);
  }

  lemma HandleOpenedHist(k: Kernel, s: State)
    requires OwnInv(s, None) && Hist(s, Nothing) && s.back != []
    ensures Hist(HandleOpened(k, s.(back := s.back[1..]), s.back[0]), Nothing)
  {
    hide Hist, AfterOpened, LooseInv;
    var back := s.back[0];
    var id := back.pending.id;
    TakeBackHist(s);
    TakeBackOwn(s, back);
    FreshEntry(s);
    var s0 := s.(back := s.back[1..]);
    var s2 := s0.(pendingOpens := s.pendingOpens - {id}, cancelledOpens := s.cancelledOpens - {id});
    if id in s.cancelledOpens {
      if back.result.Opened? {
        CloseRawHist(k, s2, back.result.fd, Fresh(id));
        SettleHist(CloseRaw(k, s2, back.result.fd), Fresh(id), Err(Cancelled));
      } else {
        SettleHist(s2, Fresh(id), Err(Cancelled));
      }
    } else {
      assert s.cancelledOpens - {id} == s.cancelledOpens;
      if back.result.Opened? { LooseSame(s0, s2, back.result.fd); }
      AfterOpenedHist(k, s2, back.pending, back.result);
    }
  }

  // ---------------------------------------------------------------------
  // Messages
  // ---------------------------------------------------------------------

  lemma DeferCalls(s: State, h: Handle, id: Id)
    requires CallsInv(s, Fresh(id)) && h in s.files && s.files[h].closing.None?
    ensures CallsInv(s.(files := s.files[h := s.files[h].(closing := Some(id))]), Nothing)
  {
    var r := s.(files := s.files[h := s.files[h].(closing := Some(id))]);
    forall x: Id ensures Calls(r, x) + HandIs(Nothing, x) == One(1 <= x < r.nextOp) {
      ClosingUpdate(s.files, h, s.files[h].(closing := Some(id)), x);
      assert Calls(s, x) + HandIs(Fresh(id), x) == One(1 <= x < s.nextOp);
    }
  }

  /** A close waits for the jobs on its handle. */
  lemma DeferHist(s: State, h: Handle, id: Id)
    requires Hist(s, Fresh(id)) && Doomed(id) !in s.trace && h in s.files && s.files[h].closing.None?
    ensures Hist(s.(files := s.files[h := s.files[h].(closing := Some(id))]), Nothing)
  {
    var files := s.files[h := s.files[h].(closing := Some(id))];
    DeferCalls(s, h, id);
    forall x: Id | x in s.ledger.accepted || Doomed(x) in s.trace
      ensures |ClosingAt(files, x)| <= |ClosingAt(s.files, x)|
    {
      ClosingUpdate(s.files, h, s.files[h].(closing := Some(id)), x);
    }
    FilesJobs(s, files, s.nextId, Fresh(id));
    FilesGone(s, files, s.nextId);
  }

  lemma HandleCloseHist(k: Kernel, s: State, h: Handle, id: Id)
    requires OwnInv(s, None) && Hist(s, Fresh(id)) && Doomed(id) !in s.trace
    ensures Hist(HandleClose(k, s, h, id), Nothing)
  {
    hide Hist;
    if h !in s.files || s.files[h].closing.Some? {
      SettleHist(s, Fresh(id), Err(BadHandle));
    } else if s.files[h].ops > 0 {
      DeferHist(s, h, id);
    } else {
      CountedAlone(s, None, h);
      CloseHandleHist(k, s, h, id, Fresh(id));
    }
  }

  lemma SettleNow(s: State, id: Id, result: Result)
    requires Hist(s, Fresh(id)) && Doomed(id) !in s.trace && result != Err(Cancelled)
    ensures Hist(Settle(s, id, result), Nothing) && Hist(Settle(Ticked(s), id, result), Nothing)
  {
    hide Hist;
    TickHist(s, Fresh(id));
    SettleHist(s, Fresh(id), result);
    SettleHist(Ticked(s), Fresh(id), result);
  }

  lemma HandleFileOpHist(k: Kernel, s: State, id: Id, op: Op, fd: Fd)
    requires op.ReadAt? || op.ReadRest? || op.WriteAt? || op.Sync? || op.SetLen? || op.Size?
    requires OwnInv(s, None) && WithFd(s, op.handle) == Some(fd)
    requires Hist(s, Fresh(id)) && Doomed(id) !in s.trace
    ensures Hist(HandleFileOp(k, s, id, op, fd), Nothing)
  {
    hide Hist, OwnInv;
    var a := k(s.tick);
    match op
    case Size(_) => SettleNow(s, id, StatReply(k, s));
    case SetLen(_) =>
      SettleNow(s, id, if a.truncateError.Some? then Err(Os(a.truncateError.value)) else Ok(UnitReply));
    case Sync(h) => EnqueueOnHandleHist(k, s, id, Fsync(Some(h), fd, false));
    case ReadAt(h, pos, len, external) =>
      SettleNow(s, id, Ok(if external then ReadReply(0) else BytesReply([])));
      EnqueueOnHandleHist(k, s, id, SizedRead(h, fd, pos, len, external));
    case ReadRest(h, pos) =>
      TickHist(s, Fresh(id));
      SizedHist(Ticked(s), id, a.look.size, Fresh(id));
      TickOwn(s);
      SizedOwn(Ticked(s), id, a.look.size);
      EnqueueOnHandleHist(k, Sized(Ticked(s), id, a.look.size), id,
                          ReadToEnd(Some(h), fd, false, pos, SizeOr(a.look.size)));
    case WriteAt(h, pos, data, append) =>
      var stat := StatReply(k, s);
      SettleNow(s, id, Ok(WrittenReply(0, pos)));
      SettleNow(s, id, if stat.Ok? then Ok(WrittenReply(0, stat.reply.size)) else stat);
      if data != [] { EnqueueOnHandleHist(k, s, id, Write(Some(h), fd, false, pos, append, data, 0)); }
  }

  lemma SizedOwn(s: State, id: Id, size: Option<nat>)
    requires OwnInv(s, None)
    ensures OwnInv(Sized(s, id, size), None)
  {
    SameOwn(s, Sized(s, id, size));
  }

  /** The size a read is queued by is looked at by no other part of the history. */
  lemma SizedHist(s: State, id: Id, size: Option<nat>, hand: Hand)
    requires Hist(s, hand)
    ensures Hist(Sized(s, id, size), hand)
  {
    hide CallsInv, JobsInv, CancelInv, MarksSaid, Honest, Completes, AllSettled, Waiting, Without;
    SizedCalls(s, id, size, hand);
    SizedJobs(s, id, size, hand);
  }

  lemma SizedJobs(s: State, id: Id, size: Option<nat>, hand: Hand)
    requires JobsInv(s, hand) && CancelInv(s, hand) && MarksSaid(s)
    ensures var r := Sized(s, id, size); JobsInv(r, hand) && CancelInv(r, hand) && MarksSaid(r)
  {
    var r := Sized(s, id, size);
    hide Known, Honest, Earned;
    forall x: Id ensures Elsewhere(r, x) == Elsewhere(s, x) && Opening(r, x) == Opening(s, x) {}
    hide Elsewhere, Opening;
  }

  lemma SizedCalls(s: State, id: Id, size: Option<nat>, hand: Hand)
    requires CallsInv(s, hand)
    ensures CallsInv(Sized(s, id, size), hand)
  {
    forall x: Id ensures Calls(Sized(s, id, size), x) + HandIs(hand, x) == One(1 <= x < s.nextOp) {
      assert Calls(s, x) + HandIs(hand, x) == One(1 <= x < s.nextOp);
    }
  }

  lemma TickOwn(s: State)
    requires OwnInv(s, None)
    ensures OwnInv(Ticked(s), None)
  {
    SameOwn(s, Ticked(s));
  }

  lemma HandleOpHist(k: Kernel, s: State, id: Id, op: Op)
    requires OwnInv(s, None) && Hist(s, Fresh(id)) && Doomed(id) !in s.trace
    ensures Hist(HandleOp(k, s, id, op), Nothing)
  {
    hide Hist, OwnInv;
    match op
    case Nop => SettleNow(s, id, Ok(UnitReply));
    case Open => OpenThenHist(k, s, Pending(id, AsHandle));
    case ReadFile(inlineMax) => OpenThenHist(k, s, Pending(id, AsRead(inlineMax)));
    case WriteFile(data) => OpenThenHist(k, s, Pending(id, AsWrite(data)));
    case Close(h) => HandleCloseHist(k, s, h, id);
    case _ =>
      if WithFd(s, op.handle).None? {
        SettleNow(s, id, Err(BadHandle));
      } else {
        HandleFileOpHist(k, s, id, op, WithFd(s, op.handle).value);
      }
  }

  // ---------------------------------------------------------------------
  // Cancels
  // ---------------------------------------------------------------------

  lemma {:induction false} WithoutMore(ids: seq<Id>, dropped: set<Id>, id: Id)
    ensures Without(ids, dropped + {id}) == Without(Without(ids, dropped), {id})
    decreases |ids|
  {
    if ids != [] {
      WithoutMore(ids[1..], dropped, id);
      var head := if ids[0] in dropped then [] else [ids[0]];
      WithoutAppend(head, Without(ids[1..], dropped), {id});
      if ids[0] !in dropped { assert [ids[0]][1..] == []; }
    }
  }

  lemma {:induction false} WithoutNone(ids: seq<Id>, dropped: set<Id>)
    requires forall x :: x in ids ==> x !in dropped
    ensures Without(ids, dropped) == ids
    decreases |ids|
  {
    if ids != [] {
      WithoutNone(ids[1..], dropped);
    }
  }

  lemma {:induction false} WaitingIds(queue: seq<Job>, firsts: seq<Id>, x: Id)
    requires x in Waiting(queue, firsts)
    ensures exists i :: 0 <= i < |queue| && queue[i].id == x
    decreases |queue|
  {
    if queue[0].id != x || queue[0].id in firsts {
      WaitingIds(queue[1..], firsts, x);
      var i :| 0 <= i < |queue[1..]| && queue[1..][i].id == x;
      assert queue[i + 1].id == x;
    }
  }

  /** Taking out an id that is only in the middle. */
  lemma WithoutMiddle(a: seq<Id>, middle: seq<Id>, b: seq<Id>, gone: set<Id>)
    requires Without(a, gone) == a && Without(b, gone) == b && Without(middle, gone) == []
    ensures Without(a + (middle + b), gone) == a + b
  {
    hide Without;
    WithoutAppend(a, middle + b, gone);
    WithoutAppend(middle, b, gone);
    assert [] + b == b;
  }

  lemma WithoutOne(ids: seq<Id>, id: Id)
    requires ids == [] || ids == [id]
    ensures Without(ids, {id}) == []
  {
    if ids != [] { assert ids[1..] == []; }
  }

  lemma WaitingWithout(queue: seq<Job>, firsts: seq<Id>, id: Id)
    requires forall i :: 0 <= i < |queue| ==> queue[i].id != id
    ensures id !in Waiting(queue, firsts)
  {
    if id in Waiting(queue, firsts) {
      WaitingIds(queue, firsts, id);
    }
  }

  /** Without its job at place `i` the queue waits without that job's id. */
  lemma WaitingRemove(queue: seq<Job>, firsts: seq<Id>, i: nat)
    requires i < |queue|
    requires forall j :: 0 <= j < |queue| && j != i ==> queue[j].id != queue[i].id
    ensures var rest := queue[..i] + queue[i + 1..];
      Waiting(rest, firsts) == Without(Waiting(queue, firsts), {queue[i].id})
      && (queue[i].id in firsts ==> Waiting(rest, firsts) == Waiting(queue, firsts))
  {
    var a, one, b := queue[..i], [queue[i]], queue[i + 1..];
    assert queue == a + (one + b);
    assert Waiting(one, firsts) == if queue[i].id in firsts then [] else [queue[i].id] by {
      assert one[1..] == [];
    }
    hide Waiting, Without;
    WaitingAppend(a, one + b, firsts);
    WaitingAppend(one, b, firsts);
    WaitingAppend(a, b, firsts);
    WaitingWithout(a, firsts, queue[i].id);
    WaitingWithout(b, firsts, queue[i].id);
    WithoutNone(Waiting(a, firsts), {queue[i].id});
    WithoutNone(Waiting(b, firsts), {queue[i].id});
    WithoutOne(Waiting(one, firsts), queue[i].id);
    WithoutMiddle(Waiting(a, firsts), Waiting(one, firsts), Waiting(b, firsts), {queue[i].id});
    assert Waiting(one, firsts) == [] ==> Waiting(one, firsts) + Waiting(b, firsts) == Waiting(b, firsts);
  }

  /** Jobs submitted before are ahead of fresh ones. */
  predicate OldFirst(queue: seq<Job>, firsts: seq<Id>) {
    forall p, q :: 0 <= p < q < |queue| && queue[q].id in firsts ==> queue[p].id in firsts
  }

  lemma DropOrder(queue: seq<Job>, firsts: seq<Id>, i: nat)
    requires OldFirst(queue, firsts) && i < |queue|
    ensures OldFirst(queue[..i] + queue[i + 1..], firsts)
  {
    var rest := queue[..i] + queue[i + 1..];
    forall p, q | 0 <= p < q < |rest| && rest[q].id in firsts ensures rest[p].id in firsts {
      var p' := if p < i then p else p + 1;
      var q' := if q < i then q else q + 1;
      assert rest[p] == queue[p'] && rest[q] == queue[q'];
    }
  }

  /** The callback of a queued job is nowhere else. */
  lemma NotInFlight(s: State, i: nat, j: nat)
    requires CallsInv(s, Nothing) && i < |s.queue| && j < |s.inflight|
    ensures s.queue[i].id != s.inflight[j].job.id
  {
    var x := s.queue[i].id;
    assert Calls(s, x) + HandIs(Nothing, x) == One(1 <= x < s.nextOp);
    SumAtLeast(s.queue, i, JobIs(x));
    SumAtLeast(s.inflight, j, FlightIs(x));
  }

  lemma QueuedAlone(s: State, i: nat)
    requires CallsInv(s, Nothing) && i < |s.queue|
    ensures forall j :: 0 <= j < |s.queue| && j != i ==> s.queue[j].id != s.queue[i].id
    ensures forall j :: 0 <= j < |s.inflight| ==> s.inflight[j].job.id != s.queue[i].id
  {
    hide CallsInv;
    forall j | 0 <= j < |s.queue| && j != i ensures s.queue[j].id != s.queue[i].id { OnlyOnce(s, i, j); }
    forall j | 0 <= j < |s.inflight| ensures s.inflight[j].job.id != s.queue[i].id { NotInFlight(s, i, j); }
  }

  lemma DropWaiting(s: State, i: nat)
    requires CallsInv(s, Nothing) && i < |s.queue|
    requires Without(s.arrivals, s.dropped) == s.firsts + Waiting(s.queue, s.firsts)
    ensures var r := Dropped(s, i); Without(r.arrivals, r.dropped) == r.firsts + Waiting(r.queue, r.firsts)
  {
    hide Without, Waiting;
    var id := s.queue[i].id;
    QueuedAlone(s, i);
    hide CallsInv;
    WaitingRemove(s.queue, s.firsts, i);
    if id !in s.firsts {
      WithoutMore(s.arrivals, s.dropped, id);
      WithoutAppend(s.firsts, Waiting(s.queue, s.firsts), {id});
      WithoutNone(s.firsts, {id});
    }
  }

  lemma DropFifo(s: State, i: nat)
    requires CallsInv(s, Nothing) && FifoInv(s) && i < |s.queue| && s.queue[i].id in s.arrivals
    ensures FifoInv(Dropped(s, i))
  {
    hide CallsInv, Without, Waiting;
    DropWaiting(s, i);
    assert OldFirst(s.queue, s.firsts);
    DropOrder(s.queue, s.firsts, i);
  }

  lemma DropCalls(s: State, i: nat)
    requires CallsInv(s, Nothing) && i < |s.queue|
    ensures CallsInv(Dropped(s, i), Holding(s.queue[i]))
  {
    var r := Dropped(s, i);
    forall x: Id ensures Calls(r, x) + HandIs(Holding(s.queue[i]), x) == One(1 <= x < r.nextOp) {
      SumRemove(s.queue, i, JobIs(x));
      assert Calls(s, x) + HandIs(Nothing, x) == One(1 <= x < s.nextOp);
    }
  }

  lemma DoomTrace(s: State, id: Id)
    requires NoIssueAfterDoom(s.trace)
    ensures NoIssueAfterDoom(s.trace + [Doomed(id)])
  {}

  lemma DropJobs(s: State, i: nat)
    requires JobsInv(s, Nothing) && i < |s.queue|
    ensures JobsInv(Dropped(s, i), Holding(s.queue[i]))
  {
    hide Honest, Known;
    var r := Dropped(s, i);
    forall x: Id ensures Elsewhere(r, x) == Elsewhere(s, x) {}
    hide Elsewhere;
    forall j | 0 <= j < |r.queue| ensures Known(r.ledger.accepted, r.ledger.chunks, r.queue[j]) {
      var j' := if j < i then j else j + 1;
      assert r.queue[j] == s.queue[j'];
    }
  }

  lemma DropCancel(s: State, i: nat)
    requires CancelInv(s, Nothing) && i < |s.queue|
    requires Elsewhere(s, s.queue[i].id) == 0 && s.queue[i].id < s.nextOp
    requires forall j :: 0 <= j < |s.queue| && j != i ==> s.queue[j].id != s.queue[i].id
    requires forall j :: 0 <= j < |s.inflight| ==> s.inflight[j].job.id != s.queue[i].id
    ensures CancelInv(Dropped(s, i), Holding(s.queue[i]))
  {
    var r := Dropped(s, i);
    DoomTrace(s, s.queue[i].id);
    forall x: Id ensures Opening(r, x) == Opening(s, x) {}
    forall j | 0 <= j < |r.queue| ensures !r.queue[j].cancelled && Doomed(r.queue[j].id) !in r.trace {
      var j' := if j < i then j else j + 1;
      assert r.queue[j] == s.queue[j'];
    }
  }

  lemma DropLog(s: State, i: nat)
    requires ResultsHonest(s) && MarksSaid(s) && i < |s.queue| && s.queue[i].id in s.ledger.accepted
    ensures ResultsHonest(Dropped(s, i)) && MarksSaid(Dropped(s, i))
  {
    hide Honest, Completes;
    var r := Dropped(s, i);
    forall j | 0 <= j < |s.log|
      ensures DoomSaid(r.ledger.accepted, r.trace, s.log[j])
      ensures Earned(r.ledger.accepted, r.ledger.chunks, r.trace, s.log[j])
    {
      assert DoomSaid(s.ledger.accepted, s.trace, s.log[j]);
      assert Earned(s.ledger.accepted, s.ledger.chunks, s.trace, s.log[j]);
    }
  }

  lemma DropHist(s: State, i: nat)
    requires Hist(s, Nothing) && i < |s.queue|
    ensures Hist(Dropped(s, i), Holding(s.queue[i]))
  {
    assert Known(s.ledger.accepted, s.ledger.chunks, s.queue[i]);
    DropLog(s, i);
    hide CallsInv, CancelInv, MarksSaid, ResultsHonest, FifoInv, AllSettled, Known, Calls, Elsewhere;
    QueuedAlone(s, i);
    DropFifo(s, i);
    DropCalls(s, i);
    DropJobs(s, i);
    DropCancel(s, i);
    hide JobsInv;
  }

  /** Another in-flight request with the id of one. */
  lemma OneFlight(s: State, i: nat, j: nat)
    requires CallsInv(s, Nothing) && i < |s.inflight| && j < |s.inflight| && i != j
    ensures s.inflight[i].job.id != s.inflight[j].job.id
  {
    var x := s.inflight[i].job.id;
    assert Calls(s, x) + HandIs(Nothing, x) == One(1 <= x < s.nextOp);
    SumRemove(s.inflight, i, FlightIs(x));
    var rest := s.inflight[..i] + s.inflight[i + 1..];
    var k := if j < i then j else j - 1;
    assert rest[k] == s.inflight[j];
    SumAtLeast(rest, k, FlightIs(x));
  }

  /** An in-flight request is answered or marked cancelled. */
  lemma ChangeFlightCalls(s: State, i: nat, flight: Flight, hand: Hand)
    requires CallsInv(s, hand) && i < |s.inflight| && flight.job.id == s.inflight[i].job.id
    ensures CallsInv(s.(inflight := s.inflight[i := flight]), hand)
  {
    var r := s.(inflight := s.inflight[i := flight]);
    forall x: Id ensures Calls(r, x) + HandIs(hand, x) == One(1 <= x < r.nextOp) {
      SumUpdate(s.inflight, i, flight, FlightIs(x));
      assert Calls(s, x) + HandIs(hand, x) == One(1 <= x < s.nextOp);
    }
  }

  lemma ChangeFlightJobs(s: State, i: nat, flight: Flight)
    requires JobsInv(s, Nothing) && i < |s.inflight|
    requires flight.job.(cancelled := s.inflight[i].job.cancelled) == s.inflight[i].job
    ensures JobsInv(s.(inflight := s.inflight[i := flight]), Nothing)
  {
    hide Honest, Runs, Replay;
    var r := s.(inflight := s.inflight[i := flight]);
    forall x: Id ensures Elsewhere(r, x) == Elsewhere(s, x) {}
    hide Elsewhere;
    assert Known(s.ledger.accepted, s.ledger.chunks, s.inflight[i].job);
  }

  /** The kernel has completed a request, and that it failed is recorded. */
  lemma CompletedHist(s: State, i: nat, ret: Ret)
    requires Hist(s, Nothing) && i < |s.inflight|
    ensures Hist(Completed(s, i, ret), Nothing)
  {
    hide Hist;
    var flight := s.inflight[i].(ret := Some(ret));
    if ret.Failed? {
      FaultHist(s, Failure(flight.job.id, ret.code), Nothing);
      ChangeFlightHist(Touched(s, Failure(flight.job.id, ret.code)), i, flight);
    } else {
      ChangeFlightHist(s, i, flight);
    }
  }

  lemma ChangeFlightCancel(s: State, i: nat, flight: Flight)
    requires CancelInv(s, Nothing) && FifoInv(s) && MarksSaid(s) && i < |s.inflight|
    requires flight.job == s.inflight[i].job && FailureSaid(s.trace, flight)
    ensures var r := s.(inflight := s.inflight[i := flight]); CancelInv(r, Nothing) && FifoInv(r) && MarksSaid(r)
  {
    var r := s.(inflight := s.inflight[i := flight]);
    forall x: Id ensures Opening(r, x) == Opening(s, x) {}
    hide Opening, FailureSaid;
  }

  lemma ChangeFlightHist(s: State, i: nat, flight: Flight)
    requires Hist(s, Nothing) && i < |s.inflight|
    requires flight.job == s.inflight[i].job && FailureSaid(s.trace, flight)
    ensures Hist(s.(inflight := s.inflight[i := flight]), Nothing)
  {
    hide CallsInv, JobsInv, CancelInv, MarksSaid, FifoInv, AllSettled, Honest, FailureSaid;
    ChangeFlightCalls(s, i, flight, Nothing);
    ChangeFlightJobs(s, i, flight);
    ChangeFlightCancel(s, i, flight);
  }

  /** What a cancel marks in its turn: the op's request, or its open. */
  predicate Marks(s: State, id: Id, inflight: seq<Flight>, cancelledOpens: set<Id>) {
    && |inflight| == |s.inflight|
    && (forall i :: 0 <= i < |inflight| ==> Marked(s.inflight[i], id, inflight[i]))
    && cancelledOpens == (if id in s.pendingOpens then s.cancelledOpens + {id} else s.cancelledOpens)
  }

  predicate Marked(before: Flight, id: Id, after: Flight) {
    after == if before.job.id == id then before.(job := before.job.(cancelled := true)) else before
  }

  /** A cancel of an op whose callback is not in the channel, the queue or a
      deferred close. */
  predicate Doomable(s: State, id: Id) {
    && Sum(s.rx, MsgIs(id)) == 0 && |ClosingAt(s.files, id)| == 0 && id < s.nextOp
    && (forall i :: 0 <= i < |s.queue| ==> s.queue[i].id != id)
    && (id in s.ledger.accepted || TimesSettled(s, id) == 0)
  }

  function DoomedBy(s: State, id: Id, inflight: seq<Flight>, cancelledOpens: set<Id>): State {
    Touched(s, Doomed(id)).(inflight := inflight, cancelledOpens := cancelledOpens)
  }

  lemma DoomHist(s: State, id: Id, inflight: seq<Flight>, cancelledOpens: set<Id>)
    requires Hist(s, Nothing) && Doomable(s, id) && Marks(s, id, inflight, cancelledOpens)
    ensures Hist(DoomedBy(s, id, inflight, cancelledOpens), Nothing)
  {
    assert |inflight| == |s.inflight|;
    hide CallsInv, JobsInv, CancelInv, MarksSaid, GoneLast, ResultsHonest, FifoInv, Doomable, Marks;
    DoomCalls(s, id, inflight, cancelledOpens);
    DoomJobs(s, id, inflight, cancelledOpens);
    DoomCancel(s, id, inflight, cancelledOpens);
    DoomLog(s, id, inflight, cancelledOpens);
  }

  lemma MarkedCalls(s: State, id: Id, inflight: seq<Flight>, x: Id)
    requires |inflight| == |s.inflight| && forall i :: 0 <= i < |inflight| ==> Marked(s.inflight[i], id, inflight[i])
    ensures Sum(inflight, FlightIs(x)) == Sum(s.inflight, FlightIs(x))
  {
    forall i | 0 <= i < |inflight| ensures FlightIs(x)(s.inflight[i]) == FlightIs(x)(inflight[i]) {
      assert Marked(s.inflight[i], id, inflight[i]);
    }
    SumSame(s.inflight, inflight, FlightIs(x));
  }

  lemma DoomCalls(s: State, id: Id, inflight: seq<Flight>, cancelledOpens: set<Id>)
    requires CallsInv(s, Nothing) && Marks(s, id, inflight, cancelledOpens)
    ensures CallsInv(DoomedBy(s, id, inflight, cancelledOpens), Nothing)
  {
    var r := DoomedBy(s, id, inflight, cancelledOpens);
    forall x: Id ensures Calls(r, x) + HandIs(Nothing, x) == One(1 <= x < r.nextOp) {
      MarkedCalls(s, id, inflight, x);
      assert Calls(s, x) + HandIs(Nothing, x) == One(1 <= x < s.nextOp);
    }
  }

  lemma DoomLog(s: State, id: Id, inflight: seq<Flight>, cancelledOpens: set<Id>)
    requires GoneLast(s) && ResultsHonest(s) && FifoInv(s) && Doomable(s, id) && Marks(s, id, inflight, cancelledOpens)
    ensures var r := DoomedBy(s, id, inflight, cancelledOpens); GoneLast(r) && ResultsHonest(r) && FifoInv(r)
  {
    hide AllSettled, Honest, Completes, Without, Waiting, ClosingAt;
    var r := DoomedBy(s, id, inflight, cancelledOpens);
    forall i | 0 <= i < |s.log|
      ensures DoomSaid(r.ledger.accepted, r.trace, s.log[i])
      ensures Earned(r.ledger.accepted, r.ledger.chunks, r.trace, s.log[i])
    {
      assert DoomSaid(s.ledger.accepted, s.trace, s.log[i]);
      assert Earned(s.ledger.accepted, s.ledger.chunks, s.trace, s.log[i]);
      if !s.log[i].Closed? && s.log[i].id == id { SumAtLeast(s.log, i, SettledIs(id)); }
    }
    forall i | 0 <= i < |inflight| ensures inflight[i].job.id in s.firsts {
      assert Marked(s.inflight[i], id, inflight[i]);
    }
  }

  lemma DoomJobs(s: State, id: Id, inflight: seq<Flight>, cancelledOpens: set<Id>)
    requires JobsInv(s, Nothing) && Marks(s, id, inflight, cancelledOpens)
    ensures JobsInv(DoomedBy(s, id, inflight, cancelledOpens), Nothing)
  {
    hide Runs, Replay;
    var r := DoomedBy(s, id, inflight, cancelledOpens);
    forall x: Id ensures Elsewhere(r, x) == Elsewhere(s, x) {}
    hide Elsewhere;
    forall i | 0 <= i < |inflight| ensures Known(s.ledger.accepted, s.ledger.chunks, inflight[i].job) {
      assert Marked(s.inflight[i], id, inflight[i]) && Known(s.ledger.accepted, s.ledger.chunks, s.inflight[i].job);
    }
  }

  lemma DoomCancel(s: State, id: Id, inflight: seq<Flight>, cancelledOpens: set<Id>)
    requires CancelInv(s, Nothing) && MarksSaid(s) && Doomable(s, id) && Marks(s, id, inflight, cancelledOpens)
    ensures var r := DoomedBy(s, id, inflight, cancelledOpens); CancelInv(r, Nothing) && MarksSaid(r)
  {
    var r := DoomedBy(s, id, inflight, cancelledOpens);
    DoomTrace(s, id);
    forall x: Id ensures Opening(r, x) == Opening(s, x) {}
    hide Opening, ClosingAt;
    forall i | 0 <= i < |inflight|
      ensures inflight[i].job.id == s.inflight[i].job.id
      ensures inflight[i].job.cancelled <==> s.inflight[i].job.cancelled || s.inflight[i].job.id == id
      ensures FailureSaid(r.trace, inflight[i])
    {
      assert Marked(s.inflight[i], id, inflight[i]) && FailureSaid(s.trace, s.inflight[i]);
    }
  }

  lemma CancelQueued(k: Kernel, s: State, i: nat)
    requires OwnInv(s, None) && Hist(s, Nothing) && i < |s.queue|
    ensures Hist(Finish(k, Dropped(s, i), s.queue[i], Err(Cancelled)), Nothing)
  {
    hide Hist, OwnInv;
    DropHist(s, i);
    DropOwn(s, i);
    assert Doomed(s.queue[i].id) in Dropped(s, i).trace;
    FailHist(Dropped(s, i), s.queue[i], Cancelled);
    FinishHist(k, Dropped(s, i), s.queue[i], Err(Cancelled));
  }

  lemma CancelOpen(s: State, id: Id)
    requires Hist(s, Nothing) && id in s.pendingOpens
    requires forall i :: 0 <= i < |s.queue| ==> s.queue[i].id != id
    requires forall i :: 0 <= i < |s.inflight| ==> s.inflight[i].job.id != id
    ensures Hist(Touched(s, Doomed(id)).(cancelledOpens := s.cancelledOpens + {id}), Nothing)
  {
    assert Calls(s, id) + HandIs(Nothing, id) == One(1 <= id < s.nextOp);
    assert Doomable(s, id);
    hide Hist, Doomable;
    DoomHist(s, id, s.inflight, s.cancelledOpens + {id});
  }

  lemma HandleCancelHist(k: Kernel, s: State, id: Id)
    requires OwnInv(s, None) && Hist(s, Nothing)
    ensures Hist(HandleCancel(k, s, id), Nothing)
  {
    hide Hist, OwnInv;
    var i := Place(s.queue, id);
    var j := FlightPlace(s.inflight, id);
    if i < |s.queue| {
      CancelQueued(k, s, i);
    } else if j < |s.inflight| {
      CancelFlight(s, j);
    } else if id in s.pendingOpens {
      CancelOpen(s, id);
    }
  }

  lemma CancelFlight(s: State, j: nat)
    requires Hist(s, Nothing) && j < |s.inflight|
    requires forall i :: 0 <= i < |s.queue| ==> s.queue[i].id != s.inflight[j].job.id
    ensures var flight := s.inflight[j];
      Hist(Touched(s, Doomed(flight.job.id)).(
             inflight := s.inflight[j := flight.(job := flight.job.(cancelled := true))]), Nothing)
  {
    var flight := s.inflight[j];
    var id := flight.job.id;
    assert Calls(s, id) + HandIs(Nothing, id) == One(1 <= id < s.nextOp);
    SumAtLeast(s.inflight, j, FlightIs(id));
    assert Doomable(s, id) && Opening(s, id) == 0;
    assert id !in s.pendingOpens;
    hide CallsInv, JobsInv, CancelInv, MarksSaid, FifoInv, GoneLast, ResultsHonest, Calls, Opening, Doomable;
    forall i | 0 <= i < |s.inflight| && i != j ensures s.inflight[i].job.id != id { OneFlight(s, j, i); }
    var marked := s.inflight[j := flight.(job := flight.job.(cancelled := true))];
    hide Hist;
    DoomHist(s, id, marked, s.cancelledOpens);
  }

  // ---------------------------------------------------------------------
  // Completions
  // ---------------------------------------------------------------------

  /** A job goes to the front of the queue for its next chunk. */
  lemma ResumeHist(s: State, job: Job)
    requires Hist(s, Holding(job)) && !job.cancelled && Doomed(job.id) !in s.trace && job.id in s.firsts
    ensures Hist(Pushed(s, job, true), Nothing)
  {
    ResumeCalls(s, job);
    ResumeJobs(s, job);
    ResumeFifo(s, job);
  }

  lemma ResumeCalls(s: State, job: Job)
    requires CallsInv(s, Holding(job))
    ensures CallsInv(Pushed(s, job, true), Nothing)
  {
    forall x: Id ensures Calls(Pushed(s, job, true), x) + HandIs(Nothing, x) == One(1 <= x < s.nextOp) {
      PushedCalls(s, job, true, x);
      assert Calls(s, x) + HandIs(Holding(job), x) == One(1 <= x < s.nextOp);
    }
  }

  lemma ResumeJobs(s: State, job: Job)
    requires JobsInv(s, Holding(job)) && CancelInv(s, Holding(job))
    requires !job.cancelled && Doomed(job.id) !in s.trace
    ensures JobsInv(Pushed(s, job, true), Nothing) && CancelInv(Pushed(s, job, true), Nothing)
  {
    var r := Pushed(s, job, true);
    hide Known, Honest;
    forall x: Id ensures Elsewhere(r, x) == Elsewhere(s, x) && Opening(r, x) == Opening(s, x) {}
    hide Elsewhere, Opening;
  }

  lemma ResumeFifo(s: State, job: Job)
    requires FifoInv(s) && job.id in s.firsts
    ensures FifoInv(Pushed(s, job, true))
  {
    var r := Pushed(s, job, true);
    assert r.queue[1..] == s.queue;
    assert Waiting(r.queue, s.firsts) == [] + Waiting(s.queue, s.firsts);
  }

  lemma AdvanceHist(k: Kernel, s: State, job: Job, moved: Moved)
    requires OwnInv(s, Some(job)) && Hist(s, Holding(job)) && job.id in s.firsts
    requires Doomed(job.id) in s.trace <==> job.cancelled
    ensures Hist(Advance(k, s, job, moved), Nothing)
  {
    hide Hist, OwnInv;
    var a := k(s.tick);
    var m := Clamp(job.work, moved);
    var s1 := Recorded(Ticked(s), job.id, Chunk(m, a.look));
    TickHist(s, Holding(job));
    TickHand(s, job);
    RecordBoth(Ticked(s), job, m, a.look);
    match After(job.work, m, a.look)
    case Done(result) => FinishHist(k, s1, job, result);
    case More(work) =>
      if job.cancelled {
        FailHist(s1, job.(work := work), Cancelled);
        FinishHist(k, s1, job.(work := work), Err(Cancelled));
      } else {
        ResumeHist(s1, job.(work := work));
        PushOwn(s1, job.(work := work), true);
        SubmitReadyHist(k, Pushed(s1, job.(work := work), true));
      }
  }

  lemma TickHand(s: State, job: Job)
    requires OwnInv(s, Some(job))
    ensures OwnInv(Ticked(s), Some(job))
  {
    SameHand(s, Ticked(s), job, job);
  }

  function LandedAt(s: State, i: nat): State
    requires i < |s.inflight|
  {
    s.(inflight := SwapRemove(s.inflight, i))
  }

  lemma LandCalls(s: State, i: nat)
    requires CallsInv(s, Nothing) && i < |s.inflight|
    ensures CallsInv(LandedAt(s, i), Holding(s.inflight[i].job))
  {
    forall x: Id
      ensures Calls(LandedAt(s, i), x) + HandIs(Holding(s.inflight[i].job), x) == One(1 <= x < s.nextOp)
    {
      SumSwapRemove(s.inflight, i, FlightIs(x));
      assert Calls(s, x) + HandIs(Nothing, x) == One(1 <= x < s.nextOp);
    }
  }

  lemma SwapRemoveKeeps<T>(xs: seq<T>, i: nat, j: nat)
    requires i < |xs| && j < |SwapRemove(xs, i)|
    ensures SwapRemove(xs, i)[j] == if j == i then xs[|xs| - 1] else xs[j]
  {}

  lemma LandJobs(s: State, i: nat)
    requires JobsInv(s, Nothing) && i < |s.inflight|
    ensures JobsInv(LandedAt(s, i), Holding(s.inflight[i].job))
  {
    hide Known, Honest;
    var r := LandedAt(s, i);
    forall x: Id ensures Elsewhere(r, x) == Elsewhere(s, x) {}
    hide Elsewhere;
    forall j | 0 <= j < |r.inflight| ensures r.inflight[j] in s.inflight { SwapRemoveKeeps(s.inflight, i, j); }
  }

  lemma LandCancel(s: State, i: nat)
    requires CancelInv(s, Nothing) && FifoInv(s) && MarksSaid(s) && i < |s.inflight|
    ensures var r := LandedAt(s, i); CancelInv(r, Holding(s.inflight[i].job)) && FifoInv(r) && MarksSaid(r)
    ensures s.inflight[i].job.id in s.firsts && FailureSaid(s.trace, s.inflight[i])
    ensures Doomed(s.inflight[i].job.id) in s.trace <==> s.inflight[i].job.cancelled
  {
    var r := LandedAt(s, i);
    forall x: Id ensures Opening(r, x) == Opening(s, x) {}
    hide Opening, Waiting, Without, FailureSaid;
    forall j | 0 <= j < |r.inflight| ensures r.inflight[j] in s.inflight { SwapRemoveKeeps(s.inflight, i, j); }
  }

  lemma LandHist(s: State, i: nat)
    requires Hist(s, Nothing) && i < |s.inflight|
    ensures Hist(LandedAt(s, i), Holding(s.inflight[i].job)) && s.inflight[i].job.id in s.firsts
    ensures FailureSaid(s.trace, s.inflight[i])
    ensures Doomed(s.inflight[i].job.id) in s.trace <==> s.inflight[i].job.cancelled
  {
    hide CallsInv, JobsInv, CancelInv, MarksSaid, FifoInv, AllSettled, Honest;
    LandCalls(s, i);
    LandJobs(s, i);
    LandCancel(s, i);
  }

  lemma ReapAtHist(k: Kernel, s: State, i: nat)
    requires OwnInv(s, None) && Hist(s, Nothing) && i < |s.inflight| && s.inflight[i].ret.Some?
    ensures Hist(ReapAt(k, s, i), Nothing)
  {
    hide Hist, OwnInv;
    LandOwn(s, i);
    LandHist(s, i);
    match s.inflight[i].ret.value
    case Returned(moved) => AdvanceHist(k, LandedAt(s, i), s.inflight[i].job, moved);
    case Failed(code) =>
      FailHist(LandedAt(s, i), s.inflight[i].job, Os(code));
      FinishHist(k, LandedAt(s, i), s.inflight[i].job, Err(Os(code)));
  }

  // ---------------------------------------------------------------------
  // The other threads
  // ---------------------------------------------------------------------

  function HelperTaken(s: State, i: nat): State
    requires i < |s.toHelpers|
  {
    s.(toHelpers := s.toHelpers[..i] + s.toHelpers[i + 1..])
  }

  lemma HelperCloseHist(s: State, i: nat)
    requires Hist(s, Nothing) && i < |s.toHelpers| && s.toHelpers[i].CloseJob?
    ensures Hist(HelperTaken(s, i), Nothing)
  {
    var r := HelperTaken(s, i);
    forall x: Id
      ensures Opening(r, x) == Opening(s, x) && Elsewhere(r, x) == Elsewhere(s, x)
      ensures Calls(r, x) + HandIs(Nothing, x) == One(1 <= x < r.nextOp)
    {
      SumRemove(s.toHelpers, i, HelperIs(x));
      assert Calls(s, x) + HandIs(Nothing, x) == One(1 <= x < s.nextOp);
    }
  }

  /** An open goes from the helpers' channel to the one back. */
  lemma HelperOpenHist(s: State, i: nat, result: OpenResult)
    requires Hist(s, Nothing) && i < |s.toHelpers| && s.toHelpers[i].OpenJob?
    ensures Hist(HelperTaken(s, i).(back := s.back + [Back(s.toHelpers[i].pending, result)]), Nothing)
  {
    var back := Back(s.toHelpers[i].pending, result);
    var r := HelperTaken(s, i).(back := s.back + [back]);
    forall x: Id
      ensures Opening(r, x) == Opening(s, x) && Elsewhere(r, x) == Elsewhere(s, x)
      ensures Calls(r, x) + HandIs(Nothing, x) == One(1 <= x < r.nextOp)
    {
      SumRemove(s.toHelpers, i, HelperIs(x));
      SumSnoc(s.back, back, BackIs(x));
      assert Calls(s, x) + HandIs(Nothing, x) == One(1 <= x < s.nextOp);
    }
  }

  /** The open itself looks at neither channel, so it may as well come last. */
  lemma OpenNowAside(k: Kernel, s: State, back: seq<Back>, after: AfterOpen)
    ensures OpenNow(k, s.(back := back), after).1 == OpenNow(k, s, after).1
    ensures OpenNow(k, s.(back := back), after).0 == OpenNow(k, s, after).0.(back := back)
    ensures OpenNow(k, s, after).0.back == s.back
  {
    var a := k(s.tick);
    if a.openResult.Opened? && a.openResult.fd !in s.open {
      var open := s.open + {a.openResult.fd};
      assert CloseRaw(k, Ticked(s.(back := back)).(open := open), a.openResult.fd)
          == CloseRaw(k, Ticked(s).(open := open), a.openResult.fd).(back := back);
    }
  }

  lemma HelperStepIs(k: Kernel, s: State, i: nat)
    requires i < |s.toHelpers| && s.toHelpers[i].OpenJob?
    ensures var after := s.toHelpers[i].pending.after;
      var result := OpenNow(k, HelperTaken(s, i), after).1;
      HelperStep(k, s, i)
        == OpenNow(k, HelperTaken(s, i).(back := s.back + [Back(s.toHelpers[i].pending, result)]), after).0
  {
    hide OpenNow;
    var after := s.toHelpers[i].pending.after;
    var result := OpenNow(k, HelperTaken(s, i), after).1;
    OpenNowAside(k, HelperTaken(s, i), s.back + [Back(s.toHelpers[i].pending, result)], after);
  }

  lemma HelperStepHist(k: Kernel, s: State, i: nat)
    requires Hist(s, Nothing) && i < |s.toHelpers|
    ensures Hist(HelperStep(k, s, i), Nothing)
  {
    hide Hist;
    match s.toHelpers[i]
    case CloseJob(fd) =>
      HelperCloseHist(s, i);
      CloseRawHist(k, HelperTaken(s, i), fd, Nothing);
    case OpenJob(pending) =>
      var result := OpenNow(k, HelperTaken(s, i), pending.after).1;
      HelperOpenHist(s, i, result);
      HelperStepIs(k, s, i);
      OpenNowHist(k, HelperTaken(s, i).(back := s.back + [Back(pending, result)]), pending.after, Nothing);
  }

  function Sent(s: State, msg: Msg): State {
    s.(rx := s.rx + [msg], nextOp := if msg.Submit? then s.nextOp + 1 else s.nextOp,
       ledger := if msg.Submit? then s.ledger.(ops := s.ledger.ops[msg.id := msg.op]) else s.ledger)
  }

  lemma SendCalls(s: State, msg: Msg)
    requires CallsInv(s, Nothing) && (msg.Submit? ==> msg.id == s.nextOp && s.nextOp >= 1)
    ensures CallsInv(Sent(s, msg), Nothing)
  {
    forall x: Id ensures Calls(Sent(s, msg), x) + HandIs(Nothing, x) == One(1 <= x < Sent(s, msg).nextOp) {
      SumSnoc(s.rx, msg, MsgIs(x));
      assert Calls(s, x) + HandIs(Nothing, x) == One(1 <= x < s.nextOp);
    }
  }

  lemma SendJobs(s: State, msg: Msg)
    requires JobsInv(s, Nothing) && CancelInv(s, Nothing) && (msg.Submit? ==> msg.id == s.nextOp)
    ensures JobsInv(Sent(s, msg), Nothing) && CancelInv(Sent(s, msg), Nothing)
  {
    var r := Sent(s, msg);
    forall x: Id
      ensures Opening(r, x) == Opening(s, x)
      ensures Sum(r.rx, MsgIs(x)) == Sum(s.rx, MsgIs(x)) + MsgIs(x)(msg)
      ensures Elsewhere(r, x) == Elsewhere(s, x) + MsgIs(x)(msg)
    {
      SumSnoc(s.rx, msg, MsgIs(x));
    }
  }

  lemma SendHist(s: State, msg: Msg)
    requires Hist(s, Nothing) && (msg.Submit? ==> msg.id == s.nextOp)
    ensures Hist(Sent(s, msg), Nothing)
  {
    SendCalls(s, msg);
    SendJobs(s, msg);
  }

  function Received(s: State): State
    requires s.rx != []
  {
    s.(rx := s.rx[1..])
  }

  function ReceivedHand(s: State): Hand
    requires s.rx != []
  {
    if s.rx[0].Submit? then Fresh(s.rx[0].id) else Nothing
  }

  lemma ReceiveCounts(s: State, x: Id)
    requires s.rx != []
    ensures Opening(Received(s), x) == Opening(s, x)
    ensures Elsewhere(Received(s), x) + MsgIs(x)(s.rx[0]) == Elsewhere(s, x)
    ensures Calls(Received(s), x) + HandIs(ReceivedHand(s), x) == Calls(s, x)
  {}

  lemma ReceiveCalls(s: State)
    requires CallsInv(s, Nothing) && s.rx != []
    ensures CallsInv(Received(s), ReceivedHand(s))
  {
    hide Calls;
    forall x: Id ensures Calls(Received(s), x) + HandIs(ReceivedHand(s), x) == One(1 <= x < s.nextOp) {
      ReceiveCounts(s, x);
      assert Calls(s, x) + HandIs(Nothing, x) == One(1 <= x < s.nextOp);
    }
  }

  lemma ReceiveJobs(s: State)
    requires JobsInv(s, Nothing) && s.rx != []
    ensures JobsInv(Received(s), ReceivedHand(s))
  {
    hide Elsewhere, Known, Honest;
    forall x: Id ensures Elsewhere(Received(s), x) + MsgIs(x)(s.rx[0]) == Elsewhere(s, x) { ReceiveCounts(s, x); }
    if s.rx[0].Submit? { assert Elsewhere(s, s.rx[0].id) > 0; }
  }

  lemma ReceiveCancel(s: State)
    requires CancelInv(s, Nothing) && s.rx != []
    ensures CancelInv(Received(s), ReceivedHand(s))
    ensures s.rx[0].Submit? ==> Doomed(s.rx[0].id) !in s.trace
  {
    forall x: Id
      ensures Opening(Received(s), x) == Opening(s, x)
      ensures Sum(Received(s).rx, MsgIs(x)) + MsgIs(x)(s.rx[0]) == Sum(s.rx, MsgIs(x))
    {}
    hide Opening;
  }

  /** A submission comes into hand; a cancel is just gone. */
  lemma ReceiveHist(s: State)
    requires Hist(s, Nothing) && s.rx != []
    ensures Hist(Received(s), ReceivedHand(s))
    ensures s.rx[0].Submit? ==> Doomed(s.rx[0].id) !in s.trace
  {
    hide CallsInv, JobsInv, CancelInv, AllSettled, Honest, Waiting, Without;
    ReceiveCalls(s);
    ReceiveJobs(s);
    ReceiveCancel(s);
  }

  lemma SeenHist(s: State, s': State)
    requires Hist(s, Nothing) && s' == s.(clientsGone := s'.clientsGone, disconnected := s'.disconnected)
    ensures Hist(s', Nothing)
  {
    SameCalls(s, s', Nothing);
    SameJobsToo(s, s', Nothing);
  }

  // ---------------------------------------------------------------------
  // Runs
  // ---------------------------------------------------------------------

  lemma TakeMsgHist(k: Kernel, s: State)
    requires OwnInv(s, None) && Hist(s, Nothing) && s.rx != []
    ensures Hist(Do(k, s, TakeMsg), Nothing)
  {
    hide Hist;
    ReceiveHist(s);
    var s1 := s.(rx := s.rx[1..]);
    SameOwn(s, s1);
    hide OwnInv;
    match s.rx[0]
    case Submit(id, op) => HandleOpHist(k, s1, id, op);
    case Cancel(id) => HandleCancelHist(k, s1, id);
  }

  lemma DoHist(k: Kernel, s: State, action: Action)
    requires Enabled(s, action) && OwnInv(s, None) && Hist(s, Nothing)
    ensures Hist(Do(k, s, action), Nothing)
  {
    hide Hist, OwnInv;
    match action
    case TakeMsg => TakeMsgHist(k, s);
    case TakeOpened => HandleOpenedHist(k, s);
    case Reap(i) => ReapAtHist(k, s, i);
    case SubmitMore => SubmitReadyHist(k, s);
    case SeeGone => SeenHist(s, s.(disconnected := true));
    case ClientSubmits(op) => SendHist(s, Submit(s.nextOp, op));
    case ClientCancels(id) => SendHist(s, Cancel(id));
    case ClientsLeave => SeenHist(s, s.(clientsGone := true));
    case HelperDoes(i) => HelperStepHist(k, s, i);
    case KernelAnswers(i, ret) => CompletedHist(s, i, ret);
  }
}
