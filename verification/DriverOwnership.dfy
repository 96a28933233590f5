/** Who owns each descriptor, and how a handle's entry counts the jobs on it. */
module DriverOwnership {
  import opened Basics
  import opened Transfer
  import opened DriverModel
  import opened DriverCalls

  function Owns(fd: Fd): Job -> nat { (j: Job) => if j.work.owned && j.work.fd == fd then 1 else 0 }
  function FlightOwns(fd: Fd): Flight -> nat {
    (f: Flight) => if f.job.work.owned && f.job.work.fd == fd then 1 else 0
  }
  function BackOwns(fd: Fd): Back -> nat {
    (b: Back) => if b.result.Opened? && b.result.fd == fd then 1 else 0
  }
  function HelperCloses(fd: Fd): HelperJob -> nat {
    (h: HelperJob) => if h.CloseJob? && h.fd == fd then 1 else 0
  }
  function On(h: Handle): Job -> nat { (j: Job) => if j.work.handle == Some(h) then 1 else 0 }
  function FlightOn(h: Handle): Flight -> nat { (f: Flight) => if f.job.work.handle == Some(h) then 1 else 0 }

  /** The handles that stand for the descriptor. */
  function HandlesOf(files: map<Handle, Entry>, fd: Fd): set<Handle> {
    set h | h in files && files[h].fd == fd
  }

  /** How many owners a descriptor has: handle entries, jobs that opened it
      themselves, opens not taken yet, and closes sent to the helpers. */
  function Owners(s: State, fd: Fd): nat {
    |HandlesOf(s.files, fd)| + Sum(s.queue, Owns(fd)) + Sum(s.inflight, FlightOwns(fd))
    + Sum(s.back, BackOwns(fd)) + Sum(s.toHelpers, HelperCloses(fd))
  }

  function Surplus(s: State, fd: Fd): int { Owners(s, fd) - One(fd in s.open) }

  /** The jobs accepted on a handle that are queued or in flight. */
  function JobsOn(s: State, h: Handle): nat { Sum(s.queue, On(h)) + Sum(s.inflight, FlightOn(h)) }

  function OpsAt(files: map<Handle, Entry>, h: Handle): int { if h in files then files[h].ops else 0 }

  function OpsGap(s: State, h: Handle): int { OpsAt(s.files, h) - JobsOn(s, h) }

  /** A job works on a descriptor of its own, or on that of a live handle. */
  predicate JobSound(files: map<Handle, Entry>, j: Job) {
    if j.work.owned then j.work.handle.None?
    else j.work.handle.Some? && j.work.handle.value in files && files[j.work.handle.value].fd == j.work.fd
  }

  ghost predicate JobsSound(s: State) {
    && (forall i :: 0 <= i < |s.queue| ==> JobSound(s.files, s.queue[i]))
    && (forall i :: 0 <= i < |s.inflight| ==> JobSound(s.files, s.inflight[i].job))
  }

  ghost predicate EntriesSound(s: State) {
    forall h :: h in s.files ==>
      && 1 <= h < s.nextId
      && (s.files[h].closing.Some? ==> s.files[h].ops > 0)
  }

  /** Every close there has been was of an open descriptor. */
  ghost predicate ClosesSound(s: State) {
    forall i :: 0 <= i < |s.log| && s.log[i].Closed? ==> s.log[i].wasOpen
  }

  function HandOwns(hand: Option<Job>, fd: Fd): nat { if hand.Some? then Owns(fd)(hand.value) else 0 }
  function HandOn(hand: Option<Job>, h: Handle): nat { if hand.Some? then On(h)(hand.value) else 0 }

  /** The ownership invariant, while the driver holds `hand` outside of its
      containers. */
  ghost predicate OwnInv(s: State, hand: Option<Job>) {
    && (forall fd: Fd :: Surplus(s, fd) + HandOwns(hand, fd) == 0)
    && (forall h: Handle :: OpsGap(s, h) == HandOn(hand, h))
    && JobsSound(s) && EntriesSound(s) && ClosesSound(s)
    && (hand.Some? ==> JobSound(s.files, hand.value))
  }

  // ---------------------------------------------------------------------
  // Facts
  // ---------------------------------------------------------------------

  lemma HandlesUpdate(files: map<Handle, Entry>, h: Handle, e: Entry, fd: Fd)
    ensures |HandlesOf(files[h := e], fd)| + (if h in files then One(files[h].fd == fd) else 0)
         == |HandlesOf(files, fd)| + One(e.fd == fd)
  {
    var rest := HandlesOf(files, fd) - {h};
    assert HandlesOf(files[h := e], fd) == if e.fd == fd then rest + {h} else rest;
    assert HandlesOf(files, fd) == if h in files && files[h].fd == fd then rest + {h} else rest;
  }

  lemma HandlesRemove(files: map<Handle, Entry>, h: Handle, fd: Fd)
    requires h in files
    ensures |HandlesOf(files - {h}, fd)| + One(files[h].fd == fd) == |HandlesOf(files, fd)|
  {
    var rest := HandlesOf(files - {h}, fd);
    assert HandlesOf(files, fd) == if files[h].fd == fd then rest + {h} else rest;
  }

  /** The descriptor of a live handle is open. */
  lemma HandleIsOpen(s: State, hand: Option<Job>, h: Handle)
    requires OwnInv(s, hand) && h in s.files
    ensures s.files[h].fd in s.open
  {
    var fd := s.files[h].fd;
    HandlesRemove(s.files, h, fd);
    assert Surplus(s, fd) + HandOwns(hand, fd) == 0;
  }

  /** The descriptor of the job in hand is open. */
  lemma HandIsOpen(s: State, job: Job)
    requires OwnInv(s, Some(job))
    ensures job.work.fd in s.open
  {
    if job.work.owned {
      assert Surplus(s, job.work.fd) + HandOwns(Some(job), job.work.fd) == 0;
    } else {
      HandleIsOpen(s, Some(job), job.work.handle.value);
    }
  }

  lemma CloseRawSurplus(k: Kernel, s: State, closed: Fd, fd: Fd)
    requires closed in s.open
    ensures Surplus(CloseRaw(k, s, closed), fd) == Surplus(s, fd) + One(closed == fd)
  {}

  lemma CloseOwnedSurplus(k: Kernel, s: State, closed: Fd, fd: Fd)
    requires closed in s.open
    ensures Surplus(CloseOwned(k, s, closed), fd) == Surplus(s, fd) + One(closed == fd)
  {
    SumSnoc(s.toHelpers, CloseJob(closed), HelperCloses(fd));
    CloseRawSurplus(k, Ticked(s), closed, fd);
  }

  lemma CloseHandleSurplus(k: Kernel, s: State, h: Handle, id: Id, fd: Fd)
    requires h in s.files && s.files[h].fd in s.open
    ensures Surplus(CloseHandle(k, s, h, s.files[h].fd, id), fd) == Surplus(s, fd)
  {
    HandlesRemove(s.files, h, fd);
    CloseRawSurplus(k, s.(files := s.files - {h}), s.files[h].fd, fd);
  }

  /** No job is left on a handle whose count is zero. */
  lemma NoJobOn(s: State, h: Handle)
    requires JobsOn(s, h) == 0
    ensures forall i :: 0 <= i < |s.queue| ==> s.queue[i].work.handle != Some(h)
    ensures forall i :: 0 <= i < |s.inflight| ==> s.inflight[i].job.work.handle != Some(h)
  {
    forall i | 0 <= i < |s.queue| ensures s.queue[i].work.handle != Some(h) {
      SumAtLeast(s.queue, i, On(h));
    }
    forall i | 0 <= i < |s.inflight| ensures s.inflight[i].job.work.handle != Some(h) {
      SumAtLeast(s.inflight, i, FlightOn(h));
    }
  }

  // ---------------------------------------------------------------------
  // Closing a handle
  // ---------------------------------------------------------------------

  lemma CloseHandleOwn(k: Kernel, s: State, h: Handle, id: Id)
    requires forall fd: Fd :: Surplus(s, fd) == 0
    requires forall g: Handle :: g != h ==> OpsGap(s, g) == 0
    requires JobsSound(s) && ClosesSound(s)
    requires forall g :: g in s.files && g != h ==>
      1 <= g < s.nextId && (s.files[g].closing.Some? ==> s.files[g].ops > 0)
    requires h in s.files && s.files[h].fd in s.open && JobsOn(s, h) == 0
    ensures OwnInv(CloseHandle(k, s, h, s.files[h].fd, id), None)
  {
    var r := CloseHandle(k, s, h, s.files[h].fd, id);
    forall fd: Fd ensures Surplus(r, fd) == 0 { CloseHandleSurplus(k, s, h, id, fd); }
    forall g: Handle ensures OpsGap(r, g) == 0 {
      if g != h { assert OpsGap(s, g) == 0; }
    }
    NoJobOn(s, h);
  }

  lemma CountedAlone(s: State, hand: Option<Job>, h: Handle)
    requires OwnInv(s, hand) && h in s.files
    ensures s.files[h].ops == JobsOn(s, h) + HandOn(hand, h)
  {
    assert OpsGap(s, h) == HandOn(hand, h);
  }

  lemma ReleaseOwn(k: Kernel, s: State, job: Job, result: Result)
    requires OwnInv(s, Some(job)) && !job.work.owned
    ensures OwnInv(Finish(k, s, job, result), None)
  {
    var s2 := Emit(s, Settled(job.id, result));
    var h := job.work.handle.value;
    CountedAlone(s, Some(job), h);
    HandleIsOpen(s, Some(job), h);
    var entry := s.files[h].(ops := s.files[h].ops - 1);
    forall fd: Fd ensures Surplus(s2, fd) == 0 {
      assert Surplus(s, fd) + HandOwns(Some(job), fd) == 0;
    }
    forall g: Handle ensures g != h ==> OpsGap(s2, g) == 0 {
      assert OpsGap(s, g) == HandOn(Some(job), g);
    }
    if entry.ops > 0 || entry.closing.None? {
      CountOneLess(s2, h, entry);
    } else {
      CloseHandleOwn(k, s2, h, entry.closing.value);
    }
  }

  lemma CountOneLess(s: State, h: Handle, entry: Entry)
    requires forall fd: Fd :: Surplus(s, fd) == 0
    requires forall g: Handle :: g != h ==> OpsGap(s, g) == 0
    requires JobsSound(s) && EntriesSound(s) && ClosesSound(s)
    requires h in s.files && entry == s.files[h].(ops := JobsOn(s, h)) && (entry.closing.Some? ==> entry.ops > 0)
    ensures OwnInv(s.(files := s.files[h := entry]), None)
  {
    var r := s.(files := s.files[h := entry]);
    forall fd: Fd ensures Surplus(r, fd) == 0 {
      assert Surplus(s, fd) == 0;
      HandlesUpdate(s.files, h, entry, fd);
    }
    forall g: Handle ensures OpsGap(r, g) == 0 {
      if g != h { assert OpsGap(s, g) == 0; }
    }
  }

  lemma FinishOwn(k: Kernel, s: State, job: Job, result: Result)
    requires OwnInv(s, Some(job))
    ensures OwnInv(Finish(k, s, job, result), None)
  {
    if job.work.owned {
      HandIsOpen(s, job);
      var r := Finish(k, s, job, result);
      forall fd: Fd ensures Surplus(r, fd) == 0 {
        assert Surplus(s, fd) + HandOwns(Some(job), fd) == 0;
        CloseOwnedSurplus(k, s, job.work.fd, fd);
      }
      forall h: Handle ensures OpsGap(r, h) == 0 {
        assert OpsGap(s, h) == HandOn(Some(job), h);
      }
    } else {
      ReleaseOwn(k, s, job, result);
    }
  }

  /** The invariant looks at a job's descriptor and handle only, and at no
      history but the closes. */
  lemma SameHand(s: State, s': State, job: Job, job': Job)
    requires OwnInv(s, Some(job))
    requires job'.work.owned == job.work.owned && job'.work.fd == job.work.fd && job'.work.handle == job.work.handle
    requires s' == s.(tick := s'.tick, log := s'.log, trace := s'.trace, firsts := s'.firsts, ledger := s'.ledger)
    requires ClosesSound(s')
    ensures OwnInv(s', Some(job'))
  {
    forall fd: Fd ensures Surplus(s', fd) + HandOwns(Some(job'), fd) == 0 {
      assert Surplus(s, fd) + HandOwns(Some(job), fd) == 0;
    }
    forall h: Handle ensures OpsGap(s', h) == HandOn(Some(job'), h) {
      assert OpsGap(s, h) == HandOn(Some(job), h);
    }
  }

  lemma {:induction false} ExecuteSyncOwn(k: Kernel, s: State, job: Job)
    requires OwnInv(s, Some(job))
    ensures OwnInv(ExecuteSync(k, s, job), None)
    decreases Growable(job.work), Remaining(job.work)
  {
    var a := k(s.tick);
    var s1 := Ticked(Touched(s, Issued(job.id)));
    SameHand(s, s1, job, job);
    var m := Clamp(job.work, a.moved);
    if a.failed.Some? {
      var s2 := Touched(s1, Refusal(job.id, a.failed.value));
      SameHand(s1, s2, job, job);
      FinishOwn(k, s2, job, Err(Os(a.failed.value)));
    } else {
      var s2 := Recorded(s1, job.id, Chunk(m, a.look));
      SameHand(s1, s2, job, job);
      match After(job.work, m, a.look)
      case Done(result) => FinishOwn(k, s2, job, result);
      case More(work) =>
        Progress(job.work, m, a.look);
        SameHand(s2, s2, job, job.(work := work));
        ExecuteSyncOwn(k, s2, job.(work := work));
    }
  }

  lemma TakenOwn(s: State, job: Job)
    requires OwnInv(s, Some(job))
    ensures OwnInv(Touched(s, Issued(job.id)).(inflight := s.inflight + [Flight(job, None)]), None)
  {
    var r := Touched(s, Issued(job.id)).(inflight := s.inflight + [Flight(job, None)]);
    forall fd: Fd ensures Surplus(r, fd) == 0 {
      assert Surplus(s, fd) + HandOwns(Some(job), fd) == 0;
      SumSnoc(s.inflight, Flight(job, None), FlightOwns(fd));
    }
    forall h: Handle ensures OpsGap(r, h) == 0 {
      assert OpsGap(s, h) == HandOn(Some(job), h);
      SumSnoc(s.inflight, Flight(job, None), FlightOn(h));
    }
  }

  lemma SubmitJobOwn(k: Kernel, s: State, job: Job)
    requires OwnInv(s, Some(job)) && !IsFull(k, s)
    ensures OwnInv(SubmitJob(k, s, job), None)
  {
    var s1 := WithFirst(Ticked(s), job.id);
    SameHand(s, s1, job, job);
    match k(s.tick).accept
    case Taken => TakenOwn(s1, job);
    case Again => ExecuteSyncOwn(k, s1, job);
    case Refused(code) =>
      var s2 := Touched(s1, Refusal(job.id, code));
      SameHand(s1, s2, job, job);
      FinishOwn(k, s2, job, Err(Os(code)));
  }

  lemma PopOwn(s: State)
    requires OwnInv(s, None) && s.queue != []
    ensures OwnInv(s.(queue := s.queue[1..]), Some(s.queue[0]))
  {
    var r := s.(queue := s.queue[1..]);
    forall fd: Fd ensures Surplus(r, fd) + HandOwns(Some(s.queue[0]), fd) == 0 {
      assert Surplus(s, fd) + HandOwns(None, fd) == 0;
    }
    forall h: Handle ensures OpsGap(r, h) == HandOn(Some(s.queue[0]), h) {
      assert OpsGap(s, h) == HandOn(None, h);
    }
  }

  lemma SameOwn(s: State, s': State)
    requires OwnInv(s, None)
    requires s' == s.(tick := s'.tick, log := s'.log, trace := s'.trace, rx := s'.rx, nextOp := s'.nextOp,
                      ledger := s'.ledger, clientsGone := s'.clientsGone, disconnected := s'.disconnected,
                      pendingOpens := s'.pendingOpens, cancelledOpens := s'.cancelledOpens)
    requires ClosesSound(s')
    ensures OwnInv(s', None)
  {
    forall fd: Fd ensures Surplus(s', fd) == 0 { assert Surplus(s, fd) + HandOwns(None, fd) == 0; }
    forall h: Handle ensures OpsGap(s', h) == 0 { assert OpsGap(s, h) == HandOn(None, h); }
  }

  lemma {:induction false} SubmitReadyOwn(k: Kernel, s: State)
    requires OwnInv(s, None)
    ensures OwnInv(SubmitReady(k, s), None)
    decreases |s.queue|
  {
    if |s.inflight| >= s.maxInflight || s.queue == [] {
    } else if IsFull(k, s) {
      SameOwn(s, Ticked(s));
    } else {
      var s1 := s.(queue := s.queue[1..]);
      PopOwn(s);
      SubmitJobOwn(k, s1, s.queue[0]);
      SubmitReadyOwn(k, SubmitJob(k, s1, s.queue[0]));
    }
  }

  /** A job joins the queue, at its front or its back. */
  lemma PushOwn(s: State, job: Job, front: bool)
    requires OwnInv(s, Some(job))
    ensures OwnInv(Pushed(s, job, front), None)
  {
    var r := Pushed(s, job, front);
    forall fd: Fd ensures Surplus(r, fd) == 0 {
      assert Surplus(s, fd) + HandOwns(Some(job), fd) == 0;
      SumSnoc(s.queue, job, Owns(fd));
      assert ([job] + s.queue)[1..] == s.queue;
    }
    forall h: Handle ensures OpsGap(r, h) == 0 {
      assert OpsGap(s, h) == HandOn(Some(job), h);
      SumSnoc(s.queue, job, On(h));
      assert ([job] + s.queue)[1..] == s.queue;
    }
  }

  /** A live handle accepts a job. */
  lemma AcceptOwn(s: State, job: Job, h: Handle)
    requires OwnInv(s, None) && !job.work.owned && JobSound(s.files, job) && job.work.handle == Some(h)
    ensures OwnInv(Accepted(s, job), Some(job))
  {
    var entry := s.files[h].(ops := s.files[h].ops + 1);
    var r := Accepted(s, job);
    CountedAlone(s, None, h);
    forall fd: Fd ensures Surplus(r, fd) + HandOwns(Some(job), fd) == 0 {
      assert Surplus(s, fd) + HandOwns(None, fd) == 0;
      HandlesUpdate(s.files, h, entry, fd);
    }
    forall g: Handle ensures OpsGap(r, g) == HandOn(Some(job), g) {
      assert OpsGap(s, g) == HandOn(None, g);
    }
  }

  lemma EnqueueOnHandle(k: Kernel, s: State, id: Id, work: SoundWork)
    requires OwnInv(s, None) && !work.owned && JobSound(s.files, Job(id, false, work))
    ensures OwnInv(Enqueue(k, s, id, work), None)
  {
    var job := Job(id, false, work);
    AcceptOwn(s, job, work.handle.value);
    PushOwn(Accepted(s, job), job, false);
    SubmitReadyOwn(k, Pushed(Accepted(s, job), job, false));
  }

  /** A descriptor that is open and has no owner, `loose`, joins. */
  ghost predicate LooseInv(s: State, loose: Fd) {
    && (forall fd: Fd :: Surplus(s, fd) + One(fd == loose) == 0)
    && (forall h: Handle :: OpsGap(s, h) == 0)
    && JobsSound(s) && EntriesSound(s) && ClosesSound(s)
  }

  lemma AcceptLooseOwn(s: State, job: Job)
    requires LooseInv(s, job.work.fd) && job.work.owned && job.work.handle.None?
    ensures OwnInv(Pushed(Accepted(s, job), job, false), None)
  {
    var s1 := Accepted(s, job);
    forall fd: Fd ensures Surplus(s1, fd) + HandOwns(Some(job), fd) == 0 {
      assert Surplus(s, fd) + One(fd == job.work.fd) == 0;
    }
    forall h: Handle ensures OpsGap(s1, h) == HandOn(Some(job), h) {
      assert OpsGap(s, h) == 0;
    }
    PushOwn(s1, job, false);
  }

  lemma EnqueueLoose(k: Kernel, s: State, id: Id, work: SoundWork)
    requires LooseInv(s, work.fd) && work.owned && work.handle.None?
    ensures OwnInv(Enqueue(k, s, id, work), None)
  {
    var job := Job(id, false, work);
    AcceptLooseOwn(s, job);
    SubmitReadyOwn(k, Pushed(Accepted(s, job), job, false));
  }

  lemma NoJobOnUnknown(s: State, h: Handle)
    requires JobsSound(s) && h !in s.files
    ensures JobsOn(s, h) == 0
  {
    if Sum(s.queue, On(h)) > 0 {
      var i := SumPositive(s.queue, On(h));
      assert false;
    }
    if Sum(s.inflight, FlightOn(h)) > 0 {
      var i := SumPositive(s.inflight, FlightOn(h));
      assert false;
    }
  }

  lemma RegisterOwn(s: State, fd: Fd, size: nat, id: Id)
    requires LooseInv(s, fd) && s.nextId >= 1
    ensures OwnInv(Register(s, fd, size, id), None)
  {
    var r := Register(s, fd, size, id);
    var h := s.nextId;
    assert h !in s.files;
    forall f: Fd ensures Surplus(r, f) == 0 {
      assert Surplus(s, f) + One(f == fd) == 0;
      HandlesUpdate(s.files, h, Entry(fd, 0, None), f);
    }
    NoJobOnUnknown(s, h);
    forall g: Handle ensures OpsGap(r, g) == 0 {
      assert OpsGap(s, g) == 0;
    }
    forall i | 0 <= i < |s.queue| ensures JobSound(r.files, r.queue[i]) {
      assert JobSound(s.files, s.queue[i]);
    }
    forall i | 0 <= i < |s.inflight| ensures JobSound(r.files, r.inflight[i].job) {
      assert JobSound(s.files, s.inflight[i].job);
    }
  }

  // ---------------------------------------------------------------------
  // Opens
  // ---------------------------------------------------------------------

  /** A descriptor an open has brought in has no owner yet. */
  lemma OpenNowOwn(k: Kernel, s: State, after: AfterOpen)
    requires OwnInv(s, None)
    ensures var (r, result) := OpenNow(k, s, after);
      if result.Opened? then LooseInv(r, result.fd) else OwnInv(r, None)
  {
    var a := k(s.tick);
    SameOwn(s, Ticked(s));
    if a.openResult.Opened? && a.openResult.fd !in s.open {
      var loose := Ticked(s).(open := s.open + {a.openResult.fd});
      OpenedLoose(Ticked(s), a.openResult.fd);
      hide OwnInv, LooseInv, CloseRaw;
      if !after.AsWrite? && a.look.size.None? { CloseLoose(k, loose, a.openResult.fd); }
    }
  }

  /** A descriptor just opened has no owner yet. */
  lemma OpenedLoose(s: State, loose: Fd)
    requires OwnInv(s, None) && loose !in s.open
    ensures LooseInv(s.(open := s.open + {loose}), loose)
  {
    var r := s.(open := s.open + {loose});
    forall fd: Fd ensures Surplus(r, fd) + One(fd == loose) == 0 {
      assert Surplus(s, fd) + HandOwns(None, fd) == 0;
    }
    forall h: Handle ensures OpsGap(r, h) == 0 {
      assert OpsGap(s, h) == HandOn(None, h);
    }
  }

  lemma AfterOpenedOwn(k: Kernel, s: State, pending: Pending, result: OpenResult)
    requires if result.Opened? then LooseInv(s, result.fd) else OwnInv(s, None)
    requires s.nextId >= 1
    ensures OwnInv(AfterOpened(k, s, pending, result), None)
  {
    match result
    case NotOpened(code) => SameOwn(s, Emit(s, Settled(pending.id, Err(Os(code)))));
    case Opened(fd, size) =>
      match pending.after
      case AsHandle => RegisterOwn(s, fd, size, pending.id);
      case AsRead(inlineMax) =>
        if size > inlineMax {
          RegisterOwn(s, fd, size, pending.id);
        } else {
          LooseSame(s, Sized(s, pending.id, Some(size)), fd);
          EnqueueLoose(k, Sized(s, pending.id, Some(size)), pending.id, ReadToEnd(None, fd, true, 0, size));
        }
      case AsWrite(data) => EnqueueLoose(k, s, pending.id, Write(None, fd, true, 0, false, data, 0));
  }

  lemma SendOpenOwn(s: State, pending: Pending)
    requires OwnInv(s, None)
    ensures OwnInv(Ticked(s).(pendingOpens := s.pendingOpens + {pending.id},
                              toHelpers := s.toHelpers + [OpenJob(pending)]), None)
  {
    var r := Ticked(s).(pendingOpens := s.pendingOpens + {pending.id}, toHelpers := s.toHelpers + [OpenJob(pending)]);
    forall fd: Fd ensures Surplus(r, fd) == 0 {
      assert Surplus(s, fd) + HandOwns(None, fd) == 0;
      SumSnoc(s.toHelpers, OpenJob(pending), HelperCloses(fd));
    }
    forall h: Handle ensures OpsGap(r, h) == 0 { assert OpsGap(s, h) == HandOn(None, h); }
  }

  lemma OpenThenOwn(k: Kernel, s: State, pending: Pending)
    requires OwnInv(s, None) && s.nextId >= 1
    ensures OwnInv(OpenThen(k, s, pending), None)
  {
    if HasBacklog(k, s) {
      SendOpenOwn(s, pending);
    } else {
      SameOwn(s, Ticked(s));
      OpenNowOwn(k, Ticked(s), pending.after);
      var (s1, result) := OpenNow(k, Ticked(s), pending.after);
      AfterOpenedOwn(k, s1, pending, result);
    }
  }

  /** Taking an answer of the helpers leaves its descriptor without an owner. */
  lemma TakeBackOwn(s: State, back: Back)
    requires OwnInv(s, None) && s.back != [] && back == s.back[0]
    ensures var r := s.(back := s.back[1..]);
      if back.result.Opened? then LooseInv(r, back.result.fd) else OwnInv(r, None)
  {
    var r := s.(back := s.back[1..]);
    forall fd: Fd ensures Surplus(r, fd) + BackOwns(fd)(back) == 0 {
      assert Surplus(s, fd) + HandOwns(None, fd) == 0;
    }
    forall h: Handle ensures OpsGap(r, h) == 0 { assert OpsGap(s, h) == HandOn(None, h); }
  }

  lemma CloseLoose(k: Kernel, s: State, loose: Fd)
    requires LooseInv(s, loose)
    ensures loose in s.open && OwnInv(CloseRaw(k, s, loose), None)
  {
    assert Surplus(s, loose) + One(loose == loose) == 0;
    var r := CloseRaw(k, s, loose);
    forall fd: Fd ensures Surplus(r, fd) == 0 {
      assert Surplus(s, fd) + One(fd == loose) == 0;
      CloseRawSurplus(k, s, loose, fd);
    }
    forall h: Handle ensures OpsGap(r, h) == 0 { assert OpsGap(s, h) == 0; }
  }

  lemma LooseSame(s: State, s': State, loose: Fd)
    requires LooseInv(s, loose)
    requires s' == s.(pendingOpens := s'.pendingOpens, cancelledOpens := s'.cancelledOpens, ledger := s'.ledger)
    ensures LooseInv(s', loose)
  {
    forall fd: Fd ensures Surplus(s', fd) + One(fd == loose) == 0 {
      assert Surplus(s, fd) + One(fd == loose) == 0;
    }
    forall h: Handle ensures OpsGap(s', h) == 0 { assert OpsGap(s, h) == 0; }
  }

  lemma HandleOpenedOwn(k: Kernel, s: State, back: Back)
    requires if back.result.Opened? then LooseInv(s, back.result.fd) else OwnInv(s, None)
    requires s.nextId >= 1
    ensures OwnInv(HandleOpened(k, s, back), None)
  {
    var id := back.pending.id;
    var s1 := s.(pendingOpens := s.pendingOpens - {id});
    var s2 := s1.(cancelledOpens := s.cancelledOpens - {id});
    if back.result.Opened? {
      LooseSame(s, s1, back.result.fd);
      LooseSame(s, s2, back.result.fd);
      CloseLoose(k, s2, back.result.fd);
    } else {
      SameOwn(s, s1);
      SameOwn(s, s2);
    }
    if id in s.cancelledOpens {
      var s3 := if back.result.Opened? then CloseRaw(k, s2, back.result.fd) else s2;
      SameOwn(s3, Emit(s3, Settled(id, Err(Cancelled))));
    } else {
      AfterOpenedOwn(k, s1, back.pending, back.result);
    }
  }

  // ---------------------------------------------------------------------
  // Messages and completions
  // ---------------------------------------------------------------------

  lemma HandleCloseOwn(k: Kernel, s: State, h: Handle, id: Id)
    requires OwnInv(s, None)
    ensures OwnInv(HandleClose(k, s, h, id), None)
  {
    if h !in s.files || s.files[h].closing.Some? {
      SameOwn(s, Emit(s, Settled(id, Err(BadHandle))));
    } else if s.files[h].ops > 0 {
      var entry := s.files[h].(closing := Some(id));
      var r := HandleClose(k, s, h, id);
      forall fd: Fd ensures Surplus(r, fd) == 0 {
        assert Surplus(s, fd) + HandOwns(None, fd) == 0;
        HandlesUpdate(s.files, h, entry, fd);
      }
      forall g: Handle ensures OpsGap(r, g) == 0 { assert OpsGap(s, g) == HandOn(None, g); }
    } else {
      HandleIsOpen(s, None, h);
      CountedAlone(s, None, h);
      forall fd: Fd ensures Surplus(s, fd) == 0 { assert Surplus(s, fd) + HandOwns(None, fd) == 0; }
      forall g: Handle ensures OpsGap(s, g) == 0 { assert OpsGap(s, g) == HandOn(None, g); }
      CloseHandleOwn(k, s, h, id);
    }
  }

  lemma SettleOwn(s: State, id: Id, result: Result)
    requires OwnInv(s, None)
    ensures OwnInv(Settle(s, id, result), None) && OwnInv(Settle(Ticked(s), id, result), None)
  {
    SameOwn(s, Settle(s, id, result));
    SameOwn(s, Settle(Ticked(s), id, result));
  }

  lemma HandleFileOpOwn(k: Kernel, s: State, id: Id, op: Op, fd: Fd)
    requires op.ReadAt? || op.ReadRest? || op.WriteAt? || op.Sync? || op.SetLen? || op.Size?
    requires OwnInv(s, None) && WithFd(s, op.handle) == Some(fd)
    ensures OwnInv(HandleFileOp(k, s, id, op, fd), None)
  {
    var a := k(s.tick);
    match op
    case Size(_) => SettleOwn(s, id, StatReply(k, s));
    case SetLen(_) =>
      SettleOwn(s, id, if a.truncateError.Some? then Err(Os(a.truncateError.value)) else Ok(UnitReply));
    case Sync(h) => EnqueueOnHandle(k, s, id, Fsync(Some(h), fd, false));
    case ReadAt(h, pos, len, external) =>
      SettleOwn(s, id, Ok(if external then ReadReply(0) else BytesReply([])));
      EnqueueOnHandle(k, s, id, SizedRead(h, fd, pos, len, external));
    case ReadRest(h, pos) =>
      SameOwn(s, Sized(Ticked(s), id, a.look.size));
      EnqueueOnHandle(k, Sized(Ticked(s), id, a.look.size), id, 
                      ReadToEnd(Some(h), fd, false, pos, SizeOr(a.look.size)));
    case WriteAt(h, pos, data, append) =>
      var stat := StatReply(k, s);
      SettleOwn(s, id, Ok(WrittenReply(0, pos)));
      SettleOwn(s, id, if stat.Ok? then Ok(WrittenReply(0, stat.reply.size)) else stat);
      if data != [] { EnqueueOnHandle(k, s, id, Write(Some(h), fd, false, pos, append, data, 0)); }
  }

  lemma HandleOpOwn(k: Kernel, s: State, id: Id, op: Op)
    requires OwnInv(s, None) && s.nextId >= 1
    ensures OwnInv(HandleOp(k, s, id, op), None)
  {
    match op
    case Nop => SettleOwn(s, id, Ok(UnitReply));
    case Open => OpenThenOwn(k, s, Pending(id, AsHandle));
    case ReadFile(inlineMax) => OpenThenOwn(k, s, Pending(id, AsRead(inlineMax)));
    case WriteFile(data) => OpenThenOwn(k, s, Pending(id, AsWrite(data)));
    case Close(h) => HandleCloseOwn(k, s, h, id);
    case _ =>
      if WithFd(s, op.handle).None? {
        SettleOwn(s, id, Err(BadHandle));
      } else {
        HandleFileOpOwn(k, s, id, op, WithFd(s, op.handle).value);
      }
  }

  /** Taking one queued job out. */
  lemma RemoveOwn(s: State, i: nat)
    requires OwnInv(s, None) && i < |s.queue|
    ensures OwnInv(s.(queue := s.queue[..i] + s.queue[i + 1..]), Some(s.queue[i]))
  {
    var job := s.queue[i];
    var r := s.(queue := s.queue[..i] + s.queue[i + 1..]);
    forall fd: Fd ensures Surplus(r, fd) + HandOwns(Some(job), fd) == 0 {
      assert Surplus(s, fd) + HandOwns(None, fd) == 0;
      SumRemove(s.queue, i, Owns(fd));
    }
    forall h: Handle ensures OpsGap(r, h) == HandOn(Some(job), h) {
      assert OpsGap(s, h) == HandOn(None, h);
      SumRemove(s.queue, i, On(h));
    }
  }

  /** Changing an in-flight request without touching its job's descriptor. */
  lemma ChangeFlightOwn(s: State, i: nat, flight: Flight)
    requires OwnInv(s, None) && i < |s.inflight| && flight.job.work == s.inflight[i].job.work
    ensures OwnInv(s.(inflight := s.inflight[i := flight]), None)
  {
    var r := s.(inflight := s.inflight[i := flight]);
    forall fd: Fd ensures Surplus(r, fd) == 0 {
      assert Surplus(s, fd) + HandOwns(None, fd) == 0;
      SumUpdate(s.inflight, i, flight, FlightOwns(fd));
    }
    forall h: Handle ensures OpsGap(r, h) == 0 {
      assert OpsGap(s, h) == HandOn(None, h);
      SumUpdate(s.inflight, i, flight, FlightOn(h));
    }
  }

  /** A queued job is cancelled: it leaves the queue. */
  function Dropped(s: State, i: nat): State
    requires i < |s.queue|
  {
    var id := s.queue[i].id;
    Touched(s, Doomed(id)).(
      queue := s.queue[..i] + s.queue[i + 1..],
      dropped := if id in s.firsts then s.dropped else s.dropped + {id})
  }

  lemma DropOwn(s: State, i: nat)
    requires OwnInv(s, None) && i < |s.queue|
    ensures OwnInv(Dropped(s, i), Some(s.queue[i]))
  {
    RemoveOwn(s, i);
    var s2 := s.(queue := s.queue[..i] + s.queue[i + 1..]);
    forall fd: Fd ensures Surplus(Dropped(s, i), fd) + HandOwns(Some(s.queue[i]), fd) == 0 {
      assert Surplus(s2, fd) + HandOwns(Some(s.queue[i]), fd) == 0;
    }
    forall h: Handle ensures OpsGap(Dropped(s, i), h) == HandOn(Some(s.queue[i]), h) {
      assert OpsGap(s2, h) == HandOn(Some(s.queue[i]), h);
    }
  }

  lemma HandleCancelOwn(k: Kernel, s: State, id: Id)
    requires OwnInv(s, None)
    ensures OwnInv(HandleCancel(k, s, id), None)
  {
    hide Finish;
    var i := Place(s.queue, id);
    var j := FlightPlace(s.inflight, id);
    var s0 := Touched(s, Doomed(id));
    SameOwn(s, s0);
    SameOwn(s0, s0.(cancelledOpens := s.cancelledOpens + {id}));
    if i < |s.queue| {
      DropOwn(s, i);
      FinishOwn(k, Dropped(s, i), s.queue[i], Err(Cancelled));
    } else if j < |s.inflight| {
      var flight := s.inflight[j];
      ChangeFlightOwn(s0, j, flight.(job := flight.job.(cancelled := true)));
    }
    hide OwnInv;
  }

  lemma AdvanceOwn(k: Kernel, s: State, job: Job, moved: Moved)
    requires OwnInv(s, Some(job))
    ensures OwnInv(Advance(k, s, job, moved), None)
  {
    var a := k(s.tick);
    var m := Clamp(job.work, moved);
    var s1 := Recorded(Ticked(s), job.id, Chunk(m, a.look));
    SameHand(s, s1, job, job);
    match After(job.work, m, a.look)
    case Done(result) => FinishOwn(k, s1, job, result);
    case More(work) =>
      Progress(job.work, m, a.look);
      SameHand(s1, s1, job, job.(work := work));
      if job.cancelled {
        FinishOwn(k, s1, job.(work := work), Err(Cancelled));
      } else {
        PushOwn(s1, job.(work := work), true);
        SubmitReadyOwn(k, Pushed(s1, job.(work := work), true));
      }
  }

  lemma LandOwn(s: State, i: nat)
    requires OwnInv(s, None) && i < |s.inflight|
    ensures OwnInv(s.(inflight := SwapRemove(s.inflight, i)), Some(s.inflight[i].job))
  {
    var job := s.inflight[i].job;
    var r := s.(inflight := SwapRemove(s.inflight, i));
    forall fd: Fd ensures Surplus(r, fd) + HandOwns(Some(job), fd) == 0 {
      assert Surplus(s, fd) + HandOwns(None, fd) == 0;
      SumSwapRemove(s.inflight, i, FlightOwns(fd));
    }
    forall h: Handle ensures OpsGap(r, h) == HandOn(Some(job), h) {
      assert OpsGap(s, h) == HandOn(None, h);
      SumSwapRemove(s.inflight, i, FlightOn(h));
    }
  }

  lemma ReapAtOwn(k: Kernel, s: State, i: nat)
    requires OwnInv(s, None) && i < |s.inflight| && s.inflight[i].ret.Some?
    ensures OwnInv(ReapAt(k, s, i), None)
  {
    var s1 := s.(inflight := SwapRemove(s.inflight, i));
    LandOwn(s, i);
    match s.inflight[i].ret.value
    case Returned(moved) => AdvanceOwn(k, s1, s.inflight[i].job, moved);
    case Failed(code) => FinishOwn(k, s1, s.inflight[i].job, Err(Os(code)));
  }

  lemma HelperTakesOwn(s: State, i: nat)
    requires OwnInv(s, None) && i < |s.toHelpers|
    ensures var r := s.(toHelpers := s.toHelpers[..i] + s.toHelpers[i + 1..]);
      if s.toHelpers[i].CloseJob? then LooseInv(r, s.toHelpers[i].fd) else OwnInv(r, None)
  {
    var r := s.(toHelpers := s.toHelpers[..i] + s.toHelpers[i + 1..]);
    forall fd: Fd ensures Surplus(r, fd) + HelperCloses(fd)(s.toHelpers[i]) == 0 {
      assert Surplus(s, fd) + HandOwns(None, fd) == 0;
      SumRemove(s.toHelpers, i, HelperCloses(fd));
    }
    forall h: Handle ensures OpsGap(r, h) == 0 { assert OpsGap(s, h) == HandOn(None, h); }
  }

  lemma HelperAnswersOwn(s: State, back: Back)
    requires if back.result.Opened? then LooseInv(s, back.result.fd) else OwnInv(s, None)
    ensures OwnInv(s.(back := s.back + [back]), None)
  {
    var r := s.(back := s.back + [back]);
    forall fd: Fd ensures Surplus(r, fd) == 0 {
      if back.result.Opened? {
        assert Surplus(s, fd) + One(fd == back.result.fd) == 0;
      } else {
        assert Surplus(s, fd) + HandOwns(None, fd) == 0;
      }
      SumSnoc(s.back, back, BackOwns(fd));
    }
    forall h: Handle ensures OpsGap(r, h) == 0 {
      if back.result.Opened? { assert OpsGap(s, h) == 0; } else { assert OpsGap(s, h) == HandOn(None, h); }
    }
  }

  lemma HelperStepOwn(k: Kernel, s: State, i: nat)
    requires OwnInv(s, None) && i < |s.toHelpers|
    ensures OwnInv(HelperStep(k, s, i), None)
  {
    var s1 := s.(toHelpers := s.toHelpers[..i] + s.toHelpers[i + 1..]);
    HelperTakesOwn(s, i);
    match s.toHelpers[i]
    case CloseJob(fd) => CloseLoose(k, s1, fd);
    case OpenJob(pending) =>
      OpenNowOwn(k, s1, pending.after);
      var (s2, result) := OpenNow(k, s1, pending.after);
      HelperAnswersOwn(s2, Back(pending, result));
  }

  lemma DoOwn(k: Kernel, s: State, action: Action)
    requires Enabled(s, action) && OwnInv(s, None) && s.nextId >= 1
    ensures OwnInv(Do(k, s, action), None)
  {
    match action
    case TakeMsg =>
      var s1 := s.(rx := s.rx[1..]);
      SameOwn(s, s1);
      match s.rx[0] {
        case Submit(id, op) => HandleOpOwn(k, s1, id, op);
        case Cancel(id) => HandleCancelOwn(k, s1, id);
      }
    case TakeOpened =>
      TakeBackOwn(s, s.back[0]);
      HandleOpenedOwn(k, s.(back := s.back[1..]), s.back[0]);
    case Reap(i) => ReapAtOwn(k, s, i);
    case SubmitMore => SubmitReadyOwn(k, s);
    case HelperDoes(i) => HelperStepOwn(k, s, i);
    case KernelAnswers(i, ret) =>
      ChangeFlightOwn(s, i, s.inflight[i].(ret := Some(ret)));
      SameOwn(s.(inflight := s.inflight[i := s.inflight[i].(ret := Some(ret))]), Completed(s, i, ret));
    case _ => SameOwn(s, Do(k, s, action));
  }
}
