/** The driver as it is written: one object whose methods update its
    containers in place, each method proved to do what `DriverModel` says. */
module DriverThread {
  import opened Basics
  import opened Transfer
  import opened DriverModel
  import opened DriverCalls
  import opened DriverOwnership
  import opened DriverTheorems

  lemma {:induction false} RunAppend(k: Kernel, s: State, a: seq<Action>, b: seq<Action>)
    ensures Run(k, s, a + b) == Run(k, Run(k, s, a), b)
    decreases |a|
  {
    if a == [] {
      assert a + b == b;
    } else {
      assert (a + b)[1..] == a[1..] + b;
      RunAppend(k, if Enabled(s, a[0]) then Do(k, s, a[0]) else s, a[1..], b);
    }
  }

  lemma RunOne(k: Kernel, s: State, action: Action)
    requires Enabled(s, action)
    ensures Run(k, s, [action]) == Do(k, s, action)
  {
    assert [action][1..] == [];
  }

  /** One more action of a run. */
  lemma Advanced(k: Kernel, s: State, done: seq<Action>, action: Action) returns (more: seq<Action>)
    requires Good(Run(k, s, done)) && Enabled(Run(k, s, done), action)
    ensures more == done + [action]
    ensures Messages(more) == Messages(done) + IsTakeMsg()(action)
    ensures Answers(more) == Answers(done) + IsTakeOpened()(action)
    ensures Run(k, s, more) == Do(k, Run(k, s, done), action) && Good(Run(k, s, more))
  {
    hide Good;
    more := done + [action];
    SumSnoc(done, action, IsTakeMsg());
    SumSnoc(done, action, IsTakeOpened());
    RunAppend(k, s, done, [action]);
    RunOne(k, Run(k, s, done), action);
    DoGood(k, Run(k, s, done), action);
  }

  lemma Joined(k: Kernel, s: State, done: seq<Action>, actions: seq<Action>) returns (more: seq<Action>)
    requires Good(Run(k, s, done))
    ensures more == done + actions
    ensures Run(k, s, more) == Run(k, Run(k, s, done), actions) && Good(Run(k, s, more))
    ensures Reaped(k, s, more) == Reaped(k, s, done) + Reaped(k, Run(k, s, done), actions)
    ensures Messages(more) == Messages(done) + Messages(actions)
    ensures Answers(more) == Answers(done) + Answers(actions)
  {
    hide Good;
    more := done + actions;
    RunAppend(k, s, done, actions);
    RunGood(k, Run(k, s, done), actions);
    ReapedAppend(k, s, done, actions);
    SumAppend(done, actions, IsTakeMsg());
    SumAppend(done, actions, IsTakeOpened());
  }

  function IsTakeMsg(): Action -> nat { (action: Action) => if action.TakeMsg? then 1 else 0 }
  function IsTakeOpened(): Action -> nat { (action: Action) => if action.TakeOpened? then 1 else 0 }

  /** How many messages, and how many opens come back, the driver takes. */
  function Messages(actions: seq<Action>): nat { Sum(actions, IsTakeMsg()) }
  function Answers(actions: seq<Action>): nat { Sum(actions, IsTakeOpened()) }

  // ---------------------------------------------------------------------
  // What is left to do
  // ---------------------------------------------------------------------

  function Grows(): Job -> nat { (j: Job) => Growable(j.work) }
  function FlightGrows(): Flight -> nat { (f: Flight) => Growable(f.job.work) }
  function Lasts(): Job -> nat { (j: Job) => 1 + Remaining(j.work) }
  function FlightLasts(): Flight -> nat { (f: Flight) => 1 + Remaining(f.job.work) }

  /** How many buffers may still grow. */
  function Growth(s: State): nat { Sum(s.queue, Grows()) + Sum(s.inflight, FlightGrows()) }

  /** How many chunks there can be, buffers not growing. */
  function Chunks(s: State): nat { Sum(s.queue, Lasts()) + Sum(s.inflight, FlightLasts()) }

  /** Less work in `s` than in a state of `growth` and `chunks`. */
  predicate LessWork(s: State, growth: nat, chunks: nat) {
    Growth(s) < growth || (Growth(s) == growth && Chunks(s) < chunks)
  }

  lemma {:induction false} SubmitReadyWork(k: Kernel, s: State)
    ensures Growth(SubmitReady(k, s)) <= Growth(s) && Chunks(SubmitReady(k, s)) <= Chunks(s)
    decreases |s.queue|
  {
    if !(|s.inflight| >= s.maxInflight || s.queue == [] || IsFull(k, s)) {
      var s1 := s.(queue := s.queue[1..]);
      SumSnoc(s.inflight, Flight(s.queue[0], None), FlightGrows());
      SumSnoc(s.inflight, Flight(s.queue[0], None), FlightLasts());
      SubmitReadyWork(k, SubmitJob(k, s1, s.queue[0]));
    }
  }

  lemma AdvanceWork(k: Kernel, s: State, job: Job, moved: Moved)
    ensures LessWork(Advance(k, s, job, moved), Growth(s) + Growable(job.work), Chunks(s) + 1 + Remaining(job.work))
  {
    var a := k(s.tick);
    var m := Clamp(job.work, moved);
    var s1 := Recorded(Ticked(s), job.id, Chunk(m, a.look));
    match After(job.work, m, a.look)
    case Done(_) =>
    case More(work) =>
      Progress(job.work, m, a.look);
      var next := job.(work := work);
      var s2 := Pushed(s1, next, true);
      assert ([next] + s.queue)[1..] == s.queue;
      SubmitReadyWork(k, s2);
  }

  /** Every completion leaves less to do. */
  lemma ReapWork(k: Kernel, s: State, i: nat)
    requires i < |s.inflight| && s.inflight[i].ret.Some?
    ensures LessWork(ReapAt(k, s, i), Growth(s), Chunks(s))
  {
    var flight := s.inflight[i];
    var s1 := s.(inflight := SwapRemove(s.inflight, i));
    SumSwapRemove(s.inflight, i, FlightGrows());
    SumSwapRemove(s.inflight, i, FlightLasts());
    match flight.ret.value
    case Returned(moved) => AdvanceWork(k, s1, flight.job, moved);
    case Failed(_) =>
  }

  /** The request as it was, or answered meanwhile. */
  predicate Answered(before: Flight, after: Flight) {
    after.job == before.job && (before.ret.Some? ==> after.ret == before.ret)
  }

  predicate AllAnswered(before: seq<Flight>, after: seq<Flight>) {
    |before| == |after| && forall i :: 0 <= i < |after| ==> Answered(before[i], after[i])
  }

  lemma AnsweredWork(before: seq<Flight>, after: seq<Flight>)
    requires AllAnswered(before, after)
    ensures Sum(after, FlightGrows()) == Sum(before, FlightGrows())
    ensures Sum(after, FlightLasts()) == Sum(before, FlightLasts())
  {
    forall i | 0 <= i < |after| ensures after[i].job == before[i].job { assert Answered(before[i], after[i]); }
    SumSame(before, after, FlightGrows());
    SumSame(before, after, FlightLasts());
  }

  predicate ByOthers(action: Action) {
    match action
    case ClientSubmits(_) => true
    case ClientCancels(_) => true
    case ClientsLeave => true
    case HelperDoes(_) => true
    case KernelAnswers(_, _) => true
    case _ => false
  }

  /** What the driver thread alone changes; what the others send is only added
      to. */
  predicate SameDriver(s: State, r: State) {
    && s.rx <= r.rx && s.back <= r.back
    && r.queue == s.queue && r.pendingOpens == s.pendingOpens && r.cancelledOpens == s.cancelledOpens
    && r.files == s.files && r.disconnected == s.disconnected && r.maxInflight == s.maxInflight
    && AllAnswered(s.inflight, r.inflight)
  }

  lemma OthersLeaveDriver(k: Kernel, s: State, action: Action)
    requires ByOthers(action) && Enabled(s, action)
    ensures SameDriver(s, Do(k, s, action))
  {
    hide HandleMsg, HandleOpened, ReapAt, SubmitReady, HelperStep;
    match action
    case HelperDoes(i) => HelperLeavesDriver(k, s, i);
    case KernelAnswers(i, ret) =>
    case _ =>
  }

  /** An open changes only which descriptors are open, and what is recorded. */
  lemma OpenNowLeaves(k: Kernel, s: State, after: AfterOpen)
    ensures var r := OpenNow(k, s, after).0; r == s.(tick := r.tick, log := r.log, open := r.open)
  {}

  lemma HelperLeavesDriver(k: Kernel, s: State, i: nat)
    requires i < |s.toHelpers|
    ensures SameDriver(s, HelperStep(k, s, i))
  {
    hide OpenNow, Run;
    var s1 := s.(toHelpers := s.toHelpers[..i] + s.toHelpers[i + 1..]);
    if s.toHelpers[i].OpenJob? { OpenNowLeaves(k, s1, s.toHelpers[i].pending.after); }
  }

  lemma SameDriverTwice(a: State, b: State, c: State)
    requires SameDriver(a, b) && SameDriver(b, c)
    ensures SameDriver(a, c)
  {
    forall i | 0 <= i < |c.inflight| ensures Answered(a.inflight[i], c.inflight[i]) {
      assert Answered(a.inflight[i], b.inflight[i]) && Answered(b.inflight[i], c.inflight[i]);
    }
  }

  // ---------------------------------------------------------------------
  // Which requests a run has reaped
  // ---------------------------------------------------------------------

  function ReapedBy(s: State, action: Action): set<Id> {
    if action.Reap? && Enabled(s, action) then {s.inflight[action.i].job.id} else {}
  }

  /** The ops whose chunks a run has taken from the kernel. */
  function Reaped(k: Kernel, s: State, actions: seq<Action>): set<Id>
    decreases |actions|
  {
    if actions == [] then {}
    else ReapedBy(s, actions[0]) + Reaped(k, if Enabled(s, actions[0]) then Do(k, s, actions[0]) else s, actions[1..])
  }

  lemma {:induction false} ReapedAppend(k: Kernel, s: State, a: seq<Action>, b: seq<Action>)
    ensures Reaped(k, s, a + b) == Reaped(k, s, a) + Reaped(k, Run(k, s, a), b)
    decreases |a|
  {
    if a == [] {
      assert a + b == b;
    } else {
      assert (a + b)[1..] == a[1..] + b;
      ReapedAppend(k, if Enabled(s, a[0]) then Do(k, s, a[0]) else s, a[1..], b);
    }
  }

  /** The op's request is complete and still ahead of the reaper. */
  predicate Ahead(inflight: seq<Flight>, index: nat, id: Id) {
    exists p :: index <= p < |inflight| && inflight[p].job.id == id && inflight[p].ret.Some?
  }

  lemma AheadAnswered(before: seq<Flight>, after: seq<Flight>, index: nat, id: Id)
    requires AllAnswered(before, after) && Ahead(before, index, id)
    ensures Ahead(after, index, id)
  {
    var p :| index <= p < |before| && before[p].job.id == id && before[p].ret.Some?;
    assert Answered(before[p], after[p]);
  }

  lemma AheadReaped(before: seq<Flight>, after: seq<Flight>, index: nat, id: Id)
    requires index < |before| && SwapRemove(before, index) <= after && Ahead(before, index, id)
    ensures before[index].job.id == id || Ahead(after, index, id)
  {
    var p :| index <= p < |before| && before[p].job.id == id && before[p].ret.Some?;
    if p > index {
      var p' := if p == |before| - 1 then index else p;
      assert SwapRemove(before, index)[p'] == before[p];
      assert after[p'] == before[p];
    }
  }

  /** Every request complete in `was` has been reaped or is still ahead. */
  ghost predicate NoneMissed(was: seq<Flight>, reaped: set<Id>, inflight: seq<Flight>, index: nat) {
    forall q :: 0 <= q < |was| && was[q].ret.Some? ==>
      was[q].job.id in reaped || Ahead(inflight, index, was[q].job.id)
  }

  lemma NoneMissedYet(was: seq<Flight>, reaped: set<Id>)
    ensures NoneMissed(was, reaped, was, 0)
  {}

  lemma AnsweredMissesNone(was: seq<Flight>, reaped: set<Id>, more: set<Id>, before: seq<Flight>, after: seq<Flight>,
                           index: nat)
    requires NoneMissed(was, reaped, before, index) && reaped <= more && AllAnswered(before, after)
    ensures NoneMissed(was, more, after, index)
  {
    forall q | 0 <= q < |was| && was[q].ret.Some?
      ensures was[q].job.id in more || Ahead(after, index, was[q].job.id)
    {
      if Ahead(before, index, was[q].job.id) { AheadAnswered(before, after, index, was[q].job.id); }
    }
  }

  lemma SkippingMissesNone(was: seq<Flight>, reaped: set<Id>, inflight: seq<Flight>, index: nat)
    requires NoneMissed(was, reaped, inflight, index) && index < |inflight| && inflight[index].ret.None?
    ensures NoneMissed(was, reaped, inflight, index + 1)
  {}

  /** The last request moves into the place of the one taken, and that place
      is looked at again. */
  lemma TakingMissesNone(was: seq<Flight>, reaped: set<Id>, before: seq<Flight>, after: seq<Flight>, index: nat)
    requires NoneMissed(was, reaped, before, index) && index < |before| && SwapRemove(before, index) <= after
    ensures NoneMissed(was, reaped + {before[index].job.id}, after, index)
  {
    forall q | 0 <= q < |was| && was[q].ret.Some?
      ensures was[q].job.id in reaped + {before[index].job.id} || Ahead(after, index, was[q].job.id)
    {
      if Ahead(before, index, was[q].job.id) { AheadReaped(before, after, index, was[q].job.id); }
    }
  }

  lemma NoneIsLeft(was: seq<Flight>, reaped: set<Id>, inflight: seq<Flight>)
    requires NoneMissed(was, reaped, inflight, |inflight|)
    ensures forall q :: 0 <= q < |was| && was[q].ret.Some? ==> was[q].job.id in reaped
  {}

  lemma SameDriverWork(s: State, r: State)
    requires SameDriver(s, r)
    ensures Growth(r) == Growth(s) && Chunks(r) == Chunks(s)
    ensures |r.inflight| == |s.inflight| && AllAnswered(s.inflight, r.inflight)
    ensures s.rx <= r.rx && s.back <= r.back
  {
    AnsweredWork(s.inflight, r.inflight);
  }

  class Driver {
    const k: Kernel
    const maxInflight: nat
    /** What the other threads do before the driver thread's n-th look. */
    const others: nat -> seq<Action>
    /** Between how many takes of a drain they still do something. */
    const bursts: nat -> nat
    var looks: nat
    var rx: seq<Msg>
    var clientsGone: bool
    var nextOp: nat
    var toHelpers: seq<HelperJob>
    var back: seq<Back>
    var pendingOpens: set<Id>
    var cancelledOpens: set<Id>
    var files: map<Handle, Entry>
    var nextId: nat
    var inflight: seq<Flight>
    var queue: seq<Job>
    var disconnected: bool
    var open: set<Fd>
    var tick: nat
    ghost var log: seq<Event>
    ghost var trace: seq<Touch>
    ghost var arrivals: seq<Id>
    ghost var firsts: seq<Id>
    ghost var dropped: set<Id>
    ghost var ledger: Ledger

    ghost function Abs(): State
      reads this
    {
      State(rx, clientsGone, nextOp, toHelpers, back, pendingOpens, cancelledOpens, files, nextId,
            inflight, queue, maxInflight, disconnected, open, tick, log, trace,
            arrivals, firsts, dropped, ledger)
    }

    constructor (k: Kernel, maxInflight: nat, others: nat -> seq<Action>, bursts: nat -> nat)
      requires maxInflight >= 1
      ensures this.k == k && this.others == others && this.bursts == bursts
      ensures Abs() == Init(maxInflight) && Good(Abs())
    {
      this.k, this.maxInflight, this.others, this.bursts, looks := k, maxInflight, others, bursts, 0;
      rx, clientsGone, nextOp := [], false, 1;
      toHelpers, back, pendingOpens, cancelledOpens := [], [], {}, {};
      files, nextId, inflight, queue, disconnected := map[], 1, [], [], false;
      open, tick := {}, 0;
      log, trace, arrivals, firsts, dropped, ledger := [], [], [], [], {}, Ledger(map[], map[], map[], map[]);
      new;
      InitGood(maxInflight);
    }

    // -------------------------------------------------------------------
    // System calls
    // -------------------------------------------------------------------

    /** What the environment decides next. */
    method Ask() returns (answer: Answer)
      modifies this`tick
      ensures Abs() == Ticked(old(Abs())) && answer == k(old(tick))
    {
      answer := k(tick);
      tick := tick + 1;
    }

    method Close(fd: Fd) returns (result: Result)
      modifies this
      ensures Abs() == CloseRaw(k, old(Abs()), fd) && result == CloseResult(k, old(Abs()), fd)
    {
      log := log + [Closed(fd, fd in open)];
      var answer := Ask();
      result :=
        if fd !in open then Err(Os(EBADF))
        else if answer.closeError.Some? then Err(Os(answer.closeError.value))
        else Ok(UnitReply);
      open := open - {fd};
    }

    method OpenFile(after: AfterOpen) returns (result: OpenResult)
      modifies this
      ensures (Abs(), result) == OpenNow(k, old(Abs()), after)
    {
      var a := Ask();
      if a.openResult.NotOpened? {
        return a.openResult;
      }
      var fd := a.openResult.fd;
      if fd in open {
        return NotOpened(0);
      }
      open := open + {fd};
      if after.AsWrite? {
        return Opened(fd, 0);
      }
      if a.look.size.None? {
        var _ := Close(fd);
        return NotOpened(a.look.statError);
      }
      return Opened(fd, a.look.size.value);
    }

    method LooksBusy() returns (busy: bool)
      modifies this`tick
      ensures Abs() == Ticked(old(Abs())) && busy == HasBacklog(k, old(Abs()))
    {
      var a := Ask();
      busy := rx != [] || a.arrived || queue != [] || pendingOpens != {};
    }

    ghost method Record(id: Id, chunk: Chunk)
      modifies this`ledger
      ensures Abs() == Recorded(old(Abs()), id, chunk)
    {
      ledger := ledger.(chunks := ledger.chunks[id := ChunksOf(ledger.chunks, id) + [chunk]]);
    }

    ghost method Note(id: Id, result: Result)
      modifies this`log
      ensures Abs() == Settle(old(Abs()), id, result)
    {
      log := log + [Settled(id, result)];
    }

    // -------------------------------------------------------------------
    // Settling and submitting
    // -------------------------------------------------------------------

    method CloseOwnedFd(fd: Fd)
      modifies this
      ensures Abs() == CloseOwned(k, old(Abs()), fd)
    {
      var busy := LooksBusy();
      if busy {
        toHelpers := toHelpers + [CloseJob(fd)];
      } else {
        var _ := Close(fd);
      }
    }

    method CloseEntry(handle: Handle, fd: Fd, id: Id)
      modifies this
      ensures Abs() == CloseHandle(k, old(Abs()), handle, fd, id)
    {
      files := files - {handle};
      var result := Close(fd);
      log := log + [HandleGone(handle, id, result)];
    }

    method ReleaseHandle(handle: Handle)
      requires handle in files
      modifies this
      ensures Abs() == Release(k, old(Abs()), handle)
    {
      var entry := files[handle].(ops := files[handle].ops - 1);
      if entry.ops > 0 || entry.closing.None? {
        files := files[handle := entry];
      } else {
        CloseEntry(handle, entry.fd, entry.closing.value);
      }
    }

    method FinishJob(job: Job, result: Result)
      modifies this
      ensures Abs() == Finish(k, old(Abs()), job, result)
    {
      if job.work.owned {
        CloseOwnedFd(job.work.fd);
      }
      Note(job.id, result);
      if job.work.handle.Some? && job.work.handle.value in files {
        ReleaseHandle(job.work.handle.value);
      }
    }

    method RunSync(job0: Job)
      modifies this
      ensures Abs() == ExecuteSync(k, old(Abs()), job0)
    {
      var job := job0;
      while true
        invariant ExecuteSync(k, Abs(), job) == ExecuteSync(k, old(Abs()), job0)
        decreases Growable(job.work), Remaining(job.work)
      {
        trace := trace + [Issued(job.id)];
        var a := Ask();
        if a.failed.Some? {
          Fault(Refusal(job.id, a.failed.value));
          FinishJob(job, Err(Os(a.failed.value)));
          return;
        }
        var m := Clamp(job.work, a.moved);
        Record(job.id, Chunk(m, a.look));
        match After(job.work, m, a.look) {
          case Done(result) =>
            FinishJob(job, result);
            return;
          case More(work) =>
            Progress(job.work, m, a.look);
            job := job.(work := work);
        }
      }
    }

    ghost method MarkFirst(id: Id)
      modifies this`firsts
      ensures Abs() == WithFirst(old(Abs()), id)
    {
      firsts := if id in firsts then firsts else firsts + [id];
    }

    ghost method Fault(touch: Touch)
      modifies this`trace
      ensures Abs() == Touched(old(Abs()), touch)
    {
      trace := trace + [touch];
    }

    method Launch(job: Job)
      modifies this`inflight, this`trace
      ensures Abs() == Touched(old(Abs()), Issued(job.id)).(inflight := old(inflight) + [Flight(job, None)])
    {
      trace := trace + [Issued(job.id)];
      inflight := inflight + [Flight(job, None)];
    }

    /** Hands one job to the kernel, unless the kernel is full. */
    method Submit(job: Job) returns (full: bool)
      modifies this
      ensures full == IsFull(k, old(Abs()))
      ensures Abs() == if full then Ticked(old(Abs())) else SubmitJob(k, old(Abs()), job)
    {
      hide Finish, ExecuteSync, Touched, WithFirst;
      var a := Ask();
      full := a.accept.Again? && inflight != [];
      if full { return; }
      MarkFirst(job.id);
      match a.accept {
        case Taken => Launch(job);
        case Again => RunSync(job);
        case Refused(code) =>
          Fault(Refusal(job.id, code));
          FinishJob(job, Err(Os(code)));
      }
    }

    method SubmitWaiting()
      modifies this
      ensures Abs() == SubmitReady(k, old(Abs()))
    {
      while |inflight| < maxInflight && queue != []
        invariant SubmitReady(k, Abs()) == SubmitReady(k, old(Abs()))
        decreases |queue|
      {
        label before:
        var job := queue[0];
        queue := queue[1..];
        var full := Submit(job);
        if full {
          queue := [job] + queue;
          assert queue == old@before(queue);
          return;
        }
      }
    }

    method CountJob(job: Job)
      modifies this
      ensures Abs() == Accepted(old(Abs()), job)
    {
      arrivals, ledger := arrivals + [job.id], Entered(ledger, job);
      if job.work.handle.Some? && job.work.handle.value in files {
        var h := job.work.handle.value;
        files := files[h := files[h].(ops := files[h].ops + 1)];
      }
    }

    method Accept(id: Id, work: SoundWork)
      modifies this
      ensures Abs() == Enqueue(k, old(Abs()), id, work)
    {
      hide SubmitReady, Accepted;
      var job := Job(id, false, work);
      CountJob(job);
      queue := queue + [job];
      SubmitWaiting();
    }

    /** Queues a read to the end, with room for what is left by the size. */
    method AcceptRest(id: Id, handle: Option<Handle>, fd: Fd, pos: nat, size: Option<nat>)
      modifies this
      ensures Abs() == EnqueueRest(k, old(Abs()), id, handle, fd, pos, size)
    {
      hide Enqueue;
      ledger := ledger.(sizes := ledger.sizes[id := size]);
      Accept(id, ReadToEnd(handle, fd, handle.None?, pos, if size.Some? then size.value else 0));
    }

    // -------------------------------------------------------------------
    // Opens
    // -------------------------------------------------------------------

    method RegisterFd(fd: Fd, size: nat, id: Id)
      modifies this
      ensures Abs() == Register(old(Abs()), fd, size, id)
    {
      var handle := nextId;
      nextId := nextId + 1;
      files := files[handle := Entry(fd, 0, None)];
      Note(id, Ok(HandleReply(handle, size, fd)));
    }

    method FileOpened(pending: Pending, result: OpenResult)
      modifies this
      ensures Abs() == AfterOpened(k, old(Abs()), pending, result)
    {
      match result {
        case NotOpened(code) => Note(pending.id, Err(Os(code)));
        case Opened(fd, size) =>
          match pending.after {
            case AsHandle => RegisterFd(fd, size, pending.id);
            case AsRead(inlineMax) =>
              if size > inlineMax {
                RegisterFd(fd, size, pending.id);
              } else {
                AcceptRest(pending.id, None, fd, 0, Some(size));
              }
            case AsWrite(data) => Accept(pending.id, Write(None, fd, true, 0, false, data, 0));
          }
      }
    }

    method StartOpen(pending: Pending)
      modifies this
      ensures Abs() == OpenThen(k, old(Abs()), pending)
    {
      var busy := LooksBusy();
      if busy {
        pendingOpens := pendingOpens + {pending.id};
        toHelpers := toHelpers + [OpenJob(pending)];
      } else {
        var result := OpenFile(pending.after);
        FileOpened(pending, result);
      }
    }

    method HelperAnswered(answer: Back)
      modifies this
      ensures Abs() == HandleOpened(k, old(Abs()), answer)
    {
      var id := answer.pending.id;
      pendingOpens := pendingOpens - {id};
      if id in cancelledOpens {
        cancelledOpens := cancelledOpens - {id};
        if answer.result.Opened? {
          var _ := Close(answer.result.fd);
        }
        Note(id, Err(Cancelled));
        return;
      }
      FileOpened(answer.pending, answer.result);
    }

    // -------------------------------------------------------------------
    // Messages
    // -------------------------------------------------------------------

    method CloseFile(handle: Handle, id: Id)
      modifies this
      ensures Abs() == HandleClose(k, old(Abs()), handle, id)
    {
      if handle !in files || files[handle].closing.Some? {
        Note(id, Err(BadHandle));
        return;
      }
      if files[handle].ops > 0 {
        files := files[handle := files[handle].(closing := Some(id))];
        return;
      }
      CloseEntry(handle, files[handle].fd, id);
    }

    method Stat() returns (result: Result)
      modifies this`tick
      ensures Abs() == Ticked(old(Abs())) && result == StatReply(k, old(Abs()))
    {
      var a := Ask();
      result := if a.look.size.Some? then Ok(SizeReply(a.look.size.value)) else Err(Os(a.look.statError));
    }

    method FileOp(id: Id, op: Op, fd: Fd)
      requires op.ReadAt? || op.ReadRest? || op.WriteAt? || op.Sync? || op.SetLen? || op.Size?
      modifies this
      ensures Abs() == HandleFileOp(k, old(Abs()), id, op, fd)
    {
      match op
      case Size(_) =>
        var result := Stat();
        Note(id, result);
      case SetLen(_) =>
        var a := Ask();
        Note(id, if a.truncateError.Some? then Err(Os(a.truncateError.value)) else Ok(UnitReply));
      case Sync(handle) => Accept(id, Fsync(Some(handle), fd, false));
      case ReadAt(handle, pos, len, external) =>
        if len == 0 {
          Note(id, Ok(if external then ReadReply(0) else BytesReply([])));
          return;
        }
        Accept(id, SizedRead(handle, fd, pos, len, external));
      case ReadRest(handle, pos) =>
        var a := Ask();
        AcceptRest(id, Some(handle), fd, pos, a.look.size);
      case WriteAt(handle, pos, data, append) =>
        if data != [] {
          Accept(id, Write(Some(handle), fd, false, pos, append, data, 0));
        } else if append {
          var stat := Stat();
          Note(id, if stat.Ok? then Ok(WrittenReply(0, stat.reply.size)) else stat);
        } else {
          Note(id, Ok(WrittenReply(0, pos)));
        }
    }

    method StartOp(id: Id, op: Op)
      modifies this
      ensures Abs() == HandleOp(k, old(Abs()), id, op)
    {
      match op
      case Nop => Note(id, Ok(UnitReply));
      case Open => StartOpen(Pending(id, AsHandle));
      case ReadFile(inlineMax) => StartOpen(Pending(id, AsRead(inlineMax)));
      case WriteFile(data) => StartOpen(Pending(id, AsWrite(data)));
      case Close(handle) => CloseFile(handle, id);
      case _ =>
        if op.handle in files && files[op.handle].closing.None? {
          FileOp(id, op, files[op.handle].fd);
        } else {
          Note(id, Err(BadHandle));
        }
    }

    method CancelQueuedJob(i: nat)
      requires i < |queue|
      modifies this
      ensures Abs() == Finish(k, Dropped(old(Abs()), i), old(queue[i]), Err(Cancelled))
    {
      hide Finish;
      var job := queue[i];
      queue := queue[..i] + queue[i + 1..];
      trace, dropped := trace + [Doomed(job.id)], if job.id in firsts then dropped else dropped + {job.id};
      assert Abs() == Dropped(old(Abs()), i);
      FinishJob(job, Err(Cancelled));
    }

    method CancelOp(id: Id)
      modifies this
      ensures Abs() == HandleCancel(k, old(Abs()), id)
    {
      hide Finish;
      var i := Place(queue, id);
      var j := FlightPlace(inflight, id);
      if i < |queue| {
        CancelQueuedJob(i);
      } else if j < |inflight| {
        trace := trace + [Doomed(id)];
        var flight := inflight[j];
        inflight := inflight[j := flight.(job := flight.job.(cancelled := true))];
      } else if id in pendingOpens {
        trace := trace + [Doomed(id)];
        cancelledOpens := cancelledOpens + {id};
      }
    }

    method Receive()
      requires Enabled(Abs(), TakeMsg)
      modifies this
      ensures Abs() == Do(k, old(Abs()), TakeMsg)
    {
      var msg := rx[0];
      rx := rx[1..];
      match msg
      case Submit(id, op) => StartOp(id, op);
      case Cancel(id) => CancelOp(id);
    }

    method ReceiveOpened()
      requires Enabled(Abs(), TakeOpened)
      modifies this
      ensures Abs() == Do(k, old(Abs()), TakeOpened)
    {
      var answer := back[0];
      back := back[1..];
      HelperAnswered(answer);
    }

    // -------------------------------------------------------------------
    // Completions
    // -------------------------------------------------------------------

    method AdvanceJob(job: Job, moved: Moved)
      modifies this
      ensures Abs() == Advance(k, old(Abs()), job, moved)
    {
      var a := Ask();
      Record(job.id, Chunk(Clamp(job.work, moved), a.look));
      match After(job.work, Clamp(job.work, moved), a.look)
      case Done(result) => FinishJob(job, result);
      case More(work) =>
        if job.cancelled {
          FinishJob(job.(work := work), Err(Cancelled));
        } else {
          queue := [job.(work := work)] + queue;
          SubmitWaiting();
        }
    }

    method ReapOne(i: nat)
      requires Enabled(Abs(), Reap(i))
      modifies this
      ensures Abs() == Do(k, old(Abs()), Reap(i))
    {
      var flight := inflight[i];
      inflight := SwapRemove(inflight, i);
      match flight.ret.value
      case Returned(moved) => AdvanceJob(flight.job, moved);
      case Failed(code) => FinishJob(flight.job, Err(Os(code)));
    }

    // -------------------------------------------------------------------
    // The loop
    // -------------------------------------------------------------------

    /** One thing a client, a helper thread or the kernel does. */
    method Other(action: Action)
      requires ByOthers(action) && Enabled(Abs(), action)
      modifies this
      ensures Abs() == Do(k, old(Abs()), action)
    {
      match action
      case ClientSubmits(op) =>
        ledger := ledger.(ops := ledger.ops[nextOp := op]);
        rx, nextOp := rx + [DriverModel.Submit(nextOp, op)], nextOp + 1;
      case ClientCancels(id) => rx := rx + [Cancel(id)];
      case ClientsLeave => clientsGone := true;
      case HelperDoes(i) => Help(i);
      case KernelAnswers(i, ret) => Complete(i, ret);
    }

    method Complete(i: nat, ret: Ret)
      requires i < |inflight|
      modifies this
      ensures Abs() == Completed(old(Abs()), i, ret)
    {
      if ret.Failed? { Fault(Failure(inflight[i].job.id, ret.code)); }
      inflight := inflight[i := inflight[i].(ret := Some(ret))];
    }

    /** One round of a helper thread's loop. */
    method Help(i: nat)
      requires i < |toHelpers|
      modifies this
      ensures Abs() == HelperStep(k, old(Abs()), i)
    {
      var job := toHelpers[i];
      toHelpers := toHelpers[..i] + toHelpers[i + 1..];
      match job
      case CloseJob(fd) => var _ := Close(fd);
      case OpenJob(pending) =>
        var result := OpenFile(pending.after);
        back := back + [Back(pending, result)];
    }

    /** What the clients, the helpers and the kernel do before the driver
        thread's next look at what it shares with them: anything. */
    method Others(ghost start: State, ghost done: seq<Action>) returns (ghost actions: seq<Action>)
      requires Abs() == Run(k, start, done) && Good(Abs())
      modifies this
      ensures Abs() == Run(k, start, actions) && Good(Abs()) && SameDriver(old(Abs()), Abs())
      ensures Reaped(k, start, done) <= Reaped(k, start, actions)
      ensures Messages(actions) == Messages(done) && Answers(actions) == Answers(done)
    {
      hide Good, Do, Messages, Answers, Reaped;
      actions := done;
      var round := others(looks);
      looks := looks + 1;
      for i := 0 to |round|
        invariant Abs() == Run(k, start, actions) && Good(Abs()) && SameDriver(old(Abs()), Abs())
        invariant Reaped(k, start, done) <= Reaped(k, start, actions)
        invariant Messages(actions) == Messages(done) && Answers(actions) == Answers(done)
      {
        var action := round[i];
        if ByOthers(action) && Possible(action) {
          ghost var before := Abs();
          Other(action);
          OthersLeaveDriver(k, before, action);
          SameDriverTwice(old(Abs()), before, Abs());
          ReapedAppend(k, start, actions, [action]);
          actions := Advanced(k, start, actions, action);
        }
      }
    }

    predicate Possible(action: Action)
      reads this
      ensures ByOthers(action) ==> Possible(action) == Enabled(Abs(), action)
    {
      match action
      case ClientSubmits(_) => !clientsGone
      case ClientCancels(_) => !clientsGone
      case ClientsLeave => true
      case HelperDoes(i) => i < |toHelpers|
      case KernelAnswers(i, _) => i < |inflight| && inflight[i].ret.None?
      case _ => false
    }

    /** One pass over the in-flight requests. Every request that was complete
        when it began is taken, though each one taken lets the last one into
        its place and may send others after it; and the pass ends, even if the
        kernel completes everything at once. */
    method ReapAll() returns (ghost actions: seq<Action>)
      requires Good(Abs())
      modifies this
      ensures Abs() == Run(k, old(Abs()), actions) && Good(Abs())
      ensures forall q :: 0 <= q < |old(inflight)| && old(inflight)[q].ret.Some? ==>
        old(inflight)[q].job.id in Reaped(k, old(Abs()), actions)
      ensures old(rx) <= rx && old(back) <= back
    {
      hide Good, Do, Growth, Chunks, Reaped, NoneMissed, SameDriver, AllAnswered;
      ghost var start := Abs();
      actions := [];
      NoneMissedYet(inflight, Reaped(k, start, actions));
      var index := 0;
      while index < |inflight|
        invariant index <= |inflight|
        invariant Abs() == Run(k, start, actions) && Good(Abs())
        invariant NoneMissed(start.inflight, Reaped(k, start, actions), inflight, index)
        invariant start.rx <= rx && start.back <= back
        decreases Growth(Abs()), Chunks(Abs()), |inflight| - index
      {
        ghost var before, reaped := Abs(), Reaped(k, start, actions);
        actions := Others(start, actions);
        SameDriverWork(before, Abs());
        AnsweredMissesNone(start.inflight, reaped, Reaped(k, start, actions), before.inflight, inflight, index);
        if inflight[index].ret.None? {
          SkippingMissesNone(start.inflight, Reaped(k, start, actions), inflight, index);
          index := index + 1;
        } else {
          reaped, before := Reaped(k, start, actions), Abs();
          actions := TakeOne(start, actions, index);
          TakingMissesNone(start.inflight, reaped, before.inflight, inflight, index);
        }
      }
      NoneIsLeft(start.inflight, Reaped(k, start, actions), inflight);
    }

    method TakeOne(ghost start: State, ghost done: seq<Action>, i: nat) returns (ghost actions: seq<Action>)
      requires Abs() == Run(k, start, done) && Good(Abs()) && i < |inflight| && inflight[i].ret.Some?
      modifies this
      ensures Abs() == Run(k, start, actions) && Good(Abs())
      ensures LessWork(Abs(), old(Growth(Abs())), old(Chunks(Abs())))
      ensures SwapRemove(old(inflight), i) <= inflight && rx == old(rx) && back == old(back)
      ensures Reaped(k, start, actions) == Reaped(k, start, done) + {old(inflight)[i].job.id}
    {
      hide Good;
      ReapWork(k, Abs(), i);
      ReapedAppend(k, start, done, [Reap(i)]);
      actions := Advanced(k, start, done, Reap(i));
      ReapOne(i);
    }

    /** Takes every message that was sent before the driver looked, then every
        open that came back, and whatever arrives while it takes them. */
    method DrainChannel() returns (ghost actions: seq<Action>)
      requires Good(Abs())
      modifies this
      ensures Abs() == Run(k, old(Abs()), actions) && Good(Abs())
      ensures back == [] && (disconnected ==> clientsGone && rx == [])
      ensures Messages(actions) >= |old(rx)| && Answers(actions) >= |old(back)|
    {
      hide Good, Do, Messages, Answers;
      NothingTaken();
      ghost var start := Abs();
      actions := DrainMessages(start);
      if clientsGone {
        PlainSteps(k, Abs());
        actions := Advanced(k, start, actions, SeeGone);
        disconnected := true;
      }
      actions := DrainOpened(start, actions);
      GoodLeaves(Abs());
    }

    method DrainMessages(ghost start: State) returns (ghost actions: seq<Action>)
      requires Abs() == start && Good(Abs())
      modifies this
      ensures Abs() == Run(k, start, actions) && Good(Abs()) && rx == []
      ensures Messages(actions) >= |start.rx| && Answers(actions) == 0 && start.back <= back
    {
      hide Good, Do, Messages, Answers;
      NothingTaken();
      actions := Others(start, []);
      var left := bursts(looks);
      while rx != []
        invariant Abs() == Run(k, start, actions) && Good(Abs())
        invariant Messages(actions) + |rx| >= |start.rx| && Answers(actions) == 0 && start.back <= back
        decreases left, |rx|
      {
        if left > 0 {
          left := left - 1;
          actions := Others(start, actions);
        }
        TakingShortens(k, Abs());
        actions := Advanced(k, start, actions, TakeMsg);
        Receive();
      }
    }

    method DrainOpened(ghost start: State, ghost done: seq<Action>) returns (ghost actions: seq<Action>)
      requires Abs() == Run(k, start, done) && Good(Abs())
      modifies this
      ensures Abs() == Run(k, start, actions) && Good(Abs()) && back == []
      ensures Messages(actions) == Messages(done) && Answers(actions) >= Answers(done) + |old(back)|
    {
      hide Good, Do, Messages, Answers;
      actions := Others(start, done);
      var left := bursts(looks);
      while back != []
        invariant Abs() == Run(k, start, actions) && Good(Abs())
        invariant Messages(actions) == Messages(done) && Answers(actions) + |back| >= Answers(done) + |old(back)|
        decreases left, |back|
      {
        if left > 0 {
          left := left - 1;
          actions := Others(start, actions);
        }
        TakingShortens(k, Abs());
        actions := Advanced(k, start, actions, TakeOpened);
        ReceiveOpened();
      }
    }

    /** The one blocking wait: reached only with no job queued or in flight.
        `woke` is false while there is still nothing to wake up for. */
    method WaitIdle() returns (woke: bool, ghost actions: seq<Action>)
      requires Good(Abs()) && queue == [] && inflight == []
      modifies this
      ensures Abs() == Run(k, old(Abs()), actions) && Good(Abs())
      ensures !woke ==> queue == [] && inflight == [] && back == [] && (!disconnected ==> rx == [] && !clientsGone)
      ensures Messages(actions) + |rx| >= |old(rx)| && Answers(actions) + |back| >= |old(back)|
    {
      hide Good, Do, Messages, Answers;
      NothingTaken();
      ghost var start := Abs();
      actions := Others(start, []);
      woke := true;
      TakingShortens(k, Abs());
      if
      case !disconnected && rx != [] =>
        actions := Advanced(k, start, actions, TakeMsg);
        Receive();
      case back != [] =>
        actions := Advanced(k, start, actions, TakeOpened);
        ReceiveOpened();
      case !disconnected && rx == [] && clientsGone =>
        PlainSteps(k, Abs());
        actions := Advanced(k, start, actions, SeeGone);
        disconnected := true;
      case back == [] && (disconnected || (rx == [] && !clientsGone)) =>
        woke := false;
    }

    /** The working half of a pass. */
    method Work() returns (ghost actions: seq<Action>)
      requires Good(Abs()) && maxInflight >= 1
      modifies this
      ensures Abs() == Run(k, old(Abs()), actions) && Good(Abs())
      ensures queue == [] || inflight != []
      ensures Messages(actions) >= |old(rx)| && Answers(actions) >= |old(back)|
      ensures forall q :: 0 <= q < |old(inflight)| && old(inflight)[q].ret.Some? ==>
        old(inflight)[q].job.id in Reaped(k, old(Abs()), actions)
    {
      hide Good, Do, Messages, Answers, Reaped, Run, SubmitReady;
      ghost var start := Abs();
      actions := [];
      NothingDone(k, start);
      if inflight != [] {
        actions := ReapAll();
      }
      ghost var reaped := actions;
      ghost var drained := DrainChannel();
      actions := Joined(k, start, actions, drained);
      ghost var before := actions;
      SubmitReadyProgress(k, Abs());
      PlainSteps(k, Abs());
      actions := Advanced(k, start, actions, SubmitMore);
      ReapedAppend(k, start, before, [SubmitMore]);
      SubmitWaiting();
    }

    /** One pass of the loop. Unless it returns, it takes every request that was
        complete when it began, and every message and opened descriptor that was
        there. */
    method Pass() returns (exited: bool, ghost actions: seq<Action>)
      requires Good(Abs()) && maxInflight >= 1
      modifies this
      ensures Abs() == Run(k, old(Abs()), actions) && Good(Abs())
      ensures exited ==> Exits(Abs())
      ensures !exited ==>
        && (queue == [] || inflight != [])
        && Messages(actions) >= |old(rx)| && Answers(actions) >= |old(back)|
        && (forall q :: 0 <= q < |old(inflight)| && old(inflight)[q].ret.Some? ==>
              old(inflight)[q].job.id in Reaped(k, old(Abs()), actions))
    {
      hide Good, Do, Messages, Answers, Reaped, Run;
      ghost var start := Abs();
      NothingDone(k, start);
      GoodLeaves(Abs());
      if inflight == [] && queue == [] {
        if disconnected && pendingOpens == {} { return true, []; }
        var woke;
        woke, actions := WaitIdle();
        GoodLeaves(Abs());
        if !woke { return false, actions; }
        ghost var work := Work();
        actions := Joined(k, start, actions, work);
      } else {
        actions := Work();
      }
      exited := false;
    }

    /** `passes` rounds of the thread's loop, or fewer if it returns. When it
        returns, every op that was ever submitted has been answered once. */
    method RunLoop(passes: nat) returns (exited: bool, ghost actions: seq<Action>)
      requires maxInflight >= 1 && Abs() == Init(maxInflight)
      modifies this
      ensures Abs() == Run(k, old(Abs()), actions) && Good(Abs())
      ensures exited ==> Exits(Abs()) && forall x: Id :: TimesSettled(Abs(), x) == One(1 <= x < nextOp)
    {
      hide Good, Do, Messages, Answers, Reaped;
      ghost var start := Abs();
      InitGood(maxInflight);
      actions := [];
      exited := false;
      for i := 0 to passes
        invariant Abs() == Run(k, start, actions) && Good(Abs()) && !exited
      {
        ghost var pass;
        exited, pass := Pass();
        actions := Joined(k, start, actions, pass);
        if exited {
          assert Reachable(k, Abs());
          forall x: Id ensures TimesSettled(Abs(), x) == One(1 <= x < nextOp) { ExitSettlesAll(k, Abs(), x); }
          return;
        }
      }
    }
  }

  lemma NothingTaken()
    ensures Messages([]) == 0 && Answers([]) == 0
  {}

  lemma NothingDone(k: Kernel, s: State)
    ensures Run(k, s, []) == s && Reaped(k, s, []) == {} && Messages([]) == 0 && Answers([]) == 0
  {}

  lemma TakingShortens(k: Kernel, s: State)
    ensures s.rx != [] ==> Do(k, s, TakeMsg).rx == s.rx[1..] && Do(k, s, TakeMsg).back == s.back
    ensures s.back != [] ==> Do(k, s, TakeOpened).back == s.back[1..] && Do(k, s, TakeOpened).rx == s.rx
  {
    hide HandleMsg, HandleOpened;
    if s.rx != [] { assert SameClients(s.(rx := s.rx[1..]), HandleMsg(k, s.(rx := s.rx[1..]), s.rx[0])); }
    if s.back != [] {
      assert SameClients(s.(back := s.back[1..]), HandleOpened(k, s.(back := s.back[1..]), s.back[0]));
    }
  }

  lemma PlainSteps(k: Kernel, s: State)
    ensures Enabled(s, SeeGone) ==> Do(k, s, SeeGone) == s.(disconnected := true)
    ensures Do(k, s, SubmitMore) == SubmitReady(k, s)
  {
    hide HandleMsg, HandleOpened, ReapAt, SubmitReady, HelperStep;
  }

  lemma GoodLeaves(s: State)
    requires Good(s)
    ensures LeaveInv(s)
  {}
}
