/** No op can get stuck: once the clients send nothing more, every step of the
    driver, of the kernel or of a helper brings the end nearer, whatever the
    answers, so the steps run out; and they run out at the end only, every op
    settled. */
module DriverProgress {
  import opened Basics
  import opened Transfer
  import opened DriverModel
  import opened DriverCalls
  import opened DriverTheorems
  import opened DriverThread

  function IsOpenJob(): HelperJob -> nat { (j: HelperJob) => if j.OpenJob? then 1 else 0 }

  /** The opens that are out at helpers. */
  function Opens(s: State): nat { Sum(s.toHelpers, IsOpenJob()) }

  lemma CloseOwnedOpens(k: Kernel, s: State, fd: Fd)
    ensures Opens(CloseOwned(k, s, fd)) == Opens(s)
  {
    SumSnoc(s.toHelpers, CloseJob(fd), IsOpenJob());
  }

  lemma FinishOpens(k: Kernel, s: State, job: Job, result: Result)
    ensures Opens(Finish(k, s, job, result)) == Opens(s)
  {
    CloseOwnedOpens(k, s, job.work.fd);
    hide CloseOwned;
  }

  lemma {:induction false} ExecuteSyncOpens(k: Kernel, s: State, job: Job)
    ensures Opens(ExecuteSync(k, s, job)) == Opens(s)
    decreases Growable(job.work), Remaining(job.work)
  {
    hide Finish;
    var a := k(s.tick);
    var s1 := Ticked(Touched(s, Issued(job.id)));
    if a.failed.Some? {
      FinishOpens(k, Touched(s1, Refusal(job.id, a.failed.value)), job, Err(Os(a.failed.value)));
    } else {
      var m := Clamp(job.work, a.moved);
      var s2 := Recorded(s1, job.id, Chunk(m, a.look));
      match After(job.work, m, a.look)
      case Done(result) => FinishOpens(k, s2, job, result);
      case More(work) =>
        Progress(job.work, m, a.look);
        ExecuteSyncOpens(k, s2, job.(work := work));
    }
  }

  lemma SubmitJobOpens(k: Kernel, s: State, job: Job)
    requires !IsFull(k, s)
    ensures Opens(SubmitJob(k, s, job)) == Opens(s)
  {
    hide Finish, ExecuteSync;
    var s1 := WithFirst(Ticked(s), job.id);
    match k(s.tick).accept
    case Taken =>
    case Again => ExecuteSyncOpens(k, s1, job);
    case Refused(code) => FinishOpens(k, Touched(s1, Refusal(job.id, code)), job, Err(Os(code)));
  }

  lemma {:induction false} SubmitReadyOpens(k: Kernel, s: State)
    ensures Opens(SubmitReady(k, s)) == Opens(s)
    ensures |SubmitReady(k, s).queue| <= |s.queue|
    decreases |s.queue|
  {
    hide SubmitJob;
    if !(|s.inflight| >= s.maxInflight || s.queue == [] || IsFull(k, s)) {
      var popped := s.(queue := s.queue[1..]);
      SubmitJobOpens(k, popped, s.queue[0]);
      SubmitReadyOpens(k, SubmitJob(k, popped, s.queue[0]));
    }
  }

  /** A look at the queue takes a job from it, or does nothing. */
  lemma SubmitReadyTakes(k: Kernel, s: State)
    ensures SubmitReady(k, s) == s || SubmitReady(k, s) == Ticked(s) || |SubmitReady(k, s).queue| < |s.queue|
    ensures s.inflight == [] && s.queue != [] && s.maxInflight >= 1 ==> |SubmitReady(k, s).queue| < |s.queue|
  {
    hide SubmitJob;
    if !(|s.inflight| >= s.maxInflight || s.queue == [] || IsFull(k, s)) {
      SubmitReadyOpens(k, SubmitJob(k, s.(queue := s.queue[1..]), s.queue[0]));
    }
  }

  lemma EnqueueOpens(k: Kernel, s: State, id: Id, work: SoundWork)
    ensures Opens(Enqueue(k, s, id, work)) == Opens(s)
  {
    hide SubmitReady;
    SubmitReadyOpens(k, Pushed(Accepted(s, Job(id, false, work)), Job(id, false, work), false));
  }

  lemma AfterOpenedOpens(k: Kernel, s: State, pending: Pending, result: OpenResult)
    ensures Opens(AfterOpened(k, s, pending, result)) == Opens(s)
  {
    hide Enqueue;
    if result.Opened? {
      match pending.after
      case AsHandle =>
      case AsRead(inlineMax) =>
        EnqueueOpens(k, Sized(s, pending.id, Some(result.size)), pending.id,
                     ReadToEnd(None, result.fd, true, 0, result.size));
      case AsWrite(data) =>
        EnqueueOpens(k, s, pending.id, Write(None, result.fd, true, 0, false, data, 0));
    }
  }

  lemma HandleOpenedOpens(k: Kernel, s: State, answer: Back)
    ensures Opens(HandleOpened(k, s, answer)) == Opens(s)
  {
    hide AfterOpened;
    AfterOpenedOpens(k, s.(pendingOpens := s.pendingOpens - {answer.pending.id}), answer.pending, answer.result);
  }

  lemma ReapOpens(k: Kernel, s: State, i: nat)
    requires i < |s.inflight| && s.inflight[i].ret.Some?
    ensures Opens(ReapAt(k, s, i)) == Opens(s)
  {
    hide Finish, SubmitReady;
    var flight := s.inflight[i];
    var s1 := s.(inflight := SwapRemove(s.inflight, i));
    match flight.ret.value
    case Failed(code) => FinishOpens(k, s1, flight.job, Err(Os(code)));
    case Returned(moved) =>
      var job := flight.job;
      var m := Clamp(job.work, moved);
      var s2 := Recorded(Ticked(s1), job.id, Chunk(m, k(s1.tick).look));
      match After(job.work, m, k(s1.tick).look)
      case Done(result) => FinishOpens(k, s2, job, result);
      case More(work) =>
        FinishOpens(k, s2, job.(work := work), Err(Cancelled));
        SubmitReadyOpens(k, Pushed(s2, job.(work := work), true));
  }

  // ---------------------------------------------------------------------
  // The way to the end
  // ---------------------------------------------------------------------

  /** Requests the kernel has not answered. */
  function IsOut(): Flight -> nat { (f: Flight) => if f.ret.None? then 1 else 0 }

  function Unanswered(s: State): nat { Sum(s.inflight, IsOut()) }

  function IsCloseJob(): HelperJob -> nat { (j: HelperJob) => if j.CloseJob? then 1 else 0 }

  /** The closes that are out at helpers. */
  function Closes(s: State): nat { Sum(s.toHelpers, IsCloseJob()) }

  /** What is left to do, the most far-reaching first. */
  predicate Nearer(s: State, r: State) {
    || |r.rx| < |s.rx|
    || (|r.rx| == |s.rx| && (
      || 2 * Opens(r) + |r.back| < 2 * Opens(s) + |s.back|
      || (2 * Opens(r) + |r.back| == 2 * Opens(s) + |s.back| && (
        || LessWork(r, Growth(s), Chunks(s))
        || (Growth(r) <= Growth(s) && Chunks(r) <= Chunks(s) && (
          || |r.queue| < |s.queue|
          || (|r.queue| == |s.queue| && (
            || Unanswered(r) < Unanswered(s)
            || (Unanswered(r) == Unanswered(s) && (
              || Leaving(r) < Leaving(s)
              || (Leaving(r) == Leaving(s) && Closes(r) < Closes(s))))))))))))
  }

  function Leaving(s: State): nat { (if s.clientsGone then 0 else 1) + (if s.disconnected then 0 else 1) }

  lemma TakeMsgNearer(k: Kernel, s: State)
    requires s.rx != []
    ensures Nearer(s, Do(k, s, TakeMsg)) && Do(k, s, TakeMsg).nextOp == s.nextOp
  {
    hide HandleMsg;
    assert SameClients(s.(rx := s.rx[1..]), HandleMsg(k, s.(rx := s.rx[1..]), s.rx[0]));
  }

  lemma TakeOpenedNearer(k: Kernel, s: State)
    requires s.back != []
    ensures Nearer(s, Do(k, s, TakeOpened)) && Do(k, s, TakeOpened).nextOp == s.nextOp
  {
    hide HandleOpened;
    var s1 := s.(back := s.back[1..]);
    assert SameClients(s1, HandleOpened(k, s1, s.back[0]));
    HandleOpenedOpens(k, s1, s.back[0]);
  }

  /** A helper carries out an open, whatever comes of it, or a close. */
  lemma HelperNearer(k: Kernel, s: State, i: nat)
    requires i < |s.toHelpers|
    ensures Nearer(s, Do(k, s, HelperDoes(i))) && Do(k, s, HelperDoes(i)).nextOp == s.nextOp
  {
    SumRemove(s.toHelpers, i, IsOpenJob());
    SumRemove(s.toHelpers, i, IsCloseJob());
    var s1 := s.(toHelpers := s.toHelpers[..i] + s.toHelpers[i + 1..]);
    if s.toHelpers[i].OpenJob? { OpenNowLeaves(k, s1, s.toHelpers[i].pending.after); }
    hide OpenNow;
  }

  lemma AnswerNearer(k: Kernel, s: State, i: nat, ret: Ret)
    requires i < |s.inflight| && s.inflight[i].ret.None?
    ensures Nearer(s, Do(k, s, KernelAnswers(i, ret))) && Do(k, s, KernelAnswers(i, ret)).nextOp == s.nextOp
  {
    var flight := s.inflight[i].(ret := Some(ret));
    SumUpdate(s.inflight, i, flight, FlightGrows());
    SumUpdate(s.inflight, i, flight, FlightLasts());
    SumUpdate(s.inflight, i, flight, IsOut());
  }

  lemma ReapNearer(k: Kernel, s: State, i: nat)
    requires i < |s.inflight| && s.inflight[i].ret.Some?
    ensures Nearer(s, Do(k, s, Reap(i))) && Do(k, s, Reap(i)).nextOp == s.nextOp
  {
    ReapWork(k, s, i);
    ReapOpens(k, s, i);
    hide ReapAt, LessWork, Growth, Chunks;
    assert SameClients(s, ReapAt(k, s, i));
  }

  lemma SubmitNearer(k: Kernel, s: State)
    requires |SubmitReady(k, s).queue| < |s.queue|
    ensures Nearer(s, Do(k, s, SubmitMore)) && Do(k, s, SubmitMore).nextOp == s.nextOp
  {
    SubmitReadyWork(k, s);
    SubmitReadyOpens(k, s);
    hide SubmitReady, Growth, Chunks;
    assert SameClients(s, SubmitReady(k, s));
  }

  /** A step that changes nothing but the moment. */
  predicate Idle(k: Kernel, s: State, action: Action)
    requires Enabled(s, action)
  {
    var r := Do(k, s, action); r == s.(tick := r.tick)
  }

  /** A step that changes something and is no client's message. */
  predicate Effective(k: Kernel, s: State, action: Action) {
    Enabled(s, action) && !action.ClientSubmits? && !action.ClientCancels? && !Idle(k, s, action)
  }

  /** Whichever step is taken next, and whatever the kernel or the helper
      answers with it, the end is nearer. */
  lemma EveryStepIsNearer(k: Kernel, s: State, action: Action)
    requires Effective(k, s, action)
    ensures Nearer(s, Do(k, s, action)) && Do(k, s, action).nextOp == s.nextOp
  {
    hide Nearer, HandleMsg, HandleOpened, ReapAt, SubmitReady, HelperStep;
    match action
    case TakeMsg => TakeMsgNearer(k, s);
    case TakeOpened => TakeOpenedNearer(k, s);
    case Reap(i) => ReapNearer(k, s, i);
    case SubmitMore =>
      SubmitReadyTakes(k, s);
      SubmitNearer(k, s);
    case HelperDoes(i) => HelperNearer(k, s, i);
    case KernelAnswers(i, ret) => AnswerNearer(k, s, i, ret);
    case ClientsLeave => LeavingNearer(s, s.(clientsGone := true));
    case SeeGone => LeavingNearer(s, s.(disconnected := true));
  }

  lemma LeavingNearer(s: State, r: State)
    requires r == s.(clientsGone := r.clientsGone, disconnected := r.disconnected) && Leaving(r) < Leaving(s)
    ensures Nearer(s, r)
  {}

  /** The leaving of the clients, and its discovery. */
  predicate Departs(action: Action) { action.ClientsLeave? || action.SeeGone? }

  /** Something is waiting for the driver, the kernel or a helper. */
  predicate Busy(s: State) {
    s.rx != [] || s.back != [] || s.toHelpers != [] || s.inflight != [] || s.queue != []
  }

  /** Then one of them can take a step, nearer to the end. */
  lemma SomeWork(k: Kernel, s: State) returns (action: Action)
    requires s.maxInflight >= 1 && Busy(s)
    ensures Enabled(s, action) && !action.ClientSubmits? && !action.ClientCancels? && !Departs(action)
    ensures Nearer(s, Do(k, s, action)) && Do(k, s, action).nextOp == s.nextOp
  {
    hide Nearer, Do;
    if s.rx != [] {
      action := TakeMsg;
      TakeMsgNearer(k, s);
    } else if s.back != [] {
      action := TakeOpened;
      TakeOpenedNearer(k, s);
    } else if s.toHelpers != [] {
      action := HelperDoes(0);
      HelperNearer(k, s, 0);
    } else {
      action := SomeJob(k, s);
    }
  }

  lemma SomeJob(k: Kernel, s: State) returns (action: Action)
    requires (s.inflight != [] || s.queue != []) && s.maxInflight >= 1
    ensures Enabled(s, action) && !action.ClientSubmits? && !action.ClientCancels? && !Departs(action)
    ensures Nearer(s, Do(k, s, action)) && Do(k, s, action).nextOp == s.nextOp
  {
    hide Nearer, Do, SubmitReady;
    if s.inflight == [] {
      action := SubmitMore;
      SubmitReadyTakes(k, s);
      SubmitNearer(k, s);
    } else if s.inflight[0].ret.None? {
      action := KernelAnswers(0, Failed(0));
      AnswerNearer(k, s, 0, Failed(0));
    } else {
      action := Reap(0);
      ReapNearer(k, s, 0);
    }
  }

  /** Short of the end there is always a step nearer to it: one of those, or the
      clients' leaving. */
  lemma SomeStep(k: Kernel, s: State) returns (action: Action)
    requires Good(s) && !Exits(s)
    ensures Enabled(s, action) && !action.ClientSubmits? && !action.ClientCancels?
    ensures Nearer(s, Do(k, s, action)) && Do(k, s, action).nextOp == s.nextOp
  {
    if Busy(s) {
      GoodSlots(s);
      action := SomeWork(k, s);
    } else {
      NoOpensLeft(s);
      hide Good;
      action := if !s.clientsGone then ClientsLeave else SeeGone;
      LeavingNearer(s, Do(k, s, action));
    }
  }

  lemma GoodSlots(s: State)
    requires Good(s)
    ensures s.maxInflight >= 1
  {}

  /** With no open out at a helper and none come back, none is pending. */
  lemma NoOpensLeft(s: State)
    requires Good(s) && s.back == [] && s.toHelpers == []
    ensures s.pendingOpens == {}
  {
    forall x: Id ensures x !in s.pendingOpens { assert Opening(s, x) == 0; }
  }

  /** Nothing is nearer than itself. */
  lemma NotNearerThanItself(s: State, tick: nat)
    ensures !Nearer(s, s.(tick := tick))
  {}

  lemma SomeEffectiveWork(k: Kernel, s: State) returns (action: Action)
    requires Good(s) && Busy(s)
    ensures Effective(k, s, action) && !Departs(action)
  {
    hide Good, Do, Nearer, Busy;
    GoodSlots(s);
    action := SomeWork(k, s);
    NotNearerThanItself(s, Do(k, s, action).tick);
  }

  /** Where the end has not come, some step is effective. */
  lemma SomeEffective(k: Kernel, s: State) returns (action: Action)
    requires Good(s) && (!Exits(s) || Busy(s))
    ensures Effective(k, s, action)
  {
    hide Good, Do, Nearer, Exits, Busy;
    if Busy(s) {
      action := SomeEffectiveWork(k, s);
    } else {
      action := SomeStep(k, s);
      NotNearerThanItself(s, Do(k, s, action).tick);
    }
  }

  /** A state that only the clients' leaving could change is a settled one: nothing
      is waiting anywhere, and the driver works on nothing. */
  lemma StuckMeansDrained(k: Kernel, s: State)
    requires Good(s) && forall action :: Effective(k, s, action) ==> Departs(action)
    ensures Drained(s) && s.back == [] && s.toHelpers == []
  {
    hide Effective, Departs, Good;
    if Busy(s) {
      var action := SomeEffectiveWork(k, s);
    } else {
      NoOpensLeft(s);
    }
  }

  /** A state no step changes any more is the end: the driver returns, the
      clients have gone, and the helpers have done all they were sent. */
  lemma StuckMeansExit(k: Kernel, s: State)
    requires Good(s) && forall action :: !Effective(k, s, action)
    ensures Exits(s) && s.toHelpers == []
  {
    hide Good, Effective, Exits;
    if !Exits(s) || Busy(s) {
      var action := SomeEffective(k, s);
    }
  }

  // ---------------------------------------------------------------------
  // Schedules
  // ---------------------------------------------------------------------

  function Step(k: Kernel, s: State, action: Action): State {
    if Enabled(s, action) then Do(k, s, action) else s
  }

  /** The state after the first `n` steps of a schedule. */
  function StateAt(k: Kernel, s: State, next: nat -> Action, n: nat): State {
    if n == 0 then s else Step(k, StateAt(k, s, next, n - 1), next(n - 1))
  }

  lemma StepReachable(k: Kernel, s: State, action: Action)
    requires Reachable(k, s)
    ensures Reachable(k, Step(k, s, action))
  {
    var maxInflight: nat, actions: seq<Action> :| maxInflight >= 1 && s == Run(k, Init(maxInflight), actions);
    hide Do, Enabled;
    RunAppend(k, Init(maxInflight), actions, [action]);
    assert [action][1..] == [];
    assert Step(k, s, action) == Run(k, Init(maxInflight), actions + [action]);
  }

  /** There is no endless schedule of effective steps. */
  lemma {:induction false} EveryScheduleEnds(k: Kernel, s: State, next: nat -> Action, n: nat, r: State)
    returns (m: nat)
    requires r == StateAt(k, s, next, n) && Reachable(k, r)
    ensures Reachable(k, StateAt(k, s, next, m)) && !Effective(k, StateAt(k, s, next, m), next(m))
    ensures StateAt(k, s, next, m).nextOp == r.nextOp
    decreases |r.rx|, 2 * Opens(r) + |r.back|, Growth(r), Chunks(r), |r.queue|, Unanswered(r), Leaving(r), Closes(r)
  {
    hide Reachable, Do, Growth, Chunks, Unanswered, Opens, Closes, Leaving;
    m := n;
    if Effective(k, r, next(n)) {
      EveryStepIsNearer(k, r, next(n));
      StepReachable(k, r, next(n));
      m := EveryScheduleEnds(k, s, next, n + 1, Do(k, r, next(n)));
    }
  }

  /** A schedule that goes on while there is work: where the driver, the kernel or
      a helper has an effective step, it takes an effective step, with any
      answer. It takes no client's message, and lets the clients stay or leave. */
  ghost predicate GoesOn(k: Kernel, s: State, next: nat -> Action) {
    forall n: nat :: KeepsWorking(k, StateAt(k, s, next, n), next(n))
  }

  ghost predicate KeepsWorking(k: Kernel, s: State, action: Action) {
    (exists other :: Effective(k, s, other) && !Departs(other)) ==> Effective(k, s, action)
  }

  /** Whatever has happened, and whatever the kernel and the helpers answer from
      now on: after finitely many steps of any such schedule every op ever
      submitted has been settled exactly once, nothing is waiting anywhere, and
      the closes sent to the helpers are done; though the clients may stay. */
  lemma EveryOpSettles(k: Kernel, s: State, next: nat -> Action) returns (m: nat)
    requires Reachable(k, s) && GoesOn(k, s, next)
    ensures var r := StateAt(k, s, next, m);
      Drained(r) && r.toHelpers == [] && forall x: Id :: TimesSettled(r, x) == One(1 <= x < s.nextOp)
  {
    m := EveryScheduleEnds(k, s, next, 0, s);
    hide Effective, Departs, Reachable, TimesSettled, Drained;
    var r := StateAt(k, s, next, m);
    assert KeepsWorking(k, r, next(m));
    ReachableGood(k, r);
    StuckMeansDrained(k, r);
    forall x: Id ensures TimesSettled(r, x) == One(1 <= x < s.nextOp) { DrainedSettlesAll(k, r, x); }
  }

  /** One that lets the clients leave as well, when nothing else is left. */
  ghost predicate GoesToTheEnd(k: Kernel, s: State, next: nat -> Action) {
    forall n: nat :: TakesOne(k, StateAt(k, s, next, n), next(n))
  }

  ghost predicate TakesOne(k: Kernel, s: State, action: Action) {
    (exists other :: Effective(k, s, other)) ==> Effective(k, s, action)
  }

  /** Then the driver's loop returns, having settled every op. */
  lemma EveryLoopReturns(k: Kernel, s: State, next: nat -> Action) returns (m: nat)
    requires Reachable(k, s) && GoesToTheEnd(k, s, next)
    ensures var r := StateAt(k, s, next, m);
      Exits(r) && r.toHelpers == [] && forall x: Id :: TimesSettled(r, x) == One(1 <= x < s.nextOp)
  {
    m := EveryScheduleEnds(k, s, next, 0, s);
    hide Effective, Exits, Reachable, TimesSettled;
    var r := StateAt(k, s, next, m);
    assert TakesOne(k, r, next(m));
    ReachableGood(k, r);
    StuckMeansExit(k, r);
    forall x: Id ensures TimesSettled(r, x) == One(1 <= x < s.nextOp) { ExitSettlesAll(k, r, x); }
  }
}
