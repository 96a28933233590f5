/** What no step undoes: a handle that is closing or gone takes no more jobs, each
    handle is told to one client and stays what that client was told, the size a
    read to the end is queued by is one that `fstat` has given, and what befell an
    op has its cause. */
module DriverLasting {
  import opened Basics
  import opened Transfer
  import opened DriverModel
  import opened DriverOwnership

  /** The handle was given out, and is being closed or gone. */
  predicate Shut(s: State, h: Handle) {
    h < s.nextId && (h in s.files ==> s.files[h].closing.Some?)
  }

  /** No job has joined the handle since those of `before` were the accepted ones. */
  predicate NoneJoined(before: map<Id, SoundWork>, now: map<Id, SoundWork>, h: Handle) {
    forall x :: x in now && now[x].handle == Some(h) ==> x in before && before[x] == now[x]
  }

  // ---------------------------------------------------------------------
  // Sizes
  // ---------------------------------------------------------------------

  /** `fstat` gave this answer at an earlier moment. */
  ghost predicate Given(k: Kernel, size: Option<nat>, tick: nat) {
    exists t: nat :: t < tick && k(t).look.size == size
  }

  ghost predicate ResultGiven(k: Kernel, after: AfterOpen, result: OpenResult, tick: nat) {
    result.Opened? && !after.AsWrite? ==> Given(k, Some(result.size), tick)
  }

  ghost predicate SizesGiven(k: Kernel, s: State) {
    && (forall x :: x in s.ledger.sizes ==> Given(k, s.ledger.sizes[x], s.tick))
    && (forall i :: 0 <= i < |s.back| ==> ResultGiven(k, s.back[i].pending.after, s.back[i].result, s.tick))
  }

  // ---------------------------------------------------------------------
  // Handles
  // ---------------------------------------------------------------------

  function Latest(log: seq<Event>): Event
    requires log != []
  {
    log[|log| - 1]
  }

  /** A reply that gives a client a handle. */
  predicate IsHandle(result: Result) { result.Ok? && result.reply.HandleReply? }

  predicate Tells(event: Event) { event.Settled? && IsHandle(event.result) }

  /** What the client was told: a handle that stands for this descriptor until it
      goes, and a size that `fstat` gave. */
  ghost predicate Told(k: Kernel, files: map<Handle, Entry>, nextId: nat, tick: nat, event: Event) {
    Tells(event) ==>
      var reply := event.result.reply;
      && 1 <= reply.handle < nextId && (reply.handle in files ==> files[reply.handle].fd == reply.fd)
      && Given(k, Some(reply.size), tick)
  }

  ghost predicate ToldOf(log: seq<Event>, g: Handle) {
    exists i :: 0 <= i < |log| && Tells(log[i]) && log[i].result.reply.handle == g
  }

  ghost predicate HasGone(log: seq<Event>, g: Handle) {
    exists i :: 0 <= i < |log| && log[i].HandleGone? && log[i].handle == g
  }

  /** Each handle given out was told once, and is in the table until its end. */
  ghost predicate HandlesTold(k: Kernel, s: State) {
    && (forall i :: 0 <= i < |s.log| ==> Told(k, s.files, s.nextId, s.tick, s.log[i]))
    && (forall i, j :: 0 <= i < j < |s.log| && Tells(s.log[i]) && Tells(s.log[j]) ==>
          s.log[i].result.reply.handle != s.log[j].result.reply.handle)
    && (forall g :: 1 <= g < s.nextId ==> ToldOf(s.log, g) && (g in s.files || HasGone(s.log, g)))
  }

  // ---------------------------------------------------------------------
  // Causes
  // ---------------------------------------------------------------------

  /** A plain call failed with this code, or a request was refused with it. */
  ghost predicate CallGave(k: Kernel, code: int, tick: nat) {
    exists t: nat :: t < tick && (k(t).failed == Some(code) || k(t).accept == Refused(code))
  }

  ghost predicate TouchCaused(k: Kernel, causes: set<Touch>, tick: nat, touch: Touch) {
    match touch
    case Issued(_) => true
    case Refusal(_, code) => CallGave(k, code, tick)
    case _ => touch in causes
  }

  ghost predicate Caused(k: Kernel, causes: set<Touch>, s: State) {
    && (forall i :: 0 <= i < |s.trace| ==> TouchCaused(k, causes, s.tick, s.trace[i]))
    && (forall i :: 0 <= i < |s.rx| && s.rx[i].Cancel? ==> Doomed(s.rx[i].id) in causes)
  }

  /** What an action of a client or the kernel may do to an op. */
  function Causes(s: State, action: Action): set<Touch>
    requires Enabled(s, action)
  {
    match action
    case ClientCancels(id) => {Doomed(id)}
    case KernelAnswers(i, ret) => if ret.Failed? then {Failure(s.inflight[i].job.id, ret.code)} else {}
    case _ => {}
  }

  /** The cancels that the clients have sent in a run, and the requests that the
      kernel has completed with an error. */
  function CausesOf(k: Kernel, s: State, actions: seq<Action>): set<Touch>
    decreases |actions|
  {
    if actions == [] then {}
    else if Enabled(s, actions[0]) then
      Causes(s, actions[0]) + CausesOf(k, Do(k, s, actions[0]), actions[1..])
    else CausesOf(k, s, actions[1..])
  }

  // ---------------------------------------------------------------------
  // All of it
  // ---------------------------------------------------------------------

  /** A moment of a run, and what may befall ops up to its end: the jobs accepted
      by then, and a handle that was shut. */
  datatype Since = Since(accepted: map<Id, SoundWork>, shut: Handle, causes: set<Touch>)

  ghost predicate Lasting(k: Kernel, since: Since, s: State) {
    && SizesGiven(k, s) && HandlesTold(k, s) && Caused(k, since.causes, s)
    && Shut(s, since.shut) && NoneJoined(since.accepted, s.ledger.accepted, since.shut)
  }

  /** Nothing has been told or ended, nothing but chunks started, and nothing
      come in, that was not there; a handle still stands for its descriptor. */
  predicate Steady(s: State, r: State) {
    && r.nextId == s.nextId && r.tick >= s.tick && r.files.Keys == s.files.Keys
    && (forall g :: g in r.files ==> r.files[g].fd == s.files[g].fd)
    && s.log <= r.log && (forall i :: |s.log| <= i < |r.log| ==> !Tells(r.log[i]) && !r.log[i].HandleGone?)
    && s.trace <= r.trace && (forall i :: |s.trace| <= i < |r.trace| ==> r.trace[i].Issued?)
    && (forall i :: 0 <= i < |r.rx| && r.rx[i].Cancel? ==> r.rx[i] in s.rx)
  }

  /** And nothing else of all this has changed. */
  predicate Quiet(s: State, r: State) {
    && Steady(s, r) && r.files == s.files && r.back == s.back
    && r.ledger.accepted == s.ledger.accepted && r.ledger.sizes == s.ledger.sizes
  }

  lemma GivenLater(k: Kernel, size: Option<nat>, tick: nat, later: nat)
    requires Given(k, size, tick) && tick <= later
    ensures Given(k, size, later)
  {}

  lemma SizesLater(k: Kernel, s: State, r: State)
    requires SizesGiven(k, s) && r.tick >= s.tick && r.back == s.back && r.ledger.sizes == s.ledger.sizes
    ensures SizesGiven(k, r)
  {
    hide Given;
    forall x | x in r.ledger.sizes ensures Given(k, r.ledger.sizes[x], r.tick) {
      GivenLater(k, s.ledger.sizes[x], s.tick, r.tick);
    }
    forall i | 0 <= i < |r.back| ensures ResultGiven(k, r.back[i].pending.after, r.back[i].result, r.tick) {
      assert ResultGiven(k, s.back[i].pending.after, s.back[i].result, s.tick);
      if r.back[i].result.Opened? && !r.back[i].pending.after.AsWrite? {
        GivenLater(k, Some(s.back[i].result.size), s.tick, r.tick);
      }
    }
  }

  lemma ToldLater(k: Kernel, s: State, r: State, event: Event)
    requires Told(k, s.files, s.nextId, s.tick, event) && r.nextId >= s.nextId && r.tick >= s.tick
    requires forall g :: g in r.files && g < s.nextId ==> g in s.files && r.files[g].fd == s.files[g].fd
    ensures Told(k, r.files, r.nextId, r.tick, event)
  {
    hide Given;
    if Tells(event) { GivenLater(k, Some(event.result.reply.size), s.tick, r.tick); }
  }

  lemma LogGrows(log: seq<Event>, more: seq<Event>, g: Handle)
    requires log <= more
    ensures ToldOf(log, g) ==> ToldOf(more, g)
    ensures HasGone(log, g) ==> HasGone(more, g)
  {
    if ToldOf(log, g) {
      var i :| 0 <= i < |log| && Tells(log[i]) && log[i].result.reply.handle == g;
      assert more[i] == log[i];
    }
    if HasGone(log, g) {
      var i :| 0 <= i < |log| && log[i].HandleGone? && log[i].handle == g;
      assert more[i] == log[i];
    }
  }

  lemma ToldSteady(k: Kernel, s: State, r: State)
    requires HandlesTold(k, s) && Steady(s, r)
    ensures HandlesTold(k, r)
  {
    hide Told, ToldOf, HasGone;
    forall i | 0 <= i < |r.log| ensures Told(k, r.files, r.nextId, r.tick, r.log[i]) {
      if i < |s.log| { ToldLater(k, s, r, s.log[i]); } else { NotTold(k, r, r.log[i]); }
    }
    forall i, j | 0 <= i < j < |r.log| && Tells(r.log[i]) && Tells(r.log[j])
      ensures r.log[i].result.reply.handle != r.log[j].result.reply.handle
    {
      assert r.log[i] == s.log[i] && r.log[j] == s.log[j];
    }
    forall g | 1 <= g < r.nextId ensures ToldOf(r.log, g) && (g in r.files || HasGone(r.log, g)) {
      LogGrows(s.log, r.log, g);
    }
  }

  lemma NotTold(k: Kernel, s: State, event: Event)
    requires !Tells(event)
    ensures Told(k, s.files, s.nextId, s.tick, event)
  {}

  lemma CausedLater(k: Kernel, causes: set<Touch>, tick: nat, later: nat, touch: Touch)
    requires TouchCaused(k, causes, tick, touch) && tick <= later
    ensures TouchCaused(k, causes, later, touch)
  {}

  lemma CausedSteady(k: Kernel, causes: set<Touch>, s: State, r: State)
    requires Caused(k, causes, s) && Steady(s, r)
    ensures Caused(k, causes, r)
  {
    hide CallGave;
    forall i | 0 <= i < |r.trace| ensures TouchCaused(k, causes, r.tick, r.trace[i]) {
      if i < |s.trace| { CausedLater(k, causes, s.tick, r.tick, s.trace[i]); }
    }
  }

  lemma SteadyLasts(k: Kernel, since: Since, s: State, r: State)
    requires Lasting(k, since, s) && Steady(s, r)
    requires r.back == s.back && r.ledger.sizes == s.ledger.sizes
    requires Shut(r, since.shut) && NoneJoined(since.accepted, r.ledger.accepted, since.shut)
    ensures Lasting(k, since, r)
  {
    hide Given, SizesGiven, HandlesTold, Caused, NoneJoined;
    SizesLater(k, s, r);
    ToldSteady(k, s, r);
    CausedSteady(k, since.causes, s, r);
  }

  lemma QuietLasts(k: Kernel, since: Since, s: State, r: State)
    requires Lasting(k, since, s) && Quiet(s, r)
    ensures Lasting(k, since, r)
  {
    hide SizesGiven, HandlesTold, Caused, NoneJoined;
    SteadyLasts(k, since, s, r);
  }

  /** Something befalls an op, and has its cause. */
  lemma TouchLasts(k: Kernel, since: Since, s: State, touch: Touch)
    requires Lasting(k, since, s) && TouchCaused(k, since.causes, s.tick, touch)
    ensures Lasting(k, since, Touched(s, touch))
  {
    hide TouchCaused, Told, Given, NoneJoined, ToldOf, HasGone, Tells;
  }

  // ---------------------------------------------------------------------
  // Settling and submitting
  // ---------------------------------------------------------------------

  lemma CloseRawIsQuiet(k: Kernel, s: State, fd: Fd)
    ensures Quiet(s, CloseRaw(k, s, fd))
  {}

  lemma CloseOwnedIsQuiet(k: Kernel, s: State, fd: Fd)
    ensures Quiet(s, CloseOwned(k, s, fd))
  {
    CloseRawIsQuiet(k, Ticked(s), fd);
    hide CloseRaw;
  }

  /** A handle has gone, which the last event says. */
  lemma GoneTold(k: Kernel, s: State, r: State, g: Handle)
    requires HandlesTold(k, s) && r.nextId == s.nextId && r.tick >= s.tick && r.files == s.files - {g}
    requires s.log < r.log && Latest(r.log).HandleGone? && Latest(r.log).handle == g
    requires forall i :: |s.log| <= i < |r.log| ==> !Tells(r.log[i])
    ensures HandlesTold(k, r)
  {
    hide Told, ToldOf;
    forall i | 0 <= i < |r.log| ensures Told(k, r.files, r.nextId, r.tick, r.log[i]) {
      if i < |s.log| { ToldLater(k, s, r, s.log[i]); } else { NotTold(k, r, r.log[i]); }
    }
    forall i, j | 0 <= i < j < |r.log| && Tells(r.log[i]) && Tells(r.log[j])
      ensures r.log[i].result.reply.handle != r.log[j].result.reply.handle
    {
      assert r.log[i] == s.log[i] && r.log[j] == s.log[j];
    }
    assert HasGone(r.log, g);
    hide HasGone;
    forall h | 1 <= h < r.nextId ensures ToldOf(r.log, h) && (h in r.files || HasGone(r.log, h)) {
      LogGrows(s.log, r.log, h);
    }
  }

  lemma CloseHandleLasts(k: Kernel, since: Since, s: State, g: Handle, fd: Fd, id: Id)
    requires Lasting(k, since, s)
    ensures Lasting(k, since, CloseHandle(k, s, g, fd, id))
  {
    hide SizesGiven, HandlesTold, Caused, NoneJoined;
    var r := CloseHandle(k, s, g, fd, id);
    SizesLater(k, s, r);
    GoneTold(k, s, r, g);
    assert Caused(k, since.causes, r) by { CausedAlike(k, since.causes, s, r); }
  }

  lemma CausedAlike(k: Kernel, causes: set<Touch>, s: State, r: State)
    requires Caused(k, causes, s) && r.tick >= s.tick && r.trace == s.trace && r.rx == s.rx
    ensures Caused(k, causes, r)
  {
    hide TouchCaused;
    forall i | 0 <= i < |r.trace| ensures TouchCaused(k, causes, r.tick, r.trace[i]) {
      CausedLater(k, causes, s.tick, r.tick, s.trace[i]);
    }
  }

  lemma ReleaseLasts(k: Kernel, since: Since, s: State, g: Handle)
    requires Lasting(k, since, s) && g in s.files
    ensures Lasting(k, since, Release(k, s, g))
  {
    hide SizesGiven, HandlesTold, Caused, NoneJoined, CloseHandle;
    var entry := s.files[g].(ops := s.files[g].ops - 1);
    if entry.ops > 0 || entry.closing.None? {
      SteadyLasts(k, since, s, s.(files := s.files[g := entry]));
    } else {
      CloseHandleLasts(k, since, s, g, entry.fd, entry.closing.value);
    }
  }

  lemma FinishLasts(k: Kernel, since: Since, s: State, job: Job, result: Result)
    requires Lasting(k, since, s) && !IsHandle(result)
    ensures Lasting(k, since, Finish(k, s, job, result))
  {
    CloseOwnedIsQuiet(k, s, job.work.fd);
    hide Lasting, CloseOwned, Release;
    var s1 := if job.work.owned then CloseOwned(k, s, job.work.fd) else s;
    var s2 := Emit(s1, Settled(job.id, result));
    QuietLasts(k, since, s, s2);
    if job.work.handle.Some? && job.work.handle.value in s2.files {
      ReleaseLasts(k, since, s2, job.work.handle.value);
    }
  }

  lemma {:induction false} ExecuteSyncLasts(k: Kernel, since: Since, s: State, job: Job)
    requires Lasting(k, since, s)
    ensures Lasting(k, since, ExecuteSync(k, s, job))
    decreases Growable(job.work), Remaining(job.work)
  {
    hide Lasting, Finish;
    var a := k(s.tick);
    var s1 := Ticked(Touched(s, Issued(job.id)));
    QuietLasts(k, since, s, s1);
    if a.failed.Some? {
      TouchLasts(k, since, s1, Refusal(job.id, a.failed.value));
      FinishLasts(k, since, Touched(s1, Refusal(job.id, a.failed.value)), job, Err(Os(a.failed.value)));
    } else {
      var m := Clamp(job.work, a.moved);
      var s2 := Recorded(s1, job.id, Chunk(m, a.look));
      QuietLasts(k, since, s1, s2);
      match After(job.work, m, a.look)
      case Done(result) => FinishLasts(k, since, s2, job, result);
      case More(work) =>
        Progress(job.work, m, a.look);
        ExecuteSyncLasts(k, since, s2, job.(work := work));
    }
  }

  lemma SubmitJobLasts(k: Kernel, since: Since, s: State, job: Job)
    requires Lasting(k, since, s) && !IsFull(k, s)
    ensures Lasting(k, since, SubmitJob(k, s, job))
  {
    hide Lasting, Finish, ExecuteSync;
    var s1 := WithFirst(Ticked(s), job.id);
    QuietLasts(k, since, s, s1);
    match k(s.tick).accept
    case Taken => QuietLasts(k, since, s1, SubmitJob(k, s, job));
    case Again => ExecuteSyncLasts(k, since, s1, job);
    case Refused(code) =>
      TouchLasts(k, since, s1, Refusal(job.id, code));
      FinishLasts(k, since, Touched(s1, Refusal(job.id, code)), job, Err(Os(code)));
  }

  lemma {:induction false} SubmitReadyLasts(k: Kernel, since: Since, s: State)
    requires Lasting(k, since, s)
    ensures Lasting(k, since, SubmitReady(k, s))
    decreases |s.queue|
  {
    hide Lasting, SubmitJob;
    if |s.inflight| >= s.maxInflight || s.queue == [] {
    } else if IsFull(k, s) {
      QuietLasts(k, since, s, Ticked(s));
    } else {
      var s1 := s.(queue := s.queue[1..]);
      QuietLasts(k, since, s, s1);
      SubmitJobLasts(k, since, s1, s.queue[0]);
      SubmitReadyLasts(k, since, SubmitJob(k, s1, s.queue[0]));
    }
  }

  lemma AcceptLasts(k: Kernel, since: Since, s: State, job: Job)
    requires Lasting(k, since, s) && job.work.handle != Some(since.shut)
    ensures Lasting(k, since, Accepted(s, job))
  {
    hide SizesGiven, HandlesTold, Caused;
    SteadyLasts(k, since, s, Accepted(s, job));
  }

  lemma EnqueueLasts(k: Kernel, since: Since, s: State, id: Id, work: SoundWork)
    requires Lasting(k, since, s) && work.handle != Some(since.shut)
    ensures Lasting(k, since, Enqueue(k, s, id, work))
  {
    hide Lasting, Accepted, SubmitReady;
    var job := Job(id, false, work);
    AcceptLasts(k, since, s, job);
    QuietLasts(k, since, Accepted(s, job), Pushed(Accepted(s, job), job, false));
    SubmitReadyLasts(k, since, Pushed(Accepted(s, job), job, false));
  }

  lemma SizedLasts(k: Kernel, since: Since, s: State, id: Id, size: Option<nat>)
    requires Lasting(k, since, s) && Given(k, size, s.tick)
    ensures Lasting(k, since, Sized(s, id, size))
  {
    hide Given, Told, ToldOf, HasGone, TouchCaused, NoneJoined;
  }

  lemma EnqueueRestLasts(k: Kernel, since: Since, s: State, id: Id,
                         handle: Option<Handle>, fd: Fd, pos: nat, size: Option<nat>)
    requires Lasting(k, since, s) && Given(k, size, s.tick) && handle != Some(since.shut)
    ensures Lasting(k, since, EnqueueRest(k, s, id, handle, fd, pos, size))
  {
    hide Lasting, Given, Enqueue;
    SizedLasts(k, since, s, id, size);
    EnqueueLasts(k, since, Sized(s, id, size), id, ReadToEnd(handle, fd, handle.None?, pos, SizeOr(size)));
  }

  // ---------------------------------------------------------------------
  // Opens
  // ---------------------------------------------------------------------

  /** A new handle is told to a client. */
  lemma RegisterTold(k: Kernel, s: State, fd: Fd, size: nat, id: Id)
    requires HandlesTold(k, s) && Given(k, Some(size), s.tick) && s.nextId >= 1
    ensures HandlesTold(k, Register(s, fd, size, id))
  {
    var r := Register(s, fd, size, id);
    assert Told(k, r.files, r.nextId, r.tick, Latest(r.log));
    forall i | 0 <= i < |s.log| ensures Tells(s.log[i]) ==> s.log[i].result.reply.handle < s.nextId {
      assert Told(k, s.files, s.nextId, s.tick, s.log[i]);
    }
    hide Told, Given;
    forall i | 0 <= i < |s.log| ensures Told(k, r.files, r.nextId, r.tick, r.log[i]) { ToldLater(k, s, r, s.log[i]); }
    assert ToldOf(r.log, s.nextId);
    hide ToldOf, HasGone;
    forall g | 1 <= g < r.nextId ensures ToldOf(r.log, g) && (g in r.files || HasGone(r.log, g)) {
      LogGrows(s.log, r.log, g);
    }
  }

  lemma RegisterLasts(k: Kernel, since: Since, s: State, fd: Fd, size: nat, id: Id)
    requires Lasting(k, since, s) && Given(k, Some(size), s.tick)
    ensures Lasting(k, since, Register(s, fd, size, id))
  {
    SizesLater(k, s, Register(s, fd, size, id));
    hide SizesGiven, HandlesTold, NoneJoined;
    RegisterTold(k, s, fd, size, id);
    CausedAlike(k, since.causes, s, Register(s, fd, size, id));
    hide Caused;
  }

  lemma OpenNowIsQuiet(k: Kernel, s: State, after: AfterOpen)
    ensures Quiet(s, OpenNow(k, s, after).0)
    ensures ResultGiven(k, after, OpenNow(k, s, after).1, OpenNow(k, s, after).0.tick)
  {
    var a := k(s.tick);
    if a.openResult.Opened? {
      CloseRawIsQuiet(k, Ticked(s).(open := s.open + {a.openResult.fd}), a.openResult.fd);
    }
    hide CloseRaw;
  }

  lemma AfterOpenedLasts(k: Kernel, since: Since, s: State, pending: Pending, result: OpenResult)
    requires Lasting(k, since, s) && ResultGiven(k, pending.after, result, s.tick)
    ensures Lasting(k, since, AfterOpened(k, s, pending, result))
  {
    hide Lasting, Given, Enqueue, EnqueueRest, Register;
    var id := pending.id;
    match result
    case NotOpened(code) => QuietLasts(k, since, s, Emit(s, Settled(id, Err(Os(code)))));
    case Opened(fd, size) =>
      match pending.after
      case AsHandle => RegisterLasts(k, since, s, fd, size, id);
      case AsRead(inlineMax) =>
        RegisterLasts(k, since, s, fd, size, id);
        EnqueueRestLasts(k, since, s, id, None, fd, 0, Some(size));
      case AsWrite(data) => EnqueueLasts(k, since, s, id, Write(None, fd, true, 0, false, data, 0));
  }

  lemma OpenThenLasts(k: Kernel, since: Since, s: State, pending: Pending)
    requires Lasting(k, since, s)
    ensures Lasting(k, since, OpenThen(k, s, pending))
  {
    hide Lasting, ResultGiven, OpenNow, AfterOpened;
    QuietLasts(k, since, s, Ticked(s));
    if HasBacklog(k, s) {
      QuietLasts(k, since, s, OpenThen(k, s, pending));
    } else {
      OpenNowIsQuiet(k, Ticked(s), pending.after);
      var (s1, result) := OpenNow(k, Ticked(s), pending.after);
      QuietLasts(k, since, Ticked(s), s1);
      AfterOpenedLasts(k, since, s1, pending, result);
    }
  }

  lemma HandleOpenedLasts(k: Kernel, since: Since, s: State, answer: Back)
    requires Lasting(k, since, s) && ResultGiven(k, answer.pending.after, answer.result, s.tick)
    ensures Lasting(k, since, HandleOpened(k, s, answer))
  {
    hide Lasting, ResultGiven, AfterOpened, CloseRaw;
    var id := answer.pending.id;
    var s1 := s.(pendingOpens := s.pendingOpens - {id});
    QuietLasts(k, since, s, s1);
    if id in s.cancelledOpens {
      var s2 := s1.(cancelledOpens := s.cancelledOpens - {id});
      if answer.result.Opened? { CloseRawIsQuiet(k, s2, answer.result.fd); }
      QuietLasts(k, since, s, HandleOpened(k, s, answer));
    } else {
      AfterOpenedLasts(k, since, s1, answer.pending, answer.result);
    }
  }

  // ---------------------------------------------------------------------
  // Messages
  // ---------------------------------------------------------------------

  lemma HandleCloseLasts(k: Kernel, since: Since, s: State, g: Handle, id: Id)
    requires Lasting(k, since, s)
    ensures Lasting(k, since, HandleClose(k, s, g, id))
  {
    hide SizesGiven, HandlesTold, Caused, NoneJoined, CloseHandle;
    if g !in s.files || s.files[g].closing.Some? {
      QuietLasts(k, since, s, Emit(s, Settled(id, Err(BadHandle))));
    } else if s.files[g].ops > 0 {
      SteadyLasts(k, since, s, HandleClose(k, s, g, id));
    } else {
      CloseHandleLasts(k, since, s, g, s.files[g].fd, id);
    }
  }

  lemma SettleLasts(k: Kernel, since: Since, s: State, id: Id, result: Result)
    requires Lasting(k, since, s) && !IsHandle(result)
    ensures Lasting(k, since, Settle(s, id, result)) && Lasting(k, since, Settle(Ticked(s), id, result))
  {
    hide Lasting;
    QuietLasts(k, since, s, Settle(s, id, result));
    QuietLasts(k, since, s, Settle(Ticked(s), id, result));
  }

  lemma HandleFileOpLasts(k: Kernel, since: Since, s: State, id: Id, op: Op, fd: Fd)
    requires op.ReadAt? || op.ReadRest? || op.WriteAt? || op.Sync? || op.SetLen? || op.Size?
    requires Lasting(k, since, s) && op.handle != since.shut
    ensures Lasting(k, since, HandleFileOp(k, s, id, op, fd))
  {
    hide Lasting, Enqueue, EnqueueRest, Settle;
    var a := k(s.tick);
    match op
    case Size(_) => SettleLasts(k, since, s, id, StatReply(k, s));
    case SetLen(_) =>
      SettleLasts(k, since, s, id, if a.truncateError.Some? then Err(Os(a.truncateError.value)) else Ok(UnitReply));
    case Sync(g) => EnqueueLasts(k, since, s, id, Fsync(Some(g), fd, false));
    case ReadAt(g, pos, len, external) =>
      SettleLasts(k, since, s, id, Ok(if external then ReadReply(0) else BytesReply([])));
      EnqueueLasts(k, since, s, id, SizedRead(g, fd, pos, len, external));
    case ReadRest(g, pos) =>
      QuietLasts(k, since, s, Ticked(s));
      EnqueueRestLasts(k, since, Ticked(s), id, Some(g), fd, pos, a.look.size);
    case WriteAt(g, pos, data, append) =>
      if data != [] {
        EnqueueLasts(k, since, s, id, Write(Some(g), fd, false, pos, append, data, 0));
      } else {
        var stat := StatReply(k, s);
        SettleLasts(k, since, s, id, if !append then Ok(WrittenReply(0, pos))
                                      else if stat.Ok? then Ok(WrittenReply(0, stat.reply.size)) else stat);
      }
  }

  lemma HandleOpLasts(k: Kernel, since: Since, s: State, id: Id, op: Op)
    requires Lasting(k, since, s)
    ensures Lasting(k, since, HandleOp(k, s, id, op))
  {
    hide SizesGiven, HandlesTold, Caused, NoneJoined, OpenThen, HandleClose, HandleFileOp, Settle;
    match op
    case Nop => SettleLasts(k, since, s, id, Ok(UnitReply));
    case Open => OpenThenLasts(k, since, s, Pending(id, AsHandle));
    case ReadFile(inlineMax) => OpenThenLasts(k, since, s, Pending(id, AsRead(inlineMax)));
    case WriteFile(data) => OpenThenLasts(k, since, s, Pending(id, AsWrite(data)));
    case Close(g) => HandleCloseLasts(k, since, s, g, id);
    case _ =>
      if WithFd(s, op.handle).None? {
        SettleLasts(k, since, s, id, Err(BadHandle));
      } else {
        HandleFileOpLasts(k, since, s, id, op, WithFd(s, op.handle).value);
      }
  }

  lemma HandleCancelLasts(k: Kernel, since: Since, s: State, id: Id)
    requires Lasting(k, since, s) && Doomed(id) in since.causes
    ensures Lasting(k, since, HandleCancel(k, s, id))
  {
    hide Lasting, Finish;
    TouchLasts(k, since, s, Doomed(id));
    var i := Place(s.queue, id);
    if i < |s.queue| {
      QuietLasts(k, since, Touched(s, Doomed(id)), Dropped(s, i));
      FinishLasts(k, since, Dropped(s, i), s.queue[i], Err(Cancelled));
    } else if FlightPlace(s.inflight, id) < |s.inflight| || id in s.pendingOpens {
      QuietLasts(k, since, Touched(s, Doomed(id)), HandleCancel(k, s, id));
    }
  }

  // ---------------------------------------------------------------------
  // Completions, the other threads, runs
  // ---------------------------------------------------------------------

  lemma AdvanceLasts(k: Kernel, since: Since, s: State, job: Job, moved: Moved)
    requires Lasting(k, since, s)
    ensures Lasting(k, since, Advance(k, s, job, moved))
  {
    hide Lasting, Finish, SubmitReady;
    var a := k(s.tick);
    var m := Clamp(job.work, moved);
    var s1 := Recorded(Ticked(s), job.id, Chunk(m, a.look));
    QuietLasts(k, since, s, s1);
    match After(job.work, m, a.look)
    case Done(result) => FinishLasts(k, since, s1, job, result);
    case More(work) =>
      FinishLasts(k, since, s1, job.(work := work), Err(Cancelled));
      QuietLasts(k, since, s1, Pushed(s1, job.(work := work), true));
      SubmitReadyLasts(k, since, Pushed(s1, job.(work := work), true));
  }

  lemma ReapAtLasts(k: Kernel, since: Since, s: State, i: nat)
    requires Lasting(k, since, s) && i < |s.inflight| && s.inflight[i].ret.Some?
    ensures Lasting(k, since, ReapAt(k, s, i))
  {
    hide Lasting, Finish, Advance;
    var s1 := s.(inflight := SwapRemove(s.inflight, i));
    QuietLasts(k, since, s, s1);
    match s.inflight[i].ret.value
    case Returned(moved) => AdvanceLasts(k, since, s1, s.inflight[i].job, moved);
    case Failed(code) => FinishLasts(k, since, s1, s.inflight[i].job, Err(Os(code)));
  }

  lemma BackLasts(k: Kernel, since: Since, s: State, back: Back)
    requires Lasting(k, since, s) && ResultGiven(k, back.pending.after, back.result, s.tick)
    ensures Lasting(k, since, s.(back := s.back + [back]))
  {
    hide Given, ResultGiven, Told, ToldOf, HasGone, TouchCaused, NoneJoined;
  }

  lemma HelperStepLasts(k: Kernel, since: Since, s: State, i: nat)
    requires Lasting(k, since, s) && i < |s.toHelpers|
    ensures Lasting(k, since, HelperStep(k, s, i))
  {
    hide Lasting, ResultGiven, OpenNow, CloseRaw;
    var s1 := s.(toHelpers := s.toHelpers[..i] + s.toHelpers[i + 1..]);
    QuietLasts(k, since, s, s1);
    match s.toHelpers[i]
    case CloseJob(fd) =>
      CloseRawIsQuiet(k, s1, fd);
      QuietLasts(k, since, s1, CloseRaw(k, s1, fd));
    case OpenJob(pending) =>
      OpenNowIsQuiet(k, s1, pending.after);
      var (s2, result) := OpenNow(k, s1, pending.after);
      QuietLasts(k, since, s1, s2);
      BackLasts(k, since, s2, Back(pending, result));
  }

  lemma TakeMsgLasts(k: Kernel, since: Since, s: State)
    requires Lasting(k, since, s) && s.rx != []
    ensures Lasting(k, since, HandleMsg(k, s.(rx := s.rx[1..]), s.rx[0]))
  {
    assert s.rx[0].Cancel? ==> Doomed(s.rx[0].id) in since.causes;
    hide Lasting, HandleOp, HandleCancel;
    var s1 := s.(rx := s.rx[1..]);
    QuietLasts(k, since, s, s1);
    match s.rx[0]
    case Submit(id, op) => HandleOpLasts(k, since, s1, id, op);
    case Cancel(id) => HandleCancelLasts(k, since, s1, id);
  }

  lemma TakeOpenedLasts(k: Kernel, since: Since, s: State)
    requires Lasting(k, since, s) && s.back != []
    ensures Lasting(k, since, HandleOpened(k, s.(back := s.back[1..]), s.back[0]))
  {
    hide Given, ResultGiven, Told, ToldOf, HasGone, TouchCaused, NoneJoined, HandleOpened;
    HandleOpenedLasts(k, since, s.(back := s.back[1..]), s.back[0]);
  }

  lemma CompletedLasts(k: Kernel, since: Since, s: State, i: nat, ret: Ret)
    requires Lasting(k, since, s) && i < |s.inflight|
    requires ret.Failed? ==> Failure(s.inflight[i].job.id, ret.code) in since.causes
    ensures Lasting(k, since, Completed(s, i, ret))
  {
    hide Lasting;
    var s1 := s.(inflight := s.inflight[i := s.inflight[i].(ret := Some(ret))]);
    QuietLasts(k, since, s, s1);
    if ret.Failed? { TouchLasts(k, since, s1, Failure(s.inflight[i].job.id, ret.code)); }
  }

  lemma CancelsLasts(k: Kernel, since: Since, s: State, id: Id)
    requires Lasting(k, since, s) && Doomed(id) in since.causes
    ensures Lasting(k, since, s.(rx := s.rx + [Cancel(id)]))
  {
    hide Given, ResultGiven, Told, ToldOf, HasGone, TouchCaused, NoneJoined;
  }

  lemma SubmitsLasts(k: Kernel, since: Since, s: State, op: Op)
    requires Lasting(k, since, s)
    ensures Lasting(k, since, Submitted(s, op))
  {
    hide Given, ResultGiven, Told, ToldOf, HasGone, TouchCaused, NoneJoined;
  }

  lemma DoLasts(k: Kernel, since: Since, s: State, action: Action)
    requires Enabled(s, action) && Lasting(k, since, s) && Causes(s, action) <= since.causes
    ensures Lasting(k, since, Do(k, s, action))
  {
    hide Lasting, HandleMsg, HandleOpened, ReapAt, SubmitReady, HelperStep, Completed;
    match action
    case TakeMsg => TakeMsgLasts(k, since, s);
    case TakeOpened => TakeOpenedLasts(k, since, s);
    case Reap(i) => ReapAtLasts(k, since, s, i);
    case SubmitMore => SubmitReadyLasts(k, since, s);
    case HelperDoes(i) => HelperStepLasts(k, since, s, i);
    case ClientSubmits(op) => SubmitsLasts(k, since, s, op);
    case ClientCancels(id) => CancelsLasts(k, since, s, id);
    case KernelAnswers(i, ret) => CompletedLasts(k, since, s, i, ret);
    case _ => QuietLasts(k, since, s, Do(k, s, action));
  }

  lemma {:induction false} RunLasts(k: Kernel, since: Since, s: State, actions: seq<Action>)
    requires Lasting(k, since, s) && CausesOf(k, s, actions) <= since.causes
    ensures Lasting(k, since, Run(k, s, actions))
    decreases |actions|
  {
    hide Lasting, Do, Causes;
    if actions != [] {
      if Enabled(s, actions[0]) { DoLasts(k, since, s, actions[0]); }
      RunLasts(k, since, if Enabled(s, actions[0]) then Do(k, s, actions[0]) else s, actions[1..]);
    }
  }

  // ---------------------------------------------------------------------
  // What ending and submitting jobs leaves alone
  // ---------------------------------------------------------------------

  /** No handle was given out and no job accepted, and no history is undone. */
  ghost predicate Onward(s: State, r: State) {
    && r.tick >= s.tick && r.nextId == s.nextId && s.log <= r.log && s.trace <= r.trace && r.arrivals == s.arrivals
    && r.ledger == s.ledger.(chunks := r.ledger.chunks) && MoreChunks(s.ledger.chunks, r.ledger.chunks)
  }

  ghost predicate MoreChunks(before: map<Id, seq<Chunk>>, now: map<Id, seq<Chunk>>) {
    forall x: Id :: ChunksOf(before, x) <= ChunksOf(now, x)
  }

  lemma FinishOnward(k: Kernel, s: State, job: Job, result: Result)
    ensures Onward(s, Finish(k, s, job, result))
  {
    CloseOwnedOnward(k, s, job.work.fd);
    var s1 := if job.work.owned then CloseOwned(k, s, job.work.fd) else s;
    var s2 := Emit(s1, Settled(job.id, result));
    hide CloseOwned, Release;
    if job.work.handle.Some? && job.work.handle.value in s2.files { ReleaseOnward(k, s2, job.work.handle.value); }
  }

  lemma CloseOwnedOnward(k: Kernel, s: State, fd: Fd)
    ensures Onward(s, CloseOwned(k, s, fd))
  {}

  lemma ReleaseOnward(k: Kernel, s: State, h: Handle)
    requires h in s.files
    ensures Onward(s, Release(k, s, h))
  {}

  lemma {:induction false} ExecuteSyncOnward(k: Kernel, s: State, job: Job)
    ensures Onward(s, ExecuteSync(k, s, job))
    decreases Growable(job.work), Remaining(job.work)
  {
    hide Finish;
    var a := k(s.tick);
    var s1 := Ticked(Touched(s, Issued(job.id)));
    if a.failed.Some? {
      FinishOnward(k, Touched(s1, Refusal(job.id, a.failed.value)), job, Err(Os(a.failed.value)));
    } else {
      var m := Clamp(job.work, a.moved);
      var s2 := Recorded(s1, job.id, Chunk(m, a.look));
      assert MoreChunks(s1.ledger.chunks, s2.ledger.chunks);
      match After(job.work, m, a.look)
      case Done(result) => FinishOnward(k, s2, job, result);
      case More(work) =>
        Progress(job.work, m, a.look);
        ExecuteSyncOnward(k, s2, job.(work := work));
    }
  }

  lemma SubmitJobOnward(k: Kernel, s: State, job: Job)
    requires !IsFull(k, s)
    ensures Onward(s, SubmitJob(k, s, job))
  {
    hide Finish, ExecuteSync;
    var s1 := WithFirst(Ticked(s), job.id);
    match k(s.tick).accept
    case Taken =>
    case Again => ExecuteSyncOnward(k, s1, job);
    case Refused(code) => FinishOnward(k, Touched(s1, Refusal(job.id, code)), job, Err(Os(code)));
  }

  lemma {:induction false} SubmitReadyOnward(k: Kernel, s: State)
    ensures Onward(s, SubmitReady(k, s))
    decreases |s.queue|
  {
    hide SubmitJob;
    if !(|s.inflight| >= s.maxInflight || s.queue == [] || IsFull(k, s)) {
      var s1 := s.(queue := s.queue[1..]);
      SubmitJobOnward(k, s1, s.queue[0]);
      SubmitReadyOnward(k, SubmitJob(k, s1, s.queue[0]));
    }
  }

  // ---------------------------------------------------------------------
  // Ops on a handle that is shut
  // ---------------------------------------------------------------------

  /** The op is on the handle: a transfer, a look at it, or its close. */
  predicate IsOn(op: Op, h: Handle) {
    (op.ReadAt? || op.ReadRest? || op.WriteAt? || op.Sync? || op.SetLen? || op.Size? || op.Close?) && op.handle == h
  }

  /** Taking an op on it refuses the op, and does nothing else. */
  lemma ShutRefuses(k: Kernel, s: State, h: Handle)
    requires Shut(s, h) && s.rx != [] && s.rx[0].Submit? && IsOn(s.rx[0].op, h)
    ensures Do(k, s, TakeMsg) == s.(rx := s.rx[1..], log := s.log + [Settled(s.rx[0].id, Err(BadHandle))])
  {
    hide CloseHandle, HandleFileOp, OpenThen;
  }
}
