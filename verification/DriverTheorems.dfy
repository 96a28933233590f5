/** What holds in every reachable state of the driver, its helper threads and
    the kernel, whatever the clients do and however the threads interleave. */
module DriverTheorems {
  import opened Basics
  import opened Transfer
  import opened Replays
  import opened DriverModel
  import opened DriverCalls
  import opened DriverOwnership
  import opened DriverHistory
  import opened DriverSafety
  import opened DriverAnswers
  import opened DriverLasting

  ghost predicate Good(s: State) { OwnInv(s, None) && Hist(s, Nothing) && LeaveInv(s) && AnswersInv(s) }

  /** The driver knows that the clients are gone only when they are, and has
      taken all they sent. */
  predicate LeaveInv(s: State) { s.disconnected ==> s.clientsGone && s.rx == [] }

  lemma InitGood(maxInflight: nat)
    requires maxInflight >= 1
    ensures Good(Init(maxInflight))
  {
    hide OwnInv, Hist, AnswersInv;
    InitOwn(maxInflight);
    InitHist(maxInflight);
  }

  lemma InitOwn(maxInflight: nat)
    ensures OwnInv(Init(maxInflight), None)
  {
    var s := Init(maxInflight);
    forall fd: Fd ensures Surplus(s, fd) + HandOwns(None, fd) == 0 { assert HandlesOf(s.files, fd) == {}; }
    forall h: Handle ensures OpsGap(s, h) == HandOn(None, h) {}
    hide Surplus, OpsGap, HandOwns, HandOn;
  }

  lemma InitHist(maxInflight: nat)
    requires maxInflight >= 1
    ensures Hist(Init(maxInflight), Nothing) && AnswersInv(Init(maxInflight))
  {
    InitCalls(maxInflight);
    hide CallsInv, CancelInv, Known, Honest, Earned, AllSettled, Elsewhere;
  }

  lemma InitCalls(maxInflight: nat)
    ensures CallsInv(Init(maxInflight), Nothing) && CancelInv(Init(maxInflight), Nothing)
  {
    var s := Init(maxInflight);
    forall x: Id ensures Calls(s, x) == 0 { assert ClosingAt(s.files, x) == {}; }
  }

  lemma DoLeave(k: Kernel, s: State, action: Action)
    requires LeaveInv(s) && Enabled(s, action)
    ensures LeaveInv(Do(k, s, action))
  {
    hide HandleMsg, HandleOpened, ReapAt, SubmitReady;
    match action
    case TakeMsg => assert SameClients(s.(rx := s.rx[1..]), HandleMsg(k, s.(rx := s.rx[1..]), s.rx[0]));
    case TakeOpened => assert SameClients(s.(back := s.back[1..]), HandleOpened(k, s.(back := s.back[1..]), s.back[0]));
    case Reap(i) => assert SameClients(s, ReapAt(k, s, i));
    case SubmitMore => assert SameClients(s, SubmitReady(k, s));
    case _ =>
  }

  lemma DoGood(k: Kernel, s: State, action: Action)
    requires Good(s) && Enabled(s, action)
    ensures Good(Do(k, s, action))
  {
    assert s.nextId >= 1;
    DoLeave(k, s, action);
    hide OwnInv, Hist, LeaveInv, AnswersInv, Do;
    DoOwn(k, s, action);
    DoAnswers(k, s, action);
    DoHist(k, s, action);
  }

  lemma {:induction false} RunGood(k: Kernel, s: State, actions: seq<Action>)
    requires Good(s)
    ensures Good(Run(k, s, actions))
    decreases |actions|
  {
    hide Good;
    if actions != [] {
      if Enabled(s, actions[0]) { DoGood(k, s, actions[0]); }
      RunGood(k, if Enabled(s, actions[0]) then Do(k, s, actions[0]) else s, actions[1..]);
    }
  }

  /** A state some run of the system comes to. */
  ghost predicate Reachable(k: Kernel, s: State) {
    exists maxInflight: nat, actions: seq<Action> :: maxInflight >= 1 && s == Run(k, Init(maxInflight), actions)
  }

  lemma ReachableGood(k: Kernel, s: State)
    requires Reachable(k, s)
    ensures Good(s)
  {
    var maxInflight: nat, actions: seq<Action> :| maxInflight >= 1 && s == Run(k, Init(maxInflight), actions);
    InitGood(maxInflight);
    RunGood(k, Init(maxInflight), actions);
  }

  // ---------------------------------------------------------------------
  // Descriptors
  // ---------------------------------------------------------------------

  /** Every open descriptor has exactly one owner, a closed one has none, and
      no close was ever asked for a descriptor that was not open. */
  lemma DescriptorsAreConserved(k: Kernel, s: State)
    requires Reachable(k, s)
    ensures forall fd: Fd :: Owners(s, fd) == One(fd in s.open)
    ensures ClosesSound(s)
  {
    ReachableGood(k, s);
    forall fd: Fd ensures Owners(s, fd) == One(fd in s.open) {
      assert Surplus(s, fd) + HandOwns(None, fd) == 0;
    }
  }

  /** A queued or in-flight job's descriptor is open: its own, or that of the
      live handle it was accepted on. */
  lemma JobsUseOpenDescriptors(k: Kernel, s: State, job: Job)
    requires Reachable(k, s)
    requires job in s.queue || exists f :: f in s.inflight && f.job == job
    ensures job.work.fd in s.open
    ensures job.work.handle.Some? ==>
      job.work.handle.value in s.files && s.files[job.work.handle.value].fd == job.work.fd
  {
    ReachableGood(k, s);
    if job.work.owned {
      assert Surplus(s, job.work.fd) + HandOwns(None, job.work.fd) == 0;
      if job in s.queue {
        var i :| 0 <= i < |s.queue| && s.queue[i] == job;
        SumAtLeast(s.queue, i, Owns(job.work.fd));
      } else {
        var i :| 0 <= i < |s.inflight| && s.inflight[i].job == job;
        SumAtLeast(s.inflight, i, FlightOwns(job.work.fd));
      }
    } else {
      HandleIsOpen(s, None, job.work.handle.value);
    }
  }

  // ---------------------------------------------------------------------
  // Callbacks
  // ---------------------------------------------------------------------

  /** The callback of every submitted op is in exactly one place, so it is
      invoked at most once, and never for an op nobody submitted. */
  lemma CallbacksAreConserved(k: Kernel, s: State, x: Id)
    requires Reachable(k, s)
    ensures Calls(s, x) == One(1 <= x < s.nextOp)
    ensures TimesSettled(s, x) <= 1
  {
    ReachableGood(k, s);
    assert Calls(s, x) + HandIs(Nothing, x) == One(1 <= x < s.nextOp);
  }

  /** The condition under which `run` returns. */
  predicate Exits(s: State) {
    s.queue == [] && s.inflight == [] && s.disconnected && s.pendingOpens == {}
  }

  /** Nothing is on its way to the driver, at work, or at an open. */
  predicate Drained(s: State) { s.rx == [] && s.queue == [] && s.inflight == [] && s.pendingOpens == {} }

  /** Then every op that was ever submitted has been settled, exactly once. */
  lemma DrainedSettlesAll(k: Kernel, s: State, x: Id)
    requires Reachable(k, s) && Drained(s)
    ensures TimesSettled(s, x) == One(1 <= x < s.nextOp)
  {
    ReachableGood(k, s);
    assert Calls(s, x) + HandIs(Nothing, x) == One(1 <= x < s.nextOp);
    assert x !in s.pendingOpens;
    forall h | h in s.files ensures s.files[h].closing.None? {
      CountedAlone(s, None, h);
    }
    assert ClosingAt(s.files, x) == {};
  }

  lemma ExitsDrained(s: State)
    requires Good(s) && Exits(s)
    ensures Drained(s)
  {}

  /** When the driver exits no callback is left. */
  lemma ExitSettlesAll(k: Kernel, s: State, x: Id)
    requires Reachable(k, s) && Exits(s)
    ensures TimesSettled(s, x) == One(1 <= x < s.nextOp)
  {
    ReachableGood(k, s);
    ExitsDrained(s);
    hide Good, Exits, Drained, Reachable;
    DrainedSettlesAll(k, s, x);
  }

  lemma BackIsAtOpen(s: State)
    ensures s.back != [] ==> Opening(s, s.back[0].pending.id) > 0
  {
    if s.back != [] { SumAtLeast(s.back, 0, BackIs(s.back[0].pending.id)); }
  }

  lemma NothingAtOpens(s: State)
    requires CancelInv(s, Nothing) && s.pendingOpens == {}
    ensures s.back == []
  {
    BackIsAtOpen(s);
  }

  /** And once the helpers have done the closes they were sent, the only
      descriptors left open are those of handles no client has closed. */
  lemma ExitLeavesOnlyHandles(k: Kernel, s: State, fd: Fd)
    requires Reachable(k, s) && Exits(s) && s.toHelpers == []
    ensures fd in s.open <==> exists h :: h in s.files && s.files[h].fd == fd
    ensures forall h :: h in s.files ==> s.files[h].closing.None?
    ensures forall i :: 0 <= i < |s.log| && s.log[i].HandleGone? ==> s.log[i].handle !in s.files
  {
    ReachableGood(k, s);
    NothingAtOpens(s);
    assert Surplus(s, fd) + HandOwns(None, fd) == 0;
    assert fd in s.open <==> HandlesOf(s.files, fd) != {};
    assert HandlesOf(s.files, fd) != {} <==> exists h :: h in s.files && s.files[h].fd == fd by {
      if h :| h in s.files && s.files[h].fd == fd { assert h in HandlesOf(s.files, fd); }
    }
    forall h | h in s.files ensures s.files[h].closing.None? {
      CountedAlone(s, None, h);
    }
  }

  // ---------------------------------------------------------------------
  // Handles
  // ---------------------------------------------------------------------

  /** A handle counts exactly the jobs queued or in flight on it, and a close
      is deferred only while there is one. */
  lemma OpsCountJobs(k: Kernel, s: State, h: Handle)
    requires Reachable(k, s)
    ensures h in s.files ==> s.files[h].ops == JobsOn(s, h) && (s.files[h].closing.Some? ==> JobsOn(s, h) > 0)
    ensures h !in s.files ==> JobsOn(s, h) == 0
  {
    ReachableGood(k, s);
    assert OpsGap(s, h) == HandOn(None, h);
  }

  /** Every answer is to an op the clients submitted, and of its kind. */
  lemma AnswerFits(s: State, i: nat)
    requires Good(s) && i < |s.log|
    ensures Answered(s.ledger, s.log[i])
    ensures !s.log[i].Closed? ==> Fair(s.ledger, s.log[i].id)
    ensures s.log[i].HandleGone? ==>
      s.log[i].handle !in s.files && AllSettled(s.log[..i], s.ledger.accepted, s.log[i].handle)
  {
    hide OwnInv, CallsInv, JobsInv, CancelInv, AllSettled, Answered, Asked;
  }

  lemma CloseAnswer(ledger: Ledger, event: Event, h: Handle)
    requires Answered(ledger, event) && !event.Closed? && Fair(ledger, event.id) && Is(ledger.ops, event.id, Close(h))
    ensures if event.Settled? then event.result == Err(BadHandle) else event.handle == h
  {}

  lemma SettledBefore(k: Kernel, s: State, i: nat, x: Id)
    requires Reachable(k, s) && i < |s.log| && s.log[i].HandleGone?
    requires x in s.ledger.accepted && s.ledger.accepted[x].handle == Some(s.log[i].handle)
    ensures SettledIn(s.log[..i], x) == 1
  {
    assert SettledIn(s.log[..i], x) > 0 by {
      ReachableGood(k, s);
      AnswerFits(s, i);
    }
    CallbacksAreConserved(k, s, x);
    hide Reachable, Calls;
    assert s.log == s.log[..i] + s.log[i..];
    SumAppend(s.log[..i], s.log[i..], SettledIs(x));
  }

  /** A close is refused, or its answer is the end of its handle; and then every
      job accepted on the handle has been answered before. */
  lemma CloseIsAnsweredLast(k: Kernel, s: State, i: nat, h: Handle)
    requires Reachable(k, s) && i < |s.log| && !s.log[i].Closed? && Is(s.ledger.ops, s.log[i].id, Close(h))
    ensures s.log[i].Settled? ==> s.log[i].result == Err(BadHandle)
    ensures s.log[i].HandleGone? ==> s.log[i].handle == h && h !in s.files
    ensures s.log[i].HandleGone? ==>
      forall x :: x in s.ledger.accepted && s.ledger.accepted[x].handle == Some(h) ==> SettledIn(s.log[..i], x) == 1
  {
    ReachableGood(k, s);
    AnswerFits(s, i);
    hide Good, Reachable, AllSettled, Answered, Fair, SettledIn;
    CloseAnswer(s.ledger, s.log[i], h);
    if s.log[i].HandleGone? {
      forall x | x in s.ledger.accepted && s.ledger.accepted[x].handle == Some(h)
        ensures SettledIn(s.log[..i], x) == 1
      {
        SettledBefore(k, s, i, x);
      }
    }
  }

  /** What lasts, from the start: handle zero is never given out. */
  lemma RunIsCaused(k: Kernel, maxInflight: nat, actions: seq<Action>)
    ensures var causes := CausesOf(k, Init(maxInflight), actions);
      Lasting(k, Since(map[], 0, causes), Run(k, Init(maxInflight), actions))
  {
    var since := Since(map[], 0, CausesOf(k, Init(maxInflight), actions));
    assert Lasting(k, since, Init(maxInflight));
    hide Run, CausesOf;
    RunLasts(k, since, Init(maxInflight), actions);
  }

  lemma ReachableLasts(k: Kernel, s: State) returns (causes: set<Touch>)
    requires Reachable(k, s)
    ensures SizesGiven(k, s) && HandlesTold(k, s) && Caused(k, causes, s)
  {
    var maxInflight: nat, actions: seq<Action> :| maxInflight >= 1 && s == Run(k, Init(maxInflight), actions);
    RunIsCaused(k, maxInflight, actions);
    causes := CausesOf(k, Init(maxInflight), actions);
  }

  lemma SizesAreGiven(k: Kernel, s: State)
    requires Reachable(k, s)
    ensures SizesGiven(k, s)
  {
    hide Reachable;
    var _ := ReachableLasts(k, s);
  }

  /** A client that is told a handle is told one that no other is ever told, a
      size that `fstat` gave, and the descriptor that the handle stands for until
      it goes, which the log says. */
  lemma HandlesAreTold(k: Kernel, s: State, i: nat)
    requires Reachable(k, s) && i < |s.log| && Tells(s.log[i])
    ensures var reply := s.log[i].result.reply;
      && 1 <= reply.handle < s.nextId
      && (reply.handle in s.files <==> !HasGone(s.log, reply.handle))
      && (reply.handle in s.files ==> s.files[reply.handle].fd == reply.fd)
      && Given(k, Some(reply.size), s.tick)
    ensures forall j :: 0 <= j < |s.log| && j != i && Tells(s.log[j]) ==>
      s.log[j].result.reply.handle != s.log[i].result.reply.handle
  {
    var _ := ReachableLasts(k, s);
    assert Told(k, s.files, s.nextId, s.tick, s.log[i]);
    var g := s.log[i].result.reply.handle;
    if HasGone(s.log, g) { GoneIsGone(k, s, g); }
    hide Reachable;
  }

  lemma GoneIsGone(k: Kernel, s: State, g: Handle)
    requires Reachable(k, s) && HasGone(s.log, g)
    ensures g !in s.files
  {
    ReachableGood(k, s);
  }

  /** And a client was told each handle there is. */
  lemma HandlesHaveClients(k: Kernel, s: State, g: Handle)
    requires Reachable(k, s) && g in s.files
    ensures exists i :: 0 <= i < |s.log| && Tells(s.log[i]) && s.log[i].result.reply.handle == g
  {
    var _ := ReachableLasts(k, s);
    ReachableGood(k, s);
    hide Reachable, Hist, AnswersInv;
    assert ToldOf(s.log, g);
  }

  /** Once a handle is closing, or gone, it stays so: no job is accepted on it any
      more, whatever happens, and an op on it that the driver still takes is
      refused at once, with no other effect. */
  lemma ClosingIsFinal(k: Kernel, s: State, actions: seq<Action>, h: Handle)
    requires Reachable(k, s)
    requires if h in s.files then s.files[h].closing.Some? else h < s.nextId
    ensures var r := Run(k, s, actions);
      && (h in r.files ==> r.files[h].closing.Some?)
      && (forall x :: x in r.ledger.accepted && r.ledger.accepted[x].handle == Some(h) ==>
            x in s.ledger.accepted && s.ledger.accepted[x] == r.ledger.accepted[x])
      && (r.rx != [] && r.rx[0].Submit? && IsOn(r.rx[0].op, h) ==>
            Do(k, r, TakeMsg) == r.(rx := r.rx[1..], log := r.log + [Settled(r.rx[0].id, Err(BadHandle))]))
  {
    var causes := ReachableLasts(k, s);
    assert h < s.nextId by { ReachableGood(k, s); }
    hide Reachable, SizesGiven, HandlesTold, Run, Do, CausesOf;
    var since := Since(s.ledger.accepted, h, causes + CausesOf(k, s, actions));
    CausedByMore(k, causes, since.causes, s);
    hide Caused;
    RunLasts(k, since, s, actions);
    var r := Run(k, s, actions);
    if r.rx != [] && r.rx[0].Submit? && IsOn(r.rx[0].op, h) { ShutRefuses(k, r, h); }
  }

  lemma CausedByMore(k: Kernel, causes: set<Touch>, more: set<Touch>, s: State)
    requires Caused(k, causes, s) && causes <= more
    ensures Caused(k, more, s)
  {
    hide CallGave;
    forall i | 0 <= i < |s.trace| ensures TouchCaused(k, more, s.tick, s.trace[i]) {
      assert TouchCaused(k, causes, s.tick, s.trace[i]);
    }
  }

  // ---------------------------------------------------------------------
  // Cancels
  // ---------------------------------------------------------------------

  /** Once a cancel was handled for an op, no chunk of it is handed to the
      kernel any more. */
  lemma NothingStartsAfterCancel(k: Kernel, s: State, i: nat, j: nat)
    requires Reachable(k, s) && i < j < |s.trace|
    requires s.trace[i].Doomed? && s.trace[j].Issued?
    ensures s.trace[i].id != s.trace[j].id
  {
    ReachableGood(k, s);
  }

  /** Queued jobs are never marked cancelled, and only opens that are out at
      the helpers are. */
  lemma CancelMarks(k: Kernel, s: State)
    requires Reachable(k, s)
    ensures forall i :: 0 <= i < |s.queue| ==> !s.queue[i].cancelled
    ensures s.cancelledOpens <= s.pendingOpens
    ensures forall x: Id :: x in s.pendingOpens <==> Opening(s, x) > 0
  {
    ReachableGood(k, s);
  }

  /** A cancelled op that never became a job, its open being out at a helper, is
      answered so. */
  lemma CancelledAtItsOpen(k: Kernel, s: State, i: nat)
    requires Reachable(k, s) && i < |s.log| && !s.log[i].Closed?
    requires Doomed(s.log[i].id) in s.trace && s.log[i].id !in s.ledger.accepted
    ensures s.log[i] == Settled(s.log[i].id, Err(Cancelled))
  {
    ReachableGood(k, s);
    assert DoomSaid(s.ledger.accepted, s.trace, s.log[i]);
  }

  // ---------------------------------------------------------------------
  // Answers
  // ---------------------------------------------------------------------

  /** An op that was a job is answered with a reply exactly when the chunks the
      kernel has returned for it complete it, cancelled or not, and then with
      the reply they come to: all the bytes of a read, of the whole length unless
      the last chunk met nothing, or the count of a payload all written. */
  lemma NeverPartial(k: Kernel, s: State, i: nat)
    requires Reachable(k, s) && i < |s.log| && s.log[i].Settled? && s.log[i].id in s.ledger.accepted
    ensures var w := s.ledger.accepted[s.log[i].id];
      var chunks := ChunksOf(s.ledger.chunks, s.log[i].id);
      var result := s.log[i].result;
      && Runs(w, chunks)
      && (Replay(w, chunks).More? ==> result.Err?)
      && (Replay(w, chunks).Done? ==> result == Replay(w, chunks).result)
      && (result.Ok? ==> chunks != [] && Whole(w, chunks, result.reply))
  {
    ReachableGood(k, s);
    var w, chunks := s.ledger.accepted[s.log[i].id], ChunksOf(s.ledger.chunks, s.log[i].id);
    assert Honest(w, chunks, s.log[i].result);
    hide Good;
    if Replay(w, chunks).Done? { ReplayEndsWhole(w, chunks); }
    hide Whole;
  }

  /** An op that was a job is answered with an error only if it was cancelled,
      a client having asked for that, and then that it was; if the kernel completed
      a request of it with an error, refused one, or failed a plain call for it,
      and then with that very code; or if its chunks come to that error. */
  lemma ErrorsAreEarned(k: Kernel, maxInflight: nat, actions: seq<Action>, s: State, i: nat)
    requires maxInflight >= 1 && s == Run(k, Init(maxInflight), actions)
    requires i < |s.log| && s.log[i].Settled? && s.log[i].id in s.ledger.accepted && s.log[i].result.Err?
    ensures var x, error := s.log[i].id, s.log[i].result.error;
      var causes := CausesOf(k, Init(maxInflight), actions);
      || (error == Cancelled && Doomed(x) in s.trace && Doomed(x) in causes)
      || (error.Os? && Failure(x, error.code) in causes)
      || (error.Os? && Refusal(x, error.code) in s.trace && CallGave(k, error.code, s.tick))
      || (Completes(s.ledger.accepted[x], ChunksOf(s.ledger.chunks, x))
            && s.log[i].result == Replay(s.ledger.accepted[x], ChunksOf(s.ledger.chunks, x)).result)
  {
    assert Reachable(k, s);
    RunIsCaused(k, maxInflight, actions);
    NeverPartial(k, s, i);
    assert Earned(s.ledger.accepted, s.ledger.chunks, s.trace, s.log[i]) by { ReachableGood(k, s); }
    hide Reachable, Run, CausesOf, SizesGiven, HandlesTold, Replay, Runs;
    var causes := CausesOf(k, Init(maxInflight), actions);
    forall touch | touch in s.trace ensures TouchCaused(k, causes, s.tick, touch) {
      var j :| 0 <= j < |s.trace| && s.trace[j] == touch;
    }
    hide Caused, CallGave;
  }

  /** No client cancels the op, and the kernel fails nothing. */
  ghost predicate Undisturbed(k: Kernel, actions: seq<Action>, x: Id) {
    && (forall i :: 0 <= i < |actions| ==> Harmless(actions[i], x))
    && (forall t: nat :: k(t).failed.None? && !k(t).accept.Refused?)
  }

  predicate Harmless(action: Action, x: Id) {
    action != ClientCancels(x) && !(action.KernelAnswers? && action.ret.Failed?)
  }

  lemma {:induction false} HarmlessCauses(k: Kernel, s: State, actions: seq<Action>, x: Id)
    requires forall i :: 0 <= i < |actions| ==> Harmless(actions[i], x)
    ensures Doomed(x) !in CausesOf(k, s, actions)
    ensures forall code: int :: Failure(x, code) !in CausesOf(k, s, actions)
    decreases |actions|
  {
    hide Do;
    if actions != [] {
      assert Harmless(actions[0], x);
      forall i | 0 <= i < |actions[1..]| ensures Harmless(actions[1..][i], x) { assert Harmless(actions[i + 1], x); }
      HarmlessCauses(k, if Enabled(s, actions[0]) then Do(k, s, actions[0]) else s, actions[1..], x);
    }
  }

  /** So then every answered job is answered with the reply its chunks come to;
      or, after an append, with the error of asking for the size. */
  lemma UndisturbedIsAnswered(k: Kernel, maxInflight: nat, actions: seq<Action>, s: State, i: nat)
    requires maxInflight >= 1 && s == Run(k, Init(maxInflight), actions)
    requires i < |s.log| && s.log[i].Settled? && s.log[i].id in s.ledger.accepted
    requires Undisturbed(k, actions, s.log[i].id)
    ensures var w, chunks := s.ledger.accepted[s.log[i].id], ChunksOf(s.ledger.chunks, s.log[i].id);
      && Completes(w, chunks) && s.log[i].result == Replay(w, chunks).result
      && (s.log[i].result.Err? ==> w.Write? && w.append && Last(chunks).look.size.None?)
  {
    assert Reachable(k, s);
    NeverPartial(k, s, i);
    var w, chunks := s.ledger.accepted[s.log[i].id], ChunksOf(s.ledger.chunks, s.log[i].id);
    hide Reachable, Run, Whole;
    if s.log[i].result.Err? {
      HarmlessCauses(k, Init(maxInflight), actions, s.log[i].id);
      ErrorsAreEarned(k, maxInflight, actions, s, i);
    }
    ReplayEndsWhole(w, chunks);
  }

  /** What the kernel returned for the op, if anything, was read off a regular
      file with these contents. */
  ghost predicate FedBy(s: State, x: Id, versions: Versions, counts: nat -> nat, slack: nat -> nat) {
    x in s.ledger.accepted ==>
      && Runs(s.ledger.accepted[x], ChunksOf(s.ledger.chunks, x))
      && ReadOff(versions, counts, slack, s.ledger.accepted[x], ChunksOf(s.ledger.chunks, x))
  }

  /** The reply to a queued read is that of one `ReadAll`. */
  lemma ReadIsReadAll(k: Kernel, s: State, i: nat, versions: Versions, counts: nat -> nat, slack: nat -> nat)
    requires Reachable(k, s) && i < |s.log| && s.log[i].Settled? && s.log[i].result.Ok?
    requires s.log[i].id in s.ledger.accepted && s.ledger.accepted[s.log[i].id].Read?
    requires FedBy(s, s.log[i].id, versions, counts, slack)
    ensures var w := s.ledger.accepted[s.log[i].id];
      var e := ReadAll(w, versions, counts, slack, 0);
      e.result == s.log[i].result && e.last == |ChunksOf(s.ledger.chunks, s.log[i].id)| - 1
  {
    hide Reachable, Whole, ReadAll, ReadOff, Replay, Runs;
    NeverPartial(k, s, i);
    ReadOffIsReadAll(versions, counts, slack, s.ledger.accepted[s.log[i].id], ChunksOf(s.ledger.chunks, s.log[i].id));
  }

  /** A positional read that succeeds replies the bytes of its range, short only
      where the file ends: whatever the kernel returned at a time, however often
      the job went back to the queue, and whichever of its chunks were plain
      system calls. */
  lemma ReadAtIsSlice(k: Kernel, s: State, i: nat, op: Op,
                      versions: Versions, file: File, counts: nat -> nat, slack: nat -> nat)
    requires Reachable(k, s) && i < |s.log| && s.log[i].Settled? && s.log[i].result.Ok?
    requires Is(s.ledger.ops, s.log[i].id, op) && op.ReadAt?
    requires FedBy(s, s.log[i].id, versions, counts, slack) && RangeIs(versions, file, op.pos, op.len)
    ensures var all := Slice(file, op.pos, op.len);
      s.log[i].result == Ok(if op.external then ReadReply(|all|) else BytesReply(all))
  {
    ReachableGood(k, s);
    AnswerFits(s, i);
    hide Good, Reachable, FedBy, RangeIs, ReadAll;
    var x := s.log[i].id;
    if x in s.ledger.accepted {
      var w := s.ledger.accepted[x];
      assert Asked(op, w, None);
      SizedStart(w, op, file);
      hide Slice, HoldsSlice;
      ReadIsReadAll(k, s, i, versions, counts, slack);
      SizedReadIsOneRead(w, versions, file, counts, slack, 0);
    }
  }

  lemma SizedStart(w: Work, op: Op, file: File)
    requires Asked(op, w, None) && op.ReadAt?
    ensures HoldsSlice(w, file) && w.want == Exact(op.len) && w.pos == op.pos && w.external == op.external
  {
    assert Slice(file, w.pos, 0) == [];
  }

  /** Where a read to the end begins. */
  function RestFrom(op: Op): nat { if op.ReadRest? then op.pos else 0 }

  /** The room its buffer is given by the size that `fstat` said. */
  function RoomFor(op: Op, size: Option<nat>): nat {
    var n := SizeOr(size);
    Max(if n > RestFrom(op) then n - RestFrom(op) else 0, 1)
  }

  lemma RestStart(op: Op, w: Work, size: Option<nat>)
    requires Asked(op, w, size) && ReadsOn(op)
    ensures w.Read? && w.want.ToEnd? && !w.external && w.got == [] && w.pos == RestFrom(op)
      && w.room == RoomFor(op, size)
  {}

  lemma StartsGrowing(w: SoundWork, versions: Versions)
    requires w.Read? && w.want.ToEnd? && !w.external && w.got == [] && w.room >= 1
    ensures Growing(w, versions, 0, 0)
  {
    assert Slice(versions(0), w.pos, 0) == [];
  }

  /** An answered read to the end that was not given a handle. */
  predicate RestAnswered(s: State, i: nat, op: Op) {
    && i < |s.log| && s.log[i].Settled? && s.log[i].result.Ok?
    && Is(s.ledger.ops, s.log[i].id, op) && ReadsOn(op) && (op.ReadFile? ==> !s.log[i].result.reply.HandleReply?)
  }

  /** It was a job, with room for what was left by the size `fstat` said at some
      moment before. */
  lemma RestWasJob(k: Kernel, s: State, i: nat, op: Op)
    requires Reachable(k, s) && RestAnswered(s, i, op)
    ensures var x := s.log[i].id;
      && x in s.ledger.accepted && s.ledger.accepted[x].Read?
      && var w := s.ledger.accepted[x];
        && w.want.ToEnd? && !w.external && w.got == [] && w.pos == RestFrom(op)
        && w.room == RoomFor(op, SizeOf(s.ledger, x))
    ensures Given(k, SizeOf(s.ledger, s.log[i].id), s.tick)
  {
    SizesAreGiven(k, s);
    ReachableGood(k, s);
    AnswerFits(s, i);
    hide Good, Reachable;
    var x := s.log[i].id;
    RestStart(op, s.ledger.accepted[x], SizeOf(s.ledger, x));
  }

  /** A read to the end of a file that only grows is answered with what the file
      held at its last chunk, up to the capacity of its buffer: the room for what
      `fstat` said was left, or, if that is below 65536 bytes, 65536 and what the
      allocator adds. So it gets all of that exactly when it fits. */
  lemma ReadRestWithinCapacity(k: Kernel, s: State, i: nat, op: Op,
                               versions: Versions, counts: nat -> nat, extra: nat)
    requires Reachable(k, s) && RestAnswered(s, i, op)
    requires FedBy(s, s.log[i].id, versions, counts, Extra(extra)) && OnlyGrows(versions)
    ensures var x := s.log[i].id;
      && ChunksOf(s.ledger.chunks, x) != []
      && var last := versions(2 * (|ChunksOf(s.ledger.chunks, x)| - 1));
      && var most := Capacity(RoomFor(op, SizeOf(s.ledger, x)), extra);
      && s.log[i].result == Ok(BytesReply(Slice(last, RestFrom(op), most)))
      && (Slice(last, RestFrom(op), most) == Tail(last, RestFrom(op)) <==> |last| <= RestFrom(op) + most)
  {
    hide Reachable, FedBy, OnlyGrows, ReadAll, Capacity, Slice, Tail, Growing, RoomFor;
    RestWasJob(k, s, i, op);
    var w := s.ledger.accepted[s.log[i].id];
    assert w.room >= 1 by { RoomIsRoom(op, SizeOf(s.ledger, s.log[i].id)); }
    StartsGrowing(w, versions);
    ReadIsReadAll(k, s, i, versions, counts, Extra(extra));
    ShortExactlyBeyondCapacity(w, versions, counts, extra, 0, 0);
  }

  lemma RoomIsRoom(op: Op, size: Option<nat>)
    ensures RoomFor(op, size) >= 1
  {}

  /** So of a file that stays within the room the buffer was given, or within
      65536 bytes, it gets all that there was at its last chunk, however the
      allocator behaves. */
  lemma ReadRestIsTail(k: Kernel, s: State, i: nat, op: Op,
                       versions: Versions, counts: nat -> nat, slack: nat -> nat)
    requires Reachable(k, s) && RestAnswered(s, i, op)
    requires FedBy(s, s.log[i].id, versions, counts, slack) && OnlyGrows(versions)
    requires forall t: nat ::
      |versions(t)| <= RestFrom(op) + Max(RoomFor(op, SizeOf(s.ledger, s.log[i].id)), GROWTH)
    ensures var chunks := ChunksOf(s.ledger.chunks, s.log[i].id);
      chunks != [] && s.log[i].result == Ok(BytesReply(Tail(versions(2 * (|chunks| - 1)), RestFrom(op))))
  {
    hide Reachable, FedBy, OnlyGrows, ReadAll, Slice, Tail, Growing, RoomFor;
    RestWasJob(k, s, i, op);
    var w := s.ledger.accepted[s.log[i].id];
    assert w.room >= 1 by { RoomIsRoom(op, SizeOf(s.ledger, s.log[i].id)); }
    StartsGrowing(w, versions);
    ReadIsReadAll(k, s, i, versions, counts, slack);
    NeverShortWithinGrowth(w, versions, counts, slack, 0, 0);
  }

  /** A read to the end of an unchanged regular file whose size `fstat` said when
      the read was queued gets all the rest of it, and no chunk asks for nothing. */
  lemma ReadRestOfUnchanged(k: Kernel, s: State, i: nat, op: Op, file: File, counts: nat -> nat, slack: nat -> nat)
    requires Reachable(k, s) && RestAnswered(s, i, op)
    requires FedBy(s, s.log[i].id, Always(file), counts, slack) && SizeOf(s.ledger, s.log[i].id) == Some(|file|)
    ensures s.log[i].result == Ok(BytesReply(Tail(file, RestFrom(op))))
    ensures var x, chunks := s.log[i].id, ChunksOf(s.ledger.chunks, s.log[i].id);
      x in s.ledger.accepted && Runs(s.ledger.accepted[x], chunks) && NeverIdle(s.ledger.accepted[x], chunks)
  {
    RestWasJob(k, s, i, op);
    var x := s.log[i].id;
    var w := s.ledger.accepted[x];
    StartsExact(w, file);
    hide Reachable, ReadAll, Slice, Tail, Exactly;
    ReadIsReadAll(k, s, i, Always(file), counts, slack);
    ReadToEndIsExact(w, file, counts, slack, 0);
    ExactUnderWay(file, counts, slack, w, ChunksOf(s.ledger.chunks, x));
  }

  lemma StartsExact(w: SoundWork, file: File)
    requires w.Read? && w.want.ToEnd? && !w.external && w.got == []
    requires w.room == Max(if |file| > w.pos then |file| - w.pos else 0, 1)
    ensures Exactly(w, file)
  {
    assert Slice(file, w.pos, 0) == [];
  }

  /** Where `fstat` failed when the read was queued, even an unchanged file is cut
      short if it is longer than the position and the one growth of a buffer. */
  lemma ReadRestWithoutSize(k: Kernel, s: State, i: nat, op: Op, file: File, counts: nat -> nat, extra: nat)
    requires Reachable(k, s) && RestAnswered(s, i, op)
    requires FedBy(s, s.log[i].id, Always(file), counts, Extra(extra)) && SizeOf(s.ledger, s.log[i].id) == None
    ensures var got := Slice(file, RestFrom(op), GROWTH + extra);
      && s.log[i].result == Ok(BytesReply(got))
      && (got == Tail(file, RestFrom(op)) <==> |file| <= RestFrom(op) + GROWTH + extra)
  {
    hide Reachable, FedBy, Slice, Tail;
    ReadRestWithinCapacity(k, s, i, op, Always(file), counts, extra);
  }

  /** What the kernel returned for the op was read off something with these
      contents and no size. */
  ghost predicate StreamedTo(s: State, x: Id, file: File, counts: nat -> nat, extra: nat) {
    x in s.ledger.accepted ==>
      && Runs(s.ledger.accepted[x], ChunksOf(s.ledger.chunks, x))
      && StreamedOff(file, counts, extra, s.ledger.accepted[x], ChunksOf(s.ledger.chunks, x))
  }

  /** A read to the end of anything but a regular file gets its contents up to the
      same capacity. */
  lemma ReadRestOfStream(k: Kernel, s: State, i: nat, op: Op, file: File, counts: nat -> nat, extra: nat)
    requires Reachable(k, s) && RestAnswered(s, i, op) && StreamedTo(s, s.log[i].id, file, counts, extra)
    ensures var most := Capacity(RoomFor(op, SizeOf(s.ledger, s.log[i].id)), extra);
      s.log[i].result == Ok(BytesReply(Slice(file, RestFrom(op), most)))
  {
    RestWasJob(k, s, i, op);
    RoomIsRoom(op, SizeOf(s.ledger, s.log[i].id));
    hide Reachable, Whole, RoomFor, Capacity;
    NeverPartial(k, s, i);
    var x := s.log[i].id;
    var w := s.ledger.accepted[x];
    assert Streaming(file, w, w.pos, w.room, extra) by { assert Slice(file, w.pos, 0) == []; }
    hide Streaming, StreamedOff, Slice, Replay;
    StreamIsCapacity(file, counts, extra, w, ChunksOf(s.ledger.chunks, x), w.room);
  }

  function WritesAt(op: Op): nat { if op.WriteAt? then op.pos else 0 }

  predicate Appends(op: Op) { op.WriteAt? && op.append }

  lemma WriteLanded(op: Op, w: SoundWork, chunks: seq<Chunk>, file: File)
    requires Asked(op, w, None) && (op.WriteAt? || op.WriteFile?) && Runs(w, chunks)
    ensures w.Write? && CountOf(chunks) <= |op.data|
    ensures var written := op.data[..CountOf(chunks)];
      Landed(file, w, chunks) == if Appends(op) then file + written else Splice(file, WritesAt(op), written)
  {
    hide Runs, Splice, CountOf, Landed;
    LandedIsPrefix(file, w, chunks);
  }

  /** A reply to a write says that all of it is written, and where that ends. */
  predicate SaysAll(op: Op, chunks: seq<Chunk>, reply: Reply)
    requires op.WriteAt? || op.WriteFile?
  {
    && reply.WrittenReply? && reply.n == |op.data| == CountOf(chunks) && chunks != []
    && (if Appends(op) then Last(chunks).look.size == Some(reply.end) else reply.end == WritesAt(op) + |op.data|)
  }

  lemma WriteSaysAll(op: Op, w: SoundWork, chunks: seq<Chunk>, reply: Reply)
    requires Asked(op, w, None) && (op.WriteAt? || op.WriteFile?) && chunks != [] && Whole(w, chunks, reply)
    ensures SaysAll(op, chunks, reply)
  {
    hide CountOf;
  }

  /** What a queued write has done to the file when it is answered: the payload
      as far as the kernel took it lies there in one piece, and if the answer is
      a reply, all of it does. */
  lemma WriteIsOnePiece(k: Kernel, s: State, i: nat, op: Op, file: File)
    requires Reachable(k, s) && i < |s.log| && s.log[i].Settled? && s.log[i].id in s.ledger.accepted
    requires Is(s.ledger.ops, s.log[i].id, op) && (op.WriteAt? || op.WriteFile?)
    ensures var w, chunks := s.ledger.accepted[s.log[i].id], ChunksOf(s.ledger.chunks, s.log[i].id);
      && w.Write? && Runs(w, chunks) && CountOf(chunks) <= |op.data|
      && (var written := op.data[..CountOf(chunks)];
          Landed(file, w, chunks) == if Appends(op) then file + written else Splice(file, WritesAt(op), written))
      && (s.log[i].result.Ok? ==> SaysAll(op, chunks, s.log[i].result.reply))
  {
    ReachableGood(k, s);
    AnswerFits(s, i);
    var w, chunks := s.ledger.accepted[s.log[i].id], ChunksOf(s.ledger.chunks, s.log[i].id);
    assert Asked(op, w, None);
    hide Good, Reachable, Runs, Replay, Splice, CountOf, Landed, SaysAll, Asked, Whole, Appends, Answered;
    NeverPartial(k, s, i);
    WriteLanded(op, w, chunks, file);
    if s.log[i].result.Ok? { WriteSaysAll(op, w, chunks, s.log[i].result.reply); }
  }

  // ---------------------------------------------------------------------
  // Order and slots
  // ---------------------------------------------------------------------

  /** Jobs are first submitted in the order they were queued: but for those
      cancelled while they waited, the arrivals are the jobs submitted so far
      followed by the waiting ones, and those wait behind every job that was
      submitted before. */
  lemma FirstSubmissionsAreFifo(k: Kernel, s: State)
    requires Reachable(k, s)
    ensures Without(s.arrivals, s.dropped) == s.firsts + Waiting(s.queue, s.firsts)
    ensures forall i, j :: 0 <= i < j < |s.queue| && s.queue[j].id in s.firsts ==> s.queue[i].id in s.firsts
  {
    ReachableGood(k, s);
  }

  lemma SlotsAreBounded(k: Kernel, s: State)
    requires Reachable(k, s)
    ensures |s.inflight| <= s.maxInflight
  {
    ReachableGood(k, s);
  }

  /** After every look at the queue all slots are taken, unless nothing is queued
      any more or the kernel has just said that it has none; and then something
      is in flight, so the driver is never left with nothing to wait for. */
  lemma {:induction false} SubmitReadyProgress(k: Kernel, s: State)
    requires s.maxInflight >= 1
    ensures var r := SubmitReady(k, s);
      && (r.queue == [] || r.inflight != [])
      && (r.queue == [] || |r.inflight| >= r.maxInflight || (r.tick > s.tick && k(r.tick - 1).accept.Again?))
      && r.tick >= s.tick
    decreases |s.queue|
  {
    hide SubmitJob;
    if !(|s.inflight| >= s.maxInflight || s.queue == [] || IsFull(k, s)) {
      SubmitJobOnward(k, s.(queue := s.queue[1..]), s.queue[0]);
      SubmitReadyProgress(k, SubmitJob(k, s.(queue := s.queue[1..]), s.queue[0]));
    }
  }
}
