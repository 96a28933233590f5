/** What the history of a run shows: cancelled ops are not started again, a
    handle's close is answered last, and jobs start in the order they came. */
module DriverHistory {
  import opened Basics
  import opened Transfer
  import opened Replays
  import opened DriverModel
  import opened DriverCalls
  import opened DriverOwnership

  /** What the driver holds outside of its containers: nothing, a job, a job and
      the result it ends with, or the callback of an op that is no job. */
  datatype Hand = Nothing | Holding(job: Job) | Ending(job: Job, result: Result) | Fresh(id: Id)

  function HandIs(hand: Hand, x: Id): nat {
    match hand
    case Nothing => 0
    case Holding(job) => One(job.id == x)
    case Ending(job, _) => One(job.id == x)
    case Fresh(id) => One(id == x)
  }

  // ---------------------------------------------------------------------
  // Callbacks
  // ---------------------------------------------------------------------

  /** Each submitted op has its callback in exactly one place. */
  ghost predicate CallsInv(s: State, hand: Hand) {
    forall x: Id :: Calls(s, x) + HandIs(hand, x) == One(1 <= x < s.nextOp)
  }

  /** The callbacks of an op that are neither a job's nor invoked. */
  function Elsewhere(s: State, x: Id): nat {
    Sum(s.rx, MsgIs(x)) + Opening(s, x) + |ClosingAt(s.files, x)|
  }

  /** The jobs there are have been accepted; an accepted op is a job until it
      settles. */
  ghost predicate JobsInv(s: State, hand: Hand) {
    && (forall x :: x in s.arrivals <==> x in s.ledger.accepted)
    && (forall x :: x in s.ledger.accepted ==> Elsewhere(s, x) == 0 && 1 <= x < s.nextOp)
    && (forall i :: 0 <= i < |s.queue| ==> Known(s.ledger.accepted, s.ledger.chunks, s.queue[i]))
    && (forall i :: 0 <= i < |s.inflight| ==> Known(s.ledger.accepted, s.ledger.chunks, s.inflight[i].job))
    && HandFits(s.ledger, s.trace, hand)
  }

  predicate HandFits(ledger: Ledger, trace: seq<Touch>, hand: Hand) {
    match hand
    case Nothing => true
    case Holding(job) => Known(ledger.accepted, ledger.chunks, job)
    case Ending(job, result) =>
      && job.id in ledger.accepted && Honest(ledger.accepted[job.id], ChunksOf(ledger.chunks, job.id), result)
      && Earned(ledger.accepted, ledger.chunks, trace, Settled(job.id, result))
    case Fresh(id) => id !in ledger.accepted
  }

  /** A live job is what the chunks the kernel has returned for it make of the
      work it was queued with. */
  predicate Known(accepted: map<Id, SoundWork>, chunks: map<Id, seq<Chunk>>, job: Job) {
    && job.id in accepted
    && Runs(accepted[job.id], ChunksOf(chunks, job.id))
    && Replay(accepted[job.id], ChunksOf(chunks, job.id)) == More(job.work)
  }

  /** The result the op ended with is the one its chunks come to, or an error
      where they have not come to one. */
  predicate Honest(w: SoundWork, chunks: seq<Chunk>, result: Result) {
    Runs(w, chunks) && (if Replay(w, chunks).Done? then result == Replay(w, chunks).result else result.Err?)
  }

  /** Its chunks have brought the job to its result. */
  predicate Completes(w: SoundWork, chunks: seq<Chunk>) { Runs(w, chunks) && Replay(w, chunks).Done? }

  /** The error is due: the op was cancelled, or the kernel gave this very code
      for a chunk of it. */
  predicate Excused(trace: seq<Touch>, x: Id, error: Error) {
    match error
    case Cancelled => Doomed(x) in trace
    case Os(code) => Failure(x, code) in trace || Refusal(x, code) in trace
    case BadHandle => false
  }

  /** A job is answered with an error only if that is due, or its chunks come to it. */
  predicate Earned(accepted: map<Id, SoundWork>, chunks: map<Id, seq<Chunk>>, trace: seq<Touch>, event: Event) {
    event.Settled? && event.id in accepted && event.result.Err? ==>
      Completes(accepted[event.id], ChunksOf(chunks, event.id)) || Excused(trace, event.id, event.result.error)
  }

  // ---------------------------------------------------------------------
  // Cancels
  // ---------------------------------------------------------------------

  /** After a cancel was handled, no chunk of the op is handed to the kernel. */
  predicate NoIssueAfterDoom(trace: seq<Touch>) {
    forall i, j :: 0 <= i < j < |trace| && trace[i].Doomed? && trace[j].Issued? ==> trace[i].id != trace[j].id
  }

  ghost predicate CancelInv(s: State, hand: Hand) {
    && (forall i :: 0 <= i < |s.queue| ==> !s.queue[i].cancelled && Doomed(s.queue[i].id) !in s.trace)
    && (forall i :: 0 <= i < |s.inflight| && Doomed(s.inflight[i].job.id) in s.trace ==> s.inflight[i].job.cancelled)
    && (forall x: Id :: Doomed(x) in s.trace ==>
          Sum(s.rx, MsgIs(x)) == 0 && |ClosingAt(s.files, x)| == 0 && x < s.nextOp)
    && (forall x: Id :: Doomed(x) in s.trace && Opening(s, x) > 0 ==> x in s.cancelledOpens)
    && s.cancelledOpens <= s.pendingOpens
    && (forall x :: x in s.pendingOpens <==> Opening(s, x) > 0)
    && NoIssueAfterDoom(s.trace)
  }

  /** What is marked cancelled was cancelled, and a request that has failed is
      recorded so. */
  ghost predicate MarksSaid(s: State) {
    && (forall i :: 0 <= i < |s.inflight| && s.inflight[i].job.cancelled ==> Doomed(s.inflight[i].job.id) in s.trace)
    && (forall i :: 0 <= i < |s.inflight| ==> FailureSaid(s.trace, s.inflight[i]))
    && (forall x :: x in s.cancelledOpens ==> Doomed(x) in s.trace)
  }

  predicate FailureSaid(trace: seq<Touch>, flight: Flight) {
    flight.ret.Some? && flight.ret.value.Failed? ==> Failure(flight.job.id, flight.ret.value.code) in trace
  }

  // ---------------------------------------------------------------------
  // Closes and results
  // ---------------------------------------------------------------------

  function SettledIn(log: seq<Event>, x: Id): nat { Sum(log, SettledIs(x)) }

  /** Every job accepted on the handle has been settled. */
  ghost predicate AllSettled(log: seq<Event>, accepted: map<Id, SoundWork>, h: Handle) {
    forall x :: x in accepted && accepted[x].handle == Some(h) ==> SettledIn(log, x) > 0
  }

  /** When a handle goes, every job accepted on it has been settled, and the
      handle never comes back. */
  ghost predicate GoneLast(s: State) {
    forall i :: 0 <= i < |s.log| && s.log[i].HandleGone? ==>
      && s.log[i].handle < s.nextId && s.log[i].handle !in s.files
      && AllSettled(s.log[..i], s.ledger.accepted, s.log[i].handle)
  }

  /** What a job is answered with is what its chunks come to, or an error that is
      due; an op that never became a job is answered that it was cancelled
      exactly when it was. */
  ghost predicate ResultsHonest(s: State) {
    && (forall i :: 0 <= i < |s.log| && s.log[i].Settled? && s.log[i].id in s.ledger.accepted ==>
          Honest(s.ledger.accepted[s.log[i].id], ChunksOf(s.ledger.chunks, s.log[i].id), s.log[i].result))
    && (forall i :: 0 <= i < |s.log| ==> DoomSaid(s.ledger.accepted, s.trace, s.log[i]))
    && (forall i :: 0 <= i < |s.log| ==> Earned(s.ledger.accepted, s.ledger.chunks, s.trace, s.log[i]))
  }

  predicate DoomSaid(accepted: map<Id, SoundWork>, trace: seq<Touch>, event: Event) {
    !event.Closed? && event.id !in accepted ==>
      (Doomed(event.id) in trace <==> event == Settled(event.id, Err(Cancelled)))
  }

  // ---------------------------------------------------------------------
  // Order
  // ---------------------------------------------------------------------

  /** The elements that are not in the set, in order. */
  function Without(ids: seq<Id>, dropped: set<Id>): seq<Id>
    decreases |ids|
  {
    if ids == [] then []
    else (if ids[0] in dropped then [] else [ids[0]]) + Without(ids[1..], dropped)
  }

  /** The jobs of the queue that have never been submitted, in order. */
  function Waiting(queue: seq<Job>, firsts: seq<Id>): seq<Id>
    decreases |queue|
  {
    if queue == [] then []
    else (if queue[0].id in firsts then [] else [queue[0].id]) + Waiting(queue[1..], firsts)
  }

  /** The queue is jobs that have been submitted before, then fresh ones in
      the order they arrived; but for those cancelled while they waited, jobs
      are first submitted in the order they were queued. */
  ghost predicate FifoInv(s: State) {
    && (forall i, j :: 0 <= i < j < |s.queue| && s.queue[j].id in s.firsts ==> s.queue[i].id in s.firsts)
    && (forall i :: 0 <= i < |s.inflight| ==> s.inflight[i].job.id in s.firsts)
    && (forall x :: x in s.firsts || x in s.dropped ==> x in s.arrivals)
    && Without(s.arrivals, s.dropped) == s.firsts + Waiting(s.queue, s.firsts)
  }

  ghost predicate SlotsInv(s: State) {
    |s.inflight| <= s.maxInflight && s.maxInflight >= 1 && s.nextId >= 1 && s.nextOp >= 1
  }

  /** The whole history invariant. */
  ghost predicate Hist(s: State, hand: Hand) {
    && CallsInv(s, hand) && JobsInv(s, hand) && CancelInv(s, hand) && MarksSaid(s)
    && GoneLast(s) && ResultsHonest(s) && FifoInv(s) && SlotsInv(s)
  }

  // ---------------------------------------------------------------------
  // Settling
  // ---------------------------------------------------------------------

  lemma EmitGone(s: State, event: Event)
    requires GoneLast(s)
    requires event.HandleGone? ==>
      event.handle < s.nextId && event.handle !in s.files && AllSettled(s.log, s.ledger.accepted, event.handle)
    ensures GoneLast(Emit(s, event))
  {
    var log := s.log + [event];
    forall i | 0 <= i < |log| && log[i].HandleGone?
      ensures log[i].handle < s.nextId && log[i].handle !in s.files
        && AllSettled(log[..i], s.ledger.accepted, log[i].handle)
    {
      if i < |s.log| {
        assert log[i] == s.log[i] && log[..i] == s.log[..i];
      } else {
        assert log[..i] == s.log;
      }
    }
  }

  lemma EmitHonest(s: State, event: Event)
    requires ResultsHonest(s)
    requires event.Settled? && event.id in s.ledger.accepted ==>
      Honest(s.ledger.accepted[event.id], ChunksOf(s.ledger.chunks, event.id), event.result)
    requires DoomSaid(s.ledger.accepted, s.trace, event) && Earned(s.ledger.accepted, s.ledger.chunks, s.trace, event)
    ensures ResultsHonest(Emit(s, event))
  {}

  lemma NoteCalls(s: State, hand: Hand, event: Event)
    requires CallsInv(s, hand) && event.Closed?
    ensures CallsInv(Emit(s, event), hand)
  {
    forall x: Id ensures Calls(Emit(s, event), x) + HandIs(hand, x) == One(1 <= x < s.nextOp) {
      EmitCalls(s, event, x);
      assert Calls(s, x) + HandIs(hand, x) == One(1 <= x < s.nextOp);
    }
  }

  /** Logging something that settles nothing. */
  lemma NoteHist(s: State, hand: Hand, event: Event)
    requires Hist(s, hand) && event.Closed?
    ensures Hist(Emit(s, event), hand)
  {
    hide CallsInv, JobsInv, CancelInv, GoneLast, ResultsHonest;
    NoteCalls(s, hand, event);
    EmitGone(s, event);
    EmitHonest(s, event);
    SameJobs(s, Emit(s, event), hand);
  }

  /** The parts of the invariant that look at no log. */
  lemma SameJobs(s: State, s': State, hand: Hand)
    requires JobsInv(s, hand) && CancelInv(s, hand)
    requires s' == s.(log := s'.log, open := s'.open, tick := s'.tick)
    ensures JobsInv(s', hand) && CancelInv(s', hand)
  {
    forall x: Id ensures Elsewhere(s', x) == Elsewhere(s, x) && Opening(s', x) == Opening(s, x) {}
  }

  lemma CloseRawHist(k: Kernel, s: State, fd: Fd, hand: Hand)
    requires Hist(s, hand)
    ensures Hist(CloseRaw(k, s, fd), hand)
  {
    hide CallsInv, JobsInv, CancelInv;
    var s1 := Emit(s, Closed(fd, fd in s.open));
    NoteHist(s, hand, Closed(fd, fd in s.open));
    SameCalls(s1, CloseRaw(k, s, fd), hand);
    SameJobs(s1, CloseRaw(k, s, fd), hand);
  }

  lemma SameCalls(s: State, s': State, hand: Hand)
    requires CallsInv(s, hand)
    requires s' == s.(tick := s'.tick, open := s'.open, trace := s'.trace, firsts := s'.firsts, dropped := s'.dropped,
                      pendingOpens := s'.pendingOpens, cancelledOpens := s'.cancelledOpens,
                      clientsGone := s'.clientsGone, disconnected := s'.disconnected)
    ensures CallsInv(s', hand)
  {
    forall x: Id ensures Calls(s', x) + HandIs(hand, x) == One(1 <= x < s'.nextOp) {
      assert Calls(s, x) + HandIs(hand, x) == One(1 <= x < s.nextOp);
    }
  }

  lemma TickHist(s: State, hand: Hand)
    requires Hist(s, hand)
    ensures Hist(Ticked(s), hand)
  {
    SameCalls(s, Ticked(s), hand);
    SameJobs(s, Ticked(s), hand);
  }

  lemma SendCloseHist(s: State, fd: Fd, hand: Hand)
    requires Hist(s, hand)
    ensures Hist(s.(toHelpers := s.toHelpers + [CloseJob(fd)]), hand)
  {
    var r := s.(toHelpers := s.toHelpers + [CloseJob(fd)]);
    forall x: Id
      ensures Calls(r, x) == Calls(s, x) && Elsewhere(r, x) == Elsewhere(s, x) && Opening(r, x) == Opening(s, x)
    {
      SumSnoc(s.toHelpers, CloseJob(fd), HelperIs(x));
    }
    forall x: Id ensures Calls(r, x) + HandIs(hand, x) == One(1 <= x < r.nextOp) {
      assert Calls(s, x) + HandIs(hand, x) == One(1 <= x < s.nextOp);
    }
  }

  lemma CloseOwnedHist(k: Kernel, s: State, fd: Fd, hand: Hand)
    requires Hist(s, hand)
    ensures Hist(CloseOwned(k, s, fd), hand)
  {
    TickHist(s, hand);
    SendCloseHist(Ticked(s), fd, hand);
    CloseRawHist(k, Ticked(s), fd, hand);
  }

  function HandId(hand: Hand): Id
    requires !hand.Nothing?
  {
    if hand.Fresh? then hand.id else hand.job.id
  }

  lemma AnswerCalls(s: State, hand: Hand, event: Event)
    requires CallsInv(s, hand) && !hand.Nothing? && !event.Closed? && event.id == HandId(hand)
    ensures CallsInv(Emit(s, event), Nothing)
  {
    var r := Emit(s, event);
    forall x: Id ensures Calls(r, x) + HandIs(Nothing, x) == One(1 <= x < r.nextOp) {
      EmitCalls(s, event, x);
      assert Calls(s, x) + HandIs(hand, x) == One(1 <= x < s.nextOp);
    }
  }

  lemma AnswerJobs(s: State, hand: Hand, event: Event)
    requires JobsInv(s, hand) && CancelInv(s, hand)
    ensures JobsInv(Emit(s, event), Nothing) && CancelInv(Emit(s, event), Nothing)
  {
    SameJobs(s, Emit(s, event), hand);
  }

  /** The callback in hand is invoked. */
  lemma AnswerHist(s: State, hand: Hand, event: Event)
    requires Hist(s, hand) && (hand.Ending? || hand.Fresh?) && !event.Closed? && event.id == HandId(hand)
    requires hand.Ending? ==> event.result == hand.result
    requires hand.Fresh? ==> (Doomed(hand.id) in s.trace <==> event == Settled(hand.id, Err(Cancelled)))
    requires event.HandleGone? ==>
      event.handle < s.nextId && event.handle !in s.files && AllSettled(s.log, s.ledger.accepted, event.handle)
    ensures Hist(Emit(s, event), Nothing)
  {
    hide CallsInv, CancelInv, GoneLast, ResultsHonest, Honest, Elsewhere, AllSettled;
    AnswerCalls(s, hand, event);
    EmitGone(s, event);
    EmitHonest(s, event);
    AnswerJobs(s, hand, event);
    hide JobsInv;
  }

  lemma SettleHist(s: State, hand: Hand, result: Result)
    requires Hist(s, hand) && (hand.Ending? || hand.Fresh?)
    requires hand.Ending? ==> result == hand.result
    requires hand.Fresh? ==> (Doomed(hand.id) in s.trace <==> result == Err(Cancelled))
    ensures Hist(Emit(s, Settled(HandId(hand), result)), Nothing)
  {
    hide Hist;
    AnswerHist(s, hand, Settled(HandId(hand), result));
  }

  /** The parts of the invariant that look at the handle table only through
      the deferred closes. */
  lemma FilesJobs(s: State, files: map<Handle, Entry>, nextId: nat, hand: Hand)
    requires JobsInv(s, hand) && CancelInv(s, hand)
    requires forall x: Id :: x in s.ledger.accepted || Doomed(x) in s.trace ==>
      |ClosingAt(files, x)| <= |ClosingAt(s.files, x)|
    ensures JobsInv(s.(files := files, nextId := nextId), hand)
    ensures CancelInv(s.(files := files, nextId := nextId), hand)
  {
    var r := s.(files := files, nextId := nextId);
    forall x: Id ensures Opening(r, x) == Opening(s, x) {}
    forall x | x in s.ledger.accepted ensures Elsewhere(r, x) == 0 { assert Elsewhere(s, x) == 0; }
  }

  lemma FilesGone(s: State, files: map<Handle, Entry>, nextId: nat)
    requires GoneLast(s) && nextId >= s.nextId
    requires forall h :: h in files ==> h in s.files || h >= s.nextId
    ensures GoneLast(s.(files := files, nextId := nextId))
  {}

  lemma CountCalls(s: State, h: Handle, entry: Entry, hand: Hand)
    requires CallsInv(s, hand) && h in s.files && entry.closing == s.files[h].closing
    ensures CallsInv(s.(files := s.files[h := entry]), hand)
  {
    var r := s.(files := s.files[h := entry]);
    forall x: Id ensures Calls(r, x) + HandIs(hand, x) == One(1 <= x < r.nextOp) {
      ClosingUpdate(s.files, h, entry, x);
      assert Calls(s, x) + HandIs(hand, x) == One(1 <= x < s.nextOp);
    }
  }

  /** An entry changes its count only. */
  lemma CountHist(s: State, h: Handle, entry: Entry, hand: Hand)
    requires Hist(s, hand) && h in s.files && entry.closing == s.files[h].closing
    ensures Hist(s.(files := s.files[h := entry]), hand)
  {
    hide CallsInv, JobsInv, CancelInv, GoneLast;
    var r := s.(files := s.files[h := entry]);
    CountCalls(s, h, entry, hand);
    forall x: Id ensures |ClosingAt(r.files, x)| <= |ClosingAt(s.files, x)| {
      ClosingUpdate(s.files, h, entry, x);
    }
    FilesJobs(s, r.files, s.nextId, hand);
    FilesGone(s, r.files, s.nextId);
  }

  /** A job stays on the handle it was accepted on. */
  lemma KnownHandle(s: State, job: Job)
    requires Known(s.ledger.accepted, s.ledger.chunks, job)
    ensures job.work.handle == s.ledger.accepted[job.id].handle
  {
    ReplayIsUnderWay(s.ledger.accepted[job.id], ChunksOf(s.ledger.chunks, job.id));
  }

  /** A settled or working op, seen from its job's handle: where no job is on
      the handle, all accepted on it have settled. */
  lemma NoneLeft(s: State, hand: Hand, h: Handle)
    requires Hist(s, hand) && (hand.Nothing? || hand.Fresh?) && JobsOn(s, h) == 0
    ensures AllSettled(s.log, s.ledger.accepted, h)
  {
    NoJobOn(s, h);
    forall x | x in s.ledger.accepted && s.ledger.accepted[x].handle == Some(h) ensures SettledIn(s.log, x) > 0 {
      assert Elsewhere(s, x) == 0;
      assert Calls(s, x) + HandIs(hand, x) == One(1 <= x < s.nextOp);
      forall i | 0 <= i < |s.queue| ensures JobIs(x)(s.queue[i]) == 0 {
        assert Known(s.ledger.accepted, s.ledger.chunks, s.queue[i]);
        KnownHandle(s, s.queue[i]);
      }
      SumZero(s.queue, JobIs(x));
      forall i | 0 <= i < |s.inflight| ensures FlightIs(x)(s.inflight[i]) == 0 {
        assert Known(s.ledger.accepted, s.ledger.chunks, s.inflight[i].job);
        KnownHandle(s, s.inflight[i].job);
      }
      SumZero(s.inflight, FlightIs(x));
    }
  }

  /** What is in hand once an entry has gone: the callback of its deferred
      close, if there is one. */
  function HandAfter(entry: Entry, hand: Hand): Hand {
    if entry.closing.Some? then Fresh(entry.closing.value) else hand
  }

  lemma RemoveEntryCalls(s: State, h: Handle, hand: Hand)
    requires CallsInv(s, hand) && h in s.files
    requires s.files[h].closing.Some? ==> hand.Nothing?
    ensures CallsInv(s.(files := s.files - {h}), HandAfter(s.files[h], hand))
  {
    var r := s.(files := s.files - {h});
    forall x: Id ensures Calls(r, x) + HandIs(HandAfter(s.files[h], hand), x) == One(1 <= x < r.nextOp) {
      ClosingRemove(s.files, h, x);
      assert Calls(s, x) + HandIs(hand, x) == One(1 <= x < s.nextOp);
    }
  }

  lemma RemoveEntryJobs(s: State, h: Handle, hand: Hand)
    requires JobsInv(s, hand) && CancelInv(s, hand) && h in s.files
    requires s.files[h].closing.Some? ==> hand.Nothing?
    ensures JobsInv(s.(files := s.files - {h}), HandAfter(s.files[h], hand))
    ensures CancelInv(s.(files := s.files - {h}), HandAfter(s.files[h], hand))
  {
    forall x: Id ensures |ClosingAt(s.files - {h}, x)| <= |ClosingAt(s.files, x)| {
      ClosingRemove(s.files, h, x);
    }
    FilesJobs(s, s.files - {h}, s.nextId, hand);
    if s.files[h].closing.Some? {
      var id := s.files[h].closing.value;
      ClosingRemove(s.files, h, id);
      assert id in s.ledger.accepted ==> Elsewhere(s, id) == 0;
    }
  }

  /** A handle's entry goes; the callback of its deferred close, if there is
      one, comes into hand. */
  lemma RemoveEntryHist(s: State, h: Handle, hand: Hand)
    requires Hist(s, hand) && h in s.files
    requires s.files[h].closing.Some? ==> hand.Nothing?
    ensures Hist(s.(files := s.files - {h}), HandAfter(s.files[h], hand))
  {
    RemoveEntryCalls(s, h, hand);
    RemoveEntryJobs(s, h, hand);
    FilesGone(s, s.files - {h}, s.nextId);
  }

  lemma SettledMore(log: seq<Event>, event: Event, accepted: map<Id, SoundWork>, h: Handle)
    requires AllSettled(log, accepted, h)
    ensures AllSettled(log + [event], accepted, h)
  {
    forall x | x in accepted && accepted[x].handle == Some(h) ensures SettledIn(log + [event], x) > 0 {
      SumSnoc(log, event, SettledIs(x));
    }
  }

  lemma CloseRawIs(k: Kernel, s: State, fd: Fd)
    ensures var r := CloseRaw(k, s, fd);
      r == s.(log := s.log + [Closed(fd, fd in s.open)], open := r.open, tick := r.tick)
  {}

  /** A close that waits was not cancelled: nothing cancels a close. */
  lemma ClosingIsUndoomed(s: State, h: Handle, hand: Hand)
    requires CancelInv(s, hand) && h in s.files && s.files[h].closing.Some?
    ensures Doomed(s.files[h].closing.value) !in s.trace
  {
    ClosingRemove(s.files, h, s.files[h].closing.value);
  }

  /** The close of a handle no job is on. */
  lemma CloseHandleHist(k: Kernel, s: State, h: Handle, id: Id, hand: Hand)
    requires Hist(s, hand) && h in s.files && h < s.nextId && JobsOn(s, h) == 0
    requires if s.files[h].closing.Some? then hand.Nothing? && s.files[h].closing.value == id
      else hand == Fresh(id) && Doomed(id) !in s.trace
    ensures Hist(CloseHandle(k, s, h, s.files[h].fd, id), Nothing)
  {
    hide CallsInv, JobsInv, CancelInv, GoneLast, ResultsHonest, FifoInv, AllSettled, CloseRaw;
    var fd := s.files[h].fd;
    var s1 := s.(files := s.files - {h});
    if s.files[h].closing.Some? { ClosingIsUndoomed(s, h, hand); }
    hide Hist;
    CloseRawIs(k, s1, fd);
    NoneLeft(s, hand, h);
    RemoveEntryHist(s, h, hand);
    CloseRawHist(k, s1, fd, Fresh(id));
    var s2 := CloseRaw(k, s1, fd);
    SettledMore(s.log, Closed(fd, fd in s1.open), s.ledger.accepted, h);
    AnswerHist(s2, Fresh(id), HandleGone(h, id, CloseResult(k, s1, fd)));
  }

  /** One job less on a handle. */
  lemma ReleaseHist(k: Kernel, s: State, h: Handle)
    requires Hist(s, Nothing) && h in s.files && h < s.nextId
    requires s.files[h].ops <= 1 ==> JobsOn(s, h) == 0
    ensures Hist(Release(k, s, h), Nothing)
  {
    var entry := s.files[h].(ops := s.files[h].ops - 1);
    if entry.ops > 0 || entry.closing.None? {
      CountHist(s, h, entry, Nothing);
    } else {
      CloseHandleHist(k, s, h, entry.closing.value, Nothing);
    }
  }

  /** A job comes to its end. */
  lemma FinishHist(k: Kernel, s: State, job: Job, result: Result)
    requires Hist(s, Ending(job, result)) && OwnInv(s, Some(job))
    ensures Hist(Finish(k, s, job, result), Nothing)
  {
    hide Hist, Release, CloseOwned;
    if job.work.owned {
      CloseOwnedFiles(k, s, job.work.fd);
      CloseOwnedHist(k, s, job.work.fd, Ending(job, result));
      SettleHist(CloseOwned(k, s, job.work.fd), Ending(job, result), result);
    } else {
      SettleHist(s, Ending(job, result), result);
      var h := job.work.handle.value;
      CountedAlone(s, Some(job), h);
      ReleaseHist(k, Emit(s, Settled(job.id, result)), h);
    }
  }

  lemma CloseOwnedFiles(k: Kernel, s: State, fd: Fd)
    ensures CloseOwned(k, s, fd).files == s.files
  {}

  // ---------------------------------------------------------------------
  // Submitting
  // ---------------------------------------------------------------------

  lemma GrowHonest(s: State, touch: Touch)
    requires ResultsHonest(s) && !touch.Doomed?
    ensures ResultsHonest(Touched(s, touch))
  {
    hide Honest, Completes;
    var r := Touched(s, touch);
    forall i | 0 <= i < |s.log|
      ensures DoomSaid(r.ledger.accepted, r.trace, s.log[i])
      ensures Earned(r.ledger.accepted, r.ledger.chunks, r.trace, s.log[i])
    {
      assert Earned(s.ledger.accepted, s.ledger.chunks, s.trace, s.log[i]);
    }
  }

  /** The kernel's error is recorded. */
  lemma FaultHist(s: State, touch: Touch, hand: Hand)
    requires Hist(s, hand) && !hand.Ending? && (touch.Failure? || touch.Refusal?)
    ensures Hist(Touched(s, touch), hand)
    ensures forall x: Id :: Doomed(x) in Touched(s, touch).trace <==> Doomed(x) in s.trace
  {
    hide CallsInv, JobsInv, CancelInv, MarksSaid, ResultsHonest, AllSettled, Waiting, Without;
    SameCalls(s, Touched(s, touch), hand);
    GrowHonest(s, touch);
    FaultJobs(s, touch, hand);
  }

  lemma FaultJobs(s: State, touch: Touch, hand: Hand)
    requires JobsInv(s, hand) && CancelInv(s, hand) && MarksSaid(s)
    requires !hand.Ending? && (touch.Failure? || touch.Refusal?)
    ensures var r := Touched(s, touch); JobsInv(r, hand) && CancelInv(r, hand) && MarksSaid(r)
  {
    hide Known, Honest, Earned;
    var r := Touched(s, touch);
    forall x: Id ensures Elsewhere(r, x) == Elsewhere(s, x) && Opening(r, x) == Opening(s, x) {}
    hide Elsewhere, Opening;
  }

  lemma IssueRest(s: State, job: Job)
    requires Hist(s, Holding(job))
    ensures var r := Touched(s, Issued(job.id));
      CallsInv(r, Holding(job)) && JobsInv(r, Holding(job)) && GoneLast(r) && ResultsHonest(r) && FifoInv(r)
        && SlotsInv(r)
  {
    hide CancelInv;
    var r := Touched(s, Issued(job.id));
    SameCalls(s, r, Holding(job));
    GrowHonest(s, Issued(job.id));
    hide ResultsHonest;
    forall x: Id ensures Elsewhere(r, x) == Elsewhere(s, x) {}
  }

  /** A chunk of an op nobody has cancelled. */
  lemma IssueHist(s: State, job: Job)
    requires Hist(s, Holding(job)) && Doomed(job.id) !in s.trace
    ensures Hist(Touched(s, Issued(job.id)), Holding(job))
    ensures Doomed(job.id) !in Touched(s, Issued(job.id)).trace
  {
    hide SlotsInv, FifoInv, GoneLast, ResultsHonest, CallsInv, JobsInv;
    var r := Touched(s, Issued(job.id));
    IssueRest(s, job);
    forall x: Id ensures Opening(r, x) == Opening(s, x) {}
    forall i | 0 <= i < |s.trace| && s.trace[i].Doomed? ensures s.trace[i].id != job.id {
      assert s.trace[i] == Doomed(s.trace[i].id);
    }
  }

  /** A job that has no result yet ends with an error that is due. */
  lemma FailHist(s: State, job: Job, error: Error)
    requires Hist(s, Holding(job)) && Excused(s.trace, job.id, error)
    ensures Hist(s, Ending(job, Err(error)))
  {
    forall x: Id ensures Calls(s, x) + HandIs(Ending(job, Err(error)), x) == One(1 <= x < s.nextOp) {
      assert Calls(s, x) + HandIs(Holding(job), x) == One(1 <= x < s.nextOp);
    }
  }

  /** The callback of the job in hand is in no container and was not invoked. */
  lemma HandAlone(s: State, job: Job)
    requires CallsInv(s, Holding(job))
    ensures forall i :: 0 <= i < |s.queue| ==> s.queue[i].id != job.id
    ensures forall i :: 0 <= i < |s.inflight| ==> s.inflight[i].job.id != job.id
    ensures forall i :: 0 <= i < |s.log| && s.log[i].Settled? ==> s.log[i].id != job.id
  {
    assert Calls(s, job.id) + HandIs(Holding(job), job.id) == One(1 <= job.id < s.nextOp);
    forall i | 0 <= i < |s.queue| ensures s.queue[i].id != job.id { SumAtLeast(s.queue, i, JobIs(job.id)); }
    forall i | 0 <= i < |s.inflight| ensures s.inflight[i].job.id != job.id {
      SumAtLeast(s.inflight, i, FlightIs(job.id));
    }
    forall i | 0 <= i < |s.log| && s.log[i].Settled? ensures s.log[i].id != job.id {
      SumAtLeast(s.log, i, SettledIs(job.id));
    }
  }

  /** What the kernel has returned for the job in hand. */
  function HandNext(job: Job, m: Moved, look: Look): Hand
    requires Legal(job.work, m)
  {
    match After(job.work, m, look)
    case Done(result) => Ending(job, result)
    case More(work) => Holding(job.(work := work))
  }

  lemma RecordCalls(s: State, job: Job, m: Moved, look: Look)
    requires CallsInv(s, Holding(job)) && Legal(job.work, m)
    ensures CallsInv(Recorded(s, job.id, Chunk(m, look)), HandNext(job, m, look))
  {
    var r := Recorded(s, job.id, Chunk(m, look));
    forall x: Id ensures Calls(r, x) + HandIs(HandNext(job, m, look), x) == One(1 <= x < r.nextOp) {
      assert Calls(s, x) + HandIs(Holding(job), x) == One(1 <= x < s.nextOp);
    }
  }

  /** What is returned for one op leaves the jobs of the others as they were. */
  lemma RecordOthers(s: State, job: Job, chunk: Chunk)
    requires CallsInv(s, Holding(job)) && JobsInv(s, Holding(job))
    ensures var r := Recorded(s, job.id, chunk);
      && (forall i :: 0 <= i < |r.queue| ==> Known(r.ledger.accepted, r.ledger.chunks, r.queue[i]))
      && (forall i :: 0 <= i < |r.inflight| ==> Known(r.ledger.accepted, r.ledger.chunks, r.inflight[i].job))
  {
    hide Runs, Replay, Elsewhere, Honest;
    HandAlone(s, job);
    hide CallsInv;
    var r := Recorded(s, job.id, chunk);
    forall i | 0 <= i < |r.queue| ensures Known(r.ledger.accepted, r.ledger.chunks, r.queue[i]) {
      assert Known(s.ledger.accepted, s.ledger.chunks, s.queue[i]);
    }
    forall i | 0 <= i < |r.inflight| ensures Known(r.ledger.accepted, r.ledger.chunks, r.inflight[i].job) {
      assert Known(s.ledger.accepted, s.ledger.chunks, s.inflight[i].job);
    }
  }

  lemma RecordHand(s: State, job: Job, m: Moved, look: Look)
    requires Known(s.ledger.accepted, s.ledger.chunks, job) && Legal(job.work, m)
    ensures HandFits(Recorded(s, job.id, Chunk(m, look)).ledger, s.trace, HandNext(job, m, look))
  {
    hide Runs, Replay, After;
    ReplaySnoc(s.ledger.accepted[job.id], ChunksOf(s.ledger.chunks, job.id), Chunk(m, look));
  }

  lemma RecordJobs(s: State, job: Job, m: Moved, look: Look)
    requires CallsInv(s, Holding(job)) && JobsInv(s, Holding(job)) && Legal(job.work, m)
    ensures JobsInv(Recorded(s, job.id, Chunk(m, look)), HandNext(job, m, look))
  {
    RecordOthers(s, job, Chunk(m, look));
    assert Known(s.ledger.accepted, s.ledger.chunks, job);
    RecordHand(s, job, m, look);
    hide CallsInv, Known, HandFits, HandNext;
    forall x: Id ensures Elsewhere(Recorded(s, job.id, Chunk(m, look)), x) == Elsewhere(s, x) {}
    hide Elsewhere;
  }

  lemma RecordHonest(s: State, job: Job, chunk: Chunk)
    requires CallsInv(s, Holding(job)) && ResultsHonest(s)
    ensures ResultsHonest(Recorded(s, job.id, chunk))
  {
    HandAlone(s, job);
    hide CallsInv, Honest;
  }

  lemma RecordCancel(s: State, job: Job, m: Moved, look: Look)
    requires CancelInv(s, Holding(job)) && Legal(job.work, m)
    ensures CancelInv(Recorded(s, job.id, Chunk(m, look)), HandNext(job, m, look))
  {
    forall x: Id ensures Opening(Recorded(s, job.id, Chunk(m, look)), x) == Opening(s, x) {}
  }

  /** The kernel has returned one more chunk for the job in hand: it goes on with
      what the chunk makes of it, or has its result. */
  lemma RecordHist(s: State, job: Job, m: Moved, look: Look)
    requires Hist(s, Holding(job)) && Legal(job.work, m)
    ensures Hist(Recorded(s, job.id, Chunk(m, look)), HandNext(job, m, look))
  {
    RecordCalls(s, job, m, look);
    RecordJobs(s, job, m, look);
    RecordHonest(s, job, Chunk(m, look));
    RecordCancel(s, job, m, look);
    hide CallsInv, JobsInv, CancelInv, ResultsHonest, HandNext;
  }

  lemma IssueBoth(s: State, job: Job)
    requires Hist(s, Holding(job)) && OwnInv(s, Some(job)) && Doomed(job.id) !in s.trace
    ensures var r := Ticked(Touched(s, Issued(job.id)));
      Hist(r, Holding(job)) && OwnInv(r, Some(job)) && Doomed(job.id) !in r.trace
  {
    IssueHist(s, job);
    TickHist(Touched(s, Issued(job.id)), Holding(job));
    SameHand(s, Ticked(Touched(s, Issued(job.id))), job, job);
  }

  /** The job as the chunk leaves it, or as it was if the chunk ends it. */
  function NextOf(job: Job, m: Moved, look: Look): Job
    requires Legal(job.work, m)
  {
    match After(job.work, m, look)
    case Done(_) => job
    case More(work) => job.(work := work)
  }

  lemma RecordBoth(s: State, job: Job, m: Moved, look: Look)
    requires Hist(s, Holding(job)) && OwnInv(s, Some(job)) && Legal(job.work, m)
    ensures var r := Recorded(s, job.id, Chunk(m, look));
      Hist(r, HandNext(job, m, look)) && OwnInv(r, Some(NextOf(job, m, look)))
  {
    hide Hist;
    RecordHist(s, job, m, look);
    if After(job.work, m, look).More? { Progress(job.work, m, look); }
    SameHand(s, Recorded(s, job.id, Chunk(m, look)), job, NextOf(job, m, look));
  }

  /** The kernel has refused the job in hand, or a plain call for it failed. */
  lemma RefuseHist(k: Kernel, s: State, job: Job, code: int)
    requires Hist(s, Holding(job)) && OwnInv(s, Some(job))
    ensures Hist(Finish(k, Touched(s, Refusal(job.id, code)), job, Err(Os(code))), Nothing)
  {
    hide Hist;
    var s1 := Touched(s, Refusal(job.id, code));
    FaultHist(s, Refusal(job.id, code), Holding(job));
    SameHand(s, s1, job, job);
    FailHist(s1, job, Os(code));
    FinishHist(k, s1, job, Err(Os(code)));
  }

  lemma {:induction false} ExecuteSyncHist(k: Kernel, s: State, job: Job)
    requires Hist(s, Holding(job)) && OwnInv(s, Some(job)) && Doomed(job.id) !in s.trace
    ensures Hist(ExecuteSync(k, s, job), Nothing)
    decreases Growable(job.work), Remaining(job.work)
  {
    hide Hist, OwnInv, Finish;
    var a := k(s.tick);
    var s1 := Ticked(Touched(s, Issued(job.id)));
    IssueBoth(s, job);
    if a.failed.Some? {
      RefuseHist(k, s1, job, a.failed.value);
    } else {
      var m := Clamp(job.work, a.moved);
      var s2 := Recorded(s1, job.id, Chunk(m, a.look));
      RecordBoth(s1, job, m, a.look);
      match After(job.work, m, a.look)
      case Done(result) => FinishHist(k, s2, job, result);
      case More(work) =>
        Progress(job.work, m, a.look);
        ExecuteSyncHist(k, s2, job.(work := work));
    }
  }

  lemma TakenCallsInv(s: State, job: Job)
    requires CallsInv(s, Holding(job))
    ensures CallsInv(s.(inflight := s.inflight + [Flight(job, None)]), Nothing)
  {
    var r := s.(inflight := s.inflight + [Flight(job, None)]);
    forall x: Id ensures Calls(r, x) + HandIs(Nothing, x) == One(1 <= x < r.nextOp) {
      assert Calls(s, x) + HandIs(Holding(job), x) == One(1 <= x < s.nextOp);
      SumSnoc(s.inflight, Flight(job, None), FlightIs(x));
    }
  }

  lemma TakenJobs(s: State, job: Job)
    requires JobsInv(s, Holding(job)) && CancelInv(s, Holding(job)) && Doomed(job.id) !in s.trace
    ensures var r := s.(inflight := s.inflight + [Flight(job, None)]);
      JobsInv(r, Nothing) && CancelInv(r, Nothing)
  {
    var r := s.(inflight := s.inflight + [Flight(job, None)]);
    hide Known, Honest;
    forall x: Id ensures Elsewhere(r, x) == Elsewhere(s, x) && Opening(r, x) == Opening(s, x) {}
    hide Elsewhere, Opening;
  }

  lemma TakenHist(s: State, job: Job)
    requires Hist(s, Holding(job)) && Doomed(job.id) !in s.trace && job.id in s.firsts && !job.cancelled
    requires |s.inflight| < s.maxInflight
    ensures Hist(Touched(s, Issued(job.id)).(inflight := s.inflight + [Flight(job, None)]), Nothing)
  {
    hide CallsInv, JobsInv, CancelInv, AllSettled, Honest, Waiting, Without;
    IssueHist(s, job);
    TakenCallsInv(Touched(s, Issued(job.id)), job);
    TakenJobs(Touched(s, Issued(job.id)), job);
  }

  lemma SubmitJobHist(k: Kernel, s: State, job: Job)
    requires !IsFull(k, s) && |s.inflight| < s.maxInflight
    requires Hist(WithFirst(Ticked(s), job.id), Holding(job)) && OwnInv(s, Some(job))
    requires Doomed(job.id) !in s.trace && !job.cancelled
    ensures Hist(SubmitJob(k, s, job), Nothing)
  {
    var s1 := WithFirst(Ticked(s), job.id);
    SameHand(s, s1, job, job);
    match k(s.tick).accept
    case Taken => TakenHist(s1, job);
    case Again => ExecuteSyncHist(k, s1, job);
    case Refused(code) => RefuseHist(k, s1, job, code);
  }

  lemma {:induction false} WaitingSame(queue: seq<Job>, firsts: seq<Id>, id: Id)
    requires forall i :: 0 <= i < |queue| ==> queue[i].id != id
    ensures Waiting(queue, firsts + [id]) == Waiting(queue, firsts)
    decreases |queue|
  {
    if queue != [] {
      assert queue[0].id in firsts + [id] <==> queue[0].id in firsts;
      WaitingSame(queue[1..], firsts, id);
    }
  }

  /** No other queued job has the id of the first one. */
  lemma OnlyOnce(s: State, i: nat, j: nat)
    requires CallsInv(s, Nothing) && i < |s.queue| && j < |s.queue| && i != j
    ensures s.queue[i].id != s.queue[j].id
  {
    var x := s.queue[i].id;
    assert Calls(s, x) + HandIs(Nothing, x) == One(1 <= x < s.nextOp);
    SumRemove(s.queue, i, JobIs(x));
    var rest := s.queue[..i] + s.queue[i + 1..];
    var k := if j < i then j else j - 1;
    assert rest[k] == s.queue[j];
    SumAtLeast(rest, k, JobIs(x));
  }

  lemma PopFifo(s: State)
    requires CallsInv(s, Nothing) && FifoInv(s) && s.queue != []
    requires s.queue[0].id in s.arrivals
    ensures FifoInv(WithFirst(Ticked(s.(queue := s.queue[1..])), s.queue[0].id))
  {
    var id := s.queue[0].id;
    var rest := s.queue[1..];
    if id !in s.firsts {
      forall i | 0 <= i < |rest| ensures rest[i].id != id && rest[i].id !in s.firsts {
        OnlyOnce(s, 0, i + 1);
        assert rest[i] == s.queue[i + 1];
      }
      WaitingSame(rest, s.firsts, id);
      assert s.firsts + ([id] + Waiting(rest, s.firsts)) == s.firsts + [id] + Waiting(rest, s.firsts);
    } else {
      forall i, j | 0 <= i < j < |rest| && rest[j].id in s.firsts ensures rest[i].id in s.firsts {
        assert rest[i] == s.queue[i + 1] && rest[j] == s.queue[j + 1];
      }
    }
  }

  lemma PopCalls(s: State)
    requires CallsInv(s, Nothing) && s.queue != []
    ensures CallsInv(s.(queue := s.queue[1..]), Holding(s.queue[0]))
  {
    var r := s.(queue := s.queue[1..]);
    forall x: Id ensures Calls(r, x) + HandIs(Holding(s.queue[0]), x) == One(1 <= x < r.nextOp) {
      assert Calls(s, x) + HandIs(Nothing, x) == One(1 <= x < s.nextOp);
    }
  }

  lemma PopJobs(s: State)
    requires JobsInv(s, Nothing) && CancelInv(s, Nothing) && s.queue != []
    ensures var r := s.(queue := s.queue[1..]);
      JobsInv(r, Holding(s.queue[0])) && CancelInv(r, Holding(s.queue[0]))
  {
    var r := s.(queue := s.queue[1..]);
    hide Known, Honest;
    forall x: Id ensures Elsewhere(r, x) == Elsewhere(s, x) && Opening(r, x) == Opening(s, x) {}
    hide Elsewhere, Opening;
  }

  lemma FrontIsReady(s: State)
    requires JobsInv(s, Nothing) && CancelInv(s, Nothing) && s.queue != []
    ensures !s.queue[0].cancelled && Doomed(s.queue[0].id) !in s.trace && s.queue[0].id in s.arrivals
  {
    assert Known(s.ledger.accepted, s.ledger.chunks, s.queue[0]);
  }

  lemma PopLog(s: State)
    requires GoneLast(s) && ResultsHonest(s) && SlotsInv(s) && s.queue != []
    ensures var r := WithFirst(Ticked(s.(queue := s.queue[1..])), s.queue[0].id);
      GoneLast(r) && ResultsHonest(r) && SlotsInv(r)
  {
    hide AllSettled, Honest;
  }

  lemma PopHist(s: State)
    requires Hist(s, Nothing) && s.queue != []
    ensures Hist(WithFirst(Ticked(s.(queue := s.queue[1..])), s.queue[0].id), Holding(s.queue[0]))
    ensures !s.queue[0].cancelled && Doomed(s.queue[0].id) !in s.trace
  {
    hide CallsInv, JobsInv, CancelInv, GoneLast, ResultsHonest, FifoInv, SlotsInv;
    FrontIsReady(s);
    PopFifo(s);
    PopCalls(s);
    PopJobs(s);
    PopLog(s);
    var s1 := s.(queue := s.queue[1..]);
    var r := WithFirst(Ticked(s1), s.queue[0].id);
    SameCalls(s1, r, Holding(s.queue[0]));
    SameJobsToo(s1, r, Holding(s.queue[0]));
  }

  lemma SameJobsToo(s: State, s': State, hand: Hand)
    requires JobsInv(s, hand) && CancelInv(s, hand)
    requires s' == s.(tick := s'.tick, firsts := s'.firsts, dropped := s'.dropped,
                      clientsGone := s'.clientsGone, disconnected := s'.disconnected)
    ensures JobsInv(s', hand) && CancelInv(s', hand)
  {
    forall x: Id ensures Elsewhere(s', x) == Elsewhere(s, x) && Opening(s', x) == Opening(s, x) {}
  }

  lemma {:induction false} SubmitReadyHist(k: Kernel, s: State)
    requires Hist(s, Nothing) && OwnInv(s, None)
    ensures Hist(SubmitReady(k, s), Nothing)
    decreases |s.queue|
  {
    if |s.inflight| >= s.maxInflight || s.queue == [] {
    } else if IsFull(k, s) {
      TickHist(s, Nothing);
    } else {
      var s1 := s.(queue := s.queue[1..]);
      PopHist(s);
      PopOwn(s);
      SubmitJobHist(k, s1, s.queue[0]);
      SubmitJobOwn(k, s1, s.queue[0]);
      SubmitReadyHist(k, SubmitJob(k, s1, s.queue[0]));
    }
  }

  // ---------------------------------------------------------------------
  // Accepting
  // ---------------------------------------------------------------------

  lemma {:induction false} WithoutAppend(a: seq<Id>, b: seq<Id>, dropped: set<Id>)
    ensures Without(a + b, dropped) == Without(a, dropped) + Without(b, dropped)
    decreases |a|
  {
    if a == [] {
      assert a + b == b;
    } else {
      assert (a + b)[1..] == a[1..] + b;
      WithoutAppend(a[1..], b, dropped);
    }
  }

  lemma {:induction false} WaitingAppend(a: seq<Job>, b: seq<Job>, firsts: seq<Id>)
    ensures Waiting(a + b, firsts) == Waiting(a, firsts) + Waiting(b, firsts)
    decreases |a|
  {
    if a == [] {
      assert a + b == b;
    } else {
      assert (a + b)[1..] == a[1..] + b;
      WaitingAppend(a[1..], b, firsts);
    }
  }

  lemma JobAlone(job: Job, firsts: seq<Id>, dropped: set<Id>)
    ensures Without([job.id], dropped) == if job.id in dropped then [] else [job.id]
    ensures Waiting([job], firsts) == if job.id in firsts then [] else [job.id]
  {
    assert [job.id][1..] == [] && [job][1..] == [];
    assert [job.id] + [] == [job.id];
  }

  lemma AcceptFifo(s: State, job: Job)
    requires FifoInv(s) && job.id !in s.arrivals
    ensures FifoInv(Pushed(Accepted(s, job), job, false))
  {
    hide Without, Waiting;
    var r := Pushed(Accepted(s, job), job, false);
    JobAlone(job, s.firsts, s.dropped);
    WithoutAppend(s.arrivals, [job.id], s.dropped);
    WaitingAppend(s.queue, [job], s.firsts);
    assert s.firsts + Waiting(s.queue, s.firsts) + [job.id] == s.firsts + (Waiting(s.queue, s.firsts) + [job.id]);
  }

  lemma AcceptCalls(s: State, job: Job)
    requires CallsInv(s, Fresh(job.id))
    ensures CallsInv(Pushed(Accepted(s, job), job, false), Nothing)
  {
    var r := Pushed(Accepted(s, job), job, false);
    forall x: Id ensures Calls(r, x) + HandIs(Nothing, x) == One(1 <= x < r.nextOp) {
      AcceptedCalls(s, job, x);
      PushedCalls(Accepted(s, job), job, false, x);
      assert Calls(s, x) + HandIs(Fresh(job.id), x) == One(1 <= x < s.nextOp);
    }
  }

  lemma AcceptElsewhere(s: State, job: Job, x: Id)
    ensures var r := Pushed(Accepted(s, job), job, false);
      && |ClosingAt(r.files, x)| == |ClosingAt(s.files, x)|
      && Elsewhere(r, x) == Elsewhere(s, x) && Opening(r, x) == Opening(s, x)
  {
    if job.work.handle.Some? && job.work.handle.value in s.files {
      var h := job.work.handle.value;
      ClosingUpdate(s.files, h, s.files[h].(ops := s.files[h].ops + 1), x);
    }
  }

  lemma AcceptElsewheres(s: State, job: Job)
    requires Calls(s, job.id) == 0 && 1 <= job.id < s.nextOp && JobsInv(s, Fresh(job.id))
    ensures var r := Pushed(Accepted(s, job), job, false);
      forall x :: x in r.ledger.accepted ==> Elsewhere(r, x) == 0 && 1 <= x < r.nextOp
  {
    var r := Pushed(Accepted(s, job), job, false);
    forall x | x in r.ledger.accepted ensures Elsewhere(r, x) == 0 && 1 <= x < r.nextOp {
      AcceptElsewhere(s, job, x);
      if x != job.id { assert Elsewhere(s, x) == 0; }
    }
  }

  lemma AcceptJobs(s: State, job: Job)
    requires Calls(s, job.id) == 0 && 1 <= job.id < s.nextOp && JobsInv(s, Fresh(job.id))
    ensures JobsInv(Pushed(Accepted(s, job), job, false), Nothing)
  {
    var r := Pushed(Accepted(s, job), job, false);
    AcceptElsewheres(s, job);
    AcceptKnown(s, job);
    hide Elsewhere, Calls, Known;
  }

  lemma AcceptKnown(s: State, job: Job)
    requires JobsInv(s, Fresh(job.id))
    ensures var r := Pushed(Accepted(s, job), job, false);
      && (forall x :: x in r.arrivals <==> x in r.ledger.accepted)
      && (forall i :: 0 <= i < |r.queue| ==> Known(r.ledger.accepted, r.ledger.chunks, r.queue[i]))
      && (forall i :: 0 <= i < |r.inflight| ==> Known(r.ledger.accepted, r.ledger.chunks, r.inflight[i].job))
  {
    hide Elsewhere, Calls;
    var r := Pushed(Accepted(s, job), job, false);
    forall i | 0 <= i < |r.queue| ensures Known(r.ledger.accepted, r.ledger.chunks, r.queue[i]) {
      if i < |s.queue| {
        assert Known(s.ledger.accepted, s.ledger.chunks, s.queue[i]);
      } else {
        assert Replay(job.work, []) == More(job.work);
      }
    }
    forall i | 0 <= i < |r.inflight| ensures Known(r.ledger.accepted, r.ledger.chunks, r.inflight[i].job) {
      assert Known(s.ledger.accepted, s.ledger.chunks, s.inflight[i].job);
    }
  }

  lemma AcceptCancel(s: State, job: Job)
    requires CancelInv(s, Fresh(job.id)) && !job.cancelled && Doomed(job.id) !in s.trace
    ensures CancelInv(Pushed(Accepted(s, job), job, false), Nothing)
  {
    forall x: Id
      ensures var r := Pushed(Accepted(s, job), job, false);
        |ClosingAt(r.files, x)| == |ClosingAt(s.files, x)| && Opening(r, x) == Opening(s, x)
    {
      AcceptElsewhere(s, job, x);
    }
  }

  /** A job accepted on no handle that has gone: its handle is live. */
  lemma AcceptGone(s: State, job: Job)
    requires GoneLast(s) && job.id !in s.ledger.accepted
    requires job.work.handle.Some? ==> job.work.handle.value in s.files
    ensures GoneLast(Pushed(Accepted(s, job), job, false))
  {
    var r := Pushed(Accepted(s, job), job, false);
    forall i | 0 <= i < |s.log| && s.log[i].HandleGone?
      ensures s.log[i].handle !in r.files && AllSettled(s.log[..i], r.ledger.accepted, s.log[i].handle)
    {
      assert AllSettled(s.log[..i], s.ledger.accepted, s.log[i].handle);
    }
  }

  /** An op that has not been a job has not settled either. */
  lemma AcceptHonest(s: State, job: Job)
    requires ResultsHonest(s) && TimesSettled(s, job.id) == 0
    ensures ResultsHonest(Pushed(Accepted(s, job), job, false))
  {
    var r := Accepted(s, job);
    forall i | 0 <= i < |s.log| && s.log[i].Settled? && s.log[i].id in r.ledger.accepted
      ensures Honest(r.ledger.accepted[s.log[i].id], ChunksOf(r.ledger.chunks, s.log[i].id), s.log[i].result)
    {
      SumAtLeast(s.log, i, SettledIs(job.id));
      assert r.ledger.accepted[s.log[i].id] == s.ledger.accepted[s.log[i].id];
    }
    forall i | 0 <= i < |s.log|
      ensures DoomSaid(r.ledger.accepted, r.trace, s.log[i])
      ensures Earned(r.ledger.accepted, r.ledger.chunks, r.trace, s.log[i])
    {
      SumAtLeast(s.log, i, SettledIs(job.id));
      assert DoomSaid(s.ledger.accepted, s.trace, s.log[i]);
      assert Earned(s.ledger.accepted, s.ledger.chunks, s.trace, s.log[i]);
    }
  }

  /** An op in hand that is no job is new to the driver. */
  lemma FreshIsNew(s: State, id: Id)
    requires Hist(s, Fresh(id))
    ensures Calls(s, id) == 0 && TimesSettled(s, id) == 0 && 1 <= id < s.nextOp
    ensures id !in s.arrivals && id !in s.ledger.accepted
  {
    assert Calls(s, id) + HandIs(Fresh(id), id) == One(1 <= id < s.nextOp);
    hide CancelInv, GoneLast, ResultsHonest, FifoInv, SlotsInv;
  }

  lemma AcceptHist(s: State, job: Job)
    requires Hist(s, Fresh(job.id)) && !job.cancelled && Doomed(job.id) !in s.trace
    requires job.work.handle.Some? ==> job.work.handle.value in s.files
    ensures Hist(Pushed(Accepted(s, job), job, false), Nothing)
  {
    hide CallsInv, JobsInv, CancelInv, GoneLast, ResultsHonest, FifoInv, Calls, TimesSettled;
    FreshIsNew(s, job.id);
    AcceptFifo(s, job);
    AcceptCalls(s, job);
    AcceptJobs(s, job);
    AcceptCancel(s, job);
    AcceptGone(s, job);
    AcceptHonest(s, job);
  }

  lemma EnqueueHist(k: Kernel, s: State, id: Id, work: SoundWork)
    requires Hist(s, Fresh(id)) && Doomed(id) !in s.trace
    requires work.handle.Some? ==> work.handle.value in s.files
    requires OwnInv(Pushed(Accepted(s, Job(id, false, work)), Job(id, false, work), false), None)
    ensures Hist(Enqueue(k, s, id, work), Nothing)
  {
    var job := Job(id, false, work);
    AcceptHist(s, job);
    SubmitReadyHist(k, Pushed(Accepted(s, job), job, false));
  }
}
