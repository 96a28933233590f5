/** The doorbell between the threads that complete ops and the loop thread that
    delivers the completions (crates/turbofile-py/src/lib.rs).

    Every lock-protected section and every atomic operation is one step; any
    interleaving of the producers with the one drain is a sequence of steps. */
module Doorbell {
  import opened Basics

  type Thread = nat

  /** Identifies one completion. */
  type Completion = nat

  /** Where the loop thread stands inside one run of the drain callback.
      `Quieting(true)` has already read a byte; `Delivering` holds the batch
      it took and has not delivered yet. */
  datatype DrainPoint =
    | Idle
    | Quieting(read: bool)
    | Taking
    | Delivering(batch: seq<Completion>)
    | Disarming
    | Rechecking
    | Rearming

  /** `swapping` are the threads between their push and their swap of `armed`,
      `ringing` those that saw the idle-to-armed transition and still have to
      write the wake byte. The last five fields are history. */
  datatype Bridge = Bridge(
    capacity: nat,
    queue: seq<Completion>,
    armed: bool,
    pipe: nat,
    swapping: set<Thread>,
    ringing: set<Thread>,
    drain: DrainPoint,
    pushed: seq<Completion>,
    delivered: seq<Completion>,
    written: nat,
    disarms: nat,
    rearms: nat
  )

  datatype Step =
    | Push(t: Thread, c: Completion)
    | Swap(t: Thread)
    | Ring(t: Thread)
    | Wake
    | QuietRead
    | QuietEmpty
    | Take
    | Deliver
    | Disarm
    | Recheck
    | Rearm

  function Init(capacity: nat): Bridge {
    Bridge(capacity, [], false, 0, {}, {}, Idle, [], [], 0, 0, 0)
  }

  /** The most bytes one read of the pipe takes. */
  const SINK := 64

  predicate Enabled(s: Bridge, step: Step) {
    match step
    case Push(t, _) => t !in s.swapping && t !in s.ringing
    case Swap(t) => t in s.swapping
    case Ring(t) => t in s.ringing
    case Wake => s.drain == Idle && s.pipe > 0
    case QuietRead => s.drain.Quieting? && s.pipe > 0
    case QuietEmpty => s.drain.Quieting? && s.pipe == 0
    case Take => s.drain == Taking
    case Deliver => s.drain.Delivering?
    case Disarm => s.drain == Disarming
    case Recheck => s.drain == Rechecking
    case Rearm => s.drain == Rearming
  }

  function Next(s: Bridge, step: Step): Bridge {
    match step
    case Push(t, c) =>
      s.(queue := s.queue + [c], pushed := s.pushed + [c], swapping := s.swapping + {t})
    case Swap(t) =>
      var out := s.(swapping := s.swapping - {t}, armed := true);
      if s.armed then out else out.(ringing := s.ringing + {t})
    case Ring(t) =>
      var out := s.(ringing := s.ringing - {t});
      if s.pipe < s.capacity then out.(pipe := s.pipe + 1, written := s.written + 1) else out
    case Wake => s.(drain := Quieting(false))
    case QuietRead => s.(pipe := s.pipe - Min(SINK, s.pipe), drain := Quieting(true))
    case QuietEmpty => s.(drain := Taking)
    case Take =>
      s.(queue := [], drain := if s.queue == [] then Disarming else Delivering(s.queue))
    case Deliver =>
      if s.drain.Delivering? && s.drain.batch != [] then
        var rest := s.drain.batch[1..];
        s.(delivered := s.delivered + [s.drain.batch[0]],
           drain := if rest == [] then Taking else Delivering(rest))
      else s.(drain := Taking)
    case Disarm => s.(armed := false, disarms := s.disarms + 1, drain := Rechecking)
    case Recheck => s.(drain := if s.queue == [] then Idle else Rearming)
    case Rearm =>
      if s.armed then s.(drain := Idle)
      else s.(armed := true, rearms := s.rearms + 1, drain := Taking)
  }

  /** A run: steps that are not enabled when their turn comes are skipped, so
      every sequence of steps is a run and every run is such a sequence. */
  function Run(s: Bridge, steps: seq<Step>): Bridge
    decreases |steps|
  {
    if steps == [] then s
    else Run(if Enabled(s, steps[0]) then Next(s, steps[0]) else s, steps[1..])
  }

  lemma {:induction false} RunAppend(s: Bridge, a: seq<Step>, b: seq<Step>)
    ensures Run(s, a + b) == Run(Run(s, a), b)
    decreases |a|
  {
    if a == [] {
      assert a + b == b;
    } else {
      assert (a + b)[1..] == a[1..] + b;
      RunAppend(if Enabled(s, a[0]) then Next(s, a[0]) else s, a[1..], b);
    }
  }

  // ---------------------------------------------------------------------
  // The wake token
  // ---------------------------------------------------------------------

  /** Whether the running drain carries the wake token: it has swallowed the
      byte, and has not disarmed since. */
  predicate DrainHolds(s: Bridge) {
    s.drain == Quieting(true) || s.drain == Taking || s.drain.Delivering? || s.drain == Disarming
  }

  /** The wake tokens there are: one for each thread about to write its byte,
      one for each byte in the pipe, one carried by the drain. */
  function Tokens(s: Bridge): nat {
    |s.ringing| + s.pipe + if DrainHolds(s) then 1 else 0
  }

  function Batch(s: Bridge): seq<Completion> {
    if s.drain.Delivering? then s.drain.batch else []
  }

  ghost predicate Inv(s: Bridge) {
    && s.capacity >= 1
    && Tokens(s) == (if s.armed then 1 else 0)
    && s.written + |s.ringing| + s.rearms == s.disarms + (if s.armed then 1 else 0)
    && (s.drain == Quieting(false) ==> s.pipe > 0)
    && (s.drain.Delivering? ==> s.drain.batch != [])
    && (s.drain == Rearming ==> s.queue != [])
    && (s.queue != [] ==> s.armed || s.swapping != {} || s.drain == Rechecking || s.drain == Rearming)
    && s.pushed == s.delivered + Batch(s) + s.queue
  }

  lemma InitInv(capacity: nat)
    requires capacity >= 1
    ensures Inv(Init(capacity))
  {}

  lemma TokenStep(s: Bridge, step: Step)
    requires Inv(s) && Enabled(s, step)
    ensures Tokens(Next(s, step)) == (if Next(s, step).armed then 1 else 0)
  {
    match step
    case Ring(t) => assert |s.ringing - {t}| == |s.ringing| - 1;
    case _ =>
  }

  lemma PushedLast(s: Bridge, c: Completion)
    requires s.pushed == s.delivered + Batch(s) + s.queue
    ensures s.pushed + [c] == s.delivered + Batch(s) + (s.queue + [c])
  {}

  lemma DeliveredFirst(s: Bridge)
    requires s.pushed == s.delivered + Batch(s) + s.queue && Batch(s) != []
    ensures s.pushed == (s.delivered + [Batch(s)[0]]) + Batch(s)[1..] + s.queue
  {
    assert Batch(s) == [Batch(s)[0]] + Batch(s)[1..];
  }

  lemma BatchTaken(s: Bridge)
    requires s.pushed == s.delivered + Batch(s) + s.queue && Batch(s) == []
    ensures s.pushed == s.delivered + s.queue + [] && s.pushed == s.delivered + [] + s.queue
  {}

  /** Nothing is lost, doubled or overtaken. */
  lemma OrderStep(s: Bridge, step: Step)
    requires Inv(s) && Enabled(s, step)
    ensures var n := Next(s, step); n.pushed == n.delivered + Batch(n) + n.queue
  {
    match step
    case Push(_, c) => PushedLast(s, c);
    case Deliver => DeliveredFirst(s);
    case _ => if Batch(s) == [] { BatchTaken(s); }
  }

  lemma InvStep(s: Bridge, step: Step)
    requires Inv(s) && Enabled(s, step)
    ensures Inv(Next(s, step))
  {
    TokenStep(s, step);
    OrderStep(s, step);
    match step
    case Ring(t) => assert |s.ringing - {t}| == |s.ringing| - 1;
    case Swap(t) => if !s.armed { assert s.ringing == {}; }
    case _ =>
  }

  /** Every reachable state satisfies the invariant. */
  lemma {:induction false} InvRun(s: Bridge, steps: seq<Step>)
    requires Inv(s)
    ensures Inv(Run(s, steps))
    decreases |steps|
  {
    if steps != [] {
      if Enabled(s, steps[0]) { InvStep(s, steps[0]); }
      InvRun(if Enabled(s, steps[0]) then Next(s, steps[0]) else s, steps[1..]);
    }
  }

  /** The bridge is armed exactly while one wake token exists, so the pipe
      never holds two bytes, no write meets a full pipe, and there is at most
      one byte written per disarm, plus the first. */
  lemma ArmedIffOneToken(capacity: nat, steps: seq<Step>)
    requires capacity >= 1
    ensures var s := Run(Init(capacity), steps);
      && (s.armed <==> Tokens(s) == 1)
      && (!s.armed <==> Tokens(s) == 0)
      && s.pipe <= 1
      && (s.ringing != {} ==> s.pipe == 0)
      && s.written <= s.disarms + 1
  {
    InvRun(Init(capacity), steps);
    var s := Run(Init(capacity), steps);
    if s.ringing != {} {
      var t :| t in s.ringing;
      assert |s.ringing - {t}| == |s.ringing| - 1;
    }
  }

  /** No step of a producer or of the drain is left to take. */
  ghost predicate Quiescent(s: Bridge) {
    s.swapping == {} && s.ringing == {} && s.drain == Idle && s.pipe == 0
  }

  /** No wakeup is lost: once every producer is out of its call, the drain is
      idle and the pipe is empty, everything pushed has been delivered. */
  lemma NoLostWakeup(capacity: nat, steps: seq<Step>)
    requires capacity >= 1
    ensures var s := Run(Init(capacity), steps);
      Quiescent(s) ==> s.queue == [] && !s.armed && s.delivered == s.pushed
  {
    InvRun(Init(capacity), steps);
  }

  /** Completions are delivered at most once and in the order of their pushes:
      what was delivered, the rest of the batch in hand and the queue together
      are the pushes, in order. */
  lemma DeliveryOrder(capacity: nat, steps: seq<Step>)
    requires capacity >= 1
    ensures var s := Run(Init(capacity), steps);
      && s.pushed == s.delivered + Batch(s) + s.queue
      && s.delivered <= s.pushed
  {
    InvRun(Init(capacity), steps);
    var s := Run(Init(capacity), steps);
    assert s.delivered + Batch(s) + s.queue == s.delivered + (Batch(s) + s.queue);
  }

  // ---------------------------------------------------------------------
  // Delivery in finitely many steps
  // ---------------------------------------------------------------------

  function DrainRank(s: Bridge): nat {
    match s.drain
    case Idle => 1
    case Quieting(read) => if read then 6 else 0
    case Taking => if s.queue == [] then 5 else 2
    case Delivering(batch) => 8 + 7 * |batch|
    case Disarming => if s.queue == [] then 4 else 5
    case Rechecking => if s.queue == [] then 3 else 4
    case Rearming => 3
  }

  /** How many more steps there can be without a further push. */
  function StepsLeft(s: Bridge): nat {
    20 * |s.queue| + 9 * |s.swapping| + 8 * |s.ringing| + 7 * s.pipe + DrainRank(s)
  }

  lemma OneLess(threads: set<Thread>, t: Thread)
    requires t in threads
    ensures |threads - {t}| == |threads| - 1
  {}

  lemma DrainStepsDecrease(s: Bridge, step: Step)
    requires Inv(s) && Enabled(s, step) && !step.Push? && !step.Swap? && !step.Ring?
    ensures StepsLeft(Next(s, step)) < StepsLeft(s)
  {}

  lemma StepsDecrease(s: Bridge, step: Step)
    requires Inv(s) && Enabled(s, step) && !step.Push?
    ensures StepsLeft(Next(s, step)) < StepsLeft(s)
  {
    match step
    case Swap(t) =>
      OneLess(s.swapping, t);
      if !s.armed { assert s.ringing == {} && s.ringing + {t} == {t}; }
    case Ring(t) => OneLess(s.ringing, t);
    case _ => DrainStepsDecrease(s, step);
  }

  /** A step that is not a push, in a state that is not quiescent. */
  ghost function SomeStep(s: Bridge): (step: Step)
    requires !(s.swapping == {} && s.ringing == {} && s.drain == Idle && s.pipe == 0)
    ensures !step.Push? && Enabled(s, step)
  {
    if s.drain == Idle && s.pipe > 0 then Wake
    else match s.drain
      case Quieting(_) => if s.pipe > 0 then QuietRead else QuietEmpty
      case Taking => Take
      case Delivering(_) => Deliver
      case Disarming => Disarm
      case Rechecking => Recheck
      case Rearming => Rearm
      case Idle =>
        if s.swapping != {} then (var t :| t in s.swapping; Swap(t)) else (var t :| t in s.ringing; Ring(t))
  }

  /** With pushes stopped, any run of enabled steps is at most `StepsLeft`
      long, whichever steps are chosen. */
  lemma {:induction false} RunsAreFinite(s: Bridge, steps: seq<Step>)
    requires Inv(s)
    requires forall i :: 0 <= i < |steps| ==> !steps[i].Push? && Enabled(Run(s, steps[..i]), steps[i])
    ensures |steps| + StepsLeft(Run(s, steps)) <= StepsLeft(s)
    decreases |steps|
  {
    if steps != [] {
      assert steps[..0] == [];
      assert Enabled(s, steps[0]);
      StepsDecrease(s, steps[0]);
      InvStep(s, steps[0]);
      var n := Next(s, steps[0]);
      var rest := steps[1..];
      forall i | 0 <= i < |rest|
        ensures !rest[i].Push? && Enabled(Run(n, rest[..i]), rest[i])
      {
        assert steps[..i + 1][1..] == rest[..i];
        assert rest[i] == steps[i + 1];
      }
      RunsAreFinite(n, rest);
    }
  }

  /** And such a run can only end where everything has been delivered: every
      state that is not quiescent has a further step. Together with
      `RunsAreFinite` this is delivery in a bounded number of steps. */
  lemma {:induction false} EverythingIsDelivered(s: Bridge) returns (steps: seq<Step>)
    requires Inv(s)
    ensures |steps| <= StepsLeft(s)
    ensures forall i :: 0 <= i < |steps| ==> !steps[i].Push?
    ensures Quiescent(Run(s, steps)) && Run(s, steps).delivered == s.pushed
    decreases StepsLeft(s)
  {
    if Quiescent(s) {
      steps := [];
    } else {
      var step := SomeStep(s);
      StepsDecrease(s, step);
      InvStep(s, step);
      var rest := EverythingIsDelivered(Next(s, step));
      steps := [step] + rest;
      assert steps[1..] == rest;
    }
  }

  // ---------------------------------------------------------------------
  // The bridge itself
  // ---------------------------------------------------------------------

  predicate ByProducer(step: Step) { step.Push? || step.Swap? || step.Ring? }

  predicate AllByProducers(preempt: seq<seq<Step>>) {
    forall k :: 0 <= k < |preempt| ==> forall i :: 0 <= i < |preempt[k]| ==> ByProducer(preempt[k][i])
  }

  lemma RunSnoc(s: Bridge, steps: seq<Step>, step: Step)
    requires Enabled(Run(s, steps), step)
    ensures Run(s, steps + [step]) == Next(Run(s, steps), step)
  {
    RunAppend(s, steps, [step]);
    assert [step][1..] == [];
  }

  /** One more step of a run that has come to `Run(start, taken)`. */
  lemma Advance(start: Bridge, taken: seq<Step>, step: Step) returns (more: seq<Step>)
    requires Inv(Run(start, taken)) && Enabled(Run(start, taken), step)
    ensures Run(start, more) == Next(Run(start, taken), step) && Inv(Run(start, more))
    ensures !step.Push? ==> StepsLeft(Run(start, more)) < StepsLeft(Run(start, taken))
  {
    more := taken + [step];
    RunSnoc(start, taken, step);
    InvStep(Run(start, taken), step);
    if !step.Push? { StepsDecrease(Run(start, taken), step); }
  }

  lemma RunNone(s: Bridge)
    ensures Run(s, []) == s
  {}

  lemma NoBatchInHand(s: Bridge)
    requires Inv(s) && s.drain == Taking
    ensures s.pushed == s.delivered + s.queue
  {
    assert s.delivered + Batch(s) == s.delivered;
  }

  lemma BatchInHand(s: Bridge)
    requires Inv(s) && s.drain.Delivering?
    ensures s.drain.batch != []
  {}

  lemma Joined(start: Bridge, taken: seq<Step>, steps: seq<Step>) returns (more: seq<Step>)
    ensures Run(start, more) == Run(Run(start, taken), steps)
  {
    more := taken + steps;
    RunAppend(start, taken, steps);
  }

  lemma {:induction false} ProducersLeaveDrain(s: Bridge, steps: seq<Step>)
    requires forall i :: 0 <= i < |steps| ==> ByProducer(steps[i])
    ensures Run(s, steps).drain == s.drain
    ensures s.pipe <= Run(s, steps).pipe && s.queue <= Run(s, steps).queue
    ensures Run(s, steps).delivered == s.delivered && s.pushed <= Run(s, steps).pushed
    decreases |steps|
  {
    if steps != [] {
      ProducersLeaveDrain(if Enabled(s, steps[0]) then Next(s, steps[0]) else s, steps[1..]);
    }
  }

  /** The shared state of the protocol. Each method but `Drain` is one atomic
      step of some thread; `Drain` is the whole callback, with the producers'
      steps happening between any two of its own. */
  class LoopBridge {
    const capacity: nat
    var queue: seq<Completion>
    var armed: bool
    var pipe: nat
    var swapping: set<Thread>
    var ringing: set<Thread>
    ghost var drain: DrainPoint
    ghost var pushed: seq<Completion>
    ghost var delivered: seq<Completion>
    ghost var written: nat
    ghost var disarms: nat
    ghost var rearms: nat

    ghost function Abs(): Bridge
      reads this
    {
      Bridge(capacity, queue, armed, pipe, swapping, ringing, drain,
             pushed, delivered, written, disarms, rearms)
    }

    constructor (capacity: nat)
      requires capacity >= 1
      ensures Abs() == Init(capacity) && Inv(Abs())
    {
      this.capacity := capacity;
      queue, armed, pipe := [], false, 0;
      swapping, ringing, drain := {}, {}, Idle;
      pushed, delivered, written, disarms, rearms := [], [], 0, 0, 0;
      new;
      InitInv(capacity);
    }

    method PushCompletion(t: Thread, completion: Completion)
      requires Enabled(Abs(), Push(t, completion))
      modifies this
      ensures Abs() == Next(old(Abs()), Push(t, completion))
    {
      queue := queue + [completion];
      pushed, swapping := pushed + [completion], swapping + {t};
    }

    method SwapArmed(t: Thread) returns (wasArmed: bool)
      requires Enabled(Abs(), Swap(t))
      modifies this
      ensures Abs() == Next(old(Abs()), Swap(t)) && wasArmed == old(armed)
    {
      wasArmed := armed;
      armed := true;
      swapping := swapping - {t};
      ringing := if wasArmed then ringing else ringing + {t};
    }

    method RingPipe(t: Thread)
      requires Enabled(Abs(), Ring(t))
      modifies this
      ensures Abs() == Next(old(Abs()), Ring(t))
    {
      ringing := ringing - {t};
      if pipe < capacity {
        pipe := pipe + 1;
        written := written + 1;
      }
    }

    /** Anything the producers may do before the loop thread's next step. */
    method Producers(steps: seq<Step>)
      requires Inv(Abs())
      requires forall i :: 0 <= i < |steps| ==> ByProducer(steps[i])
      modifies this
      ensures Abs() == Run(old(Abs()), steps) && Inv(Abs())
      ensures drain == old(drain) && old(pipe) <= pipe && old(queue) <= queue
      ensures delivered == old(delivered) && old(pushed) <= pushed
    {
      ProducersLeaveDrain(Abs(), steps);
      InvRun(Abs(), steps);
      for i := 0 to |steps|
        invariant Abs() == Run(old(Abs()), steps[..i])
      {
        assert steps[..i + 1] == steps[..i] + [steps[i]];
        RunAppend(old(Abs()), steps[..i], [steps[i]]);
        assert [steps[i]][1..] == [];
        match steps[i] {
          case Push(t, c) => if t !in swapping && t !in ringing { PushCompletion(t, c); }
          case Swap(t) => if t in swapping { var _ := SwapArmed(t); }
          case Ring(t) => if t in ringing { RingPipe(t); }
        }
      }
      assert steps[..|steps|] == steps;
    }

    method ReadPipe()
      requires Enabled(Abs(), QuietRead)
      modifies this
      ensures Abs() == Next(old(Abs()), QuietRead)
    {
      pipe := pipe - Min(SINK, pipe);
      drain := Quieting(true);
    }

    method TakeQueue() returns (batch: seq<Completion>)
      requires Enabled(Abs(), Take)
      modifies this
      ensures Abs() == Next(old(Abs()), Take) && batch == old(queue)
    {
      batch := queue;
      queue := [];
      drain := if batch == [] then Disarming else Delivering(batch);
    }

    method DisarmBell()
      requires Enabled(Abs(), Disarm)
      modifies this
      ensures Abs() == Next(old(Abs()), Disarm)
    {
      armed := false;
      disarms, drain := disarms + 1, Rechecking;
    }

    method RecheckQueue() returns (isEmpty: bool)
      requires Enabled(Abs(), Recheck)
      modifies this
      ensures Abs() == Next(old(Abs()), Recheck) && isEmpty == (old(queue) == [])
    {
      isEmpty := queue == [];
      drain := if isEmpty then Idle else Rearming;
    }

    method RearmBell() returns (wasArmed: bool)
      requires Enabled(Abs(), Rearm)
      modifies this
      ensures Abs() == Next(old(Abs()), Rearm) && wasArmed == old(armed)
    {
      wasArmed := armed;
      armed := true;
      if wasArmed {
        drain := Idle;
      } else {
        rearms, drain := rearms + 1, Taking;
      }
    }

    method DeliverOne(completion: Completion)
      requires Inv(Abs()) && drain.Delivering? && drain.batch[0] == completion
      modifies this
      ensures Abs() == Next(old(Abs()), Deliver)
    {
      ghost var rest := drain.batch[1..];
      delivered := delivered + [completion];
      drain := if rest == [] then Taking else Delivering(rest);
    }

    /** One preemption point: the producers take their next lot of steps. */
    method Preempt(ghost start: Bridge, ghost before: seq<Step>, preempt: seq<seq<Step>>, from: nat)
      returns (k: nat, ghost taken: seq<Step>)
      requires Abs() == Run(start, before) && Inv(Abs())
      requires from <= |preempt| && AllByProducers(preempt)
      modifies this
      ensures Abs() == Run(start, taken) && Inv(Abs())
      ensures drain == old(drain) && old(pipe) <= pipe && old(queue) <= queue
      ensures delivered == old(delivered) && old(pushed) <= pushed
      ensures from <= k <= |preempt| && (k == from ==> Abs() == old(Abs()))
    {
      hide Run, Inv;
      k, taken := from, before;
      if k < |preempt| {
        Producers(preempt[k]);
        taken := Joined(start, taken, preempt[k]);
        k := k + 1;
      }
    }

    /** `quiet_doorbell`: swallow every wake byte before the queue is read. */
    method QuietDoorbell(ghost start: Bridge, ghost before: seq<Step>, preempt: seq<seq<Step>>, from: nat)
      returns (k: nat, ghost taken: seq<Step>)
      requires Abs() == Run(start, before) && Inv(Abs()) && drain == Quieting(false)
      requires from <= |preempt| && AllByProducers(preempt)
      modifies this
      ensures Abs() == Run(start, taken) && Inv(Abs()) && drain == Taking
      ensures from <= k <= |preempt| && old(pushed) <= pushed
    {
      hide Run, Inv, StepsLeft;
      k, taken := from, before;
      while pipe > 0
        invariant from <= k <= |preempt| && drain.Quieting? && Abs() == Run(start, taken) && Inv(Abs())
        invariant old(pushed) <= pushed
        decreases |preempt| - k, StepsLeft(Abs())
      {
        ReadPipe();
        taken := Advance(start, taken, QuietRead);
        k, taken := Preempt(start, taken, preempt, k);
      }
      drain := Taking;
      taken := Advance(start, taken, QuietEmpty);
    }

    /** The delivery of one batch, producers running between any two. */
    method DeliverBatch(ghost start: Bridge, ghost before: seq<Step>, batch: seq<Completion>,
                        preempt: seq<seq<Step>>, from: nat)
      returns (k: nat, ghost taken: seq<Step>)
      requires Abs() == Run(start, before) && Inv(Abs()) && drain == Delivering(batch)
      requires from <= |preempt| && AllByProducers(preempt)
      modifies this
      ensures Abs() == Run(start, taken) && Inv(Abs()) && drain == Taking
      ensures from <= k <= |preempt| && (k == from ==> StepsLeft(Abs()) < old(StepsLeft(Abs())))
      ensures delivered == old(delivered) + batch
    {
      hide Run, Inv, StepsLeft;
      BatchInHand(Abs());
      k, taken := from, before;
      for i := 0 to |batch|
        invariant Abs() == Run(start, taken) && Inv(Abs())
        invariant from <= k <= |preempt|
        invariant drain == if i == |batch| then Taking else Delivering(batch[i..])
        invariant k == from ==> StepsLeft(Abs()) + i <= old(StepsLeft(Abs()))
        invariant delivered == old(delivered) + batch[..i]
      {
        DeliverOne(batch[i]);
        taken := Advance(start, taken, Deliver);
        k, taken := Preempt(start, taken, preempt, k);
      }
    }

    /** An empty batch: disarm, then look again, so that a push racing the
        disarm is seen here or rings for itself. */
    method DisarmAndRecheck(ghost start: Bridge, ghost before: seq<Step>, preempt: seq<seq<Step>>, from: nat)
      returns (done: bool, k: nat, ghost taken: seq<Step>)
      requires Abs() == Run(start, before) && Inv(Abs()) && drain == Disarming
      requires from <= |preempt| && AllByProducers(preempt)
      modifies this
      ensures Abs() == Run(start, taken) && Inv(Abs())
      ensures drain == if done then Idle else Taking
      ensures from <= k <= |preempt| && (k == from ==> StepsLeft(Abs()) < old(StepsLeft(Abs())))
      ensures delivered == old(delivered) && old(pushed) <= pushed
    {
      hide Run, Inv, StepsLeft;
      DisarmBell();
      taken := Advance(start, before, Disarm);
      k, taken := Preempt(start, taken, preempt, from);
      done := RecheckQueue();
      taken := Advance(start, taken, Recheck);
      if !done {
        k, taken := Preempt(start, taken, preempt, k);
        done := RearmBell();
        taken := Advance(start, taken, Rearm);
      }
    }

    /** The drain callback. `preempt[k]` is what the producers do at its k-th
        preemption point; after the last one they are silent. The callback
        ends, what it did together with them is a run of the protocol, and all
        that was pushed before it was woken has been delivered. */
    method Drain(preempt: seq<seq<Step>>) returns (ghost taken: seq<Step>)
      requires Inv(Abs()) && Enabled(Abs(), Wake) && AllByProducers(preempt)
      modifies this
      ensures Abs() == Run(old(Abs()), taken) && Inv(Abs()) && drain == Idle
      ensures old(pushed) <= delivered
    {
      hide Run, StepsLeft, Inv;
      ghost var start := Abs();
      drain := Quieting(false);
      RunNone(start);
      taken := Advance(start, [], Wake);
      var k;
      k, taken := QuietDoorbell(start, taken, preempt, 0);
      ghost var firstBatch := true;
      while true
        invariant k <= |preempt| && drain == Taking && Abs() == Run(start, taken) && Inv(Abs())
        invariant start.pushed <= if firstBatch then pushed else delivered
        decreases |preempt| - k, StepsLeft(Abs())
      {
        k, taken := Preempt(start, taken, preempt, k);
        NoBatchInHand(Abs());
        assert start.pushed <= delivered + queue;
        var batch := TakeQueue();
        taken := Advance(start, taken, Take);
        firstBatch := false;
        if batch == [] {
          var done;
          done, k, taken := DisarmAndRecheck(start, taken, preempt, k);
          if done { return; }
        } else {
          k, taken := DeliverBatch(start, taken, batch, preempt, k);
        }
      }
    }
  }
}
