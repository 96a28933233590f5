/** One large read carried out as many chunk reads whose completions arrive on
    any thread in any order (crates/turbofile-py/src/lib.rs). A chunk's
    completion is recorded under the lock, counts down, and the one that counts
    to zero completes the group: three atomic steps, interleaved freely with
    those of the other chunks. */
module ReadGroups {
  import opened Basics

  datatype GroupError = Mismatched | Raised(code: int)

  /** How a chunk's op settled, and the bytes the kernel has put at the start
      of its part of the buffer: for a read, as many as it reports. */
  datatype Outcome =
    | ReadOk(bytes: seq<Byte>)
    | OtherReply(bytes: seq<Byte>)
    | Failed(bytes: seq<Byte>, code: int)

  datatype GroupResult = Filled(n: nat) | GroupFailed(error: GroupError)

  /** `Last` is the chunk that counted to zero and has not completed the group
      yet. */
  datatype Stage = Waiting | Recorded | Last | Gone

  /** `held` says that the future and the buffer have not been taken out yet;
      the last three fields are history. A byte of the buffer nobody has
      written is `None`. */
  datatype Group = Group(
    len: nat,
    chunk: nat,
    stages: seq<Stage>,
    remaining: nat,
    nLimit: nat,
    error: Option<GroupError>,
    held: bool,
    buffer: seq<Option<Byte>>,
    completions: seq<GroupResult>,
    outcomes: seq<Option<Outcome>>,
    order: seq<nat>
  )

  datatype Step = Settle(i: nat, outcome: Outcome) | CountDown(i: nat) | Complete(i: nat)

  // ---------------------------------------------------------------------
  // Chunks
  // ---------------------------------------------------------------------

  function Count(len: nat, chunk: nat): nat
    requires chunk >= 1
  {
    Max((len + chunk - 1) / chunk, 1)
  }

  function Start(chunk: nat, i: nat): nat { i * chunk }

  function ChunkLen(len: nat, chunk: nat, i: nat): nat {
    if Start(chunk, i) >= len then 0 else Min(chunk, len - Start(chunk, i))
  }

  /** Each byte of the range lies in one chunk. */
  lemma ChunkOf(len: nat, chunk: nat, k: nat) returns (i: nat)
    requires chunk >= 1 && k < len
    ensures i < Count(len, chunk)
    ensures Start(chunk, i) <= k < Start(chunk, i) + ChunkLen(len, chunk, i)
  {
    i := k / chunk;
    assert i * chunk + k % chunk == k;
    var c := (len + chunk - 1) / chunk;
    assert c * chunk + (len + chunk - 1) % chunk == len + chunk - 1;
    Multiples(c, i, chunk);
  }

  /** Chunks do not overlap. */
  lemma ChunksApart(len: nat, chunk: nat, i: nat, j: nat)
    requires i < j
    ensures Start(chunk, i) + ChunkLen(len, chunk, i) <= Start(chunk, j)
  {
    Multiples(i, j, chunk);
  }

  lemma ChunkInside(len: nat, chunk: nat, i: nat)
    requires ChunkLen(len, chunk, i) > 0
    ensures Start(chunk, i) + ChunkLen(len, chunk, i) <= len
  {}

  /** The loop that submits the chunks walks the range in steps of `chunk` and
      makes as many ops as the countdown starts from. */
  method SplitRange(len: nat, chunk: nat) returns (starts: seq<nat>)
    requires chunk >= 1 && len > 0
    ensures |starts| == Count(len, chunk)
    ensures forall i :: 0 <= i < |starts| ==> starts[i] == Start(chunk, i) < len
  {
    starts := [];
    var start := 0;
    while start < len
      invariant start == Start(chunk, |starts|)
      invariant forall i :: 0 <= i < |starts| ==> starts[i] == Start(chunk, i) < len
      decreases len - start
    {
      starts := starts + [start];
      start := start + chunk;
      assert start == Start(chunk, |starts|);
    }
    var n := |starts|;
    assert n > 0;
    assert starts[n - 1] == Start(chunk, n - 1) < len;
    StepsCount(len, chunk, n);
  }

  lemma StepsCount(len: nat, chunk: nat, n: nat)
    requires chunk >= 1 && n >= 1 && Start(chunk, n - 1) < len <= Start(chunk, n)
    ensures n == Count(len, chunk)
  {
    var c := (len + chunk - 1) / chunk;
    assert c * chunk + (len + chunk - 1) % chunk == len + chunk - 1;
    Multiples(n, c, chunk);
    Multiples(c, n - 1, chunk);
  }

  // ---------------------------------------------------------------------
  // Steps
  // ---------------------------------------------------------------------

  /** `read_parallel` of `len` bytes: an empty range is one chunk of nothing. */
  function Begin(len: nat, chunk: nat): Group
    requires chunk >= 1
  {
    var n := Count(len, chunk);
    Group(len, chunk, seq(n, _ => Waiting), n, len, None, true, seq(len, _ => None), [], seq(n, _ => None), [])
  }

  predicate Enabled(g: Group, step: Step) {
    && step.i < |g.stages|
    && match step
       case Settle(i, outcome) => g.stages[i] == Waiting && |outcome.bytes| <= ChunkLen(g.len, g.chunk, i)
       case CountDown(i) => g.stages[i] == Recorded
       case Complete(i) => g.stages[i] == Last
  }

  /** The buffer with `bytes` written at `at`. */
  function Written(buffer: seq<Option<Byte>>, at: nat, bytes: seq<Byte>): (r: seq<Option<Byte>>)
    ensures |r| == |buffer|
    ensures forall k :: 0 <= k < |r| ==> r[k] == if at <= k < at + |bytes| then Some(bytes[k - at]) else buffer[k]
  {
    seq(|buffer|, k requires 0 <= k < |buffer| => if at <= k < at + |bytes| then Some(bytes[k - at]) else buffer[k])
  }

  function ErrorOf(outcome: Outcome): Option<GroupError> {
    match outcome
    case ReadOk(_) => None
    case OtherReply(_) => Some(Mismatched)
    case Failed(_, code) => Some(Raised(code))
  }

  function ResultOf(g: Group): GroupResult {
    if g.error.Some? then GroupFailed(g.error.value) else Filled(g.nLimit)
  }

  function Next(g: Group, step: Step): Group
    requires Enabled(g, step) && |g.outcomes| == |g.stages|
  {
    match step
    case Settle(i, o) =>
      g.(stages := g.stages[i := Recorded],
         outcomes := g.outcomes[i := Some(o)],
         order := g.order + [i],
         buffer := Written(g.buffer, Start(g.chunk, i), o.bytes),
         nLimit := if o.ReadOk? && |o.bytes| < ChunkLen(g.len, g.chunk, i)
                   then Min(g.nLimit, Start(g.chunk, i) + |o.bytes|) else g.nLimit,
         error := if g.error.Some? then g.error else ErrorOf(o))
    case CountDown(i) =>
      g.(stages := g.stages[i := if g.remaining == 1 then Last else Gone],
         remaining := if g.remaining == 0 then 0 else g.remaining - 1)
    case Complete(i) =>
      g.(stages := g.stages[i := Gone], held := false, error := None, completions := g.completions + [ResultOf(g)])
  }

  // ---------------------------------------------------------------------
  // What every step keeps
  // ---------------------------------------------------------------------

  function Left(): Stage -> nat { (s: Stage) => if s == Waiting || s == Recorded then 1 else 0 }
  function IsLast(): Stage -> nat { (s: Stage) => if s == Last then 1 else 0 }

  predicate Shape(g: Group) {
    g.chunk >= 1 && |g.stages| == Count(g.len, g.chunk) == |g.outcomes| && |g.buffer| == g.len
  }

  /** The countdown counts the chunks that have not counted down; exactly one
      of them counts to zero, and completes the group once. */
  predicate CountInv(g: Group) {
    && g.remaining == Sum(g.stages, Left())
    && Sum(g.stages, IsLast()) + |g.completions| == (if g.remaining == 0 then 1 else 0)
    && (g.held <==> g.completions == [])
  }

  predicate SettledInv(g: Group)
    requires Shape(g)
  {
    && (forall i :: 0 <= i < |g.stages| ==> (g.outcomes[i].None? <==> g.stages[i] == Waiting))
    && (forall i :: 0 <= i < |g.stages| && g.outcomes[i].Some? ==>
      |g.outcomes[i].value.bytes| <= ChunkLen(g.len, g.chunk, i))
    && (forall k :: 0 <= k < |g.order| ==> g.order[k] < |g.stages| && g.outcomes[g.order[k]].Some?)
    && (forall i :: 0 <= i < |g.stages| && g.outcomes[i].Some? ==> i in g.order)
  }

  /** A chunk read that reached the end of the file. */
  predicate Short(g: Group, i: nat)
    requires Shape(g) && i < |g.stages|
  {
    g.outcomes[i].Some? && g.outcomes[i].value.ReadOk? && |g.outcomes[i].value.bytes| < ChunkLen(g.len, g.chunk, i)
  }

  function EndOf(g: Group, i: nat): nat
    requires Shape(g) && i < |g.stages| && g.outcomes[i].Some?
  {
    Start(g.chunk, i) + |g.outcomes[i].value.bytes|
  }

  /** The limit is the least end of a short chunk. */
  ghost predicate LimitInv(g: Group)
    requires Shape(g)
  {
    && g.nLimit <= g.len
    && (forall i :: 0 <= i < |g.stages| && Short(g, i) ==> g.nLimit <= EndOf(g, i))
    && (g.nLimit == g.len || exists i :: 0 <= i < |g.stages| && Short(g, i) && g.nLimit == EndOf(g, i))
  }

  predicate Holds(g: Group, i: nat)
    requires Shape(g) && i < |g.stages| && g.outcomes[i].Some?
  {
    var at, bytes := Start(g.chunk, i), g.outcomes[i].value.bytes;
    forall k :: at <= k < at + |bytes| ==> k < g.len && g.buffer[k] == Some(bytes[k - at])
  }

  predicate BufferInv(g: Group)
    requires Shape(g)
  {
    forall i :: 0 <= i < |g.stages| && g.outcomes[i].Some? ==> Holds(g, i)
  }

  /** The error of the first chunk, in the order they settled, that had one. */
  function FirstError(order: seq<nat>, outcomes: seq<Option<Outcome>>): Option<GroupError>
    decreases |order|
  {
    if order == [] then None
    else
      var first :=
        if order[0] < |outcomes| && outcomes[order[0]].Some? then ErrorOf(outcomes[order[0]].value) else None;
      if first.Some? then first else FirstError(order[1..], outcomes)
  }

  predicate ErrorInv(g: Group) {
    var error := FirstError(g.order, g.outcomes);
    && (g.held ==> g.error == error)
    && (forall k :: 0 <= k < |g.completions| ==>
          g.completions[k] == (if error.Some? then GroupFailed(error.value) else Filled(g.nLimit)))
  }

  ghost predicate Inv(g: Group) {
    Shape(g) && CountInv(g) && SettledInv(g) && LimitInv(g) && BufferInv(g) && ErrorInv(g)
  }

  lemma {:induction false} AllLeft(stages: seq<Stage>)
    requires forall i :: 0 <= i < |stages| ==> stages[i] == Waiting
    ensures Sum(stages, Left()) == |stages| && Sum(stages, IsLast()) == 0
    decreases |stages|
  {
    if stages != [] { AllLeft(stages[1..]); }
  }

  lemma BeginInv(len: nat, chunk: nat)
    requires chunk >= 1
    ensures Inv(Begin(len, chunk))
  {
    AllLeft(Begin(len, chunk).stages);
  }

  lemma CountStep(g: Group, step: Step)
    requires Shape(g) && CountInv(g) && Enabled(g, step)
    ensures CountInv(Next(g, step))
  {
    var stage := Next(g, step).stages[step.i];
    SumUpdate(g.stages, step.i, stage, Left());
    SumUpdate(g.stages, step.i, stage, IsLast());
    SumAtLeast(g.stages, step.i, Left());
    SumAtLeast(g.stages, step.i, IsLast());
  }

  /** A chunk waiting to settle means that the group has not completed. */
  lemma WaitingMeansHeld(g: Group, i: nat)
    requires CountInv(g) && i < |g.stages| && g.stages[i] == Waiting
    ensures g.held && g.completions == []
  {
    SumAtLeast(g.stages, i, Left());
  }

  lemma LastMeansHeld(g: Group, i: nat)
    requires CountInv(g) && i < |g.stages| && g.stages[i] == Last
    ensures g.held && g.completions == [] && g.remaining == 0
  {
    SumAtLeast(g.stages, i, IsLast());
  }

  lemma SettledStep(g: Group, step: Step)
    requires Shape(g) && SettledInv(g) && Enabled(g, step)
    ensures SettledInv(Next(g, step))
  {
    hide Start, ChunkLen, Count;
    var n := Next(g, step);
    if step.Settle? {
      forall i | 0 <= i < |n.stages| && n.outcomes[i].Some? ensures i in n.order {
        assert i in g.order || i == step.i;
      }
    }
  }

  lemma LimitStep(g: Group, step: Step)
    requires Shape(g) && SettledInv(g) && LimitInv(g) && Enabled(g, step)
    ensures LimitInv(Next(g, step))
  {
    hide Start, ChunkLen, Count;
    var n := Next(g, step);
    forall i | 0 <= i < |n.stages| && Short(n, i) ensures n.nLimit <= EndOf(n, i) {
      assert i != step.i || !step.Settle? ==> Short(g, i) && EndOf(n, i) == EndOf(g, i);
    }
    if n.nLimit != g.nLimit {
      assert Short(n, step.i) && n.nLimit == EndOf(n, step.i);
    } else if g.nLimit != g.len {
      var i :| 0 <= i < |g.stages| && Short(g, i) && g.nLimit == EndOf(g, i);
      assert Short(n, i) && EndOf(n, i) == g.nLimit;
    }
  }

  lemma BufferStep(g: Group, step: Step)
    requires Shape(g) && SettledInv(g) && BufferInv(g) && Enabled(g, step)
    ensures BufferInv(Next(g, step))
  {
    var n := Next(g, step);
    forall i | 0 <= i < |n.stages| && n.outcomes[i].Some? ensures Holds(n, i) {
      if step.Settle? {
        if i < step.i { ChunksApart(g.len, g.chunk, i, step.i); }
        if step.i < i { ChunksApart(g.len, g.chunk, step.i, i); }
        if n.outcomes[i].value.bytes != [] { ChunkInside(g.len, g.chunk, i); }
        assert i != step.i ==> Holds(g, i);
      } else {
        assert Holds(g, i);
      }
    }
  }

  lemma {:induction false} FirstErrorSnoc(order: seq<nat>, before: seq<Option<Outcome>>, i: nat, outcome: Outcome)
    requires i < |before| && before[i].None?
    requires forall k :: 0 <= k < |order| ==> order[k] < |before| && before[order[k]].Some?
    ensures FirstError(order + [i], before[i := Some(outcome)]) ==
      (if FirstError(order, before).Some? then FirstError(order, before) else ErrorOf(outcome))
    decreases |order|
  {
    if order == [] {
      assert [i][1..] == [];
    } else {
      assert (order + [i])[1..] == order[1..] + [i];
      assert before[order[0]].Some?;
      FirstErrorSnoc(order[1..], before, i, outcome);
    }
  }

  lemma ErrorStep(g: Group, step: Step)
    requires Shape(g) && CountInv(g) && SettledInv(g) && ErrorInv(g) && Enabled(g, step)
    ensures ErrorInv(Next(g, step))
  {
    match step
    case Settle(i, o) =>
      WaitingMeansHeld(g, i);
      FirstErrorSnoc(g.order, g.outcomes, i, o);
    case CountDown(i) =>
    case Complete(i) => LastMeansHeld(g, i);
  }

  lemma InvStep(g: Group, step: Step)
    requires Inv(g) && Enabled(g, step)
    ensures Inv(Next(g, step))
  {
    assert Shape(Next(g, step));
    hide CountInv, SettledInv, LimitInv, BufferInv, ErrorInv;
    CountStep(g, step);
    SettledStep(g, step);
    LimitStep(g, step);
    BufferStep(g, step);
    ErrorStep(g, step);
  }

  // ---------------------------------------------------------------------
  // Runs
  // ---------------------------------------------------------------------

  /** A run; a step that is not possible when its turn comes is skipped. */
  ghost function Run(g: Group, steps: seq<Step>): (r: Group)
    requires Inv(g)
    ensures Inv(r) && r.len == g.len && r.chunk == g.chunk
    decreases |steps|
  {
    if steps == [] then g
    else if Enabled(g, steps[0]) then (InvStep(g, steps[0]); Run(Next(g, steps[0]), steps[1..]))
    else Run(g, steps[1..])
  }

  ghost predicate Reachable(g: Group, len: nat, chunk: nat) {
    chunk >= 1 && exists steps :: Comes(len, chunk, steps, g)
  }

  ghost predicate Comes(len: nat, chunk: nat, steps: seq<Step>, g: Group)
    requires chunk >= 1
  {
    BeginInv(len, chunk);
    g == Run(Begin(len, chunk), steps)
  }

  lemma ReachableInv(g: Group, len: nat, chunk: nat)
    requires Reachable(g, len, chunk)
    ensures Inv(g) && g.len == len && g.chunk == chunk
  {
    var steps :| Comes(len, chunk, steps, g);
    BeginInv(len, chunk);
  }

  /** The group completes at most once, and only when every chunk's op has
      settled and counted down, so that nothing writes to the buffer any more. */
  lemma CompletesOnce(g: Group, len: nat, chunk: nat)
    requires Reachable(g, len, chunk)
    ensures |g.completions| <= 1
    ensures g.completions != [] ==> forall i :: 0 <= i < |g.stages| ==> g.stages[i] == Gone && g.outcomes[i].Some?
  {
    ReachableInv(g, len, chunk);
    if g.completions != [] {
      forall i | 0 <= i < |g.stages| ensures g.stages[i] == Gone {
        SumAtLeast(g.stages, i, Left());
        SumAtLeast(g.stages, i, IsLast());
      }
    }
  }

  function Toll(): Stage -> nat {
    (s: Stage) => match s case Waiting => 3 case Recorded => 2 case Last => 1 case Gone => 0
  }

  /** How many steps are left at most. */
  function StepsLeft(g: Group): nat { Sum(g.stages, Toll()) }

  lemma StepsDecrease(g: Group, step: Step)
    requires Shape(g) && Enabled(g, step)
    ensures StepsLeft(Next(g, step)) < StepsLeft(g)
  {
    SumUpdate(g.stages, step.i, Next(g, step).stages[step.i], Toll());
  }

  /** While the group has not completed, some chunk can take a step: when no
      step is left, it has completed. */
  lemma StuckMeansCompleted(g: Group, len: nat, chunk: nat)
    requires Reachable(g, len, chunk)
    requires forall step :: !Enabled(g, step)
    ensures |g.completions| == 1
  {
    ReachableInv(g, len, chunk);
    forall i | 0 <= i < |g.stages| ensures g.stages[i] == Gone {
      assert !Enabled(g, Settle(i, ReadOk([]))) && !Enabled(g, CountDown(i)) && !Enabled(g, Complete(i));
    }
    SumZero(g.stages, Left());
    SumZero(g.stages, IsLast());
  }

  predicate FilledTo(g: Group, n: nat) {
    n <= |g.buffer| && forall k :: 0 <= k < n ==> g.buffer[k].Some?
  }

  /** The bytes a completed group delivers: the buffer itself when it is full,
      a copy of its first `n` bytes otherwise. */
  function Value(g: Group, n: nat): (r: seq<Byte>)
    requires FilledTo(g, n)
    ensures |r| == n && forall k :: 0 <= k < n ==> Some(r[k]) == g.buffer[k]
  {
    seq(n, k requires 0 <= k < n => g.buffer[k].value)
  }

  /** Byte `k` of the range is one that chunk `i` read. */
  predicate ReadBy(g: Group, i: nat, k: nat, b: Byte) {
    && i < |g.outcomes| && g.outcomes[i].Some? && g.outcomes[i].value.ReadOk?
    && var at, bytes := Start(g.chunk, i), g.outcomes[i].value.bytes;
      at <= k < at + |bytes| && bytes[k - at] == b
  }

  ghost predicate ReadBySome(g: Group, k: nat, b: Byte) { exists i :: ReadBy(g, i, k, b) }

  lemma DeliveredByte(g: Group, n: nat, k: nat)
    requires Inv(g) && g.completions == [Filled(n)] && k < n
    requires forall i :: 0 <= i < |g.outcomes| ==> g.outcomes[i].Some?
    ensures n <= g.len && g.buffer[k].Some? && ReadBySome(g, k, g.buffer[k].value)
  {
    assert g.completions[0] == Filled(n);
    var i := ChunkOf(g.len, g.chunk, k);
    hide Start, ChunkLen, Count;
    NoErrorMeansRead(g.order, g.outcomes, i);
    assert Short(g, i) ==> n <= EndOf(g, i);
    assert Holds(g, i);
    assert ReadBy(g, i, k, g.buffer[k].value);
  }

  /** A completion without an error covers one contiguous prefix: no byte of it
      is left unwritten, each is one that a chunk's read put there, and it
      ends where the first short chunk does. */
  lemma DeliveredPrefix(g: Group, len: nat, chunk: nat, n: nat)
    requires Reachable(g, len, chunk) && g.completions == [Filled(n)]
    ensures Inv(g) && g.len == len && g.chunk == chunk && FilledTo(g, n) && |g.buffer| == len
    ensures forall k :: 0 <= k < n ==> ReadBySome(g, k, Value(g, n)[k])
    ensures forall i :: 0 <= i < |g.stages| && Short(g, i) ==> n <= EndOf(g, i)
    ensures n == len || exists i :: 0 <= i < |g.stages| && Short(g, i) && n == EndOf(g, i)
  {
    CompletesOnce(g, len, chunk);
    ReachableInv(g, len, chunk);
    assert g.completions[0] == Filled(n);
    hide Start, ChunkLen, Count, ReadBySome;
    forall k | 0 <= k < n ensures g.buffer[k].Some? && ReadBySome(g, k, g.buffer[k].value) {
      DeliveredByte(g, n, k);
    }
    forall k | 0 <= k < n ensures ReadBySome(g, k, Value(g, n)[k]) {
      assert Some(Value(g, n)[k]) == g.buffer[k];
    }
  }

  lemma {:induction false} NoErrorMeansRead(order: seq<nat>, outcomes: seq<Option<Outcome>>, i: nat)
    requires i < |outcomes| && outcomes[i].Some? && i in order && FirstError(order, outcomes) == None
    ensures outcomes[i].value.ReadOk?
    decreases |order|
  {
    if order[0] != i { NoErrorMeansRead(order[1..], outcomes, i); }
  }

  /** A completion with an error is that of the first chunk that failed. */
  lemma DeliveredError(g: Group, len: nat, chunk: nat, error: GroupError)
    requires Reachable(g, len, chunk) && g.completions == [GroupFailed(error)]
    ensures exists k :: 0 <= k < |g.order| && FailsFirst(g, k, error)
  {
    ReachableInv(g, len, chunk);
    assert g.completions[0] == GroupFailed(error);
    var k := FirstErrorAt(g.order, g.outcomes);
    assert FailsFirst(g, k, error);
  }

  /** The k-th chunk to settle failed with `error`, and none before it failed. */
  predicate FailsFirst(g: Group, k: nat, error: GroupError)
    requires k < |g.order|
  {
    && (forall j :: 0 <= j <= k ==> g.order[j] < |g.outcomes| && g.outcomes[g.order[j]].Some?)
    && (forall j :: 0 <= j < k ==> ErrorOf(g.outcomes[g.order[j]].value) == None)
    && ErrorOf(g.outcomes[g.order[k]].value) == Some(error)
  }

  lemma {:induction false} FirstErrorAt(order: seq<nat>, outcomes: seq<Option<Outcome>>) returns (k: nat)
    requires FirstError(order, outcomes).Some?
    requires forall j :: 0 <= j < |order| ==> order[j] < |outcomes| && outcomes[order[j]].Some?
    ensures k < |order| && ErrorOf(outcomes[order[k]].value) == FirstError(order, outcomes)
    ensures forall j :: 0 <= j < k ==> ErrorOf(outcomes[order[j]].value) == None
    decreases |order|
  {
    if ErrorOf(outcomes[order[0]].value).Some? {
      k := 0;
    } else {
      k := FirstErrorAt(order[1..], outcomes);
      forall j | 0 <= j < k + 1 ensures ErrorOf(outcomes[order[j]].value) == None {
        if j > 0 { assert order[j] == order[1..][j - 1]; }
      }
      k := k + 1;
    }
  }

  /** Each chunk's read got the bytes there are. */
  predicate ReadsOf(g: Group, file: File, pos: nat) {
    forall i :: 0 <= i < |g.outcomes| && g.outcomes[i].Some? && g.outcomes[i].value.ReadOk? ==>
      g.outcomes[i].value.bytes == Slice(file, pos + Start(g.chunk, i), ChunkLen(g.len, g.chunk, i))
  }

  /** In whatever order the chunks settled, the reply is that of one read. */
  lemma GroupIsOneRead(g: Group, len: nat, chunk: nat, n: nat, file: File, pos: nat)
    requires Reachable(g, len, chunk) && g.completions == [Filled(n)] && ReadsOf(g, file, pos)
    ensures FilledTo(g, n) && Value(g, n) == Slice(file, pos, len)
  {
    DeliveredPrefix(g, len, chunk, n);
    hide Start, ChunkLen, Count, ReadBySome, ReadsOf, Inv, Reachable;
    AllReadOf(g, Value(g, n), file, pos);
    if n != len {
      var i :| 0 <= i < |g.stages| && Short(g, i) && n == EndOf(g, i);
      ShortReadOf(g, i, file, pos);
    }
    PrefixIsSlice(Value(g, n), file, pos, len);
  }

  predicate SameByte(value: seq<Byte>, k: nat, file: File, pos: nat) {
    k < |value| && pos + k < |file| && value[k] == file[pos + k]
  }

  lemma AllReadOf(g: Group, value: seq<Byte>, file: File, pos: nat)
    requires ReadsOf(g, file, pos) && forall k :: 0 <= k < |value| ==> ReadBySome(g, k, value[k])
    ensures forall k :: 0 <= k < |value| ==> SameByte(value, k, file, pos)
  {
    forall k | 0 <= k < |value| ensures SameByte(value, k, file, pos) {
      ByteReadOf(g, k, value[k], file, pos);
    }
  }

  lemma PrefixIsSlice(value: seq<Byte>, file: File, pos: nat, len: nat)
    requires forall k :: 0 <= k < |value| ==> SameByte(value, k, file, pos)
    requires |value| == len || (|value| < len && pos + |value| >= |file|)
    ensures value == Slice(file, pos, len)
  {
    if |value| > 0 { assert SameByte(value, |value| - 1, file, pos); }
    forall k | 0 <= k < |value| ensures value[k] == Slice(file, pos, len)[k] { assert SameByte(value, k, file, pos); }
    assert |Slice(file, pos, len)| == |value|;
  }

  lemma ByteReadOf(g: Group, k: nat, b: Byte, file: File, pos: nat)
    requires ReadsOf(g, file, pos) && ReadBySome(g, k, b)
    ensures pos + k < |file| && b == file[pos + k]
  {
    hide Start, ChunkLen;
    var i :| ReadBy(g, i, k, b);
    ByteOfSlice(file, pos, Start(g.chunk, i), ChunkLen(g.len, g.chunk, i), k);
  }

  lemma ShortReadOf(g: Group, i: nat, file: File, pos: nat)
    requires Shape(g) && i < |g.stages| && Short(g, i) && ReadsOf(g, file, pos)
    ensures pos + EndOf(g, i) >= |file|
  {
    hide Start, ChunkLen, Count;
    assert g.outcomes[i].value.bytes == Slice(file, pos + Start(g.chunk, i), ChunkLen(g.len, g.chunk, i));
  }

  lemma ByteOfSlice(file: File, pos: nat, at: nat, n: nat, k: nat)
    requires at <= k < at + |Slice(file, pos + at, n)|
    ensures pos + k < |file| && Slice(file, pos + at, n)[k - at] == file[pos + k]
  {}

  lemma {:induction false} RunSnoc(g: Group, steps: seq<Step>, step: Step)
    requires Inv(g) && Enabled(Run(g, steps), step)
    ensures Run(g, steps + [step]) == Next(Run(g, steps), step)
    decreases |steps|
  {
    if steps == [] {
      assert [] + [step] == [step] && [step][1..] == [];
    } else {
      assert (steps + [step])[1..] == steps[1..] + [step];
      if Enabled(g, steps[0]) {
        InvStep(g, steps[0]);
        RunSnoc(Next(g, steps[0]), steps[1..], step);
      } else {
        RunSnoc(g, steps[1..], step);
      }
    }
  }

  /** The shared state of one group. `stages` is where each chunk's callback
      stands; `result` is what the group hands to the loop's bridge. */
  class ReadGroup {
    const len: nat
    const chunk: nat
    const buffer: array<Option<Byte>>
    var stages: seq<Stage>
    var remaining: nat
    var nLimit: nat
    var error: Option<GroupError>
    var held: bool
    ghost var completions: seq<GroupResult>
    ghost var outcomes: seq<Option<Outcome>>
    ghost var order: seq<nat>

    ghost function Abs(): Group
      reads this, buffer
    {
      Group(len, chunk, stages, remaining, nLimit, error, held, buffer[..], completions, outcomes, order)
    }

    constructor (len: nat, chunk: nat)
      requires chunk >= 1
      ensures this.len == len && this.chunk == chunk && fresh(buffer)
      ensures Abs() == Begin(len, chunk) && Inv(Abs())
    {
      this.len, this.chunk := len, chunk;
      buffer := new Option<Byte>[len](_ => None);
      var n := Count(len, chunk);
      stages, remaining := seq(n, _ => Waiting), n;
      nLimit, error, held := len, None, true;
      completions, outcomes, order := [], seq(n, _ => None), [];
      new;
      assert buffer[..] == seq(len, _ => None);
      BeginInv(len, chunk);
    }

    /** What the kernel writes into the buffer before an op settles. */
    method FillPart(at: nat, bytes: seq<Byte>)
      requires bytes != [] ==> at + |bytes| <= buffer.Length
      modifies buffer
      ensures buffer[..] == Written(old(buffer[..]), at, bytes)
    {
      forall k | 0 <= k < |bytes| { buffer[at + k] := Some(bytes[k]); }
      assert forall k :: 0 <= k < buffer.Length ==>
        buffer[k] == if at <= k < at + |bytes| then Some(bytes[k - at]) else old(buffer[k]);
    }

    /** A short read lowers the limit; the first error stays. */
    method NoteResult(start: nat, chunkLen: nat, outcome: Outcome)
      modifies this`nLimit, this`error
      ensures nLimit == if outcome.ReadOk? && |outcome.bytes| < chunkLen
        then Min(old(nLimit), start + |outcome.bytes|) else old(nLimit)
      ensures error == if old(error).Some? then old(error) else ErrorOf(outcome)
    {
      match outcome {
        case ReadOk(bytes) =>
          if |bytes| < chunkLen { nLimit := Min(nLimit, start + |bytes|); }
        case OtherReply(_) => error := if error.Some? then error else Some(Mismatched);
        case Failed(_, code) => error := if error.Some? then error else Some(Raised(code));
      }
    }

    /** The first half of `chunk_done`, under the lock, for an op whose bytes
        are in the buffer. */
    method Record(i: nat, outcome: Outcome)
      requires Inv(Abs()) && Enabled(Abs(), Settle(i, outcome))
      modifies this, buffer
      ensures Abs() == Next(old(Abs()), Settle(i, outcome)) && Inv(Abs())
    {
      InvStep(Abs(), Settle(i, outcome));
      assert Shape(Abs());
      hide Inv, Written, Start, ChunkLen;
      var start, chunkLen := Start(chunk, i), ChunkLen(len, chunk, i);
      if outcome.bytes != [] { ChunkInside(len, chunk, i); }
      FillPart(start, outcome.bytes);
      NoteResult(start, chunkLen, outcome);
      stages := stages[i := Recorded];
      outcomes, order := outcomes[i := Some(outcome)], order + [i];
    }

    /** The atomic countdown between the two locked sections. It never passes
        zero. */
    method CountDownOne(i: nat) returns (last: bool)
      requires Inv(Abs()) && Enabled(Abs(), CountDown(i))
      modifies this`stages, this`remaining
      ensures Abs() == Next(old(Abs()), CountDown(i)) && Inv(Abs())
      ensures last == (stages[i] == Last)
    {
      InvStep(Abs(), CountDown(i));
      SumAtLeast(stages, i, Left());
      last := remaining == 1;
      remaining := remaining - 1;
      stages := stages[i := if last then Last else Gone];
    }

    /** The second locked section: the future and the buffer are still there to
        be taken. */
    method CompleteGroup(i: nat) returns (result: GroupResult)
      requires Inv(Abs()) && Enabled(Abs(), Complete(i))
      modifies this
      ensures old(held) && old(remaining) == 0
      ensures Abs() == Next(old(Abs()), Complete(i)) && Inv(Abs()) && completions == [result]
    {
      InvStep(Abs(), Complete(i));
      LastMeansHeld(Abs(), i);
      held := false;
      result := if error.Some? then GroupFailed(error.value) else Filled(nLimit);
      error := None;
      stages := stages[i := Gone];
      completions := completions + [result];
    }

    /** Chunk `i` takes its next step; `result` is there when it was the one
        that completes the group. */
    method Turn(i: nat, outcome: Outcome) returns (result: Option<GroupResult>, ghost step: Step)
      requires Inv(Abs()) && i < |stages| && stages[i] != Gone && |outcome.bytes| <= ChunkLen(len, chunk, i)
      modifies this, buffer
      ensures step.i == i && Enabled(old(Abs()), step) && Abs() == Next(old(Abs()), step) && Inv(Abs())
      ensures step.Settle? ==> step.outcome == outcome
      ensures StepsLeft(Abs()) < old(StepsLeft(Abs()))
      ensures completions == if result.None? then old(completions) else [result.value]
    {
      hide Inv, Next, Start, ChunkLen, StepsLeft;
      ghost var before := Abs();
      result := None;
      match stages[i] {
        case Waiting =>
          step := Settle(i, outcome);
          Record(i, outcome);
        case Recorded =>
          step := CountDown(i);
          var _ := CountDownOne(i);
        case Last =>
          step := Complete(i);
          var taken := CompleteGroup(i);
          result := Some(taken);
      }
      InvShape(before);
      StepsDecrease(before, step);
      StepKeepsCompletions(before, step);
    }

    /** The delivered bytes: the buffer itself when it is full, else a copy of
        its first `n`. */
    method BuildValue(n: nat) returns (bytes: seq<Byte>)
      requires FilledTo(Abs(), n)
      ensures bytes == Value(Abs(), n)
    {
      bytes := [];
      for k := 0 to n
        invariant bytes == Value(Abs(), n)[..k]
      {
        assert buffer[..][k] == buffer[k];
        bytes := bytes + [buffer[k].value];
      }
    }
  }

  lemma InvShape(g: Group)
    requires Inv(g)
    ensures Shape(g)
  {}

  lemma StepKeepsCompletions(g: Group, step: Step)
    requires Shape(g) && Enabled(g, step)
    ensures !step.Complete? ==> Next(g, step).completions == g.completions
  {}

  /** A group that has not completed has a chunk that can move. */
  lemma SomeoneMoves(g: Group)
    requires Inv(g) && g.completions == []
    ensures exists i :: 0 <= i < |g.stages| && g.stages[i] != Gone
  {
    if g.remaining > 0 {
      var i := SumPositive(g.stages, Left());
    } else {
      var i := SumPositive(g.stages, IsLast());
    }
  }
}
