/** Reading to the end of a file by parallel chunks
    (python/turbofile/binary.py, `read_to_eof_parallel`), over the read group of
    crates/turbofile-py/src/lib.rs and the chunked transfers of the driver. */
module ParallelReads {
  import opened Basics
  import Transfer
  import opened ReadGroups

  type Versions = Transfer.Versions

  datatype Answer<+T> = Got(value: T) | Lost(error: GroupError)

  /** Everything that is not decided here: the file at each moment, whether the
      inline `fstat` answers, which ops fail, when a chunk's op gets its turn,
      and how much the kernel moves at a time. */
  datatype World = World(
    versions: Versions,
    inlined: nat -> bool,
    fails: (nat, nat) -> Option<int>,
    lag: nat -> nat,
    counts: (nat, nat) -> nat,
    slack: nat -> nat
  )

  /** The file's history as seen from moment `at` on. */
  function FromOn(versions: Versions, at: nat): Versions { (j: nat) => versions(at + j) }

  function Pace(world: World, lane: nat, at: nat): nat -> nat { (j: nat) => world.counts(lane, at + 2 * j) }

  /** What the driver reads for one op from moment `at` on; `lane` tells apart
      the ops that are out at the same time. */
  function OpRead(world: World, work: Transfer.SoundWork, at: nat, lane: nat): Transfer.Ended
    requires work.Read?
  {
    Transfer.ReadAll(work, FromOn(world.versions, at), Pace(world, lane, at), world.slack, 0)
  }

  function Span(e: Transfer.Ended): nat { 2 * e.last + 2 }

  function ChunkRead(world: World, from: nat, pos: nat, len: nat, chunk: nat, i: nat): Transfer.Ended {
    OpRead(world, Transfer.SizedRead(0, 0, pos + Start(chunk, i), ChunkLen(len, chunk, i), true),
           from + world.lag(i), i)
  }

  /** How chunk `i` settles. An op that fails may have moved some bytes. */
  function ChunkOutcome(world: World, from: nat, pos: nat, len: nat, chunk: nat, i: nat): Outcome {
    if len == 0 then ReadOk([]) else
    var got := ChunkRead(world, from, pos, len, chunk, i).got;
    match world.fails(i, from)
    case Some(code) => Failed(got[..Min(|got|, world.counts(i, from))], code)
    case None => ReadOk(got)
  }

  lemma ChunkFits(world: World, from: nat, pos: nat, len: nat, chunk: nat, i: nat)
    ensures |ChunkOutcome(world, from, pos, len, chunk, i).bytes| <= ChunkLen(len, chunk, i)
  {
    var work := Transfer.SizedRead(0, 0, pos + Start(chunk, i), ChunkLen(len, chunk, i), true);
    var at := from + world.lag(i);
    Transfer.SizedReadFits(work, FromOn(world.versions, at), Pace(world, i, at), world.slack, 0);
  }

  /** From `from` on, the bytes of the range stay what they are. */
  ghost predicate Settled(versions: Versions, from: nat, pos: nat, len: nat) {
    forall t: nat :: t >= from ==> Slice(versions(t), pos, len) == Slice(versions(from), pos, len)
  }

  lemma PartSettled(versions: Versions, from: nat, pos: nat, len: nat, at: nat, start: nat, n: nat)
    requires Settled(versions, from, pos, len) && at >= from && (start + n <= len || n == 0)
    ensures Transfer.RangeIs(FromOn(versions, at), versions(from), pos + start, n)
  {
    hide Slice;
    forall j: nat ensures Slice(FromOn(versions, at)(j), pos + start, n) == Slice(versions(from), pos + start, n) {
      assert Slice(versions(at + j), pos, len) == Slice(versions(from), pos, len);
      PartOfRange(versions(at + j), versions(from), pos, len, start, n);
    }
  }

  lemma StartsEmpty(work: Transfer.SoundWork, file: File)
    requires work.Read? && work.got == []
    ensures Transfer.HoldsSlice(work, file)
  {
    assert Slice(file, work.pos, 0) == [];
  }

  lemma PartInRange(len: nat, chunk: nat, i: nat)
    ensures Start(chunk, i) + ChunkLen(len, chunk, i) <= len || ChunkLen(len, chunk, i) == 0
  {}

  /** A chunk of a range that stays the same reads its part of it. */
  lemma ChunkReadsRange(world: World, from: nat, pos: nat, len: nat, chunk: nat, i: nat)
    requires Settled(world.versions, from, pos, len)
    ensures ChunkRead(world, from, pos, len, chunk, i).got
      == Slice(world.versions(from), pos + Start(chunk, i), ChunkLen(len, chunk, i))
  {
    PartInRange(len, chunk, i);
    hide Slice, Transfer.HoldsSlice, Transfer.RangeIs, Transfer.ReadAll, FromOn, Pace, Start, ChunkLen, Settled;
    var start, n, at := Start(chunk, i), ChunkLen(len, chunk, i), from + world.lag(i);
    PartSettled(world.versions, from, pos, len, at, start, n);
    var work := Transfer.SizedRead(0, 0, pos + start, n, true);
    StartsEmpty(work, world.versions(from));
    Transfer.SizedReadIsOneRead(work, FromOn(world.versions, at), world.versions(from),
      Pace(world, i, at), world.slack, 0);
  }

  lemma PartOfRange(a: File, b: File, pos: nat, len: nat, start: nat, n: nat)
    requires Slice(a, pos, len) == Slice(b, pos, len) && (start + n <= len || n == 0)
    ensures Slice(a, pos + start, n) == Slice(b, pos + start, n)
  {
    hide Slice;
    if n == 0 {
      SliceLength(a, pos + start, 0);
      SliceLength(b, pos + start, 0);
    } else {
      Transfer.SliceOfRange(a, pos, len, start);
      Transfer.SliceOfRange(b, pos, len, start);
      var rest := Slice(a, pos + start, len - start);
      assert rest == Slice(b, pos + start, len - start);
      Transfer.SliceHead(a, pos + start, len - start, n);
      Transfer.SliceHead(b, pos + start, len - start, n);
    }
  }

  /** On a file that only grows, what is there at one moment stays. */
  lemma GrowingSettles(versions: Versions, from: nat, pos: nat, len: nat)
    requires Transfer.OnlyGrows(versions) && (len == 0 || pos + len <= |versions(from)|)
    ensures Settled(versions, from, pos, len)
  {
    forall t: nat | t >= from ensures Slice(versions(t), pos, len) == Slice(versions(from), pos, len) {
      assert versions(from) <= versions(t);
      SliceLength(versions(from), pos, len);
      SliceLength(versions(t), pos, len);
      if len > 0 { Transfer.SliceOfPrefix(versions(from), versions(t), pos, len); }
    }
  }

  /** Every chunk that has settled has settled as the kernel decided. */
  predicate SettledBy(g: Group, world: World, from: nat, pos: nat) {
    forall i :: 0 <= i < |g.outcomes| && g.outcomes[i].Some? ==>
      g.outcomes[i].value == ChunkOutcome(world, from, pos, g.len, g.chunk, i)
  }

  lemma SettledByStep(g: Group, step: Step, world: World, from: nat, pos: nat)
    requires Shape(g) && Enabled(g, step) && SettledBy(g, world, from, pos)
    requires step.Settle? ==> step.outcome == ChunkOutcome(world, from, pos, g.len, g.chunk, step.i)
    ensures SettledBy(Next(g, step), world, from, pos)
  {}

  /** The moment the op of chunk `i` has ended. */
  function EndsAt(world: World, from: nat, pos: nat, len: nat, chunk: nat, i: nat): nat {
    from + world.lag(i) + Span(ChunkRead(world, from, pos, len, chunk, i))
  }

  /** The ops of all chunks have ended by this moment. */
  predicate EndedBy(world: World, from: nat, pos: nat, len: nat, chunk: nat, now: nat)
    requires chunk >= 1
  {
    forall i :: 0 <= i < Count(len, chunk) ==> EndsAt(world, from, pos, len, chunk, i) <= now
  }

  /** Those of the chunks that have settled have. */
  predicate SettledEnded(g: Group, world: World, from: nat, pos: nat, now: nat) {
    forall i :: 0 <= i < |g.outcomes| && g.outcomes[i].Some? ==> EndsAt(world, from, pos, g.len, g.chunk, i) <= now
  }

  lemma SettledEndedStep(g: Group, step: Step, world: World, from: nat, pos: nat, now: nat, later: nat)
    requires Shape(g) && Enabled(g, step) && SettledEnded(g, world, from, pos, now) && now <= later
    requires EndsAt(world, from, pos, g.len, g.chunk, step.i) <= later
    ensures SettledEnded(Next(g, step), world, from, pos, later)
  {}

  lemma AllSettledEnded(g: Group, world: World, from: nat, pos: nat, now: nat)
    requires Reachable(g, g.len, g.chunk) && g.completions != [] && SettledEnded(g, world, from, pos, now)
    ensures EndedBy(world, from, pos, g.len, g.chunk, now)
  {
    CompletesOnce(g, g.len, g.chunk);
    ReachableInv(g, g.len, g.chunk);
    assert |g.stages| == |g.outcomes| == Count(g.len, g.chunk);
    hide Inv, Reachable, EndsAt, Count;
  }

  ghost predicate SomeFails(world: World, from: nat, len: nat, chunk: nat)
    requires chunk >= 1
  {
    len > 0 && exists i :: 0 <= i < Count(len, chunk) && world.fails(i, from).Some?
  }

  lemma ErrorMeansFailure(g: Group, world: World, from: nat, pos: nat, error: GroupError)
    requires Reachable(g, g.len, g.chunk) && g.completions == [GroupFailed(error)] && SettledBy(g, world, from, pos)
    ensures SomeFails(world, from, g.len, g.chunk)
  {
    DeliveredError(g, g.len, g.chunk, error);
    ReachableInv(g, g.len, g.chunk);
    assert |g.outcomes| == Count(g.len, g.chunk);
    hide Inv, Reachable, ChunkRead, Count;
    var k :| 0 <= k < |g.order| && FailsFirst(g, k, error);
    assert g.outcomes[g.order[k]].value == ChunkOutcome(world, from, pos, g.len, g.chunk, g.order[k]);
  }

  lemma ValueMeansNoFailure(g: Group, world: World, from: nat, pos: nat, n: nat)
    requires Reachable(g, g.len, g.chunk) && g.completions == [Filled(n)] && SettledBy(g, world, from, pos)
    ensures !SomeFails(world, from, g.len, g.chunk)
  {
    ReachableInv(g, g.len, g.chunk);
    CompletesOnce(g, g.len, g.chunk);
    assert g.completions[0] == Filled(n);
    forall i | 0 <= i < Count(g.len, g.chunk) && g.len > 0 ensures world.fails(i, from).None? {
      NoErrorMeansRead(g.order, g.outcomes, i);
      assert g.outcomes[i].value == ChunkOutcome(world, from, pos, g.len, g.chunk, i);
    }
  }

  lemma SettledReadsOf(g: Group, world: World, from: nat, pos: nat)
    requires SettledBy(g, world, from, pos) && Settled(world.versions, from, pos, g.len)
    ensures ReadsOf(g, world.versions(from), pos)
  {
    hide ChunkRead, Settled, Start;
    forall i | 0 <= i < |g.outcomes| && g.outcomes[i].Some? && g.outcomes[i].value.ReadOk?
      ensures g.outcomes[i].value.bytes ==
        Slice(world.versions(from), pos + Start(g.chunk, i), ChunkLen(g.len, g.chunk, i))
    {
      ChunkReadsRange(world, from, pos, g.len, g.chunk, i);
    }
  }

  /** `read_parallel`: one op for each chunk, and their callbacks in any order
      and interleaving: each turn goes to any chunk that can still move. It ends
      when all of them have, fails exactly when some chunk's op did, and reads
      what one read would. */
  method ReadParallel(world: World, from: nat, pos: nat, len: nat, chunk: nat) returns (r: Answer<seq<Byte>>, now: nat)
    requires chunk >= 1
    ensures now >= from && EndedBy(world, from, pos, len, chunk, now)
    ensures r.Lost? <==> SomeFails(world, from, len, chunk)
    ensures r.Got? ==> |r.value| <= len
    ensures r.Got? && Settled(world.versions, from, pos, len) ==> r.value == Slice(world.versions(from), pos, len)
  {
    hide Inv, Next, Enabled, StepsLeft, ChunkOutcome, ChunkRead, ChunkLen, SettledBy, SettledEnded, EndedBy;
    var group := new ReadGroup(len, chunk);
    BeginInv(len, chunk);
    SettledByStart(world, from, pos, len, chunk);
    assert SettledEnded(group.Abs(), world, from, pos, from) by { NoneEnded(world, from, pos, len, chunk); }
    ghost var steps := [];
    now := from;
    var result: Option<GroupResult> := None;
    while result.None?
      invariant group.len == len && group.chunk == chunk && fresh(group) && fresh(group.buffer) && now >= from
      invariant Inv(group.Abs()) && group.Abs() == Run(Begin(len, chunk), steps)
      invariant SettledBy(group.Abs(), world, from, pos) && SettledEnded(group.Abs(), world, from, pos, now)
      invariant group.completions == if result.None? then [] else [result.value]
      decreases StepsLeft(group.Abs()), if result.None? then 1 else 0
    {
      SomeoneMoves(group.Abs());
      InvShape(group.Abs());
      var i :| 0 <= i < |group.stages| && group.stages[i] != Gone;
      ChunkFits(world, from, pos, len, chunk, i);
      var outcome := ChunkOutcome(world, from, pos, len, chunk, i);
      ghost var before, soon := group.Abs(), now;
      now := Max(now, from + world.lag(i) + Span(ChunkRead(world, from, pos, len, chunk, i)));
      ghost var step;
      result, step := group.Turn(i, outcome);
      SettledByStep(before, step, world, from, pos);
      SettledEndedStep(before, step, world, from, pos, soon, now);
      RunSnoc(Begin(len, chunk), steps, step);
      steps := steps + [step];
    }
    ghost var g := group.Abs();
    assert Comes(len, chunk, steps, g);
    AllSettledEnded(g, world, from, pos, now);
    match result.value {
      case GroupFailed(error) =>
        ErrorMeansFailure(g, world, from, pos, error);
        r := Lost(error);
      case Filled(n) =>
        DeliveredPrefix(g, len, chunk, n);
        ValueMeansNoFailure(g, world, from, pos, n);
        var value := group.BuildValue(n);
        r := Got(value);
        if Settled(world.versions, from, pos, len) {
          SettledReadsOf(g, world, from, pos);
          GroupIsOneRead(g, len, chunk, n, world.versions(from), pos);
        }
    }
  }

  lemma SettledByStart(world: World, from: nat, pos: nat, len: nat, chunk: nat)
    requires chunk >= 1
    ensures SettledBy(Begin(len, chunk), world, from, pos)
  {}

  lemma NoneEnded(world: World, from: nat, pos: nat, len: nat, chunk: nat)
    requires chunk >= 1
    ensures SettledEnded(Begin(len, chunk), world, from, pos, from)
  {}

  // ---------------------------------------------------------------------
  // To the end of the file
  // ---------------------------------------------------------------------

  const PARALLEL_CHUNK := 512 * 1024

  /** What a read-to-end op from `offset` on gets, its buffer sized by what
      `fstat` says at moment `at`. */
  function Probe(world: World, offset: nat, at: nat): Transfer.Ended {
    OpRead(world, Transfer.ReadToEnd(Some(0), 0, false, offset, |world.versions(at)|), at + 1, 0)
  }

  /** The moment a probe last looked for more. */
  function LastLook(world: World, offset: nat, at: nat): nat { at + 1 + 2 * Probe(world, offset, at).last }

  lemma GrowsOn(versions: Versions, at: nat)
    requires forall i: nat, j: nat :: at <= i <= j ==> versions(i) <= versions(j)
    ensures Transfer.OnlyGrows(FromOn(versions, at))
  {
    forall i: nat, j: nat | i <= j ensures FromOn(versions, at)(i) <= FromOn(versions, at)(j) {
      assert versions(at + i) <= versions(at + j);
    }
  }

  /** While the file does nothing but grow, a probe gets what is there from
      `offset` on at its last look, and nothing only when nothing is. */
  lemma ProbeOfGrowing(world: World, offset: nat, at: nat)
    requires Transfer.OnlyGrows(FromOn(world.versions, at + 1))
    ensures var got := Probe(world, offset, at).got;
      var file := world.versions(LastLook(world, offset, at));
      got == Slice(file, offset, |got|) && (got == [] ==> offset >= |file|)
  {
    var work := Transfer.ReadToEnd(Some(0), 0, false, offset, |world.versions(at)|);
    var versions := FromOn(world.versions, at + 1);
    assert Transfer.HoldsSlice(work, versions(2 * 0)) by { StartsEmpty(work, versions(2 * 0)); }
    Transfer.ReadToEndOfGrowingFile(work, versions, Pace(world, 0, at + 1), world.slack, 0, 0);
  }

  /** What has been read by moment `at`: the bytes from `start` on. */
  ghost predicate ReadSoFar(parts: seq<Byte>, versions: Versions, start: nat, at: nat) {
    parts == Slice(versions(at), start, |parts|)
  }

  lemma ReadMore(parts: seq<Byte>, probe: seq<Byte>, versions: Versions, start: nat, at: nat, look: nat)
    requires Transfer.OnlyGrows(versions) && at <= look && ReadSoFar(parts, versions, start, at)
    requires probe == Slice(versions(look), start + |parts|, |probe|)
    ensures ReadSoFar(parts + probe, versions, start, look)
    ensures start + |parts| >= |versions(look)| ==> parts == Tail(versions(look), start)
  {
    Transfer.SliceOfPrefix(versions(at), versions(look), start, |parts|);
    Transfer.SliceAppend(versions(look), start, |parts|, |probe|);
  }

  /** When the size is looked at: at once, or with an op of the driver. */
  function SizedAt(world: World, from: nat): nat { if world.inlined(from) then from else from + 1 }

  function LeftOf(file: File, start: nat): nat { if |file| > start then |file| - start else 0 }

  /** The file does not change any more. */
  ghost predicate QuietFrom(versions: Versions, quiet: nat) {
    forall t: nat :: t >= quiet ==> versions(t) == versions(quiet)
  }

  /** Reads from `start` to the end of the file, and ends once the file is
      quiet. On a file that only grows it returns exactly what the file held
      from `start` on at one moment `at` of the call, after the last chunk of the
      parallel fill has ended: so all of an unchanged file, and all that was there
      by then of any other. */
  method ReadToEofParallel(world: World, from: nat, start: nat, ghost quiet: nat)
    returns (r: Answer<seq<Byte>>, now: nat, ghost at: nat)
    requires QuietFrom(world.versions, quiet)
    ensures from <= at <= now
    ensures var sized := SizedAt(world, from);
      r.Got? ==>
        && sized < at
        && EndedBy(world, sized + 1, start, LeftOf(world.versions(sized), start), PARALLEL_CHUNK, at)
    ensures r.Lost? ==> exists lane: nat, t: nat :: from <= t <= now && world.fails(lane, t).Some?
    ensures r.Got? && Transfer.OnlyGrows(world.versions) ==> r.value == Tail(world.versions(at), start)
  {
    hide Settled, Slice, Tail, Probe, EndedBy;
    now, at := from, from;
    if !world.inlined(now) {
      now := now + 1;
      if world.fails(0, now).Some? { return Lost(Raised(world.fails(0, now).value)), now, now; }
    }
    var snapshot := now;
    var size := |world.versions(snapshot)|;
    var remaining := LeftOf(world.versions(snapshot), start);
    r, now := ReadParallel(world, snapshot + 1, start, remaining, PARALLEL_CHUNK);
    at := now;
    if r.Lost? { return; }
    FirstPart(world.versions, snapshot, start, r);
    if |r.value| < remaining { return; }
    if world.inlined(now) && |world.versions(now)| == size {
      SameSizeSameFile(world.versions, snapshot, now, start, r.value);
      return;
    }
    var parts := r.value;
    ghost var seen, filled := snapshot, now;
    while true
      invariant from <= seen <= now && filled <= now
      invariant Transfer.OnlyGrows(world.versions) ==> ReadSoFar(parts, world.versions, start, seen)
      decreases if now < quiet then quiet - now else 0,
        if start + |parts| < |world.versions(quiet)| then |world.versions(quiet)| - (start + |parts|) else 0
    {
      if world.fails(0, now).Some? { return Lost(Raised(world.fails(0, now).value)), now, now; }
      var probe := Probe(world, start + |parts|, now);
      ghost var look := LastLook(world, start + |parts|, now);
      ProbeStep(world, parts, start, seen, now, quiet);
      now := now + 1 + Span(probe);
      if probe.got == [] {
        EndedLater(world, snapshot + 1, start, remaining, PARALLEL_CHUNK, filled, look);
        return Got(parts), now, look;
      }
      parts := parts + probe.got;
      seen := look;
    }
  }

  lemma EndedLater(world: World, from: nat, pos: nat, len: nat, chunk: nat, now: nat, later: nat)
    requires chunk >= 1 && EndedBy(world, from, pos, len, chunk, now) && now <= later
    ensures EndedBy(world, from, pos, len, chunk, later)
  {
    hide EndsAt;
  }

  lemma FirstPart(versions: Versions, snapshot: nat, start: nat, r: Answer<seq<Byte>>)
    requires r.Got?
    requires var size := |versions(snapshot)|;
      var remaining := LeftOf(versions(snapshot), start);
      Settled(versions, snapshot + 1, start, remaining) ==> r.value == Slice(versions(snapshot + 1), start, remaining)
    ensures Transfer.OnlyGrows(versions) ==>
      && ReadSoFar(r.value, versions, start, snapshot) && r.value == Tail(versions(snapshot), start)
      && start + |r.value| >= |versions(snapshot)|
  {
    if Transfer.OnlyGrows(versions) {
      var size := |versions(snapshot)|;
      var remaining := LeftOf(versions(snapshot), start);
      assert versions(snapshot) <= versions(snapshot + 1);
      GrowingSettles(versions, snapshot + 1, start, remaining);
      Transfer.SliceOfPrefix(versions(snapshot), versions(snapshot + 1), start, remaining);
    }
  }

  lemma SameSizeSameFile(versions: Versions, a: nat, b: nat, start: nat, value: seq<Byte>)
    requires a <= b && |versions(a)| == |versions(b)|
    ensures Transfer.OnlyGrows(versions) && value == Tail(versions(a), start) ==> value == Tail(versions(b), start)
  {
    if Transfer.OnlyGrows(versions) { assert versions(a) <= versions(b); }
  }

  lemma BytesMeanMore(file: File, pos: nat, got: seq<Byte>)
    requires got == Slice(file, pos, |got|)
    ensures got != [] ==> pos < |file|
  {}

  /** One round of the loop that reads on. */
  lemma ProbeStep(world: World, parts: seq<Byte>, start: nat, seen: nat, now: nat, quiet: nat)
    requires QuietFrom(world.versions, quiet) && seen <= now
    requires Transfer.OnlyGrows(world.versions) ==> ReadSoFar(parts, world.versions, start, seen)
    ensures var probe := Probe(world, start + |parts|, now).got;
      var look := LastLook(world, start + |parts|, now);
      && (Transfer.OnlyGrows(world.versions) ==>
            && ReadSoFar(parts + probe, world.versions, start, look)
            && (probe == [] ==> parts == Tail(world.versions(look), start)))
      && (now >= quiet && probe != [] ==> start + |parts| < |world.versions(quiet)|)
  {
    hide Probe, Slice, Tail, ReadSoFar;
    if Transfer.OnlyGrows(world.versions) || now >= quiet {
      GrowsOn(world.versions, now + 1);
      ProbeOfGrowing(world, start + |parts|, now);
      BytesMeanMore(world.versions(LastLook(world, start + |parts|, now)), start + |parts|,
                    Probe(world, start + |parts|, now).got);
    }
    if Transfer.OnlyGrows(world.versions) {
      ReadMore(parts, Probe(world, start + |parts|, now).got, world.versions, start, seen,
               LastLook(world, start + |parts|, now));
    }
  }
}
