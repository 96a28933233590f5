/** A buffered binary file (python/turbofile/binary.py) against a plain one:
    bytes and a position. */
module BinaryFiles {
  import opened Basics
  import opened TextLines
  import opened ParallelReads
  import Transfer

  const CHUNK := 65536

  const LARGE_READ := 1024 * 1024

  datatype Failure = Closed | NotReadable | NotWritable | BadWhence | BadPosition | Os(code: int)

  datatype Outcome =
    | Bytes(data: seq<Byte>)
    | Lines(lines: seq<seq<Byte>>)
    | Count(n: nat)
    | Raised(failure: Failure)

  /** The reference: the file's bytes and the position. */
  datatype Plain = Plain(bytes: File, pos: nat)

  datatype Mode = Mode(readable: bool, writable: bool, append: bool)

  datatype Op =
    | Read(size: int)
    | ReadOne(size: int)
    | Peek
    | ReadLine(size: int)
    | ReadLines(hint: int)
    | ReadInto(len: nat)
    | Write(data: seq<Byte>)
    | Seek(offset: int, whence: int)
    | Tell
    | Truncate(to: Option<int>)

  predicate Writes(op: Op) { op.Write? || op.Truncate? }

  predicate Positions(op: Op) { op.Seek? || op.Tell? }

  /** Why an operation is refused before anything is done. */
  function Refusal(mode: Mode, isOpen: bool, op: Op): Option<Failure> {
    if !isOpen then Some(Closed)
    else if Positions(op) then None
    else if Writes(op) then (if mode.writable then None else Some(NotWritable))
    else if mode.readable then None else Some(NotReadable)
  }

  /** Where a seek goes. */
  function Target(p: Plain, offset: int, whence: int): int {
    if whence == 0 then offset else if whence == 1 then p.pos + offset else |p.bytes| + offset
  }

  function Resized(bytes: File, size: nat): File {
    if size <= |bytes| then bytes[..size] else bytes + Zeros(size - |bytes|)
  }

  /** The whole payload landed: at the position, or at the end. */
  function Landed(mode: Mode, p: Plain, data: seq<Byte>): Plain {
    if mode.append then Plain(p.bytes + data, |p.bytes| + |data|)
    else Plain(Splice(p.bytes, p.pos, data), p.pos + |data|)
  }

  /** What a plain file may answer, and what it is afterwards, when the
      operation is not refused and no op of the driver fails. */
  predicate Answers(mode: Mode, p: Plain, op: Op, r: Outcome, q: Plain) {
    match op
    case Read(size) =>
      r == Bytes(if size < 0 then Tail(p.bytes, p.pos) else Slice(p.bytes, p.pos, size)) && q == Moved(p, r)
    case ReadOne(size) =>
      var most := Slice(p.bytes, p.pos, if size < 0 then CHUNK else size);
      r.Bytes? && r.data <= most && (r.data == [] ==> most == []) && q == Moved(p, r)
    case Peek =>
      var rest := Tail(p.bytes, p.pos);
      r.Bytes? && r.data <= rest && (r.data == [] ==> rest == []) && q == p
    case ReadLine(size) =>
      r.Bytes? && r.data == FirstLine(Translated, Tail(p.bytes, p.pos), size) && q == Moved(p, r)
    case ReadLines(hint) =>
      && r.Lines? && r.lines == LinesOf(Translated, Tail(p.bytes, p.pos), hint, 0)
      && q == p.(pos := p.pos + |Concat(r.lines)|)
    case ReadInto(len) => r == Bytes(Slice(p.bytes, p.pos, len)) && q == Moved(p, r)
    case Write(data) => r == Count(|data|) && q == Landed(mode, p, data)
    case Seek(offset, whence) =>
      if whence !in {0, 1, 2} then r == Raised(BadWhence) && q == p
      else
        var target := Target(p, offset, whence);
        if target < 0 then r == Raised(BadPosition) && q == p
        else r == Count(target) && q == p.(pos := target)
    case Tell => r == Count(p.pos) && q == p
    case Truncate(size) =>
      var target := if size.Some? then size.value else p.pos;
      if target < 0 then r == Raised(BadPosition) && q == p
      else r == Count(target) && q == p.(bytes := Resized(p.bytes, target))
  }

  function Moved(p: Plain, r: Outcome): Plain
    requires r.Bytes?
  {
    p.(pos := p.pos + |r.data|)
  }

  /** An op of the driver failed: no byte has changed unless by a write, which
      may have landed in part, and the position is where it was, or, for a
      `readinto` and for `readlines`, behind what had been handed out. */
  predicate Fails(mode: Mode, p: Plain, op: Op, r: Outcome, q: Plain) {
    && r.Raised? && r.failure.Os?
    && (q.pos == p.pos || (op.ReadInto? && p.pos <= q.pos <= p.pos + |Slice(p.bytes, p.pos, op.len)|)
        || (op.ReadLines? && p.pos <= q.pos <= p.pos + |Tail(p.bytes, p.pos)|))
    && (q.bytes == p.bytes
        || (op.Write? && exists n :: 0 <= n <= |op.data| && q.bytes == Landed(mode, p, op.data[..n]).bytes))
  }

  /** The call is refused exactly when the file is closed, or open in a mode that
      does not fit, and then for that reason. */
  predicate RefusedFor(r: Outcome, isOpen: bool, fits: bool, reason: Failure) {
    if !isOpen then r == Raised(Closed)
    else if !fits then r == Raised(reason)
    else r.Raised? ==> !r.failure.Closed? && !r.failure.NotReadable? && !r.failure.NotWritable?
  }

  /** So is every call: writes for the want of a writable file, reads for that of
      a readable one, and moves only on a closed one. */
  predicate Refused(mode: Mode, isOpen: bool, op: Op, r: Outcome) {
    match op
    case Write(_) => RefusedFor(r, isOpen, mode.writable, NotWritable)
    case Truncate(_) => RefusedFor(r, isOpen, mode.writable, NotWritable)
    case Seek(_, _) => RefusedFor(r, isOpen, true, Closed)
    case Tell => RefusedFor(r, isOpen, true, Closed)
    case _ => RefusedFor(r, isOpen, mode.readable, NotReadable)
  }

  /** In a `calm` call no op of the driver fails. */
  predicate Allows(mode: Mode, isOpen: bool, calm: bool, p: Plain, op: Op, r: Outcome, q: Plain) {
    var refusal := Refusal(mode, isOpen, op);
    if refusal.Some? then r == Raised(refusal.value) && q == p
    else Answers(mode, p, op, r, q) || (!calm && Fails(mode, p, op, r, q))
  }

  /** An op of the driver fails in a call that begins at moment `from` and has
      ended by moment `to`. */
  ghost predicate Troubled(world: World, from: nat, to: nat) {
    exists lane: nat, t: nat :: from <= t < to && world.fails(lane, t).Some?
  }

  lemma TroubledWithin(world: World, a: nat, b: nat, from: nat, to: nat)
    requires Troubled(world, a, b) && from <= a && b <= to
    ensures Troubled(world, from, to)
  {}

  /** A whole sequence of operations, one after the other from moment `from` to
      moment `to`: an operation may fail only if an op of the driver failed in
      its own call. */
  ghost predicate AllowsAll(mode: Mode, isOpen: bool, world: World, p: Plain, from: nat,
                            ops: seq<Op>, rs: seq<Outcome>, q: Plain, to: nat)
    decreases |ops|
  {
    if ops == [] then rs == [] && q == p && to == from
    else rs != [] && exists m, mid: nat ::
      && from <= mid && Allows(mode, isOpen, !Troubled(world, from, mid), p, ops[0], rs[0], m)
      && AllowsAll(mode, isOpen, world, m, mid, ops[1..], rs[1..], q, to)
  }

  lemma {:induction false} OneMoreOp(mode: Mode, isOpen: bool, world: World, p: Plain, from: nat,
                                     ops: seq<Op>, rs: seq<Outcome>, m: Plain, mid: nat, op: Op, r: Outcome,
                                       q: Plain, to: nat)
    requires AllowsAll(mode, isOpen, world, p, from, ops, rs, m, mid) && mid <= to
    requires Allows(mode, isOpen, !Troubled(world, mid, to), m, op, r, q)
    ensures AllowsAll(mode, isOpen, world, p, from, ops + [op], rs + [r], q, to)
    decreases |ops|
  {
    hide Allows, Troubled;
    if ops == [] {
      assert ([] + [op])[1..] == [] && ([] + [r])[1..] == [];
      assert AllowsAll(mode, isOpen, world, q, to, [], [], q, to);
    } else {
      var next, at: nat :|
        && from <= at && Allows(mode, isOpen, !Troubled(world, from, at), p, ops[0], rs[0], next)
        && AllowsAll(mode, isOpen, world, next, at, ops[1..], rs[1..], m, mid);
      OneMoreOp(mode, isOpen, world, next, at, ops[1..], rs[1..], m, mid, op, r, q, to);
      assert (ops + [op])[1..] == ops[1..] + [op] && (rs + [r])[1..] == rs[1..] + [r];
    }
  }

  lemma SliceAndTail(file: File, pos: nat, n: nat)
    ensures Slice(file, pos, n) <= Tail(file, pos)
    ensures Slice(file, pos, n) + Tail(file, pos + |Slice(file, pos, n)|) == Tail(file, pos)
    ensures |Slice(file, pos, n)| == Min(n, |Tail(file, pos)|)
  {}

  lemma SliceParts(file: File, pos: nat, head: seq<Byte>, n: nat)
    requires head <= Tail(file, pos) && |head| <= n
    ensures head + Slice(file, pos + |head|, n - |head|) == Slice(file, pos, n)
  {}

  lemma TailParts(file: File, pos: nat, n: nat)
    requires n <= |Tail(file, pos)|
    ensures Tail(file, pos + n) == Tail(file, pos)[n..] && Tail(file, pos)[..n] == Slice(file, pos, n)
  {}

  /** Handing out the first `n` of the pending bytes. */
  lemma TakeFront(file: File, pos: nat, pending: seq<Byte>, n: nat)
    requires pending <= Tail(file, pos) && n <= |pending|
    ensures pending[n..] <= Tail(file, pos + n) && pending[..n] + Tail(file, pos + n) == Tail(file, pos)
    ensures pending[..n] == Slice(file, pos, n)
  {
    TailParts(file, pos, n);
  }

  /** Memory with some bytes put into it. */
  function Placed(before: seq<Byte>, at: nat, data: seq<Byte>): (r: seq<Byte>)
    requires at + |data| <= |before|
    ensures |r| == |before|
  {
    before[..at] + data + before[at + |data|..]
  }

  class BinaryFile {
    const mode: Mode
    const world: World
    var file: File
    var tick: nat
    var isOpen: bool
    var pos: nat
    /** Bytes already fetched from `pos` on. */
    var pending: seq<Byte>
    var fast: bool
    var sizeHint: nat

    ghost predicate Valid()
      reads this
    {
      pending <= Tail(file, pos)
    }

    ghost function View(): Plain
      reads this
    {
      Plain(file, pos)
    }

    /** The outcome and the new state are what a plain file allows of a call
        that began at moment `from`. */
    ghost predicate Follows(before: Plain, from: nat, op: Op, r: Outcome)
      reads this
    {
      from <= tick && Allows(mode, isOpen, !Troubled(world, from, tick), before, op, r, View())
    }

    constructor (file: File, mode: Mode, world: World)
      ensures this.mode == mode && this.world == world && isOpen
      ensures Valid() && View() == Plain(file, if mode.append then |file| else 0)
    {
      this.file, this.mode, this.world := file, mode, world;
      tick, isOpen, pos, pending, fast := 0, true, if mode.append then |file| else 0, [], true;
      sizeHint := |file|;
    }

    // -------------------------------------------------------------------
    // What the driver and the page cache are asked for
    // -------------------------------------------------------------------

    /** Whether the next op of the driver fails. */
    method Trouble() returns (failure: Option<Failure>)
      modifies this`tick
      ensures tick == old(tick) + 1 && (failure.Some? ==> failure.value.Os? && Troubled(world, old(tick), tick))
    {
      failure := if world.fails(0, tick).Some? then Some(Os(world.fails(0, tick).value)) else None;
      tick := tick + 1;
    }

    /** A sized read: from resident pages, or an op of the driver. */
    method Fetch(at: nat, n: nat) returns (r: Outcome)
      modifies this`tick, this`fast
      ensures tick > old(tick)
      ensures r == Bytes(Slice(file, at, n)) || (r.Raised? && r.failure.Os? && Troubled(world, old(tick), tick))
    {
      if fast && world.inlined(tick) {
        tick := tick + 1;
        return Bytes(Slice(file, at, n));
      }
      fast := fast && world.inlined(tick + 1);
      var failure := Trouble();
      if failure.Some? { return Raised(failure.value); }
      var work := Transfer.SizedRead(0, 0, at, n, true);
      StartsEmpty(work, file);
      hide Slice;
      Transfer.SizedReadIsOneRead(work, Transfer.Always(file), file, Pace(world, 0, tick), world.slack, 0);
      var e := Transfer.ReadAll(work, Transfer.Always(file), Pace(world, 0, tick), world.slack, 0);
      r := Bytes(e.got);
    }

    /** A read to the end of the file: from resident pages, or an op. */
    method FetchRest(at: nat) returns (r: Outcome)
      modifies this`tick, this`fast
      ensures tick > old(tick)
      ensures r == Bytes(Tail(file, at)) || (r.Raised? && r.failure.Os? && Troubled(world, old(tick), tick))
    {
      if fast && world.inlined(tick) {
        tick := tick + 1;
        return Bytes(Tail(file, at));
      }
      fast := fast && world.inlined(tick + 1);
      var failure := Trouble();
      if failure.Some? { return Raised(failure.value); }
      var work := Transfer.ReadToEnd(Some(0), 0, false, at, |file|);
      StartsEmpty(work, file);
      Transfer.ReadToEndIsExact(work, file, Pace(world, 0, tick), world.slack, 0);
      var e := Transfer.ReadAll(work, Transfer.Always(file), Pace(world, 0, tick), world.slack, 0);
      r := Bytes(e.result.reply.data);
    }

    // -------------------------------------------------------------------
    // Reading
    // -------------------------------------------------------------------

    method Read(size: int) returns (r: Outcome)
      requires Valid()
      modifies this
      ensures Valid() && isOpen == old(isOpen) && Follows(old(View()), old(tick), Op.Read(size), r)
      ensures RefusedFor(r, isOpen, mode.readable, NotReadable)
    {
      hide Slice, Tail, LinesOf, FirstLine, Concat, LineEnd, Find;
      var refusal := Refusal(mode, isOpen, Op.Read(size));
      if refusal.Some? { return Raised(refusal.value); }
      if size < 0 {
        r := ReadEverything();
        return;
      }
      SliceAndTail(file, pos, size);
      TailParts(file, pos, |pending|);
      if |pending| >= size {
        TailParts(file, pos, size);
        r := Bytes(pending[..size]);
        pending, pos := pending[size..], pos + size;
        return;
      }
      SliceParts(file, pos, pending, size);
      var head := pending;
      pending := [];
      var rest := Fetch(pos + |head|, size - |head|);
      if rest.Raised? { return rest; }
      r := Bytes(head + rest.data);
      pos := pos + |r.data|;
    }

    method ReadEverything() returns (r: Outcome)
      requires Valid()
      modifies this
      ensures Valid() && isOpen == old(isOpen) && tick >= old(tick)
      ensures Answers(mode, old(View()), Op.Read(-1), r, View())
        || (r.Raised? && r.failure.Os? && Troubled(world, old(tick), tick) && View() == old(View()))
    {
      hide Slice, Tail, LinesOf, FirstLine, Concat, LineEnd, Find;
      var start := pos + |pending|;
      TailParts(file, pos, |pending|);
      if sizeHint - start >= LARGE_READ {
        r := ReadAllLarge(start);
        return;
      }
      var rest := FetchRest(start);
      if rest.Raised? { return rest; }
      var data := pending + rest.data;
      pending := [];
      pos := pos + |data|;
      sizeHint := Max(sizeHint, pos);
      r := Bytes(data);
    }

    method ReadAllLarge(start: nat) returns (r: Outcome)
      requires Valid() && start == pos + |pending| && pending + Tail(file, start) == Tail(file, pos)
      modifies this
      ensures Valid() && isOpen == old(isOpen) && tick >= old(tick)
      ensures Answers(mode, old(View()), Op.Read(-1), r, View())
        || (r.Raised? && r.failure.Os? && Troubled(world, old(tick), tick) && View() == old(View()))
    {
      hide Slice, Tail, LinesOf, FirstLine, Concat, LineEnd, Find;
      var still: World := world.(versions := Transfer.Always(file));
      var rest, now;
      ghost var at;
      rest, now, at := ReadToEofParallel(still, tick, start, 0);
      tick := now + 1;
      match rest {
        case Lost(error) => return Raised(Os(if error.Raised? then error.code else 0));
        case Got(value) =>
          assert Transfer.OnlyGrows(still.versions);
          var data := pending + value;
          pending := [];
          pos := start + |value|;
          sizeHint := Max(sizeHint, pos);
          r := Bytes(data);
      }
    }

    method ReadOne(size: int) returns (r: Outcome)
      requires Valid()
      modifies this
      ensures Valid() && isOpen == old(isOpen) && Follows(old(View()), old(tick), Op.ReadOne(size), r)
      ensures RefusedFor(r, isOpen, mode.readable, NotReadable)
    {
      hide Slice, Tail, LinesOf, FirstLine, Concat, LineEnd, Find;
      var refusal := Refusal(mode, isOpen, Op.ReadOne(size));
      if refusal.Some? { return Raised(refusal.value); }
      var want: nat := if size < 0 then CHUNK else size;
      SliceAndTail(file, pos, want);
      if pending == [] {
        r := Fetch(pos, want);
        if r.Bytes? { pos := pos + |r.data|; }
        return;
      }
      var n := Min(want, |pending|);
      TailParts(file, pos, n);
      var data := pending[..n];
      pending, pos := pending[n..], pos + n;
      r := Bytes(data);
    }

    method Peek() returns (r: Outcome)
      requires Valid()
      modifies this
      ensures Valid() && isOpen == old(isOpen) && Follows(old(View()), old(tick), Op.Peek, r)
      ensures RefusedFor(r, isOpen, mode.readable, NotReadable)
    {
      hide Slice, Tail, LinesOf, FirstLine, Concat, LineEnd, Find;
      var refusal := Refusal(mode, isOpen, Op.Peek);
      if refusal.Some? { return Raised(refusal.value); }
      if pending == [] {
        SliceAndTail(file, pos, CHUNK);
        var ahead := Fetch(pos, CHUNK);
        if ahead.Raised? { return ahead; }
        pending := ahead.data;
      }
      r := Bytes(pending);
    }

    /** Fetches until the pending bytes hold a line end, the limit has been
        reached, or the file ends. */
    method FetchLine(limit: int) returns (failure: Option<Failure>)
      requires Valid() && Find(pending, [LF], 0) == -1 && (limit < 0 || |pending| < limit)
      modifies this`tick, this`fast, this`pending
      ensures Valid() && tick >= old(tick)
      ensures failure.None? ==>
        Find(pending, [LF], 0) >= 0 || (0 <= limit <= |pending|) || pending == Tail(file, pos)
      ensures failure.Some? ==> failure.value.Os? && Troubled(world, old(tick), tick) && pending == old(pending)
    {
      hide Slice, Tail, LinesOf, FirstLine, Concat, LineEnd, Find;
      failure := None;
      var parts := pending;
      while true
        invariant parts <= Tail(file, pos) && pending == old(pending) && tick >= old(tick)
        decreases |Tail(file, pos)| - |parts|
      {
        TailParts(file, pos, |parts|);
        ghost var from := tick;
        var chunk := Fetch(pos + |parts|, CHUNK);
        if chunk.Raised? {
          TroubledWithin(world, from, tick, old(tick), tick);
          return Some(chunk.failure);
        }
        SliceAndTail(file, pos + |parts|, CHUNK);
        if chunk.data == [] { break; }
        var found := Find(chunk.data, [LF], 0);
        FoundInPart(parts, chunk.data);
        parts := parts + chunk.data;
        if found != -1 { break; }
        if 0 <= limit <= |parts| { break; }
      }
      pending := parts;
    }

    /** The next line, once the file is known to be open for reading. */
    method NextLine(size: int) returns (r: Outcome)
      requires Valid()
      modifies this`tick, this`fast, this`pending, this`pos
      ensures Valid() && tick >= old(tick)
      ensures r.Bytes? ==>
        && r.data == FirstLine(Translated, old(Tail(file, pos)), size) && pos == old(pos) + |r.data|
        && old(Tail(file, pos)) == r.data + Tail(file, pos)
      ensures !r.Bytes? ==>
        r.Raised? && r.failure.Os? && Troubled(world, old(tick), tick) && pos == old(pos) && pending == old(pending)
    {
      hide Slice, Tail, LinesOf, FirstLine, Concat, LineEnd, Find;
      ghost var all := Tail(file, pos);
      var idx := Find(pending, [LF], 0);
      if idx == -1 && (size < 0 || |pending| < size) {
        var failure := FetchLine(size);
        if failure.Some? { return Raised(failure.value); }
        idx := Find(pending, [LF], 0);
      }
      FirstOfTail(pending, all, size);
      var end: nat := if idx == -1 then |pending| else idx + 1;
      if 0 <= size < end { end := size; }
      TakeFront(file, pos, pending, end);
      var line := pending[..end];
      pending, pos := pending[end..], pos + end;
      r := Bytes(line);
    }

    method ReadLine(size: int) returns (r: Outcome)
      requires Valid()
      modifies this
      ensures Valid() && isOpen == old(isOpen) && Follows(old(View()), old(tick), Op.ReadLine(size), r)
      ensures RefusedFor(r, isOpen, mode.readable, NotReadable)
    {
      hide Slice, Tail, FirstLine;
      var refusal := Refusal(mode, isOpen, Op.ReadLine(size));
      if refusal.Some? { return Raised(refusal.value); }
      r := NextLine(size);
    }

    /** Lines until `hint` bytes have been handed out, or all of them. */
    method ReadLines(hint: int) returns (r: Outcome)
      requires Valid()
      modifies this
      ensures Valid() && isOpen == old(isOpen) && Follows(old(View()), old(tick), Op.ReadLines(hint), r)
      ensures RefusedFor(r, isOpen, mode.readable, NotReadable)
    {
      hide Slice, Tail, FirstLine, LinesOf, Concat, HandedOut, LineEnd, Find;
      var refusal := Refusal(mode, isOpen, Op.ReadLines(hint));
      if refusal.Some? { return Raised(refusal.value); }
      ghost var all := Tail(file, pos);
      var lines: seq<seq<Byte>> := [];
      var total: nat := 0;
      NoneHandedOut(Translated, all, hint);
      while true
        invariant Valid() && isOpen && file == old(file) && pos == old(pos) + total && tick >= old(tick)
        invariant HandedOut(Translated, all, lines, Tail(file, pos), hint, total)
        decreases |Tail(file, pos)|
      {
        ghost var rest, from := Tail(file, pos), tick;
        r := NextLine(-1);
        HandedOutBounds(Translated, all, lines, rest, hint, total);
        if r.Raised? {
          TroubledWithin(world, from, tick, old(tick), tick);
          return;
        }
        OneMoreLine(Translated, all, lines, rest, r.data, Tail(file, pos), hint, total);
        if r.data == [] { break; }
        lines := lines + [r.data];
        total := total + |r.data|;
        if 0 < hint <= total { break; }
      }
      r := Lines(lines);
    }

    method ReadInto(view: array<Byte>) returns (r: Outcome)
      requires Valid()
      modifies this, view
      ensures Valid() && isOpen == old(isOpen) && Follows(old(View()), old(tick), Op.ReadInto(view.Length), r)
      ensures RefusedFor(r, isOpen, mode.readable, NotReadable)
      ensures r.Bytes? ==> |r.data| <= view.Length && view[..] == r.data + old(view[..])[|r.data|..]
    {
      hide Slice, Tail;
      var refusal := Refusal(mode, isOpen, Op.ReadInto(view.Length));
      if refusal.Some? { return Raised(refusal.value); }
      r := FillView(view);
    }

    /** The pending bytes first, then the file. */
    method FillView(view: array<Byte>) returns (r: Outcome)
      requires Valid()
      modifies this`tick, this`fast, this`pending, this`pos, view
      ensures Valid() && tick >= old(tick)
      ensures r.Bytes? ==>
        && r.data == Slice(file, old(pos), view.Length) && pos == old(pos) + |r.data|
        && |r.data| <= view.Length && view[..] == r.data + old(view[..])[|r.data|..]
      ensures !r.Bytes? ==>
        && r.Raised? && r.failure.Os? && Troubled(world, old(tick), tick)
        && old(pos) <= pos <= old(pos) + |Slice(file, old(pos), view.Length)|
    {
      hide Slice, Tail, Troubled, Placed;
      SliceAndTail(file, pos, view.Length);
      if pending == [] {
        r := FillFetched(view);
        return;
      }
      var n := Min(view.Length, |pending|);
      TakeFront(file, pos, pending, n);
      SliceParts(file, pos, pending[..n], view.Length);
      var head := pending[..n];
      ghost var was := view[..];
      Fill(view, 0, head);
      FirstFill(was, head);
      pending, pos := pending[n..], pos + n;
      if n == view.Length { return Bytes(head); }
      var rest := Fetch(pos, view.Length - n);
      if rest.Raised? { return rest; }
      Fill(view, n, rest.data);
      SecondFill(was, head, rest.data);
      pos := pos + |rest.data|;
      r := Bytes(head + rest.data);
    }

    /** With nothing pending, all of it from the file. */
    method FillFetched(view: array<Byte>) returns (r: Outcome)
      requires Valid() && pending == []
      modifies this`tick, this`fast, this`pos, view
      ensures Valid() && tick >= old(tick)
      ensures r.Bytes? ==>
        && r.data == Slice(file, old(pos), view.Length) && pos == old(pos) + |r.data|
        && |r.data| <= view.Length && view[..] == r.data + old(view[..])[|r.data|..]
      ensures !r.Bytes? ==> r.Raised? && r.failure.Os? && Troubled(world, old(tick), tick) && pos == old(pos)
    {
      hide Slice, Tail, Troubled, Placed;
      SliceAndTail(file, pos, view.Length);
      r := Fetch(pos, view.Length);
      if r.Bytes? {
        FirstFill(view[..], r.data);
        Fill(view, 0, r.data);
        pos := pos + |r.data|;
      }
    }

    static method Fill(view: array<Byte>, at: nat, data: seq<Byte>)
      requires at + |data| <= view.Length
      modifies view
      ensures view[..] == Placed(old(view[..]), at, data)
    {
      forall k | 0 <= k < |data| { view[at + k] := data[k]; }
    }

    // -------------------------------------------------------------------
    // Writing and moving
    // -------------------------------------------------------------------

    method Write(data: seq<Byte>) returns (r: Outcome)
      requires Valid()
      modifies this
      ensures Valid() && isOpen == old(isOpen) && Follows(old(View()), old(tick), Op.Write(data), r)
      ensures RefusedFor(r, isOpen, mode.writable, NotWritable)
    {
      hide Landed, Transfer.WriteAll;
      var refusal := Refusal(mode, isOpen, Op.Write(data));
      if refusal.Some? { return Raised(refusal.value); }
      pending := [];
      var failure := Trouble();
      if failure.Some? {
        var landed := Min(world.counts(0, tick), |data|);
        file := Landed(mode, Plain(file, pos), data[..landed]).bytes;
        return Raised(failure.value);
      }
      if data == [] {
        NothingLands(mode, View());
        if mode.append { pos := |file|; }
      } else {
        var work := Transfer.Work.Write(Some(0), 0, false, pos, mode.append, data, 0);
        AllLands(mode, View(), work, Pace(world, 0, tick));
        var (result, after) := Transfer.WriteAll(work, file, Pace(world, 0, tick), 0);
        file, pos := after, result.reply.end;
      }
      sizeHint := Max(sizeHint, pos);
      r := Count(|data|);
    }

    method Seek(offset: int, whence: int) returns (r: Outcome)
      requires Valid()
      modifies this
      ensures Valid() && isOpen == old(isOpen) && Follows(old(View()), old(tick), Op.Seek(offset, whence), r)
      ensures RefusedFor(r, isOpen, true, Closed)
      ensures file == old(file) && (r.Count? ==> pos == r.n) && (!r.Count? ==> pos == old(pos))
      ensures r.Count? ==>
        && whence in {0, 1, 2}
        && r.n == offset + (if whence == 0 then 0 else if whence == 1 then old(pos) else |file|)
      ensures isOpen ==>
        && (r == Raised(BadWhence) <==> whence !in {0, 1, 2})
        && (whence == 0 ==> (r == Raised(BadPosition) <==> offset < 0))
        && (whence == 1 ==> (r == Raised(BadPosition) <==> old(pos) + offset < 0))
        && (whence == 2 && r == Raised(BadPosition) ==> |file| + offset < 0)
    {
      hide Slice, Tail, LinesOf, FirstLine, Concat, LineEnd, Find;
      if !isOpen { return Raised(Closed); }
      var target := offset;
      if whence == 1 {
        target := pos + offset;
      } else if whence == 2 {
        var failure := Trouble();
        if failure.Some? { return Raised(failure.value); }
        sizeHint := |file|;
        target := |file| + offset;
      } else if whence != 0 {
        return Raised(BadWhence);
      }
      if target < 0 { return Raised(BadPosition); }
      pending, pos := [], target;
      r := Count(target);
    }

    method Tell() returns (r: Outcome)
      ensures Follows(View(), tick, Op.Tell, r) && RefusedFor(r, isOpen, true, Closed)
      ensures isOpen ==> r == Count(pos)
    {
      r := if isOpen then Count(pos) else Raised(Closed);
    }

    method Truncate(size: Option<int>) returns (r: Outcome)
      requires Valid()
      modifies this
      ensures Valid() && isOpen == old(isOpen) && Follows(old(View()), old(tick), Op.Truncate(size), r)
      ensures RefusedFor(r, isOpen, mode.writable, NotWritable)
      ensures pos == old(pos) && (!r.Count? ==> file == old(file))
      ensures r.Count? ==>
        && |file| == r.n == (if size.Some? then size.value else pos)
        && forall i :: 0 <= i < r.n ==> file[i] == if i < |old(file)| then old(file)[i] else 0
      ensures r == Raised(BadPosition) <==> isOpen && mode.writable && size.Some? && size.value < 0
    {
      var refusal := Refusal(mode, isOpen, Op.Truncate(size));
      if refusal.Some? { return Raised(refusal.value); }
      var target := if size.Some? then size.value else pos;
      pending := [];
      if target < 0 { return Raised(BadPosition); }
      var failure := Trouble();
      if failure.Some? { return Raised(failure.value); }
      file := Resized(file, target);
      sizeHint := target;
      r := Count(target);
    }

    method Close()
      modifies this
      ensures !isOpen && View() == old(View()) && (Valid() || !old(Valid()))
    {
      isOpen, pending, fast := false, [], false;
    }

    /** Any sequence of operations gives answers a plain file allows. */
    method Perform(ops: seq<Op>) returns (rs: seq<Outcome>)
      requires Valid()
      modifies this
      ensures Valid() && isOpen == old(isOpen)
      ensures AllowsAll(mode, isOpen, world, old(View()), old(tick), ops, rs, View(), tick)
      ensures |rs| == |ops| && forall i :: 0 <= i < |ops| ==> Refused(mode, isOpen, ops[i], rs[i])
    {
      hide Allows, Troubled, Refused;
      rs := [];
      for i := 0 to |ops|
        invariant Valid() && isOpen == old(isOpen)
        invariant AllowsAll(mode, isOpen, world, old(View()), old(tick), ops[..i], rs, View(), tick)
        invariant |rs| == i && forall j :: 0 <= j < i ==> Refused(mode, isOpen, ops[j], rs[j])
      {
        ghost var before, from := View(), tick;
        var r := PerformOne(ops[i]);
        OneMoreOp(mode, isOpen, world, old(View()), old(tick), ops[..i], rs, before, from, ops[i], r, View(), tick);
        assert ops[..i] + [ops[i]] == ops[..i + 1];
        rs := rs + [r];
      }
      assert ops[..|ops|] == ops;
    }

    method PerformOne(op: Op) returns (r: Outcome)
      requires Valid()
      modifies this
      ensures Valid() && isOpen == old(isOpen) && Follows(old(View()), old(tick), op, r)
      ensures Refused(mode, isOpen, op, r)
    {
      hide Allows;
      match op
      case Read(size) => r := Read(size);
      case ReadOne(size) => r := ReadOne(size);
      case Peek => r := Peek();
      case ReadLine(size) => r := ReadLine(size);
      case ReadLines(hint) => r := ReadLines(hint);
      case ReadInto(len) =>
        var view := new Byte[len](_ => 0);
        r := ReadInto(view);
      case Write(data) => r := Write(data);
      case Seek(offset, whence) => r := Seek(offset, whence);
      case Tell => r := Tell();
      case Truncate(size) => r := Truncate(size);
    }
  }

  lemma NothingLands(mode: Mode, p: Plain)
    ensures Landed(mode, p, []) == if mode.append then p.(pos := |p.bytes|) else p
  {
    assert p.bytes + [] == p.bytes;
  }

  lemma AllLands(mode: Mode, p: Plain, work: Transfer.SoundWork, counts: nat -> nat)
    requires work.Write? && work.filled == 0 && work.pos == p.pos && work.append == mode.append
    ensures var (result, after) := Transfer.WriteAll(work, p.bytes, counts, 0);
      && result.Ok? && result.reply.WrittenReply?
      && Landed(mode, p, work.data) == Plain(after, result.reply.end)
  {
    hide Splice, Transfer.WriteAll;
    assert work.data[0..] == work.data;
    Transfer.WriteIsOneWrite(work, p.bytes, counts, 0);
  }

  lemma FirstFill(before: seq<Byte>, data: seq<Byte>)
    requires |data| <= |before|
    ensures Placed(before, 0, data) == data + before[|data|..]
  {}

  lemma SecondFill(before: seq<Byte>, head: seq<Byte>, rest: seq<Byte>)
    requires |head| + |rest| <= |before|
    ensures Placed(Placed(before, 0, head), |head|, rest) == (head + rest) + before[|head + rest|..]
  {}

  lemma FoundInPart(a: seq<Byte>, b: seq<Byte>)
    ensures Find(b, [LF], 0) != -1 ==> Find(a + b, [LF], 0) >= 0
  {
    FindOne(b, LF, 0);
    FindOne(a + b, LF, 0);
    var i := Find(b, [LF], 0);
    if i >= 0 { assert (a + b)[|a| + i] == LF; }
  }

  /** The first line of what is left, from a part of it that has a line end or
      reaches the limit or the end. */
  lemma FirstOfTail(part: seq<Byte>, all: seq<Byte>, limit: int)
    requires part <= all
    requires Find(part, [LF], 0) >= 0 || 0 <= limit <= |part| || part == all
    ensures var idx := Find(part, [LF], 0);
      var end: int := if idx == -1 then |part| else idx + 1;
      var cut := if 0 <= limit < end then limit else end;
      0 <= cut <= |part| && end <= |part| && part[..cut] == FirstLine(Translated, all, limit)
  {
    FindOne(part, LF, 0);
    SearchIsChunkFree(Translated, part, all, 0);
  }

  /** The bytes of `read()` are those of the file at the position, as many as were
      asked for and are there. */
  lemma ReadIsFile(mode: Mode, p: Plain, size: int, r: Outcome, q: Plain)
    requires Answers(mode, p, Op.Read(size), r, q)
    ensures var left := if p.pos < |p.bytes| then |p.bytes| - p.pos else 0;
      && r.Bytes? && |r.data| == (if 0 <= size < left then size else left)
      && q == Plain(p.bytes, p.pos + |r.data|)
      && forall i :: 0 <= i < |r.data| ==> r.data[i] == p.bytes[p.pos + i]
  {
    var left := if p.pos < |p.bytes| then |p.bytes| - p.pos else 0;
    if size >= 0 { SliceLength(p.bytes, p.pos, size); }
  }

  /** The line of `readline()` has a line end nowhere but at its end; and it has one
      there, unless it has as many bytes as were asked for or is the rest. */
  lemma LineIsFirst(mode: Mode, p: Plain, size: int, r: Outcome, q: Plain)
    requires Answers(mode, p, Op.ReadLine(size), r, q)
    ensures r.Bytes? && q == Plain(p.bytes, p.pos + |r.data|) && r.data <= Tail(p.bytes, p.pos)
    ensures forall i :: 0 <= i < |r.data| - 1 ==> r.data[i] != 10
    ensures size >= 0 ==> |r.data| <= size
    ensures |r.data| == size || r.data == Tail(p.bytes, p.pos) || r.data[|r.data| - 1..] == [10]
  {
    var rest := Tail(p.bytes, p.pos);
    LineEndBounds(Translated, rest, 0);
    FirstEnds(rest, 0);
    var end := LineEnd(Translated, rest, 0);
    if rest != [] && !(0 <= size < end) && end < |rest| { assert r.data[end - 1] == rest[end - 1] == LF; }
  }

  lemma {:induction false} FirstEnds(text: seq<Byte>, from: nat)
    ensures var end := LineEnd(Translated, text, from);
      && (forall i :: from <= i < end - 1 && i < |text| ==> text[i] != LF)
      && (0 < end < |text| ==> text[end - 1] == LF)
    decreases |text| - from
  {
    if from < |text| && text[from] != LF { FirstEnds(text, from + 1); }
  }

  /** The lines of `readlines()` are the rest of the file, cut up. */
  lemma ReadLinesIsRest(mode: Mode, p: Plain, hint: int, r: Outcome, q: Plain)
    requires Answers(mode, p, ReadLines(hint), r, q)
    ensures hint <= 0 ==> Concat(r.lines) == Tail(p.bytes, p.pos) && Tail(q.bytes, q.pos) == []
    ensures Concat(r.lines) + Tail(q.bytes, q.pos) == Tail(p.bytes, p.pos)
  {
    LinesAreText(Translated, Tail(p.bytes, p.pos), hint, 0);
    TailParts(p.bytes, p.pos, |Concat(r.lines)|);
  }
}
