/** One read, write or fsync of the macOS driver, moved chunk by chunk
    (crates/turbofile-core/src/darwin_aio.rs): what a chunk asks the kernel for,
    and what a finished chunk does to the job. A job meets the kernel through
    an AIO request or through a plain system call; both move one chunk. */
module Transfer {
  import opened Basics

  type Id = nat
  type Handle = nat
  type Fd = nat

  datatype Error = BadHandle | Cancelled | Os(code: int)

  datatype Reply =
    | HandleReply(handle: Handle, size: nat, fd: Fd)
    | BytesReply(data: seq<Byte>)
    | ReadReply(n: nat)
    | WrittenReply(n: nat, end: nat)
    | SizeReply(size: nat)
    | UnitReply

  datatype Result = Ok(reply: Reply) | Err(error: Error)

  datatype Want = Exact(len: nat) | ToEnd

  /** `got` is the filled part of the read's buffer, `room` the capacity of
      that buffer: of the vector, or the length of the caller's memory when the
      buffer is `external`. */
  datatype Work =
    | Read(handle: Option<Handle>, fd: Fd, owned: bool, pos: nat, want: Want,
           external: bool, room: nat, got: seq<Byte>)
    | Write(handle: Option<Handle>, fd: Fd, owned: bool, pos: nat, append: bool,
            data: seq<Byte>, filled: nat)
    | Fsync(handle: Option<Handle>, fd: Fd, owned: bool)

  /** What the kernel moved in one chunk: the bytes of a read, the count of a
      write. */
  datatype Moved = Moved(n: nat, bytes: seq<Byte>)

  /** What `fstat` says after a chunk (`regular` only for a regular file), and
      how much more than it was asked for the allocator reserves. */
  datatype Look = Look(regular: Option<nat>, size: Option<nat>, statError: int, slack: nat)

  /** A chunk done: what the kernel moved, and what `fstat` said after it. */
  datatype Chunk = Chunk(moved: Moved, look: Look)

  /** The growth a full vector asks for. */
  const GROWTH := 65536

  predicate WellFormed(w: Work) {
    match w
    case Read(_, _, _, _, want, external, room, got) =>
      && |got| <= room
      && (want.Exact? ==> room == want.len)
      && (external ==> want.Exact?)
    case Write(_, _, _, _, _, data, filled) => filled <= |data|
    case Fsync(_, _, owned) => !owned
  }

  type SoundWork = w: Work | WellFormed(w) witness Fsync(None, 0, false)

  /** The file offset the next chunk starts at. */
  function Offset(w: Work): nat {
    match w
    case Read(_, _, _, pos, _, _, _, got) => pos + |got|
    case Write(_, _, _, pos, _, _, filled) => pos + filled
    case Fsync(_, _, _) => 0
  }

  /** How many bytes the next chunk asks for: for a read all the room left in
      the buffer, whatever the op wants. */
  function Asks(w: Work): nat
    requires WellFormed(w)
  {
    match w
    case Read(_, _, _, _, _, _, room, got) => room - |got|
    case Write(_, _, _, _, _, data, filled) => |data| - filled
    case Fsync(_, _, _) => 0
  }

  /** A count the kernel may report: at most what was asked for, and at least
      one byte for a write that has any. */
  predicate Legal(w: Work, m: Moved)
    requires WellFormed(w)
  {
    match w
    case Read(_, _, _, _, _, _, _, _) => m.n == |m.bytes| && m.n <= Asks(w)
    case Write(_, _, _, _, _, _, _) => m.n <= Asks(w) && (Asks(w) > 0 ==> m.n >= 1)
    case Fsync(_, _, _) => true
  }

  /** Any answer made legal; a legal one is kept. */
  function Clamp(w: Work, m: Moved): (r: Moved)
    requires WellFormed(w)
    ensures Legal(w, r)
    ensures Legal(w, m) ==> r == m
  {
    match w
    case Read(_, _, _, _, _, _, _, _) =>
      var bytes := m.bytes[..Min(|m.bytes|, Asks(w))];
      assert Legal(w, m) ==> bytes == m.bytes;
      Moved(|bytes|, bytes)
    case Write(_, _, _, _, _, _, _) =>
      if Asks(w) == 0 then m.(n := 0) else m.(n := Max(1, Min(m.n, Asks(w))))
    case Fsync(_, _, _) => m
  }

  /** Whether a read has all it asked for: the requested count, or the current
      end of a regular file. */
  predicate Complete(w: Work, look: Look)
    requires w.Read?
  {
    match w.want
    case Exact(len) => |w.got| >= len
    case ToEnd => look.regular.Some? && w.pos + |w.got| >= look.regular.value
  }

  /** A full vector reserves. Its length is still zero, so a capacity of at
      least 65536 already satisfies the request and nothing grows. */
  function Reserved(w: Work, slack: nat): (r: Work)
    requires w.Read?
  {
    if !w.external && |w.got| == w.room && w.room < GROWTH
    then w.(room := GROWTH + slack)
    else w
  }

  function ReadOutcome(w: Work): Result
    requires w.Read?
  {
    Ok(if w.external then ReadReply(|w.got|) else BytesReply(w.got))
  }

  datatype Step = Done(result: Result) | More(work: Work)

  function After(w: Work, m: Moved, look: Look): (r: Step)
    requires WellFormed(w) && Legal(w, m)
    ensures r.More? ==> WellFormed(r.work)
  {
    match w
    case Read(_, _, _, _, _, _, _, _) =>
      var filled := w.(got := w.got + m.bytes);
      if m.n == 0 || Complete(filled, look) then Done(ReadOutcome(filled))
      else More(Reserved(filled, look.slack))
    case Write(_, _, _, pos, append, data, _) =>
      var filled := w.(filled := w.filled + m.n);
      if filled.filled < |data| then More(filled)
      else if !append then Done(Ok(WrittenReply(|data|, pos + |data|)))
      else if look.size.None? then Done(Err(Os(look.statError)))
      else Done(Ok(WrittenReply(|data|, look.size.value)))
    case Fsync(_, _, _) => Done(Ok(UnitReply))
  }

  // ---------------------------------------------------------------------
  // A job makes progress with every chunk that does not end it
  // ---------------------------------------------------------------------

  /** Whether the buffer may still grow: it does so once at most. */
  function Growable(w: Work): nat {
    if w.Read? && !w.external && w.room < GROWTH then 1 else 0
  }

  function Remaining(w: Work): nat {
    match w
    case Read(_, _, _, _, _, _, room, got) => if |got| <= room then room - |got| else 0
    case Write(_, _, _, _, _, data, filled) => if filled <= |data| then |data| - filled else 0
    case Fsync(_, _, _) => 0
  }

  lemma Progress(w: Work, m: Moved, look: Look)
    requires WellFormed(w) && Legal(w, m) && After(w, m, look).More?
    ensures var w' := After(w, m, look).work;
      && m.n >= 1
      && (Growable(w') < Growable(w) || (Growable(w') == Growable(w) && Remaining(w') < Remaining(w)))
      && w'.fd == w.fd && w'.handle == w.handle && w'.owned == w.owned
  {}

  // ---------------------------------------------------------------------
  // Many chunks are one transfer
  // ---------------------------------------------------------------------

  /** What the kernel makes of a read chunk on a regular file: the bytes there
      are, as many as it likes but one at least when there are any. */
  function ReadChunk(file: File, w: Work, count: nat): (m: Moved)
    requires w.Read? && WellFormed(w)
    ensures Legal(w, m)
    ensures m.bytes == Slice(file, Offset(w), m.n)
    ensures m.n == 0 <==> Asks(w) == 0 || Offset(w) >= |file|
  {
    var most := Min(Asks(w), if Offset(w) < |file| then |file| - Offset(w) else 0);
    var n := if most == 0 then 0 else Max(1, Min(count, most));
    Moved(n, Slice(file, Offset(w), n))
  }

  /** The file as it is at each moment the transfer looks at it: at 2i for its
      i-th chunk, at 2i + 1 for the `fstat` after it. */
  type Versions = nat -> File

  /** A file that does not change. */
  function Always(file: File): Versions { (_: nat) => file }

  /** How a whole read ended: its reply, the bytes it put into its buffer, the
      sizes of the chunks it asked for, and the number of the last chunk. */
  datatype Ended = Ended(result: Result, got: seq<Byte>, asked: seq<nat>, last: nat, room: nat)

  /** A read carried to its end by chunks of whatever counts the kernel picks. */
  function ReadAll(w: Work, versions: Versions, counts: nat -> nat, slack: nat -> nat, i: nat): Ended
    requires w.Read? && WellFormed(w)
    decreases Growable(w), Remaining(w)
  {
    var m := ReadChunk(versions(2 * i), w, counts(i));
    var size := |versions(2 * i + 1)|;
    var look := Look(Some(size), Some(size), 0, slack(i));
    match After(w, m, look)
    case Done(result) => Ended(result, w.got + m.bytes, [Asks(w)], i, w.room)
    case More(w') =>
      Progress(w, m, look);
      var rest := ReadAll(w', versions, counts, slack, i + 1);
      rest.(asked := [Asks(w)] + rest.asked)
  }

  /** The buffer holds the file's bytes from `pos` on. */
  ghost predicate HoldsSlice(w: Work, file: File) {
    w.Read? && WellFormed(w) && w.got == Slice(file, w.pos, |w.got|)
  }

  lemma SliceAppend(file: File, pos: nat, a: nat, b: nat)
    requires a == |Slice(file, pos, a)|
    ensures Slice(file, pos, a) + Slice(file, pos + a, b) == Slice(file, pos, a + b)
  {}

  /** The read an op of `len` bytes queues. */
  function SizedRead(handle: Handle, fd: Fd, pos: nat, len: nat, external: bool): Work {
    Read(Some(handle), fd, false, pos, Exact(len), external, len, [])
  }

  /** The bytes of a range are what they are in `file` whenever they are
      looked at: the file does not change, or only beyond a range it has. */
  ghost predicate RangeIs(versions: Versions, file: File, pos: nat, len: nat) {
    forall i: nat :: Slice(versions(i), pos, len) == Slice(file, pos, len)
  }

  /** A chunk that takes some of the bytes there are. */
  function ChunkFrom(rest: seq<Byte>, count: nat): Moved {
    var n := if rest == [] then 0 else Max(1, Min(count, |rest|));
    Moved(n, rest[..n])
  }

  lemma ChunkIsFrom(w: Work, file: File, count: nat)
    requires w.Read? && WellFormed(w)
    ensures ReadChunk(file, w, count) == ChunkFrom(Slice(file, Offset(w), Asks(w)), count)
  {
    SliceLength(file, Offset(w), Asks(w));
    SliceHead(file, Offset(w), Asks(w), ReadChunk(file, w, count).n);
    hide Slice;
  }

  lemma SameRangeSameChunk(w: Work, a: File, b: File, len: nat, count: nat)
    requires w.Read? && WellFormed(w) && w.room == len
    requires Slice(a, w.pos, len) == Slice(b, w.pos, len)
    ensures ReadChunk(a, w, count) == ReadChunk(b, w, count)
  {
    hide Slice, ReadChunk, ChunkFrom;
    SliceOfRange(a, w.pos, len, |w.got|);
    SliceOfRange(b, w.pos, len, |w.got|);
    ChunkIsFrom(w, a, count);
    ChunkIsFrom(w, b, count);
  }

  lemma SliceOfRange(file: File, pos: nat, len: nat, from: nat)
    requires from <= len
    ensures Slice(file, pos + from, len - from) ==
      if from <= |Slice(file, pos, len)| then Slice(file, pos, len)[from..] else []
  {}

  lemma SliceHead(file: File, pos: nat, len: nat, n: nat)
    requires n <= len
    ensures Slice(file, pos, n) == Slice(file, pos, len)[..Min(n, |Slice(file, pos, len)|)]
  {
    if pos < |file| {
      var m := Min(n, |Slice(file, pos, len)|);
      assert Slice(file, pos, len)[..m] == file[pos..pos + m];
    }
  }

  /** One chunk of a sized read of a range that stays the same. */
  lemma ChunkOfSizedRead(w: Work, now: File, file: File, count: nat, look: Look)
    requires HoldsSlice(w, file) && w.want.Exact? && Slice(now, w.pos, w.want.len) == Slice(file, w.pos, w.want.len)
    ensures var m := ReadChunk(now, w, count);
      var all := Slice(file, w.pos, w.want.len);
      var after := After(w, m, look);
      && (after.Done? ==>
            && w.got + m.bytes == all
            && after.result == Ok(if w.external then ReadReply(|all|) else BytesReply(all)))
      && (after.More? ==>
            && HoldsSlice(after.work, file) && after.work.pos == w.pos && after.work.want == w.want
            && after.work.external == w.external)
  {
    hide Slice, ReadChunk;
    var m := ReadChunk(now, w, count);
    SameRangeSameChunk(w, now, file, w.want.len, count);
    SliceAppend(file, w.pos, |w.got|, m.n);
    SliceHead(file, w.pos, w.want.len, |w.got| + m.n);
    SliceLength(file, w.pos, w.want.len);
    assert |w.got + m.bytes| == |w.got| + m.n;
  }

  /** A sized read of a range that stays the same replies exactly the requested
      bytes, short only where the file ends, for every sequence of chunk
      counts. */
  lemma SizedReadIsOneRead(w: Work, versions: Versions, file: File, counts: nat -> nat, slack: nat -> nat, i: nat)
    requires HoldsSlice(w, file) && w.want.Exact? && RangeIs(versions, file, w.pos, w.want.len)
    ensures var all := Slice(file, w.pos, w.want.len);
      var e := ReadAll(w, versions, counts, slack, i);
      e.got == all && e.result == Ok(if w.external then ReadReply(|all|) else BytesReply(all))
    decreases Growable(w), Remaining(w)
  {
    var m := ReadChunk(versions(2 * i), w, counts(i));
    var size := |versions(2 * i + 1)|;
    var look := Look(Some(size), Some(size), 0, slack(i));
    ChunkOfSizedRead(w, versions(2 * i), file, counts(i), look);
    match After(w, m, look)
    case Done(_) =>
    case More(w') =>
      Progress(w, m, look);
      hide After, HoldsSlice, ReadChunk, Slice;
      SizedReadIsOneRead(w', versions, file, counts, slack, i + 1);
  }

  /** Whatever happens to the file, a sized read into the caller's memory
      reports what it put there, and that fits. */
  lemma SizedReadFits(w: Work, versions: Versions, counts: nat -> nat, slack: nat -> nat, i: nat)
    requires w.Read? && WellFormed(w) && w.want.Exact? && w.external
    ensures var e := ReadAll(w, versions, counts, slack, i);
      |e.got| <= w.want.len && e.result == Ok(ReadReply(|e.got|))
    decreases Growable(w), Remaining(w)
  {
    var m := ReadChunk(versions(2 * i), w, counts(i));
    var size := |versions(2 * i + 1)|;
    var look := Look(Some(size), Some(size), 0, slack(i));
    match After(w, m, look)
    case Done(_) =>
    case More(w') =>
      Progress(w, m, look);
      SizedReadFits(w', versions, counts, slack, i + 1);
  }

  /** The read a read-to-end queues: room for what `fstat` said was left, and
      for one byte at least. */
  function ReadToEnd(handle: Option<Handle>, fd: Fd, owned: bool, pos: nat, size: nat): Work {
    Read(handle, fd, owned, pos, ToEnd, false, Max(if size > pos then size - pos else 0, 1), [])
  }

  /** Before a chunk of a read-to-end sized by the file it reads. */
  ghost predicate Exactly(w: Work, file: File) {
    && HoldsSlice(w, file) && w.want.ToEnd? && !w.external
    && w.room == Max(|Tail(file, w.pos)|, 1)
    && (|w.got| < |Tail(file, w.pos)| || w.got == [])
  }

  lemma ChunkOfExact(w: Work, file: File, count: nat, look: Look)
    requires Exactly(w, file) && look.regular == Some(|file|)
    ensures Asks(w) >= 1
    ensures var after := After(w, ReadChunk(file, w, count), look);
      && (after.Done? ==> after.result == Ok(BytesReply(Tail(file, w.pos))))
      && (after.More? ==> Exactly(after.work, file) && after.work.pos == w.pos && after.work.room == w.room)
  {
    var m := ReadChunk(file, w, count);
    SliceAppend(file, w.pos, |w.got|, m.n);
    assert |w.got + m.bytes| == |w.got| + m.n;
    assert Slice(file, w.pos, |Tail(file, w.pos)|) == Tail(file, w.pos);
    assert Slice(file, w.pos, 0) == [];
  }

  /** On an unchanged regular file a read-to-end replies exactly the rest of
      the file, its buffer never grows, and no chunk asks for nothing. */
  lemma ReadToEndIsExact(w: Work, file: File, counts: nat -> nat, slack: nat -> nat, i: nat)
    requires Exactly(w, file)
    ensures var e := ReadAll(w, Always(file), counts, slack, i);
      && e.result == Ok(BytesReply(Tail(file, w.pos)))
      && e.room == w.room
      && (forall j :: 0 <= j < |e.asked| ==> e.asked[j] >= 1)
    decreases Growable(w), Remaining(w)
  {
    assert w.Read? && WellFormed(w);
    var m := ReadChunk(file, w, counts(i));
    var look := Look(Some(|file|), Some(|file|), 0, slack(i));
    ChunkOfExact(w, file, counts(i), look);
    match After(w, m, look)
    case Done(_) =>
    case More(w') =>
      Progress(w, m, look);
      hide After, HoldsSlice, ReadChunk, Slice, Tail;
      ReadToEndIsExact(w', file, counts, slack, i + 1);
  }

  /** A file that nothing truncates or rewrites while it is read. */
  ghost predicate OnlyGrows(versions: Versions) {
    forall i: nat, j: nat :: i <= j ==> versions(i) <= versions(j)
  }

  lemma SliceOfPrefix(small: File, big: File, pos: nat, n: nat)
    requires small <= big && |Slice(small, pos, n)| == n
    ensures Slice(big, pos, n) == Slice(small, pos, n)
  {}

  function LastOf(asked: seq<nat>): nat
    requires asked != []
  {
    asked[|asked| - 1]
  }

  /** How a read-to-end of a growing file has ended: with a prefix of the
      contents from `pos`, of `hint` bytes at least; and short of the end the
      file had at the last chunk exactly when that chunk asked for nothing of
      it, the buffer being full. The buffer is the one the read started with, of
      `room` bytes, or one below 65536 bytes has grown to that and what the
      allocator adds; and only one of 65536 bytes or more is ever full. */
  ghost predicate EndedOnGrowing(e: Ended, pos: nat, room: nat, versions: Versions, slack: nat -> nat, hint: nat) {
    && e.asked != [] && e.result.Ok? && e.result.reply.BytesReply?
    && var data := e.result.reply.data;
    && data == e.got && hint <= |data| <= e.room && e.room >= 1
    && data == Slice(versions(2 * e.last), pos, |data|)
    && (pos + |data| < |versions(2 * e.last)| <==>
        LastOf(e.asked) == 0 && pos + e.room < |versions(2 * e.last)|)
    && (LastOf(e.asked) == 0 ==> |data| == e.room && e.room >= GROWTH)
    && GrownFrom(room, e.room, slack)
  }

  ghost predicate GrownFrom(before: nat, after: nat, slack: nat -> nat) {
    after == before || (before < GROWTH && exists i: nat :: after == GROWTH + slack(i))
  }

  /** Before chunk `i` of a read-to-end whose file held `hint` bytes from
      `pos` on when it was queued. */
  ghost predicate Growing(w: Work, versions: Versions, i: nat, hint: nat) {
    && HoldsSlice(w, versions(2 * i)) && w.want.ToEnd? && !w.external && 1 <= w.room
    && (|w.got| < w.room || w.room >= GROWTH)
    && hint <= w.room && (hint == 0 || w.pos + hint <= |versions(2 * i)|)
  }

  lemma ChunkOfGrowing(w: Work, versions: Versions, count: nat, slack: nat -> nat, i: nat, hint: nat)
    requires OnlyGrows(versions) && Growing(w, versions, i, hint)
    ensures var m := ReadChunk(versions(2 * i), w, count);
      var size := |versions(2 * i + 1)|;
      var after := After(w, m, Look(Some(size), Some(size), 0, slack(i)));
      && (after.Done? ==>
            EndedOnGrowing(Ended(after.result, w.got + m.bytes, [Asks(w)], i, w.room), w.pos, w.room, versions,
              slack, hint))
      && (after.More? ==>
            Growing(after.work, versions, i + 1, hint) && after.work.pos == w.pos
            && GrownFrom(w.room, after.work.room, slack))
  {
    assert versions(2 * i) <= versions(2 * i + 1) && versions(2 * i) <= versions(2 * (i + 1));
    hide OnlyGrows;
    LastOfGrowing(w, versions, count, slack, i, hint);
    NextOfGrowing(w, versions, count, slack, i, hint);
  }

  lemma LastOfGrowing(w: Work, versions: Versions, count: nat, slack: nat -> nat, i: nat, hint: nat)
    requires versions(2 * i) <= versions(2 * i + 1) && Growing(w, versions, i, hint)
    ensures var m := ReadChunk(versions(2 * i), w, count);
      var size := |versions(2 * i + 1)|;
      var after := After(w, m, Look(Some(size), Some(size), 0, slack(i)));
      after.Done? ==>
        EndedOnGrowing(Ended(after.result, w.got + m.bytes, [Asks(w)], i, w.room), w.pos, w.room, versions, slack, hint)
  {
    var m := ReadChunk(versions(2 * i), w, count);
    SliceAppend(versions(2 * i), w.pos, |w.got|, m.n);
    SliceLength(versions(2 * i), w.pos, |w.got|);
    SliceLength(versions(2 * i), w.pos, |w.got| + m.n);
    hide Slice;
    assert |w.got + m.bytes| == |w.got| + m.n;
    assert LastOf([Asks(w)]) == Asks(w);
    hide LastOf;
  }

  /** What the next chunk finds in the buffer is in the file as it is then. */
  lemma HeldNext(w: Work, small: File, big: File, count: nat)
    requires HoldsSlice(w, small) && small <= big
    ensures var got := w.got + ReadChunk(small, w, count).bytes;
      got == Slice(big, w.pos, |got|)
  {
    hide Slice, ReadChunk;
    var m := ReadChunk(small, w, count);
    SliceAppend(small, w.pos, |w.got|, m.n);
    assert |w.got + m.bytes| == |w.got| + m.n;
    SliceOfPrefix(small, big, w.pos, |w.got| + m.n);
  }

  lemma RoomNext(w: Work, m: Moved, look: Look, slack: nat -> nat, i: nat)
    requires w.Read? && WellFormed(w) && Legal(w, m) && !w.external && look.slack == slack(i)
    ensures var after := After(w, m, look);
      after.More? ==>
        && after.work == w.(got := w.got + m.bytes, room := after.work.room)
        && GrownFrom(w.room, after.work.room, slack) && w.room <= after.work.room
        && (|after.work.got| < after.work.room || after.work.room >= GROWTH)
  {}

  lemma NextOfGrowing(w: Work, versions: Versions, count: nat, slack: nat -> nat, i: nat, hint: nat)
    requires versions(2 * i) <= versions(2 * (i + 1)) && Growing(w, versions, i, hint)
    ensures var m := ReadChunk(versions(2 * i), w, count);
      var size := |versions(2 * i + 1)|;
      var after := After(w, m, Look(Some(size), Some(size), 0, slack(i)));
      after.More? ==>
        Growing(after.work, versions, i + 1, hint) && after.work.pos == w.pos
        && GrownFrom(w.room, after.work.room, slack)
  {
    var m := ReadChunk(versions(2 * i), w, count);
    var size := |versions(2 * i + 1)|;
    HeldNext(w, versions(2 * i), versions(2 * (i + 1)), count);
    RoomNext(w, m, Look(Some(size), Some(size), 0, slack(i)), slack, i);
    hide Slice, GrownFrom, After, ReadChunk;
  }

  lemma EndedWithMore(e: Ended, pos: nat, room: nat, next: nat, versions: Versions, slack: nat -> nat, hint: nat,
                      asked: nat)
    requires EndedOnGrowing(e, pos, next, versions, slack, hint) && GrownFrom(room, next, slack)
    ensures EndedOnGrowing(e.(asked := [asked] + e.asked), pos, room, versions, slack, hint)
  {
    assert LastOf([asked] + e.asked) == LastOf(e.asked);
  }

  /** The end of a read-to-end on a file that only grows. */
  lemma ReadToEndOfGrowingFile(w: Work, versions: Versions, counts: nat -> nat, slack: nat -> nat, i: nat, hint: nat)
    requires OnlyGrows(versions) && Growing(w, versions, i, hint)
    ensures EndedOnGrowing(ReadAll(w, versions, counts, slack, i), w.pos, w.room, versions, slack, hint)
    decreases Growable(w), Remaining(w)
  {
    assert w.Read? && WellFormed(w);
    hide After, Growing, HoldsSlice, ReadChunk, Slice, EndedOnGrowing, OnlyGrows, GrownFrom;
    var m := ReadChunk(versions(2 * i), w, counts(i));
    var size := |versions(2 * i + 1)|;
    var look := Look(Some(size), Some(size), 0, slack(i));
    ChunkOfGrowing(w, versions, counts(i), slack, i, hint);
    match After(w, m, look)
    case Done(_) =>
    case More(w') =>
      Progress(w, m, look);
      ReadToEndOfGrowingFile(w', versions, counts, slack, i + 1, hint);
      GrowingIsRead(w', versions, i + 1, hint);
      EndedWithMore(ReadAll(w', versions, counts, slack, i + 1), w.pos, w.room, w'.room, versions, slack, hint,
        Asks(w));
  }

  lemma GrowingIsRead(w: Work, versions: Versions, i: nat, hint: nat)
    requires Growing(w, versions, i, hint)
    ensures w.Read? && WellFormed(w)
  {}

  /** How many bytes a read-to-end can return: what its buffer holds, fixed when
      it is queued, or after the one growth of a buffer below 65536 bytes, to
      which the allocator adds `extra`. */
  function Capacity(room: nat, extra: nat): nat {
    if room < GROWTH then GROWTH + extra else room
  }

  function Extra(extra: nat): nat -> nat { (_: nat) => extra }

  /** A read-to-end of a growing file gets what the file has at its last chunk, up
      to that capacity; so it falls short of the end exactly when the file has
      outgrown it by then. */
  lemma ShortExactlyBeyondCapacity(w: Work, versions: Versions, counts: nat -> nat, extra: nat, i: nat, hint: nat)
    requires OnlyGrows(versions) && Growing(w, versions, i, hint)
    ensures var e := ReadAll(w, versions, counts, Extra(extra), i);
      && e.result == Ok(BytesReply(e.got)) && e.got == Slice(versions(2 * e.last), w.pos, Capacity(w.room, extra))
      && (e.got == Tail(versions(2 * e.last), w.pos) <==> |versions(2 * e.last)| <= w.pos + Capacity(w.room, extra))
  {
    ReadToEndOfGrowingFile(w, versions, counts, Extra(extra), i, hint);
    var e := ReadAll(w, versions, counts, Extra(extra), i);
    var file := versions(2 * e.last);
    GrownIsCapacity(w.room, e.room, extra);
    WholeTail(file, w.pos, e.got);
    hide ReadAll, Slice, Tail, Growing, GrownFrom, OnlyGrows;
    UpTo(file, w.pos, e.got, Capacity(w.room, extra));
  }

  lemma GrownIsCapacity(before: nat, after: nat, extra: nat)
    requires GrownFrom(before, after, Extra(extra))
    ensures after <= Capacity(before, extra) && (after >= GROWTH ==> after == Capacity(before, extra))
  {}

  /** A prefix of the rest that ends at the end of the file or at `most` bytes. */
  lemma UpTo(file: File, pos: nat, got: seq<Byte>, most: nat)
    requires got == Slice(file, pos, |got|) && |got| <= most && (|got| == most || pos + |got| >= |file|)
    ensures got == Slice(file, pos, most)
  {
    SliceLength(file, pos, most);
    SliceHead(file, pos, most, |got|);
    hide Slice;
  }

  lemma WholeTail(file: File, pos: nat, got: seq<Byte>)
    requires got == Slice(file, pos, |got|)
    ensures got == Tail(file, pos) <==> pos + |got| >= |file|
  {
    SliceLength(file, pos, |got|);
    if pos + |got| >= |file| { assert got == Tail(file, pos); }
  }

  /** So it is never short of a file that stays within its hint, or within
      65536 bytes, however the allocator behaves. */
  lemma NeverShortWithinGrowth(w: Work, versions: Versions, counts: nat -> nat, slack: nat -> nat, i: nat, hint: nat)
    requires OnlyGrows(versions) && Growing(w, versions, i, hint)
    requires forall t: nat :: |versions(t)| <= w.pos + Max(w.room, GROWTH)
    ensures var e := ReadAll(w, versions, counts, slack, i);
      e.result == Ok(BytesReply(Tail(versions(2 * e.last), w.pos)))
  {
    ReadToEndOfGrowingFile(w, versions, counts, slack, i, hint);
    var e := ReadAll(w, versions, counts, slack, i);
    WholeTail(versions(2 * e.last), w.pos, e.got);
    hide ReadAll, Slice, Tail, Growing;
  }

  /** The stop short of the end does happen: a vector of 65536 bytes filled
      exactly, of a file that has grown by one byte meanwhile, is not read on. */
  lemma GrownFileIsReadShort(file: File, more: Byte, counts: nat -> nat, slack: nat -> nat)
    requires |file| == GROWTH && counts(0) == GROWTH
    ensures var versions: Versions := (i: nat) => if i == 0 then file else file + [more];
      && OnlyGrows(versions)
      && ReadAll(ReadToEnd(None, 0, true, 0, |file|), versions, counts, slack, 0).result
           == Ok(BytesReply(file))
  {
    var versions: Versions := (i: nat) => if i == 0 then file else file + [more];
    var w := ReadToEnd(None, 0, true, 0, |file|);
    var m := ReadChunk(versions(0), w, counts(0));
    assert m.n == GROWTH && m.bytes == file;
    var w' := w.(got := w.got + m.bytes);
    assert w'.got == file;
    var look := Look(Some(GROWTH + 1), Some(GROWTH + 1), 0, slack(0));
    assert After(w, m, look) == More(w');
    var look' := Look(Some(GROWTH + 1), Some(GROWTH + 1), 0, slack(1));
    var m' := ReadChunk(versions(2 * 1), w', counts(1));
    assert m'.n == 0 && m'.bytes == [] && w'.got + [] == file;
    assert After(w', m', look') == Done(Ok(BytesReply(file)));
    assert |versions(2 * 1 + 1)| == GROWTH + 1;
    assert ReadAll(w', versions, counts, slack, 1).result == Ok(BytesReply(file));
  }

  /** Where bytes written for a job land: an append at the end of the file,
      any other chunk at its own offset. */
  function Land(w: Work, file: File, piece: seq<Byte>): File
    requires w.Write?
  {
    if w.append then file + piece else Splice(file, w.pos + w.filled, piece)
  }

  /** A write carried to its end by chunks of whatever counts the kernel picks. */
  function WriteAll(w: Work, file: File, counts: nat -> nat, i: nat): (Result, File)
    requires w.Write? && WellFormed(w)
    decreases Remaining(w)
  {
    var m := Clamp(w, Moved(counts(i), []));
    var file' := Land(w, file, w.data[w.filled..w.filled + m.n]);
    var look := Look(Some(|file'|), Some(|file'|), 0, 0);
    match After(w, m, look)
    case Done(result) => (result, file')
    case More(w') =>
      Progress(w, m, look);
      WriteAll(w', file', counts, i + 1)
  }

  lemma LandTwice(w: Work, file: File, n: nat)
    requires w.Write? && w.filled + n <= |w.data|
    ensures Land(w.(filled := w.filled + n), Land(w, file, w.data[w.filled..w.filled + n]), w.data[w.filled + n..])
         == Land(w, file, w.data[w.filled..])
  {
    hide Splice;
    var piece := w.data[w.filled..w.filled + n];
    var rest := w.data[w.filled + n..];
    assert w.data[w.filled..] == piece + rest;
    if w.append {
      assert file + piece + rest == file + (piece + rest);
    } else {
      SpliceTwice(file, w.pos + w.filled, piece, rest);
    }
  }

  /** A write that succeeds has written the whole payload in one piece, for
      every sequence of chunk counts. */
  lemma WriteIsOneWrite(w: Work, file: File, counts: nat -> nat, i: nat)
    requires w.Write? && WellFormed(w)
    ensures var after := Land(w, file, w.data[w.filled..]);
      WriteAll(w, file, counts, i)
        == (Ok(WrittenReply(|w.data|, if w.append then |after| else w.pos + |w.data|)), after)
    decreases Remaining(w)
  {
    hide Splice;
    var m := Clamp(w, Moved(counts(i), []));
    var file' := Land(w, file, w.data[w.filled..w.filled + m.n]);
    var look := Look(Some(|file'|), Some(|file'|), 0, 0);
    match After(w, m, look)
    case Done(_) => assert w.data[w.filled..w.filled + m.n] == w.data[w.filled..];
    case More(w') =>
      Progress(w, m, look);
      assert w' == w.(filled := w.filled + m.n);
      WriteIsOneWrite(w', file', counts, i + 1);
      LandTwice(w, file, m.n);
  }
}
