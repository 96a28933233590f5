/** A job as the chunks the kernel has returned for it, in order: what they make
    of the work it was queued with, and what they are together
    (crates/turbofile-core/src/darwin_aio.rs, `step`). */
module Replays {
  import opened Basics
  import opened Transfer

  function Front(chunks: seq<Chunk>): seq<Chunk>
    requires chunks != []
  {
    chunks[..|chunks| - 1]
  }

  function Last(chunks: seq<Chunk>): Chunk
    requires chunks != []
  {
    chunks[|chunks| - 1]
  }

  /** The chunks can have been returned for the work, one after the other: each
      is a legal answer to a job that was not done. */
  predicate Runs(w: SoundWork, chunks: seq<Chunk>)
    decreases |chunks|, 0
  {
    chunks == [] ||
    (Runs(w, Front(chunks)) && Replay(w, Front(chunks)).More?
      && Legal(Replay(w, Front(chunks)).work, Last(chunks).moved))
  }

  /** What they make of it: the job as it is then, or its result. */
  function Replay(w: SoundWork, chunks: seq<Chunk>): (r: Step)
    requires Runs(w, chunks)
    ensures r.More? ==> WellFormed(r.work)
    decreases |chunks|, 1
  {
    if chunks == [] then More(w)
    else After(Replay(w, Front(chunks)).work, Last(chunks).moved, Last(chunks).look)
  }

  /** One chunk more. */
  lemma ReplaySnoc(w: SoundWork, chunks: seq<Chunk>, chunk: Chunk)
    requires Runs(w, chunks) && Replay(w, chunks).More? && Legal(Replay(w, chunks).work, chunk.moved)
    ensures Runs(w, chunks + [chunk])
    ensures Replay(w, chunks + [chunk]) == After(Replay(w, chunks).work, chunk.moved, chunk.look)
  {
    assert Front(chunks + [chunk]) == chunks;
  }

  // ---------------------------------------------------------------------
  // Nothing is dropped and nothing invented
  // ---------------------------------------------------------------------

  /** All the bytes the kernel has returned. */
  function BytesOf(chunks: seq<Chunk>): seq<Byte>
    decreases |chunks|
  {
    if chunks == [] then [] else BytesOf(Front(chunks)) + Last(chunks).moved.bytes
  }

  /** All the bytes it says it has written. */
  function CountOf(chunks: seq<Chunk>): nat
    decreases |chunks|
  {
    if chunks == [] then 0 else CountOf(Front(chunks)) + Last(chunks).moved.n
  }

  /** A job under way is the work it was queued with, and the bytes returned so
      far; its buffer is the one it started with, or has grown once. */
  predicate UnderWay(w: SoundWork, now: Work, chunks: seq<Chunk>) {
    match w
    case Read(_, _, _, _, _, external, room, got) =>
      && now.Read? && now == w.(got := got + BytesOf(chunks), room := now.room)
      && (now.room == room || (!external && room < GROWTH <= now.room))
    case Write(_, _, _, _, _, _, filled) => now == w.(filled := filled + CountOf(chunks))
    case Fsync(_, _, _) => now == w
  }

  lemma {:induction false} ReplayIsUnderWay(w: SoundWork, chunks: seq<Chunk>)
    requires Runs(w, chunks) && Replay(w, chunks).More?
    ensures UnderWay(w, Replay(w, chunks).work, chunks)
    decreases |chunks|
  {
    if chunks == [] {
      if w.Read? { Empties(w.got); }
    } else {
      ReplayIsUnderWay(w, Front(chunks));
      if w.Read? {
        assert w.got + (BytesOf(Front(chunks)) + Last(chunks).moved.bytes)
          == w.got + BytesOf(Front(chunks)) + Last(chunks).moved.bytes;
      }
    }
  }

  /** A job that ended with a reply ended whole. A read replies exactly the
      bytes the kernel returned, as many as were asked for unless its last chunk
      met nothing; a read to the end has met nothing more, or the end the file
      had then. A write has had all of its payload taken, and says so. */
  predicate Whole(w: SoundWork, chunks: seq<Chunk>, reply: Reply)
    requires chunks != []
  {
    match w
    case Read(_, _, _, pos, want, external, _, got) =>
      var all := got + BytesOf(chunks);
      && reply == (if external then ReadReply(|all|) else BytesReply(all))
      && (Last(chunks).moved.n > 0 ==>
            match want
            case Exact(len) => |all| == len
            case ToEnd => Last(chunks).look.regular.Some? && pos + |all| >= Last(chunks).look.regular.value)
      && (want.Exact? ==> |all| <= want.len)
    case Write(_, _, _, pos, append, data, filled) =>
      && filled + CountOf(chunks) == |data|
      && reply.WrittenReply? && reply.n == |data|
      && (!append ==> reply.end == pos + |data|)
      && (append ==> Last(chunks).look.size == Some(reply.end))
    case Fsync(_, _, _) => reply == UnitReply
  }

  /** The last chunk decides: until then the job was under way, and what it ends
      with is whole, or the error of asking for the size after an append. */
  lemma ReplayEndsWhole(w: SoundWork, chunks: seq<Chunk>)
    requires Runs(w, chunks) && Replay(w, chunks).Done?
    ensures chunks != []
    ensures var result := Replay(w, chunks).result;
      && (result.Ok? ==> Whole(w, chunks, result.reply))
      && (result.Err? ==>
            w.Write? && w.append && w.filled + CountOf(chunks) == |w.data| && Last(chunks).look.size.None?)
  {
    ReplayIsUnderWay(w, Front(chunks));
    EndsWhole(w, Replay(w, Front(chunks)).work, chunks);
  }

  lemma EndsWhole(w: SoundWork, now: Work, chunks: seq<Chunk>)
    requires chunks != [] && WellFormed(now) && UnderWay(w, now, Front(chunks)) && Legal(now, Last(chunks).moved)
    requires After(now, Last(chunks).moved, Last(chunks).look).Done?
    ensures var result := After(now, Last(chunks).moved, Last(chunks).look).result;
      && (result.Ok? ==> Whole(w, chunks, result.reply))
      && (result.Err? ==>
            w.Write? && w.append && w.filled + CountOf(chunks) == |w.data| && Last(chunks).look.size.None?)
  {
    if w.Read? {
      ReadEndsWhole(w, now, chunks);
      hide Whole, After, UnderWay;
    } else {
      hide BytesOf;
    }
  }

  lemma ReadEndsWhole(w: SoundWork, now: Work, chunks: seq<Chunk>)
    requires w.Read? && chunks != [] && WellFormed(now) && UnderWay(w, now, Front(chunks))
    requires Legal(now, Last(chunks).moved) && After(now, Last(chunks).moved, Last(chunks).look).Done?
    ensures var result := After(now, Last(chunks).moved, Last(chunks).look).result;
      result.Ok? && Whole(w, chunks, result.reply)
  {
    var before, bytes := BytesOf(Front(chunks)), Last(chunks).moved.bytes;
    assert BytesOf(chunks) == before + bytes;
    hide BytesOf;
    assert w.got + (before + bytes) == w.got + before + bytes;
    assert now.got + bytes == w.got + BytesOf(chunks);
  }

  // ---------------------------------------------------------------------
  // Many chunks are one transfer
  // ---------------------------------------------------------------------

  /** The chunks are those a regular file gives that has the bytes of `versions`
      when it is looked at: the i-th is read at 2i, and `fstat` sees it at
      2i + 1. How much a chunk returns, and what the allocator adds to a buffer,
      are the kernel's and the allocator's choice. */
  ghost predicate ReadOff(versions: Versions, counts: nat -> nat, slack: nat -> nat, w: SoundWork, chunks: seq<Chunk>)
    requires Runs(w, chunks)
    decreases |chunks|
  {
    chunks == [] ||
    (ReadOff(versions, counts, slack, w, Front(chunks))
      && Gives(versions, counts, slack, |chunks| - 1, Replay(w, Front(chunks)).work, Last(chunks)))
  }

  ghost predicate Gives(versions: Versions, counts: nat -> nat, slack: nat -> nat, i: nat, now: Work, chunk: Chunk) {
    && now.Read? && WellFormed(now)
    && chunk.moved == ReadChunk(versions(2 * i), now, counts(i))
    && chunk.look.regular == Some(|versions(2 * i + 1)|) && chunk.look.slack == slack(i)
  }

  /** The same read, but for the sizes of the chunks it has asked for. */
  predicate SameEnd(a: Ended, b: Ended) {
    a.result == b.result && a.got == b.got && a.last == b.last && a.room == b.room
  }

  lemma OneChunkOfReadAll(w: Work, versions: Versions, counts: nat -> nat, slack: nat -> nat, i: nat, chunk: Chunk)
    requires Gives(versions, counts, slack, i, w, chunk)
    ensures var e := ReadAll(w, versions, counts, slack, i);
      var r := After(w, chunk.moved, chunk.look);
      && (r.Done? ==> e.result == r.result && e.got == w.got + chunk.moved.bytes && e.last == i)
      && (r.More? ==> r.work.Read? && SameEnd(e, ReadAll(r.work, versions, counts, slack, i + 1)))
  {
    hide ReadChunk;
    var size := |versions(2 * i + 1)|;
    SameLook(w, chunk, Look(Some(size), Some(size), 0, slack(i)));
  }

  /** A read looks at the size of a regular file and at the allocator only. */
  lemma SameLook(w: Work, chunk: Chunk, look: Look)
    requires w.Read? && WellFormed(w) && Legal(w, chunk.moved)
    requires chunk.look.regular == look.regular && chunk.look.slack == look.slack
    ensures After(w, chunk.moved, chunk.look) == After(w, chunk.moved, look)
  {}

  /** Chunks that came one by one, from the queue or the kernel's slots or plain
      system calls, are one read of `ReadAll`: so all that is proved of that
      holds of a job of the driver. */
  lemma {:induction false} ReadOffIsReadAll(
      versions: Versions, counts: nat -> nat, slack: nat -> nat, w: SoundWork, chunks: seq<Chunk>)
    requires w.Read? && Runs(w, chunks) && ReadOff(versions, counts, slack, w, chunks)
    ensures var e := ReadAll(w, versions, counts, slack, 0);
      var r := Replay(w, chunks);
      && (r.Done? ==> e.result == r.result && e.last == |chunks| - 1)
      && (r.More? ==> r.work.Read? && SameEnd(e, ReadAll(r.work, versions, counts, slack, |chunks|)))
    decreases |chunks|
  {
    hide After, ReadAll, Gives;
    if chunks != [] {
      ReadOffIsReadAll(versions, counts, slack, w, Front(chunks));
      OneChunkOfReadAll(Replay(w, Front(chunks)).work, versions, counts, slack, |chunks| - 1, Last(chunks));
    }
  }

  /** No chunk of the job asked the kernel for nothing. */
  predicate NeverIdle(w: SoundWork, chunks: seq<Chunk>)
    requires Runs(w, chunks)
    decreases |chunks|
  {
    chunks == [] || (NeverIdle(w, Front(chunks)) && Asks(Replay(w, Front(chunks)).work) >= 1)
  }

  /** A read to the end of an unchanged regular file, with room for all of it,
      asks for a byte at least with every chunk. */
  lemma {:induction false} ExactUnderWay(
      file: File, counts: nat -> nat, slack: nat -> nat, w: SoundWork, chunks: seq<Chunk>)
    requires w.Read? && Exactly(w, file) && Runs(w, chunks) && ReadOff(Always(file), counts, slack, w, chunks)
    ensures Replay(w, chunks).More? ==> Exactly(Replay(w, chunks).work, file)
    ensures NeverIdle(w, chunks)
    decreases |chunks|
  {
    hide After, Exactly, ReadChunk;
    if chunks != [] {
      ExactUnderWay(file, counts, slack, w, Front(chunks));
      ChunkOfExact(Replay(w, Front(chunks)).work, file, counts(|chunks| - 1), Last(chunks).look);
    }
  }

  // ---------------------------------------------------------------------
  // Something without a size
  // ---------------------------------------------------------------------

  /** The chunks are read off something that has these bytes, and no size that
      `fstat` could give; the allocator adds `extra` to a buffer that grows. */
  ghost predicate StreamedOff(file: File, counts: nat -> nat, extra: nat, w: SoundWork, chunks: seq<Chunk>)
    requires Runs(w, chunks)
    decreases |chunks|
  {
    chunks == [] ||
    (StreamedOff(file, counts, extra, w, Front(chunks))
      && Streams(file, counts(|chunks| - 1), extra, Replay(w, Front(chunks)).work, Last(chunks)))
  }

  ghost predicate Streams(file: File, count: nat, extra: nat, now: Work, chunk: Chunk) {
    && now.Read? && WellFormed(now) && chunk.moved == ReadChunk(file, now, count)
    && chunk.look.regular.None? && chunk.look.slack == extra
  }

  /** A read to the end under way, its buffer of `room` bytes at the start. */
  ghost predicate Streaming(file: File, now: Work, pos: nat, room: nat, extra: nat) {
    && HoldsSlice(now, file) && now.want.ToEnd? && !now.external && now.pos == pos
    && (now.room == room || (room < GROWTH && now.room == GROWTH + extra))
    && (|now.got| < now.room || now.room >= GROWTH)
  }

  lemma ChunkOfStream(file: File, count: nat, extra: nat, now: Work, chunk: Chunk, pos: nat, room: nat)
    requires Streaming(file, now, pos, room, extra) && Streams(file, count, extra, now, chunk)
    ensures var r := After(now, chunk.moved, chunk.look);
      && (r.Done? ==> r.result == Ok(BytesReply(Slice(file, pos, Capacity(room, extra)))))
      && (r.More? ==> Streaming(file, r.work, pos, room, extra))
  {
    hide ReadChunk, Slice;
    HeldNext(now, file, file, count);
    var got := now.got + chunk.moved.bytes;
    if chunk.moved.n == 0 {
      assert got == now.got;
      UpTo(file, pos, got, Capacity(room, extra));
    }
  }

  /** A read to the end that has no end to compare with gets what there is, up to
      the capacity of its buffer. */
  lemma {:induction false} StreamIsCapacity(
      file: File, counts: nat -> nat, extra: nat, w: SoundWork, chunks: seq<Chunk>, room: nat)
    requires w.Read? && Streaming(file, w, w.pos, room, extra)
    requires Runs(w, chunks) && StreamedOff(file, counts, extra, w, chunks)
    ensures var r := Replay(w, chunks);
      && (r.Done? ==> r.result == Ok(BytesReply(Slice(file, w.pos, Capacity(room, extra)))))
      && (r.More? ==> Streaming(file, r.work, w.pos, room, extra))
    decreases |chunks|
  {
    hide After, Streaming, Streams, Slice;
    if chunks != [] {
      StreamIsCapacity(file, counts, extra, w, Front(chunks), room);
      ChunkOfStream(file, counts(|chunks| - 1), extra, Replay(w, Front(chunks)).work, Last(chunks), w.pos, room);
    }
  }

  /** The file once the chunks of a write have landed in it, each where the job
      had come to. */
  function Landed(file: File, w: SoundWork, chunks: seq<Chunk>): File
    requires w.Write? && Runs(w, chunks)
    decreases |chunks|
  {
    if chunks == [] then file
    else
      var now := Replay(w, Front(chunks)).work;
      if !now.Write? || now.filled + Last(chunks).moved.n > |now.data| then file
      else Land(now, Landed(file, w, Front(chunks)), now.data[now.filled..now.filled + Last(chunks).moved.n])
  }

  /** What has landed is the payload as far as the kernel has taken it, in one
      piece. */
  lemma {:induction false} LandedIsPrefix(file: File, w: SoundWork, chunks: seq<Chunk>)
    requires w.Write? && Runs(w, chunks)
    ensures w.filled + CountOf(chunks) <= |w.data|
    ensures Landed(file, w, chunks) == Land(w, file, w.data[w.filled..w.filled + CountOf(chunks)])
    decreases |chunks|
  {
    hide Land;
    if chunks == [] {
      assert w.data[w.filled..w.filled] == [];
      LandNothing(w, file);
    } else {
      ReplayIsUnderWay(w, Front(chunks));
      LandedIsPrefix(file, w, Front(chunks));
      LandMore(w, file, CountOf(Front(chunks)), Last(chunks).moved.n);
    }
  }

  lemma LandNothing(w: Work, file: File)
    requires w.Write?
    ensures Land(w, file, []) == file
  {}

  lemma LandMore(w: Work, file: File, done: nat, n: nat)
    requires w.Write? && w.filled + done + n <= |w.data|
    ensures Land(w.(filled := w.filled + done), Land(w, file, w.data[w.filled..w.filled + done]),
                 w.data[w.filled + done..w.filled + done + n])
         == Land(w, file, w.data[w.filled..w.filled + done + n])
  {
    hide Splice;
    var piece := w.data[w.filled..w.filled + done];
    var rest := w.data[w.filled + done..w.filled + done + n];
    assert w.data[w.filled..w.filled + done + n] == piece + rest;
    if w.append {
      assert file + piece + rest == file + (piece + rest);
    } else {
      SpliceTwice(file, w.pos + w.filled, piece, rest);
    }
  }
}
