/** What a text file's state stands for (python/turbofile/text.py): the text
    still to be read, and the text a position cookie names. */
module TextModel {
  import opened Basics
  import opened Codecs
  import opened Cookies

  /** The decoder flags and the bytes at the start of the current chunk. */
  datatype Snapshot = Snapshot(flags: nat, input: seq<Byte>)

  /** The reading state of one file object. `pos` is where its buffer is, `used`
      how many of the decoded characters have been handed out. */
  datatype Reader = Reader(
    pos: nat,
    decoder: Option<Dec>,
    decoded: Text,
    used: nat,
    snapshot: Option<Snapshot>
  )

  function DecoderOf(c: Codec, r: Reader): Dec {
    if r.decoder.Some? then r.decoder.value else New(c)
  }

  /** The unread text. */
  function Rest(c: Codec, file: File, r: Reader): Text
    requires r.used <= |r.decoded|
  {
    r.decoded[r.used..] + Decoded(c, DecoderOf(c, r), Tail(file, r.pos))
  }

  // ---------------------------------------------------------------------
  // What every method keeps
  // ---------------------------------------------------------------------

  /** The bytes just before `pos`. */
  predicate Behind(file: File, pos: nat, bytes: seq<Byte>) {
    |bytes| <= pos && bytes == Slice(file, pos - |bytes|, |bytes|)
  }

  /** With these flags the file decodes as it does from the start. */
  predicate FromStart(c: Codec, file: File, flags: nat) {
    Decoded(c, Dec([], flags), file) == Decoded(c, New(c), file)
  }

  ghost predicate DecoderInv(c: Codec, file: File, d: Dec, pos: nat) {
    c.ok(d) && Behind(file, pos, d.buf) && (pos == |d.buf| ==> FromStart(c, file, d.flags))
  }

  /** Nothing has been decoded since the decoder was new. */
  predicate Fresh(c: Codec, r: Reader) {
    r.snapshot.None? && r.decoded == [] && (r.decoder.Some? ==> r.decoder.value == New(c))
  }

  /** Everything has been read and the decoder flushed. */
  predicate Spent(c: Codec, file: File, r: Reader) {
    && r.decoder.Some? && r.snapshot.None? && r.decoded == []
    && r.pos >= |file| && Decoded(c, r.decoder.value, []) == []
  }

  /** Just after a seek to zero, which leaves a snapshot with flags zero
      whatever the flags of a new decoder are. */
  predicate AtOrigin(c: Codec, r: Reader) {
    && r.pos == 0 && r.decoder == Some(New(c)) && r.decoded == []
    && r.snapshot == Some(Snapshot(0, []))
  }

  /** The snapshot holds the last bytes of the file before `pos`, and the
      decoded text is what they decode to; `last` if that was the final call. */
  predicate SnapHolds(c: Codec, file: File, r: Reader, last: bool)
    requires r.decoder.Some? && r.snapshot.Some?
  {
    var snap := r.snapshot.value;
    && c.ok(Dec([], snap.flags)) && Behind(file, r.pos, snap.input)
    && (r.pos == |snap.input| ==> FromStart(c, file, snap.flags))
    && (last ==> r.pos >= |file|)
    && c.feed(Dec([], snap.flags), snap.input, last) == (r.decoder.value, r.decoded)
  }

  predicate Snapped(c: Codec, file: File, r: Reader) {
    r.decoder.Some? && r.snapshot.Some? && (SnapHolds(c, file, r, false) || SnapHolds(c, file, r, true))
  }

  ghost predicate Inv(c: Codec, file: File, r: Reader) {
    && r.used <= |r.decoded| && r.pos < W
    && (r.decoder.Some? ==> DecoderInv(c, file, r.decoder.value, r.pos))
    && (Fresh(c, r) || Spent(c, file, r) || AtOrigin(c, r) || Snapped(c, file, r))
  }

  /** A file small enough for its positions to fit a cookie. */
  predicate Small(c: Codec, file: File) { |file| < W && c.expand * (|file| + 1) < W }

  // ---------------------------------------------------------------------
  // Filling
  // ---------------------------------------------------------------------

  /** One chunk of `n` bytes, or the final call when there are none left. */
  function Filled(c: Codec, file: File, r: Reader, n: nat): Reader {
    var d, chunk := DecoderOf(c, r), Slice(file, r.pos, n);
    var out := c.feed(d, chunk, chunk == []);
    Reader(r.pos + |chunk|, Some(out.0), out.1, 0, Some(Snapshot(d.flags, d.buf + chunk)))
  }

  lemma BehindMore(file: File, pos: nat, bytes: seq<Byte>, chunk: seq<Byte>)
    requires Behind(file, pos, bytes) && chunk == Slice(file, pos, |chunk|)
    ensures Behind(file, pos + |chunk|, bytes + chunk)
  {}

  lemma BehindSuffix(file: File, pos: nat, bytes: seq<Byte>, n: nat)
    requires Behind(file, pos, bytes) && n <= |bytes|
    ensures Behind(file, pos, bytes[|bytes| - n..])
  {}

  /** The decoder after one more chunk. */
  lemma FedDecoder(c: Codec, file: File, d: Dec, pos: nat, chunk: seq<Byte>, last: bool)
    requires Lawful(c) && DecoderInv(c, file, d, pos) && chunk == Slice(file, pos, |chunk|)
    requires last ==> pos + |chunk| >= |file|
    ensures DecoderInv(c, file, c.feed(d, chunk, last).0, pos + |chunk|)
  {
    hide Lawful, FromStart;
    BehindMore(file, pos, d.buf, chunk);
    Oks(c, d, chunk, last);
    Buffered(c, d, chunk, last);
    BehindSuffix(file, pos + |chunk|, d.buf + chunk, |c.feed(d, chunk, last).0.buf|);
    if pos + |chunk| == |c.feed(d, chunk, last).0.buf| { StillAtStart(c, file, d, chunk, last); }
  }

  /** While all of the file's first bytes are in the buffer, the emptied decoder
      decodes the file as it did. */
  lemma StillAtStart(c: Codec, file: File, d: Dec, chunk: seq<Byte>, last: bool)
    requires Lawful(c) && c.ok(d) && FromStart(c, file, d.flags)
    requires |d.buf + chunk| <= |file| && d.buf + chunk == file[..|d.buf + chunk|] && (last ==> d.buf + chunk == file)
    requires |c.feed(d, chunk, last).0.buf| == |d.buf + chunk|
    ensures FromStart(c, file, c.feed(d, chunk, last).0.flags)
  {
    hide Lawful;
    var out := c.feed(d, chunk, last);
    var rest := file[|d.buf + chunk|..];
    assert file == d.buf + chunk + rest == d.buf + (chunk + rest);
    Oks(c, d, chunk, last);
    Buffered(c, d, chunk, last);
    assert out.0.buf == d.buf + chunk;
    FeedAfterBuffer(c, out.0, rest, true);
    FeedAfterBuffer(c, d, chunk + rest, true);
    if last {
      Flushed(c, d, chunk);
      assert rest == [] && chunk + rest == chunk;
      NewOk(c);
    } else {
      DecodedInTwo(c, d, chunk, rest);
      if d.buf + chunk == [] { FeedNothing(c, d); }
      assert [] + Decoded(c, out.0, rest) == Decoded(c, out.0, rest);
    }
  }

  lemma NewInv(c: Codec, file: File, pos: nat)
    requires Lawful(c)
    ensures DecoderInv(c, file, New(c), pos)
  {
    NewOk(c);
    hide Lawful;
    assert Slice(file, pos, 0) == [];
  }

  lemma InvDecoder(c: Codec, file: File, r: Reader)
    requires Lawful(c) && Inv(c, file, r)
    ensures var d := DecoderOf(c, r);
      c.ok(d) && DecoderInv(c, file, d, r.pos)
    ensures r.used <= |r.decoded| && r.pos < W
  {
    hide Lawful;
    NewInv(c, file, r.pos);
  }

  /** Filling hands the unread text on unchanged, and snapshots what it decodes. */
  lemma FillKeeps(c: Codec, file: File, r: Reader, n: nat)
    requires Lawful(c) && Small(c, file) && Inv(c, file, r) && r.used == |r.decoded| && n >= 1
    ensures Inv(c, file, Filled(c, file, r, n)) && Rest(c, file, Filled(c, file, r, n)) == Rest(c, file, r)
    ensures Slice(file, r.pos, n) == [] ==>
      && Filled(c, file, r, n).decoded == Rest(c, file, r)
      && Spent(c, file, Filled(c, file, r, n).(decoded := [], snapshot := None))
  {
    var d, chunk := DecoderOf(c, r), Slice(file, r.pos, n);
    hide Lawful, Slice, Inv, DecoderInv, Behind;
    InvDecoder(c, file, r);
    SliceIsItself(file, r.pos, n);
    EmptyChunk(file, r.pos, n);
    FilledInv(c, file, r, d, chunk);
    assert r.decoded[r.used..] == [];
    if chunk == [] {
      Flushed(c, d, chunk);
    } else {
      ChunkAndTail(file, r.pos, n);
      DecodedInTwo(c, d, chunk, Tail(file, r.pos + |chunk|));
    }
  }

  lemma SliceIsItself(file: File, pos: nat, n: nat)
    ensures Slice(file, pos, n) == Slice(file, pos, |Slice(file, pos, n)|)
    ensures Tail(file, pos) == Slice(file, pos, |Tail(file, pos)|) && Tail(file, pos + |Tail(file, pos)|) == []
    ensures pos < W && |file| < W ==> pos + |Tail(file, pos)| < W
    ensures pos + |Tail(file, pos)| >= |file|
  {}

  lemma EmptyChunk(file: File, pos: nat, n: nat)
    requires n >= 1
    ensures Slice(file, pos, n) == [] <==> pos >= |file|
    ensures pos >= |file| ==> Tail(file, pos) == []
  {}

  lemma ChunkAndTail(file: File, pos: nat, n: nat)
    ensures var chunk := Slice(file, pos, n); Tail(file, pos) == chunk + Tail(file, pos + |chunk|)
    ensures pos < W && |file| < W ==> pos + |Slice(file, pos, n)| < W
  {}

  lemma FilledInv(c: Codec, file: File, r: Reader, d: Dec, chunk: seq<Byte>)
    requires Lawful(c) && d == DecoderOf(c, r) && DecoderInv(c, file, d, r.pos)
    requires chunk == Slice(file, r.pos, |chunk|) && (chunk == [] ==> r.pos >= |file|)
    requires r.pos < W && |file| < W
    ensures var out := c.feed(d, chunk, chunk == []);
      Inv(c, file, Reader(r.pos + |chunk|, Some(out.0), out.1, 0, Some(Snapshot(d.flags, d.buf + chunk))))
  {
    hide Lawful;
    var out := c.feed(d, chunk, chunk == []);
    var filled := Reader(r.pos + |chunk|, Some(out.0), out.1, 0, Some(Snapshot(d.flags, d.buf + chunk)));
    FedDecoder(c, file, d, r.pos, chunk, chunk == []);
    BehindMore(file, r.pos, d.buf, chunk);
    Oks(c, d, chunk, chunk == []);
    FeedAfterBuffer(c, d, chunk, chunk == []);
    assert SnapHolds(c, file, filled, chunk == []);
  }

  /** Reading everything at once. */
  lemma DrainKeeps(c: Codec, file: File, r: Reader)
    requires Lawful(c) && Small(c, file) && Inv(c, file, r)
    ensures var d, rest := DecoderOf(c, r), Tail(file, r.pos);
      var out := c.feed(d, rest, true);
      var after := Reader(r.pos + |rest|, Some(out.0), [], 0, None);
      && Rest(c, file, r) == r.decoded[r.used..] + out.1
      && Inv(c, file, after) && Rest(c, file, after) == []
  {
    var d, rest := DecoderOf(c, r), Tail(file, r.pos);
    hide Lawful, Slice, Tail, DecoderInv, Behind;
    InvDecoder(c, file, r);
    SliceIsItself(file, r.pos, 0);
    FedDecoder(c, file, d, r.pos, rest, true);
    Flushed(c, d, rest);
  }

  // ---------------------------------------------------------------------
  // Positions
  // ---------------------------------------------------------------------

  /** The text that seeking to a cookie leaves to be read, when the file object
      has a decoder; none when the cookie's characters are not there. */
  function Named(c: Codec, file: File, n: nat): Option<Text> {
    if n == 0 then Some(Decoded(c, New(c), file))
    else
      var k := Unpack(n);
      var d := Dec([], k.flags);
      if k.skip == 0 then Some(Decoded(c, d, Tail(file, k.start)))
      else
        var chunk := Slice(file, k.start, k.feed);
        var out := c.feed(d, chunk, k.eof);
        if |out.1| < k.skip then None
        else Some(out.1[k.skip..] + Decoded(c, out.0, Tail(file, k.start + |chunk|)))
  }

  /** A cookie that can be restored: zero, or one whose flags are a decoder's,
      as good as those of a new one at byte zero, with its final call at the end
      only. */
  predicate Sound(c: Codec, file: File, n: nat) {
    n == 0 ||
      var k := Unpack(n);
      && c.ok(Dec([], k.flags)) && (k.start == 0 ==> FromStart(c, file, k.flags))
      && (k.skip > 0 && k.eof ==> k.start + k.feed >= |file|)
      && Named(c, file, n).Some?
  }

  /** Where a seek leaves the reader, and whether it succeeds. */
  function SeekTo(c: Codec, file: File, r: Reader, n: nat): (Reader, bool) {
    var k := Unpack(n);
    var moved := Reader(k.start, r.decoder, [], 0, None);
    var there :=
      if n == 0 && r.decoder.Some? then
        moved.(decoder := Some(New(c)), snapshot := Some(Snapshot(0, [])))
      else if r.decoder.Some? || k.flags != 0 || k.skip != 0 then
        moved.(decoder := Some(Dec([], k.flags)), snapshot := Some(Snapshot(k.flags, [])))
      else moved;
    if k.skip == 0 then (there, true)
    else
      var chunk := Slice(file, k.start, k.feed);
      var out := c.feed(DecoderOf(c, there), chunk, k.eof);
      var fed := Reader(k.start + |chunk|, Some(out.0), out.1, 0, Some(Snapshot(k.flags, chunk)));
      if |out.1| < k.skip then (fed, false) else (fed.(used := k.skip), true)
  }

  /** The text a seek leaves: the one its cookie names, or without a decoder the
      text a new one makes from the position on. */
  function Sought(c: Codec, file: File, r: Reader, n: nat): Option<Text> {
    var k := Unpack(n);
    if r.decoder.None? && k.flags == 0 && k.skip == 0 then Some(Decoded(c, New(c), Tail(file, k.start)))
    else Named(c, file, n)
  }

  lemma UnpackZero()
    ensures Unpack(0) == Cookie(0, 0, 0, false, 0)
  {}

  lemma UnpackPlain(n: nat)
    ensures n < W ==> Unpack(n) == Cookie(n, 0, 0, false, 0)
    ensures Unpack(n).start < W
  {}

  /** A seek to a cookie that can be restored succeeds. */
  lemma SeekKeeps(c: Codec, file: File, r: Reader, n: nat)
    requires Lawful(c) && Small(c, file) && Sound(c, file, n)
    ensures SeekTo(c, file, r, n).1
    ensures Inv(c, file, SeekTo(c, file, r, n).0)
    ensures Sought(c, file, r, n) == Some(Rest(c, file, SeekTo(c, file, r, n).0))
  {
    UnpackZero();
    UnpackPlain(n);
    if Unpack(n).skip == 0 {
      SeekPlain(c, file, r, n);
    } else {
      SeekFeeding(c, file, r, n);
    }
  }

  lemma SeekPlain(c: Codec, file: File, r: Reader, n: nat)
    requires Lawful(c) && Small(c, file) && Sound(c, file, n) && Unpack(n).skip == 0
    ensures Inv(c, file, SeekTo(c, file, r, n).0)
    ensures Sought(c, file, r, n) == Some(Rest(c, file, SeekTo(c, file, r, n).0))
  {
    var k := Unpack(n);
    var there := SeekTo(c, file, r, n).0;
    UnpackZero();
    UnpackPlain(n);
    hide Lawful, Unpack;
    assert Tail(file, 0) == file;
    NewInv(c, file, k.start);
    assert Rest(c, file, there) == Decoded(c, DecoderOf(c, there), Tail(file, k.start));
    if n != 0 && there.decoder.Some? {
      FeedNothing(c, Dec([], k.flags));
      assert Behind(file, k.start, []);
      assert SnapHolds(c, file, there, false);
    }
  }

  lemma SeekFeeding(c: Codec, file: File, r: Reader, n: nat)
    requires Lawful(c) && Small(c, file) && Sound(c, file, n) && Unpack(n).skip > 0
    ensures SeekTo(c, file, r, n).1
    ensures Inv(c, file, SeekTo(c, file, r, n).0)
    ensures Named(c, file, n) == Some(Rest(c, file, SeekTo(c, file, r, n).0))
  {
    var k := Unpack(n);
    var there := SeekTo(c, file, r, n).0;
    UnpackZero();
    UnpackPlain(n);
    hide Lawful, Unpack, FromStart;
    var d, chunk := Dec([], k.flags), Slice(file, k.start, k.feed);
    assert DecoderInv(c, file, d, k.start) by { assert Slice(file, k.start, 0) == []; }
    hide DecoderInv;
    ChunkAndTail(file, k.start, k.feed);
    FedDecoder(c, file, d, k.start, chunk, k.eof);
    BehindMore(file, k.start, [], chunk);
    assert [] + chunk == chunk;
    assert SnapHolds(c, file, there, k.eof);
  }
}
