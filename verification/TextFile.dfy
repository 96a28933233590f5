/** The reading side of a text file object (python/turbofile/text.py). */
module TextFiles {
  import opened Basics
  import opened Codecs
  import opened Cookies
  import opened TextLines
  import opened TextModel
  import opened TextTell

  const CHUNK := 8192

  datatype SeekResult =
    | At(cookie: int)
    | Unsupported
    | BadValue
    | NotRestored

  /** The first `n` characters, or all of them for a negative `n`. */
  function Upto(text: Text, n: int): (r: Text)
    ensures r <= text
  {
    if n < 0 || n >= |text| then text else text[..n]
  }

  lemma UptoFits(text: Text, n: int)
    ensures if n < 0 then Upto(text, n) == text
      else |Upto(text, n)| <= n && (|Upto(text, n)| < n ==> Upto(text, n) == text)
  {}

  lemma UptoIs(all: Text, text: Text, rest: Text, n: nat)
    requires all == text + rest && |text| <= n && (|text| == n || rest == [])
    ensures text == Upto(all, n)
  {}

  /** The last characters of a line, given back, are before the rest again. */
  lemma GivenBack(line: Text, base: nat, endpos: nat, decoded: Text, rest: Text)
    requires base <= endpos <= |line| && |line| - base <= |decoded|
    requires line[base..] == decoded[|decoded| - (|line| - base)..]
    ensures line[..endpos] + (decoded[|decoded| - (|line| - endpos)..|decoded|] + rest) == line + rest
  {
    var n := |line| - endpos;
    var back := decoded[|decoded| - n..|decoded|];
    forall j: nat | j < n ensures back[j] == line[endpos..][j] {
      assert back[j] == decoded[|decoded| - n + j] == line[base..][endpos - base + j];
    }
    assert back == line[endpos..];
    assert line == line[..endpos] + line[endpos..];
  }

  /** A part of what is left has been taken as well. */
  lemma MoreTaken(all: Text, text: Text, left: Text, part: Text, rest: Text)
    requires all == text + left && left == part + rest
    ensures all == (text + part) + rest && (part == left ==> rest == [])
  {}

  /** Handing characters out, or taking some back, keeps the rest of the state
      in order. */
  lemma UseKeeps(c: Codec, file: File, r: Reader, used: nat)
    requires Inv(c, file, r) && used <= |r.decoded|
    ensures Inv(c, file, r.(used := used))
    ensures Rest(c, file, r.(used := used)) == r.decoded[used..] + Decoded(c, DecoderOf(c, r), Tail(file, r.pos))
  {
    var s := r.(used := used);
    assert Snapped(c, file, r) ==> Snapped(c, file, s);
  }

  lemma TakeSplits(c: Codec, file: File, r: Reader, n: nat)
    requires r.used + n <= |r.decoded|
    ensures Rest(c, file, r) == r.decoded[r.used..][..n] + Rest(c, file, r.(used := r.used + n))
  {
    var avail := r.decoded[r.used..];
    var more := Decoded(c, DecoderOf(c, r), Tail(file, r.pos));
    assert avail == avail[..n] + avail[n..];
    assert avail[n..] == r.decoded[r.used + n..];
    assert avail[..n] + (avail[n..] + more) == avail + more;
  }

  /** The states from which `seek(tell())` restores the unread text: all but
      one, a decoder just made at a position inside the file, when the flags of
      a new decoder are not zero. */
  predicate Returns(c: Codec, file: File, r: Reader) {
    r.decoder.None? || r.snapshot.Some? || c.init == 0 || r.pos == 0 || r.pos >= |file|
  }

  /** A bare position as a cookie. */
  lemma PlainCookie(c: Codec, file: File, r: Reader)
    requires Lawful(c) && Small(c, file) && Inv(c, file, r) && (r.decoder.None? || r.snapshot.None?)
    ensures Sound(c, file, r.pos) && Unpack(r.pos) == Cookie(r.pos, 0, 0, false, 0) && r.snapshot.None?
    ensures r.pos > 0 ==> Named(c, file, r.pos) == Some(Decoded(c, Dec([], 0), Tail(file, r.pos)))
    ensures c.init == 0 || r.pos == 0 || r.pos >= |file| ==> Named(c, file, r.pos) == Some(Rest(c, file, r))
    ensures r.decoder.None? || r.pos < |file| ==> Rest(c, file, r) == Decoded(c, New(c), Tail(file, r.pos))
  {
    hide Lawful, Unpack;
    UnpackPlain(r.pos);
    UnpackZero();
    NewOk(c);
    assert Tail(file, 0) == file;
    AtTheEnd(file, if r.pos >= |file| then r.pos else |file|);
    assert r.decoded[r.used..] == [];
    assert forall text: Text :: [] + text == text;
  }

  /** What the search for a cookie keeps: `s` bytes into the snapshot there is a
      clean point, and `i` bytes have been decoded. */
  ghost predicate Searching(c: Codec, r: Reader, i: nat, s: nat, flags: nat, d: Dec, decoded: nat, skip: nat)
    requires r.snapshot.Some?
  {
    var snap := r.snapshot.value;
    && s <= i <= |snap.input|
    && d == After(c, snap, i).0 && After(c, snap, s).0 == Dec([], flags)
    && (s == 0 ==> flags == snap.flags)
    && |After(c, snap, s).1| + skip == r.used
    && |After(c, snap, s).1| + decoded == |After(c, snap, i).1|
    && (skip == 0 ==> i == s)
  }

  /** One byte further in the search. */
  lemma SearchOn(c: Codec, r: Reader, i: nat, s: nat, flags: nat, d: Dec, decoded: nat, skip: nat)
    requires Lawful(c) && r.snapshot.Some? && c.ok(Dec([], r.snapshot.value.flags))
    requires Searching(c, r, i, s, flags, d, decoded, skip) && i < |r.snapshot.value.input| && skip > 0
    ensures var out := c.feed(d, r.snapshot.value.input[i..i + 1], false);
      var sum := decoded + |out.1|;
      && Searching(c, r, i + 1, s, flags, out.0, sum, skip)
      && (out.0.buf == [] && sum <= skip ==> Searching(c, r, i + 1, i + 1, out.0.flags, out.0, 0, skip - sum))
  {
    hide Lawful, After;
    AfterNext(c, r.snapshot.value, i);
  }

  lemma SearchStarts(c: Codec, r: Reader)
    requires Lawful(c) && r.snapshot.Some? && c.ok(Dec([], r.snapshot.value.flags)) && r.used > 0
    ensures Searching(c, r, 0, 0, r.snapshot.value.flags, Dec([], r.snapshot.value.flags), 0, r.used)
  {
    hide Lawful;
    AfterStart(c, r.snapshot.value);
  }

  /** When the bytes run out first, the characters are those of the final call,
      and with it they suffice. */
  lemma SearchEnds(c: Codec, file: File, r: Reader, last: bool, s: nat, flags: nat, d: Dec, decoded: nat, skip: nat)
    requires Lawful(c) && r.used <= |r.decoded| && r.decoder.Some? && r.snapshot.Some? && SnapHolds(c, file, r, last)
    requires Searching(c, r, |r.snapshot.value.input|, s, flags, d, decoded, skip) && decoded < skip
    ensures last && decoded + |c.feed(d, [], true).1| >= skip
  {
    hide Lawful;
    var snap := r.snapshot.value;
    assert snap.input[..|snap.input|] == snap.input && snap.input + [] == snap.input;
    Split(c, Dec([], snap.flags), snap.input, [], true);
  }

  lemma SearchNames(c: Codec, file: File, r: Reader, last: bool, i: nat, s: nat, flags: nat, d: Dec,
                    decoded: nat, skip: nat, eof: bool)
    requires Lawful(c) && Small(c, file) && Inv(c, file, r) && r.decoder.Some? && r.snapshot.Some?
    requires SnapHolds(c, file, r, last) && Searching(c, r, i, s, flags, d, decoded, skip)
    requires if eof then last && i == |r.snapshot.value.input| && decoded < skip else decoded >= skip
    ensures |r.snapshot.value.input| <= r.pos && i >= s
    ensures var n := Pack(Cookie(Base(r) + s, flags, i - s, eof, skip));
      Sound(c, file, n) && Named(c, file, n) == Some(Rest(c, file, r))
  {
    hide Lawful, Pack, After;
    assert Reached(c, file, r, last, s, flags, i, eof);
    assert CookieOf(c, r, s, flags, i, eof) == Cookie(Base(r) + s, flags, i - s, eof, skip);
    CookieNamesRest(c, file, r, last, s, flags, i, eof);
  }

  /** At the end the snapshot can be dropped. */
  lemma EndKeeps(c: Codec, file: File, r: Reader)
    requires Inv(c, file, r) && r.decoded == [] && Spent(c, file, r.(snapshot := None))
    ensures Inv(c, file, r.(snapshot := None))
    ensures Rest(c, file, r.(snapshot := None)) == Rest(c, file, r)
  {}

  class TextFile {
    const codec: Codec
    const file: File
    const newlines: LineMode
    /** How many bytes the buffer's n-th `read1` hands out at most. */
    const chunks: nat -> nat
    var calls: nat
    var pos: nat
    var decoder: Option<Dec>
    var decoded: Text
    var used: nat
    var snapshot: Option<Snapshot>

    ghost function Abs(): Reader
      reads this
    {
      Reader(pos, decoder, decoded, used, snapshot)
    }

    ghost predicate Valid()
      reads this
    {
      Lawful(codec) && Small(codec, file) && Inv(codec, file, Abs())
    }

    /** The unread text. */
    ghost function Unread(): Text
      requires Valid()
      reads this
    {
      Rest(codec, file, Abs())
    }

    constructor (codec: Codec, file: File, newlines: LineMode, chunks: nat -> nat, pos: nat)
      requires Lawful(codec) && Small(codec, file) && pos < W
      ensures this.codec == codec && this.file == file && this.newlines == newlines
      ensures Abs() == Reader(pos, None, [], 0, None)
      ensures Valid() && Unread() == Decoded(codec, New(codec), Tail(file, pos))
    {
      this.codec, this.file, this.newlines, this.chunks := codec, file, newlines, chunks;
      this.pos, decoder, decoded, used, snapshot, calls := pos, None, [], 0, None, 0;
    }

    /** The buffer's `read1`: some bytes, as long as there are any. */
    method Read1() returns (chunk: seq<Byte>, ghost n: nat)
      modifies this`pos, this`calls
      ensures n >= 1 && chunk == Slice(file, old(pos), n) && pos == old(pos) + |chunk|
    {
      n := Max(1, Min(CHUNK, chunks(calls)));
      chunk := Slice(file, pos, Max(1, Min(CHUNK, chunks(calls))));
      pos, calls := pos + |chunk|, calls + 1;
    }

    method MakeDecoder()
      requires Valid()
      modifies this`decoder
      ensures Valid() && decoder.Some? && Unread() == old(Unread())
      ensures Abs() == old(Abs()).(decoder := Some(DecoderOf(codec, old(Abs()))))
    {
      hide Lawful;
      if decoder.None? {
        NewInv(codec, file, pos);
        decoder := Some(New(codec));
      }
    }

    method TakeChars(n: int) returns (text: Text)
      requires Valid()
      modifies this`used
      ensures Valid() && used == old(used) + |text| && text == Upto(decoded[old(used)..], n)
      ensures n < 0 || |text| < n ==> used == |decoded|
      ensures old(Unread()) == text + Unread()
    {
      hide Lawful, Inv;
      InvDecoder(codec, file, Abs());
      ghost var before := Abs();
      var avail := decoded[used..];
      if n < 0 || n >= |avail| {
        used := |decoded|;
        text := avail;
      } else {
        used := used + n;
        text := avail[..n];
      }
      UseKeeps(codec, file, before, used);
      TakeSplits(codec, file, before, |text|);
    }

    method RewindChars(n: nat)
      requires Valid() && n <= used
      modifies this`used
      ensures Valid() && used == old(used) - n
      ensures Unread() == decoded[used..old(used)] + old(Unread())
    {
      hide Lawful, Inv;
      InvDecoder(codec, file, Abs());
      ghost var before := Abs();
      used := used - n;
      UseKeeps(codec, file, before, used);
      TakeSplits(codec, file, Abs(), n);
      assert decoded[used..][..n] == decoded[used..before.used];
    }

    /** One more chunk; `more` is false once the end has been reached. */
    method Fill() returns (more: bool)
      requires Valid() && used == |decoded|
      modifies this
      ensures Valid() && Unread() == old(Unread()) && used == 0 && decoder.Some?
      ensures more ==> pos > old(pos) && old(pos) < |file|
      ensures !more ==>
        && pos == old(pos) >= |file| && decoded == Unread()
        && Spent(codec, file, Abs().(decoded := [], snapshot := None))
    {
      hide Lawful, Inv, Spent;
      InvDecoder(codec, file, Abs());
      ghost var before := Abs();
      var d := if decoder.Some? then decoder.value else New(codec);
      var chunk;
      ghost var n;
      chunk, n := Read1();
      EmptyChunk(file, before.pos, n);
      var out := codec.feed(d, chunk, chunk == []);
      decoder, decoded, used := Some(out.0), out.1, 0;
      snapshot := Some(Snapshot(d.flags, d.buf + chunk));
      assert Abs() == Filled(codec, file, before, n);
      FillKeeps(codec, file, before, n);
      more := chunk != [];
    }

    /** Everything that is left, decoded at once. */
    method ReadRest() returns (text: Text)
      requires Valid() && decoder.Some?
      modifies this
      ensures Valid() && text == old(Unread()) && Unread() == []
    {
      hide Lawful, Inv;
      var taken := TakeChars(-1);
      InvDecoder(codec, file, Abs());
      DrainKeeps(codec, file, Abs());
      var rest := Tail(file, pos);
      pos := pos + |rest|;
      var out := codec.feed(decoder.value, rest, true);
      text := taken + out.1;
      decoder, decoded, used, snapshot := Some(out.0), [], 0, None;
    }

    /** `size` characters of the unread text, fewer only when there are no more,
        all of them for a negative size. */
    method Read(size: int) returns (text: Text)
      requires Valid()
      modifies this
      ensures Valid() && text == Upto(old(Unread()), size) && old(Unread()) == text + Unread()
      ensures size == 0 ==> Abs() == old(Abs()).(decoder := Some(DecoderOf(codec, old(Abs()))))
    {
      hide Lawful, Inv, Upto, Spent;
      ghost var all := Unread();
      MakeDecoder();
      InvDecoder(codec, file, Abs());
      UptoFits(all, size);
      if size < 0 {
        text := ReadRest();
        return;
      }
      ghost var before := decoded[used..];
      text := TakeChars(size);
      UptoFits(before, size);
      var more := true;
      while more && |text| < size
        invariant Valid() && all == text + Unread() && |text| <= size
        invariant |text| < size ==> used == |decoded| && (more || Unread() == [])
        invariant size == 0 ==> Abs() == old(Abs()).(decoder := Some(DecoderOf(codec, old(Abs()))))
        decreases |file| - pos, more
      {
        ghost var had, rest := text, Unread();
        more := Fill();
        before := decoded[used..];
        var part := TakeChars(size - |text|);
        UptoFits(before, size - |text|);
        text := text + part;
        MoreTaken(all, had, rest, part, Unread());
      }
      UptoIs(all, text, Unread(), size);
    }

    /** Fills until there is a character or the end has been reached. */
    method FillSome()
      requires Valid() && used == |decoded|
      modifies this
      ensures Valid() && Unread() == old(Unread()) && used == 0
      ensures old(pos) <= pos
      ensures decoded != [] ==> old(pos) < pos || pos >= |file|
      ensures decoded == [] ==> Unread() == [] && Spent(codec, file, Abs().(snapshot := None))
    {
      hide Lawful, Inv, Spent;
      InvDecoder(codec, file, Abs());
      var more := Fill();
      while more && decoded == []
        invariant Valid() && Unread() == old(Unread()) && used == 0 && old(pos) <= pos
        invariant if more then old(pos) < pos
          else pos >= |file| && decoded == Unread() && Spent(codec, file, Abs().(decoded := [], snapshot := None))
        decreases |file| - pos, more
      {
        more := Fill();
      }
      assert decoded == [] ==> Abs().(decoded := [], snapshot := None) == Abs().(snapshot := None);
    }

    /** Keeps the first `endpos` characters of a line and takes the others back. */
    method GiveBack(line: Text, endpos: nat, ghost base: nat) returns (text: Text)
      requires Valid() && base <= endpos <= |line| && |line| - base <= used == |decoded|
      requires line[base..] == decoded[used - (|line| - base)..]
      modifies this`used
      ensures Valid() && text == line[..endpos] && text + Unread() == line + old(Unread())
    {
      hide Lawful, Inv, Rest, Small;
      GivenBack(line, base, endpos, decoded, Unread());
      RewindChars(|line| - endpos);
      text := line[..endpos];
    }

    /** The first line of the unread text, cut to the limit, however the chunks
        fall; and no more characters are taken back than the last chunk has. */
    method ReadLine(size: int) returns (text: Text)
      requires Valid()
      modifies this
      ensures Valid() && text == FirstLine(newlines, old(Unread()), size) && old(Unread()) == text + Unread()
    {
      hide Lawful, Inv, Spent, SearchLine, LineEnd, NoEnd;
      ghost var all := Unread();
      MakeDecoder();
      var line := TakeChars(-1);
      var start := 0;
      var endpos := 0;
      ghost var base := 0;
      StartOfSearch(newlines, all);
      InvDecoder(codec, file, Abs());
      while true
        invariant Valid() && all == line + Unread() && used == |decoded|
        invariant 0 <= base <= |line| && |line| - base <= used == |decoded|
        invariant line[base..] == decoded[used - (|line| - base)..]
        invariant start <= |line| && NoEnd(newlines, all, start) && base <= start + Width(newlines)
        invariant size < 0 || base == 0 || base < size
        decreases if pos < |file| then |file| - pos else 0, |Unread()|
      {
        SearchIsChunkFree(newlines, line, all, start);
        match SearchLine(newlines, line, start) {
          case Found(end) =>
            endpos := end;
            break;
          case NotYet(next) => start := next;
        }
        if 0 <= size <= |line| {
          endpos := size;
          break;
        }
        FillSome();
        if decoded == [] {
          EndKeeps(codec, file, Abs());
          snapshot := None;
          return line;
        }
        base := |line|;
        var more := TakeChars(-1);
        line := line + more;
      }
      if 0 <= size < endpos { endpos := size; }
      text := GiveBack(line, endpos, base);
    }

    /** Lines until `hint` characters have been handed out, or all of them. */
    method ReadLines(hint: int) returns (lines: seq<Text>)
      requires Valid()
      modifies this
      ensures Valid() && lines == LinesOf(newlines, old(Unread()), hint, 0)
      ensures old(Unread()) == Concat(lines) + Unread()
    {
      hide Lawful, Inv, FirstLine, LinesOf, Concat, HandedOut;
      ghost var all := Unread();
      lines := [];
      var total: nat := 0;
      NoneHandedOut(newlines, all, hint);
      while true
        invariant Valid() && HandedOut(newlines, all, lines, Unread(), hint, total)
        decreases |Unread()|
      {
        ghost var rest := Unread();
        var line := ReadLine(-1);
        OneMoreLine(newlines, all, lines, rest, line, Unread(), hint, total);
        if line == [] { return; }
        lines := lines + [line];
        total := total + |line|;
        if 0 < hint <= total { return; }
      }
    }

    /** A cookie for the current position. The decoder is run over the bytes of
        the snapshot and put back; the error for a position that cannot be
        reconstructed is never raised. */
    method Tell() returns (cookie: nat)
      requires Valid()
      modifies this`decoder
      ensures Abs() == old(Abs()) && Valid()
      ensures Sound(codec, file, cookie)
      ensures decoder.None? || snapshot.None? ==> cookie == pos
      ensures snapshot.Some? || codec.init == 0 || pos == 0 || pos >= |file| ==>
        Named(codec, file, cookie) == Some(Unread())
    {
      hide Lawful, Inv, Pack, Named, Sound, Rest;
      if decoder.None? || snapshot.None? {
        PlainCookie(codec, file, Abs());
        return pos;
      }
      InvSnapshot(codec, file, Abs());
      var snap := snapshot.value;
      var position := pos - |snap.input|;
      if used == 0 {
        StartCookie(codec, file, Abs());
        return Pack(Cookie(position, snap.flags, 0, false, 0));
      }
      cookie := TellInside(snap, position);
    }

    method TellInside(snap: Snapshot, position: nat) returns (cookie: nat)
      requires Valid() && decoder.Some? && used > 0
      requires snapshot == Some(snap) && position + |snap.input| == pos
      modifies this`decoder
      ensures Abs() == old(Abs()) && Valid()
      ensures Sound(codec, file, cookie) && Named(codec, file, cookie) == Some(Unread())
    {
      hide Lawful, Inv, After, Searching, SnapHolds, Sound, Named, Pack, Rest;
      ghost var r := Abs();
      ghost var last := SnapOf(codec, file, r);
      SearchStarts(codec, r);
      var saved := decoder;
      decoder := Some(Dec([], snap.flags));
      var startPos, startFlags, needEof := position, snap.flags, false;
      var charsToSkip: nat, charsDecoded: nat, bytesFed: nat := used, 0, 0;
      var i: nat := 0;
      while i < |snap.input| && charsDecoded < charsToSkip
        invariant decoder.Some? && position <= startPos && bytesFed == position + i - startPos
        invariant i <= |snap.input|
        invariant Searching(codec, r, i, startPos - position, startFlags, decoder.value, charsDecoded, charsToSkip)
      {
        SearchOn(codec, r, i, startPos - position, startFlags, decoder.value, charsDecoded, charsToSkip);
        var out := codec.feed(decoder.value, snap.input[i..i + 1], false);
        decoder := Some(out.0);
        charsDecoded, bytesFed, i := charsDecoded + |out.1|, bytesFed + 1, i + 1;
        if out.0.buf == [] && charsDecoded <= charsToSkip {
          startPos, startFlags := startPos + bytesFed, out.0.flags;
          charsToSkip := charsToSkip - charsDecoded;
          bytesFed, charsDecoded := 0, 0;
        }
      }
      if charsDecoded < charsToSkip {
        SearchEnds(codec, file, r, last, startPos - position, startFlags, decoder.value, charsDecoded, charsToSkip);
        needEof := true;
        var flushed := codec.feed(decoder.value, [], true).1;
        assert charsDecoded + |flushed| >= charsToSkip;
      }
      SearchNames(codec, file, r, last, i, startPos - position, startFlags, decoder.value, charsDecoded,
        charsToSkip, needEof);
      cookie := Pack(Cookie(startPos, startFlags, bytesFed, needEof, charsToSkip));
      decoder := saved;
    }

    /** Seeks to a cookie, to the current position (`whence` one), or to the
        end (`whence` two). Seeking to the current position, `seek(tell())`,
        returns the cookie it went to, which names the unread text as that of
        `tell` does, and leaves the unread text as it was; in the one kind of state where it may
        not, exactly when a decoder with flags zero and a new one make the same
        of the rest of the file. */
    method Seek(offset: int, whence: int) returns (r: SeekResult)
      requires Valid()
      modifies this
      ensures whence == 0 && offset >= 0 ==>
        var (there, ok) := SeekTo(codec, file, old(Abs()), offset);
        Abs() == there && r == if ok then At(offset) else NotRestored
      ensures whence == 0 && offset >= 0 && Sound(codec, file, offset) ==>
        Valid() && r == At(offset) && Sought(codec, file, old(Abs()), offset) == Some(Unread())
      ensures whence == 1 && offset == 0 ==>
        && Valid() && r.At? && r.cookie >= 0 && Sound(codec, file, r.cookie)
        && Abs() == SeekTo(codec, file, old(Abs()), r.cookie).0
        && (old(decoder).None? || old(snapshot).None? ==> r.cookie == old(pos))
        && (old(snapshot).Some? || codec.init == 0 || old(pos) == 0 || old(pos) >= |file| ==>
              Named(codec, file, r.cookie) == Some(old(Unread())))
      ensures whence == 1 && offset == 0 ==>
        (Unread() == old(Unread()) <==>
          Returns(codec, file, old(Abs()))
          || Decoded(codec, New(codec), Tail(file, old(pos))) == Decoded(codec, Dec([], 0), Tail(file, old(pos))))
      ensures whence == 2 && offset == 0 ==> Valid() && r == At(|file|) && pos == |file| && Unread() == []
      ensures whence in {1, 2} && offset != 0 ==> r == Unsupported && Abs() == old(Abs())
      ensures whence !in {0, 1, 2} || (whence == 0 && offset < 0) ==> r == BadValue && Abs() == old(Abs())
    {
      hide Lawful, Inv, Sound, Named, Unpack;
      var cookie := offset;
      if whence == 1 {
        if offset != 0 { return Unsupported; }
        cookie := Tell();
        TellThenSeek(codec, file, Abs(), cookie);
      } else if whence == 2 {
        if offset != 0 { return Unsupported; }
        SeekToEnd();
        return At(|file|);
      } else if whence != 0 {
        return BadValue;
      }
      if cookie < 0 { return BadValue; }
      if Sound(codec, file, cookie) { SeekKeeps(codec, file, Abs(), cookie); }
      var ok := SeekCookie(cookie);
      r := if ok then At(cookie) else NotRestored;
    }

    method SeekToEnd()
      requires Valid()
      modifies this
      ensures Valid() && pos == |file| && Unread() == []
    {
      hide Lawful;
      NewInv(codec, file, |file|);
      NewOk(codec);
      AtTheEnd(file, |file|);
      pos, decoded, used, snapshot := |file|, [], 0, None;
      if decoder.Some? { decoder := Some(New(codec)); }
    }

    method SeekCookie(cookie: nat) returns (ok: bool)
      modifies this
      ensures (Abs(), ok) == SeekTo(codec, file, old(Abs()), cookie)
    {
      hide Unpack;
      var k := Unpack(cookie);
      pos, decoded, used, snapshot := k.start, [], 0, None;
      if cookie == 0 && decoder.Some? {
        decoder, snapshot := Some(New(codec)), Some(Snapshot(0, []));
      } else if decoder.Some? || k.flags != 0 || k.skip != 0 {
        decoder, snapshot := Some(Dec([], k.flags)), Some(Snapshot(k.flags, []));
      }
      if k.skip != 0 {
        var chunk := Slice(file, pos, k.feed);
        pos := pos + |chunk|;
        var out := codec.feed(decoder.value, chunk, k.eof);
        decoder, decoded, snapshot := Some(out.0), out.1, Some(Snapshot(k.flags, chunk));
        if |decoded| < k.skip { return false; }
        used := k.skip;
      }
      return true;
    }
  }

  lemma SnapOf(c: Codec, file: File, r: Reader) returns (last: bool)
    requires Inv(c, file, r) && r.decoder.Some? && r.snapshot.Some? && r.used > 0
    ensures SnapHolds(c, file, r, last) && c.ok(Dec([], r.snapshot.value.flags)) && r.used <= |r.decoded|
  {
    last := !SnapHolds(c, file, r, false);
  }

  lemma InvSnapshot(c: Codec, file: File, r: Reader)
    requires Inv(c, file, r) && r.snapshot.Some?
    ensures |r.snapshot.value.input| <= r.pos
  {}

  /** With nothing used, the cookie is the snapshot's position and flags. */
  lemma StartCookie(c: Codec, file: File, r: Reader)
    requires Lawful(c) && Small(c, file) && Inv(c, file, r) && r.decoder.Some? && r.snapshot.Some? && r.used == 0
    ensures |r.snapshot.value.input| <= r.pos
    ensures var n := Pack(Cookie(Base(r), r.snapshot.value.flags, 0, false, 0));
      Sound(c, file, n) && Named(c, file, n) == Some(Rest(c, file, r))
  {
    hide Lawful;
    if AtOrigin(c, r) {
      PackZero(Cookie(0, 0, 0, false, 0));
      hide Pack;
      assert Tail(file, 0) == file;
      assert Rest(c, file, r) == Decoded(c, New(c), file);
    } else {
      var last := !SnapHolds(c, file, r, false);
      AfterStart(c, r.snapshot.value);
      hide After, Pack, Inv;
      CookieNamesRest(c, file, r, last, 0, r.snapshot.value.flags, 0, false);
    }
  }

  lemma TellThenSeek(c: Codec, file: File, r: Reader, cookie: nat)
    requires Lawful(c) && Small(c, file) && Inv(c, file, r)
    requires r.decoder.None? || r.snapshot.None? ==> cookie == r.pos
    requires r.snapshot.Some? || c.init == 0 || r.pos == 0 || r.pos >= |file| ==>
      Named(c, file, cookie) == Some(Rest(c, file, r))
    ensures Sought(c, file, r, cookie) == Some(Rest(c, file, r)) <==>
      Returns(c, file, r)
      || Decoded(c, New(c), Tail(file, r.pos)) == Decoded(c, Dec([], 0), Tail(file, r.pos))
  {
    hide Lawful;
    if r.decoder.None? || r.snapshot.None? {
      PlainCookie(c, file, r);
      hide Unpack, Named;
    }
  }

  lemma StartOfSearch(mode: LineMode, text: Text)
    ensures NoEnd(mode, text, 0)
  {}
}
