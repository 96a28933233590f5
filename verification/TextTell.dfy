/** The search for a position cookie (python/turbofile/text.py, `tell`): any
    clean decoder point it may start from names the same unread text. */
module TextTell {
  import opened Basics
  import opened Codecs
  import opened Cookies
  import opened TextModel

  /** The decoder's state, and its text, after the first `i` bytes of the
      snapshot. */
  function After(c: Codec, snap: Snapshot, i: nat): (Dec, Text)
    requires i <= |snap.input|
  {
    c.feed(Dec([], snap.flags), snap.input[..i], false)
  }

  /** The file position the snapshot starts at. */
  function Base(r: Reader): nat
    requires r.snapshot.Some? && |r.snapshot.value.input| <= r.pos
  {
    r.pos - |r.snapshot.value.input|
  }

  lemma AfterStart(c: Codec, snap: Snapshot)
    requires Lawful(c) && c.ok(Dec([], snap.flags))
    ensures After(c, snap, 0) == (Dec([], snap.flags), [])
  {
    FeedNothing(c, Dec([], snap.flags));
    assert snap.input[..0] == [];
  }

  /** One byte more. */
  lemma AfterNext(c: Codec, snap: Snapshot, i: nat)
    requires Lawful(c) && c.ok(Dec([], snap.flags)) && i < |snap.input|
    ensures var out := c.feed(After(c, snap, i).0, snap.input[i..i + 1], false);
      && c.ok(After(c, snap, i).0)
      && After(c, snap, i + 1) == (out.0, After(c, snap, i).1 + out.1)
  {
    hide Lawful;
    Oks(c, Dec([], snap.flags), snap.input[..i], false);
    Split(c, Dec([], snap.flags), snap.input[..i], snap.input[i..i + 1], false);
    assert snap.input[..i] + snap.input[i..i + 1] == snap.input[..i + 1];
  }

  /** The decoded chunk and the unread text are what the file decodes to from
      the snapshot on. */
  lemma TextFromSnapshot(c: Codec, file: File, r: Reader, last: bool)
    requires Lawful(c) && r.used <= |r.decoded| && r.decoder.Some? && r.snapshot.Some? && SnapHolds(c, file, r, last)
    ensures Tail(file, Base(r)) == r.snapshot.value.input + Tail(file, r.pos)
    ensures Decoded(c, Dec([], r.snapshot.value.flags), Tail(file, Base(r)))
      == r.decoded + Decoded(c, r.decoder.value, Tail(file, r.pos))
  {
    hide Lawful;
    var snap := r.snapshot.value;
    if last {
      assert snap.input + Tail(file, r.pos) == snap.input;
      Flushed(c, Dec([], snap.flags), snap.input);
    } else {
      DecodedInTwo(c, Dec([], snap.flags), snap.input, Tail(file, r.pos));
    }
  }

  /** The same text, from a point inside the snapshot. */
  lemma TextFromPoint(c: Codec, file: File, r: Reader, last: bool, s: nat)
    requires Lawful(c) && r.used <= |r.decoded| && r.decoder.Some? && r.snapshot.Some? && SnapHolds(c, file, r, last)
    requires s <= |r.snapshot.value.input|
    ensures c.ok(After(c, r.snapshot.value, s).0)
    ensures Tail(file, Base(r) + s) == r.snapshot.value.input[s..] + Tail(file, r.pos)
    ensures r.decoded + Decoded(c, r.decoder.value, Tail(file, r.pos))
      == After(c, r.snapshot.value, s).1 + Decoded(c, After(c, r.snapshot.value, s).0, Tail(file, Base(r) + s))
  {
    hide Lawful;
    var snap := r.snapshot.value;
    TextFromSnapshot(c, file, r, last);
    TailFrom(file, Base(r), s, snap.input, Tail(file, r.pos));
    hide Tail, SnapHolds;
    DecodedInTwo(c, Dec([], snap.flags), snap.input[..s], Tail(file, Base(r) + s));
  }

  lemma TailFrom(file: File, base: nat, s: nat, input: seq<Byte>, rest: seq<Byte>)
    requires Tail(file, base) == input + rest && s <= |input|
    ensures Tail(file, base + s) == input[s..] + rest && Tail(file, base) == input[..s] + Tail(file, base + s)
  {
    if base + s < |file| { assert file[base + s..] == file[base..][s..]; }
  }

  /** What `tell` has found when it stops: a clean point `s` bytes into the
      snapshot, and `i` up to which the bytes from there are to be fed. */
  ghost predicate Reached(c: Codec, file: File, r: Reader, last: bool, s: nat, flags: nat, i: nat, eof: bool)
    requires r.decoder.Some? && r.snapshot.Some? && |r.snapshot.value.input| <= r.pos
  {
    var snap := r.snapshot.value;
    && s <= i <= |snap.input|
    && After(c, snap, s).0 == Dec([], flags)
    && |After(c, snap, s).1| <= r.used
    && (s == 0 ==> flags == snap.flags)
    && (r.used == |After(c, snap, s).1| ==> i == s)
    && (eof ==> last && i == |snap.input| && |After(c, snap, s).1| < r.used)
    && (!eof ==> r.used <= |After(c, snap, i).1|)
  }

  function CookieOf(c: Codec, r: Reader, s: nat, flags: nat, i: nat, eof: bool): Cookie
    requires r.snapshot.Some? && s <= i <= |r.snapshot.value.input| <= r.pos
    requires |After(c, r.snapshot.value, s).1| <= r.used
  {
    Cookie(Base(r) + s, flags, i - s, eof, r.used - |After(c, r.snapshot.value, s).1|)
  }

  lemma FitsCookie(c: Codec, file: File, r: Reader, last: bool, s: nat, flags: nat, i: nat, eof: bool)
    requires Lawful(c) && Small(c, file) && Inv(c, file, r) && r.decoder.Some? && r.snapshot.Some?
    requires SnapHolds(c, file, r, last) && Reached(c, file, r, last, s, flags, i, eof)
    ensures Fits(CookieOf(c, r, s, flags, i, eof))
  {
    hide Lawful;
    var snap := r.snapshot.value;
    Oks(c, Dec([], snap.flags), snap.input[..s], false);
    Oks(c, Dec([], flags), [], false);
    DecodedFits(c, file, Dec([], snap.flags), snap.input, last);
  }

  lemma DecodedFits(c: Codec, file: File, d: Dec, input: seq<Byte>, last: bool)
    requires Lawful(c) && Small(c, file) && c.ok(d) && d.buf == [] && |input| <= |file|
    ensures |c.feed(d, input, last).1| < W && |input| < W
  {
    hide Lawful;
    Sized(c, d, input, last);
    Multiples(|input| + 1, |file| + 1, c.expand);
    assert c.expand * (|input| + 1) == (|input| + 1) * c.expand;
    assert c.expand * (|file| + 1) == (|file| + 1) * c.expand;
  }

  /** Feeding the cookie's bytes from its point, and skipping its characters,
      leaves the unread text. */
  lemma FeedingNamesRest(c: Codec, file: File, r: Reader, last: bool, s: nat, flags: nat, i: nat, eof: bool)
    requires Lawful(c) && r.used <= |r.decoded| && r.decoder.Some? && r.snapshot.Some?
    requires SnapHolds(c, file, r, last) && Reached(c, file, r, last, s, flags, i, eof)
    ensures var snap := r.snapshot.value;
      var chunk := Slice(file, Base(r) + s, i - s);
      var out := c.feed(Dec([], flags), chunk, eof);
      var skip := r.used - |After(c, snap, s).1|;
      && |chunk| == i - s && c.ok(Dec([], flags))
      && skip <= |out.1|
      && out.1[skip..] + Decoded(c, out.0, Tail(file, Base(r) + i)) == Rest(c, file, r)
  {
    hide Lawful;
    var snap := r.snapshot.value;
    var d := Dec([], flags);
    var before := After(c, snap, s).1;
    TextFromPoint(c, file, r, last, s);
    var chunk := snap.input[s..i];
    ChunkOfSnapshot(file, Base(r), snap.input, s, i);
    var out := c.feed(d, chunk, eof);
    var rest := Decoded(c, out.0, Tail(file, Base(r) + i));
    hide Tail, Slice;
    if eof {
      assert Tail(file, r.pos) == [] by { AtTheEnd(file, r.pos); }
      Flushed(c, d, chunk);
      assert snap.input[s..] == chunk;
      assert chunk + [] == chunk;
    } else {
      DecodedInTwo(c, d, chunk, Tail(file, Base(r) + i));
      Split(c, Dec([], snap.flags), snap.input[..s], chunk, false);
      assert snap.input[..s] + chunk == snap.input[..i];
      assert After(c, snap, i).1 == before + out.1;
    }
    assert Decoded(c, d, Tail(file, Base(r) + s)) == out.1 + rest;
    Skipping(r.decoded, Decoded(c, r.decoder.value, Tail(file, r.pos)), before, out.1, rest, r.used);
  }

  lemma AtTheEnd(file: File, pos: nat)
    requires pos >= |file|
    ensures Tail(file, pos) == []
  {}

  lemma PartOfPart(file: File, a: nat, b: nat, s: nat, i: nat)
    requires a <= b <= |file| && s <= i <= b - a
    ensures file[a..b][s..i] == file[a + s..a + i]
  {
    var part := file[a..b];
    forall j: nat | j < i - s ensures part[s..i][j] == file[a + s..a + i][j] {
      assert part[s..i][j] == part[s + j] == file[a + s + j];
    }
  }

  lemma PartOfSlice(file: File, base: nat, n: nat, s: nat, i: nat)
    requires n == |Slice(file, base, n)| && s <= i <= n
    ensures Slice(file, base, n)[s..i] == Slice(file, base + s, i - s)
  {
    SliceLength(file, base, n);
    if s < i {
      PartOfPart(file, base, base + n, s, i);
    } else {
      assert Slice(file, base + s, 0) == [];
    }
  }

  lemma ChunkOfSnapshot(file: File, base: nat, input: seq<Byte>, s: nat, i: nat)
    requires input == Slice(file, base, |input|) && s <= i <= |input|
    ensures input[s..i] == Slice(file, base + s, i - s)
    ensures Tail(file, base + s) == input[s..i] + Tail(file, base + i)
  {
    hide Slice, Tail;
    PartOfSlice(file, base, |input|, s, i);
    ChunkAndTail(file, base + s, i - s);
  }

  lemma Skipping(decoded: Text, more: Text, before: Text, out: Text, rest: Text, used: nat)
    requires decoded + more == before + (out + rest) && |before| <= used <= |decoded|
    requires used <= |before| + |out|
    ensures decoded[used..] + more == out[used - |before|..] + rest
  {
    assert (decoded + more)[used..] == decoded[used..] + more;
    assert (before + (out + rest))[used..] == (out + rest)[used - |before|..];
  }

  /** The cookie `tell` returns can be restored, and names the unread text. */
  lemma CookieNamesRest(c: Codec, file: File, r: Reader, last: bool, s: nat, flags: nat, i: nat, eof: bool)
    requires Lawful(c) && Small(c, file) && Inv(c, file, r) && r.decoder.Some? && r.snapshot.Some?
    requires SnapHolds(c, file, r, last) && Reached(c, file, r, last, s, flags, i, eof)
    ensures var n := Pack(CookieOf(c, r, s, flags, i, eof));
      Sound(c, file, n) && Named(c, file, n) == Some(Rest(c, file, r)) && Unpack(n) == CookieOf(c, r, s, flags, i, eof)
  {
    hide Lawful, Pack, Unpack, Small, Rest, After, Slice, Tail;
    assert r.used <= |r.decoded| && s <= i <= |r.snapshot.value.input| <= r.pos;
    assert |After(c, r.snapshot.value, s).1| <= r.used;
    hide Inv, Reached, SnapHolds, Fits;
    var k := CookieOf(c, r, s, flags, i, eof);
    FitsCookie(c, file, r, last, s, flags, i, eof);
    PackRoundTrips(k);
    PackZero(k);
    FeedingNamesRest(c, file, r, last, s, flags, i, eof);
    CookieIsSafe(c, file, r, last, s, flags, i, eof);
    NamedBy(c, file, Pack(k), k, Rest(c, file, r));
  }

  lemma CookieIsSafe(c: Codec, file: File, r: Reader, last: bool, s: nat, flags: nat, i: nat, eof: bool)
    requires Lawful(c) && Inv(c, file, r) && r.decoder.Some? && r.snapshot.Some?
    requires SnapHolds(c, file, r, last) && Reached(c, file, r, last, s, flags, i, eof)
    ensures var k := CookieOf(c, r, s, flags, i, eof);
      && (k.start == 0 ==> FromStart(c, file, k.flags))
      && (k.eof ==> k.skip > 0 && k.start + k.feed >= |file|)
      && (k.skip == 0 ==> k.feed == 0)
      && k.start + k.feed == Base(r) + i && k.skip == r.used - |After(c, r.snapshot.value, s).1|
  {
    hide Lawful;
  }

  lemma NamedBy(c: Codec, file: File, n: nat, k: Cookie, rest: Text)
    requires Lawful(c) && Unpack(n) == k && (n == 0 <==> k == Cookie(0, 0, 0, false, 0))
    requires c.ok(Dec([], k.flags)) && (k.start == 0 ==> FromStart(c, file, k.flags))
    requires k.eof ==> k.skip > 0 && k.start + k.feed >= |file|
    requires k.skip == 0 ==> k.feed == 0
    requires var chunk := Slice(file, k.start, k.feed);
      var out := c.feed(Dec([], k.flags), chunk, k.eof);
      k.skip <= |out.1| && |chunk| == k.feed
        && out.1[k.skip..] + Decoded(c, out.0, Tail(file, k.start + k.feed)) == rest
    ensures Sound(c, file, n) && Named(c, file, n) == Some(rest)
  {
    hide Lawful, Unpack;
    if k.skip == 0 {
      assert Slice(file, k.start, 0) == [];
      FeedNothing(c, Dec([], k.flags));
      assert Tail(file, 0) == file;
      assert [][0..] + Decoded(c, Dec([], k.flags), Tail(file, k.start)) ==
        Decoded(c, Dec([], k.flags), Tail(file, k.start));
    }
  }
}
