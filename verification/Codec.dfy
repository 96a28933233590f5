/** The incremental decoder of a text file (python/turbofile/text.py), taken as
    a deterministic machine, and the laws the file object relies on. */
module Codecs {
  import opened Basics

  /** A code point. */
  type Char = nat

  type Text = seq<Char>

  /** What `getstate` returns: the bytes taken in but not decoded yet, and an
      integer for the rest. */
  datatype Dec = Dec(buf: seq<Byte>, flags: nat)

  /** `init` are the flags of a new decoder, `ok` the states `setstate` may be
      given, `feed` is `decode(input, final)`, and `expand` bounds the
      characters that come out for each byte. */
  datatype Codec = Codec(
    init: nat,
    ok: Dec -> bool,
    feed: (Dec, seq<Byte>, bool) -> (Dec, Text),
    expand: nat
  )

  /** Every field of a cookie has this many values. */
  const W := 0x1_0000_0000_0000_0000

  function New(c: Codec): Dec { Dec([], c.init) }

  /** The text a decoder makes of the rest of the input. */
  function Decoded(c: Codec, d: Dec, input: seq<Byte>): Text { c.feed(d, input, true).1 }

  /** States stay sound; a new decoder is, and so is any sound one (or one with
      flags zero) with its buffer emptied. */
  ghost predicate StateLaw(c: Codec) {
    && c.ok(New(c)) && c.ok(Dec([], 0))
    && (forall d :: c.ok(d) ==> c.ok(Dec([], d.flags)) && d.flags < W)
    && (forall d, a, last :: c.ok(d) ==> c.ok(c.feed(d, a, last).0))
  }

  /** Feeding in pieces is feeding at once. */
  ghost predicate SplitLaw(c: Codec) {
    forall d, a, b, last {:trigger c.feed(c.feed(d, a, false).0, b, last)} :: c.ok(d) ==>
      c.feed(c.feed(d, a, false).0, b, last).0 == c.feed(d, a + b, last).0
      && c.feed(d, a + b, last).1 == c.feed(d, a, false).1 + c.feed(c.feed(d, a, false).0, b, last).1
  }

  /** Feeding the buffer again to the emptied decoder gives the state back. */
  ghost predicate RefeedLaw(c: Codec) {
    forall d :: c.ok(d) ==> c.feed(Dec([], d.flags), d.buf, false) == (d, [])
  }

  /** The buffer holds the last bytes fed, and while all of them are there no
      text has come out. */
  ghost predicate BufferLaw(c: Codec) {
    forall d, a, last :: c.ok(d) ==>
      var out := c.feed(d, a, last);
      && |out.0.buf| <= |d.buf + a|
      && out.0.buf == (d.buf + a)[|d.buf + a| - |out.0.buf|..]
      && (d.buf + a != [] && |out.0.buf| == |d.buf + a| ==> out.1 == [])
  }

  /** The final call leaves nothing for a second one; at the start of the input
      it does nothing. */
  ghost predicate FlushLaw(c: Codec) {
    && (forall d, a :: c.ok(d) ==> c.feed(c.feed(d, a, true).0, [], true) == (c.feed(d, a, true).0, []))
    && c.feed(New(c), [], true) == (New(c), [])
    && c.feed(Dec([], 0), [], true).1 == []
  }

  ghost predicate SizeLaw(c: Codec) {
    forall d, a, last :: c.ok(d) ==> |c.feed(d, a, last).1| <= c.expand * (|d.buf| + |a| + 1)
  }

  ghost predicate Lawful(c: Codec) {
    StateLaw(c) && SplitLaw(c) && RefeedLaw(c) && BufferLaw(c) && FlushLaw(c) && SizeLaw(c)
  }

  lemma Split(c: Codec, d: Dec, a: seq<Byte>, b: seq<Byte>, last: bool)
    requires Lawful(c) && c.ok(d)
    ensures c.feed(d, a + b, last)
      == (c.feed(c.feed(d, a, false).0, b, last).0,
          c.feed(d, a, false).1 + c.feed(c.feed(d, a, false).0, b, last).1)
  {
    hide RefeedLaw, BufferLaw, FlushLaw, SizeLaw, StateLaw;
    assert c.feed(c.feed(d, a, false).0, b, last).0 == c.feed(d, a + b, last).0;
  }

  lemma Oks(c: Codec, d: Dec, a: seq<Byte>, last: bool)
    requires Lawful(c) && c.ok(d)
    ensures c.ok(c.feed(d, a, last).0) && c.ok(Dec([], d.flags)) && d.flags < W
  {
    hide SplitLaw, RefeedLaw, BufferLaw, FlushLaw, SizeLaw;
  }

  lemma NewOk(c: Codec)
    requires Lawful(c)
    ensures c.ok(New(c)) && c.ok(Dec([], 0))
    ensures c.feed(New(c), [], true) == (New(c), []) && Decoded(c, Dec([], 0), []) == []
  {
    hide SplitLaw, RefeedLaw, BufferLaw, SizeLaw;
  }

  lemma Buffered(c: Codec, d: Dec, a: seq<Byte>, last: bool)
    requires Lawful(c) && c.ok(d)
    ensures var out := c.feed(d, a, last);
      && |out.0.buf| <= |d.buf + a|
      && out.0.buf == (d.buf + a)[|d.buf + a| - |out.0.buf|..]
      && (d.buf + a != [] && |out.0.buf| == |d.buf + a| ==> out.1 == [])
  {
    hide SplitLaw, RefeedLaw, StateLaw, FlushLaw, SizeLaw;
  }

  lemma Flushed(c: Codec, d: Dec, a: seq<Byte>)
    requires Lawful(c) && c.ok(d)
    ensures Decoded(c, c.feed(d, a, true).0, []) == []
  {
    hide SplitLaw, RefeedLaw, BufferLaw, StateLaw, SizeLaw;
  }

  lemma Sized(c: Codec, d: Dec, a: seq<Byte>, last: bool)
    requires Lawful(c) && c.ok(d)
    ensures |c.feed(d, a, last).1| <= c.expand * (|d.buf| + |a| + 1)
  {
    hide SplitLaw, RefeedLaw, BufferLaw, FlushLaw, StateLaw;
  }

  /** The text of the whole is the text of the first part and of what follows. */
  lemma DecodedInTwo(c: Codec, d: Dec, a: seq<Byte>, b: seq<Byte>)
    requires Lawful(c) && c.ok(d)
    ensures c.ok(c.feed(d, a, false).0)
    ensures Decoded(c, d, a + b) == c.feed(d, a, false).1 + Decoded(c, c.feed(d, a, false).0, b)
  {
    hide Lawful;
    Oks(c, d, a, false);
    Split(c, d, a, b, true);
  }

  /** Feeding the buffered bytes and then more, from the emptied state, is
      feeding more. */
  lemma FeedAfterBuffer(c: Codec, d: Dec, a: seq<Byte>, last: bool)
    requires Lawful(c) && c.ok(d)
    ensures c.ok(Dec([], d.flags))
    ensures c.feed(Dec([], d.flags), d.buf + a, last) == c.feed(d, a, last)
  {
    Oks(c, d, a, last);
    Refed(c, d);
    hide Lawful;
    Split(c, Dec([], d.flags), d.buf, a, last);
    assert [] + c.feed(d, a, last).1 == c.feed(d, a, last).1;
  }

  lemma Refed(c: Codec, d: Dec)
    requires Lawful(c) && c.ok(d)
    ensures c.feed(Dec([], d.flags), d.buf, false) == (d, [])
  {
    hide SplitLaw, BufferLaw, FlushLaw, StateLaw, SizeLaw;
  }

  lemma FeedNothing(c: Codec, d: Dec)
    requires Lawful(c) && c.ok(d)
    ensures c.feed(d, [], false) == (d, [])
  {
    FeedAfterBuffer(c, d, [], false);
    Refed(c, d);
    assert d.buf + [] == d.buf;
  }
}
