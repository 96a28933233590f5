/** A decoder for which a new one is not one with flags zero: it drops one
    leading mark, as the decoders of UTF-16 and of UTF-8 with a signature do.
    `seek(tell())` does not always return to the same text with it. */
module Marked {
  import opened Basics
  import opened Codecs
  import opened Cookies
  import opened TextModel
  import opened TextFiles
  import opened TextLines

  const MARK: Byte := 255

  /** Flags one: nothing has been decoded yet. */
  function Feed(d: Dec, input: seq<Byte>): (Dec, Text) {
    if input == [] then (d, [])
    else if d.flags == 1 && input[0] == MARK then (Dec([], 0), input[1..])
    else (Dec([], 0), input)
  }

  function MarkedCodec(): Codec {
    Codec(1, (d: Dec) => d.buf == [] && d.flags <= 1,
      (d: Dec, input: seq<Byte>, last: bool) => if d.buf == [] && d.flags <= 1 then Feed(d, input) else (d, []), 1)
  }

  lemma FeedSplits(d: Dec, a: seq<Byte>, b: seq<Byte>)
    ensures Feed(d, a + b) == (Feed(Feed(d, a).0, b).0, Feed(d, a).1 + Feed(Feed(d, a).0, b).1)
  {
    if a == [] {
      assert a + b == b;
      Empties(Feed(d, b).1);
    } else {
      assert (a + b)[1..] == a[1..] + b;
    }
  }

  lemma MarkedIsLawful()
    ensures Lawful(MarkedCodec())
  {
    MarkedSplits();
    MarkedStates();
    MarkedRefeeds();
    MarkedBuffers();
    MarkedFlushes();
    hide SplitLaw, StateLaw, RefeedLaw, BufferLaw, FlushLaw, SizeLaw;
  }

  lemma MarkedSplits()
    ensures SplitLaw(MarkedCodec())
  {
    var c := MarkedCodec();
    forall d: Dec, a: seq<Byte>, b: seq<Byte>, last: bool | c.ok(d)
      ensures c.feed(c.feed(d, a, false).0, b, last).0 == c.feed(d, a + b, last).0
      ensures c.feed(d, a + b, last).1 == c.feed(d, a, false).1 + c.feed(c.feed(d, a, false).0, b, last).1
    {
      FeedSplits(d, a, b);
    }
  }

  lemma MarkedStates()
    ensures StateLaw(MarkedCodec())
  {
    assert 1 < W;
  }

  lemma MarkedRefeeds()
    ensures RefeedLaw(MarkedCodec())
  {
    forall d: Dec | MarkedCodec().ok(d) ensures MarkedCodec().feed(Dec([], d.flags), d.buf, false) == (d, []) {
      assert d == Dec([], d.flags);
    }
  }

  lemma MarkedBuffers()
    ensures BufferLaw(MarkedCodec())
  {
    forall d: Dec, a: seq<Byte>, last: bool | MarkedCodec().ok(d)
      ensures MarkedCodec().feed(d, a, last).0.buf == (d.buf + a)[|d.buf + a|..]
    {
      assert Feed(d, a).0.buf == [];
    }
  }

  lemma MarkedFlushes()
    ensures FlushLaw(MarkedCodec()) && SizeLaw(MarkedCodec())
  {}

  /** What the two decoders make of the same bytes. */
  lemma Both()
    ensures var c := MarkedCodec();
      && c.init == 1 && c.expand == 1 && c.ok(Dec([], 0))
      && Decoded(c, New(c), [MARK, 66]) == [66]
      && Decoded(c, Dec([], 0), [MARK, 66]) == [MARK, 66]
  {
    assert [MARK, 66][1..] == [66];
  }

  /** The file the rest is about: a letter, the mark, and a letter. */
  const LETTERS: File := [65, MARK, 66]

  /** One is a cookie that can be restored; a file object without a decoder
      reads on from there with a new one, any other with flags zero. */
  lemma FromOne(c: Codec, r: Reader)
    requires c.ok(Dec([], 0))
    requires Decoded(c, New(c), [MARK, 66]) == [66] && Decoded(c, Dec([], 0), [MARK, 66]) == [MARK, 66]
    ensures Sound(c, LETTERS, 1)
    ensures Sought(c, LETTERS, r, 1) == Some(if r.decoder.None? then [66] else [MARK, 66])
    ensures r.decoder.None? ==> SeekTo(c, LETTERS, r, 1) == (Reader(1, None, [], 0, None), true)
  {
    hide Unpack;
    UnpackPlain(1);
    assert Tail(LETTERS, 1) == [MARK, 66];
  }

  lemma LettersAreSmall()
    ensures var c := MarkedCodec(); Small(c, LETTERS)
  {}

  /** Reading on from byte one gives the last letter. With a `seek(tell())`
      before, which only asks for where it is, it gives the mark too. */
  method SeekMayNotReturn(again: bool, newlines: LineMode, chunks: nat -> nat) returns (text: Text)
    ensures text == if again then [MARK, 66] else [66]
  {
    MarkedIsLawful();
    LettersAreSmall();
    Both();
    hide MarkedCodec, Lawful, Small, Inv, Sound, Named, Sought, SeekTo, Upto;
    var codec := MarkedCodec();
    var f := new TextFile(codec, LETTERS, newlines, chunks, 0);
    FromOne(codec, f.Abs());
    var _ := f.Seek(1, 0);
    UptoFits(f.Unread(), 0);
    var none := f.Read(0);
    assert none == [] && none + f.Unread() == f.Unread();
    if again {
      var position := f.Tell();
      FromOne(codec, f.Abs());
      var _ := f.Seek(position, 0);
    }
    UptoFits(f.Unread(), -1);
    text := f.Read(-1);
  }
}
