/** A decoder that meets the laws: UTF-8 (sections 3 and 4 of RFC 3629) with
    malformed input replaced, followed by the stage that holds a carriage
    return back until it has seen the next character. */
module Utf8 {
  import opened Basics
  import opened Codecs
  import opened TextLines

  /** What the second stage does with line ends: nothing at all, turn each into
      one line feed, or only keep a carriage return together with what follows. */
  datatype Stage = Plain | Translating | Keeping

  const REPLACEMENT: Char := 0xFFFD

  // ---------------------------------------------------------------------
  // Bytes to characters
  // ---------------------------------------------------------------------

  /** The length of the sequence a lead byte starts; zero for a byte that
      starts none. */
  function Length(lead: Byte): nat {
    if lead < 0x80 then 1
    else if lead < 0xC2 then 0
    else if lead < 0xE0 then 2
    else if lead < 0xF0 then 3
    else if lead < 0xF5 then 4
    else 0
  }

  predicate Follows(b: Byte) { 0x80 <= b < 0xC0 }

  /** The second byte is narrowed where it could make an overlong form, a
      surrogate, or more than U+10FFFF. */
  predicate SecondOk(lead: Byte, b: Byte) {
    if lead == 0xE0 then 0xA0 <= b < 0xC0
    else if lead == 0xED then 0x80 <= b < 0xA0
    else if lead == 0xF0 then 0x90 <= b < 0xC0
    else if lead == 0xF4 then 0x80 <= b < 0x90
    else Follows(b)
  }

  /** A beginning of a well-formed sequence, not the whole of it. */
  predicate Partial(buf: seq<Byte>) {
    buf == [] ||
    (|buf| < Length(buf[0]) && (|buf| >= 2 ==> SecondOk(buf[0], buf[1])) && (|buf| >= 3 ==> Follows(buf[2])))
  }

  predicate Extends(buf: seq<Byte>, b: Byte)
    requires buf != []
  {
    if |buf| == 1 then SecondOk(buf[0], b) else Follows(b)
  }

  /** A lead byte without its marker bits, and the six bits of another byte. */
  function Marker(n: nat): nat { if n == 2 then 0xC0 else if n == 3 then 0xE0 else 0xF0 }

  predicate Whole(s: seq<Byte>) {
    && 2 <= |s| <= 4 && s[0] >= Marker(|s|)
    && s[1] >= 0x80 && (|s| >= 3 ==> s[2] >= 0x80) && (|s| == 4 ==> s[3] >= 0x80)
  }

  function CodePoint(s: seq<Byte>): Char
    requires Whole(s)
  {
    var lead: nat, second: nat := s[0] - Marker(|s|), s[1] - 0x80;
    if |s| == 2 then lead * 64 + second
    else
      var third: nat := s[2] - 0x80;
      if |s| == 3 then lead * 4096 + second * 64 + third
      else lead * 262144 + second * 4096 + third * 64 + (s[3] - 0x80)
  }

  function Begin(b: Byte): (seq<Byte>, Text) {
    if Length(b) == 1 then ([], [b])
    else if Length(b) == 0 then ([], [REPLACEMENT])
    else ([b], [])
  }

  /** One byte: the buffer and the characters that come out. A byte that does
      not continue the buffered ones replaces them and is looked at afresh. */
  function Take(buf: seq<Byte>, b: Byte): (r: (seq<Byte>, Text))
    requires Partial(buf)
    ensures Partial(r.0) && (r.0 == [] || r.0 == [b] || (r.0 == buf + [b] && r.1 == []))
    ensures |r.1| + |r.0| <= |buf| + 1
  {
    if buf == [] then Begin(b)
    else if !Extends(buf, b) then (Begin(b).0, [REPLACEMENT] + Begin(b).1)
    else if |buf| + 1 == Length(buf[0]) then ([], [CodePoint(buf + [b])])
    else (buf + [b], [])
  }

  // ---------------------------------------------------------------------
  // Line ends
  // ---------------------------------------------------------------------

  function Returned(stage: Stage): Text { if stage == Translating then [LF] else [CR] }

  /** One character, given whether a carriage return is held back. */
  function Pass(stage: Stage, held: nat, ch: Char): (r: (nat, Text))
    requires held <= 1 && (stage == Plain ==> held == 0)
    ensures r.0 <= 1 && (stage == Plain ==> r.0 == 0)
    ensures |r.1| + r.0 == held + 1 || (stage == Translating && held == 1 && ch == LF && |r.1| + r.0 == 1)
  {
    if stage == Plain then (0, [ch])
    else if held == 0 then (if ch == CR then (1, []) else (0, [ch]))
    else if ch == LF then (0, if stage == Translating then [LF] else [CR, LF])
    else if ch == CR then (1, Returned(stage))
    else (0, Returned(stage) + [ch])
  }

  function PassAll(stage: Stage, held: nat, text: Text): (r: (nat, Text))
    requires held <= 1 && (stage == Plain ==> held == 0)
    ensures r.0 <= 1 && (stage == Plain ==> r.0 == 0)
    ensures |r.1| + r.0 <= held + |text|
    decreases |text|
  {
    if text == [] then (held, [])
    else
      var one := Pass(stage, held, text[0]);
      var rest := PassAll(stage, one.0, text[1..]);
      (rest.0, one.1 + rest.1)
  }

  lemma {:induction false} PassAppend(stage: Stage, held: nat, a: Text, b: Text)
    requires held <= 1 && (stage == Plain ==> held == 0)
    ensures PassAll(stage, held, a + b)
      == (PassAll(stage, PassAll(stage, held, a).0, b).0,
          PassAll(stage, held, a).1 + PassAll(stage, PassAll(stage, held, a).0, b).1)
    decreases |a|
  {
    if a == [] {
      assert a + b == b;
      Empties(PassAll(stage, held, b).1);
    } else {
      assert (a + b)[1..] == a[1..] + b;
      var one := Pass(stage, held, a[0]);
      PassAppend(stage, one.0, a[1..], b);
      var more := PassAll(stage, one.0, a[1..]);
      Regroup(one.1, more.1, PassAll(stage, more.0, b).1);
    }
  }

  lemma Regroup(a: Text, b: Text, c: Text)
    ensures a + (b + c) == (a + b) + c
  {}

  // ---------------------------------------------------------------------
  // The decoder
  // ---------------------------------------------------------------------

  predicate Ok(stage: Stage, d: Dec) {
    Partial(d.buf) && d.flags <= 1 && (stage == Plain ==> d.flags == 0)
  }

  function Step(stage: Stage, d: Dec, b: Byte): (r: (Dec, Text))
    requires Ok(stage, d)
    ensures Ok(stage, r.0)
    ensures |r.1| + |r.0.buf| + r.0.flags <= |d.buf| + d.flags + 1
  {
    var (buf, text) := Take(d.buf, b);
    var (held, out) := PassAll(stage, d.flags, text);
    (Dec(buf, held), out)
  }

  function Steps(stage: Stage, d: Dec, input: seq<Byte>): (r: (Dec, Text))
    requires Ok(stage, d)
    ensures Ok(stage, r.0)
    ensures |r.1| + |r.0.buf| + r.0.flags <= |d.buf| + d.flags + |input|
    decreases |input|
  {
    if input == [] then (d, [])
    else
      var one := Step(stage, d, input[0]);
      var rest := Steps(stage, one.0, input[1..]);
      (rest.0, one.1 + rest.1)
  }

  /** What the final call adds: a replacement for an unfinished sequence, and a
      held carriage return. */
  function Flush(stage: Stage, d: Dec): Text
    requires Ok(stage, d)
  {
    var (held, out) := PassAll(stage, d.flags, if d.buf == [] then [] else [REPLACEMENT]);
    out + if held == 1 then Returned(stage) else []
  }

  function Feed(stage: Stage, d: Dec, input: seq<Byte>, last: bool): (Dec, Text) {
    if !Ok(stage, d) then (d, [])
    else
      var (after, text) := Steps(stage, d, input);
      if last then (Dec([], 0), text + Flush(stage, after)) else (after, text)
  }

  function Utf8Codec(stage: Stage): Codec {
    Codec(0, (d: Dec) => Ok(stage, d), (d: Dec, input: seq<Byte>, last: bool) => Feed(stage, d, input, last), 1)
  }

  lemma {:induction false} StepsAppend(stage: Stage, d: Dec, a: seq<Byte>, b: seq<Byte>)
    requires Ok(stage, d)
    ensures Steps(stage, d, a + b)
      == (Steps(stage, Steps(stage, d, a).0, b).0, Steps(stage, d, a).1 + Steps(stage, Steps(stage, d, a).0, b).1)
    decreases |a|
  {
    if a == [] {
      assert a + b == b;
      Empties(Steps(stage, d, b).1);
    } else {
      assert (a + b)[1..] == a[1..] + b;
      var one := Step(stage, d, a[0]);
      StepsAppend(stage, one.0, a[1..], b);
      var more := Steps(stage, one.0, a[1..]);
      Regroup(one.1, more.1, Steps(stage, more.0, b).1);
    }
  }

  lemma Steps1(stage: Stage, d: Dec, b: Byte)
    requires Ok(stage, d)
    ensures Steps(stage, d, [b]) == Step(stage, d, b)
  {
    hide Step;
    var input := [b];
    assert input[1..] == [];
    Empties(Step(stage, d, b).1);
  }

  /** A partial sequence goes into the buffer byte by byte. */
  lemma {:induction false} PartialIsKept(stage: Stage, flags: nat, buf: seq<Byte>)
    requires Ok(stage, Dec(buf, flags))
    ensures Steps(stage, Dec([], flags), buf) == (Dec(buf, flags), [])
    decreases |buf|
  {
    if buf != [] {
      var n := |buf| - 1;
      assert Partial(buf[..n]);
      PartialIsKept(stage, flags, buf[..n]);
      assert buf == buf[..n] + [buf[n]];
      StepsAppend(stage, Dec([], flags), buf[..n], [buf[n]]);
      Steps1(stage, Dec(buf[..n], flags), buf[n]);
    }
  }

  predicate Suffix(part: seq<Byte>, all: seq<Byte>) {
    |part| <= |all| && part == all[|all| - |part|..]
  }

  /** The buffer is the last bytes fed, and while all are buffered nothing comes
      out. */
  lemma {:induction false} BufferIsSuffix(stage: Stage, d: Dec, input: seq<Byte>)
    requires Ok(stage, d)
    ensures var out := Steps(stage, d, input);
      && Suffix(out.0.buf, d.buf + input)
      && (|out.0.buf| == |d.buf + input| ==> out.1 == [])
    decreases |input|
  {
    if input != [] {
      var one := Step(stage, d, input[0]);
      var rest := Steps(stage, one.0, input[1..]);
      BufferIsSuffix(stage, one.0, input[1..]);
      StepBuffer(stage, d, input[0]);
      hide Step, Ok, Suffix;
      AfterOne(d.buf, input, one.0.buf);
      SuffixOfSuffix(d.buf + input, one.0.buf + input[1..], rest.0.buf);
    } else {
      assert d.buf + input == d.buf;
    }
  }

  /** A byte goes into the buffer, starts a new one, or leaves none. */
  predicate Takes(buf: seq<Byte>, b: Byte, one: seq<Byte>) { one == [] || one == [b] || one == buf + [b] }

  lemma StepBuffer(stage: Stage, d: Dec, b: Byte)
    requires Ok(stage, d)
    ensures var out := Step(stage, d, b);
      && Takes(d.buf, b, out.0.buf)
      && (|out.0.buf| == |d.buf| + 1 ==> out.1 == [])
  {}

  lemma AfterOne(buf: seq<Byte>, input: seq<Byte>, one: seq<Byte>)
    requires input != [] && Takes(buf, input[0], one)
    ensures Suffix(one + input[1..], buf + input)
    ensures |one + input[1..]| == |buf + input| ==> |one| == |buf| + 1
  {
    var all, rest := buf + input, input[1..];
    assert input == [input[0]] + rest;
    if one == [] {
      assert one + rest == rest == all[|buf| + 1..];
    } else if one == [input[0]] {
      assert one + rest == input == all[|buf|..];
    } else {
      assert one + rest == all == all[0..];
    }
  }

  lemma SuffixOfSuffix(all: seq<Byte>, part: seq<Byte>, last: seq<Byte>)
    requires Suffix(part, all) && Suffix(last, part)
    ensures Suffix(last, all) && (|last| == |all| ==> |part| == |all|)
  {}

  lemma Utf8Splits(stage: Stage)
    ensures SplitLaw(Utf8Codec(stage))
  {
    var c := Utf8Codec(stage);
    forall d: Dec, a: seq<Byte>, b: seq<Byte>, last: bool | c.ok(d)
      ensures c.feed(c.feed(d, a, false).0, b, last).0 == c.feed(d, a + b, last).0
      ensures c.feed(d, a + b, last).1 == c.feed(d, a, false).1 + c.feed(c.feed(d, a, false).0, b, last).1
    {
      FeedSplits(stage, d, a, b, last);
    }
  }

  lemma FeedSplits(stage: Stage, d: Dec, a: seq<Byte>, b: seq<Byte>, last: bool)
    requires Ok(stage, d)
    ensures var first := Feed(stage, d, a, false);
      var second := Feed(stage, first.0, b, last);
      Feed(stage, d, a + b, last) == (second.0, first.1 + second.1)
  {
    hide Ok, Flush, Steps;
    StepsAppend(stage, d, a, b);
    var first := Steps(stage, d, a);
    var second := Steps(stage, first.0, b);
    Regroup(first.1, second.1, Flush(stage, second.0));
  }

  lemma FeedBuffers(stage: Stage, d: Dec, a: seq<Byte>, last: bool)
    requires Ok(stage, d)
    ensures var out := Feed(stage, d, a, last);
      && |out.0.buf| <= |d.buf + a|
      && out.0.buf == (d.buf + a)[|d.buf + a| - |out.0.buf|..]
      && (d.buf + a != [] && |out.0.buf| == |d.buf + a| ==> out.1 == [])
  {
    hide Ok, Steps, Flush;
    BufferIsSuffix(stage, d, a);
    if last { assert [] == (d.buf + a)[|d.buf + a|..]; }
  }

  lemma Utf8Refeeds(stage: Stage)
    ensures RefeedLaw(Utf8Codec(stage))
  {
    var c := Utf8Codec(stage);
    forall d | c.ok(d)
      ensures c.feed(Dec([], d.flags), d.buf, false) == (d, [])
    {
      PartialIsKept(stage, d.flags, d.buf);
    }
  }

  lemma Utf8Buffers(stage: Stage)
    ensures BufferLaw(Utf8Codec(stage))
  {
    var c := Utf8Codec(stage);
    forall d: Dec, a: seq<Byte>, last: bool | c.ok(d)
      ensures var out := c.feed(d, a, last);
        && |out.0.buf| <= |d.buf + a|
        && out.0.buf == (d.buf + a)[|d.buf + a| - |out.0.buf|..]
        && (d.buf + a != [] && |out.0.buf| == |d.buf + a| ==> out.1 == [])
    {
      FeedBuffers(stage, d, a, last);
    }
  }

  lemma Utf8IsLawful(stage: Stage)
    ensures Lawful(Utf8Codec(stage))
  {
    Utf8Splits(stage);
    Utf8Refeeds(stage);
    Utf8Buffers(stage);
    Utf8States(stage);
    Utf8Flushes(stage);
    Utf8Sizes(stage);
    hide SplitLaw, StateLaw, RefeedLaw, BufferLaw, FlushLaw, SizeLaw, Utf8Codec;
  }

  lemma FlushIsShort(stage: Stage, d: Dec)
    requires Ok(stage, d)
    ensures |Flush(stage, d)| <= |d.buf| + d.flags
  {}

  lemma Utf8States(stage: Stage)
    ensures StateLaw(Utf8Codec(stage))
  {
    hide Partial, Steps, Flush;
    assert Partial([]) by { EmptyIsPartial(); }
  }

  lemma EmptyIsPartial()
    ensures Partial([])
  {}

  lemma Utf8Flushes(stage: Stage)
    ensures FlushLaw(Utf8Codec(stage))
  {
    EmptyIsPartial();
    FlushIsShort(stage, Dec([], 0));
    hide Flush, Partial;
  }

  lemma Utf8Sizes(stage: Stage)
    ensures SizeLaw(Utf8Codec(stage))
  {
    var c := Utf8Codec(stage);
    hide Flush, Partial;
    forall d: Dec, a: seq<Byte>, last: bool | c.ok(d) ensures |c.feed(d, a, last).1| <= 1 * (|d.buf| + |a| + 1) {
      FlushIsShort(stage, Steps(stage, d, a).0);
    }
  }

  // ---------------------------------------------------------------------
  // Decoding what was encoded
  // ---------------------------------------------------------------------

  predicate Scalar(ch: Char) { ch < 0xD800 || 0xE000 <= ch < 0x110000 }

  function Encode(ch: Char): seq<Byte>
    requires Scalar(ch)
  {
    if ch < 0x80 then [ch]
    else if ch < 0x800 then [0xC0 + ch / 64, 0x80 + ch % 64]
    else if ch < 0x10000 then [0xE0 + ch / 4096, 0x80 + ch / 64 % 64, 0x80 + ch % 64]
    else [0xF0 + ch / 262144, 0x80 + ch / 4096 % 64, 0x80 + ch / 64 % 64, 0x80 + ch % 64]
  }

  function EncodeAll(text: Text): seq<Byte>
    requires forall i :: 0 <= i < |text| ==> Scalar(text[i])
  {
    if text == [] then [] else Encode(text[0]) + EncodeAll(text[1..])
  }

  /** The text with each line end turned into one line feed. */
  function Unified(text: Text): Text {
    if text == [] then []
    else if text[0] != CR then [text[0]] + Unified(text[1..])
    else if |text| > 1 && text[1] == LF then [LF] + Unified(text[2..])
    else [LF] + Unified(text[1..])
  }

  /** What reading a text is to give. */
  function Reference(stage: Stage, text: Text): Text {
    if stage == Translating then Unified(text) else text
  }

  lemma OneChar(stage: Stage, flags: nat, ch: Char)
    requires Scalar(ch) && Ok(stage, Dec([], flags))
    ensures Steps(stage, Dec([], flags), Encode(ch))
      == (Dec([], Pass(stage, flags, ch).0), Pass(stage, flags, ch).1)
  {
    LeadBytes(ch);
    hide Encode, CodePoint, Pass;
    var s := Encode(ch);
    var n := |s| - 1;
    var head, b := s[..n], s[n];
    assert s == head + [b];
    PartialIsKept(stage, flags, head);
    StepsAppend(stage, Dec([], flags), head, [b]);
    Steps1(stage, Dec(head, flags), b);
    assert Take(head, b) == ([], [ch]);
    PassOnly(stage, flags, ch);
    Empties(Pass(stage, flags, ch).1);
  }

  lemma PassOnly(stage: Stage, held: nat, ch: Char)
    requires held <= 1 && (stage == Plain ==> held == 0)
    ensures PassAll(stage, held, [ch]) == Pass(stage, held, ch)
  {
    var text := [ch];
    assert text[1..] == [];
    Empties(Pass(stage, held, ch).1);
  }

  /** An encoded character is a partial sequence and the byte that ends it. */
  lemma LeadBytes(ch: Char)
    requires Scalar(ch)
    ensures var s := Encode(ch); var n := |s| - 1;
      && n >= 0 && Length(s[0]) == |s| && Partial(s[..n])
      && (n > 0 ==> Extends(s[..n], s[n]) && Whole(s) && CodePoint(s) == ch)
      && (n == 0 ==> s[0] == ch)
  {
    if 0x80 <= ch < 0x800 {
      Lead2(ch);
    } else if 0x800 <= ch < 0x10000 {
      Lead3(ch);
    } else if ch >= 0x10000 {
      Lead4(ch);
    }
  }

  lemma Lead2(ch: Char)
    requires 0x80 <= ch < 0x800
    ensures var s := Encode(ch);
      Length(s[0]) == 2 && Partial(s[..1]) && Extends(s[..1], s[1]) && Whole(s) && CodePoint(s) == ch
  {
    assert ch == ch / 64 * 64 + ch % 64;
  }

  lemma Lead3(ch: Char)
    requires 0x800 <= ch < 0x10000 && Scalar(ch)
    ensures var s := Encode(ch);
      Length(s[0]) == 3 && Partial(s[..2]) && Extends(s[..2], s[2]) && Whole(s) && CodePoint(s) == ch
  {
    var rest := ch / 64;
    assert ch == rest * 64 + ch % 64 && rest == rest / 64 * 64 + rest % 64;
    assert ch / 4096 == rest / 64;
  }

  lemma Lead4(ch: Char)
    requires 0x10000 <= ch < 0x110000
    ensures var s := Encode(ch);
      Length(s[0]) == 4 && Partial(s[..3]) && Extends(s[..3], s[3]) && Whole(s) && CodePoint(s) == ch
  {
    var rest := ch / 64;
    var high := rest / 64;
    assert ch == rest * 64 + ch % 64 && rest == high * 64 + rest % 64 && high == high / 64 * 64 + high % 64;
    assert ch / 4096 == high && ch / 262144 == high / 64;
  }

  lemma {:induction false} DecodesText(stage: Stage, flags: nat, text: Text)
    requires Ok(stage, Dec([], flags)) && forall i :: 0 <= i < |text| ==> Scalar(text[i])
    ensures Steps(stage, Dec([], flags), EncodeAll(text))
      == (Dec([], PassAll(stage, flags, text).0), PassAll(stage, flags, text).1)
    decreases |text|
  {
    if text != [] {
      OneChar(stage, flags, text[0]);
      StepsAppend(stage, Dec([], flags), Encode(text[0]), EncodeAll(text[1..]));
      DecodesText(stage, Pass(stage, flags, text[0]).0, text[1..]);
    }
  }

  function Held(held: nat): Text { if held == 1 then [CR] else [] }

  function Finish(stage: Stage, held: nat): Text { if held == 1 then Returned(stage) else [] }

  /** The second stage, flushed at the end, against the whole text: a held
      carriage return is as if it were still to come. */
  lemma {:induction false} PassIsReference(stage: Stage, held: nat, text: Text)
    requires held <= 1 && (stage == Plain ==> held == 0)
    ensures PassAll(stage, held, text).1 + Finish(stage, PassAll(stage, held, text).0) ==
      Reference(stage, Held(held) + text)
    decreases |text|
  {
    if text == [] {
      Empties(Held(held));
      Empties(Finish(stage, held));
      HeldAlone(stage, held);
    } else {
      var one := Pass(stage, held, text[0]);
      PassIsReference(stage, one.0, text[1..]);
      PassOne(stage, held, text);
      var rest := PassAll(stage, one.0, text[1..]);
      Regroup(one.1, rest.1, Finish(stage, rest.0));
    }
  }

  lemma HeldAlone(stage: Stage, held: nat)
    requires held <= 1 && (stage == Plain ==> held == 0)
    ensures Reference(stage, Held(held)) == Finish(stage, held)
  {
    var alone: Text := [CR];
    assert alone[1..] == [] && Unified([]) == [];
    Empties<Char>([LF]);
  }

  lemma PassOne(stage: Stage, held: nat, text: Text)
    requires held <= 1 && (stage == Plain ==> held == 0) && text != []
    ensures var one := Pass(stage, held, text[0]);
      Reference(stage, Held(held) + text) == one.1 + Reference(stage, Held(one.0) + text[1..])
  {
    var ch, rest := text[0], text[1..];
    var whole := Held(held) + text;
    assert text == [ch] + rest;
    Empties(text);
    Empties(rest);
    Empties(Reference(stage, text));
    if held == 1 && stage == Translating {
      assert whole[0] == CR && whole[1] == ch && whole[1..] == text && whole[2..] == rest;
      assert whole == [CR] + [ch] + rest;
      if ch != CR { assert Unified(text) == [ch] + Unified(rest); }
      Regroup(Returned(stage), [ch], Reference(stage, rest));
    }
  }

  /** Decoding an encoded text gives the text, its line ends as the second
      stage is to give them. */
  lemma DecodingEncoded(stage: Stage, text: Text)
    requires forall i :: 0 <= i < |text| ==> Scalar(text[i])
    ensures Decoded(Utf8Codec(stage), New(Utf8Codec(stage)), EncodeAll(text)) == Reference(stage, text)
  {
    DecodesText(stage, 0, text);
    PassIsReference(stage, 0, text);
    hide PassAll;
    Empties(text);
    var held := PassAll(stage, 0, text).0;
    FlushHeld(stage, held);
    assert Feed(stage, Dec([], 0), EncodeAll(text), true).1 == PassAll(stage, 0, text).1 + Finish(stage, held);
  }

  lemma FlushHeld(stage: Stage, held: nat)
    requires Ok(stage, Dec([], held))
    ensures Flush(stage, Dec([], held)) == Finish(stage, held)
  {
    Empties(Finish(stage, held));
  }
}
