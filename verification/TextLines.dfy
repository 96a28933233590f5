/** Lines of a text, and of a prefix of one (python/turbofile/text.py). */
module TextLines {
  import opened Basics
  import opened Codecs

  const LF: Char := 10
  const CR: Char := 13

  /** The `newline` argument: `None` (the decoder translates every line end),
      the empty string (universal line ends, untranslated), or one fixed line
      end. */
  datatype Newlines = Translated | Universal | Custom(end: Text)

  type LineMode = m: Newlines | m.Custom? ==> m.end != [] witness Translated

  predicate Occurs(part: Text, text: Text, i: nat) {
    i + |part| <= |text| && text[i..i + |part|] == part
  }

  /** How long the line end starting at `i` is; zero when none does. */
  function EndAt(mode: LineMode, text: Text, i: nat): nat
    requires i < |text|
  {
    match mode
    case Translated => if text[i] == LF then 1 else 0
    case Universal =>
      if text[i] == LF then 1
      else if text[i] != CR then 0
      else if i + 1 < |text| && text[i + 1] == LF then 2 else 1
    case Custom(end) => if Occurs(end, text, i) then |end| else 0
  }

  predicate NoEnd(mode: LineMode, text: Text, upTo: nat) {
    forall i :: 0 <= i < upTo && i < |text| ==> EndAt(mode, text, i) == 0
  }

  /** The length of the first line of a text, its line end included. */
  function LineEnd(mode: LineMode, text: Text, from: nat): nat
    decreases |text| - from
  {
    if from >= |text| then |text|
    else if EndAt(mode, text, from) > 0 then from + EndAt(mode, text, from)
    else LineEnd(mode, text, from + 1)
  }

  /** The first line, cut to a limit. */
  function FirstLine(mode: LineMode, text: Text, limit: int): (r: Text)
    ensures r <= text
    ensures text != [] && limit != 0 ==> r != []
  {
    LineEndBounds(mode, text, 0);
    var end := LineEnd(mode, text, 0);
    text[..if 0 <= limit < end then limit else end]
  }

  lemma {:induction false} LineEndBounds(mode: LineMode, text: Text, from: nat)
    ensures LineEnd(mode, text, from) <= |text|
    ensures from < |text| ==> from < LineEnd(mode, text, from)
    decreases |text| - from
  {
    if from < |text| { LineEndBounds(mode, text, from + 1); }
  }

  function Concat(lines: seq<Text>): Text {
    if lines == [] then [] else lines[0] + Concat(lines[1..])
  }

  lemma ConcatCons(line: Text, lines: seq<Text>)
    ensures Concat([line] + lines) == line + Concat(lines)
  {
    assert ([line] + lines)[1..] == lines;
  }

  lemma {:induction false} ConcatSnoc(lines: seq<Text>, line: Text)
    ensures Concat(lines + [line]) == Concat(lines) + line
  {
    if lines == [] {
      ConcatCons(line, []);
      assert [line] + [] == lines + [line];
    } else {
      assert (lines + [line])[1..] == lines[1..] + [line];
      ConcatSnoc(lines[1..], line);
    }
  }

  /** The lines of a text, up to the one with which `hint` characters have been
      handed out; all of them when `hint` is not positive. */
  function LinesOf(mode: LineMode, text: Text, hint: int, total: nat): seq<Text>
    decreases |text|
  {
    if text == [] then []
    else
      var line := FirstLine(mode, text, -1);
      if 0 < hint <= total + |line| then [line]
      else [line] + LinesOf(mode, text[|line|..], hint, total + |line|)
  }

  /** The lines are the text, cut up. */
  lemma {:induction false} LinesAreText(mode: LineMode, text: Text, hint: int, total: nat)
    ensures Concat(LinesOf(mode, text, hint, total)) <= text
    ensures hint <= 0 ==> Concat(LinesOf(mode, text, hint, total)) == text
    decreases |text|
  {
    hide FirstLine;
    if text != [] {
      var line := FirstLine(mode, text, -1);
      assert text == line + text[|line|..];
      if 0 < hint <= total + |line| {
        ConcatSnoc([], line);
      } else {
        LinesAreText(mode, text[|line|..], hint, total + |line|);
        var more := LinesOf(mode, text[|line|..], hint, total + |line|);
        ConcatCons(line, more);
      }
    }
  }

  /** `lines` are the first of the lines asked for, of `total` characters, and
      the others are those of the rest. */
  predicate HandedOut(mode: LineMode, all: Text, lines: seq<Text>, rest: Text, hint: int, total: nat) {
    && all == Concat(lines) + rest && total == |Concat(lines)|
    && lines + LinesOf(mode, rest, hint, total) == LinesOf(mode, all, hint, 0)
  }

  lemma HandedOutBounds(mode: LineMode, all: Text, lines: seq<Text>, rest: Text, hint: int, total: nat)
    requires HandedOut(mode, all, lines, rest, hint, total)
    ensures total == |Concat(lines)| <= |all|
  {}

  lemma NoneHandedOut(mode: LineMode, all: Text, hint: int)
    ensures HandedOut(mode, all, [], all, hint, 0)
  {
    assert [] + all == all && [] + LinesOf(mode, all, hint, 0) == LinesOf(mode, all, hint, 0);
  }

  lemma LinesFrom(mode: LineMode, text: Text, hint: int, total: nat)
    ensures var line := FirstLine(mode, text, -1);
      && |line| <= |text| && (line == [] <==> text == [])
      && LinesOf(mode, text, hint, total) ==
           if text == [] then []
           else if 0 < hint <= total + |line| then [line]
           else [line] + LinesOf(mode, text[|line|..], hint, total + |line|)
  {}

  lemma OneMoreLine(mode: LineMode, all: Text, lines: seq<Text>, text: Text, line: Text, rest: Text, hint: int,
                    total: nat)
    requires HandedOut(mode, all, lines, text, hint, total)
    requires text == line + rest && line == FirstLine(mode, text, -1)
    ensures line == [] || 0 < hint <= total + |line| ==>
      var now := if line == [] then lines else lines + [line];
      now == LinesOf(mode, all, hint, 0) && all == Concat(now) + rest && |Concat(now)| == total + |line|
    ensures line != [] && !(0 < hint <= total + |line|) ==>
      HandedOut(mode, all, lines + [line], rest, hint, total + |line|) && |rest| < |text|
  {
    hide FirstLine, Concat;
    LinesFrom(mode, text, hint, total);
    if line == [] {
      assert lines + [] == lines;
      Empties(text);
    } else {
      hide LinesOf;
      ConcatSnoc(lines, line);
      assert rest == text[|line|..];
      assert Concat(lines) + text == Concat(lines) + line + rest;
      var more := if 0 < hint <= total + |line| then [] else LinesOf(mode, rest, hint, total + |line|);
      assert LinesOf(mode, text, hint, total) == [line] + more;
      assert lines + ([line] + more) == lines + [line] + more;
    }
  }

  lemma {:induction false} EndFound(mode: LineMode, text: Text, p: nat, from: nat)
    requires from <= p < |text| && EndAt(mode, text, p) > 0
    requires forall i :: from <= i < p ==> EndAt(mode, text, i) == 0
    ensures LineEnd(mode, text, from) == p + EndAt(mode, text, p)
    decreases p - from
  {
    if from < p { EndFound(mode, text, p, from + 1); }
  }

  lemma {:induction false} NoneFound(mode: LineMode, text: Text, p: nat, from: nat)
    requires from <= p <= |text|
    requires forall i :: from <= i < p ==> EndAt(mode, text, i) == 0
    ensures LineEnd(mode, text, from) == LineEnd(mode, text, p)
    decreases p - from
  {
    if from < p { NoneFound(mode, text, p, from + 1); }
  }

  // ---------------------------------------------------------------------
  // Searching what has been read so far
  // ---------------------------------------------------------------------

  /** `str.find` */
  function Find(text: Text, part: Text, start: nat): (r: int)
    ensures r == -1 || (start <= r && Occurs(part, text, r))
    ensures forall i :: start <= i <= |text| && (r == -1 || i < r) ==> !Occurs(part, text, i)
    decreases |text| - start
  {
    if start > |text| then -1
    else if Occurs(part, text, start) then start
    else Find(text, part, start + 1)
  }

  /** How far a search has to go back at most: the length of a line end at
      which one can be recognised. */
  function Width(mode: LineMode): (r: nat)
    ensures r >= 1
  {
    if mode.Custom? then |mode.end| else 1
  }

  datatype Search = Found(end: nat) | NotYet(start: nat)

  /** One round of the search in `line`, nothing having been found before
      `start`: the end of the first line, or where to search on from. */
  function SearchLine(mode: LineMode, line: Text, start: nat): Search {
    match mode
    case Translated =>
      var pos := Find(line, [LF], start);
      if pos >= 0 then Found(pos + 1) else NotYet(|line|)
    case Universal =>
      var nlpos := Find(line, [LF], start);
      var crpos := Find(line, [CR], start);
      if crpos == -1 then
        if nlpos == -1 then NotYet(|line|) else Found(nlpos + 1)
      else if nlpos == -1 then
        if crpos == |line| - 1 then NotYet(crpos) else Found(crpos + 1)
      else if nlpos < crpos then Found(nlpos + 1)
      else if nlpos == crpos + 1 then Found(nlpos + 1)
      else Found(crpos + 1)
    case Custom(end) =>
      var pos := Find(line, end, start);
      if pos >= 0 then Found(pos + |end|)
      else NotYet(if |line| + 1 >= |end| then |line| - |end| + 1 else 0)
  }

  lemma OccursOne(ch: Char, text: Text, i: nat)
    ensures Occurs([ch], text, i) <==> i < |text| && text[i] == ch
  {
    if i + 1 <= |text| { assert text[i..i + 1] == [text[i]]; }
  }

  lemma FindOne(text: Text, ch: Char, start: nat)
    ensures var r := Find(text, [ch], start);
      && (r == -1 || (start <= r < |text| && text[r] == ch))
      && forall i :: start <= i < |text| && (r == -1 || i < r) ==> text[i] != ch
  {
    var r := Find(text, [ch], start);
    if r >= 0 { OccursOne(ch, text, r); }
    forall i | start <= i < |text| && (r == -1 || i < r) ensures text[i] != ch { OccursOne(ch, text, i); }
  }

  lemma OccursInPrefix(part: Text, line: Text, text: Text, i: nat)
    requires line <= text && i + |part| <= |line|
    ensures Occurs(part, line, i) <==> Occurs(part, text, i)
  {
    assert line[i..i + |part|] == text[i..i + |part|];
  }

  /** What a round of the search says about the whole text, of which `line` is
      what has been read: where its first line ends, or from where on there may
      be a line end, the first line being no shorter than `line`. */
  predicate TellsOf(mode: LineMode, line: Text, text: Text, start: nat, round: Search) {
    var end := LineEnd(mode, text, 0);
    match round
    case Found(e) => start + Width(mode) <= e <= |line| && end == e
    case NotYet(next) =>
      && next <= |line| <= next + Width(mode)
      && NoEnd(mode, text, next) && end >= |line|
      && (line == text ==> end == |text|)
  }

  /** Searching what has been read finds the end of the first line of the whole
      text, whatever comes after; or shows where the next search may start. */
  lemma SearchIsChunkFree(mode: LineMode, line: Text, text: Text, start: nat)
    requires line <= text && start <= |line| && NoEnd(mode, text, start)
    ensures TellsOf(mode, line, text, start, SearchLine(mode, line, start))
  {
    match mode
    case Translated => SearchTranslated(line, text, start);
    case Universal => SearchUniversal(line, text, start);
    case Custom(end) => SearchCustom(end, line, text, start);
  }

  lemma SearchTranslated(line: Text, text: Text, start: nat)
    requires line <= text && start <= |line| && NoEnd(Translated, text, start)
    ensures TellsOf(Translated, line, text, start, SearchLine(Translated, line, start))
  {
    var mode: LineMode := Translated;
    FindOne(line, LF, start);
    var pos := Find(line, [LF], start);
    if pos >= 0 {
      forall i | 0 <= i < pos ensures EndAt(mode, text, i) == 0 { assert text[i] == line[i]; }
      EndFound(mode, text, pos, 0);
    } else {
      forall i | 0 <= i < |line| ensures EndAt(mode, text, i) == 0 { assert text[i] == line[i]; }
      NoneFound(mode, text, |line|, 0);
      LineEndBounds(mode, text, |line|);
    }
  }

  lemma SearchUniversal(line: Text, text: Text, start: nat)
    requires line <= text && start <= |line| && NoEnd(Universal, text, start)
    ensures TellsOf(Universal, line, text, start, SearchLine(Universal, line, start))
  {
    FindOne(line, LF, start);
    FindOne(line, CR, start);
    var nlpos, crpos := Find(line, [LF], start), Find(line, [CR], start);
    var first := if crpos == -1 then nlpos else if nlpos == -1 || crpos < nlpos then crpos else nlpos;
    if first == -1 {
      forall i | 0 <= i < |line| ensures EndAt(Universal, text, i) == 0 { assert text[i] == line[i]; }
      NoneFound(Universal, text, |line|, 0);
      LineEndBounds(Universal, text, |line|);
    } else {
      forall i | 0 <= i < first ensures EndAt(Universal, text, i) == 0 { assert text[i] == line[i]; }
      assert text[first] == line[first];
      assert first + 1 < |line| ==> text[first + 1] == line[first + 1];
      EndFound(Universal, text, first, 0);
    }
  }

  lemma SearchCustom(end: Text, line: Text, text: Text, start: nat)
    requires end != [] && line <= text && start <= |line| && NoEnd(Custom(end), text, start)
    ensures TellsOf(Custom(end), line, text, start, SearchLine(Custom(end), line, start))
  {
    var mode: LineMode := Custom(end);
    var pos := Find(line, end, start);
    if pos >= 0 {
      OccursInPrefix(end, line, text, pos);
      forall i | 0 <= i < pos ensures EndAt(mode, text, i) == 0 {
        if i >= start { OccursInPrefix(end, line, text, i); }
      }
      EndFound(mode, text, pos, 0);
    } else {
      var next := SearchLine(mode, line, start).start;
      forall i | 0 <= i < next && i < |text| ensures EndAt(mode, text, i) == 0 {
        if i >= start { OccursInPrefix(end, line, text, i); }
      }
      CustomBeyond(end, line, text, next);
    }
  }

  /** With no line end before `next`, the first one ends after `line`. */
  lemma CustomBeyond(end: Text, line: Text, text: Text, next: nat)
    requires end != [] && line <= text && NoEnd(Custom(end), text, next)
    requires next == if |line| + 1 >= |end| then |line| - |end| + 1 else 0
    ensures LineEnd(Custom(end), text, 0) >= |line|
    ensures line == text ==> LineEnd(Custom(end), text, 0) == |text|
  {
    var mode: LineMode := Custom(end);
    NoneFound(mode, text, next, 0);
    CustomFrom(end, text, next);
    LineEndBounds(mode, text, next);
  }

  lemma {:induction false} CustomFrom(end: Text, text: Text, from: nat)
    requires end != []
    ensures LineEnd(Custom(end), text, from) >= from + |end| || LineEnd(Custom(end), text, from) == |text|
    decreases |text| - from
  {
    if from < |text| { CustomFrom(end, text, from + 1); }
  }
}
