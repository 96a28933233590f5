/** The macOS page-cache fast path (crates/turbofile-py/src/fast_path/darwin.rs
    and mod.rs): a read is served inline only when `mincore` says that every
    page it touches is resident. */
module Residency {
  import opened Basics
  import Transfer

  const HEADROOM := 0x10_0000

  /** The flags one `mincore` call has room for. */
  const FLAGS_PER_CALL := 256

  const U64_MAX := 0xFFFF_FFFF_FFFF_FFFF

  const OFF_MAX := 0x7FFF_FFFF_FFFF_FFFF

  function CheckedAdd(a: nat, b: nat): Option<nat> {
    if a + b <= U64_MAX then Some(a + b) else None
  }

  function RoundUp(n: nat, page: nat): nat
    requires page >= 1
  {
    (n + page - 1) / page * page
  }

  /** How long a mapping is made for a file of `size` bytes. */
  function ViewLen(size: nat, page: nat): Option<nat>
    requires page >= 1
  {
    match CheckedAdd(size, page - 1)
    case None => None
    case Some(sum) => CheckedAdd(sum / page * page, HEADROOM)
  }

  lemma DivBounds(n: nat, page: nat)
    requires page >= 1
    ensures n / page * page <= n < n / page * page + page
  {
    assert n == n / page * page + n % page;
  }

  lemma RoundUpBounds(n: nat, page: nat)
    requires page >= 1
    ensures n <= RoundUp(n, page) < n + page
  {
    DivBounds(n + page - 1, page);
  }

  /** No whole page lies between a number and its round-up. */
  lemma RoundUpLeast(n: nat, page: nat, k: nat)
    requires page >= 1 && n <= k * page
    ensures RoundUp(n, page) <= k * page
  {
    var up := (n + page - 1) / page;
    DivBounds(n + page - 1, page);
    Multiples(k, up, page);
  }

  lemma DivExact(q: nat, page: nat)
    requires page >= 1
    ensures q * page / page == q
  {
    DivBounds(q * page, page);
    Multiples(q, q * page / page, page);
    Multiples(q * page / page, q, page);
  }

  /** A mapping holds the whole file with the headroom to grow into, and is a
      whole number of pages. */
  lemma ViewHoldsFile(size: nat, page: nat)
    requires page >= 1 && HEADROOM % page == 0
    ensures ViewLen(size, page).Some? ==>
      var len := ViewLen(size, page).value;
      size + HEADROOM <= len <= U64_MAX && len < size + page + HEADROOM && len == len / page * page
    ensures ViewLen(size, page).None? ==> size + page + HEADROOM > U64_MAX
  {
    RoundUpBounds(size, page);
    var up := (size + page - 1) / page;
    var head := HEADROOM / page;
    assert head * page == HEADROOM;
    assert (up + head) * page == up * page + head * page;
    DivExact(up + head, page);
  }

  /** What `mincore` and `pread` answer, and the file, at each moment. */
  datatype World = World(
    versions: Transfer.Versions,
    regular: bool,
    maps: nat -> bool,
    examined: nat -> bool,
    incore: (nat, nat) -> bool,
    interrupted: nat -> bool,
    refused: nat -> bool,
    counts: nat -> nat
  )

  /** From `quiet` on no call is interrupted by a signal. */
  ghost predicate QuietFrom(world: World, quiet: nat) {
    forall t: nat :: t >= quiet ==> !world.interrupted(t)
  }

  /** The page holds none of the data there is: it starts at or past the end. */
  predicate Beyond(eof: Option<nat>, page: nat, k: nat) {
    eof.Some? && eof.value <= k * page
  }

  /** Every page of the range is resident or holds no data. */
  ghost predicate AllResident(page: nat, pos: nat, len: nat, seen: set<nat>, eof: Option<nat>) {
    forall k: nat :: k * page < pos + len && pos < k * page + page ==> k in seen || Beyond(eof, page, k)
  }

  /** `mincore` has reported each of the pages resident, at some moment of a
      stretch of time. */
  ghost predicate Reported(world: World, seen: set<nat>, from: nat, to: nat) {
    forall k :: k in seen ==> ReportedPage(world, k, from, to)
  }

  ghost predicate ReportedPage(world: World, k: nat, from: nat, to: nat) {
    exists t: nat :: from <= t < to && world.examined(t) && world.incore(t, k)
  }

  /** A size that `fstat` gave in that time, if it was asked. */
  ghost predicate SizeSeen(world: World, eof: Option<nat>, from: nat, to: nat) {
    eof.Some? ==> world.regular && exists t: nat :: from <= t < to && eof.value == |world.versions(t)|
  }

  /** In that time each page of the range was reported resident, or the file
      was seen to end at or before it. */
  ghost predicate FoundResident(world: World, page: nat, pos: nat, len: nat, from: nat, to: nat) {
    exists seen, eof ::
      Reported(world, seen, from, to) && SizeSeen(world, eof, from, to) && AllResident(page, pos, len, seen, eof)
  }

  lemma NoneReported(world: World, from: nat, to: nat)
    ensures Reported(world, {}, from, to)
  {}

  lemma ReportedWider(world: World, seen: set<nat>, from: nat, to: nat, later: nat)
    requires Reported(world, seen, from, to) && to <= later
    ensures Reported(world, seen, from, later)
  {
    forall k | k in seen ensures ReportedPage(world, k, from, later) { assert ReportedPage(world, k, from, to); }
  }

  /** One more look at the pages. */
  lemma ReportedMore(world: World, seen: set<nat>, more: set<nat>, from: nat, t: nat)
    requires Reported(world, seen, from, t) && from <= t
    requires forall k :: k in more && k !in seen ==> world.examined(t) && world.incore(t, k)
    ensures Reported(world, more, from, t + 1)
  {
    forall k | k in more ensures ReportedPage(world, k, from, t + 1) {
      if k in seen { assert ReportedPage(world, k, from, t); }
    }
  }

  /** What was found from a later moment on was found from an earlier one on. */
  lemma ReportedEarlier(world: World, seen: set<nat>, from: nat, to: nat, before: nat)
    requires Reported(world, seen, from, to) && before <= from
    ensures Reported(world, seen, before, to)
  {
    forall k | k in seen ensures ReportedPage(world, k, before, to) { assert ReportedPage(world, k, from, to); }
  }

  lemma FoundLater(world: World, page: nat, pos: nat, len: nat, from: nat, to: nat, before: nat)
    requires FoundResident(world, page, pos, len, from, to) && before <= from
    ensures FoundResident(world, page, pos, len, before, to)
  {
    hide Reported, AllResident;
    var seen, eof :|
      Reported(world, seen, from, to) && SizeSeen(world, eof, from, to) && AllResident(page, pos, len, seen, eof);
    ReportedEarlier(world, seen, from, to, before);
    assert SizeSeen(world, eof, before, to);
  }

  /** Why a view cannot be made to reach `end` at moment `t`: the file is no
      regular one, too large or not to be mapped, or `end` lies beyond it and
      the headroom. */
  predicate CannotReach(world: World, page: nat, t: nat, end: nat) {
    var size := |world.versions(t)|;
    !world.regular || size + page + HEADROOM > U64_MAX || !world.maps(t + 1) || end > size + HEADROOM
  }

  /** A page of the range is not resident, and holds data unless the file's
      size cannot be had. */
  predicate Cold(world: World, page: nat, pos: nat, len: nat, t: nat, k: nat)
    requires page >= 1
  {
    && pos / page <= k < (pos + len + page - 1) / page && !world.incore(t, k)
    && (world.regular ==> |world.versions(t + 1)| > k * page)
  }

  /** Why a read is not served from resident pages, between two moments. */
  ghost predicate Unfit(world: World, page: nat, pos: nat, len: nat, from: nat, to: nat)
    requires page >= 1
  {
    pos + len > U64_MAX || CannotReach(world, page, from, pos + len) || NotAllSeen(world, page, pos, len, from, to)
  }

  /** A look at the range failed, or found a cold page. */
  ghost predicate NotAllSeen(world: World, page: nat, pos: nat, len: nat, from: nat, to: nat)
    requires page >= 1
  {
    || (exists t: nat :: from <= t < to && !world.examined(t))
    || (exists t: nat, k: nat :: from <= t < to && Cold(world, page, pos, len, t, k))
  }

  lemma NotAllSeenWider(world: World, page: nat, pos: nat, len: nat, a: nat, b: nat, from: nat, to: nat)
    requires page >= 1 && NotAllSeen(world, page, pos, len, a, b) && from <= a && b <= to
    ensures NotAllSeen(world, page, pos, len, from, to)
  {}

  datatype Pread = Moved(bytes: seq<Byte>) | Interrupted | Refused

  class Inner {
    const page: nat
    const world: World
    var tick: nat
    var view: Option<nat>

    ghost predicate Valid()
      reads this
    {
      && page >= 1 && HEADROOM % page == 0
      && (view.Some? ==> view.value <= U64_MAX && view.value == view.value / page * page)
    }

    constructor (page: nat, world: World)
      requires page >= 1 && HEADROOM % page == 0
      ensures this.page == page && this.world == world && Valid() && view.None?
    {
      this.page, this.world, tick, view := page, world, 0, None;
    }

    /** `fstat`: a size for a regular file only. */
    method Size() returns (size: Option<nat>)
      modifies this`tick
      ensures tick == old(tick) + 1
      ensures size == if world.regular then Some(|world.versions(old(tick))|) else None
    {
      size := if world.regular then Some(|world.versions(tick)|) else None;
      tick := tick + 1;
    }

    predicate Covers(end: nat)
      reads this
    {
      view.Some? && end <= view.value
    }

    /** Makes the view reach `end`, and never makes it shorter. */
    method EnsureView(end: nat) returns (ok: bool)
      requires Valid()
      modifies this
      ensures Valid() && ok == Covers(end) && old(tick) <= tick
      ensures old(view).Some? ==> view.Some? && old(view).value <= view.value
      ensures view == old(view) || (!old(Covers(end)) && view == ViewLen(|world.versions(old(tick))|, page))
      ensures !ok ==> CannotReach(world, page, old(tick), end)
    {
      if Covers(end) { return true; }
      var size := Size();
      if size.None? { return false; }
      ViewHoldsFile(size.value, page);
      var len := ViewLen(size.value, page);
      if len.None? { return false; }
      if view.Some? && view.value >= len.value { return false; }
      var mapped := world.maps(tick);
      tick := tick + 1;
      if !mapped { return false; }
      view := len;
      ok := Covers(end);
    }

    /** `mincore` on whole pages inside the mapping, with room for their flags.
        The pages it reports resident are added to `seen`. */
    method Mincore(off: nat, chunk: nat, ghost seen: set<nat>) returns (flags: Option<seq<bool>>, ghost more: set<nat>)
      requires Valid() && view.Some? && chunk > 0
      requires off == off / page * page && chunk == chunk / page * page
      requires off + chunk <= view.value && chunk / page <= FLAGS_PER_CALL
      modifies this`tick
      ensures tick == old(tick) + 1
      ensures flags.Some? ==> |flags.value| == chunk / page
      ensures flags.None? ==> !world.examined(old(tick))
      ensures flags.Some? ==> forall i :: 0 <= i < |flags.value| ==>
        flags.value[i] == world.incore(old(tick), off / page + i) && (flags.value[i] ==> off / page + i in more)
      ensures seen <= more
      ensures forall k :: k in more && k !in seen ==> world.examined(old(tick)) && world.incore(old(tick), k)
    {
      var t := tick;
      tick := tick + 1;
      more := seen;
      if !world.examined(t) { return None, seen; }
      var first := off / page;
      var bits := seq(chunk / page, i requires 0 <= i => world.incore(t, first + i));
      flags := Some(bits);
      more := seen + set i | 0 <= i < |bits| && bits[i] :: first + i;
    }

    /** Whether every page of `[pos, pos + len)` that holds file data is
        resident. `seen` are the pages `mincore` reported resident during the
        call, `eof` the file's size if it had to be asked for. */
    method Resident(pos: nat, len: nat) returns (ok: bool, ghost seen: set<nat>, ghost eof: Option<nat>)
      requires Valid()
      modifies this
      ensures Valid() && old(tick) <= tick
      ensures ok ==> pos + len <= U64_MAX && AllResident(page, pos, len, seen, eof)
      ensures Reported(world, seen, old(tick), tick) && SizeSeen(world, eof, old(tick), tick)
      ensures !ok ==> Unfit(world, page, pos, len, old(tick), tick)
    {
      ok, seen, eof := false, {}, None;
      var end := CheckedAdd(pos, len);
      if end.None? { return; }
      var reaches := EnsureView(end.value);
      if !reaches { return; }
      hide NotAllSeen, AllResident, CannotReach, Reported;
      InsideView(end.value, view.value, page);
      DivBounds(pos, page);
      ghost var from := tick;
      ok, seen, eof := Scan(pos, len, pos / page, (end.value + page - 1) / page);
      ReportedEarlier(world, seen, from, tick, old(tick));
      if !ok { NotAllSeenWider(world, page, pos, len, from, tick, old(tick), tick); }
    }

    /** The pages of the range, a call's worth at a time, up to the first cold
        one. */
    method Scan(pos: nat, len: nat, firstPage: nat, lastPage: nat)
      returns (ok: bool, ghost seen: set<nat>, ghost eof: Option<nat>)
      requires Valid() && view.Some? && lastPage * page <= view.value
      requires firstPage == pos / page && lastPage == (pos + len + page - 1) / page
      modifies this`tick
      ensures old(tick) <= tick && (ok ==> AllResident(page, pos, len, seen, eof))
      ensures Reported(world, seen, old(tick), tick) && SizeSeen(world, eof, old(tick), tick)
      ensures !ok ==> NotAllSeen(world, page, pos, len, old(tick), tick)
    {
      hide Reported;
      ok, seen, eof := false, {}, None;
      NoneReported(world, tick, tick);
      var k, last := firstPage, lastPage * page;
      var off := k * page;
      while off < last
        invariant off == k * page && firstPage <= k && old(tick) <= tick
        invariant Reported(world, seen, old(tick), tick)
        invariant forall p :: firstPage <= p < k ==> p in seen
        decreases last - off
      {
        ChunkPages(k, lastPage, page);
        var chunk := Min(last - off, FLAGS_PER_CALL * page);
        ghost var looked, before := tick, seen;
        var flags;
        flags, seen := Mincore(off, chunk, seen);
        ReportedMore(world, before, seen, old(tick), looked);
        if flags.None? {
          assert !world.examined(looked);
          return;
        }
        var index := FirstCold(flags.value);
        forall p | k <= p < k + index ensures p in seen { assert flags.value[p - k]; }
        if index < |flags.value| {
          var size := Size();
          eof := size;
          ReportedWider(world, seen, old(tick), looked + 1, tick);
          if size.Some? && size.value <= off + index * page {
            ok := true;
            ColdAndBeyond(page, pos, len, firstPage, k, index, seen, eof);
          } else {
            NextPages(k, index, page);
            assert Cold(world, page, pos, len, looked, k + index);
          }
          return;
        }
        NextPages(k, chunk / page, page);
        off, k := off + chunk, k + chunk / page;
      }
      ok := true;
      NoneMissing(page, pos, len, firstPage, lastPage, k, seen, eof);
    }

    /** The position of the first page that is not resident. */
    method FirstCold(flags: seq<bool>) returns (index: nat)
      ensures index <= |flags| && forall i :: 0 <= i < index ==> flags[i]
      ensures index < |flags| ==> !flags[index]
    {
      index := 0;
      while index < |flags| && flags[index]
        invariant index <= |flags| && forall i :: 0 <= i < index ==> flags[i]
      {
        index := index + 1;
      }
    }

    method PreadAt(off: nat, want: nat) returns (r: Pread)
      requires want >= 1
      modifies this`tick
      ensures tick == old(tick) + 1
      ensures r == Interrupted ==> world.interrupted(old(tick))
      ensures r == Refused ==> world.refused(old(tick))
      ensures r.Moved? ==>
        && r.bytes == Slice(world.versions(old(tick)), off, |r.bytes|) && |r.bytes| <= want
        && (r.bytes == [] <==> off >= |world.versions(old(tick))|)
    {
      var t := tick;
      tick := tick + 1;
      if world.interrupted(t) { return Interrupted; }
      if world.refused(t) { return Refused; }
      r := Moved(Slice(world.versions(t), off, Max(1, Min(world.counts(t), want))));
    }

    /** Fills the caller's memory from `pos`, once all of it has been found
        resident, by moment `found`; the count falls short only at the end of
        the file. While the bytes of the range stay what they are from then on,
        they are what is filled in. */
    method Fill(pos: nat, base: array<Byte>, ghost quiet: nat) returns (r: Option<nat>, ghost found: nat)
      requires Valid() && QuietFrom(world, quiet)
      modifies this, base
      ensures Valid() && old(tick) <= tick
      ensures r.Some? ==> r.value <= base.Length && base[r.value..] == old(base[r.value..])
      ensures r.Some? ==>
        && old(tick) <= found <= tick && FoundResident(world, page, pos, base.Length, old(tick), found)
        && Right(world.versions, found, base[..r.value], pos, base.Length, base.Length)
      ensures r.None? ==>
        || Unfit(world, page, pos, base.Length, old(tick), tick)
        || pos + base.Length > OFF_MAX + 1
        || exists t: nat :: old(tick) <= t < tick && world.refused(t)
    {
      hide Slice, Stays, Right, Reported, AllResident, Unfit;
      r, found := None, tick;
      var resident;
      ghost var seen, eof;
      resident, seen, eof := Resident(pos, base.Length);
      if !resident { return; }
      found := tick;
      assert FoundResident(world, page, pos, base.Length, old(tick), found);
      hide FoundResident;
      var filled: nat := 0;
      NothingYet(world.versions, found, base[..0], pos, base.Length);
      while filled < base.Length
        invariant filled <= base.Length && Valid() && old(tick) <= found <= tick
        invariant base[filled..] == old(base[filled..])
        invariant Right(world.versions, found, base[..filled], pos, filled, base.Length)
        decreases base.Length - filled, if tick < quiet then quiet - tick else 0
      {
        var sum := CheckedAdd(pos, filled);
        if sum.None? || sum.value > OFF_MAX { return None, found; }
        ghost var t, before := tick, base[..filled];
        ghost var asked := tick;
        var n := PreadAt(sum.value, base.Length - filled);
        match n {
          case Interrupted => continue;
          case Refused =>
            assert world.refused(asked);
            return None, found;
          case Moved(bytes) =>
            if bytes == [] {
              EndOfRange(world.versions, found, t, before, pos, base.Length);
              break;
            }
            OneMorePart(world.versions, found, t, before, bytes, pos, base.Length);
            Put(base, filled, bytes);
            filled := filled + |bytes|;
        }
      }
      r := Some(filled);
    }

    /** Up to `len` bytes at `pos`, read once the whole range has been found
        resident, or none when this path does not apply. */
    method Read(pos: nat, len: nat, ghost quiet: nat) returns (r: Option<seq<Byte>>, ghost found: nat)
      requires Valid() && QuietFrom(world, quiet)
      modifies this
      ensures Valid() && (len == 0 ==> r == None)
      ensures r.Some? ==>
        && old(tick) <= found <= tick && FoundResident(world, page, pos, len, old(tick), found)
        && Right(world.versions, found, r.value, pos, len, len)
    {
      hide FoundResident, Right;
      r, found := None, tick;
      if len == 0 { return; }
      var base := new Byte[len](_ => 0);
      var filled;
      filled, found := Fill(pos, base, quiet);
      r := if filled.Some? then Some(base[..filled.value]) else None;
    }

    /** Everything from `pos` to the end of the file, or none. On a file that
        only grows it is what the file held from `pos` on at one moment `at` of
        the call; and bytes are read only once all of them have been found
        resident. */
    method ReadAll(pos: nat, ghost quiet: nat) returns (r: Option<seq<Byte>>, ghost at: nat)
      requires Valid() && QuietFrom(world, quiet)
      modifies this
      ensures Valid()
      ensures r.Some? ==> old(tick) <= at < tick
      ensures r.Some? && Transfer.OnlyGrows(world.versions) ==> r.value == Tail(world.versions(at), pos)
      ensures r.Some? && r.value != [] ==>
        exists found :: (old(tick) <= found <= tick
          && FoundResident(world, page, pos, |r.value|, old(tick), found)
          && Right(world.versions, found, r.value, pos, |r.value|, |r.value|))
    {
      hide Right, Slice, Tail, FoundResident;
      r, at := None, tick;
      var size := Size();
      if size.None? { return; }
      var len := if size.value > pos then size.value - pos else 0;
      var base := new Byte[len](_ => 0);
      ghost var from := tick;
      if len > 0 {
        var filled;
        ghost var found;
        filled, found := Fill(pos, base, quiet);
        if filled != Some(len) { return; }
        assert base[..len] == base[..];
        FoundLater(world, page, pos, len, from, found, old(tick));
        WholeRest(world.versions, at, found, base[..], pos);
      } else {
        NoRest(world.versions(at), pos, base[..]);
      }
      ghost var later := tick;
      var again := Size();
      if again != size { return; }
      if Transfer.OnlyGrows(world.versions) { SameFile(world.versions, at, later); }
      r, at := Some(base[..]), later;
    }

    static method Put(base: array<Byte>, at: nat, bytes: seq<Byte>)
      requires at + |bytes| <= base.Length
      modifies base
      ensures base[..at + |bytes|] == old(base[..at]) + bytes
      ensures base[at + |bytes|..] == old(base[at + |bytes|..])
    {
      forall k | 0 <= k < |bytes| { base[at + k] := bytes[k]; }
    }
  }

  /** From `from` on, the bytes of the range are those of `file`. */
  ghost predicate Stays(versions: Transfer.Versions, from: nat, file: File, pos: nat, len: nat) {
    forall t: nat :: t >= from ==> Slice(versions(t), pos, len) == Slice(file, pos, len)
  }

  lemma NoRest(file: File, pos: nat, none: seq<Byte>)
    requires |file| <= pos && none == []
    ensures none == Tail(file, pos)
  {}

  lemma SameFile(versions: Transfer.Versions, a: nat, b: nat)
    requires Transfer.OnlyGrows(versions) && a <= b && |versions(a)| == |versions(b)|
    ensures versions(a) == versions(b)
  {
    assert versions(a) <= versions(b);
  }

  lemma WholeRest(versions: Transfer.Versions, at: nat, from: nat, got: seq<Byte>, pos: nat)
    requires at <= from && pos + |got| == |versions(at)| && got != []
    requires Right(versions, from, got, pos, |got|, |got|)
    ensures Transfer.OnlyGrows(versions) ==> got == Tail(versions(at), pos)
  {
    if Transfer.OnlyGrows(versions) {
      forall t: nat | t >= from ensures Slice(versions(t), pos, |got|) == Slice(versions(at), pos, |got|) {
        assert versions(at) <= versions(t);
      }
      assert Stays(versions, from, versions(at), pos, |got|);
    }
  }

  /** If the range of `len` bytes stays what it is in some file, then `got` is
      what that file has in the first `n` bytes of it. */
  ghost predicate Right(versions: Transfer.Versions, from: nat, got: seq<Byte>, pos: nat, n: nat, len: nat) {
    forall file: File :: Stays(versions, from, file, pos, len) ==> got == Slice(file, pos, n)
  }

  lemma NothingYet(versions: Transfer.Versions, from: nat, none: seq<Byte>, pos: nat, len: nat)
    requires none == []
    ensures Right(versions, from, none, pos, 0, len)
  {}

  lemma EndOfRange(versions: Transfer.Versions, from: nat, t: nat, got: seq<Byte>, pos: nat, len: nat)
    requires from <= t && |got| < len && pos + |got| >= |versions(t)|
    requires Right(versions, from, got, pos, |got|, len)
    ensures Right(versions, from, got, pos, len, len)
  {
    forall file: File | Stays(versions, from, file, pos, len) ensures got == Slice(file, pos, len) {
      assert Slice(versions(t), pos, len) == Slice(file, pos, len);
    }
  }

  lemma OneMorePart(versions: Transfer.Versions, from: nat, t: nat, got: seq<Byte>, bytes: seq<Byte>, pos: nat,
                    len: nat)
    requires from <= t && |got| + |bytes| <= len && bytes == Slice(versions(t), pos + |got|, |bytes|)
    requires Right(versions, from, got, pos, |got|, len)
    ensures Right(versions, from, got + bytes, pos, |got| + |bytes|, len)
  {
    hide Slice;
    forall file: File | Stays(versions, from, file, pos, len) ensures got + bytes == Slice(file, pos, |got| + |bytes|) {
      PartOf(versions(t), file, got, bytes, pos, len);
    }
  }

  lemma PartOf(now: File, file: File, got: seq<Byte>, bytes: seq<Byte>, pos: nat, len: nat)
    requires Slice(now, pos, len) == Slice(file, pos, len) && |got| + |bytes| <= len
    requires got == Slice(file, pos, |got|) && bytes == Slice(now, pos + |got|, |bytes|)
    ensures got + bytes == Slice(file, pos, |got| + |bytes|)
  {
    hide Slice;
    Transfer.SliceHead(now, pos, len, |got| + |bytes|);
    Transfer.SliceHead(file, pos, len, |got| + |bytes|);
    Transfer.SliceHead(now, pos, len, |got|);
    Transfer.SliceHead(file, pos, len, |got|);
    Transfer.SliceAppend(now, pos, |got|, |bytes|);
  }

  lemma InsideView(end: nat, len: nat, page: nat)
    requires page >= 1 && end <= len && len == len / page * page
    ensures (end + page - 1) / page * page <= len
  {
    RoundUpLeast(end, page, len / page);
  }

  /** What is left of the range, at most a call's worth of it, is a whole number
      of pages. */
  lemma ChunkPages(k: nat, lastPage: nat, page: nat)
    requires page >= 1 && k * page < lastPage * page
    ensures k < lastPage
    ensures var chunk := Min(lastPage * page - k * page, FLAGS_PER_CALL * page);
      && chunk > 0 && chunk / page == Min(lastPage - k, FLAGS_PER_CALL)
      && chunk == chunk / page * page && k * page / page == k
      && k * page + chunk <= lastPage * page
  {
    Multiples(lastPage, k, page);
    var n := Min(lastPage - k, FLAGS_PER_CALL);
    assert (lastPage - k) * page == lastPage * page - k * page;
    Multiples(lastPage - k, FLAGS_PER_CALL, page);
    Multiples(FLAGS_PER_CALL, lastPage - k, page);
    Quotient(n, page);
    Quotient(k, page);
  }

  lemma NextPages(k: nat, n: nat, page: nat)
    ensures k * page + n * page == (k + n) * page
  {}

  lemma Quotient(n: nat, page: nat)
    requires page >= 1
    ensures n * page / page == n
  {
    DivBounds(n * page, page);
    Multiples(n, n * page / page, page);
    Multiples(n * page / page, n, page);
  }

  lemma NoneMissing(page: nat, pos: nat, len: nat, firstPage: nat, lastPage: nat, k: nat, seen: set<nat>,
                    eof: Option<nat>)
    requires page >= 1 && firstPage == pos / page && lastPage == (pos + len + page - 1) / page
    requires k * page >= lastPage * page && forall p :: firstPage <= p < k ==> p in seen
    ensures AllResident(page, pos, len, seen, eof)
  {
    forall p: nat | p * page < pos + len && pos < p * page + page ensures p in seen {
      DivBounds(pos, page);
      RoundUpBounds(pos + len, page);
      Multiples(p + 1, firstPage, page);
      Multiples(k, p, page);
    }
  }

  /** The early exit: with a cold page at or past the end, so are all the pages
      after it. */
  lemma ColdAndBeyond(page: nat, pos: nat, len: nat, firstPage: nat, k: nat, index: nat, seen: set<nat>,
                      eof: Option<nat>)
    requires page >= 1 && firstPage == pos / page
    requires forall p :: firstPage <= p < k + index ==> p in seen
    requires eof.Some? && eof.value <= k * page + index * page
    ensures AllResident(page, pos, len, seen, eof)
  {
    forall p: nat | p * page < pos + len && pos < p * page + page ensures p in seen || Beyond(eof, page, p) {
      DivBounds(pos, page);
      Multiples(p + 1, firstPage, page);
      assert (k + index) * page == k * page + index * page;
      Multiples(k + index, p, page);
    }
  }
}
