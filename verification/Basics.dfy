/** Bytes, optional values and sums over sequences, shared by the models. */
module Basics {

  type Byte = b: int | 0 <= b < 256

  type File = seq<Byte>

  datatype Option<+T> = None | Some(value: T)

  function Min(a: nat, b: nat): nat { if a < b then a else b }

  function Max(a: nat, b: nat): nat { if a < b then b else a }

  lemma {:induction false} ProductOfNats(x: nat, y: nat)
    ensures x * y >= 0
    decreases x
  {
    if x > 0 {
      ProductOfNats(x - 1, y);
      assert x * y == (x - 1) * y + y;
    }
  }

  lemma Multiples(a: nat, b: nat, n: nat)
    ensures a <= b ==> a * n <= b * n
    ensures a < b ==> a * n + n <= b * n
  {
    if a < b {
      ProductOfNats(b - a - 1, n);
      assert b * n == a * n + n + (b - a - 1) * n;
    }
  }

  /** The first `n` bytes at `pos`, fewer where the file ends. */
  function Slice(file: File, pos: nat, n: nat): (r: seq<Byte>)
    ensures |r| <= n
  {
    if pos >= |file| then [] else file[pos..Min(pos + n, |file|)]
  }

  lemma SliceLength(file: File, pos: nat, n: nat)
    ensures |Slice(file, pos, n)| == Min(n, if pos < |file| then |file| - pos else 0)
  {}

  /** Everything from `pos` on. */
  function Tail(file: File, pos: nat): seq<Byte> {
    if pos >= |file| then [] else file[pos..]
  }

  lemma Empties<T>(x: seq<T>)
    ensures [] + x == x && x + [] == x
  {}

  function Zeros(n: nat): (r: seq<Byte>)
    ensures |r| == n
  {
    seq(n, _ => 0)
  }

  /** The file after `data` was written at `pos`: a gap before `pos` reads as
      zeros, and an empty write changes nothing. */
  function Splice(file: File, pos: nat, data: seq<Byte>): (r: File) {
    if data == [] then file
    else
      (if pos <= |file| then file[..pos] else file + Zeros(pos - |file|))
      + data
      + (if pos + |data| <= |file| then file[pos + |data|..] else [])
  }

  lemma SpliceAt(file: File, pos: nat, data: seq<Byte>, i: nat)
    requires data != []
    ensures |Splice(file, pos, data)| == Max(|file|, pos + |data|)
    ensures i < |Splice(file, pos, data)| ==>
      Splice(file, pos, data)[i] ==
        if pos <= i < pos + |data| then data[i - pos] else if i < |file| then file[i] else 0
  {}

  /** Writing two adjoining pieces one after the other is writing both. */
  lemma SpliceTwice(file: File, pos: nat, a: seq<Byte>, b: seq<Byte>)
    ensures Splice(Splice(file, pos, a), pos + |a|, b) == Splice(file, pos, a + b)
  {
    if a == [] {
      assert a + b == b;
    } else if b == [] {
      assert a + b == a;
    } else {
      var once := Splice(file, pos, a);
      var twice := Splice(once, pos + |a|, b);
      var whole := Splice(file, pos, a + b);
      SpliceAt(file, pos, a, 0);
      SpliceAt(once, pos + |a|, b, 0);
      SpliceAt(file, pos, a + b, 0);
      forall i | 0 <= i < |twice| ensures twice[i] == whole[i] {
        SpliceAt(file, pos, a, i);
        SpliceAt(once, pos + |a|, b, i);
        SpliceAt(file, pos, a + b, i);
      }
    }
  }

  // ---------------------------------------------------------------------

  /** The sum of a weight over the elements of a sequence. */
  function Sum<T>(xs: seq<T>, weight: T -> nat): nat
    decreases |xs|
  {
    if xs == [] then 0 else weight(xs[0]) + Sum(xs[1..], weight)
  }

  lemma {:induction false} SumAppend<T>(a: seq<T>, b: seq<T>, weight: T -> nat)
    ensures Sum(a + b, weight) == Sum(a, weight) + Sum(b, weight)
    decreases |a|
  {
    if a == [] {
      assert a + b == b;
    } else {
      assert (a + b)[1..] == a[1..] + b;
      SumAppend(a[1..], b, weight);
    }
  }

  lemma SumSnoc<T>(a: seq<T>, x: T, weight: T -> nat)
    ensures Sum(a + [x], weight) == Sum(a, weight) + weight(x)
  {
    SumAppend(a, [x], weight);
    assert [x][1..] == [];
  }

  /** Taking one element out. */
  lemma SumRemove<T>(xs: seq<T>, i: nat, weight: T -> nat)
    requires i < |xs|
    ensures Sum(xs[..i] + xs[i + 1..], weight) + weight(xs[i]) == Sum(xs, weight)
  {
    assert xs == xs[..i] + xs[i..];
    SumAppend(xs[..i], xs[i..], weight);
    SumAppend(xs[..i], xs[i + 1..], weight);
  }

  /** Replacing one element. */
  lemma SumUpdate<T>(xs: seq<T>, i: nat, x: T, weight: T -> nat)
    requires i < |xs|
    ensures Sum(xs[i := x], weight) + weight(xs[i]) == Sum(xs, weight) + weight(x)
  {
    assert xs[i := x] == xs[..i] + ([x] + xs[i + 1..]);
    assert xs == xs[..i] + xs[i..];
    SumAppend(xs[..i], xs[i..], weight);
    SumAppend(xs[..i], [x] + xs[i + 1..], weight);
  }

  /** The sum of a sequence bounds the weight of each of its elements. */
  lemma {:induction false} SumSame<T>(xs: seq<T>, ys: seq<T>, weight: T -> nat)
    requires |xs| == |ys| && forall i :: 0 <= i < |xs| ==> weight(xs[i]) == weight(ys[i])
    ensures Sum(xs, weight) == Sum(ys, weight)
    decreases |xs|
  {
    if xs != [] {
      assert weight(xs[0]) == weight(ys[0]);
      forall i | 0 <= i < |xs[1..]| ensures weight(xs[1..][i]) == weight(ys[1..][i]) {
        assert weight(xs[i + 1]) == weight(ys[i + 1]);
      }
      SumSame(xs[1..], ys[1..], weight);
    }
  }

  lemma SumAtLeast<T>(xs: seq<T>, i: nat, weight: T -> nat)
    requires i < |xs|
    ensures weight(xs[i]) <= Sum(xs, weight)
  {
    SumRemove(xs, i, weight);
  }

  lemma {:induction false} SumZero<T>(xs: seq<T>, weight: T -> nat)
    requires forall i :: 0 <= i < |xs| ==> weight(xs[i]) == 0
    ensures Sum(xs, weight) == 0
    decreases |xs|
  {
    if xs != [] {
      assert weight(xs[0]) == 0;
      forall i | 0 <= i < |xs[1..]| ensures weight(xs[1..][i]) == 0 { assert xs[1..][i] == xs[i + 1]; }
      SumZero(xs[1..], weight);
    }
  }

  /** A positive sum has an element of positive weight. */
  lemma {:induction false} SumPositive<T>(xs: seq<T>, weight: T -> nat) returns (i: nat)
    requires Sum(xs, weight) > 0
    ensures i < |xs| && weight(xs[i]) > 0
    decreases |xs|
  {
    if weight(xs[0]) > 0 {
      i := 0;
    } else {
      i := SumPositive(xs[1..], weight);
      i := i + 1;
    }
  }

  /** What is left of a vector when one element is taken out and the last one
      moves into its place. */
  function SwapRemove<T>(xs: seq<T>, i: nat): (r: seq<T>)
    requires i < |xs|
  {
    if i == |xs| - 1 then xs[..i] else xs[..|xs| - 1][i := xs[|xs| - 1]]
  }

  lemma SumSwapRemove<T>(xs: seq<T>, i: nat, weight: T -> nat)
    requires i < |xs|
    ensures Sum(SwapRemove(xs, i), weight) + weight(xs[i]) == Sum(xs, weight)
  {
    var n := |xs| - 1;
    var last := xs[n];
    assert xs == xs[..n] + [last];
    SumSnoc(xs[..n], last, weight);
    if i != n {
      SumUpdate(xs[..n], i, last, weight);
    }
  }
}
