/** The integer a text position is packed into (python/turbofile/text.py). */
module Cookies {
  import opened Basics
  import opened Codecs

  function Pow2(k: nat): (r: nat)
    ensures r >= 1
  {
    if k == 0 then 1 else 2 * Pow2(k - 1)
  }

  /** Bitwise or of two unbounded non-negative integers. */
  function BitOr(a: nat, b: nat): nat
    decreases a, b
  {
    if a == 0 then b
    else if b == 0 then a
    else (if a % 2 == 1 || b % 2 == 1 then 1 else 0) + 2 * BitOr(a / 2, b / 2)
  }

  /** `x << k` */
  function Shl(x: nat, k: nat): nat { x * Pow2(k) }

  lemma ShlNext(x: nat, k: nat)
    requires k > 0
    ensures Shl(x, k) == 2 * Shl(x, k - 1)
  {
    assert x * (2 * Pow2(k - 1)) == 2 * (x * Pow2(k - 1));
  }

  /** The lowest bit is that of the first. */
  lemma OrOfDouble(a: nat, half: nat)
    requires a > 0 && half > 0
    ensures BitOr(a, 2 * half) == a % 2 + 2 * BitOr(a / 2, half)
  {
    var b := 2 * half;
    assert b % 2 == 0 && b / 2 == half;
  }

  /** Or with something shifted past all the bits of `a` is a sum. */
  lemma {:induction false} OrIsSum(a: nat, x: nat, k: nat)
    requires a < Pow2(k)
    ensures BitOr(a, Shl(x, k)) == a + Shl(x, k)
    decreases k
  {
    if k > 0 && a > 0 {
      ShlNext(x, k);
      var half := Shl(x, k - 1);
      OrIsSum(a / 2, x, k - 1);
      hide Shl, Pow2;
      if half > 0 { OrOfDouble(a, half); }
    }
  }

  lemma {:induction false} Pow2Add(a: nat, b: nat)
    ensures Pow2(a + b) == Pow2(a) * Pow2(b)
    decreases a
  {
    if a > 0 { Pow2Add(a - 1, b); }
  }

  /** `start` is the byte to seek to, `flags` the decoder flags there, `feed`
      how many bytes to refeed, `eof` whether the last of them is the end, and
      `skip` how many of the characters to skip. */
  datatype Cookie = Cookie(start: nat, flags: nat, feed: nat, eof: bool, skip: nat)

  function Pack(k: Cookie): nat {
    BitOr(BitOr(BitOr(BitOr(k.start, Shl(k.flags, 64)), Shl(k.feed, 128)), Shl(k.skip, 192)),
      Shl(if k.eof then 1 else 0, 256))
  }

  function Unpack(n: nat): Cookie {
    var position, rest := n % W, n / W;
    var flags, rest2 := rest % W, rest / W;
    var feed, rest3 := rest2 % W, rest2 / W;
    Cookie(position, flags, feed, rest3 / W != 0, rest3 % W)
  }

  predicate Fits(k: Cookie) { k.start < W && k.flags < W && k.feed < W && k.skip < W }

  lemma Pow2Of8(n: nat)
    requires n == 8
    ensures Pow2(n) == 256
  {
    assert Pow2(0) == 1 && Pow2(1) == 2 && Pow2(2) == 4 && Pow2(3) == 8 && Pow2(4) == 16;
    assert Pow2(n - 4) == 16;
    assert Pow2(n - 2) == 64;
  }

  lemma Pow2Of64(n: nat)
    requires n == 64
    ensures Pow2(n) == W
  {
    var e: nat := n / 8;
    Pow2Of8(e);
    hide Pow2;
    Pow2Add(e, e);
    Pow2Add(2 * e, 2 * e);
    Pow2Add(4 * e, 4 * e);
    assert Pow2(2 * e) == 65536;
    assert Pow2(4 * e) == 65536 * 65536;
  }

  /** Sixty-four more bits. */
  lemma Pow2Next(k: nat, n: nat)
    requires n == k + 64
    ensures Pow2(n) == W * Pow2(k)
  {
    Pow2Of64(64);
    hide Pow2;
    Pow2Add(64, k);
  }

  lemma PowersOfW()
    ensures Pow2(64) == W
    ensures Pow2(128) == W * Pow2(64) && Pow2(192) == W * Pow2(128) && Pow2(256) == W * Pow2(192)
  {
    hide Pow2;
    Pow2Of64(64);
    Pow2Next(64, 128);
    Pow2Next(128, 192);
    Pow2Next(192, 256);
  }

  /** One more field above `k` bits. */
  lemma OrField(low: nat, x: nat, k: nat)
    requires low < Pow2(k)
    ensures BitOr(low, Shl(x, k)) == low + Pow2(k) * x
    ensures x < W ==> low + Pow2(k) * x < W * Pow2(k)
  {
    OrIsSum(low, x, k);
    if x < W { Below(low, x, Pow2(k), W); }
  }

  lemma Below(low: nat, x: nat, l: nat, w: nat)
    requires low < l && x < w
    ensures low + l * x < w * l
  {
    Multiples(x, w, l);
  }

  lemma PackIsSum(k: Cookie)
    requires Fits(k)
    ensures Pack(k) == k.start + Pow2(64) * k.flags + Pow2(128) * k.feed + Pow2(192) * k.skip
      + Pow2(256) * (if k.eof then 1 else 0)
  {
    hide Pow2, BitOr, Shl;
    PowersOfW();
    var p64, p128, p192, p256 := Pow2(64), Pow2(128), Pow2(192), Pow2(256);
    OrField(k.start, k.flags, 64);
    OrField(k.start + p64 * k.flags, k.feed, 128);
    OrField(k.start + p64 * k.flags + p128 * k.feed, k.skip, 192);
    OrField(k.start + p64 * k.flags + p128 * k.feed + p192 * k.skip, if k.eof then 1 else 0, 256);
  }

  /** The same sum, field above field. */
  lemma PackIsNested(k: Cookie)
    requires Fits(k)
    ensures Pack(k) == k.start + W * (k.flags + W * (k.feed + W * (k.skip + W * (if k.eof then 1 else 0))))
  {
    PackIsSum(k);
    PowersOfW();
    hide Pow2, Pack;
    var e := if k.eof then 1 else 0;
    Nest(k.start, k.flags, k.feed, k.skip, e, W, Pow2(64), Pow2(128), Pow2(192), Pow2(256));
  }

  lemma Nest(a: nat, b: nat, c: nat, d: nat, e: nat, w: nat, p: nat, q: nat, r: nat, s: nat)
    requires p == w && q == w * p && r == w * q && s == w * r
    ensures a + p * b + q * c + r * d + s * e == a + w * (b + w * (c + w * (d + w * e)))
  {
    assert w * (w * (w * (w * e))) == s * e;
    assert w * (w * (w * d)) == r * d;
    assert w * (w * c) == q * c;
  }

  lemma DivMod(low: nat, rest: nat)
    requires low < W
    ensures (low + W * rest) % W == low && (low + W * rest) / W == rest
  {}

  lemma UnpackFits(n: nat)
    ensures Fits(Unpack(n))
  {}

  /** Packing loses nothing exactly when every field fits its 64 bits. */
  lemma PackRoundTrips(k: Cookie)
    ensures Unpack(Pack(k)) == k <==> Fits(k)
  {
    hide Pack, Pow2, BitOr, Shl;
    UnpackFits(Pack(k));
    if Fits(k) {
      hide Unpack;
      PackIsNested(k);
      var e := if k.eof then 1 else 0;
      UnpackNested(k.start, k.flags, k.feed, k.skip, e);
    }
  }

  lemma UnpackNested(a: nat, b: nat, c: nat, d: nat, e: nat)
    requires a < W && b < W && c < W && d < W
    ensures Unpack(a + W * (b + W * (c + W * (d + W * e)))) == Cookie(a, b, c, e != 0, d)
  {
    var n3 := d + W * e;
    var n2 := c + W * n3;
    var n1 := b + W * n2;
    DivMod(d, e);
    DivMod(c, n3);
    DivMod(b, n2);
    DivMod(a, n1);
  }

  /** Only the position zero, with nothing else, packs to zero. */
  lemma PackZero(k: Cookie)
    requires Fits(k)
    ensures Pack(k) == 0 <==> k == Cookie(0, 0, 0, false, 0)
  {
    PackRoundTrips(k);
    PackRoundTrips(Cookie(0, 0, 0, false, 0));
    PackIsNested(Cookie(0, 0, 0, false, 0));
  }
}
