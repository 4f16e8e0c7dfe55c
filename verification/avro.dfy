/** Longs in the binary encoding of Apache Avro 1.11 ("Binary Encoding", primitive
    types): zig-zag, then seven bits to a byte, least significant first. */
module Avro {
  import opened Bits
  import opened Records

  predicate IsI64(v: int) { -0x8000_0000_0000_0000 <= v < 0x8000_0000_0000_0000 }

  function ZigZag(v: int): nat { if v >= 0 then 2 * v else -2 * v - 1 }

  function UnZigZag(n: nat): int { if n % 2 == 0 then n / 2 else -(n / 2) - 1 }

  function Varint(n: nat): (s: bytes)
    ensures |s| >= 1
  {
    if n < 128 then [n] else [n % 128 + 128] + Varint(n / 128)
  }

  function EncLong(v: int): bytes { Varint(ZigZag(v)) }

  function EncString(s: bytes): bytes { EncLong(|s|) + s }

  // ---- reading ----------------------------------------------------------

  /** How many bytes the varint at `pos` takes, up to the end of the data. */
  function Digits(data: bytes, pos: nat): (n: nat)
    ensures n > 0 ==> pos + n <= |data|
    decreases |data| - pos
  {
    if pos >= |data| then 0 else if data[pos] < 128 then 1 else 1 + Digits(data, pos + 1)
  }

  /** The varint at `pos` ends before the data does. */
  predicate Ended(data: bytes, pos: nat)
    decreases |data| - pos
  {
    pos < |data| && (data[pos] < 128 || Ended(data, pos + 1))
  }

  /** The number the first `n` bytes from `pos` on stand for. */
  function Value(data: bytes, pos: nat, n: nat): nat
    requires n > 0 ==> pos + n <= |data|
    decreases n
  {
    if n == 0 then 0 else data[pos] % 128 + 128 * Value(data, pos + 1, n - 1)
  }

  /** `enc` is what the data has at `pos`. */
  predicate At(data: bytes, pos: nat, enc: bytes) {
    pos + |enc| <= |data| && data[pos..pos + |enc|] == enc
  }

  lemma AtParts(data: bytes, pos: nat, a: bytes, b: bytes)
    ensures At(data, pos, a + b) <==> At(data, pos, a) && At(data, pos + |a|, b)
  {
    if At(data, pos, a + b) {
      assert data[pos..pos + |a|] == (a + b)[..|a|] == a;
      assert data[pos + |a|..pos + |a| + |b|] == (a + b)[|a|..] == b;
    }
    if At(data, pos, a) && At(data, pos + |a|, b) {
      assert data[pos..pos + |a + b|] == data[pos..pos + |a|] + data[pos + |a|..pos + |a| + |b|];
    }
  }

  /** A varint is read back as itself, and no further, whatever comes after it. */
  lemma {:induction false} VarintReads(data: bytes, pos: nat, n: nat)
    requires At(data, pos, Varint(n))
    ensures Ended(data, pos) && Digits(data, pos) == |Varint(n)| && Value(data, pos, |Varint(n)|) == n
    decreases n
  {
    assert data[pos] == Varint(n)[0];
    if n >= 128 {
      AtParts(data, pos, [n % 128 + 128], Varint(n / 128));
      VarintReads(data, pos + 1, n / 128);
    }
  }

  lemma ZigZagInverse(v: int, n: nat)
    ensures UnZigZag(ZigZag(v)) == v && ZigZag(UnZigZag(n)) == n
    ensures IsI64(v) <==> ZigZag(v) < W64
  {}

  /** One to ten bytes. */
  lemma {:induction false} VarintSize(n: nat, k: nat)
    requires n < Pow2(7 * k) && k >= 1
    ensures 1 <= |Varint(n)| <= k
    decreases k
  {
    assert Pow2(7) == 128;
    if k == 1 {
    } else {
      Pow2Add(7, 7 * (k - 1));
      assert 7 + 7 * (k - 1) == 7 * k;
      VarintSize(n / 128, k - 1);
    }
  }

  lemma LongSize(v: int)
    requires IsI64(v)
    ensures 1 <= |EncLong(v)| <= 10
  {
    Pow2Words();
    Pow2Monotone(64, 70);
    VarintSize(ZigZag(v), 10);
  }

  /** No encoding of a long is the beginning of another, and equal encodings are of
      equal longs. */
  lemma PrefixFree(v: int, w: int, x: bytes, y: bytes)
    requires EncLong(v) + x == EncLong(w) + y
    ensures v == w && x == y
  {
    var data := EncLong(v) + x;
    assert data[0..0 + |EncLong(v)|] == EncLong(v);
    assert data[0..0 + |EncLong(w)|] == (EncLong(w) + y)[0..|EncLong(w)|] == EncLong(w);
    VarintReads(data, 0, ZigZag(v));
    VarintReads(data, 0, ZigZag(w));
    ZigZagInverse(v, 0);
    ZigZagInverse(w, 0);
    assert x == data[|EncLong(v)|..] == y;
  }

  // ---- the arithmetic of the codecs -------------------------------------

  /** One more byte adds its seven bits above those before it. */
  lemma {:induction false} ValueStep(data: bytes, pos: nat, n: nat)
    requires pos + n < |data|
    ensures Value(data, pos, n + 1) == Value(data, pos, n) + data[pos + n] % 128 * Pow2(7 * n)
    ensures Value(data, pos, n) < Pow2(7 * n)
    decreases n
  {
    assert Pow2(7) == 128;
    if n == 0 {
      assert Value(data, pos, 1) == data[pos] % 128 + 128 * Value(data, pos + 1, 0);
    } else {
      ValueStep(data, pos + 1, n - 1);
      Pow2Add(7, 7 * (n - 1));
      assert 7 + 7 * (n - 1) == 7 * n;
      var d, p := data[pos + n] % 128, Pow2(7 * (n - 1));
      assert 128 * (d * p) == d * (128 * p);
    }
  }

  /** The low seven bits, and the test for more. */
  lemma SevenBits(x: nat)
    ensures And(x, 0x7f) == x % 128 && (AndNot(x, 0x7f) == 0 <==> x < 128)
    ensures Or(And(x, 0x7f), 0x80) == x % 128 + 128
  {
    hide And, AndNot, Or;
    assert Pow2(7) == 128;
    AndMask(x, 7);
    AndNotMask(x, 7);
    OrDisjoint(x % 128, 1, 7);
  }

  /** The high bit of a byte. */
  lemma HighBit(b: byte)
    ensures And(b, 0x80) == 0 <==> b < 128
    ensures And(b, 0x7f) == b % 128
  {
    hide And, AndNot, Or;
    SevenBits(b);
    assert Pow2(7) == 128;
    AndBit(b, 7);
  }

  /** `result |= d << shift` on 64-bit words, bits above the word dropped. */
  lemma OrWrapped(v: nat, d: nat, s: nat)
    requires v < Pow2(s)
    ensures Or(v % W64, d * Pow2(s) % W64) == (v + d * Pow2(s)) % W64
  {
    hide Pow2, Or;
    Pow2Words();
    if s >= 64 {
      Pow2Add(64, s - 64);
      ShiftedOut(v, d, Pow2(s - 64), Pow2(s));
      OrNothing(v % W64);
    } else {
      Pow2Add(64 - s, s);
      Pow2Monotone(s, 64);
      var h := Pow2(64 - s);
      EuclidParts(d, h);
      ShiftedPart(v, d, h, Pow2(s), d / h, d % h);
      OrDisjoint(v, d % h, s);
    }
  }

  lemma OrNothing(x: nat)
    ensures Or(x, 0) == x
  {}

  lemma EuclidParts(d: nat, h: nat)
    requires h > 0
    ensures d == h * (d / h) + d % h && d % h < h
  {}

  lemma ShiftedOut(v: nat, d: nat, t: nat, p: nat)
    requires p == W64 * t
    ensures d * p % W64 == 0 && (v + d * p) % W64 == v % W64
  {
    assert d * p == W64 * (d * t);
    ModUnique(d * p, W64, d * t, 0);
    ModUnique(v + d * p, W64, v / W64 + d * t, v % W64);
  }

  lemma ShiftedPart(v: nat, d: nat, h: nat, p: nat, q: nat, e: nat)
    requires h > 0 && h * p == W64 && v < p <= W64 && d == h * q + e && e < h
    ensures d * p % W64 == e * p && (v + d * p) % W64 == v + e * p && v % W64 == v
  {
    assert d * p == W64 * q + e * p by {
      assert (h * q) * p == (h * p) * q;
    }
    assert e * p + p <= W64 by {
      assert (h - 1 - e) * p >= 0;
      assert h * p == (h - 1 - e) * p + e * p + p;
    }
    ModUnique(d * p, W64, q, e * p);
    ModUnique(v + d * p, W64, q, v + e * p);
  }
}
