/** What a ring carries: `[u32 len][payload]` records laid end to end in a circular
    region, and the arithmetic of cursor words that wrap. */
module Records {
  import opened Bits
  import opened Circular

  type byte = x: int | 0 <= x < 256
  type bytes = seq<byte>

  const W32 := 0x1_0000_0000
  const W64 := 0x1_0000_0000_0000_0000

  datatype Option<+T> = None | Some(value: T)

  /** The low `w` bytes of `n`, least significant first. */
  function Le(n: nat, w: nat): (s: bytes)
    ensures |s| == w
    decreases w, n  // `n` too, so that a literal width does not unroll the whole word
  {
    if w == 0 then [] else [n % 256] + Le(n / 256, w - 1)
  }

  function FromLe(s: bytes): nat {
    if s == [] then 0 else s[0] + 256 * FromLe(s[1..])
  }

  lemma {:induction false} LeRoundTrip(n: nat, w: nat)
    requires n < Pow2(8 * w)
    ensures FromLe(Le(n, w)) == n
  {
    if w > 0 {
      assert Pow2(8 * w) == 256 * Pow2(8 * (w - 1)) by {
        Pow2Add(8, 8 * (w - 1));
        assert Pow2(8) == 256;
      }
      LeRoundTrip(n / 256, w - 1);
      assert Le(n, w)[1..] == Le(n / 256, w - 1);
    }
  }

  lemma Pow2Words()
    ensures Pow2(32) == W32 && Pow2(64) == W64
  {
    assert Pow2(8) == 256;
    assert Pow2(16) == 65536 by { Pow2Add(8, 8); }
    assert Pow2(32) == 65536 * 65536 by { Pow2Add(16, 16); }
    Pow2Add(32, 32);
  }

  /** Byte `i` stands for `256^i`. */
  lemma {:induction false} LeByte(n: nat, w: nat, i: nat)
    requires i < w
    ensures Le(n, w)[i] == n / Pow2(8 * i) % 256
    decreases i
  {
    if i > 0 {
      LeByte(n / 256, w - 1, i - 1);
      Pow2Add(8, 8 * (i - 1));
      assert Pow2(8) == 256;
      DivTwice(n, 256, Pow2(8 * (i - 1)));
      assert 8 + 8 * (i - 1) == 8 * i;
    } else {
      assert Pow2(0) == 1;
    }
  }

  lemma DivTwice(n: nat, a: nat, b: nat)
    requires a > 0 && b > 0
    ensures a * b > 0 && n / a / b == n / (a * b)
  {
    MulAtLeast(a, b);
    var q, r := n / a, n % a;
    var q', r' := q / b, q % b;
    assert n == a * (b * q' + r') + r;
    assert a * (b * q') == (a * b) * q';
    assert n == (a * b) * q' + (a * r' + r);
    assert a * r' + r < a * b by {
      assert a * (b - r') >= a by { MulAtLeast(a, b - r'); }
      assert a * (b - r') == a * b - a * r';
    }
    QuotientUnique(n, a * b, q', a * r' + r);
  }

  lemma QuotientUnique(n: nat, m: nat, q: nat, r: nat)
    requires m > 0 && n == m * q + r && r < m
    ensures n / m == q
  {
    var d := n / m - q;
    assert m * d == r - n % m;
    if d > 0 { MulAtLeast(m, d); } else if d < 0 { MulAtLeast(m, -d); }
  }

  /** A little-endian u32 survives its four bytes. */
  lemma Le32(n: nat)
    requires n < W32
    ensures FromLe(Le(n, 4)) == n
  {
    Pow2Words();
    LeRoundTrip(n, 4);
  }

  // ---- records ----------------------------------------------------------

  /** One record on the wire: the length prefix, then the payload. */
  function Enc(rec: bytes): (s: bytes)
    ensures |s| == 4 + |rec|
  {
    Le(|rec| % W32, 4) + rec
  }

  function EncAll(q: seq<bytes>): bytes {
    if q == [] then [] else Enc(q[0]) + EncAll(q[1..])
  }

  lemma {:induction false} EncAllAppend(q: seq<bytes>, rec: bytes)
    ensures EncAll(q + [rec]) == EncAll(q) + Enc(rec)
  {
    if q == [] {
      assert EncAll([rec]) == Enc(rec) + EncAll([rec][1..]);
    } else {
      EncAllAppend(q[1..], rec);
      assert (q + [rec])[1..] == q[1..] + [rec];
    }
  }

  /** The length prefix of the record at the front determines that record. */
  lemma EncFront(q: seq<bytes>)
    requires q != [] && |q[0]| < W32
    ensures |EncAll(q)| >= 4 + |q[0]|
    ensures FromLe(EncAll(q)[..4]) == |q[0]|
    ensures EncAll(q)[4..4 + |q[0]|] == q[0]
    ensures EncAll(q)[4 + |q[0]|..] == EncAll(q[1..])
  {
    var w, r, rest := Le(|q[0]|, 4), q[0], EncAll(q[1..]);
    assert |r| % W32 == |r|;
    assert EncAll(q) == w + r + rest;
    Parts(w, r, rest);
    assert FromLe(w) == |r| by { Le32(|r|); }
  }

  lemma Parts(w: bytes, r: bytes, rest: bytes)
    ensures var s := w + r + rest;
      s[..|w|] == w && s[|w|..|w| + |r|] == r && s[|w| + |r|..] == rest
  {}

  // ---- records in a circular region ------------------------------------

  /** Between the cursors lie the encodings of `q`, end to end, and nothing else. */
  ghost predicate Layout(data: bytes, t: nat, h: nat, q: seq<bytes>) {
    && 0 < |data| <= W32
    && t <= h <= t + |data|
    && Win(data, t, h - t) == EncAll(q)
    && forall i :: 0 <= i < |q| ==> |q[i]| < W32
  }

  /** Nothing lies between equal cursors, and something between unequal ones. */
  lemma LayoutEmpty(data: bytes, t: nat, h: nat, q: seq<bytes>)
    requires Layout(data, t, h, q)
    ensures h - t == |EncAll(q)|
    ensures t == h <==> q == []
  {
    if q != [] { EncFront(q); }
  }

  /** Writing a record at the producer's cursor, prefix then payload, appends it to
      the queue and touches no byte the consumer has yet to read. */
  lemma LayoutPush(data: bytes, t: nat, h: nat, q: seq<bytes>, len: bytes, rec: bytes, now: bytes)
    requires Layout(data, t, h, q) && h - t + 4 + |rec| <= |data|
    requires len == Le(|rec| % W32, 4)
    requires now == Splice(Splice(data, h, len), h + 4, rec)
    ensures Layout(now, t, h + 4 + |rec|, q + [rec])
    ensures Win(now, t, h - t) == Win(data, t, h - t)
  {
    SpliceTwice(data, t, h, len, h + 4, rec, h + 4 + |rec|);
    LayoutExtends(data, t, h, q, rec, now);
  }

  lemma LayoutExtends(data: bytes, t: nat, h: nat, q: seq<bytes>, rec: bytes, now: bytes)
    requires Layout(data, t, h, q) && h - t + 4 + |rec| <= |data| == |now|
    requires Win(now, t, h + 4 + |rec| - t) == Win(data, t, h - t) + (Le(|rec| % W32, 4) + rec)
    ensures Layout(now, t, h + 4 + |rec|, q + [rec])
  {
    EncAllAppend(q, rec);
    hide Win, EncAll, Le;
  }

  /** The bytes at the consumer's cursor are the front record's, and stepping over
      them leaves the rest of the queue. */
  lemma LayoutPop(data: bytes, t: nat, h: nat, q: seq<bytes>)
    requires Layout(data, t, h, q) && q != []
    ensures var n := |q[0]|;
      && t + 4 + n <= h
      && FromLe(Win(data, t, 4)) == n && Win(data, t + 4, n) == q[0]
      && Layout(data, t + 4 + n, h, q[1..])
  {
    var n, all := |q[0]|, EncAll(q);
    EncFront(q);
    var first, rest := Win(data, t, 4 + n), Win(data, t + 4 + n, h - t - 4 - n);
    assert all == first + rest by { WinSplit(data, t, 4 + n, h - t - 4 - n); }
    assert rest == all[4 + n..];
    assert first == Win(data, t, 4) + Win(data, t + 4, n) by { WinSplit(data, t, 4, n); }
    assert Win(data, t, 4) == all[..4];
    assert Win(data, t + 4, n) == all[4..4 + n];
    assert h - (t + 4 + n) == h - t - 4 - n;
  }

  // ---- cursors that wrap at 2^64 ---------------------------------------

  lemma ModMod(x: nat, c: nat, d: nat)
    requires c > 0 && d > 0
    ensures c * d > 0 && x % (c * d) % c == x % c
  {
    var m := c * d;
    MulAtLeast(c, d);
    var q, r := x / m, x % m;
    assert x == m * q + r;
    var q', r' := r / c, r % c;
    assert r == c * q' + r';
    calc {
      m * q + c * q';
      c * (d * q) + c * q';
      c * (d * q + q');
    }
    ModUnique(x, c, d * q + q', r');
  }

  /** A power-of-two capacity divides the range of the cursor word, so masking
      the wrapped cursor finds the same byte as the cursor that never wraps. */
  lemma WrappedIndex(x: nat, k: nat)
    requires k <= 64
    ensures And(x % W64, Pow2(k) - 1) == Idx(x % W64, Pow2(k)) == Idx(x, Pow2(k))
  {
    var w, c, d := x % W64, Pow2(k), Pow2(64 - k);
    AndMask(w, k);
    IdxIsMod(w, c);
    IdxIsMod(x, c);
    Pow2Words();
    Pow2Add(k, 64 - k);
    ModMod(x, c, d);
  }

  /** The wrapped difference of two wrapped cursors is their true distance. */
  lemma WrappedDistance(h: nat, t: nat)
    requires t <= h < t + W64
    ensures (h % W64 - t % W64) % W64 == h - t
  {}

  lemma WrappedAdd(x: nat, n: nat)
    ensures (x % W64 + n) % W64 == (x + n) % W64
  {}
}
