/** Cursors into a circular region, and the windows they open on it. */
module Circular {
  import opened Bits

  /** Where cursor `pos` falls in a region of `c` bytes: the remainder, by repeated
      subtraction, which keeps the arithmetic of windows linear. */
  function Idx(pos: nat, c: nat): (i: nat)
    requires c > 0
    ensures i < c
  {
    if pos < c then pos else Idx(pos - c, c)
  }

  lemma {:induction false} IdxIsMod(pos: nat, c: nat)
    requires c > 0
    ensures Idx(pos, c) == pos % c
  {
    if pos < c {
      ModUnique(pos, c, 0, pos);
    } else {
      IdxIsMod(pos - c, c);
      ModSame(pos - c, c);
    }
  }

  lemma ModSame(a: nat, c: nat)
    requires c > 0
    ensures (a + c) % c == a % c
  {
    var q := a / c;
    assert c * (q + 1) == c * q + c;
    ModUnique(a + c, c, q + 1, a % c);
  }

  /** A cursor step shorter than the region wraps at most once. */
  lemma {:induction false} IdxAdd(a: nat, i: nat, c: nat)
    requires i < c
    ensures Idx(a + i, c) == if Idx(a, c) + i < c then Idx(a, c) + i else Idx(a, c) + i - c
  {
    if a >= c { IdxAdd(a - c, i, c); }
  }

  /** The `n` bytes found from cursor `pos` on, wrapping at the end of `data`. */
  function Win<T>(data: seq<T>, pos: nat, n: nat): (w: seq<T>)
    requires |data| > 0
    ensures |w| == n
  {
    seq(n, i requires 0 <= i => data[Idx(pos + i, |data|)])
  }

  /** `data` after `src` is copied in from cursor `pos` on. */
  function Splice<T>(data: seq<T>, pos: nat, src: seq<T>): (r: seq<T>)
    requires 0 < |data| && |src| <= |data|
    ensures |r| == |data|
  {
    seq(|data|, j requires 0 <= j < |data| => SpliceAt(data, Idx(pos, |data|), src, j))
  }

  function SpliceAt<T>(data: seq<T>, idx: nat, src: seq<T>, j: nat): T
    requires |src| <= |data| && j < |data| && idx < |data|
  {
    if idx <= j < idx + |src| then src[j - idx]
    else if j + |data| < idx + |src| then src[j + |data| - idx]
    else data[j]
  }

  /** Element `i` of a window, before the wrap and after it. */
  lemma WinAt<T>(data: seq<T>, pos: nat, n: nat, i: nat)
    requires 0 < |data| && i < n <= |data|
    ensures var idx := Idx(pos, |data|);
      if idx + i < |data| then Win(data, pos, n)[i] == data[idx + i]
      else Win(data, pos, n)[i] == data[idx + i - |data|]
  {
    IdxAdd(pos, i, |data|);
  }

  /** What is copied out in one or two pieces is the window. */
  lemma WinPieces<T>(data: seq<T>, pos: nat, out: seq<T>)
    requires 0 < |data| && |out| <= |data|
    requires var idx := Idx(pos, |data|);
      && (forall i :: 0 <= i < |out| && idx + i < |data| ==> out[i] == data[idx + i])
      && (forall i :: 0 <= i < |out| && idx + i >= |data| ==> out[i] == data[idx + i - |data|])
    ensures out == Win(data, pos, |out|)
  {
    var win := Win(data, pos, |out|);
    forall i | 0 <= i < |out| ensures out[i] == win[i] {
      WinAt(data, pos, |out|, i);
    }
  }

  lemma WinSplit<T>(data: seq<T>, pos: nat, m: nat, n: nat)
    requires |data| > 0
    ensures Win(data, pos, m + n) == Win(data, pos, m) + Win(data, pos + m, n)
  {
    var whole, parts := Win(data, pos, m + n), Win(data, pos, m) + Win(data, pos + m, n);
    forall i | 0 <= i < m + n ensures whole[i] == parts[i] {
      if i >= m { assert pos + m + (i - m) == pos + i; }
    }
  }

  /** What was written reads back. */
  lemma SpliceReads<T>(data: seq<T>, pos: nat, src: seq<T>)
    requires 0 < |data| && |src| <= |data|
    ensures Win(Splice(data, pos, src), pos, |src|) == src
  {
    var win := Win(Splice(data, pos, src), pos, |src|);
    forall i | 0 <= i < |src| ensures win[i] == src[i] {
      IdxAdd(pos, i, |data|);
    }
  }

  lemma SpliceKeepsAt<T>(data: seq<T>, pos: nat, src: seq<T>, q: nat)
    requires 0 < |data| && q < pos && pos - q + |src| <= |data|
    ensures Splice(data, pos, src)[Idx(q, |data|)] == data[Idx(q, |data|)]
  {
    if src != [] {
      IdxAdd(q, pos - q, |data|);
      assert q + (pos - q) == pos;
    }
  }

  /** A write leaves alone every byte of a window that ends no later than the write
      begins, as long as window and write together fit the region. */
  lemma SpliceKeepsPart<T>(data: seq<T>, pos: nat, src: seq<T>, from: nat, n: nat)
    requires 0 < |data| && from + n <= pos && pos - from + |src| <= |data|
    ensures Win(Splice(data, pos, src), from, n) == Win(data, from, n)
  {
    var now, was := Win(Splice(data, pos, src), from, n), Win(data, from, n);
    forall i | 0 <= i < n ensures now[i] == was[i] {
      SpliceKeepsAt(data, pos, src, from + i);
    }
  }

  /** Writing at the end of a window extends it by what was written. */
  lemma SpliceExtends<T>(data: seq<T>, t: nat, h: nat, src: seq<T>, e: nat)
    requires 0 < |data| && t <= h && e == h + |src| && e - t <= |data|
    ensures Win(Splice(data, h, src), t, e - t) == Win(data, t, h - t) + src
  {
    SpliceKeepsPart(data, h, src, t, h - t);
    SpliceReads(data, h, src);
    WinSplit(Splice(data, h, src), t, h - t, |src|);
    assert h - t + |src| == e - t;
  }

  /** Two writes end to end, from `h` to `m` and from `m` to `e`, at the end of a window. */
  lemma SpliceTwice<T>(data: seq<T>, t: nat, h: nat, a: seq<T>, m: nat, b: seq<T>, e: nat)
    requires 0 < |data| && t <= h && m == h + |a| && e == m + |b| && e - t <= |data|
    ensures var now := Splice(Splice(data, h, a), m, b);
      Win(now, t, e - t) == Win(data, t, h - t) + (a + b) && Win(now, t, h - t) == Win(data, t, h - t)
  {
    var mid, was := Splice(data, h, a), Win(data, t, h - t);
    SpliceExtends(data, t, h, a, m);
    SpliceExtends(mid, t, m, b, e);
    assert was + a + b == was + (a + b);
    SpliceKeepsPart(mid, m, b, t, h - t);
    SpliceKeepsPart(data, h, a, t, h - t);
  }
}
