/** The connectors' encoders and decoders, loop by loop. Go and C compute on 64-bit
    words, Python and TypeScript on integers of unbounded width; what they write and
    read is the same. */
module Codecs {
  import opened Bits
  import opened Records
  import opened Avro

  // ---- zig-zag, as each computes it -------------------------------------

  function ToU64(v: int): nat
    requires IsI64(v)
  {
    if v >= 0 then v else v + W64
  }

  function ToI64(n: nat): (v: int)
    requires n < W64
    ensures IsI64(v) && ToU64(v) == n
  {
    if n < 0x8000_0000_0000_0000 then n else n - W64
  }

  /** `(v << 1) ^ (v >> 63)` on 64-bit words. */
  function ZigZagWord(v: int): nat
    requires IsI64(v)
  {
    Xor(2 * ToU64(v) % W64, if v < 0 then W64 - 1 else 0)
  }

  /** `((v << 1) ^ (v >> 63)) & (2^64 - 1)` on unbounded integers. */
  function ZigZagBig(v: int): nat
    requires IsI64(v)
  {
    var x := IntXor(2 * v, v / 0x8000_0000_0000_0000);
    if x >= 0 then And(x, W64 - 1) else 0   // shown never negative
  }

  lemma ZigZagForms(v: int)
    requires IsI64(v)
    ensures ZigZagWord(v) == ZigZag(v) == ZigZagBig(v)
    ensures IntXor(2 * v, v / 0x8000_0000_0000_0000) >= 0
  {
    hide Xor, And, Pow2;
    Pow2Words();
    var n := ZigZag(v);
    ModUnique(n, W64, 0, n);
    AndMask(n, 64);
    XorNothing(n);
    if v < 0 {
      var u := 2 * ToU64(v) % W64;
      ModUnique(2 * ToU64(v), W64, 1, W64 + 2 * v);
      XorOnes(u, 64);
      assert v / 0x8000_0000_0000_0000 == -1;
    } else {
      ModUnique(2 * v, W64, 0, 2 * v);
      assert v / 0x8000_0000_0000_0000 == 0;
    }
  }

  lemma XorNothing(x: nat)
    ensures Xor(x, 0) == x
  {}

  /** `int64(n >> 1) ^ -int64(n & 1)` on 64-bit words. */
  function UnZigZagWord(n: nat): int
    requires n < W64
  {
    var x := Xor(n / 2, if n % 2 == 1 then W64 - 1 else 0);
    if x < W64 then ToI64(x) else 0   // shown to be a word
  }

  /** `(n >> 1) ^ -(n & 1)` on unbounded integers. */
  function UnZigZagBig(n: nat): int {
    IntXor(n / 2, -(n % 2))
  }

  lemma UnZigZagForms(n: nat)
    ensures UnZigZagBig(n) == UnZigZag(n)
    ensures n < W64 ==> UnZigZagWord(n) == UnZigZag(n) && Xor(n / 2, if n % 2 == 1 then W64 - 1 else 0) < W64
  {
    hide Xor, Pow2;
    Pow2Words();
    XorNothing(n / 2);
    if n < W64 { XorOnes(n / 2, 64); }
  }

  // ---- encoders ---------------------------------------------------------

  class Encoder {
    var buf: bytes

    constructor ()
      ensures buf == []
    {
      buf := [];
    }

    /** Go's `putVarint` and C's `avro_put_varint`. */
    method PutVarintWord(n: nat)
      requires n < W64
      modifies this
      ensures buf == old(buf) + Varint(n)
    {
      hide And, AndNot, Or;
      var zz := n;
      while AndNot(zz, 0x7f) != 0
        invariant buf + Varint(zz) == old(buf) + Varint(n)
        decreases zz
      {
        SevenBits(zz);
        buf := buf + [Or(And(zz, 0x7f), 0x80)];
        zz := zz / 128;
      }
      SevenBits(zz);
      buf := buf + [zz % 256];
    }

    /** Python's and TypeScript's, whose last byte is masked. */
    method PutVarintBig(n: nat)
      modifies this
      ensures buf == old(buf) + Varint(n)
    {
      hide And, AndNot, Or;
      var zz := n;
      while AndNot(zz, 0x7f) != 0
        invariant buf + Varint(zz) == old(buf) + Varint(n)
        decreases zz
      {
        SevenBits(zz);
        buf := buf + [Or(And(zz, 0x7f), 0x80)];
        zz := zz / 128;
      }
      SevenBits(zz);
      buf := buf + [And(zz, 0x7f)];
    }

    /** Go's `PutLong` and C's `avro_put_long`. */
    method PutLongWord(v: int)
      requires IsI64(v)
      modifies this
      ensures buf == old(buf) + EncLong(v)
    {
      ZigZagForms(v);
      ZigZagInverse(v, 0);
      PutVarintWord(ZigZagWord(v));
    }

    /** Python's `put_long` and TypeScript's `putLong`. */
    method PutLongBig(v: int)
      requires IsI64(v)
      modifies this
      ensures buf == old(buf) + EncLong(v)
    {
      ZigZagForms(v);
      PutVarintBig(ZigZagBig(v));
    }

    method PutBytes(b: bytes)
      requires IsI64(|b|)
      modifies this
      ensures buf == old(buf) + EncString(b)
    {
      PutLongWord(|b|);
      buf := buf + b;
    }
  }

  // ---- decoders ---------------------------------------------------------

  /** How many bytes TypeScript's loop looks at: one past the end if it must. */
  function Looked(data: bytes, pos: nat): nat {
    if Ended(data, pos) then Digits(data, pos) else Digits(data, pos) + 1
  }

  /** `x << s`. */
  function Shl(x: nat, s: nat): nat { x * Pow2(s) }

  /** The first `k` bytes from `pos` on all say that more follow. */
  ghost predicate Continues(data: bytes, pos: nat, k: nat) {
    pos + k <= |data| && forall i :: pos <= i < pos + k ==> data[i] >= 128
  }

  lemma {:induction false} DigitsStep(data: bytes, pos: nat, k: nat)
    requires Continues(data, pos, k) && pos + k < |data|
    ensures data[pos + k] < 128 ==> Ended(data, pos) && Digits(data, pos) == k + 1
    ensures data[pos + k] >= 128 ==> Continues(data, pos, k + 1) && (Ended(data, pos) ==> Digits(data, pos) > k + 1)
    decreases k
  {
    if k > 0 { DigitsStep(data, pos + 1, k - 1); } else { assert Ended(data, pos + 1) ==> Digits(data, pos + 1) >= 1; }
  }

  /** The data runs out. */
  lemma {:induction false} DigitsEnd(data: bytes, pos: nat, k: nat)
    requires Continues(data, pos, k) && pos + k == |data|
    ensures Digits(data, pos) == k && !Ended(data, pos)
    decreases k
  {
    if k > 0 { DigitsEnd(data, pos + 1, k - 1); }
  }

  /** One turn of a decoder's loop, on words of 64 bits and on unbounded ones. */
  lemma ByteStep(data: bytes, pos: nat, k: nat, b: byte)
    requires Continues(data, pos, k) && pos + k < |data| && b == data[pos + k]
    ensures var v, v', d := Value(data, pos, k), Value(data, pos, k + 1), And(b, 0x7f);
      Or(v, Shl(d, 7 * k)) == v' && Or(v % W64, Shl(d, 7 * k) % W64) == v' % W64
    ensures And(b, 0x80) == 0 ==> Ended(data, pos) && Digits(data, pos) == k + 1
    ensures And(b, 0x80) != 0 ==> Continues(data, pos, k + 1) && (Ended(data, pos) ==> Digits(data, pos) > k + 1)
  {
    hide And, Or, Pow2, Value, Digits, Ended, Continues;
    DigitsStep(data, pos, k);
    ValueStep(data, pos, k);
    HighBit(b);
    OrWrapped(Value(data, pos, k), b % 128, 7 * k);
    OrDisjoint(Value(data, pos, k), b % 128, 7 * k);
  }

  lemma NoByteYet(data: bytes, pos: nat)
    requires pos <= |data|
    ensures Continues(data, pos, 0) && Value(data, pos, 0) == 0 && (Ended(data, pos) ==> Digits(data, pos) > 0)
  {}

  lemma NothingThere(data: bytes, pos: nat)
    ensures pos >= |data| ==> !Ended(data, pos) && Digits(data, pos) == 0 == Value(data, pos, Digits(data, pos))
  {}

  class Decoder {
    const data: bytes
    var pos: nat

    constructor (data: bytes)
      ensures this.data == data && pos == 0
    {
      this.data := data;
      pos := 0;
    }

    /** Go's `varint`: what there is of it, when the data runs out, and only the low 64
        bits of it, when there is too much. */
    method VarintGo() returns (result: nat)
      requires pos <= |data|
      modifies this`pos
      ensures pos == old(pos) + Digits(data, old(pos))
      ensures result == Value(data, old(pos), Digits(data, old(pos))) % W64
    {
      ghost var start := pos;
      hide And, Or, Shl, Value, Digits, Ended, Continues;
      NoByteYet(data, pos);
      result := 0;
      var shift := 0;
      while pos < |data|
        invariant start <= pos <= |data| && shift == 7 * (pos - start)
        invariant Continues(data, start, pos - start)
        invariant result == Value(data, start, pos - start) % W64
      {
        var b := data[pos];
        ByteStep(data, start, pos - start, b);
        pos := pos + 1;
        result := Or(result, Shl(And(b, 0x7f), shift) % W64);
        if And(b, 0x80) == 0 { return; }
        shift := shift + 7;
      }
      DigitsEnd(data, start, pos - start);
    }

    /** C's `avro_get_varint`: nothing, when the data runs out or ten bytes do not end it. */
    method VarintC() returns (r: Option<nat>)
      requires pos <= |data|
      modifies this`pos
      ensures r.Some? <==> Ended(data, old(pos)) && Digits(data, old(pos)) <= 10
      ensures r.Some? ==>
        pos == old(pos) + Digits(data, old(pos)) && r.value == Value(data, old(pos), Digits(data, old(pos))) % W64
      ensures old(pos) <= pos <= |data|
    {
      ghost var start := pos;
      hide And, Or, Shl, Value, Digits, Ended, Continues;
      NoByteYet(data, pos);
      var result, shift := 0, 0;
      while pos < |data|
        invariant start <= pos <= |data| && shift == 7 * (pos - start) && shift <= 63
        invariant Ended(data, start) ==> Digits(data, start) > pos - start
        invariant Continues(data, start, pos - start)
        invariant result == Value(data, start, pos - start) % W64
      {
        var b := data[pos];
        ByteStep(data, start, pos - start, b);
        pos := pos + 1;
        result := Or(result, Shl(And(b, 0x7f), shift) % W64);
        if And(b, 0x80) == 0 { return Some(result); }
        shift := shift + 7;
        if shift > 63 { return None; }
      }
      DigitsEnd(data, start, pos - start);
      return None;
    }

    /** TypeScript's `varint`, to which bytes past the end read as none at all, wherever
        the cursor is. */
    method VarintTs() returns (result: nat)
      modifies this`pos
      ensures result == Value(data, old(pos), Digits(data, old(pos)))
      ensures pos == old(pos) + Looked(data, old(pos))
    {
      ghost var start := pos;
      if pos <= |data| { NoByteYet(data, pos); }
      NothingThere(data, pos);
      hide And, Or, Shl, Value, Digits, Ended, Continues;
      result := 0;
      var shift := 0;
      while true
        invariant start <= pos && shift == 7 * (pos - start) && (pos > start ==> pos <= |data|)
        invariant pos <= |data| ==> Continues(data, start, pos - start) && result == Value(data, start, pos - start)
        invariant pos == start ==> result == 0
        decreases |data| - pos
      {
        if pos >= |data| {       // undefined & 0x7f and undefined & 0x80 are both 0
          if pos == |data| { DigitsEnd(data, start, pos - start); }
          pos := pos + 1;
          return;
        }
        var b := data[pos];
        ByteStep(data, start, pos - start, b);
        pos := pos + 1;
        result := Or(result, Shl(And(b, 0x7f), shift));
        if And(b, 0x80) == 0 { return; }
        shift := shift + 7;
      }
    }

    // ---- longs -----------------------------------------------------------

    method LongGo() returns (v: int)
      requires pos <= |data|
      modifies this`pos
      ensures pos == old(pos) + Digits(data, old(pos)) && IsI64(v)
      ensures v == UnZigZag(Value(data, old(pos), Digits(data, old(pos))) % W64)
      ensures forall w :: IsI64(w) && At(data, old(pos), EncLong(w)) ==> v == w && pos == old(pos) + |EncLong(w)|
    {
      var n := VarintGo();
      UnZigZagForms(n);
      v := UnZigZagWord(n);
      LongReads(data, old(pos));
    }

    /** C's `avro_get_long_r`, to which an unreadable long is 0. */
    method LongC() returns (v: int)
      requires pos <= |data|
      modifies this`pos
      ensures old(pos) <= pos <= |data| && IsI64(v)
      ensures v == if Ended(data, old(pos)) && Digits(data, old(pos)) <= 10
                   then UnZigZag(Value(data, old(pos), Digits(data, old(pos))) % W64) else 0
      ensures forall w :: IsI64(w) && At(data, old(pos), EncLong(w)) ==> v == w && pos == old(pos) + |EncLong(w)|
    {
      var n := VarintC();
      LongReads(data, old(pos));
      if n.None? { return 0; }
      UnZigZagForms(n.value);
      v := UnZigZagWord(n.value);
    }

    method LongTs() returns (v: int)
      modifies this`pos
      ensures v == UnZigZag(Value(data, old(pos), Digits(data, old(pos)))) && pos == old(pos) + Looked(data, old(pos))
      ensures forall w :: IsI64(w) && At(data, old(pos), EncLong(w)) ==> v == w && pos == old(pos) + |EncLong(w)|
    {
      var n := VarintTs();
      LongReads(data, old(pos));
      UnZigZagForms(n);
      v := UnZigZagBig(n);
    }
  }

  // ---- Python's cursor --------------------------------------------------
  // Python indexes from the end when the index is negative, and its cursor can become
  // negative: a string of negative length moves it back. Reading on from a cursor from
  // `-|data|` up to `|data|` is reading on in the data laid end to end twice.

  function Twice(data: bytes): bytes { data + data }

  predicate Indexable(data: bytes, pos: int) { -|data| <= pos < |data| }

  /** `data[pos]`, or an IndexError. */
  function ByteAt(data: bytes, pos: int): Option<byte> {
    if !Indexable(data, pos) then None else Some(if pos < 0 then data[pos + |data|] else data[pos])
  }

  lemma ByteAtTwice(data: bytes, pos: int)
    requires Indexable(data, pos)
    ensures ByteAt(data, pos) == Some(Twice(data)[pos + |data|])
  {}

  /** The varint at a cursor, and where it ends; or an IndexError. */
  function VarintAt(data: bytes, pos: int): (r: Option<(nat, int)>)
    ensures r.Some? ==> Indexable(data, pos) && pos < r.value.1 <= |data|
  {
    var d := Twice(data);
    if !Indexable(data, pos) || !Ended(d, pos + |data|) then None
    else
      var n := Digits(d, pos + |data|);
      EndedTakes(d, pos + |data|);
      Some((Value(d, pos + |data|, n), pos + n))
  }

  lemma EndedTakes(data: bytes, pos: nat)
    requires Ended(data, pos)
    ensures 0 < Digits(data, pos) <= |data| - pos
  {}

  function LongAt(data: bytes, pos: int): (r: Option<(int, int)>)
    ensures r.Some? ==> Indexable(data, pos) && pos < r.value.1 <= |data|
  {
    match VarintAt(data, pos)
    case None => None
    case Some((n, p)) => Some((UnZigZag(n), p))
  }

  class PythonDecoder {
    const data: bytes
    var pos: int

    constructor (data: bytes)
      ensures this.data == data && pos == 0
    {
      this.data := data;
      pos := 0;
    }

    /** `_varint`, from any cursor; None is an IndexError. */
    method Varint() returns (r: Option<nat>)
      modifies this`pos
      ensures VarintAt(data, old(pos)).None? ==> r == None
      ensures VarintAt(data, old(pos)).Some? ==>
        r == Some(VarintAt(data, old(pos)).value.0) && pos == VarintAt(data, old(pos)).value.1
    {
      if !Indexable(data, pos) { return None; }
      ghost var d, start := Twice(data), pos + |data|;
      ghost var first := pos;
      hide And, Or, Shl, Value, Digits, Ended, Continues, Twice;
      assert |d| == 2 * |data| by { TwiceLength(data); }
      NoByteYet(d, start);
      var result, shift := 0, 0;
      while true
        invariant first <= pos <= |data| && shift == 7 * (pos - first) && pos + |data| == start + (pos - first)
        invariant Continues(d, start, pos - first)
        invariant result == Value(d, start, pos - first)
        decreases |data| - pos
      {
        var next := ByteAt(data, pos);
        if next.None? {
          DigitsEnd(d, start, pos - first);
          return None;
        }
        var b := next.value;
        ByteAtTwice(data, pos);
        ByteStep(d, start, pos - first, b);
        pos := pos + 1;
        result := Or(result, Shl(And(b, 0x7f), shift));
        if And(b, 0x80) == 0 { return Some(result); }
        shift := shift + 7;
      }
    }

    /** `get_long`, from any cursor. */
    method Long() returns (r: Option<int>)
      modifies this`pos
      ensures LongAt(data, old(pos)).None? ==> r == None
      ensures LongAt(data, old(pos)).Some? ==>
        r == Some(LongAt(data, old(pos)).value.0) && pos == LongAt(data, old(pos)).value.1
      ensures forall w :: IsI64(w) && old(pos) >= 0 && At(data, old(pos), EncLong(w)) ==>
        r == Some(w) && pos == old(pos) + |EncLong(w)|
    {
      hide VarintAt;
      forall w | IsI64(w) && pos >= 0 && At(data, pos, EncLong(w))
        ensures LongAt(data, pos) == Some((w, pos + |EncLong(w)|))
      {
        EncodedLongAt(data, pos, w);
      }
      var n := Varint();
      if n.None? { return None; }
      UnZigZagForms(n.value);
      return Some(UnZigZagBig(n.value));
    }
  }

  lemma TwiceLength(data: bytes)
    ensures |Twice(data)| == 2 * |data|
  {}

  lemma AtTwice(data: bytes, pos: nat, enc: bytes)
    requires At(data, pos, enc)
    ensures At(Twice(data), pos + |data|, enc)
  {
    var d := Twice(data);
    assert d[pos + |data|..pos + |data| + |enc|] == data[pos..pos + |enc|];
  }

  /** An encoded long is what Python reads where it is. */
  lemma EncodedLongAt(data: bytes, pos: nat, w: int)
    requires IsI64(w) && At(data, pos, EncLong(w))
    ensures LongAt(data, pos) == Some((w, pos + |EncLong(w)|))
  {
    AtTwice(data, pos, EncLong(w));
    LongReads(Twice(data), pos + |data|);
    LongSize(w);
    hide EncLong, Twice;
  }

  /** A byte without the high bit is a whole varint. */
  lemma OneByteLong(data: bytes, pos: int)
    requires Indexable(data, pos) && ByteAt(data, pos).value < 128
    ensures LongAt(data, pos) == Some((UnZigZag(ByteAt(data, pos).value), pos + 1))
  {
    ByteAtTwice(data, pos);
    var d, p := Twice(data), pos + |data|;
    assert Digits(d, p) == 1;
    assert Value(d, p, 1) == d[p] % 128 + 128 * Value(d, p + 1, 0);
  }

  /** What every decoder finds where a long was encoded. */
  lemma LongReads(data: bytes, pos: nat)
    ensures forall w :: IsI64(w) && At(data, pos, EncLong(w)) ==>
      && Ended(data, pos) && Digits(data, pos) == |EncLong(w)| <= 10
      && Value(data, pos, Digits(data, pos)) == ZigZag(w) < W64 && ZigZag(w) % W64 == ZigZag(w)
      && UnZigZag(ZigZag(w)) == w
  {
    forall w | IsI64(w) && At(data, pos, EncLong(w))
      ensures Ended(data, pos) && Digits(data, pos) == |EncLong(w)| <= 10
      ensures Value(data, pos, Digits(data, pos)) == ZigZag(w) < W64 && ZigZag(w) % W64 == ZigZag(w)
      ensures UnZigZag(ZigZag(w)) == w
    {
      VarintReads(data, pos, ZigZag(w));
      ZigZagInverse(w, 0);
      LongSize(w);
    }
  }
}
