/** Reading the broker's channel list: an array in blocks, as Apache Avro 1.11 has it
    ("Binary Encoding", arrays). A block is a count and that many items, or the
    negated count, the block's size in bytes, and the items; a zero count ends it. */
module ChannelLists {
  import opened Records
  import opened Avro
  import opened Codecs

  const INT_LIMIT := 0x8000_0000_0000_0000   // 2^63

  datatype Info = Info(id: int, name: bytes, owner: bytes, fp: nat, requiresKey: bool)

  ghost predicate Fits(x: Info) {
    IsI64(x.id) && |x.name| < INT_LIMIT && |x.owner| < INT_LIMIT && x.fp < W64
  }

  /** A fingerprint travels as the signed long of the same 64 bits. */
  function Signed(fp: nat): int { if fp < INT_LIMIT then fp else fp - W64 }

  function EncBool(b: bool): bytes { [if b then 1 else 0] }

  function EncInfo(x: Info): bytes {
    EncLong(x.id) + (EncString(x.name) + (EncString(x.owner) + (EncLong(Signed(x.fp)) + EncBool(x.requiresKey))))
  }

  function EncItems(xs: seq<Info>): bytes {
    if xs == [] then [] else EncInfo(xs[0]) + EncItems(xs[1..])
  }

  /** `size` is the byte size written after a negated count; readers ignore it. */
  datatype Block = Block(items: seq<Info>, size: Option<int>)

  ghost predicate BlockFits(b: Block) {
    && 0 < |b.items| < INT_LIMIT && (forall x :: x in b.items ==> Fits(x))
    && (b.size.Some? ==> IsI64(b.size.value))
  }

  ghost predicate BlocksFit(bs: seq<Block>) {
    forall b :: b in bs ==> BlockFits(b)
  }

  function EncHeader(b: Block): bytes {
    match b.size
    case None => EncLong(|b.items|)
    case Some(n) => EncLong(-|b.items|) + EncLong(n)
  }

  function EncBlocks(bs: seq<Block>): bytes {
    if bs == [] then EncLong(0)
    else EncHeader(bs[0]) + (EncItems(bs[0].items) + EncBlocks(bs[1..]))
  }

  /** What the array is, however it was cut into blocks. */
  function Items(bs: seq<Block>): seq<Info> {
    if bs == [] then [] else bs[0].items + Items(bs[1..])
  }

  // ---- where the parts are ----------------------------------------------

  lemma StringParts(data: bytes, pos: nat, b: bytes)
    requires At(data, pos, EncString(b))
    ensures At(data, pos, EncLong(|b|)) && At(data, pos + |EncLong(|b|)|, b)
  {
    hide At, EncLong;
    AtParts(data, pos, EncLong(|b|), b);
  }

  lemma InfoParts(data: bytes, pos: nat, x: Info)
    requires At(data, pos, EncInfo(x))
    ensures var p1 := pos + |EncLong(x.id)|;
      var p2 := p1 + |EncString(x.name)|;
      var p3 := p2 + |EncString(x.owner)|;
      var p4 := p3 + |EncLong(Signed(x.fp))|;
      && At(data, pos, EncLong(x.id)) && At(data, p1, EncString(x.name)) && At(data, p2, EncString(x.owner))
      && At(data, p3, EncLong(Signed(x.fp))) && At(data, p4, EncBool(x.requiresKey))
      && pos + |EncInfo(x)| == p4 + 1
  {
    hide At, EncLong, EncString;
    var e5, e4, e3 := EncBool(x.requiresKey), EncLong(Signed(x.fp)), EncString(x.owner);
    var e2, e1 := EncString(x.name), EncLong(x.id);
    AtParts(data, pos, e1, e2 + (e3 + (e4 + e5)));
    AtParts(data, pos + |e1|, e2, e3 + (e4 + e5));
    AtParts(data, pos + |e1| + |e2|, e3, e4 + e5);
    AtParts(data, pos + |e1| + |e2| + |e3|, e4, e5);
  }

  lemma HeaderParts(data: bytes, pos: nat, b: Block)
    requires At(data, pos, EncHeader(b))
    ensures b.size.None? ==> At(data, pos, EncLong(|b.items|))
    ensures b.size.Some? ==>
      At(data, pos, EncLong(-|b.items|)) && At(data, pos + |EncLong(-|b.items|)|, EncLong(b.size.value))
  {
    hide At, EncLong;
    if b.size.Some? { AtParts(data, pos, EncLong(-|b.items|), EncLong(b.size.value)); }
  }

  /** The next block, and what follows it. */
  lemma BlockParts(data: bytes, pos: nat, bs: seq<Block>, k: nat)
    requires BlocksFit(bs) && k < |bs| && At(data, pos, EncBlocks(bs[k..]))
    ensures BlockFits(bs[k]) && At(data, pos, EncHeader(bs[k]))
    ensures At(data, pos + |EncHeader(bs[k])|, EncItems(bs[k].items) + EncBlocks(bs[k + 1..]))
    ensures Items(bs[..k + 1]) == Items(bs[..k]) + bs[k].items
  {
    hide At, EncHeader, EncItems;
    assert bs[k] in bs && bs[k..][1..] == bs[k + 1..] && bs[k..][0] == bs[k];
    AtParts(data, pos, EncHeader(bs[k]), EncItems(bs[k].items) + EncBlocks(bs[k + 1..]));
    ItemsOfOneMore(bs, k);
  }

  lemma {:induction false} ItemsOfOneMore(bs: seq<Block>, k: nat)
    requires k < |bs|
    ensures Items(bs[..k + 1]) == Items(bs[..k]) + bs[k].items
  {
    if k == 0 {
      assert bs[..1][1..] == [] && bs[..0] == [];
    } else {
      ItemsOfOneMore(bs[1..], k - 1);
      assert bs[..k + 1][1..] == bs[1..][..k] && bs[..k][1..] == bs[1..][..k - 1];
    }
  }

  /** The item after `xs[..i]`, and what follows it. */
  lemma ItemParts(data: bytes, pos: nat, xs: seq<Info>, i: nat, rest: bytes)
    requires (forall x :: x in xs ==> Fits(x)) && i < |xs|
    requires At(data, pos, EncItems(xs[i..]) + rest)
    ensures Fits(xs[i]) && At(data, pos, EncInfo(xs[i]))
    ensures At(data, pos + |EncInfo(xs[i])|, EncItems(xs[i + 1..]) + rest)
  {
    hide At, EncInfo;
    assert xs[i] in xs && xs[i..][1..] == xs[i + 1..] && xs[i..][0] == xs[i];
    assert EncItems(xs[i..]) + rest == EncInfo(xs[i]) + (EncItems(xs[i + 1..]) + rest);
    AtParts(data, pos, EncInfo(xs[i]), EncItems(xs[i + 1..]) + rest);
  }

  lemma NoItems(rest: bytes)
    ensures EncItems([]) + rest == rest
  {}

  // ---- Go ---------------------------------------------------------------
  // What each reader finds at a cursor, on any bytes, and where it leaves the cursor.
  // None is a panic.

  /** A sum as Go's 64-bit `int` has it. */
  function WrapInt(x: int): int {
    if x >= INT_LIMIT then x - W64 else x
  }

  function LongAtGo(data: bytes, pos: nat): (r: (int, nat))
    ensures IsI64(r.0) && (pos <= |data| ==> pos <= r.1 <= |data|)
  {
    var n := Digits(data, pos);
    UnZigZagIsI64(Value(data, pos, n) % W64);
    (UnZigZag(Value(data, pos, n) % W64), pos + n)
  }

  lemma UnZigZagIsI64(n: nat)
    requires n < W64
    ensures IsI64(UnZigZag(n))
  {}

  /** An impossible length reads as none, except one so large that the check itself
      overflows; the allocation then panics. */
  function BytesAtGo(data: bytes, pos: nat): (r: Option<(bytes, nat)>)
    ensures pos <= |data| && r.Some? ==> pos <= r.value.1 <= |data|
  {
    var (n, p) := LongAtGo(data, pos);
    var len := if n < 0 || WrapInt(p + n) > |data| then 0 else n;
    if p > |data| || len > |data| - p then None else Some((data[p..p + len], p + len))
  }

  function BoolAtGo(data: bytes, pos: nat): (r: (bool, nat))
    ensures pos <= |data| ==> pos <= r.1 <= |data|
  {
    if pos >= |data| then (false, pos) else (data[pos] != 0, pos + 1)
  }

  function InfoAtGo(data: bytes, pos: nat): (r: Option<(Info, nat)>)
    ensures pos <= |data| && r.Some? ==> pos <= r.value.1 <= |data|
  {
    var (id, p1) := LongAtGo(data, pos);
    match BytesAtGo(data, p1)
    case None => None
    case Some((name, p2)) =>
    match BytesAtGo(data, p2)
    case None => None
    case Some((owner, p3)) =>
    var (fp, p4) := LongAtGo(data, p3);
    var (key, p5) := BoolAtGo(data, p4);
    Some((Info(id, name, owner, ToU64(fp), key), p5))
  }

  /** `count` items, one after another. */
  function ItemsAtGo(data: bytes, pos: nat, count: nat): (r: Option<(seq<Info>, nat)>)
    ensures pos <= |data| && r.Some? ==> pos <= r.value.1 <= |data|
  {
    if count == 0 then Some(([], pos))
    else
      match ItemsAtGo(data, pos, count - 1)
      case None => None
      case Some((xs, p)) =>
        match InfoAtGo(data, p)
        case None => None
        case Some((x, q)) => Some((xs + [x], q))
  }

  /** How many items a count stands for: the least int64 is its own negation, and the loop
      over it does nothing. */
  function ManyGo(count: int): nat {
    if count >= 0 then count else if count == -INT_LIMIT then 0 else -count
  }

  /** A block's count, and the cursor behind it and the size that follows a negative one. */
  function CountAtGo(data: bytes, pos: nat): (r: (int, nat))
    ensures pos <= |data| ==> pos <= r.1 <= |data| && (r.0 != 0 ==> pos < r.1)
  {
    var (count, p) := LongAtGo(data, pos);
    NothingIsZero(data, pos);
    if count < 0 then (count, LongAtGo(data, p).1) else (count, p)
  }

  /** A count that is not zero takes at least a byte. */
  lemma NothingIsZero(data: bytes, pos: nat)
    ensures Digits(data, pos) == 0 ==> UnZigZag(Value(data, pos, Digits(data, pos)) % W64) == 0
  {}

  /** What the loop returns from a cursor on, with `out` listed so far. */
  function ListedGo(data: bytes, pos: nat, out: seq<Info>): Option<seq<Info>>
    requires pos <= |data|
    decreases |data| - pos
  {
    var (count, p) := CountAtGo(data, pos);
    if count == 0 then Some(out)
    else
      match ItemsAtGo(data, p, ManyGo(count))
      case None => None
      case Some((xs, q)) => ListedGo(data, q, out + xs)
  }

  method BytesGo(d: Decoder) returns (r: Option<bytes>)
    requires d.pos <= |d.data| < INT_LIMIT
    modifies d`pos
    ensures old(d.pos) <= d.pos <= |d.data|
    ensures match BytesAtGo(d.data, old(d.pos))
      case None => r == None
      case Some((b, p)) => r == Some(b) && d.pos == p
  {
    hide Digits, Value, UnZigZag;
    var n := d.LongGo();
    if n < 0 || WrapInt(d.pos + n) > |d.data| { n := 0; }
    if n > |d.data| - d.pos { return None; }
    r := Some(d.data[d.pos..d.pos + n]);
    d.pos := d.pos + n;
  }

  method BoolGo(d: Decoder) returns (r: bool)
    requires d.pos <= |d.data|
    modifies d`pos
    ensures (r, d.pos) == BoolAtGo(d.data, old(d.pos))
  {
    if d.pos >= |d.data| { return false; }
    r := d.data[d.pos] != 0;
    d.pos := d.pos + 1;
  }

  method InfoGo(d: Decoder) returns (r: Option<Info>)
    requires d.pos <= |d.data| < INT_LIMIT
    modifies d`pos
    ensures old(d.pos) <= d.pos <= |d.data|
    ensures match InfoAtGo(d.data, old(d.pos))
      case None => r == None
      case Some((x, p)) => r == Some(x) && d.pos == p
  {
    hide Digits, Value, UnZigZag, BytesAtGo, BoolAtGo;
    var id := d.LongGo();
    var name := BytesGo(d);
    if name.None? { return None; }
    var owner := BytesGo(d);
    if owner.None? { return None; }
    var fp := d.LongGo();
    var key := BoolGo(d);
    return Some(Info(id, name.value, owner.value, ToU64(fp), key));
  }

  /** A block's count, its sign dealt with and its size skipped if there is one. */
  method CountGo(d: Decoder) returns (count: int)
    requires d.pos <= |d.data|
    modifies d`pos
    ensures var (n, p) := CountAtGo(d.data, old(d.pos));
      d.pos == p && (count == 0 <==> n == 0) && ManyGo(n) == if count > 0 then count else 0
  {
    hide Digits, Value, UnZigZag;
    count := d.LongGo();
    if count < 0 {
      if count != -INT_LIMIT { count := -count; }
      var _ := d.LongGo();
    }
  }

  /** The inner loop: `count` items onto the end of `so`. */
  method ItemsGo(d: Decoder, count: int, so: seq<Info>) returns (r: Option<seq<Info>>)
    requires d.pos <= |d.data| < INT_LIMIT
    modifies d`pos
    ensures match ItemsAtGo(d.data, old(d.pos), if count > 0 then count else 0)
      case None => r == None
      case Some((xs, p)) => r == Some(so + xs) && d.pos == p
  {
    hide InfoAtGo;
    ghost var start := d.pos;
    var out, i := so, 0;
    assert so + [] == so;
    while i < count
      invariant 0 <= i && (i <= count || i == 0) && d.pos <= |d.data|
      invariant ItemsAtGo(d.data, start, i).Some?
      invariant out == so + ItemsAtGo(d.data, start, i).value.0 && d.pos == ItemsAtGo(d.data, start, i).value.1
      decreases count - i
    {
      var info := InfoGo(d);
      if info.None? {
        NoItemsAfterGo(d.data, start, i + 1, count);
        return None;
      }
      out := out + [info.value];
      i := i + 1;
    }
    return Some(out);
  }

  lemma {:induction false} NoItemsAfterGo(data: bytes, pos: nat, i: nat, count: nat)
    requires i <= count && ItemsAtGo(data, pos, i).None?
    ensures ItemsAtGo(data, pos, count).None?
    decreases count
  {
    hide InfoAtGo;
    if i < count { NoItemsAfterGo(data, pos, i, count - 1); }
  }

  /** Go's `ListChannels` loop, on any bytes: it ends, with a list or a panic. */
  method ListChannelsGo(data: bytes) returns (r: Option<seq<Info>>)
    requires |data| < INT_LIMIT
    ensures r == ListedGo(data, LongAtGo(data, 0).1, [])
  {
    hide Digits, Value, UnZigZag, ItemsAtGo, CountAtGo;
    var d := new Decoder(data);
    var _ := d.LongGo();
    var out := [];
    ghost var start := d.pos;
    while true
      invariant d.data == data && d.pos <= |data|
      invariant ListedGo(data, d.pos, out) == ListedGo(data, start, [])
      decreases |data| - d.pos
    {
      var count := CountGo(d);
      if count == 0 { return Some(out); }
      var more := ItemsGo(d, count, out);
      if more.None? { return None; }
      out := more.value;
    }
  }

  // ---- arrays, as Go reads them -----------------------------------------

  lemma EncodedLongGo(data: bytes, pos: nat, w: int)
    requires IsI64(w) && At(data, pos, EncLong(w))
    ensures LongAtGo(data, pos) == (w, pos + |EncLong(w)|)
  {
    LongReads(data, pos);
  }

  lemma EncodedBytesGo(data: bytes, pos: nat, b: bytes)
    requires At(data, pos, EncString(b)) && |b| < INT_LIMIT && |data| < INT_LIMIT
    ensures BytesAtGo(data, pos) == Some((b, pos + |EncString(b)|))
  {
    StringParts(data, pos, b);
    EncodedLongGo(data, pos, |b|);
    hide EncLong, LongAtGo;
  }

  lemma EncodedInfoGo(data: bytes, pos: nat, x: Info)
    requires At(data, pos, EncInfo(x)) && Fits(x) && |data| < INT_LIMIT
    ensures InfoAtGo(data, pos) == Some((x, pos + |EncInfo(x)|))
  {
    hide LongAtGo, BytesAtGo, EncLong, EncString, EncInfo;
    InfoParts(data, pos, x);
    var p2 := pos + |EncLong(x.id)|;
    var p3 := p2 + |EncString(x.name)|;
    var p4 := p3 + |EncString(x.owner)|;
    EncodedLongGo(data, pos, x.id);
    EncodedBytesGo(data, p2, x.name);
    EncodedBytesGo(data, p3, x.owner);
    EncodedLongGo(data, p4, Signed(x.fp));
    var p5 := p4 + |EncLong(Signed(x.fp))|;
    assert data[p5..p5 + 1] == [data[p5]];
  }

  lemma {:induction false} EncodedItemsGo(data: bytes, pos: nat, xs: seq<Info>, rest: bytes, i: nat)
    requires (forall x :: x in xs ==> Fits(x)) && i <= |xs| && At(data, pos, EncItems(xs) + rest) && |data| < INT_LIMIT
    ensures var r := ItemsAtGo(data, pos, i);
      r.Some? && r.value.0 == xs[..i] && At(data, r.value.1, EncItems(xs[i..]) + rest)
  {
    hide At, InfoAtGo, EncItems, EncInfo, Fits;
    if i == 0 {
      assert xs[0..] == xs;
    } else {
      EncodedItemsGo(data, pos, xs, rest, i - 1);
      var p := ItemsAtGo(data, pos, i - 1).value.1;
      ItemParts(data, p, xs, i - 1, rest);
      EncodedInfoGo(data, p, xs[i - 1]);
      assert xs[..i] == xs[..i - 1] + [xs[i - 1]];
    }
  }

  lemma EncodedHeaderGo(data: bytes, pos: nat, b: Block)
    requires BlockFits(b) && At(data, pos, EncHeader(b))
    ensures var (n, p) := CountAtGo(data, pos);
      n != 0 && ManyGo(n) == |b.items| && p == pos + |EncHeader(b)|
  {
    hide At, LongAtGo, EncLong, Fits;
    HeaderParts(data, pos, b);
    if b.size.Some? {
      EncodedLongGo(data, pos, -|b.items|);
      EncodedLongGo(data, pos + |EncLong(-|b.items|)|, b.size.value);
    } else {
      EncodedLongGo(data, pos, |b.items|);
    }
  }

  lemma {:induction false} BlocksAreReadGo(data: bytes, pos: nat, bs: seq<Block>, k: nat)
    requires BlocksFit(bs) && k <= |bs| && pos <= |data| < INT_LIMIT && At(data, pos, EncBlocks(bs[k..]))
    ensures ListedGo(data, pos, Items(bs[..k])) == Some(Items(bs))
    decreases |bs| - k
  {
    hide At, CountAtGo, ItemsAtGo, EncLong, EncHeader, EncItems, Fits, BlocksFit;
    if k == |bs| {
      assert bs[k..] == [] && bs[..k] == bs;
      EndGo(data, pos);
    } else {
      BlockParts(data, pos, bs, k);
      EncodedHeaderGo(data, pos, bs[k]);
      var xs, p, rest := bs[k].items, pos + |EncHeader(bs[k])|, EncBlocks(bs[k + 1..]);
      EncodedItemsGo(data, p, xs, rest, |xs|);
      assert xs[|xs|..] == [] && xs[..|xs|] == xs;
      NoItems(rest);
      BlocksAreReadGo(data, ItemsAtGo(data, p, |xs|).value.1, bs, k + 1);
    }
  }

  lemma EndGo(data: bytes, pos: nat)
    requires At(data, pos, EncLong(0))
    ensures CountAtGo(data, pos).0 == 0
  {
    EncodedLongGo(data, pos, 0);
    hide LongAtGo;
  }

  /** An array, cut into any blocks, is read whole. */
  lemma ArrayIsReadGo(data: bytes, corr: int, bs: seq<Block>)
    requires IsI64(corr) && BlocksFit(bs) && At(data, 0, EncLong(corr) + EncBlocks(bs)) && |data| < INT_LIMIT
    ensures ListedGo(data, LongAtGo(data, 0).1, []) == Some(Items(bs))
  {
    hide At, LongAtGo, ListedGo, EncLong, BlocksFit;
    AtParts(data, 0, EncLong(corr), EncBlocks(bs));
    EncodedLongGo(data, 0, corr);
    assert bs[0..] == bs && bs[..0] == [];
    BlocksAreReadGo(data, |EncLong(corr)|, bs, 0);
  }
}
