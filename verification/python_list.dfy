/** Python's `list_channels`, on any bytes. A string of negative length moves its cursor
    back, an index below zero counts from the end, and so the loop may come to a cursor
    it has been at and then never ends. When it does is stated here exactly. */
module PythonLists {
  import opened Records
  import opened Avro
  import opened Codecs
  import opened ChannelLists

  // ---- what each reader finds at a cursor -------------------------------
  // None is an exception: an index outside the data, or bytes that are not UTF-8.
  // Which bytes are UTF-8 is a parameter.

  function Clamp(i: int, n: nat): (k: nat)
    ensures k <= n
  {
    if i < 0 then if i + n < 0 then 0 else i + n else if i > n then n else i
  }

  /** `data[a:b]`. */
  function Slice(data: bytes, a: int, b: int): bytes {
    var i, j := Clamp(a, |data|), Clamp(b, |data|);
    if i < j then data[i..j] else []
  }

  function TextAt(data: bytes, utf8: bytes -> bool, pos: int): Option<(bytes, int)> {
    match LongAt(data, pos)
    case None => None
    case Some((n, p)) =>
      var text := Slice(data, p, p + n);
      if utf8(text) then Some((text, p + n)) else None
  }

  function BoolAt(data: bytes, pos: int): (r: Option<(bool, int)>)
    ensures r.Some? ==> Indexable(data, pos) && r.value.1 == pos + 1
  {
    match ByteAt(data, pos)
    case None => None
    case Some(b) => Some((b != 0, pos + 1))
  }

  function InfoAt(data: bytes, utf8: bytes -> bool, pos: int): Option<(Info, int)> {
    match LongAt(data, pos)
    case None => None
    case Some((id, p1)) =>
    match TextAt(data, utf8, p1)
    case None => None
    case Some((name, p2)) =>
    match TextAt(data, utf8, p2)
    case None => None
    case Some((owner, p3)) =>
    match LongAt(data, p3)
    case None => None
    case Some((fp, p4)) =>
    match BoolAt(data, p4)
    case None => None
    case Some((key, p5)) => Some((Info(id, name, owner, fp % W64, key), p5))   // & _U64
  }

  /** `count` items, one after another. */
  function ItemsAt(data: bytes, utf8: bytes -> bool, pos: int, count: nat): Option<(seq<Info>, int)> {
    if count == 0 then Some(([], pos))
    else
      match ItemsAt(data, utf8, pos, count - 1)
      case None => None
      case Some((xs, p)) =>
        match InfoAt(data, utf8, p)
        case None => None
        case Some((x, q)) => Some((xs + [x], q))
  }

  /** A block: the size after a negated count, which is ignored, and the items. */
  function BlockAt(data: bytes, utf8: bytes -> bool, pos: int): Option<(seq<Info>, int)> {
    match LongAt(data, pos)
    case None => None
    case Some((count, p)) =>
      if count >= 0 then ItemsAt(data, utf8, p, count)
      else
        match LongAt(data, p)
        case None => None
        case Some((_, q)) => ItemsAt(data, utf8, q, -count)
  }

  // ---- the loop ---------------------------------------------------------

  /** Where the loop is after some turns: about to do the block whose count stands at
      the cursor `at`, or done. */
  datatype Outcome = Running(out: seq<Info>, at: int) | Raised | Returned(items: seq<Info>)

  function Counted(data: bytes, out: seq<Info>, pos: int): (o: Outcome)
    ensures o.Running? ==> o == Running(out, pos) && Indexable(data, pos)
  {
    match LongAt(data, pos)
    case None => Raised
    case Some((count, _)) => if count == 0 then Returned(out) else Running(out, pos)
  }

  function Turn(data: bytes, utf8: bytes -> bool, o: Outcome): Outcome {
    match o
    case Running(out, at) =>
      (match BlockAt(data, utf8, at)
       case None => Raised
       case Some((xs, p)) => Counted(data, out + xs, p))
    case _ => o
  }

  function Listed(data: bytes, utf8: bytes -> bool, turns: nat): Outcome {
    if turns == 0 then
      match LongAt(data, 0)
      case None => Raised
      case Some((_, p)) => Counted(data, [], p)
    else Turn(data, utf8, Listed(data, utf8, turns - 1))
  }

  // ---- the code ---------------------------------------------------------

  method StringPython(d: PythonDecoder, utf8: bytes -> bool) returns (r: Option<bytes>)
    modifies d`pos
    ensures match TextAt(d.data, utf8, old(d.pos))
      case None => r == None
      case Some((text, p)) => r == Some(text) && d.pos == p
  {
    hide LongAt, Slice;
    var n := d.Long();
    if n.None? { return None; }
    var b := Slice(d.data, d.pos, d.pos + n.value);
    d.pos := d.pos + n.value;
    return if utf8(b) then Some(b) else None;
  }

  method BoolPython(d: PythonDecoder) returns (r: Option<bool>)
    modifies d`pos
    ensures match BoolAt(d.data, old(d.pos))
      case None => r == None
      case Some((b, p)) => r == Some(b) && d.pos == p
  {
    var b := ByteAt(d.data, d.pos);
    if b.None? { return None; }
    d.pos := d.pos + 1;
    return Some(b.value != 0);
  }

  method InfoPython(d: PythonDecoder, utf8: bytes -> bool) returns (r: Option<Info>)
    modifies d`pos
    ensures match InfoAt(d.data, utf8, old(d.pos))
      case None => r == None
      case Some((x, p)) => r == Some(x) && d.pos == p
  {
    hide LongAt, TextAt, BoolAt;
    var id := d.Long();
    if id.None? { return None; }
    var name := StringPython(d, utf8);
    if name.None? { return None; }
    var owner := StringPython(d, utf8);
    if owner.None? { return None; }
    var fp := d.Long();
    if fp.None? { return None; }
    var key := BoolPython(d);
    if key.None? { return None; }
    return Some(Info(id.value, name.value, owner.value, fp.value % W64, key.value));
  }

  /** The inner loop: `count` items onto the end of `so`. */
  method ItemsPython(d: PythonDecoder, utf8: bytes -> bool, count: nat, so: seq<Info>) returns (r: Option<seq<Info>>)
    modifies d`pos
    ensures match ItemsAt(d.data, utf8, old(d.pos), count)
      case None => r == None
      case Some((xs, p)) => r == Some(so + xs) && d.pos == p
  {
    hide InfoAt;
    ghost var pos := d.pos;
    var out, i := so, 0;
    assert so + [] == so;
    while i < count
      invariant i <= count
      invariant ItemsAt(d.data, utf8, pos, i).Some?
      invariant out == so + ItemsAt(d.data, utf8, pos, i).value.0 && d.pos == ItemsAt(d.data, utf8, pos, i).value.1
    {
      var x := InfoPython(d, utf8);
      if x.None? {
        NoItemsAfter(d.data, utf8, pos, i + 1, count);
        return None;
      }
      out := out + [x.value];
      i := i + 1;
    }
    return Some(out);
  }

  lemma {:induction false} NoItemsAfter(data: bytes, utf8: bytes -> bool, pos: int, i: nat, count: nat)
    requires i <= count && ItemsAt(data, utf8, pos, i).None?
    ensures ItemsAt(data, utf8, pos, count).None?
    decreases count
  {
    hide InfoAt;
    if i < count { NoItemsAfter(data, utf8, pos, i, count - 1); }
  }

  /** `list_channels`, followed for at most `turns` turns of its loop. */
  method ListChannelsPython(data: bytes, utf8: bytes -> bool, turns: nat) returns (o: Outcome)
    ensures o == Listed(data, utf8, turns)
  {
    hide LongAt, ItemsAt;
    var d := new PythonDecoder(data);
    var corr := d.Long();
    if corr.None? {
      DoneStays(data, utf8, 0, turns);
      return Raised;
    }
    var out, at, turn := [], d.pos, 0;
    var count := d.Long();
    while count.Some? && count.value != 0 && turn < turns
      invariant d.data == data && turn <= turns
      invariant Listed(data, utf8, turn) == Counted(data, out, at)
      invariant match LongAt(data, at)
        case None => count == None
        case Some((n, p)) => count == Some(n) && d.pos == p
      decreases turns - turn
    {
      var size := Some(0);
      if count.value < 0 { size := d.Long(); }   // the block's size in bytes
      var more := None;
      if size.Some? { more := ItemsPython(d, utf8, if count.value < 0 then -count.value else count.value, out); }
      turn := turn + 1;
      if more.None? {
        DoneStays(data, utf8, turn, turns);
        return Raised;
      }
      out, at := more.value, d.pos;
      count := d.Long();
    }
    if count.None? || count.value == 0 { DoneStays(data, utf8, turn, turns); }
    return if count.None? then Raised else if count.value == 0 then Returned(out) else Running(out, at);
  }

  lemma {:induction false} DoneStays(data: bytes, utf8: bytes -> bool, i: nat, j: nat)
    requires i <= j && !Listed(data, utf8, i).Running?
    ensures Listed(data, utf8, j) == Listed(data, utf8, i)
    decreases j
  {
    hide BlockAt, LongAt;
    if i < j { DoneStays(data, utf8, i, j - 1); }
  }

  // ---- when it ends -----------------------------------------------------

  /** The length read here, if one can be, is not negative. */
  predicate ForwardText(data: bytes, pos: int) {
    LongAt(data, pos).Some? ==> LongAt(data, pos).value.0 >= 0
  }

  predicate ForwardInfo(data: bytes, utf8: bytes -> bool, pos: int) {
    LongAt(data, pos).Some? ==>
      var p := LongAt(data, pos).value.1;
      && ForwardText(data, p)
      && (TextAt(data, utf8, p).Some? ==> ForwardText(data, TextAt(data, utf8, p).value.1))
  }

  predicate ForwardItems(data: bytes, utf8: bytes -> bool, pos: int, count: nat) {
    forall i | 0 <= i < count ::
      ItemsAt(data, utf8, pos, i).Some? ==> ForwardInfo(data, utf8, ItemsAt(data, utf8, pos, i).value.1)
  }

  predicate ForwardBlock(data: bytes, utf8: bytes -> bool, pos: int) {
    LongAt(data, pos).Some? ==>
      var (count, p) := LongAt(data, pos).value;
      if count >= 0 then ForwardItems(data, utf8, p, count)
      else LongAt(data, p).Some? ==> ForwardItems(data, utf8, LongAt(data, p).value.1, -count)
  }

  /** No string length that turn `k` reads is negative. */
  predicate Forward(data: bytes, utf8: bytes -> bool, k: nat) {
    Listed(data, utf8, k).Running? ==> ForwardBlock(data, utf8, Listed(data, utf8, k).at)
  }

  lemma InfoAdvances(data: bytes, utf8: bytes -> bool, pos: int)
    requires ForwardInfo(data, utf8, pos) && InfoAt(data, utf8, pos).Some?
    ensures pos < InfoAt(data, utf8, pos).value.1 <= |data|
  {
    hide LongAt, Slice;
  }

  lemma {:induction false} ItemsAdvance(data: bytes, utf8: bytes -> bool, pos: int, count: nat)
    requires ForwardItems(data, utf8, pos, count) && ItemsAt(data, utf8, pos, count).Some?
    ensures pos <= ItemsAt(data, utf8, pos, count).value.1
  {
    hide InfoAt, ForwardInfo;
    if count > 0 {
      ItemsAdvance(data, utf8, pos, count - 1);
      InfoAdvances(data, utf8, ItemsAt(data, utf8, pos, count - 1).value.1);
    }
  }

  /** Without a negative length a turn moves the cursor on. */
  lemma BlockAdvances(data: bytes, utf8: bytes -> bool, pos: int)
    requires ForwardBlock(data, utf8, pos) && BlockAt(data, utf8, pos).Some?
    ensures pos < BlockAt(data, utf8, pos).value.1
  {
    hide ForwardItems, ItemsAt, LongAt;
    var (count, p) := LongAt(data, pos).value;
    if count >= 0 {
      ItemsAdvance(data, utf8, p, count);
    } else {
      ItemsAdvance(data, utf8, LongAt(data, p).value.1, -count);
    }
  }

  lemma {:induction false} CursorAdvances(data: bytes, utf8: bytes -> bool, i: nat, j: nat)
    requires i <= j && Listed(data, utf8, j).Running?
    requires forall k :: i <= k < j ==> Forward(data, utf8, k)
    ensures Listed(data, utf8, i).Running? && Listed(data, utf8, i).at + (j - i) <= Listed(data, utf8, j).at < |data|
    decreases j
  {
    hide BlockAt, ForwardBlock;
    if i < j {
      CursorAdvances(data, utf8, i, j - 1);
      assert Forward(data, utf8, j - 1);
      BlockAdvances(data, utf8, Listed(data, utf8, j - 1).at);
    }
  }

  /** The loop ends, in fewer turns than there are bytes, when no string length it reads
      is negative: the bytes after the cursor become fewer with every turn. */
  lemma EndsUnlessALengthIsNegative(data: bytes, utf8: bytes -> bool)
    requires forall k :: 0 <= k < |data| ==> Forward(data, utf8, k)
    ensures !Listed(data, utf8, |data|).Running?
  {
    if Listed(data, utf8, |data|).Running? {
      CursorAdvances(data, utf8, 0, |data|);
      assert false;
    }
  }

  ghost predicate Endless(data: bytes, utf8: bytes -> bool) {
    forall turns: nat :: Listed(data, utf8, turns).Running?
  }

  /** The loop comes back to a cursor within twice as many turns as there are bytes. */
  ghost predicate ComesBack(data: bytes, utf8: bytes -> bool, i: nat, j: nat) {
    && i < j <= 2 * |data| && Listed(data, utf8, i).Running? && Listed(data, utf8, j).Running?
    && Listed(data, utf8, i).at == Listed(data, utf8, j).at
  }

  /** What a turn does to the cursor depends on the cursor alone. */
  lemma {:induction false} SameCursors(data: bytes, utf8: bytes -> bool, i: nat, j: nat, m: nat)
    requires ComesBack(data, utf8, i, j)
    ensures Listed(data, utf8, i + m).Running? == Listed(data, utf8, j + m).Running?
    ensures Listed(data, utf8, i + m).Running? ==> Listed(data, utf8, i + m).at == Listed(data, utf8, j + m).at
  {
    hide BlockAt, LongAt;
    if m > 0 { SameCursors(data, utf8, i, j, m - 1); }
  }

  lemma {:induction false} RunsOn(data: bytes, utf8: bytes -> bool, i: nat, j: nat, turns: nat)
    requires ComesBack(data, utf8, i, j)
    ensures Listed(data, utf8, turns).Running?
    decreases turns
  {
    hide Listed;
    if turns <= j {
      if !Listed(data, utf8, turns).Running? { DoneStays(data, utf8, turns, j); }
    } else {
      RunsOn(data, utf8, i, j, turns - (j - i));
      SameCursors(data, utf8, i, j, turns - j);
    }
  }

  /** More values than there are places for them. */
  lemma {:induction false} Pigeonhole(xs: seq<int>, n: nat)
    requires |xs| > n && (forall x :: x in xs ==> 0 <= x < n)
    ensures exists i, j :: 0 <= i < j < |xs| && xs[i] == xs[j]
    decreases n
  {
    assert xs[0] in xs;
    if i :| 0 <= i < |xs| && xs[i] == n - 1 {
      var ys := xs[..i] + xs[i + 1..];
      if n - 1 in ys {
        var k :| 0 <= k < |ys| && ys[k] == n - 1;
        var k' := if k < i then k else k + 1;
        assert xs[k'] == n - 1;
        assert if k' < i then xs[k'] == xs[i] else xs[i] == xs[k'];
      } else {
        forall y | y in ys ensures 0 <= y < n - 1 { assert y in xs; }
        Pigeonhole(ys, n - 1);
        var k, l :| 0 <= k < l < |ys| && ys[k] == ys[l];
        var k', l' := if k < i then k else k + 1, if l < i then l else l + 1;
        assert k' < l' && xs[k'] == xs[l'];
      }
    } else {
      Pigeonhole(xs, n - 1);
    }
  }

  /** Still running after twice as many turns as there are bytes, it has been somewhere
      twice: that many indexes are all there are. */
  lemma SomewhereTwice(data: bytes, utf8: bytes -> bool)
    requires Listed(data, utf8, 2 * |data|).Running?
    ensures exists i: nat, j: nat :: ComesBack(data, utf8, i, j)
  {
    var n := 2 * |data|;
    forall k: nat | k <= n ensures Listed(data, utf8, k).Running? && Indexable(data, Listed(data, utf8, k).at) {
      if !Listed(data, utf8, k).Running? { DoneStays(data, utf8, k, n); }
      RunningIsInside(data, utf8, k);
    }
    hide Listed;
    var xs := seq(n + 1, k requires 0 <= k <= n => Listed(data, utf8, k).at + |data|);
    Pigeonhole(xs, n);
    var i, j :| 0 <= i < j < |xs| && xs[i] == xs[j];
    assert ComesBack(data, utf8, i, j);
  }

  lemma RunningIsInside(data: bytes, utf8: bytes -> bool, k: nat)
    requires Listed(data, utf8, k).Running?
    ensures Indexable(data, Listed(data, utf8, k).at)
  {}

  /** The loop never ends exactly when it comes back to a cursor, which shows within twice
      as many turns as there are bytes; and on the way back there is a negative length. */
  lemma EndlessExactlyWhenItComesBack(data: bytes, utf8: bytes -> bool)
    ensures Endless(data, utf8) <==> Listed(data, utf8, 2 * |data|).Running?
    ensures Endless(data, utf8) <==> exists i: nat, j: nat :: ComesBack(data, utf8, i, j)
    ensures forall i: nat, j: nat :: ComesBack(data, utf8, i, j) ==> exists k :: i <= k < j && !Forward(data, utf8, k)
  {
    hide Listed, Forward;
    if Listed(data, utf8, 2 * |data|).Running? { SomewhereTwice(data, utf8); }
    forall i: nat, j: nat | ComesBack(data, utf8, i, j)
      ensures Endless(data, utf8) && exists k :: i <= k < j && !Forward(data, utf8, k)
    {
      forall turns: nat ensures Listed(data, utf8, turns).Running? { RunsOn(data, utf8, i, j, turns); }
      if forall k :: i <= k < j ==> Forward(data, utf8, k) { CursorAdvances(data, utf8, i, j); }
    }
  }

  // ---- bodies -----------------------------------------------------------

  /** After the first channel the second one's name has length -6, and from there the
      first one's owner, fingerprint and flag are read again, and the second count. */
  const ENDLESS: bytes := [0, 2, 0, 0, 0, 0, 0, 2, 0, 11]

  /** The name's length is -1: it is read as the owner's length and the fingerprint too. */
  const SHORT: bytes := [0, 2, 0, 1, 0, 0]

  lemma ZeroLong(data: bytes, pos: nat)
    requires pos < |data| && data[pos] == 0
    ensures LongAt(data, pos) == Some((0, pos + 1))
  {
    OneByteLong(data, pos);
  }

  /** An item whose five bytes are all zero. */
  lemma FiveBytes(data: bytes, utf8: bytes -> bool, pos: nat)
    requires utf8([]) && pos + 5 <= |data| && data[pos..pos + 5] == [0, 0, 0, 0, 0]
    ensures InfoAt(data, utf8, pos) == Some((Info(0, [], [], 0, false), pos + 5))
  {
    hide LongAt;
    forall p | pos <= p < pos + 5 ensures LongAt(data, p) == Some((0, p + 1)) {
      assert data[p] == data[pos..pos + 5][p - pos] == 0;
      ZeroLong(data, p);
    }
  }

  lemma CountOne(data: bytes, utf8: bytes -> bool, pos: nat)
    requires pos < |data| && data[pos] == 2
    ensures LongAt(data, pos) == Some((1, pos + 1))
    ensures BlockAt(data, utf8, pos) ==
      match InfoAt(data, utf8, pos + 1) case None => None case Some((x, p)) => Some(([x], p))
  {
    OneByteLong(data, pos);
    hide LongAt, InfoAt, Indexable, ByteAt, ItemsAt;
    OneItem(data, utf8, pos + 1);
  }

  lemma OneItem(data: bytes, utf8: bytes -> bool, pos: int)
    ensures ItemsAt(data, utf8, pos, 1) ==
      match InfoAt(data, utf8, pos) case None => None case Some((x, p)) => Some(([x], p))
  {
    hide InfoAt;
    assert ItemsAt(data, utf8, pos, 0) == Some(([], pos));
    var item := InfoAt(data, utf8, pos);
    if item.Some? { assert [] + [item.value.0] == [item.value.0]; }
  }

  /** The second item takes the cursor back to its own count. */
  lemma ItemGoesBack(utf8: bytes -> bool)
    requires utf8([])
    ensures InfoAt(ENDLESS, utf8, 8) == Some((Info(0, [], [], 0, false), 7)) && !ForwardInfo(ENDLESS, utf8, 8)
  {
    ZeroLong(ENDLESS, 8);
    ZeroLong(ENDLESS, 4);
    ZeroLong(ENDLESS, 5);
    OneByteLong(ENDLESS, 9);
    assert ByteAt(ENDLESS, 9) == Some(11) && ByteAt(ENDLESS, 6) == Some(0);
    hide LongAt, ByteAt;
    assert TextAt(ENDLESS, utf8, 9) == Some(([], 4)) && TextAt(ENDLESS, utf8, 4) == Some(([], 5));
    assert !ForwardText(ENDLESS, 9);
  }

  /** Whatever the loop has by then, a turn from 7 ends at 7 with the same count. */
  lemma TurnEndsWhereItBegan(utf8: bytes -> bool, out: seq<Info>)
    requires utf8([])
    ensures LongAt(ENDLESS, 7) == Some((1, 8)) && !ForwardBlock(ENDLESS, utf8, 7)
    ensures Turn(ENDLESS, utf8, Running(out, 7)) == Running(out + [Info(0, [], [], 0, false)], 7)
  {
    CountOne(ENDLESS, utf8, 7);
    ItemGoesBack(utf8);
    hide LongAt, InfoAt, ForwardInfo, BlockAt;
    assert ItemsAt(ENDLESS, utf8, 8, 0) == Some(([], 8));
  }

  lemma {:induction false} StuckAt7(utf8: bytes -> bool, turns: nat)
    requires utf8([])
    ensures Listed(ENDLESS, utf8, turns).Running?
    ensures turns > 0 ==> Listed(ENDLESS, utf8, turns).at == 7
  {
    hide LongAt, InfoAt;
    CountOne(ENDLESS, utf8, 1);
    CountOne(ENDLESS, utf8, 7);
    ZeroLong(ENDLESS, 0);
    if turns == 1 {
      FiveBytes(ENDLESS, utf8, 2);
    } else if turns > 1 {
      StuckAt7(utf8, turns - 1);
      TurnEndsWhereItBegan(utf8, Listed(ENDLESS, utf8, turns - 1).out);
    }
  }

  /** Bytes on which the loop never ends. */
  lemma EndlessBody(utf8: bytes -> bool)
    requires utf8([])
    ensures Endless(ENDLESS, utf8)
  {
    forall turns: nat ensures Listed(ENDLESS, utf8, turns).Running? { StuckAt7(utf8, turns); }
  }

  /** A negative length alone does not keep it from ending. */
  lemma ANegativeLengthMayEnd(utf8: bytes -> bool)
    requires utf8([])
    ensures !Forward(SHORT, utf8, 0) && Listed(SHORT, utf8, 1) == Returned([Info(0, [], [], W64 - 1, false)])
  {
    CountOne(SHORT, utf8, 1);
    ZeroLong(SHORT, 0);
    ZeroLong(SHORT, 2);
    OneByteLong(SHORT, 3);
    ZeroLong(SHORT, 5);
    assert ByteAt(SHORT, 3) == Some(1) && ByteAt(SHORT, 4) == Some(0);
    hide LongAt, ByteAt;
    assert TextAt(SHORT, utf8, 3) == Some(([], 3));
    var x := Info(0, [], [], W64 - 1, false);
    assert InfoAt(SHORT, utf8, 2) == Some((x, 5));
    assert Listed(SHORT, utf8, 0) == Running([], 1);
    assert !ForwardText(SHORT, 3);
    assert !ForwardInfo(SHORT, utf8, 2);
    assert ItemsAt(SHORT, utf8, 2, 0) == Some(([], 2));
  }

  // ---- arrays -----------------------------------------------------------

  /** The names are UTF-8. */
  ghost predicate Readable(x: Info, utf8: bytes -> bool) {
    Fits(x) && utf8(x.name) && utf8(x.owner)
  }

  lemma EncodedText(data: bytes, utf8: bytes -> bool, pos: nat, b: bytes)
    requires At(data, pos, EncString(b)) && |b| < INT_LIMIT && utf8(b)
    ensures TextAt(data, utf8, pos) == Some((b, pos + |EncString(b)|))
  {
    StringParts(data, pos, b);
    EncodedLongAt(data, pos, |b|);
    hide LongAt, EncLong;
  }

  lemma EncodedInfo(data: bytes, utf8: bytes -> bool, pos: nat, x: Info)
    requires At(data, pos, EncInfo(x)) && Readable(x, utf8)
    ensures InfoAt(data, utf8, pos) == Some((x, pos + |EncInfo(x)|))
  {
    hide LongAt, TextAt, EncLong, EncString, EncInfo;
    InfoParts(data, pos, x);
    var p2 := pos + |EncLong(x.id)|;
    var p3 := p2 + |EncString(x.name)|;
    var p4 := p3 + |EncString(x.owner)|;
    EncodedLongAt(data, pos, x.id);
    EncodedText(data, utf8, p2, x.name);
    EncodedText(data, utf8, p3, x.owner);
    EncodedLongAt(data, p4, Signed(x.fp));
    MaskedFp(x.fp);
    var p5 := p4 + |EncLong(Signed(x.fp))|;
    assert data[p5..p5 + 1] == [data[p5]];
  }

  lemma MaskedFp(fp: nat)
    requires fp < W64
    ensures Signed(fp) % W64 == fp
  {}

  lemma {:induction false} EncodedItems(data: bytes, utf8: bytes -> bool, pos: nat, xs: seq<Info>, rest: bytes, i: nat)
    requires (forall x :: x in xs ==> Readable(x, utf8)) && i <= |xs| && At(data, pos, EncItems(xs) + rest)
    ensures var r := ItemsAt(data, utf8, pos, i);
      r.Some? && r.value.0 == xs[..i] && r.value.1 >= 0 && At(data, r.value.1, EncItems(xs[i..]) + rest)
  {
    hide At, InfoAt, EncItems, EncInfo;
    if i == 0 {
      assert xs[0..] == xs;
    } else {
      EncodedItems(data, utf8, pos, xs, rest, i - 1);
      var p := ItemsAt(data, utf8, pos, i - 1).value.1;
      ItemParts(data, p, xs, i - 1, rest);
      assert xs[i - 1] in xs;
      EncodedInfo(data, utf8, p, xs[i - 1]);
      assert xs[..i] == xs[..i - 1] + [xs[i - 1]];
    }
  }

  lemma EncodedHeader(data: bytes, utf8: bytes -> bool, pos: nat, b: Block)
    requires BlockFits(b) && At(data, pos, EncHeader(b))
    ensures LongAt(data, pos).Some? && LongAt(data, pos).value.0 != 0
    ensures BlockAt(data, utf8, pos) == ItemsAt(data, utf8, pos + |EncHeader(b)|, |b.items|)
  {
    hide At, LongAt, ItemsAt, EncLong, Fits;
    HeaderParts(data, pos, b);
    if b.size.Some? {
      EncodedLongAt(data, pos, -|b.items|);
      EncodedLongAt(data, pos + |EncLong(-|b.items|)|, b.size.value);
    } else {
      EncodedLongAt(data, pos, |b.items|);
    }
  }

  lemma EncodedBlock(data: bytes, utf8: bytes -> bool, pos: nat, bs: seq<Block>, k: nat)
    requires BlocksFit(bs) && (forall x :: x in Items(bs) ==> Readable(x, utf8))
    requires k < |bs| && At(data, pos, EncBlocks(bs[k..]))
    ensures LongAt(data, pos).Some? && LongAt(data, pos).value.0 != 0
    ensures var r := BlockAt(data, utf8, pos);
      r.Some? && r.value.0 == bs[k].items && r.value.1 >= 0 && At(data, r.value.1, EncBlocks(bs[k + 1..]))
  {
    hide At, LongAt, BlockAt, ItemsAt, EncHeader, EncItems, EncBlocks, Readable, Fits, BlocksFit, BlockFits, Items;
    var b := bs[k];
    BlockParts(data, pos, bs, k);
    EncodedHeader(data, utf8, pos, b);
    forall x | x in b.items ensures Readable(x, utf8) { ItemOfBlock(bs, k, x); }
    var rest := EncBlocks(bs[k + 1..]);
    EncodedItems(data, utf8, pos + |EncHeader(b)|, b.items, rest, |b.items|);
    assert b.items[|b.items|..] == [] && b.items[..|b.items|] == b.items;
    NoItems(rest);
  }

  lemma {:induction false} ItemOfBlock(bs: seq<Block>, k: nat, x: Info)
    requires k < |bs| && x in bs[k].items
    ensures x in Items(bs)
  {
    if k > 0 { ItemOfBlock(bs[1..], k - 1, x); }
  }

  lemma {:induction false} BlockByBlock(data: bytes, utf8: bytes -> bool, corr: int, bs: seq<Block>, k: nat)
    requires IsI64(corr) && BlocksFit(bs) && (forall x :: x in Items(bs) ==> Readable(x, utf8))
    requires At(data, 0, EncLong(corr) + EncBlocks(bs)) && k <= |bs|
    ensures exists p: nat :: At(data, p, EncBlocks(bs[k..])) && Listed(data, utf8, k) == Counted(data, Items(bs[..k]), p)
  {
    hide At, LongAt, BlockAt, EncLong, EncBlocks, Fits, Readable, BlocksFit;
    if k == 0 {
      AtParts(data, 0, EncLong(corr), EncBlocks(bs));
      EncodedLongAt(data, 0, corr);
      assert bs[0..] == bs && bs[..0] == [];
    } else {
      BlockByBlock(data, utf8, corr, bs, k - 1);
      var p: nat :|
        At(data, p, EncBlocks(bs[k - 1..])) && Listed(data, utf8, k - 1) == Counted(data, Items(bs[..k - 1]), p);
      EncodedBlock(data, utf8, p, bs, k - 1);
      ItemsOfOneMore(bs, k - 1);
    }
  }

  /** An array, cut into any blocks, is read whole. */
  lemma ArrayIsRead(data: bytes, utf8: bytes -> bool, corr: int, bs: seq<Block>, turns: nat)
    requires IsI64(corr) && BlocksFit(bs) && (forall x :: x in Items(bs) ==> Readable(x, utf8))
    requires At(data, 0, EncLong(corr) + EncBlocks(bs)) && turns >= |bs|
    ensures Listed(data, utf8, turns) == Returned(Items(bs))
  {
    hide At, EncLong, Listed, Fits, Readable, BlocksFit;
    BlockByBlock(data, utf8, corr, bs, |bs|);
    assert bs[|bs|..] == [] && bs[..|bs|] == bs;
    var p: nat :| At(data, p, EncBlocks(bs[|bs|..])) && Listed(data, utf8, |bs|) == Counted(data, Items(bs), p);
    EncodedLongAt(data, p, 0);
    DoneStays(data, utf8, |bs|, turns);
  }
}
