/** Where Go's and Python's channel-list loops agree, on bytes of any kind, and where not. */
module ListAgreement {
  import opened Records
  import opened Avro
  import opened Codecs
  import opened ChannelLists
  import opened PythonLists

  lemma {:induction false} VarintInTwice(data: bytes, pos: nat)
    requires pos <= |data|
    ensures var (d, p) := (Twice(data), pos + |data|);
      && Digits(d, p) == Digits(data, pos) && (Ended(d, p) <==> Ended(data, pos))
      && Value(d, p, Digits(d, p)) == Value(data, pos, Digits(data, pos))
    decreases |data| - pos
  {
    if pos < |data| {
      assert Twice(data)[pos + |data|] == data[pos];
      VarintInTwice(data, pos + 1);
    }
  }

  /** From a cursor inside the data, the two read the same long from the same bytes, if
      it is one of 64 bits. */
  lemma LongsAgree(data: bytes, pos: nat)
    requires LongAt(data, pos).Some?
    ensures LongAtGo(data, pos).1 == LongAt(data, pos).value.1
    ensures IsI64(LongAt(data, pos).value.0) ==> LongAtGo(data, pos).0 == LongAt(data, pos).value.0
  {
    VarintInTwice(data, pos);
    var n := Value(data, pos, Digits(data, pos));
    ZigZagInverse(0, n);
    ZigZagInverse(UnZigZag(n), n);
    hide Twice, Digits, Value, Ended;
  }

  /** What it finds there is a long of 64 bits. */
  predicate PlainLong(data: bytes, pos: int) {
    LongAt(data, pos).Some? ==> IsI64(LongAt(data, pos).value.0)
  }

  /** And what it finds there is a length that stays inside the data. */
  predicate PlainText(data: bytes, pos: int) {
    LongAt(data, pos).Some? ==>
      var (n, p) := LongAt(data, pos).value; 0 <= n <= |data| - p
  }

  predicate PlainInfo(data: bytes, utf8: bytes -> bool, pos: int) {
    && PlainLong(data, pos)
    && (LongAt(data, pos).Some? ==>
          var p1 := LongAt(data, pos).value.1;
          && PlainText(data, p1)
          && (TextAt(data, utf8, p1).Some? ==>
                var p2 := TextAt(data, utf8, p1).value.1;
                && PlainText(data, p2)
                && (TextAt(data, utf8, p2).Some? ==> PlainLong(data, TextAt(data, utf8, p2).value.1))))
  }

  predicate PlainItems(data: bytes, utf8: bytes -> bool, pos: int, count: nat) {
    forall i | 0 <= i < count ::
      ItemsAt(data, utf8, pos, i).Some? ==> PlainInfo(data, utf8, ItemsAt(data, utf8, pos, i).value.1)
  }

  predicate PlainBlock(data: bytes, utf8: bytes -> bool, pos: int) {
    LongAt(data, pos).Some? ==>
      var (count, p) := LongAt(data, pos).value;
      && -INT_LIMIT < count < INT_LIMIT
      && if count >= 0 then PlainItems(data, utf8, p, count)
         else LongAt(data, p).Some? ==> PlainItems(data, utf8, LongAt(data, p).value.1, -count)
  }

  lemma TextsAgree(data: bytes, utf8: bytes -> bool, pos: nat)
    requires |data| < INT_LIMIT && PlainText(data, pos) && TextAt(data, utf8, pos).Some?
    ensures BytesAtGo(data, pos) == TextAt(data, utf8, pos)
  {
    LongsAgree(data, pos);
    hide LongAtGo, LongAt;
  }

  lemma FlagsAgree(data: bytes, pos: nat)
    requires BoolAt(data, pos).Some?
    ensures BoolAtGo(data, pos) == BoolAt(data, pos).value
  {}

  lemma InfosAgree(data: bytes, utf8: bytes -> bool, pos: nat)
    requires |data| < INT_LIMIT && PlainInfo(data, utf8, pos) && InfoAt(data, utf8, pos).Some?
    ensures InfoAtGo(data, pos) == InfoAt(data, utf8, pos)
  {
    hide LongAt, TextAt, LongAtGo, BytesAtGo, BoolAt, BoolAtGo;
    LongsAgree(data, pos);
    var p1 := LongAt(data, pos).value.1;
    TextsAgree(data, utf8, p1);
    var p2 := TextAt(data, utf8, p1).value.1;
    TextsAgree(data, utf8, p2);
    var p3 := TextAt(data, utf8, p2).value.1;
    LongsAgree(data, p3);
    FlagsAgree(data, LongAt(data, p3).value.1);
  }

  lemma {:induction false} ItemsAgree(data: bytes, utf8: bytes -> bool, pos: nat, count: nat)
    requires |data| < INT_LIMIT && PlainItems(data, utf8, pos, count) && ItemsAt(data, utf8, pos, count).Some?
    ensures ItemsAtGo(data, pos, count) == ItemsAt(data, utf8, pos, count)
  {
    hide InfoAt, InfoAtGo, PlainInfo;
    if count > 0 {
      ItemsAgree(data, utf8, pos, count - 1);
      InfosAgree(data, utf8, ItemsAt(data, utf8, pos, count - 1).value.1);
    }
  }

  /** From a cursor inside the data, on to the end of the array. */
  ghost predicate PlainTurn(data: bytes, utf8: bytes -> bool, k: nat) {
    Listed(data, utf8, k).Running? ==> PlainBlock(data, utf8, Listed(data, utf8, k).at)
  }

  lemma BlockAgrees(data: bytes, utf8: bytes -> bool, pos: nat, out: seq<Info>)
    requires pos <= |data| < INT_LIMIT && PlainBlock(data, utf8, pos) && BlockAt(data, utf8, pos).Some?
    requires LongAt(data, pos).value.0 != 0
    ensures var (xs, p) := BlockAt(data, utf8, pos).value;
      0 <= p <= |data| && ListedGo(data, pos, out) == ListedGo(data, p, out + xs)
  {
    LongsAgree(data, pos);
    var (count, p) := LongAt(data, pos).value;
    hide LongAt, LongAtGo, PlainItems, ItemsAt, ItemsAtGo;
    if count >= 0 {
      ItemsAgree(data, utf8, p, count);
    } else {
      LongsAgree(data, p);
      ItemsAgree(data, utf8, LongAt(data, p).value.1, -count);
    }
  }

  lemma {:induction false} TurnsAgree(data: bytes, utf8: bytes -> bool, turns: nat)
    requires |data| < INT_LIMIT && forall k: nat :: k < turns ==> PlainTurn(data, utf8, k)
    ensures match Listed(data, utf8, turns)
      case Raised => true
      case Returned(items) => ListedGo(data, LongAtGo(data, 0).1, []) == Some(items)
      case Running(out, at) =>
        0 <= at <= |data| && ListedGo(data, LongAtGo(data, 0).1, []) == ListedGo(data, at, out)
    decreases turns
  {
    hide LongAt, LongAtGo, BlockAt, PlainBlock, ListedGo;
    if turns == 0 {
      if LongAt(data, 0).Some? {
        LongsAgree(data, 0);
        CountAgrees(data, [], LongAt(data, 0).value.1);
      }
    } else {
      TurnsAgree(data, utf8, turns - 1);
      var o := Listed(data, utf8, turns - 1);
      if o.Running? && BlockAt(data, utf8, o.at).Some? {
        assert PlainTurn(data, utf8, turns - 1);
        RunningCounts(data, utf8, turns - 1);
        BlockAgrees(data, utf8, o.at, o.out);
        var (xs, p) := BlockAt(data, utf8, o.at).value;
        CountAgrees(data, o.out + xs, p);
      }
    }
  }

  /** A count of zero is the end for both. */
  lemma CountAgrees(data: bytes, out: seq<Info>, pos: nat)
    requires pos <= |data|
    ensures Counted(data, out, pos).Returned? ==> ListedGo(data, pos, out) == Some(out)
  {
    if LongAt(data, pos).Some? { LongsAgree(data, pos); }
    hide LongAt, LongAtGo;
  }

  lemma RunningCounts(data: bytes, utf8: bytes -> bool, k: nat)
    requires Listed(data, utf8, k).Running?
    ensures LongAt(data, Listed(data, utf8, k).at).Some? && LongAt(data, Listed(data, utf8, k).at).value.0 != 0
  {
    hide BlockAt, LongAt;
  }

  /** On any bytes: where Python's loop returns a list, having read only longs of 64 bits
      and lengths that stay inside the data, Go's returns that list. */
  lemma ListsAgree(data: bytes, utf8: bytes -> bool, turns: nat)
    requires |data| < INT_LIMIT && Listed(data, utf8, turns).Returned?
    requires forall k: nat :: k < turns ==> PlainTurn(data, utf8, k)
    ensures ListedGo(data, LongAtGo(data, 0).1, []) == Some(Listed(data, utf8, turns).items)
  {
    TurnsAgree(data, utf8, turns);
  }

  /** They part on the least count there is: its negation is itself for Go, to which the
      block is empty, and 2^63 items for Python, which the data cannot hold. */
  lemma LeastCountIsNone(size: int, out: seq<Info>)
    requires IsI64(size)
    ensures ListedGo(EncLong(-INT_LIMIT) + (EncLong(size) + EncLong(0)), 0, out) == Some(out)
  {
    hide At, EncLong, LongAtGo, ListedGo;
    var data := EncLong(-INT_LIMIT) + (EncLong(size) + EncLong(0));
    AllThere(data);
    AtParts(data, 0, EncLong(-INT_LIMIT), EncLong(size) + EncLong(0));
    var p := |EncLong(-INT_LIMIT)|;
    AtParts(data, p, EncLong(size), EncLong(0));
    EncodedLongGo(data, 0, -INT_LIMIT);
    EncodedLongGo(data, p, size);
    EncodedLongGo(data, p + |EncLong(size)|, 0);
    EmptyBlock(data, 0, out);
  }

  lemma AllThere(data: bytes)
    ensures At(data, 0, data)
  {}

  /** A block of the least count and the end behind it. */
  lemma EmptyBlock(data: bytes, pos: nat, out: seq<Info>)
    requires pos <= |data| && LongAtGo(data, pos).0 == -INT_LIMIT
    requires LongAtGo(data, LongAtGo(data, LongAtGo(data, pos).1).1).0 == 0
    ensures ListedGo(data, pos, out) == Some(out)
  {
    var q := LongAtGo(data, LongAtGo(data, pos).1).1;
    assert CountAtGo(data, pos) == (-INT_LIMIT, q);
    EndsHere(data, q, out);
    hide LongAtGo, CountAtGo;
    assert ItemsAtGo(data, q, 0) == Some(([], q));
    assert out + [] == out;
  }

  lemma EndsHere(data: bytes, pos: nat, out: seq<Info>)
    requires pos <= |data| && LongAtGo(data, pos).0 == 0
    ensures ListedGo(data, pos, out) == Some(out)
  {}
}
