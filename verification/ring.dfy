/** The shared-memory ring as one process drives it: byte-exact, in place, on
    cursor words that wrap at 2^64. The ghost fields are the unbounded cursors and
    the queue of records the bytes stand for. */
module SharedRing {
  import opened Bits
  import opened Circular
  import opened Records

  const RING_MAGIC := 0x474e_4952

  /** The outcome of checking a ring header before attaching to it. */
  datatype Attach = Attached(capacity: nat) | BadMagic | BadCapacity

  /** `Ring::attach`: the capacity comes out of the header word, and has to be a
      power of two whose data region the segment really holds. */
  function AttachTo(magic: nat, capWord: nat, base: nat, segLen: nat): Attach {
    if magic != RING_MAGIC then BadMagic
    else if !(capWord != 0 && And(capWord, capWord - 1) == 0) || base + 192 + capWord > segLen then BadCapacity
    else Attached(capWord)
  }

  /** A formatted header attaches with the very capacity it was formatted with,
      exactly when that capacity fits the header's u32 word. */
  lemma AttachSeesFormat(k: nat, base: nat, segLen: nat)
    requires base + 192 + Pow2(k) <= segLen
    ensures AttachTo(RING_MAGIC, Pow2(k) % W32, base, segLen) == Attached(Pow2(k)) <==> k < 32
  {
    hide And, IsPow2, Pow2;
    Pow2Words();
    Pow2Double(31);
    if k < 32 {
      Pow2Monotone(k, 31);
      Pow2IsPow2(k);
      PowerOfTwoTest(Pow2(k));
    } else {
      Pow2Monotone(32, k);
    }
  }

  /** Attaching takes the capacity the header states if and only if the header is formatted,
      that capacity is a power of two, and the segment holds all of its data region. */
  lemma AttachExactly(magic: nat, capWord: nat, base: nat, segLen: nat, capacity: nat)
    ensures AttachTo(magic, capWord, base, segLen) == Attached(capacity) <==>
      magic == RING_MAGIC && IsPow2(capWord) && base + 192 + capWord <= segLen && capacity == capWord
    ensures AttachTo(magic, capWord, base, segLen) == BadMagic <==> magic != RING_MAGIC
  {
    PowerOfTwoTest(capWord);
  }

  class Ring {
    const k: nat                 // the capacity is 2^k
    const capacity: nat
    const data: array<byte>
    var head: nat                // u64: producer cursor
    var tail: nat                // u64: consumer cursor
    var spaceSeq: nat            // u32
    var dataSeq: nat             // u32
    ghost var h: nat             // head, had it never wrapped
    ghost var t: nat             // tail, had it never wrapped
    ghost var queue: seq<bytes>  // the records pushed and not yet popped

    ghost predicate Valid()
      reads this, data
    {
      && k <= 32 && capacity == Pow2(k) == data.Length
      && head == h % W64 && tail == t % W64
      && spaceSeq < W32 && dataSeq < W32
      && Layout(data[..], t, h, queue)
    }

    /** `Ring::format`. The header stores the capacity in a u32. */
    constructor Format(k: nat)
      requires k <= 32
      ensures Valid() && fresh(data)
      ensures this.k == k && queue == []
    {
      Pow2Words();
      Pow2Monotone(k, 32);
      this.k, capacity := k, Pow2(k);
      data := new byte[Pow2(k)](i => 0);
      head, tail, spaceSeq, dataSeq := 0, 0, 0, 0;
      h, t, queue := 0, 0, [];
    }

    /** Copy `src` in from cursor word `pos` on, in at most two pieces; `at` is the
        cursor that word stands for. */
    method WriteWrapped(pos: nat, src: bytes, ghost at: nat)
      requires k <= 32 && capacity == Pow2(k) == data.Length
      requires |src| <= capacity && pos == at % W64
      modifies data
      ensures data[..] == Splice(old(data[..]), at, src)
    {
      var idx := And(pos, capacity - 1);
      WrappedIndex(at, k);
      ghost var was := data[..];
      CopyIn(idx, src);
      ghost var now := Splice(was, at, src);
      assert forall j :: 0 <= j < |now| ==> now[j] == SpliceAt(was, idx, src, j);
    }

    /** The copy itself, as it falls into one or two pieces of the region. */
    method CopyIn(idx: nat, src: bytes)
      requires |src| <= data.Length && idx < data.Length
      modifies data
      ensures forall j :: 0 <= j < data.Length ==> data[j] == SpliceAt(old(data[..]), idx, src, j)
    {
      var first := if |src| < data.Length - idx then |src| else data.Length - idx;
      forall i | 0 <= i < first { data[idx + i] := src[i]; }
      if first < |src| {
        forall i | 0 <= i < |src| - first { data[i] := src[first + i]; }
      }
    }

    /** Copy `n` bytes out from cursor word `pos` on, in at most two pieces. */
    method ReadWrapped(pos: nat, n: nat, ghost at: nat) returns (out: bytes)
      requires k <= 32 && capacity == Pow2(k) == data.Length
      requires n <= capacity && pos == at % W64
      ensures out == Win(data[..], at, n)
    {
      var idx := And(pos, capacity - 1);
      WrappedIndex(at, k);
      out := CopyOut(idx, n);
      WinPieces(data[..], at, out);
    }

    method CopyOut(idx: nat, n: nat) returns (out: bytes)
      requires n <= data.Length && idx < data.Length
      ensures |out| == n
      ensures forall i :: 0 <= i < n && idx + i < data.Length ==> out[i] == data[idx + i]
      ensures forall i :: 0 <= i < n && idx + i >= data.Length ==> out[i] == data[idx + i - data.Length]
    {
      var first := if n < data.Length - idx then n else data.Length - idx;
      out := data[idx..idx + first];
      if first < n {
        out := out + data[..n - first];
      }
    }

    /** Append a record if the region has room for it. The caller holds the
        producer lock. */
    method PushLocked(rec: bytes) returns (ok: bool)
      requires Valid()
      modifies this`head, this`h, this`queue, data
      ensures Valid() && t == old(t)
      ensures ok <==> 4 + |rec| <= capacity - |EncAll(old(queue))|
      ensures queue == if ok then old(queue) + [rec] else old(queue)
      // no byte the consumer has yet to read is touched
      ensures Win(data[..], t, old(h) - t) == old(Win(data[..], t, h - t))
      ensures !ok ==> head == old(head) && data[..] == old(data[..])
    {
      hide Idx, Win, EncAll, Le, Pow2, Splice;
      var need := 4 + |rec|;
      if need > capacity { return false; }
      var used := (head - tail) % W64;
      assert used == h - t == |EncAll(queue)| by {
        WrappedDistance(h, t);
        LayoutEmpty(data[..], t, h, queue);
      }
      if capacity - used < need { return false; }
      ghost var was := data[..];
      assert (head + 4) % W64 == (h + 4) % W64 by { WrappedAdd(h, 4); }
      assert (head + need) % W64 == (h + need) % W64 by { WrappedAdd(h, need); }
      var len := Le(|rec| % W32, 4);
      WriteWrapped(head, len, h);
      WriteWrapped((head + 4) % W64, rec, h + 4);
      LayoutPush(was, t, h, queue, len, rec, data[..]);
      head := (head + need) % W64;
      h, queue := h + need, queue + [rec];
      return true;
    }

    /** Take the front record, or nothing when the ring is empty. */
    method TryPop() returns (r: Option<bytes>)
      requires Valid()
      modifies this`tail, this`spaceSeq, this`t, this`queue
      ensures Valid() && h == old(h)
      ensures old(queue) == [] ==> r == None && queue == [] && spaceSeq == old(spaceSeq)
      ensures old(queue) != [] ==>
        r == Some(old(queue)[0]) && queue == old(queue)[1..] && spaceSeq == (old(spaceSeq) + 1) % W32
    {
      hide Idx, Win, EncAll, FromLe, Pow2;
      assert head == tail <==> queue == [] by {
        WrappedDistance(h, t);
        LayoutEmpty(data[..], t, h, queue);
      }
      if head == tail { return None; }
      LayoutPop(data[..], t, h, queue);
      var len4 := ReadWrapped(tail, 4, t);
      var len := FromLe(len4);
      assert (tail + 4) % W64 == (t + 4) % W64 by { WrappedAdd(t, 4); }
      assert (tail + (4 + len)) % W64 == (t + (4 + len)) % W64 by { WrappedAdd(t, 4 + len); }
      var payload := ReadWrapped((tail + 4) % W64, len, t + 4);
      tail := (tail + (4 + len)) % W64;
      spaceSeq := (spaceSeq + 1) % W32;
      t, queue := t + 4 + len, queue[1..];
      return Some(payload);
    }
  }
}
