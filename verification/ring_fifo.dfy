/** What every step of the ring machine keeps: mutual exclusion, and the bytes
    between the cursors standing for the queue of unread records. */
module RingFifo {
  import opened Circular
  import opened Records
  import opened RingMachine

  /** The steps taken between acquiring the producer lock and giving it up. */
  predicate Holds(pc: PPc) {
    pc.EarlySeen? || pc.LoadHead? || pc.LoadTail? || pc.Check? || pc.Copy? || pc.LateSeen? || pc.Unlock?
  }

  // ---- the three-state mutex -------------------------------------------

  /** The owner, and nobody else, is between acquiring and releasing. */
  ghost predicate Owned(ps: seq<Producer>, owner: Option<nat>) {
    && (owner.Some? ==> owner.value < |ps|)
    && forall p :: 0 <= p < |ps| ==> (Holds(ps[p].pc) <==> owner == Some(p))
  }

  /** The word is non-zero exactly while one thread, and only one, holds the lock. */
  ghost predicate Mutex(s: State) {
    (s.lock == 0 <==> s.owner == None) && s.lock <= 2 && Owned(s.ps, s.owner)
  }

  predicate Asleep(s: State) {
    exists p :: 0 <= p < |s.ps| && s.ps[p].pc == LockParked
  }

  /** Someone is about to make the word 2, or owes the wake of an unlock. */
  predicate Rouser(s: State) {
    exists q :: 0 <= q < |s.ps| && (s.ps[q].pc == Swap || s.ps[q].pc == UnlockWake)
  }

  ghost predicate Sleepers(s: State) {
    Asleep(s) ==> s.lock == 2 || Rouser(s)
  }

  // ---- the queue in the bytes ------------------------------------------

  ghost predicate Fifo(c: Config, s: State) {
    && 0 < c.cap == |s.data|
    && |s.pushedBy| == |s.pushed|
    && |s.popped| <= |s.pushed| && s.popped == s.pushed[..|s.popped|]
    && Layout(s.data, s.tail, s.head, Queue(s))
  }

  /** What a lock holder's own variables say about the ring, stale or not. */
  ghost predicate Filling(c: Config, s: State, p: nat)
    requires p < |s.ps| && c.cap == |s.data| > 0
  {
    var me := s.ps[p];
    && (me.pc.LoadTail? || me.pc.Check? || me.pc.Copy? ==> me.h == s.head && Need(me) <= c.cap)
    && (me.pc.Check? || me.pc.Copy? ==> me.t <= s.tail && me.h - me.t <= c.cap)
    && (me.pc.Copy? ==>
          && me.i <= Need(me) && me.h - me.t + Need(me) <= c.cap
          && Win(s.data, me.h, me.i) == Enc(me.call.rec)[..me.i])
  }

  /** What the consumer has read is the beginning of the front record. */
  ghost predicate Reading(s: State) {
    var me := s.cons;
    && (me.pc.CLoadHead? || me.pc.CRead? ==> me.t == s.tail)
    && (me.pc.CLoadHead? ==> me.buf == [])
    && (me.pc.CRead? ==>
          Queue(s) != [] && |me.buf| <= |Enc(Queue(s)[0])| && me.buf == Enc(Queue(s)[0])[..|me.buf|])
  }

  /** The byte-level half of the invariant. */
  ghost predicate Bytes(c: Config, s: State) {
    && Fifo(c, s) && Reading(s)
    && forall p :: 0 <= p < |s.ps| ==> Filling(c, s, p)
  }

  ghost predicate Safe(c: Config, s: State) {
    Mutex(s) && Bytes(c, s)
  }

  lemma InitSafe(c: Config, threads: nat)
    requires 0 < c.cap <= W32
    ensures Safe(c, Init(c, threads)) && Sleepers(Init(c, threads))
  {
    var s := Init(c, threads);
    assert Win(s.data, 0, 0) == [] == EncAll([]);
  }

  /** A producer's step is one of four kinds, told apart by where it stands. */
  lemma ProdCases(c: Config, s: State, p: nat, woken: Option<nat>, s': State)
    requires p < |s.ps| && 0 < c.cap == |s.data| && ProdStep(c, s, p, woken) == Some(s')
    ensures
      || PushLockedStep(c, s, p) == Some(s')
      || (AcquireStep(c, s, p) == Some(s') && PushLockedStep(c, s, p) == None)
      || (ReleaseStep(s, p, woken) == Some(s') && PushLockedStep(c, s, p) == None && AcquireStep(c, s, p) == None)
      || (WaitStep(s, p) == Some(s') && PushLockedStep(c, s, p) == None && AcquireStep(c, s, p) == None
          && ReleaseStep(s, p, woken) == None)
  {}

  // ---- the shape of a release ------------------------------------------

  /** The threads after a lock wake reached `woken`. */
  function Woke(ps: seq<Producer>, woken: Option<nat>): (r: seq<Producer>)
    ensures |r| == |ps|
  {
    if woken.Some? && woken.value < |ps| then ps[woken.value := ps[woken.value].(pc := Swap)] else ps
  }

  /** Releasing touches the lock, the releasing thread, the one it wakes, and the
      log of finished calls. */
  lemma ReleaseShape(s: State, p: nat, woken: Option<nat>, s': State)
    requires p < |s.ps| && ReleaseStep(s, p, woken) == Some(s')
    ensures s' == s.(lock := s'.lock, owner := s'.owner, ps := s'.ps, results := s'.results)
    ensures |s'.ps| == |s.ps|
    ensures s'.ps == Woke(s.ps, if s.ps[p].pc == UnlockWake then woken else None)[p := s'.ps[p]]
    ensures s'.ps[p] == s.ps[p].(pc := s'.ps[p].pc)
    ensures match s'.ps[p].pc
      case UnlockWake => s'.results == s.results
      case BumpData => s.ps[p].ok && s'.results == s.results
      case Deadline => !s.ps[p].ok && s.ps[p].call.blocking && s'.results == s.results
      case Idle => !s.ps[p].ok && !s.ps[p].call.blocking && s'.results ==
        s.results[s.ps[p].call.id := Refused(s.ps[p].call, s.ps[p].pushes, s.ps[p].pops, s.now)]
      case _ => false
  {}

  // ---- mutual exclusion ------------------------------------------------

  /** One thread moves; ownership moves with it, or not at all. */
  lemma OwnedMove(ps: seq<Producer>, owner: Option<nat>, p: nat, me: Producer, owner': Option<nat>)
    requires Owned(ps, owner) && p < |ps|
    requires Holds(me.pc) <==> owner' == Some(p)
    requires owner' == owner || (owner == None && owner' == Some(p)) || (owner == Some(p) && owner' == None)
    ensures Owned(ps[p := me], owner')
  {}

  lemma PushLockedMutex(c: Config, s: State, p: nat, s': State)
    requires Mutex(s) && p < |s.ps| && 0 < c.cap == |s.data| && PushLockedStep(c, s, p) == Some(s')
    ensures Mutex(s')
  {
    OwnedMove(s.ps, s.owner, p, s'.ps[p], s.owner);
    assert s'.ps == s.ps[p := s'.ps[p]];
  }

  lemma AcquireMutex(c: Config, s: State, p: nat, s': State)
    requires Mutex(s) && p < |s.ps| && AcquireStep(c, s, p) == Some(s')
    ensures Mutex(s')
  {
    OwnedMove(s.ps, s.owner, p, s'.ps[p], s'.owner);
    assert s'.ps == s.ps[p := s'.ps[p]];
  }

  lemma ReleaseMutex(s: State, p: nat, woken: Option<nat>, s': State)
    requires Mutex(s) && p < |s.ps| && ReleaseStep(s, p, woken) == Some(s')
    ensures Mutex(s')
  {
    ReleaseShape(s, p, woken, s');
    var w := if s.ps[p].pc == UnlockWake then woken else None;
    if w.Some? { OwnedMove(s.ps, s.owner, w.value, s.ps[w.value].(pc := Swap), s.owner); }
    OwnedMove(Woke(s.ps, w), s.owner, p, s'.ps[p], s'.owner);
  }

  lemma WaitMutex(s: State, p: nat, s': State)
    requires Mutex(s) && p < |s.ps| && WaitStep(s, p) == Some(s')
    ensures Mutex(s')
  {
    OwnedMove(s.ps, s.owner, p, s'.ps[p], s.owner);
    assert s'.ps == s.ps[p := s'.ps[p]];
  }

  lemma StepMutex(c: Config, s: State, st: Step, s': State)
    requires Mutex(s) && 0 < c.cap == |s.data| && Apply(c, s, st) == Some(s')
    ensures Mutex(s')
  {
    hide ProdStep, PushLockedStep, AcquireStep, ReleaseStep, WaitStep;
    match st
    case Prod(p, woken) =>
      ProdCases(c, s, p, woken, s');
      if PushLockedStep(c, s, p).Some? { PushLockedMutex(c, s, p, s'); }
      else if AcquireStep(c, s, p).Some? { AcquireMutex(c, s, p, s'); }
      else if ReleaseStep(s, p, woken).Some? { ReleaseMutex(s, p, woken, s'); }
      else { WaitMutex(s, p, s'); }
    case Start(p, _, _, _) => OwnedMove(s.ps, s.owner, p, s'.ps[p], s.owner);
    case Timeout(p) => OwnedMove(s.ps, s.owner, p, s'.ps[p], s.owner);
    case _ =>
  }

  // ---- the bytes --------------------------------------------------------

  /** A step that leaves the region, the cursors and the history alone, and puts no
      thread into the middle of a push or a pop, keeps the bytes as they were. */
  lemma BytesFrame(c: Config, s: State, s': State)
    requires Bytes(c, s) && |s'.ps| == |s.ps|
    requires s'.data == s.data && s'.head == s.head && s'.tail == s.tail
    requires s'.pushed == s.pushed && s'.pushedBy == s.pushedBy && s'.popped == s.popped
    requires forall p :: 0 <= p < |s.ps| ==>
      s'.ps[p] == s.ps[p] || !(s'.ps[p].pc.LoadTail? || s'.ps[p].pc.Check? || s'.ps[p].pc.Copy?)
    requires s'.cons == s.cons || !(s'.cons.pc.CLoadHead? || s'.cons.pc.CRead?)
    ensures Bytes(c, s')
  {
    forall p | 0 <= p < |s.ps| ensures Filling(c, s', p) { assert Filling(c, s, p); }
  }

  /** One byte stored is a splice of length one. */
  lemma ByteIsSplice(data: bytes, pos: nat, b: byte)
    requires 0 < |data|
    ensures data[Idx(pos, |data|) := b] == Splice(data, pos, [b])
  {
    var x, y, idx := data[Idx(pos, |data|) := b], Splice(data, pos, [b]), Idx(pos, |data|);
    forall j | 0 <= j < |data| ensures x[j] == y[j] {
      assert y[j] == SpliceAt(data, idx, [b], j);
    }
  }

  /** A copied byte extends the new record's window and leaves the unread one alone. */
  lemma CopyByte(c: Config, s: State, p: nat, s': State)
    requires Safe(c, s) && p < |s.ps| && s.ps[p].pc == Copy && s.ps[p].i < Need(s.ps[p])
    requires PushLockedStep(c, s, p) == Some(s')
    ensures Bytes(c, s')
  {
    assert Filling(c, s, p);
    var me := s.ps[p];
    var b := Enc(me.call.rec)[me.i];
    var at := me.h + me.i;
    ByteIsSplice(s.data, at, b);
    SpliceKeepsPart(s.data, at, [b], s.tail, s.head - s.tail);
    SpliceExtends(s.data, me.h, at, [b], at + 1);
    assert at + 1 - me.h == me.i + 1;
    assert Enc(me.call.rec)[..me.i] + [b] == Enc(me.call.rec)[..me.i + 1];
  }

  /** The head store appends the record to the queue. */
  lemma HeadStore(c: Config, s: State, p: nat, s': State)
    requires Safe(c, s) && p < |s.ps| && s.ps[p].pc == Copy && s.ps[p].i == Need(s.ps[p])
    requires PushLockedStep(c, s, p) == Some(s')
    ensures Bytes(c, s') && Queue(s') == Queue(s) + [s.ps[p].call.rec]
  {
    hide Idx, Win, EncAll, Le;
    assert Filling(c, s, p);
    var me := s.ps[p];
    var rec, q := me.call.rec, Queue(s);
    assert Enc(rec)[..me.i] == Enc(rec);
    assert Queue(s') == q + [rec];
    assert Layout(s'.data, s'.tail, s'.head, q + [rec]) by {
      AppendWindow(s.data, s.tail, s.head, q, rec);
    }
    assert s'.popped == s'.pushed[..|s'.popped|];
    forall p' | 0 <= p' < |s.ps| ensures Filling(c, s', p') {
      assert p' != p ==> !Holds(s.ps[p'].pc);
    }
  }

  lemma AppendWindow(data: bytes, t: nat, h: nat, q: seq<bytes>, rec: bytes)
    requires Layout(data, t, h, q) && h - t + 4 + |rec| <= |data|
    requires Win(data, h, 4 + |rec|) == Enc(rec)
    ensures Layout(data, t, h + 4 + |rec|, q + [rec])
  {
    WinSplit(data, t, h - t, 4 + |rec|);
    assert h - t + (4 + |rec|) == h + 4 + |rec| - t;
    EncAllAppend(q, rec);
  }

  /** What a holder learns before it writes. */
  lemma LoadsFill(c: Config, s: State, p: nat, s': State)
    requires 0 < c.cap == |s.data| && s.tail <= s.head <= s.tail + c.cap
    requires p < |s.ps| && Filling(c, s, p) && s.ps[p].pc != Copy && PushLockedStep(c, s, p) == Some(s')
    ensures Filling(c, s', p)
  {
    hide Idx, Enc;
  }

  lemma PushLockedSafe(c: Config, s: State, p: nat, s': State)
    requires Safe(c, s) && p < |s.ps| && PushLockedStep(c, s, p) == Some(s')
    ensures Bytes(c, s')
  {
    LayoutEmpty(s.data, s.tail, s.head, Queue(s));
    hide Idx, EncAll, Le, Mutex, Win, Enc;
    assert Filling(c, s, p);
    if s.ps[p].pc == Copy {
      if s.ps[p].i < Need(s.ps[p]) { CopyByte(c, s, p, s'); } else { HeadStore(c, s, p, s'); }
    } else {
      assert s'.data == s.data && Queue(s') == Queue(s);
      forall q | 0 <= q < |s.ps| ensures Filling(c, s', q) {
        assert Filling(c, s, q);
        if q == p { LoadsFill(c, s, p, s'); }
      }
    }
  }

  /** A partial copy of a record either shows its length to be incomplete, or is whole. */
  lemma Prefix(rec: bytes, buf: bytes)
    requires |rec| < W32 && |buf| <= 4 + |rec| && buf == Enc(rec)[..|buf|]
    ensures Whole(buf) <==> |buf| == 4 + |rec|
    ensures Whole(buf) ==> buf == Enc(rec) && buf[4..] == rec
  {
    hide Le, FromLe;
    var w := Le(|rec| % W32, 4);
    Le32(|rec|);
    if |buf| >= 4 {
      assert buf[..4] == Enc(rec)[..4] == w;
    }
    if |buf| == 4 + |rec| {
      assert Enc(rec)[..|buf|] == Enc(rec);
      assert (w + rec)[4..] == rec;
    }
  }

  /** The byte read next is the next byte of the front record. */
  lemma NextByte(data: bytes, t: nat, h: nat, q: seq<bytes>, n: nat)
    requires Layout(data, t, h, q) && q != [] && n < |Enc(q[0])|
    ensures data[Idx(t + n, |data|)] == Enc(q[0])[n]
  {
    LayoutEmpty(data, t, h, q);
    assert EncAll(q)[n] == Enc(q[0])[n];
    assert Win(data, t, h - t)[n] == data[Idx(t + n, |data|)];
  }

  lemma ReadByte(c: Config, s: State, s': State)
    requires Bytes(c, s) && s.cons.pc == CRead && !Whole(s.cons.buf) && ConsStep(c, s) == Some(s')
    ensures Bytes(c, s')
  {
    var me, rec := s.cons, Queue(s)[0];
    var n := |me.buf|;
    Prefix(rec, me.buf);
    NextByte(s.data, s.tail, s.head, Queue(s), n);
    assert Enc(rec)[..n] + [Enc(rec)[n]] == Enc(rec)[..n + 1];
    assert Queue(s') == Queue(s);
    forall p | 0 <= p < |s.ps| ensures Filling(c, s', p) { assert Filling(c, s, p); }
  }

  /** The tail store removes the front record, and what was read is that record. */
  lemma TailStore(c: Config, s: State, s': State)
    requires Bytes(c, s) && s.cons.pc == CRead && Whole(s.cons.buf) && ConsStep(c, s) == Some(s')
    ensures Bytes(c, s') && Queue(s) != []
    ensures s'.popped == s.popped + [Queue(s)[0]] && Queue(s') == Queue(s)[1..]
  {
    var q := Queue(s);
    Prefix(q[0], s.cons.buf);
    LayoutPop(s.data, s.tail, s.head, q);
    assert s.pushed[|s.popped|] == q[0];
    assert s'.popped == s.pushed[..|s.popped| + 1];
    assert Queue(s') == q[1..];
    forall p | 0 <= p < |s.ps| ensures Filling(c, s', p) { assert Filling(c, s, p); }
  }

  lemma ConsSafe(c: Config, s: State, s': State)
    requires Bytes(c, s) && ConsStep(c, s) == Some(s')
    ensures Bytes(c, s')
  {
    match s.cons.pc
    case CRead =>
      if Whole(s.cons.buf) { TailStore(c, s, s'); } else { ReadByte(c, s, s'); }
    case CLoadTail =>
      forall p | 0 <= p < |s.ps| ensures Filling(c, s', p) { assert Filling(c, s, p); }
    case CLoadHead =>
      LayoutEmpty(s.data, s.tail, s.head, Queue(s));
      forall p | 0 <= p < |s.ps| ensures Filling(c, s', p) { assert Filling(c, s, p); }
    case _ => BytesFrame(c, s, s');
  }

  lemma StepBytes(c: Config, s: State, st: Step, s': State)
    requires Safe(c, s) && Apply(c, s, st) == Some(s')
    ensures Bytes(c, s')
  {
    hide ProdStep, PushLockedStep, AcquireStep, ReleaseStep, WaitStep, ConsStep;
    match st
    case Prod(p, woken) =>
      ProdCases(c, s, p, woken, s');
      if PushLockedStep(c, s, p).Some? { PushLockedSafe(c, s, p, s'); }
      else if AcquireStep(c, s, p).Some? { AcquireBytes(c, s, p, s'); }
      else if ReleaseStep(s, p, woken).Some? { ReleaseBytes(c, s, p, woken, s'); }
      else { WaitBytes(c, s, p, s'); }
    case Cons => ConsSafe(c, s, s');
    case _ => BytesFrame(c, s, s');
  }

  lemma AcquireBytes(c: Config, s: State, p: nat, s': State)
    requires Bytes(c, s) && p < |s.ps| && AcquireStep(c, s, p) == Some(s')
    ensures Bytes(c, s')
  {
    BytesFrame(c, s, s');
  }

  lemma ReleaseBytes(c: Config, s: State, p: nat, woken: Option<nat>, s': State)
    requires Bytes(c, s) && p < |s.ps| && ReleaseStep(s, p, woken) == Some(s')
    ensures Bytes(c, s')
  {
    ReleaseShape(s, p, woken, s');
    BytesFrame(c, s, s');
  }

  lemma WaitBytes(c: Config, s: State, p: nat, s': State)
    requires Bytes(c, s) && p < |s.ps| && WaitStep(s, p) == Some(s')
    ensures Bytes(c, s')
  {
    BytesFrame(c, s, s');
  }

  /** Every step keeps the invariant. */
  lemma StepSafe(c: Config, s: State, st: Step, s': State)
    requires Safe(c, s) && Apply(c, s, st) == Some(s')
    ensures Safe(c, s')
  {
    StepMutex(c, s, st, s');
    StepBytes(c, s, st, s');
  }
}
