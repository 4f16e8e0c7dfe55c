/** `push_blocking` as written can sleep on an empty ring with nobody left to wake it: a
    schedule that gets there, for every capacity that holds a record at all. One producer,
    whose first record fills the region. */
module RingLostWakeup {
  import opened Circular
  import opened Records
  import opened RingMachine
  import opened RingFifo
  import opened RingWakeups
  import opened RingTheorems

  /** The order as written. */
  function AsWritten(cap: nat): Config { Config(cap, false) }

  /** A record that fills the region, and what it is in bytes. */
  function Filler(cap: nat): bytes
    requires cap >= 4
  {
    seq(cap - 4, i => 0)
  }

  function Wire(cap: nat): (w: bytes)
    requires cap >= 4
    ensures |w| == cap
  {
    Enc(Filler(cap))
  }

  /** The region after `i` bytes of the copy. */
  function Partly(cap: nat, i: nat): (d: bytes)
    requires cap >= 4 && i <= cap
    ensures |d| == cap
  {
    Wire(cap)[..i] + seq(cap - i, j => 0)
  }

  function FirstCall(cap: nat): Call
    requires cap >= 4
  {
    Call(0, Filler(cap), true, None, 0)
  }

  const SECOND := Call(1, [], true, None, 1)
  const RESTING := Consumer(CIdle, false, None, 0, false, 0, [], 0, 0, [])

  ghost predicate Reached(cap: nat, s: State) {
    exists steps, states :: Behaviour(AsWritten(cap), 1, steps, states) && states[|steps|] == s
  }

  lemma Take(cap: nat, s: State, st: Step, s': State)
    requires Reached(cap, s) && |s.data| == cap > 0 && Apply(AsWritten(cap), s, st) == Some(s')
    ensures Reached(cap, s')
  {
    var steps, states :| Behaviour(AsWritten(cap), 1, steps, states) && states[|steps|] == s;
    var more, after := steps + [st], states + [s'];
    forall i | 0 <= i < |more|
      ensures |after[i].data| == cap && Apply(AsWritten(cap), after[i], more[i]) == Some(after[i + 1])
    {
      if i < |steps| { assert more[i] == steps[i] && after[i] == states[i] && after[i + 1] == states[i + 1]; }
    }
    assert Behaviour(AsWritten(cap), 1, more, after) && after[|more|] == s';
  }

  /** The producer's next step. */
  lemma Go(cap: nat, s: State, s': State)
    requires Reached(cap, s) && |s.ps| == 1 && |s.data| == cap > 0 && ProdStep(AsWritten(cap), s, 0, None) == Some(s')
    ensures Reached(cap, s')
  {
    hide ProdStep;
    Take(cap, s, Prod(0, None), s');
  }

  /** The consumer's next step. */
  lemma GoCons(cap: nat, s: State, s': State)
    requires Reached(cap, s) && |s.data| == cap > 0 && ConsStep(AsWritten(cap), s) == Some(s')
    ensures Reached(cap, s')
  {
    hide ConsStep;
    Take(cap, s, Cons, s');
  }

  function Pusher(pc: PPc, call: Call, h: nat, i: nat, ok: bool, seen: nat): Producer {
    Producer(pc, call, h, 0, i, ok, seen, call.id, 0, 0)
  }

  /** The first call, `i` bytes into its copy, nothing published. */
  function First(cap: nat, pc: PPc, i: nat): State
    requires 4 <= cap && i <= cap
  {
    var held := pc != Cas;
    State(Partly(cap, i), 0, 0, if held then 1 else 0, 0, 0, [Pusher(pc, FirstCall(cap), 0, i, false, 0)], RESTING, 0,
          if held then Some(0) else None, [], [], [], map[], 1)
  }

  /** The first call's record is published and fills the region. */
  function Full(cap: nat, pc: PPc, lock: nat, dataSeq: nat): State
    requires 4 <= cap
  {
    State(Wire(cap), cap, 0, lock, dataSeq, 0, [Pusher(pc, FirstCall(cap), 0, cap, true, 0)], RESTING, 0,
          if lock == 0 then None else Some(0), [Filler(cap)], [0], [],
          if pc == Idle then map[0 := Appended(FirstCall(cap))] else map[], 1)
  }

  /** The second call, which finds no room. */
  function Second(
    cap: nat, pc: PPc, lock: nat, me: Producer, tail: nat, spaceSeq: nat, cons: Consumer, popped: seq<bytes>): State
    requires 4 <= cap
  {
    State(Wire(cap), cap, tail, lock, 1, spaceSeq, [me.(pc := pc)], cons, 0,
          if lock == 0 then None else Some(0), [Filler(cap)], [0], popped, map[0 := Appended(FirstCall(cap))], 2)
  }

  /** It has failed its room check, and is about to load `space_seq`. */
  function Checked(cap: nat, tail: nat, spaceSeq: nat, cons: Consumer, popped: seq<bytes>): State
    requires 4 <= cap
  {
    Second(cap, LateSeen, 1, Pusher(LateSeen, SECOND, cap, cap, false, 0), tail, spaceSeq, cons, popped)
  }

  /** The consumer in its one pop, or after it. */
  function Popping(pc: CPc, buf: bytes): Consumer {
    Consumer(pc, false, None, 0, false, 0, buf, 0, 0, if pc.CIdle? then [Got(Payload(buf))] else [])
  }

  lemma Single()
    ensures forall a: Producer, b: Producer :: [a][0 := b] == [b]
  {}

  lemma ReachStart(cap: nat)
    requires 4 <= cap
    ensures Reached(cap, First(cap, Cas, 0))
  {
    Single();
    var s0 := Init(AsWritten(cap), 1);
    var none: seq<Step> := [];
    assert Behaviour(AsWritten(cap), 1, none, [s0]) && [s0][|none|] == s0;
    assert s0.data == Partly(cap, 0);
    assert s0.ps == [Producer(Idle, Call(0, [], false, None, 0), 0, 0, 0, false, 0, 0, 0, 0)];
    Take(cap, s0, Start(0, Filler(cap), true, None), First(cap, Cas, 0));
  }

  lemma ReachCopying(cap: nat)
    requires 4 <= cap
    ensures Reached(cap, First(cap, Copy, 0))
  {
    hide Reached, Partly, Filler;
    Single();
    FillerFills(cap);
    ReachStart(cap);
    Go(cap, First(cap, Cas, 0), First(cap, LoadHead, 0));
    Go(cap, First(cap, LoadHead, 0), First(cap, LoadTail, 0));
    Go(cap, First(cap, LoadTail, 0), First(cap, Check, 0));
    Go(cap, First(cap, Check, 0), First(cap, Copy, 0));
  }

  lemma FillerFills(cap: nat)
    requires 4 <= cap
    ensures |Filler(cap)| == cap - 4
  {}

  lemma PartlyMore(cap: nat, i: nat)
    requires 4 <= cap && 0 < i <= cap
    ensures Idx(0 + (i - 1), cap) == i - 1
    ensures Partly(cap, i - 1)[i - 1 := Wire(cap)[i - 1]] == Partly(cap, i)
  {
    hide Wire;
  }

  lemma {:induction false} ReachCopied(cap: nat, i: nat)
    requires 4 <= cap && i <= cap
    ensures Reached(cap, First(cap, Copy, i))
    decreases i
  {
    hide Reached, Partly, Filler, Enc;
    if i == 0 {
      ReachCopying(cap);
    } else {
      Single();
      FillerFills(cap);
      ReachCopied(cap, i - 1);
      PartlyMore(cap, i);
      Go(cap, First(cap, Copy, i - 1), First(cap, Copy, i));
    }
  }

  lemma ReachPublished(cap: nat)
    requires 4 <= cap
    ensures Reached(cap, Full(cap, Unlock, 1, 0))
  {
    Single();
    ReachCopied(cap, cap);
    assert Partly(cap, cap) == Wire(cap) by { assert Wire(cap)[..cap] == Wire(cap); }
    FillerFills(cap);
    hide Reached, Partly, Filler, Enc, Wire;
    var none: seq<bytes>, nobody: seq<nat> := [], [];
    assert none + [Filler(cap)] == [Filler(cap)] && nobody + [0] == [0];
    Go(cap, First(cap, Copy, cap), Full(cap, Unlock, 1, 0));
  }

  lemma ReachFull(cap: nat)
    requires 4 <= cap
    ensures Reached(cap, Full(cap, Idle, 0, 1))
  {
    hide Reached, Filler, Enc, Wire;
    Single();
    ReachPublished(cap);
    Go(cap, Full(cap, Unlock, 1, 0), Full(cap, BumpData, 0, 0));
    Go(cap, Full(cap, BumpData, 0, 0), Full(cap, WakeData, 0, 1));
    var empty: map<nat, Outcome> := map[];
    assert empty[0 := Appended(FirstCall(cap))] == map[0 := Appended(FirstCall(cap))];
    Go(cap, Full(cap, WakeData, 0, 1), Full(cap, Idle, 0, 1));
  }

  lemma ReachChecked(cap: nat)
    requires 4 <= cap
    ensures Reached(cap, Checked(cap, 0, 0, RESTING, []))
  {
    hide Reached, Filler, Enc, Wire;
    Single();
    ReachFull(cap);
    // what the first call left in the thread's variables is overwritten as it goes
    var me := Producer(Cas, SECOND, 0, 0, cap, true, 0, 0, 0, 0);
    Take(cap, Full(cap, Idle, 0, 1), Start(0, [], true, None), Second(cap, Cas, 0, me, 0, 0, RESTING, []));
    Go(cap, Second(cap, Cas, 0, me, 0, 0, RESTING, []), Second(cap, LoadHead, 1, me, 0, 0, RESTING, []));
    var me1 := me.(h := cap);
    Go(cap, Second(cap, LoadHead, 1, me, 0, 0, RESTING, []), Second(cap, LoadTail, 1, me1, 0, 0, RESTING, []));
    var me2 := me1.(pushes := 1);
    Go(cap, Second(cap, LoadTail, 1, me1, 0, 0, RESTING, []), Second(cap, Check, 1, me2, 0, 0, RESTING, []));
    Go(cap, Second(cap, Check, 1, me2, 0, 0, RESTING, []), Checked(cap, 0, 0, RESTING, []));
  }

  lemma ReachReading(cap: nat)
    requires 4 <= cap
    ensures Reached(cap, Checked(cap, 0, 0, Popping(CRead, []), []))
  {
    hide Reached, Filler, Enc, Wire;
    ReachChecked(cap);
    Take(cap, Checked(cap, 0, 0, RESTING, []), StartPop(false, None), Checked(cap, 0, 0, Popping(CLoadTail, []), []));
    GoCons(cap, Checked(cap, 0, 0, Popping(CLoadTail, []), []), Checked(cap, 0, 0, Popping(CLoadHead, []), []));
    GoCons(cap, Checked(cap, 0, 0, Popping(CLoadHead, []), []), Checked(cap, 0, 0, Popping(CRead, []), []));
  }

  /** A record only partly read does not look whole, and one wholly read does. */
  lemma PartlyRead(cap: nat, i: nat)
    requires 4 <= cap <= W32 && i <= cap
    ensures Whole(Wire(cap)[..i]) <==> i == cap
    ensures i < cap ==> Wire(cap)[..i] + [Wire(cap)[Idx(0 + i, cap)]] == Wire(cap)[..i + 1]
  {
    FillerFills(cap);
    hide Filler, Enc, Whole;
    Prefix(Filler(cap), Wire(cap)[..i]);
  }

  lemma {:induction false} ReachRead(cap: nat, i: nat)
    requires 4 <= cap <= W32 && i <= cap
    ensures Reached(cap, Checked(cap, 0, 0, Popping(CRead, Wire(cap)[..i]), []))
    decreases i
  {
    hide Reached, Filler, Enc, Wire, Whole;
    if i == 0 {
      ReachReading(cap);
      assert Wire(cap)[..0] == [];
    } else {
      ReachRead(cap, i - 1);
      PartlyRead(cap, i - 1);
      var buf := Wire(cap)[..i - 1];
      GoCons(cap, Checked(cap, 0, 0, Popping(CRead, buf), []), Checked(cap, 0, 0, Popping(CRead, Wire(cap)[..i]), []));
    }
  }

  /** The pop completes, its bump and its wake included, before the load. */
  lemma ReachPopped(cap: nat)
    requires 4 <= cap <= W32
    ensures Reached(cap, Checked(cap, cap, 1, Popping(CIdle, Wire(cap)), [Filler(cap)]))
  {
    var w, rec := Wire(cap), Filler(cap);
    ReachRead(cap, cap);
    PartlyRead(cap, cap);
    assert w[..cap] == w && w[4..] == rec;
    hide Reached, Filler, Enc, Wire, Whole;
    var none: seq<bytes> := [];
    assert none + [rec] == [rec];
    GoCons(cap, Checked(cap, 0, 0, Popping(CRead, w), []), Checked(cap, cap, 0, Popping(CBump, w), [rec]));
    GoCons(cap, Checked(cap, cap, 0, Popping(CBump, w), [rec]), Checked(cap, cap, 1, Popping(CWake, w), [rec]));
    var s := Checked(cap, cap, 1, Popping(CWake, w), [rec]);
    assert ReleaseSpaceWaiters(s.ps) == s.ps;
    assert s.cons.ends + [Got(Payload(w))] == [Got(Payload(w))];
    GoCons(cap, s, Checked(cap, cap, 1, Popping(CIdle, w), [rec]));
  }

  /** Thread `p` sleeps although its record would fit, and no wake is on its way. */
  ghost predicate Stranded(c: Config, s: State, p: nat) {
    && p < |s.ps| && s.ps[p].pc == SpaceParked && Room(c, s, s.ps[p]) && s.ps[p].lag < W32
    && s.cons.pc != CBump && s.cons.pc != CWake
  }

  /** In the order as written, the lost wakeup is real, whatever the capacity. */
  lemma AsWrittenLosesAWakeup(cap: nat)
    requires 4 <= cap <= W32
    ensures exists s :: Reached(cap, s) && Stranded(AsWritten(cap), s, 0) && s.head == s.tail
  {
    hide Reached, Filler, Enc, Wire;
    Single();
    ReachPopped(cap);
    var w, rec := Wire(cap), Filler(cap);
    var cons := Popping(CIdle, w);
    var me := Pusher(LateSeen, SECOND, cap, cap, false, 1);
    Go(cap, Checked(cap, cap, 1, cons, [rec]), Second(cap, Unlock, 1, me, cap, 1, cons, [rec]));
    Go(cap, Second(cap, Unlock, 1, me, cap, 1, cons, [rec]), Second(cap, Deadline, 0, me, cap, 1, cons, [rec]));
    Go(cap, Second(cap, Deadline, 0, me, cap, 1, cons, [rec]), Second(cap, SpaceWait, 0, me, cap, 1, cons, [rec]));
    Go(cap, Second(cap, SpaceWait, 0, me, cap, 1, cons, [rec]), Second(cap, SpaceParked, 0, me, cap, 1, cons, [rec]));
    assert Stranded(AsWritten(cap), Second(cap, SpaceParked, 0, me, cap, 1, cons, [rec]), 0);
  }

  /** Some schedule of some number of producers strands one of them. */
  ghost predicate CanStrand(c: Config) {
    exists threads, steps, states, i, p ::
      Behaviour(c, threads, steps, states) && 0 <= i <= |steps| && Stranded(c, states[i], p)
  }

  /** A producer can be left asleep with room for its record if and only if `space_seq` is
      loaded after the room check, as written, and the region holds a record at all. */
  lemma StrandsExactlyAsWritten(c: Config)
    requires 0 < c.cap <= W32
    ensures CanStrand(c) <==> !c.early && c.cap >= 4
  {
    if CanStrand(c) {
      hide Behaviour;
      var threads, steps, states, i, p :|
        Behaviour(c, threads, steps, states) && 0 <= i <= |steps| && Stranded(c, states[i], p);
      NoLostSpaceWake(c, threads, steps, states, i, p);
      RunInv(c, threads, steps, states, i);
      var s: State := states[i];
      LayoutEmpty(s.data, s.tail, s.head, Queue(s));
    }
    if !c.early && c.cap >= 4 {
      AsWrittenLosesAWakeup(c.cap);
      var s :| Reached(c.cap, s) && Stranded(AsWritten(c.cap), s, 0);
      var steps, states :| Behaviour(AsWritten(c.cap), 1, steps, states) && states[|steps|] == s;
      assert c == AsWritten(c.cap);
      hide Behaviour, Stranded;
      assert Behaviour(c, 1, steps, states) && Stranded(c, states[|steps|], 0);
    }
  }
}
