/** Who is asleep, and who owes them a wake: the lock's sleepers, the consumer
    waiting for data, and producers waiting for space. */
module RingWakeups {
  import opened Circular
  import opened Records
  import opened RingMachine
  import opened RingFifo

  // ---- sleepers on the lock --------------------------------------------

  lemma SleepersFrame(s: State, s': State)
    requires Sleepers(s) && s'.lock == s.lock && |s'.ps| == |s.ps|
    requires forall q :: 0 <= q < |s.ps| ==> s'.ps[q].pc == LockParked ==> s.ps[q].pc == LockParked
    requires forall q :: 0 <= q < |s.ps| ==> s.ps[q].pc in {Swap, UnlockWake} ==> s'.ps[q].pc in {Swap, UnlockWake}
    ensures Sleepers(s')
  {
    if Rouser(s) {
      var q :| 0 <= q < |s.ps| && (s.ps[q].pc == Swap || s.ps[q].pc == UnlockWake);
      assert s'.ps[q].pc in {Swap, UnlockWake};
    }
  }

  /** Taking the free lock wakes nobody, and leaves every rouser where it was. */
  lemma AcquireSleepers(c: Config, s: State, p: nat, s': State)
    requires Sleepers(s) && p < |s.ps| && AcquireStep(c, s, p) == Some(s')
    ensures Sleepers(s')
  {
    if s.ps[p].pc == Cas && s.lock == 0 {
      assert forall q :: 0 <= q < |s.ps| ==> s'.ps[q].pc == LockParked ==> s.ps[q].pc == LockParked;
      if Asleep(s') {
        assert Rouser(s);
        var q :| 0 <= q < |s.ps| && (s.ps[q].pc == Swap || s.ps[q].pc == UnlockWake);
        assert s'.ps[q] == s.ps[q];
      }
    } else {
      assert s'.lock == 2 || s'.ps[p].pc == Swap;
    }
  }

  lemma ReleaseSleepers(s: State, p: nat, woken: Option<nat>, s': State)
    requires Sleepers(s) && p < |s.ps| && ReleaseStep(s, p, woken) == Some(s')
    ensures Sleepers(s')
  {
    ReleaseShape(s, p, woken, s');
    if Asleep(s') {
      if s.ps[p].pc == UnlockWake {
        assert woken.Some? && s'.ps[woken.value].pc == Swap;
      } else if s.lock == 2 {
        assert s'.ps[p].pc == UnlockWake;
      } else {
        assert Asleep(s);
        var q :| 0 <= q < |s.ps| && (s.ps[q].pc == Swap || s.ps[q].pc == UnlockWake);
        assert s'.ps[q] == s.ps[q];
      }
    }
  }

  lemma PushLockedSleepers(c: Config, s: State, p: nat, s': State)
    requires Sleepers(s) && p < |s.ps| && 0 < c.cap == |s.data| && PushLockedStep(c, s, p) == Some(s')
    ensures Sleepers(s')
  {
    SleepersFrame(s, s');
  }

  lemma WaitSleepers(s: State, p: nat, s': State)
    requires Sleepers(s) && p < |s.ps| && WaitStep(s, p) == Some(s')
    ensures Sleepers(s')
  {
    SleepersFrame(s, s');
  }

  /** Whenever a thread sleeps on the lock, the word is 2, or the wake of an unlock
      is still owed, or a contender is on its way to making it 2. */
  lemma StepSleepers(c: Config, s: State, st: Step, s': State)
    requires Sleepers(s) && 0 < c.cap == |s.data| && Apply(c, s, st) == Some(s')
    ensures Sleepers(s')
  {
    hide ProdStep, PushLockedStep, AcquireStep, ReleaseStep, WaitStep;
    match st
    case Prod(p, woken) =>
      ProdCases(c, s, p, woken, s');
      if PushLockedStep(c, s, p).Some? { PushLockedSleepers(c, s, p, s'); }
      else if AcquireStep(c, s, p).Some? { AcquireSleepers(c, s, p, s'); }
      else if ReleaseStep(s, p, woken).Some? { ReleaseSleepers(s, p, woken, s'); }
      else { WaitSleepers(s, p, s'); }
    case Timeout(p) =>
      if s.ps[p].pc == LockParked { assert s'.ps[p].pc == Swap; } else { SleepersFrame(s, s'); }
    case _ => SleepersFrame(s, s');
  }

  // ---- the consumer, waiting for data ----------------------------------

  /** Past its head store, and yet to bump `data_seq`. */
  predicate PreBump(me: Producer) {
    me.ok && (me.pc.Unlock? || me.pc.UnlockWake? || me.pc.BumpData?)
  }

  /** Past its head store, and yet to wake the consumer. */
  predicate Pending(me: Producer) {
    PreBump(me) || (me.ok && me.pc.WakeData?)
  }

  predicate SomePreBump(ps: seq<Producer>) {
    exists p :: 0 <= p < |ps| && PreBump(ps[p])
  }

  predicate SomePending(ps: seq<Producer>) {
    exists p :: 0 <= p < |ps| && Pending(ps[p])
  }

  /** A consumer about to sleep on a non-empty ring will be turned back by the word,
      or by a bump to come; one asleep will be woken, unless the 32-bit word had
      gone all the way round between its load and the sleep. */
  ghost predicate DataWake(s: State) {
    var me := s.cons;
    && (me.final && (me.pc.CLoadTail? || me.pc.CLoadHead?) ==> me.seen <= s.dataSeq)
    && (me.pc.CDeadline? || me.pc.CWait? ==>
          me.seen <= s.dataSeq && (s.head > s.tail ==> SomePreBump(s.ps) || s.dataSeq > me.seen))
    && (me.pc.CParked? && s.head > s.tail ==> SomePending(s.ps) || me.lag >= W32)
  }

  lemma StepDataWake(c: Config, s: State, st: Step, s': State)
    requires Safe(c, s) && DataWake(s) && Apply(c, s, st) == Some(s')
    ensures DataWake(s')
  {
    hide ProdStep, PushLockedStep, AcquireStep, ReleaseStep, WaitStep, ConsStep;
    match st
    case Prod(p, woken) =>
      ProdCases(c, s, p, woken, s');
      if PushLockedStep(c, s, p).Some? { PushLockedDataWake(c, s, p, s'); }
      else if AcquireStep(c, s, p).Some? { AcquireDataWake(c, s, p, s'); }
      else if ReleaseStep(s, p, woken).Some? { ReleaseDataWake(s, p, woken, s'); }
      else { WaitDataWake(s, p, s'); }
    case Cons => ConsDataWake(c, s, s');
    case _ => QuietDataWake(s, s');
  }

  /** A step that keeps the cursors, `data_seq` and every debt of a wake. */
  lemma QuietDataWake(s: State, s': State)
    requires DataWake(s) && |s'.ps| == |s.ps|
    requires s'.head == s.head && s'.tail == s.tail && s'.dataSeq == s.dataSeq
    requires s'.cons == s.cons || s'.cons.pc == CTop || (!s'.cons.final && s'.cons.pc == CLoadTail)
    requires forall q :: 0 <= q < |s.ps| && PreBump(s.ps[q]) ==> PreBump(s'.ps[q])
    requires forall q :: 0 <= q < |s.ps| && Pending(s.ps[q]) ==> Pending(s'.ps[q])
    ensures DataWake(s')
  {
    if SomePreBump(s.ps) {
      var q :| 0 <= q < |s.ps| && PreBump(s.ps[q]);
      assert PreBump(s'.ps[q]);
    }
    if SomePending(s.ps) {
      var q :| 0 <= q < |s.ps| && Pending(s.ps[q]);
      assert Pending(s'.ps[q]);
    }
  }

  lemma PushLockedDataWake(c: Config, s: State, p: nat, s': State)
    requires Safe(c, s) && DataWake(s) && p < |s.ps| && PushLockedStep(c, s, p) == Some(s')
    ensures DataWake(s')
  {
    if s'.head == s.head {
      QuietDataWake(s, s');
    } else {
      assert PreBump(s'.ps[p]) && Pending(s'.ps[p]);
    }
  }

  lemma AcquireDataWake(c: Config, s: State, p: nat, s': State)
    requires DataWake(s) && p < |s.ps| && AcquireStep(c, s, p) == Some(s')
    ensures DataWake(s')
  {
    QuietDataWake(s, s');
  }

  lemma ReleaseDataWake(s: State, p: nat, woken: Option<nat>, s': State)
    requires DataWake(s) && p < |s.ps| && ReleaseStep(s, p, woken) == Some(s')
    ensures DataWake(s')
  {
    ReleaseShape(s, p, woken, s');
    assert PreBump(s.ps[p]) ==> PreBump(s'.ps[p]);
    QuietDataWake(s, s');
  }

  lemma WaitDataWake(s: State, p: nat, s': State)
    requires DataWake(s) && p < |s.ps| && WaitStep(s, p) == Some(s')
    ensures DataWake(s')
  {
    match s.ps[p].pc
    case BumpData =>
      if SomePending(s.ps) {
        var q :| 0 <= q < |s.ps| && Pending(s.ps[q]);
        assert Pending(s'.ps[q]);
      }
    case WakeData =>
      if s.cons.pc != CParked && SomePreBump(s.ps) {
        var q :| 0 <= q < |s.ps| && PreBump(s.ps[q]);
        assert PreBump(s'.ps[q]);
      }
    case _ => QuietDataWake(s, s');
  }

  lemma ParkDataWake(c: Config, s: State, s': State)
    requires DataWake(s) && s.cons.pc == CWait && 0 < c.cap == |s.data| && ConsStep(c, s) == Some(s')
    ensures DataWake(s')
  {
    if SomePreBump(s.ps) {
      var q :| 0 <= q < |s.ps| && PreBump(s.ps[q]);
      assert Pending(s'.ps[q]);
    }
  }

  lemma ConsDataWake(c: Config, s: State, s': State)
    requires DataWake(s) && 0 < c.cap == |s.data| && ConsStep(c, s) == Some(s')
    requires s.cons.pc.CLoadHead? ==> s.cons.t == s.tail
    ensures DataWake(s')
  {
    hide Idx, EncAll, FromLe;
    match s.cons.pc
    case CWait => ParkDataWake(c, s, s');
    case CDeadline => assert s'.ps == s.ps;
    case _ =>
  }

  /** No wake for data is lost: a consumer asleep on a ring that is not empty is
      about to be woken. */
  lemma ConsumerIsWoken(s: State)
    requires DataWake(s) && s.cons.pc == CParked && s.head > s.tail && s.cons.lag < W32
    ensures exists p :: 0 <= p < |s.ps| && Pending(s.ps[p])
  {}

  // ---- producers, waiting for space ------------------------------------

  /** The record the thread wants to push would fit right now. */
  predicate Room(c: Config, s: State, me: Producer) {
    Need(me) <= c.cap - (s.head - s.tail)
  }

  /** It holds a value of `space_seq` to sleep on. */
  predicate Watching(c: Config, me: Producer) {
    || me.pc.Deadline? || me.pc.SpaceWait? || me.pc.SpaceParked?
    || (me.call.blocking && !me.ok && (me.pc.Unlock? || me.pc.UnlockWake?))
    || (c.early && me.call.blocking && (me.pc.LoadHead? || me.pc.LoadTail? || me.pc.Check?))
  }

  /** A whole pop, its bump of `space_seq` included, slipped in between the load of
      `tail` and the load of `space_seq`. */
  predicate Overtaken(me: Producer) {
    me.seen > me.pops
  }

  ghost predicate SpaceP(c: Config, s: State, p: nat)
    requires p < |s.ps|
  {
    var me := s.ps[p];
    && (me.pc.Check? ==> me.pops <= |s.popped| && (s.tail > me.t ==> |s.popped| > me.pops))
    && (Denied(me) ==> me.pops <= |s.popped| && (Room(c, s, me) ==> |s.popped| > me.pops))
    && (Watching(c, me) ==> me.seen <= s.spaceSeq)
    && (c.early && Watching(c, me) && !(me.pc.LoadHead? || me.pc.LoadTail?) ==> !Overtaken(me))
    && (me.pc.LateSeen? ==> !c.early && !me.ok)
    && (me.pc.Deadline? || me.pc.SpaceWait? || me.pc.SpaceParked? || me.pc.LateSeen? ==> me.call.blocking)
    && (me.pc.SpaceParked? && Room(c, s, me) ==>
          s.cons.pc.CBump? || s.cons.pc.CWake? || Overtaken(me) || me.lag >= W32)
  }

  /** `space_seq` counts the finished pops. */
  predicate Counted(s: State) {
    |s.popped| == s.spaceSeq + (if s.cons.pc.CBump? then 1 else 0)
  }

  ghost predicate SpaceWake(c: Config, s: State) {
    Counted(s) && forall p :: 0 <= p < |s.ps| ==> SpaceP(c, s, p)
  }

  /** Threads that a step leaves where they are stay in order, as long as the step
      leaves the consumer's side alone and room, if anything, shrinks. */
  lemma SpaceOthers(c: Config, s: State, s': State, p: nat)
    requires p < |s.ps| == |s'.ps| && SpaceP(c, s, p)
    requires s'.ps[p] == s.ps[p] || s'.ps[p] == s.ps[p].(pc := Swap) || s'.ps[p] == s.ps[p].(pc := Cas)
    requires s'.head >= s.head && s'.tail == s.tail && s'.spaceSeq == s.spaceSeq && s'.popped == s.popped
    requires s'.cons.pc == s.cons.pc || !(s.cons.pc.CBump? || s.cons.pc.CWake?)
    ensures SpaceP(c, s', p)
  {}

  lemma PushLockedSpaceP(c: Config, s: State, p: nat, s': State)
    requires Counted(s) && p < |s.ps| && SpaceP(c, s, p) && 0 < c.cap == |s.data| && s.tail <= s.head
    requires Filling(c, s, p) && PushLockedStep(c, s, p) == Some(s')
    ensures SpaceP(c, s', p)
  {
    hide Idx, Enc, EncAll, Win;
  }

  lemma PushLockedSpace(c: Config, s: State, p: nat, s': State)
    requires SpaceWake(c, s) && p < |s.ps| && 0 < c.cap == |s.data| && s.tail <= s.head
    requires Filling(c, s, p) && PushLockedStep(c, s, p) == Some(s')
    ensures SpaceWake(c, s')
  {
    forall q | 0 <= q < |s.ps| ensures SpaceP(c, s', q) {
      assert SpaceP(c, s, q);
      if q != p { SpaceOthers(c, s, s', q); } else { PushLockedSpaceP(c, s, p, s'); }
    }
  }

  lemma AcquireSpace(c: Config, s: State, p: nat, s': State)
    requires SpaceWake(c, s) && p < |s.ps| && AcquireStep(c, s, p) == Some(s')
    ensures SpaceWake(c, s')
  {
    forall q | 0 <= q < |s.ps| ensures SpaceP(c, s', q) {
      assert SpaceP(c, s, q);
      if q != p { SpaceOthers(c, s, s', q); }
    }
  }

  lemma ReleaseSpace(c: Config, s: State, p: nat, woken: Option<nat>, s': State)
    requires SpaceWake(c, s) && p < |s.ps| && ReleaseStep(s, p, woken) == Some(s')
    ensures SpaceWake(c, s')
  {
    ReleaseShape(s, p, woken, s');
    forall q | 0 <= q < |s.ps| ensures SpaceP(c, s', q) {
      assert SpaceP(c, s, q);
      if q != p { SpaceOthers(c, s, s', q); }
    }
  }

  lemma WaitSpace(c: Config, s: State, p: nat, s': State)
    requires SpaceWake(c, s) && p < |s.ps| && WaitStep(s, p) == Some(s')
    ensures SpaceWake(c, s')
  {
    forall q | 0 <= q < |s.ps| ensures SpaceP(c, s', q) {
      assert SpaceP(c, s, q);
      if q != p { SpaceOthers(c, s, s', q); } else { WaitMine(c, s, p, s'); }
    }
  }

  lemma WaitMine(c: Config, s: State, p: nat, s': State)
    requires Counted(s) && p < |s.ps| && SpaceP(c, s, p) && WaitStep(s, p) == Some(s')
    ensures SpaceP(c, s', p)
  {}

  lemma ConsCounted(c: Config, s: State, s': State)
    requires Counted(s) && 0 < c.cap == |s.data| && ConsStep(c, s) == Some(s')
    ensures Counted(s') && |s'.ps| == |s.ps|
  {
    hide Idx, FromLe;
  }

  lemma ConsSpaceP(c: Config, s: State, s': State, q: nat)
    requires Counted(s) && 0 < c.cap == |s.data| && ConsStep(c, s) == Some(s')
    requires q < |s.ps| == |s'.ps| && SpaceP(c, s, q)
    ensures SpaceP(c, s', q)
  {
    hide Idx, FromLe;
  }

  lemma ConsSpace(c: Config, s: State, s': State)
    requires SpaceWake(c, s) && 0 < c.cap == |s.data| && ConsStep(c, s) == Some(s')
    ensures SpaceWake(c, s')
  {
    hide ConsStep, SpaceP;
    ConsCounted(c, s, s');
    forall q | 0 <= q < |s.ps| ensures SpaceP(c, s', q) { ConsSpaceP(c, s, s', q); }
  }

  lemma StepSpaceWake(c: Config, s: State, st: Step, s': State)
    requires Safe(c, s) && SpaceWake(c, s) && Apply(c, s, st) == Some(s')
    ensures SpaceWake(c, s')
  {
    hide ProdStep, PushLockedStep, AcquireStep, ReleaseStep, WaitStep, ConsStep;
    match st
    case Prod(p, woken) =>
      ProdCases(c, s, p, woken, s');
      if PushLockedStep(c, s, p).Some? { assert Filling(c, s, p); PushLockedSpace(c, s, p, s'); }
      else if AcquireStep(c, s, p).Some? { AcquireSpace(c, s, p, s'); }
      else if ReleaseStep(s, p, woken).Some? { ReleaseSpace(c, s, p, woken, s'); }
      else { WaitSpace(c, s, p, s'); }
    case Cons => ConsSpace(c, s, s');
    case Start(p, _, _, _) => QuietSpace(c, s, p, s');
    case Timeout(p) => QuietSpace(c, s, p, s');
    case _ =>
      forall q | 0 <= q < |s.ps| ensures SpaceP(c, s', q) { assert SpaceP(c, s, q); }
  }

  /** A thread goes back to the lock; nothing else happens. */
  lemma QuietSpace(c: Config, s: State, p: nat, s': State)
    requires SpaceWake(c, s) && p < |s.ps| == |s'.ps|
    requires s'.ps == s.ps[p := s'.ps[p]] && s'.ps[p].pc in {Cas, Swap}
    requires s'.head == s.head && s'.tail == s.tail && s'.spaceSeq == s.spaceSeq
    requires s'.popped == s.popped && s'.cons == s.cons
    ensures SpaceWake(c, s')
  {
    forall q | 0 <= q < |s.ps| ensures SpaceP(c, s', q) { assert SpaceP(c, s, q); }
  }

  /** A producer asleep although its record would fit is about to be woken, unless
      a whole pop slipped in between its loads of `tail` and of `space_seq`. */
  lemma ProducerIsWoken(c: Config, s: State, p: nat)
    requires SpaceWake(c, s) && p < |s.ps|
    requires s.ps[p].pc == SpaceParked && Room(c, s, s.ps[p]) && s.ps[p].lag < W32
    ensures s.cons.pc == CBump || s.cons.pc == CWake || (!c.early && Overtaken(s.ps[p]))
  {
    assert SpaceP(c, s, p);
  }
}
