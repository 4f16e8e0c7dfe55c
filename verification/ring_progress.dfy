/** What a thread can do by itself: from any state of any run, a pop that has reason to end
    and a push that holds or can have the lock end by their own steps alone, with the
    outcome the ring calls for; and a pop that has no reason to end goes to sleep. */
module RingProgress {
  import opened Circular
  import opened Records
  import opened RingMachine
  import opened RingFifo
  import opened RingWakeups
  import opened RingTheorems
  import opened RingPops

  /** The state some steps lead to, if they can be taken. */
  function Follow(c: Config, s: State, steps: seq<Step>): Option<State>
    decreases |steps|
  {
    if steps == [] then Some(s)
    else if !(c.cap == |s.data| > 0) then None
    else
      match Apply(c, s, steps[0])
      case None => None
      case Some(s') => Follow(c, s', steps[1..])
  }

  // ---- a pop by itself --------------------------------------------------

  /** The consumer's steps, and the end of its wait. */
  predicate OfConsumer(st: Step) { st.Cons? || st.ConsTimeout? }

  predicate Due(deadline: Option<nat>, now: nat) {
    deadline.Some? && deadline.value <= now
  }

  /** The call has a record, or there is one, or it need not wait for one. */
  predicate MayEnd(s: State) {
    s.cons.pc.CBump? || s.cons.pc.CWake? || Queue(s) != [] || !s.cons.blocking || Due(s.cons.deadline, s.now)
  }

  /** How it ends: with the record it has, or the front one, or, having seen the ring empty
      for the last time, with nothing. */
  function PopOutcome(s: State): PopEnd {
    var me := s.cons;
    if me.pc.CBump? || me.pc.CWake? then Got(Payload(me.buf))
    else if Queue(s) == [] || (me.pc.CDeadline? && Due(me.deadline, s.now)) then
      Nothing(me.blocking, me.deadline, s.now)
    else Got(Queue(s)[0])
  }

  function Left(spins: nat): nat { if spins < SPIN_LIMIT then SPIN_LIMIT - spins else 0 }

  /** How far the call is from its end. */
  function PopRank(s: State): nat {
    var me := s.cons;
    match me.pc
    case CIdle => 0
    case CWake => 1
    case CBump => 2
    case CDeadline => if Due(me.deadline, s.now) then 1 else FrontSize(s) + 10
    case CRead => if |me.buf| <= FrontSize(s) then 3 + FrontSize(s) - |me.buf| else 3
    case _ => if Queue(s) != [] then FrontSize(s) + LoadRank(me.pc) else EmptyRank(me)
  }

  /** The front record's size on the wire. */
  function FrontSize(s: State): nat {
    if Queue(s) == [] then 0 else |Enc(Queue(s)[0])|
  }

  function LoadRank(pc: CPc): nat {
    match pc
    case CLoadHead => 4 case CLoadTail => 5 case CTop => 6 case CParked => 7 case CWait => 8 case _ => 0
  }

  function EmptyRank(me: Consumer): nat {
    if !me.blocking then if me.pc.CLoadHead? then 1 else 2
    else
      match me.pc
      case CLoadHead => if me.final then 2 else 5 + 3 * Left(me.spins)
      case CLoadTail => if me.final then 3 else 6 + 3 * Left(me.spins)
      case CTop => if me.spins < SPIN_LIMIT then 7 + 3 * Left(me.spins) else 4
      case CParked => 8 + 3 * SPIN_LIMIT
      case CWait => 9 + 3 * SPIN_LIMIT
      case _ => 0
  }

  ghost predicate PopStep(s: State, s': State) {
    if s'.cons.pc == CIdle then s'.cons.ends == s.cons.ends + [PopOutcome(s)]
    else
      && s'.cons.ends == s.cons.ends && s'.cons.blocking == s.cons.blocking
      && PopOutcome(s') == PopOutcome(s) && MayEnd(s') && PopRank(s') < PopRank(s)
  }

  /** The consumer reads on, or has read the record. */
  lemma ReadNearer(c: Config, s: State, s': State)
    requires Inv(c, s) && s.cons.pc == CRead && ConsStep(c, s) == Some(s')
    ensures PopStep(s, s') && s'.cons.pc != CIdle
  {
    hide Sleepers, DataWake, SpaceWake, RingCalls.Calls, Mutex;
    Prefix(Queue(s)[0], s.cons.buf);
    if Whole(s.cons.buf) {
      TailStore(c, s, s');
    } else {
      assert Queue(s') == Queue(s);
    }
    hide Idx, Enc;
  }

  /** The ring holds a record: the call is on its way to reading it. */
  lemma LoadNearer(c: Config, s: State, s': State)
    requires 0 < c.cap == |s.data| && ConsStep(c, s) == Some(s')
    requires s.cons.pc != CRead && s.cons.pc != CBump && s.cons.pc != CWake
    requires Queue(s) != [] && s.head != s.tail && (s.cons.pc == CLoadHead ==> s.cons.t == s.tail)
    ensures PopStep(s, s')
  {
    hide Enc, Idx, Whole, EmptyRank;
    assert Queue(s') == Queue(s);
    hide Queue;
  }

  /** The ring is empty: the call is on its way to seeing that for the last time. */
  lemma EmptyNearer(c: Config, s: State, s': State)
    requires 0 < c.cap == |s.data| && ConsStep(c, s) == Some(s')
    requires s.cons.pc != CRead && s.cons.pc != CBump && s.cons.pc != CWake
    requires Queue(s) == [] && s.head == s.tail && (s.cons.pc == CLoadHead ==> s.cons.t == s.tail)
    requires !s.cons.blocking || Due(s.cons.deadline, s.now)
    requires Blocks(s.cons)
    ensures PopStep(s, s')
  {
    hide Enc, Idx, Whole, LoadRank;
    assert Queue(s') == Queue(s);
    hide Queue;
  }

  lemma TakenNearer(c: Config, s: State, s': State)
    requires 0 < c.cap == |s.data| && ConsStep(c, s) == Some(s') && (s.cons.pc == CBump || s.cons.pc == CWake)
    ensures PopStep(s, s')
  {
    hide Enc, Idx, Whole, Payload, EmptyRank, LoadRank;
  }

  lemma TimeoutNearer(c: Config, s: State, s': State)
    requires 0 < c.cap == |s.data| && s.cons.pc == CParked && s.cons.blocking && MayEnd(s)
    requires s' == s.(cons := s.cons.(pc := CTop, spins := 0))
    ensures PopStep(s, s')
  {
    hide Enc;
    assert Queue(s') == Queue(s);
    hide Queue;
  }

  lemma ConsumerFacts(c: Config, s: State)
    requires Inv(c, s)
    ensures 0 < c.cap == |s.data| && (s.head == s.tail <==> Queue(s) == [])
    ensures s.cons.pc == CLoadHead ==> s.cons.t == s.tail
    ensures s.cons.pc == CRead ==> Queue(s) != []
  {
    LayoutEmpty(s.data, s.tail, s.head, Queue(s));
  }

  lemma PopNearer(c: Config, s: State) returns (st: Step, s': State)
    requires Inv(c, s) && s.cons.pc != CIdle && MayEnd(s)
    requires Blocks(s.cons)
    ensures OfConsumer(st) && |s.data| == c.cap > 0 && Apply(c, s, st) == Some(s') && PopStep(s, s')
  {
    ConsumerFacts(c, s);
    hide Inv, PopStep, Queue;
    if s.cons.pc == CParked {
      st, s' := ConsTimeout, s.(cons := s.cons.(pc := CTop, spins := 0));
      TimeoutNearer(c, s, s');
    } else {
      st, s' := Cons, ConsStep(c, s).value;
      hide ConsStep;
      if s.cons.pc == CRead { ReadNearer(c, s, s'); }
      else if s.cons.pc == CBump || s.cons.pc == CWake { TakenNearer(c, s, s'); }
      else if Queue(s) != [] { LoadNearer(c, s, s'); }
      else { EmptyNearer(c, s, s'); }
    }
  }

  lemma {:induction false} PopEnds(c: Config, s: State) returns (steps: seq<Step>)
    requires Inv(c, s) && s.cons.pc != CIdle && MayEnd(s) && Blocks(s.cons)
    ensures (forall st :: st in steps ==> OfConsumer(st)) && Follow(c, s, steps).Some?
    ensures var s' := Follow(c, s, steps).value;
      s'.cons.pc == CIdle && s'.cons.ends == s.cons.ends + [PopOutcome(s)]
    decreases PopRank(s)
  {
    hide Inv, Apply, PopRank, PopOutcome, MayEnd, Blocks;
    var st, s1 := PopNearer(c, s);
    if s1.cons.pc == CIdle {
      steps := [st];
      assert steps[1..] == [];
      assert Follow(c, s1, []) == Some(s1);
    } else {
      StepMoves(c, s, st, s1);
      MoveBlocks(s, st, s1);
      StepInv(c, s, st, s1);
      var rest := PopEnds(c, s1);
      steps := [st] + rest;
      assert steps[1..] == rest;
    }
  }

  ghost predicate EndsPop(c: Config, s: State, more: seq<Step>) {
    && (forall st :: st in more ==> OfConsumer(st)) && Follow(c, s, more).Some?
    && Follow(c, s, more).value.cons.pc == CIdle
    && Follow(c, s, more).value.cons.ends == s.cons.ends + [PopOutcome(s)]
  }

  /** From any state of any run, a pop that has a record, or finds one, or need not wait,
      or whose deadline has passed, ends by the consumer's own steps: with the record it
      has, or the front one, or, if the ring was empty when it looked, with nothing. */
  lemma PopEndsByItself(c: Config, threads: nat, steps: seq<Step>, states: seq<State>, i: nat)
    requires 0 < c.cap <= W32 && Behaviour(c, threads, steps, states) && i <= |steps|
    requires states[i].cons.pc != CIdle && MayEnd(states[i])
    ensures exists more :: EndsPop(c, states[i], more)
  {
    hide Apply, Inv, MayEnd, PopOutcome;
    RunInv(c, threads, steps, states, i);
    PopsUpTo(c, threads, steps, states, i);
    StandsBlocking(steps, states, i);
    var more := PopEnds(c, states[i]);
    assert EndsPop(c, states[i], more);
  }

  // ---- or to sleep ------------------------------------------------------

  /** A call to block, with nothing to read and no deadline that has passed. */
  predicate MustWait(s: State) {
    && Queue(s) == [] && s.cons.blocking && !Due(s.cons.deadline, s.now)
    && !s.cons.pc.CIdle? && !s.cons.pc.CRead? && !s.cons.pc.CBump? && !s.cons.pc.CWake?
  }

  /** What it last saw of `data_seq` is current. */
  predicate Current(s: State) { s.dataSeq % W32 == s.cons.seen % W32 }

  /** How far it is from its sleep. */
  function WaitRank(s: State): nat {
    var me := s.cons;
    match me.pc
    case CParked => 0
    case CWait => if Current(s) then 1 else 4 * SPIN_LIMIT + 20
    case CDeadline => if Current(s) then 2 else 4 * SPIN_LIMIT + 21
    case CLoadHead => if !me.final then 7 + 3 * Left(me.spins) else if Current(s) then 3 else 4 * SPIN_LIMIT + 22
    case CLoadTail => if !me.final then 8 + 3 * Left(me.spins) else if Current(s) then 4 else 4 * SPIN_LIMIT + 23
    case CTop => if me.spins < SPIN_LIMIT then 9 + 3 * Left(me.spins) else 6
    case _ => 0
  }

  lemma WaitNearer(c: Config, s: State) returns (s': State)
    requires Inv(c, s) && MustWait(s) && s.cons.pc != CParked
    ensures |s.data| == c.cap > 0 && Apply(c, s, Cons) == Some(s') && MustWait(s') && WaitRank(s') < WaitRank(s)
    ensures s'.cons.ends == s.cons.ends
  {
    ConsumerFacts(c, s);
    hide Inv, Whole, Enc, Idx;
    s' := ConsStep(c, s).value;
    assert Queue(s') == Queue(s);
    hide Queue;
  }

  lemma {:induction false} GoesToSleep(c: Config, s: State) returns (steps: seq<Step>)
    requires Inv(c, s) && MustWait(s)
    ensures (forall st :: st in steps ==> st == Cons) && Follow(c, s, steps).Some?
    ensures Follow(c, s, steps).value.cons.pc == CParked && Follow(c, s, steps).value.cons.ends == s.cons.ends
    decreases WaitRank(s)
  {
    hide Inv, Apply, WaitRank, MustWait;
    steps := [];
    if s.cons.pc != CParked {
      var s1 := WaitNearer(c, s);
      StepInv(c, s, Cons, s1);
      var rest := GoesToSleep(c, s1);
      steps := [Cons] + rest;
      assert steps[1..] == rest;
    }
  }

  ghost predicate Sleeps(c: Config, s: State, more: seq<Step>) {
    && (forall st :: st in more ==> st == Cons) && Follow(c, s, more).Some?
    && Follow(c, s, more).value.cons.pc == CParked && Follow(c, s, more).value.cons.ends == s.cons.ends
  }

  /** From any state of any run in which the ring is empty, a pop that is to block goes to
      sleep by the consumer's own steps, unless its deadline has passed. */
  lemma PopGoesToSleep(c: Config, threads: nat, steps: seq<Step>, states: seq<State>, i: nat)
    requires 0 < c.cap <= W32 && Behaviour(c, threads, steps, states) && i <= |steps| && MustWait(states[i])
    ensures exists more :: Sleeps(c, states[i], more)
  {
    hide Apply, Inv, MustWait;
    RunInv(c, threads, steps, states, i);
    var more := GoesToSleep(c, states[i]);
    assert Sleeps(c, states[i], more);
  }

  /** So a consumer does come to sleep: the first thing a reader without a deadline does on
      a formatted ring. */
  lemma ConsumerCanPark(c: Config, threads: nat)
    requires 0 < c.cap <= W32
    ensures exists more ::
      Follow(c, Init(c, threads), more).Some? && Follow(c, Init(c, threads), more).value.cons.pc == CParked
  {
    var s, st := Init(c, threads), StartPop(true, None);
    InitInv(c, threads);
    var s1 := Apply(c, s, st).value;
    StepInv(c, s, st, s1);
    assert MustWait(s1);
    hide Inv, Apply, MustWait;
    var rest := GoesToSleep(c, s1);
    var more := [st] + rest;
    assert more[1..] == rest;
    assert Follow(c, s, more) == Follow(c, s1, rest);
  }

  // ---- a push by itself -------------------------------------------------

  /** Thread `p`'s steps, and the end of its waits. */
  predicate OfProducer(st: Step, p: nat) { (st.Prod? && st.p == p) || (st.Timeout? && st.p == p) }

  /** The thread's room check has passed, or will. */
  predicate Passing(c: Config, me: Producer) {
    || me.pc.Copy? || me.pc.BumpData? || me.pc.WakeData? || (me.ok && (me.pc.Unlock? || me.pc.UnlockWake?))
    || (me.pc.Check? && Need(me) <= c.cap - (me.h - me.t))
  }

  /** It has failed, or will. */
  predicate Failing(c: Config, me: Producer) {
    || me.pc.LateSeen? || me.pc.Deadline? || (!me.ok && (me.pc.Unlock? || me.pc.UnlockWake?))
    || (me.pc.Check? && Need(me) > c.cap - (me.h - me.t))
  }

  /** A failed check ends the call. */
  predicate Final(s: State, me: Producer) { !me.call.blocking || Due(me.call.deadline, s.now) }

  /** The call's record goes in. */
  predicate GoesIn(c: Config, s: State, me: Producer) {
    Passing(c, me) || (Room(c, s, me) && !(Failing(c, me) && Final(s, me)))
  }

  /** The call can come to an end without anybody else. */
  predicate PushMayEnd(c: Config, s: State, p: nat) {
    && p < |s.ps| && (s.owner == None || s.owner == Some(p))
    && (GoesIn(c, s, s.ps[p]) || Final(s, s.ps[p]))
  }

  /** How far it is from its end. */
  function PushRank(c: Config, s: State, p: nat): nat
    requires p < |s.ps|
  {
    var me := s.ps[p];
    var n := Need(me);
    var again := if Final(s, me) then 0 else n + 15;
    match me.pc
    case Idle => 0
    case WakeData => 1
    case BumpData => 2
    case UnlockWake => if me.ok then 3 else again + 2
    case Unlock => if me.ok then 4 else again + 3
    case Copy => if me.i <= n then 5 + n - me.i else 5
    case Check => if Passing(c, me) then 6 + n else again + 5
    case LateSeen => again + 4
    case Deadline => again + 1
    case LoadTail => n + 7 case LoadHead => n + 8 case EarlySeen => n + 9
    case Cas => n + 10 case Swap => n + 10 case LockWait => n + 11 case LockParked => n + 12
    case SpaceParked => n + 13 case SpaceWait => n + 14
  }

  ghost predicate PushStep(c: Config, s: State, p: nat, s': State)
    requires p < |s.ps|
  {
    && |s'.ps| == |s.ps|
    && if s'.ps[p].pc == Idle then
         s.ps[p].call.id in s'.results && (s'.results[s.ps[p].call.id].Appended? <==> GoesIn(c, s, s.ps[p]))
       else
         && s'.ps[p].call == s.ps[p].call && PushMayEnd(c, s', p) && PushRank(c, s', p) < PushRank(c, s, p)
         && (GoesIn(c, s', s'.ps[p]) <==> GoesIn(c, s, s.ps[p]))
  }

  /** What the invariant says about a thread that has, or can have, the lock. */
  ghost predicate Alone(c: Config, s: State, p: nat) {
    && p < |s.ps| && 0 < c.cap == |s.data|
    && (Holds(s.ps[p].pc) <==> s.owner == Some(p)) && (s.owner == None ==> s.lock == 0)
    && var me := s.ps[p];
    && (me.pc.LoadTail? || me.pc.Check? || me.pc.Copy? ==> me.h == s.head)
    && (me.pc.Copy? ==> me.i <= Need(me))
    && (me.pc.LateSeen? ==> !me.ok) && (me.pc.BumpData? || me.pc.WakeData? ==> me.ok)
    && (me.pc.LateSeen? || me.pc.Deadline? ==> me.call.blocking)
    && s.tail <= s.head
  }

  lemma AloneFacts(c: Config, s: State, p: nat)
    requires Inv(c, s) && p < |s.ps| && s.ps[p].pc != Idle
    ensures Alone(c, s, p)
  {
    assert Filling(c, s, p) && RingCalls.CallOf(c, s, s.ps[p]);
  }

  lemma AcquireNearer(c: Config, s: State, p: nat, s': State)
    requires Alone(c, s, p) && PushMayEnd(c, s, p) && AcquireStep(c, s, p) == Some(s')
    ensures PushStep(c, s, p, s')
  {}

  lemma LockedNearer(c: Config, s: State, p: nat, s': State)
    requires Alone(c, s, p) && PushMayEnd(c, s, p) && PushLockedStep(c, s, p) == Some(s')
    ensures PushStep(c, s, p, s')
  {
    hide Idx, Enc;
  }

  lemma ReleaseNearer(c: Config, s: State, p: nat, woken: Option<nat>, s': State)
    requires Alone(c, s, p) && PushMayEnd(c, s, p) && ReleaseStep(s, p, woken) == Some(s')
    ensures PushStep(c, s, p, s')
  {
    ReleaseShape(s, p, woken, s');
  }

  lemma EndNearer(c: Config, s: State, p: nat, s': State)
    requires Alone(c, s, p) && PushMayEnd(c, s, p) && WaitStep(s, p) == Some(s')
    ensures PushStep(c, s, p, s')
  {}

  lemma UnparkNearer(c: Config, s: State, p: nat, s': State)
    requires Alone(c, s, p) && PushMayEnd(c, s, p)
    requires (s.ps[p].pc.LockParked? && s' == Set(s, p, s.ps[p].(pc := Swap)))
      || (s.ps[p].pc.SpaceParked? && s' == Set(s, p, s.ps[p].(pc := Cas)))
    ensures PushStep(c, s, p, s')
  {}

  lemma PushGoesOn(c: Config, s: State, p: nat) returns (st: Step, s': State)
    requires Inv(c, s) && PushMayEnd(c, s, p) && s.ps[p].pc != Idle
    ensures OfProducer(st, p) && |s.data| == c.cap > 0 && Apply(c, s, st) == Some(s') && PushStep(c, s, p, s')
  {
    AloneFacts(c, s, p);
    hide Inv, PushStep, PushMayEnd;
    var me := s.ps[p];
    if me.pc.LockParked? || me.pc.SpaceParked? {
      st, s' := Timeout(p), Set(s, p, me.(pc := if me.pc.LockParked? then Swap else Cas));
      UnparkNearer(c, s, p, s');
    } else {
      var woken := None;
      if q :| 0 <= q < |s.ps| && s.ps[q].pc == LockParked { woken := Some(q); }
      st, s' := Prod(p, woken), ProdStep(c, s, p, woken).value;
      ProdCases(c, s, p, woken, s');
      hide ProdStep, AcquireStep, PushLockedStep, ReleaseStep, WaitStep;
      if PushLockedStep(c, s, p).Some? { LockedNearer(c, s, p, s'); }
      else if AcquireStep(c, s, p).Some? { AcquireNearer(c, s, p, s'); }
      else if ReleaseStep(s, p, woken).Some? { ReleaseNearer(c, s, p, woken, s'); }
      else { EndNearer(c, s, p, s'); }
    }
  }

  lemma {:induction false} PushEnds(c: Config, s: State, p: nat) returns (steps: seq<Step>)
    requires Inv(c, s) && PushMayEnd(c, s, p) && s.ps[p].pc != Idle
    ensures EndsPush(c, s, p, steps)
    decreases PushRank(c, s, p)
  {
    var st, s1 := PushGoesOn(c, s, p);
    hide Inv, Apply, PushRank, GoesIn, Room, Passing, Failing, Final;
    if s1.ps[p].pc == Idle {
      steps := [st];
      assert steps[1..] == [];
      assert Follow(c, s1, []) == Some(s1);
    } else {
      StepInv(c, s, st, s1);
      var rest := PushEnds(c, s1, p);
      steps := [st] + rest;
      PushEndsLater(c, s, p, st, s1, rest);
    }
  }

  lemma PushEndsLater(c: Config, s: State, p: nat, st: Step, s1: State, rest: seq<Step>)
    requires p < |s.ps| == |s1.ps| && c.cap == |s.data| > 0 && OfProducer(st, p) && Apply(c, s, st) == Some(s1)
    requires EndsPush(c, s1, p, rest) && s1.ps[p].call == s.ps[p].call
    requires GoesIn(c, s1, s1.ps[p]) <==> GoesIn(c, s, s.ps[p])
    ensures EndsPush(c, s, p, [st] + rest)
  {
    hide Apply, GoesIn;
    assert ([st] + rest)[1..] == rest;
  }

  ghost predicate EndsPush(c: Config, s: State, p: nat, more: seq<Step>)
    requires p < |s.ps|
  {
    var id := s.ps[p].call.id;
    && (forall st :: st in more ==> OfProducer(st, p)) && Follow(c, s, more).Some?
    && var s' := Follow(c, s, more).value;
    && p < |s'.ps| && s'.ps[p].pc == Idle && id in s'.results
    && (s'.results[id].Appended? <==> GoesIn(c, s, s.ps[p]))
  }

  /** From any state of any run in which nobody else has the lock, a push for which there
      is room, or which need not wait, or whose deadline has passed, ends by its thread's
      own steps; it puts its record in if and only if there is room and it has not found
      otherwise already. */
  lemma PushEndsByItself(c: Config, threads: nat, steps: seq<Step>, states: seq<State>, i: nat, p: nat)
    requires 0 < c.cap <= W32 && Behaviour(c, threads, steps, states) && i <= |steps|
    requires PushMayEnd(c, states[i], p) && states[i].ps[p].pc != Idle
    ensures exists more :: EndsPush(c, states[i], p, more)
  {
    hide Apply, Inv, GoesIn;
    RunInv(c, threads, steps, states, i);
    var more := PushEnds(c, states[i], p);
  }

  // ---- or to sleep, on the lock or for room ------------------------------

  /** Somebody else has the lock the thread wants. */
  predicate MustQueue(s: State, p: nat) {
    && p < |s.ps| && s.lock != 0
    && (s.ps[p].pc.Cas? || s.ps[p].pc.Swap? || s.ps[p].pc.LockWait? || s.ps[p].pc.LockParked?)
  }

  function QueueRank(s: State, p: nat): nat
    requires p < |s.ps|
  {
    match s.ps[p].pc case Cas => 3 case Swap => 2 case LockWait => if s.lock == 2 then 1 else 3 case _ => 0
  }

  lemma {:induction false} QueuesUp(c: Config, s: State, p: nat) returns (steps: seq<Step>)
    requires 0 < c.cap == |s.data| && MustQueue(s, p)
    ensures SleepsAt(c, s, p, LockParked, steps)
    decreases QueueRank(s, p)
  {
    steps := [];
    if s.ps[p].pc != LockParked {
      var s1 := AcquireStep(c, s, p).value;
      assert Apply(c, s, Prod(p, None)) == Some(s1);
      hide Apply;
      var rest := QueuesUp(c, s1, p);
      steps := [Prod(p, None)] + rest;
      assert steps[1..] == rest;
    }
  }

  ghost predicate SleepsAt(c: Config, s: State, p: nat, at: PPc, more: seq<Step>) {
    && (forall st :: st in more ==> st.Prod? && st.p == p) && Follow(c, s, more).Some?
    && p < |s.ps| && p < |Follow(c, s, more).value.ps| && Follow(c, s, more).value.ps[p].pc == at
    && Follow(c, s, more).value.ps[p].call == s.ps[p].call
  }

  /** A thread that wants the lock while another has it goes to sleep by its own steps. */
  lemma ContenderGoesToSleep(c: Config, threads: nat, steps: seq<Step>, states: seq<State>, i: nat, p: nat)
    requires 0 < c.cap <= W32 && Behaviour(c, threads, steps, states) && i <= |steps| && MustQueue(states[i], p)
    ensures exists more :: SleepsAt(c, states[i], p, LockParked, more)
  {
    hide Apply;
    RunInv(c, threads, steps, states, i);
    ConsumerFacts(c, states[i]);
    var more := QueuesUp(c, states[i], p);
  }

  /** A push to block, without room, whose deadline has not passed, and which can have the
      lock. */
  predicate MustWaitForRoom(c: Config, s: State, p: nat) {
    && p < |s.ps| && (s.owner == None || s.owner == Some(p))
    && var me := s.ps[p];
    && me.pc != Idle && !Passing(c, me) && !Room(c, s, me) && me.call.blocking && !Due(me.call.deadline, s.now)
  }

  /** The value of `space_seq` it will go to sleep on is no longer current. */
  predicate Stale(c: Config, s: State, me: Producer) {
    && s.spaceSeq % W32 != me.seen % W32
    && (me.pc.Unlock? || me.pc.UnlockWake? || me.pc.Deadline? || me.pc.SpaceWait?
        || (c.early && (me.pc.LoadHead? || me.pc.LoadTail? || me.pc.Check?)))
  }

  function RoomRank(c: Config, s: State, p: nat): nat
    requires p < |s.ps|
  {
    var me := s.ps[p];
    (if Stale(c, s, me) then 20 else 0) +
    match me.pc
    case SpaceParked => 0 case SpaceWait => 4 case Deadline => 5 case UnlockWake => 6 case Unlock => 7
    case LateSeen => 8 case Check => 9 case LoadTail => 10 case LoadHead => 11 case EarlySeen => 12
    case Cas => 13 case Swap => 13 case LockWait => 14 case LockParked => 15 case _ => 0
  }

  ghost predicate RoomStep(c: Config, s: State, p: nat, s': State)
    requires p < |s.ps|
  {
    MustWaitForRoom(c, s', p) && RoomRank(c, s', p) < RoomRank(c, s, p) && s'.ps[p].call == s.ps[p].call
  }

  lemma AcquireWaits(c: Config, s: State, p: nat, s': State)
    requires Alone(c, s, p) && MustWaitForRoom(c, s, p) && AcquireStep(c, s, p) == Some(s')
    ensures RoomStep(c, s, p, s')
  {}

  lemma LockedWaits(c: Config, s: State, p: nat, s': State)
    requires Alone(c, s, p) && MustWaitForRoom(c, s, p) && PushLockedStep(c, s, p) == Some(s')
    ensures RoomStep(c, s, p, s')
  {
    hide Idx, Enc;
  }

  lemma ReleaseWaits(c: Config, s: State, p: nat, woken: Option<nat>, s': State)
    requires Alone(c, s, p) && MustWaitForRoom(c, s, p) && ReleaseStep(s, p, woken) == Some(s')
    ensures RoomStep(c, s, p, s')
  {
    ReleaseShape(s, p, woken, s');
  }

  lemma EndWaits(c: Config, s: State, p: nat, s': State)
    requires Alone(c, s, p) && MustWaitForRoom(c, s, p) && WaitStep(s, p) == Some(s')
    ensures RoomStep(c, s, p, s')
  {}

  lemma UnparkWaits(c: Config, s: State, p: nat, s': State)
    requires Alone(c, s, p) && MustWaitForRoom(c, s, p)
    requires s.ps[p].pc.LockParked? && s' == Set(s, p, s.ps[p].(pc := Swap))
    ensures RoomStep(c, s, p, s')
  {}

  lemma WaitGoesOn(c: Config, s: State, p: nat) returns (st: Step, s': State)
    requires Inv(c, s) && MustWaitForRoom(c, s, p) && s.ps[p].pc != SpaceParked
    ensures OfProducer(st, p) && |s.data| == c.cap > 0 && Apply(c, s, st) == Some(s') && RoomStep(c, s, p, s')
  {
    AloneFacts(c, s, p);
    hide Inv, RoomStep, MustWaitForRoom;
    var me := s.ps[p];
    if me.pc.LockParked? {
      st, s' := Timeout(p), Set(s, p, me.(pc := Swap));
      UnparkWaits(c, s, p, s');
    } else {
      var woken := None;
      if q :| 0 <= q < |s.ps| && s.ps[q].pc == LockParked { woken := Some(q); }
      st, s' := Prod(p, woken), ProdStep(c, s, p, woken).value;
      ProdCases(c, s, p, woken, s');
      hide ProdStep, AcquireStep, PushLockedStep, ReleaseStep, WaitStep;
      if PushLockedStep(c, s, p).Some? { LockedWaits(c, s, p, s'); }
      else if AcquireStep(c, s, p).Some? { AcquireWaits(c, s, p, s'); }
      else if ReleaseStep(s, p, woken).Some? { ReleaseWaits(c, s, p, woken, s'); }
      else { EndWaits(c, s, p, s'); }
    }
  }

  ghost predicate SleepsForRoom(c: Config, s: State, p: nat, more: seq<Step>) {
    && (forall st :: st in more ==> OfProducer(st, p)) && Follow(c, s, more).Some?
    && p < |s.ps| && p < |Follow(c, s, more).value.ps|
    && Follow(c, s, more).value.ps[p].pc == SpaceParked && Follow(c, s, more).value.ps[p].call == s.ps[p].call
  }

  lemma {:induction false} WaitsForRoom(c: Config, s: State, p: nat) returns (steps: seq<Step>)
    requires Inv(c, s) && MustWaitForRoom(c, s, p)
    ensures SleepsForRoom(c, s, p, steps)
    decreases RoomRank(c, s, p)
  {
    steps := [];
    if s.ps[p].pc != SpaceParked {
      var st, s1 := WaitGoesOn(c, s, p);
      StepInv(c, s, st, s1);
      hide Inv, Apply, RoomRank;
      var rest := WaitsForRoom(c, s1, p);
      steps := [st] + rest;
      assert steps[1..] == rest;
    }
  }

  /** From any state of any run in which nobody else has the lock, a push to block for
      which there is no room goes to sleep by its thread's own steps, unless its deadline
      has passed. */
  lemma PushGoesToSleep(c: Config, threads: nat, steps: seq<Step>, states: seq<State>, i: nat, p: nat)
    requires 0 < c.cap <= W32 && Behaviour(c, threads, steps, states) && i <= |steps|
    requires MustWaitForRoom(c, states[i], p)
    ensures exists more :: SleepsForRoom(c, states[i], p, more)
  {
    hide Apply;
    RunInv(c, threads, steps, states, i);
    hide Inv;
    var more := WaitsForRoom(c, states[i], p);
  }
}
