/** The ring under any number of producer threads and one consumer, every load,
    store, futex call and byte copy a step of its own, interleaved in any order.
    What a thread has loaded stays in its own variables and may be stale.

    Cursors and sequence counters are unbounded here; the futex words are their
    values modulo 2^32, and that is all a futex compares. `RingWords` has the same
    machine on the words themselves. */
module RingMachine {
  import opened Circular
  import opened Records

  const SPIN_LIMIT := 256

  /** `early` chooses when `push_blocking` loads `space_seq`: after a failed room
      check, as the code has it, or (true) before the check. */
  datatype Config = Config(cap: nat, early: bool)

  /** One call of `try_push` or `push_blocking`. `born` is history: how many records
      had been pushed when it began. */
  datatype Call = Call(id: nat, rec: bytes, blocking: bool, deadline: Option<nat>, born: nat)

  datatype PPc =
    | Idle
    | Cas | Swap | LockWait | LockParked                // lock_producer
    | EarlySeen | LoadHead | LoadTail | Check | Copy    // under the lock
    | LateSeen | Unlock                                 // still under the lock
    | UnlockWake | BumpData | WakeData                  // after the unlocking swap
    | Deadline | SpaceWait | SpaceParked                // push_blocking, no room

  /** A producer thread: where it is and what it has loaded. The last three fields
      are history: how many pushes and pops had happened at its latest load of the
      cursors, and how far `space_seq` had run past `seen` when it went to sleep. */
  datatype Producer = Producer(
    pc: PPc, call: Call, h: nat, t: nat, i: nat, ok: bool, seen: nat,
    pushes: nat, pops: nat, lag: nat)

  datatype CPc =
    | CIdle | CTop | CLoadTail | CLoadHead | CRead | CBump | CWake   // try_pop
    | CDeadline | CWait | CParked                                    // pop_blocking

  /** How a pop call ended: with a record, or with nothing, at time `at`. */
  datatype PopEnd = Got(rec: bytes) | Nothing(blocking: bool, deadline: Option<nat>, at: nat)

  /** The consumer thread. The last two fields are history: how far `data_seq` had run
      past `seen` when it went to sleep, and how each of its calls ended, in order. */
  datatype Consumer = Consumer(
    pc: CPc, blocking: bool, deadline: Option<nat>, spins: nat, final: bool,
    t: nat, buf: bytes, seen: nat, lag: nat, ends: seq<PopEnd>)

  datatype Outcome =
    | Appended(call: Call)
    | Refused(call: Call, pushes: nat, pops: nat, at: nat)

  /** Shared memory, the threads, a clock, and history: who owns the lock, what was
      pushed (in the order of the head stores) and by which call, what was popped,
      and how each call ended. */
  datatype State = State(
    data: bytes, head: nat, tail: nat, lock: nat, dataSeq: nat, spaceSeq: nat,
    ps: seq<Producer>, cons: Consumer, now: nat,
    owner: Option<nat>, pushed: seq<bytes>, pushedBy: seq<nat>, popped: seq<bytes>,
    results: map<nat, Outcome>, nextCall: nat)

  datatype Step =
    | Start(p: nat, rec: bytes, blocking: bool, deadline: Option<nat>)
    | Prod(p: nat, woken: Option<nat>)   // `woken`: whom a lock wake reaches
    | Timeout(p: nat)                    // a producer's futex wait ends by itself
    | StartPop(blocking: bool, deadline: Option<nat>)
    | Cons
    | ConsTimeout
    | Tick

  function Init(c: Config, threads: nat): State
    requires c.cap > 0
  {
    var idle := Producer(Idle, Call(0, [], false, None, 0), 0, 0, 0, false, 0, 0, 0, 0);
    State(seq(c.cap, i => 0), 0, 0, 0, 0, 0, seq(threads, i => idle),
          Consumer(CIdle, false, None, 0, false, 0, [], 0, 0, []), 0,
          None, [], [], [], map[], 0)
  }

  /** The records pushed and not yet popped. */
  function Queue(s: State): seq<bytes> {
    if |s.popped| <= |s.pushed| then s.pushed[|s.popped|..] else []
  }

  function Need(me: Producer): nat { 4 + |me.call.rec| }

  function Set(s: State, p: nat, me: Producer): State
    requires p < |s.ps|
  {
    s.(ps := s.ps[p := me])
  }

  /** The thread's latest room check, or its refusal of an oversized record, said no. */
  predicate Denied(me: Producer) {
    || me.pc.LateSeen? || me.pc.Deadline? || me.pc.SpaceWait? || me.pc.SpaceParked?
    || (!me.ok && (me.pc.Unlock? || me.pc.UnlockWake?))
  }

  // ---- producer steps ---------------------------------------------------

  /** The first step of a lock holder. */
  function Entered(c: Config, me: Producer): Producer {
    me.(pc := if c.early && me.call.blocking then EarlySeen else LoadHead)
  }

  /** A holder that found no room. */
  function NoRoom(c: Config, me: Producer): Producer {
    me.(ok := false, pc := if me.call.blocking && !c.early then LateSeen else Unlock)
  }

  function Finish(s: State, p: nat, o: Outcome): State
    requires p < |s.ps|
  {
    Set(s, p, s.ps[p].(pc := Idle)).(results := s.results[s.ps[p].call.id := o])
  }

  function Unlocked(s: State, p: nat): State
    requires p < |s.ps|
  {
    var me := s.ps[p];
    if me.ok then Set(s, p, me.(pc := BumpData))
    else if me.call.blocking then Set(s, p, me.(pc := Deadline))
    else Finish(s, p, Refused(me.call, me.pushes, me.pops, s.now))
  }

  /** `woken` is a choice `FUTEX_WAKE(lock, 1)` can make. */
  predicate WakesOne(ps: seq<Producer>, woken: Option<nat>) {
    match woken
    case Some(q) => q < |ps| && ps[q].pc == LockParked
    case None => forall q :: 0 <= q < |ps| ==> ps[q].pc != LockParked
  }

  /** `push_locked`: `head` and `tail` are loaded, room is checked, the record goes
      in byte by byte, and the head store publishes it. */
  function PushLockedStep(c: Config, s: State, p: nat): Option<State>
    requires p < |s.ps| && c.cap == |s.data| > 0
  {
    var me := s.ps[p];
    match me.pc
    case EarlySeen => Some(Set(s, p, me.(seen := s.spaceSeq, pc := LoadHead)))
    case LoadHead =>
      if Need(me) > c.cap then
        Some(Set(s, p, NoRoom(c, me.(pushes := |s.pushed|, pops := |s.popped|))))
      else Some(Set(s, p, me.(h := s.head, pc := LoadTail)))
    case LoadTail =>
      Some(Set(s, p, me.(t := s.tail, pushes := |s.pushed|, pops := |s.popped|, pc := Check)))
    case Check =>
      if c.cap - (me.h - me.t) < Need(me) then Some(Set(s, p, NoRoom(c, me)))
      else Some(Set(s, p, me.(i := 0, pc := Copy)))
    case Copy =>
      if me.i < Need(me) then
        Some(Set(s.(data := s.data[Idx(me.h + me.i, c.cap) := Enc(me.call.rec)[me.i]]), p,
                 me.(i := me.i + 1)))
      else
        Some(Set(s.(head := me.h + Need(me), pushed := s.pushed + [me.call.rec],
                    pushedBy := s.pushedBy + [me.call.id]), p, me.(ok := true, pc := Unlock)))
    case LateSeen => Some(Set(s, p, me.(seen := s.spaceSeq, pc := Unlock)))
    case _ => None
  }

  /** `lock_producer`. */
  function AcquireStep(c: Config, s: State, p: nat): Option<State>
    requires p < |s.ps|
  {
    var me := s.ps[p];
    match me.pc
    case Cas =>
      if s.lock == 0 then Some(Set(s.(lock := 1, owner := Some(p)), p, Entered(c, me)))
      else Some(Set(s, p, me.(pc := Swap)))
    case Swap =>
      if s.lock == 0 then Some(Set(s.(lock := 2, owner := Some(p)), p, Entered(c, me)))
      else Some(Set(s.(lock := 2), p, me.(pc := LockWait)))
    case LockWait => Some(Set(s, p, me.(pc := if s.lock == 2 then LockParked else Swap)))
    case _ => None
  }

  /** `unlock_producer`. */
  function ReleaseStep(s: State, p: nat, woken: Option<nat>): Option<State>
    requires p < |s.ps|
  {
    var me := s.ps[p];
    match me.pc
    case Unlock =>
      var s' := s.(lock := 0, owner := None);
      if s.lock == 2 then Some(Set(s', p, me.(pc := UnlockWake))) else Some(Unlocked(s', p))
    case UnlockWake =>
      if !WakesOne(s.ps, woken) then None
      else if woken.None? then Some(Unlocked(s, p))
      else Some(Unlocked(Set(s, woken.value, s.ps[woken.value].(pc := Swap)), p))
    case _ => None
  }

  /** What comes after the unlock: publish and wake, or wait for space. */
  function WaitStep(s: State, p: nat): Option<State>
    requires p < |s.ps|
  {
    var me := s.ps[p];
    match me.pc
    case BumpData => Some(Set(s.(dataSeq := s.dataSeq + 1), p, me.(pc := WakeData)))
    case WakeData =>
      var cons := if s.cons.pc == CParked then s.cons.(pc := CTop, spins := 0) else s.cons;
      Some(Finish(s.(cons := cons), p, Appended(me.call)))
    case Deadline =>
      if me.call.deadline.Some? && s.now >= me.call.deadline.value then
        Some(Finish(s, p, Refused(me.call, me.pushes, me.pops, s.now)))
      else Some(Set(s, p, me.(pc := SpaceWait)))
    case SpaceWait =>
      if s.spaceSeq % W32 == me.seen % W32 then
        Some(Set(s, p, me.(pc := SpaceParked, lag := if s.spaceSeq >= me.seen then s.spaceSeq - me.seen else 0)))
      else Some(Set(s, p, me.(pc := Cas)))
    case _ => None
  }

  // ---- consumer steps ---------------------------------------------------

  /** The record being read is complete. */
  predicate Whole(buf: bytes) {
    |buf| >= 4 && |buf| >= 4 + FromLe(buf[..4])
  }

  /** What follows the length prefix. */
  function Payload(buf: bytes): bytes { if |buf| >= 4 then buf[4..] else [] }

  /** A call returns without a record. */
  function EmptyHanded(me: Consumer, now: nat): Consumer {
    me.(pc := CIdle, ends := me.ends + [Nothing(me.blocking, me.deadline, now)])
  }

  function ReleaseSpaceWaiters(ps: seq<Producer>): (r: seq<Producer>)
    ensures |r| == |ps|
    ensures forall p :: 0 <= p < |ps| ==>
      r[p] == if ps[p].pc == SpaceParked then ps[p].(pc := Cas) else ps[p]
  {
    seq(|ps|, p requires 0 <= p < |ps| =>
      if ps[p].pc == SpaceParked then ps[p].(pc := Cas) else ps[p])
  }

  function ConsStep(c: Config, s: State): Option<State>
    requires c.cap == |s.data| > 0
  {
    var me := s.cons;
    match me.pc
    case CTop =>
      if me.spins < SPIN_LIMIT then Some(s.(cons := me.(final := false, pc := CLoadTail)))
      else Some(s.(cons := me.(final := true, seen := s.dataSeq, pc := CLoadTail)))
    case CLoadTail => Some(s.(cons := me.(t := s.tail, buf := [], pc := CLoadHead)))
    case CLoadHead =>
      if s.head != me.t then Some(s.(cons := me.(pc := CRead)))
      else if !me.blocking then Some(s.(cons := EmptyHanded(me, s.now)))
      else if me.final then Some(s.(cons := me.(pc := CDeadline)))
      else Some(s.(cons := me.(spins := me.spins + 1, pc := CTop)))
    case CRead =>
      if !Whole(me.buf) then
        Some(s.(cons := me.(buf := me.buf + [s.data[Idx(me.t + |me.buf|, c.cap)]])))
      else
        Some(s.(tail := me.t + |me.buf|, popped := s.popped + [Payload(me.buf)], cons := me.(pc := CBump)))
    case CBump => Some(s.(spaceSeq := s.spaceSeq + 1, cons := me.(pc := CWake)))
    case CWake =>
      Some(s.(ps := ReleaseSpaceWaiters(s.ps), cons := me.(pc := CIdle, ends := me.ends + [Got(Payload(me.buf))])))
    case CDeadline =>
      if me.deadline.Some? && s.now >= me.deadline.value then Some(s.(cons := EmptyHanded(me, s.now)))
      else Some(s.(cons := me.(pc := CWait)))
    case CWait =>
      if s.dataSeq % W32 == me.seen % W32 then
        Some(s.(cons := me.(lag := if s.dataSeq >= me.seen then s.dataSeq - me.seen else 0, pc := CParked)))
      else Some(s.(cons := me.(pc := CTop, spins := 0)))
    case _ => None
  }

  // ---- the machine ------------------------------------------------------

  function ProdStep(c: Config, s: State, p: nat, woken: Option<nat>): Option<State>
    requires p < |s.ps| && c.cap == |s.data| > 0
  {
    match s.ps[p].pc
    case Cas => AcquireStep(c, s, p) case Swap => AcquireStep(c, s, p) case LockWait => AcquireStep(c, s, p)
    case Unlock => ReleaseStep(s, p, woken) case UnlockWake => ReleaseStep(s, p, woken)
    case BumpData => WaitStep(s, p) case WakeData => WaitStep(s, p)
    case Deadline => WaitStep(s, p) case SpaceWait => WaitStep(s, p)
    case _ => PushLockedStep(c, s, p)
  }

  function Apply(c: Config, s: State, st: Step): Option<State>
    requires c.cap == |s.data| > 0
  {
    match st
    case Start(p, rec, blocking, deadline) =>
      if p < |s.ps| && s.ps[p].pc == Idle then
        Some(Set(s, p, s.ps[p].(pc := Cas, call := Call(s.nextCall, rec, blocking, deadline, |s.pushed|)))
             .(nextCall := s.nextCall + 1))
      else None
    case Prod(p, woken) => if p < |s.ps| then ProdStep(c, s, p, woken) else None
    case Timeout(p) =>
      if p >= |s.ps| then None
      else if s.ps[p].pc == LockParked then Some(Set(s, p, s.ps[p].(pc := Swap)))
      else if s.ps[p].pc == SpaceParked then Some(Set(s, p, s.ps[p].(pc := Cas)))
      else None
    case StartPop(blocking, deadline) =>
      if s.cons.pc == CIdle then
        Some(s.(cons := s.cons.(blocking := blocking, deadline := deadline, spins := 0, final := false,
                                pc := if blocking then CTop else CLoadTail)))
      else None
    case Cons => ConsStep(c, s)
    case ConsTimeout =>
      if s.cons.pc == CParked then Some(s.(cons := s.cons.(pc := CTop, spins := 0))) else None
    case Tick => Some(s.(now := s.now + 1))
  }

  /** A schedule, and the states it goes through from the formatted ring on. */
  ghost predicate Behaviour(c: Config, threads: nat, steps: seq<Step>, states: seq<State>) {
    && c.cap > 0 && |states| == |steps| + 1 && states[0] == Init(c, threads)
    && forall i {:trigger steps[i]} :: 0 <= i < |steps| ==>
         |states[i].data| == c.cap && Apply(c, states[i], steps[i]) == Some(states[i + 1])
  }
}
