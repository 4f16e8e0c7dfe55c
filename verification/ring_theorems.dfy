/** The ring machine's promises, over every schedule of any number of producers and
    one consumer. */
module RingTheorems {
  import opened Circular
  import opened Queues
  import opened Records
  import opened RingMachine
  import opened RingFifo
  import opened RingWakeups
  import opened RingCalls

  ghost predicate Inv(c: Config, s: State) {
    Safe(c, s) && Sleepers(s) && DataWake(s) && SpaceWake(c, s) && Calls(c, s)
  }

  lemma StepInv(c: Config, s: State, st: Step, s': State)
    requires Inv(c, s) && Apply(c, s, st) == Some(s')
    ensures Inv(c, s')
  {
    StepSafe(c, s, st, s');
    StepSleepers(c, s, st, s');
    StepDataWake(c, s, st, s');
    StepSpaceWake(c, s, st, s');
    StepCalls(c, s, st, s');
  }

  lemma InitInv(c: Config, threads: nat)
    requires 0 < c.cap <= W32
    ensures Inv(c, Init(c, threads))
  {
    InitSafe(c, threads);
  }

  lemma {:induction false} RunInv(c: Config, threads: nat, steps: seq<Step>, states: seq<State>, i: nat)
    requires 0 < c.cap <= W32 && Behaviour(c, threads, steps, states) && i <= |steps|
    ensures Inv(c, states[i])
  {
    hide Inv, Apply;
    if i == 0 {
      InitInv(c, threads);
    } else {
      RunInv(c, threads, steps, states, i - 1);
      StepInv(c, states[i - 1], steps[i - 1], states[i]);
    }
  }

  /** Nothing is lost, duplicated, reordered or torn: what was popped is a prefix of
      what was pushed, in the order of the head stores, and what lies between the
      cursors is the rest, byte for byte. */
  lemma PoppedIsPrefixOfPushed(c: Config, threads: nat, steps: seq<Step>, states: seq<State>, i: nat)
    requires 0 < c.cap <= W32 && Behaviour(c, threads, steps, states) && i <= |steps|
    ensures var s := states[i];
      && s.popped <= s.pushed
      && 0 < |s.data| == c.cap && s.tail <= s.head <= s.tail + c.cap
      && Win(s.data, s.tail, s.head - s.tail) == EncAll(s.pushed[|s.popped|..])
      && (s.head == s.tail ==> s.popped == s.pushed)
  {
    hide Apply;
    RunInv(c, threads, steps, states, i);
    LayoutEmpty(states[i].data, states[i].tail, states[i].head, Queue(states[i]));
  }

  /** Each step of the machine is a step of a queue of records: it appends the record
      of the call whose head store it is, or removes the front and returns exactly
      that, or leaves the queue alone. */
  lemma StepIsQueueStep(c: Config, s: State, st: Step, s': State)
    requires Inv(c, s) && Apply(c, s, st) == Some(s')
    ensures
      || (Queue(s') == Queue(s) && s'.popped == s.popped && s'.pushed == s.pushed)
      || (st.Prod? && st.p < |s.ps| && Queue(s') == Queue(s) + [s.ps[st.p].call.rec] && s'.popped == s.popped
          && |EncAll(Queue(s'))| <= c.cap)
      || (st.Cons? && Queue(s) != [] && Queue(s') == Queue(s)[1..] && s'.popped == s.popped + [Queue(s)[0]])
  {
    hide PushLockedStep, AcquireStep, ReleaseStep, WaitStep, Sleepers, DataWake, SpaceWake, Calls, Mutex;
    match st
    case Prod(p, woken) =>
      ProdCases(c, s, p, woken, s');
      if PushLockedStep(c, s, p).Some? {
        PushIsQueueStep(c, s, p, s');
      } else {
        OtherStepsKeepQueue(c, s, p, woken, s');
      }
    case Cons =>
      if s.cons.pc == CRead && Whole(s.cons.buf) { TailStore(c, s, s'); }
    case _ =>
  }

  lemma OtherStepsKeepQueue(c: Config, s: State, p: nat, woken: Option<nat>, s': State)
    requires p < |s.ps|
    requires AcquireStep(c, s, p) == Some(s') || ReleaseStep(s, p, woken) == Some(s') || WaitStep(s, p) == Some(s')
    ensures s'.pushed == s.pushed && s'.popped == s.popped
  {
    if ReleaseStep(s, p, woken) == Some(s') {
      hide AcquireStep, WaitStep;
      ReleaseShape(s, p, woken, s');
    }
  }

  lemma PushIsQueueStep(c: Config, s: State, p: nat, s': State)
    requires Safe(c, s) && p < |s.ps| && PushLockedStep(c, s, p) == Some(s')
    ensures
      || (Queue(s') == Queue(s) && s'.popped == s.popped && s'.pushed == s.pushed)
      || (Queue(s') == Queue(s) + [s.ps[p].call.rec] && s'.popped == s.popped && |EncAll(Queue(s'))| <= c.cap)
  {
    assert Filling(c, s, p);
    if s.ps[p].pc == Copy && s.ps[p].i == Need(s.ps[p]) {
      HeadStore(c, s, p, s');
      LayoutEmpty(s'.data, s'.tail, s'.head, Queue(s'));
    }
  }

  /** So, at every step of every behaviour, the ring is a queue, and nothing but. */
  lemma RingIsAQueue(c: Config, threads: nat, steps: seq<Step>, states: seq<State>, i: nat)
    requires 0 < c.cap <= W32 && Behaviour(c, threads, steps, states) && i < |steps|
    ensures QueueStep(Queue(states[i]), Queue(states[i + 1]))
  {
    hide Apply, Inv, Queue;
    RunInv(c, threads, steps, states, i);
    StepIsQueueStep(c, states[i], steps[i], states[i + 1]);
  }

  /** The lock word is non-zero exactly while some thread holds the lock, no two
      threads ever do, and a thread asleep on it is on its way to being woken. */
  lemma MutualExclusion(c: Config, threads: nat, steps: seq<Step>, states: seq<State>, i: nat)
    requires 0 < c.cap <= W32 && Behaviour(c, threads, steps, states) && i <= |steps|
    ensures var s := states[i];
      && (s.lock != 0 <==> exists p :: 0 <= p < |s.ps| && Holds(s.ps[p].pc))
      && (forall p, q :: 0 <= p < |s.ps| && 0 <= q < |s.ps| && Holds(s.ps[p].pc) && Holds(s.ps[q].pc) ==> p == q)
      && (Asleep(s) ==> s.lock == 2 || Rouser(s))
  {
    hide Apply;
    RunInv(c, threads, steps, states, i);
  }

  /** The room check never subtracts below zero, however stale the loaded tail is. */
  lemma RoomCheckDoesNotUnderflow(c: Config, threads: nat, steps: seq<Step>, states: seq<State>, i: nat, p: nat)
    requires 0 < c.cap <= W32 && Behaviour(c, threads, steps, states) && i <= |steps|
    requires p < |states[i].ps| && states[i].ps[p].pc == Check
    ensures 0 <= states[i].ps[p].h - states[i].ps[p].t <= c.cap
  {
    hide Apply;
    RunInv(c, threads, steps, states, i);
    assert Filling(c, states[i], p);
  }

  /** A consumer asleep on a ring that is not empty is owed a wake by a producer past
      its head store, unless `data_seq` moved by 2^32 or more before it slept. */
  lemma NoLostDataWake(c: Config, threads: nat, steps: seq<Step>, states: seq<State>, i: nat)
    requires 0 < c.cap <= W32 && Behaviour(c, threads, steps, states) && i <= |steps|
    ensures var s := states[i];
      s.cons.pc == CParked && s.head != s.tail && s.cons.lag < W32 ==> SomePending(s.ps)
  {
    hide Apply;
    RunInv(c, threads, steps, states, i);
    var s := states[i];
    if s.cons.pc == CParked && s.head > s.tail && s.cons.lag < W32 { ConsumerIsWoken(s); }
  }

  /** A producer asleep although its record would fit is owed a wake by the consumer,
      unless a whole pop came between its loads of `tail` and of `space_seq` (or the
      word went round). Loading `space_seq` first rules the exception out. */
  lemma NoLostSpaceWake(c: Config, threads: nat, steps: seq<Step>, states: seq<State>, i: nat, p: nat)
    requires 0 < c.cap <= W32 && Behaviour(c, threads, steps, states) && i <= |steps| && p < |states[i].ps|
    ensures var s := states[i];
      s.ps[p].pc == SpaceParked && Room(c, s, s.ps[p]) && s.ps[p].lag < W32 ==>
        s.cons.pc == CBump || s.cons.pc == CWake || (!c.early && Overtaken(s.ps[p]))
  {
    hide Apply;
    RunInv(c, threads, steps, states, i);
    var s := states[i];
    if s.ps[p].pc == SpaceParked && Room(c, s, s.ps[p]) && s.ps[p].lag < W32 { ProducerIsWoken(c, s, p); }
  }

  /** A push that returned true put its record in exactly once, during the call. */
  lemma AppendedExactlyOnce(c: Config, threads: nat, steps: seq<Step>, states: seq<State>, i: nat, id: nat)
    requires 0 < c.cap <= W32 && Behaviour(c, threads, steps, states) && i <= |steps|
    requires id in states[i].results && states[i].results[id].Appended?
    ensures var s := states[i];
      exists j: nat :: j < |s.pushed| && PushedAt(s, s.results[id].call, j)
        && forall k :: 0 <= k < |s.pushedBy| && s.pushedBy[k] == id ==> k == j
  {
    hide Apply;
    RunInv(c, threads, steps, states, i);
    var s := states[i];
    assert Ended(c, s, id, s.results[id]);
    var j: nat :| j < |s.pushed| && PushedAt(s, s.results[id].call, j);
    assert forall k :: 0 <= k < |s.pushedBy| && s.pushedBy[k] == id ==> k == j;
  }
}
