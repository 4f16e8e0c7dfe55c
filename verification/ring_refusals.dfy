/** A refused push, traced back to the state of the run in which it last looked for room. */
module RingRefusals {
  import opened Circular
  import opened Records
  import opened RingMachine
  import opened RingFifo
  import opened RingWakeups
  import opened RingCalls
  import opened RingTheorems

  /** Where a room check takes effect: the load of `tail`, or the refusal of a record that
      could never fit. */
  predicate Looks(c: Config, me: Producer) {
    me.pc.LoadTail? || (me.pc.LoadHead? && Need(me) > c.cap)
  }

  /** In this state the call looks for room, under the lock, and what `pushes` and `pops`
      count is what has been pushed and popped. */
  ghost predicate LooksAt(c: Config, s: State, p: nat, call: Call, pushes: nat, pops: nat) {
    && p < |s.ps| && s.ps[p].call == call && Looks(c, s.ps[p]) && s.owner == Some(p)
    && pushes == |s.pushed| && pops == |s.popped|
  }

  /** The call is neither looking for room nor about to. */
  predicate NotLooking(s: State, id: nat) {
    forall q :: 0 <= q < |s.ps| && s.ps[q].call.id == id ==> !s.ps[q].pc.LoadHead? && !s.ps[q].pc.LoadTail?
  }

  ghost predicate NoLook(states: seq<State>, from: nat, to: nat, id: nat)
    requires to <= |states|
  {
    forall k :: from <= k < to ==> NotLooking(states[k], id)
  }

  /** The call's latest look, before state `i`, found no room. */
  ghost predicate FoundNoRoom(c: Config, states: seq<State>, i: nat, j: nat, p: nat, call: Call, pushes: nat, pops: nat)
    requires i < |states|
  {
    && j < i && LooksAt(c, states[j], p, call, pushes, pops) && !Room(c, states[j], states[j].ps[p])
    && NoLook(states, j + 1, i + 1, call.id)
  }

  /** What the thread's latest look saw is still with it. */
  ghost predicate Remembers(c: Config, states: seq<State>, i: nat, j: nat, p: nat, me: Producer)
    requires i < |states|
  {
    && j < i && LooksAt(c, states[j], p, me.call, me.pushes, me.pops)
    && me.h == states[j].head && me.t == states[j].tail
    && NoLook(states, j + 1, i + 1, me.call.id)
  }

  ghost predicate Traced(c: Config, states: seq<State>, i: nat, me: Producer)
    requires i < |states|
  {
    && (me.pc.Check? ==> exists j: nat, p: nat :: Remembers(c, states, i, j, p, me))
    && (Denied(me) ==> exists j: nat, p: nat :: FoundNoRoom(c, states, i, j, p, me.call, me.pushes, me.pops))
  }

  ghost predicate TracedEnd(c: Config, states: seq<State>, i: nat, o: Outcome)
    requires i < |states|
  {
    o.Refused? ==> exists j: nat, p: nat :: FoundNoRoom(c, states, i, j, p, o.call, o.pushes, o.pops)
  }

  ghost predicate AllTraced(c: Config, states: seq<State>, i: nat)
    requires i < |states|
  {
    && (forall q :: 0 <= q < |states[i].ps| ==> Traced(c, states, i, states[i].ps[q]))
    && (forall id :: id in states[i].results ==> TracedEnd(c, states, i, states[i].results[id]))
  }

  // ---- one step ---------------------------------------------------------

  predicate SameLook(me: Producer, me': Producer) {
    me'.call == me.call && me'.pushes == me.pushes && me'.pops == me.pops
  }

  /** Where a thread that was denied room, or is about to compare, comes from. */
  ghost predicate Origin(c: Config, s: State, me: Producer, me': Producer) {
    && (Denied(me') ==>
          || (Denied(me) && SameLook(me, me'))
          || (me.pc.Check? && c.cap - (me.h - me.t) < Need(me) && SameLook(me, me'))
          || (me.pc.LoadHead? && Need(me) > c.cap && me' == me'.(call := me.call, pushes := |s.pushed|, pops := |s.popped|)))
    && (me'.pc.Check? ==>
          || me' == me
          || (me.pc.LoadTail? && me' == me'.(call := me.call, h := me.h, t := s.tail, pushes := |s.pushed|, pops := |s.popped|)))
  }

  /** Where an outcome comes from: it was there, or a call of a thread denied room ended,
      or it is no refusal. */
  ghost predicate OriginEnd(s: State, id: nat, o: Outcome) {
    || (id in s.results && s.results[id] == o)
    || o.Appended?
    || exists q :: 0 <= q < |s.ps| && Denied(s.ps[q]) && s.ps[q].call == o.call
         && s.ps[q].pushes == o.pushes && s.ps[q].pops == o.pops
  }

  ghost predicate Origins(c: Config, s: State, s': State) {
    && |s'.ps| == |s.ps|
    && (forall q :: 0 <= q < |s.ps| ==> Origin(c, s, s.ps[q], s'.ps[q]))
    && (forall id :: id in s'.results ==> OriginEnd(s, id, s'.results[id]))
  }

  lemma PushLockedOrigins(c: Config, s: State, p: nat, s': State)
    requires p < |s.ps| && 0 < c.cap == |s.data| && PushLockedStep(c, s, p) == Some(s')
    ensures Origins(c, s, s')
  {
    hide Idx, Enc;
    PushLockedOrigin(c, s, p, s');
    hide PushLockedStep;
    forall q | 0 <= q < |s.ps| ensures Origin(c, s, s.ps[q], s'.ps[q]) {
      if q != p { assert s'.ps[q] == s.ps[q]; }
    }
    forall id | id in s'.results ensures OriginEnd(s, id, s'.results[id]) {}
  }

  lemma PushLockedOrigin(c: Config, s: State, p: nat, s': State)
    requires p < |s.ps| && 0 < c.cap == |s.data| && PushLockedStep(c, s, p) == Some(s')
    ensures |s'.ps| == |s.ps| && s'.ps == s.ps[p := s'.ps[p]] && s'.results == s.results
    ensures Origin(c, s, s.ps[p], s'.ps[p])
  {
    hide Idx, Enc;
  }

  lemma AcquireOrigins(c: Config, s: State, p: nat, s': State)
    requires p < |s.ps| && AcquireStep(c, s, p) == Some(s')
    ensures Origins(c, s, s')
  {}

  lemma ReleaseOrigins(c: Config, s: State, p: nat, woken: Option<nat>, s': State)
    requires p < |s.ps| && ReleaseStep(s, p, woken) == Some(s')
    ensures Origins(c, s, s')
  {
    ReleaseShape(s, p, woken, s');
  }

  lemma WaitOrigins(c: Config, s: State, p: nat, s': State)
    requires p < |s.ps| && WaitStep(s, p) == Some(s')
    ensures Origins(c, s, s')
  {}

  lemma ConsOrigins(c: Config, s: State, s': State)
    requires 0 < c.cap == |s.data| && ConsStep(c, s) == Some(s')
    ensures Origins(c, s, s')
  {
    hide Idx, Whole;
  }

  lemma StepOrigins(c: Config, s: State, st: Step, s': State)
    requires 0 < c.cap == |s.data| && Apply(c, s, st) == Some(s')
    ensures Origins(c, s, s')
  {
    hide PushLockedStep, AcquireStep, ReleaseStep, WaitStep, ConsStep;
    match st
    case Prod(p, woken) =>
      ProdCases(c, s, p, woken, s');
      hide ProdStep, Origins;
      if PushLockedStep(c, s, p).Some? { PushLockedOrigins(c, s, p, s'); }
      else if AcquireStep(c, s, p).Some? { AcquireOrigins(c, s, p, s'); }
      else if ReleaseStep(s, p, woken).Some? { ReleaseOrigins(c, s, p, woken, s'); }
      else { WaitOrigins(c, s, p, s'); }
    case Cons => ConsOrigins(c, s, s');
    case _ =>
  }

  // ---- from state to state ----------------------------------------------

  lemma NoLookLater(states: seq<State>, from: nat, i: nat, id: nat)
    requires i + 1 < |states| && NoLook(states, from, i + 1, id) && NotLooking(states[i + 1], id)
    ensures NoLook(states, from, i + 2, id)
  {}

  /** A thread past its look is the only one with its call, and is not looking. */
  lemma OnlyMine(c: Config, s: State, q: nat)
    requires Calls(c, s) && q < |s.ps| && (s.ps[q].pc.Check? || Denied(s.ps[q]))
    ensures NotLooking(s, s.ps[q].call.id)
  {
    hide CallOf, Ended;
    forall r | 0 <= r < |s.ps| && (s.ps[r].pc.LoadHead? || s.ps[r].pc.LoadTail?)
      ensures s.ps[r].call.id != s.ps[q].call.id
    {
      assert r < q || q < r;
    }
  }

  /** An ended call is nobody's. */
  lemma Nobodys(c: Config, s: State, id: nat)
    requires Calls(c, s) && id in s.results
    ensures NotLooking(s, id)
  {
    forall r | 0 <= r < |s.ps| && s.ps[r].pc != Idle ensures s.ps[r].call.id != id { assert CallOf(c, s, s.ps[r]); }
  }

  /** What a thread at its look knows of the state it looks at. */
  lemma Looking(c: Config, s: State, p: nat)
    requires Inv(c, s) && p < |s.ps| && Looks(c, s.ps[p])
    ensures s.owner == Some(p) && (s.ps[p].pc.LoadTail? ==> s.ps[p].h == s.head)
    ensures s.tail <= s.head && (s.ps[p].pc.LoadHead? ==> !Room(c, s, s.ps[p]))
  {
    hide Sleepers, DataWake, SpaceWake, Calls;
    assert Filling(c, s, p);
  }

  lemma ThreadTraced(c: Config, states: seq<State>, i: nat, q: nat)
    requires i + 1 < |states| && Inv(c, states[i]) && Inv(c, states[i + 1])
    requires q < |states[i].ps| == |states[i + 1].ps|
    requires Origin(c, states[i], states[i].ps[q], states[i + 1].ps[q]) && Traced(c, states, i, states[i].ps[q])
    ensures Traced(c, states, i + 1, states[i + 1].ps[q])
  {
    var s, s' := states[i], states[i + 1];
    var me, me' := s.ps[q], s'.ps[q];
    hide Room, Inv, NoLook, NotLooking, LooksAt;
    InvCalls(c, s');
    if Denied(me') || me'.pc.Check? { OnlyMine(c, s', q); }
    if Looks(c, me) { Looking(c, s, q); }
    hide Calls;
    if me'.pc.Check? {
      if me' == me {
        var j: nat, p: nat :| Remembers(c, states, i, j, p, me);
        NoLookLater(states, j + 1, i, me.call.id);
        assert Remembers(c, states, i + 1, j, p, me');
      } else {
        NoLookHere(states, i + 1, me.call.id);
        assert Remembers(c, states, i + 1, i, q, me');
      }
    }
    if Denied(me') {
      if Denied(me) && SameLook(me, me') {
        var j: nat, p: nat :| FoundNoRoom(c, states, i, j, p, me.call, me.pushes, me.pops);
        NoLookLater(states, j + 1, i, me.call.id);
        assert FoundNoRoom(c, states, i + 1, j, p, me'.call, me'.pushes, me'.pops);
      } else if me.pc.Check? {
        var j: nat, p: nat :| Remembers(c, states, i, j, p, me);
        NoLookLater(states, j + 1, i, me.call.id);
        NotEnough(c, states[j], p, me);
        assert FoundNoRoom(c, states, i + 1, j, p, me'.call, me'.pushes, me'.pops);
      } else {
        NoLookHere(states, i + 1, me.call.id);
        assert FoundNoRoom(c, states, i + 1, i, q, me'.call, me'.pushes, me'.pops);
      }
    }
  }

  lemma NoLookHere(states: seq<State>, i: nat, id: nat)
    requires i < |states| && NotLooking(states[i], id)
    ensures NoLook(states, i, i + 1, id)
  {}

  lemma NotEnough(c: Config, s: State, p: nat, me: Producer)
    requires p < |s.ps| && s.ps[p].call == me.call && me.h == s.head && me.t == s.tail
    requires c.cap - (me.h - me.t) < Need(me)
    ensures !Room(c, s, s.ps[p])
  {}

  lemma TracedDenied(c: Config, states: seq<State>, i: nat, me: Producer)
    requires i < |states| && Traced(c, states, i, me) && Denied(me)
    ensures exists j: nat, p: nat :: FoundNoRoom(c, states, i, j, p, me.call, me.pushes, me.pops)
  {}

  lemma InvCalls(c: Config, s: State)
    requires Inv(c, s)
    ensures Calls(c, s) && forall id :: id in s.results ==> s.results[id].call.id == id
  {
    forall id | id in s.results ensures s.results[id].call.id == id { assert Ended(c, s, id, s.results[id]); }
  }

  lemma EndTraced(c: Config, states: seq<State>, i: nat, id: nat)
    requires i + 1 < |states| && Inv(c, states[i + 1]) && AllTraced(c, states, i)
    requires id in states[i + 1].results && OriginEnd(states[i], id, states[i + 1].results[id])
    ensures TracedEnd(c, states, i + 1, states[i + 1].results[id])
  {
    var s, s' := states[i], states[i + 1];
    var o := s'.results[id];
    hide Room, NoLook, NotLooking, LooksAt, Calls, Inv, Traced;
    InvCalls(c, s');
    Nobodys(c, s', id);
    if o.Refused? {
      if id in s.results && s.results[id] == o {
        var j: nat, p: nat :| FoundNoRoom(c, states, i, j, p, o.call, o.pushes, o.pops);
        NoLookLater(states, j + 1, i, id);
        assert FoundNoRoom(c, states, i + 1, j, p, o.call, o.pushes, o.pops);
      } else {
        var q :| 0 <= q < |s.ps| && Denied(s.ps[q]) && s.ps[q].call == o.call
          && s.ps[q].pushes == o.pushes && s.ps[q].pops == o.pops;
        assert Traced(c, states, i, s.ps[q]);
        TracedDenied(c, states, i, s.ps[q]);
        var j: nat, p: nat :| FoundNoRoom(c, states, i, j, p, o.call, o.pushes, o.pops);
        NoLookLater(states, j + 1, i, id);
        assert FoundNoRoom(c, states, i + 1, j, p, o.call, o.pushes, o.pops);
      }
    }
  }

  lemma {:induction false} TracedUpTo(c: Config, threads: nat, steps: seq<Step>, states: seq<State>, i: nat)
    requires 0 < c.cap <= W32 && Behaviour(c, threads, steps, states) && i <= |steps|
    ensures AllTraced(c, states, i)
    decreases i
  {
    hide Inv, Apply, Traced, TracedEnd;
    if i == 0 {
      StartTraced(c, threads, states);
    } else {
      TracedUpTo(c, threads, steps, states, i - 1);
      RunInv(c, threads, steps, states, i - 1);
      RunInv(c, threads, steps, states, i);
      var s, s' := states[i - 1], states[i];
      StepOrigins(c, s, steps[i - 1], s');
      forall q | 0 <= q < |s'.ps| ensures Traced(c, states, i, s'.ps[q]) { ThreadTraced(c, states, i - 1, q); }
      forall id | id in s'.results ensures TracedEnd(c, states, i, s'.results[id]) { EndTraced(c, states, i - 1, id); }
    }
  }

  lemma StartTraced(c: Config, threads: nat, states: seq<State>)
    requires c.cap > 0 && |states| > 0 && states[0] == Init(c, threads)
    ensures AllTraced(c, states, 0)
  {}

  /** A push that returned false put nothing in. The last time it looked for room, holding
      the lock, the ring as it was in that state of the run had none for its record; and a
      blocking push had a deadline, which had passed. */
  lemma RefusedForLackOfRoom(c: Config, threads: nat, steps: seq<Step>, states: seq<State>, i: nat, id: nat)
    requires 0 < c.cap <= W32 && Behaviour(c, threads, steps, states) && i <= |steps|
    requires id in states[i].results && states[i].results[id].Refused?
    ensures var s := states[i];
      var o := s.results[id];
      && o.call.id == id && id !in s.pushedBy && LackedRoom(c, s, o.call, o.pushes, o.pops)
      && (exists j: nat, p: nat :: FoundNoRoom(c, states, i, j, p, o.call, o.pushes, o.pops))
      && (o.call.blocking ==> o.call.deadline.Some? && o.call.deadline.value <= o.at <= s.now)
  {
    hide Apply, FoundNoRoom;
    RunInv(c, threads, steps, states, i);
    TracedUpTo(c, threads, steps, states, i);
    assert Ended(c, states[i], id, states[i].results[id]);
    assert TracedEnd(c, states, i, states[i].results[id]);
  }

  // ---- whose call it is -------------------------------------------------

  /** The call is what a step of the schedule began. */
  ghost predicate Started(steps: seq<Step>, states: seq<State>, i: nat, call: Call)
    requires i < |states| <= |steps| + 1
  {
    exists j: nat, p: nat :: j < i && steps[j] == Start(p, call.rec, call.blocking, call.deadline)
      && states[j].nextCall == call.id && |states[j].pushed| == call.born
  }

  ghost predicate AllStarted(steps: seq<Step>, states: seq<State>, i: nat)
    requires i < |states| <= |steps| + 1
  {
    && (forall q :: 0 <= q < |states[i].ps| && states[i].ps[q].pc != Idle ==>
          Started(steps, states, i, states[i].ps[q].call))
    && (forall id :: id in states[i].results ==> Started(steps, states, i, states[i].results[id].call))
  }

  /** A step leaves each thread its call, but for the one it starts; and what has ended is
      a call of some thread's. */
  ghost predicate CallsMove(s: State, st: Step, s': State) {
    && |s'.ps| == |s.ps|
    && (forall q :: 0 <= q < |s.ps| && s'.ps[q].pc != Idle ==>
          || (s.ps[q].pc != Idle && s'.ps[q].call == s.ps[q].call)
          || (st.Start? && st.p == q
              && s'.ps[q].call == Call(s.nextCall, st.rec, st.blocking, st.deadline, |s.pushed|)))
    && (forall id :: id in s'.results ==>
          || (id in s.results && s'.results[id] == s.results[id])
          || exists q :: 0 <= q < |s.ps| && s.ps[q].pc != Idle && s.ps[q].call == s'.results[id].call)
  }

  lemma PushLockedMovesCalls(c: Config, s: State, p: nat, s': State)
    requires p < |s.ps| && 0 < c.cap == |s.data| && PushLockedStep(c, s, p) == Some(s')
    ensures |s'.ps| == |s.ps| && s'.results == s.results && s.ps[p].pc != Idle && s'.ps[p].call == s.ps[p].call
    ensures forall q :: 0 <= q < |s.ps| && q != p ==> s'.ps[q] == s.ps[q]
  {
    hide Idx, Enc;
  }

  lemma WaitMovesCalls(s: State, p: nat, s': State)
    requires p < |s.ps| && WaitStep(s, p) == Some(s')
    ensures forall st: Step :: CallsMove(s, st, s')
  {}

  lemma ProducerMovesCalls(c: Config, s: State, p: nat, woken: Option<nat>, s': State)
    requires p < |s.ps| && 0 < c.cap == |s.data| && ProdStep(c, s, p, woken) == Some(s')
    ensures CallsMove(s, Prod(p, woken), s')
  {
    ProdCases(c, s, p, woken, s');
    hide ProdStep, PushLockedStep, WaitStep;
    if PushLockedStep(c, s, p).Some? { PushLockedMovesCalls(c, s, p, s'); }
    else if AcquireStep(c, s, p).Some? {}
    else if ReleaseStep(s, p, woken).Some? { ReleaseShape(s, p, woken, s'); }
    else { WaitMovesCalls(s, p, s'); }
  }

  lemma StepMovesCalls(c: Config, s: State, st: Step, s': State)
    requires 0 < c.cap == |s.data| && Apply(c, s, st) == Some(s')
    ensures CallsMove(s, st, s')
  {
    hide ProdStep, Whole, Idx;
    if st.Prod? { ProducerMovesCalls(c, s, st.p, st.woken, s'); }
  }

  lemma {:induction false} StartedUpTo(c: Config, threads: nat, steps: seq<Step>, states: seq<State>, i: nat)
    requires 0 < c.cap <= W32 && Behaviour(c, threads, steps, states) && i <= |steps|
    ensures AllStarted(steps, states, i)
    decreases i
  {
    hide Apply, CallsMove, Started;
    if i == 0 {
      assert forall q :: 0 <= q < |states[0].ps| ==> states[0].ps[q].pc == Idle;
    } else {
      StartedUpTo(c, threads, steps, states, i - 1);
      StepMovesCalls(c, states[i - 1], steps[i - 1], states[i]);
      StillStarted(steps, states, i - 1);
    }
  }

  lemma StillStarted(steps: seq<Step>, states: seq<State>, i: nat)
    requires i + 1 < |states| <= |steps| + 1 && AllStarted(steps, states, i)
    requires CallsMove(states[i], steps[i], states[i + 1])
    ensures AllStarted(steps, states, i + 1)
  {
    var s, s', later := states[i], states[i + 1], i + 1;
    forall q | 0 <= q < |s'.ps| && s'.ps[q].pc != Idle ensures Started(steps, states, later, s'.ps[q].call) {
      if s.ps[q].pc != Idle && s'.ps[q].call == s.ps[q].call { StartedLater(steps, states, i, s.ps[q].call); }
      else { assert steps[i] == Start(q, steps[i].rec, steps[i].blocking, steps[i].deadline); }
    }
    forall id | id in s'.results ensures Started(steps, states, later, s'.results[id].call) {
      StartedLater(steps, states, i, s'.results[id].call);
    }
  }

  lemma StartedLater(steps: seq<Step>, states: seq<State>, i: nat, call: Call)
    requires i + 1 < |states| <= |steps| + 1 && Started(steps, states, i, call)
    ensures Started(steps, states, i + 1, call)
  {}

  /** Every call that ended is one the schedule began, with that record, that choice of
      blocking and that deadline. */
  lemma OutcomesAreOfCalls(c: Config, threads: nat, steps: seq<Step>, states: seq<State>, i: nat, id: nat)
    requires 0 < c.cap <= W32 && Behaviour(c, threads, steps, states) && i <= |steps| && id in states[i].results
    ensures states[i].results[id].call.id == id && Started(steps, states, i, states[i].results[id].call)
  {
    hide Apply;
    StartedUpTo(c, threads, steps, states, i);
    RunInv(c, threads, steps, states, i);
    InvCalls(c, states[i]);
  }
}
