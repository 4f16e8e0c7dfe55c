/** How every pop call ends, and what it saw of the ring. */
module RingPops {
  import opened Circular
  import opened Records
  import opened RingMachine
  import opened RingFifo
  import opened RingTheorems

  /** The call numbered `n` was begun in that way. */
  ghost predicate Began(steps: seq<Step>, states: seq<State>, i: nat, n: nat, blocking: bool, deadline: Option<nat>)
    requires i < |states| <= |steps| + 1
  {
    exists j: nat :: j < i && steps[j] == StartPop(blocking, deadline)
      && states[j].cons.pc == CIdle && |states[j].cons.ends| == n
  }

  /** Call `n` is not about to look at the cursors, nor looking. */
  predicate NotLoading(s: State, n: nat) {
    |s.cons.ends| == n ==> !s.cons.pc.CTop? && !s.cons.pc.CLoadTail? && !s.cons.pc.CLoadHead?
  }

  /** In state `j` call `n` loads `head` and the ring is empty; up to state `i` it has not
      looked again. */
  ghost predicate LastSawEmpty(states: seq<State>, i: nat, j: nat, n: nat)
    requires i < |states|
  {
    && j < i && states[j].cons.pc == CLoadHead && |states[j].cons.ends| == n
    && Queue(states[j]) == [] && states[j].head == states[j].tail
    && forall k :: j < k <= i ==> NotLoading(states[k], n)
  }

  /** Only a call that is to block is anywhere in the blocking loop. */
  predicate Blocks(me: Consumer) {
    me.pc.CTop? || me.pc.CDeadline? || me.pc.CWait? || me.pc.CParked? ==> me.blocking
  }

  /** Where the consumer stands, and why. */
  ghost predicate Standing(steps: seq<Step>, states: seq<State>, i: nat)
    requires i < |states| <= |steps| + 1
  {
    var me := states[i].cons;
    && (me.pc != CIdle ==> Began(steps, states, i, |me.ends|, me.blocking, me.deadline))
    && (me.pc == CDeadline ==> me.blocking && exists j: nat :: LastSawEmpty(states, i, j, |me.ends|))
    && Blocks(me)
  }

  /** Call `n` ended: empty-handed only if the ring was empty when it last looked, and, if
      it was to block, only with a deadline that had passed. */
  ghost predicate EndOk(steps: seq<Step>, states: seq<State>, i: nat, n: nat)
    requires i < |states| <= |steps| + 1 && n < |states[i].cons.ends|
  {
    match states[i].cons.ends[n]
    case Got(_) => true
    case Nothing(blocking, deadline, at) =>
      && Began(steps, states, i, n, blocking, deadline)
      && (exists j: nat :: LastSawEmpty(states, i, j, n))
      && at <= states[i].now
      && (blocking ==> deadline.Some? && deadline.value <= at)
  }

  ghost predicate EndsOk(steps: seq<Step>, states: seq<State>, i: nat)
    requires i < |states| <= |steps| + 1
  {
    forall n :: 0 <= n < |states[i].cons.ends| ==> EndOk(steps, states, i, n)
  }

  // ---- one step ---------------------------------------------------------

  /** What one step does to the consumer's account of its calls. */
  ghost predicate ConsMove(s: State, st: Step, s': State) {
    var me, me' := s.cons, s'.cons;
    || (me' == me.(pc := me'.pc, spins := me'.spins, final := me'.final, t := me'.t, buf := me'.buf,
                   seen := me'.seen, lag := me'.lag)
        && (me'.pc == me.pc || (me.pc != CIdle && me'.pc != CIdle))
        && (me'.pc == CDeadline ==> me.pc == CDeadline || (me.pc == CLoadHead && s.head == me.t && me.blocking))
        && (me'.pc.CTop? || me'.pc.CWait? || me'.pc.CParked? ==> me.blocking || me'.pc == me.pc))
    || (st.StartPop? && me.pc == CIdle && me'.pc != CIdle && me'.ends == me.ends
        && me'.blocking == st.blocking && me'.deadline == st.deadline
        && (if st.blocking then me'.pc == CTop else me'.pc == CLoadTail))
    || (me' == EmptyHanded(me, s.now)
        && ((me.pc == CLoadHead && s.head == me.t && !me.blocking)
            || (me.pc == CDeadline && me.deadline.Some? && me.deadline.value <= s.now)))
    || (me.pc == CWake && me'.pc == CIdle && me'.ends == me.ends + [Got(Payload(me.buf))])
  }

  lemma ConsStepMoves(c: Config, s: State, s': State)
    requires 0 < c.cap == |s.data| && ConsStep(c, s) == Some(s')
    requires Blocks(s.cons)
    ensures ConsMove(s, Cons, s') && s'.now == s.now
  {
    hide Idx, Whole, Payload;
  }

  lemma ProducersLeaveIt(c: Config, s: State, p: nat, woken: Option<nat>, s': State)
    requires p < |s.ps| && 0 < c.cap == |s.data| && ProdStep(c, s, p, woken) == Some(s')
    ensures s'.now == s.now
    ensures s'.cons == s.cons || (s.cons.pc == CParked && s'.cons == s.cons.(pc := CTop, spins := 0))
  {
    hide Idx, Enc;
  }

  lemma StepMoves(c: Config, s: State, st: Step, s': State)
    requires 0 < c.cap == |s.data| && Apply(c, s, st) == Some(s')
    requires Blocks(s.cons)
    ensures ConsMove(s, st, s') && s'.now >= s.now
  {
    hide ProdStep, ConsStep, Payload;
    match st
    case Prod(p, woken) => ProducersLeaveIt(c, s, p, woken, s');
    case Cons => ConsStepMoves(c, s, s');
    case _ =>
  }

  lemma MoveBlocks(s: State, st: Step, s': State)
    requires Blocks(s.cons) && ConsMove(s, st, s')
    ensures Blocks(s'.cons)
  {}

  // ---- from state to state ----------------------------------------------

  lemma BeganStill(steps: seq<Step>, states: seq<State>, i: nat, n: nat, blocking: bool, deadline: Option<nat>)
    requires i + 1 < |states| <= |steps| + 1 && Began(steps, states, i, n, blocking, deadline)
    ensures Began(steps, states, i + 1, n, blocking, deadline)
  {}

  lemma EmptyStill(states: seq<State>, i: nat, j: nat, n: nat)
    requires i + 1 < |states| && LastSawEmpty(states, i, j, n) && NotLoading(states[i + 1], n)
    ensures LastSawEmpty(states, i + 1, j, n)
  {}

  /** A load of `head` that finds it at the tail. */
  lemma EmptyHere(c: Config, states: seq<State>, i: nat)
    requires i + 1 < |states| && Inv(c, states[i]) && states[i].cons.pc == CLoadHead && states[i].head == states[i].cons.t
    requires NotLoading(states[i + 1], |states[i].cons.ends|)
    ensures LastSawEmpty(states, i + 1, i, |states[i].cons.ends|)
  {
    var s := states[i];
    LayoutEmpty(s.data, s.tail, s.head, Queue(s));
  }

  lemma StandingStep(c: Config, steps: seq<Step>, states: seq<State>, i: nat)
    requires i + 1 < |states| <= |steps| + 1 && Inv(c, states[i]) && Standing(steps, states, i)
    requires ConsMove(states[i], steps[i], states[i + 1])
    ensures Standing(steps, states, i + 1)
  {
    hide Inv;
    var me, me' := states[i].cons, states[i + 1].cons;
    if me.pc != CIdle { BeganStill(steps, states, i, |me.ends|, me.blocking, me.deadline); }
    if me'.pc == CDeadline {
      if me.pc == CDeadline {
        var j: nat :| LastSawEmpty(states, i, j, |me.ends|);
        EmptyStill(states, i, j, |me.ends|);
      } else {
        EmptyHere(c, states, i);
      }
    }
  }

  lemma EndsStep(c: Config, steps: seq<Step>, states: seq<State>, i: nat)
    requires i + 1 < |states| <= |steps| + 1 && Inv(c, states[i]) && Standing(steps, states, i) && EndsOk(steps, states, i)
    requires ConsMove(states[i], steps[i], states[i + 1]) && states[i].now <= states[i + 1].now
    ensures EndsOk(steps, states, i + 1)
  {
    hide Inv;
    var me, me', later := states[i].cons, states[i + 1].cons, i + 1;
    AtMostOneEnd(states[i], steps[i], states[i + 1]);
    forall n | 0 <= n < |me'.ends| ensures EndOk(steps, states, later, n) {
      if n < |me.ends| {
        assert EndOk(steps, states, i, n) && me'.ends[n] == me.ends[n];
        EndStill(steps, states, i, n);
      } else if me'.ends[n].Nothing? {
        EndsHere(states[i], steps[i], states[i + 1]);
        NewEnd(c, steps, states, i);
      }
    }
  }

  lemma AtMostOneEnd(s: State, st: Step, s': State)
    requires ConsMove(s, st, s')
    ensures s.cons.ends <= s'.cons.ends && |s'.cons.ends| <= |s.cons.ends| + 1
  {}

  lemma EndsHere(s: State, st: Step, s': State)
    requires ConsMove(s, st, s') && |s'.cons.ends| > |s.cons.ends| && s'.cons.ends[|s.cons.ends|].Nothing?
    ensures s'.cons == EmptyHanded(s.cons, s.now)
  {}

  lemma EndStill(steps: seq<Step>, states: seq<State>, i: nat, n: nat)
    requires i + 1 < |states| <= |steps| + 1 && n < |states[i].cons.ends| <= |states[i + 1].cons.ends|
    requires EndOk(steps, states, i, n) && states[i + 1].cons.ends[n] == states[i].cons.ends[n]
    requires states[i].now <= states[i + 1].now
    ensures EndOk(steps, states, i + 1, n)
  {
    match states[i].cons.ends[n]
    case Got(_) =>
    case Nothing(blocking, deadline, at) =>
      BeganStill(steps, states, i, n, blocking, deadline);
      var j: nat :| LastSawEmpty(states, i, j, n);
      EmptyStill(states, i, j, n);
  }

  lemma NewEnd(c: Config, steps: seq<Step>, states: seq<State>, i: nat)
    requires i + 1 < |states| <= |steps| + 1 && Inv(c, states[i]) && Standing(steps, states, i)
    requires ConsMove(states[i], steps[i], states[i + 1]) && states[i].now <= states[i + 1].now
    requires states[i + 1].cons == EmptyHanded(states[i].cons, states[i].now)
    ensures EndOk(steps, states, i + 1, |states[i].cons.ends|)
  {
    hide Inv;
    var me, me' := states[i].cons, states[i + 1].cons;
    assert |me'.ends| == |me.ends| + 1 && me'.ends[|me.ends|].Nothing?;
    BeganStill(steps, states, i, |me.ends|, me.blocking, me.deadline);
    if me.pc == CDeadline {
      var j: nat :| LastSawEmpty(states, i, j, |me.ends|);
      EmptyStill(states, i, j, |me.ends|);
    } else {
      EmptyHere(c, states, i);
    }
  }

  lemma {:induction false} PopsUpTo(c: Config, threads: nat, steps: seq<Step>, states: seq<State>, i: nat)
    requires 0 < c.cap <= W32 && Behaviour(c, threads, steps, states) && i <= |steps|
    ensures Standing(steps, states, i) && EndsOk(steps, states, i)
    decreases i
  {
    hide Inv, Apply, ConsMove, Standing, EndsOk;
    if i == 0 {
      NoPopsYet(c, threads, steps, states);
    } else {
      PopsUpTo(c, threads, steps, states, i - 1);
      RunInv(c, threads, steps, states, i - 1);
      StandsBlocking(steps, states, i - 1);
      StepMoves(c, states[i - 1], steps[i - 1], states[i]);
      StandingStep(c, steps, states, i - 1);
      EndsStep(c, steps, states, i - 1);
    }
  }

  lemma NoPopsYet(c: Config, threads: nat, steps: seq<Step>, states: seq<State>)
    requires c.cap > 0 && 0 < |states| <= |steps| + 1 && states[0] == Init(c, threads)
    ensures Standing(steps, states, 0) && EndsOk(steps, states, 0)
  {}

  lemma StandsBlocking(steps: seq<Step>, states: seq<State>, i: nat)
    requires i < |states| <= |steps| + 1 && Standing(steps, states, i)
    ensures Blocks(states[i].cons)
  {}

  /** A pop call that ended with nothing was begun as it says; the ring was empty in the
      state of the run in which it last loaded the cursors; and if it was to block, it had a
      deadline, which had passed. So a call to block without a deadline ends with a record
      or not at all. */
  lemma EmptyHandedForGoodReason(c: Config, threads: nat, steps: seq<Step>, states: seq<State>, i: nat, n: nat)
    requires 0 < c.cap <= W32 && Behaviour(c, threads, steps, states) && i <= |steps|
    requires n < |states[i].cons.ends| && states[i].cons.ends[n].Nothing?
    ensures var o := states[i].cons.ends[n];
      && Began(steps, states, i, n, o.blocking, o.deadline)
      && (exists j: nat :: LastSawEmpty(states, i, j, n))
      && (o.blocking ==> o.deadline.Some? && o.deadline.value <= o.at <= states[i].now)
  {
    hide Apply;
    PopsUpTo(c, threads, steps, states, i);
    assert EndOk(steps, states, i, n);
  }

  // ---- the records they return ------------------------------------------

  function Returned(ends: seq<PopEnd>): seq<bytes> {
    if ends == [] then []
    else Returned(ends[..|ends| - 1]) + match ends[|ends| - 1] case Got(rec) => [rec] case Nothing(_, _, _) => []
  }

  /** The record a call has taken off the ring and is about to return. */
  function Taken(me: Consumer): seq<bytes> {
    if me.pc == CBump || me.pc == CWake then [Payload(me.buf)] else []
  }

  ghost predicate Accounted(s: State) {
    s.popped == Returned(s.cons.ends) + Taken(s.cons)
  }

  lemma ReturnedMore(ends: seq<PopEnd>, e: PopEnd)
    ensures Returned(ends + [e]) == Returned(ends) + match e case Got(rec) => [rec] case Nothing(_, _, _) => []
  {
    assert (ends + [e])[..|ends|] == ends;
  }

  lemma ConsAccounted(c: Config, s: State, s': State)
    requires Accounted(s) && 0 < c.cap == |s.data| && ConsStep(c, s) == Some(s')
    ensures Accounted(s')
  {
    hide Idx, Whole, Payload, Returned;
    ReturnedMore(s.cons.ends, Got(Payload(s.cons.buf)));
    ReturnedMore(s.cons.ends, Nothing(s.cons.blocking, s.cons.deadline, s.now));
  }

  lemma StepAccounted(c: Config, s: State, st: Step, s': State)
    requires Accounted(s) && 0 < c.cap == |s.data| && Apply(c, s, st) == Some(s')
    ensures Accounted(s')
  {
    hide ProdStep, ConsStep, Returned, Payload;
    match st
    case Prod(p, woken) =>
      ProducersLeaveIt(c, s, p, woken, s');
      ProducersPopNothing(c, s, p, woken, s');
    case Cons => ConsAccounted(c, s, s');
    case _ =>
  }

  lemma ProducersPopNothing(c: Config, s: State, p: nat, woken: Option<nat>, s': State)
    requires p < |s.ps| && 0 < c.cap == |s.data| && ProdStep(c, s, p, woken) == Some(s')
    ensures s'.popped == s.popped
  {
    hide Idx, Enc;
  }

  lemma {:induction false} PopsAccounted(c: Config, threads: nat, steps: seq<Step>, states: seq<State>, i: nat)
    requires 0 < c.cap <= W32 && Behaviour(c, threads, steps, states) && i <= |steps|
    ensures Accounted(states[i])
    decreases i
  {
    hide Apply, Accounted;
    if i == 0 {
      NothingReturned(c, threads);
    } else {
      PopsAccounted(c, threads, steps, states, i - 1);
      StepAccounted(c, states[i - 1], steps[i - 1], states[i]);
    }
  }

  lemma NothingReturned(c: Config, threads: nat)
    requires c.cap > 0
    ensures Accounted(Init(c, threads))
  {}

  /** What pop calls have returned, in the order of the calls, is what was pushed, in the
      order of the pushes, up to some point: everything popped but the record of a call
      that has yet to return. */
  lemma ReturnedIsPrefixOfPushed(c: Config, threads: nat, steps: seq<Step>, states: seq<State>, i: nat)
    requires 0 < c.cap <= W32 && Behaviour(c, threads, steps, states) && i <= |steps|
    ensures var s := states[i];
      && Returned(s.cons.ends) <= s.popped <= s.pushed && |s.popped| <= |Returned(s.cons.ends)| + 1
      && (s.cons.pc == CIdle ==> Returned(s.cons.ends) == s.popped)
  {
    hide Apply;
    PopsAccounted(c, threads, steps, states, i);
    PoppedIsPrefixOfPushed(c, threads, steps, states, i);
    hide Returned;
  }
}
