/** Each push call takes effect exactly once, or not at all, at one instant between
    its start and its return. */
module RingCalls {
  import opened Circular
  import opened Records
  import opened RingMachine
  import opened RingFifo

  /** `id`'s record is the `j`-th ever pushed, and it went in during the call. */
  predicate PushedAt(s: State, call: Call, j: nat) {
    j < |s.pushed| == |s.pushedBy| && s.pushedBy[j] == call.id && s.pushed[j] == call.rec && call.born <= j
  }

  predicate PushedOnce(s: State, call: Call) {
    exists j: nat :: j < |s.pushed| && PushedAt(s, call, j)
  }

  /** After `pushes` pushes and `pops` pops the ring lacked room for the call's record,
      and that was after the call began. */
  predicate LackedRoom(c: Config, s: State, call: Call, pushes: nat, pops: nat) {
    && call.born <= pushes <= |s.pushed| && pops <= pushes
    && c.cap - |EncAll(s.pushed[pops..pushes])| < 4 + |call.rec|
  }

  /** Past its head store, until the call returns. */
  predicate Done(me: Producer) {
    me.ok && (me.pc.Unlock? || me.pc.UnlockWake? || me.pc.BumpData? || me.pc.WakeData?)
  }

  ghost predicate CallOf(c: Config, s: State, me: Producer) {
    && me.call.id < s.nextCall && me.call.id !in s.results && me.call.born <= |s.pushed|
    && (me.pc.BumpData? || me.pc.WakeData? ==> me.ok)
    && (me.pc.LateSeen? ==> !me.ok)
    && (me.pc.LateSeen? || me.pc.Deadline? ==> me.call.blocking)
    && (if Done(me) then PushedOnce(s, me.call) else me.call.id !in s.pushedBy)
    && (me.pc.Check? ==>
          && me.call.born <= me.pushes <= |s.pushed| && me.pops <= me.pushes
          && |EncAll(s.pushed[me.pops..me.pushes])| == me.h - me.t)
    && (Denied(me) ==> LackedRoom(c, s, me.call, me.pushes, me.pops))
  }

  ghost predicate Ended(c: Config, s: State, id: nat, o: Outcome) {
    && o.call.id == id < s.nextCall
    && match o
       case Appended(call) => PushedOnce(s, call)
       case Refused(call, pushes, pops, at) =>
         && id !in s.pushedBy && LackedRoom(c, s, call, pushes, pops)
         && at <= s.now && (call.blocking ==> call.deadline.Some? && call.deadline.value <= at)
  }

  ghost predicate Calls(c: Config, s: State) {
    && |s.pushedBy| == |s.pushed|
    && (forall p :: 0 <= p < |s.ps| && s.ps[p].pc != Idle ==> CallOf(c, s, s.ps[p]))
    && (forall p, q :: 0 <= p < q < |s.ps| && s.ps[p].pc != Idle && s.ps[q].pc != Idle ==>
          s.ps[p].call.id != s.ps[q].call.id)
    && (forall id :: id in s.results ==> Ended(c, s, id, s.results[id]))
    && (forall j :: 0 <= j < |s.pushedBy| ==> s.pushedBy[j] < s.nextCall)
    && (forall i, j :: 0 <= i < j < |s.pushedBy| ==> s.pushedBy[i] != s.pushedBy[j])
  }

  /** What was true of the history stays true as the history grows. */
  lemma PushedGrows(s: State, s': State, call: Call)
    requires PushedOnce(s, call) && s.pushed <= s'.pushed && s.pushedBy <= s'.pushedBy && |s'.pushed| == |s'.pushedBy|
    ensures PushedOnce(s', call)
  {
    var j: nat :| j < |s.pushed| && PushedAt(s, call, j);
    assert PushedAt(s', call, j);
  }

  lemma LackedGrows(c: Config, s: State, s': State, call: Call, pushes: nat, pops: nat)
    requires LackedRoom(c, s, call, pushes, pops) && s.pushed <= s'.pushed
    ensures LackedRoom(c, s', call, pushes, pops)
  {
    assert s'.pushed[pops..pushes] == s.pushed[pops..pushes];
  }

  /** A thread that stays put, in a step that pushes nothing. */
  lemma CallKept(c: Config, s: State, s': State, me: Producer)
    requires CallOf(c, s, me) && s'.pushed == s.pushed && s'.pushedBy == s.pushedBy
    requires s'.nextCall >= s.nextCall && me.call.id !in s'.results
    ensures CallOf(c, s', me)
  {
    if Done(me) { PushedGrows(s, s', me.call); }
    if Denied(me) { LackedGrows(c, s, s', me.call, me.pushes, me.pops); }
  }

  lemma EndedKept(c: Config, s: State, s': State, id: nat, o: Outcome)
    requires Ended(c, s, id, o) && s'.pushed == s.pushed && s'.pushedBy == s.pushedBy
    requires s'.nextCall >= s.nextCall && s'.now >= s.now
    ensures Ended(c, s', id, o)
  {
    match o
    case Appended(call) => PushedGrows(s, s', call);
    case Refused(call, pushes, pops, _) => LackedGrows(c, s, s', call, pushes, pops);
  }

  /** A step that pushes nothing, and starts and ends no call. */
  lemma CallsFrame(c: Config, s: State, s': State)
    requires Calls(c, s) && |s'.ps| == |s.ps|
    requires s'.pushed == s.pushed && s'.pushedBy == s.pushedBy && s'.results == s.results
    requires s'.nextCall == s.nextCall && s'.now >= s.now
    requires forall q :: 0 <= q < |s.ps| ==>
      s'.ps[q].call == s.ps[q].call && (s'.ps[q].pc == Idle <==> s.ps[q].pc == Idle)
    requires forall q :: 0 <= q < |s.ps| && s.ps[q].pc != Idle ==> CallOf(c, s, s'.ps[q])
    ensures Calls(c, s')
  {
    forall q | 0 <= q < |s.ps| && s'.ps[q].pc != Idle ensures CallOf(c, s', s'.ps[q]) {
      CallKept(c, s, s', s'.ps[q]);
    }
    forall id | id in s'.results ensures Ended(c, s', id, s'.results[id]) {
      EndedKept(c, s, s', id, s.results[id]);
    }
  }

  /** A call returns. */
  lemma CallEnds(c: Config, s: State, s': State, p: nat, o: Outcome)
    requires Calls(c, s) && p < |s.ps| == |s'.ps| && s.ps[p].pc != Idle
    requires s'.pushed == s.pushed && s'.pushedBy == s.pushedBy && s'.nextCall == s.nextCall && s'.now == s.now
    requires s'.ps[p].pc == Idle && s'.results == s.results[s.ps[p].call.id := o]
    requires forall q :: 0 <= q < |s.ps| && q != p ==>
      s'.ps[q].call == s.ps[q].call && (s'.ps[q].pc == Idle <==> s.ps[q].pc == Idle)
    requires forall q :: 0 <= q < |s.ps| && q != p && s.ps[q].pc != Idle ==> CallOf(c, s, s'.ps[q])
    requires Ended(c, s, s.ps[p].call.id, o)
    ensures Calls(c, s')
  {
    var id := s.ps[p].call.id;
    forall q | 0 <= q < |s.ps| && s'.ps[q].pc != Idle ensures CallOf(c, s', s'.ps[q]) {
      assert s.ps[q].call.id != id;
      CallKept(c, s, s', s'.ps[q]);
    }
    forall x | x in s'.results ensures Ended(c, s', x, s'.results[x]) {
      EndedKept(c, s, s', x, s'.results[x]);
    }
  }

  /** The head store: the one moment a record enters the history. */
  lemma CallPushes(c: Config, s: State, p: nat, s': State)
    requires Calls(c, s) && p < |s.ps| && s.ps[p].pc == Copy && s.ps[p].i >= Need(s.ps[p])
    requires 0 < c.cap == |s.data| && PushLockedStep(c, s, p) == Some(s')
    ensures Calls(c, s')
  {
    var me := s.ps[p];
    assert CallOf(c, s, me);
    assert PushedAt(s', me.call, |s.pushed|);
    forall q | 0 <= q < |s.ps| && s'.ps[q].pc != Idle ensures CallOf(c, s', s'.ps[q]) {
      if q != p {
        assert CallOf(c, s, s.ps[q]);
        if Done(s.ps[q]) { PushedGrows(s, s', s.ps[q].call); }
        if Denied(s.ps[q]) { LackedGrows(c, s, s', s.ps[q].call, s.ps[q].pushes, s.ps[q].pops); }
        if s.ps[q].pc.Check? {
          assert s'.pushed[s.ps[q].pops..s.ps[q].pushes] == s.pushed[s.ps[q].pops..s.ps[q].pushes];
        }
      }
    }
    forall id | id in s'.results ensures Ended(c, s', id, s'.results[id]) {
      match s.results[id]
      case Appended(call) => PushedGrows(s, s', call);
      case Refused(call, pushes, pops, _) => LackedGrows(c, s, s', call, pushes, pops);
    }
  }

  /** The load of `tail` is where a room check takes effect: what it sees is the
      difference of the cursors at that very moment. */
  lemma RoomSeen(c: Config, s: State, me: Producer, me': Producer)
    requires CallOf(c, s, me) && me.pc == LoadTail && me.h == s.head && |s.popped| <= |s.pushed|
    requires s.head - s.tail == |EncAll(Queue(s))|
    requires me' == me.(t := s.tail, pushes := |s.pushed|, pops := |s.popped|, pc := Check)
    ensures CallOf(c, s, me')
  {
    assert s.pushed[|s.popped|..|s.pushed|] == Queue(s);
  }

  /** A record larger than the whole region lacks room whatever the cursors are. */
  lemma Oversized(c: Config, s: State, me: Producer, me': Producer)
    requires CallOf(c, s, me) && me.pc == LoadHead && Need(me) > c.cap && |s.popped| <= |s.pushed|
    requires me' == NoRoom(c, me.(pushes := |s.pushed|, pops := |s.popped|))
    ensures CallOf(c, s, me')
  {}

  /** Before its head store a thread keeps its own account, whatever it loads. */
  lemma PushAccount(c: Config, s: State, p: nat, s': State)
    requires p < |s.ps| && CallOf(c, s, s.ps[p]) && |s.popped| <= |s.pushed|
    requires s.head - s.tail == |EncAll(Queue(s))|
    requires s.ps[p].pc.LoadTail? ==> s.ps[p].h == s.head
    requires 0 < c.cap == |s.data| && PushLockedStep(c, s, p) == Some(s')
    requires s.ps[p].pc.Copy? ==> s.ps[p].i < Need(s.ps[p])
    ensures CallOf(c, s, s'.ps[p])
  {
    if s.ps[p].pc == LoadTail { RoomSeen(c, s, s.ps[p], s'.ps[p]); }
    else if s.ps[p].pc == LoadHead && Need(s.ps[p]) > c.cap { Oversized(c, s, s.ps[p], s'.ps[p]); }
    else { LocalStep(c, s, s.ps[p], s'.ps[p]); }
  }

  /** The steps whose account needs nothing of the ring. */
  lemma LocalStep(c: Config, s: State, me: Producer, me': Producer)
    requires CallOf(c, s, me)
    requires
      || (me.pc.EarlySeen? && me' == me.(seen := me'.seen, pc := LoadHead))
      || (me.pc.LoadHead? && me' == me.(h := me'.h, pc := LoadTail))
      || (me.pc.Check? && c.cap - (me.h - me.t) < Need(me) && me' == NoRoom(c, me))
      || (me.pc.Check? && me' == me.(i := 0, pc := Copy))
      || (me.pc.Copy? && me' == me.(i := me.i + 1))
      || (me.pc.LateSeen? && me' == me.(seen := me'.seen, pc := Unlock))
    ensures CallOf(c, s, me')
  {}

  lemma PushLockedCalls(c: Config, s: State, p: nat, s': State)
    requires Calls(c, s) && p < |s.ps| && 0 < c.cap == |s.data| && |s.popped| <= |s.pushed|
    requires s.head - s.tail == |EncAll(Queue(s))| && Filling(c, s, p)
    requires PushLockedStep(c, s, p) == Some(s')
    ensures Calls(c, s')
  {
    hide Idx, Enc, EncAll, LackedRoom, PushedOnce;
    if s.ps[p].pc == Copy && s.ps[p].i >= Need(s.ps[p]) {
      CallPushes(c, s, p, s');
    } else {
      PushAccount(c, s, p, s');
      CallsFrame(c, s, s');
    }
  }

  lemma AcquireCalls(c: Config, s: State, p: nat, s': State)
    requires Calls(c, s) && p < |s.ps| && AcquireStep(c, s, p) == Some(s')
    ensures Calls(c, s')
  {
    hide EncAll, PushedOnce, LackedRoom;
    assert CallOf(c, s, s.ps[p]);
    CallsFrame(c, s, s');
  }

  lemma ReleaseMine(c: Config, s: State, me: Producer, me': Producer)
    requires CallOf(c, s, me) && (me.pc.Unlock? || me.pc.UnlockWake?) && me' == me.(pc := me'.pc)
    requires me'.pc.UnlockWake? || (me'.pc.BumpData? && me.ok) || (me'.pc.Deadline? && !me.ok && me.call.blocking)
    ensures CallOf(c, s, me')
  {}

  lemma ReleaseCalls(c: Config, s: State, p: nat, woken: Option<nat>, s': State)
    requires Calls(c, s) && p < |s.ps| && ReleaseStep(s, p, woken) == Some(s')
    ensures Calls(c, s')
  {
    var me := s.ps[p];
    assert CallOf(c, s, me);
    ReleaseShape(s, p, woken, s');
    forall q | 0 <= q < |s.ps| && q != p && s.ps[q].pc != Idle ensures CallOf(c, s, s'.ps[q]) {
      assert CallOf(c, s, s.ps[q]);
    }
    if s'.ps[p].pc == Idle {
      CallEnds(c, s, s', p, Refused(me.call, me.pushes, me.pops, s.now));
    } else {
      ReleaseMine(c, s, me, s'.ps[p]);
      CallsFrame(c, s, s');
    }
  }

  lemma WaitCalls(c: Config, s: State, p: nat, s': State)
    requires Calls(c, s) && p < |s.ps| && WaitStep(s, p) == Some(s')
    ensures Calls(c, s')
  {
    hide EncAll, PushedOnce, LackedRoom;
    var me := s.ps[p];
    assert CallOf(c, s, me);
    if s'.ps[p].pc == Idle {
      CallEnds(c, s, s', p, s'.results[me.call.id]);
    } else {
      CallsFrame(c, s, s');
    }
  }

  lemma StartCalls(c: Config, s: State, p: nat, st: Step, s': State)
    requires Calls(c, s) && st.Start? && st.p == p < |s.ps| && 0 < c.cap == |s.data| && Apply(c, s, st) == Some(s')
    ensures Calls(c, s')
  {
    forall q | 0 <= q < |s.ps| && s'.ps[q].pc != Idle ensures CallOf(c, s', s'.ps[q]) {
      if q != p { CallKept(c, s, s', s'.ps[q]); }
    }
    forall id | id in s'.results ensures Ended(c, s', id, s'.results[id]) {
      EndedKept(c, s, s', id, s.results[id]);
    }
  }

  lemma TimeoutCalls(c: Config, s: State, p: nat, s': State)
    requires Calls(c, s) && 0 < c.cap == |s.data| && Apply(c, s, Timeout(p)) == Some(s')
    ensures Calls(c, s')
  {
    hide EncAll, PushedOnce, LackedRoom, ProdStep, ConsStep;
    assert CallOf(c, s, s.ps[p]);
    CallsFrame(c, s, s');
  }

  lemma ConsCalls(c: Config, s: State, s': State)
    requires Calls(c, s) && 0 < c.cap == |s.data| && ConsStep(c, s) == Some(s')
    ensures Calls(c, s')
  {
    hide Idx, EncAll, FromLe, PushedOnce, LackedRoom;
    forall q | 0 <= q < |s.ps| && s.ps[q].pc != Idle ensures CallOf(c, s, s'.ps[q]) {
      assert CallOf(c, s, s.ps[q]);
    }
    CallsFrame(c, s, s');
  }

  lemma StepCalls(c: Config, s: State, st: Step, s': State)
    requires Calls(c, s) && Bytes(c, s) && Apply(c, s, st) == Some(s')
    ensures Calls(c, s')
  {
    hide ProdStep, PushLockedStep, AcquireStep, ReleaseStep, WaitStep, ConsStep;
    match st
    case Start(p, _, _, _) => StartCalls(c, s, p, st, s');
    case Prod(p, woken) =>
      ProdCases(c, s, p, woken, s');
      if PushLockedStep(c, s, p).Some? {
        LayoutEmpty(s.data, s.tail, s.head, Queue(s));
        assert Filling(c, s, p);
        PushLockedCalls(c, s, p, s');
      }
      else if AcquireStep(c, s, p).Some? { AcquireCalls(c, s, p, s'); }
      else if ReleaseStep(s, p, woken).Some? { ReleaseCalls(c, s, p, woken, s'); }
      else { WaitCalls(c, s, p, s'); }
    case Timeout(p) => TimeoutCalls(c, s, p, s');
    case Cons => ConsCalls(c, s, s');
    case _ => CallsFrame(c, s, s');
  }
}
