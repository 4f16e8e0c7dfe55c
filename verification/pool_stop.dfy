/** The pool after `running` is cleared: who still sleeps, and when everything that was
    submitted can still be answered and every worker leave. */
module PoolStop {
  import opened Records
  import opened Tallies
  import opened PoolMachine
  import opened PoolTheorems
  import opened PoolOvercommit

  /** The state some steps lead to, if they can be taken. */
  function Follow(max: nat, s: State, steps: seq<Step>): Option<State>
    decreases |steps|
  {
    if steps == [] then Some(s)
    else
      match Apply(max, s, steps[0])
      case None => None
      case Some(s') => Follow(max, s', steps[1..])
  }

  // ---- nobody goes to sleep any more ------------------------------------

  /** Not asleep, nor on the way there. */
  predicate Up(x: Worker) {
    !x.Counting? && !x.Incrementing? && !x.Settling? && !x.Asleep?
  }

  lemma StaysUpOneStep(max: nat, s: State, st: Step, s': State, i: nat)
    requires !s.running && i < |s.ws| && Up(s.ws[i]) && Apply(max, s, st) == Some(s')
    ensures !s'.running && i < |s'.ws| && Up(s'.ws[i])
  {}

  /** A worker that is up once `running` has been cleared never falls asleep again. */
  lemma {:induction false} NeverSleepsAgain(
    max: nat, submitters: nat, steps: seq<Step>, states: seq<State>, i: nat, j: nat, w: nat)
    requires Behaviour(max, submitters, steps, states) && i <= j <= |steps|
    requires !states[i].running && w < |states[i].ws| && Up(states[i].ws[w])
    ensures !states[j].running && w < |states[j].ws| && Up(states[j].ws[w]) && states[j].ws[w] != Asleep
    decreases j
  {
    hide Apply;
    if i < j {
      NeverSleepsAgain(max, submitters, steps, states, i, j - 1, w);
      StaysUpOneStep(max, states[j - 1], steps[j - 1], states[j], w);
    }
  }

  // ---- what can still be answered ---------------------------------------

  /** A submitter in flight that will queue a job and see to a worker for it, if there is
      none, or has a worker to spawn. One that has the counts, and finds them at the bound,
      will do neither. */
  predicate Helps(max: nat, workers: nat, x: Submitter) {
    x.Offering? || x.Pushing? || x.Deciding? || x.Spawning? || (x.Decision? && workers < max)
  }

  predicate SomeStay(ws: seq<Worker>) {
    exists w :: 0 <= w < |ws| && !Leaves(ws[w])
  }

  predicate SomeHelp(max: nat, s: State) {
    exists u :: 0 <= u < |s.subs| && Helps(max, s.workers, s.subs[u])
  }

  /** If a job is queued, a worker has not yet turned to leave, or a submitter helps. */
  predicate CanDrain(max: nat, s: State) {
    s.queue == [] || SomeStay(s.ws) || SomeHelp(max, s)
  }

  /** Every submitter has returned and every worker has gone, off the counts, and every
      job ever submitted is answered. */
  ghost predicate Drained(s: State) {
    && (forall u :: 0 <= u < |s.subs| ==> s.subs[u] == Resting)
    && (forall w :: 0 <= w < |s.ws| ==> s.ws[w] == Gone)
    && s.queue == [] && s.workers == 0 && s.idle == 0
    && s.answered == multiset(s.pushed)
  }

  /** Nobody submits anything new. */
  predicate Quiet(st: Step) { !st.Submit? }

  /** And sleepers wake only when all are notified; or each only as its wait times out. */
  predicate Wakes(st: Step, byTimeout: bool) {
    st.SubStep? || st.WorkStep? || if byTimeout then st.Timeout? else st.NotifyAll?
  }

  // ---- every step nearer ------------------------------------------------

  function WorkerRank(x: Worker): nat {
    match x
    case Gone => 0 case Last => 1 case Leaving => 2 case Looking => 3 case Fetching => 4 case Serving(_) => 5
    case Decrementing => 4 case Returning => 5 case Woken => 6 case Asleep => 7
    case Settling => 8 case Incrementing => 9 case Counting => 10
  }

  function SubRank(x: Submitter): nat {
    match x
    case Resting => 0 case Notifying => 1 case Spawning => 6 case Decision => 7 case Deciding => 8
    case Pushing(_) => 12 case Offering(_) => 13
  }

  function Rank(s: State): nat {
    Sum(s.ws, WorkerRank) + Sum(s.subs, SubRank) + 3 * |s.queue|
  }

  lemma WorkerShape(s: State, i: nat, s': State)
    requires !s.running && i < |s.ws| && WorkerStep(s, i) == Some(s')
    ensures !s'.running && s'.subs == s.subs && |s'.ws| == |s.ws| && s'.ws == s.ws[i := s'.ws[i]]
    ensures WorkerRank(s'.ws[i]) + 3 * |s'.queue| < WorkerRank(s.ws[i]) + 3 * |s.queue|
  {}

  lemma WorkerNearer(max: nat, s: State, i: nat, s': State)
    requires !s.running && i < |s.ws| && WorkerStep(s, i) == Some(s')
    ensures !s'.running && Rank(s') < Rank(s)
  {
    WorkerShape(s, i, s');
    hide WorkerStep, Sum, WorkerRank;
    SumSet(s.ws, i, s'.ws[i], WorkerRank);
  }

  lemma SubmitterNearer(max: nat, s: State, i: nat, woken: Option<nat>, s': State)
    requires !s.running && i < |s.subs| && SubmitStep(max, s, i, woken) == Some(s')
    ensures !s'.running && Rank(s') < Rank(s)
  {
    SumSet(s.subs, i, s'.subs[i], SubRank);
    if s.subs[i].Spawning? { SumPush(s.ws, Fetching, WorkerRank); }
    if s.subs[i].Notifying? && woken.Some? { SumSet(s.ws, woken.value, Woken, WorkerRank); }
  }

  lemma {:induction false} WakeAllNearer(ws: seq<Worker>)
    ensures Sum(WakeAll(ws), WorkerRank) <= Sum(ws, WorkerRank)
    ensures SomeAsleep(ws) ==> Sum(WakeAll(ws), WorkerRank) < Sum(ws, WorkerRank)
  {
    if ws != [] {
      WakeAllNearer(ws[1..]);
      assert WakeAll(ws)[1..] == WakeAll(ws[1..]);
      if SomeAsleep(ws) && ws[0] != Asleep {
        var i :| 0 <= i < |ws| && ws[i] == Asleep;
        assert ws[1..][i - 1] == Asleep;
      }
    }
  }

  // ---- and still on the way ---------------------------------------------

  lemma WorkerStillDrains(max: nat, s: State, i: nat, s': State)
    requires CanDrain(max, s) && !s.running && i < |s.ws| && WorkerStep(s, i) == Some(s')
    ensures CanDrain(max, s')
  {
    if s.queue != [] {
      if SomeStay(s.ws) {
        var w :| 0 <= w < |s.ws| && !Leaves(s.ws[w]);
        assert !Leaves(s'.ws[w]);
      } else {
        var u :| 0 <= u < |s.subs| && Helps(max, s.workers, s.subs[u]);
        assert Helps(max, s'.workers, s'.subs[u]);
      }
    }
  }

  lemma SubmitterStillDrains(max: nat, s: State, i: nat, woken: Option<nat>, s': State)
    requires Inv(max, s) && CanDrain(max, s) && i < |s.subs| && SubmitStep(max, s, i, woken) == Some(s')
    requires s.subs[i].Deciding? ==> SomeStay(s.ws) || s.workers < max
    ensures CanDrain(max, s')
  {
    SubShape(max, s, i, woken, s');
    hide SubmitStep;
    if SomeStay(s.ws) {
      var w :| 0 <= w < |s.ws| && !Leaves(s.ws[w]);
      assert !Leaves(s'.ws[w]);
    } else if Helps(max, s.workers, s.subs[i]) {
      if s.idle > 0 { IdleStays(max, s); }
      if s.subs[i].Spawning? { assert !Leaves(s'.ws[|s.ws|]); } else { assert Helps(max, s'.workers, s'.subs[i]); }
    } else if SomeHelp(max, s) {
      var u :| 0 <= u < |s.subs| && Helps(max, s.workers, s.subs[u]);
      assert Helps(max, s'.workers, s'.subs[u]);
    }
  }

  /** Whoever is counted idle has not turned to leave. */
  lemma IdleStays(max: nat, s: State)
    requires Inv(max, s) && s.idle > 0
    ensures SomeStay(s.ws)
  {
    TallySome(s.ws, Idle);
    var w :| 0 <= w < |s.ws| && Idle(s.ws[w]);
    assert !Leaves(s.ws[w]);
  }

  lemma SubShape(max: nat, s: State, i: nat, woken: Option<nat>, s': State)
    requires i < |s.subs| && SubmitStep(max, s, i, woken) == Some(s')
    ensures s'.subs == s.subs[i := s'.subs[i]] && |s'.subs| == |s.subs|
    ensures |s'.ws| == |s.ws| + if s.subs[i].Spawning? then 1 else 0
    ensures forall w :: 0 <= w < |s.ws| ==> s'.ws[w] == s.ws[w] || (s.ws[w] == Asleep && s'.ws[w] == Woken)
    ensures s.subs[i].Spawning? ==> s'.ws[|s.ws|] == Fetching
    ensures s'.queue == s.queue || s.subs[i].Pushing?
    ensures match s.subs[i]
      case Offering(_) => s'.subs[i].Pushing? && s'.workers == s.workers
      case Pushing(_) => s'.subs[i].Deciding? && s'.workers == s.workers
      case Deciding => s'.subs[i].Decision? && s'.workers == s.workers
      case Decision =>
        if s.idle == 0 && s.workers < max then s'.subs[i].Spawning?
        else s'.subs[i].Notifying? && s'.workers == s.workers
      case _ => s'.workers == s.workers
  {}

  // ---- there is always a next step --------------------------------------

  predicate Moves(x: Submitter) { x.Pushing? || x.Decision? || x.Spawning? || x.Notifying? }

  predicate Works(x: Worker) { !x.Fetching? && !x.Woken? && !x.Asleep? && !x.Gone? }

  /** A submitter that waits for no lock goes on. */
  lemma SubmitterGoesOn(max: nat, s: State, i: nat) returns (st: Step, s': State)
    requires i < |s.subs| && Moves(s.subs[i])
    ensures st.SubStep? && st.i == i && Apply(max, s, st) == Some(s')
  {
    var woken := None;
    if w :| 0 <= w < |s.ws| && s.ws[w] == Asleep { woken := Some(w); }
    st := SubStep(i, woken);
    s' := Apply(max, s, st).value;
  }

  /** If none of those is left, a worker that has a lock, or needs only the counts, does. */
  lemma WorkerGoesOn(max: nat, s: State, i: nat) returns (st: Step, s': State)
    requires Inv(max, s) && !s.running && i < |s.ws| && Works(s.ws[i])
    requires forall u :: 0 <= u < |s.subs| ==> !Moves(s.subs[u])
    ensures st.WorkStep? && st.i < |s.ws| && Apply(max, s, st) == Some(s')
  {
    var j := if s.countsLock.Some? && s.countsLock.value.Work? then s.countsLock.value.i else i;
    CountsFree(s);
    if s.ws[j].Decrementing? { CountedIdle(max, s, j); }
    if s.ws[j].Last? { CountedIn(max, s, j); }
    st := WorkStep(j);
    s' := Apply(max, s, st).value;
  }

  lemma CountsFree(s: State)
    requires Locks(s) && forall u :: 0 <= u < |s.subs| ==> !Moves(s.subs[u])
    ensures s.countsLock.Some? ==>
      && s.countsLock.value.Work? && s.countsLock.value.i < |s.ws|
      && CountsWork(s.ws[s.countsLock.value.i])
    ensures s.countsLock.None? ==> forall w :: 0 <= w < |s.ws| ==> !CountsWork(s.ws[w])
    ensures s.queueLock.Some? ==>
      && s.queueLock.value.Work? && s.queueLock.value.i < |s.ws|
      && QueueWork(s.ws[s.queueLock.value.i])
  {}

  lemma CountedIdle(max: nat, s: State, i: nat)
    requires Inv(max, s) && i < |s.ws| && Idle(s.ws[i])
    ensures s.idle > 0
  {
    TallySome(s.ws, Idle);
  }

  lemma CountedIn(max: nat, s: State, i: nat)
    requires Inv(max, s) && i < |s.ws| && Live(s.ws[i])
    ensures s.workers > 0
  {
    TallySome(s.ws, Live);
  }

  /** With nobody at a lock, whoever wants one can have it. */
  lemma Unlocked(s: State)
    requires Locks(s)
    requires forall u :: 0 <= u < |s.subs| ==> !Moves(s.subs[u])
    requires forall w :: 0 <= w < |s.ws| ==> !Works(s.ws[w])
    ensures s.queueLock == None && s.countsLock == None
  {
    CountsFree(s);
  }

  /** A submitter that wants the counts finds a worker that stays, or room for one. */
  lemma RoomForOne(max: nat, s: State)
    requires 0 < max && Inv(max, s)
    requires forall u :: 0 <= u < |s.subs| ==> !Moves(s.subs[u])
    requires forall w :: 0 <= w < |s.ws| ==> !Works(s.ws[w])
    ensures SomeStay(s.ws) || s.workers < max
  {
    TallySome(s.ws, Live);
    TallySome(s.subs, Owed);
    if !SomeStay(s.ws) {
      forall w | 0 <= w < |s.ws| ensures !Live(s.ws[w]) { assert Leaves(s.ws[w]) && !Works(s.ws[w]); }
      forall u | 0 <= u < |s.subs| ensures !Owed(s.subs[u]) { assert !Moves(s.subs[u]); }
    }
  }

  predicate AtRest(s: State) {
    && (forall u :: 0 <= u < |s.subs| ==> s.subs[u] == Resting)
    && (forall w :: 0 <= w < |s.ws| ==> s.ws[w] == Gone)
  }

  lemma GoesOn(max: nat, s: State, byTimeout: bool) returns (st: Step, s': State)
    requires 0 < max && Inv(max, s) && !s.running && CanDrain(max, s) && !AtRest(s)
    ensures Wakes(st, byTimeout) && Apply(max, s, st) == Some(s')
    ensures !s'.running && Rank(s') < Rank(s) && CanDrain(max, s')
  {
    hide Inv, CanDrain, Rank, WorkerStep, SubmitStep;
    if u :| 0 <= u < |s.subs| && Moves(s.subs[u]) {
      st, s' := SubmitterGoesOn(max, s, u);
      SubmitterNearer(max, s, st.i, st.woken, s');
      SubmitterStillDrains(max, s, st.i, st.woken, s');
    } else if w :| 0 <= w < |s.ws| && Works(s.ws[w]) {
      st, s' := WorkerGoesOn(max, s, w);
      WorkerNearer(max, s, st.i, s');
      WorkerStillDrains(max, s, st.i, s');
    } else {
      st, s' := WaitGoesOn(max, s, byTimeout);
    }
  }

  /** With nobody at a lock: a submitter or a worker takes one, or the sleepers are woken. */
  lemma WaitGoesOn(max: nat, s: State, byTimeout: bool) returns (st: Step, s': State)
    requires 0 < max && Inv(max, s) && !s.running && CanDrain(max, s) && !AtRest(s)
    requires forall u :: 0 <= u < |s.subs| ==> !Moves(s.subs[u])
    requires forall w :: 0 <= w < |s.ws| ==> !Works(s.ws[w])
    ensures Wakes(st, byTimeout) && Apply(max, s, st) == Some(s')
    ensures !s'.running && Rank(s') < Rank(s) && CanDrain(max, s')
  {
    hide Inv, CanDrain, Rank, WorkerStep, SubmitStep, Works, Moves, SomeStay, AtRest;
    InvLocks(max, s);
    Unlocked(s);
    RoomForOne(max, s);
    if u :| 0 <= u < |s.subs| && s.subs[u] != Resting {
      st, s' := Enters(max, s, u);
      SubmitterNearer(max, s, u, None, s');
      SubmitterStillDrains(max, s, u, None, s');
    } else if w :| 0 <= w < |s.ws| && (s.ws[w].Fetching? || s.ws[w].Woken?) {
      st, s' := Reenters(max, s, w);
      WorkerNearer(max, s, w, s');
      WorkerStillDrains(max, s, w, s');
    } else {
      st, s' := SleepersGoOn(max, s, byTimeout);
    }
  }

  lemma SleepersGoOn(max: nat, s: State, byTimeout: bool) returns (st: Step, s': State)
    requires !s.running && !AtRest(s)
    requires forall u :: 0 <= u < |s.subs| ==> s.subs[u] == Resting
    requires forall w :: 0 <= w < |s.ws| ==> !Works(s.ws[w]) && !s.ws[w].Fetching? && !s.ws[w].Woken?
    ensures Wakes(st, byTimeout) && Apply(max, s, st) == Some(s')
    ensures !s'.running && Rank(s') < Rank(s) && CanDrain(max, s')
  {
    var w := Sleeper(s);
    hide CanDrain, Rank, SubmitStep, WorkerStep, Works, AtRest;
    if byTimeout {
      st, s' := Timeout(w), s.(ws := s.ws[w := Woken]);
      OneWakesNearer(s, w, s');
    } else {
      st, s' := NotifyAll, s.(ws := WakeAll(s.ws));
      AllWakeNearer(s, s');
    }
    StaysCanDrain(max, s', w);
  }

  lemma Sleeper(s: State) returns (w: nat)
    requires !AtRest(s)
    requires forall u :: 0 <= u < |s.subs| ==> s.subs[u] == Resting
    requires forall w :: 0 <= w < |s.ws| ==> !Works(s.ws[w]) && !s.ws[w].Fetching? && !s.ws[w].Woken?
    ensures w < |s.ws| && s.ws[w] == Asleep && SomeAsleep(s.ws)
  {
    w :| 0 <= w < |s.ws| && s.ws[w] != Gone;
  }

  lemma OneWakesNearer(s: State, w: nat, s': State)
    requires w < |s.ws| && s.ws[w] == Asleep && s' == s.(ws := s.ws[w := Woken])
    ensures Rank(s') < Rank(s)
  {
    SumSet(s.ws, w, Woken, WorkerRank);
  }

  lemma InvLocks(max: nat, s: State)
    requires Inv(max, s)
    ensures Locks(s)
  {}

  lemma Enters(max: nat, s: State, u: nat) returns (st: Step, s': State)
    requires u < |s.subs| && s.subs[u] != Resting && !Moves(s.subs[u]) && s.queueLock == None && s.countsLock == None
    ensures st == SubStep(u, None) && Apply(max, s, st) == Some(s') && SubmitStep(max, s, u, None) == Some(s')
  {
    st := SubStep(u, None);
    s' := Apply(max, s, st).value;
  }

  lemma Reenters(max: nat, s: State, w: nat) returns (st: Step, s': State)
    requires w < |s.ws| && (s.ws[w].Fetching? || s.ws[w].Woken?) && s.queueLock == None
    ensures st == WorkStep(w) && Apply(max, s, st) == Some(s') && WorkerStep(s, w) == Some(s')
  {
    st := WorkStep(w);
    s' := Apply(max, s, st).value;
  }

  lemma AllWakeNearer(s: State, s': State)
    requires SomeAsleep(s.ws) && s' == s.(ws := WakeAll(s.ws))
    ensures Rank(s') < Rank(s)
  {
    WakeAllNearer(s.ws);
  }

  lemma StaysCanDrain(max: nat, s: State, w: nat)
    requires w < |s.ws| && !Leaves(s.ws[w])
    ensures CanDrain(max, s)
  {}

  lemma RestIsDrained(max: nat, s: State)
    requires Inv(max, s) && CanDrain(max, s) && AtRest(s)
    ensures Drained(s)
  {
    TallySome(s.ws, Live);
    TallySome(s.ws, Idle);
    TallySome(s.subs, Owed);
    NothingHeld(s.ws);
    assert s.pushed == s.taken;
  }

  lemma {:induction false} NothingHeld(ws: seq<Worker>)
    requires forall w :: 0 <= w < |ws| ==> ws[w] == Gone
    ensures Held(ws, InService) == multiset{}
  {
    if ws != [] { NothingHeld(ws[1..]); }
  }

  /** Some schedule in which no wait times out drains the pool, and so does one in which
      nobody is notified but by a submit. */
  lemma {:induction false} Drains(max: nat, s: State, byTimeout: bool) returns (steps: seq<Step>)
    requires 0 < max && Inv(max, s) && !s.running && CanDrain(max, s)
    ensures forall st :: st in steps ==> Wakes(st, byTimeout)
    ensures Follow(max, s, steps).Some? && Drained(Follow(max, s, steps).value)
    decreases Rank(s)
  {
    hide Inv, CanDrain, Rank, Apply, Drained, AtRest;
    if AtRest(s) {
      steps := [];
      RestIsDrained(max, s);
    } else {
      var st, s' := GoesOn(max, s, byTimeout);
      StepInv(max, s, st, s');
      var rest := Drains(max, s', byTimeout);
      steps := [st] + rest;
      assert steps[1..] == rest;
    }
  }

  // ---- and otherwise never ----------------------------------------------

  lemma StuckStep(max: nat, s: State, st: Step, s': State)
    requires Inv(max, s) && !s.running && !CanDrain(max, s) && Quiet(st) && Apply(max, s, st) == Some(s')
    ensures !s'.running && !CanDrain(max, s')
  {
    match st
    case SubStep(i, woken) =>
      assert !Helps(max, s.workers, s.subs[i]) && (s.subs[i].Decision? || s.subs[i].Notifying?);
      SubShape(max, s, i, woken, s');
      hide SubmitStep;
      StillStuck(max, s, s');
    case WorkStep(i) =>
      assert Leaves(s.ws[i]);
      assert CountsWork(s.ws[i]) <==> s.countsLock == Some(Work(i));
      forall u | 0 <= u < |s.subs| ensures !Helps(max, s'.workers, s'.subs[u]) {
        assert !Helps(max, s.workers, s.subs[u]);
        assert CountsSub(s.subs[u]) <==> s.countsLock == Some(Sub(u));
      }
      forall w | 0 <= w < |s'.ws| ensures Leaves(s'.ws[w]) { assert Leaves(s.ws[w]); }
    case Timeout(i) =>
    case Stop =>
    case NotifyAll =>
      forall w | 0 <= w < |s'.ws| ensures Leaves(s'.ws[w]) { assert Leaves(s.ws[w]); }
  }

  lemma StillStuck(max: nat, s: State, s': State)
    requires !CanDrain(max, s) && s'.queue == s.queue && |s'.ws| == |s.ws| && |s'.subs| == |s.subs|
    requires s'.workers == s.workers
    requires forall w :: 0 <= w < |s.ws| ==> s'.ws[w] == s.ws[w] || s.ws[w] == Asleep
    requires forall u :: 0 <= u < |s.subs| ==> s'.subs[u] == s.subs[u] || s'.subs[u] == Notifying || s'.subs[u] == Resting
    ensures !CanDrain(max, s')
  {
    forall w | 0 <= w < |s'.ws| ensures Leaves(s'.ws[w]) { assert Leaves(s.ws[w]); }
    forall u | 0 <= u < |s'.subs| ensures !Helps(max, s'.workers, s'.subs[u]) {
      assert !Helps(max, s.workers, s.subs[u]);
    }
  }

  lemma {:induction false} StuckForGood(max: nat, s: State, steps: seq<Step>)
    requires 0 < max && Inv(max, s) && !s.running && !CanDrain(max, s)
    requires (forall st :: st in steps ==> Quiet(st)) && Follow(max, s, steps).Some?
    ensures Follow(max, s, steps).value.queue != []
    decreases |steps|
  {
    hide Inv, Apply;
    if steps != [] {
      var s' := Apply(max, s, steps[0]).value;
      assert steps[0] in steps;
      StuckStep(max, s, steps[0], s');
      StepInv(max, s, steps[0], s');
      StuckForGood(max, s', steps[1..]);
    }
  }

  ghost predicate DrainsBy(max: nat, s: State, steps: seq<Step>) {
    && (forall st :: st in steps ==> Quiet(st))
    && Follow(max, s, steps).Some? && Drained(Follow(max, s, steps).value)
  }

  /** Once `running` is cleared, in every behaviour: without a new submission, everything
      submitted can be answered and every worker can leave if and only if no job is queued,
      or a worker has not turned to leave, or a submitter in flight helps. */
  lemma DrainsExactlyWhenItCan(max: nat, submitters: nat, steps: seq<Step>, states: seq<State>, i: nat)
    requires 0 < max && Behaviour(max, submitters, steps, states) && i <= |steps| && !states[i].running
    ensures (exists more :: DrainsBy(max, states[i], more)) <==> CanDrain(max, states[i])
  {
    hide Apply, CanDrain;
    RunInv(max, submitters, steps, states, i);
    var s := states[i];
    if CanDrain(max, s) {
      var more := Drains(max, s, false);
      assert forall st :: st in more ==> Wakes(st, false) && Quiet(st);
      assert DrainsBy(max, s, more);
    } else if more :| DrainsBy(max, s, more) {
      StuckForGood(max, s, more);
    }
  }

  /** While it runs it always can: at the moment of stopping nothing is lost yet. */
  lemma RunningCanDrain(max: nat, submitters: nat, steps: seq<Step>, states: seq<State>, i: nat)
    requires 0 < max && Behaviour(max, submitters, steps, states) && i <= |steps| && states[i].running
    ensures CanDrain(max, states[i]) && exists more :: DrainsBy(max, states[i].(running := false), more)
  {
    hide Apply;
    RunInv(max, submitters, steps, states, i);
    var s := states[i];
    WhileRunning(max, s);
    StopInv(max, s);
    hide CanDrain, Inv;
    var s' := s.(running := false);
    SameCanDrain(max, s, s');
    var more := Drains(max, s', false);
    assert forall st :: st in more ==> Wakes(st, false) && Quiet(st);
    assert DrainsBy(max, s', more);
  }

  lemma SameCanDrain(max: nat, s: State, s': State)
    requires CanDrain(max, s) && s' == s.(running := false)
    ensures CanDrain(max, s')
  {}

  lemma StopInv(max: nat, s: State)
    requires 0 < max && Inv(max, s)
    ensures Inv(max, s.(running := false))
  {
    assert Apply(max, s, Stop) == Some(s.(running := false));
    StepInv(max, s, Stop, s.(running := false));
  }

  lemma WhileRunning(max: nat, s: State)
    requires 0 < max && Inv(max, s) && s.running
    ensures CanDrain(max, s)
  {
    TallySome(s.ws, Live);
    TallySome(s.subs, Owed);
    TallySome(s.subs, Undecided);
    hide Tally;
    if s.queue != [] {
      if s.workers == 0 {
        var u :| 0 <= u < |s.subs| && Undecided(s.subs[u]);
        assert Helps(max, s.workers, s.subs[u]);
      } else if u :| 0 <= u < |s.subs| && Owed(s.subs[u]) {
        assert Helps(max, s.workers, s.subs[u]);
      } else {
        var w :| 0 <= w < |s.ws| && Live(s.ws[w]);
        assert !Leaves(s.ws[w]);
      }
    }
  }

  /** Job 0 is answered; job 1 was offered just before the stop. */
  function Late(x: Submitter, w: Worker, pushed: bool): State {
    Pair(x, Some(w), 0, if pushed then 2 else 1, 1, true).(running := false)
  }

  /** It can come to that, at a bound of one worker: a worker that found nothing and has
      turned to leave is still counted, so the late submitter spawns none. */
  lemma LateJobIsStranded()
    ensures exists s :: Reached(1, s) && !s.running && s.queue != [] && s.workers > 0 && !CanDrain(1, s)
  {
    hide Reached;
    LateWorker();
    LateSubmitter();
    assert !CanDrain(1, Late(Resting, Leaving, true));
  }

  lemma LateWorker()
    ensures Reached(1, Late(Offering(1), Leaving, false))
  {
    hide Reached;
    Singles();
    ReachServed(1);
    var s := Pair(Resting, Some(Fetching), 0, 1, 1, true);
    var s1 := Pair(Offering(1), Some(Fetching), 0, 1, 1, true);
    TakeStep(1, s, Submit(0, 1), s1);
    TakeStep(1, s1, Stop, Late(Offering(1), Fetching, false));
    hide Apply;
    GoWork(1, Late(Offering(1), Fetching, false), Late(Offering(1), Looking, false));
    GoWork(1, Late(Offering(1), Looking, false), Late(Offering(1), Leaving, false));
  }

  lemma LateSubmitter()
    requires Reached(1, Late(Offering(1), Leaving, false))
    ensures Reached(1, Late(Resting, Leaving, true))
  {
    hide Reached;
    Singles();
    assert Jobs3(1) + [1] == Jobs3(2) && Waiting(1, 1) + [1] == Waiting(1, 2);
    GoSub(1, Late(Offering(1), Leaving, false), None, Late(Pushing(1), Leaving, false));
    GoSub(1, Late(Pushing(1), Leaving, false), None, Late(Deciding, Leaving, true));
    GoSub(1, Late(Deciding, Leaving, true), None, Late(Decision, Leaving, true));
    GoSub(1, Late(Decision, Leaving, true), None, Late(Notifying, Leaving, true));
    GoSub(1, Late(Notifying, Leaving, true), None, Late(Resting, Leaving, true));
  }
}
