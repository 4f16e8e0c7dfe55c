/** A queued job can wait for a busy worker although another worker could be spawned: when
    exactly a run of the pool comes to that, and a run that does. */
module PoolOvercommit {
  import opened Records
  import opened Tallies
  import opened PoolMachine
  import opened PoolTheorems

  /** Neither serving nor leaving. */
  predicate Available(x: Worker) { !x.Serving? && !Leaves(x) }

  /** Available, and not counted idle: on its way to the queue, or to being counted. */
  predicate Coming(x: Worker) { x.Fetching? || x.Looking? || x.Counting? || x.Incrementing? }

  /** About to spawn a worker, or yet to decide. */
  predicate Due(x: Submitter) { x.Deciding? || x.Decision? || x.Spawning? }

  /** More jobs are queued than there are workers available or about to be, although the
      bound would allow another worker. */
  ghost predicate Overcommitted(max: nat, s: State) {
    s.running && s.workers < max && |s.queue| > Tally(s.ws, Available) + Tally(s.subs, Due)
  }

  /** A submitter declines to spawn below the bound, while the queue, its own job included,
      is longer than the idle count it reads, the workers on their way there, and what the
      other submitters may yet spawn, taken together. */
  ghost predicate Misjudges(max: nat, s: State, st: Step) {
    && st.SubStep? && st.i < |s.subs| && s.subs[st.i].Decision?
    && s.running && s.idle > 0 && s.workers < max
    && |s.queue| > s.idle + Tally(s.ws, Coming) + Tally(s.subs, Due) - 1
  }

  lemma {:induction false} AvailableIsIdleOrComing(ws: seq<Worker>)
    ensures Tally(ws, Available) == Tally(ws, Idle) + Tally(ws, Coming)
  {
    if ws != [] { AvailableIsIdleOrComing(ws[1..]); }
  }

  /** With nobody else on the way the guard is just the queue against the idle count. */
  lemma GuardByIdleAlone(max: nat, s: State, st: Step)
    requires Inv(max, s) && st.SubStep? && st.i < |s.subs| && s.subs[st.i].Decision? && s.running
    requires forall w :: 0 <= w < |s.ws| ==> !Coming(s.ws[w])
    requires forall u :: 0 <= u < |s.subs| && u != st.i ==> !Due(s.subs[u])
    ensures Misjudges(max, s, st) <==> s.idle > 0 && s.workers < max && |s.queue| > s.idle
  {
    hide Inv;
    TallySome(s.ws, Coming);
    OnlyOneDue(s.subs, st.i);
  }

  lemma OnlyOneDue(xs: seq<Submitter>, i: nat)
    requires i < |xs| && Due(xs[i]) && forall j :: 0 <= j < |xs| && j != i ==> !Due(xs[j])
    ensures Tally(xs, Due) == 1
  {
    TallySet(xs, i, Resting, Due);
    TallySome(xs[i := Resting], Due);
  }

  /** In any case the queue is longer than the idle count. */
  lemma GuardImpliesIdleTooFew(max: nat, s: State, st: Step)
    requires Misjudges(max, s, st)
    ensures |s.queue| > s.idle
  {
    TallySome(s.subs, Due);
  }

  /** One worker asleep and one fetching, two jobs queued, one submitter deciding. */
  const JUST_ENOUGH := State([1, 2], None, 2, 1, Some(Sub(0)), true, [Decision], [Asleep, Fetching],
                             [0, 1, 2], [0], multiset{0})

  /** But that alone overcommits nothing: here the decision declines with two jobs queued
      and one worker idle, and a second worker is about to look at the queue. */
  lemma IdleTooFewIsNotEnough()
    ensures Inv(3, JUST_ENOUGH) && |JUST_ENOUGH.queue| > JUST_ENOUGH.idle > 0 && JUST_ENOUGH.workers < 3
    ensures !Misjudges(3, JUST_ENOUGH, SubStep(0, None))
    ensures var s' := Apply(3, JUST_ENOUGH, SubStep(0, None));
      s'.Some? && s'.value.subs == [Notifying] && !Overcommitted(3, s'.value)
  {
    JustEnoughKeepsInv();
    JustEnoughCounts();
    hide Inv, Tally, Held;
  }

  lemma JustEnoughKeepsInv()
    ensures Inv(3, JUST_ENOUGH)
  {
    var s := JUST_ENOUGH;
    JustEnoughCounts();
    HeldByTwo(Asleep, Fetching);
    assert s.pushed == s.taken + s.queue;
    assert multiset(s.taken) == multiset{0} + multiset{};
    hide Tally, Held;
  }

  lemma JustEnoughCounts()
    ensures forall q: Worker -> bool :: Tally(JUST_ENOUGH.ws, q) == One(Asleep, q) + One(Fetching, q)
    ensures forall q: Submitter -> bool :: Tally(JUST_ENOUGH.subs, q) == One(Decision, q)
    ensures [Decision][0 := Notifying] == [Notifying]
    ensures forall q: Submitter -> bool :: Tally([Notifying], q) == One(Notifying, q)
  {
    forall q: Worker -> bool ensures Tally(JUST_ENOUGH.ws, q) == One(Asleep, q) + One(Fetching, q) {
      Two(Asleep, Fetching, q);
    }
    forall q: Submitter -> bool
      ensures Tally(JUST_ENOUGH.subs, q) == One(Decision, q) && Tally([Notifying], q) == One(Notifying, q)
    {
      Alone(Decision, q);
      Alone(Notifying, q);
    }
    hide Tally;
  }

  lemma Alone<T>(x: T, q: T -> bool)
    ensures Tally([x], q) == One(x, q)
  {}

  lemma Two<T>(x: T, y: T, q: T -> bool)
    ensures Tally([x, y], q) == One(x, q) + One(y, q)
  {
    assert [x, y][1..] == [y];
    Alone(y, q);
  }

  lemma HeldByTwo(x: Worker, y: Worker)
    ensures Held([x, y], InService) == InService(x) + InService(y)
  {
    assert [x, y][1..] == [y] && [y][1..] == [];
    assert Held([y], InService) == InService(y) + Held([y][1..], InService);
  }

  // ---- how it arises ----------------------------------------------------

  lemma WorkAvailable(s: State, i: nat, s': State)
    requires i < |s.ws| && WorkerStep(s, i) == Some(s') && s.running && !Leaves(s.ws[i])
    ensures |s'.ws| == |s.ws| && s'.ws == s.ws[i := s'.ws[i]] && s'.subs == s.subs && s'.running
    ensures |s'.queue| + One(s.ws[i], Available) <= |s.queue| + One(s'.ws[i], Available)
    ensures s'.workers == s.workers
  {}

  lemma WorkerNeverOvercommits(max: nat, s: State, i: nat, s': State)
    requires Inv(max, s) && i < |s.ws| && WorkerStep(s, i) == Some(s') && !Overcommitted(max, s)
    ensures !Overcommitted(max, s')
  {
    if s'.running {
      assert s.running by { WorkKeepsRunning(s, i, s'); }
      assert !Leaves(s.ws[i]);
      WorkAvailable(s, i, s');
      hide WorkerStep, Inv, Tally, One;
      TallySet(s.ws, i, s'.ws[i], Available);
    }
  }

  lemma WorkKeepsRunning(s: State, i: nat, s': State)
    requires i < |s.ws| && WorkerStep(s, i) == Some(s')
    ensures s'.running == s.running
  {}

  /** What a submitter's step does to the balance; only a decision can upset it. */
  lemma DueDelta(max: nat, s: State, i: nat, woken: Option<nat>, s': State)
    requires i < |s.subs| && SubmitStep(max, s, i, woken) == Some(s')
    ensures |s'.subs| == |s.subs| && s'.subs == s.subs[i := s'.subs[i]] && s'.running == s.running
    ensures s.subs[i].Decision? && !(s.idle == 0 && s.workers < max) ==>
      s'.queue == s.queue && s'.workers == s.workers && s'.subs[i] == Notifying
    ensures !(s.subs[i].Decision? && !(s.idle == 0 && s.workers < max)) ==>
      && One(s'.subs[i], Due) + One(s.subs[i], Owed) == One(s.subs[i], Due) + One(s.subs[i], QueueSub)
      && |s'.queue| == |s.queue| + One(s.subs[i], QueueSub) && s'.workers >= s.workers
  {}

  lemma JoinedAvailable(ws: seq<Worker>, ws': seq<Worker>, x: Submitter, woken: Option<nat>)
    requires Joined(ws, ws', x, woken)
    ensures Tally(ws', Available) == Tally(ws, Available) + One(x, Owed)
  {
    hide Tally;
    if x.Spawning? { TallyPush(ws, Fetching, Available); }
    else if x.Notifying? && woken.Some? { TallySet(ws, woken.value, Woken, Available); }
  }

  /** A submitter's step overcommits the pool if and only if it is a misjudged decision. */
  lemma SubmitterOvercommits(max: nat, s: State, i: nat, woken: Option<nat>, s': State)
    requires Inv(max, s) && i < |s.subs| && SubmitStep(max, s, i, woken) == Some(s')
    ensures Misjudges(max, s, SubStep(i, woken)) ==> Overcommitted(max, s')
    ensures Overcommitted(max, s') && !Misjudges(max, s, SubStep(i, woken)) ==> Overcommitted(max, s)
  {
    SubDelta(max, s, i, woken, s');
    DueDelta(max, s, i, woken, s');
    JoinedAvailable(s.ws, s'.ws, s.subs[i], woken);
    AvailableIsIdleOrComing(s.ws);
    assert s.idle == Tally(s.ws, Idle);
    hide Inv, SubmitStep, Tally, Joined;
    TallySet(s.subs, i, s'.subs[i], Due);
  }

  lemma StepOvercommits(max: nat, s: State, st: Step, s': State)
    requires Inv(max, s) && Apply(max, s, st) == Some(s')
    ensures Misjudges(max, s, st) ==> Overcommitted(max, s')
    ensures Overcommitted(max, s') && !Misjudges(max, s, st) ==> Overcommitted(max, s)
  {
    hide Inv, SubmitStep, WorkerStep, Misjudges, Tally;
    match st
    case SubStep(i, woken) => SubmitterOvercommits(max, s, i, woken, s');
    case WorkStep(i) =>
      OnlyDecisionsMisjudge(max, s, st);
      if !Overcommitted(max, s) { WorkerNeverOvercommits(max, s, i, s'); }
    case Submit(i, job) =>
      OnlyDecisionsMisjudge(max, s, st);
      TallySet(s.subs, i, Offering(job), Due);
    case Timeout(i) =>
      OnlyDecisionsMisjudge(max, s, st);
      TallySet(s.ws, i, Woken, Available);
    case NotifyAll =>
      OnlyDecisionsMisjudge(max, s, st);
      AllStillAvailable(s.ws);
    case Stop => OnlyDecisionsMisjudge(max, s, st);
  }

  lemma OnlyDecisionsMisjudge(max: nat, s: State, st: Step)
    ensures Misjudges(max, s, st) ==> st.SubStep?
  {}

  lemma {:induction false} AllStillAvailable(ws: seq<Worker>)
    ensures Tally(WakeAll(ws), Available) == Tally(ws, Available)
  {
    if ws != [] {
      AllStillAvailable(ws[1..]);
      assert WakeAll(ws)[1..] == WakeAll(ws[1..]);
    }
  }

  lemma {:induction false} SoundJudgementUpTo(
    max: nat, submitters: nat, steps: seq<Step>, states: seq<State>, i: nat)
    requires 0 < max && Behaviour(max, submitters, steps, states) && i <= |steps|
    requires forall j :: 0 <= j < i ==> !Misjudges(max, states[j], steps[j])
    ensures !Overcommitted(max, states[i])
    decreases i
  {
    hide Apply, Misjudges;
    if i == 0 {
      assert states[0].queue == [];
    } else {
      hide Overcommitted;
      SoundJudgementUpTo(max, submitters, steps, states, i - 1);
      RunInv(max, submitters, steps, states, i - 1);
      assert !Misjudges(max, states[i - 1], steps[i - 1]);
      StepOvercommits(max, states[i - 1], steps[i - 1], states[i]);
    }
  }

  /** In every run, the pool is overcommitted at some moment if and only if some submitter
      misjudged its decision. */
  lemma OvercommittedExactlyByMisjudgement(
    max: nat, submitters: nat, steps: seq<Step>, states: seq<State>)
    requires 0 < max && Behaviour(max, submitters, steps, states)
    ensures (exists i :: 0 <= i <= |steps| && Overcommitted(max, states[i])) <==>
            (exists i :: 0 <= i < |steps| && Misjudges(max, states[i], steps[i]))
  {
    hide Apply, Misjudges, Overcommitted;
    if i :| 0 <= i < |steps| && Misjudges(max, states[i], steps[i]) {
      RunInv(max, submitters, steps, states, i);
      StepOvercommits(max, states[i], steps[i], states[i + 1]);
      assert Overcommitted(max, states[i + 1]);
    } else {
      forall i | 0 <= i <= |steps| ensures !Overcommitted(max, states[i]) {
        SoundJudgementUpTo(max, submitters, steps, states, i);
      }
    }
  }

  // ---- and that it does -------------------------------------------------

  ghost predicate Reached(max: nat, s: State) {
    exists steps, states :: Behaviour(max, 1, steps, states) && states[|steps|] == s
  }

  lemma TakeStep(max: nat, s: State, st: Step, s': State)
    requires Reached(max, s) && Apply(max, s, st) == Some(s')
    ensures Reached(max, s')
  {
    hide Apply;
    var steps, states :| Behaviour(max, 1, steps, states) && states[|steps|] == s;
    var more, after := steps + [st], states + [s'];
    forall i | 0 <= i < |more| ensures Apply(max, after[i], more[i]) == Some(after[i + 1]) {
      if i < |steps| { assert more[i] == steps[i] && after[i] == states[i] && after[i + 1] == states[i + 1]; }
    }
    assert Behaviour(max, 1, more, after) && after[|more|] == s';
  }

  /** The submitter's next step, which wakes `woken` if it is a notify. */
  lemma GoSub(max: nat, s: State, woken: Option<nat>, s': State)
    requires Reached(max, s) && |s.subs| == 1 && SubmitStep(max, s, 0, woken) == Some(s')
    ensures Reached(max, s')
  {
    hide SubmitStep, Reached;
    TakeStep(max, s, SubStep(0, woken), s');
  }

  /** The worker's next step. */
  lemma GoWork(max: nat, s: State, s': State)
    requires Reached(max, s) && |s.ws| == 1 && WorkerStep(s, 0) == Some(s')
    ensures Reached(max, s')
  {
    hide WorkerStep, Reached;
    TakeStep(max, s, WorkStep(0), s');
  }

  /** The first `n` of the jobs 0, 1, 2. */
  function Jobs3(n: nat): seq<Job> {
    if n == 0 then [] else if n == 1 then [0] else if n == 2 then [0, 1] else [0, 1, 2]
  }

  function Waiting(taken: nat, pushed: nat): seq<Job> {
    if taken == pushed then [] else if pushed - taken == 1 then [taken] else [taken, taken + 1]
  }

  function Locked(sub: bool, work: bool): Option<Thread> {
    if sub then Some(Sub(0)) else if work then Some(Work(0)) else None
  }

  /** One submitter and at most one worker, `answered` says whether job 0 is. */
  function Pair(x: Submitter, w: Option<Worker>, idle: nat, pushed: nat, taken: nat, answered: bool): State {
    State(Waiting(taken, pushed),
          Locked(QueueSub(x), w.Some? && QueueWork(w.value)),
          if w.Some? || x.Spawning? then 1 else 0, idle,
          Locked(CountsSub(x), w.Some? && CountsWork(w.value)),
          true, [x], if w.Some? then [w.value] else [], Jobs3(pushed), Jobs3(taken),
          if answered then multiset{0} else multiset{})
  }

  lemma Singles()
    ensures forall a: Submitter, b: Submitter :: [a][0 := b] == [b]
    ensures forall a: Worker, b: Worker :: [a][0 := b] == [b]
  {}

  lemma ReachStart(max: nat)
    ensures Reached(max, Pair(Resting, None, 0, 0, 0, false))
  {
    var none: seq<Step> := [];
    var s0 := Init(1);
    assert s0.subs == [Resting];
    assert Behaviour(max, 1, none, [s0]) && [s0][|none|] == s0;
    assert Pair(Resting, None, 0, 0, 0, false) == s0;
  }

  /** The first job finds no worker ... */
  lemma ReachDecided(max: nat)
    requires max >= 1
    ensures Reached(max, Pair(Spawning, None, 0, 1, 0, false))
  {
    ReachStart(max);
    hide Reached;
    Singles();
    assert Jobs3(0) + [0] == Jobs3(1) && Waiting(0, 0) + [0] == Waiting(0, 1);
    TakeStep(max, Pair(Resting, None, 0, 0, 0, false), Submit(0, 0), Pair(Offering(0), None, 0, 0, 0, false));
    GoSub(max, Pair(Offering(0), None, 0, 0, 0, false), None, Pair(Pushing(0), None, 0, 0, 0, false));
    GoSub(max, Pair(Pushing(0), None, 0, 0, 0, false), None, Pair(Deciding, None, 0, 1, 0, false));
    GoSub(max, Pair(Deciding, None, 0, 1, 0, false), None, Pair(Decision, None, 0, 1, 0, false));
    GoSub(max, Pair(Decision, None, 0, 1, 0, false), None, Pair(Spawning, None, 0, 1, 0, false));
  }

  /** ... and one is spawned for it. */
  lemma ReachFirst(max: nat)
    requires max >= 1
    ensures Reached(max, Pair(Resting, Some(Fetching), 0, 1, 0, false))
  {
    ReachDecided(max);
    hide Reached;
    Singles();
    var nobody: seq<Worker> := [];
    assert nobody + [Fetching] == [Fetching];
    GoSub(max, Pair(Spawning, None, 0, 1, 0, false), None, Pair(Notifying, Some(Fetching), 0, 1, 0, false));
    GoSub(max, Pair(Notifying, Some(Fetching), 0, 1, 0, false), None, Pair(Resting, Some(Fetching), 0, 1, 0, false));
  }

  /** The worker serves it ... */
  lemma ReachServed(max: nat)
    requires max >= 1
    ensures Reached(max, Pair(Resting, Some(Fetching), 0, 1, 1, true))
  {
    hide Reached;
    Singles();
    ReachFirst(max);
    assert Jobs3(0) + [0] == Jobs3(1) && Waiting(0, 1)[1..] == Waiting(1, 1);
    var none: multiset<Job> := multiset{};
    assert none + multiset{0} == multiset{0};
    GoWork(max, Pair(Resting, Some(Fetching), 0, 1, 0, false), Pair(Resting, Some(Looking), 0, 1, 0, false));
    GoWork(max, Pair(Resting, Some(Looking), 0, 1, 0, false), Pair(Resting, Some(Serving(0)), 0, 1, 1, false));
    GoWork(max, Pair(Resting, Some(Serving(0)), 0, 1, 1, false), Pair(Resting, Some(Fetching), 0, 1, 1, true));
  }

  /** ... finds nothing more, and goes to sleep. */
  lemma ReachAsleep(max: nat)
    requires max >= 2
    ensures Reached(max, Pair(Resting, Some(Asleep), 1, 1, 1, true))
  {
    hide Reached;
    Singles();
    ReachServed(max);
    GoWork(max, Pair(Resting, Some(Fetching), 0, 1, 1, true), Pair(Resting, Some(Looking), 0, 1, 1, true));
    GoWork(max, Pair(Resting, Some(Looking), 0, 1, 1, true), Pair(Resting, Some(Counting), 0, 1, 1, true));
    GoWork(max, Pair(Resting, Some(Counting), 0, 1, 1, true), Pair(Resting, Some(Incrementing), 0, 1, 1, true));
    GoWork(max, Pair(Resting, Some(Incrementing), 0, 1, 1, true), Pair(Resting, Some(Settling), 1, 1, 1, true));
    GoWork(max, Pair(Resting, Some(Settling), 1, 1, 1, true), Pair(Resting, Some(Asleep), 1, 1, 1, true));
  }

  /** The second job counts on the idle worker, and wakes it. */
  lemma ReachWoken(max: nat)
    requires max >= 2
    ensures Reached(max, Pair(Resting, Some(Woken), 1, 2, 1, true))
  {
    hide Reached;
    Singles();
    ReachAsleep(max);
    assert Jobs3(1) + [1] == Jobs3(2) && Waiting(1, 1) + [1] == Waiting(1, 2);
    TakeStep(max, Pair(Resting, Some(Asleep), 1, 1, 1, true), Submit(0, 1), Pair(Offering(1), Some(Asleep), 1, 1, 1, true));
    GoSub(max, Pair(Offering(1), Some(Asleep), 1, 1, 1, true), None, Pair(Pushing(1), Some(Asleep), 1, 1, 1, true));
    GoSub(max, Pair(Pushing(1), Some(Asleep), 1, 1, 1, true), None, Pair(Deciding, Some(Asleep), 1, 2, 1, true));
    GoSub(max, Pair(Deciding, Some(Asleep), 1, 2, 1, true), None, Pair(Decision, Some(Asleep), 1, 2, 1, true));
    GoSub(max, Pair(Decision, Some(Asleep), 1, 2, 1, true), None, Pair(Notifying, Some(Asleep), 1, 2, 1, true));
    GoSub(max, Pair(Notifying, Some(Asleep), 1, 2, 1, true), Some(0), Pair(Resting, Some(Woken), 1, 2, 1, true));
  }

  /** The third job counts on the very same worker, which is not uncounted yet. */
  lemma ReachMisjudged(max: nat)
    requires max >= 2
    ensures Reached(max, Pair(Resting, Some(Woken), 1, 3, 1, true))
  {
    hide Reached;
    Singles();
    ReachWoken(max);
    assert Jobs3(2) + [2] == Jobs3(3) && Waiting(1, 2) + [2] == Waiting(1, 3);
    TakeStep(max, Pair(Resting, Some(Woken), 1, 2, 1, true), Submit(0, 2), Pair(Offering(2), Some(Woken), 1, 2, 1, true));
    GoSub(max, Pair(Offering(2), Some(Woken), 1, 2, 1, true), None, Pair(Pushing(2), Some(Woken), 1, 2, 1, true));
    GoSub(max, Pair(Pushing(2), Some(Woken), 1, 2, 1, true), None, Pair(Deciding, Some(Woken), 1, 3, 1, true));
    GoSub(max, Pair(Deciding, Some(Woken), 1, 3, 1, true), None, Pair(Decision, Some(Woken), 1, 3, 1, true));
    GoSub(max, Pair(Decision, Some(Woken), 1, 3, 1, true), None, Pair(Notifying, Some(Woken), 1, 3, 1, true));
    GoSub(max, Pair(Notifying, Some(Woken), 1, 3, 1, true), None, Pair(Resting, Some(Woken), 1, 3, 1, true));
  }

  /** One job is served, one waits, the only worker is busy, nobody owes anything, and the
      bound allows another. */
  ghost predicate WaitsInVain(max: nat, s: State) {
    && Overcommitted(max, s) && s.queue != []
    && (forall w :: 0 <= w < |s.ws| ==> s.ws[w].Serving?)
    && (forall u :: 0 <= u < |s.subs| ==> s.subs[u] == Resting)
  }

  lemma JobsWaitInVain(max: nat)
    requires max >= 2
    ensures exists s :: Reached(max, s) && WaitsInVain(max, s)
  {
    hide Reached;
    Singles();
    ReachMisjudged(max);
    assert Jobs3(1) + [1] == Jobs3(2) && Waiting(1, 3)[1..] == Waiting(2, 3);
    GoWork(max, Pair(Resting, Some(Woken), 1, 3, 1, true), Pair(Resting, Some(Returning), 1, 3, 1, true));
    GoWork(max, Pair(Resting, Some(Returning), 1, 3, 1, true), Pair(Resting, Some(Decrementing), 1, 3, 1, true));
    GoWork(max, Pair(Resting, Some(Decrementing), 1, 3, 1, true), Pair(Resting, Some(Looking), 0, 3, 1, true));
    GoWork(max, Pair(Resting, Some(Looking), 0, 3, 1, true), Pair(Resting, Some(Serving(1)), 0, 3, 2, true));
    var end := Pair(Resting, Some(Serving(1)), 0, 3, 2, true);
    TallySome(end.ws, Available);
    TallySome(end.subs, Due);
    assert WaitsInVain(max, end);
  }

  ghost predicate CanOvercommit(max: nat) {
    exists submitters, steps, states, i ::
      Behaviour(max, submitters, steps, states) && 0 <= i <= |steps| && Overcommitted(max, states[i])
  }

  /** So a pool of more than one worker can be overcommitted, and a pool of one cannot. */
  lemma OvercommitsExactlyAboveOne(max: nat)
    requires 0 < max
    ensures CanOvercommit(max) <==> max >= 2
  {
    hide Overcommitted, Apply;
    if CanOvercommit(max) {
      var submitters, steps, states, i :|
        Behaviour(max, submitters, steps, states) && 0 <= i <= |steps| && Overcommitted(max, states[i]);
      OvercommittedExactlyByMisjudgement(max, submitters, steps, states);
      var j :| 0 <= j < |steps| && Misjudges(max, states[j], steps[j]);
      MisjudgedAboveOne(max, submitters, steps, states, j);
    }
    if max >= 2 {
      JobsWaitInVain(max);
      var s :| Reached(max, s) && WaitsInVain(max, s);
      var steps, states :| Behaviour(max, 1, steps, states) && states[|steps|] == s;
      assert Behaviour(max, 1, steps, states) && Overcommitted(max, states[|steps|]);
    }
  }

  /** A misjudged decision reads an idle worker, and a bound above the workers there are. */
  lemma MisjudgedAboveOne(max: nat, submitters: nat, steps: seq<Step>, states: seq<State>, j: nat)
    requires 0 < max && Behaviour(max, submitters, steps, states) && j < |steps|
    requires Misjudges(max, states[j], steps[j])
    ensures max >= 2
  {
    hide Apply;
    CountsAreExact(max, submitters, steps, states, j);
  }
}
