/** What the worker pool keeps, over every interleaving. */
module PoolTheorems {
  import opened Records
  import opened Tallies
  import opened PoolMachine

  // ---- who holds what ---------------------------------------------------

  predicate QueueSub(x: Submitter) { x.Pushing? }

  predicate QueueWork(x: Worker) {
    x.Looking? || x.Counting? || x.Incrementing? || x.Settling? || x.Returning? || x.Decrementing?
  }

  predicate CountsSub(x: Submitter) { x.Decision? }

  predicate CountsWork(x: Worker) { x.Incrementing? || x.Decrementing? || x.Last? }

  /** Exactly the lock's owner is where only an owner can be. */
  ghost predicate Owned(s: State, lock: Option<Thread>, sub: Submitter -> bool, work: Worker -> bool) {
    && (forall i :: 0 <= i < |s.subs| ==> (sub(s.subs[i]) <==> lock == Some(Sub(i))))
    && (forall i :: 0 <= i < |s.ws| ==> (work(s.ws[i]) <==> lock == Some(Work(i))))
    && (lock.Some? ==> match lock.value case Sub(i) => i < |s.subs| case Work(i) => i < |s.ws|)
  }

  ghost predicate Locks(s: State) {
    Owned(s, s.queueLock, QueueSub, QueueWork) && Owned(s, s.countsLock, CountsSub, CountsWork)
  }

  // ---- counts -----------------------------------------------------------

  /** A thread `workers` still counts. */
  predicate Live(x: Worker) { !x.Gone? }

  predicate Owed(x: Submitter) { x.Spawning? }

  /** A thread `idle_workers` counts. */
  predicate Idle(x: Worker) {
    x.Settling? || x.Asleep? || x.Woken? || x.Returning? || x.Decrementing?
  }

  ghost predicate Counts(max: nat, s: State) {
    && s.workers == Tally(s.ws, Live) + Tally(s.subs, Owed) && s.workers <= max
    && s.idle == Tally(s.ws, Idle)
  }

  // ---- jobs -------------------------------------------------------------

  function InService(x: Worker): multiset<Job> { if x.Serving? then multiset{x.job} else multiset{} }

  /** Jobs are taken in the order they were pushed, and every taken one is in service
      or answered. */
  ghost predicate Jobs(s: State) {
    && s.pushed == s.taken + s.queue
    && multiset(s.taken) == s.answered + Held(s.ws, InService)
  }

  // ---- attention --------------------------------------------------------

  predicate Emptied(x: Worker) { x.Counting? || x.Incrementing? || x.Settling? }

  /** On its way to looking at the queue. */
  predicate Heading(x: Worker) {
    x.Fetching? || x.Looking? || x.Woken? || x.Returning? || x.Decrementing?
  }

  predicate Owing(x: Submitter) { x.Deciding? || x.Decision? || x.Spawning? || x.Notifying? }

  predicate Undecided(x: Submitter) { x.Deciding? || x.Decision? }

  predicate Leaves(x: Worker) { x.Leaving? || x.Last? || x.Gone? }

  predicate SomeAsleep(ws: seq<Worker>) {
    exists i :: 0 <= i < |ws| && ws[i] == Asleep
  }

  /** While a worker sleeps, each queued job has a worker of its own on its way to the
      queue, or a submitter of its own about to see to one; and while no worker is
      counted, each has a submitter yet to decide about spawning one. */
  ghost predicate Attended(s: State) {
    && (SomeAsleep(s.ws) ==> |s.queue| <= Tally(s.ws, Heading) + Tally(s.subs, Owing))
    && (s.workers == 0 ==> |s.queue| <= Tally(s.subs, Undecided))
    && (forall i :: 0 <= i < |s.ws| ==> !Leaves(s.ws[i]))
  }

  ghost predicate Inv(max: nat, s: State) {
    && Locks(s) && Counts(max, s) && Jobs(s)
    && (forall i :: 0 <= i < |s.ws| && Emptied(s.ws[i]) ==> s.queue == [])
    && (s.running ==> Attended(s))
  }

  // ---- steps ------------------------------------------------------------

  lemma InitInv(max: nat, submitters: nat)
    ensures Inv(max, Init(submitters))
  {
    TallySome(Init(submitters).subs, Owed);
    assert !SomeAsleep(Init(submitters).ws);
  }

  /** One worker moves; a lock moves with it, or not at all. */
  lemma WorkerMoves(
    s: State, s': State, lock: Option<Thread>, lock': Option<Thread>,
    sub: Submitter -> bool, work: Worker -> bool, i: nat, x: Worker)
    requires Owned(s, lock, sub, work) && i < |s.ws| && s'.subs == s.subs && s'.ws == s.ws[i := x]
    requires work(x) <==> lock' == Some(Work(i))
    requires lock' == lock || (lock == None && lock' == Some(Work(i))) || (lock == Some(Work(i)) && lock' == None)
    ensures Owned(s', lock', sub, work)
  {}

  lemma WorkLocks(s: State, i: nat, s': State)
    requires Locks(s) && i < |s.ws| && WorkerStep(s, i) == Some(s')
    ensures Locks(s')
  {
    var x := s'.ws[i];
    assert s'.ws == s.ws[i := x] && s'.subs == s.subs;
    assert QueueWork(s.ws[i]) <==> s.queueLock == Some(Work(i));
    assert CountsWork(s.ws[i]) <==> s.countsLock == Some(Work(i));
    hide Owned;
    WorkerMoves(s, s', s.queueLock, s'.queueLock, QueueSub, QueueWork, i, x);
    WorkerMoves(s, s', s.countsLock, s'.countsLock, CountsSub, CountsWork, i, x);
  }

  /** What a worker's step does to the counts. */
  lemma WorkDelta(s: State, i: nat, s': State)
    requires i < |s.ws| && WorkerStep(s, i) == Some(s')
    ensures |s'.ws| == |s.ws| && s'.ws == s.ws[i := s'.ws[i]] && s'.subs == s.subs
    ensures s'.workers + One(s.ws[i], Live) == s.workers + One(s'.ws[i], Live)
    ensures s'.idle + One(s.ws[i], Idle) == s.idle + One(s'.ws[i], Idle)
    ensures s'.workers <= s.workers
  {}

  /** What a worker's step does to the jobs: nothing, or it takes one, or answers one. */
  lemma WorkJobDelta(s: State, i: nat, s': State)
    requires i < |s.ws| && WorkerStep(s, i) == Some(s')
    ensures |s'.ws| == |s.ws| && s'.ws == s.ws[i := s'.ws[i]]
    ensures s'.pushed == s.pushed && s'.taken + s'.queue == s.taken + s.queue
    ensures JobMoves(s, s', InService(s.ws[i]), InService(s'.ws[i]))
  {
    if s.ws[i].Looking? && s.queue != [] { TakeDelta(s, i, s'); }
    else if s.ws[i].Serving? { assert s'.ws[i] == Fetching; }
    else { NoJobDelta(s, i, s'); }
  }

  ghost predicate JobMoves(s: State, s': State, was: multiset<Job>, now: multiset<Job>) {
    || (was == now == multiset{} && s'.taken == s.taken && s'.answered == s.answered)
    || (was == multiset{} && multiset(s'.taken) == multiset(s.taken) + now && s'.answered == s.answered)
    || (now == multiset{} && s'.taken == s.taken && s'.answered == s.answered + was)
  }

  lemma TakeDelta(s: State, i: nat, s': State)
    requires i < |s.ws| && WorkerStep(s, i) == Some(s') && s.ws[i].Looking? && s.queue != []
    ensures s'.ws == s.ws[i := Serving(s.queue[0])] && s'.pushed == s.pushed && s'.answered == s.answered
    ensures s'.taken + s'.queue == s.taken + s.queue
    ensures multiset(s'.taken) == multiset(s.taken) + multiset{s.queue[0]}
  {
    assert s.queue == [s.queue[0]] + s.queue[1..];
    assert s'.taken == s.taken + [s.queue[0]];
  }

  lemma NoJobDelta(s: State, i: nat, s': State)
    requires i < |s.ws| && WorkerStep(s, i) == Some(s') && !s.ws[i].Serving? && !(s.ws[i].Looking? && s.queue != [])
    ensures s'.ws == s.ws[i := s'.ws[i]] && !s'.ws[i].Serving?
    ensures s'.pushed == s.pushed && s'.taken == s.taken && s'.queue == s.queue && s'.answered == s.answered
  {}

  lemma WorkCounts(max: nat, s: State, i: nat, s': State)
    requires Counts(max, s) && i < |s.ws| && WorkerStep(s, i) == Some(s')
    ensures Counts(max, s')
  {
    WorkDelta(s, i, s');
    hide WorkerStep, Tally, One;
    TallySet(s.ws, i, s'.ws[i], Live);
    TallySet(s.ws, i, s'.ws[i], Idle);
  }

  lemma WorkJobs(s: State, i: nat, s': State)
    requires Jobs(s) && i < |s.ws| && WorkerStep(s, i) == Some(s')
    ensures Jobs(s')
  {
    WorkJobDelta(s, i, s');
    hide WorkerStep, Held, InService;
    HeldSet(s.ws, i, s'.ws[i], InService);
    Settled(Held(s.ws, InService), Held(s'.ws, InService), InService(s.ws[i]), InService(s'.ws[i]));
  }

  lemma Settled(h: multiset<Job>, h': multiset<Job>, was: multiset<Job>, now: multiset<Job>)
    requires h' + was == h + now
    ensures was == multiset{} ==> h' == h + now
    ensures now == multiset{} ==> h == h' + was
  {}

  /** A worker that takes a job was heading for it; one that falls asleep leaves nothing. */
  lemma WorkHeads(s: State, i: nat, s': State)
    requires i < |s.ws| && WorkerStep(s, i) == Some(s') && s.running && !Leaves(s.ws[i])
    requires Emptied(s.ws[i]) ==> s.queue == []
    ensures |s'.ws| == |s.ws| && s'.ws == s.ws[i := s'.ws[i]] && s'.subs == s.subs && s'.running && !Leaves(s'.ws[i])
    ensures s'.queue == [] || |s'.queue| + One(s.ws[i], Heading) <= |s.queue| + One(s'.ws[i], Heading)
    ensures s'.ws[i] == Asleep ==> s'.queue == []
  {}

  lemma WorkAttended(max: nat, s: State, i: nat, s': State)
    requires Counts(max, s) && Attended(s) && i < |s.ws| && WorkerStep(s, i) == Some(s') && s.running
    requires Emptied(s.ws[i]) ==> s.queue == []
    ensures Attended(s')
  {
    WorkHeads(s, i, s');
    WorkDelta(s, i, s');
    hide WorkerStep;
    TallySome(s.ws, Live);
    assert Live(s.ws[i]) && Live(s'.ws[i]);
    hide Tally, One;
    TallySet(s.ws, i, s'.ws[i], Heading);
    if SomeAsleep(s'.ws) && s'.queue != [] {
      var j :| 0 <= j < |s'.ws| && s'.ws[j] == Asleep;
      assert j != i && s.ws[j] == Asleep;
    }
  }

  /** While one thread has the queue, no other is between looking and sleeping. */
  lemma WorkEmptied(s: State, i: nat, s': State)
    requires Locks(s) && i < |s.ws| && WorkerStep(s, i) == Some(s')
    requires forall j :: 0 <= j < |s.ws| && Emptied(s.ws[j]) ==> s.queue == []
    ensures forall j :: 0 <= j < |s'.ws| && Emptied(s'.ws[j]) ==> s'.queue == []
  {}

  lemma WorkInv(max: nat, s: State, i: nat, s': State)
    requires Inv(max, s) && i < |s.ws| && WorkerStep(s, i) == Some(s')
    ensures Inv(max, s')
  {
    hide Locks, Counts, Jobs, Attended;
    WorkLocks(s, i, s');
    WorkCounts(max, s, i, s');
    WorkJobs(s, i, s');
    WorkEmptied(s, i, s');
    if s.running { WorkAttended(max, s, i, s'); }
  }

  // ---- a submitter's steps ----------------------------------------------

  lemma SubMoves(
    s: State, s': State, lock: Option<Thread>, lock': Option<Thread>,
    sub: Submitter -> bool, work: Worker -> bool, i: nat, x: Submitter)
    requires Owned(s, lock, sub, work) && i < |s.subs| && s'.subs == s.subs[i := x]
    requires |s'.ws| >= |s.ws|
    requires forall j :: 0 <= j < |s'.ws| ==> work(s'.ws[j]) == (j < |s.ws| && work(s.ws[j]))
    requires sub(x) <==> lock' == Some(Sub(i))
    requires lock' == lock || (lock == None && lock' == Some(Sub(i))) || (lock == Some(Sub(i)) && lock' == None)
    ensures Owned(s', lock', sub, work)
  {}

  /** The workers as a submitter's step leaves them: one more, one woken, or as they were. */
  ghost predicate Joined(ws: seq<Worker>, ws': seq<Worker>, x: Submitter, woken: Option<nat>) {
    match x
    case Spawning => ws' == ws + [Fetching]
    case Notifying =>
      if woken.Some? then woken.value < |ws| && ws[woken.value] == Asleep && ws' == ws[woken.value := Woken]
      else ws' == ws && NotifiesOne(ws, None)
    case _ => ws' == ws
  }

  /** What a submitter's step does, besides its lock. */
  lemma SubDelta(max: nat, s: State, i: nat, woken: Option<nat>, s': State)
    requires i < |s.subs| && SubmitStep(max, s, i, woken) == Some(s')
    ensures |s'.subs| == |s.subs| && s'.subs == s.subs[i := s'.subs[i]] && Joined(s.ws, s'.ws, s.subs[i], woken)
    ensures s'.idle == s.idle && s'.taken == s.taken && s'.answered == s.answered && s'.running == s.running
    ensures s'.workers == s.workers + One(s'.subs[i], Owed) && (s'.subs[i].Spawning? ==> s.workers < max)
    ensures if s.subs[i].Pushing? then s'.queue == s.queue + [s.subs[i].job] && s'.pushed == s.pushed + [s.subs[i].job]
            else s'.queue == s.queue && s'.pushed == s.pushed
  {}

  lemma JoinedTallies(ws: seq<Worker>, ws': seq<Worker>, x: Submitter, woken: Option<nat>)
    requires Joined(ws, ws', x, woken)
    ensures Tally(ws', Live) == Tally(ws, Live) + One(x, Owed) && Tally(ws', Idle) == Tally(ws, Idle)
    ensures Held(ws', InService) == Held(ws, InService)
  {
    hide Tally, Held;
    if x.Spawning? { SpawnTallies(ws); }
    else if x.Notifying? && woken.Some? { WakeTallies(ws, woken.value); }
  }

  lemma SpawnTallies(ws: seq<Worker>)
    ensures Tally(ws + [Fetching], Live) == Tally(ws, Live) + 1 && Tally(ws + [Fetching], Idle) == Tally(ws, Idle)
    ensures Held(ws + [Fetching], InService) == Held(ws, InService)
  {
    hide Tally, Held;
    TallyPush(ws, Fetching, Live);
    TallyPush(ws, Fetching, Idle);
    HeldPush(ws, Fetching, InService);
  }

  /** A worker that wakes is still counted, as a worker and as idle. */
  lemma WakeTallies(ws: seq<Worker>, i: nat)
    requires i < |ws| && ws[i] == Asleep
    ensures Tally(ws[i := Woken], Live) == Tally(ws, Live) && Tally(ws[i := Woken], Idle) == Tally(ws, Idle)
    ensures Held(ws[i := Woken], InService) == Held(ws, InService)
    ensures Tally(ws[i := Woken], Heading) == Tally(ws, Heading) + 1
  {
    hide Tally, Held;
    TallySet(ws, i, Woken, Heading);
    TallySet(ws, i, Woken, Live);
    TallySet(ws, i, Woken, Idle);
    HeldSet(ws, i, Woken, InService);
    var h, h' := Held(ws, InService), Held(ws[i := Woken], InService);
    assert InService(Asleep) == InService(Woken) == multiset{};
    assert h' + multiset{} == h' && h + multiset{} == h;
  }

  lemma {:induction false} WakeAllTallies(ws: seq<Worker>)
    ensures Tally(WakeAll(ws), Live) == Tally(ws, Live) && Tally(WakeAll(ws), Idle) == Tally(ws, Idle)
    ensures Held(WakeAll(ws), InService) == Held(ws, InService) && Tally(WakeAll(ws), Heading) >= Tally(ws, Heading)
  {
    if ws != [] {
      WakeAllTallies(ws[1..]);
      assert WakeAll(ws)[1..] == WakeAll(ws[1..]);
    }
  }

  lemma SubCounts(max: nat, s: State, i: nat, woken: Option<nat>, s': State)
    requires Counts(max, s) && i < |s.subs| && SubmitStep(max, s, i, woken) == Some(s')
    ensures Counts(max, s')
  {
    SubDelta(max, s, i, woken, s');
    hide SubmitStep, Tally, Held, Joined;
    JoinedTallies(s.ws, s'.ws, s.subs[i], woken);
    TallySet(s.subs, i, s'.subs[i], Owed);
  }

  lemma SubJobs(max: nat, s: State, i: nat, woken: Option<nat>, s': State)
    requires Jobs(s) && i < |s.subs| && SubmitStep(max, s, i, woken) == Some(s')
    ensures Jobs(s')
  {
    SubDelta(max, s, i, woken, s');
    hide SubmitStep, Tally, Held, Joined;
    JoinedTallies(s.ws, s'.ws, s.subs[i], woken);
    if s.subs[i].Pushing? {
      assert s.taken + (s.queue + [s.subs[i].job]) == s.taken + s.queue + [s.subs[i].job];
    }
  }

  lemma SubLocks(max: nat, s: State, i: nat, woken: Option<nat>, s': State)
    requires Locks(s) && i < |s.subs| && SubmitStep(max, s, i, woken) == Some(s')
    ensures Locks(s')
  {
    SubDelta(max, s, i, woken, s');
    assert QueueSub(s.subs[i]) <==> s.queueLock == Some(Sub(i));
    assert CountsSub(s.subs[i]) <==> s.countsLock == Some(Sub(i));
    hide Owned;
    SubMoves(s, s', s.queueLock, s'.queueLock, QueueSub, QueueWork, i, s'.subs[i]);
    SubMoves(s, s', s.countsLock, s'.countsLock, CountsSub, CountsWork, i, s'.subs[i]);
  }

  /** Only the owner of the queue changes it, so a worker about to sleep sees no push. */
  lemma SubEmptied(max: nat, s: State, i: nat, woken: Option<nat>, s': State)
    requires Locks(s) && i < |s.subs| && SubmitStep(max, s, i, woken) == Some(s')
    requires forall j :: 0 <= j < |s.ws| && Emptied(s.ws[j]) ==> s.queue == []
    ensures forall j :: 0 <= j < |s'.ws| && Emptied(s'.ws[j]) ==> s'.queue == []
  {
    SubDelta(max, s, i, woken, s');
    hide SubmitStep;
    if s.subs[i].Pushing? { assert s.queueLock == Some(Sub(i)); }
  }

  /** A decision not to spawn means some worker is counted. */
  lemma Decided(max: nat, s: State, i: nat, woken: Option<nat>, s': State)
    requires Counts(max, s) && 0 < max && i < |s.subs| && SubmitStep(max, s, i, woken) == Some(s')
    requires s.subs[i].Spawning? || s.subs[i].Decision?
    ensures s'.workers > 0
  {
    TallyLess(s.ws, Idle, Live);
    if s.subs[i].Spawning? { TallySome(s.subs, Owed); }
  }

  /** Who joined, or woke, is heading for the queue; and nobody new is asleep. */
  lemma JoinedHeads(ws: seq<Worker>, ws': seq<Worker>, x: Submitter, woken: Option<nat>)
    requires Joined(ws, ws', x, woken)
    ensures Tally(ws', Heading) >= Tally(ws, Heading)
    ensures x.Spawning? || (x.Notifying? && woken.Some?) ==> Tally(ws', Heading) == Tally(ws, Heading) + 1
    ensures SomeAsleep(ws') ==> SomeAsleep(ws)
    ensures x.Notifying? && woken.None? ==> !SomeAsleep(ws')
    ensures forall i :: 0 <= i < |ws'| && Leaves(ws'[i]) ==> i < |ws| && Leaves(ws[i])
  {
    hide Tally;
    if x.Spawning? { TallyPush(ws, Fetching, Heading); }
    else if x.Notifying? && woken.Some? { TallySet(ws, woken.value, Woken, Heading); }
    if SomeAsleep(ws') {
      var i :| 0 <= i < |ws'| && ws'[i] == Asleep;
      assert i < |ws| && ws[i] == Asleep;
    }
  }

  /** What a submitter's step does to what it owes. */
  lemma OwingDelta(max: nat, s: State, i: nat, woken: Option<nat>, s': State)
    requires i < |s.subs| && SubmitStep(max, s, i, woken) == Some(s')
    ensures |s'.subs| == |s.subs| && s'.subs == s.subs[i := s'.subs[i]]
    ensures One(s'.subs[i], Owing) + One(s.subs[i], AboutToNotify) ==
              One(s.subs[i], Owing) + One(s.subs[i], QueueSub)
    ensures One(s'.subs[i], Undecided) + One(s.subs[i], CountsSub) ==
              One(s.subs[i], Undecided) + One(s.subs[i], QueueSub)
    ensures |s'.queue| == |s.queue| + One(s.subs[i], QueueSub) && s'.workers >= s.workers
  {}

  predicate AboutToNotify(x: Submitter) { x.Notifying? }

  lemma SubAttended(max: nat, s: State, i: nat, woken: Option<nat>, s': State)
    requires Counts(max, s) && 0 < max && Attended(s) && i < |s.subs| && SubmitStep(max, s, i, woken) == Some(s')
    ensures Attended(s')
  {
    if s.subs[i].Decision? { Decided(max, s, i, woken, s'); }
    SubDelta(max, s, i, woken, s');
    OwingDelta(max, s, i, woken, s');
    hide SubmitStep, Tally;
    JoinedHeads(s.ws, s'.ws, s.subs[i], woken);
    TallySet(s.subs, i, s'.subs[i], Owing);
    TallySet(s.subs, i, s'.subs[i], Undecided);
    hide Joined;
  }

  lemma SubInv(max: nat, s: State, i: nat, woken: Option<nat>, s': State)
    requires Inv(max, s) && 0 < max && i < |s.subs| && SubmitStep(max, s, i, woken) == Some(s')
    ensures Inv(max, s')
  {
    SubDelta(max, s, i, woken, s');
    hide Locks, Counts, Jobs, Attended, SubmitStep;
    SubLocks(max, s, i, woken, s');
    SubCounts(max, s, i, woken, s');
    SubJobs(max, s, i, woken, s');
    SubEmptied(max, s, i, woken, s');
    if s.running { SubAttended(max, s, i, woken, s'); }
  }

  // ---- the rest, and every run ------------------------------------------

  lemma WokenInv(max: nat, s: State, ws: seq<Worker>)
    requires Inv(max, s) && |ws| == |s.ws|
    requires forall i :: 0 <= i < |ws| ==> ws[i] == s.ws[i] || (s.ws[i] == Asleep && ws[i] == Woken)
    requires Tally(ws, Live) == Tally(s.ws, Live) && Tally(ws, Idle) == Tally(s.ws, Idle)
    requires Held(ws, InService) == Held(s.ws, InService) && Tally(ws, Heading) >= Tally(s.ws, Heading)
    ensures Inv(max, s.(ws := ws))
  {
    hide Tally, Held;
    var s' := s.(ws := ws);
    assert Locks(s');
    hide Locks, Owned;
    if SomeAsleep(ws) {
      var j :| 0 <= j < |ws| && ws[j] == Asleep;
      assert s.ws[j] == Asleep;
    }
  }

  lemma OfferInv(max: nat, s: State, i: nat, job: Job)
    requires Inv(max, s) && i < |s.subs| && s.subs[i] == Resting
    ensures Inv(max, s.(subs := s.subs[i := Offering(job)]))
  {
    TallySet(s.subs, i, Offering(job), Owed);
    TallySet(s.subs, i, Offering(job), Owing);
    TallySet(s.subs, i, Offering(job), Undecided);
    hide Tally, Held;
    var s' := s.(subs := s.subs[i := Offering(job)]);
    assert Locks(s') && Counts(max, s') && Jobs(s');
    hide Locks, Counts, Jobs;
  }

  lemma StopInv(max: nat, s: State)
    requires Inv(max, s)
    ensures Inv(max, s.(running := false))
  {
    hide Tally, Held;
  }

  lemma StepInv(max: nat, s: State, st: Step, s': State)
    requires Inv(max, s) && 0 < max && Apply(max, s, st) == Some(s')
    ensures Inv(max, s')
  {
    hide SubmitStep, WorkerStep, Inv;
    match st
    case Submit(i, job) => OfferInv(max, s, i, job);
    case SubStep(i, woken) => SubInv(max, s, i, woken, s');
    case WorkStep(i) => WorkInv(max, s, i, s');
    case Timeout(i) =>
      WakeTallies(s.ws, i);
      WokenInv(max, s, s'.ws);
    case Stop => StopInv(max, s);
    case NotifyAll =>
      WakeAllTallies(s.ws);
      WokenInv(max, s, s'.ws);
  }

  lemma {:induction false} RunInv(max: nat, submitters: nat, steps: seq<Step>, states: seq<State>, i: nat)
    requires 0 < max && Behaviour(max, submitters, steps, states) && i <= |steps|
    ensures Inv(max, states[i])
  {
    hide Inv, Apply;
    if i == 0 {
      InitInv(max, submitters);
    } else {
      RunInv(max, submitters, steps, states, i - 1);
      StepInv(max, states[i - 1], steps[i - 1], states[i]);
    }
  }

  /** The bound holds, and the counts are of exactly the threads they are meant to
      count; in particular neither is ever taken below zero. */
  lemma CountsAreExact(max: nat, submitters: nat, steps: seq<Step>, states: seq<State>, i: nat)
    requires 0 < max && Behaviour(max, submitters, steps, states) && i <= |steps|
    ensures var s := states[i];
      && s.workers <= max && s.workers == Tally(s.ws, Live) + Tally(s.subs, Owed)
      && s.idle == Tally(s.ws, Idle) && s.idle <= s.workers
      && (forall w :: 0 <= w < |s.ws| && s.ws[w].Decrementing? ==> s.idle > 0)
      && (forall w :: 0 <= w < |s.ws| && s.ws[w].Last? ==> s.workers > 0)
  {
    hide Apply;
    RunInv(max, submitters, steps, states, i);
    var s := states[i];
    TallySome(s.ws, Idle);
    TallySome(s.ws, Live);
    TallyLess(s.ws, Idle, Live);
    hide Tally;
    forall w | 0 <= w < |s.ws| && s.ws[w].Decrementing? ensures s.idle > 0 { assert Idle(s.ws[w]); }
    forall w | 0 <= w < |s.ws| && s.ws[w].Last? ensures s.workers > 0 { assert Live(s.ws[w]); }
  }

  /** No job is lost, done twice or overtaken: what was pushed is what was taken, in
      order, and then what is queued; and what was taken is answered or in service. */
  lemma JobsAreConserved(max: nat, submitters: nat, steps: seq<Step>, states: seq<State>, i: nat)
    requires 0 < max && Behaviour(max, submitters, steps, states) && i <= |steps|
    ensures var s := states[i];
      && s.pushed == s.taken + s.queue
      && multiset(s.pushed) == s.answered + Held(s.ws, InService) + multiset(s.queue)
  {
    hide Apply;
    RunInv(max, submitters, steps, states, i);
  }

  /** While the pool runs and a worker sleeps, every queued job has a worker of its own on
      its way to the queue, or a submitter of its own about to wake or spawn one. So no job
      depends on a wait timing out: when a job is queued somebody is on the way to it, or
      every worker is up and busy. And with no worker counted, some submitter has yet to
      decide about spawning one. */
  lemma QueuedJobsAreAttended(max: nat, submitters: nat, steps: seq<Step>, states: seq<State>, i: nat)
    requires 0 < max && Behaviour(max, submitters, steps, states) && i <= |steps|
    requires states[i].running && states[i].queue != []
    ensures var s := states[i];
      && (SomeAsleep(s.ws) ==> |s.queue| <= Tally(s.ws, Heading) + Tally(s.subs, Owing))
      && ((exists w :: 0 <= w < |s.ws| && Heading(s.ws[w])) || (exists u :: 0 <= u < |s.subs| && Owing(s.subs[u]))
          || (s.workers > 0 && forall w :: 0 <= w < |s.ws| ==> s.ws[w].Serving?))
      && (s.workers == 0 ==> exists u :: 0 <= u < |s.subs| && Undecided(s.subs[u]))
  {
    hide Apply;
    RunInv(max, submitters, steps, states, i);
    var s := states[i];
    TallySome(s.ws, Heading);
    TallySome(s.subs, Owing);
    TallySome(s.subs, Undecided);
    hide Tally, Locks, Counts, Jobs;
    if (forall w :: 0 <= w < |s.ws| ==> !Heading(s.ws[w])) && (forall u :: 0 <= u < |s.subs| ==> !Owing(s.subs[u])) {
      forall u | 0 <= u < |s.subs| ensures !Undecided(s.subs[u]) { assert !Owing(s.subs[u]); }
      forall w | 0 <= w < |s.ws| ensures s.ws[w].Serving? {
        assert !Heading(s.ws[w]) && !Leaves(s.ws[w]) && !Emptied(s.ws[w]);
      }
    }
  }

  /** Each of the two mutexes has one owner at a time. */
  lemma LocksExclude(max: nat, submitters: nat, steps: seq<Step>, states: seq<State>, i: nat)
    requires 0 < max && Behaviour(max, submitters, steps, states) && i <= |steps|
    ensures var s := states[i];
      && (forall v, w :: 0 <= v < |s.ws| && 0 <= w < |s.ws| && QueueWork(s.ws[v]) && QueueWork(s.ws[w]) ==> v == w)
      && (forall v, w :: 0 <= v < |s.ws| && 0 <= w < |s.ws| && CountsWork(s.ws[v]) && CountsWork(s.ws[w]) ==> v == w)
      && (forall w, u :: 0 <= w < |s.ws| && 0 <= u < |s.subs| ==>
            !(QueueWork(s.ws[w]) && QueueSub(s.subs[u])) && !(CountsWork(s.ws[w]) && CountsSub(s.subs[u])))
  {
    hide Apply;
    RunInv(max, submitters, steps, states, i);
  }
}
