/** The worker pool behind an exposed function: submitting threads, worker threads,
    the queue mutex, the counts mutex and the condition variable, step by step. */
module PoolMachine {
  import opened Records

  type Job = nat

  /** A thread in `Pool::submit`. */
  datatype Submitter =
    | Resting
    | Offering(job: Job)   // wants the queue
    | Pushing(job: Job)    // has the queue
    | Deciding             // has pushed; wants the counts
    | Decision             // has the counts
    | Spawning             // has counted a worker in, not spawned it yet
    | Notifying

  /** A thread in `Pool::work`. */
  datatype Worker =
    | Fetching             // wants the queue
    | Looking              // has the queue
    | Counting             // has the queue and found it empty; wants the counts
    | Incrementing         // has both
    | Settling             // has the queue, is counted idle
    | Asleep               // at the condition variable
    | Woken                // wants the queue back
    | Returning            // has the queue; wants the counts
    | Decrementing         // has both
    | Serving(job: Job)
    | Leaving              // saw `running` cleared; wants the counts
    | Last                 // has the counts
    | Gone

  datatype Thread = Sub(i: nat) | Work(i: nat)

  /** `pushed`, `taken` and `answered` are history. */
  datatype State = State(
    queue: seq<Job>, queueLock: Option<Thread>,
    workers: nat, idle: nat, countsLock: Option<Thread>,
    running: bool, subs: seq<Submitter>, ws: seq<Worker>,
    pushed: seq<Job>, taken: seq<Job>, answered: multiset<Job>)

  datatype Step =
    | Submit(i: nat, job: Job)
    | SubStep(i: nat, woken: Option<nat>)   // `woken`: whom a notify_one reaches
    | WorkStep(i: nat)
    | Timeout(i: nat)                       // a wait ends by itself
    | Stop
    | NotifyAll

  function Init(submitters: nat): State {
    State([], None, 0, 0, None, true, seq(submitters, i => Resting), [], [], [], multiset{})
  }

  /** `woken` is a choice `notify_one` can make. */
  predicate NotifiesOne(ws: seq<Worker>, woken: Option<nat>) {
    match woken
    case Some(q) => q < |ws| && ws[q] == Asleep
    case None => forall q :: 0 <= q < |ws| ==> ws[q] != Asleep
  }

  function SubmitStep(max: nat, s: State, i: nat, woken: Option<nat>): Option<State>
    requires i < |s.subs|
  {
    match s.subs[i]
    case Resting => None
    case Offering(job) =>
      if s.queueLock.Some? then None
      else Some(s.(queueLock := Some(Sub(i)), subs := s.subs[i := Pushing(job)]))
    case Pushing(job) =>
      Some(s.(queue := s.queue + [job], pushed := s.pushed + [job], queueLock := None, subs := s.subs[i := Deciding]))
    case Deciding =>
      if s.countsLock.Some? then None
      else Some(s.(countsLock := Some(Sub(i)), subs := s.subs[i := Decision]))
    case Decision =>
      if s.idle == 0 && s.workers < max then
        Some(s.(workers := s.workers + 1, countsLock := None, subs := s.subs[i := Spawning]))
      else Some(s.(countsLock := None, subs := s.subs[i := Notifying]))
    case Spawning => Some(s.(ws := s.ws + [Fetching], subs := s.subs[i := Notifying]))
    case Notifying =>
      if !NotifiesOne(s.ws, woken) then None
      else
        Some(s.(ws := if woken.Some? then s.ws[woken.value := Woken] else s.ws, subs := s.subs[i := Resting]))
  }

  function WorkerStep(s: State, i: nat): Option<State>
    requires i < |s.ws|
  {
    match s.ws[i]
    case Fetching =>
      if s.queueLock.Some? then None
      else Some(s.(queueLock := Some(Work(i)), ws := s.ws[i := Looking]))
    case Looking =>
      if s.queue != [] then
        Some(s.(queue := s.queue[1..], taken := s.taken + [s.queue[0]], queueLock := None,
                ws := s.ws[i := Serving(s.queue[0])]))
      else if !s.running then Some(s.(queueLock := None, ws := s.ws[i := Leaving]))
      else Some(s.(ws := s.ws[i := Counting]))
    case Counting =>
      if s.countsLock.Some? then None
      else Some(s.(countsLock := Some(Work(i)), ws := s.ws[i := Incrementing]))
    case Incrementing => Some(s.(idle := s.idle + 1, countsLock := None, ws := s.ws[i := Settling]))
    case Settling => Some(s.(queueLock := None, ws := s.ws[i := Asleep]))
    case Woken =>
      if s.queueLock.Some? then None
      else Some(s.(queueLock := Some(Work(i)), ws := s.ws[i := Returning]))
    case Returning =>
      if s.countsLock.Some? then None
      else Some(s.(countsLock := Some(Work(i)), ws := s.ws[i := Decrementing]))
    case Decrementing =>
      if s.idle == 0 then None   // an unsigned count; shown never to happen
      else Some(s.(idle := s.idle - 1, countsLock := None, ws := s.ws[i := Looking]))
    case Serving(job) => Some(s.(answered := s.answered + multiset{job}, ws := s.ws[i := Fetching]))
    case Leaving =>
      if s.countsLock.Some? then None
      else Some(s.(countsLock := Some(Work(i)), ws := s.ws[i := Last]))
    case Last =>
      if s.workers == 0 then None   // likewise
      else Some(s.(workers := s.workers - 1, countsLock := None, ws := s.ws[i := Gone]))
    case _ => None
  }

  function WakeAll(ws: seq<Worker>): (r: seq<Worker>)
    ensures |r| == |ws|
    ensures forall i :: 0 <= i < |ws| ==> r[i] == if ws[i] == Asleep then Woken else ws[i]
  {
    if ws == [] then [] else [if ws[0] == Asleep then Woken else ws[0]] + WakeAll(ws[1..])
  }

  function Apply(max: nat, s: State, st: Step): Option<State> {
    match st
    case Submit(i, job) =>
      if i < |s.subs| && s.subs[i] == Resting then Some(s.(subs := s.subs[i := Offering(job)])) else None
    case SubStep(i, woken) => if i < |s.subs| then SubmitStep(max, s, i, woken) else None
    case WorkStep(i) => if i < |s.ws| then WorkerStep(s, i) else None
    case Timeout(i) =>
      if i < |s.ws| && s.ws[i] == Asleep then Some(s.(ws := s.ws[i := Woken])) else None
    case Stop => Some(s.(running := false))
    case NotifyAll => Some(s.(ws := WakeAll(s.ws)))
  }

  /** A schedule, and the states it goes through. */
  ghost predicate Behaviour(max: nat, submitters: nat, steps: seq<Step>, states: seq<State>) {
    && |states| == |steps| + 1 && states[0] == Init(submitters)
    && forall i {:trigger steps[i]} :: 0 <= i < |steps| ==> Apply(max, states[i], steps[i]) == Some(states[i + 1])
  }
}
