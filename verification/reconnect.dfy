/** Reconnecting after a broker restart: any number of threads of one connection (callers
    in `with_reconnect`, and the watcher) racing through `reconnect`, step by step. */
module Reconnects {
  import opened Records

  /** `failed` is the epoch the thread saw when it decided to reconnect. */
  datatype Thread =
    | Idle
    | Observed(failed: nat)                 // read the connection's epoch
    | Wanting(failed: nat)                  // the live epoch differed; wants the mutex
    | Checking(failed: nat)                 // has the mutex
    | Booting(failed: nat)
    | Installing(failed: nat, epoch: nat)   // has a transport of that epoch
    | Registering
    | Replaying(todo: set<nat>)

  /** One installation: by whom, and from which epoch to which. */
  datatype Install = Install(thread: nat, failed: nat, epoch: nat)

  /** `owned` are the registrations to replay, `bound` those re-established under the
      current transport. `installs` and `first` are history. */
  datatype State = State(
    live: nat, epoch: nat, mutex: Option<nat>, threads: seq<Thread>,
    owned: set<nat>, registered: bool, bound: set<nat>,
    first: nat, installs: seq<Install>)

  datatype Step =
    | Observe(t: nat)
    | Probe(t: nat, reachable: bool)
    | Acquire(t: nat)
    | Check(t: nat)
    | Boot(t: nat, ok: bool)
    | Swap(t: nat)
    | Register(t: nat, ok: bool)
    | Replay(t: nat, x: nat, ok: bool)
    | Finish(t: nat)
    | Restart(epoch: nat)

  function Init(threads: nat, epoch: nat, owned: set<nat>): State {
    State(epoch, epoch, None, seq(threads, i => Idle), owned, true, owned, epoch, [])
  }

  function Go(s: State, t: nat, x: Thread): State
    requires t < |s.threads|
  {
    s.(threads := s.threads[t := x])
  }

  /** A thread leaves, letting go of the mutex. */
  function Leave(s: State, t: nat): State
    requires t < |s.threads|
  {
    Go(s, t, Idle).(mutex := None)
  }

  function ThreadStep(s: State, t: nat, st: Step): Option<State>
    requires t < |s.threads|
  {
    match (s.threads[t], st)
    case (Idle, Observe(_)) => Some(Go(s, t, Observed(s.epoch)))
    case (Observed(e), Probe(_, reachable)) =>
      Some(Go(s, t, if reachable && s.live != e then Wanting(e) else Idle))
    case (Wanting(e), Acquire(_)) =>
      if s.mutex.Some? then None else Some(Go(s, t, Checking(e)).(mutex := Some(t)))
    case (Checking(e), Check(_)) =>
      if s.epoch != e then Some(Leave(s, t))      // somebody else has reconnected
      else Some(Go(s, t, Booting(e)))
    case (Booting(e), Boot(_, ok)) =>
      if ok then Some(Go(s, t, Installing(e, s.live))) else Some(Leave(s, t))
    case (Installing(e, new'), Swap(_)) =>
      Some(Go(s, t, Registering).(epoch := new', registered := false, bound := {},
                                  installs := s.installs + [Install(t, e, new')]))
    case (Registering, Register(_, ok)) =>
      if ok then Some(Go(s, t, Replaying(s.owned)).(registered := true)) else Some(Leave(s, t))
    case (Replaying(todo), Replay(_, x, ok)) =>
      if x !in todo then None
      else Some(Go(s, t, Replaying(todo - {x})).(bound := if ok then s.bound + {x} else s.bound))
    case (Replaying(todo), Finish(_)) => if todo == {} then Some(Leave(s, t)) else None
    case _ => None
  }

  /** Whose step it is. */
  function Whose(st: Step): Option<nat> {
    match st
    case Observe(t) => Some(t) case Probe(t, _) => Some(t) case Acquire(t) => Some(t) case Check(t) => Some(t)
    case Boot(t, _) => Some(t) case Swap(t) => Some(t) case Register(t, _) => Some(t) case Replay(t, _, _) => Some(t)
    case Finish(t) => Some(t) case Restart(_) => None
  }

  /** A new broker has a newer epoch. */
  function Apply(s: State, st: Step): Option<State> {
    match Whose(st)
    case Some(t) => if t < |s.threads| then ThreadStep(s, t, st) else None
    case None => if st.Restart? && st.epoch > s.live then Some(s.(live := st.epoch)) else None
  }

  function Run(s: State, steps: seq<Step>): Option<State>
    decreases |steps|
  {
    if steps == [] then Some(s)
    else
      match Apply(s, steps[0])
      case None => None
      case Some(s') => Run(s', steps[1..])
  }

  // ---- what every step keeps --------------------------------------------

  predicate Holds(x: Thread) {
    x.Checking? || x.Booting? || x.Installing? || x.Registering? || x.Replaying?
  }

  ghost predicate ThreadOk(s: State, t: nat)
    requires t < |s.threads|
  {
    var x := s.threads[t];
    && (Holds(x) <==> s.mutex == Some(t))
    && (x.Observed? ==> x.failed <= s.epoch)
    && (x.Wanting? || x.Checking? || x.Booting? || x.Installing? ==> x.failed < s.live)
    && (x.Booting? || x.Installing? ==> x.failed == s.epoch)
    && (x.Installing? ==> s.epoch < x.epoch <= s.live)
  }

  /** Each installation starts from the epoch the last one ended at, and goes up. */
  ghost predicate Chain(from: nat, q: seq<Install>, to: nat) {
    if q == [] then from == to
    else q[|q| - 1].epoch == to && q[|q| - 1].failed < to && Chain(from, q[..|q| - 1], q[|q| - 1].failed)
  }

  ghost predicate Inv(s: State) {
    && s.epoch <= s.live && (s.mutex.Some? ==> s.mutex.value < |s.threads|)
    && (forall t :: 0 <= t < |s.threads| ==> ThreadOk(s, t))
    && Chain(s.first, s.installs, s.epoch)
  }

  lemma InitInv(threads: nat, epoch: nat, owned: set<nat>)
    ensures Inv(Init(threads, epoch, owned))
  {}

  lemma SwapInv(s: State, t: nat, s': State)
    requires Inv(s) && t < |s.threads| && s.threads[t].Installing? && ThreadStep(s, t, Swap(t)) == Some(s')
    ensures Inv(s')
  {
    assert ThreadOk(s, t);
    assert s'.installs[..|s'.installs| - 1] == s.installs;
    forall u | 0 <= u < |s'.threads| ensures ThreadOk(s', u) { assert ThreadOk(s, u); }
  }

  lemma StepInv(s: State, st: Step, s': State)
    requires Inv(s) && Apply(s, st) == Some(s')
    ensures Inv(s')
  {
    if Whose(st).Some? {
      var t := Whose(st).value;
      if s.threads[t].Installing? {
        SwapInv(s, t, s');
      } else {
        hide Chain;
        assert ThreadOk(s, t);
        forall u | 0 <= u < |s'.threads| ensures ThreadOk(s', u) { assert ThreadOk(s, u); }
      }
    } else {
      forall u | 0 <= u < |s'.threads| ensures ThreadOk(s', u) { assert ThreadOk(s, u); }
    }
  }

  lemma {:induction false} RunInv(s: State, steps: seq<Step>)
    requires Inv(s) && Run(s, steps).Some?
    ensures Inv(Run(s, steps).value) && Run(s, steps).value.first == s.first
    decreases |steps|
  {
    hide Inv;
    if steps != [] {
      var s' := Apply(s, steps[0]).value;
      StepInv(s, steps[0], s');
      RunInv(s', steps[1..]);
    }
  }

  /** In a chain every installation starts no earlier than an earlier one ended. */
  lemma {:induction false} ChainOrdered(from: nat, q: seq<Install>, to: nat, i: nat, j: nat)
    requires Chain(from, q, to) && i < j < |q|
    ensures from <= q[i].failed < q[i].epoch <= q[j].failed < q[j].epoch <= to
    decreases |q|
  {
    var before := q[..|q| - 1];
    if j < |q| - 1 {
      ChainOrdered(from, before, q[|q| - 1].failed, i, j);
    } else if i < j - 1 {
      ChainOrdered(from, before, q[|q| - 1].failed, i, j - 1);
      assert before[j - 1].epoch == q[j].failed;
    } else {
      assert before[i].epoch == q[j].failed;
      ChainBounds(from, before, q[j].failed, i);
    }
  }

  lemma {:induction false} ChainBounds(from: nat, q: seq<Install>, to: nat, i: nat)
    requires Chain(from, q, to) && i < |q|
    ensures from <= q[i].failed < q[i].epoch <= to
    decreases |q|
  {
    var before := q[..|q| - 1];
    ChainStart(from, before, q[|q| - 1].failed);
    if i < |q| - 1 { ChainBounds(from, before, q[|q| - 1].failed, i); }
  }

  lemma {:induction false} ChainStart(from: nat, q: seq<Install>, to: nat)
    requires Chain(from, q, to)
    ensures from <= to
    decreases |q|
  {
    if q != [] { ChainStart(from, q[..|q| - 1], q[|q| - 1].failed); }
  }

  /** Reconnecting is single-flight and monotone: installed epochs strictly increase, so
      each is installed at most once; of all the threads that saw the same epoch fail, at
      most one installs anything; and no two are ever inside at once. */
  lemma SingleFlight(threads: nat, epoch: nat, owned: set<nat>, steps: seq<Step>)
    requires Run(Init(threads, epoch, owned), steps).Some?
    ensures var s := Run(Init(threads, epoch, owned), steps).value;
      && (forall i, j :: 0 <= i < j < |s.installs| ==>
            s.installs[i].failed < s.installs[i].epoch <= s.installs[j].failed < s.installs[j].epoch)
      && (forall t, u :: 0 <= t < |s.threads| && 0 <= u < |s.threads| && Holds(s.threads[t]) && Holds(s.threads[u]) ==> t == u)
      && s.epoch <= s.live
  {
    hide Run;
    InitInv(threads, epoch, owned);
    RunInv(Init(threads, epoch, owned), steps);
    var s := Run(Init(threads, epoch, owned), steps).value;
    forall i, j | 0 <= i < j < |s.installs|
      ensures s.installs[i].failed < s.installs[i].epoch <= s.installs[j].failed < s.installs[j].epoch
    {
      ChainOrdered(s.first, s.installs, s.epoch, i, j);
    }
    forall t, u | 0 <= t < |s.threads| && 0 <= u < |s.threads| && Holds(s.threads[t]) && Holds(s.threads[u])
      ensures t == u
    {
      assert ThreadOk(s, t) && ThreadOk(s, u);
    }
  }

  /** Epochs and the log of installations only grow, and what is logged started no
      earlier than from here. */
  lemma {:induction false} RunGrows(s: State, steps: seq<Step>)
    requires Inv(s) && Run(s, steps).Some?
    ensures var s' := Run(s, steps).value;
      && s.epoch <= s'.epoch && s.installs <= s'.installs
      && forall i :: |s.installs| <= i < |s'.installs| ==> s.epoch <= s'.installs[i].failed
    decreases |steps|
  {
    if steps != [] {
      var s1 := Apply(s, steps[0]).value;
      StepInv(s, steps[0], s1);
      StepGrows(s, steps[0], s1);
      RunGrows(s1, steps[1..]);
    }
  }

  lemma StepGrows(s: State, st: Step, s': State)
    requires Inv(s) && Apply(s, st) == Some(s')
    ensures s.epoch <= s'.epoch && s.installs <= s'.installs && |s'.installs| <= |s.installs| + 1
    ensures |s'.installs| > |s.installs| ==> s'.installs[|s.installs|].failed == s.epoch
    ensures |s'.installs| == |s.installs| ==> s'.epoch == s.epoch
  {
    hide Chain;
    if Whose(st).Some? { assert ThreadOk(s, Whose(st).value); }
  }

  /** A thread whose epoch was superseded, at any moment before its check and by any
      number of installations, never re-bootstraps for it: from then on, whoever boots or
      installs does so from the epoch of that very moment, which is later. */
  lemma LoserNeverBoots(threads: nat, epoch: nat, owned: set<nat>, before: seq<Step>, after: seq<Step>, failed: nat)
    requires Run(Init(threads, epoch, owned), before).Some?
    requires Run(Run(Init(threads, epoch, owned), before).value, after).Some?
    requires failed < Run(Init(threads, epoch, owned), before).value.epoch
    ensures var s := Run(Init(threads, epoch, owned), before).value;
      var s' := Run(s, after).value;
      && (forall t :: 0 <= t < |s'.threads| && (s'.threads[t].Booting? || s'.threads[t].Installing?) ==>
            s'.threads[t].failed == s'.epoch > failed)
      && (forall i :: |s.installs| <= i < |s'.installs| ==> s'.installs[i].failed > failed)
  {
    hide Run;
    InitInv(threads, epoch, owned);
    RunInv(Init(threads, epoch, owned), before);
    var s := Run(Init(threads, epoch, owned), before).value;
    RunInv(s, after);
    RunGrows(s, after);
    var s' := Run(s, after).value;
    forall t | 0 <= t < |s'.threads| && (s'.threads[t].Booting? || s'.threads[t].Installing?)
      ensures s'.threads[t].failed == s'.epoch > failed
    {
      assert ThreadOk(s', t);
    }
  }

  // ---- what is re-established -------------------------------------------

  /** The transport is not swapped. */
  predicate NoSwap(steps: seq<Step>) {
    forall st :: st in steps ==> !st.Swap?
  }

  /** Step `j` registers, or replays `x`, and no swap comes after. */
  predicate RegistersAt(steps: seq<Step>, j: nat) {
    j < |steps| && steps[j].Register? && steps[j].ok && NoSwap(steps[j + 1..])
  }

  predicate ReplaysAt(steps: seq<Step>, j: nat, x: nat) {
    j < |steps| && steps[j].Replay? && steps[j].x == x && steps[j].ok && NoSwap(steps[j + 1..])
  }

  /** After any run the connection is registered if and only if a registration has
      succeeded since the last swap, and a registration of its own is re-established if and
      only if its replay has; or nothing was swapped, and it was so before. */
  lemma {:induction false} BoundExactlyByReplays(s: State, steps: seq<Step>, x: nat)
    requires Run(s, steps).Some?
    ensures Run(s, steps).value.registered <==> (exists j :: RegistersAt(steps, j)) || (s.registered && NoSwap(steps))
    ensures x in Run(s, steps).value.bound <==> (exists j :: ReplaysAt(steps, j, x)) || (x in s.bound && NoSwap(steps))
    decreases |steps|
  {
    if steps != [] {
      var s1, rest := Apply(s, steps[0]).value, steps[1..];
      BoundExactlyByReplays(s1, rest, x);
      StepBinds(s, steps[0], s1, x);
      hide Apply, Run;
      assert steps == [steps[0]] + rest;
      assert NoSwap(steps) <==> !steps[0].Swap? && NoSwap(rest);
      FirstOrLater(steps, x);
    }
  }

  lemma StepBinds(s: State, st: Step, s': State, x: nat)
    requires Apply(s, st) == Some(s')
    ensures s'.registered <==> (st.Register? && st.ok) || (s.registered && !st.Swap?)
    ensures x in s'.bound <==> (st.Replay? && st.x == x && st.ok) || (x in s.bound && !st.Swap?)
  {}

  lemma FirstOrLater(steps: seq<Step>, x: nat)
    requires steps != []
    ensures (exists j :: RegistersAt(steps, j)) <==>
      RegistersAt(steps, 0) || exists j :: RegistersAt(steps[1..], j)
    ensures (exists j :: ReplaysAt(steps, j, x)) <==> ReplaysAt(steps, 0, x) || exists j :: ReplaysAt(steps[1..], j, x)
  {
    var rest := steps[1..];
    forall j: nat | RegistersAt(rest, j) ensures RegistersAt(steps, j + 1) { assert steps[j + 2..] == rest[j + 1..]; }
    forall j: nat | ReplaysAt(rest, j, x) ensures ReplaysAt(steps, j + 1, x) { assert steps[j + 2..] == rest[j + 1..]; }
    forall j: nat | RegistersAt(steps, j) && j > 0 ensures RegistersAt(rest, j - 1) { assert steps[j + 1..] == rest[j..]; }
    forall j: nat | ReplaysAt(steps, j, x) && j > 0 ensures ReplaysAt(rest, j - 1, x) { assert steps[j + 1..] == rest[j..]; }
  }

  /** Some step has the thread's bootstrap succeed. */
  predicate Boots(steps: seq<Step>, t: nat) {
    exists j: nat :: j < |steps| && steps[j] == Boot(t, true)
  }

  /** Who has a transport to install has bootstrapped it, and so has whoever installed one. */
  lemma {:induction false} InstallsWereBooted(s: State, steps: seq<Step>)
    requires Run(s, steps).Some?
    ensures var s' := Run(s, steps).value;
      && |s'.threads| == |s.threads| && s.installs <= s'.installs
      && (forall t :: 0 <= t < |s'.threads| && s'.threads[t].Installing? ==> s.threads[t].Installing? || Boots(steps, t))
      && (forall i :: |s.installs| <= i < |s'.installs| ==>
            var t := s'.installs[i].thread;
            t < |s.threads| && (s.threads[t].Installing? || Boots(steps, t)))
    decreases |steps|
  {
    if steps != [] {
      var s1, rest := Apply(s, steps[0]).value, steps[1..];
      BootStep(s, steps[0], s1);
      InstallsWereBooted(s1, rest);
      hide Apply, Run;
      forall t: nat | Boots(rest, t) ensures Boots(steps, t) {
        var j: nat :| j < |rest| && rest[j] == Boot(t, true);
        assert steps[j + 1] == Boot(t, true);
      }
      forall t: nat | steps[0] == Boot(t, true) ensures Boots(steps, t) {}
    }
  }

  lemma BootStep(s: State, st: Step, s': State)
    requires Apply(s, st) == Some(s')
    ensures |s'.threads| == |s.threads| && s.installs <= s'.installs && |s'.installs| <= |s.installs| + 1
    ensures forall t: nat :: t < |s.threads| && s'.threads[t].Installing? ==> s.threads[t].Installing? || st == Boot(t, true)
    ensures |s'.installs| > |s.installs| ==>
      var t := s'.installs[|s.installs|].thread; t < |s.threads| && s.threads[t].Installing?
  {}

  // ---- a failed replay is not retried -----------------------------------

  /** The connection is on the live broker's epoch, and whoever still means to reconnect
      means to get away from another one. */
  ghost predicate Settled(s: State) {
    && s.epoch == s.live
    && forall t :: 0 <= t < |s.threads| ==>
         match s.threads[t]
         case Idle => true
         case Observed(_) => true
         case Wanting(e) => e != s.epoch
         case Checking(e) => e != s.epoch
         case _ => false
  }

  lemma SettledStep(s: State, st: Step, s': State)
    requires Settled(s) && Apply(s, st) == Some(s') && !st.Restart?
    ensures Settled(s') && s'.registered == s.registered && s'.bound == s.bound && s'.epoch == s.epoch
  {}

  /** The watcher does not retry a replay or a registration that failed: once the
      connection is on the live epoch, nothing changes what it has re-established until
      the broker restarts again. */
  lemma {:induction false} FailedReplayIsNotRetried(s: State, steps: seq<Step>)
    requires Settled(s) && Run(s, steps).Some? && forall i :: 0 <= i < |steps| ==> !steps[i].Restart?
    ensures var s' := Run(s, steps).value;
      s'.registered == s.registered && s'.bound == s.bound && s'.epoch == s.epoch
    decreases |steps|
  {
    if steps != [] {
      var s' := Apply(s, steps[0]).value;
      SettledStep(s, steps[0], s');
      FailedReplayIsNotRetried(s', steps[1..]);
    }
  }

  // ---- every replay is tried --------------------------------------------

  /** The thread has replayed `x`, with whatever success, since the last swap. */
  ghost predicate Tried(steps: seq<Step>, t: nat, x: nat) {
    exists k: nat :: k < |steps| && steps[k].Replay? && steps[k].t == t && steps[k].x == x && NoSwap(steps[k + 1..])
  }

  ghost predicate TriedSoFar(s: State, steps: seq<Step>) {
    forall t, x :: 0 <= t < |s.threads| && s.threads[t].Replaying? && x in s.owned && x !in s.threads[t].todo ==>
      Tried(steps, t, x)
  }

  lemma TriedStill(steps: seq<Step>, st: Step, t: nat, x: nat)
    requires Tried(steps, t, x) && !st.Swap?
    ensures Tried(steps + [st], t, x)
  {
    var k: nat :| k < |steps| && steps[k].Replay? && steps[k].t == t && steps[k].x == x && NoSwap(steps[k + 1..]);
    var all := steps + [st];
    assert all[k] == steps[k] && all[k + 1..] == steps[k + 1..] + [st];
    assert NoSwap(all[k + 1..]);
  }

  lemma TriedNow(steps: seq<Step>, t: nat, x: nat, ok: bool)
    ensures Tried(steps + [Replay(t, x, ok)], t, x)
  {
    var all := steps + [Replay(t, x, ok)];
    assert all[|steps|] == Replay(t, x, ok) && all[|steps| + 1..] == [];
  }

  lemma StepTries(s: State, steps: seq<Step>, st: Step, s': State)
    requires Inv(s) && TriedSoFar(s, steps) && Apply(s, st) == Some(s')
    ensures TriedSoFar(s', steps + [st])
  {
    forall t, x | 0 <= t < |s'.threads| && s'.threads[t].Replaying? && x in s'.owned && x !in s'.threads[t].todo
      ensures Tried(steps + [st], t, x)
    {
      assert ThreadOk(s, t) && (Whose(st).Some? ==> ThreadOk(s, Whose(st).value));
      if s.threads[t].Replaying? && x !in s.threads[t].todo {
        TriedStill(steps, st, t, x);
      } else {
        assert st.Replay? && st.t == t && st.x == x;
        TriedNow(steps, t, x, st.ok);
      }
    }
  }

  lemma {:induction false} ReplaysSoFar(s: State, steps: seq<Step>)
    requires Inv(s) && TriedSoFar(s, []) && Run(s, steps).Some?
    ensures TriedSoFar(Run(s, steps).value, steps)
    decreases |steps|
  {
    if steps != [] {
      var before, st := steps[..|steps| - 1], steps[|steps| - 1];
      assert steps == before + [st];
      RunsBefore(s, before, st);
      ReplaysSoFar(s, before);
      RunInv(s, before);
      var s1 := Run(s, before).value;
      hide Run, Inv, TriedSoFar, Apply;
      StepTries(s1, before, st, Run(s, steps).value);
    }
  }

  lemma {:induction false} RunsBefore(s: State, before: seq<Step>, st: Step)
    requires Run(s, before + [st]).Some?
    ensures Run(s, before).Some? && Apply(Run(s, before).value, st) == Run(s, before + [st])
    decreases |before|
  {
    hide Apply;
    if before != [] {
      assert (before + [st])[1..] == before[1..] + [st];
      RunsBefore(Apply(s, before[0]).value, before[1..], st);
    } else {
      assert [st][1..] == [];
    }
  }

  /** A thread that finishes its replay has tried every registration of the connection
      since the swap. */
  lemma FinishedReplayTriedAll(threads: nat, epoch: nat, owned: set<nat>, steps: seq<Step>, t: nat, x: nat)
    requires Run(Init(threads, epoch, owned), steps + [Finish(t)]).Some? && x in owned
    ensures Tried(steps, t, x)
  {
    var s := Init(threads, epoch, owned);
    InitInv(threads, epoch, owned);
    RunsBefore(s, steps, Finish(t));
    ReplaysSoFar(s, steps);
    OwnedStays(s, steps);
    hide Run, Inv;
  }

  lemma {:induction false} OwnedStays(s: State, steps: seq<Step>)
    requires Run(s, steps).Some?
    ensures Run(s, steps).value.owned == s.owned
    decreases |steps|
  {
    if steps != [] { OwnedStays(Apply(s, steps[0]).value, steps[1..]); }
  }

  // ---- but a restart has it retried -------------------------------------

  lemma {:induction false} RunBoth(s: State, a: seq<Step>, b: seq<Step>)
    requires Run(s, a).Some?
    ensures Run(s, a + b) == Run(Run(s, a).value, b)
    decreases |a|
  {
    hide Apply;
    if a == [] {
      assert a + b == b;
    } else {
      assert (a + b)[1..] == a[1..] + b;
      RunBoth(Apply(s, a[0]).value, a[1..], b);
    }
  }

  lemma OneStep(s: State, st: Step)
    requires Apply(s, st).Some?
    ensures Run(s, [st]) == Apply(s, st)
  {
    assert Run(Apply(s, st).value, [st][1..]) == Apply(s, st);
  }

  lemma RunThen(s: State, a: seq<Step>, st: Step)
    requires Run(s, a).Some? && Apply(Run(s, a).value, st).Some?
    ensures Run(s, a + [st]) == Apply(Run(s, a).value, st)
  {
    RunBoth(s, a, [st]);
    OneStep(Run(s, a).value, st);
  }

  /** In a settled state whoever has the mutex can leave it, and any thread can come to rest. */
  lemma ComesToRest(s: State, t: nat) returns (steps: seq<Step>)
    requires Inv(s) && Settled(s) && t < |s.threads|
    ensures forall st :: st in steps ==> !st.Restart?
    ensures Run(s, steps).Some?
    ensures var r := Run(s, steps).value;
      Inv(r) && Settled(r) && |r.threads| == |s.threads| && r.mutex == None && r.threads[t] == Idle
      && r.owned == s.owned && r.live == s.live == r.epoch
  {
    hide Run, Chain;
    var s1 := s;
    steps := [];
    EmptyRun(s);
    if s.mutex.Some? {
      var u := s.mutex.value;
      assert ThreadOk(s, u);
      steps, s1 := Then(s, steps, s1, Check(u));
    }
    assert ThreadOk(s1, t);
    match s1.threads[t]
    case Idle =>
    case Observed(_) =>
      steps, s1 := Then(s, steps, s1, Probe(t, false));
    case Wanting(_) =>
      steps, s1 := Then(s, steps, s1, Acquire(t));
      assert ThreadOk(s1, t);
      steps, s1 := Then(s, steps, s1, Check(t));
  }

  lemma EmptyRun(s: State)
    ensures Run(s, []) == Some(s)
  {}

  /** One more step of a run. */
  lemma Then(s: State, steps: seq<Step>, s1: State, st: Step) returns (more: seq<Step>, s2: State)
    requires Run(s, steps) == Some(s1) && Apply(s1, st).Some?
    ensures more == steps + [st] && Apply(s1, st) == Some(s2) && Run(s, more) == Some(s2)
    ensures Inv(s1) ==> Inv(s2)
  {
    RunThen(s, steps, st);
    more, s2 := steps + [st], Apply(s1, st).value;
    hide Inv;
    if Inv(s1) { StepInv(s1, st, s2); }
  }

  /** Without a restart among the steps. */
  predicate Calm(steps: seq<Step>) {
    forall st :: st in steps ==> !st.Restart?
  }

  lemma SettledWhenFree(s: State)
    requires Inv(s) && s.epoch == s.live && s.mutex == None
    ensures Settled(s)
  {
    forall t | 0 <= t < |s.threads|
      ensures !Holds(s.threads[t]) && (s.threads[t].Wanting? ==> s.threads[t].failed != s.epoch)
    {
      assert ThreadOk(s, t);
    }
  }

  /** A replay whose every call succeeds binds all there is to bind, and lets go. */
  lemma {:induction false} ReplaysAll(s: State, t: nat, todo: set<nat>) returns (steps: seq<Step>)
    requires Inv(s) && t < |s.threads| && s.threads[t] == Replaying(todo) && s.bound == s.owned - todo && todo <= s.owned
    ensures Calm(steps) && Run(s, steps).Some?
    ensures var r := Run(s, steps).value;
      Inv(r) && r.mutex == None && r.bound == s.owned == r.owned && r.registered == s.registered
      && r.epoch == s.epoch && r.live == s.live
    decreases todo
  {
    hide Run, Inv;
    if todo == {} {
      EmptyRun(s);
      var r;
      steps, r := Then(s, [], s, Finish(t));
    } else {
      var x :| x in todo;
      var s1 := Apply(s, Replay(t, x, true)).value;
      StepInv(s, Replay(t, x, true), s1);
      assert s1.bound == s1.owned - (todo - {x});
      var rest := ReplaysAll(s1, t, todo - {x});
      OneStep(s, Replay(t, x, true));
      RunBoth(s, [Replay(t, x, true)], rest);
      steps := [Replay(t, x, true)] + rest;
    }
  }

  /** From rest, with the broker restarted, a thread goes all the way to its replay. */
  lemma GetsToReplay(s: State, t: nat) returns (steps: seq<Step>)
    requires Inv(s) && t < |s.threads| && s.threads[t] == Observed(s.epoch) && s.mutex == None && s.epoch != s.live
    ensures Calm(steps) && Run(s, steps).Some?
    ensures var r := Run(s, steps).value;
      Inv(r) && |r.threads| == |s.threads| && r.threads[t] == Replaying(s.owned) && r.owned == s.owned
      && r.bound == {} && r.registered && r.epoch == r.live == s.live
  {
    hide Run, Inv;
    EmptyRun(s);
    var s1;
    steps, s1 := Then(s, [], s, Probe(t, true));
    steps, s1 := Then(s, steps, s1, Acquire(t));
    steps, s1 := Then(s, steps, s1, Check(t));
    steps, s1 := Then(s, steps, s1, Boot(t, true));
    steps, s1 := Then(s, steps, s1, Swap(t));
    steps, s1 := Then(s, steps, s1, Register(t, true));
  }

  /** One restart is enough: from wherever a connection has settled, whatever it failed to
      register or to replay, a run with one restart in it re-establishes everything. */
  lemma RestartRebinds(s: State, t: nat, epoch: nat) returns (before: seq<Step>, after: seq<Step>)
    requires Inv(s) && Settled(s) && t < |s.threads| && epoch > s.live
    ensures Calm(before) && Calm(after)
    ensures var r := Run(s, before + [Restart(epoch)] + after);
      && r.Some? && Settled(r.value) && r.value.epoch == epoch
      && r.value.registered && r.value.bound == r.value.owned == s.owned
  {
    hide Run, Inv, Settled;
    before := ComesToRest(s, t);
    var s1 := Run(s, before).value;
    before, s1 := Then(s, before, s1, Observe(t));
    var steps, s2 := Then(s, before, s1, Restart(epoch));
    var up := GetsToReplay(s2, t);
    var s3 := Run(s2, up).value;
    var on := ReplaysAll(s3, t, s.owned);
    after := up + on;
    RunBoth(s2, up, on);
    RunBoth(s, steps, after);
    SettledWhenFree(Run(s3, on).value);
  }

  /** A connection of one thread and one registration, numbered 7, after a restart. */
  function Alone(x: Thread, locked: bool, epoch: nat, registered: bool, bound: set<nat>): State {
    State(1, epoch, if locked then Some(0) else None, [x], {7}, registered, bound, 0,
          if epoch == 0 then [] else [Install(0, 0, 1)])
  }

  const STEPS: seq<Step> :=
    [Observe(0), Probe(0, true), Acquire(0), Check(0), Boot(0, true), Swap(0), Register(0, true), Replay(0, 7, false),
     Finish(0)]

  const STATES: seq<State> :=
    [Alone(Idle, false, 0, true, {7}), Alone(Observed(0), false, 0, true, {7}), Alone(Wanting(0), false, 0, true, {7}),
     Alone(Checking(0), true, 0, true, {7}), Alone(Booting(0), true, 0, true, {7}),
     Alone(Installing(0, 1), true, 0, true, {7}), Alone(Registering, true, 1, false, {}),
     Alone(Replaying({7}), true, 1, true, {}), Alone(Replaying({}), true, 1, true, {}), Alone(Idle, false, 1, true, {})]

  lemma BeforeSwap(i: nat)
    requires i < 5
    ensures Apply(STATES[i], STEPS[i]) == Some(STATES[i + 1])
  {
    assert forall a: Thread, b: Thread :: [a][0 := b] == [b];
  }

  lemma FromSwap(i: nat)
    requires 5 <= i < 9
    ensures Apply(STATES[i], STEPS[i]) == Some(STATES[i + 1])
  {
    assert forall a: Thread, b: Thread :: [a][0 := b] == [b];
    assert [] + [Install(0, 0, 1)] == [Install(0, 0, 1)];
    assert {7} - {7} == {};
  }

  /** A run goes where its steps lead. */
  lemma {:induction false} Leads(states: seq<State>, steps: seq<Step>)
    requires |states| == |steps| + 1
    requires forall i :: 0 <= i < |steps| ==> Apply(states[i], steps[i]) == Some(states[i + 1])
    ensures Run(states[0], steps) == Some(states[|steps|])
    decreases |steps|
  {
    hide Apply;
    if steps != [] {
      assert forall i :: 0 <= i < |steps[1..]| ==> steps[1..][i] == steps[i + 1] && states[1..][i] == states[i + 1];
      Leads(states[1..], steps[1..]);
    }
  }

  /** And it does happen: one restart, one registration whose replay fails. */
  lemma ReplayCanFail()
    ensures exists s, steps :: s == Init(1, 0, {7}).(live := 1) && var r := Run(s, steps);
      r.Some? && Settled(r.value) && r.value.registered && r.value.owned == {7} && r.value.bound == {}
  {
    forall i | 0 <= i < |STEPS| ensures Apply(STATES[i], STEPS[i]) == Some(STATES[i + 1]) {
      if i < 5 { BeforeSwap(i); } else { FromSwap(i); }
    }
    Leads(STATES, STEPS);
    assert Init(1, 0, {7}).threads == [Idle];
    assert STATES[0] == Init(1, 0, {7}).(live := 1);
    hide Run, Apply;
    assert Settled(STATES[9]);
  }
}
