/** Control round-trips on the pending map: a reply that has come reaches its waiter, and
    one that has been given up is never pending again. */
module RpcControl {
  import opened Records
  import opened RpcMachine
  import opened RpcTheorems
  import opened RpcPresence
  import opened RpcProgress

  function Reply(k: int): Frame { Stray(Some(k)) }

  /** How many frames are ahead of the first reply to `k`. */
  function AheadOfReply(q: seq<Frame>, k: int): (n: nat)
    ensures n <= |q|
  {
    if q == [] || q[0] == Reply(k) then 0 else 1 + AheadOfReply(q[1..], k)
  }

  /** The reply has come, as far as somewhere between the connection's ring and its waiter,
      who still waits. */
  ghost predicate HasCome(s: State, c: nat, k: int) {
    && c < |s.conns| && k in s.ctl.strays && s.conns[c].ring < |s.rings|
    && var x := s.conns[c];
    || k in s.ctl.heard
    || x.disp == Completing(Reply(k), k)
    || (k in x.pending && (x.disp == Routing(Reply(k)) || Reply(k) in s.rings[x.ring]))
  }

  function ReplyRank(s: State, c: nat, k: int): nat
    requires c < |s.conns| && s.conns[c].ring < |s.rings|
  {
    var x := s.conns[c];
    if k in s.ctl.heard then 1
    else if x.disp == Completing(Reply(k), k) then 2
    else if x.disp == Routing(Reply(k)) then 3
    else 4 * AheadOfReply(s.rings[x.ring], k) + DispatcherRank(x.disp, x.ring)
  }

  /** One step nearer to the waiter's being told. */
  ghost predicate ReplyNearer(s: State, s': State, c: nat, k: int)
    requires HasCome(s, c, k)
  {
    (k in s'.ctl.told && s'.ctl.told[k] == Reply(k)) || (HasCome(s', c, k) && ReplyRank(s', c, k) < ReplyRank(s, c, k))
  }

  lemma HeardNearer(svcs: seq<Service>, s: State, c: nat, k: int) returns (st: Step, s': State)
    requires Sound(svcs, s) && HasCome(s, c, k) && k in s.ctl.heard
    ensures Apply(svcs, s, st) == Some(s') && ReplyNearer(s, s', c, k)
  {
    OwnFrames(svcs, s);
    hide Sound;
    st := Hear(k);
    s' := Apply(svcs, s, st).value;
  }

  lemma WatchingNearer(svcs: seq<Service>, s: State, c: nat, k: int) returns (st: Step, s': State)
    requires Sound(svcs, s) && HasCome(s, c, k) && k !in s.ctl.heard && s.conns[c].disp.Watching?
    ensures Apply(svcs, s, st) == Some(s') && ReplyNearer(s, s', c, k)
  {
    assert s.conns[c].disp.ring < |s.rings|;
    hide Sound, RouteStep, CompleteStep;
    st, s' := PopReply(c), PopStep(s, c).value;
    PopWhole(s, c, s');
    hide PopStep;
  }

  lemma TurningNearer(svcs: seq<Service>, s: State, c: nat, k: int) returns (st: Step, s': State)
    requires Sound(svcs, s) && HasCome(s, c, k) && k !in s.ctl.heard
    requires s.conns[c].disp.Resting? || s.conns[c].disp.Completing?
    ensures Apply(svcs, s, st) == Some(s') && ReplyNearer(s, s', c, k)
  {
    ConnFacts(svcs, s, c);
    hide Sound, LogsOk, OwnResponse;
    st := if s.conns[c].disp.Resting? then Watch(c) else Complete(c);
    s' := Apply(svcs, s, st).value;
  }

  lemma RoutingNearer(svcs: seq<Service>, s: State, c: nat, k: int) returns (st: Step, s': State)
    requires Sound(svcs, s) && HasCome(s, c, k) && k !in s.ctl.heard && s.conns[c].disp.Routing?
    ensures Apply(svcs, s, st) == Some(s') && ReplyNearer(s, s', c, k)
  {
    NoCallsReply(svcs, s, c, k);
    hide Sound;
    st, s' := Route(c), RouteStep(s, c).value;
    RouteShape(s, c, s');
    hide RouteStep;
  }

  /** A response is about a call, and `k` is none. */
  lemma NoCallsReply(svcs: seq<Service>, s: State, c: nat, k: int)
    requires Inv(svcs, s) && c < |s.conns| && s.conns[c].disp.Routing? && k in s.ctl.strays
    ensures About(s.conns[c].disp.frame) == Some(k) ==> s.conns[c].disp.frame == Reply(k)
  {
    ConnFacts(svcs, s, c);
    if s.conns[c].disp.frame.Answer? { assert s.conns[c].disp.frame.resp.corr in s.calls; }
  }

  lemma ReplyGoesOn(svcs: seq<Service>, s: State, c: nat, k: int) returns (st: Step, s': State)
    requires Sound(svcs, s) && HasCome(s, c, k)
    ensures Apply(svcs, s, st) == Some(s') && ReplyNearer(s, s', c, k)
  {
    hide Sound, ReplyNearer, Apply;
    var d := s.conns[c].disp;
    if k in s.ctl.heard { st, s' := HeardNearer(svcs, s, c, k); }
    else if d.Watching? { st, s' := WatchingNearer(svcs, s, c, k); }
    else if d.Routing? { st, s' := RoutingNearer(svcs, s, c, k); }
    else { st, s' := TurningNearer(svcs, s, c, k); }
  }

  ghost predicate ToldBy(svcs: seq<Service>, conns: nat, steps: seq<Step>, more: seq<Step>, k: int) {
    && Run(svcs, conns, steps + more).Some?
    && k in Run(svcs, conns, steps + more).value.ctl.told
    && Run(svcs, conns, steps + more).value.ctl.told[k] == Reply(k)
  }

  lemma {:induction false} IsTold(svcs: seq<Service>, conns: nat, steps: seq<Step>, c: nat, k: int)
    returns (more: seq<Step>)
    requires Run(svcs, conns, steps).Some? && HasCome(Run(svcs, conns, steps).value, c, k)
    ensures ToldBy(svcs, conns, steps, more, k)
    decreases ReplyRank(Run(svcs, conns, steps).value, c, k)
  {
    hide Run, Apply, Sound, ReplyRank;
    var s := Run(svcs, conns, steps).value;
    RunIsSound(svcs, conns, steps);
    var st, s' := ReplyGoesOn(svcs, s, c, k);
    RunMore(svcs, conns, steps, st);
    if k in s'.ctl.told && s'.ctl.told[k] == Reply(k) {
      more := [st];
    } else {
      var rest := IsTold(svcs, conns, steps + [st], c, k);
      more := [st] + rest;
      assert steps + more == steps + [st] + rest;
    }
  }

  /** From any state of any run, a control round-trip whose reply has come to its
      connection's ring, while it still waits, can be told that reply. */
  lemma ReplyReachesItsWaiter(svcs: seq<Service>, conns: nat, steps: seq<Step>, c: nat, k: int)
    requires Run(svcs, conns, steps).Some? && HasCome(Run(svcs, conns, steps).value, c, k)
    ensures exists more :: ToldBy(svcs, conns, steps, more, k)
  {
    var more := IsTold(svcs, conns, steps, c, k);
  }

  // ---- given up ---------------------------------------------------------

  lemma NotAskedAgain(svcs: seq<Service>, s: State, st: Step, s': State, c: nat, k: int)
    requires Apply(svcs, s, st) == Some(s') && k in s.ctl.strays && c < |s.conns| && k !in s.conns[c].pending
    ensures k in s'.ctl.strays && c < |s'.conns| && k !in s'.conns[c].pending
  {
    hide ServiceStep, DispatcherStep, DecodeResponse;
    if ServiceStep(svcs, s, st) == Some(s') {
      ServiceShape(svcs, s, st, s');
      ServiceLeavesControl(svcs, s, st, s');
    } else if DispatcherStep(s, st) == Some(s') {
      DispatcherTakes(s, st, s');
    }
  }

  lemma ServiceLeavesControl(svcs: seq<Service>, s: State, st: Step, s': State)
    requires ServiceStep(svcs, s, st) == Some(s')
    ensures s'.ctl == s.ctl
  {
    hide HandleOne;
  }

  lemma DispatcherTakes(s: State, st: Step, s': State)
    requires DispatcherStep(s, st) == Some(s')
    ensures s'.ctl.strays == s.ctl.strays && |s'.conns| == |s.conns|
    ensures forall c :: 0 <= c < |s.conns| ==> s'.conns[c].pending <= s.conns[c].pending
  {
    hide PopStep, RouteStep, CompleteStep;
    match st
    case Watch(_) =>
    case PopReply(c) => PopWhole(s, c, s');
    case Route(c) => RouteShape(s, c, s');
    case Complete(c) => CompleteTakes(s, c, s');
  }

  lemma CompleteTakes(s: State, c: nat, s': State)
    requires CompleteStep(s, c) == Some(s')
    ensures s'.ctl.strays == s.ctl.strays && |s'.conns| == |s.conns|
    ensures forall d :: 0 <= d < |s.conns| ==> s'.conns[d].pending == s.conns[d].pending
  {}

  /** In every run, a control round-trip that was given up is never pending on its
      connection again. */
  lemma {:induction false} GivenUpForGood(
    svcs: seq<Service>, conns: nat, before: seq<Step>, c: nat, k: int, after: seq<Step>)
    requires Run(svcs, conns, before + [GiveUp(c, k)] + after).Some?
    ensures var s := Run(svcs, conns, before + [GiveUp(c, k)] + after).value;
      k in s.ctl.strays && c < |s.conns| && k !in s.conns[c].pending
    decreases |after|
  {
    var steps := before + [GiveUp(c, k)] + after;
    var n := |steps| - 1;
    if after == [] {
      assert steps == before + [GiveUp(c, k)] && steps[..n] == before;
    } else {
      var most := after[..|after| - 1];
      assert steps[..n] == before + [GiveUp(c, k)] + most;
      hide Apply;
      GivenUpForGood(svcs, conns, before, c, k, most);
      NotAskedAgain(svcs, Run(svcs, conns, steps[..n]).value, steps[n], Run(svcs, conns, steps).value, c, k);
    }
  }
}
