/** A call comes to its end: the ring its request names is its own connection's, and from
    wherever its request or its response is, unless that has been lost or the call's slot
    is no longer waited on, some schedule resolves it to what its own request calls for. */
module RpcProgress {
  import opened Records
  import opened RpcMachine
  import opened RpcTheorems
  import opened RpcPresence

  // ---- whose the rings are ----------------------------------------------

  /** Connections have rings of their own, and a request names its own connection's. */
  ghost predicate OwnRings(s: State) {
    && (forall c :: 0 <= c < |s.conns| ==>
          s.conns[c].ring < |s.rings| && (s.conns[c].disp.Watching? ==> s.conns[c].disp.ring < |s.rings|))
    && (forall c, d :: 0 <= c < d < |s.conns| ==> s.conns[c].ring != s.conns[d].ring)
    && (forall k :: k in s.reqs ==>
          && k in s.calls && s.reqs[k].replyTo < |s.rings|
          && forall c :: 0 <= c < |s.conns| && s.conns[c].ring == s.reqs[k].replyTo ==> c == s.calls[k].conn)
  }

  /** A step that changes no connection's ring, and builds no request. */
  lemma RingsKept(s: State, s': State)
    requires OwnRings(s) && |s'.conns| == |s.conns| && |s'.rings| >= |s.rings| && s'.reqs == s.reqs
    requires forall c :: 0 <= c < |s.conns| ==>
      s'.conns[c].ring == s.conns[c].ring
      && (s'.conns[c].disp == s.conns[c].disp || (s'.conns[c].disp.Watching? ==> s'.conns[c].disp.ring == s.conns[c].ring))
    requires forall k :: k in s.calls ==> k in s'.calls && s'.calls[k] == s.calls[k]
    ensures OwnRings(s')
  {}

  lemma BuildRings(svcs: seq<Service>, s: State, k: int, s': State)
    requires OwnRings(s) && CallStep(s, Build(k)) == Some(s')
    ensures OwnRings(s')
  {}

  lemma SwapRings(s: State, c: nat, s': State)
    requires OwnRings(s) && WorldStep(s, SwapTransport(c)) == Some(s')
    ensures OwnRings(s')
  {}

  lemma CallRings(s: State, st: Step, s': State)
    requires OwnRings(s) && (CallStep(s, st) == Some(s') || FutureStep(s, st) == Some(s')) && !st.Build?
    ensures OwnRings(s')
  {
    hide OwnRings, DecodeResponse;
    RingsKept(s, s');
  }

  /** What a dispatcher's step leaves alone. */
  ghost predicate DispatcherKeeps(s: State, s': State) {
    && s'.reqs == s.reqs && s'.calls == s.calls && |s'.rings| == |s.rings| && |s'.conns| == |s.conns|
    && forall c :: 0 <= c < |s.conns| ==>
      s'.conns[c].ring == s.conns[c].ring
      && (s'.conns[c].disp == s.conns[c].disp || (s'.conns[c].disp.Watching? ==> s'.conns[c].disp.ring == s.conns[c].ring))
  }

  lemma WatchKeeps(s: State, c: nat, s': State)
    requires DispatcherStep(s, Watch(c)) == Some(s')
    ensures DispatcherKeeps(s, s')
  {}

  lemma CompleteKeeps(s: State, c: nat, s': State)
    requires CompleteStep(s, c) == Some(s')
    ensures DispatcherKeeps(s, s')
  {}

  lemma DispatcherShape(s: State, st: Step, s': State)
    requires DispatcherStep(s, st) == Some(s')
    ensures DispatcherKeeps(s, s')
  {
    hide PopStep, RouteStep, CompleteStep;
    match st
    case Watch(c) => WatchKeeps(s, c, s');
    case PopReply(c) => PopWhole(s, c, s');
    case Route(c) => RouteShape(s, c, s');
    case Complete(c) => CompleteKeeps(s, c, s');
  }

  lemma DispatcherRings(s: State, st: Step, s': State)
    requires OwnRings(s) && DispatcherStep(s, st) == Some(s')
    ensures OwnRings(s')
  {
    hide OwnRings, DispatcherStep;
    DispatcherShape(s, st, s');
    RingsKept(s, s');
  }

  lemma RestRings(s: State, st: Step, s': State)
    requires OwnRings(s) && (ControlStep(s, st) == Some(s') || (WorldStep(s, st) == Some(s') && !st.SwapTransport?))
    ensures OwnRings(s')
  {
    hide OwnRings;
    RingsKept(s, s');
  }

  lemma StepRings(svcs: seq<Service>, s: State, st: Step, s': State)
    requires OwnRings(s) && Apply(svcs, s, st) == Some(s')
    ensures OwnRings(s')
  {
    hide OwnRings, CallStep, FutureStep, ServiceStep, DispatcherStep, ControlStep, WorldStep;
    if st.Build? { BuildRings(svcs, s, st.k, s'); }
    else if st.SwapTransport? { SwapRings(s, st.c, s'); }
    else if CallStep(s, st) == Some(s') || FutureStep(s, st) == Some(s') { CallRings(s, st, s'); }
    else if DispatcherStep(s, st) == Some(s') { DispatcherRings(s, st, s'); }
    else if ServiceStep(svcs, s, st) == Some(s') {
      ServiceShape(svcs, s, st, s');
      RingsKept(s, s');
    }
    else { RestRings(s, st, s'); }
  }

  lemma {:induction false} RunRings(svcs: seq<Service>, conns: nat, steps: seq<Step>)
    requires Run(svcs, conns, steps).Some?
    ensures OwnRings(Run(svcs, conns, steps).value)
    decreases |steps|
  {
    hide OwnRings, Apply;
    if steps == [] {
      FirstRings(conns, |svcs|);
    } else {
      RunRings(svcs, conns, steps[..|steps| - 1]);
      StepRings(svcs, Run(svcs, conns, steps[..|steps| - 1]).value, steps[|steps| - 1], Run(svcs, conns, steps).value);
    }
  }

  lemma FirstRings(conns: nat, fns: nat)
    ensures OwnRings(Init(conns, fns))
  {}

  /** The request was built when its connection had that ring. */
  ghost predicate BuiltAt(svcs: seq<Service>, conns: nat, steps: seq<Step>, j: nat, k: int, call: Call, r: Request)
    requires j < |steps|
  {
    steps[j] == Build(k) && Run(svcs, conns, steps[..j]).Some? &&
    var s := Run(svcs, conns, steps[..j]).value;
    k in s.calls && s.calls[k] == call && call.conn < |s.conns|
    && r == Request(k, s.conns[call.conn].ring, call.argFp, call.args)
  }

  /** A step that builds nothing leaves the requests, and the calls there were, alone. */
  lemma NothingBuilt(svcs: seq<Service>, s: State, st: Step, s': State)
    requires Apply(svcs, s, st) == Some(s') && !st.Build?
    ensures s'.reqs == s.reqs && forall k :: k in s.calls ==> k in s'.calls && s'.calls[k] == s.calls[k]
  {
    hide DispatcherStep, ServiceStep, DecodeResponse;
    if DispatcherStep(s, st) == Some(s') { DispatcherShape(s, st, s'); }
    else if ServiceStep(svcs, s, st) == Some(s') { ServiceShape(svcs, s, st, s'); }
  }

  /** Every request was built for its call, in a state of the run in which the ring it
      names was the one its connection had. */
  lemma {:induction false} RequestsNameTheirRings(svcs: seq<Service>, conns: nat, steps: seq<Step>, k: int)
    requires Run(svcs, conns, steps).Some? && k in Run(svcs, conns, steps).value.reqs
    ensures var s := Run(svcs, conns, steps).value;
      k in s.calls && exists j: nat :: j < |steps| && BuiltAt(svcs, conns, steps, j, k, s.calls[k], s.reqs[k])
    decreases |steps|
  {
    hide Apply, OwnRings;
    RunRings(svcs, conns, steps);
    RequestsHaveCalls(Run(svcs, conns, steps).value);
    if steps != [] {
      var n := |steps| - 1;
      var s, s' := Run(svcs, conns, steps[..n]).value, Run(svcs, conns, steps).value;
      RunRings(svcs, conns, steps[..n]);
      if steps[n] == Build(k) {
        BuildsIt(svcs, s, k, s');
        assert BuiltAt(svcs, conns, steps, n, k, s'.calls[k], s'.reqs[k]);
      } else {
        BuildsAnother(svcs, s, steps[n], s', k);
        RequestsNameTheirRings(svcs, conns, steps[..n], k);
        var j: nat :| j < n && BuiltAt(svcs, conns, steps[..n], j, k, s.calls[k], s.reqs[k]);
        assert steps[..n][..j] == steps[..j];
        assert BuiltAt(svcs, conns, steps, j, k, s'.calls[k], s'.reqs[k]);
      }
    }
  }

  lemma RequestsHaveCalls(s: State)
    requires OwnRings(s)
    ensures forall k :: k in s.reqs ==> k in s.calls
  {}

  lemma BuildsIt(svcs: seq<Service>, s: State, k: int, s': State)
    requires Apply(svcs, s, Build(k)) == Some(s')
    ensures k in s.calls && s'.calls == s.calls && s.calls[k].conn < |s.conns| && k in s'.reqs
    ensures s'.reqs[k] == Request(k, s.conns[s.calls[k].conn].ring, s.calls[k].argFp, s.calls[k].args)
  {}

  lemma BuildsAnother(svcs: seq<Service>, s: State, st: Step, s': State, k: int)
    requires Apply(svcs, s, st) == Some(s') && st != Build(k) && k in s'.reqs && OwnRings(s)
    ensures k in s.reqs && s'.reqs[k] == s.reqs[k] && k in s.calls && k in s'.calls && s'.calls[k] == s.calls[k]
  {
    if !st.Build? { NothingBuilt(svcs, s, st, s'); }
    hide ServiceStep, DispatcherStep;
  }

  // ---- how far a call has to go -----------------------------------------

  /** How many are ahead of the call's request, or of its response. */
  function Ahead(q: seq<Request>, k: int): (n: nat)
    ensures n <= |q|
  {
    if q == [] || q[0].corr == k then 0 else 1 + Ahead(q[1..], k)
  }

  function AheadOnRing(q: seq<Frame>, k: int): (n: nat)
    ensures n <= |q|
  {
    if q == [] || IsAnswerTo(q[0], k) then 0 else 1 + AheadOnRing(q[1..], k)
  }

  lemma {:induction false} AheadPushed(q: seq<Request>, r: Request, k: int)
    ensures Ahead(q + [r], k) <= |q| || r.corr != k
    ensures k in Corrs(q) ==> Ahead(q + [r], k) == Ahead(q, k)
  {
    if q != [] {
      assert (q + [r])[1..] == q[1..] + [r];
      AheadPushed(q[1..], r, k);
      CorrsOf(q, r);
    } else {
      assert Corrs(q) == {};
    }
  }

  lemma {:induction false} AheadOnRingPushed(q: seq<Frame>, f: Frame, k: int)
    requires IsAnswerTo(f, k)
    ensures AheadOnRing(q + [f], k) <= |q|
  {
    if q != [] {
      assert (q + [f])[1..] == q[1..] + [f];
      AheadOnRingPushed(q[1..], f, k);
    }
  }

  /** The call is waited for, on the ring its request names, and is on its way. */
  ghost predicate OnItsWay(s: State, k: int) {
    && k in s.calls && k in s.reqs && k in s.loc && k in s.phase && s.phase[k] == Waiting
    && var (call, g) := (s.calls[k], s.reqs[k].replyTo);
    && call.fn < |s.fns| && call.conn < |s.conns| && g < |s.rings| && s.conns[call.conn].ring == g
    && (s.loc[k].Matched? || s.loc[k].InSlot? || k in s.conns[call.conn].pending)
    && match s.loc[k]
       case InRing(r) => r == g
       case AtDispatcher(c) => c == call.conn
       case Matched(c) => c == call.conn
       case InArena(_, _) => true case AtReader(_) => true case InQueue(_) => true
       case AtWorker(_, _) => true case Answered(_, _) => true case InSlot => true
       case _ => false
  }

  predicate SomeFree(ws: seq<Worker>) { exists w :: 0 <= w < |ws| && ws[w] == Free }

  function DispatcherRank(d: Dispatcher, g: nat): nat {
    match d
    case Watching(r) => if r == g then 10 else 14
    case Resting => 11
    case Completing(_, _) => 12
    case Routing(_) => 13
  }

  function CallRank(s: State, k: int): nat
    requires k in s.calls && k in s.reqs && k in s.loc && s.reqs[k].replyTo < |s.rings|
    requires s.calls[k].fn < |s.fns| && s.calls[k].conn < |s.conns|
  {
    var n := 4 * |s.rings[s.reqs[k].replyTo]|;
    var x := s.fns[s.calls[k].fn];
    match s.loc[k]
    case InArena(_, a) =>
      if a >= |x.arenas| then 0
      else n + 40 + 2 * |x.queue| + 4 * Ahead(x.arenas[a], k) + if x.reader.Some? then 3 else 0
    case AtReader(_) => n + 33 + 2 * |x.queue|
    case InQueue(_) => n + 30 + 2 * Ahead(x.queue, k) + if SomeFree(x.workers) then 0 else 1
    case AtWorker(_, _) => n + 22
    case Answered(_, _) => n + 21
    case InRing(g) =>
      4 * AheadOnRing(s.rings[s.reqs[k].replyTo], k) + DispatcherRank(s.conns[s.calls[k].conn].disp, s.reqs[k].replyTo)
    case AtDispatcher(_) => 3
    case Matched(_) => 2
    case InSlot => 1
    case _ => 0
  }

  /** One step nearer to the call's end, or there. */
  ghost predicate Nearer(s: State, s': State, k: int, o: Outcome)
    requires OnItsWay(s, k)
  {
    && k in s'.calls && s'.calls[k] == s.calls[k]
    && (k in s.served ==> k in s'.served && s'.served[k] == s.served[k])
    && (k in s'.served && k !in s.served ==> s'.served[k].outcome == o)
    && k in s'.phase
    && (s'.phase[k].Resolved? || (OnItsWay(s', k) && CallRank(s', k) < CallRank(s, k)))
  }

  /** What the invariants say of a call on its way. */
  ghost predicate Sound(svcs: seq<Service>, s: State) { Inv(svcs, s) && AllPresent(s) && OwnRings(s) }

  lemma ArenaNearer(svcs: seq<Service>, s: State, k: int, o: Outcome) returns (st: Step, s': State)
    requires Sound(svcs, s) && OnItsWay(s, k) && s.loc[k].InArena?
    ensures Apply(svcs, s, st) == Some(s') && Nearer(s, s', k, o)
  {
    var f, a := s.loc[k].fn, s.loc[k].arena;
    assert Present(s, k, s.loc[k]) && AtItsFunction(s, k);
    hide Sound, Corrs;
    if s.fns[f].reader.Some? {
      st := Submit(f);
    } else {
      CorrsOf(s.fns[f].arenas[a], s.reqs[k]);
      st := Read(f, a);
    }
    s' := Apply(svcs, s, st).value;
  }

  lemma ReaderNearer(svcs: seq<Service>, s: State, k: int, o: Outcome) returns (st: Step, s': State)
    requires Sound(svcs, s) && OnItsWay(s, k) && s.loc[k].AtReader?
    ensures Apply(svcs, s, st) == Some(s') && Nearer(s, s', k, o)
  {
    var f := s.loc[k].fn;
    assert Present(s, k, s.loc[k]) && AtItsFunction(s, k);
    hide Sound, Corrs;
    AheadPushed(s.fns[f].queue, s.fns[f].reader.value, k);
    st := Submit(f);
    s' := Apply(svcs, s, st).value;
  }

  lemma QueueNearer(svcs: seq<Service>, s: State, k: int, o: Outcome) returns (st: Step, s': State)
    requires Sound(svcs, s) && OnItsWay(s, k) && s.loc[k].InQueue?
    ensures Apply(svcs, s, st) == Some(s') && Nearer(s, s', k, o)
  {
    var f := s.loc[k].fn;
    assert Present(s, k, s.loc[k]) && AtItsFunction(s, k);
    hide Sound, OnItsWay, Nearer, Apply, Corrs;
    if w :| 0 <= w < |s.fns[f].workers| && s.fns[f].workers[w] == Free {
      st, s' := TakeNearer(svcs, s, k, f, w, o);
    } else {
      st, s' := SpawnNearer(svcs, s, k, f, o);
    }
  }

  lemma TakeNearer(svcs: seq<Service>, s: State, k: int, f: nat, w: nat, o: Outcome) returns (st: Step, s': State)
    requires OnItsWay(s, k) && s.loc[k] == InQueue(f) && f == s.calls[k].fn && k in Corrs(s.fns[f].queue)
    requires w < |s.fns[f].workers| && s.fns[f].workers[w] == Free
    ensures Apply(svcs, s, st) == Some(s') && Nearer(s, s', k, o)
  {
    CorrsOf(s.fns[f].queue, s.reqs[k]);
    hide Corrs;
    st := Take(f, w);
    s' := Apply(svcs, s, st).value;
  }

  lemma SpawnNearer(svcs: seq<Service>, s: State, k: int, f: nat, o: Outcome) returns (st: Step, s': State)
    requires OnItsWay(s, k) && s.loc[k] == InQueue(f) && f == s.calls[k].fn && !SomeFree(s.fns[f].workers)
    ensures Apply(svcs, s, st) == Some(s') && Nearer(s, s', k, o)
  {
    st := Spawn(f);
    s' := Apply(svcs, s, st).value;
    assert s'.fns[f].workers[|s.fns[f].workers|] == Free;
  }

  lemma WorkerNearer(svcs: seq<Service>, s: State, k: int, o: Outcome) returns (st: Step, s': State)
    requires Sound(svcs, s) && OnItsWay(s, k) && s.loc[k].AtWorker?
    ensures Apply(svcs, s, st) == Some(s') && Nearer(s, s', k, o)
  {
    var f, w := s.loc[k].fn, s.loc[k].w;
    assert Present(s, k, s.loc[k]) && AtItsFunction(s, k);
    ServiceFacts(svcs, s, f);
    Unserved(svcs, s, k);
    hide Sound, Corrs, FnOk, LogsOk, HandleOne;
    st := Serve(f, w, o);
    s' := Apply(svcs, s, st).value;
  }

  lemma AnswerNearer(svcs: seq<Service>, s: State, k: int, o: Outcome) returns (st: Step, s': State)
    requires Sound(svcs, s) && OnItsWay(s, k) && s.loc[k].Answered?
    ensures Apply(svcs, s, st) == Some(s') && Nearer(s, s', k, o)
  {
    var f, w := s.loc[k].fn, s.loc[k].w;
    assert Present(s, k, s.loc[k]) && AtItsFunction(s, k);
    ServiceFacts(svcs, s, f);
    assert WorkerOk(svcs, s, f, w, s.fns[f].workers[w]);
    hide Sound, Corrs, LogsOk, RequestsAt, ArenasAt, OwnResponse;
    var g := s.reqs[k].replyTo;
    AheadOnRingPushed(s.rings[g], Answer(s.fns[f].workers[w].resp), k);
    st := Send(f, w, true);
    s' := Apply(svcs, s, st).value;
  }

  /** The dispatcher takes a frame off a ring: the one that is waited for, or one ahead of
      it, or one on a ring it had before. */
  lemma PopNearer(svcs: seq<Service>, s: State, k: int, o: Outcome) returns (st: Step, s': State)
    requires Sound(svcs, s) && OnItsWay(s, k) && s.loc[k].InRing? && s.conns[s.calls[k].conn].disp.Watching?
    ensures Apply(svcs, s, st) == Some(s') && Nearer(s, s', k, o)
  {
    var c := s.calls[k].conn;
    var r := s.conns[c].disp.ring;
    WatchedRing(svcs, s, k, c, r);
    hide Sound, AnswerCorrs, RouteStep, CompleteStep;
    st, s' := PopReply(c), PopStep(s, c).value;
    PopWhole(s, c, s');
    hide PopStep;
    if s.rings[r] != [] { FramePopped(s, k, c, r, s', o); }
  }

  /** What is known of the front of the ring a dispatcher watches. */
  lemma WatchedRing(svcs: seq<Service>, s: State, k: int, c: nat, r: nat)
    requires Sound(svcs, s) && OnItsWay(s, k) && s.loc[k].InRing? && c == s.calls[k].conn && s.conns[c].disp == Watching(r)
    ensures r < |s.rings| && (r == s.reqs[k].replyTo ==> s.rings[r] != [])
    ensures s.rings[r] != [] && s.rings[r][0].Answer? ==> At(s, s.rings[r][0].resp.corr, InRing(r))
  {
    assert Present(s, k, s.loc[k]);
    RingFacts(svcs, s, r);
    if s.rings[r] != [] { FrontFrame(svcs, s, r); }
  }

  lemma FramePopped(s: State, k: int, c: nat, r: nat, s': State, o: Outcome)
    requires OnItsWay(s, k) && s.loc[k].InRing? && c == s.calls[k].conn && s.conns[c].disp == Watching(r)
    requires r < |s.rings| && s.rings[r] != []
    requires s.rings[r][0].Answer? ==> At(s, s.rings[r][0].resp.corr, InRing(r))
    requires s' == s.(conns := s.conns[c := s.conns[c].(disp := Routing(s.rings[r][0]))],
                      rings := s.rings[r := s.rings[r][1..]], loc := Moved(s, s.rings[r][0], AtDispatcher(c)))
    ensures Nearer(s, s', k, o)
  {}

  /** It goes on with a frame that is not the one. */
  lemma RouteNearer(svcs: seq<Service>, s: State, k: int, o: Outcome) returns (st: Step, s': State)
    requires Sound(svcs, s) && OnItsWay(s, k) && s.loc[k].InRing? && s.conns[s.calls[k].conn].disp.Routing?
    ensures Apply(svcs, s, st) == Some(s') && Nearer(s, s', k, o)
  {
    var c := s.calls[k].conn;
    ConnFacts(svcs, s, c);
    CallsAreNoStrays(svcs, s, k);
    hide Sound, OwnResponse, LogsOk, AnswerCorrs;
    st := Route(c);
    s' := Apply(svcs, s, st).value;
    RouteShape(s, c, s');
    hide RouteStep;
  }

  /** Or finishes with it, or turns to the ring. */
  lemma TurnNearer(svcs: seq<Service>, s: State, k: int, o: Outcome) returns (st: Step, s': State)
    requires Sound(svcs, s) && OnItsWay(s, k) && s.loc[k].InRing?
    requires s.conns[s.calls[k].conn].disp.Completing? || s.conns[s.calls[k].conn].disp.Resting?
    ensures Apply(svcs, s, st) == Some(s') && Nearer(s, s', k, o)
  {
    var c := s.calls[k].conn;
    ConnFacts(svcs, s, c);
    hide Sound, OwnResponse, LogsOk, AnswerCorrs;
    st := if s.conns[c].disp.Completing? then Complete(c) else Watch(c);
    s' := Apply(svcs, s, st).value;
  }

  lemma CallsAreNoStrays(svcs: seq<Service>, s: State, k: int)
    requires Inv(svcs, s) && k in s.calls
    ensures k !in s.ctl.strays
  {}

  lemma RoutedNearer(svcs: seq<Service>, s: State, k: int, o: Outcome) returns (st: Step, s': State)
    requires Sound(svcs, s) && OnItsWay(s, k) && (s.loc[k].AtDispatcher? || s.loc[k].Matched?)
    ensures Apply(svcs, s, st) == Some(s') && Nearer(s, s', k, o)
  {
    var c := s.calls[k].conn;
    assert Present(s, k, s.loc[k]);
    ConnFacts(svcs, s, c);
    hide Sound, OwnResponse, LogsOk;
    if s.loc[k].AtDispatcher? {
      st := Route(c);
      s' := Apply(svcs, s, st).value;
      RouteShape(s, c, s');
      hide RouteStep;
    } else {
      st := Complete(c);
      s' := Apply(svcs, s, st).value;
    }
  }

  lemma SlotNearer(svcs: seq<Service>, s: State, k: int, o: Outcome) returns (st: Step, s': State)
    requires Sound(svcs, s) && OnItsWay(s, k) && s.loc[k].InSlot?
    ensures Apply(svcs, s, st) == Some(s') && Nearer(s, s', k, o)
  {
    assert Present(s, k, s.loc[k]);
    hide Sound, DecodeResponse;
    st := Poll(k);
    s' := Apply(svcs, s, st).value;
  }

  lemma GoesOn(svcs: seq<Service>, s: State, k: int, o: Outcome) returns (st: Step, s': State)
    requires Sound(svcs, s) && OnItsWay(s, k)
    ensures Apply(svcs, s, st) == Some(s') && Nearer(s, s', k, o)
  {
    hide Sound, Nearer, Apply;
    match s.loc[k]
    case InArena(_, _) => st, s' := ArenaNearer(svcs, s, k, o);
    case AtReader(_) => st, s' := ReaderNearer(svcs, s, k, o);
    case InQueue(_) => st, s' := QueueNearer(svcs, s, k, o);
    case AtWorker(_, _) => st, s' := WorkerNearer(svcs, s, k, o);
    case Answered(_, _) => st, s' := AnswerNearer(svcs, s, k, o);
    case InRing(_) =>
      var d := s.conns[s.calls[k].conn].disp;
      if d.Watching? { st, s' := PopNearer(svcs, s, k, o); }
      else if d.Routing? { st, s' := RouteNearer(svcs, s, k, o); }
      else { st, s' := TurnNearer(svcs, s, k, o); }
    case AtDispatcher(_) => st, s' := RoutedNearer(svcs, s, k, o);
    case Matched(_) => st, s' := RoutedNearer(svcs, s, k, o);
    case InSlot => st, s' := SlotNearer(svcs, s, k, o);
  }

  // ---- to its end -------------------------------------------------------

  /** What a call resolves to, by what its function makes of its arguments. */
  function Verdict(svc: Service, call: Call, o: Outcome): Result {
    if svc.reqFp != call.argFp then RemoteError(SCHEMA_MISMATCH)
    else if !svc.decodes(call.args) || o == Panics || o == Returns(None) then RemoteError(INTERNAL)
    else if svc.respFp != call.expectedFp then WrongSchema
    else Good(o.body.value)
  }

  lemma RunIsSound(svcs: seq<Service>, conns: nat, steps: seq<Step>)
    requires Run(svcs, conns, steps).Some?
    ensures Sound(svcs, Run(svcs, conns, steps).value)
  {
    RunInv(svcs, conns, steps);
    NothingVanishes(svcs, conns, steps);
    RunRings(svcs, conns, steps);
  }

  lemma ResolvedByVerdict(svcs: seq<Service>, s: State, k: int)
    requires Sound(svcs, s) && k in s.calls && k in s.phase && s.phase[k].Resolved?
    ensures s.calls[k].fn < |svcs| && k in s.served
    ensures s.phase[k] == Resolved(Verdict(svcs[s.calls[k].fn], s.calls[k], s.served[k].outcome))
  {
    assert CallOk(svcs, s, k) && AtItsFunction(s, k);
  }

  lemma RunMore(svcs: seq<Service>, conns: nat, steps: seq<Step>, st: Step)
    requires Run(svcs, conns, steps).Some?
    ensures Run(svcs, conns, steps + [st]) == Apply(svcs, Run(svcs, conns, steps).value, st)
  {
    hide Apply;
    assert (steps + [st])[..|steps|] == steps;
  }

  /** Some continuation resolves the call; `o` is what its handler does, if it has not yet
      run. */
  lemma {:induction false} Resolves(svcs: seq<Service>, conns: nat, steps: seq<Step>, k: int, o: Outcome)
    returns (more: seq<Step>)
    requires Run(svcs, conns, steps).Some? && OnItsWay(Run(svcs, conns, steps).value, k)
    ensures Run(svcs, conns, steps + more).Some?
    ensures var (s, s') := (Run(svcs, conns, steps).value, Run(svcs, conns, steps + more).value);
      var call := s.calls[k];
      && call.fn < |svcs| && k in s'.phase
      && s'.phase[k] == Resolved(Verdict(svcs[call.fn], call, if k in s.served then s.served[k].outcome else o))
    decreases CallRank(Run(svcs, conns, steps).value, k)
  {
    hide Run, Apply, Sound, CallRank, Verdict;
    var s := Run(svcs, conns, steps).value;
    RunIsSound(svcs, conns, steps);
    var st, s' := GoesOn(svcs, s, k, o);
    RunMore(svcs, conns, steps, st);
    if s'.phase[k].Resolved? {
      more := [st];
      RunIsSound(svcs, conns, steps + [st]);
      ResolvedByVerdict(svcs, s', k);
    } else {
      var rest := Resolves(svcs, conns, steps + [st], k, o);
      more := [st] + rest;
      assert steps + more == steps + [st] + rest;
    }
  }

  ghost predicate ResolvesBy(svcs: seq<Service>, conns: nat, steps: seq<Step>, more: seq<Step>, k: int, r: Result) {
    && Run(svcs, conns, steps + more).Some?
    && k in Run(svcs, conns, steps + more).value.phase
    && Run(svcs, conns, steps + more).value.phase[k] == Resolved(r)
  }

  /** From any state of any run: a call that waits for its answer, its request still on an
      arena, on the way to a worker or with one, its slot pending, and its connection on the
      ring its request named, can be resolved; and for whatever its handler then does, to
      just what that calls for. */
  lemma WaitingCallCanResolve(svcs: seq<Service>, conns: nat, steps: seq<Step>, k: int, o: Outcome)
    requires Run(svcs, conns, steps).Some?
    requires var s := Run(svcs, conns, steps).value;
      && k in s.calls && k in s.phase && s.phase[k] == Waiting && k in s.loc
      && (s.loc[k].InArena? || s.loc[k].AtReader? || s.loc[k].InQueue? || s.loc[k].AtWorker?)
      && s.calls[k].conn < |s.conns| && k in s.conns[s.calls[k].conn].pending
      && k in s.reqs && s.conns[s.calls[k].conn].ring == s.reqs[k].replyTo
    ensures var call := Run(svcs, conns, steps).value.calls[k];
      call.fn < |svcs| && exists more :: ResolvesBy(svcs, conns, steps, more, k, Verdict(svcs[call.fn], call, o))
  {
    var s := Run(svcs, conns, steps).value;
    RunInv(svcs, conns, steps);
    NothingVanishes(svcs, conns, steps);
    RunRings(svcs, conns, steps);
    assert Present(s, k, s.loc[k]) && AtItsFunction(s, k);
    Unserved(svcs, s, k);
    assert |s.fns| == |svcs|;
    hide Run, Inv, AllPresent, Verdict;
    var more := Resolves(svcs, conns, steps, k, o);
    var call := s.calls[k];
    assert ResolvesBy(svcs, conns, steps, more, k, Verdict(svcs[call.fn], call, o));
  }

  // ---- and otherwise never ----------------------------------------------

  /** Sent or given up, and nobody's slot is pending for it, nor matched. */
  ghost predicate Forsaken(s: State, k: int) {
    && k in s.calls && k in s.phase && k in s.loc
    && (s.phase[k].Waiting? || s.phase[k].NotPlaced? || s.phase[k].Abandoned?)
    && !s.loc[k].Matched? && !s.loc[k].InSlot? && !s.loc[k].Consumed?
    && forall c :: 0 <= c < |s.conns| ==> k !in s.conns[c].pending
  }

  lemma CallForsakes(s: State, st: Step, s': State, k: int)
    requires Forsaken(s, k) && CallStep(s, st) == Some(s')
    ensures Forsaken(s', k)
  {}

  lemma FutureForsakes(svcs: seq<Service>, s: State, st: Step, s': State, k: int)
    requires Inv(svcs, s) && Forsaken(s, k) && FutureStep(s, st) == Some(s')
    ensures Forsaken(s', k)
  {
    if k in s.slot { SlotIsMatched(svcs, s, k); }
    hide Inv, DecodeResponse;
  }

  lemma ServiceForsakes(svcs: seq<Service>, s: State, st: Step, s': State, k: int)
    requires Forsaken(s, k) && ServiceStep(svcs, s, st) == Some(s')
    ensures Forsaken(s', k)
  {
    ServiceShape(svcs, s, st, s');
    ServiceMoves(svcs, s, st, s');
    hide ServiceStep;
  }

  lemma RouteForsakes(svcs: seq<Service>, s: State, c: nat, s': State, k: int)
    requires Forsaken(s, k) && RouteStep(s, c) == Some(s')
    ensures Forsaken(s', k)
  {
    RouteShape(s, c, s');
    hide RouteStep;
  }

  lemma CompleteForsakes(svcs: seq<Service>, s: State, c: nat, s': State, k: int)
    requires Inv(svcs, s) && Forsaken(s, k) && CompleteStep(s, c) == Some(s')
    ensures Forsaken(s', k)
  {
    ConnFacts(svcs, s, c);
    hide Inv, LogsOk, OwnResponse;
  }

  lemma TurnForsakes(s: State, st: Step, s': State, k: int)
    requires Forsaken(s, k) && DispatcherStep(s, st) == Some(s') && (st.Watch? || st.PopReply?)
    ensures Forsaken(s', k)
  {
    if st.PopReply? {
      PopWhole(s, st.c, s');
      hide PopStep;
    }
  }

  lemma RestForsakes(s: State, st: Step, s': State, k: int)
    requires Forsaken(s, k) && (ControlStep(s, st) == Some(s') || WorldStep(s, st) == Some(s'))
    ensures Forsaken(s', k)
  {}

  lemma StepForsakes(svcs: seq<Service>, s: State, st: Step, s': State, k: int)
    requires Inv(svcs, s) && Forsaken(s, k) && Apply(svcs, s, st) == Some(s')
    ensures Forsaken(s', k)
  {
    hide Inv, Forsaken, CallStep, FutureStep, ServiceStep, RouteStep, CompleteStep, PopStep, ControlStep, WorldStep;
    if CallStep(s, st) == Some(s') { CallForsakes(s, st, s', k); }
    else if FutureStep(s, st) == Some(s') { FutureForsakes(svcs, s, st, s', k); }
    else if ServiceStep(svcs, s, st) == Some(s') { ServiceForsakes(svcs, s, st, s', k); }
    else if ControlStep(s, st) == Some(s') || WorldStep(s, st) == Some(s') { RestForsakes(s, st, s', k); }
    else if st.Route? { RouteForsakes(svcs, s, st.c, s', k); }
    else if st.Complete? { CompleteForsakes(svcs, s, st.c, s', k); }
    else { TurnForsakes(s, st, s', k); }
  }

  /** A call that is not waited for, and whose slot nothing has matched, never resolves. */
  lemma {:induction false} NeverResolves(svcs: seq<Service>, conns: nat, steps: seq<Step>, more: seq<Step>, k: int)
    requires Run(svcs, conns, steps + more).Some?
    requires Run(svcs, conns, steps).Some? && Forsaken(Run(svcs, conns, steps).value, k)
    ensures Forsaken(Run(svcs, conns, steps + more).value, k)
    decreases |more|
  {
    if more == [] {
      assert steps + more == steps;
    } else {
      var all, n := steps + more, |steps + more| - 1;
      assert all[..n] == steps + more[..|more| - 1];
      NeverResolves(svcs, conns, steps, more[..|more| - 1], k);
      RunInv(svcs, conns, all[..n]);
      hide Apply, Forsaken, Inv;
      StepForsakes(svcs, Run(svcs, conns, all[..n]).value, all[n], Run(svcs, conns, all).value, k);
    }
  }

  /** So a call in flight when its connection's pending slots are cleared, and not matched
      by then, never resolves, whatever comes of its request. */
  lemma ClearedForGood(svcs: seq<Service>, conns: nat, steps: seq<Step>, c: nat, more: seq<Step>, k: int)
    requires Run(svcs, conns, steps).Some? && Run(svcs, conns, steps + [ClearPending(c)] + more).Some?
    requires var s := Run(svcs, conns, steps).value;
      && k in s.calls && s.calls[k].conn == c && c < |s.conns| && k in s.conns[c].pending
      && k in s.phase && s.phase[k].Waiting?
    ensures var s' := Run(svcs, conns, steps + [ClearPending(c)] + more).value;
      k in s'.phase && !s'.phase[k].Resolved?
  {
    var s := Run(svcs, conns, steps).value;
    OnlyWaitersArePending(svcs, conns, steps);
    RunMore(svcs, conns, steps, ClearPending(c));
    var s1 := Apply(svcs, s, ClearPending(c));
    assert s1.Some?;
    PendingOnlyThere(s, c, k, s1.value);
    NeverResolves(svcs, conns, steps + [ClearPending(c)], more, k);
  }

  lemma PendingOnlyThere(s: State, c: nat, k: int, s': State)
    requires PendingOk(s) && c < |s.conns| && k in s.conns[c].pending && k in s.calls && s.phase[k].Waiting?
    requires WorldStep(s, ClearPending(c)) == Some(s')
    ensures Forsaken(s', k)
  {}
}
