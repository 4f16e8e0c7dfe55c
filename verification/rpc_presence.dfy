/** Nothing of a call vanishes: its request, and then its response, is where the log says,
    in the very arena, queue, ring or slot, until it is logged as lost. And which ring a
    request names, and which function serves it. */
module RpcPresence {
  import opened Records
  import opened RpcMachine
  import opened RpcTheorems

  function Corrs(q: seq<Request>): set<int> { set r | r in q :: r.corr }

  function AnswerCorrs(q: seq<Frame>): set<int> { set f | f in q && f.Answer? :: f.resp.corr }

  /** What there is of the call, where `l` says it is. */
  ghost predicate Present(s: State, k: int, l: Loc) {
    match l
    case InArena(f, a) => f < |s.fns| && a < |s.fns[f].arenas| && k in Corrs(s.fns[f].arenas[a])
    case AtReader(f) => f < |s.fns| && s.fns[f].reader.Some? && s.fns[f].reader.value.corr == k
    case InQueue(f) => f < |s.fns| && k in Corrs(s.fns[f].queue)
    case AtWorker(f, w) =>
      f < |s.fns| && w < |s.fns[f].workers| && s.fns[f].workers[w].Holding? && s.fns[f].workers[w].req.corr == k
    case Answered(f, w) =>
      f < |s.fns| && w < |s.fns[f].workers| && s.fns[f].workers[w].Replying? && s.fns[f].workers[w].resp.corr == k
    case InRing(g) => g < |s.rings| && k in AnswerCorrs(s.rings[g])
    case AtDispatcher(c) => c < |s.conns| && s.conns[c].disp.Routing? && IsAnswerTo(s.conns[c].disp.frame, k)
    case Matched(c) => c < |s.conns| && s.conns[c].disp.Completing? && IsAnswerTo(s.conns[c].disp.frame, k)
    case InSlot => k in s.slot
    case _ => true
  }

  predicate IsAnswerTo(f: Frame, k: int) { f.Answer? && f.resp.corr == k }

  /** The request is, or was served, where the call was sent. */
  ghost predicate AtItsFunction(s: State, k: int) {
    k in s.calls && k in s.loc &&
    match s.loc[k]
    case InArena(f, _) => f == s.calls[k].fn
    case AtReader(f) => f == s.calls[k].fn
    case InQueue(f) => f == s.calls[k].fn
    case AtWorker(f, _) => f == s.calls[k].fn
    case _ => k in s.served ==> s.served[k].fn == s.calls[k].fn
  }

  ghost predicate AllPresent(s: State) {
    forall k :: k in s.loc ==> Present(s, k, s.loc[k]) && AtItsFunction(s, k)
  }

  lemma CorrsOf(q: seq<Request>, r: Request)
    ensures Corrs(q + [r]) == Corrs(q) + {r.corr}
    ensures q != [] ==> Corrs(q) == {q[0].corr} + Corrs(q[1..])
  {
    forall x | x in Corrs(q) ensures q != [] && x in {q[0].corr} + Corrs(q[1..]) {
      var y :| y in q && y.corr == x;
      assert y == q[0] || y in q[1..];
    }
    assert forall x :: x in q + [r] <==> x in q || x == r;
  }

  lemma AnswerCorrsOf(q: seq<Frame>, f: Frame)
    ensures AnswerCorrs(q + [f]) == AnswerCorrs(q) + if f.Answer? then {f.resp.corr} else {}
    ensures q != [] ==> AnswerCorrs(q) == (if q[0].Answer? then {q[0].resp.corr} else {}) + AnswerCorrs(q[1..])
  {
    forall x | x in AnswerCorrs(q)
      ensures q != [] && x in (if q[0].Answer? then {q[0].resp.corr} else {}) + AnswerCorrs(q[1..])
    {
      var y :| y in q && y.Answer? && y.resp.corr == x;
      assert y == q[0] || y in q[1..];
    }
    assert forall x :: x in q + [f] <==> x in q || x == f;
  }

  // ---- one step ---------------------------------------------------------

  /** All but one call are where they were. */
  ghost predicate OthersStay(s: State, s': State, k: int) {
    && (forall j :: j in s'.loc && j != k ==> j in s.loc && s'.loc[j] == s.loc[j] && Present(s', j, s.loc[j]))
    && (forall j :: j in s.calls ==> j in s'.calls && s'.calls[j] == s.calls[j])
    && (forall j :: j in s'.served && j != k ==> j in s.served && s'.served[j] == s.served[j])
  }

  lemma Settles(s: State, s': State, k: int)
    requires AllPresent(s) && OthersStay(s, s', k)
    requires k in s'.loc ==> Present(s', k, s'.loc[k]) && AtItsFunction(s', k)
    ensures AllPresent(s')
  {
    hide Present;
    forall j | j in s'.loc ensures Present(s', j, s'.loc[j]) && AtItsFunction(s', j) {
      if j != k { assert AtItsFunction(s, j); }
    }
  }

  predicate WorkerAbout(x: Worker, k: int) {
    match x case Free => true case Holding(r) => r.corr == k case Replying(r, _) => r.corr == k
  }

  /** A function that keeps what it had of any call but `k`. */
  ghost predicate KeepsOthers(x: Fn, x': Fn, k: int) {
    && |x'.arenas| >= |x.arenas|
    && (forall a :: 0 <= a < |x.arenas| ==> Corrs(x.arenas[a]) - {k} <= Corrs(x'.arenas[a]))
    && (x.reader.Some? && x.reader.value.corr != k ==> x'.reader == x.reader)
    && Corrs(x.queue) - {k} <= Corrs(x'.queue)
    && |x'.workers| >= |x.workers|
    && (forall w :: 0 <= w < |x.workers| ==> x'.workers[w] == x.workers[w] || WorkerAbout(x.workers[w], k))
  }

  /** A step of one function, about one call at most. */
  lemma FunctionMoves(s: State, s': State, f: nat, k: int)
    requires AllPresent(s) && f < |s.fns| && |s'.fns| == |s.fns| && s'.fns == s.fns[f := s'.fns[f]]
    requires KeepsOthers(s.fns[f], s'.fns[f], k)
    requires s'.conns == s.conns && s'.slot == s.slot && s'.calls == s.calls
    requires |s'.rings| == |s.rings|
    requires forall g :: 0 <= g < |s.rings| ==> AnswerCorrs(s.rings[g]) <= AnswerCorrs(s'.rings[g])
    requires forall j :: j in s'.loc && j != k ==> j in s.loc && s'.loc[j] == s.loc[j]
    requires forall j :: j in s'.served && j != k ==> j in s.served && s'.served[j] == s.served[j]
    requires k in s'.loc ==> Present(s', k, s'.loc[k]) && AtItsFunction(s', k)
    ensures AllPresent(s')
  {
    forall j | j in s'.loc && j != k ensures Present(s', j, s.loc[j]) {
      assert Present(s, j, s.loc[j]);
      hide Corrs, AnswerCorrs;
    }
    hide Present, KeepsOthers, AtItsFunction;
    Settles(s, s', k);
  }

  lemma PushPresent(svcs: seq<Service>, s: State, k: int, a: nat, room: bool, s': State)
    requires Inv(svcs, s) && AllPresent(s) && CallStep(s, Push(k, a, room)) == Some(s')
    ensures AllPresent(s')
  {
    assert CallOk(svcs, s, k);
    assert k !in s.served;
    hide Inv, CallOk;
    if room {
      var f := s.calls[k].fn;
      CorrsOf(s.fns[f].arenas[a], s.reqs[k]);
      hide Corrs, AnswerCorrs, AllPresent;
      FunctionMoves(s, s', f, k);
    } else {
      InPlace(s, s', k);
    }
  }

  /** A step that leaves functions, rings, slots and dispatchers alone. */
  lemma InPlace(s: State, s': State, k: int)
    requires AllPresent(s) && s'.fns == s.fns && s'.rings == s.rings && s'.slot == s.slot
    requires |s'.conns| == |s.conns| && forall c :: 0 <= c < |s.conns| ==> s'.conns[c].disp == s.conns[c].disp
    requires forall j :: j in s'.loc && j != k ==> j in s.loc && s'.loc[j] == s.loc[j]
    requires forall j :: j in s.calls ==> j in s'.calls && s'.calls[j] == s.calls[j]
    requires forall j :: j in s'.served && j != k ==> j in s.served && s'.served[j] == s.served[j]
    requires k in s'.loc ==> Present(s', k, s'.loc[k]) && AtItsFunction(s', k)
    ensures AllPresent(s')
  {
    forall j | j in s'.loc && j != k ensures Present(s', j, s.loc[j]) {
      assert Present(s, j, s.loc[j]);
      hide Corrs, AnswerCorrs;
    }
    hide Present, AtItsFunction;
    Settles(s, s', k);
  }

  lemma ReadPresent(svcs: seq<Service>, s: State, f: nat, a: nat, s': State)
    requires Inv(svcs, s) && AllPresent(s) && ServiceStep(svcs, s, Read(f, a)) == Some(s')
    ensures AllPresent(s')
  {
    ServiceFacts(svcs, s, f);
    assert RequestsAt(s, s.fns[f].arenas[a], InArena(f, a));
    FrontIsHere(s, s.fns[f].arenas[a], InArena(f, a));
    var r := s.fns[f].arenas[a][0];
    CorrsOf(s.fns[f].arenas[a], r);
    Unserved(svcs, s, r.corr);
    assert AtItsFunction(s, r.corr);
    hide Inv, Corrs, AnswerCorrs, FnOk, RequestsAt, AllPresent, OwnRequest;
    FunctionMoves(s, s', f, r.corr);
  }

  lemma Unserved(svcs: seq<Service>, s: State, k: int)
    requires Inv(svcs, s) && k in s.loc && !AfterServing(s.loc[k])
    ensures k !in s.served && k in s.calls
  {
    assert k in s.calls && CallOk(svcs, s, k);
  }

  lemma SubmitPresent(svcs: seq<Service>, s: State, f: nat, s': State)
    requires Inv(svcs, s) && AllPresent(s) && ServiceStep(svcs, s, Submit(f)) == Some(s')
    ensures AllPresent(s')
  {
    ServiceFacts(svcs, s, f);
    var r := s.fns[f].reader.value;
    CorrsOf(s.fns[f].queue, r);
    Unserved(svcs, s, r.corr);
    assert AtItsFunction(s, r.corr);
    hide Inv, Corrs, AnswerCorrs, RequestsAt, ArenasAt, WorkerOk, AllPresent, OwnRequest;
    FunctionMoves(s, s', f, r.corr);
  }

  lemma TakePresent(svcs: seq<Service>, s: State, f: nat, w: nat, s': State)
    requires Inv(svcs, s) && AllPresent(s) && ServiceStep(svcs, s, Take(f, w)) == Some(s')
    ensures AllPresent(s')
  {
    ServiceFacts(svcs, s, f);
    FrontIsHere(s, s.fns[f].queue, InQueue(f));
    var r := s.fns[f].queue[0];
    CorrsOf(s.fns[f].queue, r);
    Unserved(svcs, s, r.corr);
    assert AtItsFunction(s, r.corr);
    hide Inv, Corrs, AnswerCorrs, FnOk, RequestsAt, AllPresent, OwnRequest;
    FunctionMoves(s, s', f, r.corr);
  }

  lemma ServePresent(svcs: seq<Service>, s: State, f: nat, w: nat, o: Outcome, s': State)
    requires Inv(svcs, s) && AllPresent(s) && ServiceStep(svcs, s, Serve(f, w, o)) == Some(s')
    ensures AllPresent(s')
  {
    ServiceFacts(svcs, s, f);
    assert WorkerOk(svcs, s, f, w, s.fns[f].workers[w]);
    var r := s.fns[f].workers[w].req;
    AnswersItsRequest(svcs[f], r, o);
    assert AtItsFunction(s, r.corr);
    hide Inv, Corrs, AnswerCorrs, RequestsAt, ArenasAt, WorkerOk, HandleOne, AllPresent, OwnRequest;
    FunctionMoves(s, s', f, r.corr);
  }

  lemma SendPresent(svcs: seq<Service>, s: State, f: nat, w: nat, taken: bool, s': State)
    requires Inv(svcs, s) && AllPresent(s) && ServiceStep(svcs, s, Send(f, w, taken)) == Some(s')
    ensures AllPresent(s')
  {
    ServiceFacts(svcs, s, f);
    SendShape(svcs, s, f, w, taken, s');
    assert WorkerOk(svcs, s, f, w, s.fns[f].workers[w]);
    var r, g := s.fns[f].workers[w].resp, s.fns[f].workers[w].replyTo;
    assert AtItsFunction(s, r.corr);
    if taken { AnswerCorrsOf(s.rings[g], Answer(r)); }
    hide Inv, ServiceStep, Corrs, AnswerCorrs, RequestsAt, ArenasAt, WorkerOk, OwnResponse, AllPresent;
    FunctionMoves(s, s', f, r.corr);
  }

  lemma SendShape(svcs: seq<Service>, s: State, f: nat, w: nat, taken: bool, s': State)
    requires ServiceStep(svcs, s, Send(f, w, taken)) == Some(s')
    ensures f < |s.fns| && w < |s.fns[f].workers| && s.fns[f].workers[w].Replying?
    ensures var x, r, g := s.fns[f], s.fns[f].workers[w].resp, s.fns[f].workers[w].replyTo;
      && s'.fns == s.fns[f := x.(workers := x.workers[w := Free])]
      && (taken ==> g < |s.rings|)
      && s' == s.(fns := s'.fns, rings := s'.rings, loc := s.loc[r.corr := if taken then InRing(g) else ResponseLost])
      && s'.rings == if taken then s.rings[g := s.rings[g] + [Answer(r)]] else s.rings
  {}

  lemma GrowPresent(svcs: seq<Service>, s: State, st: Step, s': State)
    requires AllPresent(s) && ServiceStep(svcs, s, st) == Some(s') && (st.Spawn? || st.Reexpose?)
    ensures AllPresent(s')
  {
    hide Corrs, AnswerCorrs;
    forall j | j in s'.loc ensures Present(s', j, s.loc[j]) && AtItsFunction(s', j) {
      assert Present(s, j, s.loc[j]) && AtItsFunction(s, j);
    }
  }

  lemma CallPresent(svcs: seq<Service>, s: State, st: Step, s': State)
    requires Inv(svcs, s) && AllPresent(s) && CallStep(s, st) == Some(s')
    ensures AllPresent(s')
  {
    match st
    case Push(k, a, room) => PushPresent(svcs, s, k, a, room, s');
    case Register(_, k, _) =>
      NewCall(svcs, s, k);
      hide Inv, AllPresent;
      InPlace(s, s', k);
    case Build(k) =>
      if k in s.loc { assert Present(s, k, s.loc[k]) && AtItsFunction(s, k); }
      hide Inv, AllPresent, Corrs, AnswerCorrs;
      InPlace(s, s', k);
  }

  lemma NewCall(svcs: seq<Service>, s: State, k: int)
    requires Inv(svcs, s) && k !in s.calls
    ensures k !in s.loc && k !in s.served
  {}

  lemma PollPresent(svcs: seq<Service>, s: State, k: int, s': State)
    requires Inv(svcs, s) && AllPresent(s) && FutureStep(s, Poll(k)) == Some(s')
    ensures AllPresent(s')
  {
    SlotIsMatched(svcs, s, k);
    assert AtItsFunction(s, k);
    hide Inv, DecodeResponse;
    PollShape(s, k, s');
    hide FutureStep, AllPresent;
    SlotTaken(s, s', k);
  }

  lemma SlotTaken(s: State, s': State, k: int)
    requires AllPresent(s) && AtItsFunction(s, k) && s.loc[k] == InSlot
    requires s' == s.(slot := s.slot - {k}, loc := s.loc[k := Consumed], log := s'.log, phase := s'.phase)
    ensures AllPresent(s')
  {
    hide Corrs, AnswerCorrs;
    forall j | j in s'.loc ensures Present(s', j, s'.loc[j]) && AtItsFunction(s', j) {
      assert Present(s, j, s.loc[j]) && AtItsFunction(s, j);
    }
  }

  lemma PollShape(s: State, k: int, s': State)
    requires FutureStep(s, Poll(k)) == Some(s')
    ensures s' == s.(slot := s.slot - {k}, loc := s.loc[k := Consumed], log := s'.log, phase := s'.phase)
  {
    hide DecodeResponse;
  }

  lemma DropPresent(s: State, k: int, s': State)
    requires AllPresent(s) && (FutureStep(s, Abandon(k)) == Some(s') || FutureStep(s, Forget(k)) == Some(s'))
    ensures AllPresent(s')
  {
    if k in s.loc { assert Present(s, k, s.loc[k]) && AtItsFunction(s, k); }
    hide DecodeResponse, Corrs, AnswerCorrs, AllPresent;
    InPlace(s, s', k);
  }

  function AnswerOf(f: Frame): Option<int> { if f.Answer? then Some(f.resp.corr) else None }

  function Without(q: set<int>, k: Option<int>): set<int> { if k.Some? then q - {k.value} else q }

  /** A step of one dispatcher, about one call at most. */
  lemma DispatcherMoves(s: State, s': State, c: nat, k: Option<int>)
    requires AllPresent(s) && s'.fns == s.fns && s'.calls == s.calls && s'.served == s.served
    requires c < |s.conns| == |s'.conns|
    requires forall d :: 0 <= d < |s.conns| && d != c ==> s'.conns[d] == s.conns[d]
    requires match s.conns[c].disp
      case Routing(f) => k == AnswerOf(f)
      case Completing(f, _) => k == AnswerOf(f)
      case _ => true
    requires |s'.rings| == |s.rings|
    requires forall g :: 0 <= g < |s.rings| ==> Without(AnswerCorrs(s.rings[g]), k) <= AnswerCorrs(s'.rings[g])
    requires forall j :: j in s.slot ==> j in s'.slot
    requires forall j :: j in s'.loc && k != Some(j) ==> j in s.loc && s'.loc[j] == s.loc[j]
    requires k.Some? && k.value in s'.loc ==> Present(s', k.value, s'.loc[k.value]) && AtItsFunction(s', k.value)
    ensures AllPresent(s')
  {
    forall j | j in s'.loc && k != Some(j) ensures Present(s', j, s'.loc[j]) && AtItsFunction(s', j) {
      assert Present(s, j, s.loc[j]) && AtItsFunction(s, j);
      hide Corrs, AnswerCorrs;
    }
    hide Present, AtItsFunction;
  }

  /** All a pop changes: the dispatcher, and, if there was one, the frame's ring and place. */
  lemma PopWhole(s: State, c: nat, s': State)
    requires PopStep(s, c) == Some(s')
    ensures c < |s.conns| && s.conns[c].disp.Watching? && s.conns[c].disp.ring < |s.rings|
    ensures var g := s.conns[c].disp.ring;
      if s.rings[g] == [] then s' == s.(conns := s.conns[c := s.conns[c].(disp := Resting)])
      else
        s' == s.(conns := s.conns[c := s.conns[c].(disp := Routing(s.rings[g][0]))],
                 rings := s.rings[g := s.rings[g][1..]], loc := Moved(s, s.rings[g][0], AtDispatcher(c)))
  {
    hide Moved;
  }

  lemma PopPresent(svcs: seq<Service>, s: State, c: nat, s': State)
    requires Inv(svcs, s) && AllPresent(s) && PopStep(s, c) == Some(s')
    ensures AllPresent(s')
  {
    PopWhole(s, c, s');
    var g := s.conns[c].disp.ring;
    hide PopStep, AllPresent, Inv;
    if s.rings[g] != [] {
      FramePopPresent(svcs, s, c, g, s');
    } else {
      DispatcherMoves(s, s', c, None);
    }
  }

  lemma FramePopPresent(svcs: seq<Service>, s: State, c: nat, g: nat, s': State)
    requires Inv(svcs, s) && AllPresent(s) && c < |s.conns| && s.conns[c].disp == Watching(g)
    requires g < |s.rings| && s.rings[g] != []
    requires s' == s.(conns := s.conns[c := s.conns[c].(disp := Routing(s.rings[g][0]))],
                      rings := s.rings[g := s.rings[g][1..]], loc := Moved(s, s.rings[g][0], AtDispatcher(c)))
    ensures AllPresent(s')
  {
    var f := s.rings[g][0];
    AnswerCorrsOf(s.rings[g], f);
    RingFacts(svcs, s, g);
    FrontFrame(svcs, s, g);
    if f.Answer? { assert AtItsFunction(s, f.resp.corr); }
    hide Inv, RingOk, LogsOk, AllPresent, Corrs, AnswerCorrs, OwnResponse;
    DispatcherMoves(s, s', c, AnswerOf(f));
  }

  lemma RoutePresent(svcs: seq<Service>, s: State, c: nat, s': State)
    requires Inv(svcs, s) && AllPresent(s) && RouteStep(s, c) == Some(s')
    ensures AllPresent(s')
  {
    ConnFacts(svcs, s, c);
    RouteShape(s, c, s');
    var f := s.conns[c].disp.frame;
    if f.Answer? { assert AtItsFunction(s, f.resp.corr); }
    hide Inv, AllPresent, Corrs, AnswerCorrs, OwnResponse, RouteStep;
    DispatcherMoves(s, s', c, AnswerOf(f));
  }

  lemma CompletePresent(svcs: seq<Service>, s: State, c: nat, s': State)
    requires Inv(svcs, s) && AllPresent(s) && CompleteStep(s, c) == Some(s')
    ensures AllPresent(s')
  {
    ConnFacts(svcs, s, c);
    var f := s.conns[c].disp.frame;
    if f.Answer? { assert AtItsFunction(s, f.resp.corr); }
    hide Inv, AllPresent, Corrs, AnswerCorrs, OwnResponse;
    DispatcherMoves(s, s', c, AnswerOf(f));
  }

  lemma WatchPresent(s: State, c: nat, s': State)
    requires AllPresent(s) && DispatcherStep(s, Watch(c)) == Some(s')
    ensures AllPresent(s')
  {
    hide AllPresent, Corrs, AnswerCorrs;
    DispatcherMoves(s, s', c, None);
  }

  /** What control round-trips, swaps and other frames do is no call's. */
  lemma RestPresent(s: State, st: Step, s': State)
    requires AllPresent(s) && (ControlStep(s, st) == Some(s') || WorldStep(s, st) == Some(s'))
    ensures AllPresent(s')
  {
    forall j | j in s'.loc ensures Present(s', j, s.loc[j]) && AtItsFunction(s', j) {
      assert Present(s, j, s.loc[j]) && AtItsFunction(s, j);
      if st.OtherFrame? { AnswerCorrsOf(s.rings[st.g], Stray(st.about)); }
      hide Corrs, AnswerCorrs;
    }
  }

  lemma StepPresent(svcs: seq<Service>, s: State, st: Step, s': State)
    requires Inv(svcs, s) && AllPresent(s) && Apply(svcs, s, st) == Some(s')
    ensures AllPresent(s')
  {
    hide Inv, AllPresent, CallStep, FutureStep, ServiceStep, PopStep, RouteStep, CompleteStep, ControlStep, WorldStep;
    match st
    case Register(_, _, _) => CallPresent(svcs, s, st, s');
    case Build(_) => CallPresent(svcs, s, st, s');
    case Push(_, _, _) => CallPresent(svcs, s, st, s');
    case Reexpose(_) => GrowPresent(svcs, s, st, s');
    case Read(f, a) => ReadPresent(svcs, s, f, a, s');
    case Submit(f) => SubmitPresent(svcs, s, f, s');
    case Spawn(_) => GrowPresent(svcs, s, st, s');
    case Take(f, w) => TakePresent(svcs, s, f, w, s');
    case Serve(f, w, o) => ServePresent(svcs, s, f, w, o, s');
    case Send(f, w, taken) => SendPresent(svcs, s, f, w, taken, s');
    case Watch(c) => WatchPresent(s, c, s');
    case PopReply(c) => PopPresent(svcs, s, c, s');
    case Route(c) => RoutePresent(svcs, s, c, s');
    case Complete(c) => CompletePresent(svcs, s, c, s');
    case Poll(k) => PollPresent(svcs, s, k, s');
    case Abandon(k) => DropPresent(s, k, s');
    case Forget(k) => DropPresent(s, k, s');
    case _ => RestPresent(s, st, s');
  }

  /** In every run, each call's request or response is where the log says, unless it is
      logged as lost, or has not been sent, or has been consumed; and it is served by the
      function it was sent to. */
  lemma {:induction false} NothingVanishes(svcs: seq<Service>, conns: nat, steps: seq<Step>)
    requires Run(svcs, conns, steps).Some?
    ensures AllPresent(Run(svcs, conns, steps).value)
    decreases |steps|
  {
    hide AllPresent, Inv, Apply;
    if steps == [] {
      NothingYet(conns, |svcs|);
    } else {
      var before := steps[..|steps| - 1];
      NothingVanishes(svcs, conns, before);
      RunInv(svcs, conns, before);
      StepPresent(svcs, Run(svcs, conns, before).value, steps[|steps| - 1], Run(svcs, conns, steps).value);
    }
  }

  lemma NothingYet(conns: nat, fns: nat)
    ensures AllPresent(Init(conns, fns))
  {}

  // ---- whose slots are pending ------------------------------------------

  /** Only a call that still waits is pending, on its own connection, and nothing has
      matched its slot. */
  ghost predicate PendingOk(s: State) {
    forall c, k :: 0 <= c < |s.conns| && k in s.conns[c].pending && k in s.calls ==>
      && s.calls[k].conn == c && k in s.phase && k in s.loc
      && (s.phase[k].Registered? || s.phase[k].Ready? || s.phase[k].Waiting?)
      && !s.loc[k].Matched? && !s.loc[k].InSlot? && !s.loc[k].Consumed?
  }

  /** Pending ids are of calls, or of control round-trips, and never both. */
  lemma PendingKnown(svcs: seq<Service>, s: State)
    requires Inv(svcs, s)
    ensures forall c, k :: 0 <= c < |s.conns| && k in s.conns[c].pending && k !in s.calls ==> k in s.ctl.strays
    ensures s.phase.Keys == s.calls.Keys == s.loc.Keys
  {
    forall c, k | 0 <= c < |s.conns| && k in s.conns[c].pending && k !in s.calls ensures k in s.ctl.strays {
      assert ConnOk(svcs, s, c);
    }
  }

  lemma CallPending(svcs: seq<Service>, s: State, st: Step, s': State)
    requires Inv(svcs, s) && PendingOk(s) && CallStep(s, st) == Some(s')
    ensures PendingOk(s')
  {
    PendingKnown(svcs, s);
    hide Inv;
    if st.Push? { PushPending(s, st.k, st.a, st.room, s'); }
  }

  lemma PushPending(s: State, k: int, a: nat, room: bool, s': State)
    requires PendingOk(s) && CallStep(s, Push(k, a, room)) == Some(s')
    ensures PendingOk(s')
  {}

  lemma FuturePending(svcs: seq<Service>, s: State, st: Step, s': State)
    requires Inv(svcs, s) && PendingOk(s) && FutureStep(s, st) == Some(s')
    ensures PendingOk(s')
  {
    PendingKnown(svcs, s);
    if st.Poll? { SlotIsMatched(svcs, s, st.k); }
    hide Inv, DecodeResponse;
  }

  lemma SlotIsMatched(svcs: seq<Service>, s: State, k: int)
    requires Inv(svcs, s) && k in s.slot
    ensures k in s.calls && At(s, k, InSlot)
  {
    assert k in s.calls && CallOk(svcs, s, k);
  }

  /** A step about one call whose slot nothing matches. */
  lemma PendingKept(s: State, s': State)
    requires PendingOk(s) && s'.calls == s.calls && s'.phase == s.phase && |s'.conns| == |s.conns|
    requires forall c :: 0 <= c < |s.conns| ==> s'.conns[c].pending <= s.conns[c].pending
    requires forall k :: k in s.loc ==> k in s'.loc
    requires forall k :: k in s.loc && (s'.loc[k].Matched? || s'.loc[k].InSlot? || s'.loc[k].Consumed?) ==>
      s'.loc[k] == s.loc[k] || forall c :: 0 <= c < |s.conns| ==> k !in s'.conns[c].pending
    ensures PendingOk(s')
  {}

  lemma ServicePending(svcs: seq<Service>, s: State, st: Step, s': State)
    requires PendingOk(s) && ServiceStep(svcs, s, st) == Some(s')
    ensures PendingOk(s')
  {
    hide PendingOk;
    ServiceShape(svcs, s, st, s');
    ServiceMoves(svcs, s, st, s');
    hide ServiceStep;
    PendingKept(s, s');
  }

  /** What a service's step leaves alone. */
  lemma ServiceShape(svcs: seq<Service>, s: State, st: Step, s': State)
    requires ServiceStep(svcs, s, st) == Some(s')
    ensures s'.conns == s.conns && |s'.rings| == |s.rings| && s'.reqs == s.reqs
    ensures s'.calls == s.calls && s'.phase == s.phase
  {
    hide HandleOne;
    if st.Send? {
      SendShape(svcs, s, st.f, st.w, st.taken, s');
      hide ServiceStep;
    }
  }

  /** And where it may put a request or a response. */
  lemma ServiceMoves(svcs: seq<Service>, s: State, st: Step, s': State)
    requires ServiceStep(svcs, s, st) == Some(s')
    ensures forall k :: k in s.loc ==> k in s'.loc
    ensures forall k :: k in s.loc ==>
      s'.loc[k] == s.loc[k] || !(s'.loc[k].Matched? || s'.loc[k].InSlot? || s'.loc[k].Consumed?)
  {
    hide HandleOne;
  }

  lemma RoutePending(svcs: seq<Service>, s: State, c: nat, s': State)
    requires Inv(svcs, s) && PendingOk(s) && RouteStep(s, c) == Some(s')
    ensures PendingOk(s')
  {
    RouteShape(s, c, s');
    ConnFacts(svcs, s, c);
    PendingKnown(svcs, s);
    hide RouteStep, Inv, OwnResponse, LogsOk;
  }

  lemma CompletePending(svcs: seq<Service>, s: State, c: nat, s': State)
    requires Inv(svcs, s) && PendingOk(s) && CompleteStep(s, c) == Some(s')
    ensures PendingOk(s')
  {
    ConnFacts(svcs, s, c);
    hide Inv, OwnResponse, LogsOk;
  }

  lemma OtherDispatchPending(s: State, st: Step, s': State)
    requires PendingOk(s) && DispatcherStep(s, st) == Some(s') && (st.Watch? || st.PopReply?)
    ensures PendingOk(s')
  {
    if st.PopReply? { PopWhole(s, st.c, s'); }
    hide PopStep, PendingOk;
    PendingKept(s, s');
  }

  lemma RestPending(svcs: seq<Service>, s: State, st: Step, s': State)
    requires Inv(svcs, s) && PendingOk(s) && (ControlStep(s, st) == Some(s') || WorldStep(s, st) == Some(s'))
    ensures PendingOk(s')
  {
    PendingKnown(svcs, s);
    hide Inv;
  }

  lemma StepPending(svcs: seq<Service>, s: State, st: Step, s': State)
    requires Inv(svcs, s) && PendingOk(s) && Apply(svcs, s, st) == Some(s')
    ensures PendingOk(s')
  {
    hide Inv, PendingOk, CallStep, FutureStep, ServiceStep, RouteStep, CompleteStep, PopStep, ControlStep, WorldStep;
    if CallStep(s, st) == Some(s') { CallPending(svcs, s, st, s'); }
    else if FutureStep(s, st) == Some(s') { FuturePending(svcs, s, st, s'); }
    else if ServiceStep(svcs, s, st) == Some(s') { ServicePending(svcs, s, st, s'); }
    else if ControlStep(s, st) == Some(s') || WorldStep(s, st) == Some(s') { RestPending(svcs, s, st, s'); }
    else if st.Route? { RoutePending(svcs, s, st.c, s'); }
    else if st.Complete? { CompletePending(svcs, s, st.c, s'); }
    else { OtherDispatchPending(s, st, s'); }
  }

  /** In every run, a call that was not placed, was abandoned or has been resolved has no
      slot pending anywhere, and no other connection ever has one for a call that waits. */
  lemma {:induction false} OnlyWaitersArePending(svcs: seq<Service>, conns: nat, steps: seq<Step>)
    requires Run(svcs, conns, steps).Some?
    ensures PendingOk(Run(svcs, conns, steps).value)
    decreases |steps|
  {
    hide PendingOk, Inv, Apply;
    if steps == [] {
      NonePending(conns, |svcs|);
    } else {
      var before := steps[..|steps| - 1];
      OnlyWaitersArePending(svcs, conns, before);
      RunInv(svcs, conns, before);
      StepPending(svcs, Run(svcs, conns, before).value, steps[|steps| - 1], Run(svcs, conns, steps).value);
    }
  }

  lemma NonePending(conns: nat, fns: nat)
    ensures PendingOk(Init(conns, fns))
  {}
}
