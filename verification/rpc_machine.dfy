/** Remote calls over rings taken as queues of records: callers with their pending
    slots and dispatcher threads, and services with one reader and a pool of workers.
    Any number of each, interleaved in any order. */
module RpcMachine {
  import opened Records

  const OK := 0
  const SCHEMA_MISMATCH := 3
  const INTERNAL := 4

  datatype Request = Request(corr: int, replyTo: nat, argFp: nat, args: bytes)

  datatype Response = Response(corr: int, status: int, resultFp: nat, result: bytes)

  /** What an exposed function was exposed with. */
  datatype Service = Service(reqFp: nat, respFp: nat, decodes: bytes -> bool)

  /** What running the handler came to: a panic, or a value that may fail to encode. */
  datatype Outcome = Panics | Returns(body: Option<bytes>)

  function Failure(corr: int, status: int): Response { Response(corr, status, 0, []) }

  /** `handle_one`, under the worker's `catch_unwind`. */
  function HandleOne(svc: Service, req: Request, o: Outcome): Response {
    if req.argFp != svc.reqFp then Failure(req.corr, SCHEMA_MISMATCH)
    else if !svc.decodes(req.args) then Failure(req.corr, INTERNAL)
    else
      match o
      case Panics => Failure(req.corr, INTERNAL)
      case Returns(None) => Failure(req.corr, INTERNAL)
      case Returns(Some(body)) => Response(req.corr, OK, svc.respFp, body)
  }

  /** How a call ends for its caller. */
  datatype Result = Good(body: bytes) | RemoteError(status: int) | WrongSchema | BadFrame

  /** A frame on a reply ring: an RPC response, or anything else that travels there. */
  datatype Frame = Answer(resp: Response) | Stray(about: Option<int>)

  /** `decode_response`, up to decoding the body. */
  function DecodeResponse(f: Frame, expectedFp: nat): Result {
    match f
    case Stray(_) => BadFrame
    case Answer(r) =>
      if r.status != OK then RemoteError(r.status)
      else if r.resultFp != expectedFp then WrongSchema
      else Good(r.result)
  }

  datatype Call = Call(conn: nat, fn: nat, argFp: nat, args: bytes, expectedFp: nat)

  datatype Phase =
    | Registered           // the slot is in the pending map
    | Ready                // the request is built
    | Waiting              // the request is on the arena
    | NotPlaced            // the arena was full
    | Resolved(result: Result)
    | Abandoned

  /** A dispatcher thread: holding a ring handle, a frame, or a frame and the slot it
      took out of the pending map for it. */
  datatype Dispatcher = Resting | Watching(ring: nat) | Routing(frame: Frame) | Completing(frame: Frame, corr: int)

  datatype Conn = Conn(ring: nat, pending: set<int>, disp: Dispatcher)

  datatype Worker = Free | Holding(req: Request) | Replying(resp: Response, replyTo: nat)

  /** A function with the arenas it has had: a service that exposes it anew, after a broker
      restart, gets a fresh one, and the same reader and workers go on. Callers may still
      push onto an old one, and the reader, which looks up its ring before it waits on it,
      may still take from one. */
  datatype Fn = Fn(arenas: seq<seq<Request>>, reader: Option<Request>, queue: seq<Request>, workers: seq<Worker>)

  /** History: where a call's request, and then its response, is. */
  datatype Loc =
    | AtCaller | InArena(fn: nat, arena: nat) | AtReader(fn: nat) | InQueue(fn: nat) | AtWorker(fn: nat, w: nat)
    | Answered(fn: nat, w: nat) | InRing(ring: nat) | AtDispatcher(conn: nat) | Matched(conn: nat)
    | InSlot | Consumed | RequestLost | ResponseLost

  /** History: who served a call, and what the handler did. */
  datatype Served = Served(fn: nat, outcome: Outcome)

  /** History: the calls served, and those resolved, in order. */
  datatype Log = Log(serves: seq<int>, resolutions: seq<int>)

  /** Control round-trips: their correlation ids, and those of any other frame that is no
      call's; the frames in their slots; and what they were told. */
  datatype Control = Control(strays: set<int>, heard: map<int, Frame>, told: map<int, Frame>)

  datatype State = State(
    conns: seq<Conn>, fns: seq<Fn>, rings: seq<seq<Frame>>,
    calls: map<int, Call>, phase: map<int, Phase>, slot: map<int, Frame>,
    ctl: Control,
    reqs: map<int, Request>, loc: map<int, Loc>, served: map<int, Served>,
    log: Log)

  datatype Step =
    | Register(c: nat, k: int, call: Call)
    | Build(k: int)
    | Push(k: int, a: nat, room: bool)
    | Reexpose(f: nat)
    | Read(f: nat, a: nat)
    | Submit(f: nat)
    | Spawn(f: nat)
    | Take(f: nat, w: nat)
    | Serve(f: nat, w: nat, outcome: Outcome)
    | Send(f: nat, w: nat, taken: bool)
    | Watch(c: nat)
    | PopReply(c: nat)
    | Route(c: nat)
    | Complete(c: nat)
    | Poll(k: int)
    | Abandon(k: int)
    | Forget(k: int)
    | Ask(c: nat, k: int)
    | Hear(k: int)
    | GiveUp(c: nat, k: int)
    | ClearPending(c: nat)
    | SwapTransport(c: nat)
    | OtherFrame(g: nat, about: Option<int>)

  function Init(conns: nat, fns: nat): State {
    State(seq(conns, (c: nat) => Conn(c, {}, Resting)), seq(fns, f => Fn([[]], None, [], [])), seq(conns, c => []),
          map[], map[], map[], Control({}, map[], map[]), map[], map[], map[], Log([], []))
  }

  function SetConn(s: State, c: nat, x: Conn): seq<Conn>
    requires c < |s.conns|
  {
    s.conns[c := x]
  }

  function SetFn(s: State, f: nat, x: Fn): seq<Fn>
    requires f < |s.fns|
  {
    s.fns[f := x]
  }

  /** The connections, with the call's slot out of the pending map. */
  function Drop(s: State, k: int): seq<Conn>
    requires k in s.calls && s.calls[k].conn < |s.conns|
  {
    var c := s.calls[k].conn;
    SetConn(s, c, s.conns[c].(pending := s.conns[c].pending - {k}))
  }

  // ---- the caller -------------------------------------------------------

  /** `Connection::call`, with a correlation id nobody has used. */
  function CallStep(s: State, st: Step): Option<State> {
    match st
    case Register(c, k, call) =>
      if c >= |s.conns| || k in s.calls || k in s.ctl.strays || call.conn != c then None
      else
        Some(s.(conns := SetConn(s, c, s.conns[c].(pending := s.conns[c].pending + {k})),
                calls := s.calls[k := call], phase := s.phase[k := Registered], loc := s.loc[k := AtCaller]))
    case Build(k) =>
      if k !in s.phase || s.phase[k] != Registered || k !in s.calls || s.calls[k].conn >= |s.conns| then None
      else
        var call := s.calls[k];
        Some(s.(reqs := s.reqs[k := Request(k, s.conns[call.conn].ring, call.argFp, call.args)],
                phase := s.phase[k := Ready]))
    case Push(k, a, room) =>
      if k !in s.phase || s.phase[k] != Ready || k !in s.calls || k !in s.reqs || s.calls[k].conn >= |s.conns| then None
      else if !room then Some(s.(conns := Drop(s, k), phase := s.phase[k := NotPlaced], loc := s.loc[k := RequestLost]))
      else
        var f := s.calls[k].fn;
        if f >= |s.fns| || a >= |s.fns[f].arenas| then None
        else
          Some(s.(fns := SetFn(s, f, s.fns[f].(arenas := s.fns[f].arenas[a := s.fns[f].arenas[a] + [s.reqs[k]]])),
                  phase := s.phase[k := Waiting], loc := s.loc[k := InArena(f, a)]))
    case _ => None
  }

  /** The future: it takes the frame out of its slot, or is given up. */
  function FutureStep(s: State, st: Step): Option<State> {
    match st
    case Poll(k) =>
      if k !in s.phase || s.phase[k] != Waiting || k !in s.calls || k !in s.slot then None
      else
        Some(s.(slot := s.slot - {k}, loc := s.loc[k := Consumed], log := s.log.(resolutions := s.log.resolutions + [k]),
                phase := s.phase[k := Resolved(DecodeResponse(s.slot[k], s.calls[k].expectedFp))]))
    case Abandon(k) =>
      if k !in s.phase || s.phase[k] != Waiting || k !in s.calls || s.calls[k].conn >= |s.conns| then None
      else Some(s.(conns := Drop(s, k), phase := s.phase[k := Abandoned]))
    case Forget(k) =>
      if k !in s.phase || !s.phase[k].Resolved? || k !in s.calls || s.calls[k].conn >= |s.conns| then None
      else Some(s.(conns := Drop(s, k)))
    case _ => None
  }

  // ---- the service ------------------------------------------------------

  function ServiceStep(svcs: seq<Service>, s: State, st: Step): Option<State> {
    match st
    case Reexpose(f) =>
      if f >= |s.fns| then None
      else Some(s.(fns := SetFn(s, f, s.fns[f].(arenas := s.fns[f].arenas + [[]]))))
    case Read(f, a) =>
      if f >= |s.fns| || s.fns[f].reader.Some? || a >= |s.fns[f].arenas| || s.fns[f].arenas[a] == [] then None
      else
        var x, r := s.fns[f], s.fns[f].arenas[a][0];
        Some(s.(fns := SetFn(s, f, x.(arenas := x.arenas[a := x.arenas[a][1..]], reader := Some(r))),
                loc := s.loc[r.corr := AtReader(f)]))
    case Submit(f) =>
      if f >= |s.fns| || s.fns[f].reader.None? then None
      else
        var x, r := s.fns[f], s.fns[f].reader.value;
        Some(s.(fns := SetFn(s, f, x.(reader := None, queue := x.queue + [r])), loc := s.loc[r.corr := InQueue(f)]))
    case Spawn(f) =>
      if f >= |s.fns| then None
      else Some(s.(fns := SetFn(s, f, s.fns[f].(workers := s.fns[f].workers + [Free]))))
    case Take(f, w) =>
      if f >= |s.fns| || w >= |s.fns[f].workers| || s.fns[f].workers[w] != Free || s.fns[f].queue == [] then None
      else
        var x, r := s.fns[f], s.fns[f].queue[0];
        Some(s.(fns := SetFn(s, f, x.(queue := x.queue[1..], workers := x.workers[w := Holding(r)])),
                loc := s.loc[r.corr := AtWorker(f, w)]))
    case Serve(f, w, o) =>
      if f >= |s.fns| || f >= |svcs| || w >= |s.fns[f].workers| || !s.fns[f].workers[w].Holding? then None
      else
        var x, r := s.fns[f], s.fns[f].workers[w].req;
        Some(s.(fns := SetFn(s, f, x.(workers := x.workers[w := Replying(HandleOne(svcs[f], r, o), r.replyTo)])),
                loc := s.loc[r.corr := Answered(f, w)], served := s.served[r.corr := Served(f, o)],
                log := s.log.(serves := s.log.serves + [r.corr])))
    case Send(f, w, taken) =>
      if f >= |s.fns| || w >= |s.fns[f].workers| || !s.fns[f].workers[w].Replying? then None
      else
        var x, r, g := s.fns[f], s.fns[f].workers[w].resp, s.fns[f].workers[w].replyTo;
        var fns := SetFn(s, f, x.(workers := x.workers[w := Free]));
        if !taken then Some(s.(fns := fns, loc := s.loc[r.corr := ResponseLost]))
        else if g >= |s.rings| then None
        else
          Some(s.(fns := fns, rings := s.rings[g := s.rings[g] + [Answer(r)]], loc := s.loc[r.corr := InRing(g)]))
    case _ => None
  }

  // ---- the dispatcher ---------------------------------------------------

  /** The call a frame is about. */
  function About(f: Frame): Option<int> {
    match f case Answer(r) => Some(r.corr) case Stray(a) => a
  }

  /** Where a frame's call is once the frame has moved on; a stray is no call's. */
  function Moved(s: State, f: Frame, l: Loc): map<int, Loc> {
    if f.Answer? then s.loc[f.resp.corr := l] else s.loc
  }

  function PopStep(s: State, c: nat): Option<State> {
    if c >= |s.conns| || !s.conns[c].disp.Watching? || s.conns[c].disp.ring >= |s.rings| then None
    else
      var g := s.conns[c].disp.ring;
      if s.rings[g] == [] then Some(s.(conns := SetConn(s, c, s.conns[c].(disp := Resting))))
      else
        var f := s.rings[g][0];
        Some(s.(conns := SetConn(s, c, s.conns[c].(disp := Routing(f))),
                rings := s.rings[g := s.rings[g][1..]], loc := Moved(s, f, AtDispatcher(c))))
  }

  function RouteStep(s: State, c: nat): Option<State> {
    if c >= |s.conns| || !s.conns[c].disp.Routing? then None
    else
      var f := s.conns[c].disp.frame;
      if About(f).Some? && About(f).value in s.conns[c].pending then
        var k := About(f).value;
        Some(s.(conns := SetConn(s, c, s.conns[c].(disp := Completing(f, k), pending := s.conns[c].pending - {k})),
                loc := Moved(s, f, Matched(c))))
      else
        Some(s.(conns := SetConn(s, c, s.conns[c].(disp := Resting)), loc := Moved(s, f, ResponseLost)))
  }

  /** The slot is a call's, or a control round-trip's. */
  function CompleteStep(s: State, c: nat): Option<State> {
    if c >= |s.conns| || !s.conns[c].disp.Completing? then None
    else
      var x := s.conns[c].disp;
      if x.frame.Answer? then
        Some(s.(conns := SetConn(s, c, s.conns[c].(disp := Resting)),
                slot := s.slot[x.corr := x.frame], loc := s.loc[x.frame.resp.corr := InSlot]))
      else
        Some(s.(conns := SetConn(s, c, s.conns[c].(disp := Resting)),
                ctl := s.ctl.(heard := s.ctl.heard[x.corr := x.frame])))
  }

  function DispatcherStep(s: State, st: Step): Option<State> {
    match st
    case Watch(c) =>
      if c >= |s.conns| || s.conns[c].disp != Resting then None
      else Some(s.(conns := SetConn(s, c, s.conns[c].(disp := Watching(s.conns[c].ring)))))
    case PopReply(c) => PopStep(s, c)
    case Route(c) => RouteStep(s, c)
    case Complete(c) => CompleteStep(s, c)
    case _ => None
  }

  // ---- control round-trips ----------------------------------------------

  /** `call_control`, which shares the pending map with the calls: with a correlation id
      nobody has used it waits for a frame about that id, and is told it, or gives up. */
  function ControlStep(s: State, st: Step): Option<State> {
    match st
    case Ask(c, k) =>
      if c >= |s.conns| || k in s.calls || k in s.ctl.strays then None
      else
        Some(s.(conns := SetConn(s, c, s.conns[c].(pending := s.conns[c].pending + {k})),
                ctl := s.ctl.(strays := s.ctl.strays + {k})))
    case Hear(k) =>
      if k !in s.ctl.heard then None
      else Some(s.(ctl := s.ctl.(heard := s.ctl.heard - {k}, told := s.ctl.told[k := s.ctl.heard[k]])))
    case GiveUp(c, k) =>
      if c >= |s.conns| || k !in s.ctl.strays then None
      else Some(s.(conns := SetConn(s, c, s.conns[c].(pending := s.conns[c].pending - {k}))))
    case _ => None
  }

  // ---- reconnects, and the rest of the world ----------------------------

  function WorldStep(s: State, st: Step): Option<State> {
    match st
    case ClearPending(c) =>
      if c >= |s.conns| then None else Some(s.(conns := SetConn(s, c, s.conns[c].(pending := {}))))
    case SwapTransport(c) =>
      if c >= |s.conns| then None
      else Some(s.(conns := SetConn(s, c, s.conns[c].(ring := |s.rings|)), rings := s.rings + [[]]))
    case OtherFrame(g, about) =>
      if g >= |s.rings| || (about.Some? && about.value in s.calls) then None
      else
        Some(s.(rings := s.rings[g := s.rings[g] + [Stray(about)]],
                ctl := s.ctl.(strays := s.ctl.strays + if about.Some? then {about.value} else {})))
    case _ => None
  }

  function Apply(svcs: seq<Service>, s: State, st: Step): Option<State> {
    match st
    case Register(_, _, _) => CallStep(s, st) case Build(_) => CallStep(s, st) case Push(_, _, _) => CallStep(s, st)
    case Poll(_) => FutureStep(s, st) case Abandon(_) => FutureStep(s, st) case Forget(_) => FutureStep(s, st)
    case Watch(_) => DispatcherStep(s, st) case PopReply(_) => DispatcherStep(s, st)
    case Route(_) => DispatcherStep(s, st) case Complete(_) => DispatcherStep(s, st)
    case Ask(_, _) => ControlStep(s, st) case Hear(_) => ControlStep(s, st) case GiveUp(_, _) => ControlStep(s, st)
    case ClearPending(_) => WorldStep(s, st) case SwapTransport(_) => WorldStep(s, st)
    case OtherFrame(_, _) => WorldStep(s, st)
    case _ => ServiceStep(svcs, s, st)
  }

  function Run(svcs: seq<Service>, conns: nat, steps: seq<Step>): Option<State>
    decreases |steps|
  {
    if steps == [] then Some(Init(conns, |svcs|))
    else
      match Run(svcs, conns, steps[..|steps| - 1])
      case None => None
      case Some(s) => Apply(svcs, s, steps[|steps| - 1])
  }
}
