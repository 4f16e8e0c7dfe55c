/** End to end: what a call resolves to is what its own request was answered with. */
module RpcTheorems {
  import opened Queues
  import opened Records
  import opened RpcMachine

  // ---- what is where ----------------------------------------------------

  /** The request is the one its call built. */
  ghost predicate OwnRequest(s: State, r: Request) {
    r.corr in s.reqs && s.reqs[r.corr] == r
  }

  /** The response is what serving its call's own request came to. */
  ghost predicate OwnResponse(svcs: seq<Service>, s: State, r: Response) {
    && r.corr in s.served && r.corr in s.reqs && s.served[r.corr].fn < |svcs|
    && r == HandleOne(svcs[s.served[r.corr].fn], s.reqs[r.corr], s.served[r.corr].outcome)
  }

  ghost predicate At(s: State, k: int, l: Loc) {
    k in s.loc && s.loc[k] == l
  }

  /** A queue of requests, each its call's own, each here and nowhere else. */
  ghost predicate RequestsAt(s: State, q: seq<Request>, l: Loc) {
    && (forall i :: 0 <= i < |q| ==> OwnRequest(s, q[i]) && At(s, q[i].corr, l))
    && (forall i, j :: 0 <= i < j < |q| ==> q[i].corr != q[j].corr)
  }

  ghost predicate WorkerOk(svcs: seq<Service>, s: State, f: nat, w: nat, x: Worker) {
    match x
    case Free => true
    case Holding(r) => OwnRequest(s, r) && At(s, r.corr, AtWorker(f, w))
    case Replying(r, g) => OwnResponse(svcs, s, r) && At(s, r.corr, Answered(f, w)) && g == s.reqs[r.corr].replyTo
  }

  ghost predicate ArenasAt(s: State, arenas: seq<seq<Request>>, f: nat) {
    forall a :: 0 <= a < |arenas| ==> RequestsAt(s, arenas[a], InArena(f, a))
  }

  ghost predicate FnOk(svcs: seq<Service>, s: State, f: nat)
    requires f < |s.fns|
  {
    var x := s.fns[f];
    && ArenasAt(s, x.arenas, f) && RequestsAt(s, x.queue, InQueue(f))
    && (x.reader.Some? ==> OwnRequest(s, x.reader.value) && At(s, x.reader.value.corr, AtReader(f)))
    && forall w :: 0 <= w < |x.workers| ==> WorkerOk(svcs, s, f, w, x.workers[w])
  }

  /** A frame that is at `l`: an own response, or a stray about no call. */
  ghost predicate FrameAt(svcs: seq<Service>, s: State, f: Frame, l: Loc) {
    match f
    case Answer(r) => OwnResponse(svcs, s, r) && At(s, r.corr, l)
    case Stray(about) => about.Some? ==> about.value in s.ctl.strays
  }

  ghost predicate RingOk(svcs: seq<Service>, s: State, g: nat)
    requires g < |s.rings|
  {
    var q := s.rings[g];
    && (forall i :: 0 <= i < |q| ==> FrameAt(svcs, s, q[i], InRing(g)))
    && (forall i, j :: 0 <= i < j < |q| && q[i].Answer? && q[j].Answer? ==> q[i].resp.corr != q[j].resp.corr)
  }

  ghost predicate ConnOk(svcs: seq<Service>, s: State, c: nat)
    requires c < |s.conns|
  {
    var x := s.conns[c];
    && x.pending <= s.calls.Keys + s.ctl.strays
    && match x.disp
       case Routing(f) => FrameAt(svcs, s, f, AtDispatcher(c))
       case Completing(f, k) => About(f) == Some(k) && FrameAt(svcs, s, f, Matched(c))
       case _ => true
  }

  /** The handler has run for a call whose token is here. */
  predicate AfterServing(l: Loc) {
    l.Answered? || l.InRing? || l.AtDispatcher? || l.Matched? || l.InSlot? || l.Consumed? || l.ResponseLost?
  }

  ghost predicate CallOk(svcs: seq<Service>, s: State, k: int)
    requires k in s.calls
  {
    && k in s.phase && k in s.loc
    && (s.loc[k] == AtCaller <==> s.phase[k] == Registered || s.phase[k] == Ready)
    && (k in s.reqs <==> s.phase[k] != Registered)
    && (k in s.reqs ==>
          s.reqs[k].corr == k && s.reqs[k].argFp == s.calls[k].argFp && s.reqs[k].args == s.calls[k].args)
    && (k in s.served <==> AfterServing(s.loc[k]))
    && (k in s.slot ==> s.slot[k].Answer? && s.slot[k].resp.corr == k && FrameAt(svcs, s, s.slot[k], InSlot))
    && (s.loc[k] == Consumed <==> s.phase[k].Resolved?)
    && (s.phase[k].Resolved? ==>
          && s.served[k].fn < |svcs|
          && s.phase[k].result ==
             DecodeResponse(Answer(HandleOne(svcs[s.served[k].fn], s.reqs[k], s.served[k].outcome)), s.calls[k].expectedFp))
  }

  ghost predicate Distinct(q: seq<int>) {
    forall i, j :: 0 <= i < j < |q| ==> q[i] != q[j]
  }

  /** Each frame is about the id it is kept under, which is no call's. */
  ghost predicate Own(frames: map<int, Frame>, strays: set<int>) {
    forall k :: k in frames ==> k in strays && frames[k] == Stray(Some(k))
  }

  /** The logs: each call served at most once, resolved at most once. */
  ghost predicate LogsOk(s: State) {
    && s.phase.Keys == s.calls.Keys && s.loc.Keys == s.calls.Keys && s.served.Keys <= s.calls.Keys
    && s.slot.Keys <= s.calls.Keys && s.reqs.Keys <= s.calls.Keys
    && s.ctl.strays !! s.calls.Keys
    && Own(s.ctl.heard, s.ctl.strays) && Own(s.ctl.told, s.ctl.strays)
    && Distinct(s.log.serves) && (forall k :: k in s.log.serves <==> k in s.served)
    && Distinct(s.log.resolutions) && (forall k :: k in s.log.resolutions <==> k in s.phase && s.phase[k].Resolved?)
  }

  ghost predicate Inv(svcs: seq<Service>, s: State) {
    && |s.fns| == |svcs|
    && LogsOk(s)
    && (forall f :: 0 <= f < |s.fns| ==> FnOk(svcs, s, f))
    && (forall g :: 0 <= g < |s.rings| ==> RingOk(svcs, s, g))
    && (forall c :: 0 <= c < |s.conns| ==> ConnOk(svcs, s, c))
    && (forall k :: k in s.calls ==> CallOk(svcs, s, k))
  }

  lemma InitInv(svcs: seq<Service>, conns: nat)
    ensures Inv(svcs, Init(conns, |svcs|))
  {}

  // ---- frames -----------------------------------------------------------

  /** A call whose token is at `l` is in none but these places. */
  predicate Covers(l: Option<Loc>, f: Option<nat>, g: Option<nat>, c: Option<nat>) {
    match l
    case Some(InArena(x, _)) => f == Some(x) case Some(AtReader(x)) => f == Some(x) case Some(InQueue(x)) => f == Some(x)
    case Some(AtWorker(x, _)) => f == Some(x) case Some(Answered(x, _)) => f == Some(x)
    case Some(InRing(x)) => g == Some(x)
    case Some(AtDispatcher(x)) => c == Some(x) case Some(Matched(x)) => c == Some(x)
    case _ => true
  }

  /** Nothing about any call but `k` has changed, and nothing known is taken back. */
  ghost predicate Same(s: State, s': State, k: Option<int>) {
    && (forall j :: j in s.reqs ==> j in s'.reqs && s'.reqs[j] == s.reqs[j])
    && (forall j :: j in s.served && k != Some(j) ==> j in s'.served && s'.served[j] == s.served[j])
    && (forall j :: j in s.loc && k != Some(j) ==> j in s'.loc && s'.loc[j] == s.loc[j])
    && s.ctl.strays <= s'.ctl.strays && s.calls.Keys <= s'.calls.Keys
  }

  function LocOf(s: State, k: Option<int>): Option<Loc> {
    if k.Some? && k.value in s.loc then Some(s.loc[k.value]) else None
  }

  /** A place the moving call was not at, and whose contents stay, stays in order. */
  lemma FnFrame(svcs: seq<Service>, s: State, s': State, k: Option<int>, f: nat)
    requires f < |s.fns| && f < |s'.fns| && FnOk(svcs, s, f) && s'.fns[f] == s.fns[f] && Same(s, s', k)
    requires match LocOf(s, k)
      case Some(InArena(x, _)) => x != f case Some(AtReader(x)) => x != f case Some(InQueue(x)) => x != f
      case Some(AtWorker(x, _)) => x != f case Some(Answered(x, _)) => x != f
      case _ => true
    ensures FnOk(svcs, s', f)
  {
    var x := s.fns[f];
    forall w | 0 <= w < |x.workers| ensures WorkerOk(svcs, s', f, w, x.workers[w]) {
      assert WorkerOk(svcs, s, f, w, x.workers[w]);
    }
  }

  lemma RingFrame(svcs: seq<Service>, s: State, s': State, k: Option<int>, g: nat)
    requires g < |s.rings| && g < |s'.rings| && RingOk(svcs, s, g) && s'.rings[g] == s.rings[g] && Same(s, s', k)
    requires LocOf(s, k) != Some(InRing(g))
    ensures RingOk(svcs, s', g)
  {
    forall i | 0 <= i < |s.rings[g]| ensures FrameAt(svcs, s', s.rings[g][i], InRing(g)) {
      assert FrameAt(svcs, s, s.rings[g][i], InRing(g));
    }
  }

  lemma ConnFrame(svcs: seq<Service>, s: State, s': State, k: Option<int>, c: nat)
    requires c < |s.conns| && c < |s'.conns| && ConnOk(svcs, s, c) && Same(s, s', k)
    requires s'.conns[c].disp == s.conns[c].disp && s'.conns[c].pending <= s'.calls.Keys + s'.ctl.strays
    requires LocOf(s, k) != Some(AtDispatcher(c)) && LocOf(s, k) != Some(Matched(c))
    ensures ConnOk(svcs, s', c)
  {}

  lemma CallFrame(svcs: seq<Service>, s: State, s': State, k: Option<int>, j: int)
    requires j in s.calls && CallOk(svcs, s, j) && k != Some(j) && Same(s, s', k)
    requires j in s'.calls && s'.calls[j] == s.calls[j] && j in s'.phase && s'.phase[j] == s.phase[j]
    requires j in s'.slot <==> j in s.slot
    requires j in s.slot ==> s'.slot[j] == s.slot[j]
    requires (j in s'.reqs <==> j in s.reqs) && (j in s'.served <==> j in s.served)
    ensures CallOk(svcs, s', j)
  {}

  /** What a step says of every call but `k`. */
  ghost predicate Others(s: State, s': State, k: Option<int>) {
    forall j :: j in s'.calls && k != Some(j) ==>
      && j in s.calls && s'.calls[j] == s.calls[j]
      && (j in s.phase ==> j in s'.phase && s'.phase[j] == s.phase[j])
      && (j in s'.slot <==> j in s.slot) && (j in s.slot ==> s'.slot[j] == s.slot[j])
      && (j in s'.reqs <==> j in s.reqs) && (j in s'.served <==> j in s.served)
  }

  /** Every place but one function, one ring and one connection is as it was. */
  ghost predicate Elsewhere(s: State, s': State, f: Option<nat>, g: Option<nat>, c: Option<nat>) {
    && |s'.fns| == |s.fns| && |s'.conns| == |s.conns|
    && (forall i :: 0 <= i < |s.fns| && f != Some(i) ==> s'.fns[i] == s.fns[i])
    && (forall i :: 0 <= i < |s'.rings| && g != Some(i) ==> i < |s.rings| && s'.rings[i] == s.rings[i])
    && (forall i :: 0 <= i < |s.conns| && c != Some(i) ==> s'.conns[i] == s.conns[i])
  }

  lemma Only(s: State, s': State, f: Option<nat>, g: Option<nat>, c: Option<nat>)
    requires |s'.fns| == |s.fns| && |s'.rings| == |s.rings| && |s'.conns| == |s.conns|
    requires f.Some? ==> f.value < |s.fns|
    requires g.Some? ==> g.value < |s.rings|
    requires c.Some? ==> c.value < |s.conns|
    requires s'.fns == match f case Some(i) => s.fns[i := s'.fns[i]] case None => s.fns
    requires s'.rings == match g case Some(i) => s.rings[i := s'.rings[i]] case None => s.rings
    requires s'.conns == match c case Some(i) => s.conns[i := s'.conns[i]] case None => s.conns
    ensures Elsewhere(s, s', f, g, c)
  {}

  /** To show a step keeps the invariant it is enough to look where it acts: at the
      function, ring, connection and call it touches. */
  lemma Local(
    svcs: seq<Service>, s: State, s': State, moved: Option<int>, k: Option<int>,
    f: Option<nat>, g: Option<nat>, c: Option<nat>)
    requires Inv(svcs, s) && Same(s, s', moved) && Others(s, s', k) && (moved.Some? ==> k == moved)
    requires Elsewhere(s, s', f, g, c) && Covers(LocOf(s, moved), f, g, c)
    requires f.Some? && f.value < |s'.fns| ==> FnOk(svcs, s', f.value)
    requires g.Some? && g.value < |s'.rings| ==> RingOk(svcs, s', g.value)
    requires c.Some? && c.value < |s'.conns| ==> ConnOk(svcs, s', c.value)
    requires k.Some? && k.value in s'.calls ==> CallOk(svcs, s', k.value)
    requires LogsOk(s')
    ensures Inv(svcs, s')
  {
    hide FnOk, RingOk, ConnOk, CallOk, LogsOk;
    forall i | 0 <= i < |s'.fns| ensures FnOk(svcs, s', i) {
      if f != Some(i) { FnFrame(svcs, s, s', moved, i); }
    }
    forall i | 0 <= i < |s'.rings| ensures RingOk(svcs, s', i) {
      if g != Some(i) { RingFrame(svcs, s, s', moved, i); }
    }
    forall i | 0 <= i < |s'.conns| ensures ConnOk(svcs, s', i) {
      if c != Some(i) { ConnKept(svcs, s, s', moved, i); }
    }
    forall j | j in s'.calls ensures CallOk(svcs, s', j) {
      if k != Some(j) { CallKept(svcs, s, s', moved, j); }
    }
  }

  lemma ConnKept(svcs: seq<Service>, s: State, s': State, k: Option<int>, c: nat)
    requires c < |s.conns| && c < |s'.conns| && ConnOk(svcs, s, c) && Same(s, s', k) && s'.conns[c] == s.conns[c]
    requires LocOf(s, k) != Some(AtDispatcher(c)) && LocOf(s, k) != Some(Matched(c))
    ensures ConnOk(svcs, s', c)
  {
    ConnFrame(svcs, s, s', k, c);
  }

  lemma CallKept(svcs: seq<Service>, s: State, s': State, k: Option<int>, j: int)
    requires j in s.calls && CallOk(svcs, s, j) && k != Some(j) && Same(s, s', k)
    requires j in s'.calls && s'.calls[j] == s.calls[j]
    requires j in s.phase ==> j in s'.phase && s'.phase[j] == s.phase[j]
    requires (j in s'.slot <==> j in s.slot) && (j in s.slot ==> s'.slot[j] == s.slot[j])
    requires (j in s'.reqs <==> j in s.reqs) && (j in s'.served <==> j in s.served)
    ensures CallOk(svcs, s', j)
  {
    CallFrame(svcs, s, s', k, j);
  }

  // ---- steps of a service -----------------------------------------------

  /** A queue that lost its front to somewhere else. */
  lemma Popped(s: State, s': State, q: seq<Request>, l: Loc, k: int)
    requires RequestsAt(s, q, l) && q != [] && q[0].corr == k && Same(s, s', Some(k))
    ensures RequestsAt(s', q[1..], l) && OwnRequest(s', q[0]) && At(s, k, l)
  {
    forall i | 0 <= i < |q[1..]| ensures OwnRequest(s', q[1..][i]) && At(s', q[1..][i].corr, l) {
      assert OwnRequest(s, q[i + 1]) && At(s, q[i + 1].corr, l);
    }
    assert OwnRequest(s, q[0]) && At(s, q[0].corr, l);
  }

  /** A queue that gained a request from somewhere else. */
  lemma Pushed(s: State, s': State, q: seq<Request>, l: Loc, r: Request)
    requires RequestsAt(s, q, l) && Same(s, s', Some(r.corr)) && !At(s, r.corr, l)
    requires OwnRequest(s', r) && At(s', r.corr, l)
    ensures RequestsAt(s', q + [r], l)
  {
    Untouched(s, s', q, l, r.corr);
    var q' := q + [r];
    forall i | 0 <= i < |q'| ensures OwnRequest(s', q'[i]) && At(s', q'[i].corr, l) {
      if i < |q| { assert OwnRequest(s', q[i]) && At(s', q[i].corr, l); }
    }
    forall i, j | 0 <= i < j < |q'| ensures q'[i].corr != q'[j].corr {
      assert At(s, q[i].corr, l);
    }
  }

  lemma Untouched(s: State, s': State, q: seq<Request>, l: Loc, k: int)
    requires RequestsAt(s, q, l) && Same(s, s', Some(k)) && !At(s, k, l)
    ensures RequestsAt(s', q, l)
  {
    forall i | 0 <= i < |q| ensures OwnRequest(s', q[i]) && At(s', q[i].corr, l) {
      assert OwnRequest(s, q[i]) && At(s, q[i].corr, l);
    }
  }

  predicate AtNoWorkerBut(l: Loc, f: nat, w: Option<nat>) {
    match l
    case AtWorker(x, i) => x != f || w == Some(i)
    case Answered(x, i) => x != f || w == Some(i)
    case _ => true
  }

  /** The other workers of a function, while one moves a call along. */
  lemma WorkersKept(
    svcs: seq<Service>, s: State, s': State, f: nat, w: nat, ws: seq<Worker>, ws': seq<Worker>, k: int)
    requires w < |ws| == |ws'| && ws' == ws[w := ws'[w]] && Same(s, s', Some(k))
    requires forall i :: 0 <= i < |ws| ==> WorkerOk(svcs, s, f, i, ws[i])
    requires k in s.loc ==> AtNoWorkerBut(s.loc[k], f, Some(w))
    requires WorkerOk(svcs, s', f, w, ws'[w])
    ensures forall i :: 0 <= i < |ws'| ==> WorkerOk(svcs, s', f, i, ws'[i])
  {
    forall i | 0 <= i < |ws| && i != w ensures WorkerOk(svcs, s', f, i, ws'[i]) {
      assert WorkerOk(svcs, s, f, i, ws[i]);
    }
  }

  lemma WorkersUntouched(svcs: seq<Service>, s: State, s': State, f: nat, ws: seq<Worker>, k: int)
    requires Same(s, s', Some(k))
    requires forall i :: 0 <= i < |ws| ==> WorkerOk(svcs, s, f, i, ws[i])
    requires k in s.loc ==> AtNoWorkerBut(s.loc[k], f, None)
    ensures forall i :: 0 <= i < |ws| ==> WorkerOk(svcs, s', f, i, ws[i])
  {
    forall i | 0 <= i < |ws| ensures WorkerOk(svcs, s', f, i, ws[i]) {
      assert WorkerOk(svcs, s, f, i, ws[i]);
    }
  }

  /** What the invariant says about one function and one of its calls. */
  lemma ServiceFacts(svcs: seq<Service>, s: State, f: nat)
    requires Inv(svcs, s) && f < |s.fns|
    ensures FnOk(svcs, s, f) && LogsOk(s) && |svcs| == |s.fns|
  {}

  /** A request that travels, not yet served, keeps its call's account. */
  lemma Moves(svcs: seq<Service>, s: State, s': State, k: int)
    requires Inv(svcs, s) && k in s.loc && s.loc[k] != AtCaller && !AfterServing(s.loc[k])
    requires k in s'.loc && s' == s.(fns := s'.fns, loc := s.loc[k := s'.loc[k]])
    requires s'.loc[k] != AtCaller && !AfterServing(s'.loc[k])
    ensures CallOk(svcs, s', k) && LogsOk(s')
  {
    assert k in s.calls && CallOk(svcs, s, k);
    assert s'.loc.Keys == s.loc.Keys;
  }

  /** A request not yet served moves within one function. */
  lemma Travels(svcs: seq<Service>, s: State, f: nat, x: Fn, k: int, l: Loc, s': State)
    requires Inv(svcs, s) && f < |s.fns| && k in s.loc
    requires s' == s.(fns := s.fns[f := x], loc := s.loc[k := l])
    requires s.loc[k] != AtCaller && !AfterServing(s.loc[k]) && Covers(Some(s.loc[k]), Some(f), None, None)
    requires l != AtCaller && !AfterServing(l)
    requires FnOk(svcs, s', f)
    ensures Inv(svcs, s')
  {
    hide FnOk, CallOk, LogsOk, Inv;
    Moves(svcs, s, s', k);
    Local(svcs, s, s', Some(k), Some(k), Some(f), None, None);
  }

  /** The arenas, when the call that moved was in none of them, or in arena `a` only. */
  lemma ArenasUntouched(s: State, s': State, arenas: seq<seq<Request>>, f: nat, k: int, a: Option<nat>)
    requires ArenasAt(s, arenas, f) && Same(s, s', Some(k))
    requires forall b: nat :: At(s, k, InArena(f, b)) ==> a == Some(b)
    ensures forall b :: 0 <= b < |arenas| && a != Some(b) ==> RequestsAt(s', arenas[b], InArena(f, b))
  {
    hide RequestsAt, Same, At;
    forall b | 0 <= b < |arenas| && a != Some(b) ensures RequestsAt(s', arenas[b], InArena(f, b)) {
      Untouched(s, s', arenas[b], InArena(f, b), k);
    }
  }

  /** One arena has changed. */
  lemma ArenaSet(s: State, arenas: seq<seq<Request>>, f: nat, a: nat, q: seq<Request>)
    requires a < |arenas| && RequestsAt(s, q, InArena(f, a))
    requires forall b :: 0 <= b < |arenas| && b != a ==> RequestsAt(s, arenas[b], InArena(f, b))
    ensures ArenasAt(s, arenas[a := q], f)
  {}

  lemma ReadInv(svcs: seq<Service>, s: State, f: nat, a: nat, s': State)
    requires Inv(svcs, s) && ServiceStep(svcs, s, Read(f, a)) == Some(s')
    ensures Inv(svcs, s')
  {
    hide Inv, CallOk, LogsOk, RequestsAt, WorkerOk, OwnRequest, Same;
    ServiceFacts(svcs, s, f);
    var x := s.fns[f];
    var k := x.arenas[a][0].corr;
    assert RequestsAt(s, x.arenas[a], InArena(f, a));
    FrontIsHere(s, x.arenas[a], InArena(f, a));
    SameMove(s, s', k, AtReader(f));
    Popped(s, s', x.arenas[a], InArena(f, a), k);
    ArenasUntouched(s, s', x.arenas, f, k, Some(a));
    ArenaSet(s', x.arenas, f, a, x.arenas[a][1..]);
    Untouched(s, s', x.queue, InQueue(f), k);
    WorkersUntouched(svcs, s, s', f, x.workers, k);
    Travels(svcs, s, f, s'.fns[f], k, AtReader(f), s');
  }

  lemma FrontIsHere(s: State, q: seq<Request>, l: Loc)
    requires RequestsAt(s, q, l) && q != []
    ensures OwnRequest(s, q[0]) && At(s, q[0].corr, l)
  {
    assert OwnRequest(s, q[0]) && At(s, q[0].corr, l);
  }

  lemma SameMove(s: State, s': State, k: int, l: Loc)
    requires k in s.loc && s' == s.(fns := s'.fns, loc := s.loc[k := l])
    ensures Same(s, s', Some(k)) && At(s', k, l)
    ensures forall r :: OwnRequest(s, r) ==> OwnRequest(s', r)
  {}

  lemma SubmitInv(svcs: seq<Service>, s: State, f: nat, s': State)
    requires Inv(svcs, s) && ServiceStep(svcs, s, Submit(f)) == Some(s')
    ensures Inv(svcs, s')
  {
    hide Inv, CallOk, LogsOk, RequestsAt, WorkerOk, OwnRequest, Same;
    ServiceFacts(svcs, s, f);
    var x := s.fns[f];
    var r := x.reader.value;
    SameMove(s, s', r.corr, InQueue(f));
    ArenasUntouched(s, s', x.arenas, f, r.corr, None);
    Pushed(s, s', x.queue, InQueue(f), r);
    WorkersUntouched(svcs, s, s', f, x.workers, r.corr);
    Travels(svcs, s, f, s'.fns[f], r.corr, InQueue(f), s');
  }

  lemma TakeInv(svcs: seq<Service>, s: State, f: nat, w: nat, s': State)
    requires Inv(svcs, s) && ServiceStep(svcs, s, Take(f, w)) == Some(s')
    ensures Inv(svcs, s')
  {
    hide Inv, CallOk, LogsOk, RequestsAt, OwnRequest, Same;
    ServiceFacts(svcs, s, f);
    var x := s.fns[f];
    var k := x.queue[0].corr;
    FrontIsHere(s, x.queue, InQueue(f));
    SameMove(s, s', k, AtWorker(f, w));
    Popped(s, s', x.queue, InQueue(f), k);
    ArenasUntouched(s, s', x.arenas, f, k, None);
    WorkersKept(svcs, s, s', f, w, x.workers, s'.fns[f].workers, k);
    Travels(svcs, s, f, s'.fns[f], k, AtWorker(f, w), s');
  }

  lemma SpawnInv(svcs: seq<Service>, s: State, f: nat, s': State)
    requires Inv(svcs, s) && ServiceStep(svcs, s, Spawn(f)) == Some(s')
    ensures Inv(svcs, s')
  {
    hide Inv, CallOk, RequestsAt, Same, Others, Elsewhere, LogsOk, OwnRequest, OwnResponse;
    ServiceFacts(svcs, s, f);
    LogsKept(s, s');
    Only(s, s', Some(f), None, None);
    WorkersFrame(svcs, s, s', f, s.fns[f].workers);
    ArenasStillAt(s, s', s.fns[f].arenas, f);
    StillAt(s, s', s.fns[f].queue, InQueue(f));
    var ws, ws' := s.fns[f].workers, s'.fns[f].workers;
    forall w | 0 <= w < |ws'| ensures WorkerOk(svcs, s', f, w, ws'[w]) {
      if w < |ws| { assert WorkerOk(svcs, s', f, w, ws[w]); }
    }
    ReaderFrame(s, s', s.fns[f].reader, AtReader(f));
    Local(svcs, s, s', None, None, Some(f), None, None);
  }

  lemma WorkersFrame(svcs: seq<Service>, s: State, s': State, f: nat, ws: seq<Worker>)
    requires Same(s, s', None) && forall i :: 0 <= i < |ws| ==> WorkerOk(svcs, s, f, i, ws[i])
    ensures forall i :: 0 <= i < |ws| ==> WorkerOk(svcs, s', f, i, ws[i])
  {
    forall i | 0 <= i < |ws| ensures WorkerOk(svcs, s', f, i, ws[i]) { assert WorkerOk(svcs, s, f, i, ws[i]); }
  }

  lemma ReaderFrame(s: State, s': State, r: Option<Request>, l: Loc)
    requires Same(s, s', None) && (r.Some? ==> OwnRequest(s, r.value) && At(s, r.value.corr, l))
    ensures r.Some? ==> OwnRequest(s', r.value) && At(s', r.value.corr, l)
  {}

  lemma StillAt(s: State, s': State, q: seq<Request>, l: Loc)
    requires RequestsAt(s, q, l) && Same(s, s', None)
    ensures RequestsAt(s', q, l)
  {
    forall i | 0 <= i < |q| ensures OwnRequest(s', q[i]) && At(s', q[i].corr, l) {
      assert OwnRequest(s, q[i]) && At(s, q[i].corr, l);
    }
  }

  lemma ArenasStillAt(s: State, s': State, arenas: seq<seq<Request>>, f: nat)
    requires ArenasAt(s, arenas, f) && Same(s, s', None)
    ensures ArenasAt(s', arenas, f)
  {
    hide RequestsAt, Same;
    forall a | 0 <= a < |arenas| ensures RequestsAt(s', arenas[a], InArena(f, a)) {
      StillAt(s, s', arenas[a], InArena(f, a));
    }
  }

  /** A fresh arena is empty; what the old ones hold stays where it is. */
  lemma ReexposeInv(svcs: seq<Service>, s: State, f: nat, s': State)
    requires Inv(svcs, s) && ServiceStep(svcs, s, Reexpose(f)) == Some(s')
    ensures Inv(svcs, s')
  {
    hide Inv, CallOk, Same, Others, Elsewhere, LogsOk, OwnRequest, OwnResponse;
    ServiceFacts(svcs, s, f);
    LogsKept(s, s');
    Only(s, s', Some(f), None, None);
    WorkersFrame(svcs, s, s', f, s.fns[f].workers);
    ArenasStillAt(s, s', s.fns[f].arenas, f);
    StillAt(s, s', s.fns[f].queue, InQueue(f));
    ReaderFrame(s, s', s.fns[f].reader, AtReader(f));
    FreshArena(s', s.fns[f].arenas, f);
    assert FnOk(svcs, s', f);
    Local(svcs, s, s', None, None, Some(f), None, None);
  }

  lemma FreshArena(s: State, arenas: seq<seq<Request>>, f: nat)
    requires ArenasAt(s, arenas, f)
    ensures ArenasAt(s, arenas + [[]], f)
  {}

  lemma AnswersItsRequest(svc: Service, r: Request, o: Outcome)
    ensures HandleOne(svc, r, o).corr == r.corr
  {}

  lemma ServeInv(svcs: seq<Service>, s: State, f: nat, w: nat, o: Outcome, s': State)
    requires Inv(svcs, s) && ServiceStep(svcs, s, Serve(f, w, o)) == Some(s')
    ensures Inv(svcs, s')
  {
    hide Inv, CallOk, LogsOk, RequestsAt, HandleOne, Same, Others, Elsewhere;
    ServiceFacts(svcs, s, f);
    Only(s, s', Some(f), None, None);
    var x := s.fns[f];
    assert WorkerOk(svcs, s, f, w, x.workers[w]);
    var r := x.workers[w].req;
    AnswersItsRequest(svcs[f], r, o);
    assert At(s, r.corr, AtWorker(f, w));
    ServeAccount(svcs, s, s', r.corr, f, w, o);
    ArenasUntouched(s, s', x.arenas, f, r.corr, None);
    Untouched(s, s', x.queue, InQueue(f), r.corr);
    WorkersKept(svcs, s, s', f, w, x.workers, s'.fns[f].workers, r.corr);
    ReaderKept(s, s', x.reader, f, r.corr);
    assert FnOk(svcs, s', f);
    Local(svcs, s, s', Some(r.corr), Some(r.corr), Some(f), None, None);
  }

  lemma ReaderKept(s: State, s': State, r: Option<Request>, f: nat, k: int)
    requires Same(s, s', Some(k)) && !At(s, k, AtReader(f))
    requires r.Some? ==> OwnRequest(s, r.value) && At(s, r.value.corr, AtReader(f))
    ensures r.Some? ==> OwnRequest(s', r.value) && At(s', r.value.corr, AtReader(f))
  {}

  lemma ServeAccount(svcs: seq<Service>, s: State, s': State, k: int, f: nat, w: nat, o: Outcome)
    requires Inv(svcs, s) && At(s, k, AtWorker(f, w))
    requires s' == s.(fns := s'.fns, loc := s.loc[k := Answered(f, w)], served := s.served[k := Served(f, o)],
                      log := s.log.(serves := s.log.serves + [k]))
    ensures CallOk(svcs, s', k) && LogsOk(s') && Same(s, s', Some(k)) && Others(s, s', Some(k))
  {
    hide FnOk, RingOk, ConnOk, HandleOne, DecodeResponse;
    assert k in s.calls && CallOk(svcs, s, k) && LogsOk(s);
    hide Inv;
    assert s'.loc.Keys == s.loc.Keys;
    assert k !in s.log.serves;
    LoggedOnce(s.log.serves, k);
  }

  lemma LoggedOnce(q: seq<int>, k: int)
    requires Distinct(q) && k !in q
    ensures Distinct(q + [k]) && forall j :: j in q + [k] <==> j in q || j == k
  {}

  // ---- responses on their way -------------------------------------------

  /** A response that travels keeps its call's account. */
  lemma Carries(svcs: seq<Service>, s: State, s': State, k: int, l: Loc)
    requires Inv(svcs, s) && k in s.loc && AfterServing(s.loc[k]) && s.loc[k] != Consumed && s.loc[k] != InSlot
    requires AfterServing(l) && l != Consumed && l != InSlot
    requires s' == s.(fns := s'.fns, rings := s'.rings, conns := s'.conns, loc := s.loc[k := l])
    ensures CallOk(svcs, s', k) && LogsOk(s') && Same(s, s', Some(k)) && Others(s, s', Some(k))
  {
    hide FnOk, RingOk, ConnOk, HandleOne, DecodeResponse;
    assert k in s.calls && CallOk(svcs, s, k) && LogsOk(s);
    hide Inv;
    assert s'.loc.Keys == s.loc.Keys;
  }

  lemma RingFacts(svcs: seq<Service>, s: State, g: nat)
    requires Inv(svcs, s) && g < |s.rings|
    ensures RingOk(svcs, s, g) && LogsOk(s)
  {}

  lemma ConnFacts(svcs: seq<Service>, s: State, c: nat)
    requires Inv(svcs, s) && c < |s.conns|
    ensures ConnOk(svcs, s, c) && LogsOk(s)
  {}

  /** A ring that gained a frame which was not on it. */
  lemma FramePushed(svcs: seq<Service>, s: State, s': State, g: nat, f: Frame, k: Option<int>)
    requires g < |s.rings| && g < |s'.rings| && RingOk(svcs, s, g) && s'.rings[g] == s.rings[g] + [f] && Same(s, s', k)
    requires FrameAt(svcs, s', f, InRing(g)) && LocOf(s, k) != Some(InRing(g))
    requires f.Answer? ==> k == Some(f.resp.corr)
    ensures RingOk(svcs, s', g)
  {
    var q, q' := s.rings[g], s'.rings[g];
    forall i | 0 <= i < |q'| ensures FrameAt(svcs, s', q'[i], InRing(g)) {
      if i < |q| { assert FrameAt(svcs, s, q[i], InRing(g)); }
    }
    forall i, j | 0 <= i < j < |q'| && q'[i].Answer? && q'[j].Answer? ensures q'[i].resp.corr != q'[j].resp.corr {
      assert FrameAt(svcs, s, q[i], InRing(g));
    }
  }

  /** A ring that lost its front. */
  lemma FramePopped(svcs: seq<Service>, s: State, s': State, g: nat, k: Option<int>)
    requires g < |s.rings| && g < |s'.rings| && RingOk(svcs, s, g) && s.rings[g] != []
    requires s'.rings[g] == s.rings[g][1..] && Same(s, s', k)
    requires k == match s.rings[g][0] case Answer(r) => Some(r.corr) case Stray(_) => None
    ensures RingOk(svcs, s', g) && FrameAt(svcs, s, s.rings[g][0], InRing(g))
  {
    var q, q' := s.rings[g], s'.rings[g];
    assert FrameAt(svcs, s, q[0], InRing(g));
    forall i | 0 <= i < |q'| ensures FrameAt(svcs, s', q'[i], InRing(g)) {
      assert FrameAt(svcs, s, q[i + 1], InRing(g)) && q'[i] == q[i + 1];
    }
  }

  /** An own response stays one, wherever it goes. */
  lemma StillOwn(svcs: seq<Service>, s: State, s': State, r: Response)
    requires OwnResponse(svcs, s, r) && s'.served == s.served && s'.reqs == s.reqs
    ensures OwnResponse(svcs, s', r)
  {}

  lemma SendInv(svcs: seq<Service>, s: State, f: nat, w: nat, taken: bool, s': State)
    requires Inv(svcs, s) && ServiceStep(svcs, s, Send(f, w, taken)) == Some(s')
    ensures Inv(svcs, s')
  {
    hide Inv, CallOk, LogsOk, RequestsAt, OwnResponse, RingOk, ConnOk, Same, Others, Elsewhere;
    ServiceFacts(svcs, s, f);
    var x := s.fns[f];
    assert WorkerOk(svcs, s, f, w, x.workers[w]);
    var r, g := x.workers[w].resp, x.workers[w].replyTo;
    Carries(svcs, s, s', r.corr, if taken then InRing(g) else ResponseLost);
    StillOwn(svcs, s, s', r);
    ArenasUntouched(s, s', x.arenas, f, r.corr, None);
    Untouched(s, s', x.queue, InQueue(f), r.corr);
    WorkersKept(svcs, s, s', f, w, x.workers, s'.fns[f].workers, r.corr);
    ReaderKept(s, s', x.reader, f, r.corr);
    assert FnOk(svcs, s', f);
    if taken {
      RingFacts(svcs, s, g);
      FramePushed(svcs, s, s', g, Answer(r), Some(r.corr));
    }
    Only(s, s', Some(f), if taken then Some(g) else None, None);
    Local(svcs, s, s', Some(r.corr), Some(r.corr), Some(f), if taken then Some(g) else None, None);
  }

  lemma PopReplyInv(svcs: seq<Service>, s: State, c: nat, s': State)
    requires Inv(svcs, s) && PopStep(s, c) == Some(s')
    ensures Inv(svcs, s')
  {
    hide Inv, CallOk, LogsOk, RingOk, OwnResponse, Same, Others, Elsewhere;
    var g := s.conns[c].disp.ring;
    if s.rings[g] == [] {
      ConnFacts(svcs, s, c);
      Only(s, s', None, None, Some(c));
      LogsKept(s, s');
      Local(svcs, s, s', None, None, None, None, Some(c));
    } else if s.rings[g][0].Answer? {
      PopAnswer(svcs, s, c, g, s');
    } else {
      PopStray(svcs, s, c, g, s');
    }
  }

  lemma PopAnswer(svcs: seq<Service>, s: State, c: nat, g: nat, s': State)
    requires Inv(svcs, s) && PopStep(s, c) == Some(s')
    requires g == s.conns[c].disp.ring && s.rings[g] != [] && s.rings[g][0].Answer?
    ensures Inv(svcs, s')
  {
    hide Inv, CallOk, LogsOk, RingOk, OwnResponse, Same, Others, Elsewhere;
    ConnFacts(svcs, s, c);
    RingFacts(svcs, s, g);
    Only(s, s', None, Some(g), Some(c));
    FrontFrame(svcs, s, g);
    var r := s.rings[g][0].resp;
    Carries(svcs, s, s', r.corr, AtDispatcher(c));
    StillOwn(svcs, s, s', r);
    FramePopped(svcs, s, s', g, Some(r.corr));
    Local(svcs, s, s', Some(r.corr), Some(r.corr), None, Some(g), Some(c));
  }

  lemma PopStray(svcs: seq<Service>, s: State, c: nat, g: nat, s': State)
    requires Inv(svcs, s) && PopStep(s, c) == Some(s')
    requires g == s.conns[c].disp.ring && s.rings[g] != [] && s.rings[g][0].Stray?
    ensures Inv(svcs, s')
  {
    hide Inv, CallOk, LogsOk, RingOk, OwnResponse, Same, Others, Elsewhere;
    ConnFacts(svcs, s, c);
    RingFacts(svcs, s, g);
    Only(s, s', None, Some(g), Some(c));
    FrontFrame(svcs, s, g);
    LogsKept(s, s');
    FramePopped(svcs, s, s', g, None);
    Local(svcs, s, s', None, None, None, Some(g), Some(c));
  }

  lemma FrontFrame(svcs: seq<Service>, s: State, g: nat)
    requires g < |s.rings| && RingOk(svcs, s, g) && s.rings[g] != []
    ensures FrameAt(svcs, s, s.rings[g][0], InRing(g))
  {}

  lemma LogsKept(s: State, s': State)
    requires LogsOk(s) && s' == s.(fns := s'.fns, rings := s'.rings, conns := s'.conns)
    ensures LogsOk(s') && Same(s, s', None) && Others(s, s', None)
  {}

  lemma RouteInv(svcs: seq<Service>, s: State, c: nat, s': State)
    requires Inv(svcs, s) && RouteStep(s, c) == Some(s')
    ensures Inv(svcs, s')
  {
    hide Inv, CallOk, LogsOk, RingOk, OwnResponse, Same, Others, Elsewhere;
    if s.conns[c].disp.frame.Answer? { RouteAnswer(svcs, s, c, s'); } else { RouteStray(svcs, s, c, s'); }
  }

  /** A routed frame takes its slot out of the pending map, or nothing happens. */
  lemma RouteShape(s: State, c: nat, s': State)
    requires RouteStep(s, c) == Some(s')
    ensures c < |s.conns| && s.conns[c].disp.Routing?
    ensures var x, f := s.conns[c], s.conns[c].disp.frame;
      var mine := About(f).Some? && About(f).value in x.pending;
      && s' == s.(conns := s.conns[c := s'.conns[c]], loc := Moved(s, f, if mine then Matched(c) else ResponseLost))
      && s'.conns[c] == if mine then x.(disp := Completing(f, About(f).value), pending := x.pending - {About(f).value})
                        else x.(disp := Resting)
  {}

  lemma RouteAnswer(svcs: seq<Service>, s: State, c: nat, s': State)
    requires Inv(svcs, s) && RouteStep(s, c) == Some(s') && s.conns[c].disp.frame.Answer?
    ensures Inv(svcs, s')
  {
    hide Inv, CallOk, LogsOk, RingOk, OwnResponse, Same, Others, Elsewhere;
    ConnFacts(svcs, s, c);
    Only(s, s', None, None, Some(c));
    var r := s.conns[c].disp.frame.resp;
    RouteShape(s, c, s');
    hide RouteStep;
    Carries(svcs, s, s', r.corr, if r.corr in s.conns[c].pending then Matched(c) else ResponseLost);
    StillOwn(svcs, s, s', r);
    Local(svcs, s, s', Some(r.corr), Some(r.corr), None, None, Some(c));
  }

  lemma RouteStray(svcs: seq<Service>, s: State, c: nat, s': State)
    requires Inv(svcs, s) && RouteStep(s, c) == Some(s') && s.conns[c].disp.frame.Stray?
    ensures Inv(svcs, s')
  {
    hide Inv, CallOk, LogsOk, RingOk, Same, Others, Elsewhere;
    ConnFacts(svcs, s, c);
    RouteShape(s, c, s');
    hide RouteStep;
    Only(s, s', None, None, Some(c));
    LogsKept(s, s');
    Local(svcs, s, s', None, None, None, None, Some(c));
  }

  lemma CompleteInv(svcs: seq<Service>, s: State, c: nat, s': State)
    requires Inv(svcs, s) && CompleteStep(s, c) == Some(s')
    ensures Inv(svcs, s')
  {
    hide Inv, CallOk, LogsOk, RingOk, OwnResponse, Same, Others, Elsewhere;
    ConnFacts(svcs, s, c);
    Only(s, s', None, None, Some(c));
    var k, f := s.conns[c].disp.corr, s.conns[c].disp.frame;
    if f.Answer? {
      StillOwn(svcs, s, s', f.resp);
      CompleteAccount(svcs, s, s', k, c, f.resp);
      Local(svcs, s, s', Some(k), Some(k), None, None, Some(c));
    } else {
      OwnFrames(svcs, s);
      ControlLogged(s, s');
      Local(svcs, s, s', None, None, None, None, Some(c));
    }
  }

  /** What control round-trips keep to themselves. */
  lemma ControlLogged(s: State, s': State)
    requires LogsOk(s) && s' == s.(conns := s'.conns, ctl := s'.ctl)
    requires s.ctl.strays <= s'.ctl.strays && s'.ctl.strays !! s.calls.Keys
    requires Own(s'.ctl.heard, s'.ctl.strays) && Own(s'.ctl.told, s'.ctl.strays)
    ensures LogsOk(s') && Same(s, s', None) && Others(s, s', None)
  {}

  lemma OwnFrames(svcs: seq<Service>, s: State)
    requires Inv(svcs, s)
    ensures LogsOk(s) && s.ctl.strays !! s.calls.Keys && Own(s.ctl.heard, s.ctl.strays) && Own(s.ctl.told, s.ctl.strays)
  {}

  lemma ControlInv(svcs: seq<Service>, s: State, st: Step, s': State)
    requires Inv(svcs, s) && ControlStep(s, st) == Some(s')
    ensures Inv(svcs, s')
  {
    hide Inv, CallOk, LogsOk, RingOk, FnOk, Same, Others, Elsewhere;
    OwnFrames(svcs, s);
    ControlLogged(s, s');
    if st.Hear? {
      Only(s, s', None, None, None);
      Local(svcs, s, s', None, None, None, None, None);
    } else {
      ConnFacts(svcs, s, st.c);
      ConnFrame(svcs, s, s', None, st.c);
      Only(s, s', None, None, Some(st.c));
      Local(svcs, s, s', None, None, None, None, Some(st.c));
    }
  }

  lemma CompleteAccount(svcs: seq<Service>, s: State, s': State, k: int, c: nat, r: Response)
    requires Inv(svcs, s) && At(s, k, Matched(c)) && r.corr == k && OwnResponse(svcs, s, r)
    requires s' == s.(conns := s'.conns, slot := s.slot[k := Answer(r)], loc := s.loc[k := InSlot])
    ensures CallOk(svcs, s', k) && LogsOk(s') && Same(s, s', Some(k)) && Others(s, s', Some(k))
  {
    hide FnOk, RingOk, ConnOk, HandleOne, DecodeResponse;
    assert k in s.calls && CallOk(svcs, s, k) && LogsOk(s);
    hide Inv;
    assert s'.loc.Keys == s.loc.Keys;
  }

  lemma WatchInv(svcs: seq<Service>, s: State, c: nat, s': State)
    requires Inv(svcs, s) && DispatcherStep(s, Watch(c)) == Some(s')
    ensures Inv(svcs, s')
  {
    hide Inv, CallOk, LogsOk, RingOk, Same, Others, Elsewhere;
    ConnFacts(svcs, s, c);
    LogsKept(s, s');
    Only(s, s', None, None, Some(c));
    Local(svcs, s, s', None, None, None, None, Some(c));
  }

  // ---- steps of a caller ------------------------------------------------

  lemma RegisterInv(svcs: seq<Service>, s: State, c: nat, k: int, call: Call, s': State)
    requires Inv(svcs, s) && CallStep(s, Register(c, k, call)) == Some(s')
    ensures Inv(svcs, s')
  {
    hide Inv, CallOk, RingOk, LogsOk, Same, Others, Elsewhere;
    ConnFacts(svcs, s, c);
    Only(s, s', None, None, Some(c));
    RegisterAccount(svcs, s, s', k, call);
    ConnFrame(svcs, s, s', Some(k), c);
    Local(svcs, s, s', Some(k), Some(k), None, None, Some(c));
  }

  lemma RegisterAccount(svcs: seq<Service>, s: State, s': State, k: int, call: Call)
    requires Inv(svcs, s) && k !in s.calls && k !in s.ctl.strays
    requires s' == s.(conns := s'.conns, calls := s.calls[k := call], phase := s.phase[k := Registered],
                      loc := s.loc[k := AtCaller])
    ensures CallOk(svcs, s', k) && LogsOk(s') && Same(s, s', Some(k)) && Others(s, s', Some(k)) && LocOf(s, Some(k)) == None
  {
    assert LogsOk(s);
    hide Inv;
    RegisterLogs(s, s', k, call);
  }

  lemma RegisterLogs(s: State, s': State, k: int, call: Call)
    requires LogsOk(s) && k !in s.calls && k !in s.ctl.strays
    requires s' == s.(conns := s'.conns, calls := s.calls[k := call], phase := s.phase[k := Registered],
                      loc := s.loc[k := AtCaller])
    ensures LogsOk(s')
  {
    assert s'.phase.Keys == s'.calls.Keys == s'.loc.Keys;
  }

  /** A call that changes its phase, short of resolving, changes no log. */
  lemma PhaseLogs(s: State, s': State, k: int)
    requires LogsOk(s) && k in s.calls && s.calls.Keys == s'.calls.Keys && s'.reqs.Keys <= s.calls.Keys
    requires s'.phase.Keys == s.phase.Keys && s'.loc.Keys == s.loc.Keys
    requires s' == s.(conns := s'.conns, fns := s'.fns, phase := s'.phase, loc := s'.loc, reqs := s'.reqs)
    requires forall j :: j in s.phase ==> s'.phase[j].Resolved? == s.phase[j].Resolved?
    ensures LogsOk(s')
  {}

  lemma BuildInv(svcs: seq<Service>, s: State, k: int, s': State)
    requires Inv(svcs, s) && CallStep(s, Build(k)) == Some(s')
    ensures Inv(svcs, s')
  {
    hide Inv, CallOk, LogsOk, Same, Others, Elsewhere;
    BuildAccount(svcs, s, s', k, s'.reqs[k]);
    Only(s, s', None, None, None);
    Local(svcs, s, s', None, Some(k), None, None, None);
  }

  lemma BuildAccount(svcs: seq<Service>, s: State, s': State, k: int, r: Request)
    requires Inv(svcs, s) && k in s.calls && k in s.phase && s.phase[k] == Registered
    requires r.corr == k && r.argFp == s.calls[k].argFp && r.args == s.calls[k].args
    requires s' == s.(reqs := s.reqs[k := r], phase := s.phase[k := Ready])
    ensures CallOk(svcs, s', k) && LogsOk(s') && Same(s, s', None) && Others(s, s', Some(k))
  {
    hide FnOk, RingOk, ConnOk, HandleOne, DecodeResponse, FrameAt;
    assert CallOk(svcs, s, k) && LogsOk(s);
    hide Inv;
    BuiltCall(svcs, s, s', k, r);
    assert k !in s.reqs;
    hide CallOk;
    assert s'.phase.Keys == s.phase.Keys;
    PhaseLogs(s, s', k);
  }

  lemma BuiltCall(svcs: seq<Service>, s: State, s': State, k: int, r: Request)
    requires k in s.calls && CallOk(svcs, s, k) && s.phase[k] == Registered
    requires r.corr == k && r.argFp == s.calls[k].argFp && r.args == s.calls[k].args
    requires s' == s.(reqs := s.reqs[k := r], phase := s.phase[k := Ready])
    ensures CallOk(svcs, s', k)
  {
    hide HandleOne, DecodeResponse;
    assert k !in s.served && k !in s.slot;
  }

  lemma PushInv(svcs: seq<Service>, s: State, k: int, a: nat, room: bool, s': State)
    requires Inv(svcs, s) && CallStep(s, Push(k, a, room)) == Some(s')
    ensures Inv(svcs, s')
  {
    hide Inv, CallOk, RingOk, LogsOk, RequestsAt, Same, Others, Elsewhere;
    PushFacts(svcs, s, k);
    var c, f := s.calls[k].conn, s.calls[k].fn;
    Only(s, s', if room then Some(f) else None, None, if room then None else Some(c));
    PushAccount(svcs, s, s', k, if room then Waiting else NotPlaced, if room then InArena(f, a) else RequestLost);
    if room {
      ServiceFacts(svcs, s, f);
      assert RequestsAt(s, s.fns[f].arenas[a], InArena(f, a));
      Pushed(s, s', s.fns[f].arenas[a], InArena(f, a), s.reqs[k]);
      ArenasUntouched(s, s', s.fns[f].arenas, f, k, None);
      ArenaSet(s', s.fns[f].arenas, f, a, s.fns[f].arenas[a] + [s.reqs[k]]);
      Untouched(s, s', s.fns[f].queue, InQueue(f), k);
      WorkersUntouched(svcs, s, s', f, s.fns[f].workers, k);
      ReaderKept(s, s', s.fns[f].reader, f, k);
      Local(svcs, s, s', Some(k), Some(k), Some(f), None, None);
    } else {
      ConnFacts(svcs, s, c);
      ConnFrame(svcs, s, s', Some(k), c);
      Local(svcs, s, s', Some(k), Some(k), None, None, Some(c));
    }
  }

  lemma PushFacts(svcs: seq<Service>, s: State, k: int)
    requires Inv(svcs, s) && k in s.phase && s.phase[k] == Ready
    ensures k in s.calls && At(s, k, AtCaller) && k in s.reqs && s.reqs[k].corr == k
  {
    assert CallOk(svcs, s, k);
  }

  lemma PushAccount(svcs: seq<Service>, s: State, s': State, k: int, ph: Phase, l: Loc)
    requires Inv(svcs, s) && k in s.phase && s.phase[k] == Ready
    requires s' == s.(conns := s'.conns, fns := s'.fns, phase := s.phase[k := ph], loc := s.loc[k := l])
    requires (ph == Waiting || ph == NotPlaced) && (l.InArena? || l == RequestLost)
    ensures CallOk(svcs, s', k) && LogsOk(s') && Same(s, s', Some(k)) && Others(s, s', Some(k))
  {
    hide FnOk, RingOk, ConnOk, HandleOne, DecodeResponse, FrameAt;
    assert k in s.calls && CallOk(svcs, s, k) && LogsOk(s);
    hide Inv;
    PlacedCall(svcs, s, s', k, ph, l);
    hide CallOk;
    PushLogs(s, s', k, ph, l);
  }

  lemma PlacedCall(svcs: seq<Service>, s: State, s': State, k: int, ph: Phase, l: Loc)
    requires k in s.calls && CallOk(svcs, s, k) && s.phase[k] == Ready
    requires s' == s.(conns := s'.conns, fns := s'.fns, phase := s.phase[k := ph], loc := s.loc[k := l])
    requires (ph == Waiting || ph == NotPlaced) && (l.InArena? || l == RequestLost)
    ensures CallOk(svcs, s', k)
  {
    hide HandleOne, DecodeResponse;
    assert k !in s.served && k !in s.slot;
  }

  lemma PushLogs(s: State, s': State, k: int, ph: Phase, l: Loc)
    requires LogsOk(s) && k in s.calls && s.phase[k] == Ready && !ph.Resolved?
    requires s' == s.(conns := s'.conns, fns := s'.fns, phase := s.phase[k := ph], loc := s.loc[k := l])
    ensures LogsOk(s')
  {
    assert s'.loc.Keys == s.loc.Keys && s'.phase.Keys == s.phase.Keys;
  }

  lemma PollInv(svcs: seq<Service>, s: State, k: int, s': State)
    requires Inv(svcs, s) && FutureStep(s, Poll(k)) == Some(s')
    ensures Inv(svcs, s')
  {
    hide FnOk, RingOk, ConnOk, Inv, LogsOk, CallOk, Same, Others, Elsewhere;
    Only(s, s', None, None, None);
    PollAccount(svcs, s, s', k);
    Local(svcs, s, s', Some(k), Some(k), None, None, None);
  }

  lemma PollAccount(svcs: seq<Service>, s: State, s': State, k: int)
    requires Inv(svcs, s) && FutureStep(s, Poll(k)) == Some(s')
    ensures CallOk(svcs, s', k) && LogsOk(s') && Same(s, s', Some(k)) && Others(s, s', Some(k))
    ensures LocOf(s, Some(k)) == Some(InSlot)
  {
    hide FnOk, RingOk, ConnOk, HandleOne, DecodeResponse;
    assert k in s.calls && CallOk(svcs, s, k) && LogsOk(s);
    hide Inv;
    assert At(s, k, InSlot) && OwnResponse(svcs, s, s.slot[k].resp);
    assert CallOk(svcs, s', k);
    hide CallOk, OwnResponse, FrameAt;
    PollLogs(s, s', k);
  }

  lemma PollLogs(s: State, s': State, k: int)
    requires LogsOk(s) && FutureStep(s, Poll(k)) == Some(s')
    ensures LogsOk(s')
  {
    hide DecodeResponse;
    assert s'.loc.Keys == s.loc.Keys && s'.phase.Keys == s.phase.Keys;
    assert k !in s.log.resolutions;
    LoggedOnce(s.log.resolutions, k);
  }

  /** Dropping a pending slot, whatever the phase becomes. */
  lemma DropInv(svcs: seq<Service>, s: State, k: int, s': State)
    requires Inv(svcs, s) && (FutureStep(s, Abandon(k)) == Some(s') || FutureStep(s, Forget(k)) == Some(s'))
    ensures Inv(svcs, s')
  {
    hide FnOk, RingOk, Inv, LogsOk, CallOk, Same, Others, Elsewhere;
    var c := s.calls[k].conn;
    Only(s, s', None, None, Some(c));
    DropAccount(svcs, s, s', k);
    ConnFacts(svcs, s, c);
    ConnFrame(svcs, s, s', None, c);
    Local(svcs, s, s', None, Some(k), None, None, Some(c));
  }

  lemma DropAccount(svcs: seq<Service>, s: State, s': State, k: int)
    requires Inv(svcs, s) && k in s.calls && k in s.phase && k in s'.phase
    requires s' == s.(conns := s'.conns, phase := s'.phase)
    requires s'.phase == s.phase || (s.phase[k] == Waiting && s'.phase == s.phase[k := Abandoned])
    ensures CallOk(svcs, s', k) && LogsOk(s') && Same(s, s', None) && Others(s, s', Some(k))
  {
    hide FnOk, RingOk, ConnOk, HandleOne, DecodeResponse;
    assert k in s.calls && CallOk(svcs, s, k) && LogsOk(s);
    hide Inv;
    assert s'.phase.Keys == s.phase.Keys;
  }

  // ---- reconnects, and the rest of the world ----------------------------

  lemma ClearInv(svcs: seq<Service>, s: State, c: nat, s': State)
    requires Inv(svcs, s) && WorldStep(s, ClearPending(c)) == Some(s')
    ensures Inv(svcs, s')
  {
    hide Inv, LogsOk, CallOk, RingOk, Same, Others, Elsewhere;
    ConnFacts(svcs, s, c);
    LogsKept(s, s');
    Only(s, s', None, None, Some(c));
    ConnFrame(svcs, s, s', None, c);
    Local(svcs, s, s', None, None, None, None, Some(c));
  }

  lemma SwapInv(svcs: seq<Service>, s: State, c: nat, s': State)
    requires Inv(svcs, s) && WorldStep(s, SwapTransport(c)) == Some(s')
    ensures Inv(svcs, s')
  {
    hide Inv, LogsOk, CallOk, RingOk, Same, Others;
    ConnFacts(svcs, s, c);
    LogsKept(s, s');
    ConnFrame(svcs, s, s', None, c);
    EmptyRing(svcs, s', |s.rings|);
    Local(svcs, s, s', None, None, None, Some(|s.rings|), Some(c));
  }

  lemma OtherFrameInv(svcs: seq<Service>, s: State, g: nat, about: Option<int>, s': State)
    requires Inv(svcs, s) && WorldStep(s, OtherFrame(g, about)) == Some(s')
    ensures Inv(svcs, s')
  {
    hide Inv, LogsOk, CallOk, RingOk, Same, Others, Elsewhere;
    RingFacts(svcs, s, g);
    StraysApart(s, about);
    StrayLogged(s, s');
    FramePushed(svcs, s, s', g, Stray(about), None);
    Only(s, s', None, Some(g), None);
    Local(svcs, s, s', None, None, None, Some(g), None);
  }

  lemma StraysApart(s: State, about: Option<int>)
    requires LogsOk(s) && (about.Some? ==> about.value !in s.calls)
    ensures s.ctl.strays + (if about.Some? then {about.value} else {}) !! s.calls.Keys
  {}

  lemma EmptyRing(svcs: seq<Service>, s: State, g: nat)
    requires g < |s.rings| && s.rings[g] == []
    ensures RingOk(svcs, s, g)
  {}

  lemma StrayLogged(s: State, s': State)
    requires LogsOk(s) && s.ctl.strays <= s'.ctl.strays && s'.ctl.strays !! s.calls.Keys
    requires s' == s.(rings := s'.rings, ctl := s.ctl.(strays := s'.ctl.strays))
    ensures LogsOk(s') && Same(s, s', None) && Others(s, s', None)
  {}

  // ---- every run --------------------------------------------------------

  lemma StepInv(svcs: seq<Service>, s: State, st: Step, s': State)
    requires Inv(svcs, s) && Apply(svcs, s, st) == Some(s')
    ensures Inv(svcs, s')
  {
    hide Inv, CallStep, FutureStep, ServiceStep, PopStep, RouteStep, CompleteStep, ControlStep, WorldStep;
    match st
    case Register(c, k, call) => RegisterInv(svcs, s, c, k, call, s');
    case Build(k) => BuildInv(svcs, s, k, s');
    case Push(k, a, room) => PushInv(svcs, s, k, a, room, s');
    case Reexpose(f) => ReexposeInv(svcs, s, f, s');
    case Read(f, a) => ReadInv(svcs, s, f, a, s');
    case Submit(f) => SubmitInv(svcs, s, f, s');
    case Spawn(f) => SpawnInv(svcs, s, f, s');
    case Take(f, w) => TakeInv(svcs, s, f, w, s');
    case Serve(f, w, o) => ServeInv(svcs, s, f, w, o, s');
    case Send(f, w, taken) => SendInv(svcs, s, f, w, taken, s');
    case Watch(c) => WatchInv(svcs, s, c, s');
    case PopReply(c) => PopReplyInv(svcs, s, c, s');
    case Route(c) => RouteInv(svcs, s, c, s');
    case Complete(c) => CompleteInv(svcs, s, c, s');
    case Poll(k) => PollInv(svcs, s, k, s');
    case Abandon(k) => DropInv(svcs, s, k, s');
    case Forget(k) => DropInv(svcs, s, k, s');
    case Ask(_, _) => ControlInv(svcs, s, st, s');
    case Hear(_) => ControlInv(svcs, s, st, s');
    case GiveUp(_, _) => ControlInv(svcs, s, st, s');
    case ClearPending(c) => ClearInv(svcs, s, c, s');
    case SwapTransport(c) => SwapInv(svcs, s, c, s');
    case OtherFrame(g, about) => OtherFrameInv(svcs, s, g, about, s');
  }

  lemma {:induction false} RunInv(svcs: seq<Service>, conns: nat, steps: seq<Step>)
    requires Run(svcs, conns, steps).Some?
    ensures Inv(svcs, Run(svcs, conns, steps).value)
    decreases |steps|
  {
    hide Inv, Apply;
    if steps == [] {
      InitInv(svcs, conns);
    } else {
      var before := steps[..|steps| - 1];
      RunInv(svcs, conns, before);
      StepInv(svcs, Run(svcs, conns, before).value, steps[|steps| - 1], Run(svcs, conns, steps).value);
    }
  }

  /** A call that resolves well resolves to what the handler returned for that very
      call's request, served by a function of both the schemas the caller expected;
      the request was served once, and the call resolved once. */
  lemma ResolvesToItsOwnAnswer(svcs: seq<Service>, conns: nat, steps: seq<Step>, k: int)
    requires Run(svcs, conns, steps).Some?
    requires k in Run(svcs, conns, steps).value.phase && Run(svcs, conns, steps).value.phase[k].Resolved?
    requires Run(svcs, conns, steps).value.phase[k].result.Good?
    ensures var s := Run(svcs, conns, steps).value;
      && k in s.calls && k in s.served && s.served[k].fn < |svcs|
      && var svc := svcs[s.served[k].fn];
      && svc.reqFp == s.calls[k].argFp && svc.respFp == s.calls[k].expectedFp && svc.decodes(s.calls[k].args)
      && s.served[k].outcome == Returns(Some(s.phase[k].result.body))
      && (exists i :: Once(s.log.serves, k, i)) && (exists i :: Once(s.log.resolutions, k, i))
  {
    hide Run;
    RunInv(svcs, conns, steps);
    var s := Run(svcs, conns, steps).value;
    assert k in s.calls && CallOk(svcs, s, k);
    OnlyOnce(s.log.serves, k);
    OnlyOnce(s.log.resolutions, k);
  }

  /** `k` is logged at position `i` and nowhere else. */
  ghost predicate Once(log: seq<int>, k: int, i: int) {
    0 <= i < |log| && log[i] == k && forall j :: 0 <= j < |log| && log[j] == k ==> j == i
  }

  lemma OnlyOnce(log: seq<int>, k: int)
    requires Distinct(log) && k in log
    ensures exists i :: Once(log, k, i)
  {
    var i :| 0 <= i < |log| && log[i] == k;
    assert Once(log, k, i);
  }

  /** No request is served twice and no call resolves twice, however it ends. */
  lemma AtMostOnce(svcs: seq<Service>, conns: nat, steps: seq<Step>)
    requires Run(svcs, conns, steps).Some?
    ensures var s := Run(svcs, conns, steps).value;
      && Distinct(s.log.serves) && Distinct(s.log.resolutions)
      && (forall k :: k in s.log.resolutions ==> k in s.log.serves && k in s.phase && s.phase[k].Resolved?)
  {
    hide Run;
    RunInv(svcs, conns, steps);
    var s := Run(svcs, conns, steps).value;
    forall k | k in s.log.resolutions ensures k in s.log.serves { assert CallOk(svcs, s, k); }
  }

  /** A control round-trip is told a frame about its own correlation id, never a call's
      response nor another's reply. */
  lemma ControlRepliesAreItsOwn(svcs: seq<Service>, conns: nat, steps: seq<Step>, k: int)
    requires Run(svcs, conns, steps).Some? && k in Run(svcs, conns, steps).value.ctl.told
    ensures var s := Run(svcs, conns, steps).value;
      About(s.ctl.told[k]) == Some(k) && s.ctl.told[k].Stray? && k !in s.calls
  {
    hide Run, Inv;
    RunInv(svcs, conns, steps);
    OwnFrames(svcs, Run(svcs, conns, steps).value);
  }

  /** Each ring and each arena is left, or appended to, or gives up its first element. */
  ghost predicate QueuesMove(s: State, s': State) {
    && |s'.rings| >= |s.rings| && |s'.fns| == |s.fns|
    && (forall g :: 0 <= g < |s.rings| ==> QueueStep(s.rings[g], s'.rings[g]))
    && (forall f :: 0 <= f < |s.fns| ==> ArenasMove(s.fns[f].arenas, s'.fns[f].arenas))
  }

  ghost predicate ArenasMove(arenas: seq<seq<Request>>, arenas': seq<seq<Request>>) {
    |arenas'| >= |arenas| && forall a :: 0 <= a < |arenas| ==> QueueStep(arenas[a], arenas'[a])
  }

  lemma OneRingMoves(s: State, s': State, g: nat)
    requires g < |s.rings| == |s'.rings| && s'.rings == s.rings[g := s'.rings[g]]
    requires QueueStep(s.rings[g], s'.rings[g]) && |s'.fns| == |s.fns|
    requires forall f :: 0 <= f < |s.fns| ==> s'.fns[f].arenas == s.fns[f].arenas
    ensures QueuesMove(s, s')
  {}

  lemma OneArenaMoves(s: State, s': State, f: nat)
    requires f < |s.fns| == |s'.fns| && s'.fns == s.fns[f := s'.fns[f]]
    requires ArenasMove(s.fns[f].arenas, s'.fns[f].arenas) && s'.rings == s.rings
    ensures QueuesMove(s, s')
  {}

  lemma NothingMoves(s: State, s': State)
    requires s'.rings == s.rings && s'.fns == s.fns
    ensures QueuesMove(s, s')
  {}

  lemma CallerQueues(s: State, st: Step, s': State)
    requires CallStep(s, st) == Some(s') || FutureStep(s, st) == Some(s')
    ensures QueuesMove(s, s')
  {
    hide DecodeResponse;
    if st.Push? && st.room { OneArenaMoves(s, s', s.calls[st.k].fn); }
  }

  lemma ServiceQueues(svcs: seq<Service>, s: State, st: Step, s': State)
    requires ServiceStep(svcs, s, st) == Some(s')
    ensures QueuesMove(s, s')
  {
    hide HandleOne, QueuesMove;
    match st
    case Read(f, _) => OneArenaMoves(s, s', f);
    case Reexpose(f) => OneArenaMoves(s, s', f);
    case Submit(f) => OneArenaMoves(s, s', f);
    case Spawn(f) => OneArenaMoves(s, s', f);
    case Take(f, _) => OneArenaMoves(s, s', f);
    case Serve(f, _, _) => OneArenaMoves(s, s', f);
    case Send(f, w, taken) =>
      if taken { OneRingMoves(s, s', s.fns[f].workers[w].replyTo); } else { OneArenaMoves(s, s', f); }
  }

  lemma PopShape(s: State, c: nat, s': State)
    requires PopStep(s, c) == Some(s')
    ensures c < |s.conns| && s.conns[c].disp.Watching? && s.conns[c].disp.ring < |s.rings|
    ensures var g := s.conns[c].disp.ring;
      s'.fns == s.fns && s'.rings == if s.rings[g] == [] then s.rings else s.rings[g := s.rings[g][1..]]
  {}

  lemma PopQueues(s: State, c: nat, s': State)
    requires PopStep(s, c) == Some(s')
    ensures QueuesMove(s, s')
  {
    PopShape(s, c, s');
    hide QueuesMove, PopStep;
    var g := s.conns[c].disp.ring;
    if s.rings[g] == [] { NothingMoves(s, s'); } else { OneRingMoves(s, s', g); }
  }

  lemma DispatchInPlace(s: State, st: Step, s': State)
    requires DispatcherStep(s, st) == Some(s') && !st.PopReply?
    ensures s'.rings == s.rings && s'.fns == s.fns
  {
    hide PopStep;
  }

  lemma DispatcherQueues(s: State, st: Step, s': State)
    requires DispatcherStep(s, st) == Some(s')
    ensures QueuesMove(s, s')
  {
    hide QueuesMove, PopStep, RouteStep, CompleteStep;
    if st.PopReply? {
      PopQueues(s, st.c, s');
    } else {
      DispatchInPlace(s, st, s');
      NothingMoves(s, s');
    }
  }

  lemma ControlQueues(s: State, st: Step, s': State)
    requires ControlStep(s, st) == Some(s')
    ensures QueuesMove(s, s')
  {
    NothingMoves(s, s');
  }

  lemma WorldQueues(s: State, st: Step, s': State)
    requires WorldStep(s, st) == Some(s')
    ensures QueuesMove(s, s')
  {
    if st.OtherFrame? { OneRingMoves(s, s', st.g); }
  }

  /** The machine asks nothing of its rings and arenas but what the ring is shown to be:
      each step leaves each of them, or appends to it, or takes its first element. */
  lemma RingsAreQueues(svcs: seq<Service>, s: State, st: Step, s': State)
    requires Apply(svcs, s, st) == Some(s')
    ensures |s'.rings| >= |s.rings| && |s'.fns| == |s.fns|
    ensures forall g :: 0 <= g < |s.rings| ==> QueueStep(s.rings[g], s'.rings[g])
    ensures forall f :: 0 <= f < |s.fns| ==> |s'.fns[f].arenas| >= |s.fns[f].arenas|
    ensures forall f, a :: 0 <= f < |s.fns| && 0 <= a < |s.fns[f].arenas| ==>
      QueueStep(s.fns[f].arenas[a], s'.fns[f].arenas[a])
  {
    hide CallStep, FutureStep, ServiceStep, DispatcherStep, ControlStep, WorldStep;
    if CallStep(s, st) == Some(s') || FutureStep(s, st) == Some(s') { CallerQueues(s, st, s'); }
    else if ServiceStep(svcs, s, st) == Some(s') { ServiceQueues(svcs, s, st, s'); }
    else if DispatcherStep(s, st) == Some(s') { DispatcherQueues(s, st, s'); }
    else if ControlStep(s, st) == Some(s') { ControlQueues(s, st, s'); }
    else { WorldQueues(s, st, s'); }
  }

  /** Serving the call's request came to a value that encodes. */
  predicate WellServed(svc: Service, call: Call, served: Served) {
    svc.reqFp == call.argFp && svc.decodes(call.args) && served.outcome.Returns? && served.outcome.body.Some?
  }

  /** How a call resolves says what became of its own request, and the other way round:
      a remote error exactly for a wrong schema, undecodable arguments, a panic, or a
      result that would not encode; a result of a foreign schema exactly when all went
      well but the function answers with one; and the handler's result otherwise. */
  lemma RemoteErrorsAreItsOwn(svcs: seq<Service>, conns: nat, steps: seq<Step>, k: int)
    requires Run(svcs, conns, steps).Some?
    requires k in Run(svcs, conns, steps).value.phase && Run(svcs, conns, steps).value.phase[k].Resolved?
    ensures var s := Run(svcs, conns, steps).value;
      && k in s.calls && k in s.served && s.served[k].fn < |svcs|
      && var svc := svcs[s.served[k].fn];
      && (s.phase[k].result == RemoteError(SCHEMA_MISMATCH) <==> svc.reqFp != s.calls[k].argFp)
      && (s.phase[k].result == RemoteError(INTERNAL) <==>
            svc.reqFp == s.calls[k].argFp
            && (!svc.decodes(s.calls[k].args) || s.served[k].outcome == Panics || s.served[k].outcome == Returns(None)))
      && (s.phase[k].result == WrongSchema <==> WellServed(svc, s.calls[k], s.served[k]) && svc.respFp != s.calls[k].expectedFp)
      && (s.phase[k].result.Good? <==> WellServed(svc, s.calls[k], s.served[k]) && svc.respFp == s.calls[k].expectedFp)
      && (s.phase[k].result.Good? ==> s.served[k].outcome == Returns(Some(s.phase[k].result.body)))
  {
    hide Run;
    RunInv(svcs, conns, steps);
    var s := Run(svcs, conns, steps).value;
    assert k in s.calls && CallOk(svcs, s, k);
  }
}
