/** The ring machine on the words it really has: cursors of 64 bits and futex words of
    32, all of which wrap. Every run on words is a run of the machine whose counters
    never wrap, seen modulo the word. */
module RingWords {
  import opened Bits
  import opened Circular
  import opened Records
  import opened RingMachine
  import opened RingFifo
  import opened RingTheorems

  // ---- a state, modulo the word -----------------------------------------
  // `lag` is history that counts past the futex word, so words say nothing of it.

  function WordsP(me: Producer): Producer {
    me.(h := me.h % W64, t := me.t % W64, seen := me.seen % W32, lag := 0)
  }

  function WordsAll(ps: seq<Producer>): (r: seq<Producer>)
    ensures |r| == |ps| && forall p :: 0 <= p < |ps| ==> r[p] == WordsP(ps[p])
  {
    seq(|ps|, p requires 0 <= p < |ps| => WordsP(ps[p]))
  }

  function WordsC(me: Consumer): Consumer {
    me.(t := me.t % W64, seen := me.seen % W32, lag := 0)
  }

  function Words(s: State): State {
    s.(head := s.head % W64, tail := s.tail % W64, dataSeq := s.dataSeq % W32, spaceSeq := s.spaceSeq % W32,
       ps := WordsAll(s.ps), cons := WordsC(s.cons))
  }

  function Lifted(o: Option<State>): Option<State> {
    match o case None => None case Some(s) => Some(Words(s))
  }

  // ---- the steps that compute on words ----------------------------------

  lemma {:induction false} AndAtMost(x: nat, y: nat)
    ensures And(x, y) <= y
  {
    if x != 0 && y != 0 { AndAtMost(x / 2, y / 2); }
  }

  /** `pos & (capacity - 1)`. */
  function Masked(pos: nat, cap: nat): (i: nat)
    requires cap > 0
    ensures i < cap
  {
    AndAtMost(pos, cap - 1);
    And(pos, cap - 1)
  }

  function PushWord(c: Config, w: State, p: nat): Option<State>
    requires p < |w.ps| && c.cap == |w.data| > 0
  {
    var me := w.ps[p];
    match me.pc
    case Check =>
      var used := (me.h - me.t) % W64;   // wrapping_sub
      if c.cap - used < Need(me) then Some(Set(w, p, NoRoom(c, me)))
      else Some(Set(w, p, me.(i := 0, pc := Copy)))
    case Copy =>
      if me.i < Need(me) then
        var at := Masked((me.h + me.i) % W64, c.cap);
        Some(Set(w.(data := w.data[at := Enc(me.call.rec)[me.i]]), p, me.(i := me.i + 1)))
      else
        Some(Set(w.(head := (me.h + Need(me)) % W64, pushed := w.pushed + [me.call.rec],
                    pushedBy := w.pushedBy + [me.call.id]), p, me.(ok := true, pc := Unlock)))
    case _ => PushLockedStep(c, w, p)
  }

  function WaitWord(w: State, p: nat): Option<State>
    requires p < |w.ps|
  {
    var me := w.ps[p];
    match me.pc
    case BumpData => Some(Set(w.(dataSeq := (w.dataSeq + 1) % W32), p, me.(pc := WakeData)))
    case SpaceWait => Some(Set(w, p, me.(pc := if w.spaceSeq == me.seen then SpaceParked else Cas)))
    case _ => WaitStep(w, p)
  }

  function ConsWord(c: Config, w: State): Option<State>
    requires c.cap == |w.data| > 0
  {
    var me := w.cons;
    match me.pc
    case CRead =>
      if !Whole(me.buf) then
        Some(w.(cons := me.(buf := me.buf + [w.data[Masked((me.t + |me.buf|) % W64, c.cap)]])))
      else
        Some(w.(tail := (me.t + |me.buf|) % W64, popped := w.popped + [Payload(me.buf)], cons := me.(pc := CBump)))
    case CBump => Some(w.(spaceSeq := (w.spaceSeq + 1) % W32, cons := me.(pc := CWake)))
    case CWait =>
      if w.dataSeq == me.seen then Some(w.(cons := me.(pc := CParked)))
      else Some(w.(cons := me.(pc := CTop, spins := 0)))
    case _ => ConsStep(c, w)
  }

  function ProdWord(c: Config, w: State, p: nat, woken: Option<nat>): Option<State>
    requires p < |w.ps| && c.cap == |w.data| > 0
  {
    match w.ps[p].pc
    case Cas => AcquireStep(c, w, p) case Swap => AcquireStep(c, w, p) case LockWait => AcquireStep(c, w, p)
    case Unlock => ReleaseStep(w, p, woken) case UnlockWake => ReleaseStep(w, p, woken)
    case BumpData => WaitWord(w, p) case WakeData => WaitWord(w, p)
    case Deadline => WaitWord(w, p) case SpaceWait => WaitWord(w, p)
    case _ => PushWord(c, w, p)
  }

  function ApplyWord(c: Config, w: State, st: Step): Option<State>
    requires c.cap == |w.data| > 0
  {
    match st
    case Prod(p, woken) => if p < |w.ps| then ProdWord(c, w, p, woken) else None
    case Cons => ConsWord(c, w)
    case _ => Apply(c, w, st)
  }

  // ---- one step ---------------------------------------------------------

  lemma SetWords(s: State, p: nat, me: Producer)
    requires p < |s.ps|
    ensures Words(Set(s, p, me)) == Set(Words(s), p, WordsP(me))
  {
    hide WordsP, WordsC;
    assert WordsAll(s.ps[p := me]) == WordsAll(s.ps)[p := WordsP(me)];
  }

  /** Masking the wrapped cursor finds the place of the one that does not wrap. */
  lemma MaskedPlace(x: nat, n: nat, k: nat)
    requires k <= 32
    ensures Masked((x % W64 + n) % W64, Pow2(k)) == Idx(x + n, Pow2(k))
  {
    hide And, Idx;
    WrappedAdd(x, n);
    WrappedIndex(x + n, k);
  }

  lemma CapFits(k: nat)
    requires k <= 32
    ensures 0 < Pow2(k) <= W32
  {
    Pow2Words();
    Pow2Monotone(k, 32);
  }

  lemma PushWords(c: Config, k: nat, s: State, p: nat)
    requires Bytes(c, s) && k <= 32 && c.cap == Pow2(k) && p < |s.ps|
    ensures PushWord(c, Words(s), p) == Lifted(PushLockedStep(c, s, p))
  {
    hide Layout, Reading, Pow2, Masked, Idx, Enc, WordsAll, WordsC;
    CapFits(k);
    var me, o := s.ps[p], PushLockedStep(c, s, p);
    assert Filling(c, s, p);
    if o.Some? { PushShape(c, s, p, o.value); }
    match me.pc
    case Check =>
      BehindTheHead(c, s, p);
      WrappedDistance(me.h, me.t);
    case Copy =>
      MaskedPlace(me.h, me.i, k);
      WrappedAdd(me.h, Need(me));
    case _ =>
  }

  lemma PushShape(c: Config, s: State, p: nat, s': State)
    requires p < |s.ps| && 0 < c.cap == |s.data| && PushLockedStep(c, s, p) == Some(s')
    ensures Words(s') == Set(Words(s.(data := s'.data, head := s'.head, pushed := s'.pushed, pushedBy := s'.pushedBy)),
                             p, WordsP(s'.ps[p]))
  {
    hide WordsP, WordsC, WordsAll, Words;
    SetWords(s.(data := s'.data, head := s'.head, pushed := s'.pushed, pushedBy := s'.pushedBy), p, s'.ps[p]);
  }

  lemma BehindTheHead(c: Config, s: State, p: nat)
    requires Bytes(c, s) && p < |s.ps| && s.ps[p].pc.Check?
    ensures s.ps[p].t <= s.ps[p].h <= s.ps[p].t + c.cap
  {
    assert Filling(c, s, p);
  }

  lemma AcquireWords(c: Config, s: State, p: nat)
    requires p < |s.ps|
    ensures AcquireStep(c, Words(s), p) == Lifted(AcquireStep(c, s, p))
  {
    var o := AcquireStep(c, s, p);
    if o.Some? { SetWords(s.(lock := o.value.lock, owner := o.value.owner), p, o.value.ps[p]); }
  }

  lemma UnlockedWords(s: State, p: nat)
    requires p < |s.ps|
    ensures Unlocked(Words(s), p) == Words(Unlocked(s, p))
  {
    SetWords(s, p, Unlocked(s, p).ps[p]);
  }

  lemma ReleaseWords(s: State, p: nat, woken: Option<nat>)
    requires p < |s.ps|
    ensures ReleaseStep(Words(s), p, woken) == Lifted(ReleaseStep(s, p, woken))
  {
    var me := s.ps[p];
    var s1 := s.(lock := 0, owner := None);
    UnlockedWords(s1, p);
    UnlockedWords(s, p);
    SetWords(s1, p, me.(pc := UnlockWake));
    WakesOneWords(s.ps, woken);
    if woken.Some? && woken.value < |s.ps| {
      var q := woken.value;
      SetWords(s, q, s.ps[q].(pc := Swap));
      UnlockedWords(Set(s, q, s.ps[q].(pc := Swap)), p);
    }
    hide Unlocked, WakesOne, WordsC;
  }

  lemma WakesOneWords(ps: seq<Producer>, woken: Option<nat>)
    ensures WakesOne(WordsAll(ps), woken) == WakesOne(ps, woken)
  {
    forall p | 0 <= p < |ps| ensures WordsAll(ps)[p].pc == ps[p].pc {}
  }

  lemma WaitWords(s: State, p: nat)
    requires p < |s.ps|
    ensures WaitWord(Words(s), p) == Lifted(WaitStep(s, p))
  {
    var me := s.ps[p];
    if me.pc.BumpData? || me.pc.WakeData? {
      BumpWords(s, p);
    } else if me.pc.Deadline? || me.pc.SpaceWait? {
      ParkWords(s, p);
    }
  }

  lemma BumpWords(s: State, p: nat)
    requires p < |s.ps| && (s.ps[p].pc.BumpData? || s.ps[p].pc.WakeData?)
    ensures WaitWord(Words(s), p) == Lifted(WaitStep(s, p))
  {
    var me, o := s.ps[p], WaitStep(s, p).value;
    SetWords(s.(dataSeq := o.dataSeq, cons := o.cons), p, o.ps[p]);
    hide WordsAll;
  }

  lemma ParkWords(s: State, p: nat)
    requires p < |s.ps| && (s.ps[p].pc.Deadline? || s.ps[p].pc.SpaceWait?)
    ensures WaitWord(Words(s), p) == Lifted(WaitStep(s, p))
  {
    SetWords(s, p, WaitStep(s, p).value.ps[p]);
    hide WordsAll;
  }

  lemma ReleasedWords(ps: seq<Producer>)
    ensures ReleaseSpaceWaiters(WordsAll(ps)) == WordsAll(ReleaseSpaceWaiters(ps))
  {}

  lemma ConsWords(c: Config, k: nat, s: State)
    requires Bytes(c, s) && k <= 32 && c.cap == Pow2(k)
    ensures ConsWord(c, Words(s)) == Lifted(ConsStep(c, s))
  {
    CapFits(k);
    hide Pow2, Layout;
    if s.cons.pc == CRead {
      ReadWords(c, k, s);
    } else if s.cons.pc == CWake {
      ReleasedWords(s.ps);
    } else {
      WrappedDistance(s.head, s.tail);
      OtherConsWords(c, s);
    }
  }

  lemma ReadWords(c: Config, k: nat, s: State)
    requires k <= 32 && c.cap == Pow2(k) == |s.data| && s.cons.pc == CRead
    ensures ConsWord(c, Words(s)) == Lifted(ConsStep(c, s))
  {
    var me := s.cons;
    MaskedPlace(me.t, |me.buf|, k);
    WrappedAdd(me.t, |me.buf|);
    hide Pow2, Masked, Idx, Enc, Whole, WordsAll;
  }

  lemma OtherConsWords(c: Config, s: State)
    requires c.cap == |s.data| > 0 && s.cons.pc != CRead && s.cons.pc != CWake
    requires s.cons.pc == CLoadHead ==> (s.head == s.cons.t <==> s.head % W64 == s.cons.t % W64)
    ensures ConsWord(c, Words(s)) == Lifted(ConsStep(c, s))
  {
    hide WordsAll;
  }

  lemma OtherWords(c: Config, s: State, st: Step)
    requires c.cap == |s.data| > 0 && !st.Prod? && !st.Cons?
    ensures ApplyWord(c, Words(s), st) == Lifted(Apply(c, s, st))
  {
    match st
    case Start(p, rec, blocking, deadline) =>
      if p < |s.ps| {
        SetWords(s, p, s.ps[p].(pc := Cas, call := Call(s.nextCall, rec, blocking, deadline, |s.pushed|)));
      }
    case Timeout(p) =>
      if p < |s.ps| {
        SetWords(s, p, s.ps[p].(pc := Swap));
        SetWords(s, p, s.ps[p].(pc := Cas));
      }
    case _ =>
  }

  /** A step on words is the step on counters that never wrap. */
  lemma StepOnWords(c: Config, k: nat, s: State, st: Step)
    requires Bytes(c, s) && k <= 32 && c.cap == Pow2(k)
    ensures ApplyWord(c, Words(s), st) == Lifted(Apply(c, s, st))
  {
    hide AcquireStep, ReleaseStep, WaitStep, WaitWord, PushLockedStep, PushWord, ConsStep, ConsWord, WordsC;
    match st
    case Prod(p, woken) =>
      if p < |s.ps| {
        PushWords(c, k, s, p);
        AcquireWords(c, s, p);
        ReleaseWords(s, p, woken);
        WaitWords(s, p);
      }
    case Cons => ConsWords(c, k, s);
    case _ => OtherWords(c, s, st);
  }

  // ---- whole runs -------------------------------------------------------

  /** A schedule on words, and the states it goes through. */
  ghost predicate WordRun(c: Config, threads: nat, steps: seq<Step>, words: seq<State>) {
    && c.cap > 0 && |words| == |steps| + 1 && words[0] == Init(c, threads)
    && forall i {:trigger steps[i]} :: 0 <= i < |steps| ==>
         |words[i].data| == c.cap && ApplyWord(c, words[i], steps[i]) == Some(words[i + 1])
  }

  function AllWords(states: seq<State>): (words: seq<State>)
    ensures |words| == |states| && forall i :: 0 <= i < |states| ==> words[i] == Words(states[i])
  {
    seq(|states|, i requires 0 <= i < |states| => Words(states[i]))
  }

  lemma InitWords(c: Config, threads: nat)
    requires c.cap > 0
    ensures Words(Init(c, threads)) == Init(c, threads)
  {
    var s := Init(c, threads);
    assert WordsAll(s.ps) == s.ps;
    assert WordsC(s.cons) == s.cons;
    assert Words(s) == s.(head := 0);
  }

  /** What the machine can do it can do on words. */
  lemma RunOnWords(c: Config, k: nat, threads: nat, steps: seq<Step>, states: seq<State>)
    requires k <= 32 && c.cap == Pow2(k) && Behaviour(c, threads, steps, states)
    ensures WordRun(c, threads, steps, AllWords(states))
  {
    hide Inv, Apply, ApplyWord, Pow2, Words;
    CapFits(k);
    InitWords(c, threads);
    forall i | 0 <= i < |steps|
      ensures |Words(states[i]).data| == c.cap
      ensures ApplyWord(c, Words(states[i]), steps[i]) == Some(Words(states[i + 1]))
    {
      RunInv(c, threads, steps, states, i);
      InvBytes(c, states[i]);
      StepOnWords(c, k, states[i], steps[i]);
    }
  }

  lemma InvBytes(c: Config, s: State)
    requires Inv(c, s)
    ensures Bytes(c, s) && |Words(s).data| == |s.data| == c.cap > 0
  {}

  /** And on words it does nothing else: every run on words is a run of the machine,
      modulo the words. */
  lemma {:induction false} WordsRun(c: Config, k: nat, threads: nat, steps: seq<Step>, words: seq<State>)
    returns (states: seq<State>)
    requires k <= 32 && c.cap == Pow2(k) && WordRun(c, threads, steps, words)
    ensures Behaviour(c, threads, steps, states) && words == AllWords(states)
    decreases |steps|
  {
    hide Inv, Apply, ApplyWord, Pow2, Words;
    CapFits(k);
    if steps == [] {
      InitWords(c, threads);
      states := [Init(c, threads)];
    } else {
      var n := |steps| - 1;
      OneLess(c, threads, steps, words);
      var before := WordsRun(c, k, threads, steps[..n], words[..n + 1]);
      RunInv(c, threads, steps[..n], before, n);
      InvBytes(c, before[n]);
      StepOnWords(c, k, before[n], steps[n]);
      assert words[n] == words[..n + 1][n] == Words(before[n]);
      states := before + [Apply(c, before[n], steps[n]).value];
      OneMore(c, threads, steps, before, states);
      assert words == AllWords(states);
    }
  }

  lemma OneLess(c: Config, threads: nat, steps: seq<Step>, words: seq<State>)
    requires |steps| > 0 && WordRun(c, threads, steps, words)
    ensures WordRun(c, threads, steps[..|steps| - 1], words[..|steps|])
  {
    hide ApplyWord;
    var n := |steps| - 1;
    var first, ws := steps[..n], words[..n + 1];
    forall i | 0 <= i < |first|
      ensures |ws[i].data| == c.cap && ApplyWord(c, ws[i], first[i]) == Some(ws[i + 1])
    {
      assert first[i] == steps[i] && ws[i] == words[i] && ws[i + 1] == words[i + 1];
    }
  }

  lemma OneMore(c: Config, threads: nat, steps: seq<Step>, before: seq<State>, states: seq<State>)
    requires |steps| > 0 && Behaviour(c, threads, steps[..|steps| - 1], before)
    requires |states| == |steps| + 1 && states[..|steps|] == before
    requires var n := |steps| - 1;
      |states[n].data| == c.cap > 0 && Apply(c, states[n], steps[n]) == Some(states[n + 1])
    ensures Behaviour(c, threads, steps, states)
  {
    hide Apply;
    var n := |steps| - 1;
    assert states[0] == before[0];
    forall i | 0 <= i < |steps|
      ensures |states[i].data| == c.cap && Apply(c, states[i], steps[i]) == Some(states[i + 1])
    {
      if i < n {
        assert steps[..n][i] == steps[i] && before[i] == states[i] && before[i + 1] == states[i + 1];
      }
    }
  }

  /** So cursors that wrap lose nothing: on words too, what was popped is a prefix of
      what was pushed, and the bytes between the cursors are the rest. */
  lemma FifoOnWords(c: Config, k: nat, threads: nat, steps: seq<Step>, words: seq<State>, i: nat)
    requires k <= 32 && c.cap == Pow2(k) && WordRun(c, threads, steps, words) && i <= |steps|
    ensures var w := words[i];
      && w.popped <= w.pushed && |w.data| == c.cap && w.head < W64 && w.tail < W64
      && var used := (w.head - w.tail) % W64;
      && used <= c.cap && Win(w.data, w.tail, used) == EncAll(w.pushed[|w.popped|..])
  {
    hide Apply, ApplyWord, Pow2;
    var states := WordsRun(c, k, threads, steps, words);
    CapFits(k);
    RunInv(c, threads, steps, states, i);
    var s := states[i];
    InvBytes(c, s);
    assert words[i] == Words(s);
    WrappedDistance(s.head, s.tail);
    WrappedWin(s.data, s.tail, s.head - s.tail, k);
  }

  lemma WrappedWin(data: bytes, t: nat, n: nat, k: nat)
    requires k <= 32 && |data| == Pow2(k)
    ensures Win(data, t % W64, n) == Win(data, t, n)
  {
    forall i | 0 <= i < n ensures Win(data, t % W64, n)[i] == Win(data, t, n)[i] {
      WrappedIndexOn(t, i, k);
    }
  }

  lemma WrappedIndexOn(t: nat, i: nat, k: nat)
    requires k <= 32
    ensures Idx(t % W64 + i, Pow2(k)) == Idx(t + i, Pow2(k))
  {
    WrappedIndex(t % W64 + i, k);
    WrappedIndex(t + i, k);
    WrappedAdd(t, i);
    hide And, Idx;
  }
}
