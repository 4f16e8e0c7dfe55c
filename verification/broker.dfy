/** The broker: its registry, the arenas it keeps mapped and the clients' reply rings,
    changed in place by each control message. `View` is the bus they stand for, and
    every handler is shown to do to it what `Bus` says. */
module Brokers {
  import opened Records
  import opened Names
  import opened Control
  import opened Bus
  import Spec = Bus
  import opened Registries
  import BusTheorems

  // ---- the arena ledger -------------------------------------------------

  /** An arena name the counters have already passed. */
  ghost predicate Issued(a: string, nextChan: nat, nextFn: nat) {
    || (exists i: nat :: i < nextChan && a == ChannelArena(i))
    || (exists i: nat :: i < nextFn && a == FunctionArena(i))
  }

  /** Every arena ever created is mapped or was unlinked, never both and never twice;
      no name was created twice; and the mapped ones are legal rings. */
  ghost predicate Ledger(
    arenas: map<string, nat>, created: seq<string>, unlinked: seq<string>, nextChan: nat, nextFn: nat)
  {
    && NoDup(created) && NoDup(unlinked)
    && arenas.Keys !! Elements(unlinked)
    && Elements(created) == arenas.Keys + Elements(unlinked)
    && (forall a :: a in created ==> Issued(a, nextChan, nextFn))
    && (forall a :: a in arenas ==> LegalCap(arenas[a]))
  }

  lemma LedgerUnlink(
    arenas: map<string, nat>, created: seq<string>, unlinked: seq<string>, nextChan: nat, nextFn: nat, a: string)
    requires Ledger(arenas, created, unlinked, nextChan, nextFn) && a in arenas
    ensures Ledger(arenas - {a}, created, unlinked + [a], nextChan, nextFn)
  {
    ElementsPush(unlinked, a);
  }

  lemma LedgerCreate(
    arenas: map<string, nat>, created: seq<string>, unlinked: seq<string>, nextChan: nat, nextFn: nat,
    a: string, cap: nat)
    requires Ledger(arenas, created, unlinked, nextChan, nextFn)
    requires a !in created && Issued(a, nextChan, nextFn) && LegalCap(cap)
    ensures Ledger(arenas[a := cap], created + [a], unlinked, nextChan, nextFn)
  {
    ElementsPush(created, a);
    assert a in Elements(created) <==> a in created;
  }

  /** A fresh id's arena name has never been created. */
  lemma LedgerFresh(
    arenas: map<string, nat>, created: seq<string>, unlinked: seq<string>, nextChan: nat, nextFn: nat)
    requires Ledger(arenas, created, unlinked, nextChan, nextFn)
    ensures ChannelArena(nextChan) !in created && FunctionArena(nextFn) !in created
  {
    forall a | a in created ensures a != ChannelArena(nextChan) && a != FunctionArena(nextFn) {
      if i: nat :| i < nextChan && a == ChannelArena(i) {
        ArenaNamesDiffer(i, nextChan);
        ArenaNamesDiffer(i, nextFn);
      } else {
        var i: nat :| i < nextFn && a == FunctionArena(i);
        ArenaNamesDiffer(i, nextFn);
        ArenaNamesDiffer(nextChan, i);
      }
    }
  }

  lemma LedgerLater(
    arenas: map<string, nat>, created: seq<string>, unlinked: seq<string>, nextChan: nat, nextFn: nat,
    nextChan': nat, nextFn': nat)
    requires Ledger(arenas, created, unlinked, nextChan, nextFn) && nextChan <= nextChan' && nextFn <= nextFn'
    ensures Ledger(arenas, created, unlinked, nextChan', nextFn')
  {
    forall a | a in created ensures Issued(a, nextChan', nextFn') { assert Issued(a, nextChan, nextFn); }
  }

  /** From bus `b` to bus `b'`, with `made` created on the way: what was unlinked is, each
      once, what was live or made and is no longer live. */
  ghost predicate Unlinks(b: Bus, made: seq<string>, b': Bus, was: seq<string>, now: seq<string>) {
    && was <= now && NoDup(made) && NoDup(now[|was|..])
    && Elements(made) !! LiveArenas(b)
    && Elements(now[|was|..]) == LiveArenas(b) + Elements(made) - LiveArenas(b')
  }

  /** Between two moments of a balanced ledger that only grew. */
  lemma LedgerGrows(
    arenas: map<string, nat>, created: seq<string>, unlinked: seq<string>, nextChan: nat, nextFn: nat,
    arenas': map<string, nat>, made: seq<string>, unlinked': seq<string>, nextChan': nat, nextFn': nat)
    requires Ledger(arenas, created, unlinked, nextChan, nextFn)
    requires Ledger(arenas', created + made, unlinked', nextChan', nextFn') && unlinked <= unlinked'
    ensures NoDup(made) && NoDup(unlinked'[|unlinked|..]) && Elements(made) !! arenas.Keys
    ensures Elements(unlinked'[|unlinked|..]) == arenas.Keys + Elements(made) - arenas'.Keys
  {
    var gone := unlinked'[|unlinked|..];
    assert unlinked' == unlinked + gone;
    ElementsOfBoth(created, made);
    ElementsOfBoth(unlinked, gone);
  }

  lemma ElementsOfBoth(s: seq<string>, t: seq<string>)
    ensures Elements(s + t) == Elements(s) + Elements(t)
    ensures NoDup(s + t) ==> NoDup(s) && NoDup(t) && Elements(s) !! Elements(t)
  {
    assert forall a :: a in s + t <==> a in s || a in t;
    if NoDup(s + t) { NoDupOfBoth(s, t); }
  }

  lemma NoDupOfBoth(s: seq<string>, t: seq<string>)
    requires NoDup(s + t)
    ensures NoDup(s) && NoDup(t) && forall a :: a in s ==> a !in t
  {
    var both := s + t;
    assert forall i :: 0 <= i < |s| ==> s[i] == both[i];
    forall i, j | 0 <= i < j < |t| ensures t[i] != t[j] { assert both[|s| + i] != both[|s| + j]; }
    forall a | a in s ensures a !in t {
      var i :| 0 <= i < |s| && s[i] == a;
      forall j | 0 <= j < |t| ensures t[j] != a { assert both[i] != both[|s| + j]; }
    }
  }

  /** `clamp_arena_cap(arena_cap.max(0))`. */
  function GrantedCap(requested: int): (cap: nat) {
    ClampArenaCap(if requested > 0 then requested else 0)
  }

  /** The arena an OK reply grants is mapped, with the capacity asked for, clamped. */
  ghost predicate Mapped(s: Sent, arenas: map<string, nat>, requested: int) {
    match s
    case Some((_, PublishReply(_, Ok, _, _, arena))) => arena in arenas && arenas[arena] == GrantedCap(requested)
    case Some((_, ExposeReply(_, Ok, _, _, _, arena))) => arena in arenas && arenas[arena] == GrantedCap(requested)
    case _ => true
  }

  lemma InUnion(c: set<string>, f: set<string>, e: set<string>)
    requires c !! f && e <= c
    ensures e <= c + f && c + f - e == c - e + f == f + (c - e)
  {}

  lemma TwoDrops(c: set<string>, f: set<string>, e: set<string>, g: set<string>)
    requires c !! f && e <= c && g <= f
    ensures c + f - e - g == (c - e) + (f - g)
  {}

  lemma NothingDelivered(b: Bus, w: World)
    ensures Delivered(b, None, w) == None
  {}

  /** The arena a reply carries; only an OK reply carries one. */
  function ArenaIn(r: Reply): string {
    match r
    case PublishReply(_, _, _, _, arena) => arena
    case SubscribeReply(_, _, arena, _) => arena
    case ExposeReply(_, _, _, _, _, arena) => arena
    case LookupReply(_, _, _, _, _, arena) => arena
    case _ => ""
  }

  ghost predicate NamesMapped(s: Sent, arenas: map<string, nat>) {
    s.Some? && ArenaIn(s.value.1) != "" ==>
      ArenaIn(s.value.1) in arenas && LegalCap(arenas[ArenaIn(s.value.1)])
  }

  /** What a request is granted: 512 KiB if it asks for nothing, or for less than nothing,
      128 MiB if it asks for more than that, and otherwise the least legal capacity that
      holds what it asks for. */
  lemma GrantIsLegal(requested: int)
    ensures LegalCap(GrantedCap(requested))
    ensures requested <= 0 ==> GrantedCap(requested) == 512 * 1024
    ensures requested > 128 * 1024 * 1024 ==> GrantedCap(requested) == 128 * 1024 * 1024
    ensures 0 < requested <= 128 * 1024 * 1024 ==>
      requested <= GrantedCap(requested) && forall q: nat :: LegalCap(q) && q >= requested ==> GrantedCap(requested) <= q
  {
    var n := if requested > 0 then requested else 1;
    ClampIsLeastLegal(n, 1);
    forall q: nat | LegalCap(q) && q >= n ensures ClampArenaCap(n) <= q { ClampIsLeastLegal(n, q); }
  }

  class Broker {
    const reg: Registry
    var arenas: map<string, nat>        // mapped arenas, with their capacities
    var replyRings: set<int>            // clients with an attached reply ring
    var sent: seq<(int, Reply)>         // replies placed on reply rings
    var lastSweep: nat
    ghost var created: seq<string>      // every arena ever created, in order
    ghost var unlinked: seq<string>     // every arena unlinked, in order

    /** The ledger balances, and clients and reply rings go together. */
    ghost predicate Sane()
      reads this, reg
    {
      reg.Valid() && replyRings == reg.clients.Keys
      && Ledger(arenas, created, unlinked, reg.nextChannel, reg.nextFn)
    }

    /** What is mapped is exactly what live channels and functions use. */
    ghost predicate Valid()
      reads this, reg
    {
      Sane() && arenas.Keys == reg.Arenas()
    }

    ghost function View(): Bus
      requires reg.Valid()
      reads reg
    {
      reg.View()
    }

    constructor (now: nat)
      ensures Valid() && fresh(reg) && View() == EMPTY && lastSweep == now
      ensures sent == [] && created == [] && unlinked == []
    {
      reg := new Registry();
      arenas, replyRings, sent, lastSweep := map[], {}, [], now;
      created, unlinked := [], [];
    }

    /** While the histories only grow, what a step, or many, unlinked is told by the bus
        before it, the bus after it, and what was made on the way. */
    twostate lemma HistoryGrew(made: seq<string>)
      requires old(Valid()) && Valid()
      requires created == old(created) + made && old(unlinked) <= unlinked
      ensures Unlinks(old(View()), made, View(), old(unlinked), unlinked)
    {
      hide ChansOk, FnsOk, ViewChans, ViewFns, ChanArenas, FnArenas, Ledger, LiveArenas;
      LedgerGrows(old(arenas), old(created), old(unlinked), old(reg.nextChannel), old(reg.nextFn),
                  arenas, made, unlinked, reg.nextChannel, reg.nextFn);
      ArenasInView(old(View()), old(reg.channels), old(reg.chanByName), old(reg.subscribed), old(reg.released),
                   old(reg.functions), old(reg.fnByName));
      ArenasInView(View(), reg.channels, reg.chanByName, reg.subscribed, reg.released, reg.functions, reg.fnByName);
    }

    /** The arena of everything on the bus is mapped, as a ring of legal capacity. */
    lemma LiveArenasAreMapped()
      requires Valid()
      ensures forall n :: n in View().chans ==>
        ChannelArena(View().chans[n].id) in arenas && LegalCap(arenas[ChannelArena(View().chans[n].id)])
      ensures forall n :: n in View().fns ==>
        FunctionArena(View().fns[n].id) in arenas && LegalCap(arenas[FunctionArena(View().fns[n].id)])
    {
      forall n | n in View().chans ensures ChannelArena(View().chans[n].id) in arenas {
        NameInView(reg.channels, reg.chanByName, reg.subscribed, reg.released, reg.nextChannel, n);
        assert reg.channels[reg.chanByName[n]].arena in ChanArenas(reg.channels);
      }
      forall n | n in View().fns ensures FunctionArena(View().fns[n].id) in arenas {
        FnNameInView(reg.functions, reg.fnByName, reg.nextFn, n);
        assert reg.functions[reg.fnByName[n]].reqArena in FnArenas(reg.functions);
      }
    }

    /** The arena a reply names, if it names one, is mapped, as a ring of legal capacity. */
    lemma RepliesNameMappedArenas(b: Bus, m: Msg, w: World, now: nat)
      requires Valid() && View() == Spec.Handle(b, m, w, now).0
      ensures NamesMapped(Spec.Handle(b, m, w, now).1, arenas)
    {
      hide Spec.Handle, ChansOk, FnsOk, ViewChans, ViewFns, ChanArenas, FnArenas, Ledger, ChannelArena, FunctionArena;
      BusTheorems.RepliesNameLiveArenas(b, m, w, now);
      LiveArenasAreMapped();
    }

    // ---- arenas and replies ----------------------------------------------

    /** Create and map an arena under a name never used before. */
    method MakeArena(name: string, cap: nat, w: World) returns (ok: bool)
      requires Sane() && name !in created && Issued(name, reg.nextChannel, reg.nextFn) && LegalCap(cap)
      modifies this`arenas, this`created
      ensures Sane() && ok == w.create(name)
      ensures arenas == if ok then old(arenas)[name := cap] else old(arenas)
      ensures created == if ok then old(created) + [name] else old(created)
    {
      hide ChansOk, FnsOk, Ledger;
      ok := w.create(name);
      if ok {
        LedgerCreate(arenas, created, unlinked, reg.nextChannel, reg.nextFn, name, cap);
        arenas := arenas[name := cap];
        created := created + [name];
      }
    }

    /** Drop the mapping of an arena, which unlinks it. */
    method ReclaimArena(name: string)
      requires Sane() && name in arenas
      modifies this`arenas, this`unlinked
      ensures Sane() && arenas == old(arenas) - {name} && unlinked == old(unlinked) + [name]
    {
      hide ChansOk, FnsOk, Ledger;
      LedgerUnlink(arenas, created, unlinked, reg.nextChannel, reg.nextFn, name);
      arenas := arenas - {name};
      unlinked := unlinked + [name];
    }

    method ReclaimAll(names: seq<string>)
      requires Sane() && NoDup(names) && Elements(names) <= arenas.Keys
      modifies this`arenas, this`unlinked
      ensures Sane() && arenas == old(arenas) - Elements(names) && unlinked == old(unlinked) + names
    {
      hide ChansOk, FnsOk, Ledger;
      for i := 0 to |names|
        invariant Sane()
        invariant arenas == old(arenas) - Elements(names[..i])
        invariant unlinked == old(unlinked) + names[..i]
      {
        assert names[..i + 1] == names[..i] + [names[i]];
        assert Elements(names[..i + 1]) == Elements(names[..i]) + {names[i]};
        ReclaimArena(names[i]);
      }
      assert names[..|names|] == names;
    }

    /** Place a reply on a client's ring, if it has one and the ring takes it. */
    method Answer(client: int, r: Reply, w: World)
      requires Sane()
      modifies this`sent
      ensures sent == old(sent) + Placed(Delivered(View(), Some((client, r)), w))
    {
      if client in replyRings && w.takes(client) { sent := sent + [(client, r)]; }
    }

    // ---- handlers --------------------------------------------------------

    /** Reclaim everything a departing client owned. */
    method ReleaseClient(client: int)
      requires Valid()
      modifies reg, this`arenas, this`unlinked, this`replyRings
      ensures Valid() && View() == Depart(old(View()), client)
      ensures Unlinks(old(View()), [], View(), old(unlinked), unlinked)
    {
      hide ChansOk, FnsOk, ViewChans, ViewFns, ChanArenas, FnArenas, Ledger;
      hide NoDup, Elements, LiveArenas;
      reg.ArenasDisjoint();
      ghost var c, f := ChanArenas(reg.channels), FnArenas(reg.functions);
      var chans := reg.RemoveClientChannels(client);
      InUnion(c, f, Elements(chans));
      ReclaimAll(chans);
      var fns := reg.RemoveClientFunctions(client);
      InUnion(f, c - Elements(chans), Elements(fns));
      ReclaimAll(fns);
      TwoDrops(c, f, Elements(chans), Elements(fns));
      reg.RemoveClient(client);
      replyRings := replyRings - {client};
      HistoryGrew([]);
    }

    method OnRegister(m: Msg, w: World)
      requires Valid() && m.Register?
      modifies reg, this`sent, this`replyRings
      ensures Valid() && View() == Spec.OnRegister(old(View()), m, w).0
      ensures sent == old(sent) + Placed(Delivered(View(), Spec.OnRegister(old(View()), m, w).1, w))
    {
      hide ChansOk, FnsOk, ViewChans, ViewFns, ChanArenas, FnArenas, Ledger;
      if !w.attach(m.segment) { return; }
      var id := reg.AddClient(m.app, ToI32(m.pid));
      replyRings := replyRings + {id};
      Answer(id, RegisterReply(m.corr, id), w);
    }

    /** The first block of `on_publish`: make the name free, or refuse. */
    method ClaimChannelName(name: string, w: World) returns (free: bool)
      requires Valid()
      modifies reg, this`arenas, this`unlinked, this`replyRings
      ensures Valid() && free == FreeChannel(old(View()), name, w).Some?
      ensures View() == if free then FreeChannel(old(View()), name, w).value else old(View())
      ensures old(unlinked) <= unlinked
      ensures free ==> name !in View().chans
    {
      hide ChansOk, FnsOk, ViewChans, ViewFns, ChanArenas, FnArenas, Ledger;
      NameInView(reg.channels, reg.chanByName, reg.subscribed, reg.released, reg.nextChannel, name);
      if !reg.ChannelNameTaken(name) { return true; }
      reg.ArenasDisjoint();
      var arena := reg.ReapIfReleased(name);
      if arena.Some? {
        ReclaimArena(arena.value);
        return true;
      }
      var dead := reg.DeadChannelOwner(name, w);
      if dead.None? { return false; }
      ReleaseClient(dead.value);
      return true;
    }

    method ClaimFunctionName(name: string, w: World) returns (free: bool)
      requires Valid()
      modifies reg, this`arenas, this`unlinked, this`replyRings
      ensures Valid() && free == FreeFunction(old(View()), name, w).Some?
      ensures View() == if free then FreeFunction(old(View()), name, w).value else old(View())
      ensures old(unlinked) <= unlinked
      ensures free ==> name !in View().fns
    {
      hide ChansOk, FnsOk, ViewChans, ViewFns, ChanArenas, FnArenas, Ledger;
      FnNameInView(reg.functions, reg.fnByName, reg.nextFn, name);
      if !reg.FunctionNameTaken(name) { return true; }
      var dead := reg.DeadFunctionOwner(name, w);
      if dead.None? { return false; }
      ReleaseClient(dead.value);
      return true;
    }

    method OnPublish(m: Msg, w: World)
      requires Valid() && m.Publish?
      modifies reg, this`arenas, this`created, this`unlinked, this`replyRings, this`sent
      ensures Valid() && View() == Spec.OnPublish(old(View()), m, w).0
      ensures sent == old(sent) + Placed(Delivered(View(), Spec.OnPublish(old(View()), m, w).1, w))
      ensures Mapped(Spec.OnPublish(old(View()), m, w).1, arenas, m.cap)
      ensures created == old(created) + Made(Spec.OnPublish(old(View()), m, w).1) && old(unlinked) <= unlinked
    {
      hide ChansOk, FnsOk, ViewChans, ViewFns, ChanArenas, FnArenas, Ledger, FreeChannel, PublishFree, GrantedCap;
      var free := ClaimChannelName(m.channel, w);
      if free {
        PublishUnder(m, w);
      } else {
        Answer(m.client, PublishReply(m.corr, Exists, 0, 0, ""), w);
      }
    }

    /** The rest of `on_publish`, once the name is free. */
    method PublishUnder(m: Msg, w: World)
      requires Valid() && m.Publish? && m.channel !in View().chans
      modifies reg, this`arenas, this`created, this`sent
      ensures Valid() && View() == PublishFree(old(View()), m, w).0
      ensures sent == old(sent) + Placed(Delivered(View(), PublishFree(old(View()), m, w).1, w))
      ensures Mapped(PublishFree(old(View()), m, w).1, arenas, m.cap)
      ensures created == old(created) + Made(PublishFree(old(View()), m, w).1)
    {
      hide ChansOk, FnsOk, ViewChans, ViewFns, ChanArenas, FnArenas, Ledger, GrantedCap, ChannelArena;
      hide Placed, Delivered, LegalCap, Issued, KeyOf;
      var fp := w.parse(m.schema);
      if fp.None? {
        Answer(m.client, PublishReply(m.corr, Internal, 0, 0, ""), w);
        return;
      }
      var id := AllocChannelId();
      var arena := ChannelArena(id);
      GrantIsLegal(m.cap);
      var ok := MakeArena(arena, GrantedCap(m.cap), w);
      if !ok {
        Answer(m.client, PublishReply(m.corr, Internal, 0, 0, ""), w);
        return;
      }
      EnterChannel(ChannelMeta(id, m.channel, m.client, fp.value, KeyOf(m.accessKey, w), arena));
      Answer(m.client, PublishReply(m.corr, Ok, id, fp.value, arena), w);
    }

    /** Enter a channel whose arena has just been mapped. */
    method EnterChannel(c: ChannelMeta)
      requires Sane() && arenas.Keys == reg.Arenas() + {c.arena} && c.name !in View().chans
      requires c.id !in reg.channels && 1 <= c.id < reg.nextChannel && c.arena == ChannelArena(c.id)
      modifies reg`channels, reg`chanByName
      ensures Valid()
      ensures View() == old(View()).(chans := old(View()).chans[c.name := Chan(c.id, c.owner, c.fp, c.key, false, None)])
    {
      hide ChansOk, FnsOk, ViewChans, ViewFns, ChanArenas, FnArenas, Ledger, ChannelArena;
      reg.InsertChannel(c);
    }

    /** Take a channel back from its publisher. Nothing is answered. */
    method OnUnpublish(client: int, channel: string, now: nat)
      requires Valid()
      modifies reg, this`arenas, this`unlinked
      ensures Valid() && View() == Spec.OnUnpublish(old(View()), client, channel, now)
      ensures old(unlinked) <= unlinked
    {
      hide ChansOk, FnsOk, ViewChans, ViewFns, ChanArenas, FnArenas, Ledger;
      reg.ArenasDisjoint();
      var r := reg.ReleaseChannel(channel, client, now);
      if r.Now? { ReclaimArena(r.arena); }
    }

    method OnList(corr: int, client: int, w: World)
      requires Valid()
      modifies this`sent
      ensures Valid()
      ensures sent == old(sent)
        + Placed(Delivered(View(), Some((client, ChannelList(corr, set n | n in View().chans :: InfoOf(View(), n)))), w))
    {
      hide ChansOk, FnsOk, ViewChans, ViewFns, ChanArenas, FnArenas, Ledger, InfoOf;
      Answer(client, ChannelList(corr, reg.ListChannels()), w);
    }

    method OnSubscribe(m: Msg, w: World)
      requires Valid() && m.Subscribe?
      modifies reg, this`sent
      ensures Valid() && View() == Spec.OnSubscribe(old(View()), m, w).0
      ensures sent == old(sent) + Placed(Delivered(View(), Spec.OnSubscribe(old(View()), m, w).1, w))
    {
      hide ChansOk, FnsOk, ViewChans, ViewFns, ChanArenas, FnArenas, Ledger, ChannelArena, Known;
      var r := reg.ResolveSubscribe(m.channelId, m.accessKey, m.expectedFp, w);
      if r.Granted? {
        reg.MarkSubscribed(m.channelId);
        Answer(m.client, SubscribeReply(m.corr, Ok, r.arena, r.fp), w);
      } else {
        Answer(m.client, SubscribeReply(m.corr, r.status, "", 0), w);
      }
    }

    method OnLookup(m: Msg, w: World)
      requires Valid() && m.Lookup?
      modifies this`sent
      ensures Valid()
      ensures sent == old(sent) + Placed(Delivered(View(), Spec.OnLookup(View(), m, w), w))
    {
      hide ChansOk, FnsOk, ViewChans, ViewFns, ChanArenas, FnArenas, Ledger, FunctionArena;
      var r := reg.ResolveLookup(m.fnName, m.accessKey, w);
      if r.Hit? {
        Answer(m.client, LookupReply(m.corr, Ok, r.id, r.reqFp, r.respFp, r.arena), w);
      } else {
        Answer(m.client, LookupReply(m.corr, r.status, 0, 0, 0, ""), w);
      }
    }

    method OnExpose(m: Msg, w: World)
      requires Valid() && m.Expose?
      modifies reg, this`arenas, this`created, this`unlinked, this`replyRings, this`sent
      ensures Valid() && View() == Spec.OnExpose(old(View()), m, w).0
      ensures sent == old(sent) + Placed(Delivered(View(), Spec.OnExpose(old(View()), m, w).1, w))
      ensures Mapped(Spec.OnExpose(old(View()), m, w).1, arenas, m.cap)
      ensures created == old(created) + Made(Spec.OnExpose(old(View()), m, w).1) && old(unlinked) <= unlinked
    {
      hide ChansOk, FnsOk, ViewChans, ViewFns, ChanArenas, FnArenas, Ledger, FreeFunction, ExposeFree, GrantedCap;
      var free := ClaimFunctionName(m.fnName, w);
      if free {
        ExposeUnder(m, w);
      } else {
        Answer(m.client, ExposeReply(m.corr, Exists, 0, 0, 0, ""), w);
      }
    }

    /** The rest of `on_expose`, once the name is free. */
    method ExposeUnder(m: Msg, w: World)
      requires Valid() && m.Expose? && m.fnName !in View().fns
      modifies reg, this`arenas, this`created, this`sent
      ensures Valid() && View() == ExposeFree(old(View()), m, w).0
      ensures sent == old(sent) + Placed(Delivered(View(), ExposeFree(old(View()), m, w).1, w))
      ensures Mapped(ExposeFree(old(View()), m, w).1, arenas, m.cap)
      ensures created == old(created) + Made(ExposeFree(old(View()), m, w).1)
    {
      hide ChansOk, FnsOk, ViewChans, ViewFns, ChanArenas, FnArenas, Ledger, GrantedCap, FunctionArena;
      hide Placed, Delivered, LegalCap, Issued, KeyOf;
      var req, resp := w.parse(m.reqSchema), w.parse(m.respSchema);
      if req.None? || resp.None? {
        Answer(m.client, ExposeReply(m.corr, Internal, 0, 0, 0, ""), w);
        return;
      }
      var id := AllocFnId();
      var arena := FunctionArena(id);
      GrantIsLegal(m.cap);
      var ok := MakeArena(arena, GrantedCap(m.cap), w);
      if !ok {
        Answer(m.client, ExposeReply(m.corr, Internal, 0, 0, 0, ""), w);
        return;
      }
      EnterFunction(FunctionMeta(id, m.fnName, m.client, req.value, resp.value, KeyOf(m.accessKey, w), arena));
      Answer(m.client, ExposeReply(m.corr, Ok, id, req.value, resp.value, arena), w);
    }

    /** Enter a function whose arena has just been mapped. */
    method EnterFunction(f: FunctionMeta)
      requires Sane() && arenas.Keys == reg.Arenas() + {f.reqArena} && f.name !in View().fns
      requires f.id !in reg.functions && 1 <= f.id < reg.nextFn && f.reqArena == FunctionArena(f.id)
      modifies reg`functions, reg`fnByName
      ensures Valid() && View() == old(View()).(fns := old(View()).fns[f.name := FuncOf(f)])
    {
      hide ChansOk, FnsOk, ViewChans, ViewFns, ChanArenas, FnArenas, Ledger, FunctionArena;
      reg.InsertFunction(f);
    }

    method AllocFnId() returns (id: nat)
      requires Valid()
      modifies reg`nextFn
      ensures Valid() && id == old(reg.nextFn) && reg.nextFn == id + 1
      ensures 1 <= id && id !in reg.functions && reg.Fns() == old(reg.Fns())
      ensures FunctionArena(id) !in created && Issued(FunctionArena(id), reg.nextChannel, reg.nextFn)
    {
      hide ChansOk, FnsOk, ViewChans, ViewFns, ChanArenas, FnArenas, Ledger;
      LedgerFresh(arenas, created, unlinked, reg.nextChannel, reg.nextFn);
      LedgerLater(arenas, created, unlinked, reg.nextChannel, reg.nextFn, reg.nextChannel, reg.nextFn + 1);
      id := reg.AllocFnId();
      assert Issued(FunctionArena(id), reg.nextChannel, reg.nextFn);
    }

    // ---- the control loop ------------------------------------------------

    /** Handle one control message as the bus specifies. */
    method Handle(m: Msg, w: World, now: nat)
      requires Valid()
      modifies reg, this`arenas, this`created, this`unlinked, this`replyRings, this`sent
      ensures Valid() && View() == Spec.Handle(old(View()), m, w, now).0
      ensures sent == old(sent) + Placed(Delivered(View(), Spec.Handle(old(View()), m, w, now).1, w))
      ensures NamesMapped(Spec.Handle(old(View()), m, w, now).1, arenas)
      ensures created == old(created) + Made(Spec.Handle(old(View()), m, w, now).1)
      ensures Unlinks(old(View()), Made(Spec.Handle(old(View()), m, w, now).1), View(), old(unlinked), unlinked)
    {
      hide ChansOk, FnsOk, ViewChans, ViewFns, ChanArenas, FnArenas, Ledger, Mapped, Delivered, NamesMapped;
      ghost var before := View();
      hide Spec.OnRegister, Spec.OnPublish, Spec.OnUnpublish, Spec.OnSubscribe, Spec.OnExpose, Spec.OnLookup, Depart;
      NothingDelivered(View(), w);
      match m {
        case Register(_, _, _, _) => OnRegister(m, w);
        case Unregister(client) => ReleaseClient(client); NothingDelivered(View(), w);
        case Publish(_, _, _, _, _, _) => OnPublish(m, w);
        case Unpublish(client, channel) => OnUnpublish(client, channel, now); NothingDelivered(View(), w);
        case ListChannels(corr, client) => OnList(corr, client, w);
        case Subscribe(_, _, _, _, _) => OnSubscribe(m, w);
        case Expose(_, _, _, _, _, _, _) => OnExpose(m, w);
        case Lookup(_, _, _, _) => OnLookup(m, w);
        case Heartbeat =>
        case Unusable =>
      }
      RepliesNameMappedArenas(before, m, w, now);
      HistoryGrew(Made(Spec.Handle(before, m, w, now).1));
    }

    /** One turn of the control loop: a message if one came, and a sweep if it is due. */
    method TakeTurn(turn: Turn)
      requires Valid()
      modifies reg, this
      ensures Valid() && Loop(View(), lastSweep) == Take(old(Loop(View(), lastSweep)), turn)
      ensures sent == old(sent) + Replies(old(Loop(View(), lastSweep)), turn)
      ensures created == old(created) + TurnMakes(old(Loop(View(), lastSweep)), turn)
      ensures Unlinks(old(View()), TurnMakes(old(Loop(View(), lastSweep)), turn), View(), old(unlinked), unlinked)
    {
      hide LiveArenas, NoDup, Elements, Made;
      hide ChansOk, FnsOk, ViewChans, ViewFns, ChanArenas, FnArenas, Ledger, Spec.Handle, Reap, Placed, Delivered, NamesMapped;
      ghost var start := Loop(View(), lastSweep);
      if turn.msg.Some? { Handle(turn.msg.value, turn.w, turn.at); }
      if turn.end - lastSweep >= SWEEP_INTERVAL {
        lastSweep := turn.end;
        Sweep(turn.end);
      }
      HistoryGrew(TurnMakes(start, turn));
    }

    method Sweep(now: nat)
      requires Valid()
      modifies reg, this`arenas, this`unlinked
      ensures Valid() && View() == Reap(old(View()), now)
      ensures Unlinks(old(View()), [], View(), old(unlinked), unlinked)
    {
      hide LiveArenas;
      hide ChansOk, FnsOk, ViewChans, ViewFns, ChanArenas, FnArenas, Ledger;
      reg.ArenasDisjoint();
      var due := reg.ReapReleased(now);
      ReclaimAll(due);
      HistoryGrew([]);
    }

    /** `Broker::run`, for as many turns as it is let. */
    method Run(turns: seq<Turn>)
      requires Valid()
      modifies reg, this
      ensures Valid() && Loop(View(), lastSweep) == Spec.Run(old(Loop(View(), lastSweep)), turns)
      ensures sent == old(sent) + RunReplies(old(Loop(View(), lastSweep)), turns)
      ensures created == old(created) + RunMakes(old(Loop(View(), lastSweep)), turns)
      ensures Unlinks(old(View()), RunMakes(old(Loop(View(), lastSweep)), turns), View(), old(unlinked), unlinked)
    {
      hide LiveArenas, NoDup, Elements, TurnMakes;
      hide ChansOk, FnsOk, ViewChans, ViewFns, ChanArenas, FnArenas, Ledger, Take, Replies;
      var i := 0;
      ghost var start := Loop(View(), lastSweep);
      while i < |turns|
        invariant 0 <= i <= |turns| && Valid()
        invariant Spec.Run(Loop(View(), lastSweep), turns[i..]) == Spec.Run(start, turns)
        invariant sent + RunReplies(Loop(View(), lastSweep), turns[i..]) == old(sent) + RunReplies(start, turns)
        invariant created + RunMakes(Loop(View(), lastSweep), turns[i..]) == old(created) + RunMakes(start, turns)
        invariant old(unlinked) <= unlinked
      {
        assert turns[i..][0] == turns[i] && turns[i..][1..] == turns[i + 1..];
        TakeTurn(turns[i]);
        i := i + 1;
      }
      HistoryGrew(RunMakes(start, turns));
    }

    /** An id, and the assurance that its arena's name was never used. */
    method AllocChannelId() returns (id: nat)
      requires Valid()
      modifies reg`nextChannel
      ensures Valid() && id == old(reg.nextChannel) && reg.nextChannel == id + 1
      ensures 1 <= id && id !in reg.channels && reg.Chans() == old(reg.Chans())
      ensures ChannelArena(id) !in created && Issued(ChannelArena(id), reg.nextChannel, reg.nextFn)
    {
      hide ChansOk, FnsOk, ViewChans, ViewFns, ChanArenas, FnArenas, Ledger;
      LedgerFresh(arenas, created, unlinked, reg.nextChannel, reg.nextFn);
      LedgerLater(arenas, created, unlinked, reg.nextChannel, reg.nextFn, reg.nextChannel + 1, reg.nextFn);
      id := reg.AllocChannelId();
      assert Issued(ChannelArena(id), reg.nextChannel, reg.nextFn);
    }
  }
}
