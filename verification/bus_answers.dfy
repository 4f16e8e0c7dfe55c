/** What clients are told, message against message: each answer is fixed by the messages
    before it. The policies the bus decides by are not named here; keys, schemas and
    process ids are taken from the publish, the expose and the register that brought them. */
module BusAnswers {
  import opened Records
  import opened Names
  import opened Bus
  import opened BusTheorems

  // ---- what a message leaves alone --------------------------------------

  /** The message is a subscription to `id`, and is granted. */
  ghost predicate Grants(b: Bus, m: Msg, w: World, id: nat) {
    && m.Subscribe? && m.channelId == id
    && Handle(b, m, w, 0).1.Some? && Handle(b, m, w, 0).1.value.1.SubscribeReply?
    && Handle(b, m, w, 0).1.value.1.status == Ok
  }

  /** A channel that stays keeps its owner, its schema and its key; it becomes subscribed
      by a granted subscription, and released by its owner's Unpublish, and not otherwise. */
  lemma ChannelKept(b: Bus, m: Msg, w: World, now: nat, name: string, id: nat)
    requires Sound(b) && Live(b, name, id) && Live(Handle(b, m, w, now).0, name, id)
    ensures var (ch, ch') := (b.chans[name], Handle(b, m, w, now).0.chans[name]);
      && ch'.owner == ch.owner && ch'.fp == ch.fp && ch'.key == ch.key
      && (ch'.subscribed <==> ch.subscribed || Grants(b, m, w, id))
      && (ch'.released.Some? <==> ch.released.Some? || m == Unpublish(ch.owner, name))
  {
    hide ChannelArena, FunctionArena, OwnerDead, KeyOk, FpOk;
    match m
    case Publish(_, _, _, _, _, _) => PublishStands(b, m, w, name);
    case Expose(_, _, _, _, _, _, _) => ExposeStands(b, m, w, name);
    case _ =>
  }

  lemma FunctionKept(b: Bus, m: Msg, w: World, now: nat, name: string, id: nat)
    requires Sound(b) && LiveFn(b, name, id) && LiveFn(Handle(b, m, w, now).0, name, id)
    ensures Handle(b, m, w, now).0.fns[name] == b.fns[name]
  {
    hide ChannelArena, FunctionArena, OwnerDead, KeyOk, FpOk;
  }

  lemma ClientKept(b: Bus, m: Msg, w: World, now: nat, c: int)
    requires Sound(b) && c in Handle(b, m, w, now).0.clients && c < b.nextClient
    ensures c in b.clients && Handle(b, m, w, now).0.clients[c] == b.clients[c]
  {
    hide ChannelArena, FunctionArena, OwnerDead, KeyOk, FpOk;
  }

  lemma CountersGrow(b: Bus, m: Msg, w: World, now: nat)
    ensures var b' := Handle(b, m, w, now).0;
      b.nextClient <= b'.nextClient && b.nextChan <= b'.nextChan && b.nextFn <= b'.nextFn
  {
    hide ChannelArena, FunctionArena, OwnerDead, KeyOk, FpOk;
  }

  lemma NoFnResurrection(b: Bus, m: Msg, w: World, now: nat, name: string, id: nat)
    requires id < b.nextFn && !LiveFn(b, name, id)
    ensures !LiveFn(Handle(b, m, w, now).0, name, id)
  {
    hide ChannelArena, FunctionArena, OwnerDead, KeyOk, FpOk;
  }

  // ---- and a turn -------------------------------------------------------

  ghost predicate GrantsIn(l: Loop, t: Turn, id: nat) {
    t.msg.Some? && Grants(l.bus, t.msg.value, t.w, id)
  }

  lemma TurnKeepsChannel(l: Loop, t: Turn, name: string, id: nat)
    requires Sound(l.bus) && id < l.bus.nextChan && Live(Take(l, t).bus, name, id)
    ensures Live(l.bus, name, id)
    ensures var (ch, ch') := (l.bus.chans[name], Take(l, t).bus.chans[name]);
      && ch'.owner == ch.owner && ch'.fp == ch.fp && ch'.key == ch.key
      && (ch'.subscribed <==> ch.subscribed || GrantsIn(l, t, id))
      && (ch'.released.Some? <==> ch.released.Some? || t.msg == Some(Unpublish(ch.owner, name)))
  {
    hide Handle;
    if t.msg.Some? {
      if !Live(l.bus, name, id) { HandleNoResurrection(l.bus, t.msg.value, t.w, t.at, name, id); }
      ChannelKept(l.bus, t.msg.value, t.w, t.at, name, id);
    }
  }

  lemma TurnKeepsFunction(l: Loop, t: Turn, name: string, id: nat)
    requires Sound(l.bus) && id < l.bus.nextFn && LiveFn(Take(l, t).bus, name, id)
    ensures LiveFn(l.bus, name, id) && Take(l, t).bus.fns[name] == l.bus.fns[name]
  {
    hide Handle;
    if t.msg.Some? {
      if !LiveFn(l.bus, name, id) { NoFnResurrection(l.bus, t.msg.value, t.w, t.at, name, id); }
      FunctionKept(l.bus, t.msg.value, t.w, t.at, name, id);
    }
  }

  lemma TurnKeepsClient(l: Loop, t: Turn, c: int)
    requires Sound(l.bus) && c < l.bus.nextClient && c in Take(l, t).bus.clients
    ensures c in l.bus.clients && Take(l, t).bus.clients[c] == l.bus.clients[c]
  {
    hide Handle;
    if t.msg.Some? { ClientKept(l.bus, t.msg.value, t.w, t.at, c); }
  }

  lemma TurnCounters(l: Loop, t: Turn)
    ensures var (b, b') := (l.bus, Take(l, t).bus);
      b.nextClient <= b'.nextClient && b.nextChan <= b'.nextChan && b.nextFn <= b'.nextFn
  {
    hide Handle;
    if t.msg.Some? { CountersGrow(l.bus, t.msg.value, t.w, t.at); }
  }

  // ---- and a run --------------------------------------------------------

  /** Turn `i` of the run grants a subscription to `id`. */
  ghost predicate GrantedAt(l: Loop, turns: seq<Turn>, i: nat, id: nat)
    requires i < |turns|
  {
    GrantsIn(Run(l, turns[..i]), turns[i], id)
  }

  lemma {:induction false} RunCounters(l: Loop, turns: seq<Turn>)
    ensures var (b, b') := (l.bus, Run(l, turns).bus);
      b.nextClient <= b'.nextClient && b.nextChan <= b'.nextChan && b.nextFn <= b'.nextFn
    decreases |turns|
  {
    hide Take;
    if turns != [] {
      TurnCounters(l, turns[0]);
      RunCounters(Take(l, turns[0]), turns[1..]);
    }
  }

  lemma {:induction false} ChannelUpTo(l: Loop, turns: seq<Turn>, i: nat, name: string, id: nat)
    requires Sound(l.bus) && id < l.bus.nextChan && i <= |turns| && Live(Run(l, turns[..i]).bus, name, id)
    ensures Live(l.bus, name, id)
    ensures var (ch, ch') := (l.bus.chans[name], Run(l, turns[..i]).bus.chans[name]);
      && ch'.owner == ch.owner && ch'.fp == ch.fp && ch'.key == ch.key
      && (ch'.subscribed <==> ch.subscribed || exists j :: 0 <= j < i && GrantedAt(l, turns, j, id))
      && (ch'.released.Some? <==>
            ch.released.Some? || exists j :: 0 <= j < i && turns[j].msg == Some(Unpublish(ch.owner, name)))
    decreases i
  {
    hide Take, GrantsIn, Sound, Run;
    if i == 0 {
      assert turns[..0] == [];
      NoTurns(l);
    } else {
      var before := Run(l, turns[..i - 1]);
      RunOneMore(l, turns, i - 1);
      RunSound(l, turns[..i - 1]);
      RunCounters(l, turns[..i - 1]);
      TurnKeepsChannel(before, turns[i - 1], name, id);
      ChannelUpTo(l, turns, i - 1, name, id);
      assert GrantedAt(l, turns, i - 1, id) <==> GrantsIn(before, turns[i - 1], id);
    }
  }

  lemma NoTurns(l: Loop)
    ensures Run(l, []) == l
  {}

  /** A channel alive at the end of a run was alive at its beginning, with the same owner,
      schema and key; it is subscribed if and only if it was or a turn granted a
      subscription, and released if and only if it was or its owner released it. */
  lemma ChannelOverRun(l: Loop, turns: seq<Turn>, name: string, id: nat)
    requires Sound(l.bus) && id < l.bus.nextChan && Live(Run(l, turns).bus, name, id)
    ensures Live(l.bus, name, id)
    ensures var (ch, ch') := (l.bus.chans[name], Run(l, turns).bus.chans[name]);
      && ch'.owner == ch.owner && ch'.fp == ch.fp && ch'.key == ch.key
      && (ch'.subscribed <==> ch.subscribed || exists j :: 0 <= j < |turns| && GrantedAt(l, turns, j, id))
      && (ch'.released.Some? <==>
            ch.released.Some? || exists j :: 0 <= j < |turns| && turns[j].msg == Some(Unpublish(ch.owner, name)))
  {
    assert turns[..|turns|] == turns;
    ChannelUpTo(l, turns, |turns|, name, id);
  }

  lemma {:induction false} FunctionOverRun(l: Loop, turns: seq<Turn>, name: string, id: nat)
    requires Sound(l.bus) && id < l.bus.nextFn && LiveFn(Run(l, turns).bus, name, id)
    ensures LiveFn(l.bus, name, id) && Run(l, turns).bus.fns[name] == l.bus.fns[name]
    decreases |turns|
  {
    hide Take, Sound;
    if turns != [] {
      var l1 := Take(l, turns[0]);
      TakeSound(l, turns[0]);
      TurnCounters(l, turns[0]);
      FunctionOverRun(l1, turns[1..], name, id);
      TurnKeepsFunction(l, turns[0], name, id);
    }
  }

  lemma {:induction false} ClientOverRun(l: Loop, turns: seq<Turn>, c: int)
    requires Sound(l.bus) && c < l.bus.nextClient && c in Run(l, turns).bus.clients
    ensures c in l.bus.clients && Run(l, turns).bus.clients[c] == l.bus.clients[c]
    decreases |turns|
  {
    hide Take, Sound;
    if turns != [] {
      var l1 := Take(l, turns[0]);
      TakeSound(l, turns[0]);
      TurnCounters(l, turns[0]);
      ClientOverRun(l1, turns[1..], c);
      TurnKeepsClient(l, turns[0], c);
    }
  }

  // ---- the answers ------------------------------------------------------

  /** Answered OK, the publish of which `l` is what comes after. */
  ghost predicate PublishedOk(b: Bus, m: Msg, w: World, now: nat, r: Reply, l: Loop) {
    && Sound(b) && m.Publish? && Handle(b, m, w, now) == (l.bus, Some((m.client, r)))
    && r.PublishReply? && r.status == Ok
  }

  lemma PublishedChannel(b: Bus, m: Msg, w: World, now: nat, r: Reply, l: Loop)
    requires PublishedOk(b, m, w, now, r, l)
    ensures w.parse(m.schema).Some? && Sound(l.bus) && r.id < l.bus.nextChan
    ensures r == PublishReply(m.corr, Ok, r.id, w.parse(m.schema).value, ChannelArena(r.id))
    ensures Live(l.bus, m.channel, r.id)
    ensures var ch := l.bus.chans[m.channel];
      && ch.owner == m.client && ch.fp == r.fp && !ch.subscribed && ch.released == None
      && ch.key == if m.accessKey == "" then None else Some(w.hash(m.accessKey))
  {
    HandleSound(b, m, w, now);
    hide ChannelArena, OwnerDead, Sound;
  }

  /** A subscription to a published channel, any run later, is refused for the key if and
      only if the channel was published with a key and the one presented hashes
      differently; otherwise for the schema if and only if one is expected and it is not
      the published one; and otherwise it is told that very publish's arena and schema, and
      the channel is subscribed. To the id of a channel that is gone there is nothing. */
  lemma SubscribeIsAnswered(
    b: Bus, m: Msg, w: World, now: nat, r: Reply, l: Loop, turns: seq<Turn>, s: Msg, w2: World, now2: nat)
    requires PublishedOk(b, m, w, now, r, l)
    requires s.Subscribe? && s.channelId == r.id
    ensures w.parse(m.schema) == Some(r.fp)
    ensures var b2 := Run(l, turns).bus;
      var (b3, answer) := Handle(b2, s, w2, now2);
      if !Live(b2, m.channel, r.id) then
        b3 == b2 && answer == Some((s.client, SubscribeReply(s.corr, NotFound, "", 0)))
      else if m.accessKey != "" && w2.hash(s.accessKey) != w.hash(m.accessKey) then
        b3 == b2 && answer == Some((s.client, SubscribeReply(s.corr, Denied, "", 0)))
      else if s.expectedFp != 0 && s.expectedFp != r.fp then
        b3 == b2 && answer == Some((s.client, SubscribeReply(s.corr, SchemaMismatch, "", 0)))
      else
        && answer == Some((s.client, SubscribeReply(s.corr, Ok, r.arena, r.fp)))
        && b3 == b2.(chans := b2.chans[m.channel := b2.chans[m.channel].(subscribed := true)])
  {
    PublishedChannel(b, m, w, now, r, l);
    RunSound(l, turns);
    var b2 := Run(l, turns).bus;
    if Live(b2, m.channel, r.id) {
      ChannelOverRun(l, turns, m.channel, r.id);
      assert Known(b2, r.id) && NameOf(b2, r.id) == m.channel;
    } else {
      forall n | n in b2.chans ensures b2.chans[n].id != r.id {
        if b2.chans[n].id == r.id { OtherwiseNamed(l, turns, m.channel, n, r.id); }
      }
    }
    hide Run;
  }

  /** An id stays with its name. */
  lemma OtherwiseNamed(l: Loop, turns: seq<Turn>, name: string, other: string, id: nat)
    requires Sound(l.bus) && Live(l.bus, name, id) && Live(Run(l, turns).bus, other, id)
    ensures other == name
  {
    ChannelOverRun(l, turns, other, id);
  }

  /** An id nobody was given denotes nothing. */
  lemma UnknownIdIsNotFound(b: Bus, s: Msg, w: World, now: nat)
    requires s.Subscribe? && forall n :: n in b.chans ==> b.chans[n].id != s.channelId
    ensures Handle(b, s, w, now) == (b, Some((s.client, SubscribeReply(s.corr, NotFound, "", 0))))
  {}

  ghost predicate ExposedOk(b: Bus, m: Msg, w: World, now: nat, r: Reply, l: Loop) {
    && Sound(b) && m.Expose? && Handle(b, m, w, now) == (l.bus, Some((m.client, r)))
    && r.ExposeReply? && r.status == Ok
  }

  lemma ExposedFunction(b: Bus, m: Msg, w: World, now: nat, r: Reply, l: Loop)
    requires ExposedOk(b, m, w, now, r, l)
    ensures w.parse(m.reqSchema).Some? && w.parse(m.respSchema).Some? && Sound(l.bus) && r.id < l.bus.nextFn
    ensures r == ExposeReply(m.corr, Ok, r.id, w.parse(m.reqSchema).value, w.parse(m.respSchema).value, FunctionArena(r.id))
    ensures LiveFn(l.bus, m.fnName, r.id)
    ensures l.bus.fns[m.fnName] == Func(
      r.id, m.client, w.parse(m.reqSchema).value, w.parse(m.respSchema).value,
      if m.accessKey == "" then None else Some(w.hash(m.accessKey)))
  {
    HandleSound(b, m, w, now);
    hide FunctionArena, OwnerDead, Sound;
  }

  /** A lookup of an exposed function, any run later, is refused if and only if the
      function was exposed with a key and the one presented hashes differently; otherwise
      it is told that very expose's id, request schema, response schema and arena. A lookup
      of a name that nothing is exposed under finds nothing. */
  lemma LookupIsAnswered(
    b: Bus, m: Msg, w: World, now: nat, r: Reply, l: Loop, turns: seq<Turn>, s: Msg, w2: World, now2: nat)
    requires ExposedOk(b, m, w, now, r, l)
    requires s.Lookup? && s.fnName == m.fnName
    ensures w.parse(m.reqSchema) == Some(r.reqFp) && w.parse(m.respSchema) == Some(r.respFp)
    ensures var b2 := Run(l, turns).bus;
      var (b3, answer) := Handle(b2, s, w2, now2);
      && b3 == b2
      && (m.fnName !in b2.fns ==> answer == Some((s.client, LookupReply(s.corr, NotFound, 0, 0, 0, ""))))
      && (LiveFn(b2, m.fnName, r.id) ==>
            answer == Some((s.client,
              if m.accessKey != "" && w2.hash(s.accessKey) != w.hash(m.accessKey) then
                LookupReply(s.corr, Denied, 0, 0, 0, "")
              else LookupReply(s.corr, Ok, r.id, r.reqFp, r.respFp, r.arena))))
  {
    ExposedFunction(b, m, w, now, r, l);
    if LiveFn(Run(l, turns).bus, m.fnName, r.id) { FunctionOverRun(l, turns, m.fnName, r.id); }
    hide Run, FunctionArena;
  }

  /** Registered, and what its client is from then on. */
  ghost predicate RegisteredOk(b: Bus, m: Msg, w: World, now: nat, c: int, l: Loop) {
    Sound(b) && m.Register? && Handle(b, m, w, now) == (l.bus, Some((c, RegisterReply(m.corr, c))))
  }

  /** A register is answered with an id nobody has had exactly when its reply segment
      attaches; as long as the client stays, it is known by the name and the process id it
      gave, taken as 32 bits. */
  lemma ClientIsKnown(b: Bus, m: Msg, w: World, now: nat, c: int, l: Loop, turns: seq<Turn>)
    requires RegisteredOk(b, m, w, now, c, l)
    ensures w.attach(m.segment) && c !in b.clients && c >= b.nextClient && c in l.bus.clients
    ensures c in Run(l, turns).bus.clients ==>
      var client := Run(l, turns).bus.clients[c];
      && client.app == m.app
      && -0x8000_0000 <= client.pid < 0x8000_0000 && (m.pid - client.pid) % W32 == 0
  {
    HandleSound(b, m, w, now);
    if c in Run(l, turns).bus.clients { ClientOverRun(l, turns, c); }
    hide Run;
  }

  lemma UnattachedIsIgnored(b: Bus, m: Msg, w: World, now: nat)
    requires m.Register? && !w.attach(m.segment)
    ensures Handle(b, m, w, now) == (b, None)
  {}

  /** A client that unregistered is gone with all that was its own, and never comes back. */
  lemma UnregisterIsFinal(b: Bus, c: int, w: World, now: nat, l: Loop, turns: seq<Turn>)
    requires Sound(b) && c < b.nextClient && Handle(b, Unregister(c), w, now) == (l.bus, None)
    ensures (forall n :: n in l.bus.chans ==> l.bus.chans[n].owner != c)
    ensures (forall n :: n in l.bus.fns ==> l.bus.fns[n].owner != c)
    ensures c !in Run(l, turns).bus.clients
  {
    HandleSound(b, Unregister(c), w, now);
    if c in Run(l, turns).bus.clients { ClientOverRun(l, turns, c); }
    hide Run;
  }

  /** A name that is taken is refused to whoever publishes it next, until its owner has
      released it or is positively dead: registered with a process id that is not zero, of
      a process that is gone. */
  lemma TakenNameIsRefused(
    b: Bus, m: Msg, w: World, now: nat, r: Reply, l: Loop, turns: seq<Turn>, m2: Msg, w2: World, now2: nat)
    requires PublishedOk(b, m, w, now, r, l) && Live(Run(l, turns).bus, m.channel, r.id)
    requires m2.Publish? && m2.channel == m.channel
    ensures var b2 := Run(l, turns).bus;
      Handle(b2, m2, w2, now2) == (b2, Some((m2.client, PublishReply(m2.corr, Exists, 0, 0, "")))) <==>
      && (forall j :: 0 <= j < |turns| ==> turns[j].msg != Some(Unpublish(m.client, m.channel)))
      && !(m.client in b2.clients && b2.clients[m.client].pid != 0 && !w2.pidAlive(b2.clients[m.client].pid))
  {
    PublishedChannel(b, m, w, now, r, l);
    ChannelOverRun(l, turns, m.channel, r.id);
    hide Run, ChannelArena;
  }

  /** And so is a function's name, but for the release. */
  lemma TakenFunctionIsRefused(
    b: Bus, m: Msg, w: World, now: nat, r: Reply, l: Loop, turns: seq<Turn>, m2: Msg, w2: World, now2: nat)
    requires ExposedOk(b, m, w, now, r, l) && LiveFn(Run(l, turns).bus, m.fnName, r.id)
    requires m2.Expose? && m2.fnName == m.fnName
    ensures var b2 := Run(l, turns).bus;
      Handle(b2, m2, w2, now2) == (b2, Some((m2.client, ExposeReply(m2.corr, Exists, 0, 0, 0, "")))) <==>
      !(m.client in b2.clients && b2.clients[m.client].pid != 0 && !w2.pidAlive(b2.clients[m.client].pid))
  {
    ExposedFunction(b, m, w, now, r, l);
    FunctionOverRun(l, turns, m.fnName, r.id);
    hide Run, FunctionArena;
  }

  /** Under a free name only the schema and the arena can fail; both are answered alike,
      and nothing is on the bus for it. */
  lemma FreeNameIsRefusedInternally(b: Bus, m: Msg, w: World, now: nat)
    requires m.Publish? && m.channel !in b.chans
    ensures var (b', answer) := Handle(b, m, w, now);
      answer == Some((m.client, PublishReply(m.corr, Internal, 0, 0, ""))) && b'.chans == b.chans <==>
      w.parse(m.schema).None? || !w.create(ChannelArena(b.nextChan))
  {}

  lemma FreeFunctionIsRefusedInternally(b: Bus, m: Msg, w: World, now: nat)
    requires m.Expose? && m.fnName !in b.fns
    ensures var (b', answer) := Handle(b, m, w, now);
      answer == Some((m.client, ExposeReply(m.corr, Internal, 0, 0, 0, ""))) && b'.fns == b.fns <==>
      w.parse(m.reqSchema).None? || w.parse(m.respSchema).None? || !w.create(FunctionArena(b.nextFn))
  {}

  /** Its owner's Unpublish ends a channel at once if some turn since has granted a
      subscription to it, and begins its grace if none has. */
  lemma UnpublishIsFinalOnceSubscribed(
    b: Bus, m: Msg, w: World, now: nat, r: Reply, l: Loop, turns: seq<Turn>, w2: World, now2: nat)
    requires PublishedOk(b, m, w, now, r, l) && Live(Run(l, turns).bus, m.channel, r.id)
    ensures var b3 := Handle(Run(l, turns).bus, Unpublish(m.client, m.channel), w2, now2).0;
      if exists j :: 0 <= j < |turns| && GrantedAt(l, turns, j, r.id) then m.channel !in b3.chans
      else Live(b3, m.channel, r.id) && b3.chans[m.channel].released == Some(now2)
  {
    PublishedChannel(b, m, w, now, r, l);
    ChannelOverRun(l, turns, m.channel, r.id);
    hide Run, ChannelArena, GrantedAt;
  }

  /** The list has each channel once, with the id and the schema it was published with,
      whether it was published with a key, and the name its owner registered under. */
  lemma ChannelIsListed(
    b: Bus, m: Msg, w: World, now: nat, r: Reply, l: Loop, turns: seq<Turn>, corr: int, client: int, w2: World, now2: nat)
    requires PublishedOk(b, m, w, now, r, l)
    ensures var b2 := Run(l, turns).bus;
      var (b3, answer) := Handle(b2, ListChannels(corr, client), w2, now2);
      && b3 == b2 && answer.Some? && answer.value.0 == client
      && answer.value.1.ChannelList? && answer.value.1.corr == corr
      && var app := if m.client in b2.clients then b2.clients[m.client].app else "";
      var info := ChannelInfo(r.id, m.channel, app, r.fp, m.accessKey != "");
      && (info in answer.value.1.infos <==> Live(b2, m.channel, r.id))
      && (Live(b2, m.channel, r.id) ==> forall x :: x in answer.value.1.infos && x.name == m.channel ==> x == info)
  {
    PublishedChannel(b, m, w, now, r, l);
    var b2 := Run(l, turns).bus;
    if Live(b2, m.channel, r.id) {
      ChannelOverRun(l, turns, m.channel, r.id);
      assert InfoOf(b2, m.channel) in (set n | n in b2.chans :: InfoOf(b2, n));
    }
    hide Run, ChannelArena;
  }

  /** An answer is placed exactly when whom it is for is registered and its ring takes it. */
  lemma AnswerIsPlaced(l: Loop, t: Turn)
    ensures t.msg.None? ==> Replies(l, t) == []
    ensures t.msg.Some? ==>
      var (b, answer) := Handle(l.bus, t.msg.value, t.w, t.at);
      Replies(l, t) ==
        if answer.Some? && answer.value.0 in b.clients && t.w.takes(answer.value.0) then [answer.value] else []
  {}
}
