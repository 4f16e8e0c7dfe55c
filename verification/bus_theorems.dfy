/** What holds of the bus over every run of the control loop. */
module BusTheorems {
  import opened Records
  import opened Names
  import opened Bus

  // ---- identities -------------------------------------------------------

  /** Ids are positive, below the counters, and never shared. */
  ghost predicate Sound(b: Bus) {
    && (forall n :: n in b.chans ==> 1 <= b.chans[n].id < b.nextChan)
    && (forall n :: n in b.fns ==> 1 <= b.fns[n].id < b.nextFn)
    && (forall c :: c in b.clients ==> 1 <= c < b.nextClient)
    && (forall m, n :: m in b.chans && n in b.chans && b.chans[m].id == b.chans[n].id ==> m == n)
    && (forall m, n :: m in b.fns && n in b.fns && b.fns[m].id == b.fns[n].id ==> m == n)
    && 1 <= b.nextClient && 1 <= b.nextChan && 1 <= b.nextFn
  }

  lemma DepartSound(b: Bus, client: int)
    requires Sound(b)
    ensures Sound(Depart(b, client))
  {}

  lemma FreeChannelSound(b: Bus, name: string, w: World)
    requires Sound(b) && FreeChannel(b, name, w).Some?
    ensures Sound(FreeChannel(b, name, w).value)
  {
    if name in b.chans { DepartSound(b, b.chans[name].owner); }
  }

  lemma FreeFunctionSound(b: Bus, name: string, w: World)
    requires Sound(b) && FreeFunction(b, name, w).Some?
    ensures Sound(FreeFunction(b, name, w).value)
  {
    if name in b.fns { DepartSound(b, b.fns[name].owner); }
  }

  lemma PublishSound(b: Bus, m: Msg, w: World)
    requires Sound(b) && m.Publish?
    ensures Sound(OnPublish(b, m, w).0)
  {
    hide FreeChannel, ChannelArena;
    if FreeChannel(b, m.channel, w).Some? { FreeChannelSound(b, m.channel, w); }
  }

  lemma ExposeSound(b: Bus, m: Msg, w: World)
    requires Sound(b) && m.Expose?
    ensures Sound(OnExpose(b, m, w).0)
  {
    hide FreeFunction, FunctionArena;
    if FreeFunction(b, m.fnName, w).Some? { FreeFunctionSound(b, m.fnName, w); }
  }

  lemma SubscribeSound(b: Bus, m: Msg, w: World)
    requires Sound(b) && m.Subscribe?
    ensures Sound(OnSubscribe(b, m, w).0)
  {}

  lemma UnpublishSound(b: Bus, client: int, channel: string, now: nat)
    requires Sound(b)
    ensures Sound(OnUnpublish(b, client, channel, now))
  {}

  lemma RegisterSound(b: Bus, m: Msg, w: World)
    requires Sound(b) && m.Register?
    ensures Sound(OnRegister(b, m, w).0)
  {}

  lemma HandleSound(b: Bus, m: Msg, w: World, now: nat)
    requires Sound(b)
    ensures Sound(Handle(b, m, w, now).0)
  {
    hide OnPublish, OnExpose, OnSubscribe, OnUnpublish, OnRegister, Depart;
    match m
    case Unregister(client) => DepartSound(b, client);
    case Publish(_, _, _, _, _, _) => PublishSound(b, m, w);
    case Expose(_, _, _, _, _, _, _) => ExposeSound(b, m, w);
    case Subscribe(_, _, _, _, _) => SubscribeSound(b, m, w);
    case Unpublish(client, channel) => UnpublishSound(b, client, channel, now);
    case Register(_, _, _, _) => RegisterSound(b, m, w);
    case _ =>
  }

  lemma TakeSound(l: Loop, t: Turn)
    requires Sound(l.bus)
    ensures Sound(Take(l, t).bus)
  {
    if t.msg.Some? { HandleSound(l.bus, t.msg.value, t.w, t.at); }
  }

  lemma {:induction false} RunSound(l: Loop, turns: seq<Turn>)
    requires Sound(l.bus)
    ensures Sound(Run(l, turns).bus)
    decreases |turns|
  {
    if turns != [] {
      TakeSound(l, turns[0]);
      RunSound(Take(l, turns[0]), turns[1..]);
    }
  }

  /** The channel `name` stands for is the one numbered `id`. */
  predicate Live(b: Bus, name: string, id: nat) {
    name in b.chans && b.chans[name].id == id
  }

  predicate LiveFn(b: Bus, name: string, id: nat) {
    name in b.fns && b.fns[name].id == id
  }

  // ---- exact removal ----------------------------------------------------

  /** The messages that take channel `name` away. */
  predicate Evicts(b: Bus, m: Msg, w: World, name: string)
    requires name in b.chans
  {
    var ch := b.chans[name];
    match m
    case Unpublish(client, channel) => channel == name && client == ch.owner && ch.subscribed
    case Unregister(client) => client == ch.owner
    case Publish(_, _, channel, _, _, _) =>
      || (channel == name && ch.released.Some?)
      || (channel in b.chans && b.chans[channel].released.None? && OwnerDead(b, b.chans[channel].owner, w)
          && b.chans[channel].owner == ch.owner)
    case Expose(_, _, fnName, _, _, _, _) =>
      fnName in b.fns && OwnerDead(b, b.fns[fnName].owner, w) && b.fns[fnName].owner == ch.owner
    case _ => false
  }

  lemma PublishEvicts(b: Bus, m: Msg, w: World, name: string)
    requires Sound(b) && name in b.chans && m.Publish?
    ensures Live(OnPublish(b, m, w).0, name, b.chans[name].id) <==> !Evicts(b, m, w, name)
  {}

  lemma ExposeEvicts(b: Bus, m: Msg, w: World, name: string)
    requires name in b.chans && m.Expose?
    ensures Live(OnExpose(b, m, w).0, name, b.chans[name].id) <==> !Evicts(b, m, w, name)
  {}

  /** A message removes a channel exactly when it is one of those. */
  lemma HandleEvicts(b: Bus, m: Msg, w: World, now: nat, name: string)
    requires Sound(b) && name in b.chans
    ensures Live(Handle(b, m, w, now).0, name, b.chans[name].id) <==> !Evicts(b, m, w, name)
  {
    hide OnPublish, OnExpose;
    match m
    case Publish(_, _, _, _, _, _) => PublishEvicts(b, m, w, name);
    case Expose(_, _, _, _, _, _, _) => ExposeEvicts(b, m, w, name);
    case _ =>
  }

  /** The messages that take function `name` away. */
  predicate EvictsFn(b: Bus, m: Msg, w: World, name: string)
    requires name in b.fns
  {
    var owner := b.fns[name].owner;
    match m
    case Unregister(client) => client == owner
    case Publish(_, _, channel, _, _, _) =>
      channel in b.chans && b.chans[channel].released.None? && OwnerDead(b, b.chans[channel].owner, w)
      && b.chans[channel].owner == owner
    case Expose(_, _, fnName, _, _, _, _) =>
      fnName in b.fns && OwnerDead(b, b.fns[fnName].owner, w) && b.fns[fnName].owner == owner
    case _ => false
  }

  /** A function lasts until its owner departs or is found dead. */
  lemma HandleEvictsFn(b: Bus, m: Msg, w: World, now: nat, name: string)
    requires Sound(b) && name in b.fns
    ensures LiveFn(Handle(b, m, w, now).0, name, b.fns[name].id) <==> !EvictsFn(b, m, w, name)
  {
    hide OnPublish, OnExpose;
    match m
    case Publish(_, _, _, _, _, _) => PublishEvictsFn(b, m, w, name);
    case Expose(_, _, _, _, _, _, _) => ExposeEvictsFn(b, m, w, name);
    case _ =>
  }

  lemma PublishEvictsFn(b: Bus, m: Msg, w: World, name: string)
    requires name in b.fns && m.Publish?
    ensures LiveFn(OnPublish(b, m, w).0, name, b.fns[name].id) <==> !EvictsFn(b, m, w, name)
  {}

  lemma ExposeEvictsFn(b: Bus, m: Msg, w: World, name: string)
    requires Sound(b) && name in b.fns && m.Expose?
    ensures LiveFn(OnExpose(b, m, w).0, name, b.fns[name].id) <==> !EvictsFn(b, m, w, name)
  {}

  /** One turn removes a channel: by its message, or by the sweep after it. */
  ghost predicate Removes(l: Loop, t: Turn, name: string)
    requires name in l.bus.chans
  {
    || (t.msg.Some? && Evicts(l.bus, t.msg.value, t.w, name))
    || (t.end - l.lastSweep >= SWEEP_INTERVAL && name in Handled(l, t).chans && Overdue(Handled(l, t).chans[name], t.end))
  }

  lemma TakeRemoves(l: Loop, t: Turn, name: string)
    requires Sound(l.bus) && name in l.bus.chans
    ensures Live(Take(l, t).bus, name, l.bus.chans[name].id) <==> !Removes(l, t, name)
  {
    if t.msg.Some? { HandleEvicts(l.bus, t.msg.value, t.w, t.at, name); }
  }

  /** Counters only grow, and an id already given out is never given out again. */
  lemma HandleNoResurrection(b: Bus, m: Msg, w: World, now: nat, name: string, id: nat)
    requires Sound(b) && id < b.nextChan && !Live(b, name, id)
    ensures b.nextChan <= Handle(b, m, w, now).0.nextChan && !Live(Handle(b, m, w, now).0, name, id)
  {
    hide OnPublish, OnExpose, OnSubscribe;
    match m
    case Publish(_, _, _, _, _, _) => PublishNoResurrection(b, m, w, name, id);
    case Expose(_, _, _, _, _, _, _) => ExposeNoResurrection(b, m, w, name, id);
    case Subscribe(_, _, _, _, _) => SubscribeNoResurrection(b, m, w, name, id);
    case _ =>
  }

  lemma PublishNoResurrection(b: Bus, m: Msg, w: World, name: string, id: nat)
    requires m.Publish? && id < b.nextChan && !Live(b, name, id)
    ensures b.nextChan <= OnPublish(b, m, w).0.nextChan && !Live(OnPublish(b, m, w).0, name, id)
  {}

  lemma ExposeNoResurrection(b: Bus, m: Msg, w: World, name: string, id: nat)
    requires m.Expose? && !Live(b, name, id)
    ensures b.nextChan == OnExpose(b, m, w).0.nextChan && !Live(OnExpose(b, m, w).0, name, id)
  {}

  lemma SubscribeNoResurrection(b: Bus, m: Msg, w: World, name: string, id: nat)
    requires m.Subscribe? && !Live(b, name, id)
    ensures b.nextChan == OnSubscribe(b, m, w).0.nextChan && !Live(OnSubscribe(b, m, w).0, name, id)
  {}

  lemma {:induction false} NoResurrection(l: Loop, turns: seq<Turn>, name: string, id: nat)
    requires Sound(l.bus) && id < l.bus.nextChan && !Live(l.bus, name, id)
    ensures !Live(Run(l, turns).bus, name, id)
    decreases |turns|
  {
    if turns != [] {
      var t := turns[0];
      TakeSound(l, t);
      if t.msg.Some? { HandleNoResurrection(l.bus, t.msg.value, t.w, t.at, name, id); }
      NoResurrection(Take(l, t), turns[1..], name, id);
    }
  }

  /** Turn `i` of a run found the channel alive and removed it. */
  ghost predicate RemovedAt(l: Loop, turns: seq<Turn>, i: nat, name: string, id: nat)
    requires i < |turns|
  {
    var before := Run(l, turns[..i]);
    Live(before.bus, name, id) && Removes(before, turns[i], name)
  }

  lemma RemovedLater(l: Loop, turns: seq<Turn>, i: nat, name: string, id: nat)
    requires 0 < i < |turns|
    ensures RemovedAt(l, turns, i, name, id) <==> RemovedAt(Take(l, turns[0]), turns[1..], i - 1, name, id)
  {
    assert turns[..i][1..] == turns[1..][..i - 1];
  }

  /** Over a whole run a channel is lost exactly when some turn of the run removed it,
      by its publisher's release, its owner's departure, a sweep past its grace, or a
      claim on a name that was released or whose owner is dead. Nothing else does. */
  lemma {:induction false} LostExactlyWhenRemoved(l: Loop, turns: seq<Turn>, name: string, id: nat)
    requires Sound(l.bus) && Live(l.bus, name, id)
    ensures !Live(Run(l, turns).bus, name, id) <==> exists i :: 0 <= i < |turns| && RemovedAt(l, turns, i, name, id)
    decreases |turns|
  {
    if turns != [] {
      var t, rest := turns[0], turns[1..];
      var l' := Take(l, t);
      TakeSound(l, t);
      TakeRemoves(l, t, name);
      assert turns[..0] == [];
      assert RemovedAt(l, turns, 0, name, id) <==> Removes(l, t, name);
      if Removes(l, t, name) {
        HandleCounters(l, t);
        NoResurrection(l', rest, name, id);
      } else {
        LostExactlyWhenRemoved(l', rest, name, id);
        forall i | 0 < i < |turns|
          ensures RemovedAt(l, turns, i, name, id) <==> RemovedAt(l', rest, i - 1, name, id)
        {
          RemovedLater(l, turns, i, name, id);
        }
        if exists j :: 0 <= j < |rest| && RemovedAt(l', rest, j, name, id) {
          var j :| 0 <= j < |rest| && RemovedAt(l', rest, j, name, id);
          assert RemovedAt(l, turns, j + 1, name, id);
        }
      }
    }
  }

  lemma HandleCounters(l: Loop, t: Turn)
    ensures l.bus.nextChan <= Take(l, t).bus.nextChan
  {
    hide Live;
    if t.msg.Some? { MessageCounters(l.bus, t.msg.value, t.w, t.at); }
  }

  lemma MessageCounters(b: Bus, m: Msg, w: World, now: nat)
    ensures b.nextChan <= Handle(b, m, w, now).0.nextChan
  {
    hide Known, ChannelArena, FunctionArena, KeyOk, FpOk;
  }

  // ---- the grace period -------------------------------------------------

  /** Every release still waiting was made less than a grace before the last sweep. */
  ghost predicate Swept(l: Loop) {
    forall n :: n in l.bus.chans && l.bus.chans[n].released.Some? ==>
      l.lastSweep < l.bus.chans[n].released.value + RELEASE_GRACE
  }

  /** A message leaves a release as it was, or (re)makes it now. */
  lemma HandleReleases(b: Bus, m: Msg, w: World, now: nat, name: string)
    requires name in Handle(b, m, w, now).0.chans && Handle(b, m, w, now).0.chans[name].released.Some?
    ensures var r := Handle(b, m, w, now).0.chans[name].released;
      r == Some(now) || (name in b.chans && b.chans[name].released == r)
  {
    hide ChannelArena, FunctionArena, OwnerDead, KeyOk, FpOk;
  }

  lemma TakeSwept(l: Loop, t: Turn)
    requires Swept(l) && l.lastSweep <= t.at <= t.end
    ensures Swept(Take(l, t))
  {
    var b := Handled(l, t);
    forall n | n in b.chans && b.chans[n].released.Some?
      ensures l.lastSweep < b.chans[n].released.value + RELEASE_GRACE
    {
      if t.msg.Some? { HandleReleases(l.bus, t.msg.value, t.w, t.at, n); }
    }
  }

  lemma {:induction false} RunSwept(l: Loop, turns: seq<Turn>)
    requires Swept(l) && Ordered(l.lastSweep, turns)
    ensures Swept(Run(l, turns))
    decreases |turns|
  {
    if turns != [] {
      TakeSwept(l, turns[0]);
      OrderedFromEarlier(Take(l, turns[0]).lastSweep, turns[0].end, turns[1..]);
      RunSwept(Take(l, turns[0]), turns[1..]);
    }
  }

  lemma OrderedFromEarlier(a: nat, b: nat, turns: seq<Turn>)
    requires a <= b && Ordered(b, turns)
    ensures Ordered(a, turns)
  {}

  /** The publisher lets go of a channel nobody has subscribed to, again. */
  predicate Renews(b: Bus, m: Msg, name: string)
    requires name in b.chans
  {
    m.Unpublish? && m.channel == name && m.client == b.chans[name].owner && !b.chans[name].subscribed
  }

  /** However the run went, a turn that ends a grace and a sweep interval after a
      release leaves nothing of the released channel, if and only if the turn did not
      renew the release less than a grace before its end. */
  lemma ReleasedChannelsAreReclaimed(l: Loop, turns: seq<Turn>, t: Turn, name: string, id: nat)
    requires Sound(l.bus) && Swept(l) && Ordered(l.lastSweep, turns)
    requires Live(Run(l, turns).bus, name, id) && Run(l, turns).bus.chans[name].released.Some?
    requires t.end >= Run(l, turns).bus.chans[name].released.value + RELEASE_GRACE + SWEEP_INTERVAL
    ensures Live(Take(Run(l, turns), t).bus, name, id) <==>
      t.msg.Some? && Renews(Run(l, turns).bus, t.msg.value, name) && t.end < t.at + RELEASE_GRACE
  {
    RunSwept(l, turns);
    RunSound(l, turns);
    var l1 := Run(l, turns);
    hide Run;
    if t.msg.Some? {
      var m := t.msg.value;
      if m.Unpublish? && m.channel == name {
        UnpublishReleases(l1.bus, m.client, t.at, name);
      } else if Live(Handled(l1, t), name, id) {
        ReleaseStands(l1.bus, m, t.w, t.at, name);
      }
    }
  }

  lemma UnpublishReleases(b: Bus, client: int, now: nat, name: string)
    requires name in b.chans
    ensures var (ch, b') := (b.chans[name], OnUnpublish(b, client, name, now));
      if client != ch.owner then b' == b
      else if ch.subscribed then name !in b'.chans
      else name in b'.chans && b'.chans[name] == ch.(released := Some(now))
  {}

  lemma ReleaseStands(b: Bus, m: Msg, w: World, now: nat, name: string)
    requires Sound(b) && name in b.chans && !(m.Unpublish? && m.channel == name)
    requires Live(Handle(b, m, w, now).0, name, b.chans[name].id)
    ensures Handle(b, m, w, now).0.chans[name].released == b.chans[name].released
  {
    match m
    case Publish(_, _, _, _, _, _) => PublishStands(b, m, w, name);
    case Expose(_, _, _, _, _, _, _) => ExposeStands(b, m, w, name);
    case _ =>
  }

  lemma PublishStands(b: Bus, m: Msg, w: World, name: string)
    requires Sound(b) && name in b.chans && m.Publish? && Live(OnPublish(b, m, w).0, name, b.chans[name].id)
    ensures OnPublish(b, m, w).0.chans[name] == b.chans[name]
  {}

  lemma ExposeStands(b: Bus, m: Msg, w: World, name: string)
    requires name in b.chans && m.Expose? && name in OnExpose(b, m, w).0.chans
    ensures OnExpose(b, m, w).0.chans[name] == b.chans[name]
  {}

  /** The channel can be subscribed to by anyone with its key and its schema. */
  ghost predicate Resolvable(b: Bus, id: nat, w: World) {
    && Known(b, id)
    && forall m: Msg :: m.Subscribe? && m.channelId == id
        && (b.chans[NameOf(b, id)].key == None || b.chans[NameOf(b, id)].key == Some(w.hash(m.accessKey)))
        && (m.expectedFp == 0 || m.expectedFp == b.chans[NameOf(b, id)].fp)
        ==> OnSubscribe(b, m, w).1 ==
            Some((m.client, SubscribeReply(m.corr, Ok, ChannelArena(id), b.chans[NameOf(b, id)].fp)))
  }

  /** No message of the run evicts the channel. */
  ghost predicate Unevicted(l: Loop, turns: seq<Turn>, name: string)
    decreases |turns|
  {
    turns != [] ==>
      && (name in l.bus.chans && turns[0].msg.Some? ==> !Evicts(l.bus, turns[0].msg.value, turns[0].w, name))
      && Unevicted(Take(l, turns[0]), turns[1..], name)
  }

  ghost predicate EndsBefore(turns: seq<Turn>, time: nat) {
    forall i :: 0 <= i < |turns| ==> turns[i].end < time
  }

  /** A released channel outlives its grace: until then only a message that evicts it
      takes it away, and a late subscriber still finds it. */
  lemma {:induction false} GraceHolds(l: Loop, turns: seq<Turn>, name: string, id: nat, since: nat, w: World)
    requires Sound(l.bus) && Live(l.bus, name, id)
    requires l.bus.chans[name].released.Some? ==> l.bus.chans[name].released.value >= since
    requires Ordered(since, turns) && EndsBefore(turns, since + RELEASE_GRACE)
    requires Unevicted(l, turns, name)
    ensures Live(Run(l, turns).bus, name, id) && Resolvable(Run(l, turns).bus, id, w)
    decreases |turns|
  {
    if turns == [] {
      assert NameOf(l.bus, id) == name;
    } else {
      var t := turns[0];
      TakeSound(l, t);
      TakeRemoves(l, t, name);
      if t.msg.Some? {
        HandleEvicts(l.bus, t.msg.value, t.w, t.at, name);
        if Handled(l, t).chans[name].released.Some? { HandleReleases(l.bus, t.msg.value, t.w, t.at, name); }
      }
      OrderedFromEarlier(since, t.end, turns[1..]);
      GraceHolds(Take(l, t), turns[1..], name, id, since, w);
    }
  }

  // ---- what replies promise --------------------------------------------

  /** The channel can be published: its schema parses, its arena can be made, and the name
      is free, released, or held by a client positively dead. */
  predicate Publishes(b: Bus, m: Msg, w: World)
    requires m.Publish?
  {
    && (m.channel in b.chans ==>
          b.chans[m.channel].released.Some? || OwnerDead(b, b.chans[m.channel].owner, w))
    && w.parse(m.schema).Some? && w.create(ChannelArena(b.nextChan))
  }

  /** Exactly then is the publish answered OK. */
  lemma PublishSucceeds(b: Bus, m: Msg, w: World)
    requires m.Publish?
    ensures OnPublish(b, m, w).1.value.1.status == Ok <==> Publishes(b, m, w)
    ensures OnPublish(b, m, w).1.value.1.status == Ok ==>
      Live(OnPublish(b, m, w).0, m.channel, b.nextChan) && OnPublish(b, m, w).0.chans[m.channel].owner == m.client
  {}

  /** An arena name in a reply is the arena of something alive once the message is
      done, and only an OK reply carries one. */
  ghost predicate NamesLiveArena(b: Bus, r: Reply) {
    match r
    case PublishReply(_, status, id, _, arena) =>
      if status == Ok then (exists n :: Live(b, n, id)) && arena == ChannelArena(id) else arena == ""
    case SubscribeReply(_, status, arena, _) =>
      if status == Ok then exists n :: n in b.chans && arena == ChannelArena(b.chans[n].id) else arena == ""
    case ExposeReply(_, status, id, _, _, arena) =>
      if status == Ok then (exists n :: LiveFn(b, n, id)) && arena == FunctionArena(id) else arena == ""
    case LookupReply(_, status, id, _, _, arena) =>
      if status == Ok then (exists n :: LiveFn(b, n, id)) && arena == FunctionArena(id) else arena == ""
    case _ => true
  }

  lemma RepliesNameLiveArenas(b: Bus, m: Msg, w: World, now: nat)
    ensures var (b', sent) := Handle(b, m, w, now); sent.Some? ==> NamesLiveArena(b', sent.value.1)
  {
    match m
    case Publish(_, _, channel, _, _, _) =>
      if OnPublish(b, m, w).1.value.1.status == Ok { assert Live(OnPublish(b, m, w).0, channel, b.nextChan); }
    case Expose(_, _, fnName, _, _, _, _) =>
      if OnExpose(b, m, w).1.value.1.status == Ok { assert LiveFn(OnExpose(b, m, w).0, fnName, b.nextFn); }
    case Subscribe(_, _, id, _, _) =>
      if Known(b, id) { assert NameOf(b, id) in OnSubscribe(b, m, w).0.chans; }
    case Lookup(_, _, fnName, _) =>
      if fnName in b.fns { assert LiveFn(b, fnName, b.fns[fnName].id); }
    case _ =>
  }

  /** Nobody learns the arena of a channel from the bus without being its publisher or
      presenting its key and its schema. */
  lemma ArenasAreKeyGated(b: Bus, m: Msg, w: World, now: nat, name: string)
    requires Sound(b) && name in b.chans
    requires Handle(b, m, w, now).1.Some?
    requires var r := Handle(b, m, w, now).1.value.1;
      (r.SubscribeReply? && r.arena == ChannelArena(b.chans[name].id)) ||
      (r.PublishReply? && r.arena == ChannelArena(b.chans[name].id))
    ensures m.Subscribe? && m.channelId == b.chans[name].id
      && (b.chans[name].key == None || b.chans[name].key == Some(w.hash(m.accessKey)))
      && (m.expectedFp == 0 || m.expectedFp == b.chans[name].fp)
  {
    var id := b.chans[name].id;
    ArenaNamesDiffer(id, b.nextChan);
    if m.Subscribe? && Known(b, m.channelId) {
      ArenaNamesDiffer(id, b.chans[NameOf(b, m.channelId)].id);
    }
  }

  // ---- whose the channels are -------------------------------------------

  /** Every channel and every function belongs to a registered client. */
  ghost predicate OwnersKnown(b: Bus) {
    && (forall n :: n in b.chans ==> b.chans[n].owner in b.clients)
    && (forall n :: n in b.fns ==> b.fns[n].owner in b.clients)
  }

  /** The function can be exposed: its schemas parse, its arena can be made, and the name is
      free, or held by a client positively dead. */
  predicate Exposes(b: Bus, m: Msg, w: World)
    requires m.Expose?
  {
    && (m.fnName in b.fns ==> OwnerDead(b, b.fns[m.fnName].owner, w))
    && w.parse(m.reqSchema).Some? && w.parse(m.respSchema).Some? && w.create(FunctionArena(b.nextFn))
  }

  /** The message leaves a channel or function with an owner nobody has registered: an
      OK publish or expose by a client that is unregistered, or was itself the dead owner
      released on the way. */
  predicate Orphans(b: Bus, m: Msg, w: World) {
    match m
    case Publish(_, client, channel, _, _, _) =>
      && Publishes(b, m, w)
      && (client !in b.clients
          || (channel in b.chans && b.chans[channel].released.None? && b.chans[channel].owner == client))
    case Expose(_, client, fnName, _, _, _, _) =>
      && Exposes(b, m, w)
      && (client !in b.clients || (fnName in b.fns && b.fns[fnName].owner == client))
    case _ => false
  }

  lemma PublishOwners(b: Bus, m: Msg, w: World)
    requires OwnersKnown(b) && m.Publish?
    ensures OwnersKnown(OnPublish(b, m, w).0) <==> !Orphans(b, m, w)
    ensures Orphans(b, m, w) ==>
      var b' := OnPublish(b, m, w).0;
      m.channel in b'.chans && b'.chans[m.channel].owner !in b'.clients && b'.chans[m.channel].released.None?
  {
    hide ChannelArena, OwnerDead;
    var b' := OnPublish(b, m, w).0;
    if Publishes(b, m, w) {
      var b1 := FreeChannel(b, m.channel, w).value;
      assert m.channel in b'.chans && b'.chans[m.channel].owner == m.client && b'.clients == b1.clients;
      assert OwnersKnown(b1);
      assert m.client in b1.clients <==> !Orphans(b, m, w);
      assert forall n :: n in b'.chans && n != m.channel ==> n in b1.chans && b'.chans[n] == b1.chans[n];
    }
  }

  lemma ExposeOwners(b: Bus, m: Msg, w: World)
    requires OwnersKnown(b) && m.Expose?
    ensures OwnersKnown(OnExpose(b, m, w).0) <==> !Orphans(b, m, w)
    ensures Orphans(b, m, w) ==>
      var b' := OnExpose(b, m, w).0;
      m.fnName in b'.fns && b'.fns[m.fnName].owner !in b'.clients
  {
    hide FunctionArena, OwnerDead;
    var b' := OnExpose(b, m, w).0;
    if Exposes(b, m, w) {
      var b1 := FreeFunction(b, m.fnName, w).value;
      assert m.fnName in b'.fns && b'.fns[m.fnName].owner == m.client && b'.clients == b1.clients;
      assert OwnersKnown(b1);
      assert m.client in b1.clients <==> !Orphans(b, m, w);
      assert forall n :: n in b'.fns && n != m.fnName ==> n in b1.fns && b'.fns[n] == b1.fns[n];
    }
  }

  /** A message keeps every owner registered exactly when it orphans nothing. */
  lemma HandleOwners(b: Bus, m: Msg, w: World, now: nat)
    requires Sound(b) && OwnersKnown(b)
    ensures OwnersKnown(Handle(b, m, w, now).0) <==> !Orphans(b, m, w)
  {
    hide OnPublish, OnExpose;
    match m
    case Publish(_, _, _, _, _, _) => PublishOwners(b, m, w);
    case Expose(_, _, _, _, _, _, _) => ExposeOwners(b, m, w);
    case _ =>
  }

  /** A sweep takes no owner away, and leaves what was just orphaned. */
  lemma ReapOwners(b: Bus, now: nat)
    ensures OwnersKnown(b) ==> OwnersKnown(Reap(b, now))
    ensures forall n :: n in b.chans && b.chans[n].owner !in b.clients && b.chans[n].released.None? ==>
      !OwnersKnown(Reap(b, now))
    ensures forall n :: n in b.fns && b.fns[n].owner !in b.clients ==> !OwnersKnown(Reap(b, now))
  {
    forall n | n in b.chans && b.chans[n].owner !in b.clients && b.chans[n].released.None?
      ensures !OwnersKnown(Reap(b, now))
    {
      assert n in Reap(b, now).chans;
    }
    forall n | n in b.fns && b.fns[n].owner !in b.clients ensures !OwnersKnown(Reap(b, now)) {
      assert n in Reap(b, now).fns;
    }
  }

  lemma TakeOwners(l: Loop, t: Turn)
    requires Sound(l.bus) && OwnersKnown(l.bus)
    ensures OwnersKnown(Take(l, t).bus) <==> !(t.msg.Some? && Orphans(l.bus, t.msg.value, t.w))
  {
    hide OnPublish, OnExpose, OnSubscribe, OnUnpublish, OnRegister, Depart, Orphans, OwnersKnown, Reap;
    ReapOwners(Handled(l, t), t.end);
    if t.msg.Some? {
      var m := t.msg.value;
      HandleOwners(l.bus, m, t.w, t.at);
      if Orphans(l.bus, m, t.w) {
        OnlyTheseOrphan(l.bus, m, t.w);
        if m.Publish? {
          PublishOwners(l.bus, m, t.w);
          assert m.channel in Handled(l, t).chans;
        } else {
          ExposeOwners(l.bus, m, t.w);
          assert m.fnName in Handled(l, t).fns;
        }
      }
    }
  }

  lemma OnlyTheseOrphan(b: Bus, m: Msg, w: World)
    requires Orphans(b, m, w)
    ensures m.Publish? || m.Expose?
  {}

  /** Turn `i` of a run orphans something. */
  ghost predicate OrphansAt(l: Loop, turns: seq<Turn>, i: nat)
    requires i < |turns|
  {
    turns[i].msg.Some? && Orphans(Run(l, turns[..i]).bus, turns[i].msg.value, turns[i].w)
  }

  lemma {:induction false} RunOneMore(l: Loop, turns: seq<Turn>, i: nat)
    requires i < |turns|
    ensures Run(l, turns[..i + 1]) == Take(Run(l, turns[..i]), turns[i])
    decreases i
  {
    hide Take;
    if i == 0 {
      assert turns[..1][1..] == [] && turns[..0] == [];
    } else {
      RunOneMore(Take(l, turns[0]), turns[1..], i - 1);
      assert turns[..i + 1][1..] == turns[1..][..i] && turns[..i][1..] == turns[1..][..i - 1];
    }
  }

  lemma {:induction false} OwnersUpTo(l: Loop, turns: seq<Turn>, i: nat)
    requires Sound(l.bus) && OwnersKnown(l.bus) && i <= |turns|
    requires forall j :: 0 <= j < i ==> !OrphansAt(l, turns, j)
    ensures OwnersKnown(Run(l, turns[..i]).bus)
    decreases i
  {
    hide Take, OwnersKnown, Orphans, Sound;
    if i == 0 {
      assert turns[..0] == [];
    } else {
      OwnersUpTo(l, turns, i - 1);
      RunSound(l, turns[..i - 1]);
      assert !OrphansAt(l, turns, i - 1);
      RunOneMore(l, turns, i - 1);
      hide Run;
      TakeOwners(Run(l, turns[..i - 1]), turns[i - 1]);
    }
  }

  /** Over a whole run every owner is registered at every moment if and only if no turn
      orphans anything. */
  lemma OwnersKnownExactlyUnlessOrphaned(l: Loop, turns: seq<Turn>)
    requires Sound(l.bus) && OwnersKnown(l.bus)
    ensures (forall i :: 0 <= i <= |turns| ==> OwnersKnown(Run(l, turns[..i]).bus)) <==>
            (forall i :: 0 <= i < |turns| ==> !OrphansAt(l, turns, i))
  {
    hide Take, OwnersKnown, Orphans, Sound;
    if forall i :: 0 <= i < |turns| ==> !OrphansAt(l, turns, i) {
      forall i | 0 <= i <= |turns| ensures OwnersKnown(Run(l, turns[..i]).bus) { OwnersUpTo(l, turns, i); }
    }
    if forall i :: 0 <= i <= |turns| ==> OwnersKnown(Run(l, turns[..i]).bus) {
      forall i | 0 <= i < |turns| ensures !OrphansAt(l, turns, i) {
        assert OwnersKnown(Run(l, turns[..i]).bus) && OwnersKnown(Run(l, turns[..i + 1]).bus);
        RunSound(l, turns[..i]);
        RunOneMore(l, turns, i);
        hide Run;
        TakeOwners(Run(l, turns[..i]), turns[i]);
      }
    }
  }

  /** An owner nobody has registered: client 7 publishes on an empty bus, with any schema
      that parses. */
  lemma OwnerMayBeGone(schema: string, w: World, now: nat)
    requires w.parse(schema).Some? && w.create(ChannelArena(1))
    ensures Sound(EMPTY) && OwnersKnown(EMPTY)
    ensures var b := Handle(EMPTY, Publish(0, 7, "events", schema, "", 0), w, now).0;
      "events" in b.chans && b.chans["events"].owner == 7 && 7 !in b.clients && !OwnersKnown(b)
  {
    HandleOwners(EMPTY, Publish(0, 7, "events", schema, "", 0), w, now);
  }
}
