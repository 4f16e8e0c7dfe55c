/** What the bus is, said without id tables, indexes or release bookkeeping: a map
    from channel names and one from function names, and what each control message
    does to them. The broker's own tables are shown elsewhere to refine this. */
module Bus {
  import opened Records
  import opened Names

  const RELEASE_GRACE: nat := 30_000    // milliseconds
  const SWEEP_INTERVAL: nat := 1_000

  datatype Status = Ok | NotFound | Denied | SchemaMismatch | Internal | Exists

  datatype Client = Client(app: string, pid: int)

  /** `released` is when its publisher let go of it, if it has. */
  datatype Chan = Chan(id: nat, owner: int, fp: nat, key: Option<int>, subscribed: bool, released: Option<nat>)

  datatype Func = Func(id: nat, owner: int, reqFp: nat, respFp: nat, key: Option<int>)

  datatype Bus = Bus(
    clients: map<int, Client>, chans: map<string, Chan>, fns: map<string, Func>,
    nextClient: nat, nextChan: nat, nextFn: nat)

  const EMPTY := Bus(map[], map[], map[], 1, 1, 1)

  datatype Msg =
    | Register(corr: int, app: string, segment: string, pid: int)
    | Unregister(client: int)
    | Publish(corr: int, client: int, channel: string, schema: string, accessKey: string, cap: int)
    | Unpublish(client: int, channel: string)
    | ListChannels(corr: int, client: int)
    | Subscribe(corr: int, client: int, channelId: int, accessKey: string, expectedFp: nat)
    | Expose(corr: int, client: int, fnName: string, reqSchema: string, respSchema: string, accessKey: string, cap: int)
    | Lookup(corr: int, client: int, fnName: string, accessKey: string)
    | Heartbeat
    | Unusable      // undecodable, or not a control request

  datatype ChannelInfo = ChannelInfo(id: nat, name: string, ownerApp: string, fp: nat, requiresKey: bool)

  datatype Reply =
    | RegisterReply(corr: int, client: int)
    | PublishReply(corr: int, status: Status, id: nat, fp: nat, arena: string)
    | ChannelList(corr: int, infos: set<ChannelInfo>)
    | SubscribeReply(corr: int, status: Status, arena: string, fp: nat)
    | ExposeReply(corr: int, status: Status, id: nat, reqFp: nat, respFp: nat, arena: string)
    | LookupReply(corr: int, status: Status, id: nat, reqFp: nat, respFp: nat, arena: string)

  /** What the broker asks of the world while it handles one message: whether a
      process lives, what a schema's fingerprint is (if it parses), a key's hash,
      whether a reply segment attaches, whether an arena can be created, and whether
      a client's reply ring takes a reply. */
  datatype World = World(
    pidAlive: int -> bool, parse: string -> Option<nat>, hash: string -> int,
    attach: string -> bool, create: string -> bool, takes: int -> bool)

  /** A reply and whom it is for. */
  type Sent = Option<(int, Reply)>

  // ---- policy -----------------------------------------------------------

  /** `m.pid as i32`. */
  function ToI32(n: int): int { (n + 0x8000_0000) % 0x1_0000_0000 - 0x8000_0000 }

  /** Positively dead: an unknown pid, and a client no longer registered, count as alive. */
  predicate OwnerDead(b: Bus, owner: int, w: World) {
    var pid := if owner in b.clients then b.clients[owner].pid else 0;
    pid != 0 && !w.pidAlive(pid)
  }

  predicate KeyOk(policy: Option<int>, presented: string, w: World) {
    policy == None || policy == Some(w.hash(presented))
  }

  predicate FpOk(expected: nat, actual: nat) {
    expected == 0 || expected == actual
  }

  function KeyOf(accessKey: string, w: World): Option<int> {
    if accessKey == "" then None else Some(w.hash(accessKey))
  }

  // ---- operations -------------------------------------------------------

  /** A departing client takes everything it owns with it. */
  function Depart(b: Bus, client: int): Bus {
    b.(clients := b.clients - {client},
       chans := map n | n in b.chans && b.chans[n].owner != client :: b.chans[n],
       fns := map n | n in b.fns && b.fns[n].owner != client :: b.fns[n])
  }

  /** Make a channel name free for a publish, or refuse. */
  function FreeChannel(b: Bus, name: string, w: World): Option<Bus> {
    if name !in b.chans then Some(b)
    else if b.chans[name].released.Some? then Some(b.(chans := b.chans - {name}))
    else if OwnerDead(b, b.chans[name].owner, w) then Some(Depart(b, b.chans[name].owner))
    else None
  }

  function FreeFunction(b: Bus, name: string, w: World): Option<Bus> {
    if name !in b.fns then Some(b)
    else if OwnerDead(b, b.fns[name].owner, w) then Some(Depart(b, b.fns[name].owner))
    else None
  }

  function OnPublish(b: Bus, m: Msg, w: World): (Bus, Sent)
    requires m.Publish?
  {
    match FreeChannel(b, m.channel, w)
    case None => (b, Some((m.client, PublishReply(m.corr, Exists, 0, 0, ""))))
    case Some(b1) => PublishFree(b1, m, w)
  }

  /** Publish under a name that is free. */
  function PublishFree(b: Bus, m: Msg, w: World): (Bus, Sent)
    requires m.Publish?
  {
    match w.parse(m.schema)
    case None => (b, Some((m.client, PublishReply(m.corr, Internal, 0, 0, ""))))
    case Some(fp) =>
      var id := b.nextChan;
      var b' := b.(nextChan := id + 1);
      if !w.create(ChannelArena(id)) then
        (b', Some((m.client, PublishReply(m.corr, Internal, 0, 0, ""))))
      else
        (b'.(chans := b.chans[m.channel := Chan(id, m.client, fp, KeyOf(m.accessKey, w), false, None)]),
         Some((m.client, PublishReply(m.corr, Ok, id, fp, ChannelArena(id)))))
  }

  function OnExpose(b: Bus, m: Msg, w: World): (Bus, Sent)
    requires m.Expose?
  {
    match FreeFunction(b, m.fnName, w)
    case None => (b, Some((m.client, ExposeReply(m.corr, Exists, 0, 0, 0, ""))))
    case Some(b1) => ExposeFree(b1, m, w)
  }

  function ExposeFree(b: Bus, m: Msg, w: World): (Bus, Sent)
    requires m.Expose?
  {
    var req, resp := w.parse(m.reqSchema), w.parse(m.respSchema);
    if req.None? || resp.None? then (b, Some((m.client, ExposeReply(m.corr, Internal, 0, 0, 0, ""))))
    else
      var id := b.nextFn;
      var b' := b.(nextFn := id + 1);
      if !w.create(FunctionArena(id)) then
        (b', Some((m.client, ExposeReply(m.corr, Internal, 0, 0, 0, ""))))
      else
        (b'.(fns := b.fns[m.fnName := Func(id, m.client, req.value, resp.value, KeyOf(m.accessKey, w))]),
         Some((m.client, ExposeReply(m.corr, Ok, id, req.value, resp.value, FunctionArena(id)))))
  }

  /** A publisher is done with its channel. */
  function OnUnpublish(b: Bus, client: int, channel: string, now: nat): Bus {
    if channel !in b.chans || b.chans[channel].owner != client then b
    else if b.chans[channel].subscribed then b.(chans := b.chans - {channel})
    else b.(chans := b.chans[channel := b.chans[channel].(released := Some(now))])
  }

  ghost predicate Known(b: Bus, id: int) {
    exists n :: n in b.chans && b.chans[n].id == id
  }

  /** The name of the channel an id denotes. */
  ghost function NameOf(b: Bus, id: int): (n: string)
    requires Known(b, id)
    ensures n in b.chans && b.chans[n].id == id
  {
    var n :| n in b.chans && b.chans[n].id == id; n
  }

  ghost function OnSubscribe(b: Bus, m: Msg, w: World): (Bus, Sent)
    requires m.Subscribe?
  {
    if !Known(b, m.channelId) then (b, Some((m.client, SubscribeReply(m.corr, NotFound, "", 0))))
    else
      var n := NameOf(b, m.channelId);
      var ch := b.chans[n];
      if !KeyOk(ch.key, m.accessKey, w) then (b, Some((m.client, SubscribeReply(m.corr, Denied, "", 0))))
      else if !FpOk(m.expectedFp, ch.fp) then (b, Some((m.client, SubscribeReply(m.corr, SchemaMismatch, "", 0))))
      else (b.(chans := b.chans[n := ch.(subscribed := true)]),
            Some((m.client, SubscribeReply(m.corr, Ok, ChannelArena(ch.id), ch.fp))))
  }

  function OnLookup(b: Bus, m: Msg, w: World): Sent
    requires m.Lookup?
  {
    if m.fnName !in b.fns then Some((m.client, LookupReply(m.corr, NotFound, 0, 0, 0, "")))
    else
      var f := b.fns[m.fnName];
      if !KeyOk(f.key, m.accessKey, w) then Some((m.client, LookupReply(m.corr, Denied, 0, 0, 0, "")))
      else Some((m.client, LookupReply(m.corr, Ok, f.id, f.reqFp, f.respFp, FunctionArena(f.id))))
  }

  function InfoOf(b: Bus, name: string): ChannelInfo
    requires name in b.chans
  {
    var ch := b.chans[name];
    ChannelInfo(ch.id, name, if ch.owner in b.clients then b.clients[ch.owner].app else "", ch.fp, ch.key.Some?)
  }

  function OnRegister(b: Bus, m: Msg, w: World): (Bus, Sent)
    requires m.Register?
  {
    if !w.attach(m.segment) then (b, None)
    else
      (b.(clients := b.clients[b.nextClient := Client(m.app, ToI32(m.pid))], nextClient := b.nextClient + 1),
       Some((b.nextClient, RegisterReply(m.corr, b.nextClient))))
  }

  /** One control message: its effect, and the reply it calls for. */
  ghost function Handle(b: Bus, m: Msg, w: World, now: nat): (Bus, Sent) {
    match m
    case Register(_, _, _, _) => OnRegister(b, m, w)
    case Unregister(client) => (Depart(b, client), None)
    case Publish(_, _, _, _, _, _) => OnPublish(b, m, w)
    case Unpublish(client, channel) => (OnUnpublish(b, client, channel, now), None)
    case ListChannels(corr, client) => (b, Some((client, ChannelList(corr, set n | n in b.chans :: InfoOf(b, n)))))
    case Subscribe(_, _, _, _, _) => OnSubscribe(b, m, w)
    case Expose(_, _, _, _, _, _, _) => OnExpose(b, m, w)
    case Lookup(_, _, _, _) => (b, OnLookup(b, m, w))
    case Heartbeat => (b, None)
    case Unusable => (b, None)
  }

  /** A reply reaches a client that has a reply ring, and room on it. */
  ghost function Delivered(b: Bus, sent: Sent, w: World): Sent {
    if sent.Some? && sent.value.0 in b.clients && w.takes(sent.value.0) then sent else None
  }

  /** A delivered reply, as the sequence of what was placed. */
  ghost function Placed(s: Sent): seq<(int, Reply)> {
    if s.Some? then [s.value] else []
  }

  /** The arenas of everything on the bus. */
  ghost function LiveArenas(b: Bus): set<string> {
    (set n | n in b.chans :: ChannelArena(b.chans[n].id)) + (set n | n in b.fns :: FunctionArena(b.fns[n].id))
  }

  /** The arena made for a request: only a publish or an expose answered OK gets one. */
  function Made(s: Sent): seq<string> {
    match s
    case Some((_, PublishReply(_, Ok, _, _, arena))) => [arena]
    case Some((_, ExposeReply(_, Ok, _, _, _, arena))) => [arena]
    case _ => []
  }

  // ---- the control loop -------------------------------------------------

  predicate Overdue(ch: Chan, now: nat) {
    ch.released.Some? && now - ch.released.value >= RELEASE_GRACE
  }

  function Reap(b: Bus, now: nat): Bus {
    b.(chans := map n | n in b.chans && !Overdue(b.chans[n], now) :: b.chans[n])
  }

  /** One turn of the loop: a message if there was one, handled at `at`, and a sweep
      at `end` if the last one is long enough ago. */
  datatype Turn = Turn(msg: Option<Msg>, w: World, at: nat, end: nat)

  datatype Loop = Loop(bus: Bus, lastSweep: nat)

  ghost function Handled(l: Loop, t: Turn): Bus {
    if t.msg.Some? then Handle(l.bus, t.msg.value, t.w, t.at).0 else l.bus
  }

  ghost function Take(l: Loop, t: Turn): Loop {
    var b := Handled(l, t);
    if t.end - l.lastSweep >= SWEEP_INTERVAL then Loop(Reap(b, t.end), t.end) else Loop(b, l.lastSweep)
  }

  ghost function Run(l: Loop, turns: seq<Turn>): Loop
    decreases |turns|
  {
    if turns == [] then l else Run(Take(l, turns[0]), turns[1..])
  }

  /** The reply a turn places, if any: the one its message calls for, if that can be
      delivered on the bus as the message leaves it. */
  ghost function Replies(l: Loop, t: Turn): seq<(int, Reply)> {
    if t.msg.None? then []
    else
      var (b, sent) := Handle(l.bus, t.msg.value, t.w, t.at);
      Placed(Delivered(b, sent, t.w))
  }

  /** Everything a run places, in order. */
  ghost function RunReplies(l: Loop, turns: seq<Turn>): seq<(int, Reply)>
    decreases |turns|
  {
    if turns == [] then [] else Replies(l, turns[0]) + RunReplies(Take(l, turns[0]), turns[1..])
  }

  /** The arenas a turn makes, and all that a run makes, in order. */
  ghost function TurnMakes(l: Loop, t: Turn): seq<string> {
    if t.msg.None? then [] else Made(Handle(l.bus, t.msg.value, t.w, t.at).1)
  }

  ghost function RunMakes(l: Loop, turns: seq<Turn>): seq<string>
    decreases |turns|
  {
    if turns == [] then [] else TurnMakes(l, turns[0]) + RunMakes(Take(l, turns[0]), turns[1..])
  }

  /** The clock does not run backwards. */
  predicate Ordered(from: nat, turns: seq<Turn>)
    decreases |turns|
  {
    turns == [] || (from <= turns[0].at <= turns[0].end && Ordered(turns[0].end, turns[1..]))
  }
}
