/** The control records: their schemas, current and superseded, the catalog that routes
    a frame by its fingerprint, and reading a record strictly or compatibly. */
module Proto {
  import opened Records
  import opened Avro
  import opened Codecs
  import opened ChannelLists
  import Frames

  datatype Kind =
    | Register | RegisterReply | Unregister | PublishChannel | PublishReply | Unpublish | ListChannels | ChannelList
    | Subscribe | SubscribeReply | ExposeFunction | ExposeReply | LookupFunction | LookupReply | Heartbeat
    | RpcRequest | RpcResponse

  datatype FieldName =
    | CorrelationId | AppName | Nonce | ReplySegment | HeartbeatMs | Pid | ClientId | Status | Message | Channel
    | SchemaJson | AccessKey | ArenaCap | ChannelId | SchemaFp | ArenaName | Channels | ExpectedFp | FnName | ReqSchemaJson
    | RespSchemaJson | ReqArenaCap | FnId | ReqFp | RespFp | ReqArena | Seq | CallerId | ArgFp | Args | ResultFp
    | ResultBytes

  datatype FieldType = Long | Int | Str | Bytes | ChannelArray

  datatype Field = Field(name: FieldName, ty: FieldType)

  /** A record schema; its name is the message's. */
  datatype Schema = Schema(name: Kind, fields: seq<Field>)

  const CORR := Field(CorrelationId, Long)
  const CLIENT := Field(ClientId, Long)
  const STATUS := Field(Status, Int)
  const MESSAGE := Field(Message, Str)

  /** The current schema of each message. */
  function FieldsOf(k: Kind): seq<Field> {
    match k
    case Register =>
      [CORR, Field(AppName, Str), Field(Nonce, Long), Field(ReplySegment, Str), Field(HeartbeatMs, Long), Field(Pid, Long)]
    case RegisterReply => [CORR, CLIENT, STATUS, MESSAGE]
    case Unregister => [CORR, CLIENT]
    case PublishChannel =>
      [CORR, CLIENT, Field(Channel, Str), Field(SchemaJson, Str), Field(AccessKey, Str), Field(ArenaCap, Long)]
    case PublishReply =>
      [CORR, Field(ChannelId, Long), Field(SchemaFp, Long), Field(ArenaName, Str), STATUS, MESSAGE]
    case Unpublish => [CORR, CLIENT, Field(Channel, Str)]
    case ListChannels => [CORR, CLIENT]
    case ChannelList => [CORR, Field(Channels, ChannelArray)]
    case Subscribe => [CORR, CLIENT, Field(ChannelId, Long), Field(AccessKey, Str), Field(ExpectedFp, Long)]
    case SubscribeReply => [CORR, Field(ArenaName, Str), Field(SchemaFp, Long), STATUS, MESSAGE]
    case ExposeFunction =>
      [CORR, CLIENT, Field(FnName, Str), Field(ReqSchemaJson, Str), Field(RespSchemaJson, Str), Field(AccessKey, Str),
       Field(ReqArenaCap, Long)]
    case ExposeReply =>
      [CORR, Field(FnId, Long), Field(ReqFp, Long), Field(RespFp, Long), Field(ReqArena, Str), STATUS, MESSAGE]
    case LookupFunction => [CORR, CLIENT, Field(FnName, Str), Field(AccessKey, Str)]
    case LookupReply =>
      [CORR, Field(FnId, Long), Field(ReqFp, Long), Field(RespFp, Long), Field(ReqArena, Str), STATUS, MESSAGE]
    case Heartbeat => [CORR, CLIENT, Field(Seq, Long)]
    case RpcRequest =>
      [CORR, Field(CallerId, Long), Field(ReplySegment, Str), Field(ArgFp, Long), Field(Args, Bytes)]
    case RpcResponse => [CORR, STATUS, MESSAGE, Field(ResultFp, Long), Field(ResultBytes, Bytes)]
  }

  function SchemaFor(k: Kind): Schema { Schema(k, FieldsOf(k)) }

  /** Superseded versions still accepted: each before its last field was added. */
  const LEGACY: seq<(Kind, Schema)> :=
    [(Register, Schema(Register,
        [CORR, Field(AppName, Str), Field(Nonce, Long), Field(ReplySegment, Str), Field(HeartbeatMs, Long)])),
     (PublishChannel, Schema(PublishChannel,
        [CORR, CLIENT, Field(Channel, Str), Field(SchemaJson, Str), Field(AccessKey, Str)])),
     (ExposeFunction, Schema(ExposeFunction,
        [CORR, CLIENT, Field(FnName, Str), Field(ReqSchemaJson, Str), Field(RespSchemaJson, Str), Field(AccessKey, Str)]))]

  const ALL_KINDS: seq<Kind> :=
    [Register, RegisterReply, Unregister, PublishChannel, PublishReply, Unpublish, ListChannels, ChannelList,
     Subscribe, SubscribeReply, ExposeFunction, ExposeReply, LookupFunction, LookupReply, Heartbeat,
     RpcRequest, RpcResponse]

  /** The fields with `#[serde(default)]`. */
  predicate HasDefault(f: FieldName) { f == Pid || f == ArenaCap || f == ReqArenaCap }

  /** `s` is a version of message `k` that is accepted on the wire. */
  ghost predicate Version(k: Kind, s: Schema) {
    s == SchemaFor(k) || (k, s) in LEGACY
  }

  // ---- values -----------------------------------------------------------

  datatype Value = Number(i: int) | Text(s: bytes) | Infos(xs: seq<Info>)

  ghost predicate HasType(v: Value, ty: FieldType) {
    match ty
    case Long => v.Number? && IsI64(v.i)
    case Int => v.Number? && -0x8000_0000 <= v.i < 0x8000_0000
    case Str => v.Text? && |v.s| < INT_LIMIT
    case Bytes => v.Text? && |v.s| < INT_LIMIT
    case ChannelArray => v.Infos? && |v.xs| < INT_LIMIT && forall x :: x in v.xs ==> Fits(x)
  }

  ghost predicate Typed(vs: seq<Value>, fs: seq<Field>) {
    |vs| == |fs| && forall i :: 0 <= i < |vs| ==> HasType(vs[i], fs[i].ty)
  }

  /** A whole array goes out as one block, and the zero that ends it. */
  function EncValue(v: Value): bytes {
    match v
    case Number(i) => EncLong(i)
    case Text(s) => EncString(s)
    case Infos(xs) => if xs == [] then EncLong(0) else EncLong(|xs|) + (EncItems(xs) + EncLong(0))
  }

  function EncRecord(vs: seq<Value>): bytes {
    if vs == [] then [] else EncValue(vs[0]) + EncRecord(vs[1..])
  }

  // ---- reading ----------------------------------------------------------

  function ReadLong(data: bytes, pos: nat): (r: Option<(int, nat)>)
    ensures r.Some? ==> pos < r.value.1 <= |data| && IsI64(r.value.0)
  {
    if pos > |data| || !Ended(data, pos) || Digits(data, pos) > 10 then None
    else
      var n := Avro.Value(data, pos, Digits(data, pos)) % W64;
      Some((UnZigZag(n), pos + Digits(data, pos)))
  }

  function ReadText(data: bytes, pos: nat): (r: Option<(bytes, nat)>)
    ensures r.Some? ==> pos < r.value.1 <= |data|
  {
    match ReadLong(data, pos)
    case None => None
    case Some((n, p)) => if n < 0 || p + n > |data| then None else Some((data[p..p + n], p + n))
  }

  function ReadBool(data: bytes, pos: nat): (r: Option<(bool, nat)>)
    ensures r.Some? ==> pos < r.value.1 <= |data|
  {
    if pos >= |data| || data[pos] > 1 then None else Some((data[pos] == 1, pos + 1))
  }

  function ReadInfo(data: bytes, pos: nat): (r: Option<(Info, nat)>)
    ensures r.Some? ==> pos < r.value.1 <= |data|
  {
    match ReadLong(data, pos)
    case None => None
    case Some((id, p1)) =>
      match ReadText(data, p1)
      case None => None
      case Some((name, p2)) =>
        match ReadText(data, p2)
        case None => None
        case Some((owner, p3)) =>
          match ReadLong(data, p3)
          case None => None
          case Some((fp, p4)) =>
            match ReadBool(data, p4)
            case None => None
            case Some((key, p5)) => Some((Info(id, name, owner, ToU64(fp), key), p5))
  }

  function ReadItems(data: bytes, pos: nat, count: nat): (r: Option<(seq<Info>, nat)>)
    ensures r.Some? ==> pos <= r.value.1 && (pos <= |data| ==> r.value.1 <= |data|)
    decreases count
  {
    if count == 0 then Some(([], pos))
    else
      match ReadInfo(data, pos)
      case None => None
      case Some((x, p)) =>
        match ReadItems(data, p, count - 1)
        case None => None
        case Some((xs, q)) => Some(([x] + xs, q))
  }

  function ReadArray(data: bytes, pos: nat): (r: Option<(seq<Info>, nat)>)
    ensures r.Some? ==> pos < r.value.1 <= |data|
    decreases |data| - pos
  {
    match ReadLong(data, pos)
    case None => None
    case Some((n, p)) =>
      if n == 0 then Some(([], p))
      else
        var sized := if n < 0 then ReadLong(data, p) else None;
        if n < 0 && sized.None? then None
        else
          var q := if n < 0 then sized.value.1 else p;
          match ReadItems(data, q, if n < 0 then -n else n)
          case None => None
          case Some((xs, e)) =>
            match ReadArray(data, e)
            case None => None
            case Some((more, z)) => Some((xs + more, z))
  }

  function ReadValue(ty: FieldType, data: bytes, pos: nat): (r: Option<(Value, nat)>) {
    match ty
    case ChannelArray =>
      (match ReadArray(data, pos) case None => None case Some((xs, p)) => Some((Infos(xs), p)))
    case Str => (match ReadText(data, pos) case None => None case Some((s, p)) => Some((Text(s), p)))
    case Bytes => (match ReadText(data, pos) case None => None case Some((s, p)) => Some((Text(s), p)))
    case Long => (match ReadLong(data, pos) case None => None case Some((i, p)) => Some((Number(i), p)))
    case Int =>
      (match ReadLong(data, pos)
       case None => None
       case Some((i, p)) => if -0x8000_0000 <= i < 0x8000_0000 then Some((Number(i), p)) else None)
  }

  /** A datum is read field by field; what follows it is not looked at. */
  function ReadRecord(fs: seq<Field>, data: bytes, pos: nat): Option<seq<Value>> {
    if fs == [] then Some([])
    else
      match ReadValue(fs[0].ty, data, pos)
      case None => None
      case Some((v, p)) =>
        match ReadRecord(fs[1..], data, p)
        case None => None
        case Some(vs) => Some([v] + vs)
  }

  /** A field of the struct, by name, from the record that was read. */
  function Named(fs: seq<Field>, vs: seq<Value>, name: FieldName): Option<Value>
    requires |vs| == |fs|
  {
    if fs == [] then None else if fs[0].name == name then Some(vs[0]) else Named(fs[1..], vs[1..], name)
  }

  /** Fill the struct's fields by name; one that is missing takes its default, if it has one. */
  function Fill(into: seq<Field>, fs: seq<Field>, vs: seq<Value>): Option<seq<Value>>
    requires |vs| == |fs|
  {
    if into == [] then Some([])
    else
      var v := match Named(fs, vs, into[0].name)
        case Some(v) => Some(v)
        case None => if HasDefault(into[0].name) then Some(Number(0)) else None;
      match v
      case None => None
      case Some(v) =>
        match Fill(into[1..], fs, vs)
        case None => None
        case Some(rest) => Some([v] + rest)
  }

  // ---- the catalog ------------------------------------------------------

  datatype Catalog = Catalog(
    schemas: map<Kind, Schema>, fps: map<Kind, nat>, byFp: map<nat, Kind>, writers: map<nat, Schema>)

  /** Fingerprints are 64-bit words and tell the known schemas apart. */
  ghost predicate TellsApart(fp: Schema -> nat) {
    && (forall k, s :: Version(k, s) ==> fp(s) < W64)
    && (forall j, k, s, t :: Version(j, s) && Version(k, t) && fp(s) == fp(t) ==> s == t)
  }

  /** `to_frame`. */
  function ToFrame(c: Catalog, k: Kind, vs: seq<Value>): Frames.Frame
    requires k in c.fps
  {
    Frames.Frame(0, c.fps[k], EncRecord(vs))
  }

  /** `from_frame`: by the current schema, whatever the frame's fingerprint. */
  function FromFrame(c: Catalog, k: Kind, f: Frames.Frame): Option<seq<Value>>
    requires k in c.schemas
  {
    ReadRecord(c.schemas[k].fields, f.body, 0)
  }

  /** `from_frame_compat`, into the struct of `k`. */
  function FromFrameCompat(c: Catalog, k: Kind, f: Frames.Frame): Option<seq<Value>> {
    if f.fp !in c.writers then None
    else
      var w := c.writers[f.fp].fields;
      match ReadRecord(w, f.body, 0)
      case None => None
      case Some(vs) => if |vs| == |w| then Fill(FieldsOf(k), w, vs) else None
  }

  /** The replies a dispatcher can route. */
  predicate Routable(k: Kind) {
    k.RegisterReply? || k.PublishReply? || k.ChannelList? || k.SubscribeReply? || k.ExposeReply? || k.LookupReply?
    || k.RpcResponse?
  }

  /** `correlation_id`. */
  function CorrelationOf(c: Catalog, f: Frames.Frame): Option<int> {
    if f.fp !in c.byFp || !Routable(c.byFp[f.fp]) || c.byFp[f.fp] !in c.schemas then None
    else
      match FromFrame(c, c.byFp[f.fp], f)
      case None => None
      case Some(vs) => if vs != [] && vs[0].Number? then Some(vs[0].i) else None
  }
}
