/** Every accepted version of every control record is routed and read as it should be. */
module ProtoTheorems {
  import opened Records
  import opened Avro
  import opened Codecs
  import opened ChannelLists
  import opened Proto
  import Frames

  // ---- a record is read back --------------------------------------------

  lemma LongAt(data: bytes, pos: nat, v: int)
    requires IsI64(v) && At(data, pos, EncLong(v))
    ensures ReadLong(data, pos) == Some((v, pos + |EncLong(v)|))
  {
    LongReads(data, pos);
  }

  lemma TextAt(data: bytes, pos: nat, s: bytes)
    requires |s| < INT_LIMIT && At(data, pos, EncString(s))
    ensures ReadText(data, pos) == Some((s, pos + |EncString(s)|))
  {
    hide EncLong, ReadLong;
    StringParts(data, pos, s);
    LongAt(data, pos, |s|);
  }

  lemma BoolAt(data: bytes, pos: nat, b: bool)
    requires At(data, pos, EncBool(b))
    ensures ReadBool(data, pos) == Some((b, pos + 1))
  {
    assert data[pos..pos + 1] == [data[pos]];
  }

  lemma InfoAt(data: bytes, pos: nat, x: Info)
    requires Fits(x) && At(data, pos, EncInfo(x))
    ensures ReadInfo(data, pos) == Some((x, pos + |EncInfo(x)|))
  {
    hide At, EncLong, EncString, EncBool, EncInfo, ReadLong, ReadText, ReadBool;
    InfoParts(data, pos, x);
    var p1 := pos + |EncLong(x.id)|;
    var p2 := p1 + |EncString(x.name)|;
    var p3 := p2 + |EncString(x.owner)|;
    LongAt(data, pos, x.id);
    TextAt(data, p1, x.name);
    TextAt(data, p2, x.owner);
    LongAt(data, p3, Signed(x.fp));
    BoolAt(data, p3 + |EncLong(Signed(x.fp))|, x.requiresKey);
  }

  lemma {:induction false} ItemsAt(data: bytes, pos: nat, xs: seq<Info>)
    requires (forall x :: x in xs ==> Fits(x)) && At(data, pos, EncItems(xs))
    ensures ReadItems(data, pos, |xs|) == Some((xs, pos + |EncItems(xs)|))
    decreases |xs|
  {
    hide At, EncInfo, ReadInfo, Fits;
    if xs != [] {
      AtParts(data, pos, EncInfo(xs[0]), EncItems(xs[1..]));
      assert xs[0] in xs && [xs[0]] + xs[1..] == xs;
      InfoAt(data, pos, xs[0]);
      ItemsAt(data, pos + |EncInfo(xs[0])|, xs[1..]);
    }
  }

  lemma ArrayAt(data: bytes, pos: nat, xs: seq<Info>)
    requires |xs| < INT_LIMIT && (forall x :: x in xs ==> Fits(x)) && At(data, pos, EncValue(Infos(xs)))
    ensures ReadArray(data, pos) == Some((xs, pos + |EncValue(Infos(xs))|))
  {
    hide At, EncLong, EncItems, ReadLong, ReadItems;
    if xs == [] {
      LongAt(data, pos, 0);
    } else {
      var p := pos + |EncLong(|xs|)|;
      var q := p + |EncItems(xs)|;
      AtParts(data, pos, EncLong(|xs|), EncItems(xs) + EncLong(0));
      AtParts(data, p, EncItems(xs), EncLong(0));
      LongAt(data, pos, |xs|);
      ItemsAt(data, p, xs);
      LongAt(data, q, 0);
      assert ReadArray(data, q) == Some(([], q + |EncLong(0)|));
      assert xs + [] == xs;
    }
  }

  lemma ValueAt(data: bytes, pos: nat, v: Value, ty: FieldType)
    requires HasType(v, ty) && At(data, pos, EncValue(v))
    ensures ReadValue(ty, data, pos) == Some((v, pos + |EncValue(v)|))
  {
    hide At, EncLong, EncString, ReadLong, ReadText, ReadArray;
    match v
    case Number(i) => LongAt(data, pos, i);
    case Text(s) => TextAt(data, pos, s);
    case Infos(xs) => ArrayAt(data, pos, xs);
  }

  /** A record is read back by the schema it was written with, whatever follows it. */
  lemma {:induction false} RecordAt(data: bytes, pos: nat, fs: seq<Field>, vs: seq<Value>)
    requires Typed(vs, fs) && At(data, pos, EncRecord(vs))
    ensures ReadRecord(fs, data, pos) == Some(vs)
    decreases |fs|
  {
    hide At, EncValue, ReadValue, HasType;
    if fs != [] {
      AtParts(data, pos, EncValue(vs[0]), EncRecord(vs[1..]));
      ValueAt(data, pos, vs[0], fs[0].ty);
      assert Typed(vs[1..], fs[1..]);
      RecordAt(data, pos + |EncValue(vs[0])|, fs[1..], vs[1..]);
      assert [vs[0]] + vs[1..] == vs;
    }
  }

  /** A body that ends where one more number is expected cannot be read. */
  lemma {:induction false} ShortRecord(data: bytes, pos: nat, fs: seq<Field>, last: Field, vs: seq<Value>)
    requires Typed(vs, fs) && last.ty == Long && At(data, pos, EncRecord(vs)) && pos + |EncRecord(vs)| == |data|
    ensures ReadRecord(fs + [last], data, pos) == None
    decreases |fs|
  {
    hide At, EncValue, HasType;
    if fs == [] {
      assert fs + [last] == [last];
      assert ReadLong(data, |data|) == None;
    } else {
      AtParts(data, pos, EncValue(vs[0]), EncRecord(vs[1..]));
      ValueAt(data, pos, vs[0], fs[0].ty);
      hide ReadValue;
      assert Typed(vs[1..], fs[1..]);
      ShortRecord(data, pos + |EncValue(vs[0])|, fs[1..], last, vs[1..]);
      assert (fs + [last])[1..] == fs[1..] + [last];
    }
  }

  // ---- filling the struct -----------------------------------------------

  ghost predicate DistinctNames(fs: seq<Field>) {
    forall i, j :: 0 <= i < j < |fs| ==> fs[i].name != fs[j].name
  }

  lemma {:induction false} NamedAt(fs: seq<Field>, vs: seq<Value>, i: nat)
    requires |vs| == |fs| && DistinctNames(fs) && i < |fs|
    ensures Named(fs, vs, fs[i].name) == Some(vs[i])
    decreases |fs|
  {
    if i > 0 {
      assert DistinctNames(fs[1..]);
      NamedAt(fs[1..], vs[1..], i - 1);
    }
  }

  lemma {:induction false} NamedNowhere(fs: seq<Field>, vs: seq<Value>, name: FieldName)
    requires |vs| == |fs| && forall i :: 0 <= i < |fs| ==> fs[i].name != name
    ensures Named(fs, vs, name) == None
    decreases |fs|
  {
    if fs != [] { NamedNowhere(fs[1..], vs[1..], name); }
  }

  /** The fields from `k` on of a struct of `n`, as far as there are values for them. */
  ghost function Rest(n: nat, k: nat, vs: seq<Value>): seq<Value>
    requires k <= n
  {
    seq(n - k, i requires 0 <= i < n - k => if k + i < |vs| then vs[k + i] else Number(0))
  }

  /** Filling from a version with the first fields of the struct keeps those, and gives
      the others their default. */
  lemma {:induction false} FillPrefix(into: seq<Field>, k: nat, fs: seq<Field>, vs: seq<Value>)
    requires |vs| == |fs| <= |into| && fs == into[..|fs|] && DistinctNames(into) && k <= |into|
    requires forall i :: |fs| <= i < |into| ==> HasDefault(into[i].name)
    ensures Fill(into[k..], fs, vs) == Some(Rest(|into|, k, vs))
    decreases |into| - k
  {
    if k < |into| {
      FillPrefix(into, k + 1, fs, vs);
      assert into[k..][1..] == into[k + 1..] && into[k..][0] == into[k];
      assert DistinctNames(fs);
      if k < |fs| { NamedAt(fs, vs, k); assert fs[k] == into[k]; } else {
        forall i | 0 <= i < |fs| ensures fs[i].name != into[k].name { assert fs[i] == into[i]; }
        NamedNowhere(fs, vs, into[k].name);
      }
      var v := if k < |vs| then vs[k] else Number(0);
      assert Fill(into[k..], fs, vs) == Some([v] + Rest(|into|, k + 1, vs));
      assert [v] + Rest(|into|, k + 1, vs) == Rest(|into|, k, vs);
    }
  }

  /** What a compatible read of version `fs` of a record gives. */
  ghost function Defaulted(k: Kind, vs: seq<Value>): seq<Value>
    requires |vs| <= |FieldsOf(k)|
  {
    vs + seq(|FieldsOf(k)| - |vs|, i => Number(0))
  }

  lemma NamesDistinct(k: Kind)
    ensures DistinctNames(FieldsOf(k)) && |FieldsOf(k)| >= 2
  {
    hide FieldsOf, DistinctNames;
    if k.Register? || k.PublishChannel? || k.PublishReply? || k.ExposeFunction? || k.ExposeReply? || k.LookupReply? {
      LongOnesDistinct(k);
    } else {
      ShortOnesDistinct(k);
    }
  }

  lemma LongOnesDistinct(k: Kind)
    requires k.Register? || k.PublishChannel? || k.PublishReply? || k.ExposeFunction? || k.ExposeReply? || k.LookupReply?
    ensures DistinctNames(FieldsOf(k)) && |FieldsOf(k)| >= 2
  {
    match k
    case Register => case PublishChannel => case PublishReply => case ExposeFunction => case ExposeReply =>
    case LookupReply =>
  }

  lemma ShortOnesDistinct(k: Kind)
    requires !(k.Register? || k.PublishChannel? || k.PublishReply? || k.ExposeFunction? || k.ExposeReply? || k.LookupReply?)
    ensures DistinctNames(FieldsOf(k)) && |FieldsOf(k)| >= 2
  {
    match k
    case RegisterReply => case Unregister => case Unpublish => case ListChannels => case ChannelList =>
    case Subscribe => case SubscribeReply => case LookupFunction => case Heartbeat => case RpcRequest =>
    case RpcResponse =>
  }

  /** A superseded version lacks just the last field, a number with a default. */
  ghost predicate Lacks(fs: seq<Field>, s: seq<Field>) {
    && |s| + 1 == |fs| && s == fs[..|s|]
    && fs[|s|].ty == Long && HasDefault(fs[|s|].name)
  }

  lemma LegacyLacks(i: nat)
    requires i < |LEGACY|
    ensures LEGACY[i].1.name == LEGACY[i].0 && Lacks(FieldsOf(LEGACY[i].0), LEGACY[i].1.fields)
  {
    if i == 0 {
      assert LEGACY[0].1.fields == FieldsOf(Register)[..5];
    } else if i == 1 {
      assert LEGACY[1].1.fields == FieldsOf(PublishChannel)[..5];
    } else {
      assert i == 2 && LEGACY[2].1.fields == FieldsOf(ExposeFunction)[..6];
    }
  }

  lemma VersionShape(k: Kind, s: Schema)
    requires Version(k, s)
    ensures s.name == k && (s.fields == FieldsOf(k) || Lacks(FieldsOf(k), s.fields))
  {
    hide FieldsOf, Lacks;
    if (k, s) in LEGACY {
      var i :| 0 <= i < |LEGACY| && LEGACY[i] == (k, s);
      LegacyLacks(i);
    }
  }

  lemma FillsVersion(k: Kind, s: Schema, vs: seq<Value>)
    requires Version(k, s) && |vs| == |s.fields|
    ensures |vs| <= |FieldsOf(k)| && Fill(FieldsOf(k), s.fields, vs) == Some(Defaulted(k, vs))
  {
    hide FieldsOf, Fill, Version;
    VersionShape(k, s);
    NamesDistinct(k);
    var fs := FieldsOf(k);
    FillPrefix(fs, 0, s.fields, vs);
    assert fs[0..] == fs;
    assert Fill(fs, s.fields, vs).value == Defaulted(k, vs);
  }

  // ---- the catalog ------------------------------------------------------

  ghost predicate Entered(c: Catalog, fp: Schema -> nat, k: Kind) {
    k in c.schemas && c.schemas[k] == SchemaFor(k) && k in c.fps && c.fps[k] == fp(SchemaFor(k))
  }

  ghost predicate Routed(c: Catalog, fp: Schema -> nat, k: Kind, s: Schema) {
    fp(s) in c.byFp && c.byFp[fp(s)] == k && fp(s) in c.writers && c.writers[fp(s)] == s
  }

  /** The catalog knows every version of every message by its fingerprint, and no other
      fingerprint. */
  ghost predicate Complete(c: Catalog, fp: Schema -> nat) {
    && (forall k :: Entered(c, fp, k))
    && (forall k, s :: Version(k, s) ==> Routed(c, fp, k, s))
    && c.byFp.Keys == c.writers.Keys
    && (forall n :: n in c.byFp ==> exists k, s :: Version(k, s) && fp(s) == n)
  }

  lemma EveryKind(k: Kind)
    ensures exists i :: 0 <= i < |ALL_KINDS| && ALL_KINDS[i] == k
  {
    assert ALL_KINDS[0] == Register && ALL_KINDS[1] == RegisterReply && ALL_KINDS[2] == Unregister;
    assert ALL_KINDS[3] == PublishChannel && ALL_KINDS[4] == PublishReply && ALL_KINDS[5] == Unpublish;
    assert ALL_KINDS[6] == ListChannels && ALL_KINDS[7] == ChannelList && ALL_KINDS[8] == Subscribe;
    assert ALL_KINDS[9] == SubscribeReply && ALL_KINDS[10] == ExposeFunction && ALL_KINDS[11] == ExposeReply;
    assert ALL_KINDS[12] == LookupFunction && ALL_KINDS[13] == LookupReply && ALL_KINDS[14] == Heartbeat;
    assert ALL_KINDS[15] == RpcRequest && ALL_KINDS[16] == RpcResponse;
  }

  /** What the catalog has to know so far, and all it may. */
  ghost predicate Knows(c: Catalog, fp: Schema -> nat, kinds: nat, legacy: nat)
    requires kinds <= |ALL_KINDS| && legacy <= |LEGACY|
  {
    && (forall i :: 0 <= i < kinds ==> Entered(c, fp, ALL_KINDS[i]) && Routed(c, fp, ALL_KINDS[i], SchemaFor(ALL_KINDS[i])))
    && (forall i :: 0 <= i < legacy ==> Routed(c, fp, LEGACY[i].0, LEGACY[i].1))
    && c.byFp.Keys == c.writers.Keys
    && (forall n :: n in c.byFp ==> Due(fp, kinds, legacy, n))
  }

  ghost predicate Due(fp: Schema -> nat, kinds: nat, legacy: nat, n: nat)
    requires kinds <= |ALL_KINDS| && legacy <= |LEGACY|
  {
    || (exists i :: 0 <= i < kinds && fp(SchemaFor(ALL_KINDS[i])) == n)
    || (exists i :: 0 <= i < legacy && fp(LEGACY[i].1) == n)
  }

  /** The known schemas are all different, so their fingerprints are. */
  lemma NoCollision(fp: Schema -> nat, j: Kind, s: Schema, k: Kind, t: Schema)
    requires TellsApart(fp) && Version(j, s) && Version(k, t) && fp(s) == fp(t)
    ensures s == t && j == k
  {
    hide FieldsOf;
    VersionShape(j, s);
    VersionShape(k, t);
  }

  lemma KnowsOneKind(c: Catalog, fp: Schema -> nat, i: nat)
    requires TellsApart(fp) && i < |ALL_KINDS| && Knows(c, fp, i, 0)
    ensures var k := ALL_KINDS[i];
      var n := fp(SchemaFor(k));
      Knows(Catalog(c.schemas[k := SchemaFor(k)], c.fps[k := n], c.byFp[n := k], c.writers[n := SchemaFor(k)]), fp, i + 1, 0)
  {
    hide SchemaFor, Entered, Routed, TellsApart;
    var k := ALL_KINDS[i];
    var s := SchemaFor(k);
    var n := fp(s);
    var c' := Catalog(c.schemas[k := s], c.fps[k := n], c.byFp[n := k], c.writers[n := s]);
    forall j | 0 <= j < i + 1
      ensures Entered(c', fp, ALL_KINDS[j]) && Routed(c', fp, ALL_KINDS[j], SchemaFor(ALL_KINDS[j]))
    {
      StaysRouted(c, fp, ALL_KINDS[j], k);
    }
    forall m | m in c'.byFp ensures Due(fp, i + 1, 0, m) {
      if m != n { assert Due(fp, i, 0, m); }
    }
  }

  /** Entering message `k` leaves message `j` as it was entered. */
  lemma StaysRouted(c: Catalog, fp: Schema -> nat, j: Kind, k: Kind)
    requires TellsApart(fp)
    requires j == k || (Entered(c, fp, j) && Routed(c, fp, j, SchemaFor(j)))
    ensures var s := SchemaFor(k);
      var c' := Catalog(c.schemas[k := s], c.fps[k := fp(s)], c.byFp[fp(s) := k], c.writers[fp(s) := s]);
      Entered(c', fp, j) && Routed(c', fp, j, SchemaFor(j))
  {
    hide FieldsOf, TellsApart;
    assert Version(j, SchemaFor(j)) && Version(k, SchemaFor(k));
    if fp(SchemaFor(j)) == fp(SchemaFor(k)) { NoCollision(fp, j, SchemaFor(j), k, SchemaFor(k)); }
  }

  /** A superseded version's fingerprint is not taken yet. */
  lemma LegacyIsNew(c: Catalog, fp: Schema -> nat, i: nat)
    requires TellsApart(fp) && i < |LEGACY| && Knows(c, fp, |ALL_KINDS|, i)
    ensures fp(LEGACY[i].1) !in c.byFp
  {
    hide FieldsOf, Lacks;
    var s := LEGACY[i].1;
    var n := fp(s);
    LegacyLacks(i);
    assert LEGACY[i] in LEGACY && Version(LEGACY[i].0, s);
    if n in c.byFp {
      assert Due(fp, |ALL_KINDS|, i, n);
      if j :| 0 <= j < |ALL_KINDS| && fp(SchemaFor(ALL_KINDS[j])) == n {
        LegacyIsNotCurrent(i, ALL_KINDS[j]);
        NoCollision(fp, LEGACY[i].0, s, ALL_KINDS[j], SchemaFor(ALL_KINDS[j]));
      } else {
        var j :| 0 <= j < i && fp(LEGACY[j].1) == n;
        assert LEGACY[j] in LEGACY && Version(LEGACY[j].0, LEGACY[j].1);
        NoCollision(fp, LEGACY[i].0, s, LEGACY[j].0, LEGACY[j].1);
      }
    }
  }

  lemma LegacyIsNotCurrent(i: nat, k: Kind)
    requires i < |LEGACY|
    ensures LEGACY[i].1 != SchemaFor(k)
  {
    hide FieldsOf;
    LegacyLacks(i);
  }

  lemma KnowsOneLegacy(c: Catalog, fp: Schema -> nat, i: nat)
    requires TellsApart(fp) && i < |LEGACY| && Knows(c, fp, |ALL_KINDS|, i)
    ensures fp(LEGACY[i].1) !in c.byFp && fp(LEGACY[i].1) !in c.writers
    ensures var (k, s) := LEGACY[i];
      Knows(c.(byFp := c.byFp[fp(s) := k], writers := c.writers[fp(s) := s]), fp, |ALL_KINDS|, i + 1)
  {
    hide SchemaFor, Entered, Routed, TellsApart;
    LegacyIsNew(c, fp, i);
    var (k, s) := LEGACY[i];
    var c' := c.(byFp := c.byFp[fp(s) := k], writers := c.writers[fp(s) := s]);
    forall j | 0 <= j < |ALL_KINDS|
      ensures Entered(c', fp, ALL_KINDS[j]) && Routed(c', fp, ALL_KINDS[j], SchemaFor(ALL_KINDS[j]))
    {
      StaysEntered(c, fp, ALL_KINDS[j], SchemaFor(ALL_KINDS[j]), k, s);
    }
    forall j | 0 <= j < i + 1 ensures Routed(c', fp, LEGACY[j].0, LEGACY[j].1) {
      if j < i { StaysEntered(c, fp, LEGACY[j].0, LEGACY[j].1, k, s); } else { NowRouted(c, fp, k, s); }
    }
    forall m | m in c'.byFp ensures Due(fp, |ALL_KINDS|, i + 1, m) {
      if m != fp(s) { assert Due(fp, |ALL_KINDS|, i, m); }
    }
  }

  lemma StaysEntered(c: Catalog, fp: Schema -> nat, j: Kind, t: Schema, k: Kind, s: Schema)
    requires Routed(c, fp, j, t) && fp(s) !in c.byFp
    ensures var c' := c.(byFp := c.byFp[fp(s) := k], writers := c.writers[fp(s) := s]);
      Routed(c', fp, j, t) && (Entered(c, fp, j) ==> Entered(c', fp, j))
  {}

  lemma NowRouted(c: Catalog, fp: Schema -> nat, k: Kind, s: Schema)
    ensures Routed(c.(byFp := c.byFp[fp(s) := k], writers := c.writers[fp(s) := s]), fp, k, s)
  {}

  /** All entered: the catalog is complete. */
  lemma KnowsAll(c: Catalog, fp: Schema -> nat)
    requires Knows(c, fp, |ALL_KINDS|, |LEGACY|)
    ensures Complete(c, fp)
  {
    hide FieldsOf, Entered, Routed;
    forall k ensures Entered(c, fp, k) && Routed(c, fp, k, SchemaFor(k)) {
      EveryKind(k);
      var i :| 0 <= i < |ALL_KINDS| && ALL_KINDS[i] == k;
    }
    forall k, s | Version(k, s) ensures Routed(c, fp, k, s) {
      if (k, s) in LEGACY {
        var i :| 0 <= i < |LEGACY| && LEGACY[i] == (k, s);
      }
    }
    forall n | n in c.byFp ensures exists k, s :: Version(k, s) && fp(s) == n {
      assert Due(fp, |ALL_KINDS|, |LEGACY|, n);
      if i :| 0 <= i < |ALL_KINDS| && fp(SchemaFor(ALL_KINDS[i])) == n {
        assert Version(ALL_KINDS[i], SchemaFor(ALL_KINDS[i]));
      } else {
        var i :| 0 <= i < |LEGACY| && fp(LEGACY[i].1) == n;
        assert LEGACY[i] in LEGACY && Version(LEGACY[i].0, LEGACY[i].1);
      }
    }
  }

  /** `Catalog::build`. */
  method Build(fp: Schema -> nat) returns (c: Catalog)
    requires TellsApart(fp)
    ensures Complete(c, fp)
  {
    hide FieldsOf, Knows, Complete, TellsApart, SchemaFor;
    var schemas: map<Kind, Schema>, fps: map<Kind, nat>, byFp: map<nat, Kind>, writers: map<nat, Schema> :=
      map[], map[], map[], map[];
    KnowsNothing(fp);
    for i := 0 to |ALL_KINDS|
      invariant Knows(Catalog(schemas, fps, byFp, writers), fp, i, 0)
    {
      var k := ALL_KINDS[i];
      var schema := SchemaFor(k);
      var n := fp(schema);
      KnowsOneKind(Catalog(schemas, fps, byFp, writers), fp, i);
      writers := writers[n := schema];
      schemas := schemas[k := schema];
      fps := fps[k := n];
      byFp := byFp[n := k];
    }
    for i := 0 to |LEGACY|
      invariant Knows(Catalog(schemas, fps, byFp, writers), fp, |ALL_KINDS|, i)
    {
      var (k, schema) := LEGACY[i];
      var n := fp(schema);
      KnowsOneLegacy(Catalog(schemas, fps, byFp, writers), fp, i);
      if n !in byFp { byFp := byFp[n := k]; }
      if n !in writers { writers := writers[n := schema]; }
    }
    c := Catalog(schemas, fps, byFp, writers);
    KnowsAll(c, fp);
  }

  lemma KnowsNothing(fp: Schema -> nat)
    ensures Knows(Catalog(map[], map[], map[], map[]), fp, 0, 0)
  {}

  // ---- the main results -------------------------------------------------

  /** A record written by any accepted version of any message survives the wire, is
      routed to that message, and read compatibly has its fields, with those the
      version lacks defaulted. Read strictly it is read if and only if the version is
      the current one. */
  lemma VersionsAreRead(c: Catalog, fp: Schema -> nat, k: Kind, s: Schema, vs: seq<Value>, rest: bytes)
    requires TellsApart(fp) && Complete(c, fp) && Version(k, s) && Typed(vs, s.fields) && |EncRecord(vs)| < W32
    ensures var f := Frames.Frame(0, fp(s), EncRecord(vs));
      && Frames.Decode(Frames.Wire(f) + rest) == Frames.Ok(f)
      && f.fp in c.byFp && c.byFp[f.fp] == k
      && |vs| <= |FieldsOf(k)| && FromFrameCompat(c, k, f) == Some(Defaulted(k, vs))
      && k in c.schemas && FromFrame(c, k, f) == (if s == SchemaFor(k) then Some(vs) else None)
  {
    hide FieldsOf, Typed, EncRecord, ReadRecord, Fill, Lacks, Version, Frames.Decode, Frames.Wire, Defaulted;
    var f := Frames.Frame(0, fp(s), EncRecord(vs));
    Frames.FrameRoundTrip(f, rest);
    assert At(f.body, 0, f.body) by { assert f.body[0..|f.body|] == f.body; }
    RecordAt(f.body, 0, s.fields, vs);
    TypedLength(vs, s.fields);
    FillsVersion(k, s, vs);
    StrictRead(k, s, vs, f.body);
    assert Entered(c, fp, k) && Routed(c, fp, k, s);
  }

  lemma TypedLength(vs: seq<Value>, fs: seq<Field>)
    requires Typed(vs, fs)
    ensures |vs| == |fs|
  {}

  /** A strict read of a superseded version runs out of bytes. */
  lemma StrictRead(k: Kind, s: Schema, vs: seq<Value>, body: bytes)
    requires Version(k, s) && Typed(vs, s.fields) && body == EncRecord(vs)
    ensures ReadRecord(FieldsOf(k), body, 0) == if s == SchemaFor(k) then Some(vs) else None
  {
    hide FieldsOf, Typed, EncRecord, ReadRecord;
    VersionShape(k, s);
    assert At(body, 0, body) by { assert body[0..|body|] == body; }
    var fs := FieldsOf(k);
    if s.fields == fs {
      RecordAt(body, 0, fs, vs);
    } else {
      assert fs == s.fields + [fs[|s.fields|]];
      ShortRecord(body, 0, s.fields, fs[|s.fields|], vs);
    }
  }

  lemma StartsWithCorrelation(k: Kind)
    ensures |FieldsOf(k)| > 0 && FieldsOf(k)[0] == CORR
  {}

  /** A dispatcher reads a reply's correlation id exactly when the reply is of a kind
      that is routed, and reads the one it was sent with. */
  lemma CorrelationIsRead(c: Catalog, fp: Schema -> nat, k: Kind, vs: seq<Value>)
    requires TellsApart(fp) && Complete(c, fp) && Typed(vs, FieldsOf(k))
    ensures k in c.fps && |vs| > 0 && vs[0].Number?
    ensures CorrelationOf(c, ToFrame(c, k, vs)) == if Routable(k) then Some(vs[0].i) else None
  {
    hide FieldsOf, EncRecord, ReadRecord;
    StartsWithCorrelation(k);
    assert HasType(vs[0], FieldsOf(k)[0].ty);
    assert Version(k, SchemaFor(k));
    var body := EncRecord(vs);
    assert At(body, 0, body) by { assert body[0..|body|] == body; }
    RecordAt(body, 0, FieldsOf(k), vs);
    assert Entered(c, fp, k) && Routed(c, fp, k, SchemaFor(k));
  }

  // ---- nothing else reads -----------------------------------------------

  /** A text that is read is what lies behind a long of just its length. */
  lemma TextIsThere(data: bytes, pos: nat)
    requires ReadText(data, pos).Some?
    ensures var (s, end) := ReadText(data, pos).value;
      |s| <= end <= |data| && data[end - |s|..end] == s && ReadLong(data, pos) == Some((|s|, end - |s|))
  {}

  /** A flag that is read is one byte, 0 or 1. */
  lemma FlagIsThere(data: bytes, pos: nat)
    requires ReadBool(data, pos).Some?
    ensures var (b, end) := ReadBool(data, pos).value; At(data, pos, EncBool(b)) && end == pos + 1
  {
    assert data[pos..pos + 1] == [data[pos]];
  }

  lemma InfoIsFit(data: bytes, pos: nat)
    requires |data| < INT_LIMIT && ReadInfo(data, pos).Some?
    ensures Fits(ReadInfo(data, pos).value.0)
  {}

  lemma {:induction false} ItemsAreFit(data: bytes, pos: nat, count: nat)
    requires |data| < INT_LIMIT && ReadItems(data, pos, count).Some?
    ensures var xs := ReadItems(data, pos, count).value.0;
      |xs| == count && (forall x :: x in xs ==> Fits(x))
      && (pos <= |data| ==> count <= ReadItems(data, pos, count).value.1 - pos)
    decreases count
  {
    hide ReadInfo, Fits;
    if count > 0 {
      var (x, p) := ReadInfo(data, pos).value;
      InfoIsFit(data, pos);
      ItemsAreFit(data, p, count - 1);
    }
  }

  /** Where an array's first block begins, and how many items it has. */
  function BlockStart(data: bytes, pos: nat): (nat, nat)
    requires ReadLong(data, pos).Some?
  {
    var (n, p) := ReadLong(data, pos).value;
    if n >= 0 then (n, p) else (-n, match ReadLong(data, p) case Some((_, q)) => q case None => p)
  }

  /** An array that is read is a block and an array, or its end. */
  lemma ArrayParts(data: bytes, pos: nat)
    requires ReadArray(data, pos).Some?
    ensures ReadLong(data, pos).Some?
    ensures var (count, q) := BlockStart(data, pos);
      var (xs, end) := ReadArray(data, pos).value;
      pos < q <= |data| &&
      if count == 0 then xs == []
      else
        && ReadItems(data, q, count).Some?
        && var (items, e) := ReadItems(data, q, count).value;
        && q <= e <= |data| && ReadArray(data, e).Some?
        && xs == items + ReadArray(data, e).value.0 && end == ReadArray(data, e).value.1
  {
    hide ReadLong, ReadItems;
  }

  lemma {:induction false} ArrayIsFit(data: bytes, pos: nat)
    requires |data| < INT_LIMIT && ReadArray(data, pos).Some?
    ensures var (xs, end) := ReadArray(data, pos).value;
      (forall x :: x in xs ==> Fits(x)) && |xs| <= end - pos
    decreases |data| - pos
  {
    ArrayParts(data, pos);
    var (count, q) := BlockStart(data, pos);
    hide BlockStart, ReadArray, ReadItems, Fits;
    if count != 0 {
      ItemsAreFit(data, q, count);
      ArrayIsFit(data, ReadItems(data, q, count).value.1);
    }
  }

  /** Whatever is read by a schema has the schema's types. */
  lemma {:induction false} ReadIsTyped(fs: seq<Field>, data: bytes, pos: nat)
    requires |data| < INT_LIMIT && ReadRecord(fs, data, pos).Some?
    ensures Typed(ReadRecord(fs, data, pos).value, fs)
    decreases |fs|
  {
    if fs != [] {
      var (v, p) := ReadValue(fs[0].ty, data, pos).value;
      if fs[0].ty.ChannelArray? { ArrayIsFit(data, pos); }
      assert HasType(v, fs[0].ty);
      ReadIsTyped(fs[1..], data, p);
    }
  }
}
