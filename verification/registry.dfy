/** The broker's tables: clients, channels and functions by id, an index by name for
    each, and the release bookkeeping. `View` is the bus they stand for. */
module Registries {
  import opened Records
  import opened Names
  import opened Bus

  datatype ChannelMeta = ChannelMeta(id: nat, name: string, owner: int, fp: nat, key: Option<int>, arena: string)

  datatype FunctionMeta = FunctionMeta(
    id: nat, name: string, owner: int, reqFp: nat, respFp: nat, key: Option<int>, reqArena: string)

  /** What to do with a channel whose publisher has just released it. */
  datatype Release = Now(arena: string) | Deferred | Refused

  /** The answer to a subscription. */
  datatype Resolved = Granted(arena: string, fp: nat) | Rejected(status: Status)

  /** The answer to a function lookup. */
  datatype Found = Hit(id: nat, reqFp: nat, respFp: nat, arena: string) | Missed(status: Status)

  predicate NoDup(s: seq<string>) {
    forall i, j :: 0 <= i < j < |s| ==> s[i] != s[j]
  }

  function Elements(s: seq<string>): set<string> {
    set a | a in s
  }

  lemma ElementsPush(s: seq<string>, a: string)
    requires NoDup(s) && a !in Elements(s)
    ensures NoDup(s + [a]) && Elements(s + [a]) == Elements(s) + {a}
  {
    assert forall x :: x in s + [a] <==> x in s || x == a;
  }

  ghost predicate DistinctIds(v: map<string, Chan>) {
    forall m, n :: m in v && n in v && v[m].id == v[n].id ==> m == n
  }

  ghost predicate DistinctFnIds(v: map<string, Func>) {
    forall m, n :: m in v && n in v && v[m].id == v[n].id ==> m == n
  }

  // ---- the tables, as values -------------------------------------------

  /** The name index is the inverse of the table, and the release bookkeeping speaks
      of live channels only. */
  ghost predicate ChansOk(
    table: map<nat, ChannelMeta>, index: map<string, nat>, subscribed: set<nat>, released: map<nat, nat>, next: nat)
  {
    && (forall id :: id in table ==>
          && table[id].id == id && 1 <= id < next && table[id].arena == ChannelArena(id)
          && table[id].name in index && index[table[id].name] == id)
    && (forall n :: n in index ==> index[n] in table && table[index[n]].name == n)
    && subscribed <= table.Keys && released.Keys <= table.Keys && 1 <= next
  }

  ghost predicate FnsOk(table: map<nat, FunctionMeta>, index: map<string, nat>, next: nat) {
    && (forall id :: id in table ==>
          && table[id].id == id && 1 <= id < next && table[id].reqArena == FunctionArena(id)
          && table[id].name in index && index[table[id].name] == id)
    && (forall n :: n in index ==> index[n] in table && table[index[n]].name == n)
    && 1 <= next
  }

  ghost function ChanOf(c: ChannelMeta, subscribed: set<nat>, released: map<nat, nat>): Chan {
    Chan(c.id, c.owner, c.fp, c.key, c.id in subscribed, if c.id in released then Some(released[c.id]) else None)
  }

  ghost function FuncOf(f: FunctionMeta): Func {
    Func(f.id, f.owner, f.reqFp, f.respFp, f.key)
  }

  /** The channels a table and its index stand for. */
  ghost function ViewChans(
    table: map<nat, ChannelMeta>, index: map<string, nat>, subscribed: set<nat>, released: map<nat, nat>
  ): map<string, Chan>
    requires forall n :: n in index ==> index[n] in table
  {
    map n | n in index :: ChanOf(table[index[n]], subscribed, released)
  }

  ghost function ViewFns(table: map<nat, FunctionMeta>, index: map<string, nat>): map<string, Func>
    requires forall n :: n in index ==> index[n] in table
  {
    map n | n in index :: FuncOf(table[index[n]])
  }

  ghost function ChanArenas(table: map<nat, ChannelMeta>): set<string> {
    set id | id in table :: table[id].arena
  }

  ghost function FnArenas(table: map<nat, FunctionMeta>): set<string> {
    set id | id in table :: table[id].reqArena
  }

  lemma ChannelNumbered(
    table: map<nat, ChannelMeta>, index: map<string, nat>, subscribed: set<nat>, released: map<nat, nat>, next: nat,
    id: nat)
    requires ChansOk(table, index, subscribed, released, next) && id in table
    ensures table[id].id == id && 1 <= id < next && table[id].arena == ChannelArena(id)
  {}

  /** Dropping one channel takes its name, and its arena, and nothing else. */
  lemma DropKeepsOrder(
    table: map<nat, ChannelMeta>, index: map<string, nat>, subscribed: set<nat>, released: map<nat, nat>, next: nat,
    id: nat, name: string)
    requires ChansOk(table, index, subscribed, released, next) && id in table && name == table[id].name
    ensures ChansOk(table - {id}, index - {name}, subscribed - {id}, released - {id}, next)
  {}

  lemma DropFromView(
    table: map<nat, ChannelMeta>, index: map<string, nat>, subscribed: set<nat>, released: map<nat, nat>, next: nat,
    id: nat, name: string)
    requires ChansOk(table, index, subscribed, released, next) && id in table && name == table[id].name
    requires ChansOk(table - {id}, index - {name}, subscribed - {id}, released - {id}, next)
    ensures ViewChans(table - {id}, index - {name}, subscribed - {id}, released - {id})
              == ViewChans(table, index, subscribed, released) - {name}
  {
    var v, v' := ViewChans(table, index, subscribed, released),
                 ViewChans(table - {id}, index - {name}, subscribed - {id}, released - {id});
    forall n | n in index && n != name ensures v'[n] == v[n] {
      assert index[n] != id;
      assert table[index[n]].id == index[n];
    }
    assert v'.Keys == (v - {name}).Keys;
  }

  lemma DropArena(
    table: map<nat, ChannelMeta>, index: map<string, nat>, subscribed: set<nat>, released: map<nat, nat>, next: nat,
    id: nat)
    requires ChansOk(table, index, subscribed, released, next) && id in table
    ensures ChannelArena(id) in ChanArenas(table)
    ensures ChanArenas(table - {id}) == ChanArenas(table) - {ChannelArena(id)}
  {
    assert table[id].arena == ChannelArena(id);
    var small := table - {id};
    forall i | i in table && i != id ensures i in small && small[i] == table[i] && table[i].arena != ChannelArena(id) {
      ArenaNamesDiffer(i, id);
    }
    forall a | a in ChanArenas(table) && a != ChannelArena(id) ensures a in ChanArenas(small) {
      var i :| i in table && table[i].arena == a;
      assert i in small && small[i].arena == a;
    }
  }

  lemma DropFnKeepsOrder(table: map<nat, FunctionMeta>, index: map<string, nat>, next: nat, id: nat, name: string)
    requires FnsOk(table, index, next) && id in table && name == table[id].name
    ensures FnsOk(table - {id}, index - {name}, next)
  {}

  lemma DropFnFromView(table: map<nat, FunctionMeta>, index: map<string, nat>, next: nat, id: nat, name: string)
    requires FnsOk(table, index, next) && id in table && name == table[id].name
    requires FnsOk(table - {id}, index - {name}, next)
    ensures ViewFns(table - {id}, index - {name}) == ViewFns(table, index) - {name}
  {
    var v, v' := ViewFns(table, index), ViewFns(table - {id}, index - {name});
    forall n | n in index && n != name ensures v'[n] == v[n] { assert index[n] != id; }
    assert v'.Keys == (v - {name}).Keys;
  }

  lemma DropFnArena(table: map<nat, FunctionMeta>, index: map<string, nat>, next: nat, id: nat)
    requires FnsOk(table, index, next) && id in table
    ensures FunctionArena(id) in FnArenas(table)
    ensures FnArenas(table - {id}) == FnArenas(table) - {FunctionArena(id)}
  {
    assert table[id].reqArena == FunctionArena(id);
    var small := table - {id};
    forall i | i in table && i != id
      ensures i in small && small[i] == table[i] && table[i].reqArena != FunctionArena(id)
    {
      ArenaNamesDiffer(i, id);
    }
    forall a | a in FnArenas(table) && a != FunctionArena(id) ensures a in FnArenas(small) {
      var i :| i in table && table[i].reqArena == a;
      assert i in small && small[i].reqArena == a;
    }
  }

  /** A table's entry is in the view under its own name and id. */
  lemma ViewNames(
    table: map<nat, ChannelMeta>, index: map<string, nat>, subscribed: set<nat>, released: map<nat, nat>, next: nat,
    id: nat)
    requires ChansOk(table, index, subscribed, released, next) && id in table
    ensures var v := ViewChans(table, index, subscribed, released);
      table[id].name in v && v[table[id].name].id == id
  {}

  /** No two names of a view share an id. */
  lemma ViewIdsUnique(
    table: map<nat, ChannelMeta>, index: map<string, nat>, subscribed: set<nat>, released: map<nat, nat>, next: nat)
    requires ChansOk(table, index, subscribed, released, next)
    ensures var v := ViewChans(table, index, subscribed, released); DistinctIds(v)
  {}

  /** What a name's entry in the view is made of. */
  lemma NameInView(
    table: map<nat, ChannelMeta>, index: map<string, nat>, subscribed: set<nat>, released: map<nat, nat>, next: nat,
    name: string)
    requires ChansOk(table, index, subscribed, released, next)
    ensures var v := ViewChans(table, index, subscribed, released);
      && (name in v <==> name in index)
      && (name in index ==>
            && index[name] in table && table[index[name]].name == name
            && v[name] == ChanOf(table[index[name]], subscribed, released) && v[name].id == index[name])
  {}

  lemma FnNameInView(table: map<nat, FunctionMeta>, index: map<string, nat>, next: nat, name: string)
    requires FnsOk(table, index, next)
    ensures var v := ViewFns(table, index);
      && (name in v <==> name in index)
      && (name in index ==>
            && index[name] in table && table[index[name]].name == name
            && v[name] == FuncOf(table[index[name]]) && v[name].id == index[name]
            && table[index[name]].reqArena == FunctionArena(index[name]))
  {}

  lemma ViewFnNames(table: map<nat, FunctionMeta>, index: map<string, nat>, next: nat, id: nat)
    requires FnsOk(table, index, next) && id in table
    ensures var v := ViewFns(table, index); table[id].name in v && v[table[id].name].id == id
    ensures table[id].reqArena == FunctionArena(id)
  {}

  lemma ViewFnIdsUnique(table: map<nat, FunctionMeta>, index: map<string, nat>, next: nat)
    requires FnsOk(table, index, next)
    ensures DistinctFnIds(ViewFns(table, index))
  {}

  /** The release bookkeeping speaks of live channels only. */
  lemma BookkeepingIsLive(
    table: map<nat, ChannelMeta>, index: map<string, nat>, subscribed: set<nat>, released: map<nat, nat>, next: nat)
    requires ChansOk(table, index, subscribed, released, next)
    ensures subscribed <= table.Keys && released.Keys <= table.Keys
  {}

  /** An id the table has is the id of its entry's name, and of no other. */
  lemma IdInView(
    b: Bus, table: map<nat, ChannelMeta>, index: map<string, nat>, subscribed: set<nat>, released: map<nat, nat>,
    id: int)
    requires ChansOk(table, index, subscribed, released, b.nextChan)
    requires b.chans == ViewChans(table, index, subscribed, released)
    ensures Known(b, id) <==> id in table
    ensures Known(b, id) ==>
      && NameOf(b, id) == table[id].name && table[id].arena == ChannelArena(id)
      && b.chans[NameOf(b, id)] == ChanOf(table[id], subscribed, released)
  {
    if id in table { assert table[id].name in b.chans && b.chans[table[id].name].id == id; }
  }

  /** The arenas in the tables are those of what is on the bus. */
  lemma ArenasInView(
    b: Bus, channels: map<nat, ChannelMeta>, chanByName: map<string, nat>, subscribed: set<nat>, released: map<nat, nat>,
    functions: map<nat, FunctionMeta>, fnByName: map<string, nat>)
    requires ChansOk(channels, chanByName, subscribed, released, b.nextChan) && FnsOk(functions, fnByName, b.nextFn)
    requires b.chans == ViewChans(channels, chanByName, subscribed, released) && b.fns == ViewFns(functions, fnByName)
    ensures LiveArenas(b) == ChanArenas(channels) + FnArenas(functions)
  {
    hide ChannelArena, FunctionArena;
    forall a | a in ChanArenas(channels) ensures a in LiveArenas(b) {
      var id :| id in channels && channels[id].arena == a;
      assert channels[id].name in b.chans && b.chans[channels[id].name].id == id;
    }
    forall a | a in FnArenas(functions) ensures a in LiveArenas(b) {
      var id :| id in functions && functions[id].reqArena == a;
      assert functions[id].name in b.fns && b.fns[functions[id].name].id == id;
    }
  }

  function Info(clients: map<int, Client>, c: ChannelMeta): ChannelInfo {
    ChannelInfo(c.id, c.name, if c.owner in clients then clients[c.owner].app else "", c.fp, c.key.Some?)
  }

  lemma ListedInView(
    b: Bus, table: map<nat, ChannelMeta>, index: map<string, nat>, subscribed: set<nat>, released: map<nat, nat>)
    requires ChansOk(table, index, subscribed, released, b.nextChan)
    requires b.chans == ViewChans(table, index, subscribed, released)
    ensures (set id | id in table :: Info(b.clients, table[id])) == (set n | n in b.chans :: InfoOf(b, n))
  {
    var x, y := set id | id in table :: Info(b.clients, table[id]), set n | n in b.chans :: InfoOf(b, n);
    forall i | i in x ensures i in y {
      var id :| id in table && i == Info(b.clients, table[id]);
      assert table[id].name in b.chans && InfoOf(b, table[id].name) == i;
    }
    forall i | i in y ensures i in x {
      var n :| n in b.chans && i == InfoOf(b, n);
      assert index[n] in table && Info(b.clients, table[index[n]]) == i;
    }
  }

  // ---- dropping many ----------------------------------------------------

  /** The channels of a bus whose ids are not among `gone`. */
  ghost function Without(v: map<string, Chan>, gone: set<nat>): map<string, Chan> {
    map n | n in v && v[n].id !in gone :: v[n]
  }

  ghost function WithoutFns(v: map<string, Func>, gone: set<nat>): map<string, Func> {
    map n | n in v && v[n].id !in gone :: v[n]
  }

  lemma WithoutOneMore(v: map<string, Chan>, gone: set<nat>, name: string, id: nat)
    requires DistinctIds(v) && name in Without(v, gone) && v[name].id == id
    ensures Without(v, gone) - {name} == Without(v, gone + {id})
  {}

  lemma WithoutOneMoreFn(v: map<string, Func>, gone: set<nat>, name: string, id: nat)
    requires DistinctFnIds(v) && name in WithoutFns(v, gone) && v[name].id == id
    ensures WithoutFns(v, gone) - {name} == WithoutFns(v, gone + {id})
  {}

  /** The channels of one owner, by id and in the view. */
  lemma OwnedInView(
    table: map<nat, ChannelMeta>, index: map<string, nat>, subscribed: set<nat>, released: map<nat, nat>, next: nat,
    owner: int)
    requires ChansOk(table, index, subscribed, released, next)
    ensures var v := ViewChans(table, index, subscribed, released);
      Without(v, set id | id in table && table[id].owner == owner) == map n | n in v && v[n].owner != owner :: v[n]
  {
    var v := ViewChans(table, index, subscribed, released);
    forall n | n in v ensures v[n].id in table && v[n].owner == table[v[n].id].owner {}
  }

  lemma OwnedFnsInView(table: map<nat, FunctionMeta>, index: map<string, nat>, next: nat, owner: int)
    requires FnsOk(table, index, next)
    ensures var v := ViewFns(table, index);
      WithoutFns(v, set id | id in table && table[id].owner == owner) == map n | n in v && v[n].owner != owner :: v[n]
  {
    var v := ViewFns(table, index);
    forall n | n in v ensures v[n].id in table && v[n].owner == table[v[n].id].owner {}
  }

  /** The releases past their grace, by id and in the view. */
  lemma OverdueInView(
    table: map<nat, ChannelMeta>, index: map<string, nat>, subscribed: set<nat>, released: map<nat, nat>, next: nat,
    now: nat)
    requires ChansOk(table, index, subscribed, released, next)
    ensures var v := ViewChans(table, index, subscribed, released);
      Without(v, set id | id in released && now - released[id] >= RELEASE_GRACE)
        == map n | n in v && !Overdue(v[n], now) :: v[n]
  {
    var v := ViewChans(table, index, subscribed, released);
    forall n | n in v ensures v[n].released == if v[n].id in released then Some(released[v[n].id]) else None {}
  }

  // ---- adding and marking -----------------------------------------------

  lemma MarkInView(
    table: map<nat, ChannelMeta>, index: map<string, nat>, subscribed: set<nat>, released: map<nat, nat>, next: nat,
    id: nat)
    requires ChansOk(table, index, subscribed, released, next) && id in table
    ensures ChansOk(table, index, subscribed + {id}, released, next)
    ensures var v, n := ViewChans(table, index, subscribed, released), table[id].name;
      n in v && v[n].id == id
      && ViewChans(table, index, subscribed + {id}, released) == v[n := v[n].(subscribed := true)]
  {}

  lemma ReleaseInView(
    table: map<nat, ChannelMeta>, index: map<string, nat>, subscribed: set<nat>, released: map<nat, nat>, next: nat,
    id: nat, now: nat)
    requires ChansOk(table, index, subscribed, released, next) && id in table
    ensures ChansOk(table, index, subscribed, released[id := now], next)
    ensures var v, n := ViewChans(table, index, subscribed, released), table[id].name;
      n in v && ViewChans(table, index, subscribed, released[id := now]) == v[n := v[n].(released := Some(now))]
  {}

  lemma InsertKeepsOrder(
    table: map<nat, ChannelMeta>, index: map<string, nat>, subscribed: set<nat>, released: map<nat, nat>, next: nat,
    c: ChannelMeta)
    requires ChansOk(table, index, subscribed, released, next)
    requires c.name !in index && c.id !in table && 1 <= c.id < next && c.arena == ChannelArena(c.id)
    ensures ChansOk(table[c.id := c], index[c.name := c.id], subscribed, released, next)
  {}

  lemma InsertInView(
    table: map<nat, ChannelMeta>, index: map<string, nat>, subscribed: set<nat>, released: map<nat, nat>, next: nat,
    c: ChannelMeta)
    requires ChansOk(table, index, subscribed, released, next)
    requires c.name !in index && c.id !in table && 1 <= c.id < next && c.arena == ChannelArena(c.id)
    requires ChansOk(table[c.id := c], index[c.name := c.id], subscribed, released, next)
    ensures ViewChans(table[c.id := c], index[c.name := c.id], subscribed, released)
              == ViewChans(table, index, subscribed, released)[c.name := Chan(c.id, c.owner, c.fp, c.key, false, None)]
    ensures ChanArenas(table[c.id := c]) == ChanArenas(table) + {c.arena}
  {
    InsertArena(table, c);
  }

  lemma InsertArena(table: map<nat, ChannelMeta>, c: ChannelMeta)
    requires c.id !in table
    ensures ChanArenas(table[c.id := c]) == ChanArenas(table) + {c.arena}
  {
    var big := table[c.id := c];
    forall a | a in ChanArenas(table) ensures a in ChanArenas(big) {
      var i :| i in table && table[i].arena == a;
      assert i in big && big[i].arena == a;
    }
    assert c.id in big && big[c.id].arena == c.arena;
  }

  lemma InsertFnKeepsOrder(table: map<nat, FunctionMeta>, index: map<string, nat>, next: nat, f: FunctionMeta)
    requires FnsOk(table, index, next)
    requires f.name !in index && f.id !in table && 1 <= f.id < next && f.reqArena == FunctionArena(f.id)
    ensures FnsOk(table[f.id := f], index[f.name := f.id], next)
  {}

  lemma InsertFnInView(table: map<nat, FunctionMeta>, index: map<string, nat>, next: nat, f: FunctionMeta)
    requires FnsOk(table, index, next)
    requires f.name !in index && f.id !in table && 1 <= f.id < next && f.reqArena == FunctionArena(f.id)
    requires FnsOk(table[f.id := f], index[f.name := f.id], next)
    ensures ViewFns(table[f.id := f], index[f.name := f.id])
              == ViewFns(table, index)[f.name := Func(f.id, f.owner, f.reqFp, f.respFp, f.key)]
    ensures FnArenas(table[f.id := f]) == FnArenas(table) + {f.reqArena}
  {
    InsertFnArena(table, f);
  }

  lemma InsertFnArena(table: map<nat, FunctionMeta>, f: FunctionMeta)
    requires f.id !in table
    ensures FnArenas(table[f.id := f]) == FnArenas(table) + {f.reqArena}
  {
    var big := table[f.id := f];
    forall a | a in FnArenas(table) ensures a in FnArenas(big) {
      var i :| i in table && table[i].reqArena == a;
      assert i in big && big[i].reqArena == a;
    }
    assert f.id in big && big[f.id].reqArena == f.reqArena;
  }

  /** A channel's arena is never a function's. */
  lemma ArenasApart(
    chans: map<nat, ChannelMeta>, index: map<string, nat>, subscribed: set<nat>, released: map<nat, nat>, next: nat,
    fns: map<nat, FunctionMeta>, fnIndex: map<string, nat>, nextFn: nat)
    requires ChansOk(chans, index, subscribed, released, next) && FnsOk(fns, fnIndex, nextFn)
    ensures ChanArenas(chans) !! FnArenas(fns)
  {
    forall i, j | i in chans && j in fns ensures chans[i].arena != fns[j].reqArena { ArenaNamesDiffer(i, j); }
  }

  class Registry {
    var clients: map<int, Client>
    var channels: map<nat, ChannelMeta>
    var chanByName: map<string, nat>
    var functions: map<nat, FunctionMeta>
    var fnByName: map<string, nat>
    var subscribed: set<nat>
    var released: map<nat, nat>
    var nextClient: nat
    var nextChannel: nat
    var nextFn: nat

    ghost predicate Valid()
      reads this
    {
      && ChansOk(channels, chanByName, subscribed, released, nextChannel)
      && FnsOk(functions, fnByName, nextFn)
      && (forall c :: c in clients ==> 1 <= c < nextClient) && 1 <= nextClient
    }

    ghost function Chans(): map<string, Chan>
      requires Valid()
      reads this
    {
      ViewChans(channels, chanByName, subscribed, released)
    }

    ghost function Fns(): map<string, Func>
      requires Valid()
      reads this
    {
      ViewFns(functions, fnByName)
    }

    /** The bus these tables stand for. */
    ghost function View(): Bus
      requires Valid()
      reads this
    {
      Bus(clients, Chans(), Fns(), nextClient, nextChannel, nextFn)
    }

    /** The arenas of everything in the tables. */
    ghost function Arenas(): set<string>
      reads this
    {
      ChanArenas(channels) + FnArenas(functions)
    }

    lemma ArenasDisjoint()
      requires Valid()
      ensures ChanArenas(channels) !! FnArenas(functions)
    {
      ArenasApart(channels, chanByName, subscribed, released, nextChannel, functions, fnByName, nextFn);
    }

    constructor ()
      ensures Valid() && View() == EMPTY && Arenas() == {}
    {
      clients, channels, chanByName, functions, fnByName := map[], map[], map[], map[], map[];
      subscribed, released := {}, map[];
      nextClient, nextChannel, nextFn := 1, 1, 1;
    }

    // ---- clients ---------------------------------------------------------

    method AddClient(app: string, pid: int) returns (id: int)
      requires Valid()
      modifies this`clients, this`nextClient
      ensures Valid()
      ensures id == old(nextClient) && nextClient == id + 1 && clients == old(clients)[id := Client(app, pid)]
    {
      id := nextClient;
      nextClient := nextClient + 1;
      clients := clients[id := Client(app, pid)];
    }

    method RemoveClient(id: int)
      requires Valid()
      modifies this`clients
      ensures Valid() && clients == old(clients) - {id}
    {
      clients := clients - {id};
    }

    /** The owner of a channel name, if it is positively dead. */
    function DeadChannelOwner(name: string, w: World): (r: Option<int>)
      requires Valid()
      reads this
      ensures r == if name in Chans() && OwnerDead(View(), Chans()[name].owner, w)
                   then Some(Chans()[name].owner) else None
    {
      if name !in chanByName then None else
      var owner := channels[chanByName[name]].owner;
      var pid := if owner in clients then clients[owner].pid else 0;
      if pid == 0 || w.pidAlive(pid) then None else Some(owner)
    }

    function DeadFunctionOwner(name: string, w: World): (r: Option<int>)
      requires Valid()
      reads this
      ensures r == if name in Fns() && OwnerDead(View(), Fns()[name].owner, w)
                   then Some(Fns()[name].owner) else None
    {
      if name !in fnByName then None else
      var owner := functions[fnByName[name]].owner;
      var pid := if owner in clients then clients[owner].pid else 0;
      if pid == 0 || w.pidAlive(pid) then None else Some(owner)
    }

    // ---- channels --------------------------------------------------------

    /** Forget a channel entirely: the entry, its name and its bookkeeping. */
    method DropChannel(id: nat) returns (arena: Option<string>)
      requires Valid()
      modifies this`channels, this`chanByName, this`subscribed, this`released
      ensures Valid()
      ensures id !in old(channels) ==> arena == None && Chans() == old(Chans()) && channels == old(channels)
      ensures id in old(channels) ==> arena == Some(ChannelArena(id)) && channels == old(channels) - {id}
      ensures id in old(channels) ==> Chans() == old(Chans()) - {old(channels)[id].name}
      ensures id in old(channels) ==> ChannelArena(id) in old(ChanArenas(channels))
      ensures id in old(channels) ==> ChanArenas(channels) == old(ChanArenas(channels)) - {ChannelArena(id)}
    {
      hide ChansOk, FnsOk, ViewChans, ChanArenas;
      if id !in channels { return None; }
      var c := channels[id];
      ChannelNumbered(channels, chanByName, subscribed, released, nextChannel, id);
      DropKeepsOrder(channels, chanByName, subscribed, released, nextChannel, id, c.name);
      DropFromView(channels, chanByName, subscribed, released, nextChannel, id, c.name);
      DropArena(channels, chanByName, subscribed, released, nextChannel, id);
      channels, chanByName, subscribed, released :=
        channels - {id}, chanByName - {c.name}, subscribed - {id}, released - {id};
      arena := Some(c.arena);
    }

    /** Forget every channel in `ids`, handing back their arenas. */
    method DropAll(ids: set<nat>) returns (arenas: seq<string>)
      requires Valid() && ids <= channels.Keys
      modifies this`channels, this`chanByName, this`subscribed, this`released
      ensures Valid() && Chans() == Without(old(Chans()), ids)
      ensures NoDup(arenas) && Elements(arenas) <= old(ChanArenas(channels))
      ensures ChanArenas(channels) == old(ChanArenas(channels)) - Elements(arenas)
    {
      hide ChansOk, FnsOk, ViewChans, ChanArenas;
      ghost var view := Chans();
      ViewIdsUnique(channels, chanByName, subscribed, released, nextChannel);
      assert Without(view, {}) == view;
      var left := ids;
      arenas := [];
      while left != {}
        invariant Valid() && left <= ids && left <= channels.Keys
        invariant Chans() == Without(view, ids - left)
        invariant NoDup(arenas) && Elements(arenas) <= old(ChanArenas(channels))
        invariant ChanArenas(channels) == old(ChanArenas(channels)) - Elements(arenas)
        decreases left
      {
        var id :| id in left;
        ghost var name := channels[id].name;
        ghost var arenasBefore := ChanArenas(channels);
        ViewNames(channels, chanByName, subscribed, released, nextChannel, id);
        var arena := DropChannel(id);
        WithoutOneMore(view, ids - left, name, id);
        assert ids - left + {id} == ids - (left - {id});
        left := left - {id};
        ElementsPush(arenas, arena.value);
        arenas := arenas + [arena.value];
      }
    }

    /** Remove every channel `owner` has, handing back their arenas. */
    method RemoveClientChannels(owner: int) returns (arenas: seq<string>)
      requires Valid()
      modifies this`channels, this`chanByName, this`subscribed, this`released
      ensures Valid() && Chans() == Depart(old(View()), owner).chans
      ensures NoDup(arenas) && Elements(arenas) <= old(ChanArenas(channels))
      ensures ChanArenas(channels) == old(ChanArenas(channels)) - Elements(arenas)
    {
      hide ChansOk, FnsOk, ViewChans, ChanArenas, Without;
      OwnedInView(channels, chanByName, subscribed, released, nextChannel, owner);
      arenas := DropAll(set id | id in channels && channels[id].owner == owner);
    }

    /** Note that a channel has a subscriber. */
    method MarkSubscribed(id: nat)
      requires Valid() && id in channels
      modifies this`subscribed
      ensures Valid()
      ensures channels[id].name in old(Chans())
      ensures var n := channels[id].name; Chans() == old(Chans())[n := old(Chans())[n].(subscribed := true)]
    {
      hide ChansOk, FnsOk, ViewChans;
      MarkInView(channels, chanByName, subscribed, released, nextChannel, id);
      subscribed := subscribed + {id};
    }

    /** A publisher is done with `name`; only its owner may say so. */
    method ReleaseChannel(name: string, owner: int, now: nat) returns (r: Release)
      requires Valid()
      modifies this`channels, this`chanByName, this`subscribed, this`released
      ensures Valid() && Chans() == OnUnpublish(old(View()), owner, name, now).chans
      ensures r.Now? ==> r.arena in old(ChanArenas(channels))
      ensures ChanArenas(channels) == if r.Now? then old(ChanArenas(channels)) - {r.arena} else old(ChanArenas(channels))
    {
      hide ChansOk, FnsOk, ViewChans, ChanArenas;
      NameInView(channels, chanByName, subscribed, released, nextChannel, name);
      if name !in chanByName { return Refused; }
      var id := chanByName[name];
      if channels[id].owner != owner { return Refused; }
      if id in subscribed {
        var arena := DropChannel(id);
        return Now(arena.value);
      }
      ReleaseInView(channels, chanByName, subscribed, released, nextChannel, id, now);
      released := released[id := now];
      return Deferred;
    }

    /** Reclaim every deferred release past the grace. */
    method ReapReleased(now: nat) returns (arenas: seq<string>)
      requires Valid()
      modifies this`channels, this`chanByName, this`subscribed, this`released
      ensures Valid() && Chans() == Reap(old(View()), now).chans
      ensures NoDup(arenas) && Elements(arenas) <= old(ChanArenas(channels))
      ensures ChanArenas(channels) == old(ChanArenas(channels)) - Elements(arenas)
    {
      BookkeepingIsLive(channels, chanByName, subscribed, released, nextChannel);
      hide ChansOk, FnsOk, ViewChans, ChanArenas, Without;
      OverdueInView(channels, chanByName, subscribed, released, nextChannel, now);
      var due := set id | id in released && now - released[id] >= RELEASE_GRACE;
      arenas := DropAll(due);
    }

    /** Take back `name` if its publisher already released it. */
    method ReapIfReleased(name: string) returns (arena: Option<string>)
      requires Valid()
      modifies this`channels, this`chanByName, this`subscribed, this`released
      ensures Valid()
      ensures arena.Some? <==> name in old(Chans()) && old(Chans())[name].released.Some?
      ensures arena.Some? ==> Chans() == old(Chans()) - {name} && arena.value in old(ChanArenas(channels))
      ensures arena.Some? ==> ChanArenas(channels) == old(ChanArenas(channels)) - {arena.value}
      ensures arena.None? ==> Chans() == old(Chans()) && channels == old(channels)
    {
      hide ChansOk, FnsOk, ViewChans, ChanArenas;
      NameInView(channels, chanByName, subscribed, released, nextChannel, name);
      if name !in chanByName || chanByName[name] !in released { return None; }
      arena := DropChannel(chanByName[name]);
    }

    method AllocChannelId() returns (id: nat)
      requires Valid()
      modifies this`nextChannel
      ensures Valid() && id == old(nextChannel) && nextChannel == id + 1
      ensures id >= 1 && id !in channels && Chans() == old(Chans())
    {
      id := nextChannel;
      nextChannel := nextChannel + 1;
    }

    predicate ChannelNameTaken(name: string)
      reads this
    {
      name in chanByName
    }

    /** Enter a channel under its name, which has to be free. */
    method InsertChannel(c: ChannelMeta)
      requires Valid() && c.name !in Chans()
      requires c.id !in channels && 1 <= c.id < nextChannel && c.arena == ChannelArena(c.id)
      modifies this`channels, this`chanByName
      ensures Valid() && Chans() == old(Chans())[c.name := Chan(c.id, c.owner, c.fp, c.key, false, None)]
      ensures ChanArenas(channels) == old(ChanArenas(channels)) + {c.arena}
    {
      hide ChansOk, FnsOk, ViewChans, ChanArenas;
      NameInView(channels, chanByName, subscribed, released, nextChannel, c.name);
      InsertKeepsOrder(channels, chanByName, subscribed, released, nextChannel, c);
      InsertInView(channels, chanByName, subscribed, released, nextChannel, c);
      channels, chanByName := channels[c.id := c], chanByName[c.name := c.id];
    }

    // ---- functions -------------------------------------------------------

    method DropFunction(id: nat) returns (arena: string)
      requires Valid() && id in functions
      modifies this`functions, this`fnByName
      ensures Valid() && arena == FunctionArena(id) && arena in old(FnArenas(functions))
      ensures functions == old(functions) - {id} && Fns() == old(Fns()) - {old(functions)[id].name}
      ensures FnArenas(functions) == old(FnArenas(functions)) - {arena}
    {
      hide ChansOk, FnsOk, ViewFns, FnArenas;
      var f := functions[id];
      ViewFnNames(functions, fnByName, nextFn, id);
      DropFnKeepsOrder(functions, fnByName, nextFn, id, f.name);
      DropFnFromView(functions, fnByName, nextFn, id, f.name);
      DropFnArena(functions, fnByName, nextFn, id);
      functions, fnByName := functions - {id}, fnByName - {f.name};
      arena := f.reqArena;
    }

    /** Remove every function `owner` has, handing back their request arenas. */
    method RemoveClientFunctions(owner: int) returns (arenas: seq<string>)
      requires Valid()
      modifies this`functions, this`fnByName
      ensures Valid() && Fns() == Depart(old(View()), owner).fns
      ensures NoDup(arenas) && Elements(arenas) <= old(FnArenas(functions))
      ensures FnArenas(functions) == old(FnArenas(functions)) - Elements(arenas)
    {
      hide ChansOk, FnsOk, ViewFns, FnArenas;
      ghost var view := Fns();
      OwnedFnsInView(functions, fnByName, nextFn, owner);
      ViewFnIdsUnique(functions, fnByName, nextFn);
      assert WithoutFns(view, {}) == view;
      var ids := set id | id in functions && functions[id].owner == owner;
      var left := ids;
      arenas := [];
      while left != {}
        invariant Valid() && left <= ids && left <= functions.Keys
        invariant Fns() == WithoutFns(view, ids - left)
        invariant NoDup(arenas) && Elements(arenas) <= old(FnArenas(functions))
        invariant FnArenas(functions) == old(FnArenas(functions)) - Elements(arenas)
        decreases left
      {
        var id :| id in left;
        ViewFnNames(functions, fnByName, nextFn, id);
        ghost var name := functions[id].name;
        var arena := DropFunction(id);
        WithoutOneMoreFn(view, ids - left, name, id);
        assert ids - left + {id} == ids - (left - {id});
        left := left - {id};
        ElementsPush(arenas, arena);
        arenas := arenas + [arena];
      }
    }

    method AllocFnId() returns (id: nat)
      requires Valid()
      modifies this`nextFn
      ensures Valid() && id == old(nextFn) && nextFn == id + 1
      ensures id >= 1 && id !in functions && Fns() == old(Fns())
    {
      id := nextFn;
      nextFn := nextFn + 1;
    }

    predicate FunctionNameTaken(name: string)
      reads this
    {
      name in fnByName
    }

    method InsertFunction(f: FunctionMeta)
      requires Valid() && f.name !in Fns()
      requires f.id !in functions && 1 <= f.id < nextFn && f.reqArena == FunctionArena(f.id)
      modifies this`functions, this`fnByName
      ensures Valid() && Fns() == old(Fns())[f.name := Func(f.id, f.owner, f.reqFp, f.respFp, f.key)]
      ensures FnArenas(functions) == old(FnArenas(functions)) + {f.reqArena}
    {
      hide ChansOk, FnsOk, ViewFns, FnArenas;
      FnNameInView(functions, fnByName, nextFn, f.name);
      InsertFnKeepsOrder(functions, fnByName, nextFn, f);
      InsertFnInView(functions, fnByName, nextFn, f);
      functions, fnByName := functions[f.id := f], fnByName[f.name := f.id];
    }

    // ---- queries ---------------------------------------------------------

    /** The id table resolves a subscription just as the bus does by name. */
    function ResolveSubscribe(channelId: int, accessKey: string, expectedFp: nat, w: World): (r: Resolved)
      requires Valid()
      reads this
      ensures r.Granted? ==>
        Known(View(), channelId) && channelId in channels && NameOf(View(), channelId) == channels[channelId].name
      ensures !Known(View(), channelId) ==> r == Rejected(NotFound)
      ensures Known(View(), channelId) ==>
        var ch := Chans()[NameOf(View(), channelId)];
        r == if ch.key.Some? && ch.key.value != w.hash(accessKey) then Rejected(Denied)
             else if expectedFp != 0 && expectedFp != ch.fp then Rejected(SchemaMismatch)
             else Granted(ChannelArena(ch.id), ch.fp)
    {
      IdInView(View(), channels, chanByName, subscribed, released, channelId);
      if channelId !in channels then Rejected(NotFound) else
      var c := channels[channelId];
      if !KeyOk(c.key, accessKey, w) then Rejected(Denied)
      else if !FpOk(expectedFp, c.fp) then Rejected(SchemaMismatch)
      else Granted(c.arena, c.fp)
    }

    function ResolveLookup(name: string, accessKey: string, w: World): (r: Found)
      requires Valid()
      reads this
      ensures name !in Fns() ==> r == Missed(NotFound)
      ensures name in Fns() ==>
        var f := Fns()[name];
        r == if f.key.Some? && f.key.value != w.hash(accessKey) then Missed(Denied)
             else Hit(f.id, f.reqFp, f.respFp, FunctionArena(f.id))
    {
      if name !in fnByName then Missed(NotFound) else
      var f := functions[fnByName[name]];
      if !KeyOk(f.key, accessKey, w) then Missed(Denied)
      else Hit(f.id, f.reqFp, f.respFp, f.reqArena)
    }

    /** What there is to subscribe to. */
    function ListChannels(): (infos: set<ChannelInfo>)
      requires Valid()
      reads this
      ensures infos == set n | n in Chans() :: InfoOf(View(), n)
    {
      ListedInView(View(), channels, chanByName, subscribed, released);
      set id | id in channels :: Info(clients, channels[id])
    }
  }
}
