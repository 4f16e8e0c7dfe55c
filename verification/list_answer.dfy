/** The broker's list of channels, from its record to the connectors' loops. */
module ListAnswers {
  import opened Records
  import opened Avro
  import opened ChannelLists
  import opened PythonLists
  import opened Proto

  /** The record's array is one block, or none. */
  function OneBlock(xs: seq<Info>): seq<Block> {
    if xs == [] then [] else [Block(xs, None)]
  }

  lemma ListBodyIsArray(corr: int, xs: seq<Info>)
    ensures EncRecord([Number(corr), Infos(xs)]) == EncLong(corr) + EncBlocks(OneBlock(xs))
    ensures Items(OneBlock(xs)) == xs
  {
    hide EncLong, EncItems;
    assert [Number(corr), Infos(xs)][1..] == [Infos(xs)];
    assert EncRecord([Infos(xs)]) == EncValue(Infos(xs)) + EncRecord([]);
    assert EncRecord([Infos(xs)]) == EncValue(Infos(xs));
    if xs != [] {
      assert OneBlock(xs)[1..] == [];
      assert EncBlocks([]) == EncLong(0);
    }
  }

  /** What the broker encodes as its answer to ListChannels, both loops read back: Go's
      always, and Python's if the names are UTF-8. */
  lemma ListIsReadByBoth(corr: int, xs: seq<Info>, utf8: bytes -> bool)
    requires Typed([Number(corr), Infos(xs)], FieldsOf(ChannelList))
    requires |EncRecord([Number(corr), Infos(xs)])| < INT_LIMIT
    ensures var body := EncRecord([Number(corr), Infos(xs)]);
      && ListedGo(body, LongAtGo(body, 0).1, []) == Some(xs)
      && ((forall x :: x in xs ==> utf8(x.name) && utf8(x.owner)) ==>
            forall turns: nat :: turns >= 1 ==> Listed(body, utf8, turns) == Returned(xs))
  {
    var vs, body := [Number(corr), Infos(xs)], EncRecord([Number(corr), Infos(xs)]);
    assert HasType(vs[0], FieldsOf(ChannelList)[0].ty) && HasType(vs[1], FieldsOf(ChannelList)[1].ty);
    ListBodyIsArray(corr, xs);
    hide EncRecord, EncLong, EncBlocks, ListedGo, Listed, LongAtGo, Fits, Items;
    var bs := OneBlock(xs);
    WholeBody(body);
    ArrayIsReadGo(body, corr, bs);
    if forall x :: x in xs ==> utf8(x.name) && utf8(x.owner) {
      forall turns: nat | turns >= 1 ensures Listed(body, utf8, turns) == Returned(xs) {
        ArrayIsRead(body, utf8, corr, bs, turns);
      }
    }
  }

  lemma WholeBody(body: bytes)
    ensures At(body, 0, body)
  {}
}
