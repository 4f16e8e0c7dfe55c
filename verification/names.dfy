/** Segment names the broker gives its arenas. */
module Names {

  const DIGITS := "0123456789"

  function Decimal(n: nat): (s: string)
    ensures |s| >= 1
  {
    if n < 10 then [DIGITS[n]] else Decimal(n / 10) + [DIGITS[n % 10]]
  }

  function Value(s: string): int {
    if s == [] then 0 else 10 * Value(s[..|s| - 1]) + (s[|s| - 1] as int - '0' as int)
  }

  lemma DigitValue(d: nat)
    requires d < 10
    ensures DIGITS[d] as int - '0' as int == d
  {}

  lemma {:induction false} DecimalReads(n: nat)
    ensures Value(Decimal(n)) == n
  {
    if n < 10 {
      DigitValue(n);
      assert Value([]) == 0;
      assert Decimal(n)[..0] == [];
    } else {
      DecimalReads(n / 10);
      DigitValue(n % 10);
      assert Decimal(n)[..|Decimal(n)| - 1] == Decimal(n / 10);
    }
  }

  const CHANNEL_PREFIX := "/impulse-ring.arena."
  const FUNCTION_PREFIX := "/impulse-ring.fn."
  const SUFFIX := ".v1"

  function ChannelArena(id: nat): string { CHANNEL_PREFIX + Decimal(id) + SUFFIX }

  function FunctionArena(id: nat): string { FUNCTION_PREFIX + Decimal(id) + SUFFIX }

  lemma Middle(prefix: string, a: string, b: string, suffix: string)
    requires prefix + a + suffix == prefix + b + suffix
    ensures a == b
  {
    var s := prefix + a + suffix;
    assert |a| == |b|;
    assert a == s[|prefix|..|prefix| + |a|];
    assert b == s[|prefix|..|prefix| + |a|];
  }

  /** Different ids never share an arena name, and a channel's arena is never a
      function's. */
  lemma ArenaNamesDiffer(a: nat, b: nat)
    ensures ChannelArena(a) == ChannelArena(b) ==> a == b
    ensures FunctionArena(a) == FunctionArena(b) ==> a == b
    ensures ChannelArena(a) != FunctionArena(b)
  {
    DecimalReads(a);
    DecimalReads(b);
    if ChannelArena(a) == ChannelArena(b) {
      Middle(CHANNEL_PREFIX, Decimal(a), Decimal(b), SUFFIX);
    }
    if FunctionArena(a) == FunctionArena(b) {
      Middle(FUNCTION_PREFIX, Decimal(a), Decimal(b), SUFFIX);
    }
    assert ChannelArena(a)[14] == 'a';
    assert FunctionArena(b)[14] == 'f';
  }
}
