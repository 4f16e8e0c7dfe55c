/** Capacities the broker grants. */
module Control {
  import opened Bits

  const ARENA_CAP: nat := 0x8_0000         // 2^19
  const MIN_ARENA_CAP: nat := 0x4_0000     // 2^18
  const MAX_ARENA_CAP: nat := 0x800_0000   // 2^27

  /** The least power of two, doubling from `p`, that is at least `n`. */
  function NextPowerOfTwo(n: nat, p: nat): nat
    requires p > 0
    decreases n - p
  {
    if p >= n then p else NextPowerOfTwo(n, 2 * p)
  }

  function Clamp(x: nat, lo: nat, hi: nat): nat {
    if x < lo then lo else if x > hi then hi else x
  }

  /** A requested arena capacity as a legal ring capacity. */
  function ClampArenaCap(requested: nat): nat {
    if requested == 0 then ARENA_CAP
    else NextPowerOfTwo(Clamp(requested, MIN_ARENA_CAP, MAX_ARENA_CAP), 1)
  }

  predicate LegalCap(cap: nat) {
    IsPow2(cap) && MIN_ARENA_CAP <= cap <= MAX_ARENA_CAP
  }

  lemma {:induction false} NextIsLeast(n: nat, p: nat, q: nat)
    requires IsPow2(p) && IsPow2(q) && q >= n && q >= p
    ensures var r := NextPowerOfTwo(n, p); IsPow2(r) && n <= r <= q
    decreases n - p
  {
    Doubled(p);
    hide IsPow2;
    if p < n {
      DoubleBelow(p, q);
      NextIsLeast(n, 2 * p, q);
    }
  }

  lemma Doubled(p: nat)
    requires IsPow2(p)
    ensures IsPow2(2 * p)
  {}

  /** Between a power of two and its double there is no other. */
  lemma {:induction false} DoubleBelow(p: nat, q: nat)
    requires IsPow2(p) && IsPow2(q) && p < q
    ensures 2 * p <= q
  {
    if p > 1 {
      DoubleBelow(p / 2, q / 2);
    }
  }

  lemma Bounds()
    ensures IsPow2(ARENA_CAP) && IsPow2(MIN_ARENA_CAP) && IsPow2(MAX_ARENA_CAP)
  {
    Pow2IsPow2(18);
    Pow2IsPow2(19);
    Pow2IsPow2(27);
    assert Pow2(9) == 512;
    Pow2Add(9, 9);
    Pow2Add(18, 1);
    Pow2Add(18, 9);
  }

  /** Whatever was asked for, the grant is a legal capacity: 512 KiB for who asks for
      nothing, the most there is for who asks for more than that, and otherwise the
      smallest one that holds what was asked for. */
  lemma ClampIsLeastLegal(requested: nat, q: nat)
    requires requested > 0
    ensures LegalCap(ClampArenaCap(requested)) && LegalCap(ClampArenaCap(0)) && ClampArenaCap(0) == 512 * 1024
    ensures requested <= MAX_ARENA_CAP ==> requested <= ClampArenaCap(requested)
    ensures requested > MAX_ARENA_CAP ==> ClampArenaCap(requested) == 128 * 1024 * 1024
    ensures LegalCap(q) && q >= requested ==> ClampArenaCap(requested) <= q
  {
    Bounds();
    var n := Clamp(requested, MIN_ARENA_CAP, MAX_ARENA_CAP);
    NextIsLeast(n, 1, MAX_ARENA_CAP);
    if LegalCap(q) && q >= requested {
      NextIsLeast(n, 1, q);
    }
  }
}
