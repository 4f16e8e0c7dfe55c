/** Bitwise operators on unbounded naturals, and on two's-complement integers of
    unbounded width, defined bit by bit. The ring and the codec are written with
    `&`, `|`, `^`; the lemmas here say what those come to arithmetically. */
module Bits {

  function Pow2(k: nat): (p: nat)
    ensures p >= 1
  {
    if k == 0 then 1 else 2 * Pow2(k - 1)
  }

  function And(x: nat, y: nat): nat {
    if x == 0 || y == 0 then 0
    else 2 * And(x / 2, y / 2) + (if x % 2 == 1 && y % 2 == 1 then 1 else 0)
  }

  function Or(x: nat, y: nat): nat
    decreases x + y
  {
    if x == 0 then y else if y == 0 then x
    else 2 * Or(x / 2, y / 2) + (if x % 2 == 1 || y % 2 == 1 then 1 else 0)
  }

  function Xor(x: nat, y: nat): nat
    decreases x + y
  {
    if x == 0 then y else if y == 0 then x
    else 2 * Xor(x / 2, y / 2) + (if x % 2 != y % 2 then 1 else 0)
  }

  /** `x & ~y`. */
  function AndNot(x: nat, y: nat): nat {
    if x == 0 then 0 else if y == 0 then x
    else 2 * AndNot(x / 2, y / 2) + (if x % 2 == 1 && y % 2 == 0 then 1 else 0)
  }

  /** `^` on integers of unbounded width in two's complement (Python's and
      JavaScript BigInt's): a negative number is the complement of `-n - 1`. */
  function IntXor(x: int, y: int): int {
    if x >= 0 && y >= 0 then Xor(x, y)
    else if x < 0 && y < 0 then Xor(-x - 1, -y - 1)
    else if x < 0 then -1 - Xor(-x - 1, y)
    else -1 - Xor(x, -y - 1)
  }

  predicate IsPow2(c: nat) {
    c > 0 && (c == 1 || (c % 2 == 0 && IsPow2(c / 2)))
  }

  lemma {:induction false} Pow2IsPow2(k: nat)
    ensures IsPow2(Pow2(k))
  {
    if k > 0 { Pow2IsPow2(k - 1); }
  }

  lemma Pow2Double(k: nat)
    ensures Pow2(k + 1) == 2 * Pow2(k)
  {}

  lemma {:induction false} Pow2Exponent(c: nat) returns (k: nat)
    requires IsPow2(c)
    ensures c == Pow2(k)
  {
    if c == 1 { k := 0; } else {
      var j := Pow2Exponent(c / 2);
      k := j + 1;
    }
  }

  lemma {:induction false} Pow2Add(j: nat, k: nat)
    ensures Pow2(j + k) == Pow2(j) * Pow2(k)
  {
    if j > 0 {
      Pow2Add(j - 1, k);
      calc {
        Pow2(j + k);
        2 * Pow2(j - 1 + k);
        2 * (Pow2(j - 1) * Pow2(k));
        (2 * Pow2(j - 1)) * Pow2(k);
      }
    }
  }

  lemma {:induction false} Pow2Monotone(j: nat, k: nat)
    requires j <= k
    ensures Pow2(j) <= Pow2(k)
  {
    if j < k { Pow2Monotone(j, k - 1); }
  }

  /** `x & (2^k - 1)` is the remainder modulo `2^k`. */
  lemma {:induction false} AndMask(x: nat, k: nat)
    ensures And(x, Pow2(k) - 1) == x % Pow2(k)
  {
    if k == 0 {
      ModUnique(x, 1, x, 0);
    } else {
      AndMask(x / 2, k - 1);
      AndMaskStep(x, Pow2(k - 1), Pow2(k));
    }
  }

  lemma AndMaskStep(x: nat, p: nat, m: nat)
    requires p > 0 && m == 2 * p && And(x / 2, p - 1) == x / 2 % p
    ensures And(x, m - 1) == x % m
  {
    var r := x / 2 % p;
    assert x % m == 2 * r + x % 2 by { ModHalve(x, p); }
    assert And(x, m - 1) == 2 * And(x / 2, p - 1) + x % 2 by { AndOdd(x, p - 1); }
  }

  lemma AndOdd(x: nat, y: nat)
    ensures And(x, 2 * y + 1) == 2 * And(x / 2, y) + x % 2
  {}

  lemma ModHalve(x: nat, p: nat)
    requires p > 0
    ensures x % (2 * p) == 2 * (x / 2 % p) + x % 2
  {
    var h := x / 2;
    var q, r := h / p, h % p;
    assert h == p * q + r;
    assert 2 * (p * q) == (2 * p) * q;
    ModUnique(x, 2 * p, q, 2 * r + x % 2);
  }

  lemma MulAtLeast(m: nat, d: int)
    requires m > 0 && d >= 1
    ensures m * d >= m
  {}

  /** Quotient and remainder are the only pair that fits. */
  lemma ModUnique(x: int, m: nat, q: int, r: nat)
    requires r < m && x == m * q + r
    ensures x % m == r && x / m == q
  {
    var q', r' := x / m, x % m;
    var d := q - q';
    assert m * d == r' - r by {
      assert m * q' + r' == x;
      assert m * d == m * q - m * q';
    }
    if d >= 1 { MulAtLeast(m, d); }
    if d <= -1 {
      MulAtLeast(m, -d);
    }
  }

  /** The test the connectors make on a ring's capacity word. */
  lemma {:induction false} PowerOfTwoTest(c: nat)
    ensures IsPow2(c) <==> c != 0 && And(c, c - 1) == 0
  {
    if c > 1 {
      if c % 2 == 0 {
        PowerOfTwoTest(c / 2);
        assert (c - 1) / 2 == c / 2 - 1;
      } else {
        assert (c - 1) / 2 == c / 2;
        AndSelf(c / 2);
      }
    }
  }

  lemma {:induction false} AndSelf(x: nat)
    ensures And(x, x) == x
  {
    if x > 0 { AndSelf(x / 2); }
  }

  /** Bits above position `k` or-ed onto a number below `2^k` simply add. */
  lemma {:induction false} OrDisjoint(a: nat, b: nat, k: nat)
    requires a < Pow2(k)
    ensures Or(a, b * Pow2(k)) == a + b * Pow2(k)
  {
    if k > 0 && a > 0 && b > 0 {
      var p := Pow2(k - 1);
      OrDisjoint(a / 2, b, k - 1);
      assert b * Pow2(k) == 2 * (b * p);
      assert (b * Pow2(k)) / 2 == b * p && (b * Pow2(k)) % 2 == 0;
      assert b * Pow2(k) > 0;
    }
  }

  /** Xor with all ones is the complement. */
  lemma {:induction false} XorOnes(x: nat, k: nat)
    requires x < Pow2(k)
    ensures Xor(x, Pow2(k) - 1) == Pow2(k) - 1 - x
  {
    if k > 0 {
      var p := Pow2(k - 1);
      XorOnes(x / 2, k - 1);
      assert (2 * p - 1) / 2 == p - 1 && (2 * p - 1) % 2 == 1;
      if x > 0 {
        assert Xor(x, 2 * p - 1) == 2 * Xor(x / 2, p - 1) + (if x % 2 != 1 then 1 else 0);
      }
    }
  }

  /** What `& ~(2^k - 1)` leaves is what `& (2^k - 1)` takes. */
  lemma {:induction false} AndNotMask(x: nat, k: nat)
    ensures AndNot(x, Pow2(k) - 1) == x - x % Pow2(k)
  {
    if k == 0 {
      ModUnique(x, 1, x, 0);
    } else {
      AndNotMask(x / 2, k - 1);
      AndNotMaskStep(x, Pow2(k - 1), Pow2(k));
    }
  }

  lemma AndNotMaskStep(x: nat, p: nat, m: nat)
    requires p > 0 && m == 2 * p && AndNot(x / 2, p - 1) == x / 2 - x / 2 % p
    ensures AndNot(x, m - 1) == x - x % m
  {
    var r := x / 2 % p;
    assert x % m == 2 * r + x % 2 by { ModHalve(x, p); }
    assert AndNot(x, m - 1) == 2 * AndNot(x / 2, p - 1) by { AndNotOdd(x, p - 1); }
  }

  lemma AndNotOdd(x: nat, y: nat)
    ensures AndNot(x, 2 * y + 1) == 2 * AndNot(x / 2, y)
  {}

  /** The test of a single bit. */
  lemma {:induction false} AndBit(x: nat, k: nat)
    ensures And(x, Pow2(k)) == if x / Pow2(k) % 2 == 1 then Pow2(k) else 0
  {
    if k == 0 {
      assert And(x, 1) == 2 * And(x / 2, 0) + x % 2;
      ModUnique(x, 1, x, 0);
    } else {
      AndBit(x / 2, k - 1);
      AndBitStep(x, Pow2(k - 1), Pow2(k));
    }
  }

  lemma AndBitStep(x: nat, p: nat, m: nat)
    requires p > 0 && m == 2 * p && And(x / 2, p) == if x / 2 / p % 2 == 1 then p else 0
    ensures And(x, m) == if x / m % 2 == 1 then m else 0
  {
    var h := x / 2;
    var q, r := h / p, h % p;
    assert x == m * q + (2 * r + x % 2) by {
      assert h == p * q + r;
      assert 2 * (p * q) == m * q;
    }
    ModUnique(x, m, q, 2 * r + x % 2);
    assert And(x, m) == 2 * And(h, p) by { AndEven(x, p); }
  }

  lemma AndEven(x: nat, y: nat)
    ensures And(x, 2 * y) == 2 * And(x / 2, y)
  {}
}
