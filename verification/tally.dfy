/** How many elements of a sequence have a property, and what they hold between them. */
module Tallies {

  function Tally<T>(xs: seq<T>, p: T -> bool): nat {
    if xs == [] then 0 else (if p(xs[0]) then 1 else 0) + Tally(xs[1..], p)
  }

  function One<T>(x: T, p: T -> bool): nat { if p(x) then 1 else 0 }

  lemma {:induction false} TallyPush<T>(xs: seq<T>, x: T, p: T -> bool)
    ensures Tally(xs + [x], p) == Tally(xs, p) + One(x, p)
  {
    if xs != [] {
      assert (xs + [x])[1..] == xs[1..] + [x];
      TallyPush(xs[1..], x, p);
    } else {
      assert [] + [x] == [x] && [x][1..] == [];
    }
  }

  lemma {:induction false} TallySet<T>(xs: seq<T>, i: nat, x: T, p: T -> bool)
    requires i < |xs|
    ensures Tally(xs[i := x], p) + One(xs[i], p) == Tally(xs, p) + One(x, p)
  {
    if i > 0 {
      assert xs[i := x][1..] == xs[1..][i - 1 := x];
      TallySet(xs[1..], i - 1, x, p);
    } else {
      assert xs[0 := x][1..] == xs[1..];
    }
  }

  lemma {:induction false} TallySome<T>(xs: seq<T>, p: T -> bool)
    ensures Tally(xs, p) > 0 <==> exists i :: 0 <= i < |xs| && p(xs[i])
  {
    if xs != [] {
      TallySome(xs[1..], p);
      if i :| 0 <= i < |xs| && p(xs[i]) {
        if i > 0 { assert xs[1..][i - 1] == xs[i]; }
      }
    }
  }

  lemma {:induction false} TallyLess<T>(xs: seq<T>, p: T -> bool, q: T -> bool)
    requires forall x :: x in xs && p(x) ==> q(x)
    ensures Tally(xs, p) <= Tally(xs, q)
  {
    if xs != [] {
      assert forall x :: x in xs[1..] ==> x in xs;
      TallyLess(xs[1..], p, q);
    }
  }

  /** Everything a sequence of holders holds. */
  function Held<T, J>(xs: seq<T>, h: T -> multiset<J>): multiset<J> {
    if xs == [] then multiset{} else h(xs[0]) + Held(xs[1..], h)
  }

  lemma {:induction false} HeldPush<T, J>(xs: seq<T>, x: T, h: T -> multiset<J>)
    ensures Held(xs + [x], h) == Held(xs, h) + h(x)
  {
    if xs != [] {
      assert (xs + [x])[1..] == xs[1..] + [x];
      HeldPush(xs[1..], x, h);
    } else {
      assert [] + [x] == [x] && [x][1..] == [];
    }
  }

  lemma Shuffle<J>(a: multiset<J>, b: multiset<J>, c: multiset<J>, d: multiset<J>, e: multiset<J>)
    requires b + c == d + e
    ensures a + b + c == a + d + e
  {
    assert a + b + c == a + (b + c);
  }

  lemma {:induction false} HeldSet<T, J>(xs: seq<T>, i: nat, x: T, h: T -> multiset<J>)
    requires i < |xs|
    ensures Held(xs[i := x], h) + h(xs[i]) == Held(xs, h) + h(x)
  {
    if i > 0 {
      assert xs[i := x][1..] == xs[1..][i - 1 := x];
      HeldSet(xs[1..], i - 1, x, h);
      assert xs[i := x] != [] && xs[1..][i - 1] == xs[i];
      Shuffle(h(xs[0]), Held(xs[1..][i - 1 := x], h), h(xs[i]), Held(xs[1..], h), h(x));
    } else {
      assert xs[0 := x][1..] == xs[1..];
    }
  }

  /** What the elements of a sequence weigh together. */
  function Sum<T>(xs: seq<T>, w: T -> nat): nat {
    if xs == [] then 0 else w(xs[0]) + Sum(xs[1..], w)
  }

  lemma {:induction false} SumPush<T>(xs: seq<T>, x: T, w: T -> nat)
    ensures Sum(xs + [x], w) == Sum(xs, w) + w(x)
  {
    if xs != [] {
      assert (xs + [x])[1..] == xs[1..] + [x];
      SumPush(xs[1..], x, w);
    } else {
      assert [] + [x] == [x] && [x][1..] == [];
    }
  }

  lemma {:induction false} SumSet<T>(xs: seq<T>, i: nat, x: T, w: T -> nat)
    requires i < |xs|
    ensures Sum(xs[i := x], w) + w(xs[i]) == Sum(xs, w) + w(x)
  {
    if i > 0 {
      assert xs[i := x][1..] == xs[1..][i - 1 := x];
      SumSet(xs[1..], i - 1, x, w);
    } else {
      assert xs[0 := x][1..] == xs[1..];
    }
  }
}
