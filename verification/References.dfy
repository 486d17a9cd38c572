/** Sums over sequences, for counting references. */
module References {
  function Sum<T>(xs: seq<T>, f: T -> nat): nat {
    if xs == [] then 0 else f(xs[0]) + Sum(xs[1..], f)
  }

  lemma {:induction false} SumUpdate<T>(xs: seq<T>, k: nat, x: T, f: T -> nat)
    requires k < |xs|
    ensures Sum(xs[k := x], f) + f(xs[k]) == Sum(xs, f) + f(x)
  {
    if k == 0 {
      assert xs[k := x][1..] == xs[1..];
    } else {
      SumUpdate(xs[1..], k - 1, x, f);
      assert xs[k := x][1..] == xs[1..][k - 1 := x];
    }
  }

  lemma {:induction false} SumConcat<T>(xs: seq<T>, ys: seq<T>, f: T -> nat)
    ensures Sum(xs + ys, f) == Sum(xs, f) + Sum(ys, f)
  {
    if xs == [] {
      assert xs + ys == ys;
    } else {
      SumConcat(xs[1..], ys, f);
      assert (xs + ys)[1..] == xs[1..] + ys;
    }
  }

  lemma SumAppend<T>(xs: seq<T>, x: T, f: T -> nat)
    ensures Sum(xs + [x], f) == Sum(xs, f) + f(x)
  {
    SumConcat(xs, [x], f);
    assert [x][1..] == [];
  }

  lemma {:induction false} SumMember<T>(xs: seq<T>, k: nat, f: T -> nat)
    requires k < |xs|
    ensures f(xs[k]) <= Sum(xs, f)
  {
    if k > 0 {
      SumMember(xs[1..], k - 1, f);
    }
  }

  lemma {:induction false} SumPair<T>(xs: seq<T>, j: nat, k: nat, f: T -> nat)
    requires j < k < |xs|
    ensures f(xs[j]) + f(xs[k]) <= Sum(xs, f)
  {
    if j > 0 {
      SumPair(xs[1..], j - 1, k - 1, f);
    } else {
      SumMember(xs[1..], k - 1, f);
    }
  }

  lemma {:induction false} SumEqual<T>(xs: seq<T>, ys: seq<T>, f: T -> nat)
    requires |xs| == |ys| && forall k :: 0 <= k < |xs| ==> f(xs[k]) == f(ys[k])
    ensures Sum(xs, f) == Sum(ys, f)
  {
    if xs != [] {
      SumEqual(xs[1..], ys[1..], f);
    }
  }

  lemma {:induction false} SumAgrees<T>(xs: seq<T>, f: T -> nat, g: T -> nat)
    requires forall k :: 0 <= k < |xs| ==> f(xs[k]) == g(xs[k])
    ensures Sum(xs, f) == Sum(xs, g)
  {
    if xs != [] {
      SumAgrees(xs[1..], f, g);
    }
  }

  lemma {:induction false} SumZero<T>(xs: seq<T>, f: T -> nat)
    requires forall k :: 0 <= k < |xs| ==> f(xs[k]) == 0
    ensures Sum(xs, f) == 0
  {
    if xs != [] {
      SumZero(xs[1..], f);
    }
  }

  lemma {:induction false} SumPositive<T>(xs: seq<T>, f: T -> nat) returns (k: nat)
    requires Sum(xs, f) > 0
    ensures k < |xs| && f(xs[k]) > 0
  {
    if f(xs[0]) > 0 {
      k := 0;
    } else {
      var j := SumPositive(xs[1..], f);
      k := j + 1;
    }
  }

  lemma {:induction false} SumSmaller<T>(xs: seq<T>, ys: seq<T>, f: T -> nat)
    requires |xs| == |ys| && forall k :: 0 <= k < |xs| ==> f(xs[k]) <= f(ys[k])
    ensures Sum(xs, f) <= Sum(ys, f)
  {
    if xs != [] {
      SumSmaller(xs[1..], ys[1..], f);
    }
  }

  lemma {:induction false} SumBounded<T>(xs: seq<T>, f: T -> nat, bound: nat)
    requires forall x :: x in xs ==> f(x) <= bound
    ensures Sum(xs, f) <= bound * |xs|
  {
    if xs != [] {
      SumBounded(xs[1..], f, bound);
    }
  }

  lemma ConcatAssociative<T>(xs: seq<T>, ys: seq<T>, zs: seq<T>)
    ensures xs + (ys + zs) == xs + ys + zs
  {
  }

  function Is(x: nat): nat -> nat {
    (y: nat) => if y == x then 1 else 0
  }

  /** How often a sequence names a number. */
  function Occurs(xs: seq<nat>, x: nat): nat {
    Sum(xs, Is(x))
  }

  lemma OccursConcat(xs: seq<nat>, ys: seq<nat>, x: nat)
    ensures Occurs(xs + ys, x) == Occurs(xs, x) + Occurs(ys, x)
  {
    SumConcat(xs, ys, Is(x));
  }

  lemma OccursAppend(xs: seq<nat>, y: nat, x: nat)
    ensures Occurs(xs + [y], x) == Occurs(xs, x) + if y == x then 1 else 0
  {
    SumAppend(xs, y, Is(x));
  }

  lemma {:induction false} OccursMember(xs: seq<nat>, x: nat)
    ensures Occurs(xs, x) > 0 <==> x in xs
  {
    if xs != [] {
      OccursMember(xs[1..], x);
      assert xs == [xs[0]] + xs[1..];
    }
  }

  lemma {:induction false} OccursTwice(xs: seq<nat>, j: nat, k: nat)
    requires j < k < |xs| && xs[j] == xs[k]
    ensures Occurs(xs, xs[j]) >= 2
  {
    if j == 0 {
      assert xs[k] == xs[1..][k - 1];
      OccursMember(xs[1..], xs[k]);
    } else {
      OccursTwice(xs[1..], j - 1, k - 1);
    }
  }

  /** A sequence without its element at `k`. */
  function Without<T>(xs: seq<T>, k: nat): (r: seq<T>)
    requires k < |xs|
    ensures |r| == |xs| - 1
  {
    xs[..k] + xs[k + 1..]
  }

  lemma {:induction false} SumWithout<T>(xs: seq<T>, k: nat, f: T -> nat)
    requires k < |xs|
    ensures Sum(xs, f) == Sum(Without(xs, k), f) + f(xs[k])
  {
    if k == 0 {
      assert Without(xs, 0) == xs[1..];
    } else {
      SumWithout(xs[1..], k - 1, f);
      assert Without(xs, k) == [xs[0]] + Without(xs[1..], k - 1);
    }
  }
}
