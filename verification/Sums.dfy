/** Folds over indexed families: totals and bags collected from every element of a sequence. */
module Sums {

  function SumBy<T>(xs: seq<T>, f: T -> int): int {
    if xs == [] then 0 else f(xs[0]) + SumBy(xs[1..], f)
  }

  function BagBy<T, V>(xs: seq<T>, f: T -> multiset<V>): multiset<V> {
    if xs == [] then multiset{} else f(xs[0]) + BagBy(xs[1..], f)
  }

  lemma {:induction false} SumByUpdate<T>(xs: seq<T>, i: nat, x: T, f: T -> int)
    requires i < |xs|
    ensures SumBy(xs[i := x], f) == SumBy(xs, f) - f(xs[i]) + f(x)
  {
    if i == 0 {
      assert xs[i := x][1..] == xs[1..];
    } else {
      assert xs[i := x][1..] == xs[1..][i - 1 := x];
      SumByUpdate(xs[1..], i - 1, x, f);
    }
  }

  lemma {:induction false} SumByConcat<T>(xs: seq<T>, ys: seq<T>, f: T -> int)
    ensures SumBy(xs + ys, f) == SumBy(xs, f) + SumBy(ys, f)
  {
    if xs == [] {
      assert xs + ys == ys;
    } else {
      assert (xs + ys)[1..] == xs[1..] + ys;
      SumByConcat(xs[1..], ys, f);
    }
  }

  lemma SumByPush<T>(xs: seq<T>, x: T, f: T -> int)
    ensures SumBy(xs + [x], f) == SumBy(xs, f) + f(x)
  {
    SumByConcat(xs, [x], f);
    assert [x][1..] == [];
    assert SumBy([x], f) == f(x) + SumBy([x][1..], f);
  }

  lemma SumByLast<T>(xs: seq<T>, f: T -> int)
    requires xs != []
    ensures SumBy(xs, f) == SumBy(xs[..|xs| - 1], f) + f(xs[|xs| - 1])
  {
    assert xs == xs[..|xs| - 1] + [xs[|xs| - 1]];
    SumByPush(xs[..|xs| - 1], xs[|xs| - 1], f);
  }

  /** A family of equal members sums to a multiple of the common value. */
  lemma {:induction false} SumByConstant<T>(xs: seq<T>, f: T -> int, v: int)
    requires forall x :: x in xs ==> f(x) == v
    ensures SumBy(xs, f) == |xs| * v
  {
    if xs != [] {
      SumByConstant(xs[1..], f, v);
    }
  }

  lemma {:induction false} SumByNonNegative<T>(xs: seq<T>, f: T -> int)
    requires forall x :: x in xs ==> f(x) >= 0
    ensures SumBy(xs, f) >= 0
    ensures forall i :: 0 <= i < |xs| ==> f(xs[i]) <= SumBy(xs, f)
  {
    if xs != [] {
      SumByNonNegative(xs[1..], f);
      forall i | 0 <= i < |xs| ensures f(xs[i]) <= SumBy(xs, f) {
        if i > 0 {
          assert xs[i] == xs[1..][i - 1];
        }
      }
    }
  }

  lemma {:induction false} SumByWitness<T>(xs: seq<T>, f: T -> int) returns (i: nat)
    requires SumBy(xs, f) > 0
    ensures i < |xs| && f(xs[i]) > 0
  {
    if f(xs[0]) > 0 {
      i := 0;
    } else {
      var k := SumByWitness(xs[1..], f);
      i := k + 1;
    }
  }

  lemma {:induction false} SumByAdds<T>(xs: seq<T>, f: T -> int, g: T -> int, h: T -> int)
    requires forall x :: x in xs ==> f(x) == g(x) + h(x)
    ensures SumBy(xs, f) == SumBy(xs, g) + SumBy(xs, h)
  {
    if xs != [] {
      SumByAdds(xs[1..], f, g, h);
    }
  }

  /** Members of at most v each sum to at most as many times v. */
  lemma {:induction false} SumByAtMost<T>(xs: seq<T>, f: T -> int, v: int)
    requires forall x :: x in xs ==> f(x) <= v
    ensures SumBy(xs, f) <= |xs| * v
  {
    if xs != [] {
      SumByAtMost(xs[1..], f, v);
    }
  }

  /** Two families that agree position by position have the same total. */
  lemma {:induction false} SumBySame<T, U>(xs: seq<T>, f: T -> int, ys: seq<U>, g: U -> int)
    requires |xs| == |ys| && forall i :: 0 <= i < |xs| ==> f(xs[i]) == g(ys[i])
    ensures SumBy(xs, f) == SumBy(ys, g)
  {
    if xs != [] {
      forall i | 0 <= i < |xs[1..]| ensures f(xs[1..][i]) == g(ys[1..][i]) {
        assert f(xs[i + 1]) == g(ys[i + 1]);
      }
      SumBySame(xs[1..], f, ys[1..], g);
    }
  }

  lemma RemoveAt<T>(xs: seq<T>, k: nat)
    requires k < |xs|
    ensures multiset(xs) == multiset(xs[..k] + xs[k + 1..]) + multiset{xs[k]}
  {
    assert xs == xs[..k] + [xs[k]] + xs[k + 1..];
  }

  lemma CancelOne<T>(a: multiset<T>, b: multiset<T>, x: T)
    requires a + multiset{x} == b + multiset{x}
    ensures a == b
  {
    assert a == (a + multiset{x}) - multiset{x};
    assert b == (b + multiset{x}) - multiset{x};
  }

  lemma SumByRemove<T>(xs: seq<T>, k: nat, f: T -> int)
    requires k < |xs|
    ensures SumBy(xs, f) == f(xs[k]) + SumBy(xs[..k] + xs[k + 1..], f)
  {
    var front, back := xs[..k], xs[k + 1..];
    var rest := [xs[k]] + back;
    assert rest[0] == xs[k] && rest[1..] == back;
    SumByConcat(front, rest, f);
    SumByConcat(front, back, f);
    assert xs == front + rest;
  }

  /** Some member of ys is the first of xs, and without it ys is a rearrangement of the rest. */
  lemma FindFirst<T>(xs: seq<T>, ys: seq<T>) returns (k: nat)
    requires multiset(xs) == multiset(ys) && xs != []
    ensures k < |ys| && ys[k] == xs[0] && multiset(xs[1..]) == multiset(ys[..k] + ys[k + 1..])
  {
    assert xs[0] in multiset(ys);
    k :| 0 <= k < |ys| && ys[k] == xs[0];
    RemoveAt(ys, k);
    RemoveAt(xs, 0);
    assert xs[..0] + xs[1..] == xs[1..];
    CancelOne(multiset(xs[1..]), multiset(ys[..k] + ys[k + 1..]), xs[0]);
  }

  /** A total does not depend on the order. */
  lemma {:induction false} SumByPermuted<T>(xs: seq<T>, ys: seq<T>, f: T -> int)
    requires multiset(xs) == multiset(ys)
    ensures SumBy(xs, f) == SumBy(ys, f)
  {
    if xs == [] {
      assert |multiset(xs)| == |multiset(ys)|;
    } else {
      var k := FindFirst(xs, ys);
      SumByPermuted(xs[1..], ys[..k] + ys[k + 1..], f);
      SumByRemove(ys, k, f);
    }
  }
}
