/** Finite sums of reals, the arithmetic that SQL aggregates and Python's `sum` share. */
module Sums {

  function Min(a: real, b: real): real {
    if a <= b then a else b
  }

  function Max(a: real, b: real): real {
    if a >= b then a else b
  }

  function Abs(a: real): real {
    if a >= 0.0 then a else -a
  }

  function Sum<T>(s: seq<T>, f: T -> real): real {
    if s == [] then 0.0 else Sum(s[..|s| - 1], f) + f(s[|s| - 1])
  }

  ghost predicate Distinct<T(!new)>(s: seq<T>) {
    forall i, j | 0 <= i < j < |s| :: s[i] != s[j]
  }

  lemma SumSnoc<T>(s: seq<T>, x: T, f: T -> real)
    ensures Sum(s + [x], f) == Sum(s, f) + f(x)
  {
    assert (s + [x])[..|s|] == s;
  }

  lemma {:induction false} SumConcat<T>(s: seq<T>, t: seq<T>, f: T -> real)
    ensures Sum(s + t, f) == Sum(s, f) + Sum(t, f)
  {
    if t == [] {
      assert s + t == s;
    } else {
      var t0 := t[..|t| - 1];
      SumConcat(s, t0, f);
      assert (s + t)[..|s + t| - 1] == s + t0;
    }
  }

  lemma {:induction false} SumPointwise<T>(s: seq<T>, f: T -> real, g: T -> real)
    requires forall i | 0 <= i < |s| :: f(s[i]) == g(s[i])
    ensures Sum(s, f) == Sum(s, g)
  {
    if s != [] {
      SumPointwise(s[..|s| - 1], f, g);
    }
  }

  lemma {:induction false} SumMonotone<T>(s: seq<T>, f: T -> real, g: T -> real)
    requires forall i | 0 <= i < |s| :: f(s[i]) <= g(s[i])
    ensures Sum(s, f) <= Sum(s, g)
  {
    if s != [] {
      SumMonotone(s[..|s| - 1], f, g);
    }
  }

  lemma {:induction false} SumZero<T>(s: seq<T>, f: T -> real)
    requires forall i | 0 <= i < |s| :: f(s[i]) == 0.0
    ensures Sum(s, f) == 0.0
  {
    if s != [] {
      SumZero(s[..|s| - 1], f);
    }
  }

  lemma {:induction false} SumNonNegative<T>(s: seq<T>, f: T -> real)
    requires forall i | 0 <= i < |s| :: f(s[i]) >= 0.0
    ensures Sum(s, f) >= 0.0
  {
    if s != [] {
      SumNonNegative(s[..|s| - 1], f);
    }
  }

  lemma {:induction false} SumAdd<T>(s: seq<T>, f: T -> real, g: T -> real, h: T -> real)
    requires forall i | 0 <= i < |s| :: h(s[i]) == f(s[i]) + g(s[i])
    ensures Sum(s, h) == Sum(s, f) + Sum(s, g)
  {
    if s != [] {
      SumAdd(s[..|s| - 1], f, g, h);
    }
  }

  lemma {:induction false} SumScale<T>(s: seq<T>, c: real, f: T -> real, h: T -> real)
    requires forall i | 0 <= i < |s| :: h(s[i]) == c * f(s[i])
    ensures Sum(s, h) == c * Sum(s, f)
  {
    if s != [] {
      SumScale(s[..|s| - 1], c, f, h);
    }
  }

  /** A sum of absolute values bounds the absolute value of the sum. */
  lemma {:induction false} SumTriangle<T>(s: seq<T>, f: T -> real, g: T -> real)
    requires forall i | 0 <= i < |s| :: g(s[i]) == Abs(f(s[i]))
    ensures Abs(Sum(s, f)) <= Sum(s, g)
  {
    if s != [] {
      SumTriangle(s[..|s| - 1], f, g);
    }
  }

  /** If f is zero away from the one occurrence of x, the sum is f(x). */
  lemma {:induction false} SumSelect<T(!new)>(s: seq<T>, x: T, f: T -> real)
    requires Distinct(s)
    requires forall y | y in s && y != x :: f(y) == 0.0
    ensures Sum(s, f) == if x in s then f(x) else 0.0
  {
    if s != [] {
      var s0 := s[..|s| - 1];
      SumSelect(s0, x, f);
      assert forall y | y in s :: y in s0 || y == s[|s| - 1];
      assert s[|s| - 1] !in s0;
    }
  }

  /** The order of the summands does not matter. */
  lemma {:induction false} SumPermutation<T>(s: seq<T>, t: seq<T>, f: T -> real)
    requires multiset(s) == multiset(t)
    ensures Sum(s, f) == Sum(t, f)
  {
    if s == [] {
      assert |multiset(t)| == 0;
    } else {
      var x := s[|s| - 1];
      var s0 := s[..|s| - 1];
      assert s == s0 + [x];
      assert x in multiset(t);
      var k :| 0 <= k < |t| && t[k] == x;
      var t0 := t[..k] + t[k + 1..];
      assert t == t[..k] + [x] + t[k + 1..];
      assert multiset(s0) == multiset(s) - multiset{x};
      assert multiset(t0) == multiset(t) - multiset{x};
      SumPermutation(s0, t0, f);
      SumConcat(t[..k], t[k + 1..], f);
      SumConcat(t[..k] + [x], t[k + 1..], f);
      SumSnoc(t[..k], x, f);
    }
  }

  /** The part of f that falls on the summands whose key is j. */
  function Bucket<T>(f: T -> real, key: T -> int, j: int): T -> real {
    (x: T) => if key(x) == j then f(x) else 0.0
  }

  function Under<T>(f: T -> real, key: T -> int, n: int): T -> real {
    (x: T) => if key(x) < n then f(x) else 0.0
  }

  lemma {:induction false} GroupsUnderCancel<T>(s: seq<T>, f: T -> real, key: T -> int, n: nat)
    requires forall i | 0 <= i < |s| :: 0 <= key(s[i])
    requires forall j | 0 <= j < n :: Sum(s, Bucket(f, key, j)) == 0.0
    ensures Sum(s, Under(f, key, n)) == 0.0
  {
    if n == 0 {
      SumZero(s, Under(f, key, 0));
    } else {
      GroupsUnderCancel(s, f, key, n - 1);
      SumAdd(s, Under(f, key, n - 1), Bucket(f, key, n - 1), Under(f, key, n));
    }
  }

  /** If every group of summands cancels, so does the whole. */
  lemma GroupsCancel<T>(s: seq<T>, f: T -> real, key: T -> int, n: nat)
    requires forall i | 0 <= i < |s| :: 0 <= key(s[i]) < n
    requires forall j | 0 <= j < n :: Sum(s, Bucket(f, key, j)) == 0.0
    ensures Sum(s, f) == 0.0
  {
    GroupsUnderCancel(s, f, key, n);
    SumPointwise(s, Under(f, key, n), f);
  }

  /** Summands 2k and 2k + 1 cancel. */
  ghost predicate CancelAt<T>(s: seq<T>, f: T -> real, k: nat) {
    2 * k + 1 < |s| && f(s[2 * k]) + f(s[2 * k + 1]) == 0.0
  }

  lemma {:induction false} PairsCancel<T>(s: seq<T>, f: T -> real, n: nat)
    requires |s| == 2 * n
    requires forall k :: 0 <= k < n ==> CancelAt(s, f, k)
    ensures Sum(s, f) == 0.0
  {
    if n > 0 {
      var s0 := s[..2 * (n - 1)];
      forall k | 0 <= k < n - 1 ensures CancelAt(s0, f, k) {
        assert CancelAt(s, f, k);
      }
      PairsCancel(s0, f, n - 1);
      assert CancelAt(s, f, n - 1);
      assert s == s0 + [s[2 * n - 2]] + [s[2 * n - 1]];
      SumSnoc(s0, s[2 * n - 2], f);
      SumSnoc(s0 + [s[2 * n - 2]], s[2 * n - 1], f);
    }
  }

  lemma {:induction false} SumUpdate<T>(s: seq<T>, i: nat, x: T, f: T -> real)
    requires i < |s|
    ensures Sum(s[i := x], f) == Sum(s, f) - f(s[i]) + f(x)
  {
    var n := |s| - 1;
    if i < n {
      SumUpdate(s[..n], i, x, f);
      assert s[i := x][..n] == s[..n][i := x];
    } else {
      assert s[i := x][..n] == s[..n];
    }
  }
}
