// Images and sums over finite multisets.
module Bags {

  ghost function Image<T, U>(m: multiset<T>, f: T -> U): multiset<U>
    decreases |m|
  {
    if m == multiset{} then multiset{}
    else var x :| x in m; Image(m - multiset{x}, f) + multiset{f(x)}
  }

  ghost function Sum<T>(m: multiset<T>, f: T -> int): int
    decreases |m|
  {
    if m == multiset{} then 0
    else var x :| x in m; Sum(m - multiset{x}, f) + f(x)
  }

  lemma {:induction false} ImageRemove<T, U>(m: multiset<T>, f: T -> U, x: T)
    requires x in m
    ensures Image(m, f) == Image(m - multiset{x}, f) + multiset{f(x)}
    decreases |m|
  {
    var y :| y in m && Image(m, f) == Image(m - multiset{y}, f) + multiset{f(y)};
    if y != x {
      var rest := m - multiset{x} - multiset{y};
      assert m - multiset{y} - multiset{x} == rest;
      ImageRemove(m - multiset{y}, f, x);
      ImageRemove(m - multiset{x}, f, y);
      assert Image(m, f) == (Image(rest, f) + multiset{f(x)}) + multiset{f(y)};
    }
  }

  lemma ImageAdd<T, U>(m: multiset<T>, f: T -> U, x: T)
    ensures Image(m + multiset{x}, f) == Image(m, f) + multiset{f(x)}
  {
    ImageRemove(m + multiset{x}, f, x);
    assert m + multiset{x} - multiset{x} == m;
  }

  lemma {:induction false} ImageUnion<T, U>(m: multiset<T>, n: multiset<T>, f: T -> U)
    ensures Image(m + n, f) == Image(m, f) + Image(n, f)
    decreases |n|
  {
    if n == multiset{} {
      assert m + n == m;
    } else {
      var x :| x in n;
      var n' := n - multiset{x};
      assert n == n' + multiset{x} && m + n == (m + n') + multiset{x};
      ImageUnion(m, n', f);
      ImageAdd(m + n', f, x);
      ImageAdd(n', f, x);
    }
  }

  lemma {:induction false} SumRemove<T>(m: multiset<T>, f: T -> int, x: T)
    requires x in m
    ensures Sum(m, f) == Sum(m - multiset{x}, f) + f(x)
    decreases |m|
  {
    var y :| y in m && Sum(m, f) == Sum(m - multiset{y}, f) + f(y);
    if y != x {
      SumRemove(m - multiset{y}, f, x);
      SumRemove(m - multiset{x}, f, y);
      assert m - multiset{y} - multiset{x} == m - multiset{x} - multiset{y};
    }
  }

  lemma SumAdd<T>(m: multiset<T>, f: T -> int, x: T)
    ensures Sum(m + multiset{x}, f) == Sum(m, f) + f(x)
  {
    SumRemove(m + multiset{x}, f, x);
    assert m + multiset{x} - multiset{x} == m;
  }

  lemma {:induction false} SumUnion<T>(m: multiset<T>, n: multiset<T>, f: T -> int)
    ensures Sum(m + n, f) == Sum(m, f) + Sum(n, f)
    decreases |n|
  {
    if n == multiset{} {
      assert m + n == m;
    } else {
      var x :| x in n;
      var n' := n - multiset{x};
      assert n == n' + multiset{x} && m + n == (m + n') + multiset{x};
      SumUnion(m, n', f);
      SumAdd(m + n', f, x);
      SumAdd(n', f, x);
    }
  }

  // Summing the image is summing the composition; a pointwise larger weight gives a larger sum.
  lemma {:induction false} SumBelowImage<T, U>(m: multiset<T>, f: T -> U, g: U -> int, h: T -> int)
    requires forall x :: x in m ==> 0 <= h(x) <= g(f(x))
    ensures 0 <= Sum(m, h) <= Sum(Image(m, f), g)
    decreases |m|
  {
    if m != multiset{} {
      var x :| x in m;
      var m' := m - multiset{x};
      SumBelowImage(m', f, g, h);
      ImageRemove(m, f, x);
      SumAdd(Image(m', f), g, f(x));
      SumRemove(m, h, x);
    }
  }

  lemma {:induction false} SumNonNegative<T>(m: multiset<T>, f: T -> int)
    requires forall x :: x in m ==> 0 <= f(x)
    ensures 0 <= Sum(m, f)
    decreases |m|
  {
    if m != multiset{} {
      var x :| x in m;
      SumNonNegative(m - multiset{x}, f);
      SumRemove(m, f, x);
    }
  }

  lemma SumMonotone<T>(m: multiset<T>, n: multiset<T>, f: T -> int)
    requires m <= n
    requires forall x :: x in n ==> 0 <= f(x)
    ensures Sum(m, f) <= Sum(n, f)
  {
    assert n == m + (n - m);
    SumUnion(m, n - m, f);
    SumNonNegative(n - m, f);
  }
}
