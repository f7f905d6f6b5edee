/** Sums, filters and folds over sequences. */
module Seqs {

  function Sum<T>(f: T -> nat, s: seq<T>): nat {
    if s == [] then 0 else f(s[0]) + Sum(f, s[1..])
  }

  lemma SplitAt<T>(s: seq<T>, i: nat)
    requires i < |s|
    ensures s == s[..i] + ([s[i]] + s[i + 1..])
    ensures s == s[..i] + [s[i]] + s[i + 1..]
    ensures s[..i + 1] == s[..i] + [s[i]]
  {
  }

  lemma {:induction false} SumAppend<T>(f: T -> nat, a: seq<T>, b: seq<T>)
    ensures Sum(f, a + b) == Sum(f, a) + Sum(f, b)
  {
    if a == [] {
      assert a + b == b;
    } else {
      assert (a + b)[0] == a[0] && (a + b)[1..] == a[1..] + b;
      SumAppend(f, a[1..], b);
    }
  }

  lemma SumCons<T>(f: T -> nat, x: T, rest: seq<T>)
    ensures Sum(f, [x] + rest) == f(x) + Sum(f, rest)
  {
    assert ([x] + rest)[1..] == rest;
  }

  lemma SumPair<T>(f: T -> nat, x: T, y: T)
    ensures Sum(f, [x, y]) == f(x) + f(y)
  {
    SumCons(f, x, [y]);
    SumCons(f, y, []);
    assert [x, y] == [x] + ([y] + []);
  }

  lemma {:induction false} SumElement<T>(f: T -> nat, s: seq<T>, i: nat)
    requires i < |s|
    ensures f(s[i]) <= Sum(f, s)
  {
    if i > 0 {
      SumElement(f, s[1..], i - 1);
    }
  }

  lemma {:induction false} SumZero<T>(f: T -> nat, s: seq<T>)
    ensures Sum(f, s) == 0 <==> forall i :: 0 <= i < |s| ==> f(s[i]) == 0
  {
    if s != [] {
      SumZero(f, s[1..]);
      assert forall i :: 1 <= i < |s| ==> s[i] == s[1..][i - 1];
      assert forall i :: 0 <= i < |s[1..]| ==> s[1..][i] == s[i + 1];
    }
  }

  lemma {:induction false} SumBelow<T>(f: T -> nat, g: T -> nat, s: seq<T>)
    requires forall x <- s :: f(x) <= g(x)
    ensures Sum(f, s) <= Sum(g, s)
  {
    if s != [] {
      assert forall x <- s[1..] :: x in s;
      SumBelow(f, g, s[1..]);
    }
  }

  lemma {:induction false} SumSame<T>(f: T -> nat, g: T -> nat, s: seq<T>)
    requires forall x <- s :: f(x) == g(x)
    ensures Sum(f, s) == Sum(g, s)
  {
    SumBelow(f, g, s);
    SumBelow(g, f, s);
  }

  function Filter<T>(p: T -> bool, s: seq<T>): seq<T> {
    if s == [] then [] else if p(s[0]) then [s[0]] + Filter(p, s[1..]) else Filter(p, s[1..])
  }

  function Not<T>(p: T -> bool): T -> bool {
    (x: T) => !p(x)
  }

  lemma {:induction false} FilterAppend<T>(p: T -> bool, a: seq<T>, b: seq<T>)
    ensures Filter(p, a + b) == Filter(p, a) + Filter(p, b)
  {
    if a == [] {
      assert a + b == b;
    } else {
      assert (a + b)[0] == a[0] && (a + b)[1..] == a[1..] + b;
      FilterAppend(p, a[1..], b);
    }
  }

  lemma {:induction false} FilterMember<T>(p: T -> bool, s: seq<T>, x: T)
    ensures x in Filter(p, s) <==> x in s && p(x)
  {
    if s != [] {
      FilterMember(p, s[1..], x);
      assert s == [s[0]] + s[1..];
    }
  }

  lemma {:induction false} FilterSum<T>(f: T -> nat, p: T -> bool, s: seq<T>)
    ensures Sum(f, Filter(p, s)) + Sum(f, Filter(Not(p), s)) == Sum(f, s)
  {
    if s != [] {
      FilterSum(f, p, s[1..]);
      SumCons(f, s[0], Filter(p, s[1..]));
      SumCons(f, s[0], Filter(Not(p), s[1..]));
    }
  }

  lemma {:induction false} FilterAll<T>(p: T -> bool, s: seq<T>)
    ensures Filter(p, s) == s <==> forall x <- s :: p(x)
    ensures Filter(p, s) == [] <==> forall x <- s :: !p(x)
    ensures |Filter(p, s)| <= |s|
  {
    if s != [] {
      FilterAll(p, s[1..]);
      assert s == [s[0]] + s[1..];
    }
  }

  function Fold<A, T>(step: (A, T) -> A, start: A, s: seq<T>): A {
    if s == [] then start else Fold(step, step(start, s[0]), s[1..])
  }

  lemma FoldCons<A, T>(step: (A, T) -> A, start: A, x: T, rest: seq<T>)
    ensures Fold(step, start, [x] + rest) == Fold(step, step(start, x), rest)
  {
    assert ([x] + rest)[1..] == rest;
  }

  lemma FoldPair<A, T>(step: (A, T) -> A, start: A, x: T, y: T)
    ensures Fold(step, start, [x, y]) == step(step(start, x), y)
  {
    FoldCons(step, start, x, [y]);
    FoldCons(step, step(start, x), y, []);
    assert [x, y] == [x] + ([y] + []);
  }

  lemma {:induction false} FoldAppend<A, T>(step: (A, T) -> A, start: A, a: seq<T>, b: seq<T>)
    ensures Fold(step, start, a + b) == Fold(step, Fold(step, start, a), b)
  {
    if a == [] {
      assert a + b == b;
    } else {
      assert (a + b)[0] == a[0] && (a + b)[1..] == a[1..] + b;
      FoldAppend(step, step(start, a[0]), a[1..], b);
    }
  }
}
