// Sums over sequences and over balance maps, and the fact that neither depends
// on the order in which the entries are visited.
module Sums {

  function Sum<T>(xs: seq<T>, f: T -> int): int {
    if xs == [] then 0 else f(xs[0]) + Sum(xs[1..], f)
  }

  lemma SumAppend<T>(xs: seq<T>, ys: seq<T>, f: T -> int)
    ensures Sum(xs + ys, f) == Sum(xs, f) + Sum(ys, f)
  {
    if xs == [] {
      assert xs + ys == ys;
    } else {
      assert (xs + ys)[1..] == xs[1..] + ys;
      SumAppend(xs[1..], ys, f);
    }
  }

  lemma SumSnoc<T>(xs: seq<T>, k: nat, f: T -> int)
    requires k < |xs|
    ensures Sum(xs[..k + 1], f) == Sum(xs[..k], f) + f(xs[k])
  {
    assert xs[..k + 1] == xs[..k] + [xs[k]];
    SumAppend(xs[..k], [xs[k]], f);
  }

  lemma SumLe<T>(xs: seq<T>, f: T -> int, g: T -> int)
    requires forall x :: x in xs ==> f(x) <= g(x)
    ensures Sum(xs, f) <= Sum(xs, g)
  {
    if xs != [] {
      assert forall x :: x in xs[1..] ==> x in xs;
      SumLe(xs[1..], f, g);
    }
  }

  // Raising no entry's weight below f and x's to g(x) raises the sum by as much.
  lemma SumRise<T>(xs: seq<T>, x: T, f: T -> int, g: T -> int)
    requires x in xs
    requires forall y :: y in xs ==> f(y) <= g(y)
    ensures Sum(xs, f) + g(x) - f(x) <= Sum(xs, g)
  {
    assert forall y :: y in xs[1..] ==> y in xs;
    if xs[0] == x {
      SumLe(xs[1..], f, g);
    } else {
      SumRise(xs[1..], x, f, g);
    }
  }

  lemma SumSplit<T>(xs: seq<T>, f: T -> int, g: T -> int, h: T -> int)
    requires forall x :: x in xs ==> f(x) == g(x) + h(x)
    ensures Sum(xs, f) == Sum(xs, g) + Sum(xs, h)
  {
    if xs != [] {
      assert forall x :: x in xs[1..] ==> x in xs;
      SumSplit(xs[1..], f, g, h);
    }
  }

  lemma SumNonNegative<T>(xs: seq<T>, f: T -> int)
    requires forall x :: x in xs ==> 0 <= f(x)
    ensures 0 <= Sum(xs, f)
  {
    if xs != [] {
      assert forall x :: x in xs[1..] ==> x in xs;
      SumNonNegative(xs[1..], f);
    }
  }

  // One entry is no more than the whole, when no entry is negative.
  lemma SumAtLeastOne<T>(xs: seq<T>, x: T, f: T -> int)
    requires x in xs
    requires forall y :: y in xs ==> 0 <= f(y)
    ensures f(x) <= Sum(xs, f)
  {
    assert forall y :: y in xs[1..] ==> y in xs;
    if xs[0] == x {
      SumNonNegative(xs[1..], f);
    } else {
      SumAtLeastOne(xs[1..], x, f);
    }
  }

  lemma RemoveAt<T>(xs: seq<T>, x: T) returns (i: nat)
    requires x in xs
    ensures i < |xs| && xs[i] == x
    ensures multiset(xs[..i] + xs[i + 1..]) == multiset(xs) - multiset{x}
  {
    i :| i < |xs| && xs[i] == x;
    assert xs == xs[..i] + [x] + xs[i + 1..];
  }

  lemma SumWithout<T>(xs: seq<T>, i: nat, f: T -> int)
    requires i < |xs|
    ensures Sum(xs, f) == f(xs[i]) + Sum(xs[..i] + xs[i + 1..], f)
  {
    assert xs == xs[..i + 1] + xs[i + 1..];
    SumAppend(xs[..i + 1], xs[i + 1..], f);
    SumSnoc(xs, i, f);
    SumAppend(xs[..i], xs[i + 1..], f);
  }

  lemma {:induction false} SumPermuted<T>(xs: seq<T>, ys: seq<T>, f: T -> int)
    requires multiset(xs) == multiset(ys)
    ensures Sum(xs, f) == Sum(ys, f)
    decreases |xs|
  {
    assert |xs| == |multiset(xs)| && |ys| == |multiset(ys)|;
    if xs != [] {
      assert xs[0] in multiset(xs);
      var i := RemoveAt(ys, xs[0]);
      assert multiset(xs[1..]) == multiset(xs) - multiset{xs[0]} by {
        assert xs == [xs[0]] + xs[1..];
      }
      SumPermuted(xs[1..], ys[..i] + ys[i + 1..], f);
      SumWithout(ys, i, f);
    }
  }

  // Entries of a sequence that satisfy p, in order.
  function Filter<T(!new)>(xs: seq<T>, p: T -> bool): (r: seq<T>)
    ensures forall x :: x in r <==> x in xs && p(x)
    ensures |r| <= |xs|
  {
    if xs == [] then [] else (if p(xs[0]) then [xs[0]] else []) + Filter(xs[1..], p)
  }

  lemma {:induction false} FilterAppend<T(!new)>(xs: seq<T>, ys: seq<T>, p: T -> bool)
    ensures Filter(xs + ys, p) == Filter(xs, p) + Filter(ys, p)
  {
    if xs == [] {
      assert xs + ys == ys;
    } else {
      assert (xs + ys)[0] == xs[0] && (xs + ys)[1..] == xs[1..] + ys;
      FilterAppend(xs[1..], ys, p);
    }
  }

  lemma FilterSnoc<T(!new)>(xs: seq<T>, k: nat, p: T -> bool)
    requires k < |xs|
    ensures Filter(xs[..k + 1], p) == Filter(xs[..k], p) + (if p(xs[k]) then [xs[k]] else [])
  {
    assert xs[..k + 1] == xs[..k] + [xs[k]];
    FilterAppend(xs[..k], [xs[k]], p);
  }

  function Masked<T>(p: T -> bool, f: T -> int): T -> int {
    x => if p(x) then f(x) else 0
  }

  // Summing the kept entries is summing all of them with the others at zero.
  lemma {:induction false} SumFiltered<T(!new)>(xs: seq<T>, p: T -> bool, f: T -> int)
    ensures Sum(Filter(xs, p), f) == Sum(xs, Masked(p, f))
  {
    if xs != [] {
      SumFiltered(xs[1..], p, f);
      SumAppend(if p(xs[0]) then [xs[0]] else [], Filter(xs[1..], p), f);
    }
  }

  lemma FilterCount<T(!new)>(xs: seq<T>, p: T -> bool, x: T)
    ensures multiset(Filter(xs, p))[x] == if p(x) then multiset(xs)[x] else 0
  {
    if xs != [] {
      FilterCount(xs[1..], p, x);
      assert xs == [xs[0]] + xs[1..];
    }
  }

  lemma {:induction false} FilterPermuted<T(!new)>(xs: seq<T>, ys: seq<T>, p: T -> bool)
    requires multiset(xs) == multiset(ys)
    ensures multiset(Filter(xs, p)) == multiset(Filter(ys, p))
  {
    forall x: T
      ensures multiset(Filter(xs, p))[x] == multiset(Filter(ys, p))[x]
    {
      FilterCount(xs, p, x);
      FilterCount(ys, p, x);
    }
  }

  // --- Balance maps: an absent key holds zero. ------------------------------

  function At<K>(m: map<K, nat>, k: K): nat {
    if k in m then m[k] else 0
  }

  ghost function Total<K>(m: map<K, nat>): nat
    decreases |m|
  {
    if m.Keys == {} then 0
    else
      var k :| k in m.Keys;
      assert (m - {k}).Keys == m.Keys - {k};
      m[k] + Total(m - {k})
  }

  lemma {:induction false} TotalWithout<K>(m: map<K, nat>, k: K)
    requires k in m
    ensures Total(m) == m[k] + Total(m - {k})
    decreases |m|
  {
    var j :| j in m.Keys && Total(m) == m[j] + Total(m - {j});
    if j != k {
      assert (m - {j}).Keys == m.Keys - {j};
      assert (m - {k}).Keys == m.Keys - {k};
      TotalWithout(m - {j}, k);
      TotalWithout(m - {k}, j);
      assert m - {j} - {k} == m - {k} - {j};
    }
  }

  lemma TotalSet<K>(m: map<K, nat>, k: K, v: nat)
    ensures Total(m[k := v]) == Total(m) - At(m, k) + v
  {
    TotalWithout(m[k := v], k);
    assert m[k := v] - {k} == m - {k};
    if k in m {
      TotalWithout(m, k);
    } else {
      assert m - {k} == m;
    }
  }

  lemma AtMostTotal<K>(m: map<K, nat>, k: K)
    ensures At(m, k) <= Total(m)
  {
    if k in m {
      TotalWithout(m, k);
    }
  }

  lemma PairAtMostTotal<K>(m: map<K, nat>, j: K, k: K)
    requires j != k
    ensures At(m, j) + At(m, k) <= Total(m)
  {
    if j in m {
      TotalWithout(m, j);
      AtMostTotal(m - {j}, k);
    } else {
      AtMostTotal(m, k);
    }
  }
}
