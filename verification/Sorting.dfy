/** Python's `sorted`: a stable sort by a comparison `le` ("key of a <= key of b"). */
module Sorting {

  /** Puts `x` before the first element that is not strictly smaller, so equal keys keep their order. */
  function InsertBy<T>(le: (T, T) -> bool, x: T, xs: seq<T>): (r: seq<T>)
    ensures multiset(r) == multiset(xs) + multiset{x}
  {
    if xs == [] then [x]
    else if le(x, xs[0]) then [x] + xs
    else
      assert xs == [xs[0]] + xs[1..];
      [xs[0]] + InsertBy(le, x, xs[1..])
  }

  function SortBy<T>(le: (T, T) -> bool, xs: seq<T>): (r: seq<T>)
    ensures multiset(r) == multiset(xs)
    ensures |r| == |xs|
  {
    assert |multiset(xs)| == |xs|;
    if xs == [] then []
    else
      assert xs == [xs[0]] + xs[1..];
      var r := InsertBy(le, xs[0], SortBy(le, xs[1..]));
      assert |multiset(r)| == |r|;
      r
  }

  ghost predicate SortedBy<T>(le: (T, T) -> bool, xs: seq<T>) {
    forall i, j :: 0 <= i < j < |xs| ==> le(xs[i], xs[j])
  }

  /** `le` compares any two elements of `s`, and does so transitively. */
  ghost predicate Orders<T>(le: (T, T) -> bool, s: multiset<T>) {
    && (forall a, b :: a in s && b in s ==> le(a, b) || le(b, a))
    && (forall a, b, c :: a in s && b in s && c in s && le(a, b) && le(b, c) ==> le(a, c))
  }

  lemma SortedCons<T>(le: (T, T) -> bool, x: T, xs: seq<T>)
    requires SortedBy(le, xs) && forall i :: 0 <= i < |xs| ==> le(x, xs[i])
    ensures SortedBy(le, [x] + xs)
  {
  }

  lemma SmallestFirst<T>(le: (T, T) -> bool, x: T, xs: seq<T>, m: multiset<T>)
    requires Orders(le, m) && SortedBy(le, xs) && xs != [] && le(x, xs[0])
    requires x in m && forall y :: y in xs ==> y in m
    ensures forall i :: 0 <= i < |xs| ==> le(x, xs[i])
  {
    forall i | 0 <= i < |xs| ensures le(x, xs[i]) {
      assert xs[0] in xs && xs[i] in xs;
    }
  }

  lemma {:induction false} InsertBySorted<T>(le: (T, T) -> bool, x: T, xs: seq<T>, m: multiset<T>)
    requires Orders(le, m) && SortedBy(le, xs)
    requires x in m && forall y :: y in xs ==> y in m
    ensures SortedBy(le, InsertBy(le, x, xs))
  {
    if xs != [] {
      assert xs[0] in xs;
      if le(x, xs[0]) {
        SmallestFirst(le, x, xs, m);
        SortedCons(le, x, xs);
      } else {
        var r := InsertBy(le, x, xs[1..]);
        InsertBySorted(le, x, xs[1..], m);
        forall i | 0 <= i < |r| ensures le(xs[0], r[i]) {
          assert r[i] in multiset(r);
          assert r[i] == x || r[i] in xs[1..];
        }
        SortedCons(le, xs[0], r);
      }
    }
  }

  lemma {:induction false} SortBySorted<T>(le: (T, T) -> bool, xs: seq<T>)
    requires Orders(le, multiset(xs))
    ensures SortedBy(le, SortBy(le, xs))
  {
    if xs != [] {
      assert xs == [xs[0]] + xs[1..];
      SortBySorted(le, xs[1..]);
      var r := SortBy(le, xs[1..]);
      forall y | y in r ensures y in multiset(xs) {
        assert y in multiset(r);
      }
      InsertBySorted(le, xs[0], r, multiset(xs));
    }
  }

  /** A strict order leaves only one way to sort: the sorted sequence depends on the elements alone. */
  lemma {:induction false} SortedUnique<T>(le: (T, T) -> bool, xs: seq<T>, ys: seq<T>)
    requires multiset(xs) == multiset(ys)
    requires SortedBy(le, xs) && SortedBy(le, ys)
    requires forall a, b :: a in xs && b in xs && le(a, b) && le(b, a) ==> a == b
    ensures xs == ys
  {
    assert |xs| == |multiset(xs)| == |multiset(ys)| == |ys|;
    if xs != [] {
      HeadsAgree(le, xs, ys);
      TailMultiset(xs);
      TailMultiset(ys);
      SortedUnique(le, xs[1..], ys[1..]);
    }
  }

  lemma TailMultiset<T>(xs: seq<T>)
    requires xs != []
    ensures multiset(xs[1..]) == multiset(xs) - multiset{xs[0]}
  {
    assert xs == [xs[0]] + xs[1..];
  }

  lemma HeadsAgree<T>(le: (T, T) -> bool, xs: seq<T>, ys: seq<T>)
    requires multiset(xs) == multiset(ys) && xs != [] && ys != []
    requires SortedBy(le, xs) && SortedBy(le, ys)
    requires forall a, b :: a in xs && b in xs && le(a, b) && le(b, a) ==> a == b
    ensures xs[0] == ys[0]
  {
    assert xs[0] in multiset(ys) && ys[0] in multiset(xs);
    var i :| 0 <= i < |ys| && ys[i] == xs[0];
    var j :| 0 <= j < |xs| && xs[j] == ys[0];
    assert i > 0 ==> le(ys[0], ys[i]);
    assert j > 0 ==> le(xs[0], xs[j]);
  }

  // ---- sequences without repetition --------------------------------------

  ghost predicate Distinct<T>(xs: seq<T>) {
    forall i, j :: 0 <= i < j < |xs| ==> xs[i] != xs[j]
  }

  lemma DistinctSnoc<T>(xs: seq<T>, x: T)
    requires Distinct(xs) && x !in xs
    ensures Distinct(xs + [x])
  {
  }

  lemma {:induction false} DistinctCounts<T>(xs: seq<T>)
    requires Distinct(xs)
    ensures forall x :: x in xs ==> multiset(xs)[x] == 1
  {
    if xs != [] {
      DistinctCounts(xs[1..]);
      assert xs == [xs[0]] + xs[1..];
      assert xs[0] !in xs[1..] && xs[0] !in multiset(xs[1..]);
    }
  }

  lemma CountsDistinct<T>(xs: seq<T>)
    requires forall x :: x in xs ==> multiset(xs)[x] == 1
    ensures Distinct(xs)
  {
    forall i, j | 0 <= i < j < |xs| ensures xs[i] != xs[j] {
      assert xs == xs[..j] + xs[j..];
      assert multiset(xs)[xs[i]] == multiset(xs[..j])[xs[i]] + multiset(xs[j..])[xs[i]];
      assert xs[i] in xs[..j] && xs[j] in xs[j..];
      assert multiset(xs[..j])[xs[i]] >= 1 && multiset(xs[j..])[xs[j]] >= 1;
    }
  }

  lemma SameMembers<T>(xs: seq<T>, ys: seq<T>)
    requires multiset(xs) == multiset(ys)
    ensures forall x :: x in xs <==> x in ys
  {
    forall x ensures x in xs <==> x in ys {
      assert x in xs <==> x in multiset(xs);
      assert x in ys <==> x in multiset(ys);
    }
  }

  lemma PermutationDistinct<T>(xs: seq<T>, ys: seq<T>)
    requires multiset(xs) == multiset(ys) && Distinct(xs)
    ensures Distinct(ys)
  {
    DistinctCounts(xs);
    SameMembers(xs, ys);
    CountsDistinct(ys);
  }

  lemma SameDistinctMembers<T>(xs: seq<T>, ys: seq<T>)
    requires Distinct(xs) && Distinct(ys) && forall x :: x in xs <==> x in ys
    ensures multiset(xs) == multiset(ys)
  {
    DistinctCounts(xs);
    DistinctCounts(ys);
    forall x ensures multiset(xs)[x] == multiset(ys)[x] {
      assert x in xs <==> x in multiset(xs);
      assert x in ys <==> x in multiset(ys);
    }
  }
}
