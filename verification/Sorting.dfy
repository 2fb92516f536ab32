/** Stable sorting by a total preorder, the meaning of ORDER BY and of list.sort. */
module Sorting {
  import opened Basics

  ghost predicate TotalPreorder<T(!new)>(le: (T, T) -> bool) {
    && (forall x, y :: le(x, y) || le(y, x))
    && (forall x, y, z :: le(x, y) && le(y, z) ==> le(x, z))
  }

  predicate Sorted<T>(xs: seq<T>, le: (T, T) -> bool) {
    forall i, j :: 0 <= i < j < |xs| ==> le(xs[i], xs[j])
  }

  /** Puts x before the first element it may precede. */
  function InsertSorted<T>(x: T, ys: seq<T>, le: (T, T) -> bool): seq<T> {
    if ys == [] || le(x, ys[0]) then [x] + ys else [ys[0]] + InsertSorted(x, ys[1..], le)
  }

  function Sort<T>(xs: seq<T>, le: (T, T) -> bool): seq<T> {
    if xs == [] then [] else InsertSorted(xs[0], Sort(xs[1..], le), le)
  }

  lemma {:induction false} InsertKeepsElements<T>(x: T, ys: seq<T>, le: (T, T) -> bool)
    ensures multiset(InsertSorted(x, ys, le)) == multiset{x} + multiset(ys)
  {
    if ys != [] {
      assert ys == [ys[0]] + ys[1..];
      if !le(x, ys[0]) {
        InsertKeepsElements(x, ys[1..], le);
      }
    }
  }

  lemma {:induction false} SortKeepsElements<T>(xs: seq<T>, le: (T, T) -> bool)
    ensures multiset(Sort(xs, le)) == multiset(xs) && |Sort(xs, le)| == |xs|
  {
    if xs != [] {
      assert xs == [xs[0]] + xs[1..];
      SortKeepsElements(xs[1..], le);
      InsertKeepsElements(xs[0], Sort(xs[1..], le), le);
      assert |multiset(Sort(xs, le))| == |Sort(xs, le)|;
    }
  }

  lemma {:induction false} InsertKeepsSorted<T(!new)>(x: T, ys: seq<T>, le: (T, T) -> bool)
    requires TotalPreorder(le) && Sorted(ys, le)
    ensures Sorted(InsertSorted(x, ys, le), le)
  {
    if ys != [] && !le(x, ys[0]) {
      var rest := InsertSorted(x, ys[1..], le);
      InsertKeepsSorted(x, ys[1..], le);
      InsertKeepsElements(x, ys[1..], le);
      assert le(ys[0], x);
      forall i | 0 <= i < |rest|
        ensures le(ys[0], rest[i])
      {
        assert rest[i] in multiset(rest);
        assert rest[i] == x || rest[i] in ys[1..];
      }
    }
  }

  lemma {:induction false} SortSorts<T(!new)>(xs: seq<T>, le: (T, T) -> bool)
    requires TotalPreorder(le)
    ensures Sorted(Sort(xs, le), le)
  {
    if xs != [] {
      SortSorts(xs[1..], le);
      InsertKeepsSorted(xs[0], Sort(xs[1..], le), le);
    }
  }

  /** A sorted list is left alone; in particular equal elements keep their order. */
  lemma {:induction false} SortOfSorted<T>(xs: seq<T>, le: (T, T) -> bool)
    requires Sorted(xs, le)
    ensures Sort(xs, le) == xs
  {
    if xs != [] {
      SortOfSorted(xs[1..], le);
    }
  }

  lemma SortMembers<T(!new)>(xs: seq<T>, le: (T, T) -> bool)
    ensures forall x :: x in Sort(xs, le) <==> x in xs
  {
    SortKeepsElements(xs, le);
    forall x
      ensures x in Sort(xs, le) <==> x in xs
    {
      assert x in multiset(Sort(xs, le)) <==> x in multiset(xs);
    }
  }

  /** Python's xs[:k], negative k included. */
  function Take<T>(xs: seq<T>, k: int): seq<T> {
    if k >= |xs| then xs
    else if k >= 0 then xs[..k]
    else if -k >= |xs| then []
    else xs[..|xs| + k]
  }

  /** The elements that satisfy f, in order. */
  function Filter<T(!new)>(xs: seq<T>, f: T -> bool): (r: seq<T>)
    ensures forall x :: x in r <==> x in xs && f(x)
    ensures |r| <= |xs|
  {
    if xs == [] then []
    else (if f(xs[0]) then [xs[0]] else []) + Filter(xs[1..], f)
  }

  lemma {:induction false} FilterKeepsOrder<T(!new)>(xs: seq<T>, f: T -> bool, le: (T, T) -> bool)
    requires Sorted(xs, le)
    ensures Sorted(Filter(xs, f), le)
  {
    if xs != [] {
      FilterKeepsOrder(xs[1..], f, le);
      var rest := Filter(xs[1..], f);
      forall i | 0 <= i < |rest|
        ensures le(xs[0], rest[i])
      {
        assert rest[i] in xs[1..];
      }
    }
  }

  lemma {:induction false} FilterAll<T(!new)>(xs: seq<T>, f: T -> bool)
    requires forall x :: x in xs ==> f(x)
    ensures Filter(xs, f) == xs
  {
    if xs != [] {
      FilterAll(xs[1..], f);
    }
  }

  lemma {:induction false} FilterNone<T(!new)>(xs: seq<T>, f: T -> bool)
    requires forall x :: x in xs ==> !f(x)
    ensures Filter(xs, f) == []
  {
    if xs != [] {
      FilterNone(xs[1..], f);
    }
  }

  lemma {:induction false} FilterSame<T(!new)>(xs: seq<T>, f: T -> bool, g: T -> bool)
    requires forall x :: x in xs ==> f(x) == g(x)
    ensures Filter(xs, f) == Filter(xs, g)
  {
    if xs != [] {
      FilterSame(xs[1..], f, g);
    }
  }

  function Both<T>(f: T -> bool, g: T -> bool): T -> bool {
    x => f(x) && g(x)
  }

  lemma {:induction false} FilterTwice<T(!new)>(xs: seq<T>, f: T -> bool, g: T -> bool)
    ensures Filter(Filter(xs, f), g) == Filter(xs, Both(f, g))
  {
    if xs != [] {
      FilterTwice(xs[1..], f, g);
      var rest := Filter(xs[1..], f);
      if f(xs[0]) {
        assert Filter(xs, f) == [xs[0]] + rest;
        assert ([xs[0]] + rest)[1..] == rest;
      } else {
        assert Filter(xs, f) == rest;
      }
    }
  }

  /** Filtering commutes with an element-wise image that the predicates respect. */
  lemma {:induction false} FilterImage<T(!new), U(!new)>(xs: seq<T>, f: T -> bool, ys: seq<U>, g: U -> bool, h: T -> U)
    requires |xs| == |ys| && forall i :: 0 <= i < |xs| ==> ys[i] == h(xs[i]) && f(xs[i]) == g(ys[i])
    ensures |Filter(ys, g)| == |Filter(xs, f)|
    ensures forall i :: 0 <= i < |Filter(xs, f)| ==> Filter(ys, g)[i] == h(Filter(xs, f)[i])
  {
    if xs != [] {
      FilterImage(xs[1..], f, ys[1..], g, h);
      FilterUnfold(xs, xs[0], xs[1..], f);
      FilterUnfold(ys, ys[0], ys[1..], g);
    }
  }

  function OnlyIf<T>(x: T, f: T -> bool): seq<T> {
    if f(x) then [x] else []
  }

  lemma TailOfConcat<T>(xs: seq<T>, ys: seq<T>)
    requires xs != []
    ensures (xs + ys)[0] == xs[0] && (xs + ys)[1..] == xs[1..] + ys
  {
  }

  lemma FilterUnfold<T(!new)>(all: seq<T>, head: T, tail: seq<T>, f: T -> bool)
    requires all != [] && all[0] == head && all[1..] == tail
    ensures Filter(all, f) == OnlyIf(head, f) + Filter(tail, f)
  {
  }

  lemma {:induction false} FilterConcat<T(!new)>(xs: seq<T>, ys: seq<T>, f: T -> bool)
    ensures Filter(xs + ys, f) == Filter(xs, f) + Filter(ys, f)
  {
    if xs == [] {
      assert xs + ys == ys;
    } else {
      FilterConcat(xs[1..], ys, f);
      TailOfConcat(xs, ys);
      FilterUnfold(xs + ys, xs[0], xs[1..] + ys, f);
      FilterUnfold(xs, xs[0], xs[1..], f);
      JoinThree(OnlyIf(xs[0], f), Filter(xs[1..], f), Filter(ys, f));
    }
  }

  lemma FilterSnoc<T(!new)>(xs: seq<T>, x: T, f: T -> bool)
    ensures Filter(xs + [x], f) == Filter(xs, f) + if f(x) then [x] else []
  {
    FilterConcat(xs, [x], f);
  }

  /** How many of n a cut at k keeps: k of them, or, if k is negative, all but -k. */
  function CutLength(k: int, n: nat): nat {
    var m := if k < 0 then n + k else k;
    if m < 0 then 0 else if m < n then m else n
  }

  lemma TakeKeeps<T>(xs: seq<T>, k: int)
    ensures Take(xs, k) == xs[..CutLength(k, |xs|)]
  {
  }

  lemma FrontOfSorted<T(!new)>(sorted: seq<T>, le: (T, T) -> bool, out: seq<T>, x: T)
    requires Sorted(sorted, le) && out <= sorted && x in sorted && x !in out
    ensures |out| < |sorted| && forall i :: 0 <= i < |out| ==> le(out[i], x)
  {
    assert sorted == out + sorted[|out|..];
    assert x in sorted[|out|..];
    var j :| 0 <= j < |sorted| - |out| && sorted[|out|..][j] == x;
    assert sorted[|out| + j] == x;
  }

  lemma FrontElements<T>(xs: seq<T>, out: seq<T>)
    requires out <= xs
    ensures multiset(out) <= multiset(xs) && forall x :: x in out ==> x in xs
  {
    assert xs == out + xs[|out|..];
  }

  /** The first k of a sorted list: what is left out is preceded by everything kept. */
  lemma TopOfSorted<T(!new)>(all: seq<T>, le: (T, T) -> bool, k: int)
    requires TotalPreorder(le)
    ensures var out := Take(Sort(all, le), k);
            && |out| == CutLength(k, |all|) && Sorted(out, le) && multiset(out) <= multiset(all)
            && (forall x :: x in out ==> x in all)
            && (forall x :: x in all ==> x in out || (|out| < |all| && forall i :: 0 <= i < |out| ==> le(out[i], x)))
  {
    var sorted := Sort(all, le);
    var out := Take(sorted, k);
    SortSorts(all, le);
    SortKeepsElements(all, le);
    SortMembers(all, le);
    TakeKeeps(sorted, k);
    FrontElements(sorted, out);
    forall x | x in all && x !in out
      ensures |out| < |all| && forall i :: 0 <= i < |out| ==> le(out[i], x)
    {
      FrontOfSorted(sorted, le, out, x);
    }
  }

  predicate Distinct<T(==)>(xs: seq<T>) {
    forall i, j :: 0 <= i < j < |xs| ==> xs[i] != xs[j]
  }

  lemma {:induction false} FilterKeepsDistinct<T(!new)>(xs: seq<T>, f: T -> bool)
    requires Distinct(xs)
    ensures Distinct(Filter(xs, f))
  {
    if xs != [] {
      FilterKeepsDistinct(xs[1..], f);
      assert xs[0] !in xs[1..];
    }
  }

  lemma {:induction false} InsertKeepsDistinct<T(!new)>(x: T, ys: seq<T>, le: (T, T) -> bool)
    requires Distinct(ys) && x !in ys
    ensures Distinct(InsertSorted(x, ys, le))
    ensures forall y :: y in InsertSorted(x, ys, le) <==> y == x || y in ys
  {
    if ys != [] && !le(x, ys[0]) {
      InsertKeepsDistinct(x, ys[1..], le);
      assert ys[0] !in InsertSorted(x, ys[1..], le);
    }
  }

  lemma {:induction false} SortKeepsDistinct<T(!new)>(xs: seq<T>, le: (T, T) -> bool)
    requires Distinct(xs)
    ensures Distinct(Sort(xs, le))
  {
    if xs != [] {
      SortKeepsDistinct(xs[1..], le);
      SortMembers(xs[1..], le);
      InsertKeepsDistinct(xs[0], Sort(xs[1..], le), le);
    }
  }

  // ----- images -----

  ghost predicate Image<T, U>(xs: seq<T>, ys: seq<U>, h: T -> U) {
    |ys| == |xs| && forall i :: 0 <= i < |xs| ==> ys[i] == h(xs[i])
  }

  /** On these elements the one order is the other, seen through the image. */
  ghost predicate Respects<T(!new), U>(xs: seq<T>, le: (T, T) -> bool, le': (U, U) -> bool, h: T -> U) {
    forall x, y :: x in xs && y in xs ==> le(x, y) == le'(h(x), h(y))
  }

  lemma {:induction false} InsertImage<T(!new), U>(x: T, xs: seq<T>, ys: seq<U>, le: (T, T) -> bool, le': (U, U) -> bool, h: T -> U)
    requires Image(xs, ys, h) && Respects([x] + xs, le, le', h)
    ensures Image(InsertSorted(x, xs, le), InsertSorted(h(x), ys, le'), h)
  {
    if xs != [] {
      assert xs[0] in [x] + xs;
      if !le(x, xs[0]) {
        InsertImage(x, xs[1..], ys[1..], le, le', h);
      }
    }
  }

  /** Sorting commutes with an image that the orders respect. */
  lemma {:induction false} SortImage<T(!new), U>(xs: seq<T>, ys: seq<U>, le: (T, T) -> bool, le': (U, U) -> bool, h: T -> U)
    requires Image(xs, ys, h) && Respects(xs, le, le', h)
    ensures Image(Sort(xs, le), Sort(ys, le'), h)
  {
    if xs != [] {
      SortImage(xs[1..], ys[1..], le, le', h);
      SortMembers(xs[1..], le);
      InsertImage(xs[0], Sort(xs[1..], le), Sort(ys[1..], le'), le, le', h);
    }
  }

  // ----- rearranging a list -----

  /** A function of lists that works piece by piece. */
  ghost predicate Piecewise<T(!new), U>(f: seq<T> -> seq<U>) {
    f([]) == [] && forall xs, ys :: f(xs + ys) == f(xs) + f(ys)
  }

  lemma MultisetOfPieces<T>(a: seq<T>, x: seq<T>, b: seq<T>)
    ensures multiset(a + (x + b)) == multiset(x) + multiset(a + b)
  {
  }

  lemma SumCancels<T>(x: multiset<T>, m: multiset<T>, n: multiset<T>)
    requires x + m == x + n
    ensures m == n
  {
    forall e
      ensures m[e] == n[e]
    {
      assert (x + m)[e] == (x + n)[e];
    }
  }

  lemma ElementIn<T>(x: T, ys: seq<T>) returns (a: seq<T>, b: seq<T>)
    requires x in ys
    ensures ys == a + ([x] + b)
  {
    var k :| 0 <= k < |ys| && ys[k] == x;
    a, b := ys[..k], ys[k + 1..];
  }

  lemma AroundElement<T>(x: T, rest: seq<T>, ys: seq<T>) returns (a: seq<T>, b: seq<T>)
    requires multiset([x] + rest) == multiset(ys)
    ensures ys == a + ([x] + b) && multiset(rest) == multiset(a + b)
  {
    assert x in [x] + rest;
    assert x in multiset(ys);
    a, b := ElementIn(x, ys);
    MultisetOfPieces(a, [x], b);
    SumCancels(multiset([x]), multiset(rest), multiset(a + b));
  }

  /** Such a function turns a rearranged list into a rearranged list. */
  lemma {:induction false} PiecewiseRearranges<T(!new), U>(f: seq<T> -> seq<U>, xs: seq<T>, ys: seq<T>)
    requires Piecewise(f) && multiset(xs) == multiset(ys)
    ensures multiset(f(xs)) == multiset(f(ys))
  {
    if xs == [] {
      assert |multiset(ys)| == 0;
      assert ys == [];
    } else {
      assert xs == [xs[0]] + xs[1..];
      var a, b := AroundElement(xs[0], xs[1..], ys);
      PiecewiseRearranges(f, xs[1..], a + b);
      MultisetOfPieces(f(a), f([xs[0]]), f(b));
    }
  }

  function FilterBy<T(!new)>(f: T -> bool): seq<T> -> seq<T> {
    (xs: seq<T>) => Filter(xs, f)
  }

  lemma FilterRearranged<T(!new)>(xs: seq<T>, ys: seq<T>, f: T -> bool)
    requires multiset(xs) == multiset(ys)
    ensures multiset(Filter(xs, f)) == multiset(Filter(ys, f)) && |Filter(xs, f)| == |Filter(ys, f)|
  {
    forall a, b
      ensures FilterBy(f)(a + b) == FilterBy(f)(a) + FilterBy(f)(b)
    {
      FilterConcat(a, b, f);
    }
    PiecewiseRearranges(FilterBy(f), xs, ys);
    assert |multiset(Filter(xs, f))| == |Filter(xs, f)|;
  }

  function ImageBy<T, U>(h: T -> U): seq<T> -> seq<U> {
    (xs: seq<T>) => seq(|xs|, i requires 0 <= i < |xs| => h(xs[i]))
  }

  lemma ImageConcat<T, U>(xs: seq<T>, ys: seq<T>, h: T -> U)
    ensures ImageBy(h)(xs + ys) == ImageBy(h)(xs) + ImageBy(h)(ys)
  {
  }

  lemma ImageRearranged<T(!new), U>(xs: seq<T>, ys: seq<T>, h: T -> U)
    requires multiset(xs) == multiset(ys)
    ensures multiset(ImageBy(h)(xs)) == multiset(ImageBy(h)(ys))
  {
    PiecewiseRearranges(ImageBy(h), xs, ys);
  }

  lemma SameMembers<T>(xs: seq<T>, ys: seq<T>)
    requires multiset(xs) == multiset(ys)
    ensures |xs| == |ys| && forall x :: x in xs <==> x in ys
  {
    assert |multiset(xs)| == |multiset(ys)|;
    forall x
      ensures x in xs <==> x in ys
    {
      assert x in multiset(xs) <==> x in multiset(ys);
    }
  }
}
