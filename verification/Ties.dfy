/** What the order of the rows decides in a ranking (retrieval.py): sorting is stable and cuts at top_k, so
    rows of equal score at the cut, and nothing else, depend on the order in which the rows were read. */
module Ties {
  import opened Basics
  import opened Sorting
  import opened EmbeddingCodec
  import opened Ranking

  function Beats(score: real): ScoredRow -> bool {
    (x: ScoredRow) => x.score > score
  }

  /** Two rankings that differ at most in which rows of the last score they hold: as many rows, the same scores
      in the same places, and the same rows above the last score. */
  ghost predicate SameUpToTies(a: seq<ScoredRow>, b: seq<ScoredRow>) {
    && |a| == |b|
    && (forall i :: 0 <= i < |a| ==> a[i].score == b[i].score)
    && (a != [] ==> multiset(Filter(a, Beats(a[|a| - 1].score))) == multiset(Filter(b, Beats(a[|a| - 1].score))))
  }

  /** The score is high enough for the rows that are returned. */
  predicate Reaches(out: seq<ScoredRow>, score: real) {
    exists i :: 0 <= i < |out| && out[i].score <= score
  }

  /** No two different scorable rows have the same score at or above the last one returned. */
  ghost predicate Untied(query: Parsed, rows: seq<QueryRow>, topK: int, sqrt: real -> real) {
    forall x, y :: (&& x in Scored(query, rows, sqrt) && y in Scored(query, rows, sqrt) && x.score == y.score
                    && Reaches(Rank(query, rows, topK, sqrt), x.score)) ==> x == y
  }

  // ----- rearranged rows -----

  lemma {:induction false} ScoredConcat(query: Parsed, xs: seq<QueryRow>, ys: seq<QueryRow>, sqrt: real -> real)
    ensures Scored(query, xs + ys, sqrt) == Scored(query, xs, sqrt) + Scored(query, ys, sqrt)
  {
    if ys == [] {
      assert xs + ys == xs;
    } else {
      var front := ys[..|ys| - 1];
      ScoredConcat(query, xs, front, sqrt);
      assert (xs + ys)[..|xs + ys| - 1] == xs + front;
    }
  }

  function ScoredBy(query: Parsed, sqrt: real -> real): seq<QueryRow> -> seq<ScoredRow> {
    (rows: seq<QueryRow>) => Scored(query, rows, sqrt)
  }

  lemma ScoredRearranged(query: Parsed, rows: seq<QueryRow>, rows': seq<QueryRow>, sqrt: real -> real)
    requires multiset(rows) == multiset(rows')
    ensures multiset(Scored(query, rows, sqrt)) == multiset(Scored(query, rows', sqrt))
  {
    var f := ScoredBy(query, sqrt);
    forall xs, ys
      ensures f(xs + ys) == f(xs) + f(ys)
    {
      ScoredConcat(query, xs, ys, sqrt);
    }
    PiecewiseRearranges(f, rows, rows');
  }

  /** Whatever order the rows come in, every counter of the report is the same. */
  lemma ReportRearranged(query: Parsed, rows: seq<QueryRow>, rows': seq<QueryRow>, sqrt: real -> real)
    requires multiset(rows) == multiset(rows')
    ensures Report(query, rows, sqrt) == Report(query, rows', sqrt)
  {
    SameMembers(rows, rows');
    ReportCounts(query, rows, sqrt);
    ReportCounts(query, rows', sqrt);
    FilterRearranged(rows, rows', (row: QueryRow) => Judge(query, row, sqrt).Versioned?);
    FilterRearranged(rows, rows', (row: QueryRow) => Judge(query, row, sqrt).Legacy?);
    FilterRearranged(rows, rows', (row: QueryRow) => Judge(query, row, sqrt).Unparsable?);
  }

  // ----- sorted scores -----

  function ScoreOf(x: ScoredRow): real {
    x.score
  }

  predicate Falling(scores: seq<real>) {
    forall i, j :: 0 <= i < j < |scores| ==> scores[i] >= scores[j]
  }

  lemma HeadIsTop(a: seq<real>, b: seq<real>)
    requires Falling(a) && a != [] && b != [] && b[0] in a
    ensures a[0] >= b[0]
  {
  }

  lemma {:induction false} SameFalling(a: seq<real>, b: seq<real>)
    requires Falling(a) && Falling(b) && multiset(a) == multiset(b)
    ensures a == b
  {
    SameMembers(a, b);
    if a != [] {
      assert a[0] in a && b[0] in b;
      HeadIsTop(a, b);
      HeadIsTop(b, a);
      assert a == [a[0]] + a[1..] && b == [b[0]] + b[1..];
      SumCancels(multiset([a[0]]), multiset(a[1..]), multiset(b[1..]));
      SameFalling(a[1..], b[1..]);
    }
  }

  /** The scorable rows, best first. */
  function Ranked(query: Parsed, rows: seq<QueryRow>, sqrt: real -> real): seq<ScoredRow> {
    Sort(Scored(query, rows, sqrt), HigherScore)
  }

  lemma RankedFalls(query: Parsed, rows: seq<QueryRow>, sqrt: real -> real)
    ensures Sorted(Ranked(query, rows, sqrt), HigherScore)
    ensures multiset(Ranked(query, rows, sqrt)) == multiset(Scored(query, rows, sqrt))
  {
    assert TotalPreorder(HigherScore);
    SortSorts(Scored(query, rows, sqrt), HigherScore);
    SortKeepsElements(Scored(query, rows, sqrt), HigherScore);
  }

  lemma RankedRearranged(query: Parsed, rows: seq<QueryRow>, rows': seq<QueryRow>, sqrt: real -> real)
    requires multiset(rows) == multiset(rows')
    ensures var a, b := Ranked(query, rows, sqrt), Ranked(query, rows', sqrt);
            && multiset(a) == multiset(b) && |a| == |b|
            && forall i :: 0 <= i < |a| ==> a[i].score == b[i].score
  {
    var a, b := Ranked(query, rows, sqrt), Ranked(query, rows', sqrt);
    ScoredRearranged(query, rows, rows', sqrt);
    RankedFalls(query, rows, sqrt);
    RankedFalls(query, rows', sqrt);
    SameMembers(a, b);
    ImageRearranged(a, b, ScoreOf);
    ScoresFall(a);
    ScoresFall(b);
    SameFalling(ImageBy(ScoreOf)(a), ImageBy(ScoreOf)(b));
    forall i | 0 <= i < |a|
      ensures a[i].score == b[i].score
    {
      assert ImageBy(ScoreOf)(a)[i] == ImageBy(ScoreOf)(b)[i];
    }
  }

  lemma ScoresFall(a: seq<ScoredRow>)
    requires Sorted(a, HigherScore)
    ensures Falling(ImageBy(ScoreOf)(a))
  {
    forall i, j | 0 <= i < j < |a|
      ensures ImageBy(ScoreOf)(a)[i] >= ImageBy(ScoreOf)(a)[j]
    {
      assert HigherScore(a[i], a[j]);
      assert ScoreOf(a[i]) >= ScoreOf(a[j]);
    }
  }

  /** Cutting a descending list leaves everything above the cut. */
  lemma AboveTheCut(all: seq<ScoredRow>, k: nat, score: real)
    requires Sorted(all, HigherScore) && 0 < k <= |all| && score == all[k - 1].score
    ensures Filter(all[..k], Beats(score)) == Filter(all, Beats(score))
  {
    CutInTwo(all, k);
    FilterConcat(all[..k], all[k..], Beats(score));
    BehindTheCut(all, k, score);
    FilterNone(all[k..], Beats(score));
  }

  lemma BehindTheCut(all: seq<ScoredRow>, k: nat, score: real)
    requires Sorted(all, HigherScore) && 0 < k <= |all| && score == all[k - 1].score
    ensures forall x :: x in all[k..] ==> !Beats(score)(x)
  {
    forall x | x in all[k..]
      ensures !Beats(score)(x)
    {
      var j :| k <= j < |all| && all[j] == x;
      assert HigherScore(all[k - 1], all[j]);
    }
  }

  lemma CutUpToTies(all: seq<ScoredRow>, all': seq<ScoredRow>, k: nat)
    requires Sorted(all, HigherScore) && Sorted(all', HigherScore) && multiset(all) == multiset(all') && |all| == |all'|
    requires k <= |all| && forall i :: 0 <= i < |all| ==> all[i].score == all'[i].score
    ensures SameUpToTies(all[..k], all'[..k])
  {
    if k > 0 {
      var cut := all[k - 1].score;
      AboveTheCut(all, k, cut);
      AboveTheCut(all', k, cut);
      FilterRearranged(all, all', Beats(cut));
    }
  }

  /** How many of n rows Python's [:topK] keeps. */
  function Kept(n: nat, topK: int): (k: nat)
    ensures k <= n
  {
    if topK >= n then n else if topK >= 0 then topK else if -topK >= n then 0 else n + topK
  }

  lemma TakeKept<T>(xs: seq<T>, topK: int)
    ensures Take(xs, topK) == xs[..Kept(|xs|, topK)]
  {
  }

  /** Whatever order the rows come in, the ranking is the same up to ties at the cut; when nothing is cut
      off, it holds the same rows. */
  lemma RankUpToTies(query: Parsed, rows: seq<QueryRow>, rows': seq<QueryRow>, topK: int, sqrt: real -> real)
    requires multiset(rows) == multiset(rows')
    ensures var a, b := Rank(query, rows, topK, sqrt), Rank(query, rows', topK, sqrt);
            SameUpToTies(a, b) && (|a| == |Scored(query, rows, sqrt)| ==> multiset(a) == multiset(b))
  {
    var all, all' := Ranked(query, rows, sqrt), Ranked(query, rows', sqrt);
    RankedRearranged(query, rows, rows', sqrt);
    RankedFalls(query, rows, sqrt);
    RankedFalls(query, rows', sqrt);
    TakeKept(all, topK);
    TakeKept(all', topK);
    SortKeepsElements(Scored(query, rows, sqrt), HigherScore);
    var k := Kept(|all|, topK);
    CutUpToTies(all, all', k);
    if k == |all| {
      assert all[..k] == all && all'[..k] == all';
    }
  }

  // ----- ties decide -----

  /** Without ties at or above the cut the order of the rows does not matter. */
  lemma UntiedSame(query: Parsed, rows: seq<QueryRow>, rows': seq<QueryRow>, topK: int, sqrt: real -> real)
    requires multiset(rows) == multiset(rows') && Untied(query, rows, topK, sqrt)
    ensures Rank(query, rows', topK, sqrt) == Rank(query, rows, topK, sqrt)
  {
    var all, all' := Ranked(query, rows, sqrt), Ranked(query, rows', sqrt);
    var out, out' := Rank(query, rows, topK, sqrt), Rank(query, rows', topK, sqrt);
    RankedRearranged(query, rows, rows', sqrt);
    RankedFalls(query, rows, sqrt);
    TakeKept(all, topK);
    TakeKept(all', topK);
    SameMembers(all, Scored(query, rows, sqrt));
    SameMembers(all, all');
    forall i | 0 <= i < |out|
      ensures out'[i] == out[i]
    {
      assert out[i] == all[i] && out'[i] == all'[i];
      assert all[i] in all && all'[i] in all';
      assert Reaches(out, out[i].score);
    }
  }

  /** In a descending list the rows above a score come first. */
  lemma {:induction false} HigherFirst(all: seq<ScoredRow>, score: real, i: nat)
    requires Sorted(all, HigherScore) && i < |all|
    ensures all[i].score > score <==> i < |Filter(all, Beats(score))|
  {
    if all[0].score > score {
      if i > 0 {
        SortedRest(all);
        HigherFirst(all[1..], score, i - 1);
      }
    } else {
      AllBelow(all, score);
      FilterNone(all, Beats(score));
      assert i > 0 ==> HigherScore(all[0], all[i]);
    }
  }

  lemma SortedRest(all: seq<ScoredRow>)
    requires Sorted(all, HigherScore) && all != []
    ensures Sorted(all[1..], HigherScore)
  {
  }

  lemma AllBelow(all: seq<ScoredRow>, score: real)
    requires Sorted(all, HigherScore) && (all != [] ==> all[0].score <= score)
    ensures forall x :: x in all ==> !Beats(score)(x)
  {
    forall x | x in all
      ensures !Beats(score)(x)
    {
      var j :| 0 <= j < |all| && all[j] == x;
      assert j > 0 ==> HigherScore(all[0], all[j]);
    }
  }

  /** A row put in front of the rows comes right behind those with a higher score. */
  lemma {:induction false} InsertedBehindHigher(x: ScoredRow, all: seq<ScoredRow>)
    requires Sorted(all, HigherScore)
    ensures var p := |Filter(all, Beats(x.score))|;
            p < |InsertSorted(x, all, HigherScore)| && InsertSorted(x, all, HigherScore)[p] == x
  {
    if all == [] || HigherScore(x, all[0]) {
      AllBelow(all, x.score);
      FilterNone(all, Beats(x.score));
    } else {
      SortedRest(all);
      InsertedBehindHigher(x, all[1..]);
    }
  }

  function HowManyBeat(query: Parsed, rows: seq<QueryRow>, score: real, sqrt: real -> real): nat {
    |Filter(Scored(query, rows, sqrt), Beats(score))|
  }

  lemma ScoredInFront(query: Parsed, row: QueryRow, rest: seq<QueryRow>, sqrt: real -> real)
    requires IsScored(Judge(query, row, sqrt))
    ensures Scored(query, [row] + rest, sqrt) == [ScoredRow(Judge(query, row, sqrt).score, row)] + Scored(query, rest, sqrt)
  {
    ScoredConcat(query, [row], rest, sqrt);
    assert [row][..0] == [];
  }

  /** The first row that is read leads the rows of its score. */
  lemma FirstLeads(query: Parsed, rows: seq<QueryRow>, x: ScoredRow, sqrt: real -> real)
    requires rows != [] && rows[0] == x.row && IsScored(Judge(query, x.row, sqrt)) && x.score == Judge(query, x.row, sqrt).score
    ensures var p := HowManyBeat(query, rows, x.score, sqrt);
            p < |Ranked(query, rows, sqrt)| && Ranked(query, rows, sqrt)[p] == x
  {
    var rest := rows[1..];
    assert rows == [x.row] + rest;
    ScoredInFront(query, x.row, rest, sqrt);
    var below := Scored(query, rest, sqrt);
    assert Scored(query, rows, sqrt)[0] == x && Scored(query, rows, sqrt)[1..] == below;
    RankedFalls(query, rest, sqrt);
    InsertedBehindHigher(x, Ranked(query, rest, sqrt));
    FilterRearranged(Ranked(query, rest, sqrt), below, Beats(x.score));
  }

  lemma ReachesKept(query: Parsed, rows: seq<QueryRow>, score: real, topK: int, sqrt: real -> real)
    ensures Reaches(Rank(query, rows, topK, sqrt), score)
       <==> HowManyBeat(query, rows, score, sqrt) < |Rank(query, rows, topK, sqrt)|
  {
    var all, out := Ranked(query, rows, sqrt), Rank(query, rows, topK, sqrt);
    RankedFalls(query, rows, sqrt);
    TakeKept(all, topK);
    FilterRearranged(all, Scored(query, rows, sqrt), Beats(score));
    var p := HowManyBeat(query, rows, score, sqrt);
    if i :| 0 <= i < |out| && out[i].score <= score {
      HigherFirst(all, score, i);
    }
    if p < |out| {
      HigherFirst(all, score, p);
      assert out[p].score <= score;
    }
  }

  /** A row that reaches the ranking and is read first is returned, at the place its score gives it. */
  lemma FirstIsReturned(query: Parsed, rows: seq<QueryRow>, first: seq<QueryRow>, x: ScoredRow, topK: int, sqrt: real -> real)
    requires multiset(first) == multiset(rows) && x in Scored(query, rows, sqrt) && first != [] && first[0] == x.row
    requires Reaches(Rank(query, rows, topK, sqrt), x.score)
    ensures var out, p := Rank(query, first, topK, sqrt), HowManyBeat(query, rows, x.score, sqrt);
            p < |out| && out[p] == x
  {
    ScoredMembers(query, rows, sqrt, x);
    FirstLeads(query, first, x, sqrt);
    ReachesKept(query, rows, x.score, topK, sqrt);
    ScoredRearranged(query, rows, first, sqrt);
    FilterRearranged(Scored(query, rows, sqrt), Scored(query, first, sqrt), Beats(x.score));
    RankUpToTies(query, rows, first, topK, sqrt);
    TakeKept(Ranked(query, first, sqrt), topK);
  }

  lemma ToTheFront<T>(x: T, xs: seq<T>) returns (first: seq<T>)
    requires x in xs
    ensures multiset(first) == multiset(xs) && first != [] && first[0] == x
  {
    var a, b := ElementIn(x, xs);
    MultisetOfPieces(a, [x], b);
    first := [x] + (a + b);
  }

  /** The ranking is the same for every order of the rows exactly when no two different rows tie at or above
      the cut. */
  lemma TiesDecide(query: Parsed, rows: seq<QueryRow>, topK: int, sqrt: real -> real)
    ensures (forall rows' :: multiset(rows') == multiset(rows) ==> Rank(query, rows', topK, sqrt) == Rank(query, rows, topK, sqrt))
       <==> Untied(query, rows, topK, sqrt)
  {
    var scored := Scored(query, rows, sqrt);
    if Untied(query, rows, topK, sqrt) {
      forall rows' | multiset(rows') == multiset(rows)
        ensures Rank(query, rows', topK, sqrt) == Rank(query, rows, topK, sqrt)
      {
        UntiedSame(query, rows, rows', topK, sqrt);
      }
    } else {
      var x, y :| x in scored && y in scored && x.score == y.score && Reaches(Rank(query, rows, topK, sqrt), x.score) && x != y;
      ScoredMembers(query, rows, sqrt, x);
      ScoredMembers(query, rows, sqrt, y);
      var first := ToTheFront(x.row, rows);
      var second := ToTheFront(y.row, rows);
      FirstIsReturned(query, rows, first, x, topK, sqrt);
      FirstIsReturned(query, rows, second, y, topK, sqrt);
      assert Rank(query, first, topK, sqrt) != Rank(query, second, topK, sqrt);
    }
  }
}
