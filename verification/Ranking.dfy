/** Ranking stored embeddings against a query vector (retrieval.py). */
module Ranking {
  import opened Basics
  import opened Sorting
  import opened Crypto
  import Json
  import opened Vectors
  import opened EmbeddingCodec

  /** One joined row: a message and its embedding, unsealed. */
  datatype QueryRow = QueryRow(messageId: nat, ns: Namespace, content: Text, embeddingId: nat, embedding: Text)

  datatype RankReport = RankReport(scoredVersioned: nat, legacyCompatible: nat, skippedIncompatible: nat, skippedMalformed: nat)

  datatype ScoredRow = ScoredRow(score: real, row: QueryRow)

  /** What happens to one row. `Degraded` is the defensive branch for an unknown query backend. */
  datatype Verdict = Unparsable | Mismatch | Legacy(score: real) | Degraded(score: real) | Versioned(score: real)

  function ParseText(t: Text): Option<Parsed> {
    if |t| == 1 && t[0].Doc? then Parse(t[0].json) else None
  }

  function Judge(query: Parsed, row: QueryRow, sqrt: real -> real): Verdict {
    match ParseText(row.embedding)
    case None => Unparsable
    case Some(stored) =>
      var c := Compatible(query, stored);
      if c == Incompatible then Mismatch
      else match Cosine(query.vector, stored.vector, sqrt)
        case None => Mismatch
        case Some(score) =>
          if c == LegacySameDimension then Legacy(score)
          else if query.backend == None then Degraded(score)
          else Versioned(score)
  }

  function Count(report: RankReport, v: Verdict): RankReport {
    match v
    case Unparsable => report.(skippedMalformed := report.skippedMalformed + 1)
    case Mismatch => report.(skippedIncompatible := report.skippedIncompatible + 1)
    case Legacy(_) => report.(legacyCompatible := report.legacyCompatible + 1)
    case Degraded(_) => report.(legacyCompatible := report.legacyCompatible + 1)
    case Versioned(_) => report.(scoredVersioned := report.scoredVersioned + 1)
  }

  predicate IsScored(v: Verdict) {
    v.Legacy? || v.Degraded? || v.Versioned?
  }

  function Report(query: Parsed, rows: seq<QueryRow>, sqrt: real -> real): RankReport {
    if rows == [] then RankReport(0, 0, 0, 0)
    else Count(Report(query, rows[..|rows| - 1], sqrt), Judge(query, rows[|rows| - 1], sqrt))
  }

  /** The scorable rows with their scores, in their original order. */
  function Scored(query: Parsed, rows: seq<QueryRow>, sqrt: real -> real): seq<ScoredRow> {
    if rows == [] then [] else
      var v := Judge(query, rows[|rows| - 1], sqrt);
      Scored(query, rows[..|rows| - 1], sqrt) + if IsScored(v) then [ScoredRow(v.score, rows[|rows| - 1])] else []
  }

  predicate HigherScore(a: ScoredRow, b: ScoredRow) {
    a.score >= b.score
  }

  function Rank(query: Parsed, rows: seq<QueryRow>, topK: int, sqrt: real -> real): seq<ScoredRow> {
    Take(Sort(Scored(query, rows, sqrt), HigherScore), topK)
  }

  method RankRowsWithReport(query: Parsed, rows: seq<QueryRow>, topK: int, sqrt: real -> real)
    returns (out: seq<ScoredRow>, diag: RankReport)
    ensures out == Rank(query, rows, topK, sqrt) && diag == Report(query, rows, sqrt)
  {
    diag := RankReport(0, 0, 0, 0);
    var scored := [];
    var i := 0;
    while i < |rows|
      invariant 0 <= i <= |rows|
      invariant diag == Report(query, rows[..i], sqrt)
      invariant scored == Scored(query, rows[..i], sqrt)
    {
      var row := rows[i];
      assert rows[..i + 1][..i] == rows[..i];
      i := i + 1;
      var stored := ParseText(row.embedding);
      if stored.None? {
        diag := diag.(skippedMalformed := diag.skippedMalformed + 1);
        continue;
      }
      var c := Compatible(query, stored.value);
      if c == Incompatible {
        diag := diag.(skippedIncompatible := diag.skippedIncompatible + 1);
        continue;
      }
      var score := Cosine(query.vector, stored.value.vector, sqrt);
      if score.None? {
        diag := diag.(skippedIncompatible := diag.skippedIncompatible + 1);
        continue;
      }
      if c == LegacySameDimension || query.backend == None {
        diag := diag.(legacyCompatible := diag.legacyCompatible + 1);
      } else {
        diag := diag.(scoredVersioned := diag.scoredVersioned + 1);
      }
      scored := scored + [ScoredRow(score.value, row)];
    }
    assert rows[..i] == rows;
    out := Take(Sort(scored, HigherScore), topK);
  }

  /** The defensive branch for an unknown query backend is never taken. */
  lemma NeverDegraded(query: Parsed, row: QueryRow, sqrt: real -> real)
    ensures !Judge(query, row, sqrt).Degraded?
  {
  }

  /** Each row is counted once, in the counter that says what happened to it. */
  lemma {:induction false} ReportCounts(query: Parsed, rows: seq<QueryRow>, sqrt: real -> real)
    ensures var r := Report(query, rows, sqrt);
            && r.scoredVersioned + r.legacyCompatible + r.skippedIncompatible + r.skippedMalformed == |rows|
            && r.scoredVersioned + r.legacyCompatible == |Scored(query, rows, sqrt)|
            && r.scoredVersioned == |Filter(rows, (row: QueryRow) => Judge(query, row, sqrt).Versioned?)|
            && r.legacyCompatible == |Filter(rows, (row: QueryRow) => Judge(query, row, sqrt).Legacy?)|
            && r.skippedMalformed == |Filter(rows, (row: QueryRow) => Judge(query, row, sqrt).Unparsable?)|
  {
    if rows != [] {
      var front, last := rows[..|rows| - 1], rows[|rows| - 1];
      assert rows == front + [last];
      ReportCounts(query, front, sqrt);
      FilterSnoc(front, last, (row: QueryRow) => Judge(query, row, sqrt).Versioned?);
      FilterSnoc(front, last, (row: QueryRow) => Judge(query, row, sqrt).Legacy?);
      FilterSnoc(front, last, (row: QueryRow) => Judge(query, row, sqrt).Unparsable?);
      NeverDegraded(query, last, sqrt);
    }
  }

  lemma {:induction false} ScoredMembers(query: Parsed, rows: seq<QueryRow>, sqrt: real -> real, x: ScoredRow)
    ensures x in Scored(query, rows, sqrt)
       <==> x.row in rows && IsScored(Judge(query, x.row, sqrt)) && x.score == Judge(query, x.row, sqrt).score
  {
    if rows != [] {
      ScoredMembers(query, rows[..|rows| - 1], sqrt, x);
      assert rows == rows[..|rows| - 1] + [rows[|rows| - 1]];
    }
  }

  lemma ScoresBounded(query: Parsed, rows: seq<QueryRow>, sqrt: real -> real, x: ScoredRow)
    requires IsRoot(sqrt) && x in Scored(query, rows, sqrt)
    ensures -1.0 <= x.score <= 1.0
  {
    ScoredMembers(query, rows, sqrt, x);
    CosineBounded(query.vector, ParseText(x.row.embedding).value.vector, sqrt);
  }

  /** The answer is a descending top-k of the scorable rows, with every score in [-1, 1]; a negative k leaves out the last -k. */
  lemma RankMeaning(query: Parsed, rows: seq<QueryRow>, topK: int, sqrt: real -> real)
    requires IsRoot(sqrt)
    ensures var out, all := Rank(query, rows, topK, sqrt), Scored(query, rows, sqrt);
            && |out| == CutLength(topK, |all|)
            && (forall i, j :: 0 <= i < j < |out| ==> out[i].score >= out[j].score)
            && (forall x :: x in out ==> x in all && -1.0 <= x.score <= 1.0)
            && (forall x :: x in all ==> x in out || (|out| < |all| && forall i :: 0 <= i < |out| ==> out[i].score >= x.score))
            && multiset(out) <= multiset(all)
  {
    var all := Scored(query, rows, sqrt);
    var out := Rank(query, rows, topK, sqrt);
    assert TotalPreorder(HigherScore);
    TopOfSorted(all, HigherScore, topK);
    assert forall i, j :: 0 <= i < j < |out| ==> HigherScore(out[i], out[j]);
    forall x | x in out
      ensures -1.0 <= x.score <= 1.0
    {
      ScoresBounded(query, rows, sqrt, x);
    }
    forall x | x in all && x !in out
      ensures forall i :: 0 <= i < |out| ==> out[i].score >= x.score
    {
      assert forall i :: 0 <= i < |out| ==> HigherScore(out[i], x);
    }
  }

  lemma FromThereOn<T>(out: seq<T>, i: nat, y: T) returns (j: nat)
    requires i <= |out| && y in out && y !in out[..i]
    ensures i <= j < |out| && out[j] == y
  {
    assert out == out[..i] + out[i..];
    var k :| 0 <= k < |out| - i && out[i..][k] == y;
    j := i + k;
  }

  /** A scorable row that is not among the first i answers does not score above the next one. */
  lemma NoneAbove(query: Parsed, rows: seq<QueryRow>, topK: int, sqrt: real -> real, out: seq<ScoredRow>, i: nat, y: ScoredRow)
    requires IsRoot(sqrt) && out == Rank(query, rows, topK, sqrt) && i < |out|
    requires y in Scored(query, rows, sqrt) && y !in out[..i]
    ensures out[i] in Scored(query, rows, sqrt) && out[i].score >= y.score
  {
    var all := Scored(query, rows, sqrt);
    assert TotalPreorder(HigherScore);
    TopOfSorted(all, HigherScore, topK);
    if y in out {
      var j := FromThereOn(out, i, y);
      assert HigherScore(out[i], out[j]);
    } else {
      assert HigherScore(out[i], y);
    }
  }

  /** The stored form of a hash embedding. */
  function Payload(v: Vector): Text {
    [Doc(Serialize(v, BACKEND_HASH_V1, None).GetOr(Json.Null))]
  }

  lemma PayloadParses(v: Vector)
    requires |v| == HASH_DIMENSIONS
    ensures QueryMeta(v, BACKEND_HASH_V1, None).Some? && ParseText(Payload(v)) == QueryMeta(v, BACKEND_HASH_V1, None)
  {
    SerializeParses(v, BACKEND_HASH_V1, None);
  }

  /** A row whose payload has the query's own backend and vector. */
  lemma SelfScore(query: Parsed, row: QueryRow, sqrt: real -> real)
    requires IsRoot(sqrt) && query.vector != [] && Dot(query.vector, query.vector) == 1.0
    requires ParseText(row.embedding) == Some(query) && query.backend.Some? && !query.legacy
    ensures Judge(query, row, sqrt) == Versioned(1.0)
  {
    CosineSelf(query.vector, sqrt);
  }

  lemma PerfectScore(v: Vector, row: QueryRow, sqrt: real -> real)
    requires IsRoot(sqrt) && |v| == HASH_DIMENSIONS && Dot(v, v) == 1.0 && row.embedding == Payload(v)
    ensures var query := QueryMeta(v, BACKEND_HASH_V1, None); query.Some? && Judge(query.value, row, sqrt) == Versioned(1.0)
  {
    PayloadParses(v);
    SelfScore(QueryMeta(v, BACKEND_HASH_V1, None).value, row, sqrt);
  }

  /** Asking the hash backend for the text of a stored memory puts a perfect score on top. */
  lemma ExactTextRanksFirst(tokens: seq<TokenHash>, whole: TokenHash, rows: seq<QueryRow>, row: QueryRow, topK: nat, sqrt: real -> real)
    requires IsRoot(sqrt) && topK > 0 && row in rows
    requires row.embedding == Payload(HashEmbedding(tokens, whole, sqrt))
    ensures var query := QueryMeta(HashEmbedding(tokens, whole, sqrt), BACKEND_HASH_V1, None);
            query.Some? && (var out := Rank(query.value, rows, topK, sqrt); out != [] && out[0].score == 1.0)
  {
    var e := HashEmbedding(tokens, whole, sqrt);
    HashEmbeddingIsUnit(tokens, whole, sqrt);
    PerfectScore(e, row, sqrt);
    var query := QueryMeta(e, BACKEND_HASH_V1, None).value;
    var x := ScoredRow(1.0, row);
    ScoredMembers(query, rows, sqrt, x);
    RankMeaning(query, rows, topK, sqrt);
    var out := Rank(query, rows, topK, sqrt);
    assert Scored(query, rows, sqrt) != [];
    assert out[0] in out;
    if x in out {
      var i :| 0 <= i < |out| && out[i] == x;
      assert out[0].score >= out[i].score;
    }
  }
}
