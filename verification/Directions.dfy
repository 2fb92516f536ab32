/** Which stored vectors a query ranks first and last (retrieval.py). */
module Directions {
  import opened Basics
  import Json
  import opened Vectors
  import opened Cosines
  import opened EmbeddingCodec
  import opened Ranking

  function StoredVector(row: QueryRow): Vector {
    var p := ParseText(row.embedding);
    if p.Some? then p.value.vector else []
  }

  /** When a row is scored: its payload parses, has as many dimensions as the query, is a bare array of unknown origin or
      comes from the very backend of the query, and neither vector is zero. Bare arrays count as legacy, all others as
      versioned. */
  lemma ScoredExactly(query: Parsed, row: QueryRow, sqrt: real -> real)
    requires IsRoot(sqrt)
    ensures var v, p := Judge(query, row, sqrt), ParseText(row.embedding);
            && (v.Unparsable? <==> p.None?)
            && (v.Legacy? || v.Versioned? <==>
                  p.Some? && p.value.dimensions == query.dimensions && Comparable(query.vector, p.value.vector)
                  && (row.embedding[0].json.Arr? || (query.backend.Some? && p.value.backend == query.backend)))
            && (v.Legacy? ==> row.embedding[0].json.Arr?)
            && (v.Versioned? ==> row.embedding[0].json.Obj?)
  {
    var p := ParseText(row.embedding);
    if p.Some? {
      ParsedShape(row.embedding[0].json);
      OnlyArraysAreLegacy(row.embedding[0].json);
      CosineDefined(query.vector, p.value.vector, sqrt);
    }
  }

  lemma OnlyArraysAreLegacy(j: Json.Json)
    requires Parse(j).Some?
    ensures if Parse(j).value.legacy then j.Arr? else j.Obj?
  {
  }

  /** What the extreme scores of a row say about its stored vector. */
  lemma ScoreEnds(query: Parsed, rows: seq<QueryRow>, sqrt: real -> real, x: ScoredRow)
    requires IsRoot(sqrt) && x in Scored(query, rows, sqrt)
    ensures -1.0 <= x.score <= 1.0
    ensures x.score == 1.0 <==> SameDirection(query.vector, StoredVector(x.row))
    ensures x.score == -1.0 <==> OppositeDirection(query.vector, StoredVector(x.row))
  {
    ScoredMembers(query, rows, sqrt, x);
    ScoresBounded(query, rows, sqrt, x);
    var v := StoredVector(x.row);
    assert Cosine(query.vector, v, sqrt) == Some(x.score);
    CosineDefined(query.vector, v, sqrt);
    CosineOneExactly(query.vector, v, sqrt);
    CosineMinusOneExactly(query.vector, v, sqrt);
  }

  /** Stored vectors along the query come first and stored vectors against it last: an answer with an opposite vector
      has only opposite ones below it, answered or cut off, and one along the query only such ones above it. */
  lemma DirectionsRank(query: Parsed, rows: seq<QueryRow>, topK: int, sqrt: real -> real, out: seq<ScoredRow>, i: nat, y: ScoredRow)
    requires IsRoot(sqrt) && out == Rank(query, rows, topK, sqrt) && i < |out|
    requires y in Scored(query, rows, sqrt) && y !in out[..i]
    ensures OppositeDirection(query.vector, StoredVector(out[i].row)) ==> OppositeDirection(query.vector, StoredVector(y.row))
    ensures SameDirection(query.vector, StoredVector(y.row)) ==> SameDirection(query.vector, StoredVector(out[i].row))
  {
    NoneAbove(query, rows, topK, sqrt, out, i, y);
    ScoreEnds(query, rows, sqrt, out[i]);
    ScoreEnds(query, rows, sqrt, y);
  }
}
