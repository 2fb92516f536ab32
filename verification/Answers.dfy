/** Answers of two databases compared: whatever order SQLite visits the rows in, and up to the names of the
    messages (sync_service.py, retrieval.py, storage.py). */
module Answers {
  import opened Basics
  import opened Sorting
  import opened Crypto
  import opened Tokenizer
  import opened Rows
  import opened Inserts
  import opened Simulation
  import opened SearchIndex
  import opened EmbeddingCodec
  import opened Ranking
  import opened Ties
  import opened Query

  // ----- renaming messages -----

  type Naming = nat -> nat

  const SAME_NAMES: Naming := (id: nat) => id

  function RowRenamer(h: Naming): QueryRow -> QueryRow {
    (r: QueryRow) => r.(messageId := h(r.messageId))
  }

  function RenamedRows(rows: seq<QueryRow>, h: Naming): seq<QueryRow> {
    ImageBy(RowRenamer(h))(rows)
  }

  function ScoredRenamer(h: Naming): ScoredRow -> ScoredRow {
    (x: ScoredRow) => x.(row := x.row.(messageId := h(x.row.messageId)))
  }

  function RenamedRanks(xs: seq<ScoredRow>, h: Naming): seq<ScoredRow> {
    ImageBy(ScoredRenamer(h))(xs)
  }

  function RenamedAnswer(r: Result<Answer, QueryError>, h: Naming): Result<Answer, QueryError> {
    match r
    case Err(e) => Err(e)
    case Ok(a) => Ok(a.(rows := RenamedRanks(a.rows, h)))
  }

  lemma RenamedSame(r: Result<Answer, QueryError>)
    ensures RenamedAnswer(r, SAME_NAMES) == r
  {
    if r.Ok? {
      assert RenamedRanks(r.value.rows, SAME_NAMES) == r.value.rows;
    }
  }

  lemma OneScoredRenamed(query: Parsed, row: QueryRow, sqrt: real -> real, h: Naming)
    ensures Scored(query, [RowRenamer(h)(row)], sqrt) == RenamedRanks(Scored(query, [row], sqrt), h)
  {
    assert [row][..0] == [] && [RowRenamer(h)(row)][..0] == [];
    assert Judge(query, RowRenamer(h)(row), sqrt) == Judge(query, row, sqrt);
  }

  lemma OneRenamed(row: QueryRow, h: Naming)
    ensures RenamedRows([row], h) == [RowRenamer(h)(row)]
  {
  }

  lemma {:induction false} ScoredRenamed(query: Parsed, rows: seq<QueryRow>, sqrt: real -> real, h: Naming)
    ensures Scored(query, RenamedRows(rows, h), sqrt) == RenamedRanks(Scored(query, rows, sqrt), h)
  {
    if rows != [] {
      var front, last := rows[..|rows| - 1], rows[|rows| - 1];
      FrontAndLast(rows);
      ScoredRenamed(query, front, sqrt, h);
      OneScoredRenamed(query, last, sqrt, h);
      OneRenamed(last, h);
      ImageConcat(front, [last], RowRenamer(h));
      ScoredConcat(query, front, [last], sqrt);
      ScoredConcat(query, RenamedRows(front, h), [RowRenamer(h)(last)], sqrt);
      ImageConcat(Scored(query, front, sqrt), Scored(query, [last], sqrt), ScoredRenamer(h));
    }
  }

  lemma ReportSnoc(query: Parsed, rows: seq<QueryRow>, row: QueryRow, sqrt: real -> real)
    ensures Report(query, rows + [row], sqrt) == Count(Report(query, rows, sqrt), Judge(query, row, sqrt))
  {
    assert (rows + [row])[..|rows|] == rows;
  }

  lemma {:induction false} ReportRenamed(query: Parsed, rows: seq<QueryRow>, sqrt: real -> real, h: Naming)
    ensures Report(query, RenamedRows(rows, h), sqrt) == Report(query, rows, sqrt)
  {
    if rows != [] {
      var front, last := rows[..|rows| - 1], rows[|rows| - 1];
      FrontAndLast(rows);
      ReportRenamed(query, front, sqrt, h);
      OneRenamed(last, h);
      ImageConcat(front, [last], RowRenamer(h));
      ReportSnoc(query, front, last, sqrt);
      ReportSnoc(query, RenamedRows(front, h), RowRenamer(h)(last), sqrt);
      assert Judge(query, RowRenamer(h)(last), sqrt) == Judge(query, last, sqrt);
    }
  }

  lemma CutImage<T, U>(xs: seq<T>, ys: seq<U>, h: T -> U, k: nat)
    requires Image(xs, ys, h) && k <= |xs|
    ensures ys[..k] == ImageBy(h)(xs[..k])
  {
  }

  /** A ranking does not look at the names of the messages. */
  lemma RankRenamed(query: Parsed, rows: seq<QueryRow>, topK: int, sqrt: real -> real, h: Naming)
    ensures Rank(query, RenamedRows(rows, h), topK, sqrt) == RenamedRanks(Rank(query, rows, topK, sqrt), h)
  {
    var xs := Scored(query, rows, sqrt);
    var ys := RenamedRanks(xs, h);
    ScoredRenamed(query, rows, sqrt, h);
    SortImage(xs, ys, HigherScore, HigherScore, ScoredRenamer(h));
    var all, all' := Sort(xs, HigherScore), Sort(ys, HigherScore);
    TakeKept(all, topK);
    TakeKept(all', topK);
    CutImage(all, all', ScoredRenamer(h), Kept(|all|, topK));
  }

  // ----- a question to a database -----

  /** A query as put to a database, with the names its messages go by. */
  datatype Asked = Asked(db: Tables, ctx: Option<Context>, req: Request, names: Naming)

  function PlanOf(lex: Lexicon, a: Asked): Plan {
    PlanQuery(lex, a.db, SessionOf(a.db, a.ctx), a.req)
  }

  function RowsOf(lex: Lexicon, a: Asked, scans: Scans): Result<seq<QueryRow>, CryptoError> {
    PlannedRows(a.db, SessionOf(a.db, a.ctx), a.req, PlanOf(lex, a), scans)
  }

  /** The rows the query ranks, in the order of the embeddings table. */
  function Source(lex: Lexicon, a: Asked): seq<QueryRow> {
    if PlanOf(lex, a).fallback == UseExact || RowsOf(lex, a, TABLE_SCANS).Err? then [] else RowsOf(lex, a, TABLE_SCANS).value
  }

  /** The answer, its messages under the names they go by. */
  function AnswerTo(lex: Lexicon, engine: Engine, a: Asked, scans: Scans): Result<Answer, QueryError> {
    RenamedAnswer(QueryWithReport(lex, a.db, SessionOf(a.db, a.ctx), engine, a.req, scans), a.names)
  }

  /** The ranked rows of an answer. */
  function RanksIn(r: Result<Answer, QueryError>): Result<seq<ScoredRow>, QueryError> {
    match r
    case Err(e) => Err(e)
    case Ok(a) => Ok(a.rows)
  }

  /** The same error, or rankings that are the same up to ties at the cut. */
  ghost predicate SameRanks(r: Result<seq<ScoredRow>, QueryError>, r': Result<seq<ScoredRow>, QueryError>) {
    if r.Err? then r == r' else r'.Ok? && SameUpToTies(r.value, r'.value)
  }

  /** The same error, or the same report and rankings that are the same up to ties at the cut. */
  ghost predicate SameAnswer(r: Result<Answer, QueryError>, r': Result<Answer, QueryError>) {
    SameRanks(RanksIn(r), RanksIn(r')) && (r.Ok? && r'.Ok? ==> r.value.report == r'.value.report)
  }

  function MetaOf(engine: Engine, req: Request): Option<Parsed> {
    QueryMeta(engine.embed(req.text), engine.backend, engine.model)
  }

  /** The query fails, or no two different rows that it scores tie at or above the cut. */
  ghost predicate UntiedQuery(lex: Lexicon, engine: Engine, a: Asked) {
    var meta := MetaOf(engine, a.req);
    a.req.strategy != Unsupported && meta.Some? ==> Untied(meta.value, Source(lex, a), a.req.topK, engine.sqrt)
  }

  function RanksFrom(engine: Engine, req: Request, rows: seq<QueryRow>): Result<seq<ScoredRow>, QueryError> {
    if req.strategy == Unsupported then Err(BadStrategy)
    else if MetaOf(engine, req).None? then Err(BadQueryVector)
    else Ok(Rank(MetaOf(engine, req).value, rows, req.topK, engine.sqrt))
  }

  /** The answer of a query with this plan, over these rows. */
  function AnswerOn(engine: Engine, req: Request, total: nat, plan: Plan, rows: seq<QueryRow>): Result<Answer, QueryError> {
    if req.strategy == Unsupported then Err(BadStrategy)
    else if MetaOf(engine, req).None? then Err(BadQueryVector)
    else if plan.fallback == UseExact then
      Ok(Answer([], QueryReport(req.strategy, IndexScan, total, 0, 0, req.limit, UseExact, NO_RANKS)))
    else AnswerFrom(engine, req, MetaOf(engine, req).value, total, plan, Ok(rows))
  }

  lemma AnswerIsOn(lex: Lexicon, db: Tables, s: Session, engine: Engine, req: Request, scans: Scans, plan: Plan, rows: seq<QueryRow>)
    requires plan == PlanQuery(lex, db, s, req)
    requires plan.fallback != UseExact ==> PlannedRows(db, s, req, plan, scans) == Ok(rows)
    ensures QueryWithReport(lex, db, s, engine, req, scans) == AnswerOn(engine, req, CountEmbeddings(db, req.scope), plan, rows)
  {
  }

  lemma RanksOn(engine: Engine, req: Request, total: nat, plan: Plan, rows: seq<QueryRow>)
    requires plan.fallback == UseExact ==> rows == []
    ensures RanksIn(AnswerOn(engine, req, total, plan, rows)) == RanksFrom(engine, req, rows)
  {
  }

  lemma AnswerParts(engine: Engine, req: Request, meta: Parsed, total: nat, plan: Plan, rows: seq<QueryRow>, ranks: seq<ScoredRow>, rank: RankReport)
    requires ranks == Rank(meta, rows, req.topK, engine.sqrt) && rank == Report(meta, rows, engine.sqrt)
    ensures AnswerFrom(engine, req, meta, total, plan, Ok(rows)) == Ok(Answer(ranks, FullReport(req, total, plan, |rows|, rank)))
  {
  }

  lemma AnswerFromRenamed(engine: Engine, req: Request, meta: Parsed, total: nat, plan: Plan, rows: seq<QueryRow>, h: Naming)
    ensures RenamedAnswer(AnswerFrom(engine, req, meta, total, plan, Ok(rows)), h)
         == AnswerFrom(engine, req, meta, total, plan, Ok(RenamedRows(rows, h)))
  {
    var ranks, rank := Rank(meta, rows, req.topK, engine.sqrt), Report(meta, rows, engine.sqrt);
    RankRenamed(meta, rows, req.topK, engine.sqrt, h);
    ReportRenamed(meta, rows, engine.sqrt, h);
    AnswerParts(engine, req, meta, total, plan, rows, ranks, rank);
    AnswerParts(engine, req, meta, total, plan, RenamedRows(rows, h), RenamedRanks(ranks, h), rank);
  }

  lemma AnswerOnRenamed(engine: Engine, req: Request, total: nat, plan: Plan, rows: seq<QueryRow>, h: Naming)
    ensures RenamedAnswer(AnswerOn(engine, req, total, plan, rows), h) == AnswerOn(engine, req, total, plan, RenamedRows(rows, h))
  {
    if MetaOf(engine, req).Some? {
      AnswerFromRenamed(engine, req, MetaOf(engine, req).value, total, plan, rows, h);
      assert RenamedRanks([], h) == [];
    }
  }

  lemma RankedFrom(engine: Engine, req: Request, total: nat, plan: Plan, rows: seq<QueryRow>, h: Naming, r: Result<Answer, QueryError>)
    requires r == AnswerOn(engine, req, total, plan, rows) && (plan.fallback == UseExact ==> rows == [])
    ensures RenamedAnswer(r, h) == AnswerOn(engine, req, total, plan, RenamedRows(rows, h))
    ensures RanksIn(RenamedAnswer(r, h)) == RanksFrom(engine, req, RenamedRows(rows, h))
  {
    AnswerOnRenamed(engine, req, total, plan, rows, h);
    RanksOn(engine, req, total, plan, RenamedRows(rows, h));
  }

  /** The rows that a scan gives a query. */
  lemma RowsScanned(lex: Lexicon, a: Asked, scans: Scans) returns (rows: seq<QueryRow>)
    requires Protected(a.db, a.ctx)
    ensures multiset(rows) == multiset(Source(lex, a))
    ensures if PlanOf(lex, a).fallback == UseExact then rows == [] else RowsOf(lex, a, scans) == Ok(rows)
  {
    PlannedRowsReorder(a.db, a.ctx, a.req, PlanOf(lex, a), scans, TABLE_SCANS);
    rows := if PlanOf(lex, a).fallback == UseExact then [] else RowsOf(lex, a, scans).value;
  }

  /** A query ranks its rows in some order. */
  lemma RowsRanked(lex: Lexicon, engine: Engine, a: Asked, scans: Scans) returns (rows: seq<QueryRow>)
    requires Protected(a.db, a.ctx)
    ensures multiset(rows) == multiset(Source(lex, a))
    ensures if PlanOf(lex, a).fallback == UseExact then rows == [] else RowsOf(lex, a, scans) == Ok(rows)
    ensures AnswerTo(lex, engine, a, scans)
         == AnswerOn(engine, a.req, CountEmbeddings(a.db, a.req.scope), PlanOf(lex, a), RenamedRows(rows, a.names))
    ensures RanksIn(AnswerTo(lex, engine, a, scans)) == RanksFrom(engine, a.req, RenamedRows(rows, a.names))
  {
    rows := RowsScanned(lex, a, scans);
    AnswerIsOn(lex, a.db, SessionOf(a.db, a.ctx), engine, a.req, scans, PlanOf(lex, a), rows);
    RankedFrom(engine, a.req, CountEmbeddings(a.db, a.req.scope), PlanOf(lex, a), rows, a.names,
               QueryWithReport(lex, a.db, SessionOf(a.db, a.ctx), engine, a.req, scans));
  }

  lemma RanksAre(lex: Lexicon, engine: Engine, a: Asked, scans: Scans) returns (rows: seq<QueryRow>)
    requires Protected(a.db, a.ctx)
    ensures multiset(rows) == multiset(Source(lex, a))
    ensures RanksIn(AnswerTo(lex, engine, a, scans)) == RanksFrom(engine, a.req, RenamedRows(rows, a.names))
  {
    rows := RowsRanked(lex, engine, a, scans);
  }

  // ----- a scan that visits a given row first -----

  function Swapping(es: seq<EmbeddingRow>, first: seq<EmbeddingRow>): seq<EmbeddingRow> -> seq<EmbeddingRow> {
    (xs: seq<EmbeddingRow>) => if xs == es then first else xs
  }

  lemma SwappingPermutes(es: seq<EmbeddingRow>, first: seq<EmbeddingRow>)
    requires multiset(first) == multiset(es)
    ensures Permutes(Swapping(es, first))
  {
  }

  lemma LeadingList(db: Tables, ctx: Option<Context>, keep: Keep, row: QueryRow) returns (scan: Scan)
    requires Protected(db, ctx)
    requires var rows := ListEmbeddings(db, SessionOf(db, ctx), keep, TABLE_ORDER); rows.Ok? && row in rows.value
    ensures var rows := ListEmbeddings(db, SessionOf(db, ctx), keep, scan); rows.Ok? && rows.value != [] && rows.value[0] == row
  {
    JoinedReads(db, ctx, keep, TABLE_ORDER);
    var es := Joined(db, keep);
    var i :| 0 <= i < |es| && RowFor(db.messages, ctx, es[i]) == row;
    var first := ToTheFront(es[i], es);
    SwappingPermutes(es, first);
    scan := Swapping(es, first);
    JoinedReads(db, ctx, keep, scan);
    assert Visited(db, keep, scan) == first;
  }

  lemma LeadingExact(db: Tables, ctx: Option<Context>, scope: Scope, row: QueryRow) returns (scan: Scan)
    requires Protected(db, ctx)
    requires var rows := ExactRows(db, SessionOf(db, ctx), scope, TABLE_ORDER); rows.Ok? && row in rows.value
    ensures var rows := ExactRows(db, SessionOf(db, ctx), scope, scan); rows.Ok? && rows.value != [] && rows.value[0] == row
  {
    if scope.provider.Some? && scope.conversation.Some? {
      scan := LeadingList(db, ctx, ScopeKeep(scope), row);
    } else {
      scan := LeadingList(db, ctx, ProjectKeep(scope.project), row);
    }
  }

  lemma LeadingScan(lex: Lexicon, a: Asked, row: QueryRow) returns (scans: Scans)
    requires Protected(a.db, a.ctx) && row in Source(lex, a)
    ensures var rows := RowsOf(lex, a, scans); rows.Ok? && rows.value != [] && rows.value[0] == row
  {
    scans := TABLE_SCANS;
    if PlanOf(lex, a).used == ExactScan {
      var scan := LeadingExact(a.db, a.ctx, a.req.scope, row);
      scans := Scans(scan, TABLE_ORDER);
    } else {
      var scan := LeadingList(a.db, a.ctx, IdsKeep(PlanOf(lex, a).ids, a.req.scope), row);
      scans := Scans(TABLE_ORDER, scan);
    }
  }

  // ----- two questions with the same rows -----

  /** The rows of the two queries are the same, under their names and in whatever order, and they are ranked
      against the same vector. */
  ghost predicate SameSource(lex: Lexicon, engine: Engine, a: Asked, b: Asked) {
    && Protected(a.db, a.ctx) && Protected(b.db, b.ctx)
    && multiset(RenamedRows(Source(lex, a), a.names)) == multiset(RenamedRows(Source(lex, b), b.names))
    && a.req.text == b.req.text && a.req.topK == b.req.topK
    && (a.req.strategy == Unsupported <==> b.req.strategy == Unsupported)
  }

  /** Different messages among the rows go by different names. */
  ghost predicate NamesApart(lex: Lexicon, a: Asked) {
    forall x, y :: x in Source(lex, a) && y in Source(lex, a) && a.names(x.messageId) == a.names(y.messageId) ==> x.messageId == y.messageId
  }

  /** Rows of either query, renamed, are the same rows. */
  lemma SameRenamed(lex: Lexicon, engine: Engine, a: Asked, b: Asked, rows: seq<QueryRow>, rows': seq<QueryRow>)
    requires SameSource(lex, engine, a, b) && multiset(rows) == multiset(Source(lex, a)) && multiset(rows') == multiset(Source(lex, b))
    ensures multiset(RenamedRows(rows, a.names)) == multiset(RenamedRows(rows', b.names)) == multiset(RenamedRows(Source(lex, a), a.names))
  {
    ImageRearranged(rows, Source(lex, a), RowRenamer(a.names));
    ImageRearranged(rows', Source(lex, b), RowRenamer(b.names));
  }

  lemma RearrangedRanks(engine: Engine, req: Request, rows: seq<QueryRow>, req': Request, rows': seq<QueryRow>)
    requires multiset(rows) == multiset(rows')
    requires req.text == req'.text && req.topK == req'.topK && (req.strategy == Unsupported <==> req'.strategy == Unsupported)
    ensures SameRanks(RanksFrom(engine, req, rows), RanksFrom(engine, req', rows'))
  {
    if MetaOf(engine, req).Some? {
      RankUpToTies(MetaOf(engine, req).value, rows, rows', req.topK, engine.sqrt);
    }
  }

  lemma RanksUpToTies(lex: Lexicon, engine: Engine, a: Asked, b: Asked, scans: Scans, scans': Scans)
    requires SameSource(lex, engine, a, b)
    ensures SameRanks(RanksIn(AnswerTo(lex, engine, a, scans)), RanksIn(AnswerTo(lex, engine, b, scans')))
  {
    var rows := RanksAre(lex, engine, a, scans);
    var rows' := RanksAre(lex, engine, b, scans');
    SameRenamed(lex, engine, a, b, rows, rows');
    RearrangedRanks(engine, a.req, RenamedRows(rows, a.names), b.req, RenamedRows(rows', b.names));
  }

  lemma RenamedScore(query: Parsed, rows: seq<QueryRow>, sqrt: real -> real, h: Naming, x: ScoredRow) returns (y: ScoredRow)
    requires x in Scored(query, RenamedRows(rows, h), sqrt)
    ensures y in Scored(query, rows, sqrt) && x == ScoredRenamer(h)(y)
  {
    ScoredRenamed(query, rows, sqrt, h);
    var all := Scored(query, rows, sqrt);
    var i :| 0 <= i < |all| && RenamedRanks(all, h)[i] == x;
    y := all[i];
  }

  lemma ReachesRenamed(out: seq<ScoredRow>, h: Naming, score: real)
    requires Reaches(RenamedRanks(out, h), score)
    ensures Reaches(out, score)
  {
    var i :| 0 <= i < |out| && RenamedRanks(out, h)[i].score <= score;
    assert out[i].score <= score;
  }

  lemma UntiedRenamed(query: Parsed, rows: seq<QueryRow>, topK: int, sqrt: real -> real, h: Naming)
    requires Untied(query, rows, topK, sqrt)
    ensures Untied(query, RenamedRows(rows, h), topK, sqrt)
  {
    var out := Rank(query, rows, topK, sqrt);
    RankRenamed(query, rows, topK, sqrt, h);
    forall x, y | (&& x in Scored(query, RenamedRows(rows, h), sqrt) && y in Scored(query, RenamedRows(rows, h), sqrt)
                   && x.score == y.score && Reaches(RenamedRanks(out, h), x.score))
      ensures x == y
    {
      var x' := RenamedScore(query, rows, sqrt, h, x);
      var y' := RenamedScore(query, rows, sqrt, h, y);
      ReachesRenamed(out, h, x.score);
    }
  }

  lemma UntiedRearranged(engine: Engine, req: Request, source: seq<QueryRow>, rows: seq<QueryRow>, req': Request, rows': seq<QueryRow>, meta: Parsed)
    requires MetaOf(engine, req) == Some(meta) && Untied(meta, source, req.topK, engine.sqrt)
    requires multiset(rows) == multiset(source) == multiset(rows')
    requires req.text == req'.text && req.topK == req'.topK && (req.strategy == Unsupported <==> req'.strategy == Unsupported)
    ensures RanksFrom(engine, req, rows) == RanksFrom(engine, req', rows')
  {
    UntiedSame(meta, source, rows, req.topK, engine.sqrt);
    UntiedSame(meta, source, rows', req.topK, engine.sqrt);
  }

  lemma UntiedRanks(lex: Lexicon, engine: Engine, a: Asked, b: Asked, scans: Scans, scans': Scans)
    requires SameSource(lex, engine, a, b) && UntiedQuery(lex, engine, a)
    ensures RanksIn(AnswerTo(lex, engine, a, scans)) == RanksIn(AnswerTo(lex, engine, b, scans'))
  {
    var rows := RanksAre(lex, engine, a, scans);
    var rows' := RanksAre(lex, engine, b, scans');
    SameRenamed(lex, engine, a, b, rows, rows');
    if a.req.strategy != Unsupported && MetaOf(engine, a.req).Some? {
      var meta := MetaOf(engine, a.req).value;
      UntiedRenamed(meta, Source(lex, a), a.req.topK, engine.sqrt, a.names);
      UntiedRearranged(engine, a.req, RenamedRows(Source(lex, a), a.names), RenamedRows(rows, a.names), b.req, RenamedRows(rows', b.names), meta);
    }
  }

  lemma LeadingRank(engine: Engine, req: Request, meta: Parsed, source: seq<QueryRow>, rows: seq<QueryRow>, x: ScoredRow, h: Naming)
    requires req.strategy != Unsupported && MetaOf(engine, req) == Some(meta) && multiset(rows) == multiset(source)
    requires x in Scored(meta, source, engine.sqrt) && Reaches(Rank(meta, source, req.topK, engine.sqrt), x.score)
    requires rows != [] && rows[0] == x.row
    ensures var r, p := RanksFrom(engine, req, RenamedRows(rows, h)), HowManyBeat(meta, source, x.score, engine.sqrt);
            r.Ok? && p < |r.value| && r.value[p] == ScoredRenamer(h)(x)
  {
    FirstIsReturned(meta, source, rows, x, req.topK, engine.sqrt);
    RankRenamed(meta, rows, req.topK, engine.sqrt, h);
  }

  /** A tied row that reaches the ranking is returned, at the place its score gives it, when it is visited first. */
  lemma LeadingAnswer(lex: Lexicon, engine: Engine, a: Asked, meta: Parsed, x: ScoredRow) returns (scans: Scans)
    requires Protected(a.db, a.ctx) && a.req.strategy != Unsupported && MetaOf(engine, a.req) == Some(meta)
    requires x in Scored(meta, Source(lex, a), engine.sqrt) && Reaches(Rank(meta, Source(lex, a), a.req.topK, engine.sqrt), x.score)
    ensures var r, p := RanksIn(AnswerTo(lex, engine, a, scans)), HowManyBeat(meta, Source(lex, a), x.score, engine.sqrt);
            r.Ok? && p < |r.value| && r.value[p] == ScoredRenamer(a.names)(x)
  {
    ScoredMembers(meta, Source(lex, a), engine.sqrt, x);
    scans := LeadingScan(lex, a, x.row);
    var rows := RowsRanked(lex, engine, a, scans);
    LeadingRank(engine, a.req, meta, Source(lex, a), rows, x, a.names);
  }

  /** With a tie at or above the cut two orders give two rankings. */
  lemma TiedRanks(lex: Lexicon, engine: Engine, a: Asked) returns (scans: Scans, scans': Scans)
    requires Protected(a.db, a.ctx) && NamesApart(lex, a) && !UntiedQuery(lex, engine, a)
    ensures RanksIn(AnswerTo(lex, engine, a, scans)) != RanksIn(AnswerTo(lex, engine, a, scans'))
  {
    var meta, rows := MetaOf(engine, a.req).value, Source(lex, a);
    var scored := Scored(meta, rows, engine.sqrt);
    var x, y :| x in scored && y in scored && x.score == y.score && Reaches(Rank(meta, rows, a.req.topK, engine.sqrt), x.score) && x != y;
    ScoredMembers(meta, rows, engine.sqrt, x);
    ScoredMembers(meta, rows, engine.sqrt, y);
    scans := LeadingAnswer(lex, engine, a, meta, x);
    scans' := LeadingAnswer(lex, engine, a, meta, y);
    assert ScoredRenamer(a.names)(x) != ScoredRenamer(a.names)(y);
  }

  /** Two queries over the same rows: whatever the orders, they rank alike up to ties at the cut; and they rank
      alike whatever the orders exactly when no two rows tie there. */
  lemma RanksDecide(lex: Lexicon, engine: Engine, a: Asked, b: Asked)
    requires SameSource(lex, engine, a, b) && NamesApart(lex, a)
    ensures forall x, y :: SameRanks(RanksIn(AnswerTo(lex, engine, a, x)), RanksIn(AnswerTo(lex, engine, b, y)))
    ensures (forall x, y :: RanksIn(AnswerTo(lex, engine, a, x)) == RanksIn(AnswerTo(lex, engine, b, y))) <==> UntiedQuery(lex, engine, a)
  {
    forall x, y
      ensures SameRanks(RanksIn(AnswerTo(lex, engine, a, x)), RanksIn(AnswerTo(lex, engine, b, y)))
    {
      RanksUpToTies(lex, engine, a, b, x, y);
    }
    if UntiedQuery(lex, engine, a) {
      forall x, y
        ensures RanksIn(AnswerTo(lex, engine, a, x)) == RanksIn(AnswerTo(lex, engine, b, y))
      {
        UntiedRanks(lex, engine, a, b, x, y);
      }
    } else {
      var x, x' := TiedRanks(lex, engine, a);
      var y := TABLE_SCANS;
      assert RanksIn(AnswerTo(lex, engine, a, x)) != RanksIn(AnswerTo(lex, engine, b, y))
          || RanksIn(AnswerTo(lex, engine, a, x')) != RanksIn(AnswerTo(lex, engine, b, y));
    }
  }

  // ----- reports -----

  /** The plans are the same, the names of the candidates aside. */
  ghost predicate SamePlan(lex: Lexicon, a: Asked, b: Asked) {
    var p, q := PlanOf(lex, a), PlanOf(lex, b);
    && a.req == b.req && p.used == q.used && p.fallback == q.fallback && |p.ids| == |q.ids|
    && CountEmbeddings(a.db, a.req.scope) == CountEmbeddings(b.db, b.req.scope)
  }

  lemma RearrangedReport(engine: Engine, req: Request, total: nat, plan: Plan, rows: seq<QueryRow>, plan': Plan, rows': seq<QueryRow>)
    requires multiset(rows) == multiset(rows') && plan.used == plan'.used && plan.fallback == plan'.fallback && |plan.ids| == |plan'.ids|
    ensures var r, r' := AnswerOn(engine, req, total, plan, rows), AnswerOn(engine, req, total, plan', rows');
            r.Ok? && r'.Ok? ==> r.value.report == r'.value.report
  {
    SameMembers(rows, rows');
    if MetaOf(engine, req).Some? {
      ReportRearranged(MetaOf(engine, req).value, rows, rows', engine.sqrt);
    }
  }

  lemma SameReport(lex: Lexicon, engine: Engine, a: Asked, b: Asked, x: Scans, y: Scans)
    requires SameSource(lex, engine, a, b) && SamePlan(lex, a, b)
    ensures var r, r' := AnswerTo(lex, engine, a, x), AnswerTo(lex, engine, b, y);
            r.Ok? && r'.Ok? ==> r.value.report == r'.value.report
  {
    var rows := RowsRanked(lex, engine, a, x);
    var rows' := RowsRanked(lex, engine, b, y);
    SameRenamed(lex, engine, a, b, rows, rows');
    RearrangedReport(engine, a.req, CountEmbeddings(a.db, a.req.scope), PlanOf(lex, a), RenamedRows(rows, a.names),
                     PlanOf(lex, b), RenamedRows(rows', b.names));
  }

  /** Two questions that any order answers alike up to ties, and every order alike exactly without them. */
  ghost predicate AnsweredAlike(lex: Lexicon, engine: Engine, a: Asked, b: Asked) {
    && (forall x, y :: SameAnswer(AnswerTo(lex, engine, a, x), AnswerTo(lex, engine, b, y)))
    && ((forall x, y :: AnswerTo(lex, engine, a, x) == AnswerTo(lex, engine, b, y)) <==> UntiedQuery(lex, engine, a))
    && (forall x :: AnswerTo(lex, engine, a, x).Err? ==> !AnswerTo(lex, engine, a, x).error.Unreadable?)
  }

  lemma SameFromParts(r: Result<Answer, QueryError>, r': Result<Answer, QueryError>)
    requires r.Ok? && r'.Ok? ==> r.value.report == r'.value.report
    ensures r == r' <==> RanksIn(r) == RanksIn(r')
  {
  }

  lemma SameParts(lex: Lexicon, engine: Engine, a: Asked, b: Asked, x: Scans, y: Scans)
    requires SameSource(lex, engine, a, b) && SamePlan(lex, a, b)
    ensures SameAnswer(AnswerTo(lex, engine, a, x), AnswerTo(lex, engine, b, y))
    ensures AnswerTo(lex, engine, a, x) == AnswerTo(lex, engine, b, y)
       <==> RanksIn(AnswerTo(lex, engine, a, x)) == RanksIn(AnswerTo(lex, engine, b, y))
  {
    RanksUpToTies(lex, engine, a, b, x, y);
    SameReport(lex, engine, a, b, x, y);
    SameFromParts(AnswerTo(lex, engine, a, x), AnswerTo(lex, engine, b, y));
  }

  lemma NeverUnreadable(lex: Lexicon, engine: Engine, a: Asked, scans: Scans)
    requires Protected(a.db, a.ctx)
    ensures var r := AnswerTo(lex, engine, a, scans); r.Err? ==> !r.error.Unreadable?
  {
    var rows := RanksAre(lex, engine, a, scans);
  }

  lemma AnswersDecide(lex: Lexicon, engine: Engine, a: Asked, b: Asked)
    requires SameSource(lex, engine, a, b) && NamesApart(lex, a) && SamePlan(lex, a, b)
    ensures AnsweredAlike(lex, engine, a, b)
  {
    RanksDecide(lex, engine, a, b);
    forall x, y
      ensures SameAnswer(AnswerTo(lex, engine, a, x), AnswerTo(lex, engine, b, y))
      ensures AnswerTo(lex, engine, a, x) == AnswerTo(lex, engine, b, y)
         <==> RanksIn(AnswerTo(lex, engine, a, x)) == RanksIn(AnswerTo(lex, engine, b, y))
    {
      SameParts(lex, engine, a, b, x, y);
    }
    forall x
      ensures AnswerTo(lex, engine, a, x).Err? ==> !AnswerTo(lex, engine, a, x).error.Unreadable?
    {
      NeverUnreadable(lex, engine, a, x);
    }
  }

  // ----- encryption is invisible to queries -----

  lemma PlainIsProtected(db: Tables, ctx: Option<Context>)
    ensures Protected(Plain(db, ctx), None) && SessionOf(Plain(db, ctx), None) == PLAIN
  {
  }

  lemma PlainSource(lex: Lexicon, db: Tables, ctx: Option<Context>, req: Request, names: Naming)
    requires Consistent(lex, db, ctx)
    ensures Source(lex, Asked(db, ctx, req, names)) == Source(lex, Asked(Plain(db, ctx), None, req, names))
    ensures SamePlan(lex, Asked(db, ctx, req, names), Asked(Plain(db, ctx), None, req, names))
  {
    PlainIsProtected(db, ctx);
    PlanRefines(lex, db, ctx, req);
    PlannedRowsRefine(db, ctx, req, PlanQuery(lex, db, SessionOf(db, ctx), req));
  }

  /** Every query, in every strategy, gives on an encrypted database the answer it gives on the plaintext
      behind it, whatever order SQLite visits the rows in on either: the same report and the same ranking up to
      ties at the cut, or the same error, and never an unreadable row. It gives the same rows whatever the
      orders exactly when no two rows tie there. */
  lemma QueryRefines(lex: Lexicon, db: Tables, ctx: Option<Context>, engine: Engine, req: Request)
    requires Consistent(lex, db, ctx)
    ensures AnsweredAlike(lex, engine, Asked(db, ctx, req, SAME_NAMES), Asked(Plain(db, ctx), None, req, SAME_NAMES))
    ensures forall x, y :: SameAnswer(QueryWithReport(lex, db, SessionOf(db, ctx), engine, req, x),
                                      QueryWithReport(lex, Plain(db, ctx), PLAIN, engine, req, y))
    ensures (forall x, y :: QueryWithReport(lex, db, SessionOf(db, ctx), engine, req, x)
                         == QueryWithReport(lex, Plain(db, ctx), PLAIN, engine, req, y))
       <==> UntiedQuery(lex, engine, Asked(db, ctx, req, SAME_NAMES))
  {
    var a, b := Asked(db, ctx, req, SAME_NAMES), Asked(Plain(db, ctx), None, req, SAME_NAMES);
    PlainSource(lex, db, ctx, req, SAME_NAMES);
    PlainIsProtected(db, ctx);
    AnswersDecide(lex, engine, a, b);
    forall x
      ensures AnswerTo(lex, engine, a, x) == QueryWithReport(lex, db, SessionOf(db, ctx), engine, req, x)
      ensures AnswerTo(lex, engine, b, x) == QueryWithReport(lex, Plain(db, ctx), PLAIN, engine, req, x)
    {
      RenamedSame(QueryWithReport(lex, db, SessionOf(db, ctx), engine, req, x));
      RenamedSame(QueryWithReport(lex, Plain(db, ctx), PLAIN, engine, req, x));
    }
  }
}
