/** MemoryMesh.query_with_report: exact, indexed and automatic retrieval (sync_service.py), and the
    embedding listings it reads (storage.py). */
module Query {
  import opened Basics
  import opened Sorting
  import opened Crypto
  import opened Tokenizer
  import opened Rows
  import opened Inserts
  import opened Simulation
  import opened SearchIndex
  import opened EmbeddingCodec
  import opened Ranking
  import opened Vectors
  import opened Store

  // ----- listings -----

  function Owner(ms: seq<MessageRow>, id: nat): Option<MessageRow> {
    match FirstIndex(ms, (m: MessageRow) => m.id == id)
    case None => None
    case Some(i) => Some(ms[i])
  }

  /** A join condition on the unprotected columns. */
  type Keep = (nat, Namespace) -> bool

  predicate Joins(ms: seq<MessageRow>, e: EmbeddingRow, keep: Keep) {
    Owner(ms, e.key).Some? && keep(e.key, Owner(ms, e.key).value.ns)
  }

  function JoinFilter(ms: seq<MessageRow>, keep: Keep): EmbeddingRow -> bool {
    (e: EmbeddingRow) => Joins(ms, e, keep)
  }

  /** The embeddings that join a kept message. */
  function Joined(db: Tables, keep: Keep): seq<EmbeddingRow> {
    Filter(db.embeddings, JoinFilter(db.messages, keep))
  }

  ghost predicate Permutes(scan: seq<EmbeddingRow> -> seq<EmbeddingRow>) {
    forall es :: multiset(scan(es)) == multiset(es)
  }

  /** The order in which SQLite visits joined rows. The statements ask for none, so it may be any; an index on
      the stored content makes it depend on that content. */
  type Scan = scan: seq<EmbeddingRow> -> seq<EmbeddingRow> | Permutes(scan) witness (es: seq<EmbeddingRow>) => es

  const TABLE_ORDER: Scan := (es: seq<EmbeddingRow>) => es

  /** The orders of an exact scan and of a scan by ids. */
  datatype Scans = Scans(exact: Scan, byIds: Scan)

  /** The joined embeddings in the order they are visited. */
  function Visited(db: Tables, keep: Keep, scan: Scan): (r: seq<EmbeddingRow>)
    ensures multiset(r) == multiset(Joined(db, keep))
    ensures forall e :: e in r <==> e in Joined(db, keep)
  {
    var r := scan(Joined(db, keep));
    assert multiset(r) == multiset(Joined(db, keep));
    assert forall e :: e in r <==> e in multiset(Joined(db, keep));
    r
  }

  function ReadRow(ms: seq<MessageRow>, ctx: Option<Context>, e: EmbeddingRow): Result<QueryRow, CryptoError>
    requires Owner(ms, e.key).Some?
  {
    var m := Owner(ms, e.key).value;
    match ReadText(ctx, e.body, EmbeddingJson, e.id)
    case Err(x) => Err(x)
    case Ok(embedding) =>
      match ReadText(ctx, m.content, MessageContent, m.id)
      case Err(x) => Err(x)
      case Ok(content) => Ok(QueryRow(m.id, m.ns, content, e.id, embedding))
  }

  function ReadRows(ms: seq<MessageRow>, ctx: Option<Context>, es: seq<EmbeddingRow>): (r: Result<seq<QueryRow>, CryptoError>)
    requires forall e :: e in es ==> Owner(ms, e.key).Some?
    ensures r.Ok? ==> |r.value| == |es|
  {
    if es == [] then Ok([]) else
      match ReadRow(ms, ctx, es[0])
      case Err(x) => Err(x)
      case Ok(row) =>
        match ReadRows(ms, ctx, es[1..])
        case Err(x) => Err(x)
        case Ok(rest) => Ok([row] + rest)
  }

  /** SELECT ... FROM memory_embeddings JOIN memory_messages, unsealed row by row. */
  function ListEmbeddings(db: Tables, s: Session, keep: Keep, scan: Scan): Result<seq<QueryRow>, CryptoError> {
    ReadRows(db.messages, s.ctx, Visited(db, keep, scan))
  }

  function CountEmbeddings(db: Tables, scope: Scope): nat {
    |Joined(db, ScopeKeep(scope))|
  }

  function ProjectKeep(project: string): Keep {
    (id: nat, ns: Namespace) => ns.project == project
  }

  function ScopeKeep(scope: Scope): Keep {
    (id: nat, ns: Namespace) => InScope(ns, scope)
  }

  function IdsKeep(ids: seq<nat>, scope: Scope): Keep {
    (id: nat, ns: Namespace) => id in ids && InScope(ns, scope)
  }

  /** The rows an exact scan ranks, branch by branch. */
  function ExactRows(db: Tables, s: Session, scope: Scope, scan: Scan): Result<seq<QueryRow>, CryptoError> {
    if scope.provider.None? && scope.conversation.None? && scope.role.None? then
      ListEmbeddings(db, s, ProjectKeep(scope.project), scan)
    else if scope.provider.Some? && scope.conversation.Some? then
      ListEmbeddings(db, s, ScopeKeep(scope), scan)
    else
      match ListEmbeddings(db, s, ProjectKeep(scope.project), scan)
      case Err(x) => Err(x)
      case Ok(rows) => Ok(Filter(rows, NarrowFilter(scope)))
  }

  /** The filters an exact scan applies to rows already read: provider and conversation, no role. */
  function NarrowFilter(scope: Scope): QueryRow -> bool {
    (r: QueryRow) =>
      && (scope.provider.Some? ==> r.ns.provider == scope.provider.value)
      && (scope.conversation.Some? ==> r.ns.conversation == scope.conversation.value)
  }

  // ----- the query -----

  datatype Strategy = ExactScan | IndexScan | Auto | Unsupported

  datatype Request = Request(strategy: Strategy, scope: Scope, text: Text, topK: int, limit: int, threshold: int)

  /** The embedding backend and the square root of the platform. */
  datatype Engine = Engine(embed: Text -> Vector, backend: string, model: Option<string>, sqrt: real -> real)

  datatype Fallback = NoFallback | NoLexicalCandidates | EmptyQueryTokens | UseExact

  datatype QueryReport = QueryReport(
    requested: Strategy,
    used: Strategy,
    totalEligible: nat,
    candidateCount: nat,
    embeddingsScored: nat,
    limit: int,
    fallback: Fallback,
    rank: RankReport)

  datatype QueryError = BadStrategy | BadQueryVector | Unreadable(error: CryptoError)

  datatype Answer = Answer(rows: seq<ScoredRow>, report: QueryReport)

  /** The strategy that ends up being used, why, and the candidates if it is the index. */
  datatype Plan = Plan(used: Strategy, fallback: Fallback, ids: seq<nat>)

  function HitIds(hits: seq<Hit>): seq<nat> {
    seq(|hits|, i requires 0 <= i < |hits| => hits[i].id)
  }

  function PlanQuery(lex: Lexicon, db: Tables, s: Session, req: Request): Plan {
    var used := if req.strategy != Auto then req.strategy
                else if CountEmbeddings(db, req.scope) <= req.threshold then ExactScan else IndexScan;
    if used != IndexScan then Plan(ExactScan, NoFallback, [])
    else
      var terms := MapQuery(s, Tokenize(lex, req.text));
      if terms == [] then
        if req.strategy == IndexScan then Plan(IndexScan, UseExact, []) else Plan(ExactScan, EmptyQueryTokens, [])
      else
        var ids := HitIds(SelectCandidates(db, req.scope, terms, req.limit));
        if ids != [] then Plan(IndexScan, NoFallback, ids)
        else if req.strategy == IndexScan then Plan(IndexScan, UseExact, []) else Plan(ExactScan, NoLexicalCandidates, [])
  }

  const NO_RANKS := RankReport(0, 0, 0, 0)

  /** The report over n ranked rows. */
  function FullReport(req: Request, total: nat, plan: Plan, n: nat, rank: RankReport): QueryReport {
    QueryReport(req.strategy, plan.used, total, if plan.used == ExactScan then n else |plan.ids|,
                rank.scoredVersioned + rank.legacyCompatible + rank.skippedIncompatible + rank.skippedMalformed,
                req.limit, plan.fallback, rank)
  }

  /** What the query answers once its plan and its rows are known. */
  function AnswerFrom(engine: Engine, req: Request, meta: Parsed, total: nat, plan: Plan, rows: Result<seq<QueryRow>, CryptoError>)
    : Result<Answer, QueryError>
  {
    if rows.Err? then Err(Unreadable(rows.error))
    else
      Ok(Answer(Rank(meta, rows.value, req.topK, engine.sqrt),
                FullReport(req, total, plan, |rows.value|, Report(meta, rows.value, engine.sqrt))))
  }

  function QueryWithReport(lex: Lexicon, db: Tables, s: Session, engine: Engine, req: Request, scans: Scans): Result<Answer, QueryError> {
    if req.strategy == Unsupported then Err(BadStrategy)
    else
      var meta := QueryMeta(engine.embed(req.text), engine.backend, engine.model);
      if meta.None? then Err(BadQueryVector)
      else
        var plan, total := PlanQuery(lex, db, s, req), CountEmbeddings(db, req.scope);
        if plan.fallback == UseExact then
          Ok(Answer([], QueryReport(req.strategy, IndexScan, total, 0, 0, req.limit, UseExact, NO_RANKS)))
        else
          AnswerFrom(engine, req, meta.value, total, plan, PlannedRows(db, s, req, plan, scans))
  }

  function PlannedRows(db: Tables, s: Session, req: Request, plan: Plan, scans: Scans): Result<seq<QueryRow>, CryptoError> {
    if plan.used == ExactScan then ExactRows(db, s, req.scope, scans.exact)
    else ListEmbeddings(db, s, IdsKeep(plan.ids, req.scope), scans.byIds)
  }

  class MemoryMesh {
    const store: MemoryStore
    const engine: Engine
    var lastQueryReport: Option<QueryReport>

    constructor (store: MemoryStore, engine: Engine)
      ensures this.store == store && this.engine == engine && lastQueryReport == None
    {
      this.store, this.engine, lastQueryReport := store, engine, None;
    }

    /** The choice of strategy and candidates, step by step. */
    method ChoosePlan(db: Tables, s: Session, req: Request, total: nat) returns (plan: Plan)
      requires total == CountEmbeddings(db, req.scope)
      ensures plan == PlanQuery(store.lex, db, s, req)
    {
      var used := req.strategy;
      if used == Auto {
        used := if total <= req.threshold then ExactScan else IndexScan;
      }
      if used != IndexScan {
        return Plan(ExactScan, NoFallback, []);
      }
      var words := TokenizeForIndex(store.lex, req.text);
      var terms := MapQuery(s, words);
      if terms == [] {
        return if req.strategy == IndexScan then Plan(IndexScan, UseExact, []) else Plan(ExactScan, EmptyQueryTokens, []);
      }
      var ids := HitIds(SelectCandidates(db, req.scope, terms, req.limit));
      if ids == [] {
        return if req.strategy == IndexScan then Plan(IndexScan, UseExact, []) else Plan(ExactScan, NoLexicalCandidates, []);
      }
      return Plan(IndexScan, NoFallback, ids);
    }

    /** Ranks the rows and fills in the report. */
    method RankRows(req: Request, meta: Parsed, total: nat, plan: Plan, rows: Result<seq<QueryRow>, CryptoError>)
      returns (r: Result<Answer, QueryError>)
      ensures r == AnswerFrom(engine, req, meta, total, plan, rows)
    {
      if rows.Err? {
        return Err(Unreadable(rows.error));
      }
      var ranked, rank := RankRowsWithReport(meta, rows.value, req.topK, engine.sqrt);
      var count := if plan.used == ExactScan then |rows.value| else |plan.ids|;
      var scored := rank.scoredVersioned + rank.legacyCompatible + rank.skippedIncompatible + rank.skippedMalformed;
      return Ok(Answer(ranked, QueryReport(req.strategy, plan.used, total, count, scored, req.limit, plan.fallback, rank)));
    }

    /** The query; the crypto session is resolved on first use. */
    method Ask(req: Request, scans: Scans) returns (r: Result<Answer, QueryError>)
      modifies this, store
      ensures store.db.Contents() == old(store.db.Contents())
      ensures old(store.NextSession()).Ok? ==>
                r == QueryWithReport(store.lex, store.db.Contents(), old(store.NextSession()).value, engine, req, scans)
      ensures old(store.NextSession()).Err? ==> r.Err?
      ensures lastQueryReport == if r.Ok? then Some(r.value.report) else old(lastQueryReport)
    {
      if req.strategy == Unsupported {
        return Err(BadStrategy);
      }
      var meta := QueryMeta(engine.embed(req.text), engine.backend, engine.model);
      if meta.None? {
        return Err(BadQueryVector);
      }
      var db := store.db.Contents();
      var total := CountEmbeddings(db, req.scope);
      var session := store.EncryptionContext();
      if session.Err? {
        return Err(Unreadable(session.error));
      }
      var plan := ChoosePlan(db, session.value, req, total);
      if plan.fallback == UseExact {
        var none := QueryReport(req.strategy, IndexScan, total, 0, 0, req.limit, UseExact, NO_RANKS);
        lastQueryReport := Some(none);
        return Ok(Answer([], none));
      }
      r := RankRows(req, meta.value, total, plan, PlannedRows(db, session.value, req, plan, scans));
      if r.Ok? {
        lastQueryReport := Some(r.value.report);
      }
    }
  }

  // ----- encryption is invisible to queries -----

  lemma OwnerOpens(db: Tables, ctx: Option<Context>, id: nat)
    ensures Owner(Plain(db, ctx).messages, id)
         == if Owner(db.messages, id).Some? then Some(OpenMessage(ctx, Owner(db.messages, id).value)) else None
  {
    FirstIndexSame(db.messages, (m: MessageRow) => m.id == id, Plain(db, ctx).messages, (m: MessageRow) => m.id == id);
  }

  lemma JoinedOpens(db: Tables, ctx: Option<Context>, keep: Keep)
    ensures var a, b := Joined(db, keep), Joined(Plain(db, ctx), keep);
            |b| == |a| && forall i :: 0 <= i < |a| ==> b[i] == OpenRow(ctx, a[i], EmbeddingJson)
  {
    var plain := Plain(db, ctx);
    forall i | 0 <= i < |db.embeddings|
      ensures Joins(db.messages, db.embeddings[i], keep) == Joins(plain.messages, plain.embeddings[i], keep)
    {
      OwnerOpens(db, ctx, db.embeddings[i].key);
    }
    FilterImage(db.embeddings, JoinFilter(db.messages, keep), plain.embeddings, JoinFilter(plain.messages, keep),
                (e: EmbeddingRow) => OpenRow(ctx, e, EmbeddingJson));
  }

  lemma ReadRowOpens(db: Tables, ctx: Option<Context>, e: EmbeddingRow)
    requires Protected(db, ctx) && e in db.embeddings && Owner(db.messages, e.key).Some?
    ensures Owner(Plain(db, ctx).messages, e.key).Some?
    ensures ReadRow(db.messages, ctx, e).Ok?
    ensures ReadRow(db.messages, ctx, e) == ReadRow(Plain(db, ctx).messages, None, OpenRow(ctx, e, EmbeddingJson))
  {
    OwnerOpens(db, ctx, e.key);
    var m := Owner(db.messages, e.key).value;
    var i :| 0 <= i < |db.embeddings| && db.embeddings[i] == e;
    ReadsOpen(ctx, e.body, EmbeddingJson, e.id);
    var k := FirstIndex(db.messages, (x: MessageRow) => x.id == e.key).value;
    assert db.messages[k] == m;
    ReadsOpen(ctx, m.content, MessageContent, m.id);
  }

  lemma {:induction false} ReadRowsOpens(db: Tables, ctx: Option<Context>, es: seq<EmbeddingRow>, opn: seq<EmbeddingRow>)
    requires Protected(db, ctx)
    requires forall e :: e in es ==> e in db.embeddings && Owner(db.messages, e.key).Some?
    requires |opn| == |es| && forall i :: 0 <= i < |es| ==> opn[i] == OpenRow(ctx, es[i], EmbeddingJson)
    ensures forall e :: e in opn ==> Owner(Plain(db, ctx).messages, e.key).Some?
    ensures ReadRows(db.messages, ctx, es).Ok?
    ensures ReadRows(db.messages, ctx, es) == ReadRows(Plain(db, ctx).messages, None, opn)
  {
    forall e | e in opn
      ensures Owner(Plain(db, ctx).messages, e.key).Some?
    {
      var i :| 0 <= i < |es| && opn[i] == e;
      assert es[i] in es;
      OwnerOpens(db, ctx, e.key);
    }
    if es != [] {
      ReadRowOpens(db, ctx, es[0]);
      ReadRowsOpens(db, ctx, es[1..], opn[1..]);
    }
  }

  /** The row read for an embedding, where there is one. */
  function RowFor(ms: seq<MessageRow>, ctx: Option<Context>, e: EmbeddingRow): QueryRow {
    if Owner(ms, e.key).Some? && ReadRow(ms, ctx, e).Ok? then ReadRow(ms, ctx, e).value
    else QueryRow(0, Namespace("", "", "", ""), [], 0, [])
  }

  function RowReader(ms: seq<MessageRow>, ctx: Option<Context>): EmbeddingRow -> QueryRow {
    (e: EmbeddingRow) => RowFor(ms, ctx, e)
  }

  lemma {:induction false} ReadRowsIs(ms: seq<MessageRow>, ctx: Option<Context>, es: seq<EmbeddingRow>, rows: seq<QueryRow>)
    requires forall e :: e in es ==> Owner(ms, e.key).Some?
    requires |rows| == |es| && forall i :: 0 <= i < |es| ==> ReadRow(ms, ctx, es[i]) == Ok(rows[i])
    ensures ReadRows(ms, ctx, es) == Ok(rows)
  {
    if es != [] {
      ReadRowsIs(ms, ctx, es[1..], rows[1..]);
      assert rows == [rows[0]] + rows[1..];
    }
  }

  lemma ReadRowsAre(ms: seq<MessageRow>, ctx: Option<Context>, es: seq<EmbeddingRow>)
    requires forall e :: e in es ==> Owner(ms, e.key).Some? && ReadRow(ms, ctx, e).Ok?
    ensures ReadRows(ms, ctx, es) == Ok(ImageBy(RowReader(ms, ctx))(es))
  {
    var rows := ImageBy(RowReader(ms, ctx))(es);
    forall i | 0 <= i < |es|
      ensures ReadRow(ms, ctx, es[i]) == Ok(rows[i])
    {
      assert es[i] in es;
      assert rows[i] == RowFor(ms, ctx, es[i]);
    }
    ReadRowsIs(ms, ctx, es, rows);
  }

  /** The same readable rows, in whatever order. */
  ghost predicate SameRows(a: Result<seq<QueryRow>, CryptoError>, b: Result<seq<QueryRow>, CryptoError>) {
    a.Ok? && b.Ok? && multiset(a.value) == multiset(b.value)
  }

  lemma JoinedReads(db: Tables, ctx: Option<Context>, keep: Keep, scan: Scan)
    requires Protected(db, ctx)
    ensures ListEmbeddings(db, SessionOf(db, ctx), keep, scan) == Ok(ImageBy(RowReader(db.messages, ctx))(Visited(db, keep, scan)))
  {
    forall e | e in Visited(db, keep, scan)
      ensures ReadRow(db.messages, ctx, e).Ok?
    {
      ReadRowOpens(db, ctx, e);
    }
    ReadRowsAre(db.messages, ctx, Visited(db, keep, scan));
  }

  /** On a protected database every row is readable, in every order. */
  lemma ScanOnlyReorders(db: Tables, ctx: Option<Context>, keep: Keep, scan: Scan, scan': Scan)
    requires Protected(db, ctx)
    ensures SameRows(ListEmbeddings(db, SessionOf(db, ctx), keep, scan), ListEmbeddings(db, SessionOf(db, ctx), keep, scan'))
  {
    JoinedReads(db, ctx, keep, scan);
    JoinedReads(db, ctx, keep, scan');
    ImageRearranged(Visited(db, keep, scan), Visited(db, keep, scan'), RowReader(db.messages, ctx));
  }

  lemma ListEmbeddingsRefines(db: Tables, ctx: Option<Context>, keep: Keep)
    requires Protected(db, ctx)
    ensures ListEmbeddings(db, SessionOf(db, ctx), keep, TABLE_ORDER).Ok?
    ensures ListEmbeddings(db, SessionOf(db, ctx), keep, TABLE_ORDER) == ListEmbeddings(Plain(db, ctx), PLAIN, keep, TABLE_ORDER)
  {
    JoinedOpens(db, ctx, keep);
    ReadRowsOpens(db, ctx, Joined(db, keep), Joined(Plain(db, ctx), keep));
  }

  lemma ExactRowsReorder(db: Tables, ctx: Option<Context>, scope: Scope, scan: Scan, scan': Scan)
    requires Protected(db, ctx)
    ensures SameRows(ExactRows(db, SessionOf(db, ctx), scope, scan), ExactRows(db, SessionOf(db, ctx), scope, scan'))
  {
    ScanOnlyReorders(db, ctx, ScopeKeep(scope), scan, scan');
    ScanOnlyReorders(db, ctx, ProjectKeep(scope.project), scan, scan');
    var s, keep := SessionOf(db, ctx), ProjectKeep(scope.project);
    FilterRearranged(ListEmbeddings(db, s, keep, scan).value, ListEmbeddings(db, s, keep, scan').value, NarrowFilter(scope));
  }

  lemma ExactRowsRefines(db: Tables, ctx: Option<Context>, scope: Scope)
    requires Protected(db, ctx)
    ensures ExactRows(db, SessionOf(db, ctx), scope, TABLE_ORDER).Ok?
    ensures ExactRows(db, SessionOf(db, ctx), scope, TABLE_ORDER) == ExactRows(Plain(db, ctx), PLAIN, scope, TABLE_ORDER)
  {
    ListEmbeddingsRefines(db, ctx, ScopeKeep(scope));
    ListEmbeddingsRefines(db, ctx, ProjectKeep(scope.project));
    SameLists(db, SessionOf(db, ctx), Plain(db, ctx), PLAIN, scope, TABLE_ORDER);
  }

  lemma SameLists(a: Tables, s: Session, b: Tables, t: Session, scope: Scope, scan: Scan)
    requires ListEmbeddings(a, s, ScopeKeep(scope), scan).Ok? && ListEmbeddings(a, s, ProjectKeep(scope.project), scan).Ok?
    requires ListEmbeddings(a, s, ScopeKeep(scope), scan) == ListEmbeddings(b, t, ScopeKeep(scope), scan)
    requires ListEmbeddings(a, s, ProjectKeep(scope.project), scan) == ListEmbeddings(b, t, ProjectKeep(scope.project), scan)
    ensures ExactRows(a, s, scope, scan).Ok? && ExactRows(a, s, scope, scan) == ExactRows(b, t, scope, scan)
  {
  }

  lemma PlanRefines(lex: Lexicon, db: Tables, ctx: Option<Context>, req: Request)
    requires Indexed(lex, db, ctx)
    ensures PlanQuery(lex, db, SessionOf(db, ctx), req) == PlanQuery(lex, Plain(db, ctx), PLAIN, req)
    ensures CountEmbeddings(db, req.scope) == CountEmbeddings(Plain(db, ctx), req.scope)
  {
    JoinedOpens(db, ctx, ScopeKeep(req.scope));
    SelectCandidatesRefines(lex, db, ctx, req.scope, Tokenize(lex, req.text), req.limit);
  }

  const TABLE_SCANS := Scans(TABLE_ORDER, TABLE_ORDER)

  lemma PlannedRowsReorder(db: Tables, ctx: Option<Context>, req: Request, plan: Plan, scans: Scans, scans': Scans)
    requires Protected(db, ctx)
    ensures SameRows(PlannedRows(db, SessionOf(db, ctx), req, plan, scans), PlannedRows(db, SessionOf(db, ctx), req, plan, scans'))
  {
    ExactRowsReorder(db, ctx, req.scope, scans.exact, scans'.exact);
    ScanOnlyReorders(db, ctx, IdsKeep(plan.ids, req.scope), scans.byIds, scans'.byIds);
  }

  lemma PlannedRowsRefine(db: Tables, ctx: Option<Context>, req: Request, plan: Plan)
    requires Protected(db, ctx)
    ensures PlannedRows(db, SessionOf(db, ctx), req, plan, TABLE_SCANS).Ok?
    ensures PlannedRows(db, SessionOf(db, ctx), req, plan, TABLE_SCANS) == PlannedRows(Plain(db, ctx), PLAIN, req, plan, TABLE_SCANS)
  {
    ExactRowsRefines(db, ctx, req.scope);
    ListEmbeddingsRefines(db, ctx, IdsKeep(plan.ids, req.scope));
  }
}
