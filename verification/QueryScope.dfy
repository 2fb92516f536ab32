/** What query answers mean: which rows an exact scan covers, how indexed answers relate to exact
    ones, and what the report counts (sync_service.py). */
module QueryScope {
  import opened Basics
  import opened Sorting
  import opened Crypto
  import opened Tokenizer
  import opened Rows
  import opened Inserts
  import opened Simulation
  import opened SearchIndex
  import opened EmbeddingCodec
  import opened Ranking
  import opened Query

  // ----- which rows an exact scan covers -----

  lemma {:induction false} ReadRowsGives(ms: seq<MessageRow>, ctx: Option<Context>, es: seq<EmbeddingRow>)
    requires forall e :: e in es ==> Owner(ms, e.key).Some?
    ensures ReadRows(ms, ctx, es).Ok? ==> forall i :: 0 <= i < |es| ==> ReadRow(ms, ctx, es[i]) == Ok(ReadRows(ms, ctx, es).value[i])
  {
    if es != [] {
      ReadRowsGives(ms, ctx, es[1..]);
    }
  }

  /** Filtering before reading and after reading agree, for filters on the plain columns. */
  lemma ReadRowsFiltered(ms: seq<MessageRow>, ctx: Option<Context>, es: seq<EmbeddingRow>, f: EmbeddingRow -> bool, g: QueryRow -> bool)
    requires forall e :: e in es ==> Owner(ms, e.key).Some?
    requires ReadRows(ms, ctx, es).Ok?
    requires forall e :: e in es && ReadRow(ms, ctx, e).Ok? ==> f(e) == g(ReadRow(ms, ctx, e).value)
    ensures ReadRows(ms, ctx, Filter(es, f)) == Ok(Filter(ReadRows(ms, ctx, es).value, g))
  {
    var rows := ReadRows(ms, ctx, es).value;
    ReadRowsGives(ms, ctx, es);
    forall i | 0 <= i < |es|
      ensures rows[i] == RowFor(ms, ctx, es[i]) && f(es[i]) == g(rows[i])
    {
      assert es[i] in es;
    }
    FilterImage(es, f, rows, g, (e: EmbeddingRow) => RowFor(ms, ctx, e));
    var kept := Filter(es, f);
    forall i | 0 <= i < |kept|
      ensures ReadRow(ms, ctx, kept[i]) == Ok(Filter(rows, g)[i])
    {
      assert kept[i] in kept;
      var k :| 0 <= k < |es| && es[k] == kept[i];
      assert ReadRow(ms, ctx, es[k]).Ok?;
    }
    ReadRowsIs(ms, ctx, kept, Filter(rows, g));
  }

  /** A scope the exact scan honours: without a role, or with provider and conversation as well. */
  predicate HonoursRole(scope: Scope) {
    scope.role.None? || (scope.provider.Some? && scope.conversation.Some?)
  }

  /** Narrowing a join is filtering it. */
  lemma JoinedNarrower(db: Tables, wide: Keep, narrow: Keep)
    requires forall id, ns :: narrow(id, ns) ==> wide(id, ns)
    ensures Joined(db, narrow) == Filter(Joined(db, wide), JoinFilter(db.messages, narrow))
  {
    var w, n := JoinFilter(db.messages, wide), JoinFilter(db.messages, narrow);
    FilterTwice(db.embeddings, w, n);
    FilterSame(db.embeddings, Both(w, n), n);
  }

  lemma NarrowerRow(db: Tables, ctx: Option<Context>, wide: Keep, narrow: Keep, g: QueryRow -> bool, e: EmbeddingRow)
    requires Joins(db.messages, e, wide) && ReadRow(db.messages, ctx, e).Ok?
    requires forall r: QueryRow :: wide(r.messageId, r.ns) ==> g(r) == narrow(r.messageId, r.ns)
    ensures Joins(db.messages, e, narrow) == g(ReadRow(db.messages, ctx, e).value)
  {
    assert Owner(db.messages, e.key).value.id == e.key;
  }

  /** A narrower join reads the wider join's rows that satisfy the corresponding row filter. */
  lemma NarrowerRows(db: Tables, ctx: Option<Context>, wide: Keep, narrow: Keep, g: QueryRow -> bool)
    requires Protected(db, ctx)
    requires forall id, ns :: narrow(id, ns) ==> wide(id, ns)
    requires forall r: QueryRow :: wide(r.messageId, r.ns) ==> g(r) == narrow(r.messageId, r.ns)
    ensures var s := SessionOf(db, ctx);
            && ListEmbeddings(db, s, wide, TABLE_ORDER).Ok?
            && ListEmbeddings(db, s, narrow, TABLE_ORDER) == Ok(Filter(ListEmbeddings(db, s, wide, TABLE_ORDER).value, g))
  {
    ListEmbeddingsRefines(db, ctx, wide);
    JoinedNarrower(db, wide, narrow);
    var es := Joined(db, wide);
    forall e | e in es && ReadRow(db.messages, ctx, e).Ok?
      ensures Joins(db.messages, e, narrow) == g(ReadRow(db.messages, ctx, e).value)
    {
      NarrowerRow(db, ctx, wide, narrow, g, e);
    }
    ReadRowsFiltered(db.messages, ctx, es, JoinFilter(db.messages, narrow), g);
  }

  lemma SameJoined(db: Tables, keep: Keep, keep': Keep)
    requires forall id, ns :: keep(id, ns) == keep'(id, ns)
    ensures Joined(db, keep) == Joined(db, keep')
  {
    FilterSame(db.embeddings, JoinFilter(db.messages, keep), JoinFilter(db.messages, keep'));
  }

  lemma TableScanCoversScope(db: Tables, ctx: Option<Context>, scope: Scope)
    requires Protected(db, ctx) && HonoursRole(scope)
    ensures ExactRows(db, SessionOf(db, ctx), scope, TABLE_ORDER) == ListEmbeddings(db, SessionOf(db, ctx), ScopeKeep(scope), TABLE_ORDER)
  {
    if scope.provider.None? && scope.conversation.None? {
      SameJoined(db, ProjectKeep(scope.project), ScopeKeep(scope));
    } else if scope.provider.None? || scope.conversation.None? {
      NarrowerRows(db, ctx, ProjectKeep(scope.project), ScopeKeep(scope), NarrowFilter(scope));
    }
  }

  /** On a protected database an honoured scope is scanned exactly, in whatever order. */
  lemma ExactScanCoversScope(db: Tables, ctx: Option<Context>, scope: Scope, scan: Scan, scan': Scan)
    requires Protected(db, ctx) && HonoursRole(scope)
    ensures SameRows(ExactRows(db, SessionOf(db, ctx), scope, scan), ListEmbeddings(db, SessionOf(db, ctx), ScopeKeep(scope), scan'))
  {
    TableScanCoversScope(db, ctx, scope);
    ExactRowsReorder(db, ctx, scope, scan, TABLE_ORDER);
    ScanOnlyReorders(db, ctx, ScopeKeep(scope), TABLE_ORDER, scan');
  }

  /** One message of another role with one embedding. */
  function OtherRole(scope: Scope): Tables {
    var ns := Namespace(scope.project, scope.provider.GetOr(""), scope.conversation.GetOr(""), scope.role.GetOr("") + "x");
    Tables([MessageRow(1, ns, [], "", [], None, None)], [Row(1, 1, [])], [], [], {}, Meta(false, None, "d", PlainTerms), 1)
  }

  lemma OtherRoleIsConsistent(lex: Lexicon, scope: Scope)
    ensures Consistent(lex, OtherRole(scope), None) && SessionOf(OtherRole(scope), None) == PLAIN
  {
    var db := OtherRole(scope);
    assert Tokenize(lex, []) == [];
    assert IndexOf(lex, PLAIN, db.messages) == {};
    assert MessageExists(db.messages, 1) by {
      assert db.messages[0].id == 1;
    }
  }

  lemma OneRowAnyOrder<T>(xs: seq<T>, x: T)
    requires multiset(xs) == multiset([x])
    ensures xs == [x]
  {
    assert |multiset(xs)| == |xs|;
    assert xs[0] in multiset(xs);
  }

  /** The exact scan returns the row of another role, where the scope has no row at all. */
  lemma OtherRoleIsMissed(lex: Lexicon, scope: Scope, scan: Scan)
    requires !HonoursRole(scope)
    ensures var db := OtherRole(scope);
            && Consistent(lex, db, None) && ListEmbeddings(db, PLAIN, ScopeKeep(scope), scan) == Ok([])
            && ExactRows(db, PLAIN, scope, scan) == Ok([QueryRow(1, db.messages[0].ns, [], 1, [])])
            && db.messages[0].ns.role != scope.role.value
  {
    OtherRoleIsConsistent(lex, scope);
    var db := OtherRole(scope);
    var row := QueryRow(1, db.messages[0].ns, [], 1, []);
    assert Owner(db.messages, 1) == Some(db.messages[0]);
    assert Joined(db, ScopeKeep(scope)) == [];
    assert |multiset(Visited(db, ScopeKeep(scope), scan))| == 0;
    assert Joined(db, ProjectKeep(scope.project)) == db.embeddings;
    OneRowAnyOrder(Visited(db, ProjectKeep(scope.project), scan), db.embeddings[0]);
    assert ReadRow(db.messages, None, db.embeddings[0]) == Ok(row);
    ReadRowsIs(db.messages, None, db.embeddings, [row]);
    assert Filter([row], NarrowFilter(scope)) == [row];
  }

  /** The exact scan stays inside its scope on every consistent plaintext database, in whatever order, exactly
      when the scope has no role filter, or names provider and conversation too. */
  lemma ExactScanScopeExactly(lex: Lexicon, scope: Scope)
    ensures (forall db: Tables, scan: Scan, scan': Scan :: Consistent(lex, db, None) ==>
               SameRows(ExactRows(db, SessionOf(db, None), scope, scan), ListEmbeddings(db, SessionOf(db, None), ScopeKeep(scope), scan')))
       <==> HonoursRole(scope)
  {
    if HonoursRole(scope) {
      forall db: Tables, scan: Scan, scan': Scan | Consistent(lex, db, None)
        ensures SameRows(ExactRows(db, SessionOf(db, None), scope, scan), ListEmbeddings(db, SessionOf(db, None), ScopeKeep(scope), scan'))
      {
        ExactScanCoversScope(db, None, scope, scan, scan');
      }
    } else {
      OtherRoleIsConsistent(lex, scope);
      OtherRoleIsMissed(lex, scope, TABLE_ORDER);
      var db := OtherRole(scope);
      assert !SameRows(ExactRows(db, SessionOf(db, None), scope, TABLE_ORDER), ListEmbeddings(db, SessionOf(db, None), ScopeKeep(scope), TABLE_ORDER));
    }
  }

  // ----- indexed answers -----

  function IdFilter(ids: seq<nat>): QueryRow -> bool {
    (r: QueryRow) => r.messageId in ids
  }

  /** The rows an indexed query ranks are, up to their order, the exact rows of its scope whose message is a
      candidate. */
  lemma IndexedRowsAreExactRows(db: Tables, ctx: Option<Context>, scope: Scope, ids: seq<nat>, scans: Scans)
    requires Protected(db, ctx) && HonoursRole(scope)
    ensures var s := SessionOf(db, ctx);
            ExactRows(db, s, scope, scans.exact).Ok? &&
            SameRows(ListEmbeddings(db, s, IdsKeep(ids, scope), scans.byIds), Ok(Filter(ExactRows(db, s, scope, scans.exact).value, IdFilter(ids))))
  {
    var s := SessionOf(db, ctx);
    TableScanCoversScope(db, ctx, scope);
    NarrowerRows(db, ctx, ScopeKeep(scope), IdsKeep(ids, scope), IdFilter(ids));
    ScanOnlyReorders(db, ctx, IdsKeep(ids, scope), scans.byIds, TABLE_ORDER);
    ExactRowsReorder(db, ctx, scope, scans.exact, TABLE_ORDER);
    FilterRearranged(ExactRows(db, s, scope, scans.exact).value, ExactRows(db, s, scope, TABLE_ORDER).value, IdFilter(ids));
  }

  /** When every eligible row's message is a candidate, both ways read the very same rows. */
  lemma CoveredRows(db: Tables, ctx: Option<Context>, scope: Scope, ids: seq<nat>, scans: Scans)
    requires Protected(db, ctx) && HonoursRole(scope)
    requires forall r :: ExactRows(db, SessionOf(db, ctx), scope, scans.exact).Ok? && r in ExactRows(db, SessionOf(db, ctx), scope, scans.exact).value ==> r.messageId in ids
    ensures SameRows(ListEmbeddings(db, SessionOf(db, ctx), IdsKeep(ids, scope), scans.byIds), ExactRows(db, SessionOf(db, ctx), scope, scans.exact))
  {
    IndexedRowsAreExactRows(db, ctx, scope, ids, scans);
    FilterAll(ExactRows(db, SessionOf(db, ctx), scope, scans.exact).value, IdFilter(ids));
  }

  // ----- the report -----

  function Elements<T>(xs: seq<T>): set<T> {
    set x | x in xs
  }

  lemma {:induction false} DistinctSize<T>(xs: seq<T>)
    requires Distinct(xs)
    ensures |Elements(xs)| == |xs|
  {
    if xs != [] {
      DistinctSize(xs[1..]);
      assert xs[0] !in Elements(xs[1..]);
      assert Elements(xs) == Elements(xs[1..]) + {xs[0]};
    }
  }

  lemma {:induction false} FilterDistinctKeys(es: seq<EmbeddingRow>, f: EmbeddingRow -> bool)
    requires UniqueEmbeddings(es)
    ensures UniqueEmbeddings(Filter(es, f))
  {
    if es != [] {
      FilterDistinctKeys(es[1..], f);
      var rest := Filter(es[1..], f);
      forall i | 0 <= i < |rest|
        ensures rest[i].key != es[0].key
      {
        assert rest[i] in es[1..];
      }
    }
  }

  function Keys(es: seq<EmbeddingRow>): seq<nat> {
    seq(|es|, i requires 0 <= i < |es| => es[i].key)
  }

  /** A list of candidate ids: distinct, in scope and embedded. */
  predicate CandidateIds(db: Tables, scope: Scope, ids: seq<nat>) {
    && Distinct(ids)
    && (forall id :: id in ids ==> Embedded(db, id) && Owner(db.messages, id).Some? && InScope(Owner(db.messages, id).value.ns, scope))
  }

  /** Each candidate contributes exactly one row. */
  lemma OneRowPerCandidate(db: Tables, scope: Scope, ids: seq<nat>)
    requires UniqueEmbeddings(db.embeddings) && CandidateIds(db, scope, ids)
    ensures |Joined(db, IdsKeep(ids, scope))| == |ids|
  {
    var es := Joined(db, IdsKeep(ids, scope));
    FilterDistinctKeys(db.embeddings, JoinFilter(db.messages, IdsKeep(ids, scope)));
    DistinctSize(Keys(es));
    DistinctSize(ids);
    forall id
      ensures id in Keys(es) <==> id in ids
    {
      if id in Keys(es) {
        var i :| 0 <= i < |es| && Keys(es)[i] == id;
        assert es[i] in es;
      }
      if id in ids {
        var i :| 0 <= i < |db.embeddings| && db.embeddings[i].key == id;
        assert Joins(db.messages, db.embeddings[i], IdsKeep(ids, scope));
        assert db.embeddings[i] in es;
        var k :| 0 <= k < |es| && es[k] == db.embeddings[i];
        assert Keys(es)[k] == id;
      }
    }
    assert Elements(Keys(es)) == Elements(ids);
  }

  lemma OwnerOfMessage(ms: seq<MessageRow>, i: nat)
    requires OrderedMessages(ms) && i < |ms|
    ensures Owner(ms, ms[i].id) == Some(ms[i])
  {
  }

  /** Hits of a database have distinct ids. */
  lemma SelectedIdsAreCandidates(db: Tables, scope: Scope, query: seq<Token>, limit: int)
    requires Constraints(db)
    ensures CandidateIds(db, scope, HitIds(SelectCandidates(db, scope, query, limit)))
  {
    if query != [] && limit > 0 {
      var hits := SelectCandidates(db, scope, query, limit);
      var ids := HitIds(hits);
      SelectionMeaning(db, scope, query, limit);
      forall id | id in ids
        ensures Embedded(db, id) && Owner(db.messages, id).Some? && InScope(Owner(db.messages, id).value.ns, scope)
      {
        var k :| 0 <= k < |hits| && ids[k] == id;
        assert hits[k] in hits;
        var i :| 0 <= i < |db.messages| && Eligible(db, scope, query, db.messages[i]) && hits[k] == HitFor(db, query, db.messages[i]);
        OwnerOfMessage(db.messages, i);
      }
      CandidatesDistinct(db, scope, query);
      SortKeepsDistinctIds(Candidates(db, scope, query), limit);
    }
  }

  predicate DistinctHits(hits: seq<Hit>) {
    forall i, j :: 0 <= i < j < |hits| ==> hits[i].id != hits[j].id
  }

  lemma CandidatesDistinct(db: Tables, scope: Scope, query: seq<Token>)
    requires OrderedMessages(db.messages)
    ensures DistinctHits(Candidates(db, scope, query))
  {
    var f := (m: MessageRow) => Eligible(db, scope, query, m);
    FilterKeepsOrder(db.messages, f, (a: MessageRow, b: MessageRow) => a.id < b.id);
    var kept := Filter(db.messages, f);
    assert forall i, j :: 0 <= i < j < |kept| ==> ((a: MessageRow, b: MessageRow) => a.id < b.id)(kept[i], kept[j]);
  }

  lemma {:induction false} InsertKeepsDistinctIds(x: Hit, ys: seq<Hit>)
    requires DistinctHits(ys) && forall y :: y in ys ==> y.id != x.id
    ensures DistinctHits(InsertSorted(x, ys, Precedes))
    ensures forall y :: y in InsertSorted(x, ys, Precedes) <==> y == x || y in ys
  {
    if ys != [] && !Precedes(x, ys[0]) {
      InsertKeepsDistinctIds(x, ys[1..]);
      var rest := InsertSorted(x, ys[1..], Precedes);
      forall i | 0 <= i < |rest|
        ensures rest[i].id != ys[0].id
      {
        assert rest[i] in rest;
      }
    }
  }

  lemma {:induction false} SortKeepsDistinctHits(xs: seq<Hit>)
    requires DistinctHits(xs)
    ensures DistinctHits(Sort(xs, Precedes))
  {
    if xs != [] {
      SortKeepsDistinctHits(xs[1..]);
      SortMembers(xs[1..], Precedes);
      InsertKeepsDistinctIds(xs[0], Sort(xs[1..], Precedes));
    }
  }

  lemma SortKeepsDistinctIds(xs: seq<Hit>, limit: int)
    requires DistinctHits(xs) && limit > 0
    ensures Distinct(HitIds(Take(Sort(xs, Precedes), limit)))
  {
    SortKeepsDistinctHits(xs);
  }

  lemma PlanShape(lex: Lexicon, db: Tables, s: Session, req: Request)
    requires Constraints(db) && req.strategy != Unsupported
    ensures var plan := PlanQuery(lex, db, s, req);
            && plan.used in {ExactScan, IndexScan}
            && (plan.used == IndexScan ==> CandidateIds(db, req.scope, plan.ids)
                                           && |plan.ids| <= if req.limit > 0 then req.limit else 0)
  {
    var terms := MapQuery(s, Tokenize(lex, req.text));
    SelectedIdsAreCandidates(db, req.scope, terms, req.limit);
    if req.limit > 0 {
      SelectionMeaning(db, req.scope, terms, req.limit);
    }
  }

  lemma PlannedRowCount(db: Tables, ctx: Option<Context>, req: Request, plan: Plan, scans: Scans)
    requires Constraints(db) && Protected(db, ctx)
    requires plan.used == IndexScan ==> CandidateIds(db, req.scope, plan.ids)
    ensures var rows := PlannedRows(db, SessionOf(db, ctx), req, plan, scans);
            rows.Ok? && (plan.used == IndexScan ==> |rows.value| == |plan.ids|)
  {
    PlannedRowsReorder(db, ctx, req, plan, scans, scans);
    if plan.used == IndexScan {
      OneRowPerCandidate(db, req.scope, plan.ids);
      assert |multiset(Visited(db, IdsKeep(plan.ids, req.scope), scans.byIds))| == |multiset(Joined(db, IdsKeep(plan.ids, req.scope)))|;
    }
  }

  predicate AddsUp(report: QueryReport, req: Request) {
    && report.embeddingsScored == report.candidateCount
    && report.used in {ExactScan, IndexScan}
    && (report.used == IndexScan ==> report.candidateCount <= if req.limit > 0 then req.limit else 0)
  }

  lemma AnswerAddsUp(engine: Engine, req: Request, meta: Parsed, total: nat, plan: Plan, rows: seq<QueryRow>)
    requires plan.used in {ExactScan, IndexScan}
    requires plan.used == IndexScan ==> |rows| == |plan.ids| <= if req.limit > 0 then req.limit else 0
    ensures AddsUp(AnswerFrom(engine, req, meta, total, plan, Ok(rows)).value.report, req)
  {
    ReportCounts(meta, rows, engine.sqrt);
  }

  /** In every outcome embeddings scored and candidates counted are the same number, and an indexed
      query counts at most its limit. */
  lemma ReportAddsUp(lex: Lexicon, db: Tables, ctx: Option<Context>, engine: Engine, req: Request, scans: Scans)
    requires Consistent(lex, db, ctx)
    ensures var r := QueryWithReport(lex, db, SessionOf(db, ctx), engine, req, scans);
            r.Ok? ==> AddsUp(r.value.report, req)
  {
    var s := SessionOf(db, ctx);
    var meta := QueryMeta(engine.embed(req.text), engine.backend, engine.model);
    if req.strategy != Unsupported && meta.Some? {
      var plan := PlanQuery(lex, db, s, req);
      PlanShape(lex, db, s, req);
      PlannedRowCount(db, ctx, req, plan, scans);
      AnswerAddsUp(engine, req, meta.value, CountEmbeddings(db, req.scope), plan, PlannedRows(db, s, req, plan, scans).value);
    }
  }
}
