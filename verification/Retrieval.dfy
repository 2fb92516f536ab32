/** Which strategy a query ends up with, what its candidates are, and when indexed and exact retrieval give
    the same answer (sync_service.py with search_index.py). */
module Retrieval {
  import opened Basics
  import opened Sorting
  import opened Crypto
  import opened Tokenizer
  import opened Rows
  import opened Inserts
  import opened SearchIndex
  import opened EmbeddingCodec
  import opened Ranking
  import opened Query
  import opened QueryScope
  import opened Answers

  /** The words a message and a query have in common. */
  function Shared(lex: Lexicon, ctx: Option<Context>, m: MessageRow, text: Text): set<string> {
    set w | w in Tokenize(lex, text) && w in Tokenize(lex, PlainContent(ctx, m))
  }

  /** How a message stands in a query. */
  function Standing(lex: Lexicon, ctx: Option<Context>, m: MessageRow, text: Text): Hit {
    Hit(m.id, |Shared(lex, ctx, m, text)|)
  }

  predicate Matching(lex: Lexicon, db: Tables, ctx: Option<Context>, req: Request, m: MessageRow) {
    m in db.messages && InScope(m.ns, req.scope) && Embedded(db, m.id) && Shared(lex, ctx, m, req.text) != {}
  }

  ghost predicate AnyMatching(lex: Lexicon, db: Tables, ctx: Option<Context>, req: Request) {
    exists m :: Matching(lex, db, ctx, req, m)
  }

  function QueryTerms(lex: Lexicon, db: Tables, ctx: Option<Context>, req: Request): seq<Token> {
    MapQuery(SessionOf(db, ctx), Tokenize(lex, req.text))
  }

  lemma TermOfMessage(lex: Lexicon, db: Tables, ctx: Option<Context>, i: nat, w: string)
    requires OrderedMessages(db.messages) && Indexed(lex, db, ctx) && i < |db.messages|
    ensures (db.messages[i].id, MapTerm(SessionOf(db, ctx), w)) in db.terms <==> w in Tokenize(lex, PlainContent(ctx, db.messages[i]))
  {
    InIndexAt(lex, SessionOf(db, ctx), db.messages, i, w);
  }

  /** The overlap of the index counts the common words. */
  lemma OverlapIsShared(lex: Lexicon, db: Tables, ctx: Option<Context>, req: Request, i: nat)
    requires OrderedMessages(db.messages) && Indexed(lex, db, ctx) && i < |db.messages|
    ensures Overlap(db.terms, db.messages[i].id, QueryTerms(lex, db, ctx, req)) == |Shared(lex, ctx, db.messages[i], req.text)|
  {
    var s, id, words := SessionOf(db, ctx), db.messages[i].id, Tokenize(lex, req.text);
    var hits, shared := Hits(db.terms, id, MapQuery(s, words)), Shared(lex, ctx, db.messages[i], req.text);
    forall t | t in hits
      ensures Unmap(t) in shared && t == MapTerm(s, Unmap(t))
    {
      var k :| 0 <= k < |words| && MapQuery(s, words)[k] == t;
      UnmapMap(s, words[k]);
      TermOfMessage(lex, db, ctx, i, words[k]);
    }
    forall w | w in shared
      ensures exists t :: t in hits && Unmap(t) == w
    {
      var k :| 0 <= k < |words| && words[k] == w;
      UnmapMap(s, w);
      TermOfMessage(lex, db, ctx, i, w);
      assert MapQuery(s, words)[k] in hits;
    }
    ImageSize(hits, shared, Unmap);
  }

  lemma EligibleIsMatching(lex: Lexicon, db: Tables, ctx: Option<Context>, req: Request, i: nat)
    requires OrderedMessages(db.messages) && Indexed(lex, db, ctx) && i < |db.messages|
    ensures Eligible(db, req.scope, QueryTerms(lex, db, ctx, req), db.messages[i]) <==> Matching(lex, db, ctx, req, db.messages[i])
    ensures HitFor(db, QueryTerms(lex, db, ctx, req), db.messages[i]) == Standing(lex, ctx, db.messages[i], req.text)
  {
    OverlapIsShared(lex, db, ctx, req, i);
  }

  /** The candidates: distinct matching messages in the order of their standing, no more than the limit,
      and a matching message is left out only for candidates that all precede it. */
  ghost predicate BestMatching(lex: Lexicon, db: Tables, ctx: Option<Context>, req: Request, ids: seq<nat>) {
    && Distinct(ids) && |ids| <= req.limit
    && (forall id :: id in ids ==> exists m :: Matching(lex, db, ctx, req, m) && m.id == id)
    && (forall m, k :: Matching(lex, db, ctx, req, m) && m.id !in ids && 0 <= k < |ids| ==>
          |ids| == req.limit && PrecedesBy(lex, db, ctx, req, ids[k], m.id))
    && (forall m :: Matching(lex, db, ctx, req, m) && m.id !in ids ==> |ids| == req.limit)
    && (forall j, k :: 0 <= j < k < |ids| ==> PrecedesBy(lex, db, ctx, req, ids[j], ids[k]))
  }

  /** More words of the query, or as many and a lower id. */
  predicate Better(lex: Lexicon, ctx: Option<Context>, m: MessageRow, n: MessageRow, text: Text) {
    var x, y := |Shared(lex, ctx, m, text)|, |Shared(lex, ctx, n, text)|;
    x > y || (x == y && m.id <= n.id)
  }

  /** The message a precedes the message b. */
  ghost predicate PrecedesBy(lex: Lexicon, db: Tables, ctx: Option<Context>, req: Request, a: nat, b: nat) {
    forall m, n :: m in db.messages && n in db.messages && m.id == a && n.id == b ==> Better(lex, ctx, m, n, req.text)
  }

  lemma IdIdentifies(db: Tables, m: MessageRow, n: MessageRow)
    requires OrderedMessages(db.messages) && m in db.messages && n in db.messages && m.id == n.id
    ensures m == n
  {
    var i :| 0 <= i < |db.messages| && db.messages[i] == m;
    var j :| 0 <= j < |db.messages| && db.messages[j] == n;
    SameId(db.messages, i, j);
  }

  lemma HitsPrecede(lex: Lexicon, db: Tables, ctx: Option<Context>, req: Request, m: MessageRow, n: MessageRow, a: nat, b: nat)
    requires OrderedMessages(db.messages) && m in db.messages && n in db.messages && m.id == a && n.id == b
    requires Precedes(Standing(lex, ctx, m, req.text), Standing(lex, ctx, n, req.text))
    ensures PrecedesBy(lex, db, ctx, req, a, b)
  {
    forall m', n' | m' in db.messages && n' in db.messages && m'.id == a && n'.id == b
      ensures Better(lex, ctx, m', n', req.text)
    {
      IdIdentifies(db, m, m');
      IdIdentifies(db, n, n');
    }
  }

  lemma HitIsMatching(lex: Lexicon, db: Tables, ctx: Option<Context>, req: Request, h: Hit) returns (m: MessageRow)
    requires OrderedMessages(db.messages) && Indexed(lex, db, ctx) && req.limit > 0
    requires h in SelectCandidates(db, req.scope, QueryTerms(lex, db, ctx, req), req.limit)
    ensures Matching(lex, db, ctx, req, m) && h == Standing(lex, ctx, m, req.text)
  {
    var terms := QueryTerms(lex, db, ctx, req);
    SelectionMeaning(db, req.scope, terms, req.limit);
    var i :| 0 <= i < |db.messages| && Eligible(db, req.scope, terms, db.messages[i]) && h == HitFor(db, terms, db.messages[i]);
    m := db.messages[i];
    EligibleIsMatching(lex, db, ctx, req, i);
  }

  lemma SelectedOrder(lex: Lexicon, db: Tables, ctx: Option<Context>, req: Request, hits: seq<Hit>, j: nat, k: nat)
    requires OrderedMessages(db.messages) && Indexed(lex, db, ctx) && req.limit > 0
    requires hits == SelectCandidates(db, req.scope, QueryTerms(lex, db, ctx, req), req.limit) && j < k < |hits|
    ensures PrecedesBy(lex, db, ctx, req, hits[j].id, hits[k].id)
  {
    SelectionMeaning(db, req.scope, QueryTerms(lex, db, ctx, req), req.limit);
    var m := HitIsMatching(lex, db, ctx, req, hits[j]);
    var n := HitIsMatching(lex, db, ctx, req, hits[k]);
    HitsPrecede(lex, db, ctx, req, m, n, hits[j].id, hits[k].id);
  }

  lemma LeftOut(lex: Lexicon, db: Tables, ctx: Option<Context>, req: Request, hits: seq<Hit>, m: MessageRow)
    requires OrderedMessages(db.messages) && Indexed(lex, db, ctx) && req.limit > 0
    requires hits == SelectCandidates(db, req.scope, QueryTerms(lex, db, ctx, req), req.limit)
    requires Matching(lex, db, ctx, req, m) && m.id !in HitIds(hits)
    ensures |hits| == req.limit && forall k :: 0 <= k < |hits| ==> PrecedesBy(lex, db, ctx, req, hits[k].id, m.id)
  {
    var terms := QueryTerms(lex, db, ctx, req);
    SelectionMeaning(db, req.scope, terms, req.limit);
    var i :| 0 <= i < |db.messages| && db.messages[i] == m;
    EligibleIsMatching(lex, db, ctx, req, i);
    var h := HitFor(db, terms, m);
    forall k | 0 <= k < |hits|
      ensures hits[k] != h
    {
      assert HitIds(hits)[k] in HitIds(hits);
    }
    forall k | 0 <= k < |hits|
      ensures PrecedesBy(lex, db, ctx, req, hits[k].id, m.id)
    {
      var c := HitIsMatching(lex, db, ctx, req, hits[k]);
      HitsPrecede(lex, db, ctx, req, c, m, hits[k].id, m.id);
    }
  }

  lemma SelectedAreBest(lex: Lexicon, db: Tables, ctx: Option<Context>, req: Request)
    requires Consistent(lex, db, ctx) && req.limit > 0
    ensures var ids := HitIds(SelectCandidates(db, req.scope, QueryTerms(lex, db, ctx, req), req.limit));
            BestMatching(lex, db, ctx, req, ids) && (AnyMatching(lex, db, ctx, req) <==> ids != [])
  {
    var terms := QueryTerms(lex, db, ctx, req);
    var hits := SelectCandidates(db, req.scope, terms, req.limit);
    var ids := HitIds(hits);
    SelectedIdsAreCandidates(db, req.scope, terms, req.limit);
    SelectionMeaning(db, req.scope, terms, req.limit);
    forall id | id in ids
      ensures exists m :: Matching(lex, db, ctx, req, m) && m.id == id
    {
      var k :| 0 <= k < |hits| && ids[k] == id;
      var m := HitIsMatching(lex, db, ctx, req, hits[k]);
    }
    forall m | Matching(lex, db, ctx, req, m) && m.id !in ids
      ensures |ids| == req.limit && forall k :: 0 <= k < |ids| ==> PrecedesBy(lex, db, ctx, req, ids[k], m.id)
    {
      LeftOut(lex, db, ctx, req, hits, m);
    }
    forall j, k | 0 <= j < k < |ids|
      ensures PrecedesBy(lex, db, ctx, req, ids[j], ids[k])
    {
      SelectedOrder(lex, db, ctx, req, hits, j, k);
    }
    if ids != [] {
      assert ids[0] in ids;
    }
  }

  /** The messages in scope that have an embedding. */
  function EmbeddedInScope(db: Tables, scope: Scope): seq<MessageRow> {
    Filter(db.messages, (m: MessageRow) => InScope(m.ns, scope) && Embedded(db, m.id))
  }

  function IdsOf(ms: seq<MessageRow>): seq<nat> {
    seq(|ms|, i requires 0 <= i < |ms| => ms[i].id)
  }

  lemma InOrder(ms: seq<MessageRow>, f: MessageRow -> bool)
    requires OrderedMessages(ms)
    ensures Distinct(IdsOf(Filter(ms, f)))
  {
    var le := (a: MessageRow, b: MessageRow) => a.id < b.id;
    forall i, j | 0 <= i < j < |ms|
      ensures le(ms[i], ms[j])
    {
    }
    FilterKeepsOrder(ms, f, le);
    var kept := Filter(ms, f);
    assert forall i, j :: 0 <= i < j < |kept| ==> le(kept[i], kept[j]);
  }

  lemma ScopeIds(db: Tables, scope: Scope)
    requires Constraints(db)
    ensures CandidateIds(db, scope, IdsOf(EmbeddedInScope(db, scope)))
  {
    var ms, f := db.messages, (m: MessageRow) => InScope(m.ns, scope) && Embedded(db, m.id);
    var kept := EmbeddedInScope(db, scope);
    InOrder(ms, f);
    forall id | id in IdsOf(kept)
      ensures Embedded(db, id) && Owner(ms, id).Some? && InScope(Owner(ms, id).value.ns, scope)
    {
      var i :| 0 <= i < |kept| && IdsOf(kept)[i] == id;
      assert kept[i] in kept;
      var k :| 0 <= k < |ms| && ms[k] == kept[i];
      OwnerOfMessage(ms, k);
    }
  }

  lemma ScopeKeepsItsIds(db: Tables, scope: Scope)
    ensures Joined(db, ScopeKeep(scope)) == Joined(db, IdsKeep(IdsOf(EmbeddedInScope(db, scope)), scope))
  {
    var ids := IdsOf(EmbeddedInScope(db, scope));
    var f, g := JoinFilter(db.messages, ScopeKeep(scope)), JoinFilter(db.messages, IdsKeep(ids, scope));
    forall e | e in db.embeddings
      ensures f(e) == g(e)
    {
      if f(e) {
        var m := OwnerInScope(db, scope, e);
        var k :| 0 <= k < |EmbeddedInScope(db, scope)| && EmbeddedInScope(db, scope)[k] == m;
        assert ids[k] == e.key;
      }
    }
    FilterSame(db.embeddings, f, g);
  }

  /** The embeddings counted for a scope are as many as its embedded messages. */
  lemma ScopeCount(db: Tables, scope: Scope)
    requires Constraints(db)
    ensures CountEmbeddings(db, scope) == |EmbeddedInScope(db, scope)|
  {
    ScopeIds(db, scope);
    ScopeKeepsItsIds(db, scope);
    OneRowPerCandidate(db, scope, IdsOf(EmbeddedInScope(db, scope)));
  }

  /** The index is to be used: asked for, or chosen because the scope has more embedded messages than the threshold. */
  predicate WantsIndex(db: Tables, req: Request) {
    req.strategy == IndexScan || (req.strategy == Auto && |EmbeddedInScope(db, req.scope)| > req.threshold)
  }

  /** What the plan of a query means. The index is used exactly when it is wanted and some message in scope
      shares a word with the query, and then with the best matching messages; otherwise a query that asked
      for the index gets nothing and one that left it open falls back to the exact scan. */
  lemma PlanMeaning(lex: Lexicon, db: Tables, ctx: Option<Context>, req: Request)
    requires Consistent(lex, db, ctx) && req.strategy != Unsupported
    ensures var plan := PlanQuery(lex, db, SessionOf(db, ctx), req);
            var found := req.limit > 0 && AnyMatching(lex, db, ctx, req);
            && (plan.used == IndexScan && plan.fallback == NoFallback <==> WantsIndex(db, req) && found)
            && (WantsIndex(db, req) && found ==> plan.ids != [] && BestMatching(lex, db, ctx, req, plan.ids))
            && (plan.fallback == UseExact <==> req.strategy == IndexScan && !found)
            && (plan.fallback == EmptyQueryTokens <==> req.strategy == Auto && WantsIndex(db, req) && Tokenize(lex, req.text) == [])
            && (plan.fallback == NoLexicalCandidates <==>
                  req.strategy == Auto && WantsIndex(db, req) && !found && Tokenize(lex, req.text) != [])
            && (plan.used == ExactScan <==> !WantsIndex(db, req) || (req.strategy == Auto && !found))
  {
    ScopeCount(db, req.scope);
    var terms := QueryTerms(lex, db, ctx, req);
    var ids := HitIds(SelectCandidates(db, req.scope, terms, req.limit));
    PlanIs(lex, db, SessionOf(db, ctx), req, terms, ids, WantsIndex(db, req));
    if req.limit > 0 {
      SelectedAreBest(lex, db, ctx, req);
    }
    if terms == [] {
      assert forall m :: Shared(lex, ctx, m, req.text) == {};
    }
    PlanDecides(req, WantsIndex(db, req), terms == [], ids);
  }

  /** The plan from what decides it: whether the index is wanted, whether the query has words, and the candidates. */
  function Decided(req: Request, wanted: bool, wordless: bool, ids: seq<nat>): Plan {
    if !wanted then Plan(ExactScan, NoFallback, [])
    else if !wordless && ids != [] then Plan(IndexScan, NoFallback, ids)
    else if req.strategy == IndexScan then Plan(IndexScan, UseExact, [])
    else Plan(ExactScan, if wordless then EmptyQueryTokens else NoLexicalCandidates, [])
  }

  lemma PlanIs(lex: Lexicon, db: Tables, s: Session, req: Request, terms: seq<Token>, ids: seq<nat>, wanted: bool)
    requires req.strategy != Unsupported && terms == MapQuery(s, Tokenize(lex, req.text))
    requires ids == HitIds(SelectCandidates(db, req.scope, terms, req.limit))
    requires wanted <==> req.strategy == IndexScan || (req.strategy == Auto && CountEmbeddings(db, req.scope) > req.threshold)
    ensures PlanQuery(lex, db, s, req) == Decided(req, wanted, terms == [], ids)
  {
  }

  lemma PlanDecides(req: Request, wanted: bool, wordless: bool, ids: seq<nat>)
    requires req.strategy == IndexScan ==> wanted
    requires wanted ==> req.strategy == IndexScan || req.strategy == Auto
    ensures var plan, found := Decided(req, wanted, wordless, ids), !wordless && ids != [];
            && (plan.used == IndexScan && plan.fallback == NoFallback <==> wanted && found)
            && (wanted && found ==> plan.ids == ids)
            && (plan.fallback == UseExact <==> req.strategy == IndexScan && !found)
            && (plan.fallback == EmptyQueryTokens <==> req.strategy == Auto && wanted && wordless)
            && (plan.fallback == NoLexicalCandidates <==> req.strategy == Auto && wanted && !found && !wordless)
            && (plan.used == ExactScan <==> !wanted || (req.strategy == Auto && !found))
  {
  }

  /** What was asked, what was used and why, how many embedded messages the scope has, and how many rows or candidates
      were looked at. */
  predicate Says(report: QueryReport, req: Request, plan: Plan, total: nat, looked: nat) {
    && report.requested == req.strategy && report.limit == req.limit
    && report.used == plan.used && report.fallback == plan.fallback
    && report.totalEligible == total && report.candidateCount == looked
  }

  lemma FullReportSays(req: Request, plan: Plan, total: nat, n: nat, rank: RankReport)
    requires plan.used in {ExactScan, IndexScan}
    ensures Says(FullReport(req, total, plan, n, rank), req, plan, total, if plan.used == IndexScan then |plan.ids| else n)
  {
  }

  lemma AnswerSays(engine: Engine, req: Request, meta: Parsed, total: nat, plan: Plan, rows: seq<QueryRow>, answer: Answer)
    requires plan.used in {ExactScan, IndexScan} && AnswerFrom(engine, req, meta, total, plan, Ok(rows)) == Ok(answer)
    ensures Says(answer.report, req, plan, total, if plan.used == IndexScan then |plan.ids| else |rows|)
  {
    FullReportSays(req, plan, total, |rows|, Report(meta, rows, engine.sqrt));
  }

  lemma NothingSaid(lex: Lexicon, db: Tables, s: Session, engine: Engine, req: Request, scans: Scans, plan: Plan, answer: Answer)
    requires QueryWithReport(lex, db, s, engine, req, scans) == Ok(answer) && plan == PlanQuery(lex, db, s, req) && plan.fallback == UseExact
    ensures Says(answer.report, req, plan, CountEmbeddings(db, req.scope), |plan.ids|) && plan.used == IndexScan
  {
  }

  /** What the report of a query says: the plan and the request, the size of the scope, and the number of rows of an exact
      scan or of candidates. */
  lemma ReportTells(lex: Lexicon, db: Tables, ctx: Option<Context>, engine: Engine, req: Request, scans: Scans,
                    plan: Plan, rows: seq<QueryRow>, answer: Answer)
    requires Consistent(lex, db, ctx) && QueryWithReport(lex, db, SessionOf(db, ctx), engine, req, scans) == Ok(answer)
    requires plan == PlanQuery(lex, db, SessionOf(db, ctx), req) && PlannedRows(db, SessionOf(db, ctx), req, plan, scans) == Ok(rows)
    ensures Says(answer.report, req, plan, |EmbeddedInScope(db, req.scope)|, if plan.used == IndexScan then |plan.ids| else |rows|)
  {
    ScopeCount(db, req.scope);
    var s, total := SessionOf(db, ctx), CountEmbeddings(db, req.scope);
    PlanShape(lex, db, s, req);
    if plan.fallback == UseExact {
      NothingSaid(lex, db, s, engine, req, scans, plan, answer);
    } else {
      var meta := QueryMeta(engine.embed(req.text), engine.backend, engine.model).value;
      AnswerSays(engine, req, meta, total, plan, rows, answer);
    }
  }

  // ----- indexed answers are exact answers -----

  /** Every message in scope with an embedding matches the query, and the limit has room for them all. */
  ghost predicate IndexCovers(lex: Lexicon, db: Tables, ctx: Option<Context>, req: Request) {
    && (forall m :: m in EmbeddedInScope(db, req.scope) ==> Shared(lex, ctx, m, req.text) != {})
    && |EmbeddedInScope(db, req.scope)| <= req.limit
  }

  lemma CandidatesAreAll(lex: Lexicon, db: Tables, ctx: Option<Context>, req: Request, terms: seq<Token>)
    requires Consistent(lex, db, ctx) && IndexCovers(lex, db, ctx, req) && terms == QueryTerms(lex, db, ctx, req)
    ensures Candidates(db, req.scope, terms) == HitsOf(db, terms, EmbeddedInScope(db, req.scope))
  {
    var f := (m: MessageRow) => Eligible(db, req.scope, terms, m);
    var g := (m: MessageRow) => InScope(m.ns, req.scope) && Embedded(db, m.id);
    forall m | m in db.messages
      ensures f(m) == g(m)
    {
      var i :| 0 <= i < |db.messages| && db.messages[i] == m;
      EligibleIsMatching(lex, db, ctx, req, i);
      assert g(m) ==> m in EmbeddedInScope(db, req.scope);
    }
    FilterSame(db.messages, f, g);
  }

  lemma AllSelected(lex: Lexicon, db: Tables, ctx: Option<Context>, req: Request, terms: seq<Token>)
    requires Consistent(lex, db, ctx) && IndexCovers(lex, db, ctx, req) && req.limit > 0 && terms == QueryTerms(lex, db, ctx, req)
    ensures SelectCandidates(db, req.scope, terms, req.limit) == Sort(HitsOf(db, terms, EmbeddedInScope(db, req.scope)), Precedes)
  {
    CandidatesAreAll(lex, db, ctx, req, terms);
    SortKeepsElements(HitsOf(db, terms, EmbeddedInScope(db, req.scope)), Precedes);
    if terms == [] {
      NoQueryNoCandidates(db, req.scope);
    }
  }

  lemma IdInSorted(hits: seq<Hit>, k: nat)
    requires k < |hits|
    ensures hits[k].id in HitIds(Sort(hits, Precedes))
  {
    var sorted := Sort(hits, Precedes);
    SortMembers(hits, Precedes);
    assert hits[k] in sorted;
    var j :| 0 <= j < |sorted| && sorted[j] == hits[k];
    assert HitIds(sorted)[j] == hits[k].id;
  }

  lemma CoveredIds(lex: Lexicon, db: Tables, ctx: Option<Context>, req: Request, m: MessageRow)
    requires Consistent(lex, db, ctx) && IndexCovers(lex, db, ctx, req) && req.limit > 0
    requires m in EmbeddedInScope(db, req.scope)
    ensures m.id in HitIds(SelectCandidates(db, req.scope, QueryTerms(lex, db, ctx, req), req.limit))
  {
    var terms, all := QueryTerms(lex, db, ctx, req), EmbeddedInScope(db, req.scope);
    AllSelected(lex, db, ctx, req, terms);
    var k :| 0 <= k < |all| && all[k] == m;
    IdInSorted(HitsOf(db, terms, all), k);
  }

  lemma OwnerInScope(db: Tables, scope: Scope, e: EmbeddingRow) returns (m: MessageRow)
    requires e in Joined(db, ScopeKeep(scope))
    ensures Owner(db.messages, e.key) == Some(m) && m.id == e.key && m in EmbeddedInScope(db, scope)
  {
    m := Owner(db.messages, e.key).value;
    var k :| 0 <= k < |db.embeddings| && db.embeddings[k] == e;
    assert Embedded(db, m.id);
  }

  lemma ListedRow(db: Tables, ctx: Option<Context>, keep: Keep, rows: seq<QueryRow>, r: QueryRow) returns (e: EmbeddingRow)
    requires ListEmbeddings(db, SessionOf(db, ctx), keep, TABLE_ORDER) == Ok(rows) && r in rows
    ensures e in Joined(db, keep) && ReadRow(db.messages, ctx, e) == Ok(r)
  {
    var es := Joined(db, keep);
    ReadRowsGives(db.messages, ctx, es);
    var i :| 0 <= i < |rows| && rows[i] == r;
    e := es[i];
  }

  /** The message an exact row comes from. */
  lemma RowOwner(db: Tables, ctx: Option<Context>, scope: Scope, rows: seq<QueryRow>, r: QueryRow) returns (m: MessageRow)
    requires Protected(db, ctx) && HonoursRole(scope)
    requires ExactRows(db, SessionOf(db, ctx), scope, TABLE_ORDER) == Ok(rows) && r in rows
    ensures m in EmbeddedInScope(db, scope) && r.messageId == m.id
  {
    TableScanCoversScope(db, ctx, scope);
    var e := ListedRow(db, ctx, ScopeKeep(scope), rows, r);
    m := OwnerInScope(db, scope, e);
  }

  /** The query, told which way to go. */
  function Directed(db: Tables, ctx: Option<Context>, req: Request, strategy: Strategy): Asked {
    Asked(db, ctx, req.(strategy := strategy), SAME_NAMES)
  }

  lemma ExactRowCovered(lex: Lexicon, db: Tables, ctx: Option<Context>, req: Request, rows: seq<QueryRow>, r: QueryRow)
    requires Consistent(lex, db, ctx) && HonoursRole(req.scope) && IndexCovers(lex, db, ctx, req)
    requires ExactRows(db, SessionOf(db, ctx), req.scope, TABLE_ORDER) == Ok(rows) && r in rows
    ensures var plan := PlanOf(lex, Directed(db, ctx, req, IndexScan)); plan.fallback != UseExact && r.messageId in plan.ids
  {
    var m := RowOwner(db, ctx, req.scope, rows, r);
    assert EmbeddedInScope(db, req.scope) != [];
    CoveredIds(lex, db, ctx, req, m);
  }

  lemma ExactRowsCovered(lex: Lexicon, db: Tables, ctx: Option<Context>, req: Request, plan: Plan, rows: seq<QueryRow>)
    requires Consistent(lex, db, ctx) && HonoursRole(req.scope) && IndexCovers(lex, db, ctx, req)
    requires plan == PlanOf(lex, Directed(db, ctx, req, IndexScan)) && ExactRows(db, SessionOf(db, ctx), req.scope, TABLE_ORDER) == Ok(rows)
    ensures forall r :: r in rows ==> plan.fallback != UseExact && r.messageId in plan.ids
    ensures plan.fallback == UseExact ==> rows == []
  {
    forall r | r in rows
      ensures plan.fallback != UseExact && r.messageId in plan.ids
    {
      ExactRowCovered(lex, db, ctx, req, rows, r);
    }
    if rows != [] {
      assert rows[0] in rows;
    }
  }

  lemma IndexIsUsed(lex: Lexicon, db: Tables, ctx: Option<Context>, req: Request)
    ensures PlanOf(lex, Directed(db, ctx, req, IndexScan)).used == IndexScan
    ensures PlanOf(lex, Directed(db, ctx, req, ExactScan)) == Plan(ExactScan, NoFallback, [])
  {
  }

  /** What the index finds is then what the exact scan reads; with no rows it gives up. */
  lemma SourcesCoincide(lex: Lexicon, db: Tables, ctx: Option<Context>, req: Request)
    requires Consistent(lex, db, ctx) && HonoursRole(req.scope) && IndexCovers(lex, db, ctx, req)
    ensures multiset(Source(lex, Directed(db, ctx, req, ExactScan))) == multiset(Source(lex, Directed(db, ctx, req, IndexScan)))
  {
    ExactRowsRefines(db, ctx, req.scope);
    var rows, plan := ExactRows(db, SessionOf(db, ctx), req.scope, TABLE_ORDER).value, PlanOf(lex, Directed(db, ctx, req, IndexScan));
    IndexIsUsed(lex, db, ctx, req);
    ExactRowsCovered(lex, db, ctx, req, plan, rows);
    CoveredRows(db, ctx, req.scope, plan.ids, TABLE_SCANS);
  }

  /** When every embedded message of an honoured scope shares a word with the query and the limit has room
      for them all, asking for the index and asking for the exact scan give, whatever the orders in which the
      two visit the rows, the same error or the same ranking up to ties at the cut; and they rank alike whatever
      the orders exactly when no two rows tie there. */
  lemma IndexedEqualsExact(lex: Lexicon, db: Tables, ctx: Option<Context>, engine: Engine, req: Request)
    requires Consistent(lex, db, ctx) && HonoursRole(req.scope) && IndexCovers(lex, db, ctx, req)
    ensures var exact, indexed := Directed(db, ctx, req, ExactScan), Directed(db, ctx, req, IndexScan);
            && (forall x, y :: SameRanks(RanksIn(AnswerTo(lex, engine, exact, x)), RanksIn(AnswerTo(lex, engine, indexed, y))))
            && ((forall x, y :: RanksIn(AnswerTo(lex, engine, exact, x)) == RanksIn(AnswerTo(lex, engine, indexed, y)))
                <==> UntiedQuery(lex, engine, exact))
  {
    var exact, indexed := Directed(db, ctx, req, ExactScan), Directed(db, ctx, req, IndexScan);
    SourcesCoincide(lex, db, ctx, req);
    ImageRearranged(Source(lex, exact), Source(lex, indexed), RowRenamer(SAME_NAMES));
    RanksDecide(lex, engine, exact, indexed);
  }
}
