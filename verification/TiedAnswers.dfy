/** Two consistent databases, one the encrypted form of the other, on which equal scores show (retrieval.py,
    storage.py, embeddings.py): "foo bar" and "bar foo" have the same hash embedding, so which of them answers a
    query for one row is up to the order in which SQLite visits the rows. */
module TiedAnswers {
  import opened Basics
  import opened Sorting
  import opened Crypto
  import opened Tokenizer
  import opened Rows
  import opened Inserts
  import opened Simulation
  import opened Lifecycle
  import opened SearchIndex
  import opened Vectors
  import opened EmbeddingCodec
  import opened Ranking
  import opened Query
  import opened QueryScope
  import opened Answers
  import opened Retrieval

  const FOO_BAR := Lift("foo bar")
  const BAR_FOO := Lift("bar foo")

  // ----- one embedding for both -----

  /** How the hash backend digests a text. */
  datatype Hashing = Hashing(tokens: Text -> seq<TokenHash>, whole: Text -> TokenHash)

  function HashEngine(h: Hashing, sqrt: real -> real): Engine {
    Engine((t: Text) => HashEmbedding(h.tokens(t), h.whole(t), sqrt), BACKEND_HASH_V1, None, sqrt)
  }

  /** The digests of the words foo and bar, which do not cancel out. */
  predicate HashesWords(h: Hashing, foo: TokenHash, bar: TokenHash) {
    && h.tokens(FOO_BAR) == [foo, bar] && h.tokens(BAR_FOO) == [bar, foo]
    && (Bucket(foo) == Bucket(bar) ==> Sign(foo) == Sign(bar))
  }

  lemma OneCounts(a: TokenHash)
    ensures Counts([a]) == Zeros(HASH_DIMENSIONS)[Bucket(a) := Sign(a)]
  {
    assert [a][..0] == [];
  }

  lemma TwoCounts(a: TokenHash, b: TokenHash)
    ensures Counts([a, b]) == Counts([a])[Bucket(b) := Counts([a])[Bucket(b)] + Sign(b)]
  {
    assert [a, b][..1] == [a];
  }

  lemma SwappedCounts(a: TokenHash, b: TokenHash)
    ensures Counts([a, b]) == Counts([b, a])
  {
    OneCounts(a);
    OneCounts(b);
    TwoCounts(a, b);
    TwoCounts(b, a);
  }

  lemma NotCancelled(a: TokenHash, b: TokenHash, sqrt: real -> real)
    requires IsRoot(sqrt) && (Bucket(a) == Bucket(b) ==> Sign(a) == Sign(b))
    ensures sqrt(Dot(Counts([a, b]), Counts([a, b]))) != 0.0
  {
    var v := Counts([a, b]);
    OneCounts(a);
    TwoCounts(a, b);
    assert v[Bucket(b)] != 0.0;
    DotSelfNonNegative(v);
    if Dot(v, v) == 0.0 {
      DotSelfZero(v);
    }
  }

  lemma SameEmbedding(h: Hashing, foo: TokenHash, bar: TokenHash, sqrt: real -> real)
    requires IsRoot(sqrt) && HashesWords(h, foo, bar)
    ensures HashEngine(h, sqrt).embed(FOO_BAR) == HashEngine(h, sqrt).embed(BAR_FOO)
  {
    SwappedCounts(foo, bar);
    NotCancelled(foo, bar, sqrt);
  }

  // ----- the databases -----

  function TwoMessages(ns: Namespace): seq<MessageRow> {
    [MessageRow(1, ns, FOO_BAR, "1", [], None, None), MessageRow(2, ns, BAR_FOO, "2", [], None, None)]
  }

  /** Both texts with their embeddings, in one conversation. */
  function Two(lex: Lexicon, identity: string, ns: Namespace, v: Vector): Tables {
    Tables(TwoMessages(ns), [Row(1, 1, Payload(v)), Row(2, 2, Payload(v))], [], [], IndexOf(lex, PLAIN, TwoMessages(ns)),
           Meta(false, None, identity, PlainTerms), 2)
  }

  lemma TwoIsConsistent(lex: Lexicon, identity: string, ns: Namespace, v: Vector)
    requires '|' !in identity && identity != ""
    ensures Consistent(lex, Two(lex, identity, ns, v), None) && SessionOf(Two(lex, identity, ns, v), None) == PLAIN
  {
    var db := Two(lex, identity, ns, v);
    assert Lift("foo bar")[0] == Ch('f') && Lift("bar foo")[0] == Ch('b');
    assert db.messages[0].id == 1 && db.messages[1].id == 2;
    assert MessageExists(db.messages, 1) && MessageExists(db.messages, 2);
  }

  lemma TwoSealsCleanly(c: Context, ns: Namespace, nonces: Nonces)
    ensures SealsCleanly(c, TwoMessages(ns), nonces)
  {
    var ms := TwoMessages(ns);
    assert SealMessage(c, ms[0], nonces).content[0].Env?;
    assert ms[1].content[0] == Ch('b');
  }

  function FirstRow(ns: Namespace, v: Vector): QueryRow {
    QueryRow(1, ns, FOO_BAR, 1, Payload(v))
  }

  function SecondRow(ns: Namespace, v: Vector): QueryRow {
    QueryRow(2, ns, BAR_FOO, 2, Payload(v))
  }

  lemma TwoListed(lex: Lexicon, identity: string, ns: Namespace, v: Vector, keep: Keep)
    requires keep(1, ns) && keep(2, ns)
    ensures ListEmbeddings(Two(lex, identity, ns, v), PLAIN, keep, TABLE_ORDER) == Ok([FirstRow(ns, v), SecondRow(ns, v)])
  {
    var db := Two(lex, identity, ns, v);
    OwnerOfMessage(db.messages, 0);
    OwnerOfMessage(db.messages, 1);
    FilterAll(db.embeddings, JoinFilter(db.messages, keep));
    ReadRowsIs(db.messages, None, db.embeddings, [FirstRow(ns, v), SecondRow(ns, v)]);
  }

  // ----- rankings -----

  lemma FirstOfTwo(query: Parsed, a: QueryRow, b: QueryRow, sqrt: real -> real)
    requires Judge(query, a, sqrt) == Versioned(1.0) && Judge(query, b, sqrt) == Versioned(1.0)
    ensures Rank(query, [a, b], 1, sqrt) == [ScoredRow(1.0, a)]
  {
    var x, y := ScoredRow(1.0, a), ScoredRow(1.0, b);
    assert [a, b][..1] == [a] && [a][..0] == [];
    assert Scored(query, [a], sqrt) == [x];
    assert Scored(query, [a, b], sqrt) == [x, y];
    assert [x, y][1..] == [y] && [y][1..] == [];
    assert Sort([y], HigherScore) == [y];
    assert Sort([x, y], HigherScore) == [x, y];
  }

  // ----- the second row first -----

  function Swapped(es: seq<EmbeddingRow>): (r: seq<EmbeddingRow>)
    ensures multiset(r) == multiset(es)
  {
    if |es| == 2 then
      assert es == [es[0], es[1]];
      [es[1], es[0]]
    else es
  }

  /** The order of the contents: "bar foo" comes before "foo bar". */
  const BY_CONTENT: Scan := Swapped

  lemma SwappedImage(es: seq<EmbeddingRow>, read: EmbeddingRow -> QueryRow, a: QueryRow, b: QueryRow)
    requires ImageBy(read)(es) == [a, b]
    ensures ImageBy(read)(Swapped(es)) == [b, a]
  {
    assert |es| == |ImageBy(read)(es)| == 2;
    assert read(es[0]) == ImageBy(read)(es)[0] && read(es[1]) == ImageBy(read)(es)[1];
  }

  lemma SwappedList(db: Tables, ctx: Option<Context>, keep: Keep, a: QueryRow, b: QueryRow)
    requires Protected(db, ctx) && ListEmbeddings(db, SessionOf(db, ctx), keep, TABLE_ORDER) == Ok([a, b])
    ensures ListEmbeddings(db, SessionOf(db, ctx), keep, BY_CONTENT) == Ok([b, a])
  {
    JoinedReads(db, ctx, keep, TABLE_ORDER);
    JoinedReads(db, ctx, keep, BY_CONTENT);
    SwappedImage(Joined(db, keep), RowReader(db.messages, ctx), a, b);
  }

  /** A query for one row, with room for both candidates. */
  function OneRow(ns: Namespace, limit: int): Request {
    Request(ExactScan, Scope(ns.project, None, None, None), FOO_BAR, 1, limit, 0)
  }

  /** The database whose plaintext holds the two texts, encrypted or not. */
  ghost predicate HoldsTwo(lex: Lexicon, db: Tables, ctx: Option<Context>, ns: Namespace, v: Vector) {
    Consistent(lex, db, ctx) && Plain(db, ctx) == Two(lex, db.meta.dbIdentity, ns, v)
  }

  lemma ExactTwo(lex: Lexicon, db: Tables, ctx: Option<Context>, ns: Namespace, v: Vector, limit: int)
    requires HoldsTwo(lex, db, ctx, ns, v)
    ensures ExactRows(db, SessionOf(db, ctx), OneRow(ns, limit).scope, TABLE_ORDER) == Ok([FirstRow(ns, v), SecondRow(ns, v)])
    ensures ExactRows(db, SessionOf(db, ctx), OneRow(ns, limit).scope, BY_CONTENT) == Ok([SecondRow(ns, v), FirstRow(ns, v)])
  {
    var keep := ProjectKeep(ns.project);
    ListEmbeddingsRefines(db, ctx, keep);
    TwoListed(lex, db.meta.dbIdentity, ns, v, keep);
    SwappedList(db, ctx, keep, FirstRow(ns, v), SecondRow(ns, v));
  }

  /** The index finds every word of the query in either text. */
  predicate WordsIndexed(lex: Lexicon) {
    Tokenize(lex, FOO_BAR) != [] && forall w :: w in Tokenize(lex, FOO_BAR) ==> w in Tokenize(lex, BAR_FOO)
  }

  lemma TwoShare(lex: Lexicon, db: Tables, ctx: Option<Context>, ns: Namespace, v: Vector, m: MessageRow)
    requires HoldsTwo(lex, db, ctx, ns, v) && WordsIndexed(lex) && m in db.messages
    ensures Tokenize(lex, FOO_BAR)[0] in Shared(lex, ctx, m, FOO_BAR)
  {
    var i :| 0 <= i < |db.messages| && db.messages[i] == m;
    var plain := Plain(db, ctx).messages;
    assert PlainContent(ctx, m) == plain[i].content;
    assert plain == TwoMessages(ns);
  }

  lemma TwoCovered(lex: Lexicon, db: Tables, ctx: Option<Context>, ns: Namespace, v: Vector, limit: int)
    requires HoldsTwo(lex, db, ctx, ns, v) && WordsIndexed(lex) && limit >= 2
    ensures IndexCovers(lex, db, ctx, OneRow(ns, limit))
  {
    assert |db.messages| == |Plain(db, ctx).messages| == |TwoMessages(ns)| == 2;
    forall m | m in EmbeddedInScope(db, OneRow(ns, limit).scope)
      ensures Shared(lex, ctx, m, FOO_BAR) != {}
    {
      TwoShare(lex, db, ctx, ns, v, m);
    }
  }

  lemma IndexedTwo(lex: Lexicon, db: Tables, ctx: Option<Context>, ns: Namespace, v: Vector, limit: int, plan: Plan)
    requires HoldsTwo(lex, db, ctx, ns, v) && WordsIndexed(lex) && limit >= 2
    requires plan == PlanOf(lex, Directed(db, ctx, OneRow(ns, limit), IndexScan))
    ensures plan.used == IndexScan && plan.fallback != UseExact
    ensures ListEmbeddings(db, SessionOf(db, ctx), IdsKeep(plan.ids, OneRow(ns, limit).scope), TABLE_ORDER) == Ok([FirstRow(ns, v), SecondRow(ns, v)])
  {
    var req, rows := OneRow(ns, limit), [FirstRow(ns, v), SecondRow(ns, v)];
    ExactTwo(lex, db, ctx, ns, v, limit);
    TwoCovered(lex, db, ctx, ns, v, limit);
    IndexIsUsed(lex, db, ctx, req);
    ExactRowsCovered(lex, db, ctx, req, plan, rows);
    TableScanCoversScope(db, ctx, req.scope);
    NarrowerRows(db, ctx, ScopeKeep(req.scope), IdsKeep(plan.ids, req.scope), IdFilter(plan.ids));
    assert rows[0] in rows;
    FilterAll(rows, IdFilter(plan.ids));
  }

  lemma RanksOver(lex: Lexicon, engine: Engine, a: Asked, scans: Scans, rows: seq<QueryRow>)
    requires a.names == SAME_NAMES && PlanOf(lex, a).fallback != UseExact && RowsOf(lex, a, scans) == Ok(rows)
    ensures RanksIn(AnswerTo(lex, engine, a, scans)) == RanksFrom(engine, a.req, rows)
  {
    var total, plan := CountEmbeddings(a.db, a.req.scope), PlanOf(lex, a);
    AnswerIsOn(lex, a.db, SessionOf(a.db, a.ctx), engine, a.req, scans, plan, rows);
    RanksOn(engine, a.req, total, plan, rows);
    RenamedSame(AnswerOn(engine, a.req, total, plan, rows));
  }

  /** The exact scan answers either text, as its order has it; the index scan in the order of the ids the first. */
  ghost predicate AnswersEither(lex: Lexicon, engine: Engine, db: Tables, ctx: Option<Context>, ns: Namespace, v: Vector, limit: int) {
    var exact, indexed := Directed(db, ctx, OneRow(ns, limit), ExactScan), Directed(db, ctx, OneRow(ns, limit), IndexScan);
    && RanksIn(AnswerTo(lex, engine, exact, TABLE_SCANS)) == Ok([ScoredRow(1.0, FirstRow(ns, v))])
    && RanksIn(AnswerTo(lex, engine, exact, Scans(BY_CONTENT, TABLE_ORDER))) == Ok([ScoredRow(1.0, SecondRow(ns, v))])
    && RanksIn(AnswerTo(lex, engine, indexed, TABLE_SCANS)) == Ok([ScoredRow(1.0, FirstRow(ns, v))])
  }

  lemma PerfectRanks(h: Hashing, sqrt: real -> real, req: Request, a: QueryRow, b: QueryRow)
    requires IsRoot(sqrt) && req.text == FOO_BAR && req.topK == 1 && req.strategy != Unsupported
    requires a.embedding == Payload(HashEngine(h, sqrt).embed(FOO_BAR)) && b.embedding == a.embedding
    ensures RanksFrom(HashEngine(h, sqrt), req, [a, b]) == Ok([ScoredRow(1.0, a)])
  {
    var v := HashEngine(h, sqrt).embed(FOO_BAR);
    HashEmbeddingIsUnit(h.tokens(FOO_BAR), h.whole(FOO_BAR), sqrt);
    PerfectScore(v, a, sqrt);
    PerfectScore(v, b, sqrt);
    FirstOfTwo(QueryMeta(v, BACKEND_HASH_V1, None).value, a, b, sqrt);
  }

  lemma EitherIsAnswered(lex: Lexicon, db: Tables, ctx: Option<Context>, ns: Namespace, h: Hashing, sqrt: real -> real, v: Vector, limit: int)
    requires IsRoot(sqrt) && v == HashEngine(h, sqrt).embed(FOO_BAR)
    requires HoldsTwo(lex, db, ctx, ns, v) && WordsIndexed(lex) && limit >= 2
    ensures AnswersEither(lex, HashEngine(h, sqrt), db, ctx, ns, v, limit)
  {
    var engine, req := HashEngine(h, sqrt), OneRow(ns, limit);
    var exact, indexed := Directed(db, ctx, req, ExactScan), Directed(db, ctx, req, IndexScan);
    var first, second := FirstRow(ns, v), SecondRow(ns, v);
    ExactTwo(lex, db, ctx, ns, v, limit);
    IndexIsUsed(lex, db, ctx, req);
    IndexedTwo(lex, db, ctx, ns, v, limit, PlanOf(lex, indexed));
    RanksOver(lex, engine, exact, TABLE_SCANS, [first, second]);
    RanksOver(lex, engine, exact, Scans(BY_CONTENT, TABLE_ORDER), [second, first]);
    RanksOver(lex, engine, indexed, TABLE_SCANS, [first, second]);
    PerfectRanks(h, sqrt, exact.req, first, second);
    PerfectRanks(h, sqrt, exact.req, second, first);
    PerfectRanks(h, sqrt, indexed.req, first, second);
  }

  /** A store of the two texts and the same store after enabling encryption: consistent databases with one
      plaintext, whose texts have one hash embedding. Asked for the one row closest to "foo bar", an exact scan in
      the order of the contents answers "bar foo" and an index scan in the order of the ids "foo bar"; on the
      encrypted store, whose contents are sealed, either may be first. */
  lemma OrderDecides(lex: Lexicon, ns: Namespace, h: Hashing, foo: TokenHash, bar: TokenHash, sqrt: real -> real, c: Context, mode: TermsMode,
                     nonces: Nonces, limit: int)
    requires IsRoot(sqrt) && HashesWords(h, foo, bar) && WordsIndexed(lex) && limit >= 2
    requires UsableKey(c.master, c.dbIdentity) && '|' !in c.dbIdentity
    ensures var engine := HashEngine(h, sqrt);
            var v := engine.embed(FOO_BAR);
            var open := Two(lex, c.dbIdentity, ns, v);
            var sealed := Enable(lex, open, c.master, mode, nonces);
            && v == engine.embed(BAR_FOO) && Consistent(lex, open, None)
            && sealed.Ok? && Consistent(lex, sealed.value, Some(c)) && Plain(sealed.value, Some(c)) == open
            && AnswersEither(lex, engine, open, None, ns, v, limit) && AnswersEither(lex, engine, sealed.value, Some(c), ns, v, limit)
  {
    var v := HashEngine(h, sqrt).embed(FOO_BAR);
    var open := Two(lex, c.dbIdentity, ns, v);
    SameEmbedding(h, foo, bar, sqrt);
    TwoIsConsistent(lex, c.dbIdentity, ns, v);
    PlainOfPlain(lex, open);
    TwoSealsCleanly(c, ns, nonces);
    EnableCorrect(lex, open, None, c.master, mode, nonces);
    EitherIsAnswered(lex, open, None, ns, h, sqrt, v, limit);
    EitherIsAnswered(lex, Enable(lex, open, c.master, mode, nonces).value, Some(c), ns, h, sqrt, v, limit);
  }
}
