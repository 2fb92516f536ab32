/** All that a client can ask of a database, and when two databases look the same to it (storage.py,
    sync_service.py): an encrypted one and its plaintext, and two whose plaintexts differ in ids alone. */
module Views {
  import opened Basics
  import opened Sorting
  import opened Crypto
  import opened Tokenizer
  import opened Rows
  import opened Inserts
  import opened Fields
  import opened Simulation
  import opened Ids
  import opened SearchIndex
  import opened Ranking
  import opened Query
  import opened Answers
  import opened Placing
  import opened Bundle
  import opened Listings

  /** A database as a client sees it, with the names its messages go by. */
  datatype Seen = Seen(db: Tables, ctx: Option<Context>, names: Naming)

  function Ask(a: Seen, req: Request): Asked {
    Asked(a.db, a.ctx, req, a.names)
  }

  function NamedMessage(r: Result<MessageRow, CryptoError>, h: Naming): Result<MessageRow, CryptoError> {
    match r
    case Err(e) => Err(e)
    case Ok(m) => Ok(m.(id := h(m.id)))
  }

  function MessageNamer(h: Naming): MessageRow -> MessageRow {
    (m: MessageRow) => m.(id := h(m.id))
  }

  function HitNamer(h: Naming): Hit -> Hit {
    (x: Hit) => x.(id := h(x.id))
  }

  /** The exact-content lookup. */
  function Lookup(a: Seen, ns: Namespace, content: Text): Option<nat> {
    match FindExact(a.db, SessionOf(a.db, a.ctx), ns, content)
    case None => None
    case Some(id) => Some(a.names(id))
  }

  /** The candidate list for the words of a query, mapped as the store maps them. */
  function CandidatesFor(a: Seen, scope: Scope, words: seq<string>, limit: int): seq<Hit> {
    ImageBy(HitNamer(a.names))(SelectCandidates(a.db, scope, MapQuery(SessionOf(a.db, a.ctx), words), limit))
  }

  function MessagesListed(a: Seen, project: string): Result<seq<MessageRow>, CryptoError> {
    match MessagesOf(a.db, SessionOf(a.db, a.ctx), project)
    case Err(e) => Err(e)
    case Ok(ms) => Ok(ImageBy(MessageNamer(a.names))(ms))
  }

  function SummariesListed(a: Seen, project: string): Result<seq<SummaryRow>, CryptoError> {
    SummariesRead(a.db, SessionOf(a.db, a.ctx), project)
  }

  function Exported(a: Seen, project: string): Result<Bundle, CryptoError> {
    ExportStored(a.db, SessionOf(a.db, a.ctx), project)
  }

  function StateOf(a: Seen, slot: AgentKey): Result<Option<Text>, CryptoError> {
    GetAgentState(a.db, SessionOf(a.db, a.ctx), slot)
  }

  /** What a client can ask of a database looks the same on both, messages under their names: every query with
      its report, whatever order SQLite visits the rows in and up to ties at the cut, with the very same rows
      for every order exactly when nothing ties there; every exact-content lookup, every candidate list, every
      slot of agent state, every listing of messages and of summaries, every export, and every message. */
  ghost predicate SameAnswers(lex: Lexicon, a: Seen, b: Seen) {
    && (forall engine: Engine, req: Request :: AnsweredAlike(lex, engine, Ask(a, req), Ask(b, req)))
    && (forall ns: Namespace, content: Text :: Lookup(a, ns, content) == Lookup(b, ns, content))
    && (forall scope: Scope, words: seq<string>, limit: int :: CandidatesFor(a, scope, words, limit) == CandidatesFor(b, scope, words, limit))
    && (forall slot: AgentKey :: StateOf(a, slot) == StateOf(b, slot))
    && (forall project: string :: MessagesListed(a, project) == MessagesListed(b, project) && MessagesListed(a, project).Ok?)
    && (forall project: string :: SummariesListed(a, project) == SummariesListed(b, project) && SummariesListed(a, project).Ok?)
    && (forall project: string :: Exported(a, project) == Exported(b, project))
    && |a.db.messages| == |b.db.messages|
    && (forall i :: 0 <= i < |a.db.messages| ==>
          NamedMessage(ReadMessage(a.ctx, a.db.messages[i]), a.names) == NamedMessage(ReadMessage(b.ctx, b.db.messages[i]), b.names))
  }

  // ----- an encrypted database and its plaintext -----

  lemma ListingsRefine(db: Tables, ctx: Option<Context>, project: string)
    requires Protected(db, ctx)
    ensures var a, b := Seen(db, ctx, SAME_NAMES), Seen(Plain(db, ctx), None, SAME_NAMES);
            && MessagesListed(a, project) == MessagesListed(b, project) && MessagesListed(a, project).Ok?
            && SummariesListed(a, project) == SummariesListed(b, project) && SummariesListed(a, project).Ok?
            && Exported(a, project) == Exported(b, project)
  {
    PlainIsProtected(db, ctx);
    PlainAgain(db, ctx);
    MessagesOfRefines(db, ctx, project);
    MessagesOfRefines(Plain(db, ctx), None, project);
    SummariesReadRefines(db, ctx, project);
    SummariesReadRefines(Plain(db, ctx), None, project);
  }

  lemma PlainAgain(db: Tables, ctx: Option<Context>)
    ensures Plain(Plain(db, ctx), None).messages == Plain(db, ctx).messages && Plain(Plain(db, ctx), None).summaries == Plain(db, ctx).summaries
  {
  }

  lemma PlainQueries(lex: Lexicon, db: Tables, ctx: Option<Context>, engine: Engine, req: Request)
    requires Consistent(lex, db, ctx)
    ensures AnsweredAlike(lex, engine, Ask(Seen(db, ctx, SAME_NAMES), req), Ask(Seen(Plain(db, ctx), None, SAME_NAMES), req))
  {
    QueryRefines(lex, db, ctx, engine, req);
  }

  lemma PlainAnswers(lex: Lexicon, db: Tables, ctx: Option<Context>)
    requires Consistent(lex, db, ctx)
    ensures SameAnswers(lex, Seen(db, ctx, SAME_NAMES), Seen(Plain(db, ctx), None, SAME_NAMES))
  {
    var a, b := Seen(db, ctx, SAME_NAMES), Seen(Plain(db, ctx), None, SAME_NAMES);
    PlainIsProtected(db, ctx);
    forall engine: Engine, req: Request {
      PlainQueries(lex, db, ctx, engine, req);
    }
    forall ns: Namespace, content: Text {
      FindExactRefines(db, ctx, ns, content);
    }
    forall scope: Scope, words: seq<string>, limit: int {
      SelectCandidatesRefines(lex, db, ctx, scope, words, limit);
    }
    forall slot: AgentKey {
      GetAgentStateRefines(db, ctx, slot);
    }
    forall project: string
      ensures MessagesListed(a, project) == MessagesListed(b, project) && MessagesListed(a, project).Ok?
      ensures SummariesListed(a, project) == SummariesListed(b, project) && SummariesListed(a, project).Ok?
      ensures Exported(a, project) == Exported(b, project)
    {
      ListingsRefine(db, ctx, project);
    }
    forall i | 0 <= i < |db.messages|
      ensures ReadMessage(ctx, db.messages[i]) == ReadMessage(None, Plain(db, ctx).messages[i])
    {
      ReadMessageOpens(db, ctx, i);
    }
  }

  // ----- a database and another with the same plaintext up to ids -----

  /** The plaintext database q holds, up to ids, what is behind the database. */
  predicate Twin(db: Tables, ctx: Option<Context>, q: Tables) {
    Linked(q) && SameUpToIds(Plain(db, ctx), q)
  }

  function ByPlace(db: Tables, ctx: Option<Context>): Seen {
    Seen(db, ctx, PlacesIn(db.messages))
  }

  lemma TwinIsPlain(db: Tables, ctx: Option<Context>, q: Tables)
    requires Twin(db, ctx, q)
    ensures Protected(q, None) && SessionOf(q, None) == PLAIN && Plain(q, None).messages == q.messages
    ensures |q.messages| == |db.messages| && q.agents == Plain(db, ctx).agents && q.summaries == Plain(db, ctx).summaries
  {
    var n := Numbered(q).messages;
    assert n == Numbered(Plain(db, ctx)).messages;
    forall i | 0 <= i < |q.messages|
      ensures q.messages[i].fingerprint == None && OpenMessage(None, q.messages[i]) == q.messages[i]
    {
      assert n[i].fingerprint == None;
    }
    assert Plain(q, None).messages == q.messages;
  }

  lemma OpenKeepsPlaces(db: Tables, ctx: Option<Context>, id: nat)
    ensures Place(Plain(db, ctx).messages, id) == Place(db.messages, id)
  {
    FirstIndexSame(db.messages, HasId(id), Plain(db, ctx).messages, HasId(id));
  }

  lemma OpenKeepsRenaming(db: Tables, ctx: Option<Context>, rows: seq<QueryRow>)
    ensures RenamedRows(rows, PlacesIn(db.messages)) == RenamedRows(rows, PlacesIn(Plain(db, ctx).messages))
  {
    forall i | 0 <= i < |rows|
      ensures RenamedRows(rows, PlacesIn(db.messages))[i] == RenamedRows(rows, PlacesIn(Plain(db, ctx).messages))[i]
    {
      OpenKeepsPlaces(db, ctx, rows[i].messageId);
    }
  }

  lemma RowForExists(ms: seq<MessageRow>, ctx: Option<Context>, e: EmbeddingRow)
    requires Owner(ms, e.key).Some? && ReadRow(ms, ctx, e).Ok?
    ensures MessageExists(ms, RowFor(ms, ctx, e).messageId)
  {
  }

  lemma ListedExist(db: Tables, ctx: Option<Context>, keep: Keep, r: QueryRow)
    requires Protected(db, ctx)
    requires var rows := ListEmbeddings(db, SessionOf(db, ctx), keep, TABLE_ORDER); rows.Ok? && r in rows.value
    ensures MessageExists(db.messages, r.messageId)
  {
    JoinedReads(db, ctx, keep, TABLE_ORDER);
    var es := Joined(db, keep);
    var i :| 0 <= i < |es| && RowFor(db.messages, ctx, es[i]) == r;
    assert es[i] in es;
    ReadRowOpens(db, ctx, es[i]);
    RowForExists(db.messages, ctx, es[i]);
  }

  lemma ExactExist(db: Tables, ctx: Option<Context>, scope: Scope, r: QueryRow)
    requires Protected(db, ctx)
    requires var rows := ExactRows(db, SessionOf(db, ctx), scope, TABLE_ORDER); rows.Ok? && r in rows.value
    ensures MessageExists(db.messages, r.messageId)
  {
    ListEmbeddingsRefines(db, ctx, ExactKeep(scope));
    ExactFromList(db, SessionOf(db, ctx), scope, ListEmbeddings(db, SessionOf(db, ctx), ExactKeep(scope), TABLE_ORDER).value);
    ListedExist(db, ctx, ExactKeep(scope), r);
  }

  lemma SourceExists(lex: Lexicon, a: Asked, r: QueryRow)
    requires Protected(a.db, a.ctx) && r in Source(lex, a)
    ensures MessageExists(a.db.messages, r.messageId)
  {
    if PlanOf(lex, a).used == ExactScan {
      ExactExist(a.db, a.ctx, a.req.scope, r);
    } else {
      ListedExist(a.db, a.ctx, IdsKeep(PlanOf(lex, a).ids, a.req.scope), r);
    }
  }

  lemma PlacesApart(lex: Lexicon, db: Tables, ctx: Option<Context>, req: Request)
    requires Protected(db, ctx)
    ensures NamesApart(lex, Ask(ByPlace(db, ctx), req))
  {
    var a := Ask(ByPlace(db, ctx), req);
    forall x, y | x in Source(lex, a) && y in Source(lex, a) && Place(db.messages, x.messageId) == Place(db.messages, y.messageId)
      ensures x.messageId == y.messageId
    {
      SourceExists(lex, a, x);
      PlaceApart(db.messages, x.messageId, y.messageId);
    }
  }

  lemma SourceIgnoresNames(lex: Lexicon, db: Tables, ctx: Option<Context>, req: Request, h: Naming, h': Naming)
    ensures PlanOf(lex, Asked(db, ctx, req, h)) == PlanOf(lex, Asked(db, ctx, req, h'))
    ensures Source(lex, Asked(db, ctx, req, h)) == Source(lex, Asked(db, ctx, req, h'))
  {
  }

  lemma PlansChain(lex: Lexicon, a: Asked, b: Asked, c: Asked)
    requires SamePlan(lex, a, b) && SamePlan(lex, b, c)
    ensures SamePlan(lex, a, c) && SamePlan(lex, c, a)
  {
  }

  /** The rows that a query ranks, messages named by their places, are those of the numbered plaintext. */
  ghost predicate ByNumbers(lex: Lexicon, a: Asked, n: Asked) {
    Protected(a.db, a.ctx) && RenamedRows(Source(lex, a), a.names) == Source(lex, n) && SamePlan(lex, a, n)
  }

  lemma SourceThroughPlain(lex: Lexicon, db: Tables, ctx: Option<Context>, req: Request, a: Asked, n: Asked)
    requires Consistent(lex, db, ctx)
    requires a == Ask(ByPlace(db, ctx), req) && n == AskedNumbered(Numbered(Plain(db, ctx)), req)
    ensures ByNumbers(lex, a, n)
  {
    var p, h := Plain(db, ctx), PlacesIn(db.messages);
    PlainIsProtected(db, ctx);
    PlainLinked(lex, db, ctx);
    PlainSource(lex, db, ctx, req, h);
    SourceNumbered(lex, p, req);
    SourceIgnoresNames(lex, p, None, req, h, PlacesIn(p.messages));
    OpenKeepsRenaming(db, ctx, Source(lex, a));
    PlansChain(lex, a, AskedOf(p, None, req), n);
  }

  lemma SourceOfTwin(lex: Lexicon, q: Tables, req: Request, b: Asked, n: Asked)
    requires Linked(q) && Protected(q, None) && b == Ask(ByPlace(q, None), req) && n == AskedNumbered(Numbered(q), req)
    ensures ByNumbers(lex, b, n)
  {
    SourceNumbered(lex, q, req);
  }

  lemma SameNumbered(lex: Lexicon, engine: Engine, a: Asked, b: Asked, n: Asked)
    requires ByNumbers(lex, a, n) && ByNumbers(lex, b, n)
    ensures SameSource(lex, engine, a, b) && SamePlan(lex, a, b)
  {
  }

  /** Queries see no difference between a database and its twin, messages named by their places. */
  lemma TwinQueries(lex: Lexicon, db: Tables, ctx: Option<Context>, q: Tables, engine: Engine, req: Request)
    requires Consistent(lex, db, ctx) && Twin(db, ctx, q)
    ensures AnsweredAlike(lex, engine, Ask(ByPlace(db, ctx), req), Ask(ByPlace(q, None), req))
  {
    var a, b, n := Ask(ByPlace(db, ctx), req), Ask(ByPlace(q, None), req), AskedNumbered(Numbered(q), req);
    TwinIsPlain(db, ctx, q);
    SourceThroughPlain(lex, db, ctx, req, a, n);
    SourceOfTwin(lex, q, req, b, n);
    SameNumbered(lex, engine, a, b, n);
    PlacesApart(lex, db, ctx, req);
    AnswersDecide(lex, engine, a, b);
  }

  lemma TwinLookups(lex: Lexicon, db: Tables, ctx: Option<Context>, q: Tables, ns: Namespace, content: Text)
    requires Consistent(lex, db, ctx) && Twin(db, ctx, q)
    ensures Lookup(ByPlace(db, ctx), ns, content) == Lookup(ByPlace(q, None), ns, content)
  {
    var p := Plain(db, ctx);
    TwinIsPlain(db, ctx, q);
    PlainLinked(lex, db, ctx);
    FindExactRefines(db, ctx, ns, content);
    FindExactNumbered(p, ns, content);
    FindExactNumbered(q, ns, content);
    var found := FindExact(p, PLAIN, ns, content);
    if found.Some? {
      OpenKeepsPlaces(db, ctx, found.value);
    }
  }

  lemma NamedByPlace(ms: seq<MessageRow>, hits: seq<Hit>, hits': seq<Hit>)
    requires Image(hits, hits', HitPlacer(ms))
    ensures ImageBy(HitNamer(PlacesIn(ms)))(hits) == hits'
  {
  }

  lemma OpenKeepsHits(db: Tables, ctx: Option<Context>, hits: seq<Hit>)
    ensures ImageBy(HitNamer(PlacesIn(db.messages)))(hits) == ImageBy(HitNamer(PlacesIn(Plain(db, ctx).messages)))(hits)
  {
    var a, b := ImageBy(HitNamer(PlacesIn(db.messages)))(hits), ImageBy(HitNamer(PlacesIn(Plain(db, ctx).messages)))(hits);
    forall i | 0 <= i < |hits|
      ensures a[i] == b[i]
    {
      OpenKeepsPlaces(db, ctx, hits[i].id);
    }
  }

  lemma NumberedCandidates(lex: Lexicon, q: Tables, scope: Scope, words: seq<string>, limit: int)
    requires Linked(q)
    ensures ImageBy(HitNamer(PlacesIn(q.messages)))(SelectCandidates(q, scope, MapQuery(PLAIN, words), limit))
         == SelectCandidates(Numbered(q), scope, MapQuery(PLAIN, words), limit)
  {
    var terms := MapQuery(PLAIN, words);
    SelectionNumbered(q, scope, terms, limit);
    NamedByPlace(q.messages, SelectCandidates(q, scope, terms, limit), SelectCandidates(Numbered(q), scope, terms, limit));
  }

  lemma CandidatesAsNumbered(lex: Lexicon, db: Tables, ctx: Option<Context>, scope: Scope, words: seq<string>, limit: int)
    requires Consistent(lex, db, ctx)
    ensures CandidatesFor(ByPlace(db, ctx), scope, words, limit) == SelectCandidates(Numbered(Plain(db, ctx)), scope, MapQuery(PLAIN, words), limit)
  {
    var p := Plain(db, ctx);
    PlainLinked(lex, db, ctx);
    SelectCandidatesRefines(lex, db, ctx, scope, words, limit);
    OpenKeepsHits(db, ctx, SelectCandidates(p, scope, MapQuery(PLAIN, words), limit));
    NumberedCandidates(lex, p, scope, words, limit);
  }

  lemma TwinCandidates(lex: Lexicon, db: Tables, ctx: Option<Context>, q: Tables, scope: Scope, words: seq<string>, limit: int)
    requires Consistent(lex, db, ctx) && Twin(db, ctx, q)
    ensures CandidatesFor(ByPlace(db, ctx), scope, words, limit) == CandidatesFor(ByPlace(q, None), scope, words, limit)
  {
    TwinIsPlain(db, ctx, q);
    CandidatesAsNumbered(lex, db, ctx, scope, words, limit);
    NumberedCandidates(lex, q, scope, words, limit);
  }

  lemma ListedByPlace(ms: seq<MessageRow>, listed: seq<MessageRow>, listed': seq<MessageRow>)
    requires Image(listed, listed', MessagePlacer(ms))
    ensures ImageBy(MessageNamer(PlacesIn(ms)))(listed) == listed' && ExportMessages(listed) == ExportMessages(listed')
  {
  }

  lemma OpenKeepsListed(db: Tables, ctx: Option<Context>, listed: seq<MessageRow>)
    ensures ImageBy(MessageNamer(PlacesIn(db.messages)))(listed) == ImageBy(MessageNamer(PlacesIn(Plain(db, ctx).messages)))(listed)
  {
    var a, b := ImageBy(MessageNamer(PlacesIn(db.messages)))(listed), ImageBy(MessageNamer(PlacesIn(Plain(db, ctx).messages)))(listed);
    forall i | 0 <= i < |listed|
      ensures a[i] == b[i]
    {
      OpenKeepsPlaces(db, ctx, listed[i].id);
    }
  }

  /** What a listing shows, messages named by their places, depends on the numbered messages alone. */
  lemma ListedAsNumbered(db: Tables, ctx: Option<Context>, ms: seq<MessageRow>, project: string)
    requires Protected(db, ctx) && ms == Plain(db, ctx).messages && OrderedMessages(ms)
    ensures MessagesListed(ByPlace(db, ctx), project) == Ok(ListMessages(NumberedMessages(ms), project))
  {
    MessagesOfRefines(db, ctx, project);
    OpenKeepsListed(db, ctx, ListMessages(ms, project));
    NumberedListing(ms, project);
  }

  lemma NumberedListing(ms: seq<MessageRow>, project: string)
    requires OrderedMessages(ms)
    ensures var listed, listed' := ListMessages(ms, project), ListMessages(NumberedMessages(ms), project);
            ImageBy(MessageNamer(PlacesIn(ms)))(listed) == listed' && ExportMessages(listed) == ExportMessages(listed')
  {
    ListingNumbered(ms, project);
    ListedByPlace(ms, ListMessages(ms, project), ListMessages(NumberedMessages(ms), project));
  }

  lemma ExportedAsNumbered(db: Tables, ctx: Option<Context>, ms: seq<MessageRow>, project: string)
    requires Protected(db, ctx) && ms == Plain(db, ctx).messages && OrderedMessages(ms)
    ensures Exported(ByPlace(db, ctx), project)
         == Ok(BundleOf(project, ListMessages(NumberedMessages(ms), project), ListSummaries(Plain(db, ctx).summaries, project)))
  {
    ExportRefines(db, ctx, project);
    NumberedListing(ms, project);
  }

  lemma TwinListings(lex: Lexicon, db: Tables, ctx: Option<Context>, q: Tables, project: string)
    requires Consistent(lex, db, ctx) && Twin(db, ctx, q)
    ensures var a, b := ByPlace(db, ctx), ByPlace(q, None);
            && MessagesListed(a, project) == MessagesListed(b, project) && MessagesListed(a, project).Ok?
            && SummariesListed(a, project) == SummariesListed(b, project) && SummariesListed(a, project).Ok?
            && Exported(a, project) == Exported(b, project)
  {
    TwinIsPlain(db, ctx, q);
    PlainSummariesAgain(db, ctx, q);
    PlainLinked(lex, db, ctx);
    var ms := Plain(db, ctx).messages;
    assert NumberedMessages(ms) == NumberedMessages(q.messages);
    ListedAsNumbered(db, ctx, ms, project);
    ListedAsNumbered(q, None, q.messages, project);
    ExportedAsNumbered(db, ctx, ms, project);
    ExportedAsNumbered(q, None, q.messages, project);
    SummariesReadRefines(db, ctx, project);
    SummariesReadRefines(q, None, project);
  }

  lemma PlainSummariesAgain(db: Tables, ctx: Option<Context>, q: Tables)
    requires q.summaries == Plain(db, ctx).summaries
    ensures Plain(q, None).summaries == Plain(db, ctx).summaries
  {
  }

  lemma TwinStates(db: Tables, ctx: Option<Context>, q: Tables, slot: AgentKey)
    requires Protected(db, ctx) && Twin(db, ctx, q)
    ensures StateOf(ByPlace(db, ctx), slot) == StateOf(ByPlace(q, None), slot)
  {
    TwinIsPlain(db, ctx, q);
    GetAgentStateRefines(db, ctx, slot);
  }

  lemma TwinMessages(lex: Lexicon, db: Tables, ctx: Option<Context>, q: Tables, i: nat)
    requires Consistent(lex, db, ctx) && Twin(db, ctx, q) && i < |db.messages| == |q.messages|
    ensures NamedMessage(ReadMessage(ctx, db.messages[i]), PlacesIn(db.messages))
         == NamedMessage(ReadMessage(None, q.messages[i]), PlacesIn(q.messages))
  {
    TwinIsPlain(db, ctx, q);
    ReadMessageOpens(db, ctx, i);
    ReadMessageOpens(q, None, i);
    PlaceAt(db.messages, i);
    PlaceAt(q.messages, i);
    assert NumberedMessages(Plain(db, ctx).messages)[i] == NumberedMessages(q.messages)[i];
  }

  /** A client sees no difference between a database and its twin, messages named by their places. */
  lemma TwinAnswers(lex: Lexicon, db: Tables, ctx: Option<Context>, q: Tables)
    requires Consistent(lex, db, ctx) && Twin(db, ctx, q)
    ensures SameAnswers(lex, ByPlace(db, ctx), ByPlace(q, None))
  {
    var a, b := ByPlace(db, ctx), ByPlace(q, None);
    TwinIsPlain(db, ctx, q);
    forall engine: Engine, req: Request {
      TwinQueries(lex, db, ctx, q, engine, req);
    }
    forall ns: Namespace, content: Text {
      TwinLookups(lex, db, ctx, q, ns, content);
    }
    forall scope: Scope, words: seq<string>, limit: int {
      TwinCandidates(lex, db, ctx, q, scope, words, limit);
    }
    forall slot: AgentKey {
      TwinStates(db, ctx, q, slot);
    }
    forall project: string
      ensures MessagesListed(a, project) == MessagesListed(b, project) && MessagesListed(a, project).Ok?
      ensures SummariesListed(a, project) == SummariesListed(b, project) && SummariesListed(a, project).Ok?
      ensures Exported(a, project) == Exported(b, project)
    {
      TwinListings(lex, db, ctx, q, project);
    }
    forall i | 0 <= i < |db.messages|
      ensures NamedMessage(ReadMessage(ctx, db.messages[i]), a.names) == NamedMessage(ReadMessage(None, q.messages[i]), b.names)
    {
      TwinMessages(lex, db, ctx, q, i);
    }
  }
}
