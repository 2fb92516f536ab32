/** Reading a plaintext database whose messages go by their places (storage.py, sync_service.py): every query,
    candidate list and listing is the one of the database itself, its messages renamed. */
module Placing {
  import opened Basics
  import opened Sorting
  import opened Tokenizer
  import opened Crypto
  import opened Rows
  import opened Inserts
  import opened Simulation
  import opened Ids
  import opened SearchIndex
  import opened Ranking
  import opened Query
  import opened QueryScope
  import opened Answers
  import opened Bundle

  /** A message goes by its place. */
  function PlacesIn(ms: seq<MessageRow>): Naming {
    (id: nat) => Place(ms, id)
  }

  // ----- joins -----

  lemma OwnerIs(ms: seq<MessageRow>, id: nat)
    requires OrderedMessages(ms)
    ensures Owner(ms, id).Some? <==> MessageExists(ms, id)
    ensures MessageExists(ms, id) ==> Place(ms, id) > 0 && Owner(ms, id) == Some(ms[Place(ms, id) - 1])
  {
    PlaceOfMessage(ms, id);
    if MessageExists(ms, id) {
      OwnerOfMessage(ms, Place(ms, id) - 1);
    }
  }

  lemma OwnerNumbered(ms: seq<MessageRow>, id: nat)
    requires OrderedMessages(ms) && MessageExists(ms, id)
    ensures Owner(ms, id).Some? && Owner(NumberedMessages(ms), Place(ms, id)) == Some(Owner(ms, id).value.(id := Place(ms, id)))
  {
    OwnerIs(ms, id);
    PlaceOfMessage(ms, id);
    NumberedIds(ms);
    NumberedPlace(ms, Place(ms, id));
    OwnerIs(NumberedMessages(ms), Place(ms, id));
  }

  function EmbeddingPlacer(ms: seq<MessageRow>): EmbeddingRow -> EmbeddingRow {
    (e: EmbeddingRow) => e.(key := Place(ms, e.key))
  }

  /** The one join condition says of a message what the other says of its place. */
  ghost predicate KeepsAlike(ms: seq<MessageRow>, keep: Keep, keep': Keep) {
    forall id, ns :: MessageExists(ms, id) ==> keep(id, ns) == keep'(Place(ms, id), ns)
  }

  lemma JoinedNumbered(p: Tables, keep: Keep, keep': Keep)
    requires Linked(p) && KeepsAlike(p.messages, keep, keep')
    ensures Image(Joined(p, keep), Joined(Numbered(p), keep'), EmbeddingPlacer(p.messages))
  {
    var ms, t := p.messages, Numbered(p);
    forall i | 0 <= i < |p.embeddings|
      ensures t.embeddings[i] == EmbeddingPlacer(ms)(p.embeddings[i])
      ensures JoinFilter(ms, keep)(p.embeddings[i]) == JoinFilter(t.messages, keep')(t.embeddings[i])
    {
      OwnerNumbered(ms, p.embeddings[i].key);
    }
    FilterImage(p.embeddings, JoinFilter(ms, keep), t.embeddings, JoinFilter(t.messages, keep'), EmbeddingPlacer(ms));
  }

  lemma RowNumbered(ms: seq<MessageRow>, e: EmbeddingRow)
    requires OrderedMessages(ms) && MessageExists(ms, e.key)
    ensures Owner(ms, e.key).Some? && Owner(NumberedMessages(ms), Place(ms, e.key)).Some?
    ensures ReadRow(NumberedMessages(ms), None, EmbeddingPlacer(ms)(e)) == Ok(RowRenamer(PlacesIn(ms))(RowFor(ms, None, e)))
  {
    OwnerNumbered(ms, e.key);
    OwnerIs(ms, e.key);
    PlaceOfMessage(ms, e.key);
  }

  lemma RowsNumbered(ms: seq<MessageRow>, es: seq<EmbeddingRow>, es': seq<EmbeddingRow>)
    requires OrderedMessages(ms) && Image(es, es', EmbeddingPlacer(ms)) && forall e :: e in es ==> MessageExists(ms, e.key)
    ensures forall e :: e in es' ==> Owner(NumberedMessages(ms), e.key).Some?
    ensures ReadRows(NumberedMessages(ms), None, es') == Ok(RenamedRows(ImageBy(RowReader(ms, None))(es), PlacesIn(ms)))
  {
    var rows' := RenamedRows(ImageBy(RowReader(ms, None))(es), PlacesIn(ms));
    forall i | 0 <= i < |es|
      ensures Owner(NumberedMessages(ms), es'[i].key).Some? && ReadRow(NumberedMessages(ms), None, es'[i]) == Ok(rows'[i])
    {
      assert es[i] in es;
      RowNumbered(ms, es[i]);
    }
    ReadRowsIs(NumberedMessages(ms), None, es', rows');
  }

  lemma ListNumbered(p: Tables, keep: Keep, keep': Keep, rows: seq<QueryRow>)
    requires Linked(p) && Protected(p, None) && KeepsAlike(p.messages, keep, keep')
    requires ListEmbeddings(p, PLAIN, keep, TABLE_ORDER) == Ok(rows)
    ensures ListEmbeddings(Numbered(p), PLAIN, keep', TABLE_ORDER) == Ok(RenamedRows(rows, PlacesIn(p.messages)))
  {
    var es := Joined(p, keep);
    JoinedNumbered(p, keep, keep');
    JoinedReads(p, None, keep, TABLE_ORDER);
    forall e | e in es
      ensures MessageExists(p.messages, e.key)
    {
      OwnerIs(p.messages, e.key);
    }
    RowsNumbered(p.messages, es, Joined(Numbered(p), keep'));
  }

  lemma FilterRenamed(rows: seq<QueryRow>, scope: Scope, h: Naming)
    ensures Filter(RenamedRows(rows, h), NarrowFilter(scope)) == RenamedRows(Filter(rows, NarrowFilter(scope)), h)
  {
    FilterImage(rows, NarrowFilter(scope), RenamedRows(rows, h), NarrowFilter(scope), RowRenamer(h));
  }

  /** The join that an exact scan of the scope makes. */
  function ExactKeep(scope: Scope): Keep {
    if scope.provider.Some? && scope.conversation.Some? then ScopeKeep(scope) else ProjectKeep(scope.project)
  }

  lemma ExactFromList(db: Tables, s: Session, scope: Scope, rows: seq<QueryRow>)
    requires ListEmbeddings(db, s, ExactKeep(scope), TABLE_ORDER) == Ok(rows)
    ensures ExactRows(db, s, scope, TABLE_ORDER)
         == Ok(if HonoursRole(scope) && (scope.provider.Some? <==> scope.conversation.Some?) then rows else Filter(rows, NarrowFilter(scope)))
  {
  }

  lemma ExactNumbered(p: Tables, scope: Scope)
    requires Linked(p) && Protected(p, None)
    ensures ExactRows(p, PLAIN, scope, TABLE_ORDER).Ok?
    ensures ExactRows(Numbered(p), PLAIN, scope, TABLE_ORDER) == Ok(RenamedRows(ExactRows(p, PLAIN, scope, TABLE_ORDER).value, PlacesIn(p.messages)))
  {
    var keep, h := ExactKeep(scope), PlacesIn(p.messages);
    ListEmbeddingsRefines(p, None, keep);
    var rows := ListEmbeddings(p, PLAIN, keep, TABLE_ORDER).value;
    ListNumbered(p, keep, keep, rows);
    ExactFromList(p, PLAIN, scope, rows);
    ExactFromList(Numbered(p), PLAIN, scope, RenamedRows(rows, h));
    FilterRenamed(rows, scope, h);
  }

  lemma CountNumbered(p: Tables, scope: Scope)
    requires Linked(p)
    ensures CountEmbeddings(Numbered(p), scope) == CountEmbeddings(p, scope)
  {
    JoinedNumbered(p, ScopeKeep(scope), ScopeKeep(scope));
  }

  // ----- candidates -----

  function MessagePlacer(ms: seq<MessageRow>): MessageRow -> MessageRow {
    (m: MessageRow) => m.(id := Place(ms, m.id))
  }

  function HitPlacer(ms: seq<MessageRow>): Hit -> Hit {
    (h: Hit) => h.(id := Place(ms, h.id))
  }

  lemma MessagesNumbered(ms: seq<MessageRow>)
    requires OrderedMessages(ms)
    ensures Image(ms, NumberedMessages(ms), MessagePlacer(ms))
  {
    forall i | 0 <= i < |ms|
      ensures NumberedMessages(ms)[i] == MessagePlacer(ms)(ms[i])
    {
      PlaceAt(ms, i);
    }
  }

  lemma TermNumbered(p: Tables, id: nat, t: Token)
    requires TermsOwned(p)
    ensures MessageExists(p.messages, id) ==> ((Place(p.messages, id), t) in NumberedTerms(p.messages, p.terms) <==> (id, t) in p.terms)
  {
    if (Place(p.messages, id), t) in NumberedTerms(p.messages, p.terms) && MessageExists(p.messages, id) {
      var q :| q in p.terms && (Place(p.messages, q.0), q.1) == (Place(p.messages, id), t);
      PlaceApart(p.messages, id, q.0);
    }
  }

  lemma OverlapNumbered(p: Tables, id: nat, query: seq<Token>)
    requires TermsOwned(p) && MessageExists(p.messages, id)
    ensures Overlap(Numbered(p).terms, Place(p.messages, id), query) == Overlap(p.terms, id, query)
  {
    forall t
      ensures (Place(p.messages, id), t) in Numbered(p).terms <==> (id, t) in p.terms
    {
      TermNumbered(p, id, t);
    }
    assert Hits(Numbered(p).terms, Place(p.messages, id), query) == Hits(p.terms, id, query);
  }

  lemma EmbeddedNumbered(p: Tables, id: nat)
    requires MessageExists(p.messages, id)
    ensures Embedded(Numbered(p), Place(p.messages, id)) <==> Embedded(p, id)
  {
    var t := Numbered(p);
    if Embedded(p, id) {
      var i :| 0 <= i < |p.embeddings| && p.embeddings[i].key == id;
      assert t.embeddings[i].key == Place(p.messages, id);
    }
    if Embedded(t, Place(p.messages, id)) {
      var i :| 0 <= i < |t.embeddings| && t.embeddings[i].key == Place(p.messages, id);
      PlaceApart(p.messages, id, p.embeddings[i].key);
    }
  }

  lemma HitsNumbered(p: Tables, scope: Scope, query: seq<Token>)
    requires Linked(p)
    ensures Image(Candidates(p, scope, query), Candidates(Numbered(p), scope, query), HitPlacer(p.messages))
    ensures forall h :: h in Candidates(p, scope, query) ==> MessageExists(p.messages, h.id)
  {
    var ms, t := p.messages, Numbered(p);
    var f := (m: MessageRow) => Eligible(p, scope, query, m);
    var g := (m: MessageRow) => Eligible(t, scope, query, m);
    MessagesNumbered(ms);
    forall i | 0 <= i < |ms|
      ensures f(ms[i]) == g(t.messages[i]) && MessageExists(ms, ms[i].id)
    {
      EmbeddedNumbered(p, ms[i].id);
      OverlapNumbered(p, ms[i].id, query);
    }
    FilterImage(ms, f, t.messages, g, MessagePlacer(ms));
    var a, b := Filter(ms, f), Filter(t.messages, g);
    forall i | 0 <= i < |a|
      ensures HitsOf(t, query, b)[i] == HitPlacer(ms)(HitsOf(p, query, a)[i]) && MessageExists(ms, a[i].id)
    {
      assert a[i] in a;
      OverlapNumbered(p, a[i].id, query);
    }
  }

  lemma HitsKeepOrder(p: Tables, hits: seq<Hit>)
    requires Linked(p) && forall h :: h in hits ==> MessageExists(p.messages, h.id)
    ensures Respects(hits, Precedes, Precedes, HitPlacer(p.messages))
  {
    forall x, y | x in hits && y in hits
      ensures Precedes(x, y) == Precedes(HitPlacer(p.messages)(x), HitPlacer(p.messages)(y))
    {
      PlaceOrder(p.messages, x.id, y.id);
      PlaceOrder(p.messages, y.id, x.id);
      if x.id != y.id {
        OrderedPlaces(p.messages, x.id, y.id);
      }
    }
  }

  lemma OrderedPlaces(ms: seq<MessageRow>, a: nat, b: nat)
    requires MessageExists(ms, a) && a != b
    ensures Place(ms, a) != Place(ms, b)
  {
    if Place(ms, a) == Place(ms, b) {
      PlaceApart(ms, a, b);
    }
  }

  /** The candidates are the same messages in the same order. */
  lemma SelectionNumbered(p: Tables, scope: Scope, query: seq<Token>, limit: int)
    requires Linked(p)
    ensures Image(SelectCandidates(p, scope, query, limit), SelectCandidates(Numbered(p), scope, query, limit), HitPlacer(p.messages))
  {
    HitsNumbered(p, scope, query);
    HitsKeepOrder(p, Candidates(p, scope, query));
    SortImage(Candidates(p, scope, query), Candidates(Numbered(p), scope, query), Precedes, Precedes, HitPlacer(p.messages));
  }

  // ----- queries -----

  function PlacedIds(ms: seq<MessageRow>, ids: seq<nat>): seq<nat> {
    ImageBy(PlacesIn(ms))(ids)
  }

  function PlacedPlan(ms: seq<MessageRow>, plan: Plan): Plan {
    plan.(ids := PlacedIds(ms, plan.ids))
  }

  lemma HitIdsNumbered(ms: seq<MessageRow>, hits: seq<Hit>, hits': seq<Hit>)
    requires Image(hits, hits', HitPlacer(ms))
    ensures HitIds(hits') == PlacedIds(ms, HitIds(hits))
  {
  }

  lemma PlanNumbered(lex: Lexicon, p: Tables, req: Request)
    requires Linked(p)
    ensures PlanQuery(lex, Numbered(p), PLAIN, req) == PlacedPlan(p.messages, PlanQuery(lex, p, PLAIN, req))
  {
    var terms := MapQuery(PLAIN, Tokenize(lex, req.text));
    CountNumbered(p, req.scope);
    SelectionNumbered(p, req.scope, terms, req.limit);
    HitIdsNumbered(p.messages, SelectCandidates(p, req.scope, terms, req.limit), SelectCandidates(Numbered(p), req.scope, terms, req.limit));
    assert PlacedIds(p.messages, []) == [];
  }

  lemma IdsKeptAlike(ms: seq<MessageRow>, ids: seq<nat>, scope: Scope)
    ensures KeepsAlike(ms, IdsKeep(ids, scope), IdsKeep(PlacedIds(ms, ids), scope))
  {
    forall id | MessageExists(ms, id)
      ensures id in ids <==> Place(ms, id) in PlacedIds(ms, ids)
    {
      if id in ids {
        var k :| 0 <= k < |ids| && ids[k] == id;
        assert PlacedIds(ms, ids)[k] == Place(ms, id);
      }
      if Place(ms, id) in PlacedIds(ms, ids) {
        var k :| 0 <= k < |ids| && PlacedIds(ms, ids)[k] == Place(ms, id);
        PlaceApart(ms, id, ids[k]);
      }
    }
  }

  lemma PlannedNumbered(p: Tables, req: Request, plan: Plan)
    requires Linked(p) && Protected(p, None)
    ensures PlannedRows(p, PLAIN, req, plan, TABLE_SCANS).Ok?
    ensures PlannedRows(Numbered(p), PLAIN, req, PlacedPlan(p.messages, plan), TABLE_SCANS)
         == Ok(RenamedRows(PlannedRows(p, PLAIN, req, plan, TABLE_SCANS).value, PlacesIn(p.messages)))
  {
    if plan.used == ExactScan {
      ExactNumbered(p, req.scope);
    } else {
      ListEmbeddingsRefines(p, None, IdsKeep(plan.ids, req.scope));
      IdsKeptAlike(p.messages, plan.ids, req.scope);
      ListNumbered(p, IdsKeep(plan.ids, req.scope), IdsKeep(PlacedIds(p.messages, plan.ids), req.scope),
                   ListEmbeddings(p, PLAIN, IdsKeep(plan.ids, req.scope), TABLE_ORDER).value);
    }
  }

  /** A query, its messages by their places. */
  function AskedOf(db: Tables, ctx: Option<Context>, req: Request): Asked {
    Asked(db, ctx, req, PlacesIn(db.messages))
  }

  /** A query of a numbered database. */
  function AskedNumbered(t: Tables, req: Request): Asked {
    Asked(t, None, req, SAME_NAMES)
  }

  lemma SourceFrom(lex: Lexicon, a: Asked, plan: Plan, rows: seq<QueryRow>)
    requires PlanOf(lex, a) == plan && PlannedRows(a.db, SessionOf(a.db, a.ctx), a.req, plan, TABLE_SCANS) == Ok(rows)
    ensures Source(lex, a) == if plan.fallback == UseExact then [] else rows
  {
  }

  /** A query of the numbered database ranks the rows of the query of the database, renamed. */
  lemma SourceNumbered(lex: Lexicon, p: Tables, req: Request)
    requires Linked(p) && Protected(p, None)
    ensures Source(lex, AskedNumbered(Numbered(p), req)) == RenamedRows(Source(lex, AskedOf(p, None, req)), PlacesIn(p.messages))
    ensures SamePlan(lex, AskedOf(p, None, req), AskedNumbered(Numbered(p), req))
  {
    var plan := PlanQuery(lex, p, PLAIN, req);
    PlanNumbered(lex, p, req);
    CountNumbered(p, req.scope);
    PlannedNumbered(p, req, plan);
    var rows := PlannedRows(p, PLAIN, req, plan, TABLE_SCANS).value;
    SourceFrom(lex, AskedOf(p, None, req), plan, rows);
    SourceFrom(lex, AskedNumbered(Numbered(p), req), PlacedPlan(p.messages, plan), RenamedRows(rows, PlacesIn(p.messages)));
    assert RenamedRows([], PlacesIn(p.messages)) == [];
  }

  // ----- listings -----

  lemma ListedAlike(ms: seq<MessageRow>, x: MessageRow, y: MessageRow)
    requires OrderedMessages(ms) && MessageExists(ms, x.id) && MessageExists(ms, y.id)
    ensures MessageOrder()(x, y) == MessageOrder()(MessagePlacer(ms)(x), MessagePlacer(ms)(y))
  {
    PlaceOrder(ms, x.id, y.id);
    PlaceOrder(ms, y.id, x.id);
  }

  lemma MembersExist(ms: seq<MessageRow>, kept: seq<MessageRow>)
    requires forall m :: m in kept ==> m in ms
    ensures forall m :: m in kept ==> MessageExists(ms, m.id)
  {
    forall m | m in kept
      ensures MessageExists(ms, m.id)
    {
      var i :| 0 <= i < |ms| && ms[i] == m;
    }
  }

  /** A listing of the numbered database is the listing of the database, renamed. */
  lemma ListingNumbered(ms: seq<MessageRow>, project: string)
    requires OrderedMessages(ms)
    ensures Image(ListMessages(ms, project), ListMessages(NumberedMessages(ms), project), MessagePlacer(ms))
  {
    var f, h := OfProject(project), MessagePlacer(ms);
    MessagesNumbered(ms);
    FilterImage(ms, f, NumberedMessages(ms), f, h);
    var kept := Filter(ms, f);
    MembersExist(ms, kept);
    forall x, y | x in kept && y in kept
      ensures MessageOrder()(x, y) == MessageOrder()(h(x), h(y))
    {
      ListedAlike(ms, x, y);
    }
    SortImage(kept, Filter(NumberedMessages(ms), f), MessageOrder(), MessageOrder(), h);
  }
}
