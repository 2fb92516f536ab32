/** Writes with a session that another store has made stale by enabling encryption or rotating the key, since a
    store resolves its session once and keeps it (storage.py, encryption.py). */
module StaleSessions {
  import opened Basics
  import opened Crypto
  import opened Tokenizer
  import opened Rows
  import opened Inserts
  import opened Fields
  import opened Lifecycle
  import opened Rotation
  import opened Runs
  import opened Limits

  /** A session was resolved on this database, if maybe some time ago. */
  predicate OfDatabase(db: Tables, s: Session) {
    s.ctx.Some? ==> s.ctx.value.dbIdentity == db.meta.dbIdentity
  }

  /** The session seals as the database does, and maps the words of the text as its index does. */
  predicate CurrentFor(lex: Lexicon, db: Tables, ctx: Option<Context>, s: Session, content: Text) {
    s.ctx == ctx && (ctx.None? || s.mode == db.meta.termsMode || Tokenize(lex, content) == [])
  }

  /** The text gets to its place sealed: by the session, or because it is itself an envelope made for that place. */
  predicate FitsAt(ctx: Option<Context>, s: Session, plain: Text, site: Site, row: nat) {
    ctx.None? || s.ctx == ctx || (s.ctx.None? && Sealed(ctx.value, plain, site, row))
  }

  lemma SealedExactly(c: Context, s: Session, plain: Text, site: Site, row: nat, nonces: Nonces)
    requires s.ctx.Some? ==> s.ctx.value.dbIdentity == c.dbIdentity
    ensures Sealed(c, SealText(s.ctx, plain, site, row, nonces), site, row) <==> FitsAt(Some(c), s, plain, site, row)
  {
  }

  // ----- embeddings, summaries, agent state -----

  lemma PutNeeds<K>(c: Context, s: Session, rows: seq<Row<K>>, i: nat, key: K, plain: Text, site: Site, nonces: Nonces)
    requires RowsSealed(c, rows, site) && i < |rows| && (s.ctx.Some? ==> s.ctx.value.dbIdentity == c.dbIdentity)
    ensures RowsSealed(c, PutRow(s, rows, i, key, plain, site, nonces), site) <==> FitsAt(Some(c), s, plain, site, rows[i].id)
  {
    SealedExactly(c, s, plain, site, rows[i].id, nonces);
    var rows' := PutRow(s, rows, i, key, plain, site, nonces);
    assert rows'[i].body == SealText(s.ctx, plain, site, rows[i].id, nonces) && rows'[i].id == rows[i].id;
  }

  lemma AddNeeds<K>(c: Context, s: Session, rows: seq<Row<K>>, key: K, plain: Text, site: Site, nonces: Nonces)
    requires RowsSealed(c, rows, site) && (s.ctx.Some? ==> s.ctx.value.dbIdentity == c.dbIdentity)
    ensures RowsSealed(c, AddRow(s, rows, key, plain, site, nonces), site) <==> FitsAt(Some(c), s, plain, site, NextRowId(rows))
  {
    SealedExactly(c, s, plain, site, NextRowId(rows), nonces);
    var rows' := AddRow(s, rows, key, plain, site, nonces);
    assert rows'[|rows|].body == SealText(s.ctx, plain, site, NextRowId(rows), nonces) && rows'[|rows|].id == NextRowId(rows);
    assert forall i :: 0 <= i < |rows| ==> rows'[i] == rows[i];
  }

  /** The row that an embedding of a message is written to. */
  function EmbeddingRowId(db: Tables, messageId: nat): nat {
    match FirstIndex(db.embeddings, (r: EmbeddingRow) => r.key == messageId)
    case Some(i) => db.embeddings[i].id
    case None => NextRowId(db.embeddings)
  }

  predicate BodiesSealed<K>(ctx: Option<Context>, rows: seq<Row<K>>, site: Site) {
    ctx.Some? ==> RowsSealed(ctx.value, rows, site)
  }

  lemma OtherEmbeddings(lex: Lexicon, db: Tables, ctx: Option<Context>, rows: seq<EmbeddingRow>)
    requires Consistent(lex, db, ctx) && OrderedRows(rows) && UniqueEmbeddings(rows) && EmbeddingsOwned(db.(embeddings := rows))
    ensures Consistent(lex, db.(embeddings := rows), ctx) <==> BodiesSealed(ctx, rows, EmbeddingJson)
  {
  }

  lemma OtherSummaries(lex: Lexicon, db: Tables, ctx: Option<Context>, rows: seq<SummaryRow>)
    requires Consistent(lex, db, ctx) && OrderedRows(rows)
    ensures Consistent(lex, db.(summaries := rows), ctx) <==> BodiesSealed(ctx, rows, SummaryText)
  {
  }

  lemma OtherAgents(lex: Lexicon, db: Tables, ctx: Option<Context>, rows: seq<AgentRow>)
    requires Consistent(lex, db, ctx) && OrderedRows(rows) && UniqueAgents(rows)
    ensures Consistent(lex, db.(agents := rows), ctx) <==> BodiesSealed(ctx, rows, AgentValue)
  {
  }

  lemma PutEmbedding(lex: Lexicon, db: Tables, ctx: Option<Context>, s: Session, i: nat, json: Text, nonces: Nonces, rows: seq<EmbeddingRow>)
    requires Consistent(lex, db, ctx) && OfDatabase(db, s) && i < |db.embeddings|
    requires rows == PutRow(s, db.embeddings, i, db.embeddings[i].key, json, EmbeddingJson, nonces)
    ensures Consistent(lex, db.(embeddings := rows), ctx) <==> FitsAt(ctx, s, json, EmbeddingJson, db.embeddings[i].id)
  {
    var key := db.embeddings[i].key;
    PutRowKeeps(s.ctx, s.mode, db.embeddings, i, key, json, EmbeddingJson, nonces);
    OtherEmbeddings(lex, db, ctx, rows);
    if ctx.Some? {
      PutNeeds(ctx.value, s, db.embeddings, i, key, json, EmbeddingJson, nonces);
    }
  }

  lemma AddEmbedding(lex: Lexicon, db: Tables, ctx: Option<Context>, s: Session, id: nat, json: Text, nonces: Nonces, rows: seq<EmbeddingRow>)
    requires Consistent(lex, db, ctx) && OfDatabase(db, s) && MessageExists(db.messages, id)
    requires forall i :: 0 <= i < |db.embeddings| ==> db.embeddings[i].key != id
    requires rows == AddRow(s, db.embeddings, id, json, EmbeddingJson, nonces)
    ensures Consistent(lex, db.(embeddings := rows), ctx) <==> FitsAt(ctx, s, json, EmbeddingJson, NextRowId(db.embeddings))
  {
    AddRowKeeps(s.ctx, s.mode, db.embeddings, id, json, EmbeddingJson, nonces);
    OtherEmbeddings(lex, db, ctx, rows);
    if ctx.Some? {
      AddNeeds(ctx.value, s, db.embeddings, id, json, EmbeddingJson, nonces);
    }
  }

  lemma EmbedNeeds(lex: Lexicon, db: Tables, ctx: Option<Context>, s: Session, id: nat, json: Text, nonces: Nonces)
    requires Consistent(lex, db, ctx) && OfDatabase(db, s) && MessageExists(db.messages, id)
    ensures var o := SaveEmbedding(db, s, id, json, nonces);
            o.Ok? && (Consistent(lex, o.value, ctx) <==> FitsAt(ctx, s, json, EmbeddingJson, EmbeddingRowId(db, id)))
  {
    match FirstIndex(db.embeddings, (r: EmbeddingRow) => r.key == id) {
      case Some(i) => PutEmbedding(lex, db, ctx, s, i, json, nonces, PutRow(s, db.embeddings, i, id, json, EmbeddingJson, nonces));
      case None => AddEmbedding(lex, db, ctx, s, id, json, nonces, AddRow(s, db.embeddings, id, json, EmbeddingJson, nonces));
    }
  }

  /** The summary fits into every row it is written to. */
  predicate SummaryFits(db: Tables, ctx: Option<Context>, s: Session, rec: Summary) {
    if exists i :: 0 <= i < |db.summaries| && SummaryFor(db.summaries[i], rec) then
      forall i :: 0 <= i < |db.summaries| && SummaryFor(db.summaries[i], rec) ==> FitsAt(ctx, s, rec.text, SummaryText, db.summaries[i].id)
    else FitsAt(ctx, s, rec.text, SummaryText, NextRowId(db.summaries))
  }

  lemma UpdatedNeeds(c: Context, s: Session, r: SummaryRow, rec: Summary, nonces: Nonces)
    requires Sealed(c, r.body, SummaryText, r.id) && (s.ctx.Some? ==> s.ctx.value.dbIdentity == c.dbIdentity)
    ensures var r' := UpdatedSummary(s, r, rec, nonces);
            r'.id == r.id && (Sealed(c, r'.body, SummaryText, r'.id) <==> !SummaryFor(r, rec) || FitsAt(Some(c), s, rec.text, SummaryText, r.id))
  {
    SealedExactly(c, s, rec.text, SummaryText, r.id, nonces);
  }

  lemma UpdatesNeed(db: Tables, ctx: Option<Context>, s: Session, rec: Summary, nonces: Nonces, rows': seq<SummaryRow>)
    requires BodiesSealed(ctx, db.summaries, SummaryText) && OrderedRows(db.summaries)
    requires ctx.Some? && s.ctx.Some? ==> s.ctx.value.dbIdentity == ctx.value.dbIdentity
    requires |rows'| == |db.summaries| && forall i :: 0 <= i < |rows'| ==> rows'[i] == UpdatedSummary(s, db.summaries[i], rec, nonces)
    requires exists i :: 0 <= i < |db.summaries| && SummaryFor(db.summaries[i], rec)
    ensures OrderedRows(rows') && (BodiesSealed(ctx, rows', SummaryText) <==> SummaryFits(db, ctx, s, rec))
  {
    if ctx.Some? {
      forall i | 0 <= i < |rows'|
        ensures Sealed(ctx.value, rows'[i].body, SummaryText, rows'[i].id)
           <==> !SummaryFor(db.summaries[i], rec) || FitsAt(ctx, s, rec.text, SummaryText, db.summaries[i].id)
      {
        UpdatedNeeds(ctx.value, s, db.summaries[i], rec, nonces);
      }
    }
  }

  lemma SummaryNeeds(lex: Lexicon, db: Tables, ctx: Option<Context>, s: Session, rec: Summary, nonces: Nonces)
    requires Consistent(lex, db, ctx) && OfDatabase(db, s)
    ensures Consistent(lex, UpsertSummary(db, s, rec, nonces).0, ctx) <==> SummaryFits(db, ctx, s, rec)
  {
    var rows, rows' := db.summaries, UpsertSummary(db, s, rec, nonces).0.summaries;
    if exists i :: 0 <= i < |rows| && SummaryFor(rows[i], rec) {
      UpdatesNeed(db, ctx, s, rec, nonces, rows');
    } else {
      var key := SummaryKey(rec.project, rec.conversation, rec.technique, rec.createdAt);
      AddRowKeeps(s.ctx, s.mode, rows, key, rec.text, SummaryText, nonces);
      if ctx.Some? {
        AddNeeds(ctx.value, s, rows, key, rec.text, SummaryText, nonces);
      }
    }
    OtherSummaries(lex, db, ctx, rows');
  }

  /** The row that a slot of agent state is written to. */
  function AgentRowId(db: Tables, slot: AgentKey): nat {
    match FirstIndex(db.agents, (r: AgentRow) => SameSlot(r.key, slot))
    case Some(i) => db.agents[i].id
    case None => NextRowId(db.agents)
  }

  lemma AgentNeeds(lex: Lexicon, db: Tables, ctx: Option<Context>, s: Session, slot: AgentKey, value: Text, nonces: Nonces)
    requires Consistent(lex, db, ctx) && OfDatabase(db, s)
    ensures Consistent(lex, SetAgentState(db, s, slot, value, nonces), ctx) <==> FitsAt(ctx, s, value, AgentValue, AgentRowId(db, slot))
  {
    match FirstIndex(db.agents, (r: AgentRow) => SameSlot(r.key, slot)) {
      case Some(i) =>
        var key := db.agents[i].key.(updatedAt := slot.updatedAt);
        PutRowKeeps(s.ctx, s.mode, db.agents, i, key, value, AgentValue, nonces);
        OtherAgents(lex, db, ctx, PutRow(s, db.agents, i, key, value, AgentValue, nonces));
        if ctx.Some? {
          PutNeeds(ctx.value, s, db.agents, i, key, value, AgentValue, nonces);
        }
      case None =>
        AddRowKeeps(s.ctx, s.mode, db.agents, slot, value, AgentValue, nonces);
        OtherAgents(lex, db, ctx, AddRow(s, db.agents, slot, value, AgentValue, nonces));
        if ctx.Some? {
          AddNeeds(ctx.value, s, db.agents, slot, value, AgentValue, nonces);
        }
    }
  }

  // ----- messages -----

  /** What no later insert repairs: a message that is not sealed as the database is, or a term of the other kind. */
  ghost predicate Spoiled(db: Tables, ctx: Option<Context>) {
    || (exists k :: 0 <= k < |db.messages| && !SealedAs(ctx, db.messages[k]))
    || (exists p :: p in db.terms && KindOf(p.1) != KindFor(ctx, db.meta.termsMode))
  }

  predicate SealedAs(ctx: Option<Context>, m: MessageRow) {
    if ctx.Some? then MessageSealed(ctx.value, m) else m.fingerprint == None
  }

  predicate KindOf(t: Token) {
    t.Keyed?
  }

  /** Terms are keyed with a key and in keyed mode. */
  predicate KindFor(ctx: Option<Context>, mode: TermsMode) {
    ctx.Some? && mode == KeyedTerms
  }

  lemma SpoiledIsNotConsistent(lex: Lexicon, db: Tables, ctx: Option<Context>)
    requires Spoiled(db, ctx)
    ensures !Consistent(lex, db, ctx)
  {
    if Consistent(lex, db, ctx) && exists p :: p in db.terms && KindOf(p.1) != KindFor(ctx, db.meta.termsMode) {
      var p :| p in db.terms && KindOf(p.1) != KindFor(ctx, db.meta.termsMode);
      InIndex(lex, SessionOf(db, ctx), db.messages, p.0, p.1);
    }
  }

  /** Every term belongs to a message that is there. */
  predicate TermsBelong(db: Tables) {
    forall p :: p in db.terms ==> p.0 <= MaxMessageId(db.messages)
  }

  lemma AppendSpoils(lex: Lexicon, db: Tables, ctx: Option<Context>, s: Session, r: Record, nonces: Nonces)
    requires Spoiled(db, ctx) && TermsBelong(db)
    ensures Spoiled(Append(lex, db, s, r, nonces), ctx)
  {
    var db' := Append(lex, db, s, r, nonces);
    if k :| 0 <= k < |db.messages| && !SealedAs(ctx, db.messages[k]) {
      assert db'.messages[k] == db.messages[k];
    } else {
      var p :| p in db.terms && KindOf(p.1) != KindFor(ctx, db.meta.termsMode);
      NextIsNew(db, s);
      assert p in db'.terms;
    }
  }

  lemma NextIsNew(db: Tables, s: Session)
    ensures NextId(db, s) > MaxMessageId(db.messages)
  {
  }

  lemma AppendBelongs(lex: Lexicon, db: Tables, s: Session, r: Record, nonces: Nonces)
    requires TermsBelong(db)
    ensures TermsBelong(Append(lex, db, s, r, nonces))
  {
    var m := StoredMessage(s, NextId(db, s), r, nonces);
    assert (db.messages + [m])[..|db.messages|] == db.messages;
    NextIsNew(db, s);
  }

  /** A message is protected exactly when the session it is written with holds the very context of the database:
      neither a session cached before encryption was enabled, nor one cached before a rotation, nor a key that
      merely shares the identifier will do. */
  lemma AppendNeedsContext(lex: Lexicon, db: Tables, ctx: Option<Context>, s: Session, r: Record, nonces: Nonces)
    requires Protected(db, ctx) && OfDatabase(db, s)
    ensures Protected(Append(lex, db, s, r, nonces), ctx) <==> s.ctx == ctx
    ensures s.ctx != ctx ==> Spoiled(Append(lex, db, s, r, nonces), ctx)
  {
    var id := NextId(db, s);
    var db' := Append(lex, db, s, r, nonces);
    var row := db'.messages[|db.messages|];
    OpenSealed(s.ctx, r.content, MessageContent, id, nonces);
    OpenSealed(s.ctx, r.metadata, MessageMetadata, id, nonces);
    if s.ctx == ctx {
      assert forall i :: 0 <= i < |db.messages| ==> db'.messages[i] == db.messages[i];
    } else {
      assert !SealedAs(ctx, row);
    }
  }

  lemma AppendSame(lex: Lexicon, db: Tables, ctx: Option<Context>, s: Session, r: Record, nonces: Nonces)
    requires CurrentFor(lex, db, ctx, s, r.content)
    ensures Append(lex, db, s, r, nonces) == Append(lex, db, SessionOf(db, ctx), r, nonces)
  {
    assert TermRows(lex, s, NextId(db, s), r.content) == TermRows(lex, SessionOf(db, ctx), NextId(db, s), r.content);
  }

  /** A stored message leaves the database consistent exactly when the session is current for it. */
  lemma AppendNeeds(lex: Lexicon, db: Tables, ctx: Option<Context>, s: Session, r: Record, nonces: Nonces)
    requires Consistent(lex, db, ctx) && OfDatabase(db, s) && !ClashesWith(db.messages, StoredMessage(s, NextId(db, s), r, nonces))
    ensures CurrentFor(lex, db, ctx, s, r.content) ==> Consistent(lex, Append(lex, db, s, r, nonces), ctx)
    ensures !CurrentFor(lex, db, ctx, s, r.content) ==> Spoiled(Append(lex, db, s, r, nonces), ctx)
  {
    if CurrentFor(lex, db, ctx, s, r.content) {
      AppendSame(lex, db, ctx, s, r, nonces);
      AppendKeepsConstraints(lex, db, s, r, nonces);
      AppendKeepsProtected(lex, db, ctx, r, nonces);
      AppendKeepsIndexed(lex, db, ctx, r, nonces);
    } else if s.ctx != ctx {
      AppendNeedsContext(lex, db, ctx, s, r, nonces);
    } else {
      var w := Tokenize(lex, r.content)[0];
      assert (NextId(db, s), MapTerm(s, w)) in TermRows(lex, s, NextId(db, s), r.content);
      assert (NextId(db, s), MapTerm(s, w)) in Append(lex, db, s, r, nonces).terms;
    }
  }

  lemma ConsistentBelongs(lex: Lexicon, db: Tables, ctx: Option<Context>)
    requires Consistent(lex, db, ctx)
    ensures TermsBelong(db)
  {
    forall p | p in db.terms
      ensures p.0 <= MaxMessageId(db.messages)
    {
      IndexIds(lex, SessionOf(db, ctx), db.messages, p);
    }
  }

  /** Every record that the batch stores is one that the session is current for. */
  predicate BatchFits(lex: Lexicon, db: Tables, ctx: Option<Context>, s: Session, rs: seq<Record>, nonces: Nonces) {
    rs == [] ||
    (&& BatchFits(lex, db, ctx, s, rs[..|rs| - 1], nonces)
     && (Skips(InsertBatch(lex, db, s, rs[..|rs| - 1], nonces), s, rs[|rs| - 1], nonces) || CurrentFor(lex, db, ctx, s, rs[|rs| - 1].content)))
  }

  /** A database on the way through a batch: in order, or spoiled for good. */
  ghost predicate Either(lex: Lexicon, db: Tables, ctx: Option<Context>, fits: bool) {
    TermsBelong(db) && if fits then Consistent(lex, db, ctx) else Spoiled(db, ctx)
  }

  lemma TouchedEither(lex: Lexicon, db: Tables, ctx: Option<Context>, fits: bool, sequence: nat)
    requires Either(lex, db, ctx, fits)
    ensures Either(lex, db.(sequence := sequence), ctx, fits)
  {
    if fits {
      CounterIsFree(lex, db, ctx, sequence);
    }
  }

  lemma RecordNeeds(lex: Lexicon, db: Tables, ctx: Option<Context>, s: Session, r: Record, nonces: Nonces, fits: bool)
    requires Either(lex, db, ctx, fits) && OfDatabase(db, s)
    ensures Either(lex, InsertRecord(lex, db, s, r, nonces), ctx, fits && (Skips(db, s, r, nonces) || CurrentFor(lex, db, ctx, s, r.content)))
  {
    if Skips(db, s, r, nonces) {
      TouchedEither(lex, db, ctx, fits, Larger(db.sequence, NextId(db, s)));
    } else {
      AppendBelongs(lex, db, s, r, nonces);
      if fits {
        AppendNeeds(lex, db, ctx, s, r, nonces);
      } else {
        AppendSpoils(lex, db, ctx, s, r, nonces);
      }
    }
  }

  lemma {:induction false} BatchNeeds(lex: Lexicon, db: Tables, ctx: Option<Context>, s: Session, rs: seq<Record>, nonces: Nonces)
    requires Consistent(lex, db, ctx) && OfDatabase(db, s)
    ensures var db' := InsertBatch(lex, db, s, rs, nonces);
            Either(lex, db', ctx, BatchFits(lex, db, ctx, s, rs, nonces)) && db'.meta == db.meta
  {
    if rs == [] {
      ConsistentBelongs(lex, db, ctx);
    } else {
      var front := rs[..|rs| - 1];
      BatchNeeds(lex, db, ctx, s, front, nonces);
      RecordNeeds(lex, InsertBatch(lex, db, s, front, nonces), ctx, s, rs[|rs| - 1], nonces, BatchFits(lex, db, ctx, s, front, nonces));
    }
  }

  /** The facade stores a new message. */
  predicate FacadeStores(lex: Lexicon, db: Tables, s: Session, r: Record, embedding: Text, nonces: Nonces) {
    var o := StoreFacade(lex, db, s, r, embedding, nonces); o.Ok? && o.value.1.Inserted?
  }

  lemma SavedStaysSpoiled(db: Tables, ctx: Option<Context>, s: Session, id: nat, json: Text, nonces: Nonces)
    requires Spoiled(db, ctx) && SaveEmbedding(db, s, id, json, nonces).Ok?
    ensures Spoiled(SaveEmbedding(db, s, id, json, nonces).value, ctx)
  {
  }

  lemma FacadeNeeds(lex: Lexicon, db: Tables, ctx: Option<Context>, s: Session, r: Record, embedding: Text, nonces: Nonces)
    requires Consistent(lex, db, ctx) && OfDatabase(db, s) && FacadeStores(lex, db, s, r, embedding, nonces)
    ensures Consistent(lex, StoreFacade(lex, db, s, r, embedding, nonces).value.0, ctx) <==> CurrentFor(lex, db, ctx, s, r.content)
  {
    var id := NextId(db, s);
    var mid := Append(lex, db, s, r, nonces);
    AppendNeeds(lex, db, ctx, s, r, nonces);
    if CurrentFor(lex, db, ctx, s, r.content) {
      assert mid.messages[|db.messages|].id == id;
      EmbedNeeds(lex, mid, ctx, s, id, embedding, nonces);
    } else {
      SavedStaysSpoiled(mid, ctx, s, id, embedding, nonces);
      SpoiledIsNotConsistent(lex, StoreFacade(lex, db, s, r, embedding, nonces).value.0, ctx);
    }
  }

  // ----- every write -----

  /** What a session needs for a write: to be current for every message stored, and to get every other text sealed
      to its place. */
  predicate SessionFits(lex: Lexicon, db: Tables, ctx: Option<Context>, s: Session, w: Write, nonces: Nonces) {
    match w
    case InsertMessages(rs) => BatchFits(lex, db, ctx, s, rs, nonces)
    case Facade(r, e) => FacadeStores(lex, db, s, r, e, nonces) ==> CurrentFor(lex, db, ctx, s, r.content)
    case Embed(id, json) => MessageExists(db.messages, id) ==> FitsAt(ctx, s, json, EmbeddingJson, EmbeddingRowId(db, id))
    case Summarise(rec) => SummaryFits(db, ctx, s, rec)
    case Remember(slot, value) => FitsAt(ctx, s, value, AgentValue, AgentRowId(db, slot))
  }

  lemma NoMessageNoEmbedding(db: Tables, s: Session, id: nat, json: Text, nonces: Nonces)
    requires EmbeddingsOwned(db) && !MessageExists(db.messages, id)
    ensures SaveEmbedding(db, s, id, json, nonces).Err?
  {
  }

  /** A write leaves a consistent database consistent exactly when its session fits. */
  lemma WriteNeedsCurrentSession(lex: Lexicon, db: Tables, ctx: Option<Context>, s: Session, w: Write, nonces: Nonces)
    requires Consistent(lex, db, ctx) && OfDatabase(db, s)
    ensures Consistent(lex, ApplyWrite(lex, db, s, w, nonces), ctx) <==> SessionFits(lex, db, ctx, s, w, nonces)
  {
    match w {
      case InsertMessages(rs) =>
        BatchNeeds(lex, db, ctx, s, rs, nonces);
        if !BatchFits(lex, db, ctx, s, rs, nonces) {
          SpoiledIsNotConsistent(lex, InsertBatch(lex, db, s, rs, nonces), ctx);
        }
      case Facade(r, e) =>
        if FacadeStores(lex, db, s, r, e, nonces) {
          FacadeNeeds(lex, db, ctx, s, r, e, nonces);
        }
      case Embed(id, json) =>
        if MessageExists(db.messages, id) {
          EmbedNeeds(lex, db, ctx, s, id, json, nonces);
        } else {
          NoMessageNoEmbedding(db, s, id, json, nonces);
        }
      case Summarise(rec) => SummaryNeeds(lex, db, ctx, s, rec, nonces);
      case Remember(slot, value) => AgentNeeds(lex, db, ctx, s, slot, value, nonces);
    }
  }

  // ----- two stale runs -----

  /** A session resolved before another store enables encryption: the next message it inserts stands in the
      encrypted database in the clear. */
  lemma StaleWriteIsInTheClear(lex: Lexicon, c: Context, mode: TermsMode, r: Record, nonces: Nonces)
    requires UsableKey(c.master, c.dbIdentity) && '|' !in c.dbIdentity
    ensures var db0 := EmptyPlain(c.dbIdentity);
            var s, db1 := Resolve(db0.meta, Some(c.master)), Enable(lex, db0, c.master, mode, nonces);
            && s.Ok? && db1.Ok? && Consistent(lex, db1.value, Some(c))
            && (var db2 := ApplyWrite(lex, db1.value, s.value, InsertMessages([r]), nonces);
                !Consistent(lex, db2, Some(c)) && |db2.messages| == 1 && db2.messages[0].content == r.content)
  {
    var db0 := EmptyPlain(c.dbIdentity);
    EmptyPlainIsConsistent(lex, c.dbIdentity);
    EnableCorrect(lex, db0, None, c.master, mode, nonces);
    var db1, s := Enable(lex, db0, c.master, mode, nonces).value, Session(None, PlainTerms);
    assert |db1.messages| == |Plain(db1, Some(c)).messages| == 0;
    OneInserted(lex, db1, s, r, nonces);
    WriteNeedsCurrentSession(lex, db1, Some(c), s, InsertMessages([r]), nonces);
  }

  lemma OneInserted(lex: Lexicon, db: Tables, s: Session, r: Record, nonces: Nonces)
    requires db.messages == []
    ensures !Skips(InsertBatch(lex, db, s, [r][..0], nonces), s, r, nonces)
    ensures InsertBatch(lex, db, s, [r], nonces) == Append(lex, db, s, r, nonces)
  {
    assert [r][..0] == [];
  }

  /** A session resolved before another store rotates the key: the next message it inserts is sealed under the old
      key and cannot be read. */
  lemma StaleKeyIsUnreadable(lex: Lexicon, c: Context, newKey: MasterKey, r: Record, nonces: Nonces)
    requires UsableKey(c.master, c.dbIdentity) && UsableKey(newKey, c.dbIdentity) && '|' !in c.dbIdentity && newKey != c.master
    ensures var db0, c' := EmptySealed(c), Context(newKey, c.dbIdentity);
            var s, db1 := Resolve(db0.meta, Some(c.master)), Rotate(lex, db0, c.master, newKey, nonces);
            && s.Ok? && db1.Ok? && Consistent(lex, db1.value, Some(c'))
            && (var db2 := ApplyWrite(lex, db1.value, s.value, InsertMessages([r]), nonces);
                && !Consistent(lex, db2, Some(c')) && |db2.messages| == 1
                && ReadText(Some(c'), db2.messages[0].content, MessageContent, db2.messages[0].id).Err?)
  {
    var db0, c' := EmptySealed(c), Context(newKey, c.dbIdentity);
    EmptySealedIsConsistent(lex, c);
    RotateCorrect(lex, db0, Some(c), c.master, newKey, nonces);
    var db1, s := Rotate(lex, db0, c.master, newKey, nonces).value, Session(Some(c), KeyedTerms);
    assert |db1.messages| == |Plain(db1, Some(c')).messages| == 0;
    OneInserted(lex, db1, s, r, nonces);
    WriteNeedsCurrentSession(lex, db1, Some(c'), s, InsertMessages([r]), nonces);
  }
}
