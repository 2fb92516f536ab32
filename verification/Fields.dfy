/** The other writes of MemoryStore as functions of the tables: embeddings, summaries, agent
    state, exact-content lookup and the facade store (storage.py). */
module Fields {
  import opened Basics
  import opened Crypto
  import opened Tokenizer
  import opened Rows
  import opened Inserts

  datatype Failure = CryptoFailure(error: CryptoError) | Integrity | WrongState | Interrupted

  function MaxRowId<K>(rows: seq<Row<K>>): (m: nat)
    ensures forall i :: 0 <= i < |rows| ==> rows[i].id <= m
  {
    if rows == [] then 0 else
      var m := MaxRowId(rows[..|rows| - 1]);
      if rows[|rows| - 1].id > m then rows[|rows| - 1].id else m
  }

  function NextRowId<K>(rows: seq<Row<K>>): nat {
    MaxRowId(rows) + 1
  }

  function AddRow<K>(s: Session, rows: seq<Row<K>>, key: K, plain: Text, site: Site, nonces: Nonces): seq<Row<K>> {
    rows + [Row(NextRowId(rows), key, SealText(s.ctx, plain, site, NextRowId(rows), nonces))]
  }

  function PutRow<K>(s: Session, rows: seq<Row<K>>, i: nat, key: K, plain: Text, site: Site, nonces: Nonces): seq<Row<K>>
    requires i < |rows|
  {
    rows[i := Row(rows[i].id, key, SealText(s.ctx, plain, site, rows[i].id, nonces))]
  }

  function SaveEmbedding(db: Tables, s: Session, messageId: nat, json: Text, nonces: Nonces): Result<Tables, Failure> {
    match FirstIndex(db.embeddings, (r: EmbeddingRow) => r.key == messageId)
    case Some(i) => Ok(db.(embeddings := PutRow(s, db.embeddings, i, messageId, json, EmbeddingJson, nonces)))
    case None =>
      if MessageExists(db.messages, messageId)
      then Ok(db.(embeddings := AddRow(s, db.embeddings, messageId, json, EmbeddingJson, nonces)))
      else Err(Integrity)
  }

  datatype Summary = Summary(project: string, conversation: string, text: Text, technique: string, createdAt: string)

  predicate SummaryFor(r: SummaryRow, rec: Summary) {
    r.key.project == rec.project && r.key.conversation == rec.conversation
  }

  function UpdatedSummary(s: Session, r: SummaryRow, rec: Summary, nonces: Nonces): SummaryRow {
    if SummaryFor(r, rec)
    then Row(r.id, r.key.(technique := rec.technique, createdAt := rec.createdAt),
             SealText(s.ctx, rec.text, SummaryText, r.id, nonces))
    else r
  }

  /** Inserts, or updates every row of the conversation; the flag says whether it inserted. */
  function UpsertSummary(db: Tables, s: Session, rec: Summary, nonces: Nonces): (Tables, bool) {
    if exists i :: 0 <= i < |db.summaries| && SummaryFor(db.summaries[i], rec) then
      (db.(summaries := seq(|db.summaries|, i requires 0 <= i < |db.summaries| =>
                              UpdatedSummary(s, db.summaries[i], rec, nonces))), false)
    else
      var key := SummaryKey(rec.project, rec.conversation, rec.technique, rec.createdAt);
      (db.(summaries := AddRow(s, db.summaries, key, rec.text, SummaryText, nonces)), true)
  }

  function SetAgentState(db: Tables, s: Session, key: AgentKey, value: Text, nonces: Nonces): Tables {
    match FirstIndex(db.agents, (r: AgentRow) => SameSlot(r.key, key))
    case Some(i) =>
      var k := db.agents[i].key.(updatedAt := key.updatedAt);
      db.(agents := PutRow(s, db.agents, i, k, value, AgentValue, nonces))
    case None => db.(agents := AddRow(s, db.agents, key, value, AgentValue, nonces))
  }

  function GetAgentState(db: Tables, s: Session, key: AgentKey): Result<Option<Text>, CryptoError> {
    match FirstIndex(db.agents, (r: AgentRow) => SameSlot(r.key, key))
    case None => Ok(None)
    case Some(i) =>
      match ReadText(s.ctx, db.agents[i].body, AgentValue, db.agents[i].id)
      case Ok(t) => Ok(Some(t))
      case Err(e) => Err(e)
  }

  /** The lookup condition: by fingerprint when a key is at hand, else by stored content. */
  predicate Matches(s: Session, m: MessageRow, ns: Namespace, content: Text) {
    && m.ns == ns
    && (if s.ctx.Some? then m.fingerprint == Some(Fingerprint(s.ctx.value, ns, content)) else m.content == content)
  }

  function FindExact(db: Tables, s: Session, ns: Namespace, content: Text): Option<nat> {
    match FirstIndex(db.messages, (m: MessageRow) => Matches(s, m, ns, content))
    case None => None
    case Some(i) => Some(db.messages[i].id)
  }

  datatype Stored = Inserted(id: nat) | Duplicate(id: nat)

  /** One facade store under a given new id: look up, insert the message, its embedding and its terms. */
  function StoreFacadeAs(lex: Lexicon, db: Tables, s: Session, r: Record, embedding: Text, nonces: Nonces, id: nat)
    : Result<(Tables, Stored), Failure>
  {
    match FindExact(db, s, r.ns, r.content)
    case Some(d) => Ok((db, Duplicate(d)))
    case None =>
      if ClashesWith(db.messages, StoredMessage(s, id, r, nonces)) then Err(Integrity)
      else match SaveEmbedding(AppendAs(lex, db, s, r, nonces, id), s, id, embedding, nonces)
        case Err(e) => Err(e)
        case Ok(db') => Ok((db', Inserted(id)))
  }

  function StoreFacade(lex: Lexicon, db: Tables, s: Session, r: Record, embedding: Text, nonces: Nonces)
    : Result<(Tables, Stored), Failure>
  {
    StoreFacadeAs(lex, db, s, r, embedding, nonces, NextId(db, s))
  }

  // ----- generic facts about rows -----

  lemma AddRowKeeps<K>(ctx: Option<Context>, mode: TermsMode, rows: seq<Row<K>>, key: K, plain: Text, site: Site, nonces: Nonces)
    requires OrderedRows(rows)
    ensures var rows' := AddRow(Session(ctx, mode), rows, key, plain, site, nonces);
            OrderedRows(rows') && (ctx.Some? && RowsSealed(ctx.value, rows, site) ==> RowsSealed(ctx.value, rows', site))
  {
    OpenSealed(ctx, plain, site, NextRowId(rows), nonces);
  }

  lemma PutRowKeeps<K>(ctx: Option<Context>, mode: TermsMode, rows: seq<Row<K>>, i: nat, key: K, plain: Text, site: Site, nonces: Nonces)
    requires OrderedRows(rows) && i < |rows|
    ensures var rows' := PutRow(Session(ctx, mode), rows, i, key, plain, site, nonces);
            OrderedRows(rows') && (ctx.Some? && RowsSealed(ctx.value, rows, site) ==> RowsSealed(ctx.value, rows', site))
  {
    OpenSealed(ctx, plain, site, rows[i].id, nonces);
  }

  lemma {:induction false} OpenKeepsMaxRowId<K>(ctx: Option<Context>, rows: seq<Row<K>>, site: Site)
    ensures MaxRowId(OpenRows(ctx, rows, site)) == MaxRowId(rows)
  {
    if rows != [] {
      assert OpenRows(ctx, rows, site)[..|rows| - 1] == OpenRows(ctx, rows[..|rows| - 1], site);
      OpenKeepsMaxRowId(ctx, rows[..|rows| - 1], site);
    }
  }

  lemma OpenAddRow<K>(ctx: Option<Context>, mode: TermsMode, rows: seq<Row<K>>, key: K, plain: Text, site: Site, nonces: Nonces)
    ensures OpenRows(ctx, AddRow(Session(ctx, mode), rows, key, plain, site, nonces), site)
         == AddRow(Session(None, PlainTerms), OpenRows(ctx, rows, site), key, plain, site, nonces)
  {
    OpenKeepsMaxRowId(ctx, rows, site);
    OpenSealed(ctx, plain, site, NextRowId(rows), nonces);
  }

  lemma OpenPutRow<K>(ctx: Option<Context>, mode: TermsMode, rows: seq<Row<K>>, i: nat, key: K, plain: Text, site: Site, nonces: Nonces)
    requires i < |rows|
    ensures OpenRows(ctx, PutRow(Session(ctx, mode), rows, i, key, plain, site, nonces), site)
         == PutRow(Session(None, PlainTerms), OpenRows(ctx, rows, site), i, key, plain, site, nonces)
  {
  }

  // ----- every write keeps the invariant -----

  lemma SaveEmbeddingKeeps(lex: Lexicon, db: Tables, ctx: Option<Context>, id: nat, json: Text, nonces: Nonces)
    requires Consistent(lex, db, ctx)
    ensures var r := SaveEmbedding(db, SessionOf(db, ctx), id, json, nonces);
            (r.Ok? <==> MessageExists(db.messages, id)) && (r.Ok? ==> Consistent(lex, r.value, ctx))
  {
    var mode := db.meta.termsMode;
    match FirstIndex(db.embeddings, (r: EmbeddingRow) => r.key == id)
    case Some(i) => PutRowKeeps(ctx, mode, db.embeddings, i, id, json, EmbeddingJson, nonces);
    case None => AddRowKeeps(ctx, mode, db.embeddings, id, json, EmbeddingJson, nonces);
  }

  lemma UpsertSummaryKeeps(lex: Lexicon, db: Tables, ctx: Option<Context>, rec: Summary, nonces: Nonces)
    requires Consistent(lex, db, ctx)
    ensures Consistent(lex, UpsertSummary(db, SessionOf(db, ctx), rec, nonces).0, ctx)
  {
    var s := SessionOf(db, ctx);
    var rows' := UpsertSummary(db, s, rec, nonces).0.summaries;
    if exists i :: 0 <= i < |db.summaries| && SummaryFor(db.summaries[i], rec) {
      forall i | 0 <= i < |rows'|
        ensures rows'[i].id == db.summaries[i].id
        ensures ctx.Some? ==> Sealed(ctx.value, rows'[i].body, SummaryText, rows'[i].id)
      {
        OpenSealed(ctx, rec.text, SummaryText, db.summaries[i].id, nonces);
      }
    } else {
      AddRowKeeps(ctx, s.mode, db.summaries, SummaryKey(rec.project, rec.conversation, rec.technique, rec.createdAt),
                  rec.text, SummaryText, nonces);
    }
  }

  lemma SetAgentStateKeeps(lex: Lexicon, db: Tables, ctx: Option<Context>, key: AgentKey, value: Text, nonces: Nonces)
    requires Consistent(lex, db, ctx)
    ensures Consistent(lex, SetAgentState(db, SessionOf(db, ctx), key, value, nonces), ctx)
  {
    var mode := db.meta.termsMode;
    match FirstIndex(db.agents, (r: AgentRow) => SameSlot(r.key, key))
    case Some(i) =>
      PutRowKeeps(ctx, mode, db.agents, i, db.agents[i].key.(updatedAt := key.updatedAt), value, AgentValue, nonces);
    case None => AddRowKeeps(ctx, mode, db.agents, key, value, AgentValue, nonces);
  }

  lemma StoreFacadeKeeps(lex: Lexicon, db: Tables, ctx: Option<Context>, r: Record, embedding: Text, nonces: Nonces)
    requires Consistent(lex, db, ctx)
    ensures var o := StoreFacade(lex, db, SessionOf(db, ctx), r, embedding, nonces);
            o.Ok? ==> Consistent(lex, o.value.0, ctx)
  {
    var s := SessionOf(db, ctx);
    var id := NextId(db, s);
    if FindExact(db, s, r.ns, r.content).None? && !ClashesWith(db.messages, StoredMessage(s, id, r, nonces)) {
      AppendKeepsConstraints(lex, db, s, r, nonces);
      AppendKeepsProtected(lex, db, ctx, r, nonces);
      AppendKeepsIndexed(lex, db, ctx, r, nonces);
      SaveEmbeddingKeeps(lex, Append(lex, db, s, r, nonces), ctx, id, embedding, nonces);
    }
  }
}
