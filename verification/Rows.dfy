/** The tables of the platform database and what it means for them to be consistent. */
module Rows {
  import opened Basics
  import opened Crypto
  import opened Tokenizer

  datatype MessageRow = MessageRow(
    id: nat,
    ns: Namespace,
    content: Text,
    timestamp: string,
    metadata: Text,
    sourceKey: Option<string>,
    fingerprint: Option<Digest>)

  /** A row with one protected column; the key holds its other columns. */
  datatype Row<K> = Row(id: nat, key: K, body: Text)

  datatype SummaryKey = SummaryKey(project: string, conversation: string, technique: string, createdAt: string)
  datatype AgentKey = AgentKey(project: string, agent: string, name: string, updatedAt: string)

  type EmbeddingRow = Row<nat>
  type SummaryRow = Row<SummaryKey>
  type AgentRow = Row<AgentKey>

  datatype TermsMode = PlainTerms | KeyedTerms

  datatype Meta = Meta(enabled: bool, keyId: Option<string>, dbIdentity: string, termsMode: TermsMode)

  /** The tables; `sequence` is the largest message id SQLite remembers having tried (AUTOINCREMENT). */
  datatype Tables = Tables(
    messages: seq<MessageRow>,
    embeddings: seq<EmbeddingRow>,
    summaries: seq<SummaryRow>,
    agents: seq<AgentRow>,
    terms: set<(nat, Token)>,
    meta: Meta,
    sequence: nat)

  /** What a store knows about encryption when it touches the tables. */
  datatype Session = Session(ctx: Option<Context>, mode: TermsMode)

  // ----- sealing and opening single values -----

  function SealText(ctx: Option<Context>, plain: Text, site: Site, row: nat, nonces: Nonces): Text {
    match ctx
    case None => plain
    case Some(c) => EncryptField(c, plain, site, row, nonces(site, row))
  }

  /** The read path: open what looks like an envelope, hand back anything else. */
  function ReadText(ctx: Option<Context>, t: Text, site: Site, row: nat): Result<Text, CryptoError> {
    match ctx
    case None => Ok(t)
    case Some(c) => if IsEnvelope(t) then DecryptField(c, t, site, row) else Ok(t)
  }

  predicate Sealed(c: Context, t: Text, site: Site, row: nat) {
    DecryptField(c, t, site, row).Ok?
  }

  /** The plaintext behind a value. */
  function Open(ctx: Option<Context>, t: Text, site: Site, row: nat): Text {
    match ctx
    case None => t
    case Some(c) => var r := DecryptField(c, t, site, row); if r.Ok? then r.value else t
  }

  // ----- search terms -----

  function MapTerm(s: Session, word: string): Token {
    if s.ctx.Some? && s.mode == KeyedTerms then KeyedToken(s.ctx.value, word) else Word(word)
  }

  function TermRows(lex: Lexicon, s: Session, id: nat, plain: Text): set<(nat, Token)> {
    set w | w in Tokenize(lex, plain) :: (id, MapTerm(s, w))
  }

  function PlainContent(ctx: Option<Context>, m: MessageRow): Text {
    Open(ctx, m.content, MessageContent, m.id)
  }

  /** The index every message should have: its tokens under the current mapping. */
  function IndexOf(lex: Lexicon, s: Session, messages: seq<MessageRow>): set<(nat, Token)> {
    set i, p | 0 <= i < |messages| && p in TermRows(lex, s, messages[i].id, PlainContent(s.ctx, messages[i])) :: p
  }

  // ----- constraints -----

  predicate OrderedMessages(messages: seq<MessageRow>) {
    && (forall i :: 0 <= i < |messages| ==> messages[i].id > 0)
    && (forall i, j :: 0 <= i < j < |messages| ==> messages[i].id < messages[j].id)
  }

  predicate OrderedRows<K>(rows: seq<Row<K>>) {
    && (forall i :: 0 <= i < |rows| ==> rows[i].id > 0)
    && (forall i, j :: 0 <= i < j < |rows| ==> rows[i].id < rows[j].id)
  }

  /** Two rows that ux_messages_dedupe would not let coexist. */
  predicate SameDedupeKey(a: MessageRow, b: MessageRow) {
    a.ns == b.ns && a.content == b.content && a.timestamp == b.timestamp
  }

  /** Two rows that ux_messages_source_key would not let coexist; it skips the role. */
  predicate SameSourceKey(a: MessageRow, b: MessageRow) {
    && a.sourceKey.Some? && a.sourceKey == b.sourceKey
    && a.ns.project == b.ns.project && a.ns.provider == b.ns.provider && a.ns.conversation == b.ns.conversation
  }

  predicate Clash(a: MessageRow, b: MessageRow) {
    SameDedupeKey(a, b) || SameSourceKey(a, b)
  }

  predicate UniqueMessages(messages: seq<MessageRow>) {
    forall i, j :: 0 <= i < j < |messages| ==> !Clash(messages[i], messages[j])
  }

  predicate UniqueEmbeddings(embeddings: seq<EmbeddingRow>) {
    forall i, j :: 0 <= i < j < |embeddings| ==> embeddings[i].key != embeddings[j].key
  }

  predicate SameSlot(a: AgentKey, b: AgentKey) {
    a.project == b.project && a.agent == b.agent && a.name == b.name
  }

  predicate UniqueAgents(agents: seq<AgentRow>) {
    forall i, j :: 0 <= i < j < |agents| ==> !SameSlot(agents[i].key, agents[j].key)
  }

  predicate MessageExists(messages: seq<MessageRow>, id: nat) {
    exists i :: 0 <= i < |messages| && messages[i].id == id
  }

  predicate EmbeddingsOwned(db: Tables) {
    forall i :: 0 <= i < |db.embeddings| ==> MessageExists(db.messages, db.embeddings[i].key)
  }

  /** Keys, uniqueness and foreign keys, as SQLite enforces them. */
  predicate Constraints(db: Tables) {
    && OrderedMessages(db.messages) && OrderedRows(db.embeddings)
    && OrderedRows(db.summaries) && OrderedRows(db.agents)
    && UniqueMessages(db.messages) && UniqueEmbeddings(db.embeddings) && UniqueAgents(db.agents)
    && EmbeddingsOwned(db)
    && '|' !in db.meta.dbIdentity && db.meta.dbIdentity != ""
  }

  predicate MessageSealed(c: Context, m: MessageRow) {
    && Sealed(c, m.content, MessageContent, m.id)
    && Sealed(c, m.metadata, MessageMetadata, m.id)
    && m.fingerprint == Some(Fingerprint(c, m.ns, PlainContent(Some(c), m)))
  }

  predicate RowsSealed<K>(c: Context, rows: seq<Row<K>>, site: Site) {
    forall i :: 0 <= i < |rows| ==> Sealed(c, rows[i].body, site, rows[i].id)
  }

  /** Every protected field is sealed exactly when the metadata says so, under the key named
      there and bound to its own place; fingerprints are current. */
  predicate Protected(db: Tables, ctx: Option<Context>) {
    match ctx
    case None =>
      && !db.meta.enabled && db.meta.keyId == None && db.meta.termsMode == PlainTerms
      && (forall i :: 0 <= i < |db.messages| ==> db.messages[i].fingerprint == None)
    case Some(c) =>
      && db.meta.enabled && db.meta.keyId == Some(c.master.id16)
      && c.dbIdentity == db.meta.dbIdentity && UsableKey(c.master, c.dbIdentity)
      && (forall i :: 0 <= i < |db.messages| ==> MessageSealed(c, db.messages[i]))
      && RowsSealed(c, db.embeddings, EmbeddingJson)
      && RowsSealed(c, db.summaries, SummaryText)
      && RowsSealed(c, db.agents, AgentValue)
  }

  predicate Indexed(lex: Lexicon, db: Tables, ctx: Option<Context>) {
    db.terms == IndexOf(lex, Session(ctx, db.meta.termsMode), db.messages)
  }

  /** The invariant of every committed database. */
  predicate Consistent(lex: Lexicon, db: Tables, ctx: Option<Context>) {
    Constraints(db) && Protected(db, ctx) && Indexed(lex, db, ctx)
  }

  // ----- the plaintext view -----

  function Unmap(t: Token): string {
    match t
    case Word(w) => w
    case Keyed(d) => Unlift(d.message)
  }

  function Unlift(t: Text): string {
    seq(|t|, i requires 0 <= i < |t| => if t[i].Ch? then t[i].c else ' ')
  }

  function OpenMessage(ctx: Option<Context>, m: MessageRow): MessageRow {
    m.(content := PlainContent(ctx, m), metadata := Open(ctx, m.metadata, MessageMetadata, m.id), fingerprint := None)
  }

  function OpenRow<K>(ctx: Option<Context>, r: Row<K>, site: Site): Row<K> {
    r.(body := Open(ctx, r.body, site, r.id))
  }

  function OpenMessages(ctx: Option<Context>, ms: seq<MessageRow>): (r: seq<MessageRow>) {
    seq(|ms|, i requires 0 <= i < |ms| => OpenMessage(ctx, ms[i]))
  }

  function OpenRows<K>(ctx: Option<Context>, rows: seq<Row<K>>, site: Site): (r: seq<Row<K>>) {
    seq(|rows|, i requires 0 <= i < |rows| => OpenRow(ctx, rows[i], site))
  }

  /** The plaintext database behind a database: what a user wrote, without the bookkeeping. */
  function Plain(db: Tables, ctx: Option<Context>): Tables {
    Tables(
      OpenMessages(ctx, db.messages),
      OpenRows(ctx, db.embeddings, EmbeddingJson),
      OpenRows(ctx, db.summaries, SummaryText),
      OpenRows(ctx, db.agents, AgentValue),
      set p | p in db.terms :: (p.0, Word(Unmap(p.1))),
      Meta(false, None, db.meta.dbIdentity, PlainTerms),
      db.sequence)
  }

  lemma UnmapMap(s: Session, w: string)
    ensures Unmap(MapTerm(s, w)) == w
  {
  }

  lemma InIndex(lex: Lexicon, s: Session, messages: seq<MessageRow>, id: nat, t: Token)
    ensures (id, t) in IndexOf(lex, s, messages) <==>
            exists i, w :: 0 <= i < |messages| && w in Tokenize(lex, PlainContent(s.ctx, messages[i]))
                        && messages[i].id == id && t == MapTerm(s, w)
  {
    if (id, t) in IndexOf(lex, s, messages) {
      var i :| 0 <= i < |messages| && (id, t) in TermRows(lex, s, messages[i].id, PlainContent(s.ctx, messages[i]));
      var w :| w in Tokenize(lex, PlainContent(s.ctx, messages[i])) && (id, t) == (messages[i].id, MapTerm(s, w));
    }
    if i, w :| 0 <= i < |messages| && w in Tokenize(lex, PlainContent(s.ctx, messages[i]))
             && messages[i].id == id && t == MapTerm(s, w) {
      assert (id, t) in TermRows(lex, s, messages[i].id, PlainContent(s.ctx, messages[i]));
    }
  }

  /** The index of a database, unmapped, is the plaintext index of its plaintext. */
  lemma PlainIndex(lex: Lexicon, s: Session, messages: seq<MessageRow>)
    ensures (set p | p in IndexOf(lex, s, messages) :: (p.0, Word(Unmap(p.1))))
         == IndexOf(lex, Session(None, PlainTerms), OpenMessages(s.ctx, messages))
  {
    var a := set p | p in IndexOf(lex, s, messages) :: (p.0, Word(Unmap(p.1)));
    var s0, ms0 := Session(None, PlainTerms), OpenMessages(s.ctx, messages);
    var b := IndexOf(lex, s0, ms0);
    forall q | q in a
      ensures q in b
    {
      var p :| p in IndexOf(lex, s, messages) && q == (p.0, Word(Unmap(p.1)));
      InIndex(lex, s, messages, p.0, p.1);
      var i, w :| 0 <= i < |messages| && w in Tokenize(lex, PlainContent(s.ctx, messages[i]))
               && messages[i].id == p.0 && p.1 == MapTerm(s, w);
      UnmapMap(s, w);
      assert ms0[i].id == p.0 && PlainContent(s0.ctx, ms0[i]) == PlainContent(s.ctx, messages[i]);
      assert q.1 == MapTerm(s0, w);
      InIndex(lex, s0, ms0, q.0, q.1);
    }
    forall q | q in b
      ensures q in a
    {
      InIndex(lex, s0, ms0, q.0, q.1);
      var i, w :| 0 <= i < |ms0| && w in Tokenize(lex, PlainContent(s0.ctx, ms0[i]))
               && ms0[i].id == q.0 && q.1 == MapTerm(s0, w);
      UnmapMap(s, w);
      InIndex(lex, s, messages, q.0, MapTerm(s, w));
      assert PlainContent(s0.ctx, ms0[i]) == PlainContent(s.ctx, messages[i]);
      assert (q.0, MapTerm(s, w)) in IndexOf(lex, s, messages);
    }
  }
}
