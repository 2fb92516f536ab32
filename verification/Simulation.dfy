/** Encryption is invisible: every read and every write of an encrypted database behaves as on
    the plaintext database behind it. */
module Simulation {
  import opened Basics
  import opened Crypto
  import opened Tokenizer
  import opened Rows
  import opened Inserts
  import opened Fields

  const PLAIN := Session(None, PlainTerms)

  // ----- reads -----

  /** Reading a protected value never fails and yields what was written, even when the written
      text is itself an envelope. */
  lemma ReadsOpen(ctx: Option<Context>, t: Text, site: Site, row: nat)
    requires ctx.Some? ==> Sealed(ctx.value, t, site, row)
    ensures ReadText(ctx, t, site, row) == Ok(Open(ctx, t, site, row))
  {
  }

  lemma WrittenIsRead(ctx: Option<Context>, plain: Text, site: Site, row: nat, nonces: Nonces)
    ensures ReadText(ctx, SealText(ctx, plain, site, row, nonces), site, row) == Ok(plain)
  {
  }

  /** One message as the listing functions return it. */
  function ReadMessage(ctx: Option<Context>, m: MessageRow): Result<MessageRow, CryptoError> {
    match ReadText(ctx, m.content, MessageContent, m.id)
    case Err(e) => Err(e)
    case Ok(content) =>
      match ReadText(ctx, m.metadata, MessageMetadata, m.id)
      case Err(e) => Err(e)
      case Ok(metadata) => Ok(m.(content := content, metadata := metadata, fingerprint := None))
  }

  lemma ReadMessageOpens(db: Tables, ctx: Option<Context>, i: nat)
    requires Protected(db, ctx) && i < |db.messages|
    ensures ReadMessage(ctx, db.messages[i]) == Ok(Plain(db, ctx).messages[i])
  {
  }

  lemma MatchesOpens(db: Tables, ctx: Option<Context>, i: nat, ns: Namespace, content: Text)
    requires Protected(db, ctx) && i < |db.messages|
    ensures Matches(SessionOf(db, ctx), db.messages[i], ns, content)
         == Matches(PLAIN, Plain(db, ctx).messages[i], ns, content)
  {
    if ctx.Some? && db.messages[i].ns == ns {
      FingerprintExact(ctx.value, ns, PlainContent(ctx, db.messages[i]), content);
    }
  }

  /** The fingerprint lookup returns the same least id as the plaintext comparison. */
  lemma FindExactRefines(db: Tables, ctx: Option<Context>, ns: Namespace, content: Text)
    requires Protected(db, ctx)
    ensures FindExact(db, SessionOf(db, ctx), ns, content) == FindExact(Plain(db, ctx), PLAIN, ns, content)
  {
    var s, plain := SessionOf(db, ctx), Plain(db, ctx);
    forall i | 0 <= i < |db.messages|
      ensures Matches(s, db.messages[i], ns, content) == Matches(PLAIN, plain.messages[i], ns, content)
    {
      MatchesOpens(db, ctx, i, ns, content);
    }
    FirstIndexSame(db.messages, (m: MessageRow) => Matches(s, m, ns, content),
                   plain.messages, (m: MessageRow) => Matches(PLAIN, m, ns, content));
  }

  /** What the lookup finds is the least id with that namespace and content, and it finds one
      whenever there is one. */
  lemma FindExactMeaning(db: Tables, ctx: Option<Context>, ns: Namespace, content: Text)
    requires Protected(db, ctx) && OrderedMessages(db.messages)
    ensures var plain, found := Plain(db, ctx).messages, FindExact(db, SessionOf(db, ctx), ns, content);
            && (found.Some? <==> ContentKnown(plain, ns, content))
            && (found.Some? ==> exists i :: 0 <= i < |plain| && plain[i].id == found.value && plain[i].ns == ns && plain[i].content == content)
            && (forall i :: 0 <= i < |plain| && plain[i].ns == ns && plain[i].content == content ==>
                  found.Some? && found.value <= plain[i].id)
  {
    FindExactRefines(db, ctx, ns, content);
    var plain := Plain(db, ctx);
    var first := FirstIndex(plain.messages, (m: MessageRow) => Matches(PLAIN, m, ns, content));
    forall i | 0 <= i < |plain.messages| && plain.messages[i].ns == ns && plain.messages[i].content == content
      ensures first.Some? && plain.messages[first.value].id <= plain.messages[i].id
    {
      assert Matches(PLAIN, plain.messages[i], ns, content);
      assert db.messages[first.value].id <= db.messages[i].id;
    }
  }

  lemma GetAgentStateRefines(db: Tables, ctx: Option<Context>, key: AgentKey)
    requires Protected(db, ctx)
    ensures GetAgentState(db, SessionOf(db, ctx), key) == GetAgentState(Plain(db, ctx), PLAIN, key)
  {
    var plain := Plain(db, ctx).agents;
    FirstIndexSame(db.agents, (r: AgentRow) => SameSlot(r.key, key), plain, (r: AgentRow) => SameSlot(r.key, key));
    var first := FirstIndex(db.agents, (r: AgentRow) => SameSlot(r.key, key));
    if first.Some? {
      ReadsOpen(ctx, db.agents[first.value].body, AgentValue, db.agents[first.value].id);
    }
  }

  // ----- writes -----

  lemma PlainReplaceTerms(lex: Lexicon, terms: set<(nat, Token)>, s: Session, id: nat, plain: Text)
    ensures (set p | p in ReplaceTerms(lex, terms, s, id, plain) :: (p.0, Word(Unmap(p.1))))
         == ReplaceTerms(lex, set p | p in terms :: (p.0, Word(Unmap(p.1))), PLAIN, id, plain)
  {
    var a := set p | p in ReplaceTerms(lex, terms, s, id, plain) :: (p.0, Word(Unmap(p.1)));
    var b := ReplaceTerms(lex, set p | p in terms :: (p.0, Word(Unmap(p.1))), PLAIN, id, plain);
    forall q | q in a
      ensures q in b
    {
      var p :| p in ReplaceTerms(lex, terms, s, id, plain) && q == (p.0, Word(Unmap(p.1)));
      if p in TermRows(lex, s, id, plain) {
        var w :| w in Tokenize(lex, plain) && p == (id, MapTerm(s, w));
        UnmapMap(s, w);
        assert q == (id, MapTerm(PLAIN, w));
      }
    }
    forall q | q in b
      ensures q in a
    {
      if q in TermRows(lex, PLAIN, id, plain) {
        var w :| w in Tokenize(lex, plain) && q == (id, MapTerm(PLAIN, w));
        UnmapMap(s, w);
        assert (id, MapTerm(s, w)) in TermRows(lex, s, id, plain);
      } else {
        var p :| p in terms && q == (p.0, Word(Unmap(p.1)));
        assert p in ReplaceTerms(lex, terms, s, id, plain);
      }
    }
  }

  /** Inserting a message is inserting its plaintext, under the id the store gives. */
  lemma PlainAppend(lex: Lexicon, db: Tables, ctx: Option<Context>, r: Record, nonces: Nonces)
    ensures var s := SessionOf(db, ctx);
            Plain(Append(lex, db, s, r, nonces), ctx) == AppendAs(lex, Plain(db, ctx), PLAIN, r, nonces, NextId(db, s))
  {
    var s := SessionOf(db, ctx);
    var id := NextId(db, s);
    OpenSealed(ctx, r.content, MessageContent, id, nonces);
    OpenSealed(ctx, r.metadata, MessageMetadata, id, nonces);
    PlainReplaceTerms(lex, db.terms, s, id, r.content);
    var db', p' := Append(lex, db, s, r, nonces), AppendAs(lex, Plain(db, ctx), PLAIN, r, nonces, id);
    assert OpenMessage(ctx, StoredMessage(s, id, r, nonces)) == StoredMessage(PLAIN, id, r, nonces);
    assert Plain(db', ctx).messages == p'.messages;
  }

  lemma PlainSkip(lex: Lexicon, db: Tables, r: Record, nonces: Nonces)
    ensures Skips(db, PLAIN, r, nonces) <==> SkipsPlainly(db.messages, false, r)
  {
  }

  function PlainResult(r: Result<Tables, Failure>, ctx: Option<Context>): Result<Tables, Failure> {
    if r.Ok? then Ok(Plain(r.value, ctx)) else r
  }

  lemma PlainMessageExists(db: Tables, ctx: Option<Context>, id: nat)
    ensures MessageExists(db.messages, id) <==> MessageExists(Plain(db, ctx).messages, id)
  {
    if MessageExists(db.messages, id) {
      var i :| 0 <= i < |db.messages| && db.messages[i].id == id;
      assert Plain(db, ctx).messages[i].id == id;
    }
  }

  lemma SaveEmbeddingRefines(db: Tables, ctx: Option<Context>, id: nat, json: Text, nonces: Nonces)
    ensures SaveEmbedding(Plain(db, ctx), PLAIN, id, json, nonces)
         == PlainResult(SaveEmbedding(db, SessionOf(db, ctx), id, json, nonces), ctx)
  {
    var plain, mode := Plain(db, ctx), db.meta.termsMode;
    FirstIndexSame(db.embeddings, (r: EmbeddingRow) => r.key == id, plain.embeddings, (r: EmbeddingRow) => r.key == id);
    PlainMessageExists(db, ctx, id);
    match FirstIndex(db.embeddings, (r: EmbeddingRow) => r.key == id)
    case Some(i) => OpenPutRow(ctx, mode, db.embeddings, i, id, json, EmbeddingJson, nonces);
    case None => OpenAddRow(ctx, mode, db.embeddings, id, json, EmbeddingJson, nonces);
  }

  lemma UpsertSummaryRefines(db: Tables, ctx: Option<Context>, rec: Summary, nonces: Nonces)
    ensures var (db', inserted) := UpsertSummary(db, SessionOf(db, ctx), rec, nonces);
            UpsertSummary(Plain(db, ctx), PLAIN, rec, nonces) == (Plain(db', ctx), inserted)
  {
    var plain, s := Plain(db, ctx), SessionOf(db, ctx);
    assert forall i :: 0 <= i < |db.summaries| ==> SummaryFor(plain.summaries[i], rec) == SummaryFor(db.summaries[i], rec);
    var (db', inserted) := UpsertSummary(db, s, rec, nonces);
    var (p', inserted') := UpsertSummary(plain, PLAIN, rec, nonces);
    if exists i :: 0 <= i < |db.summaries| && SummaryFor(db.summaries[i], rec) {
      var k :| 0 <= k < |db.summaries| && SummaryFor(db.summaries[k], rec);
      assert SummaryFor(plain.summaries[k], rec);
      forall i | 0 <= i < |db.summaries|
        ensures OpenRow(ctx, db'.summaries[i], SummaryText) == p'.summaries[i]
      {
        OpenSealed(ctx, rec.text, SummaryText, db.summaries[i].id, nonces);
      }
      assert Plain(db', ctx).summaries == p'.summaries;
    } else {
      OpenAddRow(ctx, s.mode, db.summaries, SummaryKey(rec.project, rec.conversation, rec.technique, rec.createdAt),
                 rec.text, SummaryText, nonces);
    }
  }

  lemma SetAgentStateRefines(db: Tables, ctx: Option<Context>, key: AgentKey, value: Text, nonces: Nonces)
    ensures SetAgentState(Plain(db, ctx), PLAIN, key, value, nonces)
         == Plain(SetAgentState(db, SessionOf(db, ctx), key, value, nonces), ctx)
  {
    var plain, mode := Plain(db, ctx), db.meta.termsMode;
    FirstIndexSame(db.agents, (r: AgentRow) => SameSlot(r.key, key), plain.agents, (r: AgentRow) => SameSlot(r.key, key));
    match FirstIndex(db.agents, (r: AgentRow) => SameSlot(r.key, key))
    case Some(i) =>
      OpenPutRow(ctx, mode, db.agents, i, db.agents[i].key.(updatedAt := key.updatedAt), value, AgentValue, nonces);
    case None => OpenAddRow(ctx, mode, db.agents, key, value, AgentValue, nonces);
  }

  function PlainStored(o: Result<(Tables, Stored), Failure>, ctx: Option<Context>): Result<(Tables, Stored), Failure> {
    if o.Ok? then Ok((Plain(o.value.0, ctx), o.value.1)) else o
  }

  /** The facade's decision and effect are the plaintext ones, under the id the store gives. */
  lemma StoreFacadeRefines(lex: Lexicon, db: Tables, ctx: Option<Context>, r: Record, embedding: Text, nonces: Nonces)
    requires Consistent(lex, db, ctx)
    ensures var s := SessionOf(db, ctx);
            StoreFacadeAs(lex, Plain(db, ctx), PLAIN, r, embedding, nonces, NextId(db, s))
            == PlainStored(StoreFacade(lex, db, s, r, embedding, nonces), ctx)
  {
    FindExactRefines(db, ctx, r.ns, r.content);
    FindExactMeaning(db, ctx, r.ns, r.content);
    if FindExact(db, SessionOf(db, ctx), r.ns, r.content).None? {
      FacadeClash(lex, db, ctx, r, nonces);
      FacadeInsertRefines(lex, db, ctx, r, embedding, nonces, NextId(db, SessionOf(db, ctx)));
    }
  }

  /** The inserting half of the facade store. */
  lemma FacadeInsertRefines(lex: Lexicon, db: Tables, ctx: Option<Context>, r: Record, embedding: Text, nonces: Nonces, id: nat)
    requires id == NextId(db, SessionOf(db, ctx))
    ensures SaveEmbedding(AppendAs(lex, Plain(db, ctx), PLAIN, r, nonces, id), PLAIN, id, embedding, nonces)
            == PlainResult(SaveEmbedding(Append(lex, db, SessionOf(db, ctx), r, nonces), SessionOf(db, ctx), id, embedding, nonces), ctx)
  {
    PlainAppend(lex, db, ctx, r, nonces);
    var db' := Append(lex, db, SessionOf(db, ctx), r, nonces);
    assert SessionOf(db', ctx) == SessionOf(db, ctx);
    SaveEmbeddingRefines(db', ctx, id, embedding, nonces);
  }

  lemma FingerprintIsContent(db: Tables, c: Context, ns: Namespace, content: Text)
    requires Protected(db, Some(c))
    ensures FingerprintKnown(db.messages, ns, Fingerprint(c, ns, content)) ==> ContentKnown(Plain(db, Some(c)).messages, ns, content)
  {
    if i :| 0 <= i < |db.messages| && db.messages[i].ns == ns && db.messages[i].fingerprint == Some(Fingerprint(c, ns, content)) {
      MatchesOpens(db, Some(c), i, ns, content);
      assert Plain(db, Some(c)).messages[i].ns == ns;
    }
  }

  /** With no equal content only the source key can clash, in both modes. */
  lemma FacadeClash(lex: Lexicon, db: Tables, ctx: Option<Context>, r: Record, nonces: Nonces)
    requires Consistent(lex, db, ctx) && !ContentKnown(Plain(db, ctx).messages, r.ns, r.content)
    ensures ClashesWith(db.messages, StoredMessage(SessionOf(db, ctx), NextId(db, SessionOf(db, ctx)), r, nonces))
       <==> SourceKeyKnown(Plain(db, ctx).messages, r)
    ensures ClashesWith(Plain(db, ctx).messages, StoredMessage(PLAIN, NextId(db, SessionOf(db, ctx)), r, nonces))
       <==> SourceKeyKnown(Plain(db, ctx).messages, r)
  {
    var plain, s := Plain(db, ctx).messages, SessionOf(db, ctx);
    if DedupeKnown(plain, r) {
      DedupeIsContent(plain, r);
    }
    SkipsExactly(lex, db, ctx, r, nonces);
    if ctx.Some? {
      FingerprintIsContent(db, ctx.value, r.ns, r.content);
    }
    assert forall i :: 0 <= i < |plain| ==> plain[i] == plain[i].(fingerprint := None);
    PlainSkips(plain, plain, r, StoredMessage(PLAIN, NextId(db, s), r, nonces));
  }
}
