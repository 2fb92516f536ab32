/** Enabling and rotating encryption as functions of the tables (encryption.py). */
module Lifecycle {
  import opened Basics
  import opened Crypto
  import opened Tokenizer
  import opened Rows
  import opened Inserts
  import opened Fields
  import opened Simulation

  // ----- rewriting messages in place -----

  predicate ClashesElsewhere(ms: seq<MessageRow>, i: nat, m: MessageRow) {
    exists j :: 0 <= j < |ms| && j != i && Clash(ms[j], m)
  }

  /** UPDATE one message after another, from row i on: each new row must fit the unique indexes
      beside the rows that are already rewritten and those that are not yet. */
  function Rewrite(ms: seq<MessageRow>, i: nat, f: MessageRow -> Result<MessageRow, Failure>): Result<seq<MessageRow>, Failure>
    requires i <= |ms|
    decreases |ms| - i
  {
    if i == |ms| then Ok(ms)
    else match f(ms[i])
      case Err(e) => Err(e)
      case Ok(m) => if ClashesElsewhere(ms, i, m) then Err(Integrity) else Rewrite(ms[i := m], i + 1, f)
  }

  function NewRow(m: MessageRow, f: MessageRow -> Result<MessageRow, Failure>): MessageRow {
    if f(m).Ok? then f(m).value else m
  }

  function NewRows(ms: seq<MessageRow>, f: MessageRow -> Result<MessageRow, Failure>): seq<MessageRow> {
    seq(|ms|, i requires 0 <= i < |ms| => NewRow(ms[i], f))
  }

  /** Row i can be written: no earlier new row and no later old row shares a key with it. */
  predicate Fits(ms: seq<MessageRow>, new': seq<MessageRow>, i: nat)
    requires i < |ms| == |new'|
  {
    (forall j :: 0 <= j < i ==> !Clash(new'[j], new'[i])) && (forall j :: i < j < |ms| ==> !Clash(ms[j], new'[i]))
  }

  lemma {:induction false} RewriteFrom(ms: seq<MessageRow>, new': seq<MessageRow>, cur: seq<MessageRow>, i: nat,
                                       f: MessageRow -> Result<MessageRow, Failure>)
    requires i <= |ms| && new' == NewRows(ms, f) && cur == new'[..i] + ms[i..]
    ensures Rewrite(cur, i, f).Ok? <==> forall k :: i <= k < |ms| ==> f(ms[k]).Ok? && Fits(ms, new', k)
    ensures Rewrite(cur, i, f).Ok? ==> Rewrite(cur, i, f).value == new'
    decreases |ms| - i
  {
    if i < |ms| {
      assert cur[i] == ms[i];
      if f(ms[i]).Ok? {
        ClashesWithCurrent(ms, new', cur, i);
        assert cur[i := new'[i]] == new'[..i + 1] + ms[i + 1..];
        RewriteFrom(ms, new', cur[i := new'[i]], i + 1, f);
      }
    }
  }

  lemma ClashesWithCurrent(ms: seq<MessageRow>, new': seq<MessageRow>, cur: seq<MessageRow>, i: nat)
    requires i < |ms| == |new'| && cur == new'[..i] + ms[i..]
    ensures ClashesElsewhere(cur, i, new'[i]) <==> !Fits(ms, new', i)
  {
    assert forall j :: 0 <= j < i ==> cur[j] == new'[j];
    assert forall j :: i < j < |ms| ==> cur[j] == ms[j];
  }

  /** When rewriting every message succeeds, and what it yields. */
  lemma RewriteExactly(ms: seq<MessageRow>, f: MessageRow -> Result<MessageRow, Failure>)
    ensures var r, new' := Rewrite(ms, 0, f), NewRows(ms, f);
            && (r.Ok? <==> forall k :: 0 <= k < |ms| ==> f(ms[k]).Ok? && Fits(ms, new', k))
            && (r.Ok? ==> r.value == new')
  {
    var new' := NewRows(ms, f);
    assert ms == new'[..0] + ms[0..];
    RewriteFrom(ms, new', ms, 0, f);
  }

  /** Where every new row can be computed, only the unique indexes can refuse. */
  lemma {:induction false} OnlyIntegrity(ms: seq<MessageRow>, i: nat, f: MessageRow -> Result<MessageRow, Failure>)
    requires i <= |ms| && forall k :: i <= k < |ms| ==> f(ms[k]).Ok?
    ensures Rewrite(ms, i, f).Err? ==> Rewrite(ms, i, f).error == Integrity
    decreases |ms| - i
  {
    if i < |ms| {
      OnlyIntegrity(ms[i := f(ms[i]).value], i + 1, f);
    }
  }

  /** Two messages on which ux_messages_dedupe would meet while one text is in place and the other is not. */
  predicate RewritesCleanly(ms: seq<MessageRow>, new': seq<MessageRow>)
    requires |ms| == |new'|
  {
    forall i, j :: 0 <= i < j < |ms| ==> !SameDedupeKey(new'[i], new'[j]) && !SameDedupeKey(new'[i], ms[j])
  }

  predicate UniqueSourceKeys(ms: seq<MessageRow>) {
    forall i, j :: 0 <= i < j < |ms| ==> !SameSourceKey(ms[i], ms[j])
  }

  predicate SameKeyColumns(a: MessageRow, b: MessageRow) {
    a.ns == b.ns && a.timestamp == b.timestamp && a.sourceKey == b.sourceKey
  }

  /** Rewriting texts alone can only trip over the dedupe index. */
  lemma FitsExactly(ms: seq<MessageRow>, new': seq<MessageRow>)
    requires |ms| == |new'| && UniqueSourceKeys(ms) && forall i :: 0 <= i < |ms| ==> SameKeyColumns(ms[i], new'[i])
    ensures (forall k :: 0 <= k < |ms| ==> Fits(ms, new', k)) <==> RewritesCleanly(ms, new')
  {
    forall i, j | 0 <= i < j < |ms|
      ensures Clash(new'[i], new'[j]) == SameDedupeKey(new'[i], new'[j])
      ensures Clash(ms[j], new'[i]) == SameDedupeKey(new'[i], ms[j])
    {
      assert !SameSourceKey(ms[i], ms[j]);
    }
    if forall k :: 0 <= k < |ms| ==> Fits(ms, new', k) {
      forall i, j | 0 <= i < j < |ms|
        ensures !SameDedupeKey(new'[i], new'[j]) && !SameDedupeKey(new'[i], ms[j])
      {
        assert Fits(ms, new', i) && Fits(ms, new', j);
      }
    }
  }

  // ----- sealing every row -----

  function SealMessage(c: Context, m: MessageRow, nonces: Nonces): MessageRow {
    m.(content := EncryptField(c, m.content, MessageContent, m.id, nonces(MessageContent, m.id)),
       metadata := EncryptField(c, m.metadata, MessageMetadata, m.id, nonces(MessageMetadata, m.id)),
       fingerprint := Some(Fingerprint(c, m.ns, m.content)))
  }

  function SealMessages(c: Context, ms: seq<MessageRow>, nonces: Nonces): seq<MessageRow> {
    seq(|ms|, i requires 0 <= i < |ms| => SealMessage(c, ms[i], nonces))
  }

  function SealRow<K>(c: Context, r: Row<K>, site: Site, nonces: Nonces): Row<K> {
    r.(body := EncryptField(c, r.body, site, r.id, nonces(site, r.id)))
  }

  function SealRows<K>(c: Context, rows: seq<Row<K>>, site: Site, nonces: Nonces): seq<Row<K>> {
    seq(|rows|, i requires 0 <= i < |rows| => SealRow(c, rows[i], site, nonces))
  }

  /** The index of messages whose content is, for the moment, plaintext. */
  function RawIndex(lex: Lexicon, s: Session, plain: seq<MessageRow>): set<(nat, Token)> {
    set i, p | 0 <= i < |plain| && p in TermRows(lex, s, plain[i].id, plain[i].content) :: p
  }

  function Reindexed(lex: Lexicon, terms: set<(nat, Token)>, c: Context, plain: seq<MessageRow>): set<(nat, Token)> {
    (set p | p in terms && !MessageExists(plain, p.0)) + RawIndex(lex, Session(Some(c), KeyedTerms), plain)
  }

  function Sealer(c: Context, nonces: Nonces): MessageRow -> Result<MessageRow, Failure> {
    (m: MessageRow) => Ok(SealMessage(c, m, nonces))
  }

  /** The tables with every row sealed. */
  function SealedTables(lex: Lexicon, db: Tables, c: Context, mode: TermsMode, nonces: Nonces): Tables {
    db.(messages := SealMessages(c, db.messages, nonces),
        embeddings := SealRows(c, db.embeddings, EmbeddingJson, nonces),
        summaries := SealRows(c, db.summaries, SummaryText, nonces),
        agents := SealRows(c, db.agents, AgentValue, nonces),
        terms := if mode == KeyedTerms then Reindexed(lex, db.terms, c, db.messages) else db.terms)
  }

  /** _encrypt_all_rows: as long as the message rows can be rewritten in place. */
  function EncryptTables(lex: Lexicon, db: Tables, c: Context, mode: TermsMode, nonces: Nonces): Result<Tables, Failure> {
    match Rewrite(db.messages, 0, Sealer(c, nonces))
    case Err(e) => Err(e)
    case Ok(ms) => Ok(SealedTables(lex, db, c, mode, nonces).(messages := ms))
  }

  function Enable(lex: Lexicon, db: Tables, key: MasterKey, mode: TermsMode, nonces: Nonces): Result<Tables, Failure> {
    if db.meta.enabled then Err(WrongState)
    else match MakeContext(key, db.meta.dbIdentity)
      case Err(e) => Err(CryptoFailure(e))
      case Ok(c) =>
        match EncryptTables(lex, db, c, mode, nonces)
        case Err(e) => Err(e)
        case Ok(sealed) => Ok(sealed.(meta := Meta(true, Some(key.id16), db.meta.dbIdentity, mode)))
  }

  // ----- opening every row -----

  function DecryptMessage(c: Context, m: MessageRow): Result<MessageRow, CryptoError> {
    match DecryptField(c, m.content, MessageContent, m.id)
    case Err(e) => Err(e)
    case Ok(content) =>
      match DecryptField(c, m.metadata, MessageMetadata, m.id)
      case Err(e) => Err(e)
      case Ok(metadata) => Ok(m.(content := content, metadata := metadata))
  }

  function Opener(c: Context): MessageRow -> Result<MessageRow, Failure> {
    (m: MessageRow) => match DecryptMessage(c, m) { case Err(e) => Err(CryptoFailure(e)) case Ok(open) => Ok(open) }
  }

  /** Every message opened in place, or the error of the first that does not open or does not fit. */
  function DecryptMessages(c: Context, ms: seq<MessageRow>): Result<seq<MessageRow>, Failure> {
    Rewrite(ms, 0, Opener(c))
  }

  function DecryptRow<K>(c: Context, r: Row<K>, site: Site): Result<Row<K>, CryptoError> {
    match DecryptField(c, r.body, site, r.id)
    case Err(e) => Err(e)
    case Ok(t) => Ok(r.(body := t))
  }

  function DecryptRows<K>(c: Context, rows: seq<Row<K>>, site: Site): Result<seq<Row<K>>, CryptoError> {
    match FirstIndex(rows, (r: Row<K>) => DecryptRow(c, r, site).Err?)
    case None => Ok(seq(|rows|, i requires 0 <= i < |rows| && DecryptRow(c, rows[i], site).Ok? => DecryptRow(c, rows[i], site).value))
    case Some(i) => Err(DecryptRow(c, rows[i], site).error)
  }

  function DecryptTables(db: Tables, c: Context): Result<Tables, Failure> {
    var ms := DecryptMessages(c, db.messages);
    if ms.Err? then Err(ms.error) else
    var es := DecryptRows(c, db.embeddings, EmbeddingJson);
    if es.Err? then Err(CryptoFailure(es.error)) else
    var ss := DecryptRows(c, db.summaries, SummaryText);
    if ss.Err? then Err(CryptoFailure(ss.error)) else
    var ags := DecryptRows(c, db.agents, AgentValue);
    if ags.Err? then Err(CryptoFailure(ags.error)) else
    Ok(db.(messages := ms.value, embeddings := es.value, summaries := ss.value, agents := ags.value))
  }

  /** The checks before rotation touches a row: the two contexts, old and new. */
  function RotationContexts(db: Tables, oldKey: MasterKey, newKey: MasterKey): Result<(Context, Context), Failure> {
    if !db.meta.enabled then Err(WrongState)
    else match MakeContext(oldKey, db.meta.dbIdentity)
      case Err(e) => Err(CryptoFailure(e))
      case Ok(cOld) =>
        if Some(oldKey.id16) != db.meta.keyId then Err(CryptoFailure(WrongKey))
        else match MakeContext(newKey, db.meta.dbIdentity)
          case Err(e) => Err(CryptoFailure(e))
          case Ok(cNew) => Ok((cOld, cNew))
  }

  function Rotate(lex: Lexicon, db: Tables, oldKey: MasterKey, newKey: MasterKey, nonces: Nonces): Result<Tables, Failure> {
    match RotationContexts(db, oldKey, newKey)
    case Err(e) => Err(e)
    case Ok((cOld, cNew)) =>
      match DecryptTables(db, cOld)
      case Err(e) => Err(e)
      case Ok(open) =>
        match EncryptTables(lex, open, cNew, db.meta.termsMode, nonces)
        case Err(e) => Err(e)
        case Ok(sealed) => Ok(sealed.(meta := db.meta.(keyId := Some(newKey.id16))))
  }

  // ----- sealing and opening are inverse -----

  lemma SealMessageOpens(c: Context, m: MessageRow, nonces: Nonces)
    ensures MessageSealed(c, SealMessage(c, m, nonces))
    ensures OpenMessage(Some(c), SealMessage(c, m, nonces)) == m.(fingerprint := None)
  {
  }

  lemma SealRowsOpens<K>(c: Context, rows: seq<Row<K>>, site: Site, nonces: Nonces)
    ensures RowsSealed(c, SealRows(c, rows, site, nonces), site)
    ensures OpenRows(Some(c), SealRows(c, rows, site, nonces), site) == rows
  {
  }

  /** The plaintext of the messages can come back into the table row by row: no two rows share
      namespace, text and timestamp, and no text is what a later row still stores. */
  predicate OpensCleanly(c: Context, ms: seq<MessageRow>) {
    RewritesCleanly(ms, OpenMessages(Some(c), ms))
  }

  /** No sealed text happens to be the plaintext of a later row of the same namespace and timestamp. */
  predicate SealsCleanly(c: Context, plain: seq<MessageRow>, nonces: Nonces) {
    forall i, j :: 0 <= i < j < |plain| ==> !SameDedupeKey(SealMessage(c, plain[i], nonces), plain[j])
  }

  lemma OpenedRow(c: Context, m: MessageRow, c': Context)
    requires MessageSealed(c, m) && c.dbIdentity == c'.dbIdentity
    ensures Opener(c')(m).Ok? <==> c' == c
    ensures c' == c ==> Opener(c')(m).value == OpenMessage(Some(c), m).(fingerprint := m.fingerprint)
  {
  }

  lemma DecryptMessagesExact(c: Context, ms: seq<MessageRow>, c': Context)
    requires forall i :: 0 <= i < |ms| ==> MessageSealed(c, ms[i])
    requires c.dbIdentity == c'.dbIdentity && UniqueSourceKeys(ms)
    ensures var r := DecryptMessages(c', ms);
            && (r.Ok? <==> ms == [] || (c' == c && OpensCleanly(c, ms)))
            && (r.Ok? ==> OpenMessages(None, r.value) == OpenMessages(Some(c), ms))
  {
    RewriteExactly(ms, Opener(c'));
    forall i | 0 <= i < |ms|
      ensures Opener(c')(ms[i]).Ok? <==> c' == c
    {
      OpenedRow(c, ms[i], c');
    }
    if ms != [] && c' == c {
      var new' := NewRows(ms, Opener(c));
      forall i | 0 <= i < |ms|
        ensures new'[i] == OpenMessage(Some(c), ms[i]).(fingerprint := ms[i].fingerprint)
      {
        OpenedRow(c, ms[i], c);
      }
      FitsExactly(ms, new');
      SameTextsClean(ms, new', OpenMessages(Some(c), ms));
    } else if ms != [] {
      assert !Opener(c')(ms[0]).Ok?;
    }
  }

  lemma SameTextsClean(ms: seq<MessageRow>, a: seq<MessageRow>, b: seq<MessageRow>)
    requires |ms| == |a| == |b|
    requires forall i :: 0 <= i < |ms| ==> a[i].ns == b[i].ns && a[i].content == b[i].content && a[i].timestamp == b[i].timestamp
    ensures RewritesCleanly(ms, a) <==> RewritesCleanly(ms, b)
  {
    forall i, j | 0 <= i < j < |ms|
      ensures SameDedupeKey(a[i], a[j]) == SameDedupeKey(b[i], b[j]) && SameDedupeKey(a[i], ms[j]) == SameDedupeKey(b[i], ms[j])
    {
    }
  }

  lemma DecryptRowsExact<K>(c: Context, rows: seq<Row<K>>, site: Site, c': Context)
    requires RowsSealed(c, rows, site) && c.dbIdentity == c'.dbIdentity
    ensures var r := DecryptRows(c', rows, site);
            && (r.Ok? <==> c' == c || rows == [])
            && (r.Ok? ==> r.value == OpenRows(Some(c), rows, site))
  {
  }

  predicate NothingSealed(db: Tables) {
    db.messages == [] && db.embeddings == [] && db.summaries == [] && db.agents == []
  }

  /** The plaintext uncovered, everything else as it was. */
  predicate Uncovered(db: Tables, c: Context, open: Tables) {
    && OpenMessages(None, open.messages) == OpenMessages(Some(c), db.messages)
    && open.embeddings == OpenRows(Some(c), db.embeddings, EmbeddingJson)
    && open.summaries == OpenRows(Some(c), db.summaries, SummaryText)
    && open.agents == OpenRows(Some(c), db.agents, AgentValue)
    && open.terms == db.terms && open.meta == db.meta && open.sequence == db.sequence
  }

  /** Decrypting for rotation succeeds exactly under the sealing key, unless nothing is sealed, and
      where the opened messages fit the table; it uncovers the plaintext and touches nothing else. */
  lemma DecryptTablesExact(db: Tables, c: Context, c': Context)
    requires Protected(db, Some(c)) && c.dbIdentity == c'.dbIdentity && UniqueSourceKeys(db.messages)
    ensures var r := DecryptTables(db, c');
            && (r.Ok? <==> (c' == c || NothingSealed(db)) && OpensCleanly(c, db.messages))
            && (r.Ok? ==> Uncovered(db, c, r.value))
  {
    DecryptMessagesExact(c, db.messages, c');
    DecryptRowsExact(c, db.embeddings, EmbeddingJson, c');
    DecryptRowsExact(c, db.summaries, SummaryText, c');
    DecryptRowsExact(c, db.agents, AgentValue, c');
  }

  // ----- encrypting the tables -----

  /** The tables as they are when encryption starts: plaintext in place, the old index still there. */
  predicate Exposed(lex: Lexicon, db: Tables, indexed: Session) {
    && OrderedMessages(db.messages) && OrderedRows(db.embeddings)
    && OrderedRows(db.summaries) && OrderedRows(db.agents)
    && UniqueEmbeddings(db.embeddings) && UniqueAgents(db.agents) && EmbeddingsOwned(db)
    && UniqueSourceKeys(db.messages)
    && '|' !in db.meta.dbIdentity && db.meta.dbIdentity != ""
    && TermsOwned(db)
    && (indexed.mode == PlainTerms ==> db.terms == IndexOf(lex, Session(None, PlainTerms), db.messages))
  }

  lemma SealedAreUnique(c: Context, ms: seq<MessageRow>, nonces: Nonces)
    requires OrderedMessages(ms) && '|' !in c.dbIdentity && UniqueSourceKeys(ms)
    ensures UniqueMessages(SealMessages(c, ms, nonces))
  {
    var sealed := SealMessages(c, ms, nonces);
    forall i, j | 0 <= i < j < |ms|
      ensures !Clash(sealed[i], sealed[j])
    {
      assert !SameSourceKey(ms[i], ms[j]);
      SealMessageOpens(c, ms[i], nonces);
      SealedContentsDiffer(c, sealed[i].content, ms[i].id, ms[j].content, ms[j].id, nonces);
    }
  }

  lemma SealedRewrites(c: Context, ms: seq<MessageRow>, nonces: Nonces)
    requires OrderedMessages(ms) && UniqueSourceKeys(ms) && '|' !in c.dbIdentity
    ensures RewritesCleanly(ms, SealMessages(c, ms, nonces)) <==> SealsCleanly(c, ms, nonces)
  {
    var sealed := SealMessages(c, ms, nonces);
    SealedAreUnique(c, ms, nonces);
    forall i, j | 0 <= i < j < |ms|
      ensures !SameDedupeKey(sealed[i], sealed[j])
      ensures SameDedupeKey(sealed[i], ms[j]) <==> SameDedupeKey(SealMessage(c, ms[i], nonces), ms[j])
    {
      assert !Clash(sealed[i], sealed[j]);
    }
  }

  /** Sealing in place succeeds exactly where no sealed text meets a later plaintext. */
  lemma EncryptTablesExactly(lex: Lexicon, db: Tables, c: Context, mode: TermsMode, nonces: Nonces)
    requires OrderedMessages(db.messages) && UniqueSourceKeys(db.messages) && '|' !in c.dbIdentity
    ensures EncryptTables(lex, db, c, mode, nonces)
         == if SealsCleanly(c, db.messages, nonces) then Ok(SealedTables(lex, db, c, mode, nonces)) else Err(Integrity)
  {
    var ms, f := db.messages, Sealer(c, nonces);
    var new' := SealMessages(c, ms, nonces);
    RewriteExactly(ms, f);
    assert NewRows(ms, f) == new';
    FitsExactly(ms, new');
    SealedRewrites(c, ms, nonces);
    OnlyIntegrity(ms, 0, f);
  }

  lemma SealKeepsOwners(db: Tables, c: Context, nonces: Nonces)
    requires EmbeddingsOwned(db)
    ensures EmbeddingsOwned(db.(messages := SealMessages(c, db.messages, nonces),
                                embeddings := SealRows(c, db.embeddings, EmbeddingJson, nonces)))
  {
    var ms' := SealMessages(c, db.messages, nonces);
    forall i | 0 <= i < |db.embeddings|
      ensures MessageExists(ms', db.embeddings[i].key)
    {
      assert MessageExists(db.messages, db.embeddings[i].key);
      var k :| 0 <= k < |db.messages| && db.messages[k].id == db.embeddings[i].key;
      assert ms'[k].id == db.messages[k].id;
    }
  }

  /** Sealed messages are indexed by the keyed terms of their plaintext, or stay indexed by words. */
  lemma SealedIndex(lex: Lexicon, db: Tables, c: Context, mode: TermsMode, nonces: Nonces)
    requires Exposed(lex, db, Session(Some(c), mode))
    ensures SealedTables(lex, db, c, mode, nonces).terms
         == IndexOf(lex, Session(Some(c), mode), SealMessages(c, db.messages, nonces))
  {
    var s, sealed := Session(Some(c), mode), SealMessages(c, db.messages, nonces);
    forall i | 0 <= i < |db.messages|
      ensures sealed[i].id == db.messages[i].id && PlainContent(s.ctx, sealed[i]) == db.messages[i].content
    {
      SealMessageOpens(c, db.messages[i], nonces);
    }
    if mode == KeyedTerms {
      assert (set p | p in db.terms && !MessageExists(db.messages, p.0)) == {};
      SameIndex(lex, s, sealed, RawIndex(lex, s, db.messages), s, db.messages);
    } else {
      RawIsIndex(lex, db.messages);
      SameIndex(lex, s, sealed, db.terms, PLAIN, db.messages);
    }
  }

  lemma RawIsIndex(lex: Lexicon, ms: seq<MessageRow>)
    ensures RawIndex(lex, PLAIN, ms) == IndexOf(lex, PLAIN, ms)
  {
    forall i | 0 <= i < |ms|
      ensures TermRows(lex, PLAIN, ms[i].id, ms[i].content) == TermRows(lex, PLAIN, ms[i].id, PlainContent(None, ms[i]))
    {
    }
  }

  lemma SameIndex(lex: Lexicon, s: Session, sealed: seq<MessageRow>, terms: set<(nat, Token)>, s': Session, plain: seq<MessageRow>)
    requires |sealed| == |plain| && forall i :: 0 <= i < |plain| ==> sealed[i].id == plain[i].id && PlainContent(s.ctx, sealed[i]) == plain[i].content
    requires forall w :: MapTerm(s, w) == MapTerm(s', w)
    requires terms == RawIndex(lex, s', plain)
    ensures terms == IndexOf(lex, s, sealed)
  {
    forall i | 0 <= i < |plain|
      ensures TermRows(lex, s', plain[i].id, plain[i].content) == TermRows(lex, s, sealed[i].id, PlainContent(s.ctx, sealed[i]))
    {
    }
  }

  lemma SealedTablesCorrect(lex: Lexicon, db: Tables, c: Context, mode: TermsMode, nonces: Nonces, meta: Meta)
    requires Exposed(lex, db, Session(Some(c), mode))
    requires c.dbIdentity == db.meta.dbIdentity && UsableKey(c.master, c.dbIdentity)
    requires meta == Meta(true, Some(c.master.id16), db.meta.dbIdentity, mode)
    ensures Consistent(lex, SealedTables(lex, db, c, mode, nonces).(meta := meta), Some(c))
  {
    var db' := SealedTables(lex, db, c, mode, nonces).(meta := meta);
    SealRowsOpens(c, db.embeddings, EmbeddingJson, nonces);
    SealRowsOpens(c, db.summaries, SummaryText, nonces);
    SealRowsOpens(c, db.agents, AgentValue, nonces);
    SealedAreUnique(c, db.messages, nonces);
    SealKeepsOwners(db, c, nonces);
    SealedIndex(lex, db, c, mode, nonces);
    forall i | 0 <= i < |db.messages|
      ensures MessageSealed(c, db'.messages[i])
    {
      SealMessageOpens(c, db.messages[i], nonces);
    }
    assert EmbeddingsOwned(db');
  }

  /** The plaintext columns of two databases agree; the index follows from consistency. */
  predicate SamePlainRows(db: Tables, ctx: Option<Context>, db': Tables, ctx': Option<Context>) {
    && OpenMessages(ctx, db.messages) == OpenMessages(ctx', db'.messages)
    && OpenRows(ctx, db.embeddings, EmbeddingJson) == OpenRows(ctx', db'.embeddings, EmbeddingJson)
    && OpenRows(ctx, db.summaries, SummaryText) == OpenRows(ctx', db'.summaries, SummaryText)
    && OpenRows(ctx, db.agents, AgentValue) == OpenRows(ctx', db'.agents, AgentValue)
    && db.meta.dbIdentity == db'.meta.dbIdentity && db.sequence == db'.sequence
  }

  lemma SamePlain(lex: Lexicon, db: Tables, ctx: Option<Context>, db': Tables, ctx': Option<Context>)
    requires Indexed(lex, db, ctx) && Indexed(lex, db', ctx') && SamePlainRows(db, ctx, db', ctx')
    ensures Plain(db, ctx) == Plain(db', ctx')
  {
    PlainIndex(lex, SessionOf(db, ctx), db.messages);
    PlainIndex(lex, SessionOf(db', ctx'), db'.messages);
  }

  lemma SealedTablesOpen(lex: Lexicon, db: Tables, c: Context, mode: TermsMode, nonces: Nonces)
    ensures var db' := SealedTables(lex, db, c, mode, nonces);
            && OpenMessages(Some(c), db'.messages) == OpenMessages(None, db.messages)
            && OpenRows(Some(c), db'.embeddings, EmbeddingJson) == db.embeddings
            && OpenRows(Some(c), db'.summaries, SummaryText) == db.summaries
            && OpenRows(Some(c), db'.agents, AgentValue) == db.agents
            && db'.sequence == db.sequence
  {
  }

  lemma OpenRowsOfNone<K>(rows: seq<Row<K>>, site: Site)
    ensures OpenRows(None, rows, site) == rows
  {
  }

  // ----- what the mode does to the index -----

  /** No word is in the clear: every term is the keyed token of its word under this very key. */
  predicate OnlyKeyed(terms: set<(nat, Token)>, c: Context) {
    forall p :: p in terms ==> p.1.Keyed? && p.1 == KeyedToken(c, Unmap(p.1))
  }

  predicate OnlyWords(terms: set<(nat, Token)>) {
    forall p :: p in terms ==> p.1.Word?
  }

  /** The metadata says that the rows are sealed under this key in this mode, and the index is as the mode wants it:
      keyed under the new key, or the very words of before. */
  predicate SealedInMode(before: Tables, after: Tables, c: Context, mode: TermsMode) {
    && after.meta.enabled && after.meta.keyId == Some(c.master.id16) && after.meta.termsMode == mode
    && match mode { case KeyedTerms => OnlyKeyed(after.terms, c) case PlainTerms => after.terms == before.terms }
  }

  /** Terms belong to messages. */
  predicate TermsOwned(db: Tables) {
    forall p :: p in db.terms ==> MessageExists(db.messages, p.0)
  }

  /** Sealing every row re-indexes every message in keyed mode and leaves the index alone in plain mode. */
  lemma EncryptedInMode(lex: Lexicon, db: Tables, c: Context, mode: TermsMode, nonces: Nonces)
    requires TermsOwned(db) && EncryptTables(lex, db, c, mode, nonces).Ok?
    ensures var terms := EncryptTables(lex, db, c, mode, nonces).value.terms;
            match mode { case KeyedTerms => OnlyKeyed(terms, c) case PlainTerms => terms == db.terms }
  {
    if mode == KeyedTerms {
      var s := Session(Some(c), KeyedTerms);
      forall p | p in Reindexed(lex, db.terms, c, db.messages)
        ensures p.1.Keyed? && p.1 == KeyedToken(c, Unmap(p.1))
      {
        var i :| 0 <= i < |db.messages| && p in TermRows(lex, s, db.messages[i].id, db.messages[i].content);
        var w :| w in Tokenize(lex, db.messages[i].content) && p == (db.messages[i].id, MapTerm(s, w));
        UnmapMap(s, w);
      }
    }
  }

  lemma EnabledInMode(lex: Lexicon, db: Tables, key: MasterKey, mode: TermsMode, nonces: Nonces)
    requires TermsOwned(db) && Enable(lex, db, key, mode, nonces).Ok?
    ensures SealedInMode(db, Enable(lex, db, key, mode, nonces).value, Context(key, db.meta.dbIdentity), mode)
  {
    EncryptedInMode(lex, db, Context(key, db.meta.dbIdentity), mode, nonces);
  }

  lemma DecryptKeepsIds(c: Context, ms: seq<MessageRow>)
    requires DecryptMessages(c, ms).Ok?
    ensures |DecryptMessages(c, ms).value| == |ms|
    ensures forall i :: 0 <= i < |ms| ==> DecryptMessages(c, ms).value[i].id == ms[i].id
  {
    RewriteExactly(ms, Opener(c));
    var open := DecryptMessages(c, ms).value;
    forall i | 0 <= i < |ms|
      ensures open[i].id == ms[i].id
    {
      assert open[i] == NewRow(ms[i], Opener(c));
    }
  }

  /** A rotation that goes through keeps the mode. */
  lemma RotatedInMode(lex: Lexicon, db: Tables, oldKey: MasterKey, newKey: MasterKey, nonces: Nonces)
    requires TermsOwned(db) && Rotate(lex, db, oldKey, newKey, nonces).Ok?
    ensures SealedInMode(db, Rotate(lex, db, oldKey, newKey, nonces).value, Context(newKey, db.meta.dbIdentity), db.meta.termsMode)
  {
    var c := Context(oldKey, db.meta.dbIdentity);
    var open := DecryptTables(db, c).value;
    DecryptKeepsIds(c, db.messages);
    forall p | p in open.terms
      ensures MessageExists(open.messages, p.0)
    {
      SameIdsExist(db.messages, open.messages, p.0);
    }
    EncryptedInMode(lex, open, Context(newKey, db.meta.dbIdentity), db.meta.termsMode, nonces);
  }

  /** The index of a consistent database has nothing but words unless it is encrypted in keyed mode. */
  lemma IndexInMode(lex: Lexicon, db: Tables, ctx: Option<Context>)
    requires Indexed(lex, db, ctx)
    ensures if ctx.Some? && db.meta.termsMode == KeyedTerms then OnlyKeyed(db.terms, ctx.value) else OnlyWords(db.terms)
  {
    var s := SessionOf(db, ctx);
    forall p | p in db.terms
      ensures p.1 == MapTerm(s, Unmap(p.1))
    {
      InIndex(lex, s, db.messages, p.0, p.1);
      var i, w :| 0 <= i < |db.messages| && w in Tokenize(lex, PlainContent(ctx, db.messages[i]))
               && db.messages[i].id == p.0 && p.1 == MapTerm(s, w);
      UnmapMap(s, w);
    }
  }

  // ----- the two operations -----

  /** Enabling succeeds exactly on a plaintext database with a usable key whose sealed texts do not
      meet a later plaintext; the result is consistent under that key, hides the same plaintext and
      is indexed in the mode asked for. */
  lemma EnableCorrect(lex: Lexicon, db: Tables, ctx: Option<Context>, key: MasterKey, mode: TermsMode, nonces: Nonces)
    requires Consistent(lex, db, ctx)
    ensures var r, c := Enable(lex, db, key, mode, nonces), Context(key, db.meta.dbIdentity);
            && (r.Ok? <==> ctx.None? && UsableKey(key, db.meta.dbIdentity) && SealsCleanly(c, db.messages, nonces))
            && (r.Ok? ==> Consistent(lex, r.value, Some(c)) && Plain(r.value, Some(c)) == Plain(db, ctx)
                          && SealedInMode(db, r.value, c, mode))
  {
    if ctx.None? && UsableKey(key, db.meta.dbIdentity) {
      var c := Context(key, db.meta.dbIdentity);
      SourceKeysUnique(db.messages);
      EncryptTablesExactly(lex, db, c, mode, nonces);
      IndexIdsExist(lex, db, None);
      SealedTablesCorrect(lex, db, c, mode, nonces, Meta(true, Some(key.id16), db.meta.dbIdentity, mode));
      SealedTablesOpen(lex, db, c, mode, nonces);
      OpenRowsOfNone(db.embeddings, EmbeddingJson);
      OpenRowsOfNone(db.summaries, SummaryText);
      OpenRowsOfNone(db.agents, AgentValue);
      if SealsCleanly(c, db.messages, nonces) {
        SamePlain(lex, Enable(lex, db, key, mode, nonces).value, Some(c), db, None);
        EnabledInMode(lex, db, key, mode, nonces);
      }
    }
  }

  lemma SourceKeysUnique(ms: seq<MessageRow>)
    requires UniqueMessages(ms)
    ensures UniqueSourceKeys(ms)
  {
    forall i, j | 0 <= i < j < |ms|
      ensures !SameSourceKey(ms[i], ms[j])
    {
      assert !Clash(ms[i], ms[j]);
    }
  }

  lemma IndexIdsExist(lex: Lexicon, db: Tables, ctx: Option<Context>)
    requires Indexed(lex, db, ctx)
    ensures TermsOwned(db)
  {
  }

  lemma DecryptedMessagesAre(c: Context, sealed: seq<MessageRow>, open: seq<MessageRow>)
    requires OpenMessages(None, open) == OpenMessages(Some(c), sealed)
    ensures |open| == |sealed|
    ensures forall i :: 0 <= i < |sealed| ==>
              && open[i].id == sealed[i].id && open[i].ns == sealed[i].ns && open[i].sourceKey == sealed[i].sourceKey
              && open[i].content == PlainContent(Some(c), sealed[i])
  {
    assert |OpenMessages(None, open)| == |OpenMessages(Some(c), sealed)|;
    forall i | 0 <= i < |sealed|
      ensures OpenMessage(None, open[i]) == OpenMessage(Some(c), sealed[i])
    {
      assert OpenMessages(None, open)[i] == OpenMessages(Some(c), sealed)[i];
    }
  }

  lemma SameIdsExist(a: seq<MessageRow>, b: seq<MessageRow>, id: nat)
    requires |a| == |b| && forall i :: 0 <= i < |a| ==> a[i].id == b[i].id
    ensures MessageExists(a, id) ==> MessageExists(b, id)
  {
  }

  /** What rotation sees after decrypting is ready to be sealed again. */
  lemma DecryptedIsExposed(lex: Lexicon, db: Tables, c: Context, open: Tables)
    requires Consistent(lex, db, Some(c))
    requires Uncovered(db, c, open)
    ensures Exposed(lex, open, Session(Some(c), db.meta.termsMode))
  {
    DecryptedMessagesAre(c, db.messages, open.messages);
    forall i, j | 0 <= i < j < |open.messages|
      ensures !SameSourceKey(open.messages[i], open.messages[j])
    {
      assert !Clash(db.messages[i], db.messages[j]);
    }
    IndexIdsExist(lex, db, Some(c));
    forall id: nat
      ensures MessageExists(db.messages, id) ==> MessageExists(open.messages, id)
    {
      SameIdsExist(db.messages, open.messages, id);
    }
    if db.meta.termsMode == PlainTerms {
      RawIsIndex(lex, open.messages);
      SameIndex(lex, Session(Some(c), PlainTerms), db.messages, RawIndex(lex, PLAIN, open.messages), PLAIN, open.messages);
    }
  }

  /** Rotation succeeds exactly when encryption is on, both keys are usable, the old key has the
      recorded identifier and really is the sealing key (or nothing is sealed yet), and the plaintext
      fits the table on its way through it; then the result is consistent under the new key, hides
      the same plaintext and is indexed in the mode of before. */
  lemma RotateCorrect(lex: Lexicon, db: Tables, ctx: Option<Context>, oldKey: MasterKey, newKey: MasterKey, nonces: Nonces)
    requires Consistent(lex, db, ctx)
    ensures var r, c := Rotate(lex, db, oldKey, newKey, nonces), Context(newKey, db.meta.dbIdentity);
            && (r.Ok? <==> ctx.Some? && UsableKey(oldKey, db.meta.dbIdentity) && UsableKey(newKey, db.meta.dbIdentity)
                           && oldKey.id16 == ctx.value.master.id16
                           && (oldKey == ctx.value.master || NothingSealed(db))
                           && OpensCleanly(ctx.value, db.messages)
                           && SealsCleanly(c, OpenMessages(ctx, db.messages), nonces))
            && (r.Ok? ==> Consistent(lex, r.value, Some(c)) && Plain(r.value, Some(c)) == Plain(db, ctx)
                          && SealedInMode(db, r.value, c, db.meta.termsMode))
  {
    if ctx.Some? && RotationContexts(db, oldKey, newKey).Ok? {
      var contexts := RotationContexts(db, oldKey, newKey).value;
      SourceKeysUnique(db.messages);
      IndexIdsExist(lex, db, ctx);
      DecryptTablesExact(db, ctx.value, contexts.0);
      if DecryptTables(db, contexts.0).Ok? {
        var open := DecryptTables(db, contexts.0).value;
        Resealed(lex, db, ctx.value, open, contexts.1, nonces, EncryptTables(lex, open, contexts.1, db.meta.termsMode, nonces));
        if Rotate(lex, db, oldKey, newKey, nonces).Ok? {
          RotatedInMode(lex, db, oldKey, newKey, nonces);
        }
      }
    }
  }

  lemma UncoveredSeals(db: Tables, c: Context, open: Tables, cNew: Context, nonces: Nonces)
    requires Uncovered(db, c, open)
    ensures SealsCleanly(cNew, open.messages, nonces) <==> SealsCleanly(cNew, OpenMessages(Some(c), db.messages), nonces)
  {
    SameTextsSeal(cNew, open.messages, OpenMessages(None, open.messages), nonces);
  }

  lemma ResealsExactly(lex: Lexicon, db: Tables, c: Context, open: Tables, cNew: Context, nonces: Nonces)
    requires Consistent(lex, db, Some(c)) && Uncovered(db, c, open) && '|' !in cNew.dbIdentity
    ensures EncryptTables(lex, open, cNew, db.meta.termsMode, nonces) ==
              if SealsCleanly(cNew, OpenMessages(Some(c), db.messages), nonces)
              then Ok(SealedTables(lex, open, cNew, db.meta.termsMode, nonces)) else Err(Integrity)
  {
    DecryptedIsExposed(lex, db, c, open);
    EncryptTablesExactly(lex, open, cNew, db.meta.termsMode, nonces);
    UncoveredSeals(db, c, open, cNew, nonces);
  }

  lemma Resealed(lex: Lexicon, db: Tables, c: Context, open: Tables, cNew: Context, nonces: Nonces, r: Result<Tables, Failure>)
    requires Consistent(lex, db, Some(c)) && Uncovered(db, c, open)
    requires cNew.dbIdentity == db.meta.dbIdentity && UsableKey(cNew.master, cNew.dbIdentity)
    requires r == EncryptTables(lex, open, cNew, db.meta.termsMode, nonces)
    ensures r.Ok? <==> SealsCleanly(cNew, OpenMessages(Some(c), db.messages), nonces)
    ensures r.Ok? ==> var db' := r.value.(meta := db.meta.(keyId := Some(cNew.master.id16)));
                      Consistent(lex, db', Some(cNew)) && Plain(db', Some(cNew)) == Plain(db, Some(c))
  {
    ResealsExactly(lex, db, c, open, cNew, nonces);
    DecryptedIsExposed(lex, db, c, open);
    RotatedCorrect(lex, db, c, open, cNew, nonces);
  }

  lemma SameTextsSeal(c: Context, a: seq<MessageRow>, b: seq<MessageRow>, nonces: Nonces)
    requires |a| == |b| && forall i :: 0 <= i < |a| ==> b[i] == a[i].(fingerprint := None)
    ensures SealsCleanly(c, a, nonces) <==> SealsCleanly(c, b, nonces)
  {
    forall i, j | 0 <= i < j < |a|
      ensures SameDedupeKey(SealMessage(c, a[i], nonces), a[j]) == SameDedupeKey(SealMessage(c, b[i], nonces), b[j])
    {
    }
  }

  lemma RotatedCorrect(lex: Lexicon, db: Tables, c: Context, open: Tables, cNew: Context, nonces: Nonces)
    requires Consistent(lex, db, Some(c))
    requires Exposed(lex, open, Session(Some(c), db.meta.termsMode)) && Uncovered(db, c, open)
    requires cNew.dbIdentity == db.meta.dbIdentity && UsableKey(cNew.master, cNew.dbIdentity)
    ensures var db' := SealedTables(lex, open, cNew, db.meta.termsMode, nonces).(meta := db.meta.(keyId := Some(cNew.master.id16)));
            Consistent(lex, db', Some(cNew)) && Plain(db', Some(cNew)) == Plain(db, Some(c))
  {
    var meta := db.meta.(keyId := Some(cNew.master.id16));
    var db' := SealedTables(lex, open, cNew, db.meta.termsMode, nonces).(meta := meta);
    SealedTablesCorrect(lex, open, cNew, db.meta.termsMode, nonces, meta);
    SealedTablesOpen(lex, open, cNew, db.meta.termsMode, nonces);
    SamePlain(lex, db', Some(cNew), db, Some(c));
  }

  /** A plaintext database is its own plaintext. */
  lemma PlainOfPlain(lex: Lexicon, db: Tables)
    requires Consistent(lex, db, None)
    ensures Plain(db, None) == db
  {
  }
}
