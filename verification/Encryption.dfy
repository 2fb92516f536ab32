/** enable_encryption and rotate_encryption as the loops they are (encryption.py): every row is
    rewritten in place inside one transaction, a few messages are verified, then the metadata
    row is updated; any failure puts the snapshot back. */
module Encryption {
  import opened Basics
  import opened Crypto
  import opened Tokenizer
  import opened Rows
  import opened Inserts
  import opened Fields
  import opened Lifecycle
  import opened Store

  const MAX_VERIFY_SAMPLES := 5

  function RowCount(db: Tables): nat {
    |db.messages| + |db.embeddings| + |db.summaries| + |db.agents|
  }

  /** Seals the protected column of every row; `done` statements went before. */
  method SealTable<K>(c: Context, rows: seq<Row<K>>, site: Site, nonces: Nonces, fault: Option<nat>, done: nat)
    returns (ok: bool, out: seq<Row<K>>)
    requires Survives(fault, done)
    ensures ok <==> Survives(fault, done + |rows|)
    ensures ok ==> out == SealRows(c, rows, site, nonces)
  {
    out := rows;
    var i := 0;
    while i < |rows|
      invariant 0 <= i <= |rows| == |out| && Survives(fault, done + i)
      invariant forall k :: 0 <= k < i ==> out[k] == SealRow(c, rows[k], site, nonces)
      invariant forall k :: i <= k < |rows| ==> out[k] == rows[k]
    {
      if FailsAt(fault, done + i) {
        return false, out;
      }
      out := out[i := out[i].(body := EncryptField(c, out[i].body, site, out[i].id, nonces(site, out[i].id)))];
      i := i + 1;
    }
    return true, out;
  }

  lemma DecryptRowsFails<K>(c: Context, rows: seq<Row<K>>, site: Site, i: nat)
    requires i < |rows| && DecryptRow(c, rows[i], site).Err?
    requires forall k :: 0 <= k < i ==> DecryptRow(c, rows[k], site).Ok?
    ensures DecryptRows(c, rows, site) == Err(DecryptRow(c, rows[i], site).error)
  {
  }

  lemma DecryptRowsSucceeds<K>(c: Context, rows: seq<Row<K>>, site: Site, out: seq<Row<K>>)
    requires |out| == |rows| && forall k :: 0 <= k < |rows| ==> DecryptRow(c, rows[k], site) == Ok(out[k])
    ensures DecryptRows(c, rows, site) == Ok(out)
  {
    var first := FirstIndex(rows, (r: Row<K>) => DecryptRow(c, r, site).Err?);
    assert first.None?;
    assert DecryptRows(c, rows, site).value == out;
  }

  /** Opens the protected column of every row; the first row that does not open decides the error. */
  method OpenTable<K>(c: Context, rows: seq<Row<K>>, site: Site, fault: Option<nat>, done: nat)
    returns (r: Result<seq<Row<K>>, Failure>)
    requires Survives(fault, done)
    ensures var spec := DecryptRows(c, rows, site);
            && (r.Ok? <==> spec.Ok? && Survives(fault, done + |rows|))
            && (r.Ok? ==> r.value == spec.value)
            && (r.Err? && fault.None? ==> spec.Err? && r.error == CryptoFailure(spec.error))
  {
    var out := rows;
    var i := 0;
    while i < |rows|
      invariant 0 <= i <= |rows| == |out| && Survives(fault, done + i)
      invariant forall k :: 0 <= k < i ==> DecryptRow(c, rows[k], site) == Ok(out[k])
      invariant forall k :: i <= k < |rows| ==> out[k] == rows[k]
    {
      var plain := DecryptRow(c, rows[i], site);
      if plain.Err? {
        DecryptRowsFails(c, rows, site, i);
        return Err(CryptoFailure(plain.error));
      }
      if FailsAt(fault, done + i) {
        return Err(Interrupted);
      }
      out := out[i := plain.value];
      i := i + 1;
    }
    DecryptRowsSucceeds(c, rows, site, out);
    return Ok(out);
  }

  // ----- messages: content, metadata, fingerprint and, when keyed, the index -----

  /** Re-indexing one more message extends the re-indexed part. */
  lemma ReindexedAppend(lex: Lexicon, terms: set<(nat, Token)>, c: Context, ms: seq<MessageRow>, i: nat)
    requires OrderedMessages(ms) && i < |ms|
    ensures Reindexed(lex, terms, c, ms[..i + 1])
         == ReplaceTerms(lex, Reindexed(lex, terms, c, ms[..i]), Session(Some(c), KeyedTerms), ms[i].id, ms[i].content)
  {
  }

  /** The tables when the first i messages have been sealed. */
  function SealedUpTo(lex: Lexicon, start: Tables, c: Context, mode: TermsMode, nonces: Nonces, i: nat): Tables
    requires i <= |start.messages|
  {
    start.(messages := SealMessages(c, start.messages[..i], nonces) + start.messages[i..],
           terms := if mode == KeyedTerms then Reindexed(lex, start.terms, c, start.messages[..i]) else start.terms)
  }

  ghost predicate HasSealed(lex: Lexicon, start: Tables, now: Tables, c: Context, mode: TermsMode, nonces: Nonces, i: nat) {
    i <= |start.messages| && now == SealedUpTo(lex, start, c, mode, nonces, i)
  }

  lemma SealedUpToNone(lex: Lexicon, start: Tables, c: Context, mode: TermsMode, nonces: Nonces)
    ensures SealedUpTo(lex, start, c, mode, nonces, 0) == start
  {
  }

  lemma SealedUpToAll(lex: Lexicon, start: Tables, c: Context, mode: TermsMode, nonces: Nonces)
    ensures SealedUpTo(lex, start, c, mode, nonces, |start.messages|) == start.(
              messages := SealMessages(c, start.messages, nonces),
              terms := if mode == KeyedTerms then Reindexed(lex, start.terms, c, start.messages) else start.terms)
  {
  }

  lemma SealNextMessage(c: Context, ms: seq<MessageRow>, nonces: Nonces, i: nat)
    requires i < |ms|
    ensures var now := SealMessages(c, ms[..i], nonces) + ms[i..];
            now[i] == ms[i]
            && SealMessages(c, ms[..i + 1], nonces) + ms[i + 1..] == now[i := SealMessage(c, ms[i], nonces)]
  {
  }

  /** The loop is at row i: the first i messages are sealed, and what is left to do decides its outcome. */
  ghost predicate Sealing(lex: Lexicon, start: Tables, now: Tables, c: Context, mode: TermsMode, nonces: Nonces, i: nat) {
    && HasSealed(lex, start, now, c, mode, nonces, i) && i <= |now.messages| == |start.messages|
    && Rewrite(now.messages, i, Sealer(c, nonces)) == Rewrite(start.messages, 0, Sealer(c, nonces))
  }

  lemma SealingStarts(lex: Lexicon, start: Tables, c: Context, mode: TermsMode, nonces: Nonces)
    ensures Sealing(lex, start, start, c, mode, nonces, 0)
  {
    SealedUpToNone(lex, start, c, mode, nonces);
  }

  lemma SealingEnds(lex: Lexicon, start: Tables, now: Tables, c: Context, mode: TermsMode, nonces: Nonces)
    requires Sealing(lex, start, now, c, mode, nonces, |start.messages|)
    ensures Rewrite(start.messages, 0, Sealer(c, nonces)) == Ok(now.messages)
  {
  }

  /** One round of the message loop of _encrypt_all_rows; the unique indexes may refuse the row. */
  method SealMessageAt(lex: Lexicon, db: Database, c: Context, mode: TermsMode, nonces: Nonces, i: nat, ghost start: Tables)
    returns (ok: bool)
    requires OrderedMessages(start.messages) && i < |start.messages|
    requires Sealing(lex, start, db.Contents(), c, mode, nonces, i)
    modifies db
    ensures ok ==> Sealing(lex, start, db.Contents(), c, mode, nonces, i + 1)
    ensures !ok ==> Rewrite(start.messages, 0, Sealer(c, nonces)) == Err(Integrity)
  {
    SealNextMessage(c, start.messages, nonces, i);
    var row := db.messages[i];
    var content := EncryptField(c, row.content, MessageContent, row.id, nonces(MessageContent, row.id));
    var metadata := EncryptField(c, row.metadata, MessageMetadata, row.id, nonces(MessageMetadata, row.id));
    var fp := Fingerprint(c, row.ns, row.content);
    var sealed := row.(content := content, metadata := metadata, fingerprint := Some(fp));
    if ClashesElsewhere(db.messages, i, sealed) {
      return false;
    }
    db.messages := db.messages[i := sealed];
    if mode == KeyedTerms {
      ReindexedAppend(lex, start.terms, c, start.messages, i);
      ReindexTermsKeyed(lex, db, c, row.id, row.content);
    }
    return true;
  }

  /** The message loop of _encrypt_all_rows. */
  method SealMessageTable(lex: Lexicon, db: Database, c: Context, mode: TermsMode, nonces: Nonces, fault: Option<nat>, done: nat)
    returns (r: Result<(), Failure>)
    requires OrderedMessages(db.messages) && Survives(fault, done)
    modifies db
    ensures r.Ok? <==> Rewrite(old(db.messages), 0, Sealer(c, nonces)).Ok? && Survives(fault, done + |old(db.messages)|)
    ensures r.Ok? ==> Sealing(lex, old(db.Contents()), db.Contents(), c, mode, nonces, |old(db.messages)|)
    ensures r.Err? && fault.None? ==> Rewrite(old(db.messages), 0, Sealer(c, nonces)) == Err(r.error)
  {
    var n := |db.messages|;
    ghost var start := db.Contents();
    SealingStarts(lex, start, c, mode, nonces);
    var i := 0;
    while i < n
      invariant 0 <= i <= n && Survives(fault, done + i)
      invariant Sealing(lex, start, db.Contents(), c, mode, nonces, i)
    {
      if FailsAt(fault, done + i) {
        return Err(Interrupted);
      }
      var ok := SealMessageAt(lex, db, c, mode, nonces, i, start);
      if !ok {
        return Err(Integrity);
      }
      i := i + 1;
    }
    SealingEnds(lex, start, db.Contents(), c, mode, nonces);
    return Ok(());
  }

  method ReindexTermsKeyed(lex: Lexicon, db: Database, c: Context, id: nat, plain: Text)
    modifies db
    ensures db.Contents() == old(db.Contents()).(
              terms := ReplaceTerms(lex, old(db.terms), Session(Some(c), KeyedTerms), id, plain))
  {
    db.terms := set p | p in db.terms && p.0 != id;
    var words := TokenizeForIndex(lex, plain);
    if words == [] {
      assert TermRows(lex, Session(Some(c), KeyedTerms), id, plain) == {};
      return;
    }
    db.terms := db.terms + set w | w in words :: (id, KeyedToken(c, w));
    assert (set w | w in words :: (id, KeyedToken(c, w))) == TermRows(lex, Session(Some(c), KeyedTerms), id, plain);
  }

  method OpenMessageRow(c: Context, row: MessageRow) returns (r: Result<MessageRow, CryptoError>)
    ensures r == DecryptMessage(c, row)
  {
    var content := DecryptField(c, row.content, MessageContent, row.id);
    if content.Err? {
      return Err(content.error);
    }
    var metadata := DecryptField(c, row.metadata, MessageMetadata, row.id);
    if metadata.Err? {
      return Err(metadata.error);
    }
    return Ok(row.(content := content.value, metadata := metadata.value));
  }

  /** The message loop of _decrypt_all_rows_for_rotation. */
  method OpenMessageTable(db: Database, c: Context, fault: Option<nat>) returns (r: Result<(), Failure>)
    modifies db
    ensures var spec := DecryptMessages(c, old(db.messages));
            && (r.Ok? <==> spec.Ok? && Survives(fault, |old(db.messages)|))
            && (r.Ok? ==> db.Contents() == old(db.Contents()).(messages := spec.value))
            && (r.Err? && fault.None? ==> spec == Err(r.error))
  {
    var n := |db.messages|;
    ghost var start, spec := db.Contents(), DecryptMessages(c, db.messages);
    var i := 0;
    while i < n
      invariant 0 <= i <= n == |db.messages| && Survives(fault, i)
      invariant db.Contents() == start.(messages := db.messages)
      invariant Rewrite(db.messages, i, Opener(c)) == spec
    {
      var plain := OpenMessageRow(c, db.messages[i]);
      if plain.Err? {
        return Err(CryptoFailure(plain.error));
      }
      if FailsAt(fault, i) {
        return Err(Interrupted);
      }
      if ClashesElsewhere(db.messages, i, plain.value) {
        return Err(Integrity);
      }
      db.messages := db.messages[i := plain.value];
      i := i + 1;
    }
    return Ok(());
  }

  // ----- all tables -----

  method EncryptAllRows(lex: Lexicon, db: Database, c: Context, mode: TermsMode, nonces: Nonces, fault: Option<nat>, done: nat)
    returns (r: Result<(), Failure>)
    requires OrderedMessages(db.messages) && Survives(fault, done)
    modifies db
    ensures var spec := EncryptTables(lex, old(db.Contents()), c, mode, nonces);
            && (r.Ok? <==> spec.Ok? && Survives(fault, done + RowCount(old(db.Contents()))))
            && (r.Ok? ==> db.Contents() == spec.value && db.messages == SealMessages(c, old(db.messages), nonces))
            && (r.Err? && fault.None? ==> spec == Err(r.error))
  {
    var n := done + |db.messages|;
    SealedUpToAll(lex, db.Contents(), c, mode, nonces);
    ghost var start := db.Contents();
    r := SealMessageTable(lex, db, c, mode, nonces, fault, done);
    if r.Err? {
      return;
    }
    SealingEnds(lex, start, db.Contents(), c, mode, nonces);
    var ok, embeddings := SealTable(c, db.embeddings, EmbeddingJson, nonces, fault, n);
    if !ok {
      return Err(Interrupted);
    }
    n := n + |db.embeddings|;
    var summaries;
    ok, summaries := SealTable(c, db.summaries, SummaryText, nonces, fault, n);
    if !ok {
      return Err(Interrupted);
    }
    n := n + |db.summaries|;
    var agents;
    ok, agents := SealTable(c, db.agents, AgentValue, nonces, fault, n);
    if !ok {
      return Err(Interrupted);
    }
    db.embeddings, db.summaries, db.agents := embeddings, summaries, agents;
    return Ok(());
  }

  /** The loops of _decrypt_all_rows_for_rotation over the other three tables. */
  method OpenOtherTables(db: Database, c: Context, fault: Option<nat>, done: nat) returns (r: Result<(), Failure>)
    requires Survives(fault, done)
    modifies db
    ensures var es, ss, ags := DecryptRows(c, old(db.embeddings), EmbeddingJson), DecryptRows(c, old(db.summaries), SummaryText),
                               DecryptRows(c, old(db.agents), AgentValue);
            && (r.Ok? <==> es.Ok? && ss.Ok? && ags.Ok? && Survives(fault, done + |old(db.embeddings)| + |old(db.summaries)| + |old(db.agents)|))
            && (r.Ok? ==> db.Contents() == old(db.Contents()).(embeddings := es.value, summaries := ss.value, agents := ags.value))
            && (r.Err? && fault.None? ==>
                  r.error == CryptoFailure(if es.Err? then es.error else if ss.Err? then ss.error else ags.error))
  {
    var n := done;
    var embeddings := OpenTable(c, db.embeddings, EmbeddingJson, fault, n);
    if embeddings.Err? {
      return Err(embeddings.error);
    }
    n := n + |db.embeddings|;
    var summaries := OpenTable(c, db.summaries, SummaryText, fault, n);
    if summaries.Err? {
      return Err(summaries.error);
    }
    n := n + |db.summaries|;
    var agents := OpenTable(c, db.agents, AgentValue, fault, n);
    if agents.Err? {
      return Err(agents.error);
    }
    db.embeddings, db.summaries, db.agents := embeddings.value, summaries.value, agents.value;
    return Ok(());
  }

  method DecryptAllRows(db: Database, c: Context, fault: Option<nat>) returns (r: Result<(), Failure>)
    modifies db
    ensures var spec := DecryptTables(old(db.Contents()), c);
            && (r.Ok? <==> spec.Ok? && Survives(fault, RowCount(old(db.Contents()))))
            && (r.Ok? ==> db.Contents() == spec.value)
            && (r.Err? && fault.None? ==> spec == Err(r.error))
  {
    var n := |db.messages|;
    r := OpenMessageTable(db, c, fault);
    if r.Ok? {
      r := OpenOtherTables(db, c, fault, n);
    }
  }

  /** _verify_samples on the first messages that were encrypted: a check that can never fail. */
  method VerifySamples(messages: seq<MessageRow>, c: Context, plain: seq<MessageRow>, nonces: Nonces) returns (ok: bool)
    requires OrderedMessages(plain) && messages == SealMessages(c, plain, nonces)
    ensures ok
  {
    var i := 0;
    while i < |plain| && i < MAX_VERIFY_SAMPLES {
      var found := FirstIndex(messages, (m: MessageRow) => m.id == plain[i].id);
      assert messages[i].id == plain[i].id;
      if found.None? {
        return false;
      }
      assert found.value == i;
      var t := DecryptField(c, messages[found.value].content, MessageContent, plain[i].id);
      if t != Ok(plain[i].content) {
        return false;
      }
      i := i + 1;
    }
    return true;
  }

  /** Encrypting every row and verifying the samples, which never stops it. */
  method EncryptAndVerify(lex: Lexicon, db: Database, c: Context, mode: TermsMode, nonces: Nonces, fault: Option<nat>, done: nat)
    returns (r: Result<(), Failure>)
    requires OrderedMessages(db.messages) && Survives(fault, done)
    modifies db
    ensures var spec := EncryptTables(lex, old(db.Contents()), c, mode, nonces);
            && (r.Ok? <==> spec.Ok? && Survives(fault, done + RowCount(old(db.Contents()))))
            && (r.Ok? ==> db.Contents() == spec.value)
            && (r.Err? && fault.None? ==> spec == Err(r.error))
  {
    var plain := db.messages;
    r := EncryptAllRows(lex, db, c, mode, nonces, fault, done);
    if r.Ok? {
      var ok := VerifySamples(db.messages, c, plain, nonces);
      if !ok {
        return Err(Integrity);
      }
    }
  }

  /** Statements of a whole operation: one per row and pass, and the metadata update. */
  method EnableEncryption(lex: Lexicon, db: Database, master: MasterKey, mode: TermsMode, nonces: Nonces, fault: Option<nat>)
    returns (r: Result<string, Failure>)
    requires OrderedMessages(db.messages)
    modifies db
    ensures var spec := Enable(lex, old(db.Contents()), master, mode, nonces);
            && (r.Ok? <==> spec.Ok? && Survives(fault, RowCount(old(db.Contents())) + 1))
            && (r.Ok? ==> r.value == master.id16 && db.Contents() == spec.value)
            && (r.Ok? && TermsOwned(old(db.Contents())) ==>
                  SealedInMode(old(db.Contents()), db.Contents(), Context(master, old(db.meta.dbIdentity)), mode))
            && (r.Err? ==> db.Contents() == old(db.Contents()) && (fault.None? ==> r.error == spec.error))
  {
    var snapshot := db.Contents();
    if db.meta.enabled {
      return Err(WrongState);
    }
    var ctx := MakeContext(master, db.meta.dbIdentity);
    if ctx.Err? {
      return Err(CryptoFailure(ctx.error));
    }
    var sealed := EncryptAndVerify(lex, db, ctx.value, mode, nonces, fault, 0);
    if sealed.Err? || FailsAt(fault, RowCount(snapshot)) {
      db.Rollback(snapshot);
      return Err(if sealed.Err? then sealed.error else Interrupted);
    }
    db.meta := Meta(true, Some(master.id16), db.meta.dbIdentity, mode);
    if TermsOwned(snapshot) {
      EnabledInMode(lex, snapshot, master, mode, nonces);
    }
    return Ok(master.id16);
  }

  /** What the two passes of a rotation make of the rows. */
  function Resealing(lex: Lexicon, db: Tables, cOld: Context, cNew: Context, nonces: Nonces): Result<Tables, Failure> {
    match DecryptTables(db, cOld)
    case Err(e) => Err(e)
    case Ok(open) => EncryptTables(lex, open, cNew, db.meta.termsMode, nonces)
  }

  /** The two passes of a rotation. */
  method RotateRows(lex: Lexicon, db: Database, cOld: Context, cNew: Context, nonces: Nonces, fault: Option<nat>)
    returns (r: Result<(), Failure>)
    requires OrderedMessages(db.messages)
    modifies db
    ensures var spec := Resealing(lex, old(db.Contents()), cOld, cNew, nonces);
            && (r.Ok? <==> spec.Ok? && Survives(fault, 2 * RowCount(old(db.Contents()))))
            && (r.Ok? ==> db.Contents() == spec.value)
            && (r.Err? && fault.None? ==> spec == Err(r.error))
  {
    var n := |db.messages| + |db.embeddings| + |db.summaries| + |db.agents|;
    ghost var sealed := db.Contents();
    r := DecryptAllRows(db, cOld, fault);
    if r.Err? {
      return;
    }
    DecryptKeepsShape(sealed, cOld);
    ghost var open := db.Contents();
    r := EncryptAndVerify(lex, db, cNew, db.meta.termsMode, nonces, fault, n);
    SecondPass(lex, sealed, cOld, cNew, nonces, open, EncryptTables(lex, open, cNew, open.meta.termsMode, nonces));
  }

  /** After the first pass the second one decides. */
  lemma SecondPass(lex: Lexicon, sealed: Tables, cOld: Context, cNew: Context, nonces: Nonces, open: Tables, outcome: Result<Tables, Failure>)
    requires DecryptTables(sealed, cOld) == Ok(open) && EncryptTables(lex, open, cNew, open.meta.termsMode, nonces) == outcome
    ensures Resealing(lex, sealed, cOld, cNew, nonces) == outcome
  {
  }

  method RotateEncryption(lex: Lexicon, db: Database, oldKey: MasterKey, newKey: MasterKey, nonces: Nonces, fault: Option<nat>)
    returns (r: Result<string, Failure>)
    requires OrderedMessages(db.messages)
    modifies db
    ensures var spec := Rotate(lex, old(db.Contents()), oldKey, newKey, nonces);
            && (r.Ok? <==> spec.Ok? && Survives(fault, 2 * RowCount(old(db.Contents())) + 1))
            && (r.Ok? ==> r.value == newKey.id16 && db.Contents() == spec.value)
            && (r.Ok? && TermsOwned(old(db.Contents())) ==>
                  SealedInMode(old(db.Contents()), db.Contents(), Context(newKey, old(db.meta.dbIdentity)), old(db.meta.termsMode)))
            && (r.Err? ==> db.Contents() == old(db.Contents()) && (fault.None? ==> r.error == spec.error))
  {
    var snapshot := db.Contents();
    var contexts := RotationContexts(snapshot, oldKey, newKey);
    if contexts.Err? {
      return Err(contexts.error);
    }
    var rows := RotateRows(lex, db, contexts.value.0, contexts.value.1, nonces, fault);
    if rows.Err? {
      db.Rollback(snapshot);
      return Err(rows.error);
    }
    if FailsAt(fault, 2 * RowCount(snapshot)) {
      db.Rollback(snapshot);
      return Err(Interrupted);
    }
    db.meta := snapshot.meta.(keyId := Some(newKey.id16));
    if TermsOwned(snapshot) {
      RotatedInMode(lex, snapshot, oldKey, newKey, nonces);
    }
    return Ok(newKey.id16);
  }

  lemma DecryptKeepsShape(db: Tables, c: Context)
    requires DecryptTables(db, c).Ok? && OrderedMessages(db.messages)
    ensures OrderedMessages(DecryptTables(db, c).value.messages) && RowCount(DecryptTables(db, c).value) == RowCount(db)
  {
    DecryptKeepsIds(c, db.messages);
  }
}
