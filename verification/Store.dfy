/** The mutable side: the database file, the store with its cached crypto state, and the methods
    that change them in place, each tied to the functions of the other modules. */
module Store {
  import opened Basics
  import opened Crypto
  import opened Tokenizer
  import opened Rows
  import opened Inserts
  import opened Fields
  import opened Runs

  /** The tables of one database file. A transaction works on them directly; `Rollback` puts the
      snapshot taken at its begin back. */
  class Database {
    var messages: seq<MessageRow>
    var embeddings: seq<EmbeddingRow>
    var summaries: seq<SummaryRow>
    var agents: seq<AgentRow>
    var terms: set<(nat, Token)>
    var meta: Meta
    var sequence: nat

    function Contents(): Tables
      reads this
    {
      Tables(messages, embeddings, summaries, agents, terms, meta, sequence)
    }

    constructor (t: Tables)
      ensures Contents() == t
    {
      messages, embeddings, summaries, agents, terms, meta, sequence :=
        t.messages, t.embeddings, t.summaries, t.agents, t.terms, t.meta, t.sequence;
    }

    method Rollback(snapshot: Tables)
      modifies this
      ensures Contents() == snapshot
    {
      messages, embeddings, summaries, agents, terms, meta, sequence :=
        snapshot.messages, snapshot.embeddings, snapshot.summaries, snapshot.agents, snapshot.terms, snapshot.meta, snapshot.sequence;
    }
  }

  /** `fault` is the number of statements that go through before one fails, if any does. */
  predicate Survives(fault: Option<nat>, statements: nat) {
    fault.None? || fault.value >= statements
  }

  predicate FailsAt(fault: Option<nat>, statement: nat) {
    fault.Some? && fault.value == statement
  }

  /** A batch that began at the snapshot has come to record i. */
  ghost predicate Reached(lex: Lexicon, snapshot: Tables, s: Session, records: seq<Record>, i: nat, nonces: Nonces, now: Tables, inserted: nat)
    requires i <= |records|
  {
    now == InsertBatch(lex, snapshot, s, records[..i], nonces) && |now.messages| == |snapshot.messages| + inserted
  }

  lemma ReachedNothing(lex: Lexicon, snapshot: Tables, s: Session, records: seq<Record>, nonces: Nonces)
    ensures Reached(lex, snapshot, s, records, 0, nonces, snapshot, 0)
  {
    assert records[..0] == [];
  }

  lemma ReachedEnd(lex: Lexicon, snapshot: Tables, s: Session, records: seq<Record>, nonces: Nonces, now: Tables, inserted: nat)
    requires Reached(lex, snapshot, s, records, |records|, nonces, now, inserted)
    ensures now == InsertBatch(lex, snapshot, s, records, nonces) && |now.messages| == |snapshot.messages| + inserted
  {
    assert records[..|records|] == records;
  }

  class MemoryStore {
    const lex: Lexicon
    const db: Database
    var keyFile: Option<MasterKey>
    var cryptoEnabled: Option<bool>
    var cryptoCtx: Option<Context>
    var termsMode: TermsMode

    constructor (lex: Lexicon, db: Database, keyFile: Option<MasterKey>)
      ensures this.lex == lex && this.db == db && this.keyFile == keyFile && Cached().None?
    {
      this.lex, this.db, this.keyFile := lex, db, keyFile;
      cryptoEnabled, cryptoCtx, termsMode := None, None, PlainTerms;
    }

    /** The session remembered from an earlier resolution. */
    function Cached(): Option<Session>
      reads this
    {
      match cryptoEnabled
      case None => None
      case Some(enabled) => Some(Session(if enabled then cryptoCtx else None, termsMode))
    }

    /** The session the next operation uses: the cached one, however old, or a fresh one. */
    function NextSession(): Result<Session, CryptoError>
      reads this, db
    {
      if Cached().Some? then Ok(Cached().value) else Resolve(db.meta, keyFile)
    }

    method InvalidateCryptoCache()
      modifies this
      ensures Cached().None? && keyFile == old(keyFile)
    {
      cryptoCtx := None;
      cryptoEnabled := None;
      termsMode := PlainTerms;
    }

    method EncryptionContext() returns (r: Result<Session, CryptoError>)
      modifies this
      ensures r == old(NextSession()) && keyFile == old(keyFile)
      ensures Cached() == if r.Ok? then Some(r.value) else None
    {
      if cryptoEnabled.Some? {
        return Ok(Session(if cryptoEnabled.value then cryptoCtx else None, termsMode));
      }
      if !db.meta.enabled {
        cryptoEnabled := Some(false);
        termsMode := db.meta.termsMode;
        return Ok(Session(None, termsMode));
      }
      termsMode := db.meta.termsMode;
      if keyFile.None? {
        return Err(InvalidKey);
      }
      var ctx := MakeContext(keyFile.value, db.meta.dbIdentity);
      if ctx.Err? {
        return Err(ctx.error);
      }
      var expected := db.meta.keyId;
      if expected.Some? && expected.value != "" && ctx.value.master.id16 != expected.value {
        return Err(WrongKey);
      }
      cryptoCtx := Some(ctx.value);
      cryptoEnabled := Some(true);
      return Ok(Session(cryptoCtx, termsMode));
    }

    /** index_message_terms. */
    method IndexMessageTerms(s: Session, id: nat, content: Text)
      modifies db
      ensures db.Contents() == old(db.Contents()).(terms := ReplaceTerms(lex, old(db.terms), s, id, content))
    {
      db.terms := set p | p in db.terms && p.0 != id;
      var words := TokenizeForIndex(lex, content);
      if words == [] {
        assert TermRows(lex, s, id, content) == {};
        return;
      }
      db.terms := db.terms + set w | w in words :: (id, MapTerm(s, w));
    }

    /** One round of the insertion loop. */
    method InsertOne(s: Session, rec: Record, nonces: Nonces) returns (n: nat)
      modifies db
      ensures db.Contents() == InsertRecord(lex, old(db.Contents()), s, rec, nonces)
      ensures |db.messages| == |old(db.messages)| + n
    {
      if s.ctx.Some? && NoSourceKey(rec) {
        var fp := Fingerprint(s.ctx.value, rec.ns, rec.content);
        if FingerprintKnown(db.messages, rec.ns, fp) {
          return 0;
        }
      }
      var id := NextId(db.Contents(), s);
      var row := StoredMessage(s, id, rec, nonces);
      db.sequence := Larger(db.sequence, id);
      if ClashesWith(db.messages, row) {
        return 0;
      }
      db.messages := db.messages + [row];
      IndexMessageTerms(s, id, rec.content);
      return 1;
    }

    /** The round for record i of a batch that began at the snapshot. */
    method InsertNext(s: Session, records: seq<Record>, i: nat, nonces: Nonces, ghost snapshot: Tables, inserted: nat) returns (inserted': nat)
      requires i < |records| && Reached(lex, snapshot, s, records, i, nonces, db.Contents(), inserted)
      modifies db
      ensures Reached(lex, snapshot, s, records, i + 1, nonces, db.Contents(), inserted')
    {
      ghost var mid := db.Contents();
      var n := InsertOne(s, records[i], nonces);
      InsertBatchOneMore(lex, s, snapshot, records, i, nonces, mid, db.Contents());
      return inserted + n;
    }

    /** The loop of insert_messages between BEGIN IMMEDIATE and COMMIT. */
    method InsertAll(s: Session, records: seq<Record>, nonces: Nonces, fault: Option<nat>) returns (r: Option<nat>)
      modifies db
      ensures r.Some? <==> Survives(fault, |records|)
      ensures r.Some? ==> Reached(lex, old(db.Contents()), s, records, |records|, nonces, db.Contents(), r.value)
      ensures r.None? ==> db.Contents() == old(db.Contents())
    {
      var snapshot := db.Contents();
      var inserted, i := 0, 0;
      ReachedNothing(lex, snapshot, s, records, nonces);
      while i < |records|
        invariant 0 <= i <= |records| && Reached(lex, snapshot, s, records, i, nonces, db.Contents(), inserted)
        invariant fault.Some? ==> i <= fault.value
      {
        if FailsAt(fault, i) {
          db.Rollback(snapshot);
          return None;
        }
        inserted := InsertNext(s, records, i, nonces, snapshot, inserted);
        i := i + 1;
      }
      return Some(inserted);
    }

    method InsertMessages(records: seq<Record>, nonces: Nonces, fault: Option<nat>) returns (r: Result<nat, Failure>)
      modifies this, db
      ensures keyFile == old(keyFile)
      ensures r.Ok? <==> records == [] || (old(NextSession()).Ok? && Survives(fault, |records|))
      ensures r.Err? ==> db.Contents() == old(db.Contents())
      ensures r.Ok? && records == [] ==> r.value == 0 && db.Contents() == old(db.Contents())
      ensures r.Ok? ==> |db.messages| == |old(db.messages)| + r.value
      ensures r.Ok? && records != [] ==>
                && db.Contents() == InsertBatch(lex, old(db.Contents()), old(NextSession()).value, records, nonces)
                && Cached() == Some(old(NextSession()).value)
      ensures records == [] ==> Cached() == old(Cached())
    {
      if records == [] {
        return Ok(0);
      }
      var session := EncryptionContext();
      if session.Err? {
        return Err(CryptoFailure(session.error));
      }
      ghost var snapshot := db.Contents();
      var n := InsertAll(session.value, records, nonces, fault);
      if n.Some? {
        ReachedEnd(lex, snapshot, session.value, records, nonces, db.Contents(), n.value);
      }
      return if n.Some? then Ok(n.value) else Err(Interrupted);
    }

    method SaveEmbedding(messageId: nat, json: Text, nonces: Nonces) returns (r: Result<(), Failure>)
      modifies this, db
      ensures old(NextSession()).Err? ==> r == Err(CryptoFailure(old(NextSession()).error))
      ensures old(NextSession()).Ok? ==>
                var o := Fields.SaveEmbedding(old(db.Contents()), old(NextSession()).value, messageId, json, nonces);
                (r.Ok? <==> o.Ok?) && (o.Ok? ==> db.Contents() == o.value) && (o.Err? ==> r == Err(o.error))
      ensures r.Err? ==> db.Contents() == old(db.Contents())
    {
      var session := EncryptionContext();
      if session.Err? {
        return Err(CryptoFailure(session.error));
      }
      var s := session.value;
      var found := FirstIndex(db.embeddings, (e: EmbeddingRow) => e.key == messageId);
      if found.None? {
        if !MessageExists(db.messages, messageId) {
          return Err(Integrity);
        }
        var id := NextRowId(db.embeddings);
        var store := SealText(s.ctx, json, EmbeddingJson, id, nonces);
        db.embeddings := db.embeddings + [Row(id, messageId, store)];
      } else {
        var row := db.embeddings[found.value];
        var store := SealText(s.ctx, json, EmbeddingJson, row.id, nonces);
        db.embeddings := db.embeddings[found.value := row.(body := store)];
      }
      return Ok(());
    }

    method UpsertSummary(rec: Summary, nonces: Nonces, fault: Option<nat>) returns (r: Result<bool, Failure>)
      modifies this, db
      ensures r.Ok? ==> old(NextSession()).Ok? && Cached() == Some(old(NextSession()).value)
      ensures r.Ok? ==> (db.Contents(), r.value) == Fields.UpsertSummary(old(db.Contents()), old(NextSession()).value, rec, nonces)
      ensures r.Err? ==> db.Contents() == old(db.Contents())
      ensures fault.None? ==> (r.Ok? <==> old(NextSession()).Ok?)
    {
      var session := EncryptionContext();
      if session.Err? {
        return Err(CryptoFailure(session.error));
      }
      var s := session.value;
      var snapshot := db.Contents();
      if !(exists i :: 0 <= i < |db.summaries| && SummaryFor(db.summaries[i], rec)) {
        var id := NextRowId(db.summaries);
        var store := SealText(s.ctx, rec.text, SummaryText, id, nonces);
        db.summaries := db.summaries + [Row(id, SummaryKey(rec.project, rec.conversation, rec.technique, rec.createdAt), store)];
        return Ok(true);
      }
      var i := 0;
      while i < |db.summaries|
        invariant 0 <= i <= |db.summaries| == |snapshot.summaries| && Cached() == Some(s)
        invariant db.Contents() == snapshot.(summaries := db.summaries)
        invariant forall k :: 0 <= k < i ==> db.summaries[k] == UpdatedSummary(s, snapshot.summaries[k], rec, nonces)
        invariant forall k :: i <= k < |db.summaries| ==> db.summaries[k] == snapshot.summaries[k]
      {
        var row := db.summaries[i];
        if SummaryFor(row, rec) {
          if FailsAt(fault, i) {
            db.Rollback(snapshot);
            return Err(Interrupted);
          }
          var store := SealText(s.ctx, rec.text, SummaryText, row.id, nonces);
          db.summaries := db.summaries[i := Row(row.id, row.key.(technique := rec.technique, createdAt := rec.createdAt), store)];
        }
        i := i + 1;
      }
      assert db.summaries == Fields.UpsertSummary(snapshot, s, rec, nonces).0.summaries;
      return Ok(false);
    }

    method SetAgentState(slot: AgentKey, value: Text, nonces: Nonces) returns (r: Result<(), CryptoError>)
      modifies this, db
      ensures r.Ok? <==> old(NextSession()).Ok?
      ensures r.Ok? ==> db.Contents() == Fields.SetAgentState(old(db.Contents()), old(NextSession()).value, slot, value, nonces)
      ensures r.Err? ==> db.Contents() == old(db.Contents())
    {
      var session := EncryptionContext();
      if session.Err? {
        return Err(session.error);
      }
      var s := session.value;
      var found := FirstIndex(db.agents, (a: AgentRow) => SameSlot(a.key, slot));
      if found.None? {
        var id := NextRowId(db.agents);
        db.agents := db.agents + [Row(id, slot, SealText(s.ctx, value, AgentValue, id, nonces))];
      } else {
        var row := db.agents[found.value];
        var store := SealText(s.ctx, value, AgentValue, row.id, nonces);
        db.agents := db.agents[found.value := Row(row.id, row.key.(updatedAt := slot.updatedAt), store)];
      }
      return Ok(());
    }

    /** The embedding of a message that is there, inside a transaction. */
    method WriteEmbedding(s: Session, id: nat, json: Text, nonces: Nonces)
      requires MessageExists(db.messages, id)
      modifies db
      ensures Fields.SaveEmbedding(old(db.Contents()), s, id, json, nonces) == Ok(db.Contents())
    {
      var found := FirstIndex(db.embeddings, (e: EmbeddingRow) => e.key == id);
      if found.None? {
        var eid := NextRowId(db.embeddings);
        db.embeddings := db.embeddings + [Row(eid, id, SealText(s.ctx, json, EmbeddingJson, eid, nonces))];
      } else {
        var row := db.embeddings[found.value];
        db.embeddings := db.embeddings[found.value := row.(body := SealText(s.ctx, json, EmbeddingJson, row.id, nonces))];
      }
    }

    /** The statements of one facade transaction that can fail: message, embedding, terms and commit, or the
        commit alone when the content is there already. */
    function FacadeStatements(o: Result<(Tables, Stored), Failure>): nat {
      if o.Ok? && o.value.1.Duplicate? then 1 else 4
    }

    method StoreFacadeMemoryWithEmbedding(rec: Record, embedding: Text, nonces: Nonces, fault: Option<nat>)
      returns (r: Result<Stored, Failure>)
      modifies this, db
      ensures r.Err? ==> db.Contents() == old(db.Contents())
      ensures old(NextSession()).Err? ==> r == Err(CryptoFailure(old(NextSession()).error))
      ensures old(NextSession()).Ok? ==>
                var o := StoreFacade(lex, old(db.Contents()), old(NextSession()).value, rec, embedding, nonces);
                && (r.Ok? <==> o.Ok? && Survives(fault, FacadeStatements(o)))
                && (r.Ok? ==> r.value == o.value.1 && db.Contents() == o.value.0)
                && (r.Err? ==> r.error == if o.Err? && !FailsAt(fault, 0) then o.error else Interrupted)
    {
      var session := EncryptionContext();
      if session.Err? {
        return Err(CryptoFailure(session.error));
      }
      var s := session.value;
      var snapshot := db.Contents();
      var existing := FindExact(snapshot, s, rec.ns, rec.content);
      if existing.Some? {
        return if FailsAt(fault, 0) then Err(Interrupted) else Ok(Duplicate(existing.value));
      }
      var id := NextId(snapshot, s);
      var row := StoredMessage(s, id, rec, nonces);
      if FailsAt(fault, 0) || ClashesWith(db.messages, row) {
        db.Rollback(snapshot);
        return Err(if FailsAt(fault, 0) then Interrupted else Integrity);
      }
      db.messages := db.messages + [row];
      db.sequence := Larger(db.sequence, id);
      assert db.messages[|snapshot.messages|].id == id;
      if FailsAt(fault, 1) {
        db.Rollback(snapshot);
        return Err(Interrupted);
      }
      WriteEmbedding(s, id, embedding, nonces);
      if FailsAt(fault, 2) {
        db.Rollback(snapshot);
        return Err(Interrupted);
      }
      IndexMessageTerms(s, id, rec.content);
      if FailsAt(fault, 3) {
        db.Rollback(snapshot);
        return Err(Interrupted);
      }
      return Ok(Inserted(id));
    }
  }
}
