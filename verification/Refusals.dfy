/** Why enabling or rotating encryption fails (encryption.py, crypto.py): the one reason each failure reports. */
module Refusals {
  import opened Basics
  import opened Crypto
  import opened Tokenizer
  import opened Rows
  import opened Fields
  import opened Lifecycle

  /** Enabling is refused when encryption is on, else for the key, else because a sealed text meets a later plaintext. */
  lemma EnableFails(lex: Lexicon, db: Tables, ctx: Option<Context>, key: MasterKey, mode: TermsMode, nonces: Nonces)
    requires Consistent(lex, db, ctx)
    ensures var r := Enable(lex, db, key, mode, nonces);
            r.Err? ==> r.error == if ctx.Some? then WrongState
                                  else if !UsableKey(key, db.meta.dbIdentity) then CryptoFailure(InvalidKey)
                                  else Integrity
  {
    if ctx.None? && UsableKey(key, db.meta.dbIdentity) {
      OnlyIntegrity(db.messages, 0, Sealer(Context(key, db.meta.dbIdentity), nonces));
    }
  }

  /** A foreign key with the right identifier is told by the first sealed row. */
  lemma ForeignKeyTampers<K>(c: Context, rows: seq<Row<K>>, site: Site, c': Context)
    requires RowsSealed(c, rows, site) && c.dbIdentity == c'.dbIdentity && c.master.id16 == c'.master.id16 && c' != c && rows != []
    ensures DecryptRows(c', rows, site) == Err(Tamper)
  {
    assert DecryptRow(c', rows[0], site) == Err(Tamper);
    FirstIsZero(rows, (r: Row<K>) => DecryptRow(c', r, site).Err?);
  }

  lemma FirstIsZero<T>(xs: seq<T>, f: T -> bool)
    requires xs != [] && f(xs[0])
    ensures FirstIndex(xs, f) == Some(0)
  {
  }

  lemma EmptyOpens<K>(c: Context, site: Site)
    ensures DecryptRows<K>(c, [], site) == Ok([])
  {
    assert DecryptRows<K>(c, [], site).Ok? && |DecryptRows<K>(c, [], site).value| == 0;
  }

  lemma ForeignKeyFails(db: Tables, c: Context, c': Context)
    requires Protected(db, Some(c)) && c.dbIdentity == c'.dbIdentity && c.master.id16 == c'.master.id16 && c' != c && !NothingSealed(db)
    ensures DecryptTables(db, c') == Err(CryptoFailure(Tamper))
  {
    if db.messages != [] {
      assert MessageSealed(c, db.messages[0]);
      assert Opener(c')(db.messages[0]) == Err(CryptoFailure(Tamper));
    } else if db.embeddings != [] {
      ForeignKeyTampers(c, db.embeddings, EmbeddingJson, c');
    } else if db.summaries != [] {
      EmptyOpens<nat>(c', EmbeddingJson);
      ForeignKeyTampers(c, db.summaries, SummaryText, c');
    } else {
      EmptyOpens<nat>(c', EmbeddingJson);
      EmptyOpens<SummaryKey>(c', SummaryText);
      ForeignKeyTampers(c, db.agents, AgentValue, c');
    }
  }

  lemma SealingKeyFails(db: Tables, c: Context)
    requires Protected(db, Some(c)) && DecryptTables(db, c).Err?
    ensures DecryptTables(db, c).error == Integrity
  {
    forall i | 0 <= i < |db.messages|
      ensures Opener(c)(db.messages[i]).Ok?
    {
      assert MessageSealed(c, db.messages[i]);
    }
    OnlyIntegrity(db.messages, 0, Opener(c));
    DecryptRowsExact(c, db.embeddings, EmbeddingJson, c);
    DecryptRowsExact(c, db.summaries, SummaryText, c);
    DecryptRowsExact(c, db.agents, AgentValue, c);
  }

  /** Rotation is refused when encryption is off, else for the old key, its identifier or the new key, in this order, else
      because the old key is not the sealing key, else because two texts meet in the table. */
  lemma RotateFails(lex: Lexicon, db: Tables, ctx: Option<Context>, oldKey: MasterKey, newKey: MasterKey, nonces: Nonces)
    requires Consistent(lex, db, ctx)
    ensures var r := Rotate(lex, db, oldKey, newKey, nonces);
            r.Err? ==> r.error == if ctx.None? then WrongState
                                  else if !UsableKey(oldKey, db.meta.dbIdentity) then CryptoFailure(InvalidKey)
                                  else if oldKey.id16 != ctx.value.master.id16 then CryptoFailure(WrongKey)
                                  else if !UsableKey(newKey, db.meta.dbIdentity) then CryptoFailure(InvalidKey)
                                  else if oldKey != ctx.value.master && !NothingSealed(db) then CryptoFailure(Tamper)
                                  else Integrity
  {
    if ctx.Some? && RotationContexts(db, oldKey, newKey).Ok? {
      var (old', new') := RotationContexts(db, oldKey, newKey).value;
      if old' == ctx.value {
        if DecryptTables(db, old').Err? {
          SealingKeyFails(db, old');
        }
      } else if !NothingSealed(db) {
        ForeignKeyFails(db, ctx.value, old');
      }
      if DecryptTables(db, old').Ok? {
        OnlyIntegrity(DecryptTables(db, old').value.messages, 0, Sealer(new', nonces));
      }
    }
  }
}
