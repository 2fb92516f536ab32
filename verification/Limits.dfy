/** Consistent databases on which a promise ends (storage.py, search_index.py): the duplicate rules of the two
    modes part, and rebuilding the index of an encrypted database loses it. */
module Limits {
  import opened Basics
  import opened Crypto
  import opened Tokenizer
  import opened Rows
  import opened Inserts
  import opened Simulation
  import opened SearchIndex
  import opened Rotation

  /** A plaintext database in which nothing is stored yet. */
  function EmptyPlain(identity: string): Tables {
    Tables([], [], [], [], {}, Meta(false, None, identity, PlainTerms), 0)
  }

  lemma EmptyPlainIsConsistent(lex: Lexicon, identity: string)
    requires '|' !in identity && identity != ""
    ensures Consistent(lex, EmptyPlain(identity), None) && SessionOf(EmptyPlain(identity), None) == PLAIN
  {
    assert IndexOf(lex, PLAIN, []) == {};
  }

  lemma PlainFirst(lex: Lexicon, identity: string, r: Record, nonces: Nonces)
    ensures InsertRecord(lex, EmptyPlain(identity), PLAIN, r, nonces).messages == [StoredMessage(PLAIN, 1, r, nonces)]
  {
  }

  lemma PlainSecond(lex: Lexicon, db: Tables, r: Record, later: string, nonces: Nonces)
    requires db.messages == [StoredMessage(PLAIN, 1, r, nonces)] && r.sourceKey == None && later != r.timestamp
    ensures |InsertRecord(lex, db, PLAIN, r.(timestamp := later), nonces).messages| == 2
  {
    PlainSkip(lex, db, r.(timestamp := later), nonces);
  }

  /** Without encryption the same words said twice are two messages. */
  lemma PlainKeepsBoth(lex: Lexicon, identity: string, r: Record, later: string, nonces: Nonces)
    requires '|' !in identity && identity != "" && r.sourceKey == None && later != r.timestamp
    ensures var db := InsertBatch(lex, EmptyPlain(identity), PLAIN, [r, r.(timestamp := later)], nonces);
            Consistent(lex, db, None) && |db.messages| == 2
  {
    var db0, r' := EmptyPlain(identity), r.(timestamp := later);
    EmptyPlainIsConsistent(lex, identity);
    InsertBatchKeeps(lex, db0, None, [r, r'], nonces);
    BatchOfTwo(lex, db0, PLAIN, r, r', nonces);
    PlainFirst(lex, identity, r, nonces);
    PlainSecond(lex, InsertRecord(lex, db0, PLAIN, r, nonces), r, later, nonces);
  }

  /** With encryption they are one. */
  lemma SealedKeepsFirst(lex: Lexicon, c: Context, r: Record, later: string, nonces: Nonces)
    requires UsableKey(c.master, c.dbIdentity) && '|' !in c.dbIdentity && r.sourceKey == None
    ensures var db0 := EmptySealed(c);
            var db := InsertBatch(lex, db0, SessionOf(db0, Some(c)), [r, r.(timestamp := later)], nonces);
            Consistent(lex, db, Some(c)) && |db.messages| == 1
  {
    var db0, r' := EmptySealed(c), r.(timestamp := later);
    var s := SessionOf(db0, Some(c));
    FirstStored(lex, c, r, nonces);
    BatchOfTwo(lex, db0, s, r, r', nonces);
    var db1 := InsertRecord(lex, db0, s, r, nonces);
    SkipsExactly(lex, db1, Some(c), r', nonces);
    var plain := Plain(db1, Some(c)).messages;
    OpenSealed(Some(c), r.content, MessageContent, 1, nonces);
    assert plain[0].ns == r'.ns && plain[0].content == r'.content;
    assert ContentKnown(plain, r'.ns, r'.content);
  }

  /** The modes disagree on records without a source key that repeat a content at another time: two empty
      consistent databases, one batch, and the plaintexts differ. */
  lemma ModesDisagree(lex: Lexicon, c: Context, r: Record, later: string, nonces: Nonces)
    requires UsableKey(c.master, c.dbIdentity) && '|' !in c.dbIdentity && r.sourceKey == None && later != r.timestamp
    ensures var batch, open, sealed := [r, r.(timestamp := later)], EmptyPlain(c.dbIdentity), EmptySealed(c);
            && Plain(sealed, Some(c)) == open
            && Plain(InsertBatch(lex, sealed, SessionOf(sealed, Some(c)), batch, nonces), Some(c))
               != InsertBatch(lex, open, PLAIN, batch, nonces)
  {
    PlainKeepsBoth(lex, c.dbIdentity, r, later, nonces);
    SealedKeepsFirst(lex, c, r, later, nonces);
  }

  /** A keyed database with one message that holds a word loses its index when it is rebuilt. */
  lemma RebuildLosesKeyedIndex(lex: Lexicon, c: Context, r: Record, nonces: Nonces)
    requires UsableKey(c.master, c.dbIdentity) && '|' !in c.dbIdentity && Tokenize(lex, r.content) != []
    ensures var db := InsertRecord(lex, EmptySealed(c), SessionOf(EmptySealed(c), Some(c)), r, nonces);
            Consistent(lex, db, Some(c)) && Rebuilt(lex, db.messages) != db.terms
  {
    FirstStored(lex, c, r, nonces);
    var s := SessionOf(EmptySealed(c), Some(c));
    var db := InsertRecord(lex, EmptySealed(c), s, r, nonces);
    SkipsExactly(lex, EmptySealed(c), Some(c), r, nonces);
    assert db == Append(lex, EmptySealed(c), s, r, nonces);
    var w := Tokenize(lex, r.content)[0];
    assert (1, MapTerm(s, w)) in TermRows(lex, s, 1, r.content);
    assert (1, MapTerm(s, w)) in db.terms;
    RebuildExactly(lex, db, Some(c));
  }
}
