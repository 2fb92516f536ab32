/** When a key can be rotated: a store that accepted two records apart only by their source keys cannot
    be rotated at all, and a store that kept to the plaintext duplicate rule always can (encryption.py). */
module Rotation {
  import opened Basics
  import opened Crypto
  import opened Tokenizer
  import opened Rows
  import opened Inserts
  import opened Fields
  import opened Simulation
  import opened Ids
  import opened Lifecycle
  import opened Runs

  /** A database encrypted before anything was stored. */
  function EmptySealed(c: Context): Tables {
    Tables([], [], [], [], {}, Meta(true, Some(c.master.id16), c.dbIdentity, KeyedTerms), 0)
  }

  lemma EmptySealedIsConsistent(lex: Lexicon, c: Context)
    requires UsableKey(c.master, c.dbIdentity) && '|' !in c.dbIdentity
    ensures Consistent(lex, EmptySealed(c), Some(c))
  {
    assert IndexOf(lex, Session(Some(c), KeyedTerms), []) == {};
  }

  lemma FirstStored(lex: Lexicon, c: Context, r: Record, nonces: Nonces)
    requires UsableKey(c.master, c.dbIdentity) && '|' !in c.dbIdentity
    ensures var db0 := EmptySealed(c);
            var db := InsertRecord(lex, db0, SessionOf(db0, Some(c)), r, nonces);
            && Consistent(lex, db, Some(c)) && db.meta == db0.meta
            && db.messages == [StoredMessage(SessionOf(db0, Some(c)), 1, r, nonces)]
  {
    EmptySealedIsConsistent(lex, c);
    SkipsExactly(lex, EmptySealed(c), Some(c), r, nonces);
    InsertRecordKeeps(lex, EmptySealed(c), Some(c), r, nonces);
  }

  lemma SecondStored(lex: Lexicon, c: Context, db: Tables, r: Record, r': Record, nonces: Nonces)
    requires Consistent(lex, db, Some(c)) && db.messages == [StoredMessage(SessionOf(db, Some(c)), 1, r, nonces)]
    requires !NoSourceKey(r') && r.sourceKey != r'.sourceKey
    ensures var s := SessionOf(db, Some(c));
            InsertRecord(lex, db, s, r', nonces).messages == [StoredMessage(s, 1, r, nonces), StoredMessage(s, 2, r', nonces)]
  {
    SkipsExactly(lex, db, Some(c), r', nonces);
    assert MaxMessageId(db.messages) == 1;
    assert Plain(db, Some(c)).messages[0].sourceKey == r.sourceKey;
  }

  lemma BatchOfTwo(lex: Lexicon, db: Tables, s: Session, r: Record, r': Record, nonces: Nonces)
    ensures InsertBatch(lex, db, s, [r, r'], nonces) == InsertRecord(lex, InsertRecord(lex, db, s, r, nonces), s, r', nonces)
  {
    InsertBatchStep(lex, s, db, [], r, nonces, db);
    assert [] + [r] == [r] && [r] + [r'] == [r, r'];
    InsertBatchStep(lex, s, db, [r], r', nonces, InsertRecord(lex, db, s, r, nonces));
  }

  /** Two records that differ in nothing but a nonempty source key are both stored. */
  lemma BothStored(lex: Lexicon, c: Context, r: Record, other: string, nonces: Nonces)
    requires UsableKey(c.master, c.dbIdentity) && '|' !in c.dbIdentity
    requires !NoSourceKey(r) && other != "" && r.sourceKey != Some(other)
    ensures var db0 := EmptySealed(c);
            var db := InsertBatch(lex, db0, SessionOf(db0, Some(c)), [r, r.(sourceKey := Some(other))], nonces);
            var s := SessionOf(db0, Some(c));
            db.messages == [StoredMessage(s, 1, r, nonces), StoredMessage(s, 2, r.(sourceKey := Some(other)), nonces)]
  {
    var db0, r' := EmptySealed(c), r.(sourceKey := Some(other));
    BatchOfTwo(lex, db0, SessionOf(db0, Some(c)), r, r', nonces);
    FirstStored(lex, c, r, nonces);
    SecondStored(lex, c, InsertRecord(lex, db0, SessionOf(db0, Some(c)), r, nonces), r, r', nonces);
  }

  lemma OpenedTwins(c: Context, s: Session, r: Record, r': Record, nonces: Nonces)
    requires s.ctx == Some(c) && r'.ns == r.ns && r'.content == r.content && r'.timestamp == r.timestamp
    ensures SameDedupeKey(OpenMessage(Some(c), StoredMessage(s, 1, r, nonces)), OpenMessage(Some(c), StoredMessage(s, 2, r', nonces)))
  {
    OpenSealed(Some(c), r.content, MessageContent, 1, nonces);
    OpenSealed(Some(c), r'.content, MessageContent, 2, nonces);
  }

  /** On such a store no rotation can succeed, whatever the new key: the plaintext of the two rows
      meets in ux_messages_dedupe while it is uncovered. */
  lemma RotationCanFail(lex: Lexicon, c: Context, r: Record, other: string, nonces: Nonces, newKey: MasterKey, nonces': Nonces)
    requires UsableKey(c.master, c.dbIdentity) && '|' !in c.dbIdentity && UsableKey(newKey, c.dbIdentity)
    requires !NoSourceKey(r) && other != "" && r.sourceKey != Some(other)
    ensures var db0 := EmptySealed(c);
            var db := InsertBatch(lex, db0, SessionOf(db0, Some(c)), [r, r.(sourceKey := Some(other))], nonces);
            Consistent(lex, db, Some(c)) && Rotate(lex, db, c.master, newKey, nonces') == Err(Integrity)
  {
    var db0 := EmptySealed(c);
    var db := InsertBatch(lex, db0, SessionOf(db0, Some(c)), [r, r.(sourceKey := Some(other))], nonces);
    EmptySealedIsConsistent(lex, c);
    InsertBatchKeeps(lex, db0, Some(c), [r, r.(sourceKey := Some(other))], nonces);
    BothStored(lex, c, r, other, nonces);
    OpenedTwins(c, SessionOf(db0, Some(c)), r, r.(sourceKey := Some(other)), nonces);
    assert !OpensCleanly(c, db.messages) by {
      var plain := OpenMessages(Some(c), db.messages);
      assert SameDedupeKey(plain[0], plain[1]);
    }
    SourceKeysUnique(db.messages);
    DecryptMessagesExact(c, db.messages, c);
    forall i | 0 <= i < |db.messages|
      ensures Opener(c)(db.messages[i]).Ok?
    {
      OpenedRow(c, db.messages[i], c);
    }
    OnlyIntegrity(db.messages, 0, Opener(c));
  }

  // ----- where rotation stays possible -----

  lemma PlainStepStaysConsistent(lex: Lexicon, plain: Tables, w: World, cmd: Command)
    requires Consistent(lex, plain, None)
    ensures Consistent(lex, PlainStep(lex, plain, w, cmd), None)
  {
    if Writes(w, cmd) {
      assert SessionOf(plain, None) == PLAIN;
      WriteKeeps(lex, plain, None, Translated(cmd.write, w.db.messages, plain.messages), cmd.nonces);
    }
  }

  lemma {:induction false} PlainRunsStayConsistent(lex: Lexicon, plain: Tables, w: World, cmds: seq<Command>)
    requires Consistent(lex, plain, None)
    ensures Consistent(lex, PlainRun(lex, plain, w, cmds), None)
  {
    if cmds != [] {
      var front := cmds[..|cmds| - 1];
      PlainRunsStayConsistent(lex, plain, w, front);
      PlainStepStaysConsistent(lex, PlainRun(lex, plain, w, front), Run(lex, w, front), cmds[|cmds| - 1]);
    }
  }

  /** Nobody stored the text of an envelope. */
  predicate NoEnvelopes(plain: seq<MessageRow>) {
    forall i :: 0 <= i < |plain| ==> !IsEnvelope(plain[i].content)
  }

  lemma PlainTextsRewrite(c: Context, ms: seq<MessageRow>, cNew: Context, nonces: Nonces)
    requires forall i :: 0 <= i < |ms| ==> MessageSealed(c, ms[i])
    requires UniqueMessages(OpenMessages(Some(c), ms)) && NoEnvelopes(OpenMessages(Some(c), ms))
    ensures OpensCleanly(c, ms) && SealsCleanly(cNew, OpenMessages(Some(c), ms), nonces)
  {
    var plain := OpenMessages(Some(c), ms);
    forall i, j | 0 <= i < j < |ms|
      ensures !SameDedupeKey(plain[i], plain[j]) && !SameDedupeKey(plain[i], ms[j])
      ensures !SameDedupeKey(SealMessage(cNew, plain[i], nonces), plain[j])
    {
      assert !Clash(plain[i], plain[j]);
      assert MessageSealed(c, ms[j]) && IsEnvelope(ms[j].content);
      assert IsEnvelope(SealMessage(cNew, plain[i], nonces).content);
    }
  }

  /** After every run whose plain batches kept to the plaintext duplicate rule, and in which nobody
      stored an envelope as text, the key can be rotated to any usable key. */
  lemma RotationStaysPossible(lex: Lexicon, w: World, cmds: seq<Command>, keys: set<MasterKey>, newKey: MasterKey, nonces: Nonces)
    requires Good(lex, w, keys) && DistinctIds(keys) && NonemptyIds(keys) && UsesKeys(cmds, keys) && RunAgrees(lex, w, cmds)
    requires Consistent(lex, Plain(w.db, w.ctx), None)
    requires var end := Run(lex, w, cmds);
             end.ctx.Some? && UsableKey(newKey, end.db.meta.dbIdentity) && NoEnvelopes(Plain(end.db, end.ctx).messages)
    ensures var end := Run(lex, w, cmds);
            Rotate(lex, end.db, end.ctx.value.master, newKey, nonces).Ok?
  {
    var end := Run(lex, w, cmds);
    RunsStayConsistent(lex, w, cmds, keys);
    UniqueBehind(lex, w, cmds, keys);
    PlainTextsRewrite(end.ctx.value, end.db.messages, Context(newKey, end.db.meta.dbIdentity), nonces);
    RotateCorrect(lex, end.db, end.ctx, end.ctx.value.master, newKey, nonces);
  }

  /** Two tables that differ in ids are unique together. */
  lemma UniqueUpToIds(a: seq<MessageRow>, b: seq<MessageRow>)
    requires NumberedMessages(a) == NumberedMessages(b) && UniqueMessages(b)
    ensures UniqueMessages(a)
  {
    var na, nb := NumberedMessages(a), NumberedMessages(b);
    assert |a| == |na| == |nb| == |b|;
    forall i, j | 0 <= i < j < |a|
      ensures !Clash(a[i], a[j])
    {
      assert na[i] == nb[i] && na[j] == nb[j];
      assert !Clash(b[i], b[j]);
    }
  }

  lemma UniqueBehind(lex: Lexicon, w: World, cmds: seq<Command>, keys: set<MasterKey>)
    requires Good(lex, w, keys) && DistinctIds(keys) && NonemptyIds(keys) && UsesKeys(cmds, keys) && RunAgrees(lex, w, cmds)
    requires Consistent(lex, Plain(w.db, w.ctx), None)
    ensures var end := Run(lex, w, cmds); UniqueMessages(OpenMessages(end.ctx, end.db.messages))
  {
    var end, plain := Run(lex, w, cmds), PlainRun(lex, Plain(w.db, w.ctx), w, cmds);
    RunsRefinePlaintext(lex, w, cmds, keys);
    PlainRunsStayConsistent(lex, Plain(w.db, w.ctx), w, cmds);
    UniqueUpToIds(OpenMessages(end.ctx, end.db.messages), plain.messages);
  }
}
