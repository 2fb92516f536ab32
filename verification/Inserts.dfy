/** MemoryStore.insert_messages as a function of the tables (storage.py), in both modes. */
module Inserts {
  import opened Basics
  import opened Crypto
  import opened Tokenizer
  import opened Rows

  datatype Record = Record(
    ns: Namespace,
    content: Text,
    timestamp: string,
    metadata: Text,
    sourceKey: Option<string>)

  function SessionOf(db: Tables, ctx: Option<Context>): Session {
    Session(ctx, db.meta.termsMode)
  }

  /** MAX(id), or 0 for an empty table. */
  function MaxMessageId(ms: seq<MessageRow>): (m: nat)
    ensures forall i :: 0 <= i < |ms| ==> ms[i].id <= m
  {
    if ms == [] then 0 else
      var m := MaxMessageId(ms[..|ms| - 1]);
      if ms[|ms| - 1].id > m then ms[|ms| - 1].id else m
  }

  function Larger(a: nat, b: nat): (r: nat)
    ensures a <= r && b <= r && (r == a || r == b)
  {
    if a < b then b else a
  }

  /** The id before the next: a store with a key computes it from the table, SQLite goes on after the
      largest id it remembers. */
  function LastId(db: Tables, s: Session): (id: nat)
    ensures forall i :: 0 <= i < |db.messages| ==> db.messages[i].id <= id
  {
    if s.ctx.Some? then MaxMessageId(db.messages) else Larger(db.sequence, MaxMessageId(db.messages))
  }

  function NextId(db: Tables, s: Session): (id: nat)
    ensures forall i :: 0 <= i < |db.messages| ==> db.messages[i].id < id
  {
    LastId(db, s) + 1
  }

  /** SQLite remembers the id of every row it was asked to insert, ignored or not. */
  function Touched(db: Tables, id: nat): Tables {
    db.(sequence := Larger(db.sequence, id))
  }

  /** Python's `not r.source_key`: a missing and an empty key are alike. */
  predicate NoSourceKey(r: Record) {
    r.sourceKey == None || r.sourceKey == Some("")
  }

  function StoredMessage(s: Session, id: nat, r: Record, nonces: Nonces): MessageRow {
    MessageRow(
      id, r.ns,
      SealText(s.ctx, r.content, MessageContent, id, nonces),
      r.timestamp,
      SealText(s.ctx, r.metadata, MessageMetadata, id, nonces),
      r.sourceKey,
      if s.ctx.Some? then Some(Fingerprint(s.ctx.value, r.ns, r.content)) else None)
  }

  predicate FingerprintKnown(ms: seq<MessageRow>, ns: Namespace, fp: Digest) {
    exists i :: 0 <= i < |ms| && ms[i].ns == ns && ms[i].fingerprint == Some(fp)
  }

  predicate ClashesWith(ms: seq<MessageRow>, row: MessageRow) {
    exists i :: 0 <= i < |ms| && Clash(ms[i], row)
  }

  /** The fingerprint check of encrypted mode, for records without a source key. */
  predicate FingerprintSkips(db: Tables, s: Session, r: Record) {
    s.ctx.Some? && NoSourceKey(r) && FingerprintKnown(db.messages, r.ns, Fingerprint(s.ctx.value, r.ns, r.content))
  }

  /** INSERT OR IGNORE, preceded in encrypted mode by the fingerprint check. */
  predicate Skips(db: Tables, s: Session, r: Record, nonces: Nonces) {
    FingerprintSkips(db, s, r) || ClashesWith(db.messages, StoredMessage(s, NextId(db, s), r, nonces))
  }

  /** index_message_terms: drop the message's term rows, then add its tokens. */
  function ReplaceTerms(lex: Lexicon, terms: set<(nat, Token)>, s: Session, id: nat, plain: Text): set<(nat, Token)> {
    (set p | p in terms && p.0 != id) + TermRows(lex, s, id, plain)
  }

  /** A new message under a given id, with its terms. */
  function AppendAs(lex: Lexicon, db: Tables, s: Session, r: Record, nonces: Nonces, id: nat): Tables {
    db.(messages := db.messages + [StoredMessage(s, id, r, nonces)],
        terms := ReplaceTerms(lex, db.terms, s, id, r.content),
        sequence := Larger(db.sequence, id))
  }

  function Append(lex: Lexicon, db: Tables, s: Session, r: Record, nonces: Nonces): Tables {
    AppendAs(lex, db, s, r, nonces, NextId(db, s))
  }

  function InsertRecord(lex: Lexicon, db: Tables, s: Session, r: Record, nonces: Nonces): Tables {
    if FingerprintSkips(db, s, r) then db
    else if Skips(db, s, r, nonces) then Touched(db, NextId(db, s))
    else Append(lex, db, s, r, nonces)
  }

  function InsertBatch(lex: Lexicon, db: Tables, s: Session, rs: seq<Record>, nonces: Nonces): Tables {
    if rs == [] then db
    else InsertRecord(lex, InsertBatch(lex, db, s, rs[..|rs| - 1], nonces), s, rs[|rs| - 1], nonces)
  }

  // ----- the invariant is kept -----

  lemma IndexAppend(lex: Lexicon, s: Session, ms: seq<MessageRow>, row: MessageRow)
    ensures IndexOf(lex, s, ms + [row]) == IndexOf(lex, s, ms) + TermRows(lex, s, row.id, PlainContent(s.ctx, row))
  {
    var all := ms + [row];
    var last := TermRows(lex, s, row.id, PlainContent(s.ctx, row));
    forall p | p in IndexOf(lex, s, all)
      ensures p in IndexOf(lex, s, ms) + last
    {
      var i :| 0 <= i < |all| && p in TermRows(lex, s, all[i].id, PlainContent(s.ctx, all[i]));
      if i < |ms| {
        assert all[i] == ms[i];
      }
    }
    forall p | p in IndexOf(lex, s, ms) + last
      ensures p in IndexOf(lex, s, all)
    {
      if p in last {
        assert all[|ms|] == row;
      } else {
        var i :| 0 <= i < |ms| && p in TermRows(lex, s, ms[i].id, PlainContent(s.ctx, ms[i]));
        assert all[i] == ms[i];
      }
    }
  }

  /** Index rows belong to messages, so a fresh id has none. */
  lemma IndexIds(lex: Lexicon, s: Session, ms: seq<MessageRow>, p: (nat, Token))
    requires p in IndexOf(lex, s, ms)
    ensures MessageExists(ms, p.0)
  {
  }

  lemma OpenSealed(ctx: Option<Context>, plain: Text, site: Site, row: nat, nonces: Nonces)
    ensures Open(ctx, SealText(ctx, plain, site, row, nonces), site, row) == plain
    ensures ctx.Some? ==> Sealed(ctx.value, SealText(ctx, plain, site, row, nonces), site, row)
  {
  }

  lemma AppendKeepsConstraints(lex: Lexicon, db: Tables, s: Session, r: Record, nonces: Nonces)
    requires Constraints(db)
    requires !ClashesWith(db.messages, StoredMessage(s, NextId(db, s), r, nonces))
    ensures Constraints(Append(lex, db, s, r, nonces))
  {
    var row := StoredMessage(s, NextId(db, s), r, nonces);
    var ms' := db.messages + [row];
    forall i | 0 <= i < |db.embeddings|
      ensures MessageExists(ms', db.embeddings[i].key)
    {
      assert MessageExists(db.messages, db.embeddings[i].key);
      var k :| 0 <= k < |db.messages| && db.messages[k].id == db.embeddings[i].key;
      assert ms'[k] == db.messages[k];
    }
    forall i, j | 0 <= i < j < |ms'|
      ensures !Clash(ms'[i], ms'[j])
    {
      if j < |db.messages| {
        assert !Clash(db.messages[i], db.messages[j]);
      } else {
        assert ms'[i] == db.messages[i];
      }
    }
    assert OrderedMessages(ms');
  }

  lemma AppendKeepsProtected(lex: Lexicon, db: Tables, ctx: Option<Context>, r: Record, nonces: Nonces)
    requires Protected(db, ctx)
    ensures Protected(Append(lex, db, SessionOf(db, ctx), r, nonces), ctx)
  {
  }

  lemma AppendKeepsIndexed(lex: Lexicon, db: Tables, ctx: Option<Context>, r: Record, nonces: Nonces)
    requires Indexed(lex, db, ctx)
    ensures Indexed(lex, Append(lex, db, SessionOf(db, ctx), r, nonces), ctx)
  {
    var s := SessionOf(db, ctx);
    var id := NextId(db, s);
    var row := StoredMessage(s, id, r, nonces);
    OpenSealed(ctx, r.content, MessageContent, id, nonces);
    IndexAppend(lex, s, db.messages, row);
    forall p | p in db.terms
      ensures p.0 != id
    {
      IndexIds(lex, s, db.messages, p);
    }
    assert (set p | p in db.terms && p.0 != id) == db.terms;
  }

  lemma InsertRecordKeeps(lex: Lexicon, db: Tables, ctx: Option<Context>, r: Record, nonces: Nonces)
    requires Consistent(lex, db, ctx)
    ensures Consistent(lex, InsertRecord(lex, db, SessionOf(db, ctx), r, nonces), ctx)
  {
    if !Skips(db, SessionOf(db, ctx), r, nonces) {
      AppendKeepsConstraints(lex, db, SessionOf(db, ctx), r, nonces);
      AppendKeepsProtected(lex, db, ctx, r, nonces);
      AppendKeepsIndexed(lex, db, ctx, r, nonces);
    }
  }

  /** Rows are only ever added at the end of the message table, and nothing else changes. */
  predicate Extends(db: Tables, db': Tables) {
    && db.messages <= db'.messages
    && db'.embeddings == db.embeddings && db'.summaries == db.summaries && db'.agents == db.agents
    && db'.meta == db.meta
  }

  lemma {:induction false} InsertBatchKeeps(lex: Lexicon, db: Tables, ctx: Option<Context>, rs: seq<Record>, nonces: Nonces)
    requires Consistent(lex, db, ctx)
    ensures var db' := InsertBatch(lex, db, SessionOf(db, ctx), rs, nonces);
            Consistent(lex, db', ctx) && Extends(db, db') && |db'.messages| <= |db.messages| + |rs|
  {
    if rs != [] {
      InsertBatchKeeps(lex, db, ctx, rs[..|rs| - 1], nonces);
      var mid := InsertBatch(lex, db, SessionOf(db, ctx), rs[..|rs| - 1], nonces);
      assert SessionOf(mid, ctx) == SessionOf(db, ctx);
      InsertRecordKeeps(lex, mid, ctx, rs[|rs| - 1], nonces);
    }
  }

  lemma InsertBatchStep(lex: Lexicon, s: Session, db: Tables, rs: seq<Record>, r: Record, nonces: Nonces, mid: Tables)
    requires InsertBatch(lex, db, s, rs, nonces) == mid
    ensures InsertBatch(lex, db, s, rs + [r], nonces) == InsertRecord(lex, mid, s, r, nonces)
  {
  }

  lemma InsertBatchOneMore(lex: Lexicon, s: Session, db: Tables, rs: seq<Record>, i: nat, nonces: Nonces, mid: Tables, end: Tables)
    requires i < |rs| && InsertBatch(lex, db, s, rs[..i], nonces) == mid && InsertRecord(lex, mid, s, rs[i], nonces) == end
    ensures InsertBatch(lex, db, s, rs[..i + 1], nonces) == end
  {
    OneMore(rs, i);
    InsertBatchStep(lex, s, db, rs[..i], rs[i], nonces, mid);
  }

  lemma InsertBatchSplitStep(lex: Lexicon, db: Tables, s: Session, a: seq<Record>, mid: Tables, b: seq<Record>, r: Record,
                             nonces: Nonces, near: Tables)
    requires InsertBatch(lex, db, s, a + b, nonces) == near && InsertBatch(lex, mid, s, b, nonces) == near
    ensures InsertBatch(lex, db, s, a + (b + [r]), nonces) == InsertBatch(lex, mid, s, b + [r], nonces)
  {
    assert a + (b + [r]) == (a + b) + [r];
    InsertBatchStep(lex, s, mid, b, r, nonces, near);
    InsertBatchStep(lex, s, db, a + b, r, nonces, near);
  }

  /** Inserting a + b at once is inserting a and then b. */
  lemma {:induction false} InsertBatchSplit(lex: Lexicon, db: Tables, s: Session, a: seq<Record>, b: seq<Record>, nonces: Nonces)
    ensures InsertBatch(lex, db, s, a + b, nonces) == InsertBatch(lex, InsertBatch(lex, db, s, a, nonces), s, b, nonces)
  {
    if b == [] {
      NothingMore(a);
    } else {
      var b', r := b[..|b| - 1], b[|b| - 1];
      InsertBatchSplit(lex, db, s, a, b', nonces);
      FrontAndLast(b);
      var mid := InsertBatch(lex, db, s, a, nonces);
      InsertBatchSplitStep(lex, db, s, a, mid, b', r, nonces, InsertBatch(lex, mid, s, b', nonces));
    }
  }

  // ----- when a record is skipped -----

  predicate SourceKeyKnown(ms: seq<MessageRow>, r: Record) {
    exists i :: 0 <= i < |ms| && r.sourceKey.Some? && ms[i].sourceKey == r.sourceKey
             && ms[i].ns.project == r.ns.project && ms[i].ns.provider == r.ns.provider
             && ms[i].ns.conversation == r.ns.conversation
  }

  predicate ContentKnown(ms: seq<MessageRow>, ns: Namespace, content: Text) {
    exists i :: 0 <= i < |ms| && ms[i].ns == ns && ms[i].content == content
  }

  predicate DedupeKnown(ms: seq<MessageRow>, r: Record) {
    exists i :: 0 <= i < |ms| && ms[i].ns == r.ns && ms[i].content == r.content && ms[i].timestamp == r.timestamp
  }

  /** The skip decision in terms of the plaintext: without encryption the timestamp takes part,
      with encryption content alone decides, and only for rows without a source key. */
  predicate SkipsPlainly(plain: seq<MessageRow>, sealed: bool, r: Record) {
    || SourceKeyKnown(plain, r)
    || (if sealed then NoSourceKey(r) && ContentKnown(plain, r.ns, r.content) else DedupeKnown(plain, r))
  }

  /** The row keeps the record out, by the duplicate rule of the mode. */
  predicate KeepsOut(sealed: bool, m: MessageRow, r: Record) {
    || (r.sourceKey.Some? && m.sourceKey == r.sourceKey && m.ns.project == r.ns.project && m.ns.provider == r.ns.provider
        && m.ns.conversation == r.ns.conversation)
    || (m.ns == r.ns && m.content == r.content && (if sealed then NoSourceKey(r) else m.timestamp == r.timestamp))
  }

  lemma SkipsByRow(ms: seq<MessageRow>, sealed: bool, r: Record)
    ensures SkipsPlainly(ms, sealed, r) <==> exists k :: 0 <= k < |ms| && KeepsOut(sealed, ms[k], r)
  {
    if SkipsPlainly(ms, sealed, r) {
      var k :| 0 <= k < |ms| && KeepsOut(sealed, ms[k], r);
    }
  }

  /** Values sealed for different rows never coincide. */
  lemma SealedContentsDiffer(c: Context, t: Text, row: nat, plain: Text, id: nat, nonces: Nonces)
    requires '|' !in c.dbIdentity && row != id
    requires Sealed(c, t, MessageContent, row)
    ensures t != SealText(Some(c), plain, MessageContent, id, nonces)
  {
    if t == SealText(Some(c), plain, MessageContent, id, nonces) {
      FieldBinding(c, plain, MessageContent, id, nonces(MessageContent, id), c, MessageContent, row);
    }
  }

  lemma SkipsExactly(lex: Lexicon, db: Tables, ctx: Option<Context>, r: Record, nonces: Nonces)
    requires Consistent(lex, db, ctx)
    ensures Skips(db, SessionOf(db, ctx), r, nonces)
        <==> SkipsPlainly(Plain(db, ctx).messages, ctx.Some?, r)
  {
    var s := SessionOf(db, ctx);
    var id := NextId(db, s);
    var row := StoredMessage(s, id, r, nonces);
    var plain := Plain(db, ctx).messages;
    forall i | 0 <= i < |db.messages|
      ensures ctx.Some? ==> !SameDedupeKey(db.messages[i], row)
      ensures ctx.Some? ==> (db.messages[i].fingerprint == Some(Fingerprint(ctx.value, r.ns, r.content)) && db.messages[i].ns == r.ns
                             <==> plain[i].ns == r.ns && plain[i].content == r.content)
    {
      if ctx.Some? {
        assert MessageSealed(ctx.value, db.messages[i]);
        SealedContentsDiffer(ctx.value, db.messages[i].content, db.messages[i].id, r.content, id, nonces);
        FingerprintExact(ctx.value, r.ns, plain[i].content, r.content);
      }
    }
    if ctx.Some? {
      SealedSkips(db, ctx.value, r, row, plain);
    } else {
      assert forall i :: 0 <= i < |plain| ==> plain[i] == db.messages[i].(fingerprint := None);
      PlainSkips(db.messages, plain, r, row);
    }
  }

  lemma PlainSkips(ms: seq<MessageRow>, plain: seq<MessageRow>, r: Record, row: MessageRow)
    requires |ms| == |plain| && forall i :: 0 <= i < |plain| ==> plain[i] == ms[i].(fingerprint := None)
    requires row.ns == r.ns && row.content == r.content && row.timestamp == r.timestamp && row.sourceKey == r.sourceKey
    ensures ClashesWith(ms, row) <==> SkipsPlainly(plain, false, r)
  {
  }

  lemma SealedSkips(db: Tables, c: Context, r: Record, row: MessageRow, plain: seq<MessageRow>)
    requires plain == OpenMessages(Some(c), db.messages)
    requires row.ns == r.ns && row.sourceKey == r.sourceKey
    requires forall i :: 0 <= i < |plain| ==> !SameDedupeKey(db.messages[i], row)
    requires forall i :: 0 <= i < |plain| ==>
               (db.messages[i].fingerprint == Some(Fingerprint(c, r.ns, r.content)) && db.messages[i].ns == r.ns
                <==> plain[i].ns == r.ns && plain[i].content == r.content)
    ensures (NoSourceKey(r) && FingerprintKnown(db.messages, r.ns, Fingerprint(c, r.ns, r.content)))
            || ClashesWith(db.messages, row)
       <==> SkipsPlainly(plain, true, r)
  {
  }

  // ----- repeating a batch -----

  lemma SkipsMonotone(ms: seq<MessageRow>, ms': seq<MessageRow>, sealed: bool, r: Record)
    requires ms <= ms' && SkipsPlainly(ms, sealed, r)
    ensures SkipsPlainly(ms', sealed, r)
  {
  }

  lemma PlainGrows(db: Tables, db': Tables, ctx: Option<Context>)
    requires db.messages <= db'.messages
    ensures Plain(db, ctx).messages <= Plain(db', ctx).messages
  {
  }

  /** Once a record was offered, it would be skipped. */
  lemma OfferedIsKnown(lex: Lexicon, db: Tables, ctx: Option<Context>, r: Record, nonces: Nonces)
    requires Consistent(lex, db, ctx)
    ensures SkipsPlainly(Plain(InsertRecord(lex, db, SessionOf(db, ctx), r, nonces), ctx).messages, ctx.Some?, r)
  {
    SkipsExactly(lex, db, ctx, r, nonces);
    var s := SessionOf(db, ctx);
    if !Skips(db, s, r, nonces) {
      var id, n := NextId(db, s), |db.messages|;
      var db' := Append(lex, db, s, r, nonces);
      var plain := Plain(db', ctx).messages;
      OpenSealed(ctx, r.content, MessageContent, id, nonces);
      assert db'.messages[n] == StoredMessage(s, id, r, nonces);
      assert plain[n].ns == r.ns && plain[n].content == r.content && plain[n].timestamp == r.timestamp
          && plain[n].sourceKey == r.sourceKey;
    }
  }

  /** After a batch every one of its records is known. */
  lemma {:induction false} BatchIsKnown(lex: Lexicon, db: Tables, ctx: Option<Context>, rs: seq<Record>, nonces: Nonces)
    requires Consistent(lex, db, ctx)
    ensures var after := Plain(InsertBatch(lex, db, SessionOf(db, ctx), rs, nonces), ctx).messages;
            forall i :: 0 <= i < |rs| ==> SkipsPlainly(after, ctx.Some?, rs[i])
  {
    if rs != [] {
      var rs', r, s := rs[..|rs| - 1], rs[|rs| - 1], SessionOf(db, ctx);
      assert rs == rs' + [r];
      InsertBatchStep(lex, s, db, rs', r, nonces, InsertBatch(lex, db, s, rs', nonces));
      BatchIsKnown(lex, db, ctx, rs', nonces);
      InsertBatchKeeps(lex, db, ctx, rs', nonces);
      var mid := InsertBatch(lex, db, s, rs', nonces);
      var end := InsertRecord(lex, mid, s, r, nonces);
      assert SessionOf(mid, ctx) == s;
      OfferedIsKnown(lex, mid, ctx, r, nonces);
      PlainGrows(mid, end, ctx);
      forall i | 0 <= i < |rs|
        ensures SkipsPlainly(Plain(end, ctx).messages, ctx.Some?, rs[i])
      {
        if i < |rs'| {
          SkipsMonotone(Plain(mid, ctx).messages, Plain(end, ctx).messages, ctx.Some?, rs[i]);
        }
      }
    }
  }

  /** What a known record leaves of the counter: without a key SQLite counts it, with one only when it
      came as far as the INSERT. */
  function CountedTo(db: Tables, s: Session, n: nat): nat {
    if n == 0 then db.sequence
    else if s.ctx.None? then LastId(db, s) + n
    else Larger(db.sequence, NextId(db, s))
  }

  /** A batch of known records changes nothing but the counter. */
  lemma {:induction false} KnownBatchOnlyCounts(lex: Lexicon, db: Tables, ctx: Option<Context>, rs: seq<Record>, nonces: Nonces)
    requires Consistent(lex, db, ctx)
    requires forall i :: 0 <= i < |rs| ==> SkipsPlainly(Plain(db, ctx).messages, ctx.Some?, rs[i])
    ensures var s := SessionOf(db, ctx);
            exists n: nat :: n <= |rs| && InsertBatch(lex, db, s, rs, nonces) == db.(sequence := CountedTo(db, s, n))
                        && (ctx.None? ==> n == |rs|)
  {
    var s := SessionOf(db, ctx);
    if rs == [] {
      assert db == db.(sequence := CountedTo(db, s, 0));
    } else {
      var front, r := rs[..|rs| - 1], rs[|rs| - 1];
      KnownBatchOnlyCounts(lex, db, ctx, front, nonces);
      var n: nat :| n <= |front| && InsertBatch(lex, db, s, front, nonces) == db.(sequence := CountedTo(db, s, n)) && (ctx.None? ==> n == |front|);
      var mid := db.(sequence := CountedTo(db, s, n));
      CounterIsFree(lex, db, ctx, CountedTo(db, s, n));
      SkipsExactly(lex, mid, ctx, r, nonces);
      if FingerprintSkips(mid, s, r) {
        assert InsertRecord(lex, mid, s, r, nonces) == mid;
      } else {
        assert InsertRecord(lex, mid, s, r, nonces) == db.(sequence := CountedTo(db, s, n + 1));
      }
    }
  }

  /** The invariant and the plaintext rows do not depend on the counter. */
  lemma CounterIsFree(lex: Lexicon, db: Tables, ctx: Option<Context>, sequence: nat)
    requires Consistent(lex, db, ctx)
    ensures Consistent(lex, db.(sequence := sequence), ctx) && Plain(db.(sequence := sequence), ctx).messages == Plain(db, ctx).messages
    ensures SessionOf(db.(sequence := sequence), ctx) == SessionOf(db, ctx)
  {
  }

  /** Offering the same batch again, with whatever nonces, inserts nothing and changes no row; without
      encryption the counter goes on by one for every record. */
  lemma RepeatInsertsNothing(lex: Lexicon, db: Tables, ctx: Option<Context>, rs: seq<Record>, nonces: Nonces, nonces': Nonces)
    requires Consistent(lex, db, ctx)
    ensures var db' := InsertBatch(lex, db, SessionOf(db, ctx), rs, nonces);
            var again := InsertBatch(lex, db', SessionOf(db', ctx), rs, nonces');
            && again == db'.(sequence := again.sequence)
            && db'.sequence <= again.sequence
            && (ctx.None? ==> again.sequence == CountedTo(db', SessionOf(db', ctx), |rs|))
            && (ctx.Some? ==> again.sequence <= Larger(db'.sequence, NextId(db', SessionOf(db', ctx))))
  {
    BatchIsKnown(lex, db, ctx, rs, nonces);
    InsertBatchKeeps(lex, db, ctx, rs, nonces);
    KnownBatchOnlyCounts(lex, InsertBatch(lex, db, SessionOf(db, ctx), rs, nonces), ctx, rs, nonces');
  }

  // ----- where the modes part -----

  /** The row has the record's source key, in its conversation. */
  predicate HasKeyOf(m: MessageRow, r: Record) {
    && r.sourceKey.Some? && m.sourceKey == r.sourceKey
    && m.ns.project == r.ns.project && m.ns.provider == r.ns.provider && m.ns.conversation == r.ns.conversation
  }

  predicate HasTextOf(m: MessageRow, r: Record) {
    m.ns == r.ns && m.content == r.content
  }

  /** The two modes treat the record differently: no row has its source key, and either it has no source key, its
      text is there, and every row that has the text is of another time; or it has a source key, and its text is
      there with its very time. */
  predicate ModesPart(plain: seq<MessageRow>, r: Record) {
    && (forall k :: 0 <= k < |plain| ==> !HasKeyOf(plain[k], r))
    && (if NoSourceKey(r) then
          && (exists k :: 0 <= k < |plain| && HasTextOf(plain[k], r))
          && (forall k :: 0 <= k < |plain| && HasTextOf(plain[k], r) ==> plain[k].timestamp != r.timestamp)
        else
          exists k :: 0 <= k < |plain| && HasTextOf(plain[k], r) && plain[k].timestamp == r.timestamp)
  }

  predicate ModesAgree(plain: seq<MessageRow>, r: Record) {
    !ModesPart(plain, r)
  }

  lemma DedupeIsContent(plain: seq<MessageRow>, r: Record)
    requires DedupeKnown(plain, r)
    ensures ContentKnown(plain, r.ns, r.content)
  {
  }

  /** What the two duplicate rules say of a record, read off the rows. */
  lemma RulesAgreeExactly(plain: seq<MessageRow>, r: Record)
    ensures (SkipsPlainly(plain, true, r) <==> SkipsPlainly(plain, false, r)) <==> ModesAgree(plain, r)
    ensures ModesPart(plain, r) ==> (SkipsPlainly(plain, true, r) <==> NoSourceKey(r))
  {
    SkipsByRow(plain, true, r);
    SkipsByRow(plain, false, r);
    forall k | 0 <= k < |plain|
      ensures KeepsOut(true, plain[k], r) <==> HasKeyOf(plain[k], r) || (HasTextOf(plain[k], r) && NoSourceKey(r))
      ensures KeepsOut(false, plain[k], r) <==> HasKeyOf(plain[k], r) || (HasTextOf(plain[k], r) && plain[k].timestamp == r.timestamp)
    {
    }
  }
}
