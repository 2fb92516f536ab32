/** Message ids up to renaming (storage.py): SQLite skips the ids of ignored rows, a store with a key counts
    without gaps, and everything that refers to a message follows its id. A numbered database has the
    messages renamed 1, 2, 3, ... in their order. */
module Ids {
  import opened Basics
  import opened Crypto
  import opened Tokenizer
  import opened Rows
  import opened Inserts
  import opened Fields
  import opened Simulation

  function HasId(id: nat): MessageRow -> bool {
    (m: MessageRow) => m.id == id
  }

  /** The place of a message in its table, from 1; 0 for an id that no message has. */
  function Place(ms: seq<MessageRow>, id: nat): nat {
    match FirstIndex(ms, HasId(id))
    case None => 0
    case Some(i) => i + 1
  }

  function NumberedMessages(ms: seq<MessageRow>): (r: seq<MessageRow>) {
    seq(|ms|, i requires 0 <= i < |ms| => ms[i].(id := i + 1))
  }

  function NumberedEmbeddings(ms: seq<MessageRow>, es: seq<EmbeddingRow>): (r: seq<EmbeddingRow>) {
    seq(|es|, i requires 0 <= i < |es| => es[i].(key := Place(ms, es[i].key)))
  }

  function NumberedTerms(ms: seq<MessageRow>, terms: set<(nat, Token)>): set<(nat, Token)> {
    set p | p in terms :: (Place(ms, p.0), p.1)
  }

  function Numbered(db: Tables): Tables {
    Tables(NumberedMessages(db.messages), NumberedEmbeddings(db.messages, db.embeddings), db.summaries, db.agents,
           NumberedTerms(db.messages, db.terms), db.meta, |db.messages|)
  }

  /** The same database up to an order-preserving renaming of its message ids. */
  predicate SameUpToIds(a: Tables, b: Tables) {
    Numbered(a) == Numbered(b)
  }

  predicate TermsOwned(db: Tables) {
    forall p :: p in db.terms ==> MessageExists(db.messages, p.0)
  }

  /** Whatever refers to a message refers to one that is there. */
  predicate Linked(db: Tables) {
    OrderedMessages(db.messages) && EmbeddingsOwned(db) && TermsOwned(db)
  }

  // ----- places -----

  lemma SameId(ms: seq<MessageRow>, i: nat, j: nat)
    requires OrderedMessages(ms) && i < |ms| && j < |ms| && ms[i].id == ms[j].id
    ensures i == j
  {
  }

  lemma PlaceAt(ms: seq<MessageRow>, i: nat)
    requires OrderedMessages(ms) && i < |ms|
    ensures Place(ms, ms[i].id) == i + 1
  {
    var first := FirstIndex(ms, HasId(ms[i].id));
    assert HasId(ms[i].id)(ms[i]);
    SameId(ms, first.value, i);
  }

  lemma PlaceOfMessage(ms: seq<MessageRow>, id: nat)
    ensures Place(ms, id) <= |ms|
    ensures Place(ms, id) > 0 <==> MessageExists(ms, id)
    ensures Place(ms, id) > 0 ==> ms[Place(ms, id) - 1].id == id
  {
    if MessageExists(ms, id) {
      var i :| 0 <= i < |ms| && ms[i].id == id;
      assert HasId(id)(ms[i]);
    }
  }

  lemma PlaceApart(ms: seq<MessageRow>, a: nat, b: nat)
    requires MessageExists(ms, a) && Place(ms, a) == Place(ms, b)
    ensures a == b
  {
    PlaceOfMessage(ms, a);
    PlaceOfMessage(ms, b);
  }

  /** The renaming keeps the order. */
  lemma PlaceOrder(ms: seq<MessageRow>, a: nat, b: nat)
    requires OrderedMessages(ms) && MessageExists(ms, a) && MessageExists(ms, b)
    ensures a < b <==> Place(ms, a) < Place(ms, b)
  {
    PlaceOfMessage(ms, a);
    PlaceOfMessage(ms, b);
  }

  /** A new message leaves the places of the others and comes last. */
  lemma PlaceInMore(ms: seq<MessageRow>, m: MessageRow, id: nat)
    requires forall i :: 0 <= i < |ms| ==> ms[i].id < m.id
    ensures MessageExists(ms, id) ==> Place(ms + [m], id) == Place(ms, id)
    ensures Place(ms + [m], m.id) == |ms| + 1
  {
    var all := ms + [m];
    assert all[|ms|] == m;
    PlaceOfMessage(all, m.id);
    PlaceOfMessage(ms, id);
    PlaceOfMessage(all, id);
    if MessageExists(ms, id) {
      var i := Place(ms, id) - 1;
      assert HasId(id)(all[i]);
      assert forall j :: 0 <= j < |ms| ==> HasId(id)(all[j]) == HasId(id)(ms[j]);
    }
  }

  lemma NumberedIds(ms: seq<MessageRow>)
    ensures OrderedMessages(NumberedMessages(ms)) && MaxMessageId(NumberedMessages(ms)) == |ms|
    ensures forall n: nat :: MessageExists(NumberedMessages(ms), n) <==> 1 <= n <= |ms|
  {
    var ns := NumberedMessages(ms);
    NumberedMax(ms);
    forall n: nat | 1 <= n <= |ms|
      ensures MessageExists(ns, n)
    {
      assert ns[n - 1].id == n;
    }
  }

  lemma {:induction false} NumberedMax(ms: seq<MessageRow>)
    ensures MaxMessageId(NumberedMessages(ms)) == |ms|
  {
    if ms != [] {
      NumberedMax(ms[..|ms| - 1]);
      assert NumberedMessages(ms)[..|ms| - 1] == NumberedMessages(ms[..|ms| - 1]);
    }
  }

  lemma NumberedPlace(ms: seq<MessageRow>, n: nat)
    requires n <= |ms|
    ensures Place(NumberedMessages(ms), n) == n
  {
    NumberedIds(ms);
    PlaceOfMessage(NumberedMessages(ms), n);
  }

  /** Numbering a numbered database changes nothing. */
  lemma NumberedTwice(db: Tables)
    requires Linked(db)
    ensures Numbered(Numbered(db)) == Numbered(db)
  {
    var ms, t := db.messages, Numbered(db);
    assert NumberedMessages(t.messages) == t.messages;
    forall i | 0 <= i < |db.embeddings|
      ensures NumberedEmbeddings(t.messages, t.embeddings)[i] == t.embeddings[i]
    {
      PlaceOfMessage(ms, db.embeddings[i].key);
      NumberedPlace(ms, Place(ms, db.embeddings[i].key));
    }
    assert NumberedEmbeddings(t.messages, t.embeddings) == t.embeddings;
    forall q | q in t.terms
      ensures (Place(t.messages, q.0), q.1) == q
    {
      var p :| p in db.terms && q == (Place(ms, p.0), p.1);
      PlaceOfMessage(ms, p.0);
      NumberedPlace(ms, q.0);
    }
    SameImage(t.messages, t.terms);
  }

  lemma SameImage(ms: seq<MessageRow>, terms: set<(nat, Token)>)
    requires forall q :: q in terms ==> (Place(ms, q.0), q.1) == q
    ensures NumberedTerms(ms, terms) == terms
  {
    forall q | q in terms
      ensures q in NumberedTerms(ms, terms)
    {
      assert q == (Place(ms, q.0), q.1);
    }
  }

  lemma NumberedLinked(db: Tables)
    requires Linked(db)
    ensures Linked(Numbered(db))
  {
    var ms, t := db.messages, Numbered(db);
    NumberedIds(ms);
    forall i | 0 <= i < |t.embeddings|
      ensures MessageExists(t.messages, t.embeddings[i].key)
    {
      PlaceOfMessage(ms, db.embeddings[i].key);
    }
    forall q | q in t.terms
      ensures MessageExists(t.messages, q.0)
    {
      var p :| p in db.terms && q == (Place(ms, p.0), p.1);
      PlaceOfMessage(ms, p.0);
    }
  }

  // ----- a new message -----

  lemma NumberedTermsMore(lex: Lexicon, ms: seq<MessageRow>, m: MessageRow, terms: set<(nat, Token)>, content: Text)
    requires forall i :: 0 <= i < |ms| ==> ms[i].id < m.id
    requires forall p :: p in terms ==> MessageExists(ms, p.0)
    ensures NumberedTerms(ms + [m], ReplaceTerms(lex, terms, PLAIN, m.id, content))
         == ReplaceTerms(lex, NumberedTerms(ms, terms), PLAIN, |ms| + 1, content)
  {
    var old', new' := ReplaceTerms(lex, terms, PLAIN, m.id, content), ReplaceTerms(lex, NumberedTerms(ms, terms), PLAIN, |ms| + 1, content);
    PlaceInMore(ms, m, m.id);
    forall p | p in terms
      ensures Place(ms + [m], p.0) == Place(ms, p.0) && p.0 != m.id && Place(ms, p.0) != |ms| + 1
    {
      PlaceInMore(ms, m, p.0);
      PlaceOfMessage(ms, p.0);
    }
    forall q | q in NumberedTerms(ms + [m], old')
      ensures q in new'
    {
      var p :| p in old' && q == (Place(ms + [m], p.0), p.1);
      if p in TermRows(lex, PLAIN, m.id, content) {
        var w :| w in Tokenize(lex, content) && p == (m.id, MapTerm(PLAIN, w));
        assert q == (|ms| + 1, MapTerm(PLAIN, w));
      }
    }
    forall q | q in new'
      ensures q in NumberedTerms(ms + [m], old')
    {
      if q in TermRows(lex, PLAIN, |ms| + 1, content) {
        var w :| w in Tokenize(lex, content) && q == (|ms| + 1, MapTerm(PLAIN, w));
        assert (m.id, MapTerm(PLAIN, w)) in TermRows(lex, PLAIN, m.id, content);
      } else {
        var p :| p in terms && q == (Place(ms, p.0), p.1);
        assert p in old';
      }
    }
  }

  lemma NumberedEmbeddingsMore(db: Tables, m: MessageRow)
    requires EmbeddingsOwned(db) && forall i :: 0 <= i < |db.messages| ==> db.messages[i].id < m.id
    ensures NumberedEmbeddings(db.messages + [m], db.embeddings) == NumberedEmbeddings(db.messages, db.embeddings)
  {
    forall i | 0 <= i < |db.embeddings|
      ensures Place(db.messages + [m], db.embeddings[i].key) == Place(db.messages, db.embeddings[i].key)
    {
      PlaceInMore(db.messages, m, db.embeddings[i].key);
    }
  }

  /** Whatever id a new message gets, the numbered database gets it under the next number. */
  lemma NumberedAppend(lex: Lexicon, db: Tables, r: Record, nonces: Nonces, id: nat)
    requires Linked(db) && forall i :: 0 <= i < |db.messages| ==> db.messages[i].id < id
    ensures Numbered(AppendAs(lex, db, PLAIN, r, nonces, id)) == AppendAs(lex, Numbered(db), PLAIN, r, nonces, |db.messages| + 1)
  {
    var ms, m := db.messages, StoredMessage(PLAIN, id, r, nonces);
    NumberedTermsMore(lex, ms, m, db.terms, r.content);
    NumberedEmbeddingsMore(db, m);
    assert NumberedMessages(ms + [m]) == NumberedMessages(ms) + [StoredMessage(PLAIN, |ms| + 1, r, nonces)];
  }

  lemma AppendLinked(lex: Lexicon, db: Tables, r: Record, nonces: Nonces, id: nat)
    requires Linked(db) && id > 0 && forall i :: 0 <= i < |db.messages| ==> db.messages[i].id < id
    ensures Linked(AppendAs(lex, db, PLAIN, r, nonces, id))
  {
    var db' := AppendAs(lex, db, PLAIN, r, nonces, id);
    ExistsInMore(db.messages, db'.messages);
    assert db'.messages[|db.messages|].id == id;
    assert MessageExists(db'.messages, id);
  }

  lemma ExistsInMore(ms: seq<MessageRow>, ms': seq<MessageRow>)
    requires ms <= ms'
    ensures forall id :: MessageExists(ms, id) ==> MessageExists(ms', id)
  {
    forall id | MessageExists(ms, id)
      ensures MessageExists(ms', id)
    {
      var i :| 0 <= i < |ms| && ms[i].id == id;
      assert ms'[i].id == id;
    }
  }

  // ----- batches -----

  lemma SkipsNumbered(ms: seq<MessageRow>, sealed: bool, r: Record)
    ensures SkipsPlainly(NumberedMessages(ms), sealed, r) <==> SkipsPlainly(ms, sealed, r)
  {
    var ns := NumberedMessages(ms);
    SkipsByRow(ms, sealed, r);
    SkipsByRow(ns, sealed, r);
    forall i | 0 <= i < |ms|
      ensures KeepsOut(sealed, ns[i], r) <==> KeepsOut(sealed, ms[i], r)
    {
      assert ns[i] == ms[i].(id := i + 1);
    }
  }

  /** A record offered to a numbered plaintext database under the duplicate rule of either mode. */
  function DenseRecord(lex: Lexicon, t: Tables, sealed: bool, r: Record, nonces: Nonces): Tables {
    if SkipsPlainly(t.messages, sealed, r) then t else AppendAs(lex, t, PLAIN, r, nonces, |t.messages| + 1)
  }

  function DenseBatch(lex: Lexicon, t: Tables, sealed: bool, rs: seq<Record>, nonces: Nonces): Tables {
    if rs == [] then t
    else DenseRecord(lex, DenseBatch(lex, t, sealed, rs[..|rs| - 1], nonces), sealed, rs[|rs| - 1], nonces)
  }

  /** One record into a plaintext store, whatever its counter. */
  lemma PlainRecordIsDense(lex: Lexicon, db: Tables, r: Record, nonces: Nonces)
    requires Linked(db)
    ensures var db' := InsertRecord(lex, db, PLAIN, r, nonces);
            Linked(db') && Numbered(db') == DenseRecord(lex, Numbered(db), false, r, nonces)
  {
    PlainSkip(lex, db, r, nonces);
    SkipsNumbered(db.messages, false, r);
    if !Skips(db, PLAIN, r, nonces) {
      NumberedAppend(lex, db, r, nonces, NextId(db, PLAIN));
      AppendLinked(lex, db, r, nonces, NextId(db, PLAIN));
    }
  }

  lemma {:induction false} PlainBatchIsDense(lex: Lexicon, db: Tables, rs: seq<Record>, nonces: Nonces)
    requires Linked(db)
    ensures var db' := InsertBatch(lex, db, PLAIN, rs, nonces);
            Linked(db') && Numbered(db') == DenseBatch(lex, Numbered(db), false, rs, nonces)
  {
    if rs != [] {
      PlainBatchIsDense(lex, db, rs[..|rs| - 1], nonces);
      PlainRecordIsDense(lex, InsertBatch(lex, db, PLAIN, rs[..|rs| - 1], nonces), rs[|rs| - 1], nonces);
    }
  }

  lemma PlainExists(db: Tables, ctx: Option<Context>)
    ensures forall id :: MessageExists(Plain(db, ctx).messages, id) <==> MessageExists(db.messages, id)
  {
    forall id
      ensures MessageExists(Plain(db, ctx).messages, id) <==> MessageExists(db.messages, id)
    {
      PlainMessageExists(db, ctx, id);
    }
  }

  lemma PlainTermsOwned(lex: Lexicon, db: Tables, ctx: Option<Context>)
    requires Indexed(lex, db, ctx)
    ensures TermsOwned(Plain(db, ctx))
  {
    PlainExists(db, ctx);
    forall q | q in Plain(db, ctx).terms
      ensures MessageExists(Plain(db, ctx).messages, q.0)
    {
      var t :| t in db.terms && q == (t.0, Word(Unmap(t.1)));
      IndexIds(lex, SessionOf(db, ctx), db.messages, t);
    }
  }

  lemma PlainEmbeddingsOwned(db: Tables, ctx: Option<Context>)
    requires EmbeddingsOwned(db)
    ensures EmbeddingsOwned(Plain(db, ctx))
  {
    PlainExists(db, ctx);
    assert forall i :: 0 <= i < |db.embeddings| ==> Plain(db, ctx).embeddings[i].key == db.embeddings[i].key;
  }

  lemma PlainLinked(lex: Lexicon, db: Tables, ctx: Option<Context>)
    requires Consistent(lex, db, ctx)
    ensures Linked(Plain(db, ctx))
  {
    PlainTermsOwned(lex, db, ctx);
    PlainEmbeddingsOwned(db, ctx);
  }

  lemma PlainNextId(db: Tables, ctx: Option<Context>, i: nat)
    requires i < |db.messages|
    ensures Plain(db, ctx).messages[i].id < NextId(db, SessionOf(db, ctx))
  {
  }

  /** One record into a store of either mode. */
  lemma RecordIsDense(lex: Lexicon, db: Tables, ctx: Option<Context>, r: Record, nonces: Nonces)
    requires Consistent(lex, db, ctx)
    ensures Numbered(Plain(InsertRecord(lex, db, SessionOf(db, ctx), r, nonces), ctx))
         == DenseRecord(lex, Numbered(Plain(db, ctx)), ctx.Some?, r, nonces)
  {
    var s, p := SessionOf(db, ctx), Plain(db, ctx);
    SkipsExactly(lex, db, ctx, r, nonces);
    SkipsNumbered(p.messages, ctx.Some?, r);
    if Skips(db, s, r, nonces) {
      assert Plain(Touched(db, NextId(db, s)), ctx) == p.(sequence := Larger(db.sequence, NextId(db, s)));
    } else {
      PlainLinked(lex, db, ctx);
      PlainAppend(lex, db, ctx, r, nonces);
      forall i | 0 <= i < |p.messages|
        ensures p.messages[i].id < NextId(db, s)
      {
        PlainNextId(db, ctx, i);
      }
      NumberedAppend(lex, p, r, nonces, NextId(db, s));
    }
  }

  /** A batch does to the plaintext, up to ids, what the duplicate rule of its mode does: with encryption or
      without, whatever the records, and whatever ids were skipped before. */
  lemma {:induction false} BatchIsDense(lex: Lexicon, db: Tables, ctx: Option<Context>, rs: seq<Record>, nonces: Nonces)
    requires Consistent(lex, db, ctx)
    ensures Numbered(Plain(InsertBatch(lex, db, SessionOf(db, ctx), rs, nonces), ctx))
         == DenseBatch(lex, Numbered(Plain(db, ctx)), ctx.Some?, rs, nonces)
  {
    if rs != [] {
      var rs', r, s := rs[..|rs| - 1], rs[|rs| - 1], SessionOf(db, ctx);
      BatchIsDense(lex, db, ctx, rs', nonces);
      InsertBatchKeeps(lex, db, ctx, rs', nonces);
      var mid := InsertBatch(lex, db, s, rs', nonces);
      assert SessionOf(mid, ctx) == s;
      RecordIsDense(lex, mid, ctx, r, nonces);
    }
  }

  // ----- where the duplicate rules agree -----

  /** An encrypted store and a plaintext store with the same messages, ids aside, treat a record alike exactly where
      the modes do not part; where they do, the encrypted one skips a record without a source key that the other
      stores, and stores one with a source key that the other skips. */
  lemma ModesAgreeExactly(lex: Lexicon, db: Tables, c: Context, open: Tables, r: Record, nonces: Nonces)
    requires Consistent(lex, db, Some(c)) && Consistent(lex, open, None)
    requires NumberedMessages(Plain(db, Some(c)).messages) == NumberedMessages(open.messages)
    ensures var sealedSkips, openSkips := Skips(db, SessionOf(db, Some(c)), r, nonces), Skips(open, SessionOf(open, None), r, nonces);
            && ((sealedSkips <==> openSkips) <==> !ModesPart(open.messages, r))
            && (ModesPart(open.messages, r) ==> (sealedSkips <==> NoSourceKey(r)) && (openSkips <==> !NoSourceKey(r)))
  {
    SkipsExactly(lex, db, Some(c), r, nonces);
    SkipsNumbered(Plain(db, Some(c)).messages, true, r);
    SkipsExactly(lex, open, None, r, nonces);
    assert Plain(open, None).messages == open.messages;
    SkipsNumbered(open.messages, true, r);
    RulesAgreeExactly(open.messages, r);
  }

  /** The two modes agree on every record of the batch. */
  ghost predicate BatchAgrees(lex: Lexicon, t: Tables, rs: seq<Record>, nonces: Nonces) {
    rs == [] ||
    (&& BatchAgrees(lex, t, rs[..|rs| - 1], nonces)
     && ModesAgree(DenseBatch(lex, t, false, rs[..|rs| - 1], nonces).messages, rs[|rs| - 1]))
  }

  lemma {:induction false} AgreedBatch(lex: Lexicon, t: Tables, rs: seq<Record>, nonces: Nonces)
    requires BatchAgrees(lex, t, rs, nonces)
    ensures DenseBatch(lex, t, true, rs, nonces) == DenseBatch(lex, t, false, rs, nonces)
  {
    if rs != [] {
      AgreedBatch(lex, t, rs[..|rs| - 1], nonces);
      RulesAgreeExactly(DenseBatch(lex, t, false, rs[..|rs| - 1], nonces).messages, rs[|rs| - 1]);
    }
  }

  /** Inserting while encrypted, then looking at the plaintext, is inserting into the plaintext, up to ids
      and where the duplicate rules agree. */
  lemma InsertBatchRefines(lex: Lexicon, db: Tables, ctx: Option<Context>, rs: seq<Record>, nonces: Nonces)
    requires Consistent(lex, db, ctx)
    requires ctx.Some? ==> BatchAgrees(lex, Numbered(Plain(db, ctx)), rs, nonces)
    ensures SameUpToIds(InsertBatch(lex, Plain(db, ctx), PLAIN, rs, nonces), Plain(InsertBatch(lex, db, SessionOf(db, ctx), rs, nonces), ctx))
  {
    BatchIsDense(lex, db, ctx, rs, nonces);
    PlainLinked(lex, db, ctx);
    PlainBatchIsDense(lex, Plain(db, ctx), rs, nonces);
    if ctx.Some? {
      AgreedBatch(lex, Numbered(Plain(db, ctx)), rs, nonces);
    }
  }

  // ----- the other writes -----

  /** What a write answers, by places: a new message is the last one. */
  function PlacedStored(o: Result<(Tables, Stored), Failure>): Result<(Tables, Stored), Failure> {
    match o
    case Err(e) => Err(e)
    case Ok((db, Inserted(id))) => Ok((Numbered(db), Inserted(Place(db.messages, id))))
    case Ok((db, Duplicate(id))) => Ok((Numbered(db), Duplicate(Place(db.messages, id))))
  }

  function NumberedResult(r: Result<Tables, Failure>): Result<Tables, Failure> {
    match r
    case Err(e) => Err(e)
    case Ok(db) => Ok(Numbered(db))
  }

  function PlacedId(ms: seq<MessageRow>, id: Option<nat>): Option<nat> {
    match id
    case None => None
    case Some(d) => Some(Place(ms, d))
  }

  /** The exact-content lookup finds the same message. */
  lemma FindExactNumbered(db: Tables, ns: Namespace, content: Text)
    requires OrderedMessages(db.messages)
    ensures FindExact(Numbered(db), PLAIN, ns, content) == PlacedId(db.messages, FindExact(db, PLAIN, ns, content))
  {
    var f := (m: MessageRow) => Matches(PLAIN, m, ns, content);
    FirstIndexSame(db.messages, f, NumberedMessages(db.messages), f);
    var first := FirstIndex(db.messages, f);
    if first.Some? {
      PlaceAt(db.messages, first.value);
    }
  }

  function OfMessage(id: nat): EmbeddingRow -> bool {
    (r: EmbeddingRow) => r.key == id
  }

  lemma {:induction false} NumberedRowIds(ms: seq<MessageRow>, es: seq<EmbeddingRow>)
    ensures MaxRowId(NumberedEmbeddings(ms, es)) == MaxRowId(es)
  {
    if es != [] {
      NumberedRowIds(ms, es[..|es| - 1]);
      assert NumberedEmbeddings(ms, es)[..|es| - 1] == NumberedEmbeddings(ms, es[..|es| - 1]);
    }
  }

  lemma EmbeddingFound(db: Tables, id: nat)
    requires EmbeddingsOwned(db)
    ensures FirstIndex(db.embeddings, OfMessage(id))
         == FirstIndex(NumberedEmbeddings(db.messages, db.embeddings), OfMessage(Place(db.messages, id)))
  {
    var ms, ns := db.messages, NumberedEmbeddings(db.messages, db.embeddings);
    forall i | 0 <= i < |db.embeddings|
      ensures OfMessage(id)(db.embeddings[i]) == OfMessage(Place(ms, id))(ns[i])
    {
      if Place(ms, db.embeddings[i].key) == Place(ms, id) {
        PlaceApart(ms, db.embeddings[i].key, id);
      }
    }
    FirstIndexSame(db.embeddings, OfMessage(id), ns, OfMessage(Place(ms, id)));
  }

  lemma SavedAs(db: Tables, s: Session, id: nat, json: Text, nonces: Nonces)
    ensures SaveEmbedding(db, s, id, json, nonces) ==
              match FirstIndex(db.embeddings, OfMessage(id))
              case Some(i) => Ok(db.(embeddings := PutRow(s, db.embeddings, i, id, json, EmbeddingJson, nonces)))
              case None =>
                if MessageExists(db.messages, id) then Ok(db.(embeddings := AddRow(s, db.embeddings, id, json, EmbeddingJson, nonces)))
                else Err(Integrity)
  {
    FirstIndexSame(db.embeddings, OfMessage(id), db.embeddings, (r: EmbeddingRow) => r.key == id);
  }

  lemma PutNumbered(ms: seq<MessageRow>, es: seq<EmbeddingRow>, i: nat, id: nat, json: Text, nonces: Nonces)
    requires i < |es|
    ensures NumberedEmbeddings(ms, PutRow(PLAIN, es, i, id, json, EmbeddingJson, nonces))
         == PutRow(PLAIN, NumberedEmbeddings(ms, es), i, Place(ms, id), json, EmbeddingJson, nonces)
  {
  }

  lemma AddNumbered(ms: seq<MessageRow>, es: seq<EmbeddingRow>, id: nat, json: Text, nonces: Nonces)
    ensures NumberedEmbeddings(ms, AddRow(PLAIN, es, id, json, EmbeddingJson, nonces))
         == AddRow(PLAIN, NumberedEmbeddings(ms, es), Place(ms, id), json, EmbeddingJson, nonces)
  {
    NumberedRowIds(ms, es);
  }

  /** An embedding for a message, named by its place. */
  lemma SaveNumbered(db: Tables, id: nat, json: Text, nonces: Nonces)
    requires Linked(db)
    ensures NumberedResult(SaveEmbedding(db, PLAIN, id, json, nonces)) == SaveEmbedding(Numbered(db), PLAIN, Place(db.messages, id), json, nonces)
  {
    var ms, t, n := db.messages, Numbered(db), Place(db.messages, id);
    SavedAs(db, PLAIN, id, json, nonces);
    SavedAs(t, PLAIN, n, json, nonces);
    EmbeddingFound(db, id);
    PlaceOfMessage(ms, id);
    NumberedIds(ms);
    if FirstIndex(db.embeddings, OfMessage(id)).Some? {
      PutNumbered(ms, db.embeddings, FirstIndex(db.embeddings, OfMessage(id)).value, id, json, nonces);
    } else {
      AddNumbered(ms, db.embeddings, id, json, nonces);
    }
  }

  lemma SaveLinked(db: Tables, id: nat, json: Text, nonces: Nonces)
    requires Linked(db) && SaveEmbedding(db, PLAIN, id, json, nonces).Ok?
    ensures Linked(SaveEmbedding(db, PLAIN, id, json, nonces).value)
  {
  }

  /** The facade store does the same, whatever id the new message gets. */
  lemma FacadeNumbered(lex: Lexicon, db: Tables, r: Record, embedding: Text, nonces: Nonces, id: nat)
    requires Linked(db) && id > 0 && forall i :: 0 <= i < |db.messages| ==> db.messages[i].id < id
    ensures PlacedStored(StoreFacadeAs(lex, db, PLAIN, r, embedding, nonces, id))
         == StoreFacadeAs(lex, Numbered(db), PLAIN, r, embedding, nonces, |db.messages| + 1)
  {
    var ms, n := db.messages, |db.messages| + 1;
    FindExactNumbered(db, r.ns, r.content);
    if FindExact(db, PLAIN, r.ns, r.content).None? {
      ClashNumbered(ms, r, nonces, id);
      NumberedAppend(lex, db, r, nonces, id);
      AppendLinked(lex, db, r, nonces, id);
      PlaceInMore(ms, StoredMessage(PLAIN, id, r, nonces), id);
      SaveNumbered(AppendAs(lex, db, PLAIN, r, nonces, id), id, embedding, nonces);
      SavedMessages(AppendAs(lex, db, PLAIN, r, nonces, id), id, embedding, nonces);
    }
  }

  lemma SavedMessages(db: Tables, id: nat, json: Text, nonces: Nonces)
    ensures var r := SaveEmbedding(db, PLAIN, id, json, nonces); r.Ok? ==> r.value.messages == db.messages
  {
  }

  lemma ClashNumbered(ms: seq<MessageRow>, r: Record, nonces: Nonces, id: nat)
    ensures ClashesWith(ms, StoredMessage(PLAIN, id, r, nonces))
       <==> ClashesWith(NumberedMessages(ms), StoredMessage(PLAIN, |ms| + 1, r, nonces))
  {
    var ns := NumberedMessages(ms);
    forall i | 0 <= i < |ms|
      ensures Clash(ms[i], StoredMessage(PLAIN, id, r, nonces)) <==> Clash(ns[i], StoredMessage(PLAIN, |ms| + 1, r, nonces))
    {
      assert ns[i] == ms[i].(id := i + 1);
    }
  }

  lemma FacadeLinked(lex: Lexicon, db: Tables, r: Record, embedding: Text, nonces: Nonces, id: nat)
    requires Linked(db) && id > 0 && forall i :: 0 <= i < |db.messages| ==> db.messages[i].id < id
    ensures var o := StoreFacadeAs(lex, db, PLAIN, r, embedding, nonces, id); o.Ok? ==> Linked(o.value.0)
  {
    if FindExact(db, PLAIN, r.ns, r.content).None? {
      AppendLinked(lex, db, r, nonces, id);
      var mid := AppendAs(lex, db, PLAIN, r, nonces, id);
      if SaveEmbedding(mid, PLAIN, id, embedding, nonces).Ok? {
        SaveLinked(mid, id, embedding, nonces);
      }
    }
  }

  // ----- ids that coincide -----

  function MessageIds(ms: seq<MessageRow>): (ids: seq<nat>) {
    seq(|ms|, i requires 0 <= i < |ms| => ms[i].id)
  }

  /** With the same ids, the same database up to ids is the same database, counter aside. */
  lemma SameIdsSameDatabase(a: Tables, b: Tables)
    requires Linked(a) && Linked(b) && SameUpToIds(a, b) && MessageIds(a.messages) == MessageIds(b.messages)
    ensures a == b.(sequence := a.sequence)
  {
    var na, nb := NumberedMessages(a.messages), NumberedMessages(b.messages);
    assert |na| == |nb| && |a.messages| == |b.messages|;
    forall i | 0 <= i < |a.messages|
      ensures a.messages[i] == b.messages[i]
    {
      assert na[i] == nb[i] && MessageIds(a.messages)[i] == MessageIds(b.messages)[i];
      assert a.messages[i] == na[i].(id := a.messages[i].id);
    }
    assert a.messages == b.messages;
    assert |NumberedEmbeddings(a.messages, a.embeddings)| == |NumberedEmbeddings(b.messages, b.embeddings)|;
    forall i | 0 <= i < |a.embeddings|
      ensures a.embeddings[i] == b.embeddings[i]
    {
      var ea, eb := NumberedEmbeddings(a.messages, a.embeddings), NumberedEmbeddings(b.messages, b.embeddings);
      assert ea[i] == eb[i];
      PlaceApart(a.messages, a.embeddings[i].key, b.embeddings[i].key);
    }
    assert a.embeddings == b.embeddings;
    TermsBack(a.messages, a.terms, b.terms);
    TermsBack(a.messages, b.terms, a.terms);
  }

  lemma TermsBack(ms: seq<MessageRow>, terms: set<(nat, Token)>, more: set<(nat, Token)>)
    requires NumberedTerms(ms, terms) == NumberedTerms(ms, more)
    requires (forall p :: p in terms ==> MessageExists(ms, p.0)) && (forall p :: p in more ==> MessageExists(ms, p.0))
    ensures terms <= more
  {
    forall p | p in terms
      ensures p in more
    {
      assert (Place(ms, p.0), p.1) in NumberedTerms(ms, more);
      var q :| q in more && (Place(ms, q.0), q.1) == (Place(ms, p.0), p.1);
      PlaceApart(ms, q.0, p.0);
    }
  }
}
