/** A run whose ids are not those of the run that is never encrypted (storage.py, migrations.py): SQLite's counter
    goes past a message that was offered twice, a store with a key does not. */
module IdGap {
  import opened Basics
  import opened Crypto
  import opened Tokenizer
  import opened Rows
  import opened Inserts
  import opened Simulation
  import opened Ids
  import opened Batches
  import opened Lifecycle
  import opened Rotation
  import opened Runs
  import opened Limits

  /** Two messages that nothing but their contents need tell apart. */
  predicate TwoTexts(x: Record, y: Record) {
    x.sourceKey == None && y.sourceKey == None && x.content != y.content
  }

  /** One message, the same again, another. */
  lemma Offered(x: Record, y: Record, sealed: bool)
    requires TwoTexts(x, y)
    ensures OfferOne(Count([], 0), sealed, x) == Count([RowOf(x, 1)], 1)
    ensures OfferOne(Count([RowOf(x, 1)], 1), sealed, x) == Count([RowOf(x, 1)], if sealed then 1 else 2)
    ensures forall last: nat :: OfferOne(Count([RowOf(x, 1)], last), sealed, y) == Count([RowOf(x, 1), RowOf(y, last + 1)], last + 1)
  {
    var ms := [RowOf(x, 1)];
    SkipsByRow([], sealed, x);
    SkipsByRow(ms, sealed, x);
    SkipsByRow(ms, sealed, y);
    assert KeepsOut(sealed, ms[0], x);
    forall last: nat
      ensures OfferOne(Count(ms, last), sealed, y) == Count([RowOf(x, 1), RowOf(y, last + 1)], last + 1)
    {
      assert ms + [RowOf(y, last + 1)] == [RowOf(x, 1), RowOf(y, last + 1)];
    }
  }

  lemma OfferTwo(c: Count, sealed: bool, rs: seq<Record>, r: Record)
    ensures OfferAll(c, sealed, rs + [r]) == OfferOne(OfferAll(c, sealed, rs), sealed, r)
  {
    assert (rs + [r])[..|rs|] == rs;
  }

  lemma OfferThree(x: Record, y: Record, sealed: bool)
    requires TwoTexts(x, y)
    ensures OfferAll(Count([], 0), sealed, [x, x, y]).rows == [RowOf(x, 1), RowOf(y, if sealed then 2 else 3)]
  {
    Offered(x, y, sealed);
    OfferTwo(Count([], 0), sealed, [], x);
    OfferTwo(Count([], 0), sealed, [x], x);
    OfferTwo(Count([], 0), sealed, [x, x], y);
    assert [] + [x] == [x] && [x] + [x] == [x, x] && [x, x] + [y] == [x, x, y];
  }

  /** Two empty stores, one encrypted from the start, are given the same messages: the second text gets the id 3
      in the one and 2 in the other. */
  lemma StoresPart(lex: Lexicon, c: Context, x: Record, y: Record, nonces: Nonces)
    requires UsableKey(c.master, c.dbIdentity) && '|' !in c.dbIdentity && TwoTexts(x, y)
    ensures var open, sealed := EmptyPlain(c.dbIdentity), EmptySealed(c);
            && MessageIds(InsertBatch(lex, open, PLAIN, [x, x, y], nonces).messages) == [1, 3]
            && MessageIds(InsertBatch(lex, sealed, SessionOf(sealed, Some(c)), [x, x, y], nonces).messages) == [1, 2]
  {
    var open, sealed := EmptyPlain(c.dbIdentity), EmptySealed(c);
    OfferThree(x, y, false);
    OfferThree(x, y, true);
    PlainBatchCounts(lex, open, [x, x, y], nonces);
    EmptySealedIsConsistent(lex, c);
    SealedBatchCounts(lex, sealed, c, [x, x, y], nonces);
    assert Plain(sealed, Some(c)).messages == [];
    var after := InsertBatch(lex, sealed, SessionOf(sealed, Some(c)), [x, x, y], nonces);
    OpenedIds(after, Some(c));
    IdsOfTwo(x, y, 2);
    IdsOfTwo(x, y, 3);
  }

  lemma IdsOfTwo(x: Record, y: Record, id: nat)
    ensures MessageIds([RowOf(x, 1), RowOf(y, id)]) == [1, id]
  {
  }

  lemma OpenedIds(db: Tables, ctx: Option<Context>)
    ensures MessageIds(Plain(db, ctx).messages) == MessageIds(db.messages)
  {
  }

  // ----- the same in one run -----

  function Tell(r: Record, key: Option<MasterKey>, nonces: Nonces): Command {
    Do(InsertMessages([r]), key, nonces, false)
  }

  /** A message, the same again, encryption, another message. */
  function Told(c: Context, x: Record, y: Record, nonces: Nonces): seq<Command> {
    [Tell(x, None, nonces), Tell(x, None, nonces), TurnOn(c.master, KeyedTerms, nonces, false), Tell(y, Some(c.master), nonces)]
  }

  lemma RunMore(lex: Lexicon, w: World, plain: Tables, cmds: seq<Command>, cmd: Command)
    ensures Run(lex, w, cmds + [cmd]) == Step(lex, Run(lex, w, cmds), cmd)
    ensures PlainRun(lex, plain, w, cmds + [cmd]) == PlainStep(lex, PlainRun(lex, plain, w, cmds), Run(lex, w, cmds), cmd)
  {
    assert (cmds + [cmd])[..|cmds|] == cmds;
  }

  lemma OneTold(lex: Lexicon, db: Tables, r: Record, nonces: Nonces)
    requires Consistent(lex, db, None)
    ensures var w' := Step(lex, World(db, None), Tell(r, None, nonces));
            && w'.ctx == None && Consistent(lex, w'.db, None) && PlainCount(w'.db) == OfferOne(PlainCount(db), false, r)
            && w'.db.meta == db.meta && PlainStep(lex, db, World(db, None), Tell(r, None, nonces)) == w'.db
  {
    var w' := Step(lex, World(db, None), Tell(r, None, nonces));
    assert w'.db == InsertBatch(lex, db, PLAIN, [r], nonces);
    InsertBatchKeeps(lex, db, None, [r], nonces);
    PlainBatchCounts(lex, db, [r], nonces);
    OfferTwo(PlainCount(db), false, [], r);
    assert [] + [r] == [r];
  }

  /** Encrypting one message, then another one. */
  lemma SealedAndTold(lex: Lexicon, db: Tables, c: Context, x: Record, y: Record, nonces: Nonces)
    requires Consistent(lex, db, None) && db.meta.dbIdentity == c.dbIdentity && UsableKey(c.master, c.dbIdentity)
    requires TwoTexts(x, y) && db.messages == [RowOf(x, 1)]
    ensures var w1 := Step(lex, World(db, None), TurnOn(c.master, KeyedTerms, nonces, false));
            var w2 := Step(lex, w1, Tell(y, Some(c.master), nonces));
            && w1.ctx == Some(c) && Writes(w1, Tell(y, Some(c.master), nonces))
            && w2.ctx == Some(c) && MessageIds(w2.db.messages) == [1, 2]
  {
    EnableCorrect(lex, db, None, c.master, KeyedTerms, nonces);
    var w1 := Step(lex, World(db, None), TurnOn(c.master, KeyedTerms, nonces, false));
    PlainOfPlain(lex, db);
    assert w1.ctx == Some(c) && Plain(w1.db, Some(c)).messages == [RowOf(x, 1)];
    ResolveExactly(w1.db, Some(c), Some(c.master));
    OneLast(w1.db, Some(c), x);
    OneTelling(lex, w1.db, c, x, y, nonces);
  }

  lemma OneLast(db: Tables, ctx: Option<Context>, x: Record)
    requires Plain(db, ctx).messages == [RowOf(x, 1)]
    ensures MaxMessageId(db.messages) == 1
  {
    assert |db.messages| == |Plain(db, ctx).messages|;
    assert db.messages[0].id == Plain(db, ctx).messages[0].id;
    assert MaxMessageId(db.messages[..0]) == 0;
  }

  lemma OneTelling(lex: Lexicon, db: Tables, c: Context, x: Record, y: Record, nonces: Nonces)
    requires Consistent(lex, db, Some(c)) && Plain(db, Some(c)).messages == [RowOf(x, 1)] && MaxMessageId(db.messages) == 1 && TwoTexts(x, y)
    ensures MessageIds(InsertBatch(lex, db, SessionOf(db, Some(c)), [y], nonces).messages) == [1, 2]
  {
    SealedBatchCounts(lex, db, c, [y], nonces);
    OfferTwo(CountOf(db, Some(c)), true, [], y);
    assert [] + [y] == [y];
    Offered(x, y, true);
    OpenedIds(InsertBatch(lex, db, SessionOf(db, Some(c)), [y], nonces), Some(c));
    IdsOfTwo(x, y, 2);
  }

  lemma ToldTwice(lex: Lexicon, c: Context, x: Record, y: Record, nonces: Nonces)
    requires UsableKey(c.master, c.dbIdentity) && '|' !in c.dbIdentity && TwoTexts(x, y)
    ensures var w0 := World(EmptyPlain(c.dbIdentity), None);
            var w := Run(lex, w0, [Tell(x, None, nonces), Tell(x, None, nonces)]);
            && w.ctx == None && Consistent(lex, w.db, None) && PlainCount(w.db) == Count([RowOf(x, 1)], 2) && w.db.meta == w0.db.meta
            && PlainRun(lex, w0.db, w0, [Tell(x, None, nonces), Tell(x, None, nonces)]) == w.db
  {
    var db0, cmd := EmptyPlain(c.dbIdentity), Tell(x, None, nonces);
    var w0 := World(db0, None);
    EmptyPlainIsConsistent(lex, c.dbIdentity);
    Offered(x, y, false);
    RunMore(lex, w0, db0, [], cmd);
    RunMore(lex, w0, db0, [cmd], cmd);
    assert [] + [cmd] == [cmd] && [cmd] + [cmd] == [cmd, cmd];
    OneTold(lex, db0, x, nonces);
    OneTold(lex, Step(lex, w0, cmd).db, x, nonces);
  }

  /** Told to the never-encrypted store as well, the last message gets another id there. */
  lemma ToldPlainly(lex: Lexicon, q: Tables, x: Record, y: Record, nonces: Nonces)
    requires TwoTexts(x, y) && PlainCount(q) == Count([RowOf(x, 1)], 2)
    ensures MessageIds(InsertBatch(lex, q, PLAIN, [y], nonces).messages) == [1, 3]
  {
    PlainBatchCounts(lex, q, [y], nonces);
    OfferTwo(PlainCount(q), false, [], y);
    assert [] + [y] == [y];
    Offered(x, y, false);
    IdsOfTwo(x, y, 3);
  }

  lemma RunOfTold(lex: Lexicon, w0: World, q0: Tables, c: Context, x: Record, y: Record, nonces: Nonces, w: World)
    requires w == Run(lex, w0, [Tell(x, None, nonces), Tell(x, None, nonces)])
    ensures var on, last := TurnOn(c.master, KeyedTerms, nonces, false), Tell(y, Some(c.master), nonces);
            && Run(lex, w0, Told(c, x, y, nonces)) == Step(lex, Step(lex, w, on), last)
            && PlainRun(lex, q0, w0, Told(c, x, y, nonces))
               == PlainStep(lex, PlainRun(lex, q0, w0, [Tell(x, None, nonces), Tell(x, None, nonces)]), Step(lex, w, on), last)
  {
    var twice := [Tell(x, None, nonces), Tell(x, None, nonces)];
    var on, last := TurnOn(c.master, KeyedTerms, nonces, false), Tell(y, Some(c.master), nonces);
    RunMore(lex, w0, q0, twice, on);
    RunMore(lex, w0, q0, twice + [on], last);
    assert twice + [on] + [last] == Told(c, x, y, nonces);
  }

  /** An ordinary run whose ids part from those of the run that is never encrypted: a message offered twice before
      encryption, another one after it. The run holds it at id 2, the other at id 3. */
  lemma RunsPart(lex: Lexicon, c: Context, x: Record, y: Record, nonces: Nonces)
    requires UsableKey(c.master, c.dbIdentity) && '|' !in c.dbIdentity && TwoTexts(x, y)
    ensures var w0, cmds := World(EmptyPlain(c.dbIdentity), None), Told(c, x, y, nonces);
            && MessageIds(Run(lex, w0, cmds).db.messages) == [1, 2]
            && MessageIds(PlainRun(lex, w0.db, w0, cmds).messages) == [1, 3]
  {
    var w0 := World(EmptyPlain(c.dbIdentity), None);
    var w := Run(lex, w0, [Tell(x, None, nonces), Tell(x, None, nonces)]);
    ToldTwice(lex, c, x, y, nonces);
    RunOfTold(lex, w0, w0.db, c, x, y, nonces, w);
    SealedAndTold(lex, w.db, c, x, y, nonces);
    ToldPlainly(lex, w.db, x, y, nonces);
  }
}
