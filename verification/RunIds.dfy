/** When the ids of a run are those of the run that is never encrypted (storage.py, migrations.py): SQLite's
    counter skips the ids of ignored rows, a store with a key does not. */
module RunIds {
  import opened Basics
  import opened Crypto
  import opened Tokenizer
  import opened Rows
  import opened Inserts
  import opened Fields
  import opened Simulation
  import opened Ids
  import opened Batches
  import opened Lifecycle
  import opened Runs

  /** Nothing was skipped since the last stored message. */
  predicate NoGap(c: Count) {
    c.last == MaxMessageId(c.rows)
  }

  /** No record that a plaintext batch stores finds a gap. */
  predicate BatchFindsNoGap(c: Count, rs: seq<Record>) {
    rs == [] ||
    (var mid, r := OfferAll(c, false, rs[..|rs| - 1]), rs[|rs| - 1];
     BatchFindsNoGap(c, rs[..|rs| - 1]) && (SkipsPlainly(mid.rows, false, r) || NoGap(mid)))
  }

  /** The facade stores no message: the content is there, or the source key is taken. */
  predicate FacadeKnows(plain: seq<MessageRow>, r: Record) {
    ContentKnown(plain, r.ns, r.content) || SourceKeyKnown(plain, r)
  }

  /** Nothing that the write stores in the plaintext database finds a gap. */
  predicate FindsNoGap(plain: Tables, w: Write) {
    match w
    case InsertMessages(rs) => BatchFindsNoGap(PlainCount(plain), rs)
    case Facade(r, _) =>
      FacadeKnows(plain.messages, r) || NoGap(PlainCount(plain))
    case _ => true
  }

  /** No message stored while the database is encrypted is one before which the never-encrypted database has a gap. */
  ghost predicate RunFindsNoGap(lex: Lexicon, w: World, cmds: seq<Command>) {
    forall i :: 0 <= i < |cmds| ==> StepFindsNoGap(Run(lex, w, cmds[..i]), PlainRun(lex, Plain(w.db, w.ctx), w, cmds[..i]), cmds[i])
  }

  predicate StepFindsNoGap(w: World, plain: Tables, cmd: Command) {
    Writes(w, cmd) && w.ctx.Some? ==> FindsNoGap(plain, cmd.write)
  }

  // ----- batches -----

  /** Renamed rows. */
  predicate SameButIds(a: seq<MessageRow>, b: seq<MessageRow>) {
    NumberedMessages(a) == NumberedMessages(b)
  }

  lemma SameSkips(a: seq<MessageRow>, b: seq<MessageRow>, sealed: bool, r: Record)
    requires SameButIds(a, b)
    ensures SkipsPlainly(a, sealed, r) <==> SkipsPlainly(b, sealed, r)
  {
    SkipsNumbered(a, sealed, r);
    SkipsNumbered(b, sealed, r);
  }

  lemma SameRows(a: seq<MessageRow>, b: seq<MessageRow>)
    requires SameButIds(a, b) && MessageIds(a) == MessageIds(b)
    ensures a == b
  {
    assert |a| == |NumberedMessages(a)| == |NumberedMessages(b)| == |b|;
    forall i | 0 <= i < |a|
      ensures a[i] == b[i]
    {
      assert NumberedMessages(a)[i] == NumberedMessages(b)[i] && MessageIds(a)[i] == MessageIds(b)[i];
      assert a[i] == NumberedMessages(a)[i].(id := a[i].id);
    }
  }

  lemma NumberedSnoc(ms: seq<MessageRow>, m: MessageRow)
    ensures NumberedMessages(ms + [m]) == NumberedMessages(ms) + [m.(id := |ms| + 1)]
  {
  }

  lemma IdsSnoc(ms: seq<MessageRow>, m: MessageRow)
    ensures MessageIds(ms + [m]) == MessageIds(ms) + [m.id]
  {
  }

  lemma SnocEqual<T>(a: seq<T>, x: T, b: seq<T>, y: T)
    ensures a + [x] == b + [y] <==> a == b && x == y
  {
    if a + [x] == b + [y] {
      assert |a| == |b|;
      assert (a + [x])[..|a|] == a && (b + [y])[..|b|] == b;
      assert (a + [x])[|a|] == x && (b + [y])[|b|] == y;
    }
  }

  /** One record in both stores: the ids stay equal exactly when it is not stored or finds no gap. */
  lemma OneRecordIds(a: Count, b: Count, r: Record)
    requires SameButIds(a.rows, b.rows) && NoGap(a)
    requires SkipsPlainly(a.rows, true, r) <==> SkipsPlainly(b.rows, false, r)
    ensures var a', b' := OfferOne(a, true, r), OfferOne(b, false, r);
            && SameButIds(a'.rows, b'.rows) && NoGap(a')
            && (MessageIds(a'.rows) == MessageIds(b'.rows)
                <==> MessageIds(a.rows) == MessageIds(b.rows) && (SkipsPlainly(b.rows, false, r) || NoGap(b)))
  {
    if !SkipsPlainly(b.rows, false, r) {
      var ma, mb := RowOf(r, a.last + 1), RowOf(r, b.last + 1);
      NumberedSnoc(a.rows, ma);
      NumberedSnoc(b.rows, mb);
      assert |a.rows| == |NumberedMessages(a.rows)| == |NumberedMessages(b.rows)| == |b.rows|;
      MaxOfMore(a.rows, ma);
      IdsSnoc(a.rows, ma);
      IdsSnoc(b.rows, mb);
      SnocEqual(MessageIds(a.rows), ma.id, MessageIds(b.rows), mb.id);
      if MessageIds(a.rows) == MessageIds(b.rows) {
        SameRows(a.rows, b.rows);
      }
    }
  }

  /** The rules agree on every record of the batch. */
  predicate OffersAgree(b: Count, rs: seq<Record>) {
    rs == [] ||
    (var mid, r := OfferAll(b, false, rs[..|rs| - 1]), rs[|rs| - 1];
     OffersAgree(b, rs[..|rs| - 1]) && (SkipsPlainly(mid.rows, true, r) <==> SkipsPlainly(mid.rows, false, r)))
  }

  lemma {:induction false} BatchIds(a: Count, b: Count, rs: seq<Record>)
    requires SameButIds(a.rows, b.rows) && NoGap(a) && OffersAgree(b, rs)
    ensures var a', b' := OfferAll(a, true, rs), OfferAll(b, false, rs);
            && SameButIds(a'.rows, b'.rows) && NoGap(a')
            && (MessageIds(a'.rows) == MessageIds(b'.rows) <==> MessageIds(a.rows) == MessageIds(b.rows) && BatchFindsNoGap(b, rs))
  {
    if rs != [] {
      var front, r := rs[..|rs| - 1], rs[|rs| - 1];
      BatchIds(a, b, front);
      SameSkips(OfferAll(a, true, front).rows, OfferAll(b, false, front).rows, true, r);
      OneRecordIds(OfferAll(a, true, front), OfferAll(b, false, front), r);
    }
  }

  lemma {:induction false} AgreedOffers(lex: Lexicon, p: Tables, rs: seq<Record>, nonces: Nonces)
    requires Linked(p) && BatchAgrees(lex, Numbered(p), rs, nonces)
    ensures OffersAgree(PlainCount(p), rs)
  {
    if rs != [] {
      var front, r := rs[..|rs| - 1], rs[|rs| - 1];
      AgreedOffers(lex, p, front, nonces);
      PlainBatchIsDense(lex, p, front, nonces);
      PlainBatchCounts(lex, p, front, nonces);
      var mid := InsertBatch(lex, p, PLAIN, front, nonces);
      RulesAgreeExactly(NumberedMessages(mid.messages), r);
      SkipsNumbered(mid.messages, true, r);
      SkipsNumbered(mid.messages, false, r);
    }
  }

  // ----- the facade -----

  /** The rows after a facade store: one more, under the next id, unless it is known. */
  predicate FacadeAdds(ms: seq<MessageRow>, r: Record, last: nat, ms': seq<MessageRow>) {
    ms' == ms + RowUnless(FacadeKnows(ms, r), RowOf(r, last + 1))
  }

  lemma SavedRows(db: Tables, s: Session, id: nat, json: Text, nonces: Nonces)
    requires MessageExists(db.messages, id)
    ensures var r := SaveEmbedding(db, s, id, json, nonces); r.Ok? && r.value.messages == db.messages && r.value.sequence == db.sequence
  {
  }

  lemma FacadeKnowsNumbered(a: seq<MessageRow>, b: seq<MessageRow>, r: Record)
    requires SameButIds(a, b)
    ensures FacadeKnows(a, r) <==> FacadeKnows(b, r)
  {
    assert |a| == |NumberedMessages(a)| == |NumberedMessages(b)| == |b|;
    forall i | 0 <= i < |a|
      ensures a[i] == b[i].(id := a[i].id)
    {
      assert NumberedMessages(a)[i] == NumberedMessages(b)[i];
    }
  }

  lemma PlainFacadeRows(lex: Lexicon, db: Tables, r: Record, e: Text, nonces: Nonces, db': Tables)
    requires db' == ApplyWrite(lex, db, PLAIN, Facade(r, e), nonces)
    ensures FacadeAdds(db.messages, r, LastId(db, PLAIN), db'.messages)
  {
    var id := NextId(db, PLAIN);
    var found := FindExact(db, PLAIN, r.ns, r.content);
    assert found.Some? <==> ContentKnown(db.messages, r.ns, r.content) by {
      if ContentKnown(db.messages, r.ns, r.content) {
        var i :| 0 <= i < |db.messages| && db.messages[i].ns == r.ns && db.messages[i].content == r.content;
        assert Matches(PLAIN, db.messages[i], r.ns, r.content);
      }
    }
    if found.None? {
      PlainSkip(lex, db, r, nonces);
      if DedupeKnown(db.messages, r) {
        DedupeIsContent(db.messages, r);
      }
      var mid := AppendAs(lex, db, PLAIN, r, nonces, id);
      assert mid.messages[|db.messages|].id == id;
      SavedRows(mid, PLAIN, id, e, nonces);
    }
  }

  lemma SealedFacadeRows(lex: Lexicon, db: Tables, c: Context, r: Record, e: Text, nonces: Nonces, p: Tables, p': Tables)
    requires Consistent(lex, db, Some(c)) && p == Plain(db, Some(c))
    requires p' == Plain(ApplyWrite(lex, db, SessionOf(db, Some(c)), Facade(r, e), nonces), Some(c))
    ensures FacadeAdds(p.messages, r, MaxMessageId(p.messages), p'.messages)
  {
    var s := SessionOf(db, Some(c));
    var id := NextId(db, s);
    FindExactMeaning(db, Some(c), r.ns, r.content);
    OpenKeepsMax(Some(c), db.messages);
    if FindExact(db, s, r.ns, r.content).None? {
      FacadeClash(lex, db, Some(c), r, nonces);
      PlainAppend(lex, db, Some(c), r, nonces);
      var mid := Append(lex, db, s, r, nonces);
      assert mid.messages[|db.messages|].id == id;
      SavedRows(mid, s, id, e, nonces);
    }
  }

  lemma {:induction false} OpenKeepsMax(ctx: Option<Context>, ms: seq<MessageRow>)
    ensures MaxMessageId(OpenMessages(ctx, ms)) == MaxMessageId(ms)
  {
    if ms != [] {
      assert OpenMessages(ctx, ms)[..|ms| - 1] == OpenMessages(ctx, ms[..|ms| - 1]);
      OpenKeepsMax(ctx, ms[..|ms| - 1]);
    }
  }

  lemma StoredIds(a: seq<MessageRow>, b: seq<MessageRow>, known: bool, ma: MessageRow, mb: MessageRow)
    ensures MessageIds(a + RowUnless(known, ma)) == MessageIds(b + RowUnless(known, mb))
       <==> MessageIds(a) == MessageIds(b) && (known || ma.id == mb.id)
  {
    if known {
      NothingMore(a);
      NothingMore(b);
    } else {
      IdsSnoc(a, ma);
      IdsSnoc(b, mb);
      SnocEqual(MessageIds(a), ma.id, MessageIds(b), mb.id);
    }
  }

  lemma FacadeRowIds(p: seq<MessageRow>, q: seq<MessageRow>, r: Record, top: nat, last: nat, p': seq<MessageRow>, q': seq<MessageRow>)
    requires SameButIds(p, q) && top == MaxMessageId(p) && FacadeKnows(p, r) == FacadeKnows(q, r)
    requires FacadeAdds(p, r, top, p') && FacadeAdds(q, r, last, q')
    ensures MessageIds(p') == MessageIds(q') <==> MessageIds(p) == MessageIds(q) && (FacadeKnows(q, r) || last == MaxMessageId(q))
  {
    StoredIds(p, q, FacadeKnows(q, r), RowOf(r, top + 1), RowOf(r, last + 1));
    if MessageIds(p) == MessageIds(q) {
      SameRows(p, q);
    }
  }

  lemma FacadeIds(p: seq<MessageRow>, q: Tables, r: Record, e: Text, p': seq<MessageRow>, q': seq<MessageRow>)
    requires SameButIds(p, q.messages)
    requires FacadeAdds(p, r, MaxMessageId(p), p') && FacadeAdds(q.messages, r, LastId(q, PLAIN), q')
    ensures MessageIds(p') == MessageIds(q') <==> MessageIds(p) == MessageIds(q.messages) && FindsNoGap(q, Facade(r, e))
  {
    FacadeKnowsNumbered(p, q.messages, r);
    FacadeRowIds(p, q.messages, r, MaxMessageId(p), LastId(q, PLAIN), p', q');
  }

  lemma FacadeWriteIds(lex: Lexicon, db: Tables, c: Context, q: Tables, r: Record, e: Text, nonces: Nonces, p: Tables, p': Tables, q': Tables)
    requires Consistent(lex, db, Some(c)) && p == Plain(db, Some(c)) && SameButIds(p.messages, q.messages)
    requires p' == Plain(ApplyWrite(lex, db, SessionOf(db, Some(c)), Facade(r, e), nonces), Some(c))
    requires q' == ApplyWrite(lex, q, PLAIN, Facade(r, e), nonces)
    ensures MessageIds(p'.messages) == MessageIds(q'.messages) <==> MessageIds(p.messages) == MessageIds(q.messages) && FindsNoGap(q, Facade(r, e))
  {
    SealedFacadeRows(lex, db, c, r, e, nonces, p, p');
    PlainFacadeRows(lex, q, r, e, nonces, q');
    FacadeIds(p.messages, q, r, e, p'.messages, q'.messages);
  }

  lemma BatchWriteIds(lex: Lexicon, db: Tables, c: Context, q: Tables, rs: seq<Record>, nonces: Nonces)
    requires Consistent(lex, db, Some(c)) && Linked(q) && SameUpToIds(Plain(db, Some(c)), q)
    requires BatchAgrees(lex, Numbered(Plain(db, Some(c))), rs, nonces)
    ensures var p', q' := Plain(InsertBatch(lex, db, SessionOf(db, Some(c)), rs, nonces), Some(c)), InsertBatch(lex, q, PLAIN, rs, nonces);
            MessageIds(p'.messages) == MessageIds(q'.messages)
            <==> MessageIds(Plain(db, Some(c)).messages) == MessageIds(q.messages) && BatchFindsNoGap(PlainCount(q), rs)
  {
    BatchCounts(lex, db, Some(c), rs, nonces);
    PlainBatchCounts(lex, q, rs, nonces);
    AgreedOffers(lex, q, rs, nonces);
    OpenKeepsMax(Some(c), db.messages);
    BatchIds(CountOf(db, Some(c)), PlainCount(q), rs);
  }

  // ----- steps and runs -----

  /** A run and its never-encrypted twin: the same up to ids, and the very same while nothing is encrypted yet. */
  ghost predicate Twins(w: World, q: Tables) {
    Linked(q) && SameUpToIds(Plain(w.db, w.ctx), q) && (w.ctx.None? ==> Plain(w.db, w.ctx) == q)
  }

  lemma MessagesStay(lex: Lexicon, db: Tables, s: Session, w: Write, nonces: Nonces)
    requires !w.InsertMessages? && !w.Facade?
    ensures ApplyWrite(lex, db, s, w, nonces).messages == db.messages
  {
  }

  lemma SealedWriteIds(lex: Lexicon, db: Tables, c: Context, q: Tables, w: Write, nonces: Nonces, p: Tables, p': Tables, q': Tables)
    requires Consistent(lex, db, Some(c)) && Linked(q) && p == Plain(db, Some(c)) && SameUpToIds(p, q)
    requires w.InsertMessages? ==> BatchAgrees(lex, Numbered(p), w.records, nonces)
    requires p' == Plain(ApplyWrite(lex, db, SessionOf(db, Some(c)), w, nonces), Some(c))
    requires q' == ApplyWrite(lex, q, PLAIN, Translated(w, db.messages, q.messages), nonces)
    ensures MessageIds(p'.messages) == MessageIds(q'.messages) <==> MessageIds(p.messages) == MessageIds(q.messages) && FindsNoGap(q, w)
  {
    match w {
      case InsertMessages(rs) => BatchWriteIds(lex, db, c, q, rs, nonces);
      case Facade(r, e) =>
        FacadeWriteIds(lex, db, c, q, r, e, nonces, p, p', q');
      case _ =>
        MessagesStay(lex, db, SessionOf(db, Some(c)), w, nonces);
        MessagesStay(lex, q, PLAIN, Translated(w, db.messages, q.messages), nonces);
    }
  }

  /** Translating between equal tables changes nothing that is done. */
  lemma TranslatedToItself(lex: Lexicon, q: Tables, w: Write, nonces: Nonces)
    requires Linked(q)
    ensures ApplyWrite(lex, q, PLAIN, Translated(w, q.messages, q.messages), nonces) == ApplyWrite(lex, q, PLAIN, w, nonces)
  {
    if w.Embed? {
      PlaceOfMessage(q.messages, w.messageId);
      PlaceOfMessage(q.messages, 0);
      SavedAs(q, PLAIN, w.messageId, w.json, nonces);
      SavedAs(q, PLAIN, 0, w.json, nonces);
      if !MessageExists(q.messages, w.messageId) {
        NoEmbedding(q, w.messageId);
        NoEmbedding(q, 0);
      }
    }
  }

  lemma NoEmbedding(q: Tables, id: nat)
    requires EmbeddingsOwned(q) && !MessageExists(q.messages, id)
    ensures FirstIndex(q.embeddings, OfMessage(id)).None?
  {
  }

  lemma OpenWrite(lex: Lexicon, db: Tables, w: Write, nonces: Nonces)
    requires Consistent(lex, db, None)
    ensures Plain(ApplyWrite(lex, db, SessionOf(db, None), w, nonces), None) == ApplyWrite(lex, Plain(db, None), PLAIN, w, nonces)
  {
    WriteKeeps(lex, db, None, w, nonces);
    PlainOfPlain(lex, db);
    PlainOfPlain(lex, ApplyWrite(lex, db, SessionOf(db, None), w, nonces));
  }

  lemma WrittenIds(lex: Lexicon, w: World, cmd: Command, keys: set<MasterKey>, q: Tables)
    requires Good(lex, w, keys) && DistinctIds(keys) && NonemptyIds(keys) && KeysOf(cmd) <= keys && StepAgrees(lex, w, cmd)
    requires Twins(w, q) && Writes(w, cmd)
    ensures var w', q' := Step(lex, w, cmd), PlainStep(lex, q, w, cmd);
            && (w'.ctx.None? ==> Plain(w'.db, w'.ctx) == q')
            && (MessageIds(Plain(w'.db, w'.ctx).messages) == MessageIds(q'.messages)
                <==> MessageIds(Plain(w.db, w.ctx).messages) == MessageIds(q.messages) && StepFindsNoGap(w, q, cmd))
  {
    ResolveDistinct(w.db, w.ctx, cmd.key, keys);
    if w.ctx.Some? {
      var w' := Step(lex, w, cmd);
      SealedWriteIds(lex, w.db, w.ctx.value, q, cmd.write, cmd.nonces, Plain(w.db, w.ctx), Plain(w'.db, w'.ctx), PlainStep(lex, q, w, cmd));
    } else {
      PlainOfPlain(lex, w.db);
      OpenWrite(lex, w.db, cmd.write, cmd.nonces);
      TranslatedToItself(lex, q, cmd.write, cmd.nonces);
    }
  }

  lemma StepIds(lex: Lexicon, w: World, cmd: Command, keys: set<MasterKey>, q: Tables, w': World, q': Tables)
    requires Good(lex, w, keys) && DistinctIds(keys) && NonemptyIds(keys) && KeysOf(cmd) <= keys && StepAgrees(lex, w, cmd)
    requires Twins(w, q) && w' == Step(lex, w, cmd) && q' == PlainStep(lex, q, w, cmd)
    ensures Twins(w', q')
    ensures MessageIds(Plain(w'.db, w'.ctx).messages) == MessageIds(q'.messages)
       <==> MessageIds(Plain(w.db, w.ctx).messages) == MessageIds(q.messages) && StepFindsNoGap(w, q, cmd)
  {
    StepRefines(lex, w, cmd, keys, q);
    if Writes(w, cmd) {
      WrittenIds(lex, w, cmd, keys, q);
    } else {
      LifecycleStep(lex, w, cmd, keys);
    }
  }

  lemma LifecycleStep(lex: Lexicon, w: World, cmd: Command, keys: set<MasterKey>)
    requires Good(lex, w, keys) && !Writes(w, cmd)
    ensures var w' := Step(lex, w, cmd);
            Plain(w'.db, w'.ctx) == Plain(w.db, w.ctx) && (w'.ctx.None? ==> w.ctx.None?)
  {
    match cmd
    case Do(_, _, _, _) =>
    case TurnOn(master, mode, nonces, _) => EnableCorrect(lex, w.db, w.ctx, master, mode, nonces);
    case Rekey(oldKey, newKey, nonces, _) => RotateCorrect(lex, w.db, w.ctx, oldKey, newKey, nonces);
  }

  lemma NoGapBefore(lex: Lexicon, w: World, cmds: seq<Command>)
    requires cmds != []
    ensures var front := cmds[..|cmds| - 1];
            RunFindsNoGap(lex, w, cmds) <==>
              RunFindsNoGap(lex, w, front)
              && StepFindsNoGap(Run(lex, w, front), PlainRun(lex, Plain(w.db, w.ctx), w, front), cmds[|cmds| - 1])
  {
    PrefixesOfFront(cmds);
  }

  lemma PrefixesOfFront<T>(xs: seq<T>)
    requires xs != []
    ensures var front := xs[..|xs| - 1]; forall i :: 0 <= i < |front| ==> front[..i] == xs[..i] && front[i] == xs[i]
  {
  }

  lemma {:induction false} RunIds(lex: Lexicon, w: World, cmds: seq<Command>, keys: set<MasterKey>)
    requires Good(lex, w, keys) && DistinctIds(keys) && NonemptyIds(keys) && UsesKeys(cmds, keys) && RunAgrees(lex, w, cmds)
    ensures var end, q := Run(lex, w, cmds), PlainRun(lex, Plain(w.db, w.ctx), w, cmds);
            Twins(end, q) && (MessageIds(Plain(end.db, end.ctx).messages) == MessageIds(q.messages) <==> RunFindsNoGap(lex, w, cmds))
  {
    if cmds == [] {
      PlainLinked(lex, w.db, w.ctx);
    } else {
      var front := cmds[..|cmds| - 1];
      AgreesBefore(lex, w, cmds);
      RunIds(lex, w, front, keys);
      RunsStayConsistent(lex, w, front, keys);
      NoGapBefore(lex, w, cmds);
      StepIds(lex, Run(lex, w, front), cmds[|cmds| - 1], keys, PlainRun(lex, Plain(w.db, w.ctx), w, front), Run(lex, w, cmds),
              PlainRun(lex, Plain(w.db, w.ctx), w, cmds));
    }
  }

  /** The ids of a run coincide with those of the run that is never encrypted exactly when no message that it
      stores while encrypted is one before which SQLite's counter skipped an id in the other; then the
      databases are the same, counter aside. */
  lemma IdsCoincideExactly(lex: Lexicon, w: World, cmds: seq<Command>, keys: set<MasterKey>)
    requires Good(lex, w, keys) && DistinctIds(keys) && NonemptyIds(keys) && UsesKeys(cmds, keys) && RunAgrees(lex, w, cmds)
    ensures var end, q := Run(lex, w, cmds), PlainRun(lex, Plain(w.db, w.ctx), w, cmds);
            var p := Plain(end.db, end.ctx);
            && (MessageIds(p.messages) == MessageIds(q.messages) <==> RunFindsNoGap(lex, w, cmds))
            && (RunFindsNoGap(lex, w, cmds) ==> p == q.(sequence := p.sequence))
  {
    RunIds(lex, w, cmds, keys);
    RunsStayConsistent(lex, w, cmds, keys);
    var end, q := Run(lex, w, cmds), PlainRun(lex, Plain(w.db, w.ctx), w, cmds);
    PlainLinked(lex, end.db, end.ctx);
    if RunFindsNoGap(lex, w, cmds) {
      SameIdsSameDatabase(Plain(end.db, end.ctx), q);
    }
  }
}
