/** What a batch of records leaves in a store of either mode, ids included: records that keep no one out are
    added where no row keeps them out (storage.py). */
module Batches {
  import opened Basics
  import opened Crypto
  import opened Tokenizer
  import opened Rows
  import opened Inserts
  import opened Simulation

  /** The row a plaintext store makes of a record. */
  function RowOf(r: Record, id: nat): MessageRow {
    MessageRow(id, r.ns, r.content, r.timestamp, r.metadata, r.sourceKey, None)
  }

  predicate RecordsClash(a: Record, b: Record) {
    Clash(RowOf(a, 0), RowOf(b, 0))
  }

  predicate Unseen(ms: seq<MessageRow>, r: Record) {
    forall k :: 0 <= k < |ms| ==> !Clash(ms[k], RowOf(r, 0))
  }

  predicate Apart(rs: seq<Record>) {
    forall i, j :: 0 <= i < j < |rs| ==> !RecordsClash(rs[i], rs[j])
  }

  /** The records no row keeps out, in order. */
  function Unknown(ms: seq<MessageRow>, sealed: bool, rs: seq<Record>): (us: seq<Record>)
    ensures forall u :: u in us ==> u in rs && !SkipsPlainly(ms, sealed, u)
    ensures |us| <= |rs|
  {
    if rs == [] then []
    else Unknown(ms, sealed, rs[..|rs| - 1]) + if SkipsPlainly(ms, sealed, rs[|rs| - 1]) then [] else [rs[|rs| - 1]]
  }

  function RowUnless(skipped: bool, row: MessageRow): seq<MessageRow> {
    if skipped then [] else [row]
  }

  /** Where the counter stands after a batch. */
  function LastAfter(ms: seq<MessageRow>, sealed: bool, base: nat, rs: seq<Record>): nat {
    base + if sealed then |Unknown(ms, sealed, rs)| else |rs|
  }

  /** Their rows. Without a key every record offered takes an id, stored or not; with one only the stored do. */
  function AddedRows(ms: seq<MessageRow>, sealed: bool, base: nat, rs: seq<Record>): (rows: seq<MessageRow>)
    ensures |rows| == |Unknown(ms, sealed, rs)|
  {
    if rs == [] then []
    else
      var front, r := rs[..|rs| - 1], rs[|rs| - 1];
      AddedRows(ms, sealed, base, front) + RowUnless(SkipsPlainly(ms, sealed, r), RowOf(r, LastAfter(ms, sealed, base, front) + 1))
  }

  /** The old rows as they were, then one for each of the records; their ids aside. */
  predicate GrownBy(ms: seq<MessageRow>, rs: seq<Record>, ms': seq<MessageRow>) {
    ms <= ms' && RowsFor(rs, ms'[|ms|..])
  }

  /** One row for each record, ids aside. */
  predicate RowsFor(rs: seq<Record>, rows: seq<MessageRow>) {
    |rows| == |rs| && forall j :: 0 <= j < |rs| ==> rows[j] == RowOf(rs[j], rows[j].id)
  }

  predicate NeverKeepsOut(sealed: bool, rs: seq<Record>) {
    forall i, j :: 0 <= i < j < |rs| ==> !KeepsOut(sealed, RowOf(rs[i], 0), rs[j])
  }

  /** The ids grow, from above the base up to the top. */
  predicate Rising(base: nat, rows: seq<MessageRow>, top: nat) {
    && (forall j :: 0 <= j < |rows| ==> base < rows[j].id <= top)
    && (forall i, j :: 0 <= i < j < |rows| ==> rows[i].id < rows[j].id)
  }

  /** The added rows hold the unknown records, under growing ids. */
  lemma {:induction false} AddedRowsAre(ms: seq<MessageRow>, sealed: bool, base: nat, rs: seq<Record>)
    ensures RowsFor(Unknown(ms, sealed, rs), AddedRows(ms, sealed, base, rs))
    ensures Rising(base, AddedRows(ms, sealed, base, rs), LastAfter(ms, sealed, base, rs))
  {
    if rs != [] {
      var front, r := rs[..|rs| - 1], rs[|rs| - 1];
      FrontAndLast(rs);
      AddedRowsAre(ms, sealed, base, front);
      AddedStep(ms, sealed, base, front, r);
      UnknownStep(ms, sealed, front, r);
    }
  }

  lemma UnknownStep(ms: seq<MessageRow>, sealed: bool, rs: seq<Record>, r: Record)
    ensures Unknown(ms, sealed, rs + [r]) == Unknown(ms, sealed, rs) + if SkipsPlainly(ms, sealed, r) then [] else [r]
  {
    assert (rs + [r])[..|rs|] == rs;
  }

  lemma KeepsOutAnyId(sealed: bool, m: MessageRow, id: nat, r: Record)
    ensures KeepsOut(sealed, m.(id := id), r) <==> KeepsOut(sealed, m, r)
  {
  }

  lemma MoreRowsLetIn(ms: seq<MessageRow>, rows: seq<MessageRow>, sealed: bool, r: Record)
    requires forall j :: 0 <= j < |rows| ==> !KeepsOut(sealed, rows[j], r)
    ensures SkipsPlainly(ms + rows, sealed, r) <==> SkipsPlainly(ms, sealed, r)
  {
    var all := ms + rows;
    SkipsByRow(ms, sealed, r);
    SkipsByRow(all, sealed, r);
    assert forall k :: 0 <= k < |ms| ==> all[k] == ms[k];
    forall k | |ms| <= k < |all|
      ensures !KeepsOut(sealed, all[k], r)
    {
      assert all[k] == rows[k - |ms|];
    }
  }

  lemma AddedRowsLetIn(ms: seq<MessageRow>, sealed: bool, base: nat, rs: seq<Record>, r: Record)
    requires forall u :: u in rs ==> !KeepsOut(sealed, RowOf(u, 0), r)
    ensures SkipsPlainly(ms + AddedRows(ms, sealed, base, rs), sealed, r) <==> SkipsPlainly(ms, sealed, r)
  {
    var rows, us := AddedRows(ms, sealed, base, rs), Unknown(ms, sealed, rs);
    AddedRowsAre(ms, sealed, base, rs);
    forall j | 0 <= j < |rows|
      ensures !KeepsOut(sealed, rows[j], r)
    {
      assert us[j] in us && us[j] in rs;
      KeepsOutAnyId(sealed, RowOf(us[j], 0), rows[j].id, r);
    }
    MoreRowsLetIn(ms, rows, sealed, r);
  }

  lemma AddedStep(ms: seq<MessageRow>, sealed: bool, base: nat, rs: seq<Record>, r: Record)
    ensures var rows := AddedRows(ms, sealed, base, rs);
            && AddedRows(ms, sealed, base, rs + [r])
               == rows + RowUnless(SkipsPlainly(ms, sealed, r), RowOf(r, LastAfter(ms, sealed, base, rs) + 1))
            && LastAfter(ms, sealed, base, rs + [r])
               == LastAfter(ms, sealed, base, rs) + (if sealed && SkipsPlainly(ms, sealed, r) then 0 else 1)
  {
    assert (rs + [r])[..|rs|] == rs;
  }

  lemma MaxOfMore(ms: seq<MessageRow>, m: MessageRow)
    ensures MaxMessageId(ms + [m]) == Larger(MaxMessageId(ms), m.id)
  {
    assert (ms + [m])[..|ms|] == ms;
  }

  lemma FrontLetsIn(sealed: bool, rs: seq<Record>)
    requires rs != [] && NeverKeepsOut(sealed, rs)
    ensures NeverKeepsOut(sealed, rs[..|rs| - 1])
    ensures forall u :: u in rs[..|rs| - 1] ==> !KeepsOut(sealed, RowOf(u, 0), rs[|rs| - 1])
  {
    forall u | u in rs[..|rs| - 1]
      ensures !KeepsOut(sealed, RowOf(u, 0), rs[|rs| - 1])
    {
      var i :| 0 <= i < |rs| - 1 && rs[i] == u;
    }
  }

  // ----- rows and ids, record by record -----

  /** The plaintext rows of a store and the id before the next. */
  datatype Count = Count(rows: seq<MessageRow>, last: nat)

  function OfferOne(c: Count, sealed: bool, r: Record): Count {
    if SkipsPlainly(c.rows, sealed, r) then c.(last := c.last + if sealed then 0 else 1)
    else Count(c.rows + [RowOf(r, c.last + 1)], c.last + 1)
  }

  function OfferAll(c: Count, sealed: bool, rs: seq<Record>): Count {
    if rs == [] then c else OfferOne(OfferAll(c, sealed, rs[..|rs| - 1]), sealed, rs[|rs| - 1])
  }

  function CountOf(db: Tables, ctx: Option<Context>): Count {
    Count(Plain(db, ctx).messages, LastId(db, SessionOf(db, ctx)))
  }

  function PlainCount(db: Tables): Count {
    Count(db.messages, LastId(db, PLAIN))
  }

  lemma PlainRecordCounts(lex: Lexicon, db: Tables, r: Record, nonces: Nonces)
    ensures PlainCount(InsertRecord(lex, db, PLAIN, r, nonces)) == OfferOne(PlainCount(db), false, r)
  {
    PlainSkip(lex, db, r, nonces);
    MaxOfMore(db.messages, StoredMessage(PLAIN, NextId(db, PLAIN), r, nonces));
  }

  lemma SealedAppendCounts(lex: Lexicon, db: Tables, c: Context, r: Record, nonces: Nonces, id: nat)
    requires id == LastId(db, SessionOf(db, Some(c))) + 1
    ensures CountOf(Append(lex, db, SessionOf(db, Some(c)), r, nonces), Some(c)) == Count(Plain(db, Some(c)).messages + [RowOf(r, id)], id)
  {
    PlainAppend(lex, db, Some(c), r, nonces);
    MaxOfMore(db.messages, StoredMessage(SessionOf(db, Some(c)), id, r, nonces));
  }

  lemma TouchedCounts(db: Tables, c: Context, id: nat)
    ensures CountOf(Touched(db, id), Some(c)) == CountOf(db, Some(c))
  {
  }

  lemma SealedSkipCounts(lex: Lexicon, db: Tables, c: Context, r: Record, nonces: Nonces)
    requires Skips(db, SessionOf(db, Some(c)), r, nonces)
    ensures CountOf(InsertRecord(lex, db, SessionOf(db, Some(c)), r, nonces), Some(c)) == CountOf(db, Some(c))
  {
    TouchedCounts(db, c, NextId(db, SessionOf(db, Some(c))));
  }

  lemma SealedRecordCounts(lex: Lexicon, db: Tables, c: Context, r: Record, nonces: Nonces)
    requires Consistent(lex, db, Some(c))
    ensures CountOf(InsertRecord(lex, db, SessionOf(db, Some(c)), r, nonces), Some(c)) == OfferOne(CountOf(db, Some(c)), true, r)
  {
    SkipsExactly(lex, db, Some(c), r, nonces);
    if Skips(db, SessionOf(db, Some(c)), r, nonces) {
      SealedSkipCounts(lex, db, c, r, nonces);
    } else {
      SealedAppendCounts(lex, db, c, r, nonces, LastId(db, SessionOf(db, Some(c))) + 1);
    }
  }

  lemma {:induction false} PlainBatchCounts(lex: Lexicon, db: Tables, rs: seq<Record>, nonces: Nonces)
    ensures PlainCount(InsertBatch(lex, db, PLAIN, rs, nonces)) == OfferAll(PlainCount(db), false, rs)
  {
    if rs != [] {
      PlainBatchCounts(lex, db, rs[..|rs| - 1], nonces);
      PlainRecordCounts(lex, InsertBatch(lex, db, PLAIN, rs[..|rs| - 1], nonces), rs[|rs| - 1], nonces);
    }
  }

  lemma {:induction false} SealedBatchCounts(lex: Lexicon, db: Tables, c: Context, rs: seq<Record>, nonces: Nonces)
    requires Consistent(lex, db, Some(c))
    ensures CountOf(InsertBatch(lex, db, SessionOf(db, Some(c)), rs, nonces), Some(c)) == OfferAll(CountOf(db, Some(c)), true, rs)
  {
    if rs != [] {
      SealedBatchCounts(lex, db, c, rs[..|rs| - 1], nonces);
      InsertBatchKeeps(lex, db, Some(c), rs[..|rs| - 1], nonces);
      var mid := InsertBatch(lex, db, SessionOf(db, Some(c)), rs[..|rs| - 1], nonces);
      assert SessionOf(mid, Some(c)) == SessionOf(db, Some(c));
      SealedRecordCounts(lex, mid, c, rs[|rs| - 1], nonces);
    }
  }

  lemma PlainCountIs(lex: Lexicon, db: Tables)
    requires Consistent(lex, db, None)
    ensures CountOf(db, None) == PlainCount(db)
  {
    PlainOfPlaintext(lex, db);
  }

  /** The rows and ids a batch leaves, in either mode, record by record. */
  lemma BatchCounts(lex: Lexicon, db: Tables, ctx: Option<Context>, rs: seq<Record>, nonces: Nonces)
    requires Consistent(lex, db, ctx)
    ensures CountOf(InsertBatch(lex, db, SessionOf(db, ctx), rs, nonces), ctx) == OfferAll(CountOf(db, ctx), ctx.Some?, rs)
  {
    match ctx {
      case Some(c) => SealedBatchCounts(lex, db, c, rs, nonces);
      case None =>
        PlainBatchCounts(lex, db, rs, nonces);
        InsertBatchKeeps(lex, db, None, rs, nonces);
        PlainCountIs(lex, db);
        PlainCountIs(lex, InsertBatch(lex, db, SessionOf(db, None), rs, nonces));
    }
  }

  /** What is added with one record more, which is skipped or makes this row. */
  predicate AddsOne(ms: seq<MessageRow>, sealed: bool, base: nat, front: seq<Record>, skips: bool, row: MessageRow, grown: seq<MessageRow>, next: nat) {
    && grown == AddedRows(ms, sealed, base, front) + RowUnless(skips, row)
    && next == LastAfter(ms, sealed, base, front) + if sealed && skips then 0 else 1
  }

  lemma AddedUnfold(ms: seq<MessageRow>, sealed: bool, base: nat, rs: seq<Record>, front: seq<Record>, r: Record, skips: bool, row: MessageRow)
    requires rs != [] && front == rs[..|rs| - 1] && r == rs[|rs| - 1]
    requires skips == SkipsPlainly(ms, sealed, r) && row == RowOf(r, LastAfter(ms, sealed, base, front) + 1)
    ensures AddsOne(ms, sealed, base, front, skips, row, AddedRows(ms, sealed, base, rs), LastAfter(ms, sealed, base, rs))
  {
    UnknownUnfold(ms, sealed, rs, front, r);
  }

  lemma UnknownUnfold(ms: seq<MessageRow>, sealed: bool, rs: seq<Record>, front: seq<Record>, r: Record)
    requires rs != [] && front == rs[..|rs| - 1] && r == rs[|rs| - 1]
    ensures |rs| == |front| + 1 && |Unknown(ms, sealed, rs)| == |Unknown(ms, sealed, front)| + if SkipsPlainly(ms, sealed, r) then 0 else 1
  {
  }

  lemma OfferJoined(c: Count, sealed: bool, front: seq<Record>, r: Record, now: Count, skips: bool, row: MessageRow, grown: seq<MessageRow>, next: nat)
    requires now == Count(c.rows + AddedRows(c.rows, sealed, c.last, front), LastAfter(c.rows, sealed, c.last, front))
    requires skips == SkipsPlainly(now.rows, sealed, r) && row == RowOf(r, now.last + 1)
    requires AddsOne(c.rows, sealed, c.last, front, skips, row, grown, next)
    ensures OfferOne(now, sealed, r) == Count(c.rows + grown, next)
  {
    var rows := AddedRows(c.rows, sealed, c.last, front);
    NothingMore(rows);
    JoinThree(c.rows, rows, [row]);
  }

  /** Records that let each other in are added where no row keeps them out. */
  lemma {:induction false} OfferedAreAdded(c: Count, sealed: bool, rs: seq<Record>)
    requires NeverKeepsOut(sealed, rs)
    ensures OfferAll(c, sealed, rs) == Count(c.rows + AddedRows(c.rows, sealed, c.last, rs), LastAfter(c.rows, sealed, c.last, rs))
  {
    if rs == [] {
      NothingMore(c.rows);
    } else {
      var front, r := rs[..|rs| - 1], rs[|rs| - 1];
      FrontLetsIn(sealed, rs);
      OfferedAreAdded(c, sealed, front);
      AddedRowsLetIn(c.rows, sealed, c.last, front, r);
      var skips, row := SkipsPlainly(c.rows, sealed, r), RowOf(r, LastAfter(c.rows, sealed, c.last, front) + 1);
      AddedUnfold(c.rows, sealed, c.last, rs, front, r, skips, row);
      OfferJoined(c, sealed, front, r, OfferAll(c, sealed, front), skips, row, AddedRows(c.rows, sealed, c.last, rs), LastAfter(c.rows, sealed, c.last, rs));
    }
  }

  lemma PlainOfPlaintext(lex: Lexicon, db: Tables)
    requires Consistent(lex, db, None)
    ensures Plain(db, None).messages == db.messages
  {
  }

  /** A batch whose records do not keep each other out adds its unknown records, in order, under the ids the
      mode gives them. */
  lemma MixedBatch(lex: Lexicon, db: Tables, ctx: Option<Context>, rs: seq<Record>, nonces: Nonces)
    requires Consistent(lex, db, ctx) && NeverKeepsOut(ctx.Some?, rs)
    ensures var ms, s := Plain(db, ctx).messages, SessionOf(db, ctx);
            var ms' := Plain(InsertBatch(lex, db, s, rs, nonces), ctx).messages;
            && ms' == ms + AddedRows(ms, ctx.Some?, LastId(db, s), rs)
            && GrownBy(ms, Unknown(ms, ctx.Some?, rs), ms')
  {
    var ms, s := Plain(db, ctx).messages, SessionOf(db, ctx);
    BatchCounts(lex, db, ctx, rs, nonces);
    OfferedAreAdded(CountOf(db, ctx), ctx.Some?, rs);
    AddedIsGrown(ms, ctx.Some?, LastId(db, s), rs);
  }

  lemma AddedIsGrown(ms: seq<MessageRow>, sealed: bool, base: nat, rs: seq<Record>)
    ensures GrownBy(ms, Unknown(ms, sealed, rs), ms + AddedRows(ms, sealed, base, rs))
  {
    AddedRowsAre(ms, sealed, base, rs);
    RowsAreGrown(ms, Unknown(ms, sealed, rs), AddedRows(ms, sealed, base, rs));
  }

  lemma RowsAreGrown(ms: seq<MessageRow>, rs: seq<Record>, rows: seq<MessageRow>)
    requires RowsFor(rs, rows)
    ensures GrownBy(ms, rs, ms + rows)
  {
    TailOfJoined(ms, rows);
  }

  lemma TailOfJoined<T>(xs: seq<T>, ys: seq<T>)
    ensures (xs + ys)[|xs|..] == ys
  {
  }

  // ----- batches all known or all unknown -----

  lemma UnseenIsUnknown(ms: seq<MessageRow>, r: Record)
    ensures Unseen(ms, r) <==> !SkipsPlainly(ms, false, r)
  {
    SkipsByRow(ms, false, r);
    if !Unseen(ms, r) {
      var k :| 0 <= k < |ms| && Clash(ms[k], RowOf(r, 0));
      assert KeepsOut(false, ms[k], r);
    }
  }

  lemma {:induction false} AllUnknown(ms: seq<MessageRow>, sealed: bool, rs: seq<Record>)
    requires forall i :: 0 <= i < |rs| ==> !SkipsPlainly(ms, sealed, rs[i])
    ensures Unknown(ms, sealed, rs) == rs
  {
    if rs != [] {
      FrontAndLast(rs);
      AllUnknown(ms, sealed, rs[..|rs| - 1]);
    }
  }

  /** Records that clash with nothing are appended in order, under growing ids. */
  lemma CleanBatchAppends(lex: Lexicon, db: Tables, rs: seq<Record>, nonces: Nonces)
    requires forall i :: 0 <= i < |rs| ==> Unseen(db.messages, rs[i])
    requires Apart(rs)
    ensures var base := LastId(db, PLAIN);
            var rows := AddedRows(db.messages, false, base, rs);
            && InsertBatch(lex, db, PLAIN, rs, nonces).messages == db.messages + rows
            && RowsFor(rs, rows) && Rising(base, rows, base + |rs|)
  {
    forall i, j | 0 <= i < j < |rs|
      ensures !KeepsOut(false, RowOf(rs[i], 0), rs[j])
    {
      assert !RecordsClash(rs[i], rs[j]);
    }
    PlainBatchCounts(lex, db, rs, nonces);
    OfferedAreAdded(PlainCount(db), false, rs);
    forall i | 0 <= i < |rs|
      ensures !SkipsPlainly(db.messages, false, rs[i])
    {
      UnseenIsUnknown(db.messages, rs[i]);
    }
    AllUnknown(db.messages, false, rs);
    AddedRowsAre(db.messages, false, LastId(db, PLAIN), rs);
  }

  /** Records that are all there change nothing but the counter, which goes on by one for each. */
  lemma {:induction false} SeenBatchChangesNothing(lex: Lexicon, db: Tables, rs: seq<Record>, nonces: Nonces)
    requires forall i :: 0 <= i < |rs| ==> !Unseen(db.messages, rs[i])
    ensures InsertBatch(lex, db, PLAIN, rs, nonces) == db.(sequence := CountedTo(db, PLAIN, |rs|))
  {
    if rs != [] {
      var front, r := rs[..|rs| - 1], rs[|rs| - 1];
      SeenBatchChangesNothing(lex, db, front, nonces);
      var mid := db.(sequence := CountedTo(db, PLAIN, |front|));
      UnseenIsUnknown(db.messages, r);
      PlainSkip(lex, mid, r, nonces);
    }
  }
}
