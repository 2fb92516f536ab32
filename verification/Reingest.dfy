/** Reading Aider history files into the store again and again while they grow (providers/aider.py with
    storage.py): every reading appends exactly the turns whose source key is not stored yet. */
module Reingest {
  import opened Basics
  import opened Crypto
  import opened Tokenizer
  import opened Rows
  import opened Inserts
  import opened Batches
  import opened Aider
  import opened AiderIngest

  predicate Numbered(turns: seq<Turn>) {
    forall i :: 0 <= i < |turns| ==> turns[i].ordinal == i + 1
  }

  predicate InConversation(row: MessageRow, f: File) {
    row.ns.project == f.project && row.ns.provider == f.provider && row.ns.conversation == f.conversation
  }

  /** The row is the conversation's row for the turn's source key. */
  predicate Holds(row: MessageRow, f: File, t: Turn) {
    InConversation(row, f) && row.sourceKey == Some(SourceKey(f, t))
  }

  predicate Stored(ms: seq<MessageRow>, f: File, t: Turn) {
    exists k :: 0 <= k < |ms| && Holds(ms[k], f, t)
  }

  predicate StoredOnce(ms: seq<MessageRow>, f: File, t: Turn) {
    exists k :: 0 <= k < |ms| && Holds(ms[k], f, t) && forall l :: 0 <= l < |ms| && Holds(ms[l], f, t) ==> l == k
  }

  /** The turns whose source key is not stored yet, in order. */
  function NewTurns(ms: seq<MessageRow>, f: File, turns: seq<Turn>): seq<Turn> {
    if turns == [] then []
    else NewTurns(ms, f, turns[..|turns| - 1]) + if Stored(ms, f, turns[|turns| - 1]) then [] else [turns[|turns| - 1]]
  }

  predicate MadeFrom(row: MessageRow, f: File, u: Turn) {
    1 <= u.ordinal <= MAX_MICROSECOND && row == RowOf(ToRecord(f, u), row.id)
  }

  /** All rows of the conversation come from readings of the file, up to the cap of 999,999 turns. */
  ghost predicate FromReadings(ms: seq<MessageRow>, f: File) {
    forall k :: 0 <= k < |ms| && InConversation(ms[k], f) ==> exists u :: MadeFrom(ms[k], f, u)
  }

  /** Without encryption the timestamp takes part, so the cap counts; with it keys alone decide. */
  ghost predicate Readable(ms: seq<MessageRow>, sealed: bool, f: File, turns: seq<Turn>) {
    Numbered(turns) && (!sealed ==> FromReadings(ms, f) && |turns| <= MAX_MICROSECOND)
  }

  // ----- one reading -----

  lemma KeyIsUsable(f: File, t: Turn)
    ensures !NoSourceKey(ToRecord(f, t))
  {
    assert SourceKey(f, t)[|f.conversation|] == ':';
  }

  /** Within one conversation the duplicate rules of both modes come down to the source key. */
  lemma SkipsByKey(ms: seq<MessageRow>, f: File, sealed: bool, t: Turn)
    requires !sealed ==> FromReadings(ms, f) && 1 <= t.ordinal <= MAX_MICROSECOND
    ensures SkipsPlainly(ms, sealed, ToRecord(f, t)) <==> Stored(ms, f, t)
  {
    var r := ToRecord(f, t);
    KeyIsUsable(f, t);
    if Stored(ms, f, t) {
      var k :| 0 <= k < |ms| && Holds(ms[k], f, t);
      assert ms[k].sourceKey == r.sourceKey;
    }
    if !sealed && DedupeKnown(ms, r) {
      var k :| 0 <= k < |ms| && ms[k].ns == r.ns && ms[k].content == r.content && ms[k].timestamp == r.timestamp;
      assert InConversation(ms[k], f);
      var u :| MadeFrom(ms[k], f, u);
      OldRowNewTurn(f, ms[k], u, t);
      assert Holds(ms[k], f, t);
    }
  }

  lemma RecordsSnoc(f: File, turns: seq<Turn>, t: Turn)
    ensures Records(f, turns + [t]) == Records(f, turns) + [ToRecord(f, t)]
  {
  }

  lemma NewTurnsStep(ms: seq<MessageRow>, f: File, turns: seq<Turn>, t: Turn)
    ensures NewTurns(ms, f, turns + [t]) == NewTurns(ms, f, turns) + if Stored(ms, f, t) then [] else [t]
  {
    assert (turns + [t])[..|turns|] == turns;
  }

  lemma UnknownAreNewStep(ms: seq<MessageRow>, f: File, sealed: bool, front: seq<Turn>, t: Turn, rs: seq<Record>, r: Record)
    requires Unknown(ms, sealed, rs) == Records(f, NewTurns(ms, f, front)) && r == ToRecord(f, t)
    requires SkipsPlainly(ms, sealed, r) <==> Stored(ms, f, t)
    ensures Unknown(ms, sealed, rs + [r]) == Records(f, NewTurns(ms, f, front + [t]))
  {
    UnknownStep(ms, sealed, rs, r);
    NewTurnsStep(ms, f, front, t);
    RecordsSnoc(f, NewTurns(ms, f, front), t);
    NothingMore(Unknown(ms, sealed, rs));
    NothingMore(NewTurns(ms, f, front));
  }

  lemma {:induction false} UnknownAreNew(ms: seq<MessageRow>, f: File, sealed: bool, turns: seq<Turn>)
    requires Readable(ms, sealed, f, turns)
    ensures Unknown(ms, sealed, Records(f, turns)) == Records(f, NewTurns(ms, f, turns))
  {
    if turns != [] {
      var front, t := turns[..|turns| - 1], turns[|turns| - 1];
      FrontAndLast(turns);
      UnknownAreNew(ms, f, sealed, front);
      SkipsByKey(ms, f, sealed, t);
      RecordsSnoc(f, front, t);
      UnknownAreNewStep(ms, f, sealed, front, t, Records(f, front), ToRecord(f, t));
    }
  }

  lemma TurnsLetIn(f: File, sealed: bool, turns: seq<Turn>)
    requires Numbered(turns) && (!sealed ==> |turns| <= MAX_MICROSECOND)
    ensures NeverKeepsOut(sealed, Records(f, turns))
  {
    forall i, j | 0 <= i < j < |turns|
      ensures !KeepsOut(sealed, RowOf(ToRecord(f, turns[i]), 0), ToRecord(f, turns[j]))
    {
      KeyIsUsable(f, turns[j]);
      SourceKeyExactly(f, turns[i], turns[j]);
      TurnsClashExactly(f, turns[i], turns[j]);
    }
  }

  /** The ids of the new rows of a reading: without a key turn n takes the n-th id after the counter, with
      one the new turns take the next ids. */
  ghost predicate NewIds(sealed: bool, base: nat, news: seq<Turn>, rows: seq<MessageRow>) {
    |rows| == |news| && forall j :: 0 <= j < |news| ==> rows[j].id == base + (if sealed then j + 1 else news[j].ordinal)
  }

  lemma NewIdsStep(sealed: bool, base: nat, news: seq<Turn>, rows: seq<MessageRow>, t: Turn, row: MessageRow)
    requires NewIds(sealed, base, news, rows) && row.id == base + (if sealed then |news| + 1 else t.ordinal)
    ensures NewIds(sealed, base, news + [t], rows + [row])
  {
  }

  lemma NewTurnIdsStep(ms: seq<MessageRow>, f: File, sealed: bool, base: nat, front: seq<Turn>, t: Turn, rs: seq<Record>, r: Record)
    requires NewIds(sealed, base, NewTurns(ms, f, front), AddedRows(ms, sealed, base, rs))
    requires (SkipsPlainly(ms, sealed, r) <==> Stored(ms, f, t)) && t.ordinal == |rs| + 1
    ensures NewIds(sealed, base, NewTurns(ms, f, front + [t]), AddedRows(ms, sealed, base, rs + [r]))
  {
    var news, rows := NewTurns(ms, f, front), AddedRows(ms, sealed, base, rs);
    AddedStep(ms, sealed, base, rs, r);
    NewTurnsStep(ms, f, front, t);
    NothingMore(rows);
    NothingMore(news);
    NewIdsStep(sealed, base, news, rows, t, RowOf(r, LastAfter(ms, sealed, base, rs) + 1));
  }

  lemma {:induction false} NewTurnIds(ms: seq<MessageRow>, f: File, sealed: bool, base: nat, turns: seq<Turn>)
    requires Readable(ms, sealed, f, turns)
    ensures NewIds(sealed, base, NewTurns(ms, f, turns), AddedRows(ms, sealed, base, Records(f, turns)))
  {
    if turns != [] {
      var front, t := turns[..|turns| - 1], turns[|turns| - 1];
      FrontAndLast(turns);
      NewTurnIds(ms, f, sealed, base, front);
      SkipsByKey(ms, f, sealed, t);
      RecordsSnoc(f, front, t);
      NewTurnIdsStep(ms, f, sealed, base, front, t, Records(f, front), ToRecord(f, t));
    }
  }

  /** A reading appends exactly the turns whose source key is not stored yet, in order and with the ids of the
      mode: to a plaintext store whose rows of the conversation come from readings of the file, up to
      999,999 turns, and to an encrypted store always. */
  lemma ReadingAppendsNewTurns(lex: Lexicon, db: Tables, ctx: Option<Context>, f: File, turns: seq<Turn>, nonces: Nonces)
    requires Consistent(lex, db, ctx) && Readable(Plain(db, ctx).messages, ctx.Some?, f, turns)
    ensures var ms, s := Plain(db, ctx).messages, SessionOf(db, ctx);
            var ms' := Plain(InsertBatch(lex, db, s, Records(f, turns), nonces), ctx).messages;
            && GrownBy(ms, Records(f, NewTurns(ms, f, turns)), ms')
            && NewIds(ctx.Some?, LastId(db, s), NewTurns(ms, f, turns), ms'[|ms|..])
  {
    var ms, base := Plain(db, ctx).messages, LastId(db, SessionOf(db, ctx));
    TurnsLetIn(f, ctx.Some?, turns);
    MixedBatch(lex, db, ctx, Records(f, turns), nonces);
    UnknownAreNew(ms, f, ctx.Some?, turns);
    NewTurnIds(ms, f, ctx.Some?, base, turns);
    TailOfJoined(ms, AddedRows(ms, ctx.Some?, base, Records(f, turns)));
  }

  /** The row is the record of one of the turns. */
  ghost predicate IsOneOf(row: MessageRow, f: File, turns: set<Turn>) {
    exists t :: t in turns && row == RowOf(ToRecord(f, t), row.id)
  }

  function Members(turns: seq<Turn>): set<Turn> {
    set t | t in turns
  }

  lemma {:induction false} NewOrStored(ms: seq<MessageRow>, f: File, turns: seq<Turn>)
    ensures forall t :: t in turns ==> Stored(ms, f, t) || t in NewTurns(ms, f, turns)
    ensures forall t :: t in NewTurns(ms, f, turns) ==> t in turns && !Stored(ms, f, t)
  {
    if turns != [] {
      NewOrStored(ms, f, turns[..|turns| - 1]);
    }
  }

  lemma AddedTurn(f: File, added: seq<Turn>, rows: seq<MessageRow>, j: nat)
    requires RowsFor(Records(f, added), rows) && j < |added|
    ensures Holds(rows[j], f, added[j]) && IsOneOf(rows[j], f, Members(added))
  {
    assert rows[j] == RowOf(Records(f, added)[j], rows[j].id) && Records(f, added)[j] == ToRecord(f, added[j]);
    assert added[j] in Members(added);
  }

  lemma InTail<T>(xs: seq<T>, n: nat, j: nat)
    requires n + j < |xs|
    ensures xs[n..][j] == xs[n + j]
  {
  }

  lemma AddedIsStored(ms: seq<MessageRow>, f: File, added: seq<Turn>, after: seq<MessageRow>, t: Turn)
    requires GrownBy(ms, Records(f, added), after) && t in added
    ensures Stored(after, f, t)
  {
    var j :| 0 <= j < |added| && added[j] == t;
    AddedTurn(f, added, after[|ms|..], j);
    InTail(after, |ms|, j);
  }

  lemma ReadIsStored(ms: seq<MessageRow>, f: File, turns: seq<Turn>, after: seq<MessageRow>, t: Turn)
    requires GrownBy(ms, Records(f, NewTurns(ms, f, turns)), after) && t in turns
    ensures Stored(after, f, t)
  {
    if Stored(ms, f, t) {
      StoredStays(ms, after, f, t);
    } else {
      NewOrStored(ms, f, turns);
      AddedIsStored(ms, f, NewTurns(ms, f, turns), after, t);
    }
  }

  /** The rows after a reading: the old ones, one for each new turn, and none besides. */
  lemma AfterReading(ms: seq<MessageRow>, f: File, turns: seq<Turn>, after: seq<MessageRow>)
    requires GrownBy(ms, Records(f, NewTurns(ms, f, turns)), after)
    ensures ms <= after && forall t :: t in turns ==> Stored(after, f, t)
    ensures forall row :: row in after[|ms|..] ==> IsOneOf(row, f, Members(turns))
  {
    forall t | t in turns
      ensures Stored(after, f, t)
    {
      ReadIsStored(ms, f, turns, after, t);
    }
    forall row | row in after[|ms|..]
      ensures IsOneOf(row, f, Members(turns))
    {
      AddedRowIsTurn(ms, f, turns, after[|ms|..], row);
    }
  }

  lemma AddedRowIsTurn(ms: seq<MessageRow>, f: File, turns: seq<Turn>, rows: seq<MessageRow>, row: MessageRow)
    requires RowsFor(Records(f, NewTurns(ms, f, turns)), rows) && row in rows
    ensures IsOneOf(row, f, Members(turns))
  {
    var added := NewTurns(ms, f, turns);
    var j :| 0 <= j < |rows| && rows[j] == row;
    AddedTurn(f, added, rows, j);
    NewOrStored(ms, f, turns);
    OneOfMore(row, f, Members(added), Members(turns));
  }

  lemma OneOfMore(row: MessageRow, f: File, some: set<Turn>, more: set<Turn>)
    requires IsOneOf(row, f, some) && some <= more
    ensures IsOneOf(row, f, more)
  {
  }

  lemma StoredStays(ms: seq<MessageRow>, after: seq<MessageRow>, f: File, t: Turn)
    requires ms <= after && Stored(ms, f, t)
    ensures Stored(after, f, t)
  {
    var k :| 0 <= k < |ms| && Holds(ms[k], f, t);
    assert after[k] == ms[k];
  }

  lemma ReadingKeepsOrigin(ms: seq<MessageRow>, f: File, turns: seq<Turn>, after: seq<MessageRow>)
    requires FromReadings(ms, f) && Numbered(turns) && |turns| <= MAX_MICROSECOND
    requires GrownBy(ms, Records(f, NewTurns(ms, f, turns)), after)
    ensures FromReadings(after, f)
  {
    AfterReading(ms, f, turns, after);
    forall k | 0 <= k < |after| && InConversation(after[k], f)
      ensures exists u :: MadeFrom(after[k], f, u)
    {
      if k < |ms| {
        assert after[k] == ms[k];
      } else {
        assert after[k] in after[|ms|..];
        assert IsOneOf(after[k], f, Members(turns));
        var u :| u in Members(turns) && after[k] == RowOf(ToRecord(f, u), after[k].id);
        assert MadeFrom(after[k], f, u);
      }
    }
  }

  predicate KeyAmong(f: File, turns: seq<Turn>, t: Turn) {
    exists i :: 0 <= i < |turns| && SourceKey(f, turns[i]) == SourceKey(f, t)
  }

  lemma KeyIsAmong(f: File, turns: seq<Turn>, i: nat, t: Turn)
    requires i < |turns| && SourceKey(f, turns[i]) == SourceKey(f, t)
    ensures KeyAmong(f, turns, t)
  {
  }

  /** The old rows, and one holding each of the added turns. */
  predicate Adds(ms: seq<MessageRow>, f: File, added: seq<Turn>, after: seq<MessageRow>) {
    && ms <= after && |after| == |ms| + |added|
    && (forall j :: 0 <= j < |added| ==> Holds(after[|ms|..][j], f, added[j]))
  }

  lemma GrownAdds(ms: seq<MessageRow>, f: File, added: seq<Turn>, after: seq<MessageRow>)
    requires GrownBy(ms, Records(f, added), after)
    ensures Adds(ms, f, added, after)
  {
    forall j | 0 <= j < |added|
      ensures Holds(after[|ms|..][j], f, added[j])
    {
      AddedTurn(f, added, after[|ms|..], j);
    }
  }

  lemma HeldByRow(ms: seq<MessageRow>, f: File, added: seq<Turn>, after: seq<MessageRow>, k: nat, t: Turn)
    requires Adds(ms, f, added, after) && k < |after| && Holds(after[k], f, t)
    ensures Stored(ms, f, t) || KeyAmong(f, added, t)
  {
    if k < |ms| {
      assert ms[k] == after[k];
    } else {
      var j := k - |ms|;
      assert Holds(after[|ms|..][j], f, added[j]);
      KeyIsAmong(f, added, j, t);
    }
  }

  lemma NotAmongAdded(ms: seq<MessageRow>, f: File, added: seq<Turn>, after: seq<MessageRow>, t: Turn)
    requires Adds(ms, f, added, after) && !Stored(ms, f, t) && !KeyAmong(f, added, t)
    ensures !Stored(after, f, t)
  {
    forall k | 0 <= k < |after|
      ensures !Holds(after[k], f, t)
    {
      if Holds(after[k], f, t) {
        HeldByRow(ms, f, added, after, k, t);
      }
    }
  }

  // ----- any number of readings -----

  /** Readings one after the other, whatever each of them says. */
  function IngestAll(lex: Lexicon, db: Tables, s: Session, f: File, readings: seq<seq<Turn>>, nonces: nat -> Nonces): Tables {
    if readings == [] then db
    else
      var n := |readings| - 1;
      InsertBatch(lex, IngestAll(lex, db, s, f, readings[..n], nonces), s, Records(f, readings[n]), nonces(n))
  }

  predicate Ingestible(sealed: bool, readings: seq<seq<Turn>>) {
    forall i :: 0 <= i < |readings| ==> Numbered(readings[i]) && (!sealed ==> |readings[i]| <= MAX_MICROSECOND)
  }

  /** The turns of all readings. */
  function TurnsRead(readings: seq<seq<Turn>>): set<Turn> {
    if readings == [] then {} else TurnsRead(readings[..|readings| - 1]) + Members(readings[|readings| - 1])
  }

  lemma {:induction false} TurnsReadMeaning(readings: seq<seq<Turn>>, t: Turn)
    ensures t in TurnsRead(readings) <==> exists i :: 0 <= i < |readings| && t in readings[i]
  {
    if readings != [] {
      var n := |readings| - 1;
      TurnsReadMeaning(readings[..n], t);
      if i :| 0 <= i < n && t in readings[..n][i] {
        assert t in readings[i];
      }
      if i :| 0 <= i < |readings| && t in readings[i] {
        assert i < n ==> t in readings[..n][i];
      }
    }
  }

  /** All turns are stored; every row added is one of them. */
  ghost predicate Holding(before: seq<MessageRow>, after: seq<MessageRow>, f: File, turns: set<Turn>) {
    && before <= after
    && (forall t :: t in turns ==> Stored(after, f, t))
    && (forall row :: row in after[|before|..] ==> IsOneOf(row, f, turns))
  }

  lemma HoldingMore(before: seq<MessageRow>, mid: seq<MessageRow>, f: File, held: set<Turn>, turns: seq<Turn>, after: seq<MessageRow>)
    requires Holding(before, mid, f, held) && GrownBy(mid, Records(f, NewTurns(mid, f, turns)), after)
    ensures Holding(before, after, f, held + Members(turns))
  {
    AfterReading(mid, f, turns, after);
    forall t | t in held
      ensures Stored(after, f, t)
    {
      StoredStays(mid, after, f, t);
    }
    forall row | row in after[|before|..]
      ensures IsOneOf(row, f, held + Members(turns))
    {
      if row in mid[|before|..] {
        OneOfMore(row, f, held, held + Members(turns));
      } else {
        TailInTwo(after, |before|, mid, row);
        OneOfMore(row, f, Members(turns), held + Members(turns));
      }
    }
  }

  lemma TailInTwo<T>(all: seq<T>, n: nat, mid: seq<T>, x: T)
    requires mid <= all && n <= |mid| && x in all[n..] && x !in mid[n..]
    ensures x in all[|mid|..]
  {
    assert all[n..] == mid[n..] + all[|mid|..];
  }

  lemma {:induction false} IngestAllHolds(lex: Lexicon, db: Tables, ctx: Option<Context>, f: File, readings: seq<seq<Turn>>,
                                          nonces: nat -> Nonces)
    requires Consistent(lex, db, ctx) && Ingestible(ctx.Some?, readings)
    requires ctx.None? ==> FromReadings(Plain(db, ctx).messages, f)
    ensures var after := IngestAll(lex, db, SessionOf(db, ctx), f, readings, nonces);
            && Consistent(lex, after, ctx) && SessionOf(after, ctx) == SessionOf(db, ctx)
            && Holding(Plain(db, ctx).messages, Plain(after, ctx).messages, f, TurnsRead(readings))
            && (ctx.None? ==> FromReadings(Plain(after, ctx).messages, f))
  {
    if readings != [] {
      var n := |readings| - 1;
      IngestAllHolds(lex, db, ctx, f, readings[..n], nonces);
      var s := SessionOf(db, ctx);
      var mid := IngestAll(lex, db, s, f, readings[..n], nonces);
      var ms, turns := Plain(mid, ctx).messages, readings[n];
      assert SessionOf(mid, ctx) == s;
      ReadingAppendsNewTurns(lex, mid, ctx, f, turns, nonces(n));
      InsertBatchKeeps(lex, mid, ctx, Records(f, turns), nonces(n));
      var after := Plain(InsertBatch(lex, mid, s, Records(f, turns), nonces(n)), ctx).messages;
      HoldingMore(Plain(db, ctx).messages, ms, f, TurnsRead(readings[..n]), turns, after);
      if ctx.None? {
        ReadingKeepsOrigin(ms, f, turns, after);
      }
    }
  }

  lemma OneHolder(db: Tables, ctx: Option<Context>, f: File, t: Turn, k: nat, l: nat)
    requires UniqueMessages(db.messages) && k < |db.messages| && l < |db.messages|
    requires Holds(Plain(db, ctx).messages[k], f, t) && Holds(Plain(db, ctx).messages[l], f, t)
    ensures !(k < l)
  {
    if k < l {
      assert SameSourceKey(db.messages[k], db.messages[l]);
      assert false;
    }
  }

  lemma OnceIfUnique(db: Tables, ctx: Option<Context>, f: File, t: Turn)
    requires UniqueMessages(db.messages) && Stored(Plain(db, ctx).messages, f, t)
    ensures StoredOnce(Plain(db, ctx).messages, f, t)
  {
    var ms := Plain(db, ctx).messages;
    var k :| 0 <= k < |ms| && Holds(ms[k], f, t);
    forall l | 0 <= l < |ms| && Holds(ms[l], f, t)
      ensures l == k
    {
      OneHolder(db, ctx, f, t, k, l);
      OneHolder(db, ctx, f, t, l, k);
    }
  }

  /** However often a file is read and whatever happened to it in between: after all readings every
      turn of every reading is stored exactly once, the earlier rows are untouched, and every added row
      is a turn of a reading. */
  lemma EveryTurnOnce(lex: Lexicon, db: Tables, ctx: Option<Context>, f: File, readings: seq<seq<Turn>>, nonces: nat -> Nonces)
    requires Consistent(lex, db, ctx) && Ingestible(ctx.Some?, readings)
    requires ctx.None? ==> FromReadings(Plain(db, ctx).messages, f)
    ensures var ms, after := Plain(db, ctx).messages, Plain(IngestAll(lex, db, SessionOf(db, ctx), f, readings, nonces), ctx).messages;
            && ms <= after
            && (forall i, t :: 0 <= i < |readings| && t in readings[i] ==> StoredOnce(after, f, t))
            && (forall row :: row in after[|ms|..] ==> IsOneOf(row, f, TurnsRead(readings)))
  {
    IngestAllHolds(lex, db, ctx, f, readings, nonces);
    var after := IngestAll(lex, db, SessionOf(db, ctx), f, readings, nonces);
    forall i, t | 0 <= i < |readings| && t in readings[i]
      ensures StoredOnce(Plain(after, ctx).messages, f, t)
    {
      TurnsReadMeaning(readings, t);
      OnceIfUnique(after, ctx, f, t);
    }
  }
}
