/** A history file that is read, grows, and is read again, any number of times (providers/aider.py with
    storage.py): what each reading of the grown file adds. */
module GrownFile {
  import opened Basics
  import opened Crypto
  import opened Tokenizer
  import opened Rows
  import opened Inserts
  import opened Batches
  import opened Aider
  import opened AiderIngest
  import opened Reingest

  /** The turn is in the file, or was when the file had fewer lines. */
  ghost predicate Seen(session: string -> Option<Base>, p: seq<string>, t: Turn) {
    exists n :: 0 <= n <= |p| && t in Parse(session, p[..n])
  }

  ghost predicate SeenRow(row: MessageRow, f: File, session: string -> Option<Base>, p: seq<string>) {
    exists t :: Seen(session, p, t) && row == RowOf(ToRecord(f, t), row.id)
  }

  /** The conversation comes from readings of the file up to the lines p, all of whose turns are stored. */
  ghost predicate ReadUpTo(ms: seq<MessageRow>, f: File, session: string -> Option<Base>, p: seq<string>) {
    && (forall k :: 0 <= k < |ms| && InConversation(ms[k], f) ==> SeenRow(ms[k], f, session, p))
    && (forall t :: t in Parse(session, p) ==> Stored(ms, f, t))
  }

  /** No row of the store belongs to the file's conversation yet. */
  predicate NewConversation(ms: seq<MessageRow>, f: File) {
    forall k :: 0 <= k < |ms| ==> !InConversation(ms[k], f)
  }

  lemma NothingReadYet(ms: seq<MessageRow>, f: File, session: string -> Option<Base>)
    requires NewConversation(ms, f)
    ensures ReadUpTo(ms, f, session, [])
  {
    assert Join([]) == "";
    assert Parse(session, []) == [];
  }

  // ----- what is seen again -----

  lemma SeenGrows(session: string -> Option<Base>, p: seq<string>, s: seq<string>, t: Turn)
    requires Seen(session, p, t)
    ensures Seen(session, p + s, t)
  {
    var n :| 0 <= n <= |p| && t in Parse(session, p[..n]);
    assert (p + s)[..n] == p[..n];
  }

  lemma SameOrGrown(before: seq<Turn>, after: seq<Turn>, settled: seq<Turn>, i: nat)
    requires settled <= before && settled <= after && |before| <= |settled| + 1 && |before| <= |after| && i < |before|
    requires |before| > |settled| ==>
               before[|settled|].role == after[|settled|].role && before[|settled|].content <= after[|settled|].content
    ensures before[i].role == after[i].role && before[i].content <= after[i].content
  {
    if i < |settled| {
      assert settled[i] == before[i] && settled[i] == after[i];
    }
  }

  /** A turn of a file is still there when the file has grown, in its place and role, with at least the text it had. */
  lemma GrownTurn(session: string -> Option<Base>, p: seq<string>, s: seq<string>, before: seq<Turn>, after: seq<Turn>, i: nat)
    requires before == Parse(session, p) && after == Parse(session, p + s) && i < |before|
    ensures |before| <= |after| && before[i].ordinal == i + 1 == after[i].ordinal
    ensures before[i].role == after[i].role && before[i].content <= after[i].content
  {
    PrefixStability(session, p, s);
    Ordinals(session, p);
    Ordinals(session, p + s);
    SameOrGrown(before, after, Settled(session, p), i);
  }

  lemma StillThere(session: string -> Option<Base>, q: seq<string>, s: seq<string>, p: seq<string>, t: Turn, turns: seq<Turn>)
    requires p == q + s && t in Parse(session, q) && turns == Parse(session, p)
    ensures 1 <= t.ordinal <= |turns| && turns[t.ordinal - 1].role == t.role && t.content <= turns[t.ordinal - 1].content
  {
    var before := Parse(session, q);
    var i :| 0 <= i < |before| && before[i] == t;
    GrownTurn(session, q, s, before, turns, i);
  }

  lemma SeenStays(session: string -> Option<Base>, p: seq<string>, t: Turn, turns: seq<Turn>)
    requires Seen(session, p, t) && turns == Parse(session, p)
    ensures 1 <= t.ordinal <= |turns| && turns[t.ordinal - 1].role == t.role && t.content <= turns[t.ordinal - 1].content
  {
    var n :| 0 <= n <= |p| && t in Parse(session, p[..n]);
    CutInTwo(p, n);
    StillThere(session, p[..n], p[n..], p, t, turns);
  }

  lemma SeenIsReading(ms: seq<MessageRow>, f: File, session: string -> Option<Base>, p: seq<string>)
    requires ReadUpTo(ms, f, session, p) && |Parse(session, p)| <= MAX_MICROSECOND
    ensures FromReadings(ms, f)
  {
    forall k | 0 <= k < |ms| && InConversation(ms[k], f)
      ensures exists u :: MadeFrom(ms[k], f, u)
    {
      var t :| Seen(session, p, t) && ms[k] == RowOf(ToRecord(f, t), ms[k].id);
      SeenStays(session, p, t, Parse(session, p));
      assert MadeFrom(ms[k], f, t);
    }
  }

  // ----- which turns are new -----

  /** Number of leading turns that come back with the source key they had: all of the earlier
      reading, or all but its last turn when that one grew. */
  function Kept(f: File, before: seq<Turn>, after: seq<Turn>): nat
    requires |before| <= |after|
  {
    if before == [] || SourceKey(f, before[|before| - 1]) == SourceKey(f, after[|before| - 1]) then |before| else |before| - 1
  }

  /** Where the new turns begin: a grown turn may still find its key, if its digest is one of an earlier version. */
  function FirstNew(ms: seq<MessageRow>, f: File, before: seq<Turn>, after: seq<Turn>): nat
    requires |before| <= |after|
  {
    var k := Kept(f, before, after);
    if k < |before| && Stored(ms, f, after[k]) then k + 1 else k
  }

  lemma {:induction false} NewTurnsFrom(ms: seq<MessageRow>, f: File, turns: seq<Turn>, k: nat)
    requires k <= |turns|
    requires forall i :: 0 <= i < k ==> Stored(ms, f, turns[i])
    requires forall i :: k <= i < |turns| ==> !Stored(ms, f, turns[i])
    ensures NewTurns(ms, f, turns) == turns[k..]
  {
    if turns != [] {
      var n := |turns| - 1;
      NewTurnsFrom(ms, f, turns[..n], if k <= n then k else n);
      if k <= n {
        assert turns[k..] == turns[..n][k..] + [turns[n]];
      }
    }
  }

  lemma SameKeyStored(ms: seq<MessageRow>, f: File, a: Turn, b: Turn)
    requires Stored(ms, f, a) && SourceKey(f, a) == SourceKey(f, b)
    ensures Stored(ms, f, b)
  {
    var k :| 0 <= k < |ms| && Holds(ms[k], f, a);
    assert Holds(ms[k], f, b);
  }

  lemma KeptTurns(f: File, session: string -> Option<Base>, p: seq<string>, s: seq<string>, before: seq<Turn>, after: seq<Turn>, i: nat)
    requires before == Parse(session, p) && after == Parse(session, p + s) && |before| <= |after| && i < Kept(f, before, after)
    ensures SourceKey(f, before[i]) == SourceKey(f, after[i])
  {
    var settled := Settled(session, p);
    PrefixStability(session, p, s);
    if i < |settled| {
      assert settled[i] == before[i] && settled[i] == after[i];
    } else {
      assert i == |before| - 1;
    }
  }

  /** What a stored turn of the grown file can be: an earlier one, or the grown one under an earlier digest. */
  lemma StoredTurn(ms: seq<MessageRow>, f: File, session: string -> Option<Base>, p: seq<string>, t: Turn)
    requires ReadUpTo(ms, f, session, p) && Stored(ms, f, t)
    ensures exists u :: Seen(session, p, u) && u.ordinal == t.ordinal && u.role == t.role && f.digest(u.content) == f.digest(t.content)
  {
    var k :| 0 <= k < |ms| && Holds(ms[k], f, t);
    assert SeenRow(ms[k], f, session, p);
    var u :| Seen(session, p, u) && ms[k] == RowOf(ToRecord(f, u), ms[k].id);
    SourceKeyExactly(f, u, t);
  }

  lemma LaterIsNew(ms: seq<MessageRow>, f: File, session: string -> Option<Base>, p: seq<string>, t: Turn)
    requires ReadUpTo(ms, f, session, p) && t.ordinal > |Parse(session, p)|
    ensures !Stored(ms, f, t)
  {
    if Stored(ms, f, t) {
      StoredTurn(ms, f, session, p, t);
      var u :| Seen(session, p, u) && u.ordinal == t.ordinal;
      SeenStays(session, p, u, Parse(session, p));
    }
  }

  ghost predicate Injective(digest: string -> string) {
    forall a, b :: digest(a) == digest(b) ==> a == b
  }

  lemma EarlierText(f: File, session: string -> Option<Base>, p: seq<string>, before: seq<Turn>, u: Turn, text: string)
    requires Injective(f.digest) && Seen(session, p, u) && before == Parse(session, p)
    requires u.ordinal == |before| && f.digest(u.content) == f.digest(text)
    ensures before != [] && text <= before[|before| - 1].content
  {
    SeenStays(session, p, u, before);
  }

  /** With a digest that tells texts apart, a turn that grew is new. */
  lemma GrownIsNew(ms: seq<MessageRow>, f: File, session: string -> Option<Base>, p: seq<string>, before: seq<Turn>, t: Turn)
    requires ReadUpTo(ms, f, session, p) && Injective(f.digest) && before == Parse(session, p) != []
    requires t.ordinal == |before| && before[|before| - 1].content < t.content
    ensures !Stored(ms, f, t)
  {
    if Stored(ms, f, t) {
      StoredTurn(ms, f, session, p, t);
      var u :| Seen(session, p, u) && u.ordinal == t.ordinal && u.role == t.role && f.digest(u.content) == f.digest(t.content);
      EarlierText(f, session, p, before, u, t.content);
    }
  }

  /** A turn that came back with another source key has more text. */
  lemma OtherKeyMoreText(f: File, was: Turn, t: Turn)
    requires was.ordinal == t.ordinal && was.role == t.role && was.content <= t.content && SourceKey(f, was) != SourceKey(f, t)
    ensures was.content < t.content
  {
    SourceKeyExactly(f, was, t);
    assert was.content != t.content;
    assert was.content == t.content[..|was.content|];
  }

  lemma GrownPart(ms: seq<MessageRow>, f: File, session: string -> Option<Base>, p: seq<string>, s: seq<string>,
                  before: seq<Turn>, after: seq<Turn>)
    requires ReadUpTo(ms, f, session, p) && before == Parse(session, p) && after == Parse(session, p + s) && |before| <= |after|
    ensures Injective(f.digest) ==> FirstNew(ms, f, before, after) == Kept(f, before, after)
  {
    if Injective(f.digest) && Kept(f, before, after) < |before| {
      var n := |before| - 1;
      GrownTurn(session, p, s, before, after, n);
      OtherKeyMoreText(f, before[n], after[n]);
      GrownIsNew(ms, f, session, p, before, after[n]);
    }
  }

  lemma FrontStored(ms: seq<MessageRow>, f: File, session: string -> Option<Base>, p: seq<string>, s: seq<string>,
                    before: seq<Turn>, after: seq<Turn>, i: nat)
    requires ReadUpTo(ms, f, session, p) && before == Parse(session, p) && after == Parse(session, p + s) && |before| <= |after|
    requires i < Kept(f, before, after)
    ensures Stored(ms, f, after[i])
  {
    KeptTurns(f, session, p, s, before, after, i);
    assert before[i] in before;
    SameKeyStored(ms, f, before[i], after[i]);
  }

  lemma RestNew(ms: seq<MessageRow>, f: File, session: string -> Option<Base>, p: seq<string>, s: seq<string>,
                before: seq<Turn>, after: seq<Turn>, i: nat)
    requires ReadUpTo(ms, f, session, p) && before == Parse(session, p) && after == Parse(session, p + s)
    requires |before| <= i < |after|
    ensures !Stored(ms, f, after[i])
  {
    Ordinals(session, p + s);
    LaterIsNew(ms, f, session, p, after[i]);
  }

  lemma FirstNewSplits(ms: seq<MessageRow>, f: File, before: seq<Turn>, after: seq<Turn>)
    requires |before| <= |after|
    requires forall i :: 0 <= i < Kept(f, before, after) ==> Stored(ms, f, after[i])
    requires forall i :: |before| <= i < |after| ==> !Stored(ms, f, after[i])
    ensures NewTurns(ms, f, after) == after[FirstNew(ms, f, before, after)..]
  {
    NewTurnsFrom(ms, f, after, FirstNew(ms, f, before, after));
  }

  lemma NewTurnsOfGrownFile(ms: seq<MessageRow>, f: File, session: string -> Option<Base>, p: seq<string>, s: seq<string>,
                            before: seq<Turn>, after: seq<Turn>)
    requires ReadUpTo(ms, f, session, p) && before == Parse(session, p) && after == Parse(session, p + s) && |before| <= |after|
    ensures NewTurns(ms, f, after) == after[FirstNew(ms, f, before, after)..]
  {
    forall i | 0 <= i < Kept(f, before, after)
      ensures Stored(ms, f, after[i])
    {
      FrontStored(ms, f, session, p, s, before, after, i);
    }
    forall i | |before| <= i < |after|
      ensures !Stored(ms, f, after[i])
    {
      RestNew(ms, f, session, p, s, before, after, i);
    }
    FirstNewSplits(ms, f, before, after);
  }

  lemma RowStaysSeen(row: MessageRow, f: File, session: string -> Option<Base>, p: seq<string>, s: seq<string>)
    requires SeenRow(row, f, session, p)
    ensures SeenRow(row, f, session, p + s)
  {
    var t :| Seen(session, p, t) && row == RowOf(ToRecord(f, t), row.id);
    SeenGrows(session, p, s, t);
  }

  lemma NewRowSeen(row: MessageRow, f: File, session: string -> Option<Base>, p: seq<string>)
    requires IsOneOf(row, f, Members(Parse(session, p)))
    ensures SeenRow(row, f, session, p)
  {
    var t :| t in Members(Parse(session, p)) && row == RowOf(ToRecord(f, t), row.id);
    assert p[..|p|] == p;
    assert Seen(session, p, t);
  }

  lemma ReadOn(ms: seq<MessageRow>, f: File, session: string -> Option<Base>, p: seq<string>, s: seq<string>, after: seq<MessageRow>)
    requires ReadUpTo(ms, f, session, p) && GrownBy(ms, Records(f, NewTurns(ms, f, Parse(session, p + s))), after)
    ensures ReadUpTo(after, f, session, p + s)
  {
    var turns := Parse(session, p + s);
    AfterReading(ms, f, turns, after);
    forall k | 0 <= k < |after| && InConversation(after[k], f)
      ensures SeenRow(after[k], f, session, p + s)
    {
      if k < |ms| {
        assert after[k] == ms[k];
        RowStaysSeen(after[k], f, session, p, s);
      } else {
        assert after[k] in after[|ms|..];
        NewRowSeen(after[k], f, session, p + s);
      }
    }
  }

  /** Re-ingestion. When a file of which everything up to the lines p was read before has grown, reading
      it appends exactly the turns that are new or whose text grew, in order, and then everything up to
      p + s was read: in a plaintext store up to 999,999 turns, in an encrypted store always. */
  lemma ReingestGrownFile(lex: Lexicon, db: Tables, ctx: Option<Context>, f: File, session: string -> Option<Base>,
                          p: seq<string>, s: seq<string>, nonces: Nonces)
    requires Consistent(lex, db, ctx) && ReadUpTo(Plain(db, ctx).messages, f, session, p)
    requires ctx.None? ==> |Parse(session, p + s)| <= MAX_MICROSECOND
    ensures |Parse(session, p)| <= |Parse(session, p + s)|
    ensures var before, after, ms := Parse(session, p), Parse(session, p + s), Plain(db, ctx).messages;
            var ms' := Plain(InsertBatch(lex, db, SessionOf(db, ctx), Records(f, after), nonces), ctx).messages;
            var new' := after[FirstNew(ms, f, before, after)..];
            && GrownBy(ms, Records(f, new'), ms') && NewIds(ctx.Some?, LastId(db, SessionOf(db, ctx)), new', ms'[|ms|..])
            && ReadUpTo(ms', f, session, p + s)
            && (Injective(f.digest) ==> FirstNew(ms, f, before, after) == Kept(f, before, after))
  {
    var before, after, ms := Parse(session, p), Parse(session, p + s), Plain(db, ctx).messages;
    Ordinals(session, p + s);
    PrefixStability(session, p, s);
    NewTurnsOfGrownFile(ms, f, session, p, s, before, after);
    GrownPart(ms, f, session, p, s, before, after);
    if ctx.None? {
      SeenIsReading(ms, f, session, p);
    }
    ReadingAppendsNewTurns(lex, db, ctx, f, after, nonces);
    ReadOn(ms, f, session, p, s, Plain(InsertBatch(lex, db, SessionOf(db, ctx), Records(f, after), nonces), ctx).messages);
  }

  // ----- any number of readings of a growing file -----

  /** Each version of the file continues the one before. */
  predicate Growing(files: seq<seq<string>>) {
    forall i, j :: 0 <= i <= j < |files| ==> files[i] <= files[j]
  }

  function ParseAll(session: string -> Option<Base>, files: seq<seq<string>>): (readings: seq<seq<Turn>>)
    ensures |readings| == |files| && forall i :: 0 <= i < |files| ==> readings[i] == Parse(session, files[i])
  {
    if files == [] then [] else ParseAll(session, files[..|files| - 1]) + [Parse(session, files[|files| - 1])]
  }

  function Latest(files: seq<seq<string>>): seq<string> {
    if files == [] then [] else files[|files| - 1]
  }

  predicate WithinCap(sealed: bool, readings: seq<seq<Turn>>) {
    !sealed ==> forall i :: 0 <= i < |readings| ==> |readings[i]| <= MAX_MICROSECOND
  }

  ghost predicate ReadStore(lex: Lexicon, db: Tables, ctx: Option<Context>, f: File, session: string -> Option<Base>, p: seq<string>) {
    Consistent(lex, db, ctx) && ReadUpTo(Plain(db, ctx).messages, f, session, p)
  }

  lemma ChainStep(lex: Lexicon, db: Tables, ctx: Option<Context>, f: File, session: string -> Option<Base>,
                  p: seq<string>, q: seq<string>, s: Session, nonces: Nonces)
    requires ReadStore(lex, db, ctx, f, session, p) && p <= q && s == SessionOf(db, ctx)
    requires ctx.None? ==> |Parse(session, q)| <= MAX_MICROSECOND
    ensures var db' := InsertBatch(lex, db, s, Records(f, Parse(session, q)), nonces);
            ReadStore(lex, db', ctx, f, session, q) && SessionOf(db', ctx) == s
  {
    assert p + q[|p|..] == q;
    ReingestGrownFile(lex, db, ctx, f, session, p, q[|p|..], nonces);
    InsertBatchKeeps(lex, db, ctx, Records(f, Parse(session, q)), nonces);
  }

  lemma IngestSnoc(lex: Lexicon, db: Tables, s: Session, f: File, readings: seq<seq<Turn>>, turns: seq<Turn>, nonces: nat -> Nonces)
    ensures IngestAll(lex, db, s, f, readings + [turns], nonces)
         == InsertBatch(lex, IngestAll(lex, db, s, f, readings, nonces), s, Records(f, turns), nonces(|readings|))
  {
    assert (readings + [turns])[..|readings|] == readings;
  }

  lemma WithinCapSplit(sealed: bool, readings: seq<seq<Turn>>, turns: seq<Turn>)
    requires WithinCap(sealed, readings + [turns])
    ensures WithinCap(sealed, readings) && (!sealed ==> |turns| <= MAX_MICROSECOND)
  {
    assert (readings + [turns])[|readings|] == turns;
    assert forall i :: 0 <= i < |readings| ==> (readings + [turns])[i] == readings[i];
  }

  /** A conversation that was new before the first of them is, after any readings of a growing file, read
      up to the latest version: its rows are turns of the versions, and all turns of the latest are there. */
  lemma {:induction false} ReingestChain(lex: Lexicon, db: Tables, ctx: Option<Context>, f: File, session: string -> Option<Base>,
                                         files: seq<seq<string>>, nonces: nat -> Nonces, s: Session)
    requires Consistent(lex, db, ctx) && NewConversation(Plain(db, ctx).messages, f) && s == SessionOf(db, ctx)
    requires Growing(files) && WithinCap(ctx.Some?, ParseAll(session, files))
    ensures var end := IngestAll(lex, db, s, f, ParseAll(session, files), nonces);
            ReadStore(lex, end, ctx, f, session, Latest(files)) && SessionOf(end, ctx) == s
  {
    if files == [] {
      NothingReadYet(Plain(db, ctx).messages, f, session);
    } else {
      var front, q := files[..|files| - 1], files[|files| - 1];
      WithinCapSplit(ctx.Some?, ParseAll(session, front), Parse(session, q));
      ReingestChain(lex, db, ctx, f, session, front, nonces, s);
      var mid := IngestAll(lex, db, s, f, ParseAll(session, front), nonces);
      assert Latest(front) <= q;
      ChainStep(lex, mid, ctx, f, session, Latest(front), q, s, nonces(|front|));
      IngestSnoc(lex, db, s, f, ParseAll(session, front), Parse(session, q), nonces);
    }
  }

  lemma {:induction false} ParsedAreIngestible(session: string -> Option<Base>, files: seq<seq<string>>, sealed: bool)
    requires WithinCap(sealed, ParseAll(session, files))
    ensures Ingestible(sealed, ParseAll(session, files))
  {
    forall i | 0 <= i < |files|
      ensures Numbered(ParseAll(session, files)[i])
    {
      Ordinals(session, files[i]);
    }
  }

  /** Every source key once: whatever versions of a file are read, growing or not, into a store that has
      not seen its conversation, each turn of each version is stored exactly once and nothing else is added. */
  lemma ReingestStoresOnce(lex: Lexicon, db: Tables, ctx: Option<Context>, f: File, session: string -> Option<Base>,
                           files: seq<seq<string>>, nonces: nat -> Nonces)
    requires Consistent(lex, db, ctx) && NewConversation(Plain(db, ctx).messages, f)
    requires WithinCap(ctx.Some?, ParseAll(session, files))
    ensures var readings, ms := ParseAll(session, files), Plain(db, ctx).messages;
            var ms' := Plain(IngestAll(lex, db, SessionOf(db, ctx), f, readings, nonces), ctx).messages;
            && ms <= ms'
            && (forall i, t :: 0 <= i < |files| && t in Parse(session, files[i]) ==> StoredOnce(ms', f, t))
            && (forall row :: row in ms'[|ms|..] ==> IsOneOf(row, f, TurnsRead(readings)))
  {
    var readings := ParseAll(session, files);
    ParsedAreIngestible(session, files, ctx.Some?);
    EveryTurnOnce(lex, db, ctx, f, readings, nonces);
    forall i, t | 0 <= i < |files| && t in Parse(session, files[i])
      ensures StoredOnce(Plain(IngestAll(lex, db, SessionOf(db, ctx), f, readings, nonces), ctx).messages, f, t)
    {
      assert t in readings[i];
    }
  }

  lemma AllNew(ms: seq<MessageRow>, f: File, turns: seq<Turn>)
    requires forall i :: 0 <= i < |turns| ==> !Stored(ms, f, turns[i])
    ensures NewTurns(ms, f, turns) == turns
  {
    NewTurnsFrom(ms, f, turns, 0);
  }
}
