/** A history file of any length that says the same thing over and over (providers/aider.py with storage.py):
    turn timestamps are capped at 999,999 microseconds, so a plaintext store keeps its first 999,999 turns and
    an encrypted store all of them. */
module CapFile {
  import opened Basics
  import opened Crypto
  import opened Tokenizer
  import opened Rows
  import opened Inserts
  import opened Simulation
  import opened Batches
  import opened Lifecycle
  import opened Aider
  import opened AiderIngest
  import opened Reingest
  import opened GrownFile

  const TOLD := "#### x\n"
  const PAUSE := "\n"

  /** The user says x, n times. */
  function Lines(n: nat): seq<string> {
    if n == 0 then [] else Lines(n - 1) + [TOLD, PAUSE]
  }

  function Saying(ordinal: nat): Turn {
    Turn(User, "x", ordinal, SYNTHETIC_EPOCH, Some("####"))
  }

  function Sayings(n: nat): (turns: seq<Turn>)
    ensures |turns| == n && forall i :: 0 <= i < n ==> turns[i] == Saying(i + 1)
  {
    seq(n, i requires 0 <= i < n => Saying(i + 1))
  }

  // ----- parsing -----

  /** The machine after n sayings: a pause pending, which is blank. */
  function After(n: nat): State {
    State([], if n == 0 then [] else [PAUSE], [], None, SYNTHETIC_EPOCH, false, n, Sayings(n))
  }

  lemma JoinOne(line: string)
    ensures Join([line]) == line
  {
    assert [line][..0] == [];
  }

  lemma SayingTrimmed()
    ensures TrimNewlines("x\n") == "x" && !Blank("x\n") && !Blank("x")
  {
    assert "x\n"[..1] == "x" && "x"[0] == 'x' && "x\n"[0] == 'x';
    assert TrimLeft("x\n") == "x\n" && TrimRight("x\n") == TrimRight("x") == "x";
  }

  lemma ToldStep(session: string -> Option<Base>, n: nat)
    ensures Aider.Step(session, After(n), TOLD) == After(n).(assistant := [], header := Some("####"), user := ["x\n"])
  {
    JoinOne(PAUSE);
    assert Blank(PAUSE) && Blank(Join([]));
    assert Lstrip(TOLD) == TOLD && TOLD[0] == '#' && TOLD[1] == '#' && TOLD[5..] == "x\n";
    assert !("```" <= TOLD) && !("# " <= TOLD) && !("> " <= TOLD) && "#### " <= TOLD;
    assert [] + ["x\n"] == ["x\n"];
  }

  lemma SayingFlushed(st: State, n: nat)
    requires st.user == ["x\n"] && st.header == Some("####") && st.ordinal == n && st.turns == Sayings(n) && st.base == SYNTHETIC_EPOCH
    ensures Flush(st, User, st.user, st.header) == st.(ordinal := n + 1, turns := Sayings(n + 1))
  {
    JoinOne("x\n");
    SayingTrimmed();
    assert MakeTurn(User, st.user, n + 1, st.base, st.header) == Some(Saying(n + 1));
    assert Sayings(n) + [Saying(n + 1)] == Sayings(n + 1);
  }

  lemma PauseStep(session: string -> Option<Base>, n: nat)
    ensures Aider.Step(session, After(n).(assistant := [], header := Some("####"), user := ["x\n"]), PAUSE) == After(n + 1)
  {
    var st := After(n).(assistant := [], header := Some("####"), user := ["x\n"]);
    assert PAUSE[1..] == "" && Lstrip(PAUSE) == "";
    assert Aider.Step(session, st, PAUSE) == TextLine(st, PAUSE);
    SayingFlushed(st, n);
    assert Blank(Join([]));
    assert [] + [PAUSE] == [PAUSE];
  }

  lemma TwoSteps(session: string -> Option<Base>, lines: seq<string>, a: string, b: string, start: State, mid: State, end: State)
    requires Aider.Run(session, INITIAL, lines) == start
    requires Aider.Step(session, start, a) == mid && Aider.Step(session, mid, b) == end
    ensures Aider.Run(session, INITIAL, lines + [a, b]) == end
  {
    var all := lines + [a, b];
    assert all[..|all| - 1] == lines + [a] && (lines + [a])[..|lines|] == lines;
  }

  lemma {:induction false} RunOfLines(session: string -> Option<Base>, n: nat)
    ensures Aider.Run(session, INITIAL, Lines(n)) == After(n)
  {
    if n > 0 {
      RunOfLines(session, n - 1);
      ToldStep(session, n - 1);
      PauseStep(session, n - 1);
      TwoSteps(session, Lines(n - 1), TOLD, PAUSE, After(n - 1), After(n - 1).(assistant := [], header := Some("####"), user := ["x\n"]), After(n));
    }
  }

  /** The file parses to n turns of the user, all alike but for their ordinals. */
  lemma LinesParse(session: string -> Option<Base>, n: nat)
    ensures Parse(session, Lines(n)) == Sayings(n)
  {
    RunOfLines(session, n);
    JoinOne(PAUSE);
    assert Blank(PAUSE) && Blank(Join([]));
  }

  // ----- storing -----

  /** How many of n turns a plaintext store keeps. */
  function Capped(n: nat): nat {
    if n < MAX_MICROSECOND then n else MAX_MICROSECOND
  }

  lemma SayingsAreNew(ms: seq<MessageRow>, f: File, n: nat)
    requires NewConversation(ms, f)
    ensures NewTurns(ms, f, Sayings(n)) == Sayings(n) && FromReadings(ms, f)
  {
    AllNew(ms, f, Sayings(n));
  }

  /** Up to the cap, and with encryption without one, every turn is stored. */
  lemma SayingsStored(lex: Lexicon, db: Tables, ctx: Option<Context>, f: File, n: nat, nonces: Nonces)
    requires Consistent(lex, db, ctx) && NewConversation(Plain(db, ctx).messages, f) && (ctx.None? ==> n <= MAX_MICROSECOND)
    ensures GrownBy(Plain(db, ctx).messages, Records(f, Sayings(n)),
                    Plain(InsertBatch(lex, db, SessionOf(db, ctx), Records(f, Sayings(n)), nonces), ctx).messages)
  {
    SayingsAreNew(Plain(db, ctx).messages, f, n);
    ReadingAppendsNewTurns(lex, db, ctx, f, Sayings(n), nonces);
  }

  /** What was said past the cap is said already, as far as the unique index can tell. */
  lemma PastTheCapIsSeen(ms: seq<MessageRow>, f: File, after: seq<MessageRow>, ordinal: nat)
    requires GrownBy(ms, Records(f, Sayings(MAX_MICROSECOND)), after) && ordinal > MAX_MICROSECOND
    ensures !Unseen(after, ToRecord(f, Saying(ordinal)))
  {
    var last, n := Saying(MAX_MICROSECOND), MAX_MICROSECOND - 1;
    var row := after[|ms|..][n];
    assert row == RowOf(Records(f, Sayings(MAX_MICROSECOND))[n], row.id);
    assert Records(f, Sayings(MAX_MICROSECOND))[n] == ToRecord(f, last);
    TurnsClashExactly(f, last, Saying(ordinal));
    InTail(after, |ms|, n);
    assert Clash(after[|ms| + n], RowOf(ToRecord(f, Saying(ordinal)), 0));
  }

  lemma PastTheCapIsNotStored(ms: seq<MessageRow>, f: File, n: nat, after: seq<MessageRow>, ordinal: nat)
    requires NewConversation(ms, f) && GrownBy(ms, Records(f, Sayings(n)), after) && ordinal > n
    ensures !Stored(after, f, Saying(ordinal))
  {
    GrownAdds(ms, f, Sayings(n), after);
    forall i | 0 <= i < n
      ensures SourceKey(f, Sayings(n)[i]) != SourceKey(f, Saying(ordinal))
    {
      SourceKeyExactly(f, Saying(i + 1), Saying(ordinal));
    }
    NotAmongAdded(ms, f, Sayings(n), after, Saying(ordinal));
  }

  lemma SayingsCut(f: File, n: nat, k: nat)
    requires k <= n
    ensures Records(f, Sayings(n)) == Records(f, Sayings(k)) + Records(f, Sayings(n))[k..]
  {
  }

  lemma RestIsSeen(ms: seq<MessageRow>, f: File, n: nat, after: seq<MessageRow>, rest: seq<Record>)
    requires n >= MAX_MICROSECOND && rest == Records(f, Sayings(n))[MAX_MICROSECOND..]
    requires GrownBy(ms, Records(f, Sayings(MAX_MICROSECOND)), after)
    ensures forall i :: 0 <= i < |rest| ==> !Unseen(after, rest[i])
  {
    forall i | 0 <= i < |rest|
      ensures !Unseen(after, rest[i])
    {
      assert rest[i] == ToRecord(f, Saying(MAX_MICROSECOND + i + 1));
      PastTheCapIsSeen(ms, f, after, MAX_MICROSECOND + i + 1);
    }
  }

  /** Records that are all there after the first ones change nothing but SQLite's counter. */
  lemma RestIsIgnored(lex: Lexicon, db: Tables, first: seq<Record>, rest: seq<Record>, all: seq<Record>, nonces: Nonces, mid: Tables)
    requires all == first + rest && mid == InsertBatch(lex, db, PLAIN, first, nonces)
    requires forall i :: 0 <= i < |rest| ==> !Unseen(mid.messages, rest[i])
    ensures InsertBatch(lex, db, PLAIN, all, nonces).messages == mid.messages
  {
    InsertBatchSplit(lex, db, PLAIN, first, rest, nonces);
    SeenBatchChangesNothing(lex, mid, rest, nonces);
  }

  lemma PastTheCapIsIgnored(lex: Lexicon, db: Tables, f: File, n: nat, nonces: Nonces, first: seq<Record>, mid: Tables)
    requires n >= MAX_MICROSECOND && first == Records(f, Sayings(MAX_MICROSECOND)) && mid == InsertBatch(lex, db, PLAIN, first, nonces)
    requires GrownBy(db.messages, first, mid.messages)
    ensures InsertBatch(lex, db, PLAIN, Records(f, Sayings(n)), nonces).messages == mid.messages
  {
    var all := Records(f, Sayings(n));
    SayingsCut(f, n, MAX_MICROSECOND);
    RestIsSeen(db.messages, f, n, mid.messages, all[MAX_MICROSECOND..]);
    RestIsIgnored(lex, db, first, all[MAX_MICROSECOND..], all, nonces, mid);
  }

  lemma KeptAreStored(ms: seq<MessageRow>, f: File, k: nat, after: seq<MessageRow>, ordinal: nat)
    requires NewConversation(ms, f) && GrownBy(ms, Records(f, Sayings(k)), after) && ordinal >= 1
    ensures Stored(after, f, Saying(ordinal)) <==> ordinal <= k
  {
    if ordinal <= k {
      assert Sayings(k)[ordinal - 1] == Saying(ordinal);
      AddedIsStored(ms, f, Sayings(k), after, Saying(ordinal));
    } else {
      PastTheCapIsNotStored(ms, f, k, after, ordinal);
    }
  }

  lemma PlainGrown(lex: Lexicon, db: Tables, rs: seq<Record>, nonces: Nonces, mid: Tables)
    requires Consistent(lex, db, None) && mid == InsertBatch(lex, db, PLAIN, rs, nonces)
    ensures SessionOf(db, None) == PLAIN && Plain(db, None).messages == db.messages && Plain(mid, None).messages == mid.messages
  {
    InsertBatchKeeps(lex, db, None, rs, nonces);
    PlainOfPlain(lex, db);
    PlainOfPlain(lex, mid);
  }

  lemma KeptExactly(ms: seq<MessageRow>, f: File, n: nat, turns: seq<Turn>, k: nat, after: seq<MessageRow>)
    requires NewConversation(ms, f) && k <= n && turns == Sayings(n) && GrownBy(ms, Records(f, Sayings(k)), after)
    ensures turns[..k] == Sayings(k) && forall i :: 0 <= i < n ==> (Stored(after, f, turns[i]) <==> i < k)
  {
    forall i | 0 <= i < n
      ensures Stored(after, f, turns[i]) <==> i < k
    {
      KeptAreStored(ms, f, k, after, i + 1);
    }
  }

  lemma PlainKeepsFirst(lex: Lexicon, db: Tables, f: File, k: nat, nonces: Nonces, first: seq<Record>, mid: Tables)
    requires Consistent(lex, db, None) && NewConversation(db.messages, f) && k <= MAX_MICROSECOND
    requires first == Records(f, Sayings(k)) && mid == InsertBatch(lex, db, PLAIN, first, nonces)
    ensures GrownBy(db.messages, first, mid.messages)
  {
    PlainGrown(lex, db, first, nonces, mid);
    SayingsStored(lex, db, None, f, k, nonces);
  }

  lemma PlainKeepsCapped(lex: Lexicon, db: Tables, f: File, n: nat, nonces: Nonces, k: nat)
    requires Consistent(lex, db, None) && NewConversation(db.messages, f) && k == Capped(n)
    ensures GrownBy(db.messages, Records(f, Sayings(k)), InsertBatch(lex, db, PLAIN, Records(f, Sayings(n)), nonces).messages)
  {
    var first := Records(f, Sayings(k));
    var mid := InsertBatch(lex, db, PLAIN, first, nonces);
    PlainKeepsFirst(lex, db, f, k, nonces, first, mid);
    if n > k {
      PastTheCapIsIgnored(lex, db, f, n, nonces, first, mid);
    }
  }

  /** How many of n turns a store keeps. */
  function KeptOf(sealed: bool, n: nat): nat {
    if sealed then n else Capped(n)
  }

  lemma SayingsKept(lex: Lexicon, db: Tables, ctx: Option<Context>, f: File, n: nat, nonces: Nonces, db': Tables)
    requires Consistent(lex, db, ctx) && NewConversation(Plain(db, ctx).messages, f)
    requires db' == InsertBatch(lex, db, SessionOf(db, ctx), Records(f, Sayings(n)), nonces)
    ensures GrownBy(Plain(db, ctx).messages, Records(f, Sayings(KeptOf(ctx.Some?, n))), Plain(db', ctx).messages)
  {
    if ctx.Some? {
      SayingsStored(lex, db, ctx, f, n, nonces);
    } else {
      PlainOfPlain(lex, db);
      PlainGrown(lex, db, Records(f, Sayings(n)), nonces, db');
      PlainKeepsCapped(lex, db, f, n, nonces, Capped(n));
    }
  }

  /** Reading the file of n turns into a new conversation of a consistent store: without encryption the store
      keeps the first 999,999 turns, so that from a file of 1,000,000 turns the last is lost; with encryption it
      keeps them all. */
  lemma CapLosesTurns(lex: Lexicon, db: Tables, ctx: Option<Context>, session: string -> Option<Base>, f: File, n: nat, nonces: Nonces)
    requires Consistent(lex, db, ctx) && NewConversation(Plain(db, ctx).messages, f)
    ensures var ms, turns := Plain(db, ctx).messages, Parse(session, Lines(n));
            var ms' := Plain(InsertBatch(lex, db, SessionOf(db, ctx), Records(f, turns), nonces), ctx).messages;
            var kept := KeptOf(ctx.Some?, n);
            && |turns| == n && GrownBy(ms, Records(f, turns[..kept]), ms')
            && forall i :: 0 <= i < n ==> (Stored(ms', f, turns[i]) <==> i < kept)
  {
    var kept, db' := KeptOf(ctx.Some?, n), InsertBatch(lex, db, SessionOf(db, ctx), Records(f, Sayings(n)), nonces);
    LinesParse(session, n);
    SayingsKept(lex, db, ctx, f, n, nonces, db');
    KeptExactly(Plain(db, ctx).messages, f, n, Parse(session, Lines(n)), kept, Plain(db', ctx).messages);
  }
}
