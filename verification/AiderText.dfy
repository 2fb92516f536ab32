/** Aider history files as texts (providers/aider.py): how a text that grows changes its lines and turns,
    also when its last line was not complete. */
module AiderText {
  import opened Basics
  import opened Crypto
  import opened Tokenizer
  import opened Rows
  import opened Inserts
  import opened Batches
  import opened Aider
  import opened AiderIngest
  import opened Reingest
  import opened GrownFile

  /** Line boundaries of Python's str.splitlines. */
  predicate IsBreak(c: char) {
    || '\U{A}' <= c <= '\U{D}' || '\U{1C}' <= c <= '\U{1E}' || c == '\U{85}' || c == '\U{2028}' || c == '\U{2029}'
  }

  /** Length of the first line with its break; a carriage return takes a following newline along. */
  function LineLength(text: string): (n: nat)
    requires text != []
    ensures 1 <= n <= |text|
  {
    if IsBreak(text[0]) then (if text[0] == '\r' && |text| > 1 && text[1] == '\n' then 2 else 1)
    else if |text| == 1 then 1
    else 1 + LineLength(text[1..])
  }

  /** text.splitlines(keepends=True). */
  function SplitLines(text: string): seq<string> {
    if text == [] then [] else [text[..LineLength(text)]] + SplitLines(text[LineLength(text)..])
  }

  /** A line has no break before its end. */
  predicate OneLineOnly(line: string) {
    line != [] && forall i :: 0 <= i < |line| - 1 ==> !IsBreak(line[i]) || (i == |line| - 2 && line[i] == '\r' && line[i + 1] == '\n')
  }

  /** The cut between a line and what follows: after a break, and never inside a carriage return and newline. */
  predicate Cut(line: string, rest: string)
    requires line != [] && rest != []
  {
    IsBreak(line[|line| - 1]) && !(line[|line| - 1] == '\r' && rest[0] == '\n')
  }

  lemma {:induction false} LineLengthMeaning(text: string)
    requires text != []
    ensures var n := LineLength(text);
            OneLineOnly(text[..n]) && (n < |text| ==> Cut(text[..n], text[n..]))
  {
    if !IsBreak(text[0]) && |text| > 1 {
      LineLengthMeaning(text[1..]);
      var n, m := LineLength(text), LineLength(text[1..]);
      assert text[1..][..m] == text[..n][1..] && text[1..][m..] == text[n..];
      var tail := text[1..][..m];
      forall i | 1 <= i < n - 1
        ensures !IsBreak(text[i]) || (i == n - 2 && text[i] == '\r' && text[i + 1] == '\n')
      {
        assert tail[i - 1] == text[i] && tail[i] == text[i + 1];
      }
    }
  }

  /** Lines that are cut where they should be. */
  predicate WellCut(lines: seq<string>) {
    && (forall i :: 0 <= i < |lines| ==> OneLineOnly(lines[i]))
    && (forall i :: 0 <= i < |lines| - 1 ==> Cut(lines[i], lines[i + 1]))
  }

  lemma WellCutCons(line: string, more: seq<string>)
    requires OneLineOnly(line) && WellCut(more) && (more != [] ==> Cut(line, more[0]))
    ensures WellCut([line] + more)
  {
    var lines := [line] + more;
    forall i | 0 <= i < |lines| - 1
      ensures Cut(lines[i], lines[i + 1])
    {
      assert i > 0 ==> lines[i] == more[i - 1];
      assert lines[i + 1] == more[i];
    }
  }

  lemma CutBefore(line: string, rest: string, first: string)
    requires line != [] && rest != [] && Cut(line, rest) && first != [] && first <= rest
    ensures Cut(line, first)
  {
  }

  lemma JoinCons(line: string, more: seq<string>)
    ensures Join([line] + more) == line + Join(more)
  {
    JoinSplit([line], more);
    assert [line][..0] == [];
  }

  /** The lines of a text are cut exactly after its breaks, and joined they are the text. */
  lemma {:induction false} SplitLinesMeaning(text: string)
    ensures Join(SplitLines(text)) == text && WellCut(SplitLines(text))
  {
    if text != [] {
      var line, rest := text[..LineLength(text)], text[LineLength(text)..];
      var more := SplitLines(rest);
      LineLengthMeaning(text);
      SplitLinesMeaning(rest);
      JoinCons(line, more);
      if rest != [] {
        CutBefore(line, rest, more[0]);
      }
      WellCutCons(line, more);
    }
  }

  predicate Complete(text: string) {
    text == [] || text[|text| - 1] == '\n'
  }

  lemma {:induction false} LineLengthStable(p: string, s: string)
    requires p != [] && Complete(p)
    ensures LineLength(p + s) == LineLength(p)
  {
    if !IsBreak(p[0]) {
      assert |p| > 1;
      LineLengthStable(p[1..], s);
      assert (p + s)[1..] == p[1..] + s;
    }
  }

  lemma SplitFirst(text: string, line: string, rest: string)
    requires line != [] && text == line + rest && LineLength(text) == |line|
    ensures SplitLines(text) == [line] + SplitLines(rest)
  {
  }

  lemma SplitOneMore(p: string, s: string, line: string, rest: string, more: seq<string>)
    requires Complete(p) && line != [] && p == line + rest && LineLength(p) == |line| && SplitLines(rest + s) == more
    ensures SplitLines(p + s) == [line] + more
  {
    LineLengthStable(p, s);
    assert p + s == line + (rest + s);
    SplitFirst(p + s, line, rest + s);
  }

  /** Appending to a file whose last line is complete only adds lines. */
  lemma {:induction false} SplitLinesAppend(p: string, s: string)
    requires Complete(p)
    ensures SplitLines(p + s) == SplitLines(p) + SplitLines(s)
  {
    if p == [] {
      NothingMore(s);
    } else {
      var line, rest := p[..LineLength(p)], p[LineLength(p)..];
      CutInTwo(p, LineLength(p));
      SplitLinesAppend(rest, s);
      SplitFirst(p, line, rest);
      SplitOneMore(p, s, line, rest, SplitLines(rest) + SplitLines(s));
      JoinThree([line], SplitLines(rest), SplitLines(s));
    }
  }

  /** The lines that more text cannot change: all but the last one. */
  function WholeLines(text: string): seq<string> {
    var lines := SplitLines(text);
    if lines == [] then [] else lines[..|lines| - 1]
  }

  lemma {:induction false} FirstLineStable(p: string, s: string)
    requires p != [] && LineLength(p) < |p|
    ensures LineLength(p + s) == LineLength(p)
  {
    if !IsBreak(p[0]) {
      FirstLineStable(p[1..], s);
      assert (p + s)[1..] == p[1..] + s;
    }
  }

  lemma WholeLinesCons(text: string, line: string, rest: string)
    requires line != [] && rest != [] && text == line + rest && LineLength(text) == |line|
    ensures SplitLines(text) == [line] + SplitLines(rest) && WholeLines(text) == [line] + WholeLines(rest)
  {
    SplitFirst(text, line, rest);
    assert SplitLines(rest) != [];
  }

  /** Whatever is appended, the whole lines stay. */
  lemma {:induction false} WholeLinesStay(p: string, s: string)
    ensures WholeLines(p) <= SplitLines(p + s) && |SplitLines(p)| <= |WholeLines(p)| + 1
  {
    if p != [] && LineLength(p) < |p| {
      var line, rest := p[..LineLength(p)], p[LineLength(p)..];
      WholeLinesStay(rest, s);
      WholeLinesCons(p, line, rest);
      FirstLineStable(p, s);
      SplitJoined(p, line, rest, s);
    } else if p != [] {
      SplitFirst(p, p, []);
    }
  }

  lemma SplitJoined(p: string, line: string, rest: string, s: string)
    requires line != [] && p == line + rest && LineLength(p + s) == |line|
    ensures SplitLines(p + s) == [line] + SplitLines(rest + s)
  {
    assert p + s == line + (rest + s);
    SplitFirst(p + s, line, rest + s);
  }

  // ----- turns of a growing text -----

  function TurnsOfText(session: string -> Option<Base>, text: string): seq<Turn> {
    Parse(session, SplitLines(text))
  }

  /** The turns finished while reading the whole lines of a text. */
  function SettledTurns(session: string -> Option<Base>, text: string): seq<Turn> {
    Settled(session, WholeLines(text))
  }

  lemma SettledThenOne(session: string -> Option<Base>, q: seq<string>, line: string)
    ensures |Parse(session, q + [line])| <= |Settled(session, q)| + 2
  {
    assert Regular(INITIAL);
    RunKeeps(session, INITIAL, q);
    var st := Run(session, INITIAL, q);
    assert (q + [line])[..|q|] == q;
    StepAdvances(session, st, line);
    FinishAddsOne(Step(session, st, line));
  }

  lemma SettledStays(session: string -> Option<Base>, q: seq<string>, lines: seq<string>)
    requires q <= lines
    ensures Settled(session, q) <= Parse(session, lines)
  {
    Continuation(q, lines);
    PrefixStability(session, q, lines[|q|..]);
  }

  lemma OneLineMore(session: string -> Option<Base>, q: seq<string>, lines: seq<string>)
    requires q <= lines && |lines| <= |q| + 1
    ensures |Parse(session, lines)| <= |Settled(session, q)| + 2
  {
    Continuation(q, lines);
    if |lines| == |q| {
      PrefixStability(session, q, []);
      assert q + [] == q;
    } else {
      assert lines[|q|..] == [lines[|q|]];
      SettledThenOne(session, q, lines[|q|]);
    }
  }

  /** Whatever is appended to a text, the turns settled by its whole lines stay, and no more than two
      turns of its reading are not among them. */
  lemma TextStability(session: string -> Option<Base>, p: string, s: string)
    ensures SettledTurns(session, p) <= TurnsOfText(session, p) && SettledTurns(session, p) <= TurnsOfText(session, p + s)
    ensures |TurnsOfText(session, p)| <= |SettledTurns(session, p)| + 2
  {
    WholeLinesStay(p, s);
    SettledStays(session, WholeLines(p), SplitLines(p + s));
    SettledStays(session, WholeLines(p), SplitLines(p));
    OneLineMore(session, WholeLines(p), SplitLines(p));
  }

  /** Of turns that are stored in front, only the others matter. */
  lemma {:induction false} NewTurnsBeyond(ms: seq<MessageRow>, f: File, front: seq<Turn>, rest: seq<Turn>)
    requires forall t :: t in front ==> Stored(ms, f, t)
    ensures NewTurns(ms, f, front + rest) == NewTurns(ms, f, rest)
  {
    if rest != [] {
      var n := |rest| - 1;
      NewTurnsBeyond(ms, f, front, rest[..n]);
      assert (front + rest)[..|front + rest| - 1] == front + rest[..n];
    } else {
      assert front + rest == front;
      NoneNew(ms, f, front);
    }
  }

  lemma {:induction false} NoneNew(ms: seq<MessageRow>, f: File, turns: seq<Turn>)
    requires forall t :: t in turns ==> Stored(ms, f, t)
    ensures NewTurns(ms, f, turns) == []
  {
    if turns != [] {
      NoneNew(ms, f, turns[..|turns| - 1]);
    }
  }

  /** Re-ingestion of a text that grew, whether or not its last line was complete: of the turns settled
      by its whole lines none is added again; of the others exactly those whose key is not stored yet. */
  lemma ReingestGrownText(lex: Lexicon, db: Tables, ctx: Option<Context>, f: File, session: string -> Option<Base>,
                          p: string, s: string, nonces: Nonces)
    requires var ms := Plain(db, ctx).messages;
             && Consistent(lex, db, ctx) && Readable(ms, ctx.Some?, f, TurnsOfText(session, p + s))
             && forall t :: t in TurnsOfText(session, p) ==> Stored(ms, f, t)
    ensures var ms, after, n := Plain(db, ctx).messages, TurnsOfText(session, p + s), |SettledTurns(session, p)|;
            && n <= |after| && |TurnsOfText(session, p)| <= n + 2
            && GrownBy(ms, Records(f, NewTurns(ms, f, after[n..])),
                       Plain(InsertBatch(lex, db, SessionOf(db, ctx), Records(f, after), nonces), ctx).messages)
  {
    TextStability(session, p, s);
    ReadingAppendsNewTurns(lex, db, ctx, f, TurnsOfText(session, p + s), nonces);
    OnlyUnsettled(Plain(db, ctx).messages, f, TurnsOfText(session, p), TurnsOfText(session, p + s), SettledTurns(session, p));
  }

  lemma OnlyUnsettled(ms: seq<MessageRow>, f: File, before: seq<Turn>, after: seq<Turn>, settled: seq<Turn>)
    requires settled <= before && settled <= after && forall t :: t in before ==> Stored(ms, f, t)
    ensures NewTurns(ms, f, after) == NewTurns(ms, f, after[|settled|..])
  {
    forall t | t in settled
      ensures Stored(ms, f, t)
    {
      assert t in before;
    }
    assert after == settled + after[|settled|..];
    NewTurnsBeyond(ms, f, settled, after[|settled|..]);
  }

  // ----- where the last line matters -----

  lemma OneLine(text: string, line: string, rest: string)
    requires line != [] && text == line + rest && line[|line| - 1] == '\n'
    requires forall i :: 0 <= i < |line| - 1 ==> !IsBreak(line[i])
    ensures SplitLines(text) == [line] + SplitLines(rest)
  {
    LineEnds(text, |line| - 1);
    SplitFirst(text, line, rest);
  }

  lemma {:induction false} LineEnds(text: string, n: nat)
    requires n < |text| && text[n] == '\n' && forall i :: 0 <= i < n ==> !IsBreak(text[i])
    ensures LineLength(text) == n + 1
  {
    if n > 0 {
      LineEnds(text[1..], n - 1);
    }
  }

  lemma {:induction false} UnbrokenLine(text: string)
    requires text != [] && forall i :: 0 <= i < |text| ==> !IsBreak(text[i])
    ensures SplitLines(text) == [text]
  {
    if |text| > 1 {
      UnbrokenLine(text[1..]);
    }
    UnbrokenLength(text);
    SplitFirst(text, text, []);
  }

  lemma {:induction false} UnbrokenLength(text: string)
    requires text != [] && forall i :: 0 <= i < |text| ==> !IsBreak(text[i])
    ensures LineLength(text) == |text|
  {
    if |text| > 1 {
      UnbrokenLength(text[1..]);
    }
  }

  lemma RunTwo(session: string -> Option<Base>, a: string, b: string)
    ensures Run(session, INITIAL, [a, b]) == Step(session, Step(session, INITIAL, a), b)
  {
    assert [a, b][..1] == [a] && [a][..0] == [];
    assert Run(session, INITIAL, [a]) == Step(session, INITIAL, a);
  }

  /** Reading a tool line, with its text pending. */
  const TOOL_PENDING := INITIAL.(tool := ["a\n"])

  lemma ToolStep(session: string -> Option<Base>)
    ensures Step(session, INITIAL, "> a\n") == TOOL_PENDING
  {
    assert Lstrip("> a\n") == "> a\n";
    assert "> a\n"[2..] == "a\n";
    assert Join([]) == "";
    assert ToolLine(INITIAL, "a\n") == TOOL_PENDING;
  }

  lemma TrimmedText()
    ensures Join(["a\n"]) == "a\n" && TrimNewlines("a\n") == "a" && !Blank("a\n") && !Blank("a")
  {
    assert Join([]) == "" && ["a\n"][..0] == [];
    assert TrimLeft("a\n") == "a\n";
    assert "a\n"[..1] == "a";
    assert TrimRight("a") == "a";
    assert "a\n"[0] == 'a' && "a"[0] == 'a';
  }

  const TOOL_TURN := Turn(Tool, "a", 1, SYNTHETIC_EPOCH, None)

  lemma TicksStep(session: string -> Option<Base>)
    ensures Step(session, TOOL_PENDING, "``") == INITIAL.(assistant := ["``"], ordinal := 1, turns := [TOOL_TURN])
  {
    assert Lstrip("``") == "``";
    assert "``"[0] == '`';
    assert Join([]) == "";
    TrimmedText();
    assert Flush(TOOL_PENDING, Tool, ["a\n"], None) == TOOL_PENDING.(ordinal := 1, turns := [TOOL_TURN]);
  }

  const TICKS_TURN := Turn(Assistant, "``", 2, SYNTHETIC_EPOCH, None)

  lemma TicksLine()
    ensures Join(["``"]) == "``" && TrimNewlines("``") == "``" && !Blank("``")
  {
    assert Join([]) == "" && ["``"][..0] == [];
    assert "``"[0] == '`' && "``"[1] == '`';
  }

  /** Everything is flushed but the last line or lines. */
  lemma FinishedBy(st: State, text: string, turn: Turn)
    requires Regular(st) && Join(Pending(st)) == text && !Blank(text)
    requires turn == Turn(PendingRole(st), TrimNewlines(text), |st.turns| + 1, st.base, PendingHeader(st))
    ensures Finish(st).turns == st.turns + [turn]
  {
    FinishAddsOne(st);
  }

  lemma TicksFinish()
    ensures Finish(INITIAL.(assistant := ["``"], ordinal := 1, turns := [TOOL_TURN])).turns == [TOOL_TURN, TICKS_TURN]
  {
    TrimmedText();
    TicksLine();
    FinishedBy(INITIAL.(assistant := ["``"], ordinal := 1, turns := [TOOL_TURN]), "``", TICKS_TURN);
  }

  const MERGED_TURN := Turn(Tool, "a\n```", 1, SYNTHETIC_EPOCH, None)

  lemma FenceStep(session: string -> Option<Base>)
    ensures Step(session, TOOL_PENDING, "```") == TOOL_PENDING.(tool := ["a\n", "```"], inFence := true)
  {
    assert Lstrip("```") == "```";
  }

  lemma FencedLines()
    ensures Join(["a\n", "```"]) == "a\n```" && TrimNewlines("a\n```") == "a\n```" && !Blank("a\n```")
  {
    TrimmedText();
    assert ["a\n", "```"][..1] == ["a\n"];
    assert "a\n```"[0] == 'a' && "a\n```"[4] == '`';
  }

  lemma FenceFinish()
    ensures Finish(TOOL_PENDING.(tool := ["a\n", "```"], inFence := true)).turns == [MERGED_TURN]
  {
    FencedLines();
    FinishedBy(TOOL_PENDING.(tool := ["a\n", "```"], inFence := true), "a\n```", MERGED_TURN);
  }

  lemma TwoLines(text: string, first: string, second: string)
    requires first != [] && second != [] && text == first + second && first[|first| - 1] == '\n'
    requires forall i :: 0 <= i < |first| - 1 ==> !IsBreak(first[i])
    requires forall i :: 0 <= i < |second| ==> !IsBreak(second[i])
    ensures SplitLines(text) == [first, second]
  {
    OneLine(text, first, second);
    UnbrokenLine(second);
    assert [first] + [second] == [first, second];
  }

  lemma TicksText(session: string -> Option<Base>)
    ensures TurnsOfText(session, "> a\n``") == [TOOL_TURN, TICKS_TURN]
  {
    TwoLines("> a\n``", "> a\n", "``");
    RunTwo(session, "> a\n", "``");
    ToolStep(session);
    TicksStep(session);
    TicksFinish();
  }

  lemma FenceText(session: string -> Option<Base>)
    ensures TurnsOfText(session, "> a\n```") == [MERGED_TURN]
  {
    TwoLines("> a\n```", "> a\n", "```");
    RunTwo(session, "> a\n", "```");
    ToolStep(session);
    FenceStep(session);
    FenceFinish();
  }

  /** A last line that is not complete may still become a fence: then the two turns it closed are one. */
  lemma FenceMergesTurns(session: string -> Option<Base>)
    ensures TurnsOfText(session, "> a\n``") == [TOOL_TURN, TICKS_TURN] && TurnsOfText(session, "> a\n``" + "`") == [MERGED_TURN]
  {
    TicksText(session);
    FenceText(session);
    assert "> a\n``" + "`" == "> a\n```";
  }

  /** The rows after the readings, as plaintext. */
  function RowsAfter(lex: Lexicon, db: Tables, ctx: Option<Context>, f: File, readings: seq<seq<Turn>>, nonces: nat -> Nonces): seq<MessageRow> {
    Plain(IngestAll(lex, db, SessionOf(db, ctx), f, readings, nonces), ctx).messages
  }

  /** Two readings of a new conversation that share no source key are both stored whole. */
  lemma BothReadingsNew(lex: Lexicon, db: Tables, ctx: Option<Context>, f: File, a: seq<Turn>, b: seq<Turn>, nonces: nat -> Nonces)
    requires Consistent(lex, db, ctx) && NewConversation(Plain(db, ctx).messages, f)
    requires Numbered(a) && Numbered(b) && |a| <= MAX_MICROSECOND && |b| <= MAX_MICROSECOND
    requires forall j :: 0 <= j < |b| ==> !KeyAmong(f, a, b[j])
    ensures GrownBy(Plain(db, ctx).messages, Records(f, a), RowsAfter(lex, db, ctx, f, [a], nonces))
    ensures GrownBy(RowsAfter(lex, db, ctx, f, [a], nonces), Records(f, b), RowsAfter(lex, db, ctx, f, [a, b], nonces))
  {
    var ms, mid := Plain(db, ctx).messages, RowsAfter(lex, db, ctx, f, [a], nonces);
    TwoReadings(lex, db, ctx, f, a, b, nonces);
    AllNew(ms, f, a);
    AllNewAfter(ms, f, a, b, mid);
  }

  lemma AllNewAfter(ms: seq<MessageRow>, f: File, a: seq<Turn>, b: seq<Turn>, mid: seq<MessageRow>)
    requires NewConversation(ms, f) && GrownBy(ms, Records(f, a), mid)
    requires forall j :: 0 <= j < |b| ==> !KeyAmong(f, a, b[j])
    ensures NewTurns(mid, f, b) == b
  {
    GrownAdds(ms, f, a, mid);
    forall j | 0 <= j < |b|
      ensures !Stored(mid, f, b[j])
    {
      NotAmongAdded(ms, f, a, mid, b[j]);
    }
    AllNew(mid, f, b);
  }

  lemma MergeLeavesOldTurns(lex: Lexicon, db: Tables, ctx: Option<Context>, f: File, was: Turn, next: Turn, now: Turn, nonces: nat -> Nonces)
    requires Consistent(lex, db, ctx) && NewConversation(Plain(db, ctx).messages, f)
    requires was.ordinal == 1 == now.ordinal && next.ordinal == 2 && f.digest(was.content) != f.digest(now.content)
    ensures GrownBy(Plain(db, ctx).messages, Records(f, [was, next]), RowsAfter(lex, db, ctx, f, [[was, next]], nonces))
    ensures GrownBy(RowsAfter(lex, db, ctx, f, [[was, next]], nonces), Records(f, [now]), RowsAfter(lex, db, ctx, f, [[was, next], [now]], nonces))
  {
    SourceKeyExactly(f, was, now);
    SourceKeyExactly(f, next, now);
    BothReadingsNew(lex, db, ctx, f, [was, next], [now], nonces);
  }

  /** The store keeps all three: what was read before the line became a fence stays beside the merged turn. */
  lemma FenceLeavesOldTurns(lex: Lexicon, db: Tables, ctx: Option<Context>, f: File, session: string -> Option<Base>, nonces: nat -> Nonces)
    requires Consistent(lex, db, ctx) && NewConversation(Plain(db, ctx).messages, f) && f.digest("a") != f.digest("a\n```")
    ensures var first, second := TurnsOfText(session, "> a\n``"), TurnsOfText(session, "> a\n``" + "`");
            && first == [TOOL_TURN, TICKS_TURN] && second == [MERGED_TURN]
            && GrownBy(Plain(db, ctx).messages, Records(f, first), RowsAfter(lex, db, ctx, f, [first], nonces))
            && GrownBy(RowsAfter(lex, db, ctx, f, [first], nonces), Records(f, second), RowsAfter(lex, db, ctx, f, [first, second], nonces))
  {
    FenceMergesTurns(session);
    MergeLeavesOldTurns(lex, db, ctx, f, TOOL_TURN, TICKS_TURN, MERGED_TURN, nonces);
  }

  lemma TwoReadings(lex: Lexicon, db: Tables, ctx: Option<Context>, f: File, a: seq<Turn>, b: seq<Turn>, nonces: nat -> Nonces)
    requires Consistent(lex, db, ctx) && NewConversation(Plain(db, ctx).messages, f)
    requires Numbered(a) && Numbered(b) && |a| <= MAX_MICROSECOND && |b| <= MAX_MICROSECOND
    ensures var ms, mid := Plain(db, ctx).messages, RowsAfter(lex, db, ctx, f, [a], nonces);
            && GrownBy(ms, Records(f, NewTurns(ms, f, a)), mid)
            && GrownBy(mid, Records(f, NewTurns(mid, f, b)), RowsAfter(lex, db, ctx, f, [a, b], nonces))
  {
    var ms, s := Plain(db, ctx).messages, SessionOf(db, ctx);
    assert [a] + [b] == [a, b] && [] + [a] == [a];
    IngestSnoc(lex, db, s, f, [], a, nonces);
    IngestSnoc(lex, db, s, f, [a], b, nonces);
    ReadingAppendsNewTurns(lex, db, ctx, f, a, nonces(0));
    InsertBatchKeeps(lex, db, ctx, Records(f, a), nonces(0));
    var mid := InsertBatch(lex, db, s, Records(f, a), nonces(0));
    ReadingKeepsOrigin(ms, f, a, Plain(mid, ctx).messages);
    ReadingAppendsNewTurns(lex, mid, ctx, f, b, nonces(1));
  }
}
