/** The line machine that reads an Aider chat history (providers/aider.py). */
module Aider {
  import opened Basics

  datatype Role = User | Assistant | Tool

  /** A session start: its ISO text, that text up to the seconds, and where it came from. */
  datatype Base = Base(iso: string, seconds: string, synthetic: bool)

  const SYNTHETIC_EPOCH := Base("1970-01-01T00:00:00+00:00", "1970-01-01T00:00:00", true)

  /** A finished turn. */
  datatype Turn = Turn(role: Role, content: string, ordinal: nat, base: Base, header: Option<string>)

  datatype State = State(
    user: seq<string>,
    assistant: seq<string>,
    tool: seq<string>,
    header: Option<string>,
    base: Base,
    inFence: bool,
    ordinal: nat,
    turns: seq<Turn>)

  const INITIAL := State([], [], [], None, SYNTHETIC_EPOCH, false, 0, [])

  // ----- text -----

  predicate Blank(s: string) {
    forall i :: 0 <= i < |s| ==> IsSpace(s[i])
  }

  function Join(lines: seq<string>): string {
    if lines == [] then "" else Join(lines[..|lines| - 1]) + lines[|lines| - 1]
  }

  function TrimLeft(s: string): string {
    if s != [] && s[0] == '\n' then TrimLeft(s[1..]) else s
  }

  function TrimRight(s: string): string {
    if s != [] && s[|s| - 1] == '\n' then TrimRight(s[..|s| - 1]) else s
  }

  /** s.strip("\n"). */
  function TrimNewlines(s: string): string {
    TrimRight(TrimLeft(s))
  }

  lemma {:induction false} TrimLeftKeepsInk(s: string)
    ensures Blank(TrimLeft(s)) <==> Blank(s)
  {
    if s != [] && s[0] == '\n' {
      TrimLeftKeepsInk(s[1..]);
      assert forall i :: 0 <= i < |s| ==> i == 0 || s[i] == s[1..][i - 1];
    }
  }

  lemma {:induction false} TrimRightKeepsInk(s: string)
    ensures Blank(TrimRight(s)) <==> Blank(s)
  {
    if s != [] && s[|s| - 1] == '\n' {
      TrimRightKeepsInk(s[..|s| - 1]);
    }
  }

  // ----- the machine -----

  /** _make_record, up to the fields that do not vary within a file. */
  function MakeTurn(role: Role, lines: seq<string>, ordinal: nat, base: Base, header: Option<string>): Option<Turn> {
    var content := TrimNewlines(Join(lines));
    if Blank(content) then None else Some(Turn(role, content, ordinal, base, header))
  }

  /** append_msg: a buffer of nothing but whitespace leaves no turn and takes no ordinal. */
  function Flush(st: State, role: Role, lines: seq<string>, header: Option<string>): State {
    if Blank(Join(lines)) then st
    else
      var n := st.ordinal + 1;
      match MakeTurn(role, lines, n, st.base, header)
      case None => st.(ordinal := n)
      case Some(turn) => st.(ordinal := n, turns := st.turns + [turn])
  }

  /** active_append. */
  function ActiveAppend(st: State, line: string): State {
    if st.user != [] then st.(user := st.user + [line])
    else if st.tool != [] then st.(tool := st.tool + [line])
    else st.(assistant := st.assistant + [line])
  }

  function ToolLine(st: State, text: string): State {
    var a := Flush(st, Assistant, st.assistant, None).(assistant := []);
    var b := Flush(a, User, a.user, a.header).(user := [], header := None);
    b.(tool := b.tool + [text])
  }

  function UserLine(st: State, text: string): State {
    var a := Flush(st, Assistant, st.assistant, None).(assistant := []);
    var b := Flush(a, Tool, a.tool, None).(tool := []);
    b.(header := Some("####"), user := b.user + [text])
  }

  function TextLine(st: State, line: string): State {
    var a := Flush(st, User, st.user, st.header).(user := [], header := None);
    var b := Flush(a, Tool, a.tool, None).(tool := []);
    b.(assistant := b.assistant + [line])
  }

  /** One line. `session` reads the time out of an Aider session header, if the line is one. */
  function Step(session: string -> Option<Base>, st: State, line: string): State {
    if "```" <= Lstrip(line) then ActiveAppend(st.(inFence := !st.inFence), line)
    else if st.inFence then ActiveAppend(st, line)
    else if "# " <= line then
      match session(line)
      case None => st
      case Some(base) => st.(base := base)
    else if "> " <= line then ToolLine(st, line[2..])
    else if "#### " <= line then UserLine(st, line[5..])
    else TextLine(st, line)
  }

  function Run(session: string -> Option<Base>, st: State, lines: seq<string>): State {
    if lines == [] then st else Step(session, Run(session, st, lines[..|lines| - 1]), lines[|lines| - 1])
  }

  /** The end of the file flushes whatever is pending. */
  function Finish(st: State): State {
    var a := Flush(st, Assistant, st.assistant, None);
    var b := Flush(a, User, a.user, a.header);
    Flush(b, Tool, b.tool, None)
  }

  function Parse(session: string -> Option<Base>, lines: seq<string>): seq<Turn> {
    Finish(Run(session, INITIAL, lines)).turns
  }

  method AppendMsg(turns: seq<Turn>, ordinal: nat, role: Role, lines: seq<string>, base: Base, header: Option<string>)
    returns (turns': seq<Turn>, ordinal': nat)
    ensures forall st: State :: st.turns == turns && st.ordinal == ordinal && st.base == base ==>
              Flush(st, role, lines, header) == st.(turns := turns', ordinal := ordinal')
  {
    turns', ordinal' := turns, ordinal;
    if Blank(Join(lines)) {
      return;
    }
    ordinal' := ordinal + 1;
    var rec := MakeTurn(role, lines, ordinal', base, header);
    if rec.Some? {
      turns' := turns + [rec.value];
    }
  }

  /** parse_aider_chat_history. */
  method ParseAiderChatHistory(session: string -> Option<Base>, lines: seq<string>) returns (turns: seq<Turn>)
    ensures turns == Parse(session, lines)
  {
    var user: seq<string>, assistant: seq<string>, tool: seq<string> := [], [], [];
    var ordinal: nat := 0;
    var header: Option<string> := None;
    var base, inFence := SYNTHETIC_EPOCH, false;
    turns := [];
    var i := 0;
    while i < |lines|
      invariant 0 <= i <= |lines|
      invariant State(user, assistant, tool, header, base, inFence, ordinal, turns) == Run(session, INITIAL, lines[..i])
    {
      var line := lines[i];
      assert lines[..i + 1][..i] == lines[..i];
      if "```" <= Lstrip(line) || inFence {
        if "```" <= Lstrip(line) {
          inFence := !inFence;
        }
        if user != [] {
          user := user + [line];
        } else if tool != [] {
          tool := tool + [line];
        } else {
          assistant := assistant + [line];
        }
      } else if "# " <= line {
        var parsed := session(line);
        if parsed.Some? {
          base := parsed.value;
        }
      } else if "> " <= line {
        turns, ordinal := AppendMsg(turns, ordinal, Assistant, assistant, base, None);
        assistant := [];
        turns, ordinal := AppendMsg(turns, ordinal, User, user, base, header);
        user := [];
        header := None;
        tool := tool + [line[2..]];
      } else if "#### " <= line {
        turns, ordinal := AppendMsg(turns, ordinal, Assistant, assistant, base, None);
        assistant := [];
        turns, ordinal := AppendMsg(turns, ordinal, Tool, tool, base, None);
        tool := [];
        header := Some("####");
        user := user + [line[5..]];
      } else {
        turns, ordinal := AppendMsg(turns, ordinal, User, user, base, header);
        user := [];
        header := None;
        turns, ordinal := AppendMsg(turns, ordinal, Tool, tool, base, None);
        tool := [];
        assistant := assistant + [line];
      }
      i := i + 1;
    }
    assert lines[..i] == lines;
    turns, ordinal := AppendMsg(turns, ordinal, Assistant, assistant, base, None);
    turns, ordinal := AppendMsg(turns, ordinal, User, user, base, header);
    turns, ordinal := AppendMsg(turns, ordinal, Tool, tool, base, None);
  }

  // ----- the invariant of every line -----

  /** Buffers in the order in which the fenced lines look for them. */
  predicate OneBuffer(st: State) {
    && (st.user != [] ==> st.tool == [] && st.assistant == [])
    && (st.tool != [] ==> st.assistant == [])
  }

  /** Ordinals count the turns: 1, 2, 3, ... */
  predicate Counted(st: State) {
    && st.ordinal == |st.turns|
    && forall i :: 0 <= i < |st.turns| ==> st.turns[i].ordinal == i + 1 && !Blank(st.turns[i].content)
  }

  predicate HeaderFollowsUser(st: State) {
    st.header == if st.user != [] then Some("####") else None
  }

  predicate Regular(st: State) {
    OneBuffer(st) && Counted(st) && HeaderFollowsUser(st)
  }

  /** The None of _make_record cannot happen: append_msg has already looked. */
  lemma MakeTurnSucceeds(role: Role, lines: seq<string>, ordinal: nat, base: Base, header: Option<string>)
    ensures MakeTurn(role, lines, ordinal, base, header).Some? <==> !Blank(Join(lines))
  {
    TrimLeftKeepsInk(Join(lines));
    TrimRightKeepsInk(TrimLeft(Join(lines)));
  }

  lemma FlushAdds(st: State, role: Role, lines: seq<string>, header: Option<string>)
    requires Counted(st)
    ensures var st' := Flush(st, role, lines, header);
            && Counted(st') && st.turns <= st'.turns && |st'.turns| <= |st.turns| + 1
            && st' == st.(ordinal := st'.ordinal, turns := st'.turns)
            && (Blank(Join(lines)) ==> st' == st)
            && (!Blank(Join(lines)) ==>
                  st'.turns == st.turns + [Turn(role, TrimNewlines(Join(lines)), |st.turns| + 1, st.base, header)])
  {
    MakeTurnSucceeds(role, lines, st.ordinal + 1, st.base, header);
  }

  // ----- the pending turn -----

  /** The buffer in use. */
  function Pending(st: State): seq<string> {
    if st.user != [] then st.user else if st.tool != [] then st.tool else st.assistant
  }

  function PendingRole(st: State): Role {
    if st.user != [] then User else if st.tool != [] then Tool else Assistant
  }

  function PendingHeader(st: State): Option<string> {
    if st.user != [] then Some("####") else None
  }

  /** The turn the end of the file would make of the pending lines. */
  function PendingTurn(st: State): Turn {
    Turn(PendingRole(st), TrimNewlines(Join(Pending(st))), |st.turns| + 1, st.base, PendingHeader(st))
  }

  /** What one line may do: extend the buffer in use, or turn it into the next turn. */
  predicate Advances(st: State, st': State) {
    && Regular(st')
    && (|| (st'.turns == st.turns && (!Blank(Join(Pending(st))) ==> SameTurnGoesOn(st, st')))
        || (!Blank(Join(Pending(st))) && st'.turns == st.turns + [PendingTurn(st)]))
  }

  predicate SameTurnGoesOn(st: State, st': State) {
    Pending(st) <= Pending(st') && PendingRole(st') == PendingRole(st) && PendingHeader(st') == PendingHeader(st)
  }

  lemma FlushNothing(st: State, role: Role, header: Option<string>)
    ensures Flush(st, role, [], header) == st
  {
  }

  lemma ToolLineAdvances(st: State, text: string)
    requires Regular(st)
    ensures Advances(st, ToolLine(st, text))
  {
    var a := Flush(st, Assistant, st.assistant, None).(assistant := []);
    FlushAdds(st, Assistant, st.assistant, None);
    FlushAdds(a, User, a.user, a.header);
    FlushNothing(st, Assistant, None);
    FlushNothing(a, User, a.header);
  }

  lemma UserLineAdvances(st: State, text: string)
    requires Regular(st)
    ensures Advances(st, UserLine(st, text))
  {
    var a := Flush(st, Assistant, st.assistant, None).(assistant := []);
    FlushAdds(st, Assistant, st.assistant, None);
    FlushAdds(a, Tool, a.tool, None);
    FlushNothing(st, Assistant, None);
    FlushNothing(a, Tool, None);
  }

  lemma TextLineAdvances(st: State, line: string)
    requires Regular(st)
    ensures Advances(st, TextLine(st, line))
  {
    var a := Flush(st, User, st.user, st.header).(user := [], header := None);
    FlushAdds(st, User, st.user, st.header);
    FlushAdds(a, Tool, a.tool, None);
    FlushNothing(st, User, st.header);
    FlushNothing(a, Tool, None);
  }

  lemma ActiveAppendAdvances(st: State, inFence: bool, line: string)
    requires Regular(st)
    ensures Advances(st, ActiveAppend(st.(inFence := inFence), line))
  {
  }

  lemma BaseAdvances(st: State, base: Base)
    requires Regular(st)
    ensures Advances(st, st.(base := base))
  {
  }

  lemma StepAdvances(session: string -> Option<Base>, st: State, line: string)
    requires Regular(st)
    ensures Advances(st, Step(session, st, line))
  {
    if "```" <= Lstrip(line) {
      ActiveAppendAdvances(st, !st.inFence, line);
    } else if st.inFence {
      ActiveAppendAdvances(st, true, line);
    } else if "# " <= line {
      BaseAdvances(st, session(line).GetOr(st.base));
    } else if "> " <= line {
      ToolLineAdvances(st, line[2..]);
    } else if "#### " <= line {
      UserLineAdvances(st, line[5..]);
    } else {
      TextLineAdvances(st, line);
    }
  }

  /** At every line at most one buffer is in use, ordinals are 1..n, and turns only get added. */
  lemma {:induction false} RunKeeps(session: string -> Option<Base>, st: State, lines: seq<string>)
    requires Regular(st)
    ensures Regular(Run(session, st, lines)) && st.turns <= Run(session, st, lines).turns
  {
    if lines != [] {
      RunKeeps(session, st, lines[..|lines| - 1]);
      StepAdvances(session, Run(session, st, lines[..|lines| - 1]), lines[|lines| - 1]);
    }
  }

  lemma {:induction false} RunSplit(session: string -> Option<Base>, st: State, p: seq<string>, s: seq<string>)
    ensures Run(session, st, p + s) == Run(session, Run(session, st, p), s)
  {
    if s == [] {
      assert p + s == p;
    } else {
      RunSplit(session, st, p, s[..|s| - 1]);
      assert (p + s)[..|p + s| - 1] == p + s[..|s| - 1];
    }
  }

  // ----- the end of the file -----

  /** The end of the file adds at most one turn. */
  lemma FinishAddsOne(st: State)
    requires Regular(st)
    ensures Counted(Finish(st))
    ensures Finish(st).turns == if Blank(Join(Pending(st))) then st.turns else st.turns + [PendingTurn(st)]
  {
    FlushAdds(st, Assistant, st.assistant, None);
    var a := Flush(st, Assistant, st.assistant, None);
    FlushAdds(a, User, a.user, a.header);
    var b := Flush(a, User, a.user, a.header);
    FlushAdds(b, Tool, b.tool, None);
    assert Join([]) == "";
  }

  /** A turn made from some lines and whatever was read after them. */
  ghost predicate Extends(t: Turn, role: Role, header: Option<string>, ordinal: nat, lines: seq<string>) {
    exists more :: t == Turn(role, TrimNewlines(Join(lines + more)), ordinal, t.base, header)
  }

  /** What became of the pending lines of `st`: still pending, perhaps with more lines, or flushed
      as the next turn. */
  ghost predicate Followed(st: State, st': State) {
    || (st'.turns == st.turns && Pending(st) <= Pending(st') && PendingRole(st') == PendingRole(st)
        && PendingHeader(st') == PendingHeader(st))
    || (|st'.turns| > |st.turns| && Extends(st'.turns[|st.turns|], PendingRole(st), PendingHeader(st), |st.turns| + 1, Pending(st)))
  }

  lemma PendingFlushed(st: State, st': State, more: seq<string>, base: Base)
    requires |st'.turns| > |st.turns|
    requires st'.turns[|st.turns|] == Turn(PendingRole(st), TrimNewlines(Join(Pending(st) + more)), |st.turns| + 1, base, PendingHeader(st))
    ensures Followed(st, st')
  {
  }

  lemma {:induction false} JoinSplit(a: seq<string>, b: seq<string>)
    ensures Join(a + b) == Join(a) + Join(b)
  {
    if b == [] {
      assert a + b == a;
    } else {
      JoinSplit(a, b[..|b| - 1]);
      assert (a + b)[..|a + b| - 1] == a + b[..|b| - 1];
    }
  }

  lemma InkStays(a: seq<string>, b: seq<string>)
    requires a <= b && !Blank(Join(a))
    ensures !Blank(Join(b))
  {
    assert b == a + b[|a|..];
    JoinSplit(a, b[|a|..]);
    var i :| 0 <= i < |Join(a)| && !IsSpace(Join(a)[i]);
    assert Join(b)[i] == Join(a)[i];
  }

  lemma {:induction false} RunFollows(session: string -> Option<Base>, st: State, lines: seq<string>)
    requires Regular(st) && !Blank(Join(Pending(st)))
    ensures Followed(st, Run(session, st, lines))
  {
    if lines == [] {
      assert Pending(st) <= Pending(st);
    } else {
      var front, last := lines[..|lines| - 1], lines[|lines| - 1];
      RunFollows(session, st, front);
      RunKeeps(session, st, front);
      var mid := Run(session, st, front);
      StepAdvances(session, mid, last);
      if mid.turns == st.turns {
        InkStays(Pending(st), Pending(mid));
        if Step(session, mid, last).turns != st.turns {
          var more := Pending(mid)[|Pending(st)|..];
          assert Pending(mid) == Pending(st) + more;
          PendingFlushed(st, Step(session, mid, last), more, mid.base);
        }
      } else {
        assert Step(session, mid, last).turns[|st.turns|] == mid.turns[|st.turns|];
      }
    }
  }

  lemma FinishFollows(st: State, st': State)
    requires Regular(st) && Regular(st') && !Blank(Join(Pending(st))) && Followed(st, st') && st.turns <= st'.turns
    ensures var ts := Finish(st').turns;
            |ts| > |st.turns| && Extends(ts[|st.turns|], PendingRole(st), PendingHeader(st), |st.turns| + 1, Pending(st))
  {
    FinishAddsOne(st');
    if st'.turns == st.turns {
      InkStays(Pending(st), Pending(st'));
      var more := Pending(st')[|Pending(st)|..];
      assert Pending(st') == Pending(st) + more;
      assert PendingTurn(st') == Turn(PendingRole(st), TrimNewlines(Join(Pending(st) + more)), |st.turns| + 1, st'.base, PendingHeader(st));
    }
  }

  // ----- growing texts -----

  lemma {:induction false} TrimLeftPrefix(s: string, t: string)
    requires !Blank(s)
    ensures TrimLeft(s + t) == TrimLeft(s) + t
  {
    if s[0] == '\n' {
      assert !Blank(s[1..]) by {
        var i :| 0 <= i < |s| && !IsSpace(s[i]);
        assert s[1..][i - 1] == s[i];
      }
      TrimLeftPrefix(s[1..], t);
      assert (s + t)[1..] == s[1..] + t;
    }
  }

  lemma {:induction false} TrimRightPrefix(s: string, t: string)
    ensures TrimRight(s) <= TrimRight(s + t)
  {
    if t == [] {
      assert s + t == s;
    } else if t[|t| - 1] == '\n' {
      TrimRightPrefix(s, t[..|t| - 1]);
      assert (s + t)[..|s + t| - 1] == s + t[..|t| - 1];
    } else {
      TrimRightShortens(s);
      assert TrimRight(s + t) == s + t;
    }
  }

  lemma {:induction false} TrimRightShortens(s: string)
    ensures TrimRight(s) <= s
  {
    if s != [] && s[|s| - 1] == '\n' {
      TrimRightShortens(s[..|s| - 1]);
    }
  }

  /** A grown turn begins with what it was before. */
  lemma ExtendsGrows(t: Turn, role: Role, header: Option<string>, ordinal: nat, lines: seq<string>)
    requires Extends(t, role, header, ordinal, lines) && !Blank(Join(lines))
    ensures t.role == role && t.header == header && t.ordinal == ordinal && TrimNewlines(Join(lines)) <= t.content
  {
    var more :| t == Turn(role, TrimNewlines(Join(lines + more)), ordinal, t.base, header);
    JoinSplit(lines, more);
    TrimLeftPrefix(Join(lines), Join(more));
    TrimRightPrefix(TrimLeft(Join(lines)), Join(more));
  }

  /** The turns finished while reading p, which more lines cannot touch. */
  function Settled(session: string -> Option<Base>, p: seq<string>): seq<Turn> {
    Run(session, INITIAL, p).turns
  }

  /** Prefix stability. Whatever is appended to the lines p, the turns finished while reading p stay
      as they are, in every field; at most one more turn of p exists, and it comes back in the same
      place with the same ordinal, role and header and at least the same text. */
  lemma PrefixStability(session: string -> Option<Base>, p: seq<string>, s: seq<string>)
    ensures var before, after, settled := Parse(session, p), Parse(session, p + s), Settled(session, p);
            && settled <= before && settled <= after
            && |before| <= |settled| + 1 && |before| <= |after|
            && (|before| > |settled| ==>
                  var old', new' := before[|settled|], after[|settled|];
                  && old'.role == new'.role && old'.ordinal == new'.ordinal && old'.header == new'.header
                  && old'.content <= new'.content)
  {
    assert Regular(INITIAL);
    RunKeeps(session, INITIAL, p);
    var st := Run(session, INITIAL, p);
    RunSplit(session, INITIAL, p, s);
    RunKeeps(session, st, s);
    var st' := Run(session, st, s);
    FinishAddsOne(st);
    FinishAddsOne(st');
    if !Blank(Join(Pending(st))) {
      RunFollows(session, st, s);
      FinishFollows(st, st');
      ExtendsGrows(Finish(st').turns[|st.turns|], PendingRole(st), PendingHeader(st), |st.turns| + 1, Pending(st));
    }
  }

  /** The turns of a file are numbered 1..n and none is blank. */
  lemma Ordinals(session: string -> Option<Base>, lines: seq<string>)
    ensures var ts := Parse(session, lines);
            forall i :: 0 <= i < |ts| ==> ts[i].ordinal == i + 1 && !Blank(ts[i].content)
  {
    RunKeeps(session, INITIAL, lines);
    FinishAddsOne(Run(session, INITIAL, lines));
  }

  /** The one change more lines can make besides growth: a session header read while a turn is
      pending moves that turn to the new session, and changes nothing else of it. */
  lemma HeaderMovesPendingTurn(session: string -> Option<Base>, p: seq<string>, line: string, base: Base)
    requires "# " <= line && session(line) == Some(base)
    requires !Run(session, INITIAL, p).inFence && |Parse(session, p)| > |Settled(session, p)|
    ensures Parse(session, p + [line]) == Settled(session, p) + [Parse(session, p)[|Settled(session, p)|].(base := base)]
  {
    RunKeeps(session, INITIAL, p);
    var st := Run(session, INITIAL, p);
    assert (p + [line])[..|p|] == p;
    assert line[0] == '#' && Lstrip(line) == line;
    assert Run(session, INITIAL, p + [line]) == st.(base := base);
    FinishAddsOne(st);
    FinishAddsOne(st.(base := base));
  }
}
