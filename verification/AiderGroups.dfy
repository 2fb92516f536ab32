/** What the Aider line machine is for, said without buffers: every line is spoken by somebody, and the
    turns are the maximal runs of lines of one speaker (providers/aider.py). */
module AiderGroups {
  import opened Basics
  import opened Aider

  /** A line as it counts: who speaks, the text without its marker, and the session in force before it. */
  datatype Item = Item(role: Role, text: string, base: Base)

  /** Reading the lines: inside a fence or not, the session in force, the items so far. */
  datatype Scan = Scan(inFence: bool, base: Base, items: seq<Item>)

  const UNREAD := Scan(false, SYNTHETIC_EPOCH, [])

  /** Whoever spoke last goes on inside fences; nobody yet means the assistant. */
  function Speaker(items: seq<Item>): Role {
    if items == [] then Assistant else items[|items| - 1].role
  }

  function Spoken(sc: Scan, role: Role, text: string): Scan {
    sc.(items := sc.items + [Item(role, text, sc.base)])
  }

  function ScanLine(session: string -> Option<Base>, sc: Scan, line: string): Scan {
    if "```" <= Lstrip(line) then Spoken(sc.(inFence := !sc.inFence), Speaker(sc.items), line)
    else if sc.inFence then Spoken(sc, Speaker(sc.items), line)
    else if "# " <= line then sc.(base := session(line).GetOr(sc.base))
    else if "> " <= line then Spoken(sc, Tool, line[2..])
    else if "#### " <= line then Spoken(sc, User, line[5..])
    else Spoken(sc, Assistant, line)
  }

  function ScanLines(session: string -> Option<Base>, lines: seq<string>): Scan {
    if lines == [] then UNREAD else ScanLine(session, ScanLines(session, lines[..|lines| - 1]), lines[|lines| - 1])
  }

  /** Maximal runs of one speaker. */
  function Groups(items: seq<Item>): (gs: seq<seq<Item>>)
    ensures forall i :: 0 <= i < |gs| ==> gs[i] != []
    ensures items != [] ==> gs != [] && gs[|gs| - 1][|gs[|gs| - 1]| - 1] == items[|items| - 1]
  {
    if items == [] then []
    else
      var gs, item := Groups(items[..|items| - 1]), items[|items| - 1];
      if gs != [] && item.role == Speaker(items[..|items| - 1]) then gs[..|gs| - 1] + [gs[|gs| - 1] + [item]]
      else gs + [[item]]
  }

  function Texts(items: seq<Item>): seq<string> {
    seq(|items|, i requires 0 <= i < |items| => items[i].text)
  }

  function HeaderOf(role: Role): Option<string> {
    if role == User then Some("####") else None
  }

  /** The turns of the groups: blank groups leave none, the others are numbered; a group ends in the
      session in force when the next one begins. */
  function TurnsOf(groups: seq<seq<Item>>, base: Base): seq<Turn>
    requires forall i :: 0 <= i < |groups| ==> groups[i] != []
  {
    if groups == [] then []
    else
      var last := groups[|groups| - 1];
      var before := TurnsOf(groups[..|groups| - 1], last[0].base);
      if Blank(Join(Texts(last))) then before
      else before + [Turn(last[0].role, TrimNewlines(Join(Texts(last))), |before| + 1, base, HeaderOf(last[0].role))]
  }

  // ----- the machine groups -----

  predicate OneSpeaker(items: seq<Item>) {
    forall i :: 0 <= i < |items| ==> items[i].role == items[0].role
  }

  predicate NonemptyGroups(gs: seq<seq<Item>>) {
    forall i :: 0 <= i < |gs| ==> gs[i] != []
  }

  /** The last group is what the machine has pending; the groups before it are its turns. */
  predicate LastGroup(st: State, front: seq<seq<Item>>, last: seq<Item>)
    requires NonemptyGroups(front)
  {
    && last != [] && OneSpeaker(last) && Pending(st) == Texts(last) && PendingRole(st) == last[0].role
    && st.turns == TurnsOf(front, last[0].base)
  }

  predicate Mirrors(st: State, sc: Scan) {
    && Regular(st) && st.inFence == sc.inFence && st.base == sc.base
    && var gs := Groups(sc.items);
       if gs == [] then st.turns == [] && Pending(st) == [] else LastGroup(st, gs[..|gs| - 1], gs[|gs| - 1])
  }

  lemma TextsSnoc(items: seq<Item>, item: Item)
    ensures Texts(items + [item]) == Texts(items) + [item.text]
  {
  }

  /** One more line of the same speaker, and one of another. */
  lemma GroupsSnoc(items: seq<Item>, item: Item)
    ensures var gs := Groups(items);
            Groups(items + [item]) == if gs != [] && item.role == Speaker(items) then gs[..|gs| - 1] + [gs[|gs| - 1] + [item]] else gs + [[item]]
  {
    assert (items + [item])[..|items|] == items;
  }

  predicate Continues(st: State, st': State, text: string) {
    && Regular(st') && st'.turns == st.turns && Pending(st') == Pending(st) + [text] && PendingRole(st') == PendingRole(st)
    && st'.base == st.base
  }

  predicate Starts(st: State, st': State, role: Role, text: string) {
    && Regular(st') && Pending(st') == [text] && PendingRole(st') == role && st'.base == st.base
    && st'.turns == if Blank(Join(Pending(st))) then st.turns else st.turns + [PendingTurn(st)]
  }

  lemma LastGrows(st: State, front: seq<seq<Item>>, last: seq<Item>, st': State, item: Item)
    requires NonemptyGroups(front) && LastGroup(st, front, last)
    requires Continues(st, st', item.text) && item.role == PendingRole(st)
    ensures LastGroup(st', front, last + [item])
  {
    TextsSnoc(last, item);
  }

  lemma TurnsSnoc(front: seq<seq<Item>>, last: seq<Item>, base: Base)
    requires NonemptyGroups(front) && last != []
    ensures NonemptyGroups(front + [last])
    ensures var before := TurnsOf(front, last[0].base);
            TurnsOf(front + [last], base) ==
              if Blank(Join(Texts(last))) then before
              else before + [Turn(last[0].role, TrimNewlines(Join(Texts(last))), |before| + 1, base, HeaderOf(last[0].role))]
  {
    assert (front + [last])[..|front|] == front;
  }

  lemma LastCloses(st: State, front: seq<seq<Item>>, last: seq<Item>, st': State, item: Item)
    requires NonemptyGroups(front) && LastGroup(st, front, last)
    requires Starts(st, st', item.role, item.text) && item.base == st.base
    ensures NonemptyGroups(front + [last]) && LastGroup(st', front + [last], [item])
  {
    TurnsSnoc(front, last, item.base);
    assert Texts(last) != [];
    PendingHeaderIs(st);
    assert Texts([item]) == [item.text];
  }

  lemma FirstStarts(st: State, st': State, item: Item)
    requires st.turns == [] && Pending(st) == [] && Starts(st, st', item.role, item.text)
    ensures LastGroup(st', [], [item])
  {
    assert Join([]) == "";
    assert Texts([item]) == [item.text];
  }

  lemma SpeakerIsPending(st: State, sc: Scan)
    requires Mirrors(st, sc) && Groups(sc.items) != []
    ensures Speaker(sc.items) == PendingRole(st)
  {
    var gs := Groups(sc.items);
    var last := gs[|gs| - 1];
    assert last[|last| - 1].role == last[0].role;
  }

  lemma Continued(st: State, sc: Scan, st': State, sc': Scan, text: string)
    requires Mirrors(st, sc) && Pending(st) != [] && Continues(st, st', text)
    requires sc'.items == sc.items + [Item(PendingRole(st), text, sc.base)] && sc'.inFence == st'.inFence && sc'.base == sc.base
    ensures Mirrors(st', sc')
  {
    var gs, item := Groups(sc.items), Item(PendingRole(st), text, sc.base);
    SpeakerIsPending(st, sc);
    GroupsSnoc(sc.items, item);
    LastGrows(st, gs[..|gs| - 1], gs[|gs| - 1], st', item);
    assert Groups(sc'.items)[..|gs| - 1] == gs[..|gs| - 1];
  }

  lemma Started(st: State, sc: Scan, st': State, sc': Scan, role: Role, text: string)
    requires Mirrors(st, sc) && (Pending(st) != [] ==> PendingRole(st) != role) && Starts(st, st', role, text)
    requires sc'.items == sc.items + [Item(role, text, sc.base)] && sc'.inFence == st'.inFence && sc'.base == sc.base
    ensures Mirrors(st', sc')
  {
    var gs, item := Groups(sc.items), Item(role, text, sc.base);
    GroupsSnoc(sc.items, item);
    if gs != [] {
      SpeakerIsPending(st, sc);
      assert Texts(gs[|gs| - 1]) != [];
      LastCloses(st, gs[..|gs| - 1], gs[|gs| - 1], st', item);
      assert gs == gs[..|gs| - 1] + [gs[|gs| - 1]];
    } else {
      FirstStarts(st, st', item);
    }
    assert (gs + [[item]])[..|gs|] == gs;
  }

  lemma PendingHeaderIs(st: State)
    requires Pending(st) != []
    ensures PendingHeader(st) == HeaderOf(PendingRole(st))
  {
  }

  lemma ToolLineGroups(st: State, text: string)
    requires Regular(st)
    ensures ToolLine(st, text).inFence == st.inFence
    ensures if st.tool != [] then Continues(st, ToolLine(st, text), text) else Starts(st, ToolLine(st, text), Tool, text)
  {
    var a := Flush(st, Assistant, st.assistant, None).(assistant := []);
    FlushAdds(st, Assistant, st.assistant, None);
    FlushAdds(a, User, a.user, a.header);
    FlushNothing(st, Assistant, None);
    FlushNothing(a, User, a.header);
    assert Join([]) == "";
  }

  lemma UserLineGroups(st: State, text: string)
    requires Regular(st)
    ensures UserLine(st, text).inFence == st.inFence
    ensures if st.user != [] then Continues(st, UserLine(st, text), text) else Starts(st, UserLine(st, text), User, text)
  {
    var a := Flush(st, Assistant, st.assistant, None).(assistant := []);
    FlushAdds(st, Assistant, st.assistant, None);
    FlushAdds(a, Tool, a.tool, None);
    FlushNothing(st, Assistant, None);
    FlushNothing(a, Tool, None);
    assert Join([]) == "";
  }

  lemma TextLineGroups(st: State, line: string)
    requires Regular(st)
    ensures TextLine(st, line).inFence == st.inFence
    ensures if st.assistant != [] then Continues(st, TextLine(st, line), line) else Starts(st, TextLine(st, line), Assistant, line)
  {
    var a := Flush(st, User, st.user, st.header).(user := [], header := None);
    FlushAdds(st, User, st.user, st.header);
    FlushAdds(a, Tool, a.tool, None);
    FlushNothing(st, User, st.header);
    FlushNothing(a, Tool, None);
    assert Join([]) == "";
  }

  lemma NothingPending(st: State, sc: Scan)
    requires Mirrors(st, sc) && Pending(st) == []
    ensures sc.items == []
  {
  }

  /** A line that goes on with whoever spoke last. */
  lemma FencedLineGroups(st: State, sc: Scan, inFence: bool, line: string)
    requires Mirrors(st, sc)
    ensures Mirrors(ActiveAppend(st.(inFence := inFence), line), Spoken(sc.(inFence := inFence), Speaker(sc.items), line))
  {
    var st', sc' := ActiveAppend(st.(inFence := inFence), line), Spoken(sc.(inFence := inFence), Speaker(sc.items), line);
    ActiveAppendAdvances(st, inFence, line);
    if Pending(st) != [] {
      SpeakerIsPending(st, sc);
      Continued(st, sc, st', sc', line);
    } else {
      NothingPending(st, sc);
      assert Join([]) == "";
      Started(st, sc, st', sc', Assistant, line);
    }
  }

  lemma SpokenLineGroups(st: State, sc: Scan, role: Role, text: string, st': State)
    requires Mirrors(st, sc) && st'.inFence == st.inFence
    requires if Pending(st) != [] && PendingRole(st) == role then Continues(st, st', text) else Starts(st, st', role, text)
    ensures Mirrors(st', Spoken(sc, role, text))
  {
    if Pending(st) != [] && PendingRole(st) == role {
      Continued(st, sc, st', Spoken(sc, role, text), text);
    } else {
      Started(st, sc, st', Spoken(sc, role, text), role, text);
    }
  }

  lemma ToolLineMirrors(st: State, sc: Scan, text: string)
    requires Mirrors(st, sc)
    ensures Mirrors(ToolLine(st, text), Spoken(sc, Tool, text))
  {
    ToolLineGroups(st, text);
    SpokenLineGroups(st, sc, Tool, text, ToolLine(st, text));
  }

  lemma UserLineMirrors(st: State, sc: Scan, text: string)
    requires Mirrors(st, sc)
    ensures Mirrors(UserLine(st, text), Spoken(sc, User, text))
  {
    UserLineGroups(st, text);
    SpokenLineGroups(st, sc, User, text, UserLine(st, text));
  }

  lemma TextLineMirrors(st: State, sc: Scan, line: string)
    requires Mirrors(st, sc)
    ensures Mirrors(TextLine(st, line), Spoken(sc, Assistant, line))
  {
    TextLineGroups(st, line);
    SpokenLineGroups(st, sc, Assistant, line, TextLine(st, line));
  }

  lemma StepMirrors(session: string -> Option<Base>, st: State, sc: Scan, line: string)
    requires Mirrors(st, sc)
    ensures Mirrors(Step(session, st, line), ScanLine(session, sc, line))
  {
    if "```" <= Lstrip(line) {
      FencedLineGroups(st, sc, !st.inFence, line);
    } else if st.inFence {
      FencedLineGroups(st, sc, true, line);
      assert sc.(inFence := true) == sc && st.(inFence := true) == st;
    } else if "# " <= line {
      BaseMirrors(st, sc, session(line).GetOr(st.base));
    } else if "> " <= line {
      ToolLineMirrors(st, sc, line[2..]);
    } else if "#### " <= line {
      UserLineMirrors(st, sc, line[5..]);
    } else {
      TextLineMirrors(st, sc, line);
    }
  }

  lemma BaseMirrors(st: State, sc: Scan, base: Base)
    requires Mirrors(st, sc)
    ensures Mirrors(st.(base := base), sc.(base := base))
  {
  }

  lemma {:induction false} RunMirrors(session: string -> Option<Base>, lines: seq<string>)
    ensures Mirrors(Run(session, INITIAL, lines), ScanLines(session, lines))
  {
    if lines != [] {
      RunMirrors(session, lines[..|lines| - 1]);
      StepMirrors(session, Run(session, INITIAL, lines[..|lines| - 1]), ScanLines(session, lines[..|lines| - 1]), lines[|lines| - 1]);
    }
  }

  lemma FinishMirrors(st: State, sc: Scan)
    requires Mirrors(st, sc)
    ensures Finish(st).turns == TurnsOf(Groups(sc.items), sc.base)
  {
    FinishAddsOne(st);
    assert Join([]) == "";
    var gs := Groups(sc.items);
    if gs != [] {
      assert Texts(gs[|gs| - 1]) != [];
      PendingHeaderIs(st);
    }
  }

  /** The buffers compute the grouping: the parsed turns are the nonblank runs of lines of one
      speaker, in order, numbered from 1, each with its whole text and the session in force at its end. */
  lemma ParseIsGrouping(session: string -> Option<Base>, lines: seq<string>)
    ensures Parse(session, lines) == TurnsOf(Groups(ScanLines(session, lines).items), ScanLines(session, lines).base)
  {
    RunMirrors(session, lines);
    FinishMirrors(Run(session, INITIAL, lines), ScanLines(session, lines));
  }
}
