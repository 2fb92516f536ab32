/** What the rows say that reading an Aider history adds: who spoke, in which words, and from where (providers/aider.py). */
module AiderRows {
  import opened Basics
  import Json
  import opened Crypto
  import opened Tokenizer
  import opened Rows
  import opened Inserts
  import opened Batches
  import opened Aider
  import opened AiderGroups
  import opened AiderIngest
  import opened Reingest
  import opened GrownFile

  // ----- from lines to speakers -----

  predicate IsFence(line: string) {
    "```" <= Lstrip(line)
  }

  predicate IsSession(line: string) {
    "# " <= line
  }

  /** The user's lines start with four hashes, tool output with an angle bracket; every other line is the assistant's. */
  predicate SaysBy(line: string, item: Item) {
    match item.role
    case User => line == "#### " + item.text
    case Tool => line == "> " + item.text
    case Assistant => line == item.text && !("#### " <= line) && !("> " <= line)
  }

  /** The items are the lines without the session headers, in order, each with its own speaker. */
  predicate Reads(lines: seq<string>, items: seq<Item>) {
    if lines == [] then items == []
    else
      var front, line := lines[..|lines| - 1], lines[|lines| - 1];
      if IsSession(line) then Reads(front, items)
      else items != [] && Reads(front, items[..|items| - 1]) && SaysBy(line, items[|items| - 1])
  }

  lemma LineSpeaks(session: string -> Option<Base>, sc: Scan, line: string)
    requires !sc.inFence && !IsFence(line)
    ensures var sc' := ScanLine(session, sc, line);
            && !sc'.inFence
            && if IsSession(line) then sc'.items == sc.items
               else exists item :: sc'.items == sc.items + [item] && SaysBy(line, item)
  {
    if !IsSession(line) {
      var items' := ScanLine(session, sc, line).items;
      assert items' == sc.items + [items'[|items'| - 1]] && SaysBy(line, items'[|items'| - 1]);
    }
  }

  /** Outside fences the marker of a line says who speaks it. */
  lemma {:induction false} MarkersSpeak(session: string -> Option<Base>, lines: seq<string>)
    requires forall i :: 0 <= i < |lines| ==> !IsFence(lines[i])
    ensures Reads(lines, ScanLines(session, lines).items) && !ScanLines(session, lines).inFence
  {
    if lines != [] {
      var front, line := lines[..|lines| - 1], lines[|lines| - 1];
      MarkersSpeak(session, front);
      LineSpeaks(session, ScanLines(session, front), line);
    }
  }

  // ----- from turns to rows -----

  /** The role a turn is stored under, the role the provider gave it, and the header that was recognised. */
  predicate StoredAs(role: Role, stored: string, given: string, header: Json.Json) {
    match role
    case User => stored == "user" && given == "user" && header == Json.Str("####")
    case Tool => stored == "system" && given == "tool" && header == Json.Null
    case Assistant => stored == "assistant" && given == "assistant" && header == Json.Null
  }

  /** The metadata object of a row. */
  function MetadataOf(row: MessageRow): map<string, Json.Json> {
    if |row.metadata| == 1 && row.metadata[0].Doc? && row.metadata[0].json.Obj? then row.metadata[0].json.fields else map[]
  }

  /** The number that decimal digits denote. */
  function Number(digits: string): int {
    if digits == [] then 0 else 10 * Number(digits[..|digits| - 1]) + (digits[|digits| - 1] as int - '0' as int)
  }

  lemma {:induction false} PaddedDenotes(n: nat, width: nat)
    requires n < Pow10(width)
    ensures Number(Padded(n, width)) == n
  {
    if width > 0 {
      PaddedDenotes(n / 10, width - 1);
      var front := Padded(n / 10, width - 1);
      assert (front + [Digit(n % 10)])[..width - 1] == front;
    }
  }

  /** The timestamp is the session's second with the turn number as microseconds, as far as those go. */
  predicate AtTurn(timestamp: string, seconds: string, n: nat) {
    var k := |seconds|;
    && |timestamp| == k + 13 && timestamp[..k] == seconds && timestamp[k] == '.' && timestamp[k + 7..] == "+00:00"
    && Number(timestamp[k + 1..k + 7]) == if n <= 999999 then n else 999999
  }

  lemma TimestampDenotes(base: Base, n: nat)
    ensures AtTurn(Timestamp(base, n), base.seconds, n)
  {
    assert Pow10(2) == 100 && Pow10(4) == 10000 && Pow10(6) == 1000000;
    var x := Padded(Microsecond(n), 6);
    PaddedDenotes(Microsecond(n), 6);
    var k, ts := |base.seconds|, Timestamp(base, n);
    assert ts[k + 1..k + 7] == x && ts[k + 7..] == "+00:00";
  }

  /** The metadata says where the time of the turn comes from. */
  predicate SaysWhen(row: MessageRow, base: Base) {
    var m := MetadataOf(row);
    && {"timestamp_origin", "timestamp_base", "timestamp_synthetic"} <= m.Keys
    && m["timestamp_base"] == Json.Str(base.iso) && m["timestamp_synthetic"] == Json.Bool(base.synthetic)
    && m["timestamp_origin"] == Json.Str(if base.synthetic then "synthetic_epoch" else "aider_session_header")
  }

  /** The metadata names the provider's own role and where the turn was read. */
  predicate SaysWhence(row: MessageRow, f: File, role: Role, n: nat) {
    var m := MetadataOf(row);
    && {"provider_role", "recognized_header", "turn_ordinal", "source", "source_filename"} <= m.Keys
    && m["provider_role"].Str? && StoredAs(role, row.ns.role, m["provider_role"].s, m["recognized_header"])
    && m["turn_ordinal"] == Json.Int(n) && m["source"] == Json.Str("aider-chat-history") && m["source_filename"] == Json.Str(f.filename)
  }

  /** conversation:ordinal:role:digest. */
  predicate KeyedBy(row: MessageRow, f: File, text: string, n: nat) {
    row.sourceKey == Some(f.conversation + ([':'] + (Decimal(n) + ([':'] + (row.ns.role + ([':'] + f.digest(text)))))))
  }

  /** The row is turn n of the file, spoken by this speaker in these lines, in a session that began then. */
  predicate Tells(row: MessageRow, f: File, items: seq<Item>, n: nat, base: Base)
    requires items != []
  {
    var text := TrimNewlines(Join(Texts(items)));
    && InConversation(row, f) && row.content == Lift(text) && KeyedBy(row, f, text, n)
    && AtTurn(row.timestamp, base.seconds, n) && SaysWhence(row, f, items[0].role, n) && SaysWhen(row, base)
  }

  /** A nonblank group of the file that is turn n. */
  ghost predicate IsTurn(groups: seq<seq<Item>>, g: seq<Item>, t: Turn) {
    g in groups && g != [] && !Blank(Join(Texts(g)))
    && t.role == g[0].role && t.content == TrimNewlines(Join(Texts(g))) && t.header == HeaderOf(g[0].role)
  }

  lemma {:induction false} TurnIsGroup(groups: seq<seq<Item>>, base: Base, t: Turn) returns (g: seq<Item>)
    requires NonemptyGroups(groups) && t in TurnsOf(groups, base)
    ensures IsTurn(groups, g, t)
  {
    var front, last := groups[..|groups| - 1], groups[|groups| - 1];
    assert groups == front + [last];
    if t in TurnsOf(front, last[0].base) {
      g := TurnIsGroup(front, last[0].base, t);
    } else {
      g := last;
    }
  }

  lemma RecordSaysWhen(f: File, t: Turn, row: MessageRow)
    requires row == RowOf(ToRecord(f, t), row.id)
    ensures SaysWhen(row, t.base)
  {
    assert MetadataOf(row) == Metadata(f, t).fields;
  }

  lemma RecordSaysWhence(f: File, t: Turn, row: MessageRow)
    requires row == RowOf(ToRecord(f, t), row.id) && t.header == HeaderOf(t.role)
    ensures SaysWhence(row, f, t.role, t.ordinal)
  {
    assert MetadataOf(row) == Metadata(f, t).fields;
  }

  lemma RecordIsKeyed(f: File, t: Turn, row: MessageRow)
    requires row == RowOf(ToRecord(f, t), row.id)
    ensures KeyedBy(row, f, t.content, t.ordinal)
  {
    var key, digits := row.ns.role + ([':'] + f.digest(t.content)), Decimal(t.ordinal);
    assert RoleName(t.role) + ([':'] + f.digest(t.content)) == key;
    assert SourceKey(f, t) == f.conversation + ([':'] + (digits + ([':'] + key)));
  }

  lemma RecordTells(f: File, t: Turn, groups: seq<seq<Item>>, g: seq<Item>, row: MessageRow)
    requires IsTurn(groups, g, t) && row == RowOf(ToRecord(f, t), row.id)
    ensures Tells(row, f, g, t.ordinal, t.base)
  {
    TimestampDenotes(t.base, t.ordinal);
    RecordSaysWhen(f, t, row);
    RecordSaysWhence(f, t, row);
    RecordIsKeyed(f, t, row);
  }

  /** The row is one of the turns, and says so. */
  ghost predicate Told(row: MessageRow, f: File, groups: seq<seq<Item>>, turns: seq<Turn>) {
    exists t, g :: t in turns && IsTurn(groups, g, t) && Tells(row, f, g, t.ordinal, t.base)
  }

  lemma NonemptyItems(items: seq<Item>)
    ensures NonemptyGroups(Groups(items))
  {
  }

  /** Every row that reading a file adds is one of its turns, with the speaker's role, the trimmed text, the turn's own
      key and time, and metadata that says where it came from. */
  lemma AddedRowsTell(lex: Lexicon, db: Tables, ctx: Option<Context>, f: File, session: string -> Option<Base>, lines: seq<string>,
                      nonces: Nonces)
    requires Consistent(lex, db, ctx) && Readable(Plain(db, ctx).messages, ctx.Some?, f, Parse(session, lines))
    ensures var ms, turns := Plain(db, ctx).messages, Parse(session, lines);
            var ms' := Plain(InsertBatch(lex, db, SessionOf(db, ctx), Records(f, turns), nonces), ctx).messages;
            && ms <= ms' && |ms'| == |ms| + |NewTurns(ms, f, turns)|
            && forall row :: row in ms'[|ms|..] ==> Told(row, f, Groups(ScanLines(session, lines).items), turns)
  {
    var ms, turns := Plain(db, ctx).messages, Parse(session, lines);
    ReadingAppendsNewTurns(lex, db, ctx, f, turns, nonces);
    var ms' := Plain(InsertBatch(lex, db, SessionOf(db, ctx), Records(f, turns), nonces), ctx).messages;
    forall row | row in ms'[|ms|..]
      ensures Told(row, f, Groups(ScanLines(session, lines).items), turns)
    {
      AddedRowIsTurn(ms, f, turns, ms'[|ms|..], row);
      var t :| t in Members(turns) && row == RowOf(ToRecord(f, t), row.id);
      OneTells(f, session, lines, row, t);
    }
  }

  lemma OneTells(f: File, session: string -> Option<Base>, lines: seq<string>, row: MessageRow, t: Turn)
    requires t in Parse(session, lines) && row == RowOf(ToRecord(f, t), row.id)
    ensures Told(row, f, Groups(ScanLines(session, lines).items), Parse(session, lines))
  {
    var items := ScanLines(session, lines).items;
    ParseIsGrouping(session, lines);
    NonemptyItems(items);
    var g := TurnIsGroup(Groups(items), ScanLines(session, lines).base, t);
    RecordTells(f, t, Groups(items), g, row);
  }

  /** The row says what some version of the file said. */
  ghost predicate ToldBySome(row: MessageRow, f: File, session: string -> Option<Base>, files: seq<seq<string>>) {
    exists i :: 0 <= i < |files| && Told(row, f, Groups(ScanLines(session, files[i]).items), Parse(session, files[i]))
  }

  /** Over any readings of any versions of a file, every row added is a turn of one of them and says so. */
  lemma AllRowsTell(lex: Lexicon, db: Tables, ctx: Option<Context>, f: File, session: string -> Option<Base>,
                    files: seq<seq<string>>, nonces: nat -> Nonces)
    requires Consistent(lex, db, ctx) && WithinCap(ctx.Some?, ParseAll(session, files))
    requires ctx.None? ==> FromReadings(Plain(db, ctx).messages, f)
    ensures var readings, ms := ParseAll(session, files), Plain(db, ctx).messages;
            var ms' := Plain(IngestAll(lex, db, SessionOf(db, ctx), f, readings, nonces), ctx).messages;
            ms <= ms' && forall row :: row in ms'[|ms|..] ==> ToldBySome(row, f, session, files)
  {
    var readings, ms := ParseAll(session, files), Plain(db, ctx).messages;
    ParsedAreIngestible(session, files, ctx.Some?);
    EveryTurnOnce(lex, db, ctx, f, readings, nonces);
    forall row | IsOneOf(row, f, TurnsRead(readings))
      ensures ToldBySome(row, f, session, files)
    {
      var t :| t in TurnsRead(readings) && row == RowOf(ToRecord(f, t), row.id);
      TurnsReadMeaning(readings, t);
      var i :| 0 <= i < |readings| && t in readings[i];
      OneTells(f, session, files[i], row, t);
    }
  }

  // ----- three voices -----

  /** A line without a marker. */
  predicate Unmarked(line: string) {
    !IsFence(line) && !IsSession(line) && !("#### " <= line) && !("> " <= line)
  }

  lemma MarkedLines(session: string -> Option<Base>, sc: Scan, text: string)
    requires !sc.inFence
    ensures ScanLine(session, sc, "#### " + text) == Spoken(sc, User, text)
    ensures ScanLine(session, sc, "> " + text) == Spoken(sc, Tool, text)
    ensures Unmarked(text) ==> ScanLine(session, sc, text) == Spoken(sc, Assistant, text)
  {
    var user, tool := "#### " + text, "> " + text;
    assert user[0] == '#' && user[1] == '#' && user[5..] == text;
    assert tool[0] == '>' && tool[2..] == text;
    assert Lstrip(user) == user && Lstrip(tool) == tool;
  }

  lemma GroupsOfThree(a: Item, b: Item, c: Item)
    requires a.role != b.role && b.role != c.role
    ensures Groups([a, b, c]) == [[a], [b], [c]]
  {
    assert [a, b, c][..2] == [a, b] && [a, b][..1] == [a] && [a][..0] == [];
    assert Groups([a]) == [[a]];
    assert Groups([a, b]) == [[a], [b]];
  }

  /** The turn of a single item. */
  function Alone(item: Item, n: nat, base: Base): Turn {
    Turn(item.role, TrimNewlines(item.text), n, base, HeaderOf(item.role))
  }

  lemma TurnOfOne(groups: seq<seq<Item>>, item: Item, base: Base, before: seq<Turn>)
    requires NonemptyGroups(groups) && !Blank(item.text) && TurnsOf(groups, item.base) == before
    ensures TurnsOf(groups + [[item]], base) == before + [Alone(item, |before| + 1, base)]
  {
    assert (groups + [[item]])[..|groups|] == groups;
    assert Texts([item])[..0] == [] && Join(Texts([item])) == item.text;
  }

  lemma TurnsOfThree(a: Item, b: Item, c: Item, base: Base)
    requires !Blank(a.text) && !Blank(b.text) && !Blank(c.text)
    ensures TurnsOf([[a], [b], [c]], base) == [Alone(a, 1, b.base), Alone(b, 2, c.base), Alone(c, 3, base)]
  {
    var one, two := [Alone(a, 1, b.base)], [Alone(a, 1, b.base), Alone(b, 2, c.base)];
    assert [] + [[a]] == [[a]] && [[a]] + [[b]] == [[a], [b]] && [[a], [b]] + [[c]] == [[a], [b], [c]];
    TurnOfOne([], a, b.base, []);
    TurnOfOne([[a]], b, c.base, one);
    TurnOfOne([[a], [b]], c, base, two);
  }

  lemma ScanOneMore(session: string -> Option<Base>, lines: seq<string>, line: string, sc: Scan)
    requires ScanLines(session, lines) == sc
    ensures ScanLines(session, lines + [line]) == ScanLine(session, sc, line)
  {
    assert (lines + [line])[..|lines|] == lines;
  }

  lemma ScanOfThree(session: string -> Option<Base>, ask: string, result: string, reply: string, a: Item, b: Item, c: Item)
    requires Unmarked(reply)
    requires a == Item(User, ask, SYNTHETIC_EPOCH) && b == Item(Tool, result, SYNTHETIC_EPOCH) && c == Item(Assistant, reply, SYNTHETIC_EPOCH)
    ensures ScanLines(session, ["#### " + ask, "> " + result, reply]) == Scan(false, SYNTHETIC_EPOCH, [a, b, c])
  {
    var x, y := "#### " + ask, "> " + result;
    var one, two := Scan(false, SYNTHETIC_EPOCH, [a]), Scan(false, SYNTHETIC_EPOCH, [a, b]);
    MarkedLines(session, UNREAD, ask);
    MarkedLines(session, one, result);
    MarkedLines(session, two, reply);
    ScanOneMore(session, [], x, UNREAD);
    ScanOneMore(session, [x], y, one);
    ScanOneMore(session, [x, y], reply, two);
    assert [] + [x] == [x] && [x] + [y] == [x, y] && [x, y] + [reply] == [x, y, reply];
  }

  lemma {:induction false} ZerosPadded(width: nat)
    ensures forall i :: 0 <= i < width ==> Padded(0, width)[i] == '0'
  {
    if width > 0 {
      ZerosPadded(width - 1);
    }
  }

  lemma OnePadded(x: string)
    requires x == Padded(1, 6)
    ensures x == "000001"
  {
    ZerosPadded(5);
    var front := Padded(0, 5);
    assert x == front + ['1'];
    assert forall i :: 0 <= i < 5 ==> x[i] == front[i];
  }

  /** A file without a session header counts its turns as microseconds of the epoch. */
  lemma FirstTimestamp()
    ensures Timestamp(SYNTHETIC_EPOCH, 1) == "1970-01-01T00:00:00" + (".000001" + "+00:00")
  {
    OnePadded(Padded(1, 6));
    assert ['.'] + "000001" == ".000001";
  }

  /** A question, a tool's output and an answer become three messages: of the user, of the system, of the assistant. */
  lemma ThreeVoices(session: string -> Option<Base>, f: File, ask: string, result: string, reply: string)
    requires Unmarked(reply) && !Blank(ask) && !Blank(result) && !Blank(reply)
    ensures var rs := Records(f, Parse(session, ["#### " + ask, "> " + result, reply]));
            && |rs| == 3 && rs[0].timestamp == "1970-01-01T00:00:00" + (".000001" + "+00:00")
            && rs[0].ns == Namespace(f.project, f.provider, f.conversation, "user") && rs[0].content == Lift(TrimNewlines(ask))
            && rs[1].ns == Namespace(f.project, f.provider, f.conversation, "system") && rs[1].content == Lift(TrimNewlines(result))
            && rs[2].ns == Namespace(f.project, f.provider, f.conversation, "assistant") && rs[2].content == Lift(TrimNewlines(reply))
  {
    var a, b, c := Item(User, ask, SYNTHETIC_EPOCH), Item(Tool, result, SYNTHETIC_EPOCH), Item(Assistant, reply, SYNTHETIC_EPOCH);
    ParseIsGrouping(session, ["#### " + ask, "> " + result, reply]);
    ScanOfThree(session, ask, result, reply, a, b, c);
    GroupsOfThree(a, b, c);
    TurnsOfThree(a, b, c, SYNTHETIC_EPOCH);
    FirstTimestamp();
  }
}
