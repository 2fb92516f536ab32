/** From Aider turns to records and into the store, again and again (providers/aider.py with
    storage.py): what re-ingesting a grown history file inserts. */
module AiderIngest {
  import opened Basics
  import Json
  import opened Crypto
  import opened Rows
  import opened Inserts
  import opened Batches
  import opened Aider

  /** A history file: where its records go, and the 16-character content digest. */
  datatype File = File(provider: string, project: string, conversation: string, filename: string, digest: string -> string)

  const MAX_MICROSECOND: nat := 999999

  function RoleName(role: Role): string {
    match role
    case User => "user"
    case Assistant => "assistant"
    case Tool => "system"
  }

  function ProviderRole(role: Role): string {
    match role
    case User => "user"
    case Assistant => "assistant"
    case Tool => "tool"
  }

  /** source_key_for_turn. */
  function SourceKey(f: File, t: Turn): string {
    f.conversation + ([':'] + (Decimal(t.ordinal) + [':'] + (RoleName(t.role) + [':'] + f.digest(t.content))))
  }

  // ----- timestamps -----

  function Pow10(width: nat): nat {
    if width == 0 then 1 else 10 * Pow10(width - 1)
  }

  /** n written with `width` digits. */
  function Padded(n: nat, width: nat): (s: string)
    ensures |s| == width
  {
    if width == 0 then [] else Padded(n / 10, width - 1) + [Digit(n % 10)]
  }

  function Microsecond(ordinal: nat): nat {
    if ordinal < MAX_MICROSECOND then ordinal else MAX_MICROSECOND
  }

  /** _stable_turn_timestamp: the session start with its microseconds replaced by the ordinal. */
  function Timestamp(base: Base, ordinal: nat): string {
    base.seconds + (['.'] + Padded(Microsecond(ordinal), 6) + "+00:00")
  }

  lemma DigitOrder(m: nat, n: nat)
    requires m < n < 10
    ensures Digit(m) < Digit(n)
  {
  }

  lemma {:induction false} PaddedOrder(m: nat, n: nat, width: nat)
    requires m < n < Pow10(width)
    ensures LexLess(Padded(m, width), Padded(n, width))
  {
    if m / 10 < n / 10 {
      PaddedOrder(m / 10, n / 10, width - 1);
    } else {
      DigitOrder(m % 10, n % 10);
    }
    LexAppend(Padded(m / 10, width - 1), Padded(n / 10, width - 1), [Digit(m % 10)], [Digit(n % 10)]);
  }

  lemma MicrosecondOrder(i: nat, j: nat)
    requires Microsecond(i) < Microsecond(j)
    ensures LexLess(Padded(Microsecond(i), 6), Padded(Microsecond(j), 6))
  {
    assert Pow10(2) == 100 && Pow10(4) == 10000 && Pow10(6) == 1000000;
    PaddedOrder(Microsecond(i), Microsecond(j), 6);
  }

  /** Within one session, up to the cap, the listing order of timestamps is the turn order. */
  lemma ListingOrderIsTurnOrder(a: Turn, b: Turn)
    requires a.base.seconds == b.base.seconds && a.ordinal < b.ordinal <= MAX_MICROSECOND
    ensures LexLess(Timestamp(a.base, a.ordinal), Timestamp(b.base, b.ordinal))
  {
    MicrosecondOrder(a.ordinal, b.ordinal);
    var x, y := Padded(a.ordinal, 6), Padded(b.ordinal, 6);
    LexAppend(x, y, "+00:00", "+00:00");
    LexAppend(['.'], ['.'], x + "+00:00", y + "+00:00");
    assert ['.'] + x + "+00:00" == ['.'] + (x + "+00:00") && ['.'] + y + "+00:00" == ['.'] + (y + "+00:00");
    LexIrreflexive(a.base.seconds);
    LexAppend(a.base.seconds, b.base.seconds, ['.'] + x + "+00:00", ['.'] + y + "+00:00");
  }

  lemma SuffixCancel(a: string, x: string, b: string, y: string)
    requires |x| == |y| && a + x == b + y
    ensures a == b && x == y
  {
    assert (a + x)[..|a|] == a && (b + y)[..|b|] == b;
    assert (a + x)[|a|..] == x && (b + y)[|b|..] == y;
  }

  /** Two timestamps agree exactly when the sessions agree to the second and the capped ordinals do. */
  lemma TimestampExactly(a: Turn, b: Turn)
    ensures Timestamp(a.base, a.ordinal) == Timestamp(b.base, b.ordinal)
       <==> a.base.seconds == b.base.seconds && Microsecond(a.ordinal) == Microsecond(b.ordinal)
  {
    var x, y := Padded(Microsecond(a.ordinal), 6), Padded(Microsecond(b.ordinal), 6);
    if Timestamp(a.base, a.ordinal) == Timestamp(b.base, b.ordinal) {
      SuffixCancel(a.base.seconds, ['.'] + x + "+00:00", b.base.seconds, ['.'] + y + "+00:00");
      SuffixCancel(['.'] + x, "+00:00", ['.'] + y, "+00:00");
      PrefixCancel(['.'], x, y);
      if Microsecond(a.ordinal) < Microsecond(b.ordinal) {
        MicrosecondOrder(a.ordinal, b.ordinal);
      } else if Microsecond(b.ordinal) < Microsecond(a.ordinal) {
        MicrosecondOrder(b.ordinal, a.ordinal);
      }
      LexIrreflexive(x);
    }
  }

  // ----- identities -----

  lemma RoleNames(a: Role, b: Role)
    ensures ':' !in RoleName(a)
    ensures RoleName(a) == RoleName(b) ==> a == b
  {
  }

  /** Within one file, two turns share a source key exactly when they have the same place, role and
      content digest; ordinals alone keep keys apart. */
  lemma SourceKeyExactly(f: File, a: Turn, b: Turn)
    ensures SourceKey(f, a) == SourceKey(f, b)
       <==> a.ordinal == b.ordinal && a.role == b.role && f.digest(a.content) == f.digest(b.content)
  {
    if SourceKey(f, a) == SourceKey(f, b) {
      var ra, rb := RoleName(a.role) + [':'] + f.digest(a.content), RoleName(b.role) + [':'] + f.digest(b.content);
      var da, db := Decimal(a.ordinal) + [':'] + ra, Decimal(b.ordinal) + [':'] + rb;
      PrefixCancel(f.conversation, [':'] + da, [':'] + db);
      PrefixCancel([':'], da, db);
      DecimalIsDigits(a.ordinal);
      DecimalIsDigits(b.ordinal);
      DelimitedInjective(Decimal(a.ordinal), Decimal(b.ordinal), ':', ra, rb);
      DecimalInjective(a.ordinal, b.ordinal);
      RoleNames(a.role, b.role);
      RoleNames(b.role, a.role);
      DelimitedInjective(RoleName(a.role), RoleName(b.role), ':', f.digest(a.content), f.digest(b.content));
    }
  }

  function OptionalText(s: Option<string>): Json.Json {
    match s
    case None => Json.Null
    case Some(text) => Json.Str(text)
  }

  function Metadata(f: File, t: Turn): Json.Json {
    Json.Obj(map[
      "source" := Json.Str("aider-chat-history"),
      "source_filename" := Json.Str(f.filename),
      "turn_ordinal" := Json.Int(t.ordinal),
      "recognized_header" := OptionalText(t.header),
      "provider_role" := Json.Str(ProviderRole(t.role)),
      "timestamp_origin" := Json.Str(if t.base.synthetic then "synthetic_epoch" else "aider_session_header"),
      "timestamp_base" := Json.Str(t.base.iso),
      "timestamp_synthetic" := Json.Bool(t.base.synthetic)])
  }

  function ToRecord(f: File, t: Turn): Record {
    Record(Namespace(f.project, f.provider, f.conversation, RoleName(t.role)), Lift(t.content),
           Timestamp(t.base, t.ordinal), [Doc(Metadata(f, t))], Some(SourceKey(f, t)))
  }

  function Records(f: File, turns: seq<Turn>): (rs: seq<Record>)
    ensures |rs| == |turns|
  {
    seq(|turns|, i requires 0 <= i < |turns| => ToRecord(f, turns[i]))
  }

  /** Two turns of one file in different places collide in the store exactly when the microsecond
      cap hides their order and they say the same in the same role within the same second. */
  lemma TurnsClashExactly(f: File, a: Turn, b: Turn)
    requires a.ordinal != b.ordinal
    ensures RecordsClash(ToRecord(f, a), ToRecord(f, b))
       <==> a.role == b.role && a.content == b.content && a.base.seconds == b.base.seconds
            && a.ordinal >= MAX_MICROSECOND && b.ordinal >= MAX_MICROSECOND
  {
    SourceKeyExactly(f, a, b);
    TimestampExactly(a, b);
    RoleNames(a.role, b.role);
    if Lift(a.content) == Lift(b.content) {
      LiftInjective(a.content, b.content);
    }
  }

  /** A row made of one reading clashes with a turn of a later reading exactly when the source keys agree. */
  lemma OldRowNewTurn(f: File, row: MessageRow, old': Turn, turn: Turn)
    requires row == RowOf(ToRecord(f, old'), row.id)
    requires 1 <= old'.ordinal <= MAX_MICROSECOND && 1 <= turn.ordinal <= MAX_MICROSECOND
    ensures Clash(row, RowOf(ToRecord(f, turn), 0)) <==> SourceKey(f, old') == SourceKey(f, turn)
  {
    SourceKeyExactly(f, old', turn);
    if old'.ordinal != turn.ordinal {
      TurnsClashExactly(f, old', turn);
      TurnsClashExactly(f, turn, old');
    } else {
      RoleNames(old'.role, turn.role);
      if Lift(old'.content) == Lift(turn.content) {
        LiftInjective(old'.content, turn.content);
      }
    }
  }
}
