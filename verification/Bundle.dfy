/** Exporting a project to a bundle and importing it elsewhere (sync_service.py). */
module Bundle {
  import opened Basics
  import opened Sorting
  import opened Crypto
  import opened Tokenizer
  import opened Rows
  import opened Inserts
  import opened Fields
  import opened Simulation
  import opened Batches
  import opened Store

  /** One entry of a bundle's message list: anything but an object, or an object of optional strings. */
  datatype BundleMessage =
    | OtherMessage
    | MessageEntry(
        provider: Option<string>,
        conversation: Option<string>,
        role: Option<string>,
        content: Text,
        timestamp: Option<string>,
        metadata: Text,
        sourceKey: Option<string>)

  datatype BundleSummary =
    | OtherSummary
    | SummaryEntry(conversation: string, text: Text, technique: string, createdAt: Option<string>)

  datatype Bundle = Bundle(project: string, messages: seq<BundleMessage>, summaries: seq<BundleSummary>)

  /** BundleImportReport. */
  datatype Report = Report(
    messagesSeen: nat, messagesInserted: nat, messagesDuplicate: nat, malformedMessages: nat,
    summariesSeen: nat, summariesInserted: nat, summariesUpdated: nat, malformedSummaries: nat)

  const EMPTY_OBJECT: Text := Lift("{}")

  // ----- listings -----

  predicate Earlier(a: MessageRow, b: MessageRow) {
    LexLess(a.timestamp, b.timestamp) || (a.timestamp == b.timestamp && a.id <= b.id)
  }

  function MessageOrder(): (MessageRow, MessageRow) -> bool {
    (a: MessageRow, b: MessageRow) => Earlier(a, b)
  }

  function OfProject(project: string): MessageRow -> bool {
    (m: MessageRow) => m.ns.project == project
  }

  /** list_messages on readable rows: ORDER BY timestamp ASC, id ASC. */
  function ListMessages(rows: seq<MessageRow>, project: string): seq<MessageRow> {
    Sort(Filter(rows, OfProject(project)), MessageOrder())
  }

  function SummaryOrder(): (SummaryRow, SummaryRow) -> bool {
    (a: SummaryRow, b: SummaryRow) => !LexLess(a.key.createdAt, b.key.createdAt)
  }

  function SummariesOf(project: string): SummaryRow -> bool {
    (r: SummaryRow) => r.key.project == project
  }

  /** list_summaries: ORDER BY created_at DESC, ties in row order. */
  function ListSummaries(rows: seq<SummaryRow>, project: string): seq<SummaryRow> {
    Sort(Filter(rows, SummariesOf(project)), SummaryOrder())
  }

  // ----- export -----

  function ExportMessage(m: MessageRow): BundleMessage {
    MessageEntry(Some(m.ns.provider), Some(m.ns.conversation), Some(m.ns.role), m.content, Some(m.timestamp), m.metadata, m.sourceKey)
  }

  function ExportSummary(r: SummaryRow): BundleSummary {
    SummaryEntry(r.key.conversation, r.body, r.key.technique, Some(r.key.createdAt))
  }

  function ExportMessages(ms: seq<MessageRow>): (r: seq<BundleMessage>) {
    seq(|ms|, i requires 0 <= i < |ms| => ExportMessage(ms[i]))
  }

  function ExportSummaries(rs: seq<SummaryRow>): (r: seq<BundleSummary>) {
    seq(|rs|, i requires 0 <= i < |rs| => ExportSummary(rs[i]))
  }

  /** The payload of a bundle from listed rows. */
  function BundleOf(project: string, ms: seq<MessageRow>, ss: seq<SummaryRow>): Bundle {
    Bundle(project, ExportMessages(ms), ExportSummaries(ss))
  }

  /** export_bundle, over the readable rows of a database. */
  function Export(db: Tables, project: string): Bundle {
    BundleOf(project, ListMessages(db.messages, project), ListSummaries(db.summaries, project))
  }

  // ----- import -----

  /** Python's `value or default`. */
  function Or(s: Option<string>, default: string): string {
    if s.Some? && s.value != "" then s.value else default
  }

  function KeyOrNone(s: Option<string>): Option<string> {
    if s == Some("") then None else s
  }

  /** The time an entry of a list gets if it has none: the clock is read for each of them. */
  type Clock = nat -> string

  datatype Clocks = Clocks(messages: Clock, summaries: Clock)

  /** The record of one entry; none for what is not an object or has no content. */
  function ImportMessage(m: BundleMessage, project: string, now: string): Option<Record> {
    if m.OtherMessage? || m.content == [] then None
    else Some(Record(
      Namespace(project, Or(m.provider, "bundle"), Or(m.conversation, "bundle"), Or(m.role, "unknown")),
      m.content, Or(m.timestamp, now), if m.metadata == [] then EMPTY_OBJECT else m.metadata, KeyOrNone(m.sourceKey)))
  }

  /** An entry that is taken: an object with a content. */
  predicate Importable(m: BundleMessage) {
    m.MessageEntry? && m.content != []
  }

  /** A summary that is taken: an object with a text, a conversation and a technique. */
  predicate ImportableSummary(e: BundleSummary) {
    e.SummaryEntry? && e.text != [] && e.conversation != "" && e.technique != ""
  }

  predicate MissingOrEmpty(s: Option<string>) {
    s == None || s == Some("")
  }

  /** What an entry with nothing but a content becomes, and what is not taken at all. */
  lemma BareEntry(m: BundleMessage, project: string, now: string)
    ensures ImportMessage(m, project, now).Some? <==> Importable(m)
    ensures m.MessageEntry? && m.content != [] && MissingOrEmpty(m.provider) && MissingOrEmpty(m.conversation) && MissingOrEmpty(m.role)
            && MissingOrEmpty(m.timestamp) && MissingOrEmpty(m.sourceKey) && m.metadata == [] ==>
              ImportMessage(m, project, now) == Some(Record(Namespace(project, "bundle", "bundle", "unknown"), m.content, now, Lift("{}"), None))
  {
  }

  function Flattened(ms: seq<BundleMessage>, project: string, now: Clock): (rs: seq<Record>)
    ensures |rs| <= |ms|
  {
    if ms == [] then []
    else
      var last := ImportMessage(ms[|ms| - 1], project, now(|ms| - 1));
      Flattened(ms[..|ms| - 1], project, now) + if last.Some? then [last.value] else []
  }

  function ImportSummary(e: BundleSummary, project: string, now: string): Option<Summary> {
    if e.OtherSummary? || e.text == [] || e.conversation == "" || e.technique == "" then None
    else Some(Summary(project, e.conversation, e.text, e.technique, Or(e.createdAt, now)))
  }

  function UpsertedOne(db: Tables, s: Session, e: BundleSummary, project: string, now: string, nonces: Nonces): Tables {
    match ImportSummary(e, project, now)
    case None => db
    case Some(rec) => Fields.UpsertSummary(db, s, rec, nonces).0
  }

  /** The summaries of a bundle, one upsert after the other. */
  function Upserted(db: Tables, s: Session, es: seq<BundleSummary>, project: string, now: Clock, nonces: nat -> Nonces): Tables {
    if es == [] then db
    else
      var n := |es| - 1;
      UpsertedOne(Upserted(db, s, es[..n], project, now, nonces), s, es[n], project, now(n), nonces(n))
  }

  function Imported(lex: Lexicon, db: Tables, s: Session, bundle: Bundle, override: Option<string>, now: Clocks,
                    messageNonces: Nonces, nonces: nat -> Nonces): Tables
  {
    var project := Or(override, Or(Some(bundle.project), "default"));
    Upserted(InsertBatch(lex, db, s, Flattened(bundle.messages, project, now.messages), messageNonces), s, bundle.summaries, project, now.summaries, nonces)
  }

  /** The flattening loop. */
  method FlattenMessages(ms: seq<BundleMessage>, project: string, now: Clock) returns (rs: seq<Record>, seen: nat, malformed: nat)
    ensures rs == Flattened(ms, project, now) && seen == |ms| && malformed == |ms| - |rs|
    ensures |rs| == |Filter(ms, Importable)|
  {
    rs, seen, malformed := [], 0, 0;
    while seen < |ms|
      invariant 0 <= seen <= |ms| && rs == Flattened(ms[..seen], project, now) && malformed == seen - |rs|
      invariant |rs| == |Filter(ms[..seen], Importable)|
    {
      assert ms[..seen + 1][..seen] == ms[..seen];
      assert ms[..seen + 1] == ms[..seen] + [ms[seen]];
      FilterSnoc(ms[..seen], ms[seen], Importable);
      var rec := ImportMessage(ms[seen], project, now(seen));
      seen := seen + 1;
      if rec.None? {
        malformed := malformed + 1;
      } else {
        rs := rs + [rec.value];
      }
    }
    assert ms[..seen] == ms;
  }

  /** What becomes of a summary. */
  datatype Fate = Added | Changed | Refused

  /** One summary; a failing upsert makes it count as malformed. */
  method ImportOne(store: MemoryStore, e: BundleSummary, project: string, now: string, nonces: Nonces) returns (fate: Fate)
    modifies store, store.db
    ensures store.db.messages == old(store.db.messages)
    ensures |store.db.summaries| == |old(store.db.summaries)| + (if fate.Added? then 1 else 0)
    ensures old(store.NextSession()).Ok? ==>
              && (fate.Refused? <==> !ImportableSummary(e)) && store.NextSession() == old(store.NextSession())
              && store.db.Contents() == UpsertedOne(old(store.db.Contents()), old(store.NextSession()).value, e, project, now, nonces)
  {
    var rec := ImportSummary(e, project, now);
    if rec.None? {
      return Refused;
    }
    var outcome := store.UpsertSummary(rec.value, nonces, None);
    return if outcome.Err? then Refused else if outcome.value then Added else Changed;
  }

  lemma UpsertedOneMore(db: Tables, s: Session, es: seq<BundleSummary>, i: nat, project: string, now: Clock, nonces: nat -> Nonces, mid: Tables)
    requires i < |es| && Upserted(db, s, es[..i], project, now, nonces) == mid
    ensures Upserted(db, s, es[..i + 1], project, now, nonces) == UpsertedOne(mid, s, es[i], project, now(i), nonces(i))
  {
    assert es[..i + 1][..i] == es[..i];
  }

  lemma TakenOneMore(es: seq<BundleSummary>, i: nat)
    requires i < |es|
    ensures |Filter(es[..i + 1], ImportableSummary)| == |Filter(es[..i], ImportableSummary)| + (if ImportableSummary(es[i]) then 1 else 0)
  {
    assert es[..i + 1] == es[..i] + [es[i]];
    FilterSnoc(es[..i], es[i], ImportableSummary);
  }

  /** The upsert loop. */
  method ImportSummaries(store: MemoryStore, es: seq<BundleSummary>, project: string, now: Clock, nonces: nat -> Nonces)
    returns (inserted: nat, updated: nat, malformed: nat)
    modifies store, store.db
    ensures inserted + updated + malformed == |es| && inserted == |store.db.summaries| - |old(store.db.summaries)|
    ensures old(store.NextSession()).Ok? ==> inserted + updated == |Filter(es, ImportableSummary)|
    ensures store.db.messages == old(store.db.messages)
    ensures old(store.NextSession()).Ok? ==>
              store.db.Contents() == Upserted(old(store.db.Contents()), old(store.NextSession()).value, es, project, now, nonces)
  {
    ghost var session, start := store.NextSession(), store.db.Contents();
    inserted, updated, malformed := 0, 0, 0;
    var i := 0;
    while i < |es|
      invariant 0 <= i <= |es| && inserted + updated + malformed == i
      invariant inserted == |store.db.summaries| - |old(store.db.summaries)|
      invariant session.Ok? ==> inserted + updated == |Filter(es[..i], ImportableSummary)|
      invariant store.db.messages == old(store.db.messages)
      invariant session.Ok? ==> store.NextSession() == session
      invariant session.Ok? ==> store.db.Contents() == Upserted(start, session.value, es[..i], project, now, nonces)
    {
      TakenOneMore(es, i);
      if session.Ok? {
        UpsertedOneMore(start, session.value, es, i, project, now, nonces, store.db.Contents());
      }
      var fate := ImportOne(store, es[i], project, now(i), nonces(i));
      match fate {
        case Added => inserted := inserted + 1;
        case Changed => updated := updated + 1;
        case Refused => malformed := malformed + 1;
      }
      i := i + 1;
    }
    assert es[..i] == es;
  }

  /** The messages of a bundle: flattened, then offered to the store in one batch. */
  method ImportMessages(store: MemoryStore, ms: seq<BundleMessage>, project: string, now: Clock, nonces: Nonces, fault: Option<nat>)
    returns (r: Result<nat, Failure>, duplicate: nat, malformed: nat)
    modifies store, store.db
    ensures r.Err? ==> store.db.Contents() == old(store.db.Contents())
    ensures r.Ok? ==>
              && r.value + duplicate == |Filter(ms, Importable)| && malformed == |ms| - |Filter(ms, Importable)|
              && |store.db.messages| == |old(store.db.messages)| + r.value
              && store.db.summaries == old(store.db.summaries)
    ensures old(store.NextSession()).Ok? && fault.None? ==> r.Ok?
    ensures r.Ok? && old(store.NextSession()).Ok? ==>
              && store.NextSession() == old(store.NextSession())
              && store.db.Contents() == InsertBatch(store.lex, old(store.db.Contents()), old(store.NextSession()).value, Flattened(ms, project, now), nonces)
  {
    var records, _, bad := FlattenMessages(ms, project, now);
    duplicate, malformed := 0, bad;
    if store.NextSession().Ok? {
      InsertedAtMost(store.lex, store.db.Contents(), store.NextSession().value, records, nonces);
      InsertsLeaveSummaries(store.lex, store.db.Contents(), store.NextSession().value, records, nonces);
    }
    r := store.InsertMessages(records, nonces, fault);
    if r.Ok? {
      duplicate := |records| - r.value;
    }
  }

  /** Every entry of the bundle is counted once, under what happened to it: refused for its form, or taken. */
  predicate Counts(bundle: Bundle, r: Report) {
    && r.messagesSeen == |bundle.messages| && r.malformedMessages == |bundle.messages| - |Filter(bundle.messages, Importable)|
    && r.messagesInserted + r.messagesDuplicate == |Filter(bundle.messages, Importable)|
    && r.summariesSeen == |bundle.summaries| == r.summariesInserted + r.summariesUpdated + r.malformedSummaries
  }

  /** import_bundle_with_report, for a bundle that is not sealed; a failing message insert raises. */
  method ImportBundleWithReport(store: MemoryStore, bundle: Bundle, override: Option<string>, now: Clocks,
                                messageNonces: Nonces, nonces: nat -> Nonces, fault: Option<nat>) returns (r: Result<Report, Failure>)
    modifies store, store.db
    ensures r.Err? ==> store.db.Contents() == old(store.db.Contents())
    ensures r.Ok? ==>
              && Counts(bundle, r.value)
              && |store.db.messages| == |old(store.db.messages)| + r.value.messagesInserted
              && |store.db.summaries| == |old(store.db.summaries)| + r.value.summariesInserted
    ensures r.Ok? && old(store.NextSession()).Ok? ==> r.value.malformedSummaries == |bundle.summaries| - |Filter(bundle.summaries, ImportableSummary)|
    ensures old(store.NextSession()).Ok? && fault.None? ==>
              r.Ok? && store.db.Contents() == Imported(store.lex, old(store.db.Contents()), old(store.NextSession()).value, bundle, override, now,
                                                        messageNonces, nonces)
  {
    var project := Or(override, Or(Some(bundle.project), "default"));
    var stored, duplicate, malformed := ImportMessages(store, bundle.messages, project, now.messages, messageNonces, fault);
    if stored.Err? {
      return Err(stored.error);
    }
    var inserted, updated, broken := ImportSummaries(store, bundle.summaries, project, now.summaries, nonces);
    return Ok(Report(|bundle.messages|, stored.value, duplicate, malformed, |bundle.summaries|, inserted, updated, broken));
  }

  lemma {:induction false} InsertedAtMost(lex: Lexicon, db: Tables, s: Session, rs: seq<Record>, nonces: Nonces)
    ensures |db.messages| <= |InsertBatch(lex, db, s, rs, nonces).messages| <= |db.messages| + |rs|
  {
    if rs != [] {
      InsertedAtMost(lex, db, s, rs[..|rs| - 1], nonces);
    }
  }

  // ----- listings are permutations in order -----

  lemma MessageOrderTotal()
    ensures TotalPreorder(MessageOrder())
  {
    forall a, b
      ensures MessageOrder()(a, b) || MessageOrder()(b, a)
    {
      LexTotal(a.timestamp, b.timestamp);
    }
    forall a, b, c | MessageOrder()(a, b) && MessageOrder()(b, c)
      ensures MessageOrder()(a, c)
    {
      if LexLess(a.timestamp, b.timestamp) && LexLess(b.timestamp, c.timestamp) {
        LexTransitive(a.timestamp, b.timestamp, c.timestamp);
      }
    }
  }

  lemma SummaryOrderTotal()
    ensures TotalPreorder(SummaryOrder())
  {
    forall a, b
      ensures SummaryOrder()(a, b) || SummaryOrder()(b, a)
    {
      if LexLess(a.key.createdAt, b.key.createdAt) && LexLess(b.key.createdAt, a.key.createdAt) {
        LexTransitive(a.key.createdAt, b.key.createdAt, a.key.createdAt);
        LexIrreflexive(a.key.createdAt);
      }
    }
    forall a, b, c | SummaryOrder()(a, b) && SummaryOrder()(b, c)
      ensures SummaryOrder()(a, c)
    {
      LexTotal(a.key.createdAt, b.key.createdAt);
      if LexLess(a.key.createdAt, c.key.createdAt) && LexLess(b.key.createdAt, a.key.createdAt) {
        LexTransitive(b.key.createdAt, a.key.createdAt, c.key.createdAt);
      }
    }
  }

  /** A listing holds each row of the project once, by timestamp and then by id. */
  lemma ListedMessages(rows: seq<MessageRow>, project: string)
    requires OrderedMessages(rows)
    ensures var l := ListMessages(rows, project);
            && Distinct(l) && Sorted(l, MessageOrder()) && (forall m :: m in l <==> m in rows && m.ns.project == project)
            && forall i, j :: 0 <= i < j < |l| ==>
                 LexLess(l[i].timestamp, l[j].timestamp) || (l[i].timestamp == l[j].timestamp && l[i].id <= l[j].id)
  {
    var kept := Filter(rows, OfProject(project));
    FilterKeepsDistinct(rows, OfProject(project));
    SortKeepsDistinct(kept, MessageOrder());
    MessageOrderTotal();
    SortSorts(kept, MessageOrder());
    SortMembers(kept, MessageOrder());
    var l := ListMessages(rows, project);
    assert forall i, j :: 0 <= i < j < |l| ==> MessageOrder()(l[i], l[j]);
  }

  /** Summaries are listed latest first. */
  lemma ListedSummaries(rows: seq<SummaryRow>, project: string)
    requires OrderedRows(rows)
    ensures var l := ListSummaries(rows, project);
            && Distinct(l) && Sorted(l, SummaryOrder()) && (forall r :: r in l <==> r in rows && r.key.project == project)
            && forall i, j :: 0 <= i < j < |l| ==> !LexLess(l[i].key.createdAt, l[j].key.createdAt)
  {
    var kept := Filter(rows, SummariesOf(project));
    FilterKeepsDistinct(rows, SummariesOf(project));
    SortKeepsDistinct(kept, SummaryOrder());
    SummaryOrderTotal();
    SortSorts(kept, SummaryOrder());
    SortMembers(kept, SummaryOrder());
    var l := ListSummaries(rows, project);
    assert forall i, j :: 0 <= i < j < |l| ==> SummaryOrder()(l[i], l[j]);
  }

  // ----- importing a listing of messages -----

  /** A message whose fields an import takes as they are. */
  predicate Exportable(m: MessageRow) {
    && m.ns.provider != "" && m.ns.conversation != "" && m.ns.role != "" && m.content != [] && m.timestamp != ""
    && m.metadata != [] && m.sourceKey != Some("")
  }

  predicate ExportableSummary(r: SummaryRow) {
    r.key.conversation != "" && r.key.technique != "" && r.key.createdAt != "" && r.body != []
  }

  /** A message as a reader sees it: everything but its id and its fingerprint. */
  function Shown(m: MessageRow): MessageRow {
    m.(id := 0, fingerprint := None)
  }

  function AsRecord(m: MessageRow): Record {
    Record(m.ns, m.content, m.timestamp, m.metadata, m.sourceKey)
  }

  function AsRecords(ms: seq<MessageRow>): (rs: seq<Record>) {
    seq(|ms|, i requires 0 <= i < |ms| => AsRecord(ms[i]))
  }

  lemma {:induction false} ExportedFlattens(ms: seq<MessageRow>, project: string, now: Clock)
    requires forall i :: 0 <= i < |ms| ==> Exportable(ms[i]) && ms[i].ns.project == project
    ensures Flattened(ExportMessages(ms), project, now) == AsRecords(ms)
  {
    if ms != [] {
      var front, last := ms[..|ms| - 1], ms[|ms| - 1];
      ExportedFlattens(front, project, now);
      assert ExportMessages(ms)[..|ms| - 1] == ExportMessages(front);
      assert ImportMessage(ExportMessage(last), project, now(|front|)) == Some(AsRecord(last));
      assert AsRecords(ms) == AsRecords(front) + [AsRecord(last)];
    }
  }

  lemma ListedApart(rows: seq<MessageRow>, listed: seq<MessageRow>)
    requires UniqueMessages(rows) && Distinct(listed) && forall m :: m in listed ==> m in rows
    ensures Batches.Apart(AsRecords(listed))
  {
    forall i, j | 0 <= i < j < |listed|
      ensures !RecordsClash(AsRecord(listed[i]), AsRecord(listed[j]))
    {
      assert listed[i] in rows && listed[j] in rows;
      var k :| 0 <= k < |rows| && rows[k] == listed[i];
      var l :| 0 <= l < |rows| && rows[l] == listed[j];
      if k < l {
        assert !Clash(rows[k], rows[l]);
      } else {
        assert !Clash(rows[l], rows[k]);
      }
    }
  }

  /** Rows that hold a listing, in its order, under ids of their own. */
  predicate Relisted(listed: seq<MessageRow>, rows: seq<MessageRow>) {
    && |rows| == |listed| && OrderedMessages(rows)
    && forall i :: 0 <= i < |listed| ==> rows[i] == listed[i].(id := rows[i].id, fingerprint := None)
  }

  lemma RowsOfListing(listed: seq<MessageRow>, base: nat, rows: seq<MessageRow>, top: nat)
    requires RowsFor(AsRecords(listed), rows) && Rising(base, rows, top)
    ensures Relisted(listed, rows)
  {
    assert forall i :: 0 <= i < |listed| ==> rows[i] == RowOf(AsRecords(listed)[i], rows[i].id);
  }

  lemma RelistedMessages(rows: seq<MessageRow>, listed: seq<MessageRow>, project: string)
    requires Sorted(listed, MessageOrder()) && Relisted(listed, rows)
    requires forall i :: 0 <= i < |listed| ==> listed[i].ns.project == project
    ensures ListMessages(rows, project) == rows
  {
    FilterAll(rows, OfProject(project));
    forall i, j | 0 <= i < j < |rows|
      ensures MessageOrder()(rows[i], rows[j])
    {
      assert MessageOrder()(listed[i], listed[j]);
      StillEarlier(listed[i], listed[j], rows[i], rows[j]);
    }
    SortOfSorted(rows, MessageOrder());
  }

  lemma StillEarlier(a: MessageRow, b: MessageRow, a': MessageRow, b': MessageRow)
    requires Earlier(a, b) && a'.timestamp == a.timestamp && b'.timestamp == b.timestamp && a'.id < b'.id
    ensures MessageOrder()(a', b')
  {
  }

  /** An empty store that imports a listing holds it. */
  lemma ImportedListing(lex: Lexicon, listed: seq<MessageRow>, empty: Tables, nonces: Nonces)
    requires empty.messages == [] && Batches.Apart(AsRecords(listed))
    ensures Relisted(listed, InsertBatch(lex, empty, PLAIN, AsRecords(listed), nonces).messages)
  {
    var rs := AsRecords(listed);
    CleanBatchAppends(lex, empty, rs, nonces);
    var base := LastId(empty, PLAIN);
    var rows := AddedRows([], false, base, rs);
    assert [] + rows == rows;
    RowsOfListing(listed, base, rows, base + |rs|);
  }

  // ----- importing a listing of summaries -----

  predicate OnePerConversation(rs: seq<SummaryRow>) {
    forall i, j :: 0 <= i < j < |rs| ==> rs[i].key.conversation != rs[j].key.conversation
  }

  function WithId(r: SummaryRow, id: nat): SummaryRow {
    r.(id := id)
  }

  /** Rows of a project's listing appended one by one. */
  function AppendedSummaries(listed: seq<SummaryRow>): seq<SummaryRow> {
    if listed == [] then []
    else
      var front := AppendedSummaries(listed[..|listed| - 1]);
      front + [WithId(listed[|listed| - 1], NextRowId(front))]
  }

  lemma {:induction false} AppendedSummaryRows(listed: seq<SummaryRow>)
    ensures var rows := AppendedSummaries(listed);
            |rows| == |listed| && forall i :: 0 <= i < |listed| ==> rows[i] == WithId(listed[i], rows[i].id)
  {
    if listed != [] {
      AppendedSummaryRows(listed[..|listed| - 1]);
    }
  }

  predicate ReadyToImport(listed: seq<SummaryRow>, project: string) {
    OnePerConversation(listed) && forall i :: 0 <= i < |listed| ==> ExportableSummary(listed[i]) && listed[i].key.project == project
  }

  function AsSummary(r: SummaryRow): Summary {
    Summary(r.key.project, r.key.conversation, r.body, r.key.technique, r.key.createdAt)
  }

  /** Upserting a new conversation appends its row. */
  lemma UpsertNew(db: Tables, r: SummaryRow, nonces: Nonces)
    requires forall i :: 0 <= i < |db.summaries| ==> !SummaryFor(db.summaries[i], AsSummary(r))
    ensures Fields.UpsertSummary(db, PLAIN, AsSummary(r), nonces).0
         == db.(summaries := db.summaries + [WithId(r, NextRowId(db.summaries))])
  {
  }

  lemma UpsertedSnoc(db: Tables, s: Session, es: seq<BundleSummary>, e: BundleSummary, project: string, now: Clock, nonces: nat -> Nonces,
                     mid: Tables)
    requires Upserted(db, s, es, project, now, nonces) == mid
    ensures Upserted(db, s, es + [e], project, now, nonces) == UpsertedOne(mid, s, e, project, now(|es|), nonces(|es|))
  {
    assert (es + [e])[..|es|] == es;
  }

  lemma ExportSnoc(listed: seq<SummaryRow>, last: SummaryRow)
    ensures ExportSummaries(listed + [last]) == ExportSummaries(listed) + [ExportSummary(last)]
  {
  }

  lemma ExportedImports(r: SummaryRow, project: string, now: string)
    requires ExportableSummary(r) && r.key.project == project
    ensures ImportSummary(ExportSummary(r), project, now) == Some(AsSummary(r))
  {
  }

  lemma {:induction false} ExportedUpserts(db: Tables, listed: seq<SummaryRow>, project: string, now: Clock, nonces: nat -> Nonces)
    requires db.summaries == [] && ReadyToImport(listed, project)
    ensures Upserted(db, PLAIN, ExportSummaries(listed), project, now, nonces) == db.(summaries := AppendedSummaries(listed))
  {
    if listed != [] {
      var n := |listed| - 1;
      var front, last := listed[..n], listed[n];
      var mid := db.(summaries := AppendedSummaries(front));
      ExportedUpserts(db, front, project, now, nonces);
      assert listed == front + [last];
      ExportSnoc(front, last);
      UpsertedSnoc(db, PLAIN, ExportSummaries(front), ExportSummary(last), project, now, nonces, mid);
      ExportedImports(last, project, now(n));
      AppendedSummaryRows(front);
      UpsertNew(mid, last, nonces(n));
    }
  }

  lemma {:induction false} InsertsLeaveSummaries(lex: Lexicon, db: Tables, s: Session, rs: seq<Record>, nonces: Nonces)
    ensures InsertBatch(lex, db, s, rs, nonces).summaries == db.summaries
  {
    if rs != [] {
      InsertsLeaveSummaries(lex, db, s, rs[..|rs| - 1], nonces);
    }
  }

  lemma {:induction false} UpsertsLeaveMessages(db: Tables, s: Session, es: seq<BundleSummary>, project: string, now: Clock, nonces: nat -> Nonces)
    ensures Upserted(db, s, es, project, now, nonces).messages == db.messages
    ensures Upserted(db, s, es, project, now, nonces) == db.(summaries := Upserted(db, s, es, project, now, nonces).summaries)
  {
    if es != [] {
      UpsertsLeaveMessages(db, s, es[..|es| - 1], project, now, nonces);
    }
  }

  // ----- importing again -----

  lemma UpsertSame(db: Tables, rec: Summary, nonces: Nonces)
    requires exists i :: 0 <= i < |db.summaries| && SummaryFor(db.summaries[i], rec)
    requires forall i :: 0 <= i < |db.summaries| && SummaryFor(db.summaries[i], rec) ==>
               db.summaries[i].body == rec.text && db.summaries[i].key.technique == rec.technique && db.summaries[i].key.createdAt == rec.createdAt
    ensures Fields.UpsertSummary(db, PLAIN, rec, nonces).0 == db
  {
  }

  lemma {:induction false} UpsertsAgain(db: Tables, listed: seq<SummaryRow>, k: nat, project: string, now: Clock, nonces: nat -> Nonces)
    requires db.summaries == AppendedSummaries(listed) && ReadyToImport(listed, project) && k <= |listed|
    ensures Upserted(db, PLAIN, ExportSummaries(listed[..k]), project, now, nonces) == db
  {
    if k > 0 {
      var last := listed[k - 1];
      UpsertsAgain(db, listed, k - 1, project, now, nonces);
      assert listed[..k] == listed[..k - 1] + [last];
      ExportSnoc(listed[..k - 1], last);
      UpsertedSnoc(db, PLAIN, ExportSummaries(listed[..k - 1]), ExportSummary(last), project, now, nonces, db);
      ExportedImports(last, project, now(k - 1));
      UpsertedBefore(db, listed, k - 1, nonces(k - 1));
    }
  }

  /** Upserting what a listing already holds changes nothing. */
  lemma UpsertedBefore(db: Tables, listed: seq<SummaryRow>, k: nat, nonces: Nonces)
    requires db.summaries == AppendedSummaries(listed) && OnePerConversation(listed) && k < |listed|
    ensures Fields.UpsertSummary(db, PLAIN, AsSummary(listed[k]), nonces).0 == db
  {
    AppendedSummaryRows(listed);
    var rec := AsSummary(listed[k]);
    assert SummaryFor(db.summaries[k], rec);
    forall i | 0 <= i < |db.summaries| && i != k
      ensures !SummaryFor(db.summaries[i], rec)
    {
      assert listed[if i < k then i else k].key.conversation != listed[if i < k then k else i].key.conversation;
    }
    UpsertSame(db, rec, nonces);
  }

  lemma ReinsertedMessages(lex: Lexicon, listed: seq<MessageRow>, once: Tables, nonces: Nonces)
    requires Relisted(listed, once.messages)
    ensures InsertBatch(lex, once, PLAIN, AsRecords(listed), nonces) == once.(sequence := CountedTo(once, PLAIN, |listed|))
  {
    var recs := AsRecords(listed);
    forall i | 0 <= i < |recs|
      ensures !Unseen(once.messages, recs[i])
    {
      assert SameDedupeKey(once.messages[i], RowOf(recs[i], 0));
    }
    SeenBatchChangesNothing(lex, once, recs, nonces);
  }

  /** What the first import of an exported bundle leaves. */
  lemma ImportedOnce(lex: Lexicon, db: Tables, project: string, empty: Tables, now: Clocks, messageNonces: Nonces, nonces: nat -> Nonces)
    requires OrderedMessages(db.messages) && UniqueMessages(db.messages) && project != ""
    requires forall m :: m in db.messages && m.ns.project == project ==> Exportable(m)
    requires ReadyToImport(ListSummaries(db.summaries, project), project)
    requires empty.messages == [] && empty.summaries == []
    ensures var once := Imported(lex, empty, PLAIN, Export(db, project), None, now, messageNonces, nonces);
            && Relisted(ListMessages(db.messages, project), once.messages)
            && once.summaries == AppendedSummaries(ListSummaries(db.summaries, project))
  {
    var listed, ss := ListMessages(db.messages, project), ListSummaries(db.summaries, project);
    ListedMessages(db.messages, project);
    assert forall i :: 0 <= i < |listed| ==> listed[i] in listed;
    ExportedFlattens(listed, project, now.messages);
    var mid := InsertBatch(lex, empty, PLAIN, AsRecords(listed), messageNonces);
    InsertsLeaveSummaries(lex, empty, PLAIN, AsRecords(listed), messageNonces);
    ExportedUpserts(mid, ss, project, now.summaries, nonces);
    ListedApart(db.messages, listed);
    ImportedListing(lex, listed, empty, messageNonces);
  }

  /** Importing the same bundle a second time changes no row; SQLite counts the messages it was offered. */
  lemma ImportAgain(lex: Lexicon, db: Tables, project: string, empty: Tables, now: Clocks, later: Clocks,
                    messageNonces: Nonces, nonces: nat -> Nonces)
    requires OrderedMessages(db.messages) && UniqueMessages(db.messages) && project != ""
    requires forall m :: m in db.messages && m.ns.project == project ==> Exportable(m)
    requires ReadyToImport(ListSummaries(db.summaries, project), project)
    requires empty.messages == [] && empty.summaries == []
    ensures var once := Imported(lex, empty, PLAIN, Export(db, project), None, now, messageNonces, nonces);
            Imported(lex, once, PLAIN, Export(db, project), None, later, messageNonces, nonces)
            == once.(sequence := CountedTo(once, PLAIN, |ListMessages(db.messages, project)|))
  {
    var listed, ss := ListMessages(db.messages, project), ListSummaries(db.summaries, project);
    ImportedOnce(lex, db, project, empty, now, messageNonces, nonces);
    ListedMessages(db.messages, project);
    assert forall i :: 0 <= i < |listed| ==> listed[i] in listed;
    ImportOver(lex, listed, ss, project, Imported(lex, empty, PLAIN, Export(db, project), None, now, messageNonces, nonces), later,
               messageNonces, nonces);
  }

  lemma ImportOver(lex: Lexicon, listed: seq<MessageRow>, ss: seq<SummaryRow>, project: string, once: Tables, now: Clocks,
                   messageNonces: Nonces, nonces: nat -> Nonces)
    requires project != "" && forall i :: 0 <= i < |listed| ==> Exportable(listed[i]) && listed[i].ns.project == project
    requires ReadyToImport(ss, project)
    requires Relisted(listed, once.messages) && once.summaries == AppendedSummaries(ss)
    ensures Imported(lex, once, PLAIN, Bundle(project, ExportMessages(listed), ExportSummaries(ss)), None, now, messageNonces, nonces)
         == once.(sequence := CountedTo(once, PLAIN, |listed|))
  {
    ExportedFlattens(listed, project, now.messages);
    ReinsertedMessages(lex, listed, once, messageNonces);
    assert ss[..|ss|] == ss;
    UpsertsAgain(once.(sequence := CountedTo(once, PLAIN, |listed|)), ss, |ss|, project, now.summaries, nonces);
  }
}
