/** Where an imported bundle lands: the project given to the import, else the bundle's own, else "default" (sync_service.py). */
module BundleMoves {
  import opened Basics
  import opened Sorting
  import opened Crypto
  import opened Tokenizer
  import opened Rows
  import opened Inserts
  import opened Fields
  import opened Simulation
  import opened Batches
  import opened Bundle

  /** The project an import writes to: an empty name counts as none. */
  predicate GoesTo(own: string, override: Option<string>, target: string) {
    if override.Some? && override.value != "" then target == override.value
    else if own != "" then target == own
    else target == "default"
  }

  // ----- every import -----

  lemma {:induction false} FlattenedBelong(ms: seq<BundleMessage>, project: string, now: Clock)
    ensures forall r :: r in Flattened(ms, project, now) ==> r.ns.project == project
  {
    if ms != [] {
      FlattenedBelong(ms[..|ms| - 1], project, now);
    }
  }

  predicate RowsOf(rows: seq<MessageRow>, project: string) {
    forall i :: 0 <= i < |rows| ==> rows[i].ns.project == project
  }

  lemma RecordBelongs(lex: Lexicon, db: Tables, s: Session, r: Record, nonces: Nonces, n: nat)
    requires n <= |db.messages| && RowsOf(db.messages[n..], r.ns.project)
    ensures var ms := InsertRecord(lex, db, s, r, nonces).messages; db.messages <= ms && RowsOf(ms[n..], r.ns.project)
  {
    if !Skips(db, s, r, nonces) {
      var m := StoredMessage(s, NextId(db, s), r, nonces);
      assert (db.messages + [m])[n..] == db.messages[n..] + [m];
    }
  }

  lemma {:induction false} BatchBelongs(lex: Lexicon, db: Tables, s: Session, rs: seq<Record>, nonces: Nonces, project: string)
    requires forall r :: r in rs ==> r.ns.project == project
    ensures var ms := InsertBatch(lex, db, s, rs, nonces).messages;
            db.messages <= ms && RowsOf(ms[|db.messages|..], project)
  {
    if rs != [] {
      BatchBelongs(lex, db, s, rs[..|rs| - 1], nonces, project);
      assert rs[|rs| - 1] in rs;
      RecordBelongs(lex, InsertBatch(lex, db, s, rs[..|rs| - 1], nonces), s, rs[|rs| - 1], nonces, |db.messages|);
    }
  }

  /** Summaries of other projects stay as they are, and every new one belongs to the project. */
  predicate SummariesKept(before: seq<SummaryRow>, after: seq<SummaryRow>, project: string) {
    && |before| <= |after|
    && (forall i :: 0 <= i < |before| ==> after[i] == before[i] || (before[i].key.project == after[i].key.project == project))
    && (forall i :: |before| <= i < |after| ==> after[i].key.project == project)
  }

  lemma {:induction false} UpsertsBelong(db: Tables, s: Session, es: seq<BundleSummary>, project: string, now: Clock, nonces: nat -> Nonces)
    ensures SummariesKept(db.summaries, Upserted(db, s, es, project, now, nonces).summaries, project)
  {
    if es != [] {
      var front := es[..|es| - 1];
      UpsertsBelong(db, s, front, project, now, nonces);
      var rec := ImportSummary(es[|es| - 1], project, now(|es| - 1));
      if rec.Some? {
        UpsertBelongs(Upserted(db, s, front, project, now, nonces), s, rec.value, nonces(|es| - 1), db.summaries);
      }
    }
  }

  lemma UpsertBelongs(db: Tables, s: Session, rec: Summary, nonces: Nonces, before: seq<SummaryRow>)
    requires SummariesKept(before, db.summaries, rec.project)
    ensures SummariesKept(before, Fields.UpsertSummary(db, s, rec, nonces).0.summaries, rec.project)
  {
  }

  /** Whatever the bundle holds and whatever the store held: every message an import adds and every summary it adds or
      changes belongs to the one project it goes to. */
  lemma ImportLands(lex: Lexicon, db: Tables, s: Session, bundle: Bundle, override: Option<string>, target: string, now: Clocks,
                    messageNonces: Nonces, nonces: nat -> Nonces)
    requires GoesTo(bundle.project, override, target)
    ensures var after := Imported(lex, db, s, bundle, override, now, messageNonces, nonces);
            && db.messages <= after.messages && RowsOf(after.messages[|db.messages|..], target)
            && SummariesKept(db.summaries, after.summaries, target)
  {
    var rs := Flattened(bundle.messages, target, now.messages);
    FlattenedBelong(bundle.messages, target, now.messages);
    BatchBelongs(lex, db, s, rs, messageNonces, target);
    InsertsLeaveSummaries(lex, db, s, rs, messageNonces);
    var mid := InsertBatch(lex, db, s, rs, messageNonces);
    UpsertsBelong(mid, s, bundle.summaries, target, now.summaries, nonces);
    UpsertsLeaveMessages(mid, s, bundle.summaries, target, now.summaries, nonces);
  }

  // ----- a project under another name -----

  function Moved(m: MessageRow, project: string): MessageRow {
    m.(ns := m.ns.(project := project))
  }

  function MovedSummary(r: SummaryRow, project: string): SummaryRow {
    r.(key := r.key.(project := project))
  }

  function MovedAll(ms: seq<MessageRow>, project: string): (r: seq<MessageRow>) {
    seq(|ms|, i requires 0 <= i < |ms| => Moved(ms[i], project))
  }

  function MovedSummaries(rs: seq<SummaryRow>, project: string): (r: seq<SummaryRow>) {
    seq(|rs|, i requires 0 <= i < |rs| => MovedSummary(rs[i], project))
  }

  /** A bundle does not say which project its entries are of. */
  lemma ExportForgetsProject(ms: seq<MessageRow>, rs: seq<SummaryRow>, project: string)
    ensures ExportMessages(MovedAll(ms, project)) == ExportMessages(ms)
    ensures ExportSummaries(MovedSummaries(rs, project)) == ExportSummaries(rs)
  {
    forall i | 0 <= i < |ms|
      ensures ExportMessage(MovedAll(ms, project)[i]) == ExportMessage(ms[i])
    {
    }
  }

  lemma MovedApart(listed: seq<MessageRow>, from: string, to: string)
    requires RowsOf(listed, from) && Batches.Apart(AsRecords(listed))
    ensures Batches.Apart(AsRecords(MovedAll(listed, to)))
  {
    forall i, j | 0 <= i < j < |listed|
      ensures !RecordsClash(AsRecord(Moved(listed[i], to)), AsRecord(Moved(listed[j], to)))
    {
      assert !RecordsClash(AsRecords(listed)[i], AsRecords(listed)[j]);
    }
  }

  lemma MovedExportable(listed: seq<MessageRow>, to: string)
    requires forall i :: 0 <= i < |listed| ==> Exportable(listed[i])
    ensures forall i :: 0 <= i < |listed| ==> Exportable(MovedAll(listed, to)[i]) && MovedAll(listed, to)[i].ns.project == to
  {
  }

  /** What comes of a moved listing, row by row. */
  lemma MovedRelisted(listed: seq<MessageRow>, to: string, rows: seq<MessageRow>)
    requires Relisted(MovedAll(listed, to), rows)
    ensures |rows| == |listed| && forall i :: 0 <= i < |listed| ==> Shown(rows[i]) == Shown(Moved(listed[i], to))
  {
    forall i | 0 <= i < |listed|
      ensures Shown(rows[i]) == Shown(Moved(listed[i], to))
    {
      assert rows[i] == MovedAll(listed, to)[i].(id := rows[i].id, fingerprint := None);
    }
  }

  /** A listing of one project, exported and imported under another. */
  lemma MovedListing(lex: Lexicon, before: seq<MessageRow>, project: string, to: string, empty: Tables, now: Clock, nonces: Nonces)
    requires RowsOf(before, project) && Sorted(before, MessageOrder()) && Batches.Apart(AsRecords(before)) && empty.messages == []
    requires forall i :: 0 <= i < |before| ==> Exportable(before[i])
    ensures var after := ListMessages(InsertBatch(lex, empty, PLAIN, Flattened(ExportMessages(before), to, now), nonces).messages, to);
            |after| == |before| && forall i :: 0 <= i < |before| ==> Shown(after[i]) == Shown(Moved(before[i], to))
  {
    var moved := MovedAll(before, to);
    MovedExportable(before, to);
    ExportForgetsProject(before, [], to);
    ExportedFlattens(moved, to, now);
    MovedApart(before, project, to);
    ImportedListing(lex, moved, empty, nonces);
    MovedSorted(before, to);
    var rows := InsertBatch(lex, empty, PLAIN, AsRecords(moved), nonces).messages;
    RelistedMessages(rows, moved, to);
    MovedRelisted(before, to, rows);
  }

  lemma MovedMessages(lex: Lexicon, rows: seq<MessageRow>, project: string, to: string, empty: Tables, now: Clock, nonces: Nonces)
    requires OrderedMessages(rows) && UniqueMessages(rows) && empty.messages == []
    requires forall m :: m in rows && m.ns.project == project ==> Exportable(m)
    ensures var before := ListMessages(rows, project);
            var after := ListMessages(InsertBatch(lex, empty, PLAIN, Flattened(ExportMessages(before), to, now), nonces).messages, to);
            |after| == |before| && forall i :: 0 <= i < |before| ==> Shown(after[i]) == Shown(Moved(before[i], to))
  {
    var before := ListMessages(rows, project);
    ListedMessages(rows, project);
    assert forall i :: 0 <= i < |before| ==> before[i] in before;
    ListedApart(rows, before);
    MovedListing(lex, before, project, to, empty, now, nonces);
  }

  lemma MovedSorted(listed: seq<MessageRow>, to: string)
    requires Sorted(listed, MessageOrder())
    ensures Sorted(MovedAll(listed, to), MessageOrder())
  {
    forall i, j | 0 <= i < j < |listed|
      ensures MessageOrder()(Moved(listed[i], to), Moved(listed[j], to))
    {
      assert MessageOrder()(listed[i], listed[j]);
    }
  }

  lemma MovedSummaryOrder(listed: seq<SummaryRow>, to: string)
    requires Sorted(listed, SummaryOrder())
    ensures Sorted(MovedSummaries(listed, to), SummaryOrder())
  {
    forall i, j | 0 <= i < j < |listed|
      ensures SummaryOrder()(MovedSummary(listed[i], to), MovedSummary(listed[j], to))
    {
      assert SummaryOrder()(listed[i], listed[j]);
    }
  }

  lemma AppendedListing(moved: seq<SummaryRow>, to: string)
    requires Sorted(moved, SummaryOrder()) && ReadyToImport(moved, to)
    ensures ListSummaries(AppendedSummaries(moved), to) == AppendedSummaries(moved)
  {
    AppendedSummaryRows(moved);
    var stored := AppendedSummaries(moved);
    FilterAll(stored, SummariesOf(to));
    forall i, j | 0 <= i < j < |stored|
      ensures SummaryOrder()(stored[i], stored[j])
    {
      assert SummaryOrder()(moved[i], moved[j]);
    }
    SortOfSorted(stored, SummaryOrder());
  }

  lemma MovedSummariesRoundTrip(rows: seq<SummaryRow>, project: string, to: string, empty: Tables, now: Clock, nonces: nat -> Nonces)
    requires OrderedRows(rows) && empty.summaries == []
    requires ReadyToImport(ListSummaries(rows, project), project)
    ensures var before := ListSummaries(rows, project);
            var after := ListSummaries(Upserted(empty, PLAIN, ExportSummaries(before), to, now, nonces).summaries, to);
            |after| == |before| && forall i :: 0 <= i < |before| ==> WithId(after[i], 0) == WithId(MovedSummary(before[i], to), 0)
  {
    var before := ListSummaries(rows, project);
    var moved := MovedSummaries(before, to);
    ListedSummaries(rows, project);
    ExportForgetsProject([], before, to);
    ExportedUpserts(empty, moved, to, now, nonces);
    MovedSummaryOrder(before, to);
    AppendedListing(moved, to);
    AppendedSummaryRows(moved);
  }

  /** The round trip into another project: an exported project, imported into an empty plaintext store under any override,
      is listed in the project it goes to exactly as it was in its own. */
  lemma MovedRoundTrip(lex: Lexicon, db: Tables, project: string, override: Option<string>, to: string, empty: Tables, now: Clocks,
                       messageNonces: Nonces, nonces: nat -> Nonces)
    requires OrderedMessages(db.messages) && UniqueMessages(db.messages) && OrderedRows(db.summaries)
    requires forall m :: m in db.messages && m.ns.project == project ==> Exportable(m)
    requires ReadyToImport(ListSummaries(db.summaries, project), project)
    requires empty.messages == [] && empty.summaries == [] && GoesTo(project, override, to)
    ensures var after := Imported(lex, empty, PLAIN, Export(db, project), override, now, messageNonces, nonces);
            var ms, ms' := ListMessages(db.messages, project), ListMessages(after.messages, to);
            var ss, ss' := ListSummaries(db.summaries, project), ListSummaries(after.summaries, to);
            && |ms'| == |ms| && (forall i :: 0 <= i < |ms| ==> Shown(ms'[i]) == Shown(Moved(ms[i], to)))
            && |ss'| == |ss| && (forall i :: 0 <= i < |ss| ==> WithId(ss'[i], 0) == WithId(MovedSummary(ss[i], to), 0))
  {
    var bundle := Export(db, project);
    var rs := Flattened(bundle.messages, to, now.messages);
    var mid := InsertBatch(lex, empty, PLAIN, rs, messageNonces);
    MovedMessages(lex, db.messages, project, to, empty, now.messages, messageNonces);
    InsertsLeaveSummaries(lex, empty, PLAIN, rs, messageNonces);
    MovedSummariesRoundTrip(db.summaries, project, to, mid, now.summaries, nonces);
    UpsertsLeaveMessages(mid, PLAIN, bundle.summaries, to, now.summaries, nonces);
  }

  lemma StaysUnderItsName(ms: seq<MessageRow>, rs: seq<SummaryRow>, project: string)
    requires RowsOf(ms, project) && forall i :: 0 <= i < |rs| ==> rs[i].key.project == project
    ensures forall i :: 0 <= i < |ms| ==> Moved(ms[i], project) == ms[i]
    ensures forall i :: 0 <= i < |rs| ==> MovedSummary(rs[i], project) == rs[i]
  {
  }

  /** The bundle round trip: a project whose rows are unique and have no empty field, exported and imported into an empty
      plaintext store, is listed there as it was, messages and summaries. */
  lemma BundleRoundTrip(lex: Lexicon, db: Tables, project: string, empty: Tables, now: Clocks, messageNonces: Nonces, nonces: nat -> Nonces)
    requires OrderedMessages(db.messages) && UniqueMessages(db.messages) && OrderedRows(db.summaries) && project != ""
    requires forall m :: m in db.messages && m.ns.project == project ==> Exportable(m)
    requires ReadyToImport(ListSummaries(db.summaries, project), project)
    requires empty.messages == [] && empty.summaries == []
    ensures var after := Imported(lex, empty, PLAIN, Export(db, project), None, now, messageNonces, nonces);
            var ms, ms' := ListMessages(db.messages, project), ListMessages(after.messages, project);
            var ss, ss' := ListSummaries(db.summaries, project), ListSummaries(after.summaries, project);
            && |ms'| == |ms| && (forall i :: 0 <= i < |ms| ==> Shown(ms'[i]) == Shown(ms[i]))
            && |ss'| == |ss| && (forall i :: 0 <= i < |ss| ==> WithId(ss'[i], 0) == WithId(ss[i], 0))
  {
    var ms, ss := ListMessages(db.messages, project), ListSummaries(db.summaries, project);
    ListedMessages(db.messages, project);
    assert forall i :: 0 <= i < |ms| ==> ms[i] in ms;
    StaysUnderItsName(ms, ss, project);
    MovedRoundTrip(lex, db, project, None, project, empty, now, messageNonces, nonces);
  }
}
