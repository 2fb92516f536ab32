/** Listing messages and summaries of a project and exporting it, as read from the stored rows
    (storage.py, sync_service.py). */
module Listings {
  import opened Basics
  import opened Sorting
  import opened Crypto
  import opened Rows
  import opened Inserts
  import opened Simulation
  import opened Bundle

  /** Every row read in turn, or the first error. */
  function ReadAll<T, U>(rows: seq<T>, read: T -> Result<U, CryptoError>): Result<seq<U>, CryptoError> {
    if rows == [] then Ok([])
    else match read(rows[0])
      case Err(e) => Err(e)
      case Ok(first) =>
        match ReadAll(rows[1..], read)
        case Err(e) => Err(e)
        case Ok(rest) => Ok([first] + rest)
  }

  function MessageReader(ctx: Option<Context>): MessageRow -> Result<MessageRow, CryptoError> {
    (m: MessageRow) => ReadMessage(ctx, m)
  }

  function ReadSummary(ctx: Option<Context>, r: SummaryRow): Result<SummaryRow, CryptoError> {
    match ReadText(ctx, r.body, SummaryText, r.id)
    case Err(e) => Err(e)
    case Ok(text) => Ok(r.(body := text))
  }

  function SummaryReader(ctx: Option<Context>): SummaryRow -> Result<SummaryRow, CryptoError> {
    (r: SummaryRow) => ReadSummary(ctx, r)
  }

  /** list_messages: selected and ordered by the columns in the clear, then read. */
  function MessagesOf(db: Tables, s: Session, project: string): Result<seq<MessageRow>, CryptoError> {
    ReadAll(ListMessages(db.messages, project), MessageReader(s.ctx))
  }

  /** list_summaries. */
  function SummariesRead(db: Tables, s: Session, project: string): Result<seq<SummaryRow>, CryptoError> {
    ReadAll(ListSummaries(db.summaries, project), SummaryReader(s.ctx))
  }

  /** export_bundle from the stored rows. */
  function ExportStored(db: Tables, s: Session, project: string): Result<Bundle, CryptoError> {
    match MessagesOf(db, s, project)
    case Err(e) => Err(e)
    case Ok(ms) =>
      match SummariesRead(db, s, project)
      case Err(e) => Err(e)
      case Ok(ss) => Ok(BundleOf(project, ms, ss))
  }

  // ----- sorting commutes with reading -----

  lemma {:induction false} ReadAllIs<T, U>(rows: seq<T>, out: seq<U>, read: T -> Result<U, CryptoError>)
    requires |out| == |rows| && forall i :: 0 <= i < |rows| ==> read(rows[i]) == Ok(out[i])
    ensures ReadAll(rows, read) == Ok(out)
  {
    if rows != [] {
      ReadAllIs(rows[1..], out[1..], read);
      assert out == [out[0]] + out[1..];
    }
  }

  function MessageOpener(ctx: Option<Context>): MessageRow -> MessageRow {
    (m: MessageRow) => OpenMessage(ctx, m)
  }

  function SummaryOpener(ctx: Option<Context>): SummaryRow -> SummaryRow {
    (r: SummaryRow) => OpenRow(ctx, r, SummaryText)
  }

  lemma OpenedMessageReads(db: Tables, ctx: Option<Context>, m: MessageRow)
    requires Protected(db, ctx) && m in db.messages
    ensures ReadMessage(ctx, m) == Ok(OpenMessage(ctx, m))
  {
    var i :| 0 <= i < |db.messages| && db.messages[i] == m;
    ReadMessageOpens(db, ctx, i);
  }

  lemma OpenedSummaryReads(db: Tables, ctx: Option<Context>, r: SummaryRow)
    requires Protected(db, ctx) && r in db.summaries
    ensures ReadSummary(ctx, r) == Ok(OpenRow(ctx, r, SummaryText))
  {
    var i :| 0 <= i < |db.summaries| && db.summaries[i] == r;
    ReadsOpen(ctx, r.body, SummaryText, r.id);
  }

  /** The listing of a project is the listing of its plaintext, read from sealed rows or not. */
  lemma MessagesOfRefines(db: Tables, ctx: Option<Context>, project: string)
    requires Protected(db, ctx)
    ensures MessagesOf(db, SessionOf(db, ctx), project) == Ok(ListMessages(Plain(db, ctx).messages, project))
  {
    var f, h := OfProject(project), MessageOpener(ctx);
    var plain := Plain(db, ctx).messages;
    FilterImage(db.messages, f, plain, f, h);
    SortImage(Filter(db.messages, f), Filter(plain, f), MessageOrder(), MessageOrder(), h);
    var listed, out := ListMessages(db.messages, project), ListMessages(plain, project);
    SortMembers(Filter(db.messages, f), MessageOrder());
    forall i | 0 <= i < |listed|
      ensures MessageReader(ctx)(listed[i]) == Ok(out[i])
    {
      assert listed[i] in db.messages;
      OpenedMessageReads(db, ctx, listed[i]);
    }
    ReadAllIs(listed, out, MessageReader(ctx));
  }

  lemma SummariesReadRefines(db: Tables, ctx: Option<Context>, project: string)
    requires Protected(db, ctx)
    ensures SummariesRead(db, SessionOf(db, ctx), project) == Ok(ListSummaries(Plain(db, ctx).summaries, project))
  {
    var f, h := SummariesOf(project), SummaryOpener(ctx);
    var plain := Plain(db, ctx).summaries;
    FilterImage(db.summaries, f, plain, f, h);
    SortImage(Filter(db.summaries, f), Filter(plain, f), SummaryOrder(), SummaryOrder(), h);
    var listed, out := ListSummaries(db.summaries, project), ListSummaries(plain, project);
    SortMembers(Filter(db.summaries, f), SummaryOrder());
    forall i | 0 <= i < |listed|
      ensures SummaryReader(ctx)(listed[i]) == Ok(out[i])
    {
      assert listed[i] in db.summaries;
      OpenedSummaryReads(db, ctx, listed[i]);
    }
    ReadAllIs(listed, out, SummaryReader(ctx));
  }

  /** What is exported from an encrypted database is what its plaintext would export, in the clear. */
  lemma ExportRefines(db: Tables, ctx: Option<Context>, project: string)
    requires Protected(db, ctx)
    ensures ExportStored(db, SessionOf(db, ctx), project) == Ok(Export(Plain(db, ctx), project))
  {
    MessagesOfRefines(db, ctx, project);
    SummariesReadRefines(db, ctx, project);
  }

  // ----- sealed bundle files -----

  /** A bundle file: the payload itself, or its JSON text sealed for the project. */
  datatype BundleFile = PlainFile(bundle: Bundle) | SealedFile(aadProject: string, payload: Text)

  datatype FileError = NeedsKey | Crypto(error: CryptoError) | NotABundle

  /** JSON text of a bundle and back. */
  datatype Json = Json(dump: Bundle -> Text, load: Text -> Option<Bundle>)

  ghost predicate RoundTrips(json: Json) {
    forall b :: json.load(json.dump(b)) == Some(b)
  }

  /** export_bundle: sealed under the key of an encrypted store unless plaintext is asked for. */
  function ExportFile(db: Tables, s: Session, project: string, allowPlaintext: bool, json: Json, nonce: nat): Result<BundleFile, CryptoError> {
    match ExportStored(db, s, project)
    case Err(e) => Err(e)
    case Ok(b) =>
      if s.ctx.Some? && !allowPlaintext then Ok(SealedFile(project, EncryptPortable(s.ctx.value, json.dump(b), "bundle", project, nonce)))
      else Ok(PlainFile(b))
  }

  /** The payload import_bundle_with_report works on. */
  function OpenFile(file: BundleFile, s: Session, json: Json): Result<Bundle, FileError> {
    match file
    case PlainFile(b) => Ok(b)
    case SealedFile(aadProject, payload) =>
      if s.ctx.None? then Err(NeedsKey)
      else match DecryptPortable(s.ctx.value, payload, "bundle", Or(Some(aadProject), "default"))
        case Err(e) => Err(Crypto(e))
        case Ok(text) => match json.load(text) case None => Err(NotABundle) case Some(b) => Ok(b)
  }

  lemma ProjectIsBound(project: string)
    ensures PortableAad("bundle", project) == PortableAad("bundle", Or(Some(project), "default")) <==> project != ""
  {
    if project == "" {
      var head := "memorymesh-portable" + ['|'];
      if PortableAad("bundle", "") == PortableAad("bundle", "default") {
        PrefixCancel(head, "v1" + ['|'] + ("bundle" + ['|'] + ""), "v1" + ['|'] + ("bundle" + ['|'] + "default"));
        PrefixCancel("v1" + ['|'], "bundle" + ['|'] + "", "bundle" + ['|'] + "default");
        PrefixCancel("bundle" + ['|'], "", "default");
      }
    }
  }

  /** A bundle exported from an encrypted store opens, as the plaintext bundle of the project, exactly for a
      store under the same master key and for a project with a name: the empty name is sealed as it is and
      opened as "default". Without a key, or under another one, it opens to nothing. */
  lemma SealedFileOpensExactly(db: Tables, c: Context, project: string, json: Json, nonce: nat, reader: Session)
    requires Protected(db, Some(c)) && RoundTrips(json)
    ensures var file := ExportFile(db, SessionOf(db, Some(c)), project, false, json, nonce);
            && file.Ok? && file.value.SealedFile?
            && OpenFile(file.value, reader, json) ==
                 if reader.ctx.None? then Err(NeedsKey)
                 else if reader.ctx.value.master == c.master && project != "" then Ok(Export(Plain(db, Some(c)), project))
                 else Err(Crypto(if reader.ctx.value.master.id16 != c.master.id16 then WrongKey else Tamper))
  {
    ExportRefines(db, Some(c), project);
    ProjectIsBound(project);
  }

  /** Unsealed exports say what the plaintext store would say and open for everybody. */
  lemma PlainFileOpens(db: Tables, ctx: Option<Context>, project: string, json: Json, nonce: nat, reader: Session)
    requires Protected(db, ctx)
    ensures var file := ExportFile(db, SessionOf(db, ctx), project, true, json, nonce);
            file.Ok? && OpenFile(file.value, reader, json) == Ok(Export(Plain(db, ctx), project))
  {
    ExportRefines(db, ctx, project);
  }
}
