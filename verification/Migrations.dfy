/** The schema migration engine (migrations.py). */
module Migrations {
  import opened Basics
  import opened Crypto
  import opened Tokenizer
  import opened Rows
  import opened Lifecycle
  import opened SearchIndex
  import opened Store

  /** The name recorded beside a version. */
  datatype Name =
    | BaselinePlatformSchema | MessageSourceKey | MessageTermsIndex | EncryptionSecurityMetadata
    | ProjectHttpTokens | ApiPullState | ChatCatalog | UnknownName(text: string)

  datatype Table =
    | MemoryMessages | MemorySummaries | MemoryEmbeddings | AgentStateTable | SchemaMigrations | MemoryMessageTerms
    | EncryptionMeta | ProjectHttpTokensTable | ApiPullStateTable | ChatCatalogTable | Memories | UnknownTable(name: string)

  datatype Column =
    | IdColumn | ProviderColumn | ProjectColumn | ConversationIdColumn | RoleColumn | ContentColumn
    | TimestampColumn | MetadataJsonColumn | SummaryColumn | MethodColumn | CreatedAtColumn
    | MessageIdColumn | EmbeddingJsonColumn | AgentColumn | StateKeyColumn | ValueColumn
    | UpdatedAtColumn | VersionColumn | NameColumn | AppliedAtColumn | SourceKeyColumn | TermColumn
    | EnabledColumn | KeyIdColumn | AlgorithmColumn | EnvelopeVersionColumn | DbIdentityColumn
    | TermsModeColumn | ContentFingerprintColumn | TokenIdColumn | TokenHashColumn | LabelColumn
    | ScopesColumn | ExpiresAtColumn | RevokedAtColumn | LastUsedAtColumn | UrlHashColumn | FormatColumn
    | EtagColumn | LastModifiedColumn | LastSuccessAtColumn | TitleColumn | MessageCountColumn
    | FirstMessageAtColumn | LastMessageAtColumn | EmbeddingColumn
    | UnknownColumn(name: string)

  datatype Index =
    | UxMessagesDedupe | UxEmbeddingsMessage | UxMessagesSourceKey | IxMessageTermsTerm | IxMessagesContentFingerprint
    | IxProjectHttpTokensProject | IxChatCatalogProject | IxChatCatalogProvider | UnknownIndex(name: string)

  const MIGRATIONS: seq<Name> := [
    BaselinePlatformSchema, MessageSourceKey, MessageTermsIndex, EncryptionSecurityMetadata, ProjectHttpTokens, ApiPullState, ChatCatalog]

  const CURRENT_SCHEMA_VERSION: nat := 7

  /** A row of schema_migrations, read in version order. */
  datatype HistoryRow = HistoryRow(version: int, name: Name)

  /** A database file: its schema, its migration history with the mirrored counter, and its rows. */
  datatype Db = Db(
    tables: map<Table, set<Column>>,
    indexes: set<Index>,
    history: seq<HistoryRow>,
    userVersion: int,
    messages: seq<MessageRow>,
    embeddings: seq<EmbeddingRow>,
    summaries: seq<SummaryRow>,
    agents: seq<AgentRow>,
    terms: set<(nat, Token)>,
    meta: Option<Meta>,
    sequence: nat)

  datatype Error =
    | MustStartAtOne | GapsInHistory | UnknownVersion | NameMismatch | NewerThanSupported
    | UnreadableHistory | UnknownSchema | LegacySchema | AlteredSchema | MigrationFailed(version: nat)

  // ----- history -----

  /** The history of a database at version n. */
  function Prefix(n: nat): (rows: seq<HistoryRow>)
    requires n <= CURRENT_SCHEMA_VERSION
    ensures |rows| == n && forall i :: 0 <= i < n ==> rows[i] == HistoryRow(i + 1, MIGRATIONS[i])
  {
    if n == 0 then [] else Prefix(n - 1) + [HistoryRow(n, MIGRATIONS[n - 1])]
  }

  /** The name check of the rows from i on. */
  function CheckNames(rows: seq<HistoryRow>, i: nat): Result<(), Error>
    requires i <= |rows|
    decreases |rows| - i
  {
    if i == |rows| then Ok(())
    else if !(1 <= rows[i].version <= CURRENT_SCHEMA_VERSION) then Err(UnknownVersion)
    else if rows[i].name != MIGRATIONS[rows[i].version - 1] then Err(NameMismatch)
    else CheckNames(rows, i + 1)
  }

  /** _validate_history. */
  function ValidateHistory(rows: seq<HistoryRow>): Result<nat, Error> {
    if rows == [] then Ok(0)
    else if rows[0].version != 1 then Err(MustStartAtOne)
    else if exists i :: 0 <= i < |rows| && rows[i].version != i + 1 then Err(GapsInHistory)
    else if CheckNames(rows, 0).Err? then Err(CheckNames(rows, 0).error)
    else if rows[|rows| - 1].version > CURRENT_SCHEMA_VERSION then Err(NewerThanSupported)
    else Ok(|rows|)
  }

  /** The row the migration list calls for at position k. */
  predicate Expected(row: HistoryRow, k: nat) {
    k < CURRENT_SCHEMA_VERSION && row == HistoryRow(k + 1, MIGRATIONS[k])
  }

  lemma {:induction false} CheckNamesExactly(rows: seq<HistoryRow>, i: nat)
    requires i <= |rows| && forall k :: 0 <= k < |rows| ==> rows[k].version == k + 1
    ensures CheckNames(rows, i).Ok?
       <==> forall k: nat :: i <= k < |rows| ==> Expected(rows[k], k)
    decreases |rows| - i
  {
    if i < |rows| && rows[i].version <= CURRENT_SCHEMA_VERSION && rows[i].name == MIGRATIONS[rows[i].version - 1] {
      CheckNamesExactly(rows, i + 1);
    } else if i < |rows| {
      assert !Expected(rows[i], i);
    }
  }

  /** The validation accepts exactly the prefixes of the migration list. */
  lemma ValidateHistoryExactly(rows: seq<HistoryRow>, n: nat)
    ensures ValidateHistory(rows) == Ok(n) <==> n <= CURRENT_SCHEMA_VERSION && rows == Prefix(n)
  {
    if rows != [] && forall k :: 0 <= k < |rows| ==> rows[k].version == k + 1 {
      CheckNamesExactly(rows, 0);
    }
    if ValidateHistory(rows) == Ok(n) && n > 0 {
      assert rows[n - 1].version == n;
      assert forall k: nat :: k < n ==> Expected(rows[k], k);
      assert rows == Prefix(n);
    }
    if n <= CURRENT_SCHEMA_VERSION && rows == Prefix(n) && n > 0 {
      assert rows[0].version == 1 && rows[n - 1].version == n;
      assert forall k: nat :: k < n ==> Expected(rows[k], k);
    }
  }

  // ----- schema -----

  const MESSAGE_COLUMNS := {IdColumn, ProviderColumn, ProjectColumn, ConversationIdColumn, RoleColumn, ContentColumn, TimestampColumn, MetadataJsonColumn}
  const SUMMARY_COLUMNS := {IdColumn, ProjectColumn, ConversationIdColumn, SummaryColumn, MethodColumn, CreatedAtColumn}
  const EMBEDDING_COLUMNS := {IdColumn, MessageIdColumn, EmbeddingJsonColumn}
  const AGENT_COLUMNS := {IdColumn, ProjectColumn, AgentColumn, StateKeyColumn, ValueColumn, UpdatedAtColumn}
  const HISTORY_COLUMNS := {VersionColumn, NameColumn, AppliedAtColumn}

  /** CREATE TABLE IF NOT EXISTS. */
  function CreateTable(tables: map<Table, set<Column>>, name: Table, columns: set<Column>): map<Table, set<Column>> {
    if name in tables then tables else tables[name := columns]
  }

  function AddColumn(tables: map<Table, set<Column>>, name: Table, column: Column): map<Table, set<Column>> {
    if name in tables then tables[name := tables[name] + {column}] else tables
  }

  predicate IsExactBatch4Baseline(db: Db) {
    && db.tables.Keys == {MemoryMessages, MemorySummaries, MemoryEmbeddings, AgentStateTable}
    && db.tables[MemoryMessages] == MESSAGE_COLUMNS
    && db.tables[MemorySummaries] == SUMMARY_COLUMNS
    && db.tables[MemoryEmbeddings] == EMBEDDING_COLUMNS
    && db.tables[AgentStateTable] == AGENT_COLUMNS
    && UxMessagesDedupe in db.indexes && UxEmbeddingsMessage in db.indexes
  }

  function BaselineDdl(tables: map<Table, set<Column>>): map<Table, set<Column>> {
    CreateTable(CreateTable(CreateTable(CreateTable(CreateTable(tables,
      MemoryMessages, MESSAGE_COLUMNS), MemorySummaries, SUMMARY_COLUMNS), MemoryEmbeddings, EMBEDDING_COLUMNS),
      AgentStateTable, AGENT_COLUMNS), SchemaMigrations, HISTORY_COLUMNS)
  }

  const TERM_COLUMNS := {MessageIdColumn, TermColumn}
  const META_COLUMNS := {IdColumn, EnabledColumn, KeyIdColumn, AlgorithmColumn, EnvelopeVersionColumn, DbIdentityColumn, TermsModeColumn, UpdatedAtColumn}
  const TOKEN_COLUMNS := {TokenIdColumn, ProjectColumn, TokenHashColumn, LabelColumn, ScopesColumn, CreatedAtColumn, ExpiresAtColumn, RevokedAtColumn, LastUsedAtColumn}
  const PULL_COLUMNS := {IdColumn, UrlHashColumn, ProjectColumn, FormatColumn, ProviderColumn, EtagColumn, LastModifiedColumn, LastSuccessAtColumn}
  const CATALOG_COLUMNS := {IdColumn, ProjectColumn, ProviderColumn, ConversationIdColumn, TitleColumn, MessageCountColumn, FirstMessageAtColumn, LastMessageAtColumn, UpdatedAtColumn}

  /** The columns of a table a statement may name: those it has, or those it is created with. */
  function ColumnsOf(db: Db, name: Table, created: set<Column>): set<Column> {
    if name in db.tables then db.tables[name] else created
  }

  /** CREATE INDEX IF NOT EXISTS names its columns only where the index is not there yet. */
  predicate Indexable(db: Db, index: Index, named: set<Column>, columns: set<Column>) {
    index in db.indexes || named <= columns
  }

  /** The history row can be written: whoever made the table gave it the three columns. */
  predicate Recordable(db: Db) {
    HISTORY_COLUMNS <= ColumnsOf(db, SchemaMigrations, HISTORY_COLUMNS)
  }

  /** The backfill finds something to insert. */
  predicate InsertsTerms(lex: Lexicon, db: Db) {
    Backfilled(lex, db.terms, db.messages) != db.terms
  }

  predicate UniqueDedupeKeys(ms: seq<MessageRow>) {
    forall i, j :: 0 <= i < j < |ms| ==> !SameDedupeKey(ms[i], ms[j])
  }

  /** Every statement of the migration finds the tables and columns it names, and every new unique
      index finds its rows unique. */
  predicate Applies(lex: Lexicon, db: Db, version: nat) {
    Recordable(db) &&
    match version
    case 1 =>
      && Indexable(db, UxMessagesDedupe, {ProjectColumn, ProviderColumn, ConversationIdColumn, RoleColumn, ContentColumn, TimestampColumn},
                   ColumnsOf(db, MemoryMessages, MESSAGE_COLUMNS))
      && (UxMessagesDedupe in db.indexes || UniqueDedupeKeys(db.messages))
      && Indexable(db, UxEmbeddingsMessage, {MessageIdColumn}, ColumnsOf(db, MemoryEmbeddings, EMBEDDING_COLUMNS))
      && (UxEmbeddingsMessage in db.indexes || UniqueEmbeddings(db.embeddings))
    case 2 =>
      && MemoryMessages in db.tables
      && Indexable(db, UxMessagesSourceKey, {ProjectColumn, ProviderColumn, ConversationIdColumn}, db.tables[MemoryMessages])
      && (UxMessagesSourceKey in db.indexes || UniqueSourceKeys(db.messages))
    case 3 =>
      && MemoryMessages in db.tables && {IdColumn, ContentColumn} <= db.tables[MemoryMessages]
      && MessageIdColumn in ColumnsOf(db, MemoryMessageTerms, TERM_COLUMNS)
      && Indexable(db, IxMessageTermsTerm, {TermColumn}, ColumnsOf(db, MemoryMessageTerms, TERM_COLUMNS))
      && (InsertsTerms(lex, db) ==> TermColumn in ColumnsOf(db, MemoryMessageTerms, TERM_COLUMNS))
    case 4 =>
      && MemoryMessages in db.tables
      && (if db.meta.None? then META_COLUMNS <= ColumnsOf(db, EncryptionMeta, META_COLUMNS)
          else IdColumn in ColumnsOf(db, EncryptionMeta, META_COLUMNS))
      && Indexable(db, IxMessagesContentFingerprint, {ProjectColumn, ProviderColumn, ConversationIdColumn, RoleColumn}, db.tables[MemoryMessages])
    case 5 => Indexable(db, IxProjectHttpTokensProject, {ProjectColumn}, ColumnsOf(db, ProjectHttpTokensTable, TOKEN_COLUMNS))
    case 6 => true
    case 7 =>
      && Indexable(db, IxChatCatalogProject, {ProjectColumn}, ColumnsOf(db, ChatCatalogTable, CATALOG_COLUMNS))
      && Indexable(db, IxChatCatalogProvider, {ProviderColumn}, ColumnsOf(db, ChatCatalogTable, CATALOG_COLUMNS))
    case _ => false
  }

  /** What the statements of one migration do. */
  function Changed(lex: Lexicon, db: Db, version: nat, identity: string): Db {
    match version
    case 1 => db.(tables := BaselineDdl(db.tables), indexes := db.indexes + {UxMessagesDedupe, UxEmbeddingsMessage})
    case 2 => db.(tables := AddColumn(db.tables, MemoryMessages, SourceKeyColumn), indexes := db.indexes + {UxMessagesSourceKey})
    case 3 => db.(tables := CreateTable(db.tables, MemoryMessageTerms, TERM_COLUMNS), indexes := db.indexes + {IxMessageTermsTerm},
                  terms := Backfilled(lex, db.terms, db.messages))
    case 4 => db.(tables := AddColumn(CreateTable(db.tables, EncryptionMeta, META_COLUMNS), MemoryMessages, ContentFingerprintColumn),
                  indexes := db.indexes + {IxMessagesContentFingerprint},
                  meta := if db.meta.Some? then db.meta else Some(Meta(false, None, identity, PlainTerms)))
    case 5 => db.(tables := CreateTable(db.tables, ProjectHttpTokensTable, TOKEN_COLUMNS), indexes := db.indexes + {IxProjectHttpTokensProject})
    case 6 => db.(tables := CreateTable(db.tables, ApiPullStateTable, PULL_COLUMNS))
    case 7 => db.(tables := CreateTable(db.tables, ChatCatalogTable, CATALOG_COLUMNS),
                  indexes := db.indexes + {IxChatCatalogProject, IxChatCatalogProvider})
    case _ => db
  }

  /** One migration and the right to record it. */
  function ApplyVersion(lex: Lexicon, db: Db, version: nat, identity: string): Option<Db> {
    if Applies(lex, db, version) then Some(Changed(lex, db, version, identity)) else None
  }

  /** The `apply` of every migration of the list. */
  function MigrationApply(lex: Lexicon, identity: string): (Db, nat) -> Option<Db> {
    (db: Db, version: nat) => ApplyVersion(lex, db, version, identity)
  }

  /** Recording a version: the history row and the mirrored counter. */
  function RecordVersion(db: Db, version: nat): Db
    requires 1 <= version <= CURRENT_SCHEMA_VERSION
  {
    db.(tables := CreateTable(db.tables, SchemaMigrations, HISTORY_COLUMNS),
        history := db.history + [HistoryRow(version, MIGRATIONS[version - 1])],
        userVersion := version)
  }

  /** _classify_for_migrate: the version, and whether an unversioned baseline is to be adopted. */
  function Classify(db: Db): Result<(nat, bool), Error> {
    var rows := if SchemaMigrations in db.tables then db.history else [];
    if SchemaMigrations in db.tables && !({VersionColumn, NameColumn} <= db.tables[SchemaMigrations]) then Err(UnreadableHistory)
    else if rows != [] then
      match ValidateHistory(rows)
      case Err(e) => Err(e)
      case Ok(n) => Ok((n, false))
    else if db.tables == map[] then Ok((0, false))
    else if MemoryMessages in db.tables && Memories in db.tables then Err(UnknownSchema)
    else if Memories in db.tables then
      if db.tables.Keys == {Memories} && {ContentColumn, EmbeddingColumn, CreatedAtColumn} <= db.tables[Memories]
      then Err(LegacySchema) else Err(UnknownSchema)
    else if MemoryMessages in db.tables then
      if IsExactBatch4Baseline(db) then Ok((0, true)) else Err(AlteredSchema)
    else Err(UnknownSchema)
  }

  /** The versions first, first + 1, ..., last. */
  function Versions(first: nat, last: int): (vs: seq<nat>)
    requires last >= -1
    ensures |vs| == if last < first then 0 else last - first + 1
    ensures forall i :: 0 <= i < |vs| ==> vs[i] == first + i
  {
    if last < first then [] else Versions(first, last - 1) + [last as nat]
  }

  lemma VersionsCons(first: nat, last: nat)
    requires first <= last
    ensures Versions(first, last) == [first] + Versions(first + 1, last)
  {
  }

  /** Applies and records the versions from `next` on. */
  function ApplyFrom(apply: (Db, nat) -> Option<Db>, db: Db, next: nat): Result<Db, Error>
    requires 1 <= next
    decreases CURRENT_SCHEMA_VERSION + 1 - next
  {
    if next > CURRENT_SCHEMA_VERSION then Ok(db)
    else match apply(db, next)
      case None => Err(MigrationFailed(next))
      case Some(db') => ApplyFrom(apply, RecordVersion(db', next), next + 1)
  }

  datatype Report = Report(fromVersion: nat, toVersion: nat, applied: seq<nat>, adopted: bool, noChange: bool)

  const UP_TO_DATE := Report(CURRENT_SCHEMA_VERSION, CURRENT_SCHEMA_VERSION, [], false, true)

  /** migrate, when nothing interrupts it. */
  function Migrated(apply: (Db, nat) -> Option<Db>, db: Db): Result<(Db, Report), Error> {
    match Classify(db)
    case Err(e) => Err(e)
    case Ok((current, adopt)) =>
      if current == CURRENT_SCHEMA_VERSION && !adopt then Ok((db, Report(current, current, [], false, true)))
      else
        var (start, next) := Begin(db, current, adopt);
        match ApplyFrom(apply, start, next)
        case Err(e) => Err(e)
        case Ok(db') => Ok((db', Report(current, CURRENT_SCHEMA_VERSION, Versions(current + 1, CURRENT_SCHEMA_VERSION), adopt, false)))
  }

  /** migrate(dry_run=True): the versions it reports as pending. */
  function DryRunPending(db: Db): Result<seq<nat>, Error> {
    match Classify(db)
    case Err(e) => Err(e)
    case Ok((current, _)) => Ok(Versions(current + 1, CURRENT_SCHEMA_VERSION))
  }

  // ----- what migrating keeps and establishes -----

  predicate SameRows(a: Db, b: Db) {
    a.messages == b.messages && a.embeddings == b.embeddings && a.summaries == b.summaries && a.agents == b.agents
    && a.sequence == b.sequence
  }

  /** Rows live in their tables, and values in columns that are there. */
  predicate WellFormed(db: Db) {
    && (db.history != [] ==> SchemaMigrations in db.tables && {VersionColumn, NameColumn} <= db.tables[SchemaMigrations])
    && (MemoryMessages !in db.tables ==> db.messages == [])
    && (MemoryEmbeddings !in db.tables ==> db.embeddings == [])
    && (MemoryMessages in db.tables && SourceKeyColumn !in db.tables[MemoryMessages] ==> NoSourceKeys(db.messages))
    && (EncryptionMeta !in db.tables ==> db.meta == None)
    && (MemoryMessageTerms !in db.tables ==> db.terms == {})
  }

  predicate NoSourceKeys(ms: seq<MessageRow>) {
    forall i :: 0 <= i < |ms| ==> ms[i].sourceKey == None
  }

  predicate AtVersion(db: Db, n: nat) {
    n <= CURRENT_SCHEMA_VERSION && db.history == Prefix(n)
  }

  /** The index after the versions from `next` on: version 3 backfills it. */
  function TermsAfter(lex: Lexicon, db: Db, next: nat): set<(nat, Token)> {
    if next <= 3 then Backfilled(lex, db.terms, db.messages) else db.terms
  }

  lemma ApplyKeeps(lex: Lexicon, db: Db, v: nat, identity: string)
    requires ApplyVersion(lex, db, v, identity).Some?
    ensures var db' := ApplyVersion(lex, db, v, identity).value;
            && SameRows(db', db) && db'.history == db.history && Recordable(db')
            && db'.terms == (if v == 3 then Backfilled(lex, db.terms, db.messages) else db.terms)
            && (db.meta.Some? ==> db'.meta == db.meta)
            && (v == 4 && db.meta.None? ==> db'.meta == Some(Meta(false, None, identity, PlainTerms)))
            && (v != 4 ==> db'.meta == db.meta)
  {
  }

  lemma ApplyKeepsWellFormed(lex: Lexicon, db: Db, v: nat, identity: string)
    requires ApplyVersion(lex, db, v, identity).Some? && WellFormed(db)
    ensures WellFormed(ApplyVersion(lex, db, v, identity).value)
  {
    match v {
      case 1 =>
      case 2 =>
      case 3 =>
      case 4 =>
      case _ =>
    }
  }

  lemma RecordAdvances(db: Db, v: nat)
    requires 1 <= v <= CURRENT_SCHEMA_VERSION && db.history == Prefix(v - 1)
    ensures AtVersion(RecordVersion(db, v), v) && RecordVersion(db, v).userVersion == v
    ensures WellFormed(db) && Recordable(db) ==> WellFormed(RecordVersion(db, v)) && Recordable(RecordVersion(db, v))
  {
  }

  lemma {:induction false} ApplyFromKeeps(lex: Lexicon, db: Db, next: nat, identity: string)
    requires 1 <= next <= CURRENT_SCHEMA_VERSION + 1 && AtVersion(db, next - 1)
    ensures ApplyFrom(MigrationApply(lex, identity), db, next).Ok? ==>
              var db' := ApplyFrom(MigrationApply(lex, identity), db, next).value;
              && AtVersion(db', CURRENT_SCHEMA_VERSION) && SameRows(db', db)
              && db'.userVersion == (if next <= CURRENT_SCHEMA_VERSION then CURRENT_SCHEMA_VERSION else db.userVersion)
              && db'.terms == TermsAfter(lex, db, next)
              && (WellFormed(db) ==> WellFormed(db'))
              && (db.meta.Some? || next > 4 ==> db'.meta == db.meta)
              && (db.meta.None? && next <= 4 ==> db'.meta == Some(Meta(false, None, identity, PlainTerms)))
    decreases CURRENT_SCHEMA_VERSION + 1 - next
  {
    if next <= CURRENT_SCHEMA_VERSION && ApplyVersion(lex, db, next, identity).Some? {
      ApplyKeeps(lex, db, next, identity);
      var db' := ApplyVersion(lex, db, next, identity).value;
      if WellFormed(db) {
        ApplyKeepsWellFormed(lex, db, next, identity);
      }
      RecordAdvances(db', next);
      ApplyFromKeeps(lex, RecordVersion(db', next), next + 1, identity);
    }
  }

  /** The versions do not get in each other's way: whether a later one applies was decided before. */
  lemma LaterApplies(lex: Lexicon, db: Db, v: nat, w: nat, identity: string)
    requires 2 <= v < w <= CURRENT_SCHEMA_VERSION && Applies(lex, db, v)
    ensures Applies(lex, RecordVersion(Changed(lex, db, v, identity), v), w) <==> Applies(lex, db, w)
  {
  }

  predicate AllApply(lex: Lexicon, db: Db, next: nat) {
    forall v: nat :: next <= v <= CURRENT_SCHEMA_VERSION ==> Applies(lex, db, v)
  }

  lemma {:induction false} ApplyFromSucceeds(lex: Lexicon, db: Db, next: nat, identity: string)
    requires 2 <= next <= CURRENT_SCHEMA_VERSION + 1
    ensures ApplyFrom(MigrationApply(lex, identity), db, next).Ok? <==> AllApply(lex, db, next)
    decreases CURRENT_SCHEMA_VERSION + 1 - next
  {
    if next <= CURRENT_SCHEMA_VERSION {
      if Applies(lex, db, next) {
        var db' := RecordVersion(Changed(lex, db, next, identity), next);
        ApplyFromSucceeds(lex, db', next + 1, identity);
        forall v: nat | next + 1 <= v <= CURRENT_SCHEMA_VERSION
          ensures Applies(lex, db', v) <==> Applies(lex, db, v)
        {
          LaterApplies(lex, db, next, v, identity);
        }
        assert AllApply(lex, db, next) <==> AllApply(lex, db', next + 1);
      }
    }
  }

  /** A database as version 1 leaves it: the message table complete, nothing of the later versions there. */
  predicate Baseline(db: Db) {
    && MemoryMessages in db.tables && MESSAGE_COLUMNS <= db.tables[MemoryMessages] && Recordable(db) && NoSourceKeys(db.messages)
    && db.tables.Keys !! {MemoryMessageTerms, EncryptionMeta, ProjectHttpTokensTable, ApiPullStateTable, ChatCatalogTable}
  }

  lemma BaselineApplies(lex: Lexicon, db: Db)
    requires Baseline(db)
    ensures AllApply(lex, db, 2)
  {
    forall v: nat | 2 <= v <= CURRENT_SCHEMA_VERSION
      ensures Applies(lex, db, v)
    {
    }
  }

  /** Whatever the classification accepts has the history it reports. */
  lemma ClassifyReports(db: Db)
    requires WellFormed(db) && Classify(db).Ok?
    ensures AtVersion(db, Classify(db).value.0)
    ensures Classify(db).value.1 ==> db.history == [] && IsExactBatch4Baseline(db)
    ensures Classify(db).value.0 == 0 && !Classify(db).value.1 ==> db.tables == map[]
  {
    if db.history != [] {
      ValidateHistoryExactly(db.history, Classify(db).value.0);
    }
  }

  lemma ClassifyVersioned(db: Db, n: nat)
    requires WellFormed(db) && AtVersion(db, n) && n > 0
    ensures Classify(db) == Ok((n, false))
  {
    ValidateHistoryExactly(db.history, n);
  }

  /** What the transaction starts from and the first version it applies. */
  function Begin(db: Db, current: nat, adopt: bool): (Db, nat) {
    if adopt then (RecordVersion(db, 1), 2) else (db, current + 1)
  }

  lemma BeginAdvances(db: Db)
    requires WellFormed(db) && Classify(db).Ok?
    ensures var (current, adopt) := Classify(db).value;
            var (start, next) := Begin(db, current, adopt);
            && 1 <= next <= CURRENT_SCHEMA_VERSION + 1 && AtVersion(start, next - 1) && SameRows(start, db) && WellFormed(start)
            && start.terms == db.terms && start.meta == db.meta && next == (if adopt then 2 else current + 1)
            && (adopt ==> Baseline(start))
  {
    ClassifyReports(db);
    if Classify(db).value.1 {
      RecordAdvances(db, 1);
    }
  }

  lemma FirstVersion(lex: Lexicon, db: Db, identity: string)
    requires WellFormed(db) && db.tables == map[]
    ensures Applies(lex, db, 1) && Baseline(RecordVersion(Changed(lex, db, 1, identity), 1))
  {
  }

  /** An empty file takes every version. */
  lemma FromNothing(lex: Lexicon, db: Db, identity: string)
    requires WellFormed(db) && db.tables == map[]
    ensures ApplyFrom(MigrationApply(lex, identity), db, 1).Ok?
  {
    var one := RecordVersion(Changed(lex, db, 1, identity), 1);
    FirstVersion(lex, db, identity);
    ApplyFromStep(MigrationApply(lex, identity), db, 1);
    BaselineApplies(lex, one);
    ApplyFromSucceeds(lex, one, 2, identity);
  }

  /** A migration succeeds exactly when the file is classified and, where it has a history already,
      every pending version finds its tables and columns and its rows unique. */
  lemma MigrateSucceedsExactly(lex: Lexicon, db: Db, identity: string)
    requires WellFormed(db)
    ensures Migrated(MigrationApply(lex, identity), db).Ok?
       <==> Classify(db).Ok? && (Classify(db).value.0 > 0 ==> AllApply(lex, db, Classify(db).value.0 + 1))
  {
    if Classify(db).Ok? {
      var c := Classify(db).value;
      ClassifyReports(db);
      BeginAdvances(db);
      var b := Begin(db, c.0, c.1);
      if c.1 {
        BaselineApplies(lex, b.0);
        ApplyFromSucceeds(lex, b.0, 2, identity);
      } else if c.0 == 0 {
        FromNothing(lex, db, identity);
      } else {
        ApplyFromSucceeds(lex, db, c.0 + 1, identity);
      }
    }
  }

  /** A file of version 1 whose message table lost its columns is classified and cannot be migrated. */
  lemma AlteredFileFails(lex: Lexicon, db: Db, identity: string)
    requires WellFormed(db) && AtVersion(db, 1) && MemoryMessages in db.tables && db.tables[MemoryMessages] == {}
    requires UxMessagesSourceKey !in db.indexes
    ensures Classify(db) == Ok((1, false)) && Migrated(MigrationApply(lex, identity), db) == Err(MigrationFailed(2))
  {
    ClassifyVersioned(db, 1);
  }

  /** A successful migration starts from a database whose history is the reported version, ends at
      the latest one with the counter in step, keeps every user row and reports exactly the missing
      versions, the ones a dry run calls pending. */
  lemma MigrateCorrect(lex: Lexicon, db: Db, identity: string)
    requires WellFormed(db)
    ensures Migrated(MigrationApply(lex, identity), db).Ok? ==>
              var (db', report) := Migrated(MigrationApply(lex, identity), db).value;
              && AtVersion(db, report.fromVersion) && AtVersion(db', CURRENT_SCHEMA_VERSION) && WellFormed(db')
              && SameRows(db', db)
              && db'.userVersion == (if report.noChange then db.userVersion else CURRENT_SCHEMA_VERSION)
              && report.applied == Versions(report.fromVersion + 1, CURRENT_SCHEMA_VERSION)
              && DryRunPending(db) == Ok(report.applied)
              && (report.noChange <==> report.applied == [])
  {
    if Migrated(MigrationApply(lex, identity), db).Ok? {
      var c := Classify(db).value;
      MigratedState(lex, db, identity, c.0, c.1);
      MigratedReport(lex, db, identity, c.0, c.1);
    }
  }

  lemma MigratedReport(lex: Lexicon, db: Db, identity: string, current: nat, adopt: bool)
    requires WellFormed(db) && Migrated(MigrationApply(lex, identity), db).Ok? && Classify(db) == Ok((current, adopt))
    ensures AtVersion(db, current)
    ensures Migrated(MigrationApply(lex, identity), db).value.1
         == Report(current, CURRENT_SCHEMA_VERSION, Versions(current + 1, CURRENT_SCHEMA_VERSION), adopt, current == CURRENT_SCHEMA_VERSION)
  {
    ClassifyReports(db);
  }

  /** A second run changes nothing. */
  lemma MigrateTwice(lex: Lexicon, db: Db, identity: string, identity': string)
    requires WellFormed(db)
    ensures var once := Migrated(MigrationApply(lex, identity), db);
            once.Ok? ==> Migrated(MigrationApply(lex, identity'), once.value.0) == Ok((once.value.0, UP_TO_DATE))
  {
    var once := Migrated(MigrationApply(lex, identity), db);
    if once.Ok? {
      var c := Classify(db).value;
      MigratedState(lex, db, identity, c.0, c.1);
      ReachedLatest(lex, once.value.0, identity');
    }
  }

  lemma MigratedState(lex: Lexicon, db: Db, identity: string, current: nat, adopt: bool)
    requires WellFormed(db) && Migrated(MigrationApply(lex, identity), db).Ok? && Classify(db) == Ok((current, adopt))
    ensures var db' := Migrated(MigrationApply(lex, identity), db).value.0;
            && AtVersion(db', CURRENT_SCHEMA_VERSION) && WellFormed(db') && SameRows(db', db)
            && db'.userVersion == if current == CURRENT_SCHEMA_VERSION then db.userVersion else CURRENT_SCHEMA_VERSION
  {
    ClassifyReports(db);
    BeginAdvances(db);
    var b := Begin(db, current, adopt);
    ApplyFromKeeps(lex, b.0, b.1, identity);
  }

  lemma ReachedLatest(lex: Lexicon, db: Db, identity: string)
    requires WellFormed(db) && AtVersion(db, CURRENT_SCHEMA_VERSION)
    ensures Migrated(MigrationApply(lex, identity), db) == Ok((db, UP_TO_DATE))
  {
    ClassifyVersioned(db, CURRENT_SCHEMA_VERSION);
  }

  // ----- the index a migration leaves -----

  function Contents(db: Db): Tables
    requires db.meta.Some?
  {
    Tables(db.messages, db.embeddings, db.summaries, db.agents, db.terms, db.meta.value, db.sequence)
  }

  /** A database from before version 3 has no index and no encryption; migrating it leaves the
      exact index of its messages, as if each had been indexed when it was inserted. */
  lemma MigrateIndexes(lex: Lexicon, db: Db, identity: string)
    requires WellFormed(db) && db.terms == {} && db.meta == None
    ensures var r := Migrated(MigrationApply(lex, identity), db);
            r.Ok? && r.value.1.fromVersion < 3 ==>
              r.value.0.meta == Some(Meta(false, None, identity, PlainTerms)) && Indexed(lex, Contents(r.value.0), None)
  {
    var r := Migrated(MigrationApply(lex, identity), db);
    if r.Ok? && r.value.1.fromVersion < 3 {
      var (current, adopt) := Classify(db).value;
      BeginAdvances(db);
      var (start, next) := Begin(db, current, adopt);
      ApplyFromKeeps(lex, start, next, identity);
      BackfillEstablishes(lex, Contents(r.value.0).(terms := {}));
    }
  }

  // ----- adoption -----

  const EMPTY := Db(map[], {}, [], 0, [], [], [], [], {}, None, 0)

  /** The schema of a later version does not depend on rows or on how version 1 was reached. */
  predicate SameSchema(a: Db, b: Db, extra: set<Index>) {
    a.tables == b.tables && a.indexes == b.indexes + extra && a.meta == b.meta
  }

  lemma ApplySameSchema(lex: Lexicon, a: Db, b: Db, extra: set<Index>, v: nat, identity: string)
    requires SameSchema(a, b, extra) && 1 <= v <= CURRENT_SCHEMA_VERSION
    ensures SameSchema(RecordVersion(Changed(lex, a, v, identity), v), RecordVersion(Changed(lex, b, v, identity), v), extra)
  {
  }

  lemma {:induction false} ApplyFromSameSchema(lex: Lexicon, a: Db, b: Db, extra: set<Index>, next: nat, identity: string)
    requires SameSchema(a, b, extra) && 2 <= next && AllApply(lex, a, next) && AllApply(lex, b, next)
    ensures var x, y := ApplyFrom(MigrationApply(lex, identity), a, next), ApplyFrom(MigrationApply(lex, identity), b, next);
            x.Ok? && y.Ok? && SameSchema(x.value, y.value, extra)
    decreases CURRENT_SCHEMA_VERSION + 1 - next
  {
    if next <= CURRENT_SCHEMA_VERSION {
      var a', b' := RecordVersion(Changed(lex, a, next, identity), next), RecordVersion(Changed(lex, b, next, identity), next);
      ApplySameSchema(lex, a, b, extra, next, identity);
      ApplyFromStep(MigrationApply(lex, identity), a, next);
      ApplyFromStep(MigrationApply(lex, identity), b, next);
      forall v: nat | next + 1 <= v <= CURRENT_SCHEMA_VERSION
        ensures Applies(lex, a', v) && Applies(lex, b', v)
      {
        LaterApplies(lex, a, next, v, identity);
        LaterApplies(lex, b, next, v, identity);
      }
      ApplyFromSameSchema(lex, a', b', extra, next + 1, identity);
    }
  }

  /** A fresh file after version 1. */
  function Created(lex: Lexicon, identity: string): Db {
    RecordVersion(Changed(lex, EMPTY, 1, identity), 1)
  }

  lemma CreatedIsBaseline(lex: Lexicon, identity: string)
    ensures Created(lex, identity).tables == BaselineDdl(map[]) && Created(lex, identity).indexes == {UxMessagesDedupe, UxEmbeddingsMessage}
    ensures Created(lex, identity).meta == None && Baseline(Created(lex, identity)) && Applies(lex, EMPTY, 1)
  {
    FirstVersion(lex, EMPTY, identity);
  }

  lemma AdoptedIsBaseline(db: Db)
    requires WellFormed(db) && db.history == [] && IsExactBatch4Baseline(db)
    ensures Classify(db) == Ok((0, true)) && Baseline(RecordVersion(db, 1))
    ensures RecordVersion(db, 1).tables == BaselineDdl(map[]) && RecordVersion(db, 1).meta == None
  {
  }

  lemma AppliedToBoth(lex: Lexicon, db: Db, identity: string)
    requires WellFormed(db) && db.history == [] && IsExactBatch4Baseline(db)
    ensures var x, y := ApplyFrom(MigrationApply(lex, identity), RecordVersion(db, 1), 2),
                        ApplyFrom(MigrationApply(lex, identity), Created(lex, identity), 2);
            x.Ok? && y.Ok? && SameSchema(x.value, y.value, db.indexes)
  {
    var adopted, created := RecordVersion(db, 1), Created(lex, identity);
    AdoptedIsBaseline(db);
    CreatedIsBaseline(lex, identity);
    assert adopted.indexes == created.indexes + db.indexes;
    BaselineApplies(lex, adopted);
    BaselineApplies(lex, created);
    ApplyFromSameSchema(lex, adopted, created, db.indexes, 2, identity);
  }

  /** Creating a database from nothing always succeeds. */
  lemma FreshMigrates(lex: Lexicon, identity: string)
    ensures Migrated(MigrationApply(lex, identity), EMPTY).Ok?
    ensures Migrated(MigrationApply(lex, identity), EMPTY).value.1 == Report(0, CURRENT_SCHEMA_VERSION, Versions(1, CURRENT_SCHEMA_VERSION), false, false)
  {
    FromNothing(lex, EMPTY, identity);
  }

  /** An adopted unversioned baseline ends with the schema of a fresh database; indexes it already
      had stay. Adoption cannot fail. */
  lemma AdoptionReachesFreshSchema(lex: Lexicon, db: Db, identity: string)
    requires WellFormed(db) && db.history == [] && IsExactBatch4Baseline(db)
    ensures Migrated(MigrationApply(lex, identity), db).Ok? && Migrated(MigrationApply(lex, identity), db).value.1.adopted
    ensures var created := Migrated(MigrationApply(lex, identity), EMPTY);
            created.Ok? && SameSchema(Migrated(MigrationApply(lex, identity), db).value.0, created.value.0, db.indexes)
  {
    var apply := MigrationApply(lex, identity);
    AdoptedIsBaseline(db);
    MigratedBy(apply, db, 0, true, RecordVersion(db, 1), 2);
    CreatedIsBaseline(lex, identity);
    MigratedBy(apply, EMPTY, 0, false, EMPTY, 1);
    ApplyFromStep(apply, EMPTY, 1);
    AppliedToBoth(lex, db, identity);
  }

  // ----- the engine at work -----

  lemma MigratedBy(apply: (Db, nat) -> Option<Db>, db: Db, current: nat, adopt: bool, start: Db, next: nat)
    requires Classify(db) == Ok((current, adopt)) && !(current == CURRENT_SCHEMA_VERSION && !adopt)
    requires Begin(db, current, adopt) == (start, next) && next >= 1
    ensures var r := ApplyFrom(apply, start, next);
            Migrated(apply, db) ==
              if r.Ok? then Ok((r.value, Report(current, CURRENT_SCHEMA_VERSION, Versions(current + 1, CURRENT_SCHEMA_VERSION), adopt, false)))
              else Err(r.error)
  {
  }

  lemma ApplyFromStep(apply: (Db, nat) -> Option<Db>, db: Db, next: nat)
    requires 1 <= next <= CURRENT_SCHEMA_VERSION
    ensures ApplyFrom(apply, db, next) ==
              match apply(db, next)
              case None => Err(MigrationFailed(next))
              case Some(changed) => ApplyFrom(apply, RecordVersion(changed, next), next + 1)
  {
  }

  /** An open database file. The migrations work on `db` inside one write transaction. */
  class MigrationFile {
    const apply: (Db, nat) -> Option<Db>
    var db: Db

    constructor (db: Db, apply: (Db, nat) -> Option<Db>)
      ensures this.db == db && this.apply == apply
    {
      this.db, this.apply := db, apply;
    }

    /** The loop over the pending migrations. `fault` is the version whose application breaks. */
    method ApplyPending(first: nat, fault: Option<nat>) returns (r: Result<seq<nat>, Error>)
      requires 1 <= first <= CURRENT_SCHEMA_VERSION + 1
      modifies this
      ensures r.Ok? ==> ApplyFrom(apply, old(db), first) == Ok(db) && r.value == Versions(first, CURRENT_SCHEMA_VERSION)
      ensures fault.None? && r.Err? ==> ApplyFrom(apply, old(db), first) == Err(r.error)
    {
      ghost var whole := ApplyFrom(apply, db, first);
      var applied: seq<nat> := [];
      var next := first;
      while next <= CURRENT_SCHEMA_VERSION
        invariant first <= next <= CURRENT_SCHEMA_VERSION + 1
        invariant applied == Versions(first, next - 1)
        invariant ApplyFrom(apply, db, next) == whole
      {
        ApplyFromStep(apply, db, next);
        var changed := apply(db, next);
        if changed.None? || FailsAt(fault, next) {
          return Err(MigrationFailed(next));
        }
        db := RecordVersion(changed.value, next);
        applied := applied + [next];
        next := next + 1;
      }
      return Ok(applied);
    }

    /** migrate, as one write transaction; a fault one past the last version hits the commit. */
    method Migrate(fault: Option<nat>) returns (r: Result<Report, Error>)
      modifies this
      ensures r.Ok? ==> Migrated(apply, old(db)) == Ok((db, r.value))
      ensures r.Err? ==> db == old(db)
      ensures fault.None? && r.Err? ==> Migrated(apply, old(db)) == Err(r.error)
    {
      var classified := Classify(db);
      if classified.Err? {
        return Err(classified.error);
      }
      var from := classified.value.0;
      var adopt := classified.value.1;
      if from == CURRENT_SCHEMA_VERSION && !adopt {
        return Ok(Report(from, from, [], false, true));
      }
      var snapshot := db;
      var adopted: seq<nat> := [];
      var next := from + 1;
      if adopt {
        db := RecordVersion(db, 1);
        adopted := [1];
        next := 2;
      }
      MigratedBy(apply, snapshot, from, adopt, db, next);
      var applied := ApplyPending(next, fault);
      if applied.Err? || FailsAt(fault, CURRENT_SCHEMA_VERSION + 1) {
        db := snapshot;
        return Err(if applied.Err? then applied.error else MigrationFailed(CURRENT_SCHEMA_VERSION + 1));
      }
      assert adopted + applied.value == Versions(from + 1, CURRENT_SCHEMA_VERSION) by {
        if adopt {
          VersionsCons(1, CURRENT_SCHEMA_VERSION);
        }
      }
      return Ok(Report(from, CURRENT_SCHEMA_VERSION, adopted + applied.value, adopt, false));
    }
  }
}
