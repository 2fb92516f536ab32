/** The schema and the rows a migration leaves: what each version brings, and which keys hold after it (migrations.py). */
module Schemas {
  import opened Basics
  import opened Tokenizer
  import opened Rows
  import opened Lifecycle
  import opened Migrations

  // ----- what each version brings -----

  /** The version that creates a table; 0 for tables no version creates. */
  function BroughtBy(t: Table): nat {
    match t
    case MemoryMessages => 1
    case MemorySummaries => 1
    case MemoryEmbeddings => 1
    case AgentStateTable => 1
    case SchemaMigrations => 1
    case MemoryMessageTerms => 3
    case EncryptionMeta => 4
    case ProjectHttpTokensTable => 5
    case ApiPullStateTable => 6
    case ChatCatalogTable => 7
    case _ => 0
  }

  /** The columns a table is created with. */
  function CreatedWith(t: Table): set<Column> {
    match t
    case MemoryMessages =>
      {IdColumn, ProviderColumn, ProjectColumn, ConversationIdColumn, RoleColumn, ContentColumn, TimestampColumn, MetadataJsonColumn}
    case MemorySummaries => {IdColumn, ProjectColumn, ConversationIdColumn, SummaryColumn, MethodColumn, CreatedAtColumn}
    case MemoryEmbeddings => {IdColumn, MessageIdColumn, EmbeddingJsonColumn}
    case AgentStateTable => {IdColumn, ProjectColumn, AgentColumn, StateKeyColumn, ValueColumn, UpdatedAtColumn}
    case SchemaMigrations => {VersionColumn, NameColumn, AppliedAtColumn}
    case MemoryMessageTerms => {MessageIdColumn, TermColumn}
    case EncryptionMeta =>
      {IdColumn, EnabledColumn, KeyIdColumn, AlgorithmColumn, EnvelopeVersionColumn, DbIdentityColumn, TermsModeColumn, UpdatedAtColumn}
    case ProjectHttpTokensTable =>
      {TokenIdColumn, ProjectColumn, TokenHashColumn, LabelColumn, ScopesColumn, CreatedAtColumn, ExpiresAtColumn, RevokedAtColumn,
       LastUsedAtColumn}
    case ApiPullStateTable =>
      {IdColumn, UrlHashColumn, ProjectColumn, FormatColumn, ProviderColumn, EtagColumn, LastModifiedColumn, LastSuccessAtColumn}
    case ChatCatalogTable =>
      {IdColumn, ProjectColumn, ProviderColumn, ConversationIdColumn, TitleColumn, MessageCountColumn, FirstMessageAtColumn,
       LastMessageAtColumn, UpdatedAtColumn}
    case _ => {}
  }

  /** The columns versions after `from` add to the message table. */
  function AddedAfter(t: Table, from: nat): set<Column> {
    if t != MemoryMessages then {}
    else (if from < 2 then {SourceKeyColumn} else {}) + (if from < 4 then {ContentFingerprintColumn} else {})
  }

  /** The version that creates an index; 0 for indexes no version creates. */
  function IndexedBy(i: Index): nat {
    match i
    case UxMessagesDedupe => 1
    case UxEmbeddingsMessage => 1
    case UxMessagesSourceKey => 2
    case IxMessageTermsTerm => 3
    case IxMessagesContentFingerprint => 4
    case IxProjectHttpTokensProject => 5
    case IxChatCatalogProject => 7
    case IxChatCatalogProvider => 7
    case UnknownIndex(_) => 0
  }

  /** After is before with the tables, columns and indexes of versions from + 1 to `to` and nothing else: a table that was
      there keeps its columns, one that was not has those it is created with, and added columns are added to either. */
  ghost predicate Upgraded(before: Db, after: Db, from: nat, to: nat) {
    && (forall t :: t in after.tables <==> t in before.tables || from < BroughtBy(t) <= to)
    && (forall t :: t in after.tables ==>
          after.tables[t] == (if t in before.tables then before.tables[t] else CreatedWith(t)) + (AddedAfter(t, from) - AddedAfter(t, to)))
    && (forall i :: i in after.indexes <==> i in before.indexes || from < IndexedBy(i) <= to)
  }

  /** The named tables are there, the others as they were. */
  ghost predicate Grown(before: map<Table, set<Column>>, after: map<Table, set<Column>>, names: set<Table>) {
    && after.Keys == before.Keys + names
    && (forall t :: t in after ==> after[t] == if t in before then before[t] else CreatedWith(t))
  }

  lemma GrowOne(before: map<Table, set<Column>>, mid: map<Table, set<Column>>, names: set<Table>, t: Table, columns: set<Column>,
                after: map<Table, set<Column>>, names': set<Table>)
    requires Grown(before, mid, names) && columns == CreatedWith(t)
    requires after == CreateTable(mid, t, columns) && names' == names + {t}
    ensures Grown(before, after, names')
  {
  }

  const BASELINE := {MemoryMessages, MemorySummaries, MemoryEmbeddings, AgentStateTable, SchemaMigrations}

  lemma BaselineGrows(tables: map<Table, set<Column>>)
    ensures Grown(tables, BaselineDdl(tables), BASELINE)
  {
    var a := CreateTable(tables, MemoryMessages, MESSAGE_COLUMNS);
    var b := CreateTable(a, MemorySummaries, SUMMARY_COLUMNS);
    var c := CreateTable(b, MemoryEmbeddings, EMBEDDING_COLUMNS);
    var d := CreateTable(c, AgentStateTable, AGENT_COLUMNS);
    var a', b', c' := {MemoryMessages}, {MemoryMessages, MemorySummaries}, {MemoryMessages, MemorySummaries, MemoryEmbeddings};
    assert Grown(tables, tables, {});
    GrowOne(tables, tables, {}, MemoryMessages, MESSAGE_COLUMNS, a, a');
    GrowOne(tables, a, a', MemorySummaries, SUMMARY_COLUMNS, b, b');
    GrowOne(tables, b, b', MemoryEmbeddings, EMBEDDING_COLUMNS, c, c');
    var d' := c' + {AgentStateTable};
    GrowOne(tables, c, c', AgentStateTable, AGENT_COLUMNS, d, d');
    GrowOne(tables, d, d', SchemaMigrations, HISTORY_COLUMNS, BaselineDdl(tables), BASELINE);
  }

  /** Creating all the tables of a version that alters none, and its indexes. */
  lemma GrownIsUpgraded(before: Db, after: Db, v: nat, names: set<Table>)
    requires 1 <= v && v !in {2, 4} && Grown(before.tables, after.tables, names)
    requires forall t :: t in names <==> BroughtBy(t) == v
    requires forall i :: i in after.indexes <==> i in before.indexes || IndexedBy(i) == v
    ensures Upgraded(before, after, v - 1, v)
  {
    assert forall t :: AddedAfter(t, v - 1) == AddedAfter(t, v);
  }

  lemma RecordKeepsTables(db: Db, v: nat)
    requires 1 <= v <= CURRENT_SCHEMA_VERSION && SchemaMigrations in db.tables
    ensures RecordVersion(db, v).tables == db.tables && RecordVersion(db, v).indexes == db.indexes
  {
  }

  lemma FirstChanges(db: Db, changed: Db)
    requires changed.tables == BaselineDdl(db.tables) && changed.indexes == db.indexes + {UxMessagesDedupe, UxEmbeddingsMessage}
    ensures Upgraded(db, RecordVersion(changed, 1), 0, 1)
  {
    BaselineGrows(db.tables);
    RecordKeepsTables(changed, 1);
    GrownIsUpgraded(db, RecordVersion(changed, 1), 1, BASELINE);
  }

  lemma FirstBrings(lex: Lexicon, db: Db, identity: string)
    ensures Upgraded(db, RecordVersion(Changed(lex, db, 1, identity), 1), 0, 1)
  {
    FirstChanges(db, Changed(lex, db, 1, identity));
  }

  /** The versions that alter the message table. */
  lemma AlteringBrings(lex: Lexicon, db: Db, v: nat, identity: string)
    requires v in {2, 4} && MemoryMessages in db.tables && SchemaMigrations in db.tables
    ensures Upgraded(db, RecordVersion(Changed(lex, db, v, identity), v), v - 1, v)
  {
    if v == 2 {
    } else {
    }
  }

  /** A version that only creates: one table and its indexes. */
  lemma CreatingBrings(db: Db, after: Db, v: nat, t: Table, columns: set<Column>)
    requires v in {3, 5, 6, 7} && after.tables == CreateTable(db.tables, t, columns) && columns == CreatedWith(t)
    requires forall t' :: BroughtBy(t') == v <==> t' == t
    requires forall i :: i in after.indexes <==> i in db.indexes || IndexedBy(i) == v
    ensures Upgraded(db, after, v - 1, v)
  {
    assert Grown(db.tables, db.tables, {});
    GrowOne(db.tables, db.tables, {}, t, columns, after.tables, {t});
    GrownIsUpgraded(db, after, v, {t});
  }

  /** One version, applied and recorded, brings what it should. */
  lemma VersionBrings(lex: Lexicon, db: Db, v: nat, identity: string)
    requires 1 <= v <= CURRENT_SCHEMA_VERSION && Applies(lex, db, v) && (v > 1 ==> SchemaMigrations in db.tables)
    ensures Upgraded(db, RecordVersion(Changed(lex, db, v, identity), v), v - 1, v)
  {
    if v == 1 {
      FirstBrings(lex, db, identity);
    } else if v in {2, 4} {
      AlteringBrings(lex, db, v, identity);
    } else {
      LaterBrings(lex, db, v, identity);
    }
  }

  lemma LaterBrings(lex: Lexicon, db: Db, v: nat, identity: string)
    requires v in {3, 5, 6, 7} && SchemaMigrations in db.tables
    ensures Upgraded(db, RecordVersion(Changed(lex, db, v, identity), v), v - 1, v)
  {
    var after := RecordVersion(Changed(lex, db, v, identity), v);
    match v
    case 3 => CreatingBrings(db, after, v, MemoryMessageTerms, TERM_COLUMNS);
    case 5 => CreatingBrings(db, after, v, ProjectHttpTokensTable, TOKEN_COLUMNS);
    case 6 => CreatingBrings(db, after, v, ApiPullStateTable, PULL_COLUMNS);
    case _ => CreatingBrings(db, after, v, ChatCatalogTable, CATALOG_COLUMNS);
  }

  lemma AddedAfterShrinks(t: Table, from: nat, to: nat)
    requires from <= to
    ensures AddedAfter(t, to) <= AddedAfter(t, from)
  {
  }

  lemma UpgradedTwice(a: Db, b: Db, c: Db, from: nat, mid: nat, to: nat)
    requires from <= mid <= to && Upgraded(a, b, from, mid) && Upgraded(b, c, mid, to)
    ensures Upgraded(a, c, from, to)
  {
    forall t | t in c.tables
      ensures c.tables[t] == (if t in a.tables then a.tables[t] else CreatedWith(t)) + (AddedAfter(t, from) - AddedAfter(t, to))
    {
      AddedAfterShrinks(t, from, mid);
      AddedAfterShrinks(t, mid, to);
      if t !in b.tables {
        assert t !in a.tables && AddedAfter(t, from) == AddedAfter(t, mid);
      }
    }
  }

  lemma NothingUpgraded(db: Db, n: nat)
    ensures Upgraded(db, db, n, n)
  {
  }

  lemma {:induction false} PendingBring(lex: Lexicon, db: Db, next: nat, identity: string, end: Db)
    requires 1 <= next <= CURRENT_SCHEMA_VERSION + 1 && (next > 1 ==> SchemaMigrations in db.tables)
    requires ApplyFrom(MigrationApply(lex, identity), db, next) == Ok(end)
    ensures Upgraded(db, end, next - 1, CURRENT_SCHEMA_VERSION)
    decreases CURRENT_SCHEMA_VERSION + 1 - next
  {
    if next > CURRENT_SCHEMA_VERSION {
      NothingUpgraded(db, CURRENT_SCHEMA_VERSION);
    } else {
      ApplyFromStep(MigrationApply(lex, identity), db, next);
      VersionBrings(lex, db, next, identity);
      var one := RecordVersion(Changed(lex, db, next, identity), next);
      PendingBring(lex, one, next + 1, identity, end);
      UpgradedTwice(db, one, end, next - 1, next, CURRENT_SCHEMA_VERSION);
    }
  }

  lemma AdoptionBrings(db: Db)
    requires IsExactBatch4Baseline(db)
    ensures Upgraded(db, RecordVersion(db, 1), 0, 1)
  {
    assert Grown(db.tables, db.tables, {});
    GrowOne(db.tables, db.tables, {}, SchemaMigrations, HISTORY_COLUMNS, RecordVersion(db, 1).tables, {SchemaMigrations});
    assert RecordVersion(db, 1).tables.Keys == db.tables.Keys + BASELINE;
    GrownIsUpgraded(db, RecordVersion(db, 1), 1, BASELINE);
  }

  /** The unversioned platform schema: its four tables with exactly their columns, and its two named indexes. */
  ghost predicate Unversioned(db: Db) {
    && db.tables.Keys == {MemoryMessages, MemorySummaries, MemoryEmbeddings, AgentStateTable}
    && (forall t :: t in db.tables ==> db.tables[t] == CreatedWith(t))
    && (forall i :: IndexedBy(i) == 1 ==> i in db.indexes)
  }

  /** Which files are migrated, and from which version: those with a history that is a prefix of the list, files without
      any table, and the unversioned platform schema, which alone is adopted. */
  lemma ClassifiedExactly(db: Db, n: nat, adopt: bool)
    requires WellFormed(db)
    ensures Classify(db) == Ok((n, adopt)) <==>
              if db.history != [] then !adopt && n <= CURRENT_SCHEMA_VERSION && db.history == Prefix(n)
              else n == 0 && if adopt then Unversioned(db) else db.tables == map[]
  {
    if db.history != [] {
      ValidateHistoryExactly(db.history, n);
    } else {
      UnversionedIsBaseline(db);
    }
  }

  lemma UnversionedIsBaseline(db: Db)
    ensures IsExactBatch4Baseline(db) <==> Unversioned(db)
  {
    if Unversioned(db) {
      assert MemoryMessages in db.tables && MemorySummaries in db.tables && MemoryEmbeddings in db.tables && AgentStateTable in db.tables;
      assert IndexedBy(UxMessagesDedupe) == 1 && IndexedBy(UxEmbeddingsMessage) == 1;
    }
  }

  lemma BeginBrings(db: Db, current: nat, adopt: bool)
    requires WellFormed(db) && Classify(db) == Ok((current, adopt))
    ensures var (start, next) := Begin(db, current, adopt);
            && 1 <= next <= CURRENT_SCHEMA_VERSION + 1 && (next > 1 ==> SchemaMigrations in start.tables)
            && current < next && Upgraded(db, start, current, next - 1)
  {
    ClassifyReports(db);
    if adopt {
      AdoptionBrings(db);
    } else {
      NothingUpgraded(db, current);
    }
  }

  /** A successful migration leaves exactly the schema it found with what the missing versions bring. */
  lemma SchemaExactly(lex: Lexicon, db: Db, identity: string)
    requires WellFormed(db)
    ensures var r := Migrated(MigrationApply(lex, identity), db);
            r.Ok? ==> Upgraded(db, r.value.0, r.value.1.fromVersion, CURRENT_SCHEMA_VERSION)
  {
    var apply := MigrationApply(lex, identity);
    var r := Migrated(apply, db);
    if r.Ok? {
      var (current, adopt) := Classify(db).value;
      if current == CURRENT_SCHEMA_VERSION && !adopt {
        NothingUpgraded(db, CURRENT_SCHEMA_VERSION);
      } else {
        var (start, next) := Begin(db, current, adopt);
        BeginBrings(db, current, adopt);
        MigratedBy(apply, db, current, adopt, start, next);
        PendingBring(lex, start, next, identity, r.value.0);
        UpgradedTwice(db, start, r.value.0, current, next - 1, CURRENT_SCHEMA_VERSION);
      }
    }
  }

  const FRESH_TABLES := {MemoryMessages, MemorySummaries, MemoryEmbeddings, AgentStateTable, SchemaMigrations, MemoryMessageTerms,
                         EncryptionMeta, ProjectHttpTokensTable, ApiPullStateTable, ChatCatalogTable}

  const MESSAGES_NOW := {IdColumn, ProviderColumn, ProjectColumn, ConversationIdColumn, RoleColumn, ContentColumn,
                         TimestampColumn, MetadataJsonColumn, SourceKeyColumn, ContentFingerprintColumn}

  const FRESH_INDEXES := {UxMessagesDedupe, UxEmbeddingsMessage, UxMessagesSourceKey, IxMessageTermsTerm, IxMessagesContentFingerprint,
                          IxProjectHttpTokensProject, IxChatCatalogProject, IxChatCatalogProvider}

  const FRESH_HISTORY := [HistoryRow(1, BaselinePlatformSchema), HistoryRow(2, MessageSourceKey), HistoryRow(3, MessageTermsIndex),
                          HistoryRow(4, EncryptionSecurityMetadata), HistoryRow(5, ProjectHttpTokens), HistoryRow(6, ApiPullState),
                          HistoryRow(7, ChatCatalog)]

  /** Ten tables with their columns. */
  predicate CurrentTables(db: Db) {
    && db.tables.Keys == FRESH_TABLES
    && (forall t :: t in db.tables ==> db.tables[t] == if t == MemoryMessages then MESSAGES_NOW else CreatedWith(t))
  }

  lemma BroughtTables(t: Table)
    ensures 0 < BroughtBy(t) <= 7 <==> t in FRESH_TABLES
  {
  }

  lemma BroughtIndexes(i: Index)
    ensures 0 < IndexedBy(i) <= 7 <==> i in FRESH_INDEXES
  {
  }

  lemma ColumnsNow(t: Table)
    ensures CreatedWith(t) + (AddedAfter(t, 0) - AddedAfter(t, 7)) == if t == MemoryMessages then MESSAGES_NOW else CreatedWith(t)
  {
    if t == MemoryMessages {
      assert AddedAfter(t, 0) - AddedAfter(t, 7) == {SourceKeyColumn, ContentFingerprintColumn};
    }
  }

  /** The four tables of the unversioned schema, or none. */
  ghost predicate Bare(db: Db) {
    && (forall t :: t in db.tables ==> BroughtBy(t) == 1 && db.tables[t] == CreatedWith(t))
    && (forall t :: t in db.tables ==> t in FRESH_TABLES)
  }

  lemma KeysFromNothing(before: Db, db: Db, tables: set<Table>, indexes: set<Index>)
    requires Upgraded(before, db, 0, CURRENT_SCHEMA_VERSION) && before.tables.Keys <= tables
    requires forall t :: 0 < BroughtBy(t) <= 7 <==> t in tables
    requires forall i :: 0 < IndexedBy(i) <= 7 <==> i in indexes
    ensures db.tables.Keys == tables && db.indexes == before.indexes + indexes
  {
  }

  lemma UpgradedFromNothing(before: Db, db: Db)
    requires Bare(before) && Upgraded(before, db, 0, CURRENT_SCHEMA_VERSION)
    ensures CurrentTables(db) && db.indexes == before.indexes + FRESH_INDEXES
  {
    forall t
      ensures 0 < BroughtBy(t) <= 7 <==> t in FRESH_TABLES
    {
      BroughtTables(t);
    }
    forall i
      ensures 0 < IndexedBy(i) <= 7 <==> i in FRESH_INDEXES
    {
      BroughtIndexes(i);
    }
    KeysFromNothing(before, db, FRESH_TABLES, FRESH_INDEXES);
    forall t | t in db.tables
      ensures db.tables[t] == if t == MemoryMessages then MESSAGES_NOW else CreatedWith(t)
    {
      ColumnsNow(t);
    }
  }

  lemma PrefixIsHistory()
    ensures Prefix(CURRENT_SCHEMA_VERSION) == FRESH_HISTORY
  {
    forall i | 0 <= i < 7
      ensures Prefix(7)[i] == FRESH_HISTORY[i]
    {
      if i == 0 {
      } else if i == 1 {
      } else if i == 2 {
      } else if i == 3 {
      } else if i == 4 {
      } else if i == 5 {
      } else {
      }
    }
  }

  lemma NothingIsBare(indexes: set<Index>)
    ensures Bare(EMPTY) && EMPTY.indexes + indexes == indexes
  {
  }

  /** A new file, in full: its tables, columns and indexes, seven versions in order, no row, and one line of metadata
      that says that nothing is encrypted. */
  lemma FreshSchema(lex: Lexicon, identity: string)
    ensures var r := Migrated(MigrationApply(lex, identity), EMPTY);
            && r.Ok? && CurrentTables(r.value.0) && r.value.0.indexes == FRESH_INDEXES && r.value.0.history == FRESH_HISTORY && r.value.0.userVersion == 7
            && SameRows(r.value.0, EMPTY) && r.value.0.terms == {} && r.value.0.meta == Some(Meta(false, None, identity, PlainTerms))
  {
    FreshMigrates(lex, identity);
    var db := Migrated(MigrationApply(lex, identity), EMPTY).value.0;
    SchemaExactly(lex, EMPTY, identity);
    MigrateCorrect(lex, EMPTY, identity);
    MigrateIndexes(lex, EMPTY, identity);
    NothingIsBare(FRESH_INDEXES);
    UpgradedFromNothing(EMPTY, db);
    NothingIndexed(lex, db);
    PrefixIsHistory();
  }

  lemma NothingIndexed(lex: Lexicon, db: Db)
    requires db.meta.Some? && db.messages == [] && Indexed(lex, Contents(db), None)
    ensures db.terms == {}
  {
  }

  lemma UnversionedIsBare(db: Db)
    requires Unversioned(db)
    ensures Bare(db)
  {
    forall t | t in db.tables
      ensures BroughtBy(t) == 1 && t in FRESH_TABLES
    {
      assert t in db.tables.Keys;
      BroughtTables(t);
    }
  }

  /** The unversioned schema is always adopted, and ends with the same tables and columns as a new file; indexes of its
      own stay beside the eight. */
  lemma AdoptedSchema(lex: Lexicon, db: Db, identity: string)
    requires WellFormed(db) && db.history == [] && Unversioned(db)
    ensures var r := Migrated(MigrationApply(lex, identity), db);
            && r.Ok? && r.value.1.adopted && CurrentTables(r.value.0) && r.value.0.indexes == db.indexes + FRESH_INDEXES
            && r.value.0.history == FRESH_HISTORY && SameRows(r.value.0, db)
  {
    UnversionedIsBaseline(db);
    AdoptionReachesFreshSchema(lex, db, identity);
    var end := Migrated(MigrationApply(lex, identity), db).value.0;
    ClassifiedExactly(db, 0, true);
    SchemaExactly(lex, db, identity);
    MigrateCorrect(lex, db, identity);
    UnversionedIsBare(db);
    UpgradedFromNothing(db, end);
    PrefixIsHistory();
  }

  // ----- the keys a migration establishes -----

  /** What SQLite keeps up while an index is there. */
  predicate IndexesHold(db: Db) {
    && (UxMessagesDedupe in db.indexes ==> UniqueDedupeKeys(db.messages))
    && (UxMessagesSourceKey in db.indexes ==> UniqueSourceKeys(db.messages))
    && (UxEmbeddingsMessage in db.indexes ==> UniqueEmbeddings(db.embeddings))
  }

  /** The file has the indexes of the versions up to n. */
  ghost predicate HasIndexes(db: Db, n: nat) {
    forall i :: 1 <= IndexedBy(i) <= n ==> i in db.indexes
  }

  lemma {:induction false} PendingHold(lex: Lexicon, db: Db, next: nat, identity: string, end: Db)
    requires 1 <= next <= CURRENT_SCHEMA_VERSION + 1 && IndexesHold(db)
    requires ApplyFrom(MigrationApply(lex, identity), db, next) == Ok(end)
    ensures IndexesHold(end)
    decreases CURRENT_SCHEMA_VERSION + 1 - next
  {
    if next <= CURRENT_SCHEMA_VERSION {
      ApplyFromStep(MigrationApply(lex, identity), db, next);
      VersionHolds(lex, db, next, identity);
      PendingHold(lex, RecordVersion(Changed(lex, db, next, identity), next), next + 1, identity, end);
    }
  }

  /** A version adds a unique index only over rows that are unique. */
  lemma VersionHolds(lex: Lexicon, db: Db, v: nat, identity: string)
    requires 1 <= v <= CURRENT_SCHEMA_VERSION && Applies(lex, db, v) && IndexesHold(db)
    ensures IndexesHold(RecordVersion(Changed(lex, db, v, identity), v))
  {
    match v {
      case 1 =>
      case 2 =>
      case _ =>
    }
  }

  /** A migration keeps every unique index good, and a file that had the indexes of its own version ends with all of
      them: its messages have both unique keys, and no message has two embeddings. */
  lemma MigrationEstablishesKeys(lex: Lexicon, db: Db, identity: string)
    requires WellFormed(db) && IndexesHold(db)
    ensures var r := Migrated(MigrationApply(lex, identity), db);
            r.Ok? ==> IndexesHold(r.value.0)
                      && (HasIndexes(db, r.value.1.fromVersion) ==>
                            HasIndexes(r.value.0, CURRENT_SCHEMA_VERSION) && UniqueMessages(r.value.0.messages)
                            && UniqueEmbeddings(r.value.0.embeddings))
  {
    var apply := MigrationApply(lex, identity);
    var r := Migrated(apply, db);
    if r.Ok? {
      var (current, adopt) := Classify(db).value;
      SchemaExactly(lex, db, identity);
      if current != CURRENT_SCHEMA_VERSION || adopt {
        var (start, next) := Begin(db, current, adopt);
        BeginBrings(db, current, adopt);
        MigratedBy(apply, db, current, adopt, start, next);
        PendingHold(lex, start, next, identity, r.value.0);
      }
      if HasIndexes(db, r.value.1.fromVersion) {
        AllIndexes(db, r.value.0, r.value.1.fromVersion);
      }
    }
  }

  lemma AllIndexes(db: Db, after: Db, from: nat)
    requires Upgraded(db, after, from, CURRENT_SCHEMA_VERSION) && HasIndexes(db, from) && IndexesHold(after)
    ensures HasIndexes(after, CURRENT_SCHEMA_VERSION) && UniqueMessages(after.messages) && UniqueEmbeddings(after.embeddings)
  {
    forall i | 1 <= IndexedBy(i) <= CURRENT_SCHEMA_VERSION
      ensures i in after.indexes
    {
    }
    assert IndexedBy(UxMessagesDedupe) == 1 && IndexedBy(UxMessagesSourceKey) == 2 && IndexedBy(UxEmbeddingsMessage) == 1;
  }

  /** The keys the tables themselves declare, and what can be in a column that is not there yet. */
  predicate RowsInOrder(db: Db) {
    && OrderedMessages(db.messages) && OrderedRows(db.embeddings) && OrderedRows(db.summaries) && OrderedRows(db.agents)
    && UniqueAgents(db.agents)
    && (forall i :: 0 <= i < |db.embeddings| ==> MessageExists(db.messages, db.embeddings[i].key))
    && (forall i :: 0 <= i < |db.messages| ==> db.messages[i].fingerprint == None)
  }

  /** A file from before the search index and encryption that has the indexes of its version comes out as the
      consistent plaintext database every store starts from; in particular a new file does. */
  lemma MigratedIsConsistent(lex: Lexicon, db: Db, identity: string)
    requires WellFormed(db) && IndexesHold(db) && RowsInOrder(db) && db.terms == {} && db.meta == None
    requires identity != "" && '|' !in identity
    ensures var r := Migrated(MigrationApply(lex, identity), db);
            r.Ok? && r.value.1.fromVersion < 3 && HasIndexes(db, r.value.1.fromVersion) ==>
              r.value.0.meta.Some? && Consistent(lex, Contents(r.value.0), None)
  {
    MigrateIndexes(lex, db, identity);
    MigrationEstablishesKeys(lex, db, identity);
    MigrateCorrect(lex, db, identity);
    var r := Migrated(MigrationApply(lex, identity), db);
    if r.Ok? && r.value.1.fromVersion < 3 && HasIndexes(db, r.value.1.fromVersion) {
      SameRowsConsistent(lex, db, r.value.0, identity);
    }
  }

  lemma SameRowsConsistent(lex: Lexicon, db: Db, after: Db, identity: string)
    requires SameRows(after, db) && RowsInOrder(db) && identity != "" && '|' !in identity
    requires UniqueMessages(after.messages) && UniqueEmbeddings(after.embeddings)
    requires after.meta == Some(Meta(false, None, identity, PlainTerms)) && Indexed(lex, Contents(after), None)
    ensures Consistent(lex, Contents(after), None)
  {
  }

  lemma FreshIsConsistent(lex: Lexicon, identity: string)
    requires identity != "" && '|' !in identity
    ensures var r := Migrated(MigrationApply(lex, identity), EMPTY);
            r.Ok? && r.value.0.meta.Some? && Consistent(lex, Contents(r.value.0), None)
  {
    FreshMigrates(lex, identity);
    MigratedIsConsistent(lex, EMPTY, identity);
  }

  // ----- what the statements of a version rest on -----

  /** The table an index is on, and the columns it names. */
  function IndexOn(i: Index): (Table, set<Column>) {
    match i
    case UxMessagesDedupe =>
      (MemoryMessages, {ProjectColumn, ProviderColumn, ConversationIdColumn, RoleColumn, ContentColumn, TimestampColumn})
    case UxEmbeddingsMessage => (MemoryEmbeddings, {MessageIdColumn})
    case UxMessagesSourceKey => (MemoryMessages, {ProjectColumn, ProviderColumn, ConversationIdColumn, SourceKeyColumn})
    case IxMessageTermsTerm => (MemoryMessageTerms, {TermColumn})
    case IxMessagesContentFingerprint =>
      (MemoryMessages, {ProjectColumn, ProviderColumn, ConversationIdColumn, RoleColumn, ContentFingerprintColumn})
    case IxProjectHttpTokensProject => (ProjectHttpTokensTable, {ProjectColumn})
    case IxChatCatalogProject => (ChatCatalogTable, {ProjectColumn})
    case IxChatCatalogProvider => (ChatCatalogTable, {ProviderColumn})
    case UnknownIndex(_) => (MemoryMessages, {})
  }

  predicate IndexGrounded(db: Db, i: Index) {
    IndexedBy(i) > 0 && i in db.indexes ==> IndexOn(i).0 in db.tables && IndexOn(i).1 <= db.tables[IndexOn(i).0]
  }

  predicate HasColumns(db: Db, t: Table) {
    t in db.tables && CreatedWith(t) <= db.tables[t]
  }

  /** The rows the migrations themselves write are in tables with all their columns. */
  predicate RowsGrounded(db: Db) {
    && (db.history != [] ==> HasColumns(db, SchemaMigrations))
    && (db.terms != {} ==> HasColumns(db, MemoryMessageTerms))
    && (db.meta.Some? ==> HasColumns(db, EncryptionMeta))
  }

  /** Every index of ours names a table and columns that are there, and so do our own rows. */
  ghost predicate Grounded(db: Db) {
    (forall i :: IndexGrounded(db, i)) && RowsGrounded(db)
  }

  /** The tables only grow. */
  ghost predicate Wider(before: Db, after: Db) {
    forall t :: t in before.tables ==> t in after.tables && before.tables[t] <= after.tables[t]
  }

  lemma OldIndexStays(before: Db, after: Db, i: Index)
    requires IndexGrounded(before, i) && Wider(before, after) && (i in after.indexes ==> i in before.indexes)
    ensures IndexGrounded(after, i)
  {
  }

  lemma NewIndexGrounded(lex: Lexicon, db: Db, v: nat, identity: string, i: Index)
    requires 1 <= v <= CURRENT_SCHEMA_VERSION && Applies(lex, db, v) && IndexedBy(i) == v && i !in db.indexes
    ensures IndexGrounded(RecordVersion(Changed(lex, db, v, identity), v), i)
  {
    match i
    case UxMessagesDedupe =>
    case UxEmbeddingsMessage =>
    case UxMessagesSourceKey =>
    case IxMessageTermsTerm =>
    case IxMessagesContentFingerprint =>
    case IxProjectHttpTokensProject =>
    case IxChatCatalogProject =>
    case IxChatCatalogProvider =>
    case UnknownIndex(_) =>
  }

  lemma OldRowsStay(before: Db, after: Db)
    requires RowsGrounded(before) && Wider(before, after)
    requires after.terms == before.terms && after.meta == before.meta && HasColumns(after, SchemaMigrations)
    ensures RowsGrounded(after)
  {
  }

  lemma Recorded(db: Db, v: nat)
    requires 1 <= v <= CURRENT_SCHEMA_VERSION && Recordable(db)
    ensures HasColumns(RecordVersion(db, v), SchemaMigrations)
  {
  }

  lemma NewRowsGrounded(lex: Lexicon, db: Db, v: nat, identity: string)
    requires v in {3, 4} && Applies(lex, db, v) && RowsGrounded(db) && SchemaMigrations in db.tables
    ensures RowsGrounded(RecordVersion(Changed(lex, db, v, identity), v))
  {
    if v == 3 {
    } else {
    }
  }

  lemma VersionRows(lex: Lexicon, db: Db, v: nat, identity: string)
    requires 1 <= v <= CURRENT_SCHEMA_VERSION && Applies(lex, db, v) && RowsGrounded(db) && (v > 1 ==> SchemaMigrations in db.tables)
    requires Wider(db, RecordVersion(Changed(lex, db, v, identity), v))
    ensures RowsGrounded(RecordVersion(Changed(lex, db, v, identity), v))
  {
    if v in {3, 4} {
      NewRowsGrounded(lex, db, v, identity);
    } else {
      ApplyKeeps(lex, db, v, identity);
      Recorded(Changed(lex, db, v, identity), v);
      OldRowsStay(db, RecordVersion(Changed(lex, db, v, identity), v));
    }
  }

  /** A version that applies finds every column its new indexes and rows name. */
  lemma VersionGrounds(lex: Lexicon, db: Db, v: nat, identity: string)
    requires 1 <= v <= CURRENT_SCHEMA_VERSION && Applies(lex, db, v) && Grounded(db) && (v > 1 ==> SchemaMigrations in db.tables)
    ensures Grounded(RecordVersion(Changed(lex, db, v, identity), v))
  {
    var after := RecordVersion(Changed(lex, db, v, identity), v);
    VersionBrings(lex, db, v, identity);
    forall i
      ensures IndexGrounded(after, i)
    {
      if IndexedBy(i) == v && i !in db.indexes {
        NewIndexGrounded(lex, db, v, identity, i);
      } else {
        OldIndexStays(db, after, i);
      }
    }
    VersionRows(lex, db, v, identity);
  }

  lemma {:induction false} PendingGround(lex: Lexicon, db: Db, next: nat, identity: string, end: Db)
    requires 1 <= next <= CURRENT_SCHEMA_VERSION + 1 && (next > 1 ==> SchemaMigrations in db.tables) && Grounded(db)
    requires ApplyFrom(MigrationApply(lex, identity), db, next) == Ok(end)
    ensures Grounded(end)
    decreases CURRENT_SCHEMA_VERSION + 1 - next
  {
    if next <= CURRENT_SCHEMA_VERSION {
      ApplyFromStep(MigrationApply(lex, identity), db, next);
      VersionGrounds(lex, db, next, identity);
      PendingGround(lex, RecordVersion(Changed(lex, db, next, identity), next), next + 1, identity, end);
    }
  }

  /** A migration that succeeds leaves no index on a column that is missing, and no row of its own without its columns. */
  lemma MigrationStaysGrounded(lex: Lexicon, db: Db, identity: string)
    requires WellFormed(db) && Grounded(db)
    ensures var r := Migrated(MigrationApply(lex, identity), db); r.Ok? ==> Grounded(r.value.0)
  {
    var apply := MigrationApply(lex, identity);
    var r := Migrated(apply, db);
    if r.Ok? {
      var (current, adopt) := Classify(db).value;
      if current != CURRENT_SCHEMA_VERSION || adopt {
        var (start, next) := Begin(db, current, adopt);
        BeginBrings(db, current, adopt);
        MigratedBy(apply, db, current, adopt, start, next);
        forall i
          ensures IndexGrounded(start, i)
        {
          OldIndexStays(db, start, i);
        }
        if adopt {
          ClassifyReports(db);
          Recorded(db, 1);
        }
        PendingGround(lex, start, next, identity, r.value.0);
      }
    }
  }

  /** The message table and the history as every version leaves them. */
  predicate HasBaseline(db: Db) {
    MemoryMessages in db.tables && MESSAGE_COLUMNS <= db.tables[MemoryMessages] && Recordable(db)
  }

  /** The version finds what it needs. */
  predicate Ready(lex: Lexicon, db: Db, v: nat) {
    ApplyVersion(lex, db, v, "").Some?
  }

  lemma SecondApplies(lex: Lexicon, db: Db)
    requires WellFormed(db) && HasBaseline(db) && SourceKeyColumn !in db.tables[MemoryMessages]
    ensures Ready(lex, db, 2)
  {
    assert Applies(lex, db, 2);
  }

  lemma FourthApplies(lex: Lexicon, db: Db)
    requires HasBaseline(db) && EncryptionMeta !in db.tables
    ensures Ready(lex, db, 4)
  {
    assert Applies(lex, db, 4);
  }

  /** The versions that create a table apply as long as the table is not there. */
  lemma CreatingApplies(lex: Lexicon, db: Db, v: nat)
    requires HasBaseline(db) && v in {3, 5, 6, 7}
    requires {MemoryMessageTerms, ProjectHttpTokensTable, ApiPullStateTable, ChatCatalogTable} !! (set t | t in db.tables && BroughtBy(t) >= v)
    ensures Ready(lex, db, v)
  {
    assert Applies(lex, db, v);
  }

  lemma UpgradedHasBaseline(db: Db, n: nat)
    requires 1 <= n && Upgraded(EMPTY, db, 0, n)
    ensures HasBaseline(db)
  {
    assert MemoryMessages in db.tables && SchemaMigrations in db.tables;
    assert CreatedWith(MemoryMessages) <= db.tables[MemoryMessages] && CreatedWith(SchemaMigrations) <= db.tables[SchemaMigrations];
  }

  lemma LaterVersionApplies(lex: Lexicon, db: Db, n: nat, v: nat)
    requires WellFormed(db) && 1 <= n < v <= CURRENT_SCHEMA_VERSION && Upgraded(EMPTY, db, 0, n)
    ensures Ready(lex, db, v)
  {
    UpgradedHasBaseline(db, n);
    if v == 2 {
      SecondApplies(lex, db);
    } else if v == 4 {
      FourthApplies(lex, db);
    } else {
      CreatingApplies(lex, db, v);
    }
  }

  /** Whatever a store of an earlier version wrote, a file with the schema its versions made can be migrated. */
  lemma EarlierFilesMigrate(lex: Lexicon, db: Db, n: nat, identity: string)
    requires WellFormed(db) && 1 <= n <= CURRENT_SCHEMA_VERSION && AtVersion(db, n) && Upgraded(EMPTY, db, 0, n)
    ensures var r := Migrated(MigrationApply(lex, identity), db); r.Ok? && r.value.1.fromVersion == n
  {
    ClassifyVersioned(db, n);
    forall v: nat | n + 1 <= v <= CURRENT_SCHEMA_VERSION
      ensures Applies(lex, db, v)
    {
      LaterVersionApplies(lex, db, n, v);
      assert ApplyVersion(lex, db, v, "").Some?;
    }
    MigrateSucceedsExactly(lex, db, identity);
    MigratedReport(lex, db, identity, n, false);
  }
}
