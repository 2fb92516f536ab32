# Verified model of deepiri_memorymesh

A Dafny 4.11 model of the stateful core of Memory Mesh with proofs about it. `dafny verify dfyconfig.toml` verifies
every file of the project. What the model leaves out is listed at the end.

## What is modelled

**The sealed message store and its index.** `Rows` describes the platform tables and the one invariant every committed
database keeps, `Consistent`: SQLite's keys and unique constraints hold, every protected column is sealed exactly when
`encryption_meta` says so (under the key named there and bound to its own table, column and row), every fingerprint is
current, and the term rows are exactly the current mapping of each message's tokens. `Inserts` and `Fields` are the
write paths as functions of the tables, `Lifecycle` is enabling and rotating, `Store` and `Encryption` are the same
operations as methods that change a `Database` object statement by statement, with a failure allowed at any statement
and a rollback. `Plain` is the database a user has in mind: what was written, without the bookkeeping. `Simulation`,
`Runs`, `Views` and `QueryRuns` prove that encryption is a refinement of the plaintext database, for single operations,
for whole runs, and for every answer a client can get. Message ids are kept exactly: the tables carry SQLite's
AUTOINCREMENT counter, which also counts ignored rows, while a store with a key counts the stored rows; `Ids` names
messages by their places, so that databases can be compared up to ids, `Batches` says which ids a batch gives, `RunIds`
when the ids of a run are those of the never-encrypted one, and `IdGap` has a run where they are not. `StaleSessions` is
writing with a session from before encryption or a rotation, `RunModes` is the terms mode over runs, `Refusals` the errors
of enabling and rotating, `Rotation` says which stores can be rotated, `ReadBack` what is read after a write, `Fingerprints`
when a content fingerprint determines its namespace, `Limits` gives databases on which a promise ends.

**Retrieval.** `SearchIndex`, `Vectors`, `EmbeddingCodec`, `Ranking`, `Query`, `QueryScope` and `Retrieval` are the index,
the embeddings and the queries. `Cosines` says what a similarity means and `Directions` which vectors it ranks first and
last. The joins a query reads ask SQLite for no order, so their order is a parameter, any
permutation, possibly another one for every database, strategy and query. `Ties` says what that order decides in a
ranking, `Answers` compares the answers of two databases for all orders, `Placing` reads a database by the places of its
messages, and `TiedAnswers` is a store on which the order shows.

`FacadeRuns` interleaves the statements of concurrent facade stores; `Bundle` and `Listings` are listing, export and
import, with bundle files sealed or not, and `BundleMoves` is where an import lands.

**Migrations.** `Migrations` is the migration list, the history check, the classification of a file, and the engine;
`Schemas` says which schema and which keys a migration leaves; `MigrationRuns` interleaves any number of migrators that may
time out, crash or commit.

**Aider histories.** `Aider` is the three-buffer line machine, as functions and as the loop; `AiderGroups` says what it
computes without mentioning buffers; `AiderIngest` is source keys, timestamps and records; `Reingest` is what a reading
appends to a store and what any number of readings leave there; `GrownFile` is a file that grows line by line, `AiderText`
one that grows as a text, `CapFile` one of any length that runs into the cap on timestamps. `AiderRows` says what the stored
rows tell: who spoke, in which words, and where it was read.

**The installer.** `Hooks` edits hook configurations, `InstallPlan` plans the files of an installation, `Install` and
`Uninstall` are the two transactions with rollback over a map of files, `InstalledFiles` says what an installation's files
hold, `InstallRuns` is the entry points and their runs.

`Basics`, `Json`, `Sorting`, `Tokenizer` and `Crypto` are shared vocabulary.

Cryptographic primitives are symbolic values, not hypotheses: an AES-GCM box (section 7 of NIST SP 800-38D) remembers
its subkey, nonce, associated data and plaintext, and opens under exactly that subkey and associated data; an HMAC
(section 2 of RFC 2104) and an HKDF output (section 2 of RFC 5869) are values built from their inputs. Key identifiers
are truncated hashes, so two master keys may share one; theorems about runs say where that matters.

## Where the code differs from what its documentation suggests

- Inserting plain batches into an encrypted store ignores the timestamp of rows without a source key, which the
  plaintext unique index does not: `Ids.ModesAgreeExactly` says for which records the two modes part.
  `Limits.ModesDisagree` has one batch that two empty stores take differently.
- Which of two rows with the same score a query returns is up to the order in which SQLite visits them, since neither join
  has an ORDER BY: an exact scan goes by the index on the stored content, a scan by ids by id, and enabling encryption
  replaces the content by an envelope with a random nonce. Answers agree up to ties at the cut, and in all cases exactly
  when nothing ties there: `Answers.QueryRefines`, `Retrieval.IndexedEqualsExact`. `TiedAnswers.OrderDecides` has a store
  and its encrypted form on which an exact query for "foo bar" answers "bar foo" and an indexed one "foo bar".
- Encryption shows in message ids: without a key SQLite counts ignored rows, with one the store does not.
  `RunIds.IdsCoincideExactly` says when the ids of a run are those of the run that is never encrypted; in `IdGap.RunsPart`
  a message offered twice before encryption gives the next one id 2 in the one and id 3 in the other.
- A key cannot be rotated any more once an encrypted store holds two records that differ in nothing but a nonempty source
  key: rows are opened in place, and the two plaintexts meet in `ux_messages_dedupe`. `Lifecycle.RotateCorrect` has the
  exact condition, `Rotation.RotationCanFail` such a store, `Rotation.RotationStaysPossible` the runs after which rotation
  succeeds.
- A fingerprint does not determine the namespace it was computed for when a '|' occurs in a name or in the content:
  `Fingerprints.FingerprintTwinExactly`, with a pair in `Crypto.FingerprintAmbiguous`. Lookups are exact all the same,
  because they also fix the namespace: `Simulation.FindExactRefines`.
- A migration of a file with a history trusts the history, not the schema: `Migrations.MigrateSucceedsExactly`, and
  `Migrations.AlteredFileFails` for a classified file that cannot be migrated.
- A bundle sealed for the project with the empty name cannot be opened: `Listings.SealedFileOpensExactly`.
- `rebuild_all_message_terms` indexes stored text without a mapper: `SearchIndex.RebuildExactly`, and
  `Limits.RebuildLosesKeyedIndex` for a keyed store that loses its index.
- An exact scan with a role filter returns other roles unless provider and conversation are given too:
  `QueryScope.ExactScanScopeExactly`, with the database that shows it in `QueryScope.OtherRoleIsMissed`.
- A dry-run update uninstalls the previous installation for real: `InstallRuns.DryRunExactly`, seen in
  `InstallRuns.DryRunUpdateUninstalls`.
- A configuration whose "hooks" is not an object, or whose event is not a list, raises instead of being reported:
  `InstallRuns.InstallNative`, result `Raised`.
- A session header moves a turn that is still pending: `Aider.HeaderMovesPendingTurn`.
- Past 999,999 turns the microsecond cap can make two turns collide: `AiderIngest.TurnsClashExactly`. Of a file of
  1,000,000 turns that say the same thing a plaintext store loses the last one: `CapFile.CapLosesTurns`.
- A history file read before its last line was complete can leave turns behind that the grown file no longer has:
  `AiderText.FenceLeavesOldTurns`.
- The post-write sample check of enabling and rotating cannot fail: `Encryption.VerifySamples`.
- A store that cached its crypto state before encryption was enabled or rotated writes rows that are not protected:
  `StaleSessions.WriteNeedsCurrentSession` says for every write when its session fits. A message written by a store that
  was open when another one enabled encryption stands in the clear (`StaleSessions.StaleWriteIsInTheClear`), and one
  written after another one's rotation cannot be read (`StaleSessions.StaleKeyIsUnreadable`).

## Model

| member | source | states |
|---|---|---|
| Crypto.AadInjective | deepiri_memorymesh/crypto.py:258-260 | the associated data of a field determines its database, table, column and row |
| Crypto.FieldBinding | deepiri_memorymesh/crypto.py:312-376 | a sealed field opens under exactly its master key at exactly its place, and then gives back the plaintext; any other key or place is a wrong-key or tamper error |
| Crypto.PortableBinding | deepiri_memorymesh/crypto.py:326-388 | a bundle seal opens in any database with the key and never opens as a field |
| Crypto.OpensExactly | deepiri_memorymesh/crypto.py:262-309 | what opens under a key with some associated data is exactly what was sealed so, in version 1 with AES-256-GCM |
| Crypto.KeysAreSeparate | deepiri_memorymesh/crypto.py:57-62 | sealing, fingerprints and search tokens never share a subkey, whatever the master keys; each use tells master keys apart; a context needs 32 bytes of key and an identity |
| Fingerprints.FingerprintTwinExactly | deepiri_memorymesh/crypto.py:411-427 | another namespace or content with the same fingerprint exists exactly when a '|' occurs in project, provider, conversation or role, or among the leading characters of the content |
| Fingerprints.FingerprintTwinOfString | deepiri_memorymesh/crypto.py:411-427 | for a content of characters: exactly when a '|' occurs in any of the five |
| Fingerprints.BarFreeNamespaces | deepiri_memorymesh/crypto.py:411-427 | two namespaces without '|' with equal fingerprints are equal, and so are the contents |
| Crypto.FingerprintExact | deepiri_memorymesh/crypto.py:411-427 | within one namespace, equal fingerprints mean equal contents |
| Crypto.KeyedTokenInjective | deepiri_memorymesh/crypto.py:430-432 | keyed tokens of one key distinguish words |
| Tokenizer.TermsMeaning | deepiri_memorymesh/search_index.py:136-162 | tokenizing yields the distinct words of the text with 2 to 64 characters that are no stop words, in first-seen order, at most 256 of them, and all of them below that bound |
| Tokenizer.TokenizeForIndex | deepiri_memorymesh/search_index.py:136-162 | the loop with its early exit computes that list |
| Inserts.InsertBatchKeeps | deepiri_memorymesh/storage.py:505-703 | in both modes a batch keeps the whole database invariant (both unique keys, sealing, fingerprints, index), leaves existing rows as they are and only appends |
| Inserts.InsertBatchSplit | deepiri_memorymesh/storage.py:505-703 | inserting a + b is inserting a, then b |
| Inserts.SkipsExactly | deepiri_memorymesh/storage.py:522-552 | a record is skipped exactly when the plaintext rule of the mode, applied to the plaintext rows, says so; ciphertext never decides |
| Inserts.RepeatInsertsNothing | deepiri_memorymesh/storage.py:505-703 | offering a batch again, with other nonces, inserts nothing and changes no row; SQLite's id counter moves on by one for every record without encryption, and at most to the next id with it |
| Ids.ModesAgreeExactly | deepiri_memorymesh/storage.py:522-552 | an encrypted and a plaintext store with the same messages treat a record differently exactly when its source key is new and either it has none and its text is stored at other times only, or it has one and its text is stored at its very time; and which of them then stores it |
| Limits.ModesDisagree | deepiri_memorymesh/storage.py:522-552 | one batch, two empty consistent stores with the same plaintext, one encrypted: different plaintexts afterwards |
| Store.MemoryStore.EncryptionContext | deepiri_memorymesh/storage.py:250-302 | resolves the session once and caches it; errors leave nothing cached |
| Store.MemoryStore.InvalidateCryptoCache | deepiri_memorymesh/storage.py:240-243 | forgets the cached session, so the next operation resolves afresh |
| Store.MemoryStore.InsertMessages | deepiri_memorymesh/storage.py:505-703 | the loop with statement faults: the whole batch or nothing, and the returned count is the growth of the table |
| Store.MemoryStore.SaveEmbedding | deepiri_memorymesh/storage.py:1041-1084 | inserts or replaces the embedding of a message, or changes nothing |
| Store.MemoryStore.UpsertSummary | deepiri_memorymesh/storage.py:885-954 | updates every row of the conversation or appends one, all or nothing, and says which |
| Store.MemoryStore.SetAgentState | deepiri_memorymesh/storage.py:956-1012 | updates or appends one agent slot, or changes nothing |
| Store.MemoryStore.StoreFacadeMemoryWithEmbedding | deepiri_memorymesh/storage.py:1587-1777 | lookup, message, embedding, terms and commit in one transaction, with a failure at any of them: all or nothing, and when it succeeds |
| Fields.StoreFacadeKeeps | deepiri_memorymesh/storage.py:1587-1777 | the facade store keeps the database invariant |
| Fields.SaveEmbeddingKeeps | deepiri_memorymesh/storage.py:1041-1084 | saving an embedding keeps the database invariant |
| Fields.UpsertSummaryKeeps | deepiri_memorymesh/storage.py:885-954 | upserting a summary keeps the database invariant |
| Fields.SetAgentStateKeeps | deepiri_memorymesh/storage.py:956-1012 | setting agent state keeps the database invariant |
| Simulation.WrittenIsRead | deepiri_memorymesh/storage.py:418-436 | reading a stored text returns what was written, even when that text looks like an envelope |
| ReadBack.EmbeddingReadBack | deepiri_memorymesh/storage.py:1041-1084 | after saving, every embedding of the message, and there is one, reads as the saved text, whether it was new or replaced another; embeddings of other messages and all other tables stay |
| ReadBack.SummaryReadBack | deepiri_memorymesh/storage.py:885-954 | after an upsert every row of the conversation, and there is one, reads as the new text with the new technique and creation time; a row is added exactly when there was none; other conversations and tables stay |
| ReadBack.AgentReadBack | deepiri_memorymesh/storage.py:956-1039 | what is set is read back, under the slot's own name and update time; every other slot reads as before |
| Simulation.ReadMessageOpens | deepiri_memorymesh/storage.py:418-436 | on a protected database every message reads back as its plaintext |
| Simulation.FindExactRefines | deepiri_memorymesh/storage.py:1218-1263 | the fingerprint lookup returns what the plaintext comparison returns |
| Simulation.FindExactMeaning | deepiri_memorymesh/storage.py:1218-1263 | the lookup returns the least id with that namespace and content, and finds one whenever there is one |
| Ids.InsertBatchRefines | deepiri_memorymesh/storage.py:505-703 | inserting while encrypted, then looking at the plaintext, is inserting into the plaintext, up to ids and where the duplicate rules agree |
| Ids.BatchIsDense | deepiri_memorymesh/storage.py:505-703 | whatever the batch: inserting on any database, then looking at the plaintext with messages named by their places, is inserting there under the duplicate rule of the mode |
| Simulation.StoreFacadeRefines | deepiri_memorymesh/storage.py:1587-1777 | the facade's decision and effect do not depend on encryption, under the id the store gives |
| Ids.FacadeNumbered | deepiri_memorymesh/storage.py:1587-1777 | the facade store does the same whatever id the new message gets: with messages named by their places, decision, place and effect are the same |
| Ids.SaveNumbered | deepiri_memorymesh/storage.py:1041-1084 | saving an embedding does the same whatever the ids of the messages are |
| Simulation.SaveEmbeddingRefines | deepiri_memorymesh/storage.py:1041-1084 | saving an embedding commutes with opening the database |
| Simulation.UpsertSummaryRefines | deepiri_memorymesh/storage.py:885-954 | upserting a summary commutes with opening the database |
| Simulation.SetAgentStateRefines | deepiri_memorymesh/storage.py:956-1012 | setting agent state commutes with opening the database |
| Simulation.GetAgentStateRefines | deepiri_memorymesh/storage.py:1014-1039 | reading agent state returns the plaintext answer |
| Lifecycle.EnableCorrect | deepiri_memorymesh/encryption.py:403-498 | enabling succeeds exactly on a plaintext database with a usable key in which no sealed text meets a later plaintext, and then yields a consistent database with the same plaintext; its terms mode is the one asked for: in keyed mode every term is a keyed token under the new key and none a word, in plain mode the index is untouched |
| Lifecycle.DecryptTablesExact | deepiri_memorymesh/encryption.py:345-385 | decrypting for rotation, row by row under the unique index, succeeds exactly under the sealing key, or when nothing is sealed, and where the plaintext messages are unique and none is the stored text of a later row; it uncovers the plaintext |
| Lifecycle.RotateCorrect | deepiri_memorymesh/encryption.py:501-604 | when rotation succeeds, unique index included, and that the result is consistent under the new key with the same plaintext and the same terms mode: all tokens keyed under the new key, or the index untouched |
| Encryption.EncryptAllRows | deepiri_memorymesh/encryption.py:267-342 | the four row loops with re-indexing compute the sealed tables, or stop at the faulty statement or the first clash |
| Encryption.DecryptAllRows | deepiri_memorymesh/encryption.py:345-385 | the four decrypting loops compute the opened tables, or stop at the first row that does not open or clashes with another |
| Encryption.VerifySamples | deepiri_memorymesh/encryption.py:388-400 | after sealing, every sample opens to its plaintext |
| Encryption.EnableEncryption | deepiri_memorymesh/encryption.py:403-498 | the operation in place: the enabled database, in the mode asked for, or the unchanged one on any error or fault |
| Encryption.RotateEncryption | deepiri_memorymesh/encryption.py:501-604 | the operation in place: the rotated database, in the mode it had, or the unchanged one on any error or fault |
| Refusals.EnableFails | deepiri_memorymesh/encryption.py:403-498 | which error a failing enable reports: encryption is on, else the key is unusable, else a sealed text met a later plaintext |
| Refusals.RotateFails | deepiri_memorymesh/encryption.py:501-604 | which error a failing rotation reports, in this order: encryption is off, old key unusable, wrong identifier, new key unusable, not the sealing key, or two texts met in the table |
| Lifecycle.EncryptTablesExactly | deepiri_memorymesh/encryption.py:267-342 | sealing in place fails exactly where a sealed text equals a later plaintext of the same namespace and timestamp |
| Rotation.RotationCanFail | deepiri_memorymesh/storage.py:522-552 | two records that differ in a nonempty source key only, put into an empty encrypted store, leave a consistent database that no key can be rotated on |
| Rotation.RotationStaysPossible | deepiri_memorymesh/encryption.py:501-604 | after every run whose plain batches met the plaintext duplicate rule and stored no envelope texts, rotation to any usable key succeeds |
| Runs.RunsStayConsistent | deepiri_memorymesh/storage.py:322-436 | over every run of writes, enabling and rotating, with failures and wrong keys, the committed database keeps the whole invariant |
| RunModes.RunsKeepMode | deepiri_memorymesh/encryption.py:267-342 | over every run the terms mode is chosen once, by the one command that turns encryption on, and stays, whatever is written, rotated, interrupted or tried with wrong keys; in keyed mode the index never holds a word in the clear and every token is under the current key, otherwise it holds words only |
| Runs.RunsFollowRule | deepiri_memorymesh/encryption.py:267-385 | over every run, with any records, the plaintext behind the database is, up to ids, that of a database never encrypted that used, for plain batches, the duplicate rule of the mode they ran in |
| Runs.RunsRefinePlaintext | deepiri_memorymesh/encryption.py:267-385 | where its plain batches meet the agreement condition, the plaintext behind the database after a run is, up to an order-preserving renaming of message ids that terms and embeddings follow, the database of the same writes never encrypted |
| RunIds.IdsCoincideExactly | deepiri_memorymesh/migrations.py:158-168 | the ids are the same exactly when no message that the run stores while encrypted is one before which SQLite's counter had skipped an id in the other database; then the two databases are the same but for the counter |
| IdGap.StoresPart | deepiri_memorymesh/storage.py:646-686 | an empty plaintext store and an empty encrypted one, given one message, the same again and another: ids 1 and 3 in the one, 1 and 2 in the other |
| IdGap.RunsPart | deepiri_memorymesh/storage.py:646-686 | one run in which a message is offered twice, encryption is enabled and another message is inserted: id 2, where the never-encrypted run has 3 |
| Runs.LifecycleIsInvisible | deepiri_memorymesh/encryption.py:403-604 | any run of enabling and rotating leaves the plaintext alone |
| Runs.ResolveExactly | deepiri_memorymesh/storage.py:250-302 | a configured key is accepted exactly when it is usable and has the identifier of the sealing key |
| StaleSessions.WriteNeedsCurrentSession | deepiri_memorymesh/storage.py:257-260 | any of the five writes leaves a consistent database consistent exactly when its session fits: it is current, index mode included, for every message stored, and every other text gets sealed to its place |
| StaleSessions.AppendNeedsContext | deepiri_memorymesh/storage.py:257-260 | a message is protected exactly when the session it is written with holds the very context of the database |
| StaleSessions.StaleWriteIsInTheClear | deepiri_memorymesh/storage.py:250-302 | a session resolved before another store enables encryption: the message it inserts stands in the encrypted database in the clear |
| StaleSessions.StaleKeyIsUnreadable | deepiri_memorymesh/storage.py:250-302 | a session resolved before another store rotates the key: the message it inserts cannot be read |
| Views.TwinAnswers | deepiri_memorymesh/sync_service.py:536-690 | a database and a plaintext database that holds the same up to ids give the same answers to everything a client can ask, messages named by their places: for all orders of the rows the same reports and rankings up to ties at the cut, and the same rows for all orders exactly when nothing ties there; the same lookups, candidates, states, listings, exports and messages |
| QueryRuns.AnswersFollowRule | deepiri_memorymesh/sync_service.py:536-690 | after any run, with any records, all answers are in that sense those of the database of Runs.RunsFollowRule |
| QueryRuns.AnswersAfterRuns | deepiri_memorymesh/sync_service.py:536-690 | under the agreement condition, after any run all answers are in that sense those of the never-encrypted database |
| QueryRuns.AnswersSurviveLifecycle | deepiri_memorymesh/encryption.py:403-604 | enabling and rotating a plaintext database any number of times changes no id and, up to ties at the cut, no answer |
| SearchIndex.BackfillEstablishes | deepiri_memorymesh/search_index.py:191-216 | the backfill of an empty index makes it exact |
| SearchIndex.RebuildExactly | deepiri_memorymesh/search_index.py:219-229 | a rebuild equals the incremental index: with plain words exactly when stored texts have the words of the texts behind them, so always without encryption; with keyed terms exactly when both are empty |
| Limits.RebuildLosesKeyedIndex | deepiri_memorymesh/search_index.py:219-229 | a consistent keyed store with one message holding a word, whose rebuilt index is another one |
| SearchIndex.RebuildAllMessageTerms | deepiri_memorymesh/search_index.py:219-229 | the rebuild loop replaces the whole index by the words of the stored texts |
| SearchIndex.SelectionMeaning | deepiri_memorymesh/search_index.py:290-335 | the candidates are the first `limit` of the in-scope embedded matches by overlap descending, id ascending |
| SearchIndex.SelectCandidatesRefines | deepiri_memorymesh/search_index.py:290-335 | candidates on an encrypted database are those on its plaintext |
| EmbeddingCodec.SerializeParses | deepiri_memorymesh/embedding_codec.py:151-275 | a serialized vector parses back with its stable backend and model |
| EmbeddingCodec.SerializesExactly | deepiri_memorymesh/embedding_codec.py:104-186 | what can be serialized: 128 numbers from the hash backend or 384 from the other, under any of the backend's names, with no model or a name of the same backend |
| EmbeddingCodec.ParsedShape | deepiri_memorymesh/embedding_codec.py:203-289 | a parsed payload is legacy of unknown origin, or of version 1 with 128 dimensions from hash-v1 or 384 from the sentence-transformers model |
| EmbeddingCodec.ParsesExactly | deepiri_memorymesh/embedding_codec.py:203-289 | what parses: a nonempty array of numbers, or an object of version 1 with a known backend, that backend's dimensions, as many numbers, and no model or one that fits |
| EmbeddingCodec.DimensionsExactly | deepiri_memorymesh/embedding_codec.py:104-115 | the known backends are hash-v1 with 128 dimensions and the sentence-transformers model with 384 |
| EmbeddingCodec.CanonicalExactly | deepiri_memorymesh/embedding_codec.py:138-148 | a model fits if there is none or if it is a name of the backend |
| EmbeddingCodec.QueryIsItsPayload | deepiri_memorymesh/embedding_codec.py:340-364 | a query vector is described as its own serialized payload would parse, and refused exactly where none could be written |
| EmbeddingCodec.CoerceFiniteFloats | deepiri_memorymesh/embedding_codec.py:123-135 | the coercion loop computes the coercion |
| EmbeddingCodec.CoerceMeaning | deepiri_memorymesh/embedding_codec.py:123-135 | coercion accepts exactly lists of finite numbers, no booleans among them, and keeps every value |
| Vectors.CauchySchwarz | deepiri_memorymesh/embedding_codec.py:292-312 | the squared dot product is at most the product of the squared norms |
| Vectors.CosineBounded | deepiri_memorymesh/embedding_codec.py:292-312 | every similarity lies in [-1, 1] |
| Vectors.CosineSelf | deepiri_memorymesh/embedding_codec.py:292-312 | a nonzero vector has similarity 1 with itself |
| Cosines.DotProduct | deepiri_memorymesh/embedding_codec.py:292-312 | the dot product is symmetric and additive, and with an axis reads off a coordinate |
| Cosines.DotTimes | deepiri_memorymesh/embedding_codec.py:292-312 | and homogeneous |
| Cosines.CosineDefined | deepiri_memorymesh/embedding_codec.py:292-312 | a similarity exists exactly for two nonzero vectors of one length |
| Cosines.CosineSymmetric | deepiri_memorymesh/embedding_codec.py:292-312 | similarity is symmetric |
| Cosines.CosineOpposite | deepiri_memorymesh/embedding_codec.py:292-312 | turning a vector around negates its similarities |
| Cosines.CosineScaled | deepiri_memorymesh/embedding_codec.py:292-312 | stretching a vector changes none of its similarities |
| Cosines.CosineZeroExactly | deepiri_memorymesh/embedding_codec.py:292-312 | the score is 0 exactly for orthogonal nonzero vectors |
| Cosines.CosineOneExactly | deepiri_memorymesh/embedding_codec.py:292-312 | the score is 1 exactly for positive multiples of a nonzero vector |
| Cosines.CosineMinusOneExactly | deepiri_memorymesh/embedding_codec.py:292-312 | the score is -1 exactly for negative multiples |
| Vectors.ComputeHashEmbedding | deepiri_memorymesh/embeddings.py:22-39 | the token loop over the array computes the hash embedding |
| Vectors.HashEmbeddingIsUnit | deepiri_memorymesh/embeddings.py:22-39 | every hash embedding has the backend's dimensions and unit norm, also for token-free and cancelling texts |
| Cosines.CountsMeaning | deepiri_memorymesh/embeddings.py:22-28 | coordinate k is the number of tokens of bucket k with an even second byte minus the number of those with an odd one |
| Cosines.EmbeddingDirection | deepiri_memorymesh/embeddings.py:29-39 | a hash embedding points where the token counts point, or, if nothing is left of them, along the axis of the whole text, up or down |
| Cosines.OppositeWords | deepiri_memorymesh/embeddings.py:22-39 | two words that share a bucket with opposite signs have opposite embeddings, and a text of just the two gets the axis of the whole text |
| Ranking.RankRowsWithReport | deepiri_memorymesh/retrieval.py:43-105 | the counting loop, sort and cut compute the ranking and its report |
| Ranking.NeverDegraded | deepiri_memorymesh/retrieval.py:60-95 | the defensive branch cannot be reached |
| Ranking.ReportCounts | deepiri_memorymesh/retrieval.py:43-105 | each row is counted in exactly one counter, the one for what happened to it |
| Ranking.RankMeaning | deepiri_memorymesh/retrieval.py:43-105 | the answer is a descending top-k of the scorable rows with scores in [-1, 1]; a negative k leaves out the last -k |
| Directions.ScoredExactly | deepiri_memorymesh/embedding_codec.py:315-337 | a row is scored exactly when its payload parses, has the query's dimensions, is a bare array or of the query's backend, and neither vector is zero; bare arrays count as legacy, others as versioned |
| Directions.ScoreEnds | deepiri_memorymesh/retrieval.py:43-105 | scores lie in [-1, 1]; a row scores 1 exactly if its vector points along the query and -1 exactly if against it |
| Directions.DirectionsRank | deepiri_memorymesh/retrieval.py:43-105 | vectors along the query come first and vectors against it last: below an answer against the query there are only such rows, answered or cut off, and above one along it only such answers |
| Ranking.ExactTextRanksFirst | deepiri_memorymesh/retrieval.py:43-105 | a hash-backend query for the exact text of a stored memory has a score of 1 on top |
| Ties.RankUpToTies | deepiri_memorymesh/retrieval.py:96-105 | whatever order the rows come in, the ranking has the same scores in the same places and the same rows above the last score, and the same rows altogether when nothing is cut off |
| Ties.TiesDecide | deepiri_memorymesh/retrieval.py:96-105 | the ranking is the same for every order of the rows exactly when no two different scorable rows have the same score at or above the cut |
| Ties.ReportRearranged | deepiri_memorymesh/retrieval.py:43-105 | every counter of the report is the same in whatever order the rows come |
| Query.MemoryMesh.Ask | deepiri_memorymesh/sync_service.py:536-690 | the strategy decision, reads, ranking and report step by step compute the query's answer for the order in which the rows are visited, and remember the report |
| Retrieval.PlanMeaning | deepiri_memorymesh/sync_service.py:581-656 | the index is used exactly when it is wanted and a message in scope shares a word with the query, then with distinct matching messages, best first, cut at the limit; and exactly when each fallback is reported |
| Retrieval.ScopeCount | deepiri_memorymesh/storage.py:1130-1161 | the embeddings counted for a scope are as many as its messages with an embedding |
| Retrieval.ReportTells | deepiri_memorymesh/sync_service.py:581-690 | the report repeats the strategy asked for and the limit, names the strategy used and the fallback, counts the embedded messages of the scope, and the rows of an exact scan or the candidates |
| Answers.QueryRefines | deepiri_memorymesh/sync_service.py:536-690 | every query in every strategy gives on an encrypted database, in any order of its rows, the same error, or the same report and the same ranking up to ties at the cut, as on its plaintext in any order of its rows, and never meets an unreadable row; the answers are equal for all orders exactly when nothing ties there |
| Answers.RanksDecide | deepiri_memorymesh/storage.py:1163-1216 | two queries that read the same rows, ids aside, rank alike up to ties at the cut whatever the orders, and alike for all orders exactly when nothing ties there |
| TiedAnswers.OrderDecides | deepiri_memorymesh/storage.py:1163-1216 | two consistent stores, one the encrypted form of the other, in which "foo bar" and "bar foo" have one hash embedding: an exact query for one row answers either, as its order has it, and an indexed one in id order the first |
| QueryScope.ExactScanCoversScope | deepiri_memorymesh/sync_service.py:632-656 | an exact scan returns exactly the rows of a scope it honours, in whatever order |
| QueryScope.ExactScanScopeExactly | deepiri_memorymesh/sync_service.py:632-656 | exact scans return the rows of the scope, in whatever order, on every consistent plaintext database exactly for scopes without role, or with provider and conversation |
| QueryScope.OtherRoleIsMissed | deepiri_memorymesh/sync_service.py:632-656 | a consistent database on which the scope has no row and the exact scan returns the row of another role |
| QueryScope.IndexedRowsAreExactRows | deepiri_memorymesh/sync_service.py:581-690 | indexed retrieval ranks the exact rows restricted to the candidates, whatever the orders of the two scans |
| Retrieval.IndexedEqualsExact | deepiri_memorymesh/sync_service.py:581-690 | in an honoured scope whose embedded messages all share a word with the query and fit the limit, a query by index and an exact query give the same error or the same ranking up to ties at the cut, whatever the orders of the two scans, and the same ranking for all orders exactly when nothing ties there |
| Placing.SourceNumbered | deepiri_memorymesh/sync_service.py:581-690 | a query of the database whose messages are renamed by their places has the same plan and ranks the same rows, renamed |
| Placing.SelectionNumbered | deepiri_memorymesh/search_index.py:290-335 | the candidates there are the same messages in the same order |
| Placing.ListingNumbered | deepiri_memorymesh/storage.py:705-720 | a listing there is the same messages in the same order |
| QueryScope.OneRowPerCandidate | deepiri_memorymesh/storage.py:1178-1216 | each candidate contributes exactly one row |
| QueryScope.ReportAddsUp | deepiri_memorymesh/sync_service.py:581-690 | in every outcome scored embeddings equal candidates, and an indexed query stays within its limit |
| FacadeRuns.FacadeRunsAreUnique | deepiri_memorymesh/storage.py:162-176 | over every interleaving of the statements of facade calls under one write lock, stopped anywhere and retried a bounded number of times: contents unique per namespace, one owned committed row and embedding per inserting call, duplicates point at existing rows, stopped calls leave nothing, invariant kept |
| FacadeRuns.InsertingStore | deepiri_memorymesh/storage.py:1587-1777 | an inserting facade transaction adds one message with unseen content and one embedding for it |
| Batches.BatchCounts | deepiri_memorymesh/storage.py:505-703 | which rows a batch leaves and under which ids, record by record, in either mode: without a key every record offered takes an id, with one every record stored |
| Batches.MixedBatch | deepiri_memorymesh/storage.py:505-703 | a batch whose records do not keep each other out adds those that no row keeps out, in order, with exactly those ids |
| Batches.CleanBatchAppends | deepiri_memorymesh/storage.py:505-703 | records that clash with nothing are appended in order, one row each, with growing ids from above SQLite's counter |
| Batches.SeenBatchChangesNothing | deepiri_memorymesh/storage.py:505-703 | a batch of records that each clash with a row changes nothing but SQLite's counter, which moves on by one for each |
| Bundle.FlattenMessages | deepiri_memorymesh/sync_service.py:1100-1133 | the loop turns entries into records; it takes exactly the objects with a content and counts the rest as malformed |
| Bundle.BareEntry | deepiri_memorymesh/sync_service.py:1110-1130 | what an entry with a content and nothing else becomes: provider and conversation "bundle", role "unknown", the clock, an empty object, no source key |
| Bundle.ImportSummaries | deepiri_memorymesh/sync_service.py:1140-1174 | the upsert loop puts every well-formed summary in; inserted is the growth of the table, inserted and updated together are the entries with text, conversation and technique, the rest is malformed |
| Bundle.ImportBundleWithReport | deepiri_memorymesh/sync_service.py:1046-1180 | every entry is counted once under what happened to it, messages and summaries inserted are the growth of their tables, malformed are the entries without the required form, and the tables are the imported ones |
| BundleMoves.ImportLands | deepiri_memorymesh/sync_service.py:1087-1087 | whatever the bundle and the store: every message an import adds and every summary it adds or changes belongs to the override, else to the bundle's own project, else to "default"; all other rows stay |
| BundleMoves.MovedRoundTrip | deepiri_memorymesh/sync_service.py:977-1180 | an exported project imported into an empty plaintext store under any override is listed in the project it goes to exactly as it was in its own, messages and summaries, in order |
| BundleMoves.BundleRoundTrip | deepiri_memorymesh/sync_service.py:977-1180 | a project with unique rows and no empty field, imported into an empty plaintext store, is listed as it was, messages and summaries, in order |
| Bundle.ImportAgain | deepiri_memorymesh/sync_service.py:1046-1180 | importing the same bundle again changes no row; SQLite's counter moves on by one for every message |
| Listings.MessagesOfRefines | deepiri_memorymesh/storage.py:705-720 | listing a project on an encrypted database reads every row and gives the listing of its plaintext |
| Listings.SummariesReadRefines | deepiri_memorymesh/storage.py:1086-1098 | the same for summaries |
| Listings.SealedFileOpensExactly | deepiri_memorymesh/sync_service.py:977-1080 | a bundle exported from an encrypted store opens as the plaintext bundle exactly under the same master key and for a project with a name; otherwise with the stated error |
| Bundle.ListedMessages | deepiri_memorymesh/storage.py:705-720 | a listing holds each row of the project once, by timestamp, then id |
| Bundle.ListedSummaries | deepiri_memorymesh/storage.py:1086-1098 | a listing holds each summary of the project once, latest first |
| Listings.PlainFileOpens | deepiri_memorymesh/sync_service.py:977-1080 | an export that is not sealed says what the plaintext store would say and opens for everybody |
| Migrations.ValidateHistoryExactly | deepiri_memorymesh/migrations.py:419-455 | the history check accepts exactly the prefixes of the migration list, and returns their length |
| Migrations.MigrateSucceedsExactly | deepiri_memorymesh/migrations.py:570-798 | a migration succeeds exactly when the file is classified and, where it has a history, every pending version finds the tables, columns and unique rows its statements need |
| Migrations.AlteredFileFails | deepiri_memorymesh/migrations.py:223-233 | a version 1 file whose message table lost its columns is classified and fails at version 2 |
| Migrations.MigrateCorrect | deepiri_memorymesh/migrations.py:662-798 | a successful migration ends at the latest version with the counter in step, keeps all user rows, and applies exactly the missing versions, which are those a dry run calls pending |
| Schemas.ClassifiedExactly | deepiri_memorymesh/migrations.py:570-612 | which files are migrated and from which version: a history that is a prefix of the list, no table at all, or exactly the four tables, columns and two indexes of the unversioned schema, which alone is adopted |
| Schemas.SchemaExactly | deepiri_memorymesh/migrations.py:151-380 | a successful migration leaves the schema it found with exactly the tables, columns and indexes of the versions it applied, given as a table of versions |
| Schemas.FreshSchema | deepiri_memorymesh/migrations.py:151-380 | a new file in full: ten tables with their columns, eight indexes, seven named versions in order, no row, one line of metadata |
| Schemas.MigrationEstablishesKeys | deepiri_memorymesh/migrations.py:151-233 | a migration keeps every unique index true of the rows; a file with the indexes of its version ends with all eight, and its messages have both unique keys, its embeddings theirs |
| Schemas.MigratedIsConsistent | deepiri_memorymesh/migrations.py:662-798 | a file from before version 3 with good keys comes out as a consistent plaintext database, the state every run of a store starts from |
| Schemas.FreshIsConsistent | deepiri_memorymesh/migrations.py:662-798 | so does a new file |
| Schemas.MigrationStaysGrounded | deepiri_memorymesh/migrations.py:151-380 | a migration that succeeds leaves no index on a table or column that is missing, and none of its own rows in a table without all its columns |
| Schemas.EarlierFilesMigrate | deepiri_memorymesh/migrations.py:662-798 | a file with the schema that any version made can be migrated, whatever its rows |
| Migrations.MigrateTwice | deepiri_memorymesh/migrations.py:702-718 | a second run changes nothing and reports no change |
| Migrations.MigrateIndexes | deepiri_memorymesh/migrations.py:236-255 | migrating a database from before version 3 leaves the exact index of its messages |
| Migrations.FreshMigrates | deepiri_memorymesh/migrations.py:662-798 | creating a database from nothing always succeeds and reports every version |
| Migrations.AdoptionReachesFreshSchema | deepiri_memorymesh/migrations.py:89-148 | an adopted unversioned baseline cannot fail to migrate and ends with the schema of a fresh database |
| Schemas.AdoptedSchema | deepiri_memorymesh/migrations.py:89-148 | that schema in full: the ten tables with their columns and the eight indexes beside its own |
| Migrations.MigrationFile.ApplyPending | deepiri_memorymesh/migrations.py:759-776 | the loop applies and records the pending versions in order |
| Migrations.MigrationFile.Migrate | deepiri_memorymesh/migrations.py:662-798 | the whole migration, or the unchanged file when any version or the commit fails |
| MigrationRuns.MigratorsSerialise | deepiri_memorymesh/migrations.py:691-798 | in every interleaving of migrators the committed file is the initial one or its one complete migration, by one process that reports the missing versions; no other finished process applied anything |
| MigrationRuns.HistoryOnlyGrows | deepiri_memorymesh/migrations.py:691-798 | the recorded history only grows |
| Aider.ParseAiderChatHistory | deepiri_memorymesh/providers/aider.py:170-275 | the line loop over three buffers computes the turns |
| Aider.MakeTurnSucceeds | deepiri_memorymesh/providers/aider.py:124-139 | the record maker never refuses what the flush lets through |
| Aider.RunKeeps | deepiri_memorymesh/providers/aider.py:192-270 | at every line at most one buffer is in use, ordinals are 1..n, and finished turns are only added |
| Aider.FinishAddsOne | deepiri_memorymesh/providers/aider.py:272-275 | the end of the file adds at most the pending turn |
| Aider.PrefixStability | deepiri_memorymesh/providers/aider.py:192-275 | whatever lines follow, the turns finished while reading a prefix stay as they are in every field; at most one more turn changes, keeping place, role, header and its text as a prefix |
| Aider.Ordinals | deepiri_memorymesh/providers/aider.py:200-218 | turns are numbered 1..n and none is blank |
| AiderGroups.ParseIsGrouping | deepiri_memorymesh/providers/aider.py:192-275 | the three buffers compute a definition without buffers: the turns are the nonblank maximal runs of lines of one speaker, in order, numbered from 1, each with its whole text and the session in force at its end |
| AiderRows.MarkersSpeak | deepiri_memorymesh/providers/aider.py:228-270 | outside fences the marker of a line says who speaks it: "#### " the user, "> " a tool, none the assistant |
| AiderRows.ThreeVoices | deepiri_memorymesh/providers/aider.py:140-167 | a question, a tool's output and an answer become three messages, of "user", "system" and "assistant", with the trimmed texts, from the epoch's first microsecond on |
| Aider.HeaderMovesPendingTurn | deepiri_memorymesh/providers/aider.py:237-244 | a session header read while a turn is pending changes that turn's session and nothing else |
| AiderIngest.SourceKeyExactly | deepiri_memorymesh/providers/aider.py:58-67 | two turns of a file share a source key exactly when ordinal, role and content digest agree |
| AiderIngest.TimestampExactly | deepiri_memorymesh/providers/aider.py:100-121 | timestamps agree exactly when the session second and the capped ordinals do |
| AiderIngest.ListingOrderIsTurnOrder | deepiri_memorymesh/providers/aider.py:100-121 | within one session, up to the cap, timestamps sort as the turns |
| AiderIngest.TurnsClashExactly | deepiri_memorymesh/providers/aider.py:113-113 | two turns collide in the store exactly when both are past the cap and say the same in the same role and second |
| CapFile.LinesParse | deepiri_memorymesh/providers/aider.py:170-275 | a generated file of any length parses to as many turns of the user, alike but for their ordinals |
| CapFile.CapLosesTurns | deepiri_memorymesh/providers/aider.py:113-113 | reading that file into a new conversation of a consistent store: without encryption exactly its first 999,999 turns are stored, so the last of 1,000,000 is lost; with encryption all are |
| Reingest.ReadingAppendsNewTurns | deepiri_memorymesh/storage.py:505-703 | a reading appends exactly the turns whose source key is not stored yet, in order, in a plaintext store under the ids after the counter at their places in the file, in an encrypted one under the next ids: to a plaintext store whose rows of the conversation come from readings, up to 999,999 turns, and to an encrypted store always |
| Reingest.EveryTurnOnce | deepiri_memorymesh/providers/aider.py:170-275 | after any readings of a file, whatever they say, every turn of every reading is stored exactly once, earlier rows are untouched, and every added row is a turn of a reading |
| AiderRows.AddedRowsTell | deepiri_memorymesh/providers/aider.py:124-167 | every row a reading adds is one of the file's turns: the role "user", "system" or "assistant" of its speaker, the trimmed text, its key and time, and metadata with the provider's own role, header, ordinal, file and origin of the time |
| AiderRows.AllRowsTell | deepiri_memorymesh/providers/aider.py:124-167 | the same for every row added over any readings of any versions of a file |
| GrownFile.ReingestGrownFile | deepiri_memorymesh/providers/aider.py:170-275 | when a file read before has grown, reading it again leaves the old rows and adds one row for each of the turns that are new or grew, in order |
| GrownFile.ReingestChain | deepiri_memorymesh/providers/aider.py:170-275 | over any readings of a growing file into a store new to its conversation, the conversation consists of turns of its versions and holds all turns of the latest |
| GrownFile.ReingestStoresOnce | deepiri_memorymesh/providers/aider.py:170-275 | over any versions of a file every source key occurs once |
| AiderText.SplitLinesAppend | deepiri_memorymesh/providers/aider.py:228-228 | appending to a file with a complete last line only adds lines |
| AiderText.SplitLinesMeaning | deepiri_memorymesh/providers/aider.py:228-228 | the lines of a text are cut exactly after its line breaks, a carriage return and newline being one, and joined they are the text |
| AiderText.WholeLinesStay | deepiri_memorymesh/providers/aider.py:228-228 | appending to any text keeps all its lines but the last |
| AiderText.TextStability | deepiri_memorymesh/providers/aider.py:192-275 | the turns settled by the whole lines of a text stay whatever is appended, and at most two turns of its reading are not among them |
| AiderText.ReingestGrownText | deepiri_memorymesh/providers/aider.py:170-275 | re-ingesting a text that grew, its last line complete or not: the old rows stay, none of the turns settled by its whole lines is added again, of the others exactly those whose key is not stored, one row each |
| AiderText.FenceLeavesOldTurns | deepiri_memorymesh/providers/aider.py:228-233 | a last line of two backticks that becomes a fence merges two turns; the store then holds the two old turns and the merged one |
| Hooks.ConfigFile.AppendOwnedCommandHook | deepiri_memorymesh/integrations.py:147-170 | the edit in place, with its error when "hooks" or the event is not the expected container |
| Hooks.ConfigFile.AppendOwnedStopHook | deepiri_memorymesh/integrations.py:173-185 | the edit in place |
| Hooks.ConfigFile.RemoveOwnedHookEntries | deepiri_memorymesh/integration_install.py:725-750 | the nested loops drop exactly the owned entries of every event list |
| Hooks.OwnEntries | deepiri_memorymesh/integrations.py:139-185 | what the editors append is replaced by a later append and dropped by a removal of the same installation |
| Hooks.RemoveAfterAppend | deepiri_memorymesh/integration_install.py:725-750 | removing after appending is removing alone, on every configuration |
| Hooks.UndoExactly | deepiri_memorymesh/integration_install.py:725-750 | removing after appending restores the configuration up to defaulted keys exactly when the id did not occur in it |
| Hooks.RemoveChangesNothingExactly | deepiri_memorymesh/integration_install.py:725-750 | removal changes nothing exactly where the installation is absent |
| Hooks.RemovedEntries | deepiri_memorymesh/integration_install.py:732-749 | a removal leaves in each event list, in order, exactly the entries that do not name the installation, neither in their marker nor anywhere in their text; what is no object stays |
| Hooks.AppendTwice | deepiri_memorymesh/integrations.py:147-185 | appending again under one id changes nothing |
| Hooks.RemoveCommutesWithAppend | deepiri_memorymesh/integration_install.py:725-750 | removing one installation and appending another commute |
| Hooks.AppendsCommute | deepiri_memorymesh/integrations.py:147-185 | appends of two installations commute up to the order of the two new entries, after all kept entries in their order |
| Hooks.AppendTouchesOnlyItsEntries | deepiri_memorymesh/integrations.py:147-185 | other keys, other events and entries of others stay as they are |
| InstallPlan.PlanIsSound | deepiri_memorymesh/integration_install.py:306-484 | a plan writes each file once, inside the provider's own files, records what was there, and edits a configuration only where it generates nothing |
| InstalledFiles.InstalledContents | deepiri_memorymesh/integration_install.py:306-484 | for every provider: after a completed installation bridge, hook, wrapper and plug-in each hold the script rendered for their own role, label, project, URL and id, and the settings file's event list ends in the one entry of this installation, which runs the hook script and carries the marker |
| InstalledFiles.EditedRunsHook | deepiri_memorymesh/integrations.py:139-185 | what a provider's editor makes of any configuration it accepts: "stop" for Cursor, "SessionEnd" for the others, one entry of ours at the end |
| InstallPlan.FootprintsDisjoint | deepiri_memorymesh/integration_install.py:306-484 | no file belongs to two providers |
| Install.BackUp | deepiri_memorymesh/integration_install.py:610-620 | backs up every existing destination without overwriting, or stops |
| Install.RollbackInstall | deepiri_memorymesh/integration_install.py:487-517 | from any point of the transaction the files return to what they were |
| Install.InstallTransaction | deepiri_memorymesh/integration_install.py:607-722 | when it succeeds; on success exactly the planned files, backups and manifest; on a failure between any two effects the files of before |
| Install.RestoreFromBackup | deepiri_memorymesh/integration_install.py:982-1022 | the restore loop, with confirmation and missing manifest; everything is restored exactly when no backup is foreign, otherwise exactly the edits before the first foreign one |
| Install.RestoreReturnsOriginals | deepiri_memorymesh/integration_install.py:982-1022 | restoring brings every file that existed before the installation back to its earlier bytes, whatever happened to it since |
| Install.RestoreKeepsReplaced | deepiri_memorymesh/integration_install.py:1012-1016 | whatever stood at a restored file's place just before is kept in its safety copy |
| Uninstall.UninstallTransaction | deepiri_memorymesh/integration_install.py:753-960 | when it fails; a failure up to the deletion of the manifest restores every file; otherwise exactly the cleaned configurations and removed files |
| Uninstall.RollbackUninstall | deepiri_memorymesh/integration_install.py:928-942 | originals restored and quarantine undone give the files of before |
| Uninstall.UninstallStaysInside | deepiri_memorymesh/integration_install.py:798-900 | no path outside the manifest's files and edits changes |
| Uninstall.UnforcedPreservesModified | deepiri_memorymesh/integration_install.py:857-870 | without force a file whose bytes changed is never removed and the manifest stays |
| Uninstall.ForcedLeavesNothing | deepiri_memorymesh/integration_install.py:753-960 | a forced uninstall, also after an unforced one, leaves no generated file and no manifest |
| InstallRuns.InstallNative | deepiri_memorymesh/integration_install.py:520-722 | the entry point in place: no-op, refusal, failed update, plan error, exception, dry run, rollback or installation, exactly when each, and the files it leaves; a success verifies and has every script and hook in place |
| InstallRuns.UninstallNative | deepiri_memorymesh/integration_install.py:753-960 | the entry point in place, by provider or by id |
| InstallRuns.VerifyInstallation | deepiri_memorymesh/integration_install.py:245-267 | the loop finds exactly whether every generated file is there with its recorded hash |
| InstallRuns.RunsStayTidy | deepiri_memorymesh/integration_install.py:216-267 | over every run of installs and uninstalls with any flags and faults there is at most one manifest per provider, each describing only its provider's files |
| InstallRuns.VerifiedStaysVerified | deepiri_memorymesh/integration_install.py:544-722 | a verified installation stays verified under operations that do not concern its provider |
| InstallRuns.NewInstallationVerifies | deepiri_memorymesh/integration_install.py:628-706 | a new installation verifies |
| InstallRuns.InstalledNamesItself | deepiri_memorymesh/integration_install.py:628-646 | an installation succeeds only if each of the provider's files names it |
| InstallRuns.InstalledIsFound | deepiri_memorymesh/integration_install.py:544-575 | after an installation the provider's manifest is found, and a later request is the same exactly when project, URL and token file are |
| InstallRuns.DryRunExactly | deepiri_memorymesh/integration_install.py:576-605 | when a dry run leaves the files alone |
| InstallRuns.DryRunUpdateUninstalls | deepiri_memorymesh/integration_install.py:562-605 | a dry-run update of a plug-in just installed and verified uninstalls it |
| InstallRuns.ThereAndBack | deepiri_memorymesh/integration_install.py:520-960 | installing and uninstalling leaves no generated file and no manifest; what stood at a planned path before, a user's own file included, is in its backup with its old bytes; everything else is as before except the edited configuration |
| InstallRuns.ConfigComesBackExactly | deepiri_memorymesh/integration_install.py:725-750 | after installing and uninstalling, the configuration is the earlier one up to defaulted keys and layout exactly when the new id did not occur in it |

## Left out

- Runs.RunsRefinePlaintext: plain batches inserted while encrypted must meet the agreement condition of Ids.ModesAgreeExactly; Runs.RunsFollowRule has no such condition, and compares with the duplicate rule of the mode instead.
- Runs.RunsFollowRule: no two keys in use share an identifier; without that a key that only shares it is let in (Runs.ResolveExactly) and leaves the database unprotected (StaleSessions.WriteNeedsCurrentSession).
- GrownFile.ReingestGrownFile: the 16-character content digest is an arbitrary function; a grown turn whose digest is that of an earlier version counts as stored, which FirstNew says.
- Bundle.ImportBundleWithReport: starts from the opened payload; opening a sealed file is Listings.SealedFileOpensExactly; entry fields are strings or missing.
- Migrations.MigrateSucceedsExactly: column types, NOT NULL and foreign keys are not modelled, only which tables, columns, indexes and unique rows there are.
- Store.MemoryStore.InsertMessages: models the schema of version 4 and later; the branches for databases without the source_key or content_fingerprint columns are not modelled.
- Install.InstallTransaction: failures fall between effects; a backup copy that breaks halfway and leaves a partial backup file is not modelled.
- Uninstall.UninstallTransaction: the deletion of quarantined files after the manifest is gone is taken to succeed; before that, failures fall between effects.
- BundleMoves.MovedRoundTrip: summaries must have one row per conversation, as upsert_summary keeps them; equal creation times are listed in row order, which SQL leaves open.
- Cryptographic computation, key files, random nonces (one per field and operation, given as a function), VACUUM and backup files of the database.
- JSON text and base64: documents are values, and the JSON text of a whole bundle is given with its parser; an envelope is one glyph of a text, so whitespace around an envelope is not modelled.
- Floating point: vectors and scores are reals with a square root given by its defining property.
- Regular expressions, stop words, Unicode case folding, token hashing and timestamp parsing: functions or word lists given as parameters.
- The bookkeeping columns algorithm, envelope_version and updated_at of encryption_meta; SQLite's counters of the other tables, whose ids the code always computes itself.
- Which order SQLite's planner gives a join: the theorems hold for all of them. The texts and order of the reasons in a ranking report: its counters are modelled.
- The ids of exported messages: an import ignores them.
- mesh_search and the other cross-project queries, compression, catalog, conversation listings, HTTP service, command line, templates of generated scripts.
- parse_aider_input_history and the JSON provider parsers.
- File modes, fsync, staging files, empty directories, symbolic links, token-file validation, and normalisation of provider names in the installer.
- Key order inside JSON objects; a manifest text never stands where a configuration is expected.
- Backups and WAL mode of migrate.
