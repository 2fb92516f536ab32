/** What was saved is what is read: embeddings, summaries and agent state after a write, and everything else as before
    (storage.py). */
module ReadBack {
  import opened Basics
  import opened Crypto
  import opened Rows
  import opened Fields
  import opened Simulation

  /** The row has this key and reads as this text. */
  predicate Reads<K(==)>(s: Session, row: Row<K>, key: K, plain: Text, site: Site) {
    row.key == key && ReadText(s.ctx, row.body, site, row.id) == Ok(plain)
  }

  /** The rows about something else are as they were, and no row changed its id. */
  predicate OthersKept<K(==)>(before: seq<Row<K>>, after: seq<Row<K>>, about: K -> bool) {
    && |before| <= |after|
    && (forall i :: 0 <= i < |before| ==> after[i].id == before[i].id && (!about(before[i].key) ==> after[i] == before[i]))
    && (forall i :: |before| <= i < |after| ==> about(after[i].key))
  }

  /** A new row gets the id after the largest. */
  predicate NextAfter<K>(rows: seq<Row<K>>, id: nat) {
    && (forall i :: 0 <= i < |rows| ==> rows[i].id < id)
    && (id == 1 || exists i :: 0 <= i < |rows| && rows[i].id + 1 == id)
  }

  lemma {:induction false} NextIsAfter<K>(rows: seq<Row<K>>)
    ensures NextAfter(rows, NextRowId(rows))
  {
    if rows != [] {
      var n := |rows| - 1;
      NextIsAfter(rows[..n]);
      if rows[n].id <= MaxRowId(rows[..n]) && MaxRowId(rows) > 0 {
        var i :| 0 <= i < n && rows[..n][i].id + 1 == NextRowId(rows[..n]);
        assert rows[i].id + 1 == NextRowId(rows);
      }
    }
  }

  lemma AddedReads<K>(s: Session, rows: seq<Row<K>>, key: K, plain: Text, site: Site, nonces: Nonces, about: K -> bool)
    requires about(key)
    ensures var after := AddRow(s, rows, key, plain, site, nonces);
            && |after| == |rows| + 1 && Reads(s, after[|rows|], key, plain, site) && OthersKept(rows, after, about)
            && NextAfter(rows, after[|rows|].id)
  {
    NextIsAfter(rows);
    WrittenIsRead(s.ctx, plain, site, NextRowId(rows), nonces);
  }

  lemma PutReads<K>(s: Session, rows: seq<Row<K>>, i: nat, key: K, plain: Text, site: Site, nonces: Nonces, about: K -> bool)
    requires i < |rows| && about(key) && about(rows[i].key)
    ensures var after := PutRow(s, rows, i, key, plain, site, nonces);
            |after| == |rows| && Reads(s, after[i], key, plain, site) && OthersKept(rows, after, about)
  {
    WrittenIsRead(s.ctx, plain, site, rows[i].id, nonces);
  }

  // ----- embeddings -----

  function OfMessage(id: nat): nat -> bool {
    (key: nat) => key == id
  }

  /** Saving an embedding makes it the one that is read for the message, whether it is the message's first or replaces
      another; the embeddings of other messages stay, and nothing but embeddings changes. */
  lemma EmbeddingReadBack(db: Tables, s: Session, id: nat, json: Text, nonces: Nonces)
    requires UniqueEmbeddings(db.embeddings) && SaveEmbedding(db, s, id, json, nonces).Ok?
    ensures var after := SaveEmbedding(db, s, id, json, nonces).value;
            && after == db.(embeddings := after.embeddings) && OthersKept(db.embeddings, after.embeddings, OfMessage(id))
            && (exists i :: 0 <= i < |after.embeddings| && after.embeddings[i].key == id)
            && (forall i :: 0 <= i < |after.embeddings| && after.embeddings[i].key == id ==>
                  Reads(s, after.embeddings[i], id, json, EmbeddingJson))
  {
    match FirstIndex(db.embeddings, (r: EmbeddingRow) => r.key == id)
    case Some(i) =>
      PutReads(s, db.embeddings, i, id, json, EmbeddingJson, nonces, OfMessage(id));
      forall j | 0 <= j < |db.embeddings| && j != i
        ensures db.embeddings[j].key != id
      {
        assert db.embeddings[if i < j then i else j].key != db.embeddings[if i < j then j else i].key;
      }
    case None => AddedReads(s, db.embeddings, id, json, EmbeddingJson, nonces, OfMessage(id));
  }

  // ----- summaries -----

  function OfConversation(project: string, conversation: string): SummaryKey -> bool {
    (key: SummaryKey) => key.project == project && key.conversation == conversation
  }

  /** After an upsert every row of the conversation, and there is one, has the new text, technique and creation time; the
      flag says whether the one row is new; other conversations stay, and nothing but summaries changes. */
  lemma SummaryReadBack(db: Tables, s: Session, rec: Summary, nonces: Nonces)
    ensures var (after, inserted) := UpsertSummary(db, s, rec, nonces);
            && after == db.(summaries := after.summaries)
            && OthersKept(db.summaries, after.summaries, OfConversation(rec.project, rec.conversation))
            && (inserted <==> forall i :: 0 <= i < |db.summaries| ==> !SummaryFor(db.summaries[i], rec))
            && |after.summaries| == |db.summaries| + (if inserted then 1 else 0)
            && (exists i :: 0 <= i < |after.summaries| && SummaryFor(after.summaries[i], rec))
            && (forall i :: 0 <= i < |after.summaries| && SummaryFor(after.summaries[i], rec) ==>
                  Reads(s, after.summaries[i], SummaryKey(rec.project, rec.conversation, rec.technique, rec.createdAt), rec.text, SummaryText))
  {
    var (after, inserted) := UpsertSummary(db, s, rec, nonces);
    var key := SummaryKey(rec.project, rec.conversation, rec.technique, rec.createdAt);
    if inserted {
      AddedReads(s, db.summaries, key, rec.text, SummaryText, nonces, OfConversation(rec.project, rec.conversation));
      assert SummaryFor(after.summaries[|db.summaries|], rec);
    } else {
      forall i | 0 <= i < |db.summaries|
        ensures SummaryFor(after.summaries[i], rec) <==> SummaryFor(db.summaries[i], rec)
        ensures SummaryFor(after.summaries[i], rec) ==> Reads(s, after.summaries[i], key, rec.text, SummaryText)
      {
        WrittenIsRead(s.ctx, rec.text, SummaryText, db.summaries[i].id, nonces);
      }
      var k :| 0 <= k < |db.summaries| && SummaryFor(db.summaries[k], rec);
      assert SummaryFor(after.summaries[k], rec);
    }
  }

  // ----- agent state -----

  function OfSlot(key: AgentKey): AgentKey -> bool {
    (k: AgentKey) => SameSlot(k, key)
  }

  /** The slot's row after a write: the first of the old ones, or a new one. */
  lemma SlotWritten(db: Tables, s: Session, key: AgentKey, value: Text, nonces: Nonces)
    ensures var after := SetAgentState(db, s, key, value, nonces).agents;
            && OthersKept(db.agents, after, OfSlot(key))
            && exists i :: 0 <= i < |after| && Reads(s, after[i], key, value, AgentValue)
                           && forall j :: 0 <= j < i ==> !SameSlot(after[j].key, key)
  {
    var after := SetAgentState(db, s, key, value, nonces).agents;
    match FirstIndex(db.agents, (r: AgentRow) => SameSlot(r.key, key))
    case Some(i) =>
      PutReads(s, db.agents, i, key, value, AgentValue, nonces, OfSlot(key));
      assert Reads(s, after[i], key, value, AgentValue);
    case None =>
      AddedReads(s, db.agents, key, value, AgentValue, nonces, OfSlot(key));
      assert Reads(s, after[|db.agents|], key, value, AgentValue);
  }

  lemma FirstIndexIs<T>(xs: seq<T>, f: T -> bool, i: nat)
    requires i < |xs| && f(xs[i]) && forall j :: 0 <= j < i ==> !f(xs[j])
    ensures FirstIndex(xs, f) == Some(i)
  {
  }

  lemma FirstIndexKept(before: seq<AgentRow>, after: seq<AgentRow>, key: AgentKey, other: AgentKey)
    requires OthersKept(before, after, OfSlot(key)) && !SameSlot(other, key)
    requires forall i :: 0 <= i < |before| && OfSlot(key)(before[i].key) ==> OfSlot(key)(after[i].key)
    ensures FirstIndex(after, (r: AgentRow) => SameSlot(r.key, other)) == FirstIndex(before, (r: AgentRow) => SameSlot(r.key, other))
  {
    var f := (r: AgentRow) => SameSlot(r.key, other);
    match FirstIndex(before, f)
    case Some(i) =>
      assert after[i] == before[i];
      FirstIndexIs(after, f, i);
    case None =>
  }

  /** What is set is read back under the slot's own name, with the time it was set; other slots read as before. */
  lemma AgentReadBack(db: Tables, s: Session, key: AgentKey, value: Text, nonces: Nonces, other: AgentKey)
    requires !SameSlot(other, key)
    ensures var after := SetAgentState(db, s, key, value, nonces);
            && after == db.(agents := after.agents) && OthersKept(db.agents, after.agents, OfSlot(key))
            && GetAgentState(after, s, key) == Ok(Some(value)) && (exists i :: 0 <= i < |after.agents| && after.agents[i].key == key)
            && GetAgentState(after, s, other) == GetAgentState(db, s, other)
  {
    var after := SetAgentState(db, s, key, value, nonces);
    SlotWritten(db, s, key, value, nonces);
    var i :| 0 <= i < |after.agents| && Reads(s, after.agents[i], key, value, AgentValue)
             && forall j :: 0 <= j < i ==> !SameSlot(after.agents[j].key, key);
    FirstIndexIs(after.agents, (r: AgentRow) => SameSlot(r.key, key), i);
    FirstIndexKept(db.agents, after.agents, key, other);
  }
}
