/** Concurrent facade stores (storage.py): each call runs its statements in a write transaction that only one
    can hold, may be stopped between any two of them, and retries while the database is busy. */
module FacadeRuns {
  import opened Basics
  import opened Crypto
  import opened Tokenizer
  import opened Rows
  import opened Inserts
  import opened Fields
  import opened Simulation

  const BUSY_RETRY_ATTEMPTS := 8

  /** One call of store_facade_memory_with_embedding. */
  datatype Call = Call(record: Record, embedding: Text, nonces: Nonces)

  /** How far the transaction of a call has come. */
  datatype Stage =
    | Begun
    | Missing
    | Found(id: nat)
    | MessageIn(id: nat)
    | EmbeddingIn(id: nat)
    | TermsIn(id: nat)

  /** Failed on a busy database so often; working on an uncommitted copy of the tables; gave up; or finished. */
  datatype Status =
    | Waiting(failed: nat)
    | Working(failed: nat, copy: Tables, stage: Stage)
    | GaveUp
    | Finished(outcome: Result<Stored, Failure>)

  /** The committed tables, the holder of the write lock, and the calls. */
  datatype System = System(db: Tables, lock: Option<nat>, status: seq<Status>)

  /** A call begins its transaction, finds the database busy, runs its next statement, breaks off, or commits. */
  datatype Event = Begin(call: nat) | Busy(call: nat) | Statement(call: nat) | Abort(call: nat) | Commit(call: nat)

  function Update(sys: System, i: nat, st: Status): System
    requires i < |sys.status|
  {
    sys.(status := sys.status[i := st])
  }

  function Retried(failed: nat): Status {
    if failed + 1 >= BUSY_RETRY_ATTEMPTS then GaveUp else Waiting(failed + 1)
  }

  predicate CanAppend(call: Call, s: Session, db: Tables) {
    !ClashesWith(db.messages, StoredMessage(s, NextId(db, s), call.record, call.nonces))
  }

  function WithMessage(call: Call, s: Session, db: Tables): Tables {
    db.(messages := db.messages + [StoredMessage(s, NextId(db, s), call.record, call.nonces)],
        sequence := Larger(db.sequence, NextId(db, s)))
  }

  /** The next statement of a transaction; an error rolls it back. */
  function NextStatement(lex: Lexicon, call: Call, s: Session, w: Status): Status
    requires w.Working?
  {
    var r := call.record;
    match w.stage
    case Begun =>
      (match FindExact(w.copy, s, r.ns, r.content)
       case Some(id) => w.(stage := Found(id))
       case None => w.(stage := Missing))
    case Missing =>
      if !CanAppend(call, s, w.copy) then Finished(Err(Integrity))
      else w.(copy := WithMessage(call, s, w.copy), stage := MessageIn(NextId(w.copy, s)))
    case MessageIn(id) =>
      (match SaveEmbedding(w.copy, s, id, call.embedding, call.nonces)
       case Err(e) => Finished(Err(e))
       case Ok(copy) => w.(copy := copy, stage := EmbeddingIn(id)))
    case EmbeddingIn(id) =>
      w.(copy := w.copy.(terms := ReplaceTerms(lex, w.copy.terms, s, id, r.content)), stage := TermsIn(id))
    case _ => w
  }

  /** Events that cannot happen change nothing. */
  function Step(lex: Lexicon, calls: seq<Call>, ctx: Option<Context>, sys: System, e: Event): System
    requires |sys.status| == |calls|
  {
    if e.call >= |calls| then sys
    else
      var st := sys.status[e.call];
      match e
      case Begin(i) => if st.Waiting? && sys.lock == None then Update(sys, i, Working(st.failed, sys.db, Begun)).(lock := Some(i)) else sys
      case Busy(i) =>
        if st.Waiting? && sys.lock != None then Update(sys, i, Retried(st.failed))
        else if st.Working? then Update(sys, i, Retried(st.failed)).(lock := None)
        else sys
      case Statement(i) =>
        if st.Working? then
          var next := NextStatement(lex, calls[i], SessionOf(sys.db, ctx), st);
          Update(sys, i, next).(lock := if next.Working? then sys.lock else None)
        else sys
      case Abort(i) => if st.Working? then Update(sys, i, Finished(Err(Interrupted))).(lock := None) else sys
      case Commit(i) =>
        if st.Working? && st.stage.Found? then Update(sys, i, Finished(Ok(Duplicate(st.stage.id)))).(lock := None)
        else if st.Working? && st.stage.TermsIn? then Update(sys, i, Finished(Ok(Inserted(st.stage.id)))).(db := st.copy, lock := None)
        else sys
  }

  function Run(lex: Lexicon, calls: seq<Call>, ctx: Option<Context>, sys: System, events: seq<Event>): (r: System)
    requires |sys.status| == |calls|
    ensures |r.status| == |calls|
  {
    if events == [] then sys
    else Step(lex, calls, ctx, Run(lex, calls, ctx, sys, events[..|events| - 1]), events[|events| - 1])
  }

  function Start(db: Tables, calls: seq<Call>): System {
    System(db, None, seq(|calls|, i => Waiting(0)))
  }

  // ----- the ledger of rows and calls -----

  /** No two rows hold the same content in the same namespace. */
  predicate UniqueContent(plain: seq<MessageRow>) {
    forall i, j :: 0 <= i < j < |plain| ==> !(plain[i].ns == plain[j].ns && plain[i].content == plain[j].content)
  }

  predicate InsertedBy(status: seq<Status>, i: nat, id: nat) {
    i < |status| && status[i] == Finished(Ok(Inserted(id)))
  }

  predicate DuplicateOf(status: seq<Status>, i: nat, id: nat) {
    i < |status| && status[i] == Finished(Ok(Duplicate(id)))
  }

  predicate HoldsContent(m: MessageRow, call: Call) {
    m.ns == call.record.ns && m.content == call.record.content
  }

  predicate HasEmbedding(es: seq<EmbeddingRow>, id: nat, embedding: Text) {
    exists e :: 0 <= e < |es| && es[e].key == id && es[e].body == embedding
  }

  /** Row k is what call i inserted: its message and its embedding. */
  predicate OwnedBy(ms: seq<MessageRow>, es: seq<EmbeddingRow>, calls: seq<Call>, i: nat, k: nat) {
    k < |ms| && i < |calls| && HoldsContent(ms[k], calls[i]) && HasEmbedding(es, ms[k].id, calls[i].embedding)
  }

  predicate HasContent(ms: seq<MessageRow>, id: nat, call: Call) {
    exists k :: 0 <= k < |ms| && ms[k].id == id && HoldsContent(ms[k], call)
  }

  /** Rows from position n on are the calls' doing: every one was inserted by a finished call, every
      inserting call owns one, no two calls the same, and duplicates point at their content. */
  ghost predicate Ledger(calls: seq<Call>, status: seq<Status>, n: nat, ms: seq<MessageRow>, es: seq<EmbeddingRow>) {
    && |status| == |calls| && n <= |ms|
    && RowsHaveCalls(calls, status, n, ms, es) && CallsHaveRows(calls, status, n, ms, es)
    && OneCallPerRow(status) && DuplicatesExist(calls, status, ms) && RetriesBounded(status)
  }

  ghost predicate RowsHaveCalls(calls: seq<Call>, status: seq<Status>, n: nat, ms: seq<MessageRow>, es: seq<EmbeddingRow>) {
    forall k: nat :: n <= k < |ms| ==> RowHasCall(calls, status, ms, es, k)
  }

  ghost predicate RowHasCall(calls: seq<Call>, status: seq<Status>, ms: seq<MessageRow>, es: seq<EmbeddingRow>, k: nat)
    requires k < |ms|
  {
    exists i: nat :: InsertedBy(status, i, ms[k].id) && OwnedBy(ms, es, calls, i, k)
  }

  ghost predicate CallsHaveRows(calls: seq<Call>, status: seq<Status>, n: nat, ms: seq<MessageRow>, es: seq<EmbeddingRow>) {
    forall i: nat, id: nat :: InsertedBy(status, i, id) ==> exists k: nat :: n <= k && OwnedBy(ms, es, calls, i, k) && ms[k].id == id
  }

  ghost predicate OneCallPerRow(status: seq<Status>) {
    forall i: nat, j: nat, id: nat :: InsertedBy(status, i, id) && InsertedBy(status, j, id) ==> i == j
  }

  ghost predicate DuplicatesExist(calls: seq<Call>, status: seq<Status>, ms: seq<MessageRow>)
    requires |status| == |calls|
  {
    forall i: nat, id: nat :: DuplicateOf(status, i, id) ==> HasContent(ms, id, calls[i])
  }

  predicate Open(st: Status) {
    st.Waiting? || st.Working?
  }

  predicate RetriesBounded(status: seq<Status>) {
    forall i :: 0 <= i < |status| && Open(status[i]) ==> status[i].failed < BUSY_RETRY_ATTEMPTS
  }

  lemma OwnershipGrows(ms: seq<MessageRow>, es: seq<EmbeddingRow>, calls: seq<Call>, i: nat, k: nat, ms': seq<MessageRow>, es': seq<EmbeddingRow>)
    requires ms <= ms' && es <= es' && OwnedBy(ms, es, calls, i, k)
    ensures OwnedBy(ms', es', calls, i, k) && ms'[k] == ms[k]
  {
  }

  lemma ContentGrows(ms: seq<MessageRow>, ms': seq<MessageRow>, id: nat, call: Call)
    requires ms <= ms' && HasContent(ms, id, call)
    ensures HasContent(ms', id, call)
  {
  }

  lemma LedgerInsert(calls: seq<Call>, status: seq<Status>, n: nat, ms: seq<MessageRow>, es: seq<EmbeddingRow>,
                     i: nat, m: MessageRow, e: EmbeddingRow)
    requires Ledger(calls, status, n, ms, es) && i < |calls| && Open(status[i])
    requires forall k :: 0 <= k < |ms| ==> ms[k].id != m.id
    requires HoldsContent(m, calls[i]) && e.key == m.id && e.body == calls[i].embedding
    ensures Ledger(calls, status[i := Finished(Ok(Inserted(m.id)))], n, ms + [m], es + [e])
  {
    var status', ms', es' := status[i := Finished(Ok(Inserted(m.id)))], ms + [m], es + [e];
    assert es'[|es|] == e && ms'[|ms|] == m;
    assert OwnedBy(ms', es', calls, i, |ms|);
    forall k: nat | n <= k < |ms'|
      ensures RowHasCall(calls, status', ms', es', k)
    {
      if k < |ms| {
        assert RowHasCall(calls, status, ms, es, k);
        var j: nat :| InsertedBy(status, j, ms[k].id) && OwnedBy(ms, es, calls, j, k);
        OwnershipGrows(ms, es, calls, j, k, ms', es');
        assert InsertedBy(status', j, ms'[k].id);
      } else {
        assert InsertedBy(status', i, m.id);
      }
    }
    forall j: nat, d: nat | InsertedBy(status', j, d)
      ensures j != i ==> InsertedBy(status, j, d) && d != m.id
      ensures exists k: nat :: n <= k && OwnedBy(ms', es', calls, j, k) && ms'[k].id == d
    {
      if j != i {
        assert InsertedBy(status, j, d);
        var k: nat :| n <= k && OwnedBy(ms, es, calls, j, k) && ms[k].id == d;
        OwnershipGrows(ms, es, calls, j, k, ms', es');
      }
    }
    forall j: nat, d: nat | DuplicateOf(status', j, d)
      ensures HasContent(ms', d, calls[j])
    {
      assert DuplicateOf(status, j, d);
      ContentGrows(ms, ms', d, calls[j]);
    }
  }

  /** A status that inserts nothing leaves the ledger balanced. */
  lemma LedgerOther(calls: seq<Call>, status: seq<Status>, n: nat, ms: seq<MessageRow>, es: seq<EmbeddingRow>, i: nat, st: Status)
    requires Ledger(calls, status, n, ms, es) && i < |calls| && Open(status[i])
    requires !(st.Finished? && st.outcome.Ok? && st.outcome.value.Inserted?)
    requires Open(st) ==> st.failed < BUSY_RETRY_ATTEMPTS
    requires forall id: nat :: st == Finished(Ok(Duplicate(id))) ==> HasContent(ms, id, calls[i])
    ensures Ledger(calls, status[i := st], n, ms, es)
  {
    var status' := status[i := st];
    assert forall j: nat, d: nat :: InsertedBy(status', j, d) <==> InsertedBy(status, j, d);
    assert forall j: nat, d: nat :: j != i ==> (DuplicateOf(status', j, d) <==> DuplicateOf(status, j, d));
    forall k: nat | n <= k < |ms|
      ensures RowHasCall(calls, status', ms, es, k)
    {
      assert RowHasCall(calls, status, ms, es, k);
      var j: nat :| InsertedBy(status, j, ms[k].id) && OwnedBy(ms, es, calls, j, k);
      assert InsertedBy(status', j, ms[k].id);
    }
  }

  // ----- one transaction -----

  /** The message row and the embedding row, as plaintext, that an inserting call adds. */
  function NewMessage(call: Call, id: nat): MessageRow {
    StoredMessage(PLAIN, id, call.record, call.nonces)
  }

  function NewEmbedding(db: Tables, call: Call, id: nat): EmbeddingRow {
    Row(NextRowId(db.embeddings), id, call.embedding)
  }

  lemma FreshIdHasNoEmbedding(db: Tables, s: Session, i: nat)
    requires EmbeddingsOwned(db) && i < |db.embeddings|
    ensures db.embeddings[i].key != NextId(db, s)
  {
  }

  lemma PlainAppendMessages(lex: Lexicon, db: Tables, ctx: Option<Context>, call: Call)
    ensures Plain(Append(lex, db, SessionOf(db, ctx), call.record, call.nonces), ctx).messages
         == Plain(db, ctx).messages + [NewMessage(call, NextId(db, SessionOf(db, ctx)))]
  {
  }

  lemma PlainAddEmbedding(db: Tables, ctx: Option<Context>, call: Call, id: nat)
    ensures OpenRows(ctx, AddRow(SessionOf(db, ctx), db.embeddings, id, call.embedding, EmbeddingJson, call.nonces), EmbeddingJson)
         == Plain(db, ctx).embeddings + [NewEmbedding(db, call, id)]
  {
  }

  lemma SavesNewEmbedding(lex: Lexicon, db: Tables, ctx: Option<Context>, call: Call)
    requires EmbeddingsOwned(db)
    ensures var s := SessionOf(db, ctx);
            var id := NextId(db, s);
            var mid := Append(lex, db, s, call.record, call.nonces);
            SaveEmbedding(mid, s, id, call.embedding, call.nonces)
            == Ok(mid.(embeddings := AddRow(s, db.embeddings, id, call.embedding, EmbeddingJson, call.nonces)))
  {
    var s := SessionOf(db, ctx);
    var id := NextId(db, s);
    var mid := Append(lex, db, s, call.record, call.nonces);
    forall i | 0 <= i < |db.embeddings|
      ensures db.embeddings[i].key != id
    {
      FreshIdHasNoEmbedding(db, s, i);
    }
    assert FirstIndex(mid.embeddings, (x: EmbeddingRow) => x.key == id).None?;
    assert mid.messages[|db.messages|].id == id;
  }

  /** An inserting transaction adds one message with unseen content and one embedding for it. */
  lemma InsertingStore(lex: Lexicon, db: Tables, ctx: Option<Context>, call: Call)
    requires EmbeddingsOwned(db)
    requires FindExact(db, SessionOf(db, ctx), call.record.ns, call.record.content).None?
    ensures var o := StoreFacade(lex, db, SessionOf(db, ctx), call.record, call.embedding, call.nonces);
            var id := NextId(db, SessionOf(db, ctx));
            o.Ok? ==>
              && o.value.1 == Inserted(id)
              && Plain(o.value.0, ctx).messages == Plain(db, ctx).messages + [NewMessage(call, id)]
              && Plain(o.value.0, ctx).embeddings == Plain(db, ctx).embeddings + [NewEmbedding(db, call, id)]
  {
    SavesNewEmbedding(lex, db, ctx, call);
    PlainAppendMessages(lex, db, ctx, call);
    PlainAddEmbedding(db, ctx, call, NextId(db, SessionOf(db, ctx)));
  }

  lemma DuplicateStore(db: Tables, ctx: Option<Context>, call: Call, id: nat)
    requires Protected(db, ctx) && OrderedMessages(db.messages)
    requires FindExact(db, SessionOf(db, ctx), call.record.ns, call.record.content) == Some(id)
    ensures HasContent(Plain(db, ctx).messages, id, call)
  {
    FindExactMeaning(db, ctx, call.record.ns, call.record.content);
    var plain := Plain(db, ctx).messages;
    var i :| 0 <= i < |plain| && plain[i].id == id && plain[i].ns == call.record.ns && plain[i].content == call.record.content;
    assert HoldsContent(plain[i], call);
  }

  // ----- what a transaction in progress has done -----

  /** The uncommitted copy is the committed tables with the statements so far applied. */
  predicate OnTheWay(lex: Lexicon, call: Call, s: Session, db: Tables, w: Status)
    requires w.Working?
  {
    var id := NextId(db, s);
    var found := FindExact(db, s, call.record.ns, call.record.content);
    match w.stage
    case Begun => w.copy == db
    case Found(d) => w.copy == db && found == Some(d)
    case Missing => w.copy == db && found == None
    case MessageIn(d) => d == id && found == None && CanAppend(call, s, db) && w.copy == WithMessage(call, s, db)
    case EmbeddingIn(d) =>
      d == id && found == None && CanAppend(call, s, db) && SaveEmbedding(WithMessage(call, s, db), s, id, call.embedding, call.nonces) == Ok(w.copy)
    case TermsIn(d) => d == id && StoreFacade(lex, db, s, call.record, call.embedding, call.nonces) == Ok((w.copy, Inserted(id)))
  }

  /** Terms and embedding may be written in either order. */
  lemma EmbeddingThenTerms(lex: Lexicon, db: Tables, s: Session, id: nat, json: Text, nonces: Nonces, terms: set<(nat, Token)>)
    ensures var a := SaveEmbedding(db, s, id, json, nonces);
            SaveEmbedding(db.(terms := terms), s, id, json, nonces) == if a.Ok? then Ok(a.value.(terms := terms)) else a
    ensures var a := SaveEmbedding(db, s, id, json, nonces); a.Ok? ==> a.value.terms == db.terms
  {
  }

  lemma StatementAdvances(lex: Lexicon, call: Call, s: Session, db: Tables, w: Status)
    requires w.Working? && OnTheWay(lex, call, s, db, w)
    ensures var next := NextStatement(lex, call, s, w);
            if next.Working? then OnTheWay(lex, call, s, db, next) && next.failed == w.failed
            else next.Finished? && next.outcome.Err?
  {
    if w.stage.EmbeddingIn? {
      var mid := WithMessage(call, s, db);
      var terms := ReplaceTerms(lex, db.terms, s, w.stage.id, call.record.content);
      EmbeddingThenTerms(lex, mid, s, w.stage.id, call.embedding, call.nonces, terms);
      assert mid.(terms := terms) == Append(lex, db, s, call.record, call.nonces);
    }
  }

  // ----- steps and runs -----

  /** Only the holder of the lock works. */
  predicate Exclusive(sys: System) {
    && (forall i: nat :: i < |sys.status| && sys.status[i].Working? ==> sys.lock == Some(i))
    && (sys.lock.Some? ==> sys.lock.value < |sys.status| && sys.status[sys.lock.value].Working?)
  }

  predicate WorkersOnTheWay(lex: Lexicon, calls: seq<Call>, ctx: Option<Context>, sys: System)
    requires |sys.status| == |calls|
  {
    forall i: nat :: i < |calls| && sys.status[i].Working? ==> OnTheWay(lex, calls[i], SessionOf(sys.db, ctx), sys.db, sys.status[i])
  }

  /** The committed tables are in order and accounted for. */
  ghost predicate Accounted(lex: Lexicon, calls: seq<Call>, ctx: Option<Context>, n: nat, db: Tables, status: seq<Status>) {
    && Consistent(lex, db, ctx)
    && UniqueContent(Plain(db, ctx).messages)
    && Ledger(calls, status, n, Plain(db, ctx).messages, Plain(db, ctx).embeddings)
  }

  /** What holds of every reachable system that started with n messages. */
  ghost predicate Inv(lex: Lexicon, calls: seq<Call>, ctx: Option<Context>, n: nat, sys: System) {
    Accounted(lex, calls, ctx, n, sys.db, sys.status) && Exclusive(sys) && WorkersOnTheWay(lex, calls, ctx, sys)
  }

  lemma UniqueContentGrows(plain: seq<MessageRow>, m: MessageRow)
    requires UniqueContent(plain) && !ContentKnown(plain, m.ns, m.content)
    ensures UniqueContent(plain + [m])
  {
  }

  lemma PlainIdsAreOlder(db: Tables, ctx: Option<Context>)
    ensures forall k :: 0 <= k < |db.messages| ==> Plain(db, ctx).messages[k].id < NextId(db, SessionOf(db, ctx))
  {
  }

  /** Committing an insertion: one new row, owned by the call. */
  lemma InsertKeepsAccount(lex: Lexicon, calls: seq<Call>, ctx: Option<Context>, n: nat, db: Tables, status: seq<Status>, i: nat, db': Tables, id: nat)
    requires Accounted(lex, calls, ctx, n, db, status) && i < |calls| && Open(status[i])
    requires StoreFacade(lex, db, SessionOf(db, ctx), calls[i].record, calls[i].embedding, calls[i].nonces) == Ok((db', Inserted(id)))
    ensures Accounted(lex, calls, ctx, n, db', status[i := Finished(Ok(Inserted(id)))])
  {
    var call, plain := calls[i], Plain(db, ctx);
    InsertingStore(lex, db, ctx, call);
    StoreFacadeKeeps(lex, db, ctx, call.record, call.embedding, call.nonces);
    FindExactMeaning(db, ctx, call.record.ns, call.record.content);
    UniqueContentGrows(plain.messages, NewMessage(call, id));
    PlainIdsAreOlder(db, ctx);
    LedgerInsert(calls, status, n, plain.messages, plain.embeddings, i, NewMessage(call, id), NewEmbedding(db, call, id));
  }

  lemma OtherKeepsAccount(lex: Lexicon, calls: seq<Call>, ctx: Option<Context>, n: nat, db: Tables, status: seq<Status>, i: nat, st: Status)
    requires Accounted(lex, calls, ctx, n, db, status) && i < |calls| && Open(status[i])
    requires !(st.Finished? && st.outcome.Ok? && st.outcome.value.Inserted?)
    requires Open(st) ==> st.failed < BUSY_RETRY_ATTEMPTS
    requires forall id: nat :: st == Finished(Ok(Duplicate(id))) ==>
               FindExact(db, SessionOf(db, ctx), calls[i].record.ns, calls[i].record.content) == Some(id)
    ensures Accounted(lex, calls, ctx, n, db, status[i := st])
  {
    if st.Finished? && st.outcome.Ok? && st.outcome.value.Duplicate? {
      DuplicateStore(db, ctx, calls[i], st.outcome.value.id);
    }
    LedgerOther(calls, status, n, Plain(db, ctx).messages, Plain(db, ctx).embeddings, i, st);
  }

  /** A system in which the holder of the lock has just let it go. */
  lemma Released(lex: Lexicon, calls: seq<Call>, ctx: Option<Context>, sys: System, i: nat, db: Tables, st: Status)
    requires |sys.status| == |calls| && Exclusive(sys) && i < |calls| && sys.status[i].Working? && !st.Working?
    ensures var sys' := System(db, None, sys.status[i := st]);
            Exclusive(sys') && WorkersOnTheWay(lex, calls, ctx, sys')
  {
    var status' := sys.status[i := st];
    forall j: nat | j < |calls|
      ensures !status'[j].Working?
    {
    }
  }

  lemma BeginKeeps(lex: Lexicon, calls: seq<Call>, ctx: Option<Context>, n: nat, sys: System, i: nat)
    requires Inv(lex, calls, ctx, n, sys) && i < |calls| && sys.status[i].Waiting? && sys.lock == None
    ensures Inv(lex, calls, ctx, n, Step(lex, calls, ctx, sys, Begin(i)))
  {
    OtherKeepsAccount(lex, calls, ctx, n, sys.db, sys.status, i, Working(sys.status[i].failed, sys.db, Begun));
  }

  lemma BusyKeeps(lex: Lexicon, calls: seq<Call>, ctx: Option<Context>, n: nat, sys: System, i: nat, sys': System)
    requires Inv(lex, calls, ctx, n, sys) && i < |calls| && Open(sys.status[i])
    requires sys' == Step(lex, calls, ctx, sys, Busy(i))
    ensures Inv(lex, calls, ctx, n, sys')
  {
    var st := Retried(sys.status[i].failed);
    OtherKeepsAccount(lex, calls, ctx, n, sys.db, sys.status, i, st);
    if sys.status[i].Working? {
      Released(lex, calls, ctx, sys, i, sys.db, st);
    }
  }

  /** A statement that leaves its call working. */
  lemma WorksOn(lex: Lexicon, calls: seq<Call>, ctx: Option<Context>, sys: System, i: nat, st: Status)
    requires |sys.status| == |calls| && Exclusive(sys) && WorkersOnTheWay(lex, calls, ctx, sys) && i < |calls| && sys.status[i].Working?
    requires st.Working? && OnTheWay(lex, calls[i], SessionOf(sys.db, ctx), sys.db, st)
    ensures var sys' := System(sys.db, sys.lock, sys.status[i := st]);
            Exclusive(sys') && WorkersOnTheWay(lex, calls, ctx, sys')
  {
  }

  lemma StatementKeeps(lex: Lexicon, calls: seq<Call>, ctx: Option<Context>, n: nat, sys: System, i: nat, sys': System)
    requires Inv(lex, calls, ctx, n, sys) && i < |calls| && sys.status[i].Working?
    requires sys' == Step(lex, calls, ctx, sys, Statement(i))
    ensures Inv(lex, calls, ctx, n, sys')
  {
    var next := NextStatement(lex, calls[i], SessionOf(sys.db, ctx), sys.status[i]);
    StatementAdvances(lex, calls[i], SessionOf(sys.db, ctx), sys.db, sys.status[i]);
    OtherKeepsAccount(lex, calls, ctx, n, sys.db, sys.status, i, next);
    if next.Working? {
      WorksOn(lex, calls, ctx, sys, i, next);
    } else {
      Released(lex, calls, ctx, sys, i, sys.db, next);
    }
  }

  lemma AbortKeeps(lex: Lexicon, calls: seq<Call>, ctx: Option<Context>, n: nat, sys: System, i: nat, sys': System)
    requires Inv(lex, calls, ctx, n, sys) && i < |calls| && sys.status[i].Working?
    requires sys' == Step(lex, calls, ctx, sys, Abort(i))
    ensures Inv(lex, calls, ctx, n, sys')
  {
    OtherKeepsAccount(lex, calls, ctx, n, sys.db, sys.status, i, Finished(Err(Interrupted)));
    Released(lex, calls, ctx, sys, i, sys.db, Finished(Err(Interrupted)));
  }

  lemma DuplicateCommitKeeps(lex: Lexicon, calls: seq<Call>, ctx: Option<Context>, n: nat, sys: System, i: nat, sys': System)
    requires Inv(lex, calls, ctx, n, sys) && i < |calls| && sys.status[i].Working? && sys.status[i].stage.Found?
    requires sys' == Step(lex, calls, ctx, sys, Commit(i))
    ensures Inv(lex, calls, ctx, n, sys')
  {
    var st := Finished(Ok(Duplicate(sys.status[i].stage.id)));
    OtherKeepsAccount(lex, calls, ctx, n, sys.db, sys.status, i, st);
    Released(lex, calls, ctx, sys, i, sys.db, st);
  }

  lemma ReadyToCommit(lex: Lexicon, calls: seq<Call>, ctx: Option<Context>, sys: System, i: nat, w: Status)
    requires |sys.status| == |calls| && WorkersOnTheWay(lex, calls, ctx, sys) && i < |calls| && w == sys.status[i]
    requires w.Working? && w.stage.TermsIn?
    ensures StoreFacade(lex, sys.db, SessionOf(sys.db, ctx), calls[i].record, calls[i].embedding, calls[i].nonces) == Ok((w.copy, Inserted(w.stage.id)))
    ensures Step(lex, calls, ctx, sys, Commit(i)) == System(w.copy, None, sys.status[i := Finished(Ok(Inserted(w.stage.id)))])
  {
    assert OnTheWay(lex, calls[i], SessionOf(sys.db, ctx), sys.db, w);
  }

  lemma InsertCommitKeeps(lex: Lexicon, calls: seq<Call>, ctx: Option<Context>, n: nat, sys: System, i: nat, sys': System)
    requires Inv(lex, calls, ctx, n, sys) && i < |calls| && sys.status[i].Working? && sys.status[i].stage.TermsIn?
    requires sys' == Step(lex, calls, ctx, sys, Commit(i))
    ensures Inv(lex, calls, ctx, n, sys')
  {
    var w := sys.status[i];
    ReadyToCommit(lex, calls, ctx, sys, i, w);
    InsertKeepsAccount(lex, calls, ctx, n, sys.db, sys.status, i, w.copy, w.stage.id);
    Released(lex, calls, ctx, sys, i, w.copy, Finished(Ok(Inserted(w.stage.id))));
  }

  lemma StepKeepsInv(lex: Lexicon, calls: seq<Call>, ctx: Option<Context>, n: nat, sys: System, e: Event)
    requires Inv(lex, calls, ctx, n, sys)
    ensures Inv(lex, calls, ctx, n, Step(lex, calls, ctx, sys, e))
  {
    if e.call < |calls| {
      var st, sys' := sys.status[e.call], Step(lex, calls, ctx, sys, e);
      match e {
        case Begin(i) => if st.Waiting? && sys.lock == None { BeginKeeps(lex, calls, ctx, n, sys, i); }
        case Busy(i) => if Open(st) { BusyKeeps(lex, calls, ctx, n, sys, i, sys'); }
        case Statement(i) => if st.Working? { StatementKeeps(lex, calls, ctx, n, sys, i, sys'); }
        case Abort(i) => if st.Working? { AbortKeeps(lex, calls, ctx, n, sys, i, sys'); }
        case Commit(i) =>
          if st.Working? && st.stage.Found? {
            DuplicateCommitKeeps(lex, calls, ctx, n, sys, i, sys');
          } else if st.Working? && st.stage.TermsIn? {
            InsertCommitKeeps(lex, calls, ctx, n, sys, i, sys');
          }
      }
    }
  }

  /** Over every interleaving of the statements of any number of facade calls, stopped anywhere and retried a
      bounded number of times: contents stay unique per namespace, each inserting call owns exactly one
      committed row with its embedding, each new row belongs to one finished call, duplicates name an existing
      row, a call that was stopped or gave up left nothing, and the committed database stays consistent (so
      every row has its terms and at most one embedding). */
  lemma {:induction false} FacadeRunsAreUnique(lex: Lexicon, calls: seq<Call>, ctx: Option<Context>, start: Tables, events: seq<Event>)
    requires Consistent(lex, start, ctx) && UniqueContent(Plain(start, ctx).messages)
    ensures Inv(lex, calls, ctx, |start.messages|, Run(lex, calls, ctx, Start(start, calls), events))
  {
    if events == [] {
      assert forall i: nat, id: nat :: !InsertedBy(Start(start, calls).status, i, id);
      assert forall i: nat, id: nat :: !DuplicateOf(Start(start, calls).status, i, id);
    } else {
      FacadeRunsAreUnique(lex, calls, ctx, start, events[..|events| - 1]);
      StepKeepsInv(lex, calls, ctx, |start.messages|, Run(lex, calls, ctx, Start(start, calls), events[..|events| - 1]), events[|events| - 1]);
    }
  }
}
