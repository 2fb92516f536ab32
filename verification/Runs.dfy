/** Whole runs of the store: writes, enabling, rotating, wrong keys and interruptions in any order. */
module Runs {
  import opened Basics
  import opened Crypto
  import opened Tokenizer
  import opened Rows
  import opened Inserts
  import opened Fields
  import opened Simulation
  import opened Ids
  import opened Lifecycle

  /** MemoryStore.encryption_context on a fresh cache: which session a configured key opens. */
  function Resolve(meta: Meta, key: Option<MasterKey>): Result<Session, CryptoError> {
    if !meta.enabled then Ok(Session(None, meta.termsMode))
    else match key
      case None => Err(InvalidKey)
      case Some(k) =>
        match MakeContext(k, meta.dbIdentity)
        case Err(e) => Err(e)
        case Ok(c) =>
          if meta.keyId.Some? && meta.keyId.value != "" && k.id16 != meta.keyId.value then Err(WrongKey)
          else Ok(Session(Some(c), meta.termsMode))
  }

  datatype Write =
    | InsertMessages(records: seq<Record>)
    | Facade(record: Record, embedding: Text)
    | Embed(messageId: nat, json: Text)
    | Summarise(summary: Summary)
    | Remember(slot: AgentKey, value: Text)

  /** One operation; `interrupted` says that some statement of it fails, so it rolls back. */
  datatype Command =
    | Do(write: Write, key: Option<MasterKey>, nonces: Nonces, interrupted: bool)
    | TurnOn(master: MasterKey, mode: TermsMode, nonces: Nonces, interrupted: bool)
    | Rekey(oldKey: MasterKey, newKey: MasterKey, nonces: Nonces, interrupted: bool)

  /** A database together with the context it is really sealed under. */
  datatype World = World(db: Tables, ctx: Option<Context>)

  function ApplyWrite(lex: Lexicon, db: Tables, s: Session, w: Write, nonces: Nonces): Tables {
    match w
    case InsertMessages(rs) => InsertBatch(lex, db, s, rs, nonces)
    case Facade(r, e) =>
      var o := StoreFacade(lex, db, s, r, e, nonces);
      if o.Ok? then o.value.0 else db
    case Embed(id, json) =>
      var o := SaveEmbedding(db, s, id, json, nonces);
      if o.Ok? then o.value else db
    case Summarise(rec) => UpsertSummary(db, s, rec, nonces).0
    case Remember(slot, value) => SetAgentState(db, s, slot, value, nonces)
  }

  function Step(lex: Lexicon, w: World, cmd: Command): World {
    if cmd.interrupted then w else
    match cmd
    case Do(write, key, nonces, _) =>
      (match Resolve(w.db.meta, key)
       case Err(_) => w
       case Ok(s) => w.(db := ApplyWrite(lex, w.db, s, write, nonces)))
    case TurnOn(master, mode, nonces, _) =>
      (match Enable(lex, w.db, master, mode, nonces)
       case Err(_) => w
       case Ok(db') => World(db', Some(Context(master, w.db.meta.dbIdentity))))
    case Rekey(oldKey, newKey, nonces, _) =>
      (match Rotate(lex, w.db, oldKey, newKey, nonces)
       case Err(_) => w
       case Ok(db') => World(db', Some(Context(newKey, w.db.meta.dbIdentity))))
  }

  function Run(lex: Lexicon, w: World, cmds: seq<Command>): World {
    if cmds == [] then w else Step(lex, Run(lex, w, cmds[..|cmds| - 1]), cmds[|cmds| - 1])
  }

  /** The id at a place; 0, which no message has, beyond the table. */
  function IdAt(ms: seq<MessageRow>, n: nat): nat {
    if 1 <= n <= |ms| then ms[n - 1].id else 0
  }

  /** A write that names its message by its place. */
  function Placed(w: Write, ms: seq<MessageRow>): Write {
    if w.Embed? then w.(messageId := Place(ms, w.messageId)) else w
  }

  /** A write about the message at the same place of another database. */
  function Translated(w: Write, from: seq<MessageRow>, to: seq<MessageRow>): Write {
    if w.Embed? then w.(messageId := IdAt(to, Place(from, w.messageId))) else w
  }

  /** The command gets as far as writing. */
  predicate Writes(w: World, cmd: Command) {
    cmd.Do? && !cmd.interrupted && Resolve(w.db.meta, cmd.key).Ok?
  }

  /** The same operation on a plaintext database: lifecycle commands do nothing there. */
  function PlainStep(lex: Lexicon, plain: Tables, w: World, cmd: Command): Tables {
    if Writes(w, cmd) then ApplyWrite(lex, plain, PLAIN, Translated(cmd.write, w.db.messages, plain.messages), cmd.nonces) else plain
  }

  /** The plaintext database after the run, computed without ever encrypting anything. */
  function PlainRun(lex: Lexicon, plain: Tables, w: World, cmds: seq<Command>): Tables {
    if cmds == [] then plain else
      PlainStep(lex, PlainRun(lex, plain, w, cmds[..|cmds| - 1]), Run(lex, w, cmds[..|cmds| - 1]), cmds[|cmds| - 1])
  }

  /** A write on a numbered plaintext database under the duplicate rule of either mode. */
  function DenseWrite(lex: Lexicon, t: Tables, sealed: bool, w: Write, nonces: Nonces): Tables {
    if w.InsertMessages? then DenseBatch(lex, t, sealed, w.records, nonces) else ApplyWrite(lex, t, PLAIN, w, nonces)
  }

  function DenseStep(lex: Lexicon, t: Tables, w: World, cmd: Command): Tables {
    if Writes(w, cmd) then DenseWrite(lex, t, w.ctx.Some?, Placed(cmd.write, w.db.messages), cmd.nonces) else t
  }

  /** The run on a numbered plaintext database: never encrypted, but while encryption is on its duplicate rule is used. */
  function DenseRun(lex: Lexicon, t: Tables, w: World, cmds: seq<Command>): Tables {
    if cmds == [] then t else
      DenseStep(lex, DenseRun(lex, t, w, cmds[..|cmds| - 1]), Run(lex, w, cmds[..|cmds| - 1]), cmds[|cmds| - 1])
  }

  function KeysOf(cmd: Command): set<MasterKey> {
    match cmd
    case Do(_, key, _, _) => if key.Some? then {key.value} else {}
    case TurnOn(master, _, _, _) => {master}
    case Rekey(oldKey, newKey, _, _) => {oldKey, newKey}
  }

  /** No two keys in use share an identifier: identifiers are truncated hashes. */
  predicate DistinctIds(keys: set<MasterKey>) {
    forall a, b :: a in keys && b in keys && a.id16 == b.id16 ==> a == b
  }

  ghost predicate UsesKeys(cmds: seq<Command>, keys: set<MasterKey>) {
    forall i :: 0 <= i < |cmds| ==> KeysOf(cmds[i]) <= keys
  }

  predicate Good(lex: Lexicon, w: World, keys: set<MasterKey>) {
    Consistent(lex, w.db, w.ctx) && (w.ctx.Some? ==> w.ctx.value.master in keys)
  }

  /** A configured key is let in exactly when it is long enough and has the identifier of the sealing key,
      which is all that is compared; an empty identifier lets every usable key in. */
  lemma ResolveExactly(db: Tables, ctx: Option<Context>, key: Option<MasterKey>)
    requires Protected(db, ctx)
    ensures Resolve(db.meta, key).Ok? <==>
              ctx.None? || (key.Some? && UsableKey(key.value, db.meta.dbIdentity)
                            && (ctx.value.master.id16 == "" || key.value.id16 == ctx.value.master.id16))
    ensures Resolve(db.meta, key).Ok? ==>
              Resolve(db.meta, key).value == Session(if ctx.None? then None else Some(Context(key.value, db.meta.dbIdentity)), db.meta.termsMode)
  {
  }

  /** Where identifiers tell the keys in use apart, only the sealing key is let in. */
  lemma ResolveDistinct(db: Tables, ctx: Option<Context>, key: Option<MasterKey>, keys: set<MasterKey>)
    requires Protected(db, ctx) && DistinctIds(keys)
    requires key.Some? ==> key.value in keys
    requires ctx.Some? ==> ctx.value.master in keys && ctx.value.master.id16 != ""
    ensures Resolve(db.meta, key).Ok? <==> ctx.None? || key == Some(ctx.value.master)
    ensures Resolve(db.meta, key).Ok? ==> Resolve(db.meta, key).value == SessionOf(db, ctx)
  {
    ResolveExactly(db, ctx, key);
  }

  lemma WriteKeeps(lex: Lexicon, db: Tables, ctx: Option<Context>, w: Write, nonces: Nonces)
    requires Consistent(lex, db, ctx)
    ensures Consistent(lex, ApplyWrite(lex, db, SessionOf(db, ctx), w, nonces), ctx)
  {
    match w
    case InsertMessages(rs) => InsertBatchKeeps(lex, db, ctx, rs, nonces);
    case Facade(r, e) => StoreFacadeKeeps(lex, db, ctx, r, e, nonces);
    case Embed(id, json) => SaveEmbeddingKeeps(lex, db, ctx, id, json, nonces);
    case Summarise(rec) => UpsertSummaryKeeps(lex, db, ctx, rec, nonces);
    case Remember(slot, value) => SetAgentStateKeeps(lex, db, ctx, slot, value, nonces);
  }

  // ----- one write, up to ids -----

  lemma NumberedNextId(db: Tables)
    ensures NextId(Numbered(db), PLAIN) == |db.messages| + 1
  {
    NumberedIds(db.messages);
  }

  /** A write on a plaintext database does what it does to the numbered one, whatever its ids and counter. */
  lemma PlainWriteIsDense(lex: Lexicon, p: Tables, w: Write, nonces: Nonces)
    requires Linked(p)
    ensures Linked(ApplyWrite(lex, p, PLAIN, w, nonces))
    ensures Numbered(ApplyWrite(lex, p, PLAIN, w, nonces)) == DenseWrite(lex, Numbered(p), false, Placed(w, p.messages), nonces)
  {
    match w {
      case InsertMessages(rs) => PlainBatchIsDense(lex, p, rs, nonces);
      case Facade(r, e) =>
        FacadeNumbered(lex, p, r, e, nonces, NextId(p, PLAIN));
        FacadeLinked(lex, p, r, e, nonces, NextId(p, PLAIN));
        NumberedNextId(p);
      case Embed(id, json) =>
        SaveNumbered(p, id, json, nonces);
        if SaveEmbedding(p, PLAIN, id, json, nonces).Ok? {
          SaveLinked(p, id, json, nonces);
        }
      case Summarise(rec) =>
      case Remember(slot, value) =>
    }
  }

  lemma SealedFacadeIsDense(lex: Lexicon, db: Tables, ctx: Option<Context>, r: Record, e: Text, nonces: Nonces)
    requires Consistent(lex, db, ctx)
    ensures PlacedStored(PlainStored(StoreFacade(lex, db, SessionOf(db, ctx), r, e, nonces), ctx))
         == StoreFacade(lex, Numbered(Plain(db, ctx)), PLAIN, r, e, nonces)
  {
    var p, id := Plain(db, ctx), NextId(db, SessionOf(db, ctx));
    StoreFacadeRefines(lex, db, ctx, r, e, nonces);
    PlainLinked(lex, db, ctx);
    forall i | 0 <= i < |p.messages|
      ensures p.messages[i].id < id
    {
      PlainNextId(db, ctx, i);
    }
    FacadeNumbered(lex, p, r, e, nonces, id);
    NumberedNextId(p);
  }

  lemma PlainPlace(db: Tables, ctx: Option<Context>, id: nat)
    ensures Place(Plain(db, ctx).messages, id) == Place(db.messages, id)
  {
    FirstIndexSame(db.messages, HasId(id), Plain(db, ctx).messages, HasId(id));
  }

  lemma FacadeIsDense(lex: Lexicon, db: Tables, ctx: Option<Context>, r: Record, e: Text, nonces: Nonces)
    requires Consistent(lex, db, ctx)
    ensures Numbered(Plain(ApplyWrite(lex, db, SessionOf(db, ctx), Facade(r, e), nonces), ctx))
         == ApplyWrite(lex, Numbered(Plain(db, ctx)), PLAIN, Facade(r, e), nonces)
  {
    SealedFacadeIsDense(lex, db, ctx, r, e, nonces);
  }

  lemma EmbedIsDense(lex: Lexicon, db: Tables, ctx: Option<Context>, id: nat, json: Text, nonces: Nonces)
    requires Consistent(lex, db, ctx)
    ensures Numbered(Plain(ApplyWrite(lex, db, SessionOf(db, ctx), Embed(id, json), nonces), ctx))
         == ApplyWrite(lex, Numbered(Plain(db, ctx)), PLAIN, Embed(Place(db.messages, id), json), nonces)
  {
    PlainLinked(lex, db, ctx);
    SaveEmbeddingRefines(db, ctx, id, json, nonces);
    SaveNumbered(Plain(db, ctx), id, json, nonces);
    PlainPlace(db, ctx, id);
  }

  lemma FieldsAreDense(lex: Lexicon, db: Tables, ctx: Option<Context>, w: Write, nonces: Nonces)
    requires w.Summarise? || w.Remember?
    ensures Numbered(Plain(ApplyWrite(lex, db, SessionOf(db, ctx), w, nonces), ctx)) == ApplyWrite(lex, Numbered(Plain(db, ctx)), PLAIN, w, nonces)
  {
    if w.Summarise? {
      UpsertSummaryRefines(db, ctx, w.summary, nonces);
    } else {
      SetAgentStateRefines(db, ctx, w.slot, w.value, nonces);
    }
  }

  /** A write on a database of either mode does to its plaintext, up to ids, what it does to the numbered
      plaintext database; only the duplicate rule of plain batches depends on the mode. */
  lemma WriteIsDense(lex: Lexicon, db: Tables, ctx: Option<Context>, w: Write, nonces: Nonces)
    requires Consistent(lex, db, ctx)
    ensures Numbered(Plain(ApplyWrite(lex, db, SessionOf(db, ctx), w, nonces), ctx))
         == DenseWrite(lex, Numbered(Plain(db, ctx)), ctx.Some?, Placed(w, db.messages), nonces)
  {
    match w {
      case InsertMessages(rs) => BatchIsDense(lex, db, ctx, rs, nonces);
      case Facade(r, e) => FacadeIsDense(lex, db, ctx, r, e, nonces);
      case Embed(id, json) => EmbedIsDense(lex, db, ctx, id, json, nonces);
      case _ => FieldsAreDense(lex, db, ctx, w, nonces);
    }
  }

  predicate NonemptyIds(keys: set<MasterKey>) {
    forall k :: k in keys ==> k.id16 != ""
  }

  lemma StepKeeps(lex: Lexicon, w: World, cmd: Command, keys: set<MasterKey>)
    requires Good(lex, w, keys) && DistinctIds(keys) && NonemptyIds(keys) && KeysOf(cmd) <= keys
    ensures Good(lex, Step(lex, w, cmd), keys)
  {
    match cmd
    case Do(write, key, nonces, _) =>
      ResolveDistinct(w.db, w.ctx, key, keys);
      WriteKeeps(lex, w.db, w.ctx, write, nonces);
    case TurnOn(master, mode, nonces, _) => EnableCorrect(lex, w.db, w.ctx, master, mode, nonces);
    case Rekey(oldKey, newKey, nonces, _) => RotateCorrect(lex, w.db, w.ctx, oldKey, newKey, nonces);
  }

  /** Over every run the committed database always decrypts: sealed exactly when it says so,
      under the named key, every field bound to its place, every index row current. */
  lemma {:induction false} RunsStayConsistent(lex: Lexicon, w: World, cmds: seq<Command>, keys: set<MasterKey>)
    requires Good(lex, w, keys) && DistinctIds(keys) && NonemptyIds(keys) && UsesKeys(cmds, keys)
    ensures Good(lex, Run(lex, w, cmds), keys)
  {
    if cmds != [] {
      var front := cmds[..|cmds| - 1];
      RunsStayConsistent(lex, w, front, keys);
      StepKeeps(lex, Run(lex, w, front), cmds[|cmds| - 1], keys);
    }
  }

  // ----- encryption is invisible over runs, up to ids -----

  lemma StepIsDense(lex: Lexicon, w: World, cmd: Command, keys: set<MasterKey>)
    requires Good(lex, w, keys) && DistinctIds(keys) && NonemptyIds(keys) && KeysOf(cmd) <= keys
    ensures var w' := Step(lex, w, cmd);
            Numbered(Plain(w'.db, w'.ctx)) == DenseStep(lex, Numbered(Plain(w.db, w.ctx)), w, cmd)
  {
    match cmd
    case Do(write, key, nonces, _) =>
      ResolveDistinct(w.db, w.ctx, key, keys);
      WriteIsDense(lex, w.db, w.ctx, write, nonces);
    case TurnOn(master, mode, nonces, _) => EnableCorrect(lex, w.db, w.ctx, master, mode, nonces);
    case Rekey(oldKey, newKey, nonces, _) => RotateCorrect(lex, w.db, w.ctx, oldKey, newKey, nonces);
  }

  /** Over every run, with any records: up to ids, the plaintext behind the final database is that of a
      database that is never encrypted and uses, for plain batches, the duplicate rule of the mode they ran in. */
  lemma {:induction false} RunsFollowRule(lex: Lexicon, w: World, cmds: seq<Command>, keys: set<MasterKey>)
    requires Good(lex, w, keys) && DistinctIds(keys) && NonemptyIds(keys) && UsesKeys(cmds, keys)
    ensures var end := Run(lex, w, cmds);
            Numbered(Plain(end.db, end.ctx)) == DenseRun(lex, Numbered(Plain(w.db, w.ctx)), w, cmds)
  {
    if cmds != [] {
      var front := cmds[..|cmds| - 1];
      RunsFollowRule(lex, w, front, keys);
      RunsStayConsistent(lex, w, front, keys);
      StepIsDense(lex, Run(lex, w, front), cmds[|cmds| - 1], keys);
    }
  }

  /** Where the command inserts messages without the facade while encrypted, the duplicate rules agree. */
  ghost predicate StepAgrees(lex: Lexicon, w: World, cmd: Command) {
    cmd.Do? && cmd.write.InsertMessages? && w.ctx.Some? ==> BatchAgrees(lex, Numbered(Plain(w.db, w.ctx)), cmd.write.records, cmd.nonces)
  }

  ghost predicate RunAgrees(lex: Lexicon, w: World, cmds: seq<Command>) {
    forall i :: 0 <= i < |cmds| ==> StepAgrees(lex, Run(lex, w, cmds[..i]), cmds[i])
  }

  lemma AgreesBefore(lex: Lexicon, w: World, cmds: seq<Command>)
    requires cmds != [] && RunAgrees(lex, w, cmds)
    ensures RunAgrees(lex, w, cmds[..|cmds| - 1]) && StepAgrees(lex, Run(lex, w, cmds[..|cmds| - 1]), cmds[|cmds| - 1])
  {
    var front := cmds[..|cmds| - 1];
    forall i | 0 <= i < |front|
      ensures StepAgrees(lex, Run(lex, w, front[..i]), front[i])
    {
      assert front[..i] == cmds[..i] && front[i] == cmds[i];
    }
  }

  lemma TranslatedPlace(w: Write, from: seq<MessageRow>, to: seq<MessageRow>)
    requires OrderedMessages(to) && |from| == |to|
    ensures Placed(Translated(w, from, to), to) == Placed(w, from)
  {
    if w.Embed? {
      var n := Place(from, w.messageId);
      PlaceOfMessage(from, w.messageId);
      if n > 0 {
        PlaceAt(to, n - 1);
      } else {
        PlaceOfMessage(to, 0);
      }
    }
  }

  lemma StepRefines(lex: Lexicon, w: World, cmd: Command, keys: set<MasterKey>, plain: Tables)
    requires Good(lex, w, keys) && DistinctIds(keys) && NonemptyIds(keys) && KeysOf(cmd) <= keys && StepAgrees(lex, w, cmd)
    requires Linked(plain) && SameUpToIds(Plain(w.db, w.ctx), plain)
    ensures var w', plain' := Step(lex, w, cmd), PlainStep(lex, plain, w, cmd);
            Linked(plain') && SameUpToIds(Plain(w'.db, w'.ctx), plain')
  {
    StepIsDense(lex, w, cmd, keys);
    if Writes(w, cmd) {
      assert |Numbered(plain).messages| == |Numbered(Plain(w.db, w.ctx)).messages|;
      TranslatedPlace(cmd.write, w.db.messages, plain.messages);
      PlainWriteIsDense(lex, plain, Translated(cmd.write, w.db.messages, plain.messages), cmd.nonces);
      if cmd.write.InsertMessages? && w.ctx.Some? {
        AgreedBatch(lex, Numbered(plain), cmd.write.records, cmd.nonces);
      }
    }
  }

  /** Encryption is invisible over whole runs: the plaintext behind the final database is the one obtained
      by running the same writes on a database that is never encrypted, up to ids and where the duplicate
      rules agree. */
  lemma {:induction false} RunsRefinePlaintext(lex: Lexicon, w: World, cmds: seq<Command>, keys: set<MasterKey>)
    requires Good(lex, w, keys) && DistinctIds(keys) && NonemptyIds(keys) && UsesKeys(cmds, keys)
    requires RunAgrees(lex, w, cmds)
    ensures var end, plain := Run(lex, w, cmds), PlainRun(lex, Plain(w.db, w.ctx), w, cmds);
            Linked(plain) && SameUpToIds(Plain(end.db, end.ctx), plain)
  {
    if cmds == [] {
      PlainLinked(lex, w.db, w.ctx);
    } else {
      var front := cmds[..|cmds| - 1];
      AgreesBefore(lex, w, cmds);
      RunsRefinePlaintext(lex, w, front, keys);
      RunsStayConsistent(lex, w, front, keys);
      StepRefines(lex, Run(lex, w, front), cmds[|cmds| - 1], keys, PlainRun(lex, Plain(w.db, w.ctx), w, front));
    }
  }

  /** A run of lifecycle commands only, whatever keys it tries, leaves the plaintext alone. */
  lemma {:induction false} LifecycleIsInvisible(lex: Lexicon, w: World, cmds: seq<Command>)
    requires Consistent(lex, w.db, w.ctx)
    requires forall i :: 0 <= i < |cmds| ==> !cmds[i].Do?
    ensures var end := Run(lex, w, cmds);
            Consistent(lex, end.db, end.ctx) && Plain(end.db, end.ctx) == Plain(w.db, w.ctx)
  {
    if cmds != [] {
      var front, cmd := cmds[..|cmds| - 1], cmds[|cmds| - 1];
      LifecycleIsInvisible(lex, w, front);
      var mid := Run(lex, w, front);
      assert !cmd.Do?;
      match cmd
      case TurnOn(master, mode, nonces, _) => EnableCorrect(lex, mid.db, mid.ctx, master, mode, nonces);
      case Rekey(oldKey, newKey, nonces, _) => RotateCorrect(lex, mid.db, mid.ctx, oldKey, newKey, nonces);
    }
  }
}
