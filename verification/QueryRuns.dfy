/** Retrieval after whole runs of writes, enabling and rotating: the same answers as on a database that
    was never encrypted (encryption.py, storage.py, sync_service.py). */
module QueryRuns {
  import opened Basics
  import opened Crypto
  import opened Tokenizer
  import opened Rows
  import opened Ids
  import opened Lifecycle
  import opened Runs
  import opened Answers
  import opened Views

  /** After any run, whatever was written, every answer is, up to ids and ties, the one of a plaintext database
      that ran the same writes and, while encryption was on, used its duplicate rule. */
  lemma AnswersFollowRule(lex: Lexicon, w: World, cmds: seq<Command>, keys: set<MasterKey>)
    requires Good(lex, w, keys) && DistinctIds(keys) && NonemptyIds(keys) && UsesKeys(cmds, keys)
    ensures var end := Run(lex, w, cmds);
            SameAnswers(lex, ByPlace(end.db, end.ctx), ByPlace(DenseRun(lex, Numbered(Plain(w.db, w.ctx)), w, cmds), None))
  {
    RunsStayConsistent(lex, w, cmds, keys);
    RunsFollowRule(lex, w, cmds, keys);
    var end := Run(lex, w, cmds);
    PlainLinked(lex, end.db, end.ctx);
    NumberedTwice(Plain(end.db, end.ctx));
    NumberedLinked(Plain(end.db, end.ctx));
    TwinAnswers(lex, end.db, end.ctx, DenseRun(lex, Numbered(Plain(w.db, w.ctx)), w, cmds));
  }

  /** Where the duplicate rules agree, every answer after a run is, up to ids and ties, the one a database would
      give that ran the same writes and was never encrypted. */
  lemma AnswersAfterRuns(lex: Lexicon, w: World, cmds: seq<Command>, keys: set<MasterKey>)
    requires Good(lex, w, keys) && DistinctIds(keys) && NonemptyIds(keys) && UsesKeys(cmds, keys) && RunAgrees(lex, w, cmds)
    ensures var end := Run(lex, w, cmds);
            SameAnswers(lex, ByPlace(end.db, end.ctx), ByPlace(PlainRun(lex, Plain(w.db, w.ctx), w, cmds), None))
  {
    RunsStayConsistent(lex, w, cmds, keys);
    RunsRefinePlaintext(lex, w, cmds, keys);
    var end := Run(lex, w, cmds);
    TwinAnswers(lex, end.db, end.ctx, PlainRun(lex, Plain(w.db, w.ctx), w, cmds));
  }

  lemma OpenKeepsIds(db: Tables, ctx: Option<Context>)
    ensures MessageIds(Plain(db, ctx).messages) == MessageIds(db.messages)
  {
  }

  /** Enabling encryption on a plaintext database and rotating its key any number of times, with
      whatever keys and interruptions, changes no id and, up to ties, no answer. */
  lemma AnswersSurviveLifecycle(lex: Lexicon, db: Tables, cmds: seq<Command>)
    requires Consistent(lex, db, None)
    requires forall i :: 0 <= i < |cmds| ==> !cmds[i].Do?
    ensures var end := Run(lex, World(db, None), cmds);
            && MessageIds(end.db.messages) == MessageIds(db.messages)
            && SameAnswers(lex, Seen(end.db, end.ctx, SAME_NAMES), Seen(db, None, SAME_NAMES))
  {
    LifecycleIsInvisible(lex, World(db, None), cmds);
    PlainOfPlain(lex, db);
    var end := Run(lex, World(db, None), cmds);
    OpenKeepsIds(end.db, end.ctx);
    PlainAnswers(lex, end.db, end.ctx);
  }
}
