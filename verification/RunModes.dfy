/** The terms mode over whole runs: it is chosen once, when encryption is enabled, and the index follows it. */
module RunModes {
  import opened Basics
  import opened Crypto
  import opened Tokenizer
  import opened Rows
  import opened Inserts
  import opened Lifecycle
  import opened Runs

  lemma {:induction false} BatchKeepsMeta(lex: Lexicon, db: Tables, s: Session, rs: seq<Record>, nonces: Nonces)
    ensures InsertBatch(lex, db, s, rs, nonces).meta == db.meta
  {
    if rs != [] {
      BatchKeepsMeta(lex, db, s, rs[..|rs| - 1], nonces);
    }
  }

  /** No write touches the encryption metadata, whatever session it uses. */
  lemma WriteKeepsMeta(lex: Lexicon, db: Tables, s: Session, w: Write, nonces: Nonces)
    ensures ApplyWrite(lex, db, s, w, nonces).meta == db.meta
  {
    if w.InsertMessages? {
      BatchKeepsMeta(lex, db, s, w.records, nonces);
    }
  }

  /** The command that turns encryption on for good. */
  predicate SwitchesOn(lex: Lexicon, w: World, cmd: Command) {
    w.ctx.None? && cmd.TurnOn? && Step(lex, w, cmd).ctx.Some?
  }

  lemma StepMode(lex: Lexicon, w: World, cmd: Command)
    requires Consistent(lex, w.db, w.ctx)
    ensures var w' := Step(lex, w, cmd);
            && (w'.ctx.Some? <==> w.ctx.Some? || SwitchesOn(lex, w, cmd))
            && w'.db.meta.termsMode == (if SwitchesOn(lex, w, cmd) then cmd.mode else w.db.meta.termsMode)
  {
    match cmd
    case Do(write, key, nonces, _) =>
      var s := Resolve(w.db.meta, key);
      if s.Ok? {
        WriteKeepsMeta(lex, w.db, s.value, write, nonces);
      }
    case TurnOn(master, mode, nonces, _) => EnableCorrect(lex, w.db, w.ctx, master, mode, nonces);
    case Rekey(oldKey, newKey, nonces, _) => RotateCorrect(lex, w.db, w.ctx, oldKey, newKey, nonces);
  }

  /** Command i of the run turns encryption on. */
  ghost predicate TurnedOnBy(lex: Lexicon, w: World, cmds: seq<Command>, i: nat)
    requires i < |cmds|
  {
    SwitchesOn(lex, Run(lex, w, cmds[..i]), cmds[i])
  }

  /** The commands of the run that turn encryption on. */
  ghost function TurnOns(lex: Lexicon, w: World, cmds: seq<Command>): set<nat> {
    set i | 0 <= i < |cmds| && TurnedOnBy(lex, w, cmds, i)
  }

  lemma TurnOnsStep(lex: Lexicon, w: World, cmds: seq<Command>, n: nat)
    requires n + 1 == |cmds|
    ensures TurnOns(lex, w, cmds) == TurnOns(lex, w, cmds[..n]) + (if TurnedOnBy(lex, w, cmds, n) then {n} else {})
  {
    forall i | 0 <= i < n
      ensures i in TurnOns(lex, w, cmds) <==> i in TurnOns(lex, w, cmds[..n])
    {
      assert cmds[..n][..i] == cmds[..i];
    }
  }

  /** The mode of a run that ends encrypted: that of the start if it was encrypted there, else the mode asked for by
      the one command that turned encryption on. */
  predicate ModeChosen(start: World, turnOns: set<nat>, cmds: seq<Command>, end: World) {
    if start.ctx.Some? then end.ctx.Some? && end.db.meta.termsMode == start.db.meta.termsMode
    else && (end.ctx.Some? <==> turnOns != {})
         && (forall i :: i in turnOns ==> turnOns == {i} && i < |cmds| && cmds[i].TurnOn? && end.db.meta.termsMode == cmds[i].mode)
  }

  /** One more command: `on` says whether it is the one that turns encryption on. */
  lemma ModeStep(start: World, cmds: seq<Command>, n: nat, before: set<nat>, mid: World, end: World, on: bool)
    requires n + 1 == |cmds| && ModeChosen(start, before, cmds[..n], mid)
    requires on ==> mid.ctx.None? && cmds[n].TurnOn? && end.db.meta.termsMode == cmds[n].mode
    requires !on ==> end.db.meta.termsMode == mid.db.meta.termsMode
    requires end.ctx.Some? <==> mid.ctx.Some? || on
    ensures ModeChosen(start, before + (if on then {n} else {}), cmds, end)
  {
    if start.ctx.None? && on {
      assert before + {n} == {n};
    }
  }

  /** Over every run: the mode is chosen once and stays, whatever is written, rotated, interrupted or tried with wrong
      keys; in keyed mode the index holds nothing but keyed tokens under the current key, otherwise nothing but words. */
  lemma {:induction false} RunsKeepMode(lex: Lexicon, w: World, cmds: seq<Command>, keys: set<MasterKey>)
    requires Good(lex, w, keys) && DistinctIds(keys) && NonemptyIds(keys) && UsesKeys(cmds, keys)
    ensures var end := Run(lex, w, cmds);
            && ModeChosen(w, TurnOns(lex, w, cmds), cmds, end)
            && (if end.ctx.Some? && end.db.meta.termsMode == KeyedTerms
                then OnlyKeyed(end.db.terms, end.ctx.value) else OnlyWords(end.db.terms))
  {
    RunsStayConsistent(lex, w, cmds, keys);
    var end := Run(lex, w, cmds);
    IndexInMode(lex, end.db, end.ctx);
    if cmds != [] {
      var front := cmds[..|cmds| - 1];
      RunsKeepMode(lex, w, front, keys);
      RunsStayConsistent(lex, w, front, keys);
      var mid := Run(lex, w, front);
      StepMode(lex, mid, cmds[|cmds| - 1]);
      TurnOnsStep(lex, w, cmds, |cmds| - 1);
      ModeStep(w, cmds, |cmds| - 1, TurnOns(lex, w, front), mid, end, SwitchesOn(lex, mid, cmds[|cmds| - 1]));
    }
  }
}
