/** Several migrators on one file (migrations.py): each works in a write transaction that only one
    can hold; any of them may time out, crash, or commit, in any order. */
module MigrationRuns {
  import opened Basics
  import opened Tokenizer
  import opened Migrations

  datatype Failure = Busy | Crashed | Refused(error: Error)

  datatype Process =
    | Idle
    | Working(copy: Db, from: nat, adopted: bool, applied: seq<nat>, next: nat)
    | Done(report: Report)
    | Failed(failure: Failure)

  /** The committed file, the holder of the write lock, and the order of effective commits. */
  datatype System = System(committed: Db, lock: Option<nat>, procs: seq<Process>, commits: seq<nat>)

  datatype Event = Begin(p: nat) | Timeout(p: nat) | Apply(p: nat) | Crash(p: nat) | Commit(p: nat)

  function Update(sys: System, p: nat, proc: Process): System
    requires p < |sys.procs|
  {
    sys.(procs := sys.procs[p := proc])
  }

  function BeginStep(sys: System, p: nat): System
    requires p < |sys.procs|
  {
    match Classify(sys.committed)
    case Err(e) => Update(sys, p, Failed(Refused(e)))
    case Ok((current, adopt)) =>
      if current == CURRENT_SCHEMA_VERSION && !adopt then Update(sys, p, Done(Report(current, current, [], false, true)))
      else
        var (start, next) := Migrations.Begin(sys.committed, current, adopt);
        Update(sys, p, Working(start, current, adopt, if adopt then [1] else [], next)).(lock := Some(p))
  }

  function ApplyStep(apply: (Db, nat) -> Option<Db>, sys: System, p: nat): System
    requires p < |sys.procs| && sys.procs[p].Working?
    requires 1 <= sys.procs[p].next <= CURRENT_SCHEMA_VERSION
  {
    var w := sys.procs[p];
    match apply(w.copy, w.next)
    case None => Update(sys, p, Failed(Refused(MigrationFailed(w.next)))).(lock := None)
    case Some(db) =>
      Update(sys, p, w.(copy := RecordVersion(db, w.next), applied := w.applied + [w.next], next := w.next + 1))
  }

  function CommitStep(sys: System, p: nat): System
    requires p < |sys.procs| && sys.procs[p].Working?
  {
    var w := sys.procs[p];
    Update(sys, p, Done(Report(w.from, CURRENT_SCHEMA_VERSION, w.applied, w.adopted, false)))
      .(committed := w.copy, lock := None, commits := sys.commits + [p])
  }

  /** `applies[p]` is the migration list as process p runs it. Events that cannot happen change nothing. */
  function Step(applies: seq<(Db, nat) -> Option<Db>>, sys: System, e: Event): System
    requires |sys.procs| == |applies|
  {
    if e.p >= |sys.procs| then sys
    else
      var proc := sys.procs[e.p];
      match e
      case Begin(p) => if proc.Idle? && sys.lock == None then BeginStep(sys, p) else sys
      case Timeout(p) => if proc.Idle? && sys.lock != None then Update(sys, p, Failed(Busy)) else sys
      case Apply(p) => if proc.Working? && 1 <= proc.next <= CURRENT_SCHEMA_VERSION then ApplyStep(applies[p], sys, p) else sys
      case Crash(p) => if proc.Working? then Update(sys, p, Failed(Crashed)).(lock := None) else sys
      case Commit(p) => if proc.Working? && proc.next > CURRENT_SCHEMA_VERSION then CommitStep(sys, p) else sys
  }

  function Run(applies: seq<(Db, nat) -> Option<Db>>, sys: System, events: seq<Event>): (r: System)
    requires |sys.procs| == |applies|
    ensures |r.procs| == |applies|
  {
    if events == [] then sys else Step(applies, Run(applies, sys, events[..|events| - 1]), events[|events| - 1])
  }

  function Start(db: Db, n: nat): System {
    System(db, None, seq(n, i => Idle), [])
  }

  // ----- the invariant -----

  /** Only the lock holder works. */
  predicate Exclusive(sys: System) {
    && (forall p: nat :: p < |sys.procs| && sys.procs[p].Working? ==> sys.lock == Some(p))
    && (sys.lock.Some? ==> sys.lock.value < |sys.procs| && sys.procs[sys.lock.value].Working? && sys.commits == [])
  }

  /** A transaction is part of the way through the migration of the initial file. */
  predicate OnTheWay(apply: (Db, nat) -> Option<Db>, db: Db, w: Process)
    requires w.Working?
  {
    && Classify(db) == Ok((w.from, w.adopted)) && !(w.from == CURRENT_SCHEMA_VERSION && !w.adopted)
    && w.from < w.next <= CURRENT_SCHEMA_VERSION + 1
    && w.applied == Versions(w.from + 1, w.next - 1)
    && var (start, first) := Migrations.Begin(db, w.from, w.adopted);
       first >= 1 && ApplyFrom(apply, w.copy, w.next) == ApplyFrom(apply, start, first)
  }

  /** At most one transaction took effect, and it was the whole migration. */
  predicate Committed(applies: seq<(Db, nat) -> Option<Db>>, db: Db, sys: System)
    requires |sys.procs| == |applies|
  {
    match |sys.commits|
    case 0 => sys.committed == db
    case 1 =>
      var p := sys.commits[0];
      && p < |sys.procs| && sys.procs[p].Done? && !sys.procs[p].report.noChange
      && Migrated(applies[p], db) == Ok((sys.committed, sys.procs[p].report))
      && Classify(sys.committed) == Ok((CURRENT_SCHEMA_VERSION, false))
    case _ => false
  }

  predicate OthersIdle(sys: System) {
    forall p: nat :: p < |sys.procs| && sys.procs[p].Done? && p !in sys.commits ==> sys.procs[p].report.noChange && sys.procs[p].report.applied == []
  }

  predicate Invariant(applies: seq<(Db, nat) -> Option<Db>>, db: Db, sys: System) {
    && |sys.procs| == |applies|
    && Exclusive(sys) && Committed(applies, db, sys) && OthersIdle(sys)
    && forall p: nat :: p < |sys.procs| && sys.procs[p].Working? ==> OnTheWay(applies[p], db, sys.procs[p])
  }

  /** Every process runs the real migration list, with an identity of its own making. */
  ghost predicate Genuine(lex: Lexicon, applies: seq<(Db, nat) -> Option<Db>>, identities: seq<string>) {
    |applies| == |identities| && forall p :: 0 <= p < |applies| ==> applies[p] == MigrationApply(lex, identities[p])
  }

  lemma BegunIsOnTheWay(apply: (Db, nat) -> Option<Db>, db: Db, current: nat, adopt: bool, start: Db, next: nat)
    requires WellFormed(db) && Classify(db) == Ok((current, adopt)) && !(current == CURRENT_SCHEMA_VERSION && !adopt)
    requires Migrations.Begin(db, current, adopt) == (start, next)
    ensures OnTheWay(apply, db, Working(start, current, adopt, if adopt then [1] else [], next))
  {
    ClassifyReports(db);
    BeginAdvances(db);
    assert Versions(1, 1) == [1];
  }

  /** A process that ends without a commit. */
  lemma EndsIdle(applies: seq<(Db, nat) -> Option<Db>>, db: Db, sys: System, p: nat, proc: Process, sys': System)
    requires Invariant(applies, db, sys) && p < |sys.procs| && sys.procs[p].Idle? && sys' == Update(sys, p, proc)
    requires proc.Failed? || (proc.Done? && proc.report.noChange && proc.report.applied == [])
    ensures Invariant(applies, db, sys')
  {
  }

  lemma TakesLock(applies: seq<(Db, nat) -> Option<Db>>, db: Db, sys: System, p: nat, proc: Process, sys': System)
    requires Invariant(applies, db, sys) && p < |sys.procs| && sys.procs[p].Idle? && sys.lock == None && sys.commits == []
    requires proc.Working? && OnTheWay(applies[p], db, proc) && sys' == Update(sys, p, proc).(lock := Some(p))
    ensures Invariant(applies, db, sys')
  {
  }

  lemma BeginKeeps(applies: seq<(Db, nat) -> Option<Db>>, db: Db, sys: System, p: nat, sys': System)
    requires WellFormed(db) && Invariant(applies, db, sys)
    requires p < |sys.procs| && sys.procs[p].Idle? && sys.lock == None && sys' == BeginStep(sys, p)
    ensures Invariant(applies, db, sys')
  {
    match Classify(sys.committed)
    case Err(e) => EndsIdle(applies, db, sys, p, Failed(Refused(e)), sys');
    case Ok((current, adopt)) =>
      if current == CURRENT_SCHEMA_VERSION && !adopt {
        EndsIdle(applies, db, sys, p, Done(Report(current, current, [], false, true)), sys');
      } else {
        var b := Migrations.Begin(db, current, adopt);
        BegunIsOnTheWay(applies[p], db, current, adopt, b.0, b.1);
        TakesLock(applies, db, sys, p, Working(b.0, current, adopt, if adopt then [1] else [], b.1), sys');
      }
  }

  lemma OneVersionOn(apply: (Db, nat) -> Option<Db>, db: Db, w: Process, changed: Db)
    requires w.Working? && OnTheWay(apply, db, w)
    requires 1 <= w.next <= CURRENT_SCHEMA_VERSION && apply(w.copy, w.next) == Some(changed)
    ensures OnTheWay(apply, db, w.(copy := RecordVersion(changed, w.next), applied := w.applied + [w.next], next := w.next + 1))
  {
    ApplyFromStep(apply, w.copy, w.next);
    OneMoreVersion(w.from + 1, w.next);
  }

  lemma OneMoreVersion(first: nat, next: nat)
    requires first <= next
    ensures Versions(first, next - 1) + [next] == Versions(first, next)
  {
  }

  lemma OnlyHolder(sys: System, p: nat, proc: Process, q: nat)
    requires Exclusive(sys) && p < |sys.procs| && sys.procs[p].Working?
    requires q < |sys.procs| && sys.procs[p := proc][q].Working?
    ensures q == p
  {
  }

  lemma ApplyKeepsRuns(applies: seq<(Db, nat) -> Option<Db>>, db: Db, sys: System, p: nat)
    requires Invariant(applies, db, sys)
    requires p < |sys.procs| && sys.procs[p].Working? && 1 <= sys.procs[p].next <= CURRENT_SCHEMA_VERSION
    ensures Invariant(applies, db, ApplyStep(applies[p], sys, p))
  {
    var w := sys.procs[p];
    var changed := applies[p](w.copy, w.next);
    if changed.Some? {
      OneVersionOn(applies[p], db, w, changed.value);
      var sys' := ApplyStep(applies[p], sys, p);
      forall q: nat | q < |sys'.procs| && sys'.procs[q].Working?
        ensures OnTheWay(applies[q], db, sys'.procs[q])
      {
        OnlyHolder(sys, p, sys'.procs[p], q);
      }
    }
  }

  lemma FinishedMigration(lex: Lexicon, apply: (Db, nat) -> Option<Db>, identity: string, db: Db, w: Process)
    requires WellFormed(db) && apply == MigrationApply(lex, identity)
    requires w.Working? && w.next > CURRENT_SCHEMA_VERSION && OnTheWay(apply, db, w)
    ensures Migrated(apply, db) == Ok((w.copy, Report(w.from, CURRENT_SCHEMA_VERSION, w.applied, w.adopted, false)))
    ensures Classify(w.copy) == Ok((CURRENT_SCHEMA_VERSION, false))
  {
    var b := Migrations.Begin(db, w.from, w.adopted);
    MigratedBy(apply, db, w.from, w.adopted, b.0, b.1);
    MigratedState(lex, db, identity, w.from, w.adopted);
    ClassifyVersioned(w.copy, CURRENT_SCHEMA_VERSION);
  }

  lemma CommitKeeps(lex: Lexicon, applies: seq<(Db, nat) -> Option<Db>>, identities: seq<string>, db: Db, sys: System, p: nat, sys': System)
    requires WellFormed(db) && Genuine(lex, applies, identities) && Invariant(applies, db, sys)
    requires p < |sys.procs| && sys.procs[p].Working? && sys.procs[p].next > CURRENT_SCHEMA_VERSION && sys' == CommitStep(sys, p)
    ensures Invariant(applies, db, sys')
  {
    FinishedMigration(lex, applies[p], identities[p], db, sys.procs[p]);
  }

  lemma StepKeeps(lex: Lexicon, applies: seq<(Db, nat) -> Option<Db>>, identities: seq<string>, db: Db, sys: System, e: Event)
    requires WellFormed(db) && Genuine(lex, applies, identities) && Invariant(applies, db, sys)
    ensures Invariant(applies, db, Step(applies, sys, e))
  {
    if e.p < |sys.procs| {
      var proc, sys' := sys.procs[e.p], Step(applies, sys, e);
      match e {
        case Begin(p) => if proc.Idle? && sys.lock == None { BeginKeeps(applies, db, sys, p, sys'); }
        case Timeout(p) =>
        case Apply(p) => if proc.Working? && 1 <= proc.next <= CURRENT_SCHEMA_VERSION { ApplyKeepsRuns(applies, db, sys, p); }
        case Crash(p) =>
        case Commit(p) => if proc.Working? && proc.next > CURRENT_SCHEMA_VERSION { CommitKeeps(lex, applies, identities, db, sys, p, sys'); }
      }
    }
  }

  lemma {:induction false} RunKeeps(lex: Lexicon, applies: seq<(Db, nat) -> Option<Db>>, identities: seq<string>, db: Db, events: seq<Event>)
    requires WellFormed(db) && Genuine(lex, applies, identities)
    ensures Invariant(applies, db, Run(applies, Start(db, |applies|), events))
  {
    if events != [] {
      var front := events[..|events| - 1];
      RunKeeps(lex, applies, identities, db, front);
      StepKeeps(lex, applies, identities, db, Run(applies, Start(db, |applies|), front), events[|events| - 1]);
    }
  }

  // ----- what any interleaving amounts to -----

  /** The committed file is the initial one, or the result of migrating it once, by the process that
      reports exactly the missing versions; everyone else that finished reports no change. */
  ghost predicate Serial(applies: seq<(Db, nat) -> Option<Db>>, db: Db, sys: System) {
    && SameRows(sys.committed, db)
    && (sys.commits == [] ==> sys.committed == db)
    && (sys.commits != [] ==> |sys.commits| == 1 && MigratedByOne(applies, db, sys, sys.commits[0]))
    && (forall p: nat :: p < |sys.procs| && sys.procs[p].Done? && p !in sys.commits ==> sys.procs[p].report.applied == [])
  }

  ghost predicate MigratedByOne(applies: seq<(Db, nat) -> Option<Db>>, db: Db, sys: System, p: nat) {
    && p < |applies| && p < |sys.procs| && sys.procs[p].Done?
    && AtVersion(sys.committed, CURRENT_SCHEMA_VERSION) && sys.committed.userVersion == CURRENT_SCHEMA_VERSION
    && var report := sys.procs[p].report;
       && Migrated(applies[p], db) == Ok((sys.committed, report))
       && AtVersion(db, report.fromVersion)
       && report.applied == Versions(report.fromVersion + 1, CURRENT_SCHEMA_VERSION) && report.applied != []
       && DryRunPending(db) == Ok(report.applied)
  }

  lemma InvariantIsSerial(lex: Lexicon, applies: seq<(Db, nat) -> Option<Db>>, identities: seq<string>, db: Db, sys: System)
    requires WellFormed(db) && Genuine(lex, applies, identities) && Invariant(applies, db, sys)
    ensures Serial(applies, db, sys)
  {
    if sys.commits != [] {
      MigrateCorrect(lex, db, identities[sys.commits[0]]);
    }
  }

  /** Any interleaving is serial, at every moment. */
  lemma MigratorsSerialise(lex: Lexicon, applies: seq<(Db, nat) -> Option<Db>>, identities: seq<string>, db: Db, events: seq<Event>)
    requires WellFormed(db) && Genuine(lex, applies, identities)
    ensures Serial(applies, db, Run(applies, Start(db, |applies|), events))
  {
    RunKeeps(lex, applies, identities, db, events);
    InvariantIsSerial(lex, applies, identities, db, Run(applies, Start(db, |applies|), events));
  }

  /** Commits are only ever added. */
  lemma {:induction false} CommitsGrow(applies: seq<(Db, nat) -> Option<Db>>, sys: System, events: seq<Event>, more: seq<Event>)
    requires |sys.procs| == |applies|
    ensures var a, b := Run(applies, sys, events), Run(applies, sys, events + more);
            a.commits <= b.commits && (a.commits == b.commits ==> a.committed == b.committed)
  {
    if more == [] {
      assert events + more == events;
    } else {
      var front := more[..|more| - 1];
      CommitsGrow(applies, sys, events, front);
      assert (events + more)[..|events + more| - 1] == events + front;
    }
  }

  lemma RunHistory(lex: Lexicon, applies: seq<(Db, nat) -> Option<Db>>, identities: seq<string>, db: Db, events: seq<Event>, sys: System)
    requires WellFormed(db) && Genuine(lex, applies, identities) && sys == Run(applies, Start(db, |applies|), events)
    ensures |sys.commits| <= 1
    ensures sys.commits == [] ==> sys.committed == db
    ensures sys.commits != [] ==> sys.committed.history == Prefix(CURRENT_SCHEMA_VERSION) && db.history <= Prefix(CURRENT_SCHEMA_VERSION)
  {
    MigratorsSerialise(lex, applies, identities, db, events);
  }

  lemma CommittedGrows(lex: Lexicon, applies: seq<(Db, nat) -> Option<Db>>, identities: seq<string>, db: Db,
                       events: seq<Event>, more: seq<Event>, a: System, b: System)
    requires WellFormed(db) && Genuine(lex, applies, identities)
    requires a == Run(applies, Start(db, |applies|), events) && b == Run(applies, Start(db, |applies|), events + more)
    ensures a.commits <= b.commits && (a.commits == b.commits ==> a.committed == b.committed)
  {
    CommitsGrow(applies, Start(db, |applies|), events, more);
  }

  lemma Grown(before: seq<HistoryRow>, latest: seq<HistoryRow>, a: System, b: System)
    requires a.commits <= b.commits && |b.commits| <= 1 && (a.commits == b.commits ==> a.committed == b.committed)
    requires a.commits == [] ==> a.committed.history == before
    requires b.commits != [] ==> b.committed.history == latest && before <= latest
    ensures a.committed.history <= b.committed.history
  {
  }

  /** The history is a prefix of the migration list that only grows. */
  lemma HistoryOnlyGrows(lex: Lexicon, applies: seq<(Db, nat) -> Option<Db>>, identities: seq<string>, db: Db,
                         events: seq<Event>, more: seq<Event>, a: System, b: System)
    requires WellFormed(db) && Genuine(lex, applies, identities)
    requires a == Run(applies, Start(db, |applies|), events) && b == Run(applies, Start(db, |applies|), events + more)
    ensures a.committed.history <= b.committed.history
  {
    CommittedGrows(lex, applies, identities, db, events, more, a, b);
    RunHistory(lex, applies, identities, db, events, a);
    RunHistory(lex, applies, identities, db, events + more, b);
    Grown(db.history, Prefix(CURRENT_SCHEMA_VERSION), a, b);
  }
}
