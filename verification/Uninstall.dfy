/** Taking an installation back (integration_install.py): configurations are cleaned, generated
    files quarantined, and the manifest deleted last; a failure before that restores everything. */
module Uninstall {
  import opened Basics
  import opened Json
  import opened Store
  import opened Hooks
  import opened InstallPlan

  /** A configuration to be rewritten, with the bytes to put back. */
  datatype Change = Change(dest: Dest, cleaned: Config, before: Content)

  /** A generated file on its way out. */
  datatype Move = Move(dest: Dest, to: Path, content: Content)

  datatype Outcome = Failed | Preserved | Removed

  // ----- planning the configuration edits -----

  predicate MakesDest(gens: seq<Generated>, d: Dest) {
    exists i :: 0 <= i < |gens| && gens[i].dest == d
  }

  predicate GeneratedBy(m: Manifest, d: Dest) {
    MakesDest(m.generated, d)
  }

  /** Edits that uninstalling skips: files that are gone, TypeScript, and scripts recorded for their backup. */
  predicate Skipped(files: Files, m: Manifest, e: Edit) {
    At(e.dest) !in files || e.dest == Plugin || (GeneratedBy(m, e.dest) && !e.dest.Settings?)
  }

  predicate Unreadable(files: Files, m: Manifest, e: Edit) {
    !Skipped(files, m, e) && !files[At(e.dest)].Document?
  }

  function PlanEdit(t: Templates, files: Files, m: Manifest, e: Edit): seq<Change> {
    if Skipped(files, m, e) then []
    else match files[At(e.dest)]
      case Document(Obj(config), _) =>
        var cleaned := RemoveOwned(t.dumps, config, e.marker);
        if cleaned == config then [] else [Change(e.dest, cleaned, files[At(e.dest)])]
      case _ => []
  }

  function PlanEdits(t: Templates, files: Files, m: Manifest, edits: seq<Edit>): seq<Change> {
    if edits == [] then [] else PlanEdits(t, files, m, edits[..|edits| - 1]) + PlanEdit(t, files, m, edits[|edits| - 1])
  }

  predicate PlanFails(files: Files, m: Manifest) {
    exists i :: 0 <= i < |m.edits| && Unreadable(files, m, m.edits[i])
  }

  /** Every change starts from the bytes that are there. */
  predicate Grounded(files: Files, changes: seq<Change>) {
    forall i :: 0 <= i < |changes| ==> Lookup(files, At(changes[i].dest)) == Some(changes[i].before)
  }

  lemma {:induction false} PlanIsGrounded(t: Templates, files: Files, m: Manifest, edits: seq<Edit>)
    ensures var cs := PlanEdits(t, files, m, edits);
            Grounded(files, cs) && forall i :: 0 <= i < |cs| ==> !GeneratedBy(m, cs[i].dest) || cs[i].dest.Settings?
  {
    if edits != [] {
      PlanIsGrounded(t, files, m, edits[..|edits| - 1]);
    }
  }

  // ----- the phases as functions of the files -----

  function ApplyChanges(files: Files, changes: seq<Change>): Files {
    if changes == [] then files
    else
      var c := changes[|changes| - 1];
      ApplyChanges(files, changes[..|changes| - 1])[At(c.dest) := Document(Obj(c.cleaned), "")]
  }

  predicate Modified(files: Files, g: Generated) {
    At(g.dest) in files && Sha(files[At(g.dest)]) != g.sha
  }

  function RemoveOne(files: Files, g: Generated, force: bool): Files {
    if At(g.dest) in files && (force || !Modified(files, g)) then files - {At(g.dest)} else files
  }

  function RemoveGenerated(files: Files, gens: seq<Generated>, force: bool): Files {
    if gens == [] then files else RemoveOne(RemoveGenerated(files, gens[..|gens| - 1], force), gens[|gens| - 1], force)
  }

  /** A modified file stands in the way when its turn comes. */
  predicate KeepsModified(files: Files, gens: seq<Generated>, force: bool) {
    exists j :: 0 <= j < |gens| && StopsAt(files, gens, force, j)
  }

  predicate StopsAt(files: Files, gens: seq<Generated>, force: bool, j: nat)
    requires j < |gens|
  {
    !force && Modified(RemoveGenerated(files, gens[..j], force), gens[j])
  }

  function Cleaned(t: Templates, files: Files, m: Manifest): Files {
    ApplyChanges(files, PlanEdits(t, files, m, m.edits))
  }

  /** The files after a completed uninstallation. */
  function Uninstalled(t: Templates, files: Files, m: Manifest, force: bool): Files {
    var gone := RemoveGenerated(Cleaned(t, files, m), m.generated, force);
    if KeepsModified(Cleaned(t, files, m), m.generated, force) then gone else gone - {ManifestOf(m.installation)}
  }

  /** The installer's manifests never list a configuration as a generated file. */
  predicate WellMade(m: Manifest) {
    forall i :: 0 <= i < |m.generated| ==> !m.generated[i].dest.Settings?
  }

  // ----- maps by their entries -----

  lemma SameEntries(a: Files, b: Files)
    requires forall p :: Lookup(a, p) == Lookup(b, p)
    ensures a == b
  {
    forall p | p in a
      ensures p in b && a[p] == b[p]
    {
      assert Lookup(a, p) == Lookup(b, p);
    }
    forall p | p in b
      ensures p in a
    {
      assert Lookup(a, p) == Lookup(b, p);
    }
  }

  function ChangedPaths(changes: seq<Change>): set<Path> {
    set i | 0 <= i < |changes| :: At(changes[i].dest)
  }

  function MovedFrom(moves: seq<Move>): set<Path> {
    set i | 0 <= i < |moves| :: At(moves[i].dest)
  }

  function MovedTo(moves: seq<Move>): set<Path> {
    set i | 0 <= i < |moves| :: moves[i].to
  }

  lemma {:induction false} ChangesLeaveOthers(files: Files, changes: seq<Change>, p: Path)
    requires p !in ChangedPaths(changes)
    ensures Lookup(ApplyChanges(files, changes), p) == Lookup(files, p)
  {
    if changes != [] {
      var front := changes[..|changes| - 1];
      assert forall i :: 0 <= i < |front| ==> front[i] == changes[i];
      assert p != At(changes[|changes| - 1].dest);
      ChangesLeaveOthers(files, front, p);
    }
  }

  // ----- rewriting and restoring configurations -----

  method ReplaceConfigs(home: Home, changes: seq<Change>, fault: Option<nat>) returns (ok: bool, done: nat)
    modifies home
    ensures done <= |changes| && home.files == ApplyChanges(old(home.files), changes[..done])
    ensures ok <==> Survives(fault, |changes|)
    ensures ok ==> done == |changes|
  {
    done := 0;
    while done < |changes|
      invariant 0 <= done <= |changes| && home.files == ApplyChanges(old(home.files), changes[..done])
      invariant fault.Some? ==> done <= fault.value
    {
      if FailsAt(fault, done) {
        return false, done;
      }
      assert changes[..done + 1][..done] == changes[..done];
      home.files := home.files[At(changes[done].dest) := Document(Obj(changes[done].cleaned), "")];
      done := done + 1;
    }
    assert changes[..done] == changes;
    return true, done;
  }

  lemma ChangedOneMore(c: Change, rest: seq<Change>)
    ensures ChangedPaths([c] + rest) == {At(c.dest)} + ChangedPaths(rest)
  {
    var all := [c] + rest;
    forall p | p in {At(c.dest)} + ChangedPaths(rest)
      ensures p in ChangedPaths(all)
    {
      if p == At(c.dest) {
        assert all[0] == c;
      } else {
        var i :| 0 <= i < |rest| && p == At(rest[i].dest);
        assert all[i + 1] == rest[i];
      }
    }
  }

  /** The original bytes go back, last change first. */
  method RestoreConfigs(home: Home, changes: seq<Change>, ghost base: Files)
    requires Grounded(base, changes)
    modifies home
    ensures forall p :: Lookup(home.files, p) == if p in ChangedPaths(changes) then Lookup(base, p) else Lookup(old(home.files), p)
  {
    var i := |changes|;
    while i > 0
      invariant 0 <= i <= |changes|
      invariant forall p :: Lookup(home.files, p)
                         == if p in ChangedPaths(changes[i..]) then Lookup(base, p) else Lookup(old(home.files), p)
    {
      i := i - 1;
      home.files := home.files[At(changes[i].dest) := changes[i].before];
      assert changes[i..] == [changes[i]] + changes[i + 1..];
      ChangedOneMore(changes[i], changes[i + 1..]);
    }
    assert changes[0..] == changes;
  }

  // ----- quarantine -----

  predicate DistinctMoves(moves: seq<Move>) {
    forall i, j :: 0 <= i < j < |moves| ==> moves[i].to != moves[j].to && moves[i].dest != moves[j].dest
  }

  /** Where the moves have taken the files of `start`. */
  ghost predicate AfterMoves(files: Files, start: Files, moves: seq<Move>) {
    && DistinctMoves(moves)
    && (forall i :: 0 <= i < |moves| ==>
          && Lookup(start, At(moves[i].dest)) == Some(moves[i].content) && Lookup(files, At(moves[i].dest)) == None
          && Lookup(files, moves[i].to) == Some(moves[i].content) && Lookup(start, moves[i].to) == None)
    && (forall p :: p !in MovedFrom(moves) && p !in MovedTo(moves) ==> Lookup(files, p) == Lookup(start, p))
  }

  /** The first n files of the list have gone to the first n places of one quarantine. */
  predicate Named(moves: seq<Move>, gens: seq<Generated>, id: string, run: string, n: nat) {
    forall i :: 0 <= i < |moves| ==>
      && moves[i].to.Quarantined? && moves[i].to.installation == id && moves[i].to.run == run && moves[i].to.n < n
      && MakesDest(gens, moves[i].dest)
  }

  lemma NamedOneMore(moves: seq<Move>, moved: seq<Move>, gens: seq<Generated>, id: string, run: string, j: nat)
    requires Named(moves, gens, id, run, j) && j < |gens|
    requires moved == moves || (|moved| == |moves| + 1 && moved[..|moves|] == moves && moved[|moves|].dest == gens[j].dest
                                && moved[|moves|].to == Quarantined(id, run, j))
    ensures Named(moved, gens, id, run, j + 1)
  {
  }

  ghost predicate QuarantineEmpty(files: Files, id: string, run: string) {
    forall n: nat :: Quarantined(id, run, n) !in files
  }

  lemma MovedOneMore(moves: seq<Move>, mv: Move)
    ensures MovedFrom(moves + [mv]) == MovedFrom(moves) + {At(mv.dest)}
    ensures MovedTo(moves + [mv]) == MovedTo(moves) + {mv.to}
  {
    var all := moves + [mv];
    assert all[|moves|] == mv;
    assert forall i :: 0 <= i < |moves| ==> all[i] == moves[i];
  }

  lemma MoveOneMore(files: Files, start: Files, moves: seq<Move>, mv: Move, files': Files)
    requires AfterMoves(files, start, moves)
    requires Lookup(files, At(mv.dest)) == Some(mv.content) && mv.to !in files && mv.to !in start && mv.to.Quarantined?
    requires forall i :: 0 <= i < |moves| ==> moves[i].to.Quarantined?
    requires files' == (files - {At(mv.dest)})[mv.to := mv.content]
    ensures AfterMoves(files', start, moves + [mv])
  {
    var all := moves + [mv];
    MovedOneMore(moves, mv);
    assert At(mv.dest) !in MovedFrom(moves) && At(mv.dest) !in MovedTo(moves);
    assert Lookup(start, At(mv.dest)) == Some(mv.content);
    forall i | 0 <= i < |moves|
      ensures moves[i].to != mv.to && moves[i].dest != mv.dest
    {
      assert Lookup(files, At(moves[i].dest)) == None && Lookup(files, moves[i].to) == Some(moves[i].content);
    }
    forall i | 0 <= i < |all|
      ensures Lookup(start, At(all[i].dest)) == Some(all[i].content) && Lookup(files', At(all[i].dest)) == None
      ensures Lookup(files', all[i].to) == Some(all[i].content) && Lookup(start, all[i].to) == None
    {
      if i < |moves| {
        assert all[i] == moves[i];
      }
    }
    DistinctOneMore(moves, mv);
  }

  lemma DistinctOneMore(moves: seq<Move>, mv: Move)
    requires DistinctMoves(moves)
    requires forall i :: 0 <= i < |moves| ==> moves[i].to != mv.to && moves[i].dest != mv.dest
    ensures DistinctMoves(moves + [mv])
  {
  }

  /** `gone` is what is left outside the quarantine. */
  ghost predicate LeftOver(gone: Files, files: Files, moves: seq<Move>) {
    forall p :: Lookup(gone, p) == if p in MovedTo(moves) then None else Lookup(files, p)
  }

  lemma QuarantineStep(gone: Files, files: Files, moves: seq<Move>, mv: Move, files': Files)
    requires LeftOver(gone, files, moves)
    requires mv.to !in files && mv.to.Quarantined?
    requires files' == (files - {At(mv.dest)})[mv.to := mv.content]
    ensures LeftOver(gone - {At(mv.dest)}, files', moves + [mv])
  {
    var all := moves + [mv];
    MovedOneMore(moves, mv);
    forall p
      ensures Lookup(gone - {At(mv.dest)}, p) == if p in MovedTo(all) then None else Lookup(files', p)
    {
      assert Lookup(gone, p) == if p in MovedTo(moves) then None else Lookup(files, p);
    }
  }

  /** One generated file: kept when it was modified, moved otherwise. */
  method QuarantineOne(home: Home, g: Generated, force: bool, to: Path, moves: seq<Move>, ghost start: Files, ghost gone: Files)
    returns (moves': seq<Move>, stopped: bool)
    requires AfterMoves(home.files, start, moves) && LeftOver(gone, home.files, moves)
    requires to.Quarantined? && to !in home.files && to !in start
    requires forall i :: 0 <= i < |moves| ==> moves[i].to.Quarantined?
    modifies home
    ensures AfterMoves(home.files, start, moves') && LeftOver(RemoveOne(gone, g, force), home.files, moves')
    ensures stopped <==> !force && Modified(gone, g)
    ensures moves' == moves || (|moves'| == |moves| + 1 && moves'[..|moves|] == moves && moves'[|moves|].dest == g.dest && moves'[|moves|].to == to)
    ensures forall p :: p != to && p !in old(home.files) ==> p !in home.files
  {
    assert At(g.dest) !in MovedTo(moves);
    assert Lookup(gone, At(g.dest)) == Lookup(home.files, At(g.dest));
    if At(g.dest) !in home.files {
      return moves, false;
    }
    if Sha(home.files[At(g.dest)]) != g.sha && !force {
      return moves, true;
    }
    var mv := Move(g.dest, to, home.files[At(g.dest)]);
    home.files := (home.files - {At(g.dest)})[mv.to := mv.content];
    MoveOneMore(old(home.files), start, moves, mv, home.files);
    QuarantineStep(gone, old(home.files), moves, mv, home.files);
    return moves + [mv], false;
  }

  /** The quarantine phase: hash check, then move. */
  method QuarantineGenerated(home: Home, gens: seq<Generated>, force: bool, id: string, run: string, fault: Option<nat>, offset: nat)
    returns (ok: bool, moves: seq<Move>, kept: bool)
    requires QuarantineEmpty(home.files, id, run) && Survives(fault, offset)
    modifies home
    ensures AfterMoves(home.files, old(home.files), moves)
    ensures forall i :: 0 <= i < |moves| ==> moves[i].to.Quarantined? && MakesDest(gens, moves[i].dest)
    ensures ok <==> Survives(fault, offset + |gens|)
    ensures ok ==> kept == KeepsModified(old(home.files), gens, force)
    ensures ok ==> LeftOver(RemoveGenerated(old(home.files), gens, force), home.files, moves)
  {
    ghost var start := home.files;
    moves, kept := [], false;
    var j := 0;
    while j < |gens|
      invariant 0 <= j <= |gens| && AfterMoves(home.files, start, moves) && Named(moves, gens, id, run, j)
      invariant forall n: nat :: n >= j ==> Quarantined(id, run, n) !in home.files
      invariant fault.Some? ==> offset + j <= fault.value
      invariant kept <==> exists k :: 0 <= k < j && StopsAt(start, gens, force, k)
      invariant LeftOver(RemoveGenerated(start, gens[..j], force), home.files, moves)
    {
      if FailsAt(fault, offset + j) {
        return false, moves, kept;
      }
      assert gens[..j + 1][..j] == gens[..j];
      ghost var gone := RemoveGenerated(start, gens[..j], force);
      assert StopsAt(start, gens, force, j) <==> !force && Modified(gone, gens[j]);
      var moved, stopped := QuarantineOne(home, gens[j], force, Quarantined(id, run, j), moves, start, gone);
      NamedOneMore(moves, moved, gens, id, run, j);
      moves, kept, j := moved, kept || stopped, j + 1;
    }
    assert gens[..j] == gens;
    return true, moves, kept;
  }

  /** Quarantined files go home, last first. */
  method Unquarantine(home: Home, moves: seq<Move>)
    requires forall i :: 0 <= i < |moves| ==> moves[i].to.Quarantined? && Lookup(home.files, moves[i].to) == Some(moves[i].content)
    requires DistinctMoves(moves)
    modifies home
    ensures forall i :: 0 <= i < |moves| ==>
              Lookup(home.files, At(moves[i].dest)) == Some(moves[i].content) && Lookup(home.files, moves[i].to) == None
    ensures forall p :: p !in MovedFrom(moves) && p !in MovedTo(moves) ==> Lookup(home.files, p) == Lookup(old(home.files), p)
  {
    var i := |moves|;
    while i > 0
      invariant 0 <= i <= |moves|
      invariant forall k :: 0 <= k < i ==> Lookup(home.files, moves[k].to) == Some(moves[k].content)
      invariant forall k :: i <= k < |moves| ==>
                  Lookup(home.files, At(moves[k].dest)) == Some(moves[k].content) && Lookup(home.files, moves[k].to) == None
      invariant forall p :: p !in MovedFrom(moves) && p !in MovedTo(moves) ==> Lookup(home.files, p) == Lookup(old(home.files), p)
    {
      i := i - 1;
      var mv := moves[i];
      assert At(mv.dest) in MovedFrom(moves) && mv.to in MovedTo(moves);
      home.files := (home.files - {mv.to})[At(mv.dest) := home.files[mv.to]];
    }
  }

  method DropQuarantine(home: Home, moves: seq<Move>)
    modifies home
    ensures forall p :: Lookup(home.files, p) == if p in MovedTo(moves) then None else Lookup(old(home.files), p)
  {
    var i := 0;
    while i < |moves|
      invariant 0 <= i <= |moves|
      invariant forall p :: Lookup(home.files, p) == if p in MovedTo(moves[..i]) then None else Lookup(old(home.files), p)
    {
      home.files := home.files - {moves[i].to};
      assert moves[..i + 1] == moves[..i] + [moves[i]];
      MovedOneMore(moves[..i], moves[i]);
      i := i + 1;
    }
    assert moves[..i] == moves;
  }

  // ----- the transaction -----

  predicate Apart(changes: seq<Change>, moves: seq<Move>) {
    forall i, j :: 0 <= i < |changes| && 0 <= j < |moves| ==> changes[i].dest != moves[j].dest
  }

  /** Originals restored over the moves, then the moves undone: nothing is left of the attempt. */
  lemma RolledBack(base: Files, changes: seq<Change>, start: Files, moves: seq<Move>, moved: Files, restored: Files, final: Files)
    requires Grounded(base, changes) && start == ApplyChanges(base, changes) && Apart(changes, moves)
    requires AfterMoves(moved, start, moves) && forall i :: 0 <= i < |moves| ==> moves[i].to.Quarantined?
    requires forall p :: Lookup(restored, p) == if p in ChangedPaths(changes) then Lookup(base, p) else Lookup(moved, p)
    requires forall i :: 0 <= i < |moves| ==>
               Lookup(final, At(moves[i].dest)) == Some(moves[i].content) && Lookup(final, moves[i].to) == None
    requires forall p :: p !in MovedFrom(moves) && p !in MovedTo(moves) ==> Lookup(final, p) == Lookup(restored, p)
    ensures final == base
  {
    forall p
      ensures Lookup(final, p) == Lookup(base, p)
    {
      if p in MovedFrom(moves) {
        var i :| 0 <= i < |moves| && p == At(moves[i].dest);
        assert p !in ChangedPaths(changes);
        ChangesLeaveOthers(base, changes, p);
      } else if p in MovedTo(moves) {
        var i :| 0 <= i < |moves| && p == moves[i].to;
        assert p !in ChangedPaths(changes);
        ChangesLeaveOthers(base, changes, p);
      } else if p !in ChangedPaths(changes) {
        ChangesLeaveOthers(base, changes, p);
      }
    }
    SameEntries(final, base);
  }

  /** The except branch of uninstall_native_transactional. */
  method RollbackUninstall(home: Home, changes: seq<Change>, moves: seq<Move>, ghost base: Files)
    requires Grounded(base, changes) && Apart(changes, moves)
    requires AfterMoves(home.files, ApplyChanges(base, changes), moves)
    requires forall i :: 0 <= i < |moves| ==> moves[i].to.Quarantined?
    modifies home
    ensures home.files == base
  {
    ghost var moved := home.files;
    RestoreConfigs(home, changes, base);
    ghost var restored := home.files;
    forall i | 0 <= i < |moves|
      ensures Lookup(restored, moves[i].to) == Some(moves[i].content)
    {
      assert moves[i].to !in ChangedPaths(changes);
    }
    Unquarantine(home, moves);
    RolledBack(base, changes, ApplyChanges(base, changes), moves, moved, restored, home.files);
  }

  lemma DroppedQuarantine(gone: Files, files: Files, moves: seq<Move>, final: Files)
    requires LeftOver(gone, files, moves)
    requires forall p :: Lookup(final, p) == if p in MovedTo(moves) then None else Lookup(files, p)
    ensures final == gone
  {
    SameEntries(final, gone);
  }

  lemma LeftOverWithout(gone: Files, files: Files, moves: seq<Move>, m: Path)
    requires LeftOver(gone, files, moves)
    ensures LeftOver(gone - {m}, files - {m}, moves)
  {
  }

  /** The effects of a run: each configuration, each generated file, and the manifest unless it stays. */
  function Effects(t: Templates, files: Files, m: Manifest, force: bool): nat {
    |PlanEdits(t, files, m, m.edits)| + |m.generated| + if KeepsModified(Cleaned(t, files, m), m.generated, force) then 0 else 1
  }

  /** The transaction of uninstall_native_transactional. `fault` counts the effects up to and
      including the deletion of the manifest. */
  method UninstallTransaction(t: Templates, home: Home, m: Manifest, force: bool, run: string, fault: Option<nat>) returns (r: Outcome)
    requires WellMade(m) && QuarantineEmpty(home.files, m.installation, run)
    modifies home
    ensures r == Failed <==> PlanFails(old(home.files), m) || !Survives(fault, Effects(t, old(home.files), m, force))
    ensures r == Failed ==> home.files == old(home.files)
    ensures r != Failed ==> home.files == Uninstalled(t, old(home.files), m, force)
    ensures r != Failed ==> (r == Preserved <==> KeepsModified(Cleaned(t, old(home.files), m), m.generated, force))
  {
    ghost var base := home.files;
    if PlanFails(home.files, m) {
      return Failed;
    }
    var changes := PlanEdits(t, home.files, m, m.edits);
    PlanIsGrounded(t, home.files, m, m.edits);
    var cleaned, done := ReplaceConfigs(home, changes, fault);
    if !cleaned {
      ghost var none: seq<Move> := [];
      RollbackUninstall(home, changes[..done], [], base);
      return Failed;
    }
    assert changes[..done] == changes;
    forall n: nat
      ensures Quarantined(m.installation, run, n) !in home.files
    {
      ChangesLeaveOthers(base, changes, Quarantined(m.installation, run, n));
    }
    var out, moves, kept := QuarantineGenerated(home, m.generated, force, m.installation, run, fault, |changes|);
    assert Apart(changes, moves) by {
      assert forall j :: 0 <= j < |moves| ==> GeneratedBy(m, moves[j].dest);
    }
    if !out {
      RollbackUninstall(home, changes, moves, base);
      return Failed;
    }
    ghost var gone := RemoveGenerated(Cleaned(t, base, m), m.generated, force);
    ghost var held := home.files;
    if kept {
      DropQuarantine(home, moves);
      DroppedQuarantine(gone, held, moves, home.files);
      return Preserved;
    }
    if FailsAt(fault, |changes| + |m.generated|) {
      RollbackUninstall(home, changes, moves, base);
      return Failed;
    }
    var manifest := ManifestOf(m.installation);
    home.files := home.files - {manifest};
    DropQuarantine(home, moves);
    LeftOverWithout(gone, held, moves, manifest);
    DroppedQuarantine(gone - {manifest}, held - {manifest}, moves, home.files);
    return Removed;
  }

  // ----- what uninstalling changes -----

  lemma {:induction false} RemovalOnlyRemoves(files: Files, gens: seq<Generated>, force: bool, p: Path)
    ensures Lookup(RemoveGenerated(files, gens, force), p) == Lookup(files, p)
         || (Lookup(RemoveGenerated(files, gens, force), p) == None && exists i :: 0 <= i < |gens| && p == At(gens[i].dest))
  {
    if gens != [] {
      RemovalOnlyRemoves(files, gens[..|gens| - 1], force, p);
    }
  }

  lemma {:induction false} PlanStaysInEdits(t: Templates, files: Files, m: Manifest, edits: seq<Edit>, p: Path)
    requires p in ChangedPaths(PlanEdits(t, files, m, edits))
    ensures exists i :: 0 <= i < |edits| && p == At(edits[i].dest)
  {
    if edits != [] {
      var front, last := edits[..|edits| - 1], edits[|edits| - 1];
      var cs := PlanEdits(t, files, m, edits);
      var k :| 0 <= k < |cs| && p == At(cs[k].dest);
      if k < |PlanEdits(t, files, m, front)| {
        assert cs[k] == PlanEdits(t, files, m, front)[k];
        PlanStaysInEdits(t, files, m, front, p);
      } else {
        assert cs[k] == PlanEdit(t, files, m, last)[0];
        assert p == At(edits[|edits| - 1].dest);
      }
    }
  }

  /** No path outside the manifest's files, its configuration edits and the manifest itself changes. */
  lemma UninstallStaysInside(t: Templates, files: Files, m: Manifest, force: bool, p: Path)
    requires p != ManifestOf(m.installation)
    requires forall i :: 0 <= i < |m.generated| ==> p != At(m.generated[i].dest)
    requires forall i :: 0 <= i < |m.edits| ==> p != At(m.edits[i].dest)
    ensures Lookup(Uninstalled(t, files, m, force), p) == Lookup(files, p)
  {
    var changes := PlanEdits(t, files, m, m.edits);
    if p in ChangedPaths(changes) {
      PlanStaysInEdits(t, files, m, m.edits, p);
    }
    ChangesLeaveOthers(files, changes, p);
    RemovalOnlyRemoves(Cleaned(t, files, m), m.generated, force, p);
  }

  /** Cleaning touches no generated file. */
  lemma CleaningSparesGenerated(t: Templates, files: Files, m: Manifest, i: nat)
    requires WellMade(m) && i < |m.generated|
    ensures Lookup(Cleaned(t, files, m), At(m.generated[i].dest)) == Lookup(files, At(m.generated[i].dest))
  {
    var changes := PlanEdits(t, files, m, m.edits);
    PlanIsGrounded(t, files, m, m.edits);
    assert GeneratedBy(m, m.generated[i].dest);
    ChangesLeaveOthers(files, changes, At(m.generated[i].dest));
  }

  lemma {:induction false} UnforcedKeeps(files: Files, gens: seq<Generated>, d: Dest)
    requires At(d) in files
    requires forall i :: 0 <= i < |gens| && gens[i].dest == d ==> gens[i].sha != Sha(files[At(d)])
    ensures Lookup(RemoveGenerated(files, gens, false), At(d)) == Lookup(files, At(d))
  {
    if gens != [] {
      UnforcedKeeps(files, gens[..|gens| - 1], d);
    }
  }

  /** Without force, a generated file whose bytes were changed is never removed, and the manifest stays. */
  lemma UnforcedPreservesModified(t: Templates, files: Files, m: Manifest, d: Dest)
    requires WellMade(m) && At(d) in files && GeneratedBy(m, d)
    requires forall i :: 0 <= i < |m.generated| && m.generated[i].dest == d ==> m.generated[i].sha != Sha(files[At(d)])
    ensures Lookup(Uninstalled(t, files, m, false), At(d)) == Lookup(files, At(d))
    ensures KeepsModified(Cleaned(t, files, m), m.generated, false)
  {
    var i :| 0 <= i < |m.generated| && m.generated[i].dest == d;
    CleaningSparesGenerated(t, files, m, i);
    UnforcedKeeps(Cleaned(t, files, m), m.generated, d);
    UnforcedKeeps(Cleaned(t, files, m), m.generated[..i], d);
    assert StopsAt(Cleaned(t, files, m), m.generated, false, i);
  }

  lemma {:induction false} ForcedRemoves(files: Files, gens: seq<Generated>, i: nat)
    requires i < |gens|
    ensures At(gens[i].dest) !in RemoveGenerated(files, gens, true)
  {
    if i < |gens| - 1 {
      ForcedRemoves(files, gens[..|gens| - 1], i);
    }
  }

  /** A forced uninstallation, also one that follows an unforced one, leaves no generated file and
      no manifest. */
  lemma ForcedLeavesNothing(t: Templates, files: Files, m: Manifest)
    ensures var once := Uninstalled(t, files, m, true);
            ManifestOf(m.installation) !in once && forall i :: 0 <= i < |m.generated| ==> At(m.generated[i].dest) !in once
    ensures var twice := Uninstalled(t, Uninstalled(t, files, m, false), m, true);
            ManifestOf(m.installation) !in twice && forall i :: 0 <= i < |m.generated| ==> At(m.generated[i].dest) !in twice
  {
    ForcedGone(t, files, m);
    ForcedGone(t, Uninstalled(t, files, m, false), m);
  }

  lemma ForcedGone(t: Templates, files: Files, m: Manifest)
    ensures var once := Uninstalled(t, files, m, true);
            ManifestOf(m.installation) !in once && forall i :: 0 <= i < |m.generated| ==> At(m.generated[i].dest) !in once
  {
    forall i | 0 <= i < |m.generated|
      ensures At(m.generated[i].dest) !in Uninstalled(t, files, m, true)
    {
      ForcedRemoves(Cleaned(t, files, m), m.generated, i);
    }
  }
}
