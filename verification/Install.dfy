/** The install transaction, its rollback, and restoring from its backups (integration_install.py). */
module Install {
  import opened Basics
  import opened Store
  import opened Hooks
  import opened InstallPlan

  // ----- the phases as functions of the files -----

  function WithBackup(files: Files, w: Write, id: string, stamp: string): Files {
    if w.before.Some? then files[BackupOf(w.dest, id, stamp) := w.before.value] else files
  }

  function WithBackups(files: Files, ws: seq<Write>, id: string, stamp: string): Files {
    if ws == [] then files else WithBackup(WithBackups(files, ws[..|ws| - 1], id, stamp), ws[|ws| - 1], id, stamp)
  }

  function WithWrites(files: Files, ws: seq<Write>): Files {
    if ws == [] then files else WithWrites(files, ws[..|ws| - 1])[At(ws[|ws| - 1].dest) := ws[|ws| - 1].content]
  }

  /** The files after a completed installation. */
  function Installed(files: Files, req: Request, ws: seq<Write>, id: string, stamp: string): Files {
    WithWrites(WithBackups(files, ws, id, stamp), ws)[ManifestOf(id) := ManifestText(MakeManifest(req, ws, id, stamp))]
  }

  predicate BackupsFree(files: Files, ws: seq<Write>, id: string, stamp: string) {
    forall i :: 0 <= i < |ws| && ws[i].before.Some? ==> BackupOf(ws[i].dest, id, stamp) !in files
  }

  /** The verification of one written file: its text names the installation. */
  predicate Marked(t: Templates, w: Write, id: string) {
    if IsConfig(w) then w.content.Document? && Occurs(id, t.dumps(w.content.json))
    else w.content.Script? && Occurs("installation_id=" + id, w.content.text)
  }

  predicate AllMarked(t: Templates, ws: seq<Write>, id: string) {
    forall i :: 0 <= i < |ws| ==> Marked(t, ws[i], id)
  }

  lemma {:induction false} BackupsLeaveOthers(files: Files, ws: seq<Write>, id: string, stamp: string, p: Path)
    requires forall i :: 0 <= i < |ws| ==> p != BackupOf(ws[i].dest, id, stamp)
    ensures Lookup(WithBackups(files, ws, id, stamp), p) == Lookup(files, p)
  {
    if ws != [] {
      BackupsLeaveOthers(files, ws[..|ws| - 1], id, stamp, p);
    }
  }

  lemma {:induction false} WritesLeaveOthers(files: Files, ws: seq<Write>, p: Path)
    requires forall i :: 0 <= i < |ws| ==> p != At(ws[i].dest)
    ensures Lookup(WithWrites(files, ws), p) == Lookup(files, p)
  {
    if ws != [] {
      WritesLeaveOthers(files, ws[..|ws| - 1], p);
    }
  }

  lemma {:induction false} BackupsHold(files: Files, ws: seq<Write>, id: string, stamp: string, i: nat)
    requires DistinctDests(ws) && i < |ws| && ws[i].before.Some?
    ensures Lookup(WithBackups(files, ws, id, stamp), BackupOf(ws[i].dest, id, stamp)) == ws[i].before
  {
    if i < |ws| - 1 {
      BackupsHold(files, ws[..|ws| - 1], id, stamp, i);
    }
  }

  lemma {:induction false} WritesHold(files: Files, ws: seq<Write>, i: nat)
    requires DistinctDests(ws) && i < |ws|
    ensures Lookup(WithWrites(files, ws), At(ws[i].dest)) == Some(ws[i].content)
  {
    if i < |ws| - 1 {
      WritesHold(files, ws[..|ws| - 1], i);
    }
  }

  // ----- rolling back -----

  function BackupPaths(ws: seq<Write>, id: string, stamp: string): set<Path> {
    set i | 0 <= i < |ws| && ws[i].before.Some? :: BackupOf(ws[i].dest, id, stamp)
  }

  lemma {:induction false} DroppingBackups(files: Files, ws: seq<Write>, id: string, stamp: string)
    requires BackupsFree(files, ws, id, stamp)
    ensures WithBackups(files, ws, id, stamp) - BackupPaths(ws, id, stamp) == files
  {
    if ws != [] {
      var front, w := ws[..|ws| - 1], ws[|ws| - 1];
      DroppingBackups(files, front, id, stamp);
      assert BackupPaths(ws, id, stamp) == BackupPaths(front, id, stamp) + (if w.before.Some? then {BackupOf(w.dest, id, stamp)} else {});
    } else {
      assert BackupPaths(ws, id, stamp) == {};
    }
  }

  /** What restoring one replaced file must reach: the state before it was replaced. */
  lemma UndoneWrite(files: Files, ws: seq<Write>, k: nat)
    requires DistinctDests(ws) && Current(files, ws) && k < |ws|
    ensures Lookup(WithWrites(files, ws[..k]), At(ws[k].dest)) == ws[k].before
    ensures WithWrites(files, ws[..k + 1]) == WithWrites(files, ws[..k])[At(ws[k].dest) := ws[k].content]
  {
    WritesLeaveOthers(files, ws[..k], At(ws[k].dest));
    assert ws[..k + 1][..k] == ws[..k];
  }

  lemma BackupsKeepCurrent(files: Files, ws: seq<Write>, done: seq<Write>, id: string, stamp: string)
    requires Current(files, ws)
    ensures Current(WithBackups(files, done, id, stamp), ws)
  {
  }

  /** Restores the replaced files, last first, from their backups or, where one is gone, from memory. */
  method UndoWrites(home: Home, ws: seq<Write>, id: string, stamp: string, replaced: nat, ghost saved: Files)
    requires replaced <= |ws| && DistinctDests(ws) && Current(saved, ws)
    requires forall i :: 0 <= i < |ws| && ws[i].before.Some? && BackupOf(ws[i].dest, id, stamp) in saved ==>
               Lookup(saved, BackupOf(ws[i].dest, id, stamp)) == ws[i].before
    requires home.files == WithWrites(saved, ws[..replaced])
    modifies home
    ensures home.files == saved
  {
    var k := replaced;
    while k > 0
      invariant 0 <= k <= replaced && home.files == WithWrites(saved, ws[..k])
    {
      k := k - 1;
      var w := ws[k];
      UndoneWrite(saved, ws, k);
      if w.before.Some? {
        var backup := BackupOf(w.dest, id, stamp);
        WritesLeaveOthers(saved, ws[..k + 1], backup);
        home.files := home.files[At(w.dest) := if backup in home.files then home.files[backup] else w.before.value];
      } else {
        home.files := home.files - {At(w.dest)};
      }
    }
  }

  method DropBackups(home: Home, ws: seq<Write>, id: string, stamp: string)
    modifies home
    ensures home.files == old(home.files) - BackupPaths(ws, id, stamp)
  {
    var i := 0;
    while i < |ws|
      invariant 0 <= i <= |ws| && home.files == old(home.files) - BackupPaths(ws[..i], id, stamp)
    {
      BackupPathsGrow(ws, id, stamp, i);
      if ws[i].before.Some? {
        home.files := home.files - {BackupOf(ws[i].dest, id, stamp)};
      }
      i := i + 1;
    }
    assert ws[..i] == ws;
  }

  lemma BackupPathsGrow(ws: seq<Write>, id: string, stamp: string, i: nat)
    requires i < |ws|
    ensures BackupPaths(ws[..i + 1], id, stamp)
         == BackupPaths(ws[..i], id, stamp) + (if ws[i].before.Some? then {BackupOf(ws[i].dest, id, stamp)} else {})
  {
  }

  /** _rollback_install, entered after `backed` backups and `replaced` replacements. */
  method RollbackInstall(home: Home, ws: seq<Write>, id: string, stamp: string, backed: nat, replaced: nat, ghost base: Files)
    requires backed <= |ws| && replaced <= |ws| && (replaced > 0 ==> backed == |ws|)
    requires DistinctDests(ws) && Current(base, ws) && ManifestOf(id) !in base && BackupsFree(base, ws[..backed], id, stamp)
    requires home.files == WithWrites(WithBackups(base, ws[..backed], id, stamp), ws[..replaced])
    modifies home
    ensures home.files == base
  {
    ghost var saved := WithBackups(base, ws[..backed], id, stamp);
    if replaced > 0 {
      BackupsKeepCurrent(base, ws, ws, id, stamp);
      assert ws[..backed] == ws;
      forall i | 0 <= i < |ws| && ws[i].before.Some?
        ensures Lookup(saved, BackupOf(ws[i].dest, id, stamp)) == ws[i].before
      {
        BackupsHold(base, ws, id, stamp, i);
      }
      UndoWrites(home, ws, id, stamp, replaced, saved);
    }
    assert home.files == saved;
    BackupsLeaveOthers(base, ws[..backed], id, stamp, ManifestOf(id));
    home.files := home.files - {ManifestOf(id)};
    DropBackups(home, ws[..backed], id, stamp);
    DroppingBackups(base, ws[..backed], id, stamp);
  }

  // ----- the transaction -----

  /** The backup phase; `done` backups were made when it stopped. */
  method BackUp(home: Home, ws: seq<Write>, id: string, stamp: string, fault: Option<nat>) returns (ok: bool, done: nat)
    requires DistinctDests(ws) && Current(home.files, ws)
    modifies home
    ensures done <= |ws| && home.files == WithBackups(old(home.files), ws[..done], id, stamp)
    ensures BackupsFree(old(home.files), ws[..done], id, stamp)
    ensures ok ==> done == |ws|
    ensures ok <==> BackupsFree(old(home.files), ws, id, stamp) && Survives(fault, |ws|)
  {
    done := 0;
    while done < |ws|
      invariant 0 <= done <= |ws|
      invariant home.files == WithBackups(old(home.files), ws[..done], id, stamp)
      invariant BackupsFree(old(home.files), ws[..done], id, stamp)
      invariant fault.Some? ==> done <= fault.value
    {
      var w := ws[done];
      var backup := BackupOf(w.dest, id, stamp);
      BackupsLeaveOthers(old(home.files), ws[..done], id, stamp, backup);
      if FailsAt(fault, done) || (w.before.Some? && backup in home.files) {
        return false, done;
      }
      assert ws[..done + 1][..done] == ws[..done];
      BackupsLeaveOthers(old(home.files), ws[..done], id, stamp, At(w.dest));
      if w.before.Some? {
        home.files := home.files[backup := home.files[At(w.dest)]];
      }
      done := done + 1;
    }
    assert ws[..done] == ws;
    return true, done;
  }

  /** The replace phase. */
  method Replace(home: Home, ws: seq<Write>, fault: Option<nat>, offset: nat) returns (ok: bool, done: nat)
    requires Survives(fault, offset)
    modifies home
    ensures done <= |ws| && home.files == WithWrites(old(home.files), ws[..done])
    ensures ok ==> done == |ws|
    ensures ok <==> Survives(fault, offset + |ws|)
  {
    done := 0;
    while done < |ws|
      invariant 0 <= done <= |ws|
      invariant home.files == WithWrites(old(home.files), ws[..done])
      invariant fault.Some? ==> offset + done <= fault.value
    {
      if FailsAt(fault, offset + done) {
        return false, done;
      }
      assert ws[..done + 1][..done] == ws[..done];
      home.files := home.files[At(ws[done].dest) := ws[done].content];
      done := done + 1;
    }
    assert ws[..done] == ws;
    return true, done;
  }

  /** The verify phase: every file holds what was planned, and names the installation. */
  method Verify(t: Templates, home: Home, ws: seq<Write>, id: string) returns (ok: bool)
    requires forall i :: 0 <= i < |ws| ==> Lookup(home.files, At(ws[i].dest)) == Some(ws[i].content)
    ensures ok <==> AllMarked(t, ws, id)
  {
    var i := 0;
    while i < |ws|
      invariant 0 <= i <= |ws| && forall j :: 0 <= j < i ==> Marked(t, ws[j], id)
    {
      var text := home.files[At(ws[i].dest)];
      if Sha(text) != Sha(ws[i].content) || !Marked(t, ws[i].(content := text), id) {
        return false;
      }
      i := i + 1;
    }
    return true;
  }

  /** Backup, replace, verify, manifest. `fault` counts the effects: each backup, each replacement,
      the verification, the manifest. */
  method InstallTransaction(t: Templates, home: Home, req: Request, ws: seq<Write>, id: string, stamp: string, fault: Option<nat>)
    returns (ok: bool)
    requires DistinctDests(ws) && Current(home.files, ws) && ManifestOf(id) !in home.files
    modifies home
    ensures ok <==> BackupsFree(old(home.files), ws, id, stamp) && AllMarked(t, ws, id) && Survives(fault, 2 * |ws| + 2)
    ensures ok ==> home.files == Installed(old(home.files), req, ws, id, stamp)
    ensures !ok ==> home.files == old(home.files)
  {
    ghost var base := home.files;
    var backedUp, backed := BackUp(home, ws, id, stamp, fault);
    if !backedUp {
      assert ws[..0] == [];
      RollbackInstall(home, ws, id, stamp, backed, 0, base);
      return false;
    }
    assert ws[..backed] == ws;
    ghost var saved := home.files;
    var allReplaced, replaced := Replace(home, ws, fault, |ws|);
    if !allReplaced {
      RollbackInstall(home, ws, id, stamp, backed, replaced, base);
      return false;
    }
    assert ws[..replaced] == ws;
    forall i | 0 <= i < |ws|
      ensures Lookup(home.files, At(ws[i].dest)) == Some(ws[i].content)
    {
      WritesHold(saved, ws, i);
    }
    var verified := Verify(t, home, ws, id);
    if !verified || FailsAt(fault, 2 * |ws|) || FailsAt(fault, 2 * |ws| + 1) {
      RollbackInstall(home, ws, id, stamp, backed, replaced, base);
      return false;
    }
    home.files := home.files[ManifestOf(id) := ManifestText(MakeManifest(req, ws, id, stamp))];
    return true;
  }

  // ----- restoring from backups -----

  datatype RestoreResult = NeedsConfirmation | ManifestMissing | BackupMismatch | Restored

  /** One edit of the manifest: keep what is there as a safety copy, put the backup back. */
  function RestoreEdit(files: Files, e: Edit, stamp: string): Files {
    if e.backup.None? || e.backup.value !in files then files
    else
      var safe := if At(e.dest) in files then files[SafetyCopy(e.dest, stamp) := files[At(e.dest)]] else files;
      safe[At(e.dest) := files[e.backup.value]]
  }

  function RestoreEdits(files: Files, edits: seq<Edit>, stamp: string): Files {
    if edits == [] then files else RestoreEdit(RestoreEdits(files, edits[..|edits| - 1], stamp), edits[|edits| - 1], stamp)
  }

  /** Backups named after the installation, as its own transaction makes them. */
  predicate OwnBackups(id: string, edits: seq<Edit>) {
    forall i :: 0 <= i < |edits| ==>
      match edits[i].backup
      case None => true
      case Some(BackupOf(_, owner, _)) => owner == id
      case Some(_) => false
  }

  /** A recorded backup that exists and does not carry the installation's id. */
  predicate Foreign(files: Files, id: string, e: Edit) {
    e.backup.Some? && e.backup.value in files && !(e.backup.value.BackupOf? && e.backup.value.installation == id)
  }

  /** The loop gets to edit i: it meets no foreign backup before. */
  predicate Reaches(files: Files, id: string, edits: seq<Edit>, stamp: string, i: nat)
    requires i <= |edits|
  {
    forall j :: 0 <= j < i ==> !Foreign(RestoreEdits(files, edits[..j], stamp), id, edits[j])
  }

  lemma RestoreEditsOneMore(files: Files, edits: seq<Edit>, stamp: string, i: nat, mid: Files)
    requires i < |edits| && mid == RestoreEdits(files, edits[..i], stamp)
    ensures RestoreEdits(files, edits[..i + 1], stamp) == RestoreEdit(mid, edits[i], stamp)
  {
    assert edits[..i + 1][..i] == edits[..i];
  }

  /** One round of the restoration. */
  method RestoreOne(home: Home, e: Edit, stamp: string)
    modifies home
    ensures home.files == RestoreEdit(old(home.files), e, stamp)
  {
    if e.backup.None? || e.backup.value !in home.files {
      return;
    }
    var backup := home.files[e.backup.value];
    if At(e.dest) in home.files {
      home.files := home.files[SafetyCopy(e.dest, stamp) := home.files[At(e.dest)]];
    }
    home.files := home.files[At(e.dest) := backup];
  }

  /** restore_from_backup: everything is restored exactly when no backup is foreign; otherwise the edits
      before the first foreign one are restored and stay so. */
  method RestoreFromBackup(home: Home, id: string, yes: bool, stamp: string) returns (r: RestoreResult)
    requires ManifestOf(id) in home.files ==> home.files[ManifestOf(id)].ManifestText?
    modifies home
    ensures !yes ==> r == NeedsConfirmation
    ensures yes && ManifestOf(id) !in old(home.files) ==> r == ManifestMissing
    ensures r == NeedsConfirmation || r == ManifestMissing ==> home.files == old(home.files)
    ensures yes && ManifestOf(id) in old(home.files) ==>
              var edits := old(home.files)[ManifestOf(id)].manifest.edits;
              && (OwnBackups(id, edits) ==> r == Restored)
              && (r == Restored <==> Reaches(old(home.files), id, edits, stamp, |edits|))
              && (r == Restored ==> home.files == RestoreEdits(old(home.files), edits, stamp))
              && (r != Restored ==> r == BackupMismatch && exists i ::
                    0 <= i < |edits| && Reaches(old(home.files), id, edits, stamp, i) && Foreign(home.files, id, edits[i])
                    && home.files == RestoreEdits(old(home.files), edits[..i], stamp))
  {
    if !yes {
      return NeedsConfirmation;
    }
    if ManifestOf(id) !in home.files {
      return ManifestMissing;
    }
    var edits := home.files[ManifestOf(id)].manifest.edits;
    var i := 0;
    while i < |edits|
      invariant 0 <= i <= |edits| && home.files == RestoreEdits(old(home.files), edits[..i], stamp)
      invariant Reaches(old(home.files), id, edits, stamp, i)
    {
      if Foreign(home.files, id, edits[i]) {
        return BackupMismatch;
      }
      RestoreEditsOneMore(old(home.files), edits, stamp, i, home.files);
      RestoreOne(home, edits[i], stamp);
      i := i + 1;
    }
    assert edits[..i] == edits;
    return Restored;
  }

  // ----- a successful install can be taken back -----

  /** The edit the manifest records for a file that was there before. */
  function BackupEdit(w: Write, p: Provider, id: string, stamp: string): Edit {
    Edit(w.dest, Some(BackupOf(w.dest, id, stamp)), MarkerFor(p, id), if IsConfig(w) then w.event else None)
  }

  lemma {:induction false} EditsOfWrites(ws: seq<Write>, p: Provider, id: string, stamp: string, e: Edit)
    ensures e in ConfigEdits(ws, p, id, stamp) <==>
              exists w :: w in ws && IsConfig(w) && e == Edit(w.dest, BackupPath(w, id, stamp), MarkerFor(p, id), w.event)
    ensures e in BackupEdits(ws, p, id, stamp) <==> exists w :: w in ws && !IsConfig(w) && w.before.Some? && e == BackupEdit(w, p, id, stamp)
  {
    if ws != [] {
      EditsOfWrites(ws[..|ws| - 1], p, id, stamp, e);
      assert ws == ws[..|ws| - 1] + [ws[|ws| - 1]];
    }
  }

  /** Every file that was there before has its backup recorded. */
  lemma BackupsRecorded(req: Request, ws: seq<Write>, id: string, stamp: string, w: Write)
    requires w in ws && w.before.Some?
    ensures BackupEdit(w, req.provider, id, stamp) in MakeManifest(req, ws, id, stamp).edits
  {
    EditsOfWrites(ws, req.provider, id, stamp, BackupEdit(w, req.provider, id, stamp));
  }

  lemma RecordedEdits(req: Request, ws: seq<Write>, id: string, stamp: string)
    ensures forall e :: e in MakeManifest(req, ws, id, stamp).edits ==>
              (exists w :: w in ws && e.dest == w.dest && e.backup == BackupPath(w, id, stamp))
    ensures OwnBackups(id, MakeManifest(req, ws, id, stamp).edits)
  {
    forall e | e in MakeManifest(req, ws, id, stamp).edits
      ensures exists w :: w in ws && e.dest == w.dest && e.backup == BackupPath(w, id, stamp)
    {
      EditsOfWrites(ws, req.provider, id, stamp, e);
    }
  }

  /** Restoring writes backups to their destinations and leaves the backups alone. */
  lemma {:induction false} RestoredLookup(files: Files, edits: seq<Edit>, id: string, stamp: string, d: Dest, backup: Path)
    requires forall e :: e in edits && e.backup.Some? ==> e.backup.value.BackupOf?
    requires backup.BackupOf? && backup in files
    requires forall e :: e in edits && e.dest == d && e.backup.Some? ==> e.backup.value == backup
    ensures Lookup(RestoreEdits(files, edits, stamp), backup) == Lookup(files, backup)
    ensures (exists e :: e in edits && e.dest == d && e.backup == Some(backup)) ==>
              Lookup(RestoreEdits(files, edits, stamp), At(d)) == Lookup(files, backup)
  {
    if edits != [] {
      var front, last := edits[..|edits| - 1], edits[|edits| - 1];
      assert forall e :: e in edits <==> e in front || e == last;
      RestoredLookup(files, front, id, stamp, d, backup);
    }
  }

  /** After a successful installation, and whatever happens to the installed files meanwhile, as
      long as the manifest and the backups are still there, restoring brings every file that existed
      before the installation back to its earlier bytes. */
  lemma RestoreReturnsOriginals(files: Files, req: Request, ws: seq<Write>, id: string, stamp: string, later: Files, now: string, w: Write)
    requires DistinctDests(ws) && Current(files, ws)
    requires Lookup(later, ManifestOf(id)) == Some(ManifestText(MakeManifest(req, ws, id, stamp)))
    requires forall i :: 0 <= i < |ws| && ws[i].before.Some? ==>
               Lookup(later, BackupOf(ws[i].dest, id, stamp)) == Lookup(Installed(files, req, ws, id, stamp), BackupOf(ws[i].dest, id, stamp))
    requires w in ws && w.before.Some?
    ensures Lookup(RestoreEdits(later, MakeManifest(req, ws, id, stamp).edits, now), At(w.dest)) == Lookup(files, At(w.dest))
  {
    var edits, backup := MakeManifest(req, ws, id, stamp).edits, BackupOf(w.dest, id, stamp);
    RecordedEdits(req, ws, id, stamp);
    BackupsRecorded(req, ws, id, stamp, w);
    var i :| 0 <= i < |ws| && ws[i] == w;
    BackupsHold(files, ws, id, stamp, i);
    WritesLeaveOthers(WithBackups(files, ws, id, stamp), ws, backup);
    assert Lookup(later, backup) == w.before;
    RestoredLookup(later, edits, id, now, w.dest, backup);
    assert BackupEdit(w, req.provider, id, stamp) in edits;
  }

  // ----- what restoring replaces is kept -----

  predicate DistinctEdits(edits: seq<Edit>) {
    forall i, j :: 0 <= i < j < |edits| ==> edits[i].dest != edits[j].dest
  }

  lemma EditsComeFromWrites(ws: seq<Write>, p: Provider, id: string, stamp: string)
    ensures forall e :: e in ConfigEdits(ws, p, id, stamp) ==> exists w :: w in ws && IsConfig(w) && e.dest == w.dest
    ensures forall e :: e in BackupEdits(ws, p, id, stamp) ==> exists w :: w in ws && !IsConfig(w) && e.dest == w.dest
  {
    forall e | e in ConfigEdits(ws, p, id, stamp)
      ensures exists w :: w in ws && IsConfig(w) && e.dest == w.dest
    {
      EditsOfWrites(ws, p, id, stamp, e);
    }
    forall e | e in BackupEdits(ws, p, id, stamp)
      ensures exists w :: w in ws && !IsConfig(w) && e.dest == w.dest
    {
      EditsOfWrites(ws, p, id, stamp, e);
    }
  }

  lemma EditSnoc(edits: seq<Edit>, e: Edit)
    requires DistinctEdits(edits) && forall x :: x in edits ==> x.dest != e.dest
    ensures DistinctEdits(edits + [e])
  {
  }

  lemma {:induction false} KindsDistinct(ws: seq<Write>, p: Provider, id: string, stamp: string)
    requires DistinctDests(ws)
    ensures DistinctEdits(ConfigEdits(ws, p, id, stamp)) && DistinctEdits(BackupEdits(ws, p, id, stamp))
  {
    if ws != [] {
      var front, w := ws[..|ws| - 1], ws[|ws| - 1];
      KindsDistinct(front, p, id, stamp);
      EditsComeFromWrites(front, p, id, stamp);
      assert forall x :: x in front ==> x.dest != w.dest;
      if IsConfig(w) {
        EditSnoc(ConfigEdits(front, p, id, stamp), Edit(w.dest, BackupPath(w, id, stamp), MarkerFor(p, id), w.event));
      } else if w.before.Some? {
        EditSnoc(BackupEdits(front, p, id, stamp), Edit(w.dest, BackupPath(w, id, stamp), MarkerFor(p, id), None));
      }
    }
  }

  /** A manifest has at most one edit for a file. */
  lemma ManifestEditsDistinct(req: Request, ws: seq<Write>, id: string, stamp: string)
    requires DistinctDests(ws)
    ensures DistinctEdits(MakeManifest(req, ws, id, stamp).edits)
  {
    var configs, backups := ConfigEdits(ws, req.provider, id, stamp), BackupEdits(ws, req.provider, id, stamp);
    KindsDistinct(ws, req.provider, id, stamp);
    EditsComeFromWrites(ws, req.provider, id, stamp);
    forall i, j | 0 <= i < |configs| && 0 <= j < |backups|
      ensures configs[i].dest != backups[j].dest
    {
      assert configs[i] in configs && backups[j] in backups;
      var w :| w in ws && IsConfig(w) && configs[i].dest == w.dest;
      var v :| v in ws && !IsConfig(v) && backups[j].dest == v.dest;
    }
  }

  /** Restoring other files leaves a file and its safety copy alone. */
  lemma {:induction false} RestoreLeavesOthers(files: Files, edits: seq<Edit>, stamp: string, d: Dest)
    requires forall i :: 0 <= i < |edits| ==> edits[i].dest != d
    ensures Lookup(RestoreEdits(files, edits, stamp), At(d)) == Lookup(files, At(d))
    ensures Lookup(RestoreEdits(files, edits, stamp), SafetyCopy(d, stamp)) == Lookup(files, SafetyCopy(d, stamp))
  {
    if edits != [] {
      RestoreLeavesOthers(files, edits[..|edits| - 1], stamp, d);
    }
  }

  lemma {:induction false} BackupsStay(files: Files, edits: seq<Edit>, stamp: string, backup: Path)
    requires backup.BackupOf?
    ensures Lookup(RestoreEdits(files, edits, stamp), backup) == Lookup(files, backup)
  {
    if edits != [] {
      BackupsStay(files, edits[..|edits| - 1], stamp, backup);
    }
  }

  /** What stood at a restored place just before is in its safety copy. */
  lemma {:induction false} SafetyCopied(files: Files, edits: seq<Edit>, stamp: string, i: nat)
    requires DistinctEdits(edits) && i < |edits| && At(edits[i].dest) in files
    requires edits[i].backup.Some? && edits[i].backup.value.BackupOf? && edits[i].backup.value in files
    ensures Lookup(RestoreEdits(files, edits, stamp), SafetyCopy(edits[i].dest, stamp)) == Lookup(files, At(edits[i].dest))
  {
    var front, d := edits[..|edits| - 1], edits[i].dest;
    if i < |edits| - 1 {
      SafetyCopied(files, front, stamp, i);
    } else {
      RestoreLeavesOthers(files, front, stamp, d);
      BackupsStay(files, front, stamp, edits[i].backup.value);
      var mid := RestoreEdits(files, front, stamp);
      assert Lookup(mid, edits[i].backup.value).Some? && Lookup(mid, At(d)).Some?;
    }
  }

  /** Restoring loses nothing: whatever stood at a restored file's place is kept in its safety copy. */
  lemma RestoreKeepsReplaced(req: Request, ws: seq<Write>, id: string, stamp: string, later: Files, now: string, w: Write)
    requires DistinctDests(ws) && w in ws && w.before.Some?
    requires BackupOf(w.dest, id, stamp) in later && At(w.dest) in later
    ensures Lookup(RestoreEdits(later, MakeManifest(req, ws, id, stamp).edits, now), SafetyCopy(w.dest, now)) == Lookup(later, At(w.dest))
  {
    var edits := MakeManifest(req, ws, id, stamp).edits;
    BackupsRecorded(req, ws, id, stamp, w);
    ManifestEditsDistinct(req, ws, id, stamp);
    var i :| 0 <= i < |edits| && edits[i] == BackupEdit(w, req.provider, id, stamp);
    SafetyCopied(later, edits, now, i);
  }
}
