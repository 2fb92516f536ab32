/** Installing, updating and uninstalling over and over (integration_install.py). */
module InstallRuns {
  import opened Basics
  import opened Json
  import opened Store
  import opened Hooks
  import opened InstallPlan
  import opened Install
  import opened InstalledFiles
  import opened Uninstall

  // ----- manifests on disk -----

  predicate HoldsManifest(files: Files, p: Path, provider: Provider) {
    p in files && p.ManifestOf? && files[p].ManifestText? && files[p].manifest.provider == provider
  }

  /** _find_manifest_for_provider. */
  ghost function Find(files: Files, provider: Provider): (m: Option<Manifest>)
    ensures m.Some? <==> exists p :: HoldsManifest(files, p, provider)
    ensures m.Some? ==> m.value.provider == provider && exists p :: HoldsManifest(files, p, provider) && files[p].manifest == m.value
  {
    if exists p :: HoldsManifest(files, p, provider) then
      var p :| HoldsManifest(files, p, provider);
      Some(files[p].manifest)
    else None
  }

  predicate Own(m: Manifest) {
    && WellMade(m)
    && (forall i :: 0 <= i < |m.generated| ==> Footprint(m.provider, m.generated[i].dest))
    && (forall i :: 0 <= i < |m.edits| ==> Footprint(m.provider, m.edits[i].dest))
  }

  /** A manifest file describes the installation it is named after, within its provider's files. */
  predicate WellFiled(files: Files, p: Path)
    requires p in files
  {
    p.ManifestOf? ==> files[p].ManifestText? && files[p].manifest.installation == p.installation && Own(files[p].manifest)
  }

  predicate SameProvider(files: Files, p: Path, q: Path)
    requires p in files && q in files
  {
    && p.ManifestOf? && q.ManifestOf? && files[p].ManifestText? && files[q].ManifestText?
    && files[p].manifest.provider == files[q].manifest.provider
  }

  /** At most one installation per provider. */
  predicate OnePerProvider(files: Files) {
    forall p, q :: p in files && q in files && SameProvider(files, p, q) ==> p == q
  }

  /** The invariant of the manifest directory. */
  predicate Tidy(files: Files) {
    && (forall p :: p in files ==> WellFiled(files, p))
    && OnePerProvider(files)
  }

  lemma FoundIsFiled(files: Files, provider: Provider)
    requires Tidy(files) && Find(files, provider).Some?
    ensures var m := Find(files, provider).value;
            Own(m) && m.provider == provider && Lookup(files, ManifestOf(m.installation)) == Some(ManifestText(m))
  {
  }

  // ----- one operation -----

  datatype Op =
    | InstallOp(req: Request, installation: string, stamp: string, run: string, uninstallFault: Option<nat>, fault: Option<nat>)
    | UninstallOp(provider: Provider, dryRun: bool, force: bool, chosen: Option<string>, run: string, fault: Option<nat>)
    | EditOp(dest: Dest, content: Option<Content>)

  predicate Same(m: Manifest, req: Request) {
    m.project == req.project && m.serviceUrl == req.serviceUrl && m.tokenFile == req.tokenFile
  }

  predicate UninstallFails(t: Templates, files: Files, m: Manifest, force: bool, fault: Option<nat>) {
    PlanFails(files, m) || !Survives(fault, Effects(t, files, m, force))
  }

  function AfterUninstall(t: Templates, files: Files, m: Manifest, force: bool, fault: Option<nat>): Files {
    if UninstallFails(t, files, m, force, fault) then files else Uninstalled(t, files, m, force)
  }

  predicate InstallSucceeds(t: Templates, files: Files, ws: seq<Write>, id: string, stamp: string, fault: Option<nat>) {
    BackupsFree(files, ws, id, stamp) && AllMarked(t, ws, id) && Survives(fault, 2 * |ws| + 2)
  }

  /** The part of an installation after an earlier one is out of the way. */
  function AfterInstall(t: Templates, files: Files, req: Request, id: string, stamp: string, fault: Option<nat>): Files {
    match PlanWrites(t, files, req, id)
    case Err(_) => files
    case Ok(ws) =>
      if req.dryRun || !InstallSucceeds(t, files, ws, id, stamp, fault) then files
      else Installed(files, req, ws, id, stamp)
  }

  /** The installation an uninstall is about: the named one, or the provider's. */
  ghost function Chosen(files: Files, provider: Provider, chosen: Option<string>): Option<Manifest> {
    match chosen
    case None => Find(files, provider)
    case Some(id) =>
      if ManifestOf(id) in files && files[ManifestOf(id)].ManifestText? then Some(files[ManifestOf(id)].manifest) else None
  }

  ghost function StepInstall(t: Templates, files: Files, op: Op): Files
    requires op.InstallOp?
  {
    match Find(files, op.req.provider)
    case None => AfterInstall(t, files, op.req, op.installation, op.stamp, op.fault)
    case Some(m) =>
      if !op.req.update then files
      else if UninstallFails(t, files, m, true, op.uninstallFault) then files
      else AfterInstall(t, Uninstalled(t, files, m, true), op.req, op.installation, op.stamp, op.fault)
  }

  ghost function Step(t: Templates, files: Files, op: Op): Files {
    match op
    case InstallOp(_, _, _, _, _, _) => StepInstall(t, files, op)
    case UninstallOp(provider, dryRun, force, chosen, _, fault) =>
      (match Chosen(files, provider, chosen)
       case None => files
       case Some(m) => if dryRun then files else AfterUninstall(t, files, m, force, fault))
    case EditOp(dest, content) =>
      if content.Some? then files[At(dest) := content.value] else files - {At(dest)}
  }

  /** Installation ids and quarantine runs are random: they have not been used before. */
  ghost predicate Unused(files: Files, op: Op) {
    match op
    case InstallOp(req, id, _, run, _, _) =>
      ManifestOf(id) !in files && (Find(files, req.provider).Some? ==> QuarantineEmpty(files, Find(files, req.provider).value.installation, run))
    case UninstallOp(provider, _, _, chosen, run, _) =>
      Chosen(files, provider, chosen).Some? ==> QuarantineEmpty(files, Chosen(files, provider, chosen).value.installation, run)
    case EditOp(_, _) => true
  }

  // ----- the entry points, in place -----

  /** The report of an installation. A configuration with unexpected "hooks" is not reported: the editor's
      exception reaches the caller. */
  datatype InstallResult =
    | AlreadyInstalled
    | Differs
    | ReplaceFailed
    | PlanFailed(error: PlanError)
    | Raised(hookError: HookError)
    | DryRun
    | RolledBack
    | InstalledNow

  method FindManifestForProvider(home: Home, provider: Provider) returns (m: Option<Manifest>)
    requires Tidy(home.files)
    ensures m == Find(home.files, provider)
  {
    var candidates := set p | p in home.files && HoldsManifest(home.files, p, provider);
    if candidates == {} {
      assert forall p :: HoldsManifest(home.files, p, provider) ==> p in candidates;
      return None;
    }
    var p := Pick(candidates);
    return Some(home.files[p].manifest);
  }

  /** How an installation ends once no earlier one is in the way. */
  function Ending(t: Templates, files: Files, req: Request, id: string, stamp: string, fault: Option<nat>): InstallResult {
    match PlanWrites(t, files, req, id)
    case Err(BadHooks(e)) => Raised(e)
    case Err(e) => PlanFailed(e)
    case Ok(ws) => if req.dryRun then DryRun else if InstallSucceeds(t, files, ws, id, stamp, fault) then InstalledNow else RolledBack
  }

  /** The part of install_native_transactional after an earlier installation is out of the way. */
  method InstallAnew(t: Templates, home: Home, req: Request, id: string, stamp: string, fault: Option<nat>) returns (r: InstallResult)
    requires ManifestOf(id) !in home.files
    modifies home
    ensures home.files == AfterInstall(t, old(home.files), req, id, stamp, fault)
    ensures r == Ending(t, old(home.files), req, id, stamp, fault)
    ensures r == InstalledNow ==> Verified(home.files, id) && InPlace(t, home.files, req, id)
  {
    var plan := PlanWrites(t, home.files, req, id);
    if plan.Err? {
      return if plan.error.BadHooks? then Raised(plan.error.error) else PlanFailed(plan.error);
    }
    if req.dryRun {
      return DryRun;
    }
    PlanIsSound(t, home.files, req, id);
    ghost var start := home.files;
    var ok := InstallTransaction(t, home, req, plan.value, id, stamp, fault);
    if ok {
      Completed(t, start, req, plan.value, id, stamp, home.files);
    }
    return if ok then InstalledNow else RolledBack;
  }

  /** What a completed installation leaves verifies and is in place. */
  lemma Completed(t: Templates, files: Files, req: Request, ws: seq<Write>, id: string, stamp: string, after: Files)
    requires PlanWrites(t, files, req, id) == Ok(ws) && after == Installed(files, req, ws, id, stamp)
    ensures Verified(after, id) && InPlace(t, after, req, id)
  {
    NewInstallationVerifies(t, files, req, ws, id, stamp);
    InstalledContents(t, files, req, ws, id, stamp);
  }

  /** install_native_transactional. */
  method InstallNative(t: Templates, home: Home, req: Request, id: string, stamp: string, run: string,
                       uninstallFault: Option<nat>, fault: Option<nat>) returns (r: InstallResult)
    requires Tidy(home.files) && Unused(home.files, InstallOp(req, id, stamp, run, uninstallFault, fault))
    modifies home
    ensures home.files == Step(t, old(home.files), InstallOp(req, id, stamp, run, uninstallFault, fault))
    ensures var found := Find(old(home.files), req.provider);
            r == if found.None? then Ending(t, old(home.files), req, id, stamp, fault)
                 else if !req.update then (if Same(found.value, req) then AlreadyInstalled else Differs)
                 else if UninstallFails(t, old(home.files), found.value, true, uninstallFault) then ReplaceFailed
                 else Ending(t, Uninstalled(t, old(home.files), found.value, true), req, id, stamp, fault)
    ensures r == InstalledNow ==> Verified(home.files, id) && InPlace(t, home.files, req, id)
  {
    var existing := FindManifestForProvider(home, req.provider);
    ghost var start := home.files;
    if existing.Some? {
      FoundIsFiled(home.files, req.provider);
      if !req.update {
        return if Same(existing.value, req) then AlreadyInstalled else Differs;
      }
      var removed := UninstallTransaction(t, home, existing.value, true, run, uninstallFault);
      if removed == Failed {
        return ReplaceFailed;
      }
      UninstallKeepsManifests(t, start, existing.value, true, ManifestOf(id));
    }
    r := InstallAnew(t, home, req, id, stamp, fault);
  }

  /** uninstall_native_transactional. */
  method UninstallNative(t: Templates, home: Home, provider: Provider, dryRun: bool, force: bool, chosen: Option<string>, run: string, fault: Option<nat>)
    returns (found: bool, r: Outcome)
    requires Tidy(home.files) && Unused(home.files, UninstallOp(provider, dryRun, force, chosen, run, fault))
    modifies home
    ensures home.files == Step(t, old(home.files), UninstallOp(provider, dryRun, force, chosen, run, fault))
    ensures found <==> Chosen(old(home.files), provider, chosen).Some?
    ensures !found || dryRun ==> home.files == old(home.files)
    ensures found && !dryRun ==>
              (r == Failed <==> UninstallFails(t, old(home.files), Chosen(old(home.files), provider, chosen).value, force, fault))
  {
    var m: Option<Manifest>;
    if chosen.Some? {
      m := None;
      if ManifestOf(chosen.value) in home.files {
        assert WellFiled(home.files, ManifestOf(chosen.value));
        m := Some(home.files[ManifestOf(chosen.value)].manifest);
      }
    } else {
      m := FindManifestForProvider(home, provider);
      if m.Some? {
        FoundIsFiled(home.files, provider);
      }
    }
    if m.None? || dryRun {
      return m.Some?, Removed;
    }
    r := UninstallTransaction(t, home, m.value, force, run, fault);
    return true, r;
  }

  /** verify_installation. */
  predicate Verified(files: Files, id: string) {
    && ManifestOf(id) in files && files[ManifestOf(id)].ManifestText?
    && forall i :: 0 <= i < |files[ManifestOf(id)].manifest.generated| ==> Intact(files, files[ManifestOf(id)].manifest.generated[i])
  }

  predicate Intact(files: Files, g: Generated) {
    At(g.dest) in files && Sha(files[At(g.dest)]) == g.sha
  }

  method VerifyInstallation(home: Home, id: string) returns (ok: bool, missing: seq<Dest>, mismatched: seq<Dest>)
    requires Tidy(home.files)
    ensures ok <==> Verified(home.files, id)
    ensures ManifestOf(id) in home.files ==> (ok <==> missing == [] && mismatched == [])
    ensures forall d :: d in missing ==> At(d) !in home.files
    ensures forall d :: d in mismatched ==> At(d) in home.files
  {
    missing, mismatched := [], [];
    if ManifestOf(id) !in home.files {
      return false, [], [];
    }
    assert WellFiled(home.files, ManifestOf(id));
    var gens := home.files[ManifestOf(id)].manifest.generated;
    var i := 0;
    while i < |gens|
      invariant 0 <= i <= |gens|
      invariant missing == [] && mismatched == [] <==> forall k :: 0 <= k < i ==> Intact(home.files, gens[k])
      invariant forall d :: d in missing ==> At(d) !in home.files
      invariant forall d :: d in mismatched ==> At(d) in home.files
    {
      var p := At(gens[i].dest);
      if p !in home.files {
        missing := missing + [gens[i].dest];
      } else if Sha(home.files[p]) != gens[i].sha {
        mismatched := mismatched + [gens[i].dest];
      }
      i := i + 1;
    }
    return missing == [] && mismatched == [], missing, mismatched;
  }

  // ----- the invariant over runs -----

  lemma UninstallKeepsManifests(t: Templates, files: Files, m: Manifest, force: bool, p: Path)
    requires p.ManifestOf?
    ensures Lookup(Uninstalled(t, files, m, force), p) == Lookup(files, p)
         || (p == ManifestOf(m.installation) && p !in Uninstalled(t, files, m, force))
  {
    if p != ManifestOf(m.installation) {
      UninstallStaysInside(t, files, m, force, p);
    } else {
      ChangesLeaveOthers(files, PlanEdits(t, files, m, m.edits), p);
      RemovalOnlyRemoves(Cleaned(t, files, m), m.generated, force, p);
    }
  }

  /** Files whose manifests are among the manifests of tidy files are tidy. */
  lemma FewerManifests(files: Files, files': Files)
    requires Tidy(files)
    requires forall p :: p in files' && p.ManifestOf? ==> p in files && files'[p] == files[p]
    ensures Tidy(files')
  {
  }

  lemma UninstallKeepsTidy(t: Templates, files: Files, m: Manifest, force: bool)
    requires Tidy(files)
    ensures Tidy(Uninstalled(t, files, m, force))
  {
    var after := Uninstalled(t, files, m, force);
    forall p | p in after && p.ManifestOf?
      ensures p in files && after[p] == files[p]
    {
      UninstallKeepsManifests(t, files, m, force, p);
    }
    FewerManifests(files, after);
  }

  lemma ForcedUninstallFrees(t: Templates, files: Files, provider: Provider)
    requires Tidy(files) && Find(files, provider).Some?
    ensures Find(Uninstalled(t, files, Find(files, provider).value, true), provider).None?
  {
    var m := Find(files, provider).value;
    var after := Uninstalled(t, files, m, true);
    FoundIsFiled(files, provider);
    ForcedGone(t, files, m);
    forall p
      ensures !HoldsManifest(after, p, provider)
    {
      if HoldsManifest(after, p, provider) {
        UninstallKeepsManifests(t, files, m, true, p);
      }
    }
  }

  lemma {:induction false} SpecsOfWrites(ws: seq<Write>, g: Generated)
    ensures g in GeneratedSpecs(ws) <==> exists w :: w in ws && !IsConfig(w) && g == Generated(w.dest, Sha(w.content), w.role)
  {
    if ws != [] {
      SpecsOfWrites(ws[..|ws| - 1], g);
      assert ws == ws[..|ws| - 1] + [ws[|ws| - 1]];
    }
  }

  lemma ManifestIsOwn(t: Templates, files: Files, req: Request, id: string, stamp: string, ws: seq<Write>)
    requires PlanWrites(t, files, req, id) == Ok(ws)
    ensures Own(MakeManifest(req, ws, id, stamp))
  {
    PlanIsSound(t, files, req, id);
    var m := MakeManifest(req, ws, id, stamp);
    forall i | 0 <= i < |m.generated|
      ensures Footprint(m.provider, m.generated[i].dest) && !m.generated[i].dest.Settings?
    {
      SpecsOfWrites(ws, m.generated[i]);
      var w :| w in ws && !IsConfig(w) && m.generated[i] == Generated(w.dest, Sha(w.content), w.role);
    }
    RecordedEdits(req, ws, id, stamp);
    forall i | 0 <= i < |m.edits|
      ensures Footprint(m.provider, m.edits[i].dest)
    {
      assert m.edits[i] in m.edits;
      var w :| w in ws && m.edits[i].dest == w.dest && m.edits[i].backup == BackupPath(w, id, stamp);
    }
  }

  /** Everything an installation does not write keeps its bytes. */
  lemma InstallLeavesOthers(files: Files, req: Request, ws: seq<Write>, id: string, stamp: string, p: Path)
    requires p != ManifestOf(id) && !p.BackupOf? && forall i :: 0 <= i < |ws| ==> p != At(ws[i].dest)
    ensures Lookup(Installed(files, req, ws, id, stamp), p) == Lookup(files, p)
  {
    WritesLeaveOthers(WithBackups(files, ws, id, stamp), ws, p);
    BackupsLeaveOthers(files, ws, id, stamp, p);
  }

  lemma InstallKeepsTidy(t: Templates, files: Files, req: Request, id: string, stamp: string, fault: Option<nat>)
    requires Tidy(files) && ManifestOf(id) !in files && Find(files, req.provider).None?
    ensures Tidy(AfterInstall(t, files, req, id, stamp, fault))
  {
    var after := AfterInstall(t, files, req, id, stamp, fault);
    if after != files {
      var ws := PlanWrites(t, files, req, id).value;
      ManifestIsOwn(t, files, req, id, stamp, ws);
      var m := MakeManifest(req, ws, id, stamp);
      forall p | p in after && p.ManifestOf? && p != ManifestOf(id)
        ensures p in files && after[p] == files[p] && WellFiled(after, p) && files[p].manifest.provider != req.provider
      {
        InstallLeavesOthers(files, req, ws, id, stamp, p);
        assert WellFiled(files, p) && !HoldsManifest(files, p, req.provider);
      }
      assert after[ManifestOf(id)] == ManifestText(m);
    }
  }

  /** Every operation, with any flags and a failure anywhere, keeps the manifest directory tidy: at
      most one installation per provider. */
  lemma StepKeepsTidy(t: Templates, files: Files, op: Op)
    requires Tidy(files) && Unused(files, op)
    ensures Tidy(Step(t, files, op))
  {
    match op {
      case InstallOp(req, id, stamp, run, uninstallFault, fault) =>
        var existing := Find(files, req.provider);
        if existing.Some? {
          UninstallKeepsTidy(t, files, existing.value, true);
          ForcedUninstallFrees(t, files, req.provider);
          UninstallKeepsManifests(t, files, existing.value, true, ManifestOf(id));
          InstallKeepsTidy(t, Uninstalled(t, files, existing.value, true), req, id, stamp, fault);
        } else {
          InstallKeepsTidy(t, files, req, id, stamp, fault);
        }
      case UninstallOp(provider, dryRun, force, chosen, run, fault) =>
        if Chosen(files, provider, chosen).Some? {
          UninstallKeepsTidy(t, files, Chosen(files, provider, chosen).value, force);
        }
      case EditOp(dest, content) =>
        FewerManifests(files, Step(t, files, op));
    }
  }

  ghost function Run(t: Templates, files: Files, ops: seq<Op>): Files {
    if ops == [] then files else Step(t, Run(t, files, ops[..|ops| - 1]), ops[|ops| - 1])
  }

  ghost predicate AllUnused(t: Templates, files: Files, ops: seq<Op>) {
    forall i :: 0 <= i < |ops| ==> Unused(Run(t, files, ops[..i]), ops[i])
  }

  lemma {:induction false} RunsStayTidy(t: Templates, files: Files, ops: seq<Op>)
    requires Tidy(files) && AllUnused(t, files, ops)
    ensures Tidy(Run(t, files, ops))
  {
    if ops != [] {
      var front := ops[..|ops| - 1];
      forall i | 0 <= i < |front|
        ensures Unused(Run(t, files, front[..i]), front[i])
      {
        assert front[..i] == ops[..i];
      }
      RunsStayTidy(t, files, front);
      StepKeepsTidy(t, Run(t, files, front), ops[|ops| - 1]);
    }
  }

  // ----- installations do not disturb each other -----

  /** The operation works on the provider's installation: by name, by the id of its installation, or
      by editing its files. */
  ghost predicate Concerns(files: Files, op: Op, provider: Provider) {
    match op
    case InstallOp(req, _, _, _, _, _) => req.provider == provider
    case UninstallOp(target, _, _, chosen, _, _) =>
      Chosen(files, target, chosen).Some? && Chosen(files, target, chosen).value.provider == provider
    case EditOp(dest, _) => Footprint(provider, dest)
  }

  lemma UninstallKeepsVerified(t: Templates, files: Files, other: Manifest, force: bool, id: string)
    requires Tidy(files) && Verified(files, id) && Own(other) && other.provider != files[ManifestOf(id)].manifest.provider
    requires other.installation != id
    ensures Verified(Uninstalled(t, files, other, force), id)
    ensures Uninstalled(t, files, other, force)[ManifestOf(id)] == files[ManifestOf(id)]
  {
    assert WellFiled(files, ManifestOf(id));
    var m := files[ManifestOf(id)].manifest;
    UninstallStaysInside(t, files, other, force, ManifestOf(id));
    forall i | 0 <= i < |m.generated|
      ensures Intact(Uninstalled(t, files, other, force), m.generated[i])
    {
      assert Intact(files, m.generated[i]) && Footprint(m.provider, m.generated[i].dest);
      UninstallStaysInside(t, files, other, force, At(m.generated[i].dest));
    }
  }

  lemma InstallKeepsVerified(t: Templates, files: Files, req: Request, id': string, stamp: string, fault: Option<nat>, id: string)
    requires Tidy(files) && Verified(files, id) && req.provider != files[ManifestOf(id)].manifest.provider && ManifestOf(id') !in files
    ensures Verified(AfterInstall(t, files, req, id', stamp, fault), id)
  {
    assert WellFiled(files, ManifestOf(id));
    var m := files[ManifestOf(id)].manifest;
    var after := AfterInstall(t, files, req, id', stamp, fault);
    if after != files {
      PlanIsSound(t, files, req, id');
      var ws := PlanWrites(t, files, req, id').value;
      InstallLeavesOthers(files, req, ws, id', stamp, ManifestOf(id));
      forall i | 0 <= i < |m.generated|
        ensures Intact(after, m.generated[i])
      {
        assert Intact(files, m.generated[i]) && Footprint(m.provider, m.generated[i].dest);
        InstallLeavesOthers(files, req, ws, id', stamp, At(m.generated[i].dest));
      }
    }
  }

  /** A verified installation stays verified under operations that do not concern its provider. */
  lemma VerifiedStaysVerified(t: Templates, files: Files, op: Op, id: string)
    requires Tidy(files) && Unused(files, op) && Verified(files, id)
    requires !Concerns(files, op, files[ManifestOf(id)].manifest.provider)
    ensures Verified(Step(t, files, op), id)
  {
    assert WellFiled(files, ManifestOf(id));
    var m := files[ManifestOf(id)].manifest;
    match op {
      case InstallOp(req, id', stamp, run, uninstallFault, fault) =>
        var existing := Find(files, req.provider);
        if existing.Some? {
          FoundIsFiled(files, req.provider);
          var mid := Uninstalled(t, files, existing.value, true);
          UninstallKeepsVerified(t, files, existing.value, true, id);
          UninstallKeepsTidy(t, files, existing.value, true);
          UninstallKeepsManifests(t, files, existing.value, true, ManifestOf(id'));
          InstallKeepsVerified(t, mid, req, id', stamp, fault, id);
        } else {
          InstallKeepsVerified(t, files, req, id', stamp, fault, id);
        }
      case UninstallOp(provider, dryRun, force, chosen, run, fault) =>
        var other := Chosen(files, provider, chosen);
        if other.Some? {
          if chosen.Some? {
            assert WellFiled(files, ManifestOf(chosen.value));
          } else {
            FoundIsFiled(files, provider);
          }
          UninstallKeepsVerified(t, files, other.value, force, id);
        }
      case EditOp(dest, content) =>
        var after := Step(t, files, op);
        forall i | 0 <= i < |m.generated|
          ensures Intact(after, m.generated[i])
        {
          assert Intact(files, m.generated[i]) && Footprint(m.provider, m.generated[i].dest);
        }
    }
  }

  /** A new installation verifies. */
  lemma NewInstallationVerifies(t: Templates, files: Files, req: Request, ws: seq<Write>, id: string, stamp: string)
    requires PlanWrites(t, files, req, id) == Ok(ws)
    ensures Verified(Installed(files, req, ws, id, stamp), id)
  {
    PlanIsSound(t, files, req, id);
    var m, after := MakeManifest(req, ws, id, stamp), Installed(files, req, ws, id, stamp);
    assert after[ManifestOf(id)] == ManifestText(m);
    forall i | 0 <= i < |m.generated|
      ensures Intact(after, m.generated[i])
    {
      SpecsOfWrites(ws, m.generated[i]);
      var w :| w in ws && !IsConfig(w) && m.generated[i] == Generated(w.dest, Sha(w.content), w.role);
      var k :| 0 <= k < |ws| && ws[k] == w;
      WritesHold(WithBackups(files, ws, id, stamp), ws, k);
    }
  }

  /** The script at a place, and a settings document, name the installation. */
  predicate NamesInstallation(t: Templates, files: Files, d: Dest, id: string) {
    var c := Lookup(files, At(d));
    && c.Some?
    && if d.Settings? then c.value.Document? && Occurs(id, t.dumps(c.value.json))
       else c.value.Script? && Occurs("installation_id=" + id, c.value.text)
  }

  lemma PlansItsFootprint(t: Templates, files: Files, req: Request, ws: seq<Write>, id: string, d: Dest) returns (i: nat)
    requires PlanWrites(t, files, req, id) == Ok(ws) && Footprint(req.provider, d)
    ensures i < |ws| && ws[i].dest == d
  {
    i := match d case Bridge(_) => 0 case Hook(_) => 1 case Wrapper => 2 case Plugin => 0 case Settings(_) => 2;
  }

  /** An installation only succeeds if each of its provider's files names it. */
  lemma InstalledNamesItself(t: Templates, files: Files, req: Request, id: string, stamp: string, fault: Option<nat>, d: Dest)
    requires Ending(t, files, req, id, stamp, fault) == InstalledNow && Footprint(req.provider, d)
    ensures NamesInstallation(t, AfterInstall(t, files, req, id, stamp, fault), d, id)
  {
    var ws := PlanWrites(t, files, req, id).value;
    PlanIsSound(t, files, req, id);
    var i := PlansItsFootprint(t, files, req, ws, id, d);
    WritesHold(WithBackups(files, ws, id, stamp), ws, i);
    assert Marked(t, ws[i], id);
  }

  /** Asking for the same installation again finds it; asking for another one finds it too, and sees
      the difference. */
  lemma InstalledIsFound(t: Templates, files: Files, req: Request, ws: seq<Write>, id: string, stamp: string, again: Request)
    requires Tidy(files) && ManifestOf(id) !in files && Find(files, req.provider).None?
    requires PlanWrites(t, files, req, id) == Ok(ws) && again.provider == req.provider
    ensures var found := Find(Installed(files, req, ws, id, stamp), req.provider);
            && found == Some(MakeManifest(req, ws, id, stamp))
            && (Same(found.value, again)
                <==> again.project == req.project && again.serviceUrl == req.serviceUrl && again.tokenFile == req.tokenFile)
  {
    var after := Installed(files, req, ws, id, stamp);
    PlanIsSound(t, files, req, id);
    assert HoldsManifest(after, ManifestOf(id), req.provider);
    forall p | HoldsManifest(after, p, req.provider)
      ensures p == ManifestOf(id)
    {
      if p != ManifestOf(id) {
        InstallLeavesOthers(files, req, ws, id, stamp, p);
        assert HoldsManifest(files, p, req.provider);
      }
    }
  }

  // ----- dry runs -----

  /** A dry run leaves the files alone exactly when it is not an update of an installation that can
      be uninstalled: updating uninstalls first, dry run or not. */
  lemma DryRunExactly(t: Templates, files: Files, op: Op)
    requires Tidy(files) && op.InstallOp? && op.req.dryRun
    ensures var m := Find(files, op.req.provider);
            Step(t, files, op) == files <==> m.None? || !op.req.update || UninstallFails(t, files, m.value, true, op.uninstallFault)
  {
  }

  lemma NothingIsTidy(t: Templates, provider: Provider)
    ensures Tidy(map[]) && Find(map[], provider) == None
  {
    assert forall p :: !HoldsManifest(map[], p, provider);
  }

  /** Installing the OpenCode plug-in into an empty home. */
  lemma PluginInstalled(t: Templates, first: Op)
    requires first.InstallOp? && first.req.provider == OpenCode && !first.req.dryRun && first.fault == None
    requires Marked(t, GeneratedWrite(t, map[], Plugin, PluginRole, first.req, first.installation), first.installation)
    ensures var w := GeneratedWrite(t, map[], Plugin, PluginRole, first.req, first.installation);
            var files := Step(t, map[], first);
            && Tidy(files) && Verified(files, first.installation)
            && Find(files, OpenCode) == Some(MakeManifest(first.req, [w], first.installation, first.stamp))
  {
    var id := first.installation;
    var ws := [GeneratedWrite(t, map[], Plugin, PluginRole, first.req, id)];
    NothingIsTidy(t, OpenCode);
    StepKeepsTidy(t, map[], first);
    assert PlanWrites(t, map[], first.req, id) == Ok(ws);
    assert Step(t, map[], first) == Installed(map[], first.req, ws, id, first.stamp);
    NewInstallationVerifies(t, map[], first.req, ws, id, first.stamp);
    InstalledIsFound(t, map[], first.req, ws, id, first.stamp, first.req);
  }

  lemma PluginManifest(t: Templates, req: Request, id: string, stamp: string)
    ensures var m := MakeManifest(req, [GeneratedWrite(t, map[], Plugin, PluginRole, req, id)], id, stamp);
            m.edits == [] && m.installation == id
  {
    var w := GeneratedWrite(t, map[], Plugin, PluginRole, req, id);
    assert [w][..|[w]| - 1] == [] && !IsConfig(w) && w.before == None;
    assert ConfigEdits([], req.provider, id, stamp) == [] && BackupEdits([], req.provider, id, stamp) == [];
    assert ConfigEdits([w], req.provider, id, stamp) == [];
    assert BackupEdits([w], req.provider, id, stamp) == [];
  }

  /** A dry run that is asked to update an installation uninstalls it: of the plug-in just installed and
      verified nothing is left, and nothing is installed. */
  lemma DryRunUpdateUninstalls(t: Templates, first: Op, dry: Op)
    requires first.InstallOp? && first.req.provider == OpenCode && !first.req.dryRun && first.fault == None
    requires Marked(t, GeneratedWrite(t, map[], Plugin, PluginRole, first.req, first.installation), first.installation)
    requires dry.InstallOp? && dry.req.provider == OpenCode && dry.req.dryRun && dry.req.update && dry.uninstallFault == None
    ensures var files := Step(t, map[], first);
            && Tidy(files) && Verified(files, first.installation)
            && Step(t, files, dry) != files && Find(Step(t, files, dry), OpenCode) == None
  {
    var files := Step(t, map[], first);
    PluginInstalled(t, first);
    PluginManifest(t, first.req, first.installation, first.stamp);
    ForcedUninstallFrees(t, files, OpenCode);
    var m := Find(files, OpenCode).value;
    assert !UninstallFails(t, files, m, true, dry.uninstallFault);
    assert Step(t, files, dry) == Uninstalled(t, files, m, true);
  }

  // ----- there and back -----

  /** Files with their recorded hashes are all removed, forced or not. */
  lemma {:induction false} IntactFilesGo(files: Files, gens: seq<Generated>, force: bool)
    requires forall i :: 0 <= i < |gens| ==> Intact(files, gens[i])
    ensures forall i :: 0 <= i < |gens| ==> At(gens[i].dest) !in RemoveGenerated(files, gens, force)
    ensures !KeepsModified(files, gens, force)
  {
    if gens != [] {
      var front, last := gens[..|gens| - 1], gens[|gens| - 1];
      IntactFilesGo(files, front, force);
      RemovalOnlyRemoves(files, front, force, At(last.dest));
      forall j | 0 <= j < |gens|
        ensures !StopsAt(files, gens, force, j)
      {
        if j < |front| {
          assert front[..j] == gens[..j] && !StopsAt(files, front, force, j);
        } else {
          assert gens[..j] == front;
        }
      }
    }
  }

  predicate Edits(edits: seq<Edit>, d: Dest) {
    exists i :: 0 <= i < |edits| && edits[i].dest == d
  }

  predicate Changes(changes: seq<Change>, d: Dest) {
    exists i :: 0 <= i < |changes| && changes[i].dest == d
  }

  /** Changes of one file that agree on its new text. */
  lemma {:induction false} AgreedChanges(files: Files, changes: seq<Change>, d: Dest, cleaned: Config)
    requires forall i :: 0 <= i < |changes| && changes[i].dest == d ==> changes[i].cleaned == cleaned
    ensures Lookup(ApplyChanges(files, changes), At(d))
         == if Changes(changes, d) then Some(Document(Obj(cleaned), "")) else Lookup(files, At(d))
  {
    if changes != [] {
      var front := changes[..|changes| - 1];
      AgreedChanges(files, front, d, cleaned);
      assert forall i :: 0 <= i < |front| ==> front[i] == changes[i];
      assert changes == front + [changes[|changes| - 1]];
    }
  }

  lemma PlanEditAt(t: Templates, files: Files, m: Manifest, e: Edit, d: Dest, config: Config, cleaned: Config)
    requires Lookup(files, At(d)) == Some(Document(Obj(config), "")) && d.Settings? && cleaned == RemoveOwned(t.dumps, config, e.marker)
    ensures forall i :: 0 <= i < |PlanEdit(t, files, m, e)| ==>
              PlanEdit(t, files, m, e)[i].dest == e.dest && (e.dest == d ==> PlanEdit(t, files, m, e)[i].cleaned == cleaned)
    ensures Changes(PlanEdit(t, files, m, e), d) <==> e.dest == d && cleaned != config
  {
    if e.dest == d && cleaned != config {
      assert PlanEdit(t, files, m, e)[0].dest == d;
    }
  }

  lemma {:induction false} PlanAt(t: Templates, files: Files, m: Manifest, edits: seq<Edit>, d: Dest, config: Config, marker: Marker, cleaned: Config)
    requires Lookup(files, At(d)) == Some(Document(Obj(config), "")) && d.Settings? && cleaned == RemoveOwned(t.dumps, config, marker)
    requires forall i :: 0 <= i < |edits| ==> edits[i].marker == marker
    ensures var cs := PlanEdits(t, files, m, edits);
            && (forall i :: 0 <= i < |cs| && cs[i].dest == d ==> cs[i].cleaned == cleaned)
            && (Changes(cs, d) <==> Edits(edits, d) && cleaned != config)
  {
    if edits != [] {
      var front, last := edits[..|edits| - 1], edits[|edits| - 1];
      PlanAt(t, files, m, front, d, config, marker, cleaned);
      PlanEditAt(t, files, m, last, d, config, cleaned);
      assert edits == front + [last];
      EditsOneMore(front, last, d);
      ChangesJoined(PlanEdits(t, files, m, front), PlanEdit(t, files, m, last), d);
    }
  }

  lemma ChangesJoined(a: seq<Change>, b: seq<Change>, d: Dest)
    ensures Changes(a + b, d) <==> Changes(a, d) || Changes(b, d)
  {
    var all := a + b;
    if Changes(a, d) {
      var i :| 0 <= i < |a| && a[i].dest == d;
      assert all[i].dest == d;
    }
    if Changes(b, d) {
      var i :| 0 <= i < |b| && b[i].dest == d;
      assert all[|a| + i].dest == d;
    }
  }

  /** Cleaning a configuration whose edits all carry one marker removes that marker's entries. */
  lemma CleanedConfig(t: Templates, files: Files, m: Manifest, d: Dest, config: Config, marker: Marker)
    requires Lookup(files, At(d)) == Some(Document(Obj(config), "")) && d.Settings? && Edits(m.edits, d)
    requires forall i :: 0 <= i < |m.edits| ==> m.edits[i].marker == marker
    ensures Lookup(Cleaned(t, files, m), At(d)) == Some(Document(Obj(RemoveOwned(t.dumps, config, marker)), ""))
  {
    var cleaned := RemoveOwned(t.dumps, config, marker);
    PlanAt(t, files, m, m.edits, d, config, marker, cleaned);
    AgreedChanges(files, PlanEdits(t, files, m, m.edits), d, cleaned);
  }

  lemma EditsOneMore(edits: seq<Edit>, e: Edit, d: Dest)
    ensures Edits(edits + [e], d) <==> Edits(edits, d) || e.dest == d
  {
    var all := edits + [e];
    if Edits(edits, d) {
      var i :| 0 <= i < |edits| && edits[i].dest == d;
      assert all[i].dest == d;
    }
    assert all[|edits|] == e;
  }

  /** The configuration as the provider's editor meets it. */
  function Met(p: Provider, config: Config): Config {
    if p == Cursor then WithVersion(config) else config
  }

  lemma EditorUndone(t: Templates, p: Provider, config: Config, id: string)
    requires HookConfig(t, p, config, id).Ok?
    ensures Editable(Met(p, config), EventFor(p))
    ensures RemoveOwned(t.dumps, HookConfig(t, p, config, id).value, MarkerFor(p, id)) == Defaulted(Met(p, config), EventFor(p))
       <==> Absent(t.dumps, Met(p, config), MarkerFor(p, id))
  {
    var command, marker := t.command(Hook(LabelOf(p))), MarkerFor(p, id);
    OwnEntries(t.dumps, command, marker);
    if p == Cursor {
      UndoExactly(t.dumps, WithVersion(config), "stop", StopEntry(command, marker), marker);
    } else {
      UndoExactly(t.dumps, config, EventFor(p), CommandEntry(command, marker), marker);
    }
  }

  /** The files after installing and then uninstalling. */
  function Back(t: Templates, files: Files, req: Request, id: string, stamp: string, ws: seq<Write>, force: bool): Files {
    Uninstalled(t, Installed(files, req, ws, id, stamp), MakeManifest(req, ws, id, stamp), force)
  }

  /** A backup holds what stood at its path before the installation, and outlives the uninstallation. */
  lemma BackupOutlives(t: Templates, files: Files, req: Request, id: string, stamp: string, ws: seq<Write>, force: bool, i: nat)
    requires PlanWrites(t, files, req, id) == Ok(ws) && i < |ws| && ws[i].before.Some?
    ensures Lookup(Back(t, files, req, id, stamp, ws, force), BackupOf(ws[i].dest, id, stamp)) == ws[i].before == Lookup(files, At(ws[i].dest))
  {
    var backup := BackupOf(ws[i].dest, id, stamp);
    PlanIsSound(t, files, req, id);
    BackupsHold(files, ws, id, stamp, i);
    WritesLeaveOthers(WithBackups(files, ws, id, stamp), ws, backup);
    UninstallStaysInside(t, Installed(files, req, ws, id, stamp), MakeManifest(req, ws, id, stamp), force, backup);
  }

  /** Installing and then uninstalling, with no fault and nobody interfering: the generated files and
      the manifest are gone, so a user's own file that stood at a generated path survives only in its
      backup, which holds its old bytes as every backup does, and everything outside the provider's files,
      except the backups, is as before. */
  lemma ThereAndBack(t: Templates, files: Files, req: Request, id: string, stamp: string, ws: seq<Write>, force: bool)
    requires PlanWrites(t, files, req, id) == Ok(ws)
    ensures var back := Back(t, files, req, id, stamp, ws, force);
            && ManifestOf(id) !in back
            && (forall i :: 0 <= i < |ws| && !IsConfig(ws[i]) ==> At(ws[i].dest) !in back)
            && (forall i :: 0 <= i < |ws| && At(ws[i].dest) in files ==>
                  Lookup(back, BackupOf(ws[i].dest, id, stamp)) == Lookup(files, At(ws[i].dest)))
            && (forall p :: p != ManifestOf(id) && !p.BackupOf? && !(p.At? && Footprint(req.provider, p.dest)) ==> Lookup(back, p) == Lookup(files, p))
  {
    var m, after := MakeManifest(req, ws, id, stamp), Installed(files, req, ws, id, stamp);
    PlanIsSound(t, files, req, id);
    ManifestIsOwn(t, files, req, id, stamp, ws);
    NewInstallationVerifies(t, files, req, ws, id, stamp);
    forall i | 0 <= i < |m.generated|
      ensures Intact(Cleaned(t, after, m), m.generated[i])
    {
      assert Intact(after, m.generated[i]);
      CleaningSparesGenerated(t, after, m, i);
    }
    IntactFilesGo(Cleaned(t, after, m), m.generated, force);
    forall i | 0 <= i < |ws| && !IsConfig(ws[i])
      ensures At(ws[i].dest) !in Uninstalled(t, after, m, force)
    {
      var g := Generated(ws[i].dest, Sha(ws[i].content), ws[i].role);
      SpecsOfWrites(ws, g);
      assert g in m.generated;
    }
    forall i | 0 <= i < |ws| && At(ws[i].dest) in files
      ensures Lookup(Uninstalled(t, after, m, force), BackupOf(ws[i].dest, id, stamp)) == Lookup(files, At(ws[i].dest))
    {
      BackupOutlives(t, files, req, id, stamp, ws, force, i);
    }
    forall p | p != ManifestOf(id) && !p.BackupOf? && !(p.At? && Footprint(req.provider, p.dest))
      ensures Lookup(Uninstalled(t, after, m, force), p) == Lookup(files, p)
    {
      UninstallStaysInside(t, after, m, force, p);
      InstallLeavesOthers(files, req, ws, id, stamp, p);
    }
  }

  lemma PlannedConfig(t: Templates, files: Files, req: Request, id: string, ws: seq<Write>, config: Config)
    requires PlanWrites(t, files, req, id) == Ok(ws) && req.provider != OpenCode && req.provider != Aider
    requires LoadConfig(files, Settings(req.provider)) == Ok(config)
    ensures HookConfig(t, req.provider, config, id).Ok? && |ws| == 3 && IsConfig(ws[2]) && ws[2].dest == Settings(req.provider)
    ensures ws[2].content == Document(Obj(HookConfig(t, req.provider, config, id).value), "")
  {
  }

  lemma UninstalledConfig(t: Templates, files: Files, req: Request, id: string, stamp: string, ws: seq<Write>, force: bool, edited: Config, d: Dest)
    requires PlanWrites(t, files, req, id) == Ok(ws) && |ws| == 3 && IsConfig(ws[2]) && ws[2].dest == d
    requires ws[2].content == Document(Obj(edited), "")
    ensures Lookup(Back(t, files, req, id, stamp, ws, force), At(d)) == Some(Document(Obj(RemoveOwned(t.dumps, edited, MarkerFor(req.provider, id))), ""))
  {
    var m, after := MakeManifest(req, ws, id, stamp), Installed(files, req, ws, id, stamp);
    PlanIsSound(t, files, req, id);
    ManifestIsOwn(t, files, req, id, stamp, ws);
    WritesHold(WithBackups(files, ws, id, stamp), ws, 2);
    ConfigIsEdited(req, ws, id, stamp, ws[2]);
    CleanedConfig(t, after, m, d, edited, MarkerFor(req.provider, id));
    RemovalOnlyRemoves(Cleaned(t, after, m), m.generated, force, At(d));
  }

  /** The configuration as an uninstallation leaves it: "hooks" and the event defaulted, laid out anew. */
  function Restored(p: Provider, config: Config): Content
    requires Editable(Met(p, config), EventFor(p))
  {
    Document(Obj(Defaulted(Met(p, config), EventFor(p))), "")
  }

  /** The configuration comes back as it was, up to defaulted keys and layout, exactly when the new
      installation's id did not occur in it. */
  lemma ConfigComesBackExactly(t: Templates, files: Files, req: Request, id: string, stamp: string, ws: seq<Write>, force: bool, config: Config)
    requires PlanWrites(t, files, req, id) == Ok(ws) && req.provider != OpenCode && req.provider != Aider
    requires LoadConfig(files, Settings(req.provider)) == Ok(config)
    ensures Editable(Met(req.provider, config), EventFor(req.provider))
    ensures Lookup(Back(t, files, req, id, stamp, ws, force), At(Settings(req.provider))) == Some(Restored(req.provider, config))
       <==> Absent(t.dumps, Met(req.provider, config), MarkerFor(req.provider, id))
  {
    PlannedConfig(t, files, req, id, ws, config);
    UninstalledConfig(t, files, req, id, stamp, ws, force, HookConfig(t, req.provider, config, id).value, Settings(req.provider));
    EditorUndone(t, req.provider, config, id);
  }

  lemma ConfigIsEdited(req: Request, ws: seq<Write>, id: string, stamp: string, w: Write)
    requires w in ws && IsConfig(w)
    ensures var edits := MakeManifest(req, ws, id, stamp).edits;
            && Edits(edits, w.dest)
            && forall i :: 0 <= i < |edits| ==> edits[i].marker == MarkerFor(req.provider, id)
  {
    var edits := MakeManifest(req, ws, id, stamp).edits;
    var e := Edit(w.dest, BackupPath(w, id, stamp), MarkerFor(req.provider, id), w.event);
    EditsOfWrites(ws, req.provider, id, stamp, e);
    assert e in edits;
    forall i | 0 <= i < |edits|
      ensures edits[i].marker == MarkerFor(req.provider, id)
    {
      EditsOfWrites(ws, req.provider, id, stamp, edits[i]);
      assert edits[i] in ConfigEdits(ws, req.provider, id, stamp) || edits[i] in BackupEdits(ws, req.provider, id, stamp);
    }
  }
}
