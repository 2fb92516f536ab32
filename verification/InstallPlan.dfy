/** The files an installation writes and the manifest that describes it (integration_install.py). */
module InstallPlan {
  import opened Basics
  import opened Json
  import opened Hooks

  datatype Provider = Claude | Cursor | Gemini | Continue | OpenCode | Aider

  /** The name on bridge and hook scripts; Aider's are named after the ingest format. */
  datatype Label = Of(provider: Provider) | Jsonl

  /** The files integrations live in. */
  datatype Dest = Bridge(name: Label) | Hook(name: Label) | Wrapper | Plugin | Settings(provider: Provider)

  datatype Path =
    | At(dest: Dest)
    | BackupOf(dest: Dest, installation: string, stamp: string)
    | SafetyCopy(dest: Dest, stamp: string)
    | ManifestOf(installation: string)
    | Quarantined(installation: string, run: string, n: nat)

  /** File contents: a JSON text is its value and its layout, a hash is the content it was taken of. */
  datatype Content =
    | Script(text: string)
    | Document(json: Json, layout: string)
    | ManifestText(manifest: Manifest)

  datatype Sha = Sha(content: Content)

  datatype Role = BridgeRole | HookRole | PluginRole | WrapperRole | ConfigRole

  datatype Generated = Generated(dest: Dest, sha: Sha, role: Role)

  datatype Edit = Edit(dest: Dest, backup: Option<Path>, marker: Marker, event: Option<string>)

  datatype Manifest = Manifest(
    installation: string,
    provider: Provider,
    project: string,
    serviceUrl: string,
    tokenFile: Option<string>,
    generated: seq<Generated>,
    edits: seq<Edit>)

  type Files = map<Path, Content>

  /** One file to be written, with what was there when the plan was made. */
  datatype Write = Write(dest: Dest, content: Content, role: Role, event: Option<string>, before: Option<Content>)

  datatype Request = Request(provider: Provider, project: string, serviceUrl: string, tokenFile: Option<string>, dryRun: bool, update: bool)

  /** The text of generated scripts, the JSON serialiser, and a script path as hook commands name it. */
  datatype Templates = Templates(
    render: (Role, Label, string, string, string) -> string,
    dumps: Json -> string,
    command: Dest -> string)

  datatype PlanError = MalformedConfig | NotAnObject | BadHooks(error: HookError)

  /** The home directory. */
  class Home {
    var files: Files

    constructor (files: Files)
      ensures this.files == files
    {
      this.files := files;
    }
  }

  function Lookup(files: Files, p: Path): Option<Content> {
    if p in files then Some(files[p]) else None
  }

  function ProviderName(p: Provider): string {
    match p
    case Claude => "claude"
    case Cursor => "cursor"
    case Gemini => "gemini"
    case Continue => "continue"
    case OpenCode => "opencode"
    case Aider => "aider"
  }

  function MarkerFor(p: Provider, installation: string): Marker {
    Marker(installation, ProviderName(p))
  }

  function LabelOf(p: Provider): Label {
    if p == Aider then Jsonl else Of(p)
  }

  function EventFor(p: Provider): string {
    if p == Cursor then "stop" else "SessionEnd"
  }

  // ----- planning -----

  function GeneratedWrite(t: Templates, files: Files, dest: Dest, role: Role, req: Request, id: string): Write {
    Write(dest, Script(t.render(role, LabelOf(req.provider), req.project, req.serviceUrl, id)), role, None, Lookup(files, At(dest)))
  }

  /** _load_and_validate_json_config. */
  function LoadConfig(files: Files, dest: Dest): Result<Config, PlanError> {
    match Lookup(files, At(dest))
    case None => Ok(map[])
    case Some(Document(Obj(config), _)) => Ok(config)
    case Some(Document(_, _)) => Err(NotAnObject)
    case Some(_) => Err(MalformedConfig)
  }

  /** The provider's hook editor. */
  function HookConfig(t: Templates, p: Provider, config: Config, id: string): Result<Config, HookError> {
    if p == Cursor then WithStopHook(config, t.command(Hook(LabelOf(p))), MarkerFor(p, id))
    else WithCommandHook(config, EventFor(p), t.command(Hook(LabelOf(p))), MarkerFor(p, id))
  }

  function ConfigWrite(t: Templates, files: Files, p: Provider, id: string): Result<Write, PlanError> {
    match LoadConfig(files, Settings(p))
    case Err(e) => Err(e)
    case Ok(config) =>
      match HookConfig(t, p, config, id)
      case Err(e) => Err(BadHooks(e))
      case Ok(edited) =>
        Ok(Write(Settings(p), Document(Obj(edited), ""), ConfigRole, Some(EventFor(p)), Lookup(files, At(Settings(p)))))
  }

  /** _build_provider_writes. */
  function PlanWrites(t: Templates, files: Files, req: Request, id: string): Result<seq<Write>, PlanError> {
    var scripts := [GeneratedWrite(t, files, Bridge(LabelOf(req.provider)), BridgeRole, req, id),
                    GeneratedWrite(t, files, Hook(LabelOf(req.provider)), HookRole, req, id)];
    match req.provider
    case OpenCode => Ok([GeneratedWrite(t, files, Plugin, PluginRole, req, id)])
    case Aider => Ok(scripts + [GeneratedWrite(t, files, Wrapper, WrapperRole, req, id)])
    case _ =>
      match ConfigWrite(t, files, req.provider, id)
      case Err(e) => Err(e)
      case Ok(config) => Ok(scripts + [config])
  }

  /** The files of a provider. */
  predicate Footprint(p: Provider, d: Dest) {
    match d
    case Bridge(l) => p != OpenCode && l == LabelOf(p)
    case Hook(l) => p != OpenCode && l == LabelOf(p)
    case Wrapper => p == Aider
    case Plugin => p == OpenCode
    case Settings(q) => q == p && p != OpenCode && p != Aider
  }

  /** Footprints do not overlap. */
  lemma FootprintsDisjoint(p: Provider, q: Provider, d: Dest)
    requires Footprint(p, d) && Footprint(q, d)
    ensures p == q
  {
  }

  predicate DistinctDests(writes: seq<Write>) {
    forall i, j :: 0 <= i < j < |writes| ==> writes[i].dest != writes[j].dest
  }

  /** The plan still describes the files. */
  predicate Current(files: Files, writes: seq<Write>) {
    forall i :: 0 <= i < |writes| ==> writes[i].before == Lookup(files, At(writes[i].dest))
  }

  predicate IsConfig(w: Write) {
    w.role == ConfigRole
  }

  /** A plan writes each of its files once, within the provider's footprint, and edits a
      configuration only where it generates nothing. */
  lemma PlanIsSound(t: Templates, files: Files, req: Request, id: string)
    ensures PlanWrites(t, files, req, id).Ok? ==>
              var ws := PlanWrites(t, files, req, id).value;
              && ws != [] && DistinctDests(ws) && Current(files, ws)
              && forall i :: 0 <= i < |ws| ==> Footprint(req.provider, ws[i].dest) && (IsConfig(ws[i]) <==> ws[i].dest.Settings?)
  {
  }

  // ----- the manifest -----

  function BackupPath(w: Write, id: string, stamp: string): Option<Path> {
    if w.before.Some? then Some(BackupOf(w.dest, id, stamp)) else None
  }

  function GeneratedSpecs(ws: seq<Write>): seq<Generated> {
    if ws == [] then []
    else
      var w := ws[|ws| - 1];
      GeneratedSpecs(ws[..|ws| - 1]) + if IsConfig(w) then [] else [Generated(w.dest, Sha(w.content), w.role)]
  }

  function ConfigEdits(ws: seq<Write>, p: Provider, id: string, stamp: string): seq<Edit> {
    if ws == [] then []
    else
      var w := ws[|ws| - 1];
      ConfigEdits(ws[..|ws| - 1], p, id, stamp)
        + if IsConfig(w) then [Edit(w.dest, BackupPath(w, id, stamp), MarkerFor(p, id), w.event)] else []
  }

  /** Backups of generated files that were there before are recorded as edits too. */
  function BackupEdits(ws: seq<Write>, p: Provider, id: string, stamp: string): seq<Edit> {
    if ws == [] then []
    else
      var w := ws[|ws| - 1];
      BackupEdits(ws[..|ws| - 1], p, id, stamp)
        + if !IsConfig(w) && w.before.Some? then [Edit(w.dest, BackupPath(w, id, stamp), MarkerFor(p, id), None)] else []
  }

  function MakeManifest(req: Request, ws: seq<Write>, id: string, stamp: string): Manifest {
    Manifest(id, req.provider, req.project, req.serviceUrl, req.tokenFile, GeneratedSpecs(ws),
             ConfigEdits(ws, req.provider, id, stamp) + BackupEdits(ws, req.provider, id, stamp))
  }
}
