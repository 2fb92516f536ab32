/** What the files of a completed installation say (integration_install.py, integrations.py). */
module InstalledFiles {
  import opened Basics
  import opened Json
  import opened Sorting
  import opened Hooks
  import opened InstallPlan
  import opened Install

  /** The file holds the script of this role, made for this label, project, service and installation. */
  predicate HoldsScript(t: Templates, files: Files, d: Dest, role: Role, name: Label, req: Request, id: string) {
    Lookup(files, At(d)) == Some(Script(t.render(role, name, req.project, req.serviceUrl, id)))
  }

  /** Each of the provider's generated files is the script of its own role. */
  predicate ScriptsInPlace(t: Templates, files: Files, req: Request, id: string) {
    match req.provider
    case OpenCode => HoldsScript(t, files, Plugin, PluginRole, Of(OpenCode), req, id)
    case Aider =>
      && HoldsScript(t, files, Bridge(Jsonl), BridgeRole, Jsonl, req, id)
      && HoldsScript(t, files, Hook(Jsonl), HookRole, Jsonl, req, id)
      && HoldsScript(t, files, Wrapper, WrapperRole, Jsonl, req, id)
    case p =>
      && HoldsScript(t, files, Bridge(Of(p)), BridgeRole, Of(p), req, id)
      && HoldsScript(t, files, Hook(Of(p)), HookRole, Of(p), req, id)
  }

  /** The entry makes the provider run the command: Cursor reads it from the entry, the others from its one hook. */
  predicate RunsCommand(p: Provider, entry: Json, command: string) {
    if p == Cursor then Member(entry, "command") == Some(Str(command))
    else
      var hooks := Member(entry, "hooks");
      && Member(entry, "matcher") == Some(Str(".*"))
      && hooks.Some? && hooks.value.Arr? && |hooks.value.items| == 1
      && Member(hooks.value.items[0], "type") == Some(Str("command"))
      && Member(hooks.value.items[0], "command") == Some(Str(command))
  }

  /** The entry says whose it is. */
  predicate SaysOwner(entry: Json, id: string) {
    var owner := Member(entry, "memorymesh_ownership");
    owner.Some? && Member(owner.value, "installation_id") == Some(Str(id)) && Member(owner.value, "product") == Some(Str("memorymesh"))
  }

  /** The provider's own key. */
  predicate CalledBy(p: Provider, name: string) {
    match p
    case Claude => name == "claude"
    case Cursor => name == "cursor"
    case Gemini => name == "gemini"
    case Continue => name == "continue"
    case OpenCode => name == "opencode"
    case Aider => name == "aider"
  }

  predicate SaysProvider(entry: Json, p: Provider) {
    var owner := Member(entry, "memorymesh_ownership");
    && owner.Some?
    && (var name := Member(owner.value, "provider"); name.Some? && name.value.Str? && CalledBy(p, name.value.s))
  }

  /** The provider's event list ends in the one entry of this installation, and that entry runs the hook script. */
  predicate RunsHook(t: Templates, p: Provider, config: Config, id: string) {
    var event := if p == Cursor then "stop" else "SessionEnd";
    && Editable(config, event) && (p == Cursor ==> "version" in config)
    && (var entries := Entries(config, event);
        && entries != [] && SaysProvider(entries[|entries| - 1], p)
        && RunsCommand(p, entries[|entries| - 1], t.command(Hook(Of(p)))) && SaysOwner(entries[|entries| - 1], id)
        && forall i :: 0 <= i < |entries| - 1 ==> !SaysOwner(entries[i], id))
  }

  predicate ReadsHooks(p: Provider) {
    p != OpenCode && p != Aider
  }

  /** A provider that reads hooks from a settings file finds ours there. */
  predicate HookRegistered(t: Templates, files: Files, p: Provider, id: string) {
    ReadsHooks(p) ==>
      var settings := Lookup(files, At(Settings(p)));
      settings.Some? && settings.value.Document? && settings.value.json.Obj? && RunsHook(t, p, settings.value.json.fields, id)
  }

  /** The installation is in place: its scripts, and its hook where the provider has one. */
  predicate InPlace(t: Templates, files: Files, req: Request, id: string) {
    ScriptsInPlace(t, files, req, id) && HookRegistered(t, files, req.provider, id)
  }

  lemma AppendedIsLast(config: Config, event: string, entry: Json, m: Marker)
    requires Append(config, event, entry, m).Ok?
    ensures var edited := Append(config, event, entry, m).value;
            && Editable(edited, event)
            && Entries(edited, event) == Filter(Entries(config, event), NotReplaced(m)) + [entry]
  {
  }

  lemma EntryKinds(command: string, m: Marker)
    ensures RunsCommand(Cursor, StopEntry(command, m), command) && SaysOwner(StopEntry(command, m), m.installation)
    ensures forall p :: p != Cursor ==> RunsCommand(p, CommandEntry(command, m), command)
    ensures SaysOwner(CommandEntry(command, m), m.installation)
    ensures forall p :: CalledBy(p, m.provider) ==> SaysProvider(StopEntry(command, m), p) && SaysProvider(CommandEntry(command, m), p)
  {
  }

  /** What is kept of the entries that were there is not ours. */
  lemma OthersKept(entries: seq<Json>, m: Marker, i: nat)
    requires i < |Filter(entries, NotReplaced(m))|
    ensures !SaysOwner(Filter(entries, NotReplaced(m))[i], m.installation)
  {
    assert NotReplaced(m)(Filter(entries, NotReplaced(m))[i]);
  }

  lemma AppendedRunsHook(t: Templates, p: Provider, config: Config, event: string, entry: Json, m: Marker)
    requires event == (if p == Cursor then "stop" else "SessionEnd") && Append(config, event, entry, m).Ok?
    requires RunsCommand(p, entry, t.command(Hook(Of(p)))) && SaysOwner(entry, m.installation) && SaysProvider(entry, p)
    requires p == Cursor ==> "version" in config
    ensures RunsHook(t, p, Append(config, event, entry, m).value, m.installation)
  {
    AppendedIsLast(config, event, entry, m);
    var kept := Filter(Entries(config, event), NotReplaced(m));
    forall i | 0 <= i < |kept|
      ensures !SaysOwner((kept + [entry])[i], m.installation)
    {
      OthersKept(Entries(config, event), m, i);
    }
  }

  /** What the provider's editor makes of a configuration. */
  lemma EditedRunsHook(t: Templates, p: Provider, config: Config, id: string)
    requires ReadsHooks(p) && HookConfig(t, p, config, id).Ok?
    ensures RunsHook(t, p, HookConfig(t, p, config, id).value, id)
    ensures p == Cursor && "version" !in config ==> HookConfig(t, p, config, id).value["version"] == Int(1)
  {
    assert CalledBy(p, ProviderName(p));
    var command, m := t.command(Hook(LabelOf(p))), MarkerFor(p, id);
    EntryKinds(command, m);
    if p == Cursor {
      AppendedRunsHook(t, p, WithVersion(config), "stop", StopEntry(command, m), m);
    } else {
      AppendedRunsHook(t, p, config, "SessionEnd", CommandEntry(command, m), m);
    }
  }

  lemma WrittenScript(t: Templates, files: Files, ws: seq<Write>, i: nat, d: Dest, role: Role, req: Request, id: string,
                      mid: Files, after: Files, manifest: Content)
    requires DistinctDests(ws) && i < |ws| && ws[i] == GeneratedWrite(t, files, d, role, req, id)
    requires after == WithWrites(mid, ws)[ManifestOf(id) := manifest]
    ensures HoldsScript(t, after, d, role, LabelOf(req.provider), req, id)
  {
    WritesHold(mid, ws, i);
  }

  lemma ScriptsInstalled(t: Templates, files: Files, req: Request, ws: seq<Write>, id: string, mid: Files, after: Files, manifest: Content)
    requires PlanWrites(t, files, req, id) == Ok(ws) && DistinctDests(ws)
    requires after == WithWrites(mid, ws)[ManifestOf(id) := manifest]
    ensures ScriptsInPlace(t, after, req, id)
  {
    match req.provider {
      case OpenCode =>
        WrittenScript(t, files, ws, 0, Plugin, PluginRole, req, id, mid, after, manifest);
      case Aider =>
        WrittenScript(t, files, ws, 0, Bridge(Jsonl), BridgeRole, req, id, mid, after, manifest);
        WrittenScript(t, files, ws, 1, Hook(Jsonl), HookRole, req, id, mid, after, manifest);
        WrittenScript(t, files, ws, 2, Wrapper, WrapperRole, req, id, mid, after, manifest);
      case p =>
        WrittenScript(t, files, ws, 0, Bridge(Of(p)), BridgeRole, req, id, mid, after, manifest);
        WrittenScript(t, files, ws, 1, Hook(Of(p)), HookRole, req, id, mid, after, manifest);
    }
  }

  lemma HookInstalled(t: Templates, files: Files, req: Request, ws: seq<Write>, id: string, mid: Files, after: Files, manifest: Content)
    requires PlanWrites(t, files, req, id) == Ok(ws) && DistinctDests(ws)
    requires after == WithWrites(mid, ws)[ManifestOf(id) := manifest]
    ensures HookRegistered(t, after, req.provider, id)
  {
    var p := req.provider;
    if ReadsHooks(p) {
      WritesHold(mid, ws, 2);
      EditedRunsHook(t, p, LoadConfig(files, Settings(p)).value, id);
    }
  }

  /** After a completed installation every script is the one of its role, and the provider's settings run the hook. */
  lemma InstalledContents(t: Templates, files: Files, req: Request, ws: seq<Write>, id: string, stamp: string)
    requires PlanWrites(t, files, req, id) == Ok(ws)
    ensures InPlace(t, Installed(files, req, ws, id, stamp), req, id)
  {
    PlanIsSound(t, files, req, id);
    var mid, after := WithBackups(files, ws, id, stamp), Installed(files, req, ws, id, stamp);
    var manifest := ManifestText(MakeManifest(req, ws, id, stamp));
    ScriptsInstalled(t, files, req, ws, id, mid, after, manifest);
    HookInstalled(t, files, req, ws, id, mid, after, manifest);
  }
}
