/** Editing other programs' hook configurations (integrations.py, integration_install.py): adding
    an entry that carries an ownership marker, and removing exactly such entries again. */
module Hooks {
  import opened Basics
  import opened Json
  import opened Sorting

  const OWNERSHIP_MARKER_KEY := "memorymesh_ownership"
  const PRODUCT := "memorymesh"

  /** _ownership_marker. */
  datatype Marker = Marker(installation: string, provider: string)

  type Config = map<string, Json>

  /** What Python raises when a part of the file is not the container it is used as. */
  datatype HookError = HooksNotAnObject | EventNotAList

  function MarkerJson(m: Marker): Json {
    Obj(map["product" := Str(PRODUCT), "installation_id" := Str(m.installation), "provider" := Str(m.provider)])
  }

  function Member(j: Json, key: string): Option<Json> {
    if j.Obj? && key in j.fields then Some(j.fields[key]) else None
  }

  /** _same_owner. */
  predicate SameOwner(candidate: Option<Json>, m: Marker) {
    && candidate.Some? && candidate.value.Obj?
    && Member(candidate.value, "installation_id") == Some(Str(m.installation))
    && Member(candidate.value, "product") == Some(Str(PRODUCT))
  }

  /** An entry that appending under the marker replaces. */
  predicate Replaced(entry: Json, m: Marker) {
    entry.Obj? && SameOwner(Member(entry, OWNERSHIP_MARKER_KEY), m)
  }

  /** An entry that removing the marker drops: it carries the installation id in its marker, or
      anywhere in its text. `dumps` is the JSON serialiser. */
  predicate Owned(dumps: Json -> string, entry: Json, m: Marker) {
    && entry.Obj?
    && (|| (var owner := Member(entry, OWNERSHIP_MARKER_KEY);
            owner.Some? && owner.value.Obj? && Member(owner.value, "installation_id") == Some(Str(m.installation)))
        || (m.installation != "" && Occurs(m.installation, dumps(entry))))
  }

  predicate Occurs(needle: string, text: string) {
    exists i :: 0 <= i <= |text| && needle <= text[i..]
  }

  function NotReplaced(m: Marker): Json -> bool {
    (entry: Json) => !Replaced(entry, m)
  }

  function NotOwned(dumps: Json -> string, m: Marker): Json -> bool {
    (entry: Json) => !Owned(dumps, entry, m)
  }

  // ----- one event of one configuration -----

  function HooksOf(config: Config): Json {
    if "hooks" in config then config["hooks"] else Obj(map[])
  }

  function EventOf(hooks: Config, event: string): Json {
    if event in hooks then hooks[event] else Arr([])
  }

  predicate Editable(config: Config, event: string) {
    HooksOf(config).Obj? && EventOf(HooksOf(config).fields, event).Arr?
  }

  function Entries(config: Config, event: string): seq<Json>
    requires Editable(config, event)
  {
    EventOf(HooksOf(config).fields, event).items
  }

  function WithEntries(config: Config, event: string, entries: seq<Json>): Config
    requires HooksOf(config).Obj?
  {
    config["hooks" := Obj(HooksOf(config).fields[event := Arr(entries)])]
  }

  // ----- appending -----

  function CommandEntry(command: string, m: Marker): Json {
    Obj(map["matcher" := Str(".*"),
            "hooks" := Arr([Obj(map["type" := Str("command"), "command" := Str(command)])]),
            OWNERSHIP_MARKER_KEY := MarkerJson(m)])
  }

  function StopEntry(command: string, m: Marker): Json {
    Obj(map["command" := Str(command), OWNERSHIP_MARKER_KEY := MarkerJson(m)])
  }

  /** The common part of both editors: drop the marker's previous entries, append the new one. */
  function Append(config: Config, event: string, entry: Json, m: Marker): Result<Config, HookError> {
    if !HooksOf(config).Obj? then Err(HooksNotAnObject)
    else if !Editable(config, event) then Err(EventNotAList)
    else Ok(WithEntries(config, event, Filter(Entries(config, event), NotReplaced(m)) + [entry]))
  }

  /** _append_owned_command_hook. */
  function WithCommandHook(config: Config, event: string, command: string, m: Marker): Result<Config, HookError> {
    Append(config, event, CommandEntry(command, m), m)
  }

  function WithVersion(config: Config): Config {
    if "version" in config then config else config["version" := Int(1)]
  }

  /** _append_owned_stop_hook. */
  function WithStopHook(config: Config, command: string, m: Marker): Result<Config, HookError> {
    Append(WithVersion(config), "stop", StopEntry(command, m), m)
  }

  // ----- removing -----

  function RemoveFromEvent(dumps: Json -> string, j: Json, m: Marker): Json {
    if j.Arr? then Arr(Filter(j.items, NotOwned(dumps, m))) else j
  }

  function RemoveFromEvents(dumps: Json -> string, hooks: Config, m: Marker): Config {
    map event | event in hooks :: RemoveFromEvent(dumps, hooks[event], m)
  }

  /** _remove_owned_hook_entries. */
  function RemoveOwned(dumps: Json -> string, config: Config, m: Marker): Config {
    if "hooks" !in config || !config["hooks"].Obj? then config
    else config["hooks" := Obj(RemoveFromEvents(dumps, config["hooks"].fields, m))]
  }

  // ----- the same, in place -----

  /** A configuration dictionary that the editors update. */
  class ConfigFile {
    var root: Config

    constructor (root: Config)
      ensures this.root == root
    {
      this.root := root;
    }

    /** The edit shared by both editors: setdefault twice, rewrite the list, append. */
    method AppendEntry(event: string, entry: Json, m: Marker) returns (error: Option<HookError>)
      modifies this
      ensures error.None? ==> Append(old(root), event, entry, m) == Ok(root)
      ensures error.Some? ==> Append(old(root), event, entry, m) == Err(error.value)
    {
      if "hooks" !in root {
        root := root["hooks" := Obj(map[])];
      }
      var hooks := root["hooks"];
      if !hooks.Obj? {
        return Some(HooksNotAnObject);
      }
      var existing := EventOf(hooks.fields, event);
      if !existing.Arr? {
        return Some(EventNotAList);
      }
      var kept: seq<Json> := [];
      ghost var start := root;
      for i := 0 to |existing.items|
        invariant kept == Filter(existing.items[..i], NotReplaced(m)) && root == start
      {
        assert existing.items[..i + 1] == existing.items[..i] + [existing.items[i]];
        FilterSnoc(existing.items[..i], existing.items[i], NotReplaced(m));
        if !Replaced(existing.items[i], m) {
          kept := kept + [existing.items[i]];
        }
      }
      assert existing.items[..|existing.items|] == existing.items;
      var edited := Obj(hooks.fields[event := Arr(kept + [entry])]);
      assert root["hooks" := edited] == old(root)["hooks" := edited] by {
        UpdatedTwice(old(root), "hooks", Obj(map[]), edited);
      }
      root := root["hooks" := edited];
      return None;
    }

    method AppendOwnedCommandHook(event: string, command: string, m: Marker) returns (error: Option<HookError>)
      modifies this
      ensures error.None? ==> WithCommandHook(old(root), event, command, m) == Ok(root)
      ensures error.Some? ==> WithCommandHook(old(root), event, command, m) == Err(error.value)
    {
      error := AppendEntry(event, CommandEntry(command, m), m);
    }

    method AppendOwnedStopHook(command: string, m: Marker) returns (error: Option<HookError>)
      modifies this
      ensures error.None? ==> WithStopHook(old(root), command, m) == Ok(root)
      ensures error.Some? ==> WithStopHook(old(root), command, m) == Err(error.value)
    {
      root := root["version" := if "version" in root then root["version"] else Int(1)];
      assert root == WithVersion(old(root));
      error := AppendEntry("stop", StopEntry(command, m), m);
    }

    method RemoveOwnedHookEntries(dumps: Json -> string, m: Marker)
      modifies this
      ensures root == RemoveOwned(dumps, old(root), m)
    {
      if "hooks" !in root || !root["hooks"].Obj? {
        return;
      }
      var before := root["hooks"].fields;
      var todo := before.Keys;
      while todo != {}
        invariant "hooks" in root && root["hooks"].Obj? && root["hooks"].fields.Keys == before.Keys && todo <= before.Keys
        invariant forall event :: event in before ==>
                    root["hooks"].fields[event] == if event in todo then before[event] else RemoveFromEvent(dumps, before[event], m)
        invariant root - {"hooks"} == old(root) - {"hooks"}
      {
        var event := Pick(todo);
        todo := todo - {event};
        var hooks := root["hooks"].fields;
        if hooks[event].Arr? {
          var kept := KeepUnowned(dumps, hooks[event].items, m);
          root := root["hooks" := Obj(hooks[event := Arr(kept)])];
        }
      }
      assert root["hooks"].fields == RemoveOwned(dumps, old(root), m)["hooks"].fields;
      SameOutside(root, RemoveOwned(dumps, old(root), m), "hooks");
    }
  }

  method Pick<T>(s: set<T>) returns (x: T)
    requires s != {}
    ensures x in s
  {
    x :| x in s;
  }

  method KeepUnowned(dumps: Json -> string, entries: seq<Json>, m: Marker) returns (kept: seq<Json>)
    ensures kept == Filter(entries, NotOwned(dumps, m))
  {
    kept := [];
    for i := 0 to |entries|
      invariant kept == Filter(entries[..i], NotOwned(dumps, m))
    {
      assert entries[..i + 1] == entries[..i] + [entries[i]];
      FilterSnoc(entries[..i], entries[i], NotOwned(dumps, m));
      if !Owned(dumps, entries[i], m) {
        kept := kept + [entries[i]];
      }
    }
    assert entries[..|entries|] == entries;
  }

  lemma SameOutside<K, V>(a: map<K, V>, b: map<K, V>, key: K)
    requires key in a && key in b && a[key] == b[key] && a - {key} == b - {key}
    ensures a == b
  {
    forall k | k in a
      ensures k in b && a[k] == b[k]
    {
      if k != key {
        assert k in a - {key};
      }
    }
    forall k | k in b
      ensures k in a
    {
      if k != key {
        assert k in b - {key};
      }
    }
  }

  lemma UpdatedTwice<K, V>(m: map<K, V>, key: K, v: V, w: V)
    ensures m[key := v][key := w] == m[key := w]
  {
  }

  lemma WithEntriesTwice(config: Config, event: string, first: seq<Json>, second: seq<Json>)
    requires HooksOf(config).Obj?
    ensures WithEntries(WithEntries(config, event, first), event, second) == WithEntries(config, event, second)
  {
    var hooks := HooksOf(config).fields;
    UpdatedTwice(hooks, event, Arr(first), Arr(second));
    UpdatedTwice(config, "hooks", Obj(hooks[event := Arr(first)]), Obj(hooks[event := Arr(second)]));
  }

  lemma AppendToEdited(config: Config, event: string, entries: seq<Json>, entry: Json, m: Marker)
    requires HooksOf(config).Obj?
    ensures Append(WithEntries(config, event, entries), event, entry, m)
         == Ok(WithEntries(config, event, Filter(entries, NotReplaced(m)) + [entry]))
  {
    WithEntriesTwice(config, event, entries, Filter(entries, NotReplaced(m)) + [entry]);
  }

  // ----- the two edits undo each other -----

  lemma ReplacedIsOwned(dumps: Json -> string, entry: Json, m: Marker)
    ensures Replaced(entry, m) ==> Owned(dumps, entry, m)
  {
  }

  /** What both editors append is theirs: a later append replaces it, a removal drops it. */
  lemma OwnEntries(dumps: Json -> string, command: string, m: Marker)
    ensures Replaced(CommandEntry(command, m), m) && Owned(dumps, CommandEntry(command, m), m)
    ensures Replaced(StopEntry(command, m), m) && Owned(dumps, StopEntry(command, m), m)
  {
  }

  /** The configuration with its "hooks" object and event list defaulted, which is all that an
      install and uninstall leave behind. */
  function Defaulted(config: Config, event: string): Config
    requires Editable(config, event)
  {
    WithEntries(config, event, Entries(config, event))
  }

  lemma FilteredTwice(xs: seq<Json>, f: Json -> bool, g: Json -> bool, h: Json -> bool)
    requires forall x :: h(x) == (f(x) && g(x))
    ensures Filter(Filter(xs, f), g) == Filter(xs, h)
  {
    FilterTwice(xs, f, g);
    FilterSame(xs, Both(f, g), h);
  }

  lemma AppendedThenRemoved(dumps: Json -> string, entries: seq<Json>, entry: Json, m: Marker)
    requires Owned(dumps, entry, m)
    ensures Filter(Filter(entries, NotReplaced(m)) + [entry], NotOwned(dumps, m)) == Filter(entries, NotOwned(dumps, m))
  {
    FilterSnoc(Filter(entries, NotReplaced(m)), entry, NotOwned(dumps, m));
    forall x
      ensures NotOwned(dumps, m)(x) == (NotReplaced(m)(x) && NotOwned(dumps, m)(x))
    {
      ReplacedIsOwned(dumps, x, m);
    }
    FilteredTwice(entries, NotReplaced(m), NotOwned(dumps, m), NotOwned(dumps, m));
  }

  lemma RemoveOfWithEntries(dumps: Json -> string, config: Config, event: string, entries: seq<Json>, m: Marker)
    requires HooksOf(config).Obj?
    ensures RemoveOwned(dumps, WithEntries(config, event, entries), m)
         == WithEntries(RemoveOwned(dumps, config, m), event, Filter(entries, NotOwned(dumps, m)))
  {
    var hooks := HooksOf(config).fields;
    var cleaned := Arr(Filter(entries, NotOwned(dumps, m)));
    RemoveOfUpdated(dumps, hooks, event, Arr(entries), m);
    var edited := Obj(RemoveFromEvents(dumps, hooks, m)[event := cleaned]);
    UpdatedTwice(config, "hooks", Obj(hooks[event := Arr(entries)]), edited);
    UpdatedTwice(config, "hooks", Obj(RemoveFromEvents(dumps, hooks, m)), edited);
    assert "hooks" !in config ==> RemoveFromEvents(dumps, hooks, m) == map[];
  }

  lemma RemoveOfUpdated(dumps: Json -> string, hooks: Config, event: string, j: Json, m: Marker)
    ensures RemoveFromEvents(dumps, hooks[event := j], m) == RemoveFromEvents(dumps, hooks, m)[event := RemoveFromEvent(dumps, j, m)]
  {
  }

  /** Removing after appending leaves what removing alone would, whatever the configuration holds. */
  lemma RemoveAfterAppend(dumps: Json -> string, config: Config, event: string, entry: Json, m: Marker)
    requires Owned(dumps, entry, m) && Append(config, event, entry, m).Ok?
    ensures RemoveOwned(dumps, Append(config, event, entry, m).value, m) == RemoveOwned(dumps, Defaulted(config, event), m)
  {
    var entries := Entries(config, event);
    RemoveOfWithEntries(dumps, config, event, Filter(entries, NotReplaced(m)) + [entry], m);
    RemoveOfWithEntries(dumps, config, event, entries, m);
    AppendedThenRemoved(dumps, entries, entry, m);
  }

  /** No hook entry belongs to the installation or mentions its id. */
  predicate Absent(dumps: Json -> string, config: Config, m: Marker) {
    HooksOf(config).Obj? ==>
      forall event :: event in HooksOf(config).fields && HooksOf(config).fields[event].Arr? ==>
        forall i :: 0 <= i < |HooksOf(config).fields[event].items| ==> !Owned(dumps, HooksOf(config).fields[event].items[i], m)
  }

  /** The object names the installation: in its ownership marker, or by its id anywhere in its text. */
  predicate Mentions(dumps: Json -> string, entry: Json, id: string) {
    && entry.Obj?
    && (|| (id != "" && exists i, j :: 0 <= i <= j <= |dumps(entry)| && dumps(entry)[i..j] == id)
        || ("memorymesh_ownership" in entry.fields
            && Member(entry.fields["memorymesh_ownership"], "installation_id") == Some(Str(id))))
  }

  lemma OccursInside(needle: string, text: string)
    ensures Occurs(needle, text) <==> exists i, j :: 0 <= i <= j <= |text| && text[i..j] == needle
  {
    if i :| 0 <= i <= |text| && needle <= text[i..] {
      assert text[i..i + |needle|] == needle;
    }
    if i, j :| 0 <= i <= j <= |text| && text[i..j] == needle {
      assert text[i..][..|needle|] == needle;
    }
  }

  /** What a removal leaves in an event list: the entries that do not name the installation, in their order, and nothing
      else; what is no object stays. */
  lemma RemovedEntries(dumps: Json -> string, config: Config, m: Marker, event: string, entry: Json)
    requires "hooks" in config && config["hooks"].Obj? && event in config["hooks"].fields && config["hooks"].fields[event].Arr?
    ensures var before, after := config["hooks"].fields[event].items, RemoveOwned(dumps, config, m)["hooks"].fields[event];
            && after.Arr? && (exists f :: after.items == Filter(before, f))
            && (entry in after.items <==> entry in before && !Mentions(dumps, entry, m.installation))
  {
    OccursInside(m.installation, dumps(entry));
    var before, after := config["hooks"].fields[event].items, RemoveOwned(dumps, config, m)["hooks"].fields[event];
    assert after.items == Filter(before, NotOwned(dumps, m));
  }

  lemma {:induction false} FilterShorter(xs: seq<Json>, f: Json -> bool)
    ensures |Filter(xs, f)| <= |xs|
    ensures Filter(xs, f) == xs ==> forall i :: 0 <= i < |xs| ==> f(xs[i])
  {
  }

  lemma EventUnchangedExactly(dumps: Json -> string, j: Json, m: Marker)
    ensures RemoveFromEvent(dumps, j, m) == j <==> (j.Arr? ==> forall i :: 0 <= i < |j.items| ==> !Owned(dumps, j.items[i], m))
  {
    if j.Arr? {
      FilterShorter(j.items, NotOwned(dumps, m));
      if forall i :: 0 <= i < |j.items| ==> !Owned(dumps, j.items[i], m) {
        FilterAll(j.items, NotOwned(dumps, m));
      }
    }
  }

  /** Removal changes nothing exactly where the installation is absent. */
  lemma RemoveChangesNothingExactly(dumps: Json -> string, config: Config, m: Marker)
    ensures RemoveOwned(dumps, config, m) == config <==> Absent(dumps, config, m)
  {
    if "hooks" in config && config["hooks"].Obj? {
      var hooks := config["hooks"].fields;
      forall event | event in hooks
        ensures RemoveFromEvent(dumps, hooks[event], m) == hooks[event]
           <==> (hooks[event].Arr? ==> forall i :: 0 <= i < |hooks[event].items| ==> !Owned(dumps, hooks[event].items[i], m))
      {
        EventUnchangedExactly(dumps, hooks[event], m);
      }
      var after := RemoveOwned(dumps, config, m);
      if after == config {
        assert after["hooks"].fields == hooks;
        assert forall event :: event in hooks ==> after["hooks"].fields[event] == hooks[event];
      }
      if Absent(dumps, config, m) {
        assert HooksOf(config).fields == hooks;
        forall event | event in hooks
          ensures RemoveFromEvent(dumps, hooks[event], m) == hooks[event]
        {
          EventUnchangedExactly(dumps, hooks[event], m);
        }
        assert after["hooks"].fields == hooks;
        assert after == config;
      }
    }
  }

  /** An uninstalled installation leaves the configuration it found, up to defaulted keys, exactly
      when its id did not already occur there. */
  lemma UndoExactly(dumps: Json -> string, config: Config, event: string, entry: Json, m: Marker)
    requires Owned(dumps, entry, m) && Append(config, event, entry, m).Ok?
    ensures RemoveOwned(dumps, Append(config, event, entry, m).value, m) == Defaulted(config, event) <==> Absent(dumps, config, m)
  {
    RemoveAfterAppend(dumps, config, event, entry, m);
    RemoveChangesNothingExactly(dumps, Defaulted(config, event), m);
    AbsentInDefaulted(dumps, config, event, m);
  }

  lemma AbsentInDefaulted(dumps: Json -> string, config: Config, event: string, m: Marker)
    requires Editable(config, event)
    ensures Absent(dumps, Defaulted(config, event), m) <==> Absent(dumps, config, m)
  {
    var a, b := HooksOf(config).fields, HooksOf(Defaulted(config, event)).fields;
    assert forall e :: e in a ==> e in b && b[e] == a[e];
    assert forall e :: e in b && e !in a ==> b[e] == Arr([]);
  }

  /** Appending again under the same marker changes nothing. */
  lemma AppendTwice(config: Config, event: string, entry: Json, m: Marker)
    requires Replaced(entry, m) && Append(config, event, entry, m).Ok?
    ensures Append(Append(config, event, entry, m).value, event, entry, m) == Append(config, event, entry, m)
  {
    var kept := Filter(Entries(config, event), NotReplaced(m));
    AppendToEdited(config, event, kept + [entry], entry, m);
    assert Filter(kept + [entry], NotReplaced(m)) == kept by {
      FilterSnoc(kept, entry, NotReplaced(m));
      FilterAll(kept, NotReplaced(m));
    }
  }

  /** Another installation's entry survives a removal, in its place: removing one and appending the
      other commute. */
  lemma RemoveCommutesWithAppend(dumps: Json -> string, config: Config, event: string, entry: Json, mine: Marker, other: Marker)
    requires Append(config, event, entry, other).Ok? && !Owned(dumps, entry, mine)
    ensures Append(RemoveOwned(dumps, config, mine), event, entry, other)
         == Ok(RemoveOwned(dumps, Append(config, event, entry, other).value, mine))
  {
    var entries := Entries(config, event);
    var removed := RemoveOwned(dumps, config, mine);
    assert Entries(removed, event) == Filter(entries, NotOwned(dumps, mine)) by {
      assert Filter([], NotOwned(dumps, mine)) == [];
    }
    RemoveOfWithEntries(dumps, config, event, Filter(entries, NotReplaced(other)) + [entry], mine);
    FilterSnoc(Filter(entries, NotReplaced(other)), entry, NotOwned(dumps, mine));
    FilterTwice(entries, NotReplaced(other), NotOwned(dumps, mine));
    FilterTwice(entries, NotOwned(dumps, mine), NotReplaced(other));
    FilterSame(entries, Both(NotReplaced(other), NotOwned(dumps, mine)), Both(NotOwned(dumps, mine), NotReplaced(other)));
  }

  /** Two installations may append in either order: the entries that were there stay in front, in
      their order, and only the two new ones trade places. */
  lemma AppendsCommute(config: Config, event: string, a: Json, b: Json, ma: Marker, mb: Marker)
    requires Append(config, event, a, ma).Ok? && !Replaced(a, mb) && !Replaced(b, ma)
    ensures Append(config, event, b, mb).Ok?
    ensures var kept := Filter(Entries(config, event), Both(NotReplaced(ma), NotReplaced(mb)));
            && Append(Append(config, event, a, ma).value, event, b, mb) == Ok(WithEntries(config, event, kept + [a, b]))
            && Append(Append(config, event, b, mb).value, event, a, ma) == Ok(WithEntries(config, event, kept + [b, a]))
  {
    AppendedInTurn(config, event, a, b, ma, mb);
    AppendedInTurn(config, event, b, a, mb, ma);
    FilterSame(Entries(config, event), Both(NotReplaced(ma), NotReplaced(mb)), Both(NotReplaced(mb), NotReplaced(ma)));
  }

  lemma AppendedInTurn(config: Config, event: string, a: Json, b: Json, ma: Marker, mb: Marker)
    requires Append(config, event, a, ma).Ok? && !Replaced(a, mb)
    ensures Append(Append(config, event, a, ma).value, event, b, mb)
         == Ok(WithEntries(config, event, Filter(Entries(config, event), Both(NotReplaced(ma), NotReplaced(mb))) + [a, b]))
  {
    var kept := Filter(Entries(config, event), NotReplaced(ma));
    AppendToEdited(config, event, kept + [a], b, mb);
    FilterSnoc(kept, a, NotReplaced(mb));
    FilterTwice(Entries(config, event), NotReplaced(ma), NotReplaced(mb));
    var both := Filter(Entries(config, event), Both(NotReplaced(ma), NotReplaced(mb)));
    assert both + [a] + [b] == both + [a, b];
  }

  /** Nothing but the marker's own entries of one event changes. */
  lemma AppendTouchesOnlyItsEntries(config: Config, event: string, entry: Json, m: Marker)
    requires Replaced(entry, m) && Append(config, event, entry, m).Ok?
    ensures var after := Append(config, event, entry, m).value;
            && after - {"hooks"} == config - {"hooks"}
            && HooksOf(after).fields - {event} == HooksOf(config).fields - {event}
            && Filter(Entries(after, event), NotReplaced(m)) == Filter(Entries(config, event), NotReplaced(m))
  {
    var entries := Entries(config, event);
    FilterSnoc(Filter(entries, NotReplaced(m)), entry, NotReplaced(m));
    FilteredTwice(entries, NotReplaced(m), NotReplaced(m), NotReplaced(m));
  }
}
