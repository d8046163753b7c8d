/**
 * Plugin loading for a session: each configured plugin becomes a
 * `LoadedPlugin` record after a short-circuiting validation chain (enabled,
 * root is a directory, manifest present and valid); active plugins
 * contribute skill roots and MCP server definitions, which are merged; and a
 * manager caches the outcome per working directory.
 *
 * The filesystem is a value: a set of directories and a map from file paths
 * to their contents, already parsed as JSON (`None` for a file that cannot be
 * read or is not JSON). Whether a JSON object deserialises into an MCP server
 * configuration is decided by the parameter `parses`.
 */
module Plugins {
  import opened Wrappers
  import opened Orders
  import opened Text
  import opened Paths

  const PluginManifestPath: seq<string> := [".codex-plugin", "plugin.json"]
  const DefaultSkillsDirName: string := "skills"
  const DefaultMcpConfigFile: string := ".mcp.json"

  const NotADirectoryError: string := "path does not exist or is not a directory"
  const MissingManifestError: string := "missing or invalid .codex-plugin/plugin.json"

  datatype Json =
    | JNull
    | JBool(b: bool)
    | JNumber(n: int)
    | JString(str: string)
    | JArray(elems: seq<Json>)
    | JObject(fields: map<string, Json>)

  datatype FileSystem = FileSystem(dirs: set<Path>, files: map<Path, Option<Json>>)

  /** One `[plugins.<name>]` entry of the effective configuration. */
  datatype PluginConfig = PluginConfig(path: Path, enabled: bool)

  /** The configuration as far as plugins are concerned: the feature flag and the configured plugins. */
  datatype LayerStack = LayerStack(pluginsFeatureEnabled: bool, plugins: map<string, PluginConfig>)

  datatype PluginManifest = PluginManifest(name: string)

  /** A server definition that deserialised; it is the normalised JSON object it came from. */
  datatype McpServerConfig = McpServerConfig(settings: map<string, Json>)

  datatype LoadedPlugin = LoadedPlugin(
    configName: string,
    manifestName: Option<string>,
    root: Path,
    enabled: bool,
    skillRoots: seq<Path>,
    mcpServers: map<string, McpServerConfig>,
    error: Option<string>)

  datatype PluginLoadOutcome = PluginLoadOutcome(plugins: seq<LoadedPlugin>)

  /** A plugin contributes skill roots and servers exactly when it is enabled and loaded without error. */
  function IsActive(plugin: LoadedPlugin): (active: bool)
    ensures active <==> plugin.enabled && plugin.error.None?
  {
    plugin.enabled && plugin.error.None?
  }

  // ---------------------------------------------------------------------
  // Merging the contributions of a load outcome

  /** The skill roots of the active plugins, in plugin order (the filter and flat_map). */
  function ActiveSkillRoots(plugins: seq<LoadedPlugin>): (roots: seq<Path>)
    ensures forall r :: r in roots <==>
      exists i :: 0 <= i < |plugins| && IsActive(plugins[i]) && r in plugins[i].skillRoots
  {
    if plugins == [] then []
    else
      var rest := ActiveSkillRoots(plugins[1..]);
      assert forall i :: 1 <= i < |plugins| ==> plugins[1..][i - 1] == plugins[i];
      (if IsActive(plugins[0]) then plugins[0].skillRoots else []) + rest
  }

  /**
   * `effective_skill_roots`: the skill roots of exactly the active plugins,
   * sorted and without duplicates.
   */
  method EffectiveSkillRoots(outcome: PluginLoadOutcome) returns (roots: seq<Path>)
    ensures StrictlyAscending(roots, PathLess)
    ensures forall r :: r in roots <==>
      exists i :: 0 <= i < |outcome.plugins| && outcome.plugins[i].enabled && outcome.plugins[i].error.None?
        && r in outcome.plugins[i].skillRoots
  {
    PathLessIsStrictTotalOrder();
    var collected := ActiveSkillRoots(outcome.plugins);
    roots := [];
    for i := 0 to |collected|
      invariant StrictlyAscending(roots, PathLess)
      invariant forall r :: r in roots <==> r in collected[..i]
    {
      assert collected[..i + 1] == collected[..i] + [collected[i]];
      roots := Insert(roots, collected[i], PathLess);
    }
    assert collected[..|collected|] == collected;
  }

  /** Some active plugin before index `bound` defines server `name`. */
  ghost predicate DefinedBefore(plugins: seq<LoadedPlugin>, name: string, bound: int) {
    exists k :: 0 <= k < bound && k < |plugins| && IsActive(plugins[k]) && name in plugins[k].mcpServers
  }

  /** Plugin `k` is the first active plugin that defines server `name`. */
  ghost predicate FirstDefiner(plugins: seq<LoadedPlugin>, name: string, k: int) {
    && 0 <= k < |plugins|
    && IsActive(plugins[k])
    && name in plugins[k].mcpServers
    && !DefinedBefore(plugins, name, k)
  }

  /**
   * The `entry(..).or_insert_with(..)` loop: every entry of `from` whose name
   * `into` lacks is added and the entries of `into` are kept, that is
   * `from + into`, where the right operand wins.
   */
  method InsertAbsent(into: map<string, McpServerConfig>, from: map<string, McpServerConfig>)
    returns (merged: map<string, McpServerConfig>)
    ensures merged == from + into
  {
    merged := into;
    var pending := from.Keys;
    while pending != {}
      invariant pending <= from.Keys
      invariant merged == (from - pending) + into
      decreases pending
    {
      var name :| name in pending;
      if name !in merged {
        merged := merged[name := from[name]];
      }
      pending := pending - {name};
    }
    assert from - {} == from;
  }

  /** The servers of the active plugins among the first `bound`, an earlier definition winning. */
  ghost function FirstDefinitions(plugins: seq<LoadedPlugin>, bound: nat): map<string, McpServerConfig>
    requires bound <= |plugins|
  {
    if bound == 0 then map[]
    else
      var contributed := if IsActive(plugins[bound - 1]) then plugins[bound - 1].mcpServers else map[];
      contributed + FirstDefinitions(plugins, bound - 1)
  }

  /**
   * The merge keeps exactly the server names some active plugin defines,
   * each with the definition of the first active plugin that has it.
   */
  lemma {:induction false} FirstDefinitionsAreFirst(plugins: seq<LoadedPlugin>, bound: nat)
    requires bound <= |plugins|
    ensures forall name :: name in FirstDefinitions(plugins, bound) <==> DefinedBefore(plugins, name, bound)
    ensures forall name :: name in FirstDefinitions(plugins, bound) ==>
      exists k :: FirstDefiner(plugins, name, k) && FirstDefinitions(plugins, bound)[name] == plugins[k].mcpServers[name]
  {
    if bound > 0 {
      FirstDefinitionsAreFirst(plugins, bound - 1);
      var prev := FirstDefinitions(plugins, bound - 1);
      var cur := FirstDefinitions(plugins, bound);
      assert forall name :: DefinedBefore(plugins, name, bound) <==>
        DefinedBefore(plugins, name, bound - 1) || (IsActive(plugins[bound - 1]) && name in plugins[bound - 1].mcpServers);
      forall name | name in cur
        ensures exists k :: FirstDefiner(plugins, name, k) && cur[name] == plugins[k].mcpServers[name]
      {
        if name !in prev {
          assert FirstDefiner(plugins, name, bound - 1);
        }
      }
    }
  }

  /**
   * `effective_mcp_servers`: every server name of an active plugin, mapped
   * to the definition of the first active plugin, in list order, that has it.
   */
  method EffectiveMcpServers(outcome: PluginLoadOutcome) returns (servers: map<string, McpServerConfig>)
    ensures forall name :: name in servers <==> DefinedBefore(outcome.plugins, name, |outcome.plugins|)
    ensures forall name :: name in servers ==>
      exists k :: FirstDefiner(outcome.plugins, name, k) && servers[name] == outcome.plugins[k].mcpServers[name]
  {
    var plugins := outcome.plugins;
    servers := map[];
    for i := 0 to |plugins|
      invariant servers == FirstDefinitions(plugins, i)
    {
      if IsActive(plugins[i]) {
        servers := InsertAbsent(servers, plugins[i].mcpServers);
      }
    }
    FirstDefinitionsAreFirst(plugins, |plugins|);
  }

  // ---------------------------------------------------------------------
  // Reading a plugin directory

  /**
   * `PluginManifest` deserialised from JSON: an object whose `name` is a
   * string (other members are ignored), or the derived sequence form, an
   * array holding exactly the name.
   */
  function ParseManifest(json: Json): (r: Option<PluginManifest>)
    ensures r.Some? <==>
      || (json.JObject? && "name" in json.fields && json.fields["name"].JString?)
      || (json.JArray? && |json.elems| == 1 && json.elems[0].JString?)
    ensures r.Some? && json.JObject? ==> r.value.name == json.fields["name"].str
    ensures r.Some? && json.JArray? ==> r.value.name == json.elems[0].str
  {
    match json
    case JObject(fields) =>
      if "name" in fields && fields["name"].JString? then Some(PluginManifest(fields["name"].str)) else None
    case JArray(elems) =>
      if |elems| == 1 && elems[0].JString? then Some(PluginManifest(elems[0].str)) else None
    case _ => None
  }

  /** `load_plugin_manifest`: the manifest file must exist, be readable JSON and deserialise. */
  function LoadPluginManifest(fs: FileSystem, root: Path): (r: Option<PluginManifest>)
    ensures r.Some? <==>
      var manifestPath := Join(root, PluginManifestPath);
      manifestPath in fs.files && fs.files[manifestPath].Some? && ParseManifest(fs.files[manifestPath].value).Some?
  {
    var manifestPath := Join(root, PluginManifestPath);
    if manifestPath !in fs.files then None
    else
      match fs.files[manifestPath]
      case None => None
      case Some(json) => ParseManifest(json)
  }

  /**
   * `plugin_manifest_name`: the manifest's name, unless it is blank after
   * trimming and the root has a file name, in which case the root's file name.
   */
  function PluginManifestName(manifest: PluginManifest, root: Path): (name: string)
    ensures !IsBlank(manifest.name) ==> name == manifest.name
    ensures IsBlank(manifest.name) && FileName(root).Some? ==> name == FileName(root).value
    ensures IsBlank(manifest.name) && FileName(root).None? ==> name == manifest.name
    ensures IsBlank(name) ==> FileName(root).None? || IsBlank(FileName(root).value)
  {
    TrimEmptyIffBlank(manifest.name);
    match FileName(root)
    case Some(fileName) => if Trim(manifest.name) == [] then fileName else manifest.name
    case None => manifest.name
  }

  /** `default_skill_roots`: `<root>/skills` when that is a directory. */
  function DefaultSkillRoots(fs: FileSystem, root: Path): (roots: seq<Path>)
    ensures forall r :: r in roots <==> r == Join(root, [DefaultSkillsDirName]) && r in fs.dirs
    ensures |roots| <= 1
  {
    var skillsDir := Join(root, [DefaultSkillsDirName]);
    if skillsDir in fs.dirs then [skillsDir] else []
  }

  /** `default_mcp_config_paths`: `<root>/.mcp.json` when that is a file (sorting one path changes nothing). */
  function DefaultMcpConfigPaths(fs: FileSystem, root: Path): (paths: seq<Path>)
    ensures forall p :: p in paths <==> p == Join(root, [DefaultMcpConfigFile]) && p in fs.files
    ensures |paths| <= 1
  {
    var defaultPath := Join(root, [DefaultMcpConfigFile]);
    if defaultPath in fs.files then [defaultPath] else []
  }

  /**
   * `PluginMcpFile` deserialised: a JSON object whose optional `mcpServers`
   * member is an object, or the derived sequence form, an array that is
   * empty (no servers) or holds exactly the servers object.
   */
  function ParseMcpFile(json: Json): (r: Option<map<string, Json>>)
    ensures r.Some? <==>
      || (json.JObject? && ("mcpServers" in json.fields ==> json.fields["mcpServers"].JObject?))
      || (json.JArray? && (json.elems == [] || (|json.elems| == 1 && json.elems[0].JObject?)))
    ensures r.Some? && json.JObject? && "mcpServers" !in json.fields ==> r.value == map[]
    ensures r.Some? && json.JObject? && "mcpServers" in json.fields ==> r.value == json.fields["mcpServers"].fields
    ensures r.Some? && json.JArray? && json.elems == [] ==> r.value == map[]
    ensures r.Some? && json.JArray? && json.elems != [] ==> r.value == json.elems[0].fields
  {
    match json
    case JObject(fields) =>
      if "mcpServers" !in fields then Some(map[])
      else if fields["mcpServers"].JObject? then Some(fields["mcpServers"].fields)
      else None
    case JArray(elems) =>
      if elems == [] then Some(map[])
      else if |elems| == 1 && elems[0].JObject? then Some(elems[0].fields)
      else None
    case _ => None
  }

  /**
   * `normalize_plugin_mcp_server_value`: a non-object becomes the empty
   * object; otherwise `type` and `oauth` are dropped and a relative string
   * `cwd` is rebased onto the plugin root; every other member is kept.
   */
  function NormalizePluginMcpServerValue(root: Path, value: Json): (normalized: map<string, Json>)
    ensures !value.JObject? ==> normalized == map[]
    ensures "type" !in normalized && "oauth" !in normalized
    ensures value.JObject? ==> normalized.Keys == value.fields.Keys - {"type", "oauth"}
    ensures value.JObject? ==> forall key :: key in normalized && key != "cwd" ==> normalized[key] == value.fields[key]
    ensures value.JObject? && "cwd" in value.fields && value.fields["cwd"].JString?
        && !IsAbsoluteStr(value.fields["cwd"].str)
      ==> normalized["cwd"] == JString(PushStr(Display(root), value.fields["cwd"].str))
    ensures value.JObject? && "cwd" in value.fields
        && !(value.fields["cwd"].JString? && !IsAbsoluteStr(value.fields["cwd"].str))
      ==> normalized["cwd"] == value.fields["cwd"]
  {
    match value
    case JObject(fields) =>
      var kept := fields - {"type", "oauth"};
      if "cwd" in kept && kept["cwd"].JString? && !IsAbsoluteStr(kept["cwd"].str) then
        kept["cwd" := JString(PushStr(Display(root), kept["cwd"].str))]
      else
        kept
    case _ => map[]
  }

  /** The servers of one MCP file whose normalised definitions deserialise, stored normalised. */
  ghost function AcceptedServers(root: Path, servers: map<string, Json>, parses: map<string, Json> -> bool)
    : map<string, McpServerConfig>
  {
    map name | name in servers && parses(NormalizePluginMcpServerValue(root, servers[name]))
      :: McpServerConfig(NormalizePluginMcpServerValue(root, servers[name]))
  }

  /**
   * `normalize_plugin_mcp_servers`: keeps a server exactly when its
   * normalised definition deserialises, and keeps it normalised.
   */
  method NormalizePluginMcpServers(root: Path, servers: map<string, Json>, parses: map<string, Json> -> bool)
    returns (accepted: map<string, McpServerConfig>)
    ensures forall name :: name in accepted <==>
      name in servers && parses(NormalizePluginMcpServerValue(root, servers[name]))
    ensures forall name :: name in accepted ==>
      accepted[name] == McpServerConfig(NormalizePluginMcpServerValue(root, servers[name]))
    ensures accepted == AcceptedServers(root, servers, parses)
  {
    accepted := map[];
    var pending := servers.Keys;
    while pending != {}
      invariant pending <= servers.Keys
      invariant forall name :: name in accepted <==>
        name in servers && name !in pending && parses(NormalizePluginMcpServerValue(root, servers[name]))
      invariant forall name :: name in accepted ==>
        accepted[name] == McpServerConfig(NormalizePluginMcpServerValue(root, servers[name]))
      decreases pending
    {
      var name :| name in pending;
      var normalized := NormalizePluginMcpServerValue(root, servers[name]);
      if parses(normalized) {
        accepted := accepted[name := McpServerConfig(normalized)];
      }
      pending := pending - {name};
    }
  }

  /** What one MCP config file contributes; an unreadable or malformed file contributes nothing. */
  ghost function ServersInFile(fs: FileSystem, root: Path, path: Path, parses: map<string, Json> -> bool)
    : map<string, McpServerConfig>
  {
    if path !in fs.files || fs.files[path].None? then map[]
    else
      match ParseMcpFile(fs.files[path].value)
      case None => map[]
      case Some(servers) => AcceptedServers(root, servers, parses)
  }

  /** `load_mcp_servers_from_file`. */
  method LoadMcpServersFromFile(fs: FileSystem, root: Path, path: Path, parses: map<string, Json> -> bool)
    returns (servers: map<string, McpServerConfig>)
    ensures servers == ServersInFile(fs, root, path, parses)
    ensures (path !in fs.files || fs.files[path].None? || ParseMcpFile(fs.files[path].value).None?) ==> servers == map[]
  {
    if path !in fs.files || fs.files[path].None? {
      return map[];
    }
    var parsed := ParseMcpFile(fs.files[path].value);
    if parsed.None? {
      return map[];
    }
    servers := NormalizePluginMcpServers(root, parsed.value, parses);
  }

  /** The servers of several MCP config files; a later file overwrites an earlier definition. */
  ghost function ServersFromFiles(fs: FileSystem, root: Path, paths: seq<Path>, parses: map<string, Json> -> bool)
    : map<string, McpServerConfig>
  {
    if paths == [] then map[]
    else ServersFromFiles(fs, root, paths[..|paths| - 1], parses) + ServersInFile(fs, root, paths[|paths| - 1], parses)
  }

  /** Inserts every entry of `from` into `into`, overwriting an entry of the same name (the source warns). */
  method InsertAll(into: map<string, McpServerConfig>, from: map<string, McpServerConfig>)
    returns (merged: map<string, McpServerConfig>)
    ensures merged.Keys == into.Keys + from.Keys
    ensures forall name :: name in from ==> merged[name] == from[name]
    ensures forall name :: name in into && name !in from ==> merged[name] == into[name]
  {
    merged := into;
    var pending := from.Keys;
    while pending != {}
      invariant pending <= from.Keys
      invariant merged == into + (from - pending)
      decreases pending
    {
      var name :| name in pending;
      merged := merged[name := from[name]];
      pending := pending - {name};
    }
    assert from - {} == from;
  }

  /** The loop of `load_plugin` over the MCP config files, in order. */
  method LoadMcpServersFromFiles(fs: FileSystem, root: Path, paths: seq<Path>, parses: map<string, Json> -> bool)
    returns (servers: map<string, McpServerConfig>)
    ensures servers == ServersFromFiles(fs, root, paths, parses)
  {
    servers := map[];
    for i := 0 to |paths|
      invariant servers == ServersFromFiles(fs, root, paths[..i], parses)
    {
      var fromFile := LoadMcpServersFromFile(fs, root, paths[i], parses);
      servers := InsertAll(servers, fromFile);
      assert paths[..i + 1][..i] == paths[..i];
    }
    assert paths[..|paths|] == paths;
  }

  ghost predicate NoContributions(plugin: LoadedPlugin) {
    plugin.manifestName.None? && plugin.skillRoots == [] && plugin.mcpServers == map[]
  }

  /** The outcome `load_plugin` gives for configuration entry `configName`. */
  ghost predicate LoadedFrom(configName: string, config: PluginConfig, fs: FileSystem,
                             parses: map<string, Json> -> bool, plugin: LoadedPlugin)
  {
    && plugin.configName == configName
    && plugin.root == config.path
    && plugin.enabled == config.enabled
    && if !config.enabled then
         NoContributions(plugin) && plugin.error.None?
       else if config.path !in fs.dirs then
         NoContributions(plugin) && plugin.error == Some(NotADirectoryError)
       else
         match LoadPluginManifest(fs, config.path)
         case None =>
           NoContributions(plugin) && plugin.error == Some(MissingManifestError)
         case Some(manifest) =>
           && plugin.error.None?
           && plugin.manifestName == Some(PluginManifestName(manifest, config.path))
           && plugin.skillRoots == DefaultSkillRoots(fs, config.path)
           && plugin.mcpServers == ServersFromFiles(fs, config.path, DefaultMcpConfigPaths(fs, config.path), parses)
  }

  /**
   * `load_plugin`: a disabled plugin is kept without contributions or error;
   * an enabled one fails with the matching message when its root is not a
   * directory or its manifest is missing or invalid, and otherwise takes its
   * name, skill roots and MCP servers from the plugin directory.
   */
  method LoadPlugin(configName: string, config: PluginConfig, fs: FileSystem, parses: map<string, Json> -> bool)
    returns (loaded: LoadedPlugin)
    ensures LoadedFrom(configName, config, fs, parses, loaded)
    ensures IsActive(loaded) <==> config.enabled && config.path in fs.dirs && LoadPluginManifest(fs, config.path).Some?
    ensures loaded.error.Some? ==> NoContributions(loaded)
  {
    var root := config.path;
    loaded := LoadedPlugin(configName, None, root, config.enabled, [], map[], None);
    if !config.enabled {
      return;
    }
    if root !in fs.dirs {
      loaded := loaded.(error := Some(NotADirectoryError));
      return;
    }
    var manifest := LoadPluginManifest(fs, root);
    if manifest.None? {
      loaded := loaded.(error := Some(MissingManifestError));
      return;
    }
    loaded := loaded.(manifestName := Some(PluginManifestName(manifest.value, root)));
    loaded := loaded.(skillRoots := DefaultSkillRoots(fs, root));
    var mcpServers := LoadMcpServersFromFiles(fs, root, DefaultMcpConfigPaths(fs, root), parses);
    loaded := loaded.(mcpServers := mcpServers);
  }

  // ---------------------------------------------------------------------
  // Loading every configured plugin

  function ConfigNames(plugins: seq<LoadedPlugin>): (names: seq<string>)
    ensures |names| == |plugins| && forall i :: 0 <= i < |plugins| ==> names[i] == plugins[i].configName
  {
    seq(|plugins|, i requires 0 <= i < |plugins| => plugins[i].configName)
  }

  /**
   * The outcome of `load_plugins_from_layer_stack`: one record per
   * configured entry, in ascending order of configuration name.
   */
  ghost predicate LoadedOutcome(configured: map<string, PluginConfig>, fs: FileSystem,
                                parses: map<string, Json> -> bool, outcome: PluginLoadOutcome)
  {
    && StrictlyAscending(ConfigNames(outcome.plugins), StrLess)
    && (forall name :: name in ConfigNames(outcome.plugins) <==> name in configured)
    && forall i :: 0 <= i < |outcome.plugins| ==>
         outcome.plugins[i].configName in configured
         && LoadedFrom(outcome.plugins[i].configName, configured[outcome.plugins[i].configName], fs, parses, outcome.plugins[i])
  }

  /** The configured names, collected and sorted. */
  method SortedConfigNames(configured: map<string, PluginConfig>) returns (names: seq<string>)
    ensures StrictlyAscending(names, StrLess)
    ensures forall name :: name in names <==> name in configured
  {
    StrLessIsStrictTotalOrder();
    names := [];
    var rest := configured.Keys;
    while rest != {}
      invariant rest <= configured.Keys
      invariant StrictlyAscending(names, StrLess)
      invariant forall name :: name in names <==> name in configured && name !in rest
      decreases rest
    {
      var name :| name in rest;
      names := Insert(names, name, StrLess);
      rest := rest - {name};
    }
  }

  /**
   * `load_plugins_from_layer_stack`: loads every configured plugin in
   * ascending name order. An MCP server name defined by several plugins is
   * only noted (the source warns); every record keeps its own servers.
   * The map of seen names feeds only that warning, so no contract mentions it.
   */
  method LoadPluginsFromLayerStack(configured: map<string, PluginConfig>, fs: FileSystem,
                                   parses: map<string, Json> -> bool)
    returns (outcome: PluginLoadOutcome)
    ensures LoadedOutcome(configured, fs, parses, outcome)
  {
    var names := SortedConfigNames(configured);
    var plugins: seq<LoadedPlugin> := [];
    var seenMcpServerNames: map<string, string> := map[];
    for i := 0 to |names|
      invariant |plugins| == i
      invariant forall k :: 0 <= k < i ==> plugins[k].configName == names[k]
      invariant forall k :: 0 <= k < i ==> LoadedFrom(names[k], configured[names[k]], fs, parses, plugins[k])
      invariant forall k, name :: 0 <= k < i && name in plugins[k].mcpServers ==> name in seenMcpServerNames
    {
      assert names[i] in names;
      var loaded := LoadPlugin(names[i], configured[names[i]], fs, parses);
      var pending := loaded.mcpServers.Keys;
      while pending != {}
        invariant pending <= loaded.mcpServers.Keys
        invariant forall k, name :: 0 <= k < i && name in plugins[k].mcpServers ==> name in seenMcpServerNames
        invariant forall name :: name in loaded.mcpServers && name !in pending ==> name in seenMcpServerNames
        decreases pending
      {
        var name :| name in pending;
        // A name already present belongs to an earlier plugin: the source only warns.
        seenMcpServerNames := seenMcpServerNames[name := names[i]];
        pending := pending - {name};
      }
      plugins := plugins + [loaded];
    }
    outcome := PluginLoadOutcome(plugins);
    assert ConfigNames(plugins) == names;
  }

  /**
   * The configuration and the filesystem determine the load outcome: two
   * loads of the same configuration over the same filesystem agree, so a
   * cached outcome equals a fresh load as long as neither has changed.
   */
  lemma {:induction false} LoadedOutcomeUnique(configured: map<string, PluginConfig>, fs: FileSystem,
                                               parses: map<string, Json> -> bool, a: PluginLoadOutcome, b: PluginLoadOutcome)
    requires LoadedOutcome(configured, fs, parses, a) && LoadedOutcome(configured, fs, parses, b)
    ensures a == b
  {
    StrLessIsStrictTotalOrder();
    var na, nb := ConfigNames(a.plugins), ConfigNames(b.plugins);
    StrictlyAscendingUnique(na, nb, StrLess);
    forall i | 0 <= i < |a.plugins| ensures a.plugins[i] == b.plugins[i] {
      assert na[i] == nb[i];
    }
  }

  /** Ancestor `k` of `path` has a manifest and no nearer ancestor does (`Ancestor(path, |path.names|)` is the path itself). */
  ghost predicate NearestManifestAncestor(fs: FileSystem, path: Path, k: int) {
    && 0 <= k <= |path.names|
    && LoadPluginManifest(fs, Ancestor(path, k)).Some?
    && forall j :: k < j <= |path.names| ==> LoadPluginManifest(fs, Ancestor(path, j)).None?
  }

  /**
   * `plugin_namespace_for_skill_path`: the manifest name of the nearest
   * ancestor of `path`, the path itself first, that has a manifest.
   */
  method PluginNamespaceForSkillPath(fs: FileSystem, path: Path) returns (namespace: Option<string>)
    ensures namespace.None? <==> forall k :: 0 <= k <= |path.names| ==> LoadPluginManifest(fs, Ancestor(path, k)).None?
    ensures namespace.Some? ==> exists k :: (NearestManifestAncestor(fs, path, k)
      && namespace.value == PluginManifestName(LoadPluginManifest(fs, Ancestor(path, k)).value, Ancestor(path, k)))
  {
    var k := |path.names|;
    while true
      invariant 0 <= k <= |path.names|
      invariant forall j :: k < j <= |path.names| ==> LoadPluginManifest(fs, Ancestor(path, j)).None?
      decreases k
    {
      var ancestor := Ancestor(path, k);
      var manifest := LoadPluginManifest(fs, ancestor);
      if manifest.Some? {
        assert NearestManifestAncestor(fs, path, k);
        return Some(PluginManifestName(manifest.value, ancestor));
      }
      if k == 0 {
        return None;
      }
      k := k - 1;
    }
  }

  /** The outcome when the plugins feature is off. */
  const EmptyOutcome: PluginLoadOutcome := PluginLoadOutcome([])

  /** `PluginsManager`: load outcomes cached per working directory. */
  class PluginsManager {
    var cacheByCwd: map<Path, PluginLoadOutcome>

    constructor ()
      ensures cacheByCwd == map[]
    {
      cacheByCwd := map[];
    }

    /** `cached_outcome_for_cwd`. */
    function CachedOutcomeForCwd(cwd: Path): (cached: Option<PluginLoadOutcome>)
      reads this
      ensures cached.Some? <==> cwd in cacheByCwd
      ensures cached.Some? ==> cached.value == cacheByCwd[cwd]
    {
      if cwd in cacheByCwd then Some(cacheByCwd[cwd]) else None
    }

    /**
     * `plugins_for_layer_stack`: with the feature off, the empty outcome,
     * which is also cached for `cwd`; without `forceReload` and with a cached
     * outcome for `cwd`, that outcome; otherwise a fresh load, cached for `cwd`.
     */
    method PluginsForLayerStack(cwd: Path, stack: LayerStack, forceReload: bool, fs: FileSystem,
                                parses: map<string, Json> -> bool)
      returns (outcome: PluginLoadOutcome)
      modifies this
      ensures !stack.pluginsFeatureEnabled ==>
        outcome == EmptyOutcome && cacheByCwd == old(cacheByCwd)[cwd := EmptyOutcome]
      ensures stack.pluginsFeatureEnabled && !forceReload && cwd in old(cacheByCwd) ==>
        outcome == old(cacheByCwd)[cwd] && cacheByCwd == old(cacheByCwd)
      ensures stack.pluginsFeatureEnabled && (forceReload || cwd !in old(cacheByCwd)) ==>
        LoadedOutcome(stack.plugins, fs, parses, outcome) && cacheByCwd == old(cacheByCwd)[cwd := outcome]
    {
      if !stack.pluginsFeatureEnabled {
        cacheByCwd := cacheByCwd[cwd := EmptyOutcome];
        return EmptyOutcome;
      }
      if !forceReload {
        var cached := CachedOutcomeForCwd(cwd);
        if cached.Some? {
          return cached.value;
        }
      }
      outcome := LoadPluginsFromLayerStack(stack.plugins, fs, parses);
      cacheByCwd := cacheByCwd[cwd := outcome];
    }

    /** `plugins_for_config`: the same without forcing a reload. */
    method PluginsForConfig(cwd: Path, stack: LayerStack, fs: FileSystem, parses: map<string, Json> -> bool)
      returns (outcome: PluginLoadOutcome)
      modifies this
      ensures !stack.pluginsFeatureEnabled ==>
        outcome == EmptyOutcome && cacheByCwd == old(cacheByCwd)[cwd := EmptyOutcome]
      ensures stack.pluginsFeatureEnabled && cwd in old(cacheByCwd) ==>
        outcome == old(cacheByCwd)[cwd] && cacheByCwd == old(cacheByCwd)
      ensures stack.pluginsFeatureEnabled && cwd !in old(cacheByCwd) ==>
        LoadedOutcome(stack.plugins, fs, parses, outcome) && cacheByCwd == old(cacheByCwd)[cwd := outcome]
    {
      outcome := PluginsForLayerStack(cwd, stack, false, fs, parses);
    }

    /** `clear_cache`. */
    method ClearCache()
      modifies this
      ensures cacheByCwd == map[]
    {
      cacheByCwd := map[];
    }
  }
}
