/** The agent's configuration (`AgentConfig`, agent.py:36-91): built-in defaults, updated
    key by key at the top level by the configuration file, and the nested lookups the
    rest of the agent performs on the result. */
module Config {
  import opened Wrappers
  import PathFilter

  /** A JSON value as `json.load` produces it (numbers other than integers are not
      modelled). */
  datatype Json =
    | Null
    | Bool(b: bool)
    | Int(i: int)
    | Str(s: string)
    | List(items: seq<Json>)
    | Object(fields: map<string, Json>)

  /** A configuration document: a JSON object. */
  type Settings = map<string, Json>

  const DefaultServerUrl: string := "http://10.220.143.130:8000/api/v1"
  const DefaultHeartbeatInterval: int := 60
  const DefaultMonitoredPaths: seq<string> := ["/home", "/var/www", "/opt/data"]
  const DefaultExcludePaths: seq<string> := ["/home/*/.cache", "/home/*/.local/share", "/home/*/snap"]
  const DefaultFileExtensions: seq<string> :=
    [".pdf", ".docx", ".xlsx", ".txt", ".csv", ".json", ".xml", ".sql", ".conf"]
  const DefaultMaxFileSizeMb: int := 10

  /** A list of strings as a JSON list. */
  function StrList(xs: seq<string>): (r: seq<Json>)
    ensures |r| == |xs|
    ensures forall k :: 0 <= k < |xs| ==> r[k] == Str(xs[k])
  {
    if xs == [] then [] else [Str(xs[0])] + StrList(xs[1..])
  }

  /** The default "monitoring" section. */
  const DefaultMonitoring: Settings := map[
    "file_system" := Bool(true),
    "monitored_paths" := List(StrList(DefaultMonitoredPaths)),
    "exclude_paths" := List(StrList(DefaultExcludePaths)),
    "file_extensions" := List(StrList(DefaultFileExtensions))
  ]

  /** The defaults of `_load_config`; the fresh agent id and the host name are given. */
  function DefaultConfig(agentId: string, hostname: string): Settings
  {
    map[
      "server_url" := Str(DefaultServerUrl),
      "agent_id" := Str(agentId),
      "agent_name" := Str(hostname),
      "heartbeat_interval" := Int(DefaultHeartbeatInterval),
      "monitoring" := Object(DefaultMonitoring),
      "classification" := Object(map[
        "enabled" := Bool(true),
        "max_file_size_mb" := Int(DefaultMaxFileSizeMb)
      ])
    ]
  }

  /** `defaults.update(loaded)`: every top-level key of the loaded document replaces
      the default's value whole; nested objects are not merged. */
  function Update(defaults: Settings, loaded: Settings): (r: Settings)
    ensures r.Keys == defaults.Keys + loaded.Keys
    ensures forall k :: k in loaded ==> r[k] == loaded[k]
    ensures forall k :: k in defaults && k !in loaded ==> r[k] == defaults[k]
  {
    defaults + loaded
  }

  /** `_load_config`: the defaults, updated by the file's object when the file exists
      and parses (`loaded` is None when it is missing or unreadable). */
  function LoadConfig(defaults: Settings, loaded: Option<Settings>): (r: Settings)
    ensures defaults.Keys <= r.Keys
    ensures loaded.None? ==> r == defaults
  {
    match loaded
    case None => defaults
    case Some(l) => Update(defaults, l)
  }

  /** `cfg.get(key, default)` */
  function Get(cfg: Settings, key: string, default: Json): Json
  {
    if key in cfg then cfg[key] else default
  }

  /** `cfg.get(section, {}).get(key, default)`; None when the section is present but not
      an object, where Python raises. */
  function SectionGet(cfg: Settings, section: string, key: string, default: Json): (r: Option<Json>)
    ensures section !in cfg ==> r == Some(default)
  {
    match Get(cfg, section, Object(map[]))
    case Object(fields) => Some(Get(fields, key, default))
    case _ => None
  }

  /** The strings of a JSON list made only of strings. */
  function Strings(items: seq<Json>): (r: Option<seq<string>>)
    ensures r.Some? ==> |r.value| == |items| && forall k :: 0 <= k < |items| ==> items[k] == Str(r.value[k])
    ensures r.None? ==> exists k :: 0 <= k < |items| && !items[k].Str?
  {
    if items == [] then Some([])
    else if !items[0].Str? then None
    else match Strings(items[1..])
      case None => None
      case Some(rest) => Some([items[0].s] + rest)
  }

  function StringList(j: Json): Option<seq<string>>
  {
    if j.List? then Strings(j.items) else None
  }

  /** monitoring.exclude_paths, by default [] */
  function ExcludePaths(cfg: Settings): Option<seq<string>>
  {
    match SectionGet(cfg, "monitoring", "exclude_paths", List([]))
    case None => None
    case Some(j) => StringList(j)
  }

  /** monitoring.file_extensions, by default [] */
  function FileExtensions(cfg: Settings): Option<seq<string>>
  {
    match SectionGet(cfg, "monitoring", "file_extensions", List([]))
    case None => None
    case Some(j) => StringList(j)
  }

  /** monitoring.monitored_paths, by default [] */
  function MonitoredPaths(cfg: Settings): Option<seq<string>>
  {
    match SectionGet(cfg, "monitoring", "monitored_paths", List([]))
    case None => None
    case Some(j) => StringList(j)
  }

  /** Python truthiness of a JSON value. */
  predicate Truthy(j: Json)
  {
    match j
    case Null => false
    case Bool(b) => b
    case Int(i) => i != 0
    case Str(s) => s != ""
    case List(items) => items != []
    case Object(fields) => fields != map[]
  }

  /** monitoring.file_system, by default true. */
  function FileSystemEnabled(cfg: Settings): Option<bool>
  {
    match SectionGet(cfg, "monitoring", "file_system", Bool(true))
    case None => None
    case Some(j) => Some(Truthy(j))
  }

  const BytesPerMb: int := 1024 * 1024

  /** `classification.max_file_size_mb * 1024 * 1024`, by default 10 MiB. A boolean
      multiplies as 0 or 1; any other non-integer makes the later comparison raise. */
  function MaxFileSizeBytes(cfg: Settings): (r: Option<int>)
    ensures "classification" !in cfg ==> r == Some(DefaultMaxFileSizeMb * BytesPerMb)
  {
    match SectionGet(cfg, "classification", "max_file_size_mb", Int(DefaultMaxFileSizeMb))
    case Some(Int(n)) => Some(n * BytesPerMb)
    case Some(Bool(b)) => Some(if b then BytesPerMb else 0)
    case _ => None
  }

  // ---------------------------------------------------------------------------
  // Properties
  // ---------------------------------------------------------------------------

  lemma {:induction false} StringsOfStrList(xs: seq<string>)
    ensures Strings(StrList(xs)) == Some(xs)
  {
    if xs != [] {
      var items := StrList(xs);
      StringsOfStrList(xs[1..]);
      assert items[1..] == StrList(xs[1..]);
      assert items[0] == Str(xs[0]);
      assert [xs[0]] + xs[1..] == xs;
    }
  }

  /** Loading the same document twice changes nothing more. */
  lemma UpdateIdempotent(defaults: Settings, loaded: Settings)
    ensures Update(Update(defaults, loaded), loaded) == Update(defaults, loaded)
  {
  }

  /** Without a "monitoring" key in the file, the default lists are in force. */
  lemma DefaultListsWhenSectionAbsent(agentId: string, hostname: string, loaded: Settings)
    requires "monitoring" !in loaded
    ensures var cfg := LoadConfig(DefaultConfig(agentId, hostname), Some(loaded));
      && ExcludePaths(cfg) == Some(DefaultExcludePaths)
      && FileExtensions(cfg) == Some(DefaultFileExtensions)
      && MonitoredPaths(cfg) == Some(DefaultMonitoredPaths)
      && FileSystemEnabled(cfg) == Some(true)
  {
    DefaultMonitoringSection(agentId, hostname);
    var cfg := LoadConfig(DefaultConfig(agentId, hostname), Some(loaded));
    assert cfg["monitoring"] == Object(DefaultMonitoring);
    ListsOfDefaultSection(cfg);
  }

  lemma DefaultMonitoringSection(agentId: string, hostname: string)
    ensures "monitoring" in DefaultConfig(agentId, hostname)
    ensures DefaultConfig(agentId, hostname)["monitoring"] == Object(DefaultMonitoring)
  {
  }

  lemma ListsOfDefaultSection(cfg: Settings)
    requires "monitoring" in cfg && cfg["monitoring"] == Object(DefaultMonitoring)
    ensures ExcludePaths(cfg) == Some(DefaultExcludePaths)
    ensures FileExtensions(cfg) == Some(DefaultFileExtensions)
    ensures MonitoredPaths(cfg) == Some(DefaultMonitoredPaths)
    ensures FileSystemEnabled(cfg) == Some(true)
  {
    DefaultMonitoringEntries();
    DefaultListOf(cfg, "exclude_paths", DefaultExcludePaths);
    DefaultListOf(cfg, "file_extensions", DefaultFileExtensions);
    DefaultListOf(cfg, "monitored_paths", DefaultMonitoredPaths);
  }

  lemma DefaultMonitoringEntries()
    ensures "exclude_paths" in DefaultMonitoring && DefaultMonitoring["exclude_paths"] == List(StrList(DefaultExcludePaths))
    ensures "file_extensions" in DefaultMonitoring && DefaultMonitoring["file_extensions"] == List(StrList(DefaultFileExtensions))
    ensures "monitored_paths" in DefaultMonitoring && DefaultMonitoring["monitored_paths"] == List(StrList(DefaultMonitoredPaths))
    ensures "file_system" in DefaultMonitoring && DefaultMonitoring["file_system"] == Bool(true)
  {
  }

  lemma DefaultListOf(cfg: Settings, key: string, xs: seq<string>)
    requires "monitoring" in cfg && cfg["monitoring"] == Object(DefaultMonitoring)
    requires key in DefaultMonitoring && DefaultMonitoring[key] == List(StrList(xs))
    ensures SectionGet(cfg, "monitoring", key, List([])) == Some(List(StrList(xs)))
    ensures StringList(List(StrList(xs))) == Some(xs)
  {
    StringsOfStrList(xs);
  }

  /** A file that gives "monitoring" at all replaces the whole section: a list it leaves
      out is empty afterwards, not the default. */
  lemma SectionOverrideDropsDefaults(defaults: Settings, loaded: Settings, fields: map<string, Json>)
    requires "monitoring" in loaded && loaded["monitoring"] == Object(fields)
    requires "exclude_paths" !in fields && "file_extensions" !in fields
    ensures ExcludePaths(LoadConfig(defaults, Some(loaded))) == Some([])
    ensures FileExtensions(LoadConfig(defaults, Some(loaded))) == Some([])
  {
  }

  /** The default size ceiling is 10 MiB. */
  lemma DefaultCeiling(agentId: string, hostname: string)
    ensures MaxFileSizeBytes(DefaultConfig(agentId, hostname)) == Some(10485760)
  {
  }

  /** No two consecutive '/' in the path. */
  predicate NoDoubleSlash(path: string)
  {
    forall i :: 0 <= i < |path| - 1 ==> !(path[i] == '/' && path[i + 1] == '/')
  }

  /** Each default exclusion, with its star removed, begins "/home//": it excludes no
      path without a doubled '/', so it never excludes a normal path under /home. */
  lemma DefaultExclusionsNeedDoubleSlash(path: string)
    requires NoDoubleSlash(path)
    ensures !PathFilter.Excluded(path, DefaultExcludePaths)
  {
    assert DefaultExcludePaths[0] == "/home/" + "*" + "/.cache";
    assert DefaultExcludePaths[1] == "/home/" + "*" + "/.local/share";
    assert DefaultExcludePaths[2] == "/home/" + "*" + "/snap";
    HomeWildcardNeedsDoubleSlash(path, "/.cache");
    HomeWildcardNeedsDoubleSlash(path, "/.local/share");
    HomeWildcardNeedsDoubleSlash(path, "/snap");
  }

  lemma HomeWildcardNeedsDoubleSlash(path: string, tail: string)
    requires NoDoubleSlash(path)
    requires '*' !in tail && |tail| > 0 && tail[0] == '/'
    ensures !PathFilter.StartsWith(path, PathFilter.RemoveStars("/home/" + "*" + tail))
  {
    PathFilter.StarBetween("/home/", tail);
    var stripped := "/home/" + tail;
    assert stripped[5] == '/' && stripped[6] == '/';
  }
}
