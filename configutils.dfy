/**
 * Configuration files of the channel manager
 * (channel_manager_lib/config_utils.py): loading a YAML document, merging
 * the script configuration into its defaults, and listing the connection
 * configurations while removing the JSON caches that no YAML file owns.
 *
 * The file system is given as data: whether a file is there and what its
 * YAML parser made of it, and directory listings as sequences of entries
 * (already matched by the glob pattern).
 */
module ConfigUtils {
  import opened Wrappers
  import opened PyStrings
  import opened Values

  // ----- load_yaml_config -----

  /** What reading a YAML file gives: no file, a syntax error, another read failure, or a document. */
  datatype YamlFile = NoFile | BadYaml | Unreadable | Document(content: Value)

  /** The exceptions `load_yaml_config` re-raises. */
  datatype YamlError = FileNotFound | YamlSyntax

  /**
   * `load_yaml_config(path)`: the document when it is a dict, None for any
   * other content and for read failures other than the two it re-raises.
   */
  function LoadYamlConfig(f: YamlFile): (r: Result<Option<Record>, YamlError>)
    ensures r == Err(FileNotFound) <==> f.NoFile?
    ensures r == Err(YamlSyntax) <==> f.BadYaml?
    ensures r.Ok? && r.value.Some? <==> f.Document? && f.content.VMap?
    ensures r.Ok? && r.value.Some? ==> f.content == VMap(r.value.value)
  {
    match f
    case NoFile => Err(FileNotFound)
    case BadYaml => Err(YamlSyntax)
    case Unreadable => Ok(None)
    case Document(content) => if content.VMap? then Ok(Some(content.fields)) else Ok(None)
  }

  // ----- load_script_config -----

  /** A script configuration: sections of settings. */
  type Sections = map<string, map<string, Value>>

  const DefaultScriptConfig: Sections := map[
    "api_settings" := map["max_concurrent_requests" := VInt(5), "request_timeout" := VInt(60), "request_interval_ms" := VInt(100)],
    "api_page_sizes" := map["newapi" := VInt(100)],
    "logging" := map["level" := VStr("INFO")]
  ]

  const ValidLevels: seq<string> := ["DEBUG", "INFO", "WARNING", "ERROR", "CRITICAL"]

  /** The settings that carry their own validation; every other one is checked by type only. */
  datatype SettingKind = LevelSetting | IntervalSetting | PlainSetting

  function KindOf(section: string, key: string): SettingKind
  {
    if section == "logging" && key == "level" then LevelSetting
    else if section == "api_settings" && key == "request_interval_ms" then IntervalSetting
    else PlainSetting
  }

  /** `isinstance(value, type(current))`; a boolean is an instance of `int`. */
  predicate SameType(value: Value, current: Value)
  {
    match current
    case VNull => value.VNull?
    case VStr(_) => value.VStr?
    case VInt(_) => IsNumber(value)
    case VBool(_) => value.VBool?
    case VList(_) => value.VList?
    case VMap(_) => value.VMap?
  }

  /**
   * The value a setting takes when the file gives `value` for it: an upper-cased
   * valid level, a non-negative `int`, or a value of the default's type; the
   * current value otherwise.
   */
  function AcceptedSetting(kind: SettingKind, current: Value, value: Value): (r: Value)
    ensures r == value || r == current || (kind == LevelSetting && value.VStr? && r == VStr(Upper(value.s)))
  {
    match kind
    case LevelSetting => if value.VStr? && Upper(value.s) in ValidLevels then VStr(Upper(value.s)) else current
    case IntervalSetting => if IsNumber(value) && NumOf(value) >= 0 then value else current
    case PlainSetting => if SameType(value, current) then value else current
  }

  /** One section after merging the file's settings into it; unknown keys are ignored. */
  function MergedSection(section: string, defaults: map<string, Value>, settings: Record): (r: map<string, Value>)
    ensures r.Keys == defaults.Keys
  {
    map k | k in defaults :: if k in settings then AcceptedSetting(KindOf(section, k), defaults[k], settings[k]) else defaults[k]
  }

  /** The defaults with every known section that the file gives as a dict merged in; unknown sections are ignored. */
  function MergedConfig(loaded: Record): (r: Sections)
    ensures r.Keys == DefaultScriptConfig.Keys
  {
    map s | s in DefaultScriptConfig ::
      if s in loaded && loaded[s].VMap? then MergedSection(s, DefaultScriptConfig[s], loaded[s].fields) else DefaultScriptConfig[s]
  }

  /** The configuration `load_script_config` returns, given whether the file is there and what it holds. */
  function ScriptConfigOf(present: bool, file: YamlFile): (r: Sections)
    ensures r.Keys == DefaultScriptConfig.Keys
    ensures forall s :: s in r ==> r[s].Keys == DefaultScriptConfig[s].Keys
    ensures !present ==> r == DefaultScriptConfig
  {
    if !present then DefaultScriptConfig
    else
      match LoadYamlConfig(file)
      case Ok(Some(loaded)) => if loaded != map[] then MergedConfig(loaded) else DefaultScriptConfig
      case _ => DefaultScriptConfig
  }

  /** `load_script_config()`: a missing or unloadable file leaves the defaults. */
  method LoadScriptConfig(present: bool, file: YamlFile) returns (config: Sections)
    ensures config == ScriptConfigOf(present, file)
  {
    config := DefaultScriptConfig;
    if present {
      var loaded := LoadYamlConfig(file);
      if loaded.Ok? && loaded.value.Some? && loaded.value.value != map[] {
        config := MergeLoaded(loaded.value.value);
      }
    }
  }

  /** The merge loop over the file's sections. */
  method MergeLoaded(loaded: Record) returns (config: Sections)
    ensures config == MergedConfig(loaded)
  {
    config := DefaultScriptConfig;
    var remaining := loaded.Keys;
    ghost var done: set<string> := {};
    while remaining != {}
      invariant remaining !! done && remaining + done == loaded.Keys
      invariant config == PartiallyMerged(loaded, done)
      decreases remaining
    {
      var section :| section in remaining;
      PartiallyMergedStep(loaded, done, section);
      var settings := loaded[section];
      if section in config && settings.VMap? {
        var merged := MergeSection(section, config[section], settings.fields);
        config := config[section := merged];
      }
      remaining := remaining - {section};
      done := done + {section};
    }
  }

  /** The configuration once the sections in `done` are merged. */
  ghost function PartiallyMerged(loaded: Record, done: set<string>): Sections
  {
    map s | s in DefaultScriptConfig ::
      if s in done && s in loaded && loaded[s].VMap? then MergedSection(s, DefaultScriptConfig[s], loaded[s].fields)
      else DefaultScriptConfig[s]
  }

  lemma PartiallyMergedStep(loaded: Record, done: set<string>, section: string)
    requires section !in done && section in loaded
    ensures var p := PartiallyMerged(loaded, done);
      PartiallyMerged(loaded, done + {section})
        == if section in p && loaded[section].VMap?
           then p[section := MergedSection(section, p[section], loaded[section].fields)] else p
  {
  }

  /** The merge loop over one section's settings. */
  method MergeSection(section: string, current: map<string, Value>, settings: Record) returns (merged: map<string, Value>)
    ensures merged == MergedSection(section, current, settings)
  {
    merged := current;
    var remaining := settings.Keys;
    ghost var done: set<string> := {};
    while remaining != {}
      invariant remaining !! done && remaining + done == settings.Keys
      invariant merged == PartialSection(section, current, settings, done)
      decreases remaining
    {
      var key :| key in remaining;
      PartialSectionStep(section, current, settings, done, key);
      if key in merged {
        merged := merged[key := AcceptedSetting(KindOf(section, key), merged[key], settings[key])];
      }
      remaining := remaining - {key};
      done := done + {key};
    }
  }

  /** A section once the keys in `done` are merged. */
  ghost function PartialSection(section: string, current: map<string, Value>, settings: Record, done: set<string>): map<string, Value>
  {
    map k | k in current ::
      if k in done && k in settings then AcceptedSetting(KindOf(section, k), current[k], settings[k]) else current[k]
  }

  lemma PartialSectionStep(section: string, current: map<string, Value>, settings: Record, done: set<string>, key: string)
    requires key !in done && key in settings
    ensures var p := PartialSection(section, current, settings, done);
      PartialSection(section, current, settings, done + {key})
        == if key in current then p[key := AcceptedSetting(KindOf(section, key), p[key], settings[key])] else p
  {
  }

  /**
   * Whatever the file holds, the result has exactly the default sections and
   * keys, the level is a valid upper-case level, the interval a non-negative
   * `int`, and every other setting has its default's type.
   */
  lemma ScriptConfigShape(present: bool, file: YamlFile)
    ensures ConfigShaped(ScriptConfigOf(present, file))
  {
    if present {
      match LoadYamlConfig(file)
      case Ok(Some(loaded)) =>
        if loaded != map[] {
          MergedShape(loaded);
        } else {
          DefaultShape();
        }
      case _ =>
        DefaultShape();
    } else {
      DefaultShape();
    }
  }

  /** The shape every effective script configuration has. */
  ghost predicate ConfigShaped(r: Sections)
  {
    && r.Keys == DefaultScriptConfig.Keys
    && (forall s :: s in DefaultScriptConfig ==> r[s].Keys == DefaultScriptConfig[s].Keys)
    && r["logging"]["level"].VStr? && r["logging"]["level"].s in ValidLevels
    && IsNumber(r["api_settings"]["request_interval_ms"]) && NumOf(r["api_settings"]["request_interval_ms"]) >= 0
    && (forall s, k :: s in DefaultScriptConfig && k in DefaultScriptConfig[s] ==> SameType(r[s][k], DefaultScriptConfig[s][k]))
  }

  lemma DefaultShape()
    ensures ConfigShaped(DefaultScriptConfig)
  {
    forall s, k | s in DefaultScriptConfig && k in DefaultScriptConfig[s]
      ensures SameType(DefaultScriptConfig[s][k], DefaultScriptConfig[s][k])
    {
      SameTypeReflexive(DefaultScriptConfig[s][k]);
    }
  }

  lemma MergedShape(loaded: Record)
    ensures ConfigShaped(MergedConfig(loaded))
  {
    var r := MergedConfig(loaded);
    forall s, k | s in DefaultScriptConfig && k in DefaultScriptConfig[s]
      ensures SameType(r[s][k], DefaultScriptConfig[s][k])
    {
      MergedKeepsType(loaded, s, k);
    }
    assert r["logging"]["level"].VStr? && r["logging"]["level"].s in ValidLevels by {
      var d := DefaultScriptConfig["logging"];
      if "logging" in loaded && loaded["logging"].VMap? && "level" in loaded["logging"].fields {
        assert r["logging"]["level"] == AcceptedSetting(LevelSetting, VStr("INFO"), loaded["logging"].fields["level"]);
      }
    }
    assert IsNumber(r["api_settings"]["request_interval_ms"]) && NumOf(r["api_settings"]["request_interval_ms"]) >= 0 by {
      if "api_settings" in loaded && loaded["api_settings"].VMap? && "request_interval_ms" in loaded["api_settings"].fields {
        assert r["api_settings"]["request_interval_ms"]
          == AcceptedSetting(IntervalSetting, VInt(100), loaded["api_settings"].fields["request_interval_ms"]);
      }
    }
  }

  /** A merged setting keeps its default's type. */
  lemma MergedKeepsType(loaded: Record, s: string, k: string)
    requires s in DefaultScriptConfig && k in DefaultScriptConfig[s]
    ensures SameType(MergedConfig(loaded)[s][k], DefaultScriptConfig[s][k])
  {
    var d := DefaultScriptConfig[s][k];
    if s in loaded && loaded[s].VMap? && k in loaded[s].fields {
      assert KindOf(s, k) == LevelSetting ==> d.VStr?;
      assert KindOf(s, k) == IntervalSetting ==> d.VInt?;
      AcceptedKeepsType(KindOf(s, k), d, loaded[s].fields[k]);
    } else {
      SameTypeReflexive(d);
    }
  }

  /** An accepted value has the type of the value it replaces. */
  lemma AcceptedKeepsType(kind: SettingKind, current: Value, value: Value)
    requires kind == LevelSetting ==> current.VStr?
    requires kind == IntervalSetting ==> current.VInt?
    ensures SameType(AcceptedSetting(kind, current, value), current)
  {
    SameTypeReflexive(current);
  }

  lemma SameTypeReflexive(v: Value)
    ensures SameType(v, v)
  {
  }

  /** A missing file, a file that fails to load and an empty document all give the defaults. */
  lemma DefaultsWithoutFile(present: bool, file: YamlFile)
    requires !present || !(file.Document? && file.content.VMap? && file.content.fields != map[])
    ensures ScriptConfigOf(present, file) == DefaultScriptConfig
  {
  }

  // ----- list_connection_configs -----

  /** An entry of a directory listing. */
  datatype DirEntry = DirEntry(name: string, isFile: bool)

  /** The index of the last '.' in `name`, if any. */
  function LastDot(name: string): (r: Option<nat>)
    ensures r.Some? ==> r.value < |name| && name[r.value] == '.' && '.' !in name[r.value + 1..]
    ensures r.None? ==> '.' !in name
  {
    if name == [] then None
    else if name[|name| - 1] == '.' then Some(|name| - 1)
    else
      match LastDot(name[..|name| - 1])
      case None => None
      case Some(i) =>
        assert name[i + 1..] == name[..|name| - 1][i + 1..] + [name[|name| - 1]];
        Some(i)
  }

  /** `Path(name).stem`: the name without its last suffix; a leading dot or a trailing dot starts no suffix. */
  function Stem(name: string): (r: string)
    ensures |r| <= |name| && r == name[..|r|]
  {
    match LastDot(name)
    case Some(i) => if 0 < i < |name| - 1 then name[..i] else name
    case None => name
  }

  /** The names of the entries that are files, in listing order. */
  function FileNames(entries: seq<DirEntry>): (r: seq<string>)
    ensures forall x :: x in r <==> exists e :: e in entries && e.isFile && e.name == x
  {
    if entries == [] then []
    else
      var last := entries[|entries| - 1];
      assert forall e :: e in entries <==> e in entries[..|entries| - 1] || e == last;
      FileNames(entries[..|entries| - 1]) + (if last.isFile then [last.name] else [])
  }

  /** The cache file name each YAML file owns: its stem plus ".json". */
  function ExpectedCaches(entries: seq<DirEntry>): (r: set<string>)
    ensures forall x :: x in r <==> exists e :: e in entries && e.isFile && Stem(e.name) + ".json" == x
  {
    if entries == [] then {}
    else
      var last := entries[|entries| - 1];
      assert forall e :: e in entries <==> e in entries[..|entries| - 1] || e == last;
      ExpectedCaches(entries[..|entries| - 1]) + (if last.isFile then {Stem(last.name) + ".json"} else {})
  }

  /** The cache files that no YAML file owns, in listing order. */
  function StaleCaches(entries: seq<DirEntry>, expected: set<string>): (r: seq<string>)
    ensures forall x :: x in r <==> exists e :: e in entries && e.isFile && e.name == x && x !in expected
  {
    if entries == [] then []
    else
      var last := entries[|entries| - 1];
      assert forall e :: e in entries <==> e in entries[..|entries| - 1] || e == last;
      StaleCaches(entries[..|entries| - 1], expected) + (if last.isFile && last.name !in expected then [last.name] else [])
  }

  /**
   * `list_connection_configs()`: without the configuration directory, [] and
   * nothing removed; otherwise the YAML files, in listing order, and the cache
   * files it unlinks (when the cache directory exists).
   */
  method ListConnectionConfigs(configDir: bool, yamlEntries: seq<DirEntry>, cacheDir: bool, cacheEntries: seq<DirEntry>)
    returns (configs: seq<string>, removed: seq<string>)
    ensures !configDir ==> configs == [] && removed == []
    ensures configDir ==> configs == FileNames(yamlEntries)
    ensures configDir && cacheDir ==> removed == StaleCaches(cacheEntries, ExpectedCaches(yamlEntries))
    ensures !cacheDir ==> removed == []
  {
    configs, removed := [], [];
    if !configDir {
      return;
    }
    var expected;
    configs, expected := ScanConfigs(yamlEntries);
    if cacheDir {
      removed := ScanCaches(cacheEntries, expected);
    }
  }

  /** The loop over the YAML files: their names and the cache names they own. */
  method ScanConfigs(yamlEntries: seq<DirEntry>) returns (configs: seq<string>, expected: set<string>)
    ensures configs == FileNames(yamlEntries)
    ensures expected == ExpectedCaches(yamlEntries)
  {
    configs, expected := [], {};
    var i := 0;
    while i < |yamlEntries|
      invariant 0 <= i <= |yamlEntries|
      invariant configs == FileNames(yamlEntries[..i])
      invariant expected == ExpectedCaches(yamlEntries[..i])
    {
      assert yamlEntries[..i + 1][..i] == yamlEntries[..i];
      if yamlEntries[i].isFile {
        configs := configs + [yamlEntries[i].name];
        expected := expected + {Stem(yamlEntries[i].name) + ".json"};
      }
      i := i + 1;
    }
    assert yamlEntries[..i] == yamlEntries;
  }

  /** The loop over the cache directory: the files no YAML file owns, in listing order. */
  method ScanCaches(cacheEntries: seq<DirEntry>, expected: set<string>) returns (removed: seq<string>)
    ensures removed == StaleCaches(cacheEntries, expected)
  {
    removed := [];
    var j := 0;
    while j < |cacheEntries|
      invariant 0 <= j <= |cacheEntries|
      invariant removed == StaleCaches(cacheEntries[..j], expected)
    {
      assert cacheEntries[..j + 1][..j] == cacheEntries[..j];
      if cacheEntries[j].isFile && cacheEntries[j].name !in expected {
        removed := removed + [cacheEntries[j].name];
      }
      j := j + 1;
    }
    assert cacheEntries[..j] == cacheEntries;
  }

  /** A YAML file's own cache is never removed, and a removed file is one no YAML file owns. */
  lemma OwnCacheKept(yamlEntries: seq<DirEntry>, cacheEntries: seq<DirEntry>, y: DirEntry)
    requires y in yamlEntries && y.isFile
    ensures Stem(y.name) + ".json" !in StaleCaches(cacheEntries, ExpectedCaches(yamlEntries))
  {
  }

  /** The stem of `<base>.<ext>`, for a non-empty base and a non-empty dot-free extension, is the base, whatever dots the base holds. */
  lemma StemOfSuffixed(base: string, ext: string)
    requires base != [] && ext != [] && '.' !in ext
    ensures Stem(base + "." + ext) == base
  {
    LastDotOfSuffix(base + ".", ext);
    assert (base + "." + ext)[..|base|] == base;
  }

  /** A dot followed only by dot-free text is the last dot. */
  lemma {:induction false} LastDotOfSuffix(a: string, b: string)
    requires a != [] && a[|a| - 1] == '.' && '.' !in b
    ensures LastDot(a + b) == Some(|a| - 1)
    decreases |b|
  {
    if b == [] {
      assert a + b == a;
    } else {
      var n := |a + b|;
      assert (a + b)[..n - 1] == a + b[..|b| - 1];
      assert (a + b)[n - 1] == b[|b| - 1];
      assert b[|b| - 1] in b;
      assert forall c :: c in b[..|b| - 1] ==> c in b;
      LastDotOfSuffix(a, b[..|b| - 1]);
    }
  }
}
