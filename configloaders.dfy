/**
 * Loading and checking the two configuration files of a run
 * (oneapi_tool_utils/config_loaders.py): the connection configuration with
 * its JSON cache, and the structural checks of the update configuration,
 * which the abstract channel tool repeats word for word in
 * `_load_update_config` (oneapi_tool_utils/channel_tool_base.py).
 */
module ConfigLoaders {
  import opened Wrappers
  import opened PyStrings
  import opened Values
  import opened FilteringUtils
  import opened ChannelToolBase
  import opened ConfigUtils

  // ----- load_update_config -----

  /** The ValueError cases of the update-configuration checks, and the exceptions of the YAML loader. */
  datatype UpdateConfigError =
    | YamlRaised(raised: YamlError)
    | NotADict
    | FiltersNotDict
    | BadMatchMode(mode: Value)
    | FilterNotList(key: string)
    | UpdatesNotDict
    | BadRule

  /** The filter keys whose values must be lists or null, in the order they are checked. */
  const FilterKeys: seq<string> := [
    "name_filters", "group_filters", "model_filters", "tag_filters", "type_filters",
    "exclude_name_filters", "exclude_group_filters", "exclude_model_filters",
    "exclude_model_mapping_keys", "exclude_override_params_keys"
  ]

  /** A filter key that is present with a value that is neither None nor a list. */
  predicate BadFilter(filters: Record, key: string)
  {
    key in filters && filters[key] != VNull && !filters[key].VList?
  }

  /** The first key of `keys` whose filter is bad. */
  function FirstBadFilter(filters: Record, keys: seq<string>): (r: Option<string>)
    ensures r.None? <==> forall i :: 0 <= i < |keys| ==> !BadFilter(filters, keys[i])
    ensures r.Some? ==>
      exists i :: 0 <= i < |keys| && keys[i] == r.value && BadFilter(filters, keys[i])
        && (forall j :: 0 <= j < i ==> !BadFilter(filters, keys[j]))
  {
    if keys == [] then None
    else if BadFilter(filters, keys[0]) then Some(keys[0])
    else
      var r := FirstBadFilter(filters, keys[1..]);
      assert forall i :: 1 <= i < |keys| ==> keys[i] == keys[1..][i - 1];
      if r.Some? then
        ghost var i :| 0 <= i < |keys[1..]| && keys[1..][i] == r.value && BadFilter(filters, keys[1..][i])
          && (forall j :: 0 <= j < i ==> !BadFilter(filters, keys[1..][j]));
        assert keys[i + 1] == r.value;
        r
      else r
  }

  /** An update rule is a dict with a boolean `enabled`. */
  predicate GoodRule(rule: Value)
  {
    rule.VMap? && "enabled" in rule.fields && rule.fields["enabled"].VBool?
  }

  /** The filters section passes: a dict, a valid `match_mode` (default "any"), and list-or-null filter values. */
  predicate GoodFilters(c: Record)
  {
    "filters" in c ==>
      c["filters"].VMap?
      && ValidMatchMode(Get(c["filters"].fields, "match_mode", VStr("any")))
      && forall k :: k in FilterKeys ==> !BadFilter(c["filters"].fields, k)
  }

  /** The updates section passes: a dict whose every rule is good. */
  predicate GoodUpdates(c: Record)
  {
    "updates" in c ==>
      c["updates"].VMap? && forall f :: f in c["updates"].fields ==> GoodRule(c["updates"].fields[f])
  }

  /**
   * The structural checks of `load_update_config` on a loaded document, in
   * their order: the root, the filters section and its `match_mode`, the
   * filter values in key order, the updates section and its rules. A missing
   * section only warns, and an enabled rule without `value` passes.
   */
  function ValidateUpdateConfig(config: Value): (r: Result<Record, UpdateConfigError>)
    ensures r.Ok? <==> config.VMap? && GoodFilters(config.fields) && GoodUpdates(config.fields)
    ensures r.Ok? ==> config == VMap(r.value)
    ensures r == Err(NotADict) <==> !config.VMap?
    ensures r.Err? && r.error.FilterNotList? ==>
      config.VMap? && "filters" in config.fields && config.fields["filters"].VMap?
      && BadFilter(config.fields["filters"].fields, r.error.key)
  {
    if !config.VMap? then Err(NotADict)
    else
      var c := config.fields;
      if "filters" in c && !c["filters"].VMap? then Err(FiltersNotDict)
      else if "filters" in c && !ValidMatchMode(Get(c["filters"].fields, "match_mode", VStr("any"))) then
        Err(BadMatchMode(Get(c["filters"].fields, "match_mode", VStr("any"))))
      else if "filters" in c && FirstBadFilter(c["filters"].fields, FilterKeys).Some? then
        Err(FilterNotList(FirstBadFilter(c["filters"].fields, FilterKeys).value))
      else if "updates" in c && !c["updates"].VMap? then Err(UpdatesNotDict)
      else if "updates" in c && exists f | f in c["updates"].fields :: !GoodRule(c["updates"].fields[f]) then Err(BadRule)
      else
        assert GoodFilters(c) by {
          if "filters" in c {
            assert forall k :: k in FilterKeys ==> !BadFilter(c["filters"].fields, k) by {
              forall k | k in FilterKeys ensures !BadFilter(c["filters"].fields, k) {
                var i :| 0 <= i < |FilterKeys| && FilterKeys[i] == k;
              }
            }
          }
        }
        Ok(c)
  }

  /** `load_update_config(path)`: the loader's exceptions pass through, a non-dict document is rejected, then the checks run. */
  function LoadUpdateConfig(file: YamlFile): (r: Result<Record, UpdateConfigError>)
    ensures file.NoFile? ==> r == Err(YamlRaised(FileNotFound))
    ensures file.BadYaml? ==> r == Err(YamlRaised(YamlSyntax))
    ensures r.Ok? <==> file.Document? && file.content.VMap? && GoodFilters(file.content.fields) && GoodUpdates(file.content.fields)
    ensures r.Ok? ==> file.content == VMap(r.value)
  {
    match LoadYamlConfig(file)
    case Err(e) => Err(YamlRaised(e))
    case Ok(None) => Err(NotADict)
    case Ok(Some(m)) => ValidateUpdateConfig(VMap(m))
  }

  /**
   * An accepted update configuration is one the patch calculation and the
   * filter can use: its updates section is a dict of rules with a boolean
   * `enabled`, and its match mode is valid, so filtering never falls back to [].
   */
  lemma AcceptedConfigIsUsable(file: YamlFile)
    requires LoadUpdateConfig(file).Ok?
    ensures WellFormedUpdates(Some(LoadUpdateConfig(file).value))
    ensures var c := LoadUpdateConfig(file).value;
      "filters" in c ==> c["filters"].VMap? && ConfigMode(c["filters"].fields) != InvalidMode
    ensures var c := LoadUpdateConfig(file).value;
      "updates" in c ==> forall f :: f in c["updates"].fields ==>
        c["updates"].fields[f].VMap? && Get(c["updates"].fields[f].fields, "enabled", VNull).VBool?
  {
    var c := LoadUpdateConfig(file).value;
    assert GoodFilters(c) && GoodUpdates(c);
  }

  /** A rule holding only `enabled: true` passes the checks: a missing `value` is left to the patch calculation. */
  lemma RuleWithoutValueAccepted(field: string)
    ensures ValidateUpdateConfig(VMap(map["updates" := VMap(map[field := VMap(map["enabled" := VBool(true)])])])).Ok?
  {
    var c := map["updates" := VMap(map[field := VMap(map["enabled" := VBool(true)])])];
    assert GoodUpdates(c);
  }

  // ----- load_api_config -----

  /** The cache file of a connection configuration: its mtime and its decoded JSON content (None when it cannot be read or decoded). */
  datatype CacheFile = CacheFile(mtime: int, content: Option<Value>)

  /** The exceptions `load_api_config` raises. */
  datatype ApiConfigError =
    | YamlMissing
    | YamlFailed(raised: YamlError)
    | ContentNotDict
    | MissingKeys(keys: seq<string>)
    | SiteUrlNotText
    | CachedTypeError  // `in` on a cached number, or `.get` on a cached list or string

  /** `[k for k in ['site_url', 'api_token'] if k not in config]`. */
  function MissingRequired(m: Record): (r: seq<string>)
    ensures r == [] <==> "site_url" in m && "api_token" in m
    ensures forall k :: k in r <==> k in ["site_url", "api_token"] && k !in m
  {
    (if "site_url" in m then [] else ["site_url"]) + (if "api_token" in m then [] else ["api_token"])
  }

  /**
   * `k in data` for decoded JSON of any shape: a dict key, a list element, a
   * substring of a string; None stands for the TypeError of the other types.
   */
  function MissingInCached(data: Value): (r: Option<seq<string>>)
    ensures data.VMap? ==> r == Some(MissingRequired(data.fields))
  {
    match data
    case VMap(m) => Some(MissingRequired(m))
    case VList(xs) =>
      Some((if InList(VStr("site_url"), xs) then [] else ["site_url"]) + (if InList(VStr("api_token"), xs) then [] else ["api_token"]))
    case VStr(s) =>
      Some((if Contains(s, "site_url") then [] else ["site_url"]) + (if Contains(s, "api_token") then [] else ["api_token"]))
    case _ => None
  }

  /** A string ending with '/'. */
  predicate EndsWithSlash(s: string)
  {
    s != [] && s[|s| - 1] == '/'
  }

  /**
   * The `site_url` fix-up: a truthy `site_url` not ending with '/' gets one;
   * a truthy value that is not a string has no `endswith` (AttributeError).
   */
  function WithTrailingSlash(m: Record): (r: Result<Record, ApiConfigError>)
    ensures r.Ok? ==> r.value.Keys == m.Keys && forall k :: k in m && k != "site_url" ==> r.value[k] == m[k]
    ensures r.Ok? && Truthy(Get(m, "site_url", VNull)) ==> r.value["site_url"].VStr? && EndsWithSlash(r.value["site_url"].s)
    ensures r.Err? <==> Truthy(Get(m, "site_url", VNull)) && !m["site_url"].VStr?
  {
    var url := Get(m, "site_url", VNull);
    if !Truthy(url) then Ok(m)
    else if !url.VStr? then Err(SiteUrlNotText)
    else if EndsWithSlash(url.s) then Ok(m)
    else Ok(m["site_url" := VStr(url.s + "/")])
  }

  /** Loading from YAML: the result and the configuration written to the cache. */
  function FromYaml(yaml: YamlFile): (r: (Result<Record, ApiConfigError>, Option<Record>))
    ensures r.0.Ok? <==> r.1.Some?
    ensures r.1.Some? ==> r.0 == Ok(r.1.value)
    ensures r.0.Ok? ==> "site_url" in r.0.value && "api_token" in r.0.value
    ensures r.0.Ok? && Truthy(r.0.value["site_url"]) ==> r.0.value["site_url"].VStr? && EndsWithSlash(r.0.value["site_url"].s)
  {
    match LoadYamlConfig(yaml)
    case Err(e) => (Err(YamlFailed(e)), None)
    case Ok(None) => (Err(ContentNotDict), None)
    case Ok(Some(m)) =>
      if MissingRequired(m) != [] then (Err(MissingKeys(MissingRequired(m))), None)
      else
        match WithTrailingSlash(m)
        case Err(e) => (Err(e), None)
        case Ok(fixed) => (Ok(fixed), Some(fixed))
  }

  /** The cache content, when the cache exists, is not older than the YAML file and can be decoded. */
  function FreshCache(cache: Option<CacheFile>, yamlMtime: int): Option<Value>
  {
    if cache.Some? && cache.value.mtime >= yamlMtime then cache.value.content else None
  }

  /**
   * What `load_api_config` returns and what it writes to the cache: the fresh
   * cache when it holds both required keys, and otherwise the YAML file,
   * checked and fixed up, which is then written to the cache.
   */
  function ApiConfigOf(yamlIsFile: bool, yamlMtime: int, yaml: YamlFile, cache: Option<CacheFile>)
    : (r: (Result<Record, ApiConfigError>, Option<Record>))
    ensures !yamlIsFile ==> r == (Err(YamlMissing), None)
    ensures r.1.Some? ==> r.0 == Ok(r.1.value)
    ensures r.0.Ok? ==> "site_url" in r.0.value && "api_token" in r.0.value
  {
    if !yamlIsFile then (Err(YamlMissing), None)
    else
      match FreshCache(cache, yamlMtime)
      case None => FromYaml(yaml)
      case Some(data) =>
        match MissingInCached(data)
        case None => (Err(CachedTypeError), None)
        case Some(missing) =>
          if missing != [] then FromYaml(yaml)
          else if data.VMap? then (Ok(data.fields), None)
          else (Err(CachedTypeError), None)
  }

  /**
   * `load_api_config(yaml_path)`, with the file system given as data: the
   * `use_cache` flag and the in-place `site_url` fix-up of the source. A
   * failed cache write only warns, so `written` is what it tries to write.
   */
  method LoadApiConfig(yamlIsFile: bool, yamlMtime: int, yaml: YamlFile, cache: Option<CacheFile>)
    returns (result: Result<Record, ApiConfigError>, written: Option<Record>)
    ensures (result, written) == ApiConfigOf(yamlIsFile, yamlMtime, yaml, cache)
  {
    written := None;
    if !yamlIsFile {
      return Err(YamlMissing), None;
    }
    var data := VNull;
    var useCache := false;
    if cache.Some? && cache.value.mtime >= yamlMtime && cache.value.content.Some? {
      data := cache.value.content.value;
      useCache := true;
    }
    if !useCache {
      result, written := ReloadYaml(yaml);
      return;
    }
    var missing := MissingInCached(data);
    if missing.None? {
      return Err(CachedTypeError), None;
    }
    if missing.value != [] {
      result, written := ReloadYaml(yaml);
      return;
    }
    if !data.VMap? {
      return Err(CachedTypeError), None;
    }
    result := Ok(data.fields);
  }

  /** The YAML branch: load, check the required keys, fix `site_url` in place, write the cache. */
  method ReloadYaml(yaml: YamlFile) returns (result: Result<Record, ApiConfigError>, written: Option<Record>)
    ensures (result, written) == FromYaml(yaml)
  {
    var loaded := LoadYamlConfig(yaml);
    if loaded.Err? {
      return Err(YamlFailed(loaded.error)), None;
    }
    if loaded.value.None? {
      return Err(ContentNotDict), None;
    }
    var config := loaded.value.value;
    var missing := MissingRequired(config);
    if missing != [] {
      return Err(MissingKeys(missing)), None;
    }
    var url := Get(config, "site_url", VNull);
    if Truthy(url) {
      if !url.VStr? {
        return Err(SiteUrlNotText), None;
      }
      if !EndsWithSlash(url.s) {
        config := config["site_url" := VStr(url.s + "/")];
      }
    }
    result, written := Ok(config), Some(config);
  }

  /** A configuration loaded from YAML has both required keys, a `site_url` ending with '/' when set, and is what goes to the cache. */
  lemma YamlLoadShape(yaml: YamlFile)
    requires FromYaml(yaml).0.Ok?
    ensures var m := FromYaml(yaml).0.value;
      FromYaml(yaml).1 == Some(m) && "site_url" in m && "api_token" in m
      && (Truthy(m["site_url"]) ==> m["site_url"].VStr? && EndsWithSlash(m["site_url"].s))
  {
    var raw := LoadYamlConfig(yaml).value.value;
    assert MissingRequired(raw) == [];
  }

  /** A fresh, readable cache holding both keys is returned as it is, and neither the YAML file nor the cache is touched. */
  lemma FreshCacheUsed(yamlMtime: int, yaml: YamlFile, cached: Record, mtime: int)
    requires mtime >= yamlMtime && "site_url" in cached && "api_token" in cached
    ensures ApiConfigOf(true, yamlMtime, yaml, Some(CacheFile(mtime, Some(VMap(cached))))) == (Ok(cached), None)
  {
  }

  /** A cache older than the YAML file, unreadable, or lacking a required key sends the load back to the YAML file. */
  lemma StaleCacheReloads(yamlMtime: int, yaml: YamlFile, cache: Option<CacheFile>)
    requires FreshCache(cache, yamlMtime).None?
      || (FreshCache(cache, yamlMtime).value.VMap? && MissingRequired(FreshCache(cache, yamlMtime).value.fields) != [])
    ensures ApiConfigOf(true, yamlMtime, yaml, cache) == FromYaml(yaml)
  {
  }

  /** What a YAML load writes to the cache is what a later load with that (fresh) cache returns. */
  lemma CacheRoundTrip(yamlMtime: int, yaml: YamlFile, cache: Option<CacheFile>, laterYaml: YamlFile, mtime: int)
    requires ApiConfigOf(true, yamlMtime, yaml, cache).1.Some?
    requires mtime >= yamlMtime
    ensures var w := ApiConfigOf(true, yamlMtime, yaml, cache).1.value;
      ApiConfigOf(true, yamlMtime, laterYaml, Some(CacheFile(mtime, Some(VMap(w))))) == (Ok(w), None)
  {
    assert ApiConfigOf(true, yamlMtime, yaml, cache) == FromYaml(yaml);
    YamlLoadShape(yaml);
  }

  /** The `site_url` fix-up is idempotent. */
  lemma TrailingSlashIdempotent(m: Record)
    requires WithTrailingSlash(m).Ok?
    ensures WithTrailingSlash(WithTrailingSlash(m).value) == WithTrailingSlash(m)
  {
  }
}
