/**
 * The channel tool base of the legacy generation (channel_tool_base.py at
 * the repository root): the connection and update configuration loaders,
 * the AND-only channel filter, and the patch calculation
 * `_prepare_update_payload` with its dict-field, list-field and simple-field
 * comparisons.
 *
 * Python calls that may raise return an `Outcome`; which exception class is
 * raised is not modelled, every raise propagates out of the tool.
 */
module LegacyToolBase {
  import opened Wrappers
  import opened PyStrings
  import opened Values
  import opened Engines
  import opened Sublists
  import FilteringUtils
  import DataHelpers
  import ChannelToolBase
  import Vendors

  // ----- Loading the configuration files -----

  /** What `load_json_config(path)` finds: no file, text that is not JSON, a file it cannot read otherwise, or a decoded document. */
  datatype JsonFile = NoJsonFile | NotJson | UnreadableJson | JsonDocument(content: Value)

  /** The exceptions the loaders raise. */
  datatype LoadError =
    | FileNotFound
    | JsonDecodeError
    | ReadError
    | MissingKeys           // ValueError: `site_url` or `api_token` is missing
    | SectionNotDict        // ValueError: `filters` or `updates` is not a dict
    | RootTypeError         // TypeError: `in` or `[...]` on a root that does not support it
    | NoDictMethod          // AttributeError: `.get` or `.keys()` on a root or a section that is not a dict
    | SiteUrlNotText        // AttributeError: `rstrip` on a `site_url` that is not a string

  /** `load_json_config(path)`: the decoded document, every failure re-raised. */
  function JsonContent(file: JsonFile): Result<Value, LoadError>
  {
    match file
    case NoJsonFile => Err(FileNotFound)
    case NotJson => Err(JsonDecodeError)
    case UnreadableJson => Err(ReadError)
    case JsonDocument(v) => Ok(v)
  }

  /** The JSON roots `k in config` accepts: it raises TypeError on a number, a boolean or null. */
  predicate IsContainer(v: Value)
  {
    v.VList? || v.VStr? || v.VMap?
  }

  /** `s.rstrip(c)`: `s` without its trailing run of `c`. */
  function RStrip(s: string, c: char): (r: string)
    ensures |r| <= |s| && r == s[..|r|]
    ensures r == [] || r[|r| - 1] != c
    ensures forall i :: |r| <= i < |s| ==> s[i] == c
  {
    if s == [] then []
    else if s[|s| - 1] != c then s
    else
      var r := RStrip(s[..|s| - 1], c);
      assert s[..|s| - 1][..|r|] == s[..|r|];
      r
  }

  /** `site_url.rstrip('/') + '/'`. */
  function NormalizeSiteUrl(url: string): string
  {
    RStrip(url, '/') + "/"
  }

  /** A string ending with exactly one '/'. */
  predicate OneTrailingSlash(s: string)
  {
    |s| >= 1 && s[|s| - 1] == '/' && (|s| == 1 || s[|s| - 2] != '/')
  }

  /**
   * The normalised URL ends with exactly one '/', differs from the original
   * only in its trailing slashes, and normalising it again changes nothing.
   */
  lemma NormalizeSiteUrlProperties(url: string)
    ensures OneTrailingSlash(NormalizeSiteUrl(url))
    ensures RStrip(NormalizeSiteUrl(url), '/') == RStrip(url, '/')
    ensures NormalizeSiteUrl(NormalizeSiteUrl(url)) == NormalizeSiteUrl(url)
  {
    var base := RStrip(url, '/');
    var n := base + "/";
    assert n[..|n| - 1] == base;
    assert RStrip(base, '/') == base;
  }

  /** A URL without trailing slash gets one; one with a single trailing slash stays as it is. */
  lemma NormalizeSiteUrlOfPlain(url: string)
    ensures url == [] || url[|url| - 1] != '/' ==> NormalizeSiteUrl(url) == url + "/"
    ensures OneTrailingSlash(url) ==> NormalizeSiteUrl(url) == url
  {
    if OneTrailingSlash(url) {
      var base := url[..|url| - 1];
      assert RStrip(base, '/') == base;
      assert RStrip(url, '/') == base;
      assert base + "/" == url;
    }
  }

  /**
   * `_load_api_config(path)`: the document must be a dict holding `site_url`
   * and `api_token`; the returned configuration is that dict with `site_url`
   * normalised to end in exactly one '/'.
   */
  function LoadApiConfig(file: JsonFile): (r: Result<Record, LoadError>)
    ensures r.Ok? <==>
      && file.JsonDocument? && file.content.VMap?
      && "site_url" in file.content.fields && "api_token" in file.content.fields
      && file.content.fields["site_url"].VStr?
    ensures r.Ok? ==>
      && r.value.Keys == file.content.fields.Keys
      && (forall k :: k in r.value && k != "site_url" ==> r.value[k] == file.content.fields[k])
      && r.value["site_url"] == VStr(NormalizeSiteUrl(file.content.fields["site_url"].s))
      && OneTrailingSlash(r.value["site_url"].s)
    ensures file.JsonDocument? && file.content.VMap? ==>
      (r == Err(MissingKeys) <==> !("site_url" in file.content.fields && "api_token" in file.content.fields))
    ensures file.JsonDocument? && !IsContainer(file.content) ==> r == Err(RootTypeError)
  {
    match JsonContent(file)
    case Err(e) => Err(e)
    case Ok(v) =>
      if !IsContainer(v) then Err(RootTypeError)
      else if !(InContainer(VStr("site_url"), v) && InContainer(VStr("api_token"), v)) then
        Err(MissingKeys)
      else if !v.VMap? then Err(RootTypeError)
      else
        match v.fields["site_url"]
        case VStr(url) =>
          NormalizeSiteUrlProperties(url);
          Ok(v.fields["site_url" := VStr(NormalizeSiteUrl(url))])
        case _ => Err(SiteUrlNotText)
  }

  /**
   * `_load_update_config(path)`: missing sections are only warned about; a
   * `filters` or `updates` section that is present must be a dict. A list or
   * string root that holds a section name cannot be indexed by it; one that
   * holds neither fails at the closing log line, which calls
   * `config.get('filters', {})`.
   */
  function LoadUpdateConfig(file: JsonFile): (r: Result<Value, LoadError>)
    ensures r.Ok? ==> file == JsonDocument(r.value) && r.value.VMap?
    ensures r.Ok? ==>
      && ("filters" in r.value.fields ==> r.value.fields["filters"].VMap?)
      && ("updates" in r.value.fields ==> r.value.fields["updates"].VMap?)
    ensures file.JsonDocument? && file.content.VMap? ==>
      (r.Ok? <==>
         && ("filters" in file.content.fields ==> file.content.fields["filters"].VMap?)
         && ("updates" in file.content.fields ==> file.content.fields["updates"].VMap?))
    ensures file.JsonDocument? && !IsContainer(file.content) ==> r == Err(RootTypeError)
    ensures file.JsonDocument? && IsContainer(file.content) && !file.content.VMap? ==>
      (r == Err(RootTypeError) <==>
         InContainer(VStr("filters"), file.content) || InContainer(VStr("updates"), file.content))
      && (r.Err? && r.error != RootTypeError ==> r == Err(NoDictMethod))
  {
    match JsonContent(file)
    case Err(e) => Err(e)
    case Ok(v) =>
      if !IsContainer(v) then Err(RootTypeError)
      else if !v.VMap? then
        if InContainer(VStr("filters"), v) || InContainer(VStr("updates"), v) then Err(RootTypeError)
        else Err(NoDictMethod)
      else if "filters" in v.fields && !v.fields["filters"].VMap? then Err(SectionNotDict)
      else if "updates" in v.fields && !v.fields["updates"].VMap? then Err(SectionNotDict)
      else Ok(v)
  }

  // ----- Filtering -----

  /**
   * `_validate_match_mode(match_mode)`: the four modes of the current
   * generation; an unhashable mode raises TypeError, any other ValueError,
   * which the callers turn into an empty result (Returns(false) here).
   */
  function ModeAccepted(mode: Value): (r: Outcome<bool>)
    ensures r == Returns(true) <==> FilteringUtils.ValidMatchMode(mode)
    ensures r == Raises <==> !Hashable(mode)
  {
    if !Hashable(mode) then Raises else Returns(mode.VStr? && mode.s in {"any", "exact", "none", "all"})
  }

  /**
   * `_match_filter(value, filter_list, match_mode)`: an empty filter list
   * matches, a None value does not; otherwise every filter is compared as
   * `str(f)` (None included, as "None") with `str(value)`.
   */
  function MatchFilter(value: Value, filters: Value, mode: string): (r: Outcome<bool>)
    ensures !Truthy(filters) ==> r == Returns(true)
    ensures Truthy(filters) && value == VNull ==> r == Returns(false)
    ensures Truthy(filters) && value != VNull ==> (r == Raises <==> !Iterable(filters))
    ensures r.Returns? && Truthy(filters) && value != VNull ==>
      && (mode == "any" ==>
            (r.value <==> exists f :: f in FilteringUtils.Items(filters) && Occurs(PyStr(f), PyStr(value))))
      && (mode == "exact" ==> (r.value <==> exists f :: f in FilteringUtils.Items(filters) && PyStr(f) == PyStr(value)))
      && (mode == "none" ==>
            (r.value <==> forall f :: f in FilteringUtils.Items(filters) ==> !Occurs(PyStr(f), PyStr(value))))
      && (mode != "any" && mode != "exact" && mode != "none" ==> !r.value)
  {
    if !Truthy(filters) then Returns(true)
    else if value == VNull then Returns(false)
    else if !Iterable(filters) then Raises
    else
      var text := PyStr(value);
      var items := FilteringUtils.Items(filters);
      if mode == "any" then Returns(exists f | f in items :: Contains(text, PyStr(f)))
      else if mode == "exact" then Returns(exists f | f in items :: PyStr(f) == text)
      else if mode == "none" then Returns(forall f | f in items :: !Contains(text, PyStr(f)))
      else Returns(false)
  }

  /**
   * Where no filter is None, the legacy `_match_filter` computes what the
   * current generation's `match_filter` computes, raises included; it
   * differs only in reading a None filter as the text "None".
   */
  lemma MatchFilterAgreesWithCurrent(value: Value, filters: Value, mode: string)
    requires VNull !in FilteringUtils.Items(filters)
    ensures MatchFilter(value, filters, mode) == FilteringUtils.MatchFilter(value, filters, mode)
  {
    if Truthy(filters) && value != VNull && Iterable(filters) {
      ItemsOfTruthy(filters);
      StrsOfNonNull(FilteringUtils.Items(filters));
      if mode == "any" || mode == "none" {
        LooseModesAgree(value, filters, mode);
      }
    }
  }

  /** The `any` and `none` cases of `MatchFilterAgreesWithCurrent`. */
  lemma LooseModesAgree(value: Value, filters: Value, mode: string)
    requires Truthy(filters) && Iterable(filters) && value != VNull
    requires VNull !in FilteringUtils.Items(filters)
    requires mode == "any" || mode == "none"
    ensures MatchFilter(value, filters, mode) == FilteringUtils.MatchFilter(value, filters, mode)
  {
    ItemsOfTruthy(filters);
    StrsOfNonNull(FilteringUtils.Items(filters));
    AnyStrsOf(FilteringUtils.Items(filters), PyStr(value));
  }

  /** Without Nones, `str(f)` of every item is kept and nothing else is. */
  lemma StrsOfNonNull(items: seq<Value>)
    requires VNull !in items
    ensures items != [] ==> FilteringUtils.StrsOf(items) != []
    ensures forall f :: f in items ==> PyStr(f) in FilteringUtils.StrsOf(items)
  {
  }

  /** Some item's text occurs in `text` exactly when some kept string does. */
  lemma AnyStrsOf(items: seq<Value>, text: string)
    requires VNull !in items
    ensures (exists f :: f in items && Occurs(PyStr(f), text))
      <==> (exists t :: t in FilteringUtils.StrsOf(items) && Occurs(t, text))
  {
    var strs := FilteringUtils.StrsOf(items);
    if exists t :: t in strs && Occurs(t, text) {
      var t :| t in strs && Occurs(t, text);
      var f :| f in items && f != VNull && PyStr(f) == t;
    }
    StrsOfNonNull(items);
  }

  /** A truthy iterable filter value yields at least one item. */
  lemma ItemsOfTruthy(filters: Value)
    requires Truthy(filters) && Iterable(filters)
    ensures FilteringUtils.Items(filters) != []
  {
    var items := FilteringUtils.Items(filters);
    match filters
    case VList(xs) =>
    case VStr(s) => assert items[0] == VStr([s[0]]);
    case VMap(m) =>
      assert |SortedSeq(m.Keys)| == |m.Keys| > 0 by {
        assert m.Keys != {};
      }
      assert items[0] == VStr(SortedSeq(m.Keys)[0]);
  }

  /** `[x.strip() for x in text.split(',') if x.strip()]`. */
  function CommaList(text: string): seq<string>
  {
    Vendors.StrippedNonBlank(Split(text, ','))
  }

  /** The elements of `StrippedNonBlank(xs)` are the trimmed non-blank pieces of `xs`. */
  lemma {:induction false} StrippedNonBlankMembers(xs: seq<string>)
    ensures forall x :: x in Vendors.StrippedNonBlank(xs) <==> exists p :: p in xs && Strip(p) != "" && Strip(p) == x
    decreases |xs|
  {
    if xs != [] {
      StrippedNonBlankMembers(xs[1..]);
      assert forall p :: p in xs <==> p == xs[0] || p in xs[1..];
    }
  }

  /** The comma list of a text holds the same names as the current generation's normalised set of it. */
  lemma CommaListIsCommaPieces(text: string)
    ensures forall x :: x in CommaList(text) <==> x in DataHelpers.CommaPieces(text)
  {
    StrippedNonBlankMembers(Split(text, ','));
  }

  /** `any(f in names for f in filters)` over a truthy filter value. */
  function AnyListed(filters: Value, names: seq<string>): (r: Outcome<bool>)
    ensures r == Raises <==> !Iterable(filters)
  {
    if !Iterable(filters) then Raises
    else Returns(exists f | f in FilteringUtils.Items(filters) :: f.VStr? && f.s in names)
  }

  /** One guard of `_channel_matches_filters`: a set category runs its test; a failed test ends the check with False, a raise propagates. */
  function Guard(isSet: bool, test: Outcome<bool>, rest: Outcome<bool>): Outcome<bool>
  {
    if !isSet then rest
    else
      match test
      case Raises => Raises
      case Returns(ok) => if ok then rest else Returns(false)
  }

  /** The test of each category, in the order the source runs them: name, group, models, tag, type. */
  function CategoryTests(ch: Record, cfg: Record): seq<(bool, Outcome<bool>)>
  {
    var nameFilters := FilteringUtils.FilterValue(cfg, "name_filters");
    var groupFilters := FilteringUtils.FilterValue(cfg, "group_filters");
    var modelFilters := FilteringUtils.FilterValue(cfg, "model_filters");
    var tagFilters := FilteringUtils.FilterValue(cfg, "tag_filters");
    var typeFilters := FilteringUtils.FilterValue(cfg, "type_filters");
    [ (Truthy(nameFilters), MatchFilter(Get(ch, "name", VStr("")), nameFilters, "any")),
      (Truthy(groupFilters), AnyListed(groupFilters, CommaList(PyStr(Get(ch, "group", VStr("")))))),
      (Truthy(modelFilters), AnyListed(modelFilters, CommaList(PyStr(Get(ch, "models", VStr("")))))),
      (Truthy(tagFilters), AnyListed(tagFilters, CommaList(PyStr(Get(ch, "tag", VStr("")))))),
      (Truthy(typeFilters), Membership(Get(ch, "type", VNull), typeFilters)) ]
  }

  /** The guards of the tests, in order. */
  function Guards(tests: seq<(bool, Outcome<bool>)>): Outcome<bool>
  {
    if tests == [] then Returns(true) else Guard(tests[0].0, tests[0].1, Guards(tests[1..]))
  }

  /**
   * `_channel_matches_filters(channel, filters_config)`: a non-dict gives
   * False; otherwise the categories run in order, each set one with the
   * `any` semantics, so a dict matches exactly when every set category
   * passes (the name contains a name filter, the comma pieces of the group,
   * models and tag each hold one of their filters, the type is among the
   * type filters), and the call raises at the first set category whose test
   * raises after all earlier ones passed.
   */
  function ChannelMatches(channel: Value, cfg: Record): (r: Outcome<bool>)
    ensures !channel.VMap? ==> r == Returns(false)
    ensures channel.VMap? ==>
      (r == Returns(true) <==> forall i :: 0 <= i < 5 ==> Passes(CategoryTests(channel.fields, cfg)[i]))
    ensures channel.VMap? ==>
      var tests := CategoryTests(channel.fields, cfg);
      (r == Raises <==> exists k :: 0 <= k < 5 && tests[k].0 && tests[k].1 == Raises && forall i :: 0 <= i < k ==> Passes(tests[i]))
  {
    if !channel.VMap? then Returns(false)
    else
      GuardsAreConjunction(CategoryTests(channel.fields, cfg));
      Guards(CategoryTests(channel.fields, cfg))
  }

  /** A category that is not set, or whose test returns True. */
  predicate Passes(test: (bool, Outcome<bool>))
  {
    !test.0 || test.1 == Returns(true)
  }

  /**
   * The chain of guards is an AND: it returns True exactly when every
   * category passes, and it raises exactly when some set category raises
   * after all the set ones before it passed.
   */
  lemma {:induction false} GuardsAreConjunction(tests: seq<(bool, Outcome<bool>)>)
    ensures Guards(tests) == Returns(true) <==> forall i :: 0 <= i < |tests| ==> Passes(tests[i])
    ensures Guards(tests) == Raises <==>
      exists k :: 0 <= k < |tests| && tests[k].0 && tests[k].1 == Raises && forall i :: 0 <= i < k ==> Passes(tests[i])
    decreases |tests|
  {
    if tests != [] {
      GuardsAreConjunction(tests[1..]);
      assert forall i :: 1 <= i < |tests| ==> tests[i] == tests[1..][i - 1];
      if Guards(tests) == Raises && !(tests[0].0 && tests[0].1 == Raises) {
        var k :| 0 <= k < |tests[1..]| && tests[1..][k].0 && tests[1..][k].1 == Raises
          && forall i :: 0 <= i < k ==> Passes(tests[1..][i]);
        assert forall i :: 0 <= i < k + 1 ==> Passes(tests[i]);
      }
      if exists k :: 0 <= k < |tests| && tests[k].0 && tests[k].1 == Raises && forall i :: 0 <= i < k ==> Passes(tests[i]) {
        var k :| 0 <= k < |tests| && tests[k].0 && tests[k].1 == Raises && forall i :: 0 <= i < k ==> Passes(tests[i]);
        if k > 0 {
          assert Passes(tests[0]);
          assert tests[1..][k - 1].0 && tests[1..][k - 1].1 == Raises && forall i :: 0 <= i < k - 1 ==> Passes(tests[1..][i]);
        }
      }
    }
  }

  /**
   * For a group that is neither None, nor a list, nor blank text, and group
   * filters without lists or dicts among them, the legacy group test is the
   * current generation's group inclusion test, raises included.
   */
  lemma GroupTestAgreesWithCurrent(ch: Record, cfg: Record)
    requires var g := Get(ch, "group", VStr("")); !g.VNull? && !g.VList? && Strip(PyStr(g)) != ""
    requires forall f :: f in FilteringUtils.Items(FilteringUtils.FilterValue(cfg, "group_filters")) ==> Hashable(f)
    ensures CategoryTests(ch, cfg)[1].1 == FilteringUtils.GroupIncluded(ch, cfg)
  {
    var g := Get(ch, "group", VStr(""));
    CommaListIsCommaPieces(PyStr(g));
    assert DataHelpers.NormalizeToSet(g) == DataHelpers.CommaPieces(PyStr(g));
  }

  /** `[c for c in channel_list if self._channel_matches_filters(c, filters)]`; the first raise propagates. */
  function Comprehension(channels: seq<Value>, cfg: Record): (r: Outcome<seq<Value>>)
    ensures r.Returns? ==> r.value == Select(channels, c => ChannelMatches(c, cfg) == Returns(true))
    ensures r == Raises <==> exists c :: c in channels && ChannelMatches(c, cfg) == Raises
    decreases |channels|
  {
    if channels == [] then Returns([])
    else
      var rest := Comprehension(channels[1..], cfg);
      assert forall c :: c in channels <==> c == channels[0] || c in channels[1..];
      match ChannelMatches(channels[0], cfg)
      case Raises => Raises
      case Returns(keep) =>
        match rest
        case Raises => Raises
        case Returns(tail) => Returns((if keep then [channels[0]] else []) + tail)
  }

  /**
   * `filter_channels(channel_list)`: no (or an empty) update configuration, an
   * empty list or an invalid `match_mode` give []; otherwise the channels
   * that match, in their original order. A configuration that has no `.get`
   * and an unhashable mode raise.
   */
  function FilterChannels(updateConfig: Option<Value>, channels: seq<Value>): (r: Outcome<seq<Value>>)
    ensures updateConfig.None? || !Truthy(updateConfig.value) || channels == [] ==> r == Returns([])
    ensures r.Returns? ==> IsSublist(r.value, channels)
  {
    if updateConfig.None? || !Truthy(updateConfig.value) then Returns([])
    else if channels == [] then Returns([])
    else if !updateConfig.value.VMap? then Raises
    else
      var filters := Get(updateConfig.value.fields, "filters", VMap(map[]));
      if !filters.VMap? then Raises
      else
        match ModeAccepted(Get(filters.fields, "match_mode", VStr("any")))
        case Raises => Raises
        case Returns(valid) =>
          if !valid then Returns([])
          else
            SelectIsSublist(channels, c => ChannelMatches(c, filters.fields) == Returns(true));
            Comprehension(channels, filters.fields)
  }

  /**
   * With a loaded update configuration and a valid mode, a channel is kept
   * exactly when it is in the list and matches, unless some channel raises.
   */
  lemma FilterChannelsMembers(updateConfig: Record, channels: seq<Value>, c: Value)
    requires var filters := Get(updateConfig, "filters", VMap(map[]));
      filters.VMap? && FilteringUtils.ValidMatchMode(Get(filters.fields, "match_mode", VStr("any")))
    requires updateConfig != map[] && channels != []
    ensures var filters := Get(updateConfig, "filters", VMap(map[])).fields;
      var r := FilterChannels(Some(VMap(updateConfig)), channels);
      && (r == Raises <==> exists d :: d in channels && ChannelMatches(d, filters) == Raises)
      && (r.Returns? ==> (c in r.value <==> c in channels && ChannelMatches(c, filters) == Returns(true)))
  {
    var filters := Get(updateConfig, "filters", VMap(map[])).fields;
    FilterChannelsIsComprehension(updateConfig, channels);
    var q := Comprehension(channels, filters);
    if q.Returns? {
      assert c in q.value <==> c in channels && ChannelMatches(c, filters) == Returns(true);
    }
  }

  lemma FilterChannelsIsComprehension(updateConfig: Record, channels: seq<Value>)
    requires var filters := Get(updateConfig, "filters", VMap(map[]));
      filters.VMap? && FilteringUtils.ValidMatchMode(Get(filters.fields, "match_mode", VStr("any")))
    requires updateConfig != map[] && channels != []
    ensures FilterChannels(Some(VMap(updateConfig)), channels)
      == Comprehension(channels, Get(updateConfig, "filters", VMap(map[])).fields)
  {
    var filters := Get(updateConfig, "filters", VMap(map[]));
    var accepted := ModeAccepted(Get(filters.fields, "match_mode", VStr("any")));
    assert accepted == Returns(true);
    assert Truthy(VMap(updateConfig));
  }

  /** An invalid (hashable) `match_mode` gives [] whatever the channels; "all" is valid here. */
  lemma FilterChannelsInvalidMode(updateConfig: Record, channels: seq<Value>)
    requires var filters := Get(updateConfig, "filters", VMap(map[]));
      filters.VMap? && Hashable(Get(filters.fields, "match_mode", VStr("any")))
      && !FilteringUtils.ValidMatchMode(Get(filters.fields, "match_mode", VStr("any")))
    ensures FilterChannels(Some(VMap(updateConfig)), channels) == Returns([])
  {
  }

  // ----- The patch calculation -----

  /** The fields whose values are JSON objects, kept as text or as a dict. */
  predicate IsDictField(field: string)
  {
    field in {"model_mapping", "status_code_mapping", "setting"}
  }

  /** The fields whose values are comma-separated lists. */
  predicate IsListField(field: string)
  {
    field in {"models", "group", "tag"}
  }

  /**
   * The dict the dict-field comparison reads from a value: a non-blank string
   * decoded as JSON (VNull when it is not JSON, or decodes to null), a dict as
   * it is, VNull for anything else. The codec stands for `json.loads` and
   * `json.dumps` with their default settings.
   */
  function DictOf(v: Value, json: JsonCodec): Value
  {
    if v.VStr? && Strip(v.s) != "" then
      match json.loads(v.s)
      case Some(d) => d
      case None => VNull
    else if v.VMap? then v
    else VNull
  }

  /**
   * A dict field: when the rule value reads as a dict, the field changes when
   * the current value does not read as an equal one, and becomes the dict's
   * JSON text; otherwise `str()` of both are compared and the field becomes
   * `str(new_value)`.
   */
  function DictFieldChange(current: Value, newValue: Value, json: JsonCodec): (r: Option<Value>)
    ensures r.Some? ==> r.value.VStr?
    ensures DictOf(newValue, json) != VNull ==> (r.None? <==> PyEq(DictOf(current, json), DictOf(newValue, json)))
    ensures DictOf(newValue, json) != VNull && r.Some? ==> r.value == VStr(json.dumps(DictOf(newValue, json)))
    ensures DictOf(newValue, json) == VNull ==> (r.None? <==> PyStr(current) == PyStr(newValue))
  {
    var newDict := DictOf(newValue, json);
    if newDict != VNull then
      if !PyEq(DictOf(current, json), newDict) then Some(VStr(json.dumps(newDict))) else None
    else if PyStr(current) != PyStr(newValue) then Some(VStr(PyStr(newValue)))
    else None
  }

  /** `[str(x) for x in items]`. */
  function Texts(items: seq<Value>): (r: seq<string>)
    ensures |r| == |items| && forall i :: 0 <= i < |items| ==> r[i] == PyStr(items[i])
  {
    seq(|items|, i requires 0 <= i < |items| => PyStr(items[i]))
  }

  /** The names of a list-field rule value: a list's stripped non-blank items, a string's comma pieces; None for any other value. */
  function RuleNames(newValue: Value): Option<seq<string>>
  {
    match newValue
    case VList(items) => Some(Vendors.StrippedNonBlank(Texts(items)))
    case VStr(s) => Some(CommaList(s))
    case _ => None
  }

  /**
   * A list field: the sorted names of `str(current_value)` and of the rule
   * value are compared, and a change writes the sorted names joined with ','.
   * A rule value that is neither a list nor a string skips the field.
   */
  function ListFieldChange(current: Value, newValue: Value): (r: Option<Value>)
    ensures RuleNames(newValue).None? ==> r.None?
    ensures r.Some? ==>
      var names := SortStrings(RuleNames(newValue).value);
      && r.value == VStr(Join(",", names))
      && multiset(names) == multiset(RuleNames(newValue).value)
      && multiset(CommaList(PyStr(current))) != multiset(names)
    ensures RuleNames(newValue).Some? && r.None? ==>
      multiset(CommaList(PyStr(current))) == multiset(RuleNames(newValue).value)
  {
    match RuleNames(newValue)
    case None => None
    case Some(names) =>
      var currentNames := SortStrings(CommaList(PyStr(current)));
      var sortedNames := SortStrings(names);
      if currentNames != sortedNames then
        assert multiset(CommaList(PyStr(current))) != multiset(names) by {
          if multiset(CommaList(PyStr(current))) == multiset(names) {
            SortedUnique(currentNames, sortedNames);
          }
        }
        Some(VStr(Join(",", sortedNames)))
      else None
  }

  /** The tail of a sorted sequence is sorted. */
  lemma SortedTail(a: seq<string>)
    requires Sorted(a) && a != []
    ensures Sorted(a[1..])
  {
    forall i, j | 0 <= i < j < |a| - 1 ensures LexLeq(a[1..][i], a[1..][j]) {
      assert a[1..][i] == a[i + 1] && a[1..][j] == a[j + 1];
    }
  }

  /** Two non-empty sorted sequences with the same elements start with the same element. */
  lemma SortedSameHead(a: seq<string>, b: seq<string>)
    requires Sorted(a) && Sorted(b) && multiset(a) == multiset(b) && a != []
    ensures b != [] && a[0] == b[0]
  {
    assert a[0] in multiset(b);
    assert b != [];
    if a[0] != b[0] {
      assert b[0] in multiset(a);
      var i :| 0 <= i < |b| && b[i] == a[0];
      var j :| 0 <= j < |a| && a[j] == b[0];
      assert i > 0 && j > 0;
      assert LexLeq(b[0], b[i]) && LexLeq(a[0], a[j]);
      LexAntisymmetric(a[0], b[0]);
    }
  }

  /** Two sorted sequences with the same elements are equal. */
  lemma {:induction false} SortedUnique(a: seq<string>, b: seq<string>)
    requires Sorted(a) && Sorted(b) && multiset(a) == multiset(b)
    ensures a == b
    decreases |a|
  {
    if a == [] {
      assert |multiset(b)| == 0;
    } else {
      SortedSameHead(a, b);
      assert a == [a[0]] + a[1..] && b == [b[0]] + b[1..];
      assert multiset(a[1..]) == multiset(a) - multiset{a[0]};
      assert multiset(b[1..]) == multiset(b) - multiset{b[0]};
      SortedTail(a);
      SortedTail(b);
      SortedUnique(a[1..], b[1..]);
    }
  }

  /**
   * `type(new_value)(current_value)`, the conversion the simple-field
   * comparison tries: None stands for the exception of a failed conversion.
   */
  type Convert = (Value, Value) -> Option<Value>

  /** What the conversion is known to do for the targets whose conversion never fails or always fails: `str()`, `bool()` and `NoneType()`. */
  ghost predicate ConvertsLikePython(convert: Convert)
  {
    forall newValue: Value, current: Value {:trigger convert(newValue, current)} ::
      && (newValue.VStr? ==> convert(newValue, current) == Some(VStr(PyStr(current))))
      && (newValue.VBool? ==> convert(newValue, current) == Some(VBool(Truthy(current))))
      && (newValue.VNull? ==> convert(newValue, current).None?)
  }

  /**
   * A simple field: a None current value changes unless the rule value is
   * None too; otherwise the current value converted to the rule value's type
   * is compared with `!=`, and when the conversion fails `str()` of both are.
   * A change writes the rule value as it is.
   */
  function SimpleFieldChange(current: Value, newValue: Value, convert: Convert): (r: Option<Value>)
    ensures r.Some? ==> r.value == newValue
    ensures current == VNull ==> (r.None? <==> newValue == VNull)
    ensures current != VNull && convert(newValue, current).None? ==> (r.None? <==> PyStr(current) == PyStr(newValue))
  {
    if current == VNull then (if newValue != VNull then Some(newValue) else None)
    else
      match convert(newValue, current)
      case Some(typed) => if !PyEq(typed, newValue) then Some(newValue) else None
      case None => if PyStr(current) != PyStr(newValue) then Some(newValue) else None
  }

  /** Under a faithful conversion, a text rule value changes a field that is set exactly when the field's `str()` differs from it. */
  lemma TextRuleChangesOnDifferentText(current: Value, text: string, convert: Convert)
    requires ConvertsLikePython(convert) && current != VNull
    ensures SimpleFieldChange(current, VStr(text), convert) == if PyStr(current) != text then Some(VStr(text)) else None
  {
    assert convert(VStr(text), current) == Some(VStr(PyStr(current)));
  }

  /** What one rule does to its field: the new value when the field changes, None otherwise. */
  function FieldChange(field: string, rule: Record, original: Record, json: JsonCodec, convert: Convert): (r: Option<Value>)
    ensures !Truthy(Get(rule, "enabled", VNull)) ==> r.None?
    ensures IsDictField(field) && r.Some? ==> r.value.VStr?
    ensures !IsDictField(field) && !IsListField(field) && r.Some? ==> r.value == Get(rule, "value", VNull)
  {
    if !Truthy(Get(rule, "enabled", VNull)) then None
    else
      var newValue := Get(rule, "value", VNull);
      var current := Get(original, field, VNull);
      if IsDictField(field) then DictFieldChange(current, newValue, json)
      else if IsListField(field) then ListFieldChange(current, newValue)
      else SimpleFieldChange(current, newValue, convert)
  }

  /** The outcome of the rule of each field; a field without a dict rule has none. */
  function RuleChanges(updates: map<string, Value>, original: Record, json: JsonCodec, convert: Convert): string -> Option<Value>
  {
    f => if f in updates && updates[f].VMap? then FieldChange(f, updates[f].fields, original, json, convert) else None
  }

  /**
   * The result `_prepare_update_payload(original_channel_data)` specifies:
   * (None, {}) without an update configuration, without `updates`, or when
   * nothing changes; a rule that is not a dict raises (its `.get`); otherwise
   * a copy of the whole original channel with the changed fields replaced,
   * and the names of those fields.
   */
  function PreparedUpdate(updateConfig: Option<Value>, original: Record, json: JsonCodec, convert: Convert)
    : (r: Outcome<(Option<Record>, set<string>)>)
    ensures r.Returns? && r.value.0.None? ==> r.value.1 == {}
    ensures r.Returns? && r.value.0.Some? ==>
      && r.value.1 != {}
      && r.value.0.value.Keys == original.Keys + r.value.1
      && forall k :: k in original && k !in r.value.1 ==> r.value.0.value[k] == original[k]
  {
    if updateConfig.None? || !Truthy(updateConfig.value) then Returns((None, {}))
    else if !updateConfig.value.VMap? then Raises
    else
      var updates := Get(updateConfig.value.fields, "updates", VMap(map[]));
      if !Truthy(updates) then Returns((None, {}))
      else if !updates.VMap? then Raises
      else if exists f | f in updates.fields :: !updates.fields[f].VMap? then Raises
      else
        var changes := ChannelToolBase.Collect(updates.fields.Keys, RuleChanges(updates.fields, original, json, convert));
        if changes == map[] then Returns((None, {}))
        else Returns((Some(original + changes), changes.Keys))
  }

  /**
   * The loop of `_prepare_update_payload` over the rules: writes each changed
   * field into the copy of the channel and records its name; stops with a
   * raise at a rule that is not a dict.
   */
  method ApplyRules(updates: map<string, Value>, original: Record, json: JsonCodec, convert: Convert)
    returns (raised: bool, payload: Record, updatedFields: set<string>)
    ensures raised <==> exists f | f in updates :: !updates[f].VMap?
    ensures !raised ==>
      var changes := ChannelToolBase.Collect(updates.Keys, RuleChanges(updates, original, json, convert));
      payload == original + changes && updatedFields == changes.Keys
  {
    ghost var outcome := RuleChanges(updates, original, json, convert);
    payload := original;
    updatedFields := {};
    var todo := updates.Keys;
    ghost var done: set<string> := {};
    while todo != {}
      invariant todo + done == updates.Keys && todo !! done
      invariant forall f | f in done :: updates[f].VMap?
      invariant payload == original + ChannelToolBase.Collect(done, outcome)
      invariant updatedFields == ChannelToolBase.Collect(done, outcome).Keys
      decreases todo
    {
      var field :| field in todo;
      var rule := updates[field];
      if !rule.VMap? {
        return true, payload, updatedFields;
      }
      var change := FieldChange(field, rule.fields, original, json, convert);
      ChannelToolBase.CollectStep(done, field, outcome);
      if change.Some? {
        ChannelToolBase.MergeThenUpdate(original, ChannelToolBase.Collect(done, outcome), field, change.value);
        payload := payload[field := change.value];
        updatedFields := updatedFields + {field};
      }
      todo := todo - {field};
      done := done + {field};
    }
    raised := false;
  }

  /**
   * `_prepare_update_payload(original_channel_data)`: without rules there is
   * nothing to do; otherwise the rules are applied to a copy of the channel,
   * and the copy is returned with the changed fields' names when there is one.
   */
  method PrepareUpdatePayload(updateConfig: Option<Value>, original: Record, json: JsonCodec, convert: Convert)
    returns (r: Outcome<(Option<Record>, set<string>)>)
    ensures r == PreparedUpdate(updateConfig, original, json, convert)
  {
    if updateConfig.None? || !Truthy(updateConfig.value) {
      return Returns((None, {}));
    }
    if !updateConfig.value.VMap? {
      return Raises;
    }
    var updates := Get(updateConfig.value.fields, "updates", VMap(map[]));
    if !Truthy(updates) {
      return Returns((None, {}));
    }
    if !updates.VMap? {
      return Raises;
    }
    var raised, payload, updatedFields := ApplyRules(updates.fields, original, json, convert);
    if raised {
      return Raises;
    }
    if updatedFields == {} {
      return Returns((None, {}));
    }
    return Returns((Some(payload), updatedFields));
  }
}
