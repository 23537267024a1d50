# oneapi_channel_tool: a verified model of the channel reconciliation engine

oneapi_channel_tool manages the "channels" of One API style gateways (New API and
VoAPI sites). A channel is a JSON record with an id, a name, a type, comma-joined
`models`/`group`/`tag` lists, JSON-valued dictionaries such as `model_mapping`,
and simple fields such as `priority` or `status`. The tool reads an update
configuration (filters plus per-field rules), selects the matching channels,
computes for each one the minimal update payload, and sends only the fields that
really change. It keeps an undo snapshot of every record it touches.

This project models that engine in Dafny and proves properties of the model. It
covers two generations.

**Current generation**
- Normalisation (`DataHelpers`): `normalize_to_set` and `normalize_to_dict`.
- Filtering (`FilteringUtils`, `ChannelToolBase`): `match_filter`, `channel_matches_filters` and `filter_channels`.
- Configuration loading and validation: `ConfigLoaders`, and `ConfigUtils` for the script configuration and the connection-file listing.
- Payload preparation with its six modes and change detection (`ChannelToolBase`, `UpdatePayload`, `PatchProperties`).
- The vendor formatters and the channel-test status classification (`Vendors`). This is one datatype `Vendor = NewApi | VoApi` with dispatch functions.
- The single-site pipeline and the test-and-enable run (`SingleSiteHandler`, `SingleSiteProps`).
- The cross-site copy and compare actions and their handler pipeline (`CrossSiteKeys`, `CrossSiteActions`, `CrossSiteProps`, `CrossSiteHandler`, `CrossSiteRunProps`).
- Undo-file naming, timestamps, the undo summary, the snapshot and restore (`Timestamps`, `UndoUtils`, `UndoProps`).

**Legacy generation**
- The root `channel_tool_base.py` (`LegacyToolBase`).
- The root `oneapi_channel_tool.py` (`LegacyOneApi`, with a class `AppConfig` for its class-level configuration fields).
- Their properties are in `LegacyProps`.

**How the model represents the program**
- Python values are the datatype `Values.Value`: None, str, int, bool, list and dict.
- Python's `==`, `str()`, `int()`, `strip()`, `split(',')`, `sorted()` on strings and truthiness are written out in `Values` and `PyStrings`.
- Everything the program gets from outside is an input:
  - file contents and modification times;
  - JSON, YAML and regex engines;
  - the clock;
  - listings, detail fetches and update results from the HTTP API;
  - answers to prompts.
- The engines are function-typed parameters (`Engines`). The laws a proof relies on, such as `json.loads(json.dumps(d)) == d`, are stated as predicates and required explicitly.
- Loops that build plans, payloads, counters and deletion lists are methods with invariants. Each is proved against a specification function, and the lemmas are about those functions.

## Model

| member | source | states |
|---|---|---|
| Values.PyStr | oneapi_tool_utils/data_helpers.py:14 | `str()` of a text is the text itself |
| Values.PyInt | oneapi_tool_utils/filtering_utils.py:59-60 | `int()` of a number is its value, of a text its parsed decimal, and None, lists and dicts have none |
| Values.PyEqReflexive | oneapi_tool_utils/channel_tool_base.py:845-859 | Python's `==` holds between a value and itself |
| Values.PyEqSymmetric | oneapi_tool_utils/channel_tool_base.py:845-859 | Python's `==` is symmetric |
| Values.PyEqTransitive | oneapi_tool_utils/channel_tool_base.py:845-859 | Python's `==` is transitive |
| PyStrings.StripProperties | oneapi_tool_utils/data_helpers.py:14-19 | `strip()` leaves no edge whitespace, and is empty exactly for a blank text |
| PyStrings.StripIdempotent | oneapi_tool_utils/data_helpers.py:14-19 | stripping twice is stripping once |
| PyStrings.Lower | oneapi_tool_utils/voapi_channel_tool.py:448 | `lower()` maps each character on its own and keeps the length |
| PyStrings.JoinSplit | oneapi_tool_utils/newapi_channel_tool.py:272 | joining the pieces of a split by its separator gives the text back |
| PyStrings.SplitJoin | oneapi_tool_utils/newapi_channel_tool.py:272 | splitting a join of separator-free pieces gives the pieces back |
| PyStrings.SplitFree | oneapi_tool_utils/data_helpers.py:19 | a text without the separator splits into itself alone |
| PyStrings.SortStrings | channel_tool_base.py:319-324 | `sorted()` of a list of texts is sorted and a permutation of it |
| PyStrings.SortedSeq | oneapi_tool_utils/newapi_channel_tool.py:272 | `sorted()` of a set of texts lists each element once, in strictly increasing order |
| PyStrings.ParseIntToString | oneapi_tool_utils/filtering_utils.py:59-60 | `int(str(i))` is `i` |
| DataHelpers.NormalizeToSet | oneapi_tool_utils/data_helpers.py:8-28 | every element of the normalised set is non-empty and equal to its own `strip()` |
| DataHelpers.NormalizeToSetBlank | oneapi_tool_utils/data_helpers.py:10-17 | None and a blank string normalise to the empty set |
| DataHelpers.NormalizeToSetOfString | oneapi_tool_utils/data_helpers.py:15-19 | for a string, a name is in the set exactly when it is the non-empty `strip()` of some comma piece |
| DataHelpers.NormalizeToSetCommaFree | oneapi_tool_utils/data_helpers.py:15-19 | no element normalised from a string holds a comma |
| DataHelpers.NormalizeToSetOfList | oneapi_tool_utils/data_helpers.py:12-14 | for a list, a name is in the set exactly when it is the stripped non-blank text of a non-None item, never split at commas |
| DataHelpers.NormalizeJoinedSet | oneapi_tool_utils/data_helpers.py:15-19 | round trip: a set of trimmed, non-empty, comma-free names, sorted and joined with ',', normalises back to itself |
| DataHelpers.NormalizeToDict | oneapi_tool_utils/data_helpers.py:30-52 | a dict is returned as it is; None, blank text and every non-text non-dict give {}; non-blank text that decodes to a JSON object gives that object, and a non-empty result from text is always what the text decodes to |
| DataHelpers.NormalizeToDictIdempotent | oneapi_tool_utils/data_helpers.py:34-35 | normalising the result again changes nothing |
| DataHelpers.NormalizeToDictOfJson | oneapi_tool_utils/data_helpers.py:36-43 | with a lawful JSON codec, the JSON text of a dict normalises back to that dict |
| DataHelpers.NormalizeToDictNotObject | oneapi_tool_utils/data_helpers.py:36-49 | text that is not JSON, or decodes to something other than an object, gives {} |
| FilteringUtils.ModeAccepted | oneapi_tool_utils/filtering_utils.py:8-13 | `validate_match_mode` accepts exactly the four mode texts, raises ValueError for any other hashable value, and raises TypeError exactly for an unhashable one (a list or dict tested against a set) |
| FilteringUtils.MatchModeOf | oneapi_tool_utils/filtering_utils.py:8-12 | the decoded mode is `all`, `any`, `exact` or `none` exactly for those texts, and invalid exactly when `validate_match_mode` rejects the value |
| FilteringUtils.MatchFilter | oneapi_tool_utils/filtering_utils.py:15-44 | a falsy filter list matches; None never matches a truthy one; a truthy filter that cannot be iterated raises exactly when the value is not None; a list holding only Nones matches; `any` holds iff some filter occurs in `str(value)`, `exact` iff `str(value)` is one of the filters, `none` iff no filter occurs in it; any other mode fails |
| FilteringUtils.AnyItemIn | oneapi_tool_utils/filtering_utils.py:112 | `any(g in names for g in items)`: when it returns, true iff some item is a listed name; it returns whenever every item is hashable |
| FilteringUtils.AnyItemInRaises | oneapi_tool_utils/filtering_utils.py:112 | the scan raises TypeError exactly when an unhashable item comes before every listed name |
| FilteringUtils.AnyIn | oneapi_tool_utils/filtering_utils.py:112-128 | an exclusion or inclusion list that cannot be iterated raises; an iterable one of hashable items returns, true iff one of its items is in the channel's set or dict keys |
| FilteringUtils.ChannelMatchesFilters | oneapi_tool_utils/filtering_utils.py:46-175 | a non-dict record never matches; a decided id or key filter is the answer; otherwise a raise in the exclusion checks escapes and a matching exclusion rejects |
| FilteringUtils.NoneNegatesAny | oneapi_tool_utils/filtering_utils.py:33-41 | for a value and an iterable filter with some filter text, both modes return and `none` is exactly the negation of `any` |
| FilteringUtils.ExactImpliesAny | oneapi_tool_utils/filtering_utils.py:33-38 | a value that matches in `exact` mode also matches in `any` mode |
| FilteringUtils.IdFiltersDecide | oneapi_tool_utils/filtering_utils.py:55-65 | a non-empty `id_filters` list alone decides: the channel matches iff its id converts with `int()` and is among the converted filters, and any other criterion is ignored |
| FilteringUtils.IdFiltersUnconvertible | oneapi_tool_utils/filtering_utils.py:57-65 | one `id_filters` entry that `int()` rejects makes every channel fail |
| FilteringUtils.IdDecides | oneapi_tool_utils/filtering_utils.py:68-77 | without a usable `id_filters`, a non-None `id` decides by integer equality, or by raw `==` when a conversion fails |
| FilteringUtils.KeyDecides | oneapi_tool_utils/filtering_utils.py:82-90 | next, a non-None `key_filter` decides by equality with the channel's `key`, or its `apikey` when `key` is None |
| FilteringUtils.ExclusionRejects | oneapi_tool_utils/filtering_utils.py:105-114 | without a short-circuit, a group exclusion that matches after a name exclusion that did not raise rejects the channel, whatever the inclusion filters say |
| FilteringUtils.ExclusionRaises | oneapi_tool_utils/filtering_utils.py:105-114 | a truthy group exclusion that is not iterable, reached after the name exclusion returned false, makes the filter raise TypeError |
| FilteringUtils.NoIncludeAccepts | oneapi_tool_utils/filtering_utils.py:134-143 | a channel that survives exclusion matches when no inclusion category is set, in every mode |
| FilteringUtils.ModeSemantics | oneapi_tool_utils/filtering_utils.py:145-175 | in `all` mode the channel matches iff every set category returns true and it raises iff a set category raises; `exact` compares the name with the name filters only; `none` rejects |
| FilteringUtils.AnyModeEarlyCategory | oneapi_tool_utils/filtering_utils.py:157-166 | in `any` mode, a match in an earlier category of the elif chain suffices when no category before it raised |
| FilteringUtils.AnyModeTagShadowsType | oneapi_tool_utils/filtering_utils.py:162-165 | in `any` mode, a set tag category that does not match rejects the channel even when its type is listed in the type filters |
| FilteringUtils.FilterChannels | oneapi_tool_utils/filtering_utils.py:178-235 | a falsy configuration returns the list unchanged; an empty list or a non-dict configuration gives []; an unhashable mode raises and another invalid mode gives []; with a valid mode the call raises iff some channel's test raises, and otherwise returns exactly `[c for c in channels if test(c)]`: the matching channels in input order, each copy of a matching channel kept |
| FilteringUtils.FilterChannelsIdempotent | oneapi_tool_utils/filtering_utils.py:178-235 | filtering the result of a returning filter again with the same configuration returns the same list |
| Values.Membership | oneapi_tool_utils/filtering_utils.py:153 | Python's `in`: on a list it is element equality, on a string substring for a string operand, on a dict key lookup; it raises TypeError exactly for a non-container, a non-string tested against a string, or an unhashable value tested against a dict |
| Sublists.SelectOrRaise | oneapi_tool_utils/filtering_utils.py:226-229 | the list comprehension over a test that may raise: it raises iff the test raises on some element, and otherwise returns exactly the selection of the elements the test accepts, in order and with their multiplicities |
| ConfigLoaders.FirstBadFilter | oneapi_tool_utils/config_loaders.py:173-180 | the first filter key, in the source's key order, whose value is present and neither None nor a list; None exactly when there is none |
| ConfigLoaders.ValidateUpdateConfig | oneapi_tool_utils/config_loaders.py:146-205 | the configuration is accepted iff it is a dict whose filters section (when present) is a dict with a valid `match_mode` and list-or-null filters, and whose updates section (when present) is a dict of dict rules with a boolean `enabled`; an accepted document is returned unchanged; a non-dict is `NotADict`; a reported filter key is a bad one |
| ConfigLoaders.LoadUpdateConfig | oneapi_tool_utils/config_loaders.py:140-207 | a missing file and a YAML syntax error pass through as the loader's exceptions; otherwise acceptance is exactly the structural checks on the document, which is returned as it is |
| ConfigLoaders.AcceptedConfigIsUsable | oneapi_tool_utils/config_loaders.py:155-205 | an accepted configuration has dict rules with a boolean `enabled` and a valid match mode, so neither the patch calculation nor the filter meets a shape it rejects |
| ConfigLoaders.RuleWithoutValueAccepted | oneapi_tool_utils/config_loaders.py:196-204 | an enabled rule without `value` only warns and is accepted |
| ConfigLoaders.MissingRequired | oneapi_tool_utils/config_loaders.py:83-84 | lists, in order, exactly the required keys `site_url` and `api_token` that are absent, and is empty iff both are present |
| ConfigLoaders.MissingInCached | oneapi_tool_utils/config_loaders.py:104-107 | on a dict cache the missing-key test is `MissingRequired`; other decoded shapes use Python's `in` on them |
| ConfigLoaders.WithTrailingSlash | oneapi_tool_utils/config_loaders.py:91-92 | keeps every key and every other value; a truthy `site_url` ends with '/' afterwards; it fails iff `site_url` is truthy but not a string |
| ConfigLoaders.TrailingSlashIdempotent | oneapi_tool_utils/config_loaders.py:91-92 | applying the `site_url` fix-up twice is applying it once |
| ConfigLoaders.FromYaml | oneapi_tool_utils/config_loaders.py:74-101 | the YAML route returns a configuration exactly when it writes one to the cache, and writes what it returns; that configuration has both required keys, and its `site_url`, when truthy, is text ending with '/' |
| ConfigLoaders.ApiConfigOf | oneapi_tool_utils/config_loaders.py:30-131 | without the YAML file the load fails and writes nothing; whatever is written to the cache is what is returned; a returned configuration has both required keys |
| ConfigLoaders.LoadApiConfig | oneapi_tool_utils/config_loaders.py:30-131 | the method's result and the configuration it writes to the cache are `ApiConfigOf` of the file system: a fresh readable cache with both keys, else the checked and fixed-up YAML file |
| ConfigLoaders.ReloadYaml | oneapi_tool_utils/config_loaders.py:74-101 | the YAML branch computes `FromYaml`: load, require a dict with both keys, fix `site_url`, write the cache |
| ConfigLoaders.YamlLoadShape | oneapi_tool_utils/config_loaders.py:74-101 | a configuration loaded from YAML has both required keys, a truthy `site_url` that ends with '/', and is exactly what is written to the cache |
| ConfigLoaders.FreshCacheUsed | oneapi_tool_utils/config_loaders.py:59-67 | a cache no older than the YAML file that decodes to a dict with both keys is returned unchanged and nothing is written |
| ConfigLoaders.StaleCacheReloads | oneapi_tool_utils/config_loaders.py:59-128 | a stale or unreadable cache, or one lacking a required key, gives exactly the YAML load |
| ConfigLoaders.CacheRoundTrip | oneapi_tool_utils/config_loaders.py:95-98 | what a YAML load writes to the cache is what a later load, with that cache still fresh, returns |
| ConfigUtils.LoadYamlConfig | channel_manager_lib/config_utils.py:78-106 | a missing file and a YAML syntax error are re-raised; a dict document is returned as it is; any other content and any other read failure give None |
| ConfigUtils.AcceptedSetting | channel_manager_lib/config_utils.py:142-164 | a setting takes the file's value, the upper-cased level, or keeps its current value, and nothing else |
| ConfigUtils.AcceptedKeepsType | channel_manager_lib/config_utils.py:142-164 | an accepted value has the type of the value it replaces |
| ConfigUtils.MergedSection | channel_manager_lib/config_utils.py:139-166 | merging a section keeps exactly the section's default keys |
| ConfigUtils.MergedConfig | channel_manager_lib/config_utils.py:132-169 | merging keeps exactly the default sections |
| ConfigUtils.ScriptConfigOf | channel_manager_lib/config_utils.py:124-179 | the configuration has exactly the default sections, each with exactly its default keys, and is the defaults when the file is missing |
| ConfigUtils.LoadScriptConfig | channel_manager_lib/config_utils.py:124-179 | the method returns `ScriptConfigOf` of the file's presence and content |
| ConfigUtils.MergeLoaded | channel_manager_lib/config_utils.py:139-169 | the loop over the file's sections computes `MergedConfig` |
| ConfigUtils.MergeSection | channel_manager_lib/config_utils.py:141-166 | the loop over one section's settings computes `MergedSection` |
| ConfigUtils.ScriptConfigShape | channel_manager_lib/config_utils.py:124-179 | whatever the file holds, the result has exactly the default sections and keys, a valid upper-case log level, a non-negative integer request interval, and every setting of its default's type |
| ConfigUtils.MergedKeepsType | channel_manager_lib/config_utils.py:159-160 | a merged setting keeps its default's type |
| ConfigUtils.DefaultsWithoutFile | channel_manager_lib/config_utils.py:132-174 | a missing file, a file that fails to load and an empty document all give the defaults |
| ConfigUtils.Stem | channel_manager_lib/config_utils.py:52 | the stem is a prefix of the name |
| ConfigUtils.StemOfSuffixed | channel_manager_lib/config_utils.py:49-52 | the stem of `<base>.<ext>` with a non-empty base and a non-empty dot-free extension is the base, whatever dots it holds (used for `<stem>.yaml` and for `undo_….json`) |
| ConfigUtils.FileNames | channel_manager_lib/config_utils.py:49-51 | the YAML entries kept are exactly the ones that are files |
| ConfigUtils.ExpectedCaches | channel_manager_lib/config_utils.py:49-52 | the expected cache names are exactly the stems of the YAML files plus ".json" |
| ConfigUtils.StaleCaches | channel_manager_lib/config_utils.py:55-59 | the removed cache names are exactly the cache files no YAML file owns |
| ConfigUtils.ListConnectionConfigs | channel_manager_lib/config_utils.py:33-70 | without the configuration directory, [] and nothing removed; otherwise the YAML files in listing order, and (when the cache directory exists) the unlinked cache files in listing order |
| ConfigUtils.ScanConfigs | channel_manager_lib/config_utils.py:49-52 | the first loop computes the YAML file names and the expected cache names |
| ConfigUtils.ScanCaches | channel_manager_lib/config_utils.py:55-59 | the second loop computes the stale cache files |
| ConfigUtils.OwnCacheKept | channel_manager_lib/config_utils.py:49-59 | a YAML file's own cache is never removed |
| ConfigUtils.DefaultShape | channel_manager_lib/config_utils.py:110-122 | the default script configuration has every setting of its own type, a valid log level and a non-negative request interval |
| ConfigUtils.MergedShape | channel_manager_lib/config_utils.py:132-169 | a merged configuration has the default's sections and keys, each setting of its default's type, a valid log level and a non-negative request interval |
| ChannelToolBase.BaseChannelMatches | oneapi_tool_utils/channel_tool_base.py:499-623 | a non-dict record never matches; a non-None `id` filter alone decides by integer equality (raw `==` when a conversion fails); without one, a raise in the exclusion checks escapes and a matching exclusion rejects |
| ChannelToolBase.BaseFilterChannels | oneapi_tool_utils/channel_tool_base.py:391-458 | a falsy configuration returns the list unchanged; an empty list or a non-dict configuration gives []; an unhashable mode raises and another invalid mode gives []; with a valid mode the call raises iff the base class's `_channel_matches_filters` raises on some channel, and otherwise returns exactly the comprehension of the channels it accepts, in order and copies included |
| ChannelToolBase.BaseAgreesWithFilteringUtils | oneapi_tool_utils/channel_tool_base.py:499-623 | without `id_filters` and `key_filter`, the base class's channel test has the same outcome, raises included, as the filtering module's in every mode but `exact`, and whatever it accepts the module accepts too |
| ChannelToolBase.BaseExactAndNoneReject | oneapi_tool_utils/channel_tool_base.py:619-623 | once inclusion filters are set and there is no `id`, the `exact` and `none` modes accept no channel, and reject every dict channel whose exclusion checks do not raise |
| ChannelToolBase.ModeOf | oneapi_tool_utils/channel_tool_base.py:766-835 | each of the six mode texts decodes to its own update mode, and the mode is unknown exactly for every other value |
| ChannelToolBase.DeleteListedKeys | oneapi_tool_utils/channel_tool_base.py:824-829 | the `delete_keys` loop leaves the dict without exactly the listed keys |
| ChannelToolBase.ComputeNewValue | oneapi_tool_utils/channel_tool_base.py:768-835 | the method computes `NewValue`: overwrite, regex replace, append and remove on normalised sets, merge and delete on normalised dicts, and a skip for an unknown mode or a failed regex |
| ChannelToolBase.EvaluateRule | oneapi_tool_utils/channel_tool_base.py:759-871 | the method computes `FieldOutcome`: the formatted new value for an enabled dict rule whose field changes by the source's change test, nothing otherwise |
| UpdatePayload.ApplyRules | oneapi_tool_utils/channel_tool_base.py:755-871 | the loop's payload is `{'id': channel_id}` plus every field whose rule has an outcome, and its changed set is exactly those fields |
| UpdatePayload.PrepareUpdatePayload | oneapi_tool_utils/channel_tool_base.py:731-877 | the method returns `PlannedUpdate`: (None, {}) without `updates`, without a truthy id or when nothing changes, and the id plus every changed field otherwise |
| ChannelToolBase.PlannedUpdate | oneapi_tool_utils/channel_tool_base.py:731-877 | a payload is planned exactly when some field changed; a planned payload, made only for a channel with a truthy id, holds `id` and exactly the changed fields, each of which has a rule under `updates` |
| Vendors.FormatListField | oneapi_tool_utils/newapi_channel_tool.py:267-274 | the list wire form is text; for newapi it is the sorted elements joined with ',' |
| Vendors.VoApiFormatListAppend | oneapi_tool_utils/voapi_channel_tool.py:357-359 | voapi keeps list order: the texts of a concatenation are the texts of its two parts, in order |
| Vendors.VendorsAgreeOnNormalSets | oneapi_tool_utils/voapi_channel_tool.py:360-363 | on trimmed non-empty names both vendors send the same text for a set |
| Vendors.FormatListRoundTrip | oneapi_tool_utils/voapi_channel_tool.py:349-375 | the list wire form of either vendor normalises back to the set it came from, for trimmed, non-empty, comma-free names |
| Vendors.FormatListEmpty | oneapi_tool_utils/newapi_channel_tool.py:272 | both vendors send the empty set as "" |
| Vendors.FormatDictField | oneapi_tool_utils/voapi_channel_tool.py:377-385 | newapi sends the dict itself; voapi sends text, empty exactly for {} (or an empty encoding) |
| Vendors.FormatDictRoundTrip | oneapi_tool_utils/newapi_channel_tool.py:276-282 | the dict wire form of either vendor normalises back to the dict, for a lawful JSON codec |
| Vendors.FormatFieldValue | oneapi_tool_utils/newapi_channel_tool.py:284-299 | newapi converts `priority` with `int()` and keeps the value when that fails; every other field, and every voapi field, passes through |
| Vendors.FormatFieldValueIdempotent | oneapi_tool_utils/newapi_channel_tool.py:284-299 | formatting a simple value twice is formatting it once |
| Vendors.PriorityFromText | oneapi_tool_utils/newapi_channel_tool.py:291-293 | a newapi `priority` given as decimal text is sent as that integer |
| Vendors.StatusFailure | oneapi_tool_utils/voapi_channel_tool.py:464-468 | a non-200 status is `auth` iff 401, `quota` iff 429, `api_error` iff another 4xx, `server_error` iff 5xx and above, `unknown_http` iff below 400 |
| Vendors.MessageFailure | oneapi_tool_utils/voapi_channel_tool.py:447-451 | the failure of an unsuccessful 200 response is `quota` iff its lower-cased message contains "quota", `api_error` otherwise |
| Vendors.InsufficientQuotaMentionsQuota | oneapi_tool_utils/voapi_channel_tool.py:448 | the second test of the quota check adds nothing to the first |
| Vendors.VoApiStatusTable | oneapi_tool_utils/voapi_channel_tool.py:457-470 | a non-200 response whose body is not JSON fails with the failure of its status |
| Vendors.VoApiTestOutcome | oneapi_tool_utils/voapi_channel_tool.py:427-480 | the test verdict is 'timeout' exactly on a timeout, 'network' exactly on a client error, 'response_format' exactly for a 200 response whose body is not JSON, and a pass only for a 200 response |
| Vendors.VoApiPassedIff | oneapi_tool_utils/voapi_channel_tool.py:435-480 | a channel test passes iff the response is 200 and decodes to a JSON object whose `success` is `True` |
| PatchProperties.ChangedIrreflexive | oneapi_tool_utils/channel_tool_base.py:845-859 | a value never counts as changed against itself |
| PatchProperties.ChangedSymmetric | oneapi_tool_utils/channel_tool_base.py:845-859 | the change test does not depend on which side is the original |
| PatchProperties.NoneMatchesEmpty | oneapi_tool_utils/channel_tool_base.py:845-848 | None against an empty string, list or dict is no change, either way round |
| PatchProperties.ListOrderIrrelevant | oneapi_tool_utils/channel_tool_base.py:849-852 | two sortable lists with the same elements and multiplicities, in any order, are no change |
| PatchProperties.UnchangedText | oneapi_tool_utils/channel_tool_base.py:845-859 | an original that is no change against a text is that text, or None against "" |
| PatchProperties.ListModeOutcome | oneapi_tool_utils/channel_tool_base.py:790-801 | an enabled `append` or `remove` rule's outcome is the wire form of the union or difference of the normalised sets, when that is a change |
| PatchProperties.ListModeResult | oneapi_tool_utils/channel_tool_base.py:790-801 | after an `append` or `remove` rule, written or skipped as unchanged, the field normalises to the union or difference of the original and given sets |
| PatchProperties.ListModeWrites | oneapi_tool_utils/channel_tool_base.py:790-801 | what an enabled list-mode rule writes is the wire form of its target set |
| PatchProperties.ListTargetStable | oneapi_tool_utils/channel_tool_base.py:790-801 | the target set of a list mode is made of normalised names, and applying the mode to it again leaves it as it is |
| PatchProperties.DictModeOutcome | oneapi_tool_utils/channel_tool_base.py:804-831 | an enabled `merge` or `delete_keys` rule's outcome is the wire form of the merged or reduced normalised dict, when that is a change |
| PatchProperties.DictModeResult | oneapi_tool_utils/channel_tool_base.py:804-831 | after a `merge` or `delete_keys` rule, a written value normalises to the target dict, and a skipped one already equals it |
| PatchProperties.RegexReplaceApplies | oneapi_tool_utils/channel_tool_base.py:777-787 | a `regex_replace` rule yields a value iff the original is text, the value is a dict holding text `pattern` and `replacement`, and the substitution succeeds |
| PatchProperties.PlannedUpdateShape | oneapi_tool_utils/channel_tool_base.py:745-877 | the payload is None iff no field changed; otherwise its keys are the id and the changed fields, each changed field has an enabled rule and carries that rule's outcome, and the id is the channel's own unless a rule rewrote it |
| PatchProperties.SkippedRulesChangeNothing | oneapi_tool_utils/channel_tool_base.py:759-835 | a field whose rule is disabled or malformed, of an unknown mode, or a `regex_replace` that does not apply, is not among the changed fields |
| PatchProperties.FieldOutcomeLocal | oneapi_tool_utils/channel_tool_base.py:764-863 | a rule's outcome depends on the channel only through the field it updates |
| PatchProperties.ReappliedRuleIsStable | oneapi_tool_utils/channel_tool_base.py:759-871 | once the field holds what its rule computed, the rule finds nothing more to change |
| PatchProperties.ReapplyOverwrite | oneapi_tool_utils/channel_tool_base.py:773-774 | an `overwrite` rule finds nothing to change once its value is written |
| PatchProperties.ReapplyList | oneapi_tool_utils/channel_tool_base.py:790-801 | a list-mode rule finds nothing to change on a field that holds the wire form of its target set |
| PatchProperties.ReapplyDict | oneapi_tool_utils/channel_tool_base.py:804-831 | a dict-mode rule finds nothing to change once its outcome is written |
| PatchProperties.PayloadFieldStable | oneapi_tool_utils/channel_tool_base.py:755-877 | after the payload is applied, the rule of each field finds nothing to change |
| PatchProperties.PlannedUpdateIdempotent | oneapi_tool_utils/channel_tool_base.py:731-877 | planning again on the updated channel yields no payload: an update is idempotent |
| PatchProperties.ListTargetRoundTrip | oneapi_tool_utils/newapi_channel_tool.py:267-274 | a set of trimmed, comma-free, non-empty names, formatted for the vendor, normalises back to the same set |
| PatchProperties.ListOutcomeReaches | oneapi_tool_utils/channel_tool_base.py:790-801 | after a list mode, rewritten or left as it was, the field normalises to the mode's target set |
| PatchProperties.ListOutcomeOfTarget | oneapi_tool_utils/channel_tool_base.py:790-801 | a list mode finds nothing to change on a field holding the wire form of a set it leaves as it is |
| PatchProperties.DictOutcomeOfTarget | oneapi_tool_utils/channel_tool_base.py:804-831 | with a lawful JSON codec, a dict mode finds nothing to change on a field holding the wire form of a dict it leaves as it is |
| PatchProperties.BagPermutation | oneapi_tool_utils/channel_tool_base.py:849-852 | two lists that are permutations of each other sort to the same projection |
| CrossSiteKeys.DeletionsCount | channel_manager_lib/cross_site_actions.py:175-181 | the loop's deletion count is the number of distinct listed keys the dict held |
| CrossSiteKeys.DeleteCountedKeys | channel_manager_lib/cross_site_actions.py:175-181 | the `delete_keys` loop abandons the field (None) iff some listed key cannot be looked up; otherwise the dict loses exactly the listed keys and the count is the number it held |
| CrossSiteActions.DeleteKeysChange | channel_manager_lib/cross_site_actions.py:167-181 | the `delete_keys` branch changes the dict exactly when the loop deleted something |
| CrossSiteActions.PlanField | channel_manager_lib/cross_site_actions.py:121-224 | the method computes `FieldPlan`, the value one field of one target is set to, or nothing |
| CrossSiteActions.PlanTarget | channel_manager_lib/cross_site_actions.py:114-224 | the inner loop's payload and change summary are `TargetPayload` and `TargetSummary` of the target |
| CrossSiteActions.BuildUpdatePlan | channel_manager_lib/cross_site_actions.py:108-248 | the outer loop's plan is `UpdatePlan`: one entry, in target order, per target with a change |
| CrossSiteActions.TallyResults | channel_manager_lib/cross_site_actions.py:347-373 | every payload is sent in plan order; successes and failures add up to the plan's length; the exit code is 1 iff some update failed |
| CrossSiteActions.ExecuteCopyFields | channel_manager_lib/cross_site_actions.py:52-376 | an empty plan, a refusal, and a failed undo save that is not confirmed all give 0 and send nothing; once confirmed, the originals of the plan go to the undo save; when the run proceeds, every payload is sent and the code is 1 iff an update failed |
| CrossSiteActions.CountTrueAll | channel_manager_lib/cross_site_actions.py:356-373 | as many successes as results means no update failed |
| CrossSiteActions.CompareFields | channel_manager_lib/cross_site_actions.py:377-487 | one report per target, listing its differing fields in comparison order, and the overall flag holds iff some report is non-empty; nothing is sent |
| CrossSiteActions.CountDifference | channel_manager_lib/cross_site_actions.py:26-51 | a difference is reported iff both counts were fetched; it is 0 iff they are equal, and otherwise their absolute difference |
| CrossSiteProps.ContainerFieldKeepsValue | channel_manager_lib/cross_site_actions.py:208-221 | the final formatting never changes the value of a list or dict field |
| CrossSiteProps.ListReadsBack | channel_manager_lib/cross_site_actions.py:208-221 | a set of trimmed, comma-free, non-empty names formatted for the vendor normalises back to the same set |
| CrossSiteProps.ListChangeModes | channel_manager_lib/cross_site_actions.py:133-143 | overwrite gives the source set when it differs, append the union when it adds a name, remove the difference when it removes one; every other mode skips the field |
| CrossSiteProps.ListPlanReadsBack | channel_manager_lib/cross_site_actions.py:128-155 | a list field plans a value iff the set changes, and the value normalises back to the changed set |
| CrossSiteProps.ListFieldCopy | channel_manager_lib/cross_site_actions.py:128-155 | a list field changes by the mode's rule, and the value sent normalises back to the resulting set |
| CrossSiteProps.DictFieldCopy | channel_manager_lib/cross_site_actions.py:156-196 | overwrite sends the source dict when it differs, merge the target updated by the source when that changes it, delete_keys the target without the listed keys when it held one; what is sent normalises back to that dict |
| CrossSiteProps.SimpleFieldCopy | channel_manager_lib/cross_site_actions.py:197-205 | a simple field is copied only in overwrite mode and only when Python finds the values unequal |
| CrossSiteProps.DeleteKeysFromText | channel_manager_lib/cross_site_actions.py:170-181 | delete_keys with a text source removes every trimmed non-empty comma piece of it |
| CrossSiteProps.ListChangeIsStable | channel_manager_lib/cross_site_actions.py:133-143 | changing the set again by the same mode and source changes nothing |
| CrossSiteProps.ListChangeWithin | channel_manager_lib/cross_site_actions.py:133-143 | a changed set holds only names from the two sets it came from |
| CrossSiteProps.ListCopyIsStable | channel_manager_lib/cross_site_actions.py:128-155 | once what a list-field copy sends is stored, the same copy has nothing to do |
| CrossSiteProps.DictChangeIsStable | channel_manager_lib/cross_site_actions.py:161-181 | changing the dict again by the same mode and source changes nothing |
| CrossSiteProps.DictPlanReadsBack | channel_manager_lib/cross_site_actions.py:156-196 | a dict field plans a value iff the dict changes, and with a lawful JSON codec the value normalises back to the changed dict |
| CrossSiteProps.DictCopyIsStable | channel_manager_lib/cross_site_actions.py:156-196 | once what a dict-field copy sends is stored, the same copy has nothing to do |
| CrossSiteProps.SimpleCopyIsStable | channel_manager_lib/cross_site_actions.py:197-221 | once what a simple-field copy sends is stored, nothing is left to do, for every field but newapi's `priority`, whose conversion may change the value |
| CrossSiteProps.TargetSummaryFields | channel_manager_lib/cross_site_actions.py:118-224 | the summary names exactly the listed, copyable fields that change, each with its change line |
| CrossSiteProps.PayloadMatchesSummary | channel_manager_lib/cross_site_actions.py:115-224 | a field is in the payload exactly when it is in the summary, besides `id` |
| CrossSiteProps.TargetPayloadShape | channel_manager_lib/cross_site_actions.py:83-224 | a payload holds the target's `id` and exactly the summary's fields with the vendor's wire form of each planned value; `id` is never a changed field and `key` is never sent |
| CrossSiteProps.UpdatePlanSelects | channel_manager_lib/cross_site_actions.py:108-248 | the plan holds, in target order, one entry per target with changes |
| CrossSiteProps.UpdatePlanItems | channel_manager_lib/cross_site_actions.py:240-248 | every entry of the plan is its target's payload and summary, and has changes |
| CrossSiteProps.UpdatePlanCovers | channel_manager_lib/cross_site_actions.py:108-248 | the plan is ordered like the targets, never longer, and has an entry for every target that changes |
| CrossSiteProps.DifferencesExact | channel_manager_lib/cross_site_actions.py:429-477 | a field is reported exactly when it is compared and differs, and the report keeps the field order |
| CrossSiteProps.CompareWithItself | channel_manager_lib/cross_site_actions.py:423-477 | a channel compared with itself shows no difference |
| CrossSiteProps.OverwriteMatchesCompare | channel_manager_lib/cross_site_actions.py:128-205 | an overwrite copy plans a field exactly when the compare reports it as different |
| CrossSiteProps.OverwriteThenCompare | channel_manager_lib/cross_site_actions.py:128-224 | after an overwrite copy is stored, the compare finds the field equal to the source |
| CrossSiteHandler.CrossSiteConfig | channel_manager_lib/cross_site_handler.py:37-65 | the configuration is kept only when the file loads as a non-empty dict; a missing file, a parse error or an empty document ends the run |
| CrossSiteHandler.VendorNamed | channel_manager_lib/cross_site_handler.py:115-131 | a vendor is found exactly for the strings "newapi" and "voapi" |
| CrossSiteHandler.StringFields | channel_manager_lib/cross_site_handler.py:300-345 | the field names used are exactly the string entries of the configured list |
| CrossSiteHandler.SetupRun | channel_manager_lib/cross_site_handler.py:37-199 | a failed check ends with 1 or an uncaught exception; a setup that succeeds had a loaded configuration, both tools and both fetched lists, which it keeps |
| CrossSiteHandler.Matched | channel_manager_lib/cross_site_handler.py:212-241 | a falsy `channel_filter` keeps every fetched channel; with a dict filter and a valid mode a returning selection is exactly the comprehension of the accepted channels; a returning selection is always a sublist of the fetched channels, so never longer |
| CrossSiteHandler.SelectedSource | channel_manager_lib/cross_site_handler.py:212-236 | a raise while filtering, no match, or a first match whose id the `:<4` format rejects ends the run with 1; a chosen source comes from a non-empty match and has a formattable id |
| CrossSiteHandler.SelectedTargets | channel_manager_lib/cross_site_handler.py:238-249 | a raise while filtering the targets ends the run with 1; the kept targets are never more than the fetched ones |
| CrossSiteHandler.CrossSiteRun | channel_manager_lib/cross_site_handler.py:23-721 | only a copy whose setup succeeded sends anything, and only once the prompts let it go ahead; a run that raises sends nothing; comparing counts after a successful setup ends with 0 |
| CrossSiteHandler.PrepareRun | channel_manager_lib/cross_site_handler.py:37-199 | steps 1 to 5 are taken in the code's order and end as `SetupRun` says |
| CrossSiteHandler.RunAction | channel_manager_lib/cross_site_handler.py:289-717 | a copy or a compare ends as `ActionResult` says |
| CrossSiteHandler.RunCrossSiteOperation | channel_manager_lib/cross_site_handler.py:23-721 | the whole run ends as `CrossSiteRun` says |
| CrossSiteRunProps.ActionOutcomes | channel_manager_lib/cross_site_handler.py:289-717 | an action ends with 0, 1 or an uncaught exception; comparing fields sends nothing and ends with 0 when every field name can be looked up |
| CrossSiteRunProps.RunOutcomes | channel_manager_lib/cross_site_handler.py:23-721 | a run ends with 0, with 1, or with an uncaught exception |
| CrossSiteRunProps.SetupFailuresFail | channel_manager_lib/cross_site_handler.py:37-199 | a failed check of the configuration, the connections, the tools or the fetches never ends with 0 |
| CrossSiteRunProps.BlocksPassed | channel_manager_lib/cross_site_handler.py:68-85 | the blocks pass only when `source` and `target` are dicts with a truthy `connection_config` |
| CrossSiteRunProps.ParamsPassed | channel_manager_lib/cross_site_handler.py:87-108 | copy and compare parameters pass only with a non-empty list of fields |
| CrossSiteRunProps.SetupParts | channel_manager_lib/cross_site_handler.py:37-199 | a successful setup is made of the configuration's blocks and checked parameters, the target connection's vendor and the two fetched lists |
| CrossSiteRunProps.SetupSucceeded | channel_manager_lib/cross_site_handler.py:37-199 | a run gets past the checks only with a non-empty configuration dict, dict blocks naming their connections, two connection files whose `api_type` is "newapi" or "voapi", both tools and both lists; copy and compare also need a non-empty field list |
| CrossSiteRunProps.ConnectionVendorValid | channel_manager_lib/cross_site_handler.py:115-131 | a valid connection file is a dict whose `api_type` is exactly one of the two vendor names |
| CrossSiteRunProps.CopyNeedsFields | channel_manager_lib/cross_site_handler.py:91-98 | a copy without a non-empty `fields_to_copy` list ends with 1 and sends nothing |
| CrossSiteRunProps.CompareNeedsFields | channel_manager_lib/cross_site_handler.py:103-108 | a compare without a non-empty `fields_to_compare` list ends with 1 |
| CrossSiteRunProps.CopyModeNotChecked | channel_manager_lib/cross_site_handler.py:92-101 | an unknown `copy_mode` only warns: the checks pass or fail whatever the mode, and the mode is carried as given |
| CrossSiteRunProps.CountsAlwaysSucceed | channel_manager_lib/cross_site_handler.py:269-287 | comparing channel counts, once both lists are fetched, ends with 0 and sends nothing |
| CrossSiteRunProps.SourceIsFirstMatch | channel_manager_lib/cross_site_handler.py:212-236 | a chosen source is the first channel the source filter keeps, one of the fetched channels, and an id the `:<4` format accepts |
| CrossSiteRunProps.SourceFailures | channel_manager_lib/cross_site_handler.py:212-236 | no source is chosen exactly when filtering the sources raises, keeps nothing, or keeps a first channel whose id the `:<4` format rejects, and each of these ends with 1 |
| CrossSiteRunProps.TargetsAreMatches | channel_manager_lib/cross_site_handler.py:238-260 | the target selection fails exactly when filtering the targets raises; otherwise the targets are the filtered target channels one for one (copies included), each a fetched target channel, never more than were fetched |
| CrossSiteRunProps.SelectionExits | channel_manager_lib/cross_site_handler.py:212-262 | a raise while filtering either side ends with 1, as does a missing or unprintable source; with no target match it ends with 0; none of these sends anything |
| CrossSiteRunProps.CompareNeverSends | channel_manager_lib/cross_site_handler.py:607-717 | comparing fields never sends an update, and ends with 0 unless a field name cannot be looked up or no source matched |
| CrossSiteRunProps.CopyRunIsPlanResult | channel_manager_lib/cross_site_handler.py:289-605 | once a source, targets and hashable field names are there, the copy's result is the result of its plan |
| CrossSiteRunProps.CopyResultExits | channel_manager_lib/cross_site_handler.py:483-605 | an empty plan or a declined prompt ends with 0 before anything is sent; with `--yes` every payload is sent and the run ends with 1 exactly when an update failed |
| CrossSiteRunProps.CopyExits | channel_manager_lib/cross_site_handler.py:289-605 | a copy that goes ahead sends every planned payload and ends with 1 exactly when an update failed; declining either prompt ends it with 0 before anything is sent |
| CrossSiteRunProps.CopyRaisesOnUnhashableField | channel_manager_lib/cross_site_handler.py:300-345 | field names that are lists or dicts make the copy raise before anything is planned |
| CrossSiteRunProps.SentOnlyByCopy | channel_manager_lib/cross_site_handler.py:23-721 | only a copy that got as far as a plan sends anything, and it sends the plan's payloads |
| CrossSiteRunProps.PlannedPayloadsAreSafe | channel_manager_lib/cross_site_handler.py:333-480 | every planned payload carries its target's `id` and never a `key` |
| CrossSiteRunProps.SentPayloadsAreSafe | channel_manager_lib/cross_site_handler.py:23-721 | every payload a run sends carries a target's `id` and never a `key`, and only a copy sends any |
| SingleSiteHandler.BackupStemParts | channel_manager_lib/undo_utils.py:432-433 | the last '.'-part of `update_config.<ts>` is `<ts>` when it holds no '.' |
| SingleSiteHandler.BackupNameRoundTrip | channel_manager_lib/single_site_handler.py:108-110 | a backup's file name is one the undo summary's glob lists, and its stamp reads back the time it was taken, to the millisecond |
| SingleSiteHandler.BackupUpdateConfig | channel_manager_lib/single_site_handler.py:96-117 | a backup is written iff the update configuration is a file and the directory and the copy succeed; its name carries the clock's time |
| SingleSiteHandler.VendorOf | channel_manager_lib/undo_utils.py:50-58 | "newapi" and "voapi" name the two vendors; any other type names none |
| SingleSiteHandler.ToolFor | channel_manager_lib/undo_utils.py:27-69 | a tool is built iff the API type is known, the connection loads and the update configuration passes the loader, whose validated document it keeps |
| SingleSiteHandler.HandlerFilters | channel_manager_lib/single_site_handler.py:148-165 | a missing file, bad YAML and an empty document end the run with 1; only a non-empty dict gets through, and its `filters` entry is kept |
| SingleSiteHandler.SitePrelude | channel_manager_lib/single_site_handler.py:140-193 | a run that gets past fetching and filtering has a validated update configuration and a non-empty filtered list; a filter that raises is caught and ends the run with 1 |
| SingleSiteHandler.Plan | channel_manager_lib/single_site_handler.py:195-227 | the plan is never longer than the channel list and holds exactly the non-empty payloads planned for its channels |
| SingleSiteHandler.PlanOne | channel_manager_lib/single_site_handler.py:201-227 | one pass of the dry-run loop extends the plan of the first channels by the next one |
| SingleSiteHandler.PlanUpdates | channel_manager_lib/single_site_handler.py:195-232 | the dry-run loop builds `Plan` of the filtered channels, in channel order |
| SingleSiteHandler.ApplyPlan | channel_manager_lib/single_site_handler.py:234-335 | updates are sent only after the confirmation, and then the whole plan is sent; an undo save that raises ends the run before any update; the code is 1 exactly when the plan was sent and some update failed; the clean-up is offered only after a clean 0 |
| SingleSiteHandler.SingleSiteRun | channel_manager_lib/single_site_handler.py:119-335 | a run that stops before the plan ends as its prelude says and sends nothing; what a run sends is the dry run's plan of the filtered channels, after the confirmation; no undo save is attempted before the prelude succeeds |
| SingleSiteHandler.ApplyUpdates | channel_manager_lib/single_site_handler.py:234-335 | the confirmation, backup, undo save, updates and tally end as `ApplyPlan` says |
| SingleSiteHandler.RunSingleSiteOperation | channel_manager_lib/single_site_handler.py:119-335 | the whole update run ends as `SingleSiteRun` says |
| SingleSiteHandler.TestModel | channel_manager_lib/single_site_handler.py:587-606 | a truthy `test_model` is used as is; otherwise the first trimmed non-blank item of a `models` string; without one the channel fails with 'config', and a non-string `models` raises |
| SingleSiteHandler.StrippedNonBlankNonBlank | channel_manager_lib/single_site_handler.py:591 | every model name kept from the comma list is non-empty |
| SingleSiteHandler.TestSingleChannel | channel_manager_lib/single_site_handler.py:563-675 | without a test model no request is made and the channel fails for that reason; with one the verdict is the response's classification |
| SingleSiteHandler.ResponseOutcome | channel_manager_lib/single_site_handler.py:622-676 | the verdict is 'timeout' exactly on a timeout, 'network' exactly on a client error, 'response_format' exactly for a 200 response whose body is not JSON, and a pass only for a 200 response |
| SingleSiteHandler.EnablePayload | channel_manager_lib/single_site_handler.py:454 | an enable payload holds only the channel's `id` and `status` 1 |
| SingleSiteHandler.Tally | channel_manager_lib/single_site_handler.py:431-468 | every tested channel is counted once as passed or failed, with one enable payload per pass and one failure type per failure |
| SingleSiteHandler.TallyMembers | channel_manager_lib/single_site_handler.py:431-468 | the enable payloads are those of the channels that passed, and the failure types those of the channels that failed |
| SingleSiteHandler.TallyOneTest | channel_manager_lib/single_site_handler.py:432-468 | one pass of the result loop extends the tally of the first channels by the next one |
| SingleSiteHandler.TallyTests | channel_manager_lib/single_site_handler.py:430-468 | the result loop builds `Tally` of the tested channels |
| SingleSiteHandler.HasNonQuotaFailure | channel_manager_lib/single_site_handler.py:485 | the loop finds a failure iff some failure type is not 'quota' |
| SingleSiteHandler.TestAndEnableAsWritten | channel_manager_lib/single_site_handler.py:338-391 | as written, the unawaited listing makes every test run end with 1, with no tally and nothing enabled |
| SingleSiteHandler.RunTestAndEnableDisabled | channel_manager_lib/single_site_handler.py:338-560 | the test run, with the listing awaited, ends as `TestAndEnableDisabled` says |
| SingleSiteProps.BackupFoundBySummary | channel_manager_lib/undo_utils.py:422-452 | a backup taken no later than an undo file is found by the summary, which picks a backup no older than it |
| SingleSiteProps.ToolAndConfigStage | channel_manager_lib/single_site_handler.py:140-165 | without a tool the run ends with 1; with one, the handler's own reading of the configuration passes iff the validated document is non-empty |
| SingleSiteProps.NothingToDoExitsZero | channel_manager_lib/single_site_handler.py:167-232 | an empty channel list, a filter that keeps nothing and a dry run without changes each end the run with 0, and a filter that raises on a non-empty list ends it with 1 |
| SingleSiteProps.PlanAppend | channel_manager_lib/single_site_handler.py:201-227 | the plan of two lists is the plans of each, one after the other |
| SingleSiteProps.PlannedPayloadShape | channel_manager_lib/single_site_handler.py:206-223 | every planned payload comes from a channel with a truthy `id`, has changed fields, and holds `id` and exactly those fields |
| SingleSiteProps.ChangedChannelPlanned | channel_manager_lib/single_site_handler.py:206-223 | a channel with a planned change has its payload in the plan |
| SingleSiteProps.FilteredAreFetched | channel_manager_lib/single_site_handler.py:180 | the filtered records are fetched records, and they are the filtered channels one for one, copies included |
| SingleSiteProps.DeclineSendsNothing | channel_manager_lib/single_site_handler.py:237-250 | declining the update sends nothing, writes no backup, saves no undo data and offers no clean-up; after a dry run with changes it ends with 0 |
| SingleSiteProps.BackupFailureNeedsConsent | channel_manager_lib/single_site_handler.py:262-275 | a failed backup ends the run with 0 unless `--yes` is set or the second prompt says 'y'; then the undo save runs |
| SingleSiteProps.ApplyPlanSends | channel_manager_lib/single_site_handler.py:234-293 | updates are sent only after the confirmation, a backup or its waiver, and an undo save that did not raise, and what is sent is the plan |
| SingleSiteProps.SentIsThePlan | channel_manager_lib/single_site_handler.py:119-293 | whatever a run sends is the dry run's plan, made from fetched channels, after the confirmation, the backup or its waiver and the undo save |
| SingleSiteProps.ApplyPlanExitCode | channel_manager_lib/single_site_handler.py:297-322 | after the updates the code is 1 iff some update failed, and only a clean 0 offers the clean-up |
| SingleSiteProps.ExitCodeAfterUpdates | channel_manager_lib/single_site_handler.py:297-335 | a run that sent updates ends with 1 iff one failed, and only a run that sent them all successfully offers the clean-up |
| SingleSiteProps.UnawaitedListingAlwaysFails | channel_manager_lib/single_site_handler.py:374-391 | as written, the test run never gets past the listing: it ends with 1, testing and enabling nothing |
| SingleSiteProps.ExampleChannelPasses | channel_manager_lib/single_site_handler.py:587-646 | an auto-disabled channel with a test model and a successful test response passes |
| SingleSiteProps.ExampleTally | channel_manager_lib/single_site_handler.py:394-468 | that channel is tested, passes and is queued for enabling |
| SingleSiteProps.UnawaitedListingLosesEnable | channel_manager_lib/single_site_handler.py:374-560 | the intended run enables that channel and ends with 0; the run as written ends with 1 and sends nothing |
| SingleSiteProps.OnlyAutoDisabledTested | channel_manager_lib/single_site_handler.py:394-468 | the tally covers exactly the channels whose `status` equals 3, and enables exactly those of them that passed |
| SingleSiteProps.EnablePromptRule | channel_manager_lib/single_site_handler.py:483-516 | the enable step needs no prompt iff `--yes` is set or every failure is a quota failure; otherwise it sends only after a 'y', and a refusal ends with 0 |
| SingleSiteProps.AnswerIgnoredWithoutNonQuotaFailure | channel_manager_lib/single_site_handler.py:485-499 | with `--yes` or only quota failures, the answer to the prompt changes nothing |
| SingleSiteProps.EnableExitCode | channel_manager_lib/single_site_handler.py:519-560 | a run that enabled channels sent exactly the enable payloads, each setting status 1, and ends with 1 iff some enable failed |
| SingleSiteProps.MessageQuotaTest | channel_manager_lib/single_site_handler.py:639-646 | a failed test is a quota failure iff the lower-cased message mentions "quota" |
| SingleSiteProps.SuccessResponseMatchesVoApi | oneapi_tool_utils/voapi_channel_tool.py:439-456 | on status 200 the single-site classification agrees with voapi's `test_channel_api` |
| SingleSiteProps.ErrorResponseMatchesVoApi | oneapi_tool_utils/voapi_channel_tool.py:457-470 | on every other status the single-site status table agrees with voapi's |
| SingleSiteProps.ResponseMatchesVoApi | oneapi_tool_utils/voapi_channel_tool.py:396-470 | every test response, timeout or client error is classified as voapi classifies it |
| SingleSiteProps.ModelDecidesRequest | channel_manager_lib/single_site_handler.py:587-675 | a channel without a test model gets the same verdict whatever the response; one with a model is classified by the response alone |
| Timestamps.StampLeqTotal | channel_manager_lib/undo_utils.py:433-436 | any two times compare one way or the other |
| Timestamps.StampLeqTransitive | channel_manager_lib/undo_utils.py:433-436 | the comparison of times is transitive |
| Timestamps.StampLeqAntisymmetric | channel_manager_lib/undo_utils.py:433-436 | two times no later than each other are equal |
| Timestamps.Pad | channel_manager_lib/undo_utils.py:179 | a zero-padded field has exactly its width and only digits |
| Timestamps.PadValue | channel_manager_lib/undo_utils.py:179 | a number that fits in the width reads back from its padded digits |
| Timestamps.LayoutSlices | channel_manager_lib/undo_utils.py:179 | the "%Y-%m-%d-%H%M%S" layout puts each field at its own offset, with '-' at 4, 7 and 10 and no other character added |
| Timestamps.FormatStamp | channel_manager_lib/undo_utils.py:179 | a formatted stamp, microseconds cut to milliseconds, is 20 characters long |
| Timestamps.ParseStamp | channel_manager_lib/undo_utils.py:414 | a parsed stamp is a valid date and time, from a text of 18 to 23 characters with '-' at offsets 4, 7 and 10 |
| Timestamps.FormatStampChars | channel_manager_lib/undo_utils.py:179-182 | a formatted stamp holds no '_' and no '.', so it survives the file name splits |
| Timestamps.FormatFields | channel_manager_lib/undo_utils.py:179 | each field of a formatted stamp is a digit run that reads back as that field; the fraction reads back as the milliseconds |
| Timestamps.FormatThenParse | channel_manager_lib/undo_utils.py:179-414 | `strptime` with "%Y-%m-%d-%H%M%S%f" reads a formatted stamp back as the same time to the millisecond |
| UndoUtils.UndoTimestampOf | channel_manager_lib/undo_utils.py:405-418 | a timestamp is read only from a stem of at least four '_'-parts |
| UndoUtils.GlobMatch | channel_manager_lib/undo_utils.py:343-375 | a name matches `<prefix>*<suffix>` exactly when it is the prefix, any middle part and the suffix |
| UndoUtils.LastNewest | channel_manager_lib/undo_utils.py:348-350 | the file the stable sort by modification time puts last is a newest one, and newer than every file after it in the listing |
| UndoUtils.NewestOf | channel_manager_lib/undo_utils.py:336-354 | nothing is found without the directory or a matching file; otherwise a matching file with the newest modification time |
| UndoUtils.FindLatestUndoFile | channel_manager_lib/undo_utils.py:330-354 | nothing is found without the directory or an `undo_*.json` file; otherwise the name of such a file with the newest modification time |
| UndoUtils.FindLatestUndoFileFor | channel_manager_lib/undo_utils.py:356-388 | nothing is found without the directory or a file matching `undo_<api_type>_<config_name>_*.json`; otherwise the name of such a file with the newest modification time |
| UndoUtils.BackupStampOf | channel_manager_lib/undo_utils.py:429-433 | only names the backup glob lists have a backup stamp |
| UndoUtils.Candidates | channel_manager_lib/undo_utils.py:427-440 | the candidates are exactly the listed backups whose stamp parses and is no later than the undo file's |
| UndoUtils.FirstNewest | channel_manager_lib/undo_utils.py:450-451 | the stable reverse sort puts first a candidate with the latest stamp, the first listed of those |
| UndoUtils.BackupUpdates | channel_manager_lib/undo_utils.py:455-463 | a backup is summarised only when it loads as a non-empty dict whose `updates` is a dict, and that dict is what is read |
| UndoUtils.Details | channel_manager_lib/undo_utils.py:462-472 | one line per enabled dict entry of the updates, and no line exactly when no entry is enabled |
| UndoUtils.CollectCandidates | channel_manager_lib/undo_utils.py:427-440 | the glob loop collects `Candidates` |
| UndoUtils.RenderDetails | channel_manager_lib/undo_utils.py:462-472 | the summary loop builds `Details` |
| UndoUtils.UndoSummary | channel_manager_lib/undo_utils.py:390-482 | a summary needs an undo file with a stamped name, the backup directory, and a backup no later than the undo file |
| UndoUtils.GetUndoSummary | channel_manager_lib/undo_utils.py:390-482 | the summary is `UndoSummary` of the undo file and the backups |
| UndoUtils.RestorePayloads | channel_manager_lib/undo_utils.py:241-258 | a stored entry that is not a dict raises; otherwise the payloads are the stored dicts with a truthy `id` |
| UndoUtils.CountOk | channel_manager_lib/undo_utils.py:286-303 | the successes are at most the restores, and all of them exactly when every restore succeeded |
| UndoUtils.PrepareRestore | channel_manager_lib/undo_utils.py:241-258 | the restore loop builds `RestorePayloads` |
| UndoUtils.RaisedAtPrefix | channel_manager_lib/undo_utils.py:243-252 | an entry that raises stops the whole restore, whatever follows |
| UndoUtils.TallyRestores | channel_manager_lib/undo_utils.py:286-303 | the tally counts the successful restores, and the rest as failures |
| UndoUtils.UndoResult | channel_manager_lib/undo_utils.py:194-328 | records are sent only with the tool, after the confirmation, and they are exactly the restore payloads of the file; the undo raises exactly when a usable file holds a non-dict entry; a 1 after sending means some restore failed |
| UndoUtils.PerformUndo | channel_manager_lib/undo_utils.py:194-328 | the undo ends as `UndoResult` says |
| UndoUtils.FiltersOf | channel_manager_lib/undo_utils.py:101-114 | the filters are read only from a truthy dict document |
| UndoUtils.ChannelIds | channel_manager_lib/undo_utils.py:123 | a filtered entry that is not a dict raises; otherwise the ids are the truthy `id`s of the filtered channels |
| UndoUtils.Fetched | channel_manager_lib/undo_utils.py:140-159 | the saved details are exactly the dict replies to the fetched ids, never more than the ids |
| UndoUtils.FetchDetails | channel_manager_lib/undo_utils.py:136-163 | the fetch loop collects `Fetched` and counts every other reply as an error |
| UndoUtils.SaveUndoData | channel_manager_lib/undo_utils.py:71-192 | the save ends as `SaveUndo` says, a filter that raises included |
| UndoUtils.SaveUndo | channel_manager_lib/undo_utils.py:71-192 | a snapshot is saved only with the tool, the channels and the filters, when the directory and the write succeed, is never empty, and is named for the API type, the configuration and the clock; a raise needs the tool, the channels and the filters |
| UndoProps.UndoStemParts | channel_manager_lib/undo_utils.py:182-407 | an undo stem has at least four '_'-parts, the last being a '_'-free timestamp |
| UndoProps.UndoNameParts | channel_manager_lib/undo_utils.py:179-410 | every undo file name `save_undo_data` writes has at least four '_'-parts, the last being its timestamp |
| UndoProps.UndoNameTimestamp | channel_manager_lib/undo_utils.py:179-414 | the summary reads back the time `save_undo_data` put in the name, to the millisecond |
| UndoProps.GlobMatchesLongerName | channel_manager_lib/undo_utils.py:373-375 | the undo file of the configuration `<config>_<other>` matches the glob of `<config>` |
| UndoProps.GlobCollision | channel_manager_lib/undo_utils.py:373-385 | the undo file of "site_b" is returned as the newest undo file of "site" |
| UndoProps.LastSeparator | channel_manager_lib/undo_utils.py:373 | two ways of ending a string with a separator and a separator-free tail agree |
| UndoProps.OwnUndoNameMatches | channel_manager_lib/undo_utils.py:373 | the corrected match takes `undo_<api>_<config>_<ts>.json`, given a '_'-free `<ts>` |
| UndoProps.OwnUndoNameOnly | channel_manager_lib/undo_utils.py:373 | the corrected match takes `undo_<api>_<other>_<ts>.json` only when `<other>` is the configuration |
| UndoProps.OwnUndoFileExact | channel_manager_lib/undo_utils.py:373-375 | the corrected match takes an undo file for exactly the configuration it was written for |
| UndoProps.OwnLatestUndoFile | channel_manager_lib/undo_utils.py:356-388 | the corrected search finds a file whenever the directory holds one of the configuration, and returns only such files |
| UndoProps.ChosenBackupIsNearest | channel_manager_lib/undo_utils.py:427-451 | a backup is chosen iff one is no later than the undo file, and it is the latest such one |
| UndoProps.SummaryTextMessage | channel_manager_lib/undo_utils.py:474-478 | the fixed message appears exactly when no line was written |
| UndoProps.MissingValueShown | channel_manager_lib/undo_utils.py:466-471 | a missing `value` is shown as the marker, in quotes as `repr()` writes it |
| UndoProps.SummaryOfBackup | channel_manager_lib/undo_utils.py:390-482 | a summary exists iff the undo file is a file with a stamped name, the backup directory exists, a backup is chosen and its `updates` read; it lists exactly the enabled entries after its prefix, or the fixed message when none is enabled |
| UndoProps.ShortNameNoSummary | channel_manager_lib/undo_utils.py:407-410 | a name of fewer than four '_'-parts gives no summary |
| UndoProps.UndoOutcomes | channel_manager_lib/undo_utils.py:194-328 | an unusable file ends with 1; a non-dict entry raises; what is sent, only after the confirmation, is exactly the stored dicts with a truthy `id`; the code is 1 iff the file was unusable or a restore failed |
| UndoProps.UndoRestoresEverything | channel_manager_lib/undo_utils.py:241-328 | with every stored record carrying an `id` and every restore succeeding, the undo sends them all and ends with 0 |
| UndoProps.SavedSnapshot | channel_manager_lib/undo_utils.py:71-192 | a saved snapshot needs the tool, channels and the filters; it is non-empty, its name reads back the clock, and each of its records is the detail reply for a filtered channel's `id` |
| UndoProps.NothingToSave | channel_manager_lib/undo_utils.py:85-120 | nothing is saved without the tool, without channels, or when the filters return no channel |
| UndoProps.FilterRaiseEscapesSave | channel_manager_lib/undo_utils.py:117 | the filtering in the save is outside any handler: a filter that raises makes the save raise |
| LegacyToolBase.RStrip | channel_tool_base.py:80 | `rstrip('/')` removes exactly the trailing run of '/', leaving a prefix that does not end with one |
| LegacyToolBase.NormalizeSiteUrlProperties | channel_tool_base.py:80 | a normalised site URL ends with exactly one '/', keeps everything before its trailing slashes, and normalising again changes nothing |
| LegacyToolBase.NormalizeSiteUrlOfPlain | channel_tool_base.py:80 | a URL without a trailing '/' gains one, and one with exactly one is kept |
| LegacyToolBase.LoadApiConfig | channel_tool_base.py:71-82 | a connection file loads iff it is a JSON object with `site_url` and `api_token` whose `site_url` is text; the loaded dict is the file's with only `site_url` normalised; missing keys and a scalar root are reported as such |
| LegacyToolBase.LoadUpdateConfig | channel_tool_base.py:84-101 | an update file loads only as a dict, returned as it is, and a dict loads iff its `filters` and `updates`, where present, are dicts; a scalar root fails with TypeError, a list or string root with TypeError when it holds a section name and otherwise at the closing log line's `config.get` |
| LegacyToolBase.ModeAccepted | channel_tool_base.py:181-186 | the legacy check passes exactly the modes the current check passes, "all" included, and raises only for an unhashable mode |
| LegacyToolBase.MatchFilter | channel_tool_base.py:188-204 | no filters match everything; None matches no filters; `any` is a substring test, `exact` a string equality and `none` the absence of every filter text; other modes match nothing, and non-iterable filters raise |
| LegacyToolBase.MatchFilterAgreesWithCurrent | channel_tool_base.py:188-204 | on filters that hold no None, the legacy `_match_filter` has the same outcome as the current one, raises included |
| LegacyToolBase.LooseModesAgree | channel_tool_base.py:196-201 | in `any` and `none` modes the two `_match_filter`s have the same outcome, raises included, on a non-None value |
| LegacyToolBase.StrsOfNonNull | channel_tool_base.py:194 | filters without None give a non-empty text list holding the text of each filter |
| LegacyToolBase.AnyStrsOf | channel_tool_base.py:194-197 | a filter occurs in the text iff one of the filter texts does |
| LegacyToolBase.ItemsOfTruthy | channel_tool_base.py:190 | truthy iterable filters have at least one item |
| LegacyToolBase.StrippedNonBlankMembers | channel_tool_base.py:236 | the kept names are exactly the non-blank stripped pieces |
| LegacyToolBase.CommaListIsCommaPieces | channel_tool_base.py:236 | the legacy comma list holds the same names as the current comma pieces |
| LegacyToolBase.AnyListed | channel_tool_base.py:237 | the `any(gf in group_list ...)` test raises iff the filters are not iterable |
| LegacyToolBase.GuardsAreConjunction | channel_tool_base.py:206-263 | the early-return guards accept iff every guard passes, and raise iff the first guard that does not pass raises |
| LegacyToolBase.ChannelMatches | channel_tool_base.py:206-263 | a non-dict record gives False; a dict matches iff each of the five categories is unset or passes, and the call raises iff a set category raises after every earlier one passed |
| LegacyToolBase.GroupTestAgreesWithCurrent | channel_tool_base.py:233-239 | on a non-blank text group, with group filters whose items are hashable, the legacy group test has the outcome the current inclusion test has |
| LegacyToolBase.Comprehension | channel_tool_base.py:170-173 | the comprehension keeps, in order, the channels that match, and raises iff some channel's test raises |
| LegacyToolBase.FilterChannels | channel_tool_base.py:149-179 | no configuration, an empty configuration or no channels give an empty list, and the result is always a sublist of the channels |
| LegacyToolBase.FilterChannelsIsComprehension | channel_tool_base.py:149-179 | with a dict of filters and a valid mode, filtering is the comprehension over the channels |
| LegacyToolBase.FilterChannelsMembers | channel_tool_base.py:149-179 | with a dict of filters and a valid mode, filtering raises iff some channel's test raises, and otherwise keeps exactly the matching channels |
| LegacyToolBase.FilterChannelsInvalidMode | channel_tool_base.py:158-165 | an unknown hashable mode gives an empty result |
| LegacyToolBase.Texts | channel_tool_base.py:322 | each list item is replaced by its `str()` |
| LegacyToolBase.ListFieldChange | channel_tool_base.py:317-331 | a rule value that is neither list nor text changes nothing; a change sends the sorted names joined by ',', exactly when they differ as a multiset from the current names |
| LegacyToolBase.DictFieldChange | channel_tool_base.py:291-315 | a dict field's change is always text; when the rule value reads as a dict, the field changes iff the current value does not read as an equal one, and becomes that dict's JSON text; otherwise it changes iff the `str()` texts differ |
| LegacyToolBase.SortedTail | channel_tool_base.py:319-329 | the tail of a sorted list is sorted |
| LegacyToolBase.SortedSameHead | channel_tool_base.py:319-329 | two sorted lists with the same elements start alike |
| LegacyToolBase.SortedUnique | channel_tool_base.py:319-329 | two sorted lists with the same elements are equal, so `sorted` comparison is multiset comparison |
| LegacyToolBase.TextRuleChangesOnDifferentText | channel_tool_base.py:333-344 | a text rule on a simple field changes a non-None value exactly when its `str()` differs |
| LegacyToolBase.SimpleFieldChange | channel_tool_base.py:333-344 | a simple field's change writes the rule value as it is; a None field changes iff the rule value is not None; when the conversion fails the field changes iff the `str()` texts differ |
| LegacyToolBase.FieldChange | channel_tool_base.py:283-349 | a rule that is not enabled changes nothing; a dict field's change is text; a simple field's change is the rule's `value` |
| LegacyToolBase.PreparedUpdate | channel_tool_base.py:265-356 | no payload means no changed fields; a payload has changed fields, holds the channel's keys and those fields, and keeps every other value |
| LegacyToolBase.ApplyRules | channel_tool_base.py:283-349 | a rule that is not a dict raises; otherwise the payload is the channel overwritten by the collected changes, and the changed fields are their keys |
| LegacyToolBase.PrepareUpdatePayload | channel_tool_base.py:265-356 | the method computes `PreparedUpdate` |
| LegacyOneApi.AppConfig.constructor | oneapi_channel_tool.py:19-25 | the class attributes start as None and empty dicts |
| LegacyOneApi.AppConfig.LoadApiConfig | oneapi_channel_tool.py:35-56 | a JSON object sets URL, token and user id from the file, and is accepted iff all three are truthy; anything else fails and leaves them; the filters and updates never change |
| LegacyOneApi.AppConfig.LoadUpdateConfig | oneapi_channel_tool.py:58-82 | a JSON object sets the filters and the updates from the file, accepted iff both are dicts; anything else fails and leaves them; the connection settings never change |
| LegacyOneApi.ValidateMatchMode | oneapi_channel_tool.py:102-107 | exactly "any", "exact" and "none" pass; an unhashable mode raises |
| LegacyOneApi.MatchFilter | oneapi_channel_tool.py:109-125 | no filters match everything; a falsy value matches no filters; `any`, `exact` and `none` are substring, equality and absence tests on the `str()` texts; other modes match nothing; non-iterable filters raise in the three modes |
| LegacyOneApi.ListCategory | oneapi_channel_tool.py:412-436 | a value that is not text raises at `.split`; on text, `any` is some text filter among the comma pieces and `none` is no such filter, both raising iff the filters are not iterable; `exact` raises iff the filters are not iterable or not sortable, and otherwise holds iff the pieces and the filters are the same multiset; any other mode gives False |
| LegacyOneApi.Conjunction | oneapi_channel_tool.py:409-447 | the five results accept iff all accept, and raise iff one raises |
| LegacyOneApi.Scan | oneapi_channel_tool.py:401-451 | the loop keeps, in order, the dict channels that match, and raises iff some channel's test raises |
| LegacyOneApi.Filtered | oneapi_channel_tool.py:371-460 | the result is a sublist of the channels; an unknown hashable mode gives an empty list; with a valid mode the kept channels are exactly the dicts that match |
| LegacyOneApi.ScanRaiseEndsLoop | oneapi_channel_tool.py:401-451 | once a channel raises, the whole call raises, whatever follows |
| LegacyOneApi.FilterChannels | oneapi_channel_tool.py:371-460 | the loop computes `Filtered` of the configured filters |
| LegacyProps.StrippedNonBlankClean | channel_tool_base.py:236 | the kept names are trimmed and non-empty |
| LegacyProps.StrippedNonBlankOfClean | channel_tool_base.py:236 | trimmed non-empty names are kept as they are |
| LegacyProps.CommaListCommaFree | channel_tool_base.py:319 | the comma pieces of a text hold no comma |
| LegacyProps.RuleNamesClean | channel_tool_base.py:320-324 | the names of a list-field rule value are trimmed and non-empty |
| LegacyProps.CommaListOfEmpty | channel_tool_base.py:319 | the empty text has no names |
| LegacyProps.CommaListOfJoin | channel_tool_base.py:319-331 | names joined by ',' read back as the same names, when they are trimmed, non-empty and free of commas |
| LegacyProps.ListChangeIsStable | channel_tool_base.py:317-331 | once a list change is written, the same rule reports no change, for comma-free names |
| LegacyProps.TextListChangeIsStable | channel_tool_base.py:317-331 | a text rule value on a list field never reports a change twice |
| LegacyProps.DictChangeIsStable | channel_tool_base.py:291-315 | with a lawful JSON codec, writing a dict field's new value and comparing again reports no change |
| LegacyProps.TextAndFlagsConvertBack | channel_tool_base.py:336 | `str()` and `bool()` turn a text or a boolean into itself |
| LegacyProps.SimpleChangeIsStable | channel_tool_base.py:333-344 | a simple field takes the rule value, and comparing again reports no change when that value converts to itself |
| LegacyProps.FieldChangeReadsOwnField | channel_tool_base.py:286 | a rule's change depends on the channel only through the rule's own field |
| LegacyProps.FieldChangeIsStable | channel_tool_base.py:283-349 | writing one stable rule's change and evaluating it again reports no change |
| LegacyProps.NoRuleChangesAfter | channel_tool_base.py:283-349 | after writing every change of its stable rules, no rule changes the channel again |
| LegacyProps.ReapplyReportsNoChange | channel_tool_base.py:265-356 | preparing an update again from its own payload reports nothing to do, when every rule is stable |
| LegacyProps.ChangedFieldsHaveEnabledRules | channel_tool_base.py:283-349 | every reported field has a dict rule whose `enabled` is truthy |
| LegacyProps.MatchFiltersAgree | oneapi_channel_tool.py:109-125 | for a truthy value and one of the three modes, the single-file `match_filter` agrees with the base class's |
| LegacyProps.MatchFiltersDifferOnEmptyText | oneapi_channel_tool.py:109-125 | they differ on a falsy value: the empty name against ["x"] in `none` mode |
| LegacyOneApi.BagOfNames | oneapi_channel_tool.py:418 | the `sorted` projection of a list of names is its multiset |
| LegacyOneApi.SortedEqualIsSameBag | oneapi_channel_tool.py:418 | `sorted(names) == sorted(filters)` holds iff the names' texts and the filters are the same multiset, filters that are not text included |
| LegacyProps.ExactListIsSortedEquality | oneapi_channel_tool.py:412-418 | for text filters, the `exact` group test is `sorted` equality of the comma pieces with the filters |
| LegacyProps.SortedEqualNames | oneapi_channel_tool.py:418 | `sorted` equality of two name lists is equality of their multisets |
| LegacyProps.ExactListIsPermutation | oneapi_channel_tool.py:412-418 | the `exact` group test holds iff the comma pieces are a permutation of the filters |
| LegacyProps.NoneIsNotAny | oneapi_channel_tool.py:412-421 | `none` is the negation of `any` on the comma pieces of a text |
| LegacyProps.AllModeRejected | oneapi_channel_tool.py:102-107 | "all", which the base class accepts, empties the results of the single-file tool |

## Left out

- Concurrency: `asyncio.gather`, semaphores and the parallel source/target fetch are left out; `asyncio.sleep` request intervals are left out. Each run is sequential in the model, and results arrive as given sequences in input order.
- HTTP: pagination in `get_all_channels`, `update_channel_api`, `get_channel_details` and its random back-off are left out, because the network is outside the model. Their results, (records or nothing, message) and (ok, message), are inputs.
- Legacy `get_channel_list` and `update_channel` in oneapi_channel_tool.py are left out: they are networking. This includes the floating-point coercion at oneapi_channel_tool.py:265-298.
- Interactive I/O: every `input()` prompt is a boolean or answer parameter. `print` output, menus (channel_manager_lib/cli_handler.py), logging setup, main_tool.py and the retry-session wiring in oneapi_tool_utils/network_utils.py are left out, because they are user interface and process wiring.
- `ask_and_clear_update_config` is left out, because it is an interactive prompt that rewrites a file. The config clean-up it performs after a successful run is shown only as the run's exit code.
- `channels_to_update_info` is left out, because it only formats log text.
- `run_updates` (oneapi_tool_utils/channel_tool_base.py:879-1015) is left out, because it returns 3 before doing anything.
- oneapi_tool_utils/channel_tool_base.py:625-682 is left out, because control never reaches it. The root voapi_channel_tool.py and newapi_channel_tool.py are left out, because they hold only networking.
- The call mismatch between the CLI and the cross-site handler (channel_manager_lib/cli_handler.py:608-617 against channel_manager_lib/cross_site_handler.py:23) is not modelled: the handler is modelled with its own signature.
- The cross-site handler's call to `save_undo_data` with a list where a path is expected (channel_manager_lib/cross_site_handler.py:525) is not modelled: whether the undo save succeeded is an input of the cross-site run.
- YAML and JSON parsing and serialisation (RFC 8259 JSON), `re.sub`, `datetime.strptime`/`strftime`, glob, mtime and file deletion are parameters or given data, because they are foreign engines. Only the laws the proofs need are stated, as predicates. Timestamps are formatted and parsed by hand in `Timestamps`.
- The legacy dynamic coercion `type(new_value)(current_value)` (channel_tool_base.py:333-344) is a `Convert` parameter, because Python's constructors for arbitrary types are outside the model.
- Exceptions: every exception class collapses to one outcome, `Raises` or a failure exit, because the program only catches and reports them. The TypeErrors the filters raise (a list or dict where a set or dict lookup needs a hashable value, a filter that cannot be iterated, a non-string `in` a string) are modelled as `Raises`, and each handler that catches them ends its run as the source does. Log messages are not modelled.
- `updated_fields` and the changed-field lists are modelled as sets. The order in which fields were appended, which shows only in log output, is left out.
- Dictionary insertion order is modelled as sorted key order: in the undo summary's field listing (channel_manager_lib/undo_utils.py:462-472) and in `str()` of a dict. Dafny maps have no order.
- `str()` of lists and dicts does not model `repr`'s quote escaping. `json.dumps` escaping is inside the JSON engine parameter.
- `lower()` is ASCII only, because the program uses it only to look for "quota". `int()` does not accept underscores or non-ASCII digits. `strip()` uses Python's whitespace set.
- `sorted()` on a list that mixes strings with numbers, or that holds lists or dicts, is modelled as the `TypeError` it raises. The exception is that lists of lists count as unsortable even where Python could order them.
- Timestamps.ParseStamp: accepts only the zero-padded form that `strftime` writes (four-digit year, two-digit fields). `strptime` also accepts one-digit fields and splits runs of digits greedily, so the program reads names the model rejects: `2024-1-5-1234561` parses, and `2024-01-05-245959123` parses as 02:45:09.591230. Such names are never written by the program itself.
- UndoUtils.GlobMatch: shapes one `*` between a fixed prefix and suffix. The `*`, `?` and `[` that an `api_type` or a config name could contain are read literally, whereas `glob` would treat them as wildcards.
- Values.Value: has no floats. A fractional JSON or YAML number, `int()` of a float `priority`, `str(1.0)` and the equality `1.0 == 1` are outside the model; numbers are integers.
- PyStrings.Upper: ASCII letters only. The program upper-cases only the configured log level, to compare it with the five ASCII level names.
- When a failed channel test carries no message, the default message is treated as not mentioning "quota".
- PatchProperties.PlannedUpdateIdempotent: proved only for rules that are reapplicable. Those exclude `regex_replace` (a regex need not be idempotent) and `priority` on New API in modes other than `overwrite`. Comma-free names are needed for `append`/`remove`, and a lawful JSON codec for `merge`/`delete_keys`.
- PatchProperties.ReappliedRuleIsStable: the same restriction to reapplicable rules, for one field.
- CrossSiteProps.SimpleCopyIsStable: excludes New API's `priority`, because New API converts `priority` with int() before sending, so the stored value can differ from the raw source value it is compared with.
- CrossSiteProps.ListCopyIsStable: needs comma-free names on both sides, because a comma inside a name splits it on read-back.
- CrossSiteProps.DictCopyIsStable: needs a lawful JSON codec.
- LegacyProps.ReapplyReportsNoChange: needs stable rules: comma-free names for list fields, and a simple value that the `Convert` parameter maps back to itself.

## Findings

| source | as written | input that shows it | evidently intended | confidence | as-written member | corrected member |
|---|---|---|---|---|---|---|
| channel_manager_lib/undo_utils.py:373-385 | The glob `undo_{api_type}_{config_name}_*.json` is a prefix pattern. The undo file of a connection config whose name extends another's after a `_` also matches. | The listing holds only `UndoFileName("newapi", "site_b", now)`, and the search is for config `site`. | Only files whose middle part is exactly the config's name, followed by a timestamp, are candidates. | medium, not executed | UndoProps.GlobCollision | UndoProps.OwnUndoFileExact |
| channel_manager_lib/single_site_handler.py:374 | `get_all_channels()` is async (oneapi_tool_utils/newapi_channel_tool.py:22, oneapi_tool_utils/voapi_channel_tool.py:22), but its result is unpacked without `await`. Unpacking the coroutine raises a TypeError, which the handler at 388-391 turns into exit code 1. Test-and-enable therefore never tests anything. | SingleSiteProps.ExampleTestInputs: one auto-disabled channel whose test passes. | Await the listing, test the auto-disabled channels and enable the ones that pass. | high, not executed | SingleSiteProps.UnawaitedListingLosesEnable | SingleSiteHandler.RunTestAndEnableDisabled |
