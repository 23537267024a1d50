/**
 * Channel filter evaluation of the current generation
 * (oneapi_tool_utils/filtering_utils.py): a prioritised decision procedure
 * of `id_filters`, `id` and `key_filter` short-circuits, then exclusions,
 * then the inclusion categories combined under `match_mode`.
 */
module FilteringUtils {
  import opened Wrappers
  import opened PyStrings
  import opened Values
  import opened Engines
  import opened DataHelpers
  import opened Sublists

  /** `validate_match_mode`: the accepted modes; any other value raises ValueError. */
  predicate ValidMatchMode(mode: Value)
  {
    mode.VStr? && mode.s in {"any", "exact", "none", "all"}
  }

  /**
   * `validate_match_mode(match_mode)`, the membership test against the set of
   * modes: an unhashable mode raises TypeError; Returns(false) stands for the
   * ValueError of any other invalid mode.
   */
  function ModeAccepted(mode: Value): (r: Outcome<bool>)
    ensures r == Returns(true) <==> ValidMatchMode(mode)
    ensures r == Raises <==> !Hashable(mode)
  {
    if !Hashable(mode) then Raises else Returns(ValidMatchMode(mode))
  }

  /** The `match_mode` of a filter configuration, decoded once. */
  datatype MatchMode = AllMode | AnyMode | ExactMode | NoneMode | InvalidMode

  function MatchModeOf(mode: Value): (r: MatchMode)
    ensures r == AllMode <==> mode == VStr("all")
    ensures r == AnyMode <==> mode == VStr("any")
    ensures r == ExactMode <==> mode == VStr("exact")
    ensures r == NoneMode <==> mode == VStr("none")
    ensures r == InvalidMode <==> !ValidMatchMode(mode)
  {
    if mode == VStr("all") then AllMode
    else if mode == VStr("any") then AnyMode
    else if mode == VStr("exact") then ExactMode
    else if mode == VStr("none") then NoneMode
    else InvalidMode
  }

  /** The decoded `match_mode` of a configuration, `any` when absent. */
  function ConfigMode(cfg: Record): MatchMode
  {
    MatchModeOf(Get(cfg, "match_mode", VStr("any")))
  }

  /**
   * Python iteration over a filter value: a list yields its items, a string
   * its characters, a dict its keys; other values yield nothing.
   */
  function Items(v: Value): (r: seq<Value>)
    ensures v.VList? ==> r == v.items
    ensures r != [] ==> Truthy(v)
  {
    match v
    case VList(xs) => xs
    case VStr(s) => seq(|s|, i requires 0 <= i < |s| => VStr([s[i]]))
    case VMap(m) =>
      var ks := SortedSeq(m.Keys);
      seq(|ks|, i requires 0 <= i < |ks| => VStr(ks[i]))
    case _ => []
  }

  /** `[str(f) for f in items if f is not None]`. */
  function StrsOf(items: seq<Value>): (r: seq<string>)
    ensures forall t :: t in r <==> exists f :: f in items && f != VNull && PyStr(f) == t
  {
    if items == [] then []
    else
      var rest := StrsOf(items[1..]);
      assert forall f :: f in items <==> f == items[0] || f in items[1..];
      (if items[0] != VNull then [PyStr(items[0])] else []) + rest
  }

  function FilterStrings(filters: Value): seq<string>
  {
    StrsOf(Items(filters))
  }

  /**
   * `match_filter(value, filter_list, match_mode)`. An empty filter list, or
   * one holding only Nones, matches; a None value never matches a non-empty
   * list; a truthy filter value that cannot be iterated raises; `any` asks
   * for some filter occurring in `str(value)`, `exact` for `str(value)` being
   * one of the filters, `none` for no filter occurring in it; every other
   * mode fails.
   */
  function MatchFilter(value: Value, filters: Value, mode: string): (r: Outcome<bool>)
    ensures !Truthy(filters) ==> r == Returns(true)
    ensures Truthy(filters) && value == VNull ==> r == Returns(false)
    ensures r == Raises <==> Truthy(filters) && value != VNull && !Iterable(filters)
    ensures r.Returns? && value != VNull && FilterStrings(filters) == [] ==> r.value
    ensures r.Returns? && value != VNull && FilterStrings(filters) != [] ==>
      (mode == "any" ==> (r.value <==> exists f :: f in FilterStrings(filters) && Occurs(f, PyStr(value))))
      && (mode == "exact" ==> (r.value <==> PyStr(value) in FilterStrings(filters)))
      && (mode == "none" ==> (r.value <==> forall f :: f in FilterStrings(filters) ==> !Occurs(f, PyStr(value))))
      && (mode != "any" && mode != "exact" && mode != "none" ==> !r.value)
  {
    if !Truthy(filters) then Returns(true)
    else if value == VNull then Returns(false)
    else if !Iterable(filters) then Raises
    else
      var text := PyStr(value);
      var strs := FilterStrings(filters);
      if strs == [] then Returns(true)
      else if mode == "any" then Returns(exists f | f in strs :: Contains(text, f))
      else if mode == "exact" then Returns(text in strs)
      else if mode == "none" then Returns(forall f | f in strs :: !Contains(text, f))
      else Returns(false)
  }

  /**
   * `any(g in names for g in items)` against a set or the keys of a dict: it
   * stops at the first item that is one of the names, and raises TypeError
   * on an unhashable item reached before that.
   */
  function AnyItemIn(items: seq<Value>, names: set<string>): (r: Outcome<bool>)
    ensures r.Returns? ==> (r.value <==> exists g :: g in items && g.VStr? && g.s in names)
    ensures (forall g :: g in items ==> Hashable(g)) ==> r.Returns?
    decreases |items|
  {
    if items == [] then Returns(false)
    else
      assert forall g :: g in items <==> g == items[0] || g in items[1..];
      if !Hashable(items[0]) then Raises
      else if items[0].VStr? && items[0].s in names then Returns(true)
      else AnyItemIn(items[1..], names)
  }

  /** `g` is one of the names. */
  predicate Named(g: Value, names: set<string>)
  {
    g.VStr? && g.s in names
  }

  /** An unhashable item at `k`, and none of the names before it. */
  predicate RaisesAt(items: seq<Value>, names: set<string>, k: int)
  {
    0 <= k < |items| && !Hashable(items[k]) && forall i :: 0 <= i < k ==> !Named(items[i], names)
  }

  /** `any` over a set raises exactly when an unhashable item comes before every item that is one of the names. */
  lemma {:induction false} AnyItemInRaises(items: seq<Value>, names: set<string>)
    ensures AnyItemIn(items, names) == Raises <==> exists k :: RaisesAt(items, names, k)
    decreases |items|
  {
    if items != [] {
      var tail := items[1..];
      AnyItemInRaises(tail, names);
      if !Hashable(items[0]) {
        assert RaisesAt(items, names, 0);
      } else if Named(items[0], names) {
        assert forall k :: !RaisesAt(items, names, k);
      } else {
        assert AnyItemIn(items, names) == AnyItemIn(tail, names);
        assert forall k :: 0 < k <= |items| ==> (RaisesAt(items, names, k) <==> RaisesAt(tail, names, k - 1)) by {
          forall k | 0 < k <= |items| ensures RaisesAt(items, names, k) <==> RaisesAt(tail, names, k - 1) {
            assert forall i :: 1 <= i < |items| ==> items[i] == tail[i - 1];
          }
        }
        assert !RaisesAt(items, names, 0);
        if exists j :: RaisesAt(tail, names, j) {
          var j :| RaisesAt(tail, names, j);
          assert RaisesAt(items, names, j + 1);
        }
      }
    }
  }

  /** `any(g in names for g in filters)` over a truthy filter value, which raises when it cannot be iterated. */
  function AnyIn(filters: Value, names: set<string>): (r: Outcome<bool>)
    ensures r.Returns? ==> (r.value <==> exists g :: g in Items(filters) && g.VStr? && g.s in names)
    ensures !Iterable(filters) ==> r == Raises
    ensures Iterable(filters) && (forall g :: g in Items(filters) ==> Hashable(g)) ==> r.Returns?
  {
    if !Iterable(filters) then Raises else AnyItemIn(Items(filters), names)
  }

  /** `filters_config.get(key, [])`: a missing filter is an empty list. */
  function FilterValue(cfg: Record, key: string): Value
  {
    Get(cfg, key, VList([]))
  }

  // ----- Short-circuits -----

  /** `id_filters`: every filter and the channel id convert with `int()`, and the id is among them. */
  predicate IdFiltersMatch(channelId: Value, idFilters: seq<Value>)
  {
    (forall f | f in idFilters :: PyInt(f).Some?)
    && PyInt(channelId).Some?
    && exists f | f in idFilters :: PyInt(f).value == PyInt(channelId).value
  }

  /** `id`: integer equality when both convert, raw `==` otherwise. */
  predicate IdMatch(channelId: Value, filterId: Value)
  {
    if PyInt(channelId).Some? && PyInt(filterId).Some? then PyInt(channelId).value == PyInt(filterId).value
    else PyEq(channelId, filterId)
  }

  /** The channel's key: `key`, or `apikey` when `key` is missing or None. */
  function ChannelKey(ch: Record): Value
  {
    var k := Get(ch, "key", VNull);
    if k == VNull then Get(ch, "apikey", VNull) else k
  }

  /** The decision of the first short-circuit that applies, or None to go on to the regular filters. */
  function ShortCircuit(ch: Record, cfg: Record): (r: Option<bool>)
  {
    var idFilters := Get(cfg, "id_filters", VNull);
    var filterId := Get(cfg, "id", VNull);
    var filterKey := Get(cfg, "key_filter", VNull);
    if idFilters.VList? && idFilters.items != [] then Some(IdFiltersMatch(Get(ch, "id", VNull), idFilters.items))
    else if filterId != VNull then Some(IdMatch(Get(ch, "id", VNull), filterId))
    else if filterKey != VNull then Some(PyEq(ChannelKey(ch), filterKey))
    else None
  }

  // ----- Exclusions -----

  /** The key under which the channel keeps its parameter overrides. */
  function OverrideKey(ch: Record): string
  {
    if "override_params" in ch then "override_params" else "param_override"
  }

  /**
   * One step of an `if <filters> and <test>: ... elif ...` chain: a set
   * category whose test holds decides True, a raise propagates, and
   * otherwise the chain goes on.
   */
  function OrElse(isSet: bool, test: Outcome<bool>, rest: Outcome<bool>): Outcome<bool>
  {
    if !isSet then rest
    else
      match test
      case Raises => Raises
      case Returns(hit) => if hit then Returns(true) else rest
  }

  /** Whether some exclusion list matches the channel, the lists tried in the source's order. */
  function Excluded(ch: Record, cfg: Record, json: JsonCodec): Outcome<bool>
  {
    var exName := FilterValue(cfg, "exclude_name_filters");
    var exGroup := FilterValue(cfg, "exclude_group_filters");
    var exModel := FilterValue(cfg, "exclude_model_filters");
    var exMapping := FilterValue(cfg, "exclude_model_mapping_keys");
    var exOverride := FilterValue(cfg, "exclude_override_params_keys");
    OrElse(Truthy(exName), MatchFilter(Get(ch, "name", VStr("")), exName, "any"),
    OrElse(Truthy(exGroup), AnyIn(exGroup, NormalizeToSet(Get(ch, "group", VStr("")))),
    OrElse(Truthy(exModel), AnyIn(exModel, NormalizeToSet(Get(ch, "models", VStr("")))),
    OrElse(Truthy(exMapping), AnyIn(exMapping, NormalizeToDict(Get(ch, "model_mapping", VNull), json).Keys),
    OrElse(Truthy(exOverride), AnyIn(exOverride, NormalizeToDict(Get(ch, OverrideKey(ch), VNull), json).Keys),
      Returns(false))))))
  }

  // ----- Inclusions -----

  /** Some inclusion category (name, group, model, tag, type) is set. */
  predicate HasIncludeFilter(cfg: Record)
  {
    Truthy(FilterValue(cfg, "name_filters")) || Truthy(FilterValue(cfg, "group_filters"))
    || Truthy(FilterValue(cfg, "model_filters")) || Truthy(FilterValue(cfg, "tag_filters"))
    || Truthy(FilterValue(cfg, "type_filters"))
  }

  function NameIncluded(ch: Record, cfg: Record): Outcome<bool>
  {
    MatchFilter(Get(ch, "name", VStr("")), FilterValue(cfg, "name_filters"), "any")
  }

  function GroupIncluded(ch: Record, cfg: Record): Outcome<bool>
  {
    AnyIn(FilterValue(cfg, "group_filters"), NormalizeToSet(Get(ch, "group", VStr(""))))
  }

  function ModelIncluded(ch: Record, cfg: Record): Outcome<bool>
  {
    AnyIn(FilterValue(cfg, "model_filters"), NormalizeToSet(Get(ch, "models", VStr(""))))
  }

  function TagIncluded(ch: Record, cfg: Record): Outcome<bool>
  {
    AnyIn(FilterValue(cfg, "tag_filters"), NormalizeToSet(Get(ch, "tag", VStr(""))))
  }

  /** `channel.get('type') in type_filters`. */
  function TypeIncluded(ch: Record, cfg: Record): Outcome<bool>
  {
    Membership(Get(ch, "type", VNull), FilterValue(cfg, "type_filters"))
  }

  /** Each inclusion category, whether it is set and its test, in the source's order. */
  function IncludeTests(ch: Record, cfg: Record): seq<(bool, Outcome<bool>)>
  {
    [ (Truthy(FilterValue(cfg, "name_filters")), NameIncluded(ch, cfg)),
      (Truthy(FilterValue(cfg, "group_filters")), GroupIncluded(ch, cfg)),
      (Truthy(FilterValue(cfg, "model_filters")), ModelIncluded(ch, cfg)),
      (Truthy(FilterValue(cfg, "tag_filters")), TagIncluded(ch, cfg)),
      (Truthy(FilterValue(cfg, "type_filters")), TypeIncluded(ch, cfg)) ]
  }

  /**
   * `all` mode: every set category's test runs, so a raise in any of them
   * propagates; otherwise the channel matches when every set one holds.
   */
  function AllModeMatch(ch: Record, cfg: Record): Outcome<bool>
  {
    var tests := IncludeTests(ch, cfg);
    if exists i | 0 <= i < |tests| :: tests[i].0 && tests[i].1 == Raises then Raises
    else Returns(forall i | 0 <= i < |tests| :: tests[i].0 ==> tests[i].1 == Returns(true))
  }

  /**
   * `any` mode, the source's elif chain: the first category that is set and
   * matches decides, except that a set tag category ends the chain whether
   * it matches or not.
   */
  function AnyModeMatch(ch: Record, cfg: Record): Outcome<bool>
  {
    var tagSet := Truthy(FilterValue(cfg, "tag_filters"));
    var typeSet := Truthy(FilterValue(cfg, "type_filters"));
    OrElse(Truthy(FilterValue(cfg, "name_filters")), NameIncluded(ch, cfg),
    OrElse(Truthy(FilterValue(cfg, "group_filters")), GroupIncluded(ch, cfg),
    OrElse(Truthy(FilterValue(cfg, "model_filters")), ModelIncluded(ch, cfg),
      if tagSet then TagIncluded(ch, cfg)
      else if typeSet then TypeIncluded(ch, cfg)
      else Returns(false))))
  }

  /** `exact` mode looks at the name filters only. */
  function ExactModeMatch(ch: Record, cfg: Record): Outcome<bool>
  {
    var nameFilters := FilterValue(cfg, "name_filters");
    if Truthy(nameFilters) then MatchFilter(Get(ch, "name", VStr("")), nameFilters, "exact") else Returns(false)
  }

  /** `channel_matches_filters(channel, filters_config)`. */
  function ChannelMatchesFilters(channel: Value, cfg: Record, json: JsonCodec): (r: Outcome<bool>)
    ensures !channel.VMap? ==> r == Returns(false)
    ensures channel.VMap? && ShortCircuit(channel.fields, cfg).Some? ==> r == Returns(ShortCircuit(channel.fields, cfg).value)
    ensures channel.VMap? && ShortCircuit(channel.fields, cfg).None? ==>
      (Excluded(channel.fields, cfg, json) == Raises ==> r == Raises)
      && (Excluded(channel.fields, cfg, json) == Returns(true) ==> r == Returns(false))
  {
    if !channel.VMap? then Returns(false)
    else
      var ch := channel.fields;
      match ShortCircuit(ch, cfg)
      case Some(decided) => Returns(decided)
      case None =>
        match Excluded(ch, cfg, json)
        case Raises => Raises
        case Returns(excluded) =>
          if excluded then Returns(false)
          else if !HasIncludeFilter(cfg) then Returns(true)
          else
            match ConfigMode(cfg)
            case AllMode => AllModeMatch(ch, cfg)
            case AnyMode => AnyModeMatch(ch, cfg)
            case ExactMode => ExactModeMatch(ch, cfg)
            case _ => Returns(false)
  }

  /**
   * `filter_channels(channel_list, filters_config)`: a falsy configuration
   * returns the list as it is; an empty list, a configuration that is not a
   * dict or an invalid `match_mode` give []; an unhashable `match_mode`
   * raises, and so does the first channel whose test raises; otherwise the
   * matching channels in their original order.
   */
  function FilterChannels(channels: seq<Value>, config: Value, json: JsonCodec): (r: Outcome<seq<Value>>)
    ensures !Truthy(config) ==> r == Returns(channels)
    ensures Truthy(config) && (channels == [] || !config.VMap?) ==> r == Returns([])
    ensures Truthy(config) && channels != [] && config.VMap? ==>
      var mode := Get(config.fields, "match_mode", VStr("any"));
      (!Hashable(mode) ==> r == Raises) && (Hashable(mode) && !ValidMatchMode(mode) ==> r == Returns([]))
    ensures r.Returns? ==> IsSublist(r.value, channels)
    ensures Truthy(config) && config.VMap? && ValidMatchMode(Get(config.fields, "match_mode", VStr("any"))) ==>
      (r == Raises <==> exists c :: c in channels && ChannelMatchesFilters(c, config.fields, json) == Raises)
      && (r.Returns? ==> forall c :: c in r.value <==> c in channels && ChannelMatchesFilters(c, config.fields, json) == Returns(true))
      && (r.Returns? ==> r.value == Select(channels, ReturnsTrue(Matcher(config.fields, json))))
  {
    if !Truthy(config) then
      IsSublistReflexive(channels);
      Returns(channels)
    else if channels == [] then Returns([])
    else if !config.VMap? then Returns([])
    else
      match ModeAccepted(Get(config.fields, "match_mode", VStr("any")))
      case Raises => Raises
      case Returns(valid) =>
        if !valid then Returns([])
        else SelectOrRaise(channels, Matcher(config.fields, json))
  }

  /** The channel test of a configuration, as the comprehension applies it. */
  function Matcher(cfg: Record, json: JsonCodec): Value -> Outcome<bool>
  {
    c => ChannelMatchesFilters(c, cfg, json)
  }

  lemma {:induction false} IsSublistReflexive(s: seq<Value>)
    ensures IsSublist(s, s)
    decreases |s|
  {
    if s != [] {
      IsSublistReflexive(s[1..]);
    }
  }

  // ----- Properties -----

  /** `none` is the negation of `any` once there is a value and some filter text. */
  lemma NoneNegatesAny(value: Value, filters: Value)
    requires value != VNull && Iterable(filters) && FilterStrings(filters) != []
    ensures MatchFilter(value, filters, "any").Returns? && MatchFilter(value, filters, "none").Returns?
    ensures MatchFilter(value, filters, "none").value == !MatchFilter(value, filters, "any").value
  {
  }

  /** A value equal to some filter also contains it, so `exact` implies `any`. */
  lemma ExactImpliesAny(value: Value, filters: Value)
    requires MatchFilter(value, filters, "exact") == Returns(true)
    ensures MatchFilter(value, filters, "any") == Returns(true)
  {
    var text := PyStr(value);
    if value != VNull && FilterStrings(filters) != [] {
      assert text in FilterStrings(filters);
      assert OccursAt(text, text, 0);
    }
  }

  /**
   * A non-empty `id_filters` list alone decides: the result is integer
   * membership of the channel id, and every other criterion is ignored.
   */
  lemma IdFiltersDecide(ch: Record, cfg: Record, other: Record, json: JsonCodec)
    requires "id_filters" in cfg && cfg["id_filters"].VList? && cfg["id_filters"].items != []
    requires "id_filters" in other && other["id_filters"] == cfg["id_filters"]
    ensures ChannelMatchesFilters(VMap(ch), cfg, json) == Returns(IdFiltersMatch(Get(ch, "id", VNull), cfg["id_filters"].items))
    ensures ChannelMatchesFilters(VMap(ch), cfg, json) == ChannelMatchesFilters(VMap(ch), other, json)
  {
  }

  /** An `id_filters` entry that does not convert with `int()` rejects every channel. */
  lemma IdFiltersUnconvertible(ch: Record, cfg: Record, json: JsonCodec, bad: Value)
    requires "id_filters" in cfg && cfg["id_filters"].VList? && bad in cfg["id_filters"].items
    requires PyInt(bad).None?
    ensures ChannelMatchesFilters(VMap(ch), cfg, json) == Returns(false)
  {
  }

  /** Without a usable `id_filters`, a non-None `id` decides by integer equality, falling back to raw `==`. */
  lemma IdDecides(ch: Record, cfg: Record, json: JsonCodec)
    requires !(Get(cfg, "id_filters", VNull).VList? && Get(cfg, "id_filters", VNull).items != [])
    requires Get(cfg, "id", VNull) != VNull
    ensures ChannelMatchesFilters(VMap(ch), cfg, json) == Returns(
      var cid, fid := Get(ch, "id", VNull), cfg["id"];
      if PyInt(cid).Some? && PyInt(fid).Some? then PyInt(cid).value == PyInt(fid).value else PyEq(cid, fid))
  {
  }

  /** Next, a non-None `key_filter` decides by equality with `key`, or with `apikey` when `key` is None. */
  lemma KeyDecides(ch: Record, cfg: Record, json: JsonCodec)
    requires !(Get(cfg, "id_filters", VNull).VList? && Get(cfg, "id_filters", VNull).items != [])
    requires Get(cfg, "id", VNull) == VNull && Get(cfg, "key_filter", VNull) != VNull
    ensures ChannelMatchesFilters(VMap(ch), cfg, json) ==
      Returns(PyEq(if Get(ch, "key", VNull) != VNull then ch["key"] else Get(ch, "apikey", VNull), cfg["key_filter"]))
  {
  }

  /**
   * Without short-circuits, a matching exclusion rejects the channel
   * whatever the inclusion filters say: the first exclusion list that is set
   * and matches decides, unless an earlier one raised.
   */
  lemma ExclusionRejects(ch: Record, cfg: Record, json: JsonCodec)
    requires ShortCircuit(ch, cfg).None?
    requires var exGroup := FilterValue(cfg, "exclude_group_filters");
      Truthy(exGroup) && AnyIn(exGroup, NormalizeToSet(Get(ch, "group", VStr("")))) == Returns(true)
    requires var exName := FilterValue(cfg, "exclude_name_filters");
      !Truthy(exName) || MatchFilter(Get(ch, "name", VStr("")), exName, "any") != Raises
    ensures ChannelMatchesFilters(VMap(ch), cfg, json) == Returns(false)
  {
  }

  /**
   * An exclusion list that cannot be iterated, or unhashable elements in
   * the exclusion list of groups, raise TypeError out of the channel test
   * once no earlier exclusion has decided.
   */
  lemma ExclusionRaises(ch: Record, cfg: Record, json: JsonCodec)
    requires ShortCircuit(ch, cfg).None?
    requires var exName := FilterValue(cfg, "exclude_name_filters");
      !Truthy(exName) || MatchFilter(Get(ch, "name", VStr("")), exName, "any") == Returns(false)
    requires var exGroup := FilterValue(cfg, "exclude_group_filters");
      Truthy(exGroup) && !Iterable(exGroup)
    ensures ChannelMatchesFilters(VMap(ch), cfg, json) == Raises
  {
  }

  /** A channel that survives exclusion matches when no inclusion category is set, in every mode. */
  lemma NoIncludeAccepts(ch: Record, cfg: Record, json: JsonCodec)
    requires ShortCircuit(ch, cfg).None? && Excluded(ch, cfg, json) == Returns(false) && !HasIncludeFilter(cfg)
    ensures ChannelMatchesFilters(VMap(ch), cfg, json) == Returns(true)
  {
  }

  /**
   * The regular filters in each mode: `all` matches when every set category
   * holds and raises when one of them raises, `exact` looks at the names,
   * `none` fails.
   */
  lemma ModeSemantics(ch: Record, cfg: Record, json: JsonCodec)
    requires ShortCircuit(ch, cfg).None? && Excluded(ch, cfg, json) == Returns(false) && HasIncludeFilter(cfg)
    ensures Get(cfg, "match_mode", VStr("any")) == VStr("all") ==>
      (ChannelMatchesFilters(VMap(ch), cfg, json) == Returns(true) <==>
        forall i :: 0 <= i < 5 ==> IncludeTests(ch, cfg)[i].0 ==> IncludeTests(ch, cfg)[i].1 == Returns(true))
      && (ChannelMatchesFilters(VMap(ch), cfg, json) == Raises <==>
        exists i :: 0 <= i < 5 && IncludeTests(ch, cfg)[i].0 && IncludeTests(ch, cfg)[i].1 == Raises)
    ensures Get(cfg, "match_mode", VStr("any")) == VStr("exact") ==>
      ChannelMatchesFilters(VMap(ch), cfg, json) ==
        if Truthy(FilterValue(cfg, "name_filters"))
        then MatchFilter(Get(ch, "name", VStr("")), FilterValue(cfg, "name_filters"), "exact")
        else Returns(false)
    ensures Get(cfg, "match_mode", VStr("any")) == VStr("none") ==> ChannelMatchesFilters(VMap(ch), cfg, json) == Returns(false)
  {
  }

  /** In `any` mode a match in an earlier category suffices when no category before it raised. */
  lemma AnyModeEarlyCategory(ch: Record, cfg: Record, json: JsonCodec)
    requires ShortCircuit(ch, cfg).None? && Excluded(ch, cfg, json) == Returns(false)
    requires Get(cfg, "match_mode", VStr("any")) == VStr("any")
    requires Truthy(FilterValue(cfg, "name_filters")) ==> NameIncluded(ch, cfg).Returns?
    requires Truthy(FilterValue(cfg, "group_filters")) ==> GroupIncluded(ch, cfg).Returns?
    requires (Truthy(FilterValue(cfg, "name_filters")) && NameIncluded(ch, cfg) == Returns(true))
      || (Truthy(FilterValue(cfg, "group_filters")) && GroupIncluded(ch, cfg) == Returns(true))
      || (Truthy(FilterValue(cfg, "model_filters")) && ModelIncluded(ch, cfg) == Returns(true))
    ensures ChannelMatchesFilters(VMap(ch), cfg, json) == Returns(true)
  {
    assert HasIncludeFilter(cfg);
  }

  /**
   * In `any` mode, once the tag category is set and does not match, the
   * channel is rejected even when its type is among the type filters.
   */
  lemma AnyModeTagShadowsType(ch: Record, cfg: Record, json: JsonCodec)
    requires ShortCircuit(ch, cfg).None? && Excluded(ch, cfg, json) == Returns(false)
    requires Get(cfg, "match_mode", VStr("any")) == VStr("any")
    requires Truthy(FilterValue(cfg, "name_filters")) ==> NameIncluded(ch, cfg) == Returns(false)
    requires Truthy(FilterValue(cfg, "group_filters")) ==> GroupIncluded(ch, cfg) == Returns(false)
    requires Truthy(FilterValue(cfg, "model_filters")) ==> ModelIncluded(ch, cfg) == Returns(false)
    requires Truthy(FilterValue(cfg, "tag_filters")) && TagIncluded(ch, cfg) == Returns(false)
    ensures ChannelMatchesFilters(VMap(ch), cfg, json) == Returns(false)
  {
    assert HasIncludeFilter(cfg);
  }

  /** Filtering twice with the same configuration gives the same outcome as filtering once. */
  lemma FilterChannelsIdempotent(channels: seq<Value>, config: Value, json: JsonCodec)
    requires FilterChannels(channels, config, json).Returns?
    ensures FilterChannels(FilterChannels(channels, config, json).value, config, json) == FilterChannels(channels, config, json)
  {
    var once := FilterChannels(channels, config, json).value;
    if Truthy(config) && once != [] && config.VMap? && ValidMatchMode(Get(config.fields, "match_mode", VStr("any"))) {
      SelectOrRaiseAll(once, Matcher(config.fields, json));
    }
  }
}
