/**
 * The abstract channel tool of the current generation
 * (oneapi_tool_utils/channel_tool_base.py): its own copy of the channel
 * filter, which knows only the `id` short-circuit and rejects the `exact` and
 * `none` modes once inclusion filters are set, and the patch calculation
 * `_prepare_update_payload`, which turns the enabled update rules into the
 * payload of one update call.
 */
module ChannelToolBase {
  import opened Wrappers
  import opened PyStrings
  import opened Values
  import opened Engines
  import opened DataHelpers
  import opened Sublists
  import opened FilteringUtils
  import opened Vendors

  // ----- Filtering -----

  /** `_channel_matches_filters(channel, filters_config)` of the base class. */
  function BaseChannelMatches(channel: Value, cfg: Record, json: JsonCodec): (r: Outcome<bool>)
    ensures !channel.VMap? ==> r == Returns(false)
    ensures channel.VMap? && Get(cfg, "id", VNull) != VNull ==>
      r == Returns(IdMatch(Get(channel.fields, "id", VNull), Get(cfg, "id", VNull)))
    ensures channel.VMap? && Get(cfg, "id", VNull) == VNull ==>
      (Excluded(channel.fields, cfg, json) == Raises ==> r == Raises)
      && (Excluded(channel.fields, cfg, json) == Returns(true) ==> r == Returns(false))
  {
    if !channel.VMap? then Returns(false)
    else
      var ch := channel.fields;
      var filterId := Get(cfg, "id", VNull);
      if filterId != VNull then Returns(IdMatch(Get(ch, "id", VNull), filterId))
      else
        match Excluded(ch, cfg, json)
        case Raises => Raises
        case Returns(excluded) =>
          if excluded then Returns(false)
          else if !HasIncludeFilter(cfg) then Returns(true)
          else
            match ConfigMode(cfg)
            case AllMode => AllModeMatch(ch, cfg)
            case AnyMode => AnyModeMatch(ch, cfg)
            case _ => Returns(false)
  }

  /** The base class's channel test of a configuration, as the comprehension applies it. */
  function BaseMatcher(cfg: Record, json: JsonCodec): Value -> Outcome<bool>
  {
    c => BaseChannelMatches(c, cfg, json)
  }

  /**
   * `filter_channels(channel_list, filters_config)` of the base class: a falsy
   * configuration returns the list as it is; an empty list, a configuration
   * that is not a dict or an invalid `match_mode` give []; an unhashable
   * `match_mode` raises, and so does the first channel whose test raises;
   * otherwise the matching channels in their original order.
   */
  function BaseFilterChannels(channels: seq<Value>, config: Value, json: JsonCodec): (r: Outcome<seq<Value>>)
    ensures !Truthy(config) ==> r == Returns(channels)
    ensures Truthy(config) && (channels == [] || !config.VMap?) ==> r == Returns([])
    ensures Truthy(config) && channels != [] && config.VMap? ==>
      var mode := Get(config.fields, "match_mode", VStr("any"));
      (!Hashable(mode) ==> r == Raises) && (Hashable(mode) && !ValidMatchMode(mode) ==> r == Returns([]))
    ensures r.Returns? ==> IsSublist(r.value, channels)
    ensures Truthy(config) && config.VMap? && ValidMatchMode(Get(config.fields, "match_mode", VStr("any"))) ==>
      (r == Raises <==> exists c :: c in channels && BaseChannelMatches(c, config.fields, json) == Raises)
      && (r.Returns? ==> forall c :: c in r.value <==> c in channels && BaseChannelMatches(c, config.fields, json) == Returns(true))
      && (r.Returns? ==> r.value == Select(channels, ReturnsTrue(BaseMatcher(config.fields, json))))
  {
    if !Truthy(config) then
      IsSublistReflexive(channels);
      Returns(channels)
    else if channels == [] then Returns([])
    else if !config.VMap? then Returns([])
    else
      match ModeAccepted(Get(config.fields, "match_mode", VStr("any")))
      case Raises => Raises
      case Returns(valid) =>
        if !valid then Returns([])
        else SelectOrRaise(channels, BaseMatcher(config.fields, json))
  }

  /** A list of channel records as the values `filter_channels` takes. */
  function AsChannels(records: seq<Record>): (r: seq<Value>)
    ensures |r| == |records|
    ensures forall i :: 0 <= i < |records| ==> r[i] == VMap(records[i])
  {
    seq(|records|, i requires 0 <= i < |records| => VMap(records[i]))
  }

  /** A list of dict values is the channel list of its own records, copies included. */
  lemma AsChannelsOfRecords(channels: seq<Value>)
    requires forall c :: c in channels ==> c.VMap?
    ensures AsChannels(AsRecords(channels)) == channels
  {
    assert forall i :: 0 <= i < |channels| ==> channels[i] in channels;
  }

  /** The records of a filtered list of channel values (a non-dict reads as an empty record). */
  function AsRecords(channels: seq<Value>): (r: seq<Record>)
    ensures |r| == |channels|
    ensures forall i :: 0 <= i < |channels| && channels[i].VMap? ==> r[i] == channels[i].fields
  {
    seq(|channels|, i requires 0 <= i < |channels| => if channels[i].VMap? then channels[i].fields else map[])
  }

  /**
   * Without `id_filters` and `key_filter`, the base filter agrees with the
   * filtering module in every mode but `exact`, which the base class rejects
   * once inclusion filters are set: the same answer and the same raises.
   */
  lemma BaseAgreesWithFilteringUtils(channel: Value, cfg: Record, json: JsonCodec)
    requires !(Get(cfg, "id_filters", VNull).VList? && Get(cfg, "id_filters", VNull).items != [])
    requires Get(cfg, "key_filter", VNull) == VNull
    ensures ConfigMode(cfg) != ExactMode ==> BaseChannelMatches(channel, cfg, json) == ChannelMatchesFilters(channel, cfg, json)
    ensures BaseChannelMatches(channel, cfg, json) == Returns(true) ==> ChannelMatchesFilters(channel, cfg, json) == Returns(true)
  {
    if channel.VMap? {
      var ch := channel.fields;
      assert ShortCircuit(ch, cfg) == if Get(cfg, "id", VNull) != VNull then Some(IdMatch(Get(ch, "id", VNull), Get(cfg, "id", VNull))) else None;
    }
  }

  /**
   * With inclusion filters set and no `id`, the `exact` and `none` modes
   * never keep a channel: it is rejected, or an exclusion test raises.
   */
  lemma BaseExactAndNoneReject(channel: Value, cfg: Record, json: JsonCodec)
    requires Get(cfg, "id", VNull) == VNull && HasIncludeFilter(cfg)
    requires Get(cfg, "match_mode", VStr("any")) in {VStr("exact"), VStr("none")}
    ensures BaseChannelMatches(channel, cfg, json) != Returns(true)
    ensures channel.VMap? && Excluded(channel.fields, cfg, json) != Raises ==> BaseChannelMatches(channel, cfg, json) == Returns(false)
  {
    assert ConfigMode(cfg) == ExactMode || ConfigMode(cfg) == NoneMode;
  }

  // ----- Patch calculation -----

  /** `isinstance(v, (str, list, dict)) and not v`. */
  predicate EmptyContainer(v: Value)
  {
    (v.VStr? || v.VList? || v.VMap?) && !Truthy(v)
  }

  predicate AllStrings(xs: seq<Value>)
  {
    forall i :: 0 <= i < |xs| ==> xs[i].VStr?
  }

  predicate AllNumbers(xs: seq<Value>)
  {
    forall i :: 0 <= i < |xs| ==> IsNumber(xs[i])
  }

  /** The projections of the elements of a list that `proj` accepts, with multiplicity. */
  function Bag<T>(xs: seq<Value>, proj: Value -> Option<T>): multiset<T>
  {
    if xs == [] then multiset{}
    else
      (match proj(xs[0])
       case Some(t) => multiset{t}
       case None => multiset{}) + Bag(xs[1..], proj)
  }

  function StringOf(v: Value): Option<string>
  {
    if v.VStr? then Some(v.s) else None
  }

  /** A number (booleans as 0 and 1), as `sorted` compares it. */
  function NumberOf(v: Value): Option<int>
  {
    if IsNumber(v) then Some(NumOf(v)) else None
  }

  /**
   * `sorted(xs)` succeeds: a list of at most one element, or one whose
   * elements are all strings or all numbers (anything else raises TypeError).
   */
  predicate Sortable(xs: seq<Value>)
  {
    |xs| <= 1 || AllStrings(xs) || AllNumbers(xs)
  }

  /** `sorted(a) == sorted(b)` for two sortable lists: the same elements with the same multiplicities. */
  predicate SortedEqual(a: seq<Value>, b: seq<Value>)
  {
    |a| == |b|
    && (|a| == 1 ==> PyEq(a[0], b[0]))
    && (|a| >= 2 ==>
          (AllStrings(a) && AllStrings(b) && Bag(a, StringOf) == Bag(b, StringOf))
          || (AllNumbers(a) && AllNumbers(b) && Bag(a, NumberOf) == Bag(b, NumberOf)))
  }

  /**
   * The change test on the formatted original `fo` and formatted new value
   * `fn`: None against an empty string, list or dict is no change; two lists
   * are compared after sorting (a list that cannot be sorted raises, and the
   * field is skipped, which is again no change); anything else is compared
   * with `!=`.
   */
  predicate Changed(fo: Value, fn: Value)
  {
    if fn == VNull && EmptyContainer(fo) then false
    else if fo == VNull && EmptyContainer(fn) then false
    else if fo.VList? && fn.VList? then
      Sortable(fo.items) && Sortable(fn.items) && !SortedEqual(fo.items, fn.items)
    else !PyEq(fo, fn)
  }

  /** A rule's `mode`, `overwrite` when absent. */
  function RuleMode(rule: Record): Value
  {
    Get(rule, "mode", VStr("overwrite"))
  }

  /** A rule's `value`, None when absent. */
  function RuleValue(rule: Record): Value
  {
    Get(rule, "value", VNull)
  }

  /** The keys `delete_keys` removes: none when the value is None, the normalised set otherwise. */
  function KeysToDelete(value: Value): set<string>
  {
    if value == VNull then {} else NormalizeToSet(value)
  }

  /** The update modes a rule can name; any other `mode` is unknown and the field is skipped. */
  datatype Mode = Overwrite | RegexReplace | Append | Remove | Merge | DeleteKeys | UnknownMode

  /** The mode a rule's `mode` value names. */
  function ModeOf(mode: Value): (r: Mode)
    ensures r == Overwrite <==> mode == VStr("overwrite")
    ensures r == RegexReplace <==> mode == VStr("regex_replace")
    ensures r == Append <==> mode == VStr("append")
    ensures r == Remove <==> mode == VStr("remove")
    ensures r == Merge <==> mode == VStr("merge")
    ensures r == DeleteKeys <==> mode == VStr("delete_keys")
    ensures r == UnknownMode <==>
      mode !in {VStr("overwrite"), VStr("regex_replace"), VStr("append"), VStr("remove"), VStr("merge"), VStr("delete_keys")}
  {
    if mode == VStr("overwrite") then Overwrite
    else if mode == VStr("regex_replace") then RegexReplace
    else if mode == VStr("append") then Append
    else if mode == VStr("remove") then Remove
    else if mode == VStr("merge") then Merge
    else if mode == VStr("delete_keys") then DeleteKeys
    else UnknownMode
  }

  /** The text `pattern` and `replacement` of a `regex_replace` value, if it is a dict holding both as text. */
  function RegexArgs(value: Value): Option<(string, string)>
  {
    if value.VMap? && "pattern" in value.fields && "replacement" in value.fields
      && value.fields["pattern"].VStr? && value.fields["replacement"].VStr?
    then Some((value.fields["pattern"].s, value.fields["replacement"].s))
    else None
  }

  /**
   * The value a rule computes for a field from its original value, before
   * the final formatting; None when the field is skipped (a `regex_replace`
   * that does not apply or fails, an unknown mode).
   */
  function NewValue(vendor: Vendor, rule: Record, original: Value, json: JsonCodec, regex: RegexSub): (r: Option<Value>)
  {
    var value := RuleValue(rule);
    match ModeOf(RuleMode(rule))
    case Overwrite => Some(value)
    case RegexReplace =>
      if original.VStr? && RegexArgs(value).Some? then
        match regex(RegexArgs(value).value.0, RegexArgs(value).value.1, original.s)
        case Some(text) => Some(VStr(text))
        case None => None
      else None
    case Append => Some(FormatListField(vendor, NormalizeToSet(original) + NormalizeToSet(value)))
    case Remove => Some(FormatListField(vendor, NormalizeToSet(original) - NormalizeToSet(value)))
    case Merge => Some(FormatDictField(vendor, NormalizeToDict(original, json) + NormalizeToDict(value, json), json))
    case DeleteKeys => Some(FormatDictField(vendor, NormalizeToDict(original, json) - KeysToDelete(value), json))
    case UnknownMode => None
  }

  /** A rule that takes part: a dict whose `enabled` is `True`. */
  predicate Enabled(rule: Value)
  {
    rule.VMap? && Get(rule.fields, "enabled", VNull) == VBool(true)
  }

  /** What one rule contributes to the payload: the formatted new value when the field changes, None otherwise. */
  function FieldOutcome(vendor: Vendor, field: string, rule: Value, channel: Record, json: JsonCodec, regex: RegexSub): (r: Option<Value>)
  {
    if !Enabled(rule) then None
    else
      match NewValue(vendor, rule.fields, Get(channel, field, VNull), json, regex)
      case None => None
      case Some(nv) =>
        var fn := FormatFieldValue(vendor, field, nv);
        var fo := FormatFieldValue(vendor, field, Get(channel, field, VNull));
        if Changed(fo, fn) then Some(fn) else None
  }

  /** The outcome of the rule of each field (a field without a rule has none). */
  function RuleOutcomes(updates: map<string, Value>, vendor: Vendor, channel: Record, json: JsonCodec,
                        regex: RegexSub): string -> Option<Value>
  {
    f => FieldOutcome(vendor, f, Get(updates, f, VNull), channel, json, regex)
  }

  /** The fields among `fields` that have an outcome, mapped to it. */
  function Collect<V>(fields: set<string>, outcome: string -> Option<V>): map<string, V>
  {
    map f | f in fields && outcome(f).Some? :: outcome(f).value
  }

  /** `updates` of a loaded update configuration is a dict, as the loader checks. */
  predicate WellFormedUpdates(updateConfig: Option<Record>)
  {
    updateConfig.Some? && "updates" in updateConfig.value ==> updateConfig.value["updates"].VMap?
  }

  /**
   * The result `_prepare_update_payload` specifies: (None, {}) without an
   * `updates` section, without a truthy channel id, or when nothing changes;
   * otherwise the id plus every changed field with its formatted new value.
   */
  function PlannedUpdate(updateConfig: Option<Record>, channel: Record, vendor: Vendor, json: JsonCodec,
                         regex: RegexSub): (r: (Option<Record>, set<string>))
    requires WellFormedUpdates(updateConfig)
    ensures r.0.None? <==> r.1 == {}
    ensures r.0.Some? ==> Truthy(Get(channel, "id", VNull)) && r.0.value.Keys == r.1 + {"id"}
    ensures r.1 != {} ==> updateConfig.Some? && "updates" in updateConfig.value && r.1 <= updateConfig.value["updates"].fields.Keys
  {
    if updateConfig.None? || "updates" !in updateConfig.value then (None, {})
    else if !Truthy(Get(channel, "id", VNull)) then (None, {})
    else
      var updates := updateConfig.value["updates"].fields;
      var changes := Collect(updates.Keys, RuleOutcomes(updates, vendor, channel, json, regex));
      if changes == map[] then (None, {})
      else (Some(map["id" := channel["id"]] + changes), changes.Keys)
  }

  /** The `delete_keys` loop: removes each listed key the dict holds (the count of deletions only feeds a log line). */
  method DeleteListedKeys(d: map<string, Value>, keys: set<string>) returns (result: map<string, Value>)
    ensures result == d - keys
  {
    result := d;
    var todo := keys;
    ghost var done: set<string> := {};
    while todo != {}
      invariant todo + done == keys && todo !! done
      invariant result == d - done
      decreases todo
    {
      var key :| key in todo;
      if key in result {
        result := result - {key};
      }
      todo := todo - {key};
      done := done + {key};
    }
  }

  /** Computes the new value of one rule, running the `delete_keys` loop where the mode asks for it. */
  method ComputeNewValue(vendor: Vendor, rule: Record, original: Value, json: JsonCodec, regex: RegexSub)
    returns (nv: Option<Value>)
    ensures nv == NewValue(vendor, rule, original, json, regex)
  {
    if ModeOf(RuleMode(rule)) == DeleteKeys {
      var finalDict := DeleteListedKeys(NormalizeToDict(original, json), KeysToDelete(RuleValue(rule)));
      assert NewValue(vendor, rule, original, json, regex)
        == Some(FormatDictField(vendor, NormalizeToDict(original, json) - KeysToDelete(RuleValue(rule)), json));
      nv := Some(FormatDictField(vendor, finalDict, json));
    } else {
      nv := NewValue(vendor, rule, original, json, regex);
    }
  }

  /** Evaluates one update rule against the channel: the formatted new value when the field changes. */
  method EvaluateRule(vendor: Vendor, field: string, rule: Value, channel: Record, json: JsonCodec, regex: RegexSub)
    returns (outcome: Option<Value>)
    ensures outcome == FieldOutcome(vendor, field, rule, channel, json, regex)
  {
    outcome := None;
    if Enabled(rule) {
      var original := Get(channel, field, VNull);
      var nv := ComputeNewValue(vendor, rule.fields, original, json, regex);
      if nv.Some? {
        var fn := FormatFieldValue(vendor, field, nv.value);
        var fo := FormatFieldValue(vendor, field, original);
        if Changed(fo, fn) {
          outcome := Some(fn);
        }
      }
    }
  }

  /** Taking one more field into account adds its outcome, if any. */
  lemma CollectStep<V>(done: set<string>, field: string, outcome: string -> Option<V>)
    requires field !in done
    ensures Collect(done + {field}, outcome)
      == if outcome(field).Some? then Collect(done, outcome)[field := outcome(field).value] else Collect(done, outcome)
  {
  }

  lemma MergeThenUpdate<V>(m: map<string, V>, c: map<string, V>, k: string, v: V)
    ensures (m + c)[k := v] == m + c[k := v]
  {
  }
}
