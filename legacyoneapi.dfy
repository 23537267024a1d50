/**
 * The single-file tool of the legacy generation (oneapi_channel_tool.py at
 * the repository root): the `AppConfig` class that holds the loaded
 * configuration, and its channel filter, an AND over five categories whose
 * `match_mode` (any, exact or none) applies inside every category.
 */
module LegacyOneApi {
  import opened Wrappers
  import opened PyStrings
  import opened Values
  import opened Sublists
  import FilteringUtils
  import ChannelToolBase
  import CrossSiteActions
  import Base = LegacyToolBase

  // ----- Configuration -----

  /** `AppConfig`: the configuration as class-level fields, None and empty dicts until loaded. */
  class AppConfig {
    var baseUrl: Value
    var token: Value
    var userId: Value
    var filters: Value
    var updates: Value

    constructor()
      ensures baseUrl == VNull && token == VNull && userId == VNull
      ensures filters == VMap(map[]) && updates == VMap(map[])
    {
      baseUrl := VNull;
      token := VNull;
      userId := VNull;
      filters := VMap(map[]);
      updates := VMap(map[]);
    }

    /**
     * `_load_api_config(path)`: a dict document sets the URL, the token and
     * the user id (each "" when missing) and then fails unless all three are
     * truthy; the fields it set stay set. Any other document fails before
     * setting anything.
     */
    method LoadApiConfig(file: Base.JsonFile) returns (error: Option<Base.LoadError>)
      modifies this
      ensures filters == old(filters) && updates == old(updates)
      ensures !(file.JsonDocument? && file.content.VMap?) ==>
        error.Some? && baseUrl == old(baseUrl) && token == old(token) && userId == old(userId)
      ensures file.JsonDocument? && file.content.VMap? ==>
        var m := file.content.fields;
        && baseUrl == Get(m, "site_url", VStr("")) && token == Get(m, "api_token", VStr(""))
        && userId == Get(m, "user_id", VStr(""))
        && (error.None? <==> Truthy(baseUrl) && Truthy(token) && Truthy(userId))
        && (error.Some? ==> error == Some(Base.MissingKeys))
    {
      match Base.JsonContent(file)
      case Err(e) =>
        return Some(e);
      case Ok(v) =>
        if !v.VMap? {
          return Some(Base.NoDictMethod);
        }
        baseUrl := Get(v.fields, "site_url", VStr(""));
        token := Get(v.fields, "api_token", VStr(""));
        userId := Get(v.fields, "user_id", VStr(""));
        if !(Truthy(baseUrl) && Truthy(token) && Truthy(userId)) {
          return Some(Base.MissingKeys);
        }
        return None;
    }

    /**
     * `_load_update_config(path)`: a dict document sets `FILTERS` and
     * `UPDATES` (each {} when missing); reading their keys for the log then
     * fails when either is not a dict, after both were set. Any other
     * document fails before setting anything.
     */
    method LoadUpdateConfig(file: Base.JsonFile) returns (error: Option<Base.LoadError>)
      modifies this
      ensures baseUrl == old(baseUrl) && token == old(token) && userId == old(userId)
      ensures !(file.JsonDocument? && file.content.VMap?) ==>
        error.Some? && filters == old(filters) && updates == old(updates)
      ensures file.JsonDocument? && file.content.VMap? ==>
        var m := file.content.fields;
        && filters == Get(m, "filters", VMap(map[])) && updates == Get(m, "updates", VMap(map[]))
        && (error.None? <==> filters.VMap? && updates.VMap?)
    {
      match Base.JsonContent(file)
      case Err(e) =>
        return Some(e);
      case Ok(v) =>
        if !v.VMap? {
          return Some(Base.NoDictMethod);
        }
        filters := Get(v.fields, "filters", VMap(map[]));
        updates := Get(v.fields, "updates", VMap(map[]));
        if !(filters.VMap? && updates.VMap?) {
          return Some(Base.NoDictMethod);
        }
        return None;
    }
  }

  // ----- Matching -----

  /** The modes this tool knows: "all" is not one of them. */
  predicate ValidMode(mode: Value)
  {
    mode.VStr? && mode.s in {"any", "exact", "none"}
  }

  /**
   * `validate_match_mode(match_mode)`: Returns(false) for the ValueError the
   * filter turns into an empty result; an unhashable mode raises TypeError,
   * which it does not catch.
   */
  function ValidateMatchMode(mode: Value): (r: Outcome<bool>)
    ensures r == Returns(true) <==> ValidMode(mode)
    ensures r == Raises <==> !Hashable(mode)
  {
    if !Hashable(mode) then Raises else Returns(ValidMode(mode))
  }

  /**
   * `match_filter(value, filter_list, match_mode)`: a falsy value never
   * matches a non-empty filter list, an empty list always matches; otherwise
   * `any` asks for some `str(f)` occurring in `str(value)`, `exact` for one
   * equal to it, `none` for none occurring in it, and other modes fail
   * without looking at the filters.
   */
  function MatchFilter(value: Value, filters: Value, mode: string): (r: Outcome<bool>)
    ensures !Truthy(value) && Truthy(filters) ==> r == Returns(false)
    ensures !Truthy(filters) ==> r == Returns(true)
    ensures r == Raises <==>
      Truthy(value) && Truthy(filters) && mode in {"any", "exact", "none"} && !Iterable(filters)
    ensures r.Returns? && Truthy(value) && Truthy(filters) ==>
      && (mode == "any" ==>
            (r.value <==> exists f :: f in FilteringUtils.Items(filters) && Occurs(PyStr(f), PyStr(value))))
      && (mode == "exact" ==> (r.value <==> exists f :: f in FilteringUtils.Items(filters) && PyStr(f) == PyStr(value)))
      && (mode == "none" ==>
            (r.value <==> forall f :: f in FilteringUtils.Items(filters) ==> !Occurs(PyStr(f), PyStr(value))))
      && (mode !in {"any", "exact", "none"} ==> !r.value)
  {
    if !Truthy(value) && Truthy(filters) then Returns(false)
    else if !Truthy(filters) then Returns(true)
    else if mode !in {"any", "exact", "none"} then Returns(false)
    else if !Iterable(filters) then Raises
    else
      var text := PyStr(value);
      var items := FilteringUtils.Items(filters);
      if mode == "any" then Returns(exists f | f in items :: Contains(text, PyStr(f)))
      else if mode == "exact" then Returns(exists f | f in items :: PyStr(f) == text)
      else Returns(forall f | f in items :: !Contains(text, PyStr(f)))
  }

  /**
   * The group and model categories: the channel's value must be a string
   * (anything else has no `split`), read as its trimmed non-empty comma
   * pieces; `any` asks for a filter among them, `exact` for the sorted pieces
   * to equal the sorted filters, `none` for no filter among them.
   */
  function ListCategory(fieldValue: Value, filters: Value, mode: string): (r: Outcome<bool>)
    ensures !fieldValue.VStr? ==> r == Raises
    ensures fieldValue.VStr? && mode == "any" ==>
      var names := Base.CommaList(fieldValue.s);
      (r == Raises <==> !Iterable(filters))
      && (r.Returns? ==> (r.value <==> exists f :: f in FilteringUtils.Items(filters) && f.VStr? && f.s in names))
    ensures fieldValue.VStr? && mode == "exact" ==>
      var names := Base.CommaList(fieldValue.s);
      (r == Raises <==> !Iterable(filters) || !ChannelToolBase.Sortable(FilteringUtils.Items(filters)))
      && (r.Returns? ==>
            (r.value <==> multiset(CrossSiteActions.AsValues(names)) == multiset(FilteringUtils.Items(filters))))
    ensures fieldValue.VStr? && mode == "none" ==>
      var names := Base.CommaList(fieldValue.s);
      (r == Raises <==> !Iterable(filters))
      && (r.Returns? ==> (r.value <==> forall f :: f in FilteringUtils.Items(filters) ==> !(f.VStr? && f.s in names)))
    ensures fieldValue.VStr? && mode !in {"any", "exact", "none"} ==> r == Returns(false)
  {
    if !fieldValue.VStr? then Raises
    else
      var names := Base.CommaList(fieldValue.s);
      if mode == "any" then Base.AnyListed(filters, names)
      else if mode == "exact" then
        if !Iterable(filters) then Raises
        else
          var items := FilteringUtils.Items(filters);
          if !ChannelToolBase.Sortable(items) then Raises
          else
            SortedEqualIsSameBag(names, items);
            Returns(ChannelToolBase.SortedEqual(CrossSiteActions.AsValues(names), items))
      else if mode == "none" then
        if !Iterable(filters) then Raises
        else Returns(forall f | f in FilteringUtils.Items(filters) :: !(f.VStr? && f.s in names))
      else Returns(false)
  }

  /** The `sorted` projection of a list of names is its multiset. */
  lemma {:induction false} BagOfNames(xs: seq<string>)
    ensures ChannelToolBase.Bag(CrossSiteActions.AsValues(xs), ChannelToolBase.StringOf) == multiset(xs)
    decreases |xs|
  {
    if xs != [] {
      BagOfNames(xs[1..]);
      assert CrossSiteActions.AsValues(xs)[1..] == CrossSiteActions.AsValues(xs[1..]);
      assert xs == [xs[0]] + xs[1..];
    }
  }

  /** Each name occurs in the list of its texts as often as in the names, and nothing else occurs there. */
  lemma {:induction false} CountsOfNames(xs: seq<string>)
    ensures forall t :: multiset(CrossSiteActions.AsValues(xs))[VStr(t)] == multiset(xs)[t]
    ensures forall v :: v in multiset(CrossSiteActions.AsValues(xs)) ==> v.VStr?
    decreases |xs|
  {
    if xs != [] {
      CountsOfNames(xs[1..]);
      assert CrossSiteActions.AsValues(xs) == [VStr(xs[0])] + CrossSiteActions.AsValues(xs[1..]);
      assert xs == [xs[0]] + xs[1..];
    }
  }

  /** Two lists of names have the same multiset exactly when the lists of their texts do. */
  lemma SameNamesSameTexts(a: seq<string>, b: seq<string>)
    ensures multiset(a) == multiset(b) <==> multiset(CrossSiteActions.AsValues(a)) == multiset(CrossSiteActions.AsValues(b))
  {
    var va, vb := CrossSiteActions.AsValues(a), CrossSiteActions.AsValues(b);
    CountsOfNames(a);
    CountsOfNames(b);
    if multiset(a) == multiset(b) {
      forall v: Value
        ensures multiset(va)[v] == multiset(vb)[v]
      {
        if v.VStr? {
          assert multiset(va)[VStr(v.s)] == multiset(a)[v.s];
        }
      }
    }
    if multiset(va) == multiset(vb) {
      forall t: string
        ensures multiset(a)[t] == multiset(b)[t]
      {
        assert multiset(va)[VStr(t)] == multiset(vb)[VStr(t)];
      }
    }
  }

  /** For two or more names, `sorted` equality holds only against text filters, and then compares the multisets of the texts. */
  lemma SortedEqualOfMany(names: seq<string>, items: seq<Value>)
    requires |names| >= 2 && |names| == |items|
    ensures ChannelToolBase.SortedEqual(CrossSiteActions.AsValues(names), items)
      <==> multiset(CrossSiteActions.AsValues(names)) == multiset(items)
  {
    var va := CrossSiteActions.AsValues(names);
    CountsOfNames(names);
    assert !ChannelToolBase.AllNumbers(va) by {
      assert !IsNumber(va[0]);
    }
    if ChannelToolBase.AllStrings(items) {
      var texts := seq(|items|, i requires 0 <= i < |items| => items[i].s);
      assert items == CrossSiteActions.AsValues(texts);
      BagOfNames(names);
      BagOfNames(texts);
      SameNamesSameTexts(names, texts);
    } else {
      var i :| 0 <= i < |items| && !items[i].VStr?;
      assert items[i] in multiset(items);
    }
  }

  /**
   * `sorted(names) == sorted(filters)`: the filters are the names' texts with
   * the same multiplicities, in any order (a filter that is not text equals
   * no name).
   */
  lemma SortedEqualIsSameBag(names: seq<string>, items: seq<Value>)
    ensures ChannelToolBase.SortedEqual(CrossSiteActions.AsValues(names), items)
      <==> multiset(CrossSiteActions.AsValues(names)) == multiset(items)
  {
    var va := CrossSiteActions.AsValues(names);
    if |va| != |items| {
      assert |multiset(va)| != |multiset(items)|;
    } else if |va| == 1 {
      assert va == [va[0]] && items == [items[0]];
      if multiset(va) == multiset(items) {
        assert items[0] in multiset(va);
      }
    } else if |va| >= 2 {
      SortedEqualOfMany(names, items);
    }
  }

  /** The five category results, all computed before they are combined: name, group, models, tag, type. */
  function CategoryResults(ch: Record, cfg: Record, mode: string): seq<Outcome<bool>>
  {
    var nameFilters := FilteringUtils.FilterValue(cfg, "name_filters");
    var groupFilters := FilteringUtils.FilterValue(cfg, "group_filters");
    var modelFilters := FilteringUtils.FilterValue(cfg, "model_filters");
    var tagFilters := FilteringUtils.FilterValue(cfg, "tag_filters");
    var typeFilters := FilteringUtils.FilterValue(cfg, "type_filters");
    [ if Truthy(nameFilters) then MatchFilter(Get(ch, "name", VStr("")), nameFilters, mode) else Returns(true),
      if Truthy(groupFilters) then ListCategory(Get(ch, "group", VStr("")), groupFilters, mode) else Returns(true),
      if Truthy(modelFilters) then ListCategory(Get(ch, "models", VStr("")), modelFilters, mode) else Returns(true),
      if Truthy(tagFilters) then MatchFilter(Get(ch, "tag", VStr("")), tagFilters, mode) else Returns(true),
      if Truthy(typeFilters) then Membership(Get(ch, "type", VNull), typeFilters) else Returns(true) ]
  }

  /** `a and b and ...` over results that were all computed: a raise in any of them propagates. */
  function Conjunction(results: seq<Outcome<bool>>): (r: Outcome<bool>)
    ensures r == Raises <==> exists i :: 0 <= i < |results| && results[i] == Raises
    ensures r == Returns(true) <==> forall i :: 0 <= i < |results| ==> results[i] == Returns(true)
  {
    if exists i | 0 <= i < |results| :: results[i].Raises? then Raises
    else Returns(forall i | 0 <= i < |results| :: results[i].value)
  }

  /** Whether a dict channel is kept. */
  function ChannelVerdict(ch: Record, cfg: Record, mode: string): Outcome<bool>
  {
    Conjunction(CategoryResults(ch, cfg, mode))
  }

  /** The channels the loop appends: dicts whose verdict is True. */
  function Keep(cfg: Record, mode: string): Value -> bool
  {
    (c: Value) => c.VMap? && ChannelVerdict(c.fields, cfg, mode) == Returns(true)
  }

  /** The loop over the channels, as far as `channels` reaches: non-dicts are skipped, and a raise ends it. */
  function Scan(channels: seq<Value>, cfg: Record, mode: string): (r: Outcome<seq<Value>>)
    ensures r.Returns? ==> r.value == Select(channels, Keep(cfg, mode))
    ensures r == Raises <==> exists c :: c in channels && c.VMap? && ChannelVerdict(c.fields, cfg, mode) == Raises
    decreases |channels|
  {
    if channels == [] then Returns([])
    else
      var init := channels[..|channels| - 1];
      var c := channels[|channels| - 1];
      assert channels == init + [c];
      assert forall d :: d in channels <==> d in init || d == c;
      SelectAppend(init, c, Keep(cfg, mode));
      match Scan(init, cfg, mode)
      case Raises => Raises
      case Returns(acc) =>
        if !c.VMap? then Returns(acc)
        else
          match ChannelVerdict(c.fields, cfg, mode)
          case Raises => Raises
          case Returns(ok) => if ok then Returns(acc + [c]) else Returns(acc)
  }

  /**
   * The result `filter_channels(channel_list)` specifies for the loaded
   * `FILTERS`: `FILTERS` must be a dict; an invalid mode or an empty list give
   * []; otherwise the dict channels whose every category matches, in their
   * original order, unless one of them raises.
   */
  function Filtered(filters: Value, channels: seq<Value>): (r: Outcome<seq<Value>>)
    ensures r.Returns? ==> IsSublist(r.value, channels)
    ensures (filters.VMap? && !ValidMode(Get(filters.fields, "match_mode", VStr("any")))
             && Hashable(Get(filters.fields, "match_mode", VStr("any")))) ==> r == Returns([])
    ensures filters.VMap? && ValidMode(Get(filters.fields, "match_mode", VStr("any"))) && r.Returns? ==>
      forall c :: c in r.value <==>
        c in channels && c.VMap? && ChannelVerdict(c.fields, filters.fields, Get(filters.fields, "match_mode", VStr("any")).s) == Returns(true)
  {
    if !filters.VMap? then Raises
    else
      var mode := Get(filters.fields, "match_mode", VStr("any"));
      match ValidateMatchMode(mode)
      case Raises => Raises
      case Returns(valid) =>
        if !valid then Returns([])
        else if channels == [] then Returns([])
        else
          SelectIsSublist(channels, Keep(filters.fields, mode.s));
          Scan(channels, filters.fields, mode.s)
  }

  /** A raise among the first `k` channels is a raise of the whole loop. */
  lemma ScanRaiseEndsLoop(channels: seq<Value>, k: nat, cfg: Record, mode: string)
    requires k <= |channels| && Scan(channels[..k], cfg, mode) == Raises
    ensures Scan(channels, cfg, mode) == Raises
  {
    var c :| c in channels[..k] && c.VMap? && ChannelVerdict(c.fields, cfg, mode) == Raises;
    assert c in channels;
  }

  /** `filter_channels(channel_list)`: validates the mode, then walks the list appending every matching channel. */
  method FilterChannels(app: AppConfig, channels: seq<Value>) returns (r: Outcome<seq<Value>>)
    ensures r == Filtered(app.filters, channels)
  {
    var filters := app.filters;
    if !filters.VMap? {
      return Raises;
    }
    var mode := Get(filters.fields, "match_mode", VStr("any"));
    var valid := ValidateMatchMode(mode);
    if valid.Raises? {
      return Raises;
    }
    if !valid.value || channels == [] {
      return Returns([]);
    }
    var cfg := filters.fields;
    var filtered: seq<Value> := [];
    var i := 0;
    while i < |channels|
      invariant 0 <= i <= |channels|
      invariant Scan(channels[..i], cfg, mode.s) == Returns(filtered)
    {
      var channel := channels[i];
      assert channels[..i + 1][..i] == channels[..i] && channels[..i + 1][i] == channel;
      if channel.VMap? {
        var verdict := ChannelVerdict(channel.fields, cfg, mode.s);
        if verdict.Raises? {
          ScanRaiseEndsLoop(channels, i + 1, cfg, mode.s);
          return Raises;
        }
        if verdict.value {
          filtered := filtered + [channel];
        }
      }
      i := i + 1;
    }
    assert channels[..|channels|] == channels;
    return Returns(filtered);
  }
}
