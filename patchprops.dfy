/**
 * Properties of the patch calculation `_prepare_update_payload`
 * (oneapi_tool_utils/channel_tool_base.py): the change test, what each list
 * and dict mode leaves in the field, the shape of the payload, and that a
 * payload, once applied, plans no further change.
 */
module PatchProperties {
  import opened Wrappers
  import opened PyStrings
  import opened Values
  import opened Engines
  import opened DataHelpers
  import opened Vendors
  import opened ChannelToolBase

  // ----- The change test -----

  /** The projections of a concatenation are those of its parts. */
  lemma {:induction false} BagAppend<T>(a: seq<Value>, b: seq<Value>, proj: Value -> Option<T>)
    ensures Bag(a + b, proj) == Bag(a, proj) + Bag(b, proj)
    decreases |a|
  {
    if a == [] {
      assert a + b == b;
    } else {
      assert (a + b)[0] == a[0];
      assert (a + b)[1..] == a[1..] + b;
      BagAppend(a[1..], b, proj);
    }
  }

  /** Reordering a list does not change its projections. */
  lemma {:induction false} BagPermutation<T>(a: seq<Value>, b: seq<Value>, proj: Value -> Option<T>)
    requires multiset(a) == multiset(b)
    ensures Bag(a, proj) == Bag(b, proj)
    decreases |a|
  {
    if a == [] {
      assert |b| == |multiset(b)| == 0;
    } else {
      assert a[0] in multiset(b);
      var i :| 0 <= i < |b| && b[i] == a[0];
      var rest := b[..i] + b[i + 1..];
      RemoveFromBoth(a, b, i);
      BagPermutation(a[1..], rest, proj);
      BagWithout(b, i, proj);
    }
  }

  /** Taking the same element out of two permutations of each other leaves permutations. */
  lemma RemoveFromBoth(a: seq<Value>, b: seq<Value>, i: int)
    requires multiset(a) == multiset(b) && a != [] && 0 <= i < |b| && b[i] == a[0]
    ensures multiset(a[1..]) == multiset(b[..i] + b[i + 1..])
  {
    assert a == [a[0]] + a[1..];
    assert b == b[..i] + [b[i]] + b[i + 1..];
    assert multiset(a[1..]) == multiset(a) - multiset{a[0]};
    assert multiset(b[..i] + b[i + 1..]) == multiset(b) - multiset{a[0]};
  }

  /** The projections of a list are those of one element plus those of the rest. */
  lemma BagWithout<T>(b: seq<Value>, i: int, proj: Value -> Option<T>)
    requires 0 <= i < |b|
    ensures Bag(b, proj) == Bag([b[i]], proj) + Bag(b[..i] + b[i + 1..], proj)
  {
    var front, back := b[..i], b[i + 1..];
    assert b == front + ([b[i]] + back);
    BagAppend(front, [b[i]] + back, proj);
    BagAppend([b[i]], back, proj);
    BagAppend(front, back, proj);
    assert Bag(b, proj) == Bag(front, proj) + (Bag([b[i]], proj) + Bag(back, proj));
  }

  /** A value never counts as changed against itself. */
  lemma ChangedIrreflexive(v: Value)
    ensures !Changed(v, v)
  {
    PyEqReflexive(v);
    if v.VList? && |v.items| == 1 {
      PyEqReflexive(v.items[0]);
    }
  }

  /** The change test does not depend on which side is the original. */
  lemma ChangedSymmetric(a: Value, b: Value)
    ensures Changed(a, b) == Changed(b, a)
  {
    if PyEq(a, b) {
      PyEqSymmetric(a, b);
    }
    if PyEq(b, a) {
      PyEqSymmetric(b, a);
    }
    if a.VList? && b.VList? && |a.items| == 1 && |b.items| == 1 {
      if PyEq(a.items[0], b.items[0]) {
        PyEqSymmetric(a.items[0], b.items[0]);
      }
      if PyEq(b.items[0], a.items[0]) {
        PyEqSymmetric(b.items[0], a.items[0]);
      }
    }
  }

  /** None and an empty string, list or dict are the same for the change test, on either side. */
  lemma NoneMatchesEmpty(v: Value)
    requires EmptyContainer(v)
    ensures !Changed(VNull, v) && !Changed(v, VNull)
  {
  }

  /** Two lists of strings, or of numbers, holding the same elements in another order are unchanged. */
  lemma ListOrderIrrelevant(a: seq<Value>, b: seq<Value>)
    requires multiset(a) == multiset(b)
    requires AllStrings(a) || AllNumbers(a)
    ensures !Changed(VList(a), VList(b))
  {
    assert |a| == |multiset(a)| == |multiset(b)| == |b|;
    forall i | 0 <= i < |b| ensures b[i] in a {
      assert b[i] in multiset(b);
    }
    if |a| == 1 {
      assert b[0] in multiset(a);
      PyEqReflexive(a[0]);
    }
    BagPermutation(a, b, StringOf);
    BagPermutation(a, b, NumberOf);
  }

  // ----- What each mode leaves in the field -----

  /** The field's value once a rule's outcome is applied: the payload value, or the untouched original. */
  function AppliedValue(channel: Record, field: string, outcome: Option<Value>): Value
  {
    match outcome
    case Some(v) => v
    case None => Get(channel, field, VNull)
  }

  predicate CommaFree(names: set<string>)
  {
    forall x :: x in names ==> ',' !in x
  }

  /** The set a list mode aims at: the union for `append`, the difference for `remove`. */
  function ListTarget(mode: Mode, original: set<string>, given: set<string>): set<string>
  {
    if mode == Append then original + given else original - given
  }

  /** Text equal to a value under `==` is that very text. */
  lemma PyEqStr(a: Value, s: string)
    requires PyEq(a, VStr(s)) || PyEq(VStr(s), a)
    ensures a == VStr(s)
  {
  }

  /**
   * `append` and `remove`: after the rule the field normalises to the union
   * (difference) of the original set and the rule's set, whether the field
   * was rewritten or already held that set (names without commas, and not
   * newapi's integer `priority`).
   */
  lemma ListModeResult(vendor: Vendor, field: string, rule: Value, channel: Record, json: JsonCodec, regex: RegexSub)
    requires Enabled(rule)
    requires ModeOf(RuleMode(rule.fields)) in {Append, Remove}
    requires vendor.VoApi? || field != "priority"
    requires CommaFree(NormalizeToSet(Get(channel, field, VNull))) && CommaFree(NormalizeToSet(RuleValue(rule.fields)))
    ensures NormalizeToSet(AppliedValue(channel, field, FieldOutcome(vendor, field, rule, channel, json, regex)))
      == ListTarget(ModeOf(RuleMode(rule.fields)), NormalizeToSet(Get(channel, field, VNull)), NormalizeToSet(RuleValue(rule.fields)))
  {
    ListModeOutcome(vendor, field, rule, channel, json, regex);
    ListTargetStable(ModeOf(RuleMode(rule.fields)), Get(channel, field, VNull), RuleValue(rule.fields));
    ListOutcomeReaches(vendor, ModeOf(RuleMode(rule.fields)), Get(channel, field, VNull), NormalizeToSet(RuleValue(rule.fields)));
  }

  /** After a list mode, rewritten or not, the field holds the target set. */
  lemma ListOutcomeReaches(vendor: Vendor, mode: Mode, original: Value, given: set<string>)
    requires forall x :: x in ListTarget(mode, NormalizeToSet(original), given) ==> x != "" && Strip(x) == x && ',' !in x
    ensures var outcome := ListOutcome(vendor, mode, original, given);
      NormalizeToSet(if outcome.Some? then outcome.value else original) == ListTarget(mode, NormalizeToSet(original), given)
  {
    var target := ListTarget(mode, NormalizeToSet(original), given);
    var fn := FormatListField(vendor, target);
    ListTargetRoundTrip(vendor, target);
    if !Changed(original, fn) {
      UnchangedText(original, fn.s);
    }
  }

  /** A value the change test finds equal to a text is that text, or None standing for the empty text. */
  lemma UnchangedText(original: Value, s: string)
    requires !Changed(original, VStr(s))
    ensures original == VStr(s) || (original == VNull && s == "")
  {
    if PyEq(original, VStr(s)) {
      PyEqStr(original, s);
    }
  }

  /** The outcome of a list mode on a field holding `original`: the formatted target set when it differs from the field. */
  function ListOutcome(vendor: Vendor, mode: Mode, original: Value, given: set<string>): Option<Value>
  {
    var fn := FormatListField(vendor, ListTarget(mode, NormalizeToSet(original), given));
    if Changed(original, fn) then Some(fn) else None
  }

  lemma ListModeOutcome(vendor: Vendor, field: string, rule: Value, channel: Record, json: JsonCodec, regex: RegexSub)
    requires Enabled(rule)
    requires ModeOf(RuleMode(rule.fields)) in {Append, Remove}
    requires vendor.VoApi? || field != "priority"
    ensures FieldOutcome(vendor, field, rule, channel, json, regex)
      == ListOutcome(vendor, ModeOf(RuleMode(rule.fields)), Get(channel, field, VNull), NormalizeToSet(RuleValue(rule.fields)))
  {
    var original := Get(channel, field, VNull);
    var mode := ModeOf(RuleMode(rule.fields));
    var fn := FormatListField(vendor, ListTarget(mode, NormalizeToSet(original), NormalizeToSet(RuleValue(rule.fields))));
    assert NewValue(vendor, rule.fields, original, json, regex) == Some(fn);
    assert FormatFieldValue(vendor, field, fn) == fn;
    assert FormatFieldValue(vendor, field, original) == original;
  }

  /** A field already holding the wire form of a target set that the list mode keeps as it is has nothing to change. */
  lemma ListOutcomeOfTarget(vendor: Vendor, mode: Mode, target: set<string>, given: set<string>)
    requires forall x :: x in target ==> x != "" && Strip(x) == x && ',' !in x
    requires ListTarget(mode, target, given) == target
    ensures ListOutcome(vendor, mode, FormatListField(vendor, target), given) == None
  {
    ListTargetRoundTrip(vendor, target);
    ChangedIrreflexive(FormatListField(vendor, target));
  }

  /** A target set of normalised comma-free names survives the wire form. */
  lemma ListTargetRoundTrip(vendor: Vendor, target: set<string>)
    requires forall x :: x in target ==> x != "" && Strip(x) == x && ',' !in x
    ensures NormalizeToSet(FormatListField(vendor, target)) == target
  {
    forall x | x in target ensures x != "" && IsTrimmed(x) && ',' !in x {
      StripProperties(x);
    }
    FormatListRoundTrip(vendor, target);
  }

  /** The dict a dict mode aims at: the merge for `merge` (the rule's keys win), the original less the listed keys for `delete_keys`. */
  function DictTarget(mode: Mode, original: map<string, Value>, value: Value, json: JsonCodec): map<string, Value>
  {
    if mode == Merge then original + NormalizeToDict(value, json) else original - KeysToDelete(value)
  }

  /** The outcome of a dict mode on a field holding `original`: the formatted target dict when it differs; other modes are skipped. */
  function DictOutcome(vendor: Vendor, mode: Mode, original: Value, value: Value, json: JsonCodec): Option<Value>
  {
    var fn := FormatDictField(vendor, DictTarget(mode, NormalizeToDict(original, json), value, json), json);
    if mode in {Merge, DeleteKeys} && Changed(original, fn) then Some(fn) else None
  }

  lemma DictModeOutcome(vendor: Vendor, field: string, rule: Value, channel: Record, json: JsonCodec, regex: RegexSub)
    requires Enabled(rule)
    requires ModeOf(RuleMode(rule.fields)) !in {Overwrite, Append, Remove, RegexReplace}
    requires vendor.VoApi? || field != "priority"
    ensures FieldOutcome(vendor, field, rule, channel, json, regex)
      == DictOutcome(vendor, ModeOf(RuleMode(rule.fields)), Get(channel, field, VNull), RuleValue(rule.fields), json)
  {
  }

  /** A field already holding the wire form of a target dict that the dict mode keeps as it is has nothing to change. */
  lemma DictOutcomeOfTarget(vendor: Vendor, mode: Mode, target: map<string, Value>, value: Value, json: JsonCodec)
    requires LawfulJson(json)
    requires DictTarget(mode, target, value, json) == target
    ensures DictOutcome(vendor, mode, FormatDictField(vendor, target, json), value, json) == None
  {
    FormatDictRoundTrip(vendor, target, json);
    ChangedIrreflexive(FormatDictField(vendor, target, json));
  }

  /**
   * `merge` and `delete_keys`: a rewritten field normalises to the target
   * dict; a field left alone already equals it under `==` (exactly, on
   * voapi, whose dicts travel as text).
   */
  lemma DictModeResult(vendor: Vendor, field: string, rule: Value, channel: Record, json: JsonCodec, regex: RegexSub)
    requires LawfulJson(json)
    requires Enabled(rule)
    requires ModeOf(RuleMode(rule.fields)) in {Merge, DeleteKeys}
    requires vendor.VoApi? || field != "priority"
    ensures var outcome := FieldOutcome(vendor, field, rule, channel, json, regex);
      var target := DictTarget(ModeOf(RuleMode(rule.fields)), NormalizeToDict(Get(channel, field, VNull), json), RuleValue(rule.fields), json);
      (outcome.Some? ==> NormalizeToDict(outcome.value, json) == target)
      && (outcome.None? ==> PyEq(VMap(NormalizeToDict(Get(channel, field, VNull), json)), VMap(target)))
      && (outcome.None? && vendor.VoApi? ==> NormalizeToDict(Get(channel, field, VNull), json) == target)
  {
    var original := Get(channel, field, VNull);
    var o := NormalizeToDict(original, json);
    var target := DictTarget(ModeOf(RuleMode(rule.fields)), o, RuleValue(rule.fields), json);
    FormatDictRoundTrip(vendor, target, json);
    var fn := FormatDictField(vendor, target, json);
    DictModeOutcome(vendor, field, rule, channel, json, regex);
    if !Changed(original, fn) {
      if vendor.VoApi? {
        if PyEq(original, fn) {
          PyEqStr(original, fn.s);
        }
        PyEqReflexive(VMap(o));
      } else if original == VNull {
        PyEqReflexive(VMap(o));
      }
    }
  }

  // ----- The payload -----

  /**
   * The payload is None exactly when no field changed; otherwise it holds
   * the id and the changed fields, each changed field has an enabled rule
   * and carries that rule's outcome, and the id is the channel's own unless
   * a rule rewrote it.
   */
  lemma PlannedUpdateShape(updateConfig: Option<Record>, channel: Record, vendor: Vendor, json: JsonCodec, regex: RegexSub)
    requires WellFormedUpdates(updateConfig)
    ensures var (payload, changed) := PlannedUpdate(updateConfig, channel, vendor, json, regex);
      (payload.None? <==> changed == {})
      && (updateConfig.None? || "updates" !in updateConfig.value || !Truthy(Get(channel, "id", VNull)) ==> payload.None?)
      && (payload.Some? ==>
            var updates := updateConfig.value["updates"].fields;
            payload.value.Keys == {"id"} + changed
            && changed <= updates.Keys
            && (forall f :: f in changed ==>
                  Enabled(updates[f]) && FieldOutcome(vendor, f, updates[f], channel, json, regex) == Some(payload.value[f]))
            && ("id" !in changed ==> payload.value["id"] == channel["id"] && Truthy(channel["id"])))
  {
  }

  /** A field whose rule is disabled, malformed, of an unknown mode, or a `regex_replace` that does not apply, is not in the payload. */
  lemma SkippedRulesChangeNothing(updateConfig: Option<Record>, channel: Record, vendor: Vendor, json: JsonCodec,
                                  regex: RegexSub, field: string)
    requires WellFormedUpdates(updateConfig)
    requires updateConfig.Some? && "updates" in updateConfig.value && field in updateConfig.value["updates"].fields
    requires var rule := updateConfig.value["updates"].fields[field];
      !Enabled(rule)
      || NewValue(vendor, rule.fields, Get(channel, field, VNull), json, regex).None?
    ensures field !in PlannedUpdate(updateConfig, channel, vendor, json, regex).1
  {
  }

  /** An enabled `regex_replace` applies only to a text field, with a dict value holding text `pattern` and `replacement`, whose substitution succeeds. */
  lemma RegexReplaceApplies(vendor: Vendor, rule: Record, original: Value, json: JsonCodec, regex: RegexSub)
    requires RuleMode(rule) == VStr("regex_replace")
    ensures NewValue(vendor, rule, original, json, regex).Some? <==>
      original.VStr? && RuleValue(rule).VMap?
      && "pattern" in RuleValue(rule).fields && RuleValue(rule).fields["pattern"].VStr?
      && "replacement" in RuleValue(rule).fields && RuleValue(rule).fields["replacement"].VStr?
      && regex(RuleValue(rule).fields["pattern"].s, RuleValue(rule).fields["replacement"].s, original.s).Some?
  {
    assert ModeOf(RuleMode(rule)) == RegexReplace;
  }

  // ----- Applying a payload -----

  /**
   * The rules for which planning again after applying the payload is
   * guaranteed to find nothing to do: no `regex_replace` (a substitution
   * may apply again), no list or dict mode on newapi's integer `priority`,
   * comma-free names for the list modes and a correct JSON codec for the
   * dict modes.
   */
  ghost predicate Reapplicable(vendor: Vendor, field: string, rule: Value, channel: Record, json: JsonCodec)
  {
    Enabled(rule) ==>
      var mode := ModeOf(RuleMode(rule.fields));
      mode != RegexReplace
      && (mode == Overwrite || vendor.VoApi? || field != "priority")
      && (mode in {Append, Remove} ==>
            CommaFree(NormalizeToSet(Get(channel, field, VNull))) && CommaFree(NormalizeToSet(RuleValue(rule.fields))))
      && (mode in {Merge, DeleteKeys} ==> LawfulJson(json))
  }

  /** Once a field holds the value its rule computed, the rule finds nothing more to change. */
  lemma ReappliedRuleIsStable(vendor: Vendor, field: string, rule: Value, channel: Record, json: JsonCodec,
                              regex: RegexSub, fn: Value)
    requires FieldOutcome(vendor, field, rule, channel, json, regex) == Some(fn)
    requires Reapplicable(vendor, field, rule, channel, json)
    ensures FieldOutcome(vendor, field, rule, channel[field := fn], json, regex) == None
  {
    var mode := ModeOf(RuleMode(rule.fields));
    if mode == Overwrite {
      ReapplyOverwrite(vendor, field, rule, channel, json, regex, fn);
    } else if mode in {Append, Remove} {
      var target := ListTarget(mode, NormalizeToSet(Get(channel, field, VNull)), NormalizeToSet(RuleValue(rule.fields)));
      ListModeWrites(vendor, field, rule, channel, json, regex, fn);
      ListTargetStable(mode, Get(channel, field, VNull), RuleValue(rule.fields));
      ReapplyList(vendor, field, rule, channel, json, regex, target);
    } else {
      ReapplyDict(vendor, field, rule, channel, json, regex, fn);
    }
  }

  lemma ReapplyOverwrite(vendor: Vendor, field: string, rule: Value, channel: Record, json: JsonCodec,
                         regex: RegexSub, fn: Value)
    requires FieldOutcome(vendor, field, rule, channel, json, regex) == Some(fn)
    requires Enabled(rule) && ModeOf(RuleMode(rule.fields)) == Overwrite
    ensures FieldOutcome(vendor, field, rule, channel[field := fn], json, regex) == None
  {
    var value := RuleValue(rule.fields);
    FormatFieldValueIdempotent(vendor, field, value);
    assert fn == FormatFieldValue(vendor, field, value);
    assert Get(channel[field := fn], field, VNull) == fn;
    ChangedIrreflexive(fn);
  }

  /** What an enabled list-mode rule writes is the wire form of its target set. */
  lemma ListModeWrites(vendor: Vendor, field: string, rule: Value, channel: Record, json: JsonCodec,
                       regex: RegexSub, fn: Value)
    requires FieldOutcome(vendor, field, rule, channel, json, regex) == Some(fn)
    requires Enabled(rule)
    requires ModeOf(RuleMode(rule.fields)) in {Append, Remove}
    requires vendor.VoApi? || field != "priority"
    ensures fn == FormatListField(vendor, ListTarget(ModeOf(RuleMode(rule.fields)),
                                                     NormalizeToSet(Get(channel, field, VNull)), NormalizeToSet(RuleValue(rule.fields))))
  {
    ListModeOutcome(vendor, field, rule, channel, json, regex);
  }

  /** The target set of a list mode is made of normalised names, and the mode leaves it as it is. */
  lemma ListTargetStable(mode: Mode, original: Value, value: Value)
    requires CommaFree(NormalizeToSet(original)) && CommaFree(NormalizeToSet(value))
    ensures var target := ListTarget(mode, NormalizeToSet(original), NormalizeToSet(value));
      (forall x :: x in target ==> x != "" && Strip(x) == x && ',' !in x)
      && ListTarget(mode, target, NormalizeToSet(value)) == target
  {
  }

  lemma ReapplyList(vendor: Vendor, field: string, rule: Value, channel: Record, json: JsonCodec,
                    regex: RegexSub, target: set<string>)
    requires Enabled(rule)
    requires ModeOf(RuleMode(rule.fields)) in {Append, Remove}
    requires vendor.VoApi? || field != "priority"
    requires forall x :: x in target ==> x != "" && Strip(x) == x && ',' !in x
    requires ListTarget(ModeOf(RuleMode(rule.fields)), target, NormalizeToSet(RuleValue(rule.fields))) == target
    ensures FieldOutcome(vendor, field, rule, channel[field := FormatListField(vendor, target)], json, regex) == None
  {
    var fn := FormatListField(vendor, target);
    ListOutcomeOfTarget(vendor, ModeOf(RuleMode(rule.fields)), target, NormalizeToSet(RuleValue(rule.fields)));
    assert Get(channel[field := fn], field, VNull) == fn;
    ListModeOutcome(vendor, field, rule, channel[field := fn], json, regex);
  }

  lemma ReapplyDict(vendor: Vendor, field: string, rule: Value, channel: Record, json: JsonCodec,
                    regex: RegexSub, fn: Value)
    requires FieldOutcome(vendor, field, rule, channel, json, regex) == Some(fn)
    requires Enabled(rule)
    requires ModeOf(RuleMode(rule.fields)) !in {Overwrite, Append, Remove, RegexReplace}
    requires vendor.VoApi? || field != "priority"
    requires LawfulJson(json)
    ensures FieldOutcome(vendor, field, rule, channel[field := fn], json, regex) == None
  {
    var mode := ModeOf(RuleMode(rule.fields));
    var value := RuleValue(rule.fields);
    var target := DictTarget(mode, NormalizeToDict(Get(channel, field, VNull), json), value, json);
    assert fn == FormatDictField(vendor, target, json) by {
      DictModeOutcome(vendor, field, rule, channel, json, regex);
    }
    assert DictTarget(mode, target, value, json) == target;
    DictOutcomeOfTarget(vendor, mode, target, value, json);
    assert FieldOutcome(vendor, field, rule, channel[field := fn], json, regex) == DictOutcome(vendor, mode, fn, value, json) by {
      assert Get(channel[field := fn], field, VNull) == fn;
      DictModeOutcome(vendor, field, rule, channel[field := fn], json, regex);
    }
  }

  /** A rule's outcome depends on the channel only through the field it updates. */
  lemma FieldOutcomeLocal(vendor: Vendor, field: string, rule: Value, c1: Record, c2: Record, json: JsonCodec, regex: RegexSub)
    requires Get(c1, field, VNull) == Get(c2, field, VNull)
    ensures FieldOutcome(vendor, field, rule, c1, json, regex) == FieldOutcome(vendor, field, rule, c2, json, regex)
  {
  }

  /** After the payload is applied, the rule of each field finds nothing to change. */
  lemma PayloadFieldStable(updates: map<string, Value>, channel: Record, vendor: Vendor, json: JsonCodec,
                           regex: RegexSub, f: string)
    requires "id" in channel
    requires f in updates && Reapplicable(vendor, f, updates[f], channel, json)
    ensures var changes := Collect(updates.Keys, RuleOutcomes(updates, vendor, channel, json, regex));
      FieldOutcome(vendor, f, updates[f], channel + (map["id" := channel["id"]] + changes), json, regex).None?
  {
    var changes := Collect(updates.Keys, RuleOutcomes(updates, vendor, channel, json, regex));
    var after := channel + (map["id" := channel["id"]] + changes);
    if f in changes {
      ReappliedRuleIsStable(vendor, f, updates[f], channel, json, regex, changes[f]);
      FieldOutcomeLocal(vendor, f, updates[f], after, channel[f := changes[f]], json, regex);
    } else {
      FieldOutcomeLocal(vendor, f, updates[f], after, channel, json, regex);
    }
  }

  /** Planning again on the updated channel yields no payload: the update is idempotent. */
  lemma PlannedUpdateIdempotent(updateConfig: Option<Record>, channel: Record, vendor: Vendor, json: JsonCodec, regex: RegexSub)
    requires WellFormedUpdates(updateConfig)
    requires PlannedUpdate(updateConfig, channel, vendor, json, regex).0.Some?
    requires forall f :: f in updateConfig.value["updates"].fields ==>
      Reapplicable(vendor, f, updateConfig.value["updates"].fields[f], channel, json)
    ensures PlannedUpdate(updateConfig, channel + PlannedUpdate(updateConfig, channel, vendor, json, regex).0.value,
                          vendor, json, regex) == (None, {})
  {
    var updates := updateConfig.value["updates"].fields;
    var outcomes := RuleOutcomes(updates, vendor, channel, json, regex);
    var changes := Collect(updates.Keys, outcomes);
    var payload := map["id" := channel["id"]] + changes;
    var after := channel + payload;
    var again := RuleOutcomes(updates, vendor, after, json, regex);
    forall f | f in updates.Keys ensures again(f).None? {
      PayloadFieldStable(updates, channel, vendor, json, regex, f);
    }
    assert Collect(updates.Keys, again) == map[];
  }
}
