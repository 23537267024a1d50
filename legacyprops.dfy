/**
 * Properties of the legacy generation: re-applying a prepared patch reports
 * no change, the legacy filter tests against the current generation's, and
 * the order-independence of the `exact` list match.
 */
module LegacyProps {
  import opened Wrappers
  import opened PyStrings
  import opened Values
  import opened Engines
  import FilteringUtils
  import ChannelToolBase
  import CrossSiteActions
  import Vendors
  import opened LegacyToolBase
  import OneApi = LegacyOneApi

  // ----- Re-applying a patch -----

  /** The elements `StrippedNonBlank` produces are trimmed and non-empty. */
  lemma {:induction false} StrippedNonBlankClean(xs: seq<string>)
    ensures forall x :: x in Vendors.StrippedNonBlank(xs) ==> x != "" && IsTrimmed(x)
    decreases |xs|
  {
    if xs != [] {
      StrippedNonBlankClean(xs[1..]);
      StripProperties(xs[0]);
    }
  }

  /** `StrippedNonBlank` keeps a sequence of trimmed non-empty strings as it is. */
  lemma {:induction false} StrippedNonBlankOfClean(xs: seq<string>)
    requires forall x :: x in xs ==> x != "" && IsTrimmed(x)
    ensures Vendors.StrippedNonBlank(xs) == xs
    decreases |xs|
  {
    if xs != [] {
      assert forall x :: x in xs[1..] ==> x in xs;
      StrippedNonBlankOfClean(xs[1..]);
      StripOfTrimmed(xs[0]);
      assert xs == [xs[0]] + xs[1..];
    }
  }

  /** The comma pieces of a text hold no comma. */
  lemma CommaListCommaFree(text: string)
    ensures forall x :: x in CommaList(text) ==> ',' !in x
  {
    StrippedNonBlankMembers(Split(text, ','));
    SplitPiecesFree(text, ',');
    forall x | x in CommaList(text) ensures ',' !in x {
      var p :| p in Split(text, ',') && Strip(p) != "" && Strip(p) == x;
      if ',' in x {
        StripChars(p, ',');
      }
    }
  }

  /** The names of a list-field rule value are trimmed and non-empty. */
  lemma RuleNamesClean(newValue: Value)
    requires RuleNames(newValue).Some?
    ensures forall x :: x in RuleNames(newValue).value ==> x != "" && IsTrimmed(x)
  {
    match newValue
    case VList(items) => StrippedNonBlankClean(Texts(items));
    case VStr(s) => StrippedNonBlankClean(Split(s, ','));
  }

  lemma CommaListOfEmpty()
    ensures CommaList("") == []
  {
    assert Split("", ',') == [""];
    assert Strip("") == "";
  }

  /** Reading back names joined with ',' gives the names, when they are trimmed, non-empty and free of commas. */
  lemma CommaListOfJoin(names: seq<string>)
    requires forall x :: x in names ==> x != "" && IsTrimmed(x) && ',' !in x
    ensures CommaList(Join(",", names)) == names
  {
    if names == [] {
      CommaListOfEmpty();
    } else {
      SplitJoin(names, ',');
      StrippedNonBlankOfClean(names);
    }
  }

  /**
   * Writing a list field's new value and comparing again reports no change,
   * provided no name of the rule value holds a comma (guaranteed for a text
   * rule value, which is split at its commas).
   */
  lemma ListChangeIsStable(current: Value, newValue: Value)
    requires ListFieldChange(current, newValue).Some?
    requires forall x :: x in RuleNames(newValue).value ==> ',' !in x
    ensures ListFieldChange(ListFieldChange(current, newValue).value, newValue).None?
  {
    var names := RuleNames(newValue).value;
    var sorted := SortStrings(names);
    var written := Join(",", sorted);
    assert ListFieldChange(current, newValue).value == VStr(written);
    RuleNamesClean(newValue);
    forall x | x in sorted ensures x != "" && IsTrimmed(x) && ',' !in x {
      assert x in multiset(sorted);
      assert x in multiset(names);
      assert x in names;
    }
    CommaListOfJoin(sorted);
    SortStringsOfSorted(sorted);
    assert SortStrings(CommaList(PyStr(VStr(written)))) == sorted;
  }

  /** A text rule value on a list field: re-applying never reports a change. */
  lemma TextListChangeIsStable(current: Value, text: string)
    requires ListFieldChange(current, VStr(text)).Some?
    ensures ListFieldChange(ListFieldChange(current, VStr(text)).value, VStr(text)).None?
  {
    CommaListCommaFree(text);
    ListChangeIsStable(current, VStr(text));
  }

  /** With a lawful JSON codec, writing a dict field's new value and comparing again reports no change. */
  lemma DictChangeIsStable(current: Value, newValue: Value, json: JsonCodec)
    requires LawfulJson(json)
    requires DictFieldChange(current, newValue, json).Some?
    ensures DictFieldChange(DictFieldChange(current, newValue, json).value, newValue, json).None?
  {
    var newDict := DictOf(newValue, json);
    if newDict != VNull {
      var text := json.dumps(newDict);
      assert json.loads(text) == Some(newDict) && !IsBlank(text);
      StripProperties(text);
      assert DictOf(VStr(text), json) == newDict;
      PyEqReflexive(newDict);
    }
  }

  /** Converting a value to its own type gives it back, or fails. */
  predicate ConvertsBack(convert: Convert, v: Value)
  {
    convert(v, v).None? || PyEq(convert(v, v).value, v)
  }

  /** `str()` and `bool()` give a string or a boolean back. */
  lemma TextAndFlagsConvertBack(convert: Convert, v: Value)
    requires ConvertsLikePython(convert) && (v.VStr? || v.VBool?)
    ensures ConvertsBack(convert, v)
  {
    assert convert(v, v) == Some(v);
    PyEqReflexive(v);
  }

  /** A simple field takes the rule value, and comparing again reports no change when that value converts back. */
  lemma SimpleChangeIsStable(current: Value, newValue: Value, convert: Convert)
    requires SimpleFieldChange(current, newValue, convert).Some?
    requires ConvertsBack(convert, newValue)
    ensures SimpleFieldChange(current, newValue, convert).value == newValue
    ensures SimpleFieldChange(newValue, newValue, convert).None?
  {
    if newValue != VNull && convert(newValue, newValue).Some? {
      PyEqSymmetric(convert(newValue, newValue).value, newValue);
    }
  }

  /** A rule whose change is known to be stable: no comma inside a list field's names, a simple field's value converting back. */
  predicate StableRule(field: string, rule: Value, convert: Convert)
  {
    rule.VMap? ==>
      var v := Get(rule.fields, "value", VNull);
      && (!IsDictField(field) && IsListField(field) && RuleNames(v).Some? ==>
            forall x :: x in RuleNames(v).value ==> ',' !in x)
      && (!IsDictField(field) && !IsListField(field) ==> ConvertsBack(convert, v))
  }

  /** The change a rule makes depends on the channel only through the rule's own field. */
  lemma FieldChangeReadsOwnField(field: string, rule: Record, a: Record, b: Record, json: JsonCodec, convert: Convert)
    requires Get(a, field, VNull) == Get(b, field, VNull)
    ensures FieldChange(field, rule, a, json, convert) == FieldChange(field, rule, b, json, convert)
  {
  }

  /** Writing one rule's change and evaluating the rule again reports no change. */
  lemma FieldChangeIsStable(field: string, rule: Record, original: Record, json: JsonCodec, convert: Convert)
    requires LawfulJson(json) && StableRule(field, VMap(rule), convert)
    requires FieldChange(field, rule, original, json, convert).Some?
    ensures FieldChange(field, rule, original[field := FieldChange(field, rule, original, json, convert).value], json, convert).None?
  {
    var current := Get(original, field, VNull);
    var newValue := Get(rule, "value", VNull);
    if IsDictField(field) {
      DictChangeIsStable(current, newValue, json);
    } else if IsListField(field) {
      ListChangeIsStable(current, newValue);
    } else {
      SimpleChangeIsStable(current, newValue, convert);
    }
  }

  /**
   * Applying a prepared patch to the channel and preparing again from the
   * patched channel reports nothing to update: only fields that genuinely
   * change are written.
   */
  lemma ReapplyReportsNoChange(cfg: Record, original: Record, json: JsonCodec, convert: Convert,
                               payload: Record, fields: set<string>)
    requires LawfulJson(json)
    requires PreparedUpdate(Some(VMap(cfg)), original, json, convert) == Returns((Some(payload), fields))
    requires var u := Get(cfg, "updates", VMap(map[]));
      u.VMap? ==> forall f :: f in u.fields ==> StableRule(f, u.fields[f], convert)
    ensures PreparedUpdate(Some(VMap(cfg)), payload, json, convert) == Returns((None, {}))
  {
    var updates := Get(cfg, "updates", VMap(map[])).fields;
    var changes := ChannelToolBase.Collect(updates.Keys, RuleChanges(updates, original, json, convert));
    NoRuleChangesAfter(updates, original, json, convert, original + changes);
    assert ChannelToolBase.Collect(updates.Keys, RuleChanges(updates, original + changes, json, convert)) == map[];
  }

  /** After writing every change of its stable rules, no rule changes the channel again. */
  lemma NoRuleChangesAfter(updates: map<string, Value>, original: Record, json: JsonCodec, convert: Convert,
                           payload: Record)
    requires LawfulJson(json)
    requires forall f :: f in updates ==> StableRule(f, updates[f], convert)
    requires forall f | f in updates :: updates[f].VMap?
    requires payload == original + ChannelToolBase.Collect(updates.Keys, RuleChanges(updates, original, json, convert))
    ensures forall f :: f in updates ==> RuleChanges(updates, payload, json, convert)(f).None?
  {
    var before := RuleChanges(updates, original, json, convert);
    var changes := ChannelToolBase.Collect(updates.Keys, before);
    forall f | f in updates ensures RuleChanges(updates, payload, json, convert)(f).None? {
      var rule := updates[f].fields;
      if f in changes {
        FieldChangeIsStable(f, rule, original, json, convert);
        FieldChangeReadsOwnField(f, rule, payload, original[f := changes[f]], json, convert);
      } else {
        FieldChangeReadsOwnField(f, rule, payload, original, json, convert);
      }
    }
  }

  /** Every reported field has a rule whose `enabled` is truthy. */
  lemma ChangedFieldsHaveEnabledRules(cfg: Record, original: Record, json: JsonCodec, convert: Convert,
                                      payload: Record, fields: set<string>)
    requires PreparedUpdate(Some(VMap(cfg)), original, json, convert) == Returns((Some(payload), fields))
    ensures var u := Get(cfg, "updates", VMap(map[]));
      && u.VMap?
      && forall f :: f in fields ==> f in u.fields && u.fields[f].VMap? && Truthy(Get(u.fields[f].fields, "enabled", VNull))
  {
  }

  // ----- The two legacy filters -----

  /** For a truthy value and one of the three modes, the two legacy `match_filter`s agree. */
  lemma MatchFiltersAgree(value: Value, filters: Value, mode: string)
    requires Truthy(value) && mode in {"any", "exact", "none"}
    ensures OneApi.MatchFilter(value, filters, mode) == MatchFilter(value, filters, mode)
  {
  }

  /** They differ on a falsy value: the empty name against ["x"] in `none` mode. */
  lemma MatchFiltersDifferOnEmptyText()
    ensures OneApi.MatchFilter(VStr(""), VList([VStr("x")]), "none") == Returns(false)
    ensures MatchFilter(VStr(""), VList([VStr("x")]), "none") == Returns(true)
  {
    assert !Contains("", "x");
  }

  /** For string filters, the `exact` test of a text is `sorted` equality of its comma pieces with them. */
  lemma ExactListIsSortedEquality(text: string, filters: seq<string>)
    ensures OneApi.ListCategory(VStr(text), VList(CrossSiteActions.AsValues(filters)), "exact")
      == Returns(ChannelToolBase.SortedEqual(CrossSiteActions.AsValues(CommaList(text)), CrossSiteActions.AsValues(filters)))
  {
    assert ChannelToolBase.AllStrings(CrossSiteActions.AsValues(filters));
  }

  /** `sorted` equality of two lists of names is equality of their multisets. */
  lemma SortedEqualNames(a: seq<string>, b: seq<string>)
    ensures ChannelToolBase.SortedEqual(CrossSiteActions.AsValues(a), CrossSiteActions.AsValues(b))
      <==> multiset(a) == multiset(b)
  {
    OneApi.SortedEqualIsSameBag(a, CrossSiteActions.AsValues(b));
    OneApi.SameNamesSameTexts(a, b);
  }

  /** `sorted(names) == sorted(filters)` for string filters: the same names with the same multiplicities, in any order. */
  lemma ExactListIsPermutation(text: string, filters: seq<string>)
    ensures OneApi.ListCategory(VStr(text), VList(CrossSiteActions.AsValues(filters)), "exact")
      == Returns(multiset(CommaList(text)) == multiset(filters))
  {
    ExactListIsSortedEquality(text, filters);
    SortedEqualNames(CommaList(text), filters);
  }

  /** `none` is the negation of `any` on the comma pieces of a text. */
  lemma NoneIsNotAny(text: string, filters: Value)
    requires Iterable(filters)
    ensures OneApi.ListCategory(VStr(text), filters, "none") == Returns(!OneApi.ListCategory(VStr(text), filters, "any").value)
  {
  }

  /** "all", which the legacy base class accepts, empties the results of the single-file tool. */
  lemma AllModeRejected(filters: Record, channels: seq<Value>)
    requires Get(filters, "match_mode", VStr("any")) == VStr("all")
    ensures OneApi.Filtered(VMap(filters), channels) == Returns([])
    ensures ModeAccepted(VStr("all")) == Returns(true)
  {
  }
}
