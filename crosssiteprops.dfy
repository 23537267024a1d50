/**
 * What the cross-site copy and compare promise: the semantics of each copy
 * mode per field kind, that a copy once applied plans nothing more, the shape
 * of a target's payload and of the whole plan, and the agreement between the
 * overwrite copy and the field compare.
 */
module CrossSiteProps {
  import opened Wrappers
  import opened PyStrings
  import opened Values
  import opened Engines
  import opened DataHelpers
  import opened Vendors
  import opened Sublists
  import ChannelToolBase
  import opened CrossSiteKeys
  import opened CrossSiteActions

  /** Names the comma-joined list form can carry. */
  predicate CommaFree(names: set<string>)
  {
    forall x :: x in names ==> ',' !in x
  }

  /** The target channel once the value a plan sends for `field` is stored. */
  function Applied(vendor: Vendor, field: string, target: Record, nv: Value): Record
  {
    target[field := FormatFieldValue(vendor, field, nv)]
  }

  /** The final formatting only ever converts `priority`, which is neither a list nor a dict field. */
  lemma ContainerFieldKeepsValue(vendor: Vendor, field: string, v: Value)
    requires KindOf(field) != SimpleField
    ensures FormatFieldValue(vendor, field, v) == v
  {
    assert field in ListFields || field in DictFields;
  }

  /** A set produced by the list normalisation reads back unchanged from its formatted form. */
  lemma ListReadsBack(vendor: Vendor, names: set<string>)
    requires forall x :: x in names ==> x != "" && Strip(x) == x && ',' !in x
    ensures NormalizeToSet(FormatListField(vendor, names)) == names
  {
    forall x | x in names
      ensures IsTrimmed(x)
    {
      assert IsTrimmed(Strip(x));
    }
    FormatListRoundTrip(vendor, names);
  }

  // ----- Copy modes, field kind by field kind -----

  /** The set a list-field copy leaves behind, when it changes anything. */
  function ListChange(mode: CopyMode, cur: set<string>, src: set<string>): Option<set<string>>
  {
    match ListResult(mode, cur, src)
    case Some(res) => if res != cur then Some(res) else None
    case None => None
  }

  /** What each mode does to the set of names. */
  lemma ListChangeModes(mode: CopyMode, cur: set<string>, src: set<string>)
    ensures var c := ListChange(mode, cur, src);
            && (mode == CopyOverwrite ==> (c.Some? <==> src != cur) && (c.Some? ==> c.value == src))
            && (mode == CopyAppend ==> (c.Some? <==> !(src <= cur)) && (c.Some? ==> c.value == cur + src))
            && (mode == CopyRemove ==> (c.Some? <==> cur * src != {}) && (c.Some? ==> c.value == cur - src))
            && (mode.CopyMerge? || mode.CopyDeleteKeys? || mode.CopyUnknown? ==> c.None?)
  {
    if mode == CopyAppend {
      assert cur + src != cur <==> !(src <= cur);
    }
    if mode == CopyRemove {
      if cur * src != {} {
        var x :| x in cur * src;
        assert x !in cur - src;
      } else {
        forall x | x in cur
          ensures x !in src
        {
          assert x !in cur * src;
        }
        assert cur - src == cur;
      }
    }
  }

  /** A list field plans the formatted change, which reads back as the changed set. */
  lemma ListPlanReadsBack(vendor: Vendor, field: string, mode: CopyMode, source: Record, target: Record, json: JsonCodec)
    requires KindOf(field) == ListField
    requires CommaFree(NormalizeToSet(Get(source, field, VNull)) + NormalizeToSet(Get(target, field, VNull)))
    ensures var c := ListChange(mode, NormalizeToSet(Get(target, field, VNull)), NormalizeToSet(Get(source, field, VNull)));
            var p := FieldPlan(vendor, field, mode, source, target, json);
            (p.Some? <==> c.Some?) && (p.Some? ==> NormalizeToSet(p.value) == c.value)
  {
    var c := ListChange(mode, NormalizeToSet(Get(target, field, VNull)), NormalizeToSet(Get(source, field, VNull)));
    if c.Some? {
      ListReadsBack(vendor, c.value);
    }
  }

  /**
   * List fields: overwrite changes the field when the sets differ, append
   * when the source adds a name, remove when it removes one; the value sent
   * reads back as the resulting set, and no other mode touches the field.
   */
  lemma ListFieldCopy(vendor: Vendor, field: string, mode: CopyMode, source: Record, target: Record, json: JsonCodec)
    requires KindOf(field) == ListField
    requires CommaFree(NormalizeToSet(Get(source, field, VNull)) + NormalizeToSet(Get(target, field, VNull)))
    ensures var src := NormalizeToSet(Get(source, field, VNull));
            var cur := NormalizeToSet(Get(target, field, VNull));
            var p := FieldPlan(vendor, field, mode, source, target, json);
            && (mode == CopyOverwrite ==> (p.Some? <==> src != cur) && (p.Some? ==> NormalizeToSet(p.value) == src))
            && (mode == CopyAppend ==> (p.Some? <==> !(src <= cur)) && (p.Some? ==> NormalizeToSet(p.value) == cur + src))
            && (mode == CopyRemove ==> (p.Some? <==> cur * src != {}) && (p.Some? ==> NormalizeToSet(p.value) == cur - src))
            && (mode.CopyMerge? || mode.CopyDeleteKeys? || mode.CopyUnknown? ==> p.None?)
  {
    ListPlanReadsBack(vendor, field, mode, source, target, json);
    ListChangeModes(mode, NormalizeToSet(Get(target, field, VNull)), NormalizeToSet(Get(source, field, VNull)));
  }

  /**
   * Dict fields: overwrite sends the source dict when it differs, merge the
   * target updated by the source (the source wins on a shared key) when that
   * changes something, delete_keys the target without the listed keys when it
   * held one of them; what is sent reads back as that dict.
   */
  lemma DictFieldCopy(vendor: Vendor, field: string, mode: CopyMode, source: Record, target: Record, json: JsonCodec)
    requires KindOf(field) == DictField
    requires LawfulJson(json)
    ensures var raw := Get(source, field, VNull);
            var src := NormalizeToDict(raw, json);
            var cur := NormalizeToDict(Get(target, field, VNull), json);
            var p := FieldPlan(vendor, field, mode, source, target, json);
            && (mode == CopyOverwrite ==>
                  (p.Some? <==> !SameDict(src, cur)) && (p.Some? ==> NormalizeToDict(p.value, json) == src && src != cur))
            && (mode == CopyMerge ==>
                  (p.Some? <==> !SameDict(cur + src, cur)) &&
                  (p.Some? ==> var m := NormalizeToDict(p.value, json);
                               m.Keys == cur.Keys + src.Keys &&
                               (forall k :: k in src ==> m[k] == src[k]) &&
                               (forall k :: k in cur && k !in src ==> m[k] == cur[k])))
            && (mode == CopyDeleteKeys ==>
                  (p.Some? <==> DeleteKeyList(raw).Some? && AllHashable(DeleteKeyList(raw).value) &&
                                cur.Keys * StrKeys(DeleteKeyList(raw).value) != {}) &&
                  (p.Some? ==> NormalizeToDict(p.value, json) == cur - StrKeys(DeleteKeyList(raw).value)))
            && (mode.CopyAppend? || mode.CopyRemove? || mode.CopyUnknown? ==> p.None?)
  {
    var src := NormalizeToDict(Get(source, field, VNull), json);
    var cur := NormalizeToDict(Get(target, field, VNull), json);
    DictPlanReadsBack(vendor, field, mode, source, target, json);
    if mode == CopyOverwrite && src == cur {
      PyEqReflexive(VMap(src));
    }
  }

  /** Simple fields: only overwrite copies, and only a value Python finds unequal; the raw source value is what is planned. */
  lemma SimpleFieldCopy(vendor: Vendor, field: string, mode: CopyMode, source: Record, target: Record, json: JsonCodec)
    requires KindOf(field) == SimpleField
    ensures var p := FieldPlan(vendor, field, mode, source, target, json);
            && (p.Some? <==> mode == CopyOverwrite && !PyEq(Get(source, field, VNull), Get(target, field, VNull)))
            && (p.Some? ==> p.value == Get(source, field, VNull) && p.value != Get(target, field, VNull))
  {
    var src := Get(source, field, VNull);
    if src == Get(target, field, VNull) {
      PyEqReflexive(src);
    }
  }

  /** delete_keys with a text source removes every trimmed comma piece of it. */
  lemma DeleteKeysFromText(vendor: Vendor, field: string, source: Record, target: Record, json: JsonCodec)
    requires KindOf(field) == DictField
    requires LawfulJson(json)
    requires Get(source, field, VNull).VStr?
    requires FieldPlan(vendor, field, CopyDeleteKeys, source, target, json).Some?
    ensures var pieces := StrippedNonBlank(Split(Get(source, field, VNull).s, ','));
            var m := NormalizeToDict(FieldPlan(vendor, field, CopyDeleteKeys, source, target, json).value, json);
            forall k :: k in pieces ==> k !in m
  {
    var pieces := StrippedNonBlank(Split(Get(source, field, VNull).s, ','));
    DictFieldCopy(vendor, field, CopyDeleteKeys, source, target, json);
    StrKeysOfText(pieces);
  }

  /** The string keys of a list of strings are its elements. */
  lemma {:induction false} StrKeysOfText(xs: seq<string>)
    ensures StrKeys(AsValues(xs)) == set x | x in xs
    decreases |xs|
  {
    if xs != [] {
      var init := xs[..|xs| - 1];
      assert AsValues(xs)[..|xs| - 1] == AsValues(init);
      StrKeysOfText(init);
      assert xs == init + [xs[|xs| - 1]];
    }
  }

  // ----- A copy once applied plans nothing more -----

  /** Changing the set once more by the same mode and source changes nothing. */
  lemma ListChangeIsStable(mode: CopyMode, cur: set<string>, src: set<string>)
    requires ListChange(mode, cur, src).Some?
    ensures ListChange(mode, ListChange(mode, cur, src).value, src).None?
  {
    var next := ListChange(mode, cur, src).value;
    if mode == CopyAppend {
      assert next + src == next;
    }
    if mode == CopyRemove {
      assert next - src == next;
    }
  }

  /** The changed set holds only names of the two sets it came from. */
  lemma ListChangeWithin(mode: CopyMode, cur: set<string>, src: set<string>)
    requires ListChange(mode, cur, src).Some?
    ensures ListChange(mode, cur, src).value <= cur + src
  {
  }

  /** Storing what a list-field copy sends leaves nothing for the same copy to do. */
  lemma ListCopyIsStable(vendor: Vendor, field: string, mode: CopyMode, source: Record, target: Record, json: JsonCodec)
    requires KindOf(field) == ListField
    requires CommaFree(NormalizeToSet(Get(source, field, VNull)) + NormalizeToSet(Get(target, field, VNull)))
    requires FieldPlan(vendor, field, mode, source, target, json).Some?
    ensures var p := FieldPlan(vendor, field, mode, source, target, json);
            FieldPlan(vendor, field, mode, source, Applied(vendor, field, target, p.value), json).None?
  {
    var p := FieldPlan(vendor, field, mode, source, target, json);
    var src := NormalizeToSet(Get(source, field, VNull));
    var cur := NormalizeToSet(Get(target, field, VNull));
    ListPlanReadsBack(vendor, field, mode, source, target, json);
    ContainerFieldKeepsValue(vendor, field, p.value);
    var after := Applied(vendor, field, target, p.value);
    assert Get(after, field, VNull) == p.value;
    ListChangeIsStable(mode, cur, src);
    ListChangeWithin(mode, cur, src);
    ListPlanReadsBack(vendor, field, mode, source, after, json);
  }

  /** Changing the dict once more by the same mode and source changes nothing. */
  lemma DictChangeIsStable(mode: CopyMode, cur: map<string, Value>, src: map<string, Value>, raw: Value)
    requires DictChange(mode, cur, src, raw).Some?
    ensures DictChange(mode, DictChange(mode, cur, src, raw).value, src, raw).None?
  {
    var next := DictChange(mode, cur, src, raw).value;
    PyEqReflexive(VMap(next));
    if mode == CopyMerge {
      assert next + src == next;
    }
  }

  /** A dict field plans the formatted change, which reads back as the changed dict. */
  lemma DictPlanReadsBack(vendor: Vendor, field: string, mode: CopyMode, source: Record, target: Record, json: JsonCodec)
    requires KindOf(field) == DictField
    requires LawfulJson(json)
    ensures var raw := Get(source, field, VNull);
            var c := DictChange(mode, NormalizeToDict(Get(target, field, VNull), json), NormalizeToDict(raw, json), raw);
            var p := FieldPlan(vendor, field, mode, source, target, json);
            (p.Some? <==> c.Some?) && (p.Some? ==> NormalizeToDict(p.value, json) == c.value)
  {
    var raw := Get(source, field, VNull);
    var c := DictChange(mode, NormalizeToDict(Get(target, field, VNull), json), NormalizeToDict(raw, json), raw);
    if c.Some? {
      FormatDictRoundTrip(vendor, c.value, json);
    }
  }

  /** Storing what a dict-field copy sends leaves nothing for the same copy to do. */
  lemma DictCopyIsStable(vendor: Vendor, field: string, mode: CopyMode, source: Record, target: Record, json: JsonCodec)
    requires KindOf(field) == DictField
    requires LawfulJson(json)
    requires FieldPlan(vendor, field, mode, source, target, json).Some?
    ensures var p := FieldPlan(vendor, field, mode, source, target, json);
            FieldPlan(vendor, field, mode, source, Applied(vendor, field, target, p.value), json).None?
  {
    var p := FieldPlan(vendor, field, mode, source, target, json);
    var raw := Get(source, field, VNull);
    DictPlanReadsBack(vendor, field, mode, source, target, json);
    ContainerFieldKeepsValue(vendor, field, p.value);
    var after := Applied(vendor, field, target, p.value);
    assert Get(after, field, VNull) == p.value;
    DictChangeIsStable(mode, NormalizeToDict(Get(target, field, VNull), json), NormalizeToDict(raw, json), raw);
    DictPlanReadsBack(vendor, field, mode, source, after, json);
  }

  /**
   * Storing what a simple-field copy sends leaves nothing to do, unless the
   * newapi `priority` conversion turned the value into another one.
   */
  lemma SimpleCopyIsStable(vendor: Vendor, field: string, mode: CopyMode, source: Record, target: Record, json: JsonCodec)
    requires KindOf(field) == SimpleField
    requires vendor.VoApi? || field != "priority"
    requires FieldPlan(vendor, field, mode, source, target, json).Some?
    ensures var p := FieldPlan(vendor, field, mode, source, target, json);
            FieldPlan(vendor, field, mode, source, Applied(vendor, field, target, p.value), json).None?
  {
    var p := FieldPlan(vendor, field, mode, source, target, json);
    var after := Applied(vendor, field, target, p.value);
    assert Get(after, field, VNull) == p.value;
    PyEqReflexive(p.value);
  }

  // ----- One target, and the whole plan -----

  /** The summary names exactly the listed, copyable fields that change, each with its change line. */
  lemma TargetSummaryFields(job: CopyJob, target: Record)
    ensures var summary := TargetSummary(job, target);
            && (forall f :: f in summary <==> f in job.fields && Copyable(f) && PlanOf(job, f, target).Some?)
            && (forall f :: f in summary ==>
                  summary[f] == SummaryLine(Get(target, f, VNull), PlanOf(job, f, target).value, job.mode))
  {
    assert forall f :: f in FieldSet(job.fields) <==> f in job.fields;
  }

  /** A field is in the payload exactly when its outcome is, and `id` is not a copied field. */
  lemma PayloadMatchesSummary(job: CopyJob, target: Record)
    ensures var collected := ChannelToolBase.Collect(FieldSet(job.fields), PayloadOutcome(job, target));
            && collected.Keys == TargetSummary(job, target).Keys
            && "id" !in collected && "key" !in collected
            && (forall f :: f in collected ==> collected[f] == FormatFieldValue(job.vendor, f, PlanOf(job, f, target).value))
  {
  }

  /**
   * A target's payload holds its `id` and exactly the fields of the summary,
   * each with the vendor's wire form of the planned value; `id` itself is
   * never a changed field and the secret `key` is never sent.
   */
  lemma TargetPayloadShape(job: CopyJob, target: Record)
    ensures var payload := TargetPayload(job, target);
            var summary := TargetSummary(job, target);
            && payload.Keys == {"id"} + summary.Keys
            && payload["id"] == Get(target, "id", VNull)
            && "id" !in summary && "key" !in payload
            && (forall f :: f in summary ==> payload[f] == FormatFieldValue(job.vendor, f, PlanOf(job, f, target).value))
  {
    PayloadMatchesSummary(job, target);
  }

  /** The targets `execute_copy_fields` plans: those with a change to make. */
  function HasChanges(job: CopyJob): Record -> bool
  {
    t => TargetSummary(job, t) != map[]
  }

  /** Each entry of the plan is the payload and summary of its target, and has changes. */
  lemma {:induction false} UpdatePlanItems(job: CopyJob, targets: seq<Record>)
    ensures forall item :: item in UpdatePlan(job, targets) ==>
              item == TargetItem(job, item.original) && item.summary != map[]
    decreases |targets|
  {
    if targets != [] {
      UpdatePlanItems(job, targets[..|targets| - 1]);
    }
  }

  lemma OriginalsAppend(plan: seq<PlanItem>, item: PlanItem)
    ensures Originals(plan + [item]) == Originals(plan) + [item.original]
  {
  }

  /** One more target adds its entry at the end when it has changes. */
  lemma UpdatePlanStep(job: CopyJob, targets: seq<Record>, target: Record)
    ensures UpdatePlan(job, targets + [target])
      == UpdatePlan(job, targets) + (if HasChanges(job)(target) then [TargetItem(job, target)] else [])
  {
    assert (targets + [target])[..|targets|] == targets;
  }

  /** The plan holds, in target order, one entry per target with changes. */
  lemma {:induction false} UpdatePlanSelects(job: CopyJob, targets: seq<Record>)
    ensures Originals(UpdatePlan(job, targets)) == Select(targets, HasChanges(job))
    decreases |targets|
  {
    if targets != [] {
      var init := targets[..|targets| - 1];
      var last := targets[|targets| - 1];
      UpdatePlanSelects(job, init);
      assert targets == init + [last];
      SelectAppend(init, last, HasChanges(job));
      UpdatePlanStep(job, init, last);
      if HasChanges(job)(last) {
        OriginalsAppend(UpdatePlan(job, init), TargetItem(job, last));
      }
    }
  }

  /** Hence the plan is ordered like the targets, and contains every target that changes. */
  lemma UpdatePlanCovers(job: CopyJob, targets: seq<Record>)
    ensures IsSublist(Originals(UpdatePlan(job, targets)), targets)
    ensures forall t :: t in targets && TargetSummary(job, t) != map[] ==> TargetItem(job, t) in UpdatePlan(job, targets)
    ensures |UpdatePlan(job, targets)| <= |targets|
  {
    var plan := UpdatePlan(job, targets);
    UpdatePlanSelects(job, targets);
    UpdatePlanItems(job, targets);
    SelectIsSublist(targets, HasChanges(job));
    forall t | t in targets && TargetSummary(job, t) != map[]
      ensures TargetItem(job, t) in plan
    {
      assert HasChanges(job)(t);
      assert t in Originals(plan);
      var i :| 0 <= i < |plan| && Originals(plan)[i] == t;
      assert plan[i] in plan;
    }
  }

  // ----- Compare -----

  /** A field is reported exactly when it is compared and differs; the report keeps the field order. */
  lemma {:induction false} DifferencesExact(fields: seq<string>, source: Record, target: Record, json: JsonCodec)
    ensures forall f :: f in Differences(fields, source, target, json) <==> f in fields && FieldDiffers(f, source, target, json)
    ensures Differences(fields, source, target, json) == Select(fields, f => FieldDiffers(f, source, target, json))
    decreases |fields|
  {
    if fields != [] {
      var init := fields[..|fields| - 1];
      DifferencesExact(init, source, target, json);
      assert fields == init + [fields[|fields| - 1]];
      SelectAppend(init, fields[|fields| - 1], f => FieldDiffers(f, source, target, json));
    }
  }

  /** A channel compared with itself shows no difference. */
  lemma CompareWithItself(fields: seq<string>, channel: Record, json: JsonCodec)
    ensures Differences(fields, channel, channel, json) == []
  {
    DifferencesExact(fields, channel, channel, json);
    forall f | f in fields
      ensures !FieldDiffers(f, channel, channel, json)
    {
      PyEqReflexive(Get(channel, f, VNull));
      PyEqReflexive(VMap(NormalizeToDict(Get(channel, f, VNull), json)));
    }
  }

  /** An overwrite copy plans a field exactly when the compare reports it as different. */
  lemma OverwriteMatchesCompare(vendor: Vendor, field: string, source: Record, target: Record, json: JsonCodec)
    ensures FieldPlan(vendor, field, CopyOverwrite, source, target, json).Some? <==> FieldDiffers(field, source, target, json)
  {
    var src := Get(source, field, VNull);
    var cur := Get(target, field, VNull);
    PyEqReflexive(src);
    if KindOf(field) == DictField {
      var a := NormalizeToDict(src, json);
      var b := NormalizeToDict(cur, json);
      PyEqReflexive(VMap(a));
      if SameDict(a, b) {
        PyEqSymmetric(VMap(a), VMap(b));
      } else if SameDict(b, a) {
        PyEqSymmetric(VMap(b), VMap(a));
      }
    }
  }

  /** After an overwrite copy is stored, the compare finds the field equal to the source. */
  lemma OverwriteThenCompare(vendor: Vendor, field: string, source: Record, target: Record, json: JsonCodec)
    requires LawfulJson(json)
    requires KindOf(field) == ListField ==>
      CommaFree(NormalizeToSet(Get(source, field, VNull)) + NormalizeToSet(Get(target, field, VNull)))
    requires KindOf(field) == SimpleField ==> vendor.VoApi? || field != "priority"
    requires FieldPlan(vendor, field, CopyOverwrite, source, target, json).Some?
    ensures var p := FieldPlan(vendor, field, CopyOverwrite, source, target, json);
            !FieldDiffers(field, source, Applied(vendor, field, target, p.value), json)
  {
    var p := FieldPlan(vendor, field, CopyOverwrite, source, target, json);
    var after := Applied(vendor, field, target, p.value);
    match KindOf(field) {
      case ListField => ListCopyIsStable(vendor, field, CopyOverwrite, source, target, json);
      case DictField => DictCopyIsStable(vendor, field, CopyOverwrite, source, target, json);
      case SimpleField => SimpleCopyIsStable(vendor, field, CopyOverwrite, source, target, json);
    }
    OverwriteMatchesCompare(vendor, field, source, after, json);
  }
}
