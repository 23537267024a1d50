/**
 * Cross-site copy and compare (channel_manager_lib/cross_site_actions.py):
 * one source channel is copied onto, or compared with, every matched target
 * channel, field by field. List-like fields are compared and combined as
 * normalised sets, dict-like fields as normalised dicts and every other field
 * raw; what goes on the wire is in the target vendor's format.
 */
/**
 * The `delete_keys` loop of cross-site copying
 * (channel_manager_lib/cross_site_actions.py): the keys listed by the source
 * are deleted from the target's dict one by one, counting the deletions.
 */
module CrossSiteKeys {
  import opened Wrappers
  import opened Values

  predicate AllHashable(keys: seq<Value>)
  {
    forall i :: 0 <= i < |keys| ==> Hashable(keys[i])
  }

  /** The string keys among `keys`, the only ones a dict with string keys can hold. */
  function StrKeys(keys: seq<Value>): set<string>
    decreases |keys|
  {
    if keys == [] then {}
    else
      var last := keys[|keys| - 1];
      StrKeys(keys[..|keys| - 1]) + (if last.VStr? then {last.s} else {})
  }

  /** How many of `keys` the `delete_keys` loop finds in `d`, key by key (a repeated key counts once). */
  function Deletions<V>(d: map<string, V>, keys: seq<Value>): nat
    decreases |keys|
  {
    if keys == [] then 0
    else
      var init := keys[..|keys| - 1];
      var last := keys[|keys| - 1];
      Deletions(d, init) + (if last.VStr? && last.s in d - StrKeys(init) then 1 else 0)
  }

  lemma CountNewKey(held: set<string>, seen: set<string>, key: string)
    requires key in held && key !in seen
    ensures |held * (seen + {key})| == |held * seen| + 1
  {
    assert held * (seen + {key}) == (held * seen) + {key};
  }

  lemma CountOldKey(held: set<string>, seen: set<string>, added: set<string>)
    requires forall k :: k in added ==> k !in held || k in seen
    ensures held * (seen + added) == held * seen
  {
  }

  /** The count is the number of distinct listed keys the dict held. */
  lemma {:induction false} DeletionsCount<V>(d: map<string, V>, keys: seq<Value>)
    ensures Deletions(d, keys) == |d.Keys * StrKeys(keys)|
    decreases |keys|
  {
    if keys != [] {
      var init := keys[..|keys| - 1];
      var last := keys[|keys| - 1];
      DeletionsCount(d, init);
      if last.VStr? && last.s in d - StrKeys(init) {
        CountNewKey(d.Keys, StrKeys(init), last.s);
      } else {
        CountOldKey(d.Keys, StrKeys(init), if last.VStr? then {last.s} else {});
      }
    }
  }

  /** One round of the loop: the `i`-th key is deleted, and counted, if the dict still holds it. */
  method DeleteOne<V>(d: map<string, V>, keys: seq<Value>, i: int, current: map<string, V>, deleted: nat)
    returns (next: map<string, V>, count: nat)
    requires 0 <= i < |keys|
    requires current == d - StrKeys(keys[..i]) && deleted == Deletions(d, keys[..i])
    ensures next == d - StrKeys(keys[..i + 1]) && count == Deletions(d, keys[..i + 1])
  {
    assert keys[..i + 1][..i] == keys[..i];
    next, count := current, deleted;
    if keys[i].VStr? && keys[i].s in current {
      next, count := current - {keys[i].s}, deleted + 1;
    }
  }

  /**
   * The `delete_keys` loop: deletes each listed key the dict holds and counts
   * the deletions. A list or dict among the keys cannot be looked up, which
   * abandons the field (None).
   */
  method DeleteCountedKeys<V>(d: map<string, V>, keys: seq<Value>) returns (result: Option<map<string, V>>, deleted: nat)
    ensures result.None? <==> !AllHashable(keys)
    ensures result.Some? ==> result.value == d - StrKeys(keys) && deleted == |d.Keys * StrKeys(keys)|
  {
    var current := d;
    deleted := 0;
    var i := 0;
    while i < |keys| && Hashable(keys[i])
      invariant 0 <= i <= |keys|
      invariant forall j :: 0 <= j < i ==> Hashable(keys[j])
      invariant current == d - StrKeys(keys[..i])
      invariant deleted == Deletions(d, keys[..i])
    {
      current, deleted := DeleteOne(d, keys, i, current, deleted);
      i := i + 1;
    }
    if i < |keys| {
      result := None;
    } else {
      assert keys[..i] == keys;
      DeletionsCount(d, keys);
      result := Some(current);
    }
  }
}

module CrossSiteActions {
  import opened Wrappers
  import opened PyStrings
  import opened Values
  import opened Engines
  import opened DataHelpers
  import opened Vendors
  import ChannelToolBase
  import opened CrossSiteKeys

  // ----- Field kinds and copy modes -----

  const ListFields: seq<string> := ["models", "group", "tag"]
  const DictFields: seq<string> := ["model_mapping", "status_code_mapping", "setting", "headers", "override_params"]

  datatype FieldKind = ListField | DictField | SimpleField

  function KindOf(field: string): FieldKind
  {
    if field in ListFields then ListField
    else if field in DictFields then DictField
    else SimpleField
  }

  /** The `copy_mode` strings the code tests for; any other value makes every field skip. */
  datatype CopyMode = CopyOverwrite | CopyAppend | CopyRemove | CopyMerge | CopyDeleteKeys | CopyUnknown

  function CopyModeOf(mode: Value): CopyMode
  {
    if mode == VStr("overwrite") then CopyOverwrite
    else if mode == VStr("append") then CopyAppend
    else if mode == VStr("remove") then CopyRemove
    else if mode == VStr("merge") then CopyMerge
    else if mode == VStr("delete_keys") then CopyDeleteKeys
    else CopyUnknown
  }

  /** `id` and `key` are never copied. */
  predicate Copyable(field: string)
  {
    field != "id" && field != "key"
  }

  /** Python `==` on two dicts. */
  predicate SameDict(a: map<string, Value>, b: map<string, Value>)
  {
    PyEq(VMap(a), VMap(b))
  }

  // ----- delete_keys -----

  function AsValues(xs: seq<string>): (r: seq<Value>)
    ensures |r| == |xs|
    ensures forall i :: 0 <= i < |xs| ==> r[i] == VStr(xs[i])
  {
    seq(|xs|, i requires 0 <= i < |xs| => VStr(xs[i]))
  }

  /**
   * The keys `delete_keys` takes from the raw source value: a list as it is, a
   * string as its trimmed non-empty comma pieces; any other value makes the
   * field skip (None).
   */
  function DeleteKeyList(source: Value): Option<seq<Value>>
  {
    match source
    case VList(items) => Some(items)
    case VStr(s) => Some(AsValues(StrippedNonBlank(Split(s, ','))))
    case _ => None
  }

  // ----- One field of one target -----

  /** The resulting set of a list field; None for a mode lists do not support. */
  function ListResult(mode: CopyMode, current: set<string>, source: set<string>): Option<set<string>>
  {
    match mode
    case CopyOverwrite => Some(source)
    case CopyAppend => Some(current + source)
    case CopyRemove => Some(current - source)
    case _ => None
  }

  /** `delete_keys` with the keys at hand: it changes the dict when some listed key is present. */
  function KeysChange(current: map<string, Value>, keys: seq<Value>): Option<map<string, Value>>
  {
    if AllHashable(keys) && current.Keys * StrKeys(keys) != {} then Some(current - StrKeys(keys)) else None
  }

  /**
   * The resulting dict of a dict field when it changes: overwrite when the
   * dicts differ, merge (the source wins) when that changes the dict,
   * delete_keys when some listed key is present. None when nothing changes or
   * the field is skipped.
   */
  function DictChange(mode: CopyMode, current: map<string, Value>, source: map<string, Value>, raw: Value)
    : Option<map<string, Value>>
  {
    match mode
    case CopyOverwrite => if !SameDict(source, current) then Some(source) else None
    case CopyMerge => if !SameDict(current + source, current) then Some(current + source) else None
    case CopyDeleteKeys =>
      (match DeleteKeyList(raw)
       case Some(keys) => KeysChange(current, keys)
       case None => None)
    case _ => None
  }

  /**
   * What one field of one target becomes in `execute_copy_fields`: the new
   * value (in the vendor's list or dict form for those fields, the raw source
   * value for a simple field) when the field changes, None when it is
   * unchanged or skipped.
   */
  function FieldPlan(vendor: Vendor, field: string, mode: CopyMode, source: Record, target: Record, json: JsonCodec)
    : Option<Value>
  {
    var src := Get(source, field, VNull);
    var orig := Get(target, field, VNull);
    match KindOf(field)
    case ListField =>
      (match ListResult(mode, NormalizeToSet(orig), NormalizeToSet(src))
       case Some(res) => if res != NormalizeToSet(orig) then Some(FormatListField(vendor, res)) else None
       case None => None)
    case DictField =>
      (match DictChange(mode, NormalizeToDict(orig, json), NormalizeToDict(src, json), src)
       case Some(res) => Some(FormatDictField(vendor, res, json))
       case None => None)
    case SimpleField =>
      if mode == CopyOverwrite && !PyEq(src, orig) then Some(src) else None
  }

  /** The `delete_keys` branch of a dict field: the loop runs, and the dict changes when it deleted something. */
  method DeleteKeysChange(current: map<string, Value>, keys: seq<Value>) returns (change: Option<map<string, Value>>)
    ensures change == KeysChange(current, keys)
  {
    var result, deleted := DeleteCountedKeys(current, keys);
    change := if result.Some? && deleted > 0 then result else None;
  }

  /** Plans one field, running the `delete_keys` loop where the mode asks for it. */
  method PlanField(vendor: Vendor, field: string, mode: CopyMode, source: Record, target: Record, json: JsonCodec)
    returns (nv: Option<Value>)
    ensures nv == FieldPlan(vendor, field, mode, source, target, json)
  {
    if KindOf(field) == DictField && mode == CopyDeleteKeys {
      var keys := DeleteKeyList(Get(source, field, VNull));
      nv := None;
      if keys.Some? {
        var change := DeleteKeysChange(NormalizeToDict(Get(target, field, VNull), json), keys.value);
        if change.Some? {
          nv := Some(FormatDictField(vendor, change.value, json));
        }
      }
    } else {
      nv := FieldPlan(vendor, field, mode, source, target, json);
    }
  }

  // ----- One target -----

  /** What the copy works with: the target vendor, the source channel, the fields and the raw `copy_mode`. */
  datatype CopyJob = CopyJob(vendor: Vendor, source: Record, fields: seq<string>, mode: Value, json: JsonCodec)

  function PlanOf(job: CopyJob, field: string, target: Record): Option<Value>
  {
    if Copyable(field) then FieldPlan(job.vendor, field, CopyModeOf(job.mode), job.source, target, job.json) else None
  }

  /** The `changes_summary` text of a changed field: `'<repr old>' -> '<repr new>' (<mode>)`. */
  function SummaryLine(original: Value, newValue: Value, mode: Value): string
  {
    "'" + Repr(original) + "' -> '" + Repr(newValue) + "' (" + PyStr(mode) + ")"
  }

  function PayloadOutcome(job: CopyJob, target: Record): string -> Option<Value>
  {
    f => match PlanOf(job, f, target)
         case Some(nv) => Some(FormatFieldValue(job.vendor, f, nv))
         case None => None
  }

  function SummaryOutcome(job: CopyJob, target: Record): string -> Option<string>
  {
    f => match PlanOf(job, f, target)
         case Some(nv) => Some(SummaryLine(Get(target, f, VNull), nv, job.mode))
         case None => None
  }

  function FieldSet(fields: seq<string>): set<string>
  {
    set f | f in fields
  }

  /** The payload of one target: its `id` plus every changed field with its final wire value. */
  function TargetPayload(job: CopyJob, target: Record): Record
  {
    map["id" := Get(target, "id", VNull)] + ChannelToolBase.Collect(FieldSet(job.fields), PayloadOutcome(job, target))
  }

  /** The `changes_summary` of one target: a line per changed field. */
  function TargetSummary(job: CopyJob, target: Record): map<string, string>
  {
    ChannelToolBase.Collect(FieldSet(job.fields), SummaryOutcome(job, target))
  }

  /** Seeing a field once more adds its outcome, if any (a repeated field changes nothing). */
  lemma CollectAdd<V>(done: set<string>, field: string, outcome: string -> Option<V>)
    ensures ChannelToolBase.Collect(done + {field}, outcome)
      == if outcome(field).Some? then ChannelToolBase.Collect(done, outcome)[field := outcome(field).value]
         else ChannelToolBase.Collect(done, outcome)
  {
  }

  lemma FieldSetStep(fields: seq<string>, i: int)
    requires 0 <= i < |fields|
    ensures FieldSet(fields[..i + 1]) == FieldSet(fields[..i]) + {fields[i]}
  {
    assert fields[..i + 1] == fields[..i] + [fields[i]];
  }

  /** The inner loop of `execute_copy_fields`: builds the payload and the change summary of one target. */
  method PlanTarget(job: CopyJob, target: Record) returns (payload: Record, summary: map<string, string>)
    ensures payload == TargetPayload(job, target)
    ensures summary == TargetSummary(job, target)
  {
    payload := map["id" := Get(target, "id", VNull)];
    summary := map[];
    var i := 0;
    while i < |job.fields|
      invariant 0 <= i <= |job.fields|
      invariant payload == map["id" := Get(target, "id", VNull)]
        + ChannelToolBase.Collect(FieldSet(job.fields[..i]), PayloadOutcome(job, target))
      invariant summary == ChannelToolBase.Collect(FieldSet(job.fields[..i]), SummaryOutcome(job, target))
    {
      var field := job.fields[i];
      FieldSetStep(job.fields, i);
      CollectAdd(FieldSet(job.fields[..i]), field, PayloadOutcome(job, target));
      CollectAdd(FieldSet(job.fields[..i]), field, SummaryOutcome(job, target));
      if Copyable(field) {
        var nv := PlanField(job.vendor, field, CopyModeOf(job.mode), job.source, target, job.json);
        if nv.Some? {
          ChannelToolBase.MergeThenUpdate(map["id" := Get(target, "id", VNull)],
            ChannelToolBase.Collect(FieldSet(job.fields[..i]), PayloadOutcome(job, target)),
            field, FormatFieldValue(job.vendor, field, nv.value));
          payload := payload[field := FormatFieldValue(job.vendor, field, nv.value)];
          summary := summary[field := SummaryLine(Get(target, field, VNull), nv.value, job.mode)];
        }
      }
      i := i + 1;
    }
    assert job.fields[..i] == job.fields;
  }

  // ----- The plan -----

  /** An entry of `update_plan`; `original` is the (deep-copied) target as fetched. */
  datatype PlanItem = PlanItem(targetId: Value, targetName: Value, payload: Record, summary: map<string, string>, original: Record)

  function TargetItem(job: CopyJob, target: Record): PlanItem
  {
    PlanItem(Get(target, "id", VNull), Get(target, "name", VNull), TargetPayload(job, target), TargetSummary(job, target), target)
  }

  /** The plan: in target order, an entry for every target with a non-empty change summary. */
  function UpdatePlan(job: CopyJob, targets: seq<Record>): seq<PlanItem>
    decreases |targets|
  {
    if targets == [] then []
    else
      var last := targets[|targets| - 1];
      var rest := UpdatePlan(job, targets[..|targets| - 1]);
      if TargetSummary(job, last) != map[] then rest + [TargetItem(job, last)] else rest
  }

  /** The outer loop of `execute_copy_fields`: plans every target and keeps those with changes. */
  method BuildUpdatePlan(job: CopyJob, targets: seq<Record>) returns (plan: seq<PlanItem>)
    ensures plan == UpdatePlan(job, targets)
  {
    plan := [];
    var i := 0;
    while i < |targets|
      invariant 0 <= i <= |targets|
      invariant plan == UpdatePlan(job, targets[..i])
    {
      var target := targets[i];
      var payload, summary := PlanTarget(job, target);
      assert targets[..i + 1][..i] == targets[..i];
      if summary != map[] {
        plan := plan + [PlanItem(Get(target, "id", VNull), Get(target, "name", VNull), payload, summary, target)];
      }
      i := i + 1;
    }
    assert targets[..i] == targets;
  }

  // ----- Update results -----

  function CountTrue(results: seq<bool>): (n: nat)
    ensures n <= |results|
    decreases |results|
  {
    if results == [] then 0
    else CountTrue(results[..|results| - 1]) + (if results[|results| - 1] then 1 else 0)
  }

  /** A count of successes equal to the number of results means no failure. */
  lemma {:induction false} CountTrueAll(results: seq<bool>)
    ensures CountTrue(results) == |results| <==> forall i :: 0 <= i < |results| ==> results[i]
    decreases |results|
  {
    if results != [] {
      var init := results[..|results| - 1];
      CountTrueAll(init);
      assert forall i :: 0 <= i < |init| ==> init[i] == results[i];
    }
  }

  function Payloads(plan: seq<PlanItem>): (r: seq<Record>)
    ensures |r| == |plan|
    ensures forall i :: 0 <= i < |plan| ==> r[i] == plan[i].payload
  {
    seq(|plan|, i requires 0 <= i < |plan| => plan[i].payload)
  }

  function Originals(plan: seq<PlanItem>): (r: seq<Record>)
    ensures |r| == |plan|
    ensures forall i :: 0 <= i < |plan| ==> r[i] == plan[i].original
  {
    seq(|plan|, i requires 0 <= i < |plan| => plan[i].original)
  }

  function Results(plan: seq<PlanItem>, updateOk: Record -> bool): (r: seq<bool>)
    ensures |r| == |plan|
    ensures forall i :: 0 <= i < |plan| ==> r[i] == updateOk(plan[i].payload)
  {
    seq(|plan|, i requires 0 <= i < |plan| => updateOk(plan[i].payload))
  }

  /** The tally after the first `i` updates. */
  ghost predicate TalliedSoFar(plan: seq<PlanItem>, updateOk: Record -> bool, i: int, successes: nat, failures: nat, sent: seq<Record>)
    requires 0 <= i <= |plan|
  {
    successes + failures == i &&
    successes == CountTrue(Results(plan, updateOk)[..i]) &&
    sent == Payloads(plan)[..i] &&
    (failures > 0 <==> exists j :: 0 <= j < i && !updateOk(plan[j].payload))
  }

  /** One update of the tally: the `i`-th payload is sent and counted as a success or a failure. */
  method TallyOne(plan: seq<PlanItem>, updateOk: Record -> bool, i: int, successes: nat, failures: nat, sent: seq<Record>)
    returns (successes': nat, failures': nat, sent': seq<Record>)
    requires 0 <= i < |plan|
    requires TalliedSoFar(plan, updateOk, i, successes, failures, sent)
    ensures TalliedSoFar(plan, updateOk, i + 1, successes', failures', sent')
  {
    ghost var results := Results(plan, updateOk);
    assert results[..i + 1][..i] == results[..i];
    assert Payloads(plan)[..i + 1] == Payloads(plan)[..i] + [plan[i].payload];
    successes', failures' := successes, failures;
    if updateOk(plan[i].payload) {
      successes' := successes + 1;
    } else {
      failures' := failures + 1;
    }
    sent' := sent + [plan[i].payload];
  }

  /**
   * The result tally: counts the successful and the failed updates, in plan
   * order; the exit code is 1 exactly when some update failed.
   */
  method TallyResults(plan: seq<PlanItem>, updateOk: Record -> bool)
    returns (successes: nat, failures: nat, sent: seq<Record>, code: int)
    ensures successes + failures == |plan|
    ensures successes == CountTrue(Results(plan, updateOk))
    ensures sent == Payloads(plan)
    ensures code == 0 || code == 1
    ensures code == 1 <==> exists i :: 0 <= i < |plan| && !updateOk(plan[i].payload)
  {
    successes, failures, sent := 0, 0, [];
    var i := 0;
    while i < |plan|
      invariant 0 <= i <= |plan|
      invariant TalliedSoFar(plan, updateOk, i, successes, failures, sent)
    {
      successes, failures, sent := TallyOne(plan, updateOk, i, successes, failures, sent);
      i := i + 1;
    }
    assert Results(plan, updateOk)[..i] == Results(plan, updateOk);
    assert Payloads(plan)[..i] == Payloads(plan);
    code := if failures > 0 then 1 else 0;
  }

  // ----- execute_copy_fields -----

  /** The updates go ahead: confirmed (by `--yes` or a 'y'), and the undo data saved or the run told to go on regardless. */
  predicate Proceeds(yes: bool, confirmAnswer: bool, undoSaved: bool, continueAnswer: bool)
  {
    (yes || confirmAnswer) && (undoSaved || yes || continueAnswer)
  }

  /**
   * `execute_copy_fields`: builds the plan, stops with 0 when it is empty or
   * not confirmed, saves the originals for undo (a failed save asks again
   * unless `--yes`), sends every payload and returns 1 exactly when some update
   * failed. `undoRecords` are the records handed to the undo save, `sent` the
   * payloads sent.
   */
  method ExecuteCopyFields(job: CopyJob, targets: seq<Record>, yes: bool, confirmAnswer: bool,
                           undoSaved: bool, continueAnswer: bool, updateOk: Record -> bool)
    returns (code: int, plan: seq<PlanItem>, undoRecords: seq<Record>, sent: seq<Record>)
    ensures plan == UpdatePlan(job, targets)
    ensures code == 0 || code == 1
    ensures plan == [] || !Proceeds(yes, confirmAnswer, undoSaved, continueAnswer) ==> code == 0 && sent == []
    ensures plan != [] && (yes || confirmAnswer) ==> undoRecords == Originals(plan)
    ensures plan == [] || !(yes || confirmAnswer) ==> undoRecords == []
    ensures plan != [] && Proceeds(yes, confirmAnswer, undoSaved, continueAnswer) ==>
      sent == Payloads(plan) && (code == 1 <==> exists i :: 0 <= i < |plan| && !updateOk(plan[i].payload))
  {
    plan := BuildUpdatePlan(job, targets);
    undoRecords, sent := [], [];
    if plan == [] {
      return 0, plan, undoRecords, sent;
    }
    if !yes && !confirmAnswer {
      return 0, plan, undoRecords, sent;
    }
    undoRecords := Originals(plan);
    if !undoSaved && !yes && !continueAnswer {
      return 0, plan, undoRecords, sent;
    }
    var successes, failures;
    successes, failures, sent, code := TallyResults(plan, updateOk);
  }

  // ----- execute_compare_fields -----

  /** A field differs: as sets for list fields, as dicts for dict fields, by Python `==` otherwise. */
  predicate FieldDiffers(field: string, source: Record, target: Record, json: JsonCodec)
  {
    var s := Get(source, field, VNull);
    var t := Get(target, field, VNull);
    match KindOf(field)
    case ListField => NormalizeToSet(s) != NormalizeToSet(t)
    case DictField => !SameDict(NormalizeToDict(s, json), NormalizeToDict(t, json))
    case SimpleField => !PyEq(s, t)
  }

  /** The fields reported as different for one target, in the order they are compared. */
  function Differences(fields: seq<string>, source: Record, target: Record, json: JsonCodec): seq<string>
    decreases |fields|
  {
    if fields == [] then []
    else
      var f := fields[|fields| - 1];
      Differences(fields[..|fields| - 1], source, target, json) + (if FieldDiffers(f, source, target, json) then [f] else [])
  }

  /**
   * `execute_compare_fields`: for each target, the differing fields (the lines
   * it prints), and whether any difference was found at all. It builds no
   * payload and sends nothing.
   */
  method CompareFields(source: Record, targets: seq<Record>, fields: seq<string>, json: JsonCodec)
    returns (report: seq<seq<string>>, overall: bool)
    ensures |report| == |targets|
    ensures forall i :: 0 <= i < |targets| ==> report[i] == Differences(fields, source, targets[i], json)
    ensures overall <==> exists i :: 0 <= i < |targets| && report[i] != []
  {
    report := [];
    overall := false;
    var i := 0;
    while i < |targets|
      invariant 0 <= i <= |targets|
      invariant |report| == i
      invariant forall k :: 0 <= k < i ==> report[k] == Differences(fields, source, targets[k], json)
      invariant overall <==> exists k :: 0 <= k < i && report[k] != []
    {
      var found: seq<string> := [];
      var targetDifferent := false;
      var j := 0;
      while j < |fields|
        invariant 0 <= j <= |fields|
        invariant found == Differences(fields[..j], source, targets[i], json)
        invariant targetDifferent <==> found != []
        invariant overall <==> (exists k :: 0 <= k < i && report[k] != []) || found != []
      {
        assert fields[..j + 1][..j] == fields[..j];
        if FieldDiffers(fields[j], source, targets[i], json) {
          found := found + [fields[j]];
          targetDifferent := true;
          overall := true;
        }
        j := j + 1;
      }
      assert fields[..j] == fields;
      report := report + [found];
      i := i + 1;
    }
  }

  // ----- execute_compare_channel_counts -----

  /** The count difference reported when both lists were fetched; None when either fetch failed. */
  function CountDifference(source: Option<nat>, target: Option<nat>): (r: Option<nat>)
    ensures r.Some? <==> source.Some? && target.Some?
    ensures r == Some(0) <==> source.Some? && source == target
    ensures r.Some? ==> r.value + source.value == target.value || r.value + target.value == source.value
  {
    if source.Some? && target.Some? then
      Some(if source.value >= target.value then source.value - target.value else target.value - source.value)
    else None
  }
}
