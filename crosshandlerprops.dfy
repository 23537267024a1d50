/**
 * What `run_cross_site_operation` promises: which inputs end the run early and
 * how, that a failed check is never reported as success, how the source and
 * targets are chosen, and that only a confirmed copy sends anything.
 */
module CrossSiteRunProps {
  import opened Wrappers
  import opened Values
  import opened Engines
  import opened Vendors
  import opened Sublists
  import opened ConfigUtils
  import opened ChannelToolBase
  import opened CrossSiteKeys
  import opened CrossSiteActions
  import opened CrossSiteProps
  import opened CrossSiteHandler

  /** What an action ends with once its source and targets are known; comparing sends nothing. */
  lemma ActionOutcomes(action: CrossAction, s: Setup, source: Record, targets: seq<Record>, inputs: CrossSiteInputs)
    requires action != CompareCounts
    ensures var r := ActionResult(action, s, source, targets, inputs);
            && (r.outcome == Exit(0) || r.outcome == Exit(1) || r.outcome == Raised)
            && (action == CompareFieldsAction ==> r.sent == [])
            && (action == CompareFieldsAction && AllHashable(s.params.fields) ==> r.outcome == Exit(0))
  {
  }

  /** A run ends with 0, with 1, or with an uncaught exception. */
  lemma RunOutcomes(action: CrossAction, inputs: CrossSiteInputs)
    ensures var o := CrossSiteRun(action, inputs).outcome;
            o == Exit(0) || o == Exit(1) || o == Raised
  {
    match SetupRun(action, inputs) {
      case Err(_) => SetupFailuresFail(action, inputs);
      case Ok(s) =>
        if action != CompareCounts {
          if SelectedSource(s, inputs.json).Ok? && SelectedTargets(s, inputs.json).Ok? {
            ActionOutcomes(action, s, SelectedSource(s, inputs.json).value, SelectedTargets(s, inputs.json).value, inputs);
          }
        }
    }
  }

  /** No failed check of the configuration, the connections, the tools or the fetches is reported as success. */
  lemma SetupFailuresFail(action: CrossAction, inputs: CrossSiteInputs)
    requires SetupRun(action, inputs).Err?
    ensures SetupRun(action, inputs).error == Exit(1) || SetupRun(action, inputs).error == Raised
  {
  }

  /** The blocks pass when both are dicts that name a connection. */
  lemma BlocksPassed(cfg: Record)
    requires Blocks(cfg).Ok?
    ensures Get(cfg, "source", VNull) == VMap(Blocks(cfg).value.0)
    ensures Get(cfg, "target", VNull) == VMap(Blocks(cfg).value.1)
    ensures Truthy(Get(Blocks(cfg).value.0, "connection_config", VNull))
    ensures Truthy(Get(Blocks(cfg).value.1, "connection_config", VNull))
  {
  }

  /** Copy and compare parameters pass only with a non-empty list of fields. */
  lemma ParamsPassed(action: CrossAction, params: Value)
    requires CheckParams(action, params).Ok? && action != CompareCounts
    ensures CheckParams(action, params).value.fields != []
  {
  }

  /** What a successful setup is made of. */
  lemma SetupParts(action: CrossAction, inputs: CrossSiteInputs)
    requires SetupRun(action, inputs).Ok?
    ensures CrossSiteConfig(inputs.crossSiteFile).Some?
    ensures var cfg := CrossSiteConfig(inputs.crossSiteFile).value;
            var s := SetupRun(action, inputs).value;
            && Blocks(cfg) == Ok((s.sourceBlock, s.targetBlock))
            && CheckParams(action, Get(cfg, ActionName(action) + "_params", VMap(map[]))) == Ok(s.params)
            && ConnectionVendor(ConnectionFile(s.sourceBlock, inputs)).Some?
            && ConnectionVendor(ConnectionFile(s.targetBlock, inputs)) == Some(s.targetVendor)
            && inputs.toolsReady
            && inputs.sourceFetch == Some(s.sourceAll) && inputs.targetFetch == Some(s.targetAll)
  {
  }

  /**
   * A run gets past the checks only with a non-empty configuration dict,
   * source and target blocks that are dicts naming their connections, two
   * connection files whose `api_type` is "newapi" or "voapi", both tools and
   * both channel lists; copy and compare need a non-empty list of fields.
   */
  lemma SetupSucceeded(action: CrossAction, inputs: CrossSiteInputs)
    requires SetupRun(action, inputs).Ok?
    ensures var s := SetupRun(action, inputs).value;
            && inputs.crossSiteFile.Document? && inputs.crossSiteFile.content.VMap?
            && inputs.crossSiteFile.content.fields != map[]
            && Get(inputs.crossSiteFile.content.fields, "source", VNull) == VMap(s.sourceBlock)
            && Get(inputs.crossSiteFile.content.fields, "target", VNull) == VMap(s.targetBlock)
            && Truthy(Get(s.sourceBlock, "connection_config", VNull))
            && Truthy(Get(s.targetBlock, "connection_config", VNull))
            && ConnectionVendor(ConnectionFile(s.sourceBlock, inputs)).Some?
            && ConnectionVendor(ConnectionFile(s.targetBlock, inputs)) == Some(s.targetVendor)
            && inputs.toolsReady
            && inputs.sourceFetch == Some(s.sourceAll) && inputs.targetFetch == Some(s.targetAll)
            && (action != CompareCounts ==> s.params.fields != [])
  {
    SetupParts(action, inputs);
    var cfg := CrossSiteConfig(inputs.crossSiteFile).value;
    BlocksPassed(cfg);
    if action != CompareCounts {
      ParamsPassed(action, Get(cfg, ActionName(action) + "_params", VMap(map[])));
    }
  }

  /** A valid connection file is a dict whose `api_type` is exactly one of the two vendor names. */
  lemma ConnectionVendorValid(f: YamlFile)
    requires ConnectionVendor(f).Some?
    ensures f.Document? && f.content.VMap?
    ensures var api := Get(f.content.fields, "api_type", VNull);
            (api == VStr("newapi") && ConnectionVendor(f) == Some(NewApi)) ||
            (api == VStr("voapi") && ConnectionVendor(f) == Some(VoApi))
  {
    var conn := LoadYamlConfig(f).value.value;
    assert f.content == VMap(conn);
  }

  /** A copy whose parameters lack a non-empty `fields_to_copy` list ends with 1 and sends nothing. */
  lemma CopyNeedsFields(inputs: CrossSiteInputs, cfg: Record)
    requires CrossSiteConfig(inputs.crossSiteFile) == Some(cfg) && Blocks(cfg).Ok?
    requires var p := Get(cfg, "copy_fields_params", VMap(map[]));
             p.VMap? && !(Get(p.fields, "fields_to_copy", VNull).VList? && Truthy(Get(p.fields, "fields_to_copy", VNull)))
    ensures CrossSiteRun(CopyFields, inputs) == RunResult(Exit(1), [])
  {
    assert ActionName(CopyFields) + "_params" == "copy_fields_params";
  }

  /** A compare whose parameters lack a non-empty `fields_to_compare` list ends with 1. */
  lemma CompareNeedsFields(inputs: CrossSiteInputs, cfg: Record)
    requires CrossSiteConfig(inputs.crossSiteFile) == Some(cfg) && Blocks(cfg).Ok?
    requires var p := Get(cfg, "compare_fields_params", VMap(map[]));
             p.VMap? && !(Get(p.fields, "fields_to_compare", VNull).VList? && Truthy(Get(p.fields, "fields_to_compare", VNull)))
    ensures CrossSiteRun(CompareFieldsAction, inputs) == RunResult(Exit(1), [])
  {
    assert ActionName(CompareFieldsAction) + "_params" == "compare_fields_params";
  }

  /** An unknown `copy_mode` only warns: the checks pass or fail whatever the mode, and the mode is carried as given. */
  lemma CopyModeNotChecked(params: Record, mode: Value)
    ensures CheckParams(CopyFields, VMap(params)).Ok? <==> CheckParams(CopyFields, VMap(params["copy_mode" := mode])).Ok?
    ensures CheckParams(CopyFields, VMap(params["copy_mode" := mode])).Ok? ==>
              CheckParams(CopyFields, VMap(params["copy_mode" := mode])).value.mode == mode
  {
    assert Get(params["copy_mode" := mode], "fields_to_copy", VNull) == Get(params, "fields_to_copy", VNull);
  }

  /** Comparing channel counts, once the lists are fetched, always ends with 0 and sends nothing. */
  lemma CountsAlwaysSucceed(inputs: CrossSiteInputs)
    requires SetupRun(CompareCounts, inputs).Ok?
    ensures CrossSiteRun(CompareCounts, inputs) == RunResult(Exit(0), [])
  {
  }

  /**
   * The source is the first channel the source filter keeps, in fetch
   * order; it is one of the fetched channels, and its id can be printed
   * padded.
   */
  lemma SourceIsFirstMatch(s: Setup, json: JsonCodec)
    requires SelectedSource(s, json).Ok?
    ensures var matched := Matched(s.sourceAll, s.sourceBlock, json);
            matched.Returns? && matched.value != [] && matched.value[0] == VMap(SelectedSource(s, json).value)
    ensures SelectedSource(s, json).value in s.sourceAll
    ensures FormatsPadded(Get(SelectedSource(s, json).value, "id", VStr("N/A")))
  {
    var matched := Matched(s.sourceAll, s.sourceBlock, json).value;
    assert matched[0] in matched;
    assert matched[0] in AsChannels(s.sourceAll);
    var i :| 0 <= i < |s.sourceAll| && AsChannels(s.sourceAll)[i] == matched[0];
  }

  /** The source fails exactly when its filter raises, keeps nothing, or keeps first a channel whose id cannot be printed padded. */
  lemma SourceFailures(s: Setup, json: JsonCodec)
    ensures SelectedSource(s, json).Err? ==> SelectedSource(s, json).error == Exit(1)
    ensures SelectedSource(s, json).Err? <==>
      var matched := Matched(s.sourceAll, s.sourceBlock, json);
      matched == Raises || matched.value == []
      || (matched.value[0].VMap? && !FormatsPadded(Get(matched.value[0].fields, "id", VStr("N/A"))))
  {
    var m := Matched(s.sourceAll, s.sourceBlock, json);
    if m.Returns? && m.value != [] {
      var matched := m.value;
      SublistMembers(matched, AsChannels(s.sourceAll));
      assert matched[0] in matched;
      var i :| 0 <= i < |s.sourceAll| && AsChannels(s.sourceAll)[i] == matched[0];
      assert AsRecords(matched)[0] == matched[0].fields;
    }
  }

  /** The targets are the fetched target channels the target filter keeps, one for one and copies included, unless it raises. */
  lemma TargetsAreMatches(s: Setup, json: JsonCodec)
    ensures SelectedTargets(s, json).Err? <==> Matched(s.targetAll, s.targetBlock, json) == Raises
    ensures SelectedTargets(s, json).Ok? ==>
      forall t :: t in SelectedTargets(s, json).value ==>
        t in s.targetAll && VMap(t) in Matched(s.targetAll, s.targetBlock, json).value
    ensures SelectedTargets(s, json).Ok? ==> |SelectedTargets(s, json).value| <= |s.targetAll|
    ensures SelectedTargets(s, json).Ok? ==>
      AsChannels(SelectedTargets(s, json).value) == Matched(s.targetAll, s.targetBlock, json).value
  {
    var m := Matched(s.targetAll, s.targetBlock, json);
    if m.Returns? {
      var matched := m.value;
      SublistMembers(matched, AsChannels(s.targetAll));
      SublistLength(matched, AsChannels(s.targetAll));
      forall c | c in matched
        ensures c.VMap?
      {
        var j :| 0 <= j < |s.targetAll| && AsChannels(s.targetAll)[j] == c;
      }
      AsChannelsOfRecords(matched);
      forall t | t in SelectedTargets(s, json).value
        ensures t in s.targetAll && VMap(t) in matched
      {
        var i :| 0 <= i < |matched| && AsRecords(matched)[i] == t;
        assert matched[i] in AsChannels(s.targetAll);
        var j :| 0 <= j < |s.targetAll| && AsChannels(s.targetAll)[j] == matched[i];
      }
    }
  }

  /**
   * A raise while filtering the source or the targets and a missing source
   * end the run with 1; a target filter that keeps nothing ends it with 0;
   * none of them sends anything.
   */
  lemma SelectionExits(action: CrossAction, inputs: CrossSiteInputs)
    requires SetupRun(action, inputs).Ok? && action != CompareCounts
    ensures var s := SetupRun(action, inputs).value;
            && (Matched(s.sourceAll, s.sourceBlock, inputs.json) == Raises ==> CrossSiteRun(action, inputs) == RunResult(Exit(1), []))
            && (SelectedSource(s, inputs.json).Err? ==> CrossSiteRun(action, inputs) == RunResult(Exit(1), []))
            && (SelectedSource(s, inputs.json).Ok? && Matched(s.targetAll, s.targetBlock, inputs.json) == Raises ==>
                  CrossSiteRun(action, inputs) == RunResult(Exit(1), []))
            && (SelectedSource(s, inputs.json).Ok? && SelectedTargets(s, inputs.json) == Ok([]) ==>
                  CrossSiteRun(action, inputs) == RunResult(Exit(0), []))
  {
  }

  /** Comparing fields never sends an update, and ends with 0 unless a field name cannot be looked up or no source matched. */
  lemma CompareNeverSends(inputs: CrossSiteInputs)
    ensures CrossSiteRun(CompareFieldsAction, inputs).sent == []
    ensures SetupRun(CompareFieldsAction, inputs).Ok? ==>
              var s := SetupRun(CompareFieldsAction, inputs).value;
              SelectedSource(s, inputs.json).Ok? && SelectedTargets(s, inputs.json).Ok? && AllHashable(s.params.fields) ==>
                CrossSiteRun(CompareFieldsAction, inputs).outcome == Exit(0)
  {
    match SetupRun(CompareFieldsAction, inputs) {
      case Err(_) =>
      case Ok(s) =>
        if SelectedSource(s, inputs.json).Ok? && SelectedTargets(s, inputs.json).Ok? {
          ActionOutcomes(CompareFieldsAction, s, SelectedSource(s, inputs.json).value, SelectedTargets(s, inputs.json).value, inputs);
        }
    }
  }

  /** The copy the run performs once a source and some targets are chosen. */
  predicate CopyReady(inputs: CrossSiteInputs)
  {
    && SetupRun(CopyFields, inputs).Ok?
    && SelectedSource(SetupRun(CopyFields, inputs).value, inputs.json).Ok?
    && SelectedTargets(SetupRun(CopyFields, inputs).value, inputs.json).Ok?
    && SelectedTargets(SetupRun(CopyFields, inputs).value, inputs.json).value != []
    && AllHashable(SetupRun(CopyFields, inputs).value.params.fields)
  }

  function ReadyPlan(inputs: CrossSiteInputs): seq<PlanItem>
    requires CopyReady(inputs)
  {
    var s := SetupRun(CopyFields, inputs).value;
    UpdatePlan(JobOf(s, SelectedSource(s, inputs.json).value, inputs.json), SelectedTargets(s, inputs.json).value)
  }

  /** Once ready, the copy's result is the plan's. */
  lemma CopyRunIsPlanResult(inputs: CrossSiteInputs)
    requires CopyReady(inputs)
    ensures CrossSiteRun(CopyFields, inputs) == CopyResult(ReadyPlan(inputs), inputs)
  {
  }

  /** How a plan ends: the prompts, then the update results. */
  lemma CopyResultExits(plan: seq<PlanItem>, inputs: CrossSiteInputs)
    ensures var run := CopyResult(plan, inputs);
            && (plan == [] ==> run == RunResult(Exit(0), []))
            && (!inputs.yes && !inputs.confirmAnswer ==> run == RunResult(Exit(0), []))
            && (!inputs.yes && !inputs.undoSaved && !inputs.continueAnswer ==> run == RunResult(Exit(0), []))
            && (plan != [] && inputs.yes ==>
                  run.sent == Payloads(plan) &&
                  (run.outcome == Exit(1) <==> exists i :: 0 <= i < |plan| && !inputs.updateOk(plan[i].payload)))
  {
  }

  /**
   * A copy that goes ahead sends every planned payload and ends with 1
   * exactly when some update failed; declining either prompt ends it with 0
   * before anything is sent, and `--yes` goes ahead even without undo data.
   */
  lemma CopyExits(inputs: CrossSiteInputs)
    requires CopyReady(inputs)
    ensures var plan := ReadyPlan(inputs);
            var run := CrossSiteRun(CopyFields, inputs);
            && (plan == [] ==> run == RunResult(Exit(0), []))
            && (!inputs.yes && !inputs.confirmAnswer ==> run == RunResult(Exit(0), []))
            && (!inputs.yes && !inputs.undoSaved && !inputs.continueAnswer ==> run == RunResult(Exit(0), []))
            && (plan != [] && inputs.yes ==>
                  run.sent == Payloads(plan) &&
                  (run.outcome == Exit(1) <==> exists i :: 0 <= i < |plan| && !inputs.updateOk(plan[i].payload)))
  {
    CopyRunIsPlanResult(inputs);
    CopyResultExits(ReadyPlan(inputs), inputs);
  }

  /** Field names that are lists or dicts make the copy raise before anything is planned. */
  lemma CopyRaisesOnUnhashableField(inputs: CrossSiteInputs)
    requires SetupRun(CopyFields, inputs).Ok?
    requires var s := SetupRun(CopyFields, inputs).value;
             SelectedSource(s, inputs.json).Ok? && SelectedTargets(s, inputs.json).Ok?
             && SelectedTargets(s, inputs.json).value != [] && !AllHashable(s.params.fields)
    ensures CrossSiteRun(CopyFields, inputs) == RunResult(Raised, [])
  {
  }

  /** Only a copy that got as far as a plan sends anything. */
  lemma SentOnlyByCopy(action: CrossAction, inputs: CrossSiteInputs)
    ensures CrossSiteRun(action, inputs).sent != [] ==> action == CopyFields && CopyReady(inputs)
    ensures CrossSiteRun(action, inputs).sent != [] ==>
              CrossSiteRun(action, inputs).sent == Payloads(ReadyPlan(inputs))
  {
    if CrossSiteRun(action, inputs).sent != [] {
      match SetupRun(action, inputs) {
        case Err(_) =>
        case Ok(s) =>
          if action != CompareCounts {
            if SelectedSource(s, inputs.json).Ok? && SelectedTargets(s, inputs.json).Ok? {
              ActionOutcomes(action, s, SelectedSource(s, inputs.json).value, SelectedTargets(s, inputs.json).value, inputs);
            }
          }
      }
      CopyRunIsPlanResult(inputs);
    }
  }

  /** Every planned payload carries its target's `id` and never its `key`. */
  lemma PlannedPayloadsAreSafe(job: CopyJob, targets: seq<Record>)
    ensures forall p :: p in Payloads(UpdatePlan(job, targets)) ==> "id" in p && "key" !in p
  {
    var plan := UpdatePlan(job, targets);
    UpdatePlanItems(job, targets);
    forall p | p in Payloads(plan)
      ensures "id" in p && "key" !in p
    {
      var i :| 0 <= i < |plan| && Payloads(plan)[i] == p;
      assert plan[i] in plan;
      TargetPayloadShape(job, plan[i].original);
    }
  }

  /** Every payload a run sends carries a target's `id` and never its `key`, and only a copy sends any. */
  lemma SentPayloadsAreSafe(action: CrossAction, inputs: CrossSiteInputs)
    ensures CrossSiteRun(action, inputs).sent != [] ==> action == CopyFields && CopyReady(inputs)
    ensures forall p :: p in CrossSiteRun(action, inputs).sent ==> "id" in p && "key" !in p
  {
    SentOnlyByCopy(action, inputs);
    if CrossSiteRun(action, inputs).sent != [] {
      var s := SetupRun(CopyFields, inputs).value;
      PlannedPayloadsAreSafe(JobOf(s, SelectedSource(s, inputs.json).value, inputs.json), SelectedTargets(s, inputs.json).value);
    }
  }
}
