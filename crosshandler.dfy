/**
 * `run_cross_site_operation`: the early-return pipeline that loads the
 * cross-site action configuration, checks it, resolves the two connections,
 * fetches both channel lists, selects the source channel and the targets, and
 * runs one of the three actions. Every file read, fetch, prompt and update
 * result is an input.
 */
module CrossSiteHandler {
  import opened Wrappers
  import opened Values
  import opened Engines
  import opened Vendors
  import opened Sublists
  import opened ConfigUtils
  import opened ChannelToolBase
  import FilteringUtils
  import opened CrossSiteKeys
  import opened CrossSiteActions

  /** The actions the command line lets through; it rejects every other name before this point. */
  datatype CrossAction = CompareCounts | CopyFields | CompareFieldsAction

  function ActionName(action: CrossAction): string
  {
    match action
    case CompareCounts => "compare_channel_counts"
    case CopyFields => "copy_fields"
    case CompareFieldsAction => "compare_fields"
  }

  /** How a run ends: an exit code, or an exception the function does not catch. */
  datatype RunOutcome = Exit(code: int) | Raised

  /** What the run reads from outside: files by name, tool construction, the two fetches, the prompts and the update results. */
  datatype CrossSiteInputs = CrossSiteInputs(
    crossSiteFile: YamlFile,
    connections: string -> YamlFile,
    toolsReady: bool,
    sourceFetch: Option<seq<Record>>,
    targetFetch: Option<seq<Record>>,
    yes: bool,
    confirmAnswer: bool,
    undoSaved: bool,
    continueAnswer: bool,
    updateOk: Record -> bool,
    json: JsonCodec)

  /** The result of a run: how it ends, and the payloads it sent. */
  datatype RunResult = RunResult(outcome: RunOutcome, sent: seq<Record>)

  // ----- Stage 1: the action configuration -----

  /** The cross-site configuration, when it loads as a non-empty dict; every other load ends the run with 1. */
  function CrossSiteConfig(f: YamlFile): (r: Option<Record>)
    ensures r.Some? <==> f.Document? && f.content.VMap? && f.content.fields != map[]
    ensures r.Some? ==> f.content == VMap(r.value)
  {
    match LoadYamlConfig(f)
    case Ok(Some(cfg)) => if Truthy(VMap(cfg)) then Some(cfg) else None
    case _ => None
  }

  /** The vendor an `api_type` names; only the two strings are accepted. */
  function VendorNamed(apiType: Value): (r: Option<Vendor>)
    ensures r == Some(NewApi) <==> apiType == VStr("newapi")
    ensures r == Some(VoApi) <==> apiType == VStr("voapi")
  {
    if apiType == VStr("newapi") then Some(NewApi)
    else if apiType == VStr("voapi") then Some(VoApi)
    else None
  }

  /** The vendor of a connection file: it must load as a dict with a valid `api_type`. */
  function ConnectionVendor(f: YamlFile): Option<Vendor>
  {
    match LoadYamlConfig(f)
    case Ok(Some(conn)) => VendorNamed(Get(conn, "api_type", VNull))
    case _ => None
  }

  /** The fields and copy mode an action needs, once its parameters are checked. */
  datatype ActionParams = ActionParams(fields: seq<Value>, mode: Value)

  /** The parameter checks: copy and compare need a non-empty list of fields; any `copy_mode` passes. */
  function CheckParams(action: CrossAction, params: Value): Result<ActionParams, RunOutcome>
  {
    match action
    case CompareCounts => Ok(ActionParams([], VStr("overwrite")))
    case CopyFields =>
      if !params.VMap? then Err(Raised)
      else
        var fields := Get(params.fields, "fields_to_copy", VNull);
        if !Truthy(fields) || !fields.VList? then Err(Exit(1))
        else Ok(ActionParams(fields.items, Get(params.fields, "copy_mode", VStr("overwrite"))))
    case CompareFieldsAction =>
      if !params.VMap? then Err(Raised)
      else
        var fields := Get(params.fields, "fields_to_compare", VNull);
        if !Truthy(fields) || !fields.VList? then Err(Exit(1))
        else Ok(ActionParams(fields.items, VStr("overwrite")))
  }

  /** Everything the run has once the configuration is checked and both lists are fetched. */
  datatype Setup = Setup(sourceBlock: Record, targetBlock: Record, params: ActionParams, targetVendor: Vendor,
                         sourceAll: seq<Record>, targetAll: seq<Record>)

  /** The source and target configuration blocks, with their connection references checked. */
  function Blocks(cfg: Record): Result<(Record, Record), RunOutcome>
  {
    var src := Get(cfg, "source", VNull);
    var tgt := Get(cfg, "target", VNull);
    if !Truthy(src) || !Truthy(tgt) then Err(Exit(1))
    else if !src.VMap? || !tgt.VMap? then Err(Raised)
    else if !Truthy(Get(src.fields, "connection_config", VNull)) || !Truthy(Get(tgt.fields, "connection_config", VNull)) then Err(Exit(1))
    else Ok((src.fields, tgt.fields))
  }

  /** A connection file, found by the reference's text. */
  function ConnectionFile(block: Record, inputs: CrossSiteInputs): YamlFile
  {
    inputs.connections(PyStr(Get(block, "connection_config", VNull)))
  }

  /** Steps 1 to 5 up to the fetches: an early exit, or what the action works with. */
  function SetupRun(action: CrossAction, inputs: CrossSiteInputs): (r: Result<Setup, RunOutcome>)
    ensures r.Err? ==> r.error == Exit(1) || r.error == Raised
    ensures r.Ok? ==> inputs.toolsReady && inputs.sourceFetch == Some(r.value.sourceAll) && inputs.targetFetch == Some(r.value.targetAll)
    ensures r.Ok? ==> CrossSiteConfig(inputs.crossSiteFile).Some?
  {
    match CrossSiteConfig(inputs.crossSiteFile)
    case None => Err(Exit(1))
    case Some(cfg) =>
      match Blocks(cfg)
      case Err(e) => Err(e)
      case Ok((src, tgt)) =>
        match CheckParams(action, Get(cfg, ActionName(action) + "_params", VMap(map[])))
        case Err(e) => Err(e)
        case Ok(params) =>
          var sv := ConnectionVendor(ConnectionFile(src, inputs));
          var tv := ConnectionVendor(ConnectionFile(tgt, inputs));
          if sv.None? || tv.None? then Err(Exit(1))
          else if !inputs.toolsReady then Err(Exit(1))
          else if inputs.sourceFetch.None? || inputs.targetFetch.None? then Err(Exit(1))
          else Ok(Setup(src, tgt, params, tv.value, inputs.sourceFetch.value, inputs.targetFetch.value))
  }

  // ----- Stage 2: source and target selection -----

  /** `filter_channels` with the block's `channel_filter` (an empty dict when absent). */
  function Matched(all: seq<Record>, block: Record, json: JsonCodec): (r: Outcome<seq<Value>>)
    ensures r.Returns? ==> IsSublist(r.value, AsChannels(all)) && |r.value| <= |all|
    ensures !Truthy(Get(block, "channel_filter", VMap(map[]))) ==> r == Returns(AsChannels(all))
    ensures var cfg := Get(block, "channel_filter", VMap(map[]));
      r.Returns? && Truthy(cfg) && cfg.VMap? && FilteringUtils.ValidMatchMode(Get(cfg.fields, "match_mode", VStr("any"))) ==>
      r.value == Select(AsChannels(all), ReturnsTrue(BaseMatcher(cfg.fields, json)))
  {
    var m := BaseFilterChannels(AsChannels(all), Get(block, "channel_filter", VMap(map[])), json);
    if m.Returns? then SublistLength(m.value, AsChannels(all)); m else m
  }

  /** A value the `:<4` format of the printed source id accepts: None, lists and dicts raise TypeError. */
  predicate FormatsPadded(v: Value)
  {
    !(v.VNull? || v.VList? || v.VMap?)
  }

  /**
   * The source channel: the first match in fetch order, however many there
   * are. A raise while filtering, no match, and an id the `:<4` format of
   * the message naming the source rejects all end the run with 1.
   */
  function SelectedSource(s: Setup, json: JsonCodec): (r: Result<Record, RunOutcome>)
    ensures r.Err? ==> r.error == Exit(1)
    ensures r.Ok? ==> FormatsPadded(Get(r.value, "id", VStr("N/A")))
    ensures r.Ok? ==> Matched(s.sourceAll, s.sourceBlock, json).Returns? && Matched(s.sourceAll, s.sourceBlock, json).value != []
  {
    match Matched(s.sourceAll, s.sourceBlock, json)
    case Raises => Err(Exit(1))
    case Returns(matched) =>
      if matched == [] then Err(Exit(1))
      else
        var first := AsRecords(matched)[0];
        if !FormatsPadded(Get(first, "id", VStr("N/A"))) then Err(Exit(1)) else Ok(first)
  }

  /** The target channels the target filter keeps; a raise while filtering ends the run with 1. */
  function SelectedTargets(s: Setup, json: JsonCodec): (r: Result<seq<Record>, RunOutcome>)
    ensures r.Err? ==> r.error == Exit(1)
    ensures r.Ok? ==> |r.value| <= |s.targetAll|
  {
    match Matched(s.targetAll, s.targetBlock, json)
    case Raises => Err(Exit(1))
    case Returns(matched) => Ok(AsRecords(matched))
  }

  // ----- Stage 3: the actions -----

  /** The field names that are strings; any other hashable name reads as absent everywhere and changes nothing. */
  function StringFields(fields: seq<Value>): (r: seq<string>)
    ensures forall f :: f in r <==> VStr(f) in fields
    decreases |fields|
  {
    if fields == [] then []
    else
      var last := fields[|fields| - 1];
      StringFields(fields[..|fields| - 1]) + (if last.VStr? then [last.s] else [])
  }

  /** The copy job the run hands to `execute_copy_fields`. */
  function JobOf(s: Setup, source: Record, json: JsonCodec): CopyJob
  {
    CopyJob(s.targetVendor, source, StringFields(s.params.fields), s.params.mode, json)
  }

  /** The end of a copy: 0 without changes or without going ahead, otherwise 1 exactly when some update failed. */
  function CopyResult(plan: seq<PlanItem>, inputs: CrossSiteInputs): RunResult
  {
    if plan == [] || !Proceeds(inputs.yes, inputs.confirmAnswer, inputs.undoSaved, inputs.continueAnswer) then
      RunResult(Exit(0), [])
    else
      RunResult(Exit(if exists i :: 0 <= i < |plan| && !inputs.updateOk(plan[i].payload) then 1 else 0), Payloads(plan))
  }

  /** What the chosen action does once the source and targets are known. */
  function ActionResult(action: CrossAction, s: Setup, source: Record, targets: seq<Record>, inputs: CrossSiteInputs): RunResult
    requires action != CompareCounts
  {
    if !AllHashable(s.params.fields) then
      RunResult(if action == CopyFields then Raised else Exit(1), [])
    else if action == CompareFieldsAction then RunResult(Exit(0), [])
    else CopyResult(UpdatePlan(JobOf(s, source, inputs.json), targets), inputs)
  }

  /** The whole run. */
  function CrossSiteRun(action: CrossAction, inputs: CrossSiteInputs): (r: RunResult)
    ensures r.sent != [] ==> action == CopyFields && SetupRun(action, inputs).Ok?
    ensures r.sent != [] ==> Proceeds(inputs.yes, inputs.confirmAnswer, inputs.undoSaved, inputs.continueAnswer)
    ensures r.outcome == Raised ==> r.sent == []
    ensures action == CompareCounts && SetupRun(action, inputs).Ok? ==> r == RunResult(Exit(0), [])
  {
    match SetupRun(action, inputs)
    case Err(e) => RunResult(e, [])
    case Ok(s) =>
      if action == CompareCounts then RunResult(Exit(0), [])
      else
        match SelectedSource(s, inputs.json)
        case Err(e) => RunResult(e, [])
        case Ok(source) =>
          match SelectedTargets(s, inputs.json)
          case Err(e) => RunResult(e, [])
          case Ok(targets) =>
            if targets == [] then RunResult(Exit(0), [])
            else ActionResult(action, s, source, targets, inputs)
  }

  // ----- The pipeline -----

  /** Steps 1 to 5: the checks in the order the code makes them, each failing one ending the run. */
  method PrepareRun(action: CrossAction, inputs: CrossSiteInputs) returns (setup: Result<Setup, RunOutcome>)
    ensures setup == SetupRun(action, inputs)
  {
    var cfg := CrossSiteConfig(inputs.crossSiteFile);
    if cfg.None? {
      return Err(Exit(1));
    }
    var blocks := Blocks(cfg.value);
    if blocks.Err? {
      return Err(blocks.error);
    }
    var (src, tgt) := blocks.value;
    var params := CheckParams(action, Get(cfg.value, ActionName(action) + "_params", VMap(map[])));
    if params.Err? {
      return Err(params.error);
    }
    var sourceVendor := ConnectionVendor(ConnectionFile(src, inputs));
    if sourceVendor.None? {
      return Err(Exit(1));
    }
    var targetVendor := ConnectionVendor(ConnectionFile(tgt, inputs));
    if targetVendor.None? {
      return Err(Exit(1));
    }
    if !inputs.toolsReady {
      return Err(Exit(1));
    }
    if inputs.sourceFetch.None? {
      return Err(Exit(1));
    }
    if inputs.targetFetch.None? {
      return Err(Exit(1));
    }
    setup := Ok(Setup(src, tgt, params.value, targetVendor.value, inputs.sourceFetch.value, inputs.targetFetch.value));
  }

  /** Step 6 for copy and compare: their field checks, then `execute_compare_fields` or `execute_copy_fields`. */
  method RunAction(action: CrossAction, s: Setup, source: Record, targets: seq<Record>, inputs: CrossSiteInputs)
    returns (result: RunResult)
    requires action != CompareCounts
    ensures result == ActionResult(action, s, source, targets, inputs)
  {
    if !AllHashable(s.params.fields) {
      return RunResult(if action == CopyFields then Raised else Exit(1), []);
    }
    if action == CompareFieldsAction {
      var report, different := CompareFields(source, targets, StringFields(s.params.fields), inputs.json);
      return RunResult(Exit(0), []);
    }
    var code, plan, undoRecords, sent := ExecuteCopyFields(JobOf(s, source, inputs.json), targets,
      inputs.yes, inputs.confirmAnswer, inputs.undoSaved, inputs.continueAnswer, inputs.updateOk);
    result := RunResult(Exit(code), sent);
  }

  /**
   * `run_cross_site_operation`: prepares the run, selects the source and the
   * targets, and runs the action, sending updates only for a copy that goes
   * ahead.
   */
  method RunCrossSiteOperation(action: CrossAction, inputs: CrossSiteInputs) returns (result: RunResult)
    ensures result == CrossSiteRun(action, inputs)
  {
    var setup := PrepareRun(action, inputs);
    if setup.Err? {
      return RunResult(setup.error, []);
    }
    var s := setup.value;
    if action == CompareCounts {
      return RunResult(Exit(0), []);
    }
    var source := SelectedSource(s, inputs.json);
    if source.Err? {
      return RunResult(source.error, []);
    }
    var targets := SelectedTargets(s, inputs.json);
    if targets.Err? {
      return RunResult(targets.error, []);
    }
    if targets.value == [] {
      return RunResult(Exit(0), []);
    }
    result := RunAction(action, s, source.value, targets.value, inputs);
  }
}
