/**
 * The single-site flows of channel_manager_lib/single_site_handler.py: the
 * name of the update-configuration backup, the update run (a dry run that
 * plans every change, a confirmation, then the real update with a backup and
 * an undo snapshot first), and the test of the auto-disabled channels that
 * enables those that pass. Files, fetches, prompts, test responses and update
 * results are inputs.
 */
module SingleSiteHandler {
  import opened Wrappers
  import opened PyStrings
  import opened Values
  import opened Engines
  import opened Sublists
  import opened Vendors
  import opened ConfigUtils
  import opened ChannelToolBase
  import opened UpdatePayload
  import opened ConfigLoaders
  import opened Timestamps
  import opened UndoUtils

  // ----- backup_update_config -----

  /** `update_config.{timestamp}.yaml`, the name of a backup taken at `now`. */
  function BackupName(now: Stamp): string
    requires ValidStamp(now)
  {
    "update_config." + FormatStamp(now) + ".yaml"
  }

  /** The '.'-parts of `update_config.<ts>` end with `<ts>` when it holds no '.'. */
  lemma BackupStemParts(ts: string)
    requires '.' !in ts
    ensures var parts := Split("update_config." + ts, '.'); parts[|parts| - 1] == ts
  {
    SplitFree(ts, '.');
    assert "update_config." + ts == "update_config" + ['.'] + ts;
    SplitAppend("update_config", ts, '.');
  }

  /** A backup name is one `get_undo_summary` lists, and it reads back the time it was taken, to the millisecond. */
  lemma BackupNameRoundTrip(now: Stamp)
    requires ValidStamp(now)
    ensures IsBackupName(BackupName(now))
    ensures BackupStampOf(BackupName(now)) == Some(Millis(now))
  {
    var ts := FormatStamp(now);
    var base := "update_config." + ts;
    var name := BackupName(now);
    assert name == base + ".yaml";
    assert name[..14] == "update_config.";
    assert name[|name| - 5..] == ".yaml";
    assert base + ".yaml" == base + "." + "yaml";
    StemOfSuffixed(base, "yaml");
    FormatStampChars(now);
    BackupStemParts(ts);
    FormatThenParse(now);
  }

  /** What the backup sees: whether the update configuration is a file, whether the backup directory could be made and the copy written, and the clock. */
  datatype BackupInputs = BackupInputs(sourceIsFile: bool, dirOk: bool, copyOk: bool, now: Stamp)

  /** `backup_update_config()`: the name of the copy it wrote, or None where it returns False. */
  function BackupUpdateConfig(b: BackupInputs): (r: Option<string>)
    requires ValidStamp(b.now)
    ensures r.Some? <==> b.sourceIsFile && b.dirOk && b.copyOk
    ensures r.Some? ==> IsBackupName(r.value) && BackupStampOf(r.value) == Some(Millis(b.now))
  {
    if !b.sourceIsFile || !b.dirOk || !b.copyOk then None
    else
      BackupNameRoundTrip(b.now);
      Some(BackupName(b.now))
  }

  // ----- The tool -----

  /** The tool `_get_tool_instance` builds: its vendor and its validated update configuration. */
  datatype Tool = Tool(vendor: Vendor, updateConfig: Record)

  /** The vendor an `api_type` string names. */
  function VendorOf(apiType: string): (r: Option<Vendor>)
    ensures r == Some(NewApi) <==> apiType == "newapi"
    ensures r == Some(VoApi) <==> apiType == "voapi"
  {
    if apiType == "newapi" then Some(NewApi) else if apiType == "voapi" then Some(VoApi) else None
  }

  /**
   * `_get_tool_instance(api_type, connection, UPDATE_CONFIG_PATH)`: None for an
   * unknown API type, a connection file that does not load, or an update
   * configuration the constructor's `_load_update_config` rejects.
   */
  function ToolFor(apiType: string, connectionOk: bool, updateFile: YamlFile): (r: Option<Tool>)
    ensures r.Some? <==> VendorOf(apiType).Some? && connectionOk && LoadUpdateConfig(updateFile).Ok?
    ensures r.Some? ==> WellFormedUpdates(Some(r.value.updateConfig))
    ensures r.Some? ==> updateFile == Document(VMap(r.value.updateConfig))
  {
    var vendor := VendorOf(apiType);
    if vendor.None? || !connectionOk then None
    else
      match LoadUpdateConfig(updateFile)
      case Ok(c) =>
        AcceptedConfigIsUsable(updateFile);
        Some(Tool(vendor.value, c))
      case Err(_) => None
  }

  // ----- run_single_site_operation -----

  /** How a run ends: an exit code, or an exception it does not catch. */
  datatype SiteOutcome = SiteExit(code: int) | SiteRaised

  /**
   * The result of an update run: how it ends, the payloads it sent, the
   * backup it wrote, what the undo save produced (NotSaved when it did not
   * run), and whether it went on to offer the configuration clean-up.
   */
  datatype SiteRun = SiteRun(outcome: SiteOutcome, sent: seq<Record>, backup: Option<string>, undo: SaveOutcome, cleanup: bool)

  function Stopped(outcome: SiteOutcome): SiteRun
  {
    SiteRun(outcome, [], None, NotSaved, false)
  }

  /**
   * What an update run reads from outside: the API type, whether the
   * connection file loads, the update configuration file, the channel fetch
   * (None when it failed or raised), the `--yes` flag and the two prompts,
   * what the backup and the undo save see, the result of each update call
   * (True for a `(True, _)` tuple), and the JSON and regex engines.
   */
  datatype SingleSiteInputs = SingleSiteInputs(
    apiType: string,
    connectionOk: bool,
    updateFile: YamlFile,
    fetch: Option<seq<Record>>,
    yes: bool,
    confirmAnswer: bool,
    backup: BackupInputs,
    continueAnswer: bool,
    undoSave: SaveInputs,
    updateOk: Record -> bool,
    json: JsonCodec,
    regex: RegexSub)

  /** The two clocks give `datetime` values. */
  predicate ValidClocks(inputs: SingleSiteInputs)
  {
    ValidStamp(inputs.backup.now) && ValidStamp(inputs.undoSave.now)
  }

  /**
   * The handler's own `yaml.safe_load` of the update configuration and its
   * `filters`: a missing file, bad YAML and an empty document end the run with
   * 1; a read error the handler does not catch, or a non-dict document whose
   * `.get` raises, ends it with an exception.
   */
  function HandlerFilters(f: YamlFile): (r: Result<Value, SiteOutcome>)
    ensures r == Err(SiteExit(1)) <==> f.NoFile? || f.BadYaml? || (f.Document? && !Truthy(f.content))
    ensures r.Ok? <==> f.Document? && f.content.VMap? && f.content.fields != map[]
    ensures r.Ok? ==> r.value == Get(f.content.fields, "filters", VNull)
  {
    match f
    case NoFile => Err(SiteExit(1))
    case BadYaml => Err(SiteExit(1))
    case Unreadable => Err(SiteRaised)
    case Document(v) =>
      if !Truthy(v) then Err(SiteExit(1))
      else if !v.VMap? then Err(SiteRaised)
      else Ok(Get(v.fields, "filters", VNull))
  }

  /** A run that got past fetching and filtering, or the outcome it stopped with. */
  datatype Prelude = Stop(outcome: SiteOutcome) | Ready(tool: Tool, filtered: seq<Record>)

  /** Steps 0 and 1: the tool, the configuration, the fetch and `filter_channels` with the configuration's `filters`. */
  function SitePrelude(inputs: SingleSiteInputs): (r: Prelude)
    ensures r.Ready? ==> WellFormedUpdates(Some(r.tool.updateConfig)) && r.filtered != []
  {
    match ToolFor(inputs.apiType, inputs.connectionOk, inputs.updateFile)
    case None => Stop(SiteExit(1))
    case Some(tool) =>
      match HandlerFilters(inputs.updateFile)
      case Err(outcome) => Stop(outcome)
      case Ok(filters) =>
        if inputs.fetch.None? then Stop(SiteExit(1))
        else if inputs.fetch.value == [] then Stop(SiteExit(0))
        else
          match BaseFilterChannels(AsChannels(inputs.fetch.value), filters, inputs.json)
          case Raises => Stop(SiteExit(1))
          case Returns(filtered) =>
            if filtered == [] then Stop(SiteExit(0))
            else Ready(tool, AsRecords(filtered))
  }

  /** The payload planned for one channel: `_prepare_update_payload`'s, when both it and the changed fields are non-empty. */
  function PlanFor(tool: Tool, channel: Record, json: JsonCodec, regex: RegexSub): Option<Record>
    requires WellFormedUpdates(Some(tool.updateConfig))
  {
    var planned := PlannedUpdate(Some(tool.updateConfig), channel, tool.vendor, json, regex);
    if planned.0.Some? && planned.0.value != map[] && planned.1 != {} then planned.0 else None
  }

  /** `payloads_to_update`: the planned payloads of the channels, in channel order. */
  function Plan(tool: Tool, channels: seq<Record>, json: JsonCodec, regex: RegexSub): (r: seq<Record>)
    requires WellFormedUpdates(Some(tool.updateConfig))
    ensures |r| <= |channels|
    ensures forall p :: p in r <==> exists c :: c in channels && PlanFor(tool, c, json, regex) == Some(p)
  {
    if channels == [] then []
    else
      var init, last := channels[..|channels| - 1], channels[|channels| - 1];
      assert forall c :: c in channels <==> c in init || c == last;
      var planned := PlanFor(tool, last, json, regex);
      Plan(tool, init, json, regex) + (if planned.Some? then [planned.value] else [])
  }

  /**
   * Steps 3 and 4: the confirmation, the backup (a failed one needs a second
   * 'y' without `--yes`), the undo save, the updates and their tally; the
   * exit code is 1 iff some update failed, and only 0 goes on to the clean-up.
   */
  function ApplyPlan(plan: seq<Record>, inputs: SingleSiteInputs): (r: SiteRun)
    requires ValidClocks(inputs)
    ensures r.sent != [] ==> r.sent == plan && (inputs.yes || inputs.confirmAnswer)
    ensures r.outcome == SiteRaised ==> r.undo == SaveRaised && r.sent == []
    ensures r.outcome == SiteExit(1) <==> r.sent == plan && CountOk(plan, inputs.updateOk) < |plan|
    ensures r.cleanup ==> r.outcome == SiteExit(0) && r.sent == plan
  {
    if !inputs.yes && !inputs.confirmAnswer then Stopped(SiteExit(0))
    else
      var backup := BackupUpdateConfig(inputs.backup);
      if backup.None? && !inputs.yes && !inputs.continueAnswer then Stopped(SiteExit(0))
      else
        var undo := SaveUndo(inputs.undoSave);
        if undo.SaveRaised? then SiteRun(SiteRaised, [], backup, undo, false)
        else
          var failures := |plan| - CountOk(plan, inputs.updateOk);
          var code := if failures > 0 then 1 else 0;
          SiteRun(SiteExit(code), plan, backup, undo, code == 0)
  }

  /** `run_single_site_operation(args, ...)`. */
  function SingleSiteRun(inputs: SingleSiteInputs): (r: SiteRun)
    requires ValidClocks(inputs)
    ensures r.sent != [] ==> SitePrelude(inputs).Ready? && (inputs.yes || inputs.confirmAnswer)
    ensures r.sent != [] ==> r.sent == Plan(SitePrelude(inputs).tool, SitePrelude(inputs).filtered, inputs.json, inputs.regex)
    ensures SitePrelude(inputs).Stop? ==> r == Stopped(SitePrelude(inputs).outcome)
    ensures r.undo != NotSaved ==> SitePrelude(inputs).Ready?
  {
    match SitePrelude(inputs)
    case Stop(outcome) => Stopped(outcome)
    case Ready(tool, filtered) =>
      var plan := Plan(tool, filtered, inputs.json, inputs.regex);
      if plan == [] then Stopped(SiteExit(0)) else ApplyPlan(plan, inputs)
  }

  /** One pass of the dry-run loop: the payload of `channels[i]` joins the plan when it has changes. */
  method PlanOne(tool: Tool, channels: seq<Record>, json: JsonCodec, regex: RegexSub, i: int, payloads: seq<Record>)
    returns (next: seq<Record>)
    requires WellFormedUpdates(Some(tool.updateConfig))
    requires 0 <= i < |channels| && payloads == Plan(tool, channels[..i], json, regex)
    ensures next == Plan(tool, channels[..i + 1], json, regex)
  {
    assert channels[..i + 1][..i] == channels[..i];
    var payload, changed := PrepareUpdatePayload(Some(tool.updateConfig), channels[i], tool.vendor, json, regex);
    var extra: seq<Record> := if payload.Some? && payload.value != map[] && changed != {} then [payload.value] else [];
    assert Plan(tool, channels[..i + 1], json, regex) == payloads + extra;
    next := payloads + extra;
  }

  /** The dry-run loop over the filtered channels. */
  method PlanUpdates(tool: Tool, channels: seq<Record>, json: JsonCodec, regex: RegexSub) returns (payloads: seq<Record>)
    requires WellFormedUpdates(Some(tool.updateConfig))
    ensures payloads == Plan(tool, channels, json, regex)
  {
    payloads := [];
    var i := 0;
    while i < |channels|
      invariant 0 <= i <= |channels|
      invariant payloads == Plan(tool, channels[..i], json, regex)
    {
      payloads := PlanOne(tool, channels, json, regex, i, payloads);
      i := i + 1;
    }
    assert channels[..i] == channels;
  }

  method RunSingleSiteOperation(inputs: SingleSiteInputs) returns (run: SiteRun)
    requires ValidClocks(inputs)
    ensures run == SingleSiteRun(inputs)
  {
    var prelude := SitePrelude(inputs);
    if prelude.Stop? {
      return Stopped(prelude.outcome);
    }
    var tool, filtered := prelude.tool, prelude.filtered;
    var plan := PlanUpdates(tool, filtered, inputs.json, inputs.regex);
    if plan == [] {
      return Stopped(SiteExit(0));
    }
    run := ApplyUpdates(plan, inputs);
  }

  /** Steps 3 and 4 of the run, on a non-empty plan. */
  method ApplyUpdates(plan: seq<Record>, inputs: SingleSiteInputs) returns (run: SiteRun)
    requires ValidClocks(inputs)
    ensures run == ApplyPlan(plan, inputs)
  {
    if !inputs.yes && !inputs.confirmAnswer {
      return Stopped(SiteExit(0));
    }
    var backup := BackupUpdateConfig(inputs.backup);
    if backup.None? && !inputs.yes && !inputs.continueAnswer {
      return Stopped(SiteExit(0));
    }
    var undo := SaveUndoData(inputs.undoSave);
    if undo.SaveRaised? {
      return SiteRun(SiteRaised, [], backup, undo, false);
    }
    var successes, failures := TallyRestores(plan, inputs.updateOk);
    var code := if failures > 0 then 1 else 0;
    run := SiteRun(SiteExit(code), plan, backup, undo, code == 0);
  }

  // ----- _test_single_channel -----

  /**
   * The test model: `test_model` when truthy; otherwise the first non-blank
   * stripped comma item of a truthy `models` string, 'config' when there is
   * none or no `models`, and 'exception' for a truthy `models` that is not a
   * string, whose `.split` raises outside the function's handler.
   */
  function TestModel(channel: Record): (r: Result<Value, FailureType>)
    ensures r.Ok? ==> Truthy(r.value)
    ensures r.Err? ==> r.error == ConfigError || r.error == Exception
    ensures Truthy(Get(channel, "test_model", VNull)) ==> r == Ok(Get(channel, "test_model", VNull))
    ensures !Truthy(Get(channel, "test_model", VNull)) && !Truthy(Get(channel, "models", VNull)) ==> r == Err(ConfigError)
    ensures !Truthy(Get(channel, "test_model", VNull)) && Get(channel, "models", VNull).VStr? ==>
      var names := StrippedNonBlank(Split(Get(channel, "models", VNull).s, ','));
      r == (if names == [] then Err(ConfigError) else Ok(VStr(names[0])))
  {
    var testModel := Get(channel, "test_model", VNull);
    if Truthy(testModel) then Ok(testModel)
    else
      var models := Get(channel, "models", VNull);
      if !Truthy(models) then Err(ConfigError)
      else if !models.VStr? then Err(Exception)
      else
        var names := StrippedNonBlank(Split(models.s, ','));
        StrippedNonBlankNonBlank(Split(models.s, ','));
        if names == [] then Err(ConfigError) else Ok(VStr(names[0]))
  }

  /** Every element `StrippedNonBlank` keeps is non-empty. */
  lemma {:induction false} StrippedNonBlankNonBlank(xs: seq<string>)
    ensures forall k :: 0 <= k < |StrippedNonBlank(xs)| ==> StrippedNonBlank(xs)[k] != ""
    decreases |xs|
  {
    if xs != [] {
      StrippedNonBlankNonBlank(xs[1..]);
    }
  }

  /**
   * The classification of the test request: a timeout, a client error or
   * another exception; on 200 a JSON object whose `success` is `True` passes,
   * any other `success` fails with 'quota' when the lower-cased `message`
   * mentions "quota" and 'api_error' otherwise (also for the default text of
   * a missing `message`, which mentions no quota); on any other status the
   * status code decides, after the same read of `message` as voapi's.
   */
  function ResponseOutcome(outcome: HttpOutcome, json: JsonCodec): (r: TestOutcome)
    ensures r == Failed(Timeout) <==> outcome.TimedOut?
    ensures r == Failed(Network) <==> outcome.ClientError?
    ensures r == Failed(ResponseFormat) <==> outcome.Response? && outcome.status == 200 && json.loads(outcome.body).None?
    ensures r == Passed ==> outcome.Response? && outcome.status == 200
  {
    match outcome
    case TimedOut => Failed(Timeout)
    case ClientError => Failed(Network)
    case OtherError => Failed(Exception)
    case Response(status, body) =>
      if status == 200 then
        match json.loads(body)
        case None => Failed(ResponseFormat)
        case Some(VMap(m)) =>
          if Get(m, "success", VNull) == VBool(true) then Passed
          else if "message" !in m then Failed(ApiError)
          else
            (match m["message"]
             case VStr(msg) => if Contains(Lower(msg), "quota") then Failed(Quota) else Failed(ApiError)
             case _ => Failed(Exception))
        case Some(_) => Failed(Exception)
      else
        var failure :=
          if status == 401 then Auth
          else if status == 429 then Quota
          else if 400 <= status < 500 then ApiError
          else if status >= 500 then ServerError
          else UnknownHttp;
        match json.loads(body)
        case Some(VInt(_)) => Failed(Exception)
        case Some(VBool(_)) => Failed(Exception)
        case Some(VNull) => Failed(Exception)
        case Some(VStr(text)) => if Contains(text, "message") then Failed(Exception) else Failed(failure)
        case Some(VList(items)) => if InList(VStr("message"), items) then Failed(Exception) else Failed(failure)
        case _ => Failed(failure)
  }

  /** `_test_single_channel(session, tool, channel, script_config)`: no request without a test model. */
  function TestSingleChannel(channel: Record, outcome: HttpOutcome, json: JsonCodec): (r: TestOutcome)
    ensures TestModel(channel).Err? ==> r == Failed(TestModel(channel).error)
    ensures TestModel(channel).Ok? ==> r == ResponseOutcome(outcome, json)
  {
    match TestModel(channel)
    case Err(kind) => Failed(kind)
    case Ok(_) => ResponseOutcome(outcome, json)
  }

  // ----- run_test_and_enable_disabled -----

  /** `ch.get('status') == 3`: the channels the server disabled automatically. */
  predicate AutoDisabled(channel: Record)
  {
    PyEq(Get(channel, "status", VNull), VInt(3))
  }

  /** `{'id': channel_id, 'status': 1}`. */
  function EnablePayload(channel: Record): (r: Record)
    ensures r.Keys == {"id", "status"} && r["status"] == VInt(1) && r["id"] == Get(channel, "id", VNull)
  {
    map["id" := Get(channel, "id", VNull), "status" := VInt(1)]
  }

  /** The counters and lists the result loop builds: tested, passed and failed counts, the enable payloads and the failure types. */
  datatype TestTally = TestTally(tested: nat, passed: nat, failed: nat, enable: seq<Record>, failures: seq<FailureType>)

  /** The result loop over the tested channels and their verdicts. */
  function Tally(channels: seq<Record>, verdict: Record -> TestOutcome): (r: TestTally)
    ensures r.tested == |channels| && r.passed + r.failed == r.tested
    ensures |r.enable| == r.passed && |r.failures| == r.failed
  {
    if channels == [] then TestTally(0, 0, 0, [], [])
    else
      var init, last := channels[..|channels| - 1], channels[|channels| - 1];
      assert forall c :: c in channels <==> c in init || c == last;
      var t := Tally(init, verdict);
      match verdict(last)
      case Passed => TestTally(t.tested + 1, t.passed + 1, t.failed, t.enable + [EnablePayload(last)], t.failures)
      case Failed(kind) => TestTally(t.tested + 1, t.passed, t.failed + 1, t.enable, t.failures + [kind])
  }

  /** The enable payloads are those of the channels that passed, and the failure types those of the channels that failed. */
  lemma {:induction false} TallyMembers(channels: seq<Record>, verdict: Record -> TestOutcome)
    ensures forall p :: p in Tally(channels, verdict).enable <==>
      exists c :: c in channels && verdict(c) == Passed && p == EnablePayload(c)
    ensures forall k :: k in Tally(channels, verdict).failures <==> exists c :: c in channels && verdict(c) == Failed(k)
    decreases |channels|
  {
    if channels != [] {
      var init, last := channels[..|channels| - 1], channels[|channels| - 1];
      assert forall c :: c in channels <==> c in init || c == last;
      TallyMembers(init, verdict);
    }
  }

  /** The enable step runs without a prompt under `--yes`, with no failed test, or when every failure is a quota failure. */
  predicate EnableWithoutPrompt(yes: bool, t: TestTally)
  {
    yes || t.failed == 0 || forall k :: 0 <= k < |t.failures| ==> t.failures[k] == Quota
  }

  /** How `get_all_channels()` is called: awaited, or called without `await`, which hands back a coroutine. */
  datatype ListingCall = Awaited | NotAwaited

  /**
   * What the test run reads from outside: the API type, whether the
   * connection file loads, the channel fetch (None when it failed or raised),
   * the response to each channel's test request, the `--yes` flag and the
   * prompt, the result of each enable call, and the JSON engine.
   */
  datatype TestInputs = TestInputs(
    apiType: string,
    connectionOk: bool,
    fetch: Option<seq<Record>>,
    probe: Record -> HttpOutcome,
    yes: bool,
    confirmAnswer: bool,
    enableOk: Record -> bool,
    json: JsonCodec)

  /** The result of a test run: how it ends, the tally when the tests ran, and the enable payloads it sent. */
  datatype TestRun = TestRun(outcome: SiteOutcome, tally: Option<TestTally>, sent: seq<Record>)

  /** The verdict of `_test_single_channel` on each channel, given the response to its request. */
  function Verdicts(probe: Record -> HttpOutcome, json: JsonCodec): Record -> TestOutcome
  {
    c => TestSingleChannel(c, probe(c), json)
  }

  /**
   * `run_test_and_enable_disabled(args, ...)` with the listing called as
   * `call` says. A coroutine cannot be unpacked into `(channel_list, msg)`:
   * the TypeError reaches the generic handler, which returns 1.
   */
  function TestAndEnable(inputs: TestInputs, call: ListingCall): TestRun
  {
    if VendorOf(inputs.apiType).None? || !inputs.connectionOk then TestRun(SiteExit(1), None, [])
    else if call.NotAwaited? then TestRun(SiteExit(1), None, [])
    else if inputs.fetch.None? then TestRun(SiteExit(1), None, [])
    else if inputs.fetch.value == [] then TestRun(SiteExit(0), None, [])
    else
      var disabled := Select(inputs.fetch.value, AutoDisabled);
      if disabled == [] then TestRun(SiteExit(0), None, [])
      else
        var t := Tally(disabled, Verdicts(inputs.probe, inputs.json));
        if t.enable == [] then TestRun(SiteExit(0), Some(t), [])
        else if !EnableWithoutPrompt(inputs.yes, t) && !inputs.confirmAnswer then TestRun(SiteExit(0), Some(t), [])
        else
          var failures := |t.enable| - CountOk(t.enable, inputs.enableOk);
          TestRun(SiteExit(if failures > 0 then 1 else 0), Some(t), t.enable)
  }

  /** The run as the source writes it: the listing is not awaited. */
  function TestAndEnableAsWritten(inputs: TestInputs): (r: TestRun)
    ensures r == TestRun(SiteExit(1), None, [])
  {
    TestAndEnable(inputs, NotAwaited)
  }

  /** The run as intended: the listing awaited, as the update run does. */
  function TestAndEnableDisabled(inputs: TestInputs): TestRun
  {
    TestAndEnable(inputs, Awaited)
  }

  /** One pass of the result loop. */
  method TallyOneTest(channels: seq<Record>, verdict: Record -> TestOutcome, i: int, t: TestTally) returns (next: TestTally)
    requires 0 <= i < |channels| && t == Tally(channels[..i], verdict)
    ensures next == Tally(channels[..i + 1], verdict)
  {
    assert channels[..i + 1][..i] == channels[..i];
    var c := channels[i];
    var result := verdict(c);
    if result.Passed? {
      next := TestTally(t.tested + 1, t.passed + 1, t.failed, t.enable + [EnablePayload(c)], t.failures);
    } else {
      next := TestTally(t.tested + 1, t.passed, t.failed + 1, t.enable, t.failures + [result.kind]);
    }
  }

  /** The result loop: counts every verdict and builds the enable payloads and the failure list. */
  method TallyTests(channels: seq<Record>, verdict: Record -> TestOutcome) returns (t: TestTally)
    ensures t == Tally(channels, verdict)
  {
    t := TestTally(0, 0, 0, [], []);
    var i := 0;
    while i < |channels|
      invariant 0 <= i <= |channels|
      invariant t == Tally(channels[..i], verdict)
    {
      t := TallyOneTest(channels, verdict, i, t);
      i := i + 1;
    }
    assert channels[..i] == channels;
  }

  /** `any(f.get('failure_type') != 'quota' for f in failed_channels_details)`. */
  method HasNonQuotaFailure(failures: seq<FailureType>) returns (found: bool)
    ensures found <==> exists k :: 0 <= k < |failures| && failures[k] != Quota
  {
    found := false;
    var i := 0;
    while i < |failures| && !found
      invariant 0 <= i <= |failures|
      invariant found <==> exists k :: 0 <= k < i && failures[k] != Quota
    {
      found := failures[i] != Quota;
      i := i + 1;
    }
  }

  method RunTestAndEnableDisabled(inputs: TestInputs) returns (run: TestRun)
    ensures run == TestAndEnableDisabled(inputs)
  {
    if VendorOf(inputs.apiType).None? || !inputs.connectionOk {
      return TestRun(SiteExit(1), None, []);
    }
    if inputs.fetch.None? {
      return TestRun(SiteExit(1), None, []);
    }
    var channels := inputs.fetch.value;
    if channels == [] {
      return TestRun(SiteExit(0), None, []);
    }
    var disabled := Select(channels, AutoDisabled);
    if disabled == [] {
      return TestRun(SiteExit(0), None, []);
    }
    var t := TallyTests(disabled, Verdicts(inputs.probe, inputs.json));
    if t.enable == [] {
      return TestRun(SiteExit(0), Some(t), []);
    }
    var nonQuota := HasNonQuotaFailure(t.failures);
    var execute := inputs.yes || t.failed == 0 || !nonQuota;
    if !execute && !inputs.confirmAnswer {
      return TestRun(SiteExit(0), Some(t), []);
    }
    var successes, failures := TallyRestores(t.enable, inputs.enableOk);
    run := TestRun(SiteExit(if failures > 0 then 1 else 0), Some(t), t.enable);
  }
}
