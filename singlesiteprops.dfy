/**
 * Properties of the single-site flows: where an update run stops and with
 * which code, what it sends and what the prompts decide; which channels the
 * test run tests, what it enables and when it asks first.
 */
module SingleSiteProps {
  import opened Wrappers
  import opened PyStrings
  import opened Values
  import opened Engines
  import opened Sublists
  import opened Vendors
  import opened ConfigUtils
  import opened ChannelToolBase
  import opened PatchProperties
  import opened Timestamps
  import opened UndoUtils
  import opened UndoProps
  import opened SingleSiteHandler

  // ----- The backup -----

  /**
   * An undo summary taken no earlier than a backup finds a backup, and never
   * one older than it: the name the backup writes is one the summary lists
   * and dates.
   */
  lemma BackupFoundBySummary(now: Stamp, names: seq<string>, undoTs: Stamp)
    requires ValidStamp(now)
    requires BackupName(now) in names && StampLeq(Millis(now), undoTs)
    ensures ChosenBackup(names, BackupStampOf, undoTs).Some?
    ensures var b := ChosenBackup(names, BackupStampOf, undoTs).value;
      b in names && BackupStampOf(b).Some? && StampLeq(Millis(now), BackupStampOf(b).value)
  {
    BackupNameRoundTrip(now);
    ChosenBackupIsNearest(names, BackupStampOf, undoTs);
  }

  // ----- The update run: where it stops -----

  /**
   * Without a tool the run ends with 1. Once the tool accepted the update
   * configuration, the handler's own load of the same file fails only on an
   * empty configuration, which also ends the run with 1.
   */
  lemma ToolAndConfigStage(inputs: SingleSiteInputs)
    requires ValidClocks(inputs)
    ensures ToolFor(inputs.apiType, inputs.connectionOk, inputs.updateFile).None? ==>
      SingleSiteRun(inputs) == Stopped(SiteExit(1))
    ensures ToolFor(inputs.apiType, inputs.connectionOk, inputs.updateFile).Some? ==>
      var tool := ToolFor(inputs.apiType, inputs.connectionOk, inputs.updateFile).value;
      && (HandlerFilters(inputs.updateFile).Ok? <==> tool.updateConfig != map[])
      && (tool.updateConfig == map[] ==> SingleSiteRun(inputs) == Stopped(SiteExit(1)))
  {
  }

  /**
   * An empty channel list, a filter that keeps nothing and a dry run without
   * changes each end the run with 0; a filter that raises ends it with 1.
   */
  lemma NothingToDoExitsZero(inputs: SingleSiteInputs)
    requires ValidClocks(inputs)
    requires ToolFor(inputs.apiType, inputs.connectionOk, inputs.updateFile).Some?
    requires HandlerFilters(inputs.updateFile).Ok?
    ensures inputs.fetch == Some([]) ==> SingleSiteRun(inputs) == Stopped(SiteExit(0))
    ensures (inputs.fetch.Some? &&
             BaseFilterChannels(AsChannels(inputs.fetch.value), HandlerFilters(inputs.updateFile).value, inputs.json) == Returns([])) ==>
      SingleSiteRun(inputs) == Stopped(SiteExit(0))
    ensures (inputs.fetch.Some? && inputs.fetch.value != [] &&
             BaseFilterChannels(AsChannels(inputs.fetch.value), HandlerFilters(inputs.updateFile).value, inputs.json) == Raises) ==>
      SingleSiteRun(inputs) == Stopped(SiteExit(1))
    ensures (SitePrelude(inputs).Ready? &&
             Plan(SitePrelude(inputs).tool, SitePrelude(inputs).filtered, inputs.json, inputs.regex) == []) ==>
      SingleSiteRun(inputs) == Stopped(SiteExit(0))
  {
  }

  // ----- The dry run -----

  /** The plan is built channel by channel: what one channel contributes does not depend on the others. */
  lemma {:induction false} PlanAppend(tool: Tool, a: seq<Record>, b: seq<Record>, json: JsonCodec, regex: RegexSub)
    requires WellFormedUpdates(Some(tool.updateConfig))
    ensures Plan(tool, a + b, json, regex) == Plan(tool, a, json, regex) + Plan(tool, b, json, regex)
    decreases |b|
  {
    if b == [] {
      assert a + b == a;
    } else {
      var init := b[..|b| - 1];
      assert (a + b)[..|a + b| - 1] == a + init;
      assert (a + b)[|a + b| - 1] == b[|b| - 1];
      PlanAppend(tool, a, init, json, regex);
    }
  }

  /**
   * Every planned payload is the `_prepare_update_payload` result of a
   * channel with a truthy id: the id plus exactly its changed fields, of which
   * there is at least one.
   */
  lemma PlannedPayloadShape(tool: Tool, channels: seq<Record>, json: JsonCodec, regex: RegexSub, p: Record)
    requires WellFormedUpdates(Some(tool.updateConfig))
    requires p in Plan(tool, channels, json, regex)
    ensures exists c :: (c in channels && Truthy(Get(c, "id", VNull)) &&
      var planned := PlannedUpdate(Some(tool.updateConfig), c, tool.vendor, json, regex);
      planned.0 == Some(p) && planned.1 != {} && p.Keys == {"id"} + planned.1)
  {
    var c :| c in channels && PlanFor(tool, c, json, regex) == Some(p);
    PlannedUpdateShape(Some(tool.updateConfig), c, tool.vendor, json, regex);
  }

  /** A channel with a planned change is in the plan. */
  lemma ChangedChannelPlanned(tool: Tool, channels: seq<Record>, json: JsonCodec, regex: RegexSub, c: Record)
    requires WellFormedUpdates(Some(tool.updateConfig))
    requires c in channels && PlannedUpdate(Some(tool.updateConfig), c, tool.vendor, json, regex).0.Some?
    ensures PlannedUpdate(Some(tool.updateConfig), c, tool.vendor, json, regex).0.value in Plan(tool, channels, json, regex)
  {
    PlannedUpdateShape(Some(tool.updateConfig), c, tool.vendor, json, regex);
    var planned := PlannedUpdate(Some(tool.updateConfig), c, tool.vendor, json, regex);
    assert "id" in planned.0.value;
  }

  /** The filtered records are fetched records, and they are the filtered channels one for one, copies included. */
  lemma FilteredAreFetched(records: seq<Record>, config: Value, json: JsonCodec)
    requires BaseFilterChannels(AsChannels(records), config, json).Returns?
    ensures forall t :: t in AsRecords(BaseFilterChannels(AsChannels(records), config, json).value) ==> t in records
    ensures var matched := BaseFilterChannels(AsChannels(records), config, json).value;
      AsChannels(AsRecords(matched)) == matched
  {
    var matched := BaseFilterChannels(AsChannels(records), config, json).value;
    SublistMembers(matched, AsChannels(records));
    forall c | c in matched
      ensures c.VMap?
    {
      var j :| 0 <= j < |records| && AsChannels(records)[j] == c;
    }
    AsChannelsOfRecords(matched);
    forall t | t in AsRecords(matched)
      ensures t in records
    {
      var i :| 0 <= i < |matched| && AsRecords(matched)[i] == t;
      assert matched[i] in AsChannels(records);
      var j :| 0 <= j < |records| && AsChannels(records)[j] == matched[i];
    }
  }

  // ----- The update run: prompts and sending -----

  /** Declining the update sends nothing, writes no backup and saves no undo data; after a dry run with changes it ends with 0. */
  lemma DeclineSendsNothing(inputs: SingleSiteInputs)
    requires ValidClocks(inputs)
    requires !inputs.yes && !inputs.confirmAnswer
    ensures var run := SingleSiteRun(inputs);
      run.sent == [] && run.backup.None? && run.undo == NotSaved && !run.cleanup
    ensures (SitePrelude(inputs).Ready? &&
             Plan(SitePrelude(inputs).tool, SitePrelude(inputs).filtered, inputs.json, inputs.regex) != []) ==>
      SingleSiteRun(inputs).outcome == SiteExit(0)
  {
  }

  /** A failed backup ends the run with 0 unless `--yes` is set or the second prompt is answered 'y'; otherwise the run goes on to the undo save. */
  lemma BackupFailureNeedsConsent(plan: seq<Record>, inputs: SingleSiteInputs)
    requires ValidClocks(inputs) && (inputs.yes || inputs.confirmAnswer)
    requires !(inputs.backup.sourceIsFile && inputs.backup.dirOk && inputs.backup.copyOk)
    ensures !inputs.yes && !inputs.continueAnswer ==> ApplyPlan(plan, inputs) == Stopped(SiteExit(0))
    ensures inputs.yes || inputs.continueAnswer ==>
      ApplyPlan(plan, inputs).undo == SaveUndo(inputs.undoSave) && ApplyPlan(plan, inputs).backup.None?
  {
  }

  /** The sending step sends the plan, and only after the confirmation, a backup or its waiver, and an undo save that did not raise. */
  lemma ApplyPlanSends(plan: seq<Record>, inputs: SingleSiteInputs)
    requires ValidClocks(inputs)
    requires ApplyPlan(plan, inputs).sent != []
    ensures ApplyPlan(plan, inputs).sent == plan
    ensures inputs.yes || inputs.confirmAnswer
    ensures ApplyPlan(plan, inputs).backup.Some? || inputs.yes || inputs.continueAnswer
    ensures ApplyPlan(plan, inputs).undo == SaveUndo(inputs.undoSave) && !ApplyPlan(plan, inputs).undo.SaveRaised?
  {
  }

  /**
   * A run sends only after the confirmation (or `--yes`), a backup or its
   * waiver, and an undo save that did not raise, and it sends exactly the
   * dry-run plan; every payload is the planned change of a fetched channel.
   */
  lemma SentIsThePlan(inputs: SingleSiteInputs)
    requires ValidClocks(inputs)
    requires SingleSiteRun(inputs).sent != []
    ensures SitePrelude(inputs).Ready?
    ensures SingleSiteRun(inputs).sent ==
      Plan(SitePrelude(inputs).tool, SitePrelude(inputs).filtered, inputs.json, inputs.regex)
    ensures inputs.yes || inputs.confirmAnswer
    ensures SingleSiteRun(inputs).backup.Some? || inputs.yes || inputs.continueAnswer
    ensures SingleSiteRun(inputs).undo == SaveUndo(inputs.undoSave) && !SingleSiteRun(inputs).undo.SaveRaised?
    ensures inputs.fetch.Some? && forall p :: p in SingleSiteRun(inputs).sent ==>
      exists c :: c in inputs.fetch.value &&
        PlanFor(SitePrelude(inputs).tool, c, inputs.json, inputs.regex) == Some(p)
  {
    var prelude := SitePrelude(inputs);
    var plan := Plan(prelude.tool, prelude.filtered, inputs.json, inputs.regex);
    assert SingleSiteRun(inputs) == ApplyPlan(plan, inputs);
    ApplyPlanSends(plan, inputs);
    var filters := HandlerFilters(inputs.updateFile).value;
    FilteredAreFetched(inputs.fetch.value, filters, inputs.json);
  }

  /** What the update calls decide: the exit code is 1 iff some update failed, and only a clean 0 offers the clean-up. */
  lemma ApplyPlanExitCode(plan: seq<Record>, inputs: SingleSiteInputs)
    requires ValidClocks(inputs) && plan != []
    ensures var run := ApplyPlan(plan, inputs);
      run.sent != [] ==>
        && run.sent == plan
        && (run.outcome == SiteExit(1) <==> exists k :: 0 <= k < |plan| && !inputs.updateOk(plan[k]))
        && (run.outcome == SiteExit(0) <==> forall k :: 0 <= k < |plan| ==> inputs.updateOk(plan[k]))
    ensures var run := ApplyPlan(plan, inputs);
      run.cleanup <==> run.sent != [] && run.outcome == SiteExit(0)
  {
  }

  /** After the updates the exit code is 1 iff some update failed, and only a clean 0 offers the clean-up. */
  lemma ExitCodeAfterUpdates(inputs: SingleSiteInputs)
    requires ValidClocks(inputs)
    ensures var run := SingleSiteRun(inputs);
      run.sent != [] ==>
        && (run.outcome == SiteExit(1) <==> exists k :: 0 <= k < |run.sent| && !inputs.updateOk(run.sent[k]))
        && (run.outcome == SiteExit(0) <==> forall k :: 0 <= k < |run.sent| ==> inputs.updateOk(run.sent[k]))
    ensures var run := SingleSiteRun(inputs);
      run.cleanup <==> run.sent != [] && run.outcome == SiteExit(0)
  {
    var prelude := SitePrelude(inputs);
    if prelude.Ready? && Plan(prelude.tool, prelude.filtered, inputs.json, inputs.regex) != [] {
      ApplyPlanExitCode(Plan(prelude.tool, prelude.filtered, inputs.json, inputs.regex), inputs);
    }
  }

  // ----- The test run -----

  /** As written, the test run never gets past the listing: it ends with 1 and tests and enables nothing. */
  lemma UnawaitedListingAlwaysFails(inputs: TestInputs)
    ensures TestAndEnableAsWritten(inputs) == TestRun(SiteExit(1), None, [])
  {
  }

  /** A disabled channel with a test model. */
  function ExampleChannel(): Record
  {
    map["id" := VInt(7), "status" := VInt(3), "test_model" := VStr("m")]
  }

  /** A test run over that one channel whose test request succeeds, with `--yes` and every enable call succeeding. */
  function ExampleTestInputs(): TestInputs
  {
    var json := JsonCodec(_ => Some(VMap(map["success" := VBool(true)])), _ => "");
    TestInputs("newapi", true, Some([ExampleChannel()]), _ => Response(200, "{}"), true, false, _ => true, json)
  }

  /** The example channel passes its test. */
  lemma ExampleChannelPasses()
    ensures Verdicts(ExampleTestInputs().probe, ExampleTestInputs().json)(ExampleChannel()) == Passed
  {
    var inputs := ExampleTestInputs();
    assert TestModel(ExampleChannel()) == Ok(VStr("m"));
    assert inputs.probe(ExampleChannel()) == Response(200, "{}");
    assert inputs.json.loads("{}") == Some(VMap(map["success" := VBool(true)]));
    assert ResponseOutcome(Response(200, "{}"), inputs.json) == Passed;
    assert TestSingleChannel(ExampleChannel(), Response(200, "{}"), inputs.json) == Passed;
  }

  /** The example's tally: one channel tested, passed and queued for enabling. */
  lemma ExampleTally()
    ensures var inputs := ExampleTestInputs();
      Tally(Select(inputs.fetch.value, AutoDisabled), Verdicts(inputs.probe, inputs.json)) ==
        TestTally(1, 1, 0, [EnablePayload(ExampleChannel())], [])
  {
    var c := ExampleChannel();
    var inputs := ExampleTestInputs();
    assert AutoDisabled(c);
    assert Select([c], AutoDisabled) == [c];
    ExampleChannelPasses();
    assert [c][..0] == [];
  }

  /** A channel that is disabled and passes its test: the intended run enables it, the run as written does not. */
  lemma UnawaitedListingLosesEnable()
    ensures var inputs := ExampleTestInputs();
      && TestAndEnableDisabled(inputs).outcome == SiteExit(0)
      && TestAndEnableDisabled(inputs).sent == [EnablePayload(ExampleChannel())]
      && TestAndEnableAsWritten(inputs).outcome == SiteExit(1) && TestAndEnableAsWritten(inputs).sent == []
  {
    var inputs := ExampleTestInputs();
    ExampleTally();
    var p := EnablePayload(ExampleChannel());
    assert [p][..0] == [];
    assert CountOk([p], inputs.enableOk) == 1;
  }

  /** The tally of an intended test run covers exactly the channels with status 3, and it enables only those that passed. */
  lemma OnlyAutoDisabledTested(inputs: TestInputs)
    requires TestAndEnableDisabled(inputs).tally.Some?
    ensures inputs.fetch.Some?
    ensures var disabled := Select(inputs.fetch.value, AutoDisabled);
      && TestAndEnableDisabled(inputs).tally.value == Tally(disabled, Verdicts(inputs.probe, inputs.json))
      && TestAndEnableDisabled(inputs).tally.value.tested == |disabled|
      && forall c :: c in disabled <==> c in inputs.fetch.value && PyEq(Get(c, "status", VNull), VInt(3))
    ensures forall p :: p in TestAndEnableDisabled(inputs).tally.value.enable <==>
      exists c :: c in inputs.fetch.value && AutoDisabled(c) &&
        TestSingleChannel(c, inputs.probe(c), inputs.json) == Passed && p == EnablePayload(c)
  {
    var disabled := Select(inputs.fetch.value, AutoDisabled);
    TallyMembers(disabled, Verdicts(inputs.probe, inputs.json));
  }

  /**
   * With some test passed, the enable step runs without asking under `--yes`
   * or when every failure is a quota failure; otherwise the answer decides,
   * and declining ends the run with 0 having sent nothing.
   */
  lemma EnablePromptRule(inputs: TestInputs)
    requires TestAndEnableDisabled(inputs).tally.Some?
    requires TestAndEnableDisabled(inputs).tally.value.enable != []
    ensures var t := TestAndEnableDisabled(inputs).tally.value;
      EnableWithoutPrompt(inputs.yes, t) <==> inputs.yes || forall k :: k in t.failures ==> k == Quota
    ensures var t := TestAndEnableDisabled(inputs).tally.value;
      EnableWithoutPrompt(inputs.yes, t) ==> TestAndEnableDisabled(inputs).sent == t.enable
    ensures var t := TestAndEnableDisabled(inputs).tally.value;
      !EnableWithoutPrompt(inputs.yes, t) ==>
        (TestAndEnableDisabled(inputs).sent == t.enable <==> inputs.confirmAnswer)
        && (!inputs.confirmAnswer ==> TestAndEnableDisabled(inputs) == TestRun(SiteExit(0), Some(t), []))
  {
    var t := TestAndEnableDisabled(inputs).tally.value;
    assert forall k :: 0 <= k < |t.failures| ==> t.failures[k] in t.failures;
    if t.failed == 0 {
      assert t.failures == [];
    }
  }

  /** The answer to the prompt changes nothing when `--yes` is set or every failure is a quota failure. */
  lemma AnswerIgnoredWithoutNonQuotaFailure(inputs: TestInputs, answer: bool)
    requires TestAndEnableDisabled(inputs).tally.Some?
    requires inputs.yes || forall k :: k in TestAndEnableDisabled(inputs).tally.value.failures ==> k == Quota
    ensures TestAndEnableDisabled(inputs.(confirmAnswer := answer)) == TestAndEnableDisabled(inputs)
  {
    var other := inputs.(confirmAnswer := answer);
    var disabled := Select(inputs.fetch.value, AutoDisabled);
    var t := Tally(disabled, Verdicts(inputs.probe, inputs.json));
    assert TestAndEnableDisabled(inputs).tally.value == t;
    assert forall k :: 0 <= k < |t.failures| ==> t.failures[k] in t.failures;
    assert EnableWithoutPrompt(inputs.yes, t);
    assert Verdicts(other.probe, other.json) == Verdicts(inputs.probe, inputs.json);
  }

  /** After the enable calls the exit code is 1 iff some enable failed; every payload sets status 1 on a passed channel. */
  lemma EnableExitCode(inputs: TestInputs)
    ensures var run := TestAndEnableDisabled(inputs);
      run.sent != [] ==>
        && run.tally.Some? && run.sent == run.tally.value.enable
        && (run.outcome == SiteExit(1) <==> exists k :: 0 <= k < |run.sent| && !inputs.enableOk(run.sent[k]))
        && (run.outcome == SiteExit(0) <==> forall k :: 0 <= k < |run.sent| ==> inputs.enableOk(run.sent[k]))
        && forall p :: p in run.sent ==> p.Keys == {"id", "status"} && p["status"] == VInt(1)
  {
    var run := TestAndEnableDisabled(inputs);
    if run.sent != [] {
      OnlyAutoDisabledTested(inputs);
    }
  }

  /** The single-site quota test on a message is voapi's. */
  lemma MessageQuotaTest(message: string)
    ensures MessageFailure(message) == (if Contains(Lower(message), "quota") then Quota else ApiError)
  {
  }

  /** On a 200 response the single-site classification is voapi's. */
  lemma SuccessResponseMatchesVoApi(body: string, json: JsonCodec)
    ensures ResponseOutcome(Response(200, body), json) == VoApiTestOutcome(Response(200, body), json)
  {
    var parsed := json.loads(body);
    if parsed.Some? && parsed.value.VMap? && "message" in parsed.value.fields {
      var message := parsed.value.fields["message"];
      if message.VStr? {
        MessageQuotaTest(message.s);
      }
    }
  }

  /** On any other status the single-site status table is voapi's. */
  lemma ErrorResponseMatchesVoApi(status: int, body: string, json: JsonCodec)
    requires status != 200
    ensures ResponseOutcome(Response(status, body), json) == VoApiTestOutcome(Response(status, body), json)
  {
    var failure :=
      if status == 401 then Auth
      else if status == 429 then Quota
      else if 400 <= status < 500 then ApiError
      else if status >= 500 then ServerError
      else UnknownHttp;
    assert failure == StatusFailure(status);
  }

  /** The single-site classification of a test response is voapi's `test_channel_api` classification. */
  lemma ResponseMatchesVoApi(outcome: HttpOutcome, json: JsonCodec)
    ensures ResponseOutcome(outcome, json) == VoApiTestOutcome(outcome, json)
  {
    if outcome.Response? {
      if outcome.status == 200 {
        SuccessResponseMatchesVoApi(outcome.body, json);
      } else {
        ErrorResponseMatchesVoApi(outcome.status, outcome.body, json);
      }
    }
  }

  /** A channel with a test model is classified by the response alone; one without gets 'config' (or 'exception') whatever the response. */
  lemma ModelDecidesRequest(channel: Record, a: HttpOutcome, b: HttpOutcome, json: JsonCodec)
    ensures TestModel(channel).Err? ==> TestSingleChannel(channel, a, json) == TestSingleChannel(channel, b, json)
    ensures TestModel(channel).Ok? ==> TestSingleChannel(channel, a, json) == VoApiTestOutcome(a, json)
  {
    ResponseMatchesVoApi(a, json);
  }
}
