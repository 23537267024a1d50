/**
 * The patch calculation of the base channel tool,
 * `_prepare_update_payload` (oneapi_tool_utils/channel_tool_base.py), as the
 * loop the source runs over the update rules.
 */
module UpdatePayload {
  import opened Wrappers
  import opened Values
  import opened Engines
  import opened Vendors
  import opened ChannelToolBase

  /**
   * The loop of `_prepare_update_payload`: walks the update rules (in any
   * order, since each rule reads and writes only its own field), evaluating
   * each one and growing the payload that starts as `{'id': channel_id}` and
   * the set of changed fields.
   */
  method ApplyRules(channelId: Value, updates: map<string, Value>, channel: Record, vendor: Vendor,
                    json: JsonCodec, regex: RegexSub) returns (body: Record, changed: set<string>)
    ensures body == map["id" := channelId] + Collect(updates.Keys, RuleOutcomes(updates, vendor, channel, json, regex))
    ensures changed == Collect(updates.Keys, RuleOutcomes(updates, vendor, channel, json, regex)).Keys
  {
    ghost var outcomes := RuleOutcomes(updates, vendor, channel, json, regex);
    changed := {};
    body := map["id" := channelId];
    var remaining := updates.Keys;
    ghost var done: set<string> := {};
    while remaining != {}
      invariant Progress(channelId, updates.Keys, outcomes, remaining, done, body, changed)
      decreases remaining
    {
      var field :| field in remaining;
      ProgressStep(channelId, updates.Keys, outcomes, remaining, done, body, changed, field);
      var outcome := EvaluateRule(vendor, field, updates[field], channel, json, regex);
      assert outcome == outcomes(field);
      if outcome.Some? {
        body := body[field := outcome.value];
        changed := changed + {field};
      }
      remaining := remaining - {field};
      done := done + {field};
    }
    assert done == updates.Keys;
  }

  /** The loop invariant: the fields done so far are in the payload and in the changed set exactly when their rule has an outcome. */
  ghost predicate Progress<V>(channelId: V, keys: set<string>, outcomes: string -> Option<V>, remaining: set<string>,
                              done: set<string>, body: map<string, V>, changed: set<string>)
  {
    remaining !! done && remaining + done == keys
    && changed == Collect(done, outcomes).Keys
    && body == map["id" := channelId] + Collect(done, outcomes)
  }

  /** One more rule keeps the invariant. */
  lemma ProgressStep<V>(channelId: V, keys: set<string>, outcomes: string -> Option<V>, remaining: set<string>,
                        done: set<string>, body: map<string, V>, changed: set<string>, field: string)
    requires Progress(channelId, keys, outcomes, remaining, done, body, changed)
    requires field in remaining
    ensures outcomes(field).Some? ==>
      Progress(channelId, keys, outcomes, remaining - {field}, done + {field},
               body[field := outcomes(field).value], changed + {field})
    ensures outcomes(field).None? ==>
      Progress(channelId, keys, outcomes, remaining - {field}, done + {field}, body, changed)
  {
    CollectStep(done, field, outcomes);
    if outcomes(field).Some? {
      MergeThenUpdate(map["id" := channelId], Collect(done, outcomes), field, outcomes(field).value);
    }
  }

  /** `_prepare_update_payload(original_channel_data)`: the payload and the changed fields, or (None, {}). */
  method PrepareUpdatePayload(updateConfig: Option<Record>, channel: Record, vendor: Vendor, json: JsonCodec,
                              regex: RegexSub) returns (payload: Option<Record>, changed: set<string>)
    requires WellFormedUpdates(updateConfig)
    ensures (payload, changed) == PlannedUpdate(updateConfig, channel, vendor, json, regex)
  {
    if updateConfig.None? || "updates" !in updateConfig.value {
      return None, {};
    }
    var updates := updateConfig.value["updates"].fields;
    var channelId := Get(channel, "id", VNull);
    if !Truthy(channelId) {
      return None, {};
    }
    var body;
    body, changed := ApplyRules(channelId, updates, channel, vendor, json, regex);
    if changed == {} {
      return None, {};
    }
    payload := Some(body);
  }
}
