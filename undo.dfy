/**
 * Undo bookkeeping of the channel manager (channel_manager_lib/undo_utils.py):
 * the snapshot `save_undo_data` writes before an update and the name it
 * gives it, `perform_undo` restoring a snapshot, the search for the newest
 * undo file, and `get_undo_summary` describing the update an undo file
 * belongs to from the configuration backup taken with it.
 *
 * The file system, the API and the prompts are given as data: directory
 * listings as sequences of names (with modification times where they are
 * sorted by them), file contents as parsed values, API replies as functions
 * of what is sent, and answers as booleans.
 */
module UndoUtils {
  import opened Wrappers
  import opened PyStrings
  import opened Values
  import opened Engines
  import opened Sublists
  import opened ChannelToolBase
  import opened ConfigUtils
  import opened Timestamps

  // ----- File names -----

  /** `undo_{api_type}_{config_name}_{timestamp}.json`, the name `save_undo_data` writes. */
  function UndoFileName(apiType: string, configName: string, now: Stamp): string
    requires ValidStamp(now)
  {
    "undo_" + apiType + "_" + configName + "_" + FormatStamp(now) + ".json"
  }

  /**
   * The time `get_undo_summary` reads from an undo file name: the last
   * '_'-part of its stem; a stem of fewer than four parts gives None.
   */
  function UndoTimestampOf(fileName: string): (r: Option<Stamp>)
    ensures r.Some? ==> |Split(Stem(fileName), '_')| >= 4
  {
    var parts := Split(Stem(fileName), '_');
    if |parts| < 4 then None else ParseStamp(parts[|parts| - 1])
  }

  /** A glob pattern `<prefix>*<suffix>` matching a file name. */
  predicate GlobMatch(prefix: string, suffix: string, name: string)
    ensures GlobMatch(prefix, suffix, name) <==>
      |prefix| + |suffix| <= |name| && name == prefix + name[|prefix|..|name| - |suffix|] + suffix
  {
    |prefix| + |suffix| <= |name| && name[..|prefix|] == prefix && name[|name| - |suffix|..] == suffix
  }

  // ----- find_latest_undo_file / find_latest_undo_file_for -----

  /** A directory entry with its modification time. */
  datatype FileEntry = FileEntry(name: string, mtime: int)

  /**
   * The last element of a stable sort by modification time: the newest
   * entry, the last listed among equally new ones.
   */
  function LastNewest(es: seq<FileEntry>): (r: nat)
    requires es != []
    ensures r < |es|
    ensures forall k :: 0 <= k < |es| ==> es[k].mtime <= es[r].mtime
    ensures forall k :: r < k < |es| ==> es[k].mtime < es[r].mtime
  {
    if |es| == 1 then 0
    else
      var init := es[..|es| - 1];
      var j := LastNewest(init);
      assert forall k :: 0 <= k < |init| ==> init[k] == es[k];
      if es[|es| - 1].mtime >= es[j].mtime then |es| - 1 else j
  }

  /** The newest of the entries `keep` selects, or None when the directory is missing or none is selected. */
  function NewestOf(dirExists: bool, es: seq<FileEntry>, keep: FileEntry -> bool): (r: Option<string>)
    ensures r.None? <==> !dirExists || forall e :: e in es ==> !keep(e)
    ensures r.Some? ==> exists e :: e in es && keep(e) && e.name == r.value &&
                          forall f :: f in es && keep(f) ==> f.mtime <= e.mtime
  {
    if !dirExists then None
    else
      var matches := Select(es, keep);
      if matches == [] then None
      else
        var i := LastNewest(matches);
        assert matches[i] in matches;
        assert forall f :: f in es && keep(f) ==> f.mtime <= matches[i].mtime by {
          forall f | f in es && keep(f) ensures f.mtime <= matches[i].mtime {
            assert f in matches;
            var k :| 0 <= k < |matches| && matches[k] == f;
          }
        }
        Some(matches[i].name)
  }

  /** `find_latest_undo_file()`: the newest `undo_*.json`. */
  function FindLatestUndoFile(dirExists: bool, es: seq<FileEntry>): (r: Option<string>)
    ensures r.None? <==> !dirExists || forall e :: e in es ==> !GlobMatch("undo_", ".json", e.name)
    ensures r.Some? ==> exists e :: e in es && GlobMatch("undo_", ".json", e.name) && e.name == r.value &&
                          forall f :: f in es && GlobMatch("undo_", ".json", f.name) ==> f.mtime <= e.mtime
  {
    NewestOf(dirExists, es, (e: FileEntry) => GlobMatch("undo_", ".json", e.name))
  }

  /** The glob `find_latest_undo_file_for` uses: `undo_{api_type}_{config_name}_*.json`. */
  predicate UndoGlobFor(configName: string, apiType: string, name: string)
  {
    GlobMatch("undo_" + apiType + "_" + configName + "_", ".json", name)
  }

  /** `find_latest_undo_file_for(config_name, api_type)` as written: the newest match of its glob. */
  function FindLatestUndoFileFor(configName: string, apiType: string, dirExists: bool, es: seq<FileEntry>): (r: Option<string>)
    ensures r.None? <==> !dirExists || forall e :: e in es ==> !UndoGlobFor(configName, apiType, e.name)
    ensures r.Some? ==> exists e :: e in es && UndoGlobFor(configName, apiType, e.name) && e.name == r.value &&
                          forall f :: f in es && UndoGlobFor(configName, apiType, f.name) ==> f.mtime <= e.mtime
  {
    NewestOf(dirExists, es, (e: FileEntry) => UndoGlobFor(configName, apiType, e.name))
  }

  /**
   * What the glob evidently means: the part it leaves to `*` is the
   * timestamp alone, which holds no '_'.
   */
  predicate OwnUndoFile(configName: string, apiType: string, name: string)
  {
    UndoGlobFor(configName, apiType, name) &&
    '_' !in name[|"undo_" + apiType + "_" + configName + "_"|..|name| - |".json"|]
  }

  /** `find_latest_undo_file_for` considering only the configuration's own undo files. */
  function FindOwnLatestUndoFile(configName: string, apiType: string, dirExists: bool, es: seq<FileEntry>): Option<string>
  {
    NewestOf(dirExists, es, (e: FileEntry) => OwnUndoFile(configName, apiType, e.name))
  }

  // ----- get_undo_summary -----

  /** The backups `get_undo_summary` lists: `update_config.*.yaml`. */
  predicate IsBackupName(name: string)
  {
    GlobMatch("update_config.", ".yaml", name)
  }

  /** The time of a backup: the last '.'-part of its stem; None when it does not parse. */
  function BackupTimestampOf(name: string): Option<Stamp>
  {
    var parts := Split(Stem(name), '.');
    ParseStamp(parts[|parts| - 1])
  }

  /** The time of a listed backup: None unless the name matches the glob and its time parses. */
  function BackupStampOf(name: string): (r: Option<Stamp>)
    ensures r.Some? ==> IsBackupName(name)
  {
    if IsBackupName(name) then BackupTimestampOf(name) else None
  }

  /** A backup that may belong to the undo file: its time and its name. */
  datatype Candidate = Candidate(stamp: Stamp, name: string)

  /** `candidate_backups`: the listed backups with a time not after the undo time, in listing order. */
  function Candidates(names: seq<string>, stampOf: string -> Option<Stamp>, undoTs: Stamp): (r: seq<Candidate>)
    ensures forall c :: c in r <==> c.name in names && stampOf(c.name) == Some(c.stamp) && StampLeq(c.stamp, undoTs)
  {
    if names == [] then []
    else
      var init, last := names[..|names| - 1], names[|names| - 1];
      assert forall n :: n in names <==> n in init || n == last;
      var ts := stampOf(last);
      Candidates(init, stampOf, undoTs) + (if ts.Some? && StampLeq(ts.value, undoTs) then [Candidate(ts.value, last)] else [])
  }

  /**
   * The first element after a stable sort by time, newest first: the newest
   * candidate, the first listed among equally new ones.
   */
  function FirstNewest(cs: seq<Candidate>): (r: nat)
    requires cs != []
    ensures r < |cs|
    ensures forall k :: 0 <= k < |cs| ==> StampLeq(cs[k].stamp, cs[r].stamp)
    ensures forall k :: 0 <= k < r ==> cs[k].stamp != cs[r].stamp
  {
    if |cs| == 1 then 0
    else
      var init := cs[..|cs| - 1];
      var j := FirstNewest(init);
      var last := cs[|cs| - 1];
      assert forall k :: 0 <= k < |init| ==> init[k] == cs[k];
      if StampLeq(last.stamp, cs[j].stamp) then j
      else
        StampLeqTotal(last.stamp, cs[j].stamp);
        assert forall k :: 0 <= k < |cs| - 1 ==> cs[k].stamp != last.stamp by {
          forall k | 0 <= k < |cs| - 1 ensures cs[k].stamp != last.stamp {
            assert StampLeq(cs[k].stamp, cs[j].stamp);
          }
        }
        assert forall k :: 0 <= k < |cs| ==> StampLeq(cs[k].stamp, last.stamp) by {
          forall k | 0 <= k < |cs| ensures StampLeq(cs[k].stamp, last.stamp) {
            if k < |cs| - 1 {
              StampLeqTransitive(cs[k].stamp, cs[j].stamp, last.stamp);
            }
          }
        }
        |cs| - 1
  }

  /** The backup `get_undo_summary` reads, if any. */
  function ChosenBackup(names: seq<string>, stampOf: string -> Option<Stamp>, undoTs: Stamp): Option<string>
  {
    var cs := Candidates(names, stampOf, undoTs);
    if cs == [] then None else Some(cs[FirstNewest(cs)].name)
  }

  /**
   * The `updates` section of the backup: None when it cannot be read, is
   * empty, has no `updates`, or `updates` has no `.items()`.
   */
  function BackupUpdates(f: YamlFile): (r: Option<map<string, Value>>)
    ensures r.Some? <==> f.Document? && f.content.VMap? && f.content.fields != map[] &&
                         "updates" in f.content.fields && f.content.fields["updates"].VMap?
    ensures r.Some? ==> r.value == f.content.fields["updates"].fields
  {
    match LoadYamlConfig(f)
    case Err(_) => None
    case Ok(None) => None
    case Ok(Some(cfg)) =>
      if cfg == map[] || "updates" !in cfg || !cfg["updates"].VMap? then None
      else Some(cfg["updates"].fields)
  }

  const NotSetMarker: string := "<未设置>"
  const NoFieldsMessage: string := "上次操作未启用任何更新字段。"
  const SummaryPrefix: string := "上次操作设置了: "

  /** An entry of `updates` the summary lists: a dict whose `enabled` is True itself. */
  predicate EnabledEntry(config: Value)
  {
    config.VMap? && Get(config.fields, "enabled", VNull) == VBool(true)
  }

  /** Dicts and lists are shown by the JSON encoder, everything else by `repr()`. */
  function ValueText(value: Value, json: JsonCodec): string
  {
    if value.VMap? || value.VList? then json.dumps(value) else Repr(value)
  }

  /** `f"{field} = {value_str}"`, with the marker standing in for a missing `value`. */
  function DetailLine(field: string, config: Value, json: JsonCodec): string
    requires config.VMap?
  {
    field + " = " + ValueText(Get(config.fields, "value", VStr(NotSetMarker)), json)
  }

  /** `update_details`: one line per enabled entry, in the order of `fields`. */
  function Details(fields: seq<string>, updates: map<string, Value>, json: JsonCodec): (r: seq<string>)
    ensures |r| <= |fields|
    ensures forall line :: line in r <==>
              exists f :: f in fields && f in updates && EnabledEntry(updates[f]) && line == DetailLine(f, updates[f], json)
    ensures r == [] <==> forall f :: f in fields && f in updates ==> !EnabledEntry(updates[f])
  {
    if fields == [] then []
    else
      var init, last := fields[..|fields| - 1], fields[|fields| - 1];
      assert forall f :: f in fields <==> f in init || f == last;
      Details(init, updates, json) +
        (if last in updates && EnabledEntry(updates[last]) then [DetailLine(last, updates[last], json)] else [])
  }

  /** The summary text: the fixed message when nothing was enabled, else the lines joined by ", ". */
  function SummaryText(details: seq<string>): string
  {
    if details == [] then NoFieldsMessage else SummaryPrefix + Join(", ", details)
  }

  /** What `get_undo_summary` sees. */
  datatype SummaryInputs = SummaryInputs(
    undoName: string,
    undoIsFile: bool,
    backupDirExists: bool,
    backupNames: seq<string>,
    backups: string -> YamlFile,
    json: JsonCodec)

  /** `get_undo_summary(undo_file_path)`. */
  function UndoSummary(inputs: SummaryInputs): (r: Option<string>)
    ensures r.Some? ==> inputs.undoIsFile && inputs.backupDirExists && UndoTimestampOf(inputs.undoName).Some?
    ensures r.Some? ==> ChosenBackup(inputs.backupNames, BackupStampOf, UndoTimestampOf(inputs.undoName).value).Some?
  {
    if !inputs.undoIsFile then None
    else
      match UndoTimestampOf(inputs.undoName)
      case None => None
      case Some(ts) =>
        if !inputs.backupDirExists then None
        else
          match ChosenBackup(inputs.backupNames, BackupStampOf, ts)
          case None => None
          case Some(b) =>
            match BackupUpdates(inputs.backups(b))
            case None => None
            case Some(updates) => Some(SummaryText(Details(SortedSeq(updates.Keys), updates, inputs.json)))
  }

  /** The loop that fills `candidate_backups`. */
  method CollectCandidates(names: seq<string>, stampOf: string -> Option<Stamp>, undoTs: Stamp) returns (cands: seq<Candidate>)
    ensures cands == Candidates(names, stampOf, undoTs)
  {
    cands := [];
    var i := 0;
    while i < |names|
      invariant 0 <= i <= |names|
      invariant cands == Candidates(names[..i], stampOf, undoTs)
    {
      assert names[..i + 1][..i] == names[..i];
      var ts := stampOf(names[i]);
      if ts.Some? && StampLeq(ts.value, undoTs) {
        cands := cands + [Candidate(ts.value, names[i])];
      }
      i := i + 1;
    }
    assert names[..i] == names;
  }

  /** The loop that fills `update_details`. */
  method RenderDetails(fields: seq<string>, updates: map<string, Value>, json: JsonCodec) returns (details: seq<string>)
    ensures details == Details(fields, updates, json)
  {
    details := [];
    var i := 0;
    while i < |fields|
      invariant 0 <= i <= |fields|
      invariant details == Details(fields[..i], updates, json)
    {
      assert fields[..i + 1][..i] == fields[..i];
      var field := fields[i];
      if field in updates && EnabledEntry(updates[field]) {
        details := details + [DetailLine(field, updates[field], json)];
      }
      i := i + 1;
    }
    assert fields[..i] == fields;
  }

  method GetUndoSummary(inputs: SummaryInputs) returns (summary: Option<string>)
    ensures summary == UndoSummary(inputs)
  {
    if !inputs.undoIsFile {
      return None;
    }
    var ts := UndoTimestampOf(inputs.undoName);
    if ts.None? || !inputs.backupDirExists {
      return None;
    }
    var cands := CollectCandidates(inputs.backupNames, BackupStampOf, ts.value);
    if cands == [] {
      return None;
    }
    var chosen := cands[FirstNewest(cands)].name;
    var updates := BackupUpdates(inputs.backups(chosen));
    if updates.None? {
      return None;
    }
    var details := RenderDetails(SortedSeq(updates.value.Keys), updates.value, inputs.json);
    summary := Some(SummaryText(details));
  }

  // ----- perform_undo -----

  /** How `perform_undo` ends: with an exit code, or with an exception it does not catch. */
  datatype UndoOutcome = UndoExit(code: int) | UndoRaised

  /** What `perform_undo` ends with and the payloads it sends. */
  datatype UndoRun = UndoRun(outcome: UndoOutcome, sent: seq<Record>)

  /**
   * What `perform_undo` sees: the parsed undo file (None when it is missing
   * or not JSON), whether the tool could be built, the prompt, and the
   * reply of `update_channel_api` to each payload (True for a `(True, _)`
   * tuple, False for a failure, an exception or any other result).
   */
  datatype UndoInputs = UndoInputs(
    content: Option<Value>,
    toolReady: bool,
    autoConfirm: bool,
    confirmAnswer: bool,
    updateOk: Record -> bool)

  /**
   * `update_tasks`: a copy of every stored record with a truthy `id`, in
   * file order; None when some entry is not a dict, whose `.get` raises.
   */
  function RestorePayloads(items: seq<Value>): (r: Option<seq<Record>>)
    ensures r.None? <==> exists k :: 0 <= k < |items| && !items[k].VMap?
    ensures r.Some? ==> |r.value| <= |items|
    ensures r.Some? ==> forall p :: p in r.value <==> VMap(p) in items && Truthy(Get(p, "id", VNull))
  {
    if items == [] then Some([])
    else
      var init, last := items[..|items| - 1], items[|items| - 1];
      assert forall v :: v in items <==> v in init || v == last;
      assert forall k :: 0 <= k < |init| ==> init[k] == items[k];
      if !last.VMap? then None
      else
        match RestorePayloads(init)
        case None => None
        case Some(ps) => Some(ps + (if Truthy(Get(last.fields, "id", VNull)) then [last.fields] else []))
  }

  /** `success_count`: the payloads whose update succeeded. */
  function CountOk(ps: seq<Record>, ok: Record -> bool): (n: nat)
    ensures n <= |ps|
    ensures n == |ps| <==> forall k :: 0 <= k < |ps| ==> ok(ps[k])
  {
    if ps == [] then 0
    else
      var init := ps[..|ps| - 1];
      assert forall k :: 0 <= k < |init| ==> init[k] == ps[k];
      CountOk(init, ok) + (if ok(ps[|ps| - 1]) then 1 else 0)
  }

  /** `perform_undo(...)`. */
  function UndoResult(inputs: UndoInputs): (r: UndoRun)
    ensures r.sent != [] ==> inputs.toolReady && (inputs.autoConfirm || inputs.confirmAnswer)
    ensures r.sent != [] ==> inputs.content.Some? && inputs.content.value.VList? &&
                             RestorePayloads(inputs.content.value.items) == Some(r.sent)
    ensures r.outcome == UndoRaised <==>
      inputs.content.Some? && inputs.content.value.VList? && inputs.content.value.items != [] &&
      inputs.toolReady && RestorePayloads(inputs.content.value.items).None?
    ensures r.outcome == UndoExit(1) && r.sent != [] ==> CountOk(r.sent, inputs.updateOk) < |r.sent|
  {
    if inputs.content.None? || !inputs.content.value.VList? || inputs.content.value.items == [] then UndoRun(UndoExit(1), [])
    else if !inputs.toolReady then UndoRun(UndoExit(1), [])
    else
      match RestorePayloads(inputs.content.value.items)
      case None => UndoRun(UndoRaised, [])
      case Some(ps) =>
        if ps == [] then UndoRun(UndoExit(0), [])
        else if !inputs.autoConfirm && !inputs.confirmAnswer then UndoRun(UndoExit(0), [])
        else
          var failures := |ps| - CountOk(ps, inputs.updateOk);
          UndoRun(UndoExit(if failures > 0 then 1 else 0), ps)
  }

  /** The loop that builds `update_tasks`. */
  method PrepareRestore(items: seq<Value>) returns (payloads: Option<seq<Record>>)
    ensures payloads == RestorePayloads(items)
  {
    var ps: seq<Record> := [];
    var i := 0;
    while i < |items|
      invariant 0 <= i <= |items|
      invariant RestorePayloads(items[..i]) == Some(ps)
    {
      assert items[..i + 1][..i] == items[..i];
      var entry := items[i];
      if !entry.VMap? {
        assert !items[..i + 1][i].VMap?;
        RaisedAtPrefix(items, i + 1);
        return None;
      }
      var prefix := items[..i + 1];
      assert prefix[..|prefix| - 1] == items[..i] && prefix[|prefix| - 1] == entry;
      var extra: seq<Record> := if Truthy(Get(entry.fields, "id", VNull)) then [entry.fields] else [];
      assert RestorePayloads(prefix) == Some(ps + extra);
      ps := ps + extra;
      i := i + 1;
      assert prefix == items[..i];
    }
    assert items[..i] == items;
    payloads := Some(ps);
  }

  /** An entry that is not a dict makes the whole file raise, whatever follows it. */
  lemma RaisedAtPrefix(items: seq<Value>, n: nat)
    requires n <= |items| && RestorePayloads(items[..n]).None?
    ensures RestorePayloads(items).None?
  {
    var k :| 0 <= k < n && !items[..n][k].VMap?;
    assert items[k] == items[..n][k];
  }

  /** The loop over the results: successes and failures. */
  method TallyRestores(ps: seq<Record>, ok: Record -> bool) returns (successes: nat, failures: nat)
    ensures successes == CountOk(ps, ok) && failures == |ps| - successes
  {
    successes, failures := 0, 0;
    var i := 0;
    while i < |ps|
      invariant 0 <= i <= |ps|
      invariant successes == CountOk(ps[..i], ok) && failures == i - successes
    {
      assert ps[..i + 1][..i] == ps[..i];
      if ok(ps[i]) {
        successes := successes + 1;
      } else {
        failures := failures + 1;
      }
      i := i + 1;
    }
    assert ps[..i] == ps;
  }

  method PerformUndo(inputs: UndoInputs) returns (run: UndoRun)
    ensures run == UndoResult(inputs)
  {
    if inputs.content.None? || !inputs.content.value.VList? || inputs.content.value.items == [] {
      return UndoRun(UndoExit(1), []);
    }
    if !inputs.toolReady {
      return UndoRun(UndoExit(1), []);
    }
    var payloads := PrepareRestore(inputs.content.value.items);
    if payloads.None? {
      return UndoRun(UndoRaised, []);
    }
    var ps := payloads.value;
    if ps == [] {
      return UndoRun(UndoExit(0), []);
    }
    if !inputs.autoConfirm && !inputs.confirmAnswer {
      return UndoRun(UndoExit(0), []);
    }
    var successes, failures := TallyRestores(ps, inputs.updateOk);
    run := UndoRun(UndoExit(if failures > 0 then 1 else 0), ps);
  }

  // ----- save_undo_data -----

  /**
   * What `save_undo_data` sees: whether the tool could be built, the channel
   * list (None when the fetch failed), the update configuration file, the
   * detail fetch for each id (None for an exception), whether the undo
   * directory could be made and the file written, the clock, the API type
   * and the connection file's name.
   */
  datatype SaveInputs = SaveInputs(
    toolReady: bool,
    allChannels: Option<seq<Value>>,
    updateConfig: YamlFile,
    json: JsonCodec,
    details: Value -> Option<Value>,
    dirOk: bool,
    writeOk: bool,
    now: Stamp,
    apiType: string,
    configFile: string)

  /** How `save_undo_data` ends: the file it wrote with its content, None, or an exception it does not catch. */
  datatype SaveOutcome = Saved(name: string, data: seq<Record>) | NotSaved | SaveRaised

  /** The `filters` of the update configuration; None when it cannot be read, is falsy or is not a dict. */
  function FiltersOf(f: YamlFile): (r: Option<Value>)
    ensures r.Some? <==> f.Document? && Truthy(f.content) && f.content.VMap?
  {
    match f
    case Document(v) => if Truthy(v) && v.VMap? then Some(Get(v.fields, "filters", VNull)) else None
    case _ => None
  }

  /** `channel_ids_to_fetch`: the truthy ids of the filtered channels; None when one is not a dict. */
  function ChannelIds(filtered: seq<Value>): (r: Option<seq<Value>>)
    ensures r.None? <==> exists k :: 0 <= k < |filtered| && !filtered[k].VMap?
    ensures r.Some? ==> forall id :: id in r.value <==>
              Truthy(id) && exists c :: c in filtered && c.VMap? && Get(c.fields, "id", VNull) == id
  {
    if filtered == [] then Some([])
    else
      var init, last := filtered[..|filtered| - 1], filtered[|filtered| - 1];
      assert forall v :: v in filtered <==> v in init || v == last;
      assert forall k :: 0 <= k < |init| ==> init[k] == filtered[k];
      if !last.VMap? then None
      else
        match ChannelIds(init)
        case None => None
        case Some(ids) =>
          var id := Get(last.fields, "id", VNull);
          Some(ids + (if Truthy(id) then [id] else []))
  }

  /** `original_channels_data`: the details that came back as dicts, in id order. */
  function Fetched(ids: seq<Value>, details: Value -> Option<Value>): (r: seq<Record>)
    ensures |r| <= |ids|
    ensures forall d :: d in r <==> exists id :: id in ids && details(id) == Some(VMap(d))
  {
    if ids == [] then []
    else
      var init, last := ids[..|ids| - 1], ids[|ids| - 1];
      assert forall v :: v in ids <==> v in init || v == last;
      var got := details(last);
      Fetched(init, details) + (if got.Some? && got.value.VMap? then [got.value.fields] else [])
  }

  /** `save_undo_data(...)`. */
  function SaveUndo(inputs: SaveInputs): (r: SaveOutcome)
    requires ValidStamp(inputs.now)
    ensures r.Saved? ==> r.data != [] && inputs.dirOk && inputs.writeOk
    ensures r.Saved? ==> r.name == UndoFileName(inputs.apiType, Stem(inputs.configFile), inputs.now)
    ensures r != NotSaved ==> inputs.toolReady && inputs.allChannels.Some? && FiltersOf(inputs.updateConfig).Some?
  {
    if !inputs.toolReady || inputs.allChannels.None? || inputs.allChannels.value == [] then NotSaved
    else
      match FiltersOf(inputs.updateConfig)
      case None => NotSaved
      case Some(filters) =>
        match BaseFilterChannels(inputs.allChannels.value, filters, inputs.json)
        case Raises => SaveRaised
        case Returns(filtered) =>
          if filtered == [] then NotSaved
          else
            match ChannelIds(filtered)
            case None => SaveRaised
            case Some(ids) =>
              if ids == [] then NotSaved
              else
                var data := Fetched(ids, inputs.details);
                if data == [] || !inputs.dirOk || !inputs.writeOk then NotSaved
                else Saved(UndoFileName(inputs.apiType, Stem(inputs.configFile), inputs.now), data)
  }

  /** The loop that fetches the details, with its `fetch_errors` counter. */
  method FetchDetails(ids: seq<Value>, details: Value -> Option<Value>) returns (data: seq<Record>, fetchErrors: nat)
    ensures data == Fetched(ids, details)
    ensures fetchErrors == |ids| - |data|
  {
    data, fetchErrors := [], 0;
    var i := 0;
    while i < |ids|
      invariant 0 <= i <= |ids|
      invariant data == Fetched(ids[..i], details) && fetchErrors == i - |data|
    {
      assert ids[..i + 1][..i] == ids[..i];
      var got := details(ids[i]);
      if got.Some? && got.value.VMap? {
        data := data + [got.value.fields];
      } else {
        fetchErrors := fetchErrors + 1;
      }
      i := i + 1;
    }
    assert ids[..i] == ids;
  }

  method SaveUndoData(inputs: SaveInputs) returns (outcome: SaveOutcome)
    requires ValidStamp(inputs.now)
    ensures outcome == SaveUndo(inputs)
  {
    if !inputs.toolReady || inputs.allChannels.None? || inputs.allChannels.value == [] {
      return NotSaved;
    }
    var filters := FiltersOf(inputs.updateConfig);
    if filters.None? {
      return NotSaved;
    }
    var matched := BaseFilterChannels(inputs.allChannels.value, filters.value, inputs.json);
    if matched.Raises? {
      return SaveRaised;
    }
    var filtered := matched.value;
    if filtered == [] {
      return NotSaved;
    }
    var ids := ChannelIds(filtered);
    if ids.None? {
      return SaveRaised;
    }
    if ids.value == [] {
      return NotSaved;
    }
    var data, fetchErrors := FetchDetails(ids.value, inputs.details);
    if data == [] || !inputs.dirOk || !inputs.writeOk {
      return NotSaved;
    }
    outcome := Saved(UndoFileName(inputs.apiType, Stem(inputs.configFile), inputs.now), data);
  }
}
