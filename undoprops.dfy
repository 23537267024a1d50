/** Properties of the undo bookkeeping. */
module UndoProps {
  import opened Wrappers
  import opened PyStrings
  import opened Values
  import opened Engines
  import opened Sublists
  import opened ChannelToolBase
  import opened ConfigUtils
  import opened Timestamps
  import opened UndoUtils

  // ----- Names -----

  /** The '_'-parts of `undo_<api>_<config>_<ts>`: at least four, the last being `<ts>` when it holds no '_'. */
  lemma UndoStemParts(apiType: string, configName: string, ts: string)
    requires '_' !in ts
    ensures var parts := Split("undo_" + apiType + "_" + configName + "_" + ts, '_');
            |parts| >= 4 && parts[|parts| - 1] == ts
  {
    var a := "undo_" + apiType + "_" + configName;
    SplitFree(ts, '_');
    assert a + "_" + ts == a + ['_'] + ts;
    SplitAppend(a, ts, '_');
    assert a == "undo" + ['_'] + (apiType + ['_'] + configName);
    SplitAppend("undo", apiType + ['_'] + configName, '_');
    SplitAppend(apiType, configName, '_');
  }

  /** An undo file name has at least four '_'-parts, the last being its timestamp. */
  lemma UndoNameParts(apiType: string, configName: string, now: Stamp)
    requires ValidStamp(now)
    ensures var parts := Split(Stem(UndoFileName(apiType, configName, now)), '_');
            |parts| >= 4 && parts[|parts| - 1] == FormatStamp(now)
  {
    var ts := FormatStamp(now);
    var base := "undo_" + apiType + "_" + configName + "_" + ts;
    assert UndoFileName(apiType, configName, now) == base + ".json";
    assert base + ".json" == base + "." + "json";
    StemOfSuffixed(base, "json");
    FormatStampChars(now);
    UndoStemParts(apiType, configName, ts);
  }

  /** `get_undo_summary` reads back the time `save_undo_data` put in the name, to the millisecond. */
  lemma UndoNameTimestamp(apiType: string, configName: string, now: Stamp)
    requires ValidStamp(now)
    ensures UndoTimestampOf(UndoFileName(apiType, configName, now)) == Some(Millis(now))
  {
    var parts := Split(Stem(UndoFileName(apiType, configName, now)), '_');
    UndoNameParts(apiType, configName, now);
    FormatThenParse(now);
    assert ParseStamp(parts[|parts| - 1]) == Some(Millis(now));
  }

  /** An undo file of the configuration `<config>_<other>` matches the glob of `<config>`. */
  lemma GlobMatchesLongerName(apiType: string, configName: string, other: string, now: Stamp)
    requires ValidStamp(now)
    ensures UndoGlobFor(configName, apiType, UndoFileName(apiType, configName + "_" + other, now))
  {
    var ts := FormatStamp(now);
    var prefix := "undo_" + apiType + "_" + configName + "_";
    var name := UndoFileName(apiType, configName + "_" + other, now);
    assert name == "undo_" + apiType + "_" + (configName + "_" + other) + "_" + ts + ".json";
    var rest := other + "_" + ts;
    assert name == prefix + rest + ".json";
    assert name[..|prefix|] == prefix;
    assert name[|name| - |".json"|..] == ".json";
  }

  /** The glob collision: the undo file of "site_b" is found as the newest undo file of "site". */
  lemma GlobCollision(now: Stamp)
    requires ValidStamp(now)
    ensures var name := UndoFileName("newapi", "site_b", now);
            FindLatestUndoFileFor("site", "newapi", true, [FileEntry(name, 0)]) == Some(name)
  {
    GlobMatchesLongerName("newapi", "site", "b", now);
    assert "site" + "_" + "b" == "site_b";
  }

  /** Two ways of ending a string with a separator and a separator-free tail agree. */
  lemma LastSeparator(a: string, b: string, x: string, y: string, c: char)
    requires a + [c] + b == x + [c] + y
    requires c !in b && c !in y
    ensures a == x && b == y
  {
    var s := a + [c] + b;
    assert s[|a|] == c && s[|x|] == c;
    assert forall i :: |x| < i < |s| ==> s[i] != c by {
      forall i | |x| < i < |s| ensures s[i] != c {
        assert s[i] == y[i - |x| - 1];
      }
    }
    assert forall i :: |a| < i < |s| ==> s[i] != c by {
      forall i | |a| < i < |s| ensures s[i] != c {
        assert s[i] == b[i - |a| - 1];
      }
    }
    assert a == s[..|a|] && x == s[..|x|];
    assert b == s[|a| + 1..] && y == s[|x| + 1..];
  }

  /** The corrected match on a name `undo_<api>_<other>_<ts>.json` with a '_'-free `<ts>` holds when `<other>` is the configuration... */
  lemma OwnUndoNameMatches(apiType: string, configName: string, ts: string)
    requires '_' !in ts
    ensures OwnUndoFile(configName, apiType, "undo_" + apiType + "_" + configName + "_" + ts + ".json")
  {
    var prefix := "undo_" + apiType + "_" + configName + "_";
    var name := prefix + ts + ".json";
    assert name[|prefix|..|name| - |".json"|] == ts;
    assert name[..|prefix|] == prefix;
  }

  /** ... and only then. */
  lemma OwnUndoNameOnly(apiType: string, configName: string, other: string, ts: string)
    requires '_' !in ts
    requires OwnUndoFile(configName, apiType, "undo_" + apiType + "_" + other + "_" + ts + ".json")
    ensures other == configName
  {
    var p := "undo_" + apiType + "_";
    var prefix := p + configName + "_";
    var name := "undo_" + apiType + "_" + other + "_" + ts + ".json";
    var v := other + "_" + ts;
    assert name == p + v + ".json";
    var m := name[|prefix|..|name| - |".json"|];
    assert name == prefix + m + ".json" by {
      assert name[..|prefix|] == prefix;
      assert name[|name| - |".json"|..] == ".json";
    }
    var u := configName + "_" + m;
    assert p + u + ".json" == p + v + ".json";
    assert u == (p + u + ".json")[|p|..|p| + |u|];
    assert v == (p + v + ".json")[|p|..|p| + |v|];
    LastSeparator(configName, m, other, ts, '_');
  }

  /** The corrected match takes an undo file for exactly the configuration it was written for. */
  lemma OwnUndoFileExact(apiType: string, configName: string, other: string, now: Stamp)
    requires ValidStamp(now)
    ensures OwnUndoFile(configName, apiType, UndoFileName(apiType, other, now)) <==> other == configName
  {
    var ts := FormatStamp(now);
    FormatStampChars(now);
    assert UndoFileName(apiType, other, now) == "undo_" + apiType + "_" + other + "_" + ts + ".json";
    if other == configName {
      OwnUndoNameMatches(apiType, configName, ts);
    }
    if OwnUndoFile(configName, apiType, UndoFileName(apiType, other, now)) {
      OwnUndoNameOnly(apiType, configName, other, ts);
    }
  }

  /** The corrected search finds a file of the configuration whenever the directory holds one, and returns only such files. */
  lemma OwnLatestUndoFile(apiType: string, configName: string, dirExists: bool, es: seq<FileEntry>, e: FileEntry, now: Stamp)
    requires ValidStamp(now) && e in es && e.name == UndoFileName(apiType, configName, now)
    ensures var r := FindOwnLatestUndoFile(configName, apiType, dirExists, es);
            && (r.Some? <==> dirExists)
            && (r.Some? ==> exists f :: f in es && f.name == r.value && OwnUndoFile(configName, apiType, f.name))
  {
    OwnUndoFileExact(apiType, configName, configName, now);
  }

  // ----- get_undo_summary -----

  /**
   * The backup read is the newest listed one whose time is not after the
   * undo time; there is none exactly when no listed backup qualifies.
   */
  lemma ChosenBackupIsNearest(names: seq<string>, stampOf: string -> Option<Stamp>, undoTs: Stamp)
    ensures ChosenBackup(names, stampOf, undoTs).None? <==>
              forall n :: n in names && stampOf(n).Some? ==> !StampLeq(stampOf(n).value, undoTs)
    ensures ChosenBackup(names, stampOf, undoTs).Some? ==>
              var b := ChosenBackup(names, stampOf, undoTs).value;
              && b in names && stampOf(b).Some? && StampLeq(stampOf(b).value, undoTs)
              && forall n :: n in names && stampOf(n).Some? && StampLeq(stampOf(n).value, undoTs) ==>
                   StampLeq(stampOf(n).value, stampOf(b).value)
  {
    var cs := Candidates(names, stampOf, undoTs);
    forall n | n in names && stampOf(n).Some? && StampLeq(stampOf(n).value, undoTs)
      ensures Candidate(stampOf(n).value, n) in cs
    {
    }
    if cs != [] {
      var r := FirstNewest(cs);
      assert cs[r] in cs;
      forall n | n in names && stampOf(n).Some? && StampLeq(stampOf(n).value, undoTs)
        ensures StampLeq(stampOf(n).value, stampOf(cs[r].name).value)
      {
        var c := Candidate(stampOf(n).value, n);
        assert c in cs;
        var k :| 0 <= k < |cs| && cs[k] == c;
      }
    }
  }

  /** The fixed message appears exactly when no line was written. */
  lemma SummaryTextMessage(details: seq<string>)
    ensures SummaryText(details) == NoFieldsMessage <==> details == []
  {
    if details != [] {
      assert SummaryText(details)[4] == SummaryPrefix[4];
    }
  }

  /** A missing `value` is shown as the marker, in quotes as `repr()` writes it. */
  lemma MissingValueShown(field: string, config: Value, json: JsonCodec)
    requires config.VMap? && "value" !in config.fields
    ensures DetailLine(field, config, json) == field + " = '" + NotSetMarker + "'"
  {
  }

  /**
   * A summary exists exactly when the undo file is there, its name carries a
   * time, the backup directory holds a backup not after it, and that
   * backup's `updates` is a dict; it is the fixed message exactly when no
   * entry of `updates` is enabled, and otherwise lists the enabled entries
   * in sorted order.
   */
  lemma SummaryOfBackup(inputs: SummaryInputs)
    ensures UndoSummary(inputs).Some? <==>
              && inputs.undoIsFile && UndoTimestampOf(inputs.undoName).Some? && inputs.backupDirExists
              && ChosenBackup(inputs.backupNames, BackupStampOf, UndoTimestampOf(inputs.undoName).value).Some?
              && BackupUpdates(inputs.backups(ChosenBackup(inputs.backupNames, BackupStampOf, UndoTimestampOf(inputs.undoName).value).value)).Some?
    ensures UndoSummary(inputs).Some? ==>
              var updates := BackupUpdates(inputs.backups(ChosenBackup(inputs.backupNames, BackupStampOf, UndoTimestampOf(inputs.undoName).value).value)).value;
              var details := Details(SortedSeq(updates.Keys), updates, inputs.json);
              && (UndoSummary(inputs).value == NoFieldsMessage <==> forall f :: f in updates ==> !EnabledEntry(updates[f]))
              && (forall line :: line in details <==> exists f :: f in updates && EnabledEntry(updates[f]) && line == DetailLine(f, updates[f], inputs.json))
              && (details != [] ==> UndoSummary(inputs).value == SummaryPrefix + Join(", ", details))
  {
    if UndoSummary(inputs).Some? {
      var updates := BackupUpdates(inputs.backups(ChosenBackup(inputs.backupNames, BackupStampOf, UndoTimestampOf(inputs.undoName).value).value)).value;
      SummaryTextMessage(Details(SortedSeq(updates.Keys), updates, inputs.json));
    }
  }

  /** A name of fewer than four '_'-parts gives no summary. */
  lemma ShortNameNoSummary(inputs: SummaryInputs)
    requires |Split(Stem(inputs.undoName), '_')| < 4
    ensures UndoSummary(inputs) == None
  {
  }

  // ----- perform_undo -----

  /** The checks before any restore: the file must hold a non-empty list, and the tool must be there. */
  predicate UndoFileUsable(inputs: UndoInputs)
  {
    inputs.content.Some? && inputs.content.value.VList? && inputs.content.value.items != [] && inputs.toolReady
  }

  /**
   * An unusable file or a missing tool ends with 1 and sends nothing; an
   * entry that is not a dict raises before anything is sent; otherwise the
   * restore sends the stored records that carry an id, only after the prompt
   * was confirmed or skipped, and ends with 1 exactly when one of them
   * failed.
   */
  lemma UndoOutcomes(inputs: UndoInputs)
    ensures var run := UndoResult(inputs);
            && (!UndoFileUsable(inputs) ==> run == UndoRun(UndoExit(1), []))
            && (run.outcome == UndoRaised <==>
                  UndoFileUsable(inputs) && exists v :: v in inputs.content.value.items && !v.VMap?)
            && (run.sent != [] ==>
                  && UndoFileUsable(inputs) && (inputs.autoConfirm || inputs.confirmAnswer)
                  && forall p :: p in run.sent <==> VMap(p) in inputs.content.value.items && Truthy(Get(p, "id", VNull)))
            && (run.outcome == UndoExit(1) <==>
                  !UndoFileUsable(inputs) || exists k :: 0 <= k < |run.sent| && !inputs.updateOk(run.sent[k]))
            && (run.outcome == UndoExit(0) || run.outcome == UndoExit(1) || run.outcome == UndoRaised)
  {
    if UndoFileUsable(inputs) {
      var items := inputs.content.value.items;
      var r := RestorePayloads(items);
      if r.None? {
        var k :| 0 <= k < |items| && !items[k].VMap?;
        assert items[k] in items;
      } else {
        assert forall v :: v in items ==> v.VMap? by {
          forall v | v in items ensures v.VMap? {
            var k :| 0 <= k < |items| && items[k] == v;
          }
        }
      }
    }
  }

  /** With every stored record carrying an id and every restore succeeding, the undo sends them all and ends with 0. */
  lemma UndoRestoresEverything(inputs: UndoInputs)
    requires UndoFileUsable(inputs) && (inputs.autoConfirm || inputs.confirmAnswer)
    requires forall v :: v in inputs.content.value.items ==> v.VMap? && Truthy(Get(v.fields, "id", VNull)) && inputs.updateOk(v.fields)
    ensures UndoResult(inputs).outcome == UndoExit(0)
    ensures forall v :: v in inputs.content.value.items ==> v.fields in UndoResult(inputs).sent
  {
    var items := inputs.content.value.items;
    assert forall k :: 0 <= k < |items| ==> items[k].VMap? by {
      forall k | 0 <= k < |items| ensures items[k].VMap? {
        assert items[k] in items;
      }
    }
    var ps := RestorePayloads(items).value;
    forall k | 0 <= k < |ps| ensures inputs.updateOk(ps[k]) {
      assert ps[k] in ps;
    }
  }

  // ----- save_undo_data -----

  /**
   * A saved snapshot is not empty; each record is the detail, fetched as a
   * dict, of a channel the update configuration's filters select that has a
   * truthy id; and its name carries the time of the save.
   */
  lemma SavedSnapshot(inputs: SaveInputs)
    requires ValidStamp(inputs.now)
    ensures SaveUndo(inputs).Saved? ==>
              && inputs.toolReady && inputs.allChannels.Some? && FiltersOf(inputs.updateConfig).Some?
              && SaveUndo(inputs).data != []
              && UndoTimestampOf(SaveUndo(inputs).name) == Some(Millis(inputs.now))
              && forall d :: d in SaveUndo(inputs).data ==>
                   exists c :: c in BaseFilterChannels(inputs.allChannels.value, FiltersOf(inputs.updateConfig).value, inputs.json).value &&
                     c in inputs.allChannels.value && c.VMap? && Truthy(Get(c.fields, "id", VNull)) &&
                     inputs.details(Get(c.fields, "id", VNull)) == Some(VMap(d))
  {
    if SaveUndo(inputs).Saved? {
      var filtered := BaseFilterChannels(inputs.allChannels.value, FiltersOf(inputs.updateConfig).value, inputs.json).value;
      SublistMembers(filtered, inputs.allChannels.value);
      UndoNameTimestamp(inputs.apiType, Stem(inputs.configFile), inputs.now);
      var ids := ChannelIds(filtered).value;
      forall d | d in SaveUndo(inputs).data
        ensures exists c :: c in filtered && c in inputs.allChannels.value && c.VMap? && Truthy(Get(c.fields, "id", VNull)) &&
                  inputs.details(Get(c.fields, "id", VNull)) == Some(VMap(d))
      {
        var id :| id in ids && inputs.details(id) == Some(VMap(d));
        var c :| c in filtered && c.VMap? && Get(c.fields, "id", VNull) == id;
      }
    }
  }

  /** Nothing is saved without the tool, without channels, or when the filters select none of them. */
  lemma NothingToSave(inputs: SaveInputs)
    requires ValidStamp(inputs.now)
    requires !inputs.toolReady || inputs.allChannels.None? || inputs.allChannels.value == [] ||
             (FiltersOf(inputs.updateConfig).Some? &&
              BaseFilterChannels(inputs.allChannels.value, FiltersOf(inputs.updateConfig).value, inputs.json) == Returns([]))
    ensures SaveUndo(inputs) == NotSaved
  {
  }

  /**
   * The filtering in the save is outside any handler: once there are
   * channels and filters, a filter that raises makes the save raise.
   */
  lemma FilterRaiseEscapesSave(inputs: SaveInputs)
    requires ValidStamp(inputs.now)
    requires inputs.toolReady && inputs.allChannels.Some? && inputs.allChannels.value != []
    requires FiltersOf(inputs.updateConfig).Some?
    requires BaseFilterChannels(inputs.allChannels.value, FiltersOf(inputs.updateConfig).value, inputs.json) == Raises
    ensures SaveUndo(inputs) == SaveRaised
  {
  }
}
