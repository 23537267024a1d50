/**
 * Field normalisation (oneapi_tool_utils/data_helpers.py): every comparison of
 * list-like fields (models, group, tag) goes through `NormalizeToSet`, every
 * comparison of dict-like fields (model_mapping, setting, ...) through
 * `NormalizeToDict`.
 */
module DataHelpers {
  import opened Wrappers
  import opened PyStrings
  import opened Values
  import opened Engines

  /** The trimmed, non-empty pieces of `s.split(',')`. */
  function CommaPieces(s: string): (r: set<string>)
    ensures forall x :: x in r ==> x != "" && IsTrimmed(x)
  {
    var pieces := Split(s, ',');
    var r := set p | p in pieces && Strip(p) != "" :: Strip(p);
    assert forall x :: x in r ==> x != "" && IsTrimmed(x) by {
      forall x | x in r ensures x != "" && IsTrimmed(x) {
        var p :| p in pieces && Strip(p) != "" && Strip(p) == x;
        StripProperties(p);
      }
    }
    r
  }

  /** `{str(item).strip() for item in items if item is not None and str(item).strip()}`. */
  function ItemSet(items: seq<Value>): (r: set<string>)
    ensures forall x :: x in r ==> x != "" && IsTrimmed(x)
  {
    var r := set item | item in items && item != VNull && Strip(PyStr(item)) != "" :: Strip(PyStr(item));
    assert forall x :: x in r ==> x != "" && IsTrimmed(x) by {
      forall x | x in r ensures x != "" && IsTrimmed(x) {
        var item :| item in items && item != VNull && Strip(PyStr(item)) != "" && Strip(PyStr(item)) == x;
        StripProperties(PyStr(item));
      }
    }
    r
  }

  /**
   * `normalize_to_set(value)`: None gives the empty set, a list its stripped
   * non-blank items (commas inside an item are kept), a string its trimmed
   * non-empty comma pieces, and any other value the comma pieces of `str(value)`.
   */
  function NormalizeToSet(value: Value): (r: set<string>)
    ensures forall x :: x in r ==> x != "" && Strip(x) == x
  {
    var r :=
      match value
      case VNull => {}
      case VList(items) => ItemSet(items)
      case VStr(s) => if Strip(s) == "" then {} else CommaPieces(s)
      case _ =>
        var text := PyStr(value);
        if Strip(text) == "" then {} else CommaPieces(text);
    assert forall x :: x in r ==> Strip(x) == x by {
      forall x | x in r ensures Strip(x) == x {
        StripOfTrimmed(x);
      }
    }
    r
  }

  /**
   * `normalize_to_dict(value)`: None and blank strings give {}, a dict is
   * returned as it is, other text is decoded as JSON and kept only when it
   * decodes to an object; every other input gives {}. It never fails.
   */
  function NormalizeToDict(value: Value, json: JsonCodec): (r: map<string, Value>)
    ensures value.VMap? ==> r == value.fields
    ensures !value.VMap? && !value.VStr? ==> r == map[]
    ensures value.VStr? && r != map[] ==> json.loads(value.s) == Some(VMap(r))
    ensures value.VStr? && Strip(value.s) == "" ==> r == map[]
    ensures value.VStr? && Strip(value.s) != "" && json.loads(value.s).Some? && json.loads(value.s).value.VMap? ==>
      r == json.loads(value.s).value.fields
  {
    match value
    case VNull => map[]
    case VMap(m) => m
    case VStr(s) =>
      if Strip(s) == "" then map[]
      else
        (match json.loads(s)
         case Some(VMap(m)) => m
         case _ => map[])
    case _ => map[]
  }

  // ----- Properties -----

  /** None and any blank or whitespace-only string normalise to the empty set. */
  lemma NormalizeToSetBlank(value: Value)
    requires value == VNull || (value.VStr? && IsBlank(value.s))
    ensures NormalizeToSet(value) == {}
  {
    if value.VStr? {
      StripProperties(value.s);
    }
  }

  /** For string input, the result is exactly the trimmed non-empty comma pieces. */
  lemma NormalizeToSetOfString(s: string, x: string)
    ensures x in NormalizeToSet(VStr(s)) <==> x != "" && exists p :: p in Split(s, ',') && Strip(p) == x
  {
    var pieces := Split(s, ',');
    if Strip(s) == "" {
      assert NormalizeToSet(VStr(s)) == {};
      forall p | p in pieces ensures Strip(p) == "" {
        StripProperties(s);
        JoinSplit(s, ',');
        PieceOfBlank(pieces, p, ',');
        StripProperties(p);
      }
    } else {
      assert NormalizeToSet(VStr(s)) == CommaPieces(s);
    }
  }

  /** No element of a normalised string holds a comma. */
  lemma NormalizeToSetCommaFree(s: string, x: string)
    requires x in NormalizeToSet(VStr(s))
    ensures ',' !in x
  {
    NormalizeToSetOfString(s, x);
    var p :| p in Split(s, ',') && Strip(p) == x;
    SplitPiecesFree(s, ',');
    if ',' in x {
      StripChars(p, ',');
    }
  }

  /** Every piece of a split of a blank string is blank. */
  lemma {:induction false} PieceOfBlank(pieces: seq<string>, p: string, sep: char)
    requires IsBlank(Join([sep], pieces))
    requires p in pieces
    ensures IsBlank(p)
    decreases |pieces|
  {
    if |pieces| > 1 {
      var j := Join([sep], pieces);
      var rest := Join([sep], pieces[1..]);
      assert j == pieces[0] + [sep] + rest;
      if p == pieces[0] {
        assert forall i :: 0 <= i < |p| ==> p[i] == j[i];
      } else {
        assert p in pieces[1..];
        assert forall i :: 0 <= i < |rest| ==> rest[i] == j[|pieces[0]| + 1 + i];
        PieceOfBlank(pieces[1..], p, sep);
      }
    }
  }

  /** List input keeps every non-None item whole: its stripped text, never split at commas. */
  lemma NormalizeToSetOfList(items: seq<Value>, x: string)
    ensures x in NormalizeToSet(VList(items)) <==>
      x != "" && exists item :: item in items && item != VNull && Strip(PyStr(item)) == x
  {
  }

  /**
   * Round trip: a set of non-empty, trimmed, comma-free strings, sorted and
   * joined with ',' (the newapi list wire form), normalises back to itself.
   */
  lemma NormalizeJoinedSet(names: set<string>)
    requires forall x :: x in names ==> x != "" && IsTrimmed(x) && ',' !in x
    ensures NormalizeToSet(VStr(Join([','], SortedSeq(names)))) == names
  {
    var xs := SortedSeq(names);
    var text := Join([','], xs);
    if names == {} {
      assert text == "";
    } else {
      SplitJoin(xs, ',');
      assert Split(text, ',') == xs;
      assert Strip(text) != "" by {
        var x := xs[0];
        assert x in names;
        if Strip(text) == "" {
          StripProperties(text);
          PieceOfBlank(xs, x, ',');
          StripProperties(x);
          StripOfTrimmed(x);
        }
      }
      forall x ensures x in NormalizeToSet(VStr(text)) <==> x in names {
        NormalizeToSetOfString(text, x);
        if x in names {
          StripOfTrimmed(x);
        }
        if x in NormalizeToSet(VStr(text)) {
          var p :| p in xs && Strip(p) == x;
          StripOfTrimmed(p);
        }
      }
    }
  }

  /** A dict normalises to itself, so normalising the result again changes nothing. */
  lemma NormalizeToDictIdempotent(value: Value, json: JsonCodec)
    ensures NormalizeToDict(VMap(NormalizeToDict(value, json)), json) == NormalizeToDict(value, json)
  {
  }

  /** The JSON text of a dict normalises back to that dict (for a lawful codec). */
  lemma NormalizeToDictOfJson(m: map<string, Value>, json: JsonCodec)
    requires LawfulJson(json)
    ensures NormalizeToDict(VStr(json.dumps(VMap(m))), json) == m
  {
    var text := json.dumps(VMap(m));
    assert json.loads(text) == Some(VMap(m)) && !IsBlank(text);
    assert Strip(text) != "" by {
      StripProperties(text);
    }
  }

  /** Text that is not a JSON object, or is not JSON at all, normalises to {}. */
  lemma NormalizeToDictNotObject(s: string, json: JsonCodec)
    requires json.loads(s).None? || !json.loads(s).value.VMap?
    ensures NormalizeToDict(VStr(s), json) == map[]
  {
  }
}
