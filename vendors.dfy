/**
 * The two vendor back-ends (oneapi_tool_utils/newapi_channel_tool.py and
 * oneapi_tool_utils/voapi_channel_tool.py) and the formatter contract of the
 * abstract base class they implement: how a list-like field, a dict-like
 * field and a simple field are put on the wire, and how the voapi channel
 * test classifies a failed test.
 *
 * The abstract base class with its two subclasses is a `Vendor` value, and
 * each formatter dispatches on it.
 */
module Vendors {
  import opened Wrappers
  import opened PyStrings
  import opened Values
  import opened Engines
  import opened DataHelpers

  datatype Vendor = NewApi | VoApi

  // ----- List-like fields -----

  /** The elements of a set of strings, stripped, with the blank ones dropped (duplicates kept). */
  function StrippedNonBlank(xs: seq<string>): (r: seq<string>)
    ensures |r| <= |xs|
  {
    if xs == [] then []
    else
      var rest := StrippedNonBlank(xs[1..]);
      if Strip(xs[0]) == "" then rest else [Strip(xs[0])] + rest
  }

  /**
   * `format_list_field_for_api(field, data_set)` on a set, the form every
   * caller uses. newapi joins the sorted elements with ','; voapi strips the
   * elements, drops the blank ones and joins the sorted rest.
   */
  function FormatListField(vendor: Vendor, names: set<string>): (r: Value)
    ensures r.VStr?
    ensures vendor.NewApi? ==> r.s == Join([','], SortedSeq(names))
  {
    match vendor
    case NewApi => VStr(Join([','], SortedSeq(names)))
    case VoApi => VStr(Join([','], SortStrings(StrippedNonBlank(SortedSeq(names)))))
  }

  /** The stripped non-blank `str()` of each item, in input order. */
  function ItemStrings(items: seq<Value>): (r: seq<string>)
    ensures |r| <= |items|
  {
    if items == [] then []
    else
      var rest := ItemStrings(items[1..]);
      var t := Strip(PyStr(items[0]));
      if t == "" then rest else [t] + rest
  }

  /** voapi `format_list_field_for_api` on a list: order kept, items stripped, blanks dropped. */
  function VoApiFormatList(items: seq<Value>): (r: string)
  {
    Join([','], ItemStrings(items))
  }

  /**
   * voapi `format_list_field_for_api` on any other value: it is iterated as a
   * collection (the characters of a string, the keys of a dict), and a value
   * that cannot be iterated gives "".
   */
  function VoApiFormatOther(v: Value): (r: string)
    requires !v.VList?
  {
    match v
    case VStr(s) =>
      var cs := set c | c in s && !IsSpace(c) :: [c];
      Join([','], SortedSeq(cs))
    case VMap(m) =>
      var ks := set k | k in m.Keys && Strip(k) != "" :: Strip(k);
      Join([','], SortedSeq(ks))
    case _ => ""
  }

  // ----- Dict-like fields -----

  /** `format_dict_field_for_api`: newapi sends the dict itself, voapi "" for {} and JSON text otherwise. */
  function FormatDictField(vendor: Vendor, m: map<string, Value>, json: JsonCodec): (r: Value)
    ensures vendor.NewApi? ==> r == VMap(m)
    ensures vendor.VoApi? ==> r.VStr? && (r.s == "" <==> m == map[] || json.dumps(VMap(m)) == "")
  {
    match vendor
    case NewApi => VMap(m)
    case VoApi => if m == map[] then VStr("") else VStr(json.dumps(VMap(m)))
  }

  // ----- Simple fields -----

  /** `format_field_value_for_api`: newapi coerces `priority` with `int()`, keeping the value when that fails; all else passes through. */
  function FormatFieldValue(vendor: Vendor, field: string, v: Value): (r: Value)
    ensures vendor.VoApi? || field != "priority" ==> r == v
    ensures vendor.NewApi? && field == "priority" && PyInt(v).Some? ==> r == VInt(PyInt(v).value)
    ensures vendor.NewApi? && field == "priority" && PyInt(v).None? ==> r == v
  {
    if vendor.NewApi? && field == "priority" then
      match PyInt(v)
      case Some(i) => VInt(i)
      case None => v
    else v
  }

  // ----- voapi channel test classification -----

  /** The `failure_type` strings of a failed channel test. */
  datatype FailureType =
    | Quota | ApiError | Auth | ServerError | UnknownHttp
    | ResponseFormat | Timeout | Network | Exception | ConfigError

  /** What the test request produced: a response, a timeout, a client (network) error, or another exception. */
  datatype HttpOutcome =
    | Response(status: int, body: string)
    | TimedOut
    | ClientError
    | OtherError

  datatype TestOutcome = Passed | Failed(kind: FailureType)

  /** The failure type of a non-200 status. */
  function StatusFailure(status: int): (r: FailureType)
    requires status != 200
    ensures r == Auth <==> status == 401
    ensures r == Quota <==> status == 429
    ensures r == ApiError <==> 400 <= status < 500 && status != 401 && status != 429
    ensures r == ServerError <==> status >= 500
    ensures r == UnknownHttp <==> status < 400
  {
    if status == 401 then Auth
    else if status == 429 then Quota
    else if 400 <= status < 500 then ApiError
    else if status >= 500 then ServerError
    else UnknownHttp
  }

  /** The failure type of a 200 response whose `success` is not `True`, given its message. */
  function MessageFailure(message: string): (r: FailureType)
    ensures r == Quota <==> Occurs("quota", Lower(message))
    ensures r != Quota ==> r == ApiError
  {
    var low := Lower(message);
    InsufficientQuotaMentionsQuota(low);
    if Contains(low, "quota") || Contains(low, "insufficient quota") then Quota else ApiError
  }

  /** The second test of the quota check is subsumed by the first. */
  lemma InsufficientQuotaMentionsQuota(low: string)
    ensures Occurs("insufficient quota", low) ==> Occurs("quota", low)
  {
    if Occurs("insufficient quota", low) {
      var i :| OccursAt("insufficient quota", low, i);
      assert low[i + 13..i + 18] == low[i..i + 18][13..18];
      assert OccursAt("quota", low, i + 13);
    }
  }

  /**
   * The verdict of voapi `test_channel_api` on a request outcome. On 200 the
   * body must decode to a dict (anything else that decodes is an attribute
   * error, reported as 'exception'), passes iff `success` is `True`, and
   * otherwise its `message` must be a string; without one the default text,
   * which mentions no quota, gives 'api_error'. On any
   * other status the body is decoded only to read `error_json['message']` when
   * `'message' in error_json`: the test fails with a type error for numbers,
   * booleans and null, and the read does for a string holding "message" or a
   * list holding it; both are reported as 'exception'.
   */
  function VoApiTestOutcome(outcome: HttpOutcome, json: JsonCodec): (r: TestOutcome)
    ensures r == Failed(Timeout) <==> outcome.TimedOut?
    ensures r == Failed(Network) <==> outcome.ClientError?
    ensures r == Failed(ResponseFormat) <==> outcome.Response? && outcome.status == 200 && json.loads(outcome.body).None?
    ensures r == Passed ==> outcome.Response? && outcome.status == 200
  {
    match outcome
    case TimedOut => Failed(Timeout)
    case ClientError => Failed(Network)
    case OtherError => Failed(Exception)
    case Response(status, body) =>
      if status == 200 then
        match json.loads(body)
        case None => Failed(ResponseFormat)
        case Some(VMap(m)) =>
          if Get(m, "success", VNull) == VBool(true) then Passed
          else if "message" !in m then Failed(ApiError)
          else
            (match m["message"]
             case VStr(msg) => Failed(MessageFailure(msg))
             case _ => Failed(Exception))
        case Some(_) => Failed(Exception)
      else
        match json.loads(body)
        case Some(VInt(_)) => Failed(Exception)
        case Some(VBool(_)) => Failed(Exception)
        case Some(VNull) => Failed(Exception)
        case Some(VStr(text)) => if Contains(text, "message") then Failed(Exception) else Failed(StatusFailure(status))
        case Some(VList(items)) => if InList(VStr("message"), items) then Failed(Exception) else Failed(StatusFailure(status))
        case _ => Failed(StatusFailure(status))
  }

  // ----- Properties -----

  /** Stripping elements that are already stripped and non-blank changes nothing. */
  lemma {:induction false} StrippedNonBlankOfTrimmed(xs: seq<string>)
    requires forall x :: x in xs ==> x != "" && Strip(x) == x
    ensures StrippedNonBlank(xs) == xs
    decreases |xs|
  {
    if xs != [] {
      assert xs[0] in xs;
      assert forall x :: x in xs[1..] ==> x in xs;
      StrippedNonBlankOfTrimmed(xs[1..]);
      assert xs == [xs[0]] + xs[1..];
    }
  }

  /** On a set of trimmed non-empty names (what `normalize_to_set` yields) both vendors put the same text on the wire. */
  lemma VendorsAgreeOnNormalSets(names: set<string>)
    requires forall x :: x in names ==> x != "" && IsTrimmed(x)
    ensures FormatListField(VoApi, names) == FormatListField(NewApi, names)
  {
    var xs := SortedSeq(names);
    assert forall x :: x in xs ==> x != "" && Strip(x) == x by {
      forall x | x in xs ensures x != "" && Strip(x) == x {
        assert x in names;
        StripOfTrimmed(x);
      }
    }
    StrippedNonBlankOfTrimmed(xs);
    assert Sorted(xs) by {
      forall i, j | 0 <= i < j < |xs| ensures LexLeq(xs[i], xs[j]) {
        assert LexLess(xs[i], xs[j]);
      }
    }
    SortStringsOfSorted(xs);
  }

  /** The list wire form of either vendor normalises back to the set it was made from (for comma-free normalised names). */
  lemma FormatListRoundTrip(vendor: Vendor, names: set<string>)
    requires forall x :: x in names ==> x != "" && IsTrimmed(x) && ',' !in x
    ensures NormalizeToSet(FormatListField(vendor, names)) == names
  {
    VendorsAgreeOnNormalSets(names);
    NormalizeJoinedSet(names);
  }

  /** The empty set is sent as "" by both vendors. */
  lemma FormatListEmpty(vendor: Vendor)
    ensures FormatListField(vendor, {}) == VStr("")
  {
    assert SortedSeq({}) == [];
  }

  /** The dict wire form of either vendor normalises back to the dict (for a lawful JSON codec). */
  lemma FormatDictRoundTrip(vendor: Vendor, m: map<string, Value>, json: JsonCodec)
    requires LawfulJson(json)
    ensures NormalizeToDict(FormatDictField(vendor, m, json), json) == m
  {
    if vendor.VoApi? && m != map[] {
      NormalizeToDictOfJson(m, json);
    }
  }

  /** Formatting a simple value twice is formatting it once. */
  lemma FormatFieldValueIdempotent(vendor: Vendor, field: string, v: Value)
    ensures FormatFieldValue(vendor, field, FormatFieldValue(vendor, field, v)) == FormatFieldValue(vendor, field, v)
  {
  }

  /** A newapi `priority` given as decimal text is sent as that integer. */
  lemma PriorityFromText(i: int)
    ensures FormatFieldValue(NewApi, "priority", VStr(IntToString(i))) == VInt(i)
  {
    ParseIntToString(i);
  }

  /** voapi keeps list order: formatting a concatenation formats the two parts and joins them. */
  lemma {:induction false} VoApiFormatListAppend(a: seq<Value>, b: seq<Value>)
    ensures ItemStrings(a + b) == ItemStrings(a) + ItemStrings(b)
    decreases |a|
  {
    if a == [] {
      assert a + b == b;
    } else {
      assert (a + b)[1..] == a[1..] + b;
      assert (a + b)[0] == a[0];
      VoApiFormatListAppend(a[1..], b);
    }
  }

  /** The voapi classification of a non-200 response whose body is not JSON follows the status table. */
  lemma VoApiStatusTable(status: int, body: string, json: JsonCodec)
    requires status != 200 && json.loads(body).None?
    ensures VoApiTestOutcome(Response(status, body), json) == Failed(StatusFailure(status))
  {
  }

  /** A test passes only on a 200 response whose JSON object has `success` equal to `True`. */
  lemma VoApiPassedIff(outcome: HttpOutcome, json: JsonCodec)
    ensures VoApiTestOutcome(outcome, json) == Passed <==>
      outcome.Response? && outcome.status == 200 &&
      json.loads(outcome.body).Some? && json.loads(outcome.body).value.VMap? &&
      Get(json.loads(outcome.body).value.fields, "success", VNull) == VBool(true)
  {
  }
}
