/**
 * The dynamically typed values that channel records, configuration files and
 * API payloads are made of (decoded JSON / YAML), with the Python semantics
 * the tools rely on: truthiness, `==`, `str()`, `repr()`, `int()` and
 * `dict.get`.
 */
module Values {
  import opened Wrappers
  import opened PyStrings

  /** A decoded JSON / YAML value; dictionary keys are strings. */
  datatype Value =
    | VNull
    | VStr(s: string)
    | VInt(i: int)
    | VBool(b: bool)
    | VList(items: seq<Value>)
    | VMap(fields: map<string, Value>)

  /** A channel record or any other dictionary. */
  type Record = map<string, Value>

  /** Python truthiness (`if v:`). */
  predicate Truthy(v: Value)
  {
    match v
    case VNull => false
    case VStr(s) => s != ""
    case VInt(i) => i != 0
    case VBool(b) => b
    case VList(xs) => xs != []
    case VMap(m) => m != map[]
  }

  /** `d.get(key, default)`. */
  function Get(d: Record, key: string, default: Value): (r: Value)
    ensures key in d ==> r == d[key]
    ensures key !in d ==> r == default
  {
    if key in d then d[key] else default
  }

  /** `isinstance(v, int)`: true for integers and for booleans. */
  predicate IsNumber(v: Value)
  {
    v.VInt? || v.VBool?
  }

  function NumOf(v: Value): int
    requires IsNumber(v)
  {
    if v.VInt? then v.i else if v.b then 1 else 0
  }

  /** Python `==`: booleans equal the integers 0 and 1, containers compare element-wise. */
  predicate PyEq(a: Value, b: Value)
  {
    match a
    case VNull => b.VNull?
    case VStr(s) => b.VStr? && b.s == s
    case VInt(_) => IsNumber(b) && NumOf(a) == NumOf(b)
    case VBool(_) => IsNumber(b) && NumOf(a) == NumOf(b)
    case VList(xs) =>
      b.VList? && |xs| == |b.items| && forall i :: 0 <= i < |xs| ==> PyEq(xs[i], b.items[i])
    case VMap(m) =>
      b.VMap? && m.Keys == b.fields.Keys && forall k :: k in m ==> PyEq(m[k], b.fields[k])
  }

  lemma {:induction false} PyEqReflexive(a: Value)
    ensures PyEq(a, a)
  {
    match a
    case VList(xs) =>
      forall i | 0 <= i < |xs| ensures PyEq(xs[i], xs[i]) {
        PyEqReflexive(xs[i]);
      }
    case VMap(m) =>
      forall k | k in m ensures PyEq(m[k], m[k]) {
        PyEqReflexive(m[k]);
      }
    case _ =>
  }

  lemma {:induction false} PyEqSymmetric(a: Value, b: Value)
    requires PyEq(a, b)
    ensures PyEq(b, a)
  {
    match a
    case VList(xs) =>
      forall i | 0 <= i < |xs| ensures PyEq(b.items[i], xs[i]) {
        PyEqSymmetric(xs[i], b.items[i]);
      }
    case VMap(m) =>
      forall k | k in m ensures PyEq(b.fields[k], m[k]) {
        PyEqSymmetric(m[k], b.fields[k]);
      }
    case _ =>
  }

  lemma {:induction false} PyEqTransitive(a: Value, b: Value, c: Value)
    requires PyEq(a, b) && PyEq(b, c)
    ensures PyEq(a, c)
  {
    match a
    case VList(xs) =>
      forall i | 0 <= i < |xs| ensures PyEq(xs[i], c.items[i]) {
        PyEqTransitive(xs[i], b.items[i], c.items[i]);
      }
    case VMap(m) =>
      forall k | k in m ensures PyEq(m[k], c.fields[k]) {
        PyEqTransitive(m[k], b.fields[k], c.fields[k]);
      }
    case _ =>
  }

  /** `x in xs` for a Python list: some element compares equal. */
  predicate InList(x: Value, xs: seq<Value>)
  {
    exists i | 0 <= i < |xs| :: PyEq(x, xs[i])
  }

  /** A value Python can hash, as set and dict lookups need: anything but a list or a dict. */
  predicate Hashable(v: Value)
  {
    !(v.VList? || v.VMap?)
  }

  /** A value Python can iterate: lists, strings and dicts; iterating anything else raises TypeError. */
  predicate Iterable(v: Value)
  {
    v.VList? || v.VStr? || v.VMap?
  }

  /** `x in container` where it answers: list membership by `==`, a substring of a string, a key of a dict. */
  predicate InContainer(x: Value, container: Value)
  {
    match container
    case VList(xs) => InList(x, xs)
    case VStr(s) => x.VStr? && Contains(s, x.s)
    case VMap(m) => x.VStr? && x.s in m
    case _ => false
  }

  /**
   * `x in container`: a non-string in a string, an unhashable value in a
   * dict, and any use of a number, a boolean or None as the container raise
   * TypeError.
   */
  function Membership(x: Value, container: Value): (r: Outcome<bool>)
    ensures r.Returns? ==> r.value == InContainer(x, container)
    ensures r == Raises <==>
      !Iterable(container) || (container.VStr? && !x.VStr?) || (container.VMap? && !Hashable(x))
  {
    match container
    case VList(xs) => Returns(InList(x, xs))
    case VStr(s) => if x.VStr? then Returns(Contains(s, x.s)) else Raises
    case VMap(m) => if !Hashable(x) then Raises else Returns(x.VStr? && x.s in m)
    case _ => Raises
  }

  /** Python's `repr()` of a string: single quotes unless the text holds a single quote and no double quote. */
  function QuoteString(s: string): string
  {
    if '\'' in s && '"' !in s then "\"" + s + "\"" else "'" + s + "'"
  }

  /** `repr(v)`; dictionaries are rendered with their keys in sorted order. */
  function Repr(v: Value): string
  {
    match v
    case VNull => "None"
    case VStr(s) => QuoteString(s)
    case VInt(i) => IntToString(i)
    case VBool(b) => if b then "True" else "False"
    case VList(xs) => "[" + Join(", ", seq(|xs|, i requires 0 <= i < |xs| => Repr(xs[i]))) + "]"
    case VMap(m) =>
      var ks := SortedSeq(m.Keys);
      "{" + Join(", ", seq(|ks|, i requires 0 <= i < |ks| => QuoteString(ks[i]) + ": " + Repr(m[ks[i]]))) + "}"
  }

  /** `str(v)`: the text itself for a string, `repr(v)` otherwise. */
  function PyStr(v: Value): (r: string)
    ensures v.VStr? ==> r == v.s
  {
    if v.VStr? then v.s else Repr(v)
  }

  /** `int(v)`; None stands for the ValueError / TypeError Python raises. */
  function PyInt(v: Value): (r: Option<int>)
    ensures IsNumber(v) ==> r == Some(NumOf(v))
    ensures v.VStr? ==> r == ParseInt(v.s)
    ensures (v.VNull? || v.VList? || v.VMap?) ==> r == None
  {
    match v
    case VInt(i) => Some(i)
    case VBool(b) => Some(if b then 1 else 0)
    case VStr(s) => ParseInt(s)
    case _ => None
  }
}
