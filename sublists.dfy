/** Order-preserving selection from a sequence, the shape of a Python list comprehension with a condition. */
module Sublists {
  import opened Wrappers

  /** `r` is `s` with some elements left out, the rest in their original order. */
  predicate IsSublist<T(==)>(r: seq<T>, s: seq<T>)
    decreases |s|
  {
    if r == [] then true
    else if s == [] then false
    else if r[0] == s[0] && IsSublist(r[1..], s[1..]) then true
    else IsSublist(r, s[1..])
  }

  /** Every element of a sublist is an element of the whole. */
  lemma {:induction false} SublistMembers<T>(r: seq<T>, s: seq<T>)
    requires IsSublist(r, s)
    ensures forall x :: x in r ==> x in s
    decreases |s|
  {
    if r != [] {
      if r[0] == s[0] && IsSublist(r[1..], s[1..]) {
        SublistMembers(r[1..], s[1..]);
        assert forall x :: x in r ==> x == r[0] || x in r[1..];
        assert forall x :: x in s[1..] ==> x in s;
      } else {
        SublistMembers(r, s[1..]);
        assert forall x :: x in s[1..] ==> x in s;
      }
    }
  }

  /** A sublist is no longer than the whole. */
  lemma {:induction false} SublistLength<T>(r: seq<T>, s: seq<T>)
    requires IsSublist(r, s)
    ensures |r| <= |s|
    decreases |s|
  {
    if r != [] {
      if r[0] == s[0] && IsSublist(r[1..], s[1..]) {
        SublistLength(r[1..], s[1..]);
      } else {
        SublistLength(r, s[1..]);
      }
    }
  }

  /** `[x for x in s if keep(x)]`. */
  function Select<T(==,!new)>(s: seq<T>, keep: T -> bool): (r: seq<T>)
    ensures |r| <= |s|
    ensures forall x :: x in r <==> x in s && keep(x)
  {
    if s == [] then [] else (if keep(s[0]) then [s[0]] else []) + Select(s[1..], keep)
  }

  /** The selection keeps the input's order. */
  lemma {:induction false} SelectIsSublist<T(!new)>(s: seq<T>, keep: T -> bool)
    ensures IsSublist(Select(s, keep), s)
    decreases |s|
  {
    if s != [] {
      SelectIsSublist(s[1..], keep);
      if keep(s[0]) {
        assert Select(s, keep) == [s[0]] + Select(s[1..], keep);
        assert Select(s, keep)[1..] == Select(s[1..], keep);
      } else {
        assert Select(s, keep) == [] + Select(s[1..], keep) == Select(s[1..], keep);
      }
    }
  }

  /** Selecting from a longer sequence: the last element is kept after the rest when it qualifies. */
  lemma {:induction false} SelectAppend<T(!new)>(s: seq<T>, x: T, keep: T -> bool)
    ensures Select(s + [x], keep) == Select(s, keep) + (if keep(x) then [x] else [])
    decreases |s|
  {
    if s != [] {
      assert (s + [x])[1..] == s[1..] + [x];
      SelectAppend(s[1..], x, keep);
    }
  }

  /** Selecting with a condition that always holds changes nothing. */
  lemma {:induction false} SelectAll<T(!new)>(s: seq<T>, keep: T -> bool)
    requires forall x :: x in s ==> keep(x)
    ensures Select(s, keep) == s
    decreases |s|
  {
    if s != [] {
      SelectAll(s[1..], keep);
    }
  }

  /** Selecting twice with the same condition is selecting once. */
  lemma {:induction false} SelectIdempotent<T(!new)>(s: seq<T>, keep: T -> bool)
    ensures Select(Select(s, keep), keep) == Select(s, keep)
    decreases |s|
  {
    if s != [] {
      SelectIdempotent(s[1..], keep);
      var once := Select(s, keep);
      if keep(s[0]) {
        assert once == [s[0]] + Select(s[1..], keep);
        assert once[0] == s[0] && once[1..] == Select(s[1..], keep);
        assert Select(once, keep) == [s[0]] + Select(once[1..], keep);
      } else {
        assert once == [] + Select(s[1..], keep) == Select(s[1..], keep);
      }
    }
  }

  /** The elements a test that may raise keeps: those for which it returns True. */
  function ReturnsTrue<T>(test: T -> Outcome<bool>): T -> bool
  {
    x => test(x) == Returns(true)
  }

  /** `[x for x in s if test(x)]` for a test that may raise: the first raise ends the comprehension. */
  function SelectOrRaise<T(==,!new)>(s: seq<T>, test: T -> Outcome<bool>): (r: Outcome<seq<T>>)
    ensures r == Raises <==> exists x :: x in s && test(x) == Raises
    ensures r.Returns? ==> IsSublist(r.value, s)
    ensures r.Returns? ==> forall x :: x in r.value <==> x in s && test(x) == Returns(true)
    ensures r.Returns? ==> r.value == Select(s, ReturnsTrue(test))
    decreases |s|
  {
    if s == [] then Returns([])
    else
      assert forall x :: x in s <==> x == s[0] || x in s[1..];
      match test(s[0])
      case Raises => Raises
      case Returns(keep) =>
        match SelectOrRaise(s[1..], test)
        case Raises => Raises
        case Returns(rest) =>
          var r := (if keep then [s[0]] else []) + rest;
          assert keep ==> r[0] == s[0] && r[1..] == rest;
          assert !keep ==> r == rest;
          Returns(r)
  }

  /** A comprehension whose test returns True for every element keeps them all. */
  lemma {:induction false} SelectOrRaiseAll<T(!new)>(s: seq<T>, test: T -> Outcome<bool>)
    requires forall x :: x in s ==> test(x) == Returns(true)
    ensures SelectOrRaise(s, test) == Returns(s)
    decreases |s|
  {
    if s != [] {
      SelectOrRaiseAll(s[1..], test);
      assert [s[0]] + s[1..] == s;
    }
  }
}
