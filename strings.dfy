/**
 * Python string primitives that the channel tools rely on: `str.strip()`,
 * `str.split(',')`, `','.join(...)`, the substring operator `in`,
 * `str.lower()`, decimal `str(int)` / `int(str)` and `sorted()` on a set of
 * strings (code-point lexicographic order).
 */
module PyStrings {
  import opened Wrappers

  /** The characters for which Python's `str.isspace()` holds, which `strip()` removes. */
  predicate IsSpace(c: char)
  {
    c == ' ' || ('\t' <= c <= '\r') || ('\U{1C}' <= c <= '\U{1F}') || c == '\U{85}' || c == '\U{A0}'
    || c == '\U{1680}' || ('\U{2000}' <= c <= '\U{200A}') || c == '\U{2028}' || c == '\U{2029}'
    || c == '\U{202F}' || c == '\U{205F}' || c == '\U{3000}'
  }

  /** A string made only of whitespace (including the empty string). */
  predicate IsBlank(s: string)
  {
    forall i :: 0 <= i < |s| ==> IsSpace(s[i])
  }

  /** `s.lstrip()`: the suffix of `s` left after dropping leading whitespace. */
  function TrimLeft(s: string): (r: string)
    ensures |r| <= |s|
  {
    if s == [] || !IsSpace(s[0]) then s else TrimLeft(s[1..])
  }

  /** `lstrip()` drops a blank prefix and stops at the first non-space character. */
  lemma {:induction false} TrimLeftSpec(s: string)
    ensures TrimLeft(s) == s[|s| - |TrimLeft(s)|..]
    ensures IsBlank(s[..|s| - |TrimLeft(s)|])
    ensures TrimLeft(s) == [] || !IsSpace(TrimLeft(s)[0])
    decreases |s|
  {
    if s != [] && IsSpace(s[0]) {
      TrimLeftSpec(s[1..]);
      var k := |s| - |TrimLeft(s)|;
      assert s[1..][|s| - 1 - |TrimLeft(s)|..] == s[k..];
      assert forall i :: 1 <= i < k ==> s[..k][i] == s[1..][..k - 1][i - 1];
    }
  }

  /** `s.rstrip()`: the prefix of `s` left after dropping trailing whitespace. */
  function TrimRight(s: string): (r: string)
    ensures |r| <= |s|
  {
    if s == [] || !IsSpace(s[|s| - 1]) then s else TrimRight(s[..|s| - 1])
  }

  /** `rstrip()` drops a blank suffix and stops at the last non-space character. */
  lemma {:induction false} TrimRightSpec(s: string)
    ensures TrimRight(s) == s[..|TrimRight(s)|]
    ensures IsBlank(s[|TrimRight(s)|..])
    ensures TrimRight(s) == [] || !IsSpace(TrimRight(s)[|TrimRight(s)| - 1])
    decreases |s|
  {
    if s != [] && IsSpace(s[|s| - 1]) {
      TrimRightSpec(s[..|s| - 1]);
      var k := |TrimRight(s)|;
      assert s[..|s| - 1][..k] == s[..k];
      assert forall i :: 0 <= i < |s| - 1 - k ==> s[k..][i] == s[..|s| - 1][k..][i];
    }
  }

  /** `s.strip()`. */
  function Strip(s: string): string
  {
    TrimRight(TrimLeft(s))
  }

  /** A string equal to its own `strip()`: it neither starts nor ends with whitespace. */
  predicate IsTrimmed(s: string)
  {
    s == [] || (!IsSpace(s[0]) && !IsSpace(s[|s| - 1]))
  }

  lemma TrimRightKeepsHead(s: string)
    requires s != [] && !IsSpace(s[0])
    ensures TrimRight(s) != [] && TrimRight(s)[0] == s[0]
  {
    TrimRightSpec(s);
    assert s[0..] == s;
  }

  /** What `strip()` returns has no whitespace at either end, and is empty exactly on blank input. */
  lemma StripProperties(s: string)
    ensures IsTrimmed(Strip(s))
    ensures Strip(s) == [] <==> IsBlank(s)
  {
    var l := TrimLeft(s);
    var r := TrimRight(l);
    TrimLeftSpec(s);
    TrimRightSpec(l);
    if l != [] {
      TrimRightKeepsHead(l);
    }
    if r == [] {
      assert l == [];
      assert s[..|s|] == s;
    }
    if l != [] {
      assert l[0] == s[|s| - |l|];
    }
  }

  /** `strip()` is idempotent, and leaves a trimmed string alone. */
  lemma StripOfTrimmed(s: string)
    requires IsTrimmed(s)
    ensures Strip(s) == s
  {
  }

  lemma StripIdempotent(s: string)
    ensures Strip(Strip(s)) == Strip(s)
  {
    StripProperties(s);
    StripOfTrimmed(Strip(s));
  }

  /** Every character of `strip(s)` occurs in `s`. */
  lemma StripChars(s: string, c: char)
    requires c in Strip(s)
    ensures c in s
  {
    var l := TrimLeft(s);
    var r := TrimRight(l);
    TrimLeftSpec(s);
    TrimRightSpec(l);
    var i :| 0 <= i < |r| && r[i] == c;
    assert l[i] == c;
    assert s[|s| - |l| + i] == c;
  }

  /** `sep.join(xs)`. */
  function Join(sep: string, xs: seq<string>): string
  {
    if |xs| == 0 then "" else if |xs| == 1 then xs[0] else xs[0] + sep + Join(sep, xs[1..])
  }

  /** `s.split(sep)` for a one-character separator: always at least one piece. */
  function Split(s: string, sep: char): (r: seq<string>)
    ensures |r| >= 1
  {
    if s == [] then [""]
    else if s[0] == sep then [""] + Split(s[1..], sep)
    else
      var rest := Split(s[1..], sep);
      [[s[0]] + rest[0]] + rest[1..]
  }

  /** No piece of a split holds the separator. */
  lemma {:induction false} SplitPiecesFree(s: string, sep: char)
    ensures forall k :: 0 <= k < |Split(s, sep)| ==> sep !in Split(s, sep)[k]
    decreases |s|
  {
    if s != [] {
      SplitPiecesFree(s[1..], sep);
      if s[0] != sep {
        var rest := Split(s[1..], sep);
        assert sep !in rest[0];
        assert sep !in [s[0]] + rest[0];
      }
    }
  }

  lemma JoinCons(sep: string, x: string, xs: seq<string>)
    requires |xs| >= 1
    ensures Join(sep, [x] + xs) == x + sep + Join(sep, xs)
  {
    assert ([x] + xs)[1..] == xs;
  }

  /** Re-joining the pieces of a split gives back the original string. */
  lemma {:induction false} JoinSplit(s: string, sep: char)
    ensures Join([sep], Split(s, sep)) == s
    decreases |s|
  {
    if s == [] {
    } else {
      var rest := Split(s[1..], sep);
      JoinSplit(s[1..], sep);
      assert s == [s[0]] + s[1..];
      if s[0] == sep {
        assert Split(s, sep) == [""] + rest;
        JoinCons([sep], "", rest);
      } else {
        assert Split(s, sep) == [[s[0]] + rest[0]] + rest[1..];
        JoinPrepend(s[0], rest, sep);
      }
    }
  }

  /** Prefixing the first piece with a character prefixes the join with it. */
  lemma JoinPrepend(c: char, rest: seq<string>, sep: char)
    requires |rest| >= 1
    ensures Join([sep], [[c] + rest[0]] + rest[1..]) == [c] + Join([sep], rest)
  {
    var head, tail := rest[0], rest[1..];
    if |rest| > 1 {
      var j := Join([sep], tail);
      JoinCons([sep], [c] + head, tail);
      JoinCons([sep], head, tail);
      assert rest == [head] + tail;
      ConcatAssoc([c], head, [sep] + j);
      ConcatAssoc([c] + head, [sep], j);
      ConcatAssoc(head, [sep], j);
    }
  }

  lemma ConcatAssoc<T>(a: seq<T>, b: seq<T>, c: seq<T>)
    ensures (a + b) + c == a + (b + c)
  {
  }

  /** Splitting a join of separator-free pieces gives back the pieces. */
  lemma {:induction false} SplitJoin(xs: seq<string>, sep: char)
    requires |xs| >= 1
    requires forall k :: 0 <= k < |xs| ==> sep !in xs[k]
    ensures Split(Join([sep], xs), sep) == xs
    decreases |xs|, |xs[0]|
  {
    var x := xs[0];
    if |xs| == 1 {
      SplitFree(x, sep);
    } else if x == "" {
      JoinCons([sep], x, xs[1..]);
      assert Join([sep], xs) == [sep] + Join([sep], xs[1..]);
      assert Join([sep], xs)[1..] == Join([sep], xs[1..]);
      SplitJoin(xs[1..], sep);
      assert xs == [""] + xs[1..];
    } else {
      var ys := [x[1..]] + xs[1..];
      JoinCons([sep], x, xs[1..]);
      JoinCons([sep], x[1..], xs[1..]);
      var j := Join([sep], xs);
      assert j == [x[0]] + Join([sep], ys);
      assert j[0] == x[0] && j[0] != sep;
      assert j[1..] == Join([sep], ys);
      assert forall k :: 0 <= k < |ys| ==> sep !in ys[k] by {
        forall k | 0 <= k < |ys| ensures sep !in ys[k] {
          if k == 0 {
            assert forall c :: c in x[1..] ==> c in x;
          } else {
            assert ys[k] == xs[k];
          }
        }
      }
      SplitJoin(ys, sep);
      assert [x[0]] + x[1..] == x;
      assert xs == [x] + xs[1..];
    }
  }

  /** Splitting at a separator splits the two sides apart. */
  lemma {:induction false} SplitAppend(a: string, b: string, sep: char)
    ensures Split(a + [sep] + b, sep) == Split(a, sep) + Split(b, sep)
    decreases |a|
  {
    var s := a + [sep] + b;
    if a == [] {
      assert s == [sep] + b;
      assert s[1..] == b;
    } else {
      assert s[0] == a[0];
      assert s[1..] == a[1..] + [sep] + b;
      SplitAppend(a[1..], b, sep);
      if a[0] != sep {
        var left := Split(a[1..], sep);
        assert Split(s[1..], sep) == left + Split(b, sep);
        assert (left + Split(b, sep))[0] == left[0];
        assert (left + Split(b, sep))[1..] == left[1..] + Split(b, sep);
      }
    }
  }

  lemma {:induction false} SplitFree(s: string, sep: char)
    requires sep !in s
    ensures Split(s, sep) == [s]
    decreases |s|
  {
    if s != [] {
      SplitFree(s[1..], sep);
      assert s == [s[0]] + s[1..];
    }
  }

  /** `needle` occurs in `hay` starting at index `i`. */
  predicate OccursAt(needle: string, hay: string, i: int)
  {
    0 <= i <= |hay| - |needle| && hay[i..i + |needle|] == needle
  }

  /** `needle in hay` for strings: `needle` occurs as a contiguous substring. */
  ghost predicate Occurs(needle: string, hay: string)
  {
    exists i :: OccursAt(needle, hay, i)
  }

  /** The substring operator `needle in hay`, computed by scanning `hay`. */
  function Contains(hay: string, needle: string): (r: bool)
    ensures r <==> Occurs(needle, hay)
    decreases |hay|
  {
    if |needle| > |hay| then
      assert forall i :: !OccursAt(needle, hay, i);
      false
    else if hay[..|needle|] == needle then
      assert OccursAt(needle, hay, 0);
      true
    else
      var rest := Contains(hay[1..], needle);
      assert rest <==> Occurs(needle, hay) by {
        if rest {
          var i :| OccursAt(needle, hay[1..], i);
          assert hay[1..][i..i + |needle|] == hay[i + 1..i + 1 + |needle|];
          assert OccursAt(needle, hay, i + 1);
        }
        if Occurs(needle, hay) {
          var i :| OccursAt(needle, hay, i);
          assert i != 0;
          assert hay[1..][i - 1..i - 1 + |needle|] == hay[i..i + |needle|];
          assert OccursAt(needle, hay[1..], i - 1);
        }
      }
      rest
  }

  /** ASCII `str.lower()`. */
  function LowerChar(c: char): char
  {
    if 'A' <= c <= 'Z' then (c as int + 32) as char else c
  }

  function Lower(s: string): (r: string)
    ensures |r| == |s| && forall i :: 0 <= i < |s| ==> r[i] == LowerChar(s[i])
  {
    if s == [] then [] else [LowerChar(s[0])] + Lower(s[1..])
  }

  function UpperChar(c: char): char
  {
    if 'a' <= c <= 'z' then (c as int - 32) as char else c
  }

  /** `s.upper()` on ASCII letters. */
  function Upper(s: string): (r: string)
    ensures |r| == |s| && forall i :: 0 <= i < |s| ==> r[i] == UpperChar(s[i])
  {
    if s == [] then [] else [UpperChar(s[0])] + Upper(s[1..])
  }

  function DigitChar(d: int): char
    requires 0 <= d < 10
  {
    ('0' as int + d) as char
  }

  predicate IsDigit(c: char)
  {
    '0' <= c <= '9'
  }

  /** The decimal digits of a natural number, as `str(n)` writes them. */
  function NatToString(n: nat): (r: string)
    ensures |r| >= 1 && forall i :: 0 <= i < |r| ==> IsDigit(r[i])
    ensures r[0] == '0' ==> n == 0
    decreases n
  {
    if n < 10 then [DigitChar(n)] else NatToString(n / 10) + [DigitChar(n % 10)]
  }

  /** `str(i)` for an integer. */
  function IntToString(i: int): string
  {
    if i < 0 then "-" + NatToString(-i) else NatToString(i)
  }

  /** The value of a non-empty string of decimal digits. */
  function DigitsValue(s: string): (n: nat)
    requires forall i :: 0 <= i < |s| ==> IsDigit(s[i])
    decreases |s|
  {
    if s == [] then 0
    else
      assert IsDigit(s[|s| - 1]);
      DigitsValue(s[..|s| - 1]) * 10 + (s[|s| - 1] as int - '0' as int)
  }

  predicate AllDigits(s: string)
  {
    forall i :: 0 <= i < |s| ==> IsDigit(s[i])
  }

  /**
   * `int(s)` for a string: surrounding whitespace is ignored, an optional sign
   * is followed by one or more decimal digits; anything else is a ValueError (None).
   */
  function ParseInt(s: string): (r: Option<int>)
  {
    var t := Strip(s);
    if t == [] then None
    else if t[0] == '-' || t[0] == '+' then
      if |t| > 1 && AllDigits(t[1..]) then
        var n: int := DigitsValue(t[1..]);
        Some(if t[0] == '-' then -n else n)
      else None
    else if AllDigits(t) then Some(DigitsValue(t))
    else None
  }

  lemma {:induction false} DigitsOfNat(n: nat)
    ensures AllDigits(NatToString(n)) && DigitsValue(NatToString(n)) == n
    decreases n
  {
    if n >= 10 {
      DigitsOfNat(n / 10);
      var s := NatToString(n);
      assert s[..|s| - 1] == NatToString(n / 10);
    }
  }

  /** `int(str(i)) == i`. */
  lemma ParseIntToString(i: int)
    ensures ParseInt(IntToString(i)) == Some(i)
  {
    var s := IntToString(i);
    DigitsOfNat(if i < 0 then -i else i);
    assert IsTrimmed(s);
    StripOfTrimmed(s);
    if i < 0 {
      assert s[1..] == NatToString(-i);
    }
  }

  /** Code-point lexicographic order on strings, the order `sorted()` uses. */
  predicate LexLeq(a: string, b: string)
    decreases |a|
  {
    a == [] || (b != [] && (a[0] < b[0] || (a[0] == b[0] && LexLeq(a[1..], b[1..]))))
  }

  predicate LexLess(a: string, b: string)
  {
    LexLeq(a, b) && a != b
  }

  lemma {:induction false} LexTotal(a: string, b: string)
    ensures LexLeq(a, b) || LexLeq(b, a)
    decreases |a|
  {
    if a != [] && b != [] && a[0] == b[0] {
      LexTotal(a[1..], b[1..]);
    }
  }

  lemma {:induction false} LexAntisymmetric(a: string, b: string)
    requires LexLeq(a, b) && LexLeq(b, a)
    ensures a == b
    decreases |a|
  {
    if a != [] {
      LexAntisymmetric(a[1..], b[1..]);
      assert a == [a[0]] + a[1..] && b == [b[0]] + b[1..];
    }
  }

  lemma {:induction false} LexTransitive(a: string, b: string, c: string)
    requires LexLeq(a, b) && LexLeq(b, c)
    ensures LexLeq(a, c)
    decreases |a|
  {
    if a != [] && b != [] && c != [] && a[0] == b[0] && b[0] == c[0] {
      LexTransitive(a[1..], b[1..], c[1..]);
    }
  }

  lemma LexAntisymmetricAll()
    ensures forall a, b :: LexLeq(a, b) && LexLeq(b, a) ==> a == b
  {
    forall a, b | LexLeq(a, b) && LexLeq(b, a) ensures a == b {
      LexAntisymmetric(a, b);
    }
  }

  /** The least element of a set in which it is the minimum. */
  predicate IsLeast(m: string, s: set<string>)
  {
    m in s && forall x :: x in s ==> LexLeq(m, x)
  }

  /** Every non-empty finite set of strings has a least element. */
  lemma {:induction false} LeastExists(s: set<string>)
    requires s != {}
    ensures exists m :: IsLeast(m, s)
    decreases |s|
  {
    var y :| y in s;
    if s == {y} {
      assert LexLeq(y, y) by { LexTotal(y, y); }
      assert IsLeast(y, s);
    } else {
      LeastExists(s - {y});
      var m :| IsLeast(m, s - {y});
      LexTotal(m, y);
      if LexLeq(m, y) {
        assert IsLeast(m, s);
      } else {
        forall x | x in s ensures LexLeq(y, x) {
          if x == y { LexTotal(y, y); } else { LexTransitive(y, m, x); }
        }
        assert IsLeast(y, s);
      }
    }
  }

  /** The least element of a non-empty set of strings. */
  function Least(s: set<string>): (m: string)
    requires s != {}
    ensures IsLeast(m, s)
  {
    LeastExists(s);
    LexAntisymmetricAll();
    var m :| IsLeast(m, s);
    m
  }

  /** A strictly increasing sequence of strings. */
  predicate StrictlySorted(r: seq<string>)
  {
    forall i, j :: 0 <= i < j < |r| ==> LexLess(r[i], r[j])
  }

  /** `sorted(s)` for a set of strings: its elements in increasing order, each once. */
  function SortedSeq(s: set<string>): (r: seq<string>)
    ensures |r| == |s|
    ensures forall x :: x in r <==> x in s
    ensures StrictlySorted(r)
    decreases |s|
  {
    if s == {} then []
    else
      var m := Least(s);
      var rest := SortedSeq(s - {m});
      assert forall j :: 0 <= j < |rest| ==> LexLess(m, rest[j]) by {
        forall j | 0 <= j < |rest| ensures LexLess(m, rest[j]) {
          assert rest[j] in s - {m};
        }
      }
      [m] + rest
  }

  /** A strictly sorted sequence has as many members as elements. */
  lemma {:induction false} StrictlySortedCard(a: seq<string>)
    requires StrictlySorted(a)
    ensures |set x | x in a| == |a|
    decreases |a|
  {
    if a != [] {
      assert StrictlySorted(a[1..]) by {
        forall i, j | 0 <= i < j < |a| - 1 ensures LexLess(a[1..][i], a[1..][j]) {
          assert LexLess(a[i + 1], a[j + 1]);
        }
      }
      StrictlySortedCard(a[1..]);
      var tail := set x | x in a[1..];
      assert (set x | x in a) == {a[0]} + tail by {
        assert a == [a[0]] + a[1..];
      }
      assert a[0] !in tail by {
        forall k | 0 <= k < |a| - 1 ensures a[1..][k] != a[0] {
          assert LexLess(a[0], a[k + 1]);
        }
      }
    }
  }

  /** Two sorted sequences with the same members are equal: `SortedSeq(s)` is the only sorted arrangement of `s`. */
  lemma {:induction false} StrictlySortedUnique(a: seq<string>, b: seq<string>)
    requires StrictlySorted(a) && StrictlySorted(b)
    requires forall x :: x in a <==> x in b
    ensures a == b
    decreases |a|
  {
    assert (set x | x in a) == (set x | x in b);
    StrictlySortedCard(a);
    StrictlySortedCard(b);
    if a != [] {
      assert a[0] in b && b[0] in a;
      var i :| 0 <= i < |b| && b[i] == a[0];
      var j :| 0 <= j < |a| && a[j] == b[0];
      if i != 0 && j != 0 {
        assert LexLess(b[0], a[0]) && LexLess(a[0], b[0]);
        LexAntisymmetric(a[0], b[0]);
        assert false;
      }
      assert a[0] == b[0];
      forall x ensures x in a[1..] <==> x in b[1..] {
        if x in a[1..] {
          var k :| 0 <= k < |a| - 1 && a[1..][k] == x;
          assert LexLess(a[0], a[k + 1]);
          assert a[k + 1] in a;
          var m :| 0 <= m < |b| && b[m] == x;
          assert m != 0;
          assert b[1..][m - 1] == x;
        }
        if x in b[1..] {
          var k :| 0 <= k < |b| - 1 && b[1..][k] == x;
          assert LexLess(b[0], b[k + 1]);
          assert b[k + 1] in b;
          var m :| 0 <= m < |a| && a[m] == x;
          assert m != 0;
          assert a[1..][m - 1] == x;
        }
      }
      StrictlySortedUnique(a[1..], b[1..]);
      assert a == [a[0]] + a[1..] && b == [b[0]] + b[1..];
    }
  }

  /** A sequence of strings in non-decreasing order (duplicates allowed). */
  predicate Sorted(r: seq<string>)
  {
    forall i, j :: 0 <= i < j < |r| ==> LexLeq(r[i], r[j])
  }

  /** Inserts `x` into a sorted sequence. */
  function Insert(x: string, r: seq<string>): (q: seq<string>)
    requires Sorted(r)
    ensures Sorted(q) && multiset(q) == multiset(r) + multiset{x}
    decreases |r|
  {
    if r == [] then [x]
    else if LexLeq(x, r[0]) then
      assert forall j :: 0 <= j < |r| ==> LexLeq(x, r[j]) by {
        forall j | 0 <= j < |r| ensures LexLeq(x, r[j]) {
          if j > 0 {
            LexTransitive(x, r[0], r[j]);
          }
        }
      }
      [x] + r
    else
      var rest := Insert(x, r[1..]);
      LexTotal(x, r[0]);
      LowerBoundOfInsertion(r[0], x, r[1..], rest);
      assert r == [r[0]] + r[1..];
      [r[0]] + rest
  }

  /** A lower bound of `x` and of every element of `r` bounds every element of `q`, which holds `x` and `r`'s elements. */
  lemma LowerBoundOfInsertion(y: string, x: string, r: seq<string>, q: seq<string>)
    requires LexLeq(y, x) && multiset(q) == multiset(r) + multiset{x}
    requires forall j :: 0 <= j < |r| ==> LexLeq(y, r[j])
    ensures forall j :: 0 <= j < |q| ==> LexLeq(y, q[j])
  {
    forall j | 0 <= j < |q| ensures LexLeq(y, q[j]) {
      assert q[j] in multiset(q);
      assert q[j] == x || q[j] in multiset(r);
      if q[j] != x {
        var k :| 0 <= k < |r| && r[k] == q[j];
      }
    }
  }

  /** `sorted(xs)` for a list of strings: the same strings, duplicates kept, in order. */
  function SortStrings(xs: seq<string>): (r: seq<string>)
    ensures Sorted(r) && multiset(r) == multiset(xs)
    decreases |xs|
  {
    if xs == [] then []
    else
      assert xs == [xs[0]] + xs[1..];
      Insert(xs[0], SortStrings(xs[1..]))
  }

  /** Sorting an already sorted sequence leaves it unchanged. */
  lemma {:induction false} SortStringsOfSorted(xs: seq<string>)
    requires Sorted(xs)
    ensures SortStrings(xs) == xs
    decreases |xs|
  {
    if xs != [] {
      assert Sorted(xs[1..]) by {
        forall i, j | 0 <= i < j < |xs| - 1 ensures LexLeq(xs[1..][i], xs[1..][j]) {
          assert xs[1..][i] == xs[i + 1] && xs[1..][j] == xs[j + 1];
        }
      }
      SortStringsOfSorted(xs[1..]);
      if |xs| > 1 {
        assert LexLeq(xs[0], xs[1]);
      }
      assert xs == [xs[0]] + xs[1..];
    }
  }
}
