/**
 * The timestamps in the names of undo files and configuration backups:
 * `datetime.now().strftime("%Y-%m-%d-%H%M%S%f")[:-3]`, which keeps the
 * milliseconds, and the `datetime.strptime(..., "%Y-%m-%d-%H%M%S%f")` that
 * reads them back (channel_manager_lib/undo_utils.py,
 * channel_manager_lib/single_site_handler.py).
 */
module Timestamps {
  import opened Wrappers
  import opened PyStrings

  /** A `datetime` down to the microsecond. */
  datatype Stamp = Stamp(year: int, month: int, day: int, hour: int, minute: int, second: int, micro: int)

  predicate IsLeap(y: int)
  {
    (y % 4 == 0 && y % 100 != 0) || y % 400 == 0
  }

  function DaysIn(y: int, m: int): int
  {
    if m == 2 then (if IsLeap(y) then 29 else 28)
    else if m == 4 || m == 6 || m == 9 || m == 11 then 30
    else 31
  }

  /** The values `datetime` accepts. */
  predicate ValidStamp(t: Stamp)
  {
    && 1 <= t.year <= 9999 && 1 <= t.month <= 12 && 1 <= t.day <= DaysIn(t.year, t.month)
    && 0 <= t.hour < 24 && 0 <= t.minute < 60 && 0 <= t.second < 60 && 0 <= t.micro < 1000000
  }

  /** The order of `datetime` values: field by field. */
  predicate StampLeq(a: Stamp, b: Stamp)
  {
    if a.year != b.year then a.year < b.year
    else if a.month != b.month then a.month < b.month
    else if a.day != b.day then a.day < b.day
    else if a.hour != b.hour then a.hour < b.hour
    else if a.minute != b.minute then a.minute < b.minute
    else if a.second != b.second then a.second < b.second
    else a.micro <= b.micro
  }

  lemma StampLeqTotal(a: Stamp, b: Stamp)
    ensures StampLeq(a, b) || StampLeq(b, a)
  {
  }

  lemma StampLeqTransitive(a: Stamp, b: Stamp, c: Stamp)
    requires StampLeq(a, b) && StampLeq(b, c)
    ensures StampLeq(a, c)
  {
  }

  lemma StampLeqAntisymmetric(a: Stamp, b: Stamp)
    requires StampLeq(a, b) && StampLeq(b, a)
    ensures a == b
  {
  }

  /** `10 ** n`, the helper behind the digit widths of the stamp fields. */
  function Pow10(n: nat): (r: nat)
    ensures r >= 1
  {
    if n == 0 then 1 else 10 * Pow10(n - 1)
  }

  /** `n` written with exactly `width` digits, zero-padded on the left. */
  function Pad(n: nat, width: nat): (r: string)
    ensures |r| == width && AllDigits(r)
  {
    if width == 0 then "" else Pad(n / 10, width - 1) + [DigitChar(n % 10)]
  }

  /** Reading the digits back gives the number when it fits the width. */
  lemma {:induction false} PadValue(n: nat, width: nat)
    requires n < Pow10(width)
    ensures DigitsValue(Pad(n, width)) == n
  {
    if width > 0 {
      PadValue(n / 10, width - 1);
      var r := Pad(n, width);
      assert r[..|r| - 1] == Pad(n / 10, width - 1);
    }
  }

  /** The time at the precision the file names keep. */
  function Millis(t: Stamp): Stamp
  {
    t.(micro := t.micro / 1000 * 1000)
  }

  /** The layout of the timestamp: `Y-m-d-HMSf`. */
  function Layout(y: string, mo: string, d: string, h: string, mi: string, se: string, f: string): string
  {
    y + "-" + mo + "-" + d + "-" + h + mi + se + f
  }

  lemma LayoutSlices(y: string, mo: string, d: string, h: string, mi: string, se: string, f: string)
    requires |y| == 4 && |mo| == 2 && |d| == 2 && |h| == 2 && |mi| == 2 && |se| == 2
    ensures var s := Layout(y, mo, d, h, mi, se, f);
            && |s| == 17 + |f|
            && s[..4] == y && s[5..7] == mo && s[8..10] == d
            && s[11..13] == h && s[13..15] == mi && s[15..17] == se && s[17..] == f
            && s[4] == '-' && s[7] == '-' && s[10] == '-'
            && forall i :: 0 <= i < |s| && i != 4 && i != 7 && i != 10 ==>
                 s[i] in y || s[i] in mo || s[i] in d || s[i] in h || s[i] in mi || s[i] in se || s[i] in f
  {
    var s := Layout(y, mo, d, h, mi, se, f);
    forall i | 0 <= i < |s| && i != 4 && i != 7 && i != 10
      ensures s[i] in y || s[i] in mo || s[i] in d || s[i] in h || s[i] in mi || s[i] in se || s[i] in f
    {
      if i < 4 { assert s[i] == y[i]; }
      else if i < 7 { assert s[i] == mo[i - 5]; }
      else if i < 10 { assert s[i] == d[i - 8]; }
      else if i < 13 { assert s[i] == h[i - 11]; }
      else if i < 15 { assert s[i] == mi[i - 13]; }
      else if i < 17 { assert s[i] == se[i - 15]; }
      else { assert s[i] == f[i - 17]; }
    }
  }

  /** `strftime("%Y-%m-%d-%H%M%S%f")[:-3]`: the six microsecond digits lose their last three. */
  function FormatStamp(t: Stamp): (r: string)
    requires ValidStamp(t)
    ensures |r| == 20
  {
    LayoutSlices(Pad(t.year, 4), Pad(t.month, 2), Pad(t.day, 2), Pad(t.hour, 2), Pad(t.minute, 2), Pad(t.second, 2), Pad(t.micro / 1000, 3));
    Layout(Pad(t.year, 4), Pad(t.month, 2), Pad(t.day, 2), Pad(t.hour, 2), Pad(t.minute, 2), Pad(t.second, 2), Pad(t.micro / 1000, 3))
  }

  /**
   * `strptime(s, "%Y-%m-%d-%H%M%S%f")` for the zero-padded form: a four-digit
   * year, two-digit fields, and one to six fraction digits read as the leading
   * digits of the microseconds; None stands for the ValueError.
   */
  function ParseStamp(s: string): (r: Option<Stamp>)
    ensures r.Some? ==> ValidStamp(r.value)
    ensures r.Some? ==> 18 <= |s| <= 23 && s[4] == '-' && s[7] == '-' && s[10] == '-'
  {
    if |s| < 18 || |s| > 23 || s[4] != '-' || s[7] != '-' || s[10] != '-' then None
    else if !(AllDigits(s[..4]) && AllDigits(s[5..7]) && AllDigits(s[8..10]) && AllDigits(s[11..13])
              && AllDigits(s[13..15]) && AllDigits(s[15..17]) && AllDigits(s[17..])) then None
    else
      var t := Stamp(DigitsValue(s[..4]), DigitsValue(s[5..7]), DigitsValue(s[8..10]),
                     DigitsValue(s[11..13]), DigitsValue(s[13..15]), DigitsValue(s[15..17]),
                     DigitsValue(s[17..]) * Pow10(6 - (|s| - 17)));
      if ValidStamp(t) then Some(t) else None
  }

  /** No separator of the names occurs in a timestamp. */
  lemma FormatStampChars(t: Stamp)
    requires ValidStamp(t)
    ensures '_' !in FormatStamp(t) && '.' !in FormatStamp(t)
  {
    var y, mo, d := Pad(t.year, 4), Pad(t.month, 2), Pad(t.day, 2);
    var h, mi, se, f := Pad(t.hour, 2), Pad(t.minute, 2), Pad(t.second, 2), Pad(t.micro / 1000, 3);
    LayoutSlices(y, mo, d, h, mi, se, f);
    var r := FormatStamp(t);
    forall i | 0 <= i < |r|
      ensures r[i] != '_' && r[i] != '.'
    {
      if i != 4 && i != 7 && i != 10 {
        assert IsDigit(r[i]);
      }
    }
  }

  /** Reading back a written timestamp gives the time to the millisecond. */
  lemma FormatThenParse(t: Stamp)
    requires ValidStamp(t)
    ensures ParseStamp(FormatStamp(t)) == Some(Millis(t))
  {
    FormatFields(t);
    assert Pow10(3) == 1000 by {
      assert Pow10(1) == 10;
    }
  }

  /** The fields of a written timestamp, each with the digits of its value. */
  lemma FormatFields(t: Stamp)
    requires ValidStamp(t)
    ensures var s := FormatStamp(t);
      && s[4] == '-' && s[7] == '-' && s[10] == '-'
      && AllDigits(s[..4]) && AllDigits(s[5..7]) && AllDigits(s[8..10]) && AllDigits(s[11..13])
      && AllDigits(s[13..15]) && AllDigits(s[15..17]) && AllDigits(s[17..])
      && DigitsValue(s[..4]) == t.year && DigitsValue(s[5..7]) == t.month && DigitsValue(s[8..10]) == t.day
      && DigitsValue(s[11..13]) == t.hour && DigitsValue(s[13..15]) == t.minute && DigitsValue(s[15..17]) == t.second
      && DigitsValue(s[17..]) == t.micro / 1000
  {
    var y, mo, d := Pad(t.year, 4), Pad(t.month, 2), Pad(t.day, 2);
    var h, mi, se, f := Pad(t.hour, 2), Pad(t.minute, 2), Pad(t.second, 2), Pad(t.micro / 1000, 3);
    LayoutSlices(y, mo, d, h, mi, se, f);
    assert Pow10(2) == 100 && Pow10(3) == 1000 && Pow10(4) == 10000 by {
      assert Pow10(1) == 10;
    }
    PadValue(t.year, 4);
    PadValue(t.month, 2);
    PadValue(t.day, 2);
    PadValue(t.hour, 2);
    PadValue(t.minute, 2);
    PadValue(t.second, 2);
    PadValue(t.micro / 1000, 3);
  }
}
