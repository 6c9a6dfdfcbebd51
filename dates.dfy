/**
 * Calendar dates in the layout "2006-01-02", which every date the services
 * accept is parsed with (Go's time.Parse with that layout): exactly four year
 * digits, a dash, two month digits, a dash and two day digits, with the month
 * in 1..12 and the day within the month, leap years included.
 */
module Dates {
  import opened Common
  import opened GoLib

  datatype Date = Date(year: nat, month: nat, day: nat)

  predicate IsLeap(year: nat)
  {
    year % 4 == 0 && (year % 100 != 0 || year % 400 == 0)
  }

  function DaysIn(month: nat, year: nat): nat
    requires 1 <= month <= 12
  {
    if month == 2 then (if IsLeap(year) then 29 else 28)
    else if month == 4 || month == 6 || month == 9 || month == 11 then 30
    else 31
  }

  predicate ValidDate(d: Date)
  {
    d.year <= 9999 && 1 <= d.month <= 12 && 1 <= d.day <= DaysIn(d.month, d.year)
  }

  /** The digits of n, padded with zeros on the left to width characters. */
  function PadDigits(n: nat, width: nat): (s: string)
    ensures |s| == width && AllDigits(s)
  {
    if width == 0 then "" else PadDigits(n / 10, width - 1) + [DigitChar(n % 10)]
  }

  /** The layout "2006-01-02" applied to a date. */
  function FormatDate(d: Date): (s: string)
    ensures |s| == 10
  {
    PadDigits(d.year, 4) + "-" + PadDigits(d.month, 2) + "-" + PadDigits(d.day, 2)
  }

  /** time.Parse("2006-01-02", s): None is the error every caller turns into
      a parameter error. */
  function ParseDate(s: string): (r: Option<Date>)
    ensures r.Some? ==> ValidDate(r.value)
  {
    if |s| != 10 || s[4] != '-' || s[7] != '-' then None
    else if !AllDigits(s[..4]) || !AllDigits(s[5..7]) || !AllDigits(s[8..]) then None
    else
      DigitsBound(s[..4]);
      var d := Date(DigitsValue(s[..4]), DigitsValue(s[5..7]), DigitsValue(s[8..]));
      if 1 <= d.month <= 12 && 1 <= d.day <= DaysIn(d.month, d.year) then Some(d) else None
  }

  lemma {:induction false} PadDigitsValue(n: nat, width: nat)
    ensures DigitsValue(PadDigits(n, width)) == n % Pow10(width)
  {
    if width > 0 {
      var s := PadDigits(n, width);
      assert s[..|s| - 1] == PadDigits(n / 10, width - 1);
      PadDigitsValue(n / 10, width - 1);
      ModPow10Step(n, width);
    }
  }

  function Pow10(k: nat): (p: nat)
    ensures p >= 1
  {
    if k == 0 then 1 else 10 * Pow10(k - 1)
  }

  lemma ModPow10Step(n: nat, k: nat)
    requires k > 0
    ensures n % Pow10(k) == (n / 10) % Pow10(k - 1) * 10 + n % 10
  {
    var p := Pow10(k - 1);
    var q := n / 10;
    var r := n % 10;
    assert n == q * 10 + r;
    var a := q / p;
    var b := q % p;
    assert q == a * p + b && 0 <= b < p;
    assert q * 10 == a * (10 * p) + b * 10 by {
      assert (a * p + b) * 10 == a * p * 10 + b * 10;
      assert a * p * 10 == a * (10 * p);
    }
    assert b * 10 + r < 10 * p by {
      MulLeq(b + 1, p, 10);
    }
    ModUnique(n, 10 * p, a, b * 10 + r);
  }

  lemma ModUnique(n: nat, m: nat, a: int, r: int)
    requires m > 0 && n == a * m + r && 0 <= r < m
    ensures n % m == r
  {
    var a0 := n / m;
    var r0 := n % m;
    assert n == a0 * m + r0 && 0 <= r0 < m;
    assert (a0 - a) * m == r - r0 by { assert (a0 - a) * m == a0 * m - a * m; }
    MulZeroOrFar(a0 - a, m);
  }

  /** A multiple of m is 0 or at least m away from 0. */
  lemma MulZeroOrFar(d: int, m: int)
    requires m > 0
    ensures d == 0 || d * m >= m || d * m <= -m
  {
    if d > 0 {
      MulLeq(1, d, m);
    } else if d < 0 {
      MulLeq(d, -1, m);
    }
  }

  lemma MulLeq(x: int, y: int, m: nat)
    requires x <= y
    ensures x * m <= y * m
  {
    assert y * m - x * m == (y - x) * m;
  }

  lemma {:induction false} DigitsBound(s: string)
    requires AllDigits(s)
    ensures DigitsValue(s) < Pow10(|s|)
  {
    if s != [] {
      DigitsBound(s[..|s| - 1]);
    }
  }

  /** Every valid date is parsed back from its formatted text. */
  lemma ParseFormatDate(d: Date)
    requires ValidDate(d)
    ensures ParseDate(FormatDate(d)) == Some(d)
  {
    var s := FormatDate(d);
    FormatDateParts(d);
    assert Pow10(2) == 100;
    assert Pow10(4) == 10000 by { assert Pow10(3) == 1000; }
    PadDigitsSmall(d.year, 4);
    PadDigitsSmall(d.month, 2);
    PadDigitsSmall(d.day, 2);
    ParseDateParts(s, d);
  }

  /** A number below 10^width keeps its value when padded to width digits. */
  lemma PadDigitsSmall(n: nat, width: nat)
    requires n < Pow10(width)
    ensures DigitsValue(PadDigits(n, width)) == n
  {
    PadDigitsValue(n, width);
    ModUnique(n, Pow10(width), 0, n);
  }

  /** Where the parts of a formatted date sit. */
  lemma FormatDateParts(d: Date)
    ensures var s := FormatDate(d);
      s[..4] == PadDigits(d.year, 4) && s[5..7] == PadDigits(d.month, 2) && s[8..] == PadDigits(d.day, 2)
      && s[4] == '-' && s[7] == '-'
  {
    var s := FormatDate(d);
    assert s == PadDigits(d.year, 4) + "-" + PadDigits(d.month, 2) + "-" + PadDigits(d.day, 2);
  }

  /** A string of the layout's shape whose digits spell a valid date parses to it. */
  lemma ParseDateParts(s: string, d: Date)
    requires |s| == 10 && s[4] == '-' && s[7] == '-'
    requires AllDigits(s[..4]) && AllDigits(s[5..7]) && AllDigits(s[8..])
    requires DigitsValue(s[..4]) == d.year && DigitsValue(s[5..7]) == d.month && DigitsValue(s[8..]) == d.day
    requires ValidDate(d)
    ensures ParseDate(s) == Some(d)
  {
  }

  /** A string that parses is exactly the formatted text of its date: the
      layout admits no second spelling of a date. */
  lemma FormatParseDate(s: string)
    requires ParseDate(s).Some?
    ensures FormatDate(ParseDate(s).value) == s
  {
    var d := ParseDate(s).value;
    DigitsPad(s[..4]);
    DigitsPad(s[5..7]);
    DigitsPad(s[8..]);
    assert s == s[..4] + "-" + s[5..7] + "-" + s[8..];
  }

  /** A string of digits is the padded form of its own value. */
  lemma {:induction false} DigitsPad(s: string)
    requires AllDigits(s)
    ensures PadDigits(DigitsValue(s), |s|) == s
  {
    if s != [] {
      var init := s[..|s| - 1];
      var v := DigitsValue(s);
      var c := s[|s| - 1] as int - '0' as int;
      assert v == DigitsValue(init) * 10 + c;
      assert v / 10 == DigitsValue(init) && v % 10 == c;
      DigitsPad(init);
      assert s == init + [s[|s| - 1]];
    }
  }
}
