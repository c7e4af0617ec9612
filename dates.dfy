/**
 * Calendar dates and the two textual forms the core uses: the compact
 * `YYYYMMDD` form (`strftime('%Y%m%d')`, parsed by `strptime(s, '%Y%m%d')`)
 * and the ISO form `YYYY-MM-DD` (`date.isoformat()`, `strftime('%Y-%m-%d')`).
 */
module Dates {
  import opened Text

  datatype Date = Date(year: int, month: int, day: int)

  predicate IsLeapYear(y: int) {
    y % 4 == 0 && (y % 100 != 0 || y % 400 == 0)
  }

  function DaysInMonth(y: int, m: int): int
    requires 1 <= m <= 12
  {
    if m == 2 then (if IsLeapYear(y) then 29 else 28)
    else if m == 4 || m == 6 || m == 9 || m == 11 then 30
    else 31
  }

  /** A date Python's `datetime.date` can represent (years 1 to 9999). */
  predicate ValidDate(d: Date) {
    1 <= d.year <= 9999 && 1 <= d.month <= 12 && 1 <= d.day <= DaysInMonth(d.year, d.month)
  }

  /** The fields of an eight-digit `YYYYMMDD` string. */
  function ParseCompact(s: string): Date
    requires |s| == 8 && AllDigits(s)
  {
    Date(DigitsValue(s[..4]), DigitsValue(s[4..6]), DigitsValue(s[6..]))
  }

  /** An eight-digit string that `strptime(s, '%Y%m%d')` accepts as a calendar date. */
  predicate IsCompactDate(s: string) {
    |s| == 8 && AllDigits(s) && ValidDate(ParseCompact(s))
  }

  /** `strftime('%Y%m%d')`. */
  function FormatCompact(d: Date): (r: string)
    requires ValidDate(d)
    ensures |r| == 8 && AllDigits(r)
  {
    Pad(d.year, 4) + Pad(d.month, 2) + Pad(d.day, 2)
  }

  /** `date.isoformat()`, equally `strftime('%Y-%m-%d')`. */
  function FormatIso(d: Date): (r: string)
    requires ValidDate(d)
    ensures |r| == 10
  {
    Pad(d.year, 4) + "-" + Pad(d.month, 2) + "-" + Pad(d.day, 2)
  }

  /**
   * `datetime.strptime(s, '%Y%m%d').date().isoformat()`: the same digits with
   * dashes after the year and the month, so deleting the dashes gives `s` back.
   */
  function CompactToIso(s: string): (r: string)
    requires IsCompactDate(s)
    ensures r == s[..4] + "-" + s[4..6] + "-" + s[6..]
    ensures Without(r, '-') == s
  {
    IsoOfCompact(s);
    FormatIso(ParseCompact(s))
  }

  /** The ISO form of a compact date string is its three digit fields joined by dashes. */
  lemma IsoOfCompact(s: string)
    requires IsCompactDate(s)
    ensures FormatIso(ParseCompact(s)) == s[..4] + "-" + s[4..6] + "-" + s[6..]
    ensures Without(s[..4] + "-" + s[4..6] + "-" + s[6..], '-') == s
  {
    var y, m, d := s[..4], s[4..6], s[6..];
    assert AllDigits(y) && AllDigits(m) && AllDigits(d);
    PadDigitsValue(y);
    PadDigitsValue(m);
    PadDigitsValue(d);
    var date := ParseCompact(s);
    assert Pad(date.year, 4) == y && Pad(date.month, 2) == m && Pad(date.day, 2) == d;
    WithoutDashesOfDigitFields(y, m, d);
    assert y + m + d == s;
  }

  lemma WithoutDashesOfDigitFields(y: string, m: string, d: string)
    requires AllDigits(y) && AllDigits(m) && AllDigits(d)
    ensures Without(y + "-" + m + "-" + d, '-') == y + m + d
  {
    NoDashInDigits(y);
    NoDashInDigits(m);
    NoDashInDigits(d);
    WithoutAbsent(y, '-');
    WithoutAbsent(m, '-');
    WithoutAbsent(d, '-');
    var dash := "-";
    assert Without(dash, '-') == "";
    var a := y + dash;
    WithoutConcat(y, dash, '-');
    assert Without(a, '-') == y;
    var b := a + m;
    WithoutConcat(a, m, '-');
    assert Without(b, '-') == y + m;
    var c := b + dash;
    WithoutConcat(b, dash, '-');
    assert Without(c, '-') == y + m;
    WithoutConcat(c, d, '-');
    assert Without(c + d, '-') == y + m + d;
  }

  /** The compact form is the ISO form with its dashes deleted. */
  lemma CompactIsIsoWithoutDashes(d: Date)
    requires ValidDate(d)
    ensures FormatCompact(d) == Without(FormatIso(d), '-')
  {
    WithoutDashesOfDigitFields(Pad(d.year, 4), Pad(d.month, 2), Pad(d.day, 2));
  }

  /** Parsing the compact form of a date gives the date back. */
  lemma CompactRoundTrip(d: Date)
    requires ValidDate(d)
    ensures IsCompactDate(FormatCompact(d)) && ParseCompact(FormatCompact(d)) == d
  {
    var s := FormatCompact(d);
    assert s[..4] == Pad(d.year, 4);
    assert s[4..6] == Pad(d.month, 2);
    assert s[6..] == Pad(d.day, 2);
    assert Pow10(2) == 100;
    assert Pow10(4) == 10000;
    DigitsValuePad(d.year, 4);
    DigitsValuePad(d.month, 2);
    DigitsValuePad(d.day, 2);
  }
}
