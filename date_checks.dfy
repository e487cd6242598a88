/**
 * The two format checks of src/field_mappers/base.py: `validate_date_string` (length 10 and
 * `datetime.strptime(value, '%Y-%m-%d')`) and `validate_datetime_string` (the `ISO8601_MATCH`
 * regular expression). Both read the value at a path with the resolver.
 */
module DateChecks {
  import opened Json
  import opened Text
  import opened JsonPath

  predicate IsLeapYear(y: int)
  {
    y % 4 == 0 && (y % 100 != 0 || y % 400 == 0)
  }

  function DaysInMonth(y: int, m: int): int
    requires 1 <= m <= 12
  {
    if m == 2 then (if IsLeapYear(y) then 29 else 28)
    else if m == 4 || m == 6 || m == 9 || m == 11 then 30
    else 31
  }

  /** The shape `YYYY-MM-DD` with ASCII digits in the numeric places. */
  predicate HasDateShape(s: string)
  {
    |s| == 10 && AllDigits(s[0..4]) && s[4] == '-' && AllDigits(s[5..7]) && s[7] == '-' && AllDigits(s[8..10])
  }

  function YearOf(s: string): nat requires HasDateShape(s) { DigitsValue(s[0..4]) }
  function MonthOf(s: string): nat requires HasDateShape(s) { DigitsValue(s[5..7]) }
  function DayOf(s: string): nat requires HasDateShape(s) { DigitsValue(s[8..10]) }

  /**
   * A zero-padded `YYYY-MM-DD` naming an existing Gregorian date from year 1 on: the 10-character
   * strings `strptime(s, '%Y-%m-%d')` accepts, except a space-padded day such as `2022-01- 5`.
   */
  predicate IsCalendarDate(s: string)
  {
    HasDateShape(s) && 1 <= YearOf(s) && 1 <= MonthOf(s) <= 12 && 1 <= DayOf(s) <= DaysInMonth(YearOf(s), MonthOf(s))
  }

  /** What a call of `validate_date_string` does: nothing, log one warning, or raise. */
  datatype DateVerdict = NoWarning | Warning | Raises

  /**
   * `validate_date_string(record, key)`: a falsy value is skipped; `len(value) != 10` and
   * `strptime` failures are `ValueError`s and log a warning; `len` of a number or a boolean and
   * `strptime` of a 10-element list or dict raise `TypeError`, which is not caught.
   */
  function ValidateDateString(record: Json, key: string): DateVerdict
  {
    var value := GetValueAtJsonPath(record, key);
    if !Truthy(value) then NoWarning
    else
      match value
      case JStr(s) => if |s| == 10 && IsCalendarDate(s) then NoWarning else Warning
      case JArray(items) => if |items| != 10 then Warning else Raises
      case JObject(members) => if |members| != 10 then Warning else Raises
      case _ => Raises
  }

  /** Two-digit, zero-padded decimal. */
  function Pad2(n: nat): (s: string)
    requires n < 100
    ensures |s| == 2 && AllDigits(s)
  {
    [DigitChar(n / 10), DigitChar(n % 10)]
  }

  /** Four-digit, zero-padded decimal. */
  function Pad4(n: nat): (s: string)
    requires n < 10000
    ensures |s| == 4 && AllDigits(s)
  {
    Pad2(n / 100) + Pad2(n % 100)
  }

  /** `date.strftime('%Y-%m-%d')` for years below 10000. */
  function FormatDate(y: nat, m: nat, d: nat): (s: string)
    requires y < 10000 && m < 100 && d < 100
    ensures HasDateShape(s)
  {
    var s := Pad4(y) + "-" + Pad2(m) + "-" + Pad2(d);
    assert s[0..4] == Pad4(y) && s[5..7] == Pad2(m) && s[8..10] == Pad2(d);
    s
  }

  lemma Pad2Value(n: nat)
    requires n < 100
    ensures DigitsValue(Pad2(n)) == n
  {
    var s := Pad2(n);
    assert s == [s[0]] + [s[1]];
    DigitsValueAppend([s[0]], [s[1]]);
    assert DigitsValue([s[0]]) == DigitValue(s[0]) by { assert [s[0]][..0] == []; }
    assert DigitsValue([s[1]]) == DigitValue(s[1]) by { assert [s[1]][..0] == []; }
  }

  lemma Pad4Value(n: nat)
    requires n < 10000
    ensures DigitsValue(Pad4(n)) == n
  {
    Pad2Value(n / 100);
    Pad2Value(n % 100);
    DigitsValueAppend(Pad2(n / 100), Pad2(n % 100));
    assert Pow10(2) == 100;
  }

  /** The only two-digit spelling of a number is its padded one. */
  lemma Pad2OfDigits(s: string)
    requires |s| == 2 && AllDigits(s)
    ensures DigitsValue(s) < 100 && Pad2(DigitsValue(s)) == s
  {
    assert s == [s[0]] + [s[1]];
    DigitsValueAppend([s[0]], [s[1]]);
    assert DigitsValue([s[0]]) == DigitValue(s[0]) by { assert [s[0]][..0] == []; }
    assert DigitsValue([s[1]]) == DigitValue(s[1]) by { assert [s[1]][..0] == []; }
  }

  lemma Pad4OfDigits(s: string)
    requires |s| == 4 && AllDigits(s)
    ensures DigitsValue(s) < 10000 && Pad4(DigitsValue(s)) == s
  {
    var hi, lo := s[..2], s[2..];
    Pad2OfDigits(hi);
    Pad2OfDigits(lo);
    assert s == hi + lo;
    DigitsValueAppend(hi, lo);
    assert Pow10(2) == 100;
    DivMod100(DigitsValue(hi), DigitsValue(lo));
  }

  lemma DivMod100(q: nat, r: nat)
    requires r < 100
    ensures (q * 100 + r) / 100 == q && (q * 100 + r) % 100 == r
  {
  }

  /** Formatting a date and reading it back gives its fields; it is accepted exactly when the date exists. */
  lemma {:induction false} FormatDateRoundTrip(y: nat, m: nat, d: nat)
    requires y < 10000 && m < 100 && d < 100
    ensures YearOf(FormatDate(y, m, d)) == y && MonthOf(FormatDate(y, m, d)) == m && DayOf(FormatDate(y, m, d)) == d
    ensures IsCalendarDate(FormatDate(y, m, d)) <==> 1 <= y && 1 <= m <= 12 && 1 <= d <= DaysInMonth(y, m)
  {
    var s := FormatDate(y, m, d);
    assert s[0..4] == Pad4(y) && s[5..7] == Pad2(m) && s[8..10] == Pad2(d);
    Pad4Value(y);
    Pad2Value(m);
    Pad2Value(d);
  }

  /** Every accepted string is the formatting of its own fields: nothing else gets through. */
  lemma {:induction false} CalendarDateIsFormatted(s: string)
    requires IsCalendarDate(s)
    ensures YearOf(s) < 10000 && MonthOf(s) < 100 && DayOf(s) < 100
    ensures s == FormatDate(YearOf(s), MonthOf(s), DayOf(s))
  {
    Pad4OfDigits(s[0..4]);
    Pad2OfDigits(s[5..7]);
    Pad2OfDigits(s[8..10]);
    var f := FormatDate(YearOf(s), MonthOf(s), DayOf(s));
    assert s == s[0..4] + "-" + s[5..7] + "-" + s[8..10];
  }

  /**
   * For a non-empty string value, the date check warns exactly when the value is not an existing
   * `YYYY-MM-DD` date, and it never raises.
   */
  lemma DateCheckOnString(record: Json, key: string, s: string)
    requires GetValueAtJsonPath(record, key) == JStr(s) && s != []
    ensures ValidateDateString(record, key) == if IsCalendarDate(s) then NoWarning else Warning
  {
  }

  /** February 30th has the right shape but is no date, so it warns; a leap day passes only in a leap year. */
  lemma CalendarExamples(year: nat, leapYear: nat, centuryYear: nat, zero: nat)
    requires year == 2022 && leapYear == 2024 && centuryYear == 1900 && zero == 0
    ensures !IsCalendarDate(FormatDate(year, 2, 30))
    ensures IsCalendarDate(FormatDate(year, 1, 1))
    ensures IsCalendarDate(FormatDate(leapYear, 2, 29))
    ensures !IsCalendarDate(FormatDate(centuryYear, 2, 29))
    ensures !IsCalendarDate(FormatDate(zero, 1, 1))
  {
    FormatDateRoundTrip(year, 2, 30);
    FormatDateRoundTrip(year, 1, 1);
    FormatDateRoundTrip(leapYear, 2, 29);
    FormatDateRoundTrip(centuryYear, 2, 29);
    FormatDateRoundTrip(zero, 1, 1);
  }

  /** Strings of the wrong length or layout, as in the unit tests, always warn. */
  lemma MalformedDatesWarn(s: string)
    requires s == "01-2022-01" || s == "2022-1-1" || s == "MM-YY"
    ensures !IsCalendarDate(s)
  {
    if s == "01-2022-01" {
      assert s[4] == '0';
    }
  }

  // ---------------------------------------------------------------------------------------------
  // ISO8601_MATCH

  /** The number of leading ASCII digits of `s`. */
  function LeadingDigits(s: string): (n: nat)
    ensures n <= |s| && AllDigits(s[..n]) && (n < |s| ==> !IsDigit(s[n]))
  {
    if s != [] && IsDigit(s[0]) then
      var n := 1 + LeadingDigits(s[1..]);
      assert s[..n] == [s[0]] + s[1..][..n - 1];
      n
    else 0
  }

  /** A run of `k` digits followed by a non-digit (or the end) is the leading run. */
  lemma {:induction false} LeadingDigitsExact(s: string, k: nat)
    requires k <= |s| && AllDigits(s[..k]) && (k < |s| ==> !IsDigit(s[k]))
    ensures LeadingDigits(s) == k
  {
    if k > 0 {
      assert IsDigit(s[..k][0]);
      assert s[1..][..k - 1] == s[..k][1..];
      LeadingDigitsExact(s[1..], k - 1);
    } else if s != [] {
      assert !IsDigit(s[0]);
    }
  }

  /** Two ASCII digits whose value lies in `lo..hi`. */
  predicate TwoDigitsIn(s: string, lo: nat, hi: nat)
  {
    |s| == 2 && AllDigits(s) && lo <= DigitsValue(s) <= hi
  }

  /** `(?:[1-9][0-9]*)?[0-9]{4}`: four digits, or more without a leading zero. */
  predicate YearDigitsOk(y: string)
  {
    |y| == 4 || (|y| > 4 && y[0] != '0')
  }

  /** `(Z|[+-](?:2[0-3]|[01][0-9]):?[0-5][0-9])?` followed by the end of the string. */
  predicate ZoneOk(z: string)
  {
    || z == []
    || z == "Z"
    || (|z| == 5 && (z[0] == '+' || z[0] == '-') && TwoDigitsIn(z[1..3], 0, 23) && TwoDigitsIn(z[3..5], 0, 59))
    || (|z| == 6 && (z[0] == '+' || z[0] == '-') && TwoDigitsIn(z[1..3], 0, 23) && z[3] == ':' && TwoDigitsIn(z[4..6], 0, 59))
  }

  /** `(\.[0-9]+)?` and then the zone: the fraction takes every digit after the dot. */
  predicate FractionAndZoneOk(t: string)
  {
    if t != [] && t[0] == '.' then
      var k := LeadingDigits(t[1..]);
      k > 0 && ZoneOk(t[1 + k..])
    else ZoneOk(t)
  }

  /** `-(1[0-2]|0[1-9])-(3[01]|0[1-9]|[12][0-9])T(2[0-3]|[01][0-9]):([0-5][0-9]):([0-5][0-9])` and the rest. */
  predicate AfterYearOk(r: string)
  {
    && |r| >= 15
    && r[0] == '-' && TwoDigitsIn(r[1..3], 1, 12)
    && r[3] == '-' && TwoDigitsIn(r[4..6], 1, 31)
    && r[6] == 'T' && TwoDigitsIn(r[7..9], 0, 23)
    && r[9] == ':' && TwoDigitsIn(r[10..12], 0, 59)
    && r[12] == ':' && TwoDigitsIn(r[13..15], 0, 59)
    && FractionAndZoneOk(r[15..])
  }

  /**
   * `ISO8601_MATCH(s) is not None`. The year group is an optional `-` and a run of digits that
   * must be followed by `-`, so it takes every leading digit; no calendar check is made.
   */
  predicate Iso8601Match(s: string)
  {
    var body := if s != [] && s[0] == '-' then s[1..] else s;
    var n := LeadingDigits(body);
    YearDigitsOk(body[..n]) && AfterYearOk(body[n..])
  }

  /** What a call of `validate_datetime_string` does: return `None` quietly, return `True`, or log a warning. */
  datatype DateTimeVerdict = Empty | Matched | Warned

  /**
   * `validate_datetime_string(record, key)`: a falsy value is skipped; a string the pattern matches
   * gives `True`; anything else, a non-string included (its `TypeError` is swallowed), warns.
   */
  function ValidateDatetimeString(record: Json, key: string): DateTimeVerdict
  {
    var value := GetValueAtJsonPath(record, key);
    if !Truthy(value) then Empty
    else if value.JStr? && Iso8601Match(value.s) then Matched
    else Warned
  }

  /** What `strftime` writes after the year: `-%m-%dT%H:%M:%SZ`. */
  function TimeTail(mo: nat, d: nat, h: nat, mi: nat, sec: nat): string
    requires mo < 100 && d < 100 && h < 100 && mi < 100 && sec < 100
  {
    "-" + Pad2(mo) + "-" + Pad2(d) + "T" + Pad2(h) + ":" + Pad2(mi) + ":" + Pad2(sec) + "Z"
  }

  /** `dt.strftime('%Y-%m-%dT%H:%M:%SZ')` for years below 10000. */
  function FormatDateTime(y: nat, mo: nat, d: nat, h: nat, mi: nat, sec: nat): string
    requires y < 10000 && mo < 100 && d < 100 && h < 100 && mi < 100 && sec < 100
  {
    Pad4(y) + TimeTail(mo, d, h, mi, sec)
  }

  lemma {:induction false} TimeTailOk(mo: nat, d: nat, h: nat, mi: nat, sec: nat)
    requires 1 <= mo <= 12 && 1 <= d <= 31 && h <= 23 && mi <= 59 && sec <= 59
    ensures AfterYearOk(TimeTail(mo, d, h, mi, sec))
  {
    var a, b, c, e, f := Pad2(mo), Pad2(d), Pad2(h), Pad2(mi), Pad2(sec);
    Pad2Value(mo);
    Pad2Value(d);
    Pad2Value(h);
    Pad2Value(mi);
    Pad2Value(sec);
    assert TimeTail(mo, d, h, mi, sec) == ['-', a[0], a[1], '-', b[0], b[1], 'T', c[0], c[1], ':', e[0], e[1], ':', f[0], f[1], 'Z'];
    FieldsOk(a, b, c, e, f);
  }

  /** The text after the year is accepted when its five two-digit fields are in range. */
  lemma FieldsOk(a: string, b: string, c: string, e: string, f: string)
    requires TwoDigitsIn(a, 1, 12) && TwoDigitsIn(b, 1, 31) && TwoDigitsIn(c, 0, 23)
    requires TwoDigitsIn(e, 0, 59) && TwoDigitsIn(f, 0, 59)
    ensures AfterYearOk(['-', a[0], a[1], '-', b[0], b[1], 'T', c[0], c[1], ':', e[0], e[1], ':', f[0], f[1], 'Z'])
  {
    var r := ['-', a[0], a[1], '-', b[0], b[1], 'T', c[0], c[1], ':', e[0], e[1], ':', f[0], f[1], 'Z'];
    assert r[1..3] == a && r[4..6] == b && r[7..9] == c;
    assert r[10..12] == e && r[13..15] == f && r[15..] == "Z";
  }

  /**
   * Every UTC timestamp with fields in range matches the pattern, including days the calendar
   * does not have (February 30th), since the pattern checks only 01 to 31.
   */
  lemma {:induction false} FormattedDateTimeMatches(y: nat, mo: nat, d: nat, h: nat, mi: nat, sec: nat)
    requires y < 10000 && 1 <= mo <= 12 && 1 <= d <= 31 && h <= 23 && mi <= 59 && sec <= 59
    ensures Iso8601Match(FormatDateTime(y, mo, d, h, mi, sec))
  {
    var s := FormatDateTime(y, mo, d, h, mi, sec);
    var r := TimeTail(mo, d, h, mi, sec);
    assert s[0] != '-' by { assert IsDigit(Pad4(y)[0]); }
    assert s[..4] == Pad4(y) && s[4..] == r;
    LeadingDigitsExact(s, 4);
    TimeTailOk(mo, d, h, mi, sec);
  }

  /** The year may carry a `-` sign. */
  lemma {:induction false} SignedYearMatches(y: nat, mo: nat, d: nat, h: nat, mi: nat, sec: nat)
    requires y < 10000 && 1 <= mo <= 12 && 1 <= d <= 31 && h <= 23 && mi <= 59 && sec <= 59
    ensures Iso8601Match("-" + FormatDateTime(y, mo, d, h, mi, sec))
  {
    var s := FormatDateTime(y, mo, d, h, mi, sec);
    FormattedDateTimeMatches(y, mo, d, h, mi, sec);
    assert s[0] != '-' by { assert IsDigit(Pad4(y)[0]); }
    assert ("-" + s)[1..] == s;
  }

  /** The year may have more than four digits, but then it may not start with `0`. */
  lemma {:induction false} LongYearMatches(y: nat, mo: nat, d: nat, h: nat, mi: nat, sec: nat, c: char)
    requires y < 10000 && 1 <= mo <= 12 && 1 <= d <= 31 && h <= 23 && mi <= 59 && sec <= 59
    requires IsDigit(c)
    ensures Iso8601Match([c] + FormatDateTime(y, mo, d, h, mi, sec)) <==> c != '0'
  {
    var r := TimeTail(mo, d, h, mi, sec);
    var t := [c] + FormatDateTime(y, mo, d, h, mi, sec);
    assert t == ([c] + Pad4(y)) + r;
    AllDigitsAppend([c], Pad4(y));
    assert t[..5] == [c] + Pad4(y) && t[5..] == r;
    LeadingDigitsExact(t, 5);
    TimeTailOk(mo, d, h, mi, sec);
  }

  /** The date-time unit test value has letters for the hour, so it warns. */
  lemma BadHourWarns(record: Json, key: string, s: string)
    requires GetValueAtJsonPath(record, key) == JStr(s) && s == "2022-02-30TAA:00:00Z"
    ensures ValidateDatetimeString(record, key) == Warned
  {
    BadHourNoMatch(s);
  }

  /** The hour `AA` is not two digits, so the pattern fails. */
  lemma BadHourNoMatch(s: string)
    requires s == "2022-02-30TAA:00:00Z"
    ensures !Iso8601Match(s)
  {
    assert s[..4] == "2022" && s[4] == '-';
    LeadingDigitsExact(s, 4);
    var r := s[4..];
    assert r[7] == 'A';
    assert !TwoDigitsIn(r[7..9], 0, 23) by { assert !IsDigit(r[7..9][0]); }
    assert !AfterYearOk(r);
  }
}
