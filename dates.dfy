/**
 * Dates: `parseDate` rewrites four textual shapes into two canonical ones
 * without looking at the calendar; `convertToDate` reads a canonical string
 * back into (year, month, day), builds a JavaScript `Date` from it and
 * rejects the string when the built date reads back different components;
 * `isReturnDateValid` compares two such dates.
 */
module Dates {
  import opened Wrappers
  import opened Text

  // ---------------------------------------------------------------------
  // Textual shapes
  // ---------------------------------------------------------------------

  const MonthNames: seq<string> :=
    ["JAN", "FEB", "MAR", "APR", "MAY", "JUN", "JUL", "AUG", "SEP", "OCT", "NOV", "DEC"]

  predicate IsMonthName(s: string)
  {
    s in MonthNames
  }

  /** The `months` table of `convertToDate`, after `parseInt`: JAN is 1. */
  function MonthNumber(name: string): (r: nat)
    requires IsMonthName(name)
    ensures 1 <= r <= 12 && MonthNames[r - 1] == name
  {
    if name == "JAN" then 1 else if name == "FEB" then 2 else if name == "MAR" then 3
    else if name == "APR" then 4 else if name == "MAY" then 5 else if name == "JUN" then 6
    else if name == "JUL" then 7 else if name == "AUG" then 8 else if name == "SEP" then 9
    else if name == "OCT" then 10 else if name == "NOV" then 11 else 12
  }

  /** `^\d{2}\/\d{2}\/\d{4}$` */
  predicate IsDayMonthYear(s: string)
  {
    |s| == 10 && AllDigits(s[0..2]) && s[2] == '/' && AllDigits(s[3..5]) && s[5] == '/'
    && AllDigits(s[6..10])
  }

  /** `^\d{4}-\d{2}-\d{2}$` */
  predicate IsYearMonthDay(s: string)
  {
    |s| == 10 && AllDigits(s[0..4]) && s[4] == '-' && AllDigits(s[5..7]) && s[7] == '-'
    && AllDigits(s[8..10])
  }

  /** The separator class: `[\s\/-]` in `parseDate`, `\s` in `convertToDate`. */
  predicate IsSeparator(c: char, lenient: bool)
  {
    IsWhitespace(c) || (lenient && (c == '/' || c == '-'))
  }

  /** How many digits `\d{1,2}` takes at the start of `s` (0: no match). */
  function DayDigits(s: string): (k: nat)
    ensures k <= 2 && k <= |s| && AllDigits(s[..k])
    ensures k < |s| && k < 2 ==> !IsDigit(s[k])
  {
    if |s| >= 1 && IsDigit(s[0]) then (if |s| >= 2 && IsDigit(s[1]) then 2 else 1) else 0
  }

  /** The groups of a month-name date: day, month name, and year when given. */
  datatype NamedParts = NamedParts(day: string, month: string, year: Option<string>)

  /** `^(\d{1,2})SEP(JAN|...|DEC)(?:SEP(\d{4}))?$`, where the year group is
      optional only in the lenient (`parseDate`) form. */
  function MatchNamed(s: string, lenient: bool): (r: Option<NamedParts>)
    ensures r.Some? ==> 1 <= |r.value.day| <= 2 && AllDigits(r.value.day)
    ensures r.Some? ==> IsMonthName(r.value.month)
    ensures r.Some? && r.value.year.Some? ==> |r.value.year.value| == 4 && AllDigits(r.value.year.value)
    ensures r.Some? && !lenient ==> r.value.year.Some?
    ensures r.Some? ==> var k := |r.value.day|;
      && k + 4 <= |s| && s[..k] == r.value.day && IsSeparator(s[k], lenient) && s[k + 1..k + 4] == r.value.month
      && (if r.value.year.None? then |s| == k + 4
          else |s| == k + 9 && IsSeparator(s[k + 4], lenient) && s[k + 5..] == r.value.year.value)
  {
    var k := DayDigits(s);
    if k == 0 || |s| < k + 4 || !IsSeparator(s[k], lenient) || !IsMonthName(s[k + 1..k + 4]) then None
    else if |s| == k + 4 && lenient then Some(NamedParts(s[..k], s[k + 1..k + 4], None))
    else if |s| == k + 9 && IsSeparator(s[k + 4], lenient) && AllDigits(s[k + 5..]) then
      Some(NamedParts(s[..k], s[k + 1..k + 4], Some(s[k + 5..])))
    else None
  }

  /** The month-name shape read off the regular expression, with the day
      taking `k` characters. */
  predicate NamedAt(s: string, k: nat, lenient: bool)
  {
    1 <= k <= 2 && k + 4 <= |s| && AllDigits(s[..k]) && IsSeparator(s[k], lenient)
    && IsMonthName(s[k + 1..k + 4])
    && ((lenient && |s| == k + 4)
        || (|s| == k + 9 && IsSeparator(s[k + 4], lenient) && AllDigits(s[k + 5..])))
  }

  predicate IsNamedDate(s: string, lenient: bool)
  {
    exists k :: 1 <= k <= 2 && NamedAt(s, k, lenient)
  }

  /** The anchored regular expression matches exactly the month-name shape. */
  lemma MatchNamedIff(s: string, lenient: bool)
    ensures MatchNamed(s, lenient).Some? <==> IsNamedDate(s, lenient)
  {
    var k := DayDigits(s);
    if MatchNamed(s, lenient).Some? {
      assert NamedAt(s, k, lenient);
    }
    if IsNamedDate(s, lenient) {
      var j :| 1 <= j <= 2 && NamedAt(s, j, lenient);
      assert IsDigit(s[..j][0]);
      if j == 2 {
        assert IsDigit(s[..j][1]);
      }
      assert k == j;
    }
  }

  /** `parseDate(input)`: the input is trimmed and upper-cased, then
      `DD/MM/YYYY` is kept as it is, `YYYY-MM-DD` becomes `DD/MM/YYYY`, and a
      month-name date becomes `D MON YYYY` with single spaces, the missing
      year being `currentYear` (the source reads it from the clock). */
  function ParseDate(input: string, currentYear: nat): Option<string>
  {
    Rewrite(Upper(Trim(input)), currentYear)
  }

  /** The rewriting of `parseDate` on the trimmed, upper-cased input. */
  function Rewrite(s: string, currentYear: nat): Option<string>
  {
    if IsDayMonthYear(s) then Some(s)
    else if IsYearMonthDay(s) then Some(s[8..10] + "/" + s[5..7] + "/" + s[0..4])
    else match MatchNamed(s, true)
      case None => None
      case Some(p) =>
        var year := if p.year.Some? then p.year.value else Decimal(currentYear);
        Some(p.day + " " + p.month + " " + year)
  }

  /** The second canonical shape: `D{1,2} MON YYYY`, single spaces. */
  predicate IsCanonicalNamed(s: string)
  {
    var k := DayDigits(s);
    1 <= k && |s| == k + 9 && s[k] == ' ' && IsMonthName(s[k + 1..k + 4]) && s[k + 4] == ' '
    && AllDigits(s[k + 5..])
  }

  // ---------------------------------------------------------------------
  // The calendar, and JavaScript's Date constructor
  // ---------------------------------------------------------------------

  /** Gregorian leap years, as JavaScript's proleptic calendar has them. */
  predicate IsLeapYear(y: int)
  {
    y % 4 == 0 && (y % 100 != 0 || y % 400 == 0)
  }

  /** Days in the month with zero-based index `m` (0 is January). */
  function DaysInMonth(y: int, m: int): (r: int)
    requires 0 <= m < 12
    ensures 28 <= r <= 31
    ensures r == 29 <==> m == 1 && IsLeapYear(y)
  {
    if m == 1 then (if IsLeapYear(y) then 29 else 28)
    else if m == 3 || m == 5 || m == 8 || m == 10 then 30
    else 31
  }

  /** The whole month table: February has 28 days outside leap years,
      April, June, September and November have 30, and the rest 31. */
  lemma DaysInMonthTable(y: int, m: int)
    requires 0 <= m < 12
    ensures DaysInMonth(y, m) == 28 <==> m == 1 && !IsLeapYear(y)
    ensures DaysInMonth(y, m) == 30 <==> m == 3 || m == 5 || m == 8 || m == 10
    ensures DaysInMonth(y, m) == 31 <==> m != 1 && m != 3 && m != 5 && m != 8 && m != 10
  {
  }

  /** What `getFullYear()`, `getMonth()` and `getDate()` read back. */
  datatype JsDate = JsDate(fullYear: int, monthIndex: int, date: int)

  predicate IsCalendarDay(y: int, m: int, d: int)
  {
    0 <= m < 12 && 1 <= d <= DaysInMonth(y, m)
  }

  /** (y1, m1) comes strictly before (y2, m2). */
  predicate MonthBefore(y1: int, m1: int, y2: int, m2: int)
  {
    y1 < y2 || (y1 == y2 && m1 < m2)
  }

  /** Day `d` of month `m` of `y`, where `d` may lie outside the month:
      it rolls over into the months before or after, as `Date` does. */
  function Rollover(y: int, m: int, d: int): (r: JsDate)
    requires 0 <= m < 12
    ensures IsCalendarDay(r.fullYear, r.monthIndex, r.date)
    decreases if d < 1 then 1 else 0, if d < 1 then -d else d
  {
    if d < 1 then
      var py := if m == 0 then y - 1 else y;
      var pm := if m == 0 then 11 else m - 1;
      Rollover(py, pm, d + DaysInMonth(py, pm))
    else if d > DaysInMonth(y, m) then
      var ny := if m == 11 then y + 1 else y;
      var nm := if m == 11 then 0 else m + 1;
      Rollover(ny, nm, d - DaysInMonth(y, m))
    else JsDate(y, m, d)
  }

  /** `new Date(year, monthIndex, day)` in local time: years 0 to 99 mean
      1900 to 1999, the month index is carried into the year, and the day
      rolls over. */
  function NewDate(year: int, monthIndex: int, day: int): JsDate
  {
    var y := if 0 <= year <= 99 then 1900 + year else year;
    Rollover(y + monthIndex / 12, monthIndex % 12, day)
  }

  /** A day that is already on the calendar does not roll; a day past the
      end of its month rolls into a strictly later month. */
  lemma {:induction false} RolloverForward(y: int, m: int, d: int)
    requires 0 <= m < 12 && d >= 1
    ensures var r := Rollover(y, m, d);
      (r.fullYear, r.monthIndex) == (y, m) || MonthBefore(y, m, r.fullYear, r.monthIndex)
    ensures var r := Rollover(y, m, d);
      d > DaysInMonth(y, m) ==> MonthBefore(y, m, r.fullYear, r.monthIndex)
    decreases d
  {
    if d > DaysInMonth(y, m) {
      var ny := if m == 11 then y + 1 else y;
      var nm := if m == 11 then 0 else m + 1;
      RolloverForward(ny, nm, d - DaysInMonth(y, m));
    }
  }

  /** The round-trip check of `convertToDate`: the built date reads back
      the very components it was built from exactly when they name a day
      of the calendar and the year is not one of 0 to 99. */
  lemma NewDateRoundTrip(y: int, m: int, d: int)
    ensures NewDate(y, m, d) == JsDate(y, m, d) <==> !(0 <= y <= 99) && IsCalendarDay(y, m, d)
  {
    var r := NewDate(y, m, d);
    var yy := if 0 <= y <= 99 then 1900 + y else y;
    if r == JsDate(y, m, d) {
      assert 0 <= m < 12 && d >= 1;
      assert m / 12 == 0 && m % 12 == m;
      RolloverForward(yy, m, d);
    }
  }

  // ---------------------------------------------------------------------
  // convertToDate and isReturnDateValid
  // ---------------------------------------------------------------------

  /** Year, month (1 to 12) and day as the source's variables hold them. */
  datatype Ymd = Ymd(year: int, month: int, day: int)

  /** The two ways `convertToDate` throws. */
  datatype DateError = InvalidFormat | NotInCalendar

  /** The three shapes `convertToDate` accepts, read with `parseInt`. */
  function ScanDate(s: string): Option<Ymd>
  {
    if IsDayMonthYear(s) then
      Some(Ymd(DecimalValue(s[6..10]), DecimalValue(s[3..5]), DecimalValue(s[0..2])))
    else if IsYearMonthDay(s) then
      Some(Ymd(DecimalValue(s[0..4]), DecimalValue(s[5..7]), DecimalValue(s[8..10])))
    else match MatchNamed(s, false)
      case None => None
      case Some(p) => Some(Ymd(DecimalValue(p.year.value), MonthNumber(p.month), DecimalValue(p.day)))
  }

  /** `convertToDate(dateStr)`; `Ok` carries the components the accepted date reads back. */
  function ConvertToDate(s: string): Result<Ymd, DateError>
  {
    CheckCalendar(ScanDate(s))
  }

  /** The part of `convertToDate` after the regular expressions: no match
      throws the format error, and a date that reads back different
      components throws the calendar error. */
  function CheckCalendar(scan: Option<Ymd>): Result<Ymd, DateError>
  {
    match scan
    case None => Err(InvalidFormat)
    case Some(f) =>
      var date := NewDate(f.year, f.month - 1, f.day);
      if date.fullYear != f.year || date.monthIndex != f.month - 1 || date.date != f.day then
        Err(NotInCalendar)
      else Ok(f)
  }

  /** The day exists: month 1 to 12, day within that month's length, year at least 100. */
  predicate ExistsOnCalendar(f: Ymd)
  {
    100 <= f.year && 1 <= f.month <= 12 && 1 <= f.day <= DaysInMonth(f.year, f.month - 1)
  }

  /** `convertToDate` fails with "Invalid date format" exactly when none of
      its shapes matches, and otherwise succeeds exactly when the date is on
      the calendar (29 February only in a leap year, never 31 February, no
      year below 100); on success it returns the components it read. */
  lemma ConvertToDateSpec(s: string)
    ensures ConvertToDate(s) == Err(InvalidFormat) <==> ScanDate(s).None?
    ensures ConvertToDate(s).Ok? <==> ScanDate(s).Some? && ExistsOnCalendar(ScanDate(s).value)
    ensures ConvertToDate(s).Ok? ==> Some(ConvertToDate(s).value) == ScanDate(s)
  {
    if ScanDate(s).Some? {
      var f := ScanDate(s).value;
      assert f.year >= 0;
      NewDateRoundTrip(f.year, f.month - 1, f.day);
    }
  }

  /** `ret > dep` on two dates that passed the round-trip check. */
  predicate Before(a: Ymd, b: Ymd)
  {
    a.year < b.year || (a.year == b.year && (a.month < b.month || (a.month == b.month && a.day < b.day)))
  }

  /** `isReturnDateValid(departureDate, returnDate)`: a missing or empty
      argument, or one that `convertToDate` rejects, gives false; otherwise
      the return date must be strictly later. */
  function IsReturnDateValid(departure: Option<string>, ret: Option<string>): bool
  {
    if departure.None? || departure.value == "" || ret.None? || ret.value == "" then false
    else match (ConvertToDate(departure.value), ConvertToDate(ret.value))
      case (Ok(dep), Ok(back)) => Before(dep, back)
      case _ => false
  }

  // ---------------------------------------------------------------------
  // What parseDate promises, and how it feeds convertToDate
  // ---------------------------------------------------------------------

  lemma MonthNameIsUpper(m: string)
    requires IsMonthName(m)
    ensures |m| == 3 && forall i :: 0 <= i < 3 ==> IsUpperAscii(m[i])
  {
  }

  /** Every non-null result of `parseDate` is `DD/MM/YYYY` or `D{1,2} MON YYYY`
      (given a four-digit current year). */
  lemma ParseDateShape(input: string, currentYear: nat)
    requires 1000 <= currentYear <= 9999
    ensures ParseDate(input, currentYear).Some? ==>
      var r := ParseDate(input, currentYear).value;
      IsDayMonthYear(r) || IsCanonicalNamed(r)
  {
    RewriteShape(Upper(Trim(input)), currentYear);
  }

  lemma RewriteShape(s: string, currentYear: nat)
    requires 1000 <= currentYear <= 9999
    ensures Rewrite(s, currentYear).Some? ==>
      var r := Rewrite(s, currentYear).value;
      IsDayMonthYear(r) || IsCanonicalNamed(r)
  {
    if IsDayMonthYear(s) {
    } else if IsYearMonthDay(s) {
      var r := s[8..10] + "/" + s[5..7] + "/" + s[0..4];
      assert r[0..2] == s[8..10] && r[3..5] == s[5..7] && r[6..10] == s[0..4];
    } else if MatchNamed(s, true).Some? {
      var p := MatchNamed(s, true).value;
      var year := if p.year.Some? then p.year.value else Decimal(currentYear);
      if p.year.None? {
        DecimalFourDigits(currentYear);
      }
      var r := p.day + " " + p.month + " " + year;
      var k := |p.day|;
      assert r[..k] == p.day && r[k] == ' ';
      assert DayDigits(r) == k;
      assert r[k + 1..k + 4] == p.month && r[k + 4] == ' ' && r[k + 5..] == year;
    }
  }

  /** `parseDate` returns a result exactly for the four input shapes, seen
      after trimming and upper-casing; anything else gives null. */
  lemma ParseOnlyFourShapes(input: string, currentYear: nat)
    ensures var t := Upper(Trim(input));
      ParseDate(input, currentYear).Some? <==>
        IsDayMonthYear(t) || IsYearMonthDay(t) || IsNamedDate(t, true)
  {
    MatchNamedIff(Upper(Trim(input)), true);
  }

  /** A canonical string is one of the shapes `convertToDate` reads. */
  lemma CanonicalScans(r: string)
    requires IsDayMonthYear(r) || IsCanonicalNamed(r)
    ensures ScanDate(r).Some?
  {
    if !IsDayMonthYear(r) {
      var k := DayDigits(r);
      assert !IsYearMonthDay(r) by {
        assert !IsDigit(r[k]);
      }
      assert MatchNamed(r, false).Some?;
    }
  }

  /** `parseDate` feeds `convertToDate` cleanly: a date that parsed can only
      fail the calendar check, never with "Invalid date format". */
  lemma ParsedDateNeverBadFormat(input: string, currentYear: nat)
    requires 1000 <= currentYear <= 9999
    ensures ParseDate(input, currentYear).Some? ==>
      ConvertToDate(ParseDate(input, currentYear).value) != Err(InvalidFormat)
  {
    ParseDateShape(input, currentYear);
    if ParseDate(input, currentYear).Some? {
      CanonicalScans(ParseDate(input, currentYear).value);
      ConvertToDateSpec(ParseDate(input, currentYear).value);
    }
  }

  /** A canonical string has no surrounding whitespace and no lower-case letter. */
  lemma CanonicalIsNormal(r: string)
    requires IsDayMonthYear(r) || IsCanonicalNamed(r)
    ensures Upper(Trim(r)) == r
  {
    if IsDayMonthYear(r) {
      assert IsDigit(r[0..2][0]) && IsDigit(r[6..10][3]);
      TrimKeepsSolidEnds(r);
      forall i | 0 <= i < |r| ensures r[i] == '/' || IsDigit(r[i]) {
        if i < 2 { assert r[i] == r[0..2][i]; }
        else if 3 <= i < 5 { assert r[i] == r[3..5][i - 3]; }
        else if 6 <= i { assert r[i] == r[6..10][i - 6]; }
      }
    } else {
      var k := DayDigits(r);
      assert IsDigit(r[..k][0]) && IsDigit(r[k + 5..][3]);
      TrimKeepsSolidEnds(r);
      MonthNameIsUpper(r[k + 1..k + 4]);
      forall i | 0 <= i < |r| ensures !IsLowerAscii(r[i]) {
        if i < k { assert r[i] == r[..k][i]; }
        else if k + 1 <= i < k + 4 { assert r[i] == r[k + 1..k + 4][i - k - 1]; }
        else if k + 5 <= i { assert r[i] == r[k + 5..][i - k - 5]; }
      }
    }
    UpperKeepsNonLower(r);
  }

  /** Canonical strings are fixed points of `parseDate`, whatever the year. */
  lemma ParseCanonicalUnchanged(r: string, anyYear: nat)
    requires IsDayMonthYear(r) || IsCanonicalNamed(r)
    ensures ParseDate(r, anyYear) == Some(r)
  {
    CanonicalIsNormal(r);
    if !IsDayMonthYear(r) {
      CanonicalNamedRewrites(r, anyYear);
    }
  }

  /** The rewriting keeps `D MON YYYY` as it is. */
  lemma CanonicalNamedRewrites(r: string, anyYear: nat)
    requires IsCanonicalNamed(r) && !IsDayMonthYear(r)
    ensures Rewrite(r, anyYear) == Some(r)
  {
    var k := DayDigits(r);
    assert !IsYearMonthDay(r) by {
      assert !IsDigit(r[k]);
    }
    assert MatchNamed(r, true) == Some(NamedParts(r[..k], r[k + 1..k + 4], Some(r[k + 5..])));
    assert r == r[..k] + " " + r[k + 1..k + 4] + " " + r[k + 5..];
  }

  /** `parseDate` is idempotent on its own results. */
  lemma ParseDateIdempotent(input: string, currentYear: nat, laterYear: nat)
    requires 1000 <= currentYear <= 9999
    ensures ParseDate(input, currentYear).Some? ==>
      var r := ParseDate(input, currentYear).value;
      ParseDate(r, laterYear) == Some(r)
  {
    ParseDateShape(input, currentYear);
    if ParseDate(input, currentYear).Some? {
      ParseCanonicalUnchanged(ParseDate(input, currentYear).value, laterYear);
    }
  }

  /** `DD/MM/YYYY` comes back unchanged. */
  lemma ParseKeepsDayMonthYear(s: string, currentYear: nat)
    requires IsDayMonthYear(s)
    ensures ParseDate(s, currentYear) == Some(s)
  {
    ParseCanonicalUnchanged(s, currentYear);
  }

  /** `YYYY-MM-DD` becomes `DD/MM/YYYY` with the fields swapped, and both
      spellings denote the same date for `convertToDate`. */
  lemma ParseSwapsYearMonthDay(y: string, m: string, d: string, currentYear: nat)
    requires |y| == 4 && |m| == 2 && |d| == 2 && AllDigits(y) && AllDigits(m) && AllDigits(d)
    ensures ParseDate(y + "-" + m + "-" + d, currentYear) == Some(d + "/" + m + "/" + y)
    ensures ConvertToDate(y + "-" + m + "-" + d) == ConvertToDate(d + "/" + m + "/" + y)
  {
    var s, t := y + "-" + m + "-" + d, d + "/" + m + "/" + y;
    YearMonthDayText(y, m, d);
    DayMonthYearText(d, m, y);
    assert Rewrite(s, currentYear) == Some(t);
  }

  /** `YYYY-MM-DD` from its fields: that shape only, already trimmed and
      upper-cased, read as the fields' values. */
  lemma YearMonthDayText(y: string, m: string, d: string)
    requires |y| == 4 && |m| == 2 && |d| == 2 && AllDigits(y) && AllDigits(m) && AllDigits(d)
    ensures var s := y + "-" + m + "-" + d;
      && IsYearMonthDay(s) && !IsDayMonthYear(s) && Upper(Trim(s)) == s
      && s[0..4] == y && s[5..7] == m && s[8..10] == d
      && ScanDate(s) == Some(Ymd(DecimalValue(y), DecimalValue(m), DecimalValue(d)))
  {
    var s := y + "-" + m + "-" + d;
    ThreeFields(y, "-", m, "-", d);
    assert IsYearMonthDay(s);
    assert !IsDayMonthYear(s) by {
      assert s[2] == y[2];
    }
    assert !IsWhitespace(s[0]) && !IsWhitespace(s[9]) by {
      assert s[0] == y[0] && s[9] == d[1];
    }
    TrimKeepsSolidEnds(s);
    forall i | 0 <= i < |s| ensures !IsLowerAscii(s[i]) {
      if i < 4 { assert s[i] == y[i]; }
      else if 5 <= i < 7 { assert s[i] == m[i - 5]; }
      else if 8 <= i { assert s[i] == d[i - 8]; }
    }
    UpperKeepsNonLower(s);
  }

  /** `DD/MM/YYYY` from its fields: that shape, read as the fields' values. */
  lemma DayMonthYearText(d: string, m: string, y: string)
    requires |d| == 2 && |m| == 2 && |y| == 4 && AllDigits(d) && AllDigits(m) && AllDigits(y)
    ensures var t := d + "/" + m + "/" + y;
      IsDayMonthYear(t) && ScanDate(t) == Some(Ymd(DecimalValue(y), DecimalValue(m), DecimalValue(d)))
  {
    var t := d + "/" + m + "/" + y;
    ThreeFields(d, "/", m, "/", y);
    assert IsDayMonthYear(t);
  }

  /** A month-name date may use a space, `/` or `-` between its parts, in
      any letter case; it comes out single-spaced and upper-cased, with the
      current year when none was given. */
  lemma ParseNamedDate(day: string, month: string, sep1: char, sep2: char, year: string, currentYear: nat)
    requires 1 <= |day| <= 2 && AllDigits(day)
    requires |month| == 3 && IsMonthName(Upper(month))
    requires IsSeparator(sep1, true) && IsSeparator(sep2, true)
    requires |year| == 4 && AllDigits(year)
    ensures ParseDate(day + [sep1] + month, currentYear) == Some(day + " " + Upper(month) + " " + Decimal(currentYear))
    ensures ParseDate(day + [sep1] + month + [sep2] + year, currentYear) == Some(day + " " + Upper(month) + " " + year)
  {
    NamedParsesAs(day, month, sep1, [], currentYear);
    assert day + [sep1] + month + [] == day + [sep1] + month;
    var tail := [sep2] + year;
    assert tail[1..] == year;
    NamedParsesAs(day, month, sep1, tail, currentYear);
    ConcatAssoc(day + [sep1] + month, [sep2], year);
  }

  /** Helper for ParseNamedDate: the text after the month is empty or a separated year. */
  lemma NamedParsesAs(day: string, month: string, sep1: char, tail: string, currentYear: nat)
    requires 1 <= |day| <= 2 && AllDigits(day)
    requires |month| == 3 && IsMonthName(Upper(month))
    requires IsSeparator(sep1, true)
    requires tail == [] || (|tail| == 5 && IsSeparator(tail[0], true) && AllDigits(tail[1..]))
    ensures var i := day + [sep1] + month + tail;
      ParseDate(i, currentYear)
        == Some(day + " " + Upper(month) + " " + if tail == [] then Decimal(currentYear) else tail[1..])
  {
    var i := day + [sep1] + month + tail;
    NamedInputTrimmed(day, month, sep1, tail);
    UpperConcat(day + [sep1] + month, tail);
    UpperConcat(day + [sep1], month);
    UpperConcat(day, [sep1]);
    UpperKeepsNonLower(day);
    UpperKeepsNonLower([sep1]);
    if tail != [] {
      assert forall j :: 0 <= j < |tail| ==> !IsLowerAscii(tail[j]) by {
        forall j | 1 <= j < |tail| ensures !IsLowerAscii(tail[j]) { assert IsDigit(tail[1..][j - 1]); }
      }
    }
    UpperKeepsNonLower(tail);
    assert Upper(i) == day + [sep1] + Upper(month) + tail;
    RewriteNamed(day, sep1, Upper(month), tail, currentYear);
  }

  /** The input of ParseNamedDate starts with a digit and ends with a letter or a digit. */
  lemma NamedInputTrimmed(day: string, month: string, sep1: char, tail: string)
    requires 1 <= |day| <= 2 && AllDigits(day)
    requires |month| == 3 && IsMonthName(Upper(month))
    requires tail == [] || (|tail| == 5 && AllDigits(tail[1..]))
    ensures var i := day + [sep1] + month + tail; Trim(i) == i
  {
    var i := day + [sep1] + month + tail;
    assert !IsWhitespace(i[0]) by { assert i[0] == day[0]; }
    assert !IsWhitespace(i[|i| - 1]) by {
      if tail == [] {
        assert i[|i| - 1] == month[2];
        MonthNameIsUpper(Upper(month));
      } else {
        assert i[|i| - 1] == tail[1..][3];
      }
    }
    TrimKeepsSolidEnds(i);
  }

  /** The rewriting of a month-name date whose parts are already isolated. */
  lemma RewriteNamed(day: string, sep1: char, month: string, tail: string, currentYear: nat)
    requires 1 <= |day| <= 2 && AllDigits(day) && IsMonthName(month) && IsSeparator(sep1, true)
    requires tail == [] || (|tail| == 5 && IsSeparator(tail[0], true) && AllDigits(tail[1..]))
    ensures Rewrite(day + [sep1] + month + tail, currentYear)
      == Some(day + " " + month + " " + if tail == [] then Decimal(currentYear) else tail[1..])
  {
    var s := day + [sep1] + month + tail;
    var k := |day|;
    assert s[..k] == day && s[k] == sep1 && s[k + 1..k + 4] == month && s[k + 4..] == tail;
    assert DayDigits(s) == k by {
      assert IsDigit(s[..k][0]);
      if k == 2 { assert IsDigit(s[..k][1]); }
      assert !IsDigit(sep1);
    }
    assert !IsDayMonthYear(s) && !IsYearMonthDay(s) by {
      assert !IsDigit(s[k]);
      if k == 1 { assert s[2] == s[k + 1..k + 4][0]; MonthNameIsUpper(month); }
    }
    if tail != [] {
      assert s[k + 4] == tail[0];
      assert s[k + 5..] == tail[1..];
    }
  }

  // ---------------------------------------------------------------------
  // What isReturnDateValid promises
  // ---------------------------------------------------------------------

  /** The return date is accepted exactly when both strings are dates that
      exist on the calendar and the return comes strictly later. */
  lemma ReturnDateValidMeaning(departure: string, ret: string)
    ensures IsReturnDateValid(Some(departure), Some(ret)) <==>
      && ScanDate(departure).Some? && ExistsOnCalendar(ScanDate(departure).value)
      && ScanDate(ret).Some? && ExistsOnCalendar(ScanDate(ret).value)
      && Before(ScanDate(departure).value, ScanDate(ret).value)
  {
    ConvertToDateSpec(departure);
    ConvertToDateSpec(ret);
    assert !IsDayMonthYear("") && !IsYearMonthDay("") && MatchNamed("", false).None?;
  }

  /** A missing departure or return date is never a valid pair. */
  lemma ReturnDateNeedsBoth(d: Option<string>)
    ensures !IsReturnDateValid(None, d) && !IsReturnDateValid(d, None)
  {
  }

  /** A date is never a valid return date for itself. */
  lemma ReturnDateIrreflexive(d: Option<string>)
    ensures !IsReturnDateValid(d, d)
  {
  }

  /** Accepted pairs chain: the relation is a strict order. */
  lemma ReturnDateTransitive(a: string, b: string, c: string)
    requires IsReturnDateValid(Some(a), Some(b)) && IsReturnDateValid(Some(b), Some(c))
    ensures IsReturnDateValid(Some(a), Some(c))
    ensures !IsReturnDateValid(Some(b), Some(a))
  {
  }

  // ---------------------------------------------------------------------
  // Worked examples
  // ---------------------------------------------------------------------

  /** `convertToDate` on `DD/MM/YYYY` built from its three fields. */
  lemma ConvertDayMonthYear(d: string, m: string, y: string)
    requires |d| == 2 && |m| == 2 && |y| == 4 && AllDigits(d) && AllDigits(m) && AllDigits(y)
    ensures var f := Ymd(DecimalValue(y), DecimalValue(m), DecimalValue(d));
      ConvertToDate(d + "/" + m + "/" + y) == if ExistsOnCalendar(f) then Ok(f) else Err(NotInCalendar)
  {
    var s := d + "/" + m + "/" + y;
    DayMonthYearText(d, m, y);
    ConvertToDateSpec(s);
  }

  /** `convertToDate` on `DD MON YYYY` built from its three fields. */
  lemma ConvertNamed(d: string, mon: string, y: string)
    requires 1 <= |d| <= 2 && |y| == 4 && AllDigits(d) && AllDigits(y) && IsMonthName(mon)
    ensures var f := Ymd(DecimalValue(y), MonthNumber(mon), DecimalValue(d));
      ConvertToDate(d + " " + mon + " " + y) == if ExistsOnCalendar(f) then Ok(f) else Err(NotInCalendar)
  {
    var s := d + " " + mon + " " + y;
    var k := |d|;
    assert s[..k] == d && s[k] == ' ' && s[k + 1..k + 4] == mon && s[k + 4] == ' ' && s[k + 5..] == y;
    assert DayDigits(s) == k by {
      assert IsDigit(s[..k][0]);
      if k == 2 { assert IsDigit(s[..k][1]); }
    }
    assert !IsDayMonthYear(s) && !IsYearMonthDay(s) by {
      assert !IsDigit(s[k]);
      if k == 1 { assert s[2] == s[k + 1..k + 4][0]; MonthNameIsUpper(mon); }
    }
    assert MatchNamed(s, false) == Some(NamedParts(d, mon, Some(y)));
    ConvertToDateSpec(s);
  }

  /** The example dates below take the date text as a parameter fixed by
      the precondition, which keeps `convertToDate` from being unfolded on
      the literal. */
  lemma SixteenthOfJanuaryConverts(s: string)
    requires s == "16/01/2026"
    ensures ConvertToDate(s) == Ok(Ymd(2026, 1, 16))
  {
    DecimalValueOfFour("2026");
    DecimalValueOfTwo("16");
    DecimalValueOfTwo("01");
    assert "16" + "/" + "01" + "/" + "2026" == s;
    ConvertDayMonthYear("16", "01", "2026");
  }

  /** The month-name spelling denotes the same day. */
  lemma SixteenJanConverts(s: string)
    requires s == "16 JAN 2026"
    ensures ConvertToDate(s) == Ok(Ymd(2026, 1, 16))
  {
    DecimalValueOfFour("2026");
    DecimalValueOfTwo("16");
    assert MonthNumber("JAN") == 1;
    assert "16" + " " + "JAN" + " " + "2026" == s;
    ConvertNamed("16", "JAN", "2026");
  }

  /** Well-formed but nonexistent days fail only the calendar check. */
  lemma NoThirtyFirstOfFebruary(s: string)
    requires s == "31/02/2026"
    ensures ConvertToDate(s) == Err(NotInCalendar)
  {
    DecimalValueOfFour("2026");
    DecimalValueOfTwo("31");
    DecimalValueOfTwo("02");
    assert "31" + "/" + "02" + "/" + "2026" == s;
    ConvertDayMonthYear("31", "02", "2026");
  }

  lemma LeapDayIn2024(s: string)
    requires s == "29/02/2024"
    ensures ConvertToDate(s) == Ok(Ymd(2024, 2, 29))
  {
    DecimalValueOfFour("2024");
    DecimalValueOfTwo("29");
    DecimalValueOfTwo("02");
    assert "29" + "/" + "02" + "/" + "2024" == s;
    ConvertDayMonthYear("29", "02", "2024");
  }

  /** Years 0 to 99 never pass, because `Date` reads them as 1900 to 1999. */
  lemma TwoDigitYearsRejected(s: string)
    requires s == "01/01/0050"
    ensures ConvertToDate(s) == Err(NotInCalendar)
  {
    DecimalValueOfFour("0050");
    DecimalValueOfTwo("01");
    assert "01" + "/" + "01" + "/" + "0050" == s;
    ConvertDayMonthYear("01", "01", "0050");
  }

  lemma ReturnDateExamples(departure: string, ret: string)
    requires departure == "16/01/2026" && ret == "20/01/2026"
    ensures IsReturnDateValid(Some(departure), Some(ret))
    ensures !IsReturnDateValid(Some(ret), Some(departure))
  {
    DecimalValueOfFour("2026");
    DecimalValueOfTwo("16");
    DecimalValueOfTwo("20");
    DecimalValueOfTwo("01");
    assert "16" + "/" + "01" + "/" + "2026" == departure;
    assert "20" + "/" + "01" + "/" + "2026" == ret;
    ConvertDayMonthYear("16", "01", "2026");
    ConvertDayMonthYear("20", "01", "2026");
  }
}
