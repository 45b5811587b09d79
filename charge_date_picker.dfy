/**
 * The charge-date picker: the date travels as a "YYYY-MM-DD" string, the
 * calendar works on local calendar days, and only today and the fourteen
 * days after it can be picked.
 */
module ChargeDatePicker {
  import opened Wrappers
  import opened Text

  /** A local calendar day; `monthIndex` counts from 0, as a JavaScript `Date` does. */
  datatype CalendarDay = CalendarDay(year: nat, monthIndex: nat, day: nat)

  /**
   * What `parseLocalDate` yields: nothing for an empty input, a calendar day,
   * or `Unmodelled` for input on which `new Date` would roll over into
   * another day or give an invalid date.
   */
  datatype ParsedDate = NoDate | Day(date: CalendarDay) | Unmodelled

  predicate IsLeapYear(y: nat) {
    (y % 4 == 0 && y % 100 != 0) || y % 400 == 0
  }

  /** The number of days in month `m` (1 to 12) of year `y`, in the Gregorian calendar. */
  function DaysInMonth(y: nat, m: nat): nat
    requires 1 <= m <= 12
  {
    if m == 2 then (if IsLeapYear(y) then 29 else 28)
    else if m == 4 || m == 6 || m == 9 || m == 11 then 30
    else 31
  }

  /** A day that exists, with its month counted from 1. */
  predicate IsValidDay(y: nat, m: nat, d: nat) {
    1 <= m <= 12 && 1 <= d <= DaysInMonth(y, m)
  }

  predicate IsValidCalendarDay(c: CalendarDay) {
    IsValidDay(c.year, c.monthIndex + 1, c.day)
  }

  /** `new Date(y, …)` reads the years 0 to 99 as 1900 to 1999. */
  function FullYear(y: nat): nat {
    if y <= 99 then 1900 + y else y
  }

  /** `s.split(sep)`. */
  function Split(s: string, sep: char): (parts: seq<string>)
    ensures |parts| >= 1
    ensures forall i :: 0 <= i < |parts| ==> sep !in parts[i]
    ensures sep !in s ==> parts == [s]
    decreases |s|
  {
    if s == [] then [""]
    else if s[0] == sep then [""] + Split(s[1..], sep)
    else
      var rest := Split(s[1..], sep);
      assert sep !in s ==> sep !in s[1..];
      assert s == [s[0]] + s[1..];
      assert sep !in [s[0]] + rest[0];
      [[s[0]] + rest[0]] + rest[1..]
  }

  /** Splitting at a separator that follows a separator-free prefix. */
  lemma {:induction false} SplitAfter(a: string, sep: char, rest: string)
    requires sep !in a
    ensures Split(a + [sep] + rest, sep) == [a] + Split(rest, sep)
    decreases |a|
  {
    var s := a + [sep] + rest;
    if a == [] {
      assert s[0] == sep && s[1..] == rest;
    } else {
      assert s[0] == a[0] && s[1..] == a[1..] + [sep] + rest;
      SplitAfter(a[1..], sep, rest);
      assert [a[0]] + a[1..] == a;
    }
  }

  lemma SplitThree(a: string, b: string, c: string, sep: char)
    requires sep !in a && sep !in b && sep !in c
    ensures Split(a + [sep] + b + [sep] + c, sep) == [a, b, c]
  {
    assert a + [sep] + b + [sep] + c == a + [sep] + (b + [sep] + c);
    SplitAfter(a, sep, b + [sep] + c);
    SplitAfter(b, sep, c);
  }

  /** A non-empty run of digits, which `Number` reads as its decimal value. */
  predicate IsNumeral(s: string) {
    |s| >= 1 && AllDigits(s)
  }

  /**
   * `parseLocalDate`: split at '-' and build the local day from the first
   * three parts, the month counted from 0.
   */
  function ParseLocalDate(dateStr: Option<string>): (r: ParsedDate)
    ensures !Truthy(dateStr) <==> r == NoDate
    ensures r.Day? ==> IsValidCalendarDay(r.date)
  {
    if !Truthy(dateStr) then NoDate else ParseParts(Split(dateStr.value, '-'))
  }

  /** The day named by the first three parts of a split date, month counted from 1 in the text. */
  function ParseParts(parts: seq<string>): (r: ParsedDate)
    ensures r != NoDate
    ensures r.Day? ==> IsValidCalendarDay(r.date)
  {
    if |parts| >= 3 && IsNumeral(parts[0]) && IsNumeral(parts[1]) && IsNumeral(parts[2]) then
      var y := FullYear(DigitsValue(parts[0]));
      var m := DigitsValue(parts[1]);
      var d := DigitsValue(parts[2]);
      if IsValidDay(y, m, d) then Day(CalendarDay(y, m - 1, d)) else Unmodelled
    else Unmodelled
  }

  /** `formatLocalDate`: `null` for no date, otherwise year-month-day with the month counted from 1. */
  function FormatLocalDate(date: Option<CalendarDay>): (r: Option<string>)
    ensures date.None? <==> r.None?
  {
    if date.None? then None
    else Some(NatToString(date.value.year) + "-" + Pad2(date.value.monthIndex + 1) + "-" + Pad2(date.value.day))
  }

  lemma DigitsHaveNoDash(s: string)
    requires AllDigits(s)
    ensures '-' !in s
  {
  }

  /** Three digit strings joined by dashes are parsed part by part. */
  lemma ParseOfDigitParts(y: string, m: string, d: string)
    requires IsNumeral(y) && IsNumeral(m) && IsNumeral(d)
    ensures ParseLocalDate(Some(y + "-" + m + "-" + d)) == ParseParts([y, m, d])
  {
    var s := y + "-" + m + "-" + d;
    DigitsHaveNoDash(y);
    DigitsHaveNoDash(m);
    DigitsHaveNoDash(d);
    assert s == y + ['-'] + m + ['-'] + d;
    SplitThree(y, m, d, '-');
    assert Truthy(Some(s)) by {
      assert |s| >= 2;
    }
  }

  /** Three numerals whose values name a real day of a year from 100 on are parsed as that day. */
  lemma ParseOfValues(y: string, m: string, d: string, date: CalendarDay)
    requires IsNumeral(y) && IsNumeral(m) && IsNumeral(d)
    requires DigitsValue(y) == date.year && DigitsValue(m) == date.monthIndex + 1 && DigitsValue(d) == date.day
    requires IsValidCalendarDay(date) && date.year >= 100
    ensures ParseLocalDate(Some(y + "-" + m + "-" + d)) == Day(date)
  {
    ParseOfDigitParts(y, m, d);
  }

  /** A valid day from year 100 on survives formatting and parsing back. */
  lemma ParseFormattedDate(date: CalendarDay)
    requires IsValidCalendarDay(date) && date.year >= 100
    ensures ParseLocalDate(FormatLocalDate(Some(date))) == Day(date)
  {
    var y, m, d := NatToString(date.year), Pad2(date.monthIndex + 1), Pad2(date.day);
    DigitsValueOfNatToString(date.year);
    assert FormatLocalDate(Some(date)) == Some(y + "-" + m + "-" + d);
    ParseOfValues(y, m, d, date);
  }

  /**
   * A well-formed "YYYY-MM-DD" string naming a real day of the years 1000
   * to 9999 survives parsing and formatting back.
   */
  lemma FormatParsedDate(y: string, m: string, d: string)
    requires |y| == 4 && |m| == 2 && |d| == 2 && AllDigits(y) && AllDigits(m) && AllDigits(d)
    requires y[0] != '0'
    requires IsValidDay(DigitsValue(y), DigitsValue(m), DigitsValue(d))
    ensures ParseLocalDate(Some(y + "-" + m + "-" + d)) == Day(CalendarDay(DigitsValue(y), DigitsValue(m) - 1, DigitsValue(d)))
    ensures FormatLocalDate(Some(ParseLocalDate(Some(y + "-" + m + "-" + d)).date)) == Some(y + "-" + m + "-" + d)
  {
    ThreeDigitsAbove99(y);
    var date := CalendarDay(DigitsValue(y), DigitsValue(m) - 1, DigitsValue(d));
    assert date.monthIndex + 1 == DigitsValue(m);
    ParseOfValues(y, m, d, date);
    NatToStringOfDigits(y);
    Pad2OfTwoDigits(m);
    Pad2OfTwoDigits(d);
    assert FormatLocalDate(Some(date)) == Some(NatToString(DigitsValue(y)) + "-" + Pad2(DigitsValue(m)) + "-" + Pad2(DigitsValue(d)));
  }

  /** Three or more digits without a leading zero are worth at least 100. */
  lemma ThreeDigitsAbove99(y: string)
    requires |y| >= 3 && AllDigits(y) && y[0] != '0'
    ensures DigitsValue(y) >= 100
  {
    var p := y[..|y| - 1];
    assert p[0] == y[0];
    DigitsValueLeading(p);
  }

  /** Milliseconds in a day. */
  const DayMs := 86_400_000

  /** Local midnight at or before the instant `ms` (milliseconds of local time). */
  function StartOfDay(ms: int): (r: int)
    ensures r <= ms < r + DayMs && r % DayMs == 0
  {
    ms - ms % DayMs
  }

  /**
   * `disabledDates`: before today's midnight, or after 23:59:59.999 on the
   * fourteenth day from today.
   */
  function Disabled(dateMs: int, nowMs: int): (r: bool)
    ensures !r <==> StartOfDay(nowMs) <= dateMs < StartOfDay(nowMs) + 15 * DayMs
  {
    var today := StartOfDay(nowMs);
    var twoWeeksFromNow := today + 14 * DayMs + DayMs - 1;
    dateMs < today || dateMs > twoWeeksFromNow
  }

  /** A day, given by its midnight, can be picked iff it is today or one of the next fourteen days. */
  lemma {:induction false} SelectableDays(k: int, nowMs: int)
    ensures !Disabled(k * DayMs, nowMs) <==> nowMs / DayMs <= k <= nowMs / DayMs + 14
  {
    var t := nowMs / DayMs;
    assert StartOfDay(nowMs) == t * DayMs;
    if k < t {
      assert k * DayMs <= (t - 1) * DayMs;
    } else if k > t + 14 {
      assert k * DayMs >= (t + 15) * DayMs;
    } else {
      assert t * DayMs <= k * DayMs <= (t + 14) * DayMs;
    }
  }
}
