/** The chronological sort key of an event (decoder.go `getSortDate`): the first
    "day month year" triple found in a free-text date, read as a calendar date, or
    the current time when there is none or it is not a date.

    The regular expression `(?:(\d{1,2})\s+)?(?:(JAN|...|DEC)\s+)?(\d{4})` is modelled
    as a leftmost-first search (`MatchAt`, `FindDate`), and `time.Parse` with layout
    "02 Jan 2006" as a check of the triple (`ParseTriple`). Times are whole seconds
    since 1970-01-01 00:00 UTC. */
module SortDate {
  import opened Strings

  /** A point in time: seconds since 1970-01-01 00:00:00 UTC. */
  type Instant = int

  datatype CivilDate = CivilDate(year: int, month: int, day: int)

  predicate IsLeap(y: int)
  {
    y % 4 == 0 && (y % 100 != 0 || y % 400 == 0)
  }

  function DaysIn(month: int, year: int): int
    requires 1 <= month <= 12
  {
    if month == 2 then (if IsLeap(year) then 29 else 28)
    else if month in {4, 6, 9, 11} then 30
    else 31
  }

  /** A date of the proleptic Gregorian calendar. */
  predicate ValidCivil(c: CivilDate)
  {
    1 <= c.month <= 12 && 1 <= c.day <= DaysIn(c.month, c.year)
  }

  /** Leap years in 1..n (extended to n < 1 by floor division). */
  function LeapsThrough(n: int): int
  {
    n / 4 - n / 100 + n / 400
  }

  function DaysBeforeYear(y: int): int
  {
    365 * (y - 1970) + LeapsThrough(y - 1) - LeapsThrough(1969)
  }

  /** Days of the year before the first of `month`. */
  function DaysBeforeMonth(month: int, year: int): (n: int)
    requires 1 <= month <= 12
    ensures 0 <= n
  {
    [0, 31, 59, 90, 120, 151, 181, 212, 243, 273, 304, 334][month - 1]
      + (if month > 2 && IsLeap(year) then 1 else 0)
  }

  /** Days from 1970-01-01 to a calendar date. */
  function DayNumber(c: CivilDate): int
    requires 1 <= c.month <= 12
  {
    DaysBeforeYear(c.year) + DaysBeforeMonth(c.month, c.year) + c.day - 1
  }

  /** Midnight UTC at the start of a calendar date. */
  function ToInstant(c: CivilDate): Instant
    requires 1 <= c.month <= 12
  {
    DayNumber(c) * 86400
  }

  /** `time.Time{}`, the sort key of an event before its date is known: 0001-01-01. */
  const ZeroTime: Instant := ToInstant(CivilDate(1, 1, 1))

  /** Calendar order. */
  predicate CivilBefore(a: CivilDate, b: CivilDate)
  {
    a.year < b.year || (a.year == b.year && (a.month < b.month || (a.month == b.month && a.day < b.day)))
  }

  lemma DivStep4(y: int)
    ensures y / 4 - (y - 1) / 4 == if y % 4 == 0 then 1 else 0
  {
  }

  lemma DivStep100(y: int)
    ensures y / 100 - (y - 1) / 100 == if y % 100 == 0 then 1 else 0
  {
  }

  lemma DivStep400(y: int)
    ensures y / 400 - (y - 1) / 400 == if y % 400 == 0 then 1 else 0
  {
  }

  lemma DivisibleBy400(y: int)
    requires y % 400 == 0
    ensures y % 100 == 0
  {
    assert y == 100 * (4 * (y / 400));
  }

  lemma DivisibleBy100(y: int)
    requires y % 100 == 0
    ensures y % 4 == 0
  {
    assert y == 4 * (25 * (y / 100));
  }

  /** The leap years counted up to `y` exceed those up to `y - 1` by one exactly
      when `y` is a leap year. */
  lemma LeapStep(y: int)
    ensures LeapsThrough(y) - LeapsThrough(y - 1) == if IsLeap(y) then 1 else 0
  {
    DivStep4(y);
    DivStep100(y);
    DivStep400(y);
    if y % 400 == 0 {
      DivisibleBy400(y);
      DivisibleBy100(y);
    } else if y % 100 == 0 {
      DivisibleBy100(y);
    }
  }

  /** A year has 366 days exactly when it is a leap year. */
  lemma {:induction false} YearLength(y: int)
    ensures DaysBeforeYear(y + 1) - DaysBeforeYear(y) == if IsLeap(y) then 366 else 365
  {
    assert DaysBeforeYear(y + 1) - DaysBeforeYear(y) == 365 + LeapsThrough(y) - LeapsThrough(y - 1);
    LeapStep(y);
  }

  /** The month table and the month lengths agree: each month starts where the
      previous one ends, and December ends with the year. */
  lemma MonthTableConsistent(month: int, year: int)
    requires 1 <= month <= 12
    ensures month < 12 ==> DaysBeforeMonth(month + 1, year) == DaysBeforeMonth(month, year) + DaysIn(month, year)
    ensures month == 12 ==> DaysBeforeMonth(month, year) + DaysIn(month, year) == if IsLeap(year) then 366 else 365
  {
  }

  lemma {:induction false} DaysBeforeMonthBound(month: int, year: int)
    requires 1 <= month <= 12
    ensures DaysBeforeMonth(month, year) + DaysIn(month, year) <= if IsLeap(year) then 366 else 365
    decreases 12 - month
  {
    MonthTableConsistent(month, year);
    if month < 12 {
      DaysBeforeMonthBound(month + 1, year);
    }
  }

  lemma {:induction false} DaysBeforeMonthMonotone(m1: int, m2: int, year: int)
    requires 1 <= m1 < m2 <= 12
    ensures DaysBeforeMonth(m1, year) + DaysIn(m1, year) <= DaysBeforeMonth(m2, year)
    decreases m2 - m1
  {
    MonthTableConsistent(m1, year);
    if m1 + 1 < m2 {
      MonthTableConsistent(m1 + 1, year);
      DaysBeforeMonthMonotone(m1 + 1, m2, year);
    }
  }

  lemma {:induction false} DaysBeforeYearMonotone(y1: int, y2: int)
    requires y1 < y2
    ensures DaysBeforeYear(y1) + (if IsLeap(y1) then 366 else 365) <= DaysBeforeYear(y2)
    decreases y2 - y1
  {
    YearLength(y1);
    if y1 + 1 < y2 {
      DaysBeforeYearMonotone(y1 + 1, y2);
    }
  }

  /** Sort keys follow the calendar: an earlier valid date has a smaller key. */
  lemma {:induction false} ChronologicalOrder(a: CivilDate, b: CivilDate)
    requires ValidCivil(a) && ValidCivil(b) && CivilBefore(a, b)
    ensures ToInstant(a) < ToInstant(b)
  {
    if a.year < b.year {
      DaysBeforeMonthBound(a.month, a.year);
      DaysBeforeYearMonotone(a.year, b.year);
    } else if a.month < b.month {
      DaysBeforeMonthMonotone(a.month, b.month, a.year);
    }
    assert DayNumber(a) < DayNumber(b);
  }

  // ---------------------------------------------------------------------------
  // The date pattern

  predicate IsDigit(c: char) { '0' <= c <= '9' }

  /** `\s` of the Go regexp syntax: `[\t\n\f\r ]`. */
  predicate IsSpace(c: char) { c == ' ' || c == '\t' || c == '\n' || c == '\r' || c == 12 as char }

  predicate AllDigits(s: string) { forall k | 0 <= k < |s| :: IsDigit(s[k]) }

  const MonthNames: seq<string> := ["JAN", "FEB", "MAR", "APR", "MAY", "JUN", "JUL", "AUG", "SEP", "OCT", "NOV", "DEC"]

  /** The three captures: day (possibly empty), month (possibly empty), year. */
  datatype DateMatch = DateMatch(day: string, month: string, year: string)

  /** Length of the run of `\s` characters starting at `i`. */
  function SpaceRun(s: string, i: nat): (n: nat)
    requires i <= |s|
    ensures i + n <= |s|
    decreases |s| - i
  {
    if i < |s| && IsSpace(s[i]) then 1 + SpaceRun(s, i + 1) else 0
  }

  /** `SpaceRun` measures a maximal run: every character in it is `\s`, and the one
      after it, if any, is not. */
  lemma {:induction false} SpaceRunIsMaximal(s: string, i: nat)
    requires i <= |s|
    ensures forall k | i <= k < i + SpaceRun(s, i) :: IsSpace(s[k])
    ensures i + SpaceRun(s, i) == |s| || !IsSpace(s[i + SpaceRun(s, i)])
    decreases |s| - i
  {
    if i < |s| && IsSpace(s[i]) {
      SpaceRunIsMaximal(s, i + 1);
    }
  }

  predicate YearAt(s: string, i: nat)
  {
    i + 4 <= |s| && AllDigits(s[i..i + 4])
  }

  predicate MonthAt(s: string, i: nat)
  {
    i + 3 <= |s| && s[i..i + 3] in MonthNames
  }

  /** The month group `(JAN|...|DEC)\s+` can take part at `j`: a month abbreviation,
      whitespace, then a year. */
  predicate MonthGroupAt(s: string, j: nat)
  {
    MonthAt(s, j) && SpaceRun(s, j + 3) > 0 && YearAt(s, j + 3 + SpaceRun(s, j + 3))
  }

  /** The month and year groups match at `j`, with the month or without it. */
  predicate MonthYearFits(s: string, j: nat)
  {
    MonthGroupAt(s, j) || YearAt(s, j)
  }

  /** The day group `(\d{1,2})\s+` can take part at `i` with exactly `n` digits: the
      digits, whitespace, then the month and year groups. */
  predicate DayFits(s: string, i: nat, n: nat)
  {
    i + n <= |s| && AllDigits(s[i..i + n]) && SpaceRun(s, i + n) > 0
    && MonthYearFits(s, i + n + SpaceRun(s, i + n))
  }

  /** Where the month group starts in a match at `i` whose day capture is `day`. */
  function GroupStart(s: string, i: nat, day: string): nat
    requires i + |day| <= |s|
  {
    if day == "" then i else i + |day| + SpaceRun(s, i + |day|)
  }

  /** Where the month and year captures of `m` lie in `s` when the month group starts
      at `j`: without a month, the year is the four characters at `j`; with one, the
      month is the three characters at `j` and the year follows the run of `\s`
      after it. */
  predicate MonthYearLayout(s: string, j: nat, m: DateMatch)
  {
    if m.month == "" then
      j + 4 <= |s| && m.year == s[j..j + 4]
    else
      j + 3 <= |s| && m.month == s[j..j + 3] && SpaceRun(s, j + 3) > 0
      && var y := j + 3 + SpaceRun(s, j + 3); y + 4 <= |s| && m.year == s[y..y + 4]
  }

  /** Where the captures of a match starting at `i` lie in `s`: the day is the text at
      `i` (possibly empty), a non-empty day is followed by a run of `\s`, and the month
      group starts right after that run. */
  predicate MatchLayout(s: string, i: nat, m: DateMatch)
  {
    i + |m.day| <= |s| && m.day == s[i..i + |m.day|] && (m.day != "" ==> SpaceRun(s, i + |m.day|) > 0)
    && MonthYearLayout(s, GroupStart(s, i, m.day), m)
  }

  /** `(?:(JAN|...|DEC)\s+)?(\d{4})` at position `j`, the day already captured. It
      matches exactly when a year follows, with or without a month; the optional month
      group is tried first, so a month that can be captured is captured. The
      whitespace run after the month is maximal, because a year cannot start with
      whitespace. */
  function MonthYearAt(s: string, j: nat, day: string): (m: Option<DateMatch>)
    requires j <= |s|
    ensures m.Some? <==> MonthYearFits(s, j)
    ensures m.Some? ==> m.value.day == day && |m.value.year| == 4 && AllDigits(m.value.year)
    ensures m.Some? ==> m.value.month == "" || m.value.month in MonthNames
    ensures m.Some? ==> (m.value.month != "" <==> MonthGroupAt(s, j))
    ensures m.Some? ==> MonthYearLayout(s, j, m.value)
    ensures m.Some? ==> exists y | j <= y <= |s| :: YearAt(s, y)
  {
    if MonthGroupAt(s, j) then
      var y := j + 3 + SpaceRun(s, j + 3);
      Some(DateMatch(day, s[j..j + 3], s[y..y + 4]))
    else if YearAt(s, j) then
      Some(DateMatch(day, "", s[j..j + 4]))
    else
      None
  }

  /** A day of `n` digits at `i` and whitespace, followed by what the month and year
      groups match after that whitespace, is a match at `i` that captures that day. */
  lemma DayThenMonthYear(s: string, i: nat, n: nat, m: Option<DateMatch>)
    requires 1 <= n && i + n <= |s| && AllDigits(s[i..i + n]) && SpaceRun(s, i + n) > 0
    requires m == MonthYearAt(s, i + n + SpaceRun(s, i + n), s[i..i + n])
    ensures m.Some? ==> |m.value.day| == n && AllDigits(m.value.day)
    ensures m.Some? ==> GroupStart(s, i, m.value.day) == i + n + SpaceRun(s, i + n)
    ensures m.Some? ==> MatchLayout(s, i, m.value)
  {
  }

  /** `(\d{1,2})\s+` followed by the month and year groups, with a day of exactly
      `n` digits at `i`: it matches exactly when the day group fits there, and then
      captures those digits as the day and a month whenever one can follow. */
  function WithDay(s: string, i: nat, n: nat): (m: Option<DateMatch>)
    requires i <= |s| && 1 <= n <= 2
    ensures m.Some? <==> DayFits(s, i, n)
    ensures m.Some? ==> |m.value.year| == 4 && AllDigits(m.value.year)
    ensures m.Some? ==> m.value.month == "" || m.value.month in MonthNames
    ensures m.Some? ==> |m.value.day| == n && AllDigits(m.value.day)
    ensures m.Some? ==> MatchLayout(s, i, m.value)
    ensures m.Some? ==> (m.value.month != "" <==> MonthGroupAt(s, GroupStart(s, i, m.value.day)))
    ensures m.Some? ==> exists y | i <= y <= |s| :: YearAt(s, y)
  {
    if i + n <= |s| && AllDigits(s[i..i + n]) && SpaceRun(s, i + n) > 0 then
      var m := MonthYearAt(s, i + n + SpaceRun(s, i + n), s[i..i + n]);
      DayThenMonthYear(s, i, n, m);
      m
    else None
  }

  /** The match of the whole pattern starting exactly at `i`, with the priorities of
      a leftmost-first engine: a two-digit day when one fits, else a one-digit day,
      else no day; within that, a month when one fits. */
  function MatchAt(s: string, i: nat): (m: Option<DateMatch>)
    requires i <= |s|
    ensures m.Some? <==> DayFits(s, i, 2) || DayFits(s, i, 1) || MonthYearFits(s, i)
    ensures m.Some? ==> |m.value.year| == 4 && AllDigits(m.value.year)
    ensures m.Some? ==> m.value.month == "" || m.value.month in MonthNames
    ensures m.Some? ==> |m.value.day| == (if DayFits(s, i, 2) then 2 else if DayFits(s, i, 1) then 1 else 0)
    ensures m.Some? ==> AllDigits(m.value.day)
    ensures m.Some? ==> MatchLayout(s, i, m.value)
    ensures m.Some? ==> (m.value.month != "" <==> MonthGroupAt(s, GroupStart(s, i, m.value.day)))
    ensures m.Some? ==> exists y | i <= y <= |s| :: YearAt(s, y)
  {
    var two := WithDay(s, i, 2);
    var one := WithDay(s, i, 1);
    if two.Some? then two
    else if one.Some? then one
    else MonthYearAt(s, i, "")
  }

  /** The first position, from `i` on, where the pattern matches; `|s| + 1` if none. */
  function FirstMatch(s: string, i: nat): (p: nat)
    requires i <= |s|
    ensures i <= p <= |s| + 1
    ensures p <= |s| ==> MatchAt(s, p).Some?
    ensures forall k | i <= k < p && k <= |s| :: MatchAt(s, k).None?
    decreases |s| - i
  {
    if MatchAt(s, i).Some? then i
    else if i == |s| then |s| + 1
    else FirstMatch(s, i + 1)
  }

  /** The captures the pattern can produce: a day of at most two digits (or none), a
      month abbreviation (or none) and a four-digit year. */
  predicate Captures(m: DateMatch)
  {
    |m.day| <= 2 && AllDigits(m.day) && (m.month == "" || m.month in MonthNames)
    && |m.year| == 4 && AllDigits(m.year)
  }

  /** `dp.FindAllStringSubmatch(date, 1)`: the leftmost match, if any. */
  function FindDate(s: string): (m: Option<DateMatch>)
    ensures m.Some? <==> exists k | 0 <= k <= |s| :: MatchAt(s, k).Some?
    ensures m.Some? ==> m == MatchAt(s, FirstMatch(s, 0))
    ensures m.Some? ==> Captures(m.value)
  {
    var p := FirstMatch(s, 0);
    if p <= |s| then MatchAt(s, p) else None
  }

  // ---------------------------------------------------------------------------
  // Reading the triple

  function DigitsValue(s: string): nat
    requires AllDigits(s)
  {
    if s == [] then 0 else 10 * DigitsValue(s[..|s| - 1]) + (s[|s| - 1] - '0') as nat
  }

  function MonthNumber(name: string): (n: int)
    requires name in MonthNames
    ensures 1 <= n <= 12 && MonthNames[n - 1] == name
  {
    if name == "JAN" then 1 else if name == "FEB" then 2 else if name == "MAR" then 3
    else if name == "APR" then 4 else if name == "MAY" then 5 else if name == "JUN" then 6
    else if name == "JUL" then 7 else if name == "AUG" then 8 else if name == "SEP" then 9
    else if name == "OCT" then 10 else if name == "NOV" then 11 else 12
  }

  /** Missing month defaults to JAN, missing day to 1. */
  function Defaulted(m: DateMatch): (r: DateMatch)
    ensures r.month == (if m.month == "" then "JAN" else m.month)
    ensures r.day == (if m.day == "" then "1" else m.day)
    ensures r.year == m.year
  {
    DateMatch(if m.day == "" then "1" else m.day, if m.month == "" then "JAN" else m.month, m.year)
  }

  /** `fmt.Sprintf("%02s", day)`: zero padding to two characters. */
  function Pad2(day: string): string
  {
    if |day| < 2 then seq(2 - |day|, _ => '0') + day else day
  }

  /** Zero padding does not change the number a day stands for. */
  lemma PadKeepsValue(day: string)
    requires 1 <= |day| <= 2 && AllDigits(day)
    ensures AllDigits(Pad2(day)) && DigitsValue(Pad2(day)) == DigitsValue(day)
  {
    if |day| == 1 {
      var p := Pad2(day);
      assert p == ['0', day[0]];
      assert p[..1] == "0" && "0"[..0] == "" && day[..0] == "";
    }
  }

  /** `time.Parse("02 Jan 2006", day + " " + month + " " + year)` on a triple the
      pattern produced, after the day is padded to two digits: it succeeds exactly
      when the day is between 1 and the length of the month, and then gives that
      date. */
  function ParseTriple(m: DateMatch): (r: Option<CivilDate>)
    requires 1 <= |m.day| <= 2 && AllDigits(m.day) && m.month in MonthNames
    requires |m.year| == 4 && AllDigits(m.year)
    ensures var c := CivilDate(DigitsValue(m.year), MonthNumber(m.month), DigitsValue(m.day));
      (r.Some? <==> ValidCivil(c)) && (r.Some? ==> r.value == c)
    ensures r.Some? ==> 0 <= r.value.year <= 9999
  {
    var day := DigitsValue(Pad2(m.day));
    var month := MonthNumber(m.month);
    var year := DigitsValue(m.year);
    assert year <= 9999 by { FourDigitsBound(m.year); }
    PadKeepsValue(m.day);
    if 1 <= day <= DaysIn(month, year) then Some(CivilDate(year, month, day)) else None
  }

  lemma FourDigitsBound(s: string)
    requires |s| == 4 && AllDigits(s)
    ensures DigitsValue(s) <= 9999
  {
    var s1, s2, s3 := s[..1], s[..2], s[..3];
    assert s3 == s[..|s| - 1] && s2 == s3[..|s3| - 1] && s1 == s2[..|s2| - 1] && s1[..0] == [];
    assert IsDigit(s[0]) && IsDigit(s[1]) && IsDigit(s[2]) && IsDigit(s[3]);
    assert DigitsValue(s1) <= 9;
    assert DigitsValue(s2) <= 99;
    assert DigitsValue(s3) <= 999;
  }

  /** The calendar date a match names, read as numbers, with January and the 1st
      standing in for a missing month or day. It need not be a valid date. */
  function DateOf(m: DateMatch): CivilDate
    requires Captures(m)
  {
    CivilDate(DigitsValue(m.year), if m.month == "" then 1 else MonthNumber(m.month),
              if m.day == "" then 1 else DigitsValue(m.day))
  }

  /** `getSortDate(date)` with the current time passed in as `now`: the date the
      leftmost match names when it is a valid calendar date, and `now` when there is
      no match or the date it names does not exist. */
  function GetSortDate(date: string, now: Instant): (t: Instant)
    ensures FindDate(date).None? ==> t == now
    ensures FindDate(date).Some? ==>
      t == (if ValidCivil(DateOf(FindDate(date).value)) then ToInstant(DateOf(FindDate(date).value)) else now)
    ensures t == now || exists c: CivilDate :: ValidCivil(c) && 0 <= c.year <= 9999 && t == ToInstant(c)
  {
    match FindDate(date)
    case None => now
    case Some(m) =>
      var full := Defaulted(m);
      assert DigitsValue("1") == 1 by { assert "1"[..0] == ""; }
      match ParseTriple(full)
      case None => now
      case Some(c) => ToInstant(c)
  }

  // ---------------------------------------------------------------------------
  // Properties of the sort key

  /** A date text without four consecutive digits has no year: its key is `now`. */
  lemma NoYearGivesNow(date: string, now: Instant)
    requires forall i | 0 <= i <= |date| :: !YearAt(date, i)
    ensures GetSortDate(date, now) == now
  {
    forall k | 0 <= k <= |date| ensures MatchAt(date, k).None? {
      if MatchAt(date, k).Some? {
        assert false;
      }
    }
  }

  /** No match starts on a letter or a space that does not begin a month name. */
  lemma NoMatchAtNonDigit(s: string, k: nat)
    requires k < |s| && !IsDigit(s[k]) && !MonthAt(s, k)
    ensures MatchAt(s, k).None?
  {
    assert k + 1 <= |s| ==> s[k..k + 1][0] == s[k];
    assert k + 2 <= |s| ==> s[k..k + 2][0] == s[k];
    assert k + 4 <= |s| ==> s[k..k + 4][0] == s[k];
  }

  /** Nothing matches inside the qualifier "ABT " of "ABT 1850". */
  lemma AboutQualifierSkipped(k: nat)
    requires k < 4
    ensures MatchAt("ABT 1850", k).None?
  {
    var s := "ABT 1850";
    var w := s[k..k + 3];
    if k == 0 {
      assert w == "ABT";
    } else if k == 1 {
      assert w == "BT ";
    } else if k == 2 {
      assert w == "T 1";
    } else {
      assert w == " 18";
    }
    assert w !in MonthNames;
    NoMatchAtNonDigit(s, k);
  }

  /** At the year of "ABT 1850" the pattern matches with no day and no month: the
      digits are not followed by whitespace, and "185" is not a month. */
  lemma AboutYearAtYear()
    ensures MatchAt("ABT 1850", 4) == Some(DateMatch("", "", "1850"))
  {
    var s := "ABT 1850";
    assert SpaceRun(s, 5) == 0 && SpaceRun(s, 6) == 0;
    assert WithDay(s, 4, 2).None? && WithDay(s, 4, 1).None?;
    assert s[4..7] == "185" && !MonthAt(s, 4);
    assert YearAt(s, 4) && s[4..8] == "1850";
  }

  /** The pattern first matches "ABT 1850" at the year. */
  lemma AboutYearMatch()
    ensures FindDate("ABT 1850") == Some(DateMatch("", "", "1850"))
  {
    forall k | 0 <= k < 4 ensures MatchAt("ABT 1850", k).None? {
      AboutQualifierSkipped(k);
    }
    AboutYearAtYear();
    assert FirstMatch("ABT 1850", 0) == 4;
  }

  /** "ABT 1850" (an approximate year, as GEDCOM writes it) sorts as 1 January 1850:
      the qualifier is skipped and the missing month and day default. */
  lemma AboutYearIsJanuaryFirst(now: Instant)
    ensures GetSortDate("ABT 1850", now) == ToInstant(CivilDate(1850, 1, 1))
  {
    AboutYearMatch();
    YearDigits();
  }

  lemma YearDigits()
    ensures DigitsValue("1850") == 1850
  {
    assert "1850"[..3] == "185" && "185"[..2] == "18" && "18"[..1] == "1" && "1"[..0] == "";
  }

  /** At the start of "5 JAN 1850" the pattern takes a one-digit day, the month and
      the year: "5 " is not a two-digit day, and a month and a year follow the "5". */
  lemma FullDateAtStart()
    ensures MatchAt("5 JAN 1850", 0) == Some(DateMatch("5", "JAN", "1850"))
  {
    var s := "5 JAN 1850";
    assert s[0..2][1] == ' ' && !DayFits(s, 0, 2);
    assert SpaceRun(s, 2) == 0 && SpaceRun(s, 1) == 1;
    assert SpaceRun(s, 6) == 0 && SpaceRun(s, 5) == 1;
    assert s[0..1] == "5" && s[2..5] == "JAN" && s[6..10] == "1850";
    assert MonthGroupAt(s, 2) && DayFits(s, 0, 1);
    var m := MatchAt(s, 0).value;
    assert |m.day| == 1 && GroupStart(s, 0, m.day) == 2;
  }

  /** "5 JAN 1850" sorts as 5 January 1850: day, month and year are all taken from
      the text. */
  lemma FullDateIsThatDay(now: Instant)
    ensures GetSortDate("5 JAN 1850", now) == ToInstant(CivilDate(1850, 1, 5))
  {
    FullDateAtStart();
    assert FirstMatch("5 JAN 1850", 0) == 0;
    YearDigits();
    assert DigitsValue("5") == 5 by { assert "5"[..0] == ""; }
  }

  /** A month abbreviation is three characters and starts with a capital letter. */
  lemma MonthNameShape(month: string)
    requires month in MonthNames
    ensures |month| == 3 && 'A' <= month[0] <= 'Z'
  {
    var k :| 0 <= k < 12 && MonthNames[k] == month;
  }

  /** A run of whitespace is measured the same after any prefix. */
  lemma {:induction false} SpaceRunShift(p: string, t: string, i: nat)
    requires i <= |t|
    ensures SpaceRun(p + t, |p| + i) == SpaceRun(t, i)
    decreases |t| - i
  {
    if i < |t| {
      assert (p + t)[|p| + i] == t[i];
      SpaceRunShift(p, t, i + 1);
    }
  }

  /** A slice behind a prefix is the same slice of what follows the prefix. */
  lemma {:induction false} SliceAfter(p: string, t: string, i: nat, j: nat)
    requires i <= j <= |t|
    ensures (p + t)[|p| + i..|p| + j] == t[i..j]
  {
  }

  /** In three letters, one space and a year, the only whitespace run is the one
      space. */
  lemma {:induction false} TailSpaces(month: string, year: string)
    requires |month| == 3 && !IsSpace(month[0]) && |year| == 4 && IsDigit(year[0])
    ensures SpaceRun(month + " " + year, 0) == 0 && SpaceRun(month + " " + year, 3) == 1
  {
    var t := month + " " + year;
    assert t[0] == month[0] && t[3] == ' ' && t[4] == year[0];
    assert SpaceRun(t, 4) == 0;
  }

  /** Three letters, one space and a four-digit year, after any prefix: the letters
      and the year are where they were written, with one space between them. */
  lemma {:induction false} MonthYearTail(p: string, month: string, year: string)
    requires |month| == 3 && !IsSpace(month[0]) && |year| == 4 && IsDigit(year[0])
    ensures var s := p + (month + " " + year);
      && SpaceRun(s, |p|) == 0 && SpaceRun(s, |p| + 3) == 1
      && s[|p|..|p| + 3] == month && s[|p| + 4..|p| + 8] == year
  {
    var t := month + " " + year;
    TailSpaces(month, year);
    SpaceRunShift(p, t, 0);
    SpaceRunShift(p, t, 3);
    SliceAfter(p, t, 0, 3);
    SliceAfter(p, t, 4, 8);
    assert t[0..3] == month && t[4..8] == year;
  }

  /** Where the parts of a date written as a day of one or two digits, a month
      abbreviation and a four-digit year, separated by single spaces, lie: the day
      group fits at the start with exactly the written digits, followed by the month
      group. */
  lemma {:induction false} WrittenDateLayout(day: string, month: string, year: string)
    requires 1 <= |day| <= 2 && AllDigits(day) && month in MonthNames && |year| == 4 && AllDigits(year)
    ensures var s := day + " " + month + " " + year;
      && DayFits(s, 0, |day|) && s[0..|day|] == day && SpaceRun(s, |day|) == 1
      && MonthGroupAt(s, |day| + 1) && SpaceRun(s, |day| + 4) == 1
      && s[|day| + 1..|day| + 4] == month && s[|day| + 5..|day| + 9] == year
      && (|day| == 1 ==> !DayFits(s, 0, 2))
  {
    var n := |day|;
    var t := month + " " + year;
    var s := day + " " + month + " " + year;
    assert s == (day + " ") + t;
    MonthNameShape(month);
    MonthYearTail(day + " ", month, year);
    assert s[n] == ' ';
    assert SpaceRun(s, n) == 1;
    assert s[0..n] == day;
    if n == 1 {
      assert s[0..2][1] == ' ';
    }
  }

  /** In such a written date the pattern matches at the start and captures all
      three parts. */
  lemma {:induction false} WrittenDateMatchAt(day: string, month: string, year: string)
    requires 1 <= |day| <= 2 && AllDigits(day) && month in MonthNames && |year| == 4 && AllDigits(year)
    ensures MatchAt(day + " " + month + " " + year, 0) == Some(DateMatch(day, month, year))
  {
    var s := day + " " + month + " " + year;
    WrittenDateLayout(day, month, year);
    var m := MatchAt(s, 0).value;
    assert |m.day| == |day| && GroupStart(s, 0, m.day) == |day| + 1;
  }

  /** In such a written date the leftmost match is the one at the start. */
  lemma {:induction false} WrittenDateMatch(day: string, month: string, year: string)
    requires 1 <= |day| <= 2 && AllDigits(day) && month in MonthNames && |year| == 4 && AllDigits(year)
    ensures FindDate(day + " " + month + " " + year) == Some(DateMatch(day, month, year))
  {
    WrittenDateMatchAt(day, month, year);
    assert FirstMatch(day + " " + month + " " + year, 0) == 0;
  }

  /** A date written as a day of one or two digits, a month abbreviation and a
      four-digit year, separated by single spaces, sorts as exactly that day when it
      exists, and as `now` when it does not (such as "30 FEB 1850"). */
  lemma {:induction false} WrittenDateIsThatDay(day: string, month: string, year: string, now: Instant)
    requires 1 <= |day| <= 2 && AllDigits(day) && month in MonthNames && |year| == 4 && AllDigits(year)
    ensures var c := CivilDate(DigitsValue(year), MonthNumber(month), DigitsValue(day));
      GetSortDate(day + " " + month + " " + year, now) == if ValidCivil(c) then ToInstant(c) else now
  {
    WrittenDateMatch(day, month, year);
  }

  /** A leftmost match with a year alone sorts as 1 January of that year. */
  lemma YearAloneIsJanuaryFirst(date: string, now: Instant)
    requires FindDate(date).Some? && FindDate(date).value.day == "" && FindDate(date).value.month == ""
    ensures GetSortDate(date, now) == ToInstant(CivilDate(DigitsValue(FindDate(date).value.year), 1, 1))
  {
  }

  /** A leftmost match with a month and a year but no day sorts as the first of that
      month. */
  lemma MonthYearIsFirstOfMonth(date: string, now: Instant)
    requires FindDate(date).Some? && FindDate(date).value.day == "" && FindDate(date).value.month != ""
    ensures var m := FindDate(date).value;
      GetSortDate(date, now) == ToInstant(CivilDate(DigitsValue(m.year), MonthNumber(m.month), 1))
  {
  }

  /** A triple that is not a calendar date (such as the 30th of February) gives `now`. */
  lemma {:induction false} InvalidTripleGivesNow(date: string, now: Instant)
    requires FindDate(date).Some?
    requires ParseTriple(Defaulted(FindDate(date).value)).None?
    ensures GetSortDate(date, now) == now
  {
  }
}
