/**
 * JavaScript `Date` values and their ISO-8601 text form, as `Date.prototype.toISOString`
 * writes it and `new Date(string)` reads it back (ECMAScript 2024, sections 21.4.1 and
 * 21.4.1.32 "Date Time String Format"). Time values are milliseconds since
 * 1970-01-01T00:00:00.000Z on the proleptic Gregorian calendar.
 */
module IsoDates {
  import opened Wrappers
  import opened Decimal

  const MsPerDay: int := 86_400_000
  /** A Date holds a time value of at most 100,000,000 days either side of the epoch. */
  const MaxTime: int := 8_640_000_000_000_000

  type TimeValue = t: int | -MaxTime <= t <= MaxTime

  /** A `Date` object: a valid time value, or the "Invalid Date" that a failed parse produces. */
  datatype Date = Valid(time: TimeValue) | Invalid

  // ---------------------------------------------------------------- calendar

  predicate IsLeapYear(y: int)
  {
    y % 4 == 0 && (y % 100 != 0 || y % 400 == 0)
  }

  function YearLength(y: int): (n: int)
    ensures 365 <= n <= 366
  {
    if IsLeapYear(y) then 366 else 365
  }

  function DaysInMonth(y: int, m: int): (n: int)
    requires 1 <= m <= 12
    ensures 28 <= n <= 31
  {
    if m == 2 then (if IsLeapYear(y) then 29 else 28)
    else if m == 4 || m == 6 || m == 9 || m == 11 then 30
    else 31
  }

  /** Days in the months before month `m` of year `y`. */
  function DaysBeforeMonth(y: int, m: int): (n: int)
    requires 1 <= m <= 12
    ensures 0 <= n <= YearLength(y) - DaysInMonth(y, m)
  {
    var common := [0, 31, 59, 90, 120, 151, 181, 212, 243, 273, 304, 334][m - 1];
    if m > 2 && IsLeapYear(y) then common + 1 else common
  }

  lemma MonthStep(y: int, m: int)
    requires 1 <= m < 12
    ensures DaysBeforeMonth(y, m + 1) == DaysBeforeMonth(y, m) + DaysInMonth(y, m)
  {
  }

  /** Days from 1970-01-01 to January 1 of year `y` (negative before 1970). */
  function DaysBeforeYear(y: int): int
    decreases if y < 1970 then 1970 - y else y - 1970
  {
    if y == 1970 then 0
    else if y > 1970 then DaysBeforeYear(y - 1) + YearLength(y - 1)
    else DaysBeforeYear(y + 1) - YearLength(y)
  }

  lemma YearStep(y: int)
    ensures DaysBeforeYear(y + 1) == DaysBeforeYear(y) + YearLength(y)
  {
  }

  datatype Civil = Civil(year: int, month: int, day: int)

  predicate ValidCivil(c: Civil)
  {
    1 <= c.month <= 12 && 1 <= c.day <= DaysInMonth(c.year, c.month)
  }

  /** The day number (days since the epoch) of a calendar date. */
  function DayFromCivil(c: Civil): int
    requires 1 <= c.month <= 12
  {
    DaysBeforeYear(c.year) + DaysBeforeMonth(c.year, c.month) + c.day - 1
  }

  /** Walks forward from January 1 of `y` by `rem` days; yields the year reached and the day in it. */
  function YearUp(y: int, rem: int): (r: (int, int))
    requires rem >= 0
    ensures 0 <= r.1 < YearLength(r.0)
    ensures DaysBeforeYear(r.0) + r.1 == DaysBeforeYear(y) + rem
    ensures y <= r.0 && 365 * (r.0 - y) <= rem
    decreases rem
  {
    YearStep(y);
    if rem < YearLength(y) then (y, rem) else YearUp(y + 1, rem - YearLength(y))
  }

  /** Walks backward from January 1 of `y` by `-rem` days; yields the year reached and the day in it. */
  function YearDown(y: int, rem: int): (r: (int, int))
    requires rem < 0
    ensures 0 <= r.1 < YearLength(r.0)
    ensures DaysBeforeYear(r.0) + r.1 == DaysBeforeYear(y) + rem
    ensures r.0 < y && 365 * (y - r.0) <= -rem + 366
    decreases -rem
  {
    YearStep(y - 1);
    var back := rem + YearLength(y - 1);
    if back >= 0 then (y - 1, back) else YearDown(y - 1, back)
  }

  /** Walks through the months of year `y` from month `m`, `rem` days past its first day. */
  function MonthOf(y: int, m: int, rem: int): (r: (int, int))
    requires 1 <= m <= 12 && 0 <= rem < YearLength(y) - DaysBeforeMonth(y, m)
    ensures 1 <= r.0 <= 12 && 1 <= r.1 <= DaysInMonth(y, r.0)
    ensures DaysBeforeMonth(y, r.0) + r.1 - 1 == DaysBeforeMonth(y, m) + rem
    decreases 12 - m
  {
    if m == 12 || rem < DaysInMonth(y, m) then (m, rem + 1)
    else
      MonthStep(y, m);
      MonthOf(y, m + 1, rem - DaysInMonth(y, m))
  }

  /** The calendar date of a day number: the inverse of DayFromCivil. */
  function CivilFromDay(day: int): (c: Civil)
    ensures ValidCivil(c) && DayFromCivil(c) == day
    ensures -100_000_000 <= day <= 100_000_000 ==> -999_999 <= c.year <= 999_999
  {
    var (y, rem) := if day >= 0 then YearUp(1970, day) else YearDown(1970, day);
    var (m, d) := MonthOf(y, 1, rem);
    Civil(y, m, d)
  }

  // ------------------------------------------------------ fields of a time value

  /** A calendar date and a time of day; the components toISOString writes out. */
  datatype DateTime = DateTime(date: Civil, hour: int, minute: int, second: int, ms: int)

  /** Which field values the Date Time String Format accepts: 24:00:00.000 stands for the end of a day. */
  predicate FieldsInRange(f: DateTime)
  {
    && ValidCivil(f.date)
    && 0 <= f.hour <= 24 && 0 <= f.minute <= 59 && 0 <= f.second <= 59 && 0 <= f.ms <= 999
    && (f.hour == 24 ==> f.minute == 0 && f.second == 0 && f.ms == 0)
  }

  function TimeFromFields(f: DateTime): int
    requires 1 <= f.date.month <= 12
  {
    DayFromCivil(f.date) * MsPerDay + f.hour * 3_600_000 + f.minute * 60_000 + f.second * 1000 + f.ms
  }

  /** The UTC calendar fields of a time value (days are floored, so times before 1970 work too). */
  function FieldsOf(t: TimeValue): (f: DateTime)
    ensures FieldsInRange(f) && f.hour < 24 && TimeFromFields(f) == t
    ensures -999_999 <= f.date.year <= 999_999
  {
    var day := t / MsPerDay;
    var msOfDay := t % MsPerDay;
    var secs := msOfDay / 1000;
    var mins := secs / 60;
    DateTime(CivilFromDay(day), mins / 60, mins % 60, secs % 60, msOfDay % 1000)
  }

  // ------------------------------------------------------------- formatting

  /** Years 0..9999 take four digits; any other year a sign and six digits ("+275760", "-000001"). */
  function YearField(y: int): (s: string)
    requires -999_999 <= y <= 999_999
    ensures |s| == 4 || |s| == 7
    ensures |s| == 4 <==> 0 <= y <= 9999
  {
    if 0 <= y <= 9999 then Pad(y, 4)
    else if y < 0 then "-" + Pad(-y, 6)
    else "+" + Pad(y, 6)
  }

  /** The part after the year: "-MM-DDTHH:mm:ss.sssZ". */
  function TailField(f: DateTime): (s: string)
    requires f.date.month >= 0 && f.date.day >= 0
    requires f.hour >= 0 && f.minute >= 0 && f.second >= 0 && f.ms >= 0
    ensures |s| == 20
  {
    "-" + Pad(f.date.month, 2) + "-" + Pad(f.date.day, 2) + "T" + Pad(f.hour, 2) + ":" + Pad(f.minute, 2)
      + ":" + Pad(f.second, 2) + "." + Pad(f.ms, 3) + "Z"
  }

  /** `Date.prototype.toISOString` of a valid date, e.g. "2024-03-01T12:00:00.000Z". */
  function ToIsoString(t: TimeValue): (s: string)
    ensures |s| == 24 || |s| == 27
    ensures |s| == 24 <==> 0 <= FieldsOf(t).date.year <= 9999
  {
    var f := FieldsOf(t);
    YearField(f.date.year) + TailField(f)
  }

  // ---------------------------------------------------------------- parsing

  function ParseYear(s: string): (r: Option<int>)
  {
    if |s| == 4 && AllDigits(s) then Some(ParseDigits(s))
    else if |s| == 7 && (s[0] == '+' || s[0] == '-') && AllDigits(s[1..]) then
      var n: int := ParseDigits(s[1..]);
      // "-000000" is not a valid extended year
      if s[0] == '-' then (if n == 0 then None else Some(-n)) else Some(n)
    else None
  }

  /** Reads "-MM-DDTHH:mm:ss.sssZ"; the year of the result is a placeholder. */
  function ParseTail(s: string): (r: Option<DateTime>)
  {
    if && |s| == 20
       && s[0] == '-' && s[3] == '-' && s[6] == 'T' && s[9] == ':' && s[12] == ':' && s[15] == '.' && s[19] == 'Z'
       && AllDigits(s[1..3]) && AllDigits(s[4..6]) && AllDigits(s[7..9]) && AllDigits(s[10..12])
       && AllDigits(s[13..15]) && AllDigits(s[16..19])
    then
      Some(DateTime(Civil(0, ParseDigits(s[1..3]), ParseDigits(s[4..6])), ParseDigits(s[7..9]),
                    ParseDigits(s[10..12]), ParseDigits(s[13..15]), ParseDigits(s[16..19])))
    else None
  }

  /**
   * `new Date(s)` for a string in the UTC date-time form toISOString produces: an out-of-range
   * field or a time beyond the Date range gives Invalid Date, and so does any other text.
   */
  function ParseDate(s: string): (d: Date)
    ensures d.Valid? ==> (|s| == 24 || |s| == 27) && s[|s| - 14] == 'T' && s[|s| - 1] == 'Z'
  {
    if |s| != 24 && |s| != 27 then Invalid
    else
      var yearLength := |s| - 20;
      match (ParseYear(s[..yearLength]), ParseTail(s[yearLength..]))
      case (Some(y), Some(f)) =>
        var g := f.(date := f.date.(year := y));
        if FieldsInRange(g) && -MaxTime <= TimeFromFields(g) <= MaxTime then Valid(TimeFromFields(g)) else Invalid
      case _ => Invalid
  }

  // ------------------------------------------------------------- round trip

  lemma YearFieldRoundTrip(y: int)
    requires -999_999 <= y <= 999_999
    ensures ParseYear(YearField(y)) == Some(y)
  {
    var s := YearField(y);
    if 0 <= y <= 9999 {
      ParsePad(y, 4);
    } else {
      assert s[1..] == Pad(if y < 0 then -y else y, 6);
      ParsePad(if y < 0 then -y else y, 6);
    }
  }

  lemma TailFieldRoundTrip(f: DateTime)
    requires FieldsInRange(f) && f.hour < 24
    ensures ParseTail(TailField(f)) == Some(f.(date := f.date.(year := 0)))
  {
    var s := TailField(f);
    assert s[1..3] == Pad(f.date.month, 2);
    assert s[4..6] == Pad(f.date.day, 2);
    assert s[7..9] == Pad(f.hour, 2);
    assert s[10..12] == Pad(f.minute, 2);
    assert s[13..15] == Pad(f.second, 2);
    assert s[16..19] == Pad(f.ms, 3);
    ParsePad(f.date.month, 2);
    ParsePad(f.date.day, 2);
    ParsePad(f.hour, 2);
    ParsePad(f.minute, 2);
    ParsePad(f.second, 2);
    ParsePad(f.ms, 3);
  }

  /** Parsing what toISOString wrote gives back the same time value. */
  lemma IsoRoundTrip(t: TimeValue)
    ensures ParseDate(ToIsoString(t)) == Valid(t)
  {
    var f := FieldsOf(t);
    var y, tail := YearField(f.date.year), TailField(f);
    var s := y + tail;
    assert s[..|y|] == y && s[|y|..] == tail;
    YearFieldRoundTrip(f.date.year);
    TailFieldRoundTrip(f);
  }
}
