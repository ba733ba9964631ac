/**
  Civil dates and local timestamps. The planner compares start times with
  ephemeris times and with "04:00 on the following day"; all of these are
  modelled as whole seconds on one local time scale: the proleptic Gregorian
  day number times 86400 plus the second of the day.
 */
module Calendar {
  import opened Base

  datatype Date = Date(year: int, month: int, day: int)

  predicate IsLeap(y: int)
  {
    y % 4 == 0 && (y % 100 != 0 || y % 400 == 0)
  }

  function DaysInMonth(y: int, m: int): (n: int)
    ensures 28 <= n <= 31
  {
    if m == 2 then (if IsLeap(y) then 29 else 28)
    else if m == 4 || m == 6 || m == 9 || m == 11 then 30
    else 31
  }

  function YearLength(y: int): int
  {
    if IsLeap(y) then 366 else 365
  }

  /** The range `datetime.date` accepts: years 1..9999. */
  predicate ValidDate(d: Date)
  {
    1 <= d.year <= 9999 && 1 <= d.month <= 12 && 1 <= d.day <= DaysInMonth(d.year, d.month)
  }

  /** Days from 0001-01-01 to January 1st of year `y`. */
  function DaysBeforeYear(y: int): int
    decreases y
  {
    if y <= 1 then 0 else DaysBeforeYear(y - 1) + YearLength(y - 1)
  }

  /** Days from January 1st to the first of month `m` of year `y`. */
  function DaysBeforeMonth(y: int, m: int): int
    decreases m
  {
    if m <= 1 then 0 else DaysBeforeMonth(y, m - 1) + DaysInMonth(y, m - 1)
  }

  lemma {:induction false} DaysBeforeDecember(y: int)
    ensures DaysBeforeMonth(y, 12) + 31 == YearLength(y)
  {
    // unfolds the eleven month lengths before December
    assert DaysBeforeMonth(y, 12) == DaysBeforeMonth(y, 11) + 30;
    assert DaysBeforeMonth(y, 11) == DaysBeforeMonth(y, 10) + 31;
    assert DaysBeforeMonth(y, 10) == DaysBeforeMonth(y, 9) + 30;
    assert DaysBeforeMonth(y, 9) == DaysBeforeMonth(y, 8) + 31;
    assert DaysBeforeMonth(y, 8) == DaysBeforeMonth(y, 7) + 31;
    assert DaysBeforeMonth(y, 7) == DaysBeforeMonth(y, 6) + 30;
    assert DaysBeforeMonth(y, 6) == DaysBeforeMonth(y, 5) + 31;
    assert DaysBeforeMonth(y, 5) == DaysBeforeMonth(y, 4) + 30;
    assert DaysBeforeMonth(y, 4) == DaysBeforeMonth(y, 3) + 31;
    assert DaysBeforeMonth(y, 3) == DaysBeforeMonth(y, 2) + DaysInMonth(y, 2);
    assert DaysBeforeMonth(y, 2) == 31;
  }

  /** Ordinal day number (0001-01-01 is day 0). */
  function DayNumber(d: Date): int
  {
    DaysBeforeYear(d.year) + DaysBeforeMonth(d.year, d.month) + d.day - 1
  }

  /** `dt_date(y, m, d) + timedelta(days=1)`: an invalid date is a
      ValueError, stepping past 9999-12-31 an OverflowError. The result is
      the valid date whose day number is one more. */
  function NextDay(d: Date): (r: Result<Date>)
    ensures !ValidDate(d) <==> r == Err(ValueError)
    ensures ValidDate(d) && d == Date(9999, 12, 31) <==> r == Err(OverflowError)
    ensures r.Ok? ==> ValidDate(r.value) && DayNumber(r.value) == DayNumber(d) + 1
  {
    if !ValidDate(d) then Err(ValueError)
    else if d.day < DaysInMonth(d.year, d.month) then Ok(Date(d.year, d.month, d.day + 1))
    else if d.month < 12 then Ok(Date(d.year, d.month + 1, 1))
    else if d.year < 9999 then
      DaysBeforeDecember(d.year);
      Ok(Date(d.year + 1, 1, 1))
    else Err(OverflowError)
  }

  const SecondsPerDay: int := 86400

  /** A wall-clock time of day in seconds, `0 <= s < 86400`. */
  predicate ValidClock(s: int)
  {
    0 <= s < SecondsPerDay
  }

  /** Local timestamp of a second of the day on a date. */
  function Timestamp(d: Date, secondOfDay: int): int
  {
    DayNumber(d) * SecondsPerDay + secondOfDay
  }

  // ------------------------------------------------------------- parsing

  /** `s.split(c)` as a sequence of fields. */
  function Split(s: string, c: char): (fs: seq<string>)
    ensures |fs| >= 1
    ensures fs[0] == FirstField(s, c)
    decreases |s|
  {
    var f := FirstField(s, c);
    if |f| == |s| then [s] else [f] + Split(s[|f| + 1..], c)
  }

  /** The year, month and day read one at a time as the integers in fields
      0, 1 and 2 of `date.split("-")`, in that order: a field that is not an
      integer is a ValueError, and a missing field is an IndexError, each
      raised when its field is reached. */
  function ParseDateFields(date: string): (r: Result<Date>)
    ensures r.Ok? ==> |Split(date, '-')| >= 3
  {
    var fs := Split(date, '-');
    var y := ParseInt(fs[0]);
    if y.None? then Err(ValueError)
    else if |fs| < 2 then Err(IndexError)
    else
      var m := ParseInt(fs[1]);
      if m.None? then Err(ValueError)
      else if |fs| < 3 then Err(IndexError)
      else
        var d := ParseInt(fs[2]);
        if d.None? then Err(ValueError)
        else Ok(Date(y.value, m.value, d.value))
  }

  /** `int(wait_until.split(":")[0])`: the hour field of a clock string. */
  function StartHour(clock: string): Option<int>
  {
    ParseInt(FirstField(clock, ':'))
  }

  function TwoDigitValue(s: string, hi: int): Option<int>
  {
    if 1 <= |s| <= 2 && AllDigits(s) && DigitsValue(s) <= hi then Some(DigitsValue(s)) else None
  }

  /** Second of the day of a "HH:MM" or "HH:MM:SS" clock string; any other
      text is rejected (None), as the time parser rejects it. */
  function ParseClock(clock: string): (r: Option<int>)
    ensures r.Some? ==> ValidClock(r.value)
  {
    var fs := Split(clock, ':');
    if |fs| < 2 || |fs| > 3 then None
    else
      var h := TwoDigitValue(fs[0], 23);
      var m := TwoDigitValue(fs[1], 59);
      var s := if |fs| == 3 then TwoDigitValue(fs[2], 59) else Some(0);
      if h.None? || m.None? || s.None? then None
      else Some(h.value * 3600 + m.value * 60 + s.value)
  }

  /** `Time(f"{date} {clock}")` for a valid date: the local timestamp. */
  function ParseDateTime(d: Date, clock: string): (r: Result<int>)
    ensures r.Ok? <==> ValidDate(d) && ParseClock(clock).Some?
    ensures r.Ok? ==> r.value == Timestamp(d, ParseClock(clock).value)
  {
    if !ValidDate(d) then Err(ValueError)
    else match ParseClock(clock)
      case None => Err(ValueError)
      case Some(s) => Ok(Timestamp(d, s))
  }
}
