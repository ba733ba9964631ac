/**
  One target's observation: its tilt and observation settings, the
  calibration and standard-star settings, the start-time policy checked
  against the night's ephemeris, and the observing plan, an ordered list of
  steps with an exposure-time budget against the target's up-time.

  Ephemeris values (sunset, sunrise, moonset, target rise and set) are
  local timestamps in seconds on the Calendar scale, supplied as inputs.
 */
module Observation {
  import opened Base
  import opened Calendar

  // ------------------------------------------------------------- plan rows

  /** One row of the observing plan. */
  datatype Step =
    | Flat(exptime: int)
    | Dark(exptime: int)
    | Focus
    | Standard(exptime: int, use: string)
    | Science(target: string, exptime: int)
    | Calibration(target: string, exptime: int, n: int)

  /** The plan table's `n` column once its gaps are filled with 1: the
      off-band count of a calibration row, 1 for every other row. */
  function RowN(s: Step): int
  {
    if s.Calibration? then s.n else 1
  }

  // -------------------------------------------------------------- settings

  /** `wait_until`: None, or a text (a keyword or an "HH:MM:SS" time). */
  datatype Wait = NoWait | WaitText(text: string)

  /** `OBS_START`: "N/A", or a local timestamp. */
  datatype StartTime = NotApplicable | At(t: int)

  /** `calibration_dict`. */
  datatype CalConfig = CalConfig(nDarks: int, darkExptime: int, takeDarks: string,
                                 nFlats: int, flatExptime: int, takeFlats: string)

  /** `standards_dict`. */
  datatype StdConfig = StdConfig(use: string, when: string, nStandards: int, exptime: int)

  /** The dither settings: `dither_angle`, `dither_pattern`, `dither_dict`. */
  datatype Dither = Dither(angle: int, pattern: seq<int>, offsets: map<int, (int, int)>)

  /** The night's ephemeris for the plan's date. */
  datatype Ephemeris = Ephemeris(sunset: int, sunrise: int, moonset: int, targetRise: int, targetSet: int)

  const DefaultCalibrations: CalConfig := CalConfig(0, 10, "after", 0, 10, "after")
  const DefaultStandards: StdConfig := StdConfig("nearest", "after", 0, 60)
  const DefaultOffBandExptime: int := 600
  const DefaultDitherAngle: int := 25
  const DefaultPattern: seq<int> := [5, 6, 3, 2, 1, 4, 7, 8, 9]

  // ----------------------------------------------------------------- tilts

  const HalphaNames: seq<string> := ["Halpha", "halpha", "HALPHA"]
  const OiiiNames: seq<string> := ["OIII", "oiii", "o3", "[OIII]"]

  datatype Line = Halpha | Oiii

  /** Which tilt `set_tilts` sets. The angle bound is tested before the
      filter name, so an out-of-range angle is a ValueError whatever the
      name. */
  function TiltLine(filtname: string, angle: real): (r: Result<Line>)
    ensures Abs(angle) >= 20.0 ==> r == Err(ValueError)
    ensures r == Ok(Halpha) <==> Abs(angle) < 20.0 && filtname in HalphaNames
    ensures r == Ok(Oiii) <==> Abs(angle) < 20.0 && filtname in OiiiNames
    ensures r == Err(FilterNotRecognizedError) <==>
      Abs(angle) < 20.0 && filtname !in HalphaNames && filtname !in OiiiNames
  {
    if Abs(angle) >= 20.0 then Err(ValueError)
    else if filtname in HalphaNames then Ok(Halpha)
    else if filtname in OiiiNames then Ok(Oiii)
    else Err(FilterNotRecognizedError)
  }

  /** The repository's tilt tests: ("ha", 30) is rejected for its angle
      and ("OVII", 15) for its name; every accepted spelling of the two
      lines selects its line. */
  lemma TiltExamples()
    ensures TiltLine("ha", 30.0) == Err(ValueError)
    ensures TiltLine("OVII", 15.0) == Err(FilterNotRecognizedError)
    ensures TiltLine("[OIII]", -19.5) == Ok(Oiii) && TiltLine("o3", 0.0) == Ok(Oiii)
    ensures TiltLine("HALPHA", 19.0) == Ok(Halpha)
    ensures TiltLine("Halpha", -20.0) == Err(ValueError)
  {
    assert "ha" !in HalphaNames && "ha" !in OiiiNames;
    assert "OVII" !in HalphaNames && "OVII" !in OiiiNames;
    assert "[OIII]" in OiiiNames && "o3" in OiiiNames && "HALPHA" in HalphaNames;
  }

  // ------------------------------------------------------ off-band count

  /** `n_cals`: with off-band exposures throughout, the number of whole
      off-band exposures that fit in one science exposure (the floor of the
      quotient, a ZeroDivisionError for a zero off-band time); otherwise 1. */
  function NCals(exptime: int, offBand: int, throughout: bool): (r: Result<int>)
    ensures !throughout ==> r == Ok(1)
    ensures r.Err? <==> throughout && offBand == 0
    ensures r.Err? ==> r.error == ZeroDivisionError
    ensures throughout && offBand > 0 ==> r.Ok? && r.value * offBand <= exptime < (r.value + 1) * offBand
    ensures throughout && offBand < 0 ==> r.Ok? && (r.value + 1) * offBand < exptime <= r.value * offBand
  {
    if throughout then FloorDiv(exptime, offBand) else Ok(1)
  }

  /** With the default off-band time a one-hour exposure carries six
      off-band exposures. */
  lemma NCalsDefault()
    ensures NCals(3600, DefaultOffBandExptime, true) == Ok(6)
    ensures NCals(3600, 7, true) == Ok(514)
  {
  }

  // ------------------------------------------------------------- dithers

  /** `dither_dict`: the 3x3 grid of east/north offsets around the target,
      key 0 at the north-east corner, key 4 on the target. */
  function DitherOffsets(a: int): (d: map<int, (int, int)>)
    ensures forall k :: k in d <==> 0 <= k < 9
  {
    map[0 := (a, a), 1 := (0, a), 2 := (-a, a),
        3 := (a, 0), 4 := (0, 0), 5 := (-a, 0),
        6 := (a, -a), 7 := (0, -a), 8 := (-a, -a)]
  }

  /** Key k of the grid is column k mod 3 and row k div 3 of the grid,
      offset by (1 - column, 1 - row) times the dither angle. */
  lemma DitherGrid(a: int, k: int)
    requires 0 <= k < 9
    ensures DitherOffsets(a)[k] == (a * (1 - k % 3), a * (1 - k / 3))
  {
    var d := DitherOffsets(a);
    if k == 0 { assert d[0] == (a, a); }
    else if k == 1 { assert d[1] == (0, a); }
    else if k == 2 { assert d[2] == (-a, a); }
    else if k == 3 { assert d[3] == (a, 0); }
    else if k == 4 { assert d[4] == (0, 0); }
    else if k == 5 { assert d[5] == (-a, 0); }
    else if k == 6 { assert d[6] == (a, -a); }
    else if k == 7 { assert d[7] == (0, -a); }
    else { assert d[8] == (-a, -a); }
  }

  // ---------------------------------------------------------- timing rules

  /** What `check_observing_timings` leaves in `wait_until` for None. */
  const NoneRewritten: string := "None (Now/after previous)"
  const FourAm: int := 4 * 3600

  /** The calendar day after the plan's date. For an explicit
      "YYYY-MM-DD" date this is the real next day; for "today" it is, as
      written, tomorrow's day of the month placed in today's month. */
  function DayAfter(date: string, today: Date): (r: Result<Date>)
    ensures date != "today" ==>
      (r.Ok? <==> ParseDateFields(date).Ok? && NextDay(ParseDateFields(date).value).Ok?)
    ensures date != "today" && r.Ok? ==>
      ValidDate(r.value) && DayNumber(r.value) == DayNumber(ParseDateFields(date).value) + 1
    ensures date == "today" && r.Ok? ==> r.value.year == today.year && r.value.month == today.month
    ensures date == "today" && NextDay(today).Ok? ==>
      r == Ok(Date(today.year, today.month, NextDay(today).value.day))
    ensures date == "today" && NextDay(today).Err? ==> r == Err(NextDay(today).error)
  {
    if date == "today" then
      match NextDay(today)
      case Err(e) => Err(e)
      case Ok(t) => Ok(Date(today.year, today.month, t.day))
    else
      match ParseDateFields(date)
      case Err(e) => Err(e)
      case Ok(d) => NextDay(d)
  }

  /** The "today" rule on the last day of a month gives the first day of
      the same month, a month before the intended next morning. */
  lemma TodayRuleAtMonthEnd(today: Date)
    requires ValidDate(today) && today.day == DaysInMonth(today.year, today.month)
    requires today != Date(9999, 12, 31)
    ensures DayAfter("today", today) == Ok(Date(today.year, today.month, 1))
    ensures DayNumber(Date(today.year, today.month, 1)) < DayNumber(today)
  {
    assert NextDay(today).Ok?;
  }

  /** The 04:00 limit on the day after the plan's date, used by the
      moonset and target-rise rules. */
  function MorningLimit(date: string, today: Date): (r: Result<int>)
    ensures date != "today" && r.Ok? ==>
      ParseDateFields(date).Ok? && r.value == Timestamp(ParseDateFields(date).value, FourAm) + SecondsPerDay
    ensures date == "today" && DayAfter(date, today).Ok? ==> r == Ok(Timestamp(DayAfter(date, today).value, FourAm))
    ensures DayAfter(date, today).Err? ==> r == Err(DayAfter(date, today).error)
    ensures r.Ok? <==> DayAfter(date, today).Ok?
  {
    match DayAfter(date, today)
    case Err(e) => Err(e)
    case Ok(d) => Ok(Timestamp(d, FourAm))
  }

  /** An explicit start time: the hour field is read as an integer first;
      an hour below 12 places the time on the day after the plan's date,
      any other hour on the date itself. */
  function ExplicitStart(date: string, today: Date, clock: string): (r: Result<int>)
    ensures StartHour(clock).None? ==> r == Err(ValueError)
    ensures r.Ok? ==> StartHour(clock).Some? && ParseClock(clock).Some?
    ensures r.Ok? && date != "today" ==>
      ParseDateFields(date).Ok? &&
      r.value == Timestamp(ParseDateFields(date).value, ParseClock(clock).value) +
                 (if StartHour(clock).value < 12 then SecondsPerDay else 0)
  {
    match StartHour(clock)
    case None => Err(ValueError)
    case Some(hour) =>
      var day := if hour < 12 then DayAfter(date, today)
                 else if date == "today" then Ok(today)
                 else ParseDateFields(date);
      match day
      case Err(e) => Err(e)
      case Ok(d) => ParseDateTime(d, clock)
  }

  /** What the start-time check leaves behind: the (possibly rewritten)
      `wait_until`, the `OBS_START` it assigned if it got that far, the
      up-time in seconds it stores when it completes, and the error it
      raises otherwise. */
  datatype TimingOutcome = TimingOutcome(wait: Wait, start: Option<StartTime>, uptime: Option<int>, error: Option<Error>)

  /** The target's up-time as stored: the seconds part of set minus rise,
      in [0, 86400). */
  function Uptime(eph: Ephemeris): (s: int)
    ensures 0 <= s < SecondsPerDay
    ensures 0 <= eph.targetSet - eph.targetRise < SecondsPerDay ==> s == eph.targetSet - eph.targetRise
  {
    (eph.targetSet - eph.targetRise) % SecondsPerDay
  }

  function Completed(wait: Wait, start: StartTime, eph: Ephemeris): TimingOutcome
  {
    TimingOutcome(wait, Some(start), Some(Uptime(eph)), None)
  }

  /** The moonset and target-rise rules: the start is assigned first, then
      it must not be later than 04:00 on the next day. */
  function LimitedStart(wait: Wait, s: int, date: string, today: Date, eph: Ephemeris): TimingOutcome
  {
    match MorningLimit(date, today)
    case Err(e) => TimingOutcome(wait, Some(At(s)), None, Some(e))
    case Ok(limit) =>
      if s > limit then TimingOutcome(wait, Some(At(s)), None, Some(EndOfNightError))
      else Completed(wait, At(s), eph)
  }

  /** `check_observing_timings`. */
  function Timings(wait: Wait, date: string, today: Date, eph: Ephemeris): (t: TimingOutcome)
    ensures t.error.None? <==> t.uptime.Some?
    ensures t.uptime.Some? ==> t.uptime.value == Uptime(eph) && t.start.Some?
    ensures wait.NoWait? ==> t == Completed(WaitText(NoneRewritten), NotApplicable, eph)
    ensures wait.WaitText? ==> t.wait == wait
  {
    match wait
    case NoWait => Completed(WaitText(NoneRewritten), NotApplicable, eph)
    case WaitText(w) =>
      if w == "sunset" then
        if eph.sunset < eph.targetRise then TimingOutcome(wait, None, None, Some(TargetNotUpError))
        else Completed(wait, At(eph.sunset), eph)
      else if w == "moonset" then LimitedStart(wait, eph.moonset, date, today, eph)
      else if w == "target_rise" then LimitedStart(wait, eph.targetRise, date, today, eph)
      else
        match ExplicitStart(date, today, w)
        case Err(e) => TimingOutcome(wait, None, None, Some(e))
        case Ok(s) =>
          if s < eph.sunset || s > eph.sunrise then TimingOutcome(wait, Some(At(s)), None, Some(DayTimeError))
          else Completed(wait, At(s), eph)
  }

  /** The start-time rules: after sunset the target must already be up;
      moonset and target rise are bounded by 04:00 on the next day; an
      explicit start must lie between sunset and sunrise. */
  lemma TimingRules(wait: Wait, date: string, today: Date, eph: Ephemeris)
    ensures var t := Timings(wait, date, today, eph);
      wait == WaitText("sunset") ==>
        (t.error == Some(TargetNotUpError) <==> eph.sunset < eph.targetRise) &&
        (t.error.None? <==> t.start == Some(At(eph.sunset)))
    ensures var t := Timings(wait, date, today, eph);
      wait == WaitText("moonset") ==> (t.start == Some(At(eph.moonset)) &&
        (MorningLimit(date, today).Ok? ==>
           (t.error == Some(EndOfNightError) <==> eph.moonset > MorningLimit(date, today).value)))
    ensures var t := Timings(wait, date, today, eph);
      wait == WaitText("target_rise") ==> (t.start == Some(At(eph.targetRise)) &&
        (MorningLimit(date, today).Ok? ==>
           (t.error == Some(EndOfNightError) <==> eph.targetRise > MorningLimit(date, today).value)))
    ensures var t := Timings(wait, date, today, eph);
      wait.WaitText? && wait.text !in {"sunset", "moonset", "target_rise"} ==>
        var e := ExplicitStart(date, today, wait.text);
        (e.Err? ==> t.error == Some(e.error) && t.start.None?) &&
        (e.Ok? ==> t.start == Some(At(e.value)) &&
                   (t.error == Some(DayTimeError) <==> e.value < eph.sunset || e.value > eph.sunrise) &&
                   (t.error.None? <==> eph.sunset <= e.value <= eph.sunrise))
  {
  }

  /** A start before moonset but inside the night is accepted (the source
      only warns). */
  lemma BeforeMoonsetOnlyWarns(date: string, today: Date, clock: string, eph: Ephemeris)
    requires clock !in {"sunset", "moonset", "target_rise"}
    requires ExplicitStart(date, today, clock).Ok?
    requires eph.sunset <= ExplicitStart(date, today, clock).value < eph.moonset
    requires ExplicitStart(date, today, clock).value <= eph.sunrise
    ensures Timings(WaitText(clock), date, today, eph).error.None?
  {
    TimingRules(WaitText(clock), date, today, eph);
  }

  /** The text None is rewritten to has no integer hour, so the start-time
      check of a second plan build on the same observation fails. */
  lemma SecondBuildFails(date: string, today: Date, eph: Ephemeris)
    ensures Timings(NoWait, date, today, eph).wait == WaitText(NoneRewritten)
    ensures Timings(Timings(NoWait, date, today, eph).wait, date, today, eph).error == Some(ValueError)
  {
    var w := NoneRewritten;
    assert w[0] == 'N';
    assert forall i :: 0 <= i < |w| ==> w[i] != ':';
    NoHourField(w);
    assert w !in {"sunset", "moonset", "target_rise"};
    TimingRules(WaitText(w), date, today, eph);
  }

  /** A text without ':' that starts with a letter has no integer hour. */
  lemma NoHourField(s: string)
    requires |s| >= 2 && !IsDigit(s[0]) && s[0] != '-' && s[0] != '+'
    requires forall i :: 0 <= i < |s| ==> s[i] != ':'
    ensures StartHour(s).None?
  {
    FirstFieldWhole(s, ':');
  }

  /** A string without the separator is its own first field. */
  lemma {:induction false} FirstFieldWhole(s: string, c: char)
    requires forall i :: 0 <= i < |s| ==> s[i] != c
    ensures FirstField(s, c) == s
    decreases |s|
  {
    if s != [] {
      FirstFieldWhole(s[1..], c);
    }
  }

  /** The first field of a string whose first separator is at `j`. */
  lemma {:induction false} FirstFieldAt(s: string, c: char, j: nat)
    requires j < |s| && s[j] == c
    requires forall i :: 0 <= i < j ==> s[i] != c
    ensures FirstField(s, c) == s[..j]
    decreases j
  {
    if j > 0 {
      FirstFieldAt(s[1..], c, j - 1);
      assert s[1..][..j - 1] == s[1..j];
      assert s[..j] == [s[0]] + s[1..j];
    }
  }

  lemma DigitsValue2(a: char, b: char)
    requires IsDigit(a) && IsDigit(b)
    ensures AllDigits([a, b]) && DigitsValue([a, b]) == DigitValue(a) * 10 + DigitValue(b)
  {
    assert [a, b][..1] == [a];
    assert [a][..0] == [];
    assert DigitsValue([a]) == DigitValue(a);
  }

  lemma DigitsValue4(a: char, b: char, c: char, d: char)
    requires IsDigit(a) && IsDigit(b) && IsDigit(c) && IsDigit(d)
    ensures AllDigits([a, b, c, d])
    ensures DigitsValue([a, b, c, d]) == (DigitValue(a) * 10 + DigitValue(b)) * 100 + DigitValue(c) * 10 + DigitValue(d)
  {
    DigitsValue2(a, b);
    assert [a, b, c, d][..3] == [a, b, c];
    assert [a, b, c][..2] == [a, b];
  }

  /** "YYYY-MM-DD" with digits only reads as that date. */
  lemma DateFieldsExample(s: string)
    requires |s| == 10 && s[4] == '-' && s[7] == '-'
    requires forall i :: 0 <= i < 10 && i != 4 && i != 7 ==> IsDigit(s[i])
    ensures ParseDateFields(s) ==
      Ok(Date((DigitValue(s[0]) * 10 + DigitValue(s[1])) * 100 + DigitValue(s[2]) * 10 + DigitValue(s[3]),
              DigitValue(s[5]) * 10 + DigitValue(s[6]),
              DigitValue(s[8]) * 10 + DigitValue(s[9])))
  {
    FirstFieldAt(s, '-', 4);
    var rest := s[5..];
    FirstFieldAt(rest, '-', 2);
    var last := rest[3..];
    FirstFieldWhole(last, '-');
    assert Split(last, '-') == [last];
    assert Split(rest, '-') == [rest[..2]] + Split(last, '-');
    assert Split(s, '-') == [s[..4]] + Split(rest, '-');
    assert s[..4] == [s[0], s[1], s[2], s[3]];
    assert rest[..2] == [s[5], s[6]];
    assert last == [s[8], s[9]];
    DigitsValue4(s[0], s[1], s[2], s[3]);
    DigitsValue2(s[5], s[6]);
    DigitsValue2(s[8], s[9]);
  }

  /** "HH:00:00" with two digits reads as that hour. */
  lemma ClockExample(clock: string, hour: int)
    requires |clock| == 8 && clock[2..] == ":00:00"
    requires IsDigit(clock[0]) && IsDigit(clock[1])
    requires hour == DigitValue(clock[0]) * 10 + DigitValue(clock[1]) && hour <= 23
    ensures StartHour(clock) == Some(hour)
    ensures ParseClock(clock) == Some(hour * 3600)
  {
    assert clock[2] == ':' && clock[5] == ':';
    FirstFieldAt(clock, ':', 2);
    var hh := clock[..2];
    assert hh == [clock[0], clock[1]];
    DigitsValue2(clock[0], clock[1]);
    var rest := clock[3..];
    assert rest == "00:00";
    FirstFieldAt(rest, ':', 2);
    var last := rest[3..];
    assert last == "00";
    FirstFieldWhole(last, ':');
    assert Split(last, ':') == [last];
    assert Split(rest, ':') == [rest[..2]] + Split(last, ':');
    assert Split(clock, ':') == [hh] + Split(rest, ':');
    DigitsValue2('0', '0');
    assert rest[..2] == "00";
  }

  /** The repository's custom-time tests, for any "HH:00:00" start: on a
      plan date that reads as `d`, an hour before 12 (the tests use
      "01:00:00") is placed on the next day and a later hour (the tests use
      "22:00:00") on `d` itself. */
  lemma CustomTimeRule(date: string, today: Date, d: Date, clock: string, hour: int)
    requires date != "today" && ParseDateFields(date) == Ok(d) && NextDay(d).Ok?
    requires |clock| == 8 && clock[2..] == ":00:00"
    requires IsDigit(clock[0]) && IsDigit(clock[1])
    requires hour == DigitValue(clock[0]) * 10 + DigitValue(clock[1]) && hour <= 23
    ensures hour < 12 ==> ExplicitStart(date, today, clock) == Ok(Timestamp(NextDay(d).value, hour * 3600))
    ensures hour >= 12 ==> ExplicitStart(date, today, clock) == Ok(Timestamp(d, hour * 3600))
  {
    ClockExample(clock, hour);
    if hour < 12 {
      assert DayAfter(date, today) == NextDay(d);
    }
  }

  /** The tests' plan date reads as 2022-04-21, whose next day is
      2022-04-22. */
  lemma TestDate(s: string)
    requires s == "2022-04-21"
    ensures ParseDateFields(s) == Ok(Date(2022, 4, 21))
    ensures NextDay(Date(2022, 4, 21)) == Ok(Date(2022, 4, 22))
  {
    assert s[0] == '2' && s[1] == '0' && s[2] == '2' && s[3] == '2';
    assert s[5] == '0' && s[6] == '4' && s[8] == '2' && s[9] == '1';
    assert DigitValue('0') == 0 && DigitValue('1') == 1 && DigitValue('2') == 2 && DigitValue('4') == 4;
    DateFieldsExample(s);
  }

  // ------------------------------------------------------------ plan rows

  /** `when in [place, "all"]`. */
  predicate Includes(when: string, place: string)
  {
    when == place || when == "all"
  }

  /** `n` copies of a row (none for n <= 0). */
  function Repeat(s: Step, n: int): (r: seq<Step>)
    ensures |r| == if n > 0 then n else 0
    ensures forall i :: 0 <= i < |r| ==> r[i] == s
    decreases n
  {
    if n <= 0 then [] else Repeat(s, n - 1) + [s]
  }

  /** The flat rows taken at `place`. */
  function Flats(c: CalConfig, place: string): seq<Step>
  {
    if Includes(c.takeFlats, place) && c.nFlats > 0 then Repeat(Flat(c.flatExptime), c.nFlats) else []
  }

  /** The dark rows taken at `place`. */
  function Darks(c: CalConfig, place: string): seq<Step>
  {
    if Includes(c.takeDarks, place) && c.nDarks > 0 then Repeat(Dark(c.darkExptime), c.nDarks) else []
  }

  /** The standard-star rows taken at `place`. */
  function Standards(s: StdConfig, place: string): seq<Step>
  {
    if Includes(s.when, place) && s.nStandards > 0 then Repeat(Standard(s.exptime, s.use), s.nStandards) else []
  }

  /** The settings a plan is built from. */
  datatype PlanConfig = PlanConfig(target: string, exptime: int, iterations: int, doFocus: bool,
                                   offBand: int, nCals: int, cal: CalConfig, std: StdConfig)

  /** The rows before the first science exposure. */
  function BeforeRows(p: PlanConfig): seq<Step>
  {
    Flats(p.cal, "before") + Darks(p.cal, "before") + (if p.doFocus then [Focus] else []) + Standards(p.std, "before")
  }

  /** The rows between two iterations. */
  function BetweenRows(p: PlanConfig): seq<Step>
  {
    Flats(p.cal, "between") + Darks(p.cal, "between") + Standards(p.std, "between")
  }

  /** The rows after the last iteration (standards first). */
  function AfterRows(p: PlanConfig): seq<Step>
  {
    Standards(p.std, "after") + Flats(p.cal, "after") + Darks(p.cal, "after")
  }

  /** Iteration i: a science row and its calibration row, then the
      in-between rows unless it is the last iteration. */
  function IterationRows(p: PlanConfig, i: int): seq<Step>
  {
    [Science(p.target, p.exptime), Calibration(p.target, p.offBand, p.nCals)] +
    (if i < p.iterations - 1 then BetweenRows(p) else [])
  }

  /** Iterations 0 .. k-1. */
  function IterationsUpTo(p: PlanConfig, k: int): seq<Step>
    decreases k
  {
    if k <= 0 then [] else IterationsUpTo(p, k - 1) + IterationRows(p, k - 1)
  }

  /** The observing plan in order. */
  function PlanRows(p: PlanConfig): (rows: seq<Step>)
    ensures |rows| >= |BeforeRows(p)| + |AfterRows(p)|
    ensures rows[..|BeforeRows(p)|] == BeforeRows(p) && rows[|rows| - |AfterRows(p)|..] == AfterRows(p)
  {
    BeforeRows(p) + IterationsUpTo(p, p.iterations) + AfterRows(p)
  }

  // ------------------------------------------------- structure of the plan

  /** No science or calibration row. */
  predicate NoExposurePairs(rows: seq<Step>)
  {
    forall j :: 0 <= j < |rows| ==> !rows[j].Science? && !rows[j].Calibration?
  }

  /** Every science row is immediately followed by the calibration row
      with the off-band settings, and every calibration row immediately
      follows a science row. */
  predicate Paired(rows: seq<Step>, p: PlanConfig)
  {
    (forall j :: 0 <= j < |rows| && rows[j].Science? ==>
       rows[j] == Science(p.target, p.exptime) && j + 1 < |rows| &&
       rows[j + 1] == Calibration(p.target, p.offBand, p.nCals)) &&
    (forall j :: 0 <= j < |rows| && rows[j].Calibration? ==> 0 < j && rows[j - 1].Science?)
  }

  lemma RepeatPlain(s: Step, n: int)
    requires !s.Science? && !s.Calibration?
    ensures NoExposurePairs(Repeat(s, n))
  {
  }

  lemma CalibrationRowsPlain(p: PlanConfig)
    ensures NoExposurePairs(BeforeRows(p)) && NoExposurePairs(BetweenRows(p)) && NoExposurePairs(AfterRows(p))
  {
    RepeatPlain(Flat(p.cal.flatExptime), p.cal.nFlats);
    RepeatPlain(Dark(p.cal.darkExptime), p.cal.nDarks);
    RepeatPlain(Standard(p.std.exptime, p.std.use), p.std.nStandards);
  }

  lemma PairedAppend(a: seq<Step>, b: seq<Step>, p: PlanConfig)
    requires Paired(a, p) && Paired(b, p)
    requires b != [] ==> !b[0].Calibration?
    ensures Paired(a + b, p)
  {
    var ab := a + b;
    forall j | 0 <= j < |ab| && ab[j].Calibration?
      ensures 0 < j && ab[j - 1].Science?
    {
      if j >= |a| {
        assert ab[j] == b[j - |a|];
        assert j > |a|;
      }
    }
  }

  lemma PlainPaired(rows: seq<Step>, p: PlanConfig)
    requires NoExposurePairs(rows)
    ensures Paired(rows, p)
  {
  }

  lemma {:induction false} IterationsPaired(p: PlanConfig, k: int)
    ensures Paired(IterationsUpTo(p, k), p)
    ensures IterationsUpTo(p, k) != [] ==> IterationsUpTo(p, k)[0].Science?
    decreases k
  {
    if k > 0 {
      IterationsPaired(p, k - 1);
      CalibrationRowsPlain(p);
      var block := IterationRows(p, k - 1);
      var tail := if k - 1 < p.iterations - 1 then BetweenRows(p) else [];
      assert NoExposurePairs(tail);
      PlainPaired(tail, p);
      PairedAppend([Science(p.target, p.exptime), Calibration(p.target, p.offBand, p.nCals)], tail, p);
      PairedAppend(IterationsUpTo(p, k - 1), block, p);
    }
  }

  /** Every science row of the plan is paired with the calibration row
      that follows it, and every calibration row with the science row
      before it. */
  lemma PlanPaired(p: PlanConfig)
    ensures Paired(PlanRows(p), p)
  {
    CalibrationRowsPlain(p);
    IterationsPaired(p, p.iterations);
    PlainPaired(BeforeRows(p), p);
    PlainPaired(AfterRows(p), p);
    PairedAppend(BeforeRows(p), IterationsUpTo(p, p.iterations), p);
    PairedAppend(BeforeRows(p) + IterationsUpTo(p, p.iterations), AfterRows(p), p);
  }

  /** Number of rows satisfying a row kind. */
  function CountScience(rows: seq<Step>): (n: nat)
    ensures n <= |rows|
  {
    if rows == [] then 0 else CountScience(rows[..|rows| - 1]) + (if rows[|rows| - 1].Science? then 1 else 0)
  }

  function CountFocus(rows: seq<Step>): (n: nat)
    ensures n <= |rows|
  {
    if rows == [] then 0 else CountFocus(rows[..|rows| - 1]) + (if rows[|rows| - 1].Focus? then 1 else 0)
  }

  lemma {:induction false} CountAppend(a: seq<Step>, b: seq<Step>)
    ensures CountScience(a + b) == CountScience(a) + CountScience(b)
    ensures CountFocus(a + b) == CountFocus(a) + CountFocus(b)
    decreases |b|
  {
    if b == [] {
      assert a + b == a;
    } else {
      var b' := b[..|b| - 1];
      assert (a + b)[..|a + b| - 1] == a + b';
      CountAppend(a, b');
    }
  }

  /** One more row adds its own kind to the counts. */
  lemma CountSnoc(rows: seq<Step>, x: Step)
    ensures CountScience(rows + [x]) == CountScience(rows) + (if x.Science? then 1 else 0)
    ensures CountFocus(rows + [x]) == CountFocus(rows) + (if x.Focus? then 1 else 0)
  {
    assert (rows + [x])[..|rows|] == rows;
  }

  /** A science row and its calibration row hold one science row. */
  lemma PairCount(p: PlanConfig)
    ensures var pair := [Science(p.target, p.exptime), Calibration(p.target, p.offBand, p.nCals)];
      CountScience(pair) == 1 && CountFocus(pair) == 0
  {
    var sci, cal := Science(p.target, p.exptime), Calibration(p.target, p.offBand, p.nCals);
    var none: seq<Step> := [];
    CountSnoc(none, sci);
    assert none + [sci] == [sci];
    CountSnoc([sci], cal);
    assert [sci] + [cal] == [sci, cal];
  }

  lemma {:induction false} CountRepeat(s: Step, n: int)
    requires !s.Science? && !s.Focus?
    ensures CountScience(Repeat(s, n)) == 0 && CountFocus(Repeat(s, n)) == 0
    decreases n
  {
    if n > 0 {
      var prev := Repeat(s, n - 1);
      assert Repeat(s, n) == prev + [s];
      CountRepeat(s, n - 1);
      CountSnoc(prev, s);
    }
  }

  /** The flats, darks and standards taken at a place hold neither science
      nor focus rows. */
  lemma PlaceCounts(p: PlanConfig, place: string)
    ensures CountScience(Flats(p.cal, place)) == 0 && CountFocus(Flats(p.cal, place)) == 0
    ensures CountScience(Darks(p.cal, place)) == 0 && CountFocus(Darks(p.cal, place)) == 0
    ensures CountScience(Standards(p.std, place)) == 0 && CountFocus(Standards(p.std, place)) == 0
  {
    CountRepeat(Flat(p.cal.flatExptime), p.cal.nFlats);
    CountRepeat(Dark(p.cal.darkExptime), p.cal.nDarks);
    CountRepeat(Standard(p.std.exptime, p.std.use), p.std.nStandards);
  }

  lemma BetweenCount(p: PlanConfig)
    ensures CountScience(BetweenRows(p)) == 0 && CountFocus(BetweenRows(p)) == 0
  {
    var f, d := Flats(p.cal, "between"), Darks(p.cal, "between");
    PlaceCounts(p, "between");
    CountAppend(f, d);
    CountAppend(f + d, Standards(p.std, "between"));
  }

  lemma AfterCount(p: PlanConfig)
    ensures CountScience(AfterRows(p)) == 0 && CountFocus(AfterRows(p)) == 0
  {
    var st, f := Standards(p.std, "after"), Flats(p.cal, "after");
    PlaceCounts(p, "after");
    CountAppend(st, f);
    CountAppend(st + f, Darks(p.cal, "after"));
  }

  lemma BeforeCount(p: PlanConfig)
    ensures CountScience(BeforeRows(p)) == 0 && CountFocus(BeforeRows(p)) == (if p.doFocus then 1 else 0)
  {
    var f, d := Flats(p.cal, "before"), Darks(p.cal, "before");
    PlaceCounts(p, "before");
    var focus: seq<Step> := if p.doFocus then [Focus] else [];
    CountSnoc([], Focus);
    assert [] + [Focus] == [Focus];
    CountAppend(f, d);
    CountAppend(f + d, focus);
    CountAppend(f + d + focus, Standards(p.std, "before"));
  }

  /** The calibration blocks hold no science row; only the block before
      the first iteration holds the focus row. */
  lemma CalibrationRowsCount(p: PlanConfig)
    ensures CountScience(BetweenRows(p)) == 0 && CountFocus(BetweenRows(p)) == 0
    ensures CountScience(AfterRows(p)) == 0 && CountFocus(AfterRows(p)) == 0
    ensures CountScience(BeforeRows(p)) == 0 && CountFocus(BeforeRows(p)) == (if p.doFocus then 1 else 0)
  {
    BetweenCount(p);
    AfterCount(p);
    BeforeCount(p);
  }

  lemma {:induction false} IterationsCount(p: PlanConfig, k: int)
    ensures CountScience(IterationsUpTo(p, k)) == (if k > 0 then k else 0)
    ensures CountFocus(IterationsUpTo(p, k)) == 0
    decreases k
  {
    if k > 0 {
      IterationsCount(p, k - 1);
      BetweenCount(p);
      PairCount(p);
      var pair := [Science(p.target, p.exptime), Calibration(p.target, p.offBand, p.nCals)];
      var tail := if k - 1 < p.iterations - 1 then BetweenRows(p) else [];
      CountAppend(pair, tail);
      CountAppend(IterationsUpTo(p, k - 1), IterationRows(p, k - 1));
    }
  }

  /** The plan holds exactly `iterations` science rows (none for a
      non-positive count) and one focus row exactly when focusing is on. */
  lemma PlanCounts(p: PlanConfig)
    ensures CountScience(PlanRows(p)) == (if p.iterations > 0 then p.iterations else 0)
    ensures CountFocus(PlanRows(p)) == (if p.doFocus then 1 else 0)
  {
    CalibrationRowsCount(p);
    IterationsCount(p, p.iterations);
    CountAppend(BeforeRows(p), IterationsUpTo(p, p.iterations));
    CountAppend(BeforeRows(p) + IterationsUpTo(p, p.iterations), AfterRows(p));
  }

  /** The plan table has an `n` column exactly when it holds a calibration
      row, which is exactly when there is at least one iteration. */
  lemma NColumnIffIterations(p: PlanConfig)
    ensures (exists j :: 0 <= j < |PlanRows(p)| && PlanRows(p)[j].Calibration?) <==> p.iterations > 0
  {
    var rows := PlanRows(p);
    PlanCounts(p);
    PlanPaired(p);
    if p.iterations > 0 {
      var j := ScienceIndex(rows);
      assert rows[j + 1].Calibration?;
    } else {
      if exists j :: 0 <= j < |rows| && rows[j].Calibration? {
        var j :| 0 <= j < |rows| && rows[j].Calibration?;
        assert rows[j - 1].Science?;
        CountPositive(rows, j - 1);
        assert false;
      }
    }
  }

  lemma {:induction false} ScienceIndex(rows: seq<Step>) returns (j: nat)
    requires CountScience(rows) > 0
    ensures j < |rows| && rows[j].Science?
    decreases |rows|
  {
    if rows[|rows| - 1].Science? {
      j := |rows| - 1;
    } else {
      j := ScienceIndex(rows[..|rows| - 1]);
    }
  }

  lemma {:induction false} CountPositive(rows: seq<Step>, j: nat)
    requires j < |rows| && rows[j].Science?
    ensures CountScience(rows) > 0
    decreases |rows|
  {
    if j < |rows| - 1 {
      CountPositive(rows[..|rows| - 1], j);
    }
  }

  // ---------------------------------------------------------------- budget

  /** The exposure time a row adds to the budget: standard, science, flat
      and dark rows count; calibration and focus rows do not. */
  function Counted(s: Step): int
  {
    match s
    case Standard(e, _) => e
    case Science(_, e) => e
    case Flat(e) => e
    case Dark(e) => e
    case Focus => 0
    case Calibration(_, _, _) => 0
  }

  /** Sum of the counted exposure times, in seconds. */
  function TotalExptime(rows: seq<Step>): int
  {
    if rows == [] then 0 else TotalExptime(rows[..|rows| - 1]) + Counted(rows[|rows| - 1])
  }

  lemma {:induction false} TotalAppend(a: seq<Step>, b: seq<Step>)
    ensures TotalExptime(a + b) == TotalExptime(a) + TotalExptime(b)
    decreases |b|
  {
    if b == [] {
      assert a + b == a;
    } else {
      assert (a + b)[..|a + b| - 1] == a + b[..|b| - 1];
      TotalAppend(a, b[..|b| - 1]);
    }
  }

  /** One more row adds its counted time. */
  lemma TotalSnoc(rows: seq<Step>, x: Step)
    ensures TotalExptime(rows + [x]) == TotalExptime(rows) + Counted(x)
  {
    assert (rows + [x])[..|rows|] == rows;
  }

  /** A science row and its calibration row count the science time. */
  lemma PairTotal(p: PlanConfig)
    ensures TotalExptime([Science(p.target, p.exptime), Calibration(p.target, p.offBand, p.nCals)]) == p.exptime
  {
    var sci, cal := Science(p.target, p.exptime), Calibration(p.target, p.offBand, p.nCals);
    TotalSnoc([], sci);
    TotalSnoc([sci], cal);
    assert [] + [sci] == [sci] && [sci] + [cal] == [sci, cal];
  }

  lemma {:induction false} TotalRepeat(s: Step, n: int)
    ensures TotalExptime(Repeat(s, n)) == (if n > 0 then n * Counted(s) else 0)
    decreases n
  {
    if n > 0 {
      var c := Counted(s);
      TotalRepeat(s, n - 1);
      TotalSnoc(Repeat(s, n - 1), s);
      assert n * c == (n - 1) * c + c;
    }
  }

  /** Exposure time of the flats, darks and standards taken at `place`. */
  function FlatsTime(c: CalConfig, place: string): int
  {
    if Includes(c.takeFlats, place) && c.nFlats > 0 then c.nFlats * c.flatExptime else 0
  }

  function DarksTime(c: CalConfig, place: string): int
  {
    if Includes(c.takeDarks, place) && c.nDarks > 0 then c.nDarks * c.darkExptime else 0
  }

  function StandardsTime(s: StdConfig, place: string): int
  {
    if Includes(s.when, place) && s.nStandards > 0 then s.nStandards * s.exptime else 0
  }

  function PlaceTime(p: PlanConfig, place: string): int
  {
    FlatsTime(p.cal, place) + DarksTime(p.cal, place) + StandardsTime(p.std, place)
  }

  lemma CategoryTotals(p: PlanConfig, place: string)
    ensures TotalExptime(Flats(p.cal, place)) == FlatsTime(p.cal, place)
    ensures TotalExptime(Darks(p.cal, place)) == DarksTime(p.cal, place)
    ensures TotalExptime(Standards(p.std, place)) == StandardsTime(p.std, place)
  {
    TotalRepeat(Flat(p.cal.flatExptime), p.cal.nFlats);
    TotalRepeat(Dark(p.cal.darkExptime), p.cal.nDarks);
    TotalRepeat(Standard(p.std.exptime, p.std.use), p.std.nStandards);
  }

  lemma BeforeTotal(p: PlanConfig)
    ensures TotalExptime(BeforeRows(p)) == PlaceTime(p, "before")
  {
    var f := Flats(p.cal, "before");
    var d := Darks(p.cal, "before");
    var st := Standards(p.std, "before");
    CategoryTotals(p, "before");
    var focus: seq<Step> := if p.doFocus then [Focus] else [];
    TotalSnoc([], Focus);
    assert [] + [Focus] == [Focus];
    TotalAppend(f, d);
    TotalAppend(f + d, focus);
    TotalAppend(f + d + focus, st);
    assert BeforeRows(p) == f + d + focus + st;
  }

  lemma BetweenTotal(p: PlanConfig)
    ensures TotalExptime(BetweenRows(p)) == PlaceTime(p, "between")
  {
    var f := Flats(p.cal, "between");
    var d := Darks(p.cal, "between");
    CategoryTotals(p, "between");
    TotalAppend(f, d);
    TotalAppend(f + d, Standards(p.std, "between"));
  }

  lemma AfterTotal(p: PlanConfig)
    ensures TotalExptime(AfterRows(p)) == PlaceTime(p, "after")
  {
    var st := Standards(p.std, "after");
    var f := Flats(p.cal, "after");
    CategoryTotals(p, "after");
    TotalAppend(st, f);
    TotalAppend(st + f, Darks(p.cal, "after"));
  }

  /** The closed form of the iteration budget grows by one science time,
      and one in-between time unless `k` is the last iteration. */
  lemma IterationsStep(k: int, n: int, e: int, b: int)
    requires 0 < k <= n
    ensures k * e + (if k < n then k else k - 1) * b == (k - 1) * e + (k - 1) * b + e + (if k < n then b else 0)
  {
    assert k * e == (k - 1) * e + e;
    assert k * b == (k - 1) * b + b;
  }

  lemma {:induction false} IterationsTotal(p: PlanConfig, k: int)
    requires k <= p.iterations
    ensures TotalExptime(IterationsUpTo(p, k)) ==
      (if k > 0 then k * p.exptime + (if k < p.iterations then k else k - 1) * PlaceTime(p, "between") else 0)
    decreases k
  {
    if k > 0 {
      var e := p.exptime;
      var between := PlaceTime(p, "between");
      IterationsTotal(p, k - 1);
      assert TotalExptime(IterationsUpTo(p, k - 1)) == (k - 1) * e + (k - 1) * between;
      BetweenTotal(p);
      PairTotal(p);
      var pair := [Science(p.target, p.exptime), Calibration(p.target, p.offBand, p.nCals)];
      var tail := if k - 1 < p.iterations - 1 then BetweenRows(p) else [];
      TotalAppend(pair, tail);
      TotalAppend(IterationsUpTo(p, k - 1), IterationRows(p, k - 1));
      assert TotalExptime(IterationRows(p, k - 1)) == e + (if k < p.iterations then between else 0);
      IterationsStep(k, p.iterations, e, between);
    }
  }

  /** The budget in closed form: the science time of every iteration, the
      in-between calibrations once per gap, and the before and after
      calibrations once each. */
  lemma PlanTotal(p: PlanConfig)
    ensures TotalExptime(PlanRows(p)) ==
      PlaceTime(p, "before") + PlaceTime(p, "after") +
      (if p.iterations > 0 then p.iterations * p.exptime + (p.iterations - 1) * PlaceTime(p, "between") else 0)
  {
    BeforeTotal(p);
    AfterTotal(p);
    IterationsTotal(p, p.iterations);
    TotalAppend(BeforeRows(p), IterationsUpTo(p, p.iterations));
    TotalAppend(BeforeRows(p) + IterationsUpTo(p, p.iterations), AfterRows(p));
  }

  /** The repository's long-plan test: two one-hour iterations, two darks
      and two flats of 10 s and one 60 s standard, all after the target,
      need 7300 s, longer than the up-time of a target up for two hours. */
  lemma LongPlanExample(target: string)
    ensures TotalExptime(PlanRows(PlanConfig(target, 3600, 2, true, DefaultOffBandExptime, 6,
                                             DefaultCalibrations.(nDarks := 2, nFlats := 2),
                                             DefaultStandards.(nStandards := 1)))) == 7300
  {
    PlanTotal(PlanConfig(target, 3600, 2, true, DefaultOffBandExptime, 6,
                         DefaultCalibrations.(nDarks := 2, nFlats := 2),
                         DefaultStandards.(nStandards := 1)));
  }

  // ------------------------------------------------------ imperative build

  /** Appends `n` copies of a row, one per pass. */
  method AppendRepeat(plan: seq<Step>, s: Step, n: int) returns (r: seq<Step>)
    ensures r == plan + Repeat(s, n)
  {
    r := plan;
    var i := 0;
    while i < n
      invariant 0 <= i <= (if n > 0 then n else 0)
      invariant r == plan + Repeat(s, i)
    {
      r := r + [s];
      i := i + 1;
    }
  }

  method AppendFlats(plan: seq<Step>, c: CalConfig, place: string) returns (r: seq<Step>)
    ensures r == plan + Flats(c, place)
  {
    r := plan;
    if Includes(c.takeFlats, place) && c.nFlats > 0 {
      r := AppendRepeat(r, Flat(c.flatExptime), c.nFlats);
    }
  }

  method AppendDarks(plan: seq<Step>, c: CalConfig, place: string) returns (r: seq<Step>)
    ensures r == plan + Darks(c, place)
  {
    r := plan;
    if Includes(c.takeDarks, place) && c.nDarks > 0 {
      r := AppendRepeat(r, Dark(c.darkExptime), c.nDarks);
    }
  }

  method AppendStandards(plan: seq<Step>, s: StdConfig, place: string) returns (r: seq<Step>)
    ensures r == plan + Standards(s, place)
  {
    r := plan;
    if Includes(s.when, place) && s.nStandards > 0 {
      r := AppendRepeat(r, Standard(s.exptime, s.use), s.nStandards);
    }
  }

  /** The value of an attribute that has been set. An unset one is only
      reached when there are no iterations, where it is never read. */
  function Known(o: Option<int>): int
  {
    if o.Some? then o.value else 0
  }

  /** The rows before the first iteration, appended in order. */
  method AppendBefore(p: PlanConfig) returns (plan: seq<Step>)
    ensures plan == BeforeRows(p)
  {
    plan := AppendFlats([], p.cal, "before");
    plan := AppendDarks(plan, p.cal, "before");
    if p.doFocus {
      plan := plan + [Focus];
    }
    plan := AppendStandards(plan, p.std, "before");
  }

  /** One iteration of the plan loop. */
  method AppendIteration(plan: seq<Step>, p: PlanConfig, i: int) returns (r: seq<Step>)
    ensures r == plan + IterationRows(p, i)
  {
    r := plan + [Science(p.target, p.exptime), Calibration(p.target, p.offBand, p.nCals)];
    ghost var paired := r;
    if i < p.iterations - 1 {
      r := AppendFlats(r, p.cal, "between");
      r := AppendDarks(r, p.cal, "between");
      r := AppendStandards(r, p.std, "between");
      assert r == paired + BetweenRows(p);
    }
  }

  /** The rows after the last iteration, appended in order. */
  method AppendAfter(plan: seq<Step>, p: PlanConfig) returns (r: seq<Step>)
    ensures r == plan + AfterRows(p)
  {
    r := AppendStandards(plan, p.std, "after");
    r := AppendFlats(r, p.cal, "after");
    r := AppendDarks(r, p.cal, "after");
  }

  /** Appending iteration `i` extends the plan by iterations 0 .. i. */
  lemma IterationsSnoc(plan: seq<Step>, p: PlanConfig, i: int)
    requires 0 <= i
    ensures plan + IterationsUpTo(p, i) + IterationRows(p, i) == plan + IterationsUpTo(p, i + 1)
  {
    var a, b := IterationsUpTo(p, i), IterationRows(p, i);
    assert IterationsUpTo(p, i + 1) == a + b;
    assert plan + a + b == plan + (a + b);
  }

  /** The iteration loop: each pass reads the off-band settings (`known`
      says whether both are set) before appending its rows. */
  method AppendIterations(plan: seq<Step>, p: PlanConfig, known: bool) returns (r: Result<seq<Step>>)
    ensures r.Err? <==> p.iterations > 0 && !known
    ensures r.Err? ==> r.error == AttributeError
    ensures r.Ok? ==> r.value == plan + IterationsUpTo(p, p.iterations)
  {
    var rows := plan;
    var i := 0;
    while i < p.iterations
      invariant 0 <= i <= (if p.iterations > 0 then p.iterations else 0)
      invariant i > 0 ==> known
      invariant rows == plan + IterationsUpTo(p, i)
    {
      if !known {
        return Err(AttributeError);
      }
      rows := AppendIteration(rows, p, i);
      IterationsSnoc(plan, p, i);
      i := i + 1;
    }
    assert IterationsUpTo(p, i) == IterationsUpTo(p, p.iterations);
    r := Ok(rows);
  }

  /** The plan rows of `construct_observing_plan`, appended one by one.
      With at least one iteration an unset off-band time or count is an
      AttributeError; otherwise the rows are the plan in order. */
  method BuildPlan(target: string, exptime: int, iterations: int, doFocus: bool,
                   offBand: Option<int>, nCals: Option<int>, c: CalConfig, s: StdConfig)
    returns (r: Result<seq<Step>>)
    ensures r.Err? <==> iterations > 0 && (offBand.None? || nCals.None?)
    ensures r.Err? ==> r.error == AttributeError
    ensures r.Ok? ==> r.value == PlanRows(PlanConfig(target, exptime, iterations, doFocus, Known(offBand), Known(nCals), c, s))
  {
    var p := PlanConfig(target, exptime, iterations, doFocus, Known(offBand), Known(nCals), c, s);
    var plan := AppendBefore(p);
    r := AppendIterations(plan, p, offBand.Some? && nCals.Some?);
    if r.Ok? {
      var rows := AppendAfter(r.value, p);
      r := Ok(rows);
    }
  }

  /** The budget loop: the counted exposure times, summed row by row. */
  method SumExptime(rows: seq<Step>) returns (total: int)
    ensures total == TotalExptime(rows)
  {
    total := 0;
    var k := 0;
    while k < |rows|
      invariant 0 <= k <= |rows|
      invariant total == TotalExptime(rows[..k])
    {
      assert rows[..k + 1][..k] == rows[..k];
      if rows[k].Standard? || rows[k].Science? || rows[k].Flat? || rows[k].Dark? {
        total := total + rows[k].exptime;
      }
      k := k + 1;
    }
    assert rows[..k] == rows;
  }

  /** Whether a table built from these rows has an `n` column. */
  predicate HasNColumn(rows: seq<Step>)
  {
    exists j :: 0 <= j < |rows| && rows[j].Calibration?
  }

  method FindCalibration(rows: seq<Step>) returns (found: bool)
    ensures found <==> HasNColumn(rows)
  {
    found := false;
    var k := 0;
    while k < |rows|
      invariant 0 <= k <= |rows|
      invariant found <==> exists j :: 0 <= j < k && rows[j].Calibration?
    {
      if rows[k].Calibration? {
        found := true;
      }
      k := k + 1;
    }
  }

  // ------------------------------------------------------ the observation

  /** The attributes an `Observation` may have gained since construction
      (None: not set yet). */
  datatype ObsState = ObsState(
    haTilt: Option<Number>, oiiiTilt: Option<Number>,
    waitUntil: Option<Wait>, offBandExptime: Option<int>, offBandThroughout: Option<bool>,
    nCals: Option<int>, dither: Option<Dither>,
    calibration: Option<CalConfig>, standards: Option<StdConfig>,
    obsStart: Option<StartTime>, targetUptime: Option<int>,
    observingPlan: Option<seq<Step>>, totalExptime: Option<int>, obsPlan: Option<seq<Step>>)

  class Observation {
    const target: string
    const exptime: int
    const iterations: int
    const doFocus: bool
    const minAltitude: real

    var haTilt: Option<Number>
    var oiiiTilt: Option<Number>
    var waitUntil: Option<Wait>
    var offBandExptime: Option<int>
    var offBandThroughout: Option<bool>
    var nCals: Option<int>
    var dither: Option<Dither>
    var calibration: Option<CalConfig>
    var standards: Option<StdConfig>
    /** `OBS_START`. */
    var obsStart: Option<StartTime>
    /** `target_uptime`, in seconds. */
    var targetUptime: Option<int>
    /** The plan table. */
    var observingPlan: Option<seq<Step>>
    /** `total_exptime_hours`, in seconds. */
    var totalExptime: Option<int>
    /** The returned plan list, stored only when it fits the up-time. */
    var obsPlan: Option<seq<Step>>

    function State(): ObsState
      reads this
    {
      ObsState(haTilt, oiiiTilt, waitUntil, offBandExptime, offBandThroughout, nCals, dither,
               calibration, standards, obsStart, targetUptime, observingPlan, totalExptime, obsPlan)
    }

    /** A new observation has only its constructor settings. */
    constructor (target0: string, exptime0: int, iterations0: int, doFocus0: bool, minAltitude0: real)
      ensures target == target0 && exptime == exptime0 && iterations == iterations0
      ensures doFocus == doFocus0 && minAltitude == minAltitude0
      ensures State() == ObsState(None, None, None, None, None, None, None, None, None, None, None, None, None, None)
    {
      target := target0;
      exptime := exptime0;
      iterations := iterations0;
      doFocus := doFocus0;
      minAltitude := minAltitude0;
      haTilt, oiiiTilt, waitUntil, offBandExptime, offBandThroughout := None, None, None, None, None;
      nCals, dither, calibration, standards, obsStart := None, None, None, None, None;
      targetUptime, observingPlan, totalExptime, obsPlan := None, None, None, None;
    }

    /** `set_tilts`: the tilt of the named line becomes `angle`; nothing
        else changes, and nothing at all on an error. */
    method SetTilts(filtname: string, angle: Number) returns (r: Result<()>)
      modifies this
      ensures r.Err? <==> TiltLine(filtname, angle.value).Err?
      ensures r.Err? ==> r.error == TiltLine(filtname, angle.value).error && State() == old(State())
      ensures TiltLine(filtname, angle.value) == Ok(Halpha) ==> State() == old(State()).(haTilt := Some(angle))
      ensures TiltLine(filtname, angle.value) == Ok(Oiii) ==> State() == old(State()).(oiiiTilt := Some(angle))
    {
      if Abs(angle.value) >= 20.0 {
        return Err(ValueError);
      }
      if filtname in HalphaNames {
        haTilt := Some(angle);
      } else if filtname in OiiiNames {
        oiiiTilt := Some(angle);
      } else {
        return Err(FilterNotRecognizedError);
      }
      r := Ok(());
    }

    /** `configure_observation`: the waiting rule and off-band settings are
        stored first; a zero off-band time with off-band exposures
        throughout then fails, before `n_cals` and the dithers are set. */
    method ConfigureObservation(wait: Wait, offBand: int, throughout: bool, angle: int, pattern: seq<int>)
      returns (r: Result<()>)
      modifies this
      ensures r.Err? <==> NCals(exptime, offBand, throughout).Err?
      ensures r.Err? ==> (r.error == ZeroDivisionError &&
        State() == old(State()).(waitUntil := Some(wait), offBandExptime := Some(offBand), offBandThroughout := Some(throughout)))
      ensures r.Ok? ==>
        State() == old(State()).(waitUntil := Some(wait), offBandExptime := Some(offBand), offBandThroughout := Some(throughout),
                                 nCals := Some(NCals(exptime, offBand, throughout).value),
                                 dither := Some(Dither(angle, pattern, DitherOffsets(angle))))
    {
      waitUntil := Some(wait);
      offBandExptime := Some(offBand);
      offBandThroughout := Some(throughout);
      var n := NCals(exptime, offBand, throughout);
      if n.Err? {
        return Err(n.error);
      }
      nCals := Some(n.value);
      dither := Some(Dither(angle, pattern, DitherOffsets(angle)));
      r := Ok(());
    }

    /** `configure_calibrations`: replaces the calibration settings. */
    method ConfigureCalibrations(c: CalConfig)
      modifies this
      ensures State() == old(State()).(calibration := Some(c))
    {
      calibration := Some(c);
    }

    /** `configure_standards`: replaces the standard-star settings. */
    method ConfigureStandards(s: StdConfig)
      modifies this
      ensures State() == old(State()).(standards := Some(s))
    {
      standards := Some(s);
    }

    /** `check_observing_timings`: applies the start-time rules and, when
        they pass, stores the up-time. Without a waiting rule set the
        attribute lookup fails. */
    method CheckObservingTimings(date: string, today: Date, eph: Ephemeris) returns (r: Result<()>)
      modifies this
      ensures old(waitUntil).None? ==> r == Err(AttributeError) && State() == old(State())
      ensures old(waitUntil).Some? ==>
        var t := Timings(old(waitUntil).value, date, today, eph);
        (r.Ok? <==> t.error.None?) && (r.Err? ==> r.error == t.error.value) &&
        State() == old(State()).(waitUntil := Some(t.wait),
                                 obsStart := if t.start.Some? then t.start else old(obsStart),
                                 targetUptime := if t.uptime.Some? then t.uptime else old(targetUptime))
    {
      if waitUntil.None? {
        return Err(AttributeError);
      }
      var t := Timings(waitUntil.value, date, today, eph);
      waitUntil := Some(t.wait);
      if t.start.Some? {
        obsStart := t.start;
      }
      if t.error.Some? {
        return Err(t.error.value);
      }
      targetUptime := t.uptime;
      r := Ok(());
    }

    /** The plan settings once the defaults are in place. */
    function Config(): PlanConfig
      reads this
    {
      PlanConfig(target, exptime, iterations, doFocus, Known(offBandExptime), Known(nCals),
                 if calibration.Some? then calibration.value else DefaultCalibrations,
                 if standards.Some? then standards.value else DefaultStandards)
    }

    /** The first part of `construct_observing_plan`: the settings that
        are missing get their defaults. Without a waiting rule, the whole
        of `configure_observation` runs with its defaults (no waiting rule,
        600 s off-band exposures throughout, 25" dithers). */
    method ApplyDefaults()
      modifies this
      ensures calibration == Some(if old(calibration).Some? then old(calibration).value else DefaultCalibrations)
      ensures standards == Some(if old(standards).Some? then old(standards).value else DefaultStandards)
      ensures old(waitUntil).None? ==>
        waitUntil == Some(NoWait) &&
        offBandExptime == Some(DefaultOffBandExptime) && offBandThroughout == Some(true) &&
        nCals == Some(NCals(exptime, DefaultOffBandExptime, true).value) &&
        dither == Some(Dither(DefaultDitherAngle, DefaultPattern, DitherOffsets(DefaultDitherAngle)))
      ensures old(waitUntil).Some? ==>
        waitUntil == old(waitUntil) && offBandExptime == old(offBandExptime) &&
        offBandThroughout == old(offBandThroughout) && nCals == old(nCals) && dither == old(dither)
      ensures haTilt == old(haTilt) && oiiiTilt == old(oiiiTilt) && obsStart == old(obsStart)
      ensures targetUptime == old(targetUptime) && observingPlan == old(observingPlan)
      ensures totalExptime == old(totalExptime) && obsPlan == old(obsPlan)
    {
      if calibration.None? {
        ConfigureCalibrations(DefaultCalibrations);
      }
      if standards.None? {
        ConfigureStandards(DefaultStandards);
      }
      if waitUntil.None? {
        var d := ConfigureObservation(NoWait, DefaultOffBandExptime, true, DefaultDitherAngle, DefaultPattern);
      }
    }

    /** The rest of `construct_observing_plan`, once the defaults are in
        place: the start-time check, the plan, and the budget. The plan
        table is stored before its `n` column is read; the returned list is
        stored only when the plan fits the up-time. */
    method PlanWithSettings(date: string, today: Date, eph: Ephemeris) returns (r: Result<seq<Step>>)
      requires waitUntil.Some? && calibration.Some? && standards.Some?
      modifies this
      ensures haTilt == old(haTilt) && oiiiTilt == old(oiiiTilt)
      ensures offBandExptime == old(offBandExptime) && offBandThroughout == old(offBandThroughout)
      ensures nCals == old(nCals) && dither == old(dither)
      ensures calibration == old(calibration) && standards == old(standards)
      ensures var t := Timings(old(waitUntil).value, date, today, eph);
        waitUntil == Some(t.wait) &&
        obsStart == (if t.start.Some? then t.start else old(obsStart)) &&
        targetUptime == (if t.uptime.Some? then t.uptime else old(targetUptime)) &&
        (t.error.Some? ==> r == Err(t.error.value) && observingPlan == old(observingPlan) &&
                           totalExptime == old(totalExptime) && obsPlan == old(obsPlan)) &&
        (t.error.None? ==>
          (iterations > 0 && (offBandExptime.None? || nCals.None?) ==>
             r == Err(AttributeError) && observingPlan == old(observingPlan)) &&
          (iterations <= 0 ==> r == Err(AttributeError) && observingPlan == Some(PlanRows(Config()))) &&
          (iterations > 0 && offBandExptime.Some? && nCals.Some? ==>
             var rows := PlanRows(Config());
             observingPlan == Some(rows) && totalExptime == Some(TotalExptime(rows)) &&
             (r == Err(TargetUptimeError) <==> TotalExptime(rows) > t.uptime.value) &&
             (r.Ok? <==> TotalExptime(rows) <= t.uptime.value) &&
             (r.Ok? ==> r.value == rows && obsPlan == Some(rows)) &&
             (r.Err? ==> obsPlan == old(obsPlan))))
    {
      var timing := CheckObservingTimings(date, today, eph);
      if timing.Err? {
        return Err(timing.error);
      }
      r := PlanAndBudget();
    }

    /** The plan and budget part of `construct_observing_plan`, once the
        start time has passed and the up-time is stored: only the plan
        table, the budget and the returned list change. */
    method PlanAndBudget() returns (r: Result<seq<Step>>)
      requires calibration.Some? && standards.Some? && targetUptime.Some?
      modifies this
      ensures haTilt == old(haTilt) && oiiiTilt == old(oiiiTilt) && waitUntil == old(waitUntil)
      ensures offBandExptime == old(offBandExptime) && offBandThroughout == old(offBandThroughout)
      ensures nCals == old(nCals) && dither == old(dither)
      ensures calibration == old(calibration) && standards == old(standards)
      ensures obsStart == old(obsStart) && targetUptime == old(targetUptime)
      ensures iterations > 0 && (offBandExptime.None? || nCals.None?) ==>
        r == Err(AttributeError) && observingPlan == old(observingPlan)
      ensures iterations <= 0 ==> r == Err(AttributeError) && observingPlan == Some(PlanRows(Config()))
      ensures iterations > 0 && offBandExptime.Some? && nCals.Some? ==>
        var rows := PlanRows(Config());
        observingPlan == Some(rows) && totalExptime == Some(TotalExptime(rows)) &&
        (r == Err(TargetUptimeError) <==> TotalExptime(rows) > targetUptime.value) &&
        (r.Ok? <==> TotalExptime(rows) <= targetUptime.value) &&
        (r.Ok? ==> r.value == rows && obsPlan == Some(rows)) &&
        (r.Err? ==> obsPlan == old(obsPlan))
    {
      var built := BuildPlan(target, exptime, iterations, doFocus, offBandExptime, nCals,
                             calibration.value, standards.value);
      if built.Err? {
        return Err(built.error);
      }
      var rows := built.value;
      observingPlan := Some(rows);
      var hasN := FindCalibration(rows);
      NColumnIffIterations(Config());
      if !hasN {
        return Err(AttributeError);
      }
      var total := SumExptime(rows);
      totalExptime := Some(total);
      if total > targetUptime.value {
        return Err(TargetUptimeError);
      }
      obsPlan := Some(rows);
      r := Ok(rows);
    }

    /** `construct_observing_plan`: fills in the default settings that are
        missing, then checks the start time, builds the plan, and checks
        the exposure-time budget against the up-time. */
    method ConstructObservingPlan(date: string, today: Date, eph: Ephemeris) returns (r: Result<seq<Step>>)
      modifies this
      ensures calibration == Some(if old(calibration).Some? then old(calibration).value else DefaultCalibrations)
      ensures standards == Some(if old(standards).Some? then old(standards).value else DefaultStandards)
      ensures old(waitUntil).None? ==>
        offBandExptime == Some(DefaultOffBandExptime) && offBandThroughout == Some(true) &&
        nCals == Some(NCals(exptime, DefaultOffBandExptime, true).value) &&
        dither == Some(Dither(DefaultDitherAngle, DefaultPattern, DitherOffsets(DefaultDitherAngle)))
      ensures old(waitUntil).Some? ==>
        offBandExptime == old(offBandExptime) && offBandThroughout == old(offBandThroughout) &&
        nCals == old(nCals) && dither == old(dither)
      ensures haTilt == old(haTilt) && oiiiTilt == old(oiiiTilt)
      ensures var t := Timings(if old(waitUntil).Some? then old(waitUntil).value else NoWait, date, today, eph);
        waitUntil == Some(t.wait) &&
        obsStart == (if t.start.Some? then t.start else old(obsStart)) &&
        targetUptime == (if t.uptime.Some? then t.uptime else old(targetUptime)) &&
        (t.error.Some? ==> r == Err(t.error.value) && observingPlan == old(observingPlan) &&
                           totalExptime == old(totalExptime) && obsPlan == old(obsPlan)) &&
        (t.error.None? ==>
          (iterations > 0 && (offBandExptime.None? || nCals.None?) ==>
             r == Err(AttributeError) && observingPlan == old(observingPlan)) &&
          (iterations <= 0 ==> r == Err(AttributeError) && observingPlan == Some(PlanRows(Config()))) &&
          (iterations > 0 && offBandExptime.Some? && nCals.Some? ==>
             var rows := PlanRows(Config());
             observingPlan == Some(rows) && totalExptime == Some(TotalExptime(rows)) &&
             (r == Err(TargetUptimeError) <==> TotalExptime(rows) > t.uptime.value) &&
             (r.Ok? <==> TotalExptime(rows) <= t.uptime.value) &&
             (r.Ok? ==> r.value == rows && obsPlan == Some(rows)) &&
             (r.Err? ==> obsPlan == old(obsPlan))))
    {
      ApplyDefaults();
      r := PlanWithSettings(date, today, eph);
    }
  }
}
