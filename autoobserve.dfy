/**
  The night's run: `AutoObserve.observe`, `end_of_script_shutdown` and
  `QuickObserve`. Every hardware call (cameras, filter tilters, flip flats,
  mount, guider) is an action appended to the site's trace, and a sleep is
  an action too. The clock is the start time plus the time the actions of
  the trace took. The roof, the temperature and tilt checks and the
  altitude verdicts are oracles of the World, read at the current time.
 */
module AutoObserve {
  import opened Base
  import opened Calendar
  import opened Hardware
  import opened Observation
  import Dispatch
  import Camera

  // ------------------------------------------------------------ actions

  /** A hardware call or a sleep, as it appears in the trace. `skip` is the
      skip list the call was given, if any. */
  datatype Action =
    | SetTemperatures(celsius: int, skip: Option<seq<string>>)
    | CheckTemperatures
    | CheckRoof
    | Sleep(seconds: nat)
    | Slew(target: string)
    | StartTracking
    | TiltFilters(ha: Number, oiii: Number, skip: Option<seq<string>>)
    | CheckTilts(skip: Option<seq<string>>)
    | CloseFlipFlats
    | TurnOnFlipFlaps
    | TurnOffFlipFlaps
    | OpenFlipFlats
    | FlatExposure(exptime: int, units: seq<string>)
    | FocusRun(units: seq<string>)
    | MountDither(arcmin: int, direction: string)
    | StartGuiding
    | StopGuiding
    | ScienceExposure(exptime: int, offExptime: int, nOffs: int, name: string, units: seq<string>)
    | ExposeScience(exptime: int, units: seq<string>)
    | ParkMount
    | StopMount

  /** `check_target_altitude`, which `observe` calls on every target and
      every row. The Observation class has no method of that name
      (`NoSuchMethod`: the call is an AttributeError); `Checked` stands for
      the intended call, `calc_target_altitude`, whose verdict "above the
      minimum altitude" is given per target name and time. */
  datatype Altitude = NoSuchMethod | Checked(above: (string, int) -> bool)

  /** What the site reports: the morning twilight, the roof, the cameras
      out of tolerance, the H-alpha and OIII units out of tolerance (each
      reading may fail with the exception the check raises, as it does for
      a unit that is down or silent), the altitude verdicts (all at a time), the date and the ephemerides the
      plans are built with, and how long each hardware call takes. */
  datatype World = World(
    twilight: int,
    roofOpen: int -> bool,
    badCameras: int -> Result<seq<string>>,
    badTilts: int -> Result<(seq<string>, seq<string>)>,
    altitude: Altitude,
    today: Date,
    ephemeris: string -> Ephemeris,
    took: Action -> nat)

  /** How a run ends: normally, with an exception, or still inside the
      camera cooldown loop when the model's bound on its rounds ran out. */
  datatype Outcome = Done | Raised(error: Error) | Stalled

  function Took(w: World, a: Action): nat
  {
    if a.Sleep? then a.seconds else w.took(a)
  }

  /** The time the actions take, in order. */
  function Elapsed(w: World, acts: seq<Action>): nat
  {
    if acts == [] then 0 else Elapsed(w, acts[..|acts| - 1]) + Took(w, acts[|acts| - 1])
  }

  /** How often `a` occurs in `acts`. */
  function Count(acts: seq<Action>, a: Action): (n: nat)
    ensures n <= |acts|
    ensures a !in acts ==> n == 0
  {
    if acts == [] then 0 else Count(acts[..|acts| - 1], a) + (if acts[|acts| - 1] == a then 1 else 0)
  }

  lemma {:induction false} CountConcat(x: seq<Action>, y: seq<Action>, a: Action)
    ensures Count(x + y, a) == Count(x, a) + Count(y, a)
    decreases |y|
  {
    if y == [] {
      assert x + y == x;
    } else {
      assert (x + y)[..|x + y| - 1] == x + y[..|y| - 1];
      CountConcat(x, y[..|y| - 1], a);
    }
  }

  // ---------------------------------------------------------------- site

  /** The site: the trace of the calls made so far, and the clock. */
  class Site {
    const world: World
    const start: int
    var trace: seq<Action>

    constructor (world0: World, start0: int)
      ensures world == world0 && start == start0 && trace == []
    {
      world := world0;
      start := start0;
      trace := [];
    }

    /** `datetime.now()`, in seconds on the Calendar scale. */
    function Now(): int
      reads this
    {
      start + Elapsed(world, trace)
    }

    /** One call: it is recorded, and the clock moves on by its duration. */
    method Do(a: Action)
      modifies this
      ensures trace == old(trace) + [a]
      ensures Now() == old(Now()) + Took(world, a)
    {
      trace := trace + [a];
      assert trace[..|trace| - 1] == old(trace);
    }

    /** A run of calls, in order. */
    method DoAll(acts: seq<Action>)
      modifies this
      ensures trace == old(trace) + acts
    {
      var i := 0;
      while i < |acts|
        invariant 0 <= i <= |acts|
        invariant trace == old(trace) + acts[..i]
      {
        Do(acts[i]);
        assert acts[..i + 1] == acts[..i] + [acts[i]];
        i := i + 1;
      }
      assert acts[..i] == acts;
    }
  }

  // ------------------------------------------------------------ shutdown

  /** `end_of_script_shutdown`: cameras to 30 degrees, a 30 s wait, flip
      flats closed, mount parked, then stopped. */
  const Shutdown: seq<Action> := [SetTemperatures(30, None), Sleep(30), CloseFlipFlats, ParkMount, StopMount]

  method EndOfScriptShutdown(site: Site)
    modifies site
    ensures site.trace == old(site.trace) + Shutdown
  {
    site.Do(SetTemperatures(30, None));
    site.Do(Sleep(30));
    site.Do(CloseFlipFlats);
    site.Do(ParkMount);
    site.Do(StopMount);
  }

  /** The shutdown parks the mount exactly once, after every other step but
      the stop. */
  lemma ShutdownParksOnce()
    ensures Count(Shutdown, ParkMount) == 1
    ensures Shutdown[|Shutdown| - 2] == ParkMount && Shutdown[|Shutdown| - 1] == StopMount
  {
    assert Shutdown[..4][..3] == [SetTemperatures(30, None), Sleep(30), CloseFlipFlats];
    assert ParkMount !in Shutdown[..4][..3];
    assert Shutdown[..4][..3] == Shutdown[..3];
  }

  // -------------------------------------------------------- plan rows

  /** What a plan row does: the calls it makes, the exception it ends with
      if any, and the dither index after it. */
  datatype RowRun = RowRun(actions: seq<Action>, raised: Option<Error>, nextDither: int)

  /** `DitherMount` as written: a mount command per non-zero axis, then
      the replies of both commands are read, which fails when either axis
      was zero and its command was never run. */
  function DitherMountAsWritten(east: int, north: int): (r: (seq<Action>, Option<Error>))
    ensures r.0 == DitherMountActions(east, north)
    ensures r.1.None? <==> |r.0| == 2
    ensures r.1.Some? ==> r.1 == Some(UnboundLocalError)
  {
    (DitherMountActions(east, north), if east == 0 || north == 0 then Some(UnboundLocalError) else None)
  }

  /** `DitherMount` as intended: a mount command per non-zero axis, east
      first. */
  function DitherMountActions(east: int, north: int): (acts: seq<Action>)
    ensures MountDither(east, "E") in acts <==> east != 0
    ensures MountDither(north, "N") in acts <==> north != 0
    ensures |acts| == (if east != 0 then 1 else 0) + (if north != 0 then 1 else 0)
    ensures forall a :: a in acts ==> a.MountDither?
  {
    (if east != 0 then [MountDither(east, "E")] else []) + (if north != 0 then [MountDither(north, "N")] else [])
  }

  /** The dither grid has a zero axis at every key but the corners, so the
      dither of the second science row (key 1) fails as written, whatever
      the dither angle; the intended dither never fails and moves only
      along the non-zero axis. */
  lemma DitherZeroAxisFails(a: int)
    ensures DitherMountAsWritten(DitherOffsets(a)[1].0, DitherOffsets(a)[1].1).1 == Some(UnboundLocalError)
    ensures a != 0 ==> DitherMountActions(DitherOffsets(a)[1].0, DitherOffsets(a)[1].1) == [MountDither(a, "N")]
  {
    DitherGrid(a, 1);
  }

  /** A flat row as written: the flip flats are closed and lit, then the
      row's `n`, read from a column pandas stores as floats, is given to
      `range`, which fails before any flat is exposed. */
  function FlatRowAsWritten(): (r: (seq<Action>, Option<Error>))
    ensures forall a :: a in r.0 ==> !a.FlatExposure?
    ensures r.0 == [CloseFlipFlats, TurnOnFlipFlaps] && r.1 == Some(TypeError)
  {
    ([CloseFlipFlats, TurnOnFlipFlaps], Some(TypeError))
  }

  /** A flat row as intended: flip flats closed and lit, `n` flat
      exposures, then the flip flats turned off and opened. */
  function FlatRowActions(exptime: int, n: int, skip: seq<string>): (acts: seq<Action>)
    ensures |acts| == 4 + (if n > 0 then n else 0)
    ensures forall i :: 0 <= i < |acts| ==> (acts[i] == FlatExposure(exptime, skip) <==> 2 <= i < |acts| - 2)
  {
    [CloseFlipFlats, TurnOnFlipFlaps] +
    seq(if n > 0 then n else 0, _ => FlatExposure(exptime, skip)) +
    [TurnOffFlipFlaps, OpenFlipFlats]
  }

  lemma FlatRowBracket(exptime: int, n: int, skip: seq<string>)
    ensures var acts := FlatRowActions(exptime, n, skip);
      |acts| == 4 + (if n > 0 then n else 0) &&
      acts[..2] == [CloseFlipFlats, TurnOnFlipFlaps] &&
      acts[|acts| - 2..] == [TurnOffFlipFlaps, OpenFlipFlats] &&
      (forall i :: 2 <= i < |acts| - 2 ==> acts[i] == FlatExposure(exptime, skip)) &&
      Count(acts, FlatExposure(exptime, skip)) == (if n > 0 then n else 0)
    ensures FlatExposure(exptime, skip) !in FlatRowAsWritten().0 && FlatRowAsWritten().1 == Some(TypeError)
  {
    var k := if n > 0 then n else 0;
    var pre, post := [CloseFlipFlats, TurnOnFlipFlaps], [TurnOffFlipFlaps, OpenFlipFlats];
    var body := seq(k, _ => FlatExposure(exptime, skip));
    var acts := FlatRowActions(exptime, n, skip);
    assert acts == pre + body + post;
    assert acts[..2] == pre && acts[|acts| - 2..] == post;
    FlatRowCount(exptime, n, skip);
  }

  /** A flat row as intended holds exactly `n` flat exposures. */
  lemma FlatRowCount(exptime: int, n: int, skip: seq<string>)
    ensures Count(FlatRowActions(exptime, n, skip), FlatExposure(exptime, skip)) == (if n > 0 then n else 0)
  {
    var e := FlatExposure(exptime, skip);
    var pre, post := [CloseFlipFlats, TurnOnFlipFlaps], [TurnOffFlipFlaps, OpenFlipFlats];
    var body := seq(if n > 0 then n else 0, _ => e);
    assert FlatRowActions(exptime, n, skip) == pre + body + post;
    FlipFlatCallsAreNoExposure(e, pre, post);
    BracketCount(pre, body, post, e);
  }

  /** A run of `a` between calls that are not `a` counts its own length. */
  lemma BracketCount(pre: seq<Action>, body: seq<Action>, post: seq<Action>, a: Action)
    requires Count(pre, a) == 0 && Count(post, a) == 0
    requires forall i :: 0 <= i < |body| ==> body[i] == a
    ensures Count(pre + body + post, a) == |body|
  {
    CountConcat(pre, body, a);
    CountConcat(pre + body, post, a);
    CountAll(body, a);
  }

  /** The flip flat calls around a flat row are not exposures. */
  lemma FlipFlatCallsAreNoExposure(e: Action, pre: seq<Action>, post: seq<Action>)
    requires e.FlatExposure?
    requires pre == [CloseFlipFlats, TurnOnFlipFlaps] && post == [TurnOffFlipFlaps, OpenFlipFlats]
    ensures Count(pre, e) == 0 && Count(post, e) == 0
  {
    assert e !in pre && e !in post;
  }

  lemma {:induction false} CountAll(acts: seq<Action>, a: Action)
    requires forall i :: 0 <= i < |acts| ==> acts[i] == a
    ensures Count(acts, a) == |acts|
    decreases |acts|
  {
    if acts != [] {
      CountAll(acts[..|acts| - 1], a);
    }
  }

  /** The keywords `observe` gives the exposure helpers: the skip list and
      the target name. */
  function ExposureKwargs(name: string, skip: seq<string>): Dispatch.Kwargs
  {
    Dispatch.NoKwargs.(skip := Some(skip), name := Some(name))
  }

  /** One row of the observing plan, run with dither index `di`. A flat row
      is bracketed by the flip flats; a dark row calls `AllDarkExposure`
      without its exposure time; a focus row runs the autofocus; standard
      and calibration rows do nothing. A science row dithers by
      `dither_dict[di]`, guides, and takes one exposure: paired with the
      off-band exposures of the next row when that row is a calibration,
      science only otherwise; then it stops guiding and slews back. The
      requests behind the dark and the exposures are those of
      `DarkRowRequest` and `ScienceRowRequests`. */
  function RowStep(rows: seq<Step>, k: int, di: int, offsets: Option<map<int, (int, int)>>,
                   name: string, skip: seq<string>): (r: RowRun)
    requires 0 <= k < |rows|
    ensures r.raised.None? ==> r.nextDither == di + (if rows[k].Science? then 1 else 0)
  {
    match rows[k]
    case Flat(e) => RowRun(FlatRowActions(e, RowN(rows[k]), skip), None, di)
    case Dark(_) => RowRun([], Some(TypeError), di)
    case Standard(_, _) => RowRun([], None, di)
    case Focus => RowRun([FocusRun(skip)], None, di)
    case Calibration(_, _, _) => RowRun([], None, di)
    case Science(_, e) =>
      if offsets.None? then RowRun([], Some(AttributeError), di)
      else if di !in offsets.value then RowRun([], Some(KeyError), di)
      else
        var lead := DitherMountActions(offsets.value[di].0, offsets.value[di].1) + [StartGuiding, Sleep(15)];
        if k + 1 >= |rows| then RowRun(lead, Some(KeyError), di + 1)
        else
          var next := rows[k + 1];
          var exposure := if next.Calibration? then ScienceExposure(e, next.exptime, next.n, name, skip)
                          else ExposeScience(e, skip);
          RowRun(lead + [exposure, StopGuiding, Slew(name)], None, di + 1)
  }

  /** Rows 0 .. k-1 run in order, stopping at the first exception, when
      every row is above the altitude limit and the morning cutoff does
      not stop the run. */
  function PrefixRun(rows: seq<Step>, k: int, offsets: Option<map<int, (int, int)>>, name: string,
                     skip: seq<string>): (r: RowRun)
    requires 0 <= k <= |rows|
    ensures ParkMount !in r.actions
    decreases k
  {
    if k == 0 then RowRun([], None, 0)
    else
      var p := PrefixRun(rows, k - 1, offsets, name, skip);
      if p.raised.Some? then p
      else
        var s := RowStep(rows, k - 1, p.nextDither, offsets, name, skip);
        RowNeverParks(rows, k - 1, p.nextDither, offsets, name, skip);
        RowRun(p.actions + s.actions, s.raised, s.nextDither)
  }

  /** A row never parks the mount. */
  lemma RowNeverParks(rows: seq<Step>, k: int, di: int, offsets: Option<map<int, (int, int)>>,
                      name: string, skip: seq<string>)
    requires 0 <= k < |rows|
    ensures ParkMount !in RowStep(rows, k, di, offsets, name, skip).actions
  {
    if rows[k].Flat? {
      var n := RowN(rows[k]);
      var body := seq(if n > 0 then n else 0, _ => FlatExposure(rows[k].exptime, skip));
      assert ParkMount !in body;
    }
  }

  /** The dither index after the rows before k is the number of science
      rows among them. */
  lemma {:induction false} PrefixDither(rows: seq<Step>, k: int, offsets: Option<map<int, (int, int)>>,
                                        name: string, skip: seq<string>)
    requires 0 <= k <= |rows|
    requires PrefixRun(rows, k, offsets, name, skip).raised.None?
    ensures PrefixRun(rows, k, offsets, name, skip).nextDither == CountScience(rows[..k])
    ensures ParkMount !in PrefixRun(rows, k, offsets, name, skip).actions
    decreases k
  {
    if k > 0 {
      PrefixDither(rows, k - 1, offsets, name, skip);
      RowNeverParks(rows, k - 1, PrefixRun(rows, k - 1, offsets, name, skip).nextDither, offsets, name, skip);
      assert rows[..k][..k - 1] == rows[..k - 1];
    }
  }

  /** In a plan built by `construct_observing_plan`, the science row of
      iteration `di` (with `di` a key of the dither grid) dithers, guides,
      takes one paired exposure with the plan's off-band time and count,
      stops guiding and slews back. */
  lemma PlanScienceRow(p: PlanConfig, k: int, di: int, a: int, skip: seq<string>)
    requires 0 <= k < |PlanRows(p)| && PlanRows(p)[k].Science?
    requires 0 <= di < 9
    ensures var d := DitherOffsets(a)[di];
      RowStep(PlanRows(p), k, di, Some(DitherOffsets(a)), p.target, skip) ==
      RowRun(DitherMountActions(d.0, d.1) +
             [StartGuiding, Sleep(15), ScienceExposure(p.exptime, p.offBand, p.nCals, p.target, skip),
              StopGuiding, Slew(p.target)], None, di + 1)
  {
    PlanPaired(p);
    var rows := PlanRows(p);
    assert rows[k + 1] == Calibration(p.target, p.offBand, p.nCals);
  }

  /** The grid has nine dithers: a science row reached with dither index 9
      (the tenth science row of the target) raises KeyError before any
      call. */
  lemma TenthScienceRowFails(rows: seq<Step>, k: int, a: int, name: string, skip: seq<string>)
    requires 0 <= k < |rows| && rows[k].Science?
    ensures RowStep(rows, k, 9, Some(DitherOffsets(a)), name, skip) == RowRun([], Some(KeyError), 9)
  {
  }

  /** A dark row always fails: `AllDarkExposure` is called without its
      required exposure time, and the request is refused with TypeError. */
  lemma DarkRowFails(rows: seq<Step>, k: int, di: int, offsets: Option<map<int, (int, int)>>,
                     name: string, skip: seq<string>)
    requires 0 <= k < |rows| && rows[k].Dark?
    ensures RowStep(rows, k, di, offsets, name, skip) == RowRun([], Some(TypeError), di)
    ensures Camera.DarkRequest(None, "all", [], 60, [], Dispatch.NoKwargs.(skip := Some(skip))) == Err(TypeError)
  {
  }

  /** The exposure a science row sends is accepted: `observe` passes
      neither `timeout_global` nor `verbose`, and the request waits the
      exposure time plus the 60 s readout. */
  lemma ScienceRowRequests(e: int, offExptime: int, nOffs: int, name: string, skip: seq<string>)
    ensures var r := Camera.ScienceRequest(Camera.ScienceArgs(e, offExptime, nOffs, None, [], 60, false), [],
                                           ExposureKwargs(name, skip));
      r.Ok? && r.value.timeoutGlobal == e + 60
    ensures var r := Camera.ExposeRequest(e, "science", [], 60, [], ExposureKwargs(name, skip));
      r.Ok? && r.value.timeoutGlobal == e + 60 && r.value.which == "science"
  {
  }

  // ------------------------------------------------------ waiting loops

  /** The wait before the run: none when the start is "N/A" or already
      past, otherwise a sleep until the start. */
  function StartWaitActions(start: StartTime, now: int): (acts: seq<Action>)
    ensures acts == [] <==> start.NotApplicable? || start.t < now
    ensures acts != [] ==> acts == [Sleep(start.t - now)] && now + acts[0].seconds == start.t
  {
    if start.NotApplicable? || start.t < now then [] else [Sleep(start.t - now)]
  }

  /** The start wait as written: a timed `OBS_START` is an astropy time,
      and subtracting the wall clock's `datetime` from it has no operator,
      so only an "N/A" start gets past it (and goes on at once). */
  function StartWaitAsWritten(start: StartTime, now: int): (r: Result<seq<Action>>)
    ensures r.Ok? <==> start.NotApplicable?
    ensures r.Ok? ==> r.value == [] && r.value == StartWaitActions(start, now)
    ensures r.Err? ==> r.error == TypeError
  {
    if start.NotApplicable? then Ok([]) else Err(TypeError)
  }

  /** A start still ahead fails as written, where the intended wait sleeps
      exactly until it. */
  lemma TimedStartFails(t: int, now: int)
    requires now <= t
    ensures StartWaitAsWritten(At(t), now) == Err(TypeError)
    ensures StartWaitActions(At(t), now) == [Sleep(t - now)]
  {
  }

  /** The roof gate: at each round, past the morning twilight the run ends
      (EndOfNightError, with no shutdown); an open roof lets it go on;
      otherwise it waits 60 s. It only checks the roof and sleeps, and
      it ends because the clock moves 60 s a round towards the twilight. */
  method AwaitOpenRoof(site: Site) returns (r: Result<()>, ghost acts: seq<Action>, ghost openedAt: int)
    modifies site
    ensures site.trace == old(site.trace) + acts
    ensures forall i :: 0 <= i < |acts| ==> acts[i] == CheckRoof || acts[i] == Sleep(60)
    ensures r.Err? ==> r.error == EndOfNightError && site.Now() > site.world.twilight
    ensures r.Ok? ==> old(site.Now()) <= openedAt <= site.world.twilight && site.world.roofOpen(openedAt)
  {
    acts := [];
    openedAt := 0;
    while true
      invariant site.trace == old(site.trace) + acts
      invariant forall i :: 0 <= i < |acts| ==> acts[i] == CheckRoof || acts[i] == Sleep(60)
      invariant old(site.Now()) <= site.Now()
      decreases if site.Now() <= site.world.twilight then site.world.twilight - site.Now() + 1 else 0
    {
      var now := site.Now();
      if now > site.world.twilight {
        return Err(EndOfNightError), acts, openedAt;
      }
      var open := site.world.roofOpen(now);
      site.Do(CheckRoof);
      acts := acts + [CheckRoof];
      if open {
        return Ok(()), acts, now;
      }
      site.Do(Sleep(60));
      acts := acts + [Sleep(60)];
    }
  }

  /** Rows of the registry keep their names and either keep their status
      or become DOWN. */
  predicate OnlyMarkedDown(before: seq<Entry>, after: seq<Entry>)
  {
    |after| == |before| &&
    forall i :: 0 <= i < |before| ==> after[i].name == before[i].name &&
                                      (after[i].status == before[i].status || after[i].status == Down)
  }

  /** Marks the names DOWN, one by one, as the loops of `observe` do; a
      name that is not a unit name stops it, and the names before it stay
      DOWN. */
  method MarkDown(registry: HardwareStatus, ns: seq<string>) returns (r: Result<()>)
    modifies registry
    ensures r.Ok? <==> UnitNames(ns)
    ensures r.Err? ==> r.error == AssertionError
    ensures r.Ok? ==> registry.Current() == MarkEach(old(registry.Current()), ns, Down)
    ensures registry.Current() == MarkEach(old(registry.Current()), ns[..LeadingUnitNames(ns)], Down)
    ensures OnlyMarkedDown(old(registry.Current()), registry.Current())
    ensures old(registry.fileExists) ==> registry.fileExists
  {
    r := registry.MarkNames(ns, Down);
    if LeadingUnitNames(ns) == 0 {
      assert MarkEach(old(registry.Current()), ns[..0], Down) == old(registry.Current());
    }
    if r.Err? {
      return Err(AssertionError);
    }
    assert ns[..LeadingUnitNames(ns)] == ns;
  }

  /** The count of `a` after appending one call. */
  lemma CountOne(acts: seq<Action>, b: Action, a: Action)
    ensures Count(acts + [b], a) == Count(acts, a) + (if b == a then 1 else 0)
  {
    assert (acts + [b])[..|acts|] == acts;
  }

  /** The cooldown's calls so far, appended to `base`: the opening
      command and wait first, no park, and `resends` re-sends without the
      skip list. */
  ghost predicate CoolLog(base: seq<Action>, trace: seq<Action>, acts: seq<Action>, skip: seq<string>, resends: nat)
  {
    trace == base + acts &&
    |acts| >= 2 && acts[..2] == [SetTemperatures(-20, Some(skip)), Sleep(120)] &&
    ParkMount !in acts &&
    Count(acts, SetTemperatures(-20, None)) == resends
  }

  /** One temperature check: the reading at the current time, then the
      call. */
  method CheckCameras(site: Site, ghost base: seq<Action>, ghost acts: seq<Action>, ghost skip: seq<string>, ghost resends: nat)
    returns (bad: Result<seq<string>>, ghost acts': seq<Action>, ghost t: int)
    requires CoolLog(base, site.trace, acts, skip, resends)
    modifies site
    ensures CoolLog(base, site.trace, acts', skip, resends)
    ensures bad == site.world.badCameras(t)
    ensures t == old(site.Now()) <= site.Now()
  {
    var now := site.Now();
    t := now;
    bad := site.world.badCameras(now);
    site.Do(CheckTemperatures);
    CountOne(acts, CheckTemperatures, SetTemperatures(-20, None));
    acts' := acts + [CheckTemperatures];
    assert acts'[..2] == acts[..2];
  }

  /** One re-send of the set point, without the skip list, and its
      120 s wait. */
  method ResendTemperatures(site: Site, ghost base: seq<Action>, ghost acts: seq<Action>, ghost skip: seq<string>, ghost resends: nat)
    returns (ghost acts': seq<Action>)
    requires CoolLog(base, site.trace, acts, skip, resends)
    modifies site
    ensures CoolLog(base, site.trace, acts', skip, resends + 1)
    ensures old(site.Now()) <= site.Now()
  {
    site.Do(SetTemperatures(-20, None));
    CountOne(acts, SetTemperatures(-20, None), SetTemperatures(-20, None));
    ghost var mid := acts + [SetTemperatures(-20, None)];
    site.Do(Sleep(120));
    CountOne(mid, Sleep(120), SetTemperatures(-20, None));
    acts' := mid + [Sleep(120)];
    assert acts'[..2] == acts[..2];
  }

  /** Camera `n` is out of tolerance in the reading at time `t`. */
  predicate BadCamera(w: World, t: int, n: string)
  {
    w.badCameras(t).Ok? && n in w.badCameras(t).value
  }

  /** Every reading is the same list of bad cameras, not empty and made of
      unit names. */
  ghost predicate SteadyBadCameras(w: World)
  {
    (forall t :: w.badCameras(t) == w.badCameras(0)) &&
    w.badCameras(0).Ok? && w.badCameras(0).value != [] && UnitNames(w.badCameras(0).value)
  }

  /** Marks one reading's bad cameras DOWN: the names marked so far grow by
      the reading's leading unit names. */
  method MarkReading(registry: HardwareStatus, bad: seq<string>, ghost t0: seq<Entry>, ghost marked: seq<string>)
    returns (r: Result<()>, ghost marked': seq<string>)
    requires registry.Current() == MarkEach(t0, marked, Down)
    modifies registry
    ensures r.Ok? <==> UnitNames(bad)
    ensures r.Err? ==> r.error == AssertionError
    ensures marked' == marked + bad[..LeadingUnitNames(bad)]
    ensures UnitNames(bad) ==> marked' == marked + bad
    ensures registry.Current() == MarkEach(t0, marked', Down)
  {
    r := MarkDown(registry, bad);
    MarkEachConcat(t0, marked, bad[..LeadingUnitNames(bad)], Down);
    marked' := marked + bad[..LeadingUnitNames(bad)];
    if UnitNames(bad) {
      assert bad[..LeadingUnitNames(bad)] == bad;
    }
  }

  /** The camera cooldown: cameras to -20 degrees (with the skip list) and
      120 s of wait, then rounds of checks. No camera out of tolerance ends
      the loop; after four re-sends (without the skip list, each followed
      by 120 s) every failing round marks the bad cameras DOWN and checks
      again, with no exit. `fuel` bounds the rounds the model runs:
      `Stalled` is a loop still running. `marked` lists the names marked
      DOWN, reading after reading, and `quarantineFrom` is the time the
      fourth re-send's wait ended. */
  method CoolCameras(site: Site, registry: HardwareStatus, skip: seq<string>, fuel: nat)
    returns (o: Outcome, ghost acts: seq<Action>, ghost lastCheck: int, ghost marked: seq<string>,
             ghost quarantineFrom: int)
    modifies site, registry
    ensures site.trace == old(site.trace) + acts
    ensures |acts| >= 2 && acts[..2] == [SetTemperatures(-20, Some(skip)), Sleep(120)]
    ensures ParkMount !in acts
    ensures Count(acts, SetTemperatures(-20, None)) <= 4
    ensures o.Done? ==> site.world.badCameras(lastCheck) == Ok([])
    ensures o.Raised? ==> CoolingRaised(site.world.badCameras(lastCheck), o.error)
    ensures registry.Current() == MarkEach(old(registry.Current()), marked, Down)
    ensures OnlyMarkedDown(old(registry.Current()), registry.Current())
    ensures marked != [] ==> Count(acts, SetTemperatures(-20, None)) == 4 && old(site.Now()) <= quarantineFrom
    ensures forall n :: n in marked ==> exists t :: quarantineFrom <= t && BadCamera(site.world, t, n)
    ensures o.Raised? && site.world.badCameras(lastCheck).Ok? ==>
      var b := site.world.badCameras(lastCheck).value;
      LeadingUnitNames(b) <= |marked| && marked[|marked| - LeadingUnitNames(b)..] == b[..LeadingUnitNames(b)]
    ensures (forall t :: site.world.badCameras(t) != Ok([])) ==> !o.Done?
    ensures fuel > 0 && (forall t :: site.world.badCameras(t).Err?) ==> o.Raised?
    ensures (forall t :: site.world.badCameras(t).Ok? && site.world.badCameras(t).value != [] &&
                         UnitNames(site.world.badCameras(t).value)) ==> o == Stalled
    ensures fuel >= 5 && SteadyBadCameras(site.world) ==>
      registry.Current() == MarkEach(old(registry.Current()), site.world.badCameras(0).value, Down)
  {
    ghost var t0 := registry.Current();
    ghost var steady := SteadyBadCameras(site.world);
    ghost var b0 := site.world.badCameras(0);
    site.Do(SetTemperatures(-20, Some(skip)));
    site.Do(Sleep(120));
    acts := [SetTemperatures(-20, Some(skip)), Sleep(120)];
    assert Count(acts, SetTemperatures(-20, None)) == 0;
    lastCheck, marked, quarantineFrom := 0, [], 0;
    o := Stalled;
    var counter := 0;
    var k := 0;
    while k < fuel && o == Stalled
      invariant 0 <= counter <= 4 && k <= fuel
      invariant CoolLog(old(site.trace), site.trace, acts, skip, counter)
      invariant old(site.Now()) <= site.Now()
      invariant o.Done? ==> site.world.badCameras(lastCheck) == Ok([])
      invariant o.Raised? ==> CoolingRaised(site.world.badCameras(lastCheck), o.error)
      invariant k > 0 && (forall t :: site.world.badCameras(t).Err?) ==> o.Raised?
      invariant registry.Current() == MarkEach(t0, marked, Down)
      invariant counter == 4 ==> old(site.Now()) <= quarantineFrom <= site.Now()
      invariant marked != [] ==> counter == 4
      invariant forall n :: n in marked ==> exists t :: quarantineFrom <= t && BadCamera(site.world, t, n)
      invariant o.Raised? && site.world.badCameras(lastCheck).Ok? ==>
        var b := site.world.badCameras(lastCheck).value;
        LeadingUnitNames(b) <= |marked| && marked[|marked| - LeadingUnitNames(b)..] == b[..LeadingUnitNames(b)]
      invariant steady ==> o == Stalled && counter == (if k < 4 then k else 4)
      invariant steady && k > 4 ==> forall n :: n in b0.value ==> n in marked
    {
      var bad;
      bad, acts, lastCheck := CheckCameras(site, old(site.trace), acts, skip, counter);
      if bad.Err? {
        o := Raised(bad.error);
      } else if |bad.value| == 0 {
        o := Done;
      } else if counter > 3 {
        ghost var before := marked;
        var m;
        m, marked := MarkReading(registry, bad.value, t0, marked);
        forall n | n in marked
          ensures exists t :: quarantineFrom <= t && BadCamera(site.world, t, n)
        {
          if n !in before {
            assert BadCamera(site.world, lastCheck, n);
          }
        }
        if m.Err? {
          o := Raised(AssertionError);
        }
      } else {
        acts := ResendTemperatures(site, old(site.trace), acts, skip, counter);
        counter := counter + 1;
        if counter == 4 {
          quarantineFrom := site.Now();
        }
      }
      k := k + 1;
    }
    MarkEachOnlyMarksDown(t0, marked);
    if fuel >= 5 && steady {
      forall n | n in marked
        ensures n in b0.value
      {
        var t :| quarantineFrom <= t && BadCamera(site.world, t, n);
        assert site.world.badCameras(t) == b0;
      }
      MarkEachSameNames(t0, marked, b0.value, Down);
    }
  }

  /** Why the cooldown raised: the reading failed with that exception, or
      marking its bad cameras DOWN failed on a name the registry does not
      know. */
  predicate CoolingRaised(reading: Result<seq<string>>, e: Error)
  {
    match reading
    case Err(re) => e == re
    case Ok(bad) => e == AssertionError && !UnitNames(bad)
  }

  /** Marking names DOWN only ever turns rows DOWN. */
  lemma MarkEachOnlyMarksDown(t: seq<Entry>, ns: seq<string>)
    ensures OnlyMarkedDown(t, MarkEach(t, ns, Down))
  {
  }

  /** Both tilt groups are within tolerance. */
  predicate TiltsGood(bad: (seq<string>, seq<string>))
  {
    |bad.0| + |bad.1| == 0
  }

  /** The tilt loop's calls so far, appended to `base`: only checks,
      re-sends and sleeps, with `checks` checks and `resends` re-sends. */
  ghost predicate TiltLog(base: seq<Action>, trace: seq<Action>, acts: seq<Action>,
                          check: Action, resend: Action, checks: nat, resends: nat)
  {
    trace == base + acts &&
    (forall a :: a in acts ==> a.CheckTilts? || a.TiltFilters? || a.Sleep?) &&
    Count(acts, check) == checks &&
    Count(acts, resend) == resends
  }

  /** One tilt check: the reading at the current time, then the call. */
  method CheckTiltsNow(site: Site, check: Action, ghost resend: Action, ghost base: seq<Action>, ghost acts: seq<Action>,
                       ghost checks: nat, ghost resends: nat)
    returns (bad: Result<(seq<string>, seq<string>)>, ghost acts': seq<Action>, ghost t: int)
    requires check.CheckTilts? && resend.TiltFilters?
    requires TiltLog(base, site.trace, acts, check, resend, checks, resends)
    modifies site
    ensures TiltLog(base, site.trace, acts', check, resend, checks + 1, resends)
    ensures bad == site.world.badTilts(t)
  {
    var now := site.Now();
    t := now;
    bad := site.world.badTilts(now);
    site.Do(check);
    CountOne(acts, check, check);
    CountOne(acts, check, resend);
    acts' := acts + [check];
  }

  /** One re-send of the tilts and its 10 s wait. */
  method ResendTilts(site: Site, ghost check: Action, resend: Action, ghost base: seq<Action>, ghost acts: seq<Action>,
                     ghost checks: nat, ghost resends: nat)
    returns (ghost acts': seq<Action>)
    requires check.CheckTilts? && resend.TiltFilters?
    requires TiltLog(base, site.trace, acts, check, resend, checks, resends)
    modifies site
    ensures TiltLog(base, site.trace, acts', check, resend, checks, resends + 1)
  {
    site.Do(resend);
    CountOne(acts, resend, check);
    CountOne(acts, resend, resend);
    ghost var mid := acts + [resend];
    site.Do(Sleep(10));
    CountOne(mid, Sleep(10), check);
    CountOne(mid, Sleep(10), resend);
    acts' := mid + [Sleep(10)];
  }

  /** The registry after marking the H-alpha, then the OIII names DOWN one
      by one, up to the first name that is not a unit name. */
  function Quarantined(t: seq<Entry>, bad: (seq<string>, seq<string>)): (r: seq<Entry>)
    ensures UnitNames(bad.0) && UnitNames(bad.1) ==> r == MarkEach(MarkEach(t, bad.0, Down), bad.1, Down)
  {
    if LeadingUnitNames(bad.0) < |bad.0| then MarkEach(t, bad.0[..LeadingUnitNames(bad.0)], Down)
    else
      assert bad.0[..LeadingUnitNames(bad.0)] == bad.0;
      assert UnitNames(bad.1) ==> bad.1[..LeadingUnitNames(bad.1)] == bad.1;
      MarkEach(MarkEach(t, bad.0, Down), bad.1[..LeadingUnitNames(bad.1)], Down)
  }

  /** Marks the H-alpha, then the OIII units out of tolerance DOWN. */
  method Quarantine(registry: HardwareStatus, bad: (seq<string>, seq<string>)) returns (r: Result<()>)
    modifies registry
    ensures r.Ok? <==> UnitNames(bad.0) && UnitNames(bad.1)
    ensures r.Err? ==> r.error == AssertionError
    ensures r.Ok? ==> registry.Current() == MarkEach(MarkEach(old(registry.Current()), bad.0, Down), bad.1, Down)
    ensures registry.Current() == Quarantined(old(registry.Current()), bad)
    ensures old(registry.fileExists) ==> registry.fileExists
  {
    r := MarkDown(registry, bad.0);
    if r.Ok? {
      r := MarkDown(registry, bad.1);
    }
  }

  /** The calls of a tilt loop started at `try_tilt` = `tryTilt0`: only
      checks, re-sends and sleeps; at most 5 - `tryTilt0` checks (one from
      4 on), at least one, and one re-send fewer. */
  ghost predicate TiltLoop(tilts: seq<Action>, check: Action, resend: Action, tryTilt0: int)
  {
    (forall a :: a in tilts ==> a.CheckTilts? || a.TiltFilters? || a.Sleep?) &&
    1 <= Count(tilts, check) <= (if tryTilt0 > 3 then 1 else 5 - tryTilt0) &&
    Count(tilts, resend) == Count(tilts, check) - 1
  }

  /** The registry a tilt loop leaves (file flag and rows before and
      after), given its result and its last reading: a failed read raises
      its own error with the registry as it was; a good round succeeds with
      the registry as it was; a bad round after the re-sends marks the
      H-alpha, then the OIII units out of tolerance DOWN, all of them on
      success and up to the first name that is not a unit name on
      AssertionError. An existing file stays. */
  ghost predicate TiltsSettled(reading: Result<(seq<string>, seq<string>)>, r: Result<()>,
                               exists0: bool, table0: seq<Entry>, exists1: bool, table1: seq<Entry>)
  {
    (exists0 ==> exists1) &&
    (r.Err? ==>
      (r.error == AssertionError ||
       (reading.Err? && r.error == reading.error && exists1 == exists0 && table1 == table0))) &&
    (r.Err? && reading.Ok? ==>
      r.error == AssertionError && Stored(exists1, table1) == Quarantined(Stored(exists0, table0), reading.value)) &&
    (r.Ok? ==> reading.Ok?) &&
    (r.Ok? && TiltsGood(reading.value) ==> exists1 == exists0 && table1 == table0) &&
    (r.Ok? && !TiltsGood(reading.value) ==>
      Stored(exists1, table1) == MarkEach(MarkEach(Stored(exists0, table0), reading.value.0, Down), reading.value.1, Down))
  }

  /** The tilt loop, starting with `try_tilt` = `tryTilt0`: a round with
      every H-alpha and OIII unit within tolerance ends it; while
      `try_tilt` is at most 3 a failing round re-sends the tilts and waits
      10 s; a failing round after that marks the H-alpha, then the OIII
      units out of tolerance DOWN and ends it. Starting at 0 (`observe`)
      that is at most five checks and four re-sends; starting at 3
      (`QuickObserve`) at most two checks and one re-send. `lastCheck` is
      the time of the last reading. */
  method SettleTilts(site: Site, registry: HardwareStatus, ha: Number, oiii: Number,
                     checkSkip: Option<seq<string>>, resendSkip: Option<seq<string>>, tryTilt0: int)
    returns (r: Result<()>, ghost acts: seq<Action>, ghost lastCheck: int)
    modifies site, registry
    ensures site.trace == old(site.trace) + acts
    ensures TiltLoop(acts, CheckTilts(checkSkip), TiltFilters(ha, oiii, resendSkip), tryTilt0)
    ensures TiltsSettled(site.world.badTilts(lastCheck), r, old(registry.fileExists), old(registry.table),
                         registry.fileExists, registry.table)
  {
    var check, resend := CheckTilts(checkSkip), TiltFilters(ha, oiii, resendSkip);
    acts := [];
    lastCheck := 0;
    var tryTilt := tryTilt0;
    var top := if tryTilt0 > 4 then tryTilt0 else 4;
    while true
      invariant tryTilt0 <= tryTilt <= top
      invariant TiltLog(old(site.trace), site.trace, acts, check, resend, tryTilt - tryTilt0, tryTilt - tryTilt0)
      invariant registry.fileExists == old(registry.fileExists) && registry.table == old(registry.table)
      decreases top - tryTilt
    {
      var bad;
      bad, acts, lastCheck := CheckTiltsNow(site, check, resend, old(site.trace), acts, tryTilt - tryTilt0, tryTilt - tryTilt0);
      if bad.Err? {
        return Err(bad.error), acts, lastCheck;
      } else if TiltsGood(bad.value) {
        return Ok(()), acts, lastCheck;
      } else if tryTilt > 3 {
        r := Quarantine(registry, bad.value);
        return r, acts, lastCheck;
      }
      acts := ResendTilts(site, check, resend, old(site.trace), acts, tryTilt - tryTilt0 + 1, tryTilt - tryTilt0);
      tryTilt := tryTilt + 1;
    }
  }

  // ------------------------------------------------------ shutdown shape

  /** The calls end with the shutdown, and nothing before it parks. */
  ghost predicate EndsWithShutdown(acts: seq<Action>)
  {
    |acts| >= |Shutdown| && acts[|acts| - |Shutdown|..] == Shutdown && ParkMount !in acts[..|acts| - |Shutdown|]
  }

  /** Calls that do not park, followed by calls that end with the
      shutdown, end with the shutdown. */
  lemma ShutdownAfter(pre: seq<Action>, more: seq<Action>)
    requires ParkMount !in pre && EndsWithShutdown(more)
    ensures EndsWithShutdown(pre + more)
  {
    var n := |pre + more| - |Shutdown|;
    assert (pre + more)[n..] == more[|more| - |Shutdown|..];
    assert (pre + more)[..n] == pre + more[..|more| - |Shutdown|];
  }

  /** A run that ends with the shutdown parks the mount exactly once, as
      the next to last call. */
  lemma EndsWithShutdownParksOnce(acts: seq<Action>)
    requires EndsWithShutdown(acts)
    ensures Count(acts, ParkMount) == 1
    ensures acts[|acts| - 2] == ParkMount && acts[|acts| - 1] == StopMount
  {
    var n := |acts| - |Shutdown|;
    assert acts == acts[..n] + Shutdown;
    CountConcat(acts[..n], Shutdown, ParkMount);
    ShutdownParksOnce();
  }

  /** The shutdown alone ends with the shutdown. */
  lemma ShutdownEnds()
    ensures EndsWithShutdown(Shutdown)
  {
    assert Shutdown[..0] == [];
  }

  /** Past the morning twilight, with `verbose`, the run shuts down and
      raises EndOfNightError; without it, nothing happens and the run goes
      on. */
  method MorningCutoff(site: Site, verbose: bool) returns (cut: bool)
    modifies site
    ensures cut <==> verbose && old(site.Now()) > site.world.twilight
    ensures cut ==> site.trace == old(site.trace) + Shutdown
    ensures !cut ==> site.trace == old(site.trace)
  {
    cut := false;
    if site.Now() > site.world.twilight {
      if verbose {
        EndOfScriptShutdown(site);
        cut := true;
      }
    }
  }

  // --------------------------------------------------------- plan run

  /** The calls so far, appended to `base`, do not park. */
  ghost predicate Log(base: seq<Action>, trace: seq<Action>, acts: seq<Action>)
  {
    trace == base + acts && ParkMount !in acts
  }

  /** The calls of one plan row, made in order. */
  method RunRow(site: Site, s: RowRun, ghost base: seq<Action>, ghost acts: seq<Action>)
    returns (ghost acts': seq<Action>)
    requires Log(base, site.trace, acts) && ParkMount !in s.actions
    modifies site
    ensures Log(base, site.trace, acts') && acts' == acts + s.actions
  {
    site.DoAll(s.actions);
    acts' := acts + s.actions;
  }

  /** Once a row raises, the later rows do not run. */
  lemma {:induction false} PrefixRunStops(rows: seq<Step>, k: int, m: int, offsets: Option<map<int, (int, int)>>,
                                          name: string, skip: seq<string>)
    requires 0 <= k <= m <= |rows|
    requires PrefixRun(rows, k, offsets, name, skip).raised.Some?
    ensures PrefixRun(rows, m, offsets, name, skip) == PrefixRun(rows, k, offsets, name, skip)
    decreases m
  {
    if m > k {
      PrefixRunStops(rows, k, m - 1, offsets, name, skip);
    }
  }

  /** The loop over the plan rows: before each row the morning cutoff,
      then the altitude verdict (a row below the limit is skipped), then
      the skip list is read and the row runs. When the registry file is
      there, the target stays above the limit and the cutoff does not
      stop the run, the calls are those of the rows in order up to the
      first exception. */
  method RunPlan(site: Site, registry: HardwareStatus, rows: seq<Step>, offsets: Option<map<int, (int, int)>>,
                 name: string, above: (string, int) -> bool, verbose: bool)
    returns (o: Outcome, ghost acts: seq<Action>, ghost cut: bool)
    modifies site
    ensures site.trace == old(site.trace) + acts
    ensures !o.Stalled?
    ensures cut ==> verbose && o == Raised(EndOfNightError) && EndsWithShutdown(acts)
    ensures !cut ==> ParkMount !in acts
    ensures !cut && registry.fileExists && (forall s :: above(name, s)) ==>
      var p := PrefixRun(rows, |rows|, offsets, name, registry.DownList().value);
      acts == p.actions && o == (if p.raised.Some? then Raised(p.raised.value) else Done)
  {
    ghost var ideal := registry.fileExists && (forall s :: above(name, s));
    ghost var skip := if registry.fileExists then registry.DownList().value else [];
    acts, cut := [], false;
    var di := 0;
    var k := 0;
    while k < |rows|
      invariant 0 <= k <= |rows|
      invariant Log(old(site.trace), site.trace, acts)
      invariant ideal ==> PrefixRun(rows, k, offsets, name, skip) == RowRun(acts, None, di)
    {
      var c: bool, raised: Option<Error>;
      c, raised, di, acts := PlanStep(site, registry, rows, k, di, offsets, name, above, verbose,
                                      ideal, skip, old(site.trace), acts);
      if c {
        return Raised(EndOfNightError), acts, true;
      }
      if raised.Some? {
        if ideal {
          PrefixRunStops(rows, k + 1, |rows|, offsets, name, skip);
        }
        return Raised(raised.value), acts, false;
      }
      k := k + 1;
    }
    o := Done;
  }

  /** One pass of the plan loop: the morning cutoff, then the row. In the
      ideal case (registry present, target always up) a row that is not
      cut extends `PrefixRun` by one row. */
  method PlanStep(site: Site, registry: HardwareStatus, rows: seq<Step>, k: int, di: int,
                  offsets: Option<map<int, (int, int)>>, name: string, above: (string, int) -> bool, verbose: bool,
                  ghost ideal: bool, ghost skip: seq<string>, ghost base: seq<Action>, ghost acts: seq<Action>)
    returns (cut: bool, raised: Option<Error>, di': int, ghost acts': seq<Action>)
    requires 0 <= k < |rows| && Log(base, site.trace, acts)
    requires ideal ==> registry.fileExists && skip == registry.DownList().value && forall s :: above(name, s)
    modifies site
    ensures cut ==> verbose && site.trace == base + acts' && EndsWithShutdown(acts')
    ensures !cut ==> Log(base, site.trace, acts')
    ensures !cut && ideal && PrefixRun(rows, k, offsets, name, skip) == RowRun(acts, None, di) ==>
      PrefixRun(rows, k + 1, offsets, name, skip) == RowRun(acts', raised, di')
  {
    cut := MorningCutoff(site, verbose);
    if cut {
      ShutdownAfter(acts, Shutdown) by { ShutdownEnds(); }
      return true, None, di, acts + Shutdown;
    }
    raised, di', acts' := PlanRow(site, registry, rows, k, di, offsets, name, above, base, acts);
    if ideal {
      PrefixRunExtends(rows, k, offsets, name, skip, acts, di, acts', raised, di');
    }
  }

  /** A row run after the prefix run of rows 0 .. k-1 gives the prefix run
      of rows 0 .. k. */
  lemma PrefixRunExtends(rows: seq<Step>, k: int, offsets: Option<map<int, (int, int)>>, name: string,
                         skip: seq<string>, acts: seq<Action>, di: int,
                         acts': seq<Action>, raised: Option<Error>, di': int)
    requires 0 <= k < |rows|
    requires var s := RowStep(rows, k, di, offsets, name, skip);
      acts' == acts + s.actions && raised == s.raised && di' == s.nextDither
    ensures PrefixRun(rows, k, offsets, name, skip) == RowRun(acts, None, di) ==>
      PrefixRun(rows, k + 1, offsets, name, skip) == RowRun(acts', raised, di')
  {
    if PrefixRun(rows, k, offsets, name, skip) == RowRun(acts, None, di) {
      PrefixRunNext(rows, k, offsets, name, skip);
    }
  }

  /** The run of rows 0 .. k is the run of rows 0 .. k-1 followed by row k. */
  lemma PrefixRunNext(rows: seq<Step>, k: int, offsets: Option<map<int, (int, int)>>, name: string, skip: seq<string>)
    requires 0 <= k < |rows| && PrefixRun(rows, k, offsets, name, skip).raised.None?
    ensures var p := PrefixRun(rows, k, offsets, name, skip);
            var s := RowStep(rows, k, p.nextDither, offsets, name, skip);
            PrefixRun(rows, k + 1, offsets, name, skip) == RowRun(p.actions + s.actions, s.raised, s.nextDither)
  {
  }

  /** One plan row once the cutoff has passed: the altitude verdict (a row
      below the limit is skipped), the skip list, then the row's calls. */
  method PlanRow(site: Site, registry: HardwareStatus, rows: seq<Step>, k: int, di: int,
                 offsets: Option<map<int, (int, int)>>, name: string, above: (string, int) -> bool,
                 ghost base: seq<Action>, ghost acts: seq<Action>)
    returns (raised: Option<Error>, di': int, ghost acts': seq<Action>)
    requires 0 <= k < |rows| && Log(base, site.trace, acts)
    modifies site
    ensures Log(base, site.trace, acts')
    ensures registry.fileExists && above(name, old(site.Now())) ==>
      var s := RowStep(rows, k, di, offsets, name, registry.DownList().value);
      acts' == acts + s.actions && raised == s.raised && di' == s.nextDither
  {
    raised, di', acts' := None, di, acts;
    if above(name, site.Now()) {
      var d := registry.DownList();
      if d.Err? {
        raised := Some(d.error);
        return;
      }
      var s := RowStep(rows, k, di, offsets, name, d.value);
      RowNeverParks(rows, k, di, offsets, name, d.value);
      acts' := RunRow(site, s, base, acts);
      raised, di' := s.raised, s.nextDither;
    }
  }

  // ------------------------------------------------------- target run

  /** One call that does not park, added to the log. */
  method Record(site: Site, a: Action, ghost base: seq<Action>, ghost acts: seq<Action>)
    returns (ghost acts': seq<Action>)
    requires Log(base, site.trace, acts) && a != ParkMount
    modifies site
    ensures Log(base, site.trace, acts') && acts' == acts + [a]
  {
    site.Do(a);
    acts' := acts + [a];
  }

  /** Calls that do not park, made since `trace0`, added to the log. */
  lemma LogAppend(base: seq<Action>, trace0: seq<Action>, acts: seq<Action>, more: seq<Action>, trace1: seq<Action>)
    requires Log(base, trace0, acts) && trace1 == trace0 + more && ParkMount !in more
    ensures Log(base, trace1, acts + more)
  {
  }

  /** The tilt step of a target, given the skip list read from the
      registry: when it cannot be read, its error and no call; otherwise
      the tilts with the skip list, a 10 s wait, then the tilt loop and the
      registry that loop leaves. In `observe` the loop starts from
      `try_tilt` = 0 and its checks and re-sends keep the skip list; in
      `QuickObserve` (`quick`) it starts from 3 and they go without it. */
  ghost predicate TiltStep(w: World, ha: Number, oiii: Number, down: Result<seq<string>>, quick: bool,
                           calls: seq<Action>, tilts: seq<Action>, lastCheck: int, r: Result<()>,
                           exists0: bool, table0: seq<Entry>, exists1: bool, table1: seq<Entry>)
  {
    (down.Err? ==> r == Err(down.error) && calls == [] && exists1 == exists0 && table1 == table0) &&
    (down.Ok? ==>
      var loopSkip := if quick then None else Some(down.value);
      calls == [TiltFilters(ha, oiii, Some(down.value)), Sleep(10)] + tilts &&
      TiltLoop(tilts, CheckTilts(loopSkip), TiltFilters(ha, oiii, loopSkip), if quick then 3 else 0) &&
      TiltsSettled(w.badTilts(lastCheck), r, exists0, table0, exists1, table1))
  }

  /** The slew, the tracking and the tilts of a target: the tilts are read
      from the target (either missing is an AttributeError, with the
      registry untouched), then the tilt step. */
  method TargetSetup(site: Site, registry: HardwareStatus, t: Observation)
    returns (r: Result<()>, ghost acts: seq<Action>, ghost calls: seq<Action>, ghost tilts: seq<Action>,
             ghost lastCheck: int)
    modifies site, registry
    ensures Log(old(site.trace), site.trace, acts)
    ensures (t.haTilt.None? || t.oiiiTilt.None?) ==>
      r == Err(AttributeError) && acts == [Slew(t.target), StartTracking] &&
      registry.fileExists == old(registry.fileExists) && registry.table == old(registry.table)
    ensures t.haTilt.Some? && t.oiiiTilt.Some? ==>
      acts == [Slew(t.target), StartTracking] + calls &&
      TiltStep(site.world, t.haTilt.value, t.oiiiTilt.value, old(registry.DownList()), false, calls, tilts, lastCheck, r,
               old(registry.fileExists), old(registry.table), registry.fileExists, registry.table)
  {
    ghost var base := site.trace;
    acts := Record(site, Slew(t.target), base, []);
    acts := Record(site, StartTracking, base, acts);
    calls, tilts, lastCheck := [], [], 0;
    if t.haTilt.None? || t.oiiiTilt.None? {
      return Err(AttributeError), acts, calls, tilts, lastCheck;
    }
    r, calls, tilts, lastCheck := TiltAndSettle(site, registry, t.haTilt.value, t.oiiiTilt.value, base, acts);
    acts := acts + calls;
  }

  /** The tilts of a target after the slew: the skip list, the tilt
      command, a 10 s wait, then the settle loop. Its calls follow `acts`. */
  method TiltAndSettle(site: Site, registry: HardwareStatus, ha: Number, oiii: Number,
                       ghost base: seq<Action>, ghost acts: seq<Action>)
    returns (r: Result<()>, ghost calls: seq<Action>, ghost tilts: seq<Action>, ghost lastCheck: int)
    modifies site, registry
    requires Log(base, site.trace, acts)
    ensures Log(base, site.trace, acts + calls)
    ensures TiltStep(site.world, ha, oiii, old(registry.DownList()), false, calls, tilts, lastCheck, r,
                     old(registry.fileExists), old(registry.table), registry.fileExists, registry.table)
  {
    calls, tilts, lastCheck := [], [], 0;
    var d := registry.DownList();
    if d.Err? {
      assert acts + calls == acts;
      return Err(d.error), calls, tilts, lastCheck;
    }
    var front := [TiltFilters(ha, oiii, Some(d.value)), Sleep(10)];
    site.DoAll(front);
    LogAppend(base, old(site.trace), acts, front, site.trace);
    ghost var trace0 := site.trace;
    r, tilts, lastCheck := SettleTilts(site, registry, ha, oiii, Some(d.value), Some(d.value), 0);
    LogAppend(base, trace0, acts + front, tilts, site.trace);
    calls := front + tilts;
    assert acts + front + tilts == acts + calls;
  }

  /** The dither grid of a target, if it has one. */
  function GridOf(d: Option<Dither>): (g: Option<map<int, (int, int)>>)
    ensures g.Some? <==> d.Some?
    ensures d.Some? ==> g.value == d.value.offsets
  {
    if d.Some? then Some(d.value.offsets) else None
  }

  /** A target's calls in a run that went on past it: nothing when it was
      below the altitude limit at `start`, otherwise its slew and its
      tracking first. */
  ghost predicate TargetVisited(w: World, name: string, run: seq<Action>, start: int)
  {
    w.altitude.Checked? &&
    (run == [] <==> !w.altitude.above(name, start)) &&
    (run != [] ==> |run| >= 2 && run[..2] == [Slew(name), StartTracking])
  }

  /** One target of `observe`: the altitude check (below the limit, the
      target is skipped), the morning cutoff, then `SetupAndPlan`. */
  method RunTarget(site: Site, registry: HardwareStatus, t: Observation, verbose: bool)
    returns (o: Outcome, ghost acts: seq<Action>, ghost cut: bool,
             ghost setup: Result<()>, ghost calls: seq<Action>, ghost tilts: seq<Action>, ghost lastCheck: int)
    modifies site, registry
    ensures site.trace == old(site.trace) + acts
    ensures !o.Stalled?
    ensures cut ==> verbose && o == Raised(EndOfNightError) && EndsWithShutdown(acts)
    ensures !cut ==> ParkMount !in acts
    ensures site.world.altitude.NoSuchMethod? ==> o == Raised(AttributeError) && acts == []
    ensures site.world.altitude.Checked? && !site.world.altitude.above(t.target, old(site.Now())) ==>
      o == Done && acts == []
    ensures o.Done? ==> TargetVisited(site.world, t.target, acts, old(site.Now()))
    ensures site.world.altitude.Checked? && site.world.altitude.above(t.target, old(site.Now())) && !cut ==>
      TargetRun(site.world, t, site.world.altitude.above, old(registry.DownList()), old(registry.fileExists),
                old(registry.table), registry, o, acts, setup, calls, tilts, lastCheck)
  {
    acts, cut, setup, calls, tilts, lastCheck := [], false, Ok(()), [], [], 0;
    if site.world.altitude.NoSuchMethod? {
      return Raised(AttributeError), acts, cut, setup, calls, tilts, lastCheck;
    }
    var above := site.world.altitude.above;
    if !above(t.target, site.Now()) {
      return Done, acts, cut, setup, calls, tilts, lastCheck;
    }
    var c := MorningCutoff(site, verbose);
    if c {
      ShutdownEnds();
      return Raised(EndOfNightError), Shutdown, true, setup, calls, tilts, lastCheck;
    }
    o, acts, cut, setup, calls, tilts, lastCheck := SetupAndPlan(site, registry, t, above, verbose);
  }

  /** The run of a target that is up, as `SetupAndPlan` makes it: the slew
      and the tracking; AttributeError when a tilt is missing; otherwise
      the tilt step (`TiltStep`), whose failure is raised; AttributeError
      when there is no plan; and, when the target stays up and the
      registry file is there, the calls and the outcome of `PrefixRun`
      over the whole plan, with the skip list the tilt step leaves. */
  ghost predicate TargetRun(w: World, t: Observation, above: (string, int) -> bool, down: Result<seq<string>>,
                            exists0: bool, table0: seq<Entry>, registry: HardwareStatus,
                            o: Outcome, acts: seq<Action>, setup: Result<()>, calls: seq<Action>,
                            tilts: seq<Action>, lastCheck: int)
    reads t, registry
  {
    var front := [Slew(t.target), StartTracking];
    ((t.haTilt.None? || t.oiiiTilt.None?) ==>
      o == Raised(AttributeError) && acts == front &&
      registry.fileExists == exists0 && registry.table == table0) &&
    (t.haTilt.Some? && t.oiiiTilt.Some? ==>
      |acts| >= |front + calls| && acts[..|front + calls|] == front + calls &&
      TiltStep(w, t.haTilt.value, t.oiiiTilt.value, down, false, calls, tilts, lastCheck, setup,
               exists0, table0, registry.fileExists, registry.table) &&
      (setup.Err? ==> o == Raised(setup.error) && acts == front + calls) &&
      (setup.Ok? && t.observingPlan.None? ==> o == Raised(AttributeError) && acts == front + calls) &&
      (setup.Ok? && t.observingPlan.Some? && registry.fileExists && (forall s :: above(t.target, s)) ==>
        var p := PrefixRun(t.observingPlan.value, |t.observingPlan.value|, GridOf(t.dither), t.target,
                           registry.DownList().value);
        acts == front + calls + p.actions && o == (if p.raised.Some? then Raised(p.raised.value) else Done)))
  }

  /** A target that is up, once the cutoff has passed: the slew, tracking
      and tilts, then the plan rows with the target's dither grid. */
  method SetupAndPlan(site: Site, registry: HardwareStatus, t: Observation, above: (string, int) -> bool, verbose: bool)
    returns (o: Outcome, ghost acts: seq<Action>, ghost cut: bool,
             ghost setup: Result<()>, ghost calls: seq<Action>, ghost tilts: seq<Action>, ghost lastCheck: int)
    modifies site, registry
    ensures site.trace == old(site.trace) + acts
    ensures !o.Stalled?
    ensures cut ==> verbose && o == Raised(EndOfNightError) && EndsWithShutdown(acts)
    ensures !cut ==> ParkMount !in acts && |acts| >= 2 && acts[..2] == [Slew(t.target), StartTracking]
    ensures !cut ==> TargetRun(site.world, t, above, old(registry.DownList()), old(registry.fileExists),
                               old(registry.table), registry, o, acts, setup, calls, tilts, lastCheck)
  {
    cut := false;
    var r;
    r, acts, calls, tilts, lastCheck := TargetSetup(site, registry, t);
    setup := r;
    if r.Err? {
      return Raised(r.error), acts, cut, setup, calls, tilts, lastCheck;
    }
    if t.observingPlan.None? {
      return Raised(AttributeError), acts, cut, setup, calls, tilts, lastCheck;
    }
    ghost var front := acts;
    ghost var p;
    o, p, cut := RunPlan(site, registry, t.observingPlan.value, GridOf(t.dither), t.target, above, verbose);
    if cut {
      ShutdownAfter(acts, p);
    }
    acts := acts + p;
    assert acts[..|front|] == front;
    assert acts[..2] == front[..2];
  }

  // ------------------------------------------------------- before the run

  /** `check_targets_for_issues`: every target without a plan builds one
      for "today" with the site's ephemeris for it; the first failure is
      raised. Targets that have a plan keep it, and on success every
      target that had none holds the plan `PlanRows` gives for its
      settings. */
  method CheckTargetsForIssues(targets: seq<Observation>, w: World) returns (r: Result<()>)
    modifies set t | t in targets
    ensures r.Ok? ==> forall i :: 0 <= i < |targets| ==> targets[i].observingPlan.Some?
    ensures (forall i :: 0 <= i < |targets| ==> old(targets[i].observingPlan).Some?) ==> r.Ok?
    ensures forall i :: 0 <= i < |targets| && old(targets[i].observingPlan).Some? ==>
      targets[i].observingPlan == old(targets[i].observingPlan)
    ensures r.Ok? ==> forall i :: 0 <= i < |targets| && old(targets[i].observingPlan).None? ==>
      PlannedFor(targets[i])
  {
    var i := 0;
    while i < |targets|
      invariant 0 <= i <= |targets|
      invariant forall j :: 0 <= j < i ==> targets[j].observingPlan.Some?
      invariant forall j :: 0 <= j < |targets| && old(targets[j].observingPlan).Some? ==>
        targets[j].observingPlan == old(targets[j].observingPlan)
      invariant forall j :: 0 <= j < |targets| && old(targets[j].observingPlan).None? && targets[j].observingPlan.Some? ==>
        PlannedFor(targets[j])
    {
      label before:
      var p := EnsurePlan(targets[i], w);
      if p.Err? {
        return p;
      }
      forall j | 0 <= j < |targets| && old(targets[j].observingPlan).None? && targets[j].observingPlan.Some?
        ensures PlannedFor(targets[j])
      {
        if targets[j] != targets[i] {
          assert unchanged@before(targets[j]);
        }
      }
      i := i + 1;
    }
    return Ok(());
  }

  /** The target holds the plan `PlanRows` gives for its settings. */
  ghost predicate PlannedFor(t: Observation)
    reads t
  {
    t.observingPlan == Some(PlanRows(t.Config()))
  }

  /** How `construct_observing_plan` for tonight ended on a target that
      had no plan, given its `wait_until` before: with the timing error;
      with AttributeError when there are no iterations or no off-band
      settings; otherwise with the plan `PlanRows` gives stored, and
      success iff its exposure time fits the up-time (TargetUptimeError
      if not). */
  ghost predicate BuiltTonight(t: Observation, w: World, wait0: Option<Wait>, r: Result<()>)
    reads t
  {
    var tm := Timings(if wait0.Some? then wait0.value else NoWait, "today", w.today, w.ephemeris(t.target));
    (tm.error.Some? ==> r == Err(tm.error.value)) &&
    (tm.error.None? && (t.iterations <= 0 || t.offBandExptime.None? || t.nCals.None?) ==>
       r == Err(AttributeError)) &&
    (tm.error.None? && t.iterations > 0 && t.offBandExptime.Some? && t.nCals.Some? ==>
       PlannedFor(t) &&
       (r.Ok? <==> TotalExptime(PlanRows(t.Config())) <= tm.uptime.value) &&
       (r.Err? ==> r.error == TargetUptimeError))
  }

  /** One target of CheckTargetsForIssues: a target with a plan is left as
      it is; a target without one runs `construct_observing_plan` for
      tonight, and fails as it does: with the timing error, with
      AttributeError when there are no iterations or no off-band
      settings, or with TargetUptimeError when the plan, which it keeps,
      does not fit the up-time. */
  method EnsurePlan(t: Observation, w: World) returns (r: Result<()>)
    modifies t
    ensures r.Ok? ==> t.observingPlan.Some?
    ensures old(t.observingPlan).Some? ==> r.Ok? && unchanged(t)
    ensures old(t.observingPlan).None? && r.Ok? ==> PlannedFor(t)
    ensures old(t.observingPlan).None? ==> BuiltTonight(t, w, old(t.waitUntil), r)
  {
    if t.observingPlan.None? {
      var p := t.ConstructObservingPlan("today", w.today, w.ephemeris(t.target));
      if p.Err? {
        return Err(p.error);
      }
    }
    r := Ok(());
  }

  /** The start wait: the first target's `OBS_START` decides (no target is
      an IndexError, a target whose timings never ran an AttributeError);
      "N/A" or a past start goes on at once, a later one sleeps until it. */
  method WaitForStart(site: Site, targets: seq<Observation>) returns (r: Result<()>, ghost acts: seq<Action>)
    modifies site
    ensures site.trace == old(site.trace) + acts
    ensures targets == [] ==> r == Err(IndexError)
    ensures targets != [] && targets[0].obsStart.None? ==> r == Err(AttributeError)
    ensures r.Err? ==> acts == []
    ensures r.Ok? ==> targets != [] && targets[0].obsStart.Some? &&
                      acts == StartWaitActions(targets[0].obsStart.value, old(site.Now()))
  {
    acts := [];
    if |targets| == 0 {
      return Err(IndexError), acts;
    }
    if targets[0].obsStart.None? {
      return Err(AttributeError), acts;
    }
    var wait := StartWaitActions(targets[0].obsStart.value, site.Now());
    site.DoAll(wait);
    acts := wait;
    r := Ok(());
  }

  /** A sleep is not a park. */
  lemma StartWaitNeverParks(start: StartTime, now: int)
    ensures ParkMount !in StartWaitActions(start, now)
  {
  }

  /** The run may start: the roof gate (only roof checks and 60 s sleeps)
      found the roof open before the twilight, and the cooldown, begun
      with the skip list read from the registry and with at most four
      re-sends, ended on a reading with no camera out of tolerance. */
  ghost predicate Prepared(w: World, gate: seq<Action>, cool: seq<Action>, down: Result<seq<string>>,
                           openedAt: int, lastCheck: int)
  {
    (forall i :: 0 <= i < |gate| ==> gate[i] == CheckRoof || gate[i] == Sleep(60)) &&
    openedAt <= w.twilight && w.roofOpen(openedAt) &&
    down.Ok? && |cool| >= 2 && cool[..2] == [SetTemperatures(-20, Some(down.value)), Sleep(120)] &&
    Count(cool, SetTemperatures(-20, None)) <= 4 &&
    w.badCameras(lastCheck) == Ok([])
  }

  /** `starts[i]` is the clock when run i began: the site's start time
      plus the time the calls before it took. */
  ghost predicate StartTimes(clock0: int, w: World, base: seq<Action>, runs: seq<seq<Action>>, starts: seq<int>)
  {
    |starts| == |runs| &&
    forall i :: 0 <= i < |runs| ==> starts[i] == clock0 + Elapsed(w, base + Concat(runs[..i]))
  }

  /** Each of the first `n` runs visited its target (`TargetVisited`). */
  ghost predicate Visited(w: World, targets: seq<Observation>, runs: seq<seq<Action>>, starts: seq<int>, n: int)
  {
    n <= |runs| <= |targets| && |starts| == |runs| &&
    forall i :: 0 <= i < n ==> TargetVisited(w, targets[i].target, runs[i], starts[i])
  }

  /** Appending is associative (stated once, so that callers need not
      prove it over longer terms). */
  lemma AppendAssoc<T>(a: seq<T>, b: seq<T>, c: seq<T>)
    ensures (a + b) + c == a + (b + c)
  {
  }

  /** The runs one after another. */
  function Concat(runs: seq<seq<Action>>): seq<Action>
  {
    if runs == [] then [] else Concat(runs[..|runs| - 1]) + runs[|runs| - 1]
  }

  /** One more run, begun at the clock after the runs so far, keeps the
      start times. */
  lemma StartTimesSnoc(clock0: int, w: World, base: seq<Action>, runs: seq<seq<Action>>, starts: seq<int>,
                       run: seq<Action>, start: int)
    requires StartTimes(clock0, w, base, runs, starts)
    requires start == clock0 + Elapsed(w, base + Concat(runs))
    ensures Concat(runs + [run]) == Concat(runs) + run
    ensures StartTimes(clock0, w, base, runs + [run], starts + [start])
  {
    var runs' := runs + [run];
    assert runs'[..|runs'| - 1] == runs;
    forall i | 0 <= i < |runs'|
      ensures (starts + [start])[i] == clock0 + Elapsed(w, base + Concat(runs'[..i]))
    {
      if i < |runs| {
        assert runs'[..i] == runs[..i];
      } else {
        assert runs'[..i] == runs;
      }
    }
  }

  /** One more run keeps the runs visited so far, and counts as visited
      when it visited its target. */
  lemma VisitedSnoc(w: World, targets: seq<Observation>, runs: seq<seq<Action>>, starts: seq<int>, n: int,
                    run: seq<Action>, start: int)
    requires Visited(w, targets, runs, starts, n) && |runs| < |targets|
    ensures Visited(w, targets, runs + [run], starts + [start], n)
    ensures n == |runs| && TargetVisited(w, targets[n].target, run, start) ==>
      Visited(w, targets, runs + [run], starts + [start], n + 1)
  {
  }

  // ------------------------------------------------------------ observe

  /** `AutoObserve`: the targets of the night, the guiding flag, the
      site the calls go to, and the hardware status registry read at the
      start of `observe`. */
  class AutoObserve {
    const targets: seq<Observation>
    const guide: bool
    const site: Site
    const registry: HardwareStatus

    constructor (targets0: seq<Observation>, guide0: bool, site0: Site, registry0: HardwareStatus)
      ensures targets == targets0 && guide == guide0 && site == site0 && registry == registry0
    {
      targets, guide, site, registry := targets0, guide0, site0, registry0;
    }

    /** The first part of `observe`: the plan check, the start wait, the
        roof gate, and the camera cooldown with the skip list read from the
        registry. Completing means every target has a plan, the wait until
        the first target's start, then a roof gate and a cooldown that let
        the run go on (`Prepared`). The registry gains the cooldown's DOWN
        marks, `marked`. */
    method Prepare(fuel: nat)
      returns (o: Outcome, ghost acts: seq<Action>, ghost wait: seq<Action>, ghost gate: seq<Action>,
               ghost cool: seq<Action>, ghost openedAt: int, ghost lastCheck: int, ghost marked: seq<string>)
      modifies site, registry, set t | t in targets
      ensures Log(old(site.trace), site.trace, acts)
      ensures targets == [] ==> o == Raised(IndexError) && acts == []
      ensures (forall s :: !site.world.roofOpen(s)) ==> !o.Done?
      ensures (forall s :: site.world.badCameras(s) != Ok([])) ==> !o.Done?
      ensures registry.Current() == MarkEach(old(registry.Current()), marked, Down)
      ensures o.Done? ==>
        targets != [] && targets[0].obsStart.Some? &&
        (forall i :: 0 <= i < |targets| ==> targets[i].observingPlan.Some?) &&
        acts == wait + gate + cool && wait == StartWaitActions(targets[0].obsStart.value, old(site.Now())) &&
        Prepared(site.world, gate, cool, old(registry.DownList()), openedAt, lastCheck)
    {
      acts, wait, gate, cool, openedAt, lastCheck, marked := [], [], [], [], 0, 0, [];
      var r := CheckTargetsForIssues(targets, site.world);
      if r.Err? {
        return Raised(r.error), acts, wait, gate, cool, openedAt, lastCheck, marked;
      }
      ghost var base := site.trace;
      r, wait := WaitForStart(site, targets);
      acts := wait;
      if r.Err? {
        return Raised(r.error), acts, wait, gate, cool, openedAt, lastCheck, marked;
      }
      StartWaitNeverParks(targets[0].obsStart.value, old(site.Now()));
      ghost var trace0 := site.trace;
      r, gate, openedAt := AwaitOpenRoof(site);
      LogAppend(base, trace0, acts, gate, site.trace);
      acts := acts + gate;
      if r.Err? {
        return Raised(r.error), acts, wait, gate, cool, openedAt, lastCheck, marked;
      }
      var d := registry.DownList();
      if d.Err? {
        return Raised(d.error), acts, wait, gate, cool, openedAt, lastCheck, marked;
      }
      trace0 := site.trace;
      ghost var quarantineFrom;
      o, cool, lastCheck, marked, quarantineFrom := CoolCameras(site, registry, d.value, fuel);
      LogAppend(base, trace0, acts, cool, site.trace);
      acts := acts + cool;
    }

    /** `RunTarget` on target `i`, with only what the loop over the
        targets needs of it. */
    method VisitTarget(i: nat, verbose: bool) returns (o: Outcome, ghost run: seq<Action>, ghost cut: bool)
      requires i < |targets|
      modifies site, registry
      ensures site.trace == old(site.trace) + run
      ensures !o.Stalled?
      ensures cut ==> verbose && o == Raised(EndOfNightError) && EndsWithShutdown(run)
      ensures !cut ==> ParkMount !in run
      ensures site.world.altitude.NoSuchMethod? ==> o == Raised(AttributeError)
      ensures o.Done? ==> TargetVisited(site.world, targets[i].target, run, old(site.Now()))
    {
      ghost var setup, calls, tilts, lastCheck;
      o, run, cut, setup, calls, tilts, lastCheck := RunTarget(site, registry, targets[i], verbose);
    }

    /** Every target in turn, up to the first exception: `runs` holds each
        target's calls and `starts` the time each target began. Every
        target the run went past was either below the altitude limit, with
        no call, or slewed to and tracked first (`TargetVisited`). */
    method RunTargets(verbose: bool)
      returns (o: Outcome, ghost acts: seq<Action>, ghost cut: bool, ghost runs: seq<seq<Action>>, ghost starts: seq<int>)
      modifies site, registry
      ensures site.trace == old(site.trace) + acts
      ensures o.Done? || o.Raised?
      ensures cut ==> verbose && o == Raised(EndOfNightError) && EndsWithShutdown(acts)
      ensures !cut ==> ParkMount !in acts
      ensures targets != [] && site.world.altitude.NoSuchMethod? ==> o == Raised(AttributeError)
      ensures acts == Concat(runs)
      ensures o.Done? ==> |runs| == |targets|
      ensures StartTimes(site.start, site.world, old(site.trace), runs, starts)
      ensures Visited(site.world, targets, runs, starts, if o.Done? then |runs| else |runs| - 1)
    {
      ghost var base := site.trace;
      acts, cut, runs, starts := [], false, [], [];
      var i := 0;
      while i < |targets|
        invariant 0 <= i <= |targets|
        invariant Log(base, site.trace, acts) && !cut
        invariant site.world.altitude.NoSuchMethod? ==> i == 0
        invariant acts == Concat(runs) && |runs| == i
        invariant StartTimes(site.start, site.world, base, runs, starts)
        invariant Visited(site.world, targets, runs, starts, i)
      {
        ghost var trace0 := site.trace;
        ghost var start := site.Now();
        var ot;
        ghost var run;
        ot, run, cut := VisitTarget(i, verbose);
        StartTimesSnoc(site.start, site.world, base, runs, starts, run, start);
        VisitedSnoc(site.world, targets, runs, starts, i, run, start);
        AppendAssoc(base, acts, run);
        ghost var runs' := runs + [run];
        if ot.Raised? {
          if cut {
            ShutdownAfter(acts, run);
          }
          return ot, acts + run, cut, runs', starts + [start];
        }
        LogAppend(base, trace0, acts, run, site.trace);
        acts, runs, starts := acts + run, runs', starts + [start];
        i := i + 1;
      }
      o := Done;
    }

    /** `observe`: the first part, every target in turn, then the
        shutdown. A normal end is the start wait, the roof gate and the
        cooldown of `Prepare`, each target's calls in turn, and the
        shutdown, which parks exactly once, at the very end; an exception
        leaves the mount unparked, except the morning cutoff, which shuts
        down first when `verbose`. */
    method Observe(verbose: bool, fuel: nat)
      returns (o: Outcome, ghost acts: seq<Action>, ghost wait: seq<Action>, ghost gate: seq<Action>,
               ghost cool: seq<Action>, ghost openedAt: int, ghost lastCheck: int,
               ghost runs: seq<seq<Action>>, ghost starts: seq<int>)
      modifies site, registry, set t | t in targets
      ensures site.trace == old(site.trace) + acts
      ensures o.Done? ==> EndsWithShutdown(acts)
      ensures o.Raised? ==> ParkMount !in acts || (verbose && o.error == EndOfNightError && EndsWithShutdown(acts))
      ensures o.Stalled? ==> ParkMount !in acts
      ensures targets == [] ==> o == Raised(IndexError) && acts == []
      ensures targets != [] && site.world.altitude.NoSuchMethod? ==> !o.Done?
      ensures (forall s :: !site.world.roofOpen(s)) ==> !o.Done? && ParkMount !in acts
      ensures (forall s :: site.world.badCameras(s) != Ok([])) ==> !o.Done?
      ensures o.Done? ==>
        targets != [] && targets[0].obsStart.Some? &&
        wait == StartWaitActions(targets[0].obsStart.value, old(site.Now())) &&
        Prepared(site.world, gate, cool, old(registry.DownList()), openedAt, lastCheck) &&
        acts == wait + gate + cool + Concat(runs) + Shutdown && |runs| == |targets| &&
        Visited(site.world, targets, runs, starts, |targets|) &&
        StartTimes(site.start, site.world, old(site.trace) + wait + gate + cool, runs, starts)
    {
      ghost var marked;
      o, acts, wait, gate, cool, openedAt, lastCheck, marked := Prepare(fuel);
      runs, starts := [], [];
      if !o.Done? {
        return;
      }
      ghost var run;
      AppendAssoc(old(site.trace), wait, gate);
      AppendAssoc(old(site.trace), wait + gate, cool);
      o, run, runs, starts := RunAndShutdown(verbose);
      if EndsWithShutdown(run) {
        ShutdownAfter(acts, run);
      }
      AppendAssoc(old(site.trace), acts, run);
      AppendAssoc(acts, Concat(runs), Shutdown);
      acts := acts + run;
    }

    /** The second part of `observe`: every target, then, after a normal
        end, the shutdown. */
    method RunAndShutdown(verbose: bool)
      returns (o: Outcome, ghost acts: seq<Action>, ghost runs: seq<seq<Action>>, ghost starts: seq<int>)
      modifies site, registry
      ensures site.trace == old(site.trace) + acts
      ensures o.Done? || o.Raised?
      ensures o.Done? ==> EndsWithShutdown(acts)
      ensures o.Raised? ==> ParkMount !in acts || (verbose && o.error == EndOfNightError && EndsWithShutdown(acts))
      ensures targets != [] && site.world.altitude.NoSuchMethod? ==> o.Raised?
      ensures o.Raised? ==> acts == Concat(runs)
      ensures o.Done? ==> acts == Concat(runs) + Shutdown && |runs| == |targets|
      ensures StartTimes(site.start, site.world, old(site.trace), runs, starts)
      ensures Visited(site.world, targets, runs, starts, if o.Done? then |runs| else |runs| - 1)
    {
      ghost var cut;
      o, acts, cut, runs, starts := RunTargets(verbose);
      if o.Raised? {
        return;
      }
      EndOfScriptShutdown(site);
      ShutdownAfter(acts, Shutdown) by { ShutdownEnds(); }
      AppendAssoc(old(site.trace), acts, Shutdown);
      acts := acts + Shutdown;
    }
  }

  // ------------------------------------------------------- quick observe

  /** The tilt loop's calls after other calls that neither park nor
      expose: still no park and no paired exposure, and the checks are
      the loop's own. */
  lemma SettleAppend(front: seq<Action>, tilts: seq<Action>)
    requires |front| >= 1 && ParkMount !in front && forall a :: a in front ==> !a.ScienceExposure?
    requires Count(front, CheckTilts(None)) == 0
    requires forall a :: a in tilts ==> a.CheckTilts? || a.TiltFilters? || a.Sleep?
    ensures ParkMount !in front + tilts && forall a :: a in front + tilts ==> !a.ScienceExposure?
    ensures (front + tilts)[0] == front[0]
    ensures Count(front + tilts, CheckTilts(None)) == Count(tilts, CheckTilts(None))
  {
    CountConcat(front, tilts, CheckTilts(None));
  }

  /** `QuickObserve`: one target with fixed tilts and exposure times;
      `n_offs` is the exposure time over the off-band time, rounded down. */
  class QuickObserve {
    const target: string
    const haTilt: Number
    const oiiiTilt: Number
    const exptime: int
    const offbandExptime: int
    const niter: int
    const nOffs: int
    const site: Site
    const registry: HardwareStatus

    constructor (target0: string, haTilt0: Number, oiiiTilt0: Number, exptime0: int, offbandExptime0: int,
                 niter0: int, nOffs0: int, site0: Site, registry0: HardwareStatus)
      ensures target == target0 && haTilt == haTilt0 && oiiiTilt == oiiiTilt0
      ensures exptime == exptime0 && offbandExptime == offbandExptime0 && niter == niter0
      ensures nOffs == nOffs0 && site == site0 && registry == registry0
    {
      target, haTilt, oiiiTilt := target0, haTilt0, oiiiTilt0;
      exptime, offbandExptime, niter, nOffs := exptime0, offbandExptime0, niter0, nOffs0;
      site, registry := site0, registry0;
    }

    /** `QuickObserve(...)`: an off-band time of zero is a
        ZeroDivisionError; otherwise `n_offs` is floor(exptime /
        offband_exptime). */
    static method Create(target0: string, haTilt0: Number, oiiiTilt0: Number, exptime0: int, offbandExptime0: int,
                         niter0: int, site0: Site, registry0: HardwareStatus)
      returns (r: Result<QuickObserve>)
      ensures r.Err? <==> offbandExptime0 == 0
      ensures r.Err? ==> r.error == ZeroDivisionError
      ensures r.Ok? ==> fresh(r.value) && r.value.target == target0 && r.value.exptime == exptime0 &&
                        r.value.offbandExptime == offbandExptime0 && r.value.niter == niter0 &&
                        r.value.haTilt == haTilt0 && r.value.oiiiTilt == oiiiTilt0 &&
                        r.value.site == site0 && r.value.registry == registry0 &&
                        r.value.nOffs == NCals(exptime0, offbandExptime0, true).value
    {
      var n := NCals(exptime0, offbandExptime0, true);
      if n.Err? {
        return Err(n.error);
      }
      var q := new QuickObserve(target0, haTilt0, oiiiTilt0, exptime0, offbandExptime0, niter0, n.value, site0, registry0);
      return Ok(q);
    }

    /** The calls so far, appended to `base`: no park and no paired
        science exposure. */
    ghost predicate QuickLog(base: seq<Action>, trace: seq<Action>, acts: seq<Action>)
    {
      Log(base, trace, acts) && forall a :: a in acts ==> !a.ScienceExposure?
    }

    /** One call that neither parks nor exposes, added to the log. */
    method Step(a: Action, ghost base: seq<Action>, ghost acts: seq<Action>) returns (ghost acts': seq<Action>)
      requires QuickLog(base, site.trace, acts) && a != ParkMount && !a.ScienceExposure?
      modifies site
      ensures QuickLog(base, site.trace, acts') && acts' == acts + [a]
    {
      site.Do(a);
      acts' := acts + [a];
    }

    /** Calls that neither park nor expose, added to the log. */
    method Steps(xs: seq<Action>, ghost base: seq<Action>, ghost acts: seq<Action>) returns (ghost acts': seq<Action>)
      requires QuickLog(base, site.trace, acts) && ParkMount !in xs && forall a :: a in xs ==> !a.ScienceExposure?
      modifies site
      ensures QuickLog(base, site.trace, acts') && acts' == acts + xs
    {
      site.DoAll(xs);
      acts' := acts + xs;
    }

    /** The slew, then the tilt step (`TiltStep`, `quick`): the tilts with
        the skip list and a 10 s wait, then the tilt loop from `try_tilt` =
        3, whose checks and re-sends go without the skip list: at most two
        checks and one re-send before the units out of tolerance are
        marked DOWN. */
    method TiltsAndSettle()
      returns (r: Result<()>, ghost acts: seq<Action>, ghost calls: seq<Action>, ghost tilts: seq<Action>,
               ghost lastCheck: int)
      modifies site, registry
      ensures QuickLog(old(site.trace), site.trace, acts)
      ensures acts == [Slew(target)] + calls
      ensures Count(acts, CheckTilts(None)) <= 2
      ensures TiltStep(site.world, haTilt, oiiiTilt, old(registry.DownList()), true, calls, tilts, lastCheck, r,
                       old(registry.fileExists), old(registry.table), registry.fileExists, registry.table)
    {
      var r0;
      r0, acts := TiltPrelude();
      r, calls, tilts, lastCheck := r0, acts[1..], [], 0;
      if r.Err? {
        return;
      }
      r, tilts, lastCheck := SettleTilts(site, registry, haTilt, oiiiTilt, None, None, 3);
      SettleAppend(acts, tilts);
      AppendAssoc(old(site.trace), acts, tilts);
      AppendAssoc([Slew(target)], calls, tilts);
      calls := calls + tilts;
      acts := acts + tilts;
    }

    /** The slew, then, when the skip list can be read from the registry,
        the tilts with it and a 10 s wait; otherwise the read's error. */
    method TiltPrelude() returns (r: Result<()>, ghost acts: seq<Action>)
      modifies site
      ensures QuickLog(old(site.trace), site.trace, acts)
      ensures |acts| >= 1 && acts[0] == Slew(target) && Count(acts, CheckTilts(None)) == 0
      ensures r.Ok? <==> registry.DownList().Ok?
      ensures r.Err? ==> r.error == registry.DownList().error && acts == [Slew(target)]
      ensures r.Ok? ==> acts == [Slew(target), TiltFilters(haTilt, oiiiTilt, Some(registry.DownList().value)), Sleep(10)]
    {
      ghost var base := site.trace;
      acts := Step(Slew(target), base, []);
      var d := registry.DownList();
      if d.Err? {
        return Err(d.error), acts;
      }
      acts := Steps([TiltFilters(haTilt, oiiiTilt, Some(d.value)), Sleep(10)], base, acts);
      assert CheckTilts(None) !in acts;
      r := Ok(());
    }

    /** The dither, one mount command per non-zero axis. */
    method Dither(east: int, north: int, ghost base: seq<Action>, ghost acts: seq<Action>)
      returns (ghost acts': seq<Action>)
      requires QuickLog(base, site.trace, acts)
      modifies site
      ensures QuickLog(base, site.trace, acts') && acts' == acts + DitherMountActions(east, north)
    {
      var ds := DitherMountActions(east, north);
      site.DoAll(ds);
      acts' := acts + ds;
    }

    /** The `niter` science exposures, each with `timeout_global` set to
        the exposure time plus 60 s. The exposure helper passes
        `timeout_global` on a second time and so refuses the first of
        them with TypeError, before anything is sent. */
    method Exposures(skip: seq<string>) returns (r: Result<()>)
      ensures r.Err? <==> niter > 0
      ensures r.Err? ==> r.error == TypeError
    {
      if niter > 0 {
        var call := Camera.ScienceRequest(Camera.ScienceArgs(exptime, offbandExptime, nOffs, None, [], 60, false), [],
                                          Dispatch.NoKwargs.(skip := Some(skip), name := Some(target),
                                                             timeoutGlobal := Some(exptime + 60)));
        return Err(call.error);
      }
      return Ok(());
    }

    /** `observe(dither_east, dither_north)`: after the tilts, the dither
        (one mount command per non-zero axis), the guider and its 15 s
        wait, the skip list, then the exposures; when none is asked for,
        guiding stops and the mount slews back. The dither is the intended
        one and its reply is not logged: as written, a zero axis raises
        UnboundLocalError and otherwise logging `stdout` of the returned
        string raises AttributeError, so the source never gets past the
        dither. */
    method Observe(east: int, north: int)
      returns (o: Outcome, ghost acts: seq<Action>, ghost calls: seq<Action>, ghost tilts: seq<Action>,
               ghost lastCheck: int, ghost settled: Result<()>)
      modifies site, registry
      ensures site.trace == old(site.trace) + acts
      ensures ParkMount !in acts
      ensures forall a :: a in acts ==> !a.ScienceExposure?
      ensures !o.Stalled?
      ensures niter > 0 ==> o.Raised?
      ensures TiltStep(site.world, haTilt, oiiiTilt, old(registry.DownList()), true, calls, tilts, lastCheck, settled,
                       old(registry.fileExists), old(registry.table), registry.fileExists, registry.table)
      ensures settled.Err? ==> o == Raised(settled.error) && acts == [Slew(target)] + calls
      ensures settled.Ok? && niter > 0 ==>
        o == Raised(TypeError) &&
        acts == [Slew(target)] + calls + DitherMountActions(east, north) + [StartGuiding, Sleep(15)]
      ensures settled.Ok? && niter <= 0 ==>
        o == Done &&
        acts == [Slew(target)] + calls + DitherMountActions(east, north) + [StartGuiding, Sleep(15), StopGuiding, Slew(target)]
    {
      ghost var base := site.trace;
      var r;
      r, acts, calls, tilts, lastCheck := TiltsAndSettle();
      settled := r;
      if r.Err? {
        return Raised(r.error), acts, calls, tilts, lastCheck, settled;
      }
      acts := Dither(east, north, base, acts);
      acts := Steps([StartGuiding, Sleep(15)], base, acts);
      var d := registry.DownList();
      // The first read succeeded, so the registry file exists, and the
      // tilt loop never removes it.
      assert d.Ok?;
      var x := Exposures(d.value);
      if x.Err? {
        return Raised(x.error), acts, calls, tilts, lastCheck, settled;
      }
      acts := Steps([StopGuiding, Slew(target)], base, acts);
      assert acts[|acts| - 2..] == [StopGuiding, Slew(target)];
      o := Done;
    }
  }
}
