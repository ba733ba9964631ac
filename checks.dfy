/**
  The health checks: each reads the registry's DOWN list as its skip list,
  asks the units that are not down to run a test, and marks DOWN in the
  registry every unit whose reply shows a failure. The camera check marks
  units twice over (on the first replies, then on the status replies); the
  filter check tilts both science lines to each check angle in turn and
  marks every unit out of tolerance once.
 */
module Checks {
  import opened Base
  import opened Fleet
  import opened Router
  import opened Dispatch
  import opened Readings
  import opened Hardware
  import opened FilterTilter

  const Acceptable: string := "Acceptable"

  // ------------------------------------------------------ mark-down passes

  /** The three loops that mark units down from a response table: the
      camera check's pass over the first replies, its cascade over the
      status replies, and the focuser check's pass over the status replies. */
  datatype Pass = FirstReplies | CameraStatus(update: bool) | FocuserStatus(update: bool)

  /** Why the camera check's status pass marks a unit down; the cascade
      tests the four conditions in this order and stops at the first. */
  datatype CameraFault = StillCalculating | CalculationFailed | BiasNotAcceptable | ReadNoiseNotAcceptable

  function CameraFaultOf(rep: Reply): (f: Option<CameraFault>)
    ensures f.None? <==>
      !rep.calculationInProgress && !rep.calculationErrorHasOccurred && rep.bias == Acceptable && rep.readNoise == Acceptable
    ensures rep.calculationInProgress ==> f == Some(StillCalculating)
    ensures f == Some(ReadNoiseNotAcceptable) ==> rep.bias == Acceptable
  {
    if rep.calculationInProgress then Some(StillCalculating)
    else if rep.calculationErrorHasOccurred then Some(CalculationFailed)
    else if rep.bias != Acceptable then Some(BiasNotAcceptable)
    else if rep.readNoise != Acceptable then Some(ReadNoiseNotAcceptable)
    else None
  }

  /** The focuser check's verdict on a FocuserCheckResult: None is skipped,
      a result starting with "success" passes, one starting with "fail" or
      "error" marks the unit down when `update`, any other result passes.
      The "success" test never decides anything the other two do not. */
  function FocuserMarks(update: bool, result: Option<string>): (mark: bool)
    ensures mark <==> update && result.Some? && (StartsWith(result.value, "fail") || StartsWith(result.value, "error"))
  {
    if result.None? then false
    else if StartsWith(result.value, "success") then
      assert result.value[0] == 's';
      false
    else if StartsWith(result.value, "fail") then update
    else if StartsWith(result.value, "error") then update
    else false
  }

  /** Whether the pass marks the unit of row `i` down. The status passes
      read the reply by the row's name; a reply that is an error code has
      no fields to read (AttributeError), whatever `update` says. The first
      pass marks error codes 0, 1 and 2 regardless of `update`. */
  function Verdict(pass: Pass, rows: seq<SummaryRow>, i: nat): Result<bool>
    requires i < |rows|
  {
    match pass
    case FirstReplies => Ok(rows[i].full.Code? && 0 <= rows[i].full.code <= 2)
    case CameraStatus(update) =>
      (match ReplyOf(rows, rows[i].name)
       case Err(e) => Err(e)
       case Ok(rep) => Ok(update && CameraFaultOf(rep).Some?))
    case FocuserStatus(update) =>
      (match ReplyOf(rows, rows[i].name)
       case Err(e) => Err(e)
       case Ok(rep) => Ok(FocuserMarks(update, rep.focuserCheckResult)))
  }

  /** The verdicts of a pass, one per row. */
  function Verdicts(pass: Pass, rows: seq<SummaryRow>): (vs: seq<Result<bool>>)
    ensures |vs| == |rows|
    ensures forall i :: 0 <= i < |rows| ==> vs[i] == Verdict(pass, rows, i)
  {
    seq(|rows|, i requires 0 <= i < |rows| => Verdict(pass, rows, i))
  }

  /** The Name column of a response table. */
  function RowNamesOf(rows: seq<SummaryRow>): (ns: seq<string>)
    ensures |ns| == |rows|
    ensures forall i :: 0 <= i < |rows| ==> ns[i] == rows[i].name
  {
    seq(|rows|, i requires 0 <= i < |rows| => rows[i].name)
  }

  /** A marking loop over rows 0 .. k-1, with verdicts `vs` and names
      `names`: an unreadable verdict, or a marked name that does not start
      with "Dragonfly" (MarkUnitDown's AssertionError), ends the loop. */
  function MarkList(vs: seq<Result<bool>>, names: seq<string>, k: nat): (r: Result<seq<string>>)
    requires k <= |vs| == |names|
    ensures r.Ok? ==> |r.value| <= k
  {
    if k == 0 then Ok([])
    else
      match MarkList(vs, names, k - 1)
      case Err(e) => Err(e)
      case Ok(ms) =>
        match vs[k - 1]
        case Err(e) => Err(e)
        case Ok(mark) =>
          if !mark then Ok(ms)
          else if StartsWith(names[k - 1], UnitPrefix) then Ok(ms + [names[k - 1]])
          else Err(AssertionError)
  }

  /** Verdict `i` can be read, and names a unit when it marks. */
  predicate Passes(vs: seq<Result<bool>>, names: seq<string>, i: nat)
    requires i < |vs| == |names|
  {
    vs[i].Ok? && (vs[i].value ==> StartsWith(names[i], UnitPrefix))
  }

  lemma {:induction false} MarkListOk(vs: seq<Result<bool>>, names: seq<string>, k: nat)
    requires k <= |vs| == |names|
    ensures MarkList(vs, names, k).Ok? <==> forall i :: 0 <= i < k ==> Passes(vs, names, i)
  {
    if k > 0 {
      MarkListOk(vs, names, k - 1);
      assert MarkList(vs, names, k).Ok? <==> MarkList(vs, names, k - 1).Ok? && Passes(vs, names, k - 1);
    }
  }

  /** A loop none of whose verdicts marks marks nothing, and fails exactly
      when some verdict cannot be read. */
  lemma {:induction false} MarkListNoMarks(vs: seq<Result<bool>>, names: seq<string>, k: nat)
    requires k <= |vs| == |names|
    requires forall i :: 0 <= i < k ==> vs[i] != Ok(true)
    ensures MarkList(vs, names, k).Ok? <==> forall i :: 0 <= i < k ==> vs[i].Ok?
    ensures MarkList(vs, names, k).Ok? ==> MarkList(vs, names, k).value == []
  {
    if k > 0 {
      MarkListNoMarks(vs, names, k - 1);
    }
  }

  lemma {:induction false} MarkListNames(vs: seq<Result<bool>>, names: seq<string>, k: nat)
    requires k <= |vs| == |names| && MarkList(vs, names, k).Ok?
    ensures forall n :: n in MarkList(vs, names, k).value <==> exists i :: 0 <= i < k && names[i] == n && vs[i] == Ok(true)
  {
    if k > 0 {
      var ms := MarkList(vs, names, k - 1).value;
      MarkListNames(vs, names, k - 1);
      var now := MarkList(vs, names, k).value;
      assert now == if vs[k - 1] == Ok(true) then ms + [names[k - 1]] else ms;
      forall n
        ensures n in now <==> exists i :: 0 <= i < k && names[i] == n && vs[i] == Ok(true)
      {
        if n in ms {
          var i :| 0 <= i < k - 1 && names[i] == n && vs[i] == Ok(true);
          assert n in now;
        }
      }
    }
  }

  lemma {:induction false} MarkListErrSticks(vs: seq<Result<bool>>, names: seq<string>, k: nat, n: nat)
    requires k <= n <= |vs| == |names|
    requires MarkList(vs, names, k).Err?
    ensures MarkList(vs, names, n) == MarkList(vs, names, k)
    decreases n - k
  {
    if k < n {
      MarkListErrSticks(vs, names, k, n - 1);
    }
  }

  /** The names a pass over the first `k` rows marks down, in row order. */
  function MarksUpTo(pass: Pass, rows: seq<SummaryRow>, k: nat): (r: Result<seq<string>>)
    requires k <= |rows|
    ensures r.Ok? ==> |r.value| <= k
  {
    MarkList(Verdicts(pass, rows), RowNamesOf(rows), k)
  }

  /** Row `i` neither fails to read nor marks a name that is not a unit name. */
  predicate RowPasses(pass: Pass, rows: seq<SummaryRow>, i: nat)
    requires i < |rows|
  {
    Verdict(pass, rows, i).Ok? && (Verdict(pass, rows, i).value ==> StartsWith(rows[i].name, UnitPrefix))
  }

  /** A pass over the first `k` rows succeeds iff every row's verdict can
      be read and every marked name is a unit name; it then marks exactly
      the names of the rows whose verdict is to mark. */
  lemma MarksUpToMeaning(pass: Pass, rows: seq<SummaryRow>, k: nat)
    requires k <= |rows|
    ensures MarksUpTo(pass, rows, k).Ok? <==> forall i :: 0 <= i < k ==> RowPasses(pass, rows, i)
    ensures MarksUpTo(pass, rows, k).Ok? ==> forall n :: n in MarksUpTo(pass, rows, k).value <==>
      exists i :: 0 <= i < k && rows[i].name == n && Verdict(pass, rows, i) == Ok(true)
  {
    var vs, names := Verdicts(pass, rows), RowNamesOf(rows);
    MarkListOk(vs, names, k);
    assert forall i :: 0 <= i < k ==> (Passes(vs, names, i) <==> RowPasses(pass, rows, i));
    if MarksUpTo(pass, rows, k).Ok? {
      MarkListNames(vs, names, k);
    }
  }

  /** Once a pass has failed, it fails with the same error however many
      rows follow. */
  lemma MarksErrSticks(pass: Pass, rows: seq<SummaryRow>, k: nat, n: nat)
    requires k <= n <= |rows|
    requires MarksUpTo(pass, rows, k).Err?
    ensures MarksUpTo(pass, rows, n) == MarksUpTo(pass, rows, k)
  {
    MarkListErrSticks(Verdicts(pass, rows), RowNamesOf(rows), k, n);
  }

  /** One more row: the pass so far, then that row's verdict. */
  lemma MarksNext(pass: Pass, rows: seq<SummaryRow>, k: nat)
    requires k < |rows|
    ensures MarksUpTo(pass, rows, k + 1) ==
      match MarksUpTo(pass, rows, k)
      case Err(e) => Err(e)
      case Ok(ms) =>
        match Verdict(pass, rows, k)
        case Err(e) => Err(e)
        case Ok(mark) =>
          if !mark then Ok(ms)
          else if StartsWith(rows[k].name, UnitPrefix) then Ok(ms + [rows[k].name])
          else Err(AssertionError)
  {
    var vs, names := Verdicts(pass, rows), RowNamesOf(rows);
    assert vs[k] == Verdict(pass, rows, k) && names[k] == rows[k].name;
  }

  /** The marks a marking loop over rows 0 .. k-1 leaves in the registry:
      all its marks when it succeeds, otherwise those made before the row
      that failed. */
  function MarksLeft(vs: seq<Result<bool>>, names: seq<string>, k: nat): (ms: seq<string>)
    requires k <= |vs| == |names|
    ensures MarkList(vs, names, k).Ok? ==> ms == MarkList(vs, names, k).value
  {
    if k == 0 || MarkList(vs, names, k).Ok? then MarkList(vs, names, k).value
    else MarksLeft(vs, names, k - 1)
  }

  /** Once the loop fails at row `k`, the marks it leaves are those made
      over rows 0 .. k-1, however many rows follow. */
  lemma {:induction false} MarksLeftAfterFailure(vs: seq<Result<bool>>, names: seq<string>, k: nat, n: nat)
    requires k < n <= |vs| == |names|
    requires MarkList(vs, names, k).Ok? && MarkList(vs, names, k + 1).Err?
    ensures MarksLeft(vs, names, n) == MarkList(vs, names, k).value
    decreases n
  {
    MarkListErrSticks(vs, names, k + 1, n);
    if n > k + 1 {
      MarksLeftAfterFailure(vs, names, k, n - 1);
    }
  }

  /** The marks a pass over the first `k` rows leaves in the registry. */
  function MarksMade(pass: Pass, rows: seq<SummaryRow>, k: nat): (ms: seq<string>)
    requires k <= |rows|
    ensures MarksUpTo(pass, rows, k).Ok? ==> ms == MarksUpTo(pass, rows, k).value
  {
    MarksLeft(Verdicts(pass, rows), RowNamesOf(rows), k)
  }

  /** Once the pass fails at row `k`, the marks it leaves are those made
      over rows 0 .. k-1, however many rows follow. */
  lemma MarksMadeAfterFailure(pass: Pass, rows: seq<SummaryRow>, k: nat, n: nat)
    requires k < n <= |rows|
    requires MarksUpTo(pass, rows, k).Ok? && MarksUpTo(pass, rows, k + 1).Err?
    ensures MarksMade(pass, rows, n) == MarksUpTo(pass, rows, k).value
  {
    MarksLeftAfterFailure(Verdicts(pass, rows), RowNamesOf(rows), k, n);
  }

  /** With `update` off, a status pass marks nothing, and fails exactly when
      some row's reply cannot be read. */
  lemma NoUpdateMarksNothing(rows: seq<SummaryRow>, k: nat, focuser: bool)
    requires k <= |rows|
    ensures var pass := if focuser then FocuserStatus(false) else CameraStatus(false);
      (MarksUpTo(pass, rows, k).Ok? <==> forall i :: 0 <= i < k ==> ReplyOf(rows, rows[i].name).Ok?) &&
      (MarksUpTo(pass, rows, k).Ok? ==> MarksUpTo(pass, rows, k).value == [])
  {
    var pass := if focuser then FocuserStatus(false) else CameraStatus(false);
    var vs := Verdicts(pass, rows);
    forall i | 0 <= i < k
      ensures vs[i] != Ok(true) && (vs[i].Ok? <==> ReplyOf(rows, rows[i].name).Ok?)
    {
      assert vs[i] == Verdict(pass, rows, i);
    }
    MarkListNoMarks(vs, RowNamesOf(rows), k);
  }

  /** `MarkUnitDown(name)` as the next mark of a run that started from
      table `t` and has marked `marks` so far; false for the
      AssertionError, which leaves the registry as it was. */
  method MarkNext(hs: HardwareStatus, name: string, marks: seq<string>, ghost t: seq<Entry>) returns (ok: bool)
    modifies hs
    requires hs.Current() == MarkEach(t, marks, Down)
    ensures ok <==> StartsWith(name, UnitPrefix)
    ensures ok ==> hs.fileExists && hs.Current() == MarkEach(t, marks + [name], Down)
    ensures !ok ==> hs.fileExists == old(hs.fileExists) && hs.table == old(hs.table)
  {
    var m := hs.MarkUnitDown(Str(name));
    ok := m.Ok?;
    if ok {
      MarkEachSnoc(t, marks, name, Down);
    }
  }

  /** Runs a pass, marking each selected unit down as its row is reached.
      The registry ends as the marks say; after a failure the marks made
      before the failing row stay. */
  method MarkRows(hs: HardwareStatus, pass: Pass, rows: seq<SummaryRow>) returns (r: Result<seq<string>>)
    modifies hs
    ensures r == MarksUpTo(pass, rows, |rows|)
    ensures old(hs.fileExists) ==> hs.fileExists
    ensures r.Ok? ==> hs.Current() == MarkEach(old(hs.Current()), r.value, Down)
    ensures r.Err? ==> exists k :: 0 <= k < |rows| && MarksUpTo(pass, rows, k).Ok? &&
                                   hs.Current() == MarkEach(old(hs.Current()), MarksUpTo(pass, rows, k).value, Down)
    ensures hs.Current() == MarkEach(old(hs.Current()), MarksMade(pass, rows, |rows|), Down)
  {
    var vs, names := Verdicts(pass, rows), RowNamesOf(rows);
    ghost var h0 := old(hs.Current());
    var marks: seq<string> := [];
    var k := 0;
    while k < |rows|
      invariant 0 <= k <= |rows|
      invariant MarkList(vs, names, k) == Ok(marks)
      invariant old(hs.fileExists) ==> hs.fileExists
      invariant hs.Current() == MarkEach(h0, marks, Down)
    {
      var err, marks' := MarkStep(hs, vs, names, k, marks, h0);
      if err.Some? {
        MarkListErrSticks(vs, names, k + 1, |rows|);
        assert MarksUpTo(pass, rows, k) == Ok(marks);
        MarksLeftAfterFailure(vs, names, k, |rows|);
        return Err(err.value);
      }
      marks, k := marks', k + 1;
    }
    r := Ok(marks);
  }

  /** One turn of the marking loop: row `k`'s verdict, and the mark it
      asks for. On an error the registry stays as the marks so far left it. */
  method MarkStep(hs: HardwareStatus, vs: seq<Result<bool>>, names: seq<string>, k: nat, marks: seq<string>, ghost h0: seq<Entry>)
    returns (err: Option<Error>, marks': seq<string>)
    modifies hs
    requires k < |vs| == |names|
    requires MarkList(vs, names, k) == Ok(marks)
    requires hs.Current() == MarkEach(h0, marks, Down)
    ensures old(hs.fileExists) ==> hs.fileExists
    ensures err.None? ==> MarkList(vs, names, k + 1) == Ok(marks') && hs.Current() == MarkEach(h0, marks', Down)
    ensures err.Some? ==> MarkList(vs, names, k + 1) == Err(err.value) && hs.Current() == MarkEach(h0, marks, Down)
  {
    marks' := marks;
    if vs[k].Err? {
      return Some(vs[k].error), marks;
    }
    if vs[k].value {
      var ok := MarkNext(hs, names[k], marks, h0);
      if !ok {
        return Some(AssertionError), marks;
      }
      marks' := marks + [names[k]];
    }
    err := None;
  }

  /** The status request both status passes read: "status" to every unit
      not in `skip`, without waiting. */
  function StatusRequest(skip: seq<string>): (r: Request)
    ensures r.command == Some("status") && r.which == "all" && r.skip == skip
    ensures !r.waitForResponse && !r.verbose && !r.dryrun
  {
    Defaults.(command := Some("status"), which := "all", skip := skip, verbose := false, waitForResponse := false)
  }

  /** A unit the registry holds that a pass just marked down is on the
      next DOWN list, so a status request skipping that list never reaches
      it. */
  lemma MarkedDownAreSkipped(t: seq<Entry>, marks: seq<string>, fleet: seq<Unit>, e: Routed)
    requires Routing(fleet, StatusRequest(NamesWithStatus(MarkEach(t, marks, Down), Down))).Ok?
    requires e.name in marks && exists i :: 0 <= i < |t| && t[i].name == e.name
    ensures e !in Routing(fleet, StatusRequest(NamesWithStatus(MarkEach(t, marks, Down), Down))).value
  {
    var after := MarkEach(t, marks, Down);
    var i :| 0 <= i < |t| && t[i].name == e.name;
    assert after[i].name == e.name && after[i].status == Down;
    RoutingIsPermutation(fleet, StatusRequest(NamesWithStatus(after, Down)), e);
  }

  // ------------------------------------------------------------ the cameras

  function CameraCheckCommand(ntests: int): (cmd: string)
    ensures StartsWith(cmd, "calculation?type=check-camera&ntests=")
  {
    "calculation?type=check-camera&ntests=" + IntToString(ntests)
  }

  /** The camera test request: to every unit not in `skip`, quietly,
      without waiting. `skip` and `verbose` are the check's own keywords, so
      forwarding either again is a TypeError. */
  function CameraCheckRequest(ntests: int, skip: seq<string>, kw: Kwargs): (r: Result<Request>)
    ensures r.Err? <==> kw.skip.Some? || kw.verbose.Some?
    ensures r.Ok? ==> r.value.command == Some(CameraCheckCommand(ntests)) && r.value.which == "all" &&
                      r.value.skip == skip && !r.value.waitForResponse && !r.value.verbose && !r.value.dryrun
  {
    WithKwargs(Defaults.(command := Some(CameraCheckCommand(ntests)), which := "all", skip := skip,
                         verbose := false, waitForResponse := false),
               {KwCommand, KwWhich, KwSkip, KwVerbose, KwWaitForResponse}, kw)
  }

  /** `AllCheckCameras`: sends the camera test to the units that are not
      down and marks down every unit whose first reply is an error code;
      waits ntests x 8 seconds; then asks for the status of the units not
      down by now (the request forwards none of `kw`) and marks down,
      when `update`, every unit whose status shows a fault. The request
      oracles are `net(0)` and `net(1)`; `first` and `status` are their
      answers, `waitS` is the time slept. Each step that fails ends the
      check with its error, and the marks made before it stay. */
  method AllCheckCameras(hs: HardwareStatus, fleet: seq<Unit>, net: nat -> Network, ntests: int, update: bool, kw: Kwargs)
    returns (r: Result<Outcome>, waitS: nat, ghost first: Result<Outcome>, ghost status: Result<Outcome>)
    modifies hs
    ensures !old(hs.fileExists) ==> r == Err(FileNotFoundError) && hs.table == old(hs.table) && !hs.fileExists
    ensures old(hs.fileExists) ==> exists e :: Sent(fleet, CameraCheckRequest(ntests, old(hs.DownList()).value, kw), net(0), first, e)
    ensures old(hs.fileExists) && first.Err? ==> r == first && waitS == 0 && hs.fileExists && hs.table == old(hs.table)
    ensures old(hs.fileExists) && first.Ok? ==>
      first.value.Summary? &&
      var rows1 := first.value.rows;
      var marked := MarkEach(old(hs.Current()), MarksMade(FirstReplies, rows1, |rows1|), Down);
      hs.fileExists &&
      (MarksUpTo(FirstReplies, rows1, |rows1|).Err? ==>
         r == Err(MarksUpTo(FirstReplies, rows1, |rows1|).error) && waitS == 0 && hs.Current() == marked) &&
      (MarksUpTo(FirstReplies, rows1, |rows1|).Ok? ==>
         waitS == (if ntests > 0 then ntests * 8 else 0) &&
         (exists e :: Sent(fleet, Ok(StatusRequest(NamesWithStatus(marked, Down))), net(1), status, e)) &&
         (status.Err? ==> r == status && hs.Current() == marked) &&
         (status.Ok? ==>
            status.value.Summary? &&
            var rows2 := status.value.rows;
            var m2 := MarksUpTo(CameraStatus(update), rows2, |rows2|);
            r == (if m2.Ok? then status else Err(m2.error)) &&
            hs.Current() == MarkEach(marked, MarksMade(CameraStatus(update), rows2, |rows2|), Down)))
  {
    waitS := 0;
    first, status := Err(FileNotFoundError), Err(FileNotFoundError);
    var skip := hs.DownList();
    if skip.Err? {
      return Err(skip.error), 0, first, status;
    }
    var rq := CameraCheckRequest(ntests, skip.value, kw);
    var sent, e0 := Send(fleet, rq, net(0));
    first := sent;
    if sent.Err? {
      return sent, 0, first, status;
    }
    DispatchedShape(fleet, rq.value, net(0), sent, e0);
    var m1 := MarkRows(hs, FirstReplies, sent.value.rows);
    if m1.Err? {
      return Err(m1.error), 0, first, status;
    }
    waitS := if ntests > 0 then ntests * 8 else 0;
    var skip2 := hs.DownList();
    var answer, e1 := Send(fleet, Ok(StatusRequest(skip2.value)), net(1));
    status := answer;
    if answer.Err? {
      return answer, waitS, first, status;
    }
    DispatchedShape(fleet, StatusRequest(skip2.value), net(1), answer, e1);
    var m2 := MarkRows(hs, CameraStatus(update), answer.value.rows);
    if m2.Err? {
      return Err(m2.error), waitS, first, status;
    }
    r := answer;
  }

  // ----------------------------------------------------------- the focusers

  function FocuserCheckCommand(movement: int, tolerance: int, useBirger: bool): (cmd: string)
    ensures StartsWith(cmd, "calculation/?type=check-focuser&movement=" + IntToString(movement) +
                            "&tolerance=" + IntToString(tolerance) + "&use_birger=")
  {
    "calculation/?type=check-focuser&movement=" + IntToString(movement) + "&tolerance=" + IntToString(tolerance) +
    "&use_birger=" + (if useBirger then "True" else "False")
  }

  /** Each of the focuser check's two requests: `cmd` to the units not in
      `skip`, quietly, without waiting, with the forwarded keywords. The
      helper's own `verbose` parameter is never forwarded, so only a
      forwarded `skip` is a TypeError. */
  function FocuserCheckRequest(cmd: string, skip: seq<string>, kw: Kwargs): (r: Result<Request>)
    ensures r.Err? <==> kw.skip.Some?
    ensures r.Ok? ==> r.value.command == Some(cmd) && r.value.which == "all" && r.value.skip == skip &&
                      !r.value.waitForResponse && !r.value.verbose && !r.value.dryrun
  {
    WithKwargs(Defaults.(command := Some(cmd), skip := skip, verbose := false, waitForResponse := false),
               {KwCommand, KwSkip, KwVerbose, KwWaitForResponse}, kw.(verbose := None))
  }

  /** `AllCheckFocusers`: reads the DOWN list once, sends the focuser test
      and, after a 30 s wait, "status", both with that skip list and the
      forwarded keywords; then marks down, when `update`, every unit whose
      focuser result starts with "fail" or "error". Returns the status
      replies and the seconds waited. The request oracles are `net(0)` (the
      test) and `net(1)` (the status); `test` and `status` are their
      answers. Each step that fails ends the check with its error, and the
      marks made before it stay. */
  method AllCheckFocusers(hs: HardwareStatus, fleet: seq<Unit>, net: nat -> Network,
                          movement: int, tolerance: int, useBirger: bool, update: bool, kw: Kwargs)
    returns (r: Result<Outcome>, waitS: nat, ghost test: Result<Outcome>, ghost status: Result<Outcome>)
    modifies hs
    ensures !old(hs.fileExists) ==> r == Err(FileNotFoundError) && hs.table == old(hs.table) && !hs.fileExists
    ensures old(hs.fileExists) ==>
      exists e :: Sent(fleet, FocuserCheckRequest(FocuserCheckCommand(movement, tolerance, useBirger), old(hs.DownList()).value, kw),
                       net(0), test, e)
    ensures old(hs.fileExists) && test.Err? ==>
      r == test && waitS == 0 && hs.fileExists && hs.table == old(hs.table)
    ensures old(hs.fileExists) && test.Ok? ==>
      waitS == 30 &&
      (exists e :: Sent(fleet, FocuserCheckRequest("status", old(hs.DownList()).value, kw), net(1), status, e)) &&
      (status.Err? ==> r == status && hs.fileExists && hs.table == old(hs.table)) &&
      (status.Ok? ==>
         status.value.Summary? &&
         var rows := status.value.rows;
         var m := MarksUpTo(FocuserStatus(update), rows, |rows|);
         r == (if m.Ok? then status else Err(m.error)) &&
         hs.Current() == MarkEach(old(hs.Current()), MarksMade(FocuserStatus(update), rows, |rows|), Down))
  {
    waitS := 0;
    test, status := Err(FileNotFoundError), Err(FileNotFoundError);
    var skip := hs.DownList();
    if skip.Err? {
      return Err(skip.error), 0, test, status;
    }
    var rq := FocuserCheckRequest(FocuserCheckCommand(movement, tolerance, useBirger), skip.value, kw);
    var sent, e0 := Send(fleet, rq, net(0));
    test := sent;
    if sent.Err? {
      return sent, 0, test, status;
    }
    waitS := 30;
    var rs := FocuserCheckRequest("status", skip.value, kw);
    var answer, e1 := Send(fleet, rs, net(1));
    status := answer;
    if answer.Err? {
      return answer, waitS, test, status;
    }
    DispatchedShape(fleet, rs.value, net(1), answer, e1);
    var m := MarkRows(hs, FocuserStatus(update), answer.value.rows);
    if m.Err? {
      return Err(m.error), waitS, test, status;
    }
    r := answer;
  }

  // ------------------------------------------------------ the filter tilters

  predicate Distinct(ns: seq<string>)
  {
    forall i, j :: 0 <= i < j < |ns| ==> ns[i] != ns[j]
  }

  /** `for i in badlist: if i not in all_bad: all_bad.append(i)`. */
  function AddNew(acc: seq<string>, ns: seq<string>): (r: seq<string>)
    ensures |acc| <= |r| && r[..|acc|] == acc
    ensures forall n :: n in r <==> n in acc || n in ns
    ensures Distinct(acc) ==> Distinct(r)
    decreases |ns|
  {
    if ns == [] then acc
    else
      assert forall n :: n in ns <==> n == ns[0] || n in ns[1..] by {
        assert ns == [ns[0]] + ns[1..];
      }
      var acc' := if ns[0] in acc then acc else acc + [ns[0]];
      assert acc'[..|acc|] == acc;
      var r := AddNew(acc', ns[1..]);
      assert r[..|acc|] == r[..|acc'|][..|acc|];
      r
  }

  /** The names one check angle finds out of tolerance: H-alpha then OIII. */
  function BadOfAngle(t: (seq<Check>, seq<Check>)): seq<string>
  {
    BadNames(t.0) + BadNames(t.1)
  }

  /** `all_bad` after the given angles: every unit out of tolerance at some
      angle, each once, in first-seen order. */
  function AllBad(tables: seq<(seq<Check>, seq<Check>)>): (r: seq<string>)
    ensures Distinct(r)
    ensures forall n :: n in r <==> exists a :: 0 <= a < |tables| && n in BadOfAngle(tables[a])
  {
    if tables == [] then []
    else
      var before := AllBad(tables[..|tables| - 1]);
      assert forall a :: 0 <= a < |tables| - 1 ==> tables[..|tables| - 1][a] == tables[a];
      AddNew(before, BadOfAngle(tables[|tables| - 1]))
  }

  lemma AllBadSnoc(tables: seq<(seq<Check>, seq<Check>)>, t: (seq<Check>, seq<Check>))
    ensures AllBad(tables + [t]) == AddNew(AllBad(tables), BadOfAngle(t))
  {
    assert (tables + [t])[..|tables|] == tables;
  }

  /** The diff column of a tolerance table. */
  function Diffs(cs: seq<Check>): (ds: seq<real>)
    ensures |ds| == |cs| && forall i :: 0 <= i < |cs| ==> ds[i] == cs[i].diff
  {
    seq(|cs|, i requires 0 <= i < |cs| => cs[i].diff)
  }

  /** What the filter check accumulates: the units marked bad, and the
      H-alpha and OIII differences of each angle. */
  datatype TiltReport = TiltReport(allBad: seq<string>, haDiffs: seq<seq<real>>, oiiiDiffs: seq<seq<real>>)

  /** The inner loop of one angle from the names `seen` so far: each name
      of `bad` not seen before is appended and, when `update`, marked; the
      first marked name that is not a unit name stops it. `(ok, seen')`:
      whether the loop finishes, and the names appended by then. */
  function Appended(seen: seq<string>, bad: seq<string>, update: bool): (s: (bool, seq<string>))
    ensures s.0 ==> s.1 == AddNew(seen, bad)
    ensures !update ==> s.0
    ensures |seen| <= |s.1| && s.1[..|seen|] == seen
    decreases |bad|
  {
    if bad == [] then (true, seen)
    else if bad[0] in seen then Appended(seen, bad[1..], update)
    else if update && !StartsWith(bad[0], UnitPrefix) then (false, seen)
    else
      var s := Appended(seen + [bad[0]], bad[1..], update);
      assert s.1[..|seen|] == s.1[..|seen| + 1][..|seen|];
      s
  }

  /** When every name marked so far is a unit name, the marking loop
      finishes exactly when every name of `bad` is a unit name. */
  lemma {:induction false} AppendedOk(seen: seq<string>, bad: seq<string>)
    requires UnitNames(seen)
    ensures Appended(seen, bad, true).0 <==> UnitNames(bad)
    decreases |bad|
  {
    if bad != [] {
      assert UnitNames(bad) <==> StartsWith(bad[0], UnitPrefix) && UnitNames(bad[1..]) by {
        assert forall m :: 0 < m < |bad| ==> bad[m] == bad[1..][m - 1];
      }
      if bad[0] in seen {
        AppendedOk(seen, bad[1..]);
      } else if StartsWith(bad[0], UnitPrefix) {
        AppendedOk(seen + [bad[0]], bad[1..]);
      }
    }
  }

  /** The inner loop of one angle: each name of `bad` not seen before is
      appended and, when `update`, marked down; a name that is not a unit
      name stops it with an AssertionError, and the marks before it stay. */
  method AddBad(hs: HardwareStatus, acc: seq<string>, bad: seq<string>, update: bool, ghost start: seq<Entry>)
    returns (r: Result<seq<string>>)
    modifies hs
    requires hs.Current() == MarkEach(start, if update then acc else [], Down)
    requires hs.fileExists
    ensures hs.fileExists
    ensures r.Ok? <==> Appended(acc, bad, update).0
    ensures r.Err? ==> r.error == AssertionError
    ensures r.Ok? ==> r.value == AddNew(acc, bad)
    ensures hs.Current() == MarkEach(start, if update then Appended(acc, bad, update).1 else [], Down)
  {
    var seen := acc;
    var k := 0;
    while k < |bad|
      invariant 0 <= k <= |bad|
      invariant Appended(seen, bad[k..], update) == Appended(acc, bad, update)
      invariant hs.fileExists
      invariant hs.Current() == MarkEach(start, if update then seen else [], Down)
    {
      assert bad[k..][1..] == bad[k + 1..];
      if bad[k] !in seen {
        if update {
          var m := hs.MarkUnitDown(Str(bad[k]));
          if m.Err? {
            return Err(AssertionError);
          }
          MarkEachSnoc(start, seen, bad[k], Down);
        }
        seen := seen + [bad[k]];
      }
      k := k + 1;
    }
    r := Ok(seen);
  }

  /** The keywords the filter check passes to both filter helpers. */
  function TiltCheckKwargs(skip: seq<string>): Kwargs
  {
    NoKwargs.(skip := Some(skip))
  }

  /** `rows` are the replies the tilt read-back request gets from `net`. */
  ghost predicate TiltsRead(fleet: seq<Unit>, skip: seq<string>, net: Network, rows: seq<SummaryRow>)
  {
    exists e :: Sent(fleet, CheckTiltsRequest(TiltCheckKwargs(skip)), net, Ok(Summary(rows)), e)
  }

  /** The check of the `a`-th angle: `rows` are the read-back replies from `net(2a+1)`,
      and `t` compares the unskipped H-alpha and OIII units' angles in them
      with `angle` within `tol`. */
  ghost predicate AngleChecked(fleet: seq<Unit>, skip: seq<string>, net: nat -> Network, a: nat, angle: real, tol: real,
                               rows: seq<SummaryRow>, t: (seq<Check>, seq<Check>))
  {
    TiltsRead(fleet, skip, net(2 * a + 1), rows) &&
    Tabulated(Unskipped(NamesWhere(fleet, IsHalpha), Some(skip)), rows, angle, tol, Some(tol), FilterAngle, t.0) &&
    Tabulated(Unskipped(NamesWhere(fleet, IsOiii), Some(skip)), rows, angle, tol, Some(tol), FilterAngle, t.1)
  }

  /** The tables of angle `a`: the tilt to `angle` (oracle `net(2a)`) and
      the read-back (oracle `net(2a+1)`) both answer, and the tables end at
      the first unreadable unit. */
  function AngleOutcome(fleet: seq<Unit>, skip: seq<string>, net: nat -> Network, a: nat, angle: Number, tol: real)
    : Result<(seq<Check>, seq<Check>)>
  {
    match Answer(fleet, TiltRequest(angle, angle, false, TiltCheckKwargs(skip).(verbose := Some(false))), net(2 * a)).0
    case Err(e) => Err(e)
    case Ok(_) =>
      match Answer(fleet, CheckTiltsRequest(TiltCheckKwargs(skip)), net(2 * a + 1)).0
      case Err(e) => Err(e)
      case Ok(res) => TiltTables(fleet, res.rows, angle.value, angle.value, tol, Some(skip))
  }

  /** A pass of the angle loop whose tilt and read-back gave `out`, from
      the names `allBad` recorded so far: its result, and every name marked
      since the check began. */
  function AngleStep(out: Result<(seq<Check>, seq<Check>)>, update: bool, allBad: seq<string>)
    : (s: (Result<(seq<string>, (seq<Check>, seq<Check>))>, seq<string>))
    ensures s.0.Ok? ==> out.Ok? && s.0.value == (AddNew(allBad, BadOfAngle(out.value)), out.value) &&
                        s.1 == (if update then s.0.value.0 else [])
    ensures s.0.Err? && s.1 != (if update then allBad else []) ==> s.0.error == AssertionError
  {
    match out
    case Err(e) => (Err(e), if update then allBad else [])
    case Ok(t) =>
      var ap := Appended(allBad, BadOfAngle(t), update);
      (if ap.0 then Ok((ap.1, t)) else Err(AssertionError), if update then ap.1 else [])
  }

  /** Pass `a` of the angle loop: tilt both science lines to `angle`
      (oracle `net(2a)`), read them back (oracle `net(2a+1)`), then record
      and mark the units out of tolerance. */
  method CheckAngle(hs: HardwareStatus, fleet: seq<Unit>, net: nat -> Network, a: nat, angle: Number,
                    tol: real, skip: seq<string>, update: bool, allBad: seq<string>, ghost start: seq<Entry>)
    returns (r: Result<(seq<string>, (seq<Check>, seq<Check>))>, ghost rows: seq<SummaryRow>)
    modifies hs
    requires hs.fileExists
    requires hs.Current() == MarkEach(start, if update then allBad else [], Down)
    ensures hs.fileExists
    ensures r == AngleStep(AngleOutcome(fleet, skip, net, a, angle, tol), update, allBad).0
    ensures hs.Current() == MarkEach(start, AngleStep(AngleOutcome(fleet, skip, net, a, angle, tol), update, allBad).1, Down)
    ensures r.Ok? ==>
      AngleChecked(fleet, skip, net, a, angle.value, tol, rows, r.value.1) &&
      r.value.0 == AddNew(allBad, BadOfAngle(r.value.1)) &&
      hs.Current() == MarkEach(start, if update then r.value.0 else [], Down)
  {
    rows := [];
    var tq := TiltRequest(angle, angle, false, TiltCheckKwargs(skip).(verbose := Some(false)));
    var tilted, e0 := AllTiltScienceFilters(fleet, net(2 * a), angle, angle, false,
                                            TiltCheckKwargs(skip).(verbose := Some(false)));
    SentIsAnswer(fleet, tq, net(2 * a), tilted, e0);
    if tilted.Err? {
      return Err(tilted.error), rows;
    }
    var checked, res, e1 := AllCheckFilterTilts(fleet, net(2 * a + 1), angle.value, angle.value, tol, TiltCheckKwargs(skip));
    SentIsAnswer(fleet, CheckTiltsRequest(TiltCheckKwargs(skip)), net(2 * a + 1), res, e1);
    if checked.Err? {
      return Err(checked.error), rows;
    }
    rows := res.value.rows;
    var t := checked.value;
    var added := AddBad(hs, allBad, BadOfAngle(t), update, start);
    if added.Err? {
      return Err(added.error), rows;
    }
    r := Ok((added.value, t));
  }

  /** The outcome of each angle's tilt and read-back. */
  function AngleOutcomes(fleet: seq<Unit>, skip: seq<string>, net: nat -> Network, tol: real, angles: seq<Number>)
    : (outs: seq<Result<(seq<Check>, seq<Check>)>>)
    ensures |outs| == |angles|
    decreases |angles|
  {
    if angles == [] then []
    else
      AngleOutcomes(fleet, skip, net, tol, angles[..|angles| - 1]) +
      [AngleOutcome(fleet, skip, net, |angles| - 1, angles[|angles| - 1], tol)]
  }

  /** Outcome `a` is that of angle `a`. */
  lemma {:induction false} AngleOutcomesAt(fleet: seq<Unit>, skip: seq<string>, net: nat -> Network, tol: real,
                                           angles: seq<Number>, a: nat)
    requires a < |angles|
    ensures AngleOutcomes(fleet, skip, net, tol, angles)[a] == AngleOutcome(fleet, skip, net, a, angles[a], tol)
    decreases |angles|
  {
    var front := angles[..|angles| - 1];
    if a < |angles| - 1 {
      AngleOutcomesAt(fleet, skip, net, tol, front, a);
      assert front[a] == angles[a];
    }
  }

  /** The angle loop over the first `n` angles, whose tilts and read-backs
      gave `outs`: the tables of each angle while every pass succeeds, the
      first failure otherwise, and every name marked by then. */
  function TiltsUpTo(outs: seq<Result<(seq<Check>, seq<Check>)>>, update: bool, n: nat)
    : (s: (Result<seq<(seq<Check>, seq<Check>)>>, seq<string>))
    requires n <= |outs|
    ensures s.0.Ok? ==> |s.0.value| == n && s.1 == (if update then AllBad(s.0.value) else [])
  {
    if n == 0 then (Ok([]), [])
    else
      var prev := TiltsUpTo(outs, update, n - 1);
      match prev.0
      case Err(_) => prev
      case Ok(ts) =>
        var step := AngleStep(outs[n - 1], update, AllBad(ts));
        match step.0
        case Err(e) => (Err(e), step.1)
        case Ok(p) =>
          AllBadSnoc(ts, p.1);
          (Ok(ts + [p.1]), step.1)
  }

  /** Once a pass has failed, the loop ends there: later angles change
      neither the result nor the marks. */
  lemma {:induction false} TiltsErrSticks(outs: seq<Result<(seq<Check>, seq<Check>)>>, update: bool, n: nat, m: nat)
    requires n <= m <= |outs|
    requires TiltsUpTo(outs, update, n).0.Err?
    ensures TiltsUpTo(outs, update, m) == TiltsUpTo(outs, update, n)
    decreases m
  {
    if n < m {
      TiltsErrSticks(outs, update, n, m - 1);
    }
  }

  /** Angle `a` reads back both tables and, when `update`, finds only unit
      names out of tolerance. */
  predicate AngleGood(outs: seq<Result<(seq<Check>, seq<Check>)>>, update: bool, a: nat)
    requires a < |outs|
  {
    outs[a].Ok? && (update ==> UnitNames(BadOfAngle(outs[a].value)))
  }

  /** While the loop over the first `n` angles succeeds, it holds the
      tables of each angle. */
  lemma {:induction false} TiltsUpToAt(outs: seq<Result<(seq<Check>, seq<Check>)>>, update: bool, n: nat, a: nat)
    requires a < n <= |outs|
    requires TiltsUpTo(outs, update, n).0.Ok?
    ensures outs[a] == Ok(TiltsUpTo(outs, update, n).0.value[a])
    decreases n
  {
    var ts := TiltsUpTo(outs, update, n - 1).0.value;
    if a < n - 1 {
      TiltsUpToAt(outs, update, n - 1, a);
      assert TiltsUpTo(outs, update, n).0.value[a] == ts[a];
    }
  }

  /** Appending unit names to unit names gives unit names. */
  lemma {:induction false} AddNewUnitNames(acc: seq<string>, ns: seq<string>)
    requires UnitNames(acc) && UnitNames(ns)
    ensures UnitNames(AddNew(acc, ns))
    decreases |ns|
  {
    if ns != [] {
      assert StartsWith(ns[0], UnitPrefix);
      assert UnitNames(ns[1..]) by {
        forall m | 0 <= m < |ns| - 1
          ensures StartsWith(ns[1..][m], UnitPrefix)
        {
          assert ns[1..][m] == ns[m + 1];
        }
      }
      var acc' := if ns[0] in acc then acc else acc + [ns[0]];
      AddNewUnitNames(acc', ns[1..]);
    }
  }

  /** When every angle's out-of-tolerance names are unit names, so are
      all the names recorded. */
  lemma {:induction false} AllBadUnitNames(tables: seq<(seq<Check>, seq<Check>)>)
    requires forall a :: 0 <= a < |tables| ==> UnitNames(BadOfAngle(tables[a]))
    ensures UnitNames(AllBad(tables))
  {
    if tables != [] {
      var front := tables[..|tables| - 1];
      assert forall a :: 0 <= a < |front| ==> front[a] == tables[a];
      AllBadUnitNames(front);
      AddNewUnitNames(AllBad(front), BadOfAngle(tables[|tables| - 1]));
    }
  }

  /** One more angle: the loop goes on exactly when it had succeeded so
      far, the angle read back both tables, and its marks all went through. */
  lemma TiltsUpToNext(outs: seq<Result<(seq<Check>, seq<Check>)>>, update: bool, n: nat)
    requires n < |outs|
    ensures TiltsUpTo(outs, update, n + 1).0.Ok? <==>
            TiltsUpTo(outs, update, n).0.Ok? && outs[n].Ok? &&
            Appended(AllBad(TiltsUpTo(outs, update, n).0.value), BadOfAngle(outs[n].value), update).0
  {
  }

  /** One more angle from a loop that has succeeded so far with tables
      `ts`: the pass over that angle decides the result and the marks. */
  lemma TiltsUpToStep(outs: seq<Result<(seq<Check>, seq<Check>)>>, update: bool, n: nat, ts: seq<(seq<Check>, seq<Check>)>)
    requires n < |outs| && TiltsUpTo(outs, update, n).0 == Ok(ts)
    ensures var step := AngleStep(outs[n], update, AllBad(ts));
            TiltsUpTo(outs, update, n + 1) ==
              (if step.0.Ok? then Ok(ts + [step.0.value.1]) else Err(step.0.error), step.1)
  {
  }

  /** While every angle so far was good, every name recorded is a unit name. */
  lemma RecordedUnitNames(outs: seq<Result<(seq<Check>, seq<Check>)>>, update: bool, n: nat)
    requires n <= |outs| && update
    requires TiltsUpTo(outs, update, n).0.Ok?
    requires forall a :: 0 <= a < n ==> AngleGood(outs, update, a)
    ensures UnitNames(AllBad(TiltsUpTo(outs, update, n).0.value))
  {
    var ts := TiltsUpTo(outs, update, n).0.value;
    forall a | 0 <= a < |ts|
      ensures UnitNames(BadOfAngle(ts[a]))
    {
      TiltsUpToAt(outs, update, n, a);
      assert AngleGood(outs, update, a);
    }
    AllBadUnitNames(ts);
  }

  /** Every one of the first `n` angles is good. */
  predicate GoodUpTo(outs: seq<Result<(seq<Check>, seq<Check>)>>, update: bool, n: nat)
    requires n <= |outs|
  {
    n == 0 || (GoodUpTo(outs, update, n - 1) && AngleGood(outs, update, n - 1))
  }

  lemma {:induction false} GoodUpToMeaning(outs: seq<Result<(seq<Check>, seq<Check>)>>, update: bool, n: nat)
    requires n <= |outs|
    ensures GoodUpTo(outs, update, n) <==> forall a :: 0 <= a < n ==> AngleGood(outs, update, a)
  {
    if n > 0 {
      GoodUpToMeaning(outs, update, n - 1);
    }
  }

  /** After good angles, the marks of one more readable angle all go
      through exactly when its names out of tolerance are unit names. */
  lemma GoodAngleMarks(outs: seq<Result<(seq<Check>, seq<Check>)>>, n: nat)
    requires n < |outs| && outs[n].Ok?
    requires TiltsUpTo(outs, true, n).0.Ok? && GoodUpTo(outs, true, n)
    ensures Appended(AllBad(TiltsUpTo(outs, true, n).0.value), BadOfAngle(outs[n].value), true).0 <==>
            UnitNames(BadOfAngle(outs[n].value))
  {
    GoodUpToMeaning(outs, true, n);
    RecordedUnitNames(outs, true, n);
    AppendedOk(AllBad(TiltsUpTo(outs, true, n).0.value), BadOfAngle(outs[n].value));
  }

  /** One more angle keeps the loop's success in step with the angles'. */
  lemma TiltsUpToGoodStep(outs: seq<Result<(seq<Check>, seq<Check>)>>, update: bool, n: nat)
    requires n < |outs|
    requires TiltsUpTo(outs, update, n).0.Ok? <==> GoodUpTo(outs, update, n)
    ensures TiltsUpTo(outs, update, n + 1).0.Ok? <==> GoodUpTo(outs, update, n + 1)
  {
    TiltsUpToNext(outs, update, n);
    if TiltsUpTo(outs, update, n).0.Ok? && outs[n].Ok? && update {
      GoodAngleMarks(outs, n);
    }
  }

  /** The loop over the first `n` angles succeeds exactly when each of
      them is good, angle by angle. */
  lemma {:induction false} TiltsUpToGood(outs: seq<Result<(seq<Check>, seq<Check>)>>, update: bool, n: nat)
    requires n <= |outs|
    ensures TiltsUpTo(outs, update, n).0.Ok? <==> GoodUpTo(outs, update, n)
  {
    if n > 0 {
      TiltsUpToGood(outs, update, n - 1);
      TiltsUpToGoodStep(outs, update, n - 1);
    }
  }

  /** The loop over the first `n` angles succeeds exactly when every angle
      is good. */
  lemma TiltsUpToOk(outs: seq<Result<(seq<Check>, seq<Check>)>>, update: bool, n: nat)
    requires n <= |outs|
    ensures TiltsUpTo(outs, update, n).0.Ok? <==> forall a :: 0 <= a < n ==> AngleGood(outs, update, a)
  {
    TiltsUpToGood(outs, update, n);
    GoodUpToMeaning(outs, update, n);
  }

  /** One turn of the angle loop, on a loop that has succeeded so far
      with tables `tables`: the loop over one more angle, as `TiltsUpTo`
      gives it. */
  method AngleTurn(hs: HardwareStatus, fleet: seq<Unit>, net: nat -> Network, tol: real, update: bool,
                   angles: seq<Number>, skip: seq<string>, a: nat, allBad: seq<string>,
                   ghost tables: seq<(seq<Check>, seq<Check>)>, ghost start: seq<Entry>,
                   ghost outs: seq<Result<(seq<Check>, seq<Check>)>>)
    returns (step: Result<(seq<string>, (seq<Check>, seq<Check>))>, ghost rows: seq<SummaryRow>)
    modifies hs
    requires a < |angles| && outs == AngleOutcomes(fleet, skip, net, tol, angles)
    requires TiltsUpTo(outs, update, a).0 == Ok(tables) && allBad == AllBad(tables)
    requires hs.fileExists && hs.Current() == MarkEach(start, if update then allBad else [], Down)
    ensures hs.fileExists
    ensures hs.Current() == MarkEach(start, TiltsUpTo(outs, update, a + 1).1, Down)
    ensures step.Err? <==> TiltsUpTo(outs, update, a + 1).0.Err?
    ensures step.Err? ==> step.error == TiltsUpTo(outs, update, a + 1).0.error
    ensures step.Ok? ==>
      TiltsUpTo(outs, update, a + 1).0 == Ok(tables + [step.value.1]) && step.value.0 == AllBad(tables + [step.value.1]) &&
      AngleChecked(fleet, skip, net, a, angles[a].value, tol, rows, step.value.1)
  {
    step, rows := CheckAngle(hs, fleet, net, a, angles[a], tol, skip, update, allBad, start);
    AngleOutcomesAt(fleet, skip, net, tol, angles, a);
    TiltsUpToStep(outs, update, a, tables);
    if step.Ok? {
      AllBadSnoc(tables, step.value.1);
    }
  }

  /** The angles checked so far, and one more. */
  lemma AnglesCheckedSnoc(fleet: seq<Unit>, skip: seq<string>, net: nat -> Network, tol: real, angles: seq<Number>,
                          replies: seq<seq<SummaryRow>>, tables: seq<(seq<Check>, seq<Check>)>,
                          rows: seq<SummaryRow>, t: (seq<Check>, seq<Check>))
    requires |replies| == |tables| < |angles|
    requires forall b :: 0 <= b < |tables| ==> AngleChecked(fleet, skip, net, b, angles[b].value, tol, replies[b], tables[b])
    requires AngleChecked(fleet, skip, net, |tables|, angles[|tables|].value, tol, rows, t)
    ensures forall b :: 0 <= b < |tables| + 1 ==>
      AngleChecked(fleet, skip, net, b, angles[b].value, tol, (replies + [rows])[b], (tables + [t])[b])
  {
    forall b | 0 <= b < |tables| + 1
      ensures AngleChecked(fleet, skip, net, b, angles[b].value, tol, (replies + [rows])[b], (tables + [t])[b])
    {
      if b < |tables| {
        assert (replies + [rows])[b] == replies[b] && (tables + [t])[b] == tables[b];
      }
    }
  }

  /** The difference columns of the angles so far, and of one more. */
  lemma DiffsSnoc(tables: seq<(seq<Check>, seq<Check>)>, haDiffs: seq<seq<real>>, oiiiDiffs: seq<seq<real>>,
                  t: (seq<Check>, seq<Check>))
    requires |haDiffs| == |oiiiDiffs| == |tables|
    requires forall b :: 0 <= b < |tables| ==> haDiffs[b] == Diffs(tables[b].0) && oiiiDiffs[b] == Diffs(tables[b].1)
    ensures forall b :: 0 <= b < |tables| + 1 ==>
      (haDiffs + [Diffs(t.0)])[b] == Diffs((tables + [t])[b].0) && (oiiiDiffs + [Diffs(t.1)])[b] == Diffs((tables + [t])[b].1)
  {
  }

  /** `AllCheckFilterTilters` (its two branches differ only in printing and
      sleeping): reads the DOWN list once; for each angle in order tilts
      both science lines to it (oracle `net(2a)`), reads the tilts back
      (oracle `net(2a+1)`) and compares them with the angle within `tol`;
      every unit out of tolerance is recorded once and, when `update`,
      marked down once. The first pass that fails ends the check with its
      error, and the marks made before it stay. `tables` and `replies` are
      the comparison tables and the tilt replies of each angle. */
  method AllCheckFilterTilters(hs: HardwareStatus, fleet: seq<Unit>, net: nat -> Network,
                               tol: real, update: bool, angles: seq<Number>)
    returns (r: Result<TiltReport>, ghost tables: seq<(seq<Check>, seq<Check>)>, ghost replies: seq<seq<SummaryRow>>)
    modifies hs
    ensures !old(hs.fileExists) ==> r == Err(FileNotFoundError) && hs.table == old(hs.table) && !hs.fileExists
    ensures old(hs.fileExists) ==>
      var run := TiltsUpTo(AngleOutcomes(fleet, old(hs.DownList()).value, net, tol, angles), update, |angles|);
      hs.fileExists && (r.Ok? <==> run.0.Ok?) && (r.Err? ==> r.error == run.0.error) &&
      (r.Ok? ==> tables == run.0.value) &&
      hs.Current() == MarkEach(old(hs.Current()), run.1, Down)
    ensures r.Ok? ==>
      |tables| == |replies| == |angles| &&
      forall a :: 0 <= a < |angles| ==>
        AngleChecked(fleet, old(hs.DownList()).value, net, a, angles[a].value, tol, replies[a], tables[a])
    ensures r.Ok? ==>
      r.value.allBad == AllBad(tables) &&
      hs.Current() == MarkEach(old(hs.Current()), if update then r.value.allBad else [], Down)
    ensures r.Ok? ==>
      |r.value.haDiffs| == |r.value.oiiiDiffs| == |angles| &&
      forall a :: 0 <= a < |angles| ==> r.value.haDiffs[a] == Diffs(tables[a].0) && r.value.oiiiDiffs[a] == Diffs(tables[a].1)
  {
    tables, replies := [], [];
    var down := hs.DownList();
    if down.Err? {
      return Err(down.error), tables, replies;
    }
    var skip := down.value;
    ghost var start := hs.Current();
    ghost var outs := AngleOutcomes(fleet, skip, net, tol, angles);
    var allBad: seq<string> := [];
    var haDiffs: seq<seq<real>> := [];
    var oiiiDiffs: seq<seq<real>> := [];
    var a := 0;
    while a < |angles|
      invariant 0 <= a <= |angles|
      invariant |tables| == |replies| == |haDiffs| == |oiiiDiffs| == a
      invariant forall b :: 0 <= b < a ==> AngleChecked(fleet, skip, net, b, angles[b].value, tol, replies[b], tables[b])
      invariant forall b :: 0 <= b < a ==> haDiffs[b] == Diffs(tables[b].0) && oiiiDiffs[b] == Diffs(tables[b].1)
      invariant allBad == AllBad(tables)
      invariant TiltsUpTo(outs, update, a) == (Ok(tables), if update then allBad else [])
      invariant hs.fileExists
      invariant hs.Current() == MarkEach(start, if update then allBad else [], Down)
    {
      var step, rows := AngleTurn(hs, fleet, net, tol, update, angles, skip, a, allBad, tables, start, outs);
      if step.Err? {
        TiltsErrSticks(outs, update, a + 1, |angles|);
        return Err(step.error), tables, replies;
      }
      var t := step.value.1;
      AnglesCheckedSnoc(fleet, skip, net, tol, angles, replies, tables, rows, t);
      DiffsSnoc(tables, haDiffs, oiiiDiffs, t);
      ghost var tables', replies' := tables + [t], replies + [rows];
      var haDiffs', oiiiDiffs' := haDiffs + [Diffs(t.0)], oiiiDiffs + [Diffs(t.1)];
      allBad := step.value.0;
      tables, replies := tables', replies';
      haDiffs, oiiiDiffs := haDiffs', oiiiDiffs';
      a := a + 1;
    }
    r := Ok(TiltReport(allBad, haDiffs, oiiiDiffs));
  }
}
