/**
  The camera helpers: each builds its command strings (a fixed prefix, the
  numeric arguments, then `&key=value` for each extra and each mount
  pointing entry), chooses the units through the router's keywords, and
  sends the request. The mount pointing map is an input.
 */
module Camera {
  import opened Base
  import opened Fleet
  import opened Router
  import opened Dispatch
  import opened Readings

  /** An ordered dictionary of query parameters. */
  type Pairs = seq<(string, string)>

  /** `&key=value` for each entry, in order. */
  function Query(pairs: Pairs): (q: string)
    ensures q == [] <==> pairs == []
    ensures pairs != [] ==> q[0] == '&'
  {
    if pairs == [] then [] else "&" + pairs[0].0 + "=" + pairs[0].1 + Query(pairs[1..])
  }

  lemma {:induction false} QueryAppend(a: Pairs, b: Pairs)
    ensures Query(a + b) == Query(a) + Query(b)
  {
    if a != [] {
      QueryAppend(a[1..], b);
      assert (a + b)[1..] == a[1..] + b;
    } else {
      assert a + b == b;
    }
  }

  /** `for key in d.keys(): command += f"&{key}={d[key]}"`. */
  method AppendQuery(cmd: string, pairs: Pairs) returns (out: string)
    ensures out == cmd + Query(pairs)
  {
    out := cmd;
    var k := 0;
    while k < |pairs|
      invariant 0 <= k <= |pairs|
      invariant out == cmd + Query(pairs[..k])
    {
      QueryAppend(pairs[..k], [pairs[k]]);
      assert pairs[..k + 1] == pairs[..k] + [pairs[k]];
      out := out + ("&" + pairs[k].0 + "=" + pairs[k].1);
      k := k + 1;
    }
    assert pairs[..|pairs|] == pairs;
  }

  /** Python's `str` of a bool. */
  function BoolText(b: bool): string
  {
    if b then "True" else "False"
  }

  const LightTime: string := "expose?type=light&time="
  const FlatTime: string := "expose?type=flat&time="
  const DarkTime: string := "expose?type=dark&time="

  // ---------------------------------------------------- AllScienceExposure

  datatype ScienceArgs = ScienceArgs(
    exptime: int, offExptime: int, nOffs: int, ohExptime: Option<int>,
    extras: Pairs, waitReadout: int, debug: bool)

  /** The science, off-band and OH commands before the extras and the
      pointing. The OH command uses its own time when one is given and is
      the science command otherwise. */
  function ScienceStems(a: ScienceArgs): (st: (string, string, string))
    ensures StartsWith(st.0, LightTime) && StartsWith(st.1, LightTime) && StartsWith(st.2, LightTime)
    ensures a.ohExptime.None? ==> st.2 == st.0
  {
    var science := LightTime + IntToString(a.exptime);
    var offs := LightTime + IntToString(a.offExptime) + "&n=" + IntToString(a.nOffs);
    (science, offs, if a.ohExptime.Some? then LightTime + IntToString(a.ohExptime.value) else science)
  }

  /** All three commands end with the extras and then the pointing. */
  function ScienceCommands(a: ScienceArgs, pointing: Pairs): (cs: (string, string, string))
    ensures a.ohExptime.None? ==> cs.2 == cs.0
  {
    var st := ScienceStems(a);
    (st.0 + Query(a.extras) + Query(pointing), st.1 + Query(a.extras) + Query(pointing),
     st.2 + Query(a.extras) + Query(pointing))
  }

  /** The request made with the three commands `cs`. */
  function ScienceRequestFor(cs: (string, string, string), a: ScienceArgs, kw: Kwargs): (r: Result<Request>)
    ensures r.Err? <==> kw.timeoutGlobal.Some? || (!a.debug && kw.verbose.Some?)
    ensures r.Err? ==> r.error == TypeError
    ensures r.Ok? ==> r.value.timeoutGlobal == a.exptime + a.waitReadout
    ensures r.Ok? ==> r.value.dryrun == a.debug
    ensures r.Ok? && !a.debug ==> r.value.requestType == Some("exposure") && r.value.readoutTime == Some(a.waitReadout)
    ensures r.Ok? ==> (forall f :: Assigned(r.value, f) ==
                         (if IsScience(f) then Some(cs.0)
                          else if IsScienceOff(f) then Some(cs.1)
                          else if IsOHPair(f) then Some(cs.2)
                          else None))
  {
    var base := Defaults.(command := Some(cs.0), which := "science", haOff := Some(cs.1), oiiiOff := Some(cs.1),
                          oh := Some(cs.2), ohOff := Some(cs.2), timeoutGlobal := a.exptime + a.waitReadout);
    var fixed := {KwCommand, KwWhich, KwHaOffCommand, KwOiiiOffCommand, KwOHCommand, KwOHOffCommand, KwTimeoutGlobal};
    if a.debug then
      var fixedDry := fixed + {KwDryrun};
      KeysClash(kw, fixedDry);
      var r := WithKwargs(base.(dryrun := true), fixedDry, kw);
      if r.Ok? then ScienceRouting(r.value, cs); r else r
    else
      var fixedWait := fixed + {KwVerbose, KwRequestType, KwReadoutTime};
      KeysClash(kw, fixedWait);
      var r := WithKwargs(base.(verbose := false, requestType := Some("exposure"), readoutTime := Some(a.waitReadout)),
                          fixedWait, kw);
      if r.Ok? then ScienceRouting(r.value, cs); r else r
  }

  /** The science request's commands by filter. */
  lemma ScienceRouting(req: Request, cs: (string, string, string))
    requires req.command == Some(cs.0) && req.which == "science"
    requires req.haOff == Some(cs.1) && req.oiiiOff == Some(cs.1) && req.oh == Some(cs.2) && req.ohOff == Some(cs.2)
    requires req.ha.None? && req.oiii.None? && req.flatHaving.None?
    ensures forall f :: Assigned(req, f) ==
                         (if IsScience(f) then Some(cs.0)
                          else if IsScienceOff(f) then Some(cs.1)
                          else if IsOHPair(f) then Some(cs.2)
                          else None)
  {
  }

  /** The request `AllScienceExposure` makes: the science command to the
      science units, the off-band command to the four off-band units, the
      OH command to OH and OH_off, with timeout exptime + wait_readout; a
      dry run in debug mode, an exposure wait otherwise. A forwarded keyword
      the helper already sets is a TypeError. */
  function ScienceRequest(a: ScienceArgs, pointing: Pairs, kw: Kwargs): (r: Result<Request>)
    ensures r.Err? <==> kw.timeoutGlobal.Some? || (!a.debug && kw.verbose.Some?)
    ensures r.Ok? ==> r.value.timeoutGlobal == a.exptime + a.waitReadout && r.value.dryrun == a.debug
    ensures r.Ok? ==> forall f :: IsScience(f) ==>
              Assigned(r.value, f) == Some(LightTime + IntToString(a.exptime) + Query(a.extras) + Query(pointing))
    ensures r.Ok? ==> forall f :: IsScienceOff(f) ==>
              Assigned(r.value, f) == Some(LightTime + IntToString(a.offExptime) + "&n=" + IntToString(a.nOffs)
                                           + Query(a.extras) + Query(pointing))
    ensures r.Ok? ==> forall f :: IsOHPair(f) ==>
              Assigned(r.value, f) == Some(LightTime + IntToString(if a.ohExptime.Some? then a.ohExptime.value else a.exptime)
                                           + Query(a.extras) + Query(pointing))
  {
    ScienceRequestFor(ScienceCommands(a, pointing), a, kw)
  }

  /** `AllScienceExposure`: builds the three commands with the extras and
      pointing loops and sends the request. */
  method AllScienceExposure(fleet: seq<Unit>, net: Network, a: ScienceArgs, pointing: Pairs, kw: Kwargs)
    returns (r: Result<Outcome>, elapsedMs: nat)
    ensures Sent(fleet, ScienceRequest(a, pointing, kw), net, r, elapsedMs)
  {
    var st := ScienceStems(a);
    var science, offs, oh := st.0, st.1, st.2;
    science := AppendQuery(science, a.extras);
    offs := AppendQuery(offs, a.extras);
    oh := AppendQuery(oh, a.extras);
    science := AppendQuery(science, pointing);
    offs := AppendQuery(offs, pointing);
    oh := AppendQuery(oh, pointing);
    assert (science, offs, oh) == ScienceCommands(a, pointing);
    r, elapsedMs := Send(fleet, ScienceRequestFor((science, offs, oh), a, kw), net);
  }

  // ------------------------------------------------- the other exposures

  /** The request of `AllExpose`, `AllFlatFieldExposure` and
      `AllDarkExposure` once their command `cmd` is built: `cmd` to
      `which`, with timeout exptime + wait_readout and an exposure wait;
      `AllExpose` also turns the progress output off (`quiet`). A forwarded
      keyword the helper already sets is a TypeError. */
  function ExposureRequestFor(cmd: string, which: string, exptime: int, waitReadout: int, quiet: bool, kw: Kwargs)
    : (r: Result<Request>)
    ensures r.Err? <==> kw.timeoutGlobal.Some? || (quiet && kw.verbose.Some?)
    ensures r.Err? ==> r.error == TypeError
    ensures r.Ok? ==> r.value.command == Some(cmd) && r.value.which == which && !r.value.dryrun
    ensures r.Ok? ==> r.value.timeoutGlobal == exptime + waitReadout
    ensures r.Ok? ==> r.value.requestType == Some("exposure") && r.value.readoutTime == Some(waitReadout)
    ensures r.Ok? && quiet ==> !r.value.verbose
  {
    var base := Defaults.(command := Some(cmd), which := which, timeoutGlobal := exptime + waitReadout,
                          requestType := Some("exposure"), readoutTime := Some(waitReadout));
    var fixed := {KwCommand, KwWhich, KwTimeoutGlobal, KwRequestType, KwReadoutTime};
    if quiet then WithKwargs(base.(verbose := false), fixed + {KwVerbose}, kw)
    else WithKwargs(base, fixed, kw)
  }

  /** `AllExpose`'s command: a light frame, then the extras, then the pointing. */
  function ExposeCommand(exptime: int, extras: Pairs, pointing: Pairs): (cmd: string)
    ensures StartsWith(cmd, LightTime)
  {
    LightTime + IntToString(exptime) + Query(extras) + Query(pointing)
  }

  /** `AllExpose`'s request: a light frame, the extras before the pointing,
      to `which`, quiet; forwarding `timeout_global` or `verbose` is a
      TypeError. */
  function ExposeRequest(exptime: int, which: string, extras: Pairs, waitReadout: int, pointing: Pairs, kw: Kwargs)
    : (r: Result<Request>)
    ensures r.Err? <==> kw.timeoutGlobal.Some? || kw.verbose.Some?
    ensures r.Ok? ==> r.value.command == Some(LightTime + IntToString(exptime) + Query(extras) + Query(pointing))
    ensures r.Ok? ==> r.value.which == which && !r.value.verbose && r.value.timeoutGlobal == exptime + waitReadout
  {
    ExposureRequestFor(ExposeCommand(exptime, extras, pointing), which, exptime, waitReadout, true, kw)
  }

  method AllExpose(fleet: seq<Unit>, net: Network, exptime: int, which: string, extras: Pairs, waitReadout: int,
                   pointing: Pairs, kw: Kwargs)
    returns (r: Result<Outcome>, elapsedMs: nat)
    ensures Sent(fleet, ExposeRequest(exptime, which, extras, waitReadout, pointing, kw), net, r, elapsedMs)
  {
    var cmd := LightTime + IntToString(exptime);
    cmd := AppendQuery(cmd, extras);
    cmd := AppendQuery(cmd, pointing);
    r, elapsedMs := Send(fleet, ExposureRequestFor(cmd, which, exptime, waitReadout, true, kw), net);
  }

  /** `AllFlatFieldExposure`'s command: `n` flat frames, then the pointing,
      then the extras. */
  function FlatCommand(exptime: int, n: int, extras: Pairs, pointing: Pairs): (cmd: string)
    ensures StartsWith(cmd, FlatTime)
  {
    FlatTime + IntToString(exptime) + "&n=" + IntToString(n) + Query(pointing) + Query(extras)
  }

  /** `AllFlatFieldExposure`'s request: `n` flat frames, the pointing
      before the extras, to `which`; only `timeout_global` clashes. */
  function FlatRequest(exptime: int, n: int, which: string, extras: Pairs, waitReadout: int, pointing: Pairs, kw: Kwargs)
    : (r: Result<Request>)
    ensures r.Err? <==> kw.timeoutGlobal.Some?
    ensures r.Ok? ==> r.value.command == Some(FlatTime + IntToString(exptime) + "&n=" + IntToString(n)
                                              + Query(pointing) + Query(extras))
    ensures r.Ok? ==> r.value.which == which && r.value.timeoutGlobal == exptime + waitReadout
  {
    ExposureRequestFor(FlatCommand(exptime, n, extras, pointing), which, exptime, waitReadout, false, kw)
  }

  method AllFlatFieldExposure(fleet: seq<Unit>, net: Network, exptime: int, n: int, which: string, extras: Pairs,
                              waitReadout: int, pointing: Pairs, kw: Kwargs)
    returns (r: Result<Outcome>, elapsedMs: nat)
    ensures Sent(fleet, FlatRequest(exptime, n, which, extras, waitReadout, pointing, kw), net, r, elapsedMs)
  {
    var cmd := FlatTime + IntToString(exptime) + "&n=" + IntToString(n);
    cmd := AppendQuery(cmd, pointing);
    cmd := AppendQuery(cmd, extras);
    r, elapsedMs := Send(fleet, ExposureRequestFor(cmd, which, exptime, waitReadout, false, kw), net);
  }

  /** `AllDarkExposure`'s command: a dark, then the pointing, then the extras. */
  function DarkCommand(exptime: int, extras: Pairs, pointing: Pairs): (cmd: string)
    ensures StartsWith(cmd, DarkTime)
  {
    DarkTime + IntToString(exptime) + Query(pointing) + Query(extras)
  }

  /** `exptime` is a required argument of `AllDarkExposure`: a call
      without it is a TypeError. */
  function DarkRequest(exptime: Option<int>, which: string, extras: Pairs, waitReadout: int, pointing: Pairs, kw: Kwargs)
    : (r: Result<Request>)
    ensures r.Err? <==> exptime.None? || kw.timeoutGlobal.Some?
    ensures r.Err? ==> r.error == TypeError
  {
    if exptime.None? then Err(TypeError)
    else ExposureRequestFor(DarkCommand(exptime.value, extras, pointing), which, exptime.value, waitReadout, false, kw)
  }

  method AllDarkExposure(fleet: seq<Unit>, net: Network, exptime: Option<int>, which: string, extras: Pairs,
                         waitReadout: int, pointing: Pairs, kw: Kwargs)
    returns (r: Result<Outcome>, elapsedMs: nat)
    ensures Sent(fleet, DarkRequest(exptime, which, extras, waitReadout, pointing, kw), net, r, elapsedMs)
  {
    if exptime.None? {
      return Err(TypeError), 0;
    }
    var cmd := DarkTime + IntToString(exptime.value);
    cmd := AppendQuery(cmd, pointing);
    cmd := AppendQuery(cmd, extras);
    r, elapsedMs := Send(fleet, ExposureRequestFor(cmd, which, exptime.value, waitReadout, false, kw), net);
  }

  // ---------------------------------------------------------------- focus

  datatype FocusArgs = FocusArgs(
    exptime: int, focusLower: Number, focusUpper: Number, nsteps: int,
    useSextractor: bool, useBirger: bool, nonAdaptive: bool, fit: bool, extras: Pairs)

  const FocusDefaults: FocusArgs :=
    FocusArgs(3, Number(1000.0, "1000"), Number(1000.0, "1000"), 25, true, true, true, true, [])

  /** The eight autofocus parameters, in the order the command lists them. */
  function FocusPairs(a: FocusArgs): (ps: Pairs)
    ensures |ps| == 8
  {
    [("time", IntToString(a.exptime)), ("focus_lower", a.focusLower.text), ("focus_upper", a.focusUpper.text),
     ("nsteps", IntToString(a.nsteps)), ("use_sextractor", BoolText(a.useSextractor)),
     ("use_birger", BoolText(a.useBirger)), ("non_adaptive", BoolText(a.nonAdaptive)), ("fit", BoolText(a.fit))]
  }

  /** "autofocus?" followed by the eight parameters as a query string,
      then the extras. */
  function FocusCommand(a: FocusArgs): string
  {
    "autofocus?" + Query(FocusPairs(a))[1..] + Query(a.extras)
  }

  /** `AutoFocus`: the single autofocus command to every unit. */
  function FocusRequest(a: FocusArgs, kw: Kwargs): (r: Result<Request>)
    ensures r.Ok?
    ensures r.value.command == Some(FocusCommand(a)) && r.value.which == "all"
    ensures forall f :: Assigned(r.value, f) == Some(FocusCommand(a))
  {
    WithKwargs(Defaults.(command := Some(FocusCommand(a)), which := "all"), {KwCommand, KwWhich}, kw)
  }

  method AutoFocus(fleet: seq<Unit>, net: Network, a: FocusArgs, kw: Kwargs)
    returns (r: Result<Outcome>, elapsedMs: nat)
    ensures Sent(fleet, FocusRequest(a, kw), net, r, elapsedMs)
  {
    var cmd := "autofocus?" + Query(FocusPairs(a))[1..];
    cmd := AppendQuery(cmd, a.extras);
    r, elapsedMs := Send(fleet, WithKwargs(Defaults.(command := Some(cmd), which := "all"), {KwCommand, KwWhich}, kw), net);
  }

  // ---------------------------------------------------------- temperatures

  const CoolerSet: string := "device/cooler?command=set&temp="
  const CoolerDisable: string := "device/cooler?command=disable"
  const CoolerGet: string := "device/cooler?command=get"

  /** `AllSetCameraTemperatures`: below 15 the setpoint command (even with
      a `disable` keyword); otherwise the disable command when `disable` is
      given or the temperature is above 15; at exactly 15 without `disable`
      no command is ever assigned and the call fails (UnboundLocalError). */
  function SetTemperatureRequest(temperature: Number, which: string, kw: Kwargs): (r: Result<Request>)
    ensures r.Err? <==> temperature.value == 15.0 && !kw.disable
    ensures r.Err? ==> r.error == UnboundLocalError
    ensures temperature.value < 15.0 ==> r.Ok? && r.value.command == Some(CoolerSet + temperature.text)
    ensures temperature.value >= 15.0 && r.Ok? ==> r.value.command == Some(CoolerDisable)
    ensures r.Ok? ==> r.value.which == which
  {
    var cmd: Option<string> :=
      if temperature.value < 15.0 then Some(CoolerSet + temperature.text)
      else if kw.disable then Some(CoolerDisable)
      else if temperature.value > 15.0 then Some(CoolerDisable)
      else None;
    if cmd.None? then Err(UnboundLocalError)
    else WithKwargs(Defaults.(command := cmd, which := which), {KwCommand, KwWhich}, kw)
  }

  method AllSetCameraTemperatures(fleet: seq<Unit>, net: Network, temperature: Number, which: string, kw: Kwargs)
    returns (r: Result<Outcome>, elapsedMs: nat)
    ensures Sent(fleet, SetTemperatureRequest(temperature, which, kw), net, r, elapsedMs)
  {
    var cmd: Option<string> := None;
    if temperature.value < 15.0 {
      cmd := Some(CoolerSet + temperature.text);
    } else if kw.disable {
      cmd := Some(CoolerDisable);
    } else if temperature.value > 15.0 {
      cmd := Some(CoolerDisable);
    }
    if cmd.None? {
      return Err(UnboundLocalError), 0;
    }
    r, elapsedMs := Send(fleet, WithKwargs(Defaults.(command := cmd, which := which), {KwCommand, KwWhich}, kw), net);
  }

  /** The request `AllCheckCameraTemperatures` makes. Its own `verbose`
      parameter only controls printing and is never forwarded. */
  function GetTemperatureRequest(which: string, kw: Kwargs): (r: Result<Request>)
    ensures r.Ok? && r.value.command == Some(CoolerGet) && r.value.which == which && !r.value.dryrun
  {
    WithKwargs(Defaults.(command := Some(CoolerGet), which := which), {KwCommand, KwWhich}, kw.(verbose := None))
  }

  function CurrentTemperature(rep: Reply): real
  {
    rep.currentTemperature
  }

  /** `AllCheckCameraTemperatures`: queries the coolers, then for every
      unit of the fleet table, in order, compares its current temperature
      with `temperature`; returns the table and the number of rows that are
      not good. A unit with no row (skipped) or with an error code in place
      of a reply fails the lookup. `res` is the response to the query. The
      tolerance is set on the table before any row exists, so the rows
      carry no "tol" entry. */
  method AllCheckCameraTemperatures(fleet: seq<Unit>, net: Network, temperature: real, which: string, tol: real, kw: Kwargs)
    returns (r: Result<(seq<Check>, nat)>, ghost res: Result<Outcome>, elapsedMs: nat)
    ensures Sent(fleet, GetTemperatureRequest(which, kw), net, res, elapsedMs)
    ensures res.Err? ==> r == Err(res.error)
    ensures res.Ok? ==> res.value.Summary?
    ensures res.Ok? ==> (r.Ok? <==> forall k :: 0 <= k < |fleet| ==> ReplyOf(res.value.rows, fleet[k].name).Ok?)
    ensures r.Ok? ==> res.Ok? && res.value.Summary? && r.value.1 == CountBad(r.value.0)
    ensures r.Ok? ==> Tabulated(Names(fleet), res.value.rows, temperature, tol, None, CurrentTemperature, r.value.0)
  {
    var rq := GetTemperatureRequest(which, kw);
    var sent;
    sent, elapsedMs := Send(fleet, rq, net);
    res := sent;
    if sent.Err? {
      return Err(sent.error), res, elapsedMs;
    }
    DispatchedShape(fleet, rq.value, net, sent, elapsedMs);
    var checks := CheckAll(Names(fleet), sent.value.rows, temperature, tol, None, CurrentTemperature);
    if checks.Err? {
      return Err(checks.error), res, elapsedMs;
    }
    r := Ok((checks.value, CountBad(checks.value)));
  }
}
