/**
  The filter-tilter helpers: one command to the H-alpha units and one to the
  OIII units (tilt to an angle, move by an angle, or read the angle), and
  the two readers that turn the replies into per-unit tables.
 */
module FilterTilter {
  import opened Base
  import opened Fleet
  import opened Router
  import opened Dispatch
  import opened Readings

  const TiltPrefix: string := "device/filtertilter?command="
  const TiltGet: string := "device/filtertilter?command=get"

  /** A set or move command carrying the angle as the source prints it. */
  function TiltCommand(verb: string, angle: Number): (cmd: string)
    ensures StartsWith(cmd, TiltPrefix + verb + "&argument=")
  {
    TiltPrefix + verb + "&argument=" + angle.text
  }

  /** `SendWebRequestNB(ha_command=…, oiii_command=…, [dryrun=True,] **kwargs)`:
      the H-alpha command to the ha6647 units and the OIII command to the
      oiii5071 units, nothing to any other unit; a dry run in debug mode. */
  function PairRequest(haCommand: string, oiiiCommand: string, debug: bool, kw: Kwargs): (r: Result<Request>)
    ensures r.Ok? && r.value.dryrun == debug
    ensures forall f :: Assigned(r.value, f) ==
                          (if IsHalpha(f) then Some(haCommand) else if IsOiii(f) then Some(oiiiCommand) else None)
  {
    var base := Defaults.(ha := Some(haCommand), oiii := Some(oiiiCommand));
    if debug then WithKwargs(base.(dryrun := true), {KwHaCommand, KwOiiiCommand, KwDryrun}, kw)
    else WithKwargs(base, {KwHaCommand, KwOiiiCommand}, kw)
  }

  /** `AllTiltScienceFilters`: never a TypeError of its own (no keyword it
      forwards is one it sets); the tilt reaches exactly the science units,
      each at its own line's angle; a dry run iff debug. */
  function TiltRequest(haTilt: Number, oiiiTilt: Number, debug: bool, kw: Kwargs): (r: Result<Request>)
    ensures r.Ok? && r.value.dryrun == debug
    ensures forall f :: Assigned(r.value, f).Some? <==> IsScience(f)
    ensures forall f :: IsHalpha(f) ==> Assigned(r.value, f) == Some(TiltCommand("set", haTilt))
    ensures forall f :: IsOiii(f) ==> Assigned(r.value, f) == Some(TiltCommand("set", oiiiTilt))
  {
    PairRequest(TiltCommand("set", haTilt), TiltCommand("set", oiiiTilt), debug, kw)
  }

  /** `AllMoveFilters`: like the tilt, with "move" and the two offsets. */
  function MoveRequest(haMove: Number, oiiiMove: Number, debug: bool, kw: Kwargs): (r: Result<Request>)
    ensures r.Ok? && r.value.dryrun == debug
    ensures forall f :: Assigned(r.value, f).Some? <==> IsScience(f)
    ensures forall f :: IsHalpha(f) ==> Assigned(r.value, f) == Some(TiltCommand("move", haMove))
    ensures forall f :: IsOiii(f) ==> Assigned(r.value, f) == Some(TiltCommand("move", oiiiMove))
  {
    PairRequest(TiltCommand("move", haMove), TiltCommand("move", oiiiMove), debug, kw)
  }

  method AllTiltScienceFilters(fleet: seq<Unit>, net: Network, haTilt: Number, oiiiTilt: Number, debug: bool, kw: Kwargs)
    returns (r: Result<Outcome>, elapsedMs: nat)
    ensures Sent(fleet, TiltRequest(haTilt, oiiiTilt, debug, kw), net, r, elapsedMs)
  {
    r, elapsedMs := Send(fleet, TiltRequest(haTilt, oiiiTilt, debug, kw), net);
  }

  method AllMoveFilters(fleet: seq<Unit>, net: Network, haMove: Number, oiiiMove: Number, debug: bool, kw: Kwargs)
    returns (r: Result<Outcome>, elapsedMs: nat)
    ensures Sent(fleet, MoveRequest(haMove, oiiiMove, debug, kw), net, r, elapsedMs)
  {
    r, elapsedMs := Send(fleet, MoveRequest(haMove, oiiiMove, debug, kw), net);
  }

  // ------------------------------------------------------ AllGetFilterTilts

  /** One row of the tilt table. */
  datatype TiltRow = TiltRow(name: string, filter: string, angle: real, rawAngle: real, zeropointAngle: real)

  /** What `AllGetFilterTilts` returns: the dry-run summary in debug mode,
      the tilt table otherwise. */
  datatype TiltReport = DryRunReport(outcome: Outcome) | Tilts(rows: seq<TiltRow>)

  /** Each name paired with a tag. */
  function Labelled(ns: seq<string>, tag: string): (us: seq<(string, string)>)
    ensures |us| == |ns| && forall i :: 0 <= i < |ns| ==> us[i] == (ns[i], tag)
  {
    seq(|ns|, i requires 0 <= i < |ns| => (ns[i], tag))
  }

  /** The H-alpha units then the OIII units of the fleet table, each with
      the filter name the table shows. */
  function TiltUnits(fleet: seq<Unit>): (us: seq<(string, string)>)
    ensures |us| == |NamesWhere(fleet, IsHalpha)| + |NamesWhere(fleet, IsOiii)|
  {
    Labelled(NamesWhere(fleet, IsHalpha), "halpha6647") + Labelled(NamesWhere(fleet, IsOiii), "oiii5071")
  }

  /** The tilt table read from the response rows: one row per unit in
      order, or the error of the first unit whose reply cannot be read. */
  function TiltsOf(rows: seq<SummaryRow>, units: seq<(string, string)>): (r: Result<seq<TiltRow>>)
    ensures r.Ok? <==> forall k :: 0 <= k < |units| ==> ReplyOf(rows, units[k].0).Ok?
    ensures r.Ok? ==> |r.value| == |units| && forall k :: 0 <= k < |units| ==>
      var rep := ReplyOf(rows, units[k].0).value;
      r.value[k] == TiltRow(units[k].0, units[k].1, rep.filterAngle, rep.rawAngle, rep.zeropointAngle)
    ensures r.Err? ==> exists k :: 0 <= k < |units| && ReplyOf(rows, units[k].0).Err? &&
                                  (forall j :: 0 <= j < k ==> ReplyOf(rows, units[j].0).Ok?) &&
                                  r.error == ReplyOf(rows, units[k].0).error
  {
    if units == [] then Ok([])
    else
      match ReplyOf(rows, units[0].0)
      case Err(e) => Err(e)
      case Ok(rep) =>
        var rest := TiltsOf(rows, units[1..]);
        assert forall k :: 1 <= k < |units| ==> units[1..][k - 1] == units[k];
        if rest.Err? then Err(rest.error)
        else Ok([TiltRow(units[0].0, units[0].1, rep.filterAngle, rep.rawAngle, rep.zeropointAngle)] + rest.value)
  }

  /** The table-building loop of `AllGetFilterTilts`. */
  method ReadTilts(rows: seq<SummaryRow>, units: seq<(string, string)>) returns (r: Result<seq<TiltRow>>)
    ensures r == TiltsOf(rows, units)
  {
    var out: seq<TiltRow> := [];
    var k := 0;
    while k < |units|
      invariant 0 <= k <= |units|
      invariant |out| == k
      invariant forall j :: 0 <= j < k ==> ReplyOf(rows, units[j].0).Ok?
      invariant forall j :: 0 <= j < k ==>
        var rep := ReplyOf(rows, units[j].0).value;
        out[j] == TiltRow(units[j].0, units[j].1, rep.filterAngle, rep.rawAngle, rep.zeropointAngle)
    {
      var rep := ReplyOf(rows, units[k].0);
      if rep.Err? {
        var t := TiltsOf(rows, units);
        assert t.Err?;
        return Err(rep.error);
      }
      out := out + [TiltRow(units[k].0, units[k].1, rep.value.filterAngle, rep.value.rawAngle, rep.value.zeropointAngle)];
      k := k + 1;
    }
    var t := TiltsOf(rows, units);
    assert t.Ok?;
    assert t.value == out;
    r := Ok(out);
  }

  /** `AllGetFilterTilts`'s request: "get" to every science unit and to
      no other; a dry run iff debug. */
  function GetTiltsRequest(debug: bool, kw: Kwargs): (r: Result<Request>)
    ensures r.Ok? && r.value.dryrun == debug
    ensures forall f :: Assigned(r.value, f) == (if IsScience(f) then Some(TiltGet) else None)
  {
    PairRequest(TiltGet, TiltGet, debug, kw)
  }

  /** `AllGetFilterTilts`: in debug mode the dry-run summary; otherwise the
      tilt table of the H-alpha units then the OIII units, read from the
      response (`res`). */
  method AllGetFilterTilts(fleet: seq<Unit>, net: Network, debug: bool, kw: Kwargs)
    returns (r: Result<TiltReport>, ghost res: Result<Outcome>, elapsedMs: nat)
    ensures Sent(fleet, GetTiltsRequest(debug, kw), net, res, elapsedMs)
    ensures res.Err? ==> r == Err(res.error)
    ensures res.Ok? && debug ==> r == Ok(DryRunReport(res.value))
    ensures res.Ok? && !debug ==> res.value.Summary? &&
                                  match TiltsOf(res.value.rows, TiltUnits(fleet))
                                  case Err(e) => r == Err(e)
                                  case Ok(t) => r == Ok(Tilts(t))
  {
    var rq := GetTiltsRequest(debug, kw);
    var sent;
    sent, elapsedMs := Send(fleet, rq, net);
    res := sent;
    if sent.Err? {
      return Err(sent.error), res, elapsedMs;
    }
    DispatchedShape(fleet, rq.value, net, sent, elapsedMs);
    if debug {
      return Ok(DryRunReport(sent.value)), res, elapsedMs;
    }
    var t := ReadTilts(sent.value.rows, TiltUnits(fleet));
    if t.Err? {
      return Err(t.error), res, elapsedMs;
    }
    r := Ok(Tilts(t.value));
  }

  // ---------------------------------------------------- AllCheckFilterTilts

  /** The names that are not in the `skip` keyword, in order. */
  function Unskipped(ns: seq<string>, skip: Option<seq<string>>): (out: seq<string>)
    ensures skip.None? ==> out == ns
    ensures forall n :: n in out <==> n in ns && (skip.None? || n !in skip.value)
    ensures |out| <= |ns|
  {
    if skip.None? || ns == [] then ns
    else
      var rest := Unskipped(ns[1..], skip);
      assert forall n :: n in ns <==> n == ns[0] || n in ns[1..];
      if ns[0] in skip.value then rest else [ns[0]] + rest
  }

  /** `AllCheckFilterTilts`'s request: "get" to both science lines, quietly.
      Its own `verbose` parameter only controls printing. */
  function CheckTiltsRequest(kw: Kwargs): (r: Result<Request>)
    ensures r.Ok? && !r.value.dryrun && !r.value.verbose
  {
    WithKwargs(Defaults.(ha := Some(TiltGet), oiii := Some(TiltGet), verbose := false),
               {KwHaCommand, KwOiiiCommand, KwVerbose}, kw.(verbose := None))
  }

  function FilterAngle(rep: Reply): real
  {
    rep.filterAngle
  }

  /** The two tables read from `rows`: H-alpha first, then OIII, each
      ending at its first unreadable name. */
  function TiltTables(fleet: seq<Unit>, rows: seq<SummaryRow>, haTilt: real, oiiiTilt: real, tol: real,
                      skip: Option<seq<string>>): Result<(seq<Check>, seq<Check>)>
  {
    match ReadFrom(Unskipped(NamesWhere(fleet, IsHalpha), skip), rows, haTilt, tol, Some(tol), FilterAngle, 0)
    case Err(e) => Err(e)
    case Ok(ha) =>
      match ReadFrom(Unskipped(NamesWhere(fleet, IsOiii), skip), rows, oiiiTilt, tol, Some(tol), FilterAngle, 0)
      case Err(e) => Err(e)
      case Ok(oi) => Ok((ha, oi))
  }

  /** `AllCheckFilterTilts`: one table for the H-alpha units and one for the
      OIII units that are not skipped, each row comparing the unit's angle
      with the goal of its line. */
  method AllCheckFilterTilts(fleet: seq<Unit>, net: Network, haTilt: real, oiiiTilt: real, tol: real, kw: Kwargs)
    returns (r: Result<(seq<Check>, seq<Check>)>, ghost res: Result<Outcome>, elapsedMs: nat)
    ensures Sent(fleet, CheckTiltsRequest(kw), net, res, elapsedMs)
    ensures res.Err? ==> r == Err(res.error)
    ensures res.Ok? ==> res.value.Summary? && r == TiltTables(fleet, res.value.rows, haTilt, oiiiTilt, tol, kw.skip)
    ensures r.Ok? ==> res.Ok? && res.value.Summary?
    ensures r.Ok? ==> Tabulated(Unskipped(NamesWhere(fleet, IsHalpha), kw.skip), res.value.rows, haTilt, tol, Some(tol), FilterAngle, r.value.0)
    ensures r.Ok? ==> Tabulated(Unskipped(NamesWhere(fleet, IsOiii), kw.skip), res.value.rows, oiiiTilt, tol, Some(tol), FilterAngle, r.value.1)
    ensures res.Ok? && r.Err? ==>
      exists n :: (n in Unskipped(NamesWhere(fleet, IsHalpha), kw.skip) || n in Unskipped(NamesWhere(fleet, IsOiii), kw.skip)) &&
                  ReplyOf(res.value.rows, n).Err?
  {
    var rq := CheckTiltsRequest(kw);
    var sent;
    sent, elapsedMs := Send(fleet, rq, net);
    res := sent;
    if sent.Err? {
      return Err(sent.error), res, elapsedMs;
    }
    DispatchedShape(fleet, rq.value, net, sent, elapsedMs);
    var halpha := Unskipped(NamesWhere(fleet, IsHalpha), kw.skip);
    var oiii := Unskipped(NamesWhere(fleet, IsOiii), kw.skip);
    var ha := CheckAll(halpha, sent.value.rows, haTilt, tol, Some(tol), FilterAngle);
    if ha.Err? {
      return Err(ha.error), res, elapsedMs;
    }
    var oi := CheckAll(oiii, sent.value.rows, oiiiTilt, tol, Some(tol), FilterAngle);
    if oi.Err? {
      return Err(oi.error), res, elapsedMs;
    }
    r := Ok((ha.value, oi.value));
  }
}
