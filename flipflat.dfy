/**
  The flip-flat helpers: lamp on, lamp off, close and open for every unit
  that carries a flip flat, and the per-unit open/close that takes a list
  of unit numbers or names.
 */
module FlipFlat {
  import opened Base
  import opened Fleet
  import opened Router
  import opened Dispatch

  const DefaultPort: string := "/dev/ttyUSB2"
  const DefaultBrightness: int := 60
  const FlipFlatPrefix: string := "device/flipflat?command="

  /** The flip-flat command for an action (a brightness, "off", "close"
      or "open") on a serial port. */
  function FlipFlatCommand(action: string, port: string): (cmd: string)
    ensures StartsWith(cmd, FlipFlatPrefix + action + "&port=")
  {
    FlipFlatPrefix + action + "&port=" + port
  }

  /** A request whose only command is the flat-having one. */
  function FlatHavingRequest(cmd: string, kw: Kwargs): (r: Result<Request>)
    ensures r.Ok?
    ensures forall f :: Assigned(r.value, f) == (if IsFlatHaving(f) then Some(cmd) else None)
  {
    WithKwargs(Defaults.(flatHaving := Some(cmd)), {KwFlatHavingCommand}, kw)
  }

  /** `AllTurnOnFlipFlaps`: the lamp at `brightness` on every flat-having unit. */
  function TurnOnRequest(brightness: int, port: string, kw: Kwargs): (r: Result<Request>)
    ensures r.Ok?
    ensures forall f :: Assigned(r.value, f).Some? <==> IsFlatHaving(f)
    ensures forall f :: IsFlatHaving(f) ==>
              Assigned(r.value, f) == Some(FlipFlatPrefix + IntToString(brightness) + "&port=" + port)
  {
    FlatHavingRequest(FlipFlatCommand(IntToString(brightness), port), kw)
  }

  /** `AllTurnOffFlipFlaps`: "off" both to the units `which` selects and to
      every flat-having unit; its own `verbose` is never forwarded. */
  function TurnOffRequest(which: string, port: string, kw: Kwargs): (r: Result<Request>)
    ensures r.Ok?
    ensures forall f :: Assigned(r.value, f) ==
                          (if IsFlatHaving(f) || Selects(which, f) then Some(FlipFlatCommand("off", port)) else None)
  {
    var cmd := FlipFlatCommand("off", port);
    WithKwargs(Defaults.(command := Some(cmd), which := which, flatHaving := Some(cmd)),
               {KwCommand, KwWhich, KwFlatHavingCommand}, kw.(verbose := None))
  }

  /** `AllCloseFlipFlats`: its `which` is accepted and ignored, and its own
      `verbose` (which only prints the result) is never forwarded. */
  function CloseRequest(port: string, kw: Kwargs): (r: Result<Request>)
    ensures r.Ok? && r.value.verbose == Defaults.verbose
    ensures forall f :: Assigned(r.value, f) == (if IsFlatHaving(f) then Some(FlipFlatCommand("close", port)) else None)
  {
    FlatHavingRequest(FlipFlatCommand("close", port), kw.(verbose := None))
  }

  /** `AllOpenFlipFlats`: its `which` is accepted and ignored, and its own
      `verbose` (which only prints the result) is never forwarded. */
  function OpenRequest(port: string, kw: Kwargs): (r: Result<Request>)
    ensures r.Ok? && r.value.verbose == Defaults.verbose
    ensures forall f :: Assigned(r.value, f) == (if IsFlatHaving(f) then Some(FlipFlatCommand("open", port)) else None)
  {
    FlatHavingRequest(FlipFlatCommand("open", port), kw.(verbose := None))
  }

  /** With the default selector the lamp-off command reaches exactly the
      flat-having units, like the other three flip-flat commands. */
  lemma TurnOffScienceIsFlatHaving(port: string, kw: Kwargs, f: string)
    ensures Assigned(TurnOffRequest("science", port, kw).value, f).Some? <==> IsFlatHaving(f)
  {
    if IsScience(f) {
      ScienceHasFlats(f);
    }
  }

  /** On a fleet with a flat-having unit, closing the flats routes the
      close command to the flat-having units that are not skipped and to
      nothing else. */
  lemma CloseRoutesFlatHaving(fleet: seq<Unit>, port: string, kw: Kwargs, e: Routed)
    requires exists i :: 0 <= i < |fleet| && IsFlatHaving(fleet[i].filter)
    ensures Routing(fleet, CloseRequest(port, kw).value).Ok?
    ensures e in Routing(fleet, CloseRequest(port, kw).value).value <==>
      e.name !in CloseRequest(port, kw).value.skip && e.command == FlipFlatCommand("close", port) &&
      exists i :: 0 <= i < |fleet| && IsFlatHaving(fleet[i].filter) && e.name == fleet[i].name && e.ip == fleet[i].ip
  {
    var req := CloseRequest(port, kw).value;
    var i :| 0 <= i < |fleet| && IsFlatHaving(fleet[i].filter);
    assert Assigned(req, fleet[i].filter).Some?;
  }

  method AllTurnOnFlipFlaps(fleet: seq<Unit>, net: Network, brightness: int, port: string, kw: Kwargs)
    returns (r: Result<Outcome>, elapsedMs: nat)
    ensures Sent(fleet, TurnOnRequest(brightness, port, kw), net, r, elapsedMs)
  {
    r, elapsedMs := Send(fleet, TurnOnRequest(brightness, port, kw), net);
  }

  method AllTurnOffFlipFlaps(fleet: seq<Unit>, net: Network, which: string, port: string, kw: Kwargs)
    returns (r: Result<Outcome>, elapsedMs: nat)
    ensures Sent(fleet, TurnOffRequest(which, port, kw), net, r, elapsedMs)
  {
    r, elapsedMs := Send(fleet, TurnOffRequest(which, port, kw), net);
  }

  method AllCloseFlipFlats(fleet: seq<Unit>, net: Network, port: string, kw: Kwargs)
    returns (r: Result<Outcome>, elapsedMs: nat)
    ensures Sent(fleet, CloseRequest(port, kw), net, r, elapsedMs)
  {
    r, elapsedMs := Send(fleet, CloseRequest(port, kw), net);
  }

  method AllOpenFlipFlats(fleet: seq<Unit>, net: Network, port: string, kw: Kwargs)
    returns (r: Result<Outcome>, elapsedMs: nat)
    ensures Sent(fleet, OpenRequest(port, kw), net, r, elapsedMs)
  {
    r, elapsedMs := Send(fleet, OpenRequest(port, kw), net);
  }

  // ---------------------------------------------------- per-unit open/close

  /** An element of the unit list: a unit number or a unit name. */
  datatype UnitItem = UStr(text: string) | UInt(number: int)

  /** Python's `str` of a list element. */
  function ItemText(u: UnitItem): string
  {
    match u
    case UStr(t) => t
    case UInt(n) => IntToString(n)
  }

  /** The name normalisation of `OpenFlipFlats`/`CloseFlipFlats` as
      written: the first element decides. An empty list is an IndexError; a
      first element that is a number has no `startswith` (AttributeError);
      a first name that already starts with "Dragonfly" leaves the list as
      it is; otherwise every element is prefixed with "Dragonfly". */
  function PrefixUnits(items: seq<UnitItem>): (r: Result<seq<UnitItem>>)
    ensures items == [] ==> r == Err(IndexError)
    ensures items != [] && items[0].UInt? ==> r == Err(AttributeError)
    ensures r.Ok? ==> |r.value| == |items|
    ensures r.Ok? && !StartsWith(items[0].text, "Dragonfly") ==>
      forall i :: 0 <= i < |items| ==> r.value[i] == UStr("Dragonfly" + ItemText(items[i]))
  {
    if items == [] then Err(IndexError)
    else if items[0].UInt? then Err(AttributeError)
    else if StartsWith(items[0].text, "Dragonfly") then Ok(items)
    else Ok(seq(|items|, i requires 0 <= i < |items| => UStr("Dragonfly" + ItemText(items[i]))))
  }

  /** `OpenFlipFlats`/`CloseFlipFlats` as written: after the normalisation,
      the first pass of the loop filters the status table by a `name`
      column the table does not have (its column is `Name`), an
      AttributeError; no command is ever run. */
  function FlipFlatsByUnit(items: seq<UnitItem>): (r: Result<seq<string>>)
    ensures r.Err?
    ensures items != [] ==> r == Err(AttributeError)
  {
    match PrefixUnits(items)
    case Err(e) => Err(e)
    case Ok(us) => Err(AttributeError)
  }

  /** The name a unit-list element stands for, as the documentation of
      the per-unit functions describes it: a number n is "Dragonfly<n>", a
      name already starting with "Dragonfly" is itself, and any other name
      gets the prefix. */
  function UnitItemName(u: UnitItem): (name: string)
    ensures StartsWith(name, "Dragonfly")
    ensures u.UInt? ==> name == "Dragonfly" + IntToString(u.number)
  {
    match u
    case UInt(n) => "Dragonfly" + IntToString(n)
    case UStr(t) => if StartsWith(t, "Dragonfly") then t else "Dragonfly" + t
  }

  /** The address of the unit with that name in the fleet table. */
  function AddressOf(fleet: seq<Unit>, name: string): (r: Result<string>)
    ensures r.Err? <==> forall i :: 0 <= i < |fleet| ==> fleet[i].name != name
    ensures r.Ok? ==> exists i :: 0 <= i < |fleet| && fleet[i].name == name && fleet[i].ip == r.value
  {
    if fleet == [] then Err(KeyError)
    else if fleet[0].name == name then Ok(fleet[0].ip)
    else
      var rest := AddressOf(fleet[1..], name);
      assert forall i :: 1 <= i < |fleet| ==> fleet[1..][i - 1] == fleet[i];
      rest
  }

  /** The per-unit flip-flat requests as intended: for each element, in
      order, the unit's own address with the `action` command; an element
      naming no unit of the fleet table is a KeyError. */
  function FlipFlatsByUnitIntended(fleet: seq<Unit>, items: seq<UnitItem>, action: string, port: string)
    : (r: Result<seq<string>>)
    ensures r.Ok? <==> forall k :: 0 <= k < |items| ==> AddressOf(fleet, UnitItemName(items[k])).Ok?
    ensures r.Ok? ==> |r.value| == |items| && forall k :: 0 <= k < |items| ==>
      r.value[k] == "http://" + AddressOf(fleet, UnitItemName(items[k])).value + ":3000/api/" + FlipFlatCommand(action, port)
  {
    if items == [] then Ok([])
    else
      var head := AddressOf(fleet, UnitItemName(items[0]));
      var rest := FlipFlatsByUnitIntended(fleet, items[1..], action, port);
      assert forall k :: 1 <= k < |items| ==> items[1..][k - 1] == items[k];
      if head.Err? then Err(head.error)
      else if rest.Err? then Err(rest.error)
      else Ok(["http://" + head.value + ":3000/api/" + FlipFlatCommand(action, port)] + rest.value)
  }

  /** In the intended form a unit number reaches the unit of the same
      name: `[301]` on the repository's test fleet opens 192.168.50.11. */
  lemma FlipFlatsByNumber(action: string, port: string)
    ensures FlipFlatsByUnitIntended(TestFleet, [UInt(301)], action, port) ==
      Ok(["http://" + TestFleet[0].ip + ":3000/api/" + FlipFlatCommand(action, port)])
    ensures TestFleet[0].ip == "192.168.50.11"
  {
    assert NatToString(3) == "3" && NatToString(30) == "30" && NatToString(301) == "301";
    var items := [UInt(301)];
    assert UnitItemName(items[0]) == TestFleet[0].name;
    assert AddressOf(TestFleet, TestFleet[0].name) == Ok(TestFleet[0].ip);
    var r := FlipFlatsByUnitIntended(TestFleet, items, action, port);
    assert r.Ok?;
    assert r.value == [r.value[0]];
  }
}
