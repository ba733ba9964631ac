/**
  The focuser helpers: initialise, query, and move the focusers of some or
  all of the units. `which` is a selector or a list of unit names; a list is
  turned into a skip list of every other unit of the fleet table.
 */
module Focuser {
  import opened Base
  import opened Fleet
  import opened Router
  import opened Dispatch

  const FocuserInit: string := "focuser?command=init"
  const FocuserStatus: string := "focuser?command=status"
  const FocuserGoto: string := "focuser?command=goto&argument="

  /** `which` of `SetFocus`: a selector or a list of unit names. */
  datatype Which = WhichText(text: string) | WhichList(names: seq<string>)

  /** `InitFocusers` and `FocuserStatus`: one command to the units `which`
      selects, with their own `verbose` (default False). */
  function FocuserRequest(cmd: string, which: string, verbose: bool, kw: Kwargs): (r: Result<Request>)
    ensures r.Ok? && r.value.command == Some(cmd) && r.value.which == which
    ensures r.value.verbose == verbose && !r.value.dryrun
    ensures forall f :: Assigned(r.value, f) == (if Selects(which, f) then Some(cmd) else None)
  {
    WithKwargs(Defaults.(command := Some(cmd), which := which, verbose := verbose),
               {KwCommand, KwWhich, KwVerbose}, kw.(verbose := None))
  }

  method InitFocusers(fleet: seq<Unit>, net: Network, which: string, verbose: bool, kw: Kwargs)
    returns (r: Result<Outcome>, elapsedMs: nat)
    ensures Sent(fleet, FocuserRequest(FocuserInit, which, verbose, kw), net, r, elapsedMs)
  {
    r, elapsedMs := Send(fleet, FocuserRequest(FocuserInit, which, verbose, kw), net);
  }

  method FocuserStatusAll(fleet: seq<Unit>, net: Network, which: string, verbose: bool, kw: Kwargs)
    returns (r: Result<Outcome>, elapsedMs: nat)
    ensures Sent(fleet, FocuserRequest(FocuserStatus, which, verbose, kw), net, r, elapsedMs)
  {
    r, elapsedMs := Send(fleet, FocuserRequest(FocuserStatus, which, verbose, kw), net);
  }

  /** The names of the fleet table that are not in `use`, in order. */
  function Others(fleet: seq<Unit>, use: seq<string>): (skip: seq<string>)
    ensures forall n :: n in skip <==> n !in use && exists i :: 0 <= i < |fleet| && fleet[i].name == n
  {
    if fleet == [] then []
    else
      var rest := Others(fleet[1..], use);
      assert forall i :: 1 <= i < |fleet| ==> fleet[1..][i - 1] == fleet[i];
      if fleet[0].name in use then rest else [fleet[0].name] + rest
  }

  /** `SetFocus`: a goto command. With a list, every unit of the fleet
      table not in the list is skipped and the command goes to "all"; a
      forwarded `skip` then clashes with the helper's own (TypeError). */
  function SetFocusRequest(fleet: seq<Unit>, focus: Number, which: Which, verbose: bool, kw: Kwargs): (r: Result<Request>)
    ensures r.Err? <==> which.WhichList? && kw.skip.Some?
    ensures r.Err? ==> r.error == TypeError
    ensures r.Ok? ==> r.value.command == Some(FocuserGoto + focus.text) && r.value.verbose == verbose
    ensures r.Ok? && which.WhichList? ==> r.value.which == "all" && r.value.skip == Others(fleet, which.names)
    ensures r.Ok? && which.WhichText? ==> r.value.which == which.text
  {
    var cmd := FocuserGoto + focus.text;
    match which
    case WhichList(use) =>
      WithKwargs(Defaults.(command := Some(cmd), which := "all", skip := Others(fleet, use), verbose := verbose),
                 {KwCommand, KwWhich, KwSkip, KwVerbose}, kw.(verbose := None))
    case WhichText(w) =>
      WithKwargs(Defaults.(command := Some(cmd), which := w, verbose := verbose),
                 {KwCommand, KwWhich, KwVerbose}, kw.(verbose := None))
  }

  /** With a list of names, the goto command reaches exactly the units of
      the fleet table named in the list. */
  lemma SetFocusListReachesListed(fleet: seq<Unit>, focus: Number, use: seq<string>, verbose: bool, kw: Kwargs, e: Routed)
    requires kw.skip.None?
    requires Routing(fleet, SetFocusRequest(fleet, focus, WhichList(use), verbose, kw).value).Ok?
    ensures e in Routing(fleet, SetFocusRequest(fleet, focus, WhichList(use), verbose, kw).value).value <==>
      e.name in use && e.command == FocuserGoto + focus.text &&
      exists i :: 0 <= i < |fleet| && e.name == fleet[i].name && e.ip == fleet[i].ip
  {
  }

  method SetFocus(fleet: seq<Unit>, net: Network, focus: Number, which: Which, verbose: bool, kw: Kwargs)
    returns (r: Result<Outcome>, elapsedMs: nat)
    ensures Sent(fleet, SetFocusRequest(fleet, focus, which, verbose, kw), net, r, elapsedMs)
  {
    r, elapsedMs := Send(fleet, SetFocusRequest(fleet, focus, which, verbose, kw), net);
  }
}
