/**
  The dry-run tables the repository's test suite expects on its ten-unit
  test fleet: for each request, the routed table (Name, ip, command) that a
  dry run returns.
 */
module DryRunTables {
  import opened Base
  import opened Fleet
  import opened Router
  import opened Dispatch
  import opened Camera
  import opened FilterTilter

  /** Every address of the list is at most every later one. */
  predicate Ascending(ips: seq<string>)
  {
    forall i, j :: 0 <= i < j < |ips| ==> StrLe(ips[i], ips[j])
  }

  /** An address at most the first of an ascending list extends it. */
  lemma ConsAscending(ip: string, rest: seq<string>)
    requires rest != [] && StrLe(ip, rest[0]) && Ascending(rest)
    ensures Ascending([ip] + rest)
  {
    var s := [ip] + rest;
    forall i, j | 0 <= i < j < |s| ensures StrLe(s[i], s[j]) {
      if i == 0 && j > 1 {
        StrLeTrans(ip, rest[0], rest[j - 1]);
      } else if i > 0 {
        assert s[i] == rest[i - 1] && s[j] == rest[j - 1];
      }
    }
  }

  /** A host number at most the next one extends an ascending list of
      test-network addresses. */
  lemma HostAscending(host: string, next: string, rest: seq<string>)
    requires StrLe(host, next) && rest != [] && rest[0] == "192.168.50." + next && Ascending(rest)
    ensures Ascending(["192.168.50." + host] + rest)
  {
    StrLeCommonPrefix("192.168.50.", host, next);
    ConsAscending("192.168.50." + host, rest);
  }

  /** The test fleet is listed in address order. */
  lemma TestFleetAscending()
    ensures forall i, j :: 0 <= i < j < |TestFleet| ==> StrLe(TestFleet[i].ip, TestFleet[j].ip)
  {
    var s := ["192.168.50." + "20"];
    HostAscending("19", "20", s); s := ["192.168.50." + "19"] + s;
    HostAscending("18", "19", s); s := ["192.168.50." + "18"] + s;
    HostAscending("17", "18", s); s := ["192.168.50." + "17"] + s;
    HostAscending("16", "17", s); s := ["192.168.50." + "16"] + s;
    HostAscending("15", "16", s); s := ["192.168.50." + "15"] + s;
    HostAscending("14", "15", s); s := ["192.168.50." + "14"] + s;
    HostAscending("13", "14", s); s := ["192.168.50." + "13"] + s;
    HostAscending("12", "13", s); s := ["192.168.50." + "12"] + s;
    HostAscending("11", "12", s); s := ["192.168.50." + "11"] + s;
    forall i | 0 <= i < |TestFleet| ensures TestFleet[i].ip == s[i] {
    }
  }

  /** On the test fleet, a request with no skip list whose command column
      is `col`, with a command on row `k`, routes exactly the entry table
      of `col`. */
  lemma RoutesTo(req: Request, col: seq<Option<string>>, k: nat)
    requires req.command.None? || ValidWhich(req.which)
    requires req.skip == []
    requires Column(TestFleet, req) == col
    requires k < |col| && col[k].Some?
    ensures Routing(TestFleet, req) == Ok(Entries(TestFleet, col))
  {
    TestFleetAscending();
    EntriesKeepOrder(TestFleet, col);
    RoutingIsEntries(TestFleet, req);
  }

  /** The command column of the test fleet, row by row. */
  lemma ColumnOfTestFleet(req: Request)
    ensures Column(TestFleet, req) ==
      [Assigned(req, "ha6647"), Assigned(req, "ha6647"), Assigned(req, "ha6647"),
       Assigned(req, "ha_left"), Assigned(req, "ha_right"), Assigned(req, "oiii_left"),
       Assigned(req, "oiii_right"), Assigned(req, "OH_off"), Assigned(req, "OH"), Assigned(req, "oiii5071")]
  {
  }

  /** `SendWebRequestNB("status", …, dryrun=True)` with the given extra
      keywords. */
  function StatusDryRun(which: string): Request
  {
    Defaults.(command := Some("status"), which := which, dryrun := true)
  }

  /** `SendWebRequestNB("status", which=…)` and its overrides on the test
      fleet: the routed table of each test case, which a dry run returns, is
      the test fleet's rows with a command, in table order, the command of
      row k being the k-th entry of the column. */
  lemma RouteAll()
    ensures Routing(TestFleet, StatusDryRun("all")) ==
      Ok(Entries(TestFleet, [Some("status"), Some("status"), Some("status"), Some("status"),
                            Some("status"), Some("status"), Some("status"), Some("status"),
                            Some("status"), Some("status")]))
  {
    var req := StatusDryRun("all");
    ColumnOfTestFleet(req);
    RoutesTo(req, [Some("status"), Some("status"), Some("status"), Some("status"),
                  Some("status"), Some("status"), Some("status"), Some("status"),
                  Some("status"), Some("status")], 0);
  }

  lemma RouteHalpha()
    ensures Routing(TestFleet, StatusDryRun("halpha")) ==
      Ok(Entries(TestFleet, [Some("status"), Some("status"), Some("status"), None, None, None,
                            None, None, None, None]))
  {
    var req := StatusDryRun("halpha");
    ColumnOfTestFleet(req);
    RoutesTo(req, [Some("status"), Some("status"), Some("status"), None, None, None,
                  None, None, None, None], 0);
  }

  lemma RouteOiii()
    ensures Routing(TestFleet, StatusDryRun("oiii")) ==
      Ok(Entries(TestFleet, [None, None, None, None, None, None, None, None, None, Some("status")]))
  {
    var req := StatusDryRun("oiii");
    ColumnOfTestFleet(req);
    RoutesTo(req, [None, None, None, None, None, None, None, None, None, Some("status")], 9);
  }

  lemma RouteScience()
    ensures Routing(TestFleet, StatusDryRun("science")) ==
      Ok(Entries(TestFleet, [Some("status"), Some("status"), Some("status"), None, None, None,
                            None, None, None, Some("status")]))
  {
    var req := StatusDryRun("science");
    ColumnOfTestFleet(req);
    RoutesTo(req, [Some("status"), Some("status"), Some("status"), None, None, None,
                  None, None, None, Some("status")], 0);
  }

  lemma RouteScienceOffs()
    ensures Routing(TestFleet, StatusDryRun("science offs")) ==
      Ok(Entries(TestFleet, [None, None, None, Some("status"), Some("status"), Some("status"),
                            Some("status"), None, None, None]))
  {
    var req := StatusDryRun("science offs");
    ColumnOfTestFleet(req);
    RoutesTo(req, [None, None, None, Some("status"), Some("status"), Some("status"),
                  Some("status"), None, None, None], 3);
  }

  lemma RouteOH()
    ensures Routing(TestFleet, StatusDryRun("OH")) ==
      Ok(Entries(TestFleet, [None, None, None, None, None, None, None, Some("status"),
                            Some("status"), None]))
  {
    var req := StatusDryRun("OH");
    ColumnOfTestFleet(req);
    RoutesTo(req, [None, None, None, None, None, None, None, Some("status"),
                  Some("status"), None], 7);
  }

  lemma RouteHalphaOverride()
    ensures Routing(TestFleet, StatusDryRun("all").(ha := Some("special_ha_command"))) ==
      Ok(Entries(TestFleet, [Some("special_ha_command"), Some("special_ha_command"),
                            Some("special_ha_command"), Some("status"), Some("status"),
                            Some("status"), Some("status"), Some("status"), Some("status"),
                            Some("status")]))
  {
    var req := StatusDryRun("all").(ha := Some("special_ha_command"));
    ColumnOfTestFleet(req);
    RoutesTo(req, [Some("special_ha_command"), Some("special_ha_command"),
                  Some("special_ha_command"), Some("status"), Some("status"),
                  Some("status"), Some("status"), Some("status"), Some("status"),
                  Some("status")], 0);
  }

  lemma RouteOiiiOverride()
    ensures Routing(TestFleet, StatusDryRun("all").(oiii := Some("special_oiii_command"))) ==
      Ok(Entries(TestFleet, [Some("status"), Some("status"), Some("status"), Some("status"),
                            Some("status"), Some("status"), Some("status"), Some("status"),
                            Some("status"), Some("special_oiii_command")]))
  {
    var req := StatusDryRun("all").(oiii := Some("special_oiii_command"));
    ColumnOfTestFleet(req);
    RoutesTo(req, [Some("status"), Some("status"), Some("status"), Some("status"),
                  Some("status"), Some("status"), Some("status"), Some("status"),
                  Some("status"), Some("special_oiii_command")], 0);
  }

  lemma RouteHalphaOffOverride()
    ensures Routing(TestFleet, StatusDryRun("all").(haOff := Some("ha_off_command"))) ==
      Ok(Entries(TestFleet, [Some("status"), Some("status"), Some("status"),
                            Some("ha_off_command"), Some("ha_off_command"), Some("status"),
                            Some("status"), Some("status"), Some("status"), Some("status")]))
  {
    var req := StatusDryRun("all").(haOff := Some("ha_off_command"));
    ColumnOfTestFleet(req);
    RoutesTo(req, [Some("status"), Some("status"), Some("status"),
                  Some("ha_off_command"), Some("ha_off_command"), Some("status"),
                  Some("status"), Some("status"), Some("status"), Some("status")], 0);
  }

  lemma RouteOiiiOffOverride()
    ensures Routing(TestFleet, StatusDryRun("all").(oiiiOff := Some("oiii_off_command"))) ==
      Ok(Entries(TestFleet, [Some("status"), Some("status"), Some("status"), Some("status"),
                            Some("status"), Some("oiii_off_command"), Some("oiii_off_command"),
                            Some("status"), Some("status"), Some("status")]))
  {
    var req := StatusDryRun("all").(oiiiOff := Some("oiii_off_command"));
    ColumnOfTestFleet(req);
    RoutesTo(req, [Some("status"), Some("status"), Some("status"), Some("status"),
                  Some("status"), Some("oiii_off_command"), Some("oiii_off_command"),
                  Some("status"), Some("status"), Some("status")], 0);
  }

  lemma RouteOHOverride()
    ensures Routing(TestFleet, StatusDryRun("all").(oh := Some("command"))) ==
      Ok(Entries(TestFleet, [Some("status"), Some("status"), Some("status"), Some("status"),
                            Some("status"), Some("status"), Some("status"), Some("status"),
                            Some("command"), Some("status")]))
  {
    var req := StatusDryRun("all").(oh := Some("command"));
    ColumnOfTestFleet(req);
    RoutesTo(req, [Some("status"), Some("status"), Some("status"), Some("status"),
                  Some("status"), Some("status"), Some("status"), Some("status"),
                  Some("command"), Some("status")], 0);
  }

  lemma RouteOHOffOverride()
    ensures Routing(TestFleet, StatusDryRun("all").(ohOff := Some("command"))) ==
      Ok(Entries(TestFleet, [Some("status"), Some("status"), Some("status"), Some("status"),
                            Some("status"), Some("status"), Some("status"), Some("command"),
                            Some("status"), Some("status")]))
  {
    var req := StatusDryRun("all").(ohOff := Some("command"));
    ColumnOfTestFleet(req);
    RoutesTo(req, [Some("status"), Some("status"), Some("status"), Some("status"),
                  Some("status"), Some("status"), Some("status"), Some("command"),
                  Some("status"), Some("status")], 0);
  }

  lemma RouteFlatHaving()
    ensures Routing(TestFleet, StatusDryRun("all").(flatHaving := Some("command"))) ==
      Ok(Entries(TestFleet, [Some("command"), Some("command"), Some("command"), Some("status"),
                            Some("status"), Some("status"), Some("status"), Some("command"),
                            Some("command"), Some("command")]))
  {
    var req := StatusDryRun("all").(flatHaving := Some("command"));
    ColumnOfTestFleet(req);
    RoutesTo(req, [Some("command"), Some("command"), Some("command"), Some("status"),
                  Some("status"), Some("status"), Some("status"), Some("command"),
                  Some("command"), Some("command")], 0);
  }

  lemma RouteCombo()
    ensures Routing(TestFleet, StatusDryRun("science offs").(flatHaving := Some("flathaving"), haOff := Some("ha_off_command"))) ==
      Ok(Entries(TestFleet, [Some("flathaving"), Some("flathaving"), Some("flathaving"),
                            Some("ha_off_command"), Some("ha_off_command"), Some("status"),
                            Some("status"), Some("flathaving"), Some("flathaving"),
                            Some("flathaving")]))
  {
    var req := StatusDryRun("science offs").(flatHaving := Some("flathaving"), haOff := Some("ha_off_command"));
    ColumnOfTestFleet(req);
    RoutesTo(req, [Some("flathaving"), Some("flathaving"), Some("flathaving"),
                  Some("ha_off_command"), Some("ha_off_command"), Some("status"),
                  Some("status"), Some("flathaving"), Some("flathaving"),
                  Some("flathaving")], 0);
  }

  /** The science and off-band commands of the science test case. */
  lemma TestScienceCommands()
    ensures ScienceCommands(ScienceArgs(10, 1, 10, None, [], 60, true), []).0 == "expose?type=light&time=10"
    ensures ScienceCommands(ScienceArgs(10, 1, 10, None, [], 60, true), []).1 == "expose?type=light&time=1&n=10"
  {
    assert NatToString(1) == "1" && NatToString(10) == "10";
  }

  /** The command column of a science request on the test fleet. */
  lemma ScienceColumn(cs: (string, string, string), a: ScienceArgs, kw: Kwargs)
    requires ScienceRequestFor(cs, a, kw).Ok?
    ensures Column(TestFleet, ScienceRequestFor(cs, a, kw).value) ==
      [Some(cs.0), Some(cs.0), Some(cs.0), Some(cs.1), Some(cs.1), Some(cs.1), Some(cs.1),
       Some(cs.2), Some(cs.2), Some(cs.0)]
  {
    var req := ScienceRequestFor(cs, a, kw).value;
    assert Assigned(req, "ha6647") == Some(cs.0) && Assigned(req, "oiii5071") == Some(cs.0);
    assert Assigned(req, "ha_left") == Some(cs.1) && Assigned(req, "ha_right") == Some(cs.1);
    assert Assigned(req, "oiii_left") == Some(cs.1) && Assigned(req, "oiii_right") == Some(cs.1);
    assert Assigned(req, "OH_off") == Some(cs.2) && Assigned(req, "OH") == Some(cs.2);
    ColumnOfTestFleet(req);
  }

  /** `AllScienceExposure(exptime=10, off_exptime=1, n_offs=10, debug=True)`
      with an empty pointing: the science command to the three H-alpha
      units, the OH pair and the OIII unit, the off-band command to the four
      off-band units. */
  lemma ScienceExposureRoute()
    ensures ScienceRequest(ScienceArgs(10, 1, 10, None, [], 60, true), [], NoKwargs).Ok?
    ensures ScienceRequest(ScienceArgs(10, 1, 10, None, [], 60, true), [], NoKwargs).value.dryrun
    ensures Routing(TestFleet, ScienceRequest(ScienceArgs(10, 1, 10, None, [], 60, true), [], NoKwargs).value) ==
      Ok(Entries(TestFleet, [Some("expose?type=light&time=10"),
                            Some("expose?type=light&time=10"),
                            Some("expose?type=light&time=10"),
                            Some("expose?type=light&time=1&n=10"),
                            Some("expose?type=light&time=1&n=10"),
                            Some("expose?type=light&time=1&n=10"),
                            Some("expose?type=light&time=1&n=10"),
                            Some("expose?type=light&time=10"),
                            Some("expose?type=light&time=10"),
                            Some("expose?type=light&time=10")]))
  {
    var a := ScienceArgs(10, 1, 10, None, [], 60, true);
    var cs := ScienceCommands(a, []);
    TestScienceCommands();
    ScienceColumn(cs, a, NoKwargs);
    RoutesTo(ScienceRequest(a, [], NoKwargs).value,
             [Some(cs.0), Some(cs.0), Some(cs.0), Some(cs.1), Some(cs.1), Some(cs.1), Some(cs.1),
              Some(cs.2), Some(cs.2), Some(cs.0)], 0);
  }

  /** The command column of an H-alpha/OIII pair request on the test fleet. */
  lemma PairColumn(haCommand: string, oiiiCommand: string, debug: bool, kw: Kwargs)
    ensures Column(TestFleet, PairRequest(haCommand, oiiiCommand, debug, kw).value) ==
      [Some(haCommand), Some(haCommand), Some(haCommand), None, None, None, None, None, None, Some(oiiiCommand)]
  {
    var req := PairRequest(haCommand, oiiiCommand, debug, kw).value;
    assert Assigned(req, "ha6647") == Some(haCommand) && Assigned(req, "oiii5071") == Some(oiiiCommand);
    assert Assigned(req, "ha_left") == None && Assigned(req, "ha_right") == None;
    assert Assigned(req, "oiii_left") == None && Assigned(req, "oiii_right") == None;
    assert Assigned(req, "OH_off") == None && Assigned(req, "OH") == None;
    ColumnOfTestFleet(req);
  }

  /** `AllTiltScienceFilters(ha_tilt=5.0, oiii_tilt=7.0, debug=True)`. */
  lemma TiltScienceFiltersRoute()
    ensures TiltRequest(Number(5.0, "5.0"), Number(7.0, "7.0"), true, NoKwargs).Ok?
    ensures TiltRequest(Number(5.0, "5.0"), Number(7.0, "7.0"), true, NoKwargs).value.dryrun
    ensures Routing(TestFleet, TiltRequest(Number(5.0, "5.0"), Number(7.0, "7.0"), true, NoKwargs).value) ==
      Ok(Entries(TestFleet, [Some("device/filtertilter?command=set&argument=5.0"),
                            Some("device/filtertilter?command=set&argument=5.0"),
                            Some("device/filtertilter?command=set&argument=5.0"), None,
                            None, None, None, None, None,
                            Some("device/filtertilter?command=set&argument=7.0")]))
  {
    TiltTexts();
    PairRoute("device/filtertilter?command=set&argument=5.0", "device/filtertilter?command=set&argument=7.0");
  }

  lemma TiltTexts()
    ensures TiltCommand("set", Number(5.0, "5.0")) == "device/filtertilter?command=set&argument=5.0"
    ensures TiltCommand("set", Number(7.0, "7.0")) == "device/filtertilter?command=set&argument=7.0"
  {
  }

  /** A dry-run pair request reaches the three H-alpha units and the OIII unit. */
  lemma PairRoute(ha: string, oiii: string)
    ensures Routing(TestFleet, PairRequest(ha, oiii, true, NoKwargs).value) ==
      Ok(Entries(TestFleet, [Some(ha), Some(ha), Some(ha), None, None, None, None, None, None, Some(oiii)]))
  {
    PairColumn(ha, oiii, true, NoKwargs);
    RoutesTo(PairRequest(ha, oiii, true, NoKwargs).value,
             [Some(ha), Some(ha), Some(ha), None, None, None, None, None, None, Some(oiii)], 0);
  }
}
