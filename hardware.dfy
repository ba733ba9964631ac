/**
  The hardware registry: a Name -> Status table of the ten units, kept in a
  status file. The file is modelled in memory by a flag saying whether it
  exists and the rows it holds; every method reads the table, rewrites the
  Status column and writes it back.
 */
module Hardware {
  import opened Base
  import opened Fleet
  import opened Router
  import opened Dispatch

  /** One row of the status file. */
  datatype Entry = Entry(name: string, status: string)

  /** A `unit` argument: a string, or a value of another type. */
  datatype UnitArg = Str(text: string) | NotStr

  /** What `get_status` returns: the whole table, a list of names, or None. */
  datatype StatusReply = Table(entries: seq<Entry>) | Units(names: seq<string>) | NoValue

  const Up: string := "UP"
  const Down: string := "DOWN"
  const Undetermined: string := "UNDETERMINED"
  /** The status `MarkAllUnitsDown` writes, which is not the one queries look for. */
  const DownMixedCase: string := "Down"
  const UnitPrefix: string := "Dragonfly"

  /** Name of the k-th unit, Dragonfly301 .. Dragonfly310. */
  function UnitName(k: nat): (n: string)
    ensures StartsWith(n, UnitPrefix)
  {
    UnitPrefix + NatToString(301 + k)
  }

  /** The table a fresh status file holds. */
  function InitialTable(): (t: seq<Entry>)
    ensures |t| == 10
    ensures forall k :: 0 <= k < 10 ==> t[k] == Entry(UnitName(k), Undetermined)
  {
    seq(10, k requires 0 <= k < 10 => Entry(UnitName(k), Undetermined))
  }

  /** `status.loc[status.Name == name, "Status"] = s`. */
  function WithStatus(t: seq<Entry>, name: string, s: string): (r: seq<Entry>)
    ensures |r| == |t|
    ensures forall i :: 0 <= i < |t| ==> r[i].name == t[i].name
    ensures forall i :: 0 <= i < |t| ==> r[i].status == (if t[i].name == name then s else t[i].status)
  {
    seq(|t|, i requires 0 <= i < |t| => if t[i].name == name then Entry(name, s) else t[i])
  }

  /** `status["Status"] = s`. */
  function AllWithStatus(t: seq<Entry>, s: string): (r: seq<Entry>)
    ensures |r| == |t|
    ensures forall i :: 0 <= i < |t| ==> r[i] == Entry(t[i].name, s)
  {
    seq(|t|, i requires 0 <= i < |t| => Entry(t[i].name, s))
  }

  /** Names of the rows whose Status is exactly `s`, in table order. */
  function NamesWithStatus(t: seq<Entry>, s: string): (ns: seq<string>)
    ensures |ns| <= |t|
    ensures forall n :: n in ns <==> exists i :: 0 <= i < |t| && t[i].name == n && t[i].status == s
    ensures ns == [] <==> forall i :: 0 <= i < |t| ==> t[i].status != s
  {
    if t == [] then []
    else
      var rest := NamesWithStatus(t[1..], s);
      assert forall i :: 1 <= i < |t| ==> t[1..][i - 1] == t[i];
      if t[0].status == s then [t[0].name] + rest else rest
  }

  predicate DistinctNames(t: seq<Entry>)
  {
    forall i, j :: 0 <= i < j < |t| ==> t[i].name != t[j].name
  }

  /** Marking a unit twice is marking it once, and of two marks of the same
      unit the last one wins. */
  lemma MarkTwice(t: seq<Entry>, name: string, s1: string, s2: string)
    ensures WithStatus(WithStatus(t, name, s1), name, s2) == WithStatus(t, name, s2)
    ensures WithStatus(WithStatus(t, name, s1), name, s1) == WithStatus(t, name, s1)
  {
  }

  /** Marking a name the table does not hold changes nothing. */
  lemma MarkUnknownName(t: seq<Entry>, name: string, s: string)
    requires forall i :: 0 <= i < |t| ==> t[i].name != name
    ensures WithStatus(t, name, s) == t
  {
  }

  /** Marks of different units commute. */
  lemma MarksCommute(t: seq<Entry>, n1: string, s1: string, n2: string, s2: string)
    requires n1 != n2
    ensures WithStatus(WithStatus(t, n1, s1), n2, s2) == WithStatus(WithStatus(t, n2, s2), n1, s1)
  {
  }

  /** With distinct names no unit is both up and down. */
  lemma UpDownDisjoint(t: seq<Entry>, n: string)
    requires DistinctNames(t)
    ensures !(n in NamesWithStatus(t, Up) && n in NamesWithStatus(t, Down))
  {
  }

  /** The fresh table holds distinct names. */
  lemma InitialNamesDistinct()
    ensures DistinctNames(InitialTable())
  {
    forall i, j | 0 <= i < j < 10
      ensures UnitName(i) != UnitName(j)
    {
      UnitNamesDiffer(i, j);
    }
  }

  lemma UnitNamesDiffer(i: nat, j: nat)
    requires i != j
    ensures UnitName(i) != UnitName(j)
  {
    NatToStringInjective(301 + i, 301 + j);
    PrefixCancels(UnitPrefix, NatToString(301 + i), NatToString(301 + j));
  }
  /** After `MarkAllUnitsDown` no unit is listed, neither up nor down: the
      rows read "Down" and the queries look for "DOWN". */
  lemma AllDownIsInvisible(t: seq<Entry>)
    ensures NamesWithStatus(AllWithStatus(t, DownMixedCase), Up) == []
    ensures NamesWithStatus(AllWithStatus(t, DownMixedCase), Down) == []
  {
  }

  /** After `MarkAllUnitsUp` every unit is up and none is down. */
  lemma AllUpIsAllNames(t: seq<Entry>, n: string)
    ensures n in NamesWithStatus(AllWithStatus(t, Up), Up) <==> exists i :: 0 <= i < |t| && t[i].name == n
    ensures NamesWithStatus(AllWithStatus(t, Up), Down) == []
  {
    var r := AllWithStatus(t, Up);
    if n in NamesWithStatus(r, Up) {
      var i :| 0 <= i < |r| && r[i].name == n && r[i].status == Up;
      assert t[i].name == n;
    }
  }

  /** Marks each name of `ns` in turn. */
  function MarkEach(t: seq<Entry>, ns: seq<string>, s: string): (r: seq<Entry>)
    ensures |r| == |t|
    ensures forall i :: 0 <= i < |t| ==> r[i].name == t[i].name
    ensures forall i :: 0 <= i < |t| ==> r[i].status == (if t[i].name in ns then s else t[i].status)
    decreases |ns|
  {
    if ns == [] then t
    else
      var r := MarkEach(WithStatus(t, ns[0], s), ns[1..], s);
      assert forall n :: n in ns <==> n == ns[0] || n in ns[1..] by {
        assert ns == [ns[0]] + ns[1..];
      }
      r
  }

  /** How many names, from the front, start with "Dragonfly": marking them
      one by one gets that far before the first AssertionError. */
  function LeadingUnitNames(ns: seq<string>): (k: nat)
    ensures k <= |ns|
    ensures forall m :: 0 <= m < k ==> StartsWith(ns[m], UnitPrefix)
    ensures k < |ns| ==> !StartsWith(ns[k], UnitPrefix)
  {
    if ns == [] || !StartsWith(ns[0], UnitPrefix) then 0
    else 1 + LeadingUnitNames(ns[1..])
  }

  /** Every name starts with "Dragonfly", so marking it is allowed. */
  predicate UnitNames(ns: seq<string>)
  {
    forall k :: 0 <= k < |ns| ==> StartsWith(ns[k], UnitPrefix)
  }

  /** The table a registry reads: its file, or the fresh table when the
      file does not exist yet. */
  function Stored(fileExists: bool, t: seq<Entry>): (r: seq<Entry>)
    ensures !fileExists ==> r == InitialTable()
  {
    if fileExists then t else InitialTable()
  }

  /** Names of the response rows whose summary is (not) "SUCCESS". */
  function RowNames(rows: seq<SummaryRow>, success: bool): (ns: seq<string>)
    ensures forall n :: n in ns <==> exists i :: 0 <= i < |rows| && rows[i].name == n && (rows[i].summary == Success) == success
  {
    if rows == [] then []
    else
      var rest := RowNames(rows[1..], success);
      assert forall i :: 1 <= i < |rows| ==> rows[1..][i - 1] == rows[i];
      if (rows[0].summary == Success) == success then [rows[0].name] + rest else rest
  }

  predicate ValidUnitArg(u: UnitArg)
  {
    u.Str? && StartsWith(u.text, UnitPrefix)
  }

  /** The request `MarkAccessibleUnitsUp` sends: "status" to every unit,
      quietly, waiting for the replies. */
  function AccessRequest(): (q: Request)
    ensures q.command == Some("status") && q.which == "all" && q.skip == []
    ensures !q.verbose && q.waitForResponse && !q.dryrun && q.requestType.None?
  {
    Defaults.(command := Some("status"), verbose := false)
  }

  /** The registry after marking a reply table: the marking succeeds iff
      every row names a "Dragonfly…" unit; then the SUCCESS units are UP
      and every other row's unit DOWN, and an empty table leaves the
      registry (and whether its file exists) as it was. When a name is not
      a unit name, the marks made before it stay: the UP names before it,
      or all the UP names and the DOWN names before it. */
  predicate MarkedReplies(exists0: bool, t0: seq<Entry>, exists1: bool, t1: seq<Entry>,
                          rows: seq<SummaryRow>, r: Result<()>)
  {
    var ups, downs := RowNames(rows, true), RowNames(rows, false);
    (r.Ok? <==> forall i :: 0 <= i < |rows| ==> StartsWith(rows[i].name, UnitPrefix)) &&
    (r.Err? ==> r.error == AssertionError) &&
    (LeadingUnitNames(ups) < |ups| ==>
       r.Err? && Stored(exists1, t1) == MarkEach(t0, ups[..LeadingUnitNames(ups)], Up)) &&
    (LeadingUnitNames(ups) == |ups| ==>
       Stored(exists1, t1) == MarkEach(MarkEach(t0, ups, Up), downs[..LeadingUnitNames(downs)], Down)) &&
    (r.Ok? && |rows| > 0 ==> exists1 && t1 == MarkEach(MarkEach(t0, RowNames(rows, true), Up), RowNames(rows, false), Down)) &&
    (|rows| == 0 ==> exists1 == exists0 && (exists0 ==> t1 == t0))
  }

  class HardwareStatus {
    /** Whether the status file exists, and the rows it holds. */
    var fileExists: bool
    var table: seq<Entry>

    /** A registry over a status file that may or may not exist yet. */
    constructor (fileExists0: bool, table0: seq<Entry>)
      ensures fileExists == fileExists0 && table == table0
    {
      fileExists := fileExists0;
      table := table0;
    }

    /** The table a read-modify-write starts from: a missing file is first
        created fresh. */
    function Current(): (t: seq<Entry>)
      reads this
      ensures !fileExists ==> t == InitialTable()
    {
      Stored(fileExists, table)
    }

    /** `InitializeHardwareStatus`: Dragonfly301..310, in order, all
        UNDETERMINED. */
    method InitializeHardwareStatus()
      modifies this
      ensures fileExists && table == InitialTable()
    {
      fileExists := true;
      table := InitialTable();
    }

    /** Shared body of MarkUnitDown and MarkUnitUp. */
    method MarkUnit(unit: UnitArg, s: string) returns (r: Result<()>)
      modifies this
      ensures r.Err? <==> !ValidUnitArg(unit)
      ensures r.Err? ==> r == Err(AssertionError) && fileExists == old(fileExists) && table == old(table)
      ensures r.Ok? ==> fileExists && table == WithStatus(old(Current()), unit.text, s)
    {
      if !unit.Str? || !StartsWith(unit.text, UnitPrefix) {
        return Err(AssertionError);
      }
      if !fileExists {
        InitializeHardwareStatus();
      }
      table := WithStatus(table, unit.text, s);
      r := Ok(());
    }

    /** `MarkUnitDown`: a non-string or a name not starting with "Dragonfly"
        is an AssertionError before the file is touched; otherwise only the
        rows with that Name become DOWN. */
    method MarkUnitDown(unit: UnitArg) returns (r: Result<()>)
      modifies this
      ensures r.Err? <==> !ValidUnitArg(unit)
      ensures r.Err? ==> r == Err(AssertionError) && fileExists == old(fileExists) && table == old(table)
      ensures r.Ok? ==> fileExists && table == WithStatus(old(Current()), unit.text, Down)
    {
      r := MarkUnit(unit, Down);
    }

    /** `MarkUnitUp`: as MarkUnitDown, with UP. */
    method MarkUnitUp(unit: UnitArg) returns (r: Result<()>)
      modifies this
      ensures r.Err? <==> !ValidUnitArg(unit)
      ensures r.Err? ==> r == Err(AssertionError) && fileExists == old(fileExists) && table == old(table)
      ensures r.Ok? ==> fileExists && table == WithStatus(old(Current()), unit.text, Up)
    {
      r := MarkUnit(unit, Up);
    }

    /** Marks every name of `ns` with `s`, stopping at the first invalid
        name with an AssertionError; each mark is written as it is made, so
        the names before that one stay marked. */
    method MarkNames(ns: seq<string>, s: string) returns (r: Result<()>)
      modifies this
      ensures r.Ok? <==> forall k :: 0 <= k < |ns| ==> StartsWith(ns[k], UnitPrefix)
      ensures r.Ok? <==> LeadingUnitNames(ns) == |ns|
      ensures r.Err? ==> r.error == AssertionError
      ensures r.Ok? && |ns| > 0 ==> fileExists && table == MarkEach(old(Current()), ns, s)
      ensures LeadingUnitNames(ns) > 0 ==> fileExists && table == MarkEach(old(Current()), ns[..LeadingUnitNames(ns)], s)
      ensures LeadingUnitNames(ns) == 0 ==> fileExists == old(fileExists) && table == old(table)
    {
      ghost var t0 := Current();
      var k := 0;
      while k < |ns|
        invariant 0 <= k <= |ns|
        invariant forall m :: 0 <= m < k ==> StartsWith(ns[m], UnitPrefix)
        invariant Current() == MarkEach(t0, ns[..k], s)
        invariant k > 0 ==> fileExists
        invariant k == 0 ==> fileExists == old(fileExists) && table == old(table)
      {
        var ok := MarkNameStep(ns, k, s, t0);
        if !ok {
          return Err(AssertionError);
        }
        k := k + 1;
      }
      assert ns[..|ns|] == ns;
      r := Ok(());
    }

    /** One turn of MarkNames: name `k` is marked on top of the names
        before it, or the registry stays as it was. */
    method MarkNameStep(ns: seq<string>, k: nat, s: string, ghost t0: seq<Entry>) returns (ok: bool)
      modifies this
      requires k < |ns|
      requires Current() == MarkEach(t0, ns[..k], s)
      ensures ok <==> StartsWith(ns[k], UnitPrefix)
      ensures ok ==> fileExists && table == MarkEach(t0, ns[..k + 1], s)
      ensures !ok ==> fileExists == old(fileExists) && table == old(table)
    {
      var step := MarkUnit(Str(ns[k]), s);
      ok := step.Ok?;
      if ok {
        MarkEachSnoc(t0, ns[..k], ns[k], s);
        assert ns[..k + 1] == ns[..k] + [ns[k]];
      }
    }

    /** `MarkAccessibleUnitsUp`: a fleet-wide "status" request, quiet and
        waiting for the replies, then the marking of its reply table. A
        failed request raises before anything is marked. */
    method MarkAccessibleUnitsUp(fleet: seq<Unit>, net: Network)
      returns (r: Result<()>, ghost res: Result<Outcome>, ghost elapsedMs: nat)
      modifies this
      ensures Dispatched(fleet, AccessRequest(), net, res, elapsedMs)
      ensures res.Err? ==> r == Err(res.error) && fileExists == old(fileExists) && table == old(table)
      ensures res.Ok? ==> res.value.Summary? && MarkedReplies(old(fileExists), old(Current()), fileExists, table, res.value.rows, r)
    {
      var out, e := SendWebRequestNB(fleet, AccessRequest(), net);
      res, elapsedMs := out, e;
      if out.Err? {
        return Err(out.error), res, elapsedMs;
      }
      DispatchedShape(fleet, AccessRequest(), net, out, e);
      r := MarkReplies(out.value.rows);
    }

    /** The marking half of `MarkAccessibleUnitsUp`, over the reply table:
        the units whose summary is SUCCESS are marked UP, then every other
        routed unit (failed, down or still pending) is marked DOWN. */
    method MarkReplies(rows: seq<SummaryRow>) returns (r: Result<()>)
      modifies this
      ensures MarkedReplies(old(fileExists), old(Current()), fileExists, table, rows, r)
    {
      var ups := RowNames(rows, true);
      var downs := RowNames(rows, false);
      var r1 := MarkNames(ups, Up);
      if r1.Err? {
        var k :| 0 <= k < |ups| && !StartsWith(ups[k], UnitPrefix);
        assert ups[k] in ups;
        return Err(AssertionError);
      }
      ghost var mid := table;
      ghost var midExists := fileExists;
      var r2 := MarkNames(downs, Down);
      if r2.Err? {
        var k :| 0 <= k < |downs| && !StartsWith(downs[k], UnitPrefix);
        assert downs[k] in downs;
        return Err(AssertionError);
      }
      forall i | 0 <= i < |rows| ensures StartsWith(rows[i].name, UnitPrefix) {
        if rows[i].summary == Success {
          assert rows[i].name in ups;
        } else {
          assert rows[i].name in downs;
        }
      }
      if |rows| > 0 {
        if rows[0].summary == Success {
          assert rows[0].name in ups;
        } else {
          assert rows[0].name in downs;
        }
        if |ups| == 0 {
          assert MarkEach(old(Current()), ups, Up) == old(Current());
        }
      }
      r := Ok(());
    }

    /** `MarkAllUnitsUp`: every row becomes UP. */
    method MarkAllUnitsUp()
      modifies this
      ensures fileExists && table == AllWithStatus(old(Current()), Up)
    {
      if !fileExists {
        InitializeHardwareStatus();
      }
      table := AllWithStatus(table, Up);
    }

    /** `MarkAllUnitsDown`: every row becomes "Down" (see AllDownIsInvisible). */
    method MarkAllUnitsDown()
      modifies this
      ensures fileExists && table == AllWithStatus(old(Current()), DownMixedCase)
    {
      if !fileExists {
        InitializeHardwareStatus();
      }
      table := AllWithStatus(table, DownMixedCase);
    }

    /** `get_status`: reading a missing file is a FileNotFoundError; "all"
        (exact) is the table; "up", "down" and "viz" in any letter case are
        the up names, the down names, and the printed map, which fails with
        a KeyError when one of Dragonfly301..310 is neither up nor down; any
        other selector is an AssertionError. Without `return_units` nothing
        is returned. */
    function GetStatus(which: string, returnUnits: bool): (r: Result<StatusReply>)
      reads this
      ensures !fileExists <==> r == Err(FileNotFoundError)
      ensures fileExists && which == "all" ==> r == Ok(if returnUnits then Table(table) else NoValue)
      ensures fileExists && which != "all" && ToUpper(which) == "UP" ==>
        r == Ok(if returnUnits then Units(NamesWithStatus(table, Up)) else NoValue)
      ensures fileExists && which != "all" && ToUpper(which) == "DOWN" ==>
        r == Ok(if returnUnits then Units(NamesWithStatus(table, Down)) else NoValue)
      ensures fileExists && which != "all" && ToUpper(which) == "VIZ" ==>
        (r == Err(KeyError) <==>
           (exists k :: 0 <= k < 10 && UnitName(k) !in NamesWithStatus(table, Up) && UnitName(k) !in NamesWithStatus(table, Down))) &&
        (r.Ok? ==> r.value == NoValue)
      ensures (fileExists && which != "all" && ToUpper(which) != "UP" && ToUpper(which) != "DOWN" &&
               ToUpper(which) != "VIZ") ==> r == Err(AssertionError)
    {
      if !fileExists then Err(FileNotFoundError)
      else
        var up := NamesWithStatus(table, Up);
        var down := NamesWithStatus(table, Down);
        if which == "all" then Ok(if returnUnits then Table(table) else NoValue)
        else if ToUpper(which) == "UP" then Ok(if returnUnits then Units(up) else NoValue)
        else if ToUpper(which) == "DOWN" then Ok(if returnUnits then Units(down) else NoValue)
        else if ToUpper(which) == "VIZ" then
          if exists k :: 0 <= k < 10 && UnitName(k) !in up && UnitName(k) !in down then Err(KeyError)
          else Ok(NoValue)
        else Err(AssertionError)
    }

    /** The skip list every caller reads: `get_status(which="down")`. */
    function DownList(): (r: Result<seq<string>>)
      reads this
      ensures r.Ok? <==> fileExists
      ensures r.Ok? ==> forall n :: n in r.value <==> exists i :: 0 <= i < |table| && table[i].name == n && table[i].status == Down
    {
      if fileExists then Ok(NamesWithStatus(table, Down)) else Err(FileNotFoundError)
    }

    /** The skip list is what `GetStatus("down", True)` returns. */
    lemma DownListIsGetStatus()
      ensures var g := GetStatus("down", true);
        DownList() == if g.Ok? then Ok(g.value.names) else Err(g.error)
    {
      assert ToUpper("down") == "DOWN";
    }
  }

  /** Marking `a`, then `b`, is marking `a + b`. */
  lemma MarkEachConcat(t: seq<Entry>, a: seq<string>, b: seq<string>, s: string)
    ensures MarkEach(MarkEach(t, a, s), b, s) == MarkEach(t, a + b, s)
  {
    var x, y := MarkEach(MarkEach(t, a, s), b, s), MarkEach(t, a + b, s);
    assert forall n :: n in a + b <==> n in a || n in b;
    assert forall i :: 0 <= i < |t| ==> x[i] == y[i];
  }

  /** Marks depend only on which names are listed, not on their order or
      repetitions. */
  lemma MarkEachSameNames(t: seq<Entry>, a: seq<string>, b: seq<string>, s: string)
    requires forall n :: n in a <==> n in b
    ensures MarkEach(t, a, s) == MarkEach(t, b, s)
  {
    var x, y := MarkEach(t, a, s), MarkEach(t, b, s);
    assert forall i :: 0 <= i < |t| ==> x[i] == y[i];
  }

  lemma {:induction false} MarkEachSnoc(t: seq<Entry>, ns: seq<string>, n: string, s: string)
    ensures MarkEach(t, ns + [n], s) == WithStatus(MarkEach(t, ns, s), n, s)
  {
    var a := MarkEach(t, ns + [n], s);
    var b := WithStatus(MarkEach(t, ns, s), n, s);
    assert forall x :: x in ns + [n] <==> x in ns || x == n;
    assert forall i :: 0 <= i < |t| ==> a[i] == b[i];
  }
}
