/**
  The fleet command router: which unit receives which command for one web
  request. A base command goes to the units a `which` selector picks; the
  flat-having command and the per-filter commands then overwrite it in a
  fixed order; the resulting table is sorted by IP address and the skipped
  units are removed.
 */
module Router {
  import opened Base
  import opened Fleet

  /** The keyword arguments of one web request to the fleet. */
  datatype Request = Request(
    command: Option<string>,
    which: string,
    skip: seq<string>,
    ha: Option<string>,
    oiii: Option<string>,
    haOff: Option<string>,
    oiiiOff: Option<string>,
    oh: Option<string>,
    ohOff: Option<string>,
    flatHaving: Option<string>,
    verbose: bool,
    waitForResponse: bool,
    timeoutGlobal: int,
    timeoutSeconds: int,
    dryrun: bool,
    requestType: Option<string>,
    readoutTime: Option<int>)

  /** A request with every keyword at its default value. */
  const Defaults: Request := Request(None, "all", [], None, None, None, None, None, None, None,
                                     true, true, 120, 10, false, None, None)

  /** One row of the routed table (columns Name, ip, command). */
  datatype Routed = Routed(name: string, ip: string, command: string)

  // ----------------------------------------------------------- selection

  predicate ValidWhich(which: string)
  {
    which == "all" || which == "science" || which == "science offs" ||
    which == "OH" || which == "halpha" || which == "oiii"
  }

  /** The rows a `which` selector picks for the base command. */
  predicate Selects(which: string, f: string)
  {
    if which == "all" then true
    else if which == "science" then IsScience(f)
    else if which == "science offs" then IsScienceOff(f)
    else if which == "OH" then IsOHPair(f)
    else if which == "halpha" then IsHalpha(f)
    else if which == "oiii" then IsOiii(f)
    else false
  }

  /** Reference definition of the command a unit with filter `f` ends up
      with: the LAST applicable assignment wins, so the overrides are
      consulted from the last one applied back to the base command. */
  function Assigned(req: Request, f: string): Option<string>
  {
    if req.ohOff.Some? && IsOHOff(f) then req.ohOff
    else if req.oh.Some? && IsOH(f) then req.oh
    else if req.oiiiOff.Some? && IsOiiiOff(f) then req.oiiiOff
    else if req.haOff.Some? && IsHalphaOff(f) then req.haOff
    else if req.oiii.Some? && IsOiii(f) then req.oiii
    else if req.ha.Some? && IsHalpha(f) then req.ha
    else if req.flatHaving.Some? && IsFlatHaving(f) then req.flatHaving
    else if req.command.Some? && Selects(req.which, f) then req.command
    else None
  }

  /** The command column over a fleet table, one entry per row. */
  function Column(fleet: seq<Unit>, req: Request): (col: seq<Option<string>>)
    ensures |col| == |fleet|
    ensures forall i :: 0 <= i < |fleet| ==> col[i] == Assigned(req, fleet[i].filter)
  {
    seq(|fleet|, i requires 0 <= i < |fleet| => Assigned(req, fleet[i].filter))
  }

  /** One overwrite pass: when `cmd` is given, every row whose filter `sel`
      picks gets `cmd`; all other rows keep what they had. */
  method OverwritePass(col: seq<Option<string>>, fleet: seq<Unit>, sel: string -> bool, cmd: Option<string>)
    returns (out: seq<Option<string>>)
    requires |col| == |fleet|
    ensures |out| == |fleet|
    ensures forall i :: 0 <= i < |fleet| ==>
      out[i] == (if cmd.Some? && sel(fleet[i].filter) then cmd else col[i])
  {
    out := col;
    if cmd.None? {
      return;
    }
    var i := 0;
    while i < |fleet|
      invariant 0 <= i <= |fleet|
      invariant |out| == |fleet|
      invariant forall k :: 0 <= k < i ==> out[k] == (if sel(fleet[k].filter) then cmd else col[k])
      invariant forall k :: i <= k < |fleet| ==> out[k] == col[k]
    {
      if sel(fleet[i].filter) {
        out := out[i := cmd];
      }
      i := i + 1;
    }
  }

  /** Fills the command column the way the request handler does: the base
      command for the `which` rows, then the flat-having command, then the
      ha, oiii, ha-off, oiii-off, OH and OH-off commands, each pass
      overwriting the rows of its own group. The result is the reference
      column: the last applicable command wins. */
  method FillCommands(fleet: seq<Unit>, req: Request) returns (col: seq<Option<string>>)
    ensures col == Column(fleet, req)
  {
    col := seq(|fleet|, i => None);
    col := OverwritePass(col, fleet, f => Selects(req.which, f), req.command);
    col := OverwritePass(col, fleet, IsFlatHaving, req.flatHaving);
    col := OverwritePass(col, fleet, IsHalpha, req.ha);
    col := OverwritePass(col, fleet, IsOiii, req.oiii);
    col := OverwritePass(col, fleet, IsHalphaOff, req.haOff);
    col := OverwritePass(col, fleet, IsOiiiOff, req.oiiiOff);
    col := OverwritePass(col, fleet, IsOH, req.oh);
    col := OverwritePass(col, fleet, IsOHOff, req.ohOff);
  }

  /** The rows that received a command, in fleet order. */
  function Entries(fleet: seq<Unit>, col: seq<Option<string>>): (es: seq<Routed>)
    requires |col| == |fleet|
    ensures |es| <= |fleet|
    ensures forall e :: e in es <==>
      exists i :: 0 <= i < |fleet| && col[i].Some? && e == Routed(fleet[i].name, fleet[i].ip, col[i].value)
    ensures es == [] <==> forall i :: 0 <= i < |fleet| ==> col[i].None?
  {
    if fleet == [] then []
    else
      var rest := Entries(fleet[1..], col[1..]);
      assert forall i :: 1 <= i < |fleet| ==> fleet[1..][i - 1] == fleet[i] && col[1..][i - 1] == col[i];
      if col[0].Some? then [Routed(fleet[0].name, fleet[0].ip, col[0].value)] + rest else rest
  }

  // ---------------------------------------------------- ordering by address

  /** Python's string order: lexicographic by character. */
  predicate StrLe(a: string, b: string)
    decreases |a|
  {
    |a| == 0 || (|b| > 0 && (a[0] < b[0] || (a[0] == b[0] && StrLe(a[1..], b[1..]))))
  }

  lemma {:induction false} StrLeTotal(a: string, b: string)
    ensures StrLe(a, b) || StrLe(b, a)
    decreases |a|
  {
    if |a| > 0 && |b| > 0 && a[0] == b[0] {
      StrLeTotal(a[1..], b[1..]);
    }
  }

  lemma {:induction false} StrLeTrans(a: string, b: string, c: string)
    requires StrLe(a, b) && StrLe(b, c)
    ensures StrLe(a, c)
    decreases |a|
  {
    if |a| > 0 && a[0] == b[0] && b[0] == c[0] {
      StrLeTrans(a[1..], b[1..], c[1..]);
    }
  }

  predicate SortedByIp(s: seq<Routed>)
  {
    forall i, j :: 0 <= i < j < |s| ==> StrLe(s[i].ip, s[j].ip)
  }

  /** Inserts `x` into an address-sorted table. */
  function Insert(x: Routed, s: seq<Routed>): (r: seq<Routed>)
    ensures multiset(r) == multiset(s) + multiset{x}
    ensures SortedByIp(s) ==> SortedByIp(r)
  {
    if s == [] then [x]
    else if StrLe(x.ip, s[0].ip) then
      InsertFront(x, s);
      [x] + s
    else
      var rest := Insert(x, s[1..]);
      assert s == [s[0]] + s[1..];
      InsertBehind(x, s, rest);
      [s[0]] + rest
  }

  /** A row no higher than the head of a sorted table goes in front of it. */
  lemma InsertFront(x: Routed, s: seq<Routed>)
    requires s != [] && StrLe(x.ip, s[0].ip)
    ensures SortedByIp(s) ==> SortedByIp([x] + s)
  {
    if SortedByIp(s) {
      forall e | e in s ensures StrLe(x.ip, e.ip) {
        var k :| 0 <= k < |s| && s[k] == e;
        if k > 0 { StrLeTrans(x.ip, s[0].ip, e.ip); }
      }
      SortedCons(x, s);
    }
  }

  /** A row above the head of a sorted table goes into its tail; the head
      stays in front of the tail with the row inserted. */
  lemma InsertBehind(x: Routed, s: seq<Routed>, rest: seq<Routed>)
    requires s != [] && !StrLe(x.ip, s[0].ip)
    requires multiset(rest) == multiset(s[1..]) + multiset{x}
    requires SortedByIp(s[1..]) ==> SortedByIp(rest)
    ensures SortedByIp(s) ==> SortedByIp([s[0]] + rest)
  {
    if SortedByIp(s) {
      SortedTail(s);
      StrLeTotal(x.ip, s[0].ip);
      forall e | e in rest ensures StrLe(s[0].ip, e.ip) {
        assert e in multiset(rest);
        if e != x {
          assert e in multiset(s[1..]);
          assert e in s[1..];
        }
      }
      SortedCons(s[0], rest);
    }
  }

  /** `sort_values(by="ip")`: the table ordered by address; the rows are a
      permutation of the input. */
  function SortByIp(s: seq<Routed>): (r: seq<Routed>)
    ensures SortedByIp(r)
    ensures multiset(r) == multiset(s)
  {
    if s == [] then []
    else
      assert s == [s[0]] + s[1..];
      Insert(s[0], SortByIp(s[1..]))
  }

  /** A table already in address order is left as it is. */
  lemma {:induction false} SortSortedIdentity(s: seq<Routed>)
    requires SortedByIp(s)
    ensures SortByIp(s) == s
  {
    if s != [] {
      assert SortedByIp(s[1..]) by {
        forall i, j | 0 <= i < j < |s[1..]| ensures StrLe(s[1..][i].ip, s[1..][j].ip) {
          assert s[1..][i] == s[i + 1] && s[1..][j] == s[j + 1];
        }
      }
      SortSortedIdentity(s[1..]);
      if |s| > 1 {
        assert StrLe(s[0].ip, s[1..][0].ip);
      }
      assert [s[0]] + s[1..] == s;
    }
  }

  /** Drops the rows whose Name is in `skip`, keeping the order. */
  function RemoveSkipped(s: seq<Routed>, skip: seq<string>): (r: seq<Routed>)
    ensures forall e :: e in r <==> e in s && e.name !in skip
    ensures SortedByIp(s) ==> SortedByIp(r)
    ensures |r| <= |s|
  {
    if s == [] then []
    else
      var rest := RemoveSkipped(s[1..], skip);
      assert s == [s[0]] + s[1..];
      SortedTail(s);
      if s[0].name in skip then rest
      else
        SortedCons(s[0], rest);
        [s[0]] + rest
  }

  /** The tail of a sorted table is sorted and no lower than its head. */
  lemma SortedTail(s: seq<Routed>)
    requires s != []
    ensures SortedByIp(s) ==> SortedByIp(s[1..]) && forall e :: e in s[1..] ==> StrLe(s[0].ip, e.ip)
  {
    if SortedByIp(s) {
      forall i, j | 0 <= i < j < |s[1..]| ensures StrLe(s[1..][i].ip, s[1..][j].ip) {
        assert s[1..][i] == s[i + 1] && s[1..][j] == s[j + 1];
      }
      forall e | e in s[1..] ensures StrLe(s[0].ip, e.ip) {
        var k :| 0 <= k < |s[1..]| && s[1..][k] == e;
        assert s[k + 1] == e;
      }
    }
  }

  /** A row no higher than every row of a sorted table can go in front. */
  lemma SortedCons(x: Routed, rest: seq<Routed>)
    ensures SortedByIp(rest) && (forall e :: e in rest ==> StrLe(x.ip, e.ip)) ==> SortedByIp([x] + rest)
  {
    if SortedByIp(rest) && (forall e :: e in rest ==> StrLe(x.ip, e.ip)) {
      var t := [x] + rest;
      forall i, j | 0 <= i < j < |t| ensures StrLe(t[i].ip, t[j].ip) {
        assert t[j] == rest[j - 1];
        if i == 0 {
          assert t[j] in rest;
        } else {
          assert t[i] == rest[i - 1];
        }
      }
    }
  }

  /** Count of the rows of `s` equal to `e`, through the removal. */
  lemma {:induction false} RemoveSkippedCounts(s: seq<Routed>, skip: seq<string>, e: Routed)
    ensures multiset(RemoveSkipped(s, skip))[e] == (if e.name in skip then 0 else multiset(s)[e])
  {
    if s != [] {
      var x, tail := s[0], s[1..];
      var rest := RemoveSkipped(tail, skip);
      RemoveSkippedCounts(tail, skip, e);
      assert s == [x] + tail;
      assert multiset(s) == multiset([x]) + multiset(tail);
      if x.name !in skip {
        assert RemoveSkipped(s, skip) == [x] + rest;
        assert multiset([x] + rest) == multiset([x]) + multiset(rest);
      } else {
        assert RemoveSkipped(s, skip) == rest;
      }
    }
  }

  /** A common prefix does not change the order of two addresses. */
  lemma {:induction false} StrLeCommonPrefix(p: string, a: string, b: string)
    requires StrLe(a, b)
    ensures StrLe(p + a, p + b)
    decreases |p|
  {
    if p != [] {
      StrLeCommonPrefix(p[1..], a, b);
      assert (p + a)[1..] == p[1..] + a && (p + b)[1..] == p[1..] + b;
    } else {
      assert p + a == a && p + b == b;
    }
  }

  /** The rows at positions `at` of the fleet table, with their commands. */
  function RowsAt(fleet: seq<Unit>, col: seq<Option<string>>, at: seq<nat>): (t: seq<Routed>)
    requires |col| == |fleet|
    requires forall k :: 0 <= k < |at| ==> at[k] < |fleet| && col[at[k]].Some?
    ensures |t| == |at|
  {
    seq(|at|, k requires 0 <= k < |at| => Routed(fleet[at[k]].name, fleet[at[k]].ip, col[at[k]].value))
  }

  /** `at` lists, in increasing order, exactly the assigned positions. */
  predicate AssignedAt(col: seq<Option<string>>, at: seq<nat>)
  {
    (forall k :: 0 <= k < |at| ==> at[k] < |col|) &&
    (forall k, l :: 0 <= k < l < |at| ==> at[k] < at[l]) &&
    (forall i :: 0 <= i < |col| ==> (col[i].Some? <==> i in at))
  }

  /** The entry table lists exactly the assigned rows, in table order. */
  lemma {:induction false} EntriesInOrder(fleet: seq<Unit>, col: seq<Option<string>>, at: seq<nat>)
    requires |col| == |fleet|
    requires AssignedAt(col, at)
    ensures forall k :: 0 <= k < |at| ==> col[at[k]].Some?
    ensures Entries(fleet, col) == RowsAt(fleet, col, at)
    decreases |fleet|, 1
  {
    assert forall k :: 0 <= k < |at| ==> col[at[k]].Some? by {
      forall k | 0 <= k < |at| ensures col[at[k]].Some? {
        assert at[k] in at;
      }
    }
    if fleet == [] {
      PositionsBound(at, |col|);
    } else if col[0].Some? {
      EntriesInOrderHead(fleet, col, at);
    } else {
      EntriesInOrderSkip(fleet, col, at);
    }
  }

  /** The positions after `drop` leading ones, each moved one row up. */
  function Shifted(at: seq<nat>, drop: nat): (s: seq<nat>)
    requires drop <= |at|
    requires forall k :: drop <= k < |at| ==> at[k] > 0
    ensures |s| == |at| - drop && forall k :: 0 <= k < |s| ==> s[k] == at[k + drop] - 1
  {
    seq(|at| - drop, k requires 0 <= k < |at| - drop => at[k + drop] - 1)
  }

  /** Strictly increasing positions below `n` number at most `n`. */
  lemma {:induction false} PositionsBound(at: seq<nat>, n: nat)
    requires forall k :: 0 <= k < |at| ==> at[k] < n
    requires forall k, l :: 0 <= k < l < |at| ==> at[k] < at[l]
    ensures |at| <= n
    decreases |at|
  {
    if at != [] {
      var last := |at| - 1;
      PositionsBound(at[..last], at[last]);
    }
  }

  /** When the first row is assigned, the first position is 0 and the
      others, moved one row up, are the assigned positions of the rest. */
  lemma ShiftedAssignedHead(col: seq<Option<string>>, at: seq<nat>)
    requires col != [] && col[0].Some? && AssignedAt(col, at)
    ensures at != [] && at[0] == 0
    ensures AssignedAt(col[1..], Shifted(at, 1))
  {
    assert 0 in at;
    var k0 :| 0 <= k0 < |at| && at[k0] == 0;
    assert at[0] <= at[k0];
    var s := Shifted(at, 1);
    forall i | 0 <= i < |col| - 1 && i + 1 in at ensures i in s {
      var k :| 0 <= k < |at| && at[k] == i + 1;
      assert s[k - 1] == i;
    }
    forall i | 0 <= i < |col| - 1 && i in s ensures i + 1 in at {
      var k :| 0 <= k < |s| && s[k] == i;
      assert at[k + 1] == i + 1;
    }
    assert forall i :: 0 <= i < |col| - 1 ==> col[1..][i] == col[i + 1];
  }

  /** When the first row is not assigned, every position, moved one row
      up, is an assigned position of the rest. */
  lemma ShiftedAssignedSkip(col: seq<Option<string>>, at: seq<nat>)
    requires col != [] && col[0].None? && AssignedAt(col, at)
    ensures forall k :: 0 <= k < |at| ==> at[k] > 0
    ensures AssignedAt(col[1..], Shifted(at, 0))
  {
    forall k | 0 <= k < |at| ensures at[k] > 0 {
      assert at[k] in at;
    }
    var s := Shifted(at, 0);
    forall i | 0 <= i < |col| - 1 && i + 1 in at ensures i in s {
      var k :| 0 <= k < |at| && at[k] == i + 1;
      assert s[k] == i;
    }
    forall i | 0 <= i < |col| - 1 && i in s ensures i + 1 in at {
      var k :| 0 <= k < |s| && s[k] == i;
      assert at[k] == i + 1;
    }
    assert forall i :: 0 <= i < |col| - 1 ==> col[1..][i] == col[i + 1];
  }

  /** Past `drop` leading positions, the rows at `at` are the rows of the
      rest of the table at the shifted positions. */
  lemma RowsAtShifted(fleet: seq<Unit>, col: seq<Option<string>>, at: seq<nat>, drop: nat)
    requires |col| == |fleet| && fleet != [] && drop <= |at|
    requires forall k :: 0 <= k < |at| ==> at[k] < |fleet| && col[at[k]].Some?
    requires forall k :: drop <= k < |at| ==> at[k] > 0
    ensures forall k :: 0 <= k < |at| - drop ==> Shifted(at, drop)[k] < |fleet| - 1 && col[1..][Shifted(at, drop)[k]].Some?
    ensures RowsAt(fleet, col, at)[drop..] == RowsAt(fleet[1..], col[1..], Shifted(at, drop))
  {
    var s := Shifted(at, drop);
    var whole := RowsAt(fleet, col, at);
    var rest := RowsAt(fleet[1..], col[1..], s);
    forall k | 0 <= k < |rest| ensures whole[drop..][k] == rest[k] {
      assert fleet[1..][s[k]] == fleet[at[k + drop]] && col[1..][s[k]] == col[at[k + drop]];
    }
  }

  lemma {:induction false} EntriesInOrderHead(fleet: seq<Unit>, col: seq<Option<string>>, at: seq<nat>)
    requires |col| == |fleet| && fleet != [] && col[0].Some?
    requires AssignedAt(col, at)
    requires forall k :: 0 <= k < |at| ==> col[at[k]].Some?
    ensures Entries(fleet, col) == RowsAt(fleet, col, at)
    decreases |fleet|, 0
  {
    ShiftedAssignedHead(col, at);
    EntriesInOrder(fleet[1..], col[1..], Shifted(at, 1));
    RowsAtShifted(fleet, col, at, 1);
    var whole := RowsAt(fleet, col, at);
    var head := Routed(fleet[0].name, fleet[0].ip, col[0].value);
    assert Entries(fleet, col) == [head] + Entries(fleet[1..], col[1..]);
    assert whole[0] == head;
    assert whole == [whole[0]] + whole[1..];
  }

  lemma {:induction false} EntriesInOrderSkip(fleet: seq<Unit>, col: seq<Option<string>>, at: seq<nat>)
    requires |col| == |fleet| && fleet != [] && col[0].None?
    requires AssignedAt(col, at)
    requires forall k :: 0 <= k < |at| ==> col[at[k]].Some?
    ensures Entries(fleet, col) == RowsAt(fleet, col, at)
    decreases |fleet|, 0
  {
    ShiftedAssignedSkip(col, at);
    EntriesInOrder(fleet[1..], col[1..], Shifted(at, 0));
    RowsAtShifted(fleet, col, at, 0);
    assert RowsAt(fleet, col, at)[0..] == RowsAt(fleet, col, at);
  }

  /** A fleet table listed in address order yields its rows in address
      order. */
  lemma {:induction false} EntriesKeepOrder(fleet: seq<Unit>, col: seq<Option<string>>)
    requires |col| == |fleet|
    requires forall i, j :: 0 <= i < j < |fleet| ==> StrLe(fleet[i].ip, fleet[j].ip)
    ensures SortedByIp(Entries(fleet, col))
    decreases |fleet|
  {
    if fleet != [] {
      var rest := Entries(fleet[1..], col[1..]);
      assert forall i :: 1 <= i < |fleet| ==> fleet[1..][i - 1] == fleet[i];
      EntriesKeepOrder(fleet[1..], col[1..]);
      if col[0].Some? {
        var es := [Routed(fleet[0].name, fleet[0].ip, col[0].value)] + rest;
        assert Entries(fleet, col) == es;
        forall i, j | 0 <= i < j < |es| ensures StrLe(es[i].ip, es[j].ip) {
          if i == 0 {
            assert es[j] in rest;
          } else {
            assert es[i] == rest[i - 1] && es[j] == rest[j - 1];
          }
        }
      }
    }
  }

  /** Removing no names keeps the table. */
  lemma {:induction false} RemoveNothing(s: seq<Routed>)
    ensures RemoveSkipped(s, []) == s
  {
    if s != [] {
      RemoveNothing(s[1..]);
      assert [s[0]] + s[1..] == s;
    }
  }

  // ---------------------------------------------------------------- route

  /** The routed table of a request over a fleet table: an unknown `which`
      with a base command is an AssertionError; a request that assigns no
      command to any row is a KeyError (the empty table has no "ip" column
      to sort by); otherwise the assigned rows, sorted by address, without
      the skipped units. */
  function Routing(fleet: seq<Unit>, req: Request): (r: Result<seq<Routed>>)
    ensures r == Err(AssertionError) <==> req.command.Some? && !ValidWhich(req.which)
    ensures r == Err(KeyError) <==>
      (req.command.None? || ValidWhich(req.which)) &&
      forall i :: 0 <= i < |fleet| ==> Assigned(req, fleet[i].filter).None?
    ensures r.Ok? ==> SortedByIp(r.value)
    ensures r.Ok? ==> forall e :: e in r.value <==>
      e.name !in req.skip &&
      exists i :: 0 <= i < |fleet| && Assigned(req, fleet[i].filter) == Some(e.command) &&
                  e.name == fleet[i].name && e.ip == fleet[i].ip
  {
    if req.command.Some? && !ValidWhich(req.which) then Err(AssertionError)
    else
      var col := Column(fleet, req);
      var es := Entries(fleet, col);
      if es == [] then Err(KeyError)
      else
        var sorted := SortByIp(es);
        assert forall e :: e in sorted <==> e in es by {
          forall e ensures e in sorted <==> e in es {
            assert e in sorted <==> e in multiset(sorted);
            assert e in es <==> e in multiset(es);
          }
        }
        Ok(RemoveSkipped(sorted, req.skip))
  }

  /** Every unit that is assigned a command and not skipped appears in the
      routed table exactly as many times as it has rows in the fleet table,
      so a fleet with distinct rows sends each selected unit one command. */
  lemma RoutingIsPermutation(fleet: seq<Unit>, req: Request, e: Routed)
    requires Routing(fleet, req).Ok?
    ensures multiset(Routing(fleet, req).value)[e] ==
      (if e.name in req.skip then 0 else multiset(Entries(fleet, Column(fleet, req)))[e])
  {
    var es := Entries(fleet, Column(fleet, req));
    RemoveSkippedCounts(SortByIp(es), req.skip, e);
  }

  /** The routing handler: fills the command column pass by pass, then sorts
      and filters the table. It computes exactly `Routing`. */
  method Route(fleet: seq<Unit>, req: Request) returns (r: Result<seq<Routed>>)
    ensures r == Routing(fleet, req)
  {
    if req.command.Some? && !ValidWhich(req.which) {
      return Err(AssertionError);
    }
    var col := FillCommands(fleet, req);
    var es := Entries(fleet, col);
    if es == [] {
      return Err(KeyError);
    }
    r := Ok(RemoveSkipped(SortByIp(es), req.skip));
  }

  /** When the assigned rows are already in address order and nothing is
      skipped, the routed table is exactly the assigned rows in fleet order. */
  lemma RoutingIsEntries(fleet: seq<Unit>, req: Request)
    requires req.command.None? || ValidWhich(req.which)
    requires req.skip == []
    requires Entries(fleet, Column(fleet, req)) != []
    requires SortedByIp(Entries(fleet, Column(fleet, req)))
    ensures Routing(fleet, req) == Ok(Entries(fleet, Column(fleet, req)))
  {
    var es := Entries(fleet, Column(fleet, req));
    SortSortedIdentity(es);
    RemoveNothing(es);
  }
}
