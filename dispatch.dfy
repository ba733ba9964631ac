/**
  Sending a routed table to the fleet and waiting for it: every unit's first
  reply is classified (an error code or a body that leaves the row PENDING),
  then, when the caller waits, the pending units are polled with "status"
  until none is pending or the global timeout passes. Device replies and the
  time each poll takes are oracles supplied by the caller.
 */
module Dispatch {
  import opened Base
  import opened Fleet
  import opened Router

  /** The fields of a decoded unit reply that the package reads. */
  datatype Reply = Reply(
    activityAny: bool,
    calculationInProgress: bool,
    calculationErrorHasOccurred: bool,
    bias: string,
    readNoise: string,
    focuserCheckResult: Option<string>,
    currentTemperature: real,
    filterAngle: real,
    rawAngle: real,
    zeropointAngle: real)

  /** What the transport makes of one request: an HTTP error, an URL error,
      any other failure, or a delivered body. */
  datatype Transport = HttpFailure | UrlFailure | OtherFailure | Delivered(reply: Reply)

  /** The second element of SendCommand's result: an error code or a body. */
  datatype Full = Code(code: int) | Body(reply: Reply)

  /** The device oracles of one request to the fleet: the reply to the
      command sent to an address, the reply to the status poll of an address
      in a given sweep, and the milliseconds that poll takes. */
  datatype Network = Network(
    send: (string, string) -> Transport,
    poll: (nat, string) -> Transport,
    lag: (nat, string) -> nat)

  /** One row of the response table. */
  datatype SummaryRow = SummaryRow(name: string, ip: string, command: string, summary: string, full: Full)

  /** A dry run returns the routed table; otherwise the response table. */
  datatype Outcome = DryRun(table: seq<Routed>) | Summary(rows: seq<SummaryRow>)

  const NotRecognized: string := "Command Not Recognized (HTTP err)"
  const MachineDownUrl: string := "Machine Down (URL err)"
  const UnknownError: string := "Unknown Error"
  const Pending: string := "PENDING"
  const Success: string := "SUCCESS"
  const MachineDown: string := "Machine Down"

  /** SendCommand: an HTTP error is code 0, an URL error code 1, any other
      failure code 2, and a delivered reply is passed on as the body. */
  function SendCommand(t: Transport): (f: Full)
    ensures f.Code? <==> !t.Delivered?
    ensures f.Code? ==> 0 <= f.code <= 2
    ensures t.HttpFailure? <==> f == Code(0)
    ensures t.UrlFailure? <==> f == Code(1)
    ensures t.Delivered? ==> f == Body(t.reply)
  {
    match t
    case HttpFailure => Code(0)
    case UrlFailure => Code(1)
    case OtherFailure => Code(2)
    case Delivered(rep) => Body(rep)
  }

  /** The response summary of a first reply: only a body leaves a row
      pending; the three error codes get three distinct summaries, none of
      which is a poll outcome. */
  function Classify(f: Full): (s: string)
    ensures s == Pending <==> f.Body?
    ensures f == Code(0) ==> s == NotRecognized
    ensures f == Code(1) ==> s == MachineDownUrl
    ensures f.Code? && f.code != 0 && f.code != 1 ==> s == UnknownError
    ensures s != Success && s != MachineDown
  {
    match f
    case Body(_) => Pending
    case Code(c) =>
      if c == 0 then NotRecognized else if c == 1 then MachineDownUrl else UnknownError
  }

  /** The response table right after the commands are sent: the routed rows
      in order, each with its first reply and the summary of that reply. */
  function InitialRows(table: seq<Routed>, net: Network): (rows: seq<SummaryRow>)
    ensures |rows| == |table|
    ensures forall i :: 0 <= i < |table| ==>
      rows[i].name == table[i].name && rows[i].ip == table[i].ip && rows[i].command == table[i].command &&
      rows[i].full == SendCommand(net.send(table[i].ip, table[i].command)) &&
      rows[i].summary == Classify(rows[i].full)
  {
    seq(|table|, i requires 0 <= i < |table| =>
      var f := SendCommand(net.send(table[i].ip, table[i].command));
      SummaryRow(table[i].name, table[i].ip, table[i].command, Classify(f), f))
  }

  /** Sends each routed row's command in table order and records the replies. */
  method SendAll(table: seq<Routed>, net: Network) returns (rows: seq<SummaryRow>)
    ensures rows == InitialRows(table, net)
  {
    rows := [];
    var i := 0;
    while i < |table|
      invariant 0 <= i <= |table|
      invariant rows == InitialRows(table[..i], net)
    {
      var f := SendCommand(net.send(table[i].ip, table[i].command));
      rows := rows + [SummaryRow(table[i].name, table[i].ip, table[i].command, Classify(f), f)];
      assert table[..i + 1][..i] == table[..i];
      i := i + 1;
    }
    assert table[..|table|] == table;
  }

  // ------------------------------------------------------------ pending rows

  /** Number of PENDING rows. */
  function CountPending(rows: seq<SummaryRow>): (n: nat)
    ensures n <= |rows|
    ensures n == 0 <==> forall i :: 0 <= i < |rows| ==> rows[i].summary != Pending
  {
    if rows == [] then 0
    else
      assert forall i :: 1 <= i < |rows| ==> rows[1..][i - 1] == rows[i];
      (if rows[0].summary == Pending then 1 else 0) + CountPending(rows[1..])
  }

  /** Settling one pending row drops the count by one. */
  lemma {:induction false} CountPendingSettle(rows: seq<SummaryRow>, i: int, r: SummaryRow)
    requires 0 <= i < |rows| && rows[i].summary == Pending && r.summary != Pending
    ensures CountPending(rows[i := r]) == CountPending(rows) - 1
  {
    if i > 0 {
      CountPendingSettle(rows[1..], i - 1, r);
      assert rows[i := r][1..] == rows[1..][i - 1 := r];
    } else {
      assert rows[i := r][1..] == rows[1..];
    }
  }

  /** How polling may change one row: a pending row may become "Machine
      Down" (keeping its first reply) or "SUCCESS" with an idle status body;
      nothing else changes, and a settled row never changes again. */
  predicate RowStep(r0: SummaryRow, r: SummaryRow)
  {
    r == r0 ||
    (r0.summary == Pending &&
      (r == r0.(summary := MachineDown) ||
       (r.full.Body? && !r.full.reply.activityAny && r == r0.(summary := Success, full := r.full))))
  }

  /** Row-wise RowStep between two tables of the same length. */
  predicate Evolves(rows0: seq<SummaryRow>, rows: seq<SummaryRow>)
  {
    |rows| == |rows0| && forall i :: 0 <= i < |rows0| ==> RowStep(rows0[i], rows[i])
  }

  /** The result of one status poll of a pending row. */
  function PollRow(row: SummaryRow, t: Transport): (r: SummaryRow)
    requires row.summary == Pending
    ensures RowStep(row, r)
    ensures r.summary == Pending <==> t.Delivered? && t.reply.activityAny
    ensures r.summary == MachineDown <==> !t.Delivered?
  {
    match t
    case Delivered(rep) =>
      if !rep.activityAny then row.(summary := Success, full := Body(rep)) else row
    case _ => row.(summary := MachineDown)
  }

  lemma PendingExists(rows: seq<SummaryRow>)
    requires CountPending(rows) > 0
    ensures exists i :: 0 <= i < |rows| && rows[i].summary == Pending
  {
  }

  /** Where a sweep has got to: the table so far, the milliseconds waited
      and whether the per-row timeout test has stopped it. */
  datatype SweepState = SweepState(rows: seq<SummaryRow>, elapsed: nat, stopped: bool)

  /** The rest of a sweep from row `i` on: every row pending when the sweep
      started takes the result of its own status poll, `net.poll(sweep,
      ip)`, the clock advances by that poll's lag, and with `perRow` the
      sweep stops at the first poll after which the time is up. */
  function SweepFrom(rows0: seq<SummaryRow>, net: Network, sweep: nat, i: nat, st: SweepState,
                     limitMs: int, perRow: bool): (r: SweepState)
    requires i <= |rows0| && |st.rows| == |rows0| && !st.stopped
    ensures |r.rows| == |rows0| && r.elapsed >= st.elapsed
    ensures r.stopped ==> perRow && r.elapsed >= limitMs
    decreases |rows0| - i
  {
    if i == |rows0| then st
    else if rows0[i].summary != Pending then SweepFrom(rows0, net, sweep, i + 1, st, limitMs, perRow)
    else
      var rows := st.rows[i := PollRow(rows0[i], net.poll(sweep, rows0[i].ip))];
      var e := st.elapsed + net.lag(sweep, rows0[i].ip);
      if perRow && e >= limitMs then SweepState(rows, e, true)
      else SweepFrom(rows0, net, sweep, i + 1, SweepState(rows, e, false), limitMs, perRow)
  }

  /** The rest of a sweep changes no row before `i`. */
  lemma {:induction false} SweepFromFrame(rows0: seq<SummaryRow>, net: Network, sweep: nat, i: nat,
                                          st: SweepState, limitMs: int, perRow: bool)
    requires i <= |rows0| && |st.rows| == |rows0| && !st.stopped
    ensures var r := SweepFrom(rows0, net, sweep, i, st, limitMs, perRow);
      forall k :: 0 <= k < i ==> r.rows[k] == st.rows[k]
    decreases |rows0| - i
  {
    if i < |rows0| {
      if rows0[i].summary != Pending {
        SweepFromFrame(rows0, net, sweep, i + 1, st, limitMs, perRow);
      } else {
        var rows := st.rows[i := PollRow(rows0[i], net.poll(sweep, rows0[i].ip))];
        var e := st.elapsed + net.lag(sweep, rows0[i].ip);
        if !(perRow && e >= limitMs) {
          SweepFromFrame(rows0, net, sweep, i + 1, SweepState(rows, e, false), limitMs, perRow);
        }
      }
    }
  }

  /** The rest of a sweep changes each row only as polling may. */
  lemma {:induction false} SweepFromEvolves(rows0: seq<SummaryRow>, net: Network, sweep: nat, i: nat,
                                            st: SweepState, limitMs: int, perRow: bool)
    requires i <= |rows0| && |st.rows| == |rows0| && !st.stopped
    requires Evolves(rows0, st.rows)
    ensures Evolves(rows0, SweepFrom(rows0, net, sweep, i, st, limitMs, perRow).rows)
    decreases |rows0| - i
  {
    if i < |rows0| {
      if rows0[i].summary != Pending {
        SweepFromEvolves(rows0, net, sweep, i + 1, st, limitMs, perRow);
      } else {
        var rows := st.rows[i := PollRow(rows0[i], net.poll(sweep, rows0[i].ip))];
        var e := st.elapsed + net.lag(sweep, rows0[i].ip);
        if !(perRow && e >= limitMs) {
          SweepFromEvolves(rows0, net, sweep, i + 1, SweepState(rows, e, false), limitMs, perRow);
        }
      }
    }
  }

  /** With the per-row test, a sweep over a table with a pending row
      that was not cut short ends before the limit. */
  lemma SweepInTime(rows0: seq<SummaryRow>, net: Network, sweep: nat, elapsed0: nat, limitMs: int, perRow: bool)
    requires CountPending(rows0) > 0
    ensures var r := SweepRows(rows0, net, sweep, elapsed0, limitMs, perRow);
      perRow && !r.stopped ==> r.elapsed < limitMs
  {
    PendingExists(rows0);
    SweepFromInTime(rows0, net, sweep, 0, SweepState(rows0, elapsed0, false), limitMs, perRow);
  }

  lemma {:induction false} SweepFromInTime(rows0: seq<SummaryRow>, net: Network, sweep: nat, i: nat,
                                           st: SweepState, limitMs: int, perRow: bool)
    requires i <= |rows0| && |st.rows| == |rows0| && !st.stopped
    ensures var r := SweepFrom(rows0, net, sweep, i, st, limitMs, perRow);
      perRow && !r.stopped ==>
        r.elapsed < limitMs ||
        (r.elapsed == st.elapsed && forall k :: i <= k < |rows0| ==> rows0[k].summary != Pending)
    decreases |rows0| - i
  {
    if i < |rows0| {
      if rows0[i].summary != Pending {
        SweepFromInTime(rows0, net, sweep, i + 1, st, limitMs, perRow);
      } else {
        var rows := st.rows[i := PollRow(rows0[i], net.poll(sweep, rows0[i].ip))];
        var e := st.elapsed + net.lag(sweep, rows0[i].ip);
        if !(perRow && e >= limitMs) {
          SweepFromInTime(rows0, net, sweep, i + 1, SweepState(rows, e, false), limitMs, perRow);
        }
      }
    }
  }

  /** The step of `SweepFrom` at a pending row, which leaves the table
      `rows` and the clock at `e`. */
  lemma SweepFromPoll(rows0: seq<SummaryRow>, net: Network, sweep: nat, i: nat, st: SweepState,
                      limitMs: int, perRow: bool, rows: seq<SummaryRow>, e: nat)
    requires i < |rows0| && |st.rows| == |rows0| && !st.stopped && rows0[i].summary == Pending
    requires rows == st.rows[i := PollRow(rows0[i], net.poll(sweep, rows0[i].ip))]
    requires e == st.elapsed + net.lag(sweep, rows0[i].ip)
    ensures SweepFrom(rows0, net, sweep, i, st, limitMs, perRow) ==
      if perRow && e >= limitMs then SweepState(rows, e, true)
      else SweepFrom(rows0, net, sweep, i + 1, SweepState(rows, e, false), limitMs, perRow)
  {
  }

  /** The step of `SweepFrom` at a row that was not pending. */
  lemma SweepFromSkip(rows0: seq<SummaryRow>, net: Network, sweep: nat, i: nat, st: SweepState,
                      limitMs: int, perRow: bool)
    requires i < |rows0| && |st.rows| == |rows0| && !st.stopped && rows0[i].summary != Pending
    ensures SweepFrom(rows0, net, sweep, i, st, limitMs, perRow) ==
      SweepFrom(rows0, net, sweep, i + 1, st, limitMs, perRow)
  {
  }

  /** One whole sweep number `sweep` over `rows0`, starting at `elapsed0`. */
  function SweepRows(rows0: seq<SummaryRow>, net: Network, sweep: nat, elapsed0: nat,
                     limitMs: int, perRow: bool): (r: SweepState)
    ensures |r.rows| == |rows0| && r.elapsed >= elapsed0
    ensures r.stopped ==> perRow && r.elapsed >= limitMs
  {
    SweepFrom(rows0, net, sweep, 0, SweepState(rows0, elapsed0, false), limitMs, perRow)
  }

  /** A sweep changes each row only as polling may. */
  lemma SweepEvolves(rows0: seq<SummaryRow>, net: Network, sweep: nat, elapsed0: nat, limitMs: int, perRow: bool)
    ensures Evolves(rows0, SweepRows(rows0, net, sweep, elapsed0, limitMs, perRow).rows)
  {
    SweepFromEvolves(rows0, net, sweep, 0, SweepState(rows0, elapsed0, false), limitMs, perRow);
  }

  /** What a sweep does to each row: a row is left as it was or, being
      pending when the sweep started, takes the result of its own poll;
      a sweep that ran to the end polled every pending row. */
  lemma SweepPolls(rows0: seq<SummaryRow>, net: Network, sweep: nat, elapsed0: nat, limitMs: int, perRow: bool)
    ensures var r := SweepRows(rows0, net, sweep, elapsed0, limitMs, perRow);
      forall k :: 0 <= k < |rows0| ==>
        r.rows[k] == rows0[k] ||
        (rows0[k].summary == Pending && r.rows[k] == PollRow(rows0[k], net.poll(sweep, rows0[k].ip)))
    ensures var r := SweepRows(rows0, net, sweep, elapsed0, limitMs, perRow);
      !r.stopped ==> forall k :: 0 <= k < |rows0| && rows0[k].summary == Pending ==>
        r.rows[k] == PollRow(rows0[k], net.poll(sweep, rows0[k].ip))
  {
    SweepFromPollsSome(rows0, net, sweep, 0, SweepState(rows0, elapsed0, false), limitMs, perRow);
    SweepFromPollsAll(rows0, net, sweep, 0, SweepState(rows0, elapsed0, false), limitMs, perRow);
  }

  lemma {:induction false} SweepFromPollsSome(rows0: seq<SummaryRow>, net: Network, sweep: nat, i: nat,
                                              st: SweepState, limitMs: int, perRow: bool)
    requires i <= |rows0| && |st.rows| == |rows0| && !st.stopped
    requires forall k :: i <= k < |rows0| ==> st.rows[k] == rows0[k]
    requires forall k :: 0 <= k < i ==>
      st.rows[k] == rows0[k] ||
      (rows0[k].summary == Pending && st.rows[k] == PollRow(rows0[k], net.poll(sweep, rows0[k].ip)))
    ensures var r := SweepFrom(rows0, net, sweep, i, st, limitMs, perRow);
      forall k :: 0 <= k < |rows0| ==>
        r.rows[k] == rows0[k] ||
        (rows0[k].summary == Pending && r.rows[k] == PollRow(rows0[k], net.poll(sweep, rows0[k].ip)))
    decreases |rows0| - i
  {
    if i < |rows0| {
      if rows0[i].summary != Pending {
        SweepFromPollsSome(rows0, net, sweep, i + 1, st, limitMs, perRow);
      } else {
        var rows := st.rows[i := PollRow(rows0[i], net.poll(sweep, rows0[i].ip))];
        var e := st.elapsed + net.lag(sweep, rows0[i].ip);
        if !(perRow && e >= limitMs) {
          SweepFromPollsSome(rows0, net, sweep, i + 1, SweepState(rows, e, false), limitMs, perRow);
        }
      }
    }
  }

  lemma {:induction false} SweepFromPollsAll(rows0: seq<SummaryRow>, net: Network, sweep: nat, i: nat,
                                             st: SweepState, limitMs: int, perRow: bool)
    requires i <= |rows0| && |st.rows| == |rows0| && !st.stopped
    ensures var r := SweepFrom(rows0, net, sweep, i, st, limitMs, perRow);
      !r.stopped ==> forall k :: i <= k < |rows0| && rows0[k].summary == Pending ==>
        r.rows[k] == PollRow(rows0[k], net.poll(sweep, rows0[k].ip))
    decreases |rows0| - i
  {
    if i < |rows0| {
      if rows0[i].summary != Pending {
        SweepFromPollsAll(rows0, net, sweep, i + 1, st, limitMs, perRow);
      } else {
        var rows := st.rows[i := PollRow(rows0[i], net.poll(sweep, rows0[i].ip))];
        var e := st.elapsed + net.lag(sweep, rows0[i].ip);
        if !(perRow && e >= limitMs) {
          SweepFromPollsAll(rows0, net, sweep, i + 1, SweepState(rows, e, false), limitMs, perRow);
          SweepFromFrame(rows0, net, sweep, i + 1, SweepState(rows, e, false), limitMs, perRow);
        }
      }
    }
  }

  /** The wait from sweep number `sweep` on, `elapsed` milliseconds in:
      while a row is pending, sleep half a second and sweep; stop when a
      sweep was cut short or the time is up. The result is the final table
      and the milliseconds waited. */
  function PollFrom(rows: seq<SummaryRow>, net: Network, sweep: nat, elapsed: nat, limitMs: int, perRow: bool)
    : (r: (seq<SummaryRow>, nat))
    ensures Evolves(rows, r.0)
    ensures CountPending(r.0) == 0 || r.1 >= limitMs
    ensures CountPending(rows) > 0 ==> r.1 >= elapsed + 500
    decreases limitMs - elapsed
  {
    if CountPending(rows) == 0 then (rows, elapsed)
    else
      var s := SweepRows(rows, net, sweep, elapsed + 500, limitMs, perRow);
      SweepEvolves(rows, net, sweep, elapsed + 500, limitMs, perRow);
      if s.stopped || s.elapsed >= limitMs then (s.rows, s.elapsed)
      else PollFrom(s.rows, net, sweep + 1, s.elapsed, limitMs, perRow)
  }

  /** The whole wait over the first replies `rows0`, with a limit of
      `limitMs` milliseconds. */
  function PollRun(rows0: seq<SummaryRow>, net: Network, limitMs: int, perRow: bool): (r: (seq<SummaryRow>, nat))
    ensures Evolves(rows0, r.0)
    ensures CountPending(r.0) == 0 || r.1 >= limitMs
    ensures CountPending(rows0) > 0 ==> r.1 >= 500
  {
    PollFrom(rows0, net, 0, 0, limitMs, perRow)
  }

  /** One sweep over the rows that are pending when it starts. With
      `perRow` the timeout is tested after every poll and the sweep stops as
      soon as it has passed; `stopped` reports that. */
  method Sweep(rows0: seq<SummaryRow>, net: Network, sweep: nat, elapsed0: nat, limitMs: int, perRow: bool)
    returns (rows: seq<SummaryRow>, nPending: nat, elapsed: nat, stopped: bool)
    requires CountPending(rows0) > 0
    ensures SweepState(rows, elapsed, stopped) == SweepRows(rows0, net, sweep, elapsed0, limitMs, perRow)
    ensures nPending == CountPending(rows)
    ensures perRow && !stopped ==> elapsed < limitMs
  {
    PendingExists(rows0);
    rows := rows0;
    nPending := CountPending(rows0);
    elapsed := elapsed0;
    ghost var goal := SweepRows(rows0, net, sweep, elapsed0, limitMs, perRow);
    var i := 0;
    while i < |rows0|
      invariant 0 <= i <= |rows0| && |rows| == |rows0|
      invariant forall k :: i <= k < |rows0| ==> rows[k] == rows0[k]
      invariant nPending == CountPending(rows)
      invariant SweepFrom(rows0, net, sweep, i, SweepState(rows, elapsed, false), limitMs, perRow) == goal
    {
      if rows0[i].summary == Pending {
        rows, nPending, elapsed := PollPending(rows0, net, sweep, limitMs, perRow, rows, i, nPending, elapsed);
        if perRow && elapsed >= limitMs {
          return rows, nPending, elapsed, true;
        }
      } else {
        SweepFromSkip(rows0, net, sweep, i, SweepState(rows, elapsed, false), limitMs, perRow);
      }
      i := i + 1;
    }
    stopped := false;
    SweepInTime(rows0, net, sweep, elapsed0, limitMs, perRow);
  }

  /** One poll of the sweep: pending row `i` takes the reply to its status
      poll and the clock advances by that poll's lag; the count of pending
      rows drops by one when the row settles. */
  method PollPending(rows0: seq<SummaryRow>, net: Network, sweep: nat, limitMs: int, perRow: bool,
                     rows: seq<SummaryRow>, i: nat, nPending: nat, elapsed: nat)
    returns (rows': seq<SummaryRow>, nPending': nat, elapsed': nat)
    requires i < |rows0| && rows0[i].summary == Pending
    requires |rows| == |rows0| && rows[i] == rows0[i] && nPending == CountPending(rows)
    ensures nPending' == CountPending(rows') && elapsed' >= elapsed
    ensures rows' == rows[i := PollRow(rows0[i], net.poll(sweep, rows0[i].ip))]
    ensures SweepFrom(rows0, net, sweep, i, SweepState(rows, elapsed, false), limitMs, perRow) ==
      if perRow && elapsed' >= limitMs then SweepState(rows', elapsed', true)
      else SweepFrom(rows0, net, sweep, i + 1, SweepState(rows', elapsed', false), limitMs, perRow)
  {
    var ip := rows0[i].ip;
    var r := PollRow(rows[i], net.poll(sweep, ip));
    nPending' := nPending;
    if r.summary != Pending {
      CountPendingSettle(rows, i, r);
      nPending' := nPending - 1;
    } else {
      assert rows[i := r] == rows;
    }
    rows' := rows[i := r];
    elapsed' := elapsed + net.lag(sweep, ip);
    SweepFromPoll(rows0, net, sweep, i, SweepState(rows, elapsed, false), limitMs, perRow, rows', elapsed');
  }

  lemma EvolvesTrans(a: seq<SummaryRow>, b: seq<SummaryRow>, c: seq<SummaryRow>)
    requires Evolves(a, b) && Evolves(b, c)
    ensures Evolves(a, c)
  {
  }

  /** The wait loop: sleeps half a second, sweeps the pending rows, and
      stops when none is pending or `timeoutGlobal` seconds have passed
      (tested after every poll when `perRow`, after every sweep otherwise).
      No row is added or dropped; a row still pending at the end is exactly
      as it was. */
  method Poll(rows0: seq<SummaryRow>, net: Network, timeoutGlobal: int, perRow: bool)
    returns (rows: seq<SummaryRow>, elapsed: nat)
    requires CountPending(rows0) > 0
    ensures (rows, elapsed) == PollRun(rows0, net, timeoutGlobal * 1000, perRow)
  {
    var limitMs := timeoutGlobal * 1000;
    var bound := if limitMs > 0 then limitMs else 0;
    rows := rows0;
    var nPending := CountPending(rows0);
    elapsed := 0;
    var sweep: nat := 0;
    while nPending > 0
      invariant nPending == CountPending(rows)
      invariant elapsed <= bound
      invariant PollFrom(rows, net, sweep, elapsed, limitMs, perRow) == PollRun(rows0, net, limitMs, perRow)
      decreases bound + 1 - elapsed
    {
      var done;
      rows, nPending, elapsed, done := WaitRound(rows, net, sweep, elapsed, limitMs, perRow);
      if done {
        return;
      }
      sweep := sweep + 1;
    }
  }

  /** One round of the wait loop: half a second's sleep, then a sweep;
      `done` says the wait is over because the sweep was cut short or the
      time is up. */
  method WaitRound(rows: seq<SummaryRow>, net: Network, sweep: nat, elapsed: nat, limitMs: int, perRow: bool)
    returns (rows': seq<SummaryRow>, nPending': nat, elapsed': nat, done: bool)
    requires CountPending(rows) > 0
    ensures nPending' == CountPending(rows')
    ensures done || elapsed + 500 <= elapsed' < limitMs
    ensures PollFrom(rows, net, sweep, elapsed, limitMs, perRow) ==
      if done then (rows', elapsed') else PollFrom(rows', net, sweep + 1, elapsed', limitMs, perRow)
  {
    var stopped;
    rows', nPending', elapsed', stopped := Sweep(rows, net, sweep, elapsed + 500, limitMs, perRow);
    done := stopped || elapsed' >= limitMs;
  }

  // ---------------------------------------------------------------- request

  /** What a web request over `fleet` ends with, given the device oracles:
      a routing error propagates; a dry run returns the routed table; a
      request that does not wait, or whose first replies leave nothing
      pending, returns the first replies at once; a wait with a
      `request_type` other than "exposure" fails on the unbound
      progress-bar total (UnboundLocalError) and an "exposure" wait without
      `readout_time` on the missing keyword (KeyError); otherwise the pending
      rows are polled as `PollRun` describes (the timeout tested after every
      poll for an "exposure" wait, after every sweep otherwise), and
      `elapsedMs` is the time that wait took. */
  predicate Dispatched(fleet: seq<Unit>, req: Request, net: Network, r: Result<Outcome>, elapsedMs: nat)
  {
    match Routing(fleet, req)
    case Err(e) => r == Err(e) && elapsedMs == 0
    case Ok(table) =>
      if req.dryrun then r == Ok(DryRun(table)) && elapsedMs == 0
      else
        var rows0 := InitialRows(table, net);
        if !req.waitForResponse || CountPending(rows0) == 0 then r == Ok(Summary(rows0)) && elapsedMs == 0
        else if req.requestType.Some? && req.requestType.value != "exposure" then r == Err(UnboundLocalError) && elapsedMs == 0
        else if req.requestType.Some? && req.readoutTime.None? then r == Err(KeyError) && elapsedMs == 0
        else
          var w := PollRun(rows0, net, req.timeoutGlobal * 1000, req.requestType.Some?);
          r == Ok(Summary(w.0)) && elapsedMs == w.1
  }

  /** The whole web request: routing, the dry run, the first replies and
      the wait, exactly as `Dispatched` describes. */
  method SendWebRequestNB(fleet: seq<Unit>, req: Request, net: Network) returns (r: Result<Outcome>, elapsedMs: nat)
    ensures Dispatched(fleet, req, net, r, elapsedMs)
  {
    elapsedMs := 0;
    var routed := Route(fleet, req);
    if routed.Err? {
      return Err(routed.error), 0;
    }
    var table := routed.value;
    if req.dryrun {
      return Ok(DryRun(table)), 0;
    }
    var rows0 := SendAll(table, net);
    var nPending := CountPending(rows0);
    if !req.waitForResponse || nPending == 0 {
      return Ok(Summary(rows0)), 0;
    }
    var perRow := false;
    if req.requestType.Some? {
      if req.requestType.value != "exposure" {
        return Err(UnboundLocalError), 0;
      }
      if req.readoutTime.None? {
        return Err(KeyError), 0;
      }
      perRow := true;
    }
    var rows;
    rows, elapsedMs := Poll(rows0, net, req.timeoutGlobal, perRow);
    r := Ok(Summary(rows));
  }

  /** A helper's request, which may already have failed while being built
      (a keyword clash, an unbound command), sent as `Dispatched` says. */
  predicate Sent(fleet: seq<Unit>, rq: Result<Request>, net: Network, r: Result<Outcome>, elapsedMs: nat)
  {
    match rq
    case Err(e) => r == Err(e) && elapsedMs == 0
    case Ok(req) => Dispatched(fleet, req, net, r, elapsedMs)
  }

  /** The answer a request gets from `net`, and the time its wait takes:
      the one pair `Sent` allows. */
  function Answer(fleet: seq<Unit>, rq: Result<Request>, net: Network): (a: (Result<Outcome>, nat))
    ensures Sent(fleet, rq, net, a.0, a.1)
    ensures rq.Ok? && a.0.Ok? ==> (a.0.value.DryRun? <==> rq.value.dryrun)
  {
    match rq
    case Err(e) => (Err(e), 0)
    case Ok(req) =>
      match Routing(fleet, req)
      case Err(e) => (Err(e), 0)
      case Ok(table) =>
        if req.dryrun then (Ok(DryRun(table)), 0)
        else
          var rows0 := InitialRows(table, net);
          if !req.waitForResponse || CountPending(rows0) == 0 then (Ok(Summary(rows0)), 0)
          else if req.requestType.Some? && req.requestType.value != "exposure" then (Err(UnboundLocalError), 0)
          else if req.requestType.Some? && req.readoutTime.None? then (Err(KeyError), 0)
          else
            var w := PollRun(rows0, net, req.timeoutGlobal * 1000, req.requestType.Some?);
            (Ok(Summary(w.0)), w.1)
  }

  /** `Sent` is a function of the request and the oracles. */
  lemma SentIsAnswer(fleet: seq<Unit>, rq: Result<Request>, net: Network, r: Result<Outcome>, elapsedMs: nat)
    requires Sent(fleet, rq, net, r, elapsedMs)
    ensures (r, elapsedMs) == Answer(fleet, rq, net)
  {
  }

  method Send(fleet: seq<Unit>, rq: Result<Request>, net: Network) returns (r: Result<Outcome>, elapsedMs: nat)
    ensures Sent(fleet, rq, net, r, elapsedMs)
  {
    if rq.Err? {
      return Err(rq.error), 0;
    }
    r, elapsedMs := SendWebRequestNB(fleet, rq.value, net);
  }

  /** A request that does not wait and is not a dry run answers with the
      first replies of exactly the routed rows. */
  lemma NoWaitIsFirstReplies(fleet: seq<Unit>, req: Request, net: Network, r: Result<Outcome>, elapsedMs: nat)
    requires Dispatched(fleet, req, net, r, elapsedMs)
    requires !req.waitForResponse && !req.dryrun && Routing(fleet, req).Ok?
    ensures r == Ok(Summary(InitialRows(Routing(fleet, req).value, net)))
  {
  }

  /** Whatever happens, an answer that is not an error is a dry run exactly
      when one was asked for, and a response table has one row per routed
      row, in routed order, with the routed command. */
  lemma DispatchedShape(fleet: seq<Unit>, req: Request, net: Network, r: Result<Outcome>, elapsedMs: nat)
    requires Dispatched(fleet, req, net, r, elapsedMs)
    requires r.Ok?
    ensures Routing(fleet, req).Ok?
    ensures r.value.DryRun? <==> req.dryrun
    ensures r.value.Summary? ==>
      var table := Routing(fleet, req).value;
      |r.value.rows| == |table| &&
      forall i :: 0 <= i < |table| ==>
        r.value.rows[i].name == table[i].name && r.value.rows[i].ip == table[i].ip &&
        r.value.rows[i].command == table[i].command
  {
    var table := Routing(fleet, req).value;
    if !req.dryrun && r.value.Summary? {
      var rows0 := InitialRows(table, net);
      if r.value.rows != rows0 {
        EvolvesKeepsRouted(rows0, r.value.rows);
      }
    }
  }

  /** A request that waits ends with no row pending or with
      `timeout_global` seconds spent waiting; each row either kept its first
      reply or settled as one of its polls said. */
  lemma DispatchedWaitEnds(fleet: seq<Unit>, req: Request, net: Network, r: Result<Outcome>, elapsedMs: nat)
    requires Dispatched(fleet, req, net, r, elapsedMs)
    requires r.Ok? && r.value.Summary? && elapsedMs > 0
    ensures Routing(fleet, req).Ok? && req.waitForResponse
    ensures Evolves(InitialRows(Routing(fleet, req).value, net), r.value.rows)
    ensures CountPending(r.value.rows) == 0 || elapsedMs >= req.timeoutGlobal * 1000
  {
  }

  /** Polling changes only the replies and summaries of the rows. */
  lemma EvolvesKeepsRouted(rows0: seq<SummaryRow>, rows: seq<SummaryRow>)
    requires Evolves(rows0, rows)
    ensures forall i :: 0 <= i < |rows0| ==>
      rows[i].name == rows0[i].name && rows[i].ip == rows0[i].ip && rows[i].command == rows0[i].command
  {
    forall i | 0 <= i < |rows0|
      ensures rows[i].name == rows0[i].name && rows[i].ip == rows0[i].ip && rows[i].command == rows0[i].command
    {
      assert RowStep(rows0[i], rows[i]);
    }
  }

  // ------------------------------------------------------- keyword arguments

  /** The keyword arguments a helper forwards to the web request. `name`
      and `disable` are accepted and ignored by it. */
  datatype Kwargs = Kwargs(
    skip: Option<seq<string>>,
    timeoutGlobal: Option<int>,
    verbose: Option<bool>,
    name: Option<string>,
    disable: bool)

  const NoKwargs: Kwargs := Kwargs(None, None, None, None, false)

  /** The keyword names of `SendWebRequestNB` and of the helpers that
      forward `**kwargs` to it. */
  datatype Keyword = KwCommand | KwWhich | KwSkip | KwHaCommand | KwOiiiCommand | KwHaOffCommand | KwOiiiOffCommand
                   | KwOHCommand | KwOHOffCommand | KwFlatHavingCommand | KwVerbose | KwWaitForResponse
                   | KwTimeoutGlobal | KwDryrun | KwRequestType | KwReadoutTime | KwName | KwDisable

  /** The keywords present in a Kwargs value. */
  function Keys(kw: Kwargs): (ks: set<Keyword>)
    ensures KwSkip in ks <==> kw.skip.Some?
    ensures KwTimeoutGlobal in ks <==> kw.timeoutGlobal.Some?
    ensures KwVerbose in ks <==> kw.verbose.Some?
    ensures KwName in ks <==> kw.name.Some?
    ensures KwDisable in ks <==> kw.disable
  {
    (if kw.skip.Some? then {KwSkip} else {}) +
    (if kw.timeoutGlobal.Some? then {KwTimeoutGlobal} else {}) +
    (if kw.verbose.Some? then {KwVerbose} else {}) +
    (if kw.name.Some? then {KwName} else {}) +
    (if kw.disable then {KwDisable} else {})
  }

  /** A forwarded keyword clashes with a helper's own keywords exactly when
      one of the five forwardable keywords is present in both. */
  lemma KeysClash(kw: Kwargs, fixed: set<Keyword>)
    ensures Keys(kw) * fixed != {} <==>
      (kw.skip.Some? && KwSkip in fixed) || (kw.timeoutGlobal.Some? && KwTimeoutGlobal in fixed) ||
      (kw.verbose.Some? && KwVerbose in fixed) || (kw.name.Some? && KwName in fixed) ||
      (kw.disable && KwDisable in fixed)
  {
    var both := Keys(kw) * fixed;
    if both != {} {
      var k :| k in both;
      assert k in {KwSkip, KwTimeoutGlobal, KwVerbose, KwName, KwDisable};
    }
    if kw.skip.Some? && KwSkip in fixed { assert KwSkip in both; }
    if kw.timeoutGlobal.Some? && KwTimeoutGlobal in fixed { assert KwTimeoutGlobal in both; }
    if kw.verbose.Some? && KwVerbose in fixed { assert KwVerbose in both; }
    if kw.name.Some? && KwName in fixed { assert KwName in both; }
    if kw.disable && KwDisable in fixed { assert KwDisable in both; }
  }

  /** A helper's call `SendWebRequestNB(<its own keywords>, **kwargs)`: a
      keyword given both by the helper (`fixed`) and in `kw` is a TypeError;
      otherwise the forwarded keywords replace the request's defaults. */
  function WithKwargs(req: Request, fixed: set<Keyword>, kw: Kwargs): (r: Result<Request>)
    ensures r.Err? <==> Keys(kw) * fixed != {}
    ensures r.Err? ==> r.error == TypeError
    ensures r.Ok? ==> r.value.skip == (if kw.skip.Some? then kw.skip.value else req.skip)
    ensures r.Ok? ==> r.value.timeoutGlobal == (if kw.timeoutGlobal.Some? then kw.timeoutGlobal.value else req.timeoutGlobal)
    ensures r.Ok? ==> r.value.(skip := req.skip, timeoutGlobal := req.timeoutGlobal, verbose := req.verbose) == req
  {
    if Keys(kw) * fixed != {} then Err(TypeError)
    else Ok(req.(skip := if kw.skip.Some? then kw.skip.value else req.skip,
                 timeoutGlobal := if kw.timeoutGlobal.Some? then kw.timeoutGlobal.value else req.timeoutGlobal,
                 verbose := if kw.verbose.Some? then kw.verbose.value else req.verbose))
  }

  // ---------------------------------------------------------------- lookups

  /** `get_response_by_name`: the reply of the first row with that Name; no
      such row is an IndexError. */
  function ResponseByName(rows: seq<SummaryRow>, name: string): (r: Result<Full>)
    ensures r.Err? <==> forall i :: 0 <= i < |rows| ==> rows[i].name != name
    ensures r.Err? ==> r.error == IndexError
    ensures r.Ok? ==> exists i :: 0 <= i < |rows| && rows[i].name == name && r.value == rows[i].full &&
                                  forall j :: 0 <= j < i ==> rows[j].name != name
  {
    if rows == [] then Err(IndexError)
    else if rows[0].name == name then Ok(rows[0].full)
    else
      var rest := ResponseByName(rows[1..], name);
      assert forall i :: 1 <= i < |rows| ==> rows[1..][i - 1] == rows[i];
      if rest.Ok? then
        var k :| 0 <= k < |rows[1..]| && rows[1..][k].name == name && rest.value == rows[1..][k].full &&
                 forall j :: 0 <= j < k ==> rows[1..][j].name != name;
        assert rows[k + 1] == rows[1..][k];
        assert forall j :: 1 <= j < k + 1 ==> rows[j] == rows[1..][j - 1];
        rest
      else rest
  }

  /** `get_response_by_ip`: the reply of the first row with that address;
      no such row is an IndexError. */
  function ResponseByIp(rows: seq<SummaryRow>, ip: string): (r: Result<Full>)
    ensures r.Err? <==> forall i :: 0 <= i < |rows| ==> rows[i].ip != ip
    ensures r.Err? ==> r.error == IndexError
    ensures r.Ok? ==> exists i :: 0 <= i < |rows| && rows[i].ip == ip && r.value == rows[i].full &&
                                  forall j :: 0 <= j < i ==> rows[j].ip != ip
  {
    if rows == [] then Err(IndexError)
    else if rows[0].ip == ip then Ok(rows[0].full)
    else
      var rest := ResponseByIp(rows[1..], ip);
      assert forall i :: 1 <= i < |rows| ==> rows[1..][i - 1] == rows[i];
      if rest.Ok? then
        var k :| 0 <= k < |rows[1..]| && rows[1..][k].ip == ip && rest.value == rows[1..][k].full &&
                 forall j :: 0 <= j < k ==> rows[1..][j].ip != ip;
        assert rows[k + 1] == rows[1..][k];
        assert forall j :: 1 <= j < k + 1 ==> rows[j] == rows[1..][j - 1];
        rest
      else rest
  }
}
