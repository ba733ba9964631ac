# dfobserve in Dafny

`dfobserve` runs a night of narrow-band observing with a fleet of ten
camera units (Dragonfly301 … Dragonfly310). Each unit sits behind one filter:

- on-band H-alpha `ha6647` and OIII `oiii5071`;
- their off-band partners `ha_left`, `ha_right`, `oiii_left` and `oiii_right`;
- the sky-line monitor `OH` and its partner `OH_off`.

Every unit runs a small web server. The observing script talks to them through a
single request router, `SendWebRequestNB`. The router picks the units a command
goes to, sends it, and waits until the units are idle. On top of the router sit
helpers that build command strings:

- cameras: exposures, coolers, autofocus;
- filter tilters;
- flip flats;
- focusers.

A hardware registry holds a CSV table marking each unit UP or DOWN. Health checks
mark failing units down. An `Observation` builds the ordered step list (the
observing plan) for one target and checks its start time and exposure budget.
`AutoObserve.observe` then runs the night:

1. the start wait and the roof gate;
2. the camera cooldown and the filter-tilt retry loops, which quarantine failing
   units;
3. the rows of each target's plan, with the morning cutoff;
4. the shutdown.

The model has one module per component, and each takes the source's own form.

| module | models | form |
|---|---|---|
| `Base` | `Result` and the exception names; Python's `str.upper`, `split`, `int()` and floor division on the subset used | functions |
| `Calendar` | dates, the next day, parsing "YYYY-MM-DD" and "HH:MM[:SS]", local timestamps | functions |
| `Fleet` | the fleet table, the filter groups, the `Status` unit-to-address rule | functions |
| `Router` | routing of `SendWebRequestNB`: group selection, override passes, the sort by address, skipping | pure `Routing`, plus the pass-by-pass loop `Route` proved equal to it |
| `Dispatch` | `SendCommand` error codes, the first-reply classification, the poll loop, the whole request, keyword forwarding, the summary lookups | methods with loops, proved against the predicate `Dispatched` |
| `Hardware` | `HardwareStatus` over an in-memory table and a "file exists" flag | a class whose methods update `table` |
| `Readings` | reading a field from a reply, the tolerance test, tables of good and bad rows | functions and a loop |
| `Camera`, `FilterTilter`, `FlipFlat`, `Focuser` | the command builders and the requests they make | functions for commands and requests; methods for the `**kwargs` string loops and table loops |
| `Checks` | `AllCheckCameras`, `AllCheckFilterTilters`, `AllCheckFocusers` | methods that mark the registry, proved against pure pass functions |
| `Observation` | `set_tilts`, `configure_*`, `check_observing_timings`, `construct_observing_plan` | a class; the plan is built by appending, proved equal to the pure `PlanRows`, with its properties proved as lemmas |
| `AutoObserve` | `AutoObserve.observe`, `end_of_script_shutdown`, `QuickObserve` | classes over a `Site` that records every hardware call in `trace` and keeps a simulated clock |

Parts of the world that the code only reads are inputs of the model:

- device replies, as a `Network` oracle;
- the ephemeris times, as integer timestamps;
- the altitude verdict, whether the roof is open, and camera and tilt readings
  over time, as a `World` value.

Sleeps advance the simulated clock.

## Model

| member | source | states |
|---|---|---|
| Base.ToUpper | dfobserve/utils/HardwareUtils.py:104-119 | `which.upper()` on ASCII text: the same length; each lower-case letter becomes its capital (code point − 32); every other character is kept; no lower-case letter remains |
| Base.ToUpperIdempotent | dfobserve/webserver/WebRequests.py:74 | upper-casing twice is upper-casing once |
| Base.FirstField | dfobserve/observing/Observation.py:558 | `s.split(c)[0]`: the longest prefix without `c`, followed by `c` when it is shorter than `s` |
| Base.IndexOf | dfobserve/webserver/WebRequests.py:74 | the first occurrence of a separator (used for `split("DRAGONFLY")`): a match, with no match before it; None when there is no match |
| Base.NatToString | dfobserve/utils/CameraUtils.py:39-40 | the decimal text of a number in an f-string: digits only, one digit exactly below 10 |
| Base.ParseInt | dfobserve/observing/Observation.py:527-529 | `int(s)`: only non-empty text parses |
| Base.DigitsValueOfNatToString | dfobserve/observing/Observation.py:527-529 | reading back a printed natural number gives the number |
| Base.ParseIntOfIntToString | dfobserve/observing/Observation.py:527-529 | `int(str(i)) == i` for every integer |
| Base.ParseDigits | dfobserve/observing/Observation.py:527-529 | `int` of a non-empty run of digits is their decimal value |
| Base.ParseNegatedDigits | dfobserve/observing/Observation.py:527-529 | `int` of "-" and a non-empty run of digits is minus their value |
| Base.ParseIntOfNegative | dfobserve/observing/Observation.py:527-529 | `int(str(i)) == i` for a negative i |
| Base.ParseIntOfNatural | dfobserve/observing/Observation.py:527-529 | `int(str(i)) == i` for i ≥ 0 |
| Base.NatToStringInjective | dfobserve/utils/CameraUtils.py:39-40 | two different numbers never print as the same text |
| Base.FloorDiv | dfobserve/observing/Observation.py:273 | `int(np.floor(a / b))`: ZeroDivisionError iff b = 0; otherwise the quotient rounded toward negative infinity, as bounds on both signs of b |
| Calendar.DaysInMonth | dfobserve/observing/Observation.py:530 | month lengths lie between 28 and 31 |
| Calendar.DaysBeforeDecember | dfobserve/observing/Observation.py:530 | the days before December plus December's 31 make the year length |
| Calendar.NextDay | dfobserve/observing/Observation.py:530 | `dt_date(y, m, d) + timedelta(days=1)`: ValueError iff the date is invalid; OverflowError iff it is 9999-12-31; otherwise a valid date whose day number is one more |
| Calendar.Split | dfobserve/observing/Observation.py:527-529 | `split` yields at least one field, and the first is `FirstField` |
| Calendar.ParseDateFields | dfobserve/observing/Observation.py:527-529 | `int(date.split("-")[i])` for i = 0, 1, 2: success needs at least three fields |
| Calendar.ParseClock | dfobserve/observing/Observation.py:578 | `Time(...)` of an "HH:MM[:SS]" clock: any accepted clock is a valid second of the day |
| Calendar.ParseDateTime | dfobserve/observing/Observation.py:575-578 | the timestamp of date and clock: defined iff the date is valid and the clock parses, and then equal to `Timestamp` |
| Fleet.ScienceHasFlats | dfobserve/webserver/WebRequests.py:255-306 | the science units are flat-having; flat-having is exactly science or the OH pair |
| Fleet.OverrideGroupsDisjoint | dfobserve/webserver/WebRequests.py:318-359 | the six override groups are pairwise disjoint |
| Fleet.NamesWhere | dfobserve/utils/FilterTilterUtils.py:98-99 | `sdf.loc[sdf.Filter == f, "Name"]`: a name is listed iff some row with it has a qualifying filter; no more names than rows (the order is `NamesWhereConcat`) |
| Fleet.NamesWhereConcat | dfobserve/utils/FilterTilterUtils.py:98-99 | the selection keeps table order: selecting from two tables one after the other is selecting from each in turn |
| Fleet.NamesWhereOne | dfobserve/utils/FilterTilterUtils.py:98-99 | a one-row table yields its name iff its filter qualifies |
| Fleet.UnitIp | dfobserve/webserver/WebRequests.py:80-81 | unit N's address lies on the subnet "192.168.50.", and its last part reads back as N − 290 |
| Fleet.UnitIpInjective | dfobserve/webserver/WebRequests.py:80-81 | different unit numbers never share an address |
| Fleet.StatusIp | dfobserve/webserver/WebRequests.py:72-81 | the `Status` address rule: an argument that is neither a string nor an int is UnboundLocalError; an int goes to its address; a name without "DRAGONFLY" sends nothing |
| Fleet.PrefixNotInDigits | dfobserve/webserver/WebRequests.py:74 | a run of digits never contains "DRAGONFLY" |
| Fleet.NameAndNumberAgree | dfobserve/webserver/WebRequests.py:72-81 | "DragonflyN", in any letter case, and the int N reach the same address 192.168.50.(N − 290) |
| Fleet.UpperUnitName | dfobserve/webserver/WebRequests.py:74 | `unit.upper()` of "Dragonfly", in any case, followed by digits is "DRAGONFLY" followed by the same digits |
| Fleet.UnitNumberField | dfobserve/webserver/WebRequests.py:74 | `split("DRAGONFLY")[1]` of "DRAGONFLY" followed by digits is exactly those digits |
| Fleet.FirstTestUnitAddress | dfobserve/testing/tests.py:146-169 | "Dragonfly301" and "dragonfly301" reach 192.168.50.11, the test fleet's first address |
| Fleet.FirstUnitTexts | dfobserve/testing/tests.py:146-169 | unit 301 prints as "301" and its address suffix 11 as "11" |
| Router.Column | dfobserve/webserver/WebRequests.py:244-359 | the reference command column: one entry per row, equal to the last applicable command |
| Router.OverwritePass | dfobserve/webserver/WebRequests.py:318-324 | one override pass: the rows of its group get the command, and every other row keeps its value |
| Router.FillCommands | dfobserve/webserver/WebRequests.py:244-359 | the pass-by-pass fill (base, flat-having, then ha, oiii, ha-off, oiii-off, OH, OH-off) equals the reference column |
| Router.Entries | dfobserve/webserver/WebRequests.py:361 | the rows that received a command, in fleet order: empty iff no row got a command |
| Router.Insert | dfobserve/webserver/WebRequests.py:362 | inserting a row into an address-sorted table keeps it sorted and adds exactly that row |
| Router.InsertFront | dfobserve/webserver/WebRequests.py:362 | a row whose address is no higher than the head of a sorted table can go in front |
| Router.InsertBehind | dfobserve/webserver/WebRequests.py:362 | the head of a sorted table stays in front of its tail with a higher row inserted |
| Router.SortByIp | dfobserve/webserver/WebRequests.py:362 | `sort_values(by="ip")`: sorted by address (string order) and a permutation of its input |
| Router.SortSortedIdentity | dfobserve/webserver/WebRequests.py:362 | a table already in address order is unchanged by the sort |
| Router.RemoveSkipped | dfobserve/webserver/WebRequests.py:363 | `~Name.isin(skip)`: exactly the rows whose name is not skipped; order and sortedness are kept |
| Router.RemoveSkippedCounts | dfobserve/webserver/WebRequests.py:363 | removing skipped rows keeps each other row's multiplicity and drops every skipped row |
| Router.RemoveNothing | dfobserve/webserver/WebRequests.py:363 | an empty skip list removes nothing |
| Router.EntriesInOrder | dfobserve/webserver/WebRequests.py:361 | the entry table lists exactly the assigned rows at their positions, in table order |
| Router.EntriesKeepOrder | dfobserve/webserver/WebRequests.py:361-362 | a fleet listed in address order yields entries in address order |
| Router.Routing | dfobserve/webserver/WebRequests.py:244-364 | the routed table: AssertionError iff a base command comes with an unknown `which`; KeyError iff no row gets a command; otherwise sorted, and holding exactly the assigned, non-skipped rows |
| Router.RoutingIsPermutation | dfobserve/webserver/WebRequests.py:361-364 | every assigned, non-skipped row appears in the routed table as often as in the fleet table, and nothing else appears |
| Router.Route | dfobserve/webserver/WebRequests.py:241-364 | the imperative routing (fill, sort, filter) computes exactly `Routing` |
| Router.RoutingIsEntries | dfobserve/webserver/WebRequests.py:361-364 | assigned rows already in address order, with nothing skipped, are routed exactly as the entry table |
| Dispatch.SendCommand | dfobserve/webserver/WebRequests.py:131-161 | HTTP error → code 0; URL error → 1; any other failure → 2; a delivered reply → its body |
| Dispatch.Classify | dfobserve/webserver/WebRequests.py:385-399 | PENDING iff a body came back; codes 0 and 1 get their own summaries and any other code "Unknown Error"; none of these is SUCCESS or "Machine Down" |
| Dispatch.InitialRows | dfobserve/webserver/WebRequests.py:375-401 | the response table after the first sends: one row per routed row, in order, with its reply and its summary |
| Dispatch.SendAll | dfobserve/webserver/WebRequests.py:377-399 | the send loop computes exactly `InitialRows` |
| Dispatch.CountPending | dfobserve/webserver/WebRequests.py:407-409 | nPending: at most the number of rows, and zero iff no row is PENDING |
| Dispatch.CountPendingSettle | dfobserve/webserver/WebRequests.py:443-449 | settling one pending row lowers nPending by exactly one |
| Dispatch.PollRow | dfobserve/webserver/WebRequests.py:468-483 | one status poll: a failed poll gives "Machine Down"; Activity.Any false gives SUCCESS; otherwise the row stays PENDING |
| Dispatch.SweepFrom | dfobserve/webserver/WebRequests.py:432-460 | the sweep from row i on: no row added or dropped, the clock never goes back, and it is cut short only by the per-row time test with the limit reached |
| Dispatch.SweepFromFrame | dfobserve/webserver/WebRequests.py:432-455 | the sweep from row i on leaves rows 0..i-1 as they were |
| Dispatch.SweepFromEvolves | dfobserve/webserver/WebRequests.py:432-455 | the sweep from row i on only makes the allowed row changes |
| Dispatch.SweepFromInTime | dfobserve/webserver/WebRequests.py:457-460 | with the per-row test, a sweep from row i that is not cut short ends before the limit, or polled nothing from row i on |
| Dispatch.SweepFromPoll | dfobserve/webserver/WebRequests.py:432-460 | at a PENDING row: that row is replaced by its status poll and the poll's lag is added; the sweep stops there iff the per-row test finds the limit reached |
| Dispatch.SweepFromSkip | dfobserve/webserver/WebRequests.py:429-432 | a row that is not PENDING is passed over unchanged |
| Dispatch.SweepRows | dfobserve/webserver/WebRequests.py:426-460 | a sweep over the whole table: no row added or dropped, the clock never goes back, and only the per-row test can cut it short |
| Dispatch.SweepEvolves | dfobserve/webserver/WebRequests.py:432-455 | a sweep only makes the allowed row changes |
| Dispatch.SweepInTime | dfobserve/webserver/WebRequests.py:457-460 | a sweep of a table with a PENDING row, not cut short by the per-row test, ends before the limit |
| Dispatch.SweepPolls | dfobserve/webserver/WebRequests.py:432-455 | each row is either unchanged or was PENDING and is now its poll result; a sweep that was not cut short polled every PENDING row of the sweep |
| Dispatch.SweepFromPollsSome | dfobserve/webserver/WebRequests.py:432-455 | from row i on, each row is unchanged or replaced by its own poll result |
| Dispatch.SweepFromPollsAll | dfobserve/webserver/WebRequests.py:432-455 | a sweep from row i that is not cut short polls every PENDING row from i on |
| Dispatch.PollFrom | dfobserve/webserver/WebRequests.py:426-490 | the wait from a given sweep on: only allowed row changes; it ends with no row PENDING or with the limit reached; with a row pending it sleeps at least 0.5 s |
| Dispatch.PollRun | dfobserve/webserver/WebRequests.py:416-490 | the whole wait: only allowed row changes; it ends with no row PENDING or with `timeout_global` reached; with a row pending it takes at least 0.5 s |
| Dispatch.WaitRound | dfobserve/webserver/WebRequests.py:426-488 | one round (0.5 s sleep, then a sweep): nPending matches the table; either the wait ends here or the round ended before the limit; the rest of the wait is `PollFrom` from the next sweep |
| Dispatch.Sweep | dfobserve/webserver/WebRequests.py:426-460 | one sweep of the loop computes exactly `SweepRows`; the returned nPending counts the table's PENDING rows; with the per-row time test, a sweep that was not cut short ended before the limit |
| Dispatch.PollPending | dfobserve/webserver/WebRequests.py:432-455 | polling one PENDING row replaces exactly that row by its poll result, keeps nPending equal to the table's count, and is the step of `SweepFrom` at that row |
| Dispatch.PendingExists | dfobserve/webserver/WebRequests.py:426-431 | nPending > 0 means some row is PENDING |
| Dispatch.EvolvesKeepsRouted | dfobserve/webserver/WebRequests.py:426-488 | the wait loop never changes a row's name, address or command |
| Dispatch.EvolvesTrans | dfobserve/webserver/WebRequests.py:426-488 | the allowed row changes compose across sweeps |
| Dispatch.Poll | dfobserve/webserver/WebRequests.py:416-490 | the wait loop computes exactly `PollRun` with the limit `timeout_global` seconds, testing the time after every poll for an exposure wait and after every sweep otherwise |
| Dispatch.SendWebRequestNB | dfobserve/webserver/WebRequests.py:164-494 | the whole request meets `Dispatched`. Routing errors propagate. A dry run returns the routed table. Without waiting, or with nothing pending, it returns the first replies. A non-exposure `request_type` is UnboundLocalError, and a missing `readout_time` is KeyError. Otherwise the answer and the time taken are those of `PollRun` over the first replies. |
| Dispatch.Send | dfobserve/webserver/WebRequests.py:164-494 | a helper's request, possibly already failed while it was built, is passed through or dispatched |
| Dispatch.Answer | dfobserve/webserver/WebRequests.py:164-494 | the answer and time that `Sent` allows exist for every request: a non-error answer to a request that was built is a dry run iff one was asked for |
| Dispatch.SentIsAnswer | dfobserve/webserver/WebRequests.py:164-494 | a request has only one answer: any answer `Sent` allows is `Answer` |
| Dispatch.NoWaitIsFirstReplies | dfobserve/webserver/WebRequests.py:412-413 | a request that neither waits nor is a dry run answers with exactly the first replies of the routed rows |
| Dispatch.DispatchedShape | dfobserve/webserver/WebRequests.py:366-494 | a non-error answer is a dry run iff one was asked for; a summary has one row per routed row, in routed order, carrying the routed command |
| Dispatch.DispatchedWaitEnds | dfobserve/webserver/WebRequests.py:416-490 | an answer that waited evolved from the first replies by allowed changes only, and ended with nothing pending or with `timeout_global` reached |
| Dispatch.Keys | dfobserve/webserver/WebRequests.py:181 | the keywords present in `**kwargs`: each is present iff it was given |
| Dispatch.WithKwargs | dfobserve/utils/CameraUtils.py:72-84 | a keyword given both by the helper and in `**kwargs` is TypeError; otherwise the forwarded keywords replace the defaults and nothing else changes |
| Dispatch.KeysClash | dfobserve/webserver/WebRequests.py:164-182 | a forwarded keyword clashes with the helper's own iff it is one of skip, timeout_global, verbose, name or disable and the helper sets it (the keywords modelled) |
| Dispatch.ResponseByName | dfobserve/webserver/WebRequests.py:521-530 | `get_response_by_name`: IndexError iff no row has that name; otherwise the reply of the first such row |
| Dispatch.ResponseByIp | dfobserve/webserver/WebRequests.py:510-519 | `get_response_by_ip`: IndexError iff no row has that address; otherwise the reply of the first such row |
| Hardware.UnitName | dfobserve/utils/HardwareUtils.py:16 | every fresh unit name starts with "Dragonfly" |
| Hardware.InitialTable | dfobserve/utils/HardwareUtils.py:14-19 | Dragonfly301..310, in order, all UNDETERMINED |
| Hardware.WithStatus | dfobserve/utils/HardwareUtils.py:29-41 | `status.loc[Name == unit, "Status"] = s`: only rows with that name change, and names are kept |
| Hardware.AllWithStatus | dfobserve/utils/HardwareUtils.py:71-80 | `status["Status"] = s`: every row gets s, and names are kept |
| Hardware.NamesWithStatus | dfobserve/utils/HardwareUtils.py:85-96 | the up or down list: exactly the names whose status equals the value, in table order; empty iff there are none |
| Hardware.MarkTwice | dfobserve/utils/HardwareUtils.py:29-41 | marking twice equals marking once, and the last mark wins |
| Hardware.MarkUnknownName | dfobserve/utils/HardwareUtils.py:29 | marking a name the table does not hold changes nothing |
| Hardware.MarksCommute | dfobserve/utils/HardwareUtils.py:29-41 | marks of different units commute |
| Hardware.UpDownDisjoint | dfobserve/utils/HardwareUtils.py:85-96 | with distinct names, no unit is both up and down |
| Hardware.InitialNamesDistinct | dfobserve/utils/HardwareUtils.py:16 | the fresh table's names are distinct |
| Hardware.UnitNamesDiffer | dfobserve/utils/HardwareUtils.py:16 | different unit numbers give different names |
| Hardware.AllDownIsInvisible | dfobserve/utils/HardwareUtils.py:80-91 | after `MarkAllUnitsDown` ("Down"), no unit is listed as up or as down ("DOWN") |
| Hardware.AllUpIsAllNames | dfobserve/utils/HardwareUtils.py:71-85 | after `MarkAllUnitsUp`, every unit is up and none is down |
| Hardware.MarkEach | dfobserve/utils/HardwareUtils.py:51-60 | marking a list in turn: exactly the listed names get the status |
| Hardware.MarkEachSnoc | dfobserve/utils/HardwareUtils.py:51-60 | marking one more name is one more `WithStatus` |
| Hardware.MarkEachConcat | dfobserve/utils/HardwareUtils.py:51-60 | marking one list, then another, is marking the two together |
| Hardware.MarkEachSameNames | dfobserve/utils/HardwareUtils.py:51-60 | marks depend only on which names are listed, not on order or repetition |
| Hardware.RowNames | dfobserve/utils/HardwareUtils.py:47-54 | the names whose summary is (or is not) SUCCESS |
| Hardware.HardwareStatus.Current | dfobserve/utils/HardwareUtils.py:26-28 | a missing file reads as the fresh table |
| Hardware.HardwareStatus.InitializeHardwareStatus | dfobserve/utils/HardwareUtils.py:14-19 | the file exists and holds the fresh table |
| Hardware.HardwareStatus.MarkUnit | dfobserve/utils/HardwareUtils.py:21-43 | AssertionError iff the argument is not a "Dragonfly…" string, and then nothing changes; otherwise the (initialised) table with that name marked |
| Hardware.HardwareStatus.MarkUnitDown | dfobserve/utils/HardwareUtils.py:21-31 | as MarkUnit, with DOWN |
| Hardware.HardwareStatus.MarkUnitUp | dfobserve/utils/HardwareUtils.py:33-43 | as MarkUnit, with UP |
| Hardware.LeadingUnitNames | dfobserve/utils/HardwareUtils.py:21-24 | how many names from the front start with "Dragonfly": every one before it does, and the name at it does not |
| Hardware.HardwareStatus.MarkNames | dfobserve/utils/HardwareUtils.py:51-60 | marks every name in turn: succeeds iff all are "Dragonfly…" names, and then the table is `MarkEach`; otherwise AssertionError, with the names before the first bad one marked (each mark is written at once) and the registry untouched if it is the first |
| Hardware.HardwareStatus.MarkNameStep | dfobserve/utils/HardwareUtils.py:51-60 | one name of the loop: succeeds iff it is a "Dragonfly…" name, and then the table is marked up to and including it; otherwise nothing changes |
| Hardware.HardwareStatus.MarkAccessibleUnitsUp | dfobserve/utils/HardwareUtils.py:45-63 | sends "status" to all units (waiting, quiet) exactly as `Dispatched` says; a failed request is passed on with the table unchanged; otherwise the SUCCESS units are marked UP, then every other routed unit (failed or still pending) DOWN; a name that is not a unit name raises AssertionError and the marks made before it stay |
| Hardware.HardwareStatus.MarkReplies | dfobserve/utils/HardwareUtils.py:47-60 | marks the reply table: SUCCESS names UP, then the others DOWN, stopping at the first name that is not a unit name; the registry then holds the UP marks before it, or all UP marks and the DOWN marks before it |
| Hardware.AccessRequest | dfobserve/utils/HardwareUtils.py:46 | `SendWebRequestNB(command="status", which="all", verbose=False)`: waits for the replies, no dry run, no skip |
| Hardware.HardwareStatus.MarkAllUnitsUp | dfobserve/utils/HardwareUtils.py:65-72 | every row of the (initialised) table becomes UP |
| Hardware.HardwareStatus.MarkAllUnitsDown | dfobserve/utils/HardwareUtils.py:74-81 | every row becomes "Down" |
| Hardware.HardwareStatus.GetStatus | dfobserve/utils/HardwareUtils.py:83-137 | `get_status`: FileNotFoundError iff the file is missing; "all" (exact) gives the table; "up", "down" and "viz" in any case give the up list, the down list, and the map (KeyError when a unit is neither); anything else is AssertionError |
| Hardware.HardwareStatus.DownList | dfobserve/utils/HardwareUtils.py:83-118 | the skip list: defined iff the file exists, and exactly the DOWN names |
| Hardware.HardwareStatus.DownListIsGetStatus | dfobserve/utils/HardwareUtils.py:83-118 | the skip list is exactly what `get_status(which="down")` returns, error included |
| Readings.ReplyOf | dfobserve/webserver/WebRequests.py:521-530 | reading a reply field: IndexError iff there is no row; AttributeError iff the row holds an error code |
| Readings.MirrorIsWithinTolerance | dfobserve/utils/FilterTilterUtils.py:158-162 | magnitudes are compared, so −goal counts as good |
| Readings.CountBad | dfobserve/utils/CameraUtils.py:255 | the count of rows that are not good: zero iff every row is good |
| Readings.BadNames | dfobserve/observing/AutoObserve.py:319-324 | the names of the bad rows: as many as `CountBad`, exactly the bad rows' names |
| Readings.CheckAll | dfobserve/utils/FilterTilterUtils.py:156-192 | the loop computes exactly `ReadFrom` from the first name: one row per name, in order, each comparing its reading with the goal and recording `tol`; the first unreadable reply is raised |
| Readings.ReadFrom | dfobserve/utils/FilterTilterUtils.py:156-192 | reading the table from name k on: each row gives its name, the reading, whether it is within tolerance, the goal and `tol`; an error is the error of an unreadable reply |
| Readings.ReadFromReads | dfobserve/utils/FilterTilterUtils.py:156-192 | when every name from k on has a readable reply, the table is read with no error |
| Readings.ReadFromRow | dfobserve/utils/FilterTilterUtils.py:156-192 | row j of a table read from k on is the row of name j, built from that name's own reply |
| Readings.ReadFromFails | dfobserve/utils/FilterTilterUtils.py:156-192 | when every name from k up to j is readable and name j is not, reading from k on fails with name j's error |
| Camera.Query | dfobserve/utils/CameraUtils.py:46-56 | the "&key=value" suffix: empty iff there are no pairs, and it starts with '&' |
| Camera.QueryAppend | dfobserve/utils/CameraUtils.py:46-56 | suffixes of concatenated maps concatenate |
| Camera.AppendQuery | dfobserve/utils/CameraUtils.py:46-56 | the `+=` loop appends exactly the suffix |
| Camera.ScienceStems | dfobserve/utils/CameraUtils.py:37-44 | all three commands are light exposures; without an int OH time, the OH command is the science command |
| Camera.ScienceCommands | dfobserve/utils/CameraUtils.py:37-56 | the extras, then the pointing, are appended to all three; the OH command stays equal to the science one without an OH time |
| Camera.ScienceRequestFor | dfobserve/utils/CameraUtils.py:58-84 | TypeError iff `timeout_global` (or `verbose`, outside debug) is forwarded; otherwise timeout = exptime + wait_readout, a dry run iff debug, and otherwise an exposure wait. Science goes to ha6647/oiii5071, offs to the four off-bands, OH to the OH pair. |
| Camera.ScienceRouting | dfobserve/utils/CameraUtils.py:58-70 | with the command, the off-band and the OH commands set, science goes to ha6647/oiii5071, offs to the four off-bands, OH to the OH pair, and nothing to any other unit |
| Camera.ScienceRequest | dfobserve/utils/CameraUtils.py:37-84 | TypeError iff `timeout_global` (or `verbose`, outside debug) is forwarded. Otherwise: timeout exptime + wait_readout and a dry run iff debug. ha6647/oiii5071 get a light frame of `exptime`; the four off-bands get `off_exptime` with `&n=` and `n_offs`; the OH pair gets the int OH time, else `exptime`. Each command then carries the extras and then the pointing. |
| Camera.AllScienceExposure | dfobserve/utils/CameraUtils.py:24-85 | builds the commands with the string loops and sends the request `ScienceRequest` |
| Camera.ExposureRequestFor | dfobserve/utils/CameraUtils.py:114-186 | the exposure helpers' request: the command to `which`, timeout exptime + wait_readout, an exposure wait; TypeError on a clashing forwarded keyword |
| Camera.ExposeCommand | dfobserve/utils/CameraUtils.py:115-121 | `AllExpose`'s command starts "expose?type=light&time=" |
| Camera.ExposeRequest | dfobserve/utils/CameraUtils.py:115-132 | TypeError iff `timeout_global` or `verbose` is forwarded; otherwise a light frame of `exptime`, the extras before the pointing, to `which`, quiet, with timeout exptime + wait_readout |
| Camera.AllExpose | dfobserve/utils/CameraUtils.py:88-132 | sends `ExposeRequest` |
| Camera.FlatCommand | dfobserve/utils/CameraUtils.py:146-152 | the flat command starts "expose?type=flat&time=" |
| Camera.FlatRequest | dfobserve/utils/CameraUtils.py:146-162 | TypeError iff `timeout_global` is forwarded; otherwise `n` flat frames, the pointing before the extras, to `which`, with timeout exptime + wait_readout |
| Camera.AllFlatFieldExposure | dfobserve/utils/CameraUtils.py:135-162 | sends `FlatRequest` |
| Camera.DarkCommand | dfobserve/utils/CameraUtils.py:171-177 | the dark command starts "expose?type=dark&time=" |
| Camera.DarkRequest | dfobserve/utils/CameraUtils.py:165-187 | a call without `exptime` (required) or with a forwarded `timeout_global` is TypeError |
| Camera.AllDarkExposure | dfobserve/utils/CameraUtils.py:165-187 | sends `DarkRequest` |
| Camera.FocusPairs | dfobserve/utils/CameraUtils.py:202 | the autofocus command carries eight parameters |
| Camera.FocusRequest | dfobserve/utils/CameraUtils.py:190-207 | one autofocus command to every unit (`which="all"`) |
| Camera.AutoFocus | dfobserve/utils/CameraUtils.py:190-207 | sends `FocusRequest` |
| Camera.SetTemperatureRequest | dfobserve/utils/CameraUtils.py:210-218 | below 15, the set command even with `disable`; at 15 or above, the disable command; UnboundLocalError iff exactly 15 without `disable` |
| Camera.AllSetCameraTemperatures | dfobserve/utils/CameraUtils.py:210-218 | sends `SetTemperatureRequest` |
| Camera.GetTemperatureRequest | dfobserve/utils/CameraUtils.py:228-229 | the cooler "get" command to `which` |
| Camera.AllCheckCameraTemperatures | dfobserve/utils/CameraUtils.py:221-261 | one row per fleet unit, in order, good iff within tolerance; returns the table and the bad count; the first unreadable unit raises; the rows carry no "tol" value, since the column is set while the table is empty |
| FilterTilter.TiltCommand | dfobserve/utils/FilterTilterUtils.py:31-60 | "device/filtertilter?command=<verb>&argument=" and the angle |
| FilterTilter.PairRequest | dfobserve/utils/FilterTilterUtils.py:33-40 | the H-alpha command to ha6647 only and the OIII command to oiii5071 only; a dry run iff debug |
| FilterTilter.TiltRequest | dfobserve/utils/FilterTilterUtils.py:31-41 | never a TypeError of its own; the "set" command reaches exactly the science units, each at its own line's angle; a dry run iff debug |
| FilterTilter.MoveRequest | dfobserve/utils/FilterTilterUtils.py:59-69 | the same with the "move" verb and the two offsets |
| FilterTilter.AllTiltScienceFilters | dfobserve/utils/FilterTilterUtils.py:14-41 | sends `TiltRequest` |
| FilterTilter.AllMoveFilters | dfobserve/utils/FilterTilterUtils.py:44-69 | sends `MoveRequest` (the "move" verb) |
| FilterTilter.Labelled | dfobserve/utils/FilterTilterUtils.py:101 | every name paired with its filter label |
| FilterTilter.TiltUnits | dfobserve/utils/FilterTilterUtils.py:98-101 | the H-alpha units, then the OIII units |
| FilterTilter.TiltsOf | dfobserve/utils/FilterTilterUtils.py:102-113 | one row per unit, in order, with its reading, or the first unreadable reply's error |
| FilterTilter.ReadTilts | dfobserve/utils/FilterTilterUtils.py:102-113 | the table loop computes exactly `TiltsOf` |
| FilterTilter.AllGetFilterTilts | dfobserve/utils/FilterTilterUtils.py:76-114 | debug returns the dry run; otherwise the tilt table of the H-alpha units, then the OIII units |
| FilterTilter.GetTiltsRequest | dfobserve/utils/FilterTilterUtils.py:85-93 | "get" to every science unit and to no other; a dry run iff debug |
| FilterTilter.Unskipped | dfobserve/utils/FilterTilterUtils.py:146-148 | the names not in the `skip` keyword; all names without one |
| FilterTilter.CheckTiltsRequest | dfobserve/utils/FilterTilterUtils.py:139-142 | the quiet "get" request to both science lines |
| FilterTilter.AllCheckFilterTilts | dfobserve/utils/FilterTilterUtils.py:117-206 | a successful check gives a summary, and its two tables are exactly those read (`ReadFrom`) from the H-alpha units and then from the OIII units not skipped, each row comparing the angle with that line's goal and recording `tol` |
| FlipFlat.FlipFlatCommand | dfobserve/utils/FlipFlatUtils.py:29-76 | "device/flipflat?command=<action>&port=" and the port |
| FlipFlat.FlatHavingRequest | dfobserve/utils/FlipFlatUtils.py:30-77 | only the flat-having command: it reaches exactly the flat-having units, and `which` is ignored |
| FlipFlat.TurnOnRequest | dfobserve/utils/FlipFlatUtils.py:29-30 | the lamp command at the given brightness reaches exactly the flat-having units |
| FlipFlat.CloseRequest | dfobserve/utils/FlipFlatUtils.py:47-62 | "close" reaches exactly the flat-having units; `which` and the helper's own `verbose` are not forwarded |
| FlipFlat.OpenRequest | dfobserve/utils/FlipFlatUtils.py:65-80 | "open" reaches exactly the flat-having units; `which` and the helper's own `verbose` are not forwarded |
| FlipFlat.TurnOffRequest | dfobserve/utils/FlipFlatUtils.py:40-43 | "off" to the `which` units and to every flat-having unit |
| FlipFlat.TurnOffScienceIsFlatHaving | dfobserve/utils/FlipFlatUtils.py:34-44 | with the default "science", the off command reaches exactly the flat-having units |
| FlipFlat.CloseRoutesFlatHaving | dfobserve/utils/FlipFlatUtils.py:47-62 | closing routes to exactly the non-skipped flat-having units |
| FlipFlat.AllTurnOnFlipFlaps | dfobserve/utils/FlipFlatUtils.py:14-31 | sends `TurnOnRequest` |
| FlipFlat.AllTurnOffFlipFlaps | dfobserve/utils/FlipFlatUtils.py:34-44 | sends `TurnOffRequest` |
| FlipFlat.AllCloseFlipFlats | dfobserve/utils/FlipFlatUtils.py:47-62 | sends `CloseRequest` |
| FlipFlat.AllOpenFlipFlats | dfobserve/utils/FlipFlatUtils.py:65-80 | sends `OpenRequest` |
| FlipFlat.PrefixUnits | dfobserve/utils/FlipFlatUtils.py:99-124 | the first element decides: empty → IndexError; a number first → AttributeError; a "Dragonfly" name first → unchanged; otherwise every element is prefixed |
| FlipFlat.FlipFlatsByUnit | dfobserve/utils/FlipFlatUtils.py:83-132 | as written it always fails: the lookup by `df.name` is AttributeError |
| FlipFlat.UnitItemName | dfobserve/utils/FlipFlatUtils.py:93-94 | the documented reading of a unit item: always a "Dragonfly…" name |
| FlipFlat.AddressOf | dfobserve/utils/FlipFlatUtils.py:103-127 | the address of the named unit; an error iff the fleet has no such unit |
| FlipFlat.FlipFlatsByUnitIntended | dfobserve/utils/FlipFlatUtils.py:83-132 | the intended per-unit requests, one per item, in order, each to that unit's address |
| FlipFlat.FlipFlatsByNumber | dfobserve/utils/FlipFlatUtils.py:93-94 | `[301]` on the test fleet reaches 192.168.50.11 |
| Focuser.FocuserRequest | dfobserve/utils/FocuserUtils.py:15-24 | one command to the units `which` selects, with the helper's own `verbose` |
| Focuser.InitFocusers | dfobserve/utils/FocuserUtils.py:15-18 | sends "focuser?command=init" |
| Focuser.FocuserStatusAll | dfobserve/utils/FocuserUtils.py:21-24 | sends "focuser?command=status" |
| Focuser.Others | dfobserve/utils/FocuserUtils.py:34-36 | the skip complement: exactly the fleet names not in the list |
| Focuser.SetFocusRequest | dfobserve/utils/FocuserUtils.py:27-42 | the goto command. A list becomes `which="all"` with the complement skipped, and a forwarded `skip` then clashes (TypeError). A string `which` passes through. |
| Focuser.SetFocusListReachesListed | dfobserve/utils/FocuserUtils.py:32-39 | with a list, the routed rows are exactly the fleet units named in it |
| Focuser.SetFocus | dfobserve/utils/FocuserUtils.py:27-42 | sends `SetFocusRequest` |
| DryRunTables.TestFleetAscending | dfobserve/testing/tests.py:158-169 | the test fleet is listed in address order |
| DryRunTables.RoutesTo | dfobserve/webserver/WebRequests.py:361-371 | on the test fleet without skips, the routed table is the entry table |
| DryRunTables.ColumnOfTestFleet | dfobserve/webserver/WebRequests.py:244-359 | the test fleet's command column, row by row |
| DryRunTables.RouteAll | dfobserve/testing/tests.py:138-172 | `which="all"` routes "status" to all ten units in order |
| DryRunTables.RouteHalpha | dfobserve/testing/tests.py:175-187 | "halpha" routes to the three ha6647 units |
| DryRunTables.RouteOiii | dfobserve/testing/tests.py:190-202 | "oiii" routes to the oiii5071 unit |
| DryRunTables.RouteScience | dfobserve/testing/tests.py:205-222 | "science" routes to the four science units |
| DryRunTables.RouteScienceOffs | dfobserve/testing/tests.py:225-242 | "science offs" routes to the four off-band units |
| DryRunTables.RouteOH | dfobserve/testing/tests.py:245-256 | "OH" routes to the OH pair |
| DryRunTables.RouteHalphaOverride | dfobserve/testing/tests.py:259-293 | the ha override replaces the base command on the ha6647 rows |
| DryRunTables.RouteOiiiOverride | dfobserve/testing/tests.py:296-330 | the oiii override replaces it on the oiii5071 row |
| DryRunTables.RouteHalphaOffOverride | dfobserve/testing/tests.py:333-367 | the ha-off override replaces it on the ha off-band rows |
| DryRunTables.RouteOiiiOffOverride | dfobserve/testing/tests.py:370-404 | the oiii-off override replaces it on the oiii off-band rows |
| DryRunTables.RouteOHOverride | dfobserve/testing/tests.py:407-441 | the OH override replaces it on the OH row |
| DryRunTables.RouteOHOffOverride | dfobserve/testing/tests.py:444-478 | the OH-off override replaces it on the OH_off row |
| DryRunTables.RouteFlatHaving | dfobserve/testing/tests.py:481-515 | the flat-having command replaces it on the flat-having rows |
| DryRunTables.RouteCombo | dfobserve/testing/tests.py:518-558 | "science offs" with flat-having and ha-off commands: the expected mixed table |
| DryRunTables.TestScienceCommands | dfobserve/testing/tests.py:570-571 | the science and off-band command texts of the science test |
| DryRunTables.ScienceColumn | dfobserve/utils/CameraUtils.py:60-70 | the science request's command column on the test fleet |
| DryRunTables.ScienceExposureRoute | dfobserve/testing/tests.py:561-600 | sci × 3, offs × 4, sci × 3 over the test fleet, as a dry run |
| DryRunTables.PairColumn | dfobserve/utils/FilterTilterUtils.py:33-40 | the pair request's column on the test fleet |
| DryRunTables.TiltScienceFiltersRoute | dfobserve/testing/tests.py:603-626 | tilts 5.0 and 7.0 reach the three ha6647 units and the oiii5071 unit |
| DryRunTables.TiltTexts | dfobserve/testing/tests.py:603-626 | tilts 5.0 and 7.0 give the commands "device/filtertilter?command=set&argument=5.0" and "…=7.0" |
| DryRunTables.PairRoute | dfobserve/utils/FilterTilterUtils.py:33-40 | the pair request routes the H-alpha command to the three ha6647 rows and the OIII command to the oiii5071 row of the test fleet |
| Checks.CameraFaultOf | dfobserve/checks/check_cameras.py:65-91 | the status cascade, where the first match wins: calculation in progress; then a calculation error; then bias not "Acceptable"; then read noise not "Acceptable" |
| Checks.FocuserMarks | dfobserve/checks/check_focusers.py:62-79 | a unit is marked iff `update`, the result is present, and it starts with "fail" or "error" (None and "success" never mark) |
| Checks.MarksUpTo | dfobserve/checks/check_cameras.py:65-91 | the names a pass through rows 0..k-1 marks, in row order: at most one per row (what they are is `MarksUpToMeaning`) |
| Checks.MarksErrSticks | dfobserve/checks/check_cameras.py:65-91 | a failed pass stays failed with the same error |
| Checks.MarksUpToMeaning | dfobserve/checks/check_cameras.py:65-91 | the pass succeeds iff every row is readable and each row it marks has a "Dragonfly…" name; a name is marked iff some row with that name has a failing verdict |
| Checks.Verdicts | dfobserve/checks/check_cameras.py:65-91 | one verdict per row of the status table, in order |
| Checks.RowNamesOf | dfobserve/checks/check_cameras.py:65-91 | one name per row of the status table, in order |
| Checks.MarkList | dfobserve/checks/check_cameras.py:65-91 | marking through rows 0..k-1 marks at most k names |
| Checks.MarkListOk | dfobserve/checks/check_cameras.py:65-91 | marking succeeds iff every row's verdict is readable and every row it marks has a "Dragonfly…" name |
| Checks.MarkListNoMarks | dfobserve/checks/check_cameras.py:71-91 | when no row fails, marking succeeds iff every verdict is readable, and then it marks nothing |
| Checks.MarkListNames | dfobserve/checks/check_cameras.py:65-91 | after a successful pass, a name is marked iff some row with that name fails |
| Checks.MarkListErrSticks | dfobserve/checks/check_cameras.py:65-91 | the first error of a pass is its result however many rows follow |
| Checks.MarksNext | dfobserve/checks/check_focusers.py:59-79 | one more row extends the pass by that row's verdict |
| Checks.NoUpdateMarksNothing | dfobserve/checks/check_cameras.py:71-91 | without `update`, a status pass marks nothing |
| Checks.MarkNext | dfobserve/checks/check_cameras.py:41-47 | `MarkUnitDown` as one more mark of the run, or AssertionError with the registry unchanged |
| Checks.MarkRows | dfobserve/checks/check_cameras.py:65-91 | the marking loop does exactly what `MarksUpTo` says; after a failure the registry holds the marks made before it (`MarksMade`), and the error is that of the failing row |
| Checks.MarksLeft | dfobserve/checks/check_cameras.py:65-91 | the names a marking pass through rows 0..k-1 has marked, including when it stopped early: for a successful pass, all of its marks |
| Checks.MarksLeftAfterFailure | dfobserve/checks/check_cameras.py:65-91 | when marking fails at row k, the marks left after any later row are those made through rows 0..k-1 |
| Checks.MarksMade | dfobserve/checks/check_cameras.py:65-91 | the marks a status pass left in the registry: for a successful pass, all of the marks of `MarksUpTo` |
| Checks.MarksMadeAfterFailure | dfobserve/checks/check_cameras.py:65-91 | when the status pass fails at row k, the registry keeps exactly the marks made through rows 0..k-1 |
| Checks.MarkStep | dfobserve/checks/check_cameras.py:65-91 | one row of the marking loop: extends the marks by that row's verdict, or stops with the error with the registry as it was |
| Checks.StatusRequest | dfobserve/checks/check_cameras.py:58-64 | "status" to every unit not in skip, without waiting |
| Checks.MarkedDownAreSkipped | dfobserve/checks/check_cameras.py:58-64 | a unit just marked down is skipped by the second status round |
| Checks.CameraCheckCommand | dfobserve/checks/check_cameras.py:26 | "calculation?type=check-camera&ntests=" and the count |
| Checks.CameraCheckRequest | dfobserve/checks/check_cameras.py:27-34 | the test to every unit not down, quiet and without waiting; a forwarded `skip` or `verbose` is TypeError |
| Checks.AllCheckCameras | dfobserve/checks/check_cameras.py:10-93 | A missing registry is FileNotFoundError. If the first round fails, that error is returned with no wait and the table unchanged. Otherwise units whose first reply is an error code are marked down, whatever `update` is. If that marking fails, its error is returned, and the registry keeps the marks made before the failure. Next comes a wait of ntests × 8 s. The status round skips the down list as it then is. If that round fails, its error is returned and the registry holds the first marks. Otherwise the cascade marks with `update` (again, marks before a failure stay), and the result is the status table or that marking's error. |
| Checks.FocuserCheckCommand | dfobserve/checks/check_focusers.py:46 | the command embeds movement, tolerance and use_birger |
| Checks.FocuserCheckRequest | dfobserve/checks/check_focusers.py:48-57 | each request goes to the units not in the one skip list, quiet and without waiting; the helper's own `verbose` is not forwarded, so a TypeError comes exactly from a forwarded `skip` |
| Checks.AllCheckFocusers | dfobserve/checks/check_focusers.py:17-81 | A missing registry is FileNotFoundError. The test is sent with the down list read once, on the first network round; a failed test is passed on with no wait and the table unchanged. Otherwise, after 30 s, the status request with the same skip list is sent. A failed status round is passed on with the table unchanged. Otherwise units whose result starts with "fail" or "error" are marked down when `update`. The result is the status table or the marking's error, and the marks made before a failure stay. |
| Checks.AddNew | dfobserve/checks/check_filters.py:84-86 | appending unseen names: a prefix-preserving, duplicate-free union |
| Checks.AllBad | dfobserve/checks/check_filters.py:84-118 | `all_bad`: the distinct units out of tolerance at some angle |
| Checks.AllBadSnoc | dfobserve/checks/check_filters.py:64-90 | one more angle extends `all_bad` by its new names |
| Checks.Diffs | dfobserve/checks/check_filters.py:89-90 | the diff column, one entry per row |
| Checks.AddBad | dfobserve/checks/check_filters.py:84-120 | each unseen bad name is appended; with `update` it is also marked down once. The call succeeds iff `Appended` does, and then gives `AddNew`; otherwise it is AssertionError at the first unseen non-"Dragonfly" name, and the names appended before it stay marked |
| Checks.Appended | dfobserve/checks/check_filters.py:84-88 | the loop over `badlist`: when it completes it gives `AddNew`; without `update` it always completes; with `update` it stops at the first unseen name that `MarkUnitDown` refuses; it only ever appends |
| Checks.AppendedOk | dfobserve/checks/check_filters.py:84-88 | starting from "Dragonfly…" names, the loop with `update` completes iff every bad name starts with "Dragonfly" |
| Checks.CheckAngle | dfobserve/checks/check_filters.py:64-122 | one angle computes exactly `AngleStep` of `AngleOutcome`: tilt, read back, record the diffs, then mark the new bad units; the registry ends as `AngleStep` says, including after an error |
| Checks.AngleStep | dfobserve/checks/check_filters.py:64-90 | one angle's effect: on success `all_bad` grows by `AddNew` of that angle's bad units, and those are the units marked (only with `update`); a failure that has marked something is AssertionError |
| Checks.AngleOutcomes | dfobserve/checks/check_filters.py:64-71 | the readings each angle gets from its own pair of network rounds: one per angle |
| Checks.AngleOutcomesAt | dfobserve/checks/check_filters.py:64-71 | angle a's readings come from network rounds 2a and 2a+1 |
| Checks.TiltsUpTo | dfobserve/checks/check_filters.py:64-90 | the run through angles 0..n-1: when it succeeds it has one table pair per angle and has marked `all_bad` (only with `update`) |
| Checks.TiltsErrSticks | dfobserve/checks/check_filters.py:64-90 | once an angle fails, the run's result and marks stay those of that failure whatever angles follow |
| Checks.TiltsUpToAt | dfobserve/checks/check_filters.py:64-90 | the tables of a successful run are exactly the readings each angle got, in order |
| Checks.TiltsUpToOk | dfobserve/checks/check_filters.py:64-120 | the run through n angles succeeds iff each angle's readings succeed and, with `update`, each angle's bad units all start with "Dragonfly" |
| Checks.TiltsUpToGood | dfobserve/checks/check_filters.py:64-120 | the run succeeds iff every angle so far is good (`GoodUpTo`) |
| Checks.TiltsUpToGoodStep | dfobserve/checks/check_filters.py:64-120 | one more angle keeps "the run succeeds iff every angle so far is good" |
| Checks.GoodUpToMeaning | dfobserve/checks/check_filters.py:64-120 | `GoodUpTo` holds iff each angle so far is good |
| Checks.GoodAngleMarks | dfobserve/checks/check_filters.py:84-88 | after good angles, marking one more angle's bad units succeeds iff all of them start with "Dragonfly" |
| Checks.RecordedUnitNames | dfobserve/checks/check_filters.py:84-88 | after good angles, every name in `all_bad` starts with "Dragonfly" |
| Checks.AllBadUnitNames | dfobserve/checks/check_filters.py:84-86 | `all_bad` holds only "Dragonfly…" names when each angle's bad list does |
| Checks.AddNewUnitNames | dfobserve/checks/check_filters.py:84-86 | appending "Dragonfly…" names to "Dragonfly…" names keeps every name a "Dragonfly…" name |
| Checks.AngleTurn | dfobserve/checks/check_filters.py:64-90 | one turn of the angle loop: the run through a+1 angles, its error, its tables and `all_bad`, and the registry it leaves |
| Checks.AnglesCheckedSnoc | dfobserve/checks/check_filters.py:64-90 | the per-angle record of replies and tables grows by the angle just checked |
| Checks.AllCheckFilterTilters | dfobserve/checks/check_filters.py:27-130 | Skip is read once. A missing registry is FileNotFoundError. Otherwise the result is the run `TiltsUpTo` over the angles' outcomes: it succeeds iff the run does, and an error is the run's first error. On success the tables are the run's, `all_bad` is distinct and in first-seen order, and there is one diff entry per angle per line. The registry ends with the run's marks, including those made before a failure; each unit is marked at most once, and only with `update`. Both branches behave alike. |
| Observation.TiltLine | dfobserve/observing/Observation.py:198-205 | ValueError iff \|angle\| ≥ 20, checked first. The three H-alpha spellings select H-alpha, and the four OIII spellings select OIII. Any other name is FilterNotRecognizedError. |
| Observation.TiltExamples | dfobserve/testing/tests.py:84-89 | ("ha", 30) → ValueError; ("OVII", 15) → FilterNotRecognizedError; the accepted spellings of each line |
| Observation.NCals | dfobserve/observing/Observation.py:272-275 | floor(exptime / off_band_exptime) when throughout (ZeroDivisionError iff that time is 0), otherwise 1 |
| Observation.NCalsDefault | dfobserve/observing/Observation.py:273 | the default 600 s off-band time (set at line 210) gives 6 per hour |
| Observation.DitherOffsets | dfobserve/observing/Observation.py:280-290 | `dither_dict` has exactly the keys 0..8 |
| Observation.DitherGrid | dfobserve/observing/Observation.py:280-290 | key k maps to (a·(1 − k mod 3), a·(1 − k div 3)) |
| Observation.DayAfter | dfobserve/observing/Observation.py:521-531 | an explicit date gives the real next day; "today" gives tomorrow's day number placed in today's month, and fails exactly when tomorrow cannot be formed |
| Observation.TodayRuleAtMonthEnd | dfobserve/observing/Observation.py:522-524 | on the last day of a month, the "today" rule lands on the 1st of the same month, before today |
| Observation.MorningLimit | dfobserve/observing/Observation.py:526-551 | 04:00 on the day after the plan's date (for "today", 04:00 on the day `DayAfter` gives); succeeds exactly when that day can be formed, and otherwise passes its error on |
| Observation.ExplicitStart | dfobserve/observing/Observation.py:556-578 | the hour is read first (ValueError without one); an hour below 12 goes on the next day, otherwise on the date itself |
| Observation.Uptime | dfobserve/observing/Observation.py:589-592 | the seconds part of set − rise, in [0, 86400), and equal to it within a day |
| Observation.Timings | dfobserve/observing/Observation.py:505-592 | `check_observing_timings`: the uptime is stored iff no error; None rewrites the rule and starts "N/A" |
| Observation.TimingRules | dfobserve/observing/Observation.py:510-586 | sunset: TargetNotUpError iff sunset < rise. Moonset and target rise: EndOfNightError iff after 04:00 next day. Explicit time: DayTimeError iff before sunset or after sunrise. |
| Observation.BeforeMoonsetOnlyWarns | dfobserve/observing/Observation.py:586-587 | a start before moonset but inside the night is accepted |
| Observation.SecondBuildFails | dfobserve/observing/Observation.py:536-558 | None is rewritten to a text with no integer hour, so a second build fails with ValueError |
| Observation.DateFieldsExample | dfobserve/observing/Observation.py:527-529 | "YYYY-MM-DD" reads as that date |
| Observation.ClockExample | dfobserve/observing/Observation.py:558-578 | "HH:00:00" reads as that hour |
| Observation.CustomTimeRule | dfobserve/testing/tests.py:112-127 | "01:00:00" goes on the next day and "22:00:00" on the date itself |
| Observation.TestDate | dfobserve/testing/tests.py:112-127 | "2022-04-21" reads as that date, and it is followed by 2022-04-22 |
| Observation.Repeat | dfobserve/observing/Observation.py:399-400 | n copies of a row (none for n ≤ 0) |
| Observation.PlanRows | dfobserve/observing/Observation.py:394-486 | the plan begins with the before rows (flats, darks, focus, standards) and ends with the after rows (standards, flats, darks), the iterations between them |
| Observation.PlanPaired | dfobserve/observing/Observation.py:424-435 | every science row is followed by its calibration row (off-band time, n_cals), and every calibration row is preceded by its science row |
| Observation.PlanCounts | dfobserve/observing/Observation.py:409-427 | exactly `iterations` science rows (none when it is not positive), and one focus row iff `do_focus` |
| Observation.CalibrationRowsCount | dfobserve/observing/Observation.py:395-486 | the before, between and after blocks hold no science row, and a focus row only before (exactly one iff do_focus) |
| Observation.IterationsCount | dfobserve/observing/Observation.py:424-427 | k iterations hold k science rows and no focus row |
| Observation.ScienceIndex | dfobserve/observing/Observation.py:424-427 | a plan with a science row has one at some index |
| Observation.CountPositive | dfobserve/observing/Observation.py:424-427 | a plan with a science row at some index counts at least one |
| Observation.NColumnIffIterations | dfobserve/observing/Observation.py:487-490 | the plan has an `n` column iff it has a calibration row iff iterations > 0 |
| Observation.CountAppend | dfobserve/observing/Observation.py:394-486 | row counts add over concatenation |
| Observation.TotalAppend | dfobserve/observing/Observation.py:492-495 | the budget adds over concatenation |
| Observation.TotalRepeat | dfobserve/observing/Observation.py:492-495 | n copies count n times (calibration and focus rows count 0) |
| Observation.PlanTotal | dfobserve/observing/Observation.py:492-495 | the budget in closed form: science × iterations, in-between calibrations per gap, and the before and after calibrations once |
| Observation.CategoryTotals | dfobserve/observing/Observation.py:492-495 | the budget of a flats, darks or standards block is its count times its exposure time |
| Observation.IterationsTotal | dfobserve/observing/Observation.py:492-495 | k iterations cost k science exposures and, before the last, one in-between block per iteration |
| Observation.LongPlanExample | dfobserve/testing/tests.py:92-98 | the long-plan test needs 7300 s, more than two hours of up-time |
| Observation.AppendRepeat | dfobserve/observing/Observation.py:399-400 | the append loop adds exactly n copies |
| Observation.AppendFlats | dfobserve/observing/Observation.py:395-400 | the flats loop appends exactly the flats block of its place |
| Observation.AppendDarks | dfobserve/observing/Observation.py:402-407 | the darks loop appends exactly the darks block of its place |
| Observation.AppendStandards | dfobserve/observing/Observation.py:413-421 | the standards loop appends exactly the standards block of its place |
| Observation.AppendBefore | dfobserve/observing/Observation.py:395-421 | the before rows, in order: flats, darks, focus, standards |
| Observation.AppendIteration | dfobserve/observing/Observation.py:424-460 | one iteration: science, calibration, then flats, darks and standards when it is not the last |
| Observation.IterationsSnoc | dfobserve/observing/Observation.py:424-460 | the first i iterations followed by iteration i are the first i + 1 iterations |
| Observation.AppendIterations | dfobserve/observing/Observation.py:424-460 | the iterations loop appends exactly the iterations of the plan; AttributeError iff there is an iteration and the off-band time or count is unset |
| Observation.AppendAfter | dfobserve/observing/Observation.py:465-486 | the after rows, in order: standards, flats, darks |
| Observation.BuildPlan | dfobserve/observing/Observation.py:394-490 | the appended plan equals `PlanRows`; AttributeError iff there is an iteration and the off-band time or count is unset |
| Observation.SumExptime | dfobserve/observing/Observation.py:492-495 | the budget loop computes `TotalExptime` |
| Observation.FindCalibration | dfobserve/observing/Observation.py:487-490 | finds a calibration row iff the plan has an `n` column |
| Observation.Observation.constructor | dfobserve/observing/Observation.py:39-70 | only the constructor settings are set |
| Observation.Observation.SetTilts | dfobserve/observing/Observation.py:187-205 | the named line's tilt becomes the angle; nothing else changes, and nothing changes at all on an error |
| Observation.Observation.ConfigureObservation | dfobserve/observing/Observation.py:207-290 | the rule and off-band settings are stored first; a ZeroDivisionError then stops before n_cals and the dithers; otherwise n_cals = `NCals` and the dithers = `DitherOffsets` |
| Observation.Observation.ConfigureCalibrations | dfobserve/observing/Observation.py:292-330 | replaces only the calibration settings |
| Observation.Observation.ConfigureStandards | dfobserve/observing/Observation.py:332-365 | replaces only the standard-star settings |
| Observation.Observation.CheckObservingTimings | dfobserve/observing/Observation.py:505-592 | applies `Timings` and stores the start and the uptime on success; AttributeError without a rule |
| Observation.Observation.ApplyDefaults | dfobserve/observing/Observation.py:382-388 | missing calibration, standards and observation settings get their defaults; present ones are kept |
| Observation.Observation.PlanWithSettings | dfobserve/observing/Observation.py:391-503 | the timings, then the plan, then the budget: TargetUptimeError iff total/3600 > uptime, and then `obs_plan` is not stored |
| Observation.Observation.PlanAndBudget | dfobserve/observing/Observation.py:394-503 | with the settings in place: the plan is `PlanRows` (AttributeError when the off-band time or count is unset); then TargetUptimeError iff its budget exceeds the uptime, and only a plan within budget is stored as `obs_plan` |
| Observation.Observation.ConstructObservingPlan | dfobserve/observing/Observation.py:367-503 | `construct_observing_plan` end to end: defaults, timings, the plan equal to `PlanRows`, the budget check |
| AutoObserve.Count | dfobserve/observing/AutoObserve.py:469-491 | occurrences of a call: at most the length, and 0 when absent |
| AutoObserve.CountConcat | dfobserve/observing/AutoObserve.py:469-491 | counts add over concatenation |
| AutoObserve.Site.Do | dfobserve/observing/AutoObserve.py:266-467 | a call is recorded at the end of the trace, and the clock advances by its duration |
| AutoObserve.Site.DoAll | dfobserve/observing/AutoObserve.py:266-467 | a run of calls is recorded in order |
| AutoObserve.EndOfScriptShutdown | dfobserve/observing/AutoObserve.py:473-491 | the shutdown in order: temperatures to 30, wait 30 s, close the flip flats, park, stop |
| AutoObserve.ShutdownParksOnce | dfobserve/observing/AutoObserve.py:473-491 | the shutdown parks exactly once, as the next-to-last call, before the stop |
| AutoObserve.DitherMountActions | dfobserve/utils/MountUtils.py:12-25 | as intended: a mount command per non-zero axis, east first, and nothing else |
| AutoObserve.DitherMountAsWritten | dfobserve/utils/MountUtils.py:12-25 | as written: the same mount commands, and UnboundLocalError unless both axes moved |
| AutoObserve.DitherZeroAxisFails | dfobserve/utils/MountUtils.py:12-25 | key 1 of the grid has a zero axis, so the as-written dither fails with UnboundLocalError; the intended one moves north only |
| AutoObserve.FlatRowBracket | dfobserve/observing/AutoObserve.py:368-397 | a flat row: close and light the flats, n flat exposures, then lamps off and open; as written it fails before any exposure |
| AutoObserve.FlatRowCount | dfobserve/observing/AutoObserve.py:368-397 | a flat row holds exactly n flat exposures |
| AutoObserve.FlatRowActions | dfobserve/observing/AutoObserve.py:368-397 | as intended: n + 4 calls (none negative), the flat exposures exactly at positions 2..n+1 |
| AutoObserve.FlatRowAsWritten | dfobserve/observing/AutoObserve.py:368-382 | as written: the flats are closed and lit, then TypeError before any flat exposure |
| AutoObserve.RowStep | dfobserve/observing/AutoObserve.py:367-467 | a row advances the dither index iff it is a science row and does not raise |
| AutoObserve.RowNeverParks | dfobserve/observing/AutoObserve.py:367-467 | no plan row parks the mount |
| AutoObserve.PrefixDither | dfobserve/observing/AutoObserve.py:342-415 | the dither index before row k is the number of science rows before it |
| AutoObserve.PrefixRun | dfobserve/observing/AutoObserve.py:343-467 | rows 0..k-1 in order, up to the first exception: no row of the run parks the mount |
| AutoObserve.PlanScienceRow | dfobserve/observing/AutoObserve.py:412-467 | in a built plan, a science row dithers by `dither_dict[di]`, guides, takes one paired exposure with the plan's off-band time and n, stops guiding and re-slews |
| AutoObserve.TenthScienceRowFails | dfobserve/observing/AutoObserve.py:414 | dither index 9 is KeyError, before any call |
| AutoObserve.DarkRowFails | dfobserve/observing/AutoObserve.py:406-411 | a dark row always raises TypeError (no `exptime`) |
| AutoObserve.ScienceRowRequests | dfobserve/observing/AutoObserve.py:431-452 | the row's exposure requests are accepted and wait exptime + 60 s |
| AutoObserve.StartWaitActions | dfobserve/observing/AutoObserve.py:143-169 | no wait iff the start is "N/A" or past; otherwise one sleep that ends exactly at the start |
| AutoObserve.StartWaitAsWritten | dfobserve/observing/AutoObserve.py:143-150 | as written: only "N/A" succeeds (no wait); any timed start is TypeError (astropy `Time` minus `datetime`) |
| AutoObserve.TimedStartFails | dfobserve/observing/AutoObserve.py:143-169 | for a start still ahead, the source raises TypeError where the intended wait is one sleep up to the start |
| AutoObserve.AwaitOpenRoof | dfobserve/observing/AutoObserve.py:174-194 | the gate only checks the roof and sleeps 60 s; EndOfNightError only after twilight, without a shutdown; on success the roof was open at a time no later than twilight |
| AutoObserve.MarkDown | dfobserve/observing/AutoObserve.py:319-324 | the quarantine loop (also at lines 220-221): marks exactly the names DOWN; AssertionError iff one is not a unit name, and then the names before it stay DOWN; in every case the registry only gains DOWN marks |
| AutoObserve.CountOne | dfobserve/observing/AutoObserve.py:209-231 | counting after one more call |
| AutoObserve.CheckCameras | dfobserve/observing/AutoObserve.py:211-212 | one temperature check, recorded at the current time: the bad cameras at that time, or the error reading them raises |
| AutoObserve.ResendTemperatures | dfobserve/observing/AutoObserve.py:230-231 | a resend without skip, then a 120 s wait |
| AutoObserve.CoolCameras | dfobserve/observing/AutoObserve.py:205-231 | Starts with the set point (with skip) and 120 s, never parks, makes at most four resends, and ends only on a reading with no bad camera; a failed read raises its own error. The registry is the old one with exactly the cameras in `marked` set DOWN. Marking starts only after the fourth resend, and every marked camera was bad at a reading from then on. An AssertionError stops after the unit names at the front of the last reading. With cameras that stay bad (the same unit names at every reading), it never finishes, and five rounds mark exactly those cameras DOWN. |
| AutoObserve.MarkEachOnlyMarksDown | dfobserve/observing/AutoObserve.py:215-221 | marking cameras DOWN only ever turns rows DOWN |
| AutoObserve.MarkReading | dfobserve/observing/AutoObserve.py:219-221 | one quarantine round: the bad cameras are marked DOWN in order; success iff all are unit names, otherwise AssertionError with the leading unit names marked; the registry stays the start table with every name marked so far set DOWN |
| AutoObserve.CheckTiltsNow | dfobserve/observing/AutoObserve.py:300-305 | one tilt check, recorded at the current time: the bad units of each line at that time, or the error reading them raises |
| AutoObserve.ResendTilts | dfobserve/observing/AutoObserve.py:337-340 | a tilt resend, then a 10 s wait |
| AutoObserve.Quarantined | dfobserve/observing/AutoObserve.py:319-324 | the registry after marking the H-alpha names, then the OIII names, DOWN up to the first name that is not a unit name; with only unit names, all of them are marked |
| AutoObserve.Quarantine | dfobserve/observing/AutoObserve.py:319-324 | the bad H-alpha units, then the bad OIII units, are marked DOWN; AssertionError iff a name is not a unit name, leaving the registry as `Quarantined` says |
| AutoObserve.SettleTilts | dfobserve/observing/AutoObserve.py:294-340 | It only checks, resends and sleeps. There are 1 to 5 − try_tilt checks (1 from 4 on) and one resend fewer (`TiltLoop`). The registry file is never removed. A failed read raises its error with the registry unchanged. Success means a reading was taken: a good one leaves the registry unchanged, a bad one after the resends marks its H-alpha, then its OIII units DOWN. An AssertionError there leaves the marks `Quarantined` describes (`TiltsSettled`). |
| AutoObserve.ShutdownAfter | dfobserve/observing/AutoObserve.py:469 | calls without a park, followed by a run ending in the shutdown, still end in the shutdown |
| AutoObserve.EndsWithShutdownParksOnce | dfobserve/observing/AutoObserve.py:469-487 | a run ending with the shutdown parks exactly once, just before the stop |
| AutoObserve.ShutdownEnds | dfobserve/observing/AutoObserve.py:473-491 | the shutdown alone ends with the shutdown |
| AutoObserve.MorningCutoff | dfobserve/observing/AutoObserve.py:344-354 | the cutoff (also before the slew, at lines 252-262): shutdown then EndOfNightError iff `verbose` and past twilight; otherwise nothing happens |
| AutoObserve.RunRow | dfobserve/observing/AutoObserve.py:367-467 | a row's calls are appended in order |
| AutoObserve.PrefixRunStops | dfobserve/observing/AutoObserve.py:343-467 | once a row raises, later rows do not run |
| AutoObserve.RunPlan | dfobserve/observing/AutoObserve.py:342-467 | Per row: cutoff, altitude, skip list, the row itself. A cut ends with the shutdown (only with `verbose`); otherwise nothing parks. With the target up and no cut, the calls are exactly `PrefixRun`. |
| AutoObserve.PlanStep | dfobserve/observing/AutoObserve.py:343-467 | One row: the morning cutoff first, which with `verbose` ends in the shutdown. Otherwise the row runs without parking; with the target up, the calls extend `PrefixRun` by that row. |
| AutoObserve.PlanRow | dfobserve/observing/AutoObserve.py:357-467 | a row past the cutoff: nothing parks, and with the target up and the status file present the calls are exactly `RowStep` with the skip list |
| AutoObserve.PrefixRunNext | dfobserve/observing/AutoObserve.py:343-467 | while no row has raised, the run of rows 0..k is the run of rows 0..k-1 followed by row k |
| AutoObserve.PrefixRunExtends | dfobserve/observing/AutoObserve.py:343-467 | a row run right after the run of rows 0..k-1 gives the run of rows 0..k |
| AutoObserve.LogAppend | dfobserve/observing/AutoObserve.py:264-340 | calls without a park extend the log |
| AutoObserve.TargetSetup | dfobserve/observing/AutoObserve.py:264-340 | Slew and tracking, then: a missing tilt is AttributeError with the registry untouched. Otherwise the tilt step (`TiltStep`): a skip list that cannot be read raises its error with no further call; otherwise the tilts with that skip list, a 10 s wait, and the tilt loop from try_tilt = 0 with the skip list, whose outcome and registry are `TiltsSettled`. |
| AutoObserve.TiltAndSettle | dfobserve/observing/AutoObserve.py:280-340 | the calls extend the log without parking and are the tilt step of `TiltStep`: the skip-list read, the tilts and wait, the loop, and the registry it leaves |
| AutoObserve.RunTarget | dfobserve/observing/AutoObserve.py:237-467 | A missing altitude method is AttributeError with no call. A target below the limit is skipped with no call, and any completed target was either skipped or slewed to and tracked first (`TargetVisited`). With the target up and no cutoff, the run is `TargetRun`: the setup and tilt step, the plan check, and then exactly `PrefixRun` over the whole plan with the skip list the tilt step leaves, with its outcome. A cut ends with the shutdown. |
| AutoObserve.SetupAndPlan | dfobserve/observing/AutoObserve.py:264-467 | for a target that is up: slew and tracking first; a cut ends with the shutdown; otherwise nothing parks and the run is `TargetRun` |
| AutoObserve.GridOf | dfobserve/observing/AutoObserve.py:413-416 | the dither grid a target's science rows read exists iff the target has a dither, and is its offsets |
| AutoObserve.CheckTargetsForIssues | dfobserve/observing/AutoObserve.py:89-97 | Targets without a plan build one; existing plans are kept. Success means every target has a plan, and every target that had none holds the plan `PlanRows` gives for its settings. With every plan present it always succeeds. |
| AutoObserve.EnsurePlan | dfobserve/observing/AutoObserve.py:93-96 | An existing plan is kept untouched and counts as success. Without one, the plan is built for "today" (`BuiltTonight`): a timing error is raised; no iterations or no off-band settings is AttributeError; otherwise the target holds `PlanRows` of its settings, and it succeeds iff the total exposure time fits the uptime, else TargetUptimeError. |
| AutoObserve.WaitForStart | dfobserve/observing/AutoObserve.py:143-169 | only the first target's start counts: IndexError without targets, AttributeError without timings |
| AutoObserve.StartWaitNeverParks | dfobserve/observing/AutoObserve.py:143-169 | the start wait never parks |
| AutoObserve.AutoObserve.Prepare | dfobserve/observing/AutoObserve.py:139-231 | Checks, wait, gate and cooldown, none of which parks. No targets gives IndexError before any call. A roof that never opens, or cameras that are always bad, never complete. The registry gains the cooldown's DOWN marks. Completing means every target has a plan, the calls are the wait until the first start, a gate that found the roof open by twilight, and a cooldown begun with the registry's skip list that ended with no bad camera (`Prepared`). |
| AutoObserve.AutoObserve.RunTargets | dfobserve/observing/AutoObserve.py:237-467 | Every target in turn; the calls are the runs of the targets one after another, each started at the clock after the ones before (`StartTimes`). Every target passed was skipped below the limit or slewed to and tracked first (`Visited`), and a normal end ran all of them. A cut ends with the shutdown and EndOfNightError (only with `verbose`); otherwise nothing parks. A missing altitude method raises AttributeError. |
| AutoObserve.StartTimesSnoc | dfobserve/observing/AutoObserve.py:236-240 | one more target run, started at the clock after the runs so far, keeps the start times |
| AutoObserve.AutoObserve.Observe | dfobserve/observing/AutoObserve.py:130-471 | A normal end is the start wait, the gate and the cooldown (`Prepared`), then every target's run in turn (`Visited`, `StartTimes`), then the shutdown, which parks exactly once, at the very end. An exception leaves the mount unparked, unless it is the verbose morning cutoff, which shuts down first. With targets, the missing altitude method means `observe` never completes. |
| AutoObserve.AutoObserve.RunAndShutdown | dfobserve/observing/AutoObserve.py:237-469 | The target loop, then the shutdown: a normal end is every target's run in turn followed by the shutdown, and an exception is the runs up to it. Every target passed was visited (`Visited`), each at its start time (`StartTimes`). An exception leaves the mount unparked, unless it is the verbose morning cutoff, which shuts down first. |
| AutoObserve.QuickObserve.Create | dfobserve/observing/AutoObserve.py:535-544 | ZeroDivisionError iff offband_exptime = 0; otherwise n_offs = floor(exptime / offband_exptime) |
| AutoObserve.QuickObserve.TiltsAndSettle | dfobserve/observing/AutoObserve.py:598-646 | The slew, then the tilt step (`TiltStep` with `quick`). A skip list that cannot be read raises its error after the slew. Otherwise: the tilts with that skip list, a 10 s wait, and the loop from try_tilt = 3 without the skip list (at most two checks and one resend), whose outcome and registry are `TiltsSettled`. |
| AutoObserve.QuickObserve.TiltPrelude | dfobserve/observing/AutoObserve.py:598-614 | the slew, then the skip-list read: its error after the slew alone, or the tilts with that skip list and a 10 s wait |
| AutoObserve.QuickObserve.Steps | dfobserve/observing/AutoObserve.py:597-681 | calls that neither park nor expose extend the run's log exactly by those calls |
| AutoObserve.QuickObserve.Dither | dfobserve/observing/AutoObserve.py:648-651 | one mount command per non-zero axis |
| AutoObserve.QuickObserve.Exposures | dfobserve/observing/AutoObserve.py:658-670 | TypeError iff niter > 0: `timeout_global` is passed on twice |
| AutoObserve.QuickObserve.Observe | dfobserve/observing/AutoObserve.py:597-681 | Never parks and never exposes. The tilt step is `TiltStep` (`quick`), and its failure is raised after it. Otherwise, with the intended dither and its reply not logged: the dither and the guider with its 15 s wait; then niter > 0 raises TypeError, and niter <= 0 completes by stopping guiding and re-slewing (as written the dither step always raises first; see Left out). |

## Left out

- Ephemeris and altitude computation (sun, moon and target positions; the
  grid searches of sunset, sunrise, moonset and morning twilight; target rise,
  set and altitude) are floating point and need astropy. They are inputs:
  integer timestamps and an altitude verdict.
- The network transport (`urllib`, `requests`, JSON decoding, `NewSendCommand`,
  `ParseResponse`) is replaced by an oracle that gives each send an HTTP
  failure, a URL failure, another failure, or a typed reply. The dynamic
  attribute wrappers `APIResponse`, `WrapDF` and `WebRequestSummary` become
  typed records.
- Shell and subprocess work is represented only by the action it names, and
  its replies are not modelled. This covers the mount commands, the
  autoguider, `isRoofOpen`, `mount_pis` and `set_data_dir`. So the crashes in
  logging those replies are not modelled: `StartMount` returns None, which
  has no `stdout`; `res.to_string()` is called on a subprocess result
  after the re-slew and in the shutdown; and `QuickObserve.observe` logs
  `r.stdout` of what `DitherMount` returns, which is a string, so with both
  axes non-zero it raises AttributeError right after the dither.
- The mount pointing appended to exposure commands is an input list of
  key/value pairs.
- Sleeps, progress bars and `datetime.now()` are replaced by the simulated
  clock of `Site`. The poll loop's clock is the elapsed-milliseconds
  parameter of the network oracle.
- Logging, printing, plan rendering (`view_observing_plan`), plots in
  `check_filters`, and the colours of `get_status("viz")` are output only.
  The "viz" map is modelled only for its KeyError.
- `check_dragonfly.py` is left out: it is interactive and restarts services
  over ssh.
- `randomize_dithers` is random, and `dither_pattern` is never read by
  `observe`. The model stores neither.
- `Number` values (tilts, temperatures, focus values) carry their printed
  text next to their value. Python's float repr is not modelled.
- `focus_kwargs` of `observe` is not modelled: a focus row records only the
  skip list it uses.
- The `guide` flag of `AutoObserve` is kept as a field and never read, as in
  the source.
- `QuickObserve.observe`'s exposure loop is modelled as one call to
  `Exposures`, because its first round always raises.
- The "today" date path depends on the wall clock. The day after "today"
  is modelled (`DayAfter`, `TodayRuleAtMonthEnd`), but `AutoObserve` builds
  plans from a supplied `today` date.
- AutoObserve.CoolCameras: the loop is bounded by a `fuel` count, and
  running out of fuel is the `Stalled` outcome. The source loops for ever
  when cameras stay out of tolerance after the resends; the model states
  that non-termination only as "never Done".
- AutoObserve.RunTarget and AutoObserve.SetupAndPlan state the plan rows'
  calls exactly (`PrefixRun`) only when the altitude verdict holds for the
  target at every time and the registry file exists after the tilt step.
  Otherwise they state only that nothing parks and that a cut ends with the
  shutdown.
- AutoObserve.AutoObserve.RunTargets, AutoObserve.AutoObserve.RunAndShutdown
  and AutoObserve.AutoObserve.Observe state of each target's run only that it
  was skipped or began with the slew and tracking (`TargetVisited`). The
  whole run of one target is stated by `RunTarget`.
- Base.ParseInt: the contract states only that a parsed text is non-empty;
  its meaning is pinned by `ParseIntOfIntToString` and the date and clock
  examples, not by a full characterisation of Python's `int()`.
- Calendar.ParseDateFields: the contract states only that success needs
  three fields; the values are pinned by `DateFieldsExample`.
- Calendar.ParseClock: the contract states only that an accepted clock is a
  valid time of day; the accepted formats are pinned by `ClockExample`.
- Camera.ExposeCommand, Camera.FlatCommand and Camera.DarkCommand state only
  the command's prefix; the appended pairs are stated by `AppendQuery`.
- AutoObserve.Count: a counting helper whose contract gives only bounds;
  the lemmas `CountConcat`, `CountOne` and `CountAll` carry its meaning.
- AutoObserve.RowStep, AutoObserve.PlanScienceRow, AutoObserve.RunPlan and
  AutoObserve.PrefixRun use the intended flat row (`FlatRowActions`) and the
  intended dither (`DitherMountActions`). As written, every flat row raises
  TypeError after lighting the flats. Every science row whose dither key has
  a zero axis (keys 1, 3, 4, 5 and 7) raises UnboundLocalError after the mount
  command. The as-written behaviour is stated separately by
  `FlatRowAsWritten`, `DitherMountAsWritten` and `DitherZeroAxisFails` (see
  Findings), not by the row functions.
- AutoObserve.QuickObserve.Dither and AutoObserve.QuickObserve.Observe use
  the intended dither and do not model the logging of its reply. As written,
  the default `DitherMount(0, 0)` and any offset with a zero axis raise
  UnboundLocalError, and any other offset raises AttributeError when the
  string reply's `stdout` is logged. So the program as written never reaches
  the guider, the exposures or the re-slew of `QuickObserve.observe`; the
  model's run past the dither is the intended one.
- AutoObserve.CoolCameras, AutoObserve.SettleTilts and the other members
  that read `World.badCameras` and `World.badTilts`: these oracles are free
  functions of the time, not tied to `Camera.AllCheckCameraTemperatures` or
  `FilterTilter.AllCheckFilterTilts` and the fleet's replies. The properties
  proved about them (never parking, a bounded number of checks, the error
  passed on) hold for every oracle.
- AutoObserve.PlanScienceRow: the plan's `n` column is float64 in the source
  (a calibration row gives it NaN elsewhere), so the exposure command carries
  "n=6.0". The model prints the integer ("n=6").
- AutoObserve.StartWaitActions and AutoObserve.WaitForStart model the
  intended wait until the start. As written, any timed start raises
  TypeError (see Findings and `StartWaitAsWritten`).
- Dispatch.KeysClash and Dispatch.WithKwargs model five forwardable keywords:
  `skip`, `timeout_global`, `verbose`, `name` and `disable`. The other
  keywords a caller could forward through `**kwargs` are not modelled. These
  are `which`, `dryrun`, the per-line commands, `timeout_seconds`,
  `request_type`, `readout_time`, `wait_for_response` and
  `hardware_config_file`. So the TypeError of forwarding one that a helper
  sets itself is not stated.
- Base.ToUpper is ASCII upper-casing. Python's Unicode `upper()` can change
  other characters and the length (for example "ß" becomes "SS").
- Units that share an address: the routed table's order among them follows
  the model's stable insertion sort. pandas' default sort does not promise
  that order.

## Findings

| source | as written | input that shows it | evidently intended | confidence | as-written member | corrected member |
|---|---|---|---|---|---|---|
| dfobserve/utils/MountUtils.py:20-24 | `r` and `r1` are bound only for a non-zero axis, but both replies are always read | `DitherMount(0, 25)`: key 1 of the dither grid, the second science row; also `QuickObserve.observe()` with its default (0, 0) | one mount command per non-zero axis, reading only the replies that exist | not executed | AutoObserve.DitherMountAsWritten | AutoObserve.DitherMountActions |
| dfobserve/observing/AutoObserve.py:381-382 | `range(nexp)` on the plan's `n` column, which pandas stores as floats once a calibration row holds NaN for the other rows | any plan with a flat row and at least one iteration: `n` of the flat row is `1.0` | take `n` flat exposures | not executed | AutoObserve.FlatRowAsWritten | AutoObserve.FlatRowActions |
| dfobserve/utils/FlipFlatUtils.py:103-127 | the unit table is filtered by `df.name`, a column it does not have (its column is `Name`) | `OpenFlipFlats(["Dragonfly301"])` | each listed unit's own address gets the open or close command | not executed | FlipFlat.FlipFlatsByUnit | FlipFlat.FlipFlatsByUnitIntended |
| dfobserve/observing/AutoObserve.py:148-149 | the start is an astropy `Time` (set at Observation.py:578), and `datetime.now()` is subtracted from it | any target whose start is not "N/A" (sunset, moonset, target rise or a clock time) | wait until the start | not executed | AutoObserve.StartWaitAsWritten | AutoObserve.StartWaitActions |
| dfobserve/observing/AutoObserve.py:242 | `observe` asks each target `check_target_altitude()` (also at line 356), a method `Observation` does not define; its altitude test is `calc_target_altitude` (Observation.py:170) | any `observe` whose targets have plans, whose start wait, roof gate and cooldown succeed: the first target raises AttributeError before any call | skip a target below its minimum altitude, otherwise slew to it, track it and run its plan | not executed | AutoObserve.AutoObserve.RunTargets | AutoObserve.RunTarget |
