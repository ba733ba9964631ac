/**
  Reading one field of each unit's reply out of a response table and
  comparing it with a goal: the loop shared by the camera-temperature and
  the filter-tilt checks.
 */
module Readings {
  import opened Base
  import opened Dispatch

  /** `res.get_response_by_name(name).<Field>`: no row with that name is an
      IndexError, a row whose reply is an error code has no fields
      (AttributeError). */
  function ReplyOf(rows: seq<SummaryRow>, name: string): (r: Result<Reply>)
    ensures r.Err? <==> ResponseByName(rows, name).Err? || ResponseByName(rows, name).value.Code?
    ensures ResponseByName(rows, name).Err? ==> r == Err(IndexError)
    ensures ResponseByName(rows, name).Ok? && ResponseByName(rows, name).value.Code? ==> r == Err(AttributeError)
  {
    match ResponseByName(rows, name)
    case Err(e) => Err(e)
    case Ok(Code(_)) => Err(AttributeError)
    case Ok(Body(rep)) => Ok(rep)
  }

  /** `np.abs(np.abs(goal) - np.abs(value)) <= tol`. */
  predicate WithinTolerance(goal: real, value: real, tol: real)
  {
    Abs(Abs(goal) - Abs(value)) <= tol
  }

  /** The comparison ignores signs: the mirrored value is as good as the goal. */
  lemma MirrorIsWithinTolerance(goal: real, tol: real)
    requires tol >= 0.0
    ensures WithinTolerance(goal, goal, tol) && WithinTolerance(goal, -goal, tol)
  {
  }

  /** One row of a tolerance table. `tol` is the table's "tol" column:
      None where the rows are appended without it (the column is NaN). */
  datatype Check = Check(name: string, goal: real, value: real, diff: real, tol: Option<real>, isGood: bool)

  /** Number of rows that are not good. */
  function CountBad(cs: seq<Check>): (n: nat)
    ensures n <= |cs|
    ensures n == 0 <==> forall i :: 0 <= i < |cs| ==> cs[i].isGood
  {
    if cs == [] then 0
    else
      assert forall i :: 1 <= i < |cs| ==> cs[1..][i - 1] == cs[i];
      (if cs[0].isGood then 0 else 1) + CountBad(cs[1..])
  }

  /** Names of the rows that are not good, in order. */
  function BadNames(cs: seq<Check>): (ns: seq<string>)
    ensures |ns| == CountBad(cs)
    ensures forall n :: n in ns <==> exists i :: 0 <= i < |cs| && cs[i].name == n && !cs[i].isGood
  {
    if cs == [] then []
    else
      var rest := BadNames(cs[1..]);
      assert forall i :: 1 <= i < |cs| ==> cs[1..][i - 1] == cs[i];
      if cs[0].isGood then rest else [cs[0].name] + rest
  }

  /** The index of the first name whose reply cannot be read. */
  predicate FirstUnreadable(rows: seq<SummaryRow>, names: seq<string>, k: int)
  {
    0 <= k < |names| && ReplyOf(rows, names[k]).Err? &&
    forall j :: 0 <= j < k ==> ReplyOf(rows, names[j]).Ok?
  }

  /** `cs` holds one row per name, in order, with `field` of that name's
      reply compared against `goal` within `tol`, and `column` recorded as
      the row's "tol" entry. */
  predicate Tabulated(names: seq<string>, rows: seq<SummaryRow>, goal: real, tol: real, column: Option<real>,
                      field: Reply -> real, cs: seq<Check>)
  {
    |cs| == |names| &&
    forall k :: 0 <= k < |names| ==>
      ReplyOf(rows, names[k]).Ok? &&
      var v := field(ReplyOf(rows, names[k]).value);
      cs[k] == Check(names[k], goal, v, Abs(Abs(goal) - Abs(v)), column, WithinTolerance(goal, v, tol))
  }

  /** The row a readable reply gives. */
  function RowOf(name: string, goal: real, tol: real, column: Option<real>, v: real): Check
  {
    Check(name, goal, v, Abs(Abs(goal) - Abs(v)), column, WithinTolerance(goal, v, tol))
  }

  /** The rows for `names[k..]`, or the error of the first of them whose
      reply cannot be read. */
  function ReadFrom(names: seq<string>, rows: seq<SummaryRow>, goal: real, tol: real, column: Option<real>,
                    field: Reply -> real, k: nat): (r: Result<seq<Check>>)
    requires k <= |names|
    ensures r.Ok? ==> |r.value| == |names| - k
    decreases |names| - k
  {
    if k == |names| then Ok([])
    else
      match ReplyOf(rows, names[k])
      case Err(e) => Err(e)
      case Ok(rep) =>
        match ReadFrom(names, rows, goal, tol, column, field, k + 1)
        case Err(e) => Err(e)
        case Ok(rest) => Ok([RowOf(names[k], goal, tol, column, field(rep))] + rest)
  }

  /** When every name from `k` on is readable, `ReadFrom` succeeds. */
  lemma {:induction false} ReadFromReads(names: seq<string>, rows: seq<SummaryRow>, goal: real, tol: real,
                                         column: Option<real>, field: Reply -> real, k: nat)
    requires k <= |names|
    requires forall j :: k <= j < |names| ==> ReplyOf(rows, names[j]).Ok?
    ensures ReadFrom(names, rows, goal, tol, column, field, k).Ok?
    decreases |names| - k
  {
    if k < |names| {
      ReadFromReads(names, rows, goal, tol, column, field, k + 1);
    }
  }

  /** When `ReadFrom` succeeds from `k`, its row for name `j` is that
      name's reply compared with the goal. */
  lemma {:induction false} ReadFromRow(names: seq<string>, rows: seq<SummaryRow>, goal: real, tol: real,
                                       column: Option<real>, field: Reply -> real, k: nat, j: nat)
    requires k <= j < |names|
    requires ReadFrom(names, rows, goal, tol, column, field, k).Ok?
    ensures ReplyOf(rows, names[j]).Ok?
    ensures ReadFrom(names, rows, goal, tol, column, field, k).value[j - k] ==
            RowOf(names[j], goal, tol, column, field(ReplyOf(rows, names[j]).value))
    decreases j - k
  {
    if k < j {
      ReadFromRow(names, rows, goal, tol, column, field, k + 1, j);
    }
  }

  /** When name `j` is the first unreadable one from `k` on, `ReadFrom`
      fails with its error. */
  lemma {:induction false} ReadFromFails(names: seq<string>, rows: seq<SummaryRow>, goal: real, tol: real,
                                         column: Option<real>, field: Reply -> real, k: nat, j: nat)
    requires k <= j < |names| && ReplyOf(rows, names[j]).Err?
    requires forall i :: k <= i < j ==> ReplyOf(rows, names[i]).Ok?
    ensures ReadFrom(names, rows, goal, tol, column, field, k) == Err(ReplyOf(rows, names[j]).error)
    decreases j - k
  {
    if k < j {
      ReadFromFails(names, rows, goal, tol, column, field, k + 1, j);
    }
  }

  /** For each name in order, reads `field` of its reply and appends a row
      saying whether it is within `tol` of `goal`; stops at the first reply
      that cannot be read and raises its error. `column` is what each row
      records under "tol". */
  method CheckAll(names: seq<string>, rows: seq<SummaryRow>, goal: real, tol: real, column: Option<real>,
                  field: Reply -> real)
    returns (r: Result<seq<Check>>)
    ensures r.Ok? <==> forall k :: 0 <= k < |names| ==> ReplyOf(rows, names[k]).Ok?
    ensures r.Err? ==> exists k :: FirstUnreadable(rows, names, k) && r.error == ReplyOf(rows, names[k]).error
    ensures r.Ok? ==> Tabulated(names, rows, goal, tol, column, field, r.value)
    ensures r == ReadFrom(names, rows, goal, tol, column, field, 0)
  {
    var out: seq<Check> := [];
    var k := 0;
    while k < |names|
      invariant 0 <= k <= |names|
      invariant |out| == k
      invariant forall j :: 0 <= j < k ==> ReplyOf(rows, names[j]).Ok?
      invariant forall j :: 0 <= j < k ==>
        var v := field(ReplyOf(rows, names[j]).value);
        out[j] == Check(names[j], goal, v, Abs(Abs(goal) - Abs(v)), column, WithinTolerance(goal, v, tol))
    {
      var rep := ReplyOf(rows, names[k]);
      if rep.Err? {
        assert FirstUnreadable(rows, names, k);
        ReadFromFails(names, rows, goal, tol, column, field, 0, k);
        return Err(rep.error);
      }
      var v := field(rep.value);
      var diff := Abs(Abs(goal) - Abs(v));
      out := out + [Check(names[k], goal, v, diff, column, diff <= tol)];
      k := k + 1;
    }
    ReadFromReads(names, rows, goal, tol, column, field, 0);
    forall j | 0 <= j < |names|
      ensures out[j] == ReadFrom(names, rows, goal, tol, column, field, 0).value[j]
    {
      ReadFromRow(names, rows, goal, tol, column, field, 0, j);
    }
    assert out == ReadFrom(names, rows, goal, tol, column, field, 0).value;
    r := Ok(out);
  }
}
