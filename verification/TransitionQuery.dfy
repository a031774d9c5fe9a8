/**
 The UPDATE statement that a job transition builds clause by clause, with positional arguments.
 A placeholder has no name: only its position in the text ties it to an argument.
 */
module TransitionQuery {
  import opened Types
  import opened JobTable

  datatype Value =
    | VNull
    | VInt(n: int)
    | VStatus(s: JobStatus)
    | VMessage(m: Message)
    | VTime(t: Instant)
    | VId(id: JobId)

  datatype Column = Status | MessageText | ExitCode | UpdatedAt | ConfirmationStartedAt | StartedAt | FinishedAt | WorkerOwner

  /** `?` or NULL inside a resolution. */
  datatype Operand = Placeholder | NullLiteral

  /** The right-hand side of one assignment, as text. */
  datatype Rhs =
    | Param                                                        // ?
    | CoalesceParam                                                // COALESCE(column, ?)
    | EmptyText                                                    // ''
    | CaseOf(unknown: Operand, cancelled: Operand, other: Operand) // CASE WHEN .. ? .. ? .. THEN u WHEN .. ? .. THEN c ELSE o END

  datatype Assignment = Assignment(column: Column, rhs: Rhs)

  /** UPDATE jobs SET sets WHERE id = ? AND status IN (?, ..) [AND not cancelled AND account active] */
  datatype Query = Query(sets: seq<Assignment>, states: nat, guarded: bool)

  function OperandHoles(o: Operand): nat {
    if o == Placeholder then 1 else 0
  }

  function Holes(r: Rhs): nat {
    match r
    case Param => 1
    case CoalesceParam => 1
    case EmptyText => 0
    case CaseOf(u, c, o) => 3 + OperandHoles(u) + OperandHoles(c) + OperandHoles(o)
  }

  function SetHoles(sets: seq<Assignment>): nat {
    if sets == [] then 0 else Holes(sets[0].rhs) + SetHoles(sets[1..])
  }

  function Operate(o: Operand, args: seq<Value>, i: nat): Value
    requires i + OperandHoles(o) <= |args|
  {
    if o == Placeholder then args[i] else VNull
  }

  /** A right-hand side reads the row as it was before the statement, and its arguments in textual order. */
  function Evaluate(job: Job, active: bool, column: Column, rhs: Rhs, args: seq<Value>): Value
    requires |args| == Holes(rhs)
  {
    match rhs
    case Param => args[0]
    case CoalesceParam =>
      var was := if column == ConfirmationStartedAt then job.marker else if column == StartedAt then job.started else None;
      if was.Some? then VTime(was.value) else args[0]
    case EmptyText => VNull
    case CaseOf(u, c, o) =>
      var afterU := 2 + OperandHoles(u);
      var afterC := afterU + 1 + OperandHoles(c);
      if (job.marker.Some? || args[0] == VInt(1)) && args[1] != VStatus(Succeeded) then Operate(u, args, 2)
      else if job.marker.None? && args[afterU] == VInt(0) && (job.cancel || !active) then Operate(c, args, afterU + 1)
      else Operate(o, args, afterC)
  }

  /** Writing a value of the wrong kind changes nothing, so a misplaced argument shows. */
  function Assign(job: Job, column: Column, v: Value): Job {
    match (column, v)
    case (Status, VStatus(s)) => job.(status := s)
    case (MessageText, VMessage(m)) => job.(message := m)
    case (ExitCode, VInt(n)) => job.(exitCode := Some(n))
    case (ExitCode, VNull) => job.(exitCode := None)
    case (UpdatedAt, VTime(t)) => job.(updated := t)
    case (ConfirmationStartedAt, VTime(t)) => job.(marker := Some(t))
    case (StartedAt, VTime(t)) => job.(started := Some(t))
    case (FinishedAt, VTime(t)) => job.(finished := Some(t))
    case (WorkerOwner, VNull) => job.(owner := "")
    case _ => job
  }

  function Assigned(job: Job, active: bool, row: Job, sets: seq<Assignment>, args: seq<Value>): Job
    requires |args| == SetHoles(sets)
    decreases |sets|
  {
    if sets == [] then row
    else
      var n := Holes(sets[0].rhs);
      Assigned(job, active, Assign(row, sets[0].column, Evaluate(job, active, sets[0].column, sets[0].rhs, args[..n])), sets[1..], args[n..])
  }

  datatype Executed = BindError | NoRow | Updated(db: DB)

  /** Running the bound statement against the tables. */
  function Execute(db: DB, q: Query, args: seq<Value>): Executed {
    var n := SetHoles(q.sets);
    if |args| != n + 1 + q.states || !args[n].VId? then BindError
    else
      var id := args[n].id;
      if id !in db.jobs then NoRow
      else
        var job := db.jobs[id];
        var active := IsActive(db, job.user);
        if VStatus(job.status) !in args[n + 1..] || (q.guarded && (job.cancel || !active)) then NoRow
        else Updated(WithRows(db, db.jobs[id := Assigned(job, active, job, q.sets, args[..n])], {id}))
  }

  lemma {:induction false} AppendHoles(sets: seq<Assignment>, more: seq<Assignment>)
    ensures SetHoles(sets + more) == SetHoles(sets) + SetHoles(more)
  {
    if sets == [] {
      assert sets + more == more;
    } else {
      assert (sets + more)[1..] == sets[1..] + more;
      AppendHoles(sets[1..], more);
    }
  }

  /** Appending a clause with its own arguments leaves the earlier clauses bound as they were. */
  lemma {:induction false} AppendAssigned(job: Job, active: bool, row: Job, sets: seq<Assignment>, args: seq<Value>, s: Assignment, more: seq<Value>)
    requires |args| == SetHoles(sets) && |more| == Holes(s.rhs)
    ensures SetHoles(sets + [s]) == |args + more|
    ensures Assigned(job, active, row, sets + [s], args + more)
         == Assign(Assigned(job, active, row, sets, args), s.column, Evaluate(job, active, s.column, s.rhs, more))
    decreases |sets|
  {
    AppendHoles(sets, [s]);
    if sets == [] {
      assert sets + [s] == [s] && args + more == more && more[..|more|] == more;
    } else {
      var n := Holes(sets[0].rhs);
      assert (sets + [s])[1..] == sets[1..] + [s];
      assert (args + more)[..n] == args[..n] && (args + more)[n..] == args[n..] + more;
      AppendAssigned(job, active, Assign(row, sets[0].column, Evaluate(job, active, sets[0].column, sets[0].rhs, args[..n])), sets[1..], args[n..], s, more);
    }
  }

  /** The clauses built so far, their arguments, and what they do to one arbitrary row. */
  datatype Draft = Draft(sets: seq<Assignment>, args: seq<Value>)

  ghost predicate Does(d: Draft, job: Job, active: bool, row: Job) {
    |d.args| == SetHoles(d.sets) && Assigned(job, active, job, d.sets, d.args) == row
  }

  method Append(d: Draft, s: Assignment, more: seq<Value>, ghost job: Job, ghost active: bool, ghost row: Job) returns (d': Draft)
    requires Does(d, job, active, row) && |more| == Holes(s.rhs)
    ensures Does(d', job, active, Assign(row, s.column, Evaluate(job, active, s.column, s.rhs, more)))
  {
    AppendAssigned(job, active, job, d.sets, d.args, s, more);
    d' := Draft(d.sets + [s], d.args + more);
  }

  method AppendParam(d: Draft, column: Column, v: Value, ghost job: Job, ghost active: bool, ghost row: Job) returns (d': Draft)
    requires Does(d, job, active, row)
    ensures Does(d', job, active, Assign(row, column, v))
  {
    d' := Append(d, Assignment(column, Param), [v], job, active, row);
  }

  /** The three outcomes of a resolution, as the values bound to its branches. */
  ghost function Resolved(r: Resolution, unknown: Value, cancelled: Value, other: Value): Value {
    match r
    case BecomesUnknown => unknown
    case BecomesCancelled => cancelled
    case AsRequested => other
  }

  lemma EvaluateCase(job: Job, active: bool, column: Column, u: Operand, c: Operand, args: seq<Value>,
                     unknown: Value, cancelled: Value, other: Value, to: JobStatus, starting: bool)
    requires |args| == Holes(CaseOf(u, c, Placeholder))
    requires args[0] == args[2 + OperandHoles(u)] == VInt(if starting then 1 else 0) && args[1] == VStatus(to)
    requires unknown == Operate(u, args, 2) && cancelled == Operate(c, args, 3 + OperandHoles(u))
    requires other == args[3 + OperandHoles(u) + OperandHoles(c)]
    ensures Evaluate(job, active, column, CaseOf(u, c, Placeholder), args)
         == Resolved(Resolve(job, active, to, starting), unknown, cancelled, other)
  {
  }

  method AppendResolution(d: Draft, column: Column, u: Operand, c: Operand, unknown: Value, cancelled: Value, other: Value,
                          to: JobStatus, starting: bool, ghost job: Job, ghost active: bool, ghost row: Job) returns (d': Draft)
    requires Does(d, job, active, row)
    requires u == NullLiteral ==> unknown == VNull
    requires c == NullLiteral ==> cancelled == VNull
    ensures Does(d', job, active, Assign(row, column, Resolved(Resolve(job, active, to, starting), unknown, cancelled, other)))
  {
    var flag := VInt(if starting then 1 else 0);
    var more := [flag, VStatus(to)];
    if u == Placeholder {
      more := more + [unknown];
    }
    more := more + [flag];
    assert more[0] == more[|more| - 1] == flag && more[1] == VStatus(to) && Operate(u, more, 2) == unknown;
    ghost var n := |more|;
    if c == Placeholder {
      more := more + [cancelled];
    }
    assert Operate(c, more, n) == cancelled && Operate(u, more, 2) == unknown;
    more := more + [other];
    EvaluateCase(job, active, column, u, c, more, unknown, cancelled, other, to, starting);
    d' := Append(d, Assignment(column, CaseOf(u, c, Placeholder)), more, job, active, row);
  }

  function OptionalCode(code: Option<int>): Value {
    if code.Some? then VInt(code.value) else VNull
  }

  /** The outcome columns: status, message and exit code. */
  ghost function OutcomeColumns(job: Job, active: bool, to: JobStatus, u: Update): Job {
    var row := TransitionRow(job, active, to, u, 0);
    job.(status := row.status, message := row.message, exitCode := row.exitCode)
  }

  lemma OutcomeByCase(job: Job, active: bool, to: JobStatus, u: Update)
    requires Terminal(to)
    ensures var r := Resolve(job, active, to, u.confirmationStarted);
            var row := Assign(job, Status, Resolved(r, VStatus(OutcomeUnknown), VStatus(Cancelled), VStatus(to)));
            var row' := Assign(row, MessageText, Resolved(r, VMessage(OutcomeIsUnknown), VMessage(CancelRequestedOrDisabled), VMessage(u.message)));
            Assign(row', ExitCode, Resolved(r, VNull, VNull, OptionalCode(u.exitCode))) == OutcomeColumns(job, active, to, u)
  {
  }

  method DraftTerminal(to: JobStatus, u: Update, ghost job: Job, ghost active: bool) returns (d: Draft)
    requires Terminal(to)
    ensures Does(d, job, active, OutcomeColumns(job, active, to, u))
  {
    ghost var r := Resolve(job, active, to, u.confirmationStarted);
    d := Draft([], []);
    d := AppendResolution(d, Status, Placeholder, Placeholder, VStatus(OutcomeUnknown), VStatus(Cancelled), VStatus(to),
                          to, u.confirmationStarted, job, active, job);
    ghost var row := Assign(job, Status, Resolved(r, VStatus(OutcomeUnknown), VStatus(Cancelled), VStatus(to)));
    d := AppendResolution(d, MessageText, Placeholder, Placeholder, VMessage(OutcomeIsUnknown), VMessage(CancelRequestedOrDisabled),
                          VMessage(u.message), to, u.confirmationStarted, job, active, row);
    row := Assign(row, MessageText, Resolved(r, VMessage(OutcomeIsUnknown), VMessage(CancelRequestedOrDisabled), VMessage(u.message)));
    d := AppendResolution(d, ExitCode, NullLiteral, NullLiteral, VNull, VNull, OptionalCode(u.exitCode),
                          to, u.confirmationStarted, job, active, row);
    OutcomeByCase(job, active, to, u);
  }

  method DraftMove(to: JobStatus, u: Update, ghost job: Job, ghost active: bool) returns (d: Draft)
    requires !Terminal(to)
    ensures Does(d, job, active, OutcomeColumns(job, active, to, u))
  {
    d := Draft([], []);
    d := AppendParam(d, Status, VStatus(to), job, active, job);
    ghost var row := Assign(job, Status, VStatus(to));
    d := AppendParam(d, MessageText, VMessage(u.message), job, active, row);
    row := Assign(row, MessageText, VMessage(u.message));
    d := AppendParam(d, ExitCode, OptionalCode(u.exitCode), job, active, row);
    row := Assign(row, ExitCode, OptionalCode(u.exitCode));
    assert row == OutcomeColumns(job, active, to, u);
  }

  /** The columns every transition writes after its outcome: update time, marker and start time. */
  function StampColumns(job: Job, row: Job, to: JobStatus, u: Update, now: Instant): Job {
    row.(updated := now,
         marker := if u.confirmationStarted then Mark(job.marker, now) else row.marker,
         started := if to == Running then Mark(job.started, now) else row.started)
  }

  method DraftStamps(before: Draft, to: JobStatus, u: Update, now: Instant, ghost job: Job, ghost active: bool, ghost was: Job) returns (d: Draft)
    requires Does(before, job, active, was)
    ensures Does(d, job, active, StampColumns(job, was, to, u, now))
  {
    ghost var row := was;
    d := AppendParam(before, UpdatedAt, VTime(now), job, active, row);
    row := row.(updated := now);
    if u.confirmationStarted {
      d := Append(d, Assignment(ConfirmationStartedAt, CoalesceParam), [VTime(now)], job, active, row);
      row := row.(marker := Mark(job.marker, now));
    }
    if to == Running {
      d := Append(d, Assignment(StartedAt, CoalesceParam), [VTime(now)], job, active, row);
      row := row.(started := Mark(job.started, now));
    }
    assert row == StampColumns(job, was, to, u, now);
  }

  method DraftSets(to: JobStatus, u: Update, now: Instant, ghost job: Job, ghost active: bool) returns (d: Draft)
    requires to != Queued
    ensures Does(d, job, active, TransitionRow(job, active, to, u, now))
  {
    if Terminal(to) {
      d := DraftTerminal(to, u, job, active);
    } else {
      d := DraftMove(to, u, job, active);
    }
    d := DraftStamps(d, to, u, now, job, active, OutcomeColumns(job, active, to, u));
    ghost var row := StampColumns(job, OutcomeColumns(job, active, to, u), to, u, now);
    if Terminal(to) {
      d := AppendParam(d, FinishedAt, VTime(now), job, active, row);
      row := row.(finished := Some(now));
      d := Append(d, Assignment(WorkerOwner, EmptyText), [], job, active, row);
      row := row.(owner := "");
    }
    assert row == TransitionRow(job, active, to, u, now);
  }

  function StatusValues(expected: seq<JobStatus>): seq<Value> {
    seq(|expected|, i requires 0 <= i < |expected| => VStatus(expected[i]))
  }

  /**
   The builder. `job` and `active` stand for any row and account: the statement built does not depend on them,
   and evaluating it with its arguments performs exactly the intended transition of that row.
   */
  method Build(id: JobId, expected: seq<JobStatus>, to: JobStatus, u: Update, now: Instant, ghost job: Job, ghost active: bool)
    returns (q: Query, args: seq<Value>)
    requires to != Queued
    ensures |args| == SetHoles(q.sets) + 1 + |expected| && q.states == |expected|
    ensures Assigned(job, active, job, q.sets, args[..SetHoles(q.sets)]) == TransitionRow(job, active, to, u, now)
    ensures args[SetHoles(q.sets)] == VId(id)
    ensures args[SetHoles(q.sets) + 1..] == StatusValues(expected)
    ensures q.guarded <==> !Terminal(to)
  {
    var d := DraftSets(to, u, now, job, active);
    args := d.args;
    for i := 0 to |expected|
      invariant args == d.args + StatusValues(expected[..i])
    {
      args := args + [VStatus(expected[i])];
      assert StatusValues(expected[..i + 1]) == StatusValues(expected[..i]) + [VStatus(expected[i])];
    }
    assert expected[..|expected|] == expected;
    q := Query(d.sets, |expected|, to == Running || to == AwaitingApproval);
    // the job id belongs before the expected-state values in the WHERE clause
    var stateArgs := args[|args| - |expected|..];
    args := args[..|args| - |expected|] + [VId(id)];
    args := args + stateArgs;
    assert args[..|d.args|] == d.args;
  }
}
