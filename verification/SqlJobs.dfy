/** The SQL-backed job repository (internal/store/jobrepo/sqlx.go): guarded
    UPDATE statements, row counts, and a follow-up read that tells a conflict
    from a missing row. The SQL engine is one function, `Update`; the JSON
    encoding of a problem is taken to be lossless. */
module SqlJobs {
  import opened Runs
  import opened Jobs
  import opened JobStore

  datatype Row = Row(status: string, owner: int, resultUser: Option<int>, payload: Option<Problem>)

  datatype Table = Table(rows: map<int, Row>, nextval: int)

  const EMPTY_TABLE := Table(map[], 1)

  function Text(s: Status): string {
    match s
    case Queued => "queued"
    case Running => "running"
    case Succeeded => "succeeded"
    case Failed => "failed"
  }

  /** The CHECK constraint on the status column. */
  predicate KnownText(text: string) {
    text == "queued" || text == "running" || text == "succeeded" || text == "failed"
  }

  function StatusOf(text: string): (s: Status)
    requires KnownText(text)
    ensures Text(s) == text
  {
    if text == "queued" then Queued
    else if text == "running" then Running
    else if text == "succeeded" then Succeeded
    else Failed
  }

  lemma TextRoundTrip(s: Status)
    ensures KnownText(Text(s)) && StatusOf(Text(s)) == s
  {
    assert "queued"[0] == 'q' && "running"[0] == 'r' && "succeeded"[0] == 's' && "failed"[0] == 'f';
    assert Text(s)[0] == Text(StatusOf(Text(s)))[0];
  }

  lemma TextInjective(s: Status, t: Status)
    ensures Text(s) == Text(t) <==> s == t
  {
    TextRoundTrip(s);
    TextRoundTrip(t);
  }

  function JobOf(id: int, row: Row): Job
    requires KnownText(row.status)
  {
    Job(id, StatusOf(row.status), row.resultUser, row.payload, row.owner)
  }

  function RowOf(job: Job): Row {
    Row(Text(job.status), job.owner, job.result, job.error)
  }

  function Affected(rows: map<int, Row>, where: (int, Row) -> bool): set<int> {
    set id | id in rows && where(id, rows[id])
  }

  /** UPDATE jobs SET ... WHERE ..., with the number of rows affected. */
  function Update(rows: map<int, Row>, where: (int, Row) -> bool, assign: Row -> Row): (map<int, Row>, nat) {
    (map id | id in rows :: if where(id, rows[id]) then assign(rows[id]) else rows[id], |Affected(rows, where)|)
  }

  function Written(row: Row, change: Change): Row {
    match change
    case ToRunning => Row(Text(Running), row.owner, None, None)
    case ToSucceeded(user) => Row(Text(Succeeded), row.owner, Some(user), None)
    case ToFailed(problem) => Row(Text(Failed), row.owner, None, Some(problem))
  }

  /** The status half of each WHERE clause, as literally written in the queries. */
  predicate StatusGuard(text: string, change: Change) {
    match change
    case ToRunning => text == Text(Queued)
    case ToSucceeded(_) => text == Text(Running)
    case ToFailed(_) => text == Text(Queued) || text == Text(Running)
  }

  /** WHERE id = ... AND status ... */
  function ThatRow(id: int, change: Change): (int, Row) -> bool {
    (k, r: Row) => k == id && StatusGuard(r.status, change)
  }

  /** WHERE status ... */
  function AnyRow(change: Change): (int, Row) -> bool {
    (k, r: Row) => StatusGuard(r.status, change)
  }

  function Writes(change: Change): Row -> Row {
    (r: Row) => Written(r, change)
  }

  function ConflictOrNotFound(tb: Table, id: int, change: Change): Reply
    requires id in tb.rows ==> KnownText(tb.rows[id].status)
  {
    if id !in tb.rows then NotFound else ConflictFor(id, StatusOf(tb.rows[id].status), change)
  }

  predicate TableOk(tb: Table) {
    forall id :: id in tb.rows ==> KnownText(tb.rows[id].status)
  }

  function SqlMove(tb: Table, id: int, change: Change): (Table, Reply)
    requires TableOk(tb)
  {
    var (rows, n) := Update(tb.rows, ThatRow(id, change), Writes(change));
    if n == 0 then (tb.(rows := rows), ConflictOrNotFound(tb, id, change)) else (tb.(rows := rows), Done)
  }

  function SqlFailActive(tb: Table, problem: Problem): (Table, nat) {
    var (rows, n) := Update(tb.rows, AnyRow(ToFailed(problem)), Writes(ToFailed(problem)));
    (tb.(rows := rows), n)
  }

  function SqlInsert(tb: Table, job: Job): Table {
    Table(tb.rows[tb.nextval := RowOf(job)], tb.nextval + 1)
  }

  function SqlRemove(tb: Table, id: int): (Table, Reply) {
    var n := |set k | k in tb.rows && k == id|;
    if n == 0 then (tb, NotFound) else (tb.(rows := tb.rows - {id}), Done)
  }

  function SqlExec(tb: Table, op: Op): (Table, Answer)
    requires TableOk(tb)
  {
    match op
    case Save(draft) => (SqlInsert(tb, draft), Saved(tb.nextval))
    case Delete(id) => var (tb', r) := SqlRemove(tb, id); (tb', Replied(r))
    case Set(id, change) => var (tb', r) := SqlMove(tb, id, change); (tb', Replied(r))
    case FailAll(problem) => var (tb', n) := SqlFailActive(tb, problem); (tb', Repaired(n))
  }

  /** The table and the map hold the same jobs and will issue the same identifier next. */
  ghost predicate SameJobs(st: Store, tb: Table) {
    && TableOk(tb)
    && tb.nextval == st.nextID
    && tb.rows.Keys == st.jobs.Keys
    && forall id :: id in tb.rows ==> JobOf(id, tb.rows[id]) == st.jobs[id]
  }

  lemma GuardAgrees(s: Status, change: Change)
    ensures StatusGuard(Text(s), change) <==> CanTransition(s, IntentOf(change))
  {
    TextInjective(s, Queued);
    TextInjective(s, Running);
    assert CanTransition(s, Start) <==> s == Queued;
    assert CanTransition(s, Succeed) <==> s == Running;
    assert CanTransition(s, Fail) <==> s == Queued || s == Running;
  }

  lemma WrittenAgrees(id: int, row: Row, change: Change)
    requires KnownText(row.status)
    ensures KnownText(Written(row, change).status)
    ensures JobOf(id, Written(row, change)) == Changed(JobOf(id, row), change)
  {
    TextRoundTrip(Running);
    TextRoundTrip(Succeeded);
    TextRoundTrip(Failed);
  }

  lemma MoveAgrees(st: Store, tb: Table, id: int, change: Change)
    requires StoreOk(st) && SameJobs(st, tb)
    ensures SameJobs(Move(st, id, change).0, SqlMove(tb, id, change).0)
    ensures Move(st, id, change).1 == SqlMove(tb, id, change).1
  {
    var hit := Affected(tb.rows, ThatRow(id, change));
    if id in tb.rows {
      GuardAgrees(st.jobs[id].status, change);
      WrittenAgrees(id, tb.rows[id], change);
      if CanTransition(st.jobs[id].status, IntentOf(change)) {
        assert hit == {id};
      } else {
        assert hit == {};
        assert SqlMove(tb, id, change).0.rows == tb.rows;
      }
    } else {
      assert hit == {};
      assert SqlMove(tb, id, change).0.rows == tb.rows;
    }
  }

  lemma FailActiveAgrees(st: Store, tb: Table, problem: Problem)
    requires StoreOk(st) && SameJobs(st, tb)
    ensures SameJobs(FailActive(st, problem).0, SqlFailActive(tb, problem).0)
    ensures FailActive(st, problem).1 == SqlFailActive(tb, problem).1
  {
    forall id | id in tb.rows
      ensures StatusGuard(tb.rows[id].status, ToFailed(problem)) <==> Active(st.jobs[id])
      ensures KnownText(Written(tb.rows[id], ToFailed(problem)).status)
      ensures JobOf(id, Written(tb.rows[id], ToFailed(problem))) == Changed(st.jobs[id], ToFailed(problem))
    {
      GuardAgrees(st.jobs[id].status, ToFailed(problem));
      assert CanTransition(st.jobs[id].status, Fail) <==> Active(st.jobs[id]);
      WrittenAgrees(id, tb.rows[id], ToFailed(problem));
    }
    assert Affected(tb.rows, AnyRow(ToFailed(problem))) == ActiveIds(st.jobs);
  }

  lemma ExecAgrees(st: Store, tb: Table, op: Op)
    requires StoreOk(st) && SameJobs(st, tb)
    ensures SameJobs(Exec(st, op).0, SqlExec(tb, op).0)
    ensures Exec(st, op).1 == SqlExec(tb, op).1
  {
    match op
    case Save(draft) => TextRoundTrip(draft.status);
    case Set(id, change) => MoveAgrees(st, tb, id, change);
    case FailAll(problem) => FailActiveAgrees(st, tb, problem);
    case Delete(id) =>
      var hit := set k | k in tb.rows && k == id;
      assert hit == if id in tb.rows then {id} else {};
  }

  /** The table after `ops`, with every answer the SQL repository gave. */
  function SqlExecAll(tb: Table, ops: seq<Op>): (Table, seq<Answer>)
    requires TableOk(tb)
    decreases ops
  {
    if ops == [] then (tb, [])
    else
      ExecKeepsTable(tb, ops[0]);
      var (tb1, a) := SqlExec(tb, ops[0]);
      var (tb2, rest) := SqlExecAll(tb1, ops[1..]);
      (tb2, [a] + rest)
  }

  lemma ExecKeepsTable(tb: Table, op: Op)
    requires TableOk(tb)
    ensures TableOk(SqlExec(tb, op).0)
  {
    forall s: Status ensures KnownText(Text(s)) { TextRoundTrip(s); }
  }

  /** Backend agreement: over every sequential run the two repositories give the
      same answers and end with the same jobs. */
  lemma {:induction false} BackendsAgree(st: Store, tb: Table, ops: seq<Op>)
    requires StoreOk(st) && SameJobs(st, tb) && OpsOk(ops)
    ensures SqlExecAll(tb, ops).1 == ExecAll(st, ops).1
    ensures SameJobs(ExecAll(st, ops).0, SqlExecAll(tb, ops).0)
    decreases ops
  {
    if ops != [] {
      ExecOne(st, ops[0], 0);
      ExecAgrees(st, tb, ops[0]);
      BackendsAgree(Exec(st, ops[0]).0, SqlExec(tb, ops[0]).0, ops[1..]);
    }
  }

  class SqlJobRepository {
    var rows: map<int, Row>
    var nextval: int

    ghost function State(): Table reads this {
      Table(rows, nextval)
    }

    constructor ()
      ensures State() == EMPTY_TABLE
    {
      rows, nextval := map[], 1;
    }

    /** The INSERT arm and the UPDATE arm; the latter reports a missing row. */
    method Save(job: Job) returns (saved: Job, reply: Reply)
      modifies this
      ensures job.id == 0 ==>
                State() == SqlInsert(old(State()), job) && saved == job.(id := old(nextval)) && reply == Done
      ensures job.id != 0 ==> saved == job && nextval == old(nextval)
      ensures job.id != 0 ==> reply == (if job.id in old(rows) then Done else NotFound)
      ensures job.id != 0 ==> rows == if job.id in old(rows) then old(rows)[job.id := RowOf(job)] else old(rows)
    {
      if job.id == 0 {
        rows := rows[nextval := RowOf(job)];
        saved := job.(id := nextval);
        nextval := nextval + 1;
        return saved, Done;
      }
      saved := job;
      if job.id !in rows {
        return saved, NotFound;
      }
      rows := rows[job.id := RowOf(job)];
      return saved, Done;
    }

    method Delete(id: int) returns (reply: Reply)
      modifies this
      ensures (State(), reply) == SqlRemove(old(State()), id)
    {
      var n := |set k | k in rows && k == id|;
      if n == 0 {
        return NotFound;
      }
      rows := rows - {id};
      return Done;
    }

    /** SetRunning, SetSucceeded and SetFailed. */
    method Transition(id: int, change: Change) returns (reply: Reply)
      requires TableOk(State())
      modifies this
      ensures TableOk(State())
      ensures (State(), reply) == SqlMove(old(State()), id, change)
    {
      ExecKeepsTable(State(), Set(id, change));
      ghost var before := State();
      var result := Update(rows, ThatRow(id, change), Writes(change));
      rows := result.0;
      if result.1 == 0 {
        NothingHit(before, id, change);
        return ConflictOrNotFound(Table(rows, nextval), id, change);
      }
      return Done;
    }

    method FailActiveJobs(problem: Problem) returns (failed: nat)
      modifies this
      ensures (State(), failed) == SqlFailActive(old(State()), problem)
    {
      var result := Update(rows, AnyRow(ToFailed(problem)), Writes(ToFailed(problem)));
      rows := result.0;
      failed := result.1;
    }
  }

  /** An UPDATE that affected no row left the table as it was. */
  lemma NothingHit(tb: Table, id: int, change: Change)
    requires TableOk(tb)
    requires Update(tb.rows, ThatRow(id, change), Writes(change)).1 == 0
    ensures Update(tb.rows, ThatRow(id, change), Writes(change)).0 == tb.rows
  {
    var hit := Affected(tb.rows, ThatRow(id, change));
    assert hit == {};
    assert forall k :: k in tb.rows && ThatRow(id, change)(k, tb.rows[k]) ==> k in hit;
  }
}
