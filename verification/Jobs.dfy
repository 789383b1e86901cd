/** Job rows as the database holds them, and the queries the coordinator runs over them. */
module Jobs {
  import opened Common

  datatype CompletionCode = Cancelled | ServerCrashed | RunnerTimeout | Finished | Failed | Expired | Aborted

  datatype Row = Row(board: BoardId, start: Time, end: Option<Time>, dispatched: bool, code: Option<CompletionCode>)

  type Rows = map<JobId, Row>

  predicate Undispatched(row: Row) {
    !row.dispatched && row.code.None?
  }

  predicate IsOpen(row: Row) {
    row.dispatched && row.code.None?
  }

  predicate PastEnd(row: Row, now: Time) {
    row.end.Some? && row.end.value <= now
  }

  function Eligible(rows: Rows, board: BoardId, now: Time): set<JobId> {
    set j | j in rows && rows[j].board == board && Undispatched(rows[j]) && !PastEnd(rows[j], now)
  }

  lemma EligibleFields(rows: Rows, board: BoardId, now: Time, j: JobId)
    ensures j in Eligible(rows, board, now) <==>
      && j in rows && rows[j].board == board && !rows[j].dispatched && rows[j].code == None
      && (rows[j].end == None || now < rows[j].end.value)
  {}

  /** What `order_by: [asc: j.start]` with an optional limit may return; rows with equal starts come in any order. */
  ghost predicate QueryResult(rows: Rows, matching: set<JobId>, limit: Option<nat>, found: seq<JobId>)
    requires matching <= rows.Keys
  {
    && Distinct(found)
    && (forall i | 0 <= i < |found| :: found[i] in matching)
    && |found| == (if limit.Some? && limit.value < |matching| then limit.value else |matching|)
    && (forall i, k | 0 <= i < k < |found| :: rows[found[i]].start <= rows[found[k]].start)
    && (forall i, j | 0 <= i < |found| && j in matching && j !in found :: rows[found[i]].start <= rows[j].start)
  }

  /** The filter applied after the query: drop every job some board server is registered for. */
  function WithoutActive(found: seq<JobId>, jobReg: map<JobId, Pid>): seq<JobId> {
    if found == [] then []
    else (if found[0] in jobReg then [] else [found[0]]) + WithoutActive(found[1..], jobReg)
  }

  lemma {:induction false} WithoutActiveMembers(found: seq<JobId>, jobReg: map<JobId, Pid>)
    ensures forall j :: j in WithoutActive(found, jobReg) <==> j in found && j !in jobReg
  {
    if found != [] {
      assert found == [found[0]] + found[1..];
      WithoutActiveMembers(found[1..], jobReg);
    }
  }

  lemma {:induction false} FilterRemovesNothing(found: seq<JobId>, jobReg: map<JobId, Pid>)
    requires forall i | 0 <= i < |found| :: found[i] !in jobReg
    ensures WithoutActive(found, jobReg) == found
  {
    if found != [] {
      FilterRemovesNothing(found[1..], jobReg);
    }
  }

  // Writes. `Repo.update_all` touches every row whose id is listed, whatever its code was.
  function WithCode(rows: Rows, jobs: seq<JobId>, code: CompletionCode): Rows {
    map j | j in rows :: if j in jobs then rows[j].(code := Some(code)) else rows[j]
  }

  function Sweep(rows: Rows, board: BoardId): Rows {
    map j | j in rows ::
      if rows[j].board == board && IsOpen(rows[j]) then rows[j].(code := Some(ServerCrashed)) else rows[j]
  }

  // A row's life: undispatched, dispatched, completed.
  function Rank(row: Row): nat {
    if row.code.Some? then 2 else if row.dispatched then 1 else 0
  }

  ghost predicate RowLe(a: Row, b: Row) {
    && a.board == b.board && a.start == b.start && a.end == b.end
    && Rank(a) <= Rank(b)
    && (a.dispatched ==> b.dispatched)
    && (a.code.Some? ==> b.code == a.code)
  }

  ghost predicate RowsLe(a: Rows, b: Rows) {
    forall j | j in a :: j in b && RowLe(a[j], b[j])
  }
}
