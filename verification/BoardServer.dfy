/**
 The board server's handlers as the code runs them: fields updated in place, loops and tail recursion.
 Every handler returns, besides its effect, the list of `Coordinator` actions it amounts to.
 */
module BoardServers {
  import opened Common
  import opened Jobs
  import opened UpdateTable
  import opened Coordinator
  import opened Agreement
  import opened ServerSteps

  // ----- Uninterrupted paths of the state machine -----

  ghost predicate Path(sh: Shared, pid: Pid, srv: Server, trace: seq<Action>, out: Outcome)
    decreases |trace|
  {
    if trace == [] then
      out == Continue(sh, srv)
    else if !Enabled(sh, srv, trace[0]) then
      false
    else
      match ServerStep(sh, pid, srv, trace[0])
      case Continue(sh', srv') => Path(sh', pid, srv', trace[1..], out)
      case Dies(sh', why) => |trace| == 1 && out == Dies(sh', why)
  }

  lemma {:induction false} PathConcat(sh: Shared, pid: Pid, srv: Server, first: seq<Action>, sh': Shared, srv': Server,
      second: seq<Action>, out: Outcome)
    requires Path(sh, pid, srv, first, Continue(sh', srv')) && Path(sh', pid, srv', second, out)
    ensures Path(sh, pid, srv, first + second, out)
    decreases |first|
  {
    if first == [] {
      assert first + second == second;
    } else {
      match ServerStep(sh, pid, srv, first[0])
      case Continue(sh1, srv1) =>
        PathConcat(sh1, pid, srv1, first[1..], sh', srv', second, out);
        assert (first + second)[1..] == first[1..] + second;
      case Dies(_, _) =>
    }
  }

  lemma PathOne(sh: Shared, pid: Pid, srv: Server, a: Action)
    requires Enabled(sh, srv, a)
    ensures Path(sh, pid, srv, [a], ServerStep(sh, pid, srv, a))
  {
    assert [a][1..] == [];
  }

  lemma PathCons(sh: Shared, pid: Pid, srv: Server, a: Action, sh': Shared, srv': Server, trace: seq<Action>,
      out: Outcome)
    requires Enabled(sh, srv, a) && ServerStep(sh, pid, srv, a) == Continue(sh', srv')
    requires Path(sh', pid, srv', trace, out)
    ensures Path(sh, pid, srv, [a] + trace, out)
  {
    assert ([a] + trace)[1..] == trace;
  }

  lemma PathMore(sh: Shared, pid: Pid, srv: Server, trace: seq<Action>, sh': Shared, srv': Server, a: Action)
    requires Path(sh, pid, srv, trace, Continue(sh', srv')) && Enabled(sh', srv', a)
    ensures Path(sh, pid, srv, trace + [a], ServerStep(sh', pid, srv', a))
  {
    PathOne(sh', pid, srv', a);
    PathConcat(sh, pid, srv, trace, sh', srv', [a], ServerStep(sh', pid, srv', a));
  }

  /** A server that starts a path in agreement ends it in agreement. */
  lemma {:induction false} PathKeeps(sh: Shared, pid: Pid, srv: Server, trace: seq<Action>, out: Outcome)
    requires InAgreement(sh, pid, srv) && Path(sh, pid, srv, trace, out)
    ensures out.Continue? ==> InAgreement(out.sh, pid, out.srv) && out.srv.board == srv.board
    ensures RowsLe(sh.rows, out.sh.rows)
    decreases |trace|
  {
    if trace != [] {
      StepKeeps(sh, pid, srv, trace[0]);
      match ServerStep(sh, pid, srv, trace[0])
      case Continue(sh', srv') => PathKeeps(sh', pid, srv', trace[1..], out);
      case Dies(_, _) =>
    }
  }

  // ----- What schedule_jobs is for -----

  function Min(a: nat, b: nat): nat { if a < b then a else b }

  function MarkAll(rows: Rows, jobs: seq<JobId>): Rows {
    map j | j in rows :: if j in jobs then rows[j].(dispatched := true) else rows[j]
  }

  function StartMsgs(jobs: seq<JobId>, conn: Pid): seq<StartMsg> {
    seq(|jobs|, i requires 0 <= i < |jobs| => StartMsg(jobs[i], conn))
  }

  /**
   Taking the earliest eligible job and then querying again is querying once with the whole limit.
   */
  lemma QueryOneMore(rows: Rows, board: BoardId, now: Time, limit: nat, j: JobId, rest: seq<JobId>)
    requires QueryResult(rows, Eligible(rows, board, now), Some(1), [j]) && j in rows
    requires QueryResult(MarkAll(rows, [j]), Eligible(MarkAll(rows, [j]), board, now), Some(limit), rest)
    ensures QueryResult(rows, Eligible(rows, board, now), Some(limit + 1), [j] + rest)
    ensures Eligible(MarkAll(rows, [j]), board, now) == Eligible(rows, board, now) - {j}
  {
    var all, fewer := Eligible(rows, board, now), Eligible(MarkAll(rows, [j]), board, now);
    assert [j][0] in all;
    assert forall k :: k in fewer <==> k in all && k != j;
    assert fewer == all - {j};
    assert |fewer| == |all| - 1;
    forall i | 0 <= i < |rest| ensures rest[i] in all && rest[i] != j && rows[j].start <= rows[rest[i]].start {
      var k := rest[i];
      assert k in fewer;
      assert k !in [j];
    }
    var both := [j] + rest;
    forall i, k | 0 <= i < |both| && k in all && k !in both ensures rows[both[i]].start <= rows[k].start {
      assert k != both[0];
      assert k in fewer && k !in rest && k !in [j];
    }
  }

  lemma MarkAllMore(rows: Rows, j: JobId, rest: seq<JobId>)
    ensures MarkAll(MarkAll(rows, [j]), rest) == MarkAll(rows, [j] + rest)
  {
    assert forall k :: k in [j] + rest <==> k == j || k in rest;
  }

  function Promote<V>(m: map<JobId, V>, jobs: seq<JobId>, v: V): map<JobId, V> {
    m + map j | j in jobs :: v
  }

  function FreeSlots(srv: Server): nat {
    if |srv.active| < srv.maxJobs then srv.maxJobs - |srv.active| else 0
  }

  // The clock as schedule_jobs reads it: reading i is that of its query i.
  type Clock = nat -> Time

  function Later(clock: Clock): Clock {
    (i: nat) => clock(i + 1)
  }

  // Each job is the earliest eligible one when it is queried; in the end the limit is used up, or no job
  // is eligible.
  ghost predicate Picks(rows: Rows, board: BoardId, clock: Clock, limit: nat, jobs: seq<JobId>)
    decreases |jobs|
  {
    if jobs == [] then limit == 0 || Eligible(rows, board, clock(0)) == {}
    else
      && limit > 0 && QueryResult(rows, Eligible(rows, board, clock(0)), Some(1), [jobs[0]])
      && Picks(MarkAll(rows, [jobs[0]]), board, Later(clock), limit - 1, jobs[1..])
  }

  /** While the clock stands, these are the earliest eligible jobs, as many as the limit allows, in start order. */
  lemma {:induction false} PicksAreEarliest(rows: Rows, board: BoardId, clock: Clock, now: Time, limit: nat,
      jobs: seq<JobId>)
    requires Picks(rows, board, clock, limit, jobs) && forall i: nat :: clock(i) == now
    ensures QueryResult(rows, Eligible(rows, board, now), Some(limit), jobs)
    decreases |jobs|
  {
    if jobs != [] {
      PicksAreEarliest(MarkAll(rows, [jobs[0]]), board, Later(clock), now, limit - 1, jobs[1..]);
      assert [jobs[0]][0] in Eligible(rows, board, now);
      QueryOneMore(rows, board, now, limit - 1, jobs[0], jobs[1..]);
      assert jobs == [jobs[0]] + jobs[1..];
    }
  }

  // Picked at its query's reading of the clock, each job was this board's, undispatched, without a code and
  // not past its end.
  lemma {:induction false} PicksAreDue(rows: Rows, board: BoardId, clock: Clock, limit: nat, jobs: seq<JobId>, i: nat)
    requires Picks(rows, board, clock, limit, jobs) && i < |jobs|
    ensures jobs[i] in rows && rows[jobs[i]].board == board
    ensures !rows[jobs[i]].dispatched && rows[jobs[i]].code == None
    ensures rows[jobs[i]].end == None || clock(i) < rows[jobs[i]].end.value
    decreases i
  {
    if i == 0 {
      EligibleFields(rows, board, clock(0), jobs[0]);
      assert [jobs[0]][0] in Eligible(rows, board, clock(0));
    } else {
      var marked := MarkAll(rows, [jobs[0]]);
      PicksAreDue(marked, board, Later(clock), limit - 1, jobs[1..], i - 1);
      assert jobs[1..][i - 1] == jobs[i] && marked[jobs[i]] == rows[jobs[i]];
    }
  }

  lemma NoneEligible(rows: Rows, board: BoardId, now: Time, j: JobId)
    requires Eligible(rows, board, now) == {} && j in rows
    requires rows[j].board == board && !rows[j].dispatched && rows[j].code == None
    ensures rows[j].end.Some? && rows[j].end.value <= now
  {
    EligibleFields(rows, board, now, j);
  }

  // The jobs schedule_jobs takes: as many as there are free slots; without a runner it does not get past
  // the first.
  ghost predicate Chosen(rows: Rows, srv: Server, clock: Clock, jobs: seq<JobId>) {
    Picks(rows, srv.board, clock, if srv.runner.Some? then FreeSlots(srv) else Min(1, FreeSlots(srv)), jobs)
  }

  function SharedAfter(sh: Shared, pid: Pid, runner: Option<Pid>, jobs: seq<JobId>): Shared {
    Shared(MarkAll(sh.rows, jobs), Promote(sh.jobReg, jobs, pid),
      sh.sent + if runner.Some? then StartMsgs(jobs, runner.value) else [])
  }

  function LocalAfter(srv: Server, stamp: Time, jobs: seq<JobId>): Server {
    srv.(
      active := Promote(srv.active, jobs, WaitForStart(stamp)),
      timer := if jobs == [] then srv.timer else Arm(srv.timer),
      pc := Idle)
  }

  /**
   The whole effect of schedule_jobs started in `sh`, `srv`. With a runner, the chosen jobs were dispatched
   in the order they were picked, and no slot or no eligible job is left. Without one the server dies on
   the first of them, which stays marked as dispatched although no message was sent.
   */
  ghost predicate Scheduled(sh: Shared, pid: Pid, srv: Server, clock: Clock, stamp: Time, jobs: seq<JobId>,
      out: Outcome) {
    && Chosen(sh.rows, srv, clock, jobs)
    && (if srv.runner.Some? || jobs == []
        then out == Continue(SharedAfter(sh, pid, srv.runner, jobs), LocalAfter(srv, stamp, jobs))
        else out == Dies(SharedAfter(sh, pid, None, jobs), NilRunner))
    && (out.Continue? ==> FreeSlots(out.srv) == 0 || Eligible(out.sh.rows, srv.board, clock(|jobs|)) == {})
  }

  /**
   Each job that schedule_jobs takes was undispatched, without a code and, at the reading of the clock with
   which it was picked, not past its end; if a slot is left in the end, no such job of the board remains.
   */
  lemma ScheduledWereDue(sh: Shared, pid: Pid, srv: Server, clock: Clock, stamp: Time, jobs: seq<JobId>, out: Outcome)
    requires Scheduled(sh, pid, srv, clock, stamp, jobs, out)
    ensures forall i | 0 <= i < |jobs| ::
      && jobs[i] in sh.rows && sh.rows[jobs[i]].board == srv.board
      && !sh.rows[jobs[i]].dispatched && sh.rows[jobs[i]].code == None
      && (sh.rows[jobs[i]].end == None || clock(i) < sh.rows[jobs[i]].end.value)
    ensures out.Continue? && |out.srv.active| < out.srv.maxJobs ==> forall j | j in out.sh.rows ::
      out.sh.rows[j].board == srv.board && !out.sh.rows[j].dispatched && out.sh.rows[j].code == None ==>
        out.sh.rows[j].end.Some? && out.sh.rows[j].end.value <= clock(|jobs|)
  {
    var limit := if srv.runner.Some? then FreeSlots(srv) else Min(1, FreeSlots(srv));
    forall i: nat | i < |jobs|
      ensures jobs[i] in sh.rows && sh.rows[jobs[i]].board == srv.board
      ensures !sh.rows[jobs[i]].dispatched && sh.rows[jobs[i]].code == None
      ensures sh.rows[jobs[i]].end == None || clock(i) < sh.rows[jobs[i]].end.value
    {
      PicksAreDue(sh.rows, srv.board, clock, limit, jobs, i);
    }
    if out.Continue? && |out.srv.active| < out.srv.maxJobs {
      forall j | j in out.sh.rows && out.sh.rows[j].board == srv.board && !out.sh.rows[j].dispatched
          && out.sh.rows[j].code == None
        ensures out.sh.rows[j].end.Some? && out.sh.rows[j].end.value <= clock(|jobs|)
      {
        NoneEligible(out.sh.rows, srv.board, clock(|jobs|), j);
      }
    }
  }

  lemma SharedAfterNothing(sh: Shared, pid: Pid, runner: Option<Pid>)
    ensures SharedAfter(sh, pid, runner, []) == sh
  {
    assert MarkAll(sh.rows, []) == sh.rows;
    assert Promote(sh.jobReg, [], pid) == sh.jobReg;
  }

  lemma ChosenNothing(rows: Rows, srv: Server, clock: Clock)
    requires FreeSlots(srv) == 0 || Eligible(rows, srv.board, clock(0)) == {}
    ensures Chosen(rows, srv, clock, [])
  {}

  lemma LocalAfterNothing(srv: Server, stamp: Time)
    ensures LocalAfter(srv, stamp, []) == srv.(pc := Idle)
  {
    assert Promote(srv.active, [], WaitForStart(stamp)) == srv.active;
  }

  lemma ScheduledNothing(sh: Shared, pid: Pid, srv: Server, clock: Clock, stamp: Time)
    requires FreeSlots(srv) == 0 || Eligible(sh.rows, srv.board, clock(0)) == {}
    ensures Scheduled(sh, pid, srv, clock, stamp, [], Continue(sh, srv.(pc := Idle)))
  {
    SharedAfterNothing(sh, pid, srv.runner);
    LocalAfterNothing(srv, stamp);
    ChosenNothing(sh.rows, srv, clock);
    assert FreeSlots(srv.(pc := Idle)) == FreeSlots(srv);
  }

  lemma PromoteMore<V>(m: map<JobId, V>, j: JobId, rest: seq<JobId>, v: V)
    ensures Promote(m[j := v], rest, v) == Promote(m, [j] + rest, v)
  {
    assert forall k :: k in [j] + rest <==> k == j || k in rest;
  }

  lemma PromoteOne<V>(m: map<JobId, V>, j: JobId, v: V)
    ensures Promote(m, [j], v) == m[j := v]
  {}

  lemma SharedAfterMore(sh: Shared, pid: Pid, conn: Pid, j: JobId, rest: seq<JobId>)
    ensures SharedAfter(SharedAfter(sh, pid, Some(conn), [j]), pid, Some(conn), rest) ==
      SharedAfter(sh, pid, Some(conn), [j] + rest)
  {
    MarkAllMore(sh.rows, j, rest);
    PromoteOne(sh.jobReg, j, pid);
    PromoteMore(sh.jobReg, j, rest, pid);
    assert StartMsgs([j], conn) + StartMsgs(rest, conn) == StartMsgs([j] + rest, conn);
  }

  lemma LocalAfterMore(srv: Server, stamp: Time, j: JobId, rest: seq<JobId>)
    ensures LocalAfter(LocalAfter(srv, stamp, [j]).(pc := Scheduling), stamp, rest) ==
      LocalAfter(srv, stamp, [j] + rest)
  {
    PromoteOne(srv.active, j, WaitForStart(stamp));
    PromoteMore(srv.active, j, rest, WaitForStart(stamp));
    assert Arm(Arm(srv.timer)) == Arm(srv.timer);
  }

  lemma LocalAfterOneSlots(srv: Server, stamp: Time, j: JobId)
    requires FreeSlots(srv) > 0 && j !in srv.active
    ensures FreeSlots(LocalAfter(srv, stamp, [j])) == FreeSlots(srv) - 1
  {
    PromoteOne(srv.active, j, WaitForStart(stamp));
    assert srv.active[j := WaitForStart(stamp)].Keys == srv.active.Keys + {j};
  }

  lemma ChosenMore(rows: Rows, srv: Server, clock: Clock, stamp: Time, j: JobId, rest: seq<JobId>)
    requires srv.runner.Some? && FreeSlots(srv) > 0 && j in rows && j !in srv.active
    requires QueryResult(rows, Eligible(rows, srv.board, clock(0)), Some(1), [j])
    requires Chosen(MarkAll(rows, [j]), LocalAfter(srv, stamp, [j]).(pc := Scheduling), Later(clock), rest)
    ensures Chosen(rows, srv, clock, [j] + rest)
  {
    LocalAfterOneSlots(srv, stamp, j);
    assert ([j] + rest)[1..] == rest;
  }

  lemma ScheduledMore(sh: Shared, pid: Pid, srv: Server, clock: Clock, stamp: Time, j: JobId, rest: seq<JobId>,
      out: Outcome)
    requires srv.runner.Some? && FreeSlots(srv) > 0 && j in sh.rows && j !in srv.active
    requires QueryResult(sh.rows, Eligible(sh.rows, srv.board, clock(0)), Some(1), [j])
    requires Scheduled(SharedAfter(sh, pid, srv.runner, [j]), pid, LocalAfter(srv, stamp, [j]).(pc := Scheduling),
      Later(clock), stamp, rest, out)
    ensures Scheduled(sh, pid, srv, clock, stamp, [j] + rest, out)
  {
    ChosenMore(sh.rows, srv, clock, stamp, j, rest);
    SharedAfterMore(sh, pid, srv.runner.value, j, rest);
    LocalAfterMore(srv, stamp, j, rest);
  }

  // ----- What complete_jobs is for -----

  function Released(reg: map<JobId, Pid>, pid: Pid, jobs: seq<JobId>): map<JobId, Pid> {
    map j | j in reg && !(j in jobs && reg[j] == pid) :: reg[j]
  }

  function Completed(sh: Shared, pid: Pid, jobs: seq<JobId>, code: CompletionCode): Shared {
    Shared(WithCode(sh.rows, jobs, code), Released(sh.jobReg, pid, jobs), sh.sent)
  }

  lemma CompletedNothing(sh: Shared, pid: Pid)
    ensures Released(sh.jobReg, pid, []) == sh.jobReg
  {}

  lemma ReleasedMore(reg: map<JobId, Pid>, pid: Pid, jobs: seq<JobId>, i: nat)
    requires i < |jobs|
    ensures var before, j := Released(reg, pid, jobs[..i]), jobs[i];
      Released(reg, pid, jobs[..i + 1]) == if j in before && before[j] == pid then before - {j} else before
  {
    assert jobs[..i + 1] == jobs[..i] + [jobs[i]];
    assert forall k :: k in jobs[..i + 1] <==> k in jobs[..i] || k == jobs[i];
  }

  lemma CompletedMore(sh: Shared, pid: Pid, jobs: seq<JobId>, more: seq<JobId>, code: CompletionCode)
    ensures Completed(Completed(sh, pid, jobs, code), pid, more, code) == Completed(sh, pid, jobs + more, code)
  {
    assert forall k :: k in jobs + more <==> k in jobs || k in more;
  }

  lemma ElemsConcat<T>(a: seq<T>, b: seq<T>)
    ensures Elems(a + b) == Elems(a) + Elems(b)
  {
    assert forall x :: x in a + b <==> x in a || x in b;
  }

  // ----- What supervise_runners is for -----

  predicate Expired(entry: (JobId, CoordState), clock: JobId -> Time) {
    entry.1.WaitForStart? ==> entry.1.since + 5 * Second < clock(entry.0)
  }

  ghost predicate AllExpired(list: Snapshot, clock: JobId -> Time) {
    forall i | 0 <= i < |list| :: Expired(list[i], clock)
  }

  ghost predicate FirstUnexpired(list: Snapshot, clock: JobId -> Time, n: nat)
    requires n < |list|
  {
    !Expired(list[n], clock) && AllExpired(list[..n], clock)
  }

  // The jobs of a snapshot that still wait for their runner, in order.
  function WaitingJobs(list: Snapshot): seq<JobId> {
    if list == [] then []
    else WaitingJobs(list[..|list| - 1]) + if list[|list| - 1].1.WaitForStart? then [list[|list| - 1].0] else []
  }

  lemma WaitingJobsMore(list: Snapshot, i: nat)
    requires i < |list|
    ensures WaitingJobs(list[..i + 1]) == WaitingJobs(list[..i]) + if list[i].1.WaitForStart? then [list[i].0] else []
  {
    assert list[..i + 1][..i] == list[..i];
  }

  /**
   Walking `list` of the snapshot one job at a time did what one batch completion of its waiting jobs does.
   */
  ghost predicate Folded(sh: Shared, pid: Pid, active: map<JobId, CoordState>, list: Snapshot, sh': Shared,
      active': map<JobId, CoordState>) {
    && sh' == Completed(sh, pid, WaitingJobs(list), RunnerTimeout)
    && active' == active - Elems(WaitingJobs(list))
  }

  lemma FoldedNothing(sh: Shared, pid: Pid, active: map<JobId, CoordState>)
    ensures Folded(sh, pid, active, [], sh, active)
  {
    CompletedNothing(sh, pid);
    assert WithCode(sh.rows, [], RunnerTimeout) == sh.rows;
    assert active - Elems<JobId>([]) == active;
  }

  lemma FoldedMore(sh: Shared, pid: Pid, active: map<JobId, CoordState>, list: Snapshot, i: nat,
      sh1: Shared, active1: map<JobId, CoordState>, sh2: Shared, active2: map<JobId, CoordState>)
    requires i < |list| && Folded(sh, pid, active, list[..i], sh1, active1)
    requires if list[i].1.WaitForStart?
      then sh2 == Completed(sh1, pid, [list[i].0], RunnerTimeout) && active2 == active1 - {list[i].0}
      else sh2 == sh1 && active2 == active1
    ensures Folded(sh, pid, active, list[..i + 1], sh2, active2)
    ensures WaitingJobs(list[..i + 1]) != [] <==> WaitingJobs(list[..i]) != [] || list[i].1.WaitForStart?
  {
    WaitingJobsMore(list, i);
    if list[i].1.WaitForStart? {
      CompletedMore(sh, pid, WaitingJobs(list[..i]), [list[i].0], RunnerTimeout);
      ElemsConcat(WaitingJobs(list[..i]), [list[i].0]);
      assert Elems([list[i].0]) == {list[i].0};
    }
  }

  lemma SnapshotTail(list: Snapshot, i: nat, active: map<JobId, CoordState>)
    requires i < |list| && IsSnapshot(list[i..], active)
    ensures list[i].0 in active && list[i..] == [list[i]] + list[i + 1..]
    ensures IsSnapshot(list[i + 1..], active) && IsSnapshot(list[i + 1..], active - {list[i].0})
  {
    var tail := list[i..];
    assert tail[0] == list[i];
    var shorter := list[i + 1..];
    assert forall k | 0 <= k < |shorter| :: shorter[k] == tail[k + 1];
  }

  lemma AllExpiredMore(list: Snapshot, clock: JobId -> Time, i: nat)
    requires i < |list| && AllExpired(list[..i], clock)
    ensures AllExpired(list[..i + 1], clock) <==> Expired(list[i], clock)
    ensures !Expired(list[i], clock) ==> !AllExpired(list, clock)
  {
    assert list[..i + 1] == list[..i] + [list[i]];
  }

  // ----- The database and the registry of jobs -----

  class Store {
    var rows: Rows
    var jobReg: map<JobId, Pid>
    var sent: seq<StartMsg>

    ghost function View(): Shared
      reads this
    {
      Shared(rows, jobReg, sent)
    }

    // Repo.all of the pending query with `limit: 1`.
    method FirstPending(board: BoardId, now: Time) returns (found: seq<JobId>)
      ensures QueryResult(rows, Eligible(rows, board, now), Some(1), found)
      ensures forall j | j in found ::
        && j in rows && rows[j].board == board && !rows[j].dispatched && rows[j].code == None
        && (rows[j].end == None || now < rows[j].end.value)
      ensures forall j | j in rows && rows[j].board == board && !rows[j].dispatched && rows[j].code == None
          && (rows[j].end == None || now < rows[j].end.value) ::
        found != [] && rows[found[0]].start <= rows[j].start
    {
      forall j
        ensures j in Eligible(rows, board, now) <==>
          && j in rows && rows[j].board == board && !rows[j].dispatched && rows[j].code == None
          && (rows[j].end == None || now < rows[j].end.value)
      {
        EligibleFields(rows, board, now, j);
      }
      var todo := Eligible(rows, board, now);
      if todo == {} { return []; }
      var best := AnyOf(todo);
      todo := todo - {best};
      while todo != {}
        invariant best in Eligible(rows, board, now) && todo <= Eligible(rows, board, now)
        invariant forall j | j in Eligible(rows, board, now) && j !in todo :: rows[best].start <= rows[j].start
        decreases todo
      {
        var j := AnyOf(todo);
        if rows[j].start < rows[best].start { best := j; }
        todo := todo - {j};
      }
      assert |Eligible(rows, board, now)| >= |{best}| by { CardMonotone({best}, Eligible(rows, board, now)); }
      return [best];
    }
  }

  class BoardServer {
    const pid: Pid
    const board: BoardId
    const maxJobs: nat
    const store: Store
    var runner: Option<Pid>
    var active: map<JobId, CoordState>
    var timer: Timer

    // The part of init after the server is registered for its board: close what an earlier server left open.
    constructor (pid: Pid, board: BoardId, maxJobs: nat, store: Store)
      requires SharedOk(store.View())
      requires forall j | j in store.jobReg && j in store.rows :: store.jobReg[j] != pid && store.rows[j].board != board
      modifies store
      ensures this.pid == pid && this.board == board && this.maxJobs == maxJobs && this.store == store
      ensures store.View() == old(store.View()).(rows := Sweep(old(store.rows), board))
      ensures runner == None && active == map[] && !timer.isSet && ValidAt(Idle)
    {
      this.pid, this.board, this.maxJobs, this.store := pid, board, maxJobs, store;
      runner, active, timer := None, map[], Timer(false, false, 0);
      new;
      ghost var sh := store.View();
      store.rows := Sweep(store.rows, board);
      SweepAgrees(sh, pid, board, maxJobs);
    }

    ghost function State(pc: Pc): Server
      reads this
    {
      Server(board, maxJobs, runner, active, timer, pc)
    }

    ghost predicate ValidAt(pc: Pc)
      reads this, store
    {
      InAgreement(store.View(), pid, State(pc))
    }

    // One turn of schedule_jobs, after the query found `job`.
    method Dispatch(job: JobId, stamp: Time) returns (crash: Option<Crash>)
      requires ValidAt(Picked(job))
      modifies this`active, this`timer, store
      ensures crash == if runner.Some? then None else Some(NilRunner)
      ensures store.View() == SharedAfter(old(store.View()), pid, runner, [job])
      ensures crash.None? ==> State(Idle) == LocalAfter(old(State(Idle)), stamp, [job]) && ValidAt(Scheduling)
      ensures job !in old(active) && old(job in store.rows && job !in store.jobReg)
    {
      DispatchChain(store.View(), pid, State(Picked(job)), stamp);
      DispatchShared(store.View(), pid, job);
      PromoteOne(active, job, WaitForStart(stamp));
      store.jobReg := store.jobReg[job := pid];
      store.rows := store.rows[job := store.rows[job].(dispatched := true)];
      if runner.None? { return Some(NilRunner); }
      store.sent := store.sent + [StartMsg(job, runner.value)];
      active := active[job := WaitForStart(stamp)];
      timer := Arm(timer);
      return None;
    }

    method ScheduleJobs(clock: Clock, stamp: Time) returns (crash: Option<Crash>, ghost jobs: seq<JobId>,
        ghost trace: seq<Action>)
      requires ValidAt(Scheduling)
      modifies this`active, this`timer, store
      ensures crash == None || crash == Some(NilRunner)
      ensures Scheduled(old(store.View()), pid, old(State(Scheduling)), clock, stamp, jobs, Result(crash))
      ensures Path(old(store.View()), pid, old(State(Scheduling)), trace, Result(crash))
      decreases |Waiting(store.rows, board)|
    {
      ghost var sh, srv := store.View(), State(Scheduling);
      var found := store.FirstPending(board, clock(0));
      PendingNotActive(sh, pid, srv, clock(0), Some(1), found);
      var pending := WithoutActive(found, store.jobReg);
      if |active| >= maxJobs || pending == [] {
        NothingToSchedule(sh, pid, srv, clock, stamp, found);
        return None, [], [Query(clock(0), found)];
      }
      var job := pending[0];
      PickedAgrees(sh, pid, srv, clock(0), found);
      assert found == [job];
      crash := Dispatch(job, stamp);
      ghost var sh', srv' := store.View(), State(Scheduling);
      assert sh' == SharedAfter(sh, pid, srv.runner, found);
      if crash.Some? {
        DispatchDies(sh, pid, srv, clock, stamp, found);
        return crash, found, DispatchTrace(clock(0), stamp, found);
      }
      assert srv' == LocalAfter(srv, stamp, found).(pc := Scheduling);
      WaitingShrinks(sh.rows, board, job);
      ghost var rest, tail;
      crash, rest, tail := ScheduleJobs(Later(clock), stamp);
      DispatchMore(sh, pid, srv, clock, stamp, found, rest, tail, Result(crash));
      jobs := found + rest;
      trace := DispatchTrace(clock(0), stamp, found) + tail;
    }

    // `ok` is false when Map.pop! raises; nothing was written then.
    method CompleteJobs(jobs: seq<JobId>, code: CompletionCode, ghost next: Next) returns (ok: bool,
        ghost trace: seq<Action>)
      modifies this`active, store
      ensures ok <==> Distinct(jobs) && Elems(jobs) <= old(active.Keys)
      ensures ok ==> active == old(active) - Elems(jobs)
      ensures ok ==> store.View() == Completed(old(store.View()), pid, jobs, code)
      ensures !ok ==> active == old(active) && store.View() == old(store.View())
      ensures ok ==>
        Path(old(store.View()), pid, State(Completing(jobs, code, next)), trace,
          Continue(store.View(), State(Resume(next))))
    {
      var popped := active;
      PopAllExactly(active, jobs);
      trace := [];
      for i := 0 to |jobs|
        invariant PopAll(old(active), jobs) == PopAll(popped, jobs[i..])
        invariant active == old(active) && store.View() == old(store.View())
      {
        if jobs[i] !in popped { return false, []; }
        assert jobs[i..][1..] == jobs[i + 1..];
        popped := popped - {jobs[i]};
      }
      PopAllSucceeds(active, jobs);
      active := popped;
      ghost var srv := State(Completing(jobs, code, next));
      ghost var sh := store.View();
      store.rows := WithCode(store.rows, jobs, code);
      ghost var written := store.View();
      ghost var tail;
      PathOne(sh, pid, srv, WriteCodes);
      tail := Unregister(jobs, next);
      PathConcat(sh, pid, srv, [WriteCodes], written, srv.(pc := Unregistering(jobs, next)), tail,
        Continue(store.View(), State(Resume(next))));
      return true, [WriteCodes] + tail;
    }

    // The end of complete_jobs: give up the registrations.
    method Unregister(jobs: seq<JobId>, ghost next: Next) returns (ghost trace: seq<Action>)
      modifies store
      ensures store.View() == old(store.View()).(jobReg := Released(old(store.jobReg), pid, jobs))
      ensures Path(old(store.View()), pid, old(State(Unregistering(jobs, next))), trace,
        Continue(store.View(), State(Resume(next))))
    {
      ghost var sh, srv := store.View(), State(Unregistering(jobs, next));
      trace := [];
      assert jobs[0..] == jobs && jobs[..0] == [];
      CompletedNothing(sh, pid);
      for i := 0 to |jobs|
        invariant store.View() == sh.(jobReg := Released(sh.jobReg, pid, jobs[..i]))
        invariant State(Idle) == srv.(pc := Idle)
        invariant Path(sh, pid, srv, trace, Continue(store.View(), srv.(pc := Unregistering(jobs[i..], next))))
      {
        ghost var before := store.View();
        var j := jobs[i];
        ReleasedMore(sh.jobReg, pid, jobs, i);
        if j in store.jobReg && store.jobReg[j] == pid {
          store.jobReg := store.jobReg - {j};
        }
        PathMore(sh, pid, srv, trace, before, srv.(pc := Unregistering(jobs[i..], next)), Action.Unregister);
        trace := trace + [Action.Unregister];
        assert jobs[i..][1..] == jobs[i + 1..];
      }
      assert jobs[..|jobs|] == jobs && jobs[|jobs|..] == [];
      PathMore(sh, pid, srv, trace, store.View(), srv.(pc := Unregistering([], next)), Action.Unregister);
      trace := trace + [Action.Unregister];
    }

    // One turn of the fold of supervise_runners.
    method SuperviseOne(job: JobId, state: CoordState, now: Time, ghost rest: Snapshot) returns (crash: Option<Crash>,
        changed: bool, ghost trace: seq<Action>)
      requires job in active
      modifies this`active, store
      ensures crash == if state.WaitForStart? && now <= state.since + 5 * Second then Some(UnexpiredWait) else None
      ensures changed <==> state.WaitForStart? && crash.None?
      ensures active == if changed then old(active) - {job} else old(active)
      ensures store.View() == if changed then Completed(old(store.View()), pid, [job], RunnerTimeout)
        else old(store.View())
      ensures Path(old(store.View()), pid, old(State(Supervising([(job, state)] + rest))), trace,
        if crash.None? then Continue(store.View(), State(Supervising(rest))) else Dies(store.View(), UnexpiredWait))
    {
      ghost var here, at := store.View(), State(Supervising([(job, state)] + rest));
      assert ([(job, state)] + rest)[1..] == rest;
      PathOne(here, pid, at, Supervise(now));
      trace := [Supervise(now)];
      crash, changed := None, false;
      if state.WaitForStart? {
        if state.since + 5 * Second < now {
          PopOne(active, job);
          assert Elems([job]) == {job};
          ghost var mid := State(Completing([job], RunnerTimeout, ThenSupervise(rest))).(active := active - {job});
          ghost var ok, tail;
          ok, tail := CompleteJobs([job], RunnerTimeout, ThenSupervise(rest));
          changed := true;
          PathConcat(here, pid, at, trace, here, mid, tail, Continue(store.View(), State(Supervising(rest))));
          trace := trace + tail;
        } else {
          crash := Some(UnexpiredWait);
        }
      }
    }

    // supervise_runners: the fold over the snapshot. `clock(j)` is the time read when job `j` is examined;
    // `n` is how many entries were examined in full.
    method SuperviseRunners(snapshot: Snapshot, clock: JobId -> Time) returns (crash: Option<Crash>, changed: bool,
        ghost n: nat, ghost trace: seq<Action>)
      requires IsSnapshot(snapshot, active)
      modifies this`active, store
      ensures crash == if AllExpired(snapshot, clock) then None else Some(UnexpiredWait)
      ensures n <= |snapshot| && (n == |snapshot| <==> crash.None?)
      ensures (crash.Some? ==> FirstUnexpired(snapshot, clock, n))
      ensures Folded(old(store.View()), pid, old(active), snapshot[..n], store.View(), active)
      ensures changed <==> WaitingJobs(snapshot[..n]) != []
      ensures Path(old(store.View()), pid, old(State(Supervising(snapshot))), trace,
        if crash.None? then Continue(store.View(), State(Supervising([]))) else Dies(store.View(), UnexpiredWait))
    {
      ghost var sh, srv := store.View(), State(Supervising(snapshot));
      changed, n, trace := false, 0, [];
      assert snapshot[0..] == snapshot && snapshot[..0] == [];
      FoldedNothing(sh, pid, active);
      for i := 0 to |snapshot|
        invariant n == i
        invariant IsSnapshot(snapshot[i..], active)
        invariant AllExpired(snapshot[..i], clock)
        invariant Folded(sh, pid, srv.active, snapshot[..i], store.View(), active)
        invariant changed <==> WaitingJobs(snapshot[..i]) != []
        invariant Path(sh, pid, srv, trace, Continue(store.View(), State(Supervising(snapshot[i..]))))
      {
        ghost var here, at := store.View(), State(Supervising(snapshot[i..]));
        var (job, state) := snapshot[i];
        SnapshotTail(snapshot, i, active);
        ghost var tail;
        var one;
        crash, one, tail := SuperviseOne(job, state, clock(job), snapshot[i + 1..]);
        AllExpiredMore(snapshot, clock, i);
        if crash.Some? {
          PathConcat(sh, pid, srv, trace, here, at, tail, Dies(store.View(), UnexpiredWait));
          trace := trace + tail;
          return;
        }
        PathConcat(sh, pid, srv, trace, here, at, tail, Continue(store.View(), State(Supervising(snapshot[i + 1..]))));
        trace := trace + tail;
        changed := changed || one;
        FoldedMore(sh, pid, srv.active, snapshot, i, here, at.active, store.View(), active);
        n := i + 1;
      }
      assert snapshot[..|snapshot|] == snapshot && snapshot[|snapshot|..] == [];
      crash := None;
    }

    // handle_info(:runner_supervisor_timer): supervise, then re-arm the timer.
    method HandleTick(snapshot: Snapshot, clock: JobId -> Time) returns (crash: Option<Crash>, changed: bool,
        ghost n: nat, ghost trace: seq<Action>)
      requires timer.ticks > 0 && FullSnapshot(snapshot, active)
      modifies this`active, this`timer, store
      ensures crash == if AllExpired(snapshot, clock) then None else Some(UnexpiredWait)
      ensures n <= |snapshot| && (n == |snapshot| <==> crash.None?)
      ensures (crash.Some? ==> FirstUnexpired(snapshot, clock, n))
      ensures Folded(old(store.View()), pid, old(active), snapshot[..n], store.View(), active)
      ensures changed <==> WaitingJobs(snapshot[..n]) != []
      ensures crash.None? ==> timer == Arm(old(timer).(ticks := old(timer).ticks - 1))
      ensures Path(old(store.View()), pid, old(State(Idle)), trace, Result(crash))
    {
      ghost var sh, srv := store.View(), State(Idle);
      PathOne(sh, pid, srv, Tick(snapshot));
      timer := timer.(ticks := timer.ticks - 1);
      ghost var at := State(Supervising(snapshot));
      ghost var tail;
      crash, changed, n, tail := SuperviseRunners(snapshot, clock);
      trace := [Tick(snapshot)] + tail;
      if crash.Some? {
        PathConcat(sh, pid, srv, [Tick(snapshot)], sh, at, tail, Dies(store.View(), UnexpiredWait));
      } else {
        ghost var done := State(Supervising([]));
        PathConcat(sh, pid, srv, [Tick(snapshot)], sh, at, tail, Continue(store.View(), done));
        PathMore(sh, pid, srv, trace, store.View(), done, Supervise(0));
        trace := trace + [Supervise(0)];
        timer := Arm(timer);
      }
    }

    // handle_call({:update_job_state, ...}); `known` is false for the reply {:error, :job_not_active}.
    method UpdateJobState(job: JobId, posted: RunnerState, now: Time, clock: Clock, stamp: Time)
      returns (known: bool, crash: Option<Crash>, ghost jobs: seq<JobId>, ghost trace: seq<Action>)
      requires ValidAt(Idle)
      modifies this`active, this`timer, store
      ensures known == (job in old(active))
      ensures !known ==> crash == None && store.View() == old(store.View()) && State(Idle) == old(State(Idle))
      ensures known ==>
        match UpdateAct(old(active)[job], posted, now)
        case Put(next) => crash == None && Scheduled(old(store.View()), pid,
          old(State(Scheduling)).(active := old(active)[job := next]), clock, stamp, jobs, Result(crash))
        case Remove(code) => crash == None && Scheduled(Completed(old(store.View()), pid, [job], code), pid,
          old(State(Scheduling)).(active := old(active) - {job}), clock, stamp, jobs, Result(crash))
        case NoClause => crash == Some(MissingClause) && store.View() == old(store.View())
      ensures Path(old(store.View()), pid, old(State(Idle)), trace, Result(crash))
      ensures crash.None? ==> ValidAt(Idle)
    {
      ghost var sh, srv := store.View(), State(Idle);
      ghost var a := UpdateState(job, posted, now);
      PathOne(sh, pid, srv, a);
      UpdateKeeps(sh, pid, srv, job, posted, now);
      trace := [a];
      if job !in active { return false, None, [], trace; }
      known := true;
      match UpdateAct(active[job], posted, now) {
        case Put(next) =>
          active := active[job := next];
        case Remove(code) =>
          PopOne(active, job);
          ghost var mid := srv.(active := active - {job}, pc := Completing([job], code, ThenSchedule));
          ghost var ok, tail;
          assert Elems([job]) == {job};
          ok, tail := CompleteJobs([job], code, ThenSchedule);
          PathKeeps(sh, pid, mid, tail, Continue(store.View(), State(Scheduling)));
          PathConcat(sh, pid, srv, trace, sh, mid, tail, Continue(store.View(), State(Scheduling)));
          trace := trace + tail;
        case NoClause =>
          return true, Some(MissingClause), [], trace;
      }
      ghost var here, at := store.View(), State(Scheduling);
      ghost var rest;
      crash, jobs, rest := ScheduleJobs(clock, stamp);
      PathConcat(sh, pid, srv, trace, here, at, rest, Result(crash));
      trace := trace + rest;
      PathKeeps(sh, pid, srv, trace, Result(crash));
    }

    // handle_info({:DOWN, ...}); `keys` is Map.keys of the active jobs.
    method RunnerDown(conn: Pid, keys: seq<JobId>) returns (crash: Option<Crash>, ghost trace: seq<Action>)
      requires ValidAt(Idle) && Distinct(keys) && Elems(keys) == active.Keys
      modifies this`active, this`runner, store
      ensures crash == if old(runner) == Some(conn) then None else Some(StrayDown)
      ensures crash.None? ==>
        runner == None && active == map[] && store.View() == Completed(old(store.View()), pid, keys, Failed)
          && ValidAt(Idle)
      ensures crash.Some? ==> store.View() == old(store.View())
      ensures Path(old(store.View()), pid, old(State(Idle)), trace, Result(crash))
    {
      ghost var sh, srv := store.View(), State(Idle);
      ghost var a := Down(conn, keys);
      PathOne(sh, pid, srv, a);
      trace := [a];
      if runner != Some(conn) { return Some(StrayDown), trace; }
      PopAllSucceeds(active, keys);
      runner := None;
      ghost var mid := srv.(runner := None, active := active - Elems(keys), pc := Completing(keys, Failed, ThenIdle));
      ghost var ok, tail;
      ok, tail := CompleteJobs(keys, Failed, ThenIdle);
      PathConcat(sh, pid, srv, trace, sh, mid, tail, Continue(store.View(), State(Idle)));
      trace := trace + tail;
      PathKeeps(sh, pid, srv, trace, Continue(store.View(), State(Idle)));
      crash := None;
    }

    // handle_call({:connect_runner, ...})
    method ConnectRunner(conn: Pid, clock: Clock, stamp: Time) returns (ghost jobs: seq<JobId>,
        ghost trace: seq<Action>)
      requires ValidAt(Idle)
      modifies this`active, this`timer, this`runner, store
      ensures Scheduled(old(store.View()), pid, old(State(Scheduling)).(runner := Some(conn)), clock, stamp, jobs,
        Result(None))
      ensures Path(old(store.View()), pid, old(State(Idle)), trace, Result(None))
      ensures runner == Some(conn) && ValidAt(Idle)
    {
      ghost var sh, srv := store.View(), State(Idle);
      ghost var a := Action.ConnectRunner(conn);
      PathOne(sh, pid, srv, a);
      MessageKeeps(sh, pid, srv, a);
      runner := Some(conn);
      ghost var at := State(Scheduling);
      ghost var crash, rest;
      crash, jobs, rest := ScheduleJobs(clock, stamp);
      PathConcat(sh, pid, srv, [a], sh, at, rest, Result(crash));
      trace := [a] + rest;
      PathKeeps(sh, pid, srv, trace, Result(crash));
    }

    // handle_cast(:schedule_jobs)
    method CastSchedule(clock: Clock, stamp: Time) returns (crash: Option<Crash>, ghost jobs: seq<JobId>,
        ghost trace: seq<Action>)
      requires ValidAt(Idle)
      modifies this`active, this`timer, store
      ensures crash ==
        if runner.None? && maxJobs > 0 && old(Eligible(store.rows, board, clock(0))) != {} then Some(NilRunner)
        else None
      ensures Scheduled(old(store.View()), pid, old(State(Scheduling)), clock, stamp, jobs, Result(crash))
      ensures Path(old(store.View()), pid, old(State(Idle)), trace, Result(crash))
      ensures crash.None? ==> ValidAt(Idle)
    {
      ghost var sh, srv := store.View(), State(Idle);
      PathOne(sh, pid, srv, ScheduleCast);
      MessageKeeps(sh, pid, srv, ScheduleCast);
      ghost var at := State(Scheduling);
      ghost var rest;
      crash, jobs, rest := ScheduleJobs(clock, stamp);
      PathConcat(sh, pid, srv, [ScheduleCast], sh, at, rest, Result(crash));
      trace := [ScheduleCast] + rest;
      PathKeeps(sh, pid, srv, trace, Result(crash));
    }

    // handle_call({:terminate_job, ...}): `told` is the runner the stop message goes to. Only a job that
    // is no longer active can find no runner.
    method TerminateJob(job: JobId) returns (told: Option<Pid>, crash: Option<Crash>, ghost trace: seq<Action>)
      requires ValidAt(Idle) && job in SentJobs(store.sent)
      ensures told == runner && (crash == if told.None? then Some(NilRunner) else None)
      ensures job in active ==> crash.None?
      ensures Path(store.View(), pid, State(Idle), trace, Result(crash))
    {
      PathOne(store.View(), pid, State(Idle), Terminate(job));
      trace := [Terminate(job)];
      told := runner;
      crash := if told.None? then Some(NilRunner) else None;
    }

    ghost function Result(crash: Option<Crash>): Outcome
      reads this, store
    {
      if crash.None? then Continue(store.View(), State(Idle)) else Dies(store.View(), crash.value)
    }
  }

  lemma NothingToSchedule(sh: Shared, pid: Pid, srv: Server, clock: Clock, stamp: Time, found: seq<JobId>)
    requires srv.pc.Scheduling? && QueryResult(sh.rows, Eligible(sh.rows, srv.board, clock(0)), Some(1), found)
    requires WithoutActive(found, sh.jobReg) == found && (|srv.active| >= srv.maxJobs || found == [])
    ensures Scheduled(sh, pid, srv, clock, stamp, [], Continue(sh, srv.(pc := Idle)))
    ensures Path(sh, pid, srv, [Query(clock(0), found)], Continue(sh, srv.(pc := Idle)))
  {
    EmptyQuery(sh.rows, srv.board, clock(0), found);
    ScheduledNothing(sh, pid, srv, clock, stamp);
    PathOne(sh, pid, srv, Query(clock(0), found));
  }

  lemma EmptyQuery(rows: Rows, board: BoardId, now: Time, found: seq<JobId>)
    requires QueryResult(rows, Eligible(rows, board, now), Some(1), found)
    ensures found == [] ==> Eligible(rows, board, now) == {}
    ensures found != [] ==> found == [found[0]] && found[0] in Eligible(rows, board, now)
  {}

  lemma DispatchShared(sh: Shared, pid: Pid, j: JobId)
    requires j in sh.rows
    ensures SharedAfter(sh, pid, None, [j]) ==
      sh.(rows := sh.rows[j := sh.rows[j].(dispatched := true)], jobReg := sh.jobReg[j := pid])
    ensures forall conn ::
      SharedAfter(sh, pid, Some(conn), [j]) == SharedAfter(sh, pid, None, [j]).(sent := sh.sent + [StartMsg(j, conn)])
  {
    assert MarkAll(sh.rows, [j]) == sh.rows[j := sh.rows[j].(dispatched := true)];
    PromoteOne(sh.jobReg, j, pid);
    assert forall conn :: StartMsgs([j], conn) == [StartMsg(j, conn)];
  }

  lemma DispatchChain(sh: Shared, pid: Pid, srv: Server, stamp: Time)
    requires InAgreement(sh, pid, srv) && srv.pc.Picked?
    ensures srv.pc.job in sh.rows && srv.pc.job !in sh.jobReg && srv.pc.job !in srv.active
    ensures srv.runner.Some? ==>
      InAgreement(SharedAfter(sh, pid, srv.runner, [srv.pc.job]), pid,
        LocalAfter(srv, stamp, [srv.pc.job]).(pc := Scheduling))
  {
    var j := srv.pc.job;
    RegisterKeeps(sh, pid, srv);
    assert j in Waiting(sh.rows, srv.board);
    var sh1, srv1 := sh.(jobReg := sh.jobReg[j := pid]), srv.(pc := Registered(j));
    assert HandleRegister(sh, pid, srv) == Continue(sh1, srv1);
    MarkKeeps(sh1, pid, srv1);
    var sh2, srv2 := sh1.(rows := sh1.rows[j := sh1.rows[j].(dispatched := true)]), srv.(pc := Dispatched(j));
    assert HandleMark(sh1, srv1) == Continue(sh2, srv2);
    DispatchShared(sh, pid, j);
    SendKeeps(sh2, pid, srv2, stamp);
    if srv.runner.Some? { SendOut(sh, pid, srv, stamp, j); }
  }

  lemma SendOut(sh: Shared, pid: Pid, srv: Server, stamp: Time, j: JobId)
    requires j in sh.rows
    ensures HandleSend(SharedAfter(sh, pid, None, [j]), srv.(pc := Dispatched(j)), stamp) ==
      if srv.runner.None? then Dies(SharedAfter(sh, pid, None, [j]), NilRunner)
      else Continue(SharedAfter(sh, pid, srv.runner, [j]), LocalAfter(srv, stamp, [j]).(pc := Scheduling))
  {
    DispatchShared(sh, pid, j);
    PromoteOne(srv.active, j, WaitForStart(stamp));
  }

  // The four actions one dispatch is made of.
  lemma DispatchPath(sh: Shared, pid: Pid, srv: Server, now: Time, stamp: Time, found: seq<JobId>)
    requires Enabled(sh, srv, Query(now, found))
    requires |srv.active| < srv.maxJobs && found != [] && WithoutActive(found, sh.jobReg) == found
    requires found[0] in sh.rows && found[0] !in sh.jobReg
    ensures Path(sh, pid, srv, [Query(now, found)] + ([Register] + ([MarkDispatched] + [Send(stamp)])),
      if srv.runner.None? then Dies(SharedAfter(sh, pid, None, [found[0]]), NilRunner)
      else Continue(SharedAfter(sh, pid, srv.runner, [found[0]]),
        LocalAfter(srv, stamp, [found[0]]).(pc := Scheduling)))
  {
    var j := found[0];
    var registered := sh.(jobReg := sh.jobReg[j := pid]);
    var marked := SharedAfter(sh, pid, None, [j]);
    DispatchShared(sh, pid, j);
    SendOut(sh, pid, srv, stamp, j);
    var out := HandleSend(marked, srv.(pc := Dispatched(j)), stamp);
    PathOne(marked, pid, srv.(pc := Dispatched(j)), Send(stamp));
    PathCons(registered, pid, srv.(pc := Registered(j)), MarkDispatched, marked, srv.(pc := Dispatched(j)),
      [Send(stamp)], out);
    PathCons(sh, pid, srv.(pc := Picked(j)), Register, registered, srv.(pc := Registered(j)),
      [MarkDispatched] + [Send(stamp)], out);
    PathCons(sh, pid, srv, Query(now, found), sh, srv.(pc := Picked(j)),
      [Register] + ([MarkDispatched] + [Send(stamp)]), out);
  }

  function DispatchTrace(now: Time, stamp: Time, found: seq<JobId>): seq<Action> {
    [Query(now, found)] + ([Register] + ([MarkDispatched] + [Send(stamp)]))
  }

  // The query found a job that is waiting and that nobody has, and there is room for it.
  ghost predicate Found(sh: Shared, srv: Server, now: Time, found: seq<JobId>) {
    && srv.pc.Scheduling? && |srv.active| < srv.maxJobs && |found| == 1 && found[0] !in srv.active
    && QueryResult(sh.rows, Eligible(sh.rows, srv.board, now), Some(1), found)
    && WithoutActive(found, sh.jobReg) == found && found[0] in Waiting(sh.rows, srv.board) && found[0] !in sh.jobReg
  }

  lemma PickedAgrees(sh: Shared, pid: Pid, srv: Server, now: Time, found: seq<JobId>)
    requires InAgreement(sh, pid, srv) && srv.pc.Scheduling? && |srv.active| < srv.maxJobs && found != []
    requires QueryResult(sh.rows, Eligible(sh.rows, srv.board, now), Some(1), found)
    requires WithoutActive(found, sh.jobReg) == found
    ensures Found(sh, srv, now, found) && InAgreement(sh, pid, srv.(pc := Picked(found[0])))
  {
    EmptyQuery(sh.rows, srv.board, now, found);
    StepKeeps(sh, pid, srv, Query(now, found));
    DispatchChain(sh, pid, srv.(pc := Picked(found[0])), 0);
  }

  lemma DispatchDies(sh: Shared, pid: Pid, srv: Server, clock: Clock, stamp: Time, found: seq<JobId>)
    requires Found(sh, srv, clock(0), found) && srv.runner.None?
    ensures Scheduled(sh, pid, srv, clock, stamp, found, Dies(SharedAfter(sh, pid, None, found), NilRunner))
    ensures Path(sh, pid, srv, DispatchTrace(clock(0), stamp, found),
      Dies(SharedAfter(sh, pid, None, found), NilRunner))
  {
    DispatchPath(sh, pid, srv, clock(0), stamp, found);
    assert found == [found[0]] && found[1..] == [];
    assert Picks(MarkAll(sh.rows, [found[0]]), srv.board, Later(clock), 0, found[1..]);
  }

  // One dispatch, and the rest of the scheduling after it.
  lemma DispatchMore(sh: Shared, pid: Pid, srv: Server, clock: Clock, stamp: Time, found: seq<JobId>,
      rest: seq<JobId>, tail: seq<Action>, out: Outcome)
    requires Found(sh, srv, clock(0), found) && srv.runner.Some?
    requires var sh', srv' := SharedAfter(sh, pid, srv.runner, found), LocalAfter(srv, stamp, found).(pc := Scheduling);
      Scheduled(sh', pid, srv', Later(clock), stamp, rest, out) && Path(sh', pid, srv', tail, out)
    ensures Scheduled(sh, pid, srv, clock, stamp, found + rest, out)
    ensures Path(sh, pid, srv, DispatchTrace(clock(0), stamp, found) + tail, out)
  {
    assert found == [found[0]];
    DispatchPath(sh, pid, srv, clock(0), stamp, found);
    ScheduledMore(sh, pid, srv, clock, stamp, found[0], rest, out);
    PathConcat(sh, pid, srv, DispatchTrace(clock(0), stamp, found), SharedAfter(sh, pid, srv.runner, found),
      LocalAfter(srv, stamp, found).(pc := Scheduling), tail, out);
  }

  lemma SweepAgrees(sh: Shared, pid: Pid, board: BoardId, maxJobs: nat)
    requires SharedOk(sh)
    requires forall j | j in sh.jobReg && j in sh.rows :: sh.jobReg[j] != pid && sh.rows[j].board != board
    ensures InAgreement(sh.(rows := Sweep(sh.rows, board)), pid,
      Server(board, maxJobs, None, map[], Timer(false, false, 0), Idle))
  {
    var sh' := sh.(rows := Sweep(sh.rows, board));
    assert forall j :: j !in Held(sh', pid);
    assert forall j :: j !in Open(sh'.rows, board);
    assert forall j | j in SentFor(sh', board) :: j !in Waiting(sh'.rows, board);
  }

  lemma WaitingShrinks(rows: Rows, board: BoardId, j: JobId)
    requires j in Waiting(rows, board)
    ensures |Waiting(MarkAll(rows, [j]), board)| < |Waiting(rows, board)|
  {
    var a, b := Waiting(MarkAll(rows, [j]), board), Waiting(rows, board);
    assert forall k :: k in a <==> k in b && k != j;
    assert a == b - {j};
  }
}
