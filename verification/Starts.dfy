/** Which jobs are sent to a runner, and when none is left to send, over every run of the coordinator. */
module Starts {
  import opened Common
  import opened Jobs
  import opened UpdateTable
  import opened Coordinator
  import opened Agreement
  import opened ServerSteps
  import opened SystemInvariant

  // The job is this board's, was never dispatched, has no code, and its end has not come.
  predicate IsDue(row: Row, board: BoardId, now: Time) {
    && row.board == board && !row.dispatched && row.code == None
    && (row.end.Some? ==> now < row.end.value)
  }

  lemma DueIsEligible(rows: Rows, board: BoardId, now: Time, j: JobId)
    ensures j in Eligible(rows, board, now) <==> j in rows && IsDue(rows[j], board, now)
  {
    EligibleFields(rows, board, now, j);
  }

  // The server has room, and no job that is due starts before this one.
  ghost predicate MayPick(w: World, p: Pid, j: JobId, now: Time) {
    && p in w.servers && w.servers[p].pc.Scheduling? && |w.servers[p].active| < w.servers[p].maxJobs
    && j in w.sh.rows && IsDue(w.sh.rows[j], w.servers[p].board, now)
    && forall i | i in w.sh.rows && IsDue(w.sh.rows[i], w.servers[p].board, now) ::
      w.sh.rows[j].start <= w.sh.rows[i].start
  }

  // The server is dispatching the job.
  predicate Dispatches(pc: Pc, j: JobId) {
    pc == Picked(j) || pc == Registered(j) || pc == Pc.Dispatched(j)
  }

  lemma QueryPicks(w: World, p: Pid, now: Time, found: seq<JobId>, j: JobId)
    requires Inv(w) && Possible(w, Run(p, Query(now, found)))
    requires HandleQuery(w.sh, w.servers[p], found).srv.pc == Picked(j)
    ensures MayPick(w, p, j, now)
  {
    assert ServerOk(w, p);
    OwnsFromRegistries(w, p);
    PendingNotActive(w.sh, p, w.servers[p], now, Some(1), found);
    var all := Eligible(w.sh.rows, w.servers[p].board, now);
    assert found == [j] && j in all;
    DueIsEligible(w.sh.rows, w.servers[p].board, now, j);
    forall i | i in w.sh.rows && IsDue(w.sh.rows[i], w.servers[p].board, now)
      ensures w.sh.rows[j].start <= w.sh.rows[i].start
    {
      DueIsEligible(w.sh.rows, w.servers[p].board, now, i);
    }
  }

  // The step is a query of the server, and with the time it reads the job is one to pick.
  ghost predicate PickedBy(w: World, s: Step, p: Pid, j: JobId) {
    s.Run? && s.p == p && s.a.Query? && MayPick(w, p, j, s.a.now)
  }

  lemma OnlyQueriesPick(sh: Shared, pid: Pid, srv: Server, a: Action, j: JobId)
    requires Enabled(sh, srv, a) && ServerStep(sh, pid, srv, a).Continue?
    requires Dispatches(ServerStep(sh, pid, srv, a).srv.pc, j) && !Dispatches(srv.pc, j)
    ensures a.Query? && ServerStep(sh, pid, srv, a).srv.pc == Picked(j)
  {}

  lemma OwnDispatchWas(w: World, p: Pid, a: Action, j: JobId)
    requires Inv(w) && Possible(w, Run(p, a)) && ServerStep(w.sh, p, w.servers[p], a).Continue?
    requires Dispatches(ServerStep(w.sh, p, w.servers[p], a).srv.pc, j) && !Dispatches(w.servers[p].pc, j)
    ensures a.Query? && MayPick(w, p, j, a.now)
  {
    OnlyQueriesPick(w.sh, p, w.servers[p], a, j);
    QueryPicks(w, p, a.now, a.found, j);
  }

  // A dispatch goes back to the query that picked the job.
  lemma DispatchWas(w: World, s: Step, p: Pid, j: JobId)
    requires Inv(w) && Possible(w, s) && p in Apply(w, s).servers && Dispatches(Apply(w, s).servers[p].pc, j)
    ensures (p in w.servers && Dispatches(w.servers[p].pc, j)) || PickedBy(w, s, p, j)
  {
    if s.Run? && s.p == p {
      if !Dispatches(w.servers[p].pc, j) { OwnDispatchWas(w, p, s.a, j); }
    } else {
      OthersDispatch(w, s, p, j);
    }
  }

  lemma OthersDispatch(w: World, s: Step, p: Pid, j: JobId)
    requires Possible(w, s) && (s.Run? ==> s.p != p)
    requires p in Apply(w, s).servers && Dispatches(Apply(w, s).servers[p].pc, j)
    ensures p in w.servers && Dispatches(w.servers[p].pc, j)
  {}

  lemma PickedBefore(ws: seq<World>, steps: seq<Step>, k: nat, p: Pid, j: JobId)
    requires Takes(ws, steps) && k < |steps| && p in ws[k + 1].servers && Dispatches(ws[k + 1].servers[p].pc, j)
    ensures (p in ws[k].servers && Dispatches(ws[k].servers[p].pc, j)) || PickedBy(ws[k], steps[k], p, j)
  {
    TakesRun(ws, steps, k);
    DispatchWas(ws[k], steps[k], p, j);
  }

  lemma {:induction false} WhenPicked(ws: seq<World>, steps: seq<Step>, i: nat, p: Pid, j: JobId) returns (k: nat)
    requires Takes(ws, steps) && i < |ws| && p in ws[i].servers && Dispatches(ws[i].servers[p].pc, j)
    ensures k < i && PickedBy(ws[k], steps[k], p, j)
  {
    assert ws[0].servers == map[];
    PickedBefore(ws, steps, i - 1, p, j);
    if p in ws[i - 1].servers && Dispatches(ws[i - 1].servers[p].pc, j) {
      k := WhenPicked(ws, steps, i - 1, p, j);
    } else {
      k := i - 1;
    }
  }

  lemma SendAppends(w: World, s: Step)
    requires Possible(w, s)
    ensures Apply(w, s).sh.sent == w.sh.sent || (s.Run? && s.a.Send? && w.servers[s.p].runner.Some?
      && Apply(w, s).sh.sent == w.sh.sent + [StartMsg(w.servers[s.p].pc.job, w.servers[s.p].runner.value)])
  {}

  /**
   Every start message ever sent names a job that a server with room picked, by the time its query read, while
   the job was due and none that was due had an earlier start; it goes to the runner connected to the server
   at the send.
   */
  lemma {:induction false} StartsAreDue(ws: seq<World>, steps: seq<Step>, i: nat, n: nat)
      returns (p: Pid, picked: nat, sent: nat)
    requires Takes(ws, steps) && i < |ws| && n < |ws[i].sh.sent|
    ensures picked < sent < i && PickedBy(ws[picked], steps[picked], p, ws[i].sh.sent[n].job)
    ensures |ws[sent].sh.sent| == n && p in ws[sent].servers
    ensures ws[sent].servers[p].runner == Some(ws[i].sh.sent[n].runner)
  {
    SendAppends(ws[i - 1], steps[i - 1]);
    if n < |ws[i - 1].sh.sent| {
      p, picked, sent := StartsAreDue(ws, steps, i - 1, n);
    } else {
      p, sent := steps[i - 1].p, i - 1;
      picked := WhenPicked(ws, steps, sent, p, ws[i].sh.sent[n].job);
    }
  }

  // When a server stops scheduling it has no room, or no job of its board is due.
  lemma QueryEnds(w: World, p: Pid, now: Time, found: seq<JobId>)
    requires Inv(w) && Possible(w, Run(p, Query(now, found)))
    ensures var srv' := HandleQuery(w.sh, w.servers[p], found).srv;
      if |w.servers[p].active| < w.servers[p].maxJobs &&
        exists j :: j in w.sh.rows && IsDue(w.sh.rows[j], w.servers[p].board, now)
      then srv'.pc.Picked? else srv'.pc.Idle?
  {
    assert ServerOk(w, p);
    OwnsFromRegistries(w, p);
    PendingNotActive(w.sh, p, w.servers[p], now, Some(1), found);
    var all := Eligible(w.sh.rows, w.servers[p].board, now);
    if j :| j in w.sh.rows && IsDue(w.sh.rows[j], w.servers[p].board, now) {
      DueIsEligible(w.sh.rows, w.servers[p].board, now, j);
      assert |all| >= |{j}| by { CardMonotone({j}, all); }
    } else if found != [] {
      DueIsEligible(w.sh.rows, w.servers[p].board, now, found[0]);
    }
  }

  // The clock reading of the step.
  ghost predicate NothingToPick(w: World, p: Pid, now: Time)
    requires p in w.servers
  {
    || |w.servers[p].active| >= w.servers[p].maxJobs
    || forall j | j in w.sh.rows :: !IsDue(w.sh.rows[j], w.servers[p].board, now)
  }

  /** A server that goes from scheduling to idle has no room left, or nothing is due as it reads the clock. */
  lemma NothingDueIsLeft(ws: seq<World>, steps: seq<Step>, i: nat, p: Pid)
    requires Takes(ws, steps) && i < |steps| && p in ws[i].servers && p in ws[i + 1].servers
    requires ws[i].servers[p].pc.Scheduling? && ws[i + 1].servers[p].pc.Idle?
    ensures steps[i].Run? && steps[i].p == p && steps[i].a.Query? && NothingToPick(ws[i], p, steps[i].a.now)
  {
    TakesRun(ws, steps, i);
    OnlyQueriesEnd(ws[i], steps[i], p);
    QueryEnds(ws[i], p, steps[i].a.now, steps[i].a.found);
  }

  lemma OnlyQueriesEnd(w: World, s: Step, p: Pid)
    requires Possible(w, s) && p in w.servers && p in Apply(w, s).servers
    requires w.servers[p].pc.Scheduling? && Apply(w, s).servers[p].pc.Idle?
    ensures s.Run? && s.p == p && s.a.Query?
  {}
}
