/** What becomes of a job once its completion has begun: the code its row ends up with, over every run. */
module Completions {
  import opened Common
  import opened Jobs
  import opened UpdateTable
  import opened Coordinator
  import opened Agreement
  import opened ServerSteps
  import opened SystemInvariant
  import CoordinatorTheorems
  import opened Fleet
  import opened Composition

  ghost predicate RowCode(w: World, j: JobId, code: Option<CompletionCode>) {
    j in w.sh.rows && w.sh.rows[j].dispatched && w.sh.rows[j].code == code
  }

  // The server has taken the job from its active ones, and its next effect writes the code.
  ghost predicate AboutToWrite(w: World, p: Pid, j: JobId, code: CompletionCode) {
    && p in w.servers && w.servers[p].pc.Completing? && j in w.servers[p].pc.jobs && w.servers[p].pc.code == code
    && RowCode(w, j, None)
  }

  // The server died first. Only the sweep of the board's next server closes the row.
  ghost predicate LeftToTheSweep(w: World, p: Pid, j: JobId) {
    && p in w.spawned && p !in w.servers
    && (RowCode(w, j, Some(ServerCrashed)) || (RowCode(w, j, None) && NextServerBoots(w, w.sh.rows[j].board)))
  }

  ghost predicate NextServerBoots(w: World, b: BoardId) {
    b in w.serverReg ==> w.serverReg[b] in w.servers && w.servers[w.serverReg[b]].pc.Booting?
  }

  /** The row has the code, is about to get it, or the server that was to write it has died. */
  ghost predicate Recorded(w: World, p: Pid, j: JobId, code: CompletionCode) {
    RowCode(w, j, Some(code)) || AboutToWrite(w, p, j, code) || LeftToTheSweep(w, p, j)
  }

  lemma CodeStays(w: World, s: Step, j: JobId, code: CompletionCode)
    requires Inv(w) && Possible(w, s) && RowCode(w, j, Some(code))
    ensures RowCode(Apply(w, s), j, Some(code))
  {
    CoordinatorTheorems.StepForward(w, s);
  }

  // A server's own effects touch only rows of its own board.
  lemma OtherBoardsStay(w: World, q: Pid, a: Action, j: JobId)
    requires Inv(w) && Possible(w, Run(q, a)) && j in w.sh.rows && w.sh.rows[j].board != w.servers[q].board
    ensures j in Apply(w, Run(q, a)).sh.rows && Apply(w, Run(q, a)).sh.rows[j] == w.sh.rows[j]
  {
    assert ServerOk(w, q);
    OwnsFromRegistries(w, q);
    StepKeeps(w.sh, q, w.servers[q], a);
  }

  lemma WriterOwnsRow(w: World, p: Pid, j: JobId, code: CompletionCode)
    requires Inv(w) && AboutToWrite(w, p, j, code)
    ensures w.sh.rows[j].board == w.servers[p].board && Live(w.servers[p])
    ensures forall q | q in w.servers && q != p && Live(w.servers[q]) :: w.servers[q].board != w.sh.rows[j].board
  {
    assert ServerOk(w, p);
    assert j in Elems(w.servers[p].pc.jobs);
    assert j in Open(w.sh.rows, w.servers[p].board);
  }

  lemma WriterRuns(w: World, q: Pid, a: Action, p: Pid, j: JobId, code: CompletionCode)
    requires Inv(w) && Possible(w, Run(q, a)) && AboutToWrite(w, p, j, code)
    ensures var w' := Apply(w, Run(q, a)); RowCode(w', j, Some(code)) || AboutToWrite(w', p, j, code)
  {
    WriterOwnsRow(w, p, j, code);
    if q != p { OtherBoardsStay(w, q, a, j); }
  }

  lemma WriterDies(w: World, p: Pid, j: JobId, code: CompletionCode)
    requires Inv(w) && AboutToWrite(w, p, j, code)
    ensures LeftToTheSweep(Apply(w, Kill(p)), p, j)
  {
    WriterOwnsRow(w, p, j, code);
    assert w.sh.rows[j].board !in Dropped(w.serverReg, p);
  }

  lemma WriterWaits(w: World, s: Step, p: Pid, j: JobId, code: CompletionCode)
    requires Inv(w) && Possible(w, s) && AboutToWrite(w, p, j, code) && !s.Run? && s != Kill(p)
    ensures AboutToWrite(Apply(w, s), p, j, code)
  {
    WriterOwnsRow(w, p, j, code);
  }

  lemma WriterSteps(w: World, s: Step, p: Pid, j: JobId, code: CompletionCode)
    requires Inv(w) && Possible(w, s) && AboutToWrite(w, p, j, code)
    ensures Recorded(Apply(w, s), p, j, code)
  {
    if s.Run? {
      WriterRuns(w, s.p, s.a, p, j, code);
    } else if s == Kill(p) {
      WriterDies(w, p, j, code);
    } else {
      WriterWaits(w, s, p, j, code);
    }
  }

  lemma SweepSteps(w: World, s: Step, p: Pid, j: JobId)
    requires Inv(w) && Possible(w, s) && LeftToTheSweep(w, p, j)
    ensures LeftToTheSweep(Apply(w, s), p, j)
  {
    if RowCode(w, j, Some(ServerCrashed)) {
      CodeStays(w, s, j, ServerCrashed);
    } else {
      OpenSteps(w, s, p, j);
    }
    assert p !in Apply(w, s).servers;
  }

  lemma OpenRuns(w: World, q: Pid, a: Action, j: JobId)
    requires Inv(w) && Possible(w, Run(q, a)) && RowCode(w, j, None) && NextServerBoots(w, w.sh.rows[j].board)
    ensures var w' := Apply(w, Run(q, a)); RowCode(w', j, None) && NextServerBoots(w', w'.sh.rows[j].board)
  {
    if w.servers[q].board != w.sh.rows[j].board { OtherBoardsStay(w, q, a, j); }
  }

  lemma OpenSteps(w: World, s: Step, p: Pid, j: JobId)
    requires Inv(w) && Possible(w, s) && RowCode(w, j, None) && NextServerBoots(w, w.sh.rows[j].board)
    ensures RowCode(Apply(w, s), j, Some(ServerCrashed))
      || (RowCode(Apply(w, s), j, None) && NextServerBoots(Apply(w, s), Apply(w, s).sh.rows[j].board))
  {
    if s.Run? { OpenRuns(w, s.p, s.a, j); } else { OpenWaits(w, s, j); }
  }

  lemma OpenWaits(w: World, s: Step, j: JobId)
    requires RegistriesOk(w) && WinnersOk(w) && Possible(w, s) && !s.Run?
    requires RowCode(w, j, None) && NextServerBoots(w, w.sh.rows[j].board)
    ensures RowCode(Apply(w, s), j, Some(ServerCrashed))
      || (RowCode(Apply(w, s), j, None) && NextServerBoots(Apply(w, s), Apply(w, s).sh.rows[j].board))
  {}

  lemma RecordedSteps(w: World, s: Step, p: Pid, j: JobId, code: CompletionCode)
    requires Inv(w) && Possible(w, s) && Recorded(w, p, j, code)
    ensures Recorded(Apply(w, s), p, j, code)
  {
    if RowCode(w, j, Some(code)) {
      CodeStays(w, s, j, code);
    } else if AboutToWrite(w, p, j, code) {
      WriterSteps(w, s, p, j, code);
    } else {
      SweepSteps(w, s, p, j);
    }
  }

  // ----- Over joint runs -----

  lemma JointRecorded(x: Joint, st: JointStep, p: Pid, j: JobId, code: CompletionCode)
    requires JointInv(x) && JointPossible(x, st) && Recorded(x.w, p, j, code)
    ensures Recorded(JointApply(x, st).w, p, j, code)
  {
    match st
    case Coordinate(s) => RecordedSteps(x.w, s, p, j, code);
    case Act(_, _) =>
    case Deliver(i, now) => if i in x.w.sh.jobReg { RecordedSteps(x.w, Deliver1(x, i, now), p, j, code); }
  }

  lemma {:induction false} RecordedFromThenOn(xs: seq<Joint>, i: nat, k: nat, p: Pid, j: JobId, code: CompletionCode)
    requires JointRun(xs) && i <= k < |xs| && Recorded(xs[i].w, p, j, code)
    ensures Recorded(xs[k].w, p, j, code)
    decreases k - i
  {
    if i < k {
      JointRunInv(xs, i);
      assert JointReaches(xs[i], xs[i + 1]);
      var st :| JointPossible(xs[i], st) && xs[i + 1] == JointApply(xs[i], st);
      JointRecorded(xs[i], st, p, j, code);
      RecordedFromThenOn(xs, i + 1, k, p, j, code);
    }
  }

  lemma ActiveIsOpen(w: World, p: Pid, j: JobId)
    requires Inv(w) && p in w.servers && j in w.servers[p].active
    ensures RowCode(w, j, None)
  {
    assert ServerOk(w, p);
    CoordinatorTheorems.CopiesAgree(w.servers[p], ViewOf(w.sh, p, w.servers[p].board)) by {
      OpenNotWaiting(w.sh.rows, w.servers[p].board);
    }
    assert j in Open(w.sh.rows, w.servers[p].board);
  }

  // ----- Where a completion begins -----

  lemma UpdateBegins(w: World, p: Pid, j: JobId, posted: RunnerState, now: Time)
    requires Inv(w) && Possible(w, Run(p, UpdateState(j, posted, now))) && j in w.servers[p].active
    ensures posted.RFinished? ==> AboutToWrite(Apply(w, Run(p, UpdateState(j, posted, now))), p, j, Finished)
    ensures posted.RFailed? ==> AboutToWrite(Apply(w, Run(p, UpdateState(j, posted, now))), p, j, Failed)
  {
    ActiveIsOpen(w, p, j);
    PopOne(w.servers[p].active, j);
  }

  lemma DownBegins(w: World, p: Pid, conn: Pid, keys: seq<JobId>, j: JobId)
    requires Inv(w) && Possible(w, Run(p, Down(conn, keys)))
    requires w.servers[p].runner == Some(conn) && j in w.servers[p].active
    ensures AboutToWrite(Apply(w, Run(p, Down(conn, keys))), p, j, Failed)
  {
    ActiveIsOpen(w, p, j);
    PopAllSucceeds(w.servers[p].active, keys);
    assert j in Elems(keys);
  }

  lemma TimeoutBegins(w: World, p: Pid, now: Time, j: JobId, since: Time)
    requires Inv(w) && Possible(w, Run(p, Supervise(now)))
    requires var rest := w.servers[p].pc.rest;
      rest != [] && rest[0] == (j, WaitForStart(since)) && since + 5_000_000 < now
    ensures AboutToWrite(Apply(w, Run(p, Supervise(now))), p, j, RunnerTimeout)
  {
    assert ServerOk(w, p);
    ActiveIsOpen(w, p, j);
    PopOne(w.servers[p].active, j);
  }

  /**
   A finished or failed post that reaches the server of an active job makes the code of that name the server's
   next effect, and ends up in the job's row: in every later state it is there, or is still about to be written,
   or the server has died and the row is closed as crashed by the next one.
   */
  lemma PostIsRecorded(xs: seq<Joint>, i: nat, k: nat, j: JobId, now: Time)
    requires JointRun(xs) && i < k < |xs| && JointPossible(xs[i], Deliver(j, now))
    requires xs[i + 1] == JointApply(xs[i], Deliver(j, now))
    requires j in xs[i].w.sh.jobReg && j in xs[i].w.servers[xs[i].w.sh.jobReg[j]].active
    ensures var posted, p := PostsOf(xs[i].f, j)[Done(xs[i], j)], xs[i].w.sh.jobReg[j];
      && (posted.RFinished? ==> AboutToWrite(xs[i + 1].w, p, j, Finished) && Recorded(xs[k].w, p, j, Finished))
      && (posted.RFailed? ==> AboutToWrite(xs[i + 1].w, p, j, Failed) && Recorded(xs[k].w, p, j, Failed))
  {
    JointRunInv(xs, i);
    var posted, p := PostsOf(xs[i].f, j)[Done(xs[i], j)], xs[i].w.sh.jobReg[j];
    UpdateBegins(xs[i].w, p, j, posted, now);
    if posted.RFinished? { RecordedFromThenOn(xs, i + 1, k, p, j, Finished); }
    if posted.RFailed? { RecordedFromThenOn(xs, i + 1, k, p, j, Failed); }
  }

  /** A server that loses the runner it monitors records every active job as failed. */
  lemma LossIsRecorded(xs: seq<Joint>, i: nat, k: nat, p: Pid, conn: Pid, keys: seq<JobId>, j: JobId)
    requires JointRun(xs) && i < k < |xs| && JointPossible(xs[i], Coordinate(Run(p, Down(conn, keys))))
    requires xs[i + 1] == JointApply(xs[i], Coordinate(Run(p, Down(conn, keys))))
    requires xs[i].w.servers[p].runner == Some(conn) && j in xs[i].w.servers[p].active
    ensures AboutToWrite(xs[i + 1].w, p, j, Failed) && Recorded(xs[k].w, p, j, Failed)
  {
    JointRunInv(xs, i);
    DownBegins(xs[i].w, p, conn, keys, j);
    RecordedFromThenOn(xs, i + 1, k, p, j, Failed);
  }

  /** A job examined by a tick more than five seconds into its wait is recorded as timed out. */
  lemma TimeoutIsRecorded(xs: seq<Joint>, i: nat, k: nat, p: Pid, now: Time, j: JobId, since: Time)
    requires JointRun(xs) && i < k < |xs| && JointPossible(xs[i], Coordinate(Run(p, Supervise(now))))
    requires xs[i + 1] == JointApply(xs[i], Coordinate(Run(p, Supervise(now))))
    requires var rest := xs[i].w.servers[p].pc.rest;
      rest != [] && rest[0] == (j, WaitForStart(since)) && since + 5_000_000 < now
    ensures AboutToWrite(xs[i + 1].w, p, j, RunnerTimeout) && Recorded(xs[k].w, p, j, RunnerTimeout)
  {
    JointRunInv(xs, i);
    TimeoutBegins(xs[i].w, p, now, j, since);
    RecordedFromThenOn(xs, i + 1, k, p, j, RunnerTimeout);
  }
}
