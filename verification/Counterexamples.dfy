/** Concrete states in which the code does less than one may expect of it. */
module Counterexamples {
  import opened Common
  import opened Jobs
  import opened UpdateTable
  import opened Coordinator
  import opened BoardServers
  import Runner
  import opened Fleet
  import Scenarios

  /**
   The supervisor does not survive a job that still waits within its deadline: three seconds into a wait
   the tick kills the server. `BoardServers.BoardServer.SuperviseRunners` says exactly when it does.
   */
  lemma TickKillsWithinDeadline(sh: Shared, pid: Pid)
    ensures var wait := [(10, WaitForStart(100 * Second))];
      var srv := Server(1, 2, Some(7), map[10 := WaitForStart(100 * Second)], Timer(true, false, 0), Supervising(wait));
      ServerStep(sh, pid, srv, Supervise(103 * Second)) == Dies(sh, UnexpiredWait)
  {}

  const Before: Rows := map[10 := Row(1, 0, None, false, None)]
  const After: Rows := map[10 := Row(1, 0, None, true, None)]

  /**
   A job that comes in while no runner is connected is marked dispatched and kills the server before
   anything is sent; the next server to start closes the row as crashed, so the job never runs.
   */
  lemma JobWithoutRunnerIsLost(pid: Pid, stamp: Time)
    ensures Path(Shared(Before, map[], []), pid, Server(1, 2, None, map[], Timer(false, false, 0), Scheduling),
      [Query(5, [10])] + ([Register] + ([MarkDispatched] + [Send(stamp)])),
      Dies(Shared(After, map[10 := pid], []), NilRunner))
    ensures Sweep(After, 1) == map[10 := Row(1, 0, None, true, Some(ServerCrashed))]
  {
    var sh := Shared(Before, map[], []);
    var srv := Server(1, 2, None, map[], Timer(false, false, 0), Scheduling);
    OnlyEligible();
    assert WithoutActive([10], sh.jobReg) == [10] by { assert [10][1..] == []; }
    DispatchPath(sh, pid, srv, 5, stamp, [10]);
    DispatchShared(sh, pid, 10);
    assert sh.rows[10 := sh.rows[10].(dispatched := true)] == After;
    assert sh.jobReg[10 := pid] == map[10 := pid];
  }

  lemma OnlyEligible()
    ensures QueryResult(Before, Eligible(Before, 1, 5), Some(1), [10])
  {
    assert forall j :: j in Eligible(Before, 1, 5) <==> j == 10;
    assert Eligible(Before, 1, 5) == {10};
  }

  /**
   A stop lets go of the lock before it posts finished. In this run of one runner the child exits and each
   end of its output makes the streamer ask for a stop; the second of them finds the slot empty and posts
   failed first. `StopRuns.FailedBeforeFinishedExactly` says when this happens.
   */
  lemma SecondStopOvertakes() returns (f: Fleet)
    ensures Scenarios.Reached(f)
    ensures PostsOf(f, 1) == [RStarting, RStarting, RReady, RStopping, RFailed, RFinished]
  {
    Scenarios.SecondStopPostsFirst();
    f := Scenarios.Solo(Scenarios.Idled(map[]), map[1 := Scenarios.EndPosts], map[1 := 0]);
  }
}
