/** The loop in which a stop shuts its proxies down, one after the other. */
module ProxyTeardown {
  import opened Common
  import opened Proxy
  import Runner

  // How the loop ends: a panic ends it, an error is only logged.
  function LoopEnds(ends: seq<Ending>): Runner.How {
    if ends == [] then Runner.Fine
    else if ends[0].EndedPanic? then Runner.Panics
    else
      match LoopEnds(ends[1..])
      case Fine => if ends[0].EndedErr? then Runner.Errs else Runner.Fine
      case Errs => Runner.Errs
      case Panics => Runner.Panics
  }

  lemma {:induction false} LoopEndsExactly(ends: seq<Ending>)
    ensures LoopEnds(ends).Fine? <==> forall k | 0 <= k < |ends| :: ends[k].EndedOk?
    ensures LoopEnds(ends).Panics? <==> exists k :: 0 <= k < |ends| && ends[k].EndedPanic?
  {
    if ends != [] {
      LoopEndsExactly(ends[1..]);
      assert forall k | 0 < k < |ends| :: ends[k] == ends[1..][k - 1];
      assert forall k | 0 <= k < |ends| - 1 :: ends[1..][k] == ends[k + 1];
    }
  }

  function Last(ss: seq<State>): State {
    if ss == [] then Start(true) else ss[|ss| - 1]
  }

  // The run of one proxy, up to the return of its shutdown.
  ghost predicate Shut(ss: seq<State>, how: Ending) {
    IsRun(ss) && Last(ss).shutdown == Returned(how)
  }

  // The listener is over, and every task it ever spawned has ended.
  ghost predicate Down(s: State) {
    && s.listener.ListenerEnded? && s.connections == {}
    && forall id: nat | id < |s.conns| :: s.conns[id].pc.ConnEnded?
  }

  lemma ShutIsDown(ss: seq<State>, how: Ending)
    requires Shut(ss, how) && !how.EndedPanic?
    ensures Down(Last(ss))
  {
    var k := |ss| - 1;
    RunKeeps(ss, k);
    ShutdownOutcome(ss, k);
    if how.EndedOk? { ShutdownIsComplete(ss, k, k); }
  }

  /** Unless the loop panics, every proxy is down after it, whether its shutdown returned Ok or an error. */
  lemma LoopLeaves(runs: seq<seq<State>>, ends: seq<Ending>)
    requires |runs| == |ends| && forall k | 0 <= k < |runs| :: Shut(runs[k], ends[k])
    ensures !LoopEnds(ends).Panics? ==> forall k | 0 <= k < |runs| :: Down(Last(runs[k]))
  {
    LoopEndsExactly(ends);
    forall k | 0 <= k < |runs| && !ends[k].EndedPanic? ensures Down(Last(runs[k])) {
      ShutIsDown(runs[k], ends[k]);
    }
  }

  // Where shutdown does return an error: it is called before the listener fails to build its request.
  lemma ShutdownMayErr() returns (ss: seq<State>)
    ensures Shut(ss, EndedErr) && Down(Last(ss)) && Last(ss).conns == []
  {
    ss := [Start(false)];
    ss := PathExtends(ss, CallShutdown);
    ss := PathExtends(ss, Connect);
    ss := PathExtends(ss, JoinListener);
    ShutIsDown(ss, EndedErr);
  }
}
