/** Every run of the fleet: which stops are refused, what the posts of a job then say, and who is alive. */
module StopRuns {
  import opened Common
  import opened UpdateTable
  import opened Runner
  import opened Fleet
  import opened Stops
  import RunnerProofs

  // ----- Refusals in a run -----

  // Between the two states a stop of the job, which found the slot without it, posted failed.
  ghost predicate RefusedNow(f: Fleet, f': Fleet, j: JobId) {
    exists rid, t :: StopEnds(f, f', rid, t) && f.runners[rid].tasks[t] == Stop(j, TRefuse)
  }

  ghost predicate StopEnds(f: Fleet, f': Fleet, rid: int, t: nat) {
    && rid in f.runners && rid in f'.runners
    && t in f.runners[rid].tasks && f.runners[rid].tasks[t].Stop? && t !in f'.runners[rid].tasks
    && f'.runners[rid].alive
  }

  ghost function RefusedBefore(fs: seq<Fleet>, i: nat): iset<JobId>
    requires i < |fs|
  {
    iset j | WasRefused(fs, i, j)
  }

  ghost predicate WasRefused(fs: seq<Fleet>, i: nat, j: JobId)
    requires i < |fs|
  {
    exists k: nat :: k < i && RefusedNow(fs[k], fs[k + 1], j)
  }

  // Only its own step ends a task.
  lemma EndsByItself(f: Fleet, rid: int, ev: Event, q: int, t: nat)
    requires FleetEnabled(f, rid, ev) && StopEnds(f, FleetStep(f, rid, ev), q, t)
    ensures q == rid && ev.Advance? && ev.task == t
  {}

  lemma RefusedNowExactly(f: Fleet, rid: int, ev: Event, j: JobId)
    requires FleetEnabled(f, rid, ev)
    ensures RefusedNow(f, FleetStep(f, rid, ev), j) <==> Refuses(f.runners[rid], ev, j)
  {
    var f' := FleetStep(f, rid, ev);
    if RefusedNow(f, f', j) {
      var q, t :| StopEnds(f, f', q, t) && f.runners[q].tasks[t] == Stop(j, TRefuse);
      EndsByItself(f, rid, ev, q, t);
    }
    if Refuses(f.runners[rid], ev, j) {
      assert StopEnds(f, f', rid, ev.task);
    }
  }

  lemma StepOf(fs: seq<Fleet>, i: nat) returns (rid: int, ev: Event)
    requires FleetRun(fs) && i + 1 < |fs|
    ensures FleetEnabled(fs[i], rid, ev) && fs[i + 1] == FleetStep(fs[i], rid, ev)
  {
    assert FleetReaches(fs[i], fs[i + 1]);
    rid, ev :| FleetEnabled(fs[i], rid, ev) && fs[i + 1] == FleetStep(fs[i], rid, ev);
  }

  lemma RefusedGrows(fs: seq<Fleet>, i: nat, rid: int, ev: Event)
    requires i + 1 < |fs| && FleetEnabled(fs[i], rid, ev) && fs[i + 1] == FleetStep(fs[i], rid, ev)
    ensures RefusedBefore(fs, i + 1) == RefusedAfter(fs[i], rid, ev, RefusedBefore(fs, i))
  {
    forall j ensures j in RefusedBefore(fs, i + 1) <==> j in RefusedAfter(fs[i], rid, ev, RefusedBefore(fs, i)) {
      RefusedNowExactly(fs[i], rid, ev, j);
      assert j in RefusedBefore(fs, i) <==> WasRefused(fs, i, j);
      if j in RefusedBefore(fs, i + 1) {
        assert WasRefused(fs, i + 1, j);
        var k: nat :| k < i + 1 && RefusedNow(fs[k], fs[k + 1], j);
      }
      if Refuses(fs[i].runners[rid], ev, j) { assert RefusedNow(fs[i], fs[i + 1], j); }
    }
  }

  lemma {:induction false} StopsRunOk(fs: seq<Fleet>, i: nat)
    requires FleetRun(fs) && i < |fs|
    ensures StopsOk(fs[i], RefusedBefore(fs, i))
  {
    if i > 0 {
      StopsRunOk(fs, i - 1);
      StopsStep(fs, i - 1);
    } else {
      StopsAtFirst(fs[0], RefusedBefore(fs, 0));
    }
  }

  lemma StopsAtFirst(f: Fleet, refused: iset<JobId>)
    requires FleetInitial(f) && refused == iset{}
    ensures StopsOk(f, refused)
  {}

  lemma StopsStep(fs: seq<Fleet>, i: nat)
    requires FleetRun(fs) && i + 1 < |fs| && StopsOk(fs[i], RefusedBefore(fs, i))
    ensures StopsOk(fs[i + 1], RefusedBefore(fs, i + 1))
  {
    FleetRunOk(fs, i);
    var rid, ev := StepOf(fs, i);
    StopsKeep(fs[i], rid, ev, RefusedBefore(fs, i));
    RefusedGrows(fs, i, rid, ev);
  }

  // ----- Posts in a run -----

  lemma {:induction false} PostsGrow(fs: seq<Fleet>, i: nat, k: nat, j: JobId)
    requires FleetRun(fs) && i <= k < |fs|
    ensures PostsOf(fs[i], j) <= PostsOf(fs[k], j)
    decreases k - i
  {
    if i < k {
      OnePostAStep(fs, i, j);
      PostsGrow(fs, i + 1, k, j);
    }
  }

  // The step that made post n.
  lemma {:induction false} PostStep(fs: seq<Fleet>, i: nat, j: JobId, n: nat) returns (m: nat)
    requires FleetRun(fs) && i < |fs| && n < |PostsOf(fs[i], j)|
    ensures m < i && |PostsOf(fs[m], j)| == n && |PostsOf(fs[m + 1], j)| == n + 1
    ensures PostsOf(fs[i], j)[..n + 1] == PostsOf(fs[m + 1], j)
  {
    assert i > 0;
    OnePostAStep(fs, i - 1, j);
    if n < |PostsOf(fs[i - 1], j)| {
      m := PostStep(fs, i - 1, j, n);
    } else {
      m := i - 1;
    }
  }

  lemma OnePostAStep(fs: seq<Fleet>, i: nat, j: JobId)
    requires FleetRun(fs) && i + 1 < |fs|
    ensures PostsOf(fs[i], j) <= PostsOf(fs[i + 1], j)
    ensures |PostsOf(fs[i + 1], j)| <= |PostsOf(fs[i], j)| + 1
  {
    var rid, ev := StepOf(fs, i);
  }

  // ----- Failed before finished -----

  lemma FinishedPostExactly(f: Fleet, rid: int, ev: Event, refused: iset<JobId>)
    requires FleetOk(f) && StopsOk(f, refused) && FleetEnabled(f, rid, ev)
    requires Step(f.runners[rid], ev).post.Some? && Step(f.runners[rid], ev).post.value.state.RFinished?
    ensures var j := Step(f.runners[rid], ev).post.value.job; RFailed in PostsOf(f, j) <==> j in refused
  {
    var r := f.runners[rid];
    RunnerProofs.FinishedAfterRelease(r, ev);
    assert HasItem(r, r.tasks[ev.task].job);
  }

  ghost predicate RefusedBeforePost(fs: seq<Fleet>, i: nat, j: JobId, n: nat)
    requires i < |fs|
  {
    exists k: nat :: k < i && RefusedNow(fs[k], fs[k + 1], j) && |PostsOf(fs[k], j)| < n
  }

  lemma RefusalPosts(fs: seq<Fleet>, k: nat, j: JobId)
    requires FleetRun(fs) && k + 1 < |fs| && RefusedNow(fs[k], fs[k + 1], j)
    ensures PostsOf(fs[k + 1], j) == PostsOf(fs[k], j) + [RFailed]
  {
    var rid, ev := StepOf(fs, k);
    RefusedNowExactly(fs[k], rid, ev, j);
  }

  /**
   In every run, failed stands before a finished post of a job exactly when a stop of that job was refused
   and said so before: a failed start, a failed unmount or a panic never precedes finished.
   */
  lemma FailedBeforeFinishedExactly(fs: seq<Fleet>, i: nat, j: JobId, n: nat)
    requires FleetRun(fs) && i < |fs| && n < |PostsOf(fs[i], j)| && PostsOf(fs[i], j)[n] == RFinished
    ensures RFailed in PostsOf(fs[i], j)[..n] <==> RefusedBeforePost(fs, i, j, n)
  {
    var m := PostStep(fs, i, j, n);
    var rid, ev := FinishedStep(fs, i, j, n, m);
    StopsRunOk(fs, m);
    FleetRunOk(fs, m);
    FinishedPostExactly(fs[m], rid, ev, RefusedBefore(fs, m));
    RefusedBeforeEither(fs, i, j, n, m);
  }

  // Refused before the step that makes post n, or before post n: the same.
  lemma RefusedBeforeEither(fs: seq<Fleet>, i: nat, j: JobId, n: nat, m: nat)
    requires FleetRun(fs) && m < i < |fs| && |PostsOf(fs[m], j)| == n && |PostsOf(fs[m + 1], j)| == n + 1
    ensures j in RefusedBefore(fs, m) <==> RefusedBeforePost(fs, i, j, n)
  {
    if j in RefusedBefore(fs, m) {
      RefusedIsBeforePost(fs, i, j, n, m);
    }
    if RefusedBeforePost(fs, i, j, n) {
      var k: nat :| k < i && RefusedNow(fs[k], fs[k + 1], j) && |PostsOf(fs[k], j)| < n;
      if k >= m { PostsGrow(fs, m, k, j); }
      assert WasRefused(fs, m, j);
    }
  }

  lemma RefusedIsBeforePost(fs: seq<Fleet>, i: nat, j: JobId, n: nat, m: nat)
    requires FleetRun(fs) && m < i < |fs| && |PostsOf(fs[m], j)| == n && j in RefusedBefore(fs, m)
    ensures RefusedBeforePost(fs, i, j, n)
  {
    assert WasRefused(fs, m, j);
    var k: nat :| k < m && RefusedNow(fs[k], fs[k + 1], j);
    RefusalComesBefore(fs, k, m, j);
  }

  lemma RefusalComesBefore(fs: seq<Fleet>, k: nat, m: nat, j: JobId)
    requires FleetRun(fs) && k < m < |fs| && RefusedNow(fs[k], fs[k + 1], j)
    ensures |PostsOf(fs[k], j)| < |PostsOf(fs[m], j)|
  {
    RefusalPosts(fs, k, j);
    PostsGrow(fs, k + 1, m, j);
  }

  lemma FinishedStep(fs: seq<Fleet>, i: nat, j: JobId, n: nat, m: nat) returns (rid: int, ev: Event)
    requires FleetRun(fs) && i < |fs| && m < i && n < |PostsOf(fs[i], j)| && PostsOf(fs[i], j)[n] == RFinished
    requires |PostsOf(fs[m], j)| == n && PostsOf(fs[i], j)[..n + 1] == PostsOf(fs[m + 1], j)
    ensures FleetEnabled(fs[m], rid, ev) && fs[m + 1] == FleetStep(fs[m], rid, ev)
    ensures Step(fs[m].runners[rid], ev).post == Some(Post(j, RFinished))
    ensures PostsOf(fs[i], j)[..n] == PostsOf(fs[m], j)
  {
    rid, ev := StepOf(fs, m);
    var posts := PostsOf(fs[i], j);
    assert posts[..n + 1][n] == posts[n];
    assert posts[..n] == posts[..n + 1][..n];
  }

  // ----- With one stop -----

  ghost predicate StopIn(fs: seq<Fleet>, k: nat, rid: int, t: nat, j: JobId) {
    && k < |fs| && rid in fs[k].runners && t in fs[k].runners[rid].tasks
    && fs[k].runners[rid].tasks[t].Stop? && fs[k].runners[rid].tasks[t].job == j
  }

  // The run has one stop of the job, wherever it came from.
  ghost predicate OneStop(fs: seq<Fleet>, j: JobId) {
    forall k, rid, t, l, q, u | StopIn(fs, k, rid, t, j) && StopIn(fs, l, q, u, j) :: rid == q && t == u
  }

  lemma {:induction false} GoneForGood(fs: seq<Fleet>, i: nat, k: nat, rid: int, t: nat)
    requires FleetRun(fs) && i <= k < |fs| && rid in fs[i].runners
    requires t < fs[i].runners[rid].nextTask && t !in fs[i].runners[rid].tasks
    ensures rid in fs[k].runners && t < fs[k].runners[rid].nextTask && t !in fs[k].runners[rid].tasks
    decreases k - i
  {
    if i < k {
      var q, ev := StepOf(fs, i);
      StaysGone(fs[i], q, ev, rid, t);
      GoneForGood(fs, i + 1, k, rid, t);
    }
  }

  lemma StaysGone(f: Fleet, q: int, ev: Event, rid: int, t: nat)
    requires FleetEnabled(f, q, ev) && rid in f.runners && t < f.runners[rid].nextTask && t !in f.runners[rid].tasks
    ensures rid in FleetStep(f, q, ev).runners
    ensures t < FleetStep(f, q, ev).runners[rid].nextTask && t !in FleetStep(f, q, ev).runners[rid].tasks
  {}

  lemma TaskIsOld(f: Fleet, rid: int, ev: Event, t: nat)
    requires FleetOk(f) && FleetEnabled(f, rid, ev) && StopEnds(f, FleetStep(f, rid, ev), rid, t)
    ensures t < FleetStep(f, rid, ev).runners[rid].nextTask
  {
    NumbersGrow(f.runners[rid], ev);
  }

  lemma NumbersGrow(r: Runner, ev: Event)
    requires Enabled(r, ev)
    ensures r.nextTask <= Step(r, ev).r.nextTask
  {}

  /** With a single stop of the job, its posts have no failed before finished. */
  lemma SingleStopFinishesFirst(fs: seq<Fleet>, i: nat, j: JobId, n: nat)
    requires FleetRun(fs) && i < |fs| && n < |PostsOf(fs[i], j)| && PostsOf(fs[i], j)[n] == RFinished
    requires OneStop(fs, j)
    ensures RFailed !in PostsOf(fs[i], j)[..n]
  {
    FailedBeforeFinishedExactly(fs, i, j, n);
    if RefusedBeforePost(fs, i, j, n) {
      var m := PostStep(fs, i, j, n);
      var rid, ev := FinishedStep(fs, i, j, n, m);
      var k: nat :| k < i && RefusedNow(fs[k], fs[k + 1], j) && |PostsOf(fs[k], j)| < n;
      if k >= m { PostsGrow(fs, m, k, j); }
      FinishedByStop(fs, m, rid, ev, j);
      RefusedIsAnother(fs, k, m, rid, ev.task, j);
      assert false;
    }
  }

  lemma FinishedByStop(fs: seq<Fleet>, m: nat, rid: int, ev: Event, j: JobId)
    requires FleetRun(fs) && m < |fs| && FleetEnabled(fs[m], rid, ev)
    requires Step(fs[m].runners[rid], ev).post == Some(Post(j, RFinished))
    ensures ev.Advance? && StopIn(fs, m, rid, ev.task, j)
  {
    FleetRunOk(fs, m);
    RunnerProofs.FinishedAfterRelease(fs[m].runners[rid], ev);
  }

  lemma RefusedIsAnother(fs: seq<Fleet>, k: nat, m: nat, rid: int, t: nat, j: JobId)
    requires FleetRun(fs) && k < m < |fs| && RefusedNow(fs[k], fs[k + 1], j) && StopIn(fs, m, rid, t, j)
    ensures !OneStop(fs, j)
  {
    var q, u :| StopEnds(fs[k], fs[k + 1], q, u) && fs[k].runners[q].tasks[u] == Stop(j, TRefuse);
    var p, ev := StepOf(fs, k);
    EndsByItself(fs[k], p, ev, q, u);
    FleetRunOk(fs, k);
    TaskIsOld(fs[k], p, ev, u);
    GoneForGood(fs, k + 1, m, q, u);
    assert StopIn(fs, k, q, u, j);
  }

  // ----- Containers -----

  ghost predicate NoneOrphaned(f: Fleet) {
    forall rid | rid in f.runners :: SelfStopsOk(f.runners[rid])
  }

  lemma {:induction false} NoOrphans(fs: seq<Fleet>, i: nat)
    requires FleetRun(fs) && i < |fs|
    ensures NoneOrphaned(fs[i])
  {
    if i > 0 {
      NoOrphans(fs, i - 1);
      NoOrphansStep(fs, i - 1);
    } else {
      NoneAtFirst(fs[0]);
    }
  }

  lemma NoneAtFirst(f: Fleet)
    requires FleetInitial(f)
    ensures NoneOrphaned(f)
  {}

  lemma NoOrphansStep(fs: seq<Fleet>, i: nat)
    requires FleetRun(fs) && i + 1 < |fs|
    requires NoneOrphaned(fs[i])
    ensures NoneOrphaned(fs[i + 1])
  {
    FleetRunOk(fs, i);
    StopsRunOk(fs, i);
    var rid, ev := StepOf(fs, i);
    SelfStopsKeep(fs[i].runners[rid], rid, ev, fs[i].home);
  }

  /** At most one container: in every reachable state at most one child of a runner process is alive. */
  lemma OneContainer(fs: seq<Fleet>, i: nat, rid: int, d: nat, e: nat)
    requires FleetRun(fs) && i < |fs| && rid in fs[i].runners
    requires d < |fs[i].runners[rid].envs| && e < |fs[i].runners[rid].envs|
    requires fs[i].runners[rid].envs[d].childAlive && fs[i].runners[rid].envs[e].childAlive
    ensures d == e
  {
    OneContainerPerRunner(fs, i, rid, d, e);
    NoOrphans(fs, i);
  }

  /** A job has at most one environment, whatever the number of runners. */
  lemma OneEnvironmentPerJob(fs: seq<Fleet>, i: nat, p: int, d: nat, q: int, e: nat)
    requires FleetRun(fs) && i < |fs| && p in fs[i].runners && q in fs[i].runners
    requires d < |fs[i].runners[p].envs| && e < |fs[i].runners[q].envs|
    requires fs[i].runners[p].envs[d].job == fs[i].runners[q].envs[e].job
    ensures p == q && d == e
  {
    StopsRunOk(fs, i);
  }
}
