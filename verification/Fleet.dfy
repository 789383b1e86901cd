/** Any number of runners, and what they post for each job. */
module Fleet {
  import opened Common
  import opened UpdateTable
  import opened Runner
  import RunnerProofs

  // `home`: the runner that received the start message of a job. `posts`: per job, in the order posted.
  datatype Fleet = Fleet(runners: map<int, Runner>, posts: map<JobId, seq<RunnerState>>, home: map<JobId, int>)

  function PostsOf(f: Fleet, j: JobId): seq<RunnerState> {
    if j in f.posts then f.posts[j] else []
  }

  predicate FleetEnabled(f: Fleet, rid: int, ev: Event) {
    && rid in f.runners && Enabled(f.runners[rid], ev)
    && (ev.RecvStart? ==> ev.job !in f.home)
  }

  function FleetStep(f: Fleet, rid: int, ev: Event): Fleet
    requires FleetEnabled(f, rid, ev)
  {
    var eff := Step(f.runners[rid], ev);
    Fleet(
      f.runners[rid := eff.r],
      if eff.post.Some? then f.posts[eff.post.value.job := PostsOf(f, eff.post.value.job) + [eff.post.value.state]]
        else f.posts,
      if ev.RecvStart? then f.home[ev.job := rid] else f.home)
  }

  // ----- Where the table stands while a start_job task is at work -----

  predicate StartPhaseOk(spc: StartPc, p: Phase) {
    p.PRemoved? || (if spc.SStore? then p.PReady? else p.PWait? || p.PStarting?)
  }

  // `phase(j)`: where the table stands after everything posted for job j.
  ghost predicate JobsOk(r: Runner, rid: int, home: map<JobId, int>, phase: JobId -> Phase) {
    && (forall t | t in r.tasks && r.tasks[t].Start? ::
      && r.tasks[t].job in home && home[r.tasks[t].job] == rid
      && StartPhaseOk(r.tasks[t].spc, phase(r.tasks[t].job)))
    && (forall t, u |
      && t in r.tasks && u in r.tasks && t != u
      && r.tasks[t].Start? && (r.tasks[u].Start? || CarriedBy(r.tasks[u]).Some?) ::
      r.tasks[t].job != r.tasks[u].job)
    && (forall u | u in r.tasks && CarriedBy(r.tasks[u]).Some? :: r.tasks[u].job in home && home[r.tasks[u].job] == rid)
    && (r.slot.Some? ==>
      && r.slot.value.job in home && home[r.slot.value.job] == rid
      && forall t | t in r.tasks && r.tasks[t].Start? :: r.tasks[t].job != r.slot.value.job)
  }

  ghost function PhasesOf(f: Fleet): JobId -> Phase {
    j => PhaseAfter(PostsOf(f, j))
  }

  ghost predicate PhasesOk(home: map<JobId, int>, phase: JobId -> Phase) {
    forall j :: phase(j) != PStuck && (j !in home ==> phase(j).PWait? || phase(j).PRemoved?)
  }

  ghost predicate FleetOk(f: Fleet) {
    && (forall rid | rid in f.runners ::
      RunnerProofs.RunnerOk(f.runners[rid]) && JobsOk(f.runners[rid], rid, f.home, PhasesOf(f)))
    && PhasesOk(f.home, PhasesOf(f))
  }

  // The phase function after runner `r` takes a step.
  ghost predicate PhaseMoves(eff: Effect, phase: JobId -> Phase, phase': JobId -> Phase) {
    forall j :: phase'(j) ==
      if eff.post.Some? && eff.post.value.job == j then PhaseStep(phase(j), eff.post.value.state) else phase(j)
  }

  lemma StepPhases(f: Fleet, rid: int, ev: Event)
    requires FleetEnabled(f, rid, ev)
    ensures PhaseMoves(Step(f.runners[rid], ev), PhasesOf(f), PhasesOf(FleetStep(f, rid, ev)))
  {
    var eff := Step(f.runners[rid], ev);
    if eff.post.Some? {
      PhaseAfterAppend(PostsOf(f, eff.post.value.job), eff.post.value.state);
    }
  }

  /**
   What a runner may post: `failed` for any job, the rest only for jobs it was told to start; never a
   missing clause.
   */
  lemma PostAllowed(r: Runner, rid: int, ev: Event, home: map<JobId, int>, phase: JobId -> Phase)
    requires RunnerProofs.CarriersOk(r) && JobsOk(r, rid, home, phase) && PhasesOk(home, phase) && Enabled(r, ev)
    requires Step(r, ev).post.Some?
    ensures var p := Step(r, ev).post.value;
      && PhaseStep(phase(p.job), p.state) != PStuck
      && (p.state.RFailed? || (p.job in home && home[p.job] == rid))
      && (p.state.RFailed? ==> PhaseStep(phase(p.job), p.state).PRemoved?)
  {}

  /** Task `t` of a runner moves, within its job; nothing else about the runner's jobs changes. */
  lemma MoveJobs(r: Runner, r': Runner, rid: int, t: nat, home: map<JobId, int>, phase: JobId -> Phase,
      phase': JobId -> Phase)
    requires JobsOk(r, rid, home, phase) && t in r.tasks
    requires r'.tasks == if t in r'.tasks then r.tasks[t := r'.tasks[t]] else r.tasks - {t}
    requires t in r'.tasks ==>
      && r'.tasks[t].job == r.tasks[t].job && (r'.tasks[t].Start? <==> r.tasks[t].Start?)
      && (r'.tasks[t].Start? ==> StartPhaseOk(r'.tasks[t].spc, phase'(r.tasks[t].job)))
      && (r'.tasks[t].Stop? && CarriedBy(r'.tasks[t]).Some? ==>
        CarriedBy(r.tasks[t]).Some? || (r.slot.Some? && r.slot.value.job == r.tasks[t].job))
    requires r'.slot.None? || r'.slot == r.slot
      || (r.tasks[t].Start? && t !in r'.tasks && r'.slot.value.job == r.tasks[t].job)
    requires forall j :: (phase'(j) == phase(j) || phase'(j).PRemoved?
      || (j == r.tasks[t].job && (r.tasks[t].Start? || CarriedBy(r.tasks[t]).Some?)))
    ensures JobsOk(r', rid, home, phase')
  {}

  lemma StartMove(r: Runner, t: nat, how: How, p: Phase)
    requires Enabled(r, Advance(t, how)) && r.tasks[t].Start? && StartPhaseOk(r.tasks[t].spc, p)
    requires Step(r, Advance(t, how)).r.alive
    ensures var eff := Step(r, Advance(t, how));
      && eff.r.tasks == (if t in eff.r.tasks then r.tasks[t := eff.r.tasks[t]] else r.tasks - {t})
      && (t in eff.r.tasks ==>
        && eff.r.tasks[t].job == r.tasks[t].job && eff.r.tasks[t].Start?
        && StartPhaseOk(eff.r.tasks[t].spc, if eff.post.Some? then PhaseStep(p, eff.post.value.state) else p))
      && (eff.r.slot == r.slot || (t !in eff.r.tasks && eff.r.slot.Some? && eff.r.slot.value.job == r.tasks[t].job))
      && (eff.post.Some? ==> eff.post.value.job == r.tasks[t].job)
  {}

  lemma StopMove(r: Runner, t: nat, how: How)
    requires Enabled(r, Advance(t, how)) && r.tasks[t].Stop? && Step(r, Advance(t, how)).r.alive
    ensures var eff := Step(r, Advance(t, how));
      && eff.r.tasks == (if t in eff.r.tasks then r.tasks[t := eff.r.tasks[t]] else r.tasks - {t})
      && (t in eff.r.tasks ==>
        && eff.r.tasks[t].job == r.tasks[t].job && eff.r.tasks[t].Stop?
        && (CarriedBy(eff.r.tasks[t]).Some? ==>
          CarriedBy(r.tasks[t]).Some? || (r.slot.Some? && r.slot.value.job == r.tasks[t].job)))
      && (eff.r.slot.None? || eff.r.slot == r.slot)
      && (eff.post.Some? ==> eff.post.value.job == r.tasks[t].job)
      && (eff.post.Some? && !eff.post.value.state.RFailed? ==> CarriedBy(r.tasks[t]).Some?)
  {
    StopTasks(r, t, r.tasks[t].job, r.tasks[t].tpc, how);
    StopPosts(r, t, r.tasks[t].job, r.tasks[t].tpc, how);
  }

  lemma StopTasks(r: Runner, t: nat, job: JobId, tpc: StopPc, how: How)
    requires t in r.tasks && r.tasks[t] == Stop(job, tpc)
    requires CarriedBy(Stop(job, tpc)).Some? ==> CarriedBy(Stop(job, tpc)).value < |r.envs|
    ensures var r' := AdvanceStop(r, t, job, tpc, how).r;
      r'.alive ==>
        && r'.tasks == (if t in r'.tasks then r.tasks[t := r'.tasks[t]] else r.tasks - {t})
        && (t in r'.tasks ==>
          && r'.tasks[t].job == job && r'.tasks[t].Stop?
          && (CarriedBy(r'.tasks[t]).Some? ==>
            CarriedBy(r.tasks[t]).Some? || (r.slot.Some? && r.slot.value.job == job)))
        && (r'.slot.None? || r'.slot == r.slot)
  {
    assert r.tasks[t := r.tasks[t]] == r.tasks;
  }

  lemma StopPosts(r: Runner, t: nat, job: JobId, tpc: StopPc, how: How)
    requires CarriedBy(Stop(job, tpc)).Some? ==> CarriedBy(Stop(job, tpc)).value < |r.envs|
    ensures var post := AdvanceStop(r, t, job, tpc, how).post;
      post.Some? ==> post.value.job == job && (!post.value.state.RFailed? ==> CarriedBy(Stop(job, tpc)).Some?)
  {}

  lemma AdvanceJobs(r: Runner, rid: int, t: nat, how: How, home: map<JobId, int>, phase: JobId -> Phase,
      phase': JobId -> Phase)
    requires JobsOk(r, rid, home, phase) && PhasesOk(home, phase) && Enabled(r, Advance(t, how))
    requires PhaseMoves(Step(r, Advance(t, how)), phase, phase')
    ensures JobsOk(Step(r, Advance(t, how)).r, rid, home, phase')
  {
    var eff := Step(r, Advance(t, how));
    if !eff.r.alive {
      DeadIsDead(r, t, how);
    } else {
      if r.tasks[t].Start? {
        StartMove(r, t, how, phase(r.tasks[t].job));
      } else {
        StopMove(r, t, how);
      }
      MoveJobs(r, eff.r, rid, t, home, phase, phase');
    }
  }

  lemma DeadIsDead(r: Runner, t: nat, how: How)
    requires Enabled(r, Advance(t, how)) && !Step(r, Advance(t, how)).r.alive
    ensures Step(r, Advance(t, how)) == Effect(Die(r), None)
  {}

  lemma AddJobs(r: Runner, rid: int, task: Task, handling: Option<nat>, home: map<JobId, int>,
      phase: JobId -> Phase)
    requires RunnerProofs.LockOk(r) && JobsOk(r, rid, home, phase) && CarriedBy(task).None?
    requires task.Start? ==> task.job !in home && StartPhaseOk(task.spc, phase(task.job))
    ensures JobsOk(AddTask(r, task).(handling := handling), rid,
      if task.Start? then home[task.job := rid] else home, phase)
  {}

  lemma OtherEventJobs(r: Runner, rid: int, ev: Event, home: map<JobId, int>, phase: JobId -> Phase)
    requires RunnerProofs.LockOk(r) && JobsOk(r, rid, home, phase) && PhasesOk(home, phase) && Enabled(r, ev)
    requires !ev.Advance?
    requires ev.RecvStart? ==> ev.job !in home
    ensures JobsOk(Step(r, ev).r, rid, if ev.RecvStart? then home[ev.job := rid] else home, phase)
  {
    match ev
    case RecvStart(job) => AddJobs(r, rid, Start(job, SLock), Some(r.nextTask), home, phase);
    case RecvStop(job) => AddJobs(r, rid, Stop(job, TLock), Some(r.nextTask), home, phase);
    case StreamerEof(e, stdout) =>
      var s := if stdout then r.envs[e].streamer.(outClosed := true) else r.envs[e].streamer.(errClosed := true);
      AddJobs(SetEnv(r, e, r.envs[e].(streamer := s)), rid, Stop(r.envs[e].job, TLock), r.handling, home, phase);
    case _ =>
  }

  // A runner that takes no step: the others' starts and posts leave it in order.
  lemma BystanderJobs(q: Runner, qid: int, home: map<JobId, int>, home': map<JobId, int>, phase: JobId -> Phase,
      phase': JobId -> Phase)
    requires JobsOk(q, qid, home, phase)
    requires forall j | j in home :: j in home' && home'[j] == home[j]
    requires forall j | j in home && home[j] == qid :: phase'(j) == phase(j) || phase'(j).PRemoved?
    ensures JobsOk(q, qid, home', phase')
  {}

  lemma MoverJobs(f: Fleet, rid: int, ev: Event)
    requires FleetOk(f) && FleetEnabled(f, rid, ev)
    ensures JobsOk(Step(f.runners[rid], ev).r, rid, FleetStep(f, rid, ev).home, PhasesOf(FleetStep(f, rid, ev)))
  {
    var f', r := FleetStep(f, rid, ev), f.runners[rid];
    var phase, phase' := PhasesOf(f), PhasesOf(f');
    StepPhases(f, rid, ev);
    if ev.Advance? {
      AdvanceJobs(r, rid, ev.task, ev.how, f.home, phase, phase');
    } else {
      OtherEventJobs(r, rid, ev, f.home, phase);
      BystanderJobs(Step(r, ev).r, rid, f'.home, f'.home, phase, phase');
    }
  }

  lemma OthersJobs(f: Fleet, rid: int, ev: Event, q: int)
    requires FleetOk(f) && FleetEnabled(f, rid, ev) && q in f.runners && q != rid
    ensures JobsOk(f.runners[q], q, FleetStep(f, rid, ev).home, PhasesOf(FleetStep(f, rid, ev)))
  {
    StepPhases(f, rid, ev);
    if Step(f.runners[rid], ev).post.Some? { PostAllowed(f.runners[rid], rid, ev, f.home, PhasesOf(f)); }
    BystanderJobs(f.runners[q], q, f.home, FleetStep(f, rid, ev).home, PhasesOf(f), PhasesOf(FleetStep(f, rid, ev)));
  }

  lemma PhasesKeep(f: Fleet, rid: int, ev: Event)
    requires FleetOk(f) && FleetEnabled(f, rid, ev)
    ensures PhasesOk(FleetStep(f, rid, ev).home, PhasesOf(FleetStep(f, rid, ev)))
  {
    StepPhases(f, rid, ev);
    var eff := Step(f.runners[rid], ev);
    if eff.post.Some? { PostAllowed(f.runners[rid], rid, ev, f.home, PhasesOf(f)); }
    PhasesMoveOk(eff, f.home, FleetStep(f, rid, ev).home, PhasesOf(f), PhasesOf(FleetStep(f, rid, ev)));
  }

  lemma PhasesMoveOk(eff: Effect, home: map<JobId, int>, home': map<JobId, int>, phase: JobId -> Phase,
      phase': JobId -> Phase)
    requires PhasesOk(home, phase) && PhaseMoves(eff, phase, phase') && home.Keys <= home'.Keys
    requires eff.post.Some? ==>
      var p := eff.post.value;
      && PhaseStep(phase(p.job), p.state) != PStuck
      && (p.job in home || PhaseStep(phase(p.job), p.state).PRemoved?)
    ensures PhasesOk(home', phase')
  {}

  lemma FleetKeeps(f: Fleet, rid: int, ev: Event)
    requires FleetOk(f) && FleetEnabled(f, rid, ev)
    ensures FleetOk(FleetStep(f, rid, ev))
  {
    MoverJobs(f, rid, ev);
    PhasesKeep(f, rid, ev);
    RunnerProofs.StepKeeps(f.runners[rid], ev);
    forall q | q in f.runners && q != rid
      ensures JobsOk(f.runners[q], q, FleetStep(f, rid, ev).home, PhasesOf(FleetStep(f, rid, ev)))
    {
      OthersJobs(f, rid, ev, q);
    }
  }

  /** Stuck stays stuck: if a whole trace is accepted, so is every prefix. */
  lemma PrefixesAccepted(posts: seq<RunnerState>, n: nat)
    requires n <= |posts| && PhaseAfter(posts) != PStuck
    ensures PhaseAfter(posts[..n]) != PStuck
  {
    PhaseForwardOnly(posts, n);
  }

  // ----- Whole runs -----

  ghost predicate FleetInitial(f: Fleet) {
    f.posts == map[] && f.home == map[] && forall rid | rid in f.runners :: f.runners[rid] == Idle(f.runners[rid].kind)
  }

  ghost predicate FleetReaches(f: Fleet, f': Fleet) {
    exists rid, ev :: FleetEnabled(f, rid, ev) && f' == FleetStep(f, rid, ev)
  }

  ghost predicate FleetRun(fs: seq<Fleet>) {
    && fs != [] && FleetInitial(fs[0])
    && forall i | 0 <= i < |fs| - 1 :: FleetReaches(fs[i], fs[i + 1])
  }

  lemma FleetInitialOk(f: Fleet)
    requires FleetInitial(f)
    ensures FleetOk(f)
  {}

  lemma {:induction false} FleetRunOk(fs: seq<Fleet>, i: nat)
    requires FleetRun(fs) && i < |fs|
    ensures FleetOk(fs[i])
    decreases i
  {
    if i == 0 {
      FleetInitialOk(fs[0]);
    } else {
      FleetRunOk(fs, i - 1);
      assert FleetReaches(fs[i - 1], fs[i - 1 + 1]);
      var rid, ev :| FleetEnabled(fs[i - 1], rid, ev) && fs[i] == FleetStep(fs[i - 1], rid, ev);
      FleetKeeps(fs[i - 1], rid, ev);
    }
  }

  /**
   For every interleaving of starts (at most one per job), stops, exits and failures on any number of
   runners of both kinds, whatever part of a job's posts has been delivered, the table has a clause for it.
   */
  lemma PostsAlwaysAccepted(fs: seq<Fleet>, i: nat, j: JobId, n: nat)
    requires FleetRun(fs) && i < |fs| && n <= |PostsOf(fs[i], j)|
    ensures PhaseAfter(PostsOf(fs[i], j)[..n]) != PStuck
  {
    FleetRunOk(fs, i);
    assert PhasesOf(fs[i])(j) != PStuck;
    PrefixesAccepted(PostsOf(fs[i], j), n);
  }

  /** In every reachable state, of two live children of a runner one was orphaned by a stop that panicked. */
  lemma OneContainerPerRunner(fs: seq<Fleet>, i: nat, rid: int, d: nat, e: nat)
    requires FleetRun(fs) && i < |fs| && rid in fs[i].runners
    requires d < |fs[i].runners[rid].envs| && e < |fs[i].runners[rid].envs|
    requires fs[i].runners[rid].envs[d].childAlive && fs[i].runners[rid].envs[e].childAlive
    ensures d == e || fs[i].runners[rid].envs[d].orphan || fs[i].runners[rid].envs[e].orphan
  {
    FleetRunOk(fs, i);
    if !fs[i].runners[rid].envs[d].orphan && !fs[i].runners[rid].envs[e].orphan {
      RunnerProofs.AtMostOneChild(fs[i].runners[rid], d, e);
    }
  }

  /**
   Over any run, `finished` is posted only by the one stop that took the job, once child, socket, streamer,
   proxies and mount are gone; only under netboot without a console the proxies are still up.
   */
  lemma FinishedComesLast(fs: seq<Fleet>, i: nat, rid: int, ev: Event)
    requires FleetRun(fs) && i < |fs| && FleetEnabled(fs[i], rid, ev)
    requires Step(fs[i].runners[rid], ev).post.Some? && Step(fs[i].runners[rid], ev).post.value.state.RFinished?
    ensures var r := fs[i].runners[rid];
      exists e: nat :: e < |r.envs| && r.envs[e].job == Step(r, ev).post.value.job
        && r.envs[e].taken == 1 && RunnerProofs.ReleasedBy(r.kind, r.envs[e])
  {
    FleetRunOk(fs, i);
    RunnerProofs.FinishedAfterRelease(fs[i].runners[rid], ev);
  }

  /** In any run the parts of an environment are let go in order, and never come back. */
  lemma ReleasesInOrder(fs: seq<Fleet>, i: nat, rid: int, ev: Event, e: nat)
    requires FleetRun(fs) && i < |fs| && FleetEnabled(fs[i], rid, ev) && e < |fs[i].runners[rid].envs|
    ensures e < |Step(fs[i].runners[rid], ev).r.envs|
    ensures RunnerProofs.InOrder(fs[i].runners[rid].envs[e], Step(fs[i].runners[rid], ev).r.envs[e])
  {
    FleetRunOk(fs, i);
    RunnerProofs.ReleaseInOrder(fs[i].runners[rid], ev, e);
  }

  /** In any run a job is torn down, and its streamer commanded, at most once. */
  lemma TornDownOnce(fs: seq<Fleet>, i: nat, rid: int, e: nat)
    requires FleetRun(fs) && i < |fs| && rid in fs[i].runners && e < |fs[i].runners[rid].envs|
    ensures fs[i].runners[rid].envs[e].taken <= 1 && fs[i].runners[rid].envs[e].shutdowns <= 1
  {
    FleetRunOk(fs, i);
    RunnerProofs.AtMostOneTeardown(fs[i].runners[rid], e);
  }

  /**
   A stop that joins the streamer, in any run and however its runner goes on: the streamer of a dead child
   takes a bounded number of steps meanwhile, and when it has none left the join can complete.
   */
  lemma JoinCompletes(fs: seq<Fleet>, i: nat, rid: int, rs: seq<Runner>, evs: seq<Event>, t: nat, k: nat, how: How)
    requires FleetRun(fs) && i < |fs| && rid in fs[i].runners
    requires RunnerProofs.Runs(rs, evs) && rs[0] == fs[i].runners[rid] && k <= |evs|
    requires t in rs[0].tasks && rs[0].tasks[t].Stop? && rs[0].tasks[t].tpc.TJoinStreamer?
    requires t in rs[k].tasks && rs[k].tasks[t] == rs[0].tasks[t]
    ensures var e := rs[0].tasks[t].tpc.env;
      && e < |rs[0].envs|
      && (rs[0].kind.Nspawn? ==>
        RunnerProofs.StreamerSteps(evs[..k], e) <= RunnerProofs.StreamerMeasure(rs[0].envs[e]))
      && ((forall ev | RunnerProofs.StreamerEvent(ev, e) :: !Enabled(rs[k], ev)) ==> Enabled(rs[k], Advance(t, how)))
  {
    var e := rs[0].tasks[t].tpc.env;
    FleetRunOk(fs, i);
    RunnerProofs.RunsKeep(rs, evs, k);
    RunnerProofs.JoinNeverStuck(rs[k], t, how);
    RunnerProofs.JoinedChildIsDead(rs[0], t);
    if rs[0].kind.Nspawn? { RunnerProofs.StreamerStepsBounded(rs, evs, e, k); }
    assert RunnerProofs.StreamerEvent(StreamerStops(e), e);
  }
}
