/** What the stops of a job come to, over every run of the fleet. */
module Stops {
  import opened Common
  import opened UpdateTable
  import opened Runner
  import opened Fleet
  import RunnerProofs

  // ----- A job has at most one environment -----

  ghost predicate EnvJobs(r: Runner, rid: int, home: map<JobId, int>) {
    && (forall e | 0 <= e < |r.envs| :: r.envs[e].job in home && home[r.envs[e].job] == rid)
    && (forall d, e | 0 <= d < e < |r.envs| :: r.envs[d].job != r.envs[e].job)
    && (forall t, e | t in r.tasks && r.tasks[t].Start? && CarriedBy(r.tasks[t]).None? && 0 <= e < |r.envs| ::
      r.envs[e].job != r.tasks[t].job)
  }

  // Environments keep their job; only the spawn of a start adds one.
  lemma StepEnvs(r: Runner, ev: Event)
    requires Enabled(r, ev)
    ensures |r.envs| <= |Step(r, ev).r.envs| <= |r.envs| + 1
    ensures forall e | 0 <= e < |r.envs| :: Step(r, ev).r.envs[e].job == r.envs[e].job
    ensures |Step(r, ev).r.envs| > |r.envs| ==>
      && ev.Advance? && r.tasks[ev.task].Start? && CarriedBy(r.tasks[ev.task]).None?
      && Step(r, ev).r.envs[|r.envs|].job == r.tasks[ev.task].job && !Step(r, ev).r.envs[|r.envs|].orphan
      && Step(r, ev).r.tasks == r.tasks[ev.task := Start(r.tasks[ev.task].job, SPostReady(|r.envs|))]
  {
    if ev.Advance? {
      match r.tasks[ev.task]
      case Start(job, spc) => StartEnvs(r, ev.task, job, spc, ev.how.Fine?);
      case Stop(job, tpc) => StopEnvs(r, ev.task, job, tpc, ev.how);
    }
  }

  lemma StartEnvs(r: Runner, t: nat, job: JobId, spc: StartPc, ok: bool)
    ensures var r' := AdvanceStart(r, t, job, spc, ok).r;
      && (r'.envs == r.envs || (spc.SSpawn? && r'.envs == r.envs + [NewEnv(r.kind, job, ok)]
          && r'.tasks == r.tasks[t := Start(job, SPostReady(|r.envs|))]))
  {}

  lemma StopEnvs(r: Runner, t: nat, job: JobId, tpc: StopPc, how: How)
    requires CarriedBy(Stop(job, tpc)).Some? ==> CarriedBy(Stop(job, tpc)).value < |r.envs|
    ensures var r' := AdvanceStop(r, t, job, tpc, how).r;
      |r'.envs| == |r.envs| && forall e | 0 <= e < |r.envs| :: r'.envs[e].job == r.envs[e].job
  {}

  // ----- The tasks after a step, seen from before it -----

  // Task u after a step of task t: as it was, or moved on within its job.
  ghost predicate TaskWas(r: Runner, r': Runner, t: nat, u: nat)
    requires u in r'.tasks
  {
    && u in r.tasks && r'.tasks[u].job == r.tasks[u].job && (r'.tasks[u].Start? <==> r.tasks[u].Start?)
    && (u != t ==> r'.tasks[u] == r.tasks[u])
    && (r.tasks[u].Start? && CarriedBy(r.tasks[u]).Some? ==> CarriedBy(r'.tasks[u]).Some?)
    && (r.tasks[u].Stop? && CarriedBy(r'.tasks[u]).Some? ==>
      CarriedBy(r.tasks[u]).Some? || (r.slot.Some? && r.slot.value.job == r.tasks[u].job))
    && (r'.handling != Some(u) ==> r.handling != Some(u))
  }

  lemma StartTask(r: Runner, t: nat, job: JobId, spc: StartPc, ok: bool, u: nat)
    requires t in r.tasks && r.tasks[t] == Start(job, spc) && u in AdvanceStart(r, t, job, spc, ok).r.tasks
    ensures TaskWas(r, AdvanceStart(r, t, job, spc, ok).r, t, u)
  {}

  lemma StopTask(r: Runner, t: nat, job: JobId, tpc: StopPc, how: How, u: nat)
    requires t in r.tasks && r.tasks[t] == Stop(job, tpc)
    requires CarriedBy(Stop(job, tpc)).Some? ==> CarriedBy(Stop(job, tpc)).value < |r.envs|
    requires u in AdvanceStop(r, t, job, tpc, how).r.tasks
    ensures TaskWas(r, AdvanceStop(r, t, job, tpc, how).r, t, u)
  {}

  lemma AdvanceTask(r: Runner, t: nat, how: How, u: nat)
    requires Enabled(r, Advance(t, how)) && u in Step(r, Advance(t, how)).r.tasks
    ensures TaskWas(r, Step(r, Advance(t, how)).r, t, u)
  {
    match r.tasks[t]
    case Start(job, spc) => StartTask(r, t, job, spc, how.Fine?, u);
    case Stop(job, tpc) => StopTask(r, t, job, tpc, how, u);
  }

  // A task that has just come in, from the connector or from the streamer of a dead child.
  ghost predicate ComesIn(r: Runner, ev: Event, r': Runner, u: nat)
    requires u in r'.tasks && Enabled(r, ev)
  {
    || (ev.RecvStart? && r'.tasks[u] == Start(ev.job, SLock) && r'.handling == Some(u))
    || (ev.RecvStop? && r'.tasks[u] == Stop(ev.job, TLock) && r'.handling == Some(u))
    || (ev.StreamerEof? && r'.tasks[u] == Stop(r.envs[ev.env].job, TLock) && !r.envs[ev.env].childAlive)
  }

  lemma OtherTask(r: Runner, ev: Event, u: nat)
    requires Enabled(r, ev) && !ev.Advance? && u in Step(r, ev).r.tasks
    ensures (u in r.tasks && Step(r, ev).r.tasks[u] == r.tasks[u]
          && (Step(r, ev).r.handling != Some(u) ==> r.handling != Some(u)))
      || ComesIn(r, ev, Step(r, ev).r, u)
  {}

  lemma StepTask(r: Runner, ev: Event, u: nat)
    requires Enabled(r, ev) && u in Step(r, ev).r.tasks
    ensures ComesIn(r, ev, Step(r, ev).r, u) || TaskWas(r, Step(r, ev).r, if ev.Advance? then ev.task else u, u)
  {
    if ev.Advance? { AdvanceTask(r, ev.task, ev.how, u); } else { OtherTask(r, ev, u); }
  }

  // A start that has not spawned yet did not before, or has just come in.
  lemma StepStarts(r: Runner, ev: Event, u: nat)
    requires Enabled(r, ev) && u in Step(r, ev).r.tasks
    requires Step(r, ev).r.tasks[u].Start? && CarriedBy(Step(r, ev).r.tasks[u]).None?
    ensures ev == RecvStart(Step(r, ev).r.tasks[u].job)
      || (u in r.tasks && r.tasks[u].Start? && CarriedBy(r.tasks[u]).None?
          && r.tasks[u].job == Step(r, ev).r.tasks[u].job)
  {
    StepTask(r, ev, u);
  }

  lemma EnvJobsKeep(r: Runner, rid: int, ev: Event, home: map<JobId, int>, phase: JobId -> Phase)
    requires JobsOk(r, rid, home, phase) && EnvJobs(r, rid, home) && Enabled(r, ev)
    requires ev.RecvStart? ==> ev.job !in home
    ensures EnvJobs(Step(r, ev).r, rid, if ev.RecvStart? then home[ev.job := rid] else home)
  {
    var r', home' := Step(r, ev).r, if ev.RecvStart? then home[ev.job := rid] else home;
    StepEnvs(r, ev);
    forall t, e | t in r'.tasks && r'.tasks[t].Start? && CarriedBy(r'.tasks[t]).None? && 0 <= e < |r'.envs|
      ensures r'.envs[e].job != r'.tasks[t].job
    {
      StepStarts(r, ev, t);
    }
  }

  ghost predicate FleetEnvs(f: Fleet) {
    forall rid | rid in f.runners :: EnvJobs(f.runners[rid], rid, f.home)
  }

  lemma FleetEnvsKeep(f: Fleet, rid: int, ev: Event)
    requires FleetOk(f) && FleetEnvs(f) && FleetEnabled(f, rid, ev)
    ensures FleetEnvs(FleetStep(f, rid, ev))
  {
    var f' := FleetStep(f, rid, ev);
    EnvJobsKeep(f.runners[rid], rid, ev, f.home, PhasesOf(f));
    forall q | q in f'.runners ensures EnvJobs(f'.runners[q], q, f'.home) {
      if q != rid { EnvJobsStay(f.runners[q], q, f.home, f'.home); }
    }
  }

  lemma EnvJobsStay(r: Runner, rid: int, home: map<JobId, int>, home': map<JobId, int>)
    requires EnvJobs(r, rid, home) && forall j | j in home :: j in home' && home'[j] == home[j]
    ensures EnvJobs(r, rid, home')
  {}

  // ----- The streamer's stops find the child dead -----

  ghost predicate HasDead(r: Runner, j: JobId) {
    exists e: nat :: e < |r.envs| && r.envs[e].job == j && !r.envs[e].childAlive
  }

  ghost predicate SelfStopsOk(r: Runner) {
    && (forall t | t in r.tasks && r.handling != Some(t) :: HasDead(r, r.tasks[t].job))
    && (forall e | 0 <= e < |r.envs| :: !r.envs[e].orphan)
  }

  // No environment changes its job or comes back to life.
  lemma DeadStays(r: Runner, ev: Event, j: JobId)
    requires RunnerProofs.RunnerOk(r) && Enabled(r, ev) && HasDead(r, j)
    ensures HasDead(Step(r, ev).r, j)
  {
    var e: nat :| e < |r.envs| && r.envs[e].job == j && !r.envs[e].childAlive;
    StepEnvs(r, ev);
    RunnerProofs.ReleaseInOrder(r, ev, e);
  }

  // A task the connector does not await was there before, or the streamer has just started it.
  lemma SelfTaskWas(r: Runner, ev: Event, t: nat)
    requires Enabled(r, ev)
    requires t in Step(r, ev).r.tasks && Step(r, ev).r.handling != Some(t)
    ensures (t in r.tasks && r.handling != Some(t) && r.tasks[t].job == Step(r, ev).r.tasks[t].job)
      || (ev.StreamerEof? && Step(r, ev).r.tasks[t].job == r.envs[ev.env].job && !r.envs[ev.env].childAlive)
  {
    StepTask(r, ev, t);
  }

  // The environment the task carries is the one environment of its job.
  lemma CarriedIsDead(r: Runner, rid: int, home: map<JobId, int>, t: nat)
    requires RunnerProofs.CarriersOk(r) && EnvJobs(r, rid, home) && SelfStopsOk(r)
    requires t in r.tasks && r.handling != Some(t) && CarriedBy(r.tasks[t]).Some?
    ensures !r.envs[CarriedBy(r.tasks[t]).value].childAlive
  {
    var e: nat :| e < |r.envs| && r.envs[e].job == r.tasks[t].job && !r.envs[e].childAlive;
    var c := CarriedBy(r.tasks[t]).value;
    assert r.envs[c].job == r.tasks[t].job;
  }

  lemma NewOrphan(r: Runner, ev: Event, e: nat)
    requires Enabled(r, ev) && e < |Step(r, ev).r.envs| && Step(r, ev).r.envs[e].orphan
    requires e < |r.envs| ==> !r.envs[e].orphan
    ensures e < |r.envs| && r.envs[e].childAlive && ev.Advance? && r.handling != Some(ev.task)
    ensures CarriedBy(r.tasks[ev.task]) == Some(e)
  {
    StepEnvs(r, ev);
    if ev.Advance? && r.tasks[ev.task].Stop? {
      StopOrphans(r, ev.task, r.tasks[ev.task].job, r.tasks[ev.task].tpc, ev.how, e);
    }
  }

  lemma StopOrphans(r: Runner, t: nat, job: JobId, tpc: StopPc, how: How, e: nat)
    requires CarriedBy(Stop(job, tpc)).Some? ==> CarriedBy(Stop(job, tpc)).value < |r.envs|
    requires e < |r.envs| == |AdvanceStop(r, t, job, tpc, how).r.envs|
    ensures AdvanceStop(r, t, job, tpc, how).r.envs[e].orphan ==>
      r.envs[e].orphan || (r.envs[e].childAlive && CarriedBy(Stop(job, tpc)) == Some(e) && r.handling != Some(t))
  {}

  lemma SelfStopsKeep(r: Runner, rid: int, ev: Event, home: map<JobId, int>)
    requires RunnerProofs.RunnerOk(r) && EnvJobs(r, rid, home) && SelfStopsOk(r) && Enabled(r, ev)
    ensures SelfStopsOk(Step(r, ev).r)
  {
    var r' := Step(r, ev).r;
    forall t | t in r'.tasks && r'.handling != Some(t) ensures HasDead(r', r'.tasks[t].job) {
      SelfTaskWas(r, ev, t);
      if ev.StreamerEof? && r'.tasks[t].job == r.envs[ev.env].job && !r.envs[ev.env].childAlive {
        assert HasDead(r, r'.tasks[t].job);
      }
      DeadStays(r, ev, r'.tasks[t].job);
    }
    forall e: nat | e < |r'.envs| ensures !r'.envs[e].orphan {
      if r'.envs[e].orphan {
        NewOrphan(r, ev, e);
        CarriedIsDead(r, rid, home, ev.task);
      }
    }
  }

  // ----- What a failed post of a job comes from -----

  predicate Active(task: Task) {
    task.Start? || CarriedBy(task).Some?
  }

  // The runner starts, runs or stops the job.
  ghost predicate HasItem(r: Runner, j: JobId) {
    (exists t :: t in r.tasks && Active(r.tasks[t]) && r.tasks[t].job == j) || (r.slot.Some? && r.slot.value.job == j)
  }

  predicate Refuses(r: Runner, ev: Event, j: JobId)
    requires Enabled(r, ev)
  {
    ev.Advance? && r.tasks[ev.task] == Stop(j, TRefuse)
  }

  lemma ItemsShrink(r: Runner, ev: Event, j: JobId)
    requires Enabled(r, ev) && HasItem(Step(r, ev).r, j)
    ensures HasItem(r, j) || ev == RecvStart(j)
  {
    var r' := Step(r, ev).r;
    if exists t :: t in r'.tasks && Active(r'.tasks[t]) && r'.tasks[t].job == j {
      var t :| t in r'.tasks && Active(r'.tasks[t]) && r'.tasks[t].job == j;
      ActiveTaskWas(r, ev, t);
    } else {
      SlotWas(r, ev);
    }
  }

  lemma ActiveTaskWas(r: Runner, ev: Event, t: nat)
    requires Enabled(r, ev) && t in Step(r, ev).r.tasks && Active(Step(r, ev).r.tasks[t])
    ensures ev == RecvStart(Step(r, ev).r.tasks[t].job)
      || (t in r.tasks && Active(r.tasks[t]) && r.tasks[t].job == Step(r, ev).r.tasks[t].job)
      || (r.slot.Some? && r.slot.value.job == Step(r, ev).r.tasks[t].job)
  {
    StepTask(r, ev, t);
  }

  lemma SlotWas(r: Runner, ev: Event)
    requires Enabled(r, ev) && Step(r, ev).r.slot.Some?
    ensures Step(r, ev).r.slot == r.slot
      || (ev.Advance? && Active(r.tasks[ev.task]) && r.tasks[ev.task].job == Step(r, ev).r.slot.value.job)
  {}

  // A stop that gave up has nothing left of its job.
  ghost predicate GaveUp(r: Runner, rid: int, home: map<JobId, int>) {
    forall t | t in r.tasks && r.tasks[t].Stop? && r.tasks[t].tpc.TFail? ::
      r.tasks[t].job in home && home[r.tasks[t].job] == rid && !HasItem(r, r.tasks[t].job)
  }

  lemma FailedTaskWas(r: Runner, ev: Event, t: nat)
    requires Enabled(r, ev) && t in Step(r, ev).r.tasks
    requires Step(r, ev).r.tasks[t].Stop? && Step(r, ev).r.tasks[t].tpc.TFail?
    ensures (t in r.tasks && Step(r, ev).r.tasks[t] == r.tasks[t])
      || (ev.Advance? && ev.task == t && r.tasks[t].Stop? && r.tasks[t].tpc.TUnmount?
          && r.tasks[t].job == Step(r, ev).r.tasks[t].job
          && Step(r, ev).r == r.(tasks := r.tasks[t := Stop(r.tasks[t].job, TFail)]))
  {
    StepTask(r, ev, t);
    if ev.Advance? && ev.task == t { StopGivesUp(r, t, r.tasks[t].job, r.tasks[t].tpc, ev.how); }
  }

  lemma StopGivesUp(r: Runner, t: nat, job: JobId, tpc: StopPc, how: How)
    requires t in r.tasks && r.tasks[t] == Stop(job, tpc)
    requires CarriedBy(Stop(job, tpc)).Some? ==> CarriedBy(Stop(job, tpc)).value < |r.envs|
    requires var r' := AdvanceStop(r, t, job, tpc, how).r; t in r'.tasks && r'.tasks[t] == Stop(job, TFail)
    ensures tpc.TUnmount? && AdvanceStop(r, t, job, tpc, how).r == r.(tasks := r.tasks[t := Stop(job, TFail)])
  {}

  // The only item of its job is the task that carries the job's environment.
  lemma OnlyItem(r: Runner, rid: int, home: map<JobId, int>, phase: JobId -> Phase, t: nat)
    requires RunnerProofs.CarriersOk(r) && JobsOk(r, rid, home, phase) && EnvJobs(r, rid, home)
    requires t in r.tasks && (CarriedBy(r.tasks[t]).Some? || r.tasks[t].Start?)
    ensures forall u | u in r.tasks && u != t && Active(r.tasks[u]) :: r.tasks[u].job != r.tasks[t].job
    ensures r.slot.Some? ==> r.slot.value.job != r.tasks[t].job
  {
    forall u | u in r.tasks && u != t && Active(r.tasks[u]) ensures r.tasks[u].job != r.tasks[t].job {
      if CarriedBy(r.tasks[u]).Some? && CarriedBy(r.tasks[t]).Some? {
        var d, e := CarriedBy(r.tasks[u]).value, CarriedBy(r.tasks[t]).value;
        assert r.envs[d].job == r.tasks[u].job && r.envs[e].job == r.tasks[t].job && d != e;
      }
    }
    if r.slot.Some? && CarriedBy(r.tasks[t]).Some? {
      var d, e := r.slot.value.env, CarriedBy(r.tasks[t]).value;
      assert r.envs[d].job == r.slot.value.job && r.envs[e].job == r.tasks[t].job && d != e;
    }
  }

  lemma GaveUpKeeps(r: Runner, rid: int, ev: Event, home: map<JobId, int>, phase: JobId -> Phase)
    requires RunnerProofs.CarriersOk(r) && JobsOk(r, rid, home, phase) && EnvJobs(r, rid, home) && GaveUp(r, rid, home)
    requires Enabled(r, ev) && (ev.RecvStart? ==> ev.job !in home)
    ensures GaveUp(Step(r, ev).r, rid, if ev.RecvStart? then home[ev.job := rid] else home)
  {
    var r' := Step(r, ev).r;
    forall t | t in r'.tasks && r'.tasks[t].Stop? && r'.tasks[t].tpc.TFail?
      ensures r'.tasks[t].job in home && home[r'.tasks[t].job] == rid && !HasItem(r', r'.tasks[t].job)
    {
      var j := r'.tasks[t].job;
      FailedTaskWas(r, ev, t);
      if t in r.tasks && r'.tasks[t] == r.tasks[t] {
        if HasItem(r', j) { ItemsShrink(r, ev, j); }
      } else {
        OnlyItem(r, rid, home, phase, t);
      }
    }
  }

  // A failed post that is no refusal ends whatever the runner had of the job.
  lemma FailureEndsItem(r: Runner, rid: int, ev: Event, home: map<JobId, int>, phase: JobId -> Phase)
    requires RunnerProofs.CarriersOk(r) && JobsOk(r, rid, home, phase) && EnvJobs(r, rid, home) && GaveUp(r, rid, home)
    requires Enabled(r, ev) && Step(r, ev).post.Some? && Step(r, ev).post.value.state.RFailed?
    requires !Refuses(r, ev, Step(r, ev).post.value.job)
    ensures var j := Step(r, ev).post.value.job; j in home && home[j] == rid && !HasItem(Step(r, ev).r, j)
  {
    var j := Step(r, ev).post.value.job;
    FailurePost(r, ev);
    if r.tasks[ev.task].Start? {
      OnlyItem(r, rid, home, phase, ev.task);
    } else if HasItem(Step(r, ev).r, j) {
      ItemsShrink(r, ev, j);
    }
  }

  lemma FailurePost(r: Runner, ev: Event)
    requires Enabled(r, ev) && Step(r, ev).post.Some? && Step(r, ev).post.value.state.RFailed?
    ensures ev.Advance? && r.tasks[ev.task].job == Step(r, ev).post.value.job
    ensures r.tasks[ev.task] == Start(r.tasks[ev.task].job, SFail)
      || r.tasks[ev.task] == Stop(r.tasks[ev.task].job, TRefuse)
      || r.tasks[ev.task] == Stop(r.tasks[ev.task].job, TFail)
    ensures Step(r, ev).r.tasks == r.tasks - {ev.task} && Step(r, ev).r.slot == r.slot
  {}

  // ----- Failed before finished: refused stops, and only those -----

  // `refused`: the jobs of which a refused stop has posted its failure.
  ghost predicate Tainted(f: Fleet, refused: iset<JobId>, j: JobId) {
    RFailed in PostsOf(f, j) && j !in refused
  }

  ghost predicate Untainted(f: Fleet, refused: iset<JobId>, rid: int)
    requires rid in f.runners
  {
    forall j | HasItem(f.runners[rid], j) :: !Tainted(f, refused, j)
  }

  ghost predicate StopsOk(f: Fleet, refused: iset<JobId>) {
    && FleetEnvs(f)
    && (forall rid | rid in f.runners :: Untainted(f, refused, rid) && GaveUp(f.runners[rid], rid, f.home))
    && (forall j | Tainted(f, refused, j) :: j in f.home)
    && (forall j | j in refused :: RFailed in PostsOf(f, j))
  }

  ghost function RefusedAfter(f: Fleet, rid: int, ev: Event, refused: iset<JobId>): iset<JobId>
    requires FleetEnabled(f, rid, ev)
  {
    refused + iset j | Refuses(f.runners[rid], ev, j)
  }

  // Whom a step taints: only the job whose failure it posts, and then its runner is rid of the job.
  lemma TaintStep(f: Fleet, rid: int, ev: Event, refused: iset<JobId>, j: JobId)
    requires FleetOk(f) && StopsOk(f, refused) && FleetEnabled(f, rid, ev)
    requires Tainted(FleetStep(f, rid, ev), RefusedAfter(f, rid, ev, refused), j)
    ensures Tainted(f, refused, j)
      || (j in f.home && f.home[j] == rid && !HasItem(Step(f.runners[rid], ev).r, j))
  {
    var r := f.runners[rid];
    if !Tainted(f, refused, j) {
      assert Step(r, ev).post == Some(Post(j, RFailed));
      FailureEndsItem(r, rid, ev, f.home, PhasesOf(f));
    }
  }

  lemma ItemsAtHome(r: Runner, rid: int, home: map<JobId, int>, phase: JobId -> Phase, j: JobId)
    requires JobsOk(r, rid, home, phase) && HasItem(r, j)
    ensures j in home && home[j] == rid
  {}

  lemma UntaintedKeeps(f: Fleet, rid: int, ev: Event, refused: iset<JobId>, q: int)
    requires FleetOk(f) && StopsOk(f, refused) && FleetEnabled(f, rid, ev) && q in f.runners
    ensures Untainted(FleetStep(f, rid, ev), RefusedAfter(f, rid, ev, refused), q)
  {
    var f', refused' := FleetStep(f, rid, ev), RefusedAfter(f, rid, ev, refused);
    forall j | HasItem(f'.runners[q], j) ensures !Tainted(f', refused', j) {
      if Tainted(f', refused', j) {
        TaintStep(f, rid, ev, refused, j);
        if q == rid {
          ItemsShrink(f.runners[q], ev, j);
        } else {
          ItemsAtHome(f.runners[q], q, f.home, PhasesOf(f), j);
        }
      }
    }
  }

  lemma StopsKeep(f: Fleet, rid: int, ev: Event, refused: iset<JobId>)
    requires FleetOk(f) && StopsOk(f, refused) && FleetEnabled(f, rid, ev)
    ensures StopsOk(FleetStep(f, rid, ev), RefusedAfter(f, rid, ev, refused))
  {
    var f', refused' := FleetStep(f, rid, ev), RefusedAfter(f, rid, ev, refused);
    FleetEnvsKeep(f, rid, ev);
    forall q | q in f'.runners ensures Untainted(f', refused', q) && GaveUp(f'.runners[q], q, f'.home) {
      UntaintedKeeps(f, rid, ev, refused, q);
      FleetGaveUpKeeps(f, rid, ev, q);
    }
    forall j | Tainted(f', refused', j) ensures j in f'.home { TaintStep(f, rid, ev, refused, j); }
    forall j | j in refused' ensures RFailed in PostsOf(f', j) { RefusedHavePosted(f, rid, ev, refused, j); }
  }

  lemma FleetGaveUpKeeps(f: Fleet, rid: int, ev: Event, q: int)
    requires FleetOk(f) && FleetEnvs(f) && FleetEnabled(f, rid, ev) && q in f.runners
    requires GaveUp(f.runners[q], q, f.home)
    ensures GaveUp(FleetStep(f, rid, ev).runners[q], q, FleetStep(f, rid, ev).home)
  {
    if q == rid { GaveUpKeeps(f.runners[q], q, ev, f.home, PhasesOf(f)); }
  }

  lemma RefusedHavePosted(f: Fleet, rid: int, ev: Event, refused: iset<JobId>, j: JobId)
    requires FleetEnabled(f, rid, ev) && j in RefusedAfter(f, rid, ev, refused)
    requires j in refused ==> RFailed in PostsOf(f, j)
    ensures RFailed in PostsOf(FleetStep(f, rid, ev), j)
  {
    if j in refused { RFailedStays(PostsOf(f, j), PostsOf(FleetStep(f, rid, ev), j)); }
  }

  lemma RFailedStays(posts: seq<RunnerState>, more: seq<RunnerState>)
    requires RFailed in posts && posts <= more
    ensures RFailed in more
  {
    var n :| 0 <= n < |posts| && posts[n] == RFailed;
    assert more[n] == RFailed;
  }
}
