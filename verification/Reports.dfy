/** What a runner tells of a job: what it must have posted at every point, and how every task ends. */
module Reports {
  import opened Common
  import opened UpdateTable
  import opened Runner
  import opened Fleet
  import opened Stops
  import RunnerProofs
  import StopRuns

  // ----- The posts other than failed -----

  function Told(posts: seq<RunnerState>): seq<RunnerState> {
    if posts == [] then []
    else Told(posts[..|posts| - 1]) + if posts[|posts| - 1].RFailed? then [] else [posts[|posts| - 1]]
  }

  lemma ToldMore(posts: seq<RunnerState>, posted: RunnerState)
    ensures Told(posts + [posted]) == Told(posts) + if posted.RFailed? then [] else [posted]
  {
    assert (posts + [posted])[..|posts|] == posts;
  }

  // nspawn says starting when it allocates the file system, and both say it before they boot.
  function Booted(kind: Kind): seq<RunnerState> {
    if kind.Nspawn? then [RStarting, RStarting] else [RStarting]
  }

  function Up(kind: Kind): seq<RunnerState> {
    Booted(kind) + [RReady]
  }

  function Stopped(kind: Kind): seq<RunnerState> {
    Up(kind) + [RStopping]
  }

  // What a start has told before its next step.
  ghost predicate StartTold(kind: Kind, spc: StartPc, told: seq<RunnerState>) {
    match spc
    case SAllocate => kind.Nspawn? && told == [RStarting]
    case SOpenSocket => told == if kind.Nspawn? then [RStarting] else []
    case SPostBooting => told == if kind.Nspawn? then [RStarting] else []
    case SSpawn => told == Booted(kind)
    case SPostReady(_) => told == Booted(kind)
    case SStore(_) => told == Up(kind)
    case SFail => told <= Booted(kind)
    case SPostAllocating => kind.Nspawn? && told == []
    case _ => told == []
  }

  // What a stop that has the job has told before its next step.
  ghost predicate StopTold(kind: Kind, tpc: StopPc, told: seq<RunnerState>) {
    match tpc
    case TLock => true
    case TCheckSlot => true
    case TRefuse => true
    case TPostStopping(_) => told == Up(kind)
    case _ => told == Stopped(kind)
  }

  ghost predicate TaskTold(kind: Kind, task: Task, told: seq<RunnerState>) {
    match task
    case Start(_, spc) => StartTold(kind, spc, told)
    case Stop(_, tpc) => StopTold(kind, tpc, told)
  }

  ghost predicate RunnerTold(r: Runner, told: JobId -> seq<RunnerState>) {
    && (forall t | t in r.tasks :: TaskTold(r.kind, r.tasks[t], told(r.tasks[t].job)))
    && (r.slot.Some? ==> told(r.slot.value.job) == Up(r.kind))
  }

  ghost function ToldOf(f: Fleet): JobId -> seq<RunnerState> {
    j => Told(PostsOf(f, j))
  }

  ghost predicate JobTold(f: Fleet, j: JobId) {
    if j in f.home
    then f.home[j] in f.runners && Told(PostsOf(f, j)) <= Stopped(f.runners[f.home[j]].kind) + [RFinished]
    else Told(PostsOf(f, j)) == []
  }

  ghost predicate FleetTold(f: Fleet) {
    && (forall rid | rid in f.runners :: RunnerTold(f.runners[rid], ToldOf(f)))
    && (forall j :: JobTold(f, j))
  }

  // ----- One step -----

  function Says(eff: Effect, j: JobId): seq<RunnerState> {
    if eff.post.Some? && eff.post.value.job == j && !eff.post.value.state.RFailed? then [eff.post.value.state] else []
  }

  lemma StepSays(f: Fleet, rid: int, ev: Event, j: JobId)
    requires FleetEnabled(f, rid, ev)
    ensures ToldOf(FleetStep(f, rid, ev))(j) == ToldOf(f)(j) + Says(Step(f.runners[rid], ev), j)
  {
    var eff := Step(f.runners[rid], ev);
    PostsAfter(f, rid, ev, eff, j);
    if eff.post.Some? && eff.post.value.job == j { ToldMore(PostsOf(f, j), eff.post.value.state); }
  }

  lemma PostsAfter(f: Fleet, rid: int, ev: Event, eff: Effect, j: JobId)
    requires FleetEnabled(f, rid, ev) && eff == Step(f.runners[rid], ev)
    ensures PostsOf(FleetStep(f, rid, ev), j) ==
      if eff.post.Some? && eff.post.value.job == j then PostsOf(f, j) + [eff.post.value.state] else PostsOf(f, j)
  {}

  // What task t tells on its own step, and where that leaves it.
  lemma StartSays(r: Runner, t: nat, job: JobId, spc: StartPc, ok: bool, told: seq<RunnerState>)
    requires t in r.tasks && r.tasks[t] == Start(job, spc) && StartTold(r.kind, spc, told)
    ensures var eff := AdvanceStart(r, t, job, spc, ok);
      && (t in eff.r.tasks ==> TaskTold(r.kind, eff.r.tasks[t], told + Says(eff, job)))
      && (eff.r.slot != r.slot ==>
        !eff.r.alive || (eff.r.slot.Some? && eff.r.slot.value.job == job && told + Says(eff, job) == Up(r.kind)))
      && told + Says(eff, job) <= Up(r.kind)
  {}

  lemma StopSays(r: Runner, t: nat, job: JobId, tpc: StopPc, how: How, told: seq<RunnerState>)
    requires t in r.tasks && r.tasks[t] == Stop(job, tpc) && StopTold(r.kind, tpc, told)
    requires CarriedBy(Stop(job, tpc)).Some? ==> CarriedBy(Stop(job, tpc)).value < |r.envs|
    requires r.slot.Some? && r.slot.value.job == job ==> told == Up(r.kind)
    requires r.slot.Some? && r.slot.value.job == job ==> r.slot.value.env < |r.envs|
    ensures var eff := AdvanceStop(r, t, job, tpc, how);
      && (t in eff.r.tasks ==> TaskTold(r.kind, eff.r.tasks[t], told + Says(eff, job)))
      && (eff.r.slot.Some? ==> eff.r.slot == r.slot)
      && (Says(eff, job) != [] ==>
        CarriedBy(Stop(job, tpc)).Some? && told + Says(eff, job) <= Stopped(r.kind) + [RFinished])
  {}

  // Only a start, or a stop that has the job, tells anything.
  lemma WhoSays(r: Runner, ev: Event, j: JobId)
    requires Enabled(r, ev) && Says(Step(r, ev), j) != []
    ensures ev.Advance? && r.tasks[ev.task].job == j && Active(r.tasks[ev.task])
  {
    if ev.Advance? && r.tasks[ev.task].Stop? {
      StopPosts(r, ev.task, r.tasks[ev.task].job, r.tasks[ev.task].tpc, ev.how);
    }
  }

  lemma OthersSayNothing(r: Runner, rid: int, ev: Event, home: map<JobId, int>, phase: JobId -> Phase, u: nat)
    requires RunnerProofs.CarriersOk(r) && JobsOk(r, rid, home, phase) && EnvJobs(r, rid, home) && GaveUp(r, rid, home)
    requires Enabled(r, ev) && u in r.tasks && !(ev.Advance? && ev.task == u)
    requires Active(r.tasks[u]) || r.tasks[u].tpc.TFail?
    ensures Says(Step(r, ev), r.tasks[u].job) == []
  {
    if Says(Step(r, ev), r.tasks[u].job) != [] {
      WhoSays(r, ev, r.tasks[u].job);
      if Active(r.tasks[u]) { OnlyItem(r, rid, home, phase, ev.task); } else { ActiveIsItem(r, ev.task); }
    }
  }

  lemma ActiveIsItem(r: Runner, t: nat)
    requires t in r.tasks && Active(r.tasks[t])
    ensures HasItem(r, r.tasks[t].job)
  {}

  lemma SlotIsSilent(r: Runner, rid: int, ev: Event, home: map<JobId, int>, phase: JobId -> Phase)
    requires RunnerProofs.CarriersOk(r) && JobsOk(r, rid, home, phase) && EnvJobs(r, rid, home)
    requires Enabled(r, ev) && r.slot.Some?
    ensures Says(Step(r, ev), r.slot.value.job) == []
  {
    if Says(Step(r, ev), r.slot.value.job) != [] {
      WhoSays(r, ev, r.slot.value.job);
      OnlyItem(r, rid, home, phase, ev.task);
    }
  }

  ghost predicate Continues(eff: Effect, told: JobId -> seq<RunnerState>, told': JobId -> seq<RunnerState>) {
    forall j :: told'(j) == told(j) + Says(eff, j)
  }

  lemma OwnTaskTold(r: Runner, t: nat, how: How, told: JobId -> seq<RunnerState>, told': JobId -> seq<RunnerState>)
    requires RunnerProofs.CarriersOk(r) && RunnerTold(r, told) && Enabled(r, Advance(t, how))
    requires Continues(Step(r, Advance(t, how)), told, told')
    ensures var r' := Step(r, Advance(t, how)).r;
      t in r'.tasks ==> TaskTold(r.kind, r'.tasks[t], told'(r'.tasks[t].job))
  {
    var job := r.tasks[t].job;
    assert TaskTold(r.kind, r.tasks[t], told(job));
    if t in Step(r, Advance(t, how)).r.tasks { AdvanceKeepsJob(r, t, how); }
    match r.tasks[t]
    case Start(_, spc) => StartSays(r, t, job, spc, how.Fine?, told(job));
    case Stop(_, tpc) => StopSays(r, t, job, tpc, how, told(job));
  }

  lemma AdvanceKeepsJob(r: Runner, t: nat, how: How)
    requires Enabled(r, Advance(t, how)) && t in Step(r, Advance(t, how)).r.tasks
    ensures Step(r, Advance(t, how)).r.tasks[t].job == r.tasks[t].job
  {
    AdvanceTask(r, t, how, t);
  }

  // A task that takes no step, or has just come in.
  lemma OtherTaskTold(r: Runner, rid: int, ev: Event, home: map<JobId, int>, phase: JobId -> Phase, u: nat,
      told: JobId -> seq<RunnerState>, told': JobId -> seq<RunnerState>)
    requires RunnerProofs.CarriersOk(r) && JobsOk(r, rid, home, phase) && EnvJobs(r, rid, home) && GaveUp(r, rid, home)
    requires RunnerTold(r, told) && Enabled(r, ev) && Continues(Step(r, ev), told, told')
    requires ev.RecvStart? ==> told(ev.job) == []
    requires u in Step(r, ev).r.tasks && !(ev.Advance? && ev.task == u)
    ensures TaskTold(r.kind, Step(r, ev).r.tasks[u], told'(Step(r, ev).r.tasks[u].job))
  {
    var r' := Step(r, ev).r;
    if ComesIn(r, ev, r', u) {
      NewcomerTold(r, ev, u, told, told');
    } else {
      StaysAsIs(r, ev, u);
      if Active(r.tasks[u]) || r.tasks[u].tpc.TFail? { OthersSayNothing(r, rid, ev, home, phase, u); }
    }
  }

  lemma NewcomerTold(r: Runner, ev: Event, u: nat, told: JobId -> seq<RunnerState>, told': JobId -> seq<RunnerState>)
    requires Enabled(r, ev) && u in Step(r, ev).r.tasks && ComesIn(r, ev, Step(r, ev).r, u)
    requires Continues(Step(r, ev), told, told') && (ev.RecvStart? ==> told(ev.job) == [])
    ensures TaskTold(r.kind, Step(r, ev).r.tasks[u], told'(Step(r, ev).r.tasks[u].job))
  {
    assert Says(Step(r, ev), Step(r, ev).r.tasks[u].job) == [];
  }

  lemma StaysAsIs(r: Runner, ev: Event, u: nat)
    requires Enabled(r, ev) && u in Step(r, ev).r.tasks && !(ev.Advance? && ev.task == u)
    requires !ComesIn(r, ev, Step(r, ev).r, u)
    ensures u in r.tasks && Step(r, ev).r.tasks[u] == r.tasks[u]
  {
    if ev.Advance? { AdvanceTask(r, ev.task, ev.how, u); } else { OtherTask(r, ev, u); }
  }

  lemma SlotTold(r: Runner, rid: int, ev: Event, home: map<JobId, int>, phase: JobId -> Phase,
      told: JobId -> seq<RunnerState>, told': JobId -> seq<RunnerState>)
    requires RunnerProofs.CarriersOk(r) && JobsOk(r, rid, home, phase) && EnvJobs(r, rid, home)
    requires RunnerTold(r, told) && Enabled(r, ev) && Continues(Step(r, ev), told, told')
    ensures var r' := Step(r, ev).r; r'.slot.Some? ==> told'(r'.slot.value.job) == Up(r.kind)
  {
    var r' := Step(r, ev).r;
    if r'.slot.Some? && r'.slot == r.slot {
      SlotIsSilent(r, rid, ev, home, phase);
    } else if r'.slot.Some? {
      SlotIsStored(r, ev);
      var t := ev.task;
      assert TaskTold(r.kind, r.tasks[t], told(r.tasks[t].job));
      StartSays(r, t, r.tasks[t].job, r.tasks[t].spc, ev.how.Fine?, told(r.tasks[t].job));
    }
  }

  lemma SlotIsStored(r: Runner, ev: Event)
    requires Enabled(r, ev) && Step(r, ev).r.slot.Some? && Step(r, ev).r.slot != r.slot
    ensures ev.Advance? && r.tasks[ev.task].Start? && Step(r, ev).r.alive
  {}

  lemma RunnerTells(r: Runner, rid: int, ev: Event, home: map<JobId, int>, phase: JobId -> Phase,
      told: JobId -> seq<RunnerState>, told': JobId -> seq<RunnerState>)
    requires RunnerProofs.CarriersOk(r) && JobsOk(r, rid, home, phase) && EnvJobs(r, rid, home) && GaveUp(r, rid, home)
    requires RunnerTold(r, told) && Enabled(r, ev) && Continues(Step(r, ev), told, told')
    requires ev.RecvStart? ==> told(ev.job) == []
    ensures RunnerTold(Step(r, ev).r, told')
  {
    var r' := Step(r, ev).r;
    RunnerProofs.KindStays(r, ev);
    SlotTold(r, rid, ev, home, phase, told, told');
    forall u | u in r'.tasks ensures TaskTold(r.kind, r'.tasks[u], told'(r'.tasks[u].job)) {
      if ev.Advance? && ev.task == u {
        OwnTaskTold(r, u, ev.how, told, told');
      } else {
        OtherTaskTold(r, rid, ev, home, phase, u, told, told');
      }
    }
  }

  // Another runner's step: of the jobs this one has, it tells nothing.
  lemma BystanderTold(q: Runner, qid: int, home: map<JobId, int>, phase: JobId -> Phase,
      told: JobId -> seq<RunnerState>, told': JobId -> seq<RunnerState>)
    requires JobsOk(q, qid, home, phase) && GaveUp(q, qid, home) && RunnerTold(q, told)
    requires forall j | j in home && home[j] == qid :: told'(j) == told(j)
    ensures RunnerTold(q, told')
  {}

  // ----- The whole fleet -----

  lemma FleetSays(f: Fleet, rid: int, ev: Event)
    requires FleetEnabled(f, rid, ev)
    ensures Continues(Step(f.runners[rid], ev), ToldOf(f), ToldOf(FleetStep(f, rid, ev)))
  {
    forall j ensures ToldOf(FleetStep(f, rid, ev))(j) == ToldOf(f)(j) + Says(Step(f.runners[rid], ev), j) {
      StepSays(f, rid, ev, j);
    }
  }

  lemma TellsAtHome(f: Fleet, rid: int, ev: Event, j: JobId)
    requires FleetOk(f) && FleetEnabled(f, rid, ev) && Says(Step(f.runners[rid], ev), j) != []
    ensures j in f.home && f.home[j] == rid
  {
    PostAllowed(f.runners[rid], rid, ev, f.home, PhasesOf(f));
  }

  lemma StaysInOrder(r: Runner, ev: Event, told: JobId -> seq<RunnerState>, j: JobId)
    requires RunnerProofs.CarriersOk(r) && RunnerTold(r, told) && Enabled(r, ev) && Says(Step(r, ev), j) != []
    ensures told(j) + Says(Step(r, ev), j) <= Stopped(r.kind) + [RFinished]
  {
    WhoSays(r, ev, j);
    assert TaskTold(r.kind, r.tasks[ev.task], told(j));
    match r.tasks[ev.task]
    case Start(_, spc) => StartSays(r, ev.task, j, spc, ev.how.Fine?, told(j));
    case Stop(_, tpc) => StopSays(r, ev.task, j, tpc, ev.how, told(j));
  }

  lemma JobTells(f: Fleet, rid: int, ev: Event, j: JobId)
    requires FleetOk(f) && FleetTold(f) && FleetEnabled(f, rid, ev)
    ensures JobTold(FleetStep(f, rid, ev), j)
  {
    var r, says := f.runners[rid], Says(Step(f.runners[rid], ev), j);
    assert JobTold(f, j);
    StepSays(f, rid, ev, j);
    RunnerProofs.KindStays(r, ev);
    if says != [] {
      TellsAtHome(f, rid, ev, j);
      StaysInOrder(r, ev, ToldOf(f), j);
    }
    ToldNext(f, FleetStep(f, rid, ev), rid, j, says);
  }

  lemma ToldNext(f: Fleet, f': Fleet, rid: int, j: JobId, says: seq<RunnerState>)
    requires JobTold(f, j) && Told(PostsOf(f', j)) == Told(PostsOf(f, j)) + says
    requires forall q | q in f.runners :: q in f'.runners && f'.runners[q].kind == f.runners[q].kind
    requires forall k | k in f.home :: k in f'.home && f'.home[k] == f.home[k]
    requires forall k | k in f'.home && k !in f.home :: f'.home[k] in f'.runners
    requires says != [] ==>
      && j in f.home && f.home[j] == rid && rid in f.runners
      && Told(PostsOf(f, j)) + says <= Stopped(f.runners[rid].kind) + [RFinished]
    ensures JobTold(f', j)
  {}

  lemma FleetTells(f: Fleet, rid: int, ev: Event, refused: iset<JobId>)
    requires FleetOk(f) && StopsOk(f, refused) && FleetTold(f) && FleetEnabled(f, rid, ev)
    ensures FleetTold(FleetStep(f, rid, ev))
  {
    var f' := FleetStep(f, rid, ev);
    FleetSays(f, rid, ev);
    if ev.RecvStart? { assert JobTold(f, ev.job); }
    forall q | q in f'.runners ensures RunnerTold(f'.runners[q], ToldOf(f')) {
      if q == rid {
        RunnerTells(f.runners[q], q, ev, f.home, PhasesOf(f), ToldOf(f), ToldOf(f'));
      } else {
        forall j | j in f.home && f.home[j] == q ensures ToldOf(f')(j) == ToldOf(f)(j) {
          if Says(Step(f.runners[rid], ev), j) != [] { TellsAtHome(f, rid, ev, j); }
        }
        BystanderTold(f.runners[q], q, f.home, PhasesOf(f), ToldOf(f), ToldOf(f'));
      }
    }
    forall j ensures JobTold(f', j) { JobTells(f, rid, ev, j); }
  }

  lemma NothingToldAtFirst(f: Fleet)
    requires FleetInitial(f)
    ensures FleetTold(f)
  {}

  lemma {:induction false} RunTells(fs: seq<Fleet>, i: nat)
    requires FleetRun(fs) && i < |fs|
    ensures FleetTold(fs[i])
  {
    if i == 0 {
      NothingToldAtFirst(fs[0]);
    } else {
      RunTells(fs, i - 1);
      RunTellsStep(fs, i - 1);
    }
  }

  lemma RunTellsStep(fs: seq<Fleet>, i: nat)
    requires FleetRun(fs) && i + 1 < |fs| && FleetTold(fs[i])
    ensures FleetTold(fs[i + 1])
  {
    FleetRunOk(fs, i);
    StopRuns.StopsRunOk(fs, i);
    var rid, ev := StopRuns.StepOf(fs, i);
    FleetTells(fs[i], rid, ev, StopRuns.RefusedBefore(fs, i));
  }

  /** Once a job is posted finished, everything before it was told, each thing once and in order. */
  lemma FinishedToldAll(fs: seq<Fleet>, i: nat, j: JobId)
    requires FleetRun(fs) && i < |fs| && RFinished in PostsOf(fs[i], j)
    ensures j in fs[i].home && fs[i].home[j] in fs[i].runners
    ensures Told(PostsOf(fs[i], j)) == Stopped(fs[i].runners[fs[i].home[j]].kind) + [RFinished]
  {
    RunTells(fs, i);
    assert JobTold(fs[i], j);
    ToldHasAll(PostsOf(fs[i], j), RFinished);
  }

  lemma {:induction false} ToldHasAll(posts: seq<RunnerState>, state: RunnerState)
    requires state in posts && !state.RFailed?
    ensures state in Told(posts)
  {
    var n := |posts| - 1;
    if posts[n] != state {
      var k :| 0 <= k < |posts| && posts[k] == state;
      assert posts[..n][k] == state;
      ToldHasAll(posts[..n], state);
    }
  }

  /** Each message the connector takes becomes a task of its own, and no other is taken until this one has ended. */
  lemma MessageBecomesTask(fs: seq<Fleet>, i: nat, rid: int, ev: Event)
    requires FleetRun(fs) && i < |fs| && FleetEnabled(fs[i], rid, ev) && (ev.RecvStart? || ev.RecvStop?)
    ensures var r, r' := fs[i].runners[rid], FleetStep(fs[i], rid, ev).runners[rid];
      && r.nextTask !in r.tasks && r'.tasks - {r.nextTask} == r.tasks && r'.handling == Some(r.nextTask)
      && r.nextTask in r'.tasks
      && r'.tasks[r.nextTask] == if ev.RecvStart? then Start(ev.job, SLock) else Stop(ev.job, TLock)
    ensures forall next: Event | next.RecvStart? || next.RecvStop? ::
      !Enabled(FleetStep(fs[i], rid, ev).runners[rid], next)
  {
    FleetRunOk(fs, i);
    var r := fs[i].runners[rid];
    assert r.nextTask !in r.tasks;
  }

  // ----- How tasks end -----

  // The task is over and the process is not.
  ghost predicate TaskEnds(f: Fleet, f': Fleet, rid: int, t: nat) {
    && rid in f.runners && rid in f'.runners && f'.runners[rid].alive
    && t in f.runners[rid].tasks && t !in f'.runners[rid].tasks
  }

  ghost predicate Stored(r: Runner, j: JobId) {
    r.slot.Some? && r.slot.value.job == j
  }

  lemma EndsOnItsStep(f: Fleet, rid: int, ev: Event, q: int, t: nat)
    requires FleetEnabled(f, rid, ev) && TaskEnds(f, FleetStep(f, rid, ev), q, t)
    ensures q == rid && ev.Advance? && ev.task == t
  {}

  lemma StartEnding(r: Runner, t: nat, job: JobId, spc: StartPc, ok: bool)
    requires r.alive && t in r.tasks && r.tasks[t] == Start(job, spc)
    requires var r' := AdvanceStart(r, t, job, spc, ok).r; t !in r'.tasks && r'.alive
    ensures var eff := AdvanceStart(r, t, job, spc, ok);
      if spc.SStore? then Stored(eff.r, job) && eff.post.None?
      else eff.post == Some(Post(job, RFailed)) && eff.r.slot == r.slot
  {}

  /**
   In every run, a start task that ends while its process lives has either put the job into the slot, with
   everything up to ready posted, or its last word on the job is failed.
   */
  lemma EveryStartReports(fs: seq<Fleet>, i: nat, rid: int, t: nat)
    requires FleetRun(fs) && i + 1 < |fs| && TaskEnds(fs[i], fs[i + 1], rid, t)
    requires fs[i].runners[rid].tasks[t].Start?
    ensures var j, r, r' := fs[i].runners[rid].tasks[t].job, fs[i].runners[rid], fs[i + 1].runners[rid];
      if r.tasks[t].spc.SStore?
      then Stored(r', j) && Told(PostsOf(fs[i + 1], j)) == Up(r'.kind)
      else PostsOf(fs[i + 1], j) == PostsOf(fs[i], j) + [RFailed] && r'.slot == r.slot
  {
    var q, ev := StopRuns.StepOf(fs, i);
    EndsOnItsStep(fs[i], q, ev, rid, t);
    var r := fs[i].runners[rid];
    StartEnding(r, t, r.tasks[t].job, r.tasks[t].spc, ev.how.Fine?);
    RunTells(fs, i + 1);
  }

  // A stop ends without a word only when something panics under it.
  ghost predicate Breaks(r: Runner, tpc: StopPc, how: How) {
    match tpc
    case TKill(e) => how.Panics? || (e < |r.envs| && r.envs[e].childAlive && how.Errs?)
    case TJoinSocket(_) => !how.Fine?
    case TSendShutdown(e) => e < |r.envs| && !r.envs[e].streamer.Streaming?
    case TJoinStreamer(e) => e < |r.envs| && !r.envs[e].streamer.StreamerDone?
    case TDownProxies(_) => how.Panics?
    case _ => false
  }

  function LastWord(job: JobId, tpc: StopPc, broken: bool): Option<Post> {
    if broken then None else Some(Post(job, if tpc.TPostFinished? then RFinished else RFailed))
  }

  lemma StopEnding(r: Runner, t: nat, job: JobId, tpc: StopPc, how: How)
    requires r.alive && t in r.tasks && r.tasks[t] == Stop(job, tpc)
    requires CarriedBy(Stop(job, tpc)).Some? ==> CarriedBy(Stop(job, tpc)).value < |r.envs|
    ensures var eff := AdvanceStop(r, t, job, tpc, how);
      && (!eff.r.alive <==> Breaks(r, tpc, how) && r.handling == Some(t))
      && (t !in eff.r.tasks && eff.r.alive ==> eff.post == LastWord(job, tpc, Breaks(r, tpc, how)))
      && (t !in eff.r.tasks && eff.r.alive && !Breaks(r, tpc, how) ==>
        tpc.TPostFinished? || tpc.TRefuse? || tpc.TFail?)
  {}

  /**
   In every run, a stop task that ends while its process lives has posted finished, or failed because it was
   refused or could not unmount; only a stop of the streamer that something panics under says nothing.
   */
  lemma EveryStopReports(fs: seq<Fleet>, i: nat, q: int, ev: Event, rid: int, t: nat)
    requires FleetRun(fs) && i + 1 < |fs| && TaskEnds(fs[i], fs[i + 1], rid, t)
    requires FleetEnabled(fs[i], q, ev) && fs[i + 1] == FleetStep(fs[i], q, ev)
    requires fs[i].runners[rid].tasks[t].Stop?
    ensures q == rid && ev.Advance? && ev.task == t
    ensures var r, j, tpc := fs[i].runners[rid], fs[i].runners[rid].tasks[t].job, fs[i].runners[rid].tasks[t].tpc;
      && (tpc.TPostFinished? ==> PostsOf(fs[i + 1], j) == PostsOf(fs[i], j) + [RFinished])
      && (tpc.TRefuse? || tpc.TFail? ==> PostsOf(fs[i + 1], j) == PostsOf(fs[i], j) + [RFailed])
      && (!tpc.TPostFinished? && !tpc.TRefuse? && !tpc.TFail? ==>
        PostsOf(fs[i + 1], j) == PostsOf(fs[i], j) && r.handling != Some(t) && Breaks(r, tpc, ev.how))
  {
    EndsOnItsStep(fs[i], q, ev, rid, t);
    FleetRunOk(fs, i);
    var r := fs[i].runners[rid];
    StopEnding(r, t, r.tasks[t].job, r.tasks[t].tpc, ev.how);
  }

  // ----- What decides how a start and a stop go on -----

  // The slot is taken, or a call before the container is up comes back with an error.
  predicate StartIsLost(r: Runner, spc: StartPc, how: How) {
    || (spc.SCheckSlot? && r.slot.Some?)
    || (!how.Fine? && (spc.SFindEnv? || spc.SAllocate? || (spc.SSpawn? && r.kind.Nspawn?)))
  }

  /** A start gives up exactly when the slot is taken or a call fails; without its socket the process ends. */
  lemma StartFailsExactly(fs: seq<Fleet>, i: nat, rid: int, t: nat, how: How)
    requires FleetRun(fs) && i < |fs| && FleetEnabled(fs[i], rid, Advance(t, how))
    requires fs[i].runners[rid].tasks[t].Start? && !fs[i].runners[rid].tasks[t].spc.SFail?
    ensures var r, r' := fs[i].runners[rid], FleetStep(fs[i], rid, Advance(t, how)).runners[rid];
      && (t in r'.tasks && r'.tasks[t].Start? && r'.tasks[t].spc.SFail? <==> StartIsLost(r, r.tasks[t].spc, how))
      && (!r'.alive <==> r.tasks[t].spc.SOpenSocket? && !how.Fine?)
  {}

  /** A stop is refused exactly when the slot does not hold its job, and gives up exactly on a failing unmount. */
  lemma StopFailsExactly(fs: seq<Fleet>, i: nat, rid: int, t: nat, how: How)
    requires FleetRun(fs) && i < |fs| && FleetEnabled(fs[i], rid, Advance(t, how)) && fs[i].runners[rid].tasks[t].Stop?
    requires !fs[i].runners[rid].tasks[t].tpc.TRefuse? && !fs[i].runners[rid].tasks[t].tpc.TFail?
    ensures var r, r' := fs[i].runners[rid], FleetStep(fs[i], rid, Advance(t, how)).runners[rid];
      && (t in r'.tasks && r'.tasks[t].Stop? && r'.tasks[t].tpc.TRefuse? <==>
        r.tasks[t].tpc.TCheckSlot? && !Stored(r, r.tasks[t].job))
      && (t in r'.tasks && r'.tasks[t].Stop? && r'.tasks[t].tpc.TFail? <==> r.tasks[t].tpc.TUnmount? && !how.Fine?)
      && (!r'.alive <==> Breaks(r, r.tasks[t].tpc, how) && r.handling == Some(t))
  {
    FleetRunOk(fs, i);
    var r := fs[i].runners[rid];
    StopEnding(r, t, r.tasks[t].job, r.tasks[t].tpc, how);
    StopBranches(r, t, r.tasks[t].job, r.tasks[t].tpc, how);
  }

  // A crash from outside, a start without its socket, and a stop of the connector that something panics under.
  ghost predicate EndsProcess(r: Runner, ev: Event)
    requires Enabled(r, ev)
  {
    || ev.Crash?
    || (ev.Advance? && r.tasks[ev.task].Start? && r.tasks[ev.task].spc.SOpenSocket? && !ev.how.Fine?)
    || (ev.Advance? && r.tasks[ev.task].Stop? && r.handling == Some(ev.task) && Breaks(r, r.tasks[ev.task].tpc, ev.how))
  }

  /** What ends a runner process: then its tasks and its slot are gone, it says nothing, and what it started stays. */
  lemma ProcessEndsExactly(fs: seq<Fleet>, i: nat, rid: int, ev: Event)
    requires FleetRun(fs) && i < |fs| && FleetEnabled(fs[i], rid, ev)
    ensures var r, f' := fs[i].runners[rid], FleetStep(fs[i], rid, ev);
      && (!f'.runners[rid].alive <==> EndsProcess(r, ev))
      && (EndsProcess(r, ev) ==>
        && f'.runners[rid].tasks == map[] && f'.runners[rid].slot.None? && f'.runners[rid].envs == r.envs
        && f'.posts == fs[i].posts)
  {
    FleetRunOk(fs, i);
    var r := fs[i].runners[rid];
    if ev.Advance? && r.tasks[ev.task].Stop? {
      StopEnding(r, ev.task, r.tasks[ev.task].job, r.tasks[ev.task].tpc, ev.how);
      if EndsProcess(r, ev) { DeadIsDead(r, ev.task, ev.how); }
    }
  }

  lemma StopBranches(r: Runner, t: nat, job: JobId, tpc: StopPc, how: How)
    requires t in r.tasks && r.tasks[t] == Stop(job, tpc) && !tpc.TRefuse? && !tpc.TFail?
    requires CarriedBy(Stop(job, tpc)).Some? ==> CarriedBy(Stop(job, tpc)).value < |r.envs|
    requires r.slot.Some? ==> r.slot.value.env < |r.envs|
    ensures var r' := AdvanceStop(r, t, job, tpc, how).r;
      && (t in r'.tasks && r'.tasks[t].Stop? && r'.tasks[t].tpc.TRefuse? <==> tpc.TCheckSlot? && !Stored(r, job))
      && (t in r'.tasks && r'.tasks[t].Stop? && r'.tasks[t].tpc.TFail? <==> tpc.TUnmount? && !how.Fine?)
  {}

  // The steps of a start that goes well, counted: only nspawn allocates a file system.
  function StartRank(kind: Kind, spc: StartPc): nat {
    match spc
    case SLock => 0
    case SCheckSlot => 1
    case SFindEnv => 2
    case SPostAllocating => 3
    case SAllocate => 4
    case SOpenSocket => if kind.Nspawn? then 5 else 3
    case SPostBooting => if kind.Nspawn? then 6 else 4
    case SSpawn => if kind.Nspawn? then 7 else 5
    case SPostReady(_) => if kind.Nspawn? then 8 else 6
    case SStore(_) => if kind.Nspawn? then 9 else 7
    case SFail => 10
  }

  // The steps of a stop that has the job: only nspawn has a child to kill and a mount.
  function StopRank(kind: Kind, tpc: StopPc): nat {
    match tpc
    case TLock => 0
    case TCheckSlot => 1
    case TPostStopping(_) => 2
    case TLockChild(_) => 3
    case TKill(_) => 4
    case TJoinSocket(_) => if kind.Nspawn? then 5 else 3
    case TSendShutdown(_) => if kind.Nspawn? then 6 else 4
    case TJoinStreamer(_) => if kind.Nspawn? then 7 else 5
    case TDownProxies(_) => if kind.Nspawn? then 8 else 6
    case TUnmount(_) => 9
    case TUnlock(_) => if kind.Nspawn? then 10 else 7
    case TPostFinished(_) => if kind.Nspawn? then 11 else 8
    case TRefuse => 12
    case TFail => 13
  }

  ghost predicate StartGoesOn(r: Runner, t: nat, job: JobId, spc: StartPc, r': Runner) {
    && (spc.SStore? ==> t !in r'.tasks && Stored(r', job))
    && (!spc.SStore? ==>
      t in r'.tasks && r'.tasks[t].Start? && StartRank(r.kind, r'.tasks[t].spc) == StartRank(r.kind, spc) + 1)
  }

  lemma OnlyNspawnAllocates(r: Runner, told: JobId -> seq<RunnerState>, t: nat)
    requires RunnerTold(r, told) && t in r.tasks && r.tasks[t].Start?
    requires r.tasks[t].spc.SPostAllocating? || r.tasks[t].spc.SAllocate?
    ensures r.kind.Nspawn?
  {
    assert TaskTold(r.kind, r.tasks[t], told(r.tasks[t].job));
  }

  lemma StartStepsOn(r: Runner, t: nat, job: JobId, spc: StartPc, how: How)
    requires t in r.tasks && r.tasks[t] == Start(job, spc) && !spc.SFail? && !StartIsLost(r, spc, how)
    requires spc.SPostAllocating? || spc.SAllocate? ==> r.kind.Nspawn?
    ensures var r' := AdvanceStart(r, t, job, spc, how.Fine?).r; r'.alive ==> StartGoesOn(r, t, job, spc, r')
  {}

  /** A start that is not lost goes on to the very next step, and its last one stores the job. */
  lemma StartSkipsNothing(fs: seq<Fleet>, i: nat, rid: int, t: nat, how: How)
    requires FleetRun(fs) && i < |fs| && FleetEnabled(fs[i], rid, Advance(t, how))
    requires fs[i].runners[rid].tasks[t].Start? && !fs[i].runners[rid].tasks[t].spc.SFail?
    ensures var r, r' := fs[i].runners[rid], FleetStep(fs[i], rid, Advance(t, how)).runners[rid];
      r'.alive && !StartIsLost(r, r.tasks[t].spc, how) ==> StartGoesOn(r, t, r.tasks[t].job, r.tasks[t].spc, r')
  {
    RunTells(fs, i);
    var r := fs[i].runners[rid];
    if r.tasks[t].spc.SPostAllocating? || r.tasks[t].spc.SAllocate? { OnlyNspawnAllocates(r, ToldOf(fs[i]), t); }
    if !StartIsLost(r, r.tasks[t].spc, how) { StartStepsOn(r, t, r.tasks[t].job, r.tasks[t].spc, how); }
  }

  // Where a stop that nothing panics under goes on.
  ghost predicate GoesOn(r: Runner, t: nat, job: JobId, tpc: StopPc, how: How, r': Runner) {
    if tpc.TPostFinished? || tpc.TRefuse? || tpc.TFail? then t !in r'.tasks
    else if (tpc.TCheckSlot? && !Stored(r, job)) || (tpc.TUnmount? && !how.Fine?) then
      t in r'.tasks && r'.tasks[t] == Stop(job, if tpc.TCheckSlot? then TRefuse else TFail)
    else if tpc.TKill? && tpc.env < |r.envs| == |r'.envs| && r.envs[tpc.env].childAlive then
      t in r'.tasks && r'.tasks[t] == Stop(job, tpc) && !r'.envs[tpc.env].childAlive
    else if tpc.TJoinSocket? && tpc.env < |r.envs| && r.envs[tpc.env].streamer.NoStreamer? then
      t in r'.tasks && r'.tasks[t] == Stop(job, TUnlock(tpc.env))
    else
      t in r'.tasks && r'.tasks[t].Stop? && StopRank(r.kind, r'.tasks[t].tpc) == StopRank(r.kind, tpc) + 1
  }

  lemma StopGoesOn(r: Runner, t: nat, job: JobId, tpc: StopPc, how: How)
    requires t in r.tasks && r.tasks[t] == Stop(job, tpc) && !Breaks(r, tpc, how)
    requires CarriedBy(Stop(job, tpc)).Some? ==> CarriedBy(Stop(job, tpc)).value < |r.envs|
    requires CarriedBy(Stop(job, tpc)).Some? ==>
      RunnerProofs.StageOk(r.kind, r.tasks[t], r.envs[CarriedBy(Stop(job, tpc)).value])
    requires r.slot.Some? ==> r.slot.value.env < |r.envs|
    ensures GoesOn(r, t, job, tpc, how, AdvanceStop(r, t, job, tpc, how).r)
  {}

  /**
   A stop that nothing panics under goes on to the very next step, kills until the child is dead, and leaves
   out the streamer and the proxies only where there is no console.
   */
  lemma StopSkipsNothing(fs: seq<Fleet>, i: nat, rid: int, t: nat, how: How)
    requires FleetRun(fs) && i < |fs| && FleetEnabled(fs[i], rid, Advance(t, how)) && fs[i].runners[rid].tasks[t].Stop?
    requires !Breaks(fs[i].runners[rid], fs[i].runners[rid].tasks[t].tpc, how)
    ensures var r := fs[i].runners[rid];
      GoesOn(r, t, r.tasks[t].job, r.tasks[t].tpc, how, FleetStep(fs[i], rid, Advance(t, how)).runners[rid])
  {
    FleetRunOk(fs, i);
    var r := fs[i].runners[rid];
    assert RunnerProofs.OwnershipOk(r);
    StopGoesOn(r, t, r.tasks[t].job, r.tasks[t].tpc, how);
  }

  /**
   The streamer's exit detection: an end of file asks for a stop of the job exactly when the child has exited
   and no stop holds it; that stop is the streamer's own, and everyone else goes on.
   */
  lemma ExitAsksForStop(fs: seq<Fleet>, i: nat, rid: int, e: nat, stdout: bool)
    requires FleetRun(fs) && i < |fs| && FleetEnabled(fs[i], rid, StreamerEof(e, stdout))
    ensures var r, r' := fs[i].runners[rid], FleetStep(fs[i], rid, StreamerEof(e, stdout)).runners[rid];
      && r'.tasks - {r.nextTask} == r.tasks && r'.handling == r.handling
      && (r.nextTask in r'.tasks <==> r.kind.Nspawn? && !r.envs[e].childAlive && !r.envs[e].childLocked)
      && (r.nextTask in r'.tasks ==> r'.tasks[r.nextTask] == Stop(r.envs[e].job, TLock))
  {
    FleetRunOk(fs, i);
    var r := fs[i].runners[rid];
    assert r.nextTask !in r.tasks;
  }

  // ----- What a start brings up -----

  /**
   A start that has spawned has a new environment with its socket and its proxies up: under nspawn with a
   living child, a mount and a streamer that reads both its outputs; under netboot with a streamer when there
   is a console. Nothing else changes.
   */
  lemma SpawnBringsUp(fs: seq<Fleet>, i: nat, rid: int, t: nat, how: How)
    requires FleetRun(fs) && i < |fs| && FleetEnabled(fs[i], rid, Advance(t, how))
    requires fs[i].runners[rid].tasks[t].Start? && fs[i].runners[rid].tasks[t].spc.SSpawn?
    ensures var r, r' := fs[i].runners[rid], FleetStep(fs[i], rid, Advance(t, how)).runners[rid];
      if r.kind.Nspawn? && !how.Fine? then r'.envs == r.envs
      else
        && |r'.envs| == |r.envs| + 1 && r'.envs[..|r.envs|] == r.envs
        && IsUp(r.kind, r'.envs[|r.envs|], how.Fine?) && r'.envs[|r.envs|].job == r.tasks[t].job
  {}

  predicate IsUp(kind: Kind, env: Env, ok: bool) {
    && env.socketUp && env.proxiesUp && !env.childLocked && !env.senderGone
    && (kind.Nspawn? ==> env.childAlive && env.mounted && Reads(env.streamer) && !env.streamer.errClosed)
    && (kind.Netboot? ==> (Reads(env.streamer) <==> ok) && (env.streamer.NoStreamer? <==> !ok))
  }
}
