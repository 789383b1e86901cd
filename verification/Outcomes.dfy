/** What a completion code in the database says about the runner that had the job. */
module Outcomes {
  import opened Common
  import opened Jobs
  import opened UpdateTable
  import opened Coordinator
  import Runner
  import RunnerProofs
  import opened Fleet
  import opened Composition
  import opened Agreement
  import ServerSteps
  import SystemInvariant
  import Stops

  // ----- A runner that posted `finished` has let everything go -----

  ghost predicate TornDownAt(r: Runner.Runner, j: JobId, e: nat) {
    e < |r.envs| && r.envs[e].job == j && r.envs[e].taken == 1 && RunnerProofs.ReleasedBy(r.kind, r.envs[e])
  }

  ghost predicate TornDown(f: Fleet, j: JobId) {
    exists rid, e: nat :: rid in f.runners && TornDownAt(f.runners[rid], j, e)
  }

  ghost predicate FinishedTornDown(f: Fleet) {
    forall j | RFinished in PostsOf(f, j) :: TornDown(f, j)
  }

  lemma StaysTornDown(r: Runner.Runner, ev: Runner.Event, j: JobId, e: nat)
    requires RunnerProofs.RunnerOk(r) && Runner.Enabled(r, ev) && TornDownAt(r, j, e)
    ensures TornDownAt(Runner.Step(r, ev).r, j, e)
  {
    if ev.Advance? {
      match r.tasks[ev.task]
      case Start(job, spc) => StartKeepsTornDown(r, ev.task, job, spc, ev.how.Fine?, j, e);
      case Stop(job, tpc) => StopKeepsTornDown(r, ev.task, job, tpc, ev.how, j, e);
    } else {
      OtherKeepsTornDown(r, ev, j, e);
    }
  }

  lemma StartKeepsTornDown(r: Runner.Runner, t: nat, job: JobId, spc: Runner.StartPc, ok: bool, j: JobId, e: nat)
    requires TornDownAt(r, j, e)
    ensures TornDownAt(Runner.AdvanceStart(r, t, job, spc, ok).r, j, e)
  {}

  // A stop only takes a stored job that nobody has taken yet.
  lemma StopKeepsTornDown(r: Runner.Runner, t: nat, job: JobId, tpc: Runner.StopPc, how: Runner.How, j: JobId, e: nat)
    requires TornDownAt(r, j, e)
    requires var carried := Runner.CarriedBy(Runner.Stop(job, tpc));
      carried.Some? ==>
        carried.value < |r.envs| && RunnerProofs.StageOk(r.kind, Runner.Stop(job, tpc), r.envs[carried.value])
    requires r.slot.Some? && r.slot.value.env < |r.envs| ==> r.envs[r.slot.value.env].taken == 0
    ensures TornDownAt(Runner.AdvanceStop(r, t, job, tpc, how).r, j, e)
  {}

  lemma OtherKeepsTornDown(r: Runner.Runner, ev: Runner.Event, j: JobId, e: nat)
    requires Runner.Enabled(r, ev) && !ev.Advance? && TornDownAt(r, j, e)
    ensures TornDownAt(Runner.Step(r, ev).r, j, e)
  {}

  lemma FinishedIsTornDown(r: Runner.Runner, ev: Runner.Event)
    requires RunnerProofs.RunnerOk(r) && Runner.Enabled(r, ev)
    requires Runner.Step(r, ev).post.Some? && Runner.Step(r, ev).post.value.state.RFinished?
    ensures exists e: nat :: TornDownAt(Runner.Step(r, ev).r, Runner.Step(r, ev).post.value.job, e)
  {
    RunnerProofs.FinishedAfterRelease(r, ev);
    var e := Runner.CarriedBy(r.tasks[ev.task]).value;
    assert TornDownAt(Runner.Step(r, ev).r, Runner.Step(r, ev).post.value.job, e);
  }

  lemma TornDownStays(f: Fleet, rid: int, ev: Runner.Event, j: JobId)
    requires FleetOk(f) && TornDown(f, j) && FleetEnabled(f, rid, ev)
    ensures TornDown(FleetStep(f, rid, ev), j)
  {
    var q, e: nat :| q in f.runners && TornDownAt(f.runners[q], j, e);
    if q == rid { StaysTornDown(f.runners[q], ev, j, e); }
    assert TornDownAt(FleetStep(f, rid, ev).runners[q], j, e);
  }

  lemma NewlyFinished(f: Fleet, rid: int, ev: Runner.Event, j: JobId)
    requires FleetEnabled(f, rid, ev)
    requires RFinished in PostsOf(FleetStep(f, rid, ev), j) && RFinished !in PostsOf(f, j)
    ensures Runner.Step(f.runners[rid], ev).post == Some(Runner.Post(j, RFinished))
  {}

  lemma FleetStepTornDown(f: Fleet, rid: int, ev: Runner.Event)
    requires FleetOk(f) && FinishedTornDown(f) && FleetEnabled(f, rid, ev)
    ensures FinishedTornDown(FleetStep(f, rid, ev))
  {
    var f' := FleetStep(f, rid, ev);
    forall j | RFinished in PostsOf(f', j) ensures TornDown(f', j) {
      if RFinished in PostsOf(f, j) {
        TornDownStays(f, rid, ev, j);
      } else {
        NewlyFinished(f, rid, ev, j);
        FinishedIsTornDown(f.runners[rid], ev);
        var e: nat :| TornDownAt(Runner.Step(f.runners[rid], ev).r, j, e);
        assert TornDownAt(f'.runners[rid], j, e);
      }
    }
  }

  // ----- What stands behind each code -----

  // A post of the job that said so was delivered.
  ghost predicate Reported(x: Joint, j: JobId, state: RunnerState) {
    exists n: nat :: n < Done(x, j) && n < |PostsOf(x.f, j)| && PostsOf(x.f, j)[n] == state
  }

  // Between the two states a server lost its runner while the job was active.
  ghost predicate CutOffNow(x: Joint, x': Joint, j: JobId) {
    exists p :: p in x.w.servers && p in x'.w.servers && j in x.w.servers[p].active
      && x.w.servers[p].runner.Some? && x'.w.servers[p].runner.None?
  }

  // Between the two states a tick gave the job up, and no post of it had been delivered.
  ghost predicate GivenUpNow(x: Joint, x': Joint, j: JobId) {
    Done(x, j) == 0
    && exists p :: DropsInTick(x.w, x'.w, p, j)
  }

  ghost predicate DropsInTick(w: World, w': World, p: Pid, j: JobId) {
    && p in w.servers && p in w'.servers && w.servers[p].pc.Supervising?
    && j in w.servers[p].active && j !in w'.servers[p].active
  }

  ghost predicate WasCutOff(xs: seq<Joint>, i: nat, j: JobId)
    requires i < |xs|
  {
    exists k: nat :: k < i && CutOffNow(xs[k], xs[k + 1], j)
  }

  ghost predicate WasGivenUp(xs: seq<Joint>, i: nat, j: JobId)
    requires i < |xs|
  {
    exists k: nat :: k < i && GivenUpNow(xs[k], xs[k + 1], j)
  }

  // Between the two states a server that had just registered for its board closed the job's row, which an
  // earlier server had left dispatched and without a code.
  ghost predicate SweptNow(x: Joint, x': Joint, j: JobId) {
    && j in x.w.sh.rows && j in x'.w.sh.rows
    && x.w.sh.rows[j].dispatched && x.w.sh.rows[j].code == None && x'.w.sh.rows[j].code == Some(ServerCrashed)
    && exists p :: FinishesInit(x.w, x'.w, p, x.w.sh.rows[j].board)
  }

  ghost predicate FinishesInit(w: World, w': World, p: Pid, b: BoardId) {
    && p in w.servers && w.servers[p].board == b && w.servers[p].pc.Booting?
    && p in w'.servers && w'.servers[p].pc.Idle?
  }

  ghost predicate WasSwept(xs: seq<Joint>, i: nat, j: JobId)
    requires i < |xs|
  {
    exists k: nat :: k < i && SweptNow(xs[k], xs[k + 1], j)
  }

  // The jobs for which each code is justified.
  datatype Grounds = Grounds(
    finished: iset<JobId>, failed: iset<JobId>, timedOut: iset<JobId>, swept: iset<JobId>)

  ghost predicate CodeOk(g: Grounds, j: JobId, code: CompletionCode) {
    match code
    case Finished => j in g.finished
    case Failed => j in g.failed
    case RunnerTimeout => j in g.timedOut
    case ServerCrashed => j in g.swept
    case _ => false
  }

  ghost predicate RowCodesOk(rows: Rows, g: Grounds) {
    forall j | j in rows && rows[j].code.Some? :: CodeOk(g, j, rows[j].code.value)
  }

  ghost predicate PcCodesOk(pc: Pc, g: Grounds) {
    pc.Completing? ==> forall k | 0 <= k < |pc.jobs| :: CodeOk(g, pc.jobs[k], pc.code)
  }

  // Codes written, and codes about to be written.
  ghost predicate CodesOk(w: World, g: Grounds) {
    RowCodesOk(w.sh.rows, g) && forall p | p in w.servers :: PcCodesOk(w.servers[p].pc, g)
  }

  // The action brings its own grounds for what it completes.
  ghost predicate Grounded(srv: Server, a: Action, g: Grounds) {
    match a
    case UpdateState(job, posted, _) =>
      (posted.RFinished? ==> job in g.finished) && (posted.RFailed? ==> job in g.failed)
    case Down(conn, keys) => srv.runner == Some(conn) ==> forall k | 0 <= k < |keys| :: keys[k] in g.failed
    case Supervise(now) => GivesUp(srv, now) ==> srv.pc.rest[0].0 in g.timedOut
    case _ => true
  }

  predicate GivesUp(srv: Server, now: Time) {
    && srv.pc.Supervising? && srv.pc.rest != []
    && srv.pc.rest[0].1.WaitForStart? && srv.pc.rest[0].1.since + 5 * Second < now
  }

  lemma ServerCodes(sh: Shared, pid: Pid, srv: Server, a: Action, g: Grounds)
    requires Enabled(sh, srv, a) && RowCodesOk(sh.rows, g) && PcCodesOk(srv.pc, g) && Grounded(srv, a, g)
    ensures RowCodesOk(ServerStep(sh, pid, srv, a).sh.rows, g)
    ensures ServerStep(sh, pid, srv, a).Continue? ==> PcCodesOk(ServerStep(sh, pid, srv, a).srv.pc, g)
  {}

  lemma StepCodes(w: World, s: Step, g: Grounds)
    requires Possible(w, s) && CodesOk(w, g) && (s.Run? ==> Grounded(w.servers[s.p], s.a, g))
    requires s.SweepRows? ==> forall j | j in Open(w.sh.rows, w.servers[s.p].board) :: j in g.swept
    ensures CodesOk(Apply(w, s), g)
  {
    if s.Run? { ServerCodes(w.sh, s.p, w.servers[s.p], s.a, g); }
  }

  // ----- The grounds a run has given so far -----

  ghost function GroundsAt(xs: seq<Joint>, i: nat): Grounds
    requires i < |xs|
  {
    Grounds(
      iset j | Reported(xs[i], j, RFinished),
      iset j | Reported(xs[i], j, RFailed) || WasCutOff(xs, i, j),
      iset j | WasGivenUp(xs, i, j),
      iset j | WasSwept(xs, i, j))
  }

  ghost predicate Fewer(g: Grounds, g': Grounds) {
    g.finished <= g'.finished && g.failed <= g'.failed && g.timedOut <= g'.timedOut && g.swept <= g'.swept
  }

  lemma MoreGrounds(w: World, g: Grounds, g': Grounds)
    requires CodesOk(w, g) && Fewer(g, g')
    ensures CodesOk(w, g')
  {}

  lemma ReportedStays(x: Joint, st: JointStep, j: JobId, state: RunnerState)
    requires JointInv(x) && JointPossible(x, st) && Reported(x, j, state)
    ensures Reported(JointApply(x, st), j, state)
  {
    if st.Act? { StepPosts(x.f, st.rid, st.ev, j); }
    var n: nat :| n < Done(x, j) && n < |PostsOf(x.f, j)| && PostsOf(x.f, j)[n] == state;
    assert n < Done(JointApply(x, st), j);
  }

  lemma GroundsGrow(xs: seq<Joint>, i: nat, st: JointStep)
    requires i + 1 < |xs| && JointInv(xs[i]) && JointPossible(xs[i], st) && xs[i + 1] == JointApply(xs[i], st)
    ensures Fewer(GroundsAt(xs, i), GroundsAt(xs, i + 1))
  {
    forall j, state | Reported(xs[i], j, state) ensures Reported(xs[i + 1], j, state) {
      ReportedStays(xs[i], st, j, state);
    }
    forall j | WasCutOff(xs, i, j) ensures WasCutOff(xs, i + 1, j) {}
    forall j | WasGivenUp(xs, i, j) ensures WasGivenUp(xs, i + 1, j) {}
    forall j | WasSwept(xs, i, j) ensures WasSwept(xs, i + 1, j) {}
  }

  // A disconnect cuts every active job off.
  lemma DownCutsOff(x: Joint, p: Pid, conn: Pid, keys: seq<JobId>, j: JobId)
    requires Possible(x.w, Run(p, Down(conn, keys))) && x.w.servers[p].runner == Some(conn) && j in keys
    ensures CutOffNow(x, x.(w := Apply(x.w, Run(p, Down(conn, keys)))), j)
  {
    PopAllSucceeds(x.w.servers[p].active, keys);
    assert j in Elems(keys);
    assert p in Apply(x.w, Run(p, Down(conn, keys))).servers;
  }

  lemma WaitingIsSilent(posts: seq<RunnerState>)
    requires PhaseAfter(posts).PWait?
    ensures posts == []
  {}

  // A tick only gives up a job nothing was heard of.
  lemma SuperviseGivesUp(x: Joint, p: Pid, now: Time)
    requires JointInv(x) && Possible(x.w, Run(p, Supervise(now))) && GivesUp(x.w.servers[p], now)
    ensures GivenUpNow(x, x.(w := Apply(x.w, Run(p, Supervise(now)))), x.w.servers[p].pc.rest[0].0)
  {
    var srv := x.w.servers[p];
    var j := srv.pc.rest[0].0;
    assert SystemInvariant.ServerOk(x.w, p);
    ServerSteps.PopOne(srv.active, j);
    WaitingIsSilent(PostsOf(x.f, j)[..Done(x, j)]);
    var w' := Apply(x.w, Run(p, Supervise(now)));
    assert DropsInTick(x.w, w', p, j);
  }

  // The sweep closes exactly what it finds open.
  lemma SweepCloses(x: Joint, p: Pid, j: JobId)
    requires Possible(x.w, SweepRows(p)) && j in Open(x.w.sh.rows, x.w.servers[p].board)
    ensures SweptNow(x, x.(w := Apply(x.w, SweepRows(p))), j)
  {
    assert FinishesInit(x.w, Apply(x.w, SweepRows(p)), p, x.w.sh.rows[j].board);
  }

  lemma SweepGrounded(xs: seq<Joint>, i: nat, p: Pid)
    requires i + 1 < |xs| && Possible(xs[i].w, SweepRows(p)) && xs[i + 1] == JointApply(xs[i], Coordinate(SweepRows(p)))
    ensures forall j | j in Open(xs[i].w.sh.rows, xs[i].w.servers[p].board) :: j in GroundsAt(xs, i + 1).swept
  {
    forall j | j in Open(xs[i].w.sh.rows, xs[i].w.servers[p].board) ensures WasSwept(xs, i + 1, j) {
      SweepCloses(xs[i], p, j);
    }
  }

  lemma CoordinateGrounded(xs: seq<Joint>, i: nat, s: Step)
    requires i + 1 < |xs| && JointInv(xs[i]) && JointPossible(xs[i], Coordinate(s))
    requires xs[i + 1] == JointApply(xs[i], Coordinate(s))
    ensures s.Run? ==> Grounded(xs[i].w.servers[s.p], s.a, GroundsAt(xs, i + 1))
  {
    if s.Run? && s.a.Down? && xs[i].w.servers[s.p].runner == Some(s.a.conn) {
      forall j | j in s.a.keys ensures WasCutOff(xs, i + 1, j) {
        DownCutsOff(xs[i], s.p, s.a.conn, s.a.keys, j);
      }
      assert forall k | 0 <= k < |s.a.keys| :: s.a.keys[k] in s.a.keys;
    }
    if s.Run? && s.a.Supervise? && GivesUp(xs[i].w.servers[s.p], s.a.now) {
      SuperviseGivesUp(xs[i], s.p, s.a.now);
      assert WasGivenUp(xs, i + 1, xs[i].w.servers[s.p].pc.rest[0].0);
    }
  }

  lemma DeliverGrounded(xs: seq<Joint>, i: nat, j: JobId, now: Time)
    requires i + 1 < |xs| && JointPossible(xs[i], Deliver(j, now)) && xs[i + 1] == JointApply(xs[i], Deliver(j, now))
    requires j in xs[i].w.sh.jobReg
    ensures Grounded(xs[i].w.servers[xs[i].w.sh.jobReg[j]], Deliver1(xs[i], j, now).a, GroundsAt(xs, i + 1))
  {
    assert Reported(xs[i + 1], j, PostsOf(xs[i].f, j)[Done(xs[i], j)]);
  }

  lemma JointStepCodes(xs: seq<Joint>, i: nat, st: JointStep)
    requires i + 1 < |xs| && JointInv(xs[i]) && JointPossible(xs[i], st) && xs[i + 1] == JointApply(xs[i], st)
    requires CodesOk(xs[i].w, GroundsAt(xs, i))
    ensures CodesOk(xs[i + 1].w, GroundsAt(xs, i + 1))
  {
    var g := GroundsAt(xs, i + 1);
    GroundsGrow(xs, i, st);
    MoreGrounds(xs[i].w, GroundsAt(xs, i), g);
    match st
    case Coordinate(s) =>
      CoordinateGrounded(xs, i, s);
      if s.SweepRows? { SweepGrounded(xs, i, s.p); }
      StepCodes(xs[i].w, s, g);
    case Act(_, _) =>
    case Deliver(j, now) =>
      if j in xs[i].w.sh.jobReg {
        DeliverGrounded(xs, i, j, now);
        StepCodes(xs[i].w, Deliver1(xs[i], j, now), g);
      }
  }

  ghost predicate OutcomesOk(xs: seq<Joint>, i: nat)
    requires i < |xs|
  {
    CodesOk(xs[i].w, GroundsAt(xs, i)) && FinishedTornDown(xs[i].f) && Stops.FleetEnvs(xs[i].f)
  }

  lemma {:induction false} RunCodes(xs: seq<Joint>, i: nat)
    requires JointRun(xs) && i < |xs|
    ensures OutcomesOk(xs, i)
  {
    if i > 0 {
      RunCodes(xs, i - 1);
      ReachedCodes(xs, i - 1);
    }
  }

  lemma ReachedCodes(xs: seq<Joint>, i: nat)
    requires JointRun(xs) && i + 1 < |xs| && OutcomesOk(xs, i)
    ensures OutcomesOk(xs, i + 1)
  {
    JointRunInv(xs, i);
    assert JointReaches(xs[i], xs[i + 1]);
    var st :| JointPossible(xs[i], st) && xs[i + 1] == JointApply(xs[i], st);
    JointStepCodes(xs, i, st);
    if st.Act? {
      FleetStepTornDown(xs[i].f, st.rid, st.ev);
      Stops.FleetEnvsKeep(xs[i].f, st.rid, st.ev);
    }
  }

  /**
   A row that says finished was reported finished by a runner, and whatever any runner brought up for the
   job is gone: child, socket, streamer, proxies and mount. Only under netboot without a console nobody
   shuts the proxies down.
   */
  lemma FinishedMeansReleased(xs: seq<Joint>, i: nat, j: JobId)
    requires JointRun(xs) && i < |xs| && j in xs[i].w.sh.rows && xs[i].w.sh.rows[j].code == Some(Finished)
    ensures Reported(xs[i], j, RFinished) && TornDown(xs[i].f, j)
    ensures forall rid, e: nat | rid in xs[i].f.runners && e < |xs[i].f.runners[rid].envs| ::
      xs[i].f.runners[rid].envs[e].job == j ==> TornDownAt(xs[i].f.runners[rid], j, e)
  {
    RunCodes(xs, i);
    assert CodeOk(GroundsAt(xs, i), j, Finished);
  }

  /**
   Why a row says failed, that its runner was too slow, or that its server crashed: a runner reported the
   failure or its connection was lost while the job was active; nothing had been heard of the job when a tick
   gave it up; a new server of the board found the row dispatched and without a code.
   */
  lemma FailuresHaveGrounds(xs: seq<Joint>, i: nat, j: JobId)
    requires JointRun(xs) && i < |xs| && j in xs[i].w.sh.rows
    ensures xs[i].w.sh.rows[j].code == Some(Failed) ==> Reported(xs[i], j, RFailed) || WasCutOff(xs, i, j)
    ensures xs[i].w.sh.rows[j].code == Some(RunnerTimeout) ==> WasGivenUp(xs, i, j)
    ensures xs[i].w.sh.rows[j].code == Some(ServerCrashed) ==> WasSwept(xs, i, j)
  {
    RunCodes(xs, i);
    if xs[i].w.sh.rows[j].code.Some? { assert CodeOk(GroundsAt(xs, i), j, xs[i].w.sh.rows[j].code.value); }
  }

  /** No run ever records that a job was cancelled, expired or aborted. */
  lemma OnlyFourCodes(xs: seq<Joint>, i: nat, j: JobId)
    requires JointRun(xs) && i < |xs| && j in xs[i].w.sh.rows && xs[i].w.sh.rows[j].code.Some?
    ensures var code := xs[i].w.sh.rows[j].code.value;
      code.ServerCrashed? || code.RunnerTimeout? || code.Finished? || code.Failed?
  {
    RunCodes(xs, i);
    assert CodeOk(GroundsAt(xs, i), j, xs[i].w.sh.rows[j].code.value);
  }
}
