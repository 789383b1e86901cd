/**
 Coordinator and runners together: runners only start jobs they were sent, their posts reach the board
 server in the order each job's were posted, and everything else may come between.
 */
module Composition {
  import opened Common
  import opened Jobs
  import opened UpdateTable
  import opened Coordinator
  import opened Agreement
  import opened ServerSteps
  import opened SystemInvariant
  import CoordinatorTheorems
  import Runner
  import opened Fleet

  // `delivered`: how many of a job's posts the coordinator has handled.
  datatype Joint = Joint(w: World, f: Fleet, delivered: map<JobId, nat>)

  datatype JointStep =
    | Coordinate(s: Step)
    | Act(rid: int, ev: Runner.Event)
    | Deliver(job: JobId, now: Time)

  function Done(x: Joint, j: JobId): nat {
    if j in x.delivered then x.delivered[j] else 0
  }

  ghost predicate JointPossible(x: Joint, st: JointStep) {
    match st
    // State updates come from runners only.
    case Coordinate(s) => Possible(x.w, s) && !(s.Run? && s.a.UpdateState?)
    case Act(rid, ev) =>
      && FleetEnabled(x.f, rid, ev)
      && (ev.RecvStart? || ev.RecvStop? ==> ev.job in SentJobs(x.w.sh.sent))
    case Deliver(j, now) =>
      && Done(x, j) < |PostsOf(x.f, j)|
      && (j in x.w.sh.jobReg ==> Possible(x.w, Deliver1(x, j, now)))
  }

  // update_job_state: look the job up, call its server.
  function Deliver1(x: Joint, j: JobId, now: Time): Step
    requires j in x.w.sh.jobReg && Done(x, j) < |PostsOf(x.f, j)|
  {
    Run(x.w.sh.jobReg[j], UpdateState(j, PostsOf(x.f, j)[Done(x, j)], now))
  }

  function JointApply(x: Joint, st: JointStep): Joint
    requires JointPossible(x, st)
  {
    match st
    case Coordinate(s) => x.(w := Apply(x.w, s))
    case Act(rid, ev) => x.(f := FleetStep(x.f, rid, ev))
    case Deliver(j, now) =>
      x.(w := if j in x.w.sh.jobReg then Apply(x.w, Deliver1(x, j, now)) else x.w,
         delivered := x.delivered[j := Done(x, j) + 1])
  }

  // ----- Only jobs that were sent turn up among the runners -----

  ghost predicate RunnerKnows(r: Runner.Runner, sent: set<JobId>) {
    && (forall t | t in r.tasks :: r.tasks[t].job in sent)
    && (forall e | 0 <= e < |r.envs| :: r.envs[e].job in sent)
  }

  ghost predicate FleetKnows(f: Fleet, sent: set<JobId>) {
    && f.posts.Keys <= sent
    && (forall rid | rid in f.runners :: RunnerKnows(f.runners[rid], sent))
  }

  lemma RunnerStepKnows(r: Runner.Runner, ev: Runner.Event, sent: set<JobId>)
    requires RunnerKnows(r, sent) && Runner.Enabled(r, ev)
    requires ev.RecvStart? || ev.RecvStop? ==> ev.job in sent
    ensures RunnerKnows(Runner.Step(r, ev).r, sent)
    ensures Runner.Step(r, ev).post.Some? ==> Runner.Step(r, ev).post.value.job in sent
  {
    if ev.Advance? {
      match r.tasks[ev.task]
      case Start(job, spc) => StartKnows(r, ev.task, job, spc, ev.how.Fine?, sent);
      case Stop(job, tpc) => StopKnows(r, ev.task, job, tpc, ev.how, sent);
    }
  }

  lemma StartKnows(r: Runner.Runner, t: nat, job: JobId, spc: Runner.StartPc, ok: bool, sent: set<JobId>)
    requires RunnerKnows(r, sent) && job in sent
    ensures RunnerKnows(Runner.AdvanceStart(r, t, job, spc, ok).r, sent)
    ensures var post := Runner.AdvanceStart(r, t, job, spc, ok).post; post.Some? ==> post.value.job in sent
  {}

  lemma StopKnows(r: Runner.Runner, t: nat, job: JobId, tpc: Runner.StopPc, how: Runner.How, sent: set<JobId>)
    requires RunnerKnows(r, sent) && job in sent
    requires Runner.CarriedBy(Runner.Stop(job, tpc)).Some? ==>
      Runner.CarriedBy(Runner.Stop(job, tpc)).value < |r.envs|
    ensures RunnerKnows(Runner.AdvanceStop(r, t, job, tpc, how).r, sent)
    ensures var post := Runner.AdvanceStop(r, t, job, tpc, how).post; post.Some? ==> post.value.job in sent
  {}

  lemma FleetStepKnows(f: Fleet, rid: int, ev: Runner.Event, sent: set<JobId>)
    requires FleetKnows(f, sent) && FleetEnabled(f, rid, ev)
    requires ev.RecvStart? || ev.RecvStop? ==> ev.job in sent
    ensures FleetKnows(FleetStep(f, rid, ev), sent)
  {
    RunnerStepKnows(f.runners[rid], ev, sent);
  }

  lemma FleetKnowsMore(f: Fleet, sent: set<JobId>, more: set<JobId>)
    requires FleetKnows(f, sent) && sent <= more
    ensures FleetKnows(f, more)
  {}

  // ----- The coordinator's phase of an active job is where the table stands after the delivered posts -----

  ghost predicate PhasesAgree(x: Joint) {
    forall p, j | p in x.w.servers && j in x.w.servers[p].active ::
      && Done(x, j) <= |PostsOf(x.f, j)|
      && PhaseOf(x.w.servers[p].active[j]) == PhaseAfter(PostsOf(x.f, j)[..Done(x, j)])
  }

  ghost predicate JointInv(x: Joint) {
    && Inv(x.w) && FleetOk(x.f)
    && FleetKnows(x.f, SentJobs(x.w.sh.sent))
    && x.delivered.Keys <= x.f.posts.Keys
    && (forall j | j in x.delivered :: x.delivered[j] <= |PostsOf(x.f, j)|)
    && PhasesAgree(x)
    && NoMissingClause(x.w)
  }

  lemma {:induction false} PopAllSubset(active: map<JobId, CoordState>, jobs: seq<JobId>)
    ensures PopAll(active, jobs).Some? ==>
      forall j | j in PopAll(active, jobs).value :: j in active && active[j] == PopAll(active, jobs).value[j]
  {
    if jobs != [] && jobs[0] in active { PopAllSubset(active - {jobs[0]}, jobs[1..]); }
  }

  // Any action but a state update keeps the phases of the jobs it keeps, and a new job starts waiting.
  lemma ActiveStep(sh: Shared, pid: Pid, srv: Server, a: Action)
    requires Enabled(sh, srv, a) && !a.UpdateState? && ServerStep(sh, pid, srv, a).Continue?
    ensures var srv' := ServerStep(sh, pid, srv, a).srv;
      forall j | j in srv'.active ::
        || (j in srv.active && srv'.active[j] == srv.active[j])
        || (a.Send? && j == srv.pc.job && srv'.active[j].WaitForStart?)
  {
    match a
    case Down(_, keys) => PopAllSubset(srv.active, keys);
    case Supervise(_) => if srv.pc.rest != [] { PopAllSubset(srv.active, [srv.pc.rest[0].0]); }
    case _ =>
  }

  lemma SentJobsMonotone(a: seq<StartMsg>, b: seq<StartMsg>)
    requires a <= b
    ensures SentJobs(a) <= SentJobs(b)
  {
    assert forall m | m in a :: m in b;
  }

  lemma ActionCrash(sh: Shared, pid: Pid, srv: Server, a: Action)
    requires Enabled(sh, srv, a) && !a.UpdateState?
    ensures ServerStep(sh, pid, srv, a).Dies? ==> !ServerStep(sh, pid, srv, a).why.MissingClause?
  {}

  // ----- Steps of the coordinator -----

  ghost predicate NoMissingClause(w: World) {
    forall n | 0 <= n < |w.crashes| :: !w.crashes[n].MissingClause?
  }

  // An active job was active before in the same state, or has just been dispatched for the first time.
  ghost predicate ActiveFrom(w: World, w': World) {
    forall p, j | p in w'.servers && j in w'.servers[p].active ::
      || (p in w.servers && j in w.servers[p].active && w'.servers[p].active[j] == w.servers[p].active[j])
      || (j !in SentJobs(w.sh.sent) && w'.servers[p].active[j].WaitForStart?)
  }

  lemma SendUnsent(w: World, p: Pid)
    requires Inv(w) && p in w.servers && w.servers[p].pc.Dispatched?
    ensures w.servers[p].pc.job !in SentJobs(w.sh.sent)
  {
    assert ServerOk(w, p);
    SendFresh(w.sh, p, w.servers[p]);
  }

  lemma RunActiveFrom(w: World, p: Pid, a: Action)
    requires Inv(w) && Possible(w, Run(p, a)) && !a.UpdateState?
    ensures ActiveFrom(w, Apply(w, Run(p, a)))
    ensures NoMissingClause(w) ==> NoMissingClause(Apply(w, Run(p, a)))
  {
    ActionCrash(w.sh, p, w.servers[p], a);
    if a.Send? { SendUnsent(w, p); }
    if ServerStep(w.sh, p, w.servers[p], a).Continue? {
      var sh, srv := ServerStep(w.sh, p, w.servers[p], a).sh, ServerStep(w.sh, p, w.servers[p], a).srv;
      ActiveStep(w.sh, p, w.servers[p], a);
      OwnActive(w, p, sh, srv);
    }
  }

  lemma OwnActive(w: World, p: Pid, sh: Shared, srv: Server)
    requires p in w.servers
    requires forall j | j in srv.active ::
      || (j in w.servers[p].active && srv.active[j] == w.servers[p].active[j])
      || (j !in SentJobs(w.sh.sent) && srv.active[j].WaitForStart?)
    ensures ActiveFrom(w, w.(sh := sh, servers := w.servers[p := srv]))
  {}

  lemma OtherActiveFrom(w: World, s: Step)
    requires Possible(w, s) && !s.Run?
    ensures ActiveFrom(w, Apply(w, s))
    ensures NoMissingClause(w) ==> NoMissingClause(Apply(w, s))
  {}

  lemma StepActiveFrom(w: World, s: Step)
    requires Inv(w) && Possible(w, s) && !(s.Run? && s.a.UpdateState?)
    ensures ActiveFrom(w, Apply(w, s))
    ensures NoMissingClause(w) ==> NoMissingClause(Apply(w, s))
  {
    if s.Run? { RunActiveFrom(w, s.p, s.a); } else { OtherActiveFrom(w, s); }
  }

  lemma StepSent(w: World, s: Step)
    requires Inv(w) && Possible(w, s)
    ensures SentJobs(w.sh.sent) <= SentJobs(Apply(w, s).sh.sent)
  {
    CoordinatorTheorems.StepForward(w, s);
    SentJobsMonotone(w.sh.sent, Apply(w, s).sh.sent);
  }

  lemma CoordinatePhases(x: Joint, w': World)
    requires PhasesAgree(x) && FleetKnows(x.f, SentJobs(x.w.sh.sent)) && x.delivered.Keys <= x.f.posts.Keys
    requires ActiveFrom(x.w, w')
    ensures PhasesAgree(x.(w := w'))
  {
    forall p, j | p in w'.servers && j in w'.servers[p].active
      ensures Done(x, j) <= |PostsOf(x.f, j)|
      ensures PhaseOf(w'.servers[p].active[j]) == PhaseAfter(PostsOf(x.f, j)[..Done(x, j)])
    {
      if j !in SentJobs(x.w.sh.sent) {
        assert PostsOf(x.f, j) == [] && Done(x, j) == 0;
      }
    }
  }

  lemma CoordinateKeeps(x: Joint, w': World)
    requires JointInv(x) && Inv(w') && ActiveFrom(x.w, w') && NoMissingClause(w')
    requires SentJobs(x.w.sh.sent) <= SentJobs(w'.sh.sent)
    ensures JointInv(x.(w := w'))
  {
    FleetKnowsMore(x.f, SentJobs(x.w.sh.sent), SentJobs(w'.sh.sent));
    CoordinatePhases(x, w');
  }

  // ----- Steps of a runner -----

  lemma StepPosts(f: Fleet, rid: int, ev: Runner.Event, j: JobId)
    requires FleetEnabled(f, rid, ev)
    ensures PostsOf(f, j) <= PostsOf(FleetStep(f, rid, ev), j)
    ensures f.posts.Keys <= FleetStep(f, rid, ev).posts.Keys
  {}

  lemma ActPhases(x: Joint, f': Fleet)
    requires PhasesAgree(x) && forall j :: PostsOf(x.f, j) <= PostsOf(f', j)
    ensures PhasesAgree(x.(f := f'))
  {
    forall p, j | p in x.w.servers && j in x.w.servers[p].active
      ensures Done(x, j) <= |PostsOf(f', j)|
      ensures PhaseOf(x.w.servers[p].active[j]) == PhaseAfter(PostsOf(f', j)[..Done(x, j)])
    {
      assert PostsOf(f', j)[..Done(x, j)] == PostsOf(x.f, j)[..Done(x, j)];
    }
  }

  lemma ActKeeps(x: Joint, f': Fleet)
    requires JointInv(x) && FleetOk(f') && FleetKnows(f', SentJobs(x.w.sh.sent))
    requires x.f.posts.Keys <= f'.posts.Keys && forall j :: PostsOf(x.f, j) <= PostsOf(f', j)
    ensures JointInv(x.(f := f'))
  {
    ActPhases(x, f');
  }

  // ----- Deliveries -----

  // Only the server a job is registered with has it active.
  lemma ActiveIsRegistered(w: World, p: Pid, j: JobId)
    requires Inv(w) && p in w.servers && j in w.servers[p].active
    ensures j in w.sh.jobReg && w.sh.jobReg[j] == p
  {
    assert ServerOk(w, p);
    assert j in Held(w.sh, p);
  }

  lemma NextPost(f: Fleet, j: JobId, n: nat)
    requires FleetOk(f) && n < |PostsOf(f, j)|
    ensures PhaseAfter(PostsOf(f, j)[..n + 1]) == PhaseStep(PhaseAfter(PostsOf(f, j)[..n]), PostsOf(f, j)[n])
    ensures PhaseAfter(PostsOf(f, j)[..n + 1]) != PStuck
  {
    var posts := PostsOf(f, j);
    assert PhasesOf(f)(j) != PStuck;
    PrefixesAccepted(posts, n + 1);
    assert posts[..n + 1] == posts[..n] + [posts[n]];
    PhaseAfterAppend(posts[..n], posts[n]);
  }

  // The update of one active job, seen through the phases.
  lemma UpdatePhase(sh: Shared, pid: Pid, srv: Server, j: JobId, posted: RunnerState, now: Time)
    requires srv.pc.Idle? && (j in srv.active ==> PhaseStep(PhaseOf(srv.active[j]), posted) != PStuck)
    ensures match HandleUpdate(sh, srv, j, posted, now)
      case Dies(_, why) => false
      case Continue(_, srv') =>
        && srv'.active.Keys <= srv.active.Keys
        && (forall k | k in srv'.active && k != j :: srv'.active[k] == srv.active[k])
        && (j in srv'.active ==> PhaseOf(srv'.active[j]) == PhaseStep(PhaseOf(srv.active[j]), posted))
  {
    if j in srv.active {
      PhaseStepIsTable(srv.active[j], posted, now);
      PopOne(srv.active, j);
    }
  }

  // `w'` after post `n` of job `j` was handled: every active job keeps its phase, but `j` moves along its posts.
  ghost predicate DeliveredTo(x: Joint, j: JobId, w': World)
    requires Done(x, j) < |PostsOf(x.f, j)|
  {
    forall p, k | p in w'.servers && k in w'.servers[p].active ::
      && p in x.w.servers && k in x.w.servers[p].active
      && PhaseOf(w'.servers[p].active[k]) ==
        if k == j then PhaseAfter(PostsOf(x.f, j)[..Done(x, j) + 1]) else PhaseOf(x.w.servers[p].active[k])
  }

  lemma DeliverServer(x: Joint, j: JobId, p: Pid)
    requires PhasesAgree(x) && FleetOk(x.f) && Done(x, j) < |PostsOf(x.f, j)| && p in x.w.servers
    ensures j in x.w.servers[p].active ==>
      PhaseStep(PhaseOf(x.w.servers[p].active[j]), PostsOf(x.f, j)[Done(x, j)]) ==
        PhaseAfter(PostsOf(x.f, j)[..Done(x, j) + 1])
    ensures PhaseAfter(PostsOf(x.f, j)[..Done(x, j) + 1]) != PStuck
  {
    NextPost(x.f, j, Done(x, j));
  }

  lemma OnlyServer(w: World, p: Pid, j: JobId)
    requires Inv(w) && j in w.sh.jobReg && w.sh.jobReg[j] == p
    ensures forall q | q in w.servers && j in w.servers[q].active :: q == p
  {
    forall q | q in w.servers && j in w.servers[q].active ensures q == p { ActiveIsRegistered(w, q, j); }
  }

  lemma DeliverContinue(x: Joint, j: JobId, p: Pid, sh: Shared, srv: Server)
    requires Done(x, j) < |PostsOf(x.f, j)| && p in x.w.servers
    requires forall q | q in x.w.servers && j in x.w.servers[q].active :: q == p
    requires srv.active.Keys <= x.w.servers[p].active.Keys
    requires forall k | k in srv.active && k != j :: srv.active[k] == x.w.servers[p].active[k]
    requires j in srv.active ==> PhaseOf(srv.active[j]) == PhaseAfter(PostsOf(x.f, j)[..Done(x, j) + 1])
    ensures DeliveredTo(x, j, x.w.(sh := sh, servers := x.w.servers[p := srv]))
  {}

  lemma DeliverMoves(x: Joint, j: JobId, p: Pid, now: Time)
    requires JointInv(x) && Done(x, j) < |PostsOf(x.f, j)|
    requires j in x.w.sh.jobReg && p == x.w.sh.jobReg[j] && p in x.w.servers && x.w.servers[p].pc.Idle?
    ensures var out := HandleUpdate(x.w.sh, x.w.servers[p], j, PostsOf(x.f, j)[Done(x, j)], now);
      out.Continue? && DeliveredTo(x, j, x.w.(sh := out.sh, servers := x.w.servers[p := out.srv]))
  {
    DeliverServer(x, j, p);
    UpdatePhase(x.w.sh, p, x.w.servers[p], j, PostsOf(x.f, j)[Done(x, j)], now);
    OnlyServer(x.w, p, j);
    var out := HandleUpdate(x.w.sh, x.w.servers[p], j, PostsOf(x.f, j)[Done(x, j)], now);
    DeliverContinue(x, j, p, out.sh, out.srv);
  }

  lemma ApplyUpdate(w: World, p: Pid, j: JobId, posted: RunnerState, now: Time)
    requires Possible(w, Run(p, UpdateState(j, posted, now)))
    ensures p in w.servers && w.servers[p].pc.Idle?
    ensures var out := HandleUpdate(w.sh, w.servers[p], j, posted, now);
      out.Continue? ==>
        Apply(w, Run(p, UpdateState(j, posted, now))) == w.(sh := out.sh, servers := w.servers[p := out.srv])
  {}

  lemma DeliverPhases(x: Joint, j: JobId, w': World)
    requires PhasesAgree(x) && Done(x, j) < |PostsOf(x.f, j)| && DeliveredTo(x, j, w')
    ensures PhasesAgree(x.(w := w', delivered := x.delivered[j := Done(x, j) + 1]))
  {}

  lemma DeliverKeeps(x: Joint, j: JobId, w': World)
    requires JointInv(x) && Done(x, j) < |PostsOf(x.f, j)|
    requires Inv(w') && NoMissingClause(w') && DeliveredTo(x, j, w') && SentJobs(x.w.sh.sent) <= SentJobs(w'.sh.sent)
    ensures JointInv(x.(w := w', delivered := x.delivered[j := Done(x, j) + 1]))
  {
    FleetKnowsMore(x.f, SentJobs(x.w.sh.sent), SentJobs(w'.sh.sent));
    DeliverPhases(x, j, w');
    DeliverCounts(x, j);
  }

  lemma DeliverCounts(x: Joint, j: JobId)
    requires Done(x, j) < |PostsOf(x.f, j)|
    requires x.delivered.Keys <= x.f.posts.Keys && forall k | k in x.delivered :: x.delivered[k] <= |PostsOf(x.f, k)|
    ensures var more := x.delivered[j := Done(x, j) + 1];
      more.Keys <= x.f.posts.Keys && forall k | k in more :: more[k] <= |PostsOf(x.f, k)|
  {}

  lemma UnregisteredDelivery(x: Joint, j: JobId)
    requires JointInv(x) && j !in x.w.sh.jobReg && Done(x, j) < |PostsOf(x.f, j)|
    ensures DeliveredTo(x, j, x.w)
  {
    forall p, k | p in x.w.servers && k in x.w.servers[p].active ensures k != j {
      ActiveIsRegistered(x.w, p, k);
    }
  }

  lemma CoordinateStepKeeps(x: Joint, s: Step)
    requires JointInv(x) && JointPossible(x, Coordinate(s))
    ensures JointInv(JointApply(x, Coordinate(s)))
  {
    StepKeepsInv(x.w, s);
    StepActiveFrom(x.w, s);
    StepSent(x.w, s);
    CoordinateKeeps(x, Apply(x.w, s));
  }

  lemma ActStepKeeps(x: Joint, rid: int, ev: Runner.Event)
    requires JointInv(x) && JointPossible(x, Act(rid, ev))
    ensures JointInv(JointApply(x, Act(rid, ev)))
  {
    FleetKeeps(x.f, rid, ev);
    FleetStepKnows(x.f, rid, ev, SentJobs(x.w.sh.sent));
    forall j ensures PostsOf(x.f, j) <= PostsOf(FleetStep(x.f, rid, ev), j) { StepPosts(x.f, rid, ev, j); }
    StepPosts(x.f, rid, ev, 0);
    ActKeeps(x, FleetStep(x.f, rid, ev));
  }

  lemma DeliverRegistered(x: Joint, j: JobId, now: Time, w': World)
    requires JointInv(x) && Done(x, j) < |PostsOf(x.f, j)| && j in x.w.sh.jobReg
    requires Possible(x.w, Deliver1(x, j, now)) && w' == Apply(x.w, Deliver1(x, j, now))
    ensures JointInv(x.(w := w', delivered := x.delivered[j := Done(x, j) + 1]))
  {
    var p := x.w.sh.jobReg[j];
    StepKeepsInv(x.w, Deliver1(x, j, now));
    StepSent(x.w, Deliver1(x, j, now));
    ApplyUpdate(x.w, p, j, PostsOf(x.f, j)[Done(x, j)], now);
    DeliverMoves(x, j, p, now);
    DeliverKeeps(x, j, w');
  }

  lemma DeliverUnregistered(x: Joint, j: JobId)
    requires JointInv(x) && Done(x, j) < |PostsOf(x.f, j)| && j !in x.w.sh.jobReg
    ensures JointInv(x.(delivered := x.delivered[j := Done(x, j) + 1]))
  {
    UnregisteredDelivery(x, j);
    DeliverKeeps(x, j, x.w);
  }

  lemma DeliverIs(x: Joint, j: JobId, now: Time)
    requires JointPossible(x, Deliver(j, now))
    ensures var x' := JointApply(x, Deliver(j, now));
      && x' == x.(w := x'.w, delivered := x.delivered[j := Done(x, j) + 1])
      && (if j in x.w.sh.jobReg then Possible(x.w, Deliver1(x, j, now)) && x'.w == Apply(x.w, Deliver1(x, j, now))
        else x'.w == x.w)
  {}

  lemma DeliverStepKeeps(x: Joint, j: JobId, now: Time, x': Joint)
    requires JointInv(x) && Done(x, j) < |PostsOf(x.f, j)|
    requires x' == x.(w := x'.w, delivered := x.delivered[j := Done(x, j) + 1])
    requires if j in x.w.sh.jobReg then Possible(x.w, Deliver1(x, j, now)) && x'.w == Apply(x.w, Deliver1(x, j, now))
      else x'.w == x.w
    ensures JointInv(x')
  {
    if j in x.w.sh.jobReg {
      DeliverRegistered(x, j, now, x'.w);
    } else {
      DeliverUnregistered(x, j);
      assert x' == x.(delivered := x.delivered[j := Done(x, j) + 1]);
    }
  }

  lemma JointStepKeeps(x: Joint, st: JointStep)
    requires JointInv(x) && JointPossible(x, st)
    ensures JointInv(JointApply(x, st))
  {
    match st
    case Coordinate(s) => CoordinateStepKeeps(x, s);
    case Act(rid, ev) => ActStepKeeps(x, rid, ev);
    case Deliver(j, now) =>
      DeliverIs(x, j, now);
      DeliverStepKeeps(x, j, now, JointApply(x, st));
  }

  // ----- Runs of the whole system -----

  ghost predicate JointInitial(x: Joint) {
    Initial(x.w) && FleetInitial(x.f) && x.delivered == map[]
  }

  ghost predicate JointReaches(x: Joint, x': Joint) {
    exists st :: JointPossible(x, st) && x' == JointApply(x, st)
  }

  ghost predicate JointRun(xs: seq<Joint>) {
    && xs != [] && JointInitial(xs[0])
    && forall i | 0 <= i < |xs| - 1 :: JointReaches(xs[i], xs[i + 1])
  }

  lemma {:induction false} JointRunInv(xs: seq<Joint>, i: nat)
    requires JointRun(xs) && i < |xs|
    ensures JointInv(xs[i])
    decreases i
  {
    if i == 0 {
      FleetInitialOk(xs[0].f);
    } else {
      JointRunInv(xs, i - 1);
      assert JointReaches(xs[i - 1], xs[i - 1 + 1]);
      var st :| JointPossible(xs[i - 1], st) && xs[i] == JointApply(xs[i - 1], st);
      JointStepKeeps(xs[i - 1], st);
    }
  }

  /**
   With these runners attached, over any run with crashes, reconnects, timeouts, stops and exits, no board
   server ever dies for want of a clause in the update table.
   */
  lemma NoServerMissesAClause(xs: seq<Joint>, i: nat, n: nat)
    requires JointRun(xs) && i < |xs| && n < |xs[i].w.crashes|
    ensures !xs[i].w.crashes[n].MissingClause? && Documented(xs[i].w.crashes[n])
  {
    JointRunInv(xs, i);
  }

  /** The state a board server shows for an active job is what its runner's delivered posts amount to. */
  lemma ShownStateIsReported(xs: seq<Joint>, i: nat, p: Pid, j: JobId)
    requires JointRun(xs) && i < |xs| && p in xs[i].w.servers && j in xs[i].w.servers[p].active
    ensures Done(xs[i], j) <= |PostsOf(xs[i].f, j)|
    ensures PhaseOf(xs[i].w.servers[p].active[j]) == PhaseAfter(PostsOf(xs[i].f, j)[..Done(xs[i], j)])
  {
    JointRunInv(xs, i);
  }
}
