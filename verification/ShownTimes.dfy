/** The times in the state that a board server shows of a job: which message each of them belongs to. */
module ShownTimes {
  import opened Common
  import opened Jobs
  import opened UpdateTable
  import opened Coordinator
  import opened ServerSteps
  import opened Fleet
  import opened Composition
  import Outcomes

  // A joint run with the steps it takes.
  ghost predicate JointTakes(xs: seq<Joint>, steps: seq<JointStep>) {
    && |xs| == |steps| + 1 && JointInitial(xs[0])
    && forall i | 0 <= i < |steps| :: JointPossible(xs[i], steps[i]) && xs[i + 1] == JointApply(xs[i], steps[i])
  }

  lemma JointTakesRun(xs: seq<Joint>, steps: seq<JointStep>, i: nat)
    requires JointTakes(xs, steps) && i < |xs|
    ensures JointRun(xs) && JointInv(xs[i])
  {
    forall k | 0 <= k < |xs| - 1 ensures JointReaches(xs[k], xs[k + 1]) {
      assert JointPossible(xs[k], steps[k]) && xs[k + 1] == JointApply(xs[k], steps[k]);
    }
    JointRunInv(xs, i);
  }

  // The step gave the job the time that its server shows: the send of the start message, the delivery of the
  // first post, or that of the latest one, of which `done` are handled.
  ghost predicate SetsTime(x: Joint, st: JointStep, p: Pid, j: JobId, state: CoordState, done: nat) {
    match state
    case WaitForStart(since) =>
      st == Coordinate(Run(p, Send(since))) && p in x.w.servers && x.w.servers[p].pc == Dispatched(j)
    case Starting(since) => st == Deliver(j, since) && Done(x, j) == 0
    case Ready => false
    case Stopping(since) => st == Deliver(j, since) && Done(x, j) + 1 == done
  }

  ghost predicate Shows(x: Joint, p: Pid, j: JobId, state: CoordState) {
    p in x.w.servers && j in x.w.servers[p].active && x.w.servers[p].active[j] == state
  }

  // An update changes the time of its own job only: to the time of the update, unless it is starting already.
  lemma UpdateTimes(sh: Shared, srv: Server, j: JobId, posted: RunnerState, now: Time, k: JobId)
    requires srv.pc.Idle? && HandleUpdate(sh, srv, j, posted, now).Continue?
    requires k in HandleUpdate(sh, srv, j, posted, now).srv.active
    ensures k in srv.active
    ensures var state := HandleUpdate(sh, srv, j, posted, now).srv.active[k];
      && (k != j ==> state == srv.active[k])
      && (k == j && state.Starting? ==>
        state == srv.active[k] || (srv.active[k].WaitForStart? && state.since == now))
      && (k == j && state.Stopping? ==> state.since == now)
      && (k == j ==> !state.WaitForStart?)
  {
    if j in srv.active { PopOne(srv.active, j); }
  }

  lemma CoordinateTimes(w: World, s: Step, p: Pid, j: JobId)
    requires Possible(w, s) && !(s.Run? && s.a.UpdateState?)
    requires p in Apply(w, s).servers && j in Apply(w, s).servers[p].active
    ensures p in w.servers
    ensures var state := Apply(w, s).servers[p].active[j];
      || (j in w.servers[p].active && state == w.servers[p].active[j])
      || (s.Run? && s.p == p && s.a.Send? && w.servers[p].pc == Dispatched(j) && state == WaitForStart(s.a.stamp))
  {
    if s.Run? && s.p == p { RunTimes(w.sh, p, w.servers[p], s.a, j); } else { OthersTimes(w, s, p, j); }
  }

  lemma OthersTimes(w: World, s: Step, p: Pid, j: JobId)
    requires Possible(w, s) && (s.Run? ==> s.p != p)
    requires p in Apply(w, s).servers && j in Apply(w, s).servers[p].active
    ensures p in w.servers && Apply(w, s).servers[p].active == w.servers[p].active
  {}

  lemma RunTimes(sh: Shared, pid: Pid, srv: Server, a: Action, j: JobId)
    requires Enabled(sh, srv, a) && !a.UpdateState? && ServerStep(sh, pid, srv, a).Continue?
    requires j in ServerStep(sh, pid, srv, a).srv.active
    ensures var state := ServerStep(sh, pid, srv, a).srv.active[j];
      (j in srv.active && state == srv.active[j])
      || (a.Send? && srv.pc == Dispatched(j) && state == WaitForStart(a.stamp))
  {
    ActiveStep(sh, pid, srv, a);
  }

  // What a step does to the time shown: it was so before, or the step has set it.
  ghost predicate TimeKeptOrSet(x: Joint, st: JointStep, p: Pid, j: JobId, state: CoordState)
    requires JointPossible(x, st)
  {
    var done := Done(JointApply(x, st), j);
    (Shows(x, p, j, state) && (state.Stopping? ==> Done(x, j) == done)) || SetsTime(x, st, p, j, state, done)
  }

  lemma OtherDelivery(x: Joint, i: JobId, now: Time, p: Pid, j: JobId, state: CoordState)
    requires JointInv(x) && JointPossible(x, Deliver(i, now)) && (i in x.w.sh.jobReg ==> x.w.sh.jobReg[i] != p)
    requires Shows(JointApply(x, Deliver(i, now)), p, j, state)
    ensures Shows(x, p, j, state) && i != j
  {
    DeliverIs(x, i, now);
    if i in x.w.sh.jobReg { OthersTimes(x.w, Deliver1(x, i, now), p, j); }
    ActiveIsRegistered(x.w, p, j);
  }

  lemma OwnDelivery(x: Joint, i: JobId, now: Time, p: Pid, j: JobId, state: CoordState)
    requires JointInv(x) && JointPossible(x, Deliver(i, now)) && i in x.w.sh.jobReg && x.w.sh.jobReg[i] == p
    requires Shows(JointApply(x, Deliver(i, now)), p, j, state)
    requires !state.Ready?
    ensures TimeKeptOrSet(x, Deliver(i, now), p, j, state)
  {
    var posted := PostsOf(x.f, i)[Done(x, i)];
    DeliverIs(x, i, now);
    ApplyUpdate(x.w, p, i, posted, now);
    UpdateTimes(x.w.sh, x.w.servers[p], i, posted, now, j);
    if i == j && x.w.servers[p].active[j].WaitForStart? { WaitsForFirst(x, p, j); }
    KeptOrSet(x, i, now, p, j, state);
  }

  lemma KeptOrSet(x: Joint, i: JobId, now: Time, p: Pid, j: JobId, state: CoordState)
    requires JointPossible(x, Deliver(i, now)) && p in x.w.servers && j in x.w.servers[p].active && !state.Ready?
    requires i != j ==> state == x.w.servers[p].active[j]
    requires i == j ==> !state.WaitForStart? && (state.Stopping? ==> state.since == now)
    requires i == j && state.Starting? ==>
      state == x.w.servers[p].active[j] || (state.since == now && Done(x, j) == 0)
    ensures TimeKeptOrSet(x, Deliver(i, now), p, j, state)
  {}

  // Nothing was handled of a job that still waits.
  lemma WaitsForFirst(x: Joint, p: Pid, j: JobId)
    requires PhasesAgree(x) && p in x.w.servers && j in x.w.servers[p].active
    requires x.w.servers[p].active[j].WaitForStart?
    ensures Done(x, j) == 0
  {
    Outcomes.WaitingIsSilent(PostsOf(x.f, j)[..Done(x, j)]);
  }

  lemma CoordinateKeptOrSet(x: Joint, s: Step, p: Pid, j: JobId, state: CoordState)
    requires JointPossible(x, Coordinate(s)) && Shows(JointApply(x, Coordinate(s)), p, j, state)
    ensures TimeKeptOrSet(x, Coordinate(s), p, j, state)
  {
    CoordinateTimes(x.w, s, p, j);
  }

  lemma StepTimes(x: Joint, st: JointStep, p: Pid, j: JobId, state: CoordState)
    requires JointInv(x) && JointPossible(x, st) && Shows(JointApply(x, st), p, j, state) && !state.Ready?
    ensures TimeKeptOrSet(x, st, p, j, state)
  {
    match st
    case Coordinate(s) => CoordinateKeptOrSet(x, s, p, j, state);
    case Act(_, _) =>
    case Deliver(i, now) =>
      if i in x.w.sh.jobReg && x.w.sh.jobReg[i] == p {
        OwnDelivery(x, i, now, p, j, state);
      } else {
        OtherDelivery(x, i, now, p, j, state);
      }
  }

  /**
   The time a server shows with a job: since it waits, the stamp of the send; since it starts, when its first
   post came in; since it stops, when its latest post came in.
   */
  lemma {:induction false} ShownSince(xs: seq<Joint>, steps: seq<JointStep>, i: nat, p: Pid, j: JobId,
      state: CoordState) returns (k: nat)
    requires JointTakes(xs, steps) && i < |xs| && Shows(xs[i], p, j, state) && !state.Ready?
    ensures k < i && SetsTime(xs[k], steps[k], p, j, state, Done(xs[i], j))
  {
    k := i - 1;
    JointTakesRun(xs, steps, k);
    StepTimes(xs[k], steps[k], p, j, state);
    if !SetsTime(xs[k], steps[k], p, j, state, Done(xs[i], j)) {
      k := ShownSince(xs, steps, k, p, j, state);
    }
  }
}
