/** What becomes of every environment a runner has brought up: none is forgotten while its process lives. */
module Accounts {
  import opened Common
  import opened UpdateTable
  import opened Runner
  import opened Fleet
  import opened Stops
  import RunnerProofs
  import StopRuns

  // The unmount failed after everything else was let go.
  predicate StillMounted(kind: Kind, env: Env) {
    && kind.Nspawn? && !env.childAlive && !env.socketUp && env.streamer.StreamerDone? && !env.proxiesUp
    && env.mounted
  }

  // A stop of the streamer broke off: its guard on the child is gone, and the streamer's command channel.
  predicate Abandoned(env: Env) {
    env.senderGone && !env.childLocked
  }

  predicate Ended(kind: Kind, env: Env) {
    env.taken == 1 && (RunnerProofs.ReleasedBy(kind, env) || StillMounted(kind, env) || Abandoned(env))
  }

  // It is in the slot, a task has it, or a stop of its has ended.
  ghost predicate Accounted(r: Runner, e: nat)
    requires e < |r.envs|
  {
    || (r.slot.Some? && r.slot.value.env == e)
    || (exists t :: t in r.tasks && CarriedBy(r.tasks[t]) == Some(e))
    || Ended(r.kind, r.envs[e])
  }

  ghost predicate AllAccounted(r: Runner) {
    r.alive ==> forall e: nat | e < |r.envs| :: Accounted(r, e)
  }

  // Another task keeps what it has.
  lemma OthersKeep(r: Runner, t: nat, how: How, u: nat)
    requires Enabled(r, Advance(t, how)) && Step(r, Advance(t, how)).r.alive && u in r.tasks && u != t
    ensures u in Step(r, Advance(t, how)).r.tasks && Step(r, Advance(t, how)).r.tasks[u] == r.tasks[u]
  {
    if r.tasks[t].Stop? {
      StopTasks(r, t, r.tasks[t].job, r.tasks[t].tpc, how);
    }
  }

  lemma StartAccounts(r: Runner, t: nat, job: JobId, spc: StartPc, ok: bool, e: nat)
    requires t in r.tasks && r.tasks[t] == Start(job, spc) && AdvanceStart(r, t, job, spc, ok).r.alive
    requires e < |AdvanceStart(r, t, job, spc, ok).r.envs|
    requires spc.SStore? ==> r.slot.None?
    ensures var r' := AdvanceStart(r, t, job, spc, ok).r;
      && (e < |r.envs| ==> r'.envs[e] == r.envs[e] && (r.slot.Some? ==> r'.slot == r.slot))
      && (e >= |r.envs| || CarriedBy(r.tasks[t]) == Some(e) ==>
        (t in r'.tasks && CarriedBy(r'.tasks[t]) == Some(e)) || (r'.slot.Some? && r'.slot.value.env == e))
  {}

  lemma StopAccounts(r: Runner, t: nat, job: JobId, tpc: StopPc, how: How)
    requires t in r.tasks && r.tasks[t] == Stop(job, tpc) && CarriedBy(Stop(job, tpc)).Some?
    requires CarriedBy(Stop(job, tpc)).value < |r.envs|
    requires RunnerProofs.StageOk(r.kind, r.tasks[t], r.envs[CarriedBy(Stop(job, tpc)).value])
    ensures var r', e := AdvanceStop(r, t, job, tpc, how).r, CarriedBy(Stop(job, tpc)).value;
      r'.alive ==>
        && |r'.envs| == |r.envs|
        && ((t in r'.tasks && CarriedBy(r'.tasks[t]) == Some(e)) || Ended(r.kind, r'.envs[e]))
  {}

  lemma StopLeaves(r: Runner, t: nat, job: JobId, tpc: StopPc, how: How, e: nat)
    requires t in r.tasks && r.tasks[t] == Stop(job, tpc) && CarriedBy(Stop(job, tpc)) != Some(e) && e < |r.envs|
    requires CarriedBy(Stop(job, tpc)).Some? ==> CarriedBy(Stop(job, tpc)).value < |r.envs|
    ensures var r' := AdvanceStop(r, t, job, tpc, how).r;
      r'.alive ==>
        && |r'.envs| == |r.envs|
        && ((r'.slot == r.slot && r'.envs[e] == r.envs[e])
          || (r.slot.Some? && t in r'.tasks && CarriedBy(r'.tasks[t]) == Some(r.slot.value.env)
            && (e != r.slot.value.env ==> r'.envs[e] == r.envs[e])))
  {}

  lemma AdvanceAccounts(r: Runner, t: nat, how: How, e: nat)
    requires RunnerProofs.RunnerOk(r) && AllAccounted(r) && Enabled(r, Advance(t, how))
    requires Step(r, Advance(t, how)).r.alive && e < |Step(r, Advance(t, how)).r.envs|
    ensures Accounted(Step(r, Advance(t, how)).r, e)
  {
    var r' := Step(r, Advance(t, how)).r;
    RunnerProofs.KindStays(r, Advance(t, how));
    if e < |r.envs| && exists u :: u in r.tasks && u != t && CarriedBy(r.tasks[u]) == Some(e) {
      var u :| u in r.tasks && u != t && CarriedBy(r.tasks[u]) == Some(e);
      OthersKeep(r, t, how, u);
    } else {
      OwnAccounts(r, t, how, e);
    }
  }

  lemma OwnAccounts(r: Runner, t: nat, how: How, e: nat)
    requires RunnerProofs.RunnerOk(r) && AllAccounted(r) && Enabled(r, Advance(t, how))
    requires Step(r, Advance(t, how)).r.alive && e < |Step(r, Advance(t, how)).r.envs|
    requires e < |r.envs| ==> forall u | u in r.tasks && u != t :: CarriedBy(r.tasks[u]) != Some(e)
    ensures Accounted(Step(r, Advance(t, how)).r, e)
  {
    RunnerProofs.KindStays(r, Advance(t, how));
    if e < |r.envs| { assert Accounted(r, e); }
    match r.tasks[t]
    case Start(job, spc) => StartAccounts(r, t, job, spc, how.Fine?, e);
    case Stop(job, tpc) =>
      if CarriedBy(r.tasks[t]) == Some(e) {
        StopAccounts(r, t, job, tpc, how);
      } else {
        StopEnvs(r, t, job, tpc, how);
        StopLeaves(r, t, job, tpc, how, e);
      }
  }

  lemma OtherAccounts(r: Runner, ev: Event, e: nat)
    requires RunnerProofs.RunnerOk(r) && AllAccounted(r) && Enabled(r, ev) && !ev.Advance?
    requires Step(r, ev).r.alive && e < |Step(r, ev).r.envs|
    ensures Accounted(Step(r, ev).r, e)
  {
    var r' := Step(r, ev).r;
    TasksStay(r, ev, e);
    assert Accounted(r, e);
    if t :| t in r.tasks && CarriedBy(r.tasks[t]) == Some(e) { assert CarriedBy(r'.tasks[t]) == Some(e); }
  }

  lemma TasksStay(r: Runner, ev: Event, e: nat)
    requires RunnerProofs.LockOk(r) && Enabled(r, ev) && !ev.Advance? && Step(r, ev).r.alive
    requires e < |Step(r, ev).r.envs|
    ensures var r' := Step(r, ev).r;
      && r'.slot == r.slot && r'.kind == r.kind && |r'.envs| == |r.envs|
      && (forall t | t in r.tasks :: t in r'.tasks && r'.tasks[t] == r.tasks[t])
      && (Ended(r.kind, r.envs[e]) ==> Ended(r.kind, r'.envs[e]))
  {}

  lemma StepAccounts(r: Runner, ev: Event)
    requires RunnerProofs.RunnerOk(r) && AllAccounted(r) && Enabled(r, ev)
    ensures AllAccounted(Step(r, ev).r)
  {
    if Step(r, ev).r.alive {
      forall e: nat | e < |Step(r, ev).r.envs| ensures Accounted(Step(r, ev).r, e) {
        if ev.Advance? { AdvanceAccounts(r, ev.task, ev.how, e); } else { OtherAccounts(r, ev, e); }
      }
    }
  }

  /**
   In every run, while a runner's process lives each environment it ever brought up is in the slot, in the
   hands of one task, released, released but for its mount after a failing unmount, or abandoned by a stop of
   the streamer that something panicked under.
   */
  lemma {:induction false} NothingIsForgotten(fs: seq<Fleet>, i: nat, rid: int)
    requires FleetRun(fs) && i < |fs| && rid in fs[i].runners
    ensures AllAccounted(fs[i].runners[rid])
  {
    if i > 0 {
      FleetRunOk(fs, i - 1);
      var q, ev := StopRuns.StepOf(fs, i - 1);
      NothingIsForgotten(fs, i - 1, rid);
      if q == rid { StepAccounts(fs[i - 1].runners[rid], ev); }
    }
  }

  /** A streamer ends well only on the one command that a stop sent it. */
  lemma StreamerEndsOnCommand(fs: seq<Fleet>, i: nat, rid: int, e: nat)
    requires FleetRun(fs) && i < |fs| && rid in fs[i].runners && e < |fs[i].runners[rid].envs|
    requires fs[i].runners[rid].envs[e].streamer.StreamerDone?
    ensures fs[i].runners[rid].envs[e].shutdowns == 1 && fs[i].runners[rid].envs[e].taken == 1
  {
    FleetRunOk(fs, i);
  }
}
