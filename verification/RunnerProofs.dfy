/** What one runner keeps, in every interleaving of its tasks. */
module RunnerProofs {
  import opened Common
  import opened UpdateTable
  import opened Runner

  // ----- The mutex -----

  ghost predicate LockOk(r: Runner) {
    && (forall t | t in r.tasks :: t < r.nextTask)
    && (r.lock.Some? ==> r.lock.value in r.tasks && Inside(r.tasks[r.lock.value]))
    && (forall t | t in r.tasks && Inside(r.tasks[t]) :: r.lock == Some(t))
  }

  // Starts are the connector's; only the streamer's stops run beside its task.
  ghost predicate HandlingOk(r: Runner) {
    && (r.handling.Some? ==> r.handling.value in r.tasks)
    && (forall t | t in r.tasks && r.tasks[t].Start? :: r.handling == Some(t))
    && (!r.alive ==> r.tasks == map[] && r.slot.None?)
  }

  // ----- Who is responsible for which environment -----

  // Past its look at the slot, the task inside the mutex has the slot to itself.
  predicate SlotIsEmpty(task: Task) {
    match task
    case Start(_, spc) => !spc.SLock? && !spc.SCheckSlot? && !spc.SFail?
    case Stop(_, tpc) => !tpc.TLock? && !tpc.TCheckSlot? && !tpc.TRefuse? && !tpc.TFail? && !tpc.TPostFinished?
  }

  ghost predicate CarriersOk(r: Runner) {
    && (forall t | t in r.tasks && CarriedBy(r.tasks[t]).Some? ::
      CarriedBy(r.tasks[t]).value < |r.envs| && r.envs[CarriedBy(r.tasks[t]).value].job == r.tasks[t].job)
    && (forall t, u | t in r.tasks && u in r.tasks && t != u && CarriedBy(r.tasks[t]).Some? ::
      CarriedBy(r.tasks[t]) != CarriedBy(r.tasks[u]))
    && (r.slot.Some? ==> r.slot.value.env < |r.envs| && r.envs[r.slot.value.env].job == r.slot.value.job)
    && (r.slot.Some? ==> forall t | t in r.tasks :: CarriedBy(r.tasks[t]) != Some(r.slot.value.env))
    && (forall t | t in r.tasks && SlotIsEmpty(r.tasks[t]) :: r.slot.None?)
  }

  // The environment under the runner's control: the one its inside task carries, else the stored one.
  function Owner(r: Runner): Option<nat> {
    if r.lock.Some? && r.lock.value in r.tasks && CarriedBy(r.tasks[r.lock.value]).Some?
    then CarriedBy(r.tasks[r.lock.value])
    else if r.slot.Some? then Some(r.slot.value.env) else None
  }

  predicate Running(env: Env) {
    env.childAlive && !env.orphan
  }

  // The one running child is the owner's; when the process has ended there is still at most one.
  ghost predicate ChildrenOk(r: Runner) {
    && (r.alive ==> forall e | 0 <= e < |r.envs| && Running(r.envs[e]) :: Owner(r) == Some(e))
    && (forall d, e | 0 <= d < |r.envs| && 0 <= e < |r.envs| && Running(r.envs[d]) && Running(r.envs[e]) :: d == e)
  }

  // ----- How far each stop has come -----

  predicate StreamerOver(s: Streamer) {
    s.NoStreamer? || s.StreamerDone?
  }

  predicate AfterKill(tpc: StopPc) {
    || tpc.TJoinSocket? || tpc.TSendShutdown? || tpc.TJoinStreamer? || tpc.TDownProxies? || tpc.TUnmount?
    || tpc.TUnlock? || tpc.TPostFinished?
  }

  predicate StageOk(kind: Kind, task: Task, env: Env) {
    match task
    case Start(_, _) => Untouched(kind, env)
    case Stop(_, tpc) =>
      && env.taken == 1
      && (tpc.TUnmount? || tpc.TUnlock? || tpc.TPostFinished? || env.proxiesUp)
      && (tpc.TPostStopping? || tpc.TLockChild? || tpc.TKill? || tpc.TJoinSocket? || tpc.TSendShutdown? ==>
        env.shutdowns == 0)
      && (tpc.TPostStopping? || tpc.TLockChild? || tpc.TKill? || tpc.TJoinSocket? ==> env.socketUp)
      && (!tpc.TUnlock? && !tpc.TPostFinished? ==> (env.mounted <==> kind.Nspawn?))
      && (tpc.TLockChild? || tpc.TKill? || tpc.TUnmount? ==> kind.Nspawn?)
      && (env.childLocked <==> kind.Nspawn? && !tpc.TPostStopping? && !tpc.TLockChild?)
      && (AfterKill(tpc) ==> !env.childAlive)
      && (AfterKill(tpc) && !tpc.TJoinSocket? ==> !env.socketUp)
      && (tpc.TJoinStreamer? && env.streamer.Streaming? ==> env.streamer.shutdownQueued)
      && (tpc.TDownProxies? || tpc.TUnmount? ==> env.streamer.StreamerDone?)
      && (tpc.TUnmount? ==> !env.proxiesUp)
      && (tpc.TUnlock? || tpc.TPostFinished? ==> ReleasedBy(kind, env))
      && (tpc.TSendShutdown? || tpc.TJoinStreamer? ==> !env.streamer.NoStreamer?)
  }

  // Nothing of it was released yet.
  predicate Untouched(kind: Kind, env: Env) {
    && env.taken == 0 && env.shutdowns == 0 && env.socketUp && env.proxiesUp && (env.mounted <==> kind.Nspawn?)
    && !env.childLocked && !env.senderGone
  }

  // What must be gone before `finished` is posted. Only under netboot without a console nobody shuts the
  // proxies down.
  predicate ReleasedBy(kind: Kind, env: Env) {
    && !env.childAlive && !env.socketUp && StreamerOver(env.streamer)
    && (env.proxiesUp <==> env.streamer.NoStreamer?)
    && (kind.Nspawn? ==> !env.mounted && !env.streamer.NoStreamer?)
  }

  // The command is in the streamer's channel, or has ended it.
  predicate Commanded(s: Streamer) {
    s.StreamerDone? || (s.Streaming? && s.shutdownQueued)
  }

  // Whoever has it: torn down at most once, and its streamer ended well only by that stop's command.
  predicate EnvOk(kind: Kind, env: Env) {
    && env.shutdowns <= env.taken <= 1
    && (kind.Nspawn? ==> !env.streamer.NoStreamer?)
    && (kind.Netboot? ==> !env.childAlive)
    && (Commanded(env.streamer) ==> env.shutdowns == 1)
  }

  ghost predicate EnvsOk(r: Runner) {
    && (forall e | 0 <= e < |r.envs| :: EnvOk(r.kind, r.envs[e]))
    && (r.slot.Some? && r.slot.value.env < |r.envs| ==> Untouched(r.kind, r.envs[r.slot.value.env]))
    && (forall t | t in r.tasks && CarriedBy(r.tasks[t]).Some? && CarriedBy(r.tasks[t]).value < |r.envs| ::
      StageOk(r.kind, r.tasks[t], r.envs[CarriedBy(r.tasks[t]).value]))
  }

  ghost predicate OwnershipOk(r: Runner) {
    LockOk(r) && CarriersOk(r) && ChildrenOk(r) && EnvsOk(r)
  }

  ghost predicate RunnerOk(r: Runner) {
    OwnershipOk(r) && HandlingOk(r)
  }

  // ----- Preservation, by what happens to the ownership of environments -----

  // A task may hold the mutex after a step only if it held it before or it was free.
  predicate LockMove(r: Runner, t: nat, holds: bool) {
    holds ==> r.lock.None? || r.lock == Some(t)
  }

  function NewLock(r: Runner, t: nat, holds: bool): Option<nat> {
    if holds then Some(t) else if r.lock == Some(t) then None else r.lock
  }

  // Task `t` becomes `task`; the environment it carries, if any, becomes `env`.
  function AfterCarry(r: Runner, t: nat, task: Task, env: Env): Runner
    requires CarriedBy(task).Some? ==> CarriedBy(task).value < |r.envs|
  {
    r.(
      tasks := r.tasks[t := task], lock := NewLock(r, t, Inside(task)),
      envs := if CarriedBy(task).Some? then r.envs[CarriedBy(task).value := env] else r.envs)
  }

  /** Task `t` moves on, carrying what it carried; its environment, if it has one, becomes `env`. */
  lemma SameOwnership(r: Runner, t: nat, task: Task, env: Env)
    requires OwnershipOk(r) && t in r.tasks && task.job == r.tasks[t].job && LockMove(r, t, Inside(task))
    requires CarriedBy(task) == CarriedBy(r.tasks[t])
    requires SlotIsEmpty(task) ==> r.slot.None?
    requires CarriedBy(task).Some? ==>
      var was := r.envs[CarriedBy(task).value];
      && env.job == was.job && StageOk(r.kind, task, env) && EnvOk(r.kind, env)
      && (Running(env) ==> Running(was) && Inside(task))
    ensures OwnershipOk(AfterCarry(r, t, task, env))
  {
    var r' := AfterCarry(r, t, task, env);
    SameOwnershipCarriers(r, r', t, task, env);
    SameOwnershipChildren(r, t, task, env);
    SameOwnershipEnvs(r, t, task, env);
  }

  lemma SameOwnershipCarriers(r: Runner, r': Runner, t: nat, task: Task, env: Env)
    requires LockOk(r) && CarriersOk(r) && t in r.tasks && task.job == r.tasks[t].job && LockMove(r, t, Inside(task))
    requires CarriedBy(task) == CarriedBy(r.tasks[t])
    requires SlotIsEmpty(task) ==> r.slot.None?
    requires CarriedBy(task).Some? ==> env.job == r.envs[CarriedBy(task).value].job
    requires r' == AfterCarry(r, t, task, env)
    ensures LockOk(r') && CarriersOk(r')
  {}

  lemma SameOwnershipChildren(r: Runner, t: nat, task: Task, env: Env)
    requires OwnershipOk(r) && t in r.tasks && LockMove(r, t, Inside(task))
    requires CarriedBy(task) == CarriedBy(r.tasks[t])
    requires SlotIsEmpty(task) ==> r.slot.None?
    requires CarriedBy(task).Some? ==>
      var was := r.envs[CarriedBy(task).value];
      (Running(env) ==> Running(was) && Inside(task))
    ensures ChildrenOk(AfterCarry(r, t, task, env))
  {}

  lemma SameOwnershipEnvs(r: Runner, t: nat, task: Task, env: Env)
    requires OwnershipOk(r) && t in r.tasks
    requires CarriedBy(task) == CarriedBy(r.tasks[t])
    requires CarriedBy(task).Some? ==> StageOk(r.kind, task, env) && EnvOk(r.kind, env)
    ensures EnvsOk(AfterCarry(r, t, task, env))
  {}

  /** Task `t` ends, or goes on empty-handed; whatever it carried is dead or orphaned, and becomes `env`. */
  lemma DropOwnership(r: Runner, t: nat, task: Option<Task>, env: Env)
    requires OwnershipOk(r) && t in r.tasks
    requires task.Some? ==>
      CarriedBy(task.value).None? && Inside(task.value) && !SlotIsEmpty(task.value) && r.lock == Some(t)
    requires CarriedBy(r.tasks[t]).Some? ==>
      var was := r.envs[CarriedBy(r.tasks[t]).value];
      env.job == was.job && EnvOk(r.kind, env) && (!env.childAlive || env.orphan)
    ensures OwnershipOk(AfterDrop(r, t, task, env))
  {
    DropOwnershipCarriers(r, t, task, env);
    DropOwnershipChildren(r, t, task, env);
    DropOwnershipEnvs(r, t, task, env);
  }

  function AfterDrop(r: Runner, t: nat, task: Option<Task>, env: Env): Runner
    requires t in r.tasks && (CarriedBy(r.tasks[t]).Some? ==> CarriedBy(r.tasks[t]).value < |r.envs|)
  {
    r.(
      tasks := if task.Some? then r.tasks[t := task.value] else r.tasks - {t},
      lock := NewLock(r, t, task.Some?),
      handling := if task.None? && r.handling == Some(t) then None else r.handling,
      envs := if CarriedBy(r.tasks[t]).Some? then r.envs[CarriedBy(r.tasks[t]).value := env] else r.envs)
  }

  lemma DropOwnershipCarriers(r: Runner, t: nat, task: Option<Task>, env: Env)
    requires LockOk(r) && CarriersOk(r) && t in r.tasks
    requires task.Some? ==>
      CarriedBy(task.value).None? && Inside(task.value) && !SlotIsEmpty(task.value) && r.lock == Some(t)
    requires CarriedBy(r.tasks[t]).Some? ==> env.job == r.envs[CarriedBy(r.tasks[t]).value].job
    ensures LockOk(AfterDrop(r, t, task, env)) && CarriersOk(AfterDrop(r, t, task, env))
  {}

  lemma DropOwnershipChildren(r: Runner, t: nat, task: Option<Task>, env: Env)
    requires LockOk(r) && CarriersOk(r) && ChildrenOk(r) && t in r.tasks
    requires task.Some? ==> CarriedBy(task.value).None? && r.lock == Some(t)
    requires CarriedBy(r.tasks[t]).Some? ==> !env.childAlive || env.orphan
    ensures ChildrenOk(AfterDrop(r, t, task, env))
  {}

  lemma DropOwnershipEnvs(r: Runner, t: nat, task: Option<Task>, env: Env)
    requires CarriersOk(r) && EnvsOk(r) && t in r.tasks
    requires task.Some? ==> CarriedBy(task.value).None?
    requires CarriedBy(r.tasks[t]).Some? ==> EnvOk(r.kind, env)
    ensures EnvsOk(AfterDrop(r, t, task, env))
  {}

  lemma CreateOwnership(r: Runner, t: nat, task: Task, env: Env)
    requires OwnershipOk(r) && r.alive && t in r.tasks && r.lock == Some(t)
    requires CarriedBy(r.tasks[t]).None? && r.slot.None?
    requires CarriedBy(task) == Some(|r.envs|) && Inside(task)
    requires env.job == task.job && EnvOk(r.kind, env) && StageOk(r.kind, task, env)
    ensures OwnershipOk(r.(tasks := r.tasks[t := task], envs := r.envs + [env]))
  {}

  lemma StoreOwnership(r: Runner, t: nat, e: nat)
    requires OwnershipOk(r) && t in r.tasks && r.tasks[t].Start? && r.tasks[t].spc == SStore(e)
    ensures OwnershipOk(EndTask(r.(slot := Some(Slot(r.tasks[t].job, e))), t))
  {}

  lemma TakeOwnership(r: Runner, t: nat, task: Task, env: Env)
    requires OwnershipOk(r) && r.alive && t in r.tasks && r.lock == Some(t) && CarriedBy(r.tasks[t]).None?
    requires r.slot.Some? && CarriedBy(task) == Some(r.slot.value.env) && Inside(task) && task.job == r.slot.value.job
    requires env.job == task.job && EnvOk(r.kind, env) && StageOk(r.kind, task, env)
    ensures OwnershipOk(r.(slot := None, tasks := r.tasks[t := task], envs := r.envs[r.slot.value.env := env]))
  {}

  lemma NewTask(r: Runner, task: Task, handling: Option<nat>)
    requires OwnershipOk(r) && CarriedBy(task).None? && !Inside(task) && !SlotIsEmpty(task)
    ensures OwnershipOk(AddTask(r, task).(handling := handling))
  {}

  lemma DieKeeps(r: Runner)
    requires OwnershipOk(r)
    ensures OwnershipOk(Die(r))
  {}

  /** Something outside the tasks happens to environment `e`. */
  lemma EnvMoves(r: Runner, e: nat, env: Env)
    requires OwnershipOk(r) && e < |r.envs| && MovesAlone(r.envs[e], env)
    ensures OwnershipOk(SetEnv(r, e, env))
  {
    EnvMovesEnvs(r, e, env);
  }

  predicate MovesAlone(was: Env, env: Env) {
    && env == was.(childAlive := env.childAlive, unread := env.unread, streamer := env.streamer)
    && (env.childAlive ==> was.childAlive)
    && (was.streamer.NoStreamer? <==> env.streamer.NoStreamer?)
    && (was.streamer.StreamerDone? ==> env.streamer == was.streamer)
    && (was.streamer.Streaming? && env.streamer.Streaming? ==>
      env.streamer.shutdownQueued == was.streamer.shutdownQueued)
    && (env.streamer.Streaming? ==> was.streamer.Streaming?)
    && (Commanded(env.streamer) ==> Commanded(was.streamer))
  }

  lemma EnvMovesEnvs(r: Runner, e: nat, env: Env)
    requires CarriersOk(r) && EnvsOk(r) && e < |r.envs| && MovesAlone(r.envs[e], env)
    ensures EnvsOk(SetEnv(r, e, env))
  {}

  // ----- Every step -----

  lemma StartKeeps(r: Runner, t: nat, job: JobId, spc: StartPc, ok: bool)
    requires OwnershipOk(r) && Enabled(r, Advance(t, Fine)) && r.tasks[t] == Start(job, spc)
    ensures OwnershipOk(AdvanceStart(r, t, job, spc, ok).r)
  {
    if spc.SSpawn? || spc.SPostReady? || spc.SStore? {
      SpawnKeeps(r, t, job, spc, ok);
    } else {
      PrepareKeeps(r, t, job, spc, ok);
    }
  }

  lemma PrepareKeeps(r: Runner, t: nat, job: JobId, spc: StartPc, ok: bool)
    requires OwnershipOk(r) && Enabled(r, Advance(t, Fine)) && r.tasks[t] == Start(job, spc)
    requires !spc.SSpawn? && !spc.SPostReady? && !spc.SStore?
    ensures OwnershipOk(AdvanceStart(r, t, job, spc, ok).r)
  {
    var none := NewEnv(r.kind, job, ok);
    match spc
    case SLock => SameOwnership(r, t, Start(job, SCheckSlot), none);
    case SCheckSlot => SameOwnership(r, t, Start(job, if r.slot.Some? then SFail else SFindEnv), none);
    case SFindEnv =>
      var next := if !ok then SFail else if r.kind.Nspawn? then SPostAllocating else SOpenSocket;
      SameOwnership(r, t, Start(job, next), none);
    case SPostAllocating => SameOwnership(r, t, Start(job, SAllocate), none);
    case SAllocate => SameOwnership(r, t, Start(job, if ok then SOpenSocket else SFail), none);
    case SOpenSocket =>
      if ok { SameOwnership(r, t, Start(job, SPostBooting), none); } else { DieKeeps(r); }
    case SPostBooting => SameOwnership(r, t, Start(job, SSpawn), none);
    case SFail => DropOwnership(r, t, None, none);
  }

  lemma SpawnKeeps(r: Runner, t: nat, job: JobId, spc: StartPc, ok: bool)
    requires OwnershipOk(r) && Enabled(r, Advance(t, Fine)) && r.tasks[t] == Start(job, spc)
    requires spc.SSpawn? || spc.SPostReady? || spc.SStore?
    ensures OwnershipOk(AdvanceStart(r, t, job, spc, ok).r)
  {
    match spc
    case SSpawn =>
      var none := NewEnv(r.kind, job, ok);
      if !ok && r.kind.Nspawn? {
        SameOwnership(r, t, Start(job, SFail), none);
      } else {
        CreateOwnership(r, t, Start(job, SPostReady(|r.envs|)), none);
      }
    case SPostReady(e) =>
      assert r.envs[e := r.envs[e]] == r.envs;
      SameOwnership(r, t, Start(job, SStore(e)), r.envs[e]);
    case SStore(e) => StoreOwnership(r, t, e);
  }

  lemma StopChecksSlot(r: Runner, t: nat, job: JobId, how: How)
    requires OwnershipOk(r) && r.alive && t in r.tasks && r.tasks[t] == Stop(job, TCheckSlot)
    ensures OwnershipOk(AdvanceStop(r, t, job, TCheckSlot, how).r)
  {
    assert Inside(r.tasks[t]);
    if r.slot.Some? && r.slot.value.job == job {
      var e := r.slot.value.env;
      StopTakes(r, t, job, e, r.envs[e].(taken := r.envs[e].taken + 1));
    } else {
      StopIsRefused(r, t, job);
    }
  }

  lemma StopTakes(r: Runner, t: nat, job: JobId, e: nat, env: Env)
    requires OwnershipOk(r) && r.alive && t in r.tasks && r.tasks[t] == Stop(job, TCheckSlot) && r.lock == Some(t)
    requires r.slot == Some(Slot(job, e)) && e < |r.envs| && env == r.envs[e].(taken := r.envs[e].taken + 1)
    ensures OwnershipOk(Goto(SetEnv(r.(slot := None), e, env), t, Stop(job, TPostStopping(e))))
  {
    TakeOwnership(r, t, Stop(job, TPostStopping(e)), env);
  }

  lemma StopIsRefused(r: Runner, t: nat, job: JobId)
    requires OwnershipOk(r) && t in r.tasks && r.tasks[t] == Stop(job, TCheckSlot) && r.lock == Some(t)
    ensures OwnershipOk(Goto(r, t, Stop(job, TRefuse)))
  {
    SameOwnership(r, t, Stop(job, TRefuse), NewEnv(r.kind, job, true));
    assert AfterCarry(r, t, Stop(job, TRefuse), NewEnv(r.kind, job, true)) == Goto(r, t, Stop(job, TRefuse));
  }

  lemma StopEmptyKeeps(r: Runner, t: nat, job: JobId, tpc: StopPc, how: How)
    requires OwnershipOk(r) && Enabled(r, Advance(t, how)) && r.tasks[t] == Stop(job, tpc)
    requires CarriedBy(r.tasks[t]).None?
    ensures OwnershipOk(AdvanceStop(r, t, job, tpc, how).r)
  {
    var none := NewEnv(r.kind, job, true);
    match tpc
    case TLock => SameOwnership(r, t, Stop(job, TCheckSlot), none);
    case TCheckSlot => StopChecksSlot(r, t, job, how);
    case TRefuse => DropOwnership(r, t, None, none);
    case TFail => DropOwnership(r, t, None, none);
  }

  // A carrying task either goes on with its environment, or lets it go dead or orphaned.
  lemma StopEnvMove(r: Runner, t: nat, job: JobId, tpc: StopPc, how: How)
    requires t in r.tasks && r.tasks[t] == Stop(job, tpc) && CarriedBy(r.tasks[t]).Some?
    requires CarriedBy(r.tasks[t]).value < |r.envs| && EnvOk(r.kind, r.envs[CarriedBy(r.tasks[t]).value])
    requires StageOk(r.kind, r.tasks[t], r.envs[CarriedBy(r.tasks[t]).value])
    requires tpc.TJoinStreamer? ==> !r.envs[tpc.env].streamer.Streaming?
    ensures var r', e := AdvanceStop(r, t, job, tpc, how).r, CarriedBy(r.tasks[t]).value;
      |r'.envs| == |r.envs| && r'.envs[e].job == r.envs[e].job && EnvOk(r.kind, r'.envs[e])
  {}

  lemma StopCarryingMove(r: Runner, t: nat, job: JobId, tpc: StopPc, how: How)
    requires t in r.tasks && r.tasks[t] == Stop(job, tpc) && CarriedBy(r.tasks[t]).Some?
    requires CarriedBy(r.tasks[t]).value < |r.envs| && EnvOk(r.kind, r.envs[CarriedBy(r.tasks[t]).value])
    requires StageOk(r.kind, r.tasks[t], r.envs[CarriedBy(r.tasks[t]).value])
    requires tpc.TJoinStreamer? ==> !r.envs[tpc.env].streamer.Streaming?
    ensures var r', e := AdvanceStop(r, t, job, tpc, how).r, CarriedBy(r.tasks[t]).value;
      |r'.envs| == |r.envs| && (t in r'.tasks && CarriedBy(r'.tasks[t]).Some? ==>
        && CarriedBy(r'.tasks[t]) == Some(e) && r'.tasks[t].job == job && StageOk(r.kind, r'.tasks[t], r'.envs[e])
        && (Inside(r'.tasks[t]) <==> tpc != TUnlock(e) && tpc != TPostFinished(e)))
  {}

  lemma StopRunning(r: Runner, t: nat, job: JobId, tpc: StopPc, how: How)
    requires t in r.tasks && r.tasks[t] == Stop(job, tpc) && CarriedBy(r.tasks[t]).Some?
    requires CarriedBy(r.tasks[t]).value < |r.envs| && EnvOk(r.kind, r.envs[CarriedBy(r.tasks[t]).value])
    requires StageOk(r.kind, r.tasks[t], r.envs[CarriedBy(r.tasks[t]).value])
    requires tpc.TJoinStreamer? ==> !r.envs[tpc.env].streamer.Streaming?
    ensures var r', e := AdvanceStop(r, t, job, tpc, how).r, CarriedBy(r.tasks[t]).value;
      e < |r'.envs| && (r'.alive && Running(r'.envs[e]) ==>
        Running(r.envs[e]) && t in r'.tasks && CarriedBy(r'.tasks[t]).Some? && !AfterKill(tpc))
  {}

  lemma StopShape(r: Runner, t: nat, job: JobId, tpc: StopPc, how: How)
    requires t in r.tasks && r.tasks[t] == Stop(job, tpc) && CarriedBy(r.tasks[t]).Some?
    requires CarriedBy(r.tasks[t]).value < |r.envs| && (Inside(r.tasks[t]) <==> r.lock == Some(t)) && r.alive
    ensures var r', e := AdvanceStop(r, t, job, tpc, how).r, CarriedBy(r.tasks[t]).value;
      && |r'.envs| == |r.envs| && (!r'.alive ==> r' == Die(r))
      && (t in r'.tasks && CarriedBy(r'.tasks[t]) == Some(e) ==> r' == AfterCarry(r, t, r'.tasks[t], r'.envs[e]))
      && (t in r'.tasks && CarriedBy(r'.tasks[t]).None? ==>
        r' == AfterDrop(r, t, Some(r'.tasks[t]), r'.envs[e]) && r'.tasks[t] == Stop(job, TFail))
      && (t !in r'.tasks && r'.alive ==> r' == AfterDrop(r, t, None, r'.envs[e]))
  {
    var r', e := AdvanceStop(r, t, job, tpc, how).r, CarriedBy(r.tasks[t]).value;
    assert r.envs[e := r.envs[e]] == r.envs;
    assert r.tasks[t := r.tasks[t]] == r.tasks;
    assert r.envs[e := r'.envs[e]] == r'.envs;
  }

  lemma StopCarryingKeeps(r: Runner, t: nat, job: JobId, tpc: StopPc, how: How)
    requires OwnershipOk(r) && Enabled(r, Advance(t, how)) && r.tasks[t] == Stop(job, tpc)
    requires CarriedBy(r.tasks[t]).Some?
    ensures OwnershipOk(AdvanceStop(r, t, job, tpc, how).r)
  {
    assert StageOk(r.kind, r.tasks[t], r.envs[CarriedBy(r.tasks[t]).value]);
    StopEnvMove(r, t, job, tpc, how);
    StopCarryingMove(r, t, job, tpc, how);
    StopRunning(r, t, job, tpc, how);
    StopShape(r, t, job, tpc, how);
    var r', e := AdvanceStop(r, t, job, tpc, how).r, CarriedBy(r.tasks[t]).value;
    if !r'.alive {
      DieKeeps(r);
    } else if t in r'.tasks && CarriedBy(r'.tasks[t]).Some? {
      SameOwnership(r, t, r'.tasks[t], r'.envs[e]);
    } else if t in r'.tasks {
      DropOwnership(r, t, Some(Stop(job, TFail)), r'.envs[e]);
    } else {
      DropOwnership(r, t, None, r'.envs[e]);
    }
  }

  lemma OwnershipKept(r: Runner, ev: Event)
    requires OwnershipOk(r) && Enabled(r, ev)
    ensures OwnershipOk(Step(r, ev).r)
  {
    match ev
    case RecvStart(job) => NewTask(r, Start(job, SLock), Some(r.nextTask));
    case RecvStop(job) => NewTask(r, Stop(job, TLock), Some(r.nextTask));
    case Crash => DieKeeps(r);
    case Advance(t, how) => {
      match r.tasks[t]
      case Start(job, spc) => StartKeeps(r, t, job, spc, how.Fine?);
      case Stop(job, tpc) =>
        if CarriedBy(r.tasks[t]).None? {
          StopEmptyKeeps(r, t, job, tpc, how);
        } else {
          StopCarryingKeeps(r, t, job, tpc, how);
        }
    }
    case StreamerEof(e, stdout) => EofKeeps(r, e, stdout);
    case _ =>
      var e := ev.env;
      EnvMoves(r, e, Step(r, ev).r.envs[e]);
  }

  lemma EofKeeps(r: Runner, e: nat, stdout: bool)
    requires OwnershipOk(r) && Enabled(r, StreamerEof(e, stdout))
    ensures OwnershipOk(Step(r, StreamerEof(e, stdout)).r)
  {
    var s := if stdout then r.envs[e].streamer.(outClosed := true) else r.envs[e].streamer.(errClosed := true);
    var env := r.envs[e].(streamer := s);
    EnvMoves(r, e, env);
    NewTask(SetEnv(r, e, env), Stop(env.job, TLock), r.handling);
  }

  lemma StopHandled(r: Runner, t: nat, job: JobId, tpc: StopPc, how: How)
    requires HandlingOk(r) && r.alive && t in r.tasks && r.tasks[t] == Stop(job, tpc)
    requires CarriedBy(r.tasks[t]).Some? ==> CarriedBy(r.tasks[t]).value < |r.envs|
    ensures HandlingOk(AdvanceStop(r, t, job, tpc, how).r)
  {}

  lemma StartHandled(r: Runner, t: nat, job: JobId, spc: StartPc, ok: bool)
    requires HandlingOk(r) && r.alive && t in r.tasks && r.tasks[t] == Start(job, spc)
    ensures HandlingOk(AdvanceStart(r, t, job, spc, ok).r)
  {}

  lemma HandlingKept(r: Runner, ev: Event)
    requires HandlingOk(r) && Enabled(r, ev)
    ensures HandlingOk(Step(r, ev).r)
  {
    if ev.Advance? {
      match r.tasks[ev.task]
      case Start(job, spc) => StartHandled(r, ev.task, job, spc, ev.how.Fine?);
      case Stop(job, tpc) => StopHandled(r, ev.task, job, tpc, ev.how);
    }
  }

  lemma StepKeeps(r: Runner, ev: Event)
    requires RunnerOk(r) && Enabled(r, ev)
    ensures RunnerOk(Step(r, ev).r)
  {
    OwnershipKept(r, ev);
    HandlingKept(r, ev);
  }

  // ----- What follows -----

  /** In any interleaving at most one child is alive, apart from children a streamer's stop panicked on. */
  lemma AtMostOneChild(r: Runner, d: nat, e: nat)
    requires RunnerOk(r) && d < |r.envs| && e < |r.envs|
    requires Running(r.envs[d]) && Running(r.envs[e])
    ensures d == e
  {}

  /**
   `finished` is posted only once what `ReleasedBy` names is gone, by the one task that took the job.
   */
  lemma FinishedAfterRelease(r: Runner, ev: Event)
    requires RunnerOk(r) && Enabled(r, ev)
    requires Step(r, ev).post.Some? && Step(r, ev).post.value.state.RFinished?
    ensures ev.Advance? && r.tasks[ev.task].Stop? && CarriedBy(r.tasks[ev.task]).Some?
    ensures var e := CarriedBy(r.tasks[ev.task]).value;
      && e < |r.envs| && r.envs[e].job == Step(r, ev).post.value.job
      && r.envs[e].taken == 1 && ReleasedBy(r.kind, r.envs[e])
  {
    OnlyStopsFinish(r, ev);
  }

  lemma OnlyStopsFinish(r: Runner, ev: Event)
    requires Enabled(r, ev) && Step(r, ev).post.Some? && Step(r, ev).post.value.state.RFinished?
    ensures ev.Advance? && r.tasks[ev.task].Stop? && r.tasks[ev.task].tpc.TPostFinished?
    ensures Step(r, ev).post.value.job == r.tasks[ev.task].job
  {}

  // The order in which a stop lets an environment go.
  ghost predicate InOrder(was: Env, now: Env) {
    && (was.socketUp && !now.socketUp ==> !was.childAlive)
    && (now.shutdowns > was.shutdowns ==> !was.childAlive && !was.socketUp)
    && (was.proxiesUp && !now.proxiesUp ==> !was.childAlive && !was.socketUp && StreamerOver(was.streamer))
    && (was.mounted && !now.mounted ==>
      !was.childAlive && !was.socketUp && StreamerOver(was.streamer) && !was.proxiesUp)
    && (now.childAlive ==> was.childAlive) && (now.socketUp ==> was.socketUp)
    && (now.proxiesUp ==> was.proxiesUp) && (now.mounted ==> was.mounted)
  }

  lemma StopReleasesInOrder(r: Runner, t: nat, job: JobId, tpc: StopPc, how: How)
    requires CarriedBy(Stop(job, tpc)).Some? && CarriedBy(Stop(job, tpc)).value < |r.envs|
    requires StageOk(r.kind, Stop(job, tpc), r.envs[CarriedBy(Stop(job, tpc)).value])
    ensures var e := CarriedBy(Stop(job, tpc)).value; InOrder(r.envs[e], AdvanceStop(r, t, job, tpc, how).r.envs[e])
  {}

  lemma StartLeavesAsIs(r: Runner, t: nat, job: JobId, spc: StartPc, ok: bool, e: nat)
    requires e < |r.envs|
    ensures e < |AdvanceStart(r, t, job, spc, ok).r.envs| && AdvanceStart(r, t, job, spc, ok).r.envs[e] == r.envs[e]
  {}

  lemma StopLeavesAsIs(r: Runner, t: nat, job: JobId, tpc: StopPc, how: How, e: nat)
    requires e < |r.envs| && CarriedBy(Stop(job, tpc)) != Some(e)
    requires CarriedBy(Stop(job, tpc)).Some? ==> CarriedBy(Stop(job, tpc)).value < |r.envs|
    ensures e < |AdvanceStop(r, t, job, tpc, how).r.envs|
    ensures InOrder(r.envs[e], AdvanceStop(r, t, job, tpc, how).r.envs[e])
  {}

  lemma OthersStay(r: Runner, t: nat, how: How, e: nat)
    requires Enabled(r, Advance(t, how)) && e < |r.envs|
    requires r.tasks[t].Start? || CarriedBy(r.tasks[t]) != Some(e)
    ensures e < |Step(r, Advance(t, how)).r.envs| && InOrder(r.envs[e], Step(r, Advance(t, how)).r.envs[e])
  {
    match r.tasks[t]
    case Start(job, spc) => StartLeavesAsIs(r, t, job, spc, how.Fine?, e);
    case Stop(job, tpc) => StopLeavesAsIs(r, t, job, tpc, how, e);
  }

  /** Child death, socket, streamer, proxies and mount go in this order, and none comes back. */
  lemma ReleaseInOrder(r: Runner, ev: Event, e: nat)
    requires RunnerOk(r) && Enabled(r, ev) && e < |r.envs|
    ensures e < |Step(r, ev).r.envs| && InOrder(r.envs[e], Step(r, ev).r.envs[e])
  {
    if ev.Advance? {
      if r.tasks[ev.task].Start? || CarriedBy(r.tasks[ev.task]) != Some(e) {
        OthersStay(r, ev.task, ev.how, e);
      } else {
        StopReleasesInOrder(r, ev.task, r.tasks[ev.task].job, r.tasks[ev.task].tpc, ev.how);
      }
    } else {
      NothingReleased(r, ev, e);
    }
  }

  lemma NothingReleased(r: Runner, ev: Event, e: nat)
    requires Enabled(r, ev) && !ev.Advance? && e < |r.envs|
    ensures e < |Step(r, ev).r.envs| && InOrder(r.envs[e], Step(r, ev).r.envs[e])
  {}

  /** An environment is torn down, and its streamer commanded, at most once. */
  lemma AtMostOneTeardown(r: Runner, e: nat)
    requires RunnerOk(r) && e < |r.envs|
    ensures r.envs[e].taken <= 1 && r.envs[e].shutdowns <= 1
  {}

  // ----- Streamer and stop never wait for each other in a circle -----

  function StreamerMeasure(env: Env): nat {
    match env.streamer
    case Streaming(outClosed, errClosed, _) =>
      1 + env.unread + (if outClosed then 0 else 1) + (if errClosed then 0 else 1)
    case _ => 0
  }

  predicate StreamerEvent(ev: Event, e: nat) {
    || ev == StreamerReads(e) || ev == StreamerEof(e, true) || ev == StreamerEof(e, false)
    || ev == StreamerStops(e) || ev == StreamerFails(e) || ev == StreamerAbandoned(e)
  }

  // What matters to the streamer of environment `e`.
  predicate StreamerAsBefore(was: Env, now: Env) {
    (now.childAlive ==> was.childAlive) && StreamerMeasure(now) == StreamerMeasure(was)
  }

  lemma StopStreamers(r: Runner, t: nat, job: JobId, tpc: StopPc, how: How, e: nat)
    requires CarriedBy(Stop(job, tpc)).Some? ==> CarriedBy(Stop(job, tpc)).value < |r.envs|
    requires e < |r.envs|
    ensures e < |AdvanceStop(r, t, job, tpc, how).r.envs|
    ensures StreamerAsBefore(r.envs[e], AdvanceStop(r, t, job, tpc, how).r.envs[e])
  {}

  lemma AdvanceStreamers(r: Runner, t: nat, how: How, e: nat)
    requires Enabled(r, Advance(t, how)) && e < |r.envs|
    ensures e < |Step(r, Advance(t, how)).r.envs|
    ensures StreamerAsBefore(r.envs[e], Step(r, Advance(t, how)).r.envs[e])
  {
    if r.tasks[t].Stop? { StopStreamers(r, t, r.tasks[t].job, r.tasks[t].tpc, how, e); }
  }

  /** Once the child is dead no step of anyone raises the measure, and every streamer step lowers it. */
  lemma StreamerRunsDown(r: Runner, ev: Event, e: nat)
    requires Enabled(r, ev) && r.kind.Nspawn? && e < |r.envs| && !r.envs[e].childAlive
    ensures |Step(r, ev).r.envs| >= |r.envs| && !Step(r, ev).r.envs[e].childAlive
    ensures StreamerMeasure(Step(r, ev).r.envs[e]) <= StreamerMeasure(r.envs[e])
    ensures StreamerEvent(ev, e) ==> StreamerMeasure(Step(r, ev).r.envs[e]) < StreamerMeasure(r.envs[e])
  {
    if ev.Advance? { AdvanceStreamers(r, ev.task, ev.how, e); }
  }

  // A runner's states linked by events.
  ghost predicate Runs(rs: seq<Runner>, evs: seq<Event>) {
    |rs| == |evs| + 1 && forall k: nat | k < |evs| :: Enabled(rs[k], evs[k]) && rs[k + 1] == Step(rs[k], evs[k]).r
  }

  function StreamerSteps(evs: seq<Event>, e: nat): nat {
    if evs == [] then 0
    else
      var last := evs[|evs| - 1];
      StreamerSteps(evs[..|evs| - 1], e)
      + if StreamerEvent(last, e) then 1 else 0
  }

  /**
   However the tasks interleave, from the child's death on its streamer takes no more steps than there is
   output left, two ends of file and the end of its loop.
   */
  lemma {:induction false} StreamerStepsBounded(rs: seq<Runner>, evs: seq<Event>, e: nat, k: nat)
    requires Runs(rs, evs) && k <= |evs| && rs[0].kind.Nspawn? && e < |rs[0].envs| && !rs[0].envs[e].childAlive
    ensures rs[k].kind.Nspawn? && e < |rs[k].envs| && !rs[k].envs[e].childAlive
    ensures StreamerSteps(evs[..k], e) + StreamerMeasure(rs[k].envs[e]) <= StreamerMeasure(rs[0].envs[e])
  {
    if k > 0 {
      StreamerStepsBounded(rs, evs, e, k - 1);
      assert evs[..k][..k - 1] == evs[..k - 1];
      StreamerStep(rs, evs, e, k - 1);
    }
  }

  lemma StreamerStep(rs: seq<Runner>, evs: seq<Event>, e: nat, k: nat)
    requires Runs(rs, evs) && k < |evs| && rs[k].kind.Nspawn? && e < |rs[k].envs| && !rs[k].envs[e].childAlive
    ensures rs[k + 1].kind.Nspawn? && e < |rs[k + 1].envs| && !rs[k + 1].envs[e].childAlive
    ensures StreamerMeasure(rs[k + 1].envs[e]) <= StreamerMeasure(rs[k].envs[e])
    ensures StreamerEvent(evs[k], e) ==> StreamerMeasure(rs[k + 1].envs[e]) < StreamerMeasure(rs[k].envs[e])
  {
    assert Enabled(rs[k], evs[k]) && rs[k + 1] == Step(rs[k], evs[k]).r;
    StreamerRunsDown(rs[k], evs[k], e);
    KindStays(rs[k], evs[k]);
  }

  function Count(evs: seq<Event>, ev: Event): nat {
    if evs == [] then 0 else Count(evs[..|evs| - 1], ev) + if evs[|evs| - 1] == ev then 1 else 0
  }

  lemma StopKeepsOutput(r: Runner, t: nat, job: JobId, tpc: StopPc, how: How, e: nat)
    requires CarriedBy(Stop(job, tpc)).Some? ==> CarriedBy(Stop(job, tpc)).value < |r.envs|
    requires e < |r.envs|
    ensures e < |AdvanceStop(r, t, job, tpc, how).r.envs|
    ensures AdvanceStop(r, t, job, tpc, how).r.envs[e].unread == r.envs[e].unread
  {}

  lemma StepOutput(r: Runner, ev: Event, e: nat)
    requires Enabled(r, ev) && e < |r.envs|
    ensures e < |Step(r, ev).r.envs|
    ensures Step(r, ev).r.envs[e].unread + (if ev == StreamerReads(e) then 1 else 0)
      == r.envs[e].unread + if ev == ChildWrites(e) then 1 else 0
  {
    if ev.Advance? && r.tasks[ev.task].Stop? {
      StopKeepsOutput(r, ev.task, r.tasks[ev.task].job, r.tasks[ev.task].tpc, ev.how, e);
    }
  }

  /** Output waits for the streamer until it is read: nothing of it is lost or read twice. */
  lemma {:induction false} OutputIsConserved(rs: seq<Runner>, evs: seq<Event>, e: nat, k: nat)
    requires Runs(rs, evs) && k <= |evs| && e < |rs[0].envs|
    ensures e < |rs[k].envs|
    ensures rs[k].envs[e].unread + Count(evs[..k], StreamerReads(e))
      == rs[0].envs[e].unread + Count(evs[..k], ChildWrites(e))
  {
    if k > 0 {
      OutputIsConserved(rs, evs, e, k - 1);
      assert evs[..k][..k - 1] == evs[..k - 1];
      assert Enabled(rs[k - 1], evs[k - 1]) && rs[k] == Step(rs[k - 1], evs[k - 1]).r;
      StepOutput(rs[k - 1], evs[k - 1], e);
    }
  }

  lemma KindStays(r: Runner, ev: Event)
    requires Enabled(r, ev)
    ensures Step(r, ev).r.kind == r.kind
  {}

  lemma {:induction false} RunsKeep(rs: seq<Runner>, evs: seq<Event>, k: nat)
    requires Runs(rs, evs) && k <= |evs| && RunnerOk(rs[0])
    ensures RunnerOk(rs[k])
  {
    if k > 0 {
      RunsKeep(rs, evs, k - 1);
      RunsStep(rs, evs, k - 1);
    }
  }

  lemma RunsStep(rs: seq<Runner>, evs: seq<Event>, k: nat)
    requires Runs(rs, evs) && k < |evs| && RunnerOk(rs[k])
    ensures RunnerOk(rs[k + 1])
  {
    assert Enabled(rs[k], evs[k]) && rs[k + 1] == Step(rs[k], evs[k]).r;
    StepKeeps(rs[k], evs[k]);
  }

  lemma JoinedChildIsDead(r: Runner, t: nat)
    requires RunnerOk(r) && t in r.tasks && r.tasks[t].Stop? && r.tasks[t].tpc.TJoinStreamer?
    ensures r.tasks[t].tpc.env < |r.envs| && !r.envs[r.tasks[t].tpc.env].childAlive
  {
    assert CarriedBy(r.tasks[t]) == Some(r.tasks[t].tpc.env);
  }

  /**
   While stop_job joins the streamer, either the join can complete or the streamer can take its command,
   whoever holds whichever lock: the streamer waits for no one.
   */
  lemma JoinNeverStuck(r: Runner, t: nat, how: How)
    requires RunnerOk(r) && t in r.tasks && r.tasks[t].Stop? && r.tasks[t].tpc.TJoinStreamer?
    ensures var e := r.tasks[t].tpc.env;
      Enabled(r, Advance(t, how)) || Enabled(r, StreamerStops(e))
    ensures r.envs[r.tasks[t].tpc.env].streamer.Streaming? <==> !Enabled(r, Advance(t, how))
  {
    assert CarriedBy(r.tasks[t]) == Some(r.tasks[t].tpc.env);
  }
}
