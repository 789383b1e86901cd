/**
 One runner process: start_job and stop_job tasks taking turns under the `current_job` mutex, the
 environments they bring up, and the console streamer that may ask for a stop of its own.
 Subprocesses, sockets and mounts succeed or fail arbitrarily. The connector awaits each start or stop it
 asks for before it takes the next message, on the main task of the process; only the streamer's stops are
 tasks of their own. So a panic of a streamer's stop ends that task and drops its lock guards, and a panic
 of one the connector asked for ends the process.
 */
module Runner {
  import opened Common
  import opened UpdateTable

  datatype Kind = Nspawn | Netboot

  datatype Streamer =
    | NoStreamer
    | Streaming(outClosed: bool, errClosed: bool, shutdownQueued: bool)
    | StreamerDone
    | StreamerPanicked

  // Everything start_job brings up for a job. `unread`: console output the streamer has not read yet;
  // `senderGone`: the streamer's command channel was dropped; `proxiesUp`: the proxies, if the job has any,
  // have not been through the loop that shuts them down.
  // History: `orphan`, a streamer's stop panicked while the child was alive; `taken`, `shutdowns`, how often
  // stop_job took the job out of the slot and commanded the streamer.
  datatype Env = Env(
    job: JobId, childAlive: bool, childLocked: bool, unread: nat, socketUp: bool, streamer: Streamer,
    senderGone: bool, proxiesUp: bool, mounted: bool, orphan: bool, taken: nat, shutdowns: nat)

  datatype StartPc =
    | SLock | SCheckSlot | SFindEnv | SPostAllocating | SAllocate | SOpenSocket | SPostBooting | SSpawn
    | SPostReady(env: nat) | SStore(env: nat)
    | SFail

  datatype StopPc =
    | TLock | TCheckSlot | TPostStopping(env: nat) | TLockChild(env: nat) | TKill(env: nat) | TJoinSocket(env: nat)
    | TSendShutdown(env: nat) | TJoinStreamer(env: nat) | TDownProxies(env: nat) | TUnmount(env: nat)
    | TUnlock(env: nat) | TPostFinished(env: nat)
    // The job is not in the slot; the file system could not be unmounted.
    | TRefuse | TFail

  datatype Task = Start(job: JobId, spc: StartPc) | Stop(job: JobId, tpc: StopPc)

  datatype Slot = Slot(job: JobId, env: nat)

  // `handling`: the task the connector awaits; `alive`: the process has not ended.
  datatype Runner = Runner(
    kind: Kind, alive: bool, handling: Option<nat>, lock: Option<nat>, slot: Option<Slot>,
    tasks: map<nat, Task>, envs: seq<Env>, nextTask: nat)

  datatype Post = Post(job: JobId, state: RunnerState)

  // How an outside call ends: well, with an error it returns, or with a panic.
  datatype How = Fine | Errs | Panics

  datatype Event =
    | RecvStart(job: JobId)
    | RecvStop(job: JobId)
    | Advance(task: nat, how: How)
    | ChildExits(env: nat)
    | ChildWrites(env: nat)
    | StreamerReads(env: nat)
    | StreamerEof(env: nat, stdout: bool)
    | StreamerStops(env: nat)
    | StreamerFails(env: nat)
    | StreamerAbandoned(env: nat)
    | Crash

  function CarriedBy(task: Task): Option<nat> {
    match task
    case Start(_, SPostReady(e)) => Some(e)
    case Start(_, SStore(e)) => Some(e)
    case Start(_, _) => None
    case Stop(_, TLock) => None
    case Stop(_, TCheckSlot) => None
    case Stop(_, TRefuse) => None
    case Stop(_, TFail) => None
    case Stop(_, tpc) => Some(tpc.env)
  }

  predicate Inside(task: Task) {
    match task
    case Start(_, spc) => !spc.SLock?
    case Stop(_, tpc) => !tpc.TLock? && !tpc.TPostFinished?
  }

  // A streamer that still runs its loop and has a file descriptor to read from.
  predicate Reads(s: Streamer) {
    s.Streaming? && !(s.outClosed && s.errClosed)
  }

  predicate Enabled(r: Runner, ev: Event) {
    r.alive && Possible(r, ev)
  }

  predicate Possible(r: Runner, ev: Event) {
    match ev
    case RecvStart(_) => r.handling.None?
    case RecvStop(_) => r.handling.None?
    case Advance(t, _) =>
      && t in r.tasks
      && match r.tasks[t] {
        case Start(_, SLock) => r.lock.None?
        case Stop(_, TLock) => r.lock.None?
        // Joining waits for the streamer task to end.
        case Stop(_, TJoinStreamer(e)) => e < |r.envs| && !r.envs[e].streamer.Streaming?
        case task => CarriedBy(task).Some? ==> CarriedBy(task).value < |r.envs|
      }
    case ChildExits(e) => e < |r.envs| && r.envs[e].childAlive
    case ChildWrites(e) => e < |r.envs| && (r.envs[e].childAlive || r.kind.Netboot?)
    case StreamerReads(e) => e < |r.envs| && Reads(r.envs[e].streamer) && r.envs[e].unread > 0
    case StreamerEof(e, stdout) =>
      e < |r.envs| && r.envs[e].streamer.Streaming?
      && (if stdout then !r.envs[e].streamer.outClosed else !r.envs[e].streamer.errClosed)
    case StreamerStops(e) =>
      e < |r.envs| && r.envs[e].streamer.Streaming? && r.envs[e].streamer.shutdownQueued
    // A read fails, or it ends and the look at the child does.
    case StreamerFails(e) => e < |r.envs| && Reads(r.envs[e].streamer)
    // The command channel ends once a queued command, if there is one, was taken.
    case StreamerAbandoned(e) =>
      e < |r.envs| && r.envs[e].senderGone && r.envs[e].streamer.Streaming? && !r.envs[e].streamer.shutdownQueued
    // The process panics elsewhere, or is killed.
    case Crash => true
  }

  function AddTask(r: Runner, task: Task): Runner {
    r.(tasks := r.tasks[r.nextTask := task], nextTask := r.nextTask + 1)
  }

  function SetEnv(r: Runner, e: nat, env: Env): Runner
    requires e < |r.envs|
  {
    r.(envs := r.envs[e := env])
  }

  function EndTask(r: Runner, t: nat): Runner {
    r.(
      tasks := r.tasks - {t}, lock := if r.lock == Some(t) then None else r.lock,
      handling := if r.handling == Some(t) then None else r.handling)
  }

  function Goto(r: Runner, t: nat, task: Task): Runner {
    r.(tasks := r.tasks[t := task])
  }

  // The process ends, and with it every task; a container it started is not killed.
  function Die(r: Runner): Runner {
    r.(alive := false, handling := None, lock := None, slot := None, tasks := map[])
  }

  // The guard on the child and the job are dropped with the task; the child itself is not killed.
  function PanicStop(r: Runner, t: nat, e: nat): Runner
    requires e < |r.envs|
  {
    var env := r.envs[e];
    if r.handling == Some(t) then Die(r)
    else
      var left := env.(childLocked := false, senderGone := true, orphan := env.orphan || env.childAlive);
      EndTask(SetEnv(r, e, left), t)
  }

  // What a task did, and the state it posted while doing so.
  datatype Effect = Effect(r: Runner, post: Option<Post>)

  function NewEnv(kind: Kind, job: JobId, ok: bool): Env {
    match kind
    case Nspawn =>
      Env(job, true, false, 0, true, Streaming(false, false, false), false, true, true, false, 0, 0)
    // Without a serial console (`!ok`) there is no streamer. The single reader counts as stdout.
    case Netboot =>
      var streamer := if ok then Streaming(false, true, false) else NoStreamer;
      Env(job, false, false, 0, true, streamer, false, true, false, false, 0, 0)
  }

  function AdvanceStart(r: Runner, t: nat, job: JobId, spc: StartPc, ok: bool): Effect {
    match spc
    case SLock => Effect(Goto(r.(lock := Some(t)), t, Start(job, SCheckSlot)), None)
    case SCheckSlot => Effect(Goto(r, t, Start(job, if r.slot.Some? then SFail else SFindEnv)), None)
    case SFindEnv =>
      var next := if !ok then SFail else if r.kind.Nspawn? then SPostAllocating else SOpenSocket;
      Effect(Goto(r, t, Start(job, next)), None)
    case SPostAllocating => Effect(Goto(r, t, Start(job, SAllocate)), Some(Post(job, RStarting)))
    case SAllocate => Effect(Goto(r, t, Start(job, if ok then SOpenSocket else SFail)), None)
    // Without its socket the start panics, and the connector with it.
    case SOpenSocket => if ok then Effect(Goto(r, t, Start(job, SPostBooting)), None) else Effect(Die(r), None)
    case SPostBooting => Effect(Goto(r, t, Start(job, SSpawn)), Some(Post(job, RStarting)))
    case SSpawn =>
      if !ok && r.kind.Nspawn? then Effect(Goto(r, t, Start(job, SFail)), None)
      else Effect(
        Goto(r.(envs := r.envs + [NewEnv(r.kind, job, ok)]), t, Start(job, SPostReady(|r.envs|))), None)
    case SPostReady(e) => Effect(Goto(r, t, Start(job, SStore(e))), Some(Post(job, RReady)))
    case SStore(e) => Effect(EndTask(r.(slot := Some(Slot(job, e))), t), None)
    case SFail => Effect(EndTask(r, t), Some(Post(job, RFailed)))
  }

  function AdvanceStop(r: Runner, t: nat, job: JobId, tpc: StopPc, how: How): Effect
    requires CarriedBy(Stop(job, tpc)).Some? ==> CarriedBy(Stop(job, tpc)).value < |r.envs|
  {
    match tpc
    case TLock => Effect(Goto(r.(lock := Some(t)), t, Stop(job, TCheckSlot)), None)
    case TCheckSlot =>
      if r.slot.Some? && r.slot.value.job == job && r.slot.value.env < |r.envs| then
        var e := r.slot.value.env;
        var taken := r.envs[e].(taken := r.envs[e].taken + 1);
        Effect(Goto(SetEnv(r.(slot := None), e, taken), t, Stop(job, TPostStopping(e))), None)
      else Effect(Goto(r, t, Stop(job, TRefuse)), None)
    case TPostStopping(e) =>
      var next := if r.kind.Nspawn? then TLockChild(e) else TJoinSocket(e);
      Effect(Goto(r, t, Stop(job, next)), Some(Post(job, RStopping)))
    case TLockChild(e) => Effect(Goto(SetEnv(r, e, r.envs[e].(childLocked := true)), t, Stop(job, TKill(e))), None)
    // SIGTERM and the timeout only wait; then the loop: reap, or kill and look again.
    case TKill(e) =>
      if !r.envs[e].childAlive && !how.Panics? then Effect(Goto(r, t, Stop(job, TJoinSocket(e))), None)
      else if how.Fine? then Effect(SetEnv(r, e, r.envs[e].(childAlive := false)), None)
      else Effect(PanicStop(r, t, e), None)
    case TJoinSocket(e) =>
      if !how.Fine? then Effect(PanicStop(r, t, e), None)
      else Effect(
        Goto(SetEnv(r, e, r.envs[e].(socketUp := false)), t,
          Stop(job, if r.envs[e].streamer.NoStreamer? then TUnlock(e) else TSendShutdown(e))), None)
    case TSendShutdown(e) =>
      if r.envs[e].streamer.Streaming? then
        Effect(
          Goto(SetEnv(r, e, r.envs[e].(
            streamer := r.envs[e].streamer.(shutdownQueued := true), shutdowns := r.envs[e].shutdowns + 1)),
            t, Stop(job, TJoinStreamer(e))), None)
      else Effect(PanicStop(r, t, e), None)
    case TJoinStreamer(e) =>
      if r.envs[e].streamer.StreamerDone? then Effect(Goto(r, t, Stop(job, TDownProxies(e))), None)
      else Effect(PanicStop(r, t, e), None)
    // The loop over the proxies. An error is only logged, and that proxy is down as well: see `ProxyTeardown`.
    case TDownProxies(e) =>
      if how.Panics? then Effect(PanicStop(r, t, e), None)
      else Effect(
        Goto(SetEnv(r, e, r.envs[e].(proxiesUp := false)), t,
          Stop(job, if r.kind.Nspawn? then TUnmount(e) else TUnlock(e))), None)
    case TUnmount(e) =>
      if how.Fine? then Effect(Goto(SetEnv(r, e, r.envs[e].(mounted := false)), t, Stop(job, TUnlock(e))), None)
      else Effect(Goto(r, t, Stop(job, TFail)), None)
    // The lock guard is dropped before the last post.
    case TUnlock(e) => Effect(Goto(r.(lock := None), t, Stop(job, TPostFinished(e))), None)
    case TPostFinished(e) => Effect(EndTask(r, t), Some(Post(job, RFinished)))
    case TRefuse => Effect(EndTask(r, t), Some(Post(job, RFailed)))
    case TFail => Effect(EndTask(r, t), Some(Post(job, RFailed)))
  }

  function Step(r: Runner, ev: Event): Effect
    requires Enabled(r, ev)
  {
    match ev
    case RecvStart(job) => Effect(AddTask(r, Start(job, SLock)).(handling := Some(r.nextTask)), None)
    case RecvStop(job) => Effect(AddTask(r, Stop(job, TLock)).(handling := Some(r.nextTask)), None)
    case Advance(t, how) => (
      match r.tasks[t]
      case Start(job, spc) => AdvanceStart(r, t, job, spc, how.Fine?)
      case Stop(job, tpc) => AdvanceStop(r, t, job, tpc, how)
    )
    case ChildExits(e) => Effect(SetEnv(r, e, r.envs[e].(childAlive := false)), None)
    case ChildWrites(e) => Effect(SetEnv(r, e, r.envs[e].(unread := r.envs[e].unread + 1)), None)
    case StreamerReads(e) => Effect(SetEnv(r, e, r.envs[e].(unread := r.envs[e].unread - 1)), None)
    case StreamerEof(e, stdout) =>
      var env := r.envs[e];
      var s := if stdout then env.streamer.(outClosed := true) else env.streamer.(errClosed := true);
      var r' := SetEnv(r, e, env.(streamer := s));
      // try_lock and try_wait: only a child nobody is stopping, and which has exited, asks for a stop.
      if r.kind.Nspawn? && !env.childLocked && !env.childAlive then Effect(AddTask(r', Stop(env.job, TLock)), None)
      else Effect(r', None)
    case StreamerStops(e) => Effect(SetEnv(r, e, r.envs[e].(streamer := StreamerDone)), None)
    case StreamerFails(e) => Effect(SetEnv(r, e, r.envs[e].(streamer := StreamerPanicked)), None)
    case Crash => Effect(Die(r), None)
    case StreamerAbandoned(e) => Effect(SetEnv(r, e, r.envs[e].(streamer := StreamerPanicked)), None)
  }

  function Idle(kind: Kind): Runner {
    Runner(kind, true, None, None, None, map[], [], 0)
  }
}
