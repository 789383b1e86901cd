/**
 The coordinator as a state machine. One action is one effect other processes can observe: a database
 write, a registry change, a message taken or sent. A handler is a chain of actions linked by the
 program counter, so other servers, callers and crashes may come between any two of its effects.
 */
module Coordinator {
  import opened Common
  import opened Jobs
  import opened UpdateTable

  // `isSet`: the state holds a timer reference; `running`: that timer has not fired yet; `ticks`:
  // supervisor messages in the mailbox.
  datatype Timer = Timer(isSet: bool, running: bool, ticks: nat)

  // arm_runner_supervisor_timer
  function Arm(t: Timer): Timer {
    if !t.isSet || !t.running then t.(isSet := true, running := true) else t
  }

  type Snapshot = seq<(JobId, CoordState)>

  // What a handler does once complete_jobs returns.
  datatype Next = ThenIdle | ThenSchedule | ThenSupervise(rest: Snapshot)

  datatype Pc =
    // init, before and after the server is registered for its board
    | Checking | Registering | Booting
    | Idle
    // schedule_jobs
    | Scheduling | Picked(job: JobId) | Registered(job: JobId) | Dispatched(job: JobId)
    // complete_jobs, after the jobs were popped from the local map
    | Completing(jobs: seq<JobId>, code: CompletionCode, next: Next)
    | Unregistering(jobs: seq<JobId>, next: Next)
    // supervise_runners, folding over the snapshot taken when the tick was handled
    | Supervising(rest: Snapshot)

  datatype Server = Server(
    board: BoardId, maxJobs: nat, runner: Option<Pid>,
    active: map<JobId, CoordState>, timer: Timer, pc: Pc)

  predicate Live(srv: Server) {
    !srv.pc.Checking? && !srv.pc.Registering?
  }

  datatype StartMsg = StartMsg(job: JobId, runner: Pid)

  // What all processes share: the jobs table, the registry of jobs, and every start_job message ever sent.
  datatype Shared = Shared(rows: Rows, jobReg: map<JobId, Pid>, sent: seq<StartMsg>)

  function SentJobs(sent: seq<StartMsg>): set<JobId> {
    set m | m in sent :: m.job
  }

  datatype Action =
    // Messages, taken only between handlers.
    | ConnectRunner(conn: Pid)
    | ScheduleCast
    | UpdateState(job: JobId, posted: RunnerState, now: Time)
    | Terminate(job: JobId)
    | Down(conn: Pid, keys: seq<JobId>)
    | Tick(snapshot: Snapshot)
    // The timer expires: a supervisor message is delivered.
    | TimerFires
    // The effects inside handlers.
    | Query(now: Time, found: seq<JobId>)
    | Register
    | MarkDispatched
    | Send(stamp: Time)
    | WriteCodes
    | Unregister
    | Supervise(now: Time)

  datatype Crash =
    | Killed              // from outside, at any point
    | BoardUnknown        // init returns a value GenServer rejects
    | LostRace            // init returns :ignore
    | MissingClause       // no clause of the update table
    | StrayDown           // no clause for a monitor message of another process
    | NilRunner           // send to a nil runner_pid
    | UnexpiredWait       // `:lt = DateTime.compare(...)` does not match
    | KeyMissing          // Map.pop! on an absent key
    | AlreadyRegistered   // `{:ok, _} = Registry.register(...)` does not match
    | StaleRow            // Repo.update! on an absent row

  datatype Outcome = Continue(sh: Shared, srv: Server) | Dies(sh: Shared, why: Crash)

  ghost predicate IsSnapshot(list: Snapshot, active: map<JobId, CoordState>) {
    && (forall i | 0 <= i < |list| :: list[i].0 in active && active[list[i].0] == list[i].1)
    && (forall i, k | 0 <= i < k < |list| :: list[i].0 != list[k].0)
  }

  ghost predicate FullSnapshot(list: Snapshot, active: map<JobId, CoordState>) {
    IsSnapshot(list, active) && forall j | j in active :: (j, active[j]) in list
  }

  ghost predicate Enabled(sh: Shared, srv: Server, a: Action) {
    match a
    case ConnectRunner(_) => srv.pc.Idle?
    case ScheduleCast => srv.pc.Idle?
    case UpdateState(_, _, _) => srv.pc.Idle?
    // terminate_job looks the job up in the registry first; by the time this server is idle again the
    // start message of a job it registered has been sent.
    case Terminate(job) => srv.pc.Idle? && job in SentJobs(sh.sent)
    case Down(_, keys) => srv.pc.Idle? && Distinct(keys) && Elems(keys) == srv.active.Keys
    case Tick(list) => srv.pc.Idle? && srv.timer.ticks > 0 && FullSnapshot(list, srv.active)
    case TimerFires => Live(srv) && srv.timer.running
    case Query(now, found) =>
      srv.pc.Scheduling? && QueryResult(sh.rows, Eligible(sh.rows, srv.board, now), Some(1), found)
    case Register => srv.pc.Picked?
    case MarkDispatched => srv.pc.Registered?
    case Send(_) => srv.pc.Dispatched?
    case WriteCodes => srv.pc.Completing?
    case Unregister => srv.pc.Unregistering?
    case Supervise(_) => srv.pc.Supervising?
  }

  // The fold of complete_jobs over the local map; None when Map.pop! raises.
  function PopAll(active: map<JobId, CoordState>, jobs: seq<JobId>): Option<map<JobId, CoordState>> {
    if jobs == [] then Some(active)
    else if jobs[0] !in active then None
    else PopAll(active - {jobs[0]}, jobs[1..])
  }

  function BeginComplete(sh: Shared, srv: Server, jobs: seq<JobId>, code: CompletionCode, next: Next): Outcome {
    match PopAll(srv.active, jobs)
    case None => Dies(sh, KeyMissing)
    case Some(active) => Continue(sh, srv.(active := active, pc := Completing(jobs, code, next)))
  }

  function Resume(next: Next): Pc {
    match next
    case ThenIdle => Idle
    case ThenSchedule => Scheduling
    case ThenSupervise(rest) => Supervising(rest)
  }

  function HandleUpdate(sh: Shared, srv: Server, job: JobId, posted: RunnerState, now: Time): Outcome {
    if job !in srv.active then Continue(sh, srv)
    else match UpdateAct(srv.active[job], posted, now)
      case Put(next) => Continue(sh, srv.(active := srv.active[job := next], pc := Scheduling))
      case Remove(code) => BeginComplete(sh, srv, [job], code, ThenSchedule)
      case NoClause => Dies(sh, MissingClause)
  }

  function HandleQuery(sh: Shared, srv: Server, found: seq<JobId>): Outcome {
    if |srv.active| < srv.maxJobs then
      var pending := WithoutActive(found, sh.jobReg);
      if pending == [] then Continue(sh, srv.(pc := Idle)) else Continue(sh, srv.(pc := Picked(pending[0])))
    else Continue(sh, srv.(pc := Idle))
  }

  function HandleSupervise(sh: Shared, srv: Server, now: Time): Outcome
    requires srv.pc.Supervising?
  {
    var rest := srv.pc.rest;
    if rest == [] then Continue(sh, srv.(timer := Arm(srv.timer), pc := Idle))
    else if !rest[0].1.WaitForStart? then Continue(sh, srv.(pc := Supervising(rest[1..])))
    else if rest[0].1.since + 5 * Second < now then
      BeginComplete(sh, srv, [rest[0].0], RunnerTimeout, ThenSupervise(rest[1..]))
    else Dies(sh, UnexpiredWait)
  }

  function HandleRegister(sh: Shared, pid: Pid, srv: Server): Outcome
    requires srv.pc.Picked?
  {
    if srv.pc.job in sh.jobReg then Dies(sh, AlreadyRegistered)
    else Continue(sh.(jobReg := sh.jobReg[srv.pc.job := pid]), srv.(pc := Registered(srv.pc.job)))
  }

  function HandleMark(sh: Shared, srv: Server): Outcome
    requires srv.pc.Registered?
  {
    var job := srv.pc.job;
    if job !in sh.rows then Dies(sh, StaleRow)
    else Continue(sh.(rows := sh.rows[job := sh.rows[job].(dispatched := true)]), srv.(pc := Dispatched(job)))
  }

  // The send, and the update of the local state after it.
  function HandleSend(sh: Shared, srv: Server, stamp: Time): Outcome
    requires srv.pc.Dispatched?
  {
    if srv.runner.None? then Dies(sh, NilRunner)
    else Continue(
      sh.(sent := sh.sent + [StartMsg(srv.pc.job, srv.runner.value)]),
      srv.(active := srv.active[srv.pc.job := WaitForStart(stamp)], timer := Arm(srv.timer), pc := Scheduling))
  }

  function HandleWriteCodes(sh: Shared, srv: Server): Outcome
    requires srv.pc.Completing?
  {
    Continue(sh.(rows := WithCode(sh.rows, srv.pc.jobs, srv.pc.code)),
      srv.(pc := Unregistering(srv.pc.jobs, srv.pc.next)))
  }

  function HandleUnregister(sh: Shared, pid: Pid, srv: Server): Outcome
    requires srv.pc.Unregistering?
  {
    var jobs := srv.pc.jobs;
    if jobs == [] then Continue(sh, srv.(pc := Resume(srv.pc.next)))
    else
      // Registry.unregister only removes the caller's own entry.
      var reg := if jobs[0] in sh.jobReg && sh.jobReg[jobs[0]] == pid then sh.jobReg - {jobs[0]} else sh.jobReg;
      Continue(sh.(jobReg := reg), srv.(pc := Unregistering(jobs[1..], srv.pc.next)))
  }

  function ServerStep(sh: Shared, pid: Pid, srv: Server, a: Action): Outcome
    requires Enabled(sh, srv, a)
  {
    match a
    case ConnectRunner(conn) => Continue(sh, srv.(runner := Some(conn), pc := Scheduling))
    case ScheduleCast => Continue(sh, srv.(pc := Scheduling))
    case UpdateState(job, posted, now) => HandleUpdate(sh, srv, job, posted, now)
    case Terminate(_) => if srv.runner.None? then Dies(sh, NilRunner) else Continue(sh, srv)
    case Down(conn, keys) =>
      if srv.runner == Some(conn) then BeginComplete(sh, srv.(runner := None), keys, Failed, ThenIdle)
      else Dies(sh, StrayDown)
    case Tick(list) =>
      Continue(sh, srv.(timer := srv.timer.(ticks := srv.timer.ticks - 1), pc := Supervising(list)))
    case TimerFires =>
      Continue(sh, srv.(timer := srv.timer.(running := false, ticks := srv.timer.ticks + 1)))
    case Query(_, found) => HandleQuery(sh, srv, found)
    case Register => HandleRegister(sh, pid, srv)
    case MarkDispatched => HandleMark(sh, srv)
    case Send(stamp) => HandleSend(sh, srv, stamp)
    case WriteCodes => HandleWriteCodes(sh, srv)
    case Unregister => HandleUnregister(sh, pid, srv)
    case Supervise(now) => HandleSupervise(sh, srv, now)
  }

  // ----- The whole system: any number of boards, servers and callers of get_or_start -----

  datatype Caller =
    | Looking(board: BoardId)
    | AwaitingStart(board: BoardId, spawned: Pid)      // inside GenServer.start
    | LookingAgain(board: BoardId, spawned: Pid)
    | Found(board: BoardId, server: Pid)
    | MatchFailed(board: BoardId)                // the second lookup found nothing

  datatype World = World(
    maxJobs: nat, boards: set<BoardId>, sh: Shared, serverReg: map<BoardId, Pid>, servers: map<Pid, Server>,
    callers: map<int, Caller>,
    // History: process ids ever used; whom a spawned server saw registered for its board; why servers died.
    spawned: set<Pid>, winner: map<Pid, Pid>, crashes: seq<Crash>)

  datatype Step =
    | CreateJob(job: JobId, row: Row)
    | Arrive(c: int, board: BoardId)
    | Lookup(c: int, newPid: Pid)
    | StartReturns(c: int)
    | LookupAgain(c: int)
    | CheckBoard(p: Pid)
    | ClaimBoard(p: Pid)
    | SweepRows(p: Pid)
    | Kill(p: Pid)
    | Run(p: Pid, a: Action)

  ghost predicate Possible(w: World, s: Step) {
    match s
    case CreateJob(job, row) =>
      job !in w.sh.rows && row.board in w.boards && Undispatched(row)
    case Arrive(c, _) => c !in w.callers
    case Lookup(c, newPid) => c in w.callers && w.callers[c].Looking? && newPid !in w.spawned
    // GenServer.start returns when init has: the server is up, or gone.
    case StartReturns(c) =>
      && c in w.callers && w.callers[c].AwaitingStart?
      && (w.callers[c].spawned in w.servers ==>
        Live(w.servers[w.callers[c].spawned]) && !w.servers[w.callers[c].spawned].pc.Booting?)
    case LookupAgain(c) => c in w.callers && w.callers[c].LookingAgain?
    case CheckBoard(p) => p in w.servers && w.servers[p].pc.Checking?
    case ClaimBoard(p) => p in w.servers && w.servers[p].pc.Registering?
    case SweepRows(p) => p in w.servers && w.servers[p].pc.Booting?
    case Kill(p) => p in w.servers
    case Run(p, a) => p in w.servers && Enabled(w.sh, w.servers[p], a)
  }

  function Dropped(reg: map<JobId, Pid>, pid: Pid): map<JobId, Pid> {
    map j | j in reg && reg[j] != pid :: reg[j]
  }

  // A process ends: its registry entries go with it.
  function Die(w: World, p: Pid, sh: Shared, why: Crash): World {
    w.(sh := sh.(jobReg := Dropped(sh.jobReg, p)),
       serverReg := Dropped(w.serverReg, p),
       servers := w.servers - {p},
       crashes := w.crashes + [why])
  }

  function SetPc(w: World, p: Pid, pc: Pc): World
    requires p in w.servers
  {
    w.(servers := w.servers[p := w.servers[p].(pc := pc)])
  }

  function Apply(w: World, s: Step): World
    requires Possible(w, s)
  {
    match s
    case CreateJob(job, row) => w.(sh := w.sh.(rows := w.sh.rows[job := row]))
    case Arrive(c, board) => w.(callers := w.callers[c := Looking(board)])
    case Lookup(c, newPid) =>
      var board := w.callers[c].board;
      if board in w.serverReg then w.(callers := w.callers[c := Found(board, w.serverReg[board])])
      else w.(
        callers := w.callers[c := AwaitingStart(board, newPid)],
        spawned := w.spawned + {newPid},
        servers := w.servers[newPid := Server(board, w.maxJobs, None, map[], Timer(false, false, 0), Checking)])
    case StartReturns(c) =>
      w.(callers := w.callers[c := LookingAgain(w.callers[c].board, w.callers[c].spawned)])
    case LookupAgain(c) =>
      var board := w.callers[c].board;
      if board in w.serverReg then w.(callers := w.callers[c := Found(board, w.serverReg[board])])
      else w.(callers := w.callers[c := MatchFailed(board)])
    case CheckBoard(p) =>
      if w.servers[p].board in w.boards then SetPc(w, p, Registering) else Die(w, p, w.sh, BoardUnknown)
    case ClaimBoard(p) =>
      var board := w.servers[p].board;
      if board in w.serverReg then Die(w, p, w.sh, LostRace).(winner := w.winner[p := w.serverReg[board]])
      else SetPc(w, p, Booting).(serverReg := w.serverReg[board := p], winner := w.winner[p := p])
    case SweepRows(p) =>
      SetPc(w, p, Idle).(sh := w.sh.(rows := Sweep(w.sh.rows, w.servers[p].board)))
    case Kill(p) => Die(w, p, w.sh, Killed)
    case Run(p, a) =>
      match ServerStep(w.sh, p, w.servers[p], a)
      case Continue(sh, srv) => w.(sh := sh, servers := w.servers[p := srv])
      case Dies(sh, why) => Die(w, p, sh, why)
  }

  ghost predicate Initial(w: World) {
    && w.sh == Shared(map[], map[], [])
    && w.serverReg == map[] && w.servers == map[] && w.callers == map[]
    && w.spawned == {} && w.winner == map[] && w.crashes == []
  }

  /** A run: worlds linked by steps. */
  ghost predicate IsRun(ws: seq<World>) {
    && ws != [] && Initial(ws[0])
    && forall i | 0 <= i < |ws| - 1 :: Reaches(ws[i], ws[i + 1])
  }

  ghost predicate Reaches(w: World, w': World) {
    exists s :: Possible(w, s) && w' == Apply(w, s)
  }

  /** A run with the steps it takes. */
  ghost predicate Takes(ws: seq<World>, steps: seq<Step>) {
    && |ws| == |steps| + 1 && Initial(ws[0])
    && forall i | 0 <= i < |steps| :: Possible(ws[i], steps[i]) && ws[i + 1] == Apply(ws[i], steps[i])
  }
}
