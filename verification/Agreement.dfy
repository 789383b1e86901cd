/**
 What one board server, the registry of jobs and the jobs table have to do with each other, at every
 program counter, and that each action of the server keeps it.
 */
module Agreement {
  import opened Common
  import opened Jobs
  import opened UpdateTable
  import opened Coordinator

  // ----- One server's share of what all processes see -----

  ghost function Held(sh: Shared, pid: Pid): set<JobId> {
    set j | j in sh.jobReg && sh.jobReg[j] == pid
  }

  ghost function Open(rows: Rows, board: BoardId): set<JobId> {
    set j | j in rows && rows[j].board == board && IsOpen(rows[j])
  }

  ghost function Waiting(rows: Rows, board: BoardId): set<JobId> {
    set j | j in rows && rows[j].board == board && Undispatched(rows[j])
  }

  ghost function SentFor(sh: Shared, board: BoardId): set<JobId> {
    set j | j in SentJobs(sh.sent) && j in sh.rows && sh.rows[j].board == board
  }

  datatype View = View(held: set<JobId>, open: set<JobId>, waiting: set<JobId>, sent: set<JobId>)

  ghost function ViewOf(sh: Shared, pid: Pid, board: BoardId): View {
    View(Held(sh, pid), Open(sh.rows, board), Waiting(sh.rows, board), SentFor(sh, board))
  }

  // ----- The three copies, program counter by program counter -----

  predicate InTick(pc: Pc) {
    match pc
    case Supervising(_) => true
    case Completing(_, _, next) => next.ThenSupervise?
    case Unregistering(_, next) => next.ThenSupervise?
    case _ => false
  }

  ghost predicate NextOk(next: Next, active: map<JobId, CoordState>) {
    next.ThenSupervise? ==> IsSnapshot(next.rest, active)
  }

  ghost predicate PcAgrees(pc: Pc, active: map<JobId, CoordState>, v: View) {
    match pc
    case Checking => false
    case Registering => false
    case Booting => active == map[] && v.held == {}
    case Idle => v.held == active.Keys == v.open
    case Scheduling => v.held == active.Keys == v.open
    case Picked(j) => v.held == active.Keys == v.open && j in v.waiting
    case Registered(j) => v.held == active.Keys + {j} && v.open == active.Keys && j in v.waiting
    case Dispatched(j) =>
      v.held == v.open == active.Keys + {j} && j !in active && j !in v.sent
    case Completing(jobs, _, next) =>
      && Distinct(jobs) && Elems(jobs) !! active.Keys && NextOk(next, active)
      && v.held == v.open == active.Keys + Elems(jobs)
    case Unregistering(jobs, next) =>
      && Distinct(jobs) && Elems(jobs) !! active.Keys && NextOk(next, active)
      && v.held == active.Keys + Elems(jobs) && v.open == active.Keys && Elems(jobs) !! v.waiting
    case Supervising(rest) => v.held == active.Keys == v.open && IsSnapshot(rest, active)
  }

  ghost predicate Bounded(srv: Server) {
    && |srv.active| <= srv.maxJobs
    && (srv.pc.Picked? || srv.pc.Registered? || srv.pc.Dispatched? ==> |srv.active| < srv.maxJobs)
    && (srv.runner.None? ==> srv.active == map[])
  }

  ghost predicate TimerOk(srv: Server) {
    && (srv.active != map[] ==> srv.timer.isSet)
    && (srv.timer.running ==> srv.timer.isSet)
    && (srv.timer.isSet ==> srv.timer.running || srv.timer.ticks > 0 || InTick(srv.pc))
  }

  ghost predicate Agree(srv: Server, v: View) {
    && Bounded(srv) && TimerOk(srv)
    && v.waiting !! v.sent
    && PcAgrees(srv.pc, srv.active, v)
  }

  // ----- Facts about the shared part alone -----

  ghost predicate SharedOk(sh: Shared) {
    && (forall j | j in sh.rows :: sh.rows[j].code.Some? ==> sh.rows[j].dispatched)
    && (forall j | j in sh.jobReg :: j in sh.rows)
    && (forall i | 0 <= i < |sh.sent| :: sh.sent[i].job in sh.rows && sh.rows[sh.sent[i].job].dispatched)
    && (forall i, k | 0 <= i < k < |sh.sent| :: sh.sent[i].job != sh.sent[k].job)
  }

  // The registered jobs of this board are exactly those this server holds.
  ghost predicate Owns(sh: Shared, pid: Pid, board: BoardId) {
    forall j | j in sh.jobReg && j in sh.rows :: sh.jobReg[j] == pid <==> sh.rows[j].board == board
  }

  // What a server may change: its own board's rows, its own registry entries, messages for its own jobs.
  ghost predicate Frame(sh: Shared, sh': Shared, pid: Pid, board: BoardId) {
    && sh'.rows.Keys == sh.rows.Keys
    && RowsLe(sh.rows, sh'.rows)
    && (forall j | j in sh.rows && sh.rows[j].board != board :: sh'.rows[j] == sh.rows[j])
    && (forall j | j in sh.jobReg && sh.jobReg[j] != pid :: j in sh'.jobReg && sh'.jobReg[j] == sh.jobReg[j])
    && (forall j | j in sh'.jobReg && sh'.jobReg[j] != pid :: j in sh.jobReg && sh.jobReg[j] == sh'.jobReg[j])
    && (sh'.sent == sh.sent
        || (exists m :: sh'.sent == sh.sent + [m] && m.job in sh.rows && sh.rows[m.job].board == board))
  }

  predicate Documented(why: Crash) {
    !why.KeyMissing? && !why.AlreadyRegistered? && !why.StaleRow?
  }

  ghost predicate Kept(sh: Shared, pid: Pid, srv: Server, out: Outcome) {
    && SharedOk(out.sh)
    && Owns(out.sh, pid, srv.board)
    && Frame(sh, out.sh, pid, srv.board)
    && match out
      case Continue(sh', srv') =>
        && srv'.board == srv.board && srv'.maxJobs == srv.maxJobs && Live(srv')
        && Agree(srv', ViewOf(sh', pid, srv.board))
      case Dies(_, why) => Documented(why)
  }

  ghost predicate InAgreement(sh: Shared, pid: Pid, srv: Server) {
    SharedOk(sh) && Owns(sh, pid, srv.board) && Agree(srv, ViewOf(sh, pid, srv.board))
  }

  // ----- complete_jobs: popping -----

  lemma {:induction false} PopAllSucceeds(active: map<JobId, CoordState>, jobs: seq<JobId>)
    requires Distinct(jobs) && Elems(jobs) <= active.Keys
    ensures PopAll(active, jobs) == Some(active - Elems(jobs))
  {
    if jobs == [] {
      assert active - Elems(jobs) == active;
    } else {
      assert jobs[0] in Elems(jobs);
      ElemsOfTail(jobs);
      PopAllSucceeds(active - {jobs[0]}, jobs[1..]);
      assert (active - {jobs[0]}) - Elems(jobs[1..]) == active - Elems(jobs);
    }
  }

  /** Map.pop! raises exactly when the list names an absent job or names one twice. */
  lemma {:induction false} PopAllExactly(active: map<JobId, CoordState>, jobs: seq<JobId>)
    ensures PopAll(active, jobs).Some? <==> Distinct(jobs) && Elems(jobs) <= active.Keys
  {
    if jobs != [] {
      PopAllExactly(active - {jobs[0]}, jobs[1..]);
      assert jobs[0] in Elems(jobs);
      if Distinct(jobs) && Elems(jobs) <= active.Keys {
        ElemsOfTail(jobs);
      }
    }
  }

  lemma PoppedAgrees(srv: Server, v: View, jobs: seq<JobId>, code: CompletionCode, next: Next, runner: Option<Pid>)
    requires Agree(srv, v)
    requires srv.pc.Idle? || (srv.pc.Supervising? && next.ThenSupervise?)
    requires Distinct(jobs) && Elems(jobs) <= srv.active.Keys
    requires NextOk(next, srv.active - Elems(jobs))
    requires runner == srv.runner || Elems(jobs) == srv.active.Keys
    ensures Agree(srv.(runner := runner, active := srv.active - Elems(jobs), pc := Completing(jobs, code, next)), v)
  {
    var active := srv.active - Elems(jobs);
    assert active.Keys + Elems(jobs) == srv.active.Keys;
    CardMonotone(active.Keys, srv.active.Keys);
    if Elems(jobs) == srv.active.Keys { assert active == map[]; }
    if srv.active == map[] { assert active == map[]; }
  }

  lemma SameShared(sh: Shared, pid: Pid, srv: Server, srv': Server)
    requires InAgreement(sh, pid, srv)
    requires srv'.board == srv.board && srv'.maxJobs == srv.maxJobs
    requires Agree(srv', ViewOf(sh, pid, srv.board))
    ensures Kept(sh, pid, srv, Continue(sh, srv'))
  {
    FrameRefl(sh, pid, srv.board);
  }

  lemma BeginCompleteKeeps(sh: Shared, pid: Pid, srv: Server, jobs: seq<JobId>, code: CompletionCode, next: Next,
      runner: Option<Pid>)
    requires InAgreement(sh, pid, srv)
    requires srv.pc.Idle? || (srv.pc.Supervising? && next.ThenSupervise?)
    requires Distinct(jobs) && Elems(jobs) <= srv.active.Keys
    requires NextOk(next, srv.active - Elems(jobs))
    requires runner == srv.runner || Elems(jobs) == srv.active.Keys
    ensures Kept(sh, pid, srv, BeginComplete(sh, srv.(runner := runner), jobs, code, next))
  {
    PopAllSucceeds(srv.active, jobs);
    PoppedAgrees(srv, ViewOf(sh, pid, srv.board), jobs, code, next, runner);
    SameShared(sh, pid, srv,
      srv.(runner := runner, active := srv.active - Elems(jobs), pc := Completing(jobs, code, next)));
  }

  lemma FrameRefl(sh: Shared, pid: Pid, board: BoardId)
    ensures Frame(sh, sh, pid, board)
  {}
}
