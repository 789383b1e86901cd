/** Every action of a live server keeps the agreement of `Agreement`, or kills the server for a documented reason. */
module ServerSteps {
  import opened Common
  import opened Jobs
  import opened UpdateTable
  import opened Coordinator
  import opened Agreement

  lemma MessageKeeps(sh: Shared, pid: Pid, srv: Server, a: Action)
    requires InAgreement(sh, pid, srv) && Enabled(sh, srv, a)
    requires a.ConnectRunner? || a.ScheduleCast? || a.Terminate? || a.Tick? || a.TimerFires?
    ensures Kept(sh, pid, srv, ServerStep(sh, pid, srv, a))
  {
    match ServerStep(sh, pid, srv, a)
    case Continue(sh', srv') =>
      assert Agree(srv', ViewOf(sh, pid, srv.board));
      SameShared(sh, pid, srv, srv');
    case Dies(_, _) => FrameRefl(sh, pid, srv.board);
  }

  lemma UpdateKeeps(sh: Shared, pid: Pid, srv: Server, job: JobId, posted: RunnerState, now: Time)
    requires InAgreement(sh, pid, srv) && srv.pc.Idle?
    ensures Kept(sh, pid, srv, HandleUpdate(sh, srv, job, posted, now))
  {
    if job !in srv.active {
      SameShared(sh, pid, srv, srv);
    } else {
      match UpdateAct(srv.active[job], posted, now)
      case Put(next) =>
        var active := srv.active[job := next];
        assert active.Keys == srv.active.Keys;
        assert |active| == |active.Keys| == |srv.active.Keys|;
        SameShared(sh, pid, srv, srv.(active := active, pc := Scheduling));
      case Remove(code) =>
        assert Elems([job]) == {job};
        BeginCompleteKeeps(sh, pid, srv, [job], code, ThenSchedule, srv.runner);
      case NoClause => FrameRefl(sh, pid, srv.board);
    }
  }

  lemma DownKeeps(sh: Shared, pid: Pid, srv: Server, a: Action)
    requires InAgreement(sh, pid, srv) && a.Down? && Enabled(sh, srv, a)
    ensures Kept(sh, pid, srv, ServerStep(sh, pid, srv, a))
  {
    if srv.runner == Some(a.conn) {
      BeginCompleteKeeps(sh, pid, srv, a.keys, Failed, ThenIdle, None);
    } else {
      FrameRefl(sh, pid, srv.board);
    }
  }

  /** While no handler of this board's server is between its effects, the filter of pending_jobs removes nothing. */
  lemma PendingNotActive(sh: Shared, pid: Pid, srv: Server, now: Time, limit: Option<nat>, found: seq<JobId>)
    requires InAgreement(sh, pid, srv) && srv.pc.Scheduling?
    requires QueryResult(sh.rows, Eligible(sh.rows, srv.board, now), limit, found)
    ensures WithoutActive(found, sh.jobReg) == found
  {
    forall i | 0 <= i < |found| ensures found[i] !in sh.jobReg {
      var j := found[i];
      assert j in Eligible(sh.rows, srv.board, now);
      assert j !in Open(sh.rows, srv.board);
      assert j !in Held(sh, pid);
    }
    FilterRemovesNothing(found, sh.jobReg);
  }

  lemma QueryKeeps(sh: Shared, pid: Pid, srv: Server, now: Time, found: seq<JobId>)
    requires InAgreement(sh, pid, srv) && Enabled(sh, srv, Query(now, found))
    ensures Kept(sh, pid, srv, HandleQuery(sh, srv, found))
  {
    PendingNotActive(sh, pid, srv, now, Some(1), found);
    if found != [] {
      assert found[0] in Waiting(sh.rows, srv.board);
    }
    SameShared(sh, pid, srv, HandleQuery(sh, srv, found).srv);
  }

  lemma RegisterKeeps(sh: Shared, pid: Pid, srv: Server)
    requires InAgreement(sh, pid, srv) && srv.pc.Picked?
    ensures Kept(sh, pid, srv, HandleRegister(sh, pid, srv))
  {
    var j := srv.pc.job;
    assert j !in Open(sh.rows, srv.board);
    assert j !in Held(sh, pid);
    assert j !in sh.jobReg;
    var sh' := sh.(jobReg := sh.jobReg[j := pid]);
    assert Held(sh', pid) == Held(sh, pid) + {j};
  }

  lemma MarkKeeps(sh: Shared, pid: Pid, srv: Server)
    requires InAgreement(sh, pid, srv) && srv.pc.Registered?
    ensures Kept(sh, pid, srv, HandleMark(sh, srv))
  {
    var j := srv.pc.job;
    var sh' := sh.(rows := sh.rows[j := sh.rows[j].(dispatched := true)]);
    assert sh'.rows.Keys == sh.rows.Keys;
    assert Open(sh'.rows, srv.board) == Open(sh.rows, srv.board) + {j};
    assert Waiting(sh'.rows, srv.board) == Waiting(sh.rows, srv.board) - {j};
    assert SentFor(sh', srv.board) == SentFor(sh, srv.board);
    assert Held(sh', pid) == Held(sh, pid);
  }

  lemma SentJobsAppend(sent: seq<StartMsg>, m: StartMsg)
    ensures SentJobs(sent + [m]) == SentJobs(sent) + {m.job}
  {
    forall j ensures j in SentJobs(sent + [m]) <==> j in SentJobs(sent) + {m.job} {
      if j in SentJobs(sent) {
        var x :| x in sent && x.job == j;
        assert x in sent + [m];
      }
      if j == m.job { assert m in sent + [m]; }
    }
  }

  lemma SendFresh(sh: Shared, pid: Pid, srv: Server)
    requires InAgreement(sh, pid, srv) && srv.pc.Dispatched?
    ensures forall i | 0 <= i < |sh.sent| :: sh.sent[i].job != srv.pc.job
    ensures srv.pc.job in Open(sh.rows, srv.board)
  {
    var j := srv.pc.job;
    assert j in Open(sh.rows, srv.board);
    forall i | 0 <= i < |sh.sent| ensures sh.sent[i].job != j {
      var m := sh.sent[i];
      assert m in sh.sent && m.job in SentJobs(sh.sent);
      assert j !in SentFor(sh, srv.board);
    }
  }

  lemma SendAgrees(srv: Server, v: View, stamp: Time)
    requires Agree(srv, v) && srv.pc.Dispatched? && srv.runner.Some?
    requires srv.pc.job !in v.waiting
    ensures Agree(
      srv.(active := srv.active[srv.pc.job := WaitForStart(stamp)], timer := Arm(srv.timer), pc := Scheduling),
      v.(sent := v.sent + {srv.pc.job}))
  {
    var active := srv.active[srv.pc.job := WaitForStart(stamp)];
    assert active.Keys == srv.active.Keys + {srv.pc.job};
    assert |active| == |active.Keys| == |srv.active.Keys| + 1;
  }

  lemma SendShared(sh: Shared, pid: Pid, board: BoardId, m: StartMsg)
    requires SharedOk(sh) && Owns(sh, pid, board) && m.job in Open(sh.rows, board)
    requires forall i | 0 <= i < |sh.sent| :: sh.sent[i].job != m.job
    ensures var sh' := sh.(sent := sh.sent + [m]);
      && SharedOk(sh') && Owns(sh', pid, board) && Frame(sh, sh', pid, board)
      && ViewOf(sh', pid, board) == ViewOf(sh, pid, board).(sent := SentFor(sh, board) + {m.job})
  {
    var sh' := sh.(sent := sh.sent + [m]);
    SentJobsAppend(sh.sent, m);
    assert Held(sh', pid) == Held(sh, pid);
    assert SentFor(sh', board) == SentFor(sh, board) + {m.job};
  }

  lemma SendKeeps(sh: Shared, pid: Pid, srv: Server, stamp: Time)
    requires InAgreement(sh, pid, srv) && srv.pc.Dispatched?
    ensures Kept(sh, pid, srv, HandleSend(sh, srv, stamp))
  {
    if srv.runner.None? {
      FrameRefl(sh, pid, srv.board);
    } else {
      SendFresh(sh, pid, srv);
      var m := StartMsg(srv.pc.job, srv.runner.value);
      SendShared(sh, pid, srv.board, m);
      SendAgrees(srv, ViewOf(sh, pid, srv.board), stamp);
    }
  }

  lemma WriteCodesRows(rows: Rows, board: BoardId, jobs: seq<JobId>, code: CompletionCode)
    requires Elems(jobs) <= Open(rows, board)
    ensures WithCode(rows, jobs, code).Keys == rows.Keys
    ensures RowsLe(rows, WithCode(rows, jobs, code))
    ensures forall j | j in rows && rows[j].board != board :: WithCode(rows, jobs, code)[j] == rows[j]
    ensures Open(WithCode(rows, jobs, code), board) == Open(rows, board) - Elems(jobs)
    ensures Waiting(WithCode(rows, jobs, code), board) == Waiting(rows, board)
    ensures forall j | j in rows && j in jobs :: IsOpen(rows[j])
  {
    var rows' := WithCode(rows, jobs, code);
    forall j | j in rows
      ensures j in jobs ==> rows[j].board == board && IsOpen(rows[j])
      ensures rows'[j] == if j in Elems(jobs) then rows[j].(code := Some(code)) else rows[j]
    {
      if j in jobs { assert j in Elems(jobs); }
    }
    assert forall j :: j in Open(rows', board) <==> j in Open(rows, board) && j !in Elems(jobs);
    assert forall j :: j in Waiting(rows', board) <==> j in Waiting(rows, board);
  }

  lemma WriteCodesShared(sh: Shared, pid: Pid, board: BoardId, jobs: seq<JobId>, code: CompletionCode)
    requires SharedOk(sh) && Owns(sh, pid, board) && Elems(jobs) <= Open(sh.rows, board)
    ensures var sh' := sh.(rows := WithCode(sh.rows, jobs, code));
      && SharedOk(sh') && Owns(sh', pid, board) && Frame(sh, sh', pid, board)
      && ViewOf(sh', pid, board) == ViewOf(sh, pid, board).(open := Open(sh.rows, board) - Elems(jobs))
  {
    WriteCodesRows(sh.rows, board, jobs, code);
    var sh' := sh.(rows := WithCode(sh.rows, jobs, code));
    assert forall j | j in sh.rows :: RowLe(sh.rows[j], sh'.rows[j]);
    assert SentFor(sh', board) == SentFor(sh, board);
    assert Held(sh', pid) == Held(sh, pid);
  }

  lemma OpenNotWaiting(rows: Rows, board: BoardId)
    ensures Open(rows, board) !! Waiting(rows, board)
  {
    assert forall j | j in Open(rows, board) :: j !in Waiting(rows, board);
  }

  lemma WriteCodesKeeps(sh: Shared, pid: Pid, srv: Server)
    requires InAgreement(sh, pid, srv) && srv.pc.Completing?
    ensures Kept(sh, pid, srv, HandleWriteCodes(sh, srv))
  {
    var jobs := srv.pc.jobs;
    var v := ViewOf(sh, pid, srv.board);
    WriteCodesShared(sh, pid, srv.board, jobs, srv.pc.code);
    OpenNotWaiting(sh.rows, srv.board);
    assert v.open - Elems(jobs) == srv.active.Keys;
    assert Agree(srv.(pc := Unregistering(jobs, srv.pc.next)), v.(open := v.open - Elems(jobs)));
  }

  lemma UnregisterAgrees(srv: Server, v: View)
    requires Agree(srv, v) && srv.pc.Unregistering? && srv.pc.jobs != []
    ensures Agree(
      srv.(pc := Unregistering(srv.pc.jobs[1..], srv.pc.next)), v.(held := v.held - {srv.pc.jobs[0]}))
  {
    var jobs := srv.pc.jobs;
    var j := jobs[0];
    assert j in Elems(jobs);
    ElemsOfTail(jobs);
    WithoutOne(srv.active.Keys, Elems(jobs), j);
  }

  lemma WithoutOne(a: set<JobId>, b: set<JobId>, j: JobId)
    requires a !! b && j in b
    ensures (a + b) - {j} == a + (b - {j})
  {}

  lemma UnregisterKeeps(sh: Shared, pid: Pid, srv: Server)
    requires InAgreement(sh, pid, srv) && srv.pc.Unregistering?
    ensures Kept(sh, pid, srv, HandleUnregister(sh, pid, srv))
  {
    var jobs := srv.pc.jobs;
    var v := ViewOf(sh, pid, srv.board);
    if jobs == [] {
      assert Elems(jobs) == {};
      SameShared(sh, pid, srv, srv.(pc := Resume(srv.pc.next)));
    } else {
      var j := jobs[0];
      assert j in Elems(jobs);
      assert j in Held(sh, pid);
      var sh' := sh.(jobReg := sh.jobReg - {j});
      UnregisterAgrees(srv, v);
      assert ViewOf(sh', pid, srv.board) == v.(held := v.held - {j}) by {
        assert Held(sh', pid) == Held(sh, pid) - {j};
        assert SentFor(sh', srv.board) == SentFor(sh, srv.board);
      }
      assert Frame(sh, sh', pid, srv.board);
      assert SharedOk(sh');
      assert Owns(sh', pid, srv.board);
    }
  }

  lemma SuperviseKeeps(sh: Shared, pid: Pid, srv: Server, now: Time)
    requires InAgreement(sh, pid, srv) && srv.pc.Supervising?
    ensures Kept(sh, pid, srv, HandleSupervise(sh, srv, now))
  {
    var rest := srv.pc.rest;
    if rest == [] || !rest[0].1.WaitForStart? {
      SameShared(sh, pid, srv, HandleSupervise(sh, srv, now).srv);
    } else if rest[0].1.since + 5 * Second < now {
      var j := rest[0].0;
      assert Elems([j]) == {j};
      assert IsSnapshot(rest[1..], srv.active - {j});
      BeginCompleteKeeps(sh, pid, srv, [j], RunnerTimeout, ThenSupervise(rest[1..]), srv.runner);
    } else {
      FrameRefl(sh, pid, srv.board);
    }
  }

  /** One action of a live server, whatever the action. */
  lemma StepKeeps(sh: Shared, pid: Pid, srv: Server, a: Action)
    requires InAgreement(sh, pid, srv) && Enabled(sh, srv, a)
    ensures Kept(sh, pid, srv, ServerStep(sh, pid, srv, a))
  {
    match a
    case UpdateState(job, posted, now) => UpdateKeeps(sh, pid, srv, job, posted, now);
    case Down(_, _) => DownKeeps(sh, pid, srv, a);
    case Query(now, found) => QueryKeeps(sh, pid, srv, now, found);
    case Register => RegisterKeeps(sh, pid, srv);
    case MarkDispatched => MarkKeeps(sh, pid, srv);
    case Send(stamp) => SendKeeps(sh, pid, srv, stamp);
    case WriteCodes => WriteCodesKeeps(sh, pid, srv);
    case Unregister => UnregisterKeeps(sh, pid, srv);
    case Supervise(now) => SuperviseKeeps(sh, pid, srv, now);
    case _ => MessageKeeps(sh, pid, srv, a);
  }

  // ----- Exactly when a server dies of its own doing -----

  ghost predicate Fatal(srv: Server, a: Action) {
    match a
    case UpdateState(job, posted, now) =>
      && job in srv.active
      && ((posted.RStarting? && (srv.active[job].Ready? || srv.active[job].Stopping?))
          || (posted.RReady? && srv.active[job].Stopping?))
    case Down(conn, _) => srv.runner != Some(conn)
    case Terminate(_) => srv.runner.None?
    case Send(_) => srv.runner.None?
    case Supervise(now) =>
      srv.pc.Supervising? && srv.pc.rest != []
      && srv.pc.rest[0].1.WaitForStart? && now <= srv.pc.rest[0].1.since + 5_000_000
    case _ => false
  }

  /**
   A server in agreement dies of its own doing exactly on an action `Fatal` names: no Map.pop!, no
   registration and no Repo.update! ever fails.
   */
  lemma DiesExactly(sh: Shared, pid: Pid, srv: Server, a: Action)
    requires InAgreement(sh, pid, srv) && Enabled(sh, srv, a)
    ensures ServerStep(sh, pid, srv, a).Dies? <==> Fatal(srv, a)
  {
    match a
    case Down(conn, keys) =>
      if srv.runner == Some(conn) { PopAllSucceeds(srv.active, keys); }
    case UpdateState(job, posted, now) =>
      if job in srv.active { PopOne(srv.active, job); }
    case Supervise(now) =>
      if srv.pc.rest != [] { PopOne(srv.active, srv.pc.rest[0].0); }
    case Register => RegisterKeeps(sh, pid, srv);
    case MarkDispatched => MarkKeeps(sh, pid, srv);
    case _ =>
  }

  lemma PopOne(active: map<JobId, CoordState>, job: JobId)
    requires job in active
    ensures PopAll(active, [job]) == Some(active - {job})
  {
    assert PopAll(active - {job}, []) == Some(active - {job});
  }
}
