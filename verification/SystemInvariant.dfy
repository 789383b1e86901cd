/** The invariant of the whole coordinator, with any number of boards, servers, callers and crashes. */
module SystemInvariant {
  import opened Common
  import opened Jobs
  import opened UpdateTable
  import opened Coordinator
  import opened Agreement
  import opened ServerSteps

  // Both registries point at live servers of the right board; a live server is registered.
  ghost predicate RegistriesOk(w: World) {
    && (forall b | b in w.serverReg ::
      w.serverReg[b] in w.servers && Live(w.servers[w.serverReg[b]]) && w.servers[w.serverReg[b]].board == b)
    && (forall p | p in w.servers && Live(w.servers[p]) ::
      w.servers[p].board in w.serverReg && w.serverReg[w.servers[p].board] == p)
    && (forall j | j in w.sh.jobReg && j in w.sh.rows ::
      w.sh.jobReg[j] in w.servers && Live(w.servers[w.sh.jobReg[j]])
      && w.servers[w.sh.jobReg[j]].board == w.sh.rows[j].board)
  }

  ghost predicate ServerOk(w: World, p: Pid)
    requires p in w.servers
  {
    var srv := w.servers[p];
    if Live(srv) then Agree(srv, ViewOf(w.sh, p, srv.board))
    else srv == Server(srv.board, srv.maxJobs, None, map[], Timer(false, false, 0), srv.pc)
  }

  ghost predicate WinnersOk(w: World) {
    && w.servers.Keys <= w.spawned
    && w.winner.Keys <= w.spawned
    && (forall p | p in w.winner :: w.winner[p] in w.spawned)
    && (forall p | p in w.servers :: p in w.winner <==> Live(w.servers[p]))
    && (forall p | p in w.servers && p in w.winner :: w.winner[p] == p)
    && (forall p | p in w.winner && w.winner[p] in w.servers :: Live(w.servers[w.winner[p]]))
  }

  ghost predicate CallerOk(w: World, caller: Caller) {
    match caller
    case Looking(_) => true
    case MatchFailed(_) => true
    case Found(b, p) => p in w.spawned && (p in w.servers ==> Live(w.servers[p]) && w.servers[p].board == b)
    case AwaitingStart(b, p) => StartedFor(w, b, p)
    case LookingAgain(b, p) => StartedFor(w, b, p) && (p in w.servers ==> Live(w.servers[p]))
  }

  ghost predicate StartedFor(w: World, b: BoardId, p: Pid) {
    && p in w.spawned
    && (p in w.servers ==> w.servers[p].board == b)
    && (p in w.winner && w.winner[p] in w.servers ==> w.servers[w.winner[p]].board == b)
  }

  ghost predicate CallersOk(w: World) {
    forall c | c in w.callers :: CallerOk(w, w.callers[c])
  }

  ghost predicate Inv(w: World) {
    && SharedOk(w.sh)
    && RegistriesOk(w)
    && (forall p | p in w.servers :: ServerOk(w, p))
    && WinnersOk(w)
    && CallersOk(w)
    && (forall i | 0 <= i < |w.crashes| :: Documented(w.crashes[i]))
  }

  lemma OwnsFromRegistries(w: World, p: Pid)
    requires SharedOk(w.sh) && RegistriesOk(w) && p in w.servers && Live(w.servers[p])
    ensures Owns(w.sh, p, w.servers[p].board)
  {}

  /** A server's actions leave every other board's share as it was. */
  lemma OtherView(sh: Shared, sh': Shared, p: Pid, board: BoardId, q: Pid, other: BoardId)
    requires Frame(sh, sh', p, board) && q != p && other != board
    ensures ViewOf(sh', q, other) == ViewOf(sh, q, other)
  {
    assert forall j :: j in Held(sh', q) <==> j in Held(sh, q);
    assert forall j :: j in Open(sh'.rows, other) <==> j in Open(sh.rows, other);
    assert forall j :: j in Waiting(sh'.rows, other) <==> j in Waiting(sh.rows, other);
    if sh'.sent != sh.sent {
      var m :| sh'.sent == sh.sent + [m] && m.job in sh.rows && sh.rows[m.job].board == board;
      SentJobsAppend(sh.sent, m);
    }
    assert forall j :: j in SentFor(sh', other) <==> j in SentFor(sh, other);
  }

  lemma DropView(sh: Shared, p: Pid, q: Pid, board: BoardId)
    requires q != p
    ensures ViewOf(sh.(jobReg := Dropped(sh.jobReg, p)), q, board) == ViewOf(sh, q, board)
  {
    assert Held(sh.(jobReg := Dropped(sh.jobReg, p)), q) == Held(sh, q);
  }

  // ----- Deaths -----

  // `sh` is the shared part as the dying server left it.
  ghost predicate LeftBehind(w: World, p: Pid, sh: Shared) {
    && p in w.servers
    && SharedOk(sh) && Frame(w.sh, sh, p, w.servers[p].board)
    && (forall j | j in sh.jobReg && j in sh.rows && sh.jobReg[j] != p :: sh.rows[j].board == w.sh.rows[j].board)
    && (sh == w.sh || Live(w.servers[p]))
  }

  lemma DieOthers(w: World, p: Pid, sh: Shared, why: Crash, q: Pid)
    requires Inv(w) && LeftBehind(w, p, sh) && q in w.servers && q != p
    ensures ServerOk(Die(w, p, sh, why), q)
  {
    var srv := w.servers[q];
    if Live(srv) {
      DropView(sh, p, q, srv.board);
      if sh != w.sh {
        OtherView(w.sh, sh, p, w.servers[p].board, q, srv.board);
      }
    }
  }

  lemma DieRegistries(w: World, p: Pid, sh: Shared, why: Crash)
    requires Inv(w) && LeftBehind(w, p, sh)
    ensures RegistriesOk(Die(w, p, sh, why)) && SharedOk(Die(w, p, sh, why).sh)
  {
    var w' := Die(w, p, sh, why);
    forall b | b in w'.serverReg
      ensures w'.serverReg[b] in w'.servers && Live(w'.servers[w'.serverReg[b]])
      ensures w'.servers[w'.serverReg[b]].board == b
    {
      assert b in w.serverReg;
    }
    forall q | q in w'.servers && Live(w'.servers[q])
      ensures w'.servers[q].board in w'.serverReg && w'.serverReg[w'.servers[q].board] == q
    {
      assert q in w.servers && q != p;
    }
    forall j | j in w'.sh.jobReg
      ensures j in w'.sh.rows
      ensures w'.sh.jobReg[j] in w'.servers && Live(w'.servers[w'.sh.jobReg[j]])
      ensures w'.servers[w'.sh.jobReg[j]].board == w'.sh.rows[j].board
    {
      assert j in sh.jobReg && sh.jobReg[j] != p && j in w.sh.jobReg;
    }
  }

  lemma DieKeeps(w: World, p: Pid, sh: Shared, why: Crash)
    requires Inv(w) && LeftBehind(w, p, sh) && Documented(why)
    ensures Inv(Die(w, p, sh, why))
  {
    DieRegistries(w, p, sh, why);
    forall q | q in w.servers && q != p ensures ServerOk(Die(w, p, sh, why), q) {
      DieOthers(w, p, sh, why, q);
    }
  }

  // ----- A server's own actions -----

  lemma RunRegistries(w: World, p: Pid, sh: Shared, srv: Server)
    requires Inv(w) && p in w.servers && Live(w.servers[p])
    requires SharedOk(sh) && Owns(sh, p, w.servers[p].board) && Frame(w.sh, sh, p, w.servers[p].board)
    requires srv.board == w.servers[p].board && Live(srv)
    ensures RegistriesOk(w.(sh := sh, servers := w.servers[p := srv]))
  {
    forall j | j in sh.jobReg && j in sh.rows && sh.jobReg[j] != p
      ensures j in w.sh.jobReg && w.sh.jobReg[j] == sh.jobReg[j] && sh.rows[j].board == w.sh.rows[j].board
    {}
  }

  lemma RunCallers(w: World, p: Pid, sh: Shared, srv: Server)
    requires Inv(w) && p in w.servers && Live(w.servers[p])
    requires srv.board == w.servers[p].board && Live(srv)
    ensures var w' := w.(sh := sh, servers := w.servers[p := srv]); WinnersOk(w') && CallersOk(w')
  {
    var w' := w.(sh := sh, servers := w.servers[p := srv]);
    forall c | c in w'.callers ensures CallerOk(w', w'.callers[c]) {
      assert CallerOk(w, w.callers[c]);
    }
  }

  lemma RunServers(w: World, p: Pid, sh: Shared, srv: Server, q: Pid)
    requires Inv(w) && p in w.servers && Live(w.servers[p]) && q in w.servers
    requires srv.board == w.servers[p].board && Live(srv) && Agree(srv, ViewOf(sh, p, srv.board))
    requires Frame(w.sh, sh, p, srv.board)
    ensures ServerOk(w.(sh := sh, servers := w.servers[p := srv]), q)
  {
    assert ServerOk(w, q);
    if q != p && Live(w.servers[q]) {
      OtherView(w.sh, sh, p, srv.board, q, w.servers[q].board);
    }
  }

  lemma RunKeeps(w: World, p: Pid, a: Action)
    requires Inv(w) && Possible(w, Run(p, a))
    ensures Inv(Apply(w, Run(p, a)))
  {
    var srv := w.servers[p];
    assert ServerOk(w, p);
    OwnsFromRegistries(w, p);
    StepKeeps(w.sh, p, srv, a);
    match ServerStep(w.sh, p, srv, a)
    case Continue(sh, srv') =>
      var w' := w.(sh := sh, servers := w.servers[p := srv']);
      RunRegistries(w, p, sh, srv');
      RunCallers(w, p, sh, srv');
      forall q | q in w'.servers ensures ServerOk(w', q) {
        RunServers(w, p, sh, srv', q);
      }
    case Dies(sh, why) => DieKeeps(w, p, sh, why);
  }

  // ----- init, callers and new jobs -----

  lemma CreateView(sh: Shared, job: JobId, row: Row, p: Pid, b: BoardId)
    requires SharedOk(sh) && job !in sh.rows && Undispatched(row)
    ensures var v, v' := ViewOf(sh, p, b), ViewOf(sh.(rows := sh.rows[job := row]), p, b);
      && v' == v.(waiting := v'.waiting) && v.waiting <= v'.waiting && v'.waiting !! v'.sent
      && (v'.waiting - v.waiting) !! v.held
  {
    var sh' := sh.(rows := sh.rows[job := row]);
    assert job !in SentJobs(sh.sent);
    assert forall j :: j in Held(sh', p) <==> j in Held(sh, p);
    assert forall j :: j in Open(sh'.rows, b) <==> j in Open(sh.rows, b);
    assert forall j :: j in SentFor(sh', b) <==> j in SentFor(sh, b);
    assert forall j | j in Waiting(sh.rows, b) :: j in Waiting(sh'.rows, b);
  }

  lemma CreateKeeps(w: World, job: JobId, row: Row)
    requires Inv(w) && Possible(w, CreateJob(job, row))
    ensures Inv(Apply(w, CreateJob(job, row)))
  {
    var w' := Apply(w, CreateJob(job, row));
    CreateRegistries(w, w', job, row);
    forall p | p in w'.servers ensures ServerOk(w', p) { CreateServer(w, w', job, row, p); }
  }

  lemma CreateRegistries(w: World, w': World, job: JobId, row: Row)
    requires SharedOk(w.sh) && RegistriesOk(w) && WinnersOk(w) && CallersOk(w)
    requires job !in w.sh.rows && Undispatched(row) && w' == w.(sh := w.sh.(rows := w.sh.rows[job := row]))
    ensures SharedOk(w'.sh) && RegistriesOk(w') && WinnersOk(w') && CallersOk(w')
  {}

  lemma CreateServer(w: World, w': World, job: JobId, row: Row, p: Pid)
    requires SharedOk(w.sh) && p in w.servers && ServerOk(w, p)
    requires job !in w.sh.rows && Undispatched(row) && w' == w.(sh := w.sh.(rows := w.sh.rows[job := row]))
    ensures ServerOk(w', p)
  {
    CreateView(w.sh, job, row, p, w.servers[p].board);
  }

  lemma LookupWinners(w: World, c: int, newPid: Pid)
    requires RegistriesOk(w) && WinnersOk(w) && CallersOk(w) && Possible(w, Lookup(c, newPid))
    ensures WinnersOk(Apply(w, Lookup(c, newPid))) && CallersOk(Apply(w, Lookup(c, newPid)))
  {}

  lemma LookupKeeps(w: World, c: int, newPid: Pid)
    requires Inv(w) && Possible(w, Lookup(c, newPid))
    ensures Inv(Apply(w, Lookup(c, newPid)))
  {
    var w' := Apply(w, Lookup(c, newPid));
    LookupWinners(w, c, newPid);
    forall p | p in w'.servers ensures ServerOk(w', p) {
      if p in w.servers { assert ServerOk(w, p); }
    }
  }

  lemma ClaimRegistries(w: World, p: Pid)
    requires RegistriesOk(w) && Possible(w, ClaimBoard(p)) && w.servers[p].board !in w.serverReg
    ensures RegistriesOk(Apply(w, ClaimBoard(p)))
  {}

  lemma ClaimFree(w: World, p: Pid)
    requires Inv(w) && Possible(w, ClaimBoard(p)) && w.servers[p].board !in w.serverReg
    ensures ServerOk(Apply(w, ClaimBoard(p)), p)
    ensures RegistriesOk(Apply(w, ClaimBoard(p)))
  {
    ClaimRegistries(w, p);
    assert ServerOk(w, p);
    var b := w.servers[p].board;
    assert forall j | j in w.sh.jobReg :: w.sh.jobReg[j] != p;
    assert Held(w.sh, p) == {};
    SentNotWaiting(w.sh, b);
  }

  lemma ClaimWinners(w: World, p: Pid)
    requires Inv(w) && Possible(w, ClaimBoard(p)) && w.servers[p].board !in w.serverReg
    ensures WinnersOk(Apply(w, ClaimBoard(p))) && CallersOk(Apply(w, ClaimBoard(p)))
  {}

  lemma LostRaceCallers(w: World, p: Pid)
    requires Inv(w) && Possible(w, ClaimBoard(p)) && w.servers[p].board in w.serverReg
    ensures WinnersOk(Apply(w, ClaimBoard(p))) && CallersOk(Apply(w, ClaimBoard(p)))
  {}

  lemma ClaimKeeps(w: World, p: Pid)
    requires Inv(w) && Possible(w, ClaimBoard(p))
    ensures Inv(Apply(w, ClaimBoard(p)))
  {
    var w' := Apply(w, ClaimBoard(p));
    if w.servers[p].board in w.serverReg {
      FrameRefl(w.sh, p, w.servers[p].board);
      var dead := Die(w, p, w.sh, LostRace);
      DieKeeps(w, p, w.sh, LostRace);
      LostRaceCallers(w, p);
      forall q | q in w'.servers ensures ServerOk(w', q) {
        assert ServerOk(dead, q);
      }
      assert RegistriesOk(w');
    } else {
      ClaimFree(w, p);
      ClaimWinners(w, p);
      forall q | q in w'.servers ensures ServerOk(w', q) {
        assert ServerOk(w, q);
      }
    }
  }

  lemma SentNotWaiting(sh: Shared, board: BoardId)
    requires SharedOk(sh)
    ensures SentFor(sh, board) !! Waiting(sh.rows, board)
  {}

  lemma SweepRowsFacts(rows: Rows, board: BoardId)
    ensures Sweep(rows, board).Keys == rows.Keys
    ensures RowsLe(rows, Sweep(rows, board))
    ensures forall j | j in rows && rows[j].board != board :: Sweep(rows, board)[j] == rows[j]
    ensures Open(Sweep(rows, board), board) == {}
    ensures Waiting(Sweep(rows, board), board) == Waiting(rows, board)
  {
    assert forall j :: j !in Open(Sweep(rows, board), board);
    assert forall j :: j in Waiting(Sweep(rows, board), board) <==> j in Waiting(rows, board);
  }

  lemma SweepKeeps(w: World, p: Pid)
    requires Inv(w) && Possible(w, SweepRows(p))
    ensures Inv(Apply(w, SweepRows(p)))
  {
    var w', b := Apply(w, SweepRows(p)), w.servers[p].board;
    SweepRowsFacts(w.sh.rows, b);
    SweepRegistries(w, p);
    forall q | q in w'.servers ensures ServerOk(w', q) { SweepServer(w, p, q); }
  }

  lemma SweepRegistries(w: World, p: Pid)
    requires SharedOk(w.sh) && RegistriesOk(w) && WinnersOk(w) && CallersOk(w) && Possible(w, SweepRows(p))
    ensures var w' := Apply(w, SweepRows(p));
      SharedOk(w'.sh) && RegistriesOk(w') && WinnersOk(w') && CallersOk(w') && w'.crashes == w.crashes
  {
    SweepRowsFacts(w.sh.rows, w.servers[p].board);
  }

  lemma SweepServer(w: World, p: Pid, q: Pid)
    requires SharedOk(w.sh) && RegistriesOk(w) && Possible(w, SweepRows(p)) && q in w.servers
    requires ServerOk(w, p) && ServerOk(w, q) && SharedOk(Apply(w, SweepRows(p)).sh)
    ensures ServerOk(Apply(w, SweepRows(p)), q)
  {
    var w', b := Apply(w, SweepRows(p)), w.servers[p].board;
    SweepRowsFacts(w.sh.rows, b);
    if q == p {
      SentNotWaiting(w'.sh, b);
    } else if Live(w.servers[q]) {
      assert Frame(w.sh, w'.sh, p, b);
      OtherView(w.sh, w'.sh, p, b, q, w.servers[q].board);
    }
  }

  lemma CheckKeeps(w: World, p: Pid)
    requires Inv(w) && Possible(w, CheckBoard(p))
    ensures Inv(Apply(w, CheckBoard(p)))
  {
    assert ServerOk(w, p);
    if w.servers[p].board in w.boards {
      CheckPasses(w, p);
    } else {
      FrameRefl(w.sh, p, w.servers[p].board);
      DieKeeps(w, p, w.sh, BoardUnknown);
    }
  }

  lemma CheckPasses(w: World, p: Pid)
    requires Inv(w) && p in w.servers && w.servers[p].pc.Checking?
    ensures Inv(SetPc(w, p, Registering))
  {
    var w' := SetPc(w, p, Registering);
    CheckRegistries(w, p);
    forall q | q in w'.servers ensures ServerOk(w', q) { assert ServerOk(w, q); }
  }

  lemma CheckRegistries(w: World, p: Pid)
    requires RegistriesOk(w) && WinnersOk(w) && CallersOk(w) && p in w.servers && w.servers[p].pc.Checking?
    ensures var w' := SetPc(w, p, Registering); RegistriesOk(w') && WinnersOk(w') && CallersOk(w')
  {}

  lemma CallerKeeps(w: World, s: Step)
    requires Inv(w) && Possible(w, s) && (s.Arrive? || s.StartReturns? || s.LookupAgain?)
    ensures Inv(Apply(w, s))
  {
    CallerMoves(w, s);
    OnlyCallersChange(w, Apply(w, s));
  }

  lemma CallerMoves(w: World, s: Step)
    requires RegistriesOk(w) && WinnersOk(w) && CallersOk(w)
    requires Possible(w, s) && (s.Arrive? || s.StartReturns? || s.LookupAgain?)
    ensures Apply(w, s) == w.(callers := Apply(w, s).callers) && CallersOk(Apply(w, s))
  {}

  lemma OnlyCallersChange(w: World, w': World)
    requires Inv(w) && w' == w.(callers := w'.callers) && CallersOk(w')
    ensures Inv(w')
  {
    forall p | p in w'.servers ensures ServerOk(w', p) { assert ServerOk(w, p); }
  }

  /** Every step of the system keeps the invariant. */
  lemma StepKeepsInv(w: World, s: Step)
    requires Inv(w) && Possible(w, s)
    ensures Inv(Apply(w, s))
  {
    match s
    case CreateJob(job, row) => CreateKeeps(w, job, row);
    case Lookup(c, newPid) => LookupKeeps(w, c, newPid);
    case CheckBoard(p) => CheckKeeps(w, p);
    case ClaimBoard(p) => ClaimKeeps(w, p);
    case SweepRows(p) => SweepKeeps(w, p);
    case Kill(p) =>
      FrameRefl(w.sh, p, w.servers[p].board);
      DieKeeps(w, p, w.sh, Killed);
    case Run(p, a) => RunKeeps(w, p, a);
    case _ => CallerKeeps(w, s);
  }

  lemma {:induction false} RunInv(ws: seq<World>, i: nat)
    requires IsRun(ws) && i < |ws|
    ensures Inv(ws[i])
    decreases i
  {
    if i > 0 {
      RunInv(ws, i - 1);
      assert Reaches(ws[i - 1], ws[i - 1 + 1]);
      var s :| Possible(ws[i - 1], s) && ws[i] == Apply(ws[i - 1], s);
      StepKeepsInv(ws[i - 1], s);
    }
  }

  lemma TakesRun(ws: seq<World>, steps: seq<Step>, i: nat)
    requires Takes(ws, steps) && i < |ws|
    ensures IsRun(ws) && Inv(ws[i])
  {
    forall k | 0 <= k < |ws| - 1 ensures Reaches(ws[k], ws[k + 1]) {
      assert Possible(ws[k], steps[k]) && ws[k + 1] == Apply(ws[k], steps[k]);
    }
    RunInv(ws, i);
  }
}
