/** What holds of every run of the coordinator. */
module CoordinatorTheorems {
  import opened Common
  import opened Jobs
  import opened UpdateTable
  import opened Coordinator
  import opened Agreement
  import opened ServerSteps
  import opened SystemInvariant

  ghost predicate SameJobs(w: World, p: Pid)
    requires p in w.servers
  {
    Held(w.sh, p) == w.servers[p].active.Keys == Open(w.sh.rows, w.servers[p].board)
  }

  // A dispatch or a completion is between its effects, or an earlier server's jobs are not swept yet.
  ghost predicate MidEffect(w: World, p: Pid)
    requires p in w.servers
  {
    match w.servers[p].pc
    case Registered(_) => true
    case Dispatched(_) => true
    case Completing(jobs, _, _) => jobs != []
    case Unregistering(jobs, _) => jobs != []
    case Booting => Open(w.sh.rows, w.servers[p].board) != {}
    case _ => false
  }

  /**
   In every reachable state a live server's local map, the registry and the database name the same jobs
   exactly outside the named points inside handlers; the local map is never ahead of the other two.
   */
  lemma ThreeCopiesAgree(ws: seq<World>, i: nat, p: Pid)
    requires IsRun(ws) && i < |ws| && p in ws[i].servers && Live(ws[i].servers[p])
    ensures SameJobs(ws[i], p) <==> !MidEffect(ws[i], p)
    ensures ws[i].servers[p].active.Keys <= Held(ws[i].sh, p) * Open(ws[i].sh.rows, ws[i].servers[p].board)
  {
    RunInv(ws, i);
    assert ServerOk(ws[i], p);
    OpenNotWaiting(ws[i].sh.rows, ws[i].servers[p].board);
    CopiesAgree(ws[i].servers[p], ViewOf(ws[i].sh, p, ws[i].servers[p].board));
  }

  lemma CopiesAgree(srv: Server, v: View)
    requires Agree(srv, v) && v.open !! v.waiting
    ensures v.held == srv.active.Keys == v.open <==>
      match srv.pc
      case Registered(_) => false
      case Dispatched(_) => false
      case Completing(jobs, _, _) => jobs == []
      case Unregistering(jobs, _) => jobs == []
      case Booting => v.open == {}
      case _ => true
    ensures srv.active.Keys <= v.held * v.open
  {
    match srv.pc
    case Completing(jobs, _, _) => if jobs != [] { assert jobs[0] in Elems(jobs); } else { assert Elems(jobs) == {}; }
    case Unregistering(jobs, _) => if jobs != [] { assert jobs[0] in Elems(jobs); } else { assert Elems(jobs) == {}; }
    case _ =>
  }

  /** However often servers crash and runners reconnect, no two start_job messages name the same job. */
  lemma AtMostOneStart(ws: seq<World>, i: nat, m: nat, n: nat)
    requires IsRun(ws) && i < |ws| && m < n < |ws[i].sh.sent|
    ensures ws[i].sh.sent[m].job != ws[i].sh.sent[n].job
  {
    RunInv(ws, i);
  }

  // ----- Rows only move forward -----

  lemma SentOnlyGrows(sh: Shared, sh': Shared, p: Pid, board: BoardId)
    requires Frame(sh, sh', p, board)
    ensures sh.sent <= sh'.sent
  {}

  lemma StepForward(w: World, s: Step)
    requires Inv(w) && Possible(w, s)
    ensures RowsLe(w.sh.rows, Apply(w, s).sh.rows)
    ensures w.sh.sent <= Apply(w, s).sh.sent
  {
    match s
    case SweepRows(p) => SweepRowsFacts(w.sh.rows, w.servers[p].board);
    case Run(p, a) => RunForward(w, p, a);
    case _ =>
  }

  lemma RunForward(w: World, p: Pid, a: Action)
    requires Inv(w) && Possible(w, Run(p, a))
    ensures RowsLe(w.sh.rows, Apply(w, Run(p, a)).sh.rows)
    ensures w.sh.sent <= Apply(w, Run(p, a)).sh.sent
  {
    assert ServerOk(w, p);
    OwnsFromRegistries(w, p);
    StepKeeps(w.sh, p, w.servers[p], a);
    SentOnlyGrows(w.sh, ServerStep(w.sh, p, w.servers[p], a).sh, p, w.servers[p].board);
  }

  /**
   Over any run a row moves only from undispatched to dispatched to completed, its board and times stay,
   and a completion code once written is never overwritten.
   */
  lemma {:induction false} RowsOnlyMoveForward(ws: seq<World>, i: nat, k: nat)
    requires IsRun(ws) && i <= k < |ws|
    ensures RowsLe(ws[i].sh.rows, ws[k].sh.rows)
    ensures ws[i].sh.sent <= ws[k].sh.sent
    decreases k
  {
    if i < k {
      RowsOnlyMoveForward(ws, i, k - 1);
      RunInv(ws, k - 1);
      assert Reaches(ws[k - 1], ws[k - 1 + 1]);
      var s :| Possible(ws[k - 1], s) && ws[k] == Apply(ws[k - 1], s);
      StepForward(ws[k - 1], s);
    }
  }

  /** Map.pop!, Registry.register and Repo.update! never fail in any run. */
  lemma OnlyDocumentedCrashes(ws: seq<World>, i: nat, n: nat)
    requires IsRun(ws) && i < |ws| && n < |ws[i].crashes|
    ensures Documented(ws[i].crashes[n])
  {
    RunInv(ws, i);
  }

  /** A live server never has more than max_jobs active, and none while no runner is connected. */
  lemma CapacityAndConnection(ws: seq<World>, i: nat, p: Pid)
    requires IsRun(ws) && i < |ws| && p in ws[i].servers && Live(ws[i].servers[p])
    ensures |ws[i].servers[p].active| <= ws[i].servers[p].maxJobs
    ensures ws[i].servers[p].runner.None? ==> ws[i].servers[p].active == map[]
  {
    RunInv(ws, i);
    assert ServerOk(ws[i], p);
  }

  // ----- The supervisor timer -----

  lemma ServerStepTimer(sh: Shared, pid: Pid, srv: Server, a: Action)
    requires Enabled(sh, srv, a) && srv.timer.isSet
    ensures match ServerStep(sh, pid, srv, a) case Continue(_, srv') => srv'.timer.isSet case Dies(_, _) => true
  {}

  ghost predicate TimerSetIfAlive(w: World, p: Pid) {
    p in w.spawned && (p in w.servers ==> w.servers[p].timer.isSet)
  }

  lemma TimerStaysSet(w: World, s: Step, p: Pid)
    requires Possible(w, s) && TimerSetIfAlive(w, p)
    ensures TimerSetIfAlive(Apply(w, s), p)
  {
    match s
    case Run(q, a) => if q == p { ServerStepTimer(w.sh, p, w.servers[p], a); }
    case _ =>
  }

  lemma {:induction false} TimerSetFromThenOn(ws: seq<World>, i: nat, k: nat, p: Pid)
    requires IsRun(ws) && i <= k < |ws| && TimerSetIfAlive(ws[i], p)
    ensures TimerSetIfAlive(ws[k], p)
    decreases k - i
  {
    if i < k {
      TimerSetAcross(ws, i, p);
      TimerSetFromThenOn(ws, i + 1, k, p);
    }
  }

  lemma TimerSetAcross(ws: seq<World>, i: nat, p: Pid)
    requires IsRun(ws) && i + 1 < |ws| && TimerSetIfAlive(ws[i], p)
    ensures TimerSetIfAlive(ws[i + 1], p)
  {
    assert Reaches(ws[i], ws[i + 1]);
    var s :| Possible(ws[i], s) && ws[i + 1] == Apply(ws[i], s);
    TimerStaysSet(ws[i], s, p);
  }

  /**
   Once a server has had an active job, then for as long as it lives a timer runs, a tick waits in its
   mailbox, or it is handling one.
   */
  lemma SupervisionNeverStops(ws: seq<World>, i: nat, k: nat, p: Pid)
    requires IsRun(ws) && i <= k < |ws|
    requires p in ws[i].servers && ws[i].servers[p].active != map[] && p in ws[k].servers
    ensures ws[k].servers[p].timer.running || ws[k].servers[p].timer.ticks > 0 || InTick(ws[k].servers[p].pc)
  {
    RunInv(ws, i);
    assert ServerOk(ws[i], p);
    TimerSetFromThenOn(ws, i, k, p);
    RunInv(ws, k);
    assert ServerOk(ws[k], p);
  }

  // A send or the end of a tick, either of which arms the timer.
  predicate MayArm(s: Step, p: Pid) {
    s.Run? && s.p == p && (s.a.Send? || s.a.Supervise?)
  }

  lemma ServerStepFires(sh: Shared, pid: Pid, srv: Server, a: Action)
    requires Enabled(sh, srv, a) && !a.Send? && !a.Supervise? && ServerStep(sh, pid, srv, a).Continue?
    ensures ServerStep(sh, pid, srv, a).srv.timer.running ==> srv.timer.running && !a.TimerFires?
  {}

  // The server is there and its timer does not run.
  ghost predicate Rests(w: World, p: Pid) {
    p in w.spawned && (p in w.servers ==> !w.servers[p].timer.running)
  }

  lemma RestsOn(w: World, s: Step, p: Pid)
    requires Inv(w) && Possible(w, s) && !MayArm(s, p) && (Rests(w, p) || s == Run(p, TimerFires))
    ensures Rests(Apply(w, s), p)
  {
    if s.Run? && s.p == p && ServerStep(w.sh, p, w.servers[p], s.a).Continue? {
      ServerStepFires(w.sh, p, w.servers[p], s.a);
    }
  }

  lemma {:induction false} RestsUntilArmed(ws: seq<World>, steps: seq<Step>, i: nat, k: nat, p: Pid)
    requires Takes(ws, steps) && i < k < |ws| && steps[i] == Run(p, TimerFires)
    requires forall m | i < m < k :: !MayArm(steps[m], p)
    ensures Rests(ws[k], p)
  {
    if i + 1 < k { RestsUntilArmed(ws, steps, i, k - 1, p); }
    RestsNext(ws, steps, k - 1, p);
  }

  lemma RestsNext(ws: seq<World>, steps: seq<Step>, k: nat, p: Pid)
    requires Takes(ws, steps) && k < |steps| && !MayArm(steps[k], p)
    requires Rests(ws[k], p) || steps[k] == Run(p, TimerFires)
    ensures Rests(ws[k + 1], p)
  {
    TakesRun(ws, steps, k);
    RestsOn(ws[k], steps[k], p);
  }

  lemma RestingDoesNotFire(ws: seq<World>, steps: seq<Step>, k: nat, p: Pid)
    requires Takes(ws, steps) && k < |steps| && Rests(ws[k], p)
    ensures steps[k] != Run(p, TimerFires)
  {}

  /** A timer that has fired fires again only after it was armed anew. */
  lemma FiresOncePerArming(ws: seq<World>, steps: seq<Step>, i: nat, k: nat, p: Pid)
    requires Takes(ws, steps) && i < k < |steps| && steps[i] == Run(p, TimerFires) && steps[k] == Run(p, TimerFires)
    ensures exists m :: i < m < k && MayArm(steps[m], p)
  {
    if forall m | i < m < k :: !MayArm(steps[m], p) {
      RestsUntilArmed(ws, steps, i, k, p);
      RestingDoesNotFire(ws, steps, k, p);
    }
  }

  predicate IsTick(s: Step, p: Pid) {
    s.Run? && s.p == p && s.a.Tick?
  }

  // How often the timer of p has fired, and how often p has taken a tick.
  function Fired(steps: seq<Step>, p: Pid): nat {
    if steps == [] then 0
    else Fired(steps[..|steps| - 1], p) + if steps[|steps| - 1] == Run(p, TimerFires) then 1 else 0
  }

  function Handled(steps: seq<Step>, p: Pid): nat {
    if steps == [] then 0
    else Handled(steps[..|steps| - 1], p) + if IsTick(steps[|steps| - 1], p) then 1 else 0
  }

  ghost predicate TicksOk(w: World, p: Pid, fired: nat, handled: nat) {
    && (p in w.servers ==> fired == w.servers[p].timer.ticks + handled)
    && (p !in w.spawned ==> fired == handled == 0)
  }

  lemma ServerStepTicks(sh: Shared, pid: Pid, srv: Server, a: Action)
    requires Enabled(sh, srv, a) && ServerStep(sh, pid, srv, a).Continue?
    ensures var ticks := ServerStep(sh, pid, srv, a).srv.timer.ticks;
      ticks + (if a.Tick? then 1 else 0) == srv.timer.ticks + if a.TimerFires? then 1 else 0
  {}

  lemma StepTicks(w: World, s: Step, p: Pid, fired: nat, handled: nat)
    requires WinnersOk(w) && Possible(w, s) && TicksOk(w, p, fired, handled)
    ensures TicksOk(Apply(w, s), p, fired + if s == Run(p, TimerFires) then 1 else 0,
      handled + if IsTick(s, p) then 1 else 0)
  {
    if s.Run? && s.p == p && ServerStep(w.sh, p, w.servers[p], s.a).Continue? {
      ServerStepTicks(w.sh, p, w.servers[p], s.a);
    }
  }

  lemma TicksNext(ws: seq<World>, steps: seq<Step>, k: nat, p: Pid)
    requires Takes(ws, steps) && k < |steps| && TicksOk(ws[k], p, Fired(steps[..k], p), Handled(steps[..k], p))
    ensures TicksOk(ws[k + 1], p, Fired(steps[..k + 1], p), Handled(steps[..k + 1], p))
  {
    TakesRun(ws, steps, k);
    assert steps[..k + 1][..k] == steps[..k];
    StepTicks(ws[k], steps[k], p, Fired(steps[..k], p), Handled(steps[..k], p));
  }

  /** The ticks in a server's mailbox are the firings of its timer that it has not taken yet. */
  lemma {:induction false} TicksAreFirings(ws: seq<World>, steps: seq<Step>, k: nat, p: Pid)
    requires Takes(ws, steps) && k < |ws|
    ensures p in ws[k].servers ==> Fired(steps[..k], p) == ws[k].servers[p].timer.ticks + Handled(steps[..k], p)
    ensures p !in ws[k].spawned ==> Fired(steps[..k], p) == Handled(steps[..k], p) == 0
  {
    if k > 0 {
      TicksAreFirings(ws, steps, k - 1, p);
      TicksNext(ws, steps, k - 1, p);
    }
  }

  // ----- One server per board -----

  lemma OneServerPerBoard(ws: seq<World>, i: nat, p: Pid, q: Pid)
    requires IsRun(ws) && i < |ws| && p in ws[i].servers && q in ws[i].servers
    requires Live(ws[i].servers[p]) && Live(ws[i].servers[q]) && ws[i].servers[p].board == ws[i].servers[q].board
    ensures p == q
  {
    RunInv(ws, i);
  }

  /** Two callers of get_or_start for one board hold the same server as long as both their servers live. */
  lemma CallersShareTheServer(ws: seq<World>, i: nat, c: int, d: int)
    requires IsRun(ws) && i < |ws| && c in ws[i].callers && d in ws[i].callers
    requires ws[i].callers[c].Found? && ws[i].callers[d].Found? && ws[i].callers[c].board == ws[i].callers[d].board
    requires ws[i].callers[c].server in ws[i].servers && ws[i].callers[d].server in ws[i].servers
    ensures ws[i].callers[c].server == ws[i].callers[d].server
  {
    RunInv(ws, i);
    assert CallerOk(ws[i], ws[i].callers[c]) && CallerOk(ws[i], ws[i].callers[d]);
  }

  /**
   The second lookup finds the server that won the race this caller took part in, if that server still
   lives; it can only fail after a death: the winner's, or that of the caller's own server inside init.
   */
  lemma SecondLookup(ws: seq<World>, i: nat, c: int)
    requires IsRun(ws) && i < |ws| && Possible(ws[i], LookupAgain(c))
    ensures var w, b, p := ws[i], ws[i].callers[c].board, ws[i].callers[c].spawned;
      && (p in w.winner && w.winner[p] in w.servers ==>
            Apply(w, LookupAgain(c)).callers[c] == Found(b, w.winner[p]))
      && (Apply(w, LookupAgain(c)).callers[c] == MatchFailed(b) ==>
            p !in w.servers && (p in w.winner ==> w.winner[p] !in w.servers))
  {
    RunInv(ws, i);
    assert CallerOk(ws[i], ws[i].callers[c]);
  }

  ghost predicate IsServerOf(w: World, p: Pid, b: BoardId) {
    p in w.servers && Live(w.servers[p]) && w.servers[p].board == b
  }

  /**
   The first lookup: a board's live server is the answer, and nothing is started; only when there is none the
   caller starts one, a new process that has yet to check its board.
   */
  lemma FirstLookup(ws: seq<World>, i: nat, c: int, newPid: Pid)
    requires IsRun(ws) && i < |ws| && Possible(ws[i], Lookup(c, newPid))
    ensures var w, w', b := ws[i], Apply(ws[i], Lookup(c, newPid)), ws[i].callers[c].board;
      && ((exists p :: IsServerOf(w, p, b)) ==>
        && w'.servers == w.servers && w'.callers[c].Found? && w'.callers[c].board == b
        && IsServerOf(w, w'.callers[c].server, b))
      && (!(exists p :: IsServerOf(w, p, b)) ==>
        && w'.callers[c] == AwaitingStart(b, newPid) && newPid !in w.servers
        && w'.servers.Keys == w.servers.Keys + {newPid}
        && w'.servers[newPid] == Server(b, w.maxJobs, None, map[], Timer(false, false, 0), Checking))
  {
    RunInv(ws, i);
    var b := ws[i].callers[c].board;
    if b in ws[i].serverReg { assert IsServerOf(ws[i], ws[i].serverReg[b], b); }
  }

  lemma StepKeepsCaller(w: World, s: Step, c: int)
    requires Possible(w, s) && c in w.callers
    ensures c in Apply(w, s).callers && Apply(w, s).callers[c].board == w.callers[c].board
  {}

  /** A caller is served for the board it came with. */
  lemma {:induction false} CallerKeepsItsBoard(ws: seq<World>, steps: seq<Step>, i: nat, k: nat, c: int, b: BoardId)
    requires Takes(ws, steps) && i < k < |ws| && steps[i] == Arrive(c, b)
    ensures c in ws[k].callers && ws[k].callers[c].board == b
  {
    if i + 1 < k {
      CallerKeepsItsBoard(ws, steps, i, k - 1, c, b);
      CallerNext(ws, steps, k - 1, c);
    } else {
      ArriveNext(ws, steps, i, c, b);
    }
  }

  lemma CallerNext(ws: seq<World>, steps: seq<Step>, k: nat, c: int)
    requires Takes(ws, steps) && k < |steps| && c in ws[k].callers
    ensures c in ws[k + 1].callers && ws[k + 1].callers[c].board == ws[k].callers[c].board
  {
    StepKeepsCaller(ws[k], steps[k], c);
  }

  lemma ArriveNext(ws: seq<World>, steps: seq<Step>, k: nat, c: int, b: BoardId)
    requires Takes(ws, steps) && k < |steps| && steps[k] == Arrive(c, b)
    ensures c in ws[k + 1].callers && ws[k + 1].callers[c].board == b
  {
    assert Possible(ws[k], Arrive(c, b)) && ws[k + 1] == Apply(ws[k], Arrive(c, b));
  }

  // ----- Only boards of the database have servers -----

  // A server past the check of its board, a registered one and one a caller holds are a known board's.
  ghost predicate BoardsOk(w: World) {
    && (forall p | p in w.servers :: w.servers[p].pc.Checking? || w.servers[p].board in w.boards)
    && (forall b | b in w.serverReg :: b in w.boards)
    && (forall c | c in w.callers && w.callers[c].Found? :: w.callers[c].board in w.boards)
  }

  lemma RunKeepsBoards(sh: Shared, pid: Pid, srv: Server, a: Action)
    requires Enabled(sh, srv, a) && ServerStep(sh, pid, srv, a).Continue?
    ensures ServerStep(sh, pid, srv, a).srv.board == srv.board && !srv.pc.Checking?
  {}

  lemma StepKeepsBoards(w: World, s: Step)
    requires Possible(w, s) && BoardsOk(w)
    ensures BoardsOk(Apply(w, s)) && Apply(w, s).boards == w.boards
  {
    if s.Run? && ServerStep(w.sh, s.p, w.servers[s.p], s.a).Continue? {
      RunKeepsBoards(w.sh, s.p, w.servers[s.p], s.a);
    }
  }

  /** In every run, only known boards have a server past its check, a registered server, or a caller that found one. */
  lemma {:induction false} OnlyKnownBoards(ws: seq<World>, i: nat)
    requires IsRun(ws) && i < |ws|
    ensures BoardsOk(ws[i]) && ws[i].boards == ws[0].boards
  {
    if i > 0 {
      OnlyKnownBoards(ws, i - 1);
      assert Reaches(ws[i - 1], ws[i - 1 + 1]);
      var s :| Possible(ws[i - 1], s) && ws[i] == Apply(ws[i - 1], s);
      StepKeepsBoards(ws[i - 1], s);
    }
  }

  /** init ends a server exactly when its board is unknown, and the caller that started it then finds nothing. */
  lemma UnknownBoardFails(ws: seq<World>, i: nat)
    requires IsRun(ws) && i < |ws|
    ensures forall p | Possible(ws[i], CheckBoard(p)) ::
      p in Apply(ws[i], CheckBoard(p)).servers <==> ws[i].servers[p].board in ws[i].boards
    ensures forall p | Possible(ws[i], CheckBoard(p)) && p !in Apply(ws[i], CheckBoard(p)).servers ::
      Apply(ws[i], CheckBoard(p)).crashes == ws[i].crashes + [BoardUnknown]
    ensures forall c | Possible(ws[i], LookupAgain(c)) && ws[i].callers[c].board !in ws[i].boards ::
      Apply(ws[i], LookupAgain(c)).callers[c] == MatchFailed(ws[i].callers[c].board)
  {
    OnlyKnownBoards(ws, i);
  }

  // ----- get_or_start comes back -----

  /** The second lookup finds the board's live server whenever there is one, whoever started it. */
  lemma SecondLookupFinds(ws: seq<World>, i: nat, c: int)
    requires IsRun(ws) && i < |ws| && Possible(ws[i], LookupAgain(c))
    ensures var w, w', b := ws[i], Apply(ws[i], LookupAgain(c)), ws[i].callers[c].board;
      && ((exists p :: IsServerOf(w, p, b)) ==>
        w'.callers[c].Found? && w'.callers[c].board == b && IsServerOf(w', w'.callers[c].server, b))
      && (!(exists p :: IsServerOf(w, p, b)) ==> w'.callers[c] == MatchFailed(b))
  {
    RunInv(ws, i);
    var b := ws[i].callers[c].board;
    if b in ws[i].serverReg { assert IsServerOf(ws[i], ws[i].serverReg[b], b); }
  }

  // Worlds linked by these steps.
  ghost predicate Leads(w: World, steps: seq<Step>, w': World)
    decreases |steps|
  {
    if steps == [] then w' == w
    else Possible(w, steps[0]) && Leads(Apply(w, steps[0]), steps[1..], w')
  }

  // A caller's own steps, and those of the server it has started inside init.
  predicate OfCaller(s: Step, c: int, p: Pid) {
    || s == StartReturns(c) || s == LookupAgain(c) || s == CheckBoard(p) || s == ClaimBoard(p) || s == SweepRows(p)
  }

  predicate HasAnswer(caller: Caller) {
    caller.Found? || caller.MatchFailed?
  }

  // What a caller inside get_or_start, or its server inside init, does next.
  function NextStep(w: World, c: int): Step
    requires c in w.callers && (w.callers[c].AwaitingStart? || w.callers[c].LookingAgain?)
  {
    var p := w.callers[c].spawned;
    if w.callers[c].LookingAgain? then LookupAgain(c)
    else if p !in w.servers then StartReturns(c)
    else match w.servers[p].pc
      case Checking => CheckBoard(p)
      case Registering => ClaimBoard(p)
      case Booting => SweepRows(p)
      case _ => StartReturns(c)
  }

  function StepsLeft(w: World, c: int): nat
    requires c in w.callers
  {
    if w.callers[c].LookingAgain? then 1
    else if w.callers[c].AwaitingStart? && w.callers[c].spawned in w.servers then
      match w.servers[w.callers[c].spawned].pc
      case Checking => 5
      case Registering => 4
      case Booting => 3
      case _ => 2
    else 2
  }

  lemma NextStepWorks(w: World, c: int)
    requires c in w.callers && (w.callers[c].AwaitingStart? || w.callers[c].LookingAgain?)
    ensures Possible(w, NextStep(w, c)) && OfCaller(NextStep(w, c), c, w.callers[c].spawned)
    ensures var w' := Apply(w, NextStep(w, c));
      && c in w'.callers
      && (HasAnswer(w'.callers[c])
        || ((w'.callers[c].AwaitingStart? || w'.callers[c].LookingAgain?)
          && w'.callers[c].spawned == w.callers[c].spawned && StepsLeft(w', c) < StepsLeft(w, c)))
  {}

  // The board has a registered server, or the caller's own is alive inside or after init, and the board known.
  ghost predicate Promising(w: World, c: int)
    requires c in w.callers && (w.callers[c].AwaitingStart? || w.callers[c].LookingAgain?)
  {
    || w.callers[c].board in w.serverReg
    || (w.callers[c].AwaitingStart? && w.callers[c].spawned in w.servers && w.callers[c].board in w.boards)
  }

  lemma StaysPromising(w: World, c: int)
    requires Inv(w) && c in w.callers && (w.callers[c].AwaitingStart? || w.callers[c].LookingAgain?) && Promising(w, c)
    ensures Possible(w, NextStep(w, c)) && c in Apply(w, NextStep(w, c)).callers
    ensures var w' := Apply(w, NextStep(w, c));
      w'.callers[c].Found? || ((w'.callers[c].AwaitingStart? || w'.callers[c].LookingAgain?) && Promising(w', c))
  {
    NextStepWorks(w, c);
    assert CallerOk(w, w.callers[c]);
    var p := w.callers[c].spawned;
    if p in w.servers { assert ServerOk(w, p); }
  }

  /**
   Whatever the others have done, a caller that has started a server is at most five steps of its own and of
   this server's init away from its answer, and that is a server if the board has one by then, or the caller's
   own has not died and the board is known.
   */
  lemma {:induction false} GetOrStartReturns(w: World, c: int) returns (steps: seq<Step>, w': World)
    requires Inv(w) && c in w.callers && (w.callers[c].AwaitingStart? || w.callers[c].LookingAgain?)
    ensures Leads(w, steps, w') && |steps| <= 5 && c in w'.callers && HasAnswer(w'.callers[c])
    ensures Promising(w, c) ==> w'.callers[c].Found?
    ensures |steps| <= StepsLeft(w, c) && forall k | 0 <= k < |steps| :: OfCaller(steps[k], c, w.callers[c].spawned)
    decreases StepsLeft(w, c)
  {
    NextStepWorks(w, c);
    if Promising(w, c) { StaysPromising(w, c); }
    var s := NextStep(w, c);
    var next := Apply(w, s);
    StepKeepsInv(w, s);
    if HasAnswer(next.callers[c]) {
      steps, w' := [s], next;
      assert steps[1..] == [];
    } else {
      var rest;
      rest, w' := GetOrStartReturns(next, c);
      steps := [s] + rest;
      assert steps[1..] == rest;
    }
  }

  /** A server registers exactly when its board has none; one that comes second ends quietly. */
  lemma ClaimDecides(ws: seq<World>, i: nat, p: Pid)
    requires IsRun(ws) && i < |ws| && Possible(ws[i], ClaimBoard(p))
    ensures var w, w', b := ws[i], Apply(ws[i], ClaimBoard(p)), ws[i].servers[p].board;
      && ((exists q :: IsServerOf(w, q, b)) ==>
        w'.servers == w.servers - {p} && w'.serverReg == w.serverReg && w'.crashes == w.crashes + [LostRace])
      && (!(exists q :: IsServerOf(w, q, b)) ==>
        IsServerOf(w', p, b) && w'.serverReg == w.serverReg[b := p] && w'.crashes == w.crashes)
  {
    RunInv(ws, i);
    var b := ws[i].servers[p].board;
    if b in ws[i].serverReg { assert IsServerOf(ws[i], ws[i].serverReg[b], b); }
    assert forall d | d in ws[i].serverReg :: ws[i].serverReg[d] != p;
    assert Dropped(ws[i].serverReg, p) == ws[i].serverReg;
  }

  // ----- The three queries partition a board's jobs -----

  function PendingView(w: World, b: BoardId, now: Time): set<JobId> {
    set j | j in Eligible(w.sh.rows, b, now) && j !in w.sh.jobReg
  }

  function LapsedView(w: World, b: BoardId, now: Time): set<JobId> {
    set j | j in w.sh.rows && w.sh.rows[j].board == b && Undispatched(w.sh.rows[j]) && PastEnd(w.sh.rows[j], now)
      && j !in w.sh.jobReg
  }

  ghost function ActiveView(w: World, b: BoardId): set<JobId> {
    if b in w.serverReg then Held(w.sh, w.serverReg[b]) * w.sh.rows.Keys else {}
  }

  function CompletedView(w: World, b: BoardId): set<JobId> {
    set j | j in w.sh.rows && w.sh.rows[j].board == b && w.sh.rows[j].code.Some?
  }

  function Reports(inPending: bool, inLapsed: bool, inActive: bool, inCompleted: bool): nat {
    (if inPending then 1 else 0) + (if inLapsed then 1 else 0)
    + (if inActive then 1 else 0) + (if inCompleted then 1 else 0)
  }

  ghost predicate ReportedOnce(w: World, b: BoardId, now: Time, j: JobId) {
    Reports(j in PendingView(w, b, now), j in LapsedView(w, b, now), j in ActiveView(w, b),
      j in CompletedView(w, b)) == 1
  }

  ghost predicate Partitioned(w: World, b: BoardId, now: Time) {
    forall j | j in w.sh.rows && w.sh.rows[j].board == b :: ReportedOnce(w, b, now, j)
  }

  // The list pending_jobs returns, with no limit, holds exactly the pending view.
  lemma PendingJobsIsPendingView(w: World, b: BoardId, now: Time, found: seq<JobId>)
    requires QueryResult(w.sh.rows, Eligible(w.sh.rows, b, now), None, found)
    ensures Elems(WithoutActive(found, w.sh.jobReg)) == PendingView(w, b, now)
  {
    var all := Eligible(w.sh.rows, b, now);
    DistinctCard(found);
    assert Elems(found) <= all;
    SubsetSameCard(Elems(found), all);
    WithoutActiveMembers(found, w.sh.jobReg);
    assert forall j :: j in Elems(found) <==> j in found;
    var listed: set<JobId>, view := Elems(WithoutActive(found, w.sh.jobReg)), PendingView(w, b, now);
    assert forall j :: j in listed <==> j in view;
    assert listed == view;
  }

  lemma SubsetSameCard<T>(a: set<T>, b: set<T>)
    requires a <= b && |a| == |b|
    ensures a == b
  {
    assert b == a + (b - a);
  }

  // The windows in which a job is reported twice, or not at all.
  ghost predicate MidWrite(w: World, b: BoardId)
    requires b in w.serverReg && w.serverReg[b] in w.servers
  {
    var srv := w.servers[w.serverReg[b]];
    || (srv.pc.Unregistering? && srv.pc.jobs != [])
    || (srv.pc.Booting? && Open(w.sh.rows, b) != {})
  }

  lemma HeldOfBoard(w: World, b: BoardId, j: JobId)
    requires Inv(w) && b in w.serverReg && j in w.sh.rows
    ensures j in w.sh.jobReg && w.sh.rows[j].board == b <==> j in ActiveView(w, b)
  {}

  lemma PartitionedOutsideWindows(w: World, b: BoardId, now: Time, j: JobId)
    requires Inv(w) && b in w.serverReg && !MidWrite(w, b)
    requires j in w.sh.rows && w.sh.rows[j].board == b
    ensures ReportedOnce(w, b, now, j)
  {
    var p := w.serverReg[b];
    assert ServerOk(w, p);
    HeldOfBoard(w, b, j);
    var v := ViewOf(w.sh, p, b);
    assert j in v.held <==> j in ActiveView(w, b);
    if w.servers[p].pc.Unregistering? { assert Elems(w.servers[p].pc.jobs) == {}; }
    assert IsOpen(w.sh.rows[j]) ==> j in v.open;
    assert Undispatched(w.sh.rows[j]) ==> j in v.waiting;
    assert IsOpen(w.sh.rows[j]) ==> j in v.held;
    assert j in v.held ==> IsOpen(w.sh.rows[j]) || Undispatched(w.sh.rows[j]) by {
      if j in v.held && w.servers[p].pc.Registered? { assert j in v.open || j in v.waiting; }
    }
  }

  lemma DoubleInWindow(w: World, b: BoardId, now: Time)
    requires Inv(w) && b in w.serverReg && MidWrite(w, b)
    ensures !Partitioned(w, b, now)
  {
    var p := w.serverReg[b];
    var srv := w.servers[p];
    assert ServerOk(w, p);
    var v := ViewOf(w.sh, p, b);
    if srv.pc.Unregistering? {
      var j := srv.pc.jobs[0];
      assert j in Elems(srv.pc.jobs);
      assert j in v.held && j !in v.open && j !in v.waiting;
      assert j in ActiveView(w, b) && j in CompletedView(w, b);
      assert !ReportedOnce(w, b, now, j);
    } else {
      var j := SomeElement(Open(w.sh.rows, b));
      assert j !in v.held;
      assert !ReportedOnce(w, b, now, j);
    }
  }

  /**
   For a board with a registered server, every job is reported exactly once, at any time, unless the
   server is between writing completion codes and unregistering, or has not yet swept its old jobs.
   */
  lemma ViewsPartitionExactly(ws: seq<World>, i: nat, b: BoardId, now: Time)
    requires IsRun(ws) && i < |ws| && b in ws[i].serverReg
    ensures ws[i].serverReg[b] in ws[i].servers
    ensures Partitioned(ws[i], b, now) <==> !MidWrite(ws[i], b)
  {
    RunInv(ws, i);
    var w := ws[i];
    if MidWrite(w, b) {
      DoubleInWindow(w, b, now);
    } else {
      forall j | j in w.sh.rows && w.sh.rows[j].board == b ensures ReportedOnce(w, b, now, j) {
        PartitionedOutsideWindows(w, b, now, j);
      }
    }
  }
}
