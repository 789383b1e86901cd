/** Runs of one nspawn runner that reach the states the counterexamples need. */
module Scenarios {
  import opened Common
  import opened UpdateTable
  import opened Runner
  import opened Fleet

  ghost predicate Reached(f: Fleet) {
    exists fs :: FleetRun(fs) && fs[|fs| - 1] == f
  }

  lemma Go(f: Fleet, rid: int, ev: Event)
    requires Reached(f) && FleetEnabled(f, rid, ev)
    ensures Reached(FleetStep(f, rid, ev))
  {
    var fs :| FleetRun(fs) && fs[|fs| - 1] == f;
    var more := fs + [FleetStep(f, rid, ev)];
    forall i | 0 <= i < |more| - 1 ensures FleetReaches(more[i], more[i + 1]) {
      if i < |fs| - 1 { assert FleetReaches(fs[i], fs[i + 1]); }
    }
    assert FleetRun(more);
  }

  // One runner, all of whose jobs are `home`.
  function Solo(r: Runner, posts: Posts, home: map<JobId, int>): Fleet {
    Fleet(map[0 := r], posts, home)
  }

  type Posts = map<JobId, seq<RunnerState>>

  function Posted(posts: Posts, j: JobId, states: seq<RunnerState>): Posts {
    if states == [] then posts else posts[j := (if j in posts then posts[j] else []) + states]
  }

  lemma PostedMore(posts: Posts, j: JobId, a: seq<RunnerState>, b: seq<RunnerState>)
    ensures Posted(Posted(posts, j, a), j, b) == Posted(posts, j, a + b)
  {
    var before := if j in posts then posts[j] else [];
    assert before + a + b == before + (a + b);
    assert a + [] == a && [] + b == b;
  }

  function After(posts: Posts, post: Option<Post>): Posts {
    if post.Some? then Posted(posts, post.value.job, [post.value.state]) else posts
  }

  lemma GoSolo(r: Runner, ev: Event, r': Runner, post: Option<Post>, posts: Posts,
      home: map<JobId, int>)
    requires Reached(Solo(r, posts, home)) && Enabled(r, ev) && !ev.RecvStart? && Step(r, ev) == Effect(r', post)
    ensures Reached(Solo(r', After(posts, post), home))
  {
    var f := Solo(r, posts, home);
    Go(f, 0, ev);
    assert map[0 := r][0 := r'] == map[0 := r'];
    assert FleetStep(f, 0, ev) == Solo(r', After(posts, post), home);
  }

  // A runner with one task more than `base`, the connector's, which holds the mutex if it is inside.
  function With(base: Runner, t: nat, task: Task): Runner {
    base.(
      tasks := base.tasks[t := task], nextTask := t + 1, handling := Some(t),
      lock := if Inside(task) then Some(t) else base.lock)
  }

  ghost predicate Ready(base: Runner) {
    base.kind.Nspawn? && base.alive && base.handling.None? && base.lock.None? && base.nextTask !in base.tasks
  }

  lemma Overwrite(m: map<nat, Task>, t: nat, a: Task, b: Task)
    ensures m[t := a][t := b] == m[t := b]
    ensures t !in m ==> m[t := a] - {t} == m
  {}

  // A step of the added task that only moves it on.
  lemma Move(base: Runner, t: nat, a: Task, b: Task, how: How, post: Option<Post>, posts: Posts,
      home: map<JobId, int>)
    requires Ready(base) && t == base.nextTask && Reached(Solo(With(base, t, a), posts, home))
    requires Enabled(With(base, t, a), Advance(t, how))
    requires var eff := Step(With(base, t, a), Advance(t, how));
      && eff.post == post && t in eff.r.tasks && eff.r.tasks[t] == b
      && eff.r == With(base, t, a).(tasks := eff.r.tasks, lock := if Inside(b) then Some(t) else base.lock)
      && eff.r.tasks == With(base, t, a).tasks[t := b]
    ensures Reached(Solo(With(base, t, b), After(posts, post), home))
  {
    Overwrite(base.tasks, t, a, b);
    GoSolo(With(base, t, a), Advance(t, how), With(base, t, b), post, posts, home);
  }

  // A start that meets no failure: its next point, what it posts on the way, and all it posts until it spawns.
  function NextStart(spc: StartPc): StartPc {
    match spc
    case SLock => SCheckSlot
    case SCheckSlot => SFindEnv
    case SFindEnv => SPostAllocating
    case SPostAllocating => SAllocate
    case SAllocate => SOpenSocket
    case SOpenSocket => SPostBooting
    case _ => SSpawn
  }

  function StartPost(spc: StartPc): seq<RunnerState> {
    if spc.SPostAllocating? || spc.SPostBooting? then [RStarting] else []
  }

  predicate BeforeSpawn(spc: StartPc) {
    spc.SLock? || spc.SCheckSlot? || spc.SFindEnv? || spc.SPostAllocating? || spc.SAllocate? || spc.SOpenSocket?
    || spc.SPostBooting?
  }

  function StartsLeft(spc: StartPc): nat {
    match spc
    case SLock => 7
    case SCheckSlot => 6
    case SFindEnv => 5
    case SPostAllocating => 4
    case SAllocate => 3
    case SOpenSocket => 2
    case SPostBooting => 1
    case _ => 0
  }

  function PostsUntilSpawn(spc: StartPc): seq<RunnerState> {
    if StartsLeft(spc) > 3 then [RStarting, RStarting] else if StartsLeft(spc) > 0 then [RStarting] else []
  }

  lemma PostsOnTheWay(spc: StartPc)
    requires BeforeSpawn(spc)
    ensures StartPost(spc) + PostsUntilSpawn(NextStart(spc)) == PostsUntilSpawn(spc)
  {}

  lemma StartMoves(base: Runner, j: JobId, spc: StartPc, posts: Posts, home: map<JobId, int>)
    requires Ready(base) && base.slot.None? && BeforeSpawn(spc)
    requires Reached(Solo(With(base, base.nextTask, Start(j, spc)), posts, home))
    ensures Reached(
      Solo(With(base, base.nextTask, Start(j, NextStart(spc))), Posted(posts, j, StartPost(spc)), home))
  {
    var post := if StartPost(spc) == [] then None else Some(Post(j, RStarting));
    Move(base, base.nextTask, Start(j, spc), Start(j, NextStart(spc)), Fine, post, posts, home);
  }

  lemma {:induction false} StartRuns(base: Runner, j: JobId, spc: StartPc, posts: Posts,
      home: map<JobId, int>)
    requires Ready(base) && base.slot.None? && (BeforeSpawn(spc) || spc.SSpawn?)
    requires Reached(Solo(With(base, base.nextTask, Start(j, spc)), posts, home))
    ensures Reached(
      Solo(With(base, base.nextTask, Start(j, SSpawn)), Posted(posts, j, PostsUntilSpawn(spc)), home))
    decreases StartsLeft(spc)
  {
    if BeforeSpawn(spc) {
      StartMoves(base, j, spc, posts, home);
      StartRuns(base, j, NextStart(spc), Posted(posts, j, StartPost(spc)), home);
      PostedMore(posts, j, StartPost(spc), PostsUntilSpawn(NextStart(spc)));
      PostsOnTheWay(spc);
    }
  }

  lemma StartComesIn(base: Runner, j: JobId, posts: Posts, home: map<JobId, int>)
    requires Ready(base) && j !in home && Reached(Solo(base, posts, home))
    ensures Reached(Solo(With(base, base.nextTask, Start(j, SLock)), posts, home[j := 0]))
  {
    var f, r' := Solo(base, posts, home), With(base, base.nextTask, Start(j, SLock));
    Go(f, 0, RecvStart(j));
    assert map[0 := base][0 := r'] == map[0 := r'];
    assert FleetStep(f, 0, RecvStart(j)) == Solo(r', posts, home[j := 0]);
  }

  function Started(base: Runner, j: JobId): Runner {
    base.(nextTask := base.nextTask + 1, envs := base.envs + [NewEnv(Nspawn, j, true)],
      slot := Some(Slot(j, |base.envs|)))
  }

  function Spawned(base: Runner, j: JobId): Runner {
    base.(envs := base.envs + [NewEnv(Nspawn, j, true)])
  }

  lemma Spawns(base: Runner, j: JobId, posts: Posts, home: map<JobId, int>)
    requires Ready(base) && base.slot.None? && Reached(Solo(With(base, base.nextTask, Start(j, SSpawn)), posts, home))
    ensures Reached(
      Solo(With(Spawned(base, j), base.nextTask, Start(j, SPostReady(|base.envs|))), posts, home))
  {
    var t, e := base.nextTask, |base.envs|;
    Overwrite(base.tasks, t, Start(j, SSpawn), Start(j, SPostReady(e)));
    GoSolo(With(base, t, Start(j, SSpawn)), Advance(t, Fine), With(Spawned(base, j), t, Start(j, SPostReady(e))),
      None, posts, home);
  }

  lemma PostsReady(up: Runner, j: JobId, e: nat, posts: Posts, home: map<JobId, int>)
    requires Ready(up) && up.slot.None? && e < |up.envs|
    requires Reached(Solo(With(up, up.nextTask, Start(j, SPostReady(e))), posts, home))
    ensures Reached(Solo(With(up, up.nextTask, Start(j, SStore(e))), Posted(posts, j, [RReady]), home))
  {
    Move(up, up.nextTask, Start(j, SPostReady(e)), Start(j, SStore(e)), Fine, Some(Post(j, RReady)), posts, home);
  }

  // From the spawn to the end of the start.
  lemma SpawnToStored(base: Runner, j: JobId, posts: Posts, home: map<JobId, int>)
    requires Ready(base) && base.slot.None? && Reached(Solo(With(base, base.nextTask, Start(j, SSpawn)), posts, home))
    ensures Reached(Solo(Started(base, j), Posted(posts, j, [RReady]), home))
  {
    Spawns(base, j, posts, home);
    PostsReady(Spawned(base, j), j, |base.envs|, posts, home);
    Stores(Spawned(base, j), j, |base.envs|, Posted(posts, j, [RReady]), home);
  }

  lemma Stores(up: Runner, j: JobId, e: nat, posts: Posts, home: map<JobId, int>)
    requires Ready(up) && up.slot.None? && e < |up.envs|
    requires Reached(Solo(With(up, up.nextTask, Start(j, SStore(e))), posts, home))
    ensures Reached(Solo(up.(nextTask := up.nextTask + 1, slot := Some(Slot(j, e))), posts, home))
  {
    var t := up.nextTask;
    Overwrite(up.tasks, t, Start(j, SStore(e)), Start(j, SStore(e)));
    GoSolo(With(up, t, Start(j, SStore(e))), Advance(t, Fine),
      up.(nextTask := t + 1, slot := Some(Slot(j, e))), None, posts, home);
  }

  // A runner with nothing in its slot takes up a new job.
  lemma JobStarts(base: Runner, j: JobId, posts: Posts, home: map<JobId, int>)
    requires Ready(base) && base.slot.None? && j !in home && Reached(Solo(base, posts, home))
    ensures Reached(Solo(Started(base, j), Posted(posts, j, [RStarting, RStarting, RReady]), home[j := 0]))
  {
    StartComesIn(base, j, posts, home);
    StartRuns(base, j, SLock, posts, home[j := 0]);
    SpawnToStored(base, j, Posted(posts, j, [RStarting, RStarting]), home[j := 0]);
    PostedMore(posts, j, [RStarting, RStarting], [RReady]);
    assert [RStarting, RStarting] + [RReady] == [RStarting, RStarting, RReady];
  }

  // ----- Job 1 on a fresh runner -----

  const Up: Runner := Started(Idle(Nspawn), 1)
  const UpPosts: seq<RunnerState> := [RStarting, RStarting, RReady]

  lemma FirstJobStarts()
    ensures Reached(Solo(Up, map[1 := UpPosts], map[1 := 0]))
  {
    var f := Solo(Idle(Nspawn), map[], map[]);
    assert FleetRun([f]);
    assert [f][|[f]| - 1] == f;
    JobStarts(Idle(Nspawn), 1, map[], map[]);
    assert [] + UpPosts == UpPosts;
    assert Posted(map[], 1, UpPosts) == map[1 := UpPosts];
    assert map[][1 := 0] == map[1 := 0];
  }

  // ----- Its child exits, and both ends of its output ask for a stop -----

  const Fresh: Env := NewEnv(Nspawn, 1, true)
  const Exited: Env := Fresh.(childAlive := false)
  const OneClosed: Env := Exited.(streamer := Streaming(true, false, false))
  const Closed: Env := Exited.(streamer := Streaming(true, true, false))

  lemma BothEndsAsk()
    ensures Reached(Solo(
      Up.(envs := [Closed], tasks := map[1 := Stop(1, TLock), 2 := Stop(1, TLock)], nextTask := 3),
      map[1 := UpPosts], map[1 := 0]))
  {
    FirstJobStarts();
    assert Up.envs == [Fresh];
    assert [Fresh][0 := Exited] == [Exited] && [Exited][0 := OneClosed] == [OneClosed];
    assert [OneClosed][0 := Closed] == [Closed];
    var one := Up.(envs := [OneClosed], tasks := map[1 := Stop(1, TLock)], nextTask := 2);
    var two := Up.(envs := [Closed], tasks := map[1 := Stop(1, TLock), 2 := Stop(1, TLock)], nextTask := 3);
    GoSolo(Up, ChildExits(0), Up.(envs := [Exited]), None, map[1 := UpPosts], map[1 := 0]);
    assert Up.tasks[1 := Stop(1, TLock)] == one.tasks;
    GoSolo(Up.(envs := [Exited]), StreamerEof(0, true), one, None, map[1 := UpPosts], map[1 := 0]);
    assert one.tasks[2 := Stop(1, TLock)] == two.tasks;
    GoSolo(one, StreamerEof(0, false), two, None, map[1 := UpPosts], map[1 := 0]);
  }

  // ----- The first stop works, the second waits for the mutex -----

  function Both(first: StopPc, second: StopPc): map<nat, Task> {
    map[1 := Stop(1, first), 2 := Stop(1, second)]
  }

  function Stopping(tpc: StopPc, env: Env): Runner {
    Runner(Nspawn, true, None, if tpc.TPostFinished? then None else Some(1), None, Both(tpc, TLock), [env], 3)
  }

  // Task 1 went from one point of the stop to another, and left `env`.
  predicate GoesTo(eff: Effect, tpc: StopPc, env: Env) {
    && eff.r.kind.Nspawn? && eff.r.alive && eff.r.handling.None? && eff.r.lock == Stopping(tpc, env).lock
    && eff.r.slot.None? && eff.r.nextTask == 3 && eff.r.envs == [env]
    && eff.r.tasks.Keys == {1, 2} && eff.r.tasks[1] == Stop(1, tpc) && eff.r.tasks[2] == Stop(1, TLock)
  }

  lemma StopMoves(tpc: StopPc, env: Env, how: How, tpc': StopPc, env': Env, posts: seq<RunnerState>)
    requires Reached(Solo(Stopping(tpc, env), map[1 := posts], map[1 := 0]))
    requires CarriedBy(Stop(1, tpc)) == Some(0) && Enabled(Stopping(tpc, env), Advance(1, how))
    requires GoesTo(AdvanceStop(Stopping(tpc, env), 1, 1, tpc, how), tpc', env')
    requires AdvanceStop(Stopping(tpc, env), 1, 1, tpc, how).post.None?
    ensures Reached(Solo(Stopping(tpc', env'), map[1 := posts], map[1 := 0]))
  {
    var eff := AdvanceStop(Stopping(tpc, env), 1, 1, tpc, how);
    assert eff.r.tasks == Both(tpc', TLock);
    GoSolo(Stopping(tpc, env), Advance(1, how), Stopping(tpc', env'), None, map[1 := posts], map[1 := 0]);
  }

  const Taken: Env := Closed.(taken := 1)
  const StoppingPosts: seq<RunnerState> := UpPosts + [RStopping]

  lemma StopTakesJob()
    ensures Reached(Solo(Stopping(TPostStopping(0), Taken), map[1 := UpPosts], map[1 := 0]))
  {
    BothEndsAsk();
    var waiting := Up.(envs := [Closed], tasks := Both(TLock, TLock), nextTask := 3);
    var checking := waiting.(tasks := Both(TCheckSlot, TLock), lock := Some(1));
    assert waiting.tasks[1 := Stop(1, TCheckSlot)] == checking.tasks;
    GoSolo(waiting, Advance(1, Fine), checking, None, map[1 := UpPosts], map[1 := 0]);
    assert checking.tasks[1 := Stop(1, TPostStopping(0))] == Both(TPostStopping(0), TLock);
    assert [Closed][0 := Taken] == [Taken];
    GoSolo(checking, Advance(1, Fine), Stopping(TPostStopping(0), Taken), None, map[1 := UpPosts], map[1 := 0]);
  }

  lemma StopPostsStopping()
    ensures Reached(Solo(Stopping(TLockChild(0), Taken), map[1 := StoppingPosts], map[1 := 0]))
  {
    StopTakesJob();
    assert Both(TPostStopping(0), TLock)[1 := Stop(1, TLockChild(0))] == Both(TLockChild(0), TLock);
    GoSolo(Stopping(TPostStopping(0), Taken), Advance(1, Fine), Stopping(TLockChild(0), Taken),
      Some(Post(1, RStopping)), map[1 := UpPosts], map[1 := 0]);
    assert map[1 := UpPosts][1 := StoppingPosts] == map[1 := StoppingPosts];
  }

  const Locked: Env := Taken.(childLocked := true)
  const NoSocket: Env := Locked.(socketUp := false)
  const Told: Env := NoSocket.(streamer := Streaming(true, true, true), shutdowns := 1)
  const Quiet: Env := Told.(streamer := StreamerDone)
  const NoProxies: Env := Quiet.(proxiesUp := false)
  const Gone: Env := NoProxies.(mounted := false)

  lemma SocketIsDown()
    ensures Reached(Solo(Stopping(TSendShutdown(0), NoSocket), map[1 := StoppingPosts], map[1 := 0]))
  {
    StopPostsStopping();
    StopMoves(TLockChild(0), Taken, Fine, TKill(0), Locked, StoppingPosts);
    StopMoves(TKill(0), Locked, Fine, TJoinSocket(0), Locked, StoppingPosts);
    StopMoves(TJoinSocket(0), Locked, Fine, TSendShutdown(0), NoSocket, StoppingPosts);
  }

  lemma ProxiesAreNext()
    ensures Reached(Solo(Stopping(TDownProxies(0), Quiet), map[1 := StoppingPosts], map[1 := 0]))
  {
    SocketIsDown();
    StopMoves(TSendShutdown(0), NoSocket, Fine, TJoinStreamer(0), Told, StoppingPosts);
    assert [Told][0 := Quiet] == [Quiet];
    GoSolo(Stopping(TJoinStreamer(0), Told), StreamerStops(0), Stopping(TJoinStreamer(0), Quiet), None,
      map[1 := StoppingPosts], map[1 := 0]);
    StopMoves(TJoinStreamer(0), Quiet, Fine, TDownProxies(0), Quiet, StoppingPosts);
  }

  lemma FinishedIsNext()
    ensures Reached(Solo(Stopping(TPostFinished(0), Gone), map[1 := StoppingPosts], map[1 := 0]))
  {
    ProxiesAreNext();
    StopMoves(TDownProxies(0), Quiet, Fine, TUnmount(0), NoProxies, StoppingPosts);
    Unmounts();
    StopMoves(TUnlock(0), Gone, Fine, TPostFinished(0), Gone, StoppingPosts);
  }

  lemma Unmounts()
    requires Reached(Solo(Stopping(TUnmount(0), NoProxies), map[1 := StoppingPosts], map[1 := 0]))
    ensures Reached(Solo(Stopping(TUnlock(0), Gone), map[1 := StoppingPosts], map[1 := 0]))
  {
    StopMoves(TUnmount(0), NoProxies, Fine, TUnlock(0), Gone, StoppingPosts);
  }

  // ----- The second stop finds the slot empty, and posts before the first -----

  function Idled(tasks: map<nat, Task>): Runner {
    Runner(Nspawn, true, None, None, None, tasks, [Gone], 3)
  }

  lemma SecondStopIsRefused()
    ensures Reached(
      Solo(Idled(Both(TPostFinished(0), TRefuse)).(lock := Some(2)), map[1 := StoppingPosts], map[1 := 0]))
  {
    FinishedIsNext();
    var posts, home := map[1 := StoppingPosts], map[1 := 0];
    var checking := Idled(Both(TPostFinished(0), TCheckSlot)).(lock := Some(2));
    assert Both(TPostFinished(0), TLock)[2 := Stop(1, TCheckSlot)] == checking.tasks;
    GoSolo(Stopping(TPostFinished(0), Gone), Advance(2, Fine), checking, None, posts, home);
    assert checking.tasks[2 := Stop(1, TRefuse)] == Both(TPostFinished(0), TRefuse);
    GoSolo(checking, Advance(2, Fine), Idled(Both(TPostFinished(0), TRefuse)).(lock := Some(2)), None, posts, home);
  }

  const EndPosts: seq<RunnerState> := StoppingPosts + [RFailed] + [RFinished]

  lemma SecondStopPostsFirst()
    ensures Reached(Solo(Idled(map[]), map[1 := EndPosts], map[1 := 0]))
  {
    SecondStopIsRefused();
    var first, home := map[1 := Stop(1, TPostFinished(0))], map[1 := 0];
    assert Both(TPostFinished(0), TRefuse) - {2} == first;
    GoSolo(Idled(Both(TPostFinished(0), TRefuse)).(lock := Some(2)), Advance(2, Fine), Idled(first),
      Some(Post(1, RFailed)), map[1 := StoppingPosts], home);
    assert map[1 := StoppingPosts][1 := StoppingPosts + [RFailed]] == map[1 := StoppingPosts + [RFailed]];
    FirstStopPostsLast(first, home);
  }

  lemma FirstStopPostsLast(first: map<nat, Task>, home: map<JobId, int>)
    requires first == map[1 := Stop(1, TPostFinished(0))]
    requires Reached(Solo(Idled(first), map[1 := StoppingPosts + [RFailed]], home))
    ensures Reached(Solo(Idled(map[]), map[1 := EndPosts], home))
  {
    assert first - {1} == map[];
    GoSolo(Idled(first), Advance(1, Fine), Idled(map[]), Some(Post(1, RFinished)), map[1 := StoppingPosts + [RFailed]],
      home);
    assert map[1 := StoppingPosts + [RFailed]][1 := EndPosts] == map[1 := EndPosts];
  }
}
