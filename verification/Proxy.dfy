/**
 The rendezvous proxy: a listener task that spawns one task per connection, the shutdown that must join
 them all, and the callers that wait for the public address.
 */
module Proxy {
  import opened Common

  type Address = int

  datatype Ending = EndedOk | EndedErr | EndedPanic

  // The listener task: sse_loop.
  datatype ListenerPc = Connecting | Streaming | Sleeping | ListenerEnded(how: Ending)

  // A connection task: dialing and the WebSocket handshake do not look at the command channel.
  datatype ConnPc = Dialing | Relaying | Closing(res: Ending) | ConnEnded(how: Ending)

  // `told`: a Shutdown is in the task's command channel.
  datatype Conn = Conn(pc: ConnPc, told: bool)

  datatype ShutdownPc =
    | NotCalled
    | JoiningListener
    | Draining
    | Joining(id: nat)      // holds the sender taken from the map
    | Returned(how: Ending)

  datatype WaiterPc = Looking | Awaiting(seen: nat) | Got(addr: Address) | TimedOut

  // `builds`: whether the listener's request can be built. Its parts never change, so every attempt to
  // build it ends alike. `connections`: the ids in the map, each with the task's sender and join handle.
  // `conns`: every task ever spawned, by id.
  datatype State = State(
    builds: bool,
    listener: ListenerPc, listenerTold: bool, count: nat, connections: set<nat>, conns: seq<Conn>,
    shutdown: ShutdownPc, addr: Option<Address>, generation: nat, waiters: seq<WaiterPc>)

  datatype Step =
    | Connect | Break | WakeUp | Obey
    | NewConnection | Listening(addr: Address)
    | Dial(id: nat, ok: bool) | ObeyConn(id: nat) | RelayEnds(id: nat, res: Ending) | Close(id: nat)
    | CallShutdown | JoinListener | TakeNext(id: nat) | JoinConn(id: nat) | DrainDone
    | AskAddress | Look(i: nat, expired: bool) | Release(i: nat) | Timeout(i: nat)

  predicate HasSender(s: State, id: nat) {
    id in s.connections || s.shutdown == Joining(id)
  }

  predicate Enabled(s: State, step: Step) {
    match step
    case Connect => s.listener.Connecting?
    case Break => s.listener.Streaming?
    case WakeUp => s.listener.Sleeping?
    case Obey => s.listener.Streaming? && s.listenerTold
    case NewConnection => s.listener.Streaming?
    case Listening(_) => s.listener.Streaming?
    case Dial(id, _) => id < |s.conns| && s.conns[id].pc.Dialing?
    // The command channel yields a command, or, without a sender, its end.
    case ObeyConn(id) => id < |s.conns| && s.conns[id].pc.Relaying? && (s.conns[id].told || !HasSender(s, id))
    case RelayEnds(id, res) => id < |s.conns| && s.conns[id].pc.Relaying? && !res.EndedPanic?
    case Close(id) => id < |s.conns| && s.conns[id].pc.Closing?
    case CallShutdown => s.shutdown.NotCalled?
    case JoinListener => s.shutdown.JoiningListener? && s.listener.ListenerEnded?
    case TakeNext(id) => s.shutdown.Draining? && id in s.connections
    case JoinConn(id) => s.shutdown == Joining(id) && id < |s.conns| && s.conns[id].pc.ConnEnded?
    case DrainDone => s.shutdown.Draining? && s.connections == {}
    // shutdown consumes the proxy, so nobody asks for the address afterwards.
    case AskAddress => s.shutdown.NotCalled?
    case Look(i, _) => i < |s.waiters| && s.waiters[i].Looking?
    case Release(i) => i < |s.waiters| && s.waiters[i].Awaiting? && s.generation > s.waiters[i].seen
    case Timeout(i) => i < |s.waiters| && s.waiters[i].Awaiting?
  }

  function SetConn(s: State, id: nat, pc: ConnPc): State
    requires id < |s.conns|
  {
    s.(conns := s.conns[id := s.conns[id].(pc := pc)])
  }

  function Spawn(s: State): State {
    if s.count + 1 > U64_MAX then s.(listener := ListenerEnded(EndedPanic))
    else s.(count := s.count + 1, connections := s.connections + {s.count}, conns := s.conns + [Conn(Dialing, false)])
  }

  function Take(s: State, step: Step): State
    requires Enabled(s, step)
  {
    match step
    case Connect => s.(listener := if s.builds then Streaming else ListenerEnded(EndedErr))
    case Break => s.(listener := Sleeping)
    case WakeUp => s.(listener := Connecting)
    case Obey => s.(listener := ListenerEnded(EndedOk), listenerTold := false)
    case NewConnection => Spawn(s)
    case Listening(addr) => s.(addr := Some(addr), generation := s.generation + 1)
    case Dial(id, ok) => SetConn(s, id, if ok then Relaying else ConnEnded(EndedErr))
    case ObeyConn(id) => SetConn(s, id, if s.conns[id].told then Closing(EndedOk) else ConnEnded(EndedPanic))
    case RelayEnds(id, res) => SetConn(s, id, Closing(res))
    case Close(id) => SetConn(s, id, ConnEnded(s.conns[id].pc.res))
    case CallShutdown =>
      // The send fails when the listener, and with it the receiver, is gone: a panic.
      if s.listener.ListenerEnded? then s.(shutdown := Returned(EndedPanic))
      else s.(listenerTold := true, shutdown := JoiningListener)
    case JoinListener => s.(shutdown := if s.listener.how.EndedOk? then Draining else Returned(s.listener.how))
    case TakeNext(id) =>
      s.(connections := s.connections - {id}, shutdown := Joining(id),
         conns :=
           if id < |s.conns| && !s.conns[id].pc.ConnEnded? then s.conns[id := s.conns[id].(told := true)] else s.conns)
    case JoinConn(id) =>
      // A panicked task panics the join; the drain it unwinds drops every sender left.
      if s.conns[id].pc.how.EndedPanic? then s.(shutdown := Returned(EndedPanic), connections := {})
      else s.(shutdown := Draining)
    case DrainDone => s.(shutdown := Returned(EndedOk))
    case AskAddress => s.(waiters := s.waiters + [Looking])
    // One critical section: read the address, or take out a notification before giving the lock back.
    case Look(i, expired) =>
      var pc :=
        if s.addr.Some? then Got(s.addr.value) else if expired then TimedOut else Awaiting(s.generation);
      s.(waiters := s.waiters[i := pc])
    case Release(i) => s.(waiters := s.waiters[i := Looking])
    case Timeout(i) => s.(waiters := s.waiters[i := Looking])
  }

  function Start(builds: bool): State {
    State(builds, Connecting, false, 0, {}, [], NotCalled, Option.None, 0, [])
  }

  ghost predicate Next(s: State, s': State) {
    exists step :: Enabled(s, step) && s' == Take(s, step)
  }

  ghost predicate IsRun(ss: seq<State>) {
    && ss != [] && ss[0] == Start(ss[0].builds)
    && forall k | 0 <= k < |ss| - 1 :: Next(ss[k], ss[k + 1])
  }

  // ----- What every run keeps -----

  predicate Drains(s: State) {
    s.shutdown.Draining? || s.shutdown.Joining? || s.shutdown == Returned(EndedOk)
  }

  // The map holds the ids from zero to the counter, until the shutdown drains it.
  ghost predicate MapOk(s: State) {
    && |s.conns| == s.count <= U64_MAX
    && (forall id | id in s.connections :: id < s.count)
    && (!Drains(s) ==> forall id: nat | id < s.count :: id in s.connections)
    && (s.shutdown.Joining? ==> s.shutdown.id < s.count && s.shutdown.id !in s.connections)
    && (s.shutdown == Returned(EndedOk) ==> s.connections == {})
  }

  // A task out of the map has ended or is being joined; one that was told still has its sender.
  ghost predicate TasksOk(s: State)
    requires MapOk(s)
  {
    && (forall id: nat | id < s.count :: HasSender(s, id) || s.conns[id].pc.ConnEnded?)
    && (forall id: nat | id < s.count ::
      s.conns[id].pc != ConnEnded(EndedPanic) && s.conns[id].pc != Closing(EndedPanic))
    && (forall id: nat | id in s.connections :: !s.conns[id].told)
    && (s.shutdown.Joining? ==> s.conns[s.shutdown.id].pc.ConnEnded? || s.conns[s.shutdown.id].told)
  }

  ghost predicate ListenerOk(s: State) {
    && (Drains(s) ==> s.listener == ListenerEnded(EndedOk))
    && (s.listener == ListenerEnded(EndedOk) ==> !s.shutdown.NotCalled?)
    && (s.shutdown.JoiningListener? ==> s.listenerTold || s.listener.ListenerEnded?)
    && (s.shutdown.NotCalled? ==> !s.listenerTold)
    && (s.listener == ListenerEnded(EndedErr) ==> !s.builds)
    && (!s.builds ==> s.listener.Connecting? || s.listener == ListenerEnded(EndedErr))
    && (!s.builds ==> s.conns == [])
    && (s.shutdown.Returned? ==>
      && s.listener.ListenerEnded? && (s.shutdown.how.EndedOk? <==> s.listener.how.EndedOk?)
      && (s.shutdown.how.EndedErr? ==> s.listener.how.EndedErr?))
  }

  ghost predicate WaitersOk(s: State) {
    forall i | 0 <= i < |s.waiters| && s.waiters[i].Awaiting? ::
      s.waiters[i].seen <= s.generation && (s.addr.Some? ==> s.generation > s.waiters[i].seen)
  }

  ghost predicate Inv(s: State) {
    MapOk(s) && TasksOk(s) && ListenerOk(s) && WaitersOk(s)
  }

  lemma StepKeepsMap(s: State, step: Step)
    requires MapOk(s) && TasksOk(s) && ListenerOk(s) && Enabled(s, step)
    ensures MapOk(Take(s, step))
  {}

  lemma StepKeepsListener(s: State, step: Step)
    requires MapOk(s) && TasksOk(s) && ListenerOk(s) && Enabled(s, step)
    ensures ListenerOk(Take(s, step))
  {}

  lemma StepKeepsWaiters(s: State, step: Step)
    requires WaitersOk(s) && Enabled(s, step)
    ensures WaitersOk(Take(s, step))
  {}

  lemma StepKeepsSenders(s: State, step: Step)
    requires MapOk(s) && TasksOk(s) && ListenerOk(s) && Enabled(s, step) && MapOk(Take(s, step))
    ensures TasksOk(Take(s, step))
  {}

  lemma StepKeeps(s: State, step: Step)
    requires Inv(s) && Enabled(s, step)
    ensures Inv(Take(s, step))
  {
    StepKeepsMap(s, step);
    StepKeepsListener(s, step);
    StepKeepsWaiters(s, step);
    StepKeepsSenders(s, step);
  }

  lemma {:induction false} RunKeeps(ss: seq<State>, k: nat)
    requires IsRun(ss) && k < |ss|
    ensures Inv(ss[k])
  {
    if k > 0 {
      RunKeeps(ss, k - 1);
      assert Next(ss[k - 1], ss[k - 1 + 1]);
      var step :| Enabled(ss[k - 1], step) && ss[k] == Take(ss[k - 1], step);
      StepKeeps(ss[k - 1], step);
    }
  }

  // ----- Shutdown -----

  // No task is forgotten, and one that ended stays ended.
  lemma StepKeepsTasks(s: State, step: Step)
    requires Inv(s) && Enabled(s, step)
    ensures |s.conns| <= |Take(s, step).conns|
    ensures forall id: nat | id < |s.conns| && s.conns[id].pc.ConnEnded? :: Take(s, step).conns[id].pc == s.conns[id].pc
    ensures s.listener.ListenerEnded? ==> |Take(s, step).conns| == |s.conns| && Take(s, step).listener == s.listener
  {}

  // A task that relays has its sender: the branch that panics on a closed command channel is unreachable.
  lemma SenderOutlivesTask(ss: seq<State>, k: nat, id: nat)
    requires IsRun(ss) && k < |ss| && id < |ss[k].conns|
    ensures ss[k].conns[id].pc.ConnEnded? || HasSender(ss[k], id)
    ensures ss[k].conns[id].pc != ConnEnded(EndedPanic)
  {
    RunKeeps(ss, k);
  }

  // From a state in which the listener has ended: the same tasks, and the ended ones as they were.
  ghost predicate TasksKept(s: State, s': State) {
    && s'.listener == s.listener && |s'.conns| == |s.conns|
    && forall id: nat | id < |s.conns| && s.conns[id].pc.ConnEnded? :: s'.conns[id].pc == s.conns[id].pc
  }

  lemma NextKeepsTasks(s: State, s': State)
    requires Inv(s) && Next(s, s') && s.listener.ListenerEnded?
    ensures TasksKept(s, s')
  {
    var step :| Enabled(s, step) && s' == Take(s, step);
    StepKeepsTasks(s, step);
  }

  lemma {:induction false} StepsKeepTasks(ss: seq<State>, k: nat, j: nat)
    requires IsRun(ss) && k <= j < |ss| && ss[k].listener.ListenerEnded?
    ensures TasksKept(ss[k], ss[j])
    decreases j - k
  {
    if k < j {
      RunKeeps(ss, k);
      NextKeepsTasks(ss[k], ss[k + 1]);
      StepsKeepTasks(ss, k + 1, j);
    }
  }

  // Once shutdown has returned Ok, every task ever spawned has ended, none is left in the map and
  // none is ever spawned again.
  lemma ShutdownIsComplete(ss: seq<State>, k: nat, j: nat)
    requires IsRun(ss) && k <= j < |ss| && ss[k].shutdown == Returned(EndedOk)
    ensures ss[j].connections == {} && |ss[j].conns| == |ss[k].conns|
    ensures forall id: nat | id < |ss[j].conns| ::
      ss[j].conns[id].pc == ss[k].conns[id].pc && ss[k].conns[id].pc.ConnEnded?
  {
    RunKeeps(ss, k);
    RunKeeps(ss, j);
    StepsKeepTasks(ss, k, j);
    assert ss[j].connections == {} by {
      if ss[j].connections != {} {
        var id := SomeElement(ss[j].connections);
        ReturnedStays(ss, k, j);
        assert false;
      }
    }
  }

  lemma {:induction false} ReturnedStays(ss: seq<State>, k: nat, j: nat)
    requires IsRun(ss) && k <= j < |ss| && ss[k].shutdown.Returned?
    ensures ss[j].shutdown == ss[k].shutdown
  {
    if k < j {
      ReturnedStays(ss, k, j - 1);
      assert Next(ss[j - 1], ss[j - 1 + 1]);
    }
  }

  // What shutdown returns: Ok exactly when the listener obeyed; otherwise no task has been joined, and
  // the map still holds every id. After an error there never was one.
  lemma ShutdownOutcome(ss: seq<State>, k: nat)
    requires IsRun(ss) && k < |ss| && ss[k].shutdown.Returned?
    ensures ss[k].shutdown.how.EndedOk? <==> ss[k].listener == ListenerEnded(EndedOk)
    ensures ss[k].shutdown.how.EndedErr? ==> ss[k].listener == ListenerEnded(EndedErr)
    ensures !ss[k].shutdown.how.EndedOk? ==> forall id: nat :: id in ss[k].connections <==> id < ss[k].count
    ensures ss[k].shutdown.how.EndedErr? ==> ss[k].conns == [] && ss[k].connections == {}
  {
    RunKeeps(ss, k);
    if ss[k].shutdown.how.EndedErr? { ErrLeavesNothing(ss, k, k); }
  }

  // A listener that ended with an error never got to spawn a task, and never will.
  lemma ErrLeavesNothing(ss: seq<State>, k: nat, j: nat)
    requires IsRun(ss) && k <= j < |ss| && ss[k].listener == ListenerEnded(EndedErr)
    ensures ss[j].conns == [] && ss[j].connections == {} && ss[j].listener == ListenerEnded(EndedErr)
  {
    RunKeeps(ss, k);
    RunKeeps(ss, j);
    StepsKeepTasks(ss, k, j);
    if ss[j].connections != {} {
      var id := SomeElement(ss[j].connections);
      assert false;
    }
  }

  // ----- Shutdown can always finish -----

  // A path of steps.
  ghost predicate Path(ss: seq<State>) {
    ss != [] && forall k | 0 <= k < |ss| - 1 :: Next(ss[k], ss[k + 1])
  }

  lemma PathExtends(ss: seq<State>, step: Step) returns (ss': seq<State>)
    requires Path(ss) && Enabled(ss[|ss| - 1], step) && Inv(ss[|ss| - 1])
    ensures Path(ss') && |ss'| == |ss| + 1 && ss'[0] == ss[0] && ss'[|ss'| - 1] == Take(ss[|ss| - 1], step)
    ensures Inv(ss'[|ss'| - 1])
  {
    ss' := ss + [Take(ss[|ss| - 1], step)];
    StepKeeps(ss[|ss| - 1], step);
    forall k | 0 <= k < |ss'| - 1 ensures Next(ss'[k], ss'[k + 1]) {
      if k < |ss| - 1 { assert Next(ss[k], ss[k + 1]); }
    }
  }

  // The listener reads its command whatever it was doing.
  lemma ListenerObeys(ss: seq<State>) returns (ss': seq<State>)
    requires Path(ss) && Inv(ss[|ss| - 1]) && ss[|ss| - 1].shutdown.JoiningListener?
    requires !ss[|ss| - 1].listener.ListenerEnded?
    ensures Path(ss') && ss'[0] == ss[0] && Inv(ss'[|ss'| - 1])
    ensures ss'[|ss'| - 1].shutdown.JoiningListener? && ss'[|ss'| - 1].listener.ListenerEnded?
  {
    ss' := ss;
    if ss'[|ss'| - 1].listener.Sleeping? { ss' := PathExtends(ss', WakeUp); }
    if ss'[|ss'| - 1].listener.Connecting? { ss' := PathExtends(ss', Connect); }
    if ss'[|ss'| - 1].listener.Streaming? { ss' := PathExtends(ss', Obey); }
  }

  // The task being joined reads its command, closes and ends.
  lemma {:induction false} TaskObeys(ss: seq<State>, id: nat, pc: ConnPc) returns (ss': seq<State>)
    requires Path(ss) && Inv(ss[|ss| - 1]) && ss[|ss| - 1].shutdown == Joining(id) && pc == ss[|ss| - 1].conns[id].pc
    ensures Path(ss') && ss'[0] == ss[0] && Inv(ss'[|ss'| - 1])
    ensures ss'[|ss'| - 1].shutdown.Draining? && ss'[|ss'| - 1].connections == ss[|ss| - 1].connections
    decreases match pc { case Dialing => 3 case Relaying => 2 case Closing(_) => 1 case ConnEnded(_) => 0 }
  {
    match pc
    case Dialing => ss' := TaskSteps(ss, id, Dial(id, true), Relaying); ss' := TaskObeys(ss', id, Relaying);
    case Relaying =>
      ss' := TaskSteps(ss, id, ObeyConn(id), Closing(EndedOk));
      ss' := TaskObeys(ss', id, Closing(EndedOk));
    case Closing(res) => ss' := TaskSteps(ss, id, Close(id), ConnEnded(res)); ss' := TaskObeys(ss', id, ConnEnded(res));
    case ConnEnded(_) => ss' := PathExtends(ss, JoinConn(id));
  }

  lemma TaskSteps(ss: seq<State>, id: nat, step: Step, to: ConnPc) returns (ss': seq<State>)
    requires Path(ss) && Inv(ss[|ss| - 1]) && ss[|ss| - 1].shutdown == Joining(id)
    requires Enabled(ss[|ss| - 1], step) && (step == Dial(id, true) || step == ObeyConn(id) || step == Close(id))
    requires Take(ss[|ss| - 1], step) == SetConn(ss[|ss| - 1], id, to)
    ensures Path(ss') && ss'[0] == ss[0] && Inv(ss'[|ss'| - 1])
    ensures ss'[|ss'| - 1] == SetConn(ss[|ss| - 1], id, to)
  {
    ss' := PathExtends(ss, step);
  }

  lemma {:induction false} DrainFinishes(ss: seq<State>, left: set<nat>) returns (ss': seq<State>)
    requires Path(ss) && Inv(ss[|ss| - 1]) && ss[|ss| - 1].shutdown.Draining? && left == ss[|ss| - 1].connections
    ensures Path(ss') && ss'[0] == ss[0] && ss'[|ss'| - 1].shutdown.Returned?
    decreases left
  {
    if left == {} {
      ss' := PathExtends(ss, DrainDone);
    } else {
      var id := SomeElement(left);
      ss' := PathExtends(ss, TakeNext(id));
      ss' := TaskObeys(ss', id, ss'[|ss'| - 1].conns[id].pc);
      ss' := DrainFinishes(ss', left - {id});
    }
  }

  // In whatever state shutdown is called, and however far it got, it can still return: it never waits
  // for something that waits for it.
  lemma ShutdownCanReturn(run: seq<State>, k: nat) returns (ss: seq<State>)
    requires IsRun(run) && k < |run| && !run[k].shutdown.NotCalled?
    ensures Path(ss) && ss[0] == run[k] && ss[|ss| - 1].shutdown.Returned?
  {
    RunKeeps(run, k);
    ss := [run[k]];
    if run[k].shutdown.JoiningListener? {
      if !run[k].listener.ListenerEnded? { ss := ListenerObeys(ss); }
      ss := PathExtends(ss, JoinListener);
    }
    if ss[|ss| - 1].shutdown.Joining? {
      var id := ss[|ss| - 1].shutdown.id;
      ss := TaskObeys(ss, id, ss[|ss| - 1].conns[id].pc);
    }
    if ss[|ss| - 1].shutdown.Draining? { ss := DrainFinishes(ss, ss[|ss| - 1].connections); }
  }

  // ----- Shutdown under every schedule, once the listener has ended -----

  function ConnWeight(c: Conn): nat {
    match c.pc
    case Dialing => 3
    case Relaying => 2
    case Closing(_) => 1
    case ConnEnded(_) => 0
  }

  function ConnWeights(conns: seq<Conn>): seq<nat> {
    seq(|conns|, i requires 0 <= i < |conns| => ConnWeight(conns[i]))
  }

  // What tasks and shutdown have still to do.
  function Work(s: State): nat {
    Sum(ConnWeights(s.conns))
    + match s.shutdown
      case NotCalled => 0
      case JoiningListener => 2 * |s.connections| + 3
      case Draining => 2 * |s.connections| + 1
      case Joining(_) => 2 * |s.connections| + 2
      case Returned(_) => 0
  }

  predicate IsWork(step: Step) {
    step.Dial? || step.ObeyConn? || step.RelayEnds? || step.Close?
    || step.JoinListener? || step.TakeNext? || step.JoinConn? || step.DrainDone?
  }

  lemma ConnMoves(conns: seq<Conn>, id: nat, c: Conn)
    requires id < |conns|
    ensures Sum(ConnWeights(conns[id := c])) == Sum(ConnWeights(conns)) - ConnWeight(conns[id]) + ConnWeight(c)
  {
    SumUpdate(ConnWeights(conns), id, ConnWeight(c));
    assert ConnWeights(conns[id := c]) == ConnWeights(conns)[id := ConnWeight(c)];
  }

  lemma TaskWorks(s: State, step: Step)
    requires Enabled(s, step) && (step.Dial? || step.ObeyConn? || step.RelayEnds? || step.Close?)
    ensures Work(Take(s, step)) < Work(s)
  {
    ConnMoves(s.conns, step.id, Take(s, step).conns[step.id]);
  }

  lemma ShutdownWorks(s: State, step: Step)
    requires Enabled(s, step) && (step.JoinListener? || step.TakeNext? || step.JoinConn? || step.DrainDone?)
    ensures Work(Take(s, step)) < Work(s)
  {
    if step.TakeNext? && step.id < |s.conns| { ConnMoves(s.conns, step.id, s.conns[step.id].(told := true)); }
  }

  // Until shutdown has returned, it or the task it waits for can work.
  lemma SomeoneWorks(s: State) returns (step: Step)
    requires Inv(s) && s.listener.ListenerEnded? && !s.shutdown.NotCalled? && !s.shutdown.Returned?
    ensures Enabled(s, step) && IsWork(step)
  {
    match s.shutdown
    case JoiningListener => step := JoinListener;
    case Draining =>
      if s.connections == {} {
        step := DrainDone;
      } else {
        var id := SomeElement(s.connections);
        step := TakeNext(id);
      }
    case Joining(id) =>
      match s.conns[id].pc
      case Dialing => step := Dial(id, true);
      case Relaying => step := ObeyConn(id);
      case Closing(_) => step := Close(id);
      case ConnEnded(_) => step := JoinConn(id);
  }

  // States linked by the given steps.
  ghost predicate Follows(ss: seq<State>, steps: seq<Step>) {
    |ss| == |steps| + 1 && forall k: nat | k < |steps| :: Enabled(ss[k], steps[k]) && ss[k + 1] == Take(ss[k], steps[k])
  }

  function WorkDone(steps: seq<Step>): nat {
    if steps == [] then 0 else WorkDone(steps[..|steps| - 1]) + if IsWork(steps[|steps| - 1]) then 1 else 0
  }

  ghost predicate Winding(s: State) {
    Inv(s) && s.listener.ListenerEnded? && !s.shutdown.NotCalled?
  }

  lemma StepWorks(s: State, step: Step)
    requires Winding(s) && Enabled(s, step)
    ensures Winding(Take(s, step))
    ensures Work(Take(s, step)) + (if IsWork(step) then 1 else 0) <= Work(s)
  {
    StepKeeps(s, step);
    if step.Dial? || step.ObeyConn? || step.RelayEnds? || step.Close? {
      TaskWorks(s, step);
    } else if IsWork(step) {
      ShutdownWorks(s, step);
    }
  }

  lemma {:induction false} WorkIsBounded(ss: seq<State>, steps: seq<Step>, k: nat)
    requires Follows(ss, steps) && k <= |steps| && Winding(ss[0])
    ensures Winding(ss[k]) && Work(ss[k]) + WorkDone(steps[..k]) <= Work(ss[0])
  {
    if k > 0 {
      WorkIsBounded(ss, steps, k - 1);
      assert Enabled(ss[k - 1], steps[k - 1]) && ss[k - 1 + 1] == Take(ss[k - 1], steps[k - 1]);
      StepWorks(ss[k - 1], steps[k - 1]);
      assert steps[..k][..k - 1] == steps[..k - 1];
    }
  }

  /**
   Once the listener has ended, every schedule returns from shutdown: tasks and shutdown together take a
   bounded number of steps, and when they have none left, shutdown has returned.
   */
  lemma ShutdownReturns(run: seq<State>, i: nat, ss: seq<State>, steps: seq<Step>)
    requires IsRun(run) && i < |run| && run[i].listener.ListenerEnded? && !run[i].shutdown.NotCalled?
    requires Follows(ss, steps) && ss[0] == run[i]
    ensures WorkDone(steps) <= Work(run[i])
    ensures (forall step | IsWork(step) :: !Enabled(ss[|steps|], step)) ==> ss[|steps|].shutdown.Returned?
  {
    RunKeeps(run, i);
    WorkIsBounded(ss, steps, |steps|);
    assert steps[..|steps|] == steps;
    if !ss[|steps|].shutdown.Returned? {
      var step := SomeoneWorks(ss[|steps|]);
    }
  }

  // ----- The public address -----

  // A caller that waits although the address is known has had its notification released.
  lemma AddressWakesEveryWaiter(ss: seq<State>, k: nat, i: nat)
    requires IsRun(ss) && k < |ss| && i < |ss[k].waiters| && ss[k].waiters[i].Awaiting? && ss[k].addr.Some?
    ensures Enabled(ss[k], Release(i))
    ensures Enabled(Take(ss[k], Release(i)), Look(i, true))
    ensures Take(Take(ss[k], Release(i)), Look(i, true)).waiters[i] == Got(ss[k].addr.value)
  {
    RunKeeps(ss, k);
  }

  // A run with the steps it takes.
  ghost predicate FollowsFromStart(ss: seq<State>, steps: seq<Step>) {
    Follows(ss, steps) && ss[0] == Start(ss[0].builds)
  }

  lemma FollowsRun(ss: seq<State>, steps: seq<Step>)
    requires FollowsFromStart(ss, steps)
    ensures IsRun(ss)
  {
    forall k: nat | k < |ss| - 1 ensures Next(ss[k], ss[k + 1]) {
      assert Enabled(ss[k], steps[k]) && ss[k + 1] == Take(ss[k], steps[k]);
    }
  }

  function LastAnnounced(steps: seq<Step>): Option<Address> {
    if steps == [] then Option.None
    else if steps[|steps| - 1].Listening? then Some(steps[|steps| - 1].addr)
    else LastAnnounced(steps[..|steps| - 1])
  }

  // The address is the one the rendezvous server announced last.
  lemma {:induction false} AddressIsLatest(ss: seq<State>, steps: seq<Step>, k: nat)
    requires FollowsFromStart(ss, steps) && k < |ss|
    ensures ss[k].addr == LastAnnounced(steps[..k])
  {
    if k > 0 {
      AddressIsLatest(ss, steps, k - 1);
      assert steps[..k][..k - 1] == steps[..k - 1];
      assert ss[k] == Take(ss[k - 1], steps[k - 1]);
    }
  }

  predicate HasLooked(pc: WaiterPc) {
    !pc.Looking?
  }

  lemma StepOnWaiter(s: State, step: Step, i: nat)
    requires Enabled(s, step) && i < |Take(s, step).waiters| && HasLooked(Take(s, step).waiters[i])
    ensures (i < |s.waiters| && s.waiters[i] == Take(s, step).waiters[i]) || (step.Look? && step.i == i)
  {}

  /**
   What public_addr comes to: by its last look, the caller has the address announced last before it, has
   given up because there was none and its time was over, or waits because there was none and it had time.
   */
  lemma {:induction false} LookDecides(ss: seq<State>, steps: seq<Step>, k: nat, i: nat) returns (j: nat)
    requires FollowsFromStart(ss, steps) && k < |ss| && i < |ss[k].waiters| && HasLooked(ss[k].waiters[i])
    ensures j < k && steps[j].Look? && steps[j].i == i
    ensures match ss[k].waiters[i]
      case Got(addr) => LastAnnounced(steps[..j]) == Some(addr)
      case TimedOut => LastAnnounced(steps[..j]) == Option.None && steps[j].expired
      case Awaiting(_) => LastAnnounced(steps[..j]) == Option.None && !steps[j].expired
      case Looking => false
  {
    assert ss[k] == Take(ss[k - 1], steps[k - 1]);
    StepOnWaiter(ss[k - 1], steps[k - 1], i);
    if i < |ss[k - 1].waiters| && ss[k - 1].waiters[i] == ss[k].waiters[i] {
      j := LookDecides(ss, steps, k - 1, i);
    } else {
      j := k - 1;
      AddressIsLatest(ss, steps, j);
    }
  }

  // The waiter stood there as it does now.
  predicate WaitedAt(s: State, i: nat, pc: WaiterPc) {
    i < |s.waiters| && s.waiters[i] == pc
  }

  lemma StepOnNotified(s: State, step: Step, i: nat, pc: WaiterPc)
    requires Enabled(s, step) && pc.Awaiting?
    requires WaitedAt(Take(s, step), i, pc) && Take(s, step).generation > pc.seen
    ensures WaitedAt(s, i, pc) && (s.generation > pc.seen || step.Listening?)
  {}

  /** A caller that waits is woken only by an announcement that came in while it waited. */
  lemma {:induction false} WokenByAnnouncement(ss: seq<State>, steps: seq<Step>, k: nat, i: nat) returns (j: nat)
    requires FollowsFromStart(ss, steps) && k < |ss| && Enabled(ss[k], Release(i))
    ensures j < k && steps[j].Listening? && WaitedAt(ss[j], i, ss[k].waiters[i])
  {
    var pc := ss[k].waiters[i];
    assert Enabled(ss[k - 1], steps[k - 1]) && ss[k] == Take(ss[k - 1], steps[k - 1]);
    StepOnNotified(ss[k - 1], steps[k - 1], i, pc);
    if ss[k - 1].generation > pc.seen {
      j := WokenByAnnouncement(ss, steps, k - 1, i);
    } else {
      j := k - 1;
    }
  }

  function Asks(steps: seq<Step>): nat {
    if steps == [] then 0 else Asks(steps[..|steps| - 1]) + if steps[|steps| - 1].AskAddress? then 1 else 0
  }

  // Every call of public_addr has its own place among the waiters.
  lemma {:induction false} CallersAreCounted(ss: seq<State>, steps: seq<Step>, k: nat)
    requires FollowsFromStart(ss, steps) && k < |ss|
    ensures |ss[k].waiters| == Asks(steps[..k])
  {
    if k > 0 {
      CallersAreCounted(ss, steps, k - 1);
      assert steps[..k][..k - 1] == steps[..k - 1];
      assert ss[k] == Take(ss[k - 1], steps[k - 1]);
    }
  }

  // ----- The listener goes on until it is told -----

  predicate ListenerCause(s: State, step: Step, how: Ending) {
    match how
    case EndedOk => step.Obey?
    case EndedErr => step.Connect? && !s.builds
    case EndedPanic => step.NewConnection? && s.count == U64_MAX
  }

  lemma StepOnListener(s: State, step: Step, how: Ending)
    requires MapOk(s) && Enabled(s, step) && Take(s, step).listener == ListenerEnded(how)
    ensures s.listener == ListenerEnded(how) || ListenerCause(s, step, how)
  {}

  lemma ListenerNext(ss: seq<State>, steps: seq<Step>, k: nat, how: Ending)
    requires FollowsFromStart(ss, steps) && k < |steps| && ss[k + 1].listener == ListenerEnded(how)
    ensures ss[k].listener == ListenerEnded(how) || ListenerCause(ss[k], steps[k], how)
  {
    FollowsRun(ss, steps);
    RunKeeps(ss, k);
    assert Enabled(ss[k], steps[k]) && ss[k + 1] == Take(ss[k], steps[k]);
    StepOnListener(ss[k], steps[k], how);
  }

  /**
   Only the command ends a listener well, only a request that cannot be built ends it with an error, and only
   the full counter panics it: lost and refused streams never do.
   */
  lemma {:induction false} ListenerEndHasCause(ss: seq<State>, steps: seq<Step>, k: nat, how: Ending)
      returns (j: nat)
    requires FollowsFromStart(ss, steps) && k < |ss| && ss[k].listener == ListenerEnded(how)
    ensures j < k && ListenerCause(ss[j], steps[j], how)
  {
    ListenerNext(ss, steps, k - 1, how);
    if ss[k - 1].listener == ListenerEnded(how) {
      j := ListenerEndHasCause(ss, steps, k - 1, how);
    } else {
      j := k - 1;
    }
  }

  /** After a stream is lost the listener waits before it connects anew. */
  lemma {:induction false} WaitsBeforeRetry(ss: seq<State>, steps: seq<Step>, i: nat, k: nat)
    requires FollowsFromStart(ss, steps) && i < k < |ss| && steps[i].Break?
    requires forall m | i < m < k :: !steps[m].WakeUp?
    ensures ss[k].listener.Sleeping?
  {
    assert Enabled(ss[k - 1], steps[k - 1]) && ss[k] == Take(ss[k - 1], steps[k - 1]);
    if i + 1 < k { WaitsBeforeRetry(ss, steps, i, k - 1); }
  }

  // ----- How connections and the shutdown end -----

  lemma StepRelays(s: State, step: Step, id: nat)
    requires Enabled(s, step) && id < |Take(s, step).conns| && Take(s, step).conns[id].pc.Relaying?
    ensures (id < |s.conns| && s.conns[id].pc.Relaying?) || step == Dial(id, true)
  {}

  /** A connection relays only once both its ends were dialed. */
  lemma {:induction false} RelayNeedsDial(ss: seq<State>, steps: seq<Step>, k: nat, id: nat) returns (j: nat)
    requires FollowsFromStart(ss, steps) && k < |ss| && id < |ss[k].conns| && ss[k].conns[id].pc.Relaying?
    ensures j < k && steps[j] == Dial(id, true)
  {
    assert Enabled(ss[k - 1], steps[k - 1]) && ss[k] == Take(ss[k - 1], steps[k - 1]);
    StepRelays(ss[k - 1], steps[k - 1], id);
    if id < |ss[k - 1].conns| && ss[k - 1].conns[id].pc.Relaying? {
      j := RelayNeedsDial(ss, steps, k - 1, id);
    } else {
      j := k - 1;
    }
  }

  // The task closes its sockets, or is over.
  predicate EndsWith(pc: ConnPc, how: Ending) {
    pc == Closing(how) || pc == ConnEnded(how)
  }

  predicate CauseOf(step: Step, id: nat, how: Ending) {
    match how
    case EndedOk => step == ObeyConn(id) || step == RelayEnds(id, EndedOk)
    case EndedErr => step == Dial(id, false) || step == RelayEnds(id, EndedErr)
    case EndedPanic => false
  }

  lemma StepOnConn(s: State, step: Step, id: nat, how: Ending)
    requires Inv(s) && Enabled(s, step) && id < |Take(s, step).conns| && EndsWith(Take(s, step).conns[id].pc, how)
    ensures (id < |s.conns| && EndsWith(s.conns[id].pc, how)) || CauseOf(step, id, how)
  {
    if step.ObeyConn? { assert HasSender(s, step.id); }
  }

  lemma ConnNext(ss: seq<State>, steps: seq<Step>, k: nat, id: nat, how: Ending)
    requires FollowsFromStart(ss, steps) && k < |steps|
    requires id < |ss[k + 1].conns| && EndsWith(ss[k + 1].conns[id].pc, how)
    ensures (id < |ss[k].conns| && EndsWith(ss[k].conns[id].pc, how)) || CauseOf(steps[k], id, how)
  {
    FollowsRun(ss, steps);
    RunKeeps(ss, k);
    assert Enabled(ss[k], steps[k]) && ss[k + 1] == Take(ss[k], steps[k]);
    StepOnConn(ss[k], steps[k], id, how);
  }

  /** A connection ends in an error exactly when it could not be dialed or its relay failed. */
  lemma {:induction false} EndingHasCause(ss: seq<State>, steps: seq<Step>, k: nat, id: nat, how: Ending)
      returns (j: nat)
    requires FollowsFromStart(ss, steps) && k < |ss| && id < |ss[k].conns| && EndsWith(ss[k].conns[id].pc, how)
    ensures j < k && CauseOf(steps[j], id, how)
  {
    ConnNext(ss, steps, k - 1, id, how);
    if id < |ss[k - 1].conns| && EndsWith(ss[k - 1].conns[id].pc, how) {
      j := EndingHasCause(ss, steps, k - 1, id, how);
    } else {
      j := k - 1;
    }
  }

  // What a shutdown called at `s` may have come to.
  ghost predicate ComesTo(late: bool, s: State) {
    && !s.shutdown.NotCalled?
    && (late ==> s.shutdown == Returned(EndedPanic))
    && (!late && s.shutdown.Returned? ==> s.listener.ListenerEnded? && s.shutdown.how == s.listener.how)
  }

  lemma StepOnShutdown(s: State, step: Step, late: bool)
    requires Inv(s) && Enabled(s, step) && ComesTo(late, s)
    ensures ComesTo(late, Take(s, step))
  {}

  /**
   What shutdown returns: a panic when the listener was over at the call, and otherwise what the listener
   returned.
   */
  lemma ShutdownFollowsListener(ss: seq<State>, steps: seq<Step>, i: nat, k: nat)
    requires FollowsFromStart(ss, steps) && i < k < |ss| && steps[i].CallShutdown?
    ensures ss[i].listener.ListenerEnded? ==> ss[k].shutdown == Returned(EndedPanic)
    ensures !ss[i].listener.ListenerEnded? && ss[k].shutdown.Returned? ==>
      ss[k].listener == ListenerEnded(ss[k].shutdown.how)
  {
    ShutdownComesTo(ss, steps, i, k);
  }

  lemma {:induction false} ShutdownComesTo(ss: seq<State>, steps: seq<Step>, i: nat, k: nat)
    requires FollowsFromStart(ss, steps) && i < k < |ss| && steps[i].CallShutdown?
    ensures ComesTo(ss[i].listener.ListenerEnded?, ss[k])
  {
    if i + 1 < k {
      ShutdownComesTo(ss, steps, i, k - 1);
      ComesToNext(ss, steps, k - 1, ss[i].listener.ListenerEnded?);
    } else {
      CallDecides(ss[i], steps[i]);
    }
  }

  lemma CallDecides(s: State, step: Step)
    requires Enabled(s, step) && step.CallShutdown?
    ensures ComesTo(s.listener.ListenerEnded?, Take(s, step))
  {}

  lemma ComesToNext(ss: seq<State>, steps: seq<Step>, k: nat, late: bool)
    requires FollowsFromStart(ss, steps) && k < |steps| && ComesTo(late, ss[k])
    ensures ComesTo(late, ss[k + 1])
  {
    FollowsRun(ss, steps);
    RunKeeps(ss, k);
    StepOnShutdown(ss[k], steps[k], late);
  }

  // The state behind the proxy's mutexes, with the tasks it spawned.
  class ProxyState {
    const builds: bool
    var connectionsCnt: nat
    var connections: set<nat>
    var tasks: seq<Conn>
    var publicAddr: Option<Address>
    var notifications: nat

    // The machine's state, when listener, shutdown and waiters stand as given.
    ghost function Value(listener: ListenerPc, told: bool, shutdown: ShutdownPc, waiters: seq<WaiterPc>): State
      reads this
    {
      State(builds, listener, told, connectionsCnt, connections, tasks, shutdown, publicAddr, notifications, waiters)
    }

    constructor (builds: bool)
      ensures Value(ListenerPc.Connecting, false, NotCalled, []) == Start(builds)
    {
      this.builds := builds;
      connectionsCnt, connections, tasks := 0, {}, [];
      publicAddr, notifications := Option.None, 0;
    }

    method HandleNewConnection() returns (panicked: bool)
      modifies this
      ensures forall told, shutdown, waiters ::
        Value(if panicked then ListenerEnded(EndedPanic) else Streaming, told, shutdown, waiters)
        == Take(old(Value(Streaming, told, shutdown, waiters)), NewConnection)
    {
      var id := connectionsCnt;
      if id + 1 > U64_MAX { return true; }
      connectionsCnt := id + 1;
      tasks := tasks + [Conn(Dialing, false)];
      connections := connections + {id};
      return false;
    }

    method HandleListening(addr: Address)
      modifies `publicAddr, `notifications
      ensures forall told, shutdown, waiters ::
        Value(Streaming, told, shutdown, waiters) ==
          Take(old(Value(Streaming, told, shutdown, waiters)), Step.Listening(addr))
    {
      publicAddr := Some(addr);
      notifications := notifications + 1;
    }

    // One turn of public_addr under the lock.
    method LookForAddress(expired: bool) returns (pc: WaiterPc)
      ensures forall s: State, i: nat |
        i < |s.waiters| && s.waiters[i].Looking? && s.addr == publicAddr && s.generation == notifications ::
        pc == Take(s, Look(i, expired)).waiters[i]
    {
      if publicAddr.Some? { return Got(publicAddr.value); }
      if expired { return TimedOut; }
      return Awaiting(notifications);
    }
  }
}
