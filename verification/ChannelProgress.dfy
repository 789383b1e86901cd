/** Once no new request begins, the channel runs down, and every request that was not lost returns. */
module ChannelProgress {
  import opened Common
  import opened ControlChannel
  import opened ChannelProofs
  import opened ChannelTheorems

  // ----- Some move is enabled while a request is open -----

  predicate Open(s: Channel, i: nat)
    requires i < |s.reqs|
  {
    var pc := s.reqs[i].pc;
    !pc.Done? && !pc.Panicked? && (IdOf(pc).Some? ==> IdOf(pc).value < |s.stage| && s.stage[IdOf(pc).value] != Lost)
  }

  // The move of whoever holds the lock, or of the task when it wants it.
  lemma HolderMoves(s: Channel) returns (m: Move)
    requires LockOk(s) && (s.lock != Free || !s.task.Receiving?)
    ensures Can(s, m) && !m.Begin?
  {
    match s.lock
    case ByRequester(k) =>
      assert HoldsLock(s.reqs[k].pc);
      m := if s.reqs[k].pc.Allocating? then GetId(k) else if s.reqs[k].pc.Checking? then LookAtEntry(k) else Park(k);
    case ByTask => m := if s.task.Filling? then TaskFill else if s.task.Notifying? then TaskNotify else TaskUnlock;
    case Free => m := TaskLock;
  }

  // With the lock free and the task receiving, the message of a waiting request can travel on.
  lemma MessageMoves(s: Channel, i: nat) returns (m: Move)
    requires Inv(s) && i < |s.reqs| && s.reqs[i].pc.Parked? && Open(s, i) && s.lock.Free? && s.task.Receiving?
    ensures Can(s, m) && !m.Begin?
  {
    var id := s.reqs[i].pc.id;
    OwnId(s, i);
    IdAt(s, id);
    assert WaiterOk(s, i);
    assert TaskIds(s.task) == [] && s.stage[id] != Stage.Received;
    match s.stage[id]
    case Queued => assert id in AskIds(s.outbox); m := Relay(true);
    case OnWire =>
      assert id in AskIds(s.toServer);
      m := if s.serving then Serve(Option.None, Option.None, Delivered) else Abandon;
    case Answered => assert id in AnswerIds(s.toClient); m := Receive;
    case _ => m := Wake(i);
  }

  lemma NeverStuck(s: Channel, i: nat) returns (m: Move)
    requires Inv(s) && i < |s.reqs| && Open(s, i)
    ensures Can(s, m) && !m.Begin?
  {
    if s.lock != Free || !s.task.Receiving? {
      m := HolderMoves(s);
    } else {
      assert !HoldsLock(s.reqs[i].pc);
      match s.reqs[i].pc
      case Wanting => m := LockForId(i);
      case Sending(_) => m := if s.tcp && s.outbox != [] then Relay(true) else SendRequest(i, true);
      case Sent(_) => m := LockToLook(i);
      case Parked(_, _) => m := MessageMoves(s, i);
    }
  }

  // ----- A measure every move decreases -----

  // What a requester has still to do, weighed so that one notification outweighs all waiters it releases.
  function ReqWeight(pc: ReqPc, generation: nat, k: nat): nat {
    match pc
    case Wanting => k + 32
    case Allocating => k + 31
    case Sending(_) => 10
    case Stranded(_) => 0
    case Sent(_) => 6
    case Checking(_) => 5
    case Parking(_, _) => 4
    case Parked(_, seen) => if seen < generation then 7 else 3
    case Done(_, _) => 0
    case Panicked => 0
  }

  function StageWeight(stage: Stage, k: nat): nat {
    match stage
    case Unsent => k + 20
    case Queued => k + 16
    case OnWire => k + 12
    case Answered => k + 8
    case Received => k
    case _ => 0
  }

  function TaskWeight(t: TaskPc, k: nat): nat {
    match t
    case Receiving => 0
    case Locking(_, _) => 3
    case Filling(_, _) => 2
    case Notifying => k + 1
    case Unlocking => 1
  }

  function ReqWeights(reqs: seq<Requester>, generation: nat, k: nat): seq<nat> {
    seq(|reqs|, i requires 0 <= i < |reqs| => ReqWeight(reqs[i].pc, generation, k))
  }

  function StageWeights(stages: seq<Stage>, k: nat): seq<nat> {
    seq(|stages|, i requires 0 <= i < |stages| => StageWeight(stages[i], k))
  }

  function Work(s: Channel): nat {
    var k := 4 * |s.reqs| + 1;
    Sum(ReqWeights(s.reqs, s.generation, k)) + Sum(StageWeights(s.stage, k)) + TaskWeight(s.task, k)
  }

  lemma ReqWorkMoves(reqs: seq<Requester>, generation: nat, k: nat, i: nat, pc: ReqPc)
    requires i < |reqs|
    ensures Sum(ReqWeights(reqs[i := reqs[i].(pc := pc)], generation, k))
      == Sum(ReqWeights(reqs, generation, k)) - ReqWeight(reqs[i].pc, generation, k) + ReqWeight(pc, generation, k)
  {
    var ws := ReqWeights(reqs, generation, k);
    SumUpdate(ws, i, ReqWeight(pc, generation, k));
    assert ReqWeights(reqs[i := reqs[i].(pc := pc)], generation, k) == ws[i := ReqWeight(pc, generation, k)];
  }

  lemma StageWorkMoves(stages: seq<Stage>, k: nat, id: nat, to: Stage)
    requires id < |stages|
    ensures Sum(StageWeights(stages[id := to], k))
      == Sum(StageWeights(stages, k)) - StageWeight(stages[id], k) + StageWeight(to, k)
  {
    SumUpdate(StageWeights(stages, k), id, StageWeight(to, k));
    assert StageWeights(stages[id := to], k) == StageWeights(stages, k)[id := StageWeight(to, k)];
  }

  lemma StageWorkGrows(stages: seq<Stage>, k: nat, st: Stage)
    ensures Sum(StageWeights(stages + [st], k)) == Sum(StageWeights(stages, k)) + StageWeight(st, k)
  {
    assert StageWeights(stages + [st], k)[..|stages|] == StageWeights(stages, k);
  }

  // A requester moves, and with it perhaps the message of `id`.
  lemma RequesterMoveWorks(s: Channel, s': Channel, i: nat, id: Option<nat>)
    requires i < |s.reqs| && |s'.reqs| == |s.reqs| && s'.reqs == s.reqs[i := s.reqs[i].(pc := s'.reqs[i].pc)]
    requires s'.generation == s.generation && s'.task == s.task
    requires id.None? ==> s'.stage == s.stage
    requires id.Some? ==> id.value < |s.stage| == |s'.stage| && s'.stage == s.stage[id.value := s'.stage[id.value]]
    requires var k := 4 * |s.reqs| + 1;
      ReqWeight(s'.reqs[i].pc, s.generation, k) + (if id.Some? then StageWeight(s'.stage[id.value], k) else 0)
      < ReqWeight(s.reqs[i].pc, s.generation, k) + (if id.Some? then StageWeight(s.stage[id.value], k) else 0)
    ensures Work(s') < Work(s)
  {
    var k := 4 * |s.reqs| + 1;
    ReqWorkMoves(s.reqs, s.generation, k, i, s'.reqs[i].pc);
    if id.Some? { StageWorkMoves(s.stage, k, id.value, s'.stage[id.value]); }
  }

  lemma RequesterWorks(s: Channel, m: Move, i: nat)
    requires Can(s, m) && (m == LockForId(i) || m == LockToLook(i) || m == Park(i) || m == Wake(i))
    requires i < |s.reqs| && WaiterOk(s, i)
    ensures Work(Do(s, m)) < Work(s)
  {
    RequesterMoveWorks(s, Do(s, m), i, Option.None);
  }

  lemma GetIdWorks(s: Channel, i: nat)
    requires Can(s, GetId(i))
    ensures Work(Do(s, GetId(i))) < Work(s)
  {
    var s' := Do(s, GetId(i));
    if Allocate(s.table).None? {
      RequesterMoveWorks(s, s', i, Option.None);
    } else {
      var k := 4 * |s.reqs| + 1;
      ReqWorkMoves(s.reqs, s.generation, k, i, Sending(s.table.next));
      StageWorkGrows(s.stage, k, Unsent);
    }
  }

  lemma SendWorks(s: Channel, i: nat, ok: bool)
    requires OwnersOk(s) && IdsOk(s) && Can(s, SendRequest(i, ok))
    ensures Work(Do(s, SendRequest(i, ok))) < Work(s)
  {
    var id := s.reqs[i].pc.id;
    OwnId(s, i);
    IdAt(s, id);
    RequesterMoveWorks(s, Do(s, SendRequest(i, ok)), i, Some(id));
  }

  lemma LookWorks(s: Channel, i: nat)
    requires Can(s, LookAtEntry(i))
    requires Collect(s.table, s.reqs[i].pc.id).Taken? ==> s.reqs[i].pc.id < |s.stage|
    ensures Work(Do(s, LookAtEntry(i))) < Work(s)
  {
    RequesterMoveWorks(s, Do(s, LookAtEntry(i)), i,
      if Collect(s.table, s.reqs[i].pc.id).Taken? then Some(s.reqs[i].pc.id) else Option.None);
  }

  // The message of `id` moves, and perhaps the task with it.
  lemma MessageWorks(s: Channel, s': Channel, id: nat)
    requires id < |s.stage| && |s'.stage| == |s.stage| && s'.stage == s.stage[id := s'.stage[id]]
    requires s'.reqs == s.reqs && s'.generation == s.generation
    requires var k := 4 * |s.reqs| + 1;
      StageWeight(s'.stage[id], k) + TaskWeight(s'.task, k) < StageWeight(s.stage[id], k) + TaskWeight(s.task, k)
    ensures Work(s') < Work(s)
  {
    StageWorkMoves(s.stage, 4 * |s.reqs| + 1, id, s'.stage[id]);
  }

  lemma MessageMoveWorks(s: Channel, m: Move)
    requires QueuesOk(s) && Can(s, m) && (m.Relay? || m.Serve? || m.Abandon? || m.Receive?)
    ensures Work(Do(s, m)) < Work(s)
  {
    match m
    case Relay(_) =>
      HeadStage(AskIds(s.outbox), s.stage, Queued);
      MessageWorks(s, Do(s, m), s.outbox[0].id);
    case Abandon =>
      HeadStage(AskIds(s.toServer), s.stage, OnWire);
      MessageWorks(s, Do(s, m), s.toServer[0].id);
    case Serve(_, _, _) =>
      HeadStage(AskIds(s.toServer), s.stage, OnWire);
      MessageWorks(s, Do(s, m), s.toServer[0].id);
    case Receive =>
      HeadStage(AnswerIds(s.toClient), s.stage, Answered);
      MessageWorks(s, Do(s, m), s.toClient[0].id);
  }

  lemma FillWorks(s: Channel)
    requires QueuesOk(s) && Can(s, TaskFill)
    ensures Work(Do(s, TaskFill)) < Work(s)
  {
    HeadStage(TaskIds(s.task), s.stage, Stage.Received);
    MessageWorks(s, Do(s, TaskFill), s.task.id);
  }

  lemma NotifyWorks(s: Channel)
    requires Can(s, TaskNotify)
    ensures Work(Do(s, TaskNotify)) < Work(s)
  {
    var k := 4 * |s.reqs| + 1;
    SumBound(ReqWeights(s.reqs, s.generation, k), ReqWeights(s.reqs, s.generation + 1, k), 4);
  }

  lemma EveryMoveWorks(s: Channel, m: Move)
    requires Inv(s) && Can(s, m) && !m.Begin?
    ensures Work(Do(s, m)) < Work(s)
  {
    match m
    case LockForId(i) => assert WaiterOk(s, i); RequesterWorks(s, m, i);
    case GetId(i) => GetIdWorks(s, i);
    case SendRequest(i, ok) => SendWorks(s, i, ok);
    case LockToLook(i) => assert WaiterOk(s, i); RequesterWorks(s, m, i);
    case LookAtEntry(i) => EntryFound(s, i); LookWorks(s, i);
    case Park(i) => assert WaiterOk(s, i); RequesterWorks(s, m, i);
    case Wake(i) => assert WaiterOk(s, i); RequesterWorks(s, m, i);
    case TaskFill => FillWorks(s);
    case TaskNotify => NotifyWorks(s);
    case TaskLock => LockWorks(s, m);
    case TaskUnlock => LockWorks(s, m);
    case _ => MessageMoveWorks(s, m);
  }

  lemma LockWorks(s: Channel, m: Move)
    requires Can(s, m) && (m.TaskLock? || m.TaskUnlock?)
    ensures Work(Do(s, m)) < Work(s)
  {}

  // ----- Every schedule returns every request -----

  ghost predicate Works(s: Channel, s': Channel) {
    exists m: Move :: Can(s, m) && !m.Begin? && s' == Do(s, m)
  }

  ghost predicate Continues(ss: seq<Channel>) {
    forall j | 0 <= j < |ss| - 1 :: Works(ss[j], ss[j + 1])
  }

  lemma WorksDown(s: Channel, s': Channel)
    requires Inv(s) && Works(s, s')
    ensures Inv(s') && Work(s') < Work(s)
  {
    var m: Move :| Can(s, m) && !m.Begin? && s' == Do(s, m);
    MoveKeeps(s, m);
    EveryMoveWorks(s, m);
  }

  lemma {:induction false} RunsDown(ss: seq<Channel>, k: nat)
    requires k < |ss| && Inv(ss[0]) && Continues(ss)
    ensures Inv(ss[k])
    ensures Work(ss[k]) + k <= Work(ss[0])
  {
    if k > 0 {
      RunsDown(ss, k - 1);
      assert Works(ss[k - 1], ss[k - 1 + 1]);
      WorksDown(ss[k - 1], ss[k]);
    }
  }

  /**
   However the moves are chosen, they stop; and then a request has returned, with its own answer, exactly
   when its message was not lost and it did not meet the full counter.
   */
  lemma EveryRequestReturns(run: seq<Channel>, k: nat, ss: seq<Channel>, i: nat)
    requires IsRun(run) && k < |run| && ss != [] && ss[0] == run[k] && Continues(ss) && i < |ss[|ss| - 1].reqs|
    requires forall m: Move | Can(ss[|ss| - 1], m) :: m.Begin?
    ensures |ss| <= Work(ss[0]) + 1
    ensures var last := ss[|ss| - 1];
      last.reqs[i].pc.Done? <==> !last.reqs[i].pc.Panicked? && !HasLost(last, i)
  {
    RunKeeps(run, k);
    RunsDown(ss, |ss| - 1);
    var last := ss[|ss| - 1];
    if Open(last, i) {
      var m := NeverStuck(last, i);
      assert false;
    }
    if IdOf(last.reqs[i].pc).Some? {
      OwnId(last, i);
      IdAt(last, IdOf(last.reqs[i].pc).value);
    }
  }
}
