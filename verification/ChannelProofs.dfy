/** What every interleaving of requesters, receive task and server keeps. */
module ChannelProofs {
  import opened Common
  import opened ControlChannel

  function IdOf(pc: ReqPc): Option<nat> {
    match pc
    case Wanting => Option.None
    case Allocating => Option.None
    case Panicked => Option.None
    case Done(id, _) => Some(id)
    case _ => Some(pc.id)
  }

  // The request is out and its response not yet collected.
  predicate Awaiting(pc: ReqPc) {
    IdOf(pc).Some? && !pc.Done? && !pc.Sending? && !pc.Stranded?
  }

  predicate HoldsLock(pc: ReqPc) {
    pc.Allocating? || pc.Checking? || pc.Parking?
  }

  ghost predicate LockOk(s: Channel) {
    && (forall i | 0 <= i < |s.reqs| :: HoldsLock(s.reqs[i].pc) <==> s.lock == ByRequester(i))
    && (s.task.Filling? || s.task.Notifying? || s.task.Unlocking? <==> s.lock == ByTask)
    && (s.lock.ByRequester? ==> s.lock.i < |s.reqs|)
  }

  // Ids are dense, given out once, and stay with the requester they were given to.
  ghost predicate OwnersOk(s: Channel) {
    && |s.owner| == |s.stage| == s.table.next <= U64_MAX
    && (forall id | 0 <= id < |s.owner| :: s.owner[id] < |s.reqs| && IdOf(s.reqs[s.owner[id]].pc) == Some(id))
    && (forall i | 0 <= i < |s.reqs| && IdOf(s.reqs[i].pc).Some? ::
      IdOf(s.reqs[i].pc).value < |s.owner| && s.owner[IdOf(s.reqs[i].pc).value] == i)
    && (forall i | 0 <= i < |s.reqs| && s.reqs[i].pc.Panicked? :: s.table.next == U64_MAX)
    && (forall id | id in s.table.pending :: id < |s.owner|)
    && (forall id | id in s.computed :: id < |s.owner|)
  }

  predicate Fits(req: PuppetReq, resp: RunnerResp) {
    match req
    case Ping => resp.PingResp?
    case SSHKeys => resp.SSHKeysResp?
    case NetworkConfig => resp.NetworkConfigResp? || resp.JobNotFound?
    case Other => resp.UnsupportedRequest?
  }

  // What the table, the server and the requester know of one id, by where its message is.
  predicate IdOk(stage: Stage, who: Requester, entry: Option<Option<RunnerResp>>, computed: Option<RunnerResp>) {
    && (computed.Some? ==> Fits(who.req, computed.value))
    && match stage
      case Unsent => who.pc.Sending? && entry == Some(Option.None) && computed.None?
      case Queued => Awaiting(who.pc) && entry == Some(Option.None) && computed.None?
      case OnWire => Awaiting(who.pc) && entry == Some(Option.None) && computed.None?
      case Answered => Awaiting(who.pc) && entry == Some(Option.None) && computed.Some?
      case Received => Awaiting(who.pc) && entry == Some(Option.None) && computed.Some?
      case Filled => Awaiting(who.pc) && entry == Some(computed) && computed.Some?
      case Collected => who.pc.Done? && entry.None? && computed == Some(who.pc.resp)
      case Lost => (Awaiting(who.pc) || who.pc.Stranded?) && entry == Some(Option.None)
  }

  function Get<V>(m: map<nat, V>, id: nat): Option<V> {
    if id in m then Some(m[id]) else Option.None
  }

  ghost predicate IdsOk(s: Channel)
    requires OwnersOk(s)
  {
    forall id: nat | id < |s.owner| ::
      IdOk(s.stage[id], s.reqs[s.owner[id]], Get(s.table.pending, id), Get(s.computed, id))
  }

  // ----- The queues hold exactly the ids at their stage -----

  function AskIds(s: seq<Ask>): seq<nat> {
    seq(|s|, k requires 0 <= k < |s| => s[k].id)
  }

  function AnswerIds(s: seq<Answer>): seq<nat> {
    seq(|s|, k requires 0 <= k < |s| => s[k].id)
  }

  lemma AskIdsOf(q: seq<Ask>, a: Ask)
    ensures AskIds(q + [a]) == AskIds(q) + [a.id]
    ensures q != [] ==> AskIds(q[1..]) == AskIds(q)[1..] && AskIds(q)[0] == q[0].id
  {}

  lemma AsksOkOf(s: Channel, q: seq<Ask>, a: Ask)
    requires OwnersOk(s) && AsksOk(s, q)
    ensures q != [] ==> AsksOk(s, q[1..]) && AsksOk(s, [q[0]])
    ensures AsksOk(s, [a]) ==> AsksOk(s, q + [a])
  {}

  function TaskIds(t: TaskPc): seq<nat> {
    if t.Locking? || t.Filling? then [t.id] else []
  }

  ghost predicate QueueOk(ids: seq<nat>, stage: seq<Stage>, st: Stage) {
    && Distinct(ids)
    && (forall k | 0 <= k < |ids| :: ids[k] < |stage| && stage[ids[k]] == st)
    && (forall id | 0 <= id < |stage| && stage[id] == st :: id in ids)
  }

  ghost predicate QueuesOk(s: Channel) {
    && QueueOk(AskIds(s.outbox), s.stage, Queued)
    && QueueOk(AskIds(s.toServer), s.stage, OnWire)
    && QueueOk(AnswerIds(s.toClient), s.stage, Answered)
    && QueueOk(TaskIds(s.task), s.stage, Received)
  }

  // The stage of the first message of a queue.
  lemma HeadStage(ids: seq<nat>, stage: seq<Stage>, st: Stage)
    requires QueueOk(ids, stage, st) && ids != []
    ensures ids[0] < |stage| && stage[ids[0]] == st
  {}

  lemma Leave(ids: seq<nat>, stage: seq<Stage>, st: Stage, to: Stage)
    requires QueueOk(ids, stage, st) && ids != [] && to != st
    ensures QueueOk(ids[1..], stage[ids[0] := to], st)
  {
    var id, rest := ids[0], ids[1..];
    assert ids == [id] + rest;
    forall x | 0 <= x < |stage| && stage[id := to][x] == st ensures x in rest {
      assert x in ids && x != id;
    }
    forall k | 0 <= k < |rest| ensures rest[k] != id { assert rest[k] == ids[k + 1]; }
  }

  lemma Enter(ids: seq<nat>, stage: seq<Stage>, st: Stage, id: nat)
    requires QueueOk(ids, stage, st) && id < |stage| && stage[id] != st
    ensures QueueOk(ids + [id], stage[id := st], st)
  {
    forall x | 0 <= x < |stage| && stage[id := st][x] == st ensures x in ids + [id] {
      if x != id { assert x in ids; }
    }
  }

  lemma Stay(ids: seq<nat>, stage: seq<Stage>, st: Stage, id: nat, to: Stage)
    requires QueueOk(ids, stage, st) && id < |stage| && stage[id] != st && to != st
    ensures QueueOk(ids, stage[id := to], st)
  {}

  lemma Grow(ids: seq<nat>, stage: seq<Stage>, st: Stage)
    requires QueueOk(ids, stage, st) && st != Unsent
    ensures QueueOk(ids, stage + [Unsent], st)
  {}

  // What the messages say.
  ghost predicate AsksOk(s: Channel, q: seq<Ask>)
    requires OwnersOk(s)
  {
    forall k | 0 <= k < |q| :: q[k].id < |s.owner| && q[k].req == s.reqs[s.owner[q[k].id]].req
  }

  ghost predicate AnswersOk(s: Channel, q: seq<Answer>) {
    forall k | 0 <= k < |q| :: Get(s.computed, q[k].id) == Some(q[k].resp)
  }

  function InHand(t: TaskPc): seq<Answer> {
    if t.Locking? || t.Filling? then [Answer(t.id, t.resp)] else []
  }

  ghost predicate ContentsOk(s: Channel)
    requires OwnersOk(s)
  {
    AsksOk(s, s.outbox) && AsksOk(s, s.toServer) && AnswersOk(s, s.toClient) && AnswersOk(s, InHand(s.task))
  }

  // A parked requester whose entry is filled has had its notification released, or is about to.
  ghost predicate WaiterOk(s: Channel, i: nat)
    requires i < |s.reqs|
  {
    var pc := s.reqs[i].pc;
    && (pc.Parking? ==> Get(s.table.pending, pc.id) == Some(Option.None) && pc.seen == s.generation)
    && (pc.Parked? ==>
      && pc.seen <= s.generation
      && (Get(s.table.pending, pc.id) == Some(Option.None) || s.generation > pc.seen || s.task.Notifying?))
  }

  ghost predicate WaitersOk(s: Channel) {
    forall i: nat | i < |s.reqs| :: WaiterOk(s, i)
  }

  ghost predicate Inv(s: Channel) {
    LockOk(s) && OwnersOk(s) && IdsOk(s) && QueuesOk(s) && ContentsOk(s) && WaitersOk(s)
  }

  // ----- A move that concerns one id -----

  // The message of `id` changes stage; only its owner may move.
  ghost predicate Touches(s: Channel, s': Channel, id: nat)
    requires OwnersOk(s)
  {
    && id < |s.owner| && s'.owner == s.owner && s'.table.next == s.table.next
    && |s'.reqs| == |s.reqs| && |s'.stage| == |s.stage| && s'.stage == s.stage[id := s'.stage[id]]
    && (forall i: nat | i < |s.reqs| && i != s.owner[id] :: s'.reqs[i] == s.reqs[i])
    && (forall x: nat | x != id :: Get(s'.table.pending, x) == Get(s.table.pending, x))
    && (forall x: nat | x != id :: Get(s'.computed, x) == Get(s.computed, x))
    && IdOf(s'.reqs[s.owner[id]].pc) == Some(id)
    && s'.reqs[s.owner[id]].req == s.reqs[s.owner[id]].req
  }

  lemma TouchKeepsOwners(s: Channel, s': Channel, id: nat)
    requires OwnersOk(s) && Touches(s, s', id)
    ensures OwnersOk(s')
  {
    assert IdOf(s.reqs[s.owner[id]].pc) == Some(id);
    forall x | x in s'.table.pending ensures x < |s.owner| { assert x == id || Get(s.table.pending, x).Some?; }
    forall x | x in s'.computed ensures x < |s.owner| { assert x == id || Get(s.computed, x).Some?; }
  }

  lemma TouchKeepsIds(s: Channel, s': Channel, id: nat)
    requires OwnersOk(s) && IdsOk(s) && Touches(s, s', id) && OwnersOk(s')
    requires IdOk(s'.stage[id], s'.reqs[s.owner[id]], Get(s'.table.pending, id), Get(s'.computed, id))
    ensures IdsOk(s')
  {
    forall x: nat | x < |s.owner| && x != id ensures s.owner[x] != s.owner[id] {
      assert IdOf(s.reqs[s.owner[x]].pc) == Some(x);
    }
  }

  lemma TouchKeepsAsks(s: Channel, s': Channel, id: nat, q: seq<Ask>)
    requires OwnersOk(s) && AsksOk(s, q) && Touches(s, s', id) && OwnersOk(s')
    ensures AsksOk(s', q)
  {}

  // `id` is not among the answers that are in flight.
  lemma TouchKeepsAnswers(s: Channel, s': Channel, id: nat, q: seq<Answer>)
    requires OwnersOk(s) && AnswersOk(s, q) && Touches(s, s', id)
    requires Get(s'.computed, id) == Get(s.computed, id) || Get(s.computed, id).None?
    ensures AnswersOk(s', q)
  {}

  lemma TouchKeeps(s: Channel, s': Channel, id: nat)
    requires OwnersOk(s) && IdsOk(s) && ContentsOk(s) && Touches(s, s', id)
    requires IdOk(s'.stage[id], s'.reqs[s.owner[id]], Get(s'.table.pending, id), Get(s'.computed, id))
    requires Get(s'.computed, id) == Get(s.computed, id) || Get(s.computed, id).None?
    ensures OwnersOk(s') && IdsOk(s')
    ensures AsksOk(s', s.outbox) && AsksOk(s', s.toServer) && AnswersOk(s', s.toClient) && AnswersOk(s', InHand(s.task))
  {
    TouchKeepsOwners(s, s', id);
    TouchKeepsIds(s, s', id);
    TouchKeepsAsks(s, s', id, s.outbox);
    TouchKeepsAsks(s, s', id, s.toServer);
    TouchKeepsAnswers(s, s', id, s.toClient);
    TouchKeepsAnswers(s, s', id, InHand(s.task));
  }

  lemma IdAt(s: Channel, id: nat)
    requires OwnersOk(s) && IdsOk(s) && id < |s.owner|
    ensures IdOf(s.reqs[s.owner[id]].pc) == Some(id)
    ensures IdOk(s.stage[id], s.reqs[s.owner[id]], Get(s.table.pending, id), Get(s.computed, id))
  {}

  lemma OwnId(s: Channel, i: nat)
    requires OwnersOk(s) && IdsOk(s) && i < |s.reqs| && IdOf(s.reqs[i].pc).Some?
    ensures IdOf(s.reqs[i].pc).value < |s.owner| && s.owner[IdOf(s.reqs[i].pc).value] == i
  {}

  // Requester i takes, keeps or gives back the lock.
  lemma LockMoves(s: Channel, s': Channel, i: nat)
    requires LockOk(s) && i < |s.reqs| && |s'.reqs| == |s.reqs| && s'.task == s.task
    requires forall k: nat | k < |s.reqs| && k != i :: s'.reqs[k] == s.reqs[k]
    requires HoldsLock(s.reqs[i].pc) || s.lock == Free || s'.lock == s.lock
    requires HoldsLock(s'.reqs[i].pc) <==> s'.lock == ByRequester(i)
    requires s'.lock == s.lock || s'.lock == ByRequester(i) || s'.lock == Free
    ensures LockOk(s')
  {}

  // Requester i is not waiting after the move, and no other entry changes.
  lemma WaitersKept(s: Channel, s': Channel, i: nat)
    requires WaitersOk(s) && OwnersOk(s) && i < |s.reqs| && |s'.reqs| == |s.reqs| && s'.task == s.task
    requires s'.generation == s.generation
    requires forall k: nat | k < |s.reqs| && k != i :: s'.reqs[k] == s.reqs[k]
    requires forall x: nat | x < |s.owner| && s.owner[x] != i :: Get(s'.table.pending, x) == Get(s.table.pending, x)
    requires WaiterOk(s', i)
    ensures WaitersOk(s')
  {
    forall k: nat | k < |s.reqs| && k != i ensures WaiterOk(s', k) {
      assert WaiterOk(s, k);
      if IdOf(s.reqs[k].pc).Some? { assert s.owner[IdOf(s.reqs[k].pc).value] == k; }
    }
  }

  // Requesters, table and notifications stay.
  lemma WaitersSame(s: Channel, s': Channel)
    requires WaitersOk(s) && s'.reqs == s.reqs && s'.generation == s.generation && s'.table == s.table
    requires s'.task.Notifying? <==> s.task.Notifying?
    ensures WaitersOk(s')
  {
    forall k: nat | k < |s.reqs| ensures WaiterOk(s', k) { assert WaiterOk(s, k); }
  }

  lemma LockSame(s: Channel, s': Channel)
    requires LockOk(s) && s'.reqs == s.reqs && s'.lock == s.lock
    requires s'.task.Filling? || s'.task.Notifying? || s'.task.Unlocking? <==>
      s.task.Filling? || s.task.Notifying? || s.task.Unlocking?
    ensures LockOk(s')
  {}

  // A requester moves without touching table or queues.
  lemma GotoKeeps(s: Channel, i: nat, pc: ReqPc, lock: Holder)
    requires Inv(s) && i < |s.reqs| && IdOf(pc) == IdOf(s.reqs[i].pc)
    requires (Awaiting(pc) <==> Awaiting(s.reqs[i].pc)) && !pc.Done? && !s.reqs[i].pc.Done? && !pc.Panicked?
    requires !pc.Stranded?
    requires (pc.Sending? <==> s.reqs[i].pc.Sending?)
    requires HoldsLock(s.reqs[i].pc) || s.lock == Free || s.lock == lock
    requires HoldsLock(pc) <==> lock == ByRequester(i)
    requires lock == s.lock || lock == ByRequester(i) || lock == Free
    requires pc.Parking? ==> Get(s.table.pending, pc.id) == Some(Option.None) && pc.seen == s.generation
    requires pc.Parked? ==> Get(s.table.pending, pc.id) == Some(Option.None) && pc.seen <= s.generation
    ensures Inv(Goto(s, i, pc).(lock := lock))
  {
    var s' := Goto(s, i, pc).(lock := lock);
    LockMoves(s, s', i);
    if IdOf(pc).Some? {
      OwnId(s, i);
      IdAt(s, pc.id);
      TouchKeeps(s, s', pc.id);
    } else {
      BareKeeps(s, s', i);
    }
    WaitersKept(s, s', i);
  }

  lemma BareKeeps(s: Channel, s': Channel, i: nat)
    requires OwnersOk(s) && IdsOk(s) && ContentsOk(s) && i < |s.reqs| && IdOf(s.reqs[i].pc).None?
    requires exists pc ::
      IdOf(pc).None? && (pc.Panicked? ==> s.table.next == U64_MAX) && s'.reqs == s.reqs[i := s.reqs[i].(pc := pc)]
    requires s' == s.(lock := s'.lock, reqs := s'.reqs)
    ensures OwnersOk(s') && IdsOk(s') && ContentsOk(s')
  {
    assert OwnersOk(s');
    forall x: nat | x < |s.owner| ensures s.owner[x] != i {}
  }

  lemma BeginKeeps(s: Channel, req: PuppetReq)
    requires Inv(s)
    ensures Inv(Do(s, Begin(req)))
  {
    var s' := Do(s, Begin(req));
    assert LockOk(s');
    assert OwnersOk(s');
    assert IdsOk(s');
    forall k: nat | k < |s.reqs| ensures WaiterOk(s', k) { assert WaiterOk(s, k); }
  }

  // Neither the assertion on the insert nor a missing entry ever panics: only the counter does.
  lemma AllocatesUnlessFull(s: Channel)
    requires Inv(s)
    ensures Allocate(s.table).None? <==> s.table.next == U64_MAX
  {
    if s.table.next in s.table.pending { assert false; }
  }

  lemma GetIdKeeps(s: Channel, i: nat)
    requires Inv(s) && Can(s, GetId(i))
    ensures Inv(Do(s, GetId(i)))
  {
    AllocatesUnlessFull(s);
    var s' := Do(s, GetId(i));
    assert HoldsLock(s.reqs[i].pc);
    LockMoves(s, s', i);
    if Allocate(s.table).None? {
      assert s'.reqs == s.reqs[i := s.reqs[i].(pc := Panicked)] && IdOf(Panicked).None?;
      BareKeeps(s, s', i);
      WaitersKept(s, s', i);
    } else {
      NewIdKeeps(s, s', i);
      WaitersKept(s, s', i);
    }
  }

  lemma NewIdKeeps(s: Channel, s': Channel, i: nat)
    requires OwnersOk(s) && IdsOk(s) && ContentsOk(s) && QueuesOk(s) && i < |s.reqs| && IdOf(s.reqs[i].pc).None?
    requires s.table.next < U64_MAX
    requires s'.reqs == s.reqs[i := s.reqs[i].(pc := Sending(s.table.next))]
    requires s'.table == Table(s.table.next + 1, s.table.pending[s.table.next := Option.None])
    requires s' == s.(reqs := s'.reqs, table := s'.table, owner := s.owner + [i], stage := s.stage + [Unsent],
      lock := s'.lock)
    ensures OwnersOk(s') && IdsOk(s') && ContentsOk(s') && QueuesOk(s')
  {
    NewIdKeepsOwners(s, s', i);
    NewIdKeepsIds(s, s', i);
    NewIdKeepsContents(s, s', i);
    Grow(AskIds(s.outbox), s.stage, Queued);
    Grow(AskIds(s.toServer), s.stage, OnWire);
    Grow(AnswerIds(s.toClient), s.stage, Answered);
    Grow(TaskIds(s.task), s.stage, Stage.Received);
  }

  lemma NewIdKeepsOwners(s: Channel, s': Channel, i: nat)
    requires OwnersOk(s) && i < |s.reqs| && IdOf(s.reqs[i].pc).None? && s.table.next < U64_MAX
    requires s'.reqs == s.reqs[i := s.reqs[i].(pc := Sending(s.table.next))]
    requires s'.table == Table(s.table.next + 1, s.table.pending[s.table.next := Option.None])
    requires s'.computed == s.computed
    requires s'.owner == s.owner + [i] && s'.stage == s.stage + [Unsent]
    ensures OwnersOk(s')
  {
    forall x: nat | x < |s.owner| ensures s.owner[x] != i {}
  }

  lemma NewIdKeepsContents(s: Channel, s': Channel, i: nat)
    requires OwnersOk(s) && ContentsOk(s) && OwnersOk(s') && i < |s.reqs|
    requires s'.reqs == s.reqs[i := s.reqs[i].(pc := Sending(s.table.next))] && s'.owner == s.owner + [i]
    requires s'.outbox == s.outbox && s'.toServer == s.toServer && s'.toClient == s.toClient
    requires s'.task == s.task && s'.computed == s.computed
    ensures ContentsOk(s')
  {}

  lemma NewIdKeepsIds(s: Channel, s': Channel, i: nat)
    requires OwnersOk(s) && IdsOk(s) && OwnersOk(s') && i < |s.reqs| && IdOf(s.reqs[i].pc).None?
    requires s'.reqs == s.reqs[i := s.reqs[i].(pc := Sending(s.table.next))]
    requires s'.table.pending == s.table.pending[s.table.next := Option.None] && s'.computed == s.computed
    requires s'.owner == s.owner + [i] && s'.stage == s.stage + [Unsent]
    ensures IdsOk(s')
  {
    forall x: nat | x < |s.owner| ensures s.owner[x] != i {}
  }

  // All queues at once, when the message of `id` moves from its stage to `to`.
  lemma QueuesMove(s: Channel, s': Channel, id: nat, to: Stage)
    requires QueuesOk(s) && id < |s.stage| && s'.stage == s.stage[id := to] && s.stage[id] != to
    requires s.stage[id] == Queued ==> s.outbox != [] && s.outbox[0].id == id
    requires s.stage[id] == OnWire ==> s.toServer != [] && s.toServer[0].id == id
    requires s.stage[id] == Answered ==> s.toClient != [] && s.toClient[0].id == id
    requires s.stage[id] == Stage.Received ==> TaskIds(s.task) == [id]
    requires AskIds(s'.outbox) == Moved(AskIds(s.outbox), s.stage[id], to, Queued, id)
    requires AskIds(s'.toServer) == Moved(AskIds(s.toServer), s.stage[id], to, OnWire, id)
    requires AnswerIds(s'.toClient) == Moved(AnswerIds(s.toClient), s.stage[id], to, Answered, id)
    requires TaskIds(s'.task) == Moved(TaskIds(s.task), s.stage[id], to, Stage.Received, id)
    ensures QueuesOk(s')
  {
    OneQueue(AskIds(s.outbox), s.stage, Queued, id, to);
    OneQueue(AskIds(s.toServer), s.stage, OnWire, id, to);
    OneQueue(AnswerIds(s.toClient), s.stage, Answered, id, to);
    OneQueue(TaskIds(s.task), s.stage, Stage.Received, id, to);
  }

  function Moved(ids: seq<nat>, from: Stage, to: Stage, st: Stage, id: nat): seq<nat> {
    if from == st && ids != [] then ids[1..] else if to == st then ids + [id] else ids
  }

  lemma OneQueue(ids: seq<nat>, stage: seq<Stage>, st: Stage, id: nat, to: Stage)
    requires QueueOk(ids, stage, st) && id < |stage| && stage[id] != to
    requires stage[id] == st ==> ids != [] && ids[0] == id
    ensures QueueOk(Moved(ids, stage[id], to, st, id), stage[id := to], st)
  {
    if stage[id] == st { Leave(ids, stage, st, to); }
    else if to == st { Enter(ids, stage, st, id); }
    else { Stay(ids, stage, st, id, to); }
  }

  lemma SendRequestKeeps(s: Channel, i: nat, ok: bool)
    requires Inv(s) && Can(s, SendRequest(i, ok))
    ensures Inv(Do(s, SendRequest(i, ok)))
  {
    OwnId(s, i);
    if !s.tcp && !ok {
      SendMoves(s, Do(s, SendRequest(i, ok)), i, Stranded(s.reqs[i].pc.id), Lost);
    } else if s.tcp {
      SendMoves(s, Do(s, SendRequest(i, ok)), i, Sent(s.reqs[i].pc.id), Queued);
    } else {
      SendMoves(s, Do(s, SendRequest(i, ok)), i, Sent(s.reqs[i].pc.id), OnWire);
    }
  }

  lemma SendMoves(s: Channel, s': Channel, i: nat, pc: ReqPc, to: Stage)
    requires Inv(s) && i < |s.reqs| && s.reqs[i].pc.Sending?
    requires (to.Lost? && pc == Stranded(s.reqs[i].pc.id))
      || ((to.Queued? || to.OnWire?) && pc == Sent(s.reqs[i].pc.id))
    requires s.reqs[i].pc.id < |s.stage|
    requires var ask := [Ask(s.reqs[i].pc.id, s.reqs[i].req)];
      s' == s.(
        reqs := s.reqs[i := Requester(s.reqs[i].req, pc)], stage := s.stage[s.reqs[i].pc.id := to],
        outbox := s.outbox + (if to.Queued? then ask else []),
        toServer := s.toServer + (if to.OnWire? then ask else []))
    ensures Inv(s')
  {
    var id, a := s.reqs[i].pc.id, Ask(s.reqs[i].pc.id, s.reqs[i].req);
    OwnId(s, i);
    IdAt(s, id);
    SendWaits(s, s', i, pc);
    SendIds(s, s', i, pc, to);
    SendQueues(s, s', a, to);
  }

  lemma SendWaits(s: Channel, s': Channel, i: nat, pc: ReqPc)
    requires LockOk(s) && OwnersOk(s) && WaitersOk(s) && i < |s.reqs| && s.reqs[i].pc.Sending?
    requires (pc.Stranded? || pc.Sent?)
    requires s'.reqs == s.reqs[i := Requester(s.reqs[i].req, pc)]
    requires s'.task == s.task && s'.lock == s.lock && s'.generation == s.generation && s'.table == s.table
    ensures LockOk(s') && WaitersOk(s')
  {
    LockMoves(s, s', i);
    WaitersKept(s, s', i);
  }

  lemma SendIds(s: Channel, s': Channel, i: nat, pc: ReqPc, to: Stage)
    requires OwnersOk(s) && IdsOk(s) && ContentsOk(s) && i < |s.reqs| && s.reqs[i].pc.Sending?
    requires (to.Lost? && pc == Stranded(s.reqs[i].pc.id))
      || ((to.Queued? || to.OnWire?) && pc == Sent(s.reqs[i].pc.id))
    requires s.reqs[i].pc.id < |s.stage| && s.stage[s.reqs[i].pc.id].Unsent?
    requires var ask := [Ask(s.reqs[i].pc.id, s.reqs[i].req)];
      s' == s.(
        reqs := s.reqs[i := Requester(s.reqs[i].req, pc)], stage := s.stage[s.reqs[i].pc.id := to],
        outbox := s.outbox + (if to.Queued? then ask else []),
        toServer := s.toServer + (if to.OnWire? then ask else []))
    ensures OwnersOk(s') && IdsOk(s') && ContentsOk(s')
  {
    var id, a := s.reqs[i].pc.id, Ask(s.reqs[i].pc.id, s.reqs[i].req);
    OwnId(s, i);
    IdAt(s, id);
    TouchKeeps(s, s', id);
    AsksOkOf(s', s.outbox, a);
    AsksOkOf(s', s.toServer, a);
  }

  lemma SendQueues(s: Channel, s': Channel, a: Ask, to: Stage)
    requires QueuesOk(s) && a.id < |s.stage| && s.stage[a.id] == Unsent && (to.Lost? || to.Queued? || to.OnWire?)
    requires s'.stage == s.stage[a.id := to] && s'.toClient == s.toClient && s'.task == s.task
    requires s'.outbox == s.outbox + (if to.Queued? then [a] else [])
    requires s'.toServer == s.toServer + (if to.OnWire? then [a] else [])
    ensures QueuesOk(s')
  {
    AskIdsOf(s.outbox, a);
    AskIdsOf(s.toServer, a);
    QueuesMove(s, s', a.id, to);
  }

  // A requester that looks finds its entry, empty or filled with what the server computed for it.
  lemma EntryFound(s: Channel, i: nat)
    requires Inv(s) && i < |s.reqs| && Awaiting(s.reqs[i].pc)
    ensures match Collect(s.table, s.reqs[i].pc.id)
      case Missing => false
      case Empty => s.reqs[i].pc.id < |s.stage| && s.stage[s.reqs[i].pc.id] != Stage.Filled
      case Taken(resp, _) =>
        s.reqs[i].pc.id < |s.stage| && s.stage[s.reqs[i].pc.id] == Stage.Filled
          && Get(s.computed, s.reqs[i].pc.id) == Some(resp)
  {
    OwnId(s, i);
    IdAt(s, s.reqs[i].pc.id);
  }

  lemma LookKeeps(s: Channel, i: nat)
    requires Inv(s) && Can(s, LookAtEntry(i))
    ensures Inv(Do(s, LookAtEntry(i)))
  {
    EntryFound(s, i);
    var id := s.reqs[i].pc.id;
    match Collect(s.table, id)
    case Empty => GotoKeeps(s, i, Parking(id, s.generation), ByRequester(i));
    case Taken(resp, t) => CollectKeeps(s, i, resp, t);
  }

  lemma CollectKeeps(s: Channel, i: nat, resp: RunnerResp, t: Table)
    requires Inv(s) && Can(s, LookAtEntry(i)) && Collect(s.table, s.reqs[i].pc.id) == Taken(resp, t)
    ensures Inv(Do(s, LookAtEntry(i)))
  {
    var s', id := Do(s, LookAtEntry(i)), s.reqs[i].pc.id;
    OwnId(s, i);
    IdAt(s, id);
    LockMoves(s, s', i);
    TouchKeeps(s, s', id);
    QueuesMove(s, s', id, Collected);
    WaitersKept(s, s', i);
  }

  lemma RelayKeeps(s: Channel, ok: bool)
    requires Inv(s) && Can(s, Relay(ok))
    ensures Inv(Do(s, Relay(ok)))
  {
    HeadStage(AskIds(s.outbox), s.stage, Queued);
    RelayMoves(s, Do(s, Relay(ok)), if ok then OnWire else Lost);
  }

  lemma RelayMoves(s: Channel, s': Channel, to: Stage)
    requires Inv(s) && s.outbox != [] && s.outbox[0].id < |s.stage| && s.stage[s.outbox[0].id] == Queued
    requires to.OnWire? || to.Lost?
    requires s' == s.(
      stage := s.stage[s.outbox[0].id := to], outbox := s.outbox[1..],
      toServer := if to.OnWire? then s.toServer + [s.outbox[0]] else s.toServer)
    ensures Inv(s')
  {
    var a, id := s.outbox[0], s.outbox[0].id;
    LockSame(s, s');
    IdAt(s, id);
    TouchKeeps(s, s', id);
    AsksOkOf(s', s.outbox, a);
    AsksOkOf(s', s.toServer, a);
    WaitersSame(s, s');
    RelayQueues(s, s', a, to);
  }

  lemma RelayQueues(s: Channel, s': Channel, a: Ask, to: Stage)
    requires QueuesOk(s) && s.outbox != [] && a == s.outbox[0] && a.id < |s.stage| && s.stage[a.id] == Queued
    requires to.OnWire? || to.Lost?
    requires s'.stage == s.stage[a.id := to] && s'.toClient == s.toClient && s'.task == s.task
    requires s'.outbox == s.outbox[1..] && s'.toServer == if to.OnWire? then s.toServer + [a] else s.toServer
    ensures QueuesOk(s')
  {
    AskIdsOf(s.outbox, a);
    AskIdsOf(s.toServer, a);
    QueuesMove(s, s', a.id, to);
  }

  lemma ServeKeeps(s: Channel, keys: Option<seq<SshKey>>, config: Option<NetworkSettings>, out: Sending)
    requires Inv(s) && Can(s, Serve(keys, config, out))
    ensures Inv(Do(s, Serve(keys, config, out)))
  {
    var resp, s' := HandleRequest(s.toServer[0].req, keys, config), Do(s, Serve(keys, config, out));
    HeadStage(AskIds(s.toServer), s.stage, OnWire);
    IdAt(s, s.toServer[0].id);
    if out.Delivered? {
      ServeMoves(s, s', s.computed[s.toServer[0].id := resp], Answered, [Answer(s.toServer[0].id, resp)]);
    } else {
      ServeMoves(s, s', s.computed[s.toServer[0].id := resp], Lost, []);
    }
  }

  lemma AbandonKeeps(s: Channel)
    requires Inv(s) && Can(s, Abandon)
    ensures Inv(Do(s, Abandon))
  {
    HeadStage(AskIds(s.toServer), s.stage, OnWire);
    IdAt(s, s.toServer[0].id);
    ServeMoves(s, Do(s, Abandon), s.computed, Lost, []);
  }

  // The server takes the first request off the wire, and `answer` goes out.
  lemma ServeMoves(s: Channel, s': Channel, computed: map<nat, RunnerResp>, to: Stage, answer: seq<Answer>)
    requires Inv(s) && s.toServer != [] && s.toServer[0].id < |s.stage| && s.stage[s.toServer[0].id] == OnWire
    requires forall x: nat | x != s.toServer[0].id :: Get(computed, x) == Get(s.computed, x)
    requires var got := Get(computed, s.toServer[0].id);
      && (got.Some? ==> Fits(s.toServer[0].req, got.value))
      && ((to.Lost? && answer == []) || (to.Answered? && got.Some? && answer == [Answer(s.toServer[0].id, got.value)]))
    requires s' == s.(
      stage := s.stage[s.toServer[0].id := to], serving := s'.serving, toServer := s.toServer[1..],
      toClient := s.toClient + answer, computed := computed)
    ensures Inv(s')
  {
    var a, id := s.toServer[0], s.toServer[0].id;
    LockSame(s, s');
    IdAt(s, id);
    TouchKeeps(s, s', id);
    AsksOkOf(s', s.toServer, a);
    if answer != [] { AnswersOkOf(s', s.toClient, answer[0]); }
    ServeQueues(s, s', a, to, answer);
    WaitersSame(s, s');
  }

  lemma ServeQueues(s: Channel, s': Channel, a: Ask, to: Stage, answer: seq<Answer>)
    requires QueuesOk(s) && s.toServer != [] && a == s.toServer[0] && a.id < |s.stage| && s.stage[a.id] == OnWire
    requires (to.Lost? && answer == []) || (to.Answered? && |answer| == 1 && answer[0].id == a.id)
    requires s'.stage == s.stage[a.id := to] && s'.outbox == s.outbox && s'.task == s.task
    requires s'.toServer == s.toServer[1..] && s'.toClient == s.toClient + answer
    ensures QueuesOk(s')
  {
    AskIdsOf(s.toServer, a);
    assert AnswerIds(s.toClient + answer) == AnswerIds(s.toClient) + (if to.Answered? then [a.id] else []);
    QueuesMove(s, s', a.id, to);
  }

  lemma AnswersOkOf(s: Channel, q: seq<Answer>, a: Answer)
    requires AnswersOk(s, q)
    ensures Get(s.computed, a.id) == Some(a.resp) ==> AnswersOk(s, q + [a])
    ensures AnswerIds(q + [a]) == AnswerIds(q) + [a.id]
  {}

  lemma ReceiveKeeps(s: Channel)
    requires Inv(s) && Can(s, Receive)
    ensures Inv(Do(s, Receive))
  {
    HeadStage(AnswerIds(s.toClient), s.stage, Answered);
    ReceiveMoves(s, Do(s, Receive), s.toClient[0]);
  }

  lemma ReceiveMoves(s: Channel, s': Channel, a: Answer)
    requires Inv(s) && s.task.Receiving? && s.toClient != [] && a == s.toClient[0]
    requires a.id < |s.stage| && s.stage[a.id] == Answered
    requires s' == s.(
      stage := s.stage[a.id := Stage.Received], task := Locking(a.id, a.resp), toClient := s.toClient[1..])
    ensures Inv(s')
  {
    LockSame(s, s');
    IdAt(s, a.id);
    TouchKeeps(s, s', a.id);
    ReceiveQueues(s, s', a);
    WaitersSame(s, s');
  }

  lemma ReceiveQueues(s: Channel, s': Channel, a: Answer)
    requires QueuesOk(s) && s.task.Receiving? && s.toClient != [] && a == s.toClient[0]
    requires a.id < |s.stage| && s.stage[a.id] == Answered
    requires s'.stage == s.stage[a.id := Stage.Received] && s'.task == Locking(a.id, a.resp)
    requires s'.toClient == s.toClient[1..] && s'.outbox == s.outbox && s'.toServer == s.toServer
    ensures QueuesOk(s')
  {
    QueuesMove(s, s', a.id, Stage.Received);
  }

  // The response the task received is expected, and its entry is still empty.
  lemma ResponseIsExpected(s: Channel)
    requires Inv(s) && TaskIds(s.task) != []
    ensures Get(s.table.pending, s.task.id) == Some(Option.None)
    ensures s.task.id < |s.stage| && s.stage[s.task.id] == Stage.Received
    ensures Get(s.computed, s.task.id) == Some(s.task.resp)
  {
    assert InHand(s.task)[0] == Answer(s.task.id, s.task.resp);
    assert s.stage[TaskIds(s.task)[0]] == Stage.Received;
    IdAt(s, s.task.id);
  }

  lemma TaskFillKeeps(s: Channel)
    requires Inv(s) && Can(s, TaskFill)
    ensures Inv(Do(s, TaskFill))
  {
    ResponseIsExpected(s);
    FillMoves(s, Do(s, TaskFill), s.task.id, s.task.resp);
  }

  lemma FillMoves(s: Channel, s': Channel, id: nat, resp: RunnerResp)
    requires Inv(s) && s.task == Filling(id, resp) && id < |s.stage| && s.stage[id] == Stage.Received
    requires Get(s.computed, id) == Some(resp)
    requires s' == s.(
      stage := s.stage[id := Stage.Filled], task := Notifying,
      table := s.table.(pending := s.table.pending[id := Some(resp)]))
    ensures Inv(s')
  {
    LockSame(s, s');
    IdAt(s, id);
    TouchKeeps(s, s', id);
    QueuesMove(s, s', id, Stage.Filled);
    FillWaiters(s, s', id, resp);
  }

  lemma FillWaiters(s: Channel, s': Channel, id: nat, resp: RunnerResp)
    requires WaitersOk(s) && s'.reqs == s.reqs && s'.generation == s.generation && s'.task.Notifying?
    requires s'.table.pending == s.table.pending[id := Some(resp)]
    requires s.lock == ByTask && LockOk(s)
    ensures WaitersOk(s')
  {
    forall k: nat | k < |s.reqs| ensures WaiterOk(s', k) { assert WaiterOk(s, k); }
  }

  // What a move leaves that touches only lock, task and notifications.
  lemma IdsSame(s: Channel, s': Channel)
    requires OwnersOk(s) && IdsOk(s) && QueuesOk(s) && ContentsOk(s)
    requires s' == s.(lock := s'.lock, task := s'.task, generation := s'.generation)
    requires TaskIds(s'.task) == TaskIds(s.task) && InHand(s'.task) == InHand(s.task)
    ensures OwnersOk(s') && IdsOk(s') && QueuesOk(s') && ContentsOk(s')
  {}

  lemma TaskKeeps(s: Channel, m: Move)
    requires Inv(s) && Can(s, m) && (m.TaskLock? || m.TaskNotify? || m.TaskUnlock?)
    ensures Inv(Do(s, m))
  {
    var s' := Do(s, m);
    IdsSame(s, s');
    forall k: nat | k < |s.reqs| ensures WaiterOk(s', k) { assert WaiterOk(s, k); }
  }

  lemma WakeKeeps(s: Channel, i: nat)
    requires Inv(s) && Can(s, Wake(i))
    ensures Inv(Do(s, Wake(i)))
  {
    assert !HoldsLock(s.reqs[i].pc);
    GotoKeeps(s, i, Sent(s.reqs[i].pc.id), s.lock);
  }

  lemma MoveKeeps(s: Channel, m: Move)
    requires Inv(s) && Can(s, m)
    ensures Inv(Do(s, m))
  {
    match m
    case Begin(req) => BeginKeeps(s, req);
    case LockForId(i) => GotoKeeps(s, i, Allocating, ByRequester(i));
    case GetId(i) => GetIdKeeps(s, i);
    case SendRequest(i, ok) => SendRequestKeeps(s, i, ok);
    case LockToLook(i) => GotoKeeps(s, i, Checking(s.reqs[i].pc.id), ByRequester(i));
    case LookAtEntry(i) => LookKeeps(s, i);
    case Park(i) => ParkKeeps(s, i);
    case Wake(i) => WakeKeeps(s, i);
    case Relay(ok) => RelayKeeps(s, ok);
    case Serve(keys, config, out) => ServeKeeps(s, keys, config, out);
    case Abandon => AbandonKeeps(s);
    case Receive => ReceiveKeeps(s);
    case TaskFill => TaskFillKeeps(s);
    case _ => TaskKeeps(s, m);
  }

  lemma ParkKeeps(s: Channel, i: nat)
    requires Inv(s) && Can(s, Park(i))
    ensures Inv(Do(s, Park(i)))
  {
    assert WaiterOk(s, i);
    GotoKeeps(s, i, Parked(s.reqs[i].pc.id, s.reqs[i].pc.seen), Free);
  }

  lemma {:induction false} RunKeeps(ss: seq<Channel>, k: nat)
    requires IsRun(ss) && k < |ss|
    ensures Inv(ss[k])
  {
    if k > 0 {
      RunKeeps(ss, k - 1);
      assert Moves(ss[k - 1], ss[k - 1 + 1]);
      var m :| Can(ss[k - 1], m) && ss[k] == Do(ss[k - 1], m);
      MoveKeeps(ss[k - 1], m);
    }
  }
}
