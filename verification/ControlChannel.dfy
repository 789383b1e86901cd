/**
 The control channel between a puppet and its runner: concurrent requests share a socket, a table of
 pending responses behind a mutex, and a Notify; the server answers one request at a time.
 */
module ControlChannel {
  import opened Common

  type SshKey = int
  type NetworkSettings = int

  // Other: a request kind this server does not know.
  datatype PuppetReq = Ping | SSHKeys | NetworkConfig | Other

  datatype RunnerResp =
    | PingResp | SSHKeysResp(keys: seq<SshKey>) | NetworkConfigResp(config: NetworkSettings)
    | UnsupportedRequest | JobNotFound

  // handle_request; `keys` and `config` are what the runner returns for this socket's job, if it runs it.
  function HandleRequest(req: PuppetReq, keys: Option<seq<SshKey>>, config: Option<NetworkSettings>): RunnerResp {
    match req
    case Ping => PingResp
    case SSHKeys => SSHKeysResp(if keys.Some? then keys.value else [])
    case NetworkConfig => if config.Some? then NetworkConfigResp(config.value) else JobNotFound
    case Other => UnsupportedRequest
  }

  // ----- The table of pending responses -----

  datatype Table = Table(next: nat, pending: map<nat, Option<RunnerResp>>)

  // The counter overflow and the assertion that the id is new are panics.
  function Allocate(t: Table): Option<Table> {
    if t.next + 1 > U64_MAX || t.next in t.pending then None
    else Some(Table(t.next + 1, t.pending[t.next := Option.None]))
  }

  function Fill(t: Table, id: nat, resp: RunnerResp): Table {
    if id in t.pending then t.(pending := t.pending[id := Some(resp)]) else t
  }

  datatype Look = Missing | Empty | Taken(resp: RunnerResp, t: Table)

  function Collect(t: Table, id: nat): Look {
    if id !in t.pending then Missing
    else if t.pending[id].None? then Empty
    else Taken(t.pending[id].value, t.(pending := t.pending - {id}))
  }

  // The table as the clients hold it, under its mutex.
  class ResponseTable {
    var counter: nat
    var responses: map<nat, Option<RunnerResp>>
    var generation: nat

    ghost function Value(): Table
      reads this
    {
      Table(counter, responses)
    }

    constructor ()
      ensures Value() == Table(0, map[]) && generation == 0
    {
      counter, responses, generation := 0, map[], 0;
    }

    // `id` is None when the task panics; the counter is advanced before the assertion on the insert.
    method AcquireId() returns (id: Option<nat>)
      modifies `counter, `responses
      ensures match Allocate(old(Value()))
        case Some(t) => id == Some(old(counter)) && Value() == t
        case None =>
          var entered := if old(counter) < U64_MAX then {old(counter)} else {};
          id == Option.None && responses.Keys == old(responses.Keys) + entered
      ensures id.Some? ==> id.value == old(counter) && counter == id.value + 1
      ensures id.Some? ==> id.value !in old(responses) && responses == old(responses)[id.value := Option.None]
    {
      var request := counter;
      if counter + 1 > U64_MAX { return Option.None; }
      counter := counter + 1;
      var wasAbsent := request !in responses;
      responses := responses[request := Option.None];
      if !wasAbsent { return Option.None; }
      return Some(request);
    }

    // The receive task's critical section; `spurious` and `unexpected` are the two logged cases.
    method Deliver(id: nat, resp: RunnerResp) returns (spurious: bool, unexpected: bool)
      modifies `responses, `generation
      ensures Value() == Fill(old(Value()), id, resp)
      ensures unexpected == (id !in old(responses)) && spurious == (id in old(responses) && old(responses[id]).Some?)
      ensures responses == if unexpected then old(responses) else old(responses)[id := Some(resp)]
      ensures generation == if unexpected then old(generation) else old(generation) + 1
    {
      unexpected, spurious := id !in responses, false;
      if id in responses {
        spurious := responses[id].Some?;
        responses := responses[id := Some(resp)];
        generation := generation + 1;
      }
    }

    // One look at the entry under the lock: the response, or the generation to wait beyond.
    method TryTake(id: nat) returns (resp: Option<RunnerResp>, seen: nat)
      requires id in responses
      modifies `responses
      ensures match Collect(old(Value()), id)
        case Taken(r, t) => resp == Some(r) && Value() == t
        case Empty => resp == Option.None && Value() == old(Value()) && seen == generation
        case Missing => false
      ensures resp == old(responses)[id] && responses == if resp.Some? then old(responses) - {id} else old(responses)
    {
      seen := generation;
      resp := responses[id];
      if resp.Some? { responses := responses - {id}; }
    }
  }

  // ----- Requesters, receive task, wires and server -----

  datatype ReqPc =
    | Wanting                       // waits for the lock to get an id
    | Allocating                    // holds the lock
    | Sending(id: nat)
    | Stranded(id: nat)             // the send failed: the caller has panicked, its entry stays
    | Sent(id: nat)                 // waits for the lock to look
    | Checking(id: nat)             // holds the lock
    | Parking(id: nat, seen: nat)   // holds the lock, has created its notification
    | Parked(id: nat, seen: nat)
    | Done(id: nat, resp: RunnerResp)
    | Panicked

  datatype Requester = Requester(req: PuppetReq, pc: ReqPc)

  datatype TaskPc =
    | Receiving
    | Locking(id: nat, resp: RunnerResp)
    | Filling(id: nat, resp: RunnerResp)  // holds the lock
    | Notifying                           // holds the lock, the entry is filled
    | Unlocking                           // holds the lock

  datatype Holder = Free | ByTask | ByRequester(i: nat)

  datatype Ask = Ask(id: nat, req: PuppetReq)
  datatype Answer = Answer(id: nat, resp: RunnerResp)

  // Where the message of a request is: history, for the invariants only.
  datatype Stage = Unsent | Queued | OnWire | Answered | Received | Filled | Collected | Lost

  // How the server's answer goes out. After a broken pipe it leaves the connection.
  datatype Sending = Delivered | Dropped | BrokenPipe

  // `tcp`: requests go to the receive task's channel, of capacity one, before they reach the wire.
  // `serving`: the server reads from this connection.
  // History: `owner`, the requester an id was given to; `computed`, what the server answered; `stage`.
  datatype Channel = Channel(
    tcp: bool, serving: bool, table: Table, generation: nat, lock: Holder, reqs: seq<Requester>, task: TaskPc,
    outbox: seq<Ask>, toServer: seq<Ask>, toClient: seq<Answer>,
    owner: seq<nat>, computed: map<nat, RunnerResp>, stage: seq<Stage>)

  datatype Move =
    | Begin(req: PuppetReq)
    | LockForId(i: nat) | GetId(i: nat)
    | SendRequest(i: nat, ok: bool)
    | LockToLook(i: nat) | LookAtEntry(i: nat) | Park(i: nat) | Wake(i: nat)
    | Relay(ok: bool)
    | Serve(keys: Option<seq<SshKey>>, config: Option<NetworkSettings>, out: Sending) | Abandon
    | Receive | TaskLock | TaskFill | TaskNotify | TaskUnlock

  predicate Can(s: Channel, m: Move) {
    match m
    case Begin(_) => true
    case LockForId(i) => i < |s.reqs| && s.reqs[i].pc.Wanting? && s.lock.Free?
    case GetId(i) => i < |s.reqs| && s.reqs[i].pc.Allocating?
    case SendRequest(i, _) => i < |s.reqs| && s.reqs[i].pc.Sending? && (s.tcp ==> s.outbox == [])
    case LockToLook(i) => i < |s.reqs| && s.reqs[i].pc.Sent? && s.lock.Free?
    case LookAtEntry(i) => i < |s.reqs| && s.reqs[i].pc.Checking?
    case Park(i) => i < |s.reqs| && s.reqs[i].pc.Parking?
    // The notification was released: notify_waiters was called after it was created.
    case Wake(i) => i < |s.reqs| && s.reqs[i].pc.Parked? && s.generation > s.reqs[i].pc.seen
    case Relay(_) => s.task.Receiving? && s.outbox != []
    case Serve(_, _, _) => s.serving && s.toServer != []
    // A request that reaches a connection the server has left.
    case Abandon => !s.serving && s.toServer != []
    case Receive => s.task.Receiving? && s.toClient != []
    case TaskLock => s.task.Locking? && s.lock.Free?
    case TaskFill => s.task.Filling?
    case TaskNotify => s.task.Notifying?
    case TaskUnlock => s.task.Unlocking?
  }

  function Goto(s: Channel, i: nat, pc: ReqPc): Channel
    requires i < |s.reqs|
  {
    s.(reqs := s.reqs[i := s.reqs[i].(pc := pc)])
  }

  function Mark(s: Channel, id: nat, stage: Stage): Channel {
    if id < |s.stage| then s.(stage := s.stage[id := stage]) else s
  }

  function Do(s: Channel, m: Move): Channel
    requires Can(s, m)
  {
    match m
    case Begin(req) => s.(reqs := s.reqs + [Requester(req, Wanting)])
    case LockForId(i) => Goto(s, i, Allocating).(lock := ByRequester(i))
    case GetId(i) => (
      match Allocate(s.table)
      case None => Goto(s, i, Panicked).(lock := Free)
      case Some(t) => Goto(s, i, Sending(s.table.next)).(table := t, owner := s.owner + [i],
        stage := s.stage + [Unsent], lock := Free)
    )
    case SendRequest(i, ok) =>
      var id := s.reqs[i].pc.id;
      var ask := [Ask(id, s.reqs[i].req)];
      if !s.tcp && !ok then Mark(Goto(s, i, Stranded(id)), id, Lost)
      else if s.tcp then Mark(Goto(s, i, Sent(id)), id, Queued).(outbox := s.outbox + ask)
      else Mark(Goto(s, i, Sent(id)), id, OnWire).(toServer := s.toServer + ask)
    case LockToLook(i) => Goto(s, i, Checking(s.reqs[i].pc.id)).(lock := ByRequester(i))
    case LookAtEntry(i) => (
      match Collect(s.table, s.reqs[i].pc.id)
      case Missing => Goto(s, i, Panicked).(lock := Free)
      case Empty => Goto(s, i, Parking(s.reqs[i].pc.id, s.generation))
      case Taken(resp, t) =>
        Mark(Goto(s, i, ReqPc.Done(s.reqs[i].pc.id, resp)), s.reqs[i].pc.id, Collected).(table := t, lock := Free)
    )
    case Park(i) => Goto(s, i, Parked(s.reqs[i].pc.id, s.reqs[i].pc.seen)).(lock := Free)
    case Wake(i) => Goto(s, i, Sent(s.reqs[i].pc.id))
    case Relay(ok) =>
      // A failed transport send is only logged.
      if ok then Mark(s, s.outbox[0].id, OnWire).(toServer := s.toServer + [s.outbox[0]], outbox := s.outbox[1..])
      else Mark(s, s.outbox[0].id, Lost).(outbox := s.outbox[1..])
    case Serve(keys, config, out) =>
      var resp := HandleRequest(s.toServer[0].req, keys, config);
      Mark(s, s.toServer[0].id, if out.Delivered? then Answered else Lost).(
         toServer := s.toServer[1..],
         serving := !out.BrokenPipe?,
         toClient := if out.Delivered? then s.toClient + [Answer(s.toServer[0].id, resp)] else s.toClient,
         computed := s.computed[s.toServer[0].id := resp])
    case Abandon => Mark(s, s.toServer[0].id, Lost).(toServer := s.toServer[1..])
    case Receive =>
      Mark(s, s.toClient[0].id, Received).(task := Locking(s.toClient[0].id, s.toClient[0].resp),
        toClient := s.toClient[1..])
    case TaskLock => s.(task := Filling(s.task.id, s.task.resp), lock := ByTask)
    case TaskFill =>
      Mark(s, s.task.id, Filled).(
        table := Fill(s.table, s.task.id, s.task.resp),
        task := if s.task.id in s.table.pending then Notifying else Unlocking)
    case TaskNotify => s.(generation := s.generation + 1, task := Unlocking)
    case TaskUnlock => s.(task := Receiving, lock := Free)
  }

  function Fresh(tcp: bool): Channel {
    Channel(tcp, true, Table(0, map[]), 0, Free, [], Receiving, [], [], [], [], map[], [])
  }

  ghost predicate Moves(s: Channel, s': Channel) {
    exists m :: Can(s, m) && s' == Do(s, m)
  }

  ghost predicate IsRun(ss: seq<Channel>) {
    && ss != [] && ss[0] == Fresh(ss[0].tcp)
    && forall i | 0 <= i < |ss| - 1 :: Moves(ss[i], ss[i + 1])
  }
}
