/** What a caller of `request` may rely on, over every run of the control channel. */
module ChannelTheorems {
  import opened Common
  import opened ControlChannel
  import opened ChannelProofs

  // ----- Correlation -----

  // A run with the moves it takes.
  ghost predicate Takes(ss: seq<Channel>, ms: seq<Move>) {
    && |ss| == |ms| + 1 && ss[0] == Fresh(ss[0].tcp)
    && forall k | 0 <= k < |ms| :: Can(ss[k], ms[k]) && ss[k + 1] == Do(ss[k], ms[k])
  }

  lemma TakesRun(ss: seq<Channel>, ms: seq<Move>)
    requires Takes(ss, ms)
    ensures IsRun(ss)
  {
    forall k | 0 <= k < |ss| - 1 ensures Moves(ss[k], ss[k + 1]) {
      assert Can(ss[k], ms[k]) && ss[k + 1] == Do(ss[k], ms[k]);
    }
  }

  // What a request is owed, given what the runner has for the job at that moment: its keys, none of them
  // when the job is not there; its network settings, or the word that the job is not there.
  predicate Answers(req: PuppetReq, keys: Option<seq<SshKey>>, config: Option<NetworkSettings>, resp: RunnerResp) {
    && (req.Ping? ==> resp == PingResp)
    && (req.SSHKeys? && keys.Some? ==> resp == SSHKeysResp(keys.value))
    && (req.SSHKeys? && keys.None? ==> resp == SSHKeysResp([]))
    && (req.NetworkConfig? && config.Some? ==> resp == NetworkConfigResp(config.value))
    && (req.NetworkConfig? && config.None? ==> resp == JobNotFound)
    && (req.Other? ==> resp == UnsupportedRequest)
  }

  // Move j of the run is the server answering request `id`, made with `req`, by `resp`, which is what the
  // request is owed given what the runner has at this move.
  ghost predicate ServedAt(ss: seq<Channel>, ms: seq<Move>, j: nat, id: nat, req: PuppetReq, resp: RunnerResp) {
    && j < |ms| < |ss| && ms[j].Serve? && Answers(req, ms[j].keys, ms[j].config, resp)
    && ss[j].serving && ss[j].toServer != [] && ss[j].toServer[0] == Ask(id, req)
  }

  // Answers stand, owners stay, and requests keep what they ask.
  ghost predicate Extends(s: Channel, s': Channel) {
    && |s.owner| <= |s'.owner| && s'.owner[..|s.owner|] == s.owner
    && |s.reqs| <= |s'.reqs| && (forall i | 0 <= i < |s.reqs| :: s'.reqs[i].req == s.reqs[i].req)
    && (forall id | id in s.computed :: Get(s'.computed, id) == Some(s.computed[id]))
  }

  lemma MoveKeepsAnswers(s: Channel, m: Move)
    requires Can(s, m)
    ensures !m.Serve? ==> Do(s, m).computed == s.computed
  {}

  lemma RequesterExtends(s: Channel, m: Move)
    requires Can(s, m) && (m.GetId? || m.SendRequest? || m.LookAtEntry?)
    ensures Extends(s, Do(s, m))
  {}

  lemma OtherExtends(s: Channel, m: Move)
    requires Can(s, m) && !m.GetId? && !m.SendRequest? && !m.LookAtEntry?
    requires m.Serve? ==> s.toServer[0].id !in s.computed
    ensures Extends(s, Do(s, m))
  {
    if m.Relay? || m.Serve? || m.Abandon? || m.Receive? || m.TaskFill? { TaskExtends(s, m); }
  }

  lemma TaskExtends(s: Channel, m: Move)
    requires Can(s, m) && (m.Relay? || m.Serve? || m.Abandon? || m.Receive? || m.TaskFill?)
    requires m.Serve? ==> s.toServer[0].id !in s.computed
    ensures Extends(s, Do(s, m))
  {}

  lemma MoveExtends(s: Channel, m: Move)
    requires Can(s, m) && (m.Serve? ==> s.toServer[0].id !in s.computed)
    ensures Extends(s, Do(s, m))
    ensures !m.Serve? ==> Do(s, m).computed == s.computed
  {
    MoveKeepsAnswers(s, m);
    if m.GetId? || m.SendRequest? || m.LookAtEntry? { RequesterExtends(s, m); } else { OtherExtends(s, m); }
  }

  lemma NextIsUnanswered(s: Channel)
    requires OwnersOk(s) && IdsOk(s) && QueuesOk(s) && s.toServer != []
    ensures s.toServer[0].id !in s.computed
  {
    assert s.stage[AskIds(s.toServer)[0]] == OnWire;
    IdAt(s, s.toServer[0].id);
  }

  lemma StepExtends(ss: seq<Channel>, k: nat)
    requires IsRun(ss) && k + 1 < |ss|
    ensures Extends(ss[k], ss[k + 1])
  {
    assert Moves(ss[k], ss[k + 1]);
    var m :| Can(ss[k], m) && ss[k + 1] == Do(ss[k], m);
    if m.Serve? {
      RunKeeps(ss, k);
      NextIsUnanswered(ss[k]);
    }
    MoveExtends(ss[k], m);
  }

  ghost predicate JustServed(ss: seq<Channel>, ms: seq<Move>, k: nat, id: nat)
    requires k + 1 < |ss| && id in ss[k + 1].computed
  {
    ss[k].toServer != [] && ss[k].toServer[0].id == id
      && ServedAt(ss, ms, k, id, ss[k].toServer[0].req, ss[k + 1].computed[id])
  }

  lemma ServesOnlyThen(ss: seq<Channel>, ms: seq<Move>, k: nat, id: nat)
    requires Takes(ss, ms) && k < |ms| && id in ss[k + 1].computed && id !in ss[k].computed
    ensures JustServed(ss, ms, k, id)
  {
    MoveKeepsAnswers(ss[k], ms[k]);
  }

  lemma OwnersAreReqs(ss: seq<Channel>, k: nat, id: nat)
    requires IsRun(ss) && k < |ss| && id in ss[k].computed
    ensures id < |ss[k].owner| && ss[k].owner[id] < |ss[k].reqs|
  {
    RunKeeps(ss, k);
  }

  lemma ServesNext(ss: seq<Channel>, k: nat)
    requires IsRun(ss) && k < |ss| && ss[k].toServer != []
    ensures var a := ss[k].toServer[0];
      a.id < |ss[k].owner| && ss[k].owner[a.id] < |ss[k].reqs| && a.req == ss[k].reqs[ss[k].owner[a.id]].req
  {
    RunKeeps(ss, k);
  }

  lemma SameAsked(s: Channel, s': Channel, id: nat)
    requires Extends(s, s') && id < |s.owner| && s.owner[id] < |s.reqs|
    ensures s'.owner[id] == s.owner[id] && s'.reqs[s.owner[id]].req == s.reqs[s.owner[id]].req
    ensures id in s.computed ==> id in s'.computed && s'.computed[id] == s.computed[id]
  {
    assert s'.owner[..|s.owner|][id] == s.owner[id];
    if id in s.computed { assert Get(s'.computed, id) == Some(s.computed[id]); }
  }

  lemma NewlyServed(ss: seq<Channel>, ms: seq<Move>, k: nat, id: nat)
    requires Takes(ss, ms) && k < |ms| && id in ss[k + 1].computed && id !in ss[k].computed
    ensures id < |ss[k].owner| && ss[k].owner[id] < |ss[k].reqs|
    ensures ServedAt(ss, ms, k, id, ss[k].reqs[ss[k].owner[id]].req, ss[k + 1].computed[id])
  {
    TakesRun(ss, ms);
    ServesOnlyThen(ss, ms, k, id);
    ServesNext(ss, k);
  }

  // At state k the answer to `id` is what move j of the run computed from its owner's request.
  ghost predicate ServedFor(ss: seq<Channel>, ms: seq<Move>, k: nat, id: nat, j: nat)
    requires k < |ss|
  {
    && id in ss[k].computed && id < |ss[k].owner| && ss[k].owner[id] < |ss[k].reqs|
    && ServedAt(ss, ms, j, id, ss[k].reqs[ss[k].owner[id]].req, ss[k].computed[id])
  }

  lemma ServedStays(ss: seq<Channel>, ms: seq<Move>, k: nat, id: nat, j: nat)
    requires Takes(ss, ms) && k < |ms| && ServedFor(ss, ms, k, id, j)
    ensures ServedFor(ss, ms, k + 1, id, j)
  {
    TakesRun(ss, ms);
    StepExtends(ss, k);
    SameAsked(ss[k], ss[k + 1], id);
  }

  lemma ServedNow(ss: seq<Channel>, ms: seq<Move>, k: nat, id: nat)
    requires Takes(ss, ms) && k < |ms| && id in ss[k + 1].computed && id !in ss[k].computed
    ensures ServedFor(ss, ms, k + 1, id, k)
  {
    TakesRun(ss, ms);
    NewlyServed(ss, ms, k, id);
    StepExtends(ss, k);
    SameAsked(ss[k], ss[k + 1], id);
  }

  lemma NothingServedYet(ss: seq<Channel>)
    requires IsRun(ss)
    ensures ss[0].computed == map[]
  {}

  lemma {:induction false} ComputedWasServed(ss: seq<Channel>, ms: seq<Move>, k: nat, id: nat) returns (j: nat)
    requires Takes(ss, ms) && k < |ss| && id in ss[k].computed
    ensures j < k && ServedFor(ss, ms, k, id, j)
  {
    TakesRun(ss, ms);
    NothingServedYet(ss);
    var before := k - 1;
    if id in ss[before].computed {
      j := ComputedWasServed(ss, ms, before, id);
      ServedStays(ss, ms, before, id, j);
    } else {
      j := before;
      ServedNow(ss, ms, before, id);
    }
  }

  // What was asked, by requester.
  function Begun(ms: seq<Move>): seq<PuppetReq> {
    if ms == [] then []
    else Begun(ms[..|ms| - 1]) + if ms[|ms| - 1].Begin? then [ms[|ms| - 1].req] else []
  }

  function Asked(s: Channel): seq<PuppetReq> {
    seq(|s.reqs|, i requires 0 <= i < |s.reqs| => s.reqs[i].req)
  }

  lemma MoveAsks(s: Channel, m: Move)
    requires Can(s, m)
    ensures Asked(Do(s, m)) == Asked(s) + if m.Begin? then [m.req] else []
  {
    if m.GetId? || m.SendRequest? || m.LookAtEntry? { RequesterKeepsAsking(s, m); }
  }

  lemma RequesterKeepsAsking(s: Channel, m: Move)
    requires Can(s, m) && (m.GetId? || m.SendRequest? || m.LookAtEntry?)
    ensures Asked(Do(s, m)) == Asked(s)
  {}

  // The requesters are the callers of request, each with what it asks.
  lemma {:induction false} RequestersAsk(ss: seq<Channel>, ms: seq<Move>, k: nat)
    requires Takes(ss, ms) && k < |ss|
    ensures Asked(ss[k]) == Begun(ms[..k])
  {
    if k > 0 {
      RequestersAsk(ss, ms, k - 1);
      assert ms[..k][..k - 1] == ms[..k - 1];
      assert Can(ss[k - 1], ms[k - 1]) && ss[k] == Do(ss[k - 1], ms[k - 1]);
      MoveAsks(ss[k - 1], ms[k - 1]);
    }
  }

  // A request returns the very answer that one move of the server gave to it: what it is owed, given what
  // the runner has at that move.
  lemma RequestReturnsItsAnswer(ss: seq<Channel>, ms: seq<Move>, k: nat, i: nat) returns (j: nat)
    requires Takes(ss, ms) && k < |ss| && i < |ss[k].reqs| && ss[k].reqs[i].pc.Done?
    ensures i < |Begun(ms[..k])|
    ensures j < k && ServedAt(ss, ms, j, ss[k].reqs[i].pc.id, Begun(ms[..k])[i], ss[k].reqs[i].pc.resp)
    ensures Fits(ss[k].reqs[i].req, ss[k].reqs[i].pc.resp)
  {
    TakesRun(ss, ms);
    RunKeeps(ss, k);
    RequestersAsk(ss, ms, k);
    assert Asked(ss[k])[i] == ss[k].reqs[i].req;
    var id := ss[k].reqs[i].pc.id;
    OwnId(ss[k], i);
    IdAt(ss[k], id);
    j := ComputedWasServed(ss, ms, k, id);
  }

  lemma {:induction false} ComputedStays(ss: seq<Channel>, j: nat, k: nat, id: nat)
    requires IsRun(ss) && j <= k < |ss| && id in ss[j].computed
    ensures id in ss[k].computed
    decreases k - j
  {
    if j < k {
      StepExtends(ss, j);
      assert Get(ss[j + 1].computed, id).Some?;
      ComputedStays(ss, j + 1, k, id);
    }
  }

  // The server handles each request at most once.
  lemma ServedOnce(ss: seq<Channel>, ms: seq<Move>, j: nat, k: nat, id: nat, req: PuppetReq, resp: RunnerResp,
      req': PuppetReq, resp': RunnerResp)
    requires Takes(ss, ms) && ServedAt(ss, ms, j, id, req, resp) && ServedAt(ss, ms, k, id, req', resp')
    ensures j == k
  {
    TakesRun(ss, ms);
    if j != k {
      var a, b := if j < k then j else k, if j < k then k else j;
      ServedIsNew(ss, ms, a, id);
      ServedIsNew(ss, ms, b, id);
      ComputedStays(ss, a + 1, b, id);
    }
  }

  lemma ServedIsNew(ss: seq<Channel>, ms: seq<Move>, j: nat, id: nat)
    requires Takes(ss, ms) && exists req, resp :: ServedAt(ss, ms, j, id, req, resp)
    ensures j + 1 < |ss| && id !in ss[j].computed && id in ss[j + 1].computed
  {
    TakesRun(ss, ms);
    RunKeeps(ss, j);
    NextIsUnanswered(ss[j]);
  }

  // ----- A broken pipe -----

  lemma OnlyABreakEnds(s: Channel, m: Move)
    requires Can(s, m)
    ensures Do(s, m).serving <==> s.serving && !(m.Serve? && m.out.BrokenPipe?)
  {}

  // The server reads on until an answer of its meets a broken pipe, and never again after that.
  lemma {:induction false} ServesUntilBroken(ss: seq<Channel>, ms: seq<Move>, k: nat)
    requires Takes(ss, ms) && k < |ss|
    ensures ss[k].serving <==> forall j | 0 <= j < k :: !(ms[j].Serve? && ms[j].out.BrokenPipe?)
  {
    if k > 0 {
      ServesUntilBroken(ss, ms, k - 1);
      OnlyABreakEnds(ss[k - 1], ms[k - 1]);
    }
  }

  // ----- The table and its ids -----

  // Made and not returned; a failed send strands its request for ever.
  predicate InFlight(s: Channel, id: nat) {
    exists i: nat :: i < |s.reqs| && !s.reqs[i].pc.Done? && IdOf(s.reqs[i].pc) == Some(id)
  }

  lemma PendingAreInFlight(ss: seq<Channel>, k: nat, id: nat)
    requires IsRun(ss) && k < |ss|
    ensures id in ss[k].table.pending <==> InFlight(ss[k], id)
  {
    RunKeeps(ss, k);
    var s := ss[k];
    if id in s.table.pending {
      IdAt(s, id);
      assert IdOf(s.reqs[s.owner[id]].pc) == Some(id);
    }
    if InFlight(s, id) {
      var i: nat :| i < |s.reqs| && !s.reqs[i].pc.Done? && IdOf(s.reqs[i].pc) == Some(id);
      OwnId(s, i);
      IdAt(s, id);
    }
  }

  // Whoever carries an id in any state of a run is the one requester that ever did.
  lemma IdsAreNeverShared(ss: seq<Channel>, j: nat, k: nat, i: nat, n: nat)
    requires IsRun(ss) && j <= k < |ss| && i < |ss[j].reqs| && n < |ss[k].reqs|
    requires IdOf(ss[j].reqs[i].pc).Some? && IdOf(ss[j].reqs[i].pc) == IdOf(ss[k].reqs[n].pc)
    ensures i == n
  {
    RunKeeps(ss, j);
    RunKeeps(ss, k);
    OwnId(ss[j], i);
    OwnId(ss[k], n);
    OwnersStay(ss, j, k);
    assert ss[k].owner[..|ss[j].owner|][IdOf(ss[j].reqs[i].pc).value] == i;
  }

  lemma {:induction false} OwnersStay(ss: seq<Channel>, j: nat, k: nat)
    requires IsRun(ss) && j <= k < |ss|
    ensures ss[j].owner <= ss[k].owner
    decreases k - j
  {
    if j < k {
      StepExtends(ss, j);
      assert ss[j + 1].owner[..|ss[j].owner|] == ss[j].owner;
      OwnersStay(ss, j + 1, k);
    }
  }

  // Only the full counter panics; a look at the table always finds the entry.
  lemma OnlyTheCounterPanics(ss: seq<Channel>, k: nat, m: Move, i: nat)
    requires IsRun(ss) && k < |ss| && Can(ss[k], m) && i < |ss[k].reqs| && !ss[k].reqs[i].pc.Panicked?
    ensures i < |Do(ss[k], m).reqs|
    ensures Do(ss[k], m).reqs[i].pc.Panicked? <==> m == GetId(i) && ss[k].table.next == U64_MAX
  {
    RunKeeps(ss, k);
    PanicsOnFullCounter(ss[k], m, i);
  }

  lemma PanicsOnFullCounter(s: Channel, m: Move, i: nat)
    requires Inv(s) && Can(s, m) && i < |s.reqs| && !s.reqs[i].pc.Panicked?
    ensures i < |Do(s, m).reqs|
    ensures Do(s, m).reqs[i].pc.Panicked? <==> m == GetId(i) && s.table.next == U64_MAX
  {
    if m.GetId? {
      AllocatesUnlessFull(s);
    } else if m.LookAtEntry? {
      EntryFound(s, m.i);
    } else {
      OthersDoNotPanic(s, m, i);
    }
  }

  lemma OthersDoNotPanic(s: Channel, m: Move, i: nat)
    requires Can(s, m) && !m.GetId? && !m.LookAtEntry? && i < |s.reqs| && !s.reqs[i].pc.Panicked?
    ensures i < |Do(s, m).reqs| && !Do(s, m).reqs[i].pc.Panicked?
  {}

  // ----- A lost message is lost for good -----

  // The message a move marks, where it moves one.
  function Marked(s: Channel, m: Move): Option<nat>
    requires Can(s, m)
  {
    match m
    case SendRequest(i, _) => Some(s.reqs[i].pc.id)
    case LookAtEntry(i) => Some(s.reqs[i].pc.id)
    case Relay(_) => Some(s.outbox[0].id)
    case Serve(_, _, _) => Some(s.toServer[0].id)
    case Abandon => Some(s.toServer[0].id)
    case Receive => Some(s.toClient[0].id)
    case TaskFill => Some(s.task.id)
    case _ => Option.None
  }

  // Where the move only marks, it keeps every other stage.
  ghost predicate MarksOnly(s: Channel, s': Channel, id: nat) {
    |s'.stage| == |s.stage| && forall x: nat | x < |s.stage| && x != id :: s'.stage[x] == s.stage[x]
  }

  lemma RequesterMarks(s: Channel, m: Move)
    requires Can(s, m) && (m.SendRequest? || m.LookAtEntry?)
    ensures MarksOnly(s, Do(s, m), Marked(s, m).value)
  {}

  lemma TaskMarks(s: Channel, m: Move)
    requires Can(s, m) && (m.Relay? || m.Serve? || m.Abandon? || m.Receive? || m.TaskFill?)
    ensures MarksOnly(s, Do(s, m), Marked(s, m).value)
  {}

  lemma OthersKeepTheirStage(s: Channel, m: Move, id: nat)
    requires Can(s, m) && id < |s.stage| && Marked(s, m) != Some(id)
    ensures id < |Do(s, m).stage| && Do(s, m).stage[id] == s.stage[id]
  {
    if m.SendRequest? || m.LookAtEntry? {
      RequesterMarks(s, m);
    } else if Marked(s, m).Some? {
      TaskMarks(s, m);
    }
  }

  lemma MoveKeepsLost(s: Channel, m: Move, id: nat)
    requires Inv(s) && Can(s, m) && id < |s.stage| && s.stage[id] == Lost
    ensures id < |Do(s, m).stage| && Do(s, m).stage[id] == Lost
  {
    if m.LookAtEntry? {
      EntryFound(s, m.i);
    } else {
      if Marked(s, m).Some? { MarkedIsNotLost(s, m); }
      OthersKeepTheirStage(s, m, id);
    }
  }

  lemma MarkedIsNotLost(s: Channel, m: Move)
    requires Inv(s) && Can(s, m) && !m.LookAtEntry? && Marked(s, m).Some?
    ensures Marked(s, m).value < |s.stage| && s.stage[Marked(s, m).value] != Lost
  {
    match m
    case SendRequest(i, _) => OwnId(s, i); IdAt(s, s.reqs[i].pc.id);
    case Relay(_) => HeadStage(AskIds(s.outbox), s.stage, Queued);
    case Serve(_, _, _) => HeadStage(AskIds(s.toServer), s.stage, OnWire);
    case Abandon => HeadStage(AskIds(s.toServer), s.stage, OnWire);
    case Receive => HeadStage(AnswerIds(s.toClient), s.stage, Answered);
    case TaskFill => ResponseIsExpected(s);
  }

  lemma {:induction false} StaysLost(ss: seq<Channel>, j: nat, k: nat, id: nat)
    requires IsRun(ss) && j <= k < |ss| && id < |ss[j].stage| && ss[j].stage[id] == Lost
    ensures id < |ss[k].stage| && ss[k].stage[id] == Lost
    decreases k - j
  {
    if j < k {
      RunKeeps(ss, j);
      assert Moves(ss[j], ss[j + 1]);
      NextKeepsLost(ss[j], ss[j + 1], id);
      StaysLost(ss, j + 1, k, id);
    }
  }

  lemma NextKeepsLost(s: Channel, s': Channel, id: nat)
    requires Inv(s) && Moves(s, s') && id < |s.stage| && s.stage[id] == Lost
    ensures id < |s'.stage| && s'.stage[id] == Lost
  {
    var m :| Can(s, m) && s' == Do(s, m);
    MoveKeepsLost(s, m, id);
  }

  // What loses a message: a send or a relay that fails, an answer that does not go out, a server that has left.
  predicate Loses(s: Channel, m: Move, id: nat)
    requires Can(s, m)
  {
    match m
    case SendRequest(i, ok) => !s.tcp && !ok && s.reqs[i].pc.id == id
    case Relay(ok) => !ok && s.outbox[0].id == id
    case Serve(_, _, out) => !out.Delivered? && s.toServer[0].id == id
    case Abandon => s.toServer[0].id == id
    case _ => false
  }

  lemma MarksLost(s: Channel, m: Move, id: nat)
    requires Inv(s) && Can(s, m) && Marked(s, m) == Some(id) && !m.LookAtEntry?
    ensures IsLost(Do(s, m), id) <==> Loses(s, m, id)
  {
    MarkedIsNotLost(s, m);
  }

  lemma LookLosesNothing(s: Channel, i: nat, id: nat)
    requires Inv(s) && Can(s, LookAtEntry(i)) && !IsLost(s, id)
    ensures !IsLost(Do(s, LookAtEntry(i)), id)
  {
    EntryFound(s, i);
  }

  lemma LosesOnlyMarked(s: Channel, m: Move, id: nat)
    requires Can(s, m) && Loses(s, m, id)
    ensures Marked(s, m) == Some(id)
  {}

  lemma NewIsNotLost(s: Channel, m: Move, id: nat)
    requires Can(s, m) && |s.stage| <= id
    ensures !IsLost(Do(s, m), id)
  {}

  predicate IsLost(s: Channel, id: nat) {
    id < |s.stage| && s.stage[id] == Lost
  }

  lemma MoveLoses(s: Channel, m: Move, id: nat)
    requires Inv(s) && Can(s, m)
    ensures IsLost(Do(s, m), id) <==> IsLost(s, id) || Loses(s, m, id)
  {
    if Loses(s, m, id) { LosesOnlyMarked(s, m, id); }
    if IsLost(s, id) {
      MoveKeepsLost(s, m, id);
    } else if m.LookAtEntry? {
      LookLosesNothing(s, m.i, id);
    } else if Marked(s, m) == Some(id) {
      MarksLost(s, m, id);
    } else if id < |s.stage| {
      OthersKeepTheirStage(s, m, id);
    } else {
      NewIsNotLost(s, m, id);
    }
  }

  ghost predicate LosesAt(ss: seq<Channel>, ms: seq<Move>, j: nat, id: nat) {
    j < |ms| && j < |ss| && Can(ss[j], ms[j]) && Loses(ss[j], ms[j], id)
  }

  // A message is lost exactly when one of the named moves lost it.
  lemma {:induction false} LostExactly(ss: seq<Channel>, ms: seq<Move>, k: nat, id: nat)
    requires Takes(ss, ms) && k < |ss|
    ensures IsLost(ss[k], id) <==> exists j: nat :: j < k && LosesAt(ss, ms, j, id)
  {
    if k > 0 {
      LostExactly(ss, ms, k - 1, id);
      LosesNext(ss, ms, k - 1, id);
    }
  }

  lemma LosesNext(ss: seq<Channel>, ms: seq<Move>, k: nat, id: nat)
    requires Takes(ss, ms) && k < |ms|
    ensures IsLost(ss[k + 1], id) <==> IsLost(ss[k], id) || LosesAt(ss, ms, k, id)
  {
    TakesRun(ss, ms);
    RunKeeps(ss, k);
    MoveLoses(ss[k], ms[k], id);
  }

  predicate HasLost(s: Channel, i: nat)
    requires i < |s.reqs|
  {
    IdOf(s.reqs[i].pc).Some? && IdOf(s.reqs[i].pc).value < |s.stage| && s.stage[IdOf(s.reqs[i].pc).value] == Lost
  }

  // The requester never returns after that, and its entry stays in the map, empty.
  lemma LostNeverReturns(ss: seq<Channel>, j: nat, k: nat, i: nat)
    requires IsRun(ss) && j <= k < |ss| && i < |ss[j].reqs| && HasLost(ss[j], i)
    ensures i < |ss[k].reqs| && HasLost(ss[k], i) && !ss[k].reqs[i].pc.Done?
    ensures Get(ss[k].table.pending, IdOf(ss[j].reqs[i].pc).value) == Some(Option.None)
  {
    var id := IdOf(ss[j].reqs[i].pc).value;
    StaysLost(ss, j, k, id);
    RunKeeps(ss, j);
    OwnId(ss[j], i);
    RunKeeps(ss, k);
    IdAt(ss[k], id);
    OwnersStay(ss, j, k);
    assert ss[k].owner[..|ss[j].owner|][id] == ss[k].owner[id];
  }

  // ----- No lost wake-up -----

  lemma NoLostWakeUp(ss: seq<Channel>, k: nat, i: nat)
    requires IsRun(ss) && k < |ss| && i < |ss[k].reqs| && ss[k].reqs[i].pc.Parked?
    requires ss[k].reqs[i].pc.id in ss[k].table.pending && ss[k].table.pending[ss[k].reqs[i].pc.id].Some?
    ensures Can(ss[k], Wake(i))
      || (ss[k].lock == ByTask && Can(ss[k], TaskNotify) && Can(Do(ss[k], TaskNotify), Wake(i)))
  {
    RunKeeps(ss, k);
    assert WaiterOk(ss[k], i);
  }
}
