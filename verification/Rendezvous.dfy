/** The rendezvous server's port pool, listener table and table of accepted streams. */
module Rendezvous {
  import opened Common

  type Port = nat
  type ListenerId = int
  type Stream = int

  datatype Listener = Listener(id: ListenerId, port: Port)

  // What the operating system makes of socket, bind and listen; the first four lose the port.
  datatype Bind = NoSocket | NoReuse | NotBound | NotListening | Bound

  datatype Service = Service(
    pool: seq<Port>, listeners: map<nat, Listener>, handleCount: nat,
    streams: map<nat, Stream>, streamCount: nat)

  // One critical section each: accept looks its listener up, and later stores what it accepted.
  datatype Op = Listen(id: ListenerId, bind: Bind) | LookUp(handle: nat) | Store(stream: Stream) | Connect(handle: nat)

  datatype Reply =
    | NoPort | ListenFailed | Listening(handle: nat) | ListenerFound(port: Port)
    | Connecting(handle: nat) | Claimed(stream: Stream) | NoStream | Panicked

  function Fresh(ports: seq<Port>): Service {
    Service(ports, map[], 0, map[], 0)
  }

  function Handle(s: Service, op: Op): (Service, Reply) {
    match op
    case Listen(id, bind) =>
      if s.pool == [] then (s, NoPort)
      else
        var popped := s.(pool := s.pool[1..]);
        if bind == NoReuse then (popped, Panicked)
        else if bind != Bound then (popped, ListenFailed)
        else if s.handleCount + 1 > U64_MAX then (popped, Panicked)
        else
          (popped.(listeners := s.listeners[s.handleCount := Listener(id, s.pool[0])],
            handleCount := s.handleCount + 1),
           Listening(s.handleCount))
    case LookUp(h) => (s, if h in s.listeners then ListenerFound(s.listeners[h].port) else Panicked)
    case Store(stream) =>
      if s.streamCount + 1 > U64_MAX then (s, Panicked)
      else (s.(streams := s.streams[s.streamCount := stream], streamCount := s.streamCount + 1),
        Connecting(s.streamCount))
    case Connect(h) =>
      if h in s.streams then (s.(streams := s.streams - {h}), Claimed(s.streams[h])) else (s, NoStream)
  }

  // The state under its mutex.
  class RendezvousServer {
    var listenPortPool: seq<Port>
    var listeners: map<nat, Listener>
    var listenHandleCnt: nat
    var connectingStreams: map<nat, Stream>
    var connectingStreamsCnt: nat

    ghost function Value(): Service
      reads this
    {
      Service(listenPortPool, listeners, listenHandleCnt, connectingStreams, connectingStreamsCnt)
    }

    // `shuffled` is the port range in the random order it is drawn in.
    constructor (lo: Port, hi: Port, shuffled: seq<Port>)
      requires multiset(shuffled) == multiset(PortRange(lo, hi))
      ensures Value() == Fresh(shuffled)
    {
      listenPortPool := shuffled;
      listeners, listenHandleCnt := map[], 0;
      connectingStreams, connectingStreamsCnt := map[], 0;
    }

    method Listen(id: ListenerId, bind: Bind) returns (r: Reply)
      modifies this
      ensures (Value(), r) == Handle(old(Value()), Op.Listen(id, bind))
    {
      if listenPortPool == [] { return NoPort; }
      var port := listenPortPool[0];
      listenPortPool := listenPortPool[1..];
      if bind == NoReuse { return Panicked; }
      if bind != Bound { return ListenFailed; }
      var handle := listenHandleCnt;
      if handle + 1 > U64_MAX { return Panicked; }
      listenHandleCnt := handle + 1;
      listeners := listeners[handle := Listener(id, port)];
      return Listening(handle);
    }

    method LookUp(handle: nat) returns (r: Reply)
      ensures (Value(), r) == Handle(Value(), Op.LookUp(handle))
    {
      return if handle in listeners then ListenerFound(listeners[handle].port) else Panicked;
    }

    method Store(stream: Stream) returns (r: Reply)
      modifies this
      ensures (Value(), r) == Handle(old(Value()), Op.Store(stream))
    {
      var handle := connectingStreamsCnt;
      if handle + 1 > U64_MAX { return Panicked; }
      connectingStreamsCnt := handle + 1;
      connectingStreams := connectingStreams[handle := stream];
      return Connecting(handle);
    }

    method Connect(handle: nat) returns (r: Reply)
      modifies this
      ensures (Value(), r) == Handle(old(Value()), Op.Connect(handle))
    {
      if handle !in connectingStreams { return NoStream; }
      r := Claimed(connectingStreams[handle]);
      connectingStreams := connectingStreams - {handle};
    }
  }

  function PortRange(lo: Port, hi: Port): seq<Port>
    decreases hi - lo
  {
    if lo >= hi then [] else [lo] + PortRange(lo + 1, hi)
  }

  lemma {:induction false} PortRangeHasEachOnce(lo: Port, hi: Port, p: Port)
    ensures multiset(PortRange(lo, hi))[p] == if lo <= p < hi then 1 else 0
    decreases hi - lo
  {
    if lo < hi {
      PortRangeHasEachOnce(lo + 1, hi, p);
      assert p != lo ==> multiset([lo])[p] == 0;
      assert multiset([lo] + PortRange(lo + 1, hi)) == multiset([lo]) + multiset(PortRange(lo + 1, hi));
    }
  }

  // ----- Runs, and what they hand out -----

  function After(ports: seq<Port>, ops: seq<Op>): Service {
    if ops == [] then Fresh(ports) else Handle(After(ports, ops[..|ops| - 1]), ops[|ops| - 1]).0
  }

  // The reply to operation k.
  function ReplyTo(ports: seq<Port>, ops: seq<Op>, k: nat): Reply
    requires k < |ops|
  {
    Handle(After(ports, ops[..k]), ops[k]).1
  }

  lemma AfterOneMore(ports: seq<Port>, ops: seq<Op>, k: nat)
    requires k < |ops|
    ensures After(ports, ops[..k + 1]) == Handle(After(ports, ops[..k]), ops[k]).0
  {
    assert ops[..k + 1][..k] == ops[..k];
  }

  // The port that an operation takes from the pool without a listener to show for it.
  function LostBy(s: Service, op: Op): seq<Port> {
    if op.Listen? && s.pool != [] && !Handle(s, op).1.Listening? then [s.pool[0]] else []
  }

  function Lost(ports: seq<Port>, ops: seq<Op>): seq<Port> {
    if ops == [] then []
    else
      var before := ops[..|ops| - 1];
      Lost(ports, before) + LostBy(After(ports, before), ops[|ops| - 1])
  }

  // Handles are dense: no two listens, and no two accepts, share one.
  ghost predicate Dense(s: Service) {
    && (forall h: nat :: h in s.listeners <==> h < s.handleCount)
    && (forall h: nat | h in s.streams :: h < s.streamCount)
    && s.handleCount <= U64_MAX && s.streamCount <= U64_MAX
  }

  lemma {:induction false} HandlesAreDense(ports: seq<Port>, ops: seq<Op>)
    ensures Dense(After(ports, ops))
  {
    if ops != [] { HandlesAreDense(ports, ops[..|ops| - 1]); }
  }

  function ListenerPorts(s: Service): seq<Port> {
    seq(s.handleCount, h requires 0 <= h < s.handleCount => if h in s.listeners then s.listeners[h].port else 0)
  }

  // Every port, as often as it is in the pool, has a listener or was lost.
  function Spread(s: Service, lost: seq<Port>): multiset<Port> {
    multiset(s.pool) + multiset(ListenerPorts(s)) + multiset(lost)
  }

  // Pool, listeners and lost ports together are the range, each port once.
  lemma {:induction false} PortsAreConserved(ports: seq<Port>, ops: seq<Op>)
    ensures Spread(After(ports, ops), Lost(ports, ops)) == multiset(ports)
  {
    if ops != [] {
      var before, op := ops[..|ops| - 1], ops[|ops| - 1];
      HandlesAreDense(ports, before);
      PortsAreConserved(ports, before);
      PortMoves(After(ports, before), op, Lost(ports, before));
    }
  }

  lemma PortMoves(s: Service, op: Op, lost: seq<Port>)
    requires Dense(s)
    ensures Spread(Handle(s, op).0, lost + LostBy(s, op)) == Spread(s, lost)
  {
    var s', lost' := Handle(s, op).0, lost + LostBy(s, op);
    if LostBy(s, op) != [] {
      PortGetsLost(s, s', lost, lost');
    } else {
      assert lost' == lost;
      if op.Listen? && s.pool != [] {
        PortListens(s, s', Listener(op.id, s.pool[0]), lost);
      } else {
        SpreadSame(s, s', lost);
      }
    }
  }

  lemma SpreadSame(s: Service, s': Service, lost: seq<Port>)
    requires s'.pool == s.pool && s'.listeners == s.listeners && s'.handleCount == s.handleCount
    ensures Spread(s', lost) == Spread(s, lost)
  {
    assert ListenerPorts(s') == ListenerPorts(s);
  }

  lemma PortListens(s: Service, s': Service, l: Listener, lost: seq<Port>)
    requires Dense(s) && s.pool != [] && l.port == s.pool[0] && s'.pool == s.pool[1..]
    requires s'.listeners == s.listeners[s.handleCount := l] && s'.handleCount == s.handleCount + 1
    ensures Spread(s', lost) == Spread(s, lost)
  {
    HeadOfPool(s.pool);
    ListenerPortsMore(s, s', l);
  }

  lemma PortGetsLost(s: Service, s': Service, lost: seq<Port>, lost': seq<Port>)
    requires s.pool != [] && s'.pool == s.pool[1..] && s'.listeners == s.listeners && s'.handleCount == s.handleCount
    requires lost' == lost + [s.pool[0]]
    ensures Spread(s', lost') == Spread(s, lost)
  {
    HeadOfPool(s.pool);
    assert ListenerPorts(s') == ListenerPorts(s);
  }

  lemma HeadOfPool(pool: seq<Port>)
    requires pool != []
    ensures multiset(pool) == multiset(pool[1..]) + multiset([pool[0]])
  {
    assert pool == [pool[0]] + pool[1..];
  }

  lemma ListenerPortsMore(s: Service, s': Service, l: Listener)
    requires Dense(s) && s'.listeners == s.listeners[s.handleCount := l] && s'.handleCount == s.handleCount + 1
    ensures multiset(ListenerPorts(s')) == multiset(ListenerPorts(s)) + multiset([l.port])
  {
    assert ListenerPorts(s') == ListenerPorts(s) + [l.port];
  }

  lemma {:induction false} OnceInMultiset(s: seq<Port>, h: nat, k: nat)
    requires h < k < |s|
    ensures multiset(s)[s[h]] >= 2 || s[h] != s[k]
  {
    var a, b := s[..k], s[k..];
    assert s == a + b && multiset(s) == multiset(a) + multiset(b);
    assert s[h] == a[h] && s[h] in multiset(a);
    assert s[k] == b[0] && s[k] in multiset(b);
  }

  // The port is in the pool, has a listener or was lost, and only one of these, if it is in the range.
  ghost predicate OnePlace(lo: Port, hi: Port, s: Service, lost: seq<Port>, p: Port) {
    && (lo <= p < hi <==> p in s.pool || p in ListenerPorts(s) || p in lost)
    && !(p in s.pool && p in ListenerPorts(s)) && !(p in s.pool && p in lost) && !(p in ListenerPorts(s) && p in lost)
  }

  // So the three are pairwise disjoint and together the range; no two listeners share a port.
  ghost predicate Disjoint(lo: Port, hi: Port, s: Service, lost: seq<Port>) {
    && (forall p: Port :: OnePlace(lo, hi, s, lost, p))
    && (forall h, k | 0 <= h < k < |ListenerPorts(s)| :: ListenerPorts(s)[h] != ListenerPorts(s)[k])
  }

  lemma SpreadIsDisjoint(lo: Port, hi: Port, s: Service, lost: seq<Port>)
    requires Spread(s, lost) == multiset(PortRange(lo, hi))
    ensures Disjoint(lo, hi, s, lost)
  {
    var a, b, c := multiset(s.pool), multiset(ListenerPorts(s)), multiset(lost);
    forall p: Port ensures OnePlace(lo, hi, s, lost, p) && b[p] <= 1 {
      PortRangeHasEachOnce(lo, hi, p);
      assert Spread(s, lost)[p] == a[p] + b[p] + c[p];
      assert p in s.pool <==> a[p] > 0;
      assert p in ListenerPorts(s) <==> b[p] > 0;
      assert p in lost <==> c[p] > 0;
    }
    forall h, k | 0 <= h < k < |ListenerPorts(s)| ensures ListenerPorts(s)[h] != ListenerPorts(s)[k] {
      OnceInMultiset(ListenerPorts(s), h, k);
      assert OnePlace(lo, hi, s, lost, ListenerPorts(s)[h]);
    }
  }

  lemma PortsAreDisjoint(lo: Port, hi: Port, ports: seq<Port>, ops: seq<Op>)
    requires multiset(ports) == multiset(PortRange(lo, hi))
    ensures Disjoint(lo, hi, After(ports, ops), Lost(ports, ops))
  {
    PortsAreConserved(ports, ops);
    SpreadIsDisjoint(lo, hi, After(ports, ops), Lost(ports, ops));
  }

  // A listen finds no port exactly when every port of the range went to a listener or was lost.
  lemma NoPortExactly(ports: seq<Port>, ops: seq<Op>, k: nat)
    requires k < |ops| && ops[k].Listen?
    ensures ReplyTo(ports, ops, k) == NoPort <==>
      After(ports, ops[..k]).handleCount + |Lost(ports, ops[..k])| == |ports|
  {
    var s := After(ports, ops[..k]);
    PortsAreConserved(ports, ops[..k]);
    assert |Spread(s, Lost(ports, ops[..k]))| == |multiset(ports)|;
  }

  // ----- A handle stays good for ever -----

  lemma {:induction false} ListenerStays(ports: seq<Port>, ops: seq<Op>, j: nat, k: nat)
    requires j < k <= |ops| && ReplyTo(ports, ops, j).Listening?
    ensures Has(After(ports, ops[..k]).listeners, ReplyTo(ports, ops, j).handle,
      Listener(ops[j].id, After(ports, ops[..j]).pool[0]))
  {
    var before, op := After(ports, ops[..k - 1]), ops[k - 1];
    AfterOneMore(ports, ops, k - 1);
    HandlesAreDense(ports, ops[..k - 1]);
    if j == k - 1 {
      StepAddsListener(before, op);
    } else {
      ListenerStays(ports, ops, j, k - 1);
      StepKeepsListener(before, op, ReplyTo(ports, ops, j).handle);
    }
  }

  lemma StepAddsListener(s: Service, op: Op)
    requires Handle(s, op).1.Listening?
    ensures op.Listen? && s.pool != []
    ensures Has(Handle(s, op).0.listeners, Handle(s, op).1.handle, Listener(op.id, s.pool[0]))
  {}

  predicate Has<V(==)>(m: map<nat, V>, h: nat, v: V) {
    h in m && m[h] == v
  }

  lemma StepKeepsListener(s: Service, op: Op, h: nat)
    requires Dense(s) && h in s.listeners
    ensures Has(Handle(s, op).0.listeners, h, s.listeners[h])
  {}

  // accept never misses its listener.
  lemma LookUpFindsThePort(ports: seq<Port>, ops: seq<Op>, j: nat, k: nat)
    requires j < k < |ops| && ReplyTo(ports, ops, j).Listening? && ops[k] == LookUp(ReplyTo(ports, ops, j).handle)
    ensures ops[j].Listen? && After(ports, ops[..j]).pool != []
    ensures ReplyTo(ports, ops, k) == ListenerFound(After(ports, ops[..j]).pool[0])
  {
    ListenerStays(ports, ops, j, k);
  }

  // ----- Streams -----

  // Operation j stored a stream under handle h, or handed it out.
  ghost predicate StoredAt(ports: seq<Port>, ops: seq<Op>, j: nat, h: nat) {
    j < |ops| && ops[j].Store? && ReplyTo(ports, ops, j) == Connecting(h)
  }

  ghost predicate ClaimedAt(ports: seq<Port>, ops: seq<Op>, j: nat, h: nat) {
    j < |ops| && ops[j] == Op.Connect(h) && ReplyTo(ports, ops, j).Claimed?
  }

  ghost predicate StoredBefore(ports: seq<Port>, ops: seq<Op>, k: nat, h: nat) {
    exists j: nat :: j < k && StoredAt(ports, ops, j, h)
  }

  ghost predicate ClaimedBefore(ports: seq<Port>, ops: seq<Op>, k: nat, h: nat) {
    exists j: nat :: j < k && ClaimedAt(ports, ops, j, h)
  }

  // What one operation does to one stream handle.
  lemma StepOnStream(s: Service, op: Op, h: nat)
    requires Dense(s)
    ensures h in Handle(s, op).0.streams
      <==> (h in s.streams && op != Op.Connect(h)) || (op.Store? && Handle(s, op).1 == Connecting(h))
    ensures h < Handle(s, op).0.streamCount <==> h < s.streamCount || (op.Store? && Handle(s, op).1 == Connecting(h))
    ensures h in s.streams && op != Op.Connect(h) ==> Has(Handle(s, op).0.streams, h, s.streams[h])
    ensures Handle(s, op).1 == Connecting(h) ==>
      op.Store? && h == s.streamCount && Has(Handle(s, op).0.streams, h, op.stream)
  {}

  // A handle was given out exactly when its stream was stored, and it waits exactly until it is claimed.
  lemma {:induction false} WaitingExactly(ports: seq<Port>, ops: seq<Op>, k: nat, h: nat)
    requires k <= |ops|
    ensures h < After(ports, ops[..k]).streamCount <==> StoredBefore(ports, ops, k, h)
    ensures h in After(ports, ops[..k]).streams <==> StoredBefore(ports, ops, k, h) && !ClaimedBefore(ports, ops, k, h)
    ensures ClaimedBefore(ports, ops, k, h) ==> StoredBefore(ports, ops, k, h)
  {
    if k > 0 {
      AfterOneMore(ports, ops, k - 1);
      WaitingExactly(ports, ops, k - 1, h);
      HandlesAreDense(ports, ops[..k - 1]);
      StepOnStream(After(ports, ops[..k - 1]), ops[k - 1], h);
      assert StoredBefore(ports, ops, k, h) <==> StoredBefore(ports, ops, k - 1, h) || StoredAt(ports, ops, k - 1, h);
      assert ClaimedBefore(ports, ops, k, h) <==>
        ClaimedBefore(ports, ops, k - 1, h) || ClaimedAt(ports, ops, k - 1, h);
    }
  }

  lemma {:induction false} StreamStays(ports: seq<Port>, ops: seq<Op>, j: nat, k: nat, h: nat)
    requires j < k <= |ops| && StoredAt(ports, ops, j, h)
    ensures HasOrGone(After(ports, ops[..k]), h, ops[j].stream)
  {
    AfterOneMore(ports, ops, k - 1);
    HandlesAreDense(ports, ops[..k - 1]);
    if j == k - 1 {
      StepAddsStream(After(ports, ops[..j]), ops[j], h);
    } else {
      StreamStays(ports, ops, j, k - 1, h);
      StepKeepsStream(After(ports, ops[..k - 1]), ops[k - 1], h, ops[j].stream);
    }
  }

  predicate HasOrGone(s: Service, h: nat, stream: Stream) {
    h < s.streamCount && (h in s.streams ==> s.streams[h] == stream)
  }

  lemma StepAddsStream(s: Service, op: Op, h: nat)
    requires op.Store? && Handle(s, op).1 == Connecting(h)
    ensures HasOrGone(Handle(s, op).0, h, op.stream)
  {}

  lemma StepKeepsStream(s: Service, op: Op, h: nat, stream: Stream)
    requires HasOrGone(s, h, stream)
    ensures HasOrGone(Handle(s, op).0, h, stream)
  {}

  // Each accepted stream is claimed at most once, under its own handle, and after it was stored.
  lemma ClaimedOnce(ports: seq<Port>, ops: seq<Op>, h: nat, k: nat)
    requires ClaimedAt(ports, ops, k, h)
    ensures forall j: nat | ClaimedAt(ports, ops, j, h) :: j == k
    ensures exists j: nat :: j < k && StoredAt(ports, ops, j, h) && ReplyTo(ports, ops, k) == Claimed(ops[j].stream)
    ensures forall i: nat, j: nat | StoredAt(ports, ops, i, h) && StoredAt(ports, ops, j, h) :: i == j
  {
    forall j: nat | ClaimedAt(ports, ops, j, h) ensures j == k {
      var a, b := if j < k then j else k, if j < k then k else j;
      WaitingExactly(ports, ops, b, h);
      assert j != k ==> ClaimedBefore(ports, ops, b, h);
    }
    WaitingExactly(ports, ops, k, h);
    assert StoredBefore(ports, ops, k, h);
    var j: nat :| j < k && StoredAt(ports, ops, j, h);
    StreamStays(ports, ops, j, k, h);
    forall i: nat, j: nat | StoredAt(ports, ops, i, h) && StoredAt(ports, ops, j, h) ensures i == j {
      StoredOnce(ports, ops, i, j, h);
    }
  }

  lemma StoredOnce(ports: seq<Port>, ops: seq<Op>, i: nat, j: nat, h: nat)
    requires StoredAt(ports, ops, i, h) && StoredAt(ports, ops, j, h)
    ensures i == j
  {
    if i != j {
      var a, b := if i < j then i else j, if i < j then j else i;
      WaitingExactly(ports, ops, b, h);
      assert StoredBefore(ports, ops, b, h);
    }
  }

  // ----- Every reply -----

  // Operation j gave out this listener handle.
  ghost predicate ListenedBefore(ports: seq<Port>, ops: seq<Op>, k: nat, h: nat) {
    exists j: nat :: j < k && ListenedAt(ports, ops, j, h)
  }

  ghost predicate ListenedAt(ports: seq<Port>, ops: seq<Op>, j: nat, h: nat) {
    j < |ops| && ops[j].Listen? && ReplyTo(ports, ops, j) == Listening(h)
  }

  lemma StepOnListener(s: Service, op: Op, h: nat)
    requires Dense(s)
    ensures h in Handle(s, op).0.listeners <==> h in s.listeners || (op.Listen? && Handle(s, op).1 == Listening(h))
  {}

  lemma {:induction false} ListenersAreHandedOut(ports: seq<Port>, ops: seq<Op>, k: nat, h: nat)
    requires k <= |ops|
    ensures h in After(ports, ops[..k]).listeners <==> ListenedBefore(ports, ops, k, h)
  {
    if k > 0 {
      AfterOneMore(ports, ops, k - 1);
      ListenersAreHandedOut(ports, ops, k - 1, h);
      HandlesAreDense(ports, ops[..k - 1]);
      StepOnListener(After(ports, ops[..k - 1]), ops[k - 1], h);
      assert ListenedBefore(ports, ops, k, h) <==>
        ListenedBefore(ports, ops, k - 1, h) || ListenedAt(ports, ops, k - 1, h);
    }
  }

  // What a listen that got a port comes to.
  ghost predicate ListenReply(bind: Bind, handles: nat, r: Reply) {
    match bind
    case Bound => if handles == U64_MAX then r == Panicked else r == Listening(handles)
    case NoReuse => r == Panicked
    case _ => r == ListenFailed
  }

  ghost predicate ReplyIsDue(ports: seq<Port>, ops: seq<Op>, k: nat, s: Service, r: Reply)
    requires k < |ops|
  {
    match ops[k]
    case Listen(_, bind) => r == NoPort || ListenReply(bind, s.handleCount, r)
    case LookUp(h) => if ListenedBefore(ports, ops, k, h) then r.ListenerFound? else r == Panicked
    case Store(_) => if s.streamCount == U64_MAX then r == Panicked else r == Connecting(s.streamCount)
    case Connect(h) =>
      if StoredBefore(ports, ops, k, h) && !ClaimedBefore(ports, ops, k, h) then r.Claimed? else r == NoStream
  }

  /**
   The reply to every operation of every sequence: a listen fails for want of a port, at its bind, or on the
   full counter; a look-up panics exactly on a handle that no listen gave out; a stream is refused exactly
   when it was never stored or has been claimed.
   */
  lemma RepliesExactly(ports: seq<Port>, ops: seq<Op>, k: nat)
    requires k < |ops|
    ensures ReplyIsDue(ports, ops, k, After(ports, ops[..k]), ReplyTo(ports, ops, k))
  {
    HandlesAreDense(ports, ops[..k]);
    if ops[k].LookUp? { ListenersAreHandedOut(ports, ops, k, ops[k].handle); }
    if ops[k].Connect? { WaitingExactly(ports, ops, k, ops[k].handle); }
  }
}
