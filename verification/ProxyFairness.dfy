/** Shutdown of the proxy in runs without end: under a fair select it returns. */
module ProxyFairness {
  import opened Common
  import opened Proxy

  type Run = nat -> State

  // Step n of a run, or none: then nothing that the model sees happened.
  type Steps = nat -> Option<Step>

  ghost predicate Follows(run: Run, steps: Steps) {
    && run(0) == Start(run(0).builds)
    && forall n: nat :: StepAt(run, steps, n)
  }

  ghost predicate StepAt(run: Run, steps: Steps, n: nat) {
    match steps(n)
    case None => run(n + 1) == run(n)
    case Some(step) => Enabled(run(n), step) && run(n + 1) == Take(run(n), step)
  }

  // What fairness speaks of: the listener's timer, its attempts, its command, and the work of tasks and shutdown.
  datatype Kind = ForTimer | ForAttempt | ForCommand | ForWork

  predicate IsKind(step: Step, kind: Kind) {
    match kind
    case ForTimer => step.WakeUp?
    case ForAttempt => step.Connect?
    case ForCommand => step.Obey?
    case ForWork => IsWork(step)
  }

  ghost predicate Taken(steps: Steps, n: nat, kind: Kind) {
    steps(n).Some? && IsKind(steps(n).value, kind)
  }

  ghost predicate Offered(run: Run, n: nat, kind: Kind) {
    exists step :: Enabled(run(n), step) && IsKind(step, kind)
  }

  ghost predicate TakenFrom(steps: Steps, n: nat, kind: Kind) {
    exists m: nat :: m >= n && Taken(steps, m, kind)
  }

  ghost predicate OfferedFrom(run: Run, n: nat, kind: Kind) {
    exists m: nat :: m >= n && Offered(run, m, kind)
  }

  ghost predicate AlwaysOffered(run: Run, n: nat, kind: Kind) {
    forall m: nat :: m >= n ==> Offered(run, m, kind)
  }

  // What is offered from some point on is taken.
  ghost predicate WeaklyFair(run: Run, steps: Steps, kind: Kind) {
    forall n: nat :: AlwaysOffered(run, n, kind) ==> TakenFrom(steps, n, kind)
  }

  // What is offered again and again is taken.
  ghost predicate StronglyFair(run: Run, steps: Steps, kind: Kind) {
    (forall n: nat :: OfferedFrom(run, n, kind)) ==> forall n: nat :: TakenFrom(steps, n, kind)
  }

  // The listener's waits and attempts end, tasks and shutdown go on, and the listener's select does not pass
  // its command over for ever.
  ghost predicate Fair(run: Run, steps: Steps) {
    && Follows(run, steps)
    && WeaklyFair(run, steps, ForTimer) && WeaklyFair(run, steps, ForAttempt) && WeaklyFair(run, steps, ForWork)
    && StronglyFair(run, steps, ForCommand)
  }

  lemma {:induction false} FairKeeps(run: Run, steps: Steps, n: nat)
    requires Follows(run, steps)
    ensures Inv(run(n))
  {
    if n > 0 {
      FairKeeps(run, steps, n - 1);
      assert StepAt(run, steps, n - 1);
      if steps(n - 1).Some? { StepKeeps(run(n - 1), steps(n - 1).value); }
    }
  }

  // ----- The listener ends -----

  ghost predicate Ended(run: Run, n: nat) {
    run(n).listener.ListenerEnded?
  }

  ghost predicate Called(run: Run, n: nat) {
    !run(n).shutdown.NotCalled?
  }

  lemma {:induction false} StaysCalled(run: Run, steps: Steps, n: nat, m: nat)
    requires Follows(run, steps) && n <= m && Called(run, n)
    ensures Called(run, m)
    decreases m - n
  {
    if n < m {
      assert StepAt(run, steps, n);
      StaysCalled(run, steps, n + 1, m);
    }
  }

  // While the listener goes on, a called shutdown waits for it and the command is there.
  lemma TellsListener(run: Run, steps: Steps, n: nat)
    requires Follows(run, steps) && Called(run, n) && !Ended(run, n)
    ensures run(n).listenerTold && run(n).shutdown.JoiningListener?
  {
    FairKeeps(run, steps, n);
  }

  ghost predicate GoesOn(run: Run, n: nat) {
    forall m: nat :: m >= n ==> !Ended(run, m)
  }

  lemma ListenerStep(run: Run, steps: Steps, n: nat)
    requires Follows(run, steps) && (GoesOn(run, n) || !Ended(run, n + 1))
    ensures run(n).listener.Sleeping? ==> run(n + 1).listener.Sleeping? || run(n + 1).listener.Connecting?
    ensures run(n).listener.Sleeping? && Taken(steps, n, ForTimer) ==> run(n + 1).listener.Connecting?
    ensures run(n).listener.Connecting? ==> run(n + 1).listener.Connecting? || run(n + 1).listener.Streaming?
    ensures run(n).listener.Connecting? && Taken(steps, n, ForAttempt) ==> run(n + 1).listener.Streaming?
  {
    assert !Ended(run, n + 1);
    assert StepAt(run, steps, n);
  }

  // A listener that sleeps wakes up.
  lemma Wakes(run: Run, steps: Steps, n: nat) returns (m: nat)
    requires Fair(run, steps) && GoesOn(run, n)
    ensures m >= n && !run(m).listener.Sleeping?
  {
    if forall k: nat :: k >= n ==> run(k).listener.Sleeping? {
      forall k: nat {:trigger Offered(run, k, ForTimer)} | k >= n ensures Offered(run, k, ForTimer) {
        assert Enabled(run(k), WakeUp);
      }
      assert AlwaysOffered(run, n, ForTimer);
      m :| m >= n && Taken(steps, m, ForTimer);
      ListenerStep(run, steps, m);
      assert false;
    } else {
      m :| m >= n && !run(m).listener.Sleeping?;
    }
  }

  // A listener that connects gets to its stream.
  lemma Connects(run: Run, steps: Steps, n: nat) returns (m: nat)
    requires Fair(run, steps) && GoesOn(run, n) && !run(n).listener.Sleeping?
    ensures m >= n && run(m).listener.Streaming?
  {
    assert !Ended(run, n);
    if run(n).listener.Streaming? {
      m := n;
    } else if forall k: nat :: k >= n ==> run(k).listener.Connecting? {
      forall k: nat {:trigger Offered(run, k, ForAttempt)} | k >= n ensures Offered(run, k, ForAttempt) {
        assert Enabled(run(k), Connect);
      }
      assert AlwaysOffered(run, n, ForAttempt);
      m :| m >= n && Taken(steps, m, ForAttempt);
      ListenerStep(run, steps, m);
      assert false;
    } else {
      var k: nat :| k >= n && !run(k).listener.Connecting?;
      m := LeavesConnecting(run, steps, n, k);
    }
  }

  lemma {:induction false} LeavesConnecting(run: Run, steps: Steps, n: nat, k: nat) returns (m: nat)
    requires Follows(run, steps) && GoesOn(run, n) && n <= k
    requires run(n).listener.Connecting? && !run(k).listener.Connecting?
    ensures m >= n && run(m).listener.Streaming?
    decreases k - n
  {
    assert !Ended(run, n + 1);
    ListenerStep(run, steps, n);
    if run(n + 1).listener.Streaming? {
      m := n + 1;
    } else {
      m := LeavesConnecting(run, steps, n + 1, k);
    }
  }

  lemma ListenerEnds(run: Run, steps: Steps, n: nat) returns (m: nat)
    requires Fair(run, steps) && Called(run, n)
    ensures m >= n && Ended(run, m)
  {
    if GoesOn(run, n) {
      forall k: nat {:trigger OfferedFrom(run, k, ForCommand)} ensures OfferedFrom(run, k, ForCommand) {
        var at := ObeyIsOffered(run, steps, n, if k > n then k else n);
      }
      assert TakenFrom(steps, n, ForCommand);
      m :| m >= n && Taken(steps, m, ForCommand);
      ObeyEnds(run, steps, m);
      assert false;
    } else {
      m :| m >= n && Ended(run, m);
    }
  }

  lemma ObeyEnds(run: Run, steps: Steps, n: nat)
    requires Follows(run, steps) && Taken(steps, n, ForCommand)
    ensures Ended(run, n + 1)
  {
    assert StepAt(run, steps, n);
  }

  lemma ObeyIsOffered(run: Run, steps: Steps, n: nat, k: nat) returns (m: nat)
    requires Fair(run, steps) && Called(run, n) && GoesOn(run, n) && k >= n
    ensures m >= k && Offered(run, m, ForCommand)
  {
    var awake := Wakes(run, steps, k);
    m := Connects(run, steps, awake);
    StaysCalled(run, steps, n, m);
    assert !Ended(run, m);
    TellsListener(run, steps, m);
    assert Enabled(run(m), Obey);
  }

  // ----- Tasks and shutdown end -----

  lemma {:induction false} WorkFalls(run: Run, steps: Steps, n: nat, m: nat)
    requires Follows(run, steps) && n <= m && Winding(run(n))
    ensures Winding(run(m)) && Work(run(m)) <= Work(run(n))
    decreases m - n
  {
    if n < m {
      assert StepAt(run, steps, n);
      if steps(n).Some? { StepWorks(run(n), steps(n).value); }
      WorkFalls(run, steps, n + 1, m);
    }
  }

  lemma WorkIsOffered(run: Run, n: nat)
    requires Winding(run(n)) && !run(n).shutdown.Returned?
    ensures Offered(run, n, ForWork)
  {
    var step := SomeoneWorks(run(n));
  }

  lemma {:induction false} WindsUp(run: Run, steps: Steps, n: nat) returns (m: nat)
    requires Fair(run, steps) && Winding(run(n))
    ensures m >= n && run(m).shutdown.Returned?
    decreases Work(run(n))
  {
    if forall k: nat :: k >= n ==> !run(k).shutdown.Returned? {
      forall k: nat {:trigger Offered(run, k, ForWork)} | k >= n ensures Offered(run, k, ForWork) {
        WorkFalls(run, steps, n, k);
        WorkIsOffered(run, k);
      }
      assert AlwaysOffered(run, n, ForWork);
      m :| m >= n && Taken(steps, m, ForWork);
      WorkFalls(run, steps, n, m);
      assert StepAt(run, steps, m);
      StepWorks(run(m), steps(m).value);
      m := WindsUp(run, steps, m + 1);
    } else {
      m :| m >= n && run(m).shutdown.Returned?;
    }
  }

  /**
   Under a fair select every call of shutdown returns, from whatever state the listener and its connections
   are in, and however many connections come in until the listener obeys.
   */
  lemma FairShutdownReturns(run: Run, steps: Steps, n: nat)
    requires Fair(run, steps) && Called(run, n)
    ensures exists m: nat :: m >= n && run(m).shutdown.Returned?
  {
    var ended := ListenerEnds(run, steps, n);
    FairKeeps(run, steps, ended);
    StaysCalled(run, steps, n, ended);
    var m := WindsUp(run, steps, ended);
  }
}
