/** The transition table of `handle_call({:update_job_state, ...})`. */
module UpdateTable {
  import opened Common
  import opened Jobs

  datatype CoordState = WaitForStart(since: Time) | Starting(since: Time) | Ready | Stopping(since: Time)

  datatype RunnerState = RStarting | RReady | RStopping | RFinished | RFailed

  // NoClause: the `case` has no matching clause, and the server dies.
  datatype Act = Put(next: CoordState) | Remove(code: CompletionCode) | NoClause

  function UpdateAct(current: CoordState, posted: RunnerState, now: Time): Act {
    match (current, posted)
    case (WaitForStart(_), RStarting) => Put(Starting(now))
    case (WaitForStart(_), RReady) => Put(Ready)
    case (Starting(ts), RStarting) => Put(Starting(ts))
    case (Starting(_), RReady) => Put(Ready)
    case (Ready, RReady) => Put(Ready)
    case (_, RStopping) => Put(Stopping(now))
    case (_, RFinished) => Remove(Finished)
    case (_, RFailed) => Remove(Failed)
    case _ => NoClause
  }

  // The table without its timestamps, as one function over whole traces.
  datatype Phase = PWait | PStarting | PReady | PStopping | PRemoved | PStuck

  function PhaseOf(s: CoordState): Phase {
    match s
    case WaitForStart(_) => PWait
    case Starting(_) => PStarting
    case Ready => PReady
    case Stopping(_) => PStopping
  }

  function PhaseStep(p: Phase, posted: RunnerState): Phase {
    if p.PRemoved? || p.PStuck? then p
    else match posted
      case RStarting => if p.PWait? || p.PStarting? then PStarting else PStuck
      case RReady => if p.PStopping? then PStuck else PReady
      case RStopping => PStopping
      case RFinished => PRemoved
      case RFailed => PRemoved
  }

  function PhaseAfter(posts: seq<RunnerState>): Phase {
    if posts == [] then PWait else PhaseStep(PhaseAfter(posts[..|posts| - 1]), posts[|posts| - 1])
  }

  lemma PhaseAfterAppend(posts: seq<RunnerState>, posted: RunnerState)
    ensures PhaseAfter(posts + [posted]) == PhaseStep(PhaseAfter(posts), posted)
  {
    assert (posts + [posted])[..|posts|] == posts;
  }

  /** The timed table and the phase function take the same branch on every input. */
  lemma PhaseStepIsTable(current: CoordState, posted: RunnerState, now: Time)
    ensures PhaseStep(PhaseOf(current), posted) ==
      match UpdateAct(current, posted, now)
      case Put(next) => PhaseOf(next)
      case Remove(_) => PRemoved
      case NoClause => PStuck
  {}

  function PhaseRank(p: Phase): nat {
    match p case PWait => 0 case PStarting => 1 case PReady => 2 case PStopping => 3 case PRemoved => 4 case PStuck => 5
  }

  /** Whatever a runner posts, a job's phase never moves backwards. */
  lemma {:induction false} PhaseForwardOnly(posts: seq<RunnerState>, n: nat)
    requires n <= |posts|
    ensures PhaseRank(PhaseAfter(posts[..n])) <= PhaseRank(PhaseAfter(posts))
    decreases |posts|
  {
    if n == |posts| {
      assert posts[..n] == posts;
    } else {
      var front := posts[..|posts| - 1];
      assert front[..n] == posts[..n];
      PhaseForwardOnly(front, n);
    }
  }
}
