# Treadmill job lifecycle: a Dafny model and its proofs

Treadmill runs jobs on boards. A coordinator keeps one server process per board; runners bring the jobs up
and report back; a puppet inside each job talks to its runner; a rendezvous server and proxy let users in.
This project models those parts as they are written, and proves what they keep over every run.

- **Coordinator** (`Jobs`, `UpdateTable`, `Coordinator`, `Agreement`, `ServerSteps`, `SystemInvariant`,
  `CoordinatorTheorems`, `Starts`): a state machine whose single actions are the effects other processes can see,
  for any number of boards, servers, callers of `get_or_start` and crashes at any point. `BoardServer` has the
  handlers in their own form, a class with loops and recursion over its fields and the shared store; each method is
  proved to have exactly its specified effect and to be a path of the state machine.
- **Runners** (`Runner`, `RunnerProofs`, `Fleet`, `Stops`, `StopRuns`, `Reports`, `Accounts`): `start_job` and
  `stop_job` of both runners as interleaved steps under one mutex, with the console streamer and its exit detection.
  The connector hands over one message at a time; the streamer's stops run beside it.
- **The two together** (`Composition`, `Outcomes`, `Completions`, `ShownTimes`): runners only start what they
  were sent, their posts arrive in order per job, everything else may come between.
- **Control channel** (`ControlChannel`, `ChannelProofs`, `ChannelTheorems`, `ChannelProgress`): concurrent requests
  over one socket, with the mutex, the pending map, the `Notify` as a generation counter, and the serve loop.
- **Rendezvous** (`Rendezvous`, `Proxy`, `ProxyFairness`, `ProxyTeardown`): the port and handle allocator; the listener,
  its connection tasks and the shutdown that joins them, with its return under a fair select; the wait for the
  public address.
- **Parameters** (`Parameters`): from the web form to the message for the runner.
- **Counterexamples** (`Counterexamples`, `Scenarios`): what the code does not keep, with the states and runs that
  show it.

Run `dafny verify dfyconfig.toml` to check everything. Ids, ports and streams are plain numbers, times are
microseconds; the time at which a handler reads the clock, the choice the database makes among equal start times,
the shuffled order of the port range, and the success or failure of every outside call are parameters or choices of
the environment. Counters that the code checks for overflow have their 64-bit bound.

## Where the code and expectation part

- `supervise_runners` writes `if :lt = DateTime.compare(...)` (`coordinator/lib/treadmill/board/board_server.ex:82`):
  a match, so a job that still waits within its deadline at a tick raises and kills the server. The model does the
  same; `BoardServers.BoardServer.SuperviseRunners` says exactly when, `Counterexamples.TickKillsWithinDeadline` gives an instance.
- The default wait timestamp is fixed when the struct is compiled (line 3 of the same file). The model takes it as an
  arbitrary stored value.
- A job scheduled while no runner is connected is marked dispatched before the send to nil kills the server
  (lines 146-151): `Counterexamples.JobWithoutRunnerIsLost`.
- A monitor message from a replaced runner has no clause (line 385): `ServerSteps.DiesExactly`.
- `stop_job` posts finished after it drops the lock (`nspawn-runner/src/main.rs:1044-1054`), and each of the
  child's two ends of output asks for a stop (lines 776-796), so the refused one's failed may come first:
  `Counterexamples.SecondStopOvertakes`. `StopRuns.FailedBeforeFinishedExactly` says when it does.
- Netboot shuts the proxies down only where there is a console streamer (`netboot-runner/src/main.rs:529-544`), so
  without one the job is posted finished with its proxies up: `Fleet.FinishedComesLast`.
- A stop the connector asked for that panics, at a kill for instance, ends the runner process, as the connector awaits
  it: `StopRuns.OneContainer` holds for this reason.
- Between the writing of completion codes and the unregistration, and between registration and the sweep in `init`,
  the three job listings do not partition the jobs: `CoordinatorTheorems.ViewsPartitionExactly` names these windows.
- `shutdown` of the proxy returns early when the listener failed, and then joins no connection task. Nothing is left
  over: such a listener never spawned one (`Proxy.ErrLeavesNothing`).
- A client's entry in the pending map stays for ever when its message is lost, and that request never returns:
  `ChannelTheorems.LostNeverReturns`.

## Model

| member | source | states |
|---|---|---|
| `Jobs.FilterRemovesNothing` | coordinator/lib/treadmill/job/job.ex:87-114 | The filter that `pending_jobs` applies after its `limit` drops nothing when no listed job is registered |
| `Jobs.WithoutActiveMembers` | coordinator/lib/treadmill/job/job.ex:167-173 | What the filter leaves: the listed jobs that no board server is registered for |
| `UpdateTable.PhaseStepIsTable` | coordinator/lib/treadmill/board/board_server.ex:324-342 | The timed transition table and the phase function take the same branch on every state and every posted update, the missing clauses included |
| `UpdateTable.PhaseForwardOnly` | coordinator/lib/treadmill/board/board_server.ex:318-359 | Over any sequence of posts, a job's phase never moves back along wait, starting, ready, stopping, removed |
| `Agreement.PopAllExactly` | coordinator/lib/treadmill/board/board_server.ex:42-53 | The fold of `Map.pop!` succeeds exactly when the job ids are distinct keys of the local map |
| `ServerSteps.PendingNotActive` | coordinator/lib/treadmill/board/board_server.ex:119-122 | A job the pending query finds is registered with nobody, so the filter after the limit removes nothing |
| `ServerSteps.SendFresh` | coordinator/lib/treadmill/board/board_server.ex:140-182 | When the start message goes out, no start message for that job was ever sent before |
| `ServerSteps.StepKeeps` | coordinator/lib/treadmill/board/board_server.ex:42-196 | Every effect of every handler keeps the agreement of local map, registry and rows, touches only this board's jobs, and moves rows only forward |
| `ServerSteps.DiesExactly` | coordinator/lib/treadmill/board/board_server.ex:119-427 | A server in agreement dies of its own on exactly these: a missing clause, a monitor message of another process, a send to no runner, an unexpired wait at a tick; never on `Map.pop!`, on registering a job or on `Repo.update!` |
| `SystemInvariant.StepKeepsInv` | coordinator/lib/treadmill/board/board_server.ex:201-427 | Every step of any number of boards, servers, callers and crashes keeps the whole invariant |
| `SystemInvariant.RunInv` | coordinator/lib/treadmill/board/board_server.ex:201-252 | The invariant holds in every state of every run |
| `CoordinatorTheorems.ThreeCopiesAgree` | coordinator/lib/treadmill/board/board_server.ex:231-239 | In every reachable state a live server's active jobs, the jobs it is registered for and its board's rows that are dispatched without a code are the same set, if and only if it is not between the effects of a dispatch or of a completion with jobs left, nor booting with unswept rows; the local map is never ahead |
| `CoordinatorTheorems.AtMostOneStart` | coordinator/lib/treadmill/board/board_server.ex:140-182 | Over every run, with crashes in mid-handler and reconnects, no two start messages name the same job |
| `CoordinatorTheorems.RowsOnlyMoveForward` | coordinator/lib/treadmill/board/board_server.ex:55-60 | A row moves only from undispatched to dispatched to completed, and a code once written is never overwritten, although the update has no null guard |
| `CoordinatorTheorems.OnlyDocumentedCrashes` | coordinator/lib/treadmill/board/board_server.ex:42-196 | In no run does a server die on `Map.pop!`, on an already registered job or on a stale row |
| `CoordinatorTheorems.CapacityAndConnection` | coordinator/lib/treadmill/board/board_server.ex:119-121 | A live server has at most `max_jobs` active jobs, and none while no runner is connected |
| `CoordinatorTheorems.SupervisionNeverStops` | coordinator/lib/treadmill/board/board_server.ex:29-40 | Once a server has had an active job, for as long as it lives a timer runs, a tick is in its mailbox or one is being handled |
| `CoordinatorTheorems.FiresOncePerArming` | coordinator/lib/treadmill/board/board_server.ex:29-40 | Between two firings of a server's timer it was armed, by a dispatch or at the end of a tick |
| `CoordinatorTheorems.TicksAreFirings` | coordinator/lib/treadmill/board/board_server.ex:424-427 | In every run the ticks in a server's mailbox are the firings of its timer less the ticks it has taken |
| `CoordinatorTheorems.OneServerPerBoard` | coordinator/lib/treadmill/board/board_server.ex:212-218 | At most one live server per board under every interleaving of concurrent starts |
| `CoordinatorTheorems.CallersShareTheServer` | coordinator/lib/treadmill/board/board.ex:147-174 | Two callers of `get_or_start` for one board hold the same server while both answers are alive |
| `CoordinatorTheorems.CallerKeepsItsBoard` | coordinator/lib/treadmill/board/board.ex:147-174 | A caller is served for the board it came with |
| `CoordinatorTheorems.FirstLookup` | coordinator/lib/treadmill/board/board.ex:158-165 | The first lookup answers with the board's live server and starts nothing; only without one the caller starts a server, idle, without runner or jobs |
| `CoordinatorTheorems.ClaimDecides` | coordinator/lib/treadmill/board/board_server.ex:212-220 | A server registers exactly when its board has none; one that comes second ends quietly and changes nothing |
| `CoordinatorTheorems.SecondLookup` | coordinator/lib/treadmill/board/board.ex:163-173 | The second lookup finds the server that won the race; it fails only after a death |
| `CoordinatorTheorems.SecondLookupFinds` | coordinator/lib/treadmill/board/board.ex:167-173 | The second lookup answers with the board's live server whenever there is one, whoever started it, and else fails its match |
| `CoordinatorTheorems.GetOrStartReturns` | coordinator/lib/treadmill/board/board.ex:147-174 | Whatever the others have done, a caller that started a server is at most five steps of its own and of this server's `init` away from an answer, which is a server if the board has one by then or the caller's own lives and the board is known |
| `CoordinatorTheorems.OnlyKnownBoards` | coordinator/lib/treadmill/board/board_server.ex:201-216 | In every run a server past its check, a registered server and one a caller has found are of a board that is in the database |
| `CoordinatorTheorems.UnknownBoardFails` | coordinator/lib/treadmill/board/board.ex:163-173 | In every run `init` ends a server exactly when its board is not in the database, and the second lookup of a caller for such a board fails its match |
| `Starts.StartsAreDue` | coordinator/lib/treadmill/job/job.ex:87-103 | Every start message ever sent goes back to a query of its server: then there was a free slot, the job was undispatched, without a code and before its end by the time the query read, none such of the board started earlier, and the message went to the runner connected at the send |
| `Starts.NothingDueIsLeft` | coordinator/lib/treadmill/board/board_server.ex:119-134 | In every run a server stops scheduling only with no slot free or no job of its board due at the time it read |
| `CoordinatorTheorems.PendingJobsIsPendingView` | coordinator/lib/treadmill/job/job.ex:87-114 | Without a limit, the list of pending jobs holds exactly the eligible jobs that no server is registered for |
| `CoordinatorTheorems.ViewsPartitionExactly` | coordinator/lib/treadmill/job/job.ex:87-164 | For a board with a server, each job is reported exactly once among pending, past its end, active and completed, if and only if the server is neither between writing codes and unregistering nor before its sweep |
| `BoardServers.PathKeeps` | coordinator/lib/treadmill/board/board_server.ex:42-427 | Every chain of actions that starts in agreement ends in agreement |
| `BoardServers.QueryOneMore` | coordinator/lib/treadmill/job/job.ex:90-103 | Taking the earliest eligible job and querying again is one query with the limit raised by one |
| `BoardServers.Store.FirstPending` | coordinator/lib/treadmill/job/job.ex:87-114 | The query with `limit: 1` returns a job of this board that is undispatched, without a code and before its end, with the earliest start of these, and nothing exactly when there is none |
| `BoardServers.BoardServer.constructor` | coordinator/lib/treadmill/board/board_server.ex:219-252 | After `init`, every row an earlier server left open is closed as crashed, and the new server is in agreement |
| `BoardServers.BoardServer.Dispatch` | coordinator/lib/treadmill/board/board_server.ex:140-190 | Register, mark, send, remember, in this order; without a runner the job stays marked and unsent and the server dies |
| `BoardServers.PicksAreEarliest` | coordinator/lib/treadmill/board/board_server.ex:119-121 | While the clock stands, the jobs picked one query at a time are the min(free slots, eligible) earliest-start ones, in start order |
| `BoardServers.BoardServer.ScheduleJobs` | coordinator/lib/treadmill/board/board_server.ex:119-196 | With the clock read anew at each query, dispatches the earliest eligible job each time, in that order, until no slot is free or no job is eligible; the whole effect is stated, and is a path of the state machine |
| `BoardServers.ScheduledWereDue` | coordinator/lib/treadmill/job/job.ex:90-91 | Each job the scheduler takes was undispatched, without a code and before its end at the reading of the clock that picked it; with a slot left, every other such job of the board is past its end at the last reading |
| `BoardServers.BoardServer.CompleteJobs` | coordinator/lib/treadmill/board/board_server.ex:42-69 | Succeeds exactly on distinct active jobs; then they leave the map, their rows carry the code and their registrations are gone; otherwise nothing was written |
| `BoardServers.BoardServer.Unregister` | coordinator/lib/treadmill/board/board_server.ex:62-65 | Gives up exactly this server's registrations of the listed jobs |
| `BoardServers.BoardServer.SuperviseRunners` | coordinator/lib/treadmill/board/board_server.ex:73-98 | The fold over the snapshot is one batch completion of exactly its waiting jobs if and only if all of them are past the deadline; else it did that up to the first unexpired one and the server dies |
| `BoardServers.BoardServer.HandleTick` | coordinator/lib/treadmill/board/board_server.ex:424-427 | A tick supervises and re-arms the timer, and dispatches nothing |
| `BoardServers.BoardServer.UpdateJobState` | coordinator/lib/treadmill/board/board_server.ex:318-359 | An update of an unknown job changes nothing; otherwise the table decides between a new state and completion, and the scheduler runs; a missing clause kills the server |
| `BoardServers.BoardServer.RunnerDown` | coordinator/lib/treadmill/board/board_server.ex:385-421 | The monitored runner's death fails exactly the active jobs; any other process's kills the server and changes nothing |
| `BoardServers.BoardServer.ConnectRunner` | coordinator/lib/treadmill/board/board_server.ex:264-304 | A new runner replaces the old one and the scheduler runs; active jobs stay |
| `BoardServers.BoardServer.CastSchedule` | coordinator/lib/treadmill/board/board_server.ex:380-382 | The cast schedules; it dies exactly when no runner is connected and some job is eligible |
| `BoardServers.BoardServer.TerminateJob` | coordinator/lib/treadmill/board/board_server.ex:362-377 | Terminating a job that is still active never kills the server |
| `RunnerProofs.StepKeeps` | nspawn-runner/src/main.rs:317-1055 | Every step of every interleaving of start, stop and streamer tasks, with every outcome of the outside calls, keeps mutex, ownership of the environment and teardown stage |
| `StopRuns.OneContainer` | nspawn-runner/src/main.rs:326-344 | In every reachable state at most one child of a runner process is alive, with no exception: a stop that panics at its kill is the connector's, and its panic ends the process |
| `StopRuns.OneEnvironmentPerJob` | nspawn-runner/src/main.rs:317-344 | A job has at most one environment, whatever the number of runners |
| `Accounts.NothingIsForgotten` | nspawn-runner/src/main.rs:867-1055 | While a runner process lives, each environment it ever brought up is in the slot, in the hands of one task, released, released but for its mount after a failing unmount, or abandoned by a streamer's stop that something panicked under |
| `Accounts.StreamerEndsOnCommand` | nspawn-runner/src/main.rs:965-973 | In every run a streamer ends well only on the one command of the one stop that took the job |
| `Fleet.FinishedComesLast` | nspawn-runner/src/main.rs:976-1054 | In every run finished is posted only by the one stop that took the job, after child, socket, streamer, proxies and mount are gone; only netboot without a console leaves the proxies up |
| `Fleet.ReleasesInOrder` | nspawn-runner/src/main.rs:920-1023 | Child death, control socket, streamer, proxies and mount are released in this order, and none comes back, whatever errors the calls return |
| `Fleet.TornDownOnce` | nspawn-runner/src/main.rs:867-903 | A stored job is taken out at most once, and its streamer is commanded at most once |
| `RunnerProofs.StreamerRunsDown` | nspawn-runner/src/main.rs:639-802 | Once the child is dead, every streamer step lowers a measure that no other step raises |
| `RunnerProofs.StreamerStepsBounded` | nspawn-runner/src/main.rs:639-802 | In any interleaving the streamer of a dead child takes a bounded number of steps: the output left, two ends of file, the end of its loop |
| `RunnerProofs.OutputIsConserved` | nspawn-runner/src/main.rs:639-802 | In every interleaving the output not read yet is what was written less what the streamer read |
| `Fleet.JoinCompletes` | nspawn-runner/src/main.rs:965-973 | However a runner goes on while a stop joins the streamer, the streamer of a dead child takes a bounded number of steps, and when it has none left the join can complete |
| `StopRuns.FailedBeforeFinishedExactly` | nspawn-runner/src/main.rs:867-903 | In every run a failed post stands before a job's finished post if and only if a stop of that job was refused and had posted so before |
| `StopRuns.SingleStopFinishesFirst` | nspawn-runner/src/main.rs:1044-1054 | With a single stop of a job, the streamer's own included, no failed stands before finished |
| `Fleet.PostAllowed` | nspawn-runner/src/main.rs:326-1054 | What one runner step may post is never a missing clause of the table |
| `Fleet.PostsAlwaysAccepted` | netboot-runner/src/main.rs:137-559 | For every interleaving of starts, stops, exits and failures on any runners of both kinds, every prefix of a job's posts is accepted by the table |
| `Reports.RunTells` | nspawn-runner/src/main.rs:367-851 | What must have been posted: at every step of a start and of a stop that has the job, and while it is in the slot, the posts of the job other than failed are exactly the two starting posts (one under netboot), ready and stopping due by then, in order and once each |
| `Reports.FinishedToldAll` | nspawn-runner/src/main.rs:1044-1054 | A job posted finished had each of starting, ready and stopping posted before, in order, the right number of times |
| `Reports.MessageBecomesTask` | sse-connector/src/lib.rs:40-60 | Each start or stop message becomes one task, and the connector takes no other until it has ended |
| `Reports.EveryStartReports` | nspawn-runner/src/main.rs:326-366 | A start that ends while its process lives has put the job into the slot, all up to ready posted, or its last word is failed |
| `Reports.EveryStopReports` | nspawn-runner/src/main.rs:867-1054 | A stop that ends while its process lives has posted finished, or failed because it was refused or could not unmount; only a stop of the streamer under which something panics says nothing |
| `Reports.StartFailsExactly` | netboot-runner/src/main.rs:137-215 | A start gives up exactly when the slot is taken or a call before the job is up fails; without its control socket the process ends |
| `Reports.StopFailsExactly` | nspawn-runner/src/main.rs:867-1036 | A stop is refused exactly when the slot does not hold its job, gives up exactly when the unmount fails, and ends the process exactly when the connector awaits it and something panics under it |
| `Reports.ProcessEndsExactly` | nspawn-runner/src/main.rs:421-431 | A runner process ends exactly by a crash from outside, a start that cannot open its control socket, or a stop the connector awaits that something panics under; then its tasks and slot are gone, nothing is posted, and what it started is left as it was |
| `Reports.StartSkipsNothing` | netboot-runner/src/main.rs:137-449 | A start that is not lost goes on to the very next of its steps, eight under netboot and ten under nspawn, and its last one stores the job |
| `Reports.StopSkipsNothing` | netboot-runner/src/main.rs:451-558 | A stop nothing panics under goes on to the very next of its steps, kills until the child is dead, and leaves out streamer and proxies only without a console |
| `Reports.ExitAsksForStop` | nspawn-runner/src/main.rs:747-796 | An end of the console asks for a stop exactly when the child has exited and no stop holds it |
| `Reports.SpawnBringsUp` | nspawn-runner/src/main.rs:600-660 | A spawned job has its socket and proxies up, and under nspawn a living child, a mount and a streamer on both outputs |
| `Composition.JointStepKeeps` | coordinator/lib/treadmill/board/board_server.ex:318-359 | Coordinator steps, runner steps and deliveries keep the joint invariant |
| `Composition.NoServerMissesAClause` | coordinator/lib/treadmill/board/board_server.ex:324-342 | With these runners attached, no board server ever dies for want of a clause, in any run |
| `Composition.ShownStateIsReported` | coordinator/lib/treadmill/board/board_server.ex:318-359 | The state shown for an active job is what its delivered posts amount to |
| `ShownTimes.ShownSince` | coordinator/lib/treadmill/board/board_server.ex:324-342 | The time shown with an active job is the stamp of its dispatch while it waits, the delivery of its first post while it starts, and that of its latest post while it stops |
| `Outcomes.FinishedMeansReleased` | coordinator/lib/treadmill/board/board_server.ex:335-341 | A row with code finished was reported finished, and every environment any runner had for the job is released: child, socket, streamer, mount, and the proxies, unless it was netboot without a console |
| `Outcomes.FailuresHaveGrounds` | coordinator/lib/treadmill/board/board_server.ex:73-98 | A row with code failed had a failed post delivered or lost its runner while active; with code runner timeout it was given up by a tick before any post of it was delivered; with code server crashed it was found dispatched and without a code by a new server of its board |
| `Completions.PostIsRecorded` | coordinator/lib/treadmill/board/board_server.ex:335-352 | A finished or failed post that reaches the server of an active job becomes the code of that name: in every later state of the run it is in the row, or is the server's next effect, or the server has died and only the sweep of the next one, as crashed, can close the row |
| `Completions.LossIsRecorded` | coordinator/lib/treadmill/board/board_server.ex:385-408 | The same for the code failed of every job that was active when the server lost the runner it monitors |
| `Completions.TimeoutIsRecorded` | coordinator/lib/treadmill/board/board_server.ex:73-98 | The same for the code runner timeout of a job that a tick finds more than five million microseconds into its wait |
| `Outcomes.OnlyFourCodes` | coordinator/lib/treadmill/board/board_server.ex:42-60 | No run records cancelled, expired or aborted |
| `Counterexamples.TickKillsWithinDeadline` | coordinator/lib/treadmill/board/board_server.ex:82-86 | Three seconds into a wait a tick kills the server: the comparison is a match, not an equality |
| `Counterexamples.JobWithoutRunnerIsLost` | coordinator/lib/treadmill/board/board_server.ex:140-151 | A job that is scheduled while no runner is connected is marked, never sent, and closed as crashed by the next server |
| `Counterexamples.SecondStopOvertakes` | nspawn-runner/src/main.rs:776-796 | A run of one runner in which the child exits, both ends of its output ask for a stop, and the refused stop posts failed before the other posts finished |
| `ControlChannel.ResponseTable.AcquireId` | puppet/src/main.rs:158-176 | Hands out the counter and enters it as awaited, or panics; the counter is advanced first |
| `ControlChannel.ResponseTable.Deliver` | puppet/src/main.rs:115-133 | Fills the entry and bumps the notification, or reports an unexpected id; says when a response is spurious |
| `ControlChannel.ResponseTable.TryTake` | puppet/src/main.rs:189-202 | Takes the response out, or the generation to wait beyond |
| `ChannelProofs.MoveKeeps` | puppet/src/main.rs:84-203 | Every step of any number of requesters, the receive task, the wires and the server keeps the channel invariant |
| `ChannelProofs.EntryFound` | puppet/src/main.rs:189-202 | A requester that looks always finds its entry, empty or filled with what the server computed for it |
| `ChannelProofs.ResponseIsExpected` | puppet/src/main.rs:118-132 | The response the task holds is awaited and its entry still empty: neither logged case occurs |
| `ChannelTheorems.RequestReturnsItsAnswer` | unix-seqpacket-control-socket/src/lib.rs:31-55 | Every returned answer was given by one serve step of the run to that very request, and is what the runner had then: its keys or none, its network settings or job not found, pong, or unsupported |
| `ChannelTheorems.RequestersAsk` | puppet/src/main.rs:158-176 | The requesters of every state are the calls of `request` made so far, each with what it asked |
| `ChannelTheorems.ServedOnce` | tcp-control-socket/src/lib.rs:136-189 | Each request is answered by the server at most once |
| `ChannelTheorems.ComputedWasServed` | unix-seqpacket-control-socket/src/lib.rs:31-55 | Every computed answer goes back to one step of the serve loop, on the request of the id's owner |
| `ChannelTheorems.PendingAreInFlight` | puppet/src/main.rs:162-176 | The keys of the pending map are exactly the ids made and not returned |
| `ChannelTheorems.IdsAreNeverShared` | puppet/src/main.rs:163-167 | No two requesters ever carry the same id |
| `ChannelTheorems.OnlyTheCounterPanics` | puppet/src/main.rs:164-173 | Assertion and unwraps on the map never fail: a requester panics over the table exactly when the counter is full |
| `ChannelTheorems.NoLostWakeUp` | puppet/src/main.rs:411-421 | A parked requester whose entry is filled can wake, or can as soon as the task in the lock has notified |
| `ChannelProgress.NeverStuck` | puppet/src/main.rs:282-425 | While a request is open and its message not lost, some participant can move |
| `ChannelProgress.EveryMoveWorks` | puppet/src/main.rs:84-203 | Every move but a new request lowers a measure |
| `ChannelTheorems.LostNeverReturns` | puppet/src/main.rs:302-309 | From the state in which its message is lost on, a request never returns and its entry stays in the map |
| `ChannelTheorems.LostExactly` | unix-seqpacket-control-socket/src/lib.rs:195-216 | A message is lost exactly when its send or relay failed, its answer did not go out, or the server had left the connection |
| `ChannelTheorems.ServesUntilBroken` | tcp-control-socket/src/lib.rs:168-189 | The server reads from a connection until an answer of its meets a broken pipe, and never after that |
| `ChannelProgress.EveryRequestReturns` | puppet/src/main.rs:375-425 | However the moves are chosen they stop, within a bound, and then a request has returned if and only if its message was not lost and it did not meet the full counter |
| `Rendezvous.RendezvousServer.constructor` | rendezvous-server/src/main.rs:72-95 | The pool starts as the shuffled range |
| `Rendezvous.RendezvousServer.Listen` | rendezvous-server/src/main.rs:97-144 | Pops a port before it binds, so every failure, and the handle overflow, loses the port |
| `Rendezvous.RendezvousServer.LookUp` | rendezvous-server/src/main.rs:146-153 | Finds the listener of a handle or panics |
| `Rendezvous.RendezvousServer.Store` | rendezvous-server/src/main.rs:161-174 | Enters an accepted stream under the next handle |
| `Rendezvous.RendezvousServer.Connect` | rendezvous-server/src/main.rs:177-182 | Takes a waiting stream out, once |
| `Rendezvous.HandlesAreDense` | rendezvous-server/src/main.rs:131-141 | Listener handles are exactly the numbers below the counter; stream handles lie below theirs |
| `Rendezvous.PortsAreConserved` | rendezvous-server/src/main.rs:97-144 | Over every sequence of operations pool, listener ports and lost ports add up to the initial range |
| `Rendezvous.PortsAreDisjoint` | rendezvous-server/src/main.rs:78-93 | The three are pairwise disjoint, together the range, and no two listeners share a port |
| `Rendezvous.NoPortExactly` | rendezvous-server/src/main.rs:101-104 | A listen finds no port exactly when all have gone to listeners or were lost |
| `Rendezvous.LookUpFindsThePort` | rendezvous-server/src/main.rs:146-153 | A handle that listen returned is found ever after, with the port popped for it |
| `Rendezvous.WaitingExactly` | rendezvous-server/src/main.rs:161-182 | A stream handle waits exactly from its accept to its claim |
| `Rendezvous.ClaimedOnce` | rendezvous-server/src/main.rs:177-182 | Each accepted stream is claimed at most once, under its own handle |
| `Rendezvous.RepliesExactly` | rendezvous-server/src/main.rs:97-182 | The reply to every operation of every sequence: which failures of a listen are errors and which panics, look-up panics exactly on a handle no listen gave out, a stream is missing exactly when it was never stored or was claimed |
| `Proxy.RunKeeps` | rendezvous-proxy/src/lib.rs:144-173 | In every run the map holds the ids from zero to the counter until it is drained, and a task outside it has ended |
| `Proxy.SenderOutlivesTask` | rendezvous-proxy/src/lib.rs:476-491 | A task that has not ended has its sender: the panic on a closed command channel is unreachable |
| `Proxy.ShutdownIsComplete` | rendezvous-proxy/src/lib.rs:144-173 | Once shutdown has returned Ok, every connection task ever spawned has ended, the map is empty, and no task is spawned again |
| `Proxy.ShutdownOutcome` | rendezvous-proxy/src/lib.rs:144-152 | Shutdown returns Ok exactly when the listener obeyed; after an error no task was ever spawned; after a panic the map still holds every id |
| `Proxy.ErrLeavesNothing` | rendezvous-proxy/src/lib.rs:222-228 | A listener that failed to build its request never had a connection and never gets one |
| `Proxy.ShutdownCanReturn` | rendezvous-proxy/src/lib.rs:203-318 | From every state after the call there is a continuation in which shutdown returns |
| `Proxy.ShutdownReturns` | rendezvous-proxy/src/lib.rs:153-173 | Once the listener has ended, every schedule returns from shutdown: tasks and shutdown take a bounded number of steps, and when none is left shutdown has returned |
| `ProxyFairness.FairShutdownReturns` | rendezvous-proxy/src/lib.rs:144-318 | In every run without end with a fair select, every call of shutdown returns, whatever the listener and the connections are doing when it comes |
| `ProxyTeardown.LoopLeaves` | nspawn-runner/src/main.rs:976-980 | Unless it panics, the loop over the proxies leaves every proxy down, its listener over and every task it spawned ended, also where a shutdown returned an error |
| `ProxyTeardown.ShutdownMayErr` | rendezvous-proxy/src/lib.rs:222-228 | The run in which shutdown returns an error: it is called before the listener fails to build its request |
| `Proxy.AddressWakesEveryWaiter` | rendezvous-proxy/src/lib.rs:113-142 | A caller that waits although the address is known has been notified and returns the address at its next look |
| `Proxy.LookDecides` | rendezvous-proxy/src/lib.rs:113-142 | By its last look a caller has the address announced last before it, has given up because there was none and its time was over, or waits because there was none and it had time |
| `Proxy.WokenByAnnouncement` | rendezvous-proxy/src/lib.rs:320-334 | A waiting caller is woken only by an announcement that came in while it waited |
| `Proxy.CallersAreCounted` | rendezvous-proxy/src/lib.rs:113-142 | Every call of `public_addr` has its own place among the waiters |
| `Proxy.ListenerEndHasCause` | rendezvous-proxy/src/lib.rs:203-318 | A listener ends well only by command, with an error only when its request cannot be built, in a panic only on the full counter; lost and refused streams never end it |
| `Proxy.WaitsBeforeRetry` | rendezvous-proxy/src/lib.rs:303-310 | After a lost stream the listener waits before it connects again |
| `Proxy.RelayNeedsDial` | rendezvous-proxy/src/lib.rs:392-470 | A connection relays only after its dials went well |
| `Proxy.EndingHasCause` | rendezvous-proxy/src/lib.rs:392-520 | A connection task ends in an error only if it could not be dialed or its relay failed, well only by command or a relay that ended well, and never in a panic |
| `Proxy.ShutdownFollowsListener` | rendezvous-proxy/src/lib.rs:144-152 | Shutdown panics when the listener was over at the call, and otherwise returns what the listener did |
| `Proxy.ProxyState.HandleNewConnection` | rendezvous-proxy/src/lib.rs:354-390 | Counts, spawns and enters the task in one critical section; panics on overflow |
| `Proxy.ProxyState.HandleListening` | rendezvous-proxy/src/lib.rs:320-334 | Sets the address and releases every waiter in one critical section |
| `Proxy.ProxyState.LookForAddress` | rendezvous-proxy/src/lib.rs:113-132 | Returns the address, gives up, or takes out its notification before it lets go of the lock |
| `Parameters.FormToListExactly` | coordinator/lib/treadmill_web/web_ui/board_controller.ex:137-146 | Collects exactly the pairs of fields from the index up to the first that lacks one; that the function is accepted proves it ends on every form |
| `Parameters.FormRoundTrip` | coordinator/lib/treadmill_web/web_ui/page_html/board.html.heex:76-80 | What the page shows for a list of pairs is what the next event collects |
| `Parameters.NamesInjective` | coordinator/lib/treadmill_web/web_ui/board_controller.ex:139-140 | Distinct indices and kinds have distinct field names |
| `Parameters.NamesAreDecimal` | coordinator/lib/treadmill_web/web_ui/board_controller.ex:139-140 | The fields of index N are parameter_N_key and parameter_N_value, N in decimal digits without leading zeros |
| `Parameters.ValidateExactly` | coordinator/lib/treadmill_web/web_ui/board_controller.ex:149-162 | Validation succeeds exactly when no pair has a value without a key and no key repeats; the map is then the pairs with a key, and otherwise the error is that of the first offending pair |
| `Parameters.LastRowStands` | coordinator/lib/treadmill/board/board_server.ex:110-116 | The map sent holds each key of the rows with its last row's value |
| `Parameters.SentIsValidated` | coordinator/lib/treadmill/job/job.ex:194-202 | For the rows that `instant_job` writes, in whatever order they come back, the map sent is the validated map with nothing secret |
| `Parameters.ParametersRoundTrip` | coordinator/lib/treadmill_web/web_ui/board_controller.ex:187-220 | From the page to the runner: every pair with a key arrives, not secret, and nothing else |

## Left out

- HTTP, server-sent events, WebSocket, TCP, serial lines, ZFS, mounts, signals and subprocess calls: each is an arbitrary success or failure, and posts of a runner return.
- JSON and length-delimited framing: messages are datatypes; messages that do not parse do not occur, and neither do the puppet's events and the server's error messages, which nobody waits for.
- Web pages apart from the parameter form, authentication, OAuth, logging, subscriber notifications, migrations, configuration, SSH keys in the start message.
- Runner, Composition, ControlChannel and Proxy protocols are state machines over values, one step per point where tasks may interleave; their loops and in-place updates appear as steps. What runs within one critical section is a class with methods where the source updates fields (`BoardServers.BoardServer`, `ControlChannel.ResponseTable`, `Rendezvous.RendezvousServer`, `Proxy.ProxyState`).
- Any five-second grace period from dispatch: the wait timestamp is a compile-time default.
- Dispatching after a timeout: the tick frees a slot and does not schedule, in the model as in the code.
- Agreement of the coordinator's active jobs with the runner's slot after a disconnect: the coordinator fails the jobs while the runner goes on with them.
- Deadlock freedom of `stop_job` with the control socket: it joins the socket task while it holds the lock that task may ask for.
- StopRuns.OneContainer: it counts within one runner process; a container that outlives its process is not set against the containers of the next one.
- Release of what a failed start had brought up: the runners do not release all of it.
- ChannelProgress.EveryRequestReturns: it says nothing of runs in which new requests begin for ever, where fairness would be needed.
- ProxyFairness.FairShutdownReturns: a connection that is stuck in a write before it looks at its command takes no step, which the fairness assumed for the work of tasks and shutdown excludes.
- Shutdown of the puppet's clients and of the control sockets, and reconnecting puppets.
- Which keys and network settings a runner has for a job: each serve step takes them as they are at that moment.
- Bytes of the rendezvous relay, and the accept token, which the server does not check.
- Size limits of the parameter columns.
- Two job ids equal as strings and different as binaries: ids are one type.
