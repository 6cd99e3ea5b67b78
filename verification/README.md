# QRM&CI: a verified model of the selector/worker pipeline

QRM&CI routes quantum tasks to devices. A *selector* keeps a registry of live backends from
the statuses that *workers* publish, chooses a backend for every task on the intake queue and
forwards the task to that backend's dispatch queue. A worker owns one device: it refreshes and
publishes its own status, receives one task per turn, compiles and schedules it, submits every
ready task to the device, then collects the results and answers each task's submitter. The
*standalone* daemon does all of this in one process.

The project has three layers.

* **Parts.** `Protocol`, `FormatPolicy`, `Backends`, `Registry`, `Throttle`, `Selection`,
  `Compilation`, `Submission`, `Config` and `Messaging` model the library functions. Functions
  give the meaning; the loops and the objects of the source are methods and classes proved
  against them.
* **Machines.** `DaemonMachine` (worker and standalone daemon) and `SelectorMachine` are
  labelled transition systems. An event is one flag read, one call on the device, broker or
  clock, or one internal move; everything the environment decides is carried by the event.
  `DaemonProofs`, `DaemonRuns`, `DaemonResults` and `DaemonShutdown` prove what every step and every run keeps. `Cluster` puts one
  selector and any number of daemons around one broker and proves the properties of the whole.
  `Freshness` relates a worker's
  publications to the lifetime of its entry in the selector, `Routing` follows selected tasks to
  their workers, and `Deployment` starts from accepted configurations.
* **Loops.** `DaemonLoop`, `DaemonTurns` and `SelectorLoop` are the imperative code of
  `src/Daemon.cpp`, `src/Runners.cpp` and the three `main.cpp` files. They reach the outside
  only through `DaemonIo.Io` and `SelectorLoop.SelectorIo`, which advance the machine with each
  call, so `Serve` of each program is a run of its machine on sound deliveries and the theorems
  about such runs hold of it. `Cluster.Projects` carries them over to each daemon of a cluster.

Main results, over every run:

* every delivery is in exactly one place at all times, and is answered at most once, whichever
  processes share a queue (`Cluster.EveryDeliveryIsInOnePlace`, `Cluster.SingleReply`);
* between turns without shutdown nothing is missing
  (`Cluster.AtRestEveryDeliveryIsAccountedFor`, `DaemonRuns.TurnsSettle`);
* a success always comes from the answering worker's own device, is addressed to its own
  submitter and respects the allow-list (`Cluster.NoWrongWorkerExecution`);
* the consumers of a queue are handed a prefix of what was put on it, in order, once each
  (`Cluster.QueuesAreDrainedInOrder`);
* shutdown is prompt and quiet, in a single daemon and in a cluster
  (`DaemonRuns.ShutdownIsPromptAndQuiet`, `Cluster.ShutdownIsPromptAndQuiet`), and it completes
  (`DaemonShutdown.ShutdownIsBounded`, `DaemonShutdown.NeverStuck`);
* a self-refreshing daemon never expires its own entry (`DaemonRuns.NeverExpiresItself`,
  `Deployment.ConfiguredDaemonKeepsItsEntry`), and a worker that keeps reporting stays in the
  selector's registry (`Freshness.ClusterKeepsReportingWorker`);
* with unshared dispatch queues no selected task is turned away for want of its backend
  (`Deployment.ConfiguredClusterServesSelectedTasks`);
* submission, sliced waiting and result assembly are exact (`DaemonRuns.SubmissionTraceIsExact`,
  `DaemonRuns.SlicedWaitRefinesDeadlineWait`, `DaemonRuns.AssembledResultIsTheDevices`), and
  behind every success stand the circuits put on the intake, compiled one by one, and the
  device's own reports for them (`DaemonResults.SuccessIsEarned`).

Four promises do not hold of the code everywhere; each comes with the exact condition under
which it does:

* Durations are 64-bit nanosecond counts on the clock. `src/Config.cpp` accepts a lifetime of
  9223372037 seconds, whose count does not fit; read as a wrapped value it is negative and a
  fresh entry expires at once (`Config.OverlongLifetimeExpiresFreshEntries`). The lifetime is
  honoured if and only if it fits (`Config.LifetimeIsHonouredExactlyInRange`); the job wait
  timeout has the same exact condition (`DaemonRuns.DeadlineIsHonouredExactlyInRange`).
* The registry class alone does not keep a backend's dispatch queue: a refresh with an empty
  queue is accepted and forgets it (`SelectorMachine.EmptyQueueRefreshForgetsTheQueue`). Over
  any sequence of calls, a backend accepted with a queue keeps it all through its lifetime if
  and only if no empty-queue insert of that name occurs in it
  (`Registry.QueueSticksExactlyWithoutSwitch`). The selector meets the condition, because it
  only inserts validated statuses (`SelectorMachine.ForwardsToFirstQueue`).
* The throttle bounds publication slots, at most floor(L / interval) + 1 in a window of length
  L, but not what is done in them: a slow device read followed by a quick one puts two reads and
  two publications into one instant (`DaemonRuns.SlowReadBreaksSlotBound`). At most one more
  than the slots' bound ever happens (`DaemonRuns.StatusTrafficIsBounded`). If each read comes
  between lo and hi after its slot was claimed, all runs of a daemon keep to the slots' bound if
  and only if the latency is constant (lo = hi) or never below the interval (lo >= interval), and
  the same holds of a worker's publications
  (`DaemonRuns.SlotBoundHoldsExactlyForSteadyDevices`).
* The comment at `include/qrmci/CircuitFormatPolicy.h:60` lists three compiler targets; the
  table at `src/CircuitFormatPolicy.cpp:30-39` begins with IQMJSON, and the model follows the
  table. Documented order and table choose alike if and only if the backend does not list
  IQMJSON (`FormatPolicy.DocumentedOrderHoldsWithoutIqmJson`).

`dafny verify dfyconfig.toml` checks the project.

## Model

| member | source | states |
|---|---|---|
| `Cluster.EveryDeliveryIsInOnePlace` | apps/distributed/worker/main.cpp:70-139 | In every reachable state of one selector and any number of daemons, each delivery that ever arrived is in exactly one of: a queue, a process's hand, a scheduler, an in-flight batch, answered, lost to a refused forward, abandoned; and nothing else exists |
| `Cluster.SingleReply` | include/qrmci/DaemonMessaging.h:109-128 | No two reply attempts in a run, by whichever processes, answer the same delivery |
| `Cluster.AnsweredDeliveryArrived` | include/qrmci/DaemonMessaging.h:109-128 | Every reply answers a delivery that arrived, with the task it arrived with |
| `Cluster.QueuesAreDrainedInOrder` | include/qrmci/DaemonMessaging.h:72-84 | For every queue of every run, what its consumers took, followed by what still waits, is what was put on it, in order |
| `Cluster.AtRestEveryDeliveryIsAccountedFor` | apps/distributed/worker/main.cpp:97-134 | Between turns and without shutdown each delivery is queued, scheduled, lost by a refused forward or answered: exactly one of these, exactly once |
| `Cluster.NoWrongWorkerExecution` | src/Daemon.cpp:138-151 | Whatever queues are shared, a daemon's reply belongs to its own task, and a success was executed on that daemon's device and respects the allow-list of a selected task |
| `Cluster.SelectorOnlyRefuses` | apps/distributed/selector/main.cpp:73-90 | The selector's replies are refusals, each to its own submitter |
| `Cluster.Projects` | apps/distributed/worker/main.cpp:70-139 | A daemon's part of a cluster run is a run of that daemon on sound deliveries, ending where the cluster left it |
| `Cluster.ProjectsSelector` | apps/distributed/selector/main.cpp:44-101 | The selector's part of a cluster run is a run of the selector on sound deliveries, ending where the cluster left it |
| `Cluster.ForwardsToFirstQueue` | apps/distributed/selector/main.cpp:58-95 | Cut any cluster run anywhere: while a backend stays registered it keeps the queue it had at the cut, and tasks are forwarded to it there |
| `Cluster.ShutdownIsPromptAndQuiet` | apps/distributed/worker/main.cpp:101-134 | Cut any cluster run anywhere: a daemon whose flag is set begins at most one more blocking call, one that reported shutdown sends no further reply |
| `Cluster.DaemonTheoremsHoldInClusters` | src/Daemon.cpp:91-109 | In a cluster a timely daemon keeps its own entry, and every assembled result is from the device's reports for that very delivery's jobs |
| `Cluster.StepConserves` | apps/distributed/selector/main.cpp:68-96 | One step of any process copies and drops no delivery; an arrival creates exactly one |
| `Cluster.RunKeepsInv` | apps/distributed/worker/main.cpp:59-95 | The invariants of selector, daemons and queued mail hold together in every reachable state |
| `Cluster.NoStatusIsRejected` | apps/distributed/selector/main.cpp:45-66 | With routable names and distinct device ids the selector rejects no worker status in any run and maps each id to its own worker's queue |
| `Deployment.ConfiguredDaemonKeepsItsEntry` | src/Config.cpp:501-528 | A daemon from an accepted, representable configuration, with timely sweeps and a device that answers, keeps its own entry in every run and so never refuses a task of its own for want of a backend |
| `Deployment.DaemonUsesItsSettings` | apps/distributed/worker/main.cpp:52-60 | Device id, queue, wait timeout, lifetime and interval each reach the part of the daemon they are for |
| `Deployment.ConfiguredClusterRejectsNoStatus` | src/Config.cpp:431-436 | Accepted configurations with distinct device ids are enough for no status ever to be rejected |
| `Deployment.ConfiguredClusterServesSelectedTasks` | src/Daemon.cpp:142-151 | Accepted configurations, distinct ids and unshared dispatch queues: a timely daemon never answers a delivery that selection assigned with NoBackendAvailable |
| `Routing.SelectedTasksAreNotTurnedAway` | src/Daemon.cpp:142-151 | The same from the deployment's properties, in every cluster run |
| `Routing.SelectedMailIsAddressed` | apps/distributed/selector/main.cpp:81-95 | In every run of a well-deployed cluster a selected task is only ever on the queue that its backend's worker advertises |
| `Routing.RunServes` | src/Daemon.cpp:138-169 | A timely daemon that only takes deliveries addressed to it turns no selected one away |
| `Deployment.WorkerReceive` | apps/distributed/worker/main.cpp:80-82 | Under every accepted configuration the worker's receive makes at most one transport attempt and consumes exactly what it returns |
| `DaemonProofs.StepConserves` | apps/distributed/worker/main.cpp:70-139 | Every event of a daemon's loop moves deliveries between scheduler, batch, hand, replies and abandoned without copying or dropping one |
| `DaemonProofs.RunConserves` | apps/standalone/main.cpp:67-110 | Over any run the deliveries accounted for are those there before plus those taken |
| `DaemonProofs.InitInv` | src/Daemon.cpp:80-89 | A daemon that has registered its device starts in the invariant, holding no delivery |
| `DaemonProofs.StepKeepsInv` | apps/distributed/worker/main.cpp:70-139 | Every event keeps: only the own device is registered, held tasks are the received ones assigned to it, in-flight entries have one job per circuit file and never none, replies match their tasks, and a daemon winding down can no longer reply |
| `DaemonProofs.RunKeepsInv` | apps/standalone/main.cpp:67-110 | That invariant holds after every run |
| `DaemonProofs.PreparedIsHeld` | src/Daemon.cpp:124-169 | What the receive handler schedules is the received task with only QPU, circuits and label changed, assigned to this daemon's device and within its allow-list |
| `DaemonRuns.RepliesAreCorrelated` | include/qrmci/DaemonMessaging.h:109-128 | Every reply goes to its task's result destination with that task's id and scheduled QPU; a success names the daemon's own device, one entry per circuit, and an allow-listed QPU |
| `Protocol.CancellationIsCorrelated` | src/Runners.cpp:391-401 | A refusal carries its task's id, destination and QPU, its reason, and no results |
| `DaemonRuns.MisdeliveredTaskIsRefused` | src/Daemon.cpp:138-151 | A worker that takes a task assigned elsewhere goes to answer it with NoBackendAvailable under the task's own id and changes nothing else |
| `DaemonRuns.HandledExactly` | src/Daemon.cpp:124-169 | Case by case, a received task is assigned (standalone), compiled for its backend's reading and appended to the scheduler, or answered with the reason why not |
| `DaemonRuns.FailsExactly` | src/Runners.cpp:258-371 | Event by event, where a scheduled task fails and what is answered: SubmissionFailed before all its jobs are accepted, DeviceError after, and the loop goes on with the next task |
| `DaemonRuns.ReadIsRegisteredAndPublished` | src/Daemon.cpp:99-108 | A successful re-read leaves exactly the own entry, with the fields read and the time read at, and a worker goes on to publish those fields |
| `DaemonRuns.WorkerTakesOneTaskPerTurn` | apps/distributed/worker/main.cpp:78-82 | In no run does a worker take more tasks than it has begun turns |
| `DaemonRuns.StandaloneSelectionIsAdmitted` | src/Daemon.cpp:124-136 | In the standalone daemon the chosen backend is found again, compilation never fails on the format, and the scheduled task's submission format is one the backend lists |
| `DaemonRuns.TurnsSettle` | apps/distributed/worker/main.cpp:97-134 | Over whole turns without shutdown, every delivery scheduled before or taken since is still scheduled or answered exactly once |
| `DaemonRuns.AtMostOneCallAfterStop` | src/Runners.cpp:281-293 | Once the flag is set, only a blocking call whose check had already passed still begins |
| `DaemonRuns.QuietAfterShutdown` | apps/distributed/worker/main.cpp:101-134 | After a runner has reported ShutdownRequested no reply follows in the rest of the run |
| `DaemonRuns.ShutdownIsPromptAndQuiet` | apps/standalone/main.cpp:85-104 | Cut any run anywhere: with the flag set at most one blocking call follows, and after a reported shutdown no reply does |
| `DaemonShutdown.ShutdownIsBounded` | apps/distributed/worker/main.cpp:70-139 | From any state with the flag set, every run has only so many steps left, a number linear in what is scheduled, in flight and submitted, whatever device, broker and scheduler do |
| `DaemonShutdown.NeverStuck` | apps/distributed/worker/main.cpp:70-139 | Until it has halted a daemon always has a next step: with the bound, shutdown completes |
| `DaemonShutdown.HaltsAtTheNextTurn` | apps/standalone/main.cpp:67-110 | At the head of a turn the flag ends the process and abandons what is scheduled, else the turn begins; a halted daemon does nothing more |
| `DaemonRuns.StatusTrafficIsBounded` | src/Daemon.cpp:95-108 | In any window of length L of any run at most L/interval + 1 slots are claimed and at most L/interval + 2 device re-reads and as many publications happen, failed ones included; publications never outnumber re-reads, nor these slots |
| `DaemonRuns.SlowReadBreaksSlotBound` | src/Daemon.cpp:95-108 | Every daemon has a run in which a slow re-read followed by a quick one gives two re-reads, and in a worker two publications, at one instant, where the slots' bound is one |
| `DaemonRuns.SlotBoundHoldsExactlyForSteadyDevices` | src/Daemon.cpp:95-108 | With device latencies within [lo, hi], all runs of a daemon keep re-reads (a worker: publications) to the slots' bound if and only if lo = hi or lo is at least the interval |
| `DaemonRuns.JitterBoundsStatusTraffic` | src/Daemon.cpp:95-108 | With latencies within [lo, hi], at most (L + hi - lo)/interval + 1 re-reads, and as many publications, fall in any window of length L of any run |
| `DaemonRuns.SlotsAreGrantedCalls` | src/Daemon.cpp:95-97 | In every run a daemon's slots are exactly those its throttle grants among its call times, which never go back |
| `DaemonRuns.NeverExpiresItself` | src/Daemon.cpp:91-109 | If claimed reads succeed and each sweep follows its turn's claim call within lifetime minus interval, the own entry is there after every step of every run, however long turns take |
| `DaemonRuns.SlicedWaitRefinesDeadlineWait` | src/Runners.cpp:326-360 | Waiting on a job in one-second slices ends as one wait of W seconds would, after at most W timed-out slices, in a bounded number of steps |
| `DaemonRuns.UnboundedWaitNeverTimesOut` | src/Runners.cpp:352-359 | With the default timeout of zero no number of timed-out slices ends a wait; only the job's own end decides it, in the slice in which it comes |
| `DaemonRuns.DeadlineIsHonouredExactlyInRange` | src/Runners.cpp:352-357 | The deadline test means the configured timeout at every elapsed time the clock can show if and only if the timeout's nanosecond count fits 63 bits |
| `DaemonRuns.CollectionIsBounded` | src/Runners.cpp:316-371 | Collecting n jobs without shutdown meets at most n * W timed-out slices |
| `DaemonRuns.SubmissionTraceIsExact` | src/Runners.cpp:254-307 | At every point of a submission the device has the first k circuits' jobs in order, each with that file's bytes, the label's format, the task's shots and the one placement; success means all of them and no cancel, shutdown a cancel on each of the k, refusal none |
| `DaemonRuns.RunIsTraced` | src/Runners.cpp:362-368 | Throughout any run the counts in hand are the last ones the device reported, for the jobs of the task in hand one by one |
| `DaemonRuns.RunOwnsItsJobs` | src/Runners.cpp:295-306 | In every run each job in hand or in flight is, by its handle, the one returned when that very delivery's circuit of that index was submitted; no handle stands for two submissions |
| `DaemonRuns.AssembledResultIsTheDevices` | src/Runners.cpp:362-370 | Whenever a result is assembled, job i is the one returned for this delivery's circuit i and asked for it, result entry i is the device's report for that handle, and only an oversized count can fail it: the cardinality and missing-entry failures are unreachable |
| `DaemonResults.RunIsEvidenced` | src/Runners.cpp:380-389 | In every run each success, sent or being sent, has its device reports on record, circuit by circuit, for jobs submitted for that very delivery |
| `DaemonResults.SuccessIsEarned` | src/Runners.cpp:380-389 | Behind every success of every run: the circuits as put on the intake, compiled one by one for a reading of this device (or unmodified as asked), submitted as they then stood, and result entry i the device's report for circuit i's job |
| `DaemonResults.ReportsAreReadInOrder` | apps/distributed/worker/main.cpp:118-121 | In every run reports are read in the order of submission, within and across tasks, and no job is read twice |
| `DaemonResults.HealthyTaskSucceeds` | src/Runners.cpp:380-389 | From any state with a submittable scheduled task, a device that takes its jobs, ends them and reports counts that fit leads to a success with just those counts |
| `DaemonResults.HealthySubmission` | src/Runners.cpp:277-306 | If the device takes every job, submission goes through to the last circuit |
| `DaemonResults.HealthyCollection` | src/Runners.cpp:326-370 | If every job ends and reports counts that fit, collection succeeds with just those |
| `DaemonLoop.CompileAndSchedule` | src/Daemon.cpp:138-169 | The scheduler grows by exactly the compiled task, or on failure scheduler and task are unchanged |
| `DaemonLoop.SelectCompileAndSchedule` | src/Daemon.cpp:124-136 | Selection then compilation: scheduled with the chosen QPU, or the first failure with the scheduler unchanged |
| `DaemonLoop.SubmitQuantumTask` | src/Runners.cpp:254-307 | Returns the jobs of all circuit files in order under fresh handles, or leaves exactly k submitted with all k cancelled on shutdown and none on refusal; a failed validation submits nothing |
| `DaemonLoop.SubmitCircuits` | src/Runners.cpp:277-306 | The submission loop alone, with the same outcomes from the first circuit on |
| `DaemonLoop.SubmitCircuit` | src/Runners.cpp:281-303 | One round: the next circuit's job is accepted under a fresh handle, or the submission ends as on shutdown or refusal |
| `DaemonLoop.CancelAll` | src/Runners.cpp:284-292 | A cancel is attempted on each submitted job in order and the task is abandoned |
| `DaemonLoop.AwaitJob` | src/Runners.cpp:327-360 | Waits on the job it is given, which must be the one due: ends with it done, a device failure to answer, or shutdown with the whole batch abandoned |
| `DaemonLoop.CollectJob` | src/Runners.cpp:327-367 | Waits on and reads the job it is given; its report enters the trace under that job's handle |
| `DaemonLoop.CollectQuantumResult` | src/Runners.cpp:316-371 | Result entry i is the device's report for job i, one per job; a failure leaves the task to be answered, a shutdown abandons it |
| `DaemonLoop.ExecuteQuantumTask` | src/Runners.cpp:380-389 | On success result entry i is the device's report for the job that asked for circuit i, within int32, and the device trace grew by exactly those jobs and reports |
| `DaemonTurns.Daemon.constructor` | src/Daemon.cpp:80-89 | A daemon with its own device registered is in an initial state of the machine |
| `DaemonTurns.Daemon.RefreshAndExpire` | src/Daemon.cpp:91-109 | Claim, re-read, publish and sweep keep registry and throttle equal to the machine's, and touch nothing else |
| `DaemonTurns.Daemon.ReceiveNext` | include/qrmci/DaemonMessaging.h:45-60 | One flag check and one attempt; a received task is scheduled or answered, and only scheduler and replies change |
| `DaemonTurns.Daemon.SubmitReady` | apps/distributed/worker/main.cpp:97-116 | The local vector of submitted jobs is the machine's batch when collection begins |
| `DaemonTurns.Daemon.CollectOne` | apps/distributed/worker/main.cpp:118-134 | Answers the entry once and goes on, or on shutdown answers nothing and empties the batch |
| `DaemonTurns.Daemon.WorkerTurn` | apps/distributed/worker/main.cpp:70-139 | One turn performs a run of the machine from loop head to loop head with an empty batch, or halts because the flag is set |
| `DaemonTurns.Daemon.StandaloneTurn` | apps/standalone/main.cpp:67-110 | The same for the standalone loop |
| `DaemonTurns.Daemon.ExecuteOne` | apps/standalone/main.cpp:85-104 | Answers the released task once, or on shutdown answers nothing and breaks |
| `DaemonTurns.Daemon.Serve` | apps/distributed/worker/main.cpp:70-139 | Whatever the environment does, n turns are a run of the machine on sound deliveries, ended early only by halting; every reply is correlated and every success is of the own device |
| `SelectorMachine.StepConserves` | apps/distributed/selector/main.cpp:68-96 | Each selector step neither copies nor drops a delivery: taken ones are in hand, answered, lost or passed on |
| `SelectorMachine.StepKeepsInv` | apps/distributed/selector/main.cpp:44-101 | Registry keys are the non-empty names of entries with non-empty queues, forwards go to the chosen entry's queue, replies are refusals to the right destination |
| `SelectorMachine.RunKeepsInv` | apps/distributed/selector/main.cpp:44-101 | The same after every run |
| `SelectorMachine.ChosenBackendIsRegistered` | apps/distributed/selector/main.cpp:73-95 | A task is refused only if no registered backend is eligible; otherwise it goes, with only its QPU set, to the queue of the chosen backend, which is idle or busy and large enough: the "no longer registered" answer cannot happen |
| `SelectorMachine.StepKeepsQueue` | src/BackendRegistry.cpp:27-36 | No step changes the dispatch queue of an entry that stays registered |
| `SelectorMachine.ForwardsToFirstQueue` | apps/distributed/selector/main.cpp:58-95 | From acceptance until expiry every task forwarded to a backend goes to the queue it was accepted with |
| `SelectorMachine.EmptyQueueRefreshForgetsTheQueue` | src/BackendRegistry.cpp:27-32 | At class level an empty-queue refresh lets a previously rejected queue in, or the old one back |
| `SelectorMachine.ShutdownIsBounded` | apps/distributed/selector/main.cpp:44-101 | Once the flag is set the selector has at most five steps left, in which it handles at most the message being polled |
| `SelectorLoop.Selector.DrainStatuses` | apps/distributed/selector/main.cpp:45-65 | Draining statuses keeps the registry equal to the machine's and answers and loses nothing |
| `SelectorLoop.Selector.RouteOne` | apps/distributed/selector/main.cpp:70-96 | Selection, second lookup and forward or refusal do what the machine routes; the not-found branch is dead |
| `SelectorLoop.Selector.Turn` | apps/distributed/selector/main.cpp:44-101 | One turn is a run of the selector's machine from loop head to loop head, or halts on the flag |
| `SelectorLoop.Selector.Serve` | apps/distributed/selector/main.cpp:44-101 | n turns are a run of the machine on sound deliveries, ended early only by halting, and its invariant holds |
| `Registry.RegistryRefinesLog` | src/BackendRegistry.cpp:22-43 | After any calls a name is held with (snapshot, stamp) exactly when that is its last accepted insert and no later sweep found it too old |
| `Registry.LiveStep` | src/BackendRegistry.cpp:22-43 | How one more call changes what the log says is live, in both directions |
| `Registry.AcceptedIsNotRejected` | src/BackendRegistry.cpp:27-32 | An insert is accepted by the log's own account exactly when the map shows no queue conflict |
| `Registry.RefreshKeepsQueue` | src/BackendRegistry.cpp:27-36 | One refresh leaves a backend's queue if and only if it is as empty, or as non-empty, as the known one |
| `Registry.QueueSticksExactlyWithoutSwitch` | src/BackendRegistry.cpp:22-43 | Over any calls a backend keeps its first queue all through a lifetime if and only if no insert in it switches between empty and non-empty: for one accepted with a queue, if and only if no empty-queue insert occurs |
| `Registry.BackendRegistry.InsertOrRefresh` | src/BackendRegistry.cpp:22-37 | Rejects exactly a conflicting non-empty queue and then leaves the entry and its stamp; otherwise stores the snapshot; extends the log |
| `Registry.BackendRegistry.Expire` | src/BackendRegistry.cpp:39-43 | Keeps exactly the entries within the time-to-live and returns the exact number dropped |
| `Registry.FindAnswersFromTheLog` | src/BackendRegistry.cpp:45-53 | A lookup returns a snapshot exactly when the log says that snapshot is live under that name |
| `Throttle.PublicationThrottle.Claim` | include/qrmci/PublicationThrottle.h:50-56 | Grants exactly when no slot was taken within the interval and extends the history of slots by it |
| `Throttle.ClaimsAreSpaced` | include/qrmci/PublicationThrottle.h:50-56 | For any call times the granted ones are pairwise at least one interval apart |
| `Throttle.PublicationBound` | include/qrmci/PublicationThrottle.h:41-56 | At most floor(L / interval) + 1 slots fall in any window of length L |
| `Throttle.ClaimGaps` | include/qrmci/PublicationThrottle.h:50-56 | With calls at most g apart, consecutive slots are less than interval + g apart and the last call trails the last slot by less than an interval |
| `Throttle.ActBound` | src/Daemon.cpp:95-108 | What is done in slots, each after its claim and before the next, falls at most floor(L / interval) + 2 times into a window of length L |
| `Throttle.SlotBoundHoldsExactlyForSteadyLatency` | src/Daemon.cpp:95-108 | The bound with + 1 holds of everything done in slots with a latency within [lo, hi] if and only if lo = hi or lo is at least the interval |
| `Throttle.JitterBound` | src/Daemon.cpp:95-108 | Latencies within [lo, hi] allow at most floor((L + hi - lo) / interval) + 1 acts in a window of length L |
| `Freshness.SelectorReplaysItsCalls` | apps/distributed/selector/main.cpp:45-66 | In every run the selector's registry is the replay of its inserts and sweeps, in rising time |
| `Freshness.DaemonReplaysItsCalls` | src/Daemon.cpp:80-109 | In every run a daemon's registry is the replay of its registration, its successful re-reads and its sweeps |
| `Freshness.StaysSince` | src/BackendRegistry.cpp:34-43 | An accepted status keeps its backend registered until the lifetime has passed |
| `Freshness.ReportingWorkerStaysRegistered` | include/qrmci/BackendRegistry.h:43-46 | A worker whose loop comes round every g and whose slots' statuses are absorbed within a delay stays registered if the lifetime is at least interval + g + delay |
| `Freshness.SelectorKeepsReportingWorker` | apps/distributed/selector/main.cpp:45-66 | The same in every run of the selector |
| `Freshness.InsertsAreAdvertised` | apps/distributed/selector/main.cpp:45-65 | In every run of a well-deployed cluster the selector only inserts what some worker advertises |
| `Freshness.ClusterKeepsReportingWorker` | apps/distributed/worker/main.cpp:70-76 | In a cluster run, a worker whose own loop comes round every g and whose granted slots' statuses are absorbed within a delay is registered with the selector, if the lifetime is at least interval + g + delay |
| `Selection.PolicyIsTotalOrder` | src/Runners.cpp:41-58 | Each policy is asymmetric, transitive and total on differently named backends |
| `Selection.LexIsFirstDifference` | src/Runners.cpp:57 | A name is less than another by the first place where they differ, or as its proper prefix |
| `Selection.BestIsUnique` | src/Runners.cpp:85-94 | At most one eligible backend beats all others |
| `Selection.BestExists` | src/Runners.cpp:85-94 | If any backend is eligible, one beats all others |
| `Selection.ChooseIsOptimal` | src/Runners.cpp:71-101 | The preferred backend if eligible, else the unique best one; none exactly when none is eligible; always a registered name |
| `Selection.ChoiceIsExact` | src/Runners.cpp:41-101 | In the policies' own terms: a registered, eligible preferred backend; else the eligible one of lowest name, or the smallest eligible one and of those the one of lowest name; nothing if and only if none is eligible |
| `Selection.AddingABackend` | src/Runners.cpp:71-101 | A new ineligible backend changes nothing, a new eligible one can only take over |
| `Selection.ScanBackends` | include/qrmci/BackendRegistry.h:125-129 | The scan finds the best eligible backend whatever order it visits the entries in |
| `Selection.ChooseBackend` | src/Runners.cpp:71-101 | Returns that choice, idle or busy, large enough and preferable to every other eligible backend, or NoBackendAvailable |
| `FormatPolicy.FirstTargetIsEarliest` | src/CircuitFormatPolicy.cpp:74-83 | The chosen target is offered and nothing earlier in the table is; none exactly when nothing is offered |
| `FormatPolicy.ChosenTarget` | src/CircuitFormatPolicy.cpp:30-39 | Format by format, which compiler format, circuit format and label a backend gets, and that a backend without any of the four gets none |
| `FormatPolicy.LabelMeanings` | src/CircuitFormatPolicy.cpp:41-72 | Both ways, which task labels stand for which submission format and which are compiler inputs under which compiler name |
| `FormatPolicy.AdmissionIsExact` | src/CircuitFormatPolicy.cpp:103-118 | Admission of an unmodified task means a known, listed format; of any other, a compiler input and one of the four compiler formats in the list |
| `FormatPolicy.DocumentedOrderHoldsWithoutIqmJson` | include/qrmci/CircuitFormatPolicy.h:60 | The documented order chooses like the table if and only if the backend does not list IQM JSON |
| `FormatPolicy.TargetLabelAgrees` | src/CircuitFormatPolicy.cpp:30-72 | A target's label maps back to the very format the backend listed and is never a compiler input |
| `FormatPolicy.AdmissionSeesKnownFormatsOnly` | src/CircuitFormatPolicy.cpp:103-118 | Unknown formats, order and repetition in a backend's list never change admission or target |
| `Backends.WrapMessage` | src/BackendWrapper.cpp:87-105 | The constructor's loops produce the message's content with unknown enumerators unspecified |
| `Backends.ReadPublishedStatus` | src/BackendWrapper.cpp:107-125 | Rejects exactly an empty name or queue, otherwise wraps the message |
| `Backends.ReadSubmitter` | src/BackendWrapper.cpp:27-85 | Fails with DeviceError if and only if a query fails, except that an unsupported coupling map reads as empty; counts are narrowed to 32 bits |
| `Backends.ReadingIsReported` | src/BackendWrapper.cpp:27-85 | A snapshot says, field by field, what the device answered, under the device's id and queue; it exists if and only if every query but an unsupported coupling map was answered |
| `Backends.EligibilityIsExact` | src/BackendWrapper.cpp:152-170 | Eligible means idle or busy, at least as many qubits as the task asks for and not fewer than none, allowed, and able to take the format |
| `Backends.PublishedStatus` | src/BackendWrapper.cpp:127-150 | The loops publish every field and list in full |
| `Backends.StatusRoundTrip` | src/BackendWrapper.cpp:87-150 | Unwrapping a wrapped message normalises it, unknown enumerators becoming unspecified; normalisation is idempotent; every field stands under its own name on the wire; a snapshot survives the trip unchanged if and only if it has no unknown type, status or format |
| `Backends.SelectorAgreesWithPublisher` | src/ConstantsMapping.cpp:66-89 | The selector's copy and the publisher's snapshot agree on online, canRun and compiler target, whatever enumerators the device reports |
| `Compilation.CompilesEachOrFirstFailure` | src/Runners.cpp:141-169 | Success compiles circuit i into place i for all i; failure is the first failing circuit's, all earlier ones having compiled |
| `Compilation.CompilationIsExact` | src/Runners.cpp:103-184 | An unmodified task stays as it is; any other carries, at every index, the compiler's code for that circuit, for that backend, level and target, under the target's label and with nothing else changed, or fails on its format, its level, or its first bad circuit, named by its index |
| `Compilation.CompileQuantumTask` | src/Runners.cpp:103-184 | All or nothing: success changes circuits and label only, any failure leaves every field as it was |
| `Compilation.CompileStaged` | src/Runners.cpp:135-169 | The staging loop returns all compiled circuits or the first failure |
| `Compilation.ReplaceCircuits` | src/Runners.cpp:171-173 | Circuit by circuit overwriting replaces exactly the circuit list |
| `Compilation.AdmissionIsSound` | src/Runners.cpp:106-121 | A modifiable task is refused for its format exactly when admission refuses it; an admitted, compiled or untouched task is later submitted in a format the backend lists |
| `Compilation.NeverCompiledTwice` | src/CircuitFormatPolicy.cpp:41-47 | Compiling a compiled task fails with UnsupportedFormat for any backend and compiler |
| `Compilation.CompilationKeepsIdentity` | src/Runners.cpp:171-178 | Only circuits and type label change, and the number of circuits does not |
| `Compilation.CompileErrorKinds` | src/Runners.cpp:103-184 | Compilation fails only with UnsupportedFormat or CompilationFailed |
| `Submission.PayloadIsFaithful` | src/TaskSubmission.cpp:46-57 | The payload is the file byte by byte, negative chars 256 higher; distinct files have distinct payloads |
| `Submission.SubmissionIsExact` | src/TaskSubmission.cpp:20-57 | A task can be submitted if and only if it has circuits, a positive shot count and a label with a format; its requests then carry each file's bytes, that format and that shot count |
| `Submission.PlacementIsExact` | src/Runners.cpp:263-273 | Jobs go to the driver's first child, to the device itself if there is none or children are not supported, and nowhere if asking fails otherwise |
| `Submission.ResultIsExact` | src/Runners.cpp:192-246 | A result has entry i equal to histogram entry i under the task's own ids and all counts within int32; a failure is a device error that names the first missing or oversized entry, or none if the number of entries is wrong |
| `Submission.BuildQuantumResult` | src/Runners.cpp:192-246 | One entry per circuit, or the first entry that is missing or does not fit, or a cardinality failure |
| `Submission.FitsWire` | src/Runners.cpp:209-224 | True exactly when the entry is present and every count is within int32 |
| `Submission.CopyCounts` | src/Runners.cpp:238-243 | Narrowing to int32 changes no count that passed validation |
| `Submission.AssemblyPreservesCounts` | src/Runners.cpp:192-246 | With one report per circuit the result is exactly those reports, and only a count above INT32_MAX can fail it |
| `Messaging.Channel.Receive` | include/qrmci/CommunicationHandler.h:141-179 | Consumes exactly what it returns, makes one attempt unless told to wait forever, none when the flag is set, and returns nothing only on the flag or a timed-out attempt, an error only on a broken one |
| `Messaging.Channel.DrainQueue` | include/qrmci/DaemonMessaging.h:72-84 | The handler gets exactly the consumed prefix of the queue, in order, once each; nothing when the flag is set first; it stops only on the flag, an empty poll or a broker failure |
| `Config.AcceptedConfiguration` | src/Config.cpp:480-528 | Accepted means routable names, no negative timeout and, for representable lifetimes, a positive interval shorter than the lifetime on the clock |
| `Config.SettingsComeFromTheirKeys` | src/Config.cpp:98-156 | A configuration is accepted with given settings if and only if each comes from its own key (environment over file over default for the names), is in its range, and the lifetime exceeds the interval |
| `Config.ConversionIsExactInRange` | src/Config.cpp:519-528 | A 64-bit duration count is exact precisely within its range |
| `Config.LifetimeIsHonouredExactlyInRange` | src/BackendRegistry.cpp:39-43 | Sweeps honour the configured lifetime at every age the clock can show if and only if its nanosecond count fits 63 bits |
| `Config.OverlongLifetimeExpiresFreshEntries` | src/Config.cpp:501-528 | A lifetime of 9223372037 seconds is accepted and expires a fresh entry at once |

## Left out

- MQSSCompiler: an arbitrary function from source, backend, level and target to code, a refusal or an exception; a compiler whose answer changes between equal calls is not covered.
- Device, jobs and drivers: every answer is nondeterministic; only the trace of submits, cancels and reported counts is kept. What a device does with a cancelled or dropped job is not modelled.
- The scheduler's priority order: its library is not part of this model; it releases some task or none.
- RabbitMQ transport, serialization and acknowledgement failures: queues are sequences, a send may fail, an acknowledged message is gone; a redelivery would be a new delivery. The status queue is one sequence and carries only what workers of the cluster publish.
- Strings are sequences of characters compared by code; the source compares bytes, which is the same order for UTF-8.
- Error texts and labels: an error keeps its kind and the circuit index it names, when it names one.
- TOML parsing, file discovery, logging, signal installation, process exit codes and the sleep between idle turns.
- `assembleConfig`'s other fields: they constrain nothing the protocol relies on.
- Signed overflow of chrono conversions is undefined in C++; the model wraps it at 64 bits, which is what common targets compute. 
- The device's current load is carried verbatim as an opaque number.
- Startup failures: a daemon whose device cannot be opened or read once exits before serving; the machine begins after a successful registration.
- The uninterruptible overloads of submit, collect and execute, which pass a flag that is never set.
- DaemonTurns.Daemon.Serve: covers turns that end; an unbounded job wait that never returns, or an endless stream of messages into a drained queue, ends in the model when the flag is eventually set, after an arbitrary number (`patience`) of flag reads.
- SelectorLoop.Selector.Serve: covers turns that end, in the same way.
- Messaging.Channel.Receive: the transport functions are proved on a queue of their own; the work loops see the same flag read and attempt as two events of their machines, since a signal may fall between them.
- Backends.ReadSubmitter: all query failures are one DeviceError value; which query failed is only in the error text.
- Freshness.ReportingWorkerStaysRegistered: puts worker and selector clocks on one time line; clock drift between hosts belongs to the delay.
- Freshness.SelectorKeepsReportingWorker: the call times are any sequence here; Freshness.ClusterKeepsReportingWorker takes them from the worker's own run.
- DaemonLoop.ExecuteQuantumTask: stated as the standalone daemon calls it, its only caller with a termination flag.
- DaemonRuns.SlicedWaitRefinesDeadlineWait: assumes, as the slice length says, that a timed-out slice lasts exactly one second, and a timeout within the clock's range.
