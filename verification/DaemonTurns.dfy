/** The work loops of apps/distributed/worker/main.cpp and apps/standalone/main.cpp. */
module DaemonTurns {
  import opened Protocol
  import opened Backends
  import opened Registry
  import opened Throttle
  import opened Compilation
  import opened Submission
  import opened DaemonMachine
  import opened DaemonProofs
  import DaemonRuns
  import opened DaemonIo
  import opened DaemonLoop

  class Daemon {
    const io: Io
    const registry: BackendRegistry
    const throttle: PublicationThrottle
    const scheduler: Scheduler

    /** The program's own state is what the transition system says it is. */
    ghost predicate Valid()
      reads io, registry, throttle, scheduler
    {
      && io.Valid() && registry.Valid() && throttle.Valid()
      && registry.entries == io.w.own.registry && registry.ttl == io.cfg.ttl
      && throttle.lastClaimed == io.w.own.lastClaimed && throttle.interval == io.cfg.interval
      && scheduler.tasks == io.w.scheduler
    }

    /** Nothing but the flag, the loop position and the named parts moved. */
    twostate predicate Continues()
      reads io
    {
      (old(io.stop) ==> io.stop) && old(io.log) <= io.log && io.w.turns == old(io.w.turns)
      && io.patience <= old(io.patience)
    }

    /** Registers the device before serving tasks; `start` is the initial state. */
    constructor (cfg: DaemonConfig, own: Snapshot, reading: DeviceReading, clock: int, patience: nat)
      requires FromSubmitter(cfg.id, reading, cfg.dispatchQueue) == Ok(own)
      ensures Valid() && Init(cfg, io.w0) && io.w == io.w0 && io.cfg == cfg && io.log == []
      ensures fresh(io) && fresh(registry) && fresh(throttle) && fresh(scheduler)
    {
      ghost var start := State(Top, false, [], [], [], [], false, 0,
                               OwnStatus(clock, map[cfg.id := Entry(own, clock)], None, clock, [], [], []),
                               DeviceTrace([], [], []));
      assert StartsFrom(cfg, start, reading);
      var entries := new BackendRegistry(cfg.ttl);
      var accepted := entries.InsertOrRefresh(own, clock);
      registry := entries;
      throttle := new PublicationThrottle(cfg.interval);
      scheduler := new Scheduler();
      io := new Io(cfg, clock, patience, start);
    }

    /** refreshOwnDeviceStatus, the publication of its result, and the sweep. */
    method RefreshAndExpire()
      requires Valid() && io.w.pc.Claiming?
      modifies io, registry, throttle
      ensures Valid() && Continues()
      ensures io.w == old(io.w).(stop := io.stop, pc := Receiving, own := io.w.own)
    {
      hide Performed, Claims, Last, Replay, KeyedByName, Due, InsertEntry, ExpireEntries;
      var now := io.Now();
      var granted := throttle.Claim(now);
      io.Claimed(now);
      if granted {
        RefreshOwnEntry();
      }
      now := io.Now();
      var dropped := registry.Expire(now);
      io.Swept(now);
    }

    method RefreshOwnEntry()
      requires Valid() && io.w.pc.Reading? && io.w.own.lastClaimed.Some?
      modifies io, registry
      ensures Valid() && Continues()
      ensures io.w == old(io.w).(stop := io.stop, pc := Expiring, own := io.w.own)
      ensures io.w.own.lastClaimed == old(io.w.own.lastClaimed)
    {
      hide Performed, Claims, Last, Replay, KeyedByName, InsertEntry;
      var reading := io.ReadDevice();
      var refreshed := ReadSubmitter(io.cfg.id, reading, io.cfg.dispatchQueue);
      var now := io.Now();
      io.Registered(now, reading);
      if refreshed.Ok? {
        var status := PublishedStatus(refreshed.value);
        var accepted := registry.InsertOrRefresh(refreshed.value, now);
        if !io.cfg.standalone {
          io.PublishStatus(status);
        }
      }
    }

    /** The receive handler: prepare the task, or answer it. */
    method Handle(d: Delivery, ghost before: State)
      requires io.Valid() && registry.Valid() && throttle.Valid()
      requires registry.entries == before.own.registry && registry.ttl == io.cfg.ttl
      requires throttle.lastClaimed == before.own.lastClaimed && throttle.interval == io.cfg.interval
      requires scheduler.tasks == before.scheduler
      requires io.w == OnTook(io.cfg, before, d)
      modifies io, scheduler
      ensures Valid() && Continues()
      ensures io.w == before.(stop := io.stop, pc := ResumeAt(AfterHandling(io.cfg)),
                              scheduler := io.w.scheduler, replies := io.w.replies)
    {
      hide Performed, Claims, Last, Replay, KeyedByName, CompileFor, Assigned;
      var task := new TaskRef(d.task);
      var failure: Option<Error>;
      if io.cfg.standalone {
        failure := SelectCompileAndSchedule(task, d, registry, io.cfg, scheduler);
      } else {
        WorkerAssignsNothing(io.cfg, registry.entries, d);
        failure := CompileAndSchedule(task, d, registry, io.cfg, scheduler);
      }
      if failure.Some? {
        io.SendReply(task.value.resultDestination, CancelQuantumTask(task.value, failure.value));
      }
    }

    /** One receive attempt; `got` is whether a task was handled. */
    method ReceiveNext() returns (got: bool)
      requires Valid() && io.w.pc.Receiving?
      modifies io, scheduler
      ensures Valid() && Continues()
      ensures got ==> io.patience < old(io.patience)
      ensures io.w == old(io.w).(stop := io.stop, scheduler := io.w.scheduler, replies := io.w.replies,
                                 pc := if got then ResumeAt(AfterHandling(io.cfg)) else Ready)
    {
      hide Performed, Claims, Last, Replay, KeyedByName, OnTook;
      var flagged := io.Checked();
      if flagged {
        return false;
      }
      ghost var before := io.w;
      var received := io.Poll();
      if received.None? {
        return false;
      }
      Handle(received.value, before.(stop := io.stop));
      got := true;
    }

    /** The worker submits everything the scheduler has ready. */
    method SubmitReady() returns (submitted: seq<InFlight>)
      requires Valid() && !io.cfg.standalone && io.w.pc.Ready? && io.w.batch == []
      modifies io, scheduler
      ensures Valid() && Continues()
      ensures io.w.pc.Collecting? && io.w.batch == submitted
    {
      hide Performed, Claims, Last, Replay, KeyedByName, ValidateSubmission, JobsFor;
      submitted := [];
      while true
        invariant Valid() && Continues()
        invariant io.w.pc.Ready? && io.w.batch == submitted
        decreases |scheduler.tasks|
      {
        var next, index := scheduler.GetNextReadyTask();
        io.Released(scheduler, index);
        if next.None? {
          break;
        }
        ReleasedAt(next.value);
        var jobs, broke := SubmitOne(next.value);
        if broke {
          break;
        }
        if jobs.Some? {
          submitted := submitted + [InFlight(next.value, jobs.value)];
        }
      }
    }

    /** Submit one released task; a failure is answered, a shutdown breaks the loop. */
    method SubmitOne(d: Delivery) returns (jobs: Option<seq<Job>>, broke: bool)
      requires Valid() && !io.cfg.standalone && io.w.pc == ReleasedPc(d)
      modifies io
      ensures Valid() && Continues()
      ensures broke ==> jobs.None? && io.stop && io.w.pc.Collecting?
      ensures !broke ==> io.w.pc.Ready?
      ensures io.w.batch == old(io.w.batch) + if jobs.Some? then [InFlight(d, jobs.value)] else []
    {
      hide Performed, Claims, Last, Replay, KeyedByName, ValidateSubmission, JobsFor, ReleasedPc, SubmissionFormat;
      jobs, broke := None, false;
      var r, k, placement := SubmitQuantumTask(io, d);
      if r.Ok? {
        return Some(r.value), false;
      }
      if r.error.kind == ShutdownRequested {
        return None, true;
      }
      io.SendReply(d.task.resultDestination, CancelQuantumTask(d.task, r.error));
    }

    /** The worker collects the batch; shutdown abandons the rest of it. */
    method CollectAll(submitted: seq<InFlight>)
      requires Valid() && !io.cfg.standalone && io.w.pc.Collecting? && io.w.batch == submitted
      modifies io
      ensures Valid() && Continues()
      ensures io.w.pc.Top? && io.w.batch == []
    {
      hide Performed, Claims, Last, Replay, KeyedByName, BuildResult, Reported;
      for i := 0 to |submitted|
        invariant Valid() && Continues()
        invariant io.w.pc.Collecting? && io.w.batch == submitted[i..]
      {
        io.Entered();
        var broke := CollectOne(submitted[i]);
        if broke {
          return;
        }
      }
      io.Entered();
    }

    /** Collect one in-flight task and answer it; a shutdown leaves it unanswered. */
    method CollectOne(x: InFlight) returns (broke: bool)
      requires Valid() && !io.cfg.standalone && io.w.pc == WaitCheck(x, [], 0)
      modifies io
      ensures Valid() && Continues()
      ensures if broke then io.stop && io.w.pc.Top? && io.w.batch == [] && io.w.replies == old(io.w.replies)
              else io.w.pc.Collecting? && io.w.batch == old(io.w.batch) && |io.w.replies| == |old(io.w.replies)| + 1
    {
      hide Performed, Claims, Last, Replay, KeyedByName, BuildResult, Reported;
      var r, counts := CollectQuantumResult(io, x);
      var task := x.delivery.task;
      if r.Ok? {
        io.SendReply(task.resultDestination, r.value);
        return false;
      }
      if r.error.kind == ShutdownRequested {
        return true;
      }
      io.SendReply(task.resultDestination, CancelQuantumTask(task, r.error));
      broke := false;
    }

    /** One turn of the worker: refresh and publish, sweep, receive one task, submit all
        that is ready, collect all of it. */
    method WorkerTurn() returns (running: bool)
      requires Valid() && !io.cfg.standalone && io.w.pc.Top? && io.w.batch == []
      modifies io, registry, throttle, scheduler
      ensures Valid() && (old(io.stop) ==> io.stop) && old(io.log) < io.log && io.w.batch == []
      ensures running ==> io.w.pc.Top? && io.w.turns == old(io.w.turns) + 1
      ensures !running ==> io.stop && io.w.pc.Halted?
    {
      hide Performed, Claims, Last, Replay, KeyedByName;
      var flagged := io.Guarded();
      if flagged {
        scheduler.tasks := [];
        return false;
      }
      RefreshAndExpire();
      var receivedTask := ReceiveNext();
      var submitted := SubmitReady();
      CollectAll(submitted);
      running := true;
    }

    /** One turn of the standalone daemon: refresh, sweep, drain the intake, execute all
        that is ready. */
    method StandaloneTurn() returns (running: bool)
      requires Valid() && io.cfg.standalone && io.w.pc.Top? && io.w.batch == []
      modifies io, registry, throttle, scheduler
      ensures Valid() && (old(io.stop) ==> io.stop) && old(io.log) < io.log && io.w.batch == []
      ensures running ==> io.w.pc.Top? && io.w.turns == old(io.w.turns) + 1
      ensures !running ==> io.stop && io.w.pc.Halted?
    {
      hide Performed, Claims, Last, Replay, KeyedByName;
      var flagged := io.Guarded();
      if flagged {
        scheduler.tasks := [];
        return false;
      }
      RefreshAndExpire();
      DrainIntake();
      ExecuteReady();
      running := true;
    }

    method DrainIntake()
      requires Valid() && io.cfg.standalone && io.w.pc.Receiving? && io.w.batch == []
      modifies io, scheduler
      ensures Valid() && Continues() && io.w.pc.Ready? && io.w.batch == []
    {
      hide Performed, Claims, Last, Replay, KeyedByName;
      var got := true;
      while got
        invariant Valid() && Continues() && io.w.batch == []
        invariant if got then io.w.pc.Receiving? else io.w.pc.Ready?
        decreases io.patience, got
      {
        got := ReceiveNext();
      }
    }

    method ExecuteReady()
      requires Valid() && io.cfg.standalone && io.w.pc.Ready? && io.w.batch == []
      modifies io, scheduler
      ensures Valid() && Continues() && io.w.pc.Top? && io.w.batch == []
    {
      hide Performed, Claims, Last, Replay, KeyedByName, ValidateSubmission, JobsFor, Reported;
      while true
        invariant Valid() && Continues() && io.w.pc.Ready? && io.w.batch == []
        decreases |scheduler.tasks|
      {
        var next, index := scheduler.GetNextReadyTask();
        io.Released(scheduler, index);
        if next.None? {
          break;
        }
        ReleasedAt(next.value);
        var broke := ExecuteOne(next.value);
        if broke {
          break;
        }
      }
    }

    /** Execute one released task and answer it; a shutdown breaks the loop unanswered. */
    method ExecuteOne(d: Delivery) returns (broke: bool)
      requires Valid() && io.cfg.standalone && io.w.pc == ReleasedPc(d) && io.w.batch == []
      modifies io
      ensures Valid() && Continues() && io.w.batch == []
      ensures if broke then io.stop && io.w.pc.Top? && io.w.replies == old(io.w.replies)
              else io.w.pc.Ready? && |io.w.replies| == |old(io.w.replies)| + 1
    {
      hide Performed, Claims, Last, Replay, KeyedByName, ValidateSubmission, JobsFor, Reported, ReleasedPc, SubmissionFormat;
      var r, placement, counts := ExecuteQuantumTask(io, d);
      if r.Ok? {
        io.SendReply(d.task.resultDestination, r.value);
        return false;
      }
      if r.error.kind == ShutdownRequested {
        return true;
      }
      io.SendReply(d.task.resultDestination, CancelQuantumTask(d.task, r.error));
      broke := false;
    }

    /** The outer loop, for up to `n` turns: whatever the environment does, the daemon has
        performed a run of the transition system on sound deliveries, so what is proved of
        those runs holds of it; from an initial state, every reply is correlated and every
        success is its own device's. */
    method Serve(n: nat)
      requires Valid() && io.w.pc.Top? && io.w.batch == []
      modifies io, registry, throttle, scheduler
      ensures Valid() && Performed(io.cfg, io.w0, io.log, io.w) && SoundEvents(io.log)
      ensures io.w.pc.Halted? || io.w.turns == old(io.w.turns) + n
      ensures Init(io.cfg, io.w0) ==> forall r :: r in io.w.replies ==>
                Correlated(r) && (r.result.executionStatus ==> r.result.executedQpu == io.cfg.id)
    {
      hide Performed, Claims, Last, Replay, KeyedByName;
      var running, turn := true, 0;
      while running && turn < n
        invariant Valid() && io.w.batch == []
        invariant if running then io.w.pc.Top? && io.w.turns == old(io.w.turns) + turn else io.w.pc.Halted?
        invariant turn <= n
        decreases n - turn
      {
        if io.cfg.standalone {
          running := StandaloneTurn();
        } else {
          running := WorkerTurn();
        }
        turn := turn + 1;
      }
      if Init(io.cfg, io.w0) {
        ServedRepliesAreCorrelated(io);
      }
    }
  }

  lemma ServedRepliesAreCorrelated(io: Io)
    requires io.Valid() && Init(io.cfg, io.w0)
    ensures forall r :: r in io.w.replies ==>
              Correlated(r) && (r.result.executionStatus ==> r.result.executedQpu == io.cfg.id)
  {
    hide Init, Run, Exec;
    forall r | r in io.w.replies
      ensures Correlated(r) && (r.result.executionStatus ==> r.result.executedQpu == io.cfg.id)
    {
      DaemonRuns.RepliesAreCorrelated(io.cfg, io.w0, io.log, r);
    }
  }

  lemma WorkerAssignsNothing(cfg: DaemonConfig, registry: Entries, d: Delivery)
    requires !cfg.standalone
    ensures Assigned(cfg, registry, d) == Ok(d)
  {
  }

  lemma ReleasedAt(d: Delivery)
    ensures match ValidateSubmission(d.task)
            case Err(e) => ReleasedPc(d) == Replying(d, CancelQuantumTask(d.task, e), ResumeReady)
            case Ok(f) => ReleasedPc(d) == Discovering(d, f)
  {
  }
}
