/** src/Daemon.cpp, the runners of src/Runners.cpp and the two work loops, as code. Acting
    only through Io, every turn is a run of DaemonMachine on sound deliveries, so the
    theorems about such runs hold of it; the contracts here say which run each function
    performs. */
module DaemonLoop {
  import opened Protocol
  import opened Registry
  import opened Selection
  import opened Compilation
  import opened Submission
  import opened DaemonMachine
  import opened DaemonIo

  /** compileAndSchedule: the scheduler grows by exactly the compiled task, or not at all,
      and then the task is as it was. */
  method CompileAndSchedule(task: TaskRef, d: Delivery, registry: BackendRegistry, cfg: DaemonConfig, scheduler: Scheduler)
    returns (failure: Option<Error>)
    requires registry.Valid()
    modifies task, scheduler
    ensures match CompileFor(cfg, registry.entries, old(task.value))
            case Ok(t) => failure == None && task.value == t && scheduler.tasks == old(scheduler.tasks) + [d.(task := t)]
            case Err(e) => failure == Some(e) && task.value == old(task.value) && scheduler.tasks == old(scheduler.tasks)
  {
    hide CompileTask;
    var backend := registry.Find(task.value.scheduledQpu);
    if backend.None? {
      return Some(Error(NoBackendAvailable, None));
    }
    failure := CompileQuantumTask(task, backend.value, cfg.inputs, cfg.compiler);
    if failure.None? {
      scheduler.ScheduleTask(d.(task := task.value));
    }
  }

  /** selectCompileAndSchedule: the standalone daemon's intake stage. */
  method SelectCompileAndSchedule(
    task: TaskRef, d: Delivery, registry: BackendRegistry, cfg: DaemonConfig, scheduler: Scheduler)
    returns (failure: Option<Error>)
    requires registry.Valid() && cfg.standalone && d.task == task.value
    modifies task, scheduler
    ensures match Assigned(cfg, registry.entries, d)
            case Err(e) => failure == Some(e) && task.value == old(task.value) && scheduler.tasks == old(scheduler.tasks)
            case Ok(a) =>
              match CompileFor(cfg, registry.entries, a.task)
              case Ok(t) => failure == None && scheduler.tasks == old(scheduler.tasks) + [a.(task := t)]
              case Err(e) => failure == Some(e) && task.value == a.task && scheduler.tasks == old(scheduler.tasks)
  {
    hide Choose, CompileFor;
    var chosen := ChooseBackend(task.value, registry, cfg.policy, cfg.inputs);
    if chosen.Err? {
      return Some(chosen.error);
    }
    task.value := task.value.(scheduledQpu := chosen.value);
    failure := CompileAndSchedule(task, d.(selected := true), registry, cfg, scheduler);
  }

  /** What getNextReadyTask's release leaves the loop at. */
  function ReleasedPc(d: Delivery): Pc {
    match ValidateSubmission(d.task)
    case Err(e) => Replying(d, CancelQuantumTask(d.task, e), ResumeReady)
    case Ok(format) => Discovering(d, format)
  }

  /** How submitQuantumTask ends. `k` jobs reached the device, circuits 0..k-1 in order under
      fresh handles: all of them on success, and then none is cancelled; on shutdown a
      cancel was attempted on each, in order; otherwise none is cancelled. */
  predicate SubmissionEnds(
    cfg: DaemonConfig, before: State, d: Delivery, format: CircuitFormat, placement: Placement, k: nat,
    r: Result<seq<Job>>, after: State)
  {
    k <= |d.task.circuitFiles| &&
    var jobs := JobsFor(d.task, format, placement, |before.device.submitted|, k);
    var w := WithSubmitted(before, after.stop, d, jobs);
    match r
    case Ok(js) =>
      && js == jobs && k == |d.task.circuitFiles| > 0
      && after == if cfg.standalone then w.(pc := WaitCheck(InFlight(d, js), [], 0))
                  else w.(pc := Ready, batch := w.batch + [InFlight(d, js)])
    case Err(e) =>
      if e.kind == ShutdownRequested then
        && after.stop && k < |d.task.circuitFiles|
        && after == w.(pc := if cfg.standalone then Top else Collecting, quiet := true,
                       abandoned := w.abandoned + [d],
                       device := w.device.(cancelled := w.device.cancelled + jobs))
      else
        after == w.(pc := Replying(d, CancelQuantumTask(d.task, e), ResumeReady))
  }

  /** submitQuantumTask; a failed validation or discovery submits nothing. */
  method SubmitQuantumTask(io: Io, d: Delivery)
    returns (r: Result<seq<Job>>, ghost k: nat, ghost placement: Placement)
    requires io.Valid() && io.w.pc == ReleasedPc(d)
    modifies io
    ensures io.Valid() && (old(io.stop) ==> io.stop) && old(io.log) <= io.log
    ensures io.patience <= old(io.patience) && io.clock == old(io.clock)
    ensures SubmissionEnds(io.cfg, old(io.w), d, SubmissionFormat(d.task), placement, k, r, io.w)
    ensures ValidateSubmission(d.task).Err? ==> r.Err? && k == 0
  {
    hide Performed, ValidateSubmission;
    k, placement := 0, Self;
    NoJobsYet(io.w, d, SubmissionFormat(d.task), placement);
    var format := ValidateSubmission(d.task);
    if format.Err? {
      ValidationFailure(d.task);
      return Err(format.error), k, placement;
    }
    ValidatedFormat(d.task);
    var children := io.AskChildren();
    var placed := PlacementFor(children);
    if placed.Err? {
      return Err(placed.error), k, placement;
    }
    placement := placed.value;
    r, k := SubmitCircuits(io, d, format.value, placed.value);
  }

  /** The submission loop, one job per circuit file. */
  method SubmitCircuits(io: Io, d: Delivery, format: CircuitFormat, placement: Placement)
    returns (r: Result<seq<Job>>, ghost k: nat)
    requires io.Valid() && io.w.pc == SubmitCheck(d, format, placement, []) && d.task.circuitFiles != []
    modifies io
    ensures io.Valid() && (old(io.stop) ==> io.stop) && old(io.log) <= io.log
    ensures io.patience <= old(io.patience) && io.clock == old(io.clock)
    ensures SubmissionEnds(io.cfg, old(io.w), d, format, placement, k, r, io.w)
  {
    hide Performed, RequestFor, JobsFor, SubmittedSoFar;
    ghost var before := io.w;
    k := 0;
    StartsSubmitting(io.cfg, before, d, format, placement);
    var jobs: seq<Job> := [];
    for i := 0 to |d.task.circuitFiles|
      invariant io.Valid() && (old(io.stop) ==> io.stop) && old(io.log) <= io.log
      invariant io.patience <= old(io.patience) && io.clock == old(io.clock)
      invariant k == i == |jobs| && jobs == JobsFor(d.task, format, placement, |before.device.submitted|, i)
      invariant io.w == SubmittedSoFar(io.cfg, before, io.stop, d, format, placement, jobs)
    {
      var job := SubmitCircuit(io, d, format, placement, jobs, before);
      if job.Err? {
        return Err(job.error), k;
      }
      jobs := jobs + [job.value];
      k := i + 1;
    }
    AllSubmitted(io.cfg, before, io.stop, d, format, placement, jobs);
    return Ok(jobs), k;
  }

  lemma StartsSubmitting(cfg: DaemonConfig, w: State, d: Delivery, f: CircuitFormat, p: Placement)
    requires w.pc == SubmitCheck(d, f, p, []) && d.task.circuitFiles != []
    ensures JobsFor(d.task, f, p, |w.device.submitted|, 0) == []
    ensures w == SubmittedSoFar(cfg, w, w.stop, d, f, p, [])
  {
    NoJobsYet(w, d, f, p);
  }

  lemma AllSubmitted(
    cfg: DaemonConfig, before: State, stop: bool, d: Delivery, f: CircuitFormat, p: Placement, jobs: seq<Job>)
    requires |jobs| == |d.task.circuitFiles| > 0 && jobs == JobsFor(d.task, f, p, |before.device.submitted|, |jobs|)
    ensures SubmissionEnds(cfg, before, d, f, p, |jobs|, Ok(jobs), SubmittedSoFar(cfg, before, stop, d, f, p, jobs))
  {
  }

  /** One round of that loop: read the flag, then submit the next circuit. */
  method SubmitCircuit(
    io: Io, d: Delivery, format: CircuitFormat, placement: Placement, jobs: seq<Job>, ghost before: State)
    returns (r: Result<Job>)
    requires io.Valid() && |jobs| < |d.task.circuitFiles|
    requires jobs == JobsFor(d.task, format, placement, |before.device.submitted|, |jobs|)
    requires io.w == SubmittedSoFar(io.cfg, before, io.stop, d, format, placement, jobs)
    modifies io
    ensures io.Valid() && (old(io.stop) ==> io.stop) && old(io.log) <= io.log
    ensures io.patience <= old(io.patience) && io.clock == old(io.clock)
    ensures match r
            case Ok(job) =>
              && jobs + [job] == JobsFor(d.task, format, placement, |before.device.submitted|, |jobs| + 1)
              && io.w == SubmittedSoFar(io.cfg, before, io.stop, d, format, placement, jobs + [job])
            case Err(e) => SubmissionEnds(io.cfg, before, d, format, placement, |jobs|, Err(e), io.w)
  {
    hide Performed, RequestFor, OnAccepted, JobsFor, SubmissionsOf;
    var flagged := io.Checked();
    if flagged {
      CancelAll(io, d, jobs);
      return Err(Error(ShutdownRequested, None));
    }
    SizeOfTrace(before, d, jobs);
    var job := io.SubmitJob(RequestFor(d.task, format, |jobs|), placement);
    if job.None? {
      return Err(Error(SubmissionFailed, None));
    }
    OneMoreJob(d.task, format, placement, |before.device.submitted|, |jobs|);
    AcceptedSoFar(io.cfg, before, io.stop, d, format, placement, jobs, job.value);
    return Ok(job.value);
  }

  lemma SizeOfTrace(w: State, d: Delivery, jobs: seq<Job>)
    ensures forall stop :: |WithSubmitted(w, stop, d, jobs).device.submitted| == |w.device.submitted| + |jobs|
  {
  }

  /** Best-effort cancellation of what was already submitted, then giving up the task. */
  method CancelAll(io: Io, d: Delivery, jobs: seq<Job>)
    requires io.Valid() && io.stop && io.w.pc == Cancelling(d, jobs)
    modifies io
    ensures io.Valid() && io.stop && old(io.log) <= io.log
    ensures io.patience <= old(io.patience) && io.clock == old(io.clock)
    ensures io.w == old(io.w).(pc := if io.cfg.standalone then Top else Collecting, quiet := true,
                               abandoned := old(io.w).abandoned + [d],
                               device := old(io.w).device.(cancelled := old(io.w).device.cancelled + jobs))
  {
    hide Performed;
    ghost var before := io.w;
    for c := 0 to |jobs|
      invariant io.Valid() && io.stop && old(io.log) <= io.log
      invariant io.patience <= old(io.patience) && io.clock == old(io.clock)
      invariant io.w == before.(pc := Cancelling(d, jobs[c..]),
                                device := before.device.(cancelled := before.device.cancelled + jobs[..c]))
    {
      io.CancelJob(jobs[c]);
      assert jobs[..c] + [jobs[c]] == jobs[..c + 1] && jobs[c..][1..] == jobs[c + 1..];
    }
    assert jobs[..|jobs|] == jobs && jobs[|jobs|..] == [];
    io.Abandoned();
  }

  function SubmissionFormat(t: QuantumTask): CircuitFormat {
    match ValidateSubmission(t)
    case Ok(f) => f
    case Err(_) => FormatUnspecified
  }

  lemma ValidationFailure(t: QuantumTask)
    ensures ValidateSubmission(t).Err? ==> ValidateSubmission(t).error == Error(SubmissionFailed, None)
  {
  }

  lemma ValidatedFormat(t: QuantumTask)
    ensures ValidateSubmission(t).Ok? ==> t.circuitFiles != []
  {
  }

  lemma OneMoreJob(t: QuantumTask, f: CircuitFormat, p: Placement, first: nat, i: nat)
    requires i < |t.circuitFiles|
    ensures JobsFor(t, f, p, first, i + 1) == JobsFor(t, f, p, first, i) + [Job(first + i, RequestFor(t, f, i), p)]
  {
  }

  lemma NoJobsYet(w: State, d: Delivery, f: CircuitFormat, p: Placement)
    ensures JobsFor(d.task, f, p, |w.device.submitted|, 0) == []
    ensures forall stop :: WithSubmitted(w, stop, d, []) == w.(stop := stop)
  {
    assert SubmissionsOf(d, []) == [];
  }

  /** `jobs` were returned for `d`, nothing else happened. */
  function WithSubmitted(w: State, stop: bool, d: Delivery, jobs: seq<Job>): State {
    w.(stop := stop, device := w.device.(submitted := w.device.submitted + SubmissionsOf(d, jobs)))
  }

  /** The machine after `jobs` were accepted for `d`. */
  function SubmittedSoFar(
    cfg: DaemonConfig, before: State, stop: bool, d: Delivery, f: CircuitFormat, p: Placement, jobs: seq<Job>): State
  {
    var w := WithSubmitted(before, stop, d, jobs);
    if |jobs| < |d.task.circuitFiles| then w.(pc := SubmitCheck(d, f, p, jobs))
    else if cfg.standalone then w.(pc := WaitCheck(InFlight(d, jobs), [], 0))
    else w.(pc := Ready, batch := w.batch + [InFlight(d, jobs)])
  }

  lemma AcceptedSoFar(
    cfg: DaemonConfig, before: State, stop: bool, d: Delivery, f: CircuitFormat, p: Placement, jobs: seq<Job>, job: Job)
    requires |jobs| < |d.task.circuitFiles|
    ensures var w := SubmittedSoFar(cfg, before, stop, d, f, p, jobs);
            OnAccepted(cfg, w.(pc := Submitting(d, f, p, jobs)), job) ==
              SubmittedSoFar(cfg, before, stop, d, f, p, jobs + [job])
  {
    assert SubmissionsOf(d, jobs + [job]) == SubmissionsOf(d, jobs) + [Submitted(d, |jobs|, job)];
  }

  /** A runner reported shutdown while `x` was being collected. */
  function WoundUp(w: State, x: InFlight): State {
    w.(pc := Top, quiet := true, batch := [], abandoned := w.abandoned + [x.delivery] + Carried(w.batch))
  }

  /** collectQuantumResult's wait for `job`: slices until it is done, fails, runs out of
      its time or shutdown is requested. */
  method AwaitJob(io: Io, job: Job, ghost x: InFlight, ghost counts: seq<Counts>) returns (failure: Option<Error>)
    requires io.Valid() && io.w.pc == WaitCheck(x, counts, 0) && Expects(x, counts, job)
    modifies io
    ensures io.Valid() && (old(io.stop) ==> io.stop) && old(io.log) <= io.log
    ensures io.patience <= old(io.patience) && io.clock == old(io.clock)
    ensures var w := old(io.w).(stop := io.stop);
            match failure
            case None => io.w == w.(pc := Counting(x, counts))
            case Some(e) =>
              if e.kind == ShutdownRequested then io.stop && io.w == WoundUp(w, x)
              else io.w == Fail(w, x.delivery, e, AfterCollecting(io.cfg))
  {
    hide Performed;
    var elapsed := 0;
    while true
      invariant io.Valid() && (old(io.stop) ==> io.stop) && old(io.log) <= io.log
      invariant io.patience <= old(io.patience) && io.clock == old(io.clock)
      invariant io.w == old(io.w).(stop := io.stop, pc := WaitCheck(x, counts, elapsed))
      decreases io.patience
    {
      var flagged := io.Checked();
      if flagged {
        return Some(Error(ShutdownRequested, None));
      }
      var outcome, lasted := io.WaitSlice(job);
      if outcome.Done? {
        return None;
      }
      elapsed := elapsed + lasted;
      if !outcome.TimedOut? || OutOfTime(io.cfg, elapsed) {
        return Some(Error(DeviceError, None));
      }
    }
  }

  /** Wait for `job`, then read its counts. */
  method CollectJob(io: Io, job: Job, ghost x: InFlight, ghost counts: seq<Counts>) returns (r: Result<Counts>)
    requires io.Valid() && io.w.pc == WaitCheck(x, counts, 0) && Expects(x, counts, job)
    modifies io
    ensures io.Valid() && (old(io.stop) ==> io.stop) && old(io.log) <= io.log
    ensures io.patience <= old(io.patience) && io.clock == old(io.clock)
    ensures var w := old(io.w).(stop := io.stop);
            match r
            case Ok(c) =>
              io.w == w.(pc := WaitCheck(x, counts + [c], 0),
                         device := w.device.(counted := w.device.counted + [(job, c)]))
            case Err(e) =>
              if e.kind == ShutdownRequested then io.stop && io.w == WoundUp(w, x)
              else io.w == Fail(w, x.delivery, e, AfterCollecting(io.cfg))
  {
    hide Performed;
    var failure := AwaitJob(io, job, x, counts);
    if failure.Some? {
      return Err(failure.value);
    }
    var reported := io.ReadCounts(job);
    if reported.None? {
      return Err(Error(DeviceError, None));
    }
    return Ok(reported.value);
  }

  function Reported(jobs: seq<Job>, counts: seq<Counts>): seq<(Job, Counts)>
    requires |counts| <= |jobs|
  {
    seq(|counts|, i requires 0 <= i < |counts| => (jobs[i], counts[i]))
  }

  function Collected(w: State, stop: bool, x: InFlight, counts: seq<Counts>): State
    requires |counts| <= |x.jobs|
  {
    w.(stop := stop, device := w.device.(counted := w.device.counted + Reported(x.jobs, counts)))
  }

  /** collectQuantumResult: `counts` is what the device reported, job by job; a result is
      assembled from all of them and nothing else. */
  method CollectQuantumResult(io: Io, x: InFlight) returns (r: Result<QuantumResult>, ghost counts: seq<Counts>)
    requires io.Valid() && io.w.pc == WaitCheck(x, [], 0)
    modifies io
    ensures io.Valid() && (old(io.stop) ==> io.stop) && old(io.log) <= io.log
    ensures io.patience <= old(io.patience) && io.clock == old(io.clock)
    ensures |counts| <= |x.jobs|
    ensures var w := Collected(old(io.w), io.stop, x, counts);
            match r
            case Ok(result) =>
              && |counts| == |x.jobs|
              && BuildResult(x.delivery.task, Present(counts)) == Ok(result)
              && |result.results| == |counts| && (forall i :: 0 <= i < |counts| ==> result.results[i] == counts[i])
              && io.w == w.(pc := Replying(x.delivery, result, AfterCollecting(io.cfg)))
            case Err(e) =>
              if e.kind == ShutdownRequested then io.stop && io.w == WoundUp(w, x)
              else io.w == Fail(w, x.delivery, e, AfterCollecting(io.cfg))
  {
    hide Performed, BuildResult, Reported;
    var histogram: seq<Counts> := [];
    counts := [];
    ghost var before := io.w;
    NothingReported(x.jobs);
    for j := 0 to |x.jobs|
      invariant io.Valid() && (old(io.stop) ==> io.stop) && old(io.log) <= io.log
      invariant io.patience <= old(io.patience) && io.clock == old(io.clock)
      invariant counts == histogram && |counts| == j
      invariant io.w == Collected(before, io.stop, x, counts).(pc := WaitCheck(x, counts, 0))
    {
      var reported := CollectJob(io, x.jobs[j], x, histogram);
      if reported.Err? {
        return Err(reported.error), counts;
      }
      OneMoreReported(before.device.counted, x.jobs, counts, reported.value);
      histogram := histogram + [reported.value];
      counts := histogram;
    }
    io.Assembled();
    r := BuildQuantumResult(x.delivery.task, Present(histogram));
    assert forall i :: 0 <= i < |histogram| ==> Present(histogram)[i] == Some(histogram[i]);
    BuildFailsOnDevice(x.delivery.task, Present(histogram));
  }

  lemma NothingReported(jobs: seq<Job>)
    ensures Reported(jobs, []) == []
  {
  }

  lemma OneMoreReported(before: seq<(Job, Counts)>, jobs: seq<Job>, counts: seq<Counts>, c: Counts)
    requires |counts| < |jobs|
    ensures before + Reported(jobs, counts) + [(jobs[|counts|], c)] == before + Reported(jobs, counts + [c])
  {
    assert Reported(jobs, counts + [c]) == Reported(jobs, counts) + [(jobs[|counts|], c)];
  }

  lemma BuildFailsOnDevice(t: QuantumTask, h: seq<Option<Counts>>)
    ensures BuildResult(t, h).Err? ==> BuildResult(t, h).error.kind == DeviceError
  {
  }

  /** executeQuantumTask, as the standalone daemon calls it. On success there is one
      result per circuit file, in order, each the device's own counts, all within int32;
      the device was asked exactly once per circuit. */
  method ExecuteQuantumTask(io: Io, d: Delivery)
    returns (r: Result<QuantumResult>, ghost placement: Placement, ghost counts: seq<Counts>)
    requires io.Valid() && io.cfg.standalone && io.w.pc == ReleasedPc(d)
    modifies io
    ensures io.Valid() && (old(io.stop) ==> io.stop) && old(io.log) <= io.log
    ensures io.patience <= old(io.patience) && io.clock == old(io.clock)
    ensures r.Err? && r.error.kind == ShutdownRequested ==> io.stop && io.w.pc.Top?
    ensures r.Err? && r.error.kind != ShutdownRequested ==>
              io.w.pc == Replying(d, CancelQuantumTask(d.task, r.error), ResumeReady)
    ensures r.Ok? ==>
              var n := |d.task.circuitFiles|;
              var jobs := JobsFor(d.task, SubmissionFormat(d.task), placement, |old(io.w).device.submitted|, n);
              && |counts| == n > 0 && r.value.executionStatus && |r.value.results| == n
              && (forall i :: 0 <= i < n ==> r.value.results[i] == counts[i])
              && (forall i :: 0 <= i < n ==> AsksFor(jobs[i].request, d.task, i))
              && (forall i, key :: 0 <= i < n && key in counts[i] ==> counts[i][key] <= INT32_MAX)
              && io.w.device == DeviceTrace(old(io.w).device.submitted + SubmissionsOf(d, jobs), old(io.w).device.cancelled,
                                            old(io.w).device.counted + Reported(jobs, counts))
              && io.w.pc == Replying(d, r.value, ResumeReady)
    ensures io.w.scheduler == old(io.w).scheduler && io.w.own == old(io.w).own && io.w.turns == old(io.w).turns
    ensures old(io.w).batch == [] ==> io.w.batch == []
    ensures io.w.replies == old(io.w).replies
  {
    hide Performed, ValidateSubmission, RequestFor, BuildResult, AsksFor;
    SubmissionIsExact(d.task);
    counts := [];
    var jobs, k, p := SubmitQuantumTask(io, d);
    placement := p;
    if jobs.Err? {
      return Err(jobs.error), placement, counts;
    }
    r, counts := CollectQuantumResult(io, InFlight(d, jobs.value));
    if r.Ok? {
      AssemblyPreservesCounts(d.task, counts);
      assert Present(counts) == seq(|counts|, i requires 0 <= i < |counts| => Some(counts[i]));
      forall i, key | 0 <= i < |counts| && key in counts[i] ensures counts[i][key] <= INT32_MAX {
        assert Fits(Present(counts)[i]);
      }
    }
  }
}
