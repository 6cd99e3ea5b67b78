/** The world a device-owning daemon talks to: its termination flag, clock, device and
    broker. Every call advances the transition system of DaemonMachine by the matching
    event, so a program that only acts through this object performs a run of it. */
module DaemonIo {
  import opened Protocol
  import opened Backends
  import opened Registry
  import opened Throttle
  import opened Submission
  import opened DaemonMachine
  import opened DaemonProofs
  import DaemonRuns

  /** `w` is what the run `log` from `w0` leads to. */
  ghost predicate Performed(cfg: DaemonConfig, w0: State, log: seq<Event>, w: State) {
    Run(cfg, w0, log) && w == Exec(cfg, w0, log)
  }

  lemma ClockFollowsEvents(cfg: DaemonConfig, s: State, e: Event)
    requires Enabled(cfg, s, e)
    ensures Next(cfg, s, e).own.clock == if DaemonRuns.Status(e) then e.at else s.own.clock
  {
    hide OnGuard, OnTook, OnRelease, OnAccepted, OnGaveUp, OnNextEntry, OnCheck, OnSent, NextJob;
    hide OnChildren, OnCancelled, OnWaited, OnCounted, OnBuilt;
    hide FromSubmitter, InsertEntry, ExpireEntries, ToBackend, Due;
    if !DaemonRuns.Status(e) {
      hide Next, Enabled;
      DaemonRuns.OthersLeaveStatus(cfg, s, e);
    }
  }

  lemma OnlyAcceptanceSubmits(cfg: DaemonConfig, s: State, e: Event)
    requires Enabled(cfg, s, e) && !e.JobAccepted?
    ensures Next(cfg, s, e).device.submitted == s.device.submitted
  {
    hide CompileFor, Assigned, FromSubmitter, InsertEntry, ExpireEntries, ToBackend, Due, OutOfTime, BuildResult;
    hide NextJob, ValidateSubmission, PlacementFor, OnAccepted;
  }

  /** Where receive, submitQuantumTask or collectQuantumResult reads the flag. */
  predicate AtCheck(pc: Pc) {
    pc.Receiving? || pc.SubmitCheck? || (pc.WaitCheck? && |pc.counts| < |pc.entry.jobs|)
  }

  /** The scheduler library, whose order is its own: it releases some task, or none. */
  class Scheduler {
    var tasks: seq<Delivery>
    ghost var pending: Option<Option<nat>>        // an answer not yet acted on

    constructor ()
      ensures tasks == []
    {
      tasks, pending := [], None;
    }

    method ScheduleTask(d: Delivery)
      modifies this
      ensures tasks == old(tasks) + [d]
    {
      tasks := tasks + [d];
    }

    method GetNextReadyTask() returns (next: Option<Delivery>, ghost index: Option<nat>)
      modifies this
      ensures pending == Some(index)
      ensures next.None? ==> index.None? && tasks == old(tasks)
      ensures next.Some? ==>
                && index.Some? && index.value < |old(tasks)| && next.value == old(tasks)[index.value]
                && tasks == old(tasks)[..index.value] + old(tasks)[index.value + 1..]
    {
      var i: int := *;
      if 0 <= i < |tasks| {
        next, index := Some(tasks[i]), Some(i);
        tasks := tasks[..i] + tasks[i + 1..];
      } else {
        next, index := None, None;
      }
      pending := Some(index);
    }
  }

  /** `patience` bounds how often an unset flag is still read; it is arbitrary, so every
      turn that ever ends is covered. */
  class Io {
    const cfg: DaemonConfig
    var stop: bool
    var clock: int
    var patience: nat
    var issued: nat                               // job handles the device has returned
    ghost const w0: State
    ghost var w: State
    ghost var log: seq<Event>
    ghost var reading: Option<DeviceReading>      // a device reading not yet registered

    /** `log` is a run from `w0` to `w` on sound deliveries, and flag and clock match. */
    ghost predicate Tracks()
      reads this
    {
      Performed(cfg, w0, log, w) && SoundEvents(log) && w.stop == stop && w.own.clock <= clock
    }

    ghost predicate Valid()
      reads this
    {
      Tracks() && issued == |w.device.submitted|
    }

    constructor (cfg: DaemonConfig, clock: int, patience: nat, ghost start: State)
      requires start.own.clock == clock && !start.stop && start.device.submitted == []
      ensures Valid() && this.cfg == cfg && this.clock == clock && w == w0 == start && log == []
    {
      this.cfg, this.clock, this.patience, stop, issued := cfg, clock, patience, false, 0;
      w0, w, log, reading := start, start, [], None;
    }

    ghost method Step(e: Event)
      requires Valid() && Enabled(cfg, w, e) && !e.Stop? && SoundEvent(e)
      requires DaemonRuns.Status(e) ==> e.at <= clock
      modifies this`w, this`log
      ensures Tracks() && (!e.JobAccepted? ==> Valid())
      ensures w == Next(cfg, old(w), e) && log == old(log) + [e]
    {
      hide Next, Enabled, Run, Exec, SoundEvent;
      DaemonRuns.RunOneMore(cfg, w0, log, e);
      ClockFollowsEvents(cfg, w, e);
      if !e.JobAccepted? {
        OnlyAcceptanceSubmits(cfg, w, e);
      }
      DaemonRuns.StepKeepsStop(cfg, w, e);
      w, log := Next(cfg, w, e), log + [e];
    }

    /** A signal may arrive at any time. */
    method Interrupt()
      requires Valid()
      modifies this
      ensures Valid() && (old(stop) ==> stop) && old(log) <= log
      ensures w == old(w).(stop := stop) && clock == old(clock) && patience == old(patience)
    {
      var signalled: bool := *;
      if signalled {
        DaemonRuns.RunOneMore(cfg, w0, log, Stop);
        stop, w, log := true, w.(stop := true), log + [Stop];
      }
    }

    method ReadFlag()
      requires Valid()
      modifies this
      ensures Valid() && (old(stop) ==> stop) && old(log) <= log
      ensures w == old(w).(stop := stop) && clock == old(clock)
      ensures patience <= old(patience) && (!stop ==> patience < old(patience))
    {
      Interrupt();
      if patience > 0 {
        patience := patience - 1;
      } else if !stop {
        DaemonRuns.RunOneMore(cfg, w0, log, Stop);
        stop, w, log := true, w.(stop := true), log + [Stop];
      }
    }

    /** The outer loop's guard. */
    method Guarded() returns (flagged: bool)
      requires Valid() && w.pc.Top?
      modifies this
      ensures Valid() && flagged == stop && (old(stop) ==> stop) && old(log) < log
      ensures w == OnGuard(old(w).(stop := stop)) && clock == old(clock) && patience <= old(patience)
    {
      hide Performed, OnGuard;
      ReadFlag();
      flagged := stop;
      Step(Guard);
    }

    method Checked() returns (flagged: bool)
      requires Valid() && AtCheck(w.pc)
      modifies this
      ensures Valid() && flagged == stop && (old(stop) ==> stop) && old(log) < log
      ensures w == OnCheck(old(w).(stop := stop)) && clock == old(clock)
      ensures patience <= old(patience) && (!flagged ==> patience < old(patience))
    {
      hide Performed, OnCheck;
      ReadFlag();
      flagged := stop;
      Step(Check);
    }

    /** steady_clock::now(). */
    method Now() returns (t: int)
      requires Valid()
      modifies this`clock
      ensures Valid() && t == clock >= old(clock)
    {
      hide Performed;
      var later: int := *;
      clock := if later > clock then later else clock;
      t := clock;
    }

    ghost method Claimed(at: int)
      requires Valid() && w.pc.Claiming? && at == clock
      modifies this`w, this`log
      ensures Valid() && w == OnClaim(cfg, old(w), at) && old(log) < log
    {
      hide Performed, OnClaim;
      Step(Claim(at));
    }

    method ReadDevice() returns (r: DeviceReading)
      requires Valid() && w.pc.Reading?
      modifies this`reading
      ensures Valid() && reading == Some(r)
    {
      var numQubits: Query<nat> := *;
      var status: Query<BackendStatus> := *;
      var instructions: Query<seq<string>> := *;
      var couplingMap: Query<seq<(nat, nat)>> := *;
      var formats: Query<seq<CircuitFormat>> := *;
      r := DeviceReading(numQubits, status, instructions, couplingMap, formats);
      reading := Some(r);
    }

    /** The reading just made has been dealt with, now. */
    ghost method Registered(at: int, r: DeviceReading)
      requires Valid() && w.pc.Reading? && w.own.lastClaimed.Some? && at == clock && reading == Some(r)
      modifies this`w, this`log, this`reading
      ensures Valid() && w == OnRead(cfg, old(w), at, r) && old(log) < log && reading == None
    {
      hide Performed, OnRead;
      Step(Read(at, r));
      reading := None;
    }

    /** Best-effort: a refused status is only logged. */
    method PublishStatus(status: BackendMessage)
      requires Valid() && w.pc == Publishing(status) && w.own.lastClaimed.Some?
      modifies this
      ensures Valid() && (old(stop) ==> stop) && old(log) < log && patience == old(patience) && clock >= old(clock)
      ensures w == OnPublish(old(w).(stop := stop), clock)
    {
      hide Performed, OnPublish;
      Interrupt();
      var at := Now();
      var ok: bool := *;
      Step(Publish(at, ok));
    }

    ghost method Swept(at: int)
      requires Valid() && w.pc.Expiring? && at == clock
      modifies this`w, this`log
      ensures Valid() && w == OnExpire(cfg, old(w), at) && old(log) < log
    {
      hide Performed, OnExpire;
      Step(Expire(at));
    }

    /** One transport attempt on the intake queue. The message may be any task; its
        history, which the wire does not carry, is one that fits it. */
    method Poll() returns (r: Option<Delivery>)
      requires Valid() && w.pc.Polling?
      modifies this
      ensures Valid() && (old(stop) ==> stop) && old(log) < log && patience == old(patience) && clock == old(clock)
      ensures r.None? ==> w == old(w).(stop := stop, pc := Ready)
      ensures r.Some? ==> w == OnTook(cfg, old(w).(stop := stop), r.value)
    {
      hide Performed, OnTook;
      Interrupt();
      r := *;
      if r.Some? {
        if !Intact(r.value) {
          r := Some(Delivery(r.value.id, r.value.task, r.value.task, false));
        }
        Step(Took(r.value));
      } else {
        Step(Missed);
      }
    }

    /** The scheduler has just answered with `index`. */
    ghost method Released(scheduler: Scheduler, index: Option<nat>)
      requires Valid() && w.pc.Ready? && scheduler.pending == Some(index) && (index.Some? ==> index.value < |w.scheduler|)
      modifies this`w, this`log, scheduler`pending
      ensures Valid() && old(log) < log && scheduler.pending == None
      ensures w == match index
                   case None => old(w).(pc := if cfg.standalone then Top else Collecting)
                   case Some(i) => OnRelease(old(w), i)
    {
      hide Performed, OnRelease;
      Step(Release(index));
      scheduler.pending := None;
    }

    method AskChildren() returns (answer: Query<seq<string>>)
      requires Valid() && w.pc.Discovering?
      modifies this
      ensures Valid() && (old(stop) ==> stop) && old(log) < log && patience == old(patience) && clock == old(clock)
      ensures w == OnChildren(old(w).(stop := stop), answer)
    {
      hide Performed, OnChildren;
      Interrupt();
      answer := *;
      Step(Children(answer));
    }

    /** Device::submitJob: the accepted job under a handle of its own, or a refusal. */
    method SubmitJob(request: JobRequest, placement: Placement) returns (r: Option<Job>)
      requires Valid() && w.pc.Submitting? && |w.pc.jobs| < |w.pc.d.task.circuitFiles|
      requires request == RequestFor(w.pc.d.task, w.pc.format, |w.pc.jobs|) && placement == w.pc.placement
      modifies this
      ensures Valid() && (old(stop) ==> stop) && old(log) < log && patience == old(patience) && clock == old(clock)
      ensures r.Some? ==> r.value == Job(|old(w).device.submitted|, request, placement) &&
                          w == OnAccepted(cfg, old(w).(stop := stop), r.value)
      ensures r.None? ==> w == Fail(old(w).(stop := stop), old(w).pc.d, Error(SubmissionFailed, None), ResumeReady)
    {
      hide Performed, RequestFor;
      Interrupt();
      var ok: bool := *;
      if ok {
        r := Some(Job(issued, request, placement));
        Step(JobAccepted);
        issued := issued + 1;
      } else {
        r := None;
        Step(JobRefused);
      }
    }

    /** Job::cancel, best-effort. */
    method CancelJob(job: Job)
      requires Valid() && w.pc.Cancelling? && w.pc.todo != [] && w.pc.todo[0] == job
      modifies this
      ensures Valid() && (old(stop) ==> stop) && old(log) < log && patience == old(patience) && clock == old(clock)
      ensures w == OnCancelled(old(w).(stop := stop))
    {
      hide Performed, OnCancelled;
      Interrupt();
      var ok: bool := *;
      Step(Cancelled(ok));
    }

    ghost method Abandoned()
      requires Valid() && w.pc.Cancelling? && w.pc.todo == []
      modifies this`w, this`log
      ensures Valid() && w == OnGaveUp(cfg, old(w)) && old(log) < log
    {
      hide Performed, OnGaveUp;
      Step(GaveUp);
    }

    ghost method Entered()
      requires Valid() && w.pc.Collecting?
      modifies this`w, this`log
      ensures Valid() && w == OnNextEntry(old(w)) && old(log) < log
    {
      hide Performed, OnNextEntry;
      Step(NextEntry);
    }

    /** Job::wait for one slice, and how long after the previous look it returned. */
    method WaitSlice(job: Job) returns (outcome: WaitOutcome, lasted: nat)
      requires Valid() && w.pc.Waiting? && Expects(w.pc.entry, w.pc.counts, job)
      modifies this
      ensures Valid() && (old(stop) ==> stop) && old(log) < log && patience == old(patience) && clock == old(clock)
      ensures w == OnWaited(cfg, old(w).(stop := stop), outcome, lasted)
    {
      hide Performed, OnWaited;
      Interrupt();
      outcome, lasted := *, *;
      Step(Waited(job, outcome, lasted));
    }

    /** Job::counts. */
    method ReadCounts(job: Job) returns (reported: Option<Counts>)
      requires Valid() && w.pc.Counting? && Expects(w.pc.entry, w.pc.counts, job)
      modifies this
      ensures Valid() && (old(stop) ==> stop) && old(log) < log && patience == old(patience) && clock == old(clock)
      ensures w == OnCounted(cfg, old(w).(stop := stop), job, reported)
    {
      hide Performed, OnCounted;
      Interrupt();
      reported := *;
      Step(Counted(job, reported));
    }

    ghost method Assembled()
      requires Valid() && w.pc.WaitCheck? && |w.pc.counts| >= |w.pc.entry.jobs|
      modifies this`w, this`log
      ensures Valid() && w == OnBuilt(cfg, old(w)) && old(log) < log
    {
      hide Performed, OnBuilt;
      Step(Built);
    }

    /** sendResult or sendFailure: one attempt, to the task's own destination. */
    method SendReply(queue: string, result: QuantumResult)
      requires Valid() && w.pc.Replying? && result == w.pc.result && queue == w.pc.d.task.resultDestination
      modifies this
      ensures Valid() && (old(stop) ==> stop) && old(log) < log && patience == old(patience) && clock == old(clock)
      ensures exists ok :: w == OnSent(old(w).(stop := stop), ok)
    {
      hide Performed, OnSent;
      Interrupt();
      var ok: bool := *;
      Step(Sent(ok));
    }
  }
}
