/** Theorems about whole runs of a device-owning daemon. */
module DaemonRuns {
  import opened Protocol
  import opened FormatPolicy
  import opened Backends
  import opened Registry
  import opened Throttle
  import opened Selection
  import opened Compilation
  import opened Submission
  import opened Config
  import opened DaemonMachine
  import opened DaemonProofs

  /** Two runs in a row are one run. */
  lemma {:induction false} RunSplit(cfg: DaemonConfig, s: State, a: seq<Event>, b: seq<Event>)
    requires Run(cfg, s, a + b)
    ensures Run(cfg, s, a) && Run(cfg, Exec(cfg, s, a), b)
    ensures Exec(cfg, s, a + b) == Exec(cfg, Exec(cfg, s, a), b)
    decreases |b|
  {
    hide Next, Enabled;
    if b == [] {
      assert a + b == a;
    } else {
      var n := |b| - 1;
      assert (a + b)[..|a| + n] == a + b[..n];
      RunSplit(cfg, s, a, b[..n]);
    }
  }

  // ---- Who answers what -------------------------------------------------------------

  /** Every reply of every run goes to its own task's destination under that task's id
      and QPU, and a success names this daemon's own device and, for a selected task with
      an allow-list, a member of that list. */
  lemma RepliesAreCorrelated(cfg: DaemonConfig, s: State, es: seq<Event>, r: Reply)
    requires Init(cfg, s) && Run(cfg, s, es) && SoundEvents(es) && r in Exec(cfg, s, es).replies
    ensures Correlated(r)
    ensures r.result.executionStatus ==> r.result.executedQpu == cfg.id
  {
    hide Next, Enabled, PcOk, Phase, OwnEntryOnly, Init;
    InitInv(cfg, s);
    RunKeepsInv(cfg, s, es);
  }

  /** A worker that receives a task assigned to another device answers it with
      NoBackendAvailable; nothing is compiled, scheduled or submitted. */
  lemma MisdeliveredTaskIsRefused(cfg: DaemonConfig, s: State, d: Delivery)
    requires Inv(cfg, s) && s.pc.Polling? && !cfg.standalone && d.task.scheduledQpu != cfg.id
    ensures var s' := Next(cfg, s, Took(d));
            && s'.pc.Replying? && s'.pc.d == d && s'.pc.next == ResumeReady && s' == s.(pc := s'.pc)
            && !s'.pc.result.executionStatus && s'.pc.result.failure == Some(Error(NoBackendAvailable, None))
            && s'.pc.result.taskId == d.task.taskId && s'.pc.result.executedQpu == d.task.scheduledQpu
  {
  }

  /** What becomes of a received task, case by case. The standalone daemon assigns the chosen
      backend, a worker takes the assignment it finds; the task is then compiled for that
      backend's reading and scheduled, or answered with the reason why not. */
  lemma HandledExactly(cfg: DaemonConfig, s: State, d: Delivery)
    requires s.pc.Polling?
    ensures var s' := Next(cfg, s, Took(d));
            var chosen := Choose(s.own.registry, d.task, cfg.policy, cfg.inputs);
            var a := if cfg.standalone && chosen.Some?
                     then d.(task := d.task.(scheduledQpu := chosen.value), selected := true) else d;
            var next := if cfg.standalone then Receiving else Ready;
            if cfg.standalone && chosen.None? then Refuses(s, s', d, Error(NoBackendAvailable, None), next)
            else if a.task.scheduledQpu !in s.own.registry then Refuses(s, s', a, Error(NoBackendAvailable, None), next)
            else match CompileTask(a.task, s.own.registry[a.task.scheduledQpu].backend, cfg.inputs, cfg.compiler)
              case Err(e) => Refuses(s, s', a, e, next)
              case Ok(t) => s' == s.(scheduler := s.scheduler + [a.(task := t)], pc := next)
  {
    hide CompileTask, Choose;
  }

  /** The daemon goes to answer `d` with `e`, then back to `next`; nothing else changes. */
  predicate Refuses(s: State, s': State, d: Delivery, e: Error, next: Pc) {
    && s' == s.(pc := s'.pc) && s'.pc.Replying? && s'.pc.d == d && ResumeAt(s'.pc.next) == next
    && !s'.pc.result.executionStatus && s'.pc.result.failure == Some(e) && s'.pc.result.results == []
  }

  /** Where a task fails after it was scheduled, and what its submitter is told: a task that
      cannot be submitted, a driver that cannot be asked and a refused job are failures to
      submit; a wait that fails, is cancelled or runs out of time, and counts that cannot be
      read, are device errors. The loop goes on with the next task. */
  lemma FailsExactly(cfg: DaemonConfig, s: State, e: Event)
    requires Enabled(cfg, s, e)
    ensures var s', submit, device := Next(cfg, s, e), Error(SubmissionFailed, None), Error(DeviceError, None);
            var collecting := if cfg.standalone then Ready else Collecting;
            match e
            case Release(Some(i)) =>
              ValidateSubmission(s.scheduler[i].task).Err? ==>
                Refuses(s.(scheduler := s.scheduler[..i] + s.scheduler[i + 1..]), s', s.scheduler[i], submit, Ready)
            case Children(answer) => answer.Failed? ==> Refuses(s, s', s.pc.d, submit, Ready)
            case JobRefused => Refuses(s, s', s.pc.d, submit, Ready)
            case Waited(_, outcome, lasted) =>
              outcome.Canceled? || outcome.WaitFailed? || (outcome.TimedOut? && OutOfTime(cfg, s.pc.elapsed + lasted)) ==>
                Refuses(s, s', s.pc.entry.delivery, device, collecting)
            case Counted(_, reported) => reported.None? ==> Refuses(s, s', s.pc.entry.delivery, device, collecting)
            case _ => true
  {
    hide OnClaim, OnRead, OnPublish, OnExpire, OnGuard, OnCheck, OnTook, OnAccepted, NextJob;
    hide OnCancelled, OnGaveUp, OnNextEntry, OnBuilt, OnSent, OutOfTime, ValidateSubmission;
    if e.Release? && e.index.Some? {
      SubmissionIsExact(s.scheduler[e.index.value].task);
    }
  }

  /** A successful re-read registers what it read, with the time it was read at, and a worker
      goes on to publish just that. */
  lemma ReadIsRegisteredAndPublished(cfg: DaemonConfig, s: State, at: int, r: DeviceReading)
    requires Inv(cfg, s) && Enabled(cfg, s, Read(at, r)) && FromSubmitter(cfg.id, r, cfg.dispatchQueue).Ok?
    ensures var s' := Next(cfg, s, Read(at, r));
            && s'.own.registry == map[cfg.id := Entry(s'.own.registry[cfg.id].backend, at)]
            && var b := s'.own.registry[cfg.id].backend;
               && b.name == cfg.id && b.queueName == cfg.dispatchQueue
               && b.status == r.status.value && b.supportedCircuitFormats == r.formats.value
               && (r.qubits.value < 0x1_0000_0000 ==> b.numQubits == r.qubits.value)
               && (if cfg.standalone then s'.pc == Expiring
                   else
                     && s'.pc.Publishing? && s'.pc.status.name == cfg.id && s'.pc.status.queueName == cfg.dispatchQueue
                     && s'.pc.status.status == r.status.value
                     && s'.pc.status.supportedCircuitFormats == r.formats.value
                     && s'.pc.status.numQubits == b.numQubits)
  {
    hide Contents, Phase;
    ReadingIsReported(cfg.id, r, cfg.dispatchQueue);
  }

  /** In the standalone daemon the chosen backend is always found again, its format never
      fails, and what is scheduled is submittable in a format that backend lists. */
  lemma StandaloneSelectionIsAdmitted(cfg: DaemonConfig, s: State, d: Delivery)
    requires Inv(cfg, s) && cfg.standalone && Assigned(cfg, s.own.registry, d).Ok?
    ensures var a := Assigned(cfg, s.own.registry, d).value;
            && a.task.scheduledQpu in s.own.registry
            && var b := s.own.registry[a.task.scheduledQpu].backend;
               match CompileFor(cfg, s.own.registry, a.task)
               case Err(e) => e.kind == CompilationFailed
               case Ok(t) =>
                 && MapTaskCircuitType(t.circuitFileType) != FormatUnspecified
                 && MapTaskCircuitType(t.circuitFileType) in b.supportedCircuitFormats
                 && (ValidateSubmission(t).Ok? ==> ValidateSubmission(t).value in b.supportedCircuitFormats)
  {
    hide Choose, CompileTask, MapTaskCircuitType, Contents, Phase, ValidateSubmission;
    ChooseIsOptimal(s.own.registry, d.task, cfg.policy, cfg.inputs);
    var a := Assigned(cfg, s.own.registry, d).value;
    var out := CompileFor(cfg, s.own.registry, a.task);
    if out.Ok? {
      SubmissionIsExact(out.value);
    }
    AdmissionIsSound(a.task, s.own.registry[a.task.scheduledQpu].backend, cfg.inputs, cfg.compiler);
  }

  // ---- Turns ------------------------------------------------------------------------

  /** Over any number of whole turns without a shutdown request, each delivery that was
      scheduled before or taken since is either still scheduled or answered, exactly
      once: what a turn releases it answers before it ends. */
  lemma TurnsSettle(cfg: DaemonConfig, s: State, es: seq<Event>, k: Key)
    requires Inv(cfg, s) && s.pc.Top? && Run(cfg, s, es) && SoundEvents(es)
    requires Exec(cfg, s, es).pc.Top? && !Exec(cfg, s, es).stop
    ensures var s' := Exec(cfg, s, es);
            Occurs(s'.scheduler, k) + Occurs(Answered(s'.replies), k) ==
              Occurs(s.scheduler, k) + Occurs(Answered(s.replies), k) + Taken(es, k)
  {
    hide Next, Enabled, Occurs, Contents, OwnEntryOnly, Taken;
    var s' := Exec(cfg, s, es);
    RunKeepsInv(cfg, s, es);
    RunConserves(cfg, s, es, k);
    StopStays(cfg, s, es);
    assert Carried([]) == [];
    Nowhere(k);
  }

  lemma StopStays(cfg: DaemonConfig, s: State, es: seq<Event>)
    requires Run(cfg, s, es)
    ensures s.stop ==> Exec(cfg, s, es).stop
  {
    hide Next, Enabled;
    if es != [] {
      var n := |es| - 1;
      StopStays(cfg, s, es[..n]);
      StepKeepsStop(cfg, Exec(cfg, s, es[..n]), es[n]);
    }
  }

  lemma StepKeepsStop(cfg: DaemonConfig, s: State, e: Event)
    requires Enabled(cfg, s, e)
    ensures Next(cfg, s, e).stop == (s.stop || e.Stop?)
  {
    hide CompileFor, Assigned, FromSubmitter, InsertEntry, ExpireEntries, ToBackend, Due, OutOfTime, BuildResult;
    hide NextJob, ValidateSubmission, PlacementFor;
  }

  /** How many tasks a run takes. */
  ghost function Takes(es: seq<Event>): nat {
    if es == [] then 0 else Takes(es[..|es| - 1]) + if es[|es| - 1].Took? then 1 else 0
  }

  /** Before this turn's task, if any, has been received. */
  predicate BeforeReceiving(pc: Pc) {
    pc.Claiming? || pc.Reading? || pc.Publishing? || pc.Expiring? || pc.Receiving? || pc.Polling? ||
    (pc.Replying? && pc.next.ResumeReceive?)
  }

  /** A worker takes at most one task per turn, so that what is scheduled is not kept waiting
      by a full queue. */
  lemma {:induction false} WorkerTakesOneTaskPerTurn(cfg: DaemonConfig, s: State, es: seq<Event>)
    requires Init(cfg, s) && Run(cfg, s, es) && !cfg.standalone
    ensures Takes(es) + (if BeforeReceiving(Exec(cfg, s, es).pc) then 1 else 0) <= Exec(cfg, s, es).turns
  {
    hide Next, Enabled;
    if es != [] {
      var n := |es| - 1;
      WorkerTakesOneTaskPerTurn(cfg, s, es[..n]);
      TakesStep(cfg, Exec(cfg, s, es[..n]), es[n]);
    }
  }

  /** One event: `turns` pays for one receive, and only a receive uses it up. */
  predicate PaysForReceive(s: State, e: Event, s': State) {
    && (s'.turns == s.turns || (s'.turns == s.turns + 1 && !e.Took? && !BeforeReceiving(s.pc)))
    && (BeforeReceiving(s'.pc) ==> BeforeReceiving(s.pc) || s'.turns == s.turns + 1)
    && (e.Took? ==> BeforeReceiving(s.pc) && !BeforeReceiving(s'.pc))
  }

  lemma TakesStep(cfg: DaemonConfig, s: State, e: Event)
    requires Enabled(cfg, s, e) && !cfg.standalone
    ensures PaysForReceive(s, e, Next(cfg, s, e))
  {
    hide Next, Enabled, PaysForReceive;
    if Intake(e) || Status(e) {
      IntakePays(cfg, s, e);
    } else {
      DevicePays(cfg, s, e);
    }
  }

  lemma IntakePays(cfg: DaemonConfig, s: State, e: Event)
    requires Enabled(cfg, s, e) && !cfg.standalone && (Intake(e) || Status(e))
    ensures PaysForReceive(s, e, Next(cfg, s, e))
  {
    hide OnChildren, OnAccepted, OnCancelled, OnGaveUp, OnNextEntry, OnWaited, OnCounted, OnBuilt, OnSent;
    hide CompileFor, NextJob, ValidateSubmission, FromSubmitter, InsertEntry, ExpireEntries, ToBackend, Due;
  }

  lemma DevicePays(cfg: DaemonConfig, s: State, e: Event)
    requires Enabled(cfg, s, e) && !cfg.standalone && !Intake(e) && !Status(e)
    ensures PaysForReceive(s, e, Next(cfg, s, e))
  {
    hide OnClaim, OnRead, OnPublish, OnExpire, OnGuard, OnCheck, OnTook, OnRelease;
    hide OutOfTime, BuildResult, NextJob, PlacementFor;
  }

  // ---- Shutdown ---------------------------------------------------------------------

  /** Calls that can block: receive, submit, wait. */
  predicate Blocking(e: Event) {
    e.Missed? || e.Took? || e.JobAccepted? || e.JobRefused? || e.Waited?
  }

  /** Such a call is next, its flag check already passed. */
  predicate Committed(pc: Pc) {
    pc.Polling? || pc.Submitting? || pc.Waiting?
  }

  ghost function BlockingCalls(es: seq<Event>): nat {
    if es == [] then 0 else BlockingCalls(es[..|es| - 1]) + if Blocking(es[|es| - 1]) then 1 else 0
  }

  predicate CommitsNothing(s: State, e: Event, s': State) {
    && (Committed(s'.pc) ==> Committed(s.pc) && !Blocking(e))
    && (Blocking(e) ==> Committed(s.pc))
  }

  lemma CommitStep(cfg: DaemonConfig, s: State, e: Event)
    requires Enabled(cfg, s, e) && s.stop
    ensures CommitsNothing(s, e, Next(cfg, s, e))
  {
    hide Next, Enabled, CommitsNothing;
    if Intake(e) || Status(e) {
      IntakeCommitsNothing(cfg, s, e);
    } else {
      DeviceCommitsNothing(cfg, s, e);
    }
  }

  lemma IntakeCommitsNothing(cfg: DaemonConfig, s: State, e: Event)
    requires Enabled(cfg, s, e) && s.stop && (Intake(e) || Status(e))
    ensures CommitsNothing(s, e, Next(cfg, s, e))
  {
    hide OnChildren, OnAccepted, OnCancelled, OnGaveUp, OnNextEntry, OnWaited, OnCounted, OnBuilt, OnSent;
    hide CompileFor, Assigned, NextJob, ValidateSubmission, FromSubmitter, InsertEntry, ExpireEntries, ToBackend, Due;
  }

  lemma DeviceCommitsNothing(cfg: DaemonConfig, s: State, e: Event)
    requires Enabled(cfg, s, e) && s.stop && !Intake(e) && !Status(e)
    ensures CommitsNothing(s, e, Next(cfg, s, e))
  {
    hide OnClaim, OnRead, OnExpire, OnGuard, OnCheck, OnTook, OnRelease;
    hide OutOfTime, BuildResult, NextJob, PlacementFor;
  }

  /** Once the flag is set, at most the one call whose check had already passed begins. */
  lemma {:induction false} AtMostOneCallAfterStop(cfg: DaemonConfig, s: State, es: seq<Event>)
    requires Run(cfg, s, es) && s.stop
    ensures BlockingCalls(es) + (if Committed(Exec(cfg, s, es).pc) then 1 else 0) <= if Committed(s.pc) then 1 else 0
  {
    hide Next, Enabled, Blocking, Committed;
    if es != [] {
      var n := |es| - 1;
      AtMostOneCallAfterStop(cfg, s, es[..n]);
      StopStays(cfg, s, es[..n]);
      CommitStep(cfg, Exec(cfg, s, es[..n]), es[n]);
    }
  }

  lemma QuietStep(cfg: DaemonConfig, s: State, e: Event)
    requires Inv(cfg, s) && Enabled(cfg, s, e) && s.quiet
    ensures Next(cfg, s, e).quiet && Next(cfg, s, e).replies == s.replies
  {
    hide CompileFor, Assigned, FromSubmitter, InsertEntry, ExpireEntries, ToBackend, Due, OutOfTime, BuildResult;
    hide NextJob, JobsFor, ValidateSubmission, PlacementFor, AllHeld, AllInFlightOk, AllRepliesOk, OwnEntryOnly;
  }

  /** Once a runner has reported ShutdownRequested, no reply follows for the rest of the
      run. */
  lemma {:induction false} QuietAfterShutdown(cfg: DaemonConfig, s: State, es: seq<Event>)
    requires Inv(cfg, s) && Run(cfg, s, es) && SoundEvents(es) && s.quiet
    ensures Exec(cfg, s, es).quiet && Exec(cfg, s, es).replies == s.replies
  {
    hide Next, Enabled, Inv;
    if es != [] {
      var n := |es| - 1;
      QuietAfterShutdown(cfg, s, es[..n]);
      RunKeepsInv(cfg, s, es[..n]);
      QuietStep(cfg, Exec(cfg, s, es[..n]), es[n]);
    }
  }

  /** Shutdown over a whole run, cut anywhere: if the flag is set at the cut, at most one
      blocking call follows; if a runner has reported shutdown by then, no reply does. */
  lemma ShutdownIsPromptAndQuiet(cfg: DaemonConfig, s: State, a: seq<Event>, b: seq<Event>)
    requires Init(cfg, s) && Run(cfg, s, a + b) && SoundEvents(a + b)
    ensures Run(cfg, s, a)
    ensures Exec(cfg, s, a).stop ==> BlockingCalls(b) <= 1
    ensures Exec(cfg, s, a).quiet ==> Exec(cfg, s, a + b).replies == Exec(cfg, s, a).replies
  {
    hide Next, Enabled, Inv, Init;
    RunSplit(cfg, s, a, b);
    var m := Exec(cfg, s, a);
    if m.stop {
      AtMostOneCallAfterStop(cfg, m, b);
    }
    if m.quiet {
      InitInv(cfg, s);
      RunKeepsInv(cfg, s, a);
      QuietAfterShutdown(cfg, m, b);
    }
  }

  // ---- Pacing -----------------------------------------------------------------------

  /** What was done in claimed slots so far: in order, each between its slot's claim and
      the next. `pending` means the slot claimed last is still to be used. */
  ghost predicate InSlots(interval: int, own: OwnStatus, acts: seq<Act>, pending: bool) {
    && Trails(acts, interval)
    && forall a :: a in acts ==>
         && a.claim in own.claims && a.at <= own.clock && own.lastClaimed.Some?
         && if pending then own.lastClaimed.value - a.claim >= interval && a.at <= own.lastClaimed.value
            else a.claim <= own.lastClaimed.value
  }

  ghost predicate Paced(cfg: DaemonConfig, own: OwnStatus, pc: Pc) {
    && Spaced(own.claims, cfg.interval)
    && own.lastClaimed == Last(own.claims)
    && (own.lastClaimed.Some? ==> own.lastClaimed.value <= own.clock)
    && InSlots(cfg.interval, own, own.deviceReads, pc.Reading?)
    && InSlots(cfg.interval, own, own.publications, pc.Reading? || pc.Publishing?)
    && |own.deviceReads| + (if pc.Reading? then 1 else 0) == |own.claims|
    && |own.publications| + (if pc.Publishing? then 1 else 0) <= |own.deviceReads|
  }

  lemma StepKeepsPaced(cfg: DaemonConfig, s: State, e: Event)
    requires cfg.interval > 0 && Paced(cfg, s.own, s.pc) && Enabled(cfg, s, e)
    ensures Paced(cfg, Next(cfg, s, e).own, Next(cfg, s, e).pc)
  {
    hide Enabled, Paced, OnClaim, OnRead, OnExpire, OnPublish;
    hide OnGuard, OnTook, OnRelease, OnAccepted, OnGaveUp, OnNextEntry, OnCheck, OnSent, NextJob;
    hide OnChildren, OnCancelled, OnWaited, OnCounted, OnBuilt;
    match e
    case Claim(at) => ClaimKeepsPaced(cfg, s, at);
    case Read(at, reading) => ReadKeepsPaced(cfg, s, at, reading);
    case Publish(at, ok) => PublishKeepsPaced(cfg, s, at, ok);
    case Expire(at) => ExpireKeepsPaced(cfg, s, at);
    case _ => OthersKeepPaced(cfg, s, e);
  }

  lemma ReadKeepsPaced(cfg: DaemonConfig, s: State, at: int, reading: DeviceReading)
    requires cfg.interval > 0 && Paced(cfg, s.own, s.pc) && Enabled(cfg, s, Read(at, reading))
    ensures Paced(cfg, OnRead(cfg, s, at, reading).own, OnRead(cfg, s, at, reading).pc)
  {
    hide FromSubmitter, InsertEntry, ToBackend, Spaced, Trails;
    TrailsPush(s.own.deviceReads, Act(s.own.lastClaimed.value, at), cfg.interval);
    assert s.own.lastClaimed.value == s.own.claims[|s.own.claims| - 1];
  }

  lemma PublishKeepsPaced(cfg: DaemonConfig, s: State, at: int, ok: bool)
    requires cfg.interval > 0 && Paced(cfg, s.own, s.pc) && Enabled(cfg, s, Publish(at, ok))
    ensures Paced(cfg, OnPublish(s, at).own, OnPublish(s, at).pc)
  {
    hide Spaced, Trails;
    TrailsPush(s.own.publications, Act(s.own.lastClaimed.value, at), cfg.interval);
    assert s.own.lastClaimed.value == s.own.claims[|s.own.claims| - 1];
  }

  lemma ExpireKeepsPaced(cfg: DaemonConfig, s: State, at: int)
    requires Paced(cfg, s.own, s.pc) && Enabled(cfg, s, Expire(at))
    ensures Paced(cfg, OnExpire(cfg, s, at).own, OnExpire(cfg, s, at).pc)
  {
    hide Spaced, Trails, ExpireEntries;
  }

  lemma OthersKeepPaced(cfg: DaemonConfig, s: State, e: Event)
    requires Paced(cfg, s.own, s.pc) && Enabled(cfg, s, e) && !Status(e)
    ensures Paced(cfg, Next(cfg, s, e).own, Next(cfg, s, e).pc)
  {
    hide Next, Enabled, Spaced, InSlots, Last;
    OthersLeaveStatus(cfg, s, e);
  }

  /** The events between receiving and releasing a task. */
  predicate Intake(e: Event) {
    e.Stop? || e.Guard? || e.Check? || e.Missed? || e.Took? || e.Release?
  }

  /** The events of the status part of the loop, each with the time it happens at. */
  predicate Status(e: Event) {
    e.Claim? || e.Read? || e.Publish? || e.Expire?
  }

  predicate LeavesStatus(s: State, e: Event, s': State) {
    && s'.own == s.own
    && (if e.Stop? then s'.pc == s.pc
        else !s.pc.Reading? && !s.pc.Publishing? && !s'.pc.Reading? && !s'.pc.Publishing? && !s'.pc.Expiring?)
  }

  /** All other events leave the own entry and its pacing alone, and lead out of the
      status part of the loop. */
  lemma OthersLeaveStatus(cfg: DaemonConfig, s: State, e: Event)
    requires Enabled(cfg, s, e) && !Status(e)
    ensures LeavesStatus(s, e, Next(cfg, s, e))
  {
    hide Next, Enabled, LeavesStatus;
    if Intake(e) {
      IntakeLeavesStatus(cfg, s, e);
    } else {
      DeviceLeavesStatus(cfg, s, e);
    }
  }

  lemma IntakeLeavesStatus(cfg: DaemonConfig, s: State, e: Event)
    requires Enabled(cfg, s, e) && Intake(e)
    ensures LeavesStatus(s, e, Next(cfg, s, e))
  {
    hide OnClaim, OnRead, OnExpire, OnChildren, OnAccepted, OnCancelled, OnGaveUp, OnNextEntry, OnWaited, OnCounted, OnBuilt, OnSent;
    hide CompileFor, Assigned, NextJob, ValidateSubmission;
  }

  lemma DeviceLeavesStatus(cfg: DaemonConfig, s: State, e: Event)
    requires Enabled(cfg, s, e) && !Intake(e) && !Status(e)
    ensures LeavesStatus(s, e, Next(cfg, s, e))
  {
    hide OnClaim, OnRead, OnExpire, OnGuard, OnCheck, OnTook, OnRelease;
    hide OutOfTime, BuildResult, NextJob, PlacementFor;
  }

  lemma ClaimKeepsPaced(cfg: DaemonConfig, s: State, at: int)
    requires cfg.interval > 0 && Paced(cfg, s.own, s.pc) && Enabled(cfg, s, Claim(at))
    ensures Paced(cfg, OnClaim(cfg, s, at).own, OnClaim(cfg, s, at).pc)
  {
    hide Trails;
    if Due(s.own.lastClaimed, cfg.interval, at) && s.own.claims != [] {
      var n := |s.own.claims| - 1;
      assert forall i :: 0 <= i < n ==> s.own.claims[n] - s.own.claims[i] >= cfg.interval;
    }
  }

  /** Status traffic in any window of any run: at most floor(length / interval) + 1 slots
      are claimed, and at most one more device re-read and one more publication happen,
      failed ones included, since either may lag behind its slot. */
  lemma StatusTrafficIsBounded(cfg: DaemonConfig, s: State, es: seq<Event>, from: int, length: nat)
    requires Init(cfg, s) && Run(cfg, s, es) && cfg.interval > 0
    ensures var own := Exec(cfg, s, es).own;
            && |own.publications| <= |own.deviceReads| <= |own.claims|
            && |Within(own.claims, from, from + length)| <= length / cfg.interval + 1
            && |Within(Times(own.deviceReads), from, from + length)| <= length / cfg.interval + 2
            && |Within(Times(own.publications), from, from + length)| <= length / cfg.interval + 2
  {
    hide Next, Enabled, Within, Init, Trails;
    RunIsPaced(cfg, s, es);
    var own := Exec(cfg, s, es).own;
    PublicationBound(cfg.interval, own.claims, from, length);
    ActBound(cfg.interval, own.deviceReads, from, length);
    ActBound(cfg.interval, own.publications, from, length);
  }

  /** With device latencies between `lo` and `hi`, a window catches at most
      floor((length + hi - lo) / interval) + 1 re-reads, and likewise publications. */
  lemma JitterBoundsStatusTraffic(
    cfg: DaemonConfig, s: State, es: seq<Event>, lo: int, hi: int, from: int, length: nat)
    requires Init(cfg, s) && Run(cfg, s, es) && cfg.interval > 0 && lo <= hi
    ensures var own := Exec(cfg, s, es).own;
            && (Latency(own.deviceReads, lo, hi) ==>
                  |Within(Times(own.deviceReads), from, from + length)| <= (length + hi - lo) / cfg.interval + 1)
            && (Latency(own.publications, lo, hi) ==>
                  |Within(Times(own.publications), from, from + length)| <= (length + hi - lo) / cfg.interval + 1)
  {
    hide Next, Enabled, Within, Init, Trails, Latency;
    RunIsPaced(cfg, s, es);
    var own := Exec(cfg, s, es).own;
    if Latency(own.deviceReads, lo, hi) {
      JitterBound(cfg.interval, own.deviceReads, lo, hi, from, length);
    }
    if Latency(own.publications, lo, hi) {
      JitterBound(cfg.interval, own.publications, lo, hi, from, length);
    }
  }

  /** In every run from `s` in which each re-read comes between `lo` and `hi` after its
      slot, re-reads keep to the slots' own bound of floor(length / interval) + 1. */
  ghost predicate ReadsKeepToSlots(cfg: DaemonConfig, s: State, lo: int, hi: int)
    requires cfg.interval > 0
  {
    forall es :: Run(cfg, s, es) && Latency(Exec(cfg, s, es).own.deviceReads, lo, hi) ==>
      WithinSlots(Exec(cfg, s, es).own.deviceReads, cfg.interval)
  }

  ghost predicate PublicationsKeepToSlots(cfg: DaemonConfig, s: State, lo: int, hi: int)
    requires cfg.interval > 0
  {
    forall es :: Run(cfg, s, es) && Latency(Exec(cfg, s, es).own.publications, lo, hi) ==>
      WithinSlots(Exec(cfg, s, es).own.publications, cfg.interval)
  }

  /** The latencies with which a daemon's re-reads, and a worker's publications, keep to
      the slots' own bound in all its runs are exactly the steady ones: all equal, or all
      at least an interval. */
  lemma SlotBoundHoldsExactlyForSteadyDevices(cfg: DaemonConfig, s: State, lo: int, hi: int)
    requires Init(cfg, s) && !s.stop && cfg.interval > 0 && 0 <= lo <= hi
    ensures ReadsKeepToSlots(cfg, s, lo, hi) <==> Steady(cfg.interval, lo, hi)
    ensures !cfg.standalone ==> (PublicationsKeepToSlots(cfg, s, lo, hi) <==> Steady(cfg.interval, lo, hi))
  {
    hide Next, Enabled, Init, Run, Exec, Latency, Trails, WithinSlots;
    if Steady(cfg.interval, lo, hi) {
      SteadyDevicesKeepToSlots(cfg, s, lo, hi);
    } else {
      var acts := LateThenEarly(cfg.interval, s.own.clock, lo, hi);
      UnsteadyActsBreakSlotBound(cfg.interval, s.own.clock, lo, hi);
      var es := TwoTurns(cfg, s, hi, acts[1].claim - s.own.clock, lo);
      assert Run(cfg, s, es);
    }
  }

  lemma SteadyDevicesKeepToSlots(cfg: DaemonConfig, s: State, lo: int, hi: int)
    requires Init(cfg, s) && cfg.interval > 0 && Steady(cfg.interval, lo, hi)
    ensures ReadsKeepToSlots(cfg, s, lo, hi) && PublicationsKeepToSlots(cfg, s, lo, hi)
  {
    hide Next, Enabled, Init, Exec, Latency, Trails, WithinSlots;
    forall es | Run(cfg, s, es) && Latency(Exec(cfg, s, es).own.deviceReads, lo, hi)
      ensures WithinSlots(Exec(cfg, s, es).own.deviceReads, cfg.interval)
    {
      RunIsPaced(cfg, s, es);
      SteadyActsMeetSlotBound(cfg.interval, Exec(cfg, s, es).own.deviceReads, lo, hi);
    }
    forall es | Run(cfg, s, es) && Latency(Exec(cfg, s, es).own.publications, lo, hi)
      ensures WithinSlots(Exec(cfg, s, es).own.publications, cfg.interval)
    {
      RunIsPaced(cfg, s, es);
      SteadyActsMeetSlotBound(cfg.interval, Exec(cfg, s, es).own.publications, lo, hi);
    }
  }

  /** The extreme case: a device whose first re-read takes a whole interval and whose second
      takes no time gets two re-reads, and a worker's broker two publications, at one
      instant, where one slot is claimed. */
  lemma SlowReadBreaksSlotBound(cfg: DaemonConfig, s: State) returns (es: seq<Event>)
    requires Init(cfg, s) && !s.stop && cfg.interval > 0
    ensures Run(cfg, s, es)
    ensures var t, own := s.own.clock + cfg.interval, Exec(cfg, s, es).own;
            && own.deviceReads == [Act(s.own.clock, t), Act(t, t)]
            && (!cfg.standalone ==> own.publications == own.deviceReads)
            && |Within(Times(own.deviceReads), t, t)| > 0 / cfg.interval + 1
  {
    hide Next, Enabled, Init, Run, Exec, Within;
    es := TwoTurns(cfg, s, cfg.interval, cfg.interval, 0);
    var ts := Times(Exec(cfg, s, es).own.deviceReads);
    TwoWithin(ts, 0, 1, ts[0], ts[0]);
  }

  /** A run of two idle turns whose device work takes `first` and `second`, the second slot
      being claimed `gap` after the first. */
  lemma TwoTurns(cfg: DaemonConfig, s: State, first: int, gap: int, second: int) returns (es: seq<Event>)
    requires Init(cfg, s) && !s.stop && 0 <= first <= gap && 0 <= second && cfg.interval <= gap
    ensures Run(cfg, s, es)
    ensures var t, own := s.own.clock, Exec(cfg, s, es).own;
            && own.deviceReads == [Act(t, t + first), Act(t + gap, t + gap + second)]
            && (!cfg.standalone ==> own.publications == own.deviceReads)
  {
    hide Next, Enabled, Run, Exec, Init;
    var t := s.own.clock;
    var r := NothingDone(cfg, s);
    es := [] + StatusEvents(cfg, t, t + first, r);
    StatusPart(cfg, s, [], t, t + first, r);
    IdlePart(cfg, s, es);
    es := es + IdleEvents(cfg, t + first);
    StatusPart(cfg, s, es, t + gap, t + gap + second, r);
    es := es + StatusEvents(cfg, t + gap, t + gap + second, r);
  }

  function StatusEvents(cfg: DaemonConfig, claimed: int, done: int, r: DeviceReading): seq<Event> {
    [Guard, Claim(claimed), Read(done, r)] + if cfg.standalone then [] else [Publish(done, true)]
  }

  function IdleEvents(cfg: DaemonConfig, at: int): seq<Event> {
    [Expire(at), Check, Missed, Release(None)] + if cfg.standalone then [] else [NextEntry]
  }

  lemma NothingDone(cfg: DaemonConfig, s: State) returns (r: DeviceReading)
    requires Init(cfg, s)
    ensures Run(cfg, s, []) && Exec(cfg, s, []) == s && FromSubmitter(cfg.id, r, cfg.dispatchQueue).Ok?
    ensures s.pc.Top? && s.batch == [] && s.own.lastClaimed.None? && s.own.deviceReads == [] == s.own.publications
  {
    r :| StartsFrom(cfg, s, r);
  }

  lemma RunOneMore(cfg: DaemonConfig, s: State, es: seq<Event>, e: Event)
    requires Run(cfg, s, es) && Enabled(cfg, Exec(cfg, s, es), e)
    ensures Run(cfg, s, es + [e]) && Exec(cfg, s, es + [e]) == Next(cfg, Exec(cfg, s, es), e)
  {
    hide Next, Enabled;
    assert (es + [e])[..|es|] == es;
  }

  lemma StatusPart(cfg: DaemonConfig, s: State, es: seq<Event>, claimed: int, done: int, r: DeviceReading)
    requires Run(cfg, s, es) && FromSubmitter(cfg.id, r, cfg.dispatchQueue).Ok?
    requires var m := Exec(cfg, s, es);
             m.pc.Top? && !m.stop && m.own.clock <= claimed <= done && Due(m.own.lastClaimed, cfg.interval, claimed)
    ensures Run(cfg, s, es + StatusEvents(cfg, claimed, done, r))
    ensures var m, m' := Exec(cfg, s, es), Exec(cfg, s, es + StatusEvents(cfg, claimed, done, r));
            && m'.pc.Expiring? && !m'.stop && m'.batch == m.batch && m'.own.clock == done
            && m'.own.lastClaimed == Some(claimed)
            && m'.own.deviceReads == m.own.deviceReads + [Act(claimed, done)]
            && m'.own.publications == m.own.publications + if cfg.standalone then [] else [Act(claimed, done)]
  {
    hide Run, Exec, FromSubmitter, InsertEntry, ToBackend, Due, OnCheck, OnNextEntry, OnExpire;
    hide OnTook, OnRelease, OnAccepted, OnGaveUp, OnSent, NextJob, OnChildren, OnCancelled, OnWaited, OnCounted, OnBuilt;
    var es' := es + [Guard] + [Claim(claimed)] + [Read(done, r)];
    RunOneMore(cfg, s, es, Guard);
    RunOneMore(cfg, s, es + [Guard], Claim(claimed));
    RunOneMore(cfg, s, es + [Guard] + [Claim(claimed)], Read(done, r));
    if cfg.standalone {
      assert es' == es + StatusEvents(cfg, claimed, done, r);
    } else {
      RunOneMore(cfg, s, es', Publish(done, true));
      assert es' + [Publish(done, true)] == es + StatusEvents(cfg, claimed, done, r);
    }
  }

  lemma IdlePart(cfg: DaemonConfig, s: State, es: seq<Event>)
    requires Run(cfg, s, es)
    requires var m := Exec(cfg, s, es); m.pc.Expiring? && !m.stop && m.batch == []
    ensures var m := Exec(cfg, s, es);
            && Run(cfg, s, es + IdleEvents(cfg, m.own.clock))
            && var m' := Exec(cfg, s, es + IdleEvents(cfg, m.own.clock));
               m'.pc.Top? && !m'.stop && m'.batch == [] && m'.own == m.own.(registry := m'.own.registry)
  {
    hide Run, Exec, ExpireEntries, OnGuard, OnClaim, OnRead, OnPublish;
    hide OnTook, OnRelease, OnAccepted, OnGaveUp, OnSent, NextJob, OnChildren, OnCancelled, OnWaited, OnCounted, OnBuilt;
    var at := Exec(cfg, s, es).own.clock;
    var es' := es + [Expire(at)] + [Check] + [Missed] + [Release(None)];
    RunOneMore(cfg, s, es, Expire(at));
    RunOneMore(cfg, s, es + [Expire(at)], Check);
    RunOneMore(cfg, s, es + [Expire(at)] + [Check], Missed);
    RunOneMore(cfg, s, es + [Expire(at)] + [Check] + [Missed], Release(None));
    if cfg.standalone {
      assert es' == es + IdleEvents(cfg, at);
    } else {
      RunOneMore(cfg, s, es', NextEntry);
      assert es' + [NextEntry] == es + IdleEvents(cfg, at);
    }
  }

  lemma {:induction false} RunIsPaced(cfg: DaemonConfig, s: State, es: seq<Event>)
    requires Init(cfg, s) && Run(cfg, s, es) && cfg.interval > 0
    ensures Paced(cfg, Exec(cfg, s, es).own, Exec(cfg, s, es).pc)
  {
    hide Next, Enabled;
    if es != [] {
      var n := |es| - 1;
      RunIsPaced(cfg, s, es[..n]);
      StepKeepsPaced(cfg, Exec(cfg, s, es[..n]), es[n]);
    }
  }

  /** When a daemon asked its throttle for a slot. */
  function CallTimes(es: seq<Event>): seq<int> {
    if es == [] then []
    else CallTimes(es[..|es| - 1]) + if es[|es| - 1].Claim? then [es[|es| - 1].at] else []
  }

  /** In every run the slots are those a throttle grants among the rising call times. */
  lemma {:induction false} SlotsAreGrantedCalls(cfg: DaemonConfig, s: State, es: seq<Event>)
    requires Init(cfg, s) && Run(cfg, s, es)
    ensures var own := Exec(cfg, s, es).own;
            && own.claims == Claims(cfg.interval, CallTimes(es)) && own.lastClaimed == Last(own.claims)
            && Sorted(CallTimes(es)) && forall t :: t in CallTimes(es) ==> t <= own.clock
  {
    hide Next, Enabled, Claims, Sorted, Last, Due;
    if es == [] {
      NoCallsYet(cfg, s);
    } else {
      var n := |es| - 1;
      var m, calls := Exec(cfg, s, es[..n]), CallTimes(es[..n]);
      SlotsAreGrantedCalls(cfg, s, es[..n]);
      ClaimHistoryStep(cfg, m, es[n]);
      if es[n].Claim? {
        ClaimsPush(cfg.interval, calls, es[n].at);
        SortedPush(calls, es[n].at);
        LastPush(m.own.claims, es[n].at);
      } else {
        assert CallTimes(es) == calls;
      }
    }
  }

  lemma NoCallsYet(cfg: DaemonConfig, s: State)
    requires Init(cfg, s)
    ensures s.own.claims == [] == Claims(cfg.interval, []) && s.own.lastClaimed == None == Last([]) && Sorted([])
  {
  }

  lemma ClaimHistoryStep(cfg: DaemonConfig, s: State, e: Event)
    requires Enabled(cfg, s, e)
    ensures var own, own' := s.own, Next(cfg, s, e).own;
            && own'.clock >= own.clock
            && (!e.Claim? ==> own'.claims == own.claims && own'.lastClaimed == own.lastClaimed)
            && (e.Claim? ==>
                  && own'.clock == e.at
                  && if Due(own.lastClaimed, cfg.interval, e.at)
                     then own'.claims == own.claims + [e.at] && own'.lastClaimed == Some(e.at)
                     else own'.claims == own.claims && own'.lastClaimed == own.lastClaimed)
  {
    hide OnGuard, OnTook, OnRelease, OnAccepted, OnGaveUp, OnNextEntry, OnCheck, OnSent, NextJob;
    hide OnChildren, OnCancelled, OnWaited, OnCounted, OnBuilt;
    hide FromSubmitter, InsertEntry, ExpireEntries, ToBackend, Due;
    if !Status(e) {
      hide Next, Enabled;
      OthersLeaveStatus(cfg, s, e);
    }
  }

  // ---- A self-refreshing process keeps its own entry --------------------------------

  /** The hypothesis on one event: a claimed device read succeeds, and the sweep comes at
      most lifetime minus interval after this turn's claim call. */
  predicate Timely(cfg: DaemonConfig, s: State, e: Event) {
    && (e.Read? ==> FromSubmitter(cfg.id, e.reading, cfg.dispatchQueue).Ok?)
    && (e.Expire? ==> e.at - s.own.claimCall <= cfg.ttl - cfg.interval)
  }

  ghost predicate TimelyRun(cfg: DaemonConfig, s: State, es: seq<Event>)
    requires Run(cfg, s, es)
  {
    es != [] ==>
      && TimelyRun(cfg, s, es[..|es| - 1])
      && Timely(cfg, Exec(cfg, s, es[..|es| - 1]), es[|es| - 1])
  }

  /** The entry is there, and no older than the last slot taken. */
  predicate Fresh(cfg: DaemonConfig, own: OwnStatus, pc: Pc) {
    && own.claimCall <= own.clock
    && cfg.id in own.registry
    && own.registry[cfg.id].backend.queueName == cfg.dispatchQueue
    && (own.lastClaimed.Some? ==>
          && own.lastClaimed.value <= own.claimCall
          && (!pc.Reading? ==> own.registry[cfg.id].lastRefreshed >= own.lastClaimed.value))
    && (pc.Reading? || pc.Publishing? || pc.Expiring? ==>
          own.lastClaimed.Some? && own.claimCall - own.lastClaimed.value < cfg.interval)
  }

  lemma StepKeepsFresh(cfg: DaemonConfig, s: State, e: Event)
    requires cfg.interval > 0 && Fresh(cfg, s.own, s.pc) && Enabled(cfg, s, e) && Timely(cfg, s, e)
    ensures Fresh(cfg, Next(cfg, s, e).own, Next(cfg, s, e).pc)
  {
    hide Next, Enabled, Timely;
    if Status(e) {
      StatusKeepsFresh(cfg, s, e);
    } else {
      OthersLeaveStatus(cfg, s, e);
    }
  }

  lemma StatusKeepsFresh(cfg: DaemonConfig, s: State, e: Event)
    requires cfg.interval > 0 && Fresh(cfg, s.own, s.pc) && Enabled(cfg, s, e) && Timely(cfg, s, e)
    requires Status(e)
    ensures Fresh(cfg, Next(cfg, s, e).own, Next(cfg, s, e).pc)
  {
    hide OnGuard, OnClaim, OnRead, OnExpire, OnTook, OnRelease, OnAccepted, OnGaveUp, OnNextEntry, OnCheck, OnSent, NextJob;
    hide OnChildren, OnCancelled, OnWaited, OnCounted, OnBuilt;
    match e
    case Claim(at) => ClaimKeepsFresh(cfg, s, at);
    case Read(at, reading) => ReadKeepsFresh(cfg, s, at, reading);
    case Expire(at) => ExpireKeepsFresh(cfg, s, at);
    case Publish(_, _) =>
  }

  lemma ClaimKeepsFresh(cfg: DaemonConfig, s: State, at: int)
    requires cfg.interval > 0 && Fresh(cfg, s.own, s.pc) && Enabled(cfg, s, Claim(at))
    ensures Fresh(cfg, OnClaim(cfg, s, at).own, OnClaim(cfg, s, at).pc)
  {
  }

  lemma ReadKeepsFresh(cfg: DaemonConfig, s: State, at: int, reading: DeviceReading)
    requires Fresh(cfg, s.own, s.pc) && Enabled(cfg, s, Read(at, reading)) && Timely(cfg, s, Read(at, reading))
    ensures Fresh(cfg, OnRead(cfg, s, at, reading).own, OnRead(cfg, s, at, reading).pc)
  {
  }

  lemma ExpireKeepsFresh(cfg: DaemonConfig, s: State, at: int)
    requires Fresh(cfg, s.own, s.pc) && Enabled(cfg, s, Expire(at)) && Timely(cfg, s, Expire(at))
    ensures Fresh(cfg, OnExpire(cfg, s, at).own, OnExpire(cfg, s, at).pc)
  {
  }

  /** However long its turns take, the daemon never sweeps its own entry. */
  lemma {:induction false} NeverExpiresItself(cfg: DaemonConfig, s: State, es: seq<Event>)
    requires Init(cfg, s) && Run(cfg, s, es) && TimelyRun(cfg, s, es) && cfg.interval > 0
    ensures Fresh(cfg, Exec(cfg, s, es).own, Exec(cfg, s, es).pc)
    ensures cfg.id in Exec(cfg, s, es).own.registry
  {
    hide Next, Enabled, Timely;
    if es != [] {
      var n := |es| - 1;
      NeverExpiresItself(cfg, s, es[..n]);
      StepKeepsFresh(cfg, Exec(cfg, s, es[..n]), es[n]);
    }
  }

  // ---- Sliced waiting ---------------------------------------------------------------

  /** When, in nanoseconds after its wait began, a job ends, and how. */
  datatype Profile = Never | Ends(after: nat, outcome: WaitOutcome)

  /** One uninterrupted wait of `limit` nanoseconds. */
  function SingleWait(p: Profile, limit: int): WaitOutcome {
    if p.Ends? && p.after <= limit then p.outcome else TimedOut
  }

  /** A one-second slice begun after `elapsed`: it times out after exactly one second
      unless the job ends within it. */
  predicate SliceOf(p: Profile, elapsed: int, outcome: WaitOutcome, lasted: int) {
    outcome == SingleWait(p, elapsed + NANOS) && (outcome.TimedOut? ==> lasted == NANOS)
  }

  /** `es` only waits, on a job that behaves like `p`. */
  ghost predicate WaitsOn(cfg: DaemonConfig, s: State, es: seq<Event>, p: Profile)
    requires Run(cfg, s, es)
  {
    es != [] ==>
      var m, e := Exec(cfg, s, es[..|es| - 1]), es[|es| - 1];
      && WaitsOn(cfg, s, es[..|es| - 1], p)
      && (e.Check? || e.Waited?)
      && (e.Waited? && m.pc.Waiting? ==> SliceOf(p, m.pc.elapsed, e.outcome, e.lasted))
  }

  ghost function Timeouts(es: seq<Event>): nat {
    if es == [] then 0
    else Timeouts(es[..|es| - 1]) + if es[|es| - 1].Waited? && es[|es| - 1].outcome.TimedOut? then 1 else 0
  }

  /** Where the loop stands once a wait has ended with `outcome`. */
  function Decided(cfg: DaemonConfig, x: InFlight, counts: seq<Counts>, outcome: WaitOutcome): Pc {
    if outcome.Done? then Counting(x, counts)
    else Replying(x.delivery, CancelQuantumTask(x.delivery.task, Error(DeviceError, None)), AfterCollecting(cfg))
  }

  /** Still waiting after `t` timed-out slices, or decided as one wait of `w` seconds
      would have decided. */
  predicate SlicedAs(cfg: DaemonConfig, pc: Pc, x: InFlight, counts: seq<Counts>, p: Profile, t: nat, w: int) {
    || (&& t < w && (t > 0 ==> SingleWait(p, t * NANOS).TimedOut?)
        && (pc == WaitCheck(x, counts, t * NANOS) || pc == Waiting(x, counts, t * NANOS)))
    || (t <= w && pc == Decided(cfg, x, counts, SingleWait(p, w * NANOS)))
  }

  /** Waiting in slices gives the outcome of a single deadline wait, after at most W
      timed-out slices. */
  lemma {:induction false} SlicedWaitRefinesDeadlineWait(cfg: DaemonConfig, s: State, es: seq<Event>, p: Profile)
    requires s.pc.WaitCheck? && s.pc.elapsed == 0 && |s.pc.counts| < |s.pc.entry.jobs| && !s.stop
    requires Run(cfg, s, es) && WaitsOn(cfg, s, es, p)
    requires p.Ends? ==> !p.outcome.TimedOut?
    requires cfg.waitTimeout > 0 && cfg.waitTimeout * NANOS < TWO63
    ensures !Exec(cfg, s, es).stop
    ensures SlicedAs(cfg, Exec(cfg, s, es).pc, s.pc.entry, s.pc.counts, p, Timeouts(es), cfg.waitTimeout)
    ensures |es| <= 2 * Timeouts(es) + 2
    ensures Exec(cfg, s, es).pc.WaitCheck? ==> |es| <= 2 * Timeouts(es)
    ensures Exec(cfg, s, es).pc.Waiting? ==> |es| <= 2 * Timeouts(es) + 1
  {
    hide Next, Enabled, SlicedAs;
    if es == [] {
      StartsSliced(cfg, s, p);
    } else {
      var n := |es| - 1;
      SlicedWaitRefinesDeadlineWait(cfg, s, es[..n], p);
      SliceStep(cfg, Exec(cfg, s, es[..n]), es[n], s.pc.entry, s.pc.counts, p, Timeouts(es[..n]));
    }
  }

  lemma StartsSliced(cfg: DaemonConfig, s: State, p: Profile)
    requires s.pc.WaitCheck? && s.pc.elapsed == 0 && cfg.waitTimeout > 0
    ensures SlicedAs(cfg, s.pc, s.pc.entry, s.pc.counts, p, 0, cfg.waitTimeout)
  {
  }

  lemma SliceStep(cfg: DaemonConfig, m: State, e: Event, x: InFlight, counts: seq<Counts>, p: Profile, t: nat)
    requires Enabled(cfg, m, e) && (e.Check? || e.Waited?) && !m.stop
    requires e.Waited? && m.pc.Waiting? ==> SliceOf(p, m.pc.elapsed, e.outcome, e.lasted)
    requires p.Ends? ==> !p.outcome.TimedOut?
    requires cfg.waitTimeout > 0 && cfg.waitTimeout * NANOS < TWO63
    requires SlicedAs(cfg, m.pc, x, counts, p, t, cfg.waitTimeout)
    ensures var t' := t + if e.Waited? && e.outcome.TimedOut? then 1 else 0;
            var m' := Next(cfg, m, e);
            && !m'.stop
            && SlicedAs(cfg, m'.pc, x, counts, p, t', cfg.waitTimeout)
            && (e.Check? ==> m.pc.WaitCheck? && m'.pc.Waiting?)
            && (e.Waited? ==> m.pc.Waiting? && (m'.pc.WaitCheck? ==> t' == t + 1) && !m'.pc.Waiting?)
  {
    hide OnTook, OnBuilt, OnAccepted, OnRead, OnExpire, OnClaim, OnRelease, OnChildren, NextJob;
    ConversionIsExactInRange(cfg.waitTimeout * NANOS);
  }

  /** Without a deadline: still waiting after `t` timed-out slices in which the job had not
      ended, or decided by the job's own end, in the slice in which it came. */
  predicate SlicedForever(cfg: DaemonConfig, pc: Pc, x: InFlight, counts: seq<Counts>, p: Profile, t: nat) {
    || (&& (t > 0 ==> SingleWait(p, t * NANOS).TimedOut?)
        && (pc == WaitCheck(x, counts, t * NANOS) || pc == Waiting(x, counts, t * NANOS)))
    || (p.Ends? && p.after <= (t + 1) * NANOS && pc == Decided(cfg, x, counts, p.outcome))
  }

  /** A timeout of zero waits for as long as the job takes: no number of timed-out slices
      ends the wait, and only the job's own end decides it. */
  lemma {:induction false} UnboundedWaitNeverTimesOut(cfg: DaemonConfig, s: State, es: seq<Event>, p: Profile)
    requires s.pc.WaitCheck? && s.pc.elapsed == 0 && |s.pc.counts| < |s.pc.entry.jobs| && !s.stop
    requires Run(cfg, s, es) && WaitsOn(cfg, s, es, p)
    requires p.Ends? ==> !p.outcome.TimedOut?
    requires cfg.waitTimeout == 0
    ensures !Exec(cfg, s, es).stop
    ensures SlicedForever(cfg, Exec(cfg, s, es).pc, s.pc.entry, s.pc.counts, p, Timeouts(es))
  {
    hide Next, Enabled, SlicedForever;
    if es == [] {
      StartsForever(cfg, s, p);
    } else {
      var n := |es| - 1;
      UnboundedWaitNeverTimesOut(cfg, s, es[..n], p);
      ForeverStep(cfg, Exec(cfg, s, es[..n]), es[n], s.pc.entry, s.pc.counts, p, Timeouts(es[..n]));
    }
  }

  lemma StartsForever(cfg: DaemonConfig, s: State, p: Profile)
    requires s.pc.WaitCheck? && s.pc.elapsed == 0
    ensures SlicedForever(cfg, s.pc, s.pc.entry, s.pc.counts, p, 0)
  {
  }

  lemma ForeverStep(cfg: DaemonConfig, m: State, e: Event, x: InFlight, counts: seq<Counts>, p: Profile, t: nat)
    requires Enabled(cfg, m, e) && (e.Check? || e.Waited?) && !m.stop && cfg.waitTimeout == 0
    requires e.Waited? && m.pc.Waiting? ==> SliceOf(p, m.pc.elapsed, e.outcome, e.lasted)
    requires p.Ends? ==> !p.outcome.TimedOut?
    requires SlicedForever(cfg, m.pc, x, counts, p, t)
    ensures var t' := t + if e.Waited? && e.outcome.TimedOut? then 1 else 0;
            !Next(cfg, m, e).stop && SlicedForever(cfg, Next(cfg, m, e).pc, x, counts, p, t')
  {
    hide OnTook, OnBuilt, OnAccepted, OnRead, OnExpire, OnClaim, OnRelease, OnChildren, NextJob;
  }

  /** That range is exact: the deadline test means the configured timeout, at every elapsed
      time the clock can show, if and only if the timeout fits the clock's range. Beyond
      it, 9223372037 seconds are out of time before the first nanosecond. */
  lemma DeadlineIsHonouredExactlyInRange(cfg: DaemonConfig)
    requires cfg.waitTimeout > 0
    ensures (forall elapsed :: 0 <= elapsed < TWO63 ==>
               (OutOfTime(cfg, elapsed) <==> elapsed >= cfg.waitTimeout * NANOS))
       <==> cfg.waitTimeout * NANOS < TWO63
    ensures cfg.waitTimeout == 9223372037 ==> OutOfTime(cfg, 0)
  {
    ConversionIsExactInRange(cfg.waitTimeout * NANOS);
    if cfg.waitTimeout * NANOS >= TWO63 {
      CountFallsShort(cfg.waitTimeout);
      assert OutOfTime(cfg, TWO63 - 1);
    }
  }

  /** `es` stays within one in-flight task; a timed-out slice lasts at least a second. */
  predicate CollectsOnly(es: seq<Event>) {
    forall e :: e in es ==>
      (e.Check? || e.Counted? || e.Waited?) && (e.Waited? && e.outcome.TimedOut? ==> e.lasted >= NANOS)
  }

  /** `t` timed-out slices so far: at most `w` for every job already finished, and one
      per whole second of the current wait. */
  predicate Spent(pc: Pc, x: InFlight, t: nat, w: int) {
    match pc
    case WaitCheck(y, counts, elapsed) => y == x && SpentOn(x, |counts|, elapsed, t, w)
    case Waiting(y, counts, elapsed) => y == x && SpentOn(x, |counts|, elapsed, t, w) && |counts| < |x.jobs|
    case Counting(y, counts) => y == x && t <= |counts| * w + w && |counts| < |x.jobs|
    case Replying(_, _, _) => t <= |x.jobs| * w
    case _ => false
  }

  predicate SpentOn(x: InFlight, done: nat, elapsed: int, t: nat, w: int) {
    && done <= |x.jobs| && 0 <= elapsed < w * NANOS && (done == |x.jobs| ==> elapsed == 0)
    && t <= done * w + elapsed / NANOS
  }

  lemma {:induction false} OneMore(done: nat, n: nat, w: int)
    requires done < n && w > 0
    ensures done * w + w <= n * w
    ensures (done + 1) * w == done * w + w
  {
    if done + 1 < n {
      OneMore(done, n - 1, w);
      assert (n - 1) * w + w == n * w;
    }
  }

  lemma SpentStep(cfg: DaemonConfig, m: State, e: Event, x: InFlight, t: nat)
    requires Enabled(cfg, m, e) && !m.stop && CollectsOnly([e])
    requires cfg.waitTimeout > 0 && cfg.waitTimeout * NANOS < TWO63
    requires Spent(m.pc, x, t, cfg.waitTimeout)
    ensures !Next(cfg, m, e).stop
    ensures Spent(Next(cfg, m, e).pc, x, t + if e.Waited? && e.outcome.TimedOut? then 1 else 0, cfg.waitTimeout)
  {
    hide OnTook, OnBuilt, OnAccepted, OnRead, OnExpire, OnClaim, OnRelease, OnChildren, NextJob;
    assert e in [e];
    ConversionIsExactInRange(cfg.waitTimeout * NANOS);
    if m.pc.Waiting? || m.pc.Counting? {
      OneMore(|m.pc.counts|, |x.jobs|, cfg.waitTimeout);
    }
  }

  /** Without a shutdown, collecting a task of n jobs meets at most n * W timed-out
      slices. */
  lemma {:induction false} CollectionIsBounded(cfg: DaemonConfig, s: State, es: seq<Event>)
    requires s.pc.WaitCheck? && s.pc.counts == [] && s.pc.elapsed == 0 && !s.stop
    requires Run(cfg, s, es) && CollectsOnly(es)
    requires cfg.waitTimeout > 0 && cfg.waitTimeout * NANOS < TWO63
    ensures !Exec(cfg, s, es).stop
    ensures Spent(Exec(cfg, s, es).pc, s.pc.entry, Timeouts(es), cfg.waitTimeout)
    ensures Timeouts(es) <= |s.pc.entry.jobs| * cfg.waitTimeout
  {
    hide Next, Enabled;
    if es != [] {
      var n := |es| - 1;
      CollectionIsBounded(cfg, s, es[..n]);
      SpentStep(cfg, Exec(cfg, s, es[..n]), es[n], s.pc.entry, Timeouts(es[..n]));
      var pc := Exec(cfg, s, es).pc;
      if !pc.Replying? && |pc.counts| < |s.pc.entry.jobs| {
        OneMore(|pc.counts|, |s.pc.entry.jobs|, cfg.waitTimeout);
      }
    }
  }

  // ---- The submission trace ---------------------------------------------------------

  /** Inside a call of submitQuantumTask. */
  predicate InCall(pc: Pc) {
    pc.Discovering? || pc.SubmitCheck? || pc.Submitting? || pc.Cancelling?
  }

  /** `es` is (part of) one such call, whose device places jobs at `p` if anywhere. */
  ghost predicate OneCall(cfg: DaemonConfig, s: State, es: seq<Event>, p: Placement)
    requires Run(cfg, s, es)
  {
    es != [] ==>
      && InCall(Exec(cfg, s, es[..|es| - 1]).pc)
      && (es[|es| - 1].Children? ==> PlacementFor(es[|es| - 1].answer) in {Ok(p), Err(Error(SubmissionFailed, None))})
      && OneCall(cfg, s, es[..|es| - 1], p)
  }

  /** How state and device trace have moved since the call began at `s0`, at each place it
      can be or end: `k` jobs submitted, the first `k` circuits in order. */
  ghost predicate SubmissionTrace(s0: State, d: Delivery, f: CircuitFormat, p: Placement, k: nat, s: State) {
    var n := |d.task.circuitFiles|;
    k <= n && s.device.counted == s0.device.counted &&
    var jobs := JobsFor(d.task, f, p, |s0.device.submitted|, k);
    s.device.submitted == s0.device.submitted + SubmissionsOf(d, jobs) &&
    var cancelled := s.device.cancelled;
    var before := s0.device.cancelled;
    match s.pc
    case Discovering(x, g) => x == d && g == f && k == 0 && cancelled == before
    case SubmitCheck(x, g, q, js) => x == d && g == f && q == p && js == jobs && k < n && cancelled == before
    case Submitting(x, g, q, js) => x == d && g == f && q == p && js == jobs && k < n && cancelled == before
    case Cancelling(x, todo) => x == d && k < n && |todo| <= k && before + jobs == cancelled + todo
    case Replying(x, r, _) => x == d && !r.executionStatus && k < n && cancelled == before
    case WaitCheck(x, counts, _) => x == InFlight(d, jobs) && counts == [] && k == n && cancelled == before
    case Ready => k == n && cancelled == before && s.batch == s0.batch + [InFlight(d, jobs)]
    case Top => k < n && cancelled == before + jobs
    case Collecting => k < n && cancelled == before + jobs
    case _ => false
  }

  ghost function SubmittedBy(es: seq<Event>): nat {
    if es == [] then 0 else SubmittedBy(es[..|es| - 1]) + if es[|es| - 1].JobAccepted? then 1 else 0
  }

  /** Submission is exact: success puts one job per circuit file on the device, in order,
      each with that file's bytes and one common format, shot count and placement, and
      cancels none; shutdown after k submissions leaves exactly the first k, each with a
      cancel attempt; a refusal after k leaves exactly the first k and cancels none. */
  lemma {:induction false} SubmissionTraceIsExact(
    cfg: DaemonConfig, s: State, es: seq<Event>, d: Delivery, f: CircuitFormat, p: Placement)
    requires s.pc == Discovering(d, f) && ValidateSubmission(d.task) == Ok(f)
    requires Run(cfg, s, es) && OneCall(cfg, s, es, p)
    ensures Exec(cfg, s, es).batch == s.batch || Exec(cfg, s, es).pc.Ready?
    ensures SubmissionTrace(s, d, f, p, SubmittedBy(es), Exec(cfg, s, es))
    ensures AskedInOrder(Exec(cfg, s, es).device.submitted, |s.device.submitted|, d, p)
  {
    hide Next, Enabled, SubmissionTrace, AskedInOrder, ValidateSubmission;
    SubmissionIsExact(d.task);
    if es == [] {
      CallBegins(s, d, f, p);
    } else {
      var i := |es| - 1;
      SubmissionTraceIsExact(cfg, s, es[..i], d, f, p);
      CallStep(cfg, s, Exec(cfg, s, es[..i]), es[i], d, f, p, SubmittedBy(es[..i]));
    }
    TraceAsksInOrder(s, d, f, p, SubmittedBy(es), Exec(cfg, s, es));
  }

  /** From place `first` on, submission i is `d`'s circuit i and asks for it, placed at `p`. */
  predicate AskedInOrder(submitted: seq<Submitted>, first: nat, d: Delivery, p: Placement) {
    forall h :: first <= h < |submitted| ==>
      && submitted[h].delivery == d && submitted[h].circuit == h - first && submitted[h].job.handle == h
      && submitted[h].job.placement == p && AsksFor(submitted[h].job.request, d.task, h - first)
  }

  lemma TraceAsksInOrder(s0: State, d: Delivery, f: CircuitFormat, p: Placement, k: nat, s: State)
    requires SubmissionTrace(s0, d, f, p, k, s) && ValidateSubmission(d.task) == Ok(f)
    ensures AskedInOrder(s.device.submitted, |s0.device.submitted|, d, p)
  {
    hide RequestFor, AsksFor, ValidateSubmission;
    SubmissionIsExact(d.task);
  }

  lemma CallBegins(s: State, d: Delivery, f: CircuitFormat, p: Placement)
    requires s.pc == Discovering(d, f)
    ensures SubmissionTrace(s, d, f, p, 0, s)
  {
    assert JobsFor(d.task, f, p, |s.device.submitted|, 0) == [];
    assert SubmissionsOf(d, []) == [];
  }

  lemma CallStep(
    cfg: DaemonConfig, s0: State, m: State, e: Event, d: Delivery, f: CircuitFormat, p: Placement, k: nat)
    requires InCall(m.pc) && Enabled(cfg, m, e) && m.batch == s0.batch && d.task.circuitFiles != []
    requires e.Children? ==> PlacementFor(e.answer) in {Ok(p), Err(Error(SubmissionFailed, None))}
    requires SubmissionTrace(s0, d, f, p, k, m)
    ensures var m' := Next(cfg, m, e);
            && (m'.batch == s0.batch || m'.pc.Ready?)
            && SubmissionTrace(s0, d, f, p, k + (if e.JobAccepted? then 1 else 0), m')
  {
    hide OnClaim, OnRead, OnExpire, OnGuard, OnTook, OnRelease, OnWaited, OnCounted, OnBuilt, OnNextEntry, OnSent;
    hide OnAccepted, OnCancelled, NextJob, JobsFor, SubmissionsOf, ValidateSubmission, PlacementFor;
    if e.JobAccepted? {
      AcceptedExtendsTrace(cfg, s0, m, d, f, p, k);
    } else if e.Cancelled? {
      CancelledExtendsTrace(s0, m, d, f, p, k);
    } else {
      SizeOfJobs(d, f, p, |s0.device.submitted|, k);
      if e.GaveUp? {
        assert m.device.cancelled + [] == m.device.cancelled;
      }
    }
  }

  lemma SizeOfJobs(d: Delivery, f: CircuitFormat, p: Placement, first: nat, k: nat)
    requires k <= |d.task.circuitFiles|
    ensures |JobsFor(d.task, f, p, first, k)| == k
  {
  }

  lemma AcceptedExtendsTrace(
    cfg: DaemonConfig, s0: State, m: State, d: Delivery, f: CircuitFormat, p: Placement, k: nat)
    requires Enabled(cfg, m, JobAccepted) && m.batch == s0.batch && SubmissionTrace(s0, d, f, p, k, m)
    ensures var m' := OnAccepted(cfg, m, NextJob(m));
            (m'.batch == s0.batch || m'.pc.Ready?) && SubmissionTrace(s0, d, f, p, k + 1, m')
  {
    hide RequestFor;
    var first := |s0.device.submitted|;
    var jobs := JobsFor(d.task, f, p, first, k);
    assert JobsFor(d.task, f, p, first, k + 1) == jobs + [NextJob(m)];
    assert SubmissionsOf(d, jobs + [NextJob(m)]) == SubmissionsOf(d, jobs) + [Submitted(d, k, NextJob(m))];
  }

  lemma CancelledExtendsTrace(s0: State, m: State, d: Delivery, f: CircuitFormat, p: Placement, k: nat)
    requires m.pc.Cancelling? && m.pc.todo != [] && m.batch == s0.batch && SubmissionTrace(s0, d, f, p, k, m)
    ensures OnCancelled(m).batch == s0.batch && SubmissionTrace(s0, d, f, p, k, OnCancelled(m))
  {
    hide JobsFor;
  }

  // ---- Results come from the device -------------------------------------------------

  /** The counts collected so far for the task in hand are the last the device reported,
      job by job. */
  predicate FromDevice(x: InFlight, counts: seq<Counts>, counted: seq<(Job, Counts)>) {
    && |counts| <= |x.jobs| && |counts| <= |counted|
    && forall i :: 0 <= i < |counts| ==> counted[|counted| - |counts| + i] == (x.jobs[i], counts[i])
  }

  predicate Traced(pc: Pc, counted: seq<(Job, Counts)>) {
    match pc
    case WaitCheck(x, counts, _) => FromDevice(x, counts, counted)
    case Waiting(x, counts, _) => FromDevice(x, counts, counted)
    case Counting(x, counts) => FromDevice(x, counts, counted)
    case _ => true
  }

  lemma StepKeepsTraced(cfg: DaemonConfig, s: State, e: Event)
    requires Traced(s.pc, s.device.counted) && Enabled(cfg, s, e)
    ensures Traced(Next(cfg, s, e).pc, Next(cfg, s, e).device.counted)
  {
    hide CompileFor, Assigned, FromSubmitter, InsertEntry, ExpireEntries, ToBackend, Due, OutOfTime, BuildResult;
    hide NextJob, ValidateSubmission, PlacementFor, FromDevice, OnCounted;
    if e.Counted? {
      CountedKeepsTraced(cfg, s, e.job, e.reported);
    }
    forall x: InFlight ensures FromDevice(x, [], s.device.counted) { NothingCounted(x, s.device.counted); }
  }

  lemma NothingCounted(x: InFlight, counted: seq<(Job, Counts)>)
    ensures FromDevice(x, [], counted)
  {
  }

  lemma CountedKeepsTraced(cfg: DaemonConfig, s: State, job: Job, reported: Option<Counts>)
    requires Enabled(cfg, s, Counted(job, reported)) && Traced(s.pc, s.device.counted)
    ensures Traced(OnCounted(cfg, s, job, reported).pc, OnCounted(cfg, s, job, reported).device.counted)
  {
  }

  lemma {:induction false} RunIsTraced(cfg: DaemonConfig, s: State, es: seq<Event>)
    requires Init(cfg, s) && Run(cfg, s, es)
    ensures Traced(Exec(cfg, s, es).pc, Exec(cfg, s, es).device.counted)
  {
    hide Next, Enabled;
    if es != [] {
      var n := |es| - 1;
      RunIsTraced(cfg, s, es[..n]);
      StepKeepsTraced(cfg, Exec(cfg, s, es[..n]), es[n]);
    }
  }

  /** `jobs[i]` is what the device returned when `d`'s circuit `i` was submitted. */
  predicate Returned(d: Delivery, jobs: seq<Job>, submitted: seq<Submitted>) {
    forall i :: 0 <= i < |jobs| ==>
      jobs[i].handle < |submitted| && submitted[jobs[i].handle] == Submitted(d, i, jobs[i])
  }

  predicate OwnsInHand(pc: Pc, submitted: seq<Submitted>) {
    match pc
    case SubmitCheck(d, _, _, jobs) => Returned(d, jobs, submitted)
    case Submitting(d, _, _, jobs) => Returned(d, jobs, submitted)
    case WaitCheck(x, _, _) => Returned(x.delivery, x.jobs, submitted)
    case Waiting(x, _, _) => Returned(x.delivery, x.jobs, submitted)
    case Counting(x, _) => Returned(x.delivery, x.jobs, submitted)
    case _ => true
  }

  /** Every job in hand or in flight is its own task's, and handles identify submissions. */
  ghost predicate Owns(s: State) {
    && OwnsInHand(s.pc, s.device.submitted)
    && (forall x :: x in s.batch ==> Returned(x.delivery, x.jobs, s.device.submitted))
    && forall h :: 0 <= h < |s.device.submitted| ==> s.device.submitted[h].job.handle == h
  }

  lemma StepKeepsOwns(cfg: DaemonConfig, s: State, e: Event)
    requires Owns(s) && Enabled(cfg, s, e)
    ensures Owns(Next(cfg, s, e))
  {
    hide Next, Enabled, Owns;
    match e
    case JobAccepted => AcceptedKeepsOwns(cfg, s);
    case Children(answer) => ChildrenKeepOwns(cfg, s, answer);
    case NextEntry => NextEntryKeepsOwns(cfg, s);
    case _ =>
      if Intake(e) || Status(e) {
        IntakeKeepsOwns(cfg, s, e);
      } else {
        DeviceKeepsOwns(cfg, s, e);
      }
  }

  lemma IntakeKeepsOwns(cfg: DaemonConfig, s: State, e: Event)
    requires Owns(s) && Enabled(cfg, s, e) && (Intake(e) || Status(e))
    ensures Owns(Next(cfg, s, e))
  {
    hide OnChildren, OnAccepted, OnCancelled, OnGaveUp, OnNextEntry, OnWaited, OnCounted, OnBuilt, OnSent, Returned;
    hide CompileFor, Assigned, NextJob, ValidateSubmission, FromSubmitter, InsertEntry, ExpireEntries, ToBackend, Due;
  }

  lemma DeviceKeepsOwns(cfg: DaemonConfig, s: State, e: Event)
    requires Owns(s) && Enabled(cfg, s, e) && !Intake(e) && !Status(e)
    requires !e.JobAccepted? && !e.Children? && !e.NextEntry?
    ensures Owns(Next(cfg, s, e))
  {
    hide OnClaim, OnRead, OnPublish, OnExpire, OnGuard, OnCheck, OnTook, OnRelease, OnAccepted, OnChildren, OnNextEntry;
    hide OutOfTime, BuildResult, NextJob, Returned;
  }

  lemma AcceptedKeepsOwns(cfg: DaemonConfig, s: State)
    requires Owns(s) && Enabled(cfg, s, JobAccepted)
    ensures Owns(Next(cfg, s, JobAccepted))
  {
    hide OnClaim, OnRead, OnPublish, OnExpire, OnGuard, OnCheck, OnTook, OnRelease, OnChildren, OnNextEntry;
    hide OnCancelled, OnGaveUp, OnWaited, OnCounted, OnBuilt, OnSent, RequestFor;
  }

  lemma ChildrenKeepOwns(cfg: DaemonConfig, s: State, answer: Query<seq<string>>)
    requires Owns(s) && Enabled(cfg, s, Children(answer))
    ensures Owns(Next(cfg, s, Children(answer)))
  {
  }

  lemma NextEntryKeepsOwns(cfg: DaemonConfig, s: State)
    requires Owns(s) && Enabled(cfg, s, NextEntry)
    ensures Owns(Next(cfg, s, NextEntry))
  {
    hide Returned;
    if s.batch != [] {
      assert s.batch[0] in s.batch;
      assert forall x :: x in s.batch[1..] ==> x in s.batch;
    }
  }

  lemma {:induction false} RunOwnsItsJobs(cfg: DaemonConfig, s: State, es: seq<Event>)
    requires Init(cfg, s) && Run(cfg, s, es)
    ensures Owns(Exec(cfg, s, es))
  {
    hide Next, Enabled;
    if es != [] {
      var n := |es| - 1;
      RunOwnsItsJobs(cfg, s, es[..n]);
      StepKeepsOwns(cfg, Exec(cfg, s, es[..n]), es[n]);
    }
  }

  /** Whenever a result is assembled, in any run: job i is the one returned when this very
      delivery's circuit i was submitted, and asked for that file's bytes in the task's
      format and number of shots; result entry i is what the device reported for that job;
      and the assembly can fail only because a reported count does not fit the wire format. */
  lemma AssembledResultIsTheDevices(cfg: DaemonConfig, s: State, es: seq<Event>)
    requires Init(cfg, s) && Run(cfg, s, es) && SoundEvents(es) && Enabled(cfg, Exec(cfg, s, es), Built)
    ensures var m := Exec(cfg, s, es);
            var x, counted := m.pc.entry, m.device.counted;
            var n := |x.delivery.task.circuitFiles|;
            && |x.jobs| == n == |m.pc.counts| && n <= |counted|
            && Returned(x.delivery, x.jobs, m.device.submitted)
            && (forall i :: 0 <= i < n ==> AsksFor(x.jobs[i].request, x.delivery.task, i))
            && (forall i :: 0 <= i < n ==> counted[|counted| - n + i] == (x.jobs[i], m.pc.counts[i]))
            && match BuildResult(x.delivery.task, Present(m.pc.counts))
               case Ok(r) => r.executionStatus && |r.results| == n && forall i :: 0 <= i < n ==> r.results[i] == m.pc.counts[i]
               case Err(e) => exists i, key :: 0 <= i < n && key in m.pc.counts[i] && m.pc.counts[i][key] > INT32_MAX
  {
    hide Next, OwnEntryOnly, AllHeld, AllInFlightOk, AllRepliesOk, BuildResult, Init, Returned, Held, AsksFor;
    hide ValidateSubmission, RequestFor;
    InitInv(cfg, s);
    RunKeepsInv(cfg, s, es);
    RunIsTraced(cfg, s, es);
    RunOwnsItsJobs(cfg, s, es);
    var m := Exec(cfg, s, es);
    SubmissionIsExact(m.pc.entry.delivery.task);
    AssemblyPreservesCounts(m.pc.entry.delivery.task, m.pc.counts);
  }
}
