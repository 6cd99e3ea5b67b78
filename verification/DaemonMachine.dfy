/** The two device-owning daemons, apps/distributed/worker/main.cpp and
    apps/standalone/main.cpp, as one labelled transition system. Each event is one flag
    read, one call on the device, broker or clock, or one internal move between them;
    everything the environment decides is in the event. */
module DaemonMachine {
  import opened Protocol
  import opened Backends
  import opened Registry
  import opened Throttle
  import opened Selection
  import opened Compilation
  import opened Submission
  import opened Config

  /** Lifetime and interval in nanoseconds, `waitTimeout` in seconds. A worker receives
      on its own dispatch queue; the standalone daemon has no dispatch queue. */
  datatype DaemonConfig = DaemonConfig(
    standalone: bool,
    id: string,
    intake: string,
    dispatchQueue: string,
    ttl: int,
    interval: int,
    waitTimeout: int,
    policy: Policy,
    inputs: seq<string>,
    compiler: Compiler)

  datatype InFlight = InFlight(delivery: Delivery, jobs: seq<Job>)

  datatype Resume = ResumeReceive | ResumeReady | ResumeCollect

  /** Where the work loop stands. */
  datatype Pc =
    | Top
    | Claiming
    | Reading
    | Publishing(status: BackendMessage)
    | Expiring
    | Receiving
    | Polling
    | Ready
    | Discovering(d: Delivery, format: CircuitFormat)
    | SubmitCheck(d: Delivery, format: CircuitFormat, placement: Placement, jobs: seq<Job>)
    | Submitting(d: Delivery, format: CircuitFormat, placement: Placement, jobs: seq<Job>)
    | Cancelling(d: Delivery, todo: seq<Job>)
    | Collecting
    | WaitCheck(entry: InFlight, counts: seq<Counts>, elapsed: int)
    | Waiting(entry: InFlight, counts: seq<Counts>, elapsed: int)
    | Counting(entry: InFlight, counts: seq<Counts>)
    | Replying(d: Delivery, result: QuantumResult, next: Resume)
    | Halted

  datatype WaitOutcome = Done | Canceled | TimedOut | WaitFailed

  datatype Event =
    | Stop                                        // SIGINT or SIGTERM
    | Guard                                       // the outer loop reads the flag
    | Claim(at: int)
    | Read(at: int, reading: DeviceReading)
    | Publish(at: int, ok: bool)
    | Expire(at: int)
    | Check                                       // receive, submit or collect reads the flag
    | Missed                                      // nothing received: empty queue or broker failure
    | Took(delivery: Delivery)
    | Release(index: Option<nat>)                 // getNextReadyTask
    | Children(answer: Query<seq<string>>)
    | JobAccepted
    | JobRefused
    | Cancelled(ok: bool)
    | GaveUp
    | NextEntry
    | Waited(job: Job, outcome: WaitOutcome, lasted: int)
    | Counted(job: Job, reported: Option<Counts>)
    | Built
    | Sent(ok: bool)

  /** The daemon's own device entry and its pacing. `claims`, `deviceReads` (failed ones
      included) and `publications` (refused ones included) are history. */
  datatype OwnStatus = OwnStatus(
    clock: int,
    registry: Entries,
    lastClaimed: Option<int>,
    claimCall: int,
    claims: seq<int>,
    deviceReads: seq<Act>,
    publications: seq<Act>)

  /** What was asked of the device, in order. */
  datatype DeviceTrace = DeviceTrace(submitted: seq<Submitted>, cancelled: seq<Job>, counted: seq<(Job, Counts)>)

  /** `batch` holds what is submitted and not yet collected; `replies`, `abandoned`,
      `quiet` (a runner reported shutdown), `turns` and `device` are history. */
  datatype State = State(
    pc: Pc,
    stop: bool,
    scheduler: seq<Delivery>,
    batch: seq<InFlight>,
    replies: seq<Reply>,
    abandoned: seq<Delivery>,
    quiet: bool,
    turns: nat,
    own: OwnStatus,
    device: DeviceTrace)

  /** `job` is the one to be waited on and read next. */
  predicate Expects(entry: InFlight, counts: seq<Counts>, job: Job) {
    |counts| < |entry.jobs| && job == entry.jobs[|counts|]
  }

  ghost predicate Enabled(cfg: DaemonConfig, s: State, e: Event) {
    match e
    case Stop => true
    case Guard => s.pc.Top?
    case Claim(at) => s.pc.Claiming? && at >= s.own.clock
    case Read(at, _) => s.pc.Reading? && s.own.lastClaimed.Some? && at >= s.own.clock
    case Publish(at, _) => s.pc.Publishing? && s.own.lastClaimed.Some? && at >= s.own.clock
    case Expire(at) => s.pc.Expiring? && at >= s.own.clock
    case Check => s.pc.Receiving? || s.pc.SubmitCheck? || (s.pc.WaitCheck? && |s.pc.counts| < |s.pc.entry.jobs|)
    case Missed => s.pc.Polling?
    case Took(_) => s.pc.Polling?
    case Release(index) => s.pc.Ready? && (index.Some? ==> index.value < |s.scheduler|)
    case Children(_) => s.pc.Discovering?
    case JobAccepted => s.pc.Submitting? && |s.pc.jobs| < |s.pc.d.task.circuitFiles|
    case JobRefused => s.pc.Submitting?
    case Cancelled(_) => s.pc.Cancelling? && s.pc.todo != []
    case GaveUp => s.pc.Cancelling? && s.pc.todo == []
    case NextEntry => s.pc.Collecting?
    case Waited(job, _, lasted) => s.pc.Waiting? && lasted >= 0 && Expects(s.pc.entry, s.pc.counts, job)
    case Counted(job, _) => s.pc.Counting? && Expects(s.pc.entry, s.pc.counts, job)
    case Built => s.pc.WaitCheck? && |s.pc.counts| >= |s.pc.entry.jobs|
    case Sent(_) => s.pc.Replying?
  }

  /** compileAndSchedule's lookup and compilation. */
  ghost function CompileFor(cfg: DaemonConfig, registry: Entries, t: QuantumTask): Result<QuantumTask> {
    if t.scheduledQpu !in registry then Err(Error(NoBackendAvailable, None))
    else CompileTask(t, registry[t.scheduledQpu].backend, cfg.inputs, cfg.compiler)
  }

  /** What the receive handler leaves of a delivery: a worker compiles for the QPU the
      selector assigned, the standalone daemon selects first. */
  ghost function Assigned(cfg: DaemonConfig, registry: Entries, d: Delivery): Result<Delivery> {
    if !cfg.standalone then Ok(d)
    else match Choose(registry, d.task, cfg.policy, cfg.inputs)
      case None => Err(Error(NoBackendAvailable, None))
      case Some(name) => Ok(d.(task := d.task.(scheduledQpu := name), selected := true))
  }

  function Fail(s: State, d: Delivery, e: Error, next: Resume): State {
    s.(pc := Replying(d, CancelQuantumTask(d.task, e), next))
  }

  function AfterHandling(cfg: DaemonConfig): Resume {
    if cfg.standalone then ResumeReceive else ResumeReady
  }

  function AfterCollecting(cfg: DaemonConfig): Resume {
    if cfg.standalone then ResumeReady else ResumeCollect
  }

  function ResumeAt(r: Resume): Pc {
    match r
    case ResumeReceive => Receiving
    case ResumeReady => Ready
    case ResumeCollect => Collecting
  }

  /** Process exit drops whatever the scheduler still holds. */
  function OnGuard(s: State): State {
    if s.stop then s.(pc := Halted, scheduler := [], abandoned := s.abandoned + s.scheduler)
    else s.(pc := Claiming, turns := s.turns + 1)
  }

  function OnClaim(cfg: DaemonConfig, s: State, at: int): State {
    if Due(s.own.lastClaimed, cfg.interval, at) then
      s.(pc := Reading,
         own := s.own.(clock := at, claimCall := at, lastClaimed := Some(at), claims := s.own.claims + [at]))
    else s.(pc := Expiring, own := s.own.(clock := at, claimCall := at))
  }

  function OnRead(cfg: DaemonConfig, s: State, at: int, reading: DeviceReading): State
    requires s.own.lastClaimed.Some?
  {
    var made := s.own.deviceReads + [Act(s.own.lastClaimed.value, at)];
    match FromSubmitter(cfg.id, reading, cfg.dispatchQueue)
    case Err(_) => s.(pc := Expiring, own := s.own.(clock := at, deviceReads := made))
    case Ok(snapshot) =>
      s.(pc := if cfg.standalone then Expiring else Publishing(ToBackend(snapshot)),
         own := s.own.(clock := at, deviceReads := made, registry := InsertEntry(s.own.registry, snapshot, at)))
  }

  function OnPublish(s: State, at: int): State
    requires s.own.lastClaimed.Some?
  {
    s.(pc := Expiring,
       own := s.own.(clock := at, publications := s.own.publications + [Act(s.own.lastClaimed.value, at)]))
  }

  function OnExpire(cfg: DaemonConfig, s: State, at: int): State {
    s.(pc := Receiving, own := s.own.(clock := at, registry := ExpireEntries(s.own.registry, cfg.ttl, at)))
  }

  /** The flag as read by receive, submitQuantumTask or collectQuantumResult. */
  function OnCheck(s: State): State
    requires s.pc.Receiving? || s.pc.SubmitCheck? || s.pc.WaitCheck?
  {
    match s.pc
    case Receiving => s.(pc := if s.stop then Ready else Polling)
    case SubmitCheck(d, format, placement, jobs) =>
      s.(pc := if s.stop then Cancelling(d, jobs) else Submitting(d, format, placement, jobs))
    case WaitCheck(entry, counts, elapsed) =>
      if s.stop then
        s.(pc := Top, quiet := true, batch := [],
           abandoned := s.abandoned + [entry.delivery] + Carried(s.batch))
      else s.(pc := Waiting(entry, counts, elapsed))
  }

  ghost function OnTook(cfg: DaemonConfig, s: State, d: Delivery): State {
    match Assigned(cfg, s.own.registry, d)
    case Err(e) => Fail(s, d, e, AfterHandling(cfg))
    case Ok(a) =>
      match CompileFor(cfg, s.own.registry, a.task)
      case Err(e) => Fail(s, a, e, AfterHandling(cfg))
      case Ok(t) => s.(scheduler := s.scheduler + [a.(task := t)], pc := ResumeAt(AfterHandling(cfg)))
  }

  function Carried(batch: seq<InFlight>): seq<Delivery> {
    seq(|batch|, i requires 0 <= i < |batch| => batch[i].delivery)
  }

  function OnRelease(s: State, i: nat): State
    requires i < |s.scheduler|
  {
    var s' := s.(scheduler := s.scheduler[..i] + s.scheduler[i + 1..]);
    match ValidateSubmission(s.scheduler[i].task)
    case Err(e) => Fail(s', s.scheduler[i], e, ResumeReady)
    case Ok(format) => s'.(pc := Discovering(s.scheduler[i], format))
  }

  function OnChildren(s: State, answer: Query<seq<string>>): State
    requires s.pc.Discovering?
  {
    match PlacementFor(answer)
    case Err(err) => Fail(s, s.pc.d, err, ResumeReady)
    case Ok(placement) => s.(pc := SubmitCheck(s.pc.d, s.pc.format, placement, []))
  }

  /** The job the device returns for the next circuit. */
  function NextJob(s: State): Job
    requires s.pc.Submitting? && |s.pc.jobs| < |s.pc.d.task.circuitFiles|
  {
    Job(|s.device.submitted|, RequestFor(s.pc.d.task, s.pc.format, |s.pc.jobs|), s.pc.placement)
  }

  /** One more job accepted: the next circuit, or the task is in flight. */
  function OnAccepted(cfg: DaemonConfig, s: State, job: Job): State
    requires s.pc.Submitting?
  {
    var jobs := s.pc.jobs + [job];
    var device := s.device.(submitted := s.device.submitted + [Submitted(s.pc.d, |s.pc.jobs|, job)]);
    if |jobs| < |s.pc.d.task.circuitFiles| then
      s.(device := device, pc := SubmitCheck(s.pc.d, s.pc.format, s.pc.placement, jobs))
    else if cfg.standalone then s.(device := device, pc := WaitCheck(InFlight(s.pc.d, jobs), [], 0))
    else s.(device := device, pc := Ready, batch := s.batch + [InFlight(s.pc.d, jobs)])
  }

  function OnCancelled(s: State): State
    requires s.pc.Cancelling? && s.pc.todo != []
  {
    s.(pc := Cancelling(s.pc.d, s.pc.todo[1..]),
       device := s.device.(cancelled := s.device.cancelled + [s.pc.todo[0]]))
  }

  function OnGaveUp(cfg: DaemonConfig, s: State): State
    requires s.pc.Cancelling?
  {
    s.(pc := if cfg.standalone then Top else Collecting, quiet := true, abandoned := s.abandoned + [s.pc.d])
  }

  function OnNextEntry(s: State): State {
    if s.batch == [] then s.(pc := Top) else s.(pc := WaitCheck(s.batch[0], [], 0), batch := s.batch[1..])
  }

  /** Whether a timed-out wait has used up the configured timeout; zero never runs out. */
  predicate OutOfTime(cfg: DaemonConfig, elapsed: int) {
    cfg.waitTimeout > 0 && elapsed >= SecondsToNanos(cfg.waitTimeout)
  }

  function OnWaited(cfg: DaemonConfig, s: State, outcome: WaitOutcome, lasted: int): State
    requires s.pc.Waiting?
  {
    if outcome.Done? then s.(pc := Counting(s.pc.entry, s.pc.counts))
    else if outcome.TimedOut? && !OutOfTime(cfg, s.pc.elapsed + lasted) then
      s.(pc := WaitCheck(s.pc.entry, s.pc.counts, s.pc.elapsed + lasted))
    else Fail(s, s.pc.entry.delivery, Error(DeviceError, None), AfterCollecting(cfg))
  }

  function OnCounted(cfg: DaemonConfig, s: State, job: Job, reported: Option<Counts>): State
    requires s.pc.Counting?
  {
    match reported
    case None => Fail(s, s.pc.entry.delivery, Error(DeviceError, None), AfterCollecting(cfg))
    case Some(c) =>
      s.(pc := WaitCheck(s.pc.entry, s.pc.counts + [c], 0),
         device := s.device.(counted := s.device.counted + [(job, c)]))
  }

  function Present(counts: seq<Counts>): seq<Option<Counts>> {
    seq(|counts|, i requires 0 <= i < |counts| => Some(counts[i]))
  }

  ghost function OnBuilt(cfg: DaemonConfig, s: State): State
    requires s.pc.WaitCheck?
  {
    match BuildResult(s.pc.entry.delivery.task, Present(s.pc.counts))
    case Err(e) => Fail(s, s.pc.entry.delivery, e, AfterCollecting(cfg))
    case Ok(r) => s.(pc := Replying(s.pc.entry.delivery, r, AfterCollecting(cfg)))
  }

  function OnSent(s: State, ok: bool): State
    requires s.pc.Replying?
  {
    s.(pc := ResumeAt(s.pc.next),
       replies := s.replies + [Reply(s.pc.d, s.pc.d.task.resultDestination, s.pc.result, ok)])
  }

  ghost function Next(cfg: DaemonConfig, s: State, e: Event): State
    requires Enabled(cfg, s, e)
  {
    match e
    case Stop => s.(stop := true)
    case Guard => OnGuard(s)
    case Claim(at) => OnClaim(cfg, s, at)
    case Read(at, reading) => OnRead(cfg, s, at, reading)
    case Publish(at, _) => OnPublish(s, at)
    case Expire(at) => OnExpire(cfg, s, at)
    case Check => OnCheck(s)
    case Missed => s.(pc := Ready)
    case Took(d) => OnTook(cfg, s, d)
    case Release(None) => s.(pc := if cfg.standalone then Top else Collecting)
    case Release(Some(i)) => OnRelease(s, i)
    case Children(answer) => OnChildren(s, answer)
    case JobAccepted => OnAccepted(cfg, s, NextJob(s))
    case JobRefused => Fail(s, s.pc.d, Error(SubmissionFailed, None), ResumeReady)
    case Cancelled(_) => OnCancelled(s)
    case GaveUp => OnGaveUp(cfg, s)
    case NextEntry => OnNextEntry(s)
    case Waited(_, outcome, lasted) => OnWaited(cfg, s, outcome, lasted)
    case Counted(job, reported) => OnCounted(cfg, s, job, reported)
    case Built => OnBuilt(cfg, s)
    case Sent(ok) => OnSent(s, ok)
  }

  /** A fresh daemon: its own device read and registered, nothing else done. */
  ghost predicate Init(cfg: DaemonConfig, s: State) {
    exists reading :: StartsFrom(cfg, s, reading)
  }

  ghost predicate StartsFrom(cfg: DaemonConfig, s: State, reading: DeviceReading) {
    var own := FromSubmitter(cfg.id, reading, cfg.dispatchQueue);
    && own.Ok?
    && s == State(Top, s.stop, [], [], [], [], false, 0,
                  OwnStatus(s.own.clock, map[cfg.id := Entry(own.value, s.own.clock)], None, s.own.clock, [], [], []),
                  DeviceTrace([], [], []))
  }

  /** `es` is a run from `s`: every event is enabled where it happens. */
  ghost predicate Run(cfg: DaemonConfig, s: State, es: seq<Event>)
    decreases |es|, 0
  {
    es == [] ||
    (Run(cfg, s, es[..|es| - 1]) && Enabled(cfg, Exec(cfg, s, es[..|es| - 1]), es[|es| - 1]))
  }

  ghost function Exec(cfg: DaemonConfig, s: State, es: seq<Event>): State
    requires Run(cfg, s, es)
    decreases |es|, 1
  {
    if es == [] then s else Next(cfg, Exec(cfg, s, es[..|es| - 1]), es[|es| - 1])
  }
}
