/** What every step and every run of a device-owning daemon keeps. */
module DaemonProofs {
  import opened Protocol
  import opened Backends
  import opened Registry
  import opened Throttle
  import opened Selection
  import opened Compilation
  import opened Submission
  import opened DaemonMachine

  // ---- Conservation -------------------------------------------------------------

  /** The deliveries the program counter itself holds. */
  function InHand(pc: Pc): seq<Delivery> {
    match pc
    case Discovering(d, _) => [d]
    case SubmitCheck(d, _, _, _) => [d]
    case Submitting(d, _, _, _) => [d]
    case Cancelling(d, _) => [d]
    case Replying(d, _, _) => [d]
    case WaitCheck(x, _, _) => [x.delivery]
    case Waiting(x, _, _) => [x.delivery]
    case Counting(x, _) => [x.delivery]
    case _ => []
  }

  /** How often delivery `k` is held: scheduled, in flight, or in hand. */
  ghost function InProgress(s: State, k: Key): nat {
    Occurs(s.scheduler, k) + Occurs(Carried(s.batch), k) + Occurs(InHand(s.pc), k)
  }

  /** ... or held, answered or abandoned: every place a taken delivery can be. */
  ghost function Tokens(s: State, k: Key): nat {
    InProgress(s, k) + Occurs(Answered(s.replies), k) + Occurs(s.abandoned, k)
  }

  ghost function TakenBy(e: Event, k: Key): nat {
    if e.Took? && KeyOf(e.delivery) == k then 1 else 0
  }

  /** One step moves a delivery between places but never copies or drops one. */
  lemma StepConserves(cfg: DaemonConfig, s: State, e: Event, k: Key)
    requires Enabled(cfg, s, e)
    ensures Tokens(Next(cfg, s, e), k) == Tokens(s, k) + TakenBy(e, k)
  {
    hide Occurs, OnGuard, OnTook, OnRelease, OnAccepted, OnGaveUp, OnNextEntry, OnCheck, OnSent;
    match e
    case Guard => GuardConserves(s, k);
    case Took(d) => TookConserves(cfg, s, d, k);
    case Release(Some(i)) => ReleaseConserves(s, i, k);
    case JobAccepted => AcceptedConserves(cfg, s, NextJob(s), k);
    case GaveUp => GaveUpConserves(cfg, s, k);
    case NextEntry => NextEntryConserves(s, k);
    case Check => CheckConserves(s, k);
    case Sent(ok) => SentConserves(s, ok, k);
    case _ => PlainConserves(cfg, s, e);
  }

  /** The events that leave every delivery where it is. */
  predicate Plain(e: Event) {
    match e
    case Guard => false
    case Check => false
    case Took(_) => false
    case Release(index) => index.None?
    case JobAccepted => false
    case GaveUp => false
    case NextEntry => false
    case Sent(_) => false
    case _ => true
  }

  predicate SamePlaces(s: State, s': State) {
    && s'.scheduler == s.scheduler && s'.batch == s.batch && InHand(s'.pc) == InHand(s.pc)
    && s'.replies == s.replies && s'.abandoned == s.abandoned
  }

  lemma PlainConserves(cfg: DaemonConfig, s: State, e: Event)
    requires Enabled(cfg, s, e) && Plain(e)
    ensures SamePlaces(s, Next(cfg, s, e))
  {
    hide SamePlaces, OnClaim, OnRead, OnExpire, OnGuard, OnTook, OnRelease, OnAccepted, OnGaveUp, OnNextEntry, OnCheck, OnSent;
    hide OnChildren, OnCancelled, OnWaited, OnCounted, OnBuilt;
    if e.Claim? || e.Read? || e.Expire? || e.Publish? || e.Missed? || e.Stop? || e.Release? {
      StatusIsPlain(cfg, s, e);
    } else if e.Waited? || e.Counted? || e.Built? {
      CollectingIsPlain(cfg, s, e);
    } else {
      SubmittingIsPlain(cfg, s, e);
    }
  }

  lemma StatusIsPlain(cfg: DaemonConfig, s: State, e: Event)
    requires Enabled(cfg, s, e) && Plain(e)
    requires e.Claim? || e.Read? || e.Expire? || e.Publish? || e.Missed? || e.Stop? || e.Release?
    ensures SamePlaces(s, Next(cfg, s, e))
  {
    hide OnGuard, OnTook, OnRelease, OnAccepted, OnGaveUp, OnNextEntry, OnCheck, OnSent, NextJob;
    hide OnChildren, OnCancelled, OnWaited, OnCounted, OnBuilt;
    hide Due, FromSubmitter, ToBackend, InsertEntry, ExpireEntries;
  }

  lemma SubmittingIsPlain(cfg: DaemonConfig, s: State, e: Event)
    requires Enabled(cfg, s, e) && Plain(e) && (e.Children? || e.JobRefused? || e.Cancelled?)
    ensures SamePlaces(s, Next(cfg, s, e))
  {
    hide OnClaim, OnRead, OnExpire, OnGuard, OnTook, OnRelease, OnAccepted, OnGaveUp, OnNextEntry, OnCheck, OnSent, NextJob;
    hide OnWaited, OnCounted, OnBuilt, PlacementFor;
  }

  lemma CollectingIsPlain(cfg: DaemonConfig, s: State, e: Event)
    requires Enabled(cfg, s, e) && (e.Waited? || e.Counted? || e.Built?)
    ensures SamePlaces(s, Next(cfg, s, e))
  {
    hide OnClaim, OnRead, OnExpire, OnGuard, OnTook, OnRelease, OnAccepted, OnGaveUp, OnNextEntry, OnCheck, OnSent, NextJob;
    hide OnChildren, OnCancelled, OutOfTime, BuildResult;
  }

  lemma GuardConserves(s: State, k: Key)
    requires s.pc.Top?
    ensures Tokens(OnGuard(s), k) == Tokens(s, k)
  {
    hide Occurs;
    Nowhere(k);
    OccursAppend(s.abandoned, s.scheduler, k);
  }

  lemma GaveUpConserves(cfg: DaemonConfig, s: State, k: Key)
    requires s.pc.Cancelling?
    ensures Tokens(OnGaveUp(cfg, s), k) == Tokens(s, k)
  {
    hide Occurs;
    Nowhere(k);
    OccursPush(s.abandoned, s.pc.d, k);
  }

  lemma ReleaseConserves(s: State, i: nat, k: Key)
    requires s.pc.Ready? && i < |s.scheduler|
    ensures Tokens(OnRelease(s, i), k) == Tokens(s, k)
  {
    hide Occurs, ValidateSubmission;
    Nowhere(k);
    OccursRemove(s.scheduler, i, k);
  }

  lemma TookConserves(cfg: DaemonConfig, s: State, d: Delivery, k: Key)
    requires s.pc.Polling?
    ensures Tokens(OnTook(cfg, s, d), k) == Tokens(s, k) + if KeyOf(d) == k then 1 else 0
  {
    hide Occurs, CompileTask, Choose;
    OccursPush([], d, k);
    match Assigned(cfg, s.own.registry, d)
    case Err(_) =>
    case Ok(a) =>
      match CompileFor(cfg, s.own.registry, a.task)
      case Err(_) => OccursPush([], a, k);
      case Ok(t) => OccursPush(s.scheduler, a.(task := t), k);
  }

  lemma AcceptedConserves(cfg: DaemonConfig, s: State, job: Job, k: Key)
    requires s.pc.Submitting?
    ensures Tokens(OnAccepted(cfg, s, job), k) == Tokens(s, k)
  {
    hide Occurs;
    Nowhere(k);
    var s' := OnAccepted(cfg, s, job);
    if s'.pc.Ready? {
      assert Carried(s'.batch) == Carried(s.batch) + [s.pc.d];
      OccursPush(Carried(s.batch), s.pc.d, k);
    }
  }

  lemma NextEntryConserves(s: State, k: Key)
    requires s.pc.Collecting?
    ensures Tokens(OnNextEntry(s), k) == Tokens(s, k)
  {
    hide Occurs;
    Nowhere(k);
    if s.batch != [] {
      assert Carried(s.batch) == [s.batch[0].delivery] + Carried(s.batch[1..]);
      OccursAppend([s.batch[0].delivery], Carried(s.batch[1..]), k);
    }
  }

  lemma CheckConserves(s: State, k: Key)
    requires s.pc.Receiving? || s.pc.SubmitCheck? || s.pc.WaitCheck?
    ensures Tokens(OnCheck(s), k) == Tokens(s, k)
  {
    hide Occurs;
    Nowhere(k);
    if s.pc.WaitCheck? && s.stop {
      assert Carried([]) == [];
      OccursPush(s.abandoned, s.pc.entry.delivery, k);
      OccursAppend(s.abandoned + [s.pc.entry.delivery], Carried(s.batch), k);
    }
  }

  lemma SentConserves(s: State, ok: bool, k: Key)
    requires s.pc.Replying?
    ensures Tokens(OnSent(s, ok), k) == Tokens(s, k)
  {
    hide Occurs;
    Nowhere(k);
    assert Answered(OnSent(s, ok).replies) == Answered(s.replies) + [s.pc.d];
    OccursPush(Answered(s.replies), s.pc.d, k);
  }

  /** How often delivery `k` was taken during a run. */
  ghost function Taken(es: seq<Event>, k: Key): nat {
    if es == [] then 0 else Taken(es[..|es| - 1], k) + TakenBy(es[|es| - 1], k)
  }

  lemma {:induction false} RunConserves(cfg: DaemonConfig, s: State, es: seq<Event>, k: Key)
    requires Run(cfg, s, es)
    ensures Tokens(Exec(cfg, s, es), k) == Tokens(s, k) + Taken(es, k)
  {
    if es != [] {
      var n := |es| - 1;
      RunConserves(cfg, s, es[..n], k);
      StepConserves(cfg, Exec(cfg, s, es[..n]), es[n], k);
    }
  }

  // ---- The inductive invariant ------------------------------------------------------

  /** Only a daemon's own device is ever registered with it. */
  ghost predicate OwnEntryOnly(cfg: DaemonConfig, registry: Entries) {
    forall n :: n in registry ==>
      n == cfg.id && registry[n].backend.name == n && registry[n].backend.queueName == cfg.dispatchQueue
  }

  /** `d` is the task as it was put on the intake, assigned to this daemon's device and
      compiled for a reading `b` of it. */
  ghost predicate PreparedFor(cfg: DaemonConfig, d: Delivery, b: Snapshot) {
    b.name == cfg.id && CompileTask(d.origin.(scheduledQpu := cfg.id), b, cfg.inputs, cfg.compiler) == Ok(d.task)
  }

  ghost predicate Prepared(cfg: DaemonConfig, d: Delivery) {
    exists b :: PreparedFor(cfg, d, b)
  }

  ghost predicate Held(cfg: DaemonConfig, d: Delivery) {
    Sound(d) && d.task.scheduledQpu == cfg.id && Prepared(cfg, d)
  }

  /** Job i asks for circuit file i, all in one format and placement. */
  predicate Requested(t: QuantumTask, f: CircuitFormat, p: Placement, jobs: seq<Job>) {
    && |jobs| <= |t.circuitFiles|
    && forall i :: 0 <= i < |jobs| ==> jobs[i].request == RequestFor(t, f, i) && jobs[i].placement == p
  }

  /** One job per circuit file. */
  ghost predicate EntryOk(cfg: DaemonConfig, x: InFlight) {
    && Held(cfg, x.delivery)
    && x.jobs != [] && |x.jobs| == |x.delivery.task.circuitFiles|
    && ValidateSubmission(x.delivery.task) == Ok(FormatOf(x))
    && Requested(x.delivery.task, FormatOf(x), x.jobs[0].placement, x.jobs)
  }

  function FormatOf(x: InFlight): CircuitFormat
    requires x.jobs != []
  {
    x.jobs[0].request.format
  }

  /** The result carries the task's own ids; a success comes from this daemon's device
      and has one entry per circuit file. */
  ghost predicate ResultOk(cfg: DaemonConfig, d: Delivery, r: QuantumResult) {
    && r.taskId == d.task.taskId && r.destination == d.task.resultDestination
    && r.executedQpu == d.task.scheduledQpu
    && (r.executionStatus <==> r.failure.None?) && (!r.executionStatus ==> r.results == [])
    && (r.executionStatus ==> Held(cfg, d) && |r.results| == |d.task.circuitFiles|)
  }

  ghost predicate ReplyOk(cfg: DaemonConfig, r: Reply) {
    Sound(r.delivery) && r.queue == r.delivery.task.resultDestination && ResultOk(cfg, r.delivery, r.result)
  }

  ghost predicate SubmittingOk(cfg: DaemonConfig, d: Delivery, f: CircuitFormat, p: Placement, jobs: seq<Job>) {
    && Held(cfg, d) && ValidateSubmission(d.task) == Ok(f)
    && |jobs| < |d.task.circuitFiles| && Requested(d.task, f, p, jobs)
  }

  ghost predicate PcOk(cfg: DaemonConfig, pc: Pc) {
    match pc
    case Publishing(status) => !cfg.standalone && status.name == cfg.id && status.queueName == cfg.dispatchQueue
    case Discovering(d, f) => Held(cfg, d) && ValidateSubmission(d.task) == Ok(f)
    case SubmitCheck(d, f, p, jobs) => SubmittingOk(cfg, d, f, p, jobs)
    case Submitting(d, f, p, jobs) => SubmittingOk(cfg, d, f, p, jobs)
    case Cancelling(d, _) => Held(cfg, d)
    case WaitCheck(x, counts, _) => EntryOk(cfg, x) && |counts| <= |x.jobs|
    case Waiting(x, counts, _) => EntryOk(cfg, x) && |counts| < |x.jobs|
    case Counting(x, counts) => EntryOk(cfg, x) && |counts| < |x.jobs|
    case Replying(d, r, _) => Sound(d) && ResultOk(cfg, d, r)
    case _ => true
  }

  /** Points of the loop at which jobs may be in flight. */
  predicate MayCarry(pc: Pc) {
    match pc
    case Ready => true
    case Discovering(_, _) => true
    case SubmitCheck(_, _, _, _) => true
    case Submitting(_, _, _, _) => true
    case Cancelling(_, _) => true
    case Collecting => true
    case WaitCheck(_, _, _) => true
    case Waiting(_, _, _) => true
    case Counting(_, _) => true
    case Replying(_, _, next) => !next.ResumeReceive?
    case _ => false
  }

  /** Points of the loop a daemon can still reach once a runner reported shutdown. */
  predicate Winding(pc: Pc) {
    pc.Top? || pc.Halted? || pc.Collecting? || (pc.WaitCheck? && pc.counts == [])
  }

  ghost predicate AllHeld(cfg: DaemonConfig, ds: seq<Delivery>) {
    forall d :: d in ds ==> Held(cfg, d)
  }

  ghost predicate AllInFlightOk(cfg: DaemonConfig, batch: seq<InFlight>) {
    forall x :: x in batch ==> EntryOk(cfg, x)
  }

  ghost predicate AllRepliesOk(cfg: DaemonConfig, replies: seq<Reply>) {
    forall r :: r in replies ==> ReplyOk(cfg, r)
  }

  ghost predicate Contents(cfg: DaemonConfig, s: State) {
    && PcOk(cfg, s.pc)
    && AllHeld(cfg, s.scheduler)
    && AllInFlightOk(cfg, s.batch)
    && AllRepliesOk(cfg, s.replies)
  }

  predicate Phase(cfg: DaemonConfig, s: State) {
    && (s.batch != [] ==> MayCarry(s.pc) && !cfg.standalone)
    && (s.abandoned != [] || s.quiet || s.pc.Cancelling? || s.pc.Halted? ==> s.stop)
    && (s.quiet ==> Winding(s.pc))
    && (cfg.standalone ==> !s.pc.Collecting? && (s.pc.Replying? ==> !s.pc.next.ResumeCollect?))
  }

  ghost predicate Inv(cfg: DaemonConfig, s: State) {
    OwnEntryOnly(cfg, s.own.registry) && Contents(cfg, s) && Phase(cfg, s)
  }

  /** A delivery an event brings in is sound mail: as it was put on the intake. */
  predicate SoundEvent(e: Event) {
    e.Took? ==> Intact(e.delivery)
  }

  ghost predicate SoundEvents(es: seq<Event>) {
    forall e :: e in es ==> SoundEvent(e)
  }

  lemma InitInv(cfg: DaemonConfig, s: State)
    requires Init(cfg, s)
    ensures Inv(cfg, s) && forall k: Key :: Tokens(s, k) == 0
  {
  }

  lemma StepKeepsInv(cfg: DaemonConfig, s: State, e: Event)
    requires Inv(cfg, s) && Enabled(cfg, s, e) && SoundEvent(e)
    ensures Inv(cfg, Next(cfg, s, e))
  {
    hide Next, Enabled, OwnEntryOnly, Contents, Phase;
    StepKeepsRegistry(cfg, s, e);
    StepKeepsContents(cfg, s, e);
    StepKeepsPhase(cfg, s, e);
  }

  lemma StepKeepsRegistry(cfg: DaemonConfig, s: State, e: Event)
    requires OwnEntryOnly(cfg, s.own.registry) && Enabled(cfg, s, e)
    ensures OwnEntryOnly(cfg, Next(cfg, s, e).own.registry)
  {
    hide OwnEntryOnly, OnRead, OnExpire;
    match e
    case Read(at, reading) => ReadKeepsRegistry(cfg, s, at, reading);
    case Expire(at) => ExpireKeepsRegistry(cfg, s, at);
    case _ => OthersKeepRegistry(cfg, s, e);
  }

  lemma ReadKeepsRegistry(cfg: DaemonConfig, s: State, at: int, reading: DeviceReading)
    requires OwnEntryOnly(cfg, s.own.registry) && s.own.lastClaimed.Some?
    ensures OwnEntryOnly(cfg, OnRead(cfg, s, at, reading).own.registry)
  {
  }

  lemma ExpireKeepsRegistry(cfg: DaemonConfig, s: State, at: int)
    requires OwnEntryOnly(cfg, s.own.registry)
    ensures OwnEntryOnly(cfg, OnExpire(cfg, s, at).own.registry)
  {
  }

  lemma OthersKeepRegistry(cfg: DaemonConfig, s: State, e: Event)
    requires Enabled(cfg, s, e) && !e.Read? && !e.Expire?
    ensures Next(cfg, s, e).own.registry == s.own.registry
  {
    hide OnRead, OnExpire, NextJob, ValidateSubmission, PlacementFor, CompileFor, Assigned, Due, OutOfTime, BuildResult;
  }

  lemma StepKeepsContents(cfg: DaemonConfig, s: State, e: Event)
    requires OwnEntryOnly(cfg, s.own.registry) && Contents(cfg, s) && Enabled(cfg, s, e) && SoundEvent(e)
    ensures Contents(cfg, Next(cfg, s, e))
  {
    hide OnTook, OnRelease, OnAccepted, OnBuilt, OnSent, OnNextEntry, OnChildren, OnRead, OnCheck, OnWaited, OnCounted;
    hide Due, ExpireEntries, ValidateSubmission, Requested, NextJob, AllHeld, AllInFlightOk, AllRepliesOk;
    match e
    case Guard => NoneHeld(cfg);
    case Took(d) => TookKeepsContents(cfg, s, d);
    case Release(Some(i)) => ReleaseKeepsContents(cfg, s, i);
    case Read(at, reading) => ReadKeepsContents(cfg, s, at, reading);
    case Children(answer) => ChildrenKeepsContents(cfg, s, answer);
    case JobAccepted => AcceptedKeepsContents(cfg, s);
    case NextEntry => NextEntryKeepsContents(cfg, s);
    case Check => CheckKeepsContents(cfg, s);
    case Waited(_, outcome, lasted) => WaitedKeepsContents(cfg, s, outcome, lasted);
    case Counted(job, reported) => CountedKeepsContents(cfg, s, job, reported);
    case Built => BuiltKeepsContents(cfg, s);
    case Sent(ok) => SentKeepsContents(cfg, s, ok);
    case _ =>
  }

  lemma WaitedKeepsContents(cfg: DaemonConfig, s: State, outcome: WaitOutcome, lasted: int)
    requires Contents(cfg, s) && s.pc.Waiting?
    ensures Contents(cfg, OnWaited(cfg, s, outcome, lasted))
  {
    hide Requested, AllHeld, AllInFlightOk, AllRepliesOk, OutOfTime;
  }

  lemma CountedKeepsContents(cfg: DaemonConfig, s: State, job: Job, reported: Option<Counts>)
    requires Contents(cfg, s) && s.pc.Counting?
    ensures Contents(cfg, OnCounted(cfg, s, job, reported))
  {
    hide Requested, AllHeld, AllInFlightOk, AllRepliesOk;
  }

  lemma NoneHeld(cfg: DaemonConfig)
    ensures AllHeld(cfg, [])
  {
  }

  lemma TookKeepsContents(cfg: DaemonConfig, s: State, d: Delivery)
    requires OwnEntryOnly(cfg, s.own.registry) && Contents(cfg, s) && s.pc.Polling? && Intact(d)
    ensures Contents(cfg, OnTook(cfg, s, d))
  {
    hide AllInFlightOk, AllRepliesOk, OwnEntryOnly, Sound, Prepared, CompileFor, Assigned;
    IntactIsSound(d);
    PreparedIsHeld(cfg, s.own.registry, d);
  }

  /** What the handler schedules is the task received, assigned to this daemon's device. */
  lemma PreparedIsHeld(cfg: DaemonConfig, registry: Entries, d: Delivery)
    requires OwnEntryOnly(cfg, registry) && Intact(d)
    ensures match Assigned(cfg, registry, d)
            case Err(_) => true
            case Ok(a) =>
              && Sound(a)
              && match CompileFor(cfg, registry, a.task)
                 case Err(_) => true
                 case Ok(t) => Held(cfg, a.(task := t))
  {
    hide CompileTask, Choose;
    ChooseIsOptimal(registry, d.task, cfg.policy, cfg.inputs);
    match Assigned(cfg, registry, d)
    case Err(_) =>
    case Ok(a) =>
      assert Intact(a);
      IntactIsSound(a);
      if a.task.scheduledQpu in registry {
        var b := registry[a.task.scheduledQpu].backend;
        CompilationKeepsIdentity(a.task, b, cfg.inputs, cfg.compiler);
        var t := CompileFor(cfg, registry, a.task);
        if t.Ok? {
          assert PreparedFor(cfg, a.(task := t.value), b);
        }
      }
  }

  lemma ReleaseKeepsContents(cfg: DaemonConfig, s: State, i: nat)
    requires Contents(cfg, s) && s.pc.Ready? && i < |s.scheduler|
    ensures Contents(cfg, OnRelease(s, i))
  {
    hide EntryOk, ReplyOk, ValidateSubmission;
    assert s.scheduler[i] in s.scheduler;
  }

  lemma ReadKeepsContents(cfg: DaemonConfig, s: State, at: int, reading: DeviceReading)
    requires Contents(cfg, s) && s.pc.Reading? && s.own.lastClaimed.Some?
    ensures Contents(cfg, OnRead(cfg, s, at, reading))
  {
    hide AllHeld, AllInFlightOk, AllRepliesOk, InsertEntry;
  }

  lemma ChildrenKeepsContents(cfg: DaemonConfig, s: State, answer: Query<seq<string>>)
    requires Contents(cfg, s) && s.pc.Discovering?
    ensures Contents(cfg, OnChildren(s, answer))
  {
    hide AllHeld, AllInFlightOk, AllRepliesOk;
  }

  lemma AcceptedKeepsContents(cfg: DaemonConfig, s: State)
    requires Contents(cfg, s) && s.pc.Submitting?
    ensures |s.pc.jobs| < |s.pc.d.task.circuitFiles| && Contents(cfg, OnAccepted(cfg, s, NextJob(s)))
  {
    hide AllHeld, AllRepliesOk, Payload, ValidateSubmission;
  }

  lemma NextEntryKeepsContents(cfg: DaemonConfig, s: State)
    requires Contents(cfg, s) && s.pc.Collecting?
    ensures Contents(cfg, OnNextEntry(s))
  {
    hide EntryOk, AllHeld, AllRepliesOk;
    if s.batch != [] {
      assert s.batch[0] in s.batch;
      assert forall x :: x in s.batch[1..] ==> x in s.batch;
    }
  }

  lemma CheckKeepsContents(cfg: DaemonConfig, s: State)
    requires Contents(cfg, s) && Enabled(cfg, s, Check)
    ensures Contents(cfg, OnCheck(s))
  {
    hide EntryOk, AllHeld, AllRepliesOk, ValidateSubmission, Requested;
  }

  lemma BuiltKeepsContents(cfg: DaemonConfig, s: State)
    requires Contents(cfg, s) && Enabled(cfg, s, Built)
    ensures Contents(cfg, OnBuilt(cfg, s))
  {
    hide AllHeld, AllInFlightOk, AllRepliesOk, BuildResult;
    AssemblyPreservesCounts(s.pc.entry.delivery.task, s.pc.counts);
  }

  lemma SentKeepsContents(cfg: DaemonConfig, s: State, ok: bool)
    requires Contents(cfg, s) && s.pc.Replying?
    ensures Contents(cfg, OnSent(s, ok))
  {
    hide EntryOk, AllHeld, AllInFlightOk;
  }

  lemma StepKeepsPhase(cfg: DaemonConfig, s: State, e: Event)
    requires Contents(cfg, s) && Phase(cfg, s) && Enabled(cfg, s, e)
    ensures Phase(cfg, Next(cfg, s, e))
  {
    hide Contents, OnTook, OnAccepted, OnCheck, OnBuilt, OnRead, OnRelease, OnChildren, OnWaited, OnCounted, NextJob;
    hide ExpireEntries, Due;
    match e
    case Took(d) => TookKeepsPhase(cfg, s, d);
    case JobAccepted => AcceptedKeepsPhase(cfg, s, NextJob(s));
    case Check => CheckKeepsPhase(cfg, s);
    case Built => BuiltKeepsPhase(cfg, s);
    case Read(at, reading) => ReadKeepsPhase(cfg, s, at, reading);
    case Release(Some(i)) => ReleaseKeepsPhase(cfg, s, i);
    case Children(answer) => ChildrenKeepsPhase(cfg, s, answer);
    case Waited(_, outcome, lasted) => WaitedKeepsPhase(cfg, s, outcome, lasted);
    case Counted(job, reported) => CountedKeepsPhase(cfg, s, job, reported);
    case _ =>
  }

  lemma ReleaseKeepsPhase(cfg: DaemonConfig, s: State, i: nat)
    requires Phase(cfg, s) && s.pc.Ready? && i < |s.scheduler|
    ensures Phase(cfg, OnRelease(s, i))
  {
    hide ValidateSubmission;
  }

  lemma ChildrenKeepsPhase(cfg: DaemonConfig, s: State, answer: Query<seq<string>>)
    requires Phase(cfg, s) && s.pc.Discovering?
    ensures Phase(cfg, OnChildren(s, answer))
  {
    hide PlacementFor;
  }

  lemma WaitedKeepsPhase(cfg: DaemonConfig, s: State, outcome: WaitOutcome, lasted: int)
    requires Phase(cfg, s) && s.pc.Waiting?
    ensures Phase(cfg, OnWaited(cfg, s, outcome, lasted))
  {
    hide OutOfTime;
  }

  lemma CountedKeepsPhase(cfg: DaemonConfig, s: State, job: Job, reported: Option<Counts>)
    requires Phase(cfg, s) && s.pc.Counting?
    ensures Phase(cfg, OnCounted(cfg, s, job, reported))
  {
  }

  lemma TookKeepsPhase(cfg: DaemonConfig, s: State, d: Delivery)
    requires Phase(cfg, s) && s.pc.Polling?
    ensures Phase(cfg, OnTook(cfg, s, d))
  {
    hide CompileFor, Assigned;
  }

  lemma CheckKeepsPhase(cfg: DaemonConfig, s: State)
    requires Phase(cfg, s) && Enabled(cfg, s, Check)
    ensures Phase(cfg, OnCheck(s))
  {
  }

  lemma AcceptedKeepsPhase(cfg: DaemonConfig, s: State, job: Job)
    requires Phase(cfg, s) && s.pc.Submitting?
    ensures Phase(cfg, OnAccepted(cfg, s, job))
  {
  }

  /** A quiet daemon never has a complete histogram in hand: jobs are never empty. */
  lemma BuiltKeepsPhase(cfg: DaemonConfig, s: State)
    requires Contents(cfg, s) && Phase(cfg, s) && Enabled(cfg, s, Built)
    ensures Phase(cfg, OnBuilt(cfg, s))
  {
    hide BuildResult, Requested;
  }

  lemma ReadKeepsPhase(cfg: DaemonConfig, s: State, at: int, reading: DeviceReading)
    requires Phase(cfg, s) && s.pc.Reading? && s.own.lastClaimed.Some?
    ensures Phase(cfg, OnRead(cfg, s, at, reading))
  {
    hide FromSubmitter, InsertEntry, ToBackend;
  }

  lemma {:induction false} RunKeepsInv(cfg: DaemonConfig, s: State, es: seq<Event>)
    requires Inv(cfg, s) && Run(cfg, s, es) && SoundEvents(es)
    ensures Inv(cfg, Exec(cfg, s, es))
  {
    if es != [] {
      var n := |es| - 1;
      RunKeepsInv(cfg, s, es[..n]);
      StepKeepsInv(cfg, Exec(cfg, s, es[..n]), es[n]);
    }
  }
}
