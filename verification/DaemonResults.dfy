/** Where a daemon's results come from: the evidence behind every success, the order in which
    reports are read, and what a healthy device makes of a task. */
module DaemonResults {
  import opened Protocol
  import opened FormatPolicy
  import opened Backends
  import opened Registry
  import opened Throttle
  import opened Compilation
  import opened Submission
  import opened DaemonMachine
  import opened DaemonProofs
  import opened DaemonRuns

  // ---- The evidence behind a success --------------------------------------------------

  /** Report `p + i` was read for the job that the submission of `d`'s circuit `i` returned,
      that job asked for that circuit, and the report is result entry `i`. */
  predicate ReportFor(device: DeviceTrace, d: Delivery, results: seq<Counts>, p: nat, i: nat) {
    && i < |results| && p + i < |device.counted|
    && var job := device.counted[p + i].0;
       && device.counted[p + i].1 == results[i]
       && job.handle < |device.submitted| && device.submitted[job.handle] == Submitted(d, i, job)
       && AsksFor(job.request, d.task, i)
  }

  ghost predicate ReportedFrom(device: DeviceTrace, d: Delivery, results: seq<Counts>, p: nat) {
    |results| == |d.task.circuitFiles| && forall i: nat :: i < |results| ==> ReportFor(device, d, results, p, i)
  }

  /** The device reported these results, circuit by circuit, for this very delivery. */
  ghost predicate Evidence(device: DeviceTrace, d: Delivery, results: seq<Counts>) {
    exists p: nat :: ReportedFrom(device, d, results, p)
  }

  ghost predicate Evidenced(s: State) {
    && (s.pc.Replying? && s.pc.result.executionStatus ==> Evidence(s.device, s.pc.d, s.pc.result.results))
    && forall r :: r in s.replies && r.result.executionStatus ==> Evidence(s.device, r.delivery, r.result.results)
  }

  predicate Grows(a: DeviceTrace, b: DeviceTrace) {
    a.submitted <= b.submitted && a.counted <= b.counted
  }

  lemma EvidenceStays(a: DeviceTrace, b: DeviceTrace, d: Delivery, results: seq<Counts>)
    requires Grows(a, b) && Evidence(a, d, results)
    ensures Evidence(b, d, results)
  {
    hide AsksFor;
    var p: nat :| ReportedFrom(a, d, results, p);
    forall i: nat | i < |results| ensures ReportFor(b, d, results, p, i) {
      assert ReportFor(a, d, results, p, i);
    }
    assert ReportedFrom(b, d, results, p);
  }

  /** Every event but an assembly and a send leaves replies alone and makes no success. */
  predicate NoNewSuccess(s: State, s': State) {
    && Grows(s.device, s'.device) && s'.replies == s.replies
    && (s'.pc.Replying? && s'.pc.result.executionStatus ==> s'.pc == s.pc)
  }

  lemma OthersMakeNoSuccess(cfg: DaemonConfig, s: State, e: Event)
    requires Enabled(cfg, s, e) && !e.Built? && !e.Sent?
    ensures NoNewSuccess(s, Next(cfg, s, e))
  {
    hide Next, Enabled, NoNewSuccess;
    if Intake(e) || Status(e) {
      IntakeMakesNoSuccess(cfg, s, e);
    } else {
      DeviceMakesNoSuccess(cfg, s, e);
    }
  }

  lemma IntakeMakesNoSuccess(cfg: DaemonConfig, s: State, e: Event)
    requires Enabled(cfg, s, e) && (Intake(e) || Status(e))
    ensures NoNewSuccess(s, Next(cfg, s, e))
  {
    hide OnChildren, OnAccepted, OnCancelled, OnGaveUp, OnNextEntry, OnWaited, OnCounted, OnBuilt, OnSent;
    hide CompileFor, Assigned, NextJob, ValidateSubmission;
  }

  lemma DeviceMakesNoSuccess(cfg: DaemonConfig, s: State, e: Event)
    requires Enabled(cfg, s, e) && !Intake(e) && !Status(e) && !e.Built? && !e.Sent?
    ensures NoNewSuccess(s, Next(cfg, s, e))
  {
    hide OnClaim, OnRead, OnPublish, OnExpire, OnGuard, OnCheck, OnTook, OnRelease, OnBuilt, OnSent;
    hide OutOfTime, NextJob, PlacementFor;
  }

  lemma BuiltIsEvidenced(cfg: DaemonConfig, s: State, es: seq<Event>)
    requires Init(cfg, s) && Run(cfg, s, es) && SoundEvents(es) && Enabled(cfg, Exec(cfg, s, es), Built)
    requires Evidenced(Exec(cfg, s, es))
    ensures Evidenced(Next(cfg, Exec(cfg, s, es), Built))
  {
    hide Init, Run, Exec, BuildResult, AsksFor, Evidence, SoundEvents;
    var m := Exec(cfg, s, es);
    AssembledResultIsTheDevices(cfg, s, es);
    var x := m.pc.entry;
    match BuildResult(x.delivery.task, Present(m.pc.counts))
    case Err(_) =>
    case Ok(r) => CountsAreEvidence(m.device, x, m.pc.counts, r.results);
  }

  lemma CountsAreEvidence(device: DeviceTrace, x: InFlight, counts: seq<Counts>, results: seq<Counts>)
    requires |x.jobs| == |counts| == |results| == |x.delivery.task.circuitFiles| <= |device.counted|
    requires Returned(x.delivery, x.jobs, device.submitted)
    requires forall i :: 0 <= i < |counts| ==> results[i] == counts[i]
    requires forall i :: 0 <= i < |counts| ==> AsksFor(x.jobs[i].request, x.delivery.task, i)
    requires forall i :: 0 <= i < |counts| ==> device.counted[|device.counted| - |counts| + i] == (x.jobs[i], counts[i])
    ensures Evidence(device, x.delivery, results)
  {
    hide AsksFor;
    var p: nat := |device.counted| - |counts|;
    forall i: nat | i < |results| ensures ReportFor(device, x.delivery, results, p, i) {
      assert device.counted[|device.counted| - |counts| + i] == (x.jobs[i], counts[i]);
    }
    assert ReportedFrom(device, x.delivery, results, p);
  }

  lemma StepKeepsEvidenced(cfg: DaemonConfig, s: State, e: Event)
    requires Enabled(cfg, s, e) && !e.Built? && Evidenced(s)
    ensures Evidenced(Next(cfg, s, e))
  {
    hide Evidence;
    if e.Sent? {
      SentKeepsEvidenced(cfg, s, e.ok);
    } else {
      hide Next, Enabled;
      OthersMakeNoSuccess(cfg, s, e);
      var s' := Next(cfg, s, e);
      forall d, results | Evidence(s.device, d, results) ensures Evidence(s'.device, d, results) {
        EvidenceStays(s.device, s'.device, d, results);
      }
    }
  }

  lemma SentKeepsEvidenced(cfg: DaemonConfig, s: State, ok: bool)
    requires Enabled(cfg, s, Sent(ok)) && Evidenced(s)
    ensures Evidenced(Next(cfg, s, Sent(ok)))
  {
    hide Evidence;
  }

  lemma {:induction false} RunIsEvidenced(cfg: DaemonConfig, s: State, es: seq<Event>)
    requires Init(cfg, s) && Run(cfg, s, es) && SoundEvents(es)
    ensures Evidenced(Exec(cfg, s, es))
  {
    hide Next, Enabled, Evidence;
    if es != [] {
      var n := |es| - 1;
      RunIsEvidenced(cfg, s, es[..n]);
      if es[n].Built? {
        BuiltIsEvidenced(cfg, s, es[..n]);
      } else {
        StepKeepsEvidenced(cfg, Exec(cfg, s, es[..n]), es[n]);
      }
    }
  }

  /** Behind every success of every run, from end to end: the delivery's circuits as they were
      put on the intake, compiled one by one for a reading of this daemon's device or left
      unmodified as asked; each submitted as it then stood; and result entry i the device's
      report for the job that circuit i's submission returned. */
  lemma SuccessIsEarned(cfg: DaemonConfig, s: State, es: seq<Event>, r: Reply)
    requires Init(cfg, s) && Run(cfg, s, es) && SoundEvents(es)
    requires r in Exec(cfg, s, es).replies && r.result.executionStatus
    ensures Evidence(Exec(cfg, s, es).device, r.delivery, r.result.results)
    ensures var t := r.delivery.origin.(scheduledQpu := cfg.id);
            if t.noModify then r.delivery.task == t
            else exists b: Snapshot, level :: b.name == cfg.id && CompiledAt(t, b, cfg.inputs, cfg.compiler, level, r.delivery.task)
  {
    hide Next, Enabled, Init, Run, Exec, Evidence, CompileTask, CompiledAt, SoundEvents;
    RunIsEvidenced(cfg, s, es);
    InitInv(cfg, s);
    RunKeepsInv(cfg, s, es);
    assert ReplyOk(cfg, r);
    var b :| PreparedFor(cfg, r.delivery, b);
    CompilationIsExact(r.delivery.origin.(scheduledQpu := cfg.id), b, cfg.inputs, cfg.compiler);
  }

  // ---- The order of reports -----------------------------------------------------------

  function Handles(jobs: seq<Job>): seq<nat> {
    seq(|jobs|, i requires 0 <= i < |jobs| => jobs[i].handle)
  }

  function ReadHandles(counted: seq<(Job, Counts)>): seq<nat> {
    seq(|counted|, i requires 0 <= i < |counted| => counted[i].0.handle)
  }

  /** The jobs in flight, entry by entry. */
  function AllJobs(batch: seq<InFlight>): seq<Job> {
    if batch == [] then [] else batch[0].jobs + AllJobs(batch[1..])
  }

  /** The jobs of the entry in hand that are still to be read. */
  function ToRead(pc: Pc): seq<Job> {
    match pc
    case WaitCheck(x, counts, _) => if |counts| <= |x.jobs| then x.jobs[|counts|..] else []
    case Waiting(x, counts, _) => if |counts| <= |x.jobs| then x.jobs[|counts|..] else []
    case Counting(x, counts) => if |counts| <= |x.jobs| then x.jobs[|counts|..] else []
    case _ => []
  }

  /** The jobs returned so far for the task being submitted. */
  function BeingSubmitted(pc: Pc): seq<Job> {
    match pc
    case SubmitCheck(_, _, _, jobs) => jobs
    case Submitting(_, _, _, jobs) => jobs
    case _ => []
  }

  /** Handles of the jobs read, to be read, in flight and being submitted, in this order. */
  function Line(s: State): seq<nat> {
    ReadHandles(s.device.counted) + Handles(ToRead(s.pc)) + Handles(AllJobs(s.batch)) + Handles(BeingSubmitted(s.pc))
  }

  ghost predicate Increasing(hs: seq<nat>) {
    forall i, j :: 0 <= i < j < |hs| ==> hs[i] < hs[j]
  }

  ghost predicate Below(hs: seq<nat>, n: nat) {
    forall i :: 0 <= i < |hs| ==> hs[i] < n
  }

  ghost predicate InLine(s: State) {
    Increasing(Line(s)) && Below(Line(s), |s.device.submitted|)
  }

  /** Jobs may leave the line unread, all of a kind at once; none joins and none moves. */
  predicate OnlyLeaves(s: State, s': State) {
    && s'.device.counted == s.device.counted && s'.device.submitted == s.device.submitted
    && (ToRead(s'.pc) == ToRead(s.pc) || ToRead(s'.pc) == [])
    && (s'.batch == s.batch || s'.batch == [])
    && (BeingSubmitted(s'.pc) == BeingSubmitted(s.pc) || BeingSubmitted(s'.pc) == [])
  }

  lemma LeavingKeepsLine(s: State, s': State)
    requires InLine(s) && OnlyLeaves(s, s')
    ensures InLine(s')
  {
    hide ToRead, BeingSubmitted, AllJobs, Handles, ReadHandles;
    assert Handles([]) == [] by { NoHandles(); }
    assert AllJobs([]) == [] by { NoHandles(); }
    DropThree(ReadHandles(s.device.counted), Handles(ToRead(s.pc)), Handles(AllJobs(s.batch)), Handles(BeingSubmitted(s.pc)),
              Handles(ToRead(s'.pc)), Handles(AllJobs(s'.batch)), Handles(BeingSubmitted(s'.pc)), |s.device.submitted|);
  }

  lemma NoHandles()
    ensures Handles([]) == [] && AllJobs([]) == []
  {
  }

  /** Of four stretches in a row, any of the last three may go. */
  lemma DropThree(a: seq<nat>, b: seq<nat>, c: seq<nat>, d: seq<nat>, b': seq<nat>, c': seq<nat>, d': seq<nat>, n: nat)
    requires Increasing(a + b + c + d) && Below(a + b + c + d, n)
    requires (b' == b || b' == []) && (c' == c || c' == []) && (d' == d || d' == [])
    ensures Increasing(a + b' + c' + d') && Below(a + b' + c' + d', n)
  {
    hide Increasing, Below;
    DropOne(a + b + c, d, [], n);
    DropOne(a + b, c, d', n);
    DropOne(a, b, c' + d', n);
    assert a + b + c + d == (a + b + c) + d + [] && (a + b + c) + [] == a + b + c + [];
    assert a + b + c + d' == (a + b) + c + d' && (a + b) + d' == a + b + [] + d';
    assert a + b + c' + d' == a + b + (c' + d') && a + (c' + d') == a + [] + c' + d';
    assert a + b' + c' + d' == a + b' + (c' + d');
  }

  lemma DropOne(a: seq<nat>, b: seq<nat>, c: seq<nat>, n: nat)
    ensures Increasing(a + b + c) && Below(a + b + c, n) ==> Increasing(a + c) && Below(a + c, n)
  {
    if Increasing(a + b + c) && Below(a + b + c, n) {
      forall i, j | 0 <= i < j < |a + c| ensures (a + c)[i] < (a + c)[j] {
        var i', j' := if i < |a| then i else i + |b|, if j < |a| then j else j + |b|;
        assert (a + b + c)[i'] == (a + c)[i] && (a + b + c)[j'] == (a + c)[j];
      }
      forall i | 0 <= i < |a + c| ensures (a + c)[i] < n {
        assert (a + c)[i] == (a + b + c)[if i < |a| then i else i + |b|];
      }
    }
  }

  /** The events at which jobs join the line, step forward in it, or are read. */
  predicate Moves(e: Event) {
    e.JobAccepted? || e.NextEntry? || (e.Counted? && e.reported.Some?)
  }

  lemma OthersOnlyLeave(cfg: DaemonConfig, s: State, e: Event)
    requires Enabled(cfg, s, e) && !Moves(e)
    ensures OnlyLeaves(s, Next(cfg, s, e))
  {
    hide Next, Enabled, OnlyLeaves;
    if Intake(e) || Status(e) {
      IntakeOnlyLeaves(cfg, s, e);
    } else {
      DeviceOnlyLeaves(cfg, s, e);
    }
  }

  lemma IntakeOnlyLeaves(cfg: DaemonConfig, s: State, e: Event)
    requires Enabled(cfg, s, e) && (Intake(e) || Status(e))
    ensures OnlyLeaves(s, Next(cfg, s, e))
  {
    hide OnChildren, OnAccepted, OnCancelled, OnGaveUp, OnNextEntry, OnWaited, OnCounted, OnBuilt, OnSent;
    hide CompileFor, Assigned, NextJob, ValidateSubmission, FromSubmitter, InsertEntry, ExpireEntries, ToBackend, Due;
  }

  lemma DeviceOnlyLeaves(cfg: DaemonConfig, s: State, e: Event)
    requires Enabled(cfg, s, e) && !Intake(e) && !Status(e) && !Moves(e)
    ensures OnlyLeaves(s, Next(cfg, s, e))
  {
    hide OnClaim, OnRead, OnPublish, OnExpire, OnGuard, OnCheck, OnTook, OnRelease, OnAccepted, OnNextEntry;
    hide OutOfTime, NextJob, PlacementFor, BuildResult;
  }

  /** An accepted job joins at the end, under the next handle. */
  lemma AcceptedJoinsLine(cfg: DaemonConfig, s: State)
    requires Enabled(cfg, s, JobAccepted) && (cfg.standalone ==> s.batch == [])
    ensures var s' := Next(cfg, s, JobAccepted);
            Line(s') == Line(s) + [|s.device.submitted|] && |s'.device.submitted| == |s.device.submitted| + 1
  {
    hide OnClaim, OnRead, OnPublish, OnExpire, OnGuard, OnCheck, OnTook, OnRelease, OnNextEntry;
    hide OnChildren, OnCancelled, OnGaveUp, OnWaited, OnCounted, OnBuilt, OnSent, RequestFor, Handles, ReadHandles;
    var s' := Next(cfg, s, JobAccepted);
    var jobs, job := s.pc.jobs, NextJob(s);
    NoHandles();
    HandlesAppend(jobs, [job]);
    if s'.pc.Ready? {
      AllJobsPush(s.batch, InFlight(s.pc.d, jobs + [job]));
      HandlesAppend(AllJobs(s.batch), jobs + [job]);
    } else if s'.pc.WaitCheck? {
      assert ToRead(s'.pc) == jobs + [job];
    }
  }

  lemma HandlesAppend(a: seq<Job>, b: seq<Job>)
    ensures Handles(a + b) == Handles(a) + Handles(b)
    ensures |b| == 1 ==> Handles(b) == [b[0].handle]
  {
  }

  lemma {:induction false} AllJobsPush(batch: seq<InFlight>, x: InFlight)
    ensures AllJobs(batch + [x]) == AllJobs(batch) + x.jobs
  {
    if batch == [] {
      assert batch + [x] == [x] && [x][1..] == [];
    } else {
      assert (batch + [x])[1..] == batch[1..] + [x];
      AllJobsPush(batch[1..], x);
    }
  }

  lemma JoiningKeepsLine(l: seq<nat>, n: nat)
    requires Increasing(l) && Below(l, n)
    ensures Increasing(l + [n]) && Below(l + [n], n + 1)
  {
  }

  /** Taking up the next entry moves nobody. */
  lemma NextEntryKeepsLine(cfg: DaemonConfig, s: State)
    requires Enabled(cfg, s, NextEntry)
    ensures Line(Next(cfg, s, NextEntry)) == Line(s) && Next(cfg, s, NextEntry).device == s.device
  {
    hide OnClaim, OnRead, OnPublish, OnExpire, OnGuard, OnCheck, OnTook, OnRelease, OnAccepted, NextJob;
    hide OnChildren, OnCancelled, OnGaveUp, OnWaited, OnCounted, OnBuilt, OnSent, Handles, ReadHandles;
    NoHandles();
    if s.batch != [] {
      var first, rest := s.batch[0].jobs, AllJobs(s.batch[1..]);
      assert first[0..] == first;
      HandlesAppend(first, rest);
    }
  }

  /** A report read is the one at the head of the line. */
  lemma CountedKeepsLine(cfg: DaemonConfig, s: State, job: Job, c: Counts)
    requires Enabled(cfg, s, Counted(job, Some(c)))
    ensures var s' := Next(cfg, s, Counted(job, Some(c)));
            Line(s') == Line(s) && s'.device.submitted == s.device.submitted
  {
    hide OnClaim, OnRead, OnPublish, OnExpire, OnGuard, OnCheck, OnTook, OnRelease, OnAccepted, OnNextEntry, NextJob;
    hide OnChildren, OnCancelled, OnGaveUp, OnWaited, OnBuilt, OnSent, AllJobs, Handles, ReadHandles;
    var jobs, k := s.pc.entry.jobs, |s.pc.counts|;
    HeadIsRead(s.device.counted, job, c, jobs[k + 1..]);
    assert jobs[k..] == [job] + jobs[k + 1..];
  }

  lemma HeadIsRead(counted: seq<(Job, Counts)>, job: Job, c: Counts, rest: seq<Job>)
    ensures ReadHandles(counted + [(job, c)]) + Handles(rest) == ReadHandles(counted) + Handles([job] + rest)
  {
  }

  lemma StepKeepsLine(cfg: DaemonConfig, s: State, e: Event)
    requires InLine(s) && Phase(cfg, s) && Enabled(cfg, s, e)
    ensures InLine(Next(cfg, s, e))
  {
    hide Next, Enabled, Line, Increasing, Below;
    match e
    case JobAccepted =>
      AcceptedJoinsLine(cfg, s);
      JoiningKeepsLine(Line(s), |s.device.submitted|);
    case NextEntry => NextEntryKeepsLine(cfg, s);
    case Counted(job, Some(c)) => CountedKeepsLine(cfg, s, job, c);
    case _ =>
      OthersOnlyLeave(cfg, s, e);
      LeavingKeepsLine(s, Next(cfg, s, e));
  }

  lemma {:induction false} RunKeepsLine(cfg: DaemonConfig, s: State, es: seq<Event>)
    requires Init(cfg, s) && Run(cfg, s, es) && SoundEvents(es)
    ensures InLine(Exec(cfg, s, es))
  {
    hide Next, Enabled, Phase, Contents, OwnEntryOnly;
    if es != [] {
      var n := |es| - 1;
      RunKeepsLine(cfg, s, es[..n]);
      InitInv(cfg, s);
      RunKeepsInv(cfg, s, es[..n]);
      StepKeepsLine(cfg, Exec(cfg, s, es[..n]), es[n]);
    } else {
      assert Line(s) == [];
    }
  }

  /** In every run the device's reports are read in the order of submission, within a task
      and from task to task, and no job is read twice. */
  lemma ReportsAreReadInOrder(cfg: DaemonConfig, s: State, es: seq<Event>, i: nat, j: nat)
    requires Init(cfg, s) && Run(cfg, s, es) && SoundEvents(es)
    requires i < j < |Exec(cfg, s, es).device.counted|
    ensures var counted := Exec(cfg, s, es).device.counted; counted[i].0.handle < counted[j].0.handle
  {
    hide Next, Enabled, Init, Run, Exec, SoundEvents;
    RunKeepsLine(cfg, s, es);
    var m := Exec(cfg, s, es);
    assert Line(m)[i] == m.device.counted[i].0.handle && Line(m)[j] == m.device.counted[j].0.handle;
  }

  // ---- A healthy device ---------------------------------------------------------------

  /** Reports that fit the wire format. */
  predicate Fitting(reports: seq<Counts>) {
    forall i :: 0 <= i < |reports| ==> Acceptable(Some(reports[i]))
  }

  /** If every job ends and reports counts that fit, collection succeeds with just those. */
  lemma {:induction false} HealthyCollection(
    cfg: DaemonConfig, s: State, es: seq<Event>, x: InFlight, reports: seq<Counts>, k: nat) returns (es': seq<Event>)
    requires Run(cfg, s, es) && |reports| == |x.jobs| == |x.delivery.task.circuitFiles| && Fitting(reports) && k <= |reports|
    requires var m := Exec(cfg, s, es); m.pc == WaitCheck(x, reports[..k], 0) && !m.stop
    ensures Run(cfg, s, es') && es <= es'
    ensures var m := Exec(cfg, s, es');
            && m.pc.Replying? && m.pc.d == x.delivery && m.pc.next == AfterCollecting(cfg)
            && m.pc.result.executionStatus && m.pc.result.results == reports && !m.stop
    decreases |reports| - k
  {
    hide Run, Exec, Fitting, OnClaim, OnRead, OnPublish, OnExpire, OnGuard, OnTook, OnRelease, OnAccepted, NextJob;
    hide OnChildren, OnCancelled, OnGaveUp, OnNextEntry, OnSent, OnCheck, OnWaited, OnCounted, BuildResult;
    if k == |reports| {
      assert reports[..k] == reports;
      RunOneMore(cfg, s, es, Built);
      FittingIsBuilt(x.delivery.task, reports);
      es' := es + [Built];
    } else {
      HealthyJob(cfg, s, es, x, reports[..k], reports[k]);
      assert reports[..k] + [reports[k]] == reports[..k + 1];
      es' := HealthyCollection(cfg, s, es + JobEvents(x.jobs[k], reports[k]), x, reports, k + 1);
    }
  }

  function JobEvents(job: Job, report: Counts): seq<Event> {
    [Check, Waited(job, Done, 0), Counted(job, Some(report))]
  }

  lemma HealthyJob(cfg: DaemonConfig, s: State, es: seq<Event>, x: InFlight, counts: seq<Counts>, report: Counts)
    requires Run(cfg, s, es) && |counts| < |x.jobs|
    requires Exec(cfg, s, es).pc == WaitCheck(x, counts, 0) && !Exec(cfg, s, es).stop
    ensures var es' := es + JobEvents(x.jobs[|counts|], report);
            Run(cfg, s, es') && Exec(cfg, s, es').pc == WaitCheck(x, counts + [report], 0) && !Exec(cfg, s, es').stop
  {
    hide Run, Exec, OnClaim, OnRead, OnPublish, OnExpire, OnGuard, OnTook, OnRelease, OnAccepted, NextJob;
    hide OnChildren, OnCancelled, OnGaveUp, OnNextEntry, OnSent, OnBuilt;
    var job := x.jobs[|counts|];
    RunOneMore(cfg, s, es, Check);
    RunOneMore(cfg, s, es + [Check], Waited(job, Done, 0));
    RunOneMore(cfg, s, es + [Check] + [Waited(job, Done, 0)], Counted(job, Some(report)));
    assert es + [Check] + [Waited(job, Done, 0)] + [Counted(job, Some(report))] == es + JobEvents(job, report);
  }

  lemma FittingIsBuilt(t: QuantumTask, reports: seq<Counts>)
    requires |reports| == |t.circuitFiles| && Fitting(reports)
    ensures BuildResult(t, Present(reports)).Ok?
    ensures var r := BuildResult(t, Present(reports)).value; r.executionStatus && r.results == reports
  {
    hide BuildResult;
    ResultIsExact(t, Present(reports));
  }

  /** If the device takes every job, submission goes through to the last circuit. */
  lemma {:induction false} HealthySubmission(cfg: DaemonConfig, s: State, es: seq<Event>, d: Delivery)
    returns (es': seq<Event>, x: InFlight)
    requires Run(cfg, s, es)
    requires var m := Exec(cfg, s, es);
             m.pc.SubmitCheck? && m.pc.d == d && |m.pc.jobs| < |d.task.circuitFiles| && !m.stop && m.batch == []
    ensures Run(cfg, s, es') && es <= es' && x.delivery == d && |x.jobs| == |d.task.circuitFiles|
    ensures var m := Exec(cfg, s, es');
            && !m.stop
            && if cfg.standalone then m.pc == WaitCheck(x, [], 0) else m.pc == Ready && m.batch == [x]
    decreases |d.task.circuitFiles| - |Exec(cfg, s, es).pc.jobs|
  {
    hide Run, Exec, RequestFor, OnClaim, OnRead, OnPublish, OnExpire, OnGuard, OnTook, OnRelease;
    hide OnChildren, OnCancelled, OnGaveUp, OnNextEntry, OnWaited, OnCounted, OnBuilt, OnSent;
    RunOneMore(cfg, s, es, Check);
    RunOneMore(cfg, s, es + [Check], JobAccepted);
    var es2 := es + [Check] + [JobAccepted];
    var jobs := Exec(cfg, s, es).pc.jobs + [NextJob(Exec(cfg, s, es + [Check]))];
    if |jobs| < |d.task.circuitFiles| {
      es', x := HealthySubmission(cfg, s, es2, d);
    } else {
      es', x := es2, InFlight(d, jobs);
    }
  }

  /** A released task that can be submitted, to a device that takes its jobs, ends them and
      reports counts that fit, is answered with those counts. */
  lemma HealthyTaskSucceeds(cfg: DaemonConfig, s: State, es: seq<Event>, i: nat, reports: seq<Counts>)
    returns (es': seq<Event>)
    requires Run(cfg, s, es)
    requires var m := Exec(cfg, s, es);
             && m.pc.Ready? && !m.stop && m.batch == [] && i < |m.scheduler|
             && var t := m.scheduler[i].task;
                && |t.circuitFiles| == |reports| > 0 && t.nShots > 0
                && MapTaskCircuitType(t.circuitFileType) != FormatUnspecified
    requires Fitting(reports)
    ensures Run(cfg, s, es') && es <= es'
    ensures var m, m' := Exec(cfg, s, es), Exec(cfg, s, es');
            && m'.pc.Replying? && m'.pc.d == m.scheduler[i]
            && m'.pc.result.executionStatus && m'.pc.result.results == reports
  {
    hide Run, Exec, Fitting, ValidateSubmission, OnClaim, OnRead, OnPublish, OnExpire, OnGuard, OnTook, OnAccepted, NextJob;
    hide OnCancelled, OnGaveUp, OnWaited, OnCounted, OnBuilt, OnSent, OnCheck;
    var d := Exec(cfg, s, es).scheduler[i];
    SubmissionIsExact(d.task);
    RunOneMore(cfg, s, es, Release(Some(i)));
    es' := es + [Release(Some(i))];
    RunOneMore(cfg, s, es', Children(Answer([])));
    es' := es' + [Children(Answer([]))];
    var x;
    es', x := HealthySubmission(cfg, s, es', d);
    if !cfg.standalone {
      RunOneMore(cfg, s, es', Release(None));
      es' := es' + [Release(None)];
      RunOneMore(cfg, s, es', NextEntry);
      es' := es' + [NextEntry];
    }
    assert reports[..0] == [];
    es' := HealthyCollection(cfg, s, es', x, reports, 0);
  }
}
