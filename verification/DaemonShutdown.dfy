/** Shutdown completes: once the flag is set, only so many events are left in any run, and
    until the daemon has halted there always is a next one. */
module DaemonShutdown {
  import opened Protocol
  import opened Backends
  import opened Registry
  import opened Throttle
  import opened Submission
  import opened DaemonMachine
  import opened DaemonProofs
  import opened DaemonRuns

  /** Events left at most from the places that loops come back to. */
  function CollectingRank(cfg: DaemonConfig, scheduled: nat, batch: nat): nat {
    2 + 5 * batch + if cfg.standalone then 4 * scheduled else 0
  }

  function ReadyRank(scheduled: nat, batch: nat): nat {
    3 + 5 * batch + 4 * scheduled
  }

  function ResumeRank(cfg: DaemonConfig, next: Resume, scheduled: nat, batch: nat): nat {
    match next
    case ResumeReceive => ReadyRank(scheduled, batch) + 1
    case ResumeReady => ReadyRank(scheduled, batch)
    case ResumeCollect => CollectingRank(cfg, scheduled, batch)
  }

  /** How many events a daemon has left at most once the flag is set. */
  function Rank(cfg: DaemonConfig, s: State): nat {
    var m, b := |s.scheduler|, |s.batch|;
    var ready, after := ReadyRank(m, b), ResumeRank(cfg, AfterCollecting(cfg), m, b);
    match s.pc
    case Halted => 0
    case Top => 1
    case Collecting => CollectingRank(cfg, m, b)
    case Ready => ready
    case Receiving => ready + 1
    case Expiring => ready + 2
    case Publishing(_) => ready + 3
    case Reading => ready + 4
    case Claiming => ready + 5
    case Polling => ReadyRank(m + 1, b) + 3
    case Replying(_, _, next) => ResumeRank(cfg, next, m, b) + 1
    case Discovering(_, _) => ready + 3
    case Cancelling(_, todo) => ready + |todo| + 1
    case SubmitCheck(_, _, _, jobs) => ready + |jobs| + 2
    case Submitting(_, _, _, jobs) => ready + |jobs| + 10
    case WaitCheck(_, _, _) => after + 2
    case Counting(_, _) => after + 3
    case Waiting(_, _, _) => after + 4
  }

  lemma StepDescends(cfg: DaemonConfig, s: State, e: Event)
    requires Enabled(cfg, s, e) && s.stop && !e.Stop?
    ensures Rank(cfg, Next(cfg, s, e)) < Rank(cfg, s)
  {
    hide Next, Enabled, Rank;
    if Status(e) {
      StatusDescends(cfg, s, e);
    } else if Intake(e) {
      IntakeDescends(cfg, s, e);
    } else if InCall(s.pc) {
      SubmittingDescends(cfg, s, e);
    } else {
      CollectingDescends(cfg, s, e);
    }
  }

  lemma StatusDescends(cfg: DaemonConfig, s: State, e: Event)
    requires Enabled(cfg, s, e) && Status(e)
    ensures Rank(cfg, Next(cfg, s, e)) < Rank(cfg, s)
  {
    hide OnGuard, OnCheck, OnTook, OnRelease, OnChildren, OnAccepted, OnCancelled, OnGaveUp, OnNextEntry, OnWaited;
    hide OnCounted, OnBuilt, OnSent, NextJob, FromSubmitter, InsertEntry, ExpireEntries, ToBackend, Due;
  }

  lemma IntakeDescends(cfg: DaemonConfig, s: State, e: Event)
    requires Enabled(cfg, s, e) && s.stop && !e.Stop? && Intake(e)
    ensures Rank(cfg, Next(cfg, s, e)) < Rank(cfg, s)
  {
    hide OnClaim, OnRead, OnPublish, OnExpire;
    hide OnChildren, OnAccepted, OnCancelled, OnGaveUp, OnNextEntry, OnWaited, OnCounted, OnBuilt, OnSent;
    hide CompileFor, Assigned, NextJob, ValidateSubmission;
  }

  lemma SubmittingDescends(cfg: DaemonConfig, s: State, e: Event)
    requires Enabled(cfg, s, e) && InCall(s.pc) && !e.Stop? && !Intake(e)
    ensures Rank(cfg, Next(cfg, s, e)) < Rank(cfg, s)
  {
    hide OnClaim, OnRead, OnPublish, OnExpire, OnGuard, OnCheck, OnTook, OnRelease;
    hide OnNextEntry, OnWaited, OnCounted, OnBuilt, OnSent, NextJob, PlacementFor;
  }

  lemma CollectingDescends(cfg: DaemonConfig, s: State, e: Event)
    requires Enabled(cfg, s, e) && !InCall(s.pc) && !Intake(e) && !Status(e)
    ensures Rank(cfg, Next(cfg, s, e)) < Rank(cfg, s)
  {
    hide Next, Rank;
    if e.NextEntry? || e.Sent? {
      HandingOverDescends(cfg, s, e);
    } else {
      WaitingDescends(cfg, s, e);
    }
  }

  lemma HandingOverDescends(cfg: DaemonConfig, s: State, e: Event)
    requires Enabled(cfg, s, e) && (e.NextEntry? || e.Sent?)
    ensures Rank(cfg, Next(cfg, s, e)) < Rank(cfg, s)
  {
    hide OnClaim, OnRead, OnPublish, OnExpire, OnGuard, OnCheck, OnTook, OnRelease;
    hide OnChildren, OnAccepted, OnCancelled, OnGaveUp, OnWaited, OnCounted, OnBuilt, NextJob;
  }

  lemma WaitingDescends(cfg: DaemonConfig, s: State, e: Event)
    requires Enabled(cfg, s, e) && (e.Waited? || e.Counted? || e.Built?)
    ensures Rank(cfg, Next(cfg, s, e)) < Rank(cfg, s)
  {
    hide OnClaim, OnRead, OnPublish, OnExpire, OnGuard, OnCheck, OnTook, OnRelease;
    hide OnChildren, OnAccepted, OnCancelled, OnGaveUp, OnNextEntry, OnSent, OutOfTime, BuildResult, NextJob;
    hide ReadyRank, CollectingRank;
  }

  /** How many events of a run are more than a repeated signal. */
  ghost function Steps(es: seq<Event>): nat {
    if es == [] then 0 else Steps(es[..|es| - 1]) + if es[|es| - 1].Stop? then 0 else 1
  }

  /** From any state with the flag set, every run has at most Rank(s) steps, whatever the
      device, the broker and the scheduler do: shutdown cannot be put off. */
  lemma {:induction false} ShutdownIsBounded(cfg: DaemonConfig, s: State, es: seq<Event>)
    requires Run(cfg, s, es) && s.stop
    ensures Steps(es) + Rank(cfg, Exec(cfg, s, es)) <= Rank(cfg, s)
  {
    hide Next, Enabled, Rank;
    if es != [] {
      var n := |es| - 1;
      var m := Exec(cfg, s, es[..n]);
      ShutdownIsBounded(cfg, s, es[..n]);
      StopStays(cfg, s, es[..n]);
      if es[n].Stop? {
        SignalsChangeNothing(cfg, m);
      } else {
        StepDescends(cfg, m, es[n]);
      }
    }
  }

  lemma SignalsChangeNothing(cfg: DaemonConfig, s: State)
    requires s.stop
    ensures Next(cfg, s, Stop) == s
  {
  }

  /** What is in hand is never past its end. */
  predicate Within(pc: Pc) {
    match pc
    case Submitting(d, _, _, jobs) => |jobs| < |d.task.circuitFiles|
    case Waiting(x, counts, _) => |counts| < |x.jobs|
    case Counting(x, counts) => |counts| < |x.jobs|
    case _ => true
  }

  lemma InHandIsWithin(cfg: DaemonConfig, s: State)
    requires Inv(cfg, s)
    ensures Within(s.pc)
  {
    hide OwnEntryOnly, Phase, AllHeld, AllInFlightOk, AllRepliesOk, EntryOk, Held, Requested, ValidateSubmission, ResultOk;
  }

  /** What the daemon could do next. */
  function NextMove(s: State): Event
    requires Within(s.pc)
  {
    match s.pc
    case Top => Guard
    case Claiming => Claim(s.own.clock)
    case Reading => Read(s.own.clock, DeviceReading(Failed, Failed, Failed, Failed, Failed))
    case Publishing(_) => Publish(s.own.clock, true)
    case Expiring => Expire(s.own.clock)
    case Receiving => Check
    case Polling => Missed
    case Ready => Release(None)
    case Discovering(_, _) => Children(NotSupported)
    case SubmitCheck(_, _, _, _) => Check
    case Submitting(_, _, _, _) => JobAccepted
    case Cancelling(_, todo) => if todo == [] then GaveUp else Cancelled(true)
    case Collecting => NextEntry
    case WaitCheck(x, counts, _) => if |counts| < |x.jobs| then Check else Built
    case Waiting(x, counts, _) => Waited(x.jobs[|counts|], Done, 0)
    case Counting(x, counts) => Counted(x.jobs[|counts|], None)
    case Replying(_, _, _) => Sent(true)
    case Halted => Stop
  }

  lemma NextMoveIsEnabled(cfg: DaemonConfig, s: State)
    requires Within(s.pc) && !s.pc.Halted? && (s.pc.Reading? || s.pc.Publishing? ==> s.own.lastClaimed.Some?)
    ensures Enabled(cfg, s, NextMove(s)) && !NextMove(s).Stop?
  {
  }

  /** No run gets stuck: until the daemon has halted there is a next event for it. */
  lemma NeverStuck(cfg: DaemonConfig, s: State, es: seq<Event>) returns (e: Event)
    requires Init(cfg, s) && Run(cfg, s, es) && SoundEvents(es) && cfg.interval > 0 && !Exec(cfg, s, es).pc.Halted?
    ensures Run(cfg, s, es + [e]) && !e.Stop?
  {
    hide Next, Enabled, Init, Run, Exec, Inv, Within, NextMove, SoundEvents, InSlots;
    var m := Exec(cfg, s, es);
    InitInv(cfg, s);
    RunKeepsInv(cfg, s, es);
    InHandIsWithin(cfg, m);
    RunIsPaced(cfg, s, es);
    NextMoveIsEnabled(cfg, m);
    e := NextMove(m);
    RunOneMore(cfg, s, es, e);
  }

  /** At the head of a turn the flag ends the process, and what is still scheduled is
      abandoned; without it the turn begins. A halted daemon does nothing more. */
  lemma HaltsAtTheNextTurn(cfg: DaemonConfig, s: State, e: Event)
    requires Enabled(cfg, s, e) && !e.Stop?
    ensures !s.pc.Halted?
    ensures s.pc.Top? && s.stop ==>
              Next(cfg, s, e) == s.(pc := Halted, scheduler := [], abandoned := s.abandoned + s.scheduler)
    ensures s.pc.Top? && !s.stop ==> Next(cfg, s, e) == s.(pc := Claiming, turns := s.turns + 1)
  {
  }
}
