/** How long the selector goes on knowing a worker: publication pacing against the lifetime
    of the selector's entries. Worker and selector times are on one time line. */
module Freshness {
  import opened Backends
  import opened Registry
  import opened Throttle
  import S = SelectorMachine
  import D = DaemonMachine
  import R = DaemonRuns
  import C = Cluster

  // ---- The selector's registry is what its calls make it ------------------------------

  /** The registry calls a selector makes in a run. */
  function CallsOf(es: seq<S.Event>): seq<Call> {
    if es == [] then []
    else CallsOf(es[..|es| - 1]) + CallOf(es[|es| - 1])
  }

  function CallOf(e: S.Event): seq<Call> {
    match e
    case TookStatus(m, at) => if FromPublishedStatus(m).Ok? then [Inserted(FromPublishedStatus(m).value, at)] else []
    case Sweep(at) => [Swept(at)]
    case _ => []
  }

  ghost predicate Rising(log: seq<Call>) {
    forall i, j :: 0 <= i <= j < |log| ==> log[i].at <= log[j].at
  }

  /** In every run the selector's registry is the replay of its calls, in rising time, so
      the refinement of the registry by its log holds of the selector. */
  lemma {:induction false} SelectorReplaysItsCalls(cfg: S.SelectorConfig, s: S.State, es: seq<S.Event>)
    requires S.Init(s) && S.Run(cfg, s, es)
    ensures S.Exec(cfg, s, es).registry == Replay(CallsOf(es), cfg.ttl, |CallsOf(es)|)
    ensures Rising(CallsOf(es))
    ensures forall c :: c in CallsOf(es) ==> c.at <= S.Exec(cfg, s, es).clock
  {
    hide S.Next, S.Enabled, CallOf, Replay, Rising, After;
    if es == [] {
      NoCalls(cfg.ttl);
    } else {
      var n := |es| - 1;
      var m := S.Exec(cfg, s, es[..n]);
      SelectorReplaysItsCalls(cfg, s, es[..n]);
      OneCall(cfg, m, es[n]);
      AppendCall(CallsOf(es[..n]), CallOf(es[n]), cfg.ttl, m.clock, S.Next(cfg, m, es[n]).clock);
    }
  }

  /** The registry after one more call, or after none. */
  function After(entries: Entries, call: seq<Call>, ttl: int): Entries {
    if call == [] then entries
    else match call[0]
      case Inserted(b, at) => InsertEntry(entries, b, at)
      case Swept(at) => ExpireEntries(entries, ttl, at)
  }

  lemma NoCalls(ttl: int)
    ensures Rising([]) && Replay([], ttl, 0) == map[]
  {
  }

  lemma AppendCall(log: seq<Call>, call: seq<Call>, ttl: int, clock: int, clock': int)
    requires |call| <= 1 && Rising(log) && (forall c :: c in log ==> c.at <= clock)
    requires clock <= clock' && (call != [] ==> call[0].at == clock')
    ensures Rising(log + call) && (forall c :: c in log + call ==> c.at <= clock')
    ensures Replay(log + call, ttl, |log + call|) == After(Replay(log, ttl, |log|), call, ttl)
  {
    hide Replay, After;
    AppendReplays(log, call, ttl);
    assert forall i :: 0 <= i < |log| ==> log[i] in log;
  }

  lemma AppendReplays(log: seq<Call>, call: seq<Call>, ttl: int)
    requires |call| <= 1
    ensures Replay(log + call, ttl, |log + call|) == After(Replay(log, ttl, |log|), call, ttl)
  {
    hide InsertEntry, ExpireEntries;
    if call == [] {
      assert log + call == log;
    } else {
      ReplayPrefix(log, log + call, ttl, |log|);
    }
  }

  lemma OneCall(cfg: S.SelectorConfig, s: S.State, e: S.Event)
    requires S.Enabled(s, e)
    ensures var s', call := S.Next(cfg, s, e), CallOf(e);
            && |call| <= 1 && s'.clock >= s.clock
            && (call != [] ==> s'.clock == call[0].at)
            && s'.registry == After(s.registry, call, cfg.ttl)
  {
    hide FromPublishedStatus, InsertEntry, ExpireEntries;
  }

  // ---- So is a daemon's -----------------------------------------------------------------

  /** The registry calls a daemon makes in a run. */
  function OwnCalls(cfg: D.DaemonConfig, es: seq<D.Event>): seq<Call> {
    if es == [] then []
    else OwnCalls(cfg, es[..|es| - 1]) + OwnCall(cfg, es[|es| - 1])
  }

  function OwnCall(cfg: D.DaemonConfig, e: D.Event): seq<Call> {
    match e
    case Read(at, reading) =>
      var own := FromSubmitter(cfg.id, reading, cfg.dispatchQueue);
      if own.Ok? then [Inserted(own.value, at)] else []
    case Expire(at) => [Swept(at)]
    case _ => []
  }

  /** In every run a daemon's registry is the replay of its registration, its successful
      re-reads and its sweeps: an entry that is not refreshed does go. */
  lemma {:induction false} DaemonReplaysItsCalls(cfg: D.DaemonConfig, s: D.State, es: seq<D.Event>, r: DeviceReading)
    requires D.StartsFrom(cfg, s, r) && D.Run(cfg, s, es)
    ensures var own := FromSubmitter(cfg.id, r, cfg.dispatchQueue);
            var log := [Inserted(own.value, s.own.clock)] + OwnCalls(cfg, es);
            D.Exec(cfg, s, es).own.registry == Replay(log, cfg.ttl, |log|)
  {
    hide D.Next, D.Enabled, OwnCall, Replay, After;
    var own := Inserted(FromSubmitter(cfg.id, r, cfg.dispatchQueue).value, s.own.clock);
    if es == [] {
      RegisteredFirst(own, cfg.ttl);
      assert [own] + [] == [own];
    } else {
      var n := |es| - 1;
      DaemonReplaysItsCalls(cfg, s, es[..n], r);
      OneOwnCall(cfg, D.Exec(cfg, s, es[..n]), es[n]);
      AppendReplays([own] + OwnCalls(cfg, es[..n]), OwnCall(cfg, es[n]), cfg.ttl);
      assert [own] + OwnCalls(cfg, es) == [own] + OwnCalls(cfg, es[..n]) + OwnCall(cfg, es[n]);
    }
  }

  lemma RegisteredFirst(call: Call, ttl: int)
    requires call.Inserted?
    ensures Replay([call], ttl, 1) == map[call.backend.name := Entry(call.backend, call.at)]
  {
    assert Replay([call], ttl, 0) == map[];
  }

  lemma OneOwnCall(cfg: D.DaemonConfig, s: D.State, e: D.Event)
    requires D.Enabled(cfg, s, e)
    ensures |OwnCall(cfg, e)| <= 1
    ensures D.Next(cfg, s, e).own.registry == After(s.own.registry, OwnCall(cfg, e), cfg.ttl)
  {
    hide D.OnGuard, D.OnTook, D.OnRelease, D.OnAccepted, D.OnGaveUp, D.OnNextEntry, D.OnCheck, D.OnSent, D.NextJob;
    hide D.OnChildren, D.OnCancelled, D.OnWaited, D.OnCounted, D.OnBuilt;
    hide FromSubmitter, InsertEntry, ExpireEntries, ToBackend;
    if !R.Status(e) {
      hide D.Next, D.Enabled;
      R.OthersLeaveStatus(cfg, s, e);
    }
  }

  // ---- An insert that is recent enough ------------------------------------------------

  predicate InsertsName(c: Call, name: string) {
    c.Inserted? && c.backend.name == name
  }

  /** All statuses of `name` advertise one queue. */
  ghost predicate OneQueue(log: seq<Call>, name: string, queue: string) {
    forall i :: 0 <= i < |log| && InsertsName(log[i], name) ==> log[i].backend.queueName == queue
  }

  lemma {:induction false} KeepsOneQueue(log: seq<Call>, ttl: int, name: string, queue: string, k: nat)
    requires k <= |log| && OneQueue(log, name, queue)
    ensures name in Replay(log, ttl, k) ==> Replay(log, ttl, k)[name].backend.queueName == queue
  {
    if k > 0 {
      KeepsOneQueue(log, ttl, name, queue, k - 1);
      assert InsertsName(log[k - 1], name) ==> log[k - 1].backend.queueName == queue;
    }
  }

  /** An insert keeps its name registered for as long as the lifetime lasts. */
  lemma {:induction false} StaysSince(log: seq<Call>, ttl: int, name: string, queue: string, j: nat, k: nat)
    requires j < k <= |log| && Rising(log) && OneQueue(log, name, queue) && InsertsName(log[j], name)
    requires log[k - 1].at - log[j].at <= ttl
    ensures name in Replay(log, ttl, k) && Replay(log, ttl, k)[name].lastRefreshed >= log[j].at
  {
    KeepsOneQueue(log, ttl, name, queue, k - 1);
    if k > j + 1 {
      assert log[k - 2].at <= log[k - 1].at;
      StaysSince(log, ttl, name, queue, j, k - 1);
    }
  }

  // ---- A worker that keeps reporting --------------------------------------------------

  /** The status of the slot claimed at `c` was absorbed within `delay`. */
  ghost predicate Absorbed(log: seq<Call>, name: string, c: int, delay: int) {
    exists j :: 0 <= j < |log| && InsertsName(log[j], name) && c <= log[j].at <= c + delay
  }

  lemma {:induction false} FirstCallIsGranted(interval: int, calls: seq<int>)
    requires calls != []
    ensures Claims(interval, calls) != [] && Claims(interval, calls)[0] == calls[0]
  {
    if |calls| > 1 {
      FirstCallIsGranted(interval, calls[..|calls| - 1]);
    } else {
      assert calls[..0] == [];
    }
  }

  /** The last slot whose status is overdue at `now` was claimed less than interval + g +
      delay ago. */
  lemma LastOverdueSlot(interval: int, calls: seq<int>, g: int, delay: int, now: int) returns (c: int)
    requires interval > 0 && calls != [] && Sorted(calls)
    requires forall i :: 0 <= i < |calls| - 1 ==> calls[i + 1] - calls[i] <= g
    requires calls[0] + delay < now <= calls[|calls| - 1] + g + delay
    ensures c in Claims(interval, calls) && c + delay < now < c + interval + g + delay
  {
    hide Claims;
    var cs := Claims(interval, calls);
    FirstCallIsGranted(interval, calls);
    ClaimGaps(interval, calls, g);
    var m := 0;
    while m + 1 < |cs| && cs[m + 1] + delay < now
      invariant 0 <= m < |cs| && cs[m] + delay < now
    {
      m := m + 1;
    }
    c := cs[m];
  }

  /** A worker whose loop comes round at least every `g`, whose granted slots are published
      and absorbed within `delay`, stays in a selector's registry at every call from its
      first absorbed status on, if the selector's lifetime is at least interval + g + delay. */
  lemma ReportingWorkerStaysRegistered(
    log: seq<Call>, ttl: int, name: string, queue: string, interval: int, calls: seq<int>, g: int, delay: int, k: nat)
    requires interval > 0 && calls != [] && Sorted(calls)
    requires forall i :: 0 <= i < |calls| - 1 ==> calls[i + 1] - calls[i] <= g
    requires 0 < k <= |log| && Rising(log) && OneQueue(log, name, queue)
    requires calls[0] + delay < log[k - 1].at <= calls[|calls| - 1] + g + delay
    requires forall c :: c in Claims(interval, calls) && c + delay < log[k - 1].at ==> Absorbed(log, name, c, delay)
    requires ttl >= interval + g + delay
    ensures name in Replay(log, ttl, k)
  {
    hide Claims, Replay;
    var c := LastOverdueSlot(interval, calls, g, delay, log[k - 1].at);
    var j :| 0 <= j < |log| && InsertsName(log[j], name) && c <= log[j].at <= c + delay;
    assert j < k - 1;
    StaysSince(log, ttl, name, queue, j, k);
  }

  /** The same of every run of the selector: at its last registry call the worker is there,
      so tasks can still be routed to it. */
  lemma SelectorKeepsReportingWorker(
    cfg: S.SelectorConfig, s: S.State, es: seq<S.Event>, name: string, queue: string,
    interval: int, calls: seq<int>, g: int, delay: int)
    requires S.Init(s) && S.Run(cfg, s, es)
    requires interval > 0 && calls != [] && Sorted(calls)
    requires forall i :: 0 <= i < |calls| - 1 ==> calls[i + 1] - calls[i] <= g
    requires var log := CallsOf(es);
             && log != [] && OneQueue(log, name, queue)
             && calls[0] + delay < log[|log| - 1].at <= calls[|calls| - 1] + g + delay
             && (forall c :: c in Claims(interval, calls) && c + delay < log[|log| - 1].at ==> Absorbed(log, name, c, delay))
    requires cfg.ttl >= interval + g + delay
    ensures name in S.Exec(cfg, s, es).registry
  {
    hide Claims, Replay, S.Init, S.Run, S.Exec, CallsOf, OneQueue, Absorbed;
    SelectorReplaysItsCalls(cfg, s, es);
    ReportingWorkerStaysRegistered(CallsOf(es), cfg.ttl, name, queue, interval, calls, g, delay, |CallsOf(es)|);
  }

  // ---- In a cluster -------------------------------------------------------------------

  /** Every status the selector inserts in a cluster run is one some worker advertises. */
  lemma {:induction false} InsertsAreAdvertised(u: C.Setup, c: C.Cluster, es: seq<C.Event>)
    requires C.Init(u, c) && C.Run(u, c, es) && C.WellDeployed(u)
    ensures forall call :: call in CallsOf(C.SelectorPart(es)) && call.Inserted? ==>
              C.Advertises(u, call.backend.name, call.backend.queueName)
  {
    hide C.Next, C.Init, C.Advertises, C.WellDeployed, CallOf;
    if es != [] {
      var n := |es| - 1;
      InsertsAreAdvertised(u, c, es[..n]);
      var part := C.SelectorPart(es[..n]);
      if es[n].SelectorDoes? {
        C.NoStatusIsRejected(u, c, es[..n]);
        AbsorbsAdvertisedStatus(u, C.Exec(u, c, es[..n]), es[n].s);
        assert (part + [es[n].s])[..|part|] == part;
      } else {
        assert C.SelectorPart(es) == part;
      }
    }
  }

  lemma AbsorbsAdvertisedStatus(u: C.Setup, c: C.Cluster, e: S.Event)
    requires C.Advertised(u, c) && C.Enabled(u, c, C.SelectorDoes(e))
    ensures forall call :: call in CallOf(e) && call.Inserted? ==>
              C.Advertises(u, call.backend.name, call.backend.queueName)
  {
    if e.TookStatus? {
      assert e.status in c.statuses;
    }
  }

  /** In a cluster of well-deployed workers: a worker whose loop comes round at least every
      `g`, and whose granted slots' statuses are absorbed within `delay`, is registered with
      the selector at its last registry call, if the selector's lifetime is at least the
      worker's interval + g + delay. */
  lemma ClusterKeepsReportingWorker(u: C.Setup, c: C.Cluster, es: seq<C.Event>, i: nat, g: int, delay: int)
    requires C.Init(u, c) && C.Run(u, c, es) && C.WellDeployed(u)
    requires i < |u.daemons| && !u.daemons[i].standalone && u.daemons[i].interval > 0
    requires var calls := R.CallTimes(C.Local(es, i));
             calls != [] && forall j :: 0 <= j < |calls| - 1 ==> calls[j + 1] - calls[j] <= g
    requires var calls, log := R.CallTimes(C.Local(es, i)), CallsOf(C.SelectorPart(es));
             && log != []
             && calls[0] + delay < log[|log| - 1].at <= calls[|calls| - 1] + g + delay
             && |C.Exec(u, c, es).daemons| == |u.daemons|
             && forall t :: t in C.Exec(u, c, es).daemons[i].own.claims && t + delay < log[|log| - 1].at ==>
                  Absorbed(log, u.daemons[i].id, t, delay)
    requires u.selector.ttl >= u.daemons[i].interval + g + delay
    ensures u.daemons[i].id in C.Exec(u, c, es).selector.registry
  {
    hide C.Next, C.Enabled, C.Init, C.Run, C.Exec, Absorbed, Claims, CallsOf, R.CallTimes;
    hide D.Init, D.Run, D.Exec, S.Init, S.Run, S.Exec, S.SoundEvents;
    var cfg, local, part := u.daemons[i], C.Local(es, i), C.SelectorPart(es);
    C.Projects(u, c, es, i);
    C.ProjectsSelector(u, c, es);
    R.SlotsAreGrantedCalls(cfg, c.daemons[i], local);
    InsertsAreAdvertised(u, c, es);
    AdvertisedInOneQueue(u, i, CallsOf(part));
    SelectorKeepsReportingWorker(
      u.selector, c.selector, part, cfg.id, cfg.dispatchQueue, cfg.interval, R.CallTimes(local), g, delay);
  }

  lemma AdvertisedInOneQueue(u: C.Setup, i: nat, log: seq<Call>)
    requires C.WellDeployed(u) && i < |u.daemons| && !u.daemons[i].standalone
    requires forall call :: call in log && call.Inserted? ==> C.Advertises(u, call.backend.name, call.backend.queueName)
    ensures OneQueue(log, u.daemons[i].id, u.daemons[i].dispatchQueue)
  {
    var name, queue := u.daemons[i].id, u.daemons[i].dispatchQueue;
    forall j | 0 <= j < |log| && InsertsName(log[j], name) ensures log[j].backend.queueName == queue {
      assert log[j] in log;
      assert C.Advertises(u, name, queue);
      C.OneQueuePerName(u, name, log[j].backend.queueName, queue);
    }
  }
}
