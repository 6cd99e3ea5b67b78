/** What selection is worth end to end: a task that a selection stage assigned to a backend is
    not turned away for want of that backend. */
module Routing {
  import opened Protocol
  import opened Compilation
  import opened Selection
  import opened Cluster
  import S = SelectorMachine
  import D = DaemonMachine
  import P = DaemonProofs
  import R = DaemonRuns

  // ---- One daemon -----------------------------------------------------------------------

  /** The answer "no such backend here". */
  predicate TurnsAway(r: QuantumResult) {
    r.failure.Some? && r.failure.value.kind == NoBackendAvailable
  }

  predicate ServesInHand(pc: D.Pc) {
    pc.Replying? && pc.d.selected ==> !TurnsAway(pc.result)
  }

  /** No selected delivery is, or is being, turned away. */
  ghost predicate Serves(s: D.State) {
    ServesInHand(s.pc) && forall r :: r in s.replies && r.delivery.selected ==> !TurnsAway(r.result)
  }

  /** A selected delivery only reaches the worker it was assigned to. */
  predicate Addressed(cfg: D.DaemonConfig, e: D.Event) {
    e.Took? && e.delivery.selected ==> !cfg.standalone && e.delivery.task.scheduledQpu == cfg.id
  }

  lemma StepServes(cfg: D.DaemonConfig, s: D.State, e: D.Event)
    requires P.Inv(cfg, s) && cfg.id in s.own.registry && Serves(s)
    requires D.Enabled(cfg, s, e) && Addressed(cfg, e)
    ensures Serves(D.Next(cfg, s, e))
  {
    hide D.Next, D.Enabled, P.Inv, TurnsAway;
    if e.Took? {
      TookServes(cfg, s, e.delivery);
    } else if R.Intake(e) || R.Status(e) {
      IntakeServes(cfg, s, e);
    } else {
      DeviceServes(cfg, s, e);
    }
  }

  /** With the own entry there, handling an addressed delivery fails on compilation only. */
  lemma TookServes(cfg: D.DaemonConfig, s: D.State, d: Delivery)
    requires P.Inv(cfg, s) && cfg.id in s.own.registry && Serves(s)
    requires D.Enabled(cfg, s, D.Took(d)) && Addressed(cfg, D.Took(d))
    ensures Serves(D.Next(cfg, s, D.Took(d)))
  {
    hide P.Contents, P.Phase, CompileTask, Choose;
    ChooseIsOptimal(s.own.registry, d.task, cfg.policy, cfg.inputs);
    match D.Assigned(cfg, s.own.registry, d)
    case Err(_) =>
    case Ok(a) =>
      if a.task.scheduledQpu in s.own.registry {
        CompileErrorKinds(a.task, s.own.registry[a.task.scheduledQpu].backend, cfg.inputs, cfg.compiler);
      }
  }

  lemma IntakeServes(cfg: D.DaemonConfig, s: D.State, e: D.Event)
    requires Serves(s) && D.Enabled(cfg, s, e) && !e.Took? && (R.Intake(e) || R.Status(e))
    ensures Serves(D.Next(cfg, s, e))
  {
    hide D.OnTook, D.OnChildren, D.OnAccepted, D.OnCancelled, D.OnGaveUp, D.OnNextEntry, D.OnWaited, D.OnCounted;
    hide D.OnBuilt, D.OnSent, D.NextJob;
  }

  lemma DeviceServes(cfg: D.DaemonConfig, s: D.State, e: D.Event)
    requires Serves(s) && D.Enabled(cfg, s, e) && !R.Intake(e) && !R.Status(e)
    ensures Serves(D.Next(cfg, s, e))
  {
    hide D.OnClaim, D.OnRead, D.OnPublish, D.OnExpire, D.OnGuard, D.OnCheck, D.OnTook, D.OnRelease;
    hide D.OutOfTime, D.NextJob;
  }

  /** A timely daemon that only takes deliveries addressed to it turns none of the selected
      ones away. */
  lemma {:induction false} RunServes(cfg: D.DaemonConfig, s: D.State, es: seq<D.Event>)
    requires D.Init(cfg, s) && D.Run(cfg, s, es) && P.SoundEvents(es) && R.TimelyRun(cfg, s, es) && cfg.interval > 0
    requires forall e :: e in es ==> Addressed(cfg, e)
    ensures Serves(D.Exec(cfg, s, es))
  {
    hide D.Next, D.Enabled, P.Inv, Addressed, R.Timely, R.Fresh;
    if es != [] {
      var n := |es| - 1;
      RunServes(cfg, s, es[..n]);
      P.InitInv(cfg, s);
      P.RunKeepsInv(cfg, s, es[..n]);
      R.NeverExpiresItself(cfg, s, es[..n]);
      StepServes(cfg, D.Exec(cfg, s, es[..n]), es[n]);
    }
  }

  // ---- The cluster ----------------------------------------------------------------------

  /** Nobody but a worker itself receives on its dispatch queue. */
  ghost predicate Unshared(u: Setup) {
    forall i, j :: 0 <= i < |u.daemons| && 0 <= j < |u.daemons| && i != j && !u.daemons[i].standalone ==>
      u.daemons[j].intake != u.daemons[i].dispatchQueue
  }

  /** Whatever selected task is on a queue, that queue is its backend's own. */
  ghost predicate MailAddressed(u: Setup, broker: seq<Envelope>) {
    forall x :: x in broker && x.d.selected ==> Advertises(u, x.d.task.scheduledQpu, x.queue)
  }

  lemma StepKeepsMailAddressed(u: Setup, c: Cluster, e: Event)
    requires S.Inv(c.selector) && Advertised(u, c) && Enabled(u, c, e) && MailAddressed(u, c.broker)
    ensures MailAddressed(u, Next(u, c, e).broker)
  {
    hide Advertises, S.Next, D.Next, D.Enabled, Heads;
  }

  /** In every run of a well-deployed cluster selected tasks are only ever on the queue their
      backend's worker advertises. */
  lemma {:induction false} SelectedMailIsAddressed(u: Setup, c: Cluster, es: seq<Event>)
    requires Init(u, c) && Run(u, c, es) && WellDeployed(u)
    ensures MailAddressed(u, Exec(u, c, es).broker)
  {
    hide Next, Enabled, WellDeployed, Advertises, Advertised, S.Inv, DaemonsOk;
    if es != [] {
      var n := |es| - 1;
      SelectedMailIsAddressed(u, c, es[..n]);
      NoStatusIsRejected(u, c, es[..n]);
      RunKeepsInv(u, c, es[..n]);
      StepKeepsMailAddressed(u, Exec(u, c, es[..n]), es[n]);
    }
  }

  lemma TakesAddressed(u: Setup, c: Cluster, i: nat, d: D.Event)
    requires MailAddressed(u, c.broker) && Unshared(u) && Enabled(u, c, DaemonDoes(i, d))
    ensures Addressed(u.daemons[i], d)
  {
    hide D.Enabled;
    if d.Took? && d.delivery.selected {
      var x := c.broker[Oldest(c.broker, u.daemons[i].intake)];
      assert x in c.broker && x.queue == u.daemons[i].intake && x.d == d.delivery;
      assert Advertises(u, d.delivery.task.scheduledQpu, u.daemons[i].intake);
    }
  }

  lemma {:induction false} DaemonsTakeAddressed(u: Setup, c: Cluster, es: seq<Event>, i: nat)
    requires Init(u, c) && Run(u, c, es) && WellDeployed(u) && Unshared(u) && i < |u.daemons|
    ensures forall d :: d in Local(es, i) ==> Addressed(u.daemons[i], d)
  {
    hide Next, Enabled, Init, WellDeployed, Unshared, Addressed;
    if es != [] {
      var n := |es| - 1;
      DaemonsTakeAddressed(u, c, es[..n], i);
      if es[n].DaemonDoes? && es[n].i == i {
        SelectedMailIsAddressed(u, c, es[..n]);
        TakesAddressed(u, Exec(u, c, es[..n]), i, es[n].d);
      }
    }
  }

  /** What daemon `i` does in this cluster run is timely. */
  ghost predicate TimelyDaemon(u: Setup, c: Cluster, es: seq<Event>, i: nat) {
    && i < |u.daemons| == |c.daemons|
    && D.Run(u.daemons[i], c.daemons[i], Local(es, i))
    && R.TimelyRun(u.daemons[i], c.daemons[i], Local(es, i))
  }

  /** End to end: in every run of a well-deployed cluster with unshared dispatch queues, a
      timely daemon never answers a delivery that a selection stage assigned with
      NoBackendAvailable. */
  lemma SelectedTasksAreNotTurnedAway(u: Setup, c: Cluster, es: seq<Event>, i: nat, r: Reply)
    requires Init(u, c) && Run(u, c, es) && WellDeployed(u) && Unshared(u)
    requires TimelyDaemon(u, c, es, i) && u.daemons[i].interval > 0 && i < |Exec(u, c, es).daemons|
    requires r in Exec(u, c, es).daemons[i].replies && r.delivery.selected
    ensures !TurnsAway(r.result)
  {
    hide Next, Enabled, Init, Run, Exec, WellDeployed, Unshared, D.Next, D.Enabled, D.Init, D.Run, D.Exec;
    hide Addressed, TurnsAway, P.SoundEvents, R.TimelyRun, Local;
    Projects(u, c, es, i);
    DaemonsTakeAddressed(u, c, es, i);
    RunServes(u.daemons[i], c.daemons[i], Local(es, i));
  }
}
