/** Accepted configurations put to work: what src/Config.cpp's constraints buy the daemons
    of apps/. */
module Deployment {
  import opened Protocol
  import opened Selection
  import opened Compilation
  import opened Config
  import opened Messaging
  import D = DaemonMachine
  import R = DaemonRuns
  import Cluster
  import Routing

  /** The daemon a configuration describes; both main.cpp files convert the same way. */
  function DaemonFor(
    standalone: bool, c: Settings, intake: string, policy: Policy, inputs: seq<string>, compiler: Compiler): D.DaemonConfig
  {
    D.DaemonConfig(
      standalone, c.deviceId,
      if standalone then intake else c.compilerQueue,
      if standalone then "" else c.compilerQueue,
      SecondsToNanos(c.entryTimeToLiveS), MsToNanos(c.publishIntervalMs), c.jobWaitTimeoutS,
      policy, inputs, compiler)
  }

  /** `cfg` comes from a configuration that was accepted. */
  ghost predicate Configured(cfg: D.DaemonConfig, raw: RawConfig) {
    && AssembleConfig(raw).Ok?
    && cfg == DaemonFor(cfg.standalone, AssembleConfig(raw).value, cfg.intake, cfg.policy, cfg.inputs, cfg.compiler)
  }

  /** Each setting reaches the part of the daemon it is for. */
  lemma DaemonUsesItsSettings(cfg: D.DaemonConfig, raw: RawConfig)
    requires Configured(cfg, raw)
    ensures var c := AssembleConfig(raw).value;
            && cfg.id == c.deviceId && cfg.waitTimeout == c.jobWaitTimeoutS
            && (!cfg.standalone ==> cfg.intake == c.compilerQueue == cfg.dispatchQueue)
            && (cfg.standalone ==> cfg.dispatchQueue == "")
            && (c.entryTimeToLiveS * NANOS < TWO63 ==>
                  cfg.ttl == c.entryTimeToLiveS * 1_000_000_000 && cfg.interval == c.publishIntervalMs * 1_000_000)
  {
    hide AssembleConfig;
    AcceptedConfiguration(raw);
  }

  /** A configured daemon whose lifetime fits the clock, whose device answers, and whose
      sweeps are timely keeps its entry through every run, and so never refuses a task
      assigned to its own device for want of a backend. */
  lemma ConfiguredDaemonKeepsItsEntry(
    cfg: D.DaemonConfig, raw: RawConfig, s: D.State, es: seq<D.Event>, t: QuantumTask)
    requires Configured(cfg, raw) && AssembleConfig(raw).value.entryTimeToLiveS * NANOS < TWO63
    requires D.Init(cfg, s) && D.Run(cfg, s, es) && R.TimelyRun(cfg, s, es)
    ensures 0 < cfg.interval < cfg.ttl
    ensures cfg.id in D.Exec(cfg, s, es).own.registry
    ensures t.scheduledQpu == cfg.id ==>
              D.CompileFor(cfg, D.Exec(cfg, s, es).own.registry, t) != Err(Error(NoBackendAvailable, None))
  {
    hide D.Next, D.Enabled, D.Init, CompileTask, AssembleConfig, R.Timely;
    AcceptedConfiguration(raw);
    R.NeverExpiresItself(cfg, s, es);
    if t.scheduledQpu == cfg.id {
      CompileErrorKinds(t, D.Exec(cfg, s, es).own.registry[cfg.id].backend, cfg.inputs, cfg.compiler);
    }
  }

  /** Every daemon has an accepted configuration, and workers own different devices. */
  ghost predicate ConfiguredCluster(u: Cluster.Setup, raws: seq<RawConfig>) {
    && |raws| == |u.daemons| && (forall i :: 0 <= i < |raws| ==> Configured(u.daemons[i], raws[i]))
    && (forall i, j :: 0 <= i < j < |u.daemons| && !u.daemons[i].standalone && !u.daemons[j].standalone ==>
          u.daemons[i].id != u.daemons[j].id)
  }

  lemma ConfiguredIsWellDeployed(u: Cluster.Setup, raws: seq<RawConfig>)
    requires ConfiguredCluster(u, raws)
    ensures Cluster.WellDeployed(u)
  {
    hide AssembleConfig;
    forall i | 0 <= i < |u.daemons| && !u.daemons[i].standalone
      ensures u.daemons[i].id != "" && u.daemons[i].dispatchQueue != ""
    {
      AcceptedConfiguration(raws[i]);
    }
  }

  /** Accepted configurations with distinct worker device ids: the selector rejects no
      status in any run. */
  lemma ConfiguredClusterRejectsNoStatus(
    u: Cluster.Setup, raws: seq<RawConfig>, c: Cluster.Cluster, es: seq<Cluster.Event>)
    requires ConfiguredCluster(u, raws) && Cluster.Init(u, c) && Cluster.Run(u, c, es)
    ensures Cluster.Exec(u, c, es).selector.rejected == 0
  {
    hide Cluster.Next, Cluster.Enabled, Cluster.Init, AssembleConfig, ConfiguredCluster, Cluster.WellDeployed;
    ConfiguredIsWellDeployed(u, raws);
    Cluster.NoStatusIsRejected(u, c, es);
  }

  /** Accepted configurations, distinct worker device ids, dispatch queues that no other
      daemon receives on, and a timely daemon whose lifetime fits the clock: in no run does
      that daemon answer a delivery that selection assigned with NoBackendAvailable. */
  lemma ConfiguredClusterServesSelectedTasks(
    u: Cluster.Setup, raws: seq<RawConfig>, c: Cluster.Cluster, es: seq<Cluster.Event>, i: nat, r: Reply)
    requires ConfiguredCluster(u, raws) && Routing.Unshared(u) && Cluster.Init(u, c) && Cluster.Run(u, c, es)
    requires Routing.TimelyDaemon(u, c, es, i) && AssembleConfig(raws[i]).value.entryTimeToLiveS * NANOS < TWO63
    requires i < |Cluster.Exec(u, c, es).daemons| && r in Cluster.Exec(u, c, es).daemons[i].replies
    requires r.delivery.selected
    ensures !Routing.TurnsAway(r.result)
  {
    hide Cluster.Next, Cluster.Enabled, Cluster.Init, AssembleConfig, Cluster.WellDeployed, Routing.TurnsAway;
    AcceptedConfiguration(raws[i]);
    ConfiguredIsWellDeployed(u, raws);
    Routing.SelectedTasksAreNotTurnedAway(u, c, es, i, r);
  }

  /** The worker's receive: under every accepted configuration one transport attempt at
      most, so the indefinite wait is never entered. */
  method WorkerReceive(raw: RawConfig, channel: Channel<QuantumTask>) returns (r: Result<Option<QuantumTask>>)
    requires AssembleConfig(raw).Ok? && channel.Valid()
    modifies channel
    ensures channel.Valid() && channel.attempts <= old(channel.attempts) + 1
    ensures channel.consumed == old(channel.consumed) + if r.Ok? && r.value.Some? then [r.value.value] else []
  {
    AcceptedConfiguration(raw);
    r := channel.Receive(AssembleConfig(raw).value.taskReceiveTimeoutMs);
  }
}
