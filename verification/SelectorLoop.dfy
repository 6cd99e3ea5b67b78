/** The work loop of apps/distributed/selector/main.cpp as code. It acts only through
    SelectorIo, so each turn is a run of SelectorMachine. */
module SelectorLoop {
  import opened Protocol
  import opened Backends
  import opened Registry
  import opened Selection
  import opened SelectorMachine

  ghost predicate Performed(cfg: SelectorConfig, w0: State, log: seq<Event>, w: State) {
    Run(cfg, w0, log) && w == Exec(cfg, w0, log)
  }

  lemma StepKeepsTime(cfg: SelectorConfig, s: State, e: Event)
    requires Enabled(s, e)
    ensures Next(cfg, s, e).stop == (s.stop || e.Stop?)
    ensures Next(cfg, s, e).clock == if e.TookStatus? || e.Sweep? then e.at else s.clock
  {
    hide Choose, FromPublishedStatus, InsertEntry, ExpireEntries, Rejects;
  }

  /** Flag, clock and broker of the selector; `patience` as for the daemons. */
  class SelectorIo {
    const cfg: SelectorConfig
    var stop: bool
    var clock: int
    var patience: nat
    ghost const w0: State
    ghost var w: State
    ghost var log: seq<Event>
    ghost var polled: Option<BackendMessage>      // a status not yet absorbed

    ghost predicate Valid()
      reads this
    {
      Performed(cfg, w0, log, w) && SoundEvents(log) && w.stop == stop && w.clock <= clock
    }

    constructor (cfg: SelectorConfig, clock: int, patience: nat)
      ensures Valid() && this.cfg == cfg && Init(w0) && w == w0 && log == []
    {
      this.cfg, this.clock, this.patience, stop := cfg, clock, patience, false;
      var start := State(Top, false, clock, map[], [], [], 0, 0);
      w0, w, log, polled := start, start, [], None;
    }

    ghost method Step(e: Event)
      requires Valid() && Enabled(w, e) && !e.Stop? && SoundEvent(e)
      requires e.TookStatus? || e.Sweep? ==> e.at <= clock
      modifies this`w, this`log
      ensures Valid() && w == Next(cfg, old(w), e) && log == old(log) + [e]
    {
      hide Next, Enabled, Run, Exec, SoundEvent;
      RunOneMore(cfg, w0, log, e);
      StepKeepsTime(cfg, w, e);
      w, log := Next(cfg, w, e), log + [e];
    }

    /** A signal may arrive before any call. */
    method Interrupt()
      requires Valid()
      modifies this
      ensures Valid() && (old(stop) ==> stop) && old(log) <= log
      ensures w == old(w).(stop := stop) && clock == old(clock) && patience == old(patience)
    {
      var signalled: bool := *;
      if signalled {
        RunOneMore(cfg, w0, log, Stop);
        stop, w, log := true, w.(stop := true), log + [Stop];
      }
    }

    method ReadFlag(ghost e: Event) returns (flagged: bool)
      requires Valid() && (e.Guard? || e.Check?) && Enabled(w, e)
      modifies this
      ensures Valid() && flagged == stop && (old(stop) ==> stop) && old(log) < log
      ensures w == Next(cfg, old(w).(stop := stop), e) && clock == old(clock)
      ensures patience <= old(patience) && (!flagged ==> patience < old(patience))
    {
      hide Run, Exec, Route, Absorb;
      Interrupt();
      if patience > 0 {
        patience := patience - 1;
      } else if !stop {
        RunOneMore(cfg, w0, log, Stop);
        stop, w, log := true, w.(stop := true), log + [Stop];
      }
      flagged := stop;
      Step(e);
    }

    method Now() returns (t: int)
      requires Valid()
      modifies this`clock
      ensures Valid() && t == clock >= old(clock)
    {
      var later: int := *;
      clock := if later > clock then later else clock;
      t := clock;
    }

    /** One attempt on the status queue; the handler's insert stamps what it got. */
    method PollStatus() returns (r: Option<BackendMessage>)
      requires Valid() && w.pc.StatusPoll?
      modifies this
      ensures Valid() && (old(stop) ==> stop) && old(log) <= log && patience == old(patience)
      ensures w == old(w).(stop := stop, pc := if r.None? then Sweeping else StatusPoll) && polled == r
    {
      hide Performed, Route, Absorb;
      Interrupt();
      r := *;
      if r.None? {
        Step(Missed);
      }
      polled := r;
    }

    /** The status just polled has been dealt with, now. */
    ghost method Absorbed(m: BackendMessage, at: int)
      requires Valid() && w.pc.StatusPoll? && at == clock && polled == Some(m)
      modifies this`w, this`log, this`polled
      ensures Valid() && w == Absorb(old(w).(pc := StatusCheck, clock := at), m, at) && old(log) < log
    {
      hide Performed, Route, Absorb;
      Step(TookStatus(m, at));
      polled := None;
    }

    ghost method Swept(at: int)
      requires Valid() && w.pc.Sweeping? && at == clock
      modifies this`w, this`log
      ensures Valid() && old(log) < log
      ensures w == old(w).(pc := TaskCheck, clock := at, registry := ExpireEntries(old(w).registry, cfg.ttl, at))
    {
      hide Performed, Route, Absorb, ExpireEntries;
      Step(Sweep(at));
    }

    /** One attempt on the intake; any task may come, with a history that fits it. */
    method PollTask() returns (r: Option<Delivery>)
      requires Valid() && w.pc.TaskPoll?
      modifies this
      ensures Valid() && (old(stop) ==> stop) && old(log) < log && patience == old(patience)
      ensures r.None? ==> w == old(w).(stop := stop, pc := Top)
      ensures r.Some? ==> w == Route(cfg, old(w).(stop := stop), r.value)
    {
      hide Performed, Route, Absorb;
      Interrupt();
      r := *;
      if r.Some? {
        if !Intact(r.value) {
          r := Some(Delivery(r.value.id, r.value.task, r.value.task, false));
        }
        Step(TookTask(r.value));
      } else {
        Step(Missed);
      }
    }

    /** Best-effort forward of an assigned task. */
    method Forward(d: Delivery, queue: string)
      requires Valid() && w.pc == Forwarding(d, queue)
      modifies this
      ensures Valid() && (old(stop) ==> stop) && old(log) < log && patience == old(patience)
      ensures exists ok :: w == Next(cfg, old(w).(stop := stop), Forwarded(ok))
    {
      hide Performed, Route, Absorb;
      Interrupt();
      var ok: bool := *;
      Step(Forwarded(ok));
    }

    method SendReply(queue: string, result: QuantumResult)
      requires Valid() && w.pc.Replying? && result == w.pc.result && queue == w.pc.d.task.resultDestination
      modifies this
      ensures Valid() && (old(stop) ==> stop) && old(log) < log && patience == old(patience)
      ensures exists ok :: w == Next(cfg, old(w).(stop := stop), Sent(ok))
    {
      hide Performed, Route, Absorb;
      Interrupt();
      var ok: bool := *;
      Step(Sent(ok));
    }
  }

  class Selector {
    const io: SelectorIo
    const registry: BackendRegistry

    ghost predicate Valid()
      reads io, registry
    {
      && io.Valid() && registry.Valid()
      && registry.entries == io.w.registry && registry.ttl == io.cfg.ttl
    }

    twostate predicate Continues()
      reads io
    {
      (old(io.stop) ==> io.stop) && old(io.log) <= io.log && io.w.turns == old(io.w.turns)
    }

    constructor (cfg: SelectorConfig, clock: int, patience: nat)
      ensures Valid() && Init(io.w0) && io.w == io.w0 && io.cfg == cfg && io.log == [] && fresh(io) && fresh(registry)
    {
      io := new SelectorIo(cfg, clock, patience);
      registry := new BackendRegistry(cfg.ttl);
    }

    /** drainQueue over the status queue: validate, then insert or reject. */
    method DrainStatuses()
      requires Valid() && io.w.pc.StatusCheck?
      modifies io, registry
      ensures Valid() && Continues() && io.w.pc.Sweeping?
      ensures io.w.replies == old(io.w.replies) && io.w.lost == old(io.w.lost)
    {
      hide Performed, Replay, KeyedByName, FromPublishedStatus, InsertEntry, Route;
      while true
        invariant Valid() && Continues() && io.w.pc.StatusCheck?
        invariant io.w.replies == old(io.w.replies) && io.w.lost == old(io.w.lost)
        decreases io.patience
      {
        var flagged := io.ReadFlag(Check);
        if flagged {
          break;
        }
        var status := io.PollStatus();
        if status.None? {
          break;
        }
        var now := io.Now();
        io.Absorbed(status.value, now);
        var backend := ReadPublishedStatus(status.value);
        if backend.Ok? {
          var accepted := registry.InsertOrRefresh(backend.value, now);
        }
      }
    }

    /** drainQueue over the intake: select, look up, assign, forward, or answer. */
    method DrainTasks()
      requires Valid() && io.w.pc.TaskCheck?
      modifies io
      ensures Valid() && Continues() && io.w.pc.Top?
    {
      hide Performed, Replay, KeyedByName, Route, Choose;
      while true
        invariant Valid() && Continues() && io.w.pc.TaskCheck?
        decreases io.patience
      {
        var flagged := io.ReadFlag(Check);
        if flagged {
          break;
        }
        ghost var before := io.w;
        var received := io.PollTask();
        if received.None? {
          break;
        }
        RouteLeavesTheRest(io.cfg, before.(stop := io.stop), received.value);
        RouteOne(received.value, before.(stop := io.stop));
      }
    }

    method RouteOne(d: Delivery, ghost before: State)
      requires io.Valid() && registry.Valid() && registry.entries == before.registry && registry.ttl == io.cfg.ttl
      requires io.w == Route(io.cfg, before, d)
      modifies io
      ensures Valid() && Continues() && io.w.pc.TaskCheck? && io.patience == old(io.patience)
    {
      hide Performed, Replay, KeyedByName, Choose;
      var chosen := ChooseBackend(d.task, registry, io.cfg.policy, io.cfg.inputs);
      if chosen.Err? {
        io.SendReply(d.task.resultDestination, CancelQuantumTask(d.task, chosen.error));
        return;
      }
      var backend := registry.Find(chosen.value);
      if backend.None? {
        // The "no longer registered" answer of the source: a chosen name is registered.
        assert false;
      }
      var routed := d.(task := d.task.(scheduledQpu := chosen.value), selected := true);
      io.Forward(routed, backend.value.queueName);
    }

    method Turn() returns (running: bool)
      requires Valid() && io.w.pc.Top?
      modifies io, registry
      ensures Valid() && (old(io.stop) ==> io.stop) && old(io.log) < io.log
      ensures running ==> io.w.pc.Top? && io.w.turns == old(io.w.turns) + 1
      ensures !running ==> io.stop && io.w.pc.Halted?
    {
      hide Performed, Replay, KeyedByName, Route, Absorb, ExpireEntries;
      var flagged := io.ReadFlag(Guard);
      if flagged {
        return false;
      }
      DrainStatuses();
      var now := io.Now();
      var dropped := registry.Expire(now);
      io.Swept(now);
      DrainTasks();
      running := true;
    }

    /** Up to `n` turns are a run of the selector's transition system on sound deliveries;
        from an initial state its invariant holds, so its replies are refusals, each to the
        right submitter. */
    method Serve(n: nat)
      requires Valid() && io.w.pc.Top?
      modifies io, registry
      ensures Valid() && Performed(io.cfg, io.w0, io.log, io.w) && SoundEvents(io.log)
      ensures io.w.pc.Halted? || io.w.turns == old(io.w.turns) + n
      ensures Init(io.w0) ==> Inv(io.w)
    {
      hide Performed, Replay, KeyedByName;
      var running, turn := true, 0;
      while running && turn < n
        invariant Valid() && turn <= n
        invariant if running then io.w.pc.Top? && io.w.turns == old(io.w.turns) + turn else io.w.pc.Halted?
        decreases n - turn
      {
        running := Turn();
        turn := turn + 1;
      }
      if Init(io.w0) {
        ServedKeepsInv(io);
      }
    }
  }

  lemma ServedKeepsInv(io: SelectorIo)
    requires io.Valid() && Init(io.w0)
    ensures Inv(io.w)
  {
    RunKeepsInv(io.cfg, io.w0, io.log);
  }
}
