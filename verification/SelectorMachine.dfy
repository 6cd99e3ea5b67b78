/** apps/distributed/selector/main.cpp as a labelled transition system: it drains the
    status queue into its registry, sweeps, then drains the intake and forwards. */
module SelectorMachine {
  import opened Protocol
  import opened Backends
  import opened Registry
  import opened Selection

  datatype SelectorConfig = SelectorConfig(intake: string, ttl: int, policy: Policy, inputs: seq<string>)

  datatype Pc =
    | Top
    | StatusCheck
    | StatusPoll
    | Sweeping
    | TaskCheck
    | TaskPoll
    | Forwarding(d: Delivery, queue: string)
    | Replying(d: Delivery, result: QuantumResult)
    | Halted

  datatype Event =
    | Stop
    | Guard
    | Check
    | Missed
    | TookStatus(status: BackendMessage, at: int)
    | Sweep(at: int)
    | TookTask(delivery: Delivery)
    | Forwarded(ok: bool)
    | Sent(ok: bool)

  /** `replies`, `lost` (forwards the broker refused), `rejected` (statuses) and `turns`
      are history. */
  datatype State = State(
    pc: Pc,
    stop: bool,
    clock: int,
    registry: Entries,
    replies: seq<Reply>,
    lost: seq<Delivery>,
    rejected: nat,
    turns: nat)

  predicate Enabled(s: State, e: Event) {
    match e
    case Stop => true
    case Guard => s.pc.Top?
    case Check => s.pc.StatusCheck? || s.pc.TaskCheck?
    case Missed => s.pc.StatusPoll? || s.pc.TaskPoll?
    case TookStatus(_, at) => s.pc.StatusPoll? && at >= s.clock
    case Sweep(at) => s.pc.Sweeping? && at >= s.clock
    case TookTask(_) => s.pc.TaskPoll?
    case Forwarded(_) => s.pc.Forwarding?
    case Sent(_) => s.pc.Replying?
  }

  function Absorb(s: State, m: BackendMessage, at: int): State {
    match FromPublishedStatus(m)
    case Err(_) => s.(rejected := s.rejected + 1)
    case Ok(b) =>
      s.(registry := InsertEntry(s.registry, b, at),
         rejected := s.rejected + if Rejects(s.registry, b) then 1 else 0)
  }

  function Refuse(s: State, d: Delivery): State {
    s.(pc := Replying(d, CancelQuantumTask(d.task, Error(NoBackendAvailable, None))))
  }

  /** Select, look the chosen name up again, assign, forward. */
  ghost function Route(cfg: SelectorConfig, s: State, d: Delivery): State {
    match Choose(s.registry, d.task, cfg.policy, cfg.inputs)
    case None => Refuse(s, d)
    case Some(name) =>
      if name !in s.registry then Refuse(s, d)
      else s.(pc := Forwarding(d.(task := d.task.(scheduledQpu := name), selected := true),
                               s.registry[name].backend.queueName))
  }

  ghost function Next(cfg: SelectorConfig, s: State, e: Event): State
    requires Enabled(s, e)
  {
    match e
    case Stop => s.(stop := true)
    case Guard => if s.stop then s.(pc := Halted) else s.(pc := StatusCheck, turns := s.turns + 1)
    case Check =>
      if s.pc.StatusCheck? then s.(pc := if s.stop then Sweeping else StatusPoll)
      else s.(pc := if s.stop then Top else TaskPoll)
    case Missed => s.(pc := if s.pc.StatusPoll? then Sweeping else Top)
    case TookStatus(m, at) => Absorb(s.(pc := StatusCheck, clock := at), m, at)
    case Sweep(at) => s.(pc := TaskCheck, clock := at, registry := ExpireEntries(s.registry, cfg.ttl, at))
    case TookTask(d) => Route(cfg, s, d)
    case Forwarded(ok) => s.(pc := TaskCheck, lost := if ok then s.lost else s.lost + [s.pc.d])
    case Sent(ok) =>
      s.(pc := TaskCheck,
         replies := s.replies + [Reply(s.pc.d, s.pc.d.task.resultDestination, s.pc.result, ok)])
  }

  predicate Init(s: State) {
    s == State(Top, s.stop, s.clock, map[], [], [], 0, 0)
  }

  ghost predicate Run(cfg: SelectorConfig, s: State, es: seq<Event>)
    decreases |es|, 0
  {
    es == [] ||
    (Run(cfg, s, es[..|es| - 1]) && Enabled(Exec(cfg, s, es[..|es| - 1]), es[|es| - 1]))
  }

  ghost function Exec(cfg: SelectorConfig, s: State, es: seq<Event>): State
    requires Run(cfg, s, es)
    decreases |es|, 1
  {
    if es == [] then s else Next(cfg, Exec(cfg, s, es[..|es| - 1]), es[|es| - 1])
  }

  lemma RunOneMore(cfg: SelectorConfig, s: State, es: seq<Event>, e: Event)
    requires Run(cfg, s, es) && Enabled(Exec(cfg, s, es), e)
    ensures Run(cfg, s, es + [e]) && Exec(cfg, s, es + [e]) == Next(cfg, Exec(cfg, s, es), e)
  {
    hide Next, Enabled;
    assert (es + [e])[..|es|] == es;
  }

  lemma RouteLeavesTheRest(cfg: SelectorConfig, s: State, d: Delivery)
    ensures Route(cfg, s, d) == s.(pc := Route(cfg, s, d).pc)
  {
    hide Choose;
  }

  // ---- Conservation -------------------------------------------------------------

  function InHand(pc: Pc): seq<Delivery> {
    match pc
    case Forwarding(d, _) => [d]
    case Replying(d, _) => [d]
    case _ => []
  }

  /** How often delivery `k` is in the selector's hand, answered or lost by it. */
  ghost function Tokens(s: State, k: Key): nat {
    Occurs(InHand(s.pc), k) + Occurs(Answered(s.replies), k) + Occurs(s.lost, k)
  }

  ghost function TakenBy(e: Event, k: Key): nat {
    if e.TookTask? && KeyOf(e.delivery) == k then 1 else 0
  }

  /** What a step hands back to the broker. */
  ghost function PassedOn(s: State, e: Event, k: Key): nat
    requires Enabled(s, e)
  {
    if e == Forwarded(true) && KeyOf(s.pc.d) == k then 1 else 0
  }

  lemma StepConserves(cfg: SelectorConfig, s: State, e: Event, k: Key)
    requires Enabled(s, e)
    ensures Tokens(Next(cfg, s, e), k) + PassedOn(s, e, k) == Tokens(s, k) + TakenBy(e, k)
  {
    hide Occurs, Choose, FromPublishedStatus, InsertEntry, ExpireEntries, Rejects;
    Nowhere(k);
    match e
    case TookTask(d) =>
      OccursPush([], d, k);
      OccursPush([], Next(cfg, s, e).pc.d, k);
    case Forwarded(ok) => OccursPush(s.lost, s.pc.d, k);
    case Sent(ok) =>
      assert Answered(Next(cfg, s, e).replies) == Answered(s.replies) + [s.pc.d];
      OccursPush(Answered(s.replies), s.pc.d, k);
    case _ =>
  }

  // ---- The inductive invariant ------------------------------------------------------

  /** Keys are names, and both name and dispatch queue are routable. */
  ghost predicate Routable(registry: Entries) {
    forall n :: n in registry ==>
      registry[n].backend.name == n && n != "" && registry[n].backend.queueName != ""
  }

  predicate PcOk(s: State) {
    match s.pc
    case Forwarding(d, queue) =>
      && Intact(d) && d.selected && d.task.scheduledQpu in s.registry
      && queue == s.registry[d.task.scheduledQpu].backend.queueName
    case Replying(d, r) => Intact(d) && r == CancelQuantumTask(d.task, Error(NoBackendAvailable, None))
    case _ => true
  }

  ghost predicate Inv(s: State) {
    && Routable(s.registry)
    && PcOk(s)
    && (forall r :: r in s.replies ==> Correlated(r) && !r.result.executionStatus)
  }

  predicate SoundEvent(e: Event) {
    e.TookTask? ==> Intact(e.delivery)
  }

  lemma StepKeepsInv(cfg: SelectorConfig, s: State, e: Event)
    requires Inv(s) && Enabled(s, e) && SoundEvent(e)
    ensures Inv(Next(cfg, s, e))
  {
    hide Choose;
    if e.TookTask? {
      ChooseIsOptimal(s.registry, e.delivery.task, cfg.policy, cfg.inputs);
    }
  }

  /** The "no longer registered" branch is dead: the chosen name is always found. A task is
      refused only if no registered backend is eligible; otherwise it goes, assigned to the
      chosen backend and with nothing else changed, to that backend's queue, and the backend
      is idle or busy and large enough. */
  lemma ChosenBackendIsRegistered(cfg: SelectorConfig, s: State, d: Delivery)
    requires Inv(s) && s.pc.TaskPoll?
    ensures var s' := Next(cfg, s, TookTask(d));
            && s' == s.(pc := s'.pc)
            && if s'.pc.Replying? then
                 && s'.pc.d == d && s'.pc.result.failure == Some(Error(NoBackendAvailable, None))
                 && forall n :: n in s.registry ==> !Eligible(s.registry[n].backend, d.task, cfg.inputs)
               else
                 && s'.pc.Forwarding?
                 && var n := s'.pc.d.task.scheduledQpu;
                    && Choose(s.registry, d.task, cfg.policy, cfg.inputs) == Some(n) && n in s.registry
                    && s'.pc.d == d.(task := d.task.(scheduledQpu := n), selected := true)
                    && s'.pc.queue == s.registry[n].backend.queueName
                    && (s.registry[n].backend.status == Idle || s.registry[n].backend.status == Busy)
                    && 0 <= d.task.nQbits <= s.registry[n].backend.numQubits
                    && Eligible(s.registry[n].backend, d.task, cfg.inputs)
  {
    hide Choose;
    ChooseIsOptimal(s.registry, d.task, cfg.policy, cfg.inputs);
    assert forall n :: n in s.registry && Eligible(s.registry[n].backend, d.task, cfg.inputs) ==>
        Candidate(s.registry, d.task, cfg.inputs, n);
  }

  // ---- Queue stickiness -------------------------------------------------------------

  /** While an entry lives its dispatch queue does not change: only a published status
      with a non-empty queue is ever inserted, and a different one is rejected. */
  lemma StepKeepsQueue(cfg: SelectorConfig, s: State, e: Event, n: string)
    requires Inv(s) && Enabled(s, e) && n in s.registry && n in Next(cfg, s, e).registry
    ensures Next(cfg, s, e).registry[n].backend.queueName == s.registry[n].backend.queueName
  {
    hide Choose;
  }

  /** `n` is registered at every moment of the run. */
  ghost predicate Throughout(cfg: SelectorConfig, s: State, es: seq<Event>, n: string)
    requires Run(cfg, s, es)
  {
    n in Exec(cfg, s, es).registry && (es != [] ==> Throughout(cfg, s, es[..|es| - 1], n))
  }

  ghost predicate SoundEvents(es: seq<Event>) {
    forall e :: e in es ==> SoundEvent(e)
  }

  lemma {:induction false} RunKeepsInv(cfg: SelectorConfig, s: State, es: seq<Event>)
    requires Inv(s) && Run(cfg, s, es) && SoundEvents(es)
    ensures Inv(Exec(cfg, s, es))
  {
    hide Next, Enabled, Inv;
    if es != [] {
      var n := |es| - 1;
      RunKeepsInv(cfg, s, es[..n]);
      StepKeepsInv(cfg, Exec(cfg, s, es[..n]), es[n]);
    }
  }

  /** From the moment a backend is accepted until it expires, every task forwarded to it
      goes to the queue it was accepted with. */
  lemma {:induction false} ForwardsToFirstQueue(cfg: SelectorConfig, s: State, es: seq<Event>, n: string)
    requires Inv(s) && Run(cfg, s, es) && SoundEvents(es) && Throughout(cfg, s, es, n)
    ensures var s' := Exec(cfg, s, es);
            && n in s.registry
            && s'.registry[n].backend.queueName == s.registry[n].backend.queueName != ""
            && (s'.pc.Forwarding? && s'.pc.d.task.scheduledQpu == n ==>
                  s'.pc.queue == s.registry[n].backend.queueName)
  {
    hide Next, Enabled;
    if es != [] {
      var i := |es| - 1;
      ForwardsToFirstQueue(cfg, s, es[..i], n);
      RunKeepsInv(cfg, s, es[..i]);
      RunKeepsInv(cfg, s, es);
      StepKeepsQueue(cfg, Exec(cfg, s, es[..i]), es[i], n);
    }
  }

  /** At class level the queue is not sticky: an empty-queue refresh is accepted, and the
      next one may name any queue, also the old one again. The selector never inserts such
      a snapshot; Registry.QueueSticksExactlyWithoutSwitch says when the class does hold on
      to a queue. */
  lemma EmptyQueueRefreshForgetsTheQueue(b: Snapshot, q: string, q': string, t: int)
    requires q != "" && q' != "" && q != q'
    ensures var e0 := InsertEntry(map[], b.(queueName := q), t);
            var e1 := InsertEntry(e0, b.(queueName := ""), t);
            && Rejects(e0, b.(queueName := q'))
            && InsertEntry(e1, b.(queueName := q'), t)[b.name].backend.queueName == q'
            && InsertEntry(e1, b.(queueName := q), t)[b.name].backend.queueName == q
  {
  }

  // ---- Shutdown -----------------------------------------------------------------------

  /** How many events the selector has left at most once the flag is set. */
  function Rank(pc: Pc): nat {
    match pc
    case Halted => 0
    case Top => 1
    case TaskCheck => 2
    case Forwarding(_, _) => 3
    case Replying(_, _) => 3
    case TaskPoll => 4
    case Sweeping => 3
    case StatusCheck => 4
    case StatusPoll => 5
  }

  /** Once the flag is set every step brings the selector closer to its end, which is at most
      five steps away: of a message being polled it still handles that one and no other. */
  lemma StepDescends(cfg: SelectorConfig, s: State, e: Event)
    requires Enabled(s, e) && s.stop && !e.Stop?
    ensures Rank(Next(cfg, s, e).pc) < Rank(s.pc) <= 5 && Next(cfg, s, e).stop
  {
    hide Choose, FromPublishedStatus, InsertEntry, ExpireEntries, Rejects;
  }

  ghost function Steps(es: seq<Event>): nat {
    if es == [] then 0 else Steps(es[..|es| - 1]) + if es[|es| - 1].Stop? then 0 else 1
  }

  lemma {:induction false} ShutdownIsBounded(cfg: SelectorConfig, s: State, es: seq<Event>)
    requires Run(cfg, s, es) && s.stop
    ensures Steps(es) + Rank(Exec(cfg, s, es).pc) <= Rank(s.pc) <= 5 && Exec(cfg, s, es).stop
  {
    hide Next, Enabled, Rank;
    if es == [] {
      RankIsSmall(s.pc);
    } else {
      var n := |es| - 1;
      ShutdownIsBounded(cfg, s, es[..n]);
      if es[n].Stop? {
        SignalsChangeNothing(cfg, Exec(cfg, s, es[..n]));
      } else {
        StepDescends(cfg, Exec(cfg, s, es[..n]), es[n]);
      }
    }
  }

  lemma RankIsSmall(pc: Pc)
    ensures Rank(pc) <= 5
  {
  }

  lemma SignalsChangeNothing(cfg: SelectorConfig, s: State)
    requires s.stop
    ensures Enabled(s, Stop) && Next(cfg, s, Stop) == s
  {
  }
}
