/** One selector and any number of device-owning daemons around one broker. Queues are
    FIFO, sends may fail, outsiders may put tasks on any queue at any time, and daemons may
    share a queue. */
module Cluster {
  import opened Protocol
  import S = SelectorMachine
  import D = DaemonMachine
  import P = DaemonProofs
  import R = DaemonRuns

  datatype Setup = Setup(selector: S.SelectorConfig, daemons: seq<D.DaemonConfig>)

  datatype Envelope = Envelope(queue: string, d: Delivery)

  /** `broker` holds all task queues in sending order; `arrivals[i]` is the task whose
      delivery has id `i`. */
  datatype Cluster = Cluster(
    arrivals: seq<QuantumTask>,
    broker: seq<Envelope>,
    statuses: seq<BackendMessage>,
    selector: S.State,
    daemons: seq<D.State>)

  datatype Event =
    | Arrives(queue: string, task: QuantumTask)
    | SelectorDoes(s: S.Event)
    | DaemonDoes(i: nat, d: D.Event)

  /** Position of the oldest message for `queue`, or the number of messages if none. */
  function Oldest(broker: seq<Envelope>, queue: string): (i: nat)
    ensures i <= |broker| && (i < |broker| ==> broker[i].queue == queue)
  {
    if broker == [] then 0
    else if broker[0].queue == queue then 0
    else 1 + Oldest(broker[1..], queue)
  }

  predicate Heads(broker: seq<Envelope>, queue: string, d: Delivery) {
    var i := Oldest(broker, queue);
    i < |broker| && broker[i].d == d
  }

  function Without(broker: seq<Envelope>, queue: string): seq<Envelope> {
    var i := Oldest(broker, queue);
    if i < |broker| then broker[..i] + broker[i + 1..] else broker
  }

  ghost predicate Enabled(u: Setup, c: Cluster, e: Event) {
    match e
    case Arrives(_, _) => true
    case SelectorDoes(s) =>
      && S.Enabled(c.selector, s)
      && (s.TookStatus? ==> c.statuses != [] && c.statuses[0] == s.status)
      && (s.TookTask? ==> Heads(c.broker, u.selector.intake, s.delivery))
    case DaemonDoes(i, d) =>
      && i < |c.daemons| == |u.daemons|
      && D.Enabled(u.daemons[i], c.daemons[i], d)
      && (d.Took? ==> Heads(c.broker, u.daemons[i].intake, d.delivery))
  }

  ghost function Next(u: Setup, c: Cluster, e: Event): Cluster
    requires Enabled(u, c, e)
  {
    match e
    case Arrives(queue, task) =>
      c.(arrivals := c.arrivals + [task],
         broker := c.broker + [Envelope(queue, Delivery(|c.arrivals|, task, task, false))])
    case SelectorDoes(s) =>
      c.(selector := S.Next(u.selector, c.selector, s),
         statuses := if s.TookStatus? then c.statuses[1..] else c.statuses,
         broker := if s.TookTask? then Without(c.broker, u.selector.intake)
                   else if s == S.Forwarded(true) then c.broker + [Envelope(c.selector.pc.queue, c.selector.pc.d)]
                   else c.broker)
    case DaemonDoes(i, d) =>
      c.(daemons := c.daemons[i := D.Next(u.daemons[i], c.daemons[i], d)],
         statuses := if d.Publish? && d.ok then c.statuses + [c.daemons[i].pc.status] else c.statuses,
         broker := if d.Took? then Without(c.broker, u.daemons[i].intake) else c.broker)
  }

  ghost predicate Init(u: Setup, c: Cluster) {
    && c.arrivals == [] && c.broker == [] && c.statuses == []
    && S.Init(c.selector)
    && |c.daemons| == |u.daemons|
    && forall i :: 0 <= i < |c.daemons| ==> D.Init(u.daemons[i], c.daemons[i])
  }

  ghost predicate Run(u: Setup, c: Cluster, es: seq<Event>)
    decreases |es|, 0
  {
    es == [] ||
    (Run(u, c, es[..|es| - 1]) && Enabled(u, Exec(u, c, es[..|es| - 1]), es[|es| - 1]))
  }

  ghost function Exec(u: Setup, c: Cluster, es: seq<Event>): Cluster
    requires Run(u, c, es)
    decreases |es|, 1
  {
    if es == [] then c else Next(u, Exec(u, c, es[..|es| - 1]), es[|es| - 1])
  }

  // ---- Conservation -------------------------------------------------------------

  function Mail(broker: seq<Envelope>): seq<Delivery> {
    seq(|broker|, i requires 0 <= i < |broker| => broker[i].d)
  }

  ghost function Sum(daemons: seq<D.State>, k: Key): nat {
    if daemons == [] then 0
    else Sum(daemons[..|daemons| - 1], k) + P.Tokens(daemons[|daemons| - 1], k)
  }

  lemma {:induction false} SumUpdate(daemons: seq<D.State>, i: nat, s: D.State, k: Key)
    requires i < |daemons|
    ensures Sum(daemons[i := s], k) + P.Tokens(daemons[i], k) == Sum(daemons, k) + P.Tokens(s, k)
  {
    hide P.Tokens;
    var n := |daemons| - 1;
    if i == n {
      assert daemons[i := s][..n] == daemons[..n];
    } else {
      assert daemons[i := s][..n] == daemons[..n][i := s];
      SumUpdate(daemons[..n], i, s, k);
    }
  }

  /** How often delivery `k` exists anywhere: on a queue, or with the selector (in hand,
      answered, lost) or a daemon (scheduled, in flight, in hand, answered, abandoned). */
  ghost function Census(c: Cluster, k: Key): nat {
    Occurs(Mail(c.broker), k) + S.Tokens(c.selector, k) + Sum(c.daemons, k)
  }

  lemma MailWithout(broker: seq<Envelope>, queue: string, d: Delivery, k: Key)
    requires Heads(broker, queue, d)
    ensures Occurs(Mail(broker), k) == Occurs(Mail(Without(broker, queue)), k) + if KeyOf(d) == k then 1 else 0
  {
    hide Occurs;
    var i := Oldest(broker, queue);
    OccursRemove(Mail(broker), i, k);
    OccursPush([], d, k);
    assert Mail(Without(broker, queue)) == Mail(broker)[..i] + Mail(broker)[i + 1..];
  }

  lemma MailPush(broker: seq<Envelope>, x: Envelope, k: Key)
    ensures Occurs(Mail(broker + [x]), k) == Occurs(Mail(broker), k) + if KeyOf(x.d) == k then 1 else 0
  {
    hide Occurs;
    assert Mail(broker + [x]) == Mail(broker) + [x.d];
    OccursPush(Mail(broker), x.d, k);
  }

  /** Every step conserves every delivery; an arrival creates exactly one. */
  lemma StepConserves(u: Setup, c: Cluster, e: Event, k: Key)
    requires Enabled(u, c, e)
    ensures Census(Next(u, c, e), k) == Census(c, k) +
              if e.Arrives? && k == Key(|c.arrivals|, e.task) then 1 else 0
  {
    hide Occurs, S.Tokens, S.Next, Sum, D.Next, D.Enabled, P.Tokens, Heads, Without, Mail;
    match e
    case Arrives(queue, task) => MailPush(c.broker, Envelope(queue, Delivery(|c.arrivals|, task, task, false)), k);
    case SelectorDoes(s) =>
      S.StepConserves(u.selector, c.selector, s, k);
      if s.TookTask? {
        MailWithout(c.broker, u.selector.intake, s.delivery, k);
      } else if s == S.Forwarded(true) {
        MailPush(c.broker, Envelope(c.selector.pc.queue, c.selector.pc.d), k);
      }
    case DaemonDoes(i, d) =>
      P.StepConserves(u.daemons[i], c.daemons[i], d, k);
      SumUpdate(c.daemons, i, D.Next(u.daemons[i], c.daemons[i], d), k);
      if d.Took? {
        MailWithout(c.broker, u.daemons[i].intake, d.delivery, k);
      }
  }

  lemma {:induction false} NothingYet(u: Setup, daemons: seq<D.State>, k: Key)
    requires |daemons| <= |u.daemons|
    requires forall i :: 0 <= i < |daemons| ==> D.Init(u.daemons[i], daemons[i])
    ensures Sum(daemons, k) == 0
  {
    hide P.Tokens, D.Init;
    if daemons != [] {
      var n := |daemons| - 1;
      NothingYet(u, daemons[..n], k);
      P.InitInv(u.daemons[n], daemons[n]);
    }
  }

  /** Conservation: in every reachable state each delivery that ever arrived is, under
      its own origin, in exactly one place, and nothing else exists. */
  lemma {:induction false} EveryDeliveryIsInOnePlace(u: Setup, c: Cluster, es: seq<Event>, k: Key)
    requires Init(u, c) && Run(u, c, es)
    ensures var c' := Exec(u, c, es);
            Census(c', k) == if k.id < |c'.arrivals| && c'.arrivals[k.id] == k.origin then 1 else 0
  {
    hide Next, Enabled, Census, Init;
    if es == [] {
      StartsEmpty(u, c, k);
    } else {
      var n := |es| - 1;
      var m := Exec(u, c, es[..n]);
      EveryDeliveryIsInOnePlace(u, c, es[..n], k);
      StepConserves(u, m, es[n], k);
      ArrivalsGrow(u, m, es[n]);
    }
  }

  lemma StartsEmpty(u: Setup, c: Cluster, k: Key)
    requires Init(u, c)
    ensures Census(c, k) == 0 && c.arrivals == []
  {
    NothingYet(u, c.daemons, k);
    assert Mail([]) == [];
  }

  lemma ArrivalsGrow(u: Setup, c: Cluster, e: Event)
    requires Enabled(u, c, e)
    ensures Next(u, c, e).arrivals == c.arrivals + if e.Arrives? then [e.task] else []
  {
    hide S.Next, D.Next, D.Enabled, Heads, Without;
  }

  // ---- Order ------------------------------------------------------------------------

  /** The deliveries waiting on `queue`, oldest first. */
  function Queued(broker: seq<Envelope>, queue: string): seq<Delivery> {
    if broker == [] then []
    else (if broker[0].queue == queue then [broker[0].d] else []) + Queued(broker[1..], queue)
  }

  /** What a step puts on `queue`. */
  ghost function Puts(u: Setup, c: Cluster, e: Event, queue: string): seq<Delivery>
    requires Enabled(u, c, e)
  {
    match e
    case Arrives(q, task) => if q == queue then [Delivery(|c.arrivals|, task, task, false)] else []
    case SelectorDoes(s) => if s == S.Forwarded(true) && c.selector.pc.queue == queue then [c.selector.pc.d] else []
    case DaemonDoes(_, _) => []
  }

  /** What a step takes off `queue`. */
  ghost function Takes(u: Setup, c: Cluster, e: Event, queue: string): seq<Delivery>
    requires Enabled(u, c, e)
  {
    match e
    case Arrives(_, _) => []
    case SelectorDoes(s) => if s.TookTask? && u.selector.intake == queue then [s.delivery] else []
    case DaemonDoes(i, d) => if d.Took? && u.daemons[i].intake == queue then [d.delivery] else []
  }

  ghost function AllPut(u: Setup, c: Cluster, es: seq<Event>, queue: string): seq<Delivery>
    requires Run(u, c, es)
  {
    if es == [] then []
    else AllPut(u, c, es[..|es| - 1], queue) + Puts(u, Exec(u, c, es[..|es| - 1]), es[|es| - 1], queue)
  }

  ghost function AllTaken(u: Setup, c: Cluster, es: seq<Event>, queue: string): seq<Delivery>
    requires Run(u, c, es)
  {
    if es == [] then []
    else AllTaken(u, c, es[..|es| - 1], queue) + Takes(u, Exec(u, c, es[..|es| - 1]), es[|es| - 1], queue)
  }

  /** Whoever shares a queue, its consumers together are handed exactly a prefix of what was
      put on it, in order, once each; the rest is what still waits. */
  lemma {:induction false} QueuesAreDrainedInOrder(u: Setup, c: Cluster, es: seq<Event>, queue: string)
    requires Init(u, c) && Run(u, c, es)
    ensures AllPut(u, c, es, queue) == AllTaken(u, c, es, queue) + Queued(Exec(u, c, es).broker, queue)
  {
    hide Next, Enabled, Puts, Takes, Queued;
    if es == [] {
      NothingQueued(u, c, queue);
    } else {
      var n := |es| - 1;
      var m := Exec(u, c, es[..n]);
      QueuesAreDrainedInOrder(u, c, es[..n], queue);
      StepKeepsOrder(u, m, es[n], queue);
      var taken, waiting := AllTaken(u, c, es[..n], queue), Queued(m.broker, queue);
      assert taken + waiting + Puts(u, m, es[n], queue) == taken + (waiting + Puts(u, m, es[n], queue));
    }
  }

  lemma NothingQueued(u: Setup, c: Cluster, queue: string)
    requires Init(u, c)
    ensures Queued(c.broker, queue) == []
  {
  }

  lemma StepKeepsOrder(u: Setup, c: Cluster, e: Event, queue: string)
    requires Enabled(u, c, e)
    ensures Queued(c.broker, queue) + Puts(u, c, e, queue) == Takes(u, c, e, queue) + Queued(Next(u, c, e).broker, queue)
  {
    hide S.Next, D.Next, D.Enabled, Heads, Without, Queued;
    match e
    case Arrives(q, task) => QueuedPush(c.broker, Envelope(q, Delivery(|c.arrivals|, task, task, false)), queue);
    case SelectorDoes(s) =>
      if s.TookTask? {
        QueuedWithout(c.broker, u.selector.intake, s.delivery, queue);
      } else if s == S.Forwarded(true) {
        QueuedPush(c.broker, Envelope(c.selector.pc.queue, c.selector.pc.d), queue);
      }
    case DaemonDoes(i, d) =>
      if d.Took? {
        QueuedWithout(c.broker, u.daemons[i].intake, d.delivery, queue);
      }
  }

  lemma {:induction false} QueuedPush(broker: seq<Envelope>, x: Envelope, queue: string)
    ensures Queued(broker + [x], queue) == Queued(broker, queue) + if x.queue == queue then [x.d] else []
  {
    if broker == [] {
      assert broker + [x] == [x];
    } else {
      assert (broker + [x])[1..] == broker[1..] + [x];
      QueuedPush(broker[1..], x, queue);
    }
  }

  lemma {:induction false} QueuedWithout(broker: seq<Envelope>, taken: string, d: Delivery, queue: string)
    requires Heads(broker, taken, d)
    ensures Queued(broker, queue) == (if taken == queue then [d] else []) + Queued(Without(broker, taken), queue)
  {
    hide Oldest, Without, Queued;
    QueuedHead(broker, queue);
    if broker[0].queue == taken {
      HeadIsTaken(broker, taken, d);
    } else {
      HeadStays(broker, taken, d);
      QueuedWithout(broker[1..], taken, d, queue);
      var rest := Without(broker[1..], taken);
      QueuedHead([broker[0]] + rest, queue);
      assert ([broker[0]] + rest)[1..] == rest;
    }
  }

  lemma QueuedHead(broker: seq<Envelope>, queue: string)
    requires broker != []
    ensures Queued(broker, queue) == (if broker[0].queue == queue then [broker[0].d] else []) + Queued(broker[1..], queue)
  {
  }

  lemma HeadIsTaken(broker: seq<Envelope>, taken: string, d: Delivery)
    requires broker != [] && Heads(broker, taken, d) && broker[0].queue == taken
    ensures broker[0].d == d && Without(broker, taken) == broker[1..]
  {
  }

  lemma HeadStays(broker: seq<Envelope>, taken: string, d: Delivery)
    requires broker != [] && Heads(broker, taken, d) && broker[0].queue != taken
    ensures |broker| > 1 && Heads(broker[1..], taken, d) && Without(broker, taken) == [broker[0]] + Without(broker[1..], taken)
  {
    RemoveBehindHead(broker, Oldest(broker[1..], taken));
  }

  lemma RemoveBehindHead(broker: seq<Envelope>, i: nat)
    requires i + 1 < |broker|
    ensures broker[..i + 1] + broker[i + 2..] == [broker[0]] + (broker[1..][..i] + broker[1..][i + 1..])
  {
  }

  // ---- Single reply -----------------------------------------------------------------

  /** All reply attempts, the selector's first, then daemon by daemon. */
  function DaemonReplies(daemons: seq<D.State>): seq<Reply> {
    if daemons == [] then []
    else DaemonReplies(daemons[..|daemons| - 1]) + daemons[|daemons| - 1].replies
  }

  function AllReplies(c: Cluster): seq<Reply> {
    c.selector.replies + DaemonReplies(c.daemons)
  }

  lemma {:induction false} RepliesAreTokens(daemons: seq<D.State>, k: Key)
    ensures Occurs(Answered(DaemonReplies(daemons)), k) <= Sum(daemons, k)
  {
    hide Occurs;
    if daemons == [] {
      Nowhere(k);
      assert Answered([]) == [];
    } else {
      var n := |daemons| - 1;
      RepliesAreTokens(daemons[..n], k);
      AnsweredAppend(DaemonReplies(daemons[..n]), daemons[n].replies, k);
    }
  }

  lemma AnsweredAppend(a: seq<Reply>, b: seq<Reply>, k: Key)
    ensures Occurs(Answered(a + b), k) == Occurs(Answered(a), k) + Occurs(Answered(b), k)
  {
    hide Occurs;
    assert Answered(a + b) == Answered(a) + Answered(b);
    OccursAppend(Answered(a), Answered(b), k);
  }

  /** Every reply of every run answers a delivery that arrived, with the task it arrived
      with. */
  lemma AnsweredDeliveryArrived(u: Setup, c: Cluster, es: seq<Event>, r: Reply)
    requires Init(u, c) && Run(u, c, es) && r in AllReplies(Exec(u, c, es))
    ensures var c' := Exec(u, c, es);
            r.delivery.id < |c'.arrivals| && r.delivery.origin == c'.arrivals[r.delivery.id]
  {
    hide Next, Enabled, Init, Census, AllReplies, Occurs;
    var replies := AllReplies(Exec(u, c, es));
    var i :| 0 <= i < |replies| && replies[i] == r;
    assert Answered(replies)[i] == r.delivery;
    AnsweredOnce(u, c, es, KeyOf(r.delivery));
    OccursMember(Answered(replies), r.delivery);
  }

  /** In every run no two replies, by whichever processes, answer the same delivery. */
  lemma SingleReply(u: Setup, c: Cluster, es: seq<Event>, i: nat, j: nat)
    requires Init(u, c) && Run(u, c, es)
    requires i < j < |AllReplies(Exec(u, c, es))|
    ensures AllReplies(Exec(u, c, es))[i].delivery.id != AllReplies(Exec(u, c, es))[j].delivery.id
  {
    hide Next, Enabled, Init, Census, AllReplies, Occurs;
    var replies := AllReplies(Exec(u, c, es));
    var ds := Answered(replies);
    AnsweredDeliveryArrived(u, c, es, replies[i]);
    AnsweredDeliveryArrived(u, c, es, replies[j]);
    AnsweredOnce(u, c, es, KeyOf(ds[i]));
    if KeyOf(ds[i]) == KeyOf(ds[j]) {
      OccursTwice(ds, i, j);
    }
  }

  lemma AnsweredOnce(u: Setup, c: Cluster, es: seq<Event>, k: Key)
    requires Init(u, c) && Run(u, c, es)
    ensures var c' := Exec(u, c, es);
            Occurs(Answered(AllReplies(c')), k) <=
              if k.id < |c'.arrivals| && c'.arrivals[k.id] == k.origin then 1 else 0
  {
    hide Next, Enabled, Init, Occurs;
    var c' := Exec(u, c, es);
    EveryDeliveryIsInOnePlace(u, c, es, k);
    AnsweredAppend(c'.selector.replies, DaemonReplies(c'.daemons), k);
    RepliesAreTokens(c'.daemons, k);
  }

  // ---- Who answers ------------------------------------------------------------------

  ghost predicate AllSound(broker: seq<Envelope>) {
    forall x :: x in broker ==> Intact(x.d)
  }

  ghost predicate DaemonsOk(u: Setup, daemons: seq<D.State>) {
    |daemons| == |u.daemons| && forall i :: 0 <= i < |daemons| ==> P.Inv(u.daemons[i], daemons[i])
  }

  ghost predicate Inv(u: Setup, c: Cluster) {
    AllSound(c.broker) && S.Inv(c.selector) && DaemonsOk(u, c.daemons)
  }

  lemma StepKeepsInv(u: Setup, c: Cluster, e: Event)
    requires Inv(u, c) && Enabled(u, c, e)
    ensures Inv(u, Next(u, c, e))
  {
    hide S.Next, D.Next, D.Enabled, P.Inv;
    match e
    case Arrives(_, _) =>
    case SelectorDoes(s) =>
      S.StepKeepsInv(u.selector, c.selector, s);
    case DaemonDoes(i, d) =>
      P.StepKeepsInv(u.daemons[i], c.daemons[i], d);
  }

  lemma {:induction false} RunKeepsInv(u: Setup, c: Cluster, es: seq<Event>)
    requires Init(u, c) && Run(u, c, es)
    ensures Inv(u, Exec(u, c, es))
  {
    hide Next, Enabled, P.Inv, D.Init;
    if es == [] {
      forall i | 0 <= i < |c.daemons| ensures P.Inv(u.daemons[i], c.daemons[i]) {
        P.InitInv(u.daemons[i], c.daemons[i]);
      }
    } else {
      var n := |es| - 1;
      RunKeepsInv(u, c, es[..n]);
      StepKeepsInv(u, Exec(u, c, es[..n]), es[n]);
    }
  }

  /** In every run, whatever queues daemons share: a daemon's reply belongs to its task,
      and a success was executed on that daemon's own device and, if a selection stage
      assigned it, respects the allow-list. */
  lemma NoWrongWorkerExecution(u: Setup, c: Cluster, es: seq<Event>, i: nat, r: Reply)
    requires Init(u, c) && Run(u, c, es) && i < |Exec(u, c, es).daemons|
    requires r in Exec(u, c, es).daemons[i].replies
    ensures i < |u.daemons| && Correlated(r)
    ensures r.result.executionStatus ==> r.result.executedQpu == u.daemons[i].id
  {
    hide Next, Enabled, Init;
    RunKeepsInv(u, c, es);
    assert P.ReplyOk(u.daemons[i], r);
  }

  /** In every run the selector's replies are refusals, each to its own submitter. */
  lemma SelectorOnlyRefuses(u: Setup, c: Cluster, es: seq<Event>, r: Reply)
    requires Init(u, c) && Run(u, c, es) && r in Exec(u, c, es).selector.replies
    ensures Correlated(r) && !r.result.executionStatus
  {
    hide Next, Enabled, Init;
    RunKeepsInv(u, c, es);
  }

  // ---- Daemons within a cluster -----------------------------------------------------

  /** What daemon `i` does in a cluster run. */
  function Local(es: seq<Event>, i: nat): seq<D.Event> {
    if es == [] then []
    else
      var e := es[|es| - 1];
      Local(es[..|es| - 1], i) + if e.DaemonDoes? && e.i == i then [e.d] else []
  }

  /** A daemon's part of a cluster run is a run of that daemon on sound deliveries, ending
      where the cluster left it, so what is proved of daemon runs holds in clusters. */
  lemma {:induction false} Projects(u: Setup, c: Cluster, es: seq<Event>, i: nat)
    requires Init(u, c) && Run(u, c, es) && i < |u.daemons|
    ensures |c.daemons| == |Exec(u, c, es).daemons| == |u.daemons| && D.Init(u.daemons[i], c.daemons[i])
    ensures D.Run(u.daemons[i], c.daemons[i], Local(es, i)) && P.SoundEvents(Local(es, i))
    ensures D.Exec(u.daemons[i], c.daemons[i], Local(es, i)) == Exec(u, c, es).daemons[i]
  {
    hide Inv, D.Next, D.Enabled, D.Init;
    if es != [] {
      var n := |es| - 1;
      var m := Exec(u, c, es[..n]);
      Projects(u, c, es[..n], i);
      if es[n].DaemonDoes? && es[n].i == i {
        RunKeepsInv(u, c, es[..n]);
        TakenIsSound(u, m, i, es[n].d);
        R.RunOneMore(u.daemons[i], c.daemons[i], Local(es[..n], i), es[n].d);
      } else {
        assert Local(es, i) == Local(es[..n], i);
      }
    }
  }

  lemma TakenIsSound(u: Setup, c: Cluster, i: nat, d: D.Event)
    requires Inv(u, c) && Enabled(u, c, DaemonDoes(i, d))
    ensures P.SoundEvent(d)
  {
    hide D.Enabled;
    if d.Took? {
      assert c.broker[Oldest(c.broker, u.daemons[i].intake)] in c.broker;
    }
  }

  /** What the selector does in a cluster run. */
  function SelectorPart(es: seq<Event>): seq<S.Event> {
    if es == [] then []
    else
      var e := es[|es| - 1];
      SelectorPart(es[..|es| - 1]) + if e.SelectorDoes? then [e.s] else []
  }

  /** The selector's part of a cluster run is a run of the selector on sound deliveries,
      ending where the cluster left it. */
  lemma {:induction false} ProjectsSelector(u: Setup, c: Cluster, es: seq<Event>)
    requires Init(u, c) && Run(u, c, es)
    ensures S.Init(c.selector) && S.Run(u.selector, c.selector, SelectorPart(es)) && S.SoundEvents(SelectorPart(es))
    ensures S.Exec(u.selector, c.selector, SelectorPart(es)) == Exec(u, c, es).selector
  {
    hide Inv, S.Next, S.Enabled, D.Next, D.Enabled;
    if es != [] {
      var n := |es| - 1;
      ProjectsSelector(u, c, es[..n]);
      if es[n].SelectorDoes? {
        RunKeepsInv(u, c, es[..n]);
        RoutedIsSound(u, Exec(u, c, es[..n]), es[n].s);
        S.RunOneMore(u.selector, c.selector, SelectorPart(es[..n]), es[n].s);
      } else {
        assert SelectorPart(es) == SelectorPart(es[..n]);
      }
    }
  }

  lemma RoutedIsSound(u: Setup, c: Cluster, s: S.Event)
    requires Inv(u, c) && Enabled(u, c, SelectorDoes(s))
    ensures S.SoundEvent(s)
  {
    if s.TookTask? {
      assert c.broker[Oldest(c.broker, u.selector.intake)] in c.broker;
    }
  }

  /** From event `from` on, `name` was registered with the selector all the time. */
  ghost predicate RegisteredSince(u: Setup, c: Cluster, es: seq<Event>, from: nat, name: string)
    requires Run(u, c, es)
  {
    name in Exec(u, c, es).selector.registry && (|es| > from ==> RegisteredSince(u, c, es[..|es| - 1], from, name))
  }

  /** Cut a cluster run anywhere: while a backend stays registered after the cut, it keeps
      its queue, and tasks are forwarded to it on that queue. */
  lemma {:induction false} ForwardsToFirstQueue(u: Setup, c: Cluster, a: seq<Event>, b: seq<Event>, name: string)
    requires Init(u, c) && Run(u, c, a + b) && RegisteredSince(u, c, a + b, |a|, name)
    ensures Run(u, c, a)
    ensures var m, m' := Exec(u, c, a).selector, Exec(u, c, a + b).selector;
            && name in m.registry
            && m'.registry[name].backend.queueName == m.registry[name].backend.queueName != ""
            && (m'.pc.Forwarding? && m'.pc.d.task.scheduledQpu == name ==>
                  m'.pc.queue == m.registry[name].backend.queueName)
    decreases |b|
  {
    hide Next, Enabled, Init;
    RunKeepsInv(u, c, a + b);
    if b == [] {
      assert a + b == a;
    } else {
      var n := |b| - 1;
      assert (a + b)[..|a| + n] == a + b[..n];
      ForwardsToFirstQueue(u, c, a, b[..n], name);
      RunKeepsInv(u, c, a + b[..n]);
      KeepsQueue(u, Exec(u, c, a + b[..n]), b[n], name);
    }
  }

  lemma KeepsQueue(u: Setup, c: Cluster, e: Event, name: string)
    requires Inv(u, c) && Enabled(u, c, e)
    requires name in c.selector.registry && name in Next(u, c, e).selector.registry
    ensures Next(u, c, e).selector.registry[name].backend.queueName == c.selector.registry[name].backend.queueName
  {
    hide S.Next, S.Enabled, D.Next, D.Enabled, Heads, Without;
    if e.SelectorDoes? {
      S.StepKeepsQueue(u.selector, c.selector, e.s, name);
    }
  }

  lemma {:induction false} LocalSplit(a: seq<Event>, b: seq<Event>, i: nat)
    ensures Local(a + b, i) == Local(a, i) + Local(b, i)
  {
    if b == [] {
      assert a + b == a;
    } else {
      var n := |b| - 1;
      assert (a + b)[..|a| + n] == a + b[..n];
      LocalSplit(a, b[..n], i);
    }
  }

  lemma {:induction false} RunPrefix(u: Setup, c: Cluster, a: seq<Event>, b: seq<Event>)
    requires Run(u, c, a + b)
    ensures Run(u, c, a)
    decreases |b|
  {
    hide Next, Enabled;
    if b == [] {
      assert a + b == a;
    } else {
      var n := |b| - 1;
      assert (a + b)[..|a| + n] == a + b[..n];
      RunPrefix(u, c, a, b[..n]);
    }
  }

  /** Cut a cluster run anywhere, whatever the other processes do: a daemon whose flag is
      set at the cut begins at most one more blocking call, and one that has reported a
      shutdown sends no further reply. */
  lemma ShutdownIsPromptAndQuiet(u: Setup, c: Cluster, a: seq<Event>, b: seq<Event>, i: nat)
    requires Init(u, c) && Run(u, c, a + b) && i < |u.daemons|
    ensures Run(u, c, a) && |Exec(u, c, a).daemons| == |Exec(u, c, a + b).daemons| == |u.daemons|
    ensures Exec(u, c, a).daemons[i].stop ==> R.BlockingCalls(Local(b, i)) <= 1
    ensures Exec(u, c, a).daemons[i].quiet ==> Exec(u, c, a + b).daemons[i].replies == Exec(u, c, a).daemons[i].replies
  {
    hide Next, Enabled, Init, D.Next, D.Enabled, D.Init, D.Run, D.Exec, R.BlockingCalls, P.SoundEvents;
    RunPrefix(u, c, a, b);
    Projects(u, c, a, i);
    Projects(u, c, a + b, i);
    LocalSplit(a, b, i);
    R.ShutdownIsPromptAndQuiet(u.daemons[i], c.daemons[i], Local(a, i), Local(b, i));
  }

  /** In a cluster too, a daemon that is timely keeps its own entry, and whenever one
      assembles a result it is from its own device's reports for that very delivery. */
  lemma DaemonTheoremsHoldInClusters(u: Setup, c: Cluster, es: seq<Event>, i: nat)
    requires Init(u, c) && Run(u, c, es) && i < |u.daemons|
    ensures |c.daemons| == |Exec(u, c, es).daemons| == |u.daemons|
    ensures D.Run(u.daemons[i], c.daemons[i], Local(es, i))
    ensures u.daemons[i].interval > 0 && R.TimelyRun(u.daemons[i], c.daemons[i], Local(es, i)) ==>
              u.daemons[i].id in Exec(u, c, es).daemons[i].own.registry
    ensures var m := Exec(u, c, es).daemons[i];
            D.Enabled(u.daemons[i], m, D.Built) ==>
              && R.Returned(m.pc.entry.delivery, m.pc.entry.jobs, m.device.submitted)
              && R.FromDevice(m.pc.entry, m.pc.counts, m.device.counted)
              && |m.pc.counts| == |m.pc.entry.jobs| == |m.pc.entry.delivery.task.circuitFiles|
  {
    hide Next, Enabled, Init, D.Next, D.Init, D.Run, D.Exec, R.Returned, R.FromDevice, R.TimelyRun, P.SoundEvents;
    Projects(u, c, es, i);
    var cfg, start, local := u.daemons[i], c.daemons[i], Local(es, i);
    if cfg.interval > 0 && R.TimelyRun(cfg, start, local) {
      R.NeverExpiresItself(cfg, start, local);
    }
    if D.Enabled(cfg, Exec(u, c, es).daemons[i], D.Built) {
      R.AssembledResultIsTheDevices(cfg, start, local);
      R.RunIsTraced(cfg, start, local);
    }
  }

  /** Between turns, with no shutdown requested anywhere. */
  predicate AtRest(c: Cluster) {
    && c.selector.pc.Top?
    && forall i :: 0 <= i < |c.daemons| ==> c.daemons[i].pc.Top? && !c.daemons[i].stop
  }

  ghost function Scheduled(daemons: seq<D.State>, k: Key): nat {
    if daemons == [] then 0
    else Scheduled(daemons[..|daemons| - 1], k) + Occurs(daemons[|daemons| - 1].scheduler, k)
  }

  lemma {:induction false} RestingDaemons(u: Setup, daemons: seq<D.State>, k: Key)
    requires |daemons| <= |u.daemons|
    requires forall i :: 0 <= i < |daemons| ==>
      P.Inv(u.daemons[i], daemons[i]) && daemons[i].pc.Top? && !daemons[i].stop
    ensures Sum(daemons, k) == Scheduled(daemons, k) + Occurs(Answered(DaemonReplies(daemons)), k)
  {
    hide Occurs, P.Contents, P.OwnEntryOnly;
    Nowhere(k);
    if daemons == [] {
      assert Answered([]) == [];
    } else {
      var n := |daemons| - 1;
      RestingDaemons(u, daemons[..n], k);
      AnsweredAppend(DaemonReplies(daemons[..n]), daemons[n].replies, k);
      assert D.Carried([]) == [];
    }
  }

  /** Whenever all processes are between turns and none is shutting down, every delivery
      that arrived is still queued, still scheduled, lost to a refused forward, or was
      answered - exactly one of these, exactly once. */
  lemma AtRestEveryDeliveryIsAccountedFor(u: Setup, c: Cluster, es: seq<Event>, k: Key)
    requires Init(u, c) && Run(u, c, es) && AtRest(Exec(u, c, es))
    requires k.id < |Exec(u, c, es).arrivals| && Exec(u, c, es).arrivals[k.id] == k.origin
    ensures var c' := Exec(u, c, es);
            Occurs(Mail(c'.broker), k) + Scheduled(c'.daemons, k) + Occurs(c'.selector.lost, k) +
              Occurs(Answered(AllReplies(c')), k) == 1
  {
    hide Next, Enabled, Init, Occurs, Mail, P.Inv;
    var c' := Exec(u, c, es);
    EveryDeliveryIsInOnePlace(u, c, es, k);
    RunKeepsInv(u, c, es);
    RestingDaemons(u, c'.daemons, k);
    AnsweredAppend(c'.selector.replies, DaemonReplies(c'.daemons), k);
    Nowhere(k);
  }

  // ---- Status traffic ---------------------------------------------------------------

  /** Some worker advertises `queue` for `name`. */
  ghost predicate Advertises(u: Setup, name: string, queue: string) {
    exists i :: 0 <= i < |u.daemons| && !u.daemons[i].standalone &&
      u.daemons[i].id == name && u.daemons[i].dispatchQueue == queue
  }

  /** What accepted configurations and the deployment guide give: routable names, and
      different workers own different device ids. */
  ghost predicate WellDeployed(u: Setup) {
    && (forall i :: 0 <= i < |u.daemons| && !u.daemons[i].standalone ==>
          u.daemons[i].id != "" && u.daemons[i].dispatchQueue != "")
    && (forall i, j :: 0 <= i < j < |u.daemons| && !u.daemons[i].standalone && !u.daemons[j].standalone ==>
          u.daemons[i].id != u.daemons[j].id)
  }

  ghost predicate Advertised(u: Setup, c: Cluster) {
    && (forall m :: m in c.statuses ==> Advertises(u, m.name, m.queueName))
    && (forall n :: n in c.selector.registry ==> Advertises(u, n, c.selector.registry[n].backend.queueName))
    && c.selector.rejected == 0
  }

  lemma OneQueuePerName(u: Setup, name: string, a: string, b: string)
    requires WellDeployed(u) && Advertises(u, name, a) && Advertises(u, name, b)
    ensures a == b && name != "" && a != ""
  {
    var i :| 0 <= i < |u.daemons| && !u.daemons[i].standalone &&
      u.daemons[i].id == name && u.daemons[i].dispatchQueue == a;
    var j :| 0 <= j < |u.daemons| && !u.daemons[j].standalone &&
      u.daemons[j].id == name && u.daemons[j].dispatchQueue == b;
  }

  lemma AbsorbsAdvertised(u: Setup, s: S.State, m: BackendMessage, at: int)
    requires WellDeployed(u) && Advertises(u, m.name, m.queueName)
    requires forall n :: n in s.registry ==>
      Advertises(u, n, s.registry[n].backend.queueName) && s.registry[n].backend.name == n
    ensures var s' := S.Absorb(s, m, at);
            && s'.rejected == s.rejected
            && forall n :: n in s'.registry ==> Advertises(u, n, s'.registry[n].backend.queueName)
  {
    hide Advertises;
    OneQueuePerName(u, m.name, m.queueName, m.queueName);
    if m.name in s.registry {
      OneQueuePerName(u, m.name, m.queueName, s.registry[m.name].backend.queueName);
    }
  }

  lemma SelectorKeepsAdvertised(u: Setup, c: Cluster, s: S.Event)
    requires WellDeployed(u) && S.Inv(c.selector) && Advertised(u, c) && Enabled(u, c, SelectorDoes(s))
    ensures Advertised(u, Next(u, c, SelectorDoes(s)))
  {
    hide Advertises, WellDeployed, Heads, Without, S.Route, S.Absorb;
    if s.TookStatus? {
      assert c.statuses[0] in c.statuses;
      AbsorbsAdvertised(u, c.selector.(pc := S.StatusCheck, clock := s.at), s.status, s.at);
    } else if s.TookTask? {
      S.RouteLeavesTheRest(u.selector, c.selector, s.delivery);
    }
  }

  lemma DaemonKeepsAdvertised(u: Setup, c: Cluster, i: nat, d: D.Event)
    requires DaemonsOk(u, c.daemons) && Advertised(u, c) && Enabled(u, c, DaemonDoes(i, d))
    ensures Advertised(u, Next(u, c, DaemonDoes(i, d)))
  {
    hide D.Next, Heads, Without;
    if d.Publish? && d.ok {
      assert P.PcOk(u.daemons[i], c.daemons[i].pc);
      assert Advertises(u, c.daemons[i].pc.status.name, c.daemons[i].pc.status.queueName);
    }
  }

  /** With accepted configurations and distinct device ids, no published status is ever
      rejected, and the selector routes each id to its own worker's queue. */
  lemma {:induction false} NoStatusIsRejected(u: Setup, c: Cluster, es: seq<Event>)
    requires Init(u, c) && Run(u, c, es) && WellDeployed(u)
    ensures Advertised(u, Exec(u, c, es)) && Exec(u, c, es).selector.rejected == 0
  {
    hide Next, Enabled, WellDeployed, Inv;
    if es != [] {
      var n := |es| - 1;
      var m := Exec(u, c, es[..n]);
      NoStatusIsRejected(u, c, es[..n]);
      RunKeepsInv(u, c, es[..n]);
      StepKeepsAdvertised(u, m, es[n]);
    }
  }

  lemma StepKeepsAdvertised(u: Setup, c: Cluster, e: Event)
    requires WellDeployed(u) && Inv(u, c) && Advertised(u, c) && Enabled(u, c, e)
    ensures Advertised(u, Next(u, c, e))
  {
    hide WellDeployed, S.Next, D.Next, D.Enabled, S.Inv, DaemonsOk, AllSound, Advertises;
    match e
    case Arrives(_, _) =>
    case SelectorDoes(s) => SelectorKeepsAdvertised(u, c, s);
    case DaemonDoes(i, d) => DaemonKeepsAdvertised(u, c, i, d);
  }
}
