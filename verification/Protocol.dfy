/** The messages, records and error kinds that the pipeline stages exchange. */
module Protocol {

  datatype Option<+T> = None | Some(value: T)

  datatype Result<+T> = Ok(value: T) | Err(error: Error)

  datatype ErrorKind =
    | NoBackendAvailable
    | UnsupportedFormat
    | CompilationFailed
    | SubmissionFailed
    | DeviceError
    | MessagingFailed
    | ConfigError
    | ShutdownRequested

  /** A failure. `circuit` is the circuit index its text names, when it names one. */
  datatype Error = Error(kind: ErrorKind, circuit: Option<nat>)

  /** A C++ `char`; circuit files are sequences of them. */
  type Char = c: int | -128 <= c < 128

  type Source = seq<Char>

  type Byte = b: int | 0 <= b < 256

  const INT32_MAX := 0x7FFF_FFFF

  /** Open enumeration: protobuf keeps a value it does not know as a raw integer. */
  datatype CircuitFormat =
    | FormatUnspecified
    | Qasm2
    | Qasm3
    | Qir
    | QirBaseString
    | QirBaseModule
    | QirAdaptiveString
    | QirAdaptiveModule
    | IqmJson
    | FormatUnknown(raw: int)

  datatype BackendStatus =
    | StatusUnspecified
    | Idle
    | Busy
    | Queued
    | Offline
    | Maintenance
    | Calibration
    | Faulty
    | StatusUnknown(raw: int)

  datatype BackendType = TypeUnspecified | TypeKnown(code: nat) | TypeUnknown(raw: int)

  datatype QuantumTask = QuantumTask(
    taskId: int,
    circuitFiles: seq<Source>,
    circuitFileType: string,
    resultDestination: string,
    preferredQpu: string,
    scheduledQpu: string,
    restrictedResourceNames: seq<string>,
    nQbits: int,
    nShots: int,
    noModify: bool,
    optimisationLevel: int,
    priority: int)

  /** The part of a task that no stage may change. */
  function Identity(t: QuantumTask): QuantumTask {
    t.(scheduledQpu := "", circuitFiles := [], circuitFileType := "")
  }

  /** The backend-status message workers publish; the load is carried verbatim. */
  datatype BackendMessage = BackendMessage(
    name: string,
    numQubits: nat,
    kind: BackendType,
    status: BackendStatus,
    queueLength: nat,
    currentLoad: int,
    queueName: string,
    instructions: seq<string>,
    connectivity: seq<(nat, nat)>,
    supportedCircuitFormats: seq<CircuitFormat>)

  type Counts = map<string, nat>

  /** `failure` stands for the text after "CANCELLED: "; `None` is "COMPLETED". */
  datatype QuantumResult = QuantumResult(
    taskId: int,
    destination: string,
    executedQpu: string,
    executionStatus: bool,
    failure: Option<Error>,
    results: seq<Counts>)

  /** One delivery of a task. `id` and `origin` (the task as it was put on the intake)
      never change; `selected` records that a selection stage assigned the QPU. */
  datatype Delivery = Delivery(id: nat, origin: QuantumTask, task: QuantumTask, selected: bool)

  /** A reply attempt; `sent` is whether the broker took it. */
  datatype Reply = Reply(delivery: Delivery, queue: string, result: QuantumResult, sent: bool)

  /** src/Runners.cpp, cancelQuantumTask. */
  function CancelQuantumTask(t: QuantumTask, reason: Error): QuantumResult {
    QuantumResult(t.taskId, t.resultDestination, t.scheduledQpu, false, Some(reason), [])
  }

  /** A refusal names its reason and its task, and has no results. */
  lemma CancellationIsCorrelated(d: Delivery, e: Error, sent: bool)
    requires Sound(d)
    ensures var r := CancelQuantumTask(d.task, e);
            && !r.executionStatus && r.failure == Some(e) && r.results == []
            && Correlated(Reply(d, d.task.resultDestination, r, sent))
  {
    assert Identity(d.task).taskId == d.task.taskId && Identity(d.origin).taskId == d.origin.taskId;
    assert Identity(d.task).resultDestination == d.task.resultDestination;
    assert Identity(d.origin).resultDestination == d.origin.resultDestination;
  }

  /** What identifies a delivery for good. */
  datatype Key = Key(id: nat, origin: QuantumTask)

  function KeyOf(d: Delivery): Key {
    Key(d.id, d.origin)
  }

  /** A delivery still is the task that was put on the intake, and if a selection stage
      assigned its QPU, the assignment respects the task's allow-list. */
  predicate Sound(d: Delivery) {
    && Identity(d.task) == Identity(d.origin)
    && |d.task.circuitFiles| == |d.origin.circuitFiles|
    && (d.selected && d.origin.restrictedResourceNames != [] ==>
          d.task.scheduledQpu in d.origin.restrictedResourceNames)
  }

  /** A delivery on a queue still is the very task that was put on the intake, but for the
      QPU, and an assigned QPU is one the allow-list admits. */
  predicate Intact(d: Delivery) {
    && d.task == d.origin.(scheduledQpu := d.task.scheduledQpu)
    && (d.selected && d.origin.restrictedResourceNames != [] ==>
          d.task.scheduledQpu in d.origin.restrictedResourceNames)
  }

  lemma IntactIsSound(d: Delivery)
    requires Intact(d)
    ensures Sound(d)
  {
  }

  /** A reply matches the task as it was put on the intake, and is either a success with one
      entry per circuit file or a refusal with a reason and no entries. */
  predicate Correlated(r: Reply) {
    var t := r.delivery.origin;
    && r.queue == t.resultDestination && r.result.destination == t.resultDestination
    && r.result.taskId == t.taskId
    && r.result.executedQpu == r.delivery.task.scheduledQpu
    && (r.result.executionStatus <==> r.result.failure.None?)
    && (!r.result.executionStatus ==> r.result.results == [])
    && (r.result.executionStatus ==>
          && |r.result.results| == |t.circuitFiles|
          && (r.delivery.selected && t.restrictedResourceNames != [] ==>
                r.result.executedQpu in t.restrictedResourceNames))
  }

  function Answered(replies: seq<Reply>): seq<Delivery> {
    seq(|replies|, i requires 0 <= i < |replies| => replies[i].delivery)
  }

  /** How often delivery `k` occurs in `ds`. */
  ghost function Occurs(ds: seq<Delivery>, k: Key): nat {
    if ds == [] then 0 else Occurs(ds[..|ds| - 1], k) + if KeyOf(ds[|ds| - 1]) == k then 1 else 0
  }

  lemma OccursPush(a: seq<Delivery>, d: Delivery, k: Key)
    ensures Occurs(a + [d], k) == Occurs(a, k) + Occurs([d], k)
    ensures Occurs([d], k) == if KeyOf(d) == k then 1 else 0
    ensures Occurs([], k) == 0
  {
    assert (a + [d])[..|a|] == a && [d][..0] == [];
  }

  lemma {:induction false} OccursAppend(a: seq<Delivery>, b: seq<Delivery>, k: Key)
    ensures Occurs(a + b, k) == Occurs(a, k) + Occurs(b, k)
  {
    if b == [] {
      assert a + b == a;
    } else {
      var n := |b| - 1;
      assert (a + b)[..|a| + n] == a + b[..n];
      OccursAppend(a, b[..n], k);
    }
  }

  lemma OccursRemove(a: seq<Delivery>, i: nat, k: Key)
    requires i < |a|
    ensures Occurs(a, k) == Occurs(a[..i] + a[i + 1..], k) + Occurs([a[i]], k)
  {
    var left, right := a[..i], a[i + 1..];
    OccursPush(left, a[i], k);
    OccursAppend(left + [a[i]], right, k);
    OccursAppend(left, right, k);
    assert a == left + [a[i]] + right;
  }

  lemma Nowhere(k: Key)
    ensures Occurs([], k) == 0
  {
  }

  lemma {:induction false} OccursMember(ds: seq<Delivery>, d: Delivery)
    requires d in ds
    ensures Occurs(ds, KeyOf(d)) > 0
  {
    var n := |ds| - 1;
    if ds[n] != d {
      OccursMember(ds[..n], d);
    }
  }

  /** A delivery that is counted once cannot sit at two places. */
  lemma {:induction false} OccursTwice(ds: seq<Delivery>, i: nat, j: nat)
    requires i < j < |ds| && KeyOf(ds[i]) == KeyOf(ds[j])
    ensures Occurs(ds, KeyOf(ds[i])) >= 2
  {
    var n := |ds| - 1;
    if j < n {
      OccursTwice(ds[..n], i, j);
    } else {
      OccursMember(ds[..n], ds[i]);
    }
  }
}
