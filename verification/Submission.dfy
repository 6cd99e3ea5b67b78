/** src/TaskSubmission.cpp and the result assembly of src/Runners.cpp. */
module Submission {
  import opened Protocol
  import opened FormatPolicy
  import opened Backends

  datatype JobRequest = JobRequest(format: CircuitFormat, payload: seq<Byte>, numShots: nat)

  datatype Placement = Self | On(child: string)

  /** A job the device accepted. The handle tells it from every other job of the process,
      also from one with the same circuit. */
  datatype Job = Job(handle: nat, request: JobRequest, placement: Placement)

  /** The submission that returned `job`: which delivery's which circuit. */
  datatype Submitted = Submitted(delivery: Delivery, circuit: nat, job: Job)

  function ValidateSubmission(t: QuantumTask): Result<CircuitFormat> {
    var format := MapTaskCircuitType(t.circuitFileType);
    if t.circuitFiles == [] || t.nShots <= 0 || format == FormatUnspecified then
      Err(Error(SubmissionFailed, None))
    else
      Ok(format)
  }

  function ToByte(c: Char): Byte {
    if c < 0 then c + 256 else c
  }

  function Payload(circuit: Source): seq<Byte> {
    seq(|circuit|, i requires 0 <= i < |circuit| => ToByte(circuit[i]))
  }

  /** `payload` is the file byte by byte: the same number where it is not negative, and
      otherwise the one 256 higher. */
  predicate SameBytes(payload: seq<Byte>, circuit: Source) {
    && |payload| == |circuit|
    && forall i :: 0 <= i < |circuit| ==> payload[i] == circuit[i] || payload[i] - circuit[i] == 256
  }

  /** The device gets exactly the file's bytes: distinct files, distinct payloads. */
  lemma PayloadIsFaithful(a: Source, b: Source)
    ensures SameBytes(Payload(a), a)
    ensures Payload(a) == Payload(b) <==> a == b
  {
    if Payload(a) == Payload(b) {
      assert |a| == |b|;
      forall i | 0 <= i < |a| ensures a[i] == b[i] {
        assert Payload(a)[i] == Payload(b)[i];
      }
    }
  }

  /** makeJobRequest for circuit file `i`. */
  function RequestFor(t: QuantumTask, format: CircuitFormat, i: nat): JobRequest
    requires i < |t.circuitFiles|
  {
    JobRequest(format, Payload(t.circuitFiles[i]), if t.nShots > 0 then t.nShots else 0)
  }

  /** `request` asks for circuit `i` of `t` as it stands: that file's bytes, in the format
      the task's label means, for the task's own number of shots. */
  predicate AsksFor(request: JobRequest, t: QuantumTask, i: nat) {
    && i < |t.circuitFiles| && SameBytes(request.payload, t.circuitFiles[i])
    && request.format == MapTaskCircuitType(t.circuitFileType) != FormatUnspecified
    && request.numShots == t.nShots > 0
  }

  /** A task can be submitted exactly if it has circuits, shots and a known format, and then
      each of its requests asks for its circuit. */
  lemma SubmissionIsExact(t: QuantumTask)
    ensures ValidateSubmission(t).Ok? <==>
            |t.circuitFiles| > 0 && t.nShots > 0 && MapTaskCircuitType(t.circuitFileType) != FormatUnspecified
    ensures match ValidateSubmission(t)
            case Err(e) => e == Error(SubmissionFailed, None)
            case Ok(f) =>
              && f == MapTaskCircuitType(t.circuitFileType)
              && forall i :: 0 <= i < |t.circuitFiles| ==> AsksFor(RequestFor(t, f, i), t, i)
  {
    if ValidateSubmission(t).Ok? {
      forall i | 0 <= i < |t.circuitFiles|
        ensures AsksFor(RequestFor(t, ValidateSubmission(t).value, i), t, i)
      {
        PayloadIsFaithful(t.circuitFiles[i], t.circuitFiles[i]);
      }
    }
  }

  /** All circuits go to the driver's first child, or to the device if it has none or knows
      of none; any other failure to ask is a failure to submit. */
  lemma PlacementIsExact(children: Query<seq<string>>, p: Placement)
    ensures PlacementFor(children) == Ok(p) <==>
            || (children.Answer? && |children.value| > 0 && p == On(children.value[0]))
            || ((children == Answer([]) || children.NotSupported?) && p == Self)
    ensures PlacementFor(children).Err? ==> PlacementFor(children).error == Error(SubmissionFailed, None)
  {
  }

  /** The jobs for circuit files 0..n-1, in order, under handles from `first` on. */
  function JobsFor(t: QuantumTask, format: CircuitFormat, placement: Placement, first: nat, n: nat): seq<Job>
    requires n <= |t.circuitFiles|
  {
    seq(n, i requires 0 <= i < n => Job(first + i, RequestFor(t, format, i), placement))
  }

  /** The submissions that returned `jobs` for `d`, circuit by circuit. */
  function SubmissionsOf(d: Delivery, jobs: seq<Job>): seq<Submitted> {
    seq(|jobs|, i requires 0 <= i < |jobs| => Submitted(d, i, jobs[i]))
  }

  /** The first child in the driver's order if there is one, else the device itself. */
  function PlacementFor(children: Query<seq<string>>): Result<Placement> {
    match children
    case Answer(cs) => Ok(if cs == [] then Self else On(cs[0]))
    case NotSupported => Ok(Self)
    case Failed => Err(Error(SubmissionFailed, None))
  }

  /** Counts that fit the wire format's int32. */
  predicate Fits(c: Option<Counts>) {
    c.Some? && forall key :: key in c.value ==> c.value[key] <= INT32_MAX
  }

  ghost predicate Complete(h: seq<Option<Counts>>) {
    forall i :: 0 <= i < |h| ==> Fits(h[i])
  }

  ghost predicate FirstUnfit(h: seq<Option<Counts>>, i: nat) {
    i < |h| && !Fits(h[i]) && forall j :: 0 <= j < i ==> Fits(h[j])
  }

  function Completed(t: QuantumTask, results: seq<Counts>): QuantumResult {
    QuantumResult(t.taskId, t.resultDestination, t.scheduledQpu, true, None, results)
  }

  ghost function BuildResult(t: QuantumTask, h: seq<Option<Counts>>): Result<QuantumResult> {
    if |h| != |t.circuitFiles| then Err(Error(DeviceError, None))
    else if i: nat :| FirstUnfit(h, i) then Err(Error(DeviceError, Some(i)))
    else Unfit(h); Ok(Completed(t, seq(|h|, i requires 0 <= i < |h| => h[i].value)))
  }

  /** If no entry is the first unfit one, none is unfit. */
  lemma Unfit(h: seq<Option<Counts>>)
    requires forall i: nat :: !FirstUnfit(h, i)
    ensures Complete(h)
  {
    for i := 0 to |h|
      invariant forall j :: 0 <= j < i ==> Fits(h[j])
    {
      assert !FirstUnfit(h, i);
    }
  }

  /** Which histograms make a result and which one: one fitting entry per circuit, and then
      entry i is histogram entry i under the task's own ids; otherwise a device error that
      names the first entry that is missing or too large, if the number of entries is right. */
  lemma ResultIsExact(t: QuantumTask, h: seq<Option<Counts>>)
    ensures match BuildResult(t, h)
            case Ok(r) =>
              && |h| == |t.circuitFiles| == |r.results|
              && (forall i :: 0 <= i < |h| ==> h[i] == Some(r.results[i]))
              && (forall i, key :: 0 <= i < |h| && key in r.results[i] ==> r.results[i][key] <= INT32_MAX)
              && r.executionStatus && r.failure == None
              && r.taskId == t.taskId && r.destination == t.resultDestination && r.executedQpu == t.scheduledQpu
            case Err(e) =>
              && e.kind == DeviceError
              && (e.circuit.None? <==> |h| != |t.circuitFiles|)
              && (e.circuit.Some? ==>
                    && e.circuit.value < |h| && !Acceptable(h[e.circuit.value])
                    && forall j :: 0 <= j < e.circuit.value ==> Acceptable(h[j]))
  {
    hide FirstUnfit;
    if BuildResult(t, h).Ok? {
      Unfit(h);
      forall i, key | 0 <= i < |h| && key in h[i].value ensures h[i].value[key] <= INT32_MAX {
        assert Fits(h[i]);
      }
    } else if |h| == |t.circuitFiles| {
      var i: nat :| FirstUnfit(h, i) && BuildResult(t, h) == Err(Error(DeviceError, Some(i)));
      UnfitMeansUnacceptable(h, i);
    }
  }

  /** Present, and every count within the wire format. */
  predicate Acceptable(c: Option<Counts>) {
    c.Some? && forall key :: key in c.value ==> c.value[key] <= 2147483647
  }

  lemma UnfitMeansUnacceptable(h: seq<Option<Counts>>, i: nat)
    requires FirstUnfit(h, i)
    ensures i < |h| && !Acceptable(h[i]) && forall j :: 0 <= j < i ==> Acceptable(h[j])
  {
  }

  /** buildQuantumResult: validate everything, then assemble one entry per circuit. */
  method BuildQuantumResult(t: QuantumTask, h: seq<Option<Counts>>) returns (r: Result<QuantumResult>)
    ensures r == BuildResult(t, h)
    ensures r.Ok? ==> |r.value.results| == |h| && forall i :: 0 <= i < |h| ==> h[i] == Some(r.value.results[i])
  {
    ResultIsExact(t, h);
    if |h| != |t.circuitFiles| {
      return Err(Error(DeviceError, None));
    }
    for i := 0 to |h|
      invariant forall j :: 0 <= j < i ==> Fits(h[j])
    {
      var fits := FitsWire(h[i]);
      if !fits {
        assert FirstUnfit(h, i);
        return Err(Error(DeviceError, Some(i)));
      }
    }
    var results: seq<Counts> := [];
    for i := 0 to |h|
      invariant |results| == i && forall j :: 0 <= j < i ==> h[j] == Some(results[j])
    {
      var counts := CopyCounts(h[i].value);
      results := results + [counts];
    }
    assert results == seq(|h|, i requires 0 <= i < |h| => h[i].value);
    return Ok(Completed(t, results));
  }

  method FitsWire(c: Option<Counts>) returns (fits: bool)
    ensures fits <==> Fits(c)
  {
    if c.None? {
      return false;
    }
    var todo := c.value.Keys;
    while todo != {}
      invariant todo <= c.value.Keys
      invariant forall key :: key in c.value && key !in todo ==> c.value[key] <= INT32_MAX
      decreases |todo|
    {
      var key :| key in todo;
      if c.value[key] > INT32_MAX {
        return false;
      }
      todo := todo - {key};
    }
    fits := true;
  }

  /** A C++ conversion to int32_t. */
  function ToInt32(x: int): int {
    (x + INT32_MAX + 1) % (2 * (INT32_MAX + 1)) - INT32_MAX - 1
  }

  /** Entry by entry, each value narrowed to int32, which changes none that fits. */
  method CopyCounts(c: Counts) returns (out: Counts)
    requires Fits(Some(c))
    ensures out == c
  {
    out := map[];
    var todo := c.Keys;
    while todo != {}
      invariant todo <= c.Keys && out.Keys == c.Keys - todo
      invariant forall key :: key in out ==> out[key] == c[key]
      decreases |todo|
    {
      var key :| key in todo;
      out := out[key := ToInt32(c[key])];
      todo := todo - {key};
    }
  }

  /** With one present entry per circuit, only an oversized count can fail the assembly;
      on success the entries are the device's own, index by index. */
  lemma AssemblyPreservesCounts(t: QuantumTask, counts: seq<Counts>)
    requires |counts| == |t.circuitFiles|
    ensures var h := seq(|counts|, i requires 0 <= i < |counts| => Some(counts[i]));
            match BuildResult(t, h)
            case Ok(r) => r == Completed(t, counts) && r.results == counts && Complete(h)
            case Err(e) =>
              && e.kind == DeviceError && e.circuit.Some? && e.circuit.value < |counts|
              && exists key :: key in counts[e.circuit.value] && counts[e.circuit.value][key] > INT32_MAX
  {
    var h := seq(|counts|, i requires 0 <= i < |counts| => Some(counts[i]));
    ResultIsExact(t, h);
    if BuildResult(t, h).Ok? {
      Unfit(h);
      assert seq(|h|, i requires 0 <= i < |h| => h[i].value) == counts;
    }
  }
}
