/** src/BackendWrapper.cpp and src/ConstantsMapping.cpp: backend snapshots. */
module Backends {
  import opened Protocol
  import opened FormatPolicy

  /** A BackendWrapper: one backend's capabilities at one moment. */
  datatype Snapshot = Snapshot(
    name: string,
    numQubits: nat,
    kind: BackendType,
    status: BackendStatus,
    queueLength: nat,
    currentLoad: int,
    queueName: string,
    instructions: seq<string>,
    qubitConnectivity: seq<(nat, nat)>,
    supportedCircuitFormats: seq<CircuitFormat>)

  datatype Query<+T> = Answer(value: T) | NotSupported | Failed

  /** What the five fallible device queries answered. */
  datatype DeviceReading = DeviceReading(
    qubits: Query<nat>,
    status: Query<BackendStatus>,
    instructions: Query<seq<string>>,
    couplingMap: Query<seq<(nat, nat)>>,
    formats: Query<seq<CircuitFormat>>)

  const UINT32: nat := 0x1_0000_0000

  function NarrowPairs(pairs: seq<(nat, nat)>): seq<(nat, nat)> {
    seq(|pairs|, i requires 0 <= i < |pairs| => (pairs[i].0 % UINT32, pairs[i].1 % UINT32))
  }

  /** Any failing query fails the reading; only the coupling map may be unsupported. */
  function FromSubmitter(deviceId: string, r: DeviceReading, dispatchQueue: string): Result<Snapshot> {
    if !r.qubits.Answer? || !r.status.Answer? || !r.instructions.Answer? ||
       r.couplingMap.Failed? || !r.formats.Answer? then
      Err(Error(DeviceError, None))
    else
      Ok(Snapshot(
        deviceId, r.qubits.value % UINT32, TypeUnspecified, r.status.value, 0, 0, dispatchQueue,
        r.instructions.value,
        if r.couplingMap.Answer? then NarrowPairs(r.couplingMap.value) else [],
        r.formats.value))
  }

  /** fromSubmitter: the queries in their fixed order, the coupling map narrowed in a loop. */
  method ReadSubmitter(deviceId: string, r: DeviceReading, dispatchQueue: string) returns (s: Result<Snapshot>)
    ensures s == FromSubmitter(deviceId, r, dispatchQueue)
  {
    if !r.qubits.Answer? {
      return Err(Error(DeviceError, None));
    }
    if !r.status.Answer? {
      return Err(Error(DeviceError, None));
    }
    if !r.instructions.Answer? {
      return Err(Error(DeviceError, None));
    }
    var couplingMap: seq<(nat, nat)> := [];
    if r.couplingMap.Answer? {
      couplingMap := r.couplingMap.value;
    } else if r.couplingMap.Failed? {
      return Err(Error(DeviceError, None));
    }
    if !r.formats.Answer? {
      return Err(Error(DeviceError, None));
    }
    var connectivity: seq<(nat, nat)> := [];
    for i := 0 to |couplingMap|
      invariant connectivity == NarrowPairs(couplingMap)[..i]
    {
      connectivity := connectivity + [(couplingMap[i].0 % UINT32, couplingMap[i].1 % UINT32)];
    }
    assert connectivity == NarrowPairs(couplingMap) && (couplingMap == [] ==> connectivity == []);
    return Ok(Snapshot(deviceId, r.qubits.value % UINT32, TypeUnspecified, r.status.value, 0, 0, dispatchQueue,
                       r.instructions.value, connectivity, r.formats.value));
  }

  /** What a reading says is what the snapshot says, entry by entry, under the device's own
      name and queue; numbers are exact as long as they fit 32 bits. A reading succeeds
      exactly if every query is answered, the coupling map being optional. */
  lemma ReadingIsReported(deviceId: string, r: DeviceReading, dispatchQueue: string)
    ensures FromSubmitter(deviceId, r, dispatchQueue).Ok? <==>
            && r.qubits.Answer? && r.status.Answer? && r.instructions.Answer? && r.formats.Answer?
            && (r.couplingMap.Answer? || r.couplingMap.NotSupported?)
    ensures match FromSubmitter(deviceId, r, dispatchQueue)
            case Err(e) => e == Error(DeviceError, None)
            case Ok(s) =>
              && s.name == deviceId && s.queueName == dispatchQueue
              && (r.qubits.value < 0x1_0000_0000 ==> s.numQubits == r.qubits.value)
              && s.status == r.status.value && s.supportedCircuitFormats == r.formats.value
              && s.instructions == r.instructions.value
              && s.kind == TypeUnspecified && s.queueLength == 0 && s.currentLoad == 0
              && (r.couplingMap.NotSupported? ==> s.qubitConnectivity == [])
              && (r.couplingMap.Answer? ==>
                    var pairs := r.couplingMap.value;
                    && |s.qubitConnectivity| == |pairs|
                    && forall i :: 0 <= i < |pairs| && pairs[i].0 < 0x1_0000_0000 && pairs[i].1 < 0x1_0000_0000 ==>
                         s.qubitConnectivity[i] == pairs[i])
  {
  }

  function NormalFormat(f: CircuitFormat): CircuitFormat {
    if f.FormatUnknown? then FormatUnspecified else f
  }

  function NormalType(k: BackendType): BackendType {
    if k.TypeUnknown? then TypeUnspecified else k
  }

  function NormalStatus(s: BackendStatus): BackendStatus {
    if s.StatusUnknown? then StatusUnspecified else s
  }

  function NormalFormats(fs: seq<CircuitFormat>): seq<CircuitFormat> {
    seq(|fs|, i requires 0 <= i < |fs| => NormalFormat(fs[i]))
  }

  /** A message with every enumerator this build does not know made unspecified. */
  function Normalised(m: BackendMessage): BackendMessage {
    m.(kind := NormalType(m.kind), status := NormalStatus(m.status),
       supportedCircuitFormats := NormalFormats(m.supportedCircuitFormats))
  }

  /** BackendWrapper's constructor: fields copied, enumerators normalised in loops. */
  method WrapMessage(m: BackendMessage) returns (s: Snapshot)
    ensures s == Wrap(m)
  {
    var connectivity: seq<(nat, nat)> := [];
    for i := 0 to |m.connectivity|
      invariant connectivity == m.connectivity[..i]
    {
      connectivity := connectivity + [(m.connectivity[i].0, m.connectivity[i].1)];
    }
    var formats: seq<CircuitFormat> := [];
    for i := 0 to |m.supportedCircuitFormats|
      invariant formats == NormalFormats(m.supportedCircuitFormats)[..i]
    {
      formats := formats + [NormalFormat(m.supportedCircuitFormats[i])];
    }
    s := Snapshot(m.name, m.numQubits, NormalType(m.kind), NormalStatus(m.status), m.queueLength,
                  m.currentLoad, m.queueName, m.instructions, connectivity, formats);
  }

  function Wrap(m: BackendMessage): Snapshot {
    Snapshot(m.name, m.numQubits, NormalType(m.kind), NormalStatus(m.status), m.queueLength,
             m.currentLoad, m.queueName, m.instructions, m.connectivity,
             NormalFormats(m.supportedCircuitFormats))
  }

  function FromPublishedStatus(m: BackendMessage): Result<Snapshot> {
    if m.name == "" || m.queueName == "" then Err(Error(MessagingFailed, None)) else Ok(Wrap(m))
  }

  /** fromPublishedStatus: both routing strings are required. */
  method ReadPublishedStatus(m: BackendMessage) returns (r: Result<Snapshot>)
    ensures r == FromPublishedStatus(m)
  {
    if m.name == "" {
      return Err(Error(MessagingFailed, None));
    }
    if m.queueName == "" {
      return Err(Error(MessagingFailed, None));
    }
    var s := WrapMessage(m);
    return Ok(s);
  }

  function ToBackend(s: Snapshot): BackendMessage {
    BackendMessage(s.name, s.numQubits, s.kind, s.status, s.queueLength, s.currentLoad, s.queueName,
                   s.instructions, s.qubitConnectivity, s.supportedCircuitFormats)
  }

  /** toBackend: repeated fields appended one by one. */
  method PublishedStatus(s: Snapshot) returns (m: BackendMessage)
    ensures m == ToBackend(s)
  {
    m := BackendMessage(s.name, s.numQubits, s.kind, s.status, s.queueLength, s.currentLoad, s.queueName, [], [], []);
    for i := 0 to |s.instructions|
      invariant m == ToBackend(s).(instructions := s.instructions[..i], connectivity := [], supportedCircuitFormats := [])
    {
      m := m.(instructions := m.instructions + [s.instructions[i]]);
    }
    for i := 0 to |s.qubitConnectivity|
      invariant m == ToBackend(s).(connectivity := s.qubitConnectivity[..i], supportedCircuitFormats := [])
    {
      m := m.(connectivity := m.connectivity + [(s.qubitConnectivity[i].0, s.qubitConnectivity[i].1)]);
    }
    for i := 0 to |s.supportedCircuitFormats|
      invariant m == ToBackend(s).(supportedCircuitFormats := s.supportedCircuitFormats[..i])
    {
      m := m.(supportedCircuitFormats := m.supportedCircuitFormats + [s.supportedCircuitFormats[i]]);
    }
  }

  predicate IsOnline(s: Snapshot) {
    s.status == Idle || s.status == Busy
  }

  predicate CanRun(s: Snapshot, t: QuantumTask, inputs: seq<string>) {
    && 0 <= t.nQbits <= s.numQubits
    && (t.restrictedResourceNames != [] ==> s.name in t.restrictedResourceNames)
    && CanPrepare(t, s.supportedCircuitFormats, inputs)
  }

  predicate Eligible(s: Snapshot, t: QuantumTask, inputs: seq<string>) {
    IsOnline(s) && CanRun(s, t, inputs)
  }

  /** Which backends are eligible: those idle or busy, large enough, allowed, and able to
      take the task's format. */
  lemma EligibilityIsExact(s: Snapshot, t: QuantumTask, inputs: seq<string>)
    ensures Eligible(s, t, inputs) <==>
            && (s.status == Idle || s.status == Busy)
            && 0 <= t.nQbits <= s.numQubits
            && (t.restrictedResourceNames == [] || s.name in t.restrictedResourceNames)
            && CanPrepare(t, s.supportedCircuitFormats, inputs)
  {
  }

  /** Every enumerator in `s` is one this build knows. */
  ghost predicate AllKnown(s: Snapshot) {
    && !s.kind.TypeUnknown? && !s.status.StatusUnknown?
    && forall f :: f in s.supportedCircuitFormats ==> !f.FormatUnknown?
  }

  /** Wrapping and unwrapping are inverse up to normalisation, which is idempotent: a
      message comes back as itself with unknown enumerators made unspecified, and a
      snapshot survives the trip over the wire exactly if it has none of those. On the wire
      every field stands under its own name. */
  lemma StatusRoundTrip(m: BackendMessage, s: Snapshot)
    ensures ToBackend(Wrap(m)) == Normalised(m)
    ensures Normalised(Normalised(m)) == Normalised(m)
    ensures Wrap(ToBackend(Wrap(m))) == Wrap(m)
    ensures Wrap(ToBackend(s)) == s <==> AllKnown(s)
    ensures var w := ToBackend(s);
            && w.name == s.name && w.queueName == s.queueName && w.numQubits == s.numQubits && w.kind == s.kind
            && w.status == s.status && w.queueLength == s.queueLength && w.currentLoad == s.currentLoad
            && w.instructions == s.instructions && w.connectivity == s.qubitConnectivity
            && w.supportedCircuitFormats == s.supportedCircuitFormats
    ensures m.kind.TypeUnknown? ==> Wrap(m).kind == TypeUnspecified
    ensures m.status.StatusUnknown? ==> Wrap(m).status == StatusUnspecified
    ensures forall i :: 0 <= i < |m.supportedCircuitFormats| && m.supportedCircuitFormats[i].FormatUnknown? ==>
              i < |Wrap(m).supportedCircuitFormats| && Wrap(m).supportedCircuitFormats[i] == FormatUnspecified
  {
    assert NormalFormats(NormalFormats(m.supportedCircuitFormats)) == NormalFormats(m.supportedCircuitFormats);
    var fs := s.supportedCircuitFormats;
    assert forall i :: 0 <= i < |fs| ==> (NormalFormats(fs)[i] == fs[i] <==> !fs[i].FormatUnknown?);
    if Wrap(ToBackend(s)) == s {
      assert NormalFormats(fs) == fs;
    }
  }

  /** The selector's copy of a published snapshot and the publisher's own agree on every
      eligibility question, whatever enumerators the device reported. */
  lemma SelectorAgreesWithPublisher(s: Snapshot, t: QuantumTask, inputs: seq<string>)
    ensures IsOnline(Wrap(ToBackend(s))) == IsOnline(s)
    ensures CanRun(Wrap(ToBackend(s)), t, inputs) == CanRun(s, t, inputs)
    ensures ChooseCompilerTarget(Wrap(ToBackend(s)).supportedCircuitFormats)
         == ChooseCompilerTarget(s.supportedCircuitFormats)
  {
    var fs := s.supportedCircuitFormats;
    forall f: CircuitFormat | f != FormatUnspecified && !f.FormatUnknown?
      ensures f in NormalFormats(fs) <==> f in fs
    {
      if f in fs {
        var i :| 0 <= i < |fs| && fs[i] == f;
        assert NormalFormats(fs)[i] == f;
      }
    }
    AdmissionSeesKnownFormatsOnly(t, NormalFormats(fs), fs, inputs);
  }
}
