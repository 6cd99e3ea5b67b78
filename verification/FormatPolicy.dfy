/** src/CircuitFormatPolicy.cpp: which tasks a backend can take, and in which format. */
module FormatPolicy {
  import opened Protocol

  datatype ResultFormat = IQMJSON | OPENQASM2 | QIRBASE | QIRADAPTIVE

  datatype CompilerTarget = CompilerTarget(
    compilerFormat: ResultFormat, circuitFormat: CircuitFormat, taskCircuitType: string)

  const COMPILER_TARGET_PRIORITY: seq<CompilerTarget> := [
    CompilerTarget(IQMJSON, IqmJson, "iqmjson"),
    CompilerTarget(OPENQASM2, Qasm2, "qasm2"),
    CompilerTarget(QIRBASE, QirBaseString, "qirbase"),
    CompilerTarget(QIRADAPTIVE, QirAdaptiveString, "qiradaptive")]

  const COMPILER_INPUT_NAMES: map<string, string> :=
    map["quake" := "cudaq-quake", "catalyst" := "catalyst-quantum"]

  function MapTaskCircuitType(circuitType: string): CircuitFormat {
    if circuitType == "iqmjson" then IqmJson
    else if circuitType == "qasm" || circuitType == "qasm2" then Qasm2
    else if circuitType == "qasm3" then Qasm3
    else if circuitType == "qir" || circuitType == "qirbase" || circuitType == "quake" || circuitType == "catalyst" then QirBaseString
    else if circuitType == "qiradaptive" then QirAdaptiveString
    else FormatUnspecified
  }

  function FirstTarget(table: seq<CompilerTarget>, formats: seq<CircuitFormat>): Option<CompilerTarget> {
    if table == [] then None
    else if table[0].circuitFormat in formats then Some(table[0])
    else FirstTarget(table[1..], formats)
  }

  function ChooseCompilerTarget(formats: seq<CircuitFormat>): Result<CompilerTarget> {
    match FirstTarget(COMPILER_TARGET_PRIORITY, formats)
    case Some(target) => Ok(target)
    case None => Err(Error(UnsupportedFormat, None))
  }

  /** validateInputFormatIsSupportedCircuitFormat: `inputs` is the compiler's own list. */
  predicate IsCompilerInput(circuitType: string, inputs: seq<string>) {
    circuitType in COMPILER_INPUT_NAMES && COMPILER_INPUT_NAMES[circuitType] in inputs
  }

  predicate CanPrepare(t: QuantumTask, formats: seq<CircuitFormat>, inputs: seq<string>) {
    if t.noModify then
      var direct := MapTaskCircuitType(t.circuitFileType);
      direct != FormatUnspecified && direct in formats
    else
      IsCompilerInput(t.circuitFileType, inputs) && ChooseCompilerTarget(formats).Ok?
  }

  /** First match in the table: the target is offered, nothing earlier is. */
  lemma {:induction false} FirstTargetIsEarliest(table: seq<CompilerTarget>, formats: seq<CircuitFormat>)
    ensures match FirstTarget(table, formats)
            case None => forall i :: 0 <= i < |table| ==> table[i].circuitFormat !in formats
            case Some(target) =>
              exists i :: 0 <= i < |table| && table[i] == target && target.circuitFormat in formats &&
                forall j :: 0 <= j < i ==> table[j].circuitFormat !in formats
  {
    if table != [] && table[0].circuitFormat !in formats {
      FirstTargetIsEarliest(table[1..], formats);
      match FirstTarget(table, formats)
      case None =>
        forall i | 0 <= i < |table| ensures table[i].circuitFormat !in formats {
          if i > 0 { assert table[i] == table[1..][i - 1]; }
        }
      case Some(target) =>
        var i :| 0 <= i < |table[1..]| && table[1..][i] == target && target.circuitFormat in formats &&
          forall j :: 0 <= j < i ==> table[1..][j].circuitFormat !in formats;
        assert table[i + 1] == target;
        forall j | 0 <= j < i + 1 ensures table[j].circuitFormat !in formats {
          if j > 0 { assert table[j] == table[1..][j - 1]; }
        }
    }
  }

  /** Which target a backend gets, format by format in order of priority. */
  lemma ChosenTarget(formats: seq<CircuitFormat>)
    ensures ChooseCompilerTarget(formats) ==
            if IqmJson in formats then Ok(CompilerTarget(IQMJSON, IqmJson, "iqmjson"))
            else if Qasm2 in formats then Ok(CompilerTarget(OPENQASM2, Qasm2, "qasm2"))
            else if QirBaseString in formats then Ok(CompilerTarget(QIRBASE, QirBaseString, "qirbase"))
            else if QirAdaptiveString in formats then Ok(CompilerTarget(QIRADAPTIVE, QirAdaptiveString, "qiradaptive"))
            else Err(Error(UnsupportedFormat, None))
  {
    var table := COMPILER_TARGET_PRIORITY;
    var last, lastTwo, lastThree := table[3..], table[2..], table[1..];
    assert last[1..] == [] && lastTwo[1..] == last && lastThree[1..] == lastTwo;
    assert FirstTarget(last, formats) == if QirAdaptiveString in formats then Some(table[3]) else None;
    assert FirstTarget(lastTwo, formats) == if QirBaseString in formats then Some(table[2]) else FirstTarget(last, formats);
    assert FirstTarget(lastThree, formats) == if Qasm2 in formats then Some(table[1]) else FirstTarget(lastTwo, formats);
  }

  /** What the labels of tasks stand for when submitted, label by label and format by
      format, and which labels the compiler takes. */
  lemma LabelMeanings(name: string, inputs: seq<string>)
    ensures MapTaskCircuitType(name) == IqmJson <==> name == "iqmjson"
    ensures MapTaskCircuitType(name) == Qasm2 <==> name in {"qasm", "qasm2"}
    ensures MapTaskCircuitType(name) == Qasm3 <==> name == "qasm3"
    ensures MapTaskCircuitType(name) == QirBaseString <==> name in {"qir", "qirbase", "quake", "catalyst"}
    ensures MapTaskCircuitType(name) == QirAdaptiveString <==> name == "qiradaptive"
    ensures MapTaskCircuitType(name) in {FormatUnspecified, IqmJson, Qasm2, Qasm3, QirBaseString, QirAdaptiveString}
    ensures IsCompilerInput(name, inputs) <==>
            (name == "quake" && "cudaq-quake" in inputs) || (name == "catalyst" && "catalyst-quantum" in inputs)
  {
  }

  /** Admission, spelled out: an unmodified task needs its own label's format to be known
      and listed; any other needs a compiler input and a format the compiler writes. */
  lemma AdmissionIsExact(t: QuantumTask, formats: seq<CircuitFormat>, inputs: seq<string>)
    ensures t.noModify ==>
              (CanPrepare(t, formats, inputs) <==>
                 MapTaskCircuitType(t.circuitFileType) != FormatUnspecified && MapTaskCircuitType(t.circuitFileType) in formats)
    ensures !t.noModify ==>
              (CanPrepare(t, formats, inputs) <==>
                 && IsCompilerInput(t.circuitFileType, inputs)
                 && (IqmJson in formats || Qasm2 in formats || QirBaseString in formats || QirAdaptiveString in formats))
  {
    ChosenTarget(formats);
  }

  /** include/qrmci/CircuitFormatPolicy.h documents the order without its first row: that
      order and the table's choose alike exactly for backends that do not list IQM JSON. */
  lemma DocumentedOrderHoldsWithoutIqmJson(formats: seq<CircuitFormat>)
    ensures FirstTarget(COMPILER_TARGET_PRIORITY, formats) == FirstTarget(COMPILER_TARGET_PRIORITY[1..], formats)
       <==> IqmJson !in formats
  {
    FirstTargetIsEarliest(COMPILER_TARGET_PRIORITY[1..], formats);
  }

  /** The chosen target's label maps back to the very format the backend listed, and the
      label is no compiler input. */
  lemma TargetLabelAgrees(formats: seq<CircuitFormat>, inputs: seq<string>)
    requires ChooseCompilerTarget(formats).Ok?
    ensures var target := ChooseCompilerTarget(formats).value;
            && target.circuitFormat in formats
            && MapTaskCircuitType(target.taskCircuitType) == target.circuitFormat
            && target.circuitFormat != FormatUnspecified
            && !IsCompilerInput(target.taskCircuitType, inputs)
  {
    FirstTargetIsEarliest(COMPILER_TARGET_PRIORITY, formats);
  }

  /** Only the set of known formats a backend lists decides admission: formats this
      build does not know, their order and their repetition never matter. */
  lemma AdmissionSeesKnownFormatsOnly(
    t: QuantumTask, a: seq<CircuitFormat>, b: seq<CircuitFormat>, inputs: seq<string>)
    requires forall f: CircuitFormat :: f != FormatUnspecified && !f.FormatUnknown? ==> (f in a <==> f in b)
    ensures CanPrepare(t, a, inputs) == CanPrepare(t, b, inputs)
    ensures ChooseCompilerTarget(a) == ChooseCompilerTarget(b)
  {
    FirstTargetSame(COMPILER_TARGET_PRIORITY, a, b);
  }

  lemma FirstTargetSame(table: seq<CompilerTarget>, a: seq<CircuitFormat>, b: seq<CircuitFormat>)
    requires forall i :: 0 <= i < |table| ==> (table[i].circuitFormat in a <==> table[i].circuitFormat in b)
    ensures FirstTarget(table, a) == FirstTarget(table, b)
  {
    if table != [] {
      assert forall i :: 0 <= i < |table[1..]| ==> table[1..][i] == table[i + 1];
      FirstTargetSame(table[1..], a, b);
    }
  }
}
