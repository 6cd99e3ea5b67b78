/** src/Runners.cpp, compileQuantumTask. The compiler itself is an arbitrary function. */
module Compilation {
  import opened Protocol
  import opened FormatPolicy
  import opened Backends

  datatype OptLevel = O1 | O2 | O3

  datatype CompileStep = Compiled(code: Source) | Refused | Threw

  type Compiler = (Source, Snapshot, OptLevel, ResultFormat) -> CompileStep

  function OptimizationLevel(level: int): Option<OptLevel> {
    if level == 0 || level == 1 then Some(O1)
    else if level == 2 then Some(O2)
    else if level == 3 then Some(O3)
    else None
  }

  /** What the loop makes of circuit `i`: an empty one never reaches the compiler, and
      only an exception leaves the index unnamed. */
  function Attempt(files: seq<Source>, i: nat, compile: Source -> CompileStep): Result<Source>
    requires i < |files|
  {
    if files[i] == [] then Err(Error(CompilationFailed, Some(i)))
    else match compile(files[i])
      case Compiled(code) => Ok(code)
      case Refused => Err(Error(CompilationFailed, Some(i)))
      case Threw => Err(Error(CompilationFailed, None))
  }

  /** The staging vector: circuits `i..` compiled in order, or the first failure. */
  function CompileFrom(files: seq<Source>, i: nat, compile: Source -> CompileStep): Result<seq<Source>>
    requires i <= |files|
    decreases |files| - i
  {
    if i == |files| then Ok([])
    else match Attempt(files, i, compile)
      case Err(e) => Err(e)
      case Ok(code) =>
        match CompileFrom(files, i + 1, compile)
        case Err(e) => Err(e)
        case Ok(rest) => Ok([code] + rest)
  }

  function CompileTask(t: QuantumTask, b: Snapshot, inputs: seq<string>, compiler: Compiler): Result<QuantumTask> {
    if t.noModify then Ok(t)
    else if !IsCompilerInput(t.circuitFileType, inputs) then Err(Error(UnsupportedFormat, None))
    else match ChooseCompilerTarget(b.supportedCircuitFormats)
      case Err(e) => Err(e)
      case Ok(target) =>
        match OptimizationLevel(t.optimisationLevel)
        case None => Err(Error(CompilationFailed, None))
        case Some(level) =>
          match CompileFrom(t.circuitFiles, 0, src => compiler(src, b, level, target.compilerFormat))
          case Err(e) => Err(e)
          case Ok(code) => Ok(t.(circuitFiles := code, circuitFileType := target.taskCircuitType))
  }

  /** A task held by reference, as every stage receives it. */
  class TaskRef {
    var value: QuantumTask

    constructor (t: QuantumTask)
      ensures value == t
    {
      value := t;
    }
  }

  /** All or nothing: a failure leaves the referenced task as it was. */
  method CompileQuantumTask(task: TaskRef, b: Snapshot, inputs: seq<string>, compiler: Compiler)
    returns (failure: Option<Error>)
    modifies task
    ensures match CompileTask(old(task.value), b, inputs, compiler)
            case Ok(t) => failure == None && task.value == t
            case Err(e) => failure == Some(e) && task.value == old(task.value)
  {
    hide IsCompilerInput, ChooseCompilerTarget, CompileFrom;
    if task.value.noModify {
      return None;
    }
    if !IsCompilerInput(task.value.circuitFileType, inputs) {
      return Some(Error(UnsupportedFormat, None));
    }
    var target := ChooseCompilerTarget(b.supportedCircuitFormats);
    if target.Err? {
      return Some(target.error);
    }
    var level := OptimizationLevel(task.value.optimisationLevel);
    if level.None? {
      return Some(Error(CompilationFailed, None));
    }
    var call := src => compiler(src, b, level.value, target.value.compilerFormat);
    var files := task.value.circuitFiles;
    var compiled := CompileStaged(files, call);
    if compiled.Err? {
      return Some(compiled.error);
    }
    CompileFromSize(files, 0, call);
    ReplaceCircuits(task, compiled.value);
    task.value := task.value.(circuitFileType := target.value.taskCircuitType);
    failure := None;
  }

  /** Only once everything compiled are the circuits overwritten, one by one. */
  method ReplaceCircuits(task: TaskRef, compiled: seq<Source>)
    requires |compiled| == |task.value.circuitFiles|
    modifies task
    ensures task.value == old(task.value).(circuitFiles := compiled)
  {
    ghost var before := task.value;
    for i := 0 to |compiled|
      invariant |task.value.circuitFiles| == |compiled|
      invariant task.value == before.(circuitFiles := Overwritten(compiled, before.circuitFiles, i))
    {
      Overwrite(compiled, before.circuitFiles, i);
      task.value := task.value.(circuitFiles := task.value.circuitFiles[i := compiled[i]]);
    }
  }

  /** The first `i` circuits compiled, the rest still original. */
  ghost function Overwritten(compiled: seq<Source>, files: seq<Source>, i: nat): (r: seq<Source>)
    requires i <= |compiled| == |files|
    ensures i == 0 ==> r == files
    ensures i == |files| ==> r == compiled
  {
    compiled[..i] + files[i..]
  }

  lemma Overwrite(compiled: seq<Source>, files: seq<Source>, i: nat)
    requires i < |compiled| == |files|
    ensures |Overwritten(compiled, files, i)| == |files|
    ensures Overwritten(compiled, files, i)[i := compiled[i]] == Overwritten(compiled, files, i + 1)
  {
  }

  /** The compile loop over the staging vector. */
  method CompileStaged(files: seq<Source>, call: Source -> CompileStep) returns (r: Result<seq<Source>>)
    ensures r == CompileFrom(files, 0, call)
  {
    var staged: seq<Source> := [];
    assert forall rest: seq<Source> :: [] + rest == rest;
    for i := 0 to |files|
      invariant |staged| == i
      invariant CompileFrom(files, 0, call) == match CompileFrom(files, i, call)
                                               case Ok(rest) => Ok(staged + rest)
                                               case Err(e) => Err(e)
    {
      if files[i] == [] {
        return Err(Error(CompilationFailed, Some(i)));
      }
      match call(files[i]) {
        case Refused => return Err(Error(CompilationFailed, Some(i)));
        case Threw => return Err(Error(CompilationFailed, None));
        case Compiled(code) =>
          assert forall rest: seq<Source> :: staged + ([code] + rest) == (staged + [code]) + rest;
          staged := staged + [code];
      }
    }
    assert staged + [] == staged;
    return Ok(staged);
  }

  lemma CompileFromSize(files: seq<Source>, i: nat, compile: Source -> CompileStep)
    requires i <= |files|
    ensures CompileFrom(files, i, compile).Ok? ==> |CompileFrom(files, i, compile).value| == |files| - i
    decreases |files| - i
  {
    if i < |files| {
      CompileFromSize(files, i + 1, compile);
    }
  }

  /** How circuit `k` fails to compile, and what is said of it: an empty or refused circuit is
      named by its index, an exception is not. */
  predicate FailsAt(files: seq<Source>, k: nat, compile: Source -> CompileStep, e: Error) {
    && k < |files|
    && e == Error(CompilationFailed, if files[k] != [] && compile(files[k]) == Threw then None else Some(k))
    && (files[k] == [] || !compile(files[k]).Compiled?)
  }

  /** `code`, which starts with circuit `i`, holds the compiler's code for circuit `j`. */
  predicate CompilesTo(files: seq<Source>, i: nat, code: seq<Source>, j: nat, compile: Source -> CompileStep) {
    i <= j < |files| && j - i < |code| && files[j] != [] && compile(files[j]) == Compiled(code[j - i])
  }

  /** Success compiles every circuit into its own place; failure reports the first
      circuit that fails, everything before it having compiled. */
  lemma {:induction false} CompilesEachOrFirstFailure(files: seq<Source>, i: nat, compile: Source -> CompileStep)
    requires i <= |files|
    ensures match CompileFrom(files, i, compile)
            case Ok(code) =>
              |code| == |files| - i && forall j :: i <= j < |files| ==> CompilesTo(files, i, code, j, compile)
            case Err(e) =>
              exists k :: i <= k < |files| && FailsAt(files, k, compile, e) &&
                forall j :: i <= j < k ==> files[j] != [] && compile(files[j]).Compiled?
    decreases |files| - i
  {
    if i < |files| {
      if Attempt(files, i, compile).Ok? {
        CompilesEachOrFirstFailure(files, i + 1, compile);
        var rest := CompileFrom(files, i + 1, compile);
        if rest.Ok? {
          var code := CompileFrom(files, i, compile).value;
          forall j | i <= j < |files| ensures CompilesTo(files, i, code, j, compile) {
            assert j > i ==> CompilesTo(files, i + 1, rest.value, j, compile);
          }
        }
      } else {
        assert FailsAt(files, i, compile, Attempt(files, i, compile).error);
      }
    }
  }

  /** The level the compiler is run at for the levels 0 to 3 a task may ask for. */
  predicate RunsAt(asked: int, level: OptLevel) {
    (0 <= asked <= 1 && level == O1) || (asked == 2 && level == O2) || (asked == 3 && level == O3)
  }

  /** What compilation makes of a task. An unmodified one stays as it is. Any other comes out
      with circuit i replaced by the compiler's code for circuit i, for this backend, at the
      level asked for and in the target's format, under the target's label, and with nothing
      else changed; or it fails on its format, on its level, or on its first bad circuit. */
  lemma CompilationIsExact(t: QuantumTask, b: Snapshot, inputs: seq<string>, compiler: Compiler)
    ensures t.noModify ==> CompileTask(t, b, inputs, compiler) == Ok(t)
    ensures !t.noModify ==>
              match CompileTask(t, b, inputs, compiler)
              case Ok(out) => exists level :: CompiledAt(t, b, inputs, compiler, level, out)
              case Err(e) =>
                if !CanPrepare(t, b.supportedCircuitFormats, inputs) then e == Error(UnsupportedFormat, None)
                else if t.optimisationLevel < 0 || t.optimisationLevel > 3 then e == Error(CompilationFailed, None)
                else exists level, k :: FailedAt(t, b, compiler, level, k, e)
  {
    if !t.noModify && CanPrepare(t, b.supportedCircuitFormats, inputs) && OptimizationLevel(t.optimisationLevel).Some? {
      var level := OptimizationLevel(t.optimisationLevel).value;
      var compile := CallsFor(b, compiler, level);
      CompilesEachOrFirstFailure(t.circuitFiles, 0, compile);
      match CompileTask(t, b, inputs, compiler)
      case Ok(out) =>
        forall i | 0 <= i < |t.circuitFiles|
          ensures t.circuitFiles[i] != [] && compile(t.circuitFiles[i]) == Compiled(out.circuitFiles[i])
        {
          assert CompilesTo(t.circuitFiles, 0, out.circuitFiles, i, compile);
        }
        assert CompiledAt(t, b, inputs, compiler, level, out);
      case Err(e) =>
        var k :| 0 <= k < |t.circuitFiles| && FailsAt(t.circuitFiles, k, compile, e) &&
          forall j :: 0 <= j < k ==> t.circuitFiles[j] != [] && compile(t.circuitFiles[j]).Compiled?;
        assert FailedAt(t, b, compiler, level, k, e);
    }
  }

  /** The compiler as called for one backend at one level. */
  function CallsFor(b: Snapshot, compiler: Compiler, level: OptLevel): Source -> CompileStep
    requires ChooseCompilerTarget(b.supportedCircuitFormats).Ok?
  {
    var target := ChooseCompilerTarget(b.supportedCircuitFormats).value;
    src => compiler(src, b, level, target.compilerFormat)
  }

  ghost predicate CompiledAt(
    t: QuantumTask, b: Snapshot, inputs: seq<string>, compiler: Compiler, level: OptLevel, out: QuantumTask)
  {
    && RunsAt(t.optimisationLevel, level) && CanPrepare(t, b.supportedCircuitFormats, inputs)
    && ChooseCompilerTarget(b.supportedCircuitFormats).Ok?
    && var target := ChooseCompilerTarget(b.supportedCircuitFormats).value;
       && out.circuitFileType == target.taskCircuitType && |out.circuitFiles| == |t.circuitFiles|
       && out == t.(circuitFiles := out.circuitFiles, circuitFileType := out.circuitFileType)
       && forall i :: 0 <= i < |t.circuitFiles| ==>
            t.circuitFiles[i] != [] &&
            compiler(t.circuitFiles[i], b, level, target.compilerFormat) == Compiled(out.circuitFiles[i])
  }

  ghost predicate FailedAt(t: QuantumTask, b: Snapshot, compiler: Compiler, level: OptLevel, k: int, e: Error) {
    && RunsAt(t.optimisationLevel, level) && 0 <= k < |t.circuitFiles|
    && ChooseCompilerTarget(b.supportedCircuitFormats).Ok?
    && var compile := CallsFor(b, compiler, level);
       && FailsAt(t.circuitFiles, k, compile, e)
       && forall j :: 0 <= j < k ==> t.circuitFiles[j] != [] && compile(t.circuitFiles[j]).Compiled?
  }

  /** compileQuantumTask refuses a format exactly when admission would have refused it,
      and an admitted task that compiles is later submitted in a format the backend
      lists, whether it was compiled or passed through unmodified. */
  lemma AdmissionIsSound(t: QuantumTask, b: Snapshot, inputs: seq<string>, compiler: Compiler)
    ensures !t.noModify ==>
              (CompileTask(t, b, inputs, compiler) == Err(Error(UnsupportedFormat, None)) <==>
               !CanPrepare(t, b.supportedCircuitFormats, inputs))
    ensures CanRun(b, t, inputs) ==>
              match CompileTask(t, b, inputs, compiler)
              case Err(e) => e.kind == CompilationFailed
              case Ok(out) =>
                MapTaskCircuitType(out.circuitFileType) != FormatUnspecified &&
                MapTaskCircuitType(out.circuitFileType) in b.supportedCircuitFormats
  {
    if !t.noModify && CanPrepare(t, b.supportedCircuitFormats, inputs) {
      TargetLabelAgrees(b.supportedCircuitFormats, inputs);
      var target := ChooseCompilerTarget(b.supportedCircuitFormats).value;
      var level := OptimizationLevel(t.optimisationLevel);
      if level.Some? {
        CompilesEachOrFirstFailure(t.circuitFiles, 0, src => compiler(src, b, level.value, target.compilerFormat));
      }
    }
  }

  /** No task is compiled twice, for whatever backend and compiler come second. */
  lemma NeverCompiledTwice(
    t: QuantumTask, b: Snapshot, inputs: seq<string>, compiler: Compiler,
    b': Snapshot, inputs': seq<string>, compiler': Compiler)
    requires !t.noModify && CompileTask(t, b, inputs, compiler).Ok?
    ensures CompileTask(CompileTask(t, b, inputs, compiler).value, b', inputs', compiler')
         == Err(Error(UnsupportedFormat, None))
  {
    TargetLabelAgrees(b.supportedCircuitFormats, inputs');
  }

  /** Compilation touches circuits and type label only, and keeps their number. */
  lemma CompilationKeepsIdentity(t: QuantumTask, b: Snapshot, inputs: seq<string>, compiler: Compiler)
    ensures match CompileTask(t, b, inputs, compiler)
            case Err(_) => true
            case Ok(out) =>
              Identity(out) == Identity(t) && out.scheduledQpu == t.scheduledQpu &&
              |out.circuitFiles| == |t.circuitFiles|
  {
    var target := ChooseCompilerTarget(b.supportedCircuitFormats);
    var level := OptimizationLevel(t.optimisationLevel);
    if target.Ok? && level.Some? {
      CompileFromSize(t.circuitFiles, 0, src => compiler(src, b, level.value, target.value.compilerFormat));
    }
  }

  lemma CompileErrorKinds(t: QuantumTask, b: Snapshot, inputs: seq<string>, compiler: Compiler)
    ensures match CompileTask(t, b, inputs, compiler)
            case Ok(_) => true
            case Err(e) => e.kind == UnsupportedFormat || e.kind == CompilationFailed
  {
    var target := ChooseCompilerTarget(b.supportedCircuitFormats);
    var level := OptimizationLevel(t.optimisationLevel);
    if target.Ok? && level.Some? {
      CompilesEachOrFirstFailure(t.circuitFiles, 0, src => compiler(src, b, level.value, target.value.compilerFormat));
    }
  }
}
