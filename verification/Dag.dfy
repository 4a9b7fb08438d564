/** The data a client sends for evaluation: executions, the groups they form,
    and the status an execution is given under its limits.
    Source: task-maker-dag/src/execution.rs, execution_group.rs, dag.rs. */
module Dag {

  datatype Option<+T> = None | Some(value: T)

  // Identifiers and content hashes: all that matters is that they can be compared.
  type FileId = nat
  type GroupId = nat
  type ClientId = nat
  type WorkerId = nat
  type FileKey = nat
  type Path = string
  // The text form of the uuid of a FIFO.
  type FifoId = string

  const HIGH_PRIORITY: int := 1_000_000_000_000
  const FIFO_SANDBOX_DIR: string := "tm_pipes"

  datatype Command =
    | System(path: Path)
    | Local(path: Path)
    | TypstCompilation(inputs: seq<(string, string)>)

  datatype InputBehaviour = FromFile(file: FileId) | FromPath(path: Path) | NoInput | InheritInput

  datatype OutputBehaviour =
    | Capture(file: FileId, sizeLimit: Option<nat>)
    | ToPath(path: Path)
    | NoOutput
    | InheritOutput

  datatype ExecutionInput = ExecutionInput(file: FileId, executable: bool)

  datatype ExecutionLimits = ExecutionLimits(
    cpuTime: Option<real>,
    sysTime: Option<real>,
    wallTime: Option<real>,
    memory: Option<nat>,
    allowMultiprocess: bool,
    nofile: Option<nat>,
    fsize: Option<nat>,
    memlock: Option<nat>,
    stack: Option<nat>,
    readOnly: bool,
    mountTmpfs: bool,
    mountProc: bool,
    extraReadableDirs: seq<Path>,
    permissive: bool)

  datatype ExecutionStatus =
    | Success
    | Failure(message: string)
    | ReturnCode(code: nat)
    | Signal(signal: nat, name: string)
    | TimeLimitExceeded
    | SysTimeLimitExceeded
    | WallTimeLimitExceeded
    | MemoryLimitExceeded
    | InternalError(message: string)

  datatype ResourcesUsage = ResourcesUsage(cpuTime: real, sysTime: real, wallTime: real, memory: nat)

  datatype ExecutionResult = ExecutionResult(
    status: ExecutionStatus,
    wasKilled: bool,
    wasCached: bool,
    resources: ResourcesUsage)

  predicate AllSuccess(results: seq<ExecutionResult>) {
    forall i :: 0 <= i < |results| ==> results[i].status.Success?
  }

  predicate AnyInternalError(results: seq<ExecutionResult>) {
    exists i :: 0 <= i < |results| && results[i].status.InternalError?
  }

  datatype Execution = Execution(
    command: Command,
    args: seq<string>,
    stdin: InputBehaviour,
    stdout: OutputBehaviour,
    stderr: OutputBehaviour,
    inputFiles: map<Path, ExecutionInput>,
    outputFiles: map<Path, FileId>,
    env: map<string, string>,
    copyEnv: seq<string>,
    limits: ExecutionLimits)
  {
    /** The status to report for a process that ended with `status`: the limits
        are looked at first, in a fixed order, because exceeding one of them may
        itself be what killed the process. */
    function Status(status: ExecutionStatus, used: ResourcesUsage): (r: ExecutionStatus)
      ensures StatusCalledFor(status, used, limits, r)
      ensures r.Success? <==> status.Success? && WithinLimits(used, limits)
    {
      if limits.cpuTime.Some? && used.cpuTime > limits.cpuTime.value then TimeLimitExceeded
      else if limits.sysTime.Some? && used.sysTime > limits.sysTime.value then SysTimeLimitExceeded
      else if limits.wallTime.Some? && used.wallTime > limits.wallTime.value then WallTimeLimitExceeded
      else if limits.memory.Some? && used.memory > limits.memory.value then MemoryLimitExceeded
      else status
    }

    function InputIds(): map<Path, FileId> {
      map p | p in inputFiles :: inputFiles[p].file
    }

    ghost function Reads(): set<FileId> {
      (set p | p in inputFiles :: inputFiles[p].file) + (if stdin.FromFile? then {stdin.file} else {})
    }

    ghost function Writes(): set<FileId> {
      (set p | p in outputFiles :: outputFiles[p])
      + (if stdout.Capture? then {stdout.file} else {})
      + (if stderr.Capture? then {stderr.file} else {})
    }

    // How many times `f` is listed as an input.
    ghost function ReadCount(f: FileId): nat {
      CountPaths(InputIds(), inputFiles.Keys, f) + (if stdin == FromFile(f) then 1 else 0)
    }

    ghost function WriteCount(f: FileId): nat {
      CountPaths(outputFiles, outputFiles.Keys, f)
      + (if stdout.Capture? && stdout.file == f then 1 else 0)
      + (if stderr.Capture? && stderr.file == f then 1 else 0)
    }

    lemma ReadsCounted(f: FileId)
      ensures ReadCount(f) > 0 <==> f in Reads()
    {
      CountPositive(InputIds(), f);
      assert forall p :: p in inputFiles ==> InputIds()[p] == inputFiles[p].file;
      assert InputIds().Keys == inputFiles.Keys;
    }

    lemma WritesCounted(f: FileId)
      ensures WriteCount(f) > 0 <==> f in Writes()
    {
      CountPositive(outputFiles, f);
    }
  }

  /** The values of a hash map, in whatever order it yields them. */
  method Values(files: map<Path, FileId>) returns (values: seq<FileId>)
    ensures forall f :: multiset(values)[f] == CountPaths(files, files.Keys, f)
  {
    values := [];
    var paths, done := files.Keys, {};
    while paths != {}
      invariant paths !! done && paths + done == files.Keys
      invariant forall f :: multiset(values)[f] == CountPaths(files, done, f)
      decreases paths
    {
      var path :| path in paths;
      forall f { CountStep(files, done, path, f); }
      values := values + [files[path]];
      paths, done := paths - {path}, done + {path};
    }
    assert done == files.Keys;
  }

  ghost predicate WithinLimits(used: ResourcesUsage, limits: ExecutionLimits) {
    && (limits.cpuTime.Some? ==> used.cpuTime <= limits.cpuTime.value)
    && (limits.sysTime.Some? ==> used.sysTime <= limits.sysTime.value)
    && (limits.wallTime.Some? ==> used.wallTime <= limits.wallTime.value)
    && (limits.memory.Some? ==> used.memory <= limits.memory.value)
  }

  ghost predicate Over(limit: Option<real>, used: real) {
    limit.Some? && used > limit.value
  }

  /** The status that is reported for a process: the first of the limits that
      was exceeded, in this order, and what the process ended with if none was. */
  ghost predicate StatusCalledFor(status: ExecutionStatus, used: ResourcesUsage, limits: ExecutionLimits, r: ExecutionStatus) {
    var cpu, sys, wall := Over(limits.cpuTime, used.cpuTime), Over(limits.sysTime, used.sysTime), Over(limits.wallTime, used.wallTime);
    && (cpu ==> r == TimeLimitExceeded)
    && (!cpu && sys ==> r == SysTimeLimitExceeded)
    && (!cpu && !sys && wall ==> r == WallTimeLimitExceeded)
    && (!cpu && !sys && !wall && limits.memory.Some? && used.memory > limits.memory.value ==> r == MemoryLimitExceeded)
    && (WithinLimits(used, limits) ==> r == status)
  }

  datatype CacheMode = Everything | Nothing | Except(tags: set<string>)

  datatype DagConfig = DagConfig(priority: int, cacheMode: CacheMode, extraTime: real, extraMemory: nat)

  // The first execution of a group with a controller decides when the second one is started.
  datatype ControllerSettings = ControllerSettings(processLimit: nat, concurrent: bool)

  datatype ExecutionGroup = ExecutionGroup(
    uuid: GroupId,
    executions: seq<Execution>,
    fifo: seq<FifoId>,
    config: DagConfig,
    tag: Option<string>,
    priority: int,
    controller: Option<ControllerSettings>)
  {
    /** The dependencies of the group, repetitions included; the files of one
        execution come in an arbitrary order because they sit in a hash map. */
    method Dependencies() returns (deps: seq<FileId>)
      ensures forall f :: multiset(deps)[f] == TotalReads(executions, f)
      ensures forall f :: f in deps <==> f in Deps(this)
    {
      deps := [];
      for i := 0 to |executions|
        invariant forall f :: multiset(deps)[f] == TotalReads(executions[..i], f)
      {
        var exec := executions[i];
        var stdin := if exec.stdin.FromFile? then [exec.stdin.file] else [];
        var inputs := Values(exec.InputIds());
        assert exec.InputIds().Keys == exec.inputFiles.Keys;
        deps := deps + stdin + inputs;
        assert executions[..i + 1][..i] == executions[..i];
      }
      assert executions[..|executions|] == executions;
      forall f ensures f in deps <==> f in Deps(this) { ReadsCounted(executions, f); }
    }

    /** The files the group produces, stdout and stderr included. */
    method Outputs() returns (outs: seq<FileId>)
      ensures forall f :: multiset(outs)[f] == TotalWrites(executions, f)
      ensures forall f :: f in outs <==> f in Outs(this)
    {
      hide Execution.WriteCount, Execution.Writes;
      outs := [];
      for i := 0 to |executions|
        invariant forall f :: multiset(outs)[f] == TotalWrites(executions[..i], f)
      {
        var files := WrittenBy(executions[i]);
        outs := outs + files;
        assert executions[..i + 1][..i] == executions[..i];
      }
      assert executions[..|executions|] == executions;
      forall f ensures f in outs <==> f in Outs(this) { WritesCounted(executions, f); }
    }
  }

  // The files one execution produces.
  method WrittenBy(exec: Execution) returns (files: seq<FileId>)
    ensures forall f :: multiset(files)[f] == exec.WriteCount(f)
  {
    hide CountPaths;
    var stdout := if exec.stdout.Capture? then [exec.stdout.file] else [];
    var stderr := if exec.stderr.Capture? then [exec.stderr.file] else [];
    var rest := Values(exec.outputFiles);
    files := stdout + stderr + rest;
  }

  // How many of the paths `within` are mapped to `f`.
  ghost function CountPaths(files: map<Path, FileId>, within: set<Path>, f: FileId): nat {
    |set p | p in within && p in files && files[p] == f|
  }

  lemma CountPositive(files: map<Path, FileId>, f: FileId)
    ensures CountPaths(files, files.Keys, f) > 0 <==> exists p :: p in files && files[p] == f
  {
    var counted := set p | p in files.Keys && p in files && files[p] == f;
    if exists p :: p in files && files[p] == f {
      var p :| p in files && files[p] == f;
      assert p in counted;
    } else {
      assert counted == {};
    }
  }

  lemma CountStep(files: map<Path, FileId>, done: set<Path>, path: Path, f: FileId)
    requires path in files && path !in done
    ensures CountPaths(files, done + {path}, f) == CountPaths(files, done, f) + (if files[path] == f then 1 else 0)
  {
    var counted := set p | p in done && p in files && files[p] == f;
    var extended := set p | p in done + {path} && p in files && files[p] == f;
    assert extended == if files[path] == f then counted + {path} else counted;
  }

  ghost function TotalReads(executions: seq<Execution>, f: FileId): nat {
    if executions == [] then 0
    else TotalReads(executions[..|executions| - 1], f) + executions[|executions| - 1].ReadCount(f)
  }

  ghost function TotalWrites(executions: seq<Execution>, f: FileId): nat {
    if executions == [] then 0
    else TotalWrites(executions[..|executions| - 1], f) + executions[|executions| - 1].WriteCount(f)
  }

  ghost function Deps(group: ExecutionGroup): set<FileId> {
    set i, f | 0 <= i < |group.executions| && f in group.executions[i].Reads() :: f
  }

  ghost function Outs(group: ExecutionGroup): set<FileId> {
    set i, f | 0 <= i < |group.executions| && f in group.executions[i].Writes() :: f
  }

  lemma ReadsCounted(executions: seq<Execution>, f: FileId)
    ensures TotalReads(executions, f) > 0 <==> exists i :: 0 <= i < |executions| && f in executions[i].Reads()
  {
    if executions != [] {
      var n := |executions| - 1;
      ReadsCounted(executions[..n], f);
      executions[n].ReadsCounted(f);
      assert forall i :: 0 <= i < n ==> executions[..n][i] == executions[i];
    }
  }

  lemma WritesCounted(executions: seq<Execution>, f: FileId)
    ensures TotalWrites(executions, f) > 0 <==> exists i :: 0 <= i < |executions| && f in executions[i].Writes()
  {
    if executions != [] {
      var n := |executions| - 1;
      WritesCounted(executions[..n], f);
      executions[n].WritesCounted(f);
      assert forall i :: 0 <= i < n ==> executions[..n][i] == executions[i];
    }
  }

  datatype DagData = DagData(providedFiles: set<FileId>, groups: map<GroupId, ExecutionGroup>, config: DagConfig)

  datatype WatchSet = WatchSet(executions: set<GroupId>, files: set<FileId>, urgentFiles: set<FileId>)
}
