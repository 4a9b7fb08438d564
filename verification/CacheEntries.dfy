/** One stored outcome of a group, and when it may stand for a new execution.
    Source: task-maker-cache/src/entry.rs. */
module CacheEntries {
  import opened Dag

  datatype CacheEntryItem = CacheEntryItem(
    result: ExecutionResult,
    limits: ExecutionLimits,
    stdout: Option<FileKey>,
    stderr: Option<FileKey>,
    outputs: map<Path, FileKey>)

  datatype CacheEntry = CacheEntry(items: seq<CacheEntryItem>, extraTime: real, extraMemory: nat)

  function CapturedKey(behaviour: OutputBehaviour, fileKeys: map<FileId, FileKey>): Option<FileKey> {
    if behaviour.Capture? && behaviour.file in fileKeys then Some(fileKeys[behaviour.file]) else None
  }

  ghost predicate HasOutputFiles(e: Execution, fileKeys: map<FileId, FileKey>) {
    forall p :: p in e.outputFiles ==> e.outputFiles[p] in fileKeys
  }

  function ItemOf(e: Execution, fileKeys: map<FileId, FileKey>, result: ExecutionResult): CacheEntryItem
    requires HasOutputFiles(e, fileKeys)
  {
    CacheEntryItem(
      result, e.limits, CapturedKey(e.stdout, fileKeys), CapturedKey(e.stderr, fileKeys),
      map p | p in e.outputFiles :: fileKeys[e.outputFiles[p]])
  }

  ghost predicate Records(entry: CacheEntry, group: ExecutionGroup, fileKeys: map<FileId, FileKey>,
                          results: seq<ExecutionResult>)
    requires forall i :: 0 <= i < |group.executions| ==> HasOutputFiles(group.executions[i], fileKeys)
    requires |results| == |group.executions|
  {
    && |entry.items| == |group.executions|
    && (forall i :: 0 <= i < |entry.items| ==> entry.items[i] == ItemOf(group.executions[i], fileKeys, results[i]))
    && entry.extraTime == group.config.extraTime
    && entry.extraMemory == group.config.extraMemory
  }

  method EntryFromGroup(group: ExecutionGroup, fileKeys: map<FileId, FileKey>, results: seq<ExecutionResult>)
    returns (entry: CacheEntry)
    requires forall i :: 0 <= i < |group.executions| ==> HasOutputFiles(group.executions[i], fileKeys)
    requires |results| == |group.executions|
    ensures Records(entry, group, fileKeys, results)
  {
    var items := [];
    for i := 0 to |group.executions|
      invariant |items| == i
      invariant forall j :: 0 <= j < i ==> items[j] == ItemOf(group.executions[j], fileKeys, results[j])
    {
      items := items + [ItemOf(group.executions[i], fileKeys, results[i])];
    }
    entry := CacheEntry(items, group.config.extraTime, group.config.extraMemory);
  }

  predicate SameLimits(a: CacheEntry, b: CacheEntry) {
    |a.items| == |b.items| && forall i :: 0 <= i < |a.items| ==> a.items[i].limits == b.items[i].limits
  }

  // ---------------------------------------------------------------- the files of an entry

  // What the entry has for one captured stream; `None` when the file cannot be had.
  function Stored(key: Option<FileKey>, disk: set<FileKey>): Option<FileKey> {
    if key.Some? && key.value in disk then key else None
  }

  ghost predicate ItemPresent(e: Execution, item: CacheEntryItem, disk: set<FileKey>) {
    && (e.stdout.Capture? ==> Stored(item.stdout, disk).Some?)
    && (e.stderr.Capture? ==> Stored(item.stderr, disk).Some?)
    && (forall p :: p in e.outputFiles ==> p in item.outputs && item.outputs[p] in disk)
  }

  // The item stores `key` as the content of the file `f` of its execution.
  ghost predicate ItemStores(e: Execution, item: CacheEntryItem, f: FileId, key: FileKey) {
    || (e.stdout.Capture? && e.stdout.file == f && item.stdout == Some(key))
    || (e.stderr.Capture? && e.stderr.file == f && item.stderr == Some(key))
    || (exists p :: p in e.outputFiles && e.outputFiles[p] == f && p in item.outputs && item.outputs[p] == key)
  }

  ghost predicate Present(entry: CacheEntry, group: ExecutionGroup, disk: set<FileKey>) {
    forall i :: 0 <= i < |group.executions| && i < |entry.items| ==>
      ItemPresent(group.executions[i], entry.items[i], disk)
  }

  ghost predicate Stores(entry: CacheEntry, group: ExecutionGroup, f: FileId, key: FileKey) {
    exists i :: 0 <= i < |group.executions| && i < |entry.items|
      && ItemStores(group.executions[i], entry.items[i], f, key)
  }

  // Take the output files of one execution; `ok` is false as soon as one of them is gone.
  method ItemOutputs(e: Execution, item: CacheEntryItem, disk: set<FileKey>)
    returns (ok: bool, outputs: map<FileId, FileKey>)
    ensures ok <==> ItemPresent(e, item, disk)
    ensures ok ==> outputs.Keys == e.Writes()
    ensures ok ==> forall f :: f in outputs ==> ItemStores(e, item, f, outputs[f])
  {
    ok, outputs := false, map[];
    if e.stdout.Capture? {
      if Stored(item.stdout, disk).None? {
        return;
      }
      outputs := outputs[e.stdout.file := item.stdout.value];
    }
    if e.stderr.Capture? {
      if Stored(item.stderr, disk).None? {
        return;
      }
      outputs := outputs[e.stderr.file := item.stderr.value];
    }
    ghost var streams := outputs.Keys;
    var paths := e.outputFiles.Keys;
    while paths != {}
      invariant paths <= e.outputFiles.Keys
      invariant forall p :: p in e.outputFiles && p !in paths ==> p in item.outputs && item.outputs[p] in disk
      invariant outputs.Keys == streams + set p | p in e.outputFiles.Keys - paths :: e.outputFiles[p]
      invariant forall f :: f in outputs ==> ItemStores(e, item, f, outputs[f])
      decreases paths
    {
      var path :| path in paths;
      if path !in item.outputs || item.outputs[path] !in disk {
        return;
      }
      outputs := outputs[e.outputFiles[path] := item.outputs[path]];
      paths := paths - {path};
    }
    ok := true;
  }

  // The files written by the first `n` executions.
  ghost function WritesUpTo(group: ExecutionGroup, n: nat): set<FileId> {
    set i, f | 0 <= i < n && i < |group.executions| && f in group.executions[i].Writes() :: f
  }

  /** The handles of all the output files of the group, or `None` when the entry
      lacks one or the store does. */
  method EntryOutputs(entry: CacheEntry, disk: set<FileKey>,
                      group: ExecutionGroup) returns (r: Option<map<FileId, FileKey>>)
    ensures r.Some? <==> Present(entry, group, disk)
    ensures r.Some? ==> r.value.Keys == WritesUpTo(group, |entry.items|)
    ensures r.Some? ==> forall f :: f in r.value ==> Stores(entry, group, f, r.value[f])
  {
    var outputs: map<FileId, FileKey> := map[];
    var n := if |group.executions| <= |entry.items| then |group.executions| else |entry.items|;
    for i := 0 to n
      invariant forall j :: 0 <= j < i ==> ItemPresent(group.executions[j], entry.items[j], disk)
      invariant outputs.Keys == WritesUpTo(group, i)
      invariant forall f :: f in outputs ==> Stores(entry, group, f, outputs[f])
    {
      var ok, produced := ItemOutputs(group.executions[i], entry.items[i], disk);
      if !ok {
        return None;
      }
      forall f | f in produced ensures Stores(entry, group, f, produced[f]) {
        assert ItemStores(group.executions[i], entry.items[i], f, produced[f]);
      }
      WritesStep(group, i);
      outputs := outputs + produced;
    }
    return Some(outputs);
  }

  lemma WritesStep(group: ExecutionGroup, i: nat)
    requires i < |group.executions|
    ensures WritesUpTo(group, i + 1) == WritesUpTo(group, i) + group.executions[i].Writes()
  {
  }

  // ---------------------------------------------------------------- compatible limits

  // left + extra <= right, where None is no limit at all.
  predicate AtMost(left: Option<real>, right: Option<real>, extra: real) {
    right.None? || (left.Some? && left.value + extra <= right.value)
  }

  predicate AtMostInt(left: Option<nat>, right: Option<nat>, extra: int) {
    right.None? || (left.Some? && left.value + extra <= right.value)
  }

  function DirSet(dirs: seq<Path>): set<Path> {
    set d | d in dirs
  }

  // `left` is not less restrictive than `right`.
  predicate NotLooser(left: ExecutionLimits, right: ExecutionLimits, extraTime: real, extraMemory: int) {
    && AtMost(left.cpuTime, right.cpuTime, extraTime)
    && AtMost(left.sysTime, right.sysTime, extraTime)
    && AtMost(left.wallTime, right.wallTime, extraTime)
    && AtMostInt(left.memory, right.memory, extraMemory)
    && AtMostInt(left.nofile, right.nofile, 0)
    && AtMostInt(left.fsize, right.fsize, 0)
    && AtMostInt(left.memlock, right.memlock, 0)
    && AtMostInt(left.stack, right.stack, 0)
    && (left.allowMultiprocess ==> right.allowMultiprocess)
    && (right.readOnly ==> left.readOnly)
    && (left.mountTmpfs ==> right.mountTmpfs)
    && !(DirSet(right.extraReadableDirs) < DirSet(left.extraReadableDirs))
  }

  predicate ItemCompatible(item: CacheEntryItem, e: Execution, extraTime: real, extraMemory: int) {
    if item.result.status.Success?
    then NotLooser(item.limits, e.limits, extraTime, extraMemory)
    else NotLooser(e.limits, item.limits, -extraTime, -extraMemory)
  }

  /** The entry may answer for the group: a success needs limits at least as
      loose as the ones it was obtained under, a failure at least as tight. */
  predicate IsCompatible(entry: CacheEntry, group: ExecutionGroup) {
    forall i :: 0 <= i < |group.executions| && i < |entry.items| ==>
      ItemCompatible(entry.items[i], group.executions[i],
        entry.extraTime - group.config.extraTime, entry.extraMemory - group.config.extraMemory)
  }

  // The status was computed by `Execution.Status` under the limits of the item.
  ghost predicate StoredByStatus(item: CacheEntryItem) {
    exists e: Execution, raw: ExecutionStatus ::
      e.limits == item.limits && item.result.status == e.Status(raw, item.result.resources)
  }

  /** Reporting a cached execution recomputes its status under the new limits.
      When the extra time and memory of the entry are not below those of the
      query, it is a success exactly when the cached one was. */
  lemma HitPreservesOutcome(item: CacheEntryItem, e: Execution, extraTime: real, extraMemory: int)
    requires StoredByStatus(item)
    requires extraTime >= 0.0 && extraMemory >= 0
    requires ItemCompatible(item, e, extraTime, extraMemory)
    ensures e.Status(item.result.status, item.result.resources).Success? <==> item.result.status.Success?
  {
    if item.result.status.Success? {
      var stored: Execution, raw: ExecutionStatus :|
        stored.limits == item.limits && item.result.status == stored.Status(raw, item.result.resources);
      assert WithinLimits(item.result.resources, item.limits);
    }
  }

  ghost predicate OutcomePreserved(extraTime: real, extraMemory: int) {
    forall item, e :: StoredByStatus(item) && ItemCompatible(item, e, extraTime, extraMemory) ==>
      (e.Status(item.result.status, item.result.resources).Success? <==> item.result.status.Success?)
  }

  function OnlyLimits(time: Option<real>, memory: Option<nat>): ExecutionLimits {
    ExecutionLimits(time, None, None, memory, false, None, None, None, None, false, false, false, [], false)
  }

  function Limited(limits: ExecutionLimits): Execution {
    Execution(System(""), [], NoInput, NoOutput, NoOutput, map[], map[], map[], [], limits)
  }

  // An entry whose extra time is smaller than that of the query can be a hit that turns a success into a failure.
  lemma SmallerExtraTimeBreaks(extraTime: real, extraMemory: int)
    requires extraTime < 0.0
    ensures !OutcomePreserved(extraTime, extraMemory)
  {
    var d := -extraTime;
    var result := ExecutionResult(Success, false, false, ResourcesUsage(d, 0.0, 0.0, 0));
    var item := CacheEntryItem(result, OnlyLimits(Some(d), None), None, None, map[]);
    var e := Limited(OnlyLimits(Some(0.0), None));
    assert Limited(item.limits).Status(Success, result.resources) == Success;
    assert StoredByStatus(item);
    assert ItemCompatible(item, e, extraTime, extraMemory);
    assert !e.Status(item.result.status, item.result.resources).Success?;
  }

  lemma SmallerExtraMemoryBreaks(extraTime: real, extraMemory: int)
    requires extraMemory < 0
    ensures !OutcomePreserved(extraTime, extraMemory)
  {
    var d: nat := -extraMemory;
    var result := ExecutionResult(Success, false, false, ResourcesUsage(0.0, 0.0, 0.0, d));
    var item := CacheEntryItem(result, OnlyLimits(None, Some(d)), None, None, map[]);
    var e := Limited(OnlyLimits(None, Some(0)));
    assert Limited(item.limits).Status(Success, result.resources) == Success;
    assert StoredByStatus(item);
    assert ItemCompatible(item, e, extraTime, extraMemory);
    assert !e.Status(item.result.status, item.result.resources).Success?;
  }

  /** Every compatible entry keeps its outcome exactly when the entry was stored
      with extra time and memory not below those of the query. */
  lemma OutcomePreservedExactly(extraTime: real, extraMemory: int)
    ensures OutcomePreserved(extraTime, extraMemory) <==> extraTime >= 0.0 && extraMemory >= 0
  {
    if extraTime < 0.0 {
      SmallerExtraTimeBreaks(extraTime, extraMemory);
    } else if extraMemory < 0 {
      SmallerExtraMemoryBreaks(extraTime, extraMemory);
    } else {
      forall item, e | StoredByStatus(item) && ItemCompatible(item, e, extraTime, extraMemory)
        ensures e.Status(item.result.status, item.result.resources).Success? <==> item.result.status.Success?
      {
        HitPreservesOutcome(item, e, extraTime, extraMemory);
      }
    }
  }

  // An entry just recorded is compatible with its own group and has exactly the keys it was given.
  lemma RecordedIsCompatible(entry: CacheEntry, group: ExecutionGroup, fileKeys: map<FileId, FileKey>,
                             results: seq<ExecutionResult>)
    requires forall i :: 0 <= i < |group.executions| ==> HasOutputFiles(group.executions[i], fileKeys)
    requires |results| == |group.executions|
    requires Records(entry, group, fileKeys, results)
    ensures IsCompatible(entry, group)
  {
  }

  lemma RecordedIsPresent(entry: CacheEntry, group: ExecutionGroup, fileKeys: map<FileId, FileKey>,
                          results: seq<ExecutionResult>, disk: set<FileKey>)
    requires forall i :: 0 <= i < |group.executions| ==> HasOutputFiles(group.executions[i], fileKeys)
    requires |results| == |group.executions|
    requires Records(entry, group, fileKeys, results)
    requires forall f :: f in Outs(group) ==> f in fileKeys && fileKeys[f] in disk
    ensures Present(entry, group, disk)
  {
    forall i | 0 <= i < |group.executions| ensures ItemPresent(group.executions[i], entry.items[i], disk) {
      var e := group.executions[i];
      assert forall f :: f in e.Writes() ==> f in Outs(group);
      assert entry.items[i] == ItemOf(e, fileKeys, results[i]);
      assert forall p :: p in e.outputFiles ==> e.outputFiles[p] in e.Writes();
    }
  }
}
