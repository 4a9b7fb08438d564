/** Validation of the DAG sent by a client, before the scheduler sees it.
    Source: task-maker-exec/src/check_dag.rs. */
module CheckDag {
  import opened Dag

  datatype DagError =
    | MissingFile(file: FileId)
    | MissingExecution(exec: GroupId)
    | CycleDetected(group: GroupId)
    | DuplicateFile(file: FileId)
    | DuplicateFifo(fifo: FifoId)
    | DuplicateExecution(exec: GroupId)
    | EmptyGroup(group: GroupId)

  datatype Outcome = Pass | Fail(error: DagError)

  // ---------------------------------------------------------------- what a valid DAG is

  ghost predicate Distinct<T>(s: seq<T>) {
    forall i, j :: 0 <= i < j < |s| ==> s[i] != s[j]
  }

  ghost predicate SoundGroup(group: ExecutionGroup) {
    group.executions != [] && Distinct(group.fifo)
  }

  // Every file has one origin: one place in one group, or the client.
  ghost predicate UniqueFiles(dag: DagData) {
    && (forall g, f :: g in dag.groups ==> TotalWrites(dag.groups[g].executions, f) <= 1)
    && (forall g, h :: g in dag.groups && h in dag.groups && g != h ==> Outs(dag.groups[g]) !! Outs(dag.groups[h]))
    && (forall g :: g in dag.groups ==> Outs(dag.groups[g]) !! dag.providedFiles)
  }

  // The group writes the file twice, or another group or the client has it as well.
  ghost predicate HasTwoOrigins(dag: DagData, f: FileId) {
    || (exists g :: g in dag.groups && TotalWrites(dag.groups[g].executions, f) > 1)
    || (exists g, h :: g in dag.groups && h in dag.groups && g != h && f in Outs(dag.groups[g]) && f in Outs(dag.groups[h]))
    || (exists g :: g in dag.groups && f in Outs(dag.groups[g]) && f in dag.providedFiles)
  }

  ghost predicate UniqueExecutions(dag: DagData) {
    forall g, h :: g in dag.groups && h in dag.groups && dag.groups[g].uuid == dag.groups[h].uuid ==> g == h
  }

  ghost predicate Produced(dag: DagData, producers: seq<GroupId>, f: FileId) {
    exists j :: 0 <= j < |producers| && producers[j] in dag.groups && f in Outs(dag.groups[producers[j]])
  }

  ghost predicate Known(dag: DagData, f: FileId) {
    f in dag.providedFiles || exists g :: g in dag.groups && f in Outs(dag.groups[g])
  }

  // Every dependency of every listed group is provided or produced by a group listed before it.
  ghost predicate InOrder(dag: DagData, order: seq<GroupId>) {
    forall i, f :: 0 <= i < |order| && order[i] in dag.groups && f in Deps(dag.groups[order[i]]) ==>
      f in dag.providedFiles || Produced(dag, order[..i], f)
  }

  ghost predicate TopologicalOrder(dag: DagData, order: seq<GroupId>) {
    && Distinct(order)
    && (forall g :: g in order <==> g in dag.groups)
    && InOrder(dag, order)
  }

  ghost predicate CallbacksKnown(dag: DagData, callbacks: WatchSet) {
    && (forall f :: f in callbacks.files ==> Known(dag, f))
    && (forall e :: e in callbacks.executions ==> exists g :: g in dag.groups && dag.groups[g].uuid == e)
  }

  ghost predicate SoundParts(dag: DagData) {
    && (forall g :: g in dag.groups ==> SoundGroup(dag.groups[g]))
    && UniqueExecutions(dag)
    && UniqueFiles(dag)
  }

  ghost predicate ValidDag(dag: DagData, callbacks: WatchSet) {
    && SoundParts(dag)
    && CallbacksKnown(dag, callbacks)
    && exists order :: TopologicalOrder(dag, order)
  }

  // `g` reads a file that `h` writes.
  ghost predicate DependsOn(dag: DagData, g: GroupId, h: GroupId) {
    g in dag.groups && h in dag.groups && Deps(dag.groups[g]) * Outs(dag.groups[h]) != {}
  }

  ghost predicate Cycle(dag: DagData, cycle: seq<GroupId>) {
    && cycle != []
    && (forall i :: 0 <= i < |cycle| - 1 ==> DependsOn(dag, cycle[i], cycle[i + 1]))
    && DependsOn(dag, cycle[|cycle| - 1], cycle[0])
  }

  // What each error tells the client.
  ghost predicate Justified(dag: DagData, callbacks: WatchSet, error: DagError) {
    match error
    case EmptyGroup(g) => g in dag.groups && dag.groups[g].executions == []
    case DuplicateFifo(fifo) =>
      exists g, i, j :: g in dag.groups && 0 <= i < j < |dag.groups[g].fifo|
        && dag.groups[g].fifo[i] == fifo == dag.groups[g].fifo[j]
    case DuplicateExecution(e) =>
      exists g, h :: g in dag.groups && h in dag.groups && g != h && dag.groups[g].uuid == e == dag.groups[h].uuid
    case DuplicateFile(f) => HasTwoOrigins(dag, f)
    case MissingFile(f) =>
      !Known(dag, f) && (f in callbacks.files || exists g :: g in dag.groups && f in Deps(dag.groups[g]))
    case MissingExecution(e) =>
      e in callbacks.executions && forall g :: g in dag.groups ==> dag.groups[g].uuid != e
    case CycleDetected(g) =>
      && g in dag.groups
      && (forall f :: f in Deps(dag.groups[g]) ==> Known(dag, f))
      && ((forall h, f :: h in dag.groups && f in Deps(dag.groups[h]) ==> Known(dag, f)) ==>
           exists cycle :: Cycle(dag, cycle))
  }

  // ---------------------------------------------------------------- loading the groups

  datatype Index = Index(
    dependencies: map<FileId, seq<GroupId>>,
    numDependencies: map<GroupId, nat>,
    knownFiles: set<FileId>,
    knownExecs: set<GroupId>)

  // How many entries of `deps` are outside `met`.
  ghost function Unmet(deps: seq<FileId>, met: set<FileId>): nat {
    if deps == [] then 0
    else Unmet(deps[..|deps| - 1], met) + (if deps[|deps| - 1] in met then 0 else 1)
  }

  function Readers(dependencies: map<FileId, seq<GroupId>>, f: FileId): seq<GroupId> {
    if f in dependencies then dependencies[f] else []
  }

  ghost function ReaderCount(dependencies: map<FileId, seq<GroupId>>, f: FileId, g: GroupId): nat {
    multiset(Readers(dependencies, f))[g]
  }

  // The groups `loaded` are indexed: `listed` is the dependency list each of them had.
  ghost predicate Indexed(dag: DagData, index: Index, loaded: set<GroupId>, listed: map<GroupId, seq<FileId>>) {
    && loaded <= dag.groups.Keys
    && index.numDependencies.Keys == loaded && listed.Keys == loaded
    && (forall g :: g in loaded ==> index.numDependencies[g] == |listed[g]|)
    && (forall g, f :: g in loaded ==> (f in listed[g] <==> f in Deps(dag.groups[g])))
    && (forall f, g :: ReaderCount(index.dependencies, f, g) == (if g in loaded then multiset(listed[g])[f] else 0))
  }

  // The part of the checks that concerns the groups `loaded` only.
  ghost predicate SoundSoFar(dag: DagData, index: Index, loaded: set<GroupId>) {
    && loaded <= dag.groups.Keys
    && (forall g :: g in loaded ==> SoundGroup(dag.groups[g]))
    && (forall g, h :: g in loaded && h in loaded && dag.groups[g].uuid == dag.groups[h].uuid ==> g == h)
    && (forall g, f :: g in loaded ==> TotalWrites(dag.groups[g].executions, f) <= 1)
    && (forall g, h :: g in loaded && h in loaded && g != h ==> Outs(dag.groups[g]) !! Outs(dag.groups[h]))
    && (forall f :: f in index.knownFiles <==> exists g :: g in loaded && f in Outs(dag.groups[g]))
    && (forall e :: e in index.knownExecs <==> exists g :: g in loaded && dag.groups[g].uuid == e)
  }

  method FindDuplicate<T(==)>(items: seq<T>) returns (duplicate: Option<T>)
    ensures duplicate.None? <==> Distinct(items)
    ensures duplicate.Some? ==> exists i, j :: 0 <= i < j < |items| && items[i] == duplicate.value == items[j]
  {
    var seen: set<T> := {};
    for i := 0 to |items|
      invariant Distinct(items[..i])
      invariant forall x :: x in seen <==> x in items[..i]
    {
      if items[i] in seen {
        return Some(items[i]);
      }
      seen := seen + {items[i]};
    }
    assert items[..|items|] == items;
    return None;
  }

  // One entry per dependency of `group`, added to the lists of the files it reads.
  method AddReader(dependencies: map<FileId, seq<GroupId>>, group: GroupId, deps: seq<FileId>)
    returns (r: map<FileId, seq<GroupId>>)
    ensures forall f, g ::
      ReaderCount(r, f, g) == ReaderCount(dependencies, f, g) + (if g == group then multiset(deps)[f] else 0)
  {
    r := dependencies;
    for i := 0 to |deps|
      invariant forall f, g ::
        ReaderCount(r, f, g) == ReaderCount(dependencies, f, g) + (if g == group then multiset(deps[..i])[f] else 0)
    {
      r := r[deps[i] := Readers(r, deps[i]) + [group]];
      assert deps[..i + 1] == deps[..i] + [deps[i]];
    }
    assert deps[..|deps|] == deps;
  }

  // Insert the files a group writes; stops at the first one already there.
  method AddKnown(known: set<FileId>, outs: seq<FileId>) returns (r: set<FileId>, duplicate: Option<FileId>)
    ensures duplicate.None? <==> Distinct(outs) && forall f :: f in outs ==> f !in known
    ensures duplicate.Some? ==> duplicate.value in outs && (duplicate.value in known || multiset(outs)[duplicate.value] > 1)
    ensures duplicate.None? ==> forall f :: f in r <==> f in known || f in outs
  {
    r, duplicate := known, None;
    for i := 0 to |outs|
      invariant Distinct(outs[..i])
      invariant forall f :: f in outs[..i] ==> f !in known
      invariant forall f :: f in r <==> f in known || f in outs[..i]
    {
      if outs[i] in r {
        assert outs == outs[..i] + [outs[i]] + outs[i + 1..];
        return r, Some(outs[i]);
      }
      r := r + {outs[i]};
    }
    assert outs[..|outs|] == outs;
  }

  lemma DistinctCounts<T(!new)>(s: seq<T>)
    ensures Distinct(s) <==> forall x :: multiset(s)[x] <= 1
  {
    if s != [] {
      var n := |s| - 1;
      assert s == s[..n] + [s[n]];
      DistinctCounts(s[..n]);
      if Distinct(s) {
        assert s[n] !in s[..n];
      } else if Distinct(s[..n]) {
        var i :| 0 <= i < n && s[i] == s[n];
        assert s[..n][i] == s[n];
        assert multiset(s)[s[n]] > 1;
      } else {
        var x :| multiset(s[..n])[x] > 1;
        assert multiset(s)[x] > 1;
      }
    }
  }

  lemma IndexGrows(dag: DagData, index: Index, loaded: set<GroupId>, listed: map<GroupId, seq<FileId>>,
                   key: GroupId, deps: seq<FileId>, r: Index)
    requires Indexed(dag, index, loaded, listed)
    requires key in dag.groups && key !in loaded
    requires forall f :: f in deps <==> f in Deps(dag.groups[key])
    requires forall f, g ::
      ReaderCount(r.dependencies, f, g) == ReaderCount(index.dependencies, f, g) + (if g == key then multiset(deps)[f] else 0)
    requires r.numDependencies == index.numDependencies[key := |deps|]
    ensures Indexed(dag, r, loaded + {key}, listed[key := deps])
  {
  }

  lemma SoundnessGrows(dag: DagData, index: Index, loaded: set<GroupId>, key: GroupId, outs: seq<FileId>, r: Index)
    requires SoundSoFar(dag, index, loaded)
    requires key in dag.groups && key !in loaded && SoundGroup(dag.groups[key])
    requires dag.groups[key].uuid !in index.knownExecs
    requires forall f :: f in outs <==> f in Outs(dag.groups[key])
    requires forall f :: TotalWrites(dag.groups[key].executions, f) <= 1
    requires forall f :: f in outs ==> f !in index.knownFiles
    requires forall f :: f in r.knownFiles <==> f in index.knownFiles || f in outs
    requires r.knownExecs == index.knownExecs + {dag.groups[key].uuid}
    ensures SoundSoFar(dag, r, loaded + {key})
  {
    hide Outs, TotalWrites, SoundGroup;
    var group := dag.groups[key];
    forall g | g in loaded
      ensures Outs(group) !! Outs(dag.groups[g]) && dag.groups[g].uuid != group.uuid
    {
      forall f | f in Outs(dag.groups[g]) ensures f !in Outs(group) {
        assert f in index.knownFiles;
      }
    }
    forall f ensures f in r.knownFiles <==> exists g :: g in loaded + {key} && f in Outs(dag.groups[g]) {
      if f in outs { assert key in loaded + {key}; }
      if g :| g in loaded && f in Outs(dag.groups[g]) { assert g in loaded + {key}; }
    }
    forall e ensures e in r.knownExecs <==> exists g :: g in loaded + {key} && dag.groups[g].uuid == e {
      if e == group.uuid { assert key in loaded + {key}; }
      if g :| g in loaded && dag.groups[g].uuid == e { assert g in loaded + {key}; }
    }
  }

  // A file already known, or written twice by the group, has no unique origin.
  lemma DuplicateFound(dag: DagData, index: Index, loaded: set<GroupId>, key: GroupId, outs: seq<FileId>, f: FileId)
    requires SoundSoFar(dag, index, loaded)
    requires key in dag.groups && key !in loaded
    requires forall f :: multiset(outs)[f] == TotalWrites(dag.groups[key].executions, f)
    requires forall f :: f in outs <==> f in Outs(dag.groups[key])
    requires f in outs && (f in index.knownFiles || multiset(outs)[f] > 1)
    ensures HasTwoOrigins(dag, f) && !UniqueFiles(dag)
  {
    if f in index.knownFiles {
      var g :| g in loaded && f in Outs(dag.groups[g]);
      assert f in Outs(dag.groups[g]) * Outs(dag.groups[key]);
    }
  }

  method LoadGroup(dag: DagData, callbacks: WatchSet, index: Index, key: GroupId,
                   ghost loaded: set<GroupId>, ghost listed: map<GroupId, seq<FileId>>)
    returns (r: Index, error: Option<DagError>, ghost deps: seq<FileId>)
    requires key in dag.groups && key !in loaded
    requires Indexed(dag, index, loaded, listed)
    requires SoundSoFar(dag, index, loaded)
    ensures error.Some? ==> Justified(dag, callbacks, error.value) && !SoundParts(dag)
    ensures error.None? ==>
      && r.numDependencies.Keys == loaded + {key}
      && (forall g :: g in loaded ==> r.numDependencies[g] == index.numDependencies[g])
      && Indexed(dag, r, loaded + {key}, listed[key := deps])
      && SoundSoFar(dag, r, loaded + {key})
  {
    var group := dag.groups[key];
    r, deps := index, [];
    if group.executions == [] {
      return r, Some(EmptyGroup(key)), deps;
    }
    var fifo := FindDuplicate(group.fifo);
    if fifo.Some? {
      return r, Some(DuplicateFifo(fifo.value)), deps;
    }
    if group.uuid in index.knownExecs {
      return r, Some(DuplicateExecution(group.uuid)), deps;
    }
    var inputs := group.Dependencies();
    var dependencies := AddReader(index.dependencies, key, inputs);
    var outs := group.Outputs();
    var known, duplicate := AddKnown(index.knownFiles, outs);
    if duplicate.Some? {
      DuplicateFound(dag, index, loaded, key, outs, duplicate.value);
      return r, Some(DuplicateFile(duplicate.value)), deps;
    }
    DistinctCounts(outs);
    r := Index(dependencies, index.numDependencies[key := |inputs|], known, index.knownExecs + {group.uuid});
    error, deps := None, inputs;
    IndexGrows(dag, index, loaded, listed, key, inputs, r);
    SoundnessGrows(dag, index, loaded, key, outs, r);
  }

  lemma NothingLoaded(dag: DagData)
    ensures Indexed(dag, Index(map[], map[], {}, {}), {}, map[])
    ensures SoundSoFar(dag, Index(map[], map[], {}, {}), {})
  {
  }

  method LoadGroups(dag: DagData, callbacks: WatchSet)
    returns (index: Index, ready: seq<GroupId>, error: Option<DagError>, ghost listed: map<GroupId, seq<FileId>>)
    ensures error.Some? ==> Justified(dag, callbacks, error.value) && !SoundParts(dag)
    ensures error.None? ==>
      && Indexed(dag, index, dag.groups.Keys, listed)
      && SoundSoFar(dag, index, dag.groups.Keys)
      && Distinct(ready)
      && forall g :: g in ready <==> g in dag.groups && index.numDependencies[g] == 0
  {
    index, ready, error, listed := Index(map[], map[], {}, {}), [], None, map[];
    NothingLoaded(dag);
    hide SoundSoFar, Indexed, SoundParts, Justified;
    var keys := dag.groups.Keys;
    while keys != {}
      invariant keys <= dag.groups.Keys && error.None?
      invariant index.numDependencies.Keys == dag.groups.Keys - keys
      invariant keys == dag.groups.Keys ==> index == Index(map[], map[], {}, {}) && listed == map[]
      invariant Indexed(dag, index, dag.groups.Keys - keys, listed)
      invariant SoundSoFar(dag, index, dag.groups.Keys - keys)
      invariant Distinct(ready)
      invariant forall g :: g in ready <==> g in index.numDependencies && index.numDependencies[g] == 0
      decreases keys
    {
      var key :| key in keys;
      ghost var loaded := dag.groups.Keys - keys;
      ghost var deps;
      var before := index;
      index, error, deps := LoadGroup(dag, callbacks, before, key, loaded, listed);
      if error.Some? {
        return;
      }
      listed := listed[key := deps];
      keys := keys - {key};
      assert loaded + {key} == dag.groups.Keys - keys;
      if index.numDependencies[key] == 0 {
        ready := ready + [key];
      }
    }
    assert dag.groups.Keys - keys == dag.groups.Keys;
  }

  method AddProvided(dag: DagData, known: set<FileId>) returns (r: set<FileId>, ready: seq<FileId>,
                     duplicate: Option<FileId>)
    ensures duplicate.Some? ==> duplicate.value in dag.providedFiles && duplicate.value in known
    ensures duplicate.None? ==>
      known !! dag.providedFiles && r == known + dag.providedFiles && Distinct(ready)
      && forall f :: f in ready <==> f in dag.providedFiles
  {
    r, ready, duplicate := known, [], None;
    var files := dag.providedFiles;
    while files != {}
      invariant files <= dag.providedFiles
      invariant known !! (dag.providedFiles - files) && r == known + (dag.providedFiles - files)
      invariant Distinct(ready) && forall f :: f in ready <==> f in dag.providedFiles - files
      decreases files
    {
      var f :| f in files;
      ready := ready + [f];
      if f in r {
        return r, ready, Some(f);
      }
      r, files := r + {f}, files - {f};
    }
  }

  // ---------------------------------------------------------------- visiting the graph

  ghost predicate Counted(dag: DagData, listed: map<GroupId, seq<FileId>>, counts: map<GroupId, nat>,
                          met: set<FileId>) {
    && counts.Keys == dag.groups.Keys && listed.Keys == dag.groups.Keys
    && forall g :: g in counts ==> counts[g] == Unmet(listed[g], met)
  }

  lemma UnmetStep(deps: seq<FileId>, met: set<FileId>, f: FileId)
    requires f !in met
    ensures Unmet(deps, met) == Unmet(deps, met + {f}) + multiset(deps)[f]
  {
    if deps != [] {
      var n := |deps| - 1;
      assert deps == deps[..n] + [deps[n]];
      UnmetStep(deps[..n], met, f);
    }
  }

  lemma UnmetZero(deps: seq<FileId>, met: set<FileId>)
    ensures Unmet(deps, met) == 0 <==> forall f :: f in deps ==> f in met
  {
    if deps != [] {
      var n := |deps| - 1;
      assert deps == deps[..n] + [deps[n]];
      UnmetZero(deps[..n], met);
    }
  }

  lemma UnmetNone(deps: seq<FileId>)
    ensures Unmet(deps, {}) == |deps|
  {
  }

  /** The file `file` is met: every entry in its list of readers takes one away
      from a counter. The counter is never zero at that point, repeated entries
      included, and the groups that reach zero are the new ready ones. */
  method ConsumeFile(dag: DagData, readers: seq<GroupId>, counts: map<GroupId, nat>, file: FileId,
                     ghost listed: map<GroupId, seq<FileId>>, ghost met: set<FileId>)
    returns (r: map<GroupId, nat>, ready: seq<GroupId>)
    requires Counted(dag, listed, counts, met) && file !in met
    requires forall g :: multiset(readers)[g] == if g in dag.groups then multiset(listed[g])[file] else 0
    ensures Counted(dag, listed, r, met + {file})
    ensures ReachedZero(counts, r, ready)
  {
    forall g | g in counts { UnmetStep(listed[g], met, file); }
    ghost var goal := map g | g in counts :: Unmet(listed[g], met + {file});
    assert forall g :: g in counts ==> counts[g] == goal[g] + multiset(readers)[g];
    r, ready := CountDown(readers, counts, goal);
  }

  // `ready` lists, once each, the groups whose counter went from positive to zero.
  ghost predicate ReachedZero(counts: map<GroupId, nat>, r: map<GroupId, nat>, ready: seq<GroupId>) {
    && r.Keys == counts.Keys
    && Distinct(ready)
    && (forall g :: g in r ==> r[g] <= counts[g])
    && (forall g :: g in ready <==> g in counts && counts[g] != 0 && r[g] == 0)
  }

  lemma ReachedZeroStep(counts: map<GroupId, nat>, r: map<GroupId, nat>, ready: seq<GroupId>, group: GroupId)
    requires ReachedZero(counts, r, ready)
    requires group in r && 0 < r[group] <= counts[group]
    ensures ReachedZero(counts, r[group := r[group] - 1], if r[group] == 1 then ready + [group] else ready)
  {
  }

  method CountDown(readers: seq<GroupId>, counts: map<GroupId, nat>, ghost goal: map<GroupId, nat>)
    returns (r: map<GroupId, nat>, ready: seq<GroupId>)
    requires goal.Keys == counts.Keys
    requires forall g :: g in counts ==> counts[g] == goal[g] + multiset(readers)[g]
    requires forall g :: g in readers ==> g in counts
    ensures r == goal && ReachedZero(counts, r, ready)
  {
    hide ReachedZero, Remaining;
    r, ready := counts, [];
    NothingCounted(readers, counts, goal);
    for i := 0 to |readers|
      invariant ReachedZero(counts, r, ready) && Remaining(readers[i..], counts, r, goal)
    {
      var group := readers[i];
      assert readers[i..] == [group] + readers[i + 1..];
      RemainingStep(readers[i + 1..], counts, r, goal, group);
      assert r[group] != 0;
      ReachedZeroStep(counts, r, ready, group);
      r := r[group := r[group] - 1];
      if r[group] == 0 {
        ready := ready + [group];
      }
    }
    AllCounted(readers[|readers|..], counts, r, goal);
  }

  // What the readers still to be dealt with will take away.
  ghost predicate Remaining(readers: seq<GroupId>, counts: map<GroupId, nat>, r: map<GroupId, nat>,
                            goal: map<GroupId, nat>) {
    && r.Keys == counts.Keys == goal.Keys
    && forall g :: g in r && g in goal && g in counts ==> r[g] == goal[g] + multiset(readers)[g] <= counts[g]
  }

  lemma NothingCounted(readers: seq<GroupId>, counts: map<GroupId, nat>, goal: map<GroupId, nat>)
    requires goal.Keys == counts.Keys && forall g :: g in counts ==> counts[g] == goal[g] + multiset(readers)[g]
    ensures ReachedZero(counts, counts, []) && Remaining(readers[0..], counts, counts, goal)
  {
    assert readers[0..] == readers;
  }

  lemma RemainingStep(rest: seq<GroupId>, counts: map<GroupId, nat>, r: map<GroupId, nat>, goal: map<GroupId, nat>,
                      group: GroupId)
    requires Remaining([group] + rest, counts, r, goal) && group in counts
    ensures group in r && 0 < r[group] <= counts[group]
    ensures Remaining(rest, counts, r[group := r[group] - 1], goal)
  {
    assert forall g :: multiset([group] + rest)[g] == (if g == group then 1 else 0) + multiset(rest)[g];
  }

  lemma AllCounted(rest: seq<GroupId>, counts: map<GroupId, nat>, r: map<GroupId, nat>, goal: map<GroupId, nat>)
    requires Remaining(rest, counts, r, goal) && rest == []
    ensures r == goal
  {
  }

  // `f` can be had once the groups of `order` have been executed.
  ghost predicate Available(dag: DagData, order: seq<GroupId>, f: FileId) {
    f in dag.providedFiles || Produced(dag, order, f)
  }

  /** Between two steps of the visit: the files met or queued are the ones the
      visited groups make available, and the groups visited or queued are the
      ones with no dependency left. */
  ghost predicate Visiting(dag: DagData, listed: map<GroupId, seq<FileId>>, counts: map<GroupId, nat>,
                           met: set<FileId>, files: seq<FileId>, groups: seq<GroupId>, order: seq<GroupId>) {
    && Counted(dag, listed, counts, met)
    && Distinct(files) && (forall f :: f in files ==> f !in met)
    && (forall f :: f in met || f in files <==> Available(dag, order, f))
    && Distinct(order) && Distinct(groups) && (forall g :: g in groups ==> g !in order)
    && (forall g :: g in dag.groups && counts[g] == 0 <==> g in order || g in groups)
    && InOrder(dag, order)
  }

  lemma DistinctConcat<T>(a: seq<T>, b: seq<T>)
    requires Distinct(a) && Distinct(b) && forall x :: x in a ==> x !in b
    ensures Distinct(a + b)
  {
    forall i, j | 0 <= i < j < |a + b| ensures (a + b)[i] != (a + b)[j] {
      if i < |a| <= j {
        assert a[i] in a && b[j - |a|] in b;
      }
    }
  }

  lemma MeetFile(dag: DagData, listed: map<GroupId, seq<FileId>>, counts: map<GroupId, nat>, met: set<FileId>,
                 files: seq<FileId>, groups: seq<GroupId>, order: seq<GroupId>,
                 r: map<GroupId, nat>, ready: seq<GroupId>)
    requires files != []
    requires Visiting(dag, listed, counts, met, files, groups, order)
    requires Counted(dag, listed, r, met + {files[0]})
    requires ReachedZero(counts, r, ready)
    ensures Visiting(dag, listed, r, met + {files[0]}, files[1..], groups + ready, order)
  {
    assert files == [files[0]] + files[1..];
    forall f ensures f in met + {files[0]} || f in files[1..] <==> Available(dag, order, f) {
      assert f in files <==> f == files[0] || f in files[1..];
    }
    DistinctConcat(groups, ready);
  }

  lemma AvailableGrows(dag: DagData, order: seq<GroupId>, g: GroupId, f: FileId)
    requires g in dag.groups
    ensures Available(dag, order + [g], f) <==> Available(dag, order, f) || f in Outs(dag.groups[g])
  {
    var longer := order + [g];
    if Produced(dag, order, f) {
      var j :| 0 <= j < |order| && order[j] in dag.groups && f in Outs(dag.groups[order[j]]);
      assert longer[j] == order[j];
    }
    if f in Outs(dag.groups[g]) {
      assert longer[|order|] == g;
    }
  }

  lemma InOrderGrows(dag: DagData, order: seq<GroupId>, g: GroupId)
    requires InOrder(dag, order)
    requires g in dag.groups && forall f :: f in Deps(dag.groups[g]) ==> Available(dag, order, f)
    ensures InOrder(dag, order + [g])
  {
    var longer := order + [g];
    forall i, f | 0 <= i < |longer| && longer[i] in dag.groups && f in Deps(dag.groups[longer[i]])
      ensures f in dag.providedFiles || Produced(dag, longer[..i], f)
    {
      assert longer[..i] == order[..i];
      assert order[..|order|] == order;
    }
  }

  lemma VisitGroup(dag: DagData, listed: map<GroupId, seq<FileId>>, counts: map<GroupId, nat>, met: set<FileId>,
                   files: seq<FileId>, groups: seq<GroupId>, order: seq<GroupId>, outs: seq<FileId>)
    requires groups != [] && groups[0] in dag.groups && UniqueFiles(dag)
    requires Visiting(dag, listed, counts, met, files, groups, order)
    requires forall g, f :: g in dag.groups ==> (f in listed[g] <==> f in Deps(dag.groups[g]))
    requires forall f :: f in outs <==> f in Outs(dag.groups[groups[0]])
    requires Distinct(outs)
    ensures Visiting(dag, listed, counts, met, files + outs, groups[1..], order + [groups[0]])
  {
    var g := groups[0];
    assert groups == [g] + groups[1..];
    UnmetZero(listed[g], met);
    assert g in groups;
    InOrderGrows(dag, order, g);
    forall f ensures Available(dag, order + [g], f) <==> Available(dag, order, f) || f in Outs(dag.groups[g]) {
      AvailableGrows(dag, order, g, f);
    }
    OutputsAreNew(dag, order, g);
    DistinctConcat(files, outs);
    VisitedOnce(order, groups);
  }

  lemma OutputsAreNew(dag: DagData, order: seq<GroupId>, g: GroupId)
    requires UniqueFiles(dag) && g in dag.groups && g !in order
    ensures forall f :: f in Outs(dag.groups[g]) ==> !Available(dag, order, f)
  {
  }

  lemma VisitedOnce(order: seq<GroupId>, groups: seq<GroupId>)
    requires groups != []
    requires Distinct(order) && Distinct(groups) && forall g :: g in groups ==> g !in order
    ensures Distinct(order + [groups[0]]) && Distinct(groups[1..])
    ensures forall g :: g in groups[1..] ==> g !in order + [groups[0]]
    ensures forall g :: g in order || g in groups <==> g in order + [groups[0]] || g in groups[1..]
  {
    assert groups == [groups[0]] + groups[1..];
    assert groups[0] in groups;
  }

  lemma FileIsNew(dag: DagData, listed: map<GroupId, seq<FileId>>, counts: map<GroupId, nat>, met: set<FileId>,
                  files: seq<FileId>, groups: seq<GroupId>, order: seq<GroupId>)
    requires Visiting(dag, listed, counts, met, files, groups, order) && files != []
    ensures Counted(dag, listed, counts, met) && files[0] !in met
  {
    hide Counted, Deps, Outs;
  }

  lemma ReadersAre(dag: DagData, index: Index, listed: map<GroupId, seq<FileId>>, f: FileId)
    requires Indexed(dag, index, dag.groups.Keys, listed)
    ensures listed.Keys == dag.groups.Keys
    ensures forall g :: multiset(Readers(index.dependencies, f))[g] == if g in dag.groups then multiset(listed[g])[f] else 0
  {
    hide Deps;
    forall g ensures multiset(Readers(index.dependencies, f))[g] == if g in dag.groups then multiset(listed[g])[f] else 0 {
      assert ReaderCount(index.dependencies, f, g) == if g in dag.groups then multiset(listed[g])[f] else 0;
    }
  }

  method DrainFiles(dag: DagData, index: Index, counts: map<GroupId, nat>, files: seq<FileId>, groups: seq<GroupId>,
                    ghost listed: map<GroupId, seq<FileId>>, ghost met: set<FileId>, ghost order: seq<GroupId>)
    returns (r: map<GroupId, nat>, ready: seq<GroupId>, ghost metNow: set<FileId>)
    requires Indexed(dag, index, dag.groups.Keys, listed)
    requires Visiting(dag, listed, counts, met, files, groups, order)
    ensures Visiting(dag, listed, r, metNow, [], ready, order)
    ensures files != [] ==> met < metNow
    ensures files == [] ==> metNow == met && ready == groups
  {
    hide Visiting, Indexed, ReachedZero, Counted, Deps;
    r, ready, metNow := counts, groups, met;
    assert files[0..] == files;
    for i := 0 to |files|
      invariant Visiting(dag, listed, r, metNow, files[i..], ready, order)
      invariant met <= metNow && (i > 0 ==> met < metNow)
      invariant i == 0 ==> metNow == met && ready == groups
    {
      var file := files[i];
      ghost var rest := files[i..];
      assert rest[0] == file && rest[1..] == files[i + 1..];
      var next, reached;
      FileIsNew(dag, listed, r, metNow, rest, ready, order);
      ReadersAre(dag, index, listed, file);
      next, reached := ConsumeFile(dag, Readers(index.dependencies, file), r, file, listed, metNow);
      MeetFile(dag, listed, r, metNow, rest, ready, order, next, reached);
      r, ready, metNow := next, ready + reached, metNow + {file};
    }
    assert files[|files|..] == [];
  }

  method DrainGroups(dag: DagData, groups: seq<GroupId>, ghost counts: map<GroupId, nat>,
                     ghost listed: map<GroupId, seq<FileId>>, ghost met: set<FileId>, ghost order: seq<GroupId>)
    returns (files: seq<FileId>, ghost orderNow: seq<GroupId>)
    requires UniqueFiles(dag)
    requires forall g, f :: g in dag.groups && g in listed ==> (f in listed[g] <==> f in Deps(dag.groups[g]))
    requires Visiting(dag, listed, counts, met, [], groups, order)
    ensures Visiting(dag, listed, counts, met, files, [], orderNow)
  {
    files, orderNow := [], order;
    assert groups[0..] == groups;
    for i := 0 to |groups|
      invariant Visiting(dag, listed, counts, met, files, groups[i..], orderNow)
    {
      var group := groups[i];
      ghost var rest := groups[i..];
      assert rest[0] == group && rest[1..] == groups[i + 1..];
      assert group in rest;
      var outs := dag.groups[group].Outputs();
      DistinctCounts(outs);
      VisitGroup(dag, listed, counts, met, files, rest, orderNow, outs);
      files, orderNow := files + outs, orderNow + [group];
    }
    assert groups[|groups|..] == [];
  }

  method Visit(dag: DagData, index: Index, files: seq<FileId>, groups: seq<GroupId>,
               ghost listed: map<GroupId, seq<FileId>>)
    returns (counts: map<GroupId, nat>, ghost met: set<FileId>, ghost order: seq<GroupId>)
    requires UniqueFiles(dag)
    requires Indexed(dag, index, dag.groups.Keys, listed)
    requires forall f :: f in dag.providedFiles || (exists g :: g in dag.groups && f in Outs(dag.groups[g])) ==>
      f in index.knownFiles
    requires Distinct(files) && forall f :: f in files <==> f in dag.providedFiles
    requires Distinct(groups) && forall g :: g in groups <==> g in dag.groups && index.numDependencies[g] == 0
    ensures Visiting(dag, listed, counts, met, [], [], order) && counts.Keys == dag.groups.Keys
  {
    var readyFiles, readyGroups := files, groups;
    counts, met, order := index.numDependencies, {}, [];
    forall g | g in dag.groups { UnmetNone(listed[g]); }
    while readyGroups != [] || readyFiles != []
      invariant Visiting(dag, listed, counts, met, readyFiles, readyGroups, order)
      decreases index.knownFiles - met, |readyGroups|
    {
      counts, readyGroups, met := DrainFiles(dag, index, counts, readyFiles, readyGroups, listed, met, order);
      readyFiles, order := DrainGroups(dag, readyGroups, counts, listed, met, order);
      readyGroups := [];
    }
  }

  lemma StuckForever(dag: DagData, listed: map<GroupId, seq<FileId>>, counts: map<GroupId, nat>,
                     met: set<FileId>, order: seq<GroupId>, valid: seq<GroupId>, i: nat)
    requires Visiting(dag, listed, counts, met, [], [], order)
    requires forall g, f :: g in dag.groups ==> (f in listed[g] <==> f in Deps(dag.groups[g]))
    requires TopologicalOrder(dag, valid) && i <= |valid|
    ensures forall j :: 0 <= j < i ==> counts[valid[j]] == 0
  {
    if i > 0 {
      var g := valid[i - 1];
      StuckForever(dag, listed, counts, met, order, valid, i - 1);
      assert g in valid;
      forall f | f in listed[g] ensures f in met {
        if f !in dag.providedFiles {
          var j :| 0 <= j < i - 1 && valid[..i - 1][j] in dag.groups && f in Outs(dag.groups[valid[..i - 1][j]]);
          assert valid[j] in order;
          var k :| 0 <= k < |order| && order[k] == valid[j];
          assert Produced(dag, order, f);
        }
        assert Available(dag, order, f);
      }
      UnmetZero(listed[g], met);
    }
  }

  // ---------------------------------------------------------------- the groups left over

  ghost predicate HasDependency(dag: DagData, stuck: set<GroupId>, g: GroupId) {
    exists h :: h in stuck && DependsOn(dag, g, h)
  }

  // The trigger keeps the verifier from following dependencies on its own.
  ghost predicate Closed(dag: DagData, stuck: set<GroupId>) {
    forall g {:trigger HasDependency(dag, stuck, g)} :: g in stuck ==> HasDependency(dag, stuck, g)
  }

  ghost predicate Chain(dag: DagData, path: seq<GroupId>) {
    path != [] && forall i :: 0 <= i < |path| - 1 ==> DependsOn(dag, path[i], path[i + 1])
  }

  lemma CloseChain(dag: DagData, path: seq<GroupId>, k: nat)
    requires Chain(dag, path) && k < |path| && DependsOn(dag, path[|path| - 1], path[k])
    ensures Cycle(dag, path[k..])
  {
    var cycle := path[k..];
    forall i | 0 <= i < |cycle| - 1 ensures DependsOn(dag, cycle[i], cycle[i + 1]) {
      assert cycle[i] == path[k + i] && cycle[i + 1] == path[k + i + 1];
    }
  }

  lemma ExtendChain(dag: DagData, path: seq<GroupId>, next: GroupId)
    requires Chain(dag, path) && DependsOn(dag, path[|path| - 1], next)
    ensures Chain(dag, path + [next])
  {
  }

  // Following dependencies inside a closed set must come back to a group already seen.
  lemma {:induction false} FollowDependencies(dag: DagData, stuck: set<GroupId>, path: seq<GroupId>, seen: set<GroupId>)
    requires Closed(dag, stuck) && seen <= stuck
    requires Chain(dag, path) && forall g :: g in path <==> g in seen
    ensures exists cycle :: Cycle(dag, cycle)
    decreases stuck - seen
  {
    var last := path[|path| - 1];
    assert last in path && HasDependency(dag, stuck, last);
    var next :| next in stuck && DependsOn(dag, last, next);
    if next in path {
      var k :| 0 <= k < |path| && path[k] == next;
      CloseChain(dag, path, k);
    } else {
      ExtendChain(dag, path, next);
      assert next in stuck - seen;
      FollowDependencies(dag, stuck, path + [next], seen + {next});
    }
  }

  lemma StuckGroupsCycle(dag: DagData, listed: map<GroupId, seq<FileId>>, counts: map<GroupId, nat>,
                         met: set<FileId>, order: seq<GroupId>, group: GroupId)
    requires Visiting(dag, listed, counts, met, [], [], order)
    requires forall g, f :: g in dag.groups ==> (f in listed[g] <==> f in Deps(dag.groups[g]))
    requires forall g, f :: g in dag.groups && f in Deps(dag.groups[g]) ==> Known(dag, f)
    requires group in dag.groups && counts[group] != 0
    ensures exists cycle :: Cycle(dag, cycle)
  {
    var stuck := set g | g in dag.groups && counts[g] != 0;
    forall g | g in stuck ensures HasDependency(dag, stuck, g) {
      UnmetZero(listed[g], met);
      var f :| f in listed[g] && f !in met;
      assert Known(dag, f) && !Available(dag, order, f);
      var h :| h in dag.groups && f in Outs(dag.groups[h]);
      assert f in Deps(dag.groups[g]) * Outs(dag.groups[h]);
      assert h in stuck && DependsOn(dag, g, h);
    }
    assert Closed(dag, stuck);
    FollowDependencies(dag, stuck, [group], {group});
  }

  method FindStuck(dag: DagData, index: Index, known: set<FileId>, counts: map<GroupId, nat>)
    returns (error: Option<DagError>)
    requires counts.Keys == dag.groups.Keys
    requires forall f :: f in known <==> Known(dag, f)
    ensures error.None? <==> forall g :: g in counts ==> counts[g] == 0
    ensures error.Some? ==>
      || (error.value.MissingFile? && !Known(dag, error.value.file)
          && exists g :: g in dag.groups && error.value.file in Deps(dag.groups[g]))
      || (error.value.CycleDetected? && error.value.group in dag.groups && counts[error.value.group] != 0
          && forall f :: f in Deps(dag.groups[error.value.group]) ==> Known(dag, f))
  {
    var keys := counts.Keys;
    while keys != {}
      invariant keys <= counts.Keys
      invariant forall g :: g in counts && g !in keys ==> counts[g] == 0
      decreases keys
    {
      var key :| key in keys;
      keys := keys - {key};
      if counts[key] != 0 {
        var deps := dag.groups[key].Dependencies();
        for i := 0 to |deps|
          invariant forall j :: 0 <= j < i ==> deps[j] in known
        {
          if deps[i] !in known {
            assert deps[i] in Deps(dag.groups[key]);
            return Some(MissingFile(deps[i]));
          }
        }
        return Some(CycleDetected(key));
      }
    }
    return None;
  }

  method CheckCallbacks(dag: DagData, callbacks: WatchSet, known: set<FileId>, execs: set<GroupId>)
    returns (error: Option<DagError>)
    requires forall f :: f in known <==> Known(dag, f)
    requires forall e :: e in execs <==> exists g :: g in dag.groups && dag.groups[g].uuid == e
    ensures error.None? <==> CallbacksKnown(dag, callbacks)
    ensures error.Some? ==> Justified(dag, callbacks, error.value)
  {
    if f :| f in callbacks.files && f !in known {
      return Some(MissingFile(f));
    }
    if e :| e in callbacks.executions && e !in execs {
      return Some(MissingExecution(e));
    }
    return None;
  }

  /** The validation is exact: a DAG passes if and only if its parts are sound,
      its callbacks name known items and its groups have a topological order;
      and an error always tells something true of the DAG. */
  method CheckDag(dag: DagData, callbacks: WatchSet) returns (r: Outcome)
    ensures r.Pass? <==> ValidDag(dag, callbacks)
    ensures r.Fail? ==> Justified(dag, callbacks, r.error)
  {
    hide Visiting, TopologicalOrder, SoundGroup, UniqueExecutions, Counted, Deps, Outs;
    var index, groups, error;
    ghost var listed, met, order;
    index, groups, error, listed := LoadGroups(dag, callbacks);
    if error.Some? {
      return Fail(error.value);
    }
    var known, files, duplicate := AddProvided(dag, index.knownFiles);
    if duplicate.Some? {
      ghost var g :| g in dag.groups && duplicate.value in Outs(dag.groups[g]);
      assert duplicate.value in Outs(dag.groups[g]) * dag.providedFiles;
      return Fail(DuplicateFile(duplicate.value));
    }
    FilesAreUnique(dag, index);
    index := index.(knownFiles := known);
    var counts;
    counts, met, order := Visit(dag, index, files, groups, listed);
    error := FindStuck(dag, index, known, counts);
    VisitDecides(dag, index, listed, counts, met, order);
    if error.Some? {
      if error.value.CycleDetected? {
        JustifyCycle(dag, callbacks, index, listed, counts, met, order, error.value.group);
      }
      return Fail(error.value);
    }
    error := CheckCallbacks(dag, callbacks, known, index.knownExecs);
    if error.Some? {
      return Fail(error.value);
    }
    return Pass;
  }

  lemma FilesAreUnique(dag: DagData, index: Index)
    requires SoundSoFar(dag, index, dag.groups.Keys)
    requires index.knownFiles !! dag.providedFiles
    ensures SoundParts(dag)
  {
    forall g | g in dag.groups ensures Outs(dag.groups[g]) !! dag.providedFiles {
      assert forall f :: f in Outs(dag.groups[g]) ==> f in index.knownFiles;
    }
  }

  lemma VisitDecides(dag: DagData, index: Index, listed: map<GroupId, seq<FileId>>, counts: map<GroupId, nat>,
                     met: set<FileId>, order: seq<GroupId>)
    requires Indexed(dag, index, dag.groups.Keys, listed)
    requires Visiting(dag, listed, counts, met, [], [], order)
    ensures (forall g :: g in counts ==> counts[g] == 0) <==> exists valid :: TopologicalOrder(dag, valid)
  {
    if forall g :: g in counts ==> counts[g] == 0 {
      assert TopologicalOrder(dag, order);
    }
    if valid :| TopologicalOrder(dag, valid) {
      StuckForever(dag, listed, counts, met, order, valid, |valid|);
      forall g | g in counts ensures counts[g] == 0 {
        assert g in valid;
      }
    }
  }

  lemma JustifyCycle(dag: DagData, callbacks: WatchSet, index: Index, listed: map<GroupId, seq<FileId>>,
                     counts: map<GroupId, nat>, met: set<FileId>, order: seq<GroupId>, group: GroupId)
    requires Indexed(dag, index, dag.groups.Keys, listed)
    requires Visiting(dag, listed, counts, met, [], [], order)
    requires group in dag.groups && counts[group] != 0
    requires forall f :: f in Deps(dag.groups[group]) ==> Known(dag, f)
    ensures Justified(dag, callbacks, CycleDetected(group))
  {
    if forall h, f :: h in dag.groups && f in Deps(dag.groups[h]) ==> Known(dag, f) {
      StuckGroupsCycle(dag, listed, counts, met, order, group);
    }
  }
}
