/** What the executions do: a group that is given the same does the same again.
    Everything else in the engine only moves results and files around, and must
    not change what comes out.
    Source: task-maker-cache/src/lib.rs, entry.rs. */
module Behaviour {
  import opened Dag
  import opened CacheKeys
  import opened CacheEntries
  import opened Caching
  import opened Situations

  // One of the places an execution writes a file to.
  datatype Slot = Stdout | Stderr | At(path: Path)

  /** What the executions do: of the situations that occur, which executions
      succeed under which limits, and what they write when all succeed. */
  datatype World = World(
    occurs: Situation -> bool,
    succeeds: (Situation, seq<ExecutionLimits>, nat) -> bool,
    content: (Situation, nat, Slot) -> FileKey,
    extraTime: real,
    extraMemory: nat)

  function SlotFile(e: Execution, slot: Slot): Option<FileId> {
    match slot
    case Stdout => if e.stdout.Capture? then Some(e.stdout.file) else None
    case Stderr => if e.stderr.Capture? then Some(e.stderr.file) else None
    case At(path) => if path in e.outputFiles then Some(e.outputFiles[path]) else None
  }

  function SlotKey(item: CacheEntryItem, slot: Slot): Option<FileKey> {
    match slot
    case Stdout => item.stdout
    case Stderr => item.stderr
    case At(path) => if path in item.outputs then Some(item.outputs[path]) else None
  }

  // What is written there is kept.
  predicate Asks(s: Situation, i: nat, slot: Slot) {
    i < |s.hidden| &&
    match slot
    case Stdout => s.hidden[i].stdout.Captured?
    case Stderr => s.hidden[i].stderr.Captured?
    case At(path) => path in s.hidden[i].outputs
  }

  lemma AsksForFiles(group: ExecutionGroup, handles: map<FileId, FileKey>, i: nat, slot: Slot)
    requires GroupHasKeys(group, handles) && i < |group.executions|
    ensures Asks(SituationOf(group, handles), i, slot) <==> SlotFile(group.executions[i], slot).Some?
  {
    hide ShownOf;
  }

  function LimitsOf(group: ExecutionGroup): seq<ExecutionLimits> {
    seq(|group.executions|, i requires 0 <= i < |group.executions| => group.executions[i].limits)
  }

  function EntryLimits(entry: CacheEntry): seq<ExecutionLimits> {
    seq(|entry.items|, i requires 0 <= i < |entry.items| => entry.items[i].limits)
  }

  ghost predicate AllSucceed(w: World, s: Situation, limits: seq<ExecutionLimits>) {
    forall i :: 0 <= i < |s.shown| ==> w.succeeds(s, limits, i)
  }

  // ---------------------------------------------------------------- what the cache takes for granted

  // The cache takes a run under the limits `a` for one under the limits `b`.
  ghost predicate StandsFor(w: World, s: Situation, a: seq<ExecutionLimits>, b: seq<ExecutionLimits>) {
    && |a| == |b| == |s.shown|
    && forall i :: 0 <= i < |s.shown| ==>
      if w.succeeds(s, a, i) then NotLooser(a[i], b[i], 0.0, 0) else NotLooser(b[i], a[i], 0.0, 0)
  }

  /** The cache is right about which limits are compatible. */
  ghost predicate Stable(w: World) {
    forall s, a, b :: w.occurs(s) && StandsFor(w, s, a, b) ==> (AllSucceed(w, s, a) <==> AllSucceed(w, s, b))
  }

  ghost predicate SameBehaviour(w: World, a: Situation, b: Situation) {
    && (forall limits, i :: w.succeeds(a, limits, i) <==> w.succeeds(b, limits, i))
    && (forall i, slot :: Asks(a, i, slot) && Asks(b, i, slot) ==> w.content(a, i, slot) == w.content(b, i, slot))
  }

  /** The cache is right to look at the key only. */
  ghost predicate OneKeyOneBehaviour(w: World) {
    forall a, b :: w.occurs(a) && w.occurs(b) && a.shown == b.shown ==> SameBehaviour(w, a, b)
  }

  // ---------------------------------------------------------------- one run

  // The files of the group are where `files` says, and hold what the group writes.
  ghost predicate Contents(w: World, s: Situation, group: ExecutionGroup, files: map<FileId, FileKey>) {
    forall i, slot :: 0 <= i < |group.executions| && SlotFile(group.executions[i], slot).Some? ==>
      var f := SlotFile(group.executions[i], slot).value;
      f in files && files[f] == w.content(s, i, slot)
  }

  /** The group as a whole did what it does, for the inputs it was given. */
  ghost predicate Right(w: World, handles: map<FileId, FileKey>, group: ExecutionGroup, ok: bool,
                        outputs: map<FileId, FileKey>) {
    && GroupHasKeys(group, handles)
    && (ok <==> AllSucceed(w, SituationOf(group, handles), LimitsOf(group)))
    && (ok ==> Contents(w, SituationOf(group, handles), group, outputs))
  }

  // The status was computed for the execution from some raw one.
  ghost predicate ByStatus(e: Execution, result: ExecutionResult) {
    exists raw :: result.status == e.Status(raw, result.resources)
  }

  /** A worker has run the group: each execution did what it does. */
  ghost predicate Genuine(w: World, handles: map<FileId, FileKey>, group: ExecutionGroup,
                          results: seq<ExecutionResult>, outputs: map<FileId, FileKey>) {
    && GroupHasKeys(group, handles)
    && |results| == |group.executions| && outputs.Keys <= Outs(group)
    && (forall i :: 0 <= i < |results| ==> ByStatus(group.executions[i], results[i]))
    && (forall i :: 0 <= i < |results| ==>
         (results[i].status.Success? <==> w.succeeds(SituationOf(group, handles), LimitsOf(group), i)))
    && (AllSuccess(results) ==> Contents(w, SituationOf(group, handles), group, outputs))
  }

  lemma GenuineIsRight(w: World, handles: map<FileId, FileKey>, group: ExecutionGroup, results: seq<ExecutionResult>,
                       outputs: map<FileId, FileKey>)
    requires Genuine(w, handles, group, results, outputs)
    ensures Right(w, handles, group, AllSuccess(results), outputs)
  {
    hide SituationOf, GroupHasKeys, Outs, Contents, ByStatus, LimitsOf;
    ghost var s := SituationOf(group, handles);
    assert |s.shown| == |group.executions|;
  }

  // ---------------------------------------------------------------- what the cache knows

  ghost predicate ItemsSucceed(entry: CacheEntry) {
    forall i :: 0 <= i < |entry.items| ==> entry.items[i].result.status.Success?
  }

  ghost predicate ItemContents(w: World, s: Situation, entry: CacheEntry) {
    forall i, slot :: 0 <= i < |entry.items| && SlotKey(entry.items[i], slot).Some? && Asks(s, i, slot) ==>
      SlotKey(entry.items[i], slot).value == w.content(s, i, slot)
  }

  // The entry tells what executions do that are given this.
  ghost predicate Tells(w: World, s: Situation, entry: CacheEntry) {
    && (forall i :: 0 <= i < |entry.items| ==>
         (entry.items[i].result.status.Success? <==> w.succeeds(s, EntryLimits(entry), i)))
    && (ItemsSucceed(entry) ==> ItemContents(w, s, entry))
  }

  /** The entry tells what a group with this key does. */
  ghost predicate EntryFollows(w: World, key: CacheKey, entry: CacheEntry) {
    && |entry.items| == |key| && entry.extraTime == w.extraTime && entry.extraMemory == w.extraMemory
    && (forall i :: 0 <= i < |entry.items| ==> StoredByStatus(entry.items[i]))
    && forall group, handles ::
         GroupHasKeys(group, handles) && KeyOf(group, handles) == key && w.occurs(SituationOf(group, handles)) ==>
         Tells(w, SituationOf(group, handles), entry)
  }

  ghost predicate BucketFollows(w: World, key: CacheKey, bucket: seq<CacheEntry>) {
    forall i :: 0 <= i < |bucket| ==> EntryFollows(w, key, bucket[i])
  }

  ghost predicate CacheFollows(w: World, entries: map<CacheKey, seq<CacheEntry>>) {
    forall key :: key in entries ==> BucketFollows(w, key, entries[key])
  }

  // The extra time and memory of all the groups are the same, and what they are given occurs.
  ghost predicate Expected(w: World, group: ExecutionGroup) {
    && group.config.extraTime == w.extraTime && group.config.extraMemory == w.extraMemory
    && forall handles :: GroupHasKeys(group, handles) ==> w.occurs(SituationOf(group, handles))
  }

  /** Caching what a worker has sent keeps the cache right. */
  lemma RecordedFollows(w: World, handles: map<FileId, FileKey>, handles': map<FileId, FileKey>, group: ExecutionGroup,
                        results: seq<ExecutionResult>, outputs: map<FileId, FileKey>, entry: CacheEntry)
    requires OneKeyOneBehaviour(w) && Genuine(w, handles, group, results, outputs) && Expected(w, group)
    requires GroupHasKeys(group, handles') && SituationOf(group, handles') == SituationOf(group, handles)
    requires forall f :: f in outputs ==> f in handles' && handles'[f] == outputs[f]
    requires forall i :: 0 <= i < |group.executions| ==> HasOutputFiles(group.executions[i], handles')
    requires Records(entry, group, handles', results)
    ensures EntryFollows(w, KeyOf(group, handles'), entry)
  {
    hide KeyOf, SituationOf, GroupHasKeys, Outs, StoredByStatus, ByStatus, Contents, HasOutputFiles, Tells,
         SameBehaviour;
    var key, s := KeyOf(group, handles'), SituationOf(group, handles');
    RunTells(w, handles, handles', group, results, outputs, entry);
    forall i | 0 <= i < |entry.items| ensures StoredByStatus(entry.items[i]) {
      ItemByStatus(group.executions[i], handles', results[i]);
    }
    forall group', keys | GroupHasKeys(group', keys) && KeyOf(group', keys) == key && w.occurs(SituationOf(group', keys))
      ensures Tells(w, SituationOf(group', keys), entry)
    {
      KeyShowsExactly(group, handles', group', keys);
      TellsForBoth(w, s, SituationOf(group', keys), entry, group, handles');
    }
  }

  // What holds of the run holds of any other with the same behaviour, as far as it asks for the same.
  lemma TellsForBoth(w: World, s: Situation, s': Situation, entry: CacheEntry, group: ExecutionGroup,
                     handles: map<FileId, FileKey>)
    requires Tells(w, s, entry) && SameBehaviour(w, s, s')
    requires GroupHasKeys(group, handles) && s == SituationOf(group, handles) && |entry.items| == |group.executions|
    requires forall i, slot :: 0 <= i < |entry.items| && SlotKey(entry.items[i], slot).Some? ==> SlotFile(group.executions[i], slot).Some?
    ensures Tells(w, s', entry)
  {
    hide SituationOf, SlotKey, SlotFile, Asks;
    forall i, slot | 0 <= i < |entry.items| && SlotKey(entry.items[i], slot).Some? ensures Asks(s, i, slot) {
      AsksForFiles(group, handles, i, slot);
    }
  }

  lemma RunTells(w: World, handles: map<FileId, FileKey>, handles': map<FileId, FileKey>, group: ExecutionGroup,
                 results: seq<ExecutionResult>, outputs: map<FileId, FileKey>, entry: CacheEntry)
    requires Genuine(w, handles, group, results, outputs)
    requires GroupHasKeys(group, handles') && SituationOf(group, handles') == SituationOf(group, handles)
    requires forall f :: f in outputs ==> f in handles' && handles'[f] == outputs[f]
    requires forall i :: 0 <= i < |group.executions| ==> HasOutputFiles(group.executions[i], handles')
    requires Records(entry, group, handles', results)
    ensures Tells(w, SituationOf(group, handles'), entry)
    ensures forall i, slot :: 0 <= i < |entry.items| && SlotKey(entry.items[i], slot).Some? ==> SlotFile(group.executions[i], slot).Some?
  {
    hide SituationOf, GroupHasKeys, Outs, ByStatus, Contents, HasOutputFiles, Asks;
    var s := SituationOf(group, handles');
    assert EntryLimits(entry) == LimitsOf(group);
    if ItemsSucceed(entry) {
      assert AllSuccess(results) by {
        forall i | 0 <= i < |results| ensures results[i].status.Success? {
          assert entry.items[i].result == results[i];
        }
      }
      forall i, slot | 0 <= i < |entry.items| && SlotKey(entry.items[i], slot).Some?
        ensures SlotKey(entry.items[i], slot).value == w.content(s, i, slot)
      {
        RecordedContent(w, s, group, outputs, handles', i, slot, results[i]);
      }
    }
  }

  lemma ItemByStatus(e: Execution, handles: map<FileId, FileKey>, result: ExecutionResult)
    requires HasOutputFiles(e, handles) && ByStatus(e, result)
    ensures StoredByStatus(ItemOf(e, handles, result))
  {
    var raw :| result.status == e.Status(raw, result.resources);
    var item := ItemOf(e, handles, result);
    assert e.limits == item.limits && item.result.status == e.Status(raw, item.result.resources);
  }

  lemma RecordedContent(w: World, s: Situation, group: ExecutionGroup, outputs: map<FileId, FileKey>,
                        handles: map<FileId, FileKey>, i: nat, slot: Slot, result: ExecutionResult)
    requires i < |group.executions| && HasOutputFiles(group.executions[i], handles)
    requires Contents(w, s, group, outputs)
    requires forall f :: f in outputs ==> f in handles && handles[f] == outputs[f]
    requires SlotKey(ItemOf(group.executions[i], handles, result), slot).Some?
    ensures SlotKey(ItemOf(group.executions[i], handles, result), slot).value == w.content(s, i, slot)
  {
    assert SlotFile(group.executions[i], slot).Some?;
  }

  // ---------------------------------------------------------------- what a hit tells

  // No file is written twice by the group.
  ghost predicate WritesOnce(group: ExecutionGroup) {
    forall f :: TotalWrites(group.executions, f) <= 1
  }

  lemma TwoSlots(e: Execution, a: Slot, b: Slot, f: FileId)
    requires SlotFile(e, a) == Some(f) == SlotFile(e, b)
    ensures e.WriteCount(f) >= if a == b then 1 else 2
  {
    var paths := set p | p in e.outputFiles.Keys && p in e.outputFiles && e.outputFiles[p] == f;
    if a.At? { assert a.path in paths && {a.path} <= paths; SubsetSize({a.path}, paths); }
    if b.At? { assert b.path in paths && {b.path} <= paths; SubsetSize({b.path}, paths); }
    if a.At? && b.At? && a != b {
      SubsetSize({a.path, b.path}, paths);
    }
  }

  lemma SubsetSize<T>(a: set<T>, b: set<T>)
    requires a <= b
    ensures |a| <= |b|
  {
    assert b == a + (b - a);
  }

  lemma {:induction false} TotalAtLeast(executions: seq<Execution>, i: nat, j: nat, f: FileId)
    requires i <= j < |executions|
    ensures TotalWrites(executions, f) >= executions[j].WriteCount(f)
    ensures i < j ==> TotalWrites(executions, f) >= executions[i].WriteCount(f) + executions[j].WriteCount(f)
  {
    hide Execution.WriteCount;
    var n := |executions| - 1;
    var rest := executions[..n];
    if j < n {
      TotalAtLeast(rest, i, j, f);
    } else if i < j {
      TotalAtLeast(rest, i, i, f);
    }
  }

  lemma OneSlot(group: ExecutionGroup, i: nat, a: Slot, j: nat, b: Slot, f: FileId)
    requires WritesOnce(group) && i < |group.executions| && j < |group.executions|
    requires SlotFile(group.executions[i], a) == Some(f) == SlotFile(group.executions[j], b)
    ensures i == j && a == b
  {
    hide Execution.WriteCount;
    TwoSlots(group.executions[i], a, a, f);
    TwoSlots(group.executions[j], b, b, f);
    if i <= j { TotalAtLeast(group.executions, i, j, f); } else { TotalAtLeast(group.executions, j, i, f); }
    if i == j { TwoSlots(group.executions[i], a, b, f); }
  }

  lemma StoredSlot(e: Execution, item: CacheEntryItem, f: FileId, key: FileKey)
    requires ItemStores(e, item, f, key)
    ensures exists slot :: SlotFile(e, slot) == Some(f) && SlotKey(item, slot) == Some(key)
  {
    if e.stdout.Capture? && e.stdout.file == f && item.stdout == Some(key) {
      assert SlotFile(e, Stdout) == Some(f);
    } else if e.stderr.Capture? && e.stderr.file == f && item.stderr == Some(key) {
      assert SlotFile(e, Stderr) == Some(f);
    } else {
      var p :| p in e.outputFiles && e.outputFiles[p] == f && p in item.outputs && item.outputs[p] == key;
      assert SlotFile(e, At(p)) == Some(f);
    }
  }

  // What an entry stores for the files of a group is what the group writes.
  lemma StoredContents(w: World, s: Situation, entry: CacheEntry, group: ExecutionGroup, handles: map<FileId, FileKey>,
                       outputs: map<FileId, FileKey>)
    requires ItemContents(w, s, entry) && WritesOnce(group) && |entry.items| == |group.executions|
    requires GroupHasKeys(group, handles) && s == SituationOf(group, handles)
    requires outputs.Keys == Outs(group) && forall f :: f in outputs ==> Stores(entry, group, f, outputs[f])
    ensures Contents(w, s, group, outputs)
  {
    hide ItemStores, WritesOnce, SlotFile, SlotKey, SituationOf, Asks;
    forall i, slot | 0 <= i < |group.executions| && SlotFile(group.executions[i], slot).Some?
      ensures var f := SlotFile(group.executions[i], slot).value;
        f in outputs && outputs[f] == w.content(s, i, slot)
    {
      var f := SlotFile(group.executions[i], slot).value;
      SlotIsWritten(group.executions[i], slot);
      assert f in Outs(group) && Stores(entry, group, f, outputs[f]);
      var j :| 0 <= j < |group.executions| && j < |entry.items|
        && ItemStores(group.executions[j], entry.items[j], f, outputs[f]);
      StoredSlot(group.executions[j], entry.items[j], f, outputs[f]);
      var b :| SlotFile(group.executions[j], b) == Some(f) && SlotKey(entry.items[j], b) == Some(outputs[f]);
      OneSlot(group, i, slot, j, b, f);
      AsksForFiles(group, handles, i, slot);
    }
  }

  lemma SlotIsWritten(e: Execution, slot: Slot)
    ensures SlotFile(e, slot).Some? ==> SlotFile(e, slot).value in e.Writes()
  {
  }

  /** A hit is as good as a run: what the cache answers for a group is what the
      group would do. */
  lemma HitIsRight(w: World, entries: map<CacheKey, seq<CacheEntry>>, group: ExecutionGroup, handles: map<FileId, FileKey>,
                   results: seq<ExecutionResult>, outputs: map<FileId, FileKey>, stores: StoreView)
    requires Stable(w) && CacheFollows(w, entries) && Expected(w, group) && WritesOnce(group)
    requires GroupHasKeys(group, handles) && KeyOf(group, handles) in entries
    requires Answers(Hit(results, outputs), entries[KeyOf(group, handles)], group, stores) && outputs.Keys == Outs(group)
    ensures Right(w, handles, group, AllSuccess(results), outputs)
  {
    hide KeyOf, SituationOf, GroupHasKeys, Outs, Usable, Stores, IsRevival, Tells, Contents, AllSucceed, Stable,
         WritesOnce;
    var key := KeyOf(group, handles);
    var bucket := entries[key];
    var i :| 0 <= i < |bucket| && Usable(bucket[i], group, stores(i)) && IsRevival(bucket[i], group, results)
      && forall f :: f in outputs ==> Stores(bucket[i], group, f, outputs[f]);
    assert BucketFollows(w, key, bucket);
    assert EntryFollows(w, key, bucket[i]);
    RevivalIsRight(w, bucket[i], group, handles, results, outputs, stores(i));
  }

  lemma RevivalIsRight(w: World, entry: CacheEntry, group: ExecutionGroup, handles: map<FileId, FileKey>,
                       results: seq<ExecutionResult>, outputs: map<FileId, FileKey>, disk: set<FileKey>)
    requires Stable(w) && Expected(w, group) && WritesOnce(group) && GroupHasKeys(group, handles)
    requires entry.extraTime == w.extraTime && entry.extraMemory == w.extraMemory
    requires Tells(w, SituationOf(group, handles), entry)
    requires forall i :: 0 <= i < |entry.items| ==> StoredByStatus(entry.items[i])
    requires Usable(entry, group, disk) && IsRevival(entry, group, results) && outputs.Keys == Outs(group)
    requires forall f :: f in outputs ==> Stores(entry, group, f, outputs[f])
    ensures AllSuccess(results) <==> AllSucceed(w, SituationOf(group, handles), LimitsOf(group))
    ensures AllSuccess(results) ==> Contents(w, SituationOf(group, handles), group, outputs)
  {
    hide SituationOf, GroupHasKeys, Outs, Stores, StoredByStatus, Present, Contents, NotLooser, WritesOnce,
         ItemContents;
    var s := SituationOf(group, handles);
    HitReportsWhatWasCached(entry, group, results);
    assert StandsFor(w, s, EntryLimits(entry), LimitsOf(group)) by {
      forall i | 0 <= i < |s.shown|
        ensures var a, b := EntryLimits(entry)[i], LimitsOf(group)[i];
          if w.succeeds(s, EntryLimits(entry), i) then NotLooser(a, b, 0.0, 0) else NotLooser(b, a, 0.0, 0)
      {
        assert ItemCompatible(entry.items[i], group.executions[i], 0.0, 0);
      }
    }
    assert AllSucceed(w, s, EntryLimits(entry)) <==> ItemsSucceed(entry);
    if AllSuccess(results) { StoredContents(w, s, entry, group, handles, outputs); }
  }
}
