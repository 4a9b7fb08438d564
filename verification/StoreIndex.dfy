/** The index of the file store: how much space the files take, and which ones
    go when there is too little of it.
    Source: task-maker-store/src/index.rs. */
module StoreIndex {
  import opened Dag

  datatype IndexItem = IndexItem(size: nat, lastAccess: int)

  type Files = map<FileKey, IndexItem>

  ghost function TotalSize(files: Files): nat {
    if files == map[] then 0
    else
      var k :| k in files;
      files[k].size + TotalSize(files - {k})
  }

  lemma {:induction false} SizeWithout(files: Files, k: FileKey)
    requires k in files
    ensures TotalSize(files) == files[k].size + TotalSize(files - {k})
    decreases |files|
  {
    var first :| first in files && TotalSize(files) == files[first].size + TotalSize(files - {first});
    if first != k {
      SizeWithout(files - {first}, k);
      SizeWithout(files - {k}, first);
      assert files - {first} - {k} == files - {k} - {first};
    }
  }

  lemma SizeWith(files: Files, k: FileKey, item: IndexItem)
    ensures k !in files ==> TotalSize(files[k := item]) == item.size + TotalSize(files)
    ensures k in files && files[k].size == item.size ==> TotalSize(files[k := item]) == TotalSize(files)
  {
    var more := files[k := item];
    SizeWithout(more, k);
    if k !in files {
      assert more - {k} == files;
    } else {
      SizeWithout(files, k);
      assert more - {k} == files - {k};
    }
  }

  lemma NoFilesNoSize()
    ensures TotalSize(map[]) == 0
  {
  }

  lemma UnionWithout(a: Files, b: Files, k: FileKey)
    requires a.Keys !! b.Keys && k in b
    ensures a + b - {k} == a + (b - {k}) && k in a + b && (a + b)[k] == b[k]
  {
  }

  lemma {:induction false} SizeOfUnion(a: Files, b: Files)
    requires a.Keys !! b.Keys
    ensures TotalSize(a + b) == TotalSize(a) + TotalSize(b)
    decreases |b|
  {
    hide TotalSize;
    if b == map[] {
      NoFilesNoSize();
      assert a + b == a;
    } else {
      var k :| k in b;
      UnionWithout(a, b, k);
      SizeWithout(b, k);
      SizeWithout(a + b, k);
      SizeOfUnion(a, b - {k});
    }
  }

  // The last one to go, and the space that was taken just before.
  ghost predicate NeededAll(files: Files, removed: seq<FileKey>, target: nat, total: nat) {
    removed != [] ==>
      var last := removed[|removed| - 1];
      last in files && total + files[last].size > target
  }

  ghost function Keys(removed: seq<FileKey>): set<FileKey> {
    set k | k in removed
  }

  /** The order of the heap, which holds pairs of an item and its key: by
      access time, and by key for files accessed at the same time. */
  predicate NotNewer(files: Files, a: FileKey, b: FileKey) {
    && a in files && b in files
    && (files[a].lastAccess < files[b].lastAccess || (files[a].lastAccess == files[b].lastAccess && a <= b))
  }

  // Newest first.
  ghost predicate InPopOrder(files: Files, removed: seq<FileKey>) {
    && (forall i :: 0 <= i < |removed| ==> removed[i] in files)
    && (forall i, j :: 0 <= i < j < |removed| ==> removed[i] != removed[j] && NotNewer(files, removed[j], removed[i]))
  }

  // No entry of `rest` should have gone before a removed one.
  ghost predicate NoneSkipped(files: Files, removed: seq<FileKey>, rest: set<FileKey>) {
    forall i, k :: 0 <= i < |removed| && k in rest ==> NotNewer(files, k, removed[i])
  }

  predicate Newest(queue: Files, k: FileKey) {
    k in queue && forall other :: other in queue ==> NotNewer(queue, other, k)
  }

  lemma {:induction false} HasNewest(queue: Files)
    requires queue != map[]
    ensures exists k :: Newest(queue, k)
    decreases |queue|
  {
    var k :| k in queue;
    var rest := queue - {k};
    if rest == map[] {
      assert forall other :: other in queue ==> other == k || other in rest;
      assert Newest(queue, k);
    } else {
      HasNewest(rest);
      var m :| Newest(rest, m);
      assert forall other :: other in queue ==> other == k || other in rest;
      assert Newest(queue, if NotNewer(queue, m, k) then k else m);
    }
  }

  class FileStoreIndex {
    var totalSize: nat
    var knownFiles: Files

    // The space accounted for is never less than what the known files take.
    ghost predicate Safe()
      reads this
    {
      TotalSize(knownFiles) <= totalSize
    }

    // It is exactly that, as long as no flush failed.
    ghost predicate Exact()
      reads this
    {
      TotalSize(knownFiles) == totalSize
    }

    constructor ()
      ensures Exact() && knownFiles == map[] && totalSize == 0
    {
      totalSize, knownFiles := 0, map[];
    }

    /** Mark a file as accessed. */
    method Touch(k: FileKey, now: int)
      requires Safe()
      modifies this
      ensures Safe() && (old(Exact()) ==> Exact()) && totalSize == old(totalSize)
      ensures knownFiles == if k in old(knownFiles) then old(knownFiles)[k := old(knownFiles)[k].(lastAccess := now)] else old(knownFiles)
    {
      if k in knownFiles {
        SizeWith(knownFiles, k, knownFiles[k].(lastAccess := now));
        knownFiles := knownFiles[k := knownFiles[k].(lastAccess := now)];
      }
    }

    /** Add a file, unless it is known: then it is only marked as accessed. The
        size is what the file system says, or nothing when the file is not there. */
    method Add(k: FileKey, size: Option<nat>, now: int) returns (ok: bool)
      requires Safe()
      modifies this
      ensures Safe() && (old(Exact()) ==> Exact())
      ensures ok <==> k in old(knownFiles) || size.Some?
      ensures !ok ==> knownFiles == old(knownFiles) && totalSize == old(totalSize)
      ensures ok ==>
        knownFiles == old(knownFiles)[k := IndexItem(if k in old(knownFiles) then old(knownFiles)[k].size else size.value, now)]
      ensures ok ==> totalSize == old(totalSize) + if k in old(knownFiles) then 0 else size.value
    {
      if k in knownFiles {
        SizeWith(knownFiles, k, knownFiles[k].(lastAccess := now));
        knownFiles := knownFiles[k := knownFiles[k].(lastAccess := now)];
      } else {
        if size.None? { return false; }
        SizeWith(knownFiles, k, IndexItem(size.value, now));
        knownFiles := knownFiles[k := IndexItem(size.value, now)];
        totalSize := totalSize + size.value;
      }
      return true;
    }

    predicate NeedFlush(limit: nat)
      reads this
    {
      totalSize >= limit
    }

    /** Remove files, those accessed last first, until they take at most
        `target`, except the ones that are in use. `baseOk` is whether the
        directory of the store can be resolved; when it cannot the flush stops
        at its first removal and the index forgets every file. Removing a file
        may also fail, and then the file stays although the index forgets it. */
    method Flush(locked: map<FileKey, nat>, target: nat, baseOk: bool, disk: set<FileKey>)
      returns (ok: bool, left: set<FileKey>, ghost removed: seq<FileKey>)
      requires Safe()
      modifies this
      ensures Safe()
      ensures left <= disk && disk - left <= Keys(removed)
      ensures Keys(removed) <= old(knownFiles).Keys && Keys(removed) !! locked.Keys
      ensures ok ==> Flushed(old(knownFiles), knownFiles, removed, locked.Keys, target, old(totalSize), totalSize)
      ensures ok ==>
        (Lru(old(knownFiles), Keys(removed), knownFiles.Keys - locked.Keys) <==> LruCase(old(knownFiles), locked.Keys, target, old(totalSize)))
      ensures ok <==> baseOk || old(totalSize) <= target || old(knownFiles).Keys <= locked.Keys
      ensures !ok ==> knownFiles == map[]
    {
      hide TotalSize, Flushing, Flushed, Keys, Newest, InPopOrder, NoneSkipped, NeededAll, Lru, LruCase;
      ghost var files, total := knownFiles, totalSize;
      var queue, surviving: Files := knownFiles, map[];
      knownFiles := map[];
      left, removed := disk, [];
      StartFlush(files, locked.Keys, target, total);
      while totalSize > target
        invariant knownFiles == map[] && left <= disk && disk - left <= Keys(removed)
        invariant Flushing(files, queue, surviving, removed, locked.Keys, target, total, totalSize)
        invariant baseOk || removed == []
        decreases |queue|
      {
        if queue == map[] { break; }
        HasNewest(queue);
        var k :| Newest(queue, k);
        NewestIsThere(queue, k);
        var item := queue[k];
        if k in locked {
          FlushKeeps(files, queue, surviving, removed, locked.Keys, target, total, totalSize, k);
          surviving := surviving[k := item];
        } else {
          FlushRemoves(files, queue, surviving, removed, locked.Keys, target, total, totalSize, k);
          totalSize := totalSize - item.size;
          removed := removed + [k];
          var deleted: bool := *;
          if deleted { left := left - {k}; }
          if !baseOk {
            NoFilesNoSize();
            return false, left, removed;
          }
        }
        queue := queue - {k};
      }
      FlushEnds(files, queue, surviving, removed, locked.Keys, target, total, totalSize);
      knownFiles := surviving + queue;
      LruExactly(files, knownFiles, removed, locked.Keys, target, total, totalSize);
      return true, left, removed;
    }
  }

  // What holds while files are popped from the queue.
  ghost predicate Flushing(files: Files, queue: Files, surviving: Files, removed: seq<FileKey>, locked: set<FileKey>,
                           target: nat, before: nat, total: nat) {
    && Partition(files, queue, surviving, removed)
    && surviving.Keys <= locked && Keys(removed) !! locked
    && TotalSize(files) <= before && total + TotalSize(files) == before + TotalSize(queue) + TotalSize(surviving)
    && total <= before && (removed == [] ==> total == before)
    && InPopOrder(files, removed) && NoneSkipped(files, removed, queue.Keys)
    && NeededAll(files, removed, target, total)
  }

  // What a flush that succeeded has done.
  ghost predicate Flushed(files: Files, files': Files, removed: seq<FileKey>, locked: set<FileKey>, target: nat,
                          before: nat, total: nat) {
    && files' == files - Keys(removed)
    && TotalSize(files) <= before && total + TotalSize(files) == before + TotalSize(files')
    && (total <= target || files'.Keys <= locked)
    && InPopOrder(files, removed) && NoneSkipped(files, removed, files'.Keys - locked)
    && NeededAll(files, removed, target, total)
  }

  lemma NewestIsThere(queue: Files, k: FileKey)
    requires Newest(queue, k)
    ensures k in queue && |queue - {k}| < |queue|
  {
    assert (queue - {k}).Keys == queue.Keys - {k};
  }

  lemma NoKeys()
    ensures Keys([]) == {}
  {
  }

  lemma StartFlush(files: Files, locked: set<FileKey>, target: nat, total: nat)
    requires TotalSize(files) <= total
    ensures Flushing(files, files, map[], [], locked, target, total, total) && Keys([]) == {}
  {
    hide TotalSize;
    NoFilesNoSize();
  }

  lemma FlushKeeps(files: Files, queue: Files, surviving: Files, removed: seq<FileKey>, locked: set<FileKey>,
                   target: nat, before: nat, total: nat, k: FileKey)
    requires Flushing(files, queue, surviving, removed, locked, target, before, total) && Newest(queue, k) && k in locked
    ensures k in queue && Flushing(files, queue - {k}, surviving[k := queue[k]], removed, locked, target, before, total)
  {
    hide TotalSize, Partition, InPopOrder, NoneSkipped, NeededAll, Keys;
    QueueMoves(files, queue, surviving, removed, k);
    SizeWithout(queue, k);
    SizeWith(surviving, k, queue[k]);
  }

  lemma FlushRemoves(files: Files, queue: Files, surviving: Files, removed: seq<FileKey>, locked: set<FileKey>,
                     target: nat, before: nat, total: nat, k: FileKey)
    requires Flushing(files, queue, surviving, removed, locked, target, before, total) && Newest(queue, k) && k !in locked
    requires total > target
    ensures before > target && k in queue && k in files && queue[k].size <= total && Keys(removed + [k]) == Keys(removed) + {k}
    ensures Keys(removed + [k]) <= files.Keys && Keys(removed + [k]) !! locked
    ensures Flushing(files, queue - {k}, surviving, removed + [k], locked, target, before, total - queue[k].size)
  {
    hide TotalSize, InPopOrder, NoneSkipped, NeededAll, Keys, Newest;
    QueueMoves(files, queue, surviving, removed, k);
    SizeWithout(queue, k);
    WasNeeded(files, removed + [k], target, total - queue[k].size);
  }

  lemma FlushEnds(files: Files, queue: Files, surviving: Files, removed: seq<FileKey>, locked: set<FileKey>,
                  target: nat, before: nat, total: nat)
    requires Flushing(files, queue, surviving, removed, locked, target, before, total)
    requires total <= target || queue == map[]
    ensures Flushed(files, surviving + queue, removed, locked, target, before, total)
    ensures Keys(removed) <= files.Keys && Keys(removed) !! locked && TotalSize(surviving + queue) <= total
    ensures removed == [] ==> before <= target || files.Keys <= locked
  {
    hide TotalSize, InPopOrder, NeededAll, Keys;
    NoKeys();
    Reinserted(files, queue, surviving, removed, locked);
    SizeOfUnion(surviving, queue);
  }

  // Every file is either still in the queue, or has survived, or is gone.
  ghost predicate Partition(files: Files, queue: Files, surviving: Files, removed: seq<FileKey>) {
    && files.Keys == queue.Keys + surviving.Keys + Keys(removed)
    && queue.Keys !! surviving.Keys && queue.Keys !! Keys(removed) && surviving.Keys !! Keys(removed)
    && (forall k :: k in queue ==> queue[k] == files[k])
    && (forall k :: k in surviving ==> surviving[k] == files[k])
  }

  lemma WasNeeded(files: Files, removed: seq<FileKey>, target: nat, total: nat)
    requires removed != [] && var last := removed[|removed| - 1]; last in files && total + files[last].size > target
    ensures NeededAll(files, removed, target, total)
  {
  }

  lemma QueueMoves(files: Files, queue: Files, surviving: Files, removed: seq<FileKey>, k: FileKey)
    requires Partition(files, queue, surviving, removed) && Newest(queue, k)
    requires InPopOrder(files, removed) && NoneSkipped(files, removed, queue.Keys)
    ensures k in queue && k in files && files[k] == queue[k] && k !in surviving
    ensures Partition(files, queue - {k}, surviving[k := queue[k]], removed)
    ensures Partition(files, queue - {k}, surviving, removed + [k]) && Keys(removed + [k]) == Keys(removed) + {k}
    ensures InPopOrder(files, removed + [k])
    ensures NoneSkipped(files, removed, (queue - {k}).Keys) && NoneSkipped(files, removed + [k], (queue - {k}).Keys)
  {
    assert Keys(removed + [k]) == Keys(removed) + {k};
    forall i | 0 <= i < |removed| ensures removed[i] != k { assert removed[i] in Keys(removed); }
    forall x, y | x in queue && y in queue ensures NotNewer(files, x, y) == NotNewer(queue, x, y) { }
  }

  lemma Reinserted(files: Files, queue: Files, surviving: Files, removed: seq<FileKey>, locked: set<FileKey>)
    requires Partition(files, queue, surviving, removed) && surviving.Keys <= locked
    requires NoneSkipped(files, removed, queue.Keys)
    ensures surviving.Keys !! queue.Keys && surviving + queue == files - Keys(removed)
    ensures Keys(removed) <= files.Keys
    ensures NoneSkipped(files, removed, (surviving + queue).Keys - locked)
    ensures queue == map[] ==> (surviving + queue).Keys <= locked
  {
  }

  /** The files that were accessed last go first, although the index is
      described as a least-recently-used one: of two files, when one has to
      go, it is the one just accessed. */
  method NewestGoesFirst(index: FileStoreIndex, old0: FileKey, new0: FileKey, disk: set<FileKey>)
    returns (ok: bool, left: set<FileKey>, ghost removed: seq<FileKey>)
    requires old0 != new0 && index.Exact()
    requires index.knownFiles == map[old0 := IndexItem(1, 1), new0 := IndexItem(1, 2)] && index.totalSize == 2
    modifies index
    ensures ok && index.knownFiles == map[old0 := IndexItem(1, 1)]
  {
    ghost var files := index.knownFiles;
    var nobody: map<FileKey, nat> := map[];
    assert nobody.Keys == {};
    ok, left, removed := index.Flush(nobody, 1, true, disk);
    TwoFiles(files, index.knownFiles, removed, old0, new0, index.totalSize);
  }

  lemma TwoFiles(files: Files, after: Files, removed: seq<FileKey>, a: FileKey, b: FileKey, total: nat)
    requires a != b && files == map[a := IndexItem(1, 1), b := IndexItem(1, 2)]
    requires Flushed(files, after, removed, {}, 1, 2, total)
    ensures after == map[a := IndexItem(1, 1)]
  {
    NoFilesNoSize();
    SizeWithout(files, a);
    SizeWithout(files - {a}, b);
    assert files - {a} - {b} == map[];
    hide TotalSize;
    NoKeys();
    assert files - {} == files;
    if removed == [] {
      assert false;
    }
    assert removed[0] in Keys(removed) && !NotNewer(files, b, a);
    assert b in removed || b in after.Keys - {};
    assert removed[|removed| - 1] in Keys(removed);
  }

  /** When the directory of the store is lost, a flush that has something to
      remove leaves an index that knows no file. */
  method LostBaseForgets(index: FileStoreIndex, a: FileKey, b: FileKey, disk: set<FileKey>)
    returns (ok: bool, left: set<FileKey>, ghost removed: seq<FileKey>)
    requires a != b && index.Exact()
    requires index.knownFiles == map[a := IndexItem(1, 1), b := IndexItem(1, 2)] && index.totalSize == 2
    modifies index
    ensures !ok && index.knownFiles == map[]
  {
    var nobody: map<FileKey, nat> := map[];
    assert nobody.Keys == {} && a in index.knownFiles.Keys;
    ok, left, removed := index.Flush(nobody, 1, false, disk);
  }

  // ---------------------------------------------------------------- least recently used

  /** What a least-recently-used index would promise: no survivor that could
      have gone was accessed before a file that went. */
  ghost predicate Lru(files: Files, removed: set<FileKey>, survivors: set<FileKey>) {
    forall r, s :: r in removed && s in survivors && r in files && s in files ==>
      files[r].lastAccess <= files[s].lastAccess
  }

  ghost predicate OneAccessTime(files: Files) {
    forall a, b :: a in files && b in files ==> files[a].lastAccess == files[b].lastAccess
  }

  // The last file the heap would yield.
  ghost predicate Oldest(files: Files, k: FileKey) {
    k in files && forall other :: other in files ==> NotNewer(files, k, other)
  }

  // Even without all the others the oldest file does not fit.
  ghost predicate AllMustGo(free: Files, target: nat, before: nat) {
    exists k :: Oldest(free, k) && before - TotalSize(free - {k}) > target
  }

  ghost predicate LruCase(files: Files, locked: set<FileKey>, target: nat, before: nat) {
    before <= target || OneAccessTime(files - locked) || AllMustGo(files - locked, target, before)
  }

  lemma SizeOfPart(files: Files, keys: set<FileKey>)
    ensures TotalSize(files - keys) <= TotalSize(files)
    ensures TotalSize(files) == TotalSize(files - keys) + TotalSize(files - (files.Keys - keys))
  {
    hide TotalSize;
    var a, b := files - keys, files - (files.Keys - keys);
    assert a.Keys !! b.Keys && a + b == files;
    SizeOfUnion(a, b);
  }

  /** The flush is least-recently-used exactly when nothing has to go, or the
      files that could go were all accessed at the same time, or all of them
      have to go. */
  lemma LruExactly(files: Files, files': Files, removed: seq<FileKey>, locked: set<FileKey>, target: nat, before: nat, total: nat)
    requires Flushed(files, files', removed, locked, target, before, total)
    requires Keys(removed) <= files.Keys && Keys(removed) !! locked
    ensures Lru(files, Keys(removed), files'.Keys - locked) <==> LruCase(files, locked, target, before)
  {
    hide TotalSize, Flushed, Lru, AllMustGo, OneAccessTime, Keys;
    if before <= target {
      NothingGoes(files, files', removed, locked, target, before, total);
    } else if removed == [] {
      NoneFree(files, files', removed, locked, target, before, total);
    } else if files'.Keys <= locked {
      AllGo(files, files', removed, locked, target, before, total);
    } else {
      SomeStay(files, files', removed, locked, target, before, total);
    }
  }

  lemma NothingGoes(files: Files, files': Files, removed: seq<FileKey>, locked: set<FileKey>, target: nat, before: nat, total: nat)
    requires Flushed(files, files', removed, locked, target, before, total) && before <= target
    ensures removed == [] && Lru(files, Keys(removed), files'.Keys - locked)
  {
    hide TotalSize, InPopOrder, NoneSkipped;
    SizeOfPart(files, Keys(removed));
    if removed != [] {
      var last := removed[|removed| - 1];
      SizeWithout(files - (files.Keys - Keys(removed)), last);
    }
  }

  lemma NoneFree(files: Files, files': Files, removed: seq<FileKey>, locked: set<FileKey>, target: nat, before: nat, total: nat)
    requires Flushed(files, files', removed, locked, target, before, total) && before > target && removed == []
    ensures Lru(files, Keys(removed), files'.Keys - locked) && OneAccessTime(files - locked)
  {
    hide TotalSize, InPopOrder, NoneSkipped;
    NoKeys();
    assert files - {} == files;
  }

  lemma AllGo(files: Files, files': Files, removed: seq<FileKey>, locked: set<FileKey>, target: nat, before: nat, total: nat)
    requires Flushed(files, files', removed, locked, target, before, total) && removed != [] && files'.Keys <= locked
    requires Keys(removed) <= files.Keys && Keys(removed) !! locked
    ensures Lru(files, Keys(removed), files'.Keys - locked) && AllMustGo(files - locked, target, before)
  {
    hide TotalSize, NoneSkipped;
    var free, last := files - locked, removed[|removed| - 1];
    assert free.Keys == Keys(removed);
    forall other | other in free ensures NotNewer(free, last, other) {
      var i :| 0 <= i < |removed| && removed[i] == other;
      assert NotNewer(files, last, other);
    }
    SizeOfPart(files, Keys(removed));
    assert files - (files.Keys - Keys(removed)) == free;
    SizeWithout(free, last);
    assert Oldest(free, last);
  }

  lemma SomeStay(files: Files, files': Files, removed: seq<FileKey>, locked: set<FileKey>, target: nat, before: nat, total: nat)
    requires Flushed(files, files', removed, locked, target, before, total) && removed != [] && !(files'.Keys <= locked)
    requires Keys(removed) <= files.Keys && Keys(removed) !! locked
    ensures !AllMustGo(files - locked, target, before)
    ensures Lru(files, Keys(removed), files'.Keys - locked) <==> OneAccessTime(files - locked)
  {
    hide TotalSize;
    var free := files - locked;
    var s :| s in files' && s !in locked;
    forall k | Oldest(free, k) ensures before - TotalSize(free - {k}) <= target {
      OldestStays(files, files', removed, locked, target, before, total, s, k);
    }
    assert removed[0] in Keys(removed) && s in files'.Keys - locked;
    forall r | r in Keys(removed) ensures NotNewer(files, s, r) {
      var i :| 0 <= i < |removed| && removed[i] == r;
    }
    if Lru(files, Keys(removed), files'.Keys - locked) {
      forall a | a in free ensures free[a].lastAccess == files[s].lastAccess {
        var r := if a in Keys(removed) then a else removed[0];
        assert NotNewer(files, s, r);
        if a !in Keys(removed) { assert a in files'.Keys - locked && NotNewer(files, a, removed[0]); }
      }
    }
    if OneAccessTime(free) {
      forall r, x | r in Keys(removed) && x in files'.Keys - locked ensures files[r].lastAccess == files[x].lastAccess {
        assert r in free && x in free;
      }
    }
  }

  // Some file stays, so the oldest one does, and what went was enough.
  lemma OldestStays(files: Files, files': Files, removed: seq<FileKey>, locked: set<FileKey>, target: nat, before: nat, total: nat,
                    s: FileKey, k: FileKey)
    requires Flushed(files, files', removed, locked, target, before, total) && s in files' && s !in locked
    requires Keys(removed) <= files.Keys && Keys(removed) !! locked && Oldest(files - locked, k)
    ensures before - TotalSize(files - locked - {k}) <= target
  {
    hide TotalSize, NeededAll;
    var free := files - locked;
    assert NotNewer(free, k, s);
    assert s in files'.Keys - locked && s !in Keys(removed);
    forall i | 0 <= i < |removed| ensures removed[i] != k {
      assert NotNewer(files, s, removed[i]) && removed[i] in Keys(removed);
    }
    var gone := files - (files.Keys - Keys(removed));
    SizeOfPart(files, Keys(removed));
    SizeOfPart(free - {k}, free.Keys - {k} - Keys(removed));
    assert free - {k} - (free.Keys - {k} - Keys(removed)) == gone;
  }
}
