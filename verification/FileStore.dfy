/** The file store: files on disk, kept as long as somebody holds a handle.
    Source: task-maker-store/src/lib.rs. */
module FileStoring {
  import opened Dag
  import opened StoreIndex

  /** The reference counts are the numbers of live handles, with no zero in them. */
  ghost predicate Counted(refCounts: map<FileKey, nat>, handles: multiset<FileKey>) {
    && (forall k :: k in refCounts <==> k in handles)
    && (forall k :: k in refCounts ==> refCounts[k] == handles[k])
  }

  // Every caller that is storing a file has a handle of its own, and the files
  // of the handles that do not belong to one still writing are there.
  ghost predicate Sound(handles: multiset<FileKey>, begun: multiset<FileKey>, writing: multiset<FileKey>,
                        adding: multiset<FileKey>, disk: set<FileKey>) {
    && (forall k :: begun[k] + writing[k] + adding[k] <= handles[k])
    && (forall k :: handles[k] > begun[k] + writing[k] ==> k in disk)
  }

  /** What may happen to a store, one step of one caller at a time. */
  datatype StoreOp =
    | BeginStore(key: FileKey)
    | LookForFile(key: FileKey)
    | WriteFile(key: FileKey, written: bool)
    | AddFile(key: FileKey, size: Option<nat>, now: int, baseOk: bool, saved: bool)
    | GetFile(key: FileKey, now: int)
    | CloneHandle(key: FileKey)
    | DropHandle(key: FileKey)

  class FileStore {
    const index: FileStoreIndex
    const maxSize: nat
    const minSize: nat
    var refCounts: map<FileKey, nat>
    var disk: set<FileKey>
    // Where the callers of `Store` are: they have their handle and have not
    // looked for the file yet; found nothing and are writing it; have written it.
    var begun: multiset<FileKey>
    var writing: multiset<FileKey>
    var adding: multiset<FileKey>
    // The handles that are alive.
    ghost var handles: multiset<FileKey>

    ghost predicate Valid()
      reads this, index
    {
      && index.Safe()
      && Counted(refCounts, handles)
      && Sound(handles, begun, writing, adding, disk)
    }

    constructor (index: FileStoreIndex, disk: set<FileKey>, maxSize: nat, minSize: nat)
      requires index.Safe()
      ensures Valid() && this.index == index && handles == multiset{} && this.disk == disk
      ensures this.maxSize == maxSize && this.minSize == minSize
    {
      this.index, this.maxSize, this.minSize, this.disk := index, maxSize, minSize, disk;
      refCounts, begun, writing, adding := map[], multiset{}, multiset{}, multiset{};
      handles := multiset{};
    }

    // A handle comes to life.
    method Acquire(k: FileKey)
      requires Counted(refCounts, handles)
      modifies this`refCounts, this`handles
      ensures Counted(refCounts, handles) && handles == old(handles) + multiset{k}
    {
      var count := if k in refCounts then refCounts[k] else 0;
      refCounts := refCounts[k := count + 1];
      handles := handles + multiset{k};
    }

    // A handle is dropped.
    method Release(k: FileKey)
      requires Counted(refCounts, handles) && k in handles
      modifies this`refCounts, this`handles
      ensures Counted(refCounts, handles) && handles == old(handles) - multiset{k}
    {
      refCounts := refCounts[k := refCounts[k] - 1];
      if refCounts[k] == 0 {
        refCounts := refCounts - {k};
      }
      handles := handles - multiset{k};
    }

    /** Make room when the files take too much space. No file with a live
        handle goes, not even one that is only being stored. */
    method MaybeFlush(baseOk: bool) returns (ok: bool)
      requires Valid()
      modifies this`disk, index
      ensures Valid() && disk <= old(disk)
      ensures forall k :: k in old(disk) && k in handles ==> k in disk
      ensures ok && old(index.Exact()) ==> index.Exact()
      ensures ok ==> forall k :: k in old(index.knownFiles) && k in handles ==> k in index.knownFiles
      ensures old(index.totalSize) < maxSize ==> ok && disk == old(disk) && unchanged(index)
      ensures ok && old(index.totalSize) >= maxSize ==>
        index.totalSize <= minSize || forall k :: k in index.knownFiles ==> k in handles
    {
      if !index.NeedFlush(maxSize) { return true; }
      ghost var removed: seq<FileKey>;
      ghost var before := disk;
      hide Keys, Flushed, TotalSize, Sound;
      var left: set<FileKey>;
      ok, left, removed := index.Flush(refCounts, minSize, baseOk, disk);
      disk := left;
      HandlesKept(before, disk, refCounts, handles, removed);
      if ok {
        ghost var files, total := old(index.knownFiles), old(index.totalSize);
        LockedAreKnown(files, index.knownFiles, removed, refCounts, handles, minSize, total, index.totalSize);
        FlushedSoFar(files, index.knownFiles, removed, refCounts.Keys, minSize, total, index.totalSize);
      }
    }

    // The first step of `Store`: the handle is taken before anything else.
    method StoreBegin(k: FileKey)
      requires Valid()
      modifies this`refCounts, this`handles, this`begun
      ensures Valid() && handles == old(handles) + multiset{k} && begun == old(begun) + multiset{k}
    {
      Acquire(k);
      begun := begun + multiset{k};
    }

    // The second: the store is done when the file is there.
    method StoreLook(k: FileKey) returns (found: bool)
      requires Valid() && k in begun
      modifies this`begun, this`writing
      ensures Valid() && found == (k in disk) && begun == old(begun) - multiset{k}
      ensures writing == if found then old(writing) else old(writing) + multiset{k}
    {
      begun := begun - multiset{k};
      found := k in disk;
      if !found {
        writing := writing + multiset{k};
      }
    }

    // The third: the file is moved into place.
    method StoreWrite(k: FileKey)
      requires Valid() && k in writing
      modifies this`writing, this`disk, this`adding
      ensures Valid() && writing == old(writing) - multiset{k} && adding == old(adding) + multiset{k}
      ensures disk == old(disk) + {k}
    {
      hide Counted, Sound, TotalSize, FileStoreIndex.Safe, FileStoreIndex.Exact;
      LeaveWriting(handles, begun, writing, adding, disk, k);
      writing := writing - multiset{k};
      disk := disk + {k};
      adding := adding + multiset{k};
    }

    // Or it could not be written, and the handle is dropped.
    method StoreGiveUp(k: FileKey)
      requires Valid() && k in writing
      modifies this`writing, this`refCounts, this`handles
      ensures Valid() && writing == old(writing) - multiset{k} && handles == old(handles) - multiset{k}
    {
      hide Counted, Sound, TotalSize, FileStoreIndex.Safe, FileStoreIndex.Exact;
      GiveUpWriting(handles, begun, writing, adding, disk, k);
      InFlight(refCounts, handles, begun, writing, adding, disk, k);
      writing := writing - multiset{k};
      Release(k);
    }

    // The last: the file enters the index. Whatever fails here costs the caller
    // its handle, and nobody else theirs.
    method StoreAdd(k: FileKey, size: Option<nat>, now: int, baseOk: bool, saved: bool) returns (ok: bool)
      requires Valid() && k in adding
      modifies this, index
      ensures Valid() && adding == old(adding) - multiset{k} && begun == old(begun) && writing == old(writing)
      ensures disk <= old(disk) && forall x :: x in old(disk) && x in old(handles) ==> x in disk
      ensures handles == if ok then old(handles) else old(handles) - multiset{k}
      ensures ok ==> saved && k in disk && k in index.knownFiles && (old(index.Exact()) ==> index.Exact())
    {
      hide Counted, Sound, TotalSize, FileStoreIndex.Safe, FileStoreIndex.Exact;
      LeaveAdding(handles, begun, writing, adding, disk, k);
      InFlight(refCounts, handles, begun, writing, adding, disk, k);
      adding := adding - multiset{k};
      ok := IndexFile(k, size, now, baseOk);
      ok := ok && saved;
      if !ok {
        FewerHandles(handles, begun, writing, adding, disk, k);
        Release(k);
      }
    }

    // The file enters the index, which may have to make room.
    method IndexFile(k: FileKey, size: Option<nat>, now: int, baseOk: bool) returns (ok: bool)
      requires Valid()
      modifies this`disk, index
      ensures Valid() && disk <= old(disk) && forall x :: x in old(disk) && x in handles ==> x in disk
      ensures ok && old(index.Exact()) ==> index.Exact()
      ensures ok && k in handles ==> k in index.knownFiles
    {
      hide Counted, Sound, TotalSize;
      ok := index.Add(k, size, now);
      if ok { ok := MaybeFlush(baseOk); }
    }

    /** Store a file and get a handle to it. */
    method Store(k: FileKey, written: bool, size: Option<nat>, now: int, baseOk: bool, saved: bool) returns (ok: bool)
      requires Valid()
      modifies this, index
      ensures Valid() && begun == old(begun) && writing == old(writing) && adding == old(adding)
      ensures handles == if ok then old(handles) + multiset{k} else old(handles)
      ensures ok ==> k in disk && (k in old(disk) || k in index.knownFiles)
      ensures k in old(disk) ==> ok && disk == old(disk)
      ensures forall x :: x in old(disk) && x in old(handles) ==> x in disk
    {
      hide Counted, Sound, TotalSize, FileStoreIndex.Safe, FileStoreIndex.Exact;
      AddThenRemove(writing, k);
      AddThenRemove(handles, k);
      var found := StoreOpen(k);
      if found { return true; }
      ok := StoreMissing(k, written, size, now, baseOk, saved);
    }

    // The first two steps of `Store`.
    method StoreOpen(k: FileKey) returns (found: bool)
      requires Valid()
      modifies this`refCounts, this`handles, this`begun, this`writing
      ensures Valid() && found == (k in disk) && begun == old(begun) && handles == old(handles) + multiset{k}
      ensures writing == if found then old(writing) else old(writing) + multiset{k}
    {
      hide Counted, Sound, TotalSize, FileStoreIndex.Safe, FileStoreIndex.Exact;
      AddThenRemove(begun, k);
      StoreBegin(k);
      found := StoreLook(k);
    }

    // The rest of `Store`, when the file was not there.
    method StoreMissing(k: FileKey, written: bool, size: Option<nat>, now: int, baseOk: bool,
                        saved: bool) returns (ok: bool)
      requires Valid() && k in writing
      modifies this, index
      ensures Valid() && begun == old(begun) && writing == old(writing) - multiset{k} && adding == old(adding)
      ensures handles == if ok then old(handles) else old(handles) - multiset{k}
      ensures ok ==> k in disk && k in index.knownFiles
      ensures forall x :: x in old(disk) && x in old(handles) ==> x in disk
    {
      hide Counted, Sound, TotalSize, FileStoreIndex.Safe, FileStoreIndex.Exact;
      AddThenRemove(adding, k);
      if !written {
        StoreGiveUp(k);
        return false;
      }
      StoreWrite(k);
      ok := StoreAdd(k, size, now, baseOk, saved);
    }

    /** A handle to a file that is in the store. */
    method Get(k: FileKey, now: int) returns (found: bool)
      requires Valid()
      modifies this`refCounts, this`handles, index
      ensures Valid() && found == (k in disk) && (old(index.Exact()) ==> index.Exact())
      ensures handles == if found then old(handles) + multiset{k} else old(handles)
      ensures found && k in old(index.knownFiles) ==> k in index.knownFiles && index.knownFiles[k].lastAccess == now
    {
      if k !in disk { return false; }
      index.Touch(k, now);
      Acquire(k);
      return true;
    }

    // Whether somebody holds a handle that `Store` or `Get` returned.
    predicate Free(k: FileKey)
      reads this
    {
      k in refCounts && refCounts[k] > begun[k] + writing[k] + adding[k]
    }

    method Clone(k: FileKey)
      requires Valid() && Free(k)
      modifies this`refCounts, this`handles
      ensures Valid() && handles == old(handles) + multiset{k} && k in disk
    {
      Acquire(k);
    }

    method Drop(k: FileKey)
      requires Valid() && Free(k)
      modifies this`refCounts, this`handles
      ensures Valid() && handles == old(handles) - multiset{k}
    {
      Release(k);
    }

    /** Any interleaving of the steps of any number of callers: the counts stay
        those of the live handles, and the file of a handle that was returned
        is there for as long as the handle is. */
    method Run(ops: seq<StoreOp>)
      requires Valid()
      modifies this, index
      ensures Valid()
      ensures forall k :: Free(k) ==> k in disk
      ensures forall k :: k in refCounts ==> refCounts[k] > 0
    {
      for i := 0 to |ops|
        invariant Valid()
      {
        match ops[i] {
          case BeginStore(k) => StoreBegin(k);
          case LookForFile(k) => if k in begun { var _ := StoreLook(k); }
          case WriteFile(k, written) =>
            if k in writing && written { StoreWrite(k); }
            else if k in writing { StoreGiveUp(k); }
          case AddFile(k, size, now, baseOk, saved) => if k in adding { var _ := StoreAdd(k, size, now, baseOk, saved); }
          case GetFile(k, now) => var _ := Get(k, now);
          case CloneHandle(k) => if Free(k) { Clone(k); }
          case DropHandle(k) => if Free(k) { Drop(k); }
        }
      }
    }
  }

  lemma AddThenRemove(m: multiset<FileKey>, k: FileKey)
    ensures m + multiset{k} - multiset{k} == m
  {
  }

  lemma InFlight(refCounts: map<FileKey, nat>, handles: multiset<FileKey>, begun: multiset<FileKey>,
                 writing: multiset<FileKey>, adding: multiset<FileKey>, disk: set<FileKey>, k: FileKey)
    requires Counted(refCounts, handles) && Sound(handles, begun, writing, adding, disk)
    ensures k in writing || k in adding ==> k in handles && k in refCounts
    ensures k in adding ==> k in disk
  {
  }

  lemma LeaveWriting(handles: multiset<FileKey>, begun: multiset<FileKey>, writing: multiset<FileKey>,
                     adding: multiset<FileKey>, disk: set<FileKey>, k: FileKey)
    requires Sound(handles, begun, writing, adding, disk) && k in writing
    ensures Sound(handles, begun, writing - multiset{k}, adding + multiset{k}, disk + {k})
  {
  }

  lemma GiveUpWriting(handles: multiset<FileKey>, begun: multiset<FileKey>, writing: multiset<FileKey>,
                      adding: multiset<FileKey>, disk: set<FileKey>, k: FileKey)
    requires Sound(handles, begun, writing, adding, disk) && k in writing
    ensures Sound(handles - multiset{k}, begun, writing - multiset{k}, adding, disk)
  {
  }

  lemma LeaveAdding(handles: multiset<FileKey>, begun: multiset<FileKey>, writing: multiset<FileKey>,
                    adding: multiset<FileKey>, disk: set<FileKey>, k: FileKey)
    requires Sound(handles, begun, writing, adding, disk) && k in adding
    ensures k in handles && handles[k] > begun[k] + writing[k] + (adding - multiset{k})[k]
    ensures Sound(handles, begun, writing, adding - multiset{k}, disk)
  {
  }

  lemma FewerHandles(handles: multiset<FileKey>, begun: multiset<FileKey>, writing: multiset<FileKey>,
                     adding: multiset<FileKey>, disk: set<FileKey>, k: FileKey)
    requires Sound(handles, begun, writing, adding, disk) && handles[k] > begun[k] + writing[k] + adding[k]
    ensures Sound(handles - multiset{k}, begun, writing, adding, disk)
  {
  }

  lemma HandlesKept(disk: set<FileKey>, left: set<FileKey>, refCounts: map<FileKey, nat>, handles: multiset<FileKey>,
                    removed: seq<FileKey>)
    requires left <= disk && disk - left <= Keys(removed) && Keys(removed) !! refCounts.Keys && Counted(refCounts, handles)
    ensures forall k :: k in disk && k in handles ==> k in left
  {
    hide Keys;
  }

  lemma LockedAreKnown(files: Files, files': Files, removed: seq<FileKey>, refCounts: map<FileKey, nat>,
                       handles: multiset<FileKey>,
                       target: nat, before: nat, total: nat)
    requires Flushed(files, files', removed, refCounts.Keys, target, before, total) && Counted(refCounts, handles)
    requires Keys(removed) !! refCounts.Keys
    ensures forall k :: k in files && k in handles ==> k in files'
  {
    hide Keys, TotalSize, InPopOrder, NoneSkipped, NeededAll;
  }

  lemma FlushedSoFar(files: Files, files': Files, removed: seq<FileKey>, locked: set<FileKey>, target: nat,
                     before: nat, total: nat)
    requires Flushed(files, files', removed, locked, target, before, total)
    ensures TotalSize(files) == before ==> TotalSize(files') == total
    ensures total <= target || files'.Keys <= locked
  {
    hide Keys, TotalSize;
  }
}
