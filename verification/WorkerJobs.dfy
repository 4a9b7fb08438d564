/** How a worker gathers the files of its job before it starts it.
    Source: task-maker-exec/src/worker/mod.rs. */
module WorkerJobs {
  import opened Dag

  datatype Work = Work(group: ExecutionGroup, depKeys: map<FileId, FileKey>)

  ghost predicate NoRepetition(keys: seq<FileKey>) {
    forall i, j :: 0 <= i < j < |keys| ==> keys[i] != keys[j]
  }

  // The handles the worker has are files of the job, under the keys it was told.
  ghost predicate Matching(work: Work, handles: map<FileId, FileKey>) {
    forall f :: f in handles ==> f in Deps(work.group) && f in work.depKeys && handles[f] == work.depKeys[f]
  }

  // What is missing are files of the job, listed under their keys.
  ghost predicate Wanted(work: Work, missing: map<FileKey, seq<FileId>>) {
    && (forall k :: k in missing ==> missing[k] != [])
    && forall k, f :: k in missing && f in missing[k] ==> f in Deps(work.group) && f in work.depKeys && work.depKeys[f] == k
  }

  ghost predicate IsMissing(work: Work, missing: map<FileKey, seq<FileId>>, f: FileId) {
    f in work.depKeys && work.depKeys[f] in missing && f in missing[work.depKeys[f]]
  }

  // Every file of `deps` is there, or listed as missing.
  ghost predicate Covered(work: Work, deps: set<FileId>, handles: map<FileId, FileKey>,
                          missing: map<FileKey, seq<FileId>>) {
    forall f :: f in deps ==> f in handles || IsMissing(work, missing, f)
  }

  // No file is both there and missing.
  ghost predicate Apart(work: Work, handles: map<FileId, FileKey>, missing: map<FileKey, seq<FileId>>) {
    forall f :: f in handles ==> !IsMissing(work, missing, f)
  }

  // Each key was asked for once; it was answered unless it is still missing.
  ghost predicate AskedOnce(asked: seq<FileKey>, answered: set<FileKey>, missing: map<FileKey, seq<FileId>>) {
    && NoRepetition(asked)
    && (forall k :: k in asked <==> k in missing || k in answered)
    && (forall k :: k in answered ==> k !in missing)
  }

  ghost predicate Gathering(work: Work, deps: set<FileId>, handles: map<FileId, FileKey>,
                            missing: map<FileKey, seq<FileId>>,
                            asked: seq<FileKey>, answered: set<FileKey>) {
    && Matching(work, handles) && Wanted(work, missing) && Covered(work, deps, handles, missing)
    && AskedOnce(asked, answered, missing)
  }

  /** When nothing is missing the handles are those of all the dependencies.
      The converse holds too when no file is both there and missing. */
  lemma NothingMissing(work: Work, handles: map<FileId, FileKey>, missing: map<FileKey, seq<FileId>>,
                       asked: seq<FileKey>, answered: set<FileKey>)
    requires Gathering(work, Deps(work.group), handles, missing, asked, answered)
    ensures missing == map[] ==> handles.Keys == Deps(work.group)
    ensures Apart(work, handles, missing) && handles.Keys == Deps(work.group) ==> missing == map[]
  {
    hide Deps;
    if missing != map[] && handles.Keys == Deps(work.group) {
      var k :| k in missing;
      assert missing[k][0] in missing[k];
      assert IsMissing(work, missing, missing[k][0]);
    }
  }

  // ---------------------------------------------------------------- looking for the files

  // The store may be shared: files may appear in it between two lookups.
  ghost predicate Growing(stores: seq<set<FileKey>>) {
    forall i, j :: 0 <= i < j < |stores| ==> stores[i] <= stores[j]
  }

  // The `i`th lookup was for a file, and found it or not.
  ghost predicate Sees(work: Work, deps: seq<FileId>, stores: seq<set<FileKey>>, i: nat, f: FileId, found: bool) {
    && i < |deps| && i < |stores| && deps[i] == f && f in work.depKeys
    && (work.depKeys[f] in stores[i] <==> found)
  }

  ghost predicate Seen(work: Work, deps: seq<FileId>, stores: seq<set<FileKey>>, f: FileId, found: bool) {
    exists i :: Sees(work, deps, stores, i, f, found)
  }

  /** The files were looked for one after the other, `deps[i]` in `stores[i]`:
      the worker has those that were found, and misses those that were not. */
  ghost predicate Recorded(work: Work, deps: seq<FileId>, stores: seq<set<FileKey>>,
                           handles: map<FileId, FileKey>, missing: map<FileKey, seq<FileId>>) {
    && |deps| == |stores|
    && (forall f :: f in handles <==> Seen(work, deps, stores, f, true))
    && (forall f :: IsMissing(work, missing, f) <==> Seen(work, deps, stores, f, false))
  }

  // A file that was not there at one of its lookups is at a later one.
  ghost predicate AppearsBetween(work: Work, deps: seq<FileId>, stores: seq<set<FileKey>>) {
    exists f, i, j :: i < j && Sees(work, deps, stores, i, f, false) && Sees(work, deps, stores, j, f, true)
  }

  lemma NotBefore(work: Work, deps: seq<FileId>, stores: seq<set<FileKey>>, f: FileId, i: nat, j: nat)
    requires Growing(stores) && Sees(work, deps, stores, i, f, false) && Sees(work, deps, stores, j, f, true)
    ensures i < j
  {
    var earlier, later := stores[i], stores[j];
    assert j < i ==> later <= earlier;
  }

  /** No file is both there and missing if and only if none appears between two
      of its lookups. */
  lemma ApartExactly(work: Work, deps: seq<FileId>, stores: seq<set<FileKey>>,
                     handles: map<FileId, FileKey>, missing: map<FileKey, seq<FileId>>)
    requires Recorded(work, deps, stores, handles, missing) && Growing(stores)
    ensures Apart(work, handles, missing) <==> !AppearsBetween(work, deps, stores)
  {
    hide IsMissing, Growing, Sees;
    if f :| f in handles && IsMissing(work, missing, f) {
      assert Seen(work, deps, stores, f, true) && Seen(work, deps, stores, f, false);
      var i, j :| Sees(work, deps, stores, i, f, false) && Sees(work, deps, stores, j, f, true);
      NotBefore(work, deps, stores, f, i, j);
    }
    if f, i, j :| i < j && Sees(work, deps, stores, i, f, false) && Sees(work, deps, stores, j, f, true) {
      assert Seen(work, deps, stores, f, true) && Seen(work, deps, stores, f, false);
    }
  }

  /** In particular when no file is read twice, whatever appears in the store. */
  lemma ApartUnlessRepeated(work: Work, deps: seq<FileId>, stores: seq<set<FileKey>>,
                            handles: map<FileId, FileKey>, missing: map<FileKey, seq<FileId>>)
    requires Recorded(work, deps, stores, handles, missing) && Growing(stores)
    requires forall i, j :: 0 <= i < j < |deps| ==> deps[i] != deps[j]
    ensures Apart(work, handles, missing)
  {
    ApartExactly(work, deps, stores, handles, missing);
  }

  /** The keys the worker asks for are those of the lookups that found nothing. */
  lemma AsksForAbsent(work: Work, deps: seq<FileId>, stores: seq<set<FileKey>>, handles: map<FileId, FileKey>,
                      missing: map<FileKey, seq<FileId>>, asked: seq<FileKey>, k: FileKey)
    requires Recorded(work, deps, stores, handles, missing)
    requires Gathering(work, Deps(work.group), handles, missing, asked, {})
    ensures k in asked <==> exists f, i :: f in work.depKeys && work.depKeys[f] == k && Sees(work, deps, stores, i, f, false)
  {
    hide Deps, Sees;
    if k in asked {
      var f := missing[k][0];
      assert f in missing[k] && IsMissing(work, missing, f);
      assert Seen(work, deps, stores, f, false);
    }
    if f, i :| f in work.depKeys && work.depKeys[f] == k && Sees(work, deps, stores, i, f, false) {
      assert Seen(work, deps, stores, f, false);
      assert IsMissing(work, missing, f);
    }
  }

  // ---------------------------------------------------------------- starting as soon as possible

  // The files there will be once the keys `arrived` have come.
  ghost function Available(handles: map<FileId, FileKey>, missing: map<FileKey, seq<FileId>>, arrived: set<FileKey>): set<FileId> {
    handles.Keys + set k, f | k in arrived && k in missing && f in missing[k] :: f
  }

  /** Whatever comes first: as soon as all the files of the job are there,
      nothing is missing, and the job starts. */
  ghost predicate Prompt(work: Work, handles: map<FileId, FileKey>, missing: map<FileKey, seq<FileId>>) {
    forall arrived: set<FileKey> ::
      Available(handles, missing, arrived) == Deps(work.group) ==> missing.Keys <= arrived
  }

  // All the files with the key are there, and still it is waited for.
  ghost predicate Superfluous(handles: map<FileId, FileKey>, missing: map<FileKey, seq<FileId>>, k: FileKey) {
    k in missing && forall f :: f in missing[k] ==> f in handles
  }

  lemma PromptUnlessSuperfluous(work: Work, handles: map<FileId, FileKey>, missing: map<FileKey, seq<FileId>>,
                                asked: seq<FileKey>, answered: set<FileKey>)
    requires Gathering(work, Deps(work.group), handles, missing, asked, answered)
    ensures Prompt(work, handles, missing) <==> forall k :: !Superfluous(handles, missing, k)
  {
    hide Deps;
    if k :| Superfluous(handles, missing, k) {
      var arrived := missing.Keys - {k};
      EveryFileCounts(work, handles, missing, asked, answered, k);
      assert k in missing.Keys && k !in arrived;
    }
    if forall k :: !Superfluous(handles, missing, k) {
      forall arrived: set<FileKey> | Available(handles, missing, arrived) == Deps(work.group) ensures missing.Keys <= arrived {
        forall k | k in missing ensures k in arrived {
          assert !Superfluous(handles, missing, k);
          var f :| f in missing[k] && f !in handles;
          assert f in Deps(work.group);
          assert f in Available(handles, missing, arrived);
          var x :| x in arrived && x in missing && f in missing[x];
          assert x == work.depKeys[f] == k;
        }
      }
    }
  }

  lemma EveryFileCounts(work: Work, handles: map<FileId, FileKey>, missing: map<FileKey, seq<FileId>>,
                        asked: seq<FileKey>, answered: set<FileKey>, k: FileKey)
    requires Gathering(work, Deps(work.group), handles, missing, asked, answered) && Superfluous(handles, missing, k)
    ensures Available(handles, missing, missing.Keys - {k}) == Deps(work.group)
  {
    hide Deps;
    var available := Available(handles, missing, missing.Keys - {k});
    forall f | f in Deps(work.group) ensures f in available {
      if f !in handles {
        assert IsMissing(work, missing, f);
        assert work.depKeys[f] != k;
      }
    }
  }

  // The key was not in the store at a lookup; but each file that it was not
  // found for was found at a later lookup.
  ghost predicate FoundTooLate(work: Work, deps: seq<FileId>, stores: seq<set<FileKey>>, k: FileKey) {
    && (exists f :: HasKey(work, f, k) && Seen(work, deps, stores, f, false))
    && forall f :: HasKey(work, f, k) && Seen(work, deps, stores, f, false) ==> Seen(work, deps, stores, f, true)
  }

  ghost predicate HasKey(work: Work, f: FileId, k: FileKey) {
    f in work.depKeys && work.depKeys[f] == k
  }

  /** The job starts at the first moment it could, in every order of arrival,
      if and only if no key appears in the store so late that it is asked for
      although a second lookup finds it for all of its files. */
  lemma PromptExactly(work: Work, deps: seq<FileId>, stores: seq<set<FileKey>>, handles: map<FileId, FileKey>,
                      missing: map<FileKey, seq<FileId>>, asked: seq<FileKey>, answered: set<FileKey>)
    requires Recorded(work, deps, stores, handles, missing)
    requires Gathering(work, Deps(work.group), handles, missing, asked, answered)
    ensures Prompt(work, handles, missing) <==> forall k :: !FoundTooLate(work, deps, stores, k)
  {
    hide Deps, Seen, Prompt;
    PromptUnlessSuperfluous(work, handles, missing, asked, answered);
    forall k ensures Superfluous(handles, missing, k) <==> FoundTooLate(work, deps, stores, k) {
      SuperfluousIsTooLate(work, deps, stores, handles, missing, asked, answered, k);
    }
  }

  lemma SuperfluousIsTooLate(work: Work, deps: seq<FileId>, stores: seq<set<FileKey>>, handles: map<FileId, FileKey>,
                             missing: map<FileKey, seq<FileId>>, asked: seq<FileKey>, answered: set<FileKey>, k: FileKey)
    requires Recorded(work, deps, stores, handles, missing)
    requires Gathering(work, Deps(work.group), handles, missing, asked, answered)
    ensures Superfluous(handles, missing, k) <==> FoundTooLate(work, deps, stores, k)
  {
    hide Deps, Seen;
    if k in missing {
      var f := missing[k][0];
      assert f in missing[k] && HasKey(work, f, k) && IsMissing(work, missing, f);
    }
    forall f ensures HasKey(work, f, k) && Seen(work, deps, stores, f, false) <==> k in missing && f in missing[k] {
      assert IsMissing(work, missing, f) <==> Seen(work, deps, stores, f, false);
    }
  }

  // A group that reads the file 1 twice: on its standard input, and at a path.
  function ReadsTwice(): ExecutionGroup {
    var none := ExecutionLimits(None, None, None, None, false, None, None, None, None, false, false, false, [], false);
    var e := Execution(System("true"), [], FromFile(1), NoOutput, NoOutput, map["input" := ExecutionInput(1, false)], map[], map[], [], none);
    ExecutionGroup(0, [e], [], DagConfig(0, Everything, 0.0, 0), None, 0, None)
  }

  /** A late start: the file is stored by another thread between its two
      lookups, so the worker has a handle for every dependency and still waits
      for the file it has asked for. */
  lemma LateStart(k: FileKey)
    ensures var work, deps, stores := Work(ReadsTwice(), map[1 := k]), [1, 1], [{}, {k}];
      && (forall f :: multiset(deps)[f] == TotalReads(work.group.executions, f)) && Growing(stores)
      && Recorded(work, deps, stores, map[1 := k], map[k := [1]])
      && Gathering(work, Deps(work.group), map[1 := k], map[k := [1]], [k], {})
      && Deps(work.group) == {1}
      && !Prompt(work, map[1 := k], map[k := [1]])
  {
    var work: Work, deps: seq<FileId>, stores: seq<set<FileKey>> := Work(ReadsTwice(), map[1 := k]), [1, 1], [{}, {k}];
    var handles: map<FileId, FileKey>, missing: map<FileKey, seq<FileId>> := map[1 := k], map[k := [1]];
    TwoReads();
    assert Sees(work, deps, stores, 0, 1, false) && Sees(work, deps, stores, 1, 1, true);
    assert forall f :: IsMissing(work, missing, f) <==> f == 1;
    assert Recorded(work, deps, stores, handles, missing);
    assert Superfluous(handles, missing, k);
    PromptUnlessSuperfluous(work, handles, missing, [k], {});
  }

  lemma TwoReads()
    ensures Deps(ReadsTwice()) == {1}
    ensures forall f :: TotalReads(ReadsTwice().executions, f) == if f == 1 then 2 else 0
  {
    var e := ReadsTwice().executions[0];
    assert e.InputIds() == map["input" := 1];
    forall f ensures e.ReadCount(f) == if f == 1 then 2 else 0 {
      var paths := set p | p in e.inputFiles.Keys && p in e.InputIds() && e.InputIds()[p] == f;
      assert paths == if f == 1 then {"input"} else {};
    }
    assert ReadsTwice().executions == [e] && [e][..0] == [];
    assert e.Reads() == {1};
  }

  class Worker {
    // The job, and the handles of its files that are already there.
    var work: Option<Work>
    var handles: map<FileId, FileKey>
    // The files still to come, by key.
    var missing: map<FileKey, seq<FileId>>
    // The keys the server was asked for, for this job, and the ones it sent.
    var asked: seq<FileKey>
    ghost var answered: set<FileKey>
    // How many times the job was started.
    var starts: nat
    // The worker has asked for work and got none yet.
    var waiting: bool
    // The files in the store; other threads may add some at any time.
    var disk: set<FileKey>

    ghost predicate Valid()
      reads this
    {
      && (waiting ==> work.None?)
      && (work.None? ==> missing == map[])
      && (work.Some? ==> Gathering(work.value, Deps(work.value.group), handles, missing, asked, answered))
      && (work.Some? ==> starts == if missing == map[] then 1 else 0)
    }

    constructor (disk: set<FileKey>)
      ensures Valid() && waiting && this.disk == disk
    {
      work, handles, missing, asked, starts, waiting := None, map[], map[], [], 0, true;
      answered := {};
      this.disk := disk;
    }

    // The store is asked for a file; another thread may just have added it.
    method Look(k: FileKey) returns (found: bool)
      modifies this`disk
      ensures old(disk) <= disk && found == (k in disk)
    {
      var added: set<FileKey> := *;
      disk := disk + added;
      found := k in disk;
    }

    /** A job arrives: its files are looked for one after the other, what is in
        the store is taken and the rest is asked for, each key once. The job
        starts at once when nothing is missing. A dependency without a key stops
        the worker. */
    method ReceiveWork(group: ExecutionGroup, depKeys: map<FileId, FileKey>)
      returns (ok: bool, ghost deps: seq<FileId>, ghost stores: seq<set<FileKey>>)
      requires Valid() && waiting
      modifies this
      ensures ok <==> Deps(group) <= depKeys.Keys
      ensures forall f :: multiset(deps)[f] == TotalReads(group.executions, f)
      ensures ok ==> Valid() && work == Some(Work(group, depKeys)) && answered == {} && !waiting
      ensures ok ==> starts == if missing == map[] then 1 else 0
      ensures ok ==> Growing(stores) && Recorded(work.value, deps, stores, handles, missing)
      ensures ok && stores != [] ==> old(disk) <= stores[0] && stores[|stores| - 1] <= disk
    {
      hide Deps, Gathering, Recorded, Growing, TotalReads;
      assert work.None?;
      waiting := false;
      var inputs := group.Dependencies();
      deps, stores := inputs, [];
      var w := Work(group, depKeys);
      var have, miss := map[], map[];
      asked, answered := [], {};
      ghost var done := {};
      NothingAsked(w);
      for i := 0 to |inputs|
        invariant Gathering(w, done, have, miss, asked, {}) && Recorded(w, inputs[..i], stores, have, miss)
        invariant Growing(stores) && |stores| == i && old(disk) <= disk
        invariant i > 0 ==> old(disk) <= stores[0] && stores[i - 1] <= disk
        invariant done <= depKeys.Keys && forall f :: f in done <==> f in inputs[..i]
        invariant work.None? && answered == {} && !waiting
      {
        var f := inputs[i];
        if f !in depKeys { return false, deps, stores; }
        var k := depKeys[f];
        ghost var miss0, have0, asked0 := miss, have, asked;
        var found := Look(k);
        StoreGrows(stores, disk);
        if !found {
          if k !in miss { asked := asked + [k]; }
          miss := miss[k := (if k in miss then miss[k] else []) + [f]];
          OneMoreMissing(w, done, have, miss0, asked0, k, f);
        } else {
          have := have[f := k];
          OneMoreThere(w, done, have0, miss, asked, k, f);
        }
        OneMoreLookup(w, inputs[..i], stores, have0, miss0, k, f, disk);
        stores := stores + [disk];
        done := done + {f};
        assert inputs[..i + 1] == inputs[..i] + [inputs[i]];
      }
      assert inputs[..|inputs|] == inputs;
      assert done == Deps(group);
      missing, handles := miss, have;
      work := Some(w);
      starts := 0;
      if missing == map[] { starts := starts + 1; }
      return true, deps, stores;
    }

    /** A file arrives from the server. It is accepted if and only if it was
        asked for and not sent yet, and the job starts with the last one. */
    method ReceiveFile(k: FileKey, stored: bool) returns (ok: bool)
      requires Valid()
      modifies this
      ensures ok <==> stored && k in old(missing)
      ensures ok ==> Valid() && work == old(work) && missing == old(missing) - {k} && answered == old(answered) + {k}
      ensures ok ==> asked == old(asked) && waiting == old(waiting)
      ensures ok ==> starts == old(starts) + if missing == map[] then 1 else 0
      ensures ok ==> forall f :: f in handles <==> f in old(handles) || f in old(missing)[k]
      ensures ok && old(Apart(work.value, handles, missing)) ==> Apart(work.value, handles, missing)
    {
      hide Deps, Gathering, Apart;
      if !stored { return false; }
      disk := disk + {k};
      if k !in missing { return false; }
      var files := missing[k];
      ghost var handles0 := handles;
      handles := AddHandles(handles, files, k);
      FilesArrived(work.value, handles0, missing, handles, asked, answered, k);
      missing := missing - {k};
      answered := answered + {k};
      if missing == map[] { starts := starts + 1; }
      return true;
    }

    // All the files with the same content get a handle to it.
    method AddHandles(handles: map<FileId, FileKey>, files: seq<FileId>, k: FileKey) returns (r: map<FileId, FileKey>)
      ensures forall f :: f in r <==> f in handles || f in files
      ensures forall f :: f in r ==> r[f] == if f in files then k else handles[f]
    {
      r := handles;
      for i := 0 to |files|
        invariant forall f :: f in r <==> f in handles || f in files[..i]
        invariant forall f :: f in r ==> r[f] == if f in files[..i] then k else handles[f]
      {
        r := r[files[i] := k];
        assert files[..i + 1] == files[..i] + [files[i]];
      }
      assert files[..|files|] == files;
    }

    /** The job is over, and its files were asked for or the server is gone. */
    method FinishJob(asksForWork: bool)
      requires Valid() && work.Some? && starts == 1
      modifies this
      ensures Valid() && work.None? && waiting == asksForWork
    {
      work := None;
      waiting := asksForWork;
    }

    /** A whole job, whatever the order its files arrive in: every key that was
        asked for is sent once, and the job starts once, with all its files. */
    method GatherAll(group: ExecutionGroup, depKeys: map<FileId, FileKey>)
      requires Valid() && waiting && Deps(group) <= depKeys.Keys
      modifies this
      ensures Valid() && work == Some(Work(group, depKeys)) && starts == 1
      ensures handles == map f | f in Deps(group) :: depKeys[f]
      ensures NoRepetition(asked) && forall k :: k in asked <==> k in answered
    {
      hide Deps, NoRepetition, Gathering;
      var ok;
      ghost var deps, stores;
      ok, deps, stores := ReceiveWork(group, depKeys);
      while missing != map[]
        invariant Valid() && work == Some(Work(group, depKeys))
        decreases |missing|
      {
        var k :| k in missing;
        FewerMissing(missing, k);
        ok := ReceiveFile(k, true);
      }
      NothingMissing(work.value, handles, missing, asked, answered);
      AllThere(work.value, handles, missing, asked, answered);
    }
  }

  lemma FewerMissing(missing: map<FileKey, seq<FileId>>, k: FileKey)
    requires k in missing
    ensures |missing - {k}| < |missing|
  {
    assert (missing - {k}).Keys == missing.Keys - {k};
  }

  lemma AllThere(work: Work, handles: map<FileId, FileKey>, missing: map<FileKey, seq<FileId>>, asked: seq<FileKey>,
                 answered: set<FileKey>)
    requires Gathering(work, Deps(work.group), handles, missing, asked, answered) && missing == map[]
    requires Deps(work.group) <= work.depKeys.Keys
    ensures handles == map f | f in Deps(work.group) :: work.depKeys[f]
    ensures NoRepetition(asked) && forall k :: k in asked <==> k in answered
  {
    hide Deps, NoRepetition;
  }

  lemma NothingAsked(work: Work)
    ensures Gathering(work, {}, map[], map[], [], {}) && Recorded(work, [], [], map[], map[]) && Growing([])
  {
  }

  lemma StoreGrows(stores: seq<set<FileKey>>, disk: set<FileKey>)
    requires Growing(stores) && (stores != [] ==> stores[|stores| - 1] <= disk)
    ensures Growing(stores + [disk])
  {
  }

  lemma OneMoreSeen(work: Work, deps: seq<FileId>, stores: seq<set<FileKey>>, f: FileId, disk: set<FileKey>, x: FileId, found: bool)
    requires |deps| == |stores| && f in work.depKeys
    ensures Seen(work, deps + [f], stores + [disk], x, found) <==>
      Seen(work, deps, stores, x, found) || (x == f && (work.depKeys[f] in disk <==> found))
  {
    var deps', stores' := deps + [f], stores + [disk];
    if i: nat :| Sees(work, deps, stores, i, x, found) { assert Sees(work, deps', stores', i, x, found); }
    if x == f && (work.depKeys[f] in disk <==> found) { assert Sees(work, deps', stores', |deps|, x, found); }
    if i: nat :| Sees(work, deps', stores', i, x, found) {
      if i < |deps| { assert Sees(work, deps, stores, i, x, found); }
    }
  }

  lemma OneMoreLookup(work: Work, deps: seq<FileId>, stores: seq<set<FileKey>>, handles: map<FileId, FileKey>,
                      missing: map<FileKey, seq<FileId>>, k: FileKey, f: FileId, disk: set<FileKey>)
    requires Recorded(work, deps, stores, handles, missing) && f in work.depKeys && work.depKeys[f] == k
    ensures k in disk ==> Recorded(work, deps + [f], stores + [disk], handles[f := k], missing)
    ensures k !in disk ==>
      Recorded(work, deps + [f], stores + [disk], handles, missing[k := (if k in missing then missing[k] else []) + [f]])
  {
    hide Seen;
    forall x, found ensures Seen(work, deps + [f], stores + [disk], x, found) <==>
      Seen(work, deps, stores, x, found) || (x == f && (k in disk <==> found))
    {
      OneMoreSeen(work, deps, stores, f, disk, x, found);
    }
    MissingMore(work, missing, k, f);
  }

  lemma MissingMore(work: Work, missing: map<FileKey, seq<FileId>>, k: FileKey, f: FileId)
    requires f in work.depKeys && work.depKeys[f] == k
    ensures forall x :: IsMissing(work, missing[k := (if k in missing then missing[k] else []) + [f]], x) <==>
      IsMissing(work, missing, x) || x == f
  {
    var missing' := missing[k := (if k in missing then missing[k] else []) + [f]];
    forall x ensures IsMissing(work, missing', x) <==> IsMissing(work, missing, x) || x == f {
      assert missing'[k][|missing'[k]| - 1] == f;
    }
  }

  lemma OneMoreMissing(work: Work, deps: set<FileId>, handles: map<FileId, FileKey>, missing: map<FileKey, seq<FileId>>,
                       asked: seq<FileKey>, k: FileKey, f: FileId)
    requires Gathering(work, deps, handles, missing, asked, {})
    requires f in Deps(work.group) && f in work.depKeys && work.depKeys[f] == k
    ensures var asked' := if k in missing then asked else asked + [k];
      Gathering(work, deps + {f}, handles, missing[k := (if k in missing then missing[k] else []) + [f]], asked', {})
  {
    hide Deps, IsMissing;
    MissingMore(work, missing, k, f);
    var missing' := missing[k := (if k in missing then missing[k] else []) + [f]];
    forall x | x in deps + {f} ensures x in handles || IsMissing(work, missing', x) {
      assert IsMissing(work, missing', x) <==> IsMissing(work, missing, x) || x == f;
    }
  }

  lemma OneMoreThere(work: Work, deps: set<FileId>, handles: map<FileId, FileKey>, missing: map<FileKey, seq<FileId>>,
                     asked: seq<FileKey>, k: FileKey, f: FileId)
    requires Gathering(work, deps, handles, missing, asked, {})
    requires f in Deps(work.group) && f in work.depKeys && work.depKeys[f] == k
    ensures Gathering(work, deps + {f}, handles[f := k], missing, asked, {})
  {
    hide Deps;
  }

  lemma FilesArrived(work: Work, handles: map<FileId, FileKey>, missing: map<FileKey, seq<FileId>>,
                     handles': map<FileId, FileKey>, asked: seq<FileKey>, answered: set<FileKey>, k: FileKey)
    requires Gathering(work, Deps(work.group), handles, missing, asked, answered) && k in missing
    requires forall f :: f in handles' <==> f in handles || f in missing[k]
    requires forall f :: f in handles' ==> handles'[f] == if f in missing[k] then k else handles[f]
    ensures Gathering(work, Deps(work.group), handles', missing - {k}, asked, answered + {k})
    ensures Apart(work, handles, missing) ==> Apart(work, handles', missing - {k})
  {
    hide Deps;
  }
}
