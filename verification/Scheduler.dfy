/** The scheduler: it gives the ready groups to the workers, or takes their
    results from the cache, and tells the clients what happened.
    Source: task-maker-exec/src/scheduler.rs. */
module Scheduling {
  import opened Dag
  import opened CheckDag
  import opened CacheKeys
  import opened CacheEntries
  import opened Caching
  import opened SchedulerState
  import opened SchedulerHistory
  import opened SchedulerSteps
  import opened SchedulerFacts
  import opened SchedulerTheorems
  import opened Situations
  import opened Behaviour
  import opened Transparency
  import opened SchedulerLookups
  import opened SchedulerCalls

  // ---------------------------------------------------------------- the inputs of a job

  /** The keys of some files, looked up one by one. */
  method KeysOf(files: seq<FileId>, handles: map<FileId, FileKey>) returns (keys: map<FileId, FileKey>)
    requires forall f :: f in files ==> f in handles
    ensures forall f :: f in keys <==> f in files
    ensures forall f :: f in keys ==> keys[f] == handles[f]
  {
    keys := map[];
    for i := 0 to |files|
      invariant forall f :: f in keys <==> f in files[..i]
      invariant forall f :: f in keys ==> f in handles && keys[f] == handles[f]
    {
      keys := keys[files[i] := handles[files[i]]];
    }
  }

  // ---------------------------------------------------------------- a new client

  // The tables hold the groups of `seen`, and nothing about the others.
  ghost predicate Registered(d: ClientData, seen: set<GroupId>) {
    && d.running == {} && d.handles == map[]
    && (forall g :: g in d.missing <==> g in seen && g in d.dag.groups && Deps(d.dag.groups[g]) != {})
    && (forall g :: g in d.missing && g in d.dag.groups ==> d.missing[g] == Deps(d.dag.groups[g]))
    && (forall g :: g in d.ready <==> g in seen && g in d.dag.groups && Deps(d.dag.groups[g]) == {})
    && (forall f, g :: Lists(d.inputOf, f, g) <==> g in seen && g in d.dag.groups && f in Deps(d.dag.groups[g]))
  }

  ghost predicate Lists(inputOf: map<FileId, set<GroupId>>, f: FileId, g: GroupId) {
    f in inputOf && g in inputOf[f]
  }

  /** One group enters the tables of its client. */
  method Register(d: ClientData, group: ExecutionGroup, ghost seen: set<GroupId>) returns (r: ClientData)
    requires Registered(d, seen) && group.uuid in d.dag.groups && d.dag.groups[group.uuid] == group && group.uuid !in seen
    ensures Registered(r, seen + {group.uuid}) && r.dag == d.dag && r.callbacks == d.callbacks
  {
    hide Deps;
    var g := group.uuid;
    var deps := group.Dependencies();
    var inputOf, missing := d.inputOf, {};
    for i := 0 to |deps|
      invariant forall f :: f in missing <==> f in deps[..i]
      invariant forall f, h :: Lists(inputOf, f, h) <==> Lists(d.inputOf, f, h) || (h == g && f in deps[..i])
    {
      var f := deps[i];
      ghost var before := inputOf;
      inputOf := inputOf[f := (if f in inputOf then inputOf[f] else {}) + {g}];
      missing := missing + {f};
      assert forall x, h :: Lists(inputOf, x, h) <==> Lists(before, x, h) || (x == f && h == g);
      hide Lists;
      assert forall x :: x in deps[..i + 1] <==> x in deps[..i] || x == f;
    }
    assert missing == Deps(group) && deps[..|deps|] == deps;
    hide Lists;
    r := d.(inputOf := inputOf);
    if missing == {} {
      r := r.(ready := r.ready + {g});
    } else {
      r := r.(missing := r.missing[g := missing]);
    }
  }

  ghost predicate EntriesFor(added: multiset<ReadyExec>, c: ClientId, d: ClientData) {
    forall e :: added[e] == if IsEntry(e, c, d) then 1 else 0
  }

  ghost predicate IsEntry(e: ReadyExec, c: ClientId, d: ClientData) {
    && e.client == c && e.group in d.ready && e.group in d.dag.groups
    && e.dagPriority == d.dag.config.priority && e.priority == d.dag.groups[e.group].priority
  }

  /** The scheduling data of a new client: every group waits for its
      dependencies, and is put in the queue when it has none. */
  method NewClient(c: ClientId, dag: DagData, callbacks: WatchSet) returns (d: ClientData, added: multiset<ReadyExec>)
    requires forall g :: g in dag.groups ==> dag.groups[g].uuid == g
    ensures d.dag == dag && d.callbacks == callbacks && FreshClient(d) && Entries(added, c, d)
  {
    hide Deps;
    d, added := ClientData(dag, callbacks, map[], {}, {}, map[], map[]), multiset{};
    var todo := dag.groups.Keys;
    while todo != {}
      invariant todo <= dag.groups.Keys && d.dag == dag && d.callbacks == callbacks
      invariant Registered(d, dag.groups.Keys - todo) && EntriesFor(added, c, d)
      decreases todo
    {
      var g :| g in todo;
      ghost var before := d;
      var r := Register(d, dag.groups[g], dag.groups.Keys - todo);
      assert dag.groups.Keys - todo + {g} == dag.groups.Keys - (todo - {g});
      todo := todo - {g};
      if g in r.ready {
        added := added + multiset{ReadyExec(dag.config.priority, dag.groups[g].priority, g, c)};
      }
      d := r;
      assert forall h :: h in d.ready <==> h in before.ready || (h == g && g in r.ready);
    }
    assert dag.groups.Keys - todo == dag.groups.Keys;
    AllRegistered(d);
    EntriesAre(added, c, d);
  }

  lemma AllRegistered(d: ClientData)
    requires Registered(d, d.dag.groups.Keys)
    ensures FreshClient(d)
  {
    hide Deps;
    forall f, g ensures f in d.inputOf && g in d.inputOf[f] <==> g in d.dag.groups && f in Deps(d.dag.groups[g]) {
      assert Lists(d.inputOf, f, g) <==> g in d.dag.groups && f in Deps(d.dag.groups[g]);
    }
  }

  lemma EntriesAre(added: multiset<ReadyExec>, c: ClientId, d: ClientData)
    requires EntriesFor(added, c, d) && d.ready <= d.dag.groups.Keys
    ensures Entries(added, c, d)
  {
    assert forall e :: e in added <==> IsEntry(e, c, d);
    forall g | g in d.ready ensures Queued(added, c, g) {
      assert ReadyExec(d.dag.config.priority, d.dag.groups[g].priority, g, c) in added;
    }
  }

  // ---------------------------------------------------------------- the scheduler

  class Scheduler {
    const cache: Cache
    // What the store answers at the `t`th lookup of a group; other threads add
    // files to it and flush it meanwhile, so nothing is known of it.
    const stores: nat -> StoreView
    // How many groups were looked up so far.
    var clock: nat
    // What the executions do, which the scheduler finds out by having them run.
    ghost const world: World
    var clients: map<ClientId, ClientData>
    var readyExecs: multiset<ReadyExec>
    var workers: map<WorkerId, Option<Job>>
    // The messages sent so far, to the clients and to the workers.
    var outbox: seq<Message>
    var jobs: seq<WorkerMessage>
    // The uuids the clients have used.
    var seen: set<ClientId>
    ghost var records: map<ClientId, Record>
    // Nothing false that the cache remembers was received so far; something
    // false was received that concerns these clients only.
    ghost var honest: bool
    ghost var misled: set<ClientId>

    ghost function Snap(): State
      reads this
    {
      State(clients, readyExecs, workers, outbox, records, seen, honest, misled)
    }

    ghost predicate Valid()
      reads this, cache
    {
      Inv(Snap()) && cache.Valid() && Provisioned(workers, jobs) && Lawful()
    }

    /** As long as nothing false was received, the cache and the outcomes of the
        groups are those of the executions. */
    ghost predicate Lawful()
      reads this, cache
    {
      honest ==>
        && Stable(world) && OneKeyOneBehaviour(world)
        && CacheFollows(world, cache.entries) && Follows(world, clients, records, misled)
    }

    constructor (cache: Cache, stores: nat -> StoreView, ghost world: World)
      requires cache.Valid()
      ensures this.cache == cache && this.stores == stores && this.world == world && Valid() && Settled(Snap())
      ensures misled == {} && (honest <==> Stable(world) && OneKeyOneBehaviour(world) && CacheFollows(world, cache.entries))
      ensures clients == map[] && workers == map[] && outbox == [] && jobs == [] && seen == {}
    {
      this.cache, this.stores, this.world := cache, stores, world;
      clock, misled := 0, {};
      honest := Stable(world) && OneKeyOneBehaviour(world) && CacheFollows(world, cache.entries);
      clients, readyExecs, workers, outbox, jobs, seen := map[], multiset{}, map[], [], [], {};
      records := map[];
    }

    // The cache had nothing for any of the queued groups, at some time since
    // `from` when it was asked about the group.
    ghost predicate Sifted(from: nat)
      reads this, cache
    {
      from <= clock && AllMissed(cache.entries, clients, readyExecs, stores, from, clock)
    }

    // No worker is idle while there is something to do.
    ghost predicate Busy()
      reads this
    {
      readyExecs == multiset{} || forall w :: w in workers ==> workers[w].Some?
    }

    // -------------------------------------------------------------- telling the client

    /** Send a file to the client, if the client asked for it and it is there. */
    method SendFile(c: ClientId, f: FileId, status: bool)
      requires Valid()
      requires c in clients ==> c in records && if status then Good(clients[c], records[c], f) else Bad(records[c], f)
      requires c in clients ==> Held(clients[c], records[c], f)
      modifies this`outbox
      ensures Valid() && Quiet(old(Snap()), Snap(), {})
      ensures if c in clients && Wanted(clients[c], f)
        then outbox == old(outbox) + [FileMessage(c, clients[c], f, status)]
        else outbox == old(outbox)
      ensures c in clients && f in clients[c].callbacks.files && (status || CameWith(records[c], f)) ==>
        FileSent(outbox, c, f, status)
    {
      hide Stable, OneKeyOneBehaviour, CacheFollows, Follows, Inv, Evolves, Provisioned, Cache.Valid, Bad, Settled,
           FileSent, TrueOf, Good, Held, CameWith, HasOutcome;
      ghost var s := Snap();
      QuietRefl(s);
      if c !in clients { return; }
      OneClient(s, c);
      WorthOf(clients[c], records[c], f, status);
      var client := clients[c];
      if f !in client.callbacks.files || f !in client.handles { return; }
      var m := Message(c, FileReady(f, client.handles[f], status, f in client.callbacks.urgentFiles));
      outbox := outbox + [m];
      StepSay(s, c, m.event);
      LastSent(outbox, c, f);
    }

    /** Tell the client when its evaluation is over. */
    method CheckCompletion(c: ClientId)
      requires Valid() && Settled(Snap())
      modifies this`outbox
      ensures Valid() && Quiet(old(Snap()), Snap(), {}) && Settled(Snap())
      ensures outbox == Say(old(outbox), c in clients && clients[c].IsDone(), Message(c, EvaluationDone))
    {
      hide Stable, OneKeyOneBehaviour, CacheFollows, Follows, Inv, Evolves, Provisioned, Cache.Valid, Settled, TrueOf;
      ghost var s := Snap();
      QuietRefl(s);
      if c !in clients { return; }
      OneClient(s, c);
      if clients[c].IsDone() {
        DoneIsFinal(s, c);
        outbox := outbox + [Message(c, EvaluationDone)];
        StepSay(s, c, EvaluationDone);
      }
    }

    // Every reader of the file has been told.
    ghost method Announce(c: ClientId, f: FileId, ok: bool)
      requires Valid() && c in clients && c in records
      requires if ok then Good(clients[c], records[c], f) else Bad(records[c], f)
      requires forall g :: g in clients[c].missing ==> f !in clients[c].missing[g]
      requires f in clients[c].callbacks.files && (ok || CameWith(records[c], f)) ==> FileSent(outbox, c, f, ok)
      modifies this`records
      ensures Valid() && Quiet(old(Snap()), Snap(), {})
      ensures c in records && f in records[c].announced
    {
      hide Stable, OneKeyOneBehaviour, CacheFollows, Follows, Inv, Evolves, Provisioned, Cache.Valid, Good, Bad,
           FileSent, CameWith;
      ghost var s := Snap();
      records := records[c := Announced(records[c], f, ok)];
      StepAnnounce(s, Snap(), c, f, ok);
      if honest { FollowsSame(world, clients, s.records, misled, c, clients[c], records[c]); }
      assert clients[c := clients[c]] == clients;
    }

    // -------------------------------------------------------------- a file will never be there

    /** A waiting group is skipped. */
    method SkipGroup(c: ClientId, g: GroupId, f: FileId) returns (outs: seq<FileId>)
      requires Valid() && c in clients && c in records && g in clients[c].missing && Bad(records[c], f)
      requires f in clients[c].inputOf && g in clients[c].inputOf[f]
      modifies this`clients, this`outbox, this`records
      ensures Valid() && Quiet(old(Snap()), Snap(), {Job(c, g)})
      ensures clients == old(clients)[c := old(clients)[c].(missing := old(clients)[c].missing - {g})]
      ensures outbox == Say(old(outbox), g in clients[c].callbacks.executions, Message(c, ExecutionSkipped(g)))
      ensures Job(c, g) in Live(old(Snap())) && Job(c, g) !in Live(Snap())
      ensures AllBad(Snap(), c, outs) && AllHeld(Snap(), c, outs)
      ensures forall x :: OwedBy(old(Snap()), c, x, {Job(c, g)}) ==> x in outs
    {
      hide Stable, OneKeyOneBehaviour, CacheFollows, Follows, Inv, Evolves, Provisioned, Cache.Valid, Bad, Deps, Outs,
           Live, OwedBy;
      ghost var s := Snap();
      Reader(s, c, f, g);
      MissesSomething(s, c, g);
      var d := clients[c].(missing := clients[c].missing - {g});
      var group := d.dag.groups[g];
      clients := clients[c := d];
      if group.uuid in d.callbacks.executions {
        outbox := outbox + [Message(c, ExecutionSkipped(group.uuid))];
      }
      records := Put(records, c, g, Skipped);
      StepSkip(s, Snap(), c, g, f, d);
      if honest { FollowsMove(world, s.clients, s.records, misled, c, d, g, Waiting, Skipped); }
      PutQuiet(s, Snap(), c, g, Skipped, {Job(c, g)});
      outs := group.Outputs();
      SkippedOutputs(s, Snap(), c, g);
    }

    // Skip all the groups that wait for the file.
    method SkipReaders(c: ClientId, f: FileId) returns (failed: seq<FileId>, ghost skipped: set<Job>)
      requires Valid() && c in clients && c in records && f in clients[c].inputOf && Bad(records[c], f)
      modifies this`clients, this`outbox, this`records
      ensures Valid() && Quiet(old(Snap()), Snap(), skipped)
      ensures c in clients && c in records && Bad(records[c], f)
      ensures forall g :: g in clients[c].missing ==> f !in clients[c].missing[g]
      ensures AllBad(Snap(), c, failed) && AllHeld(Snap(), c, failed)
      ensures forall j :: j in skipped ==> j.client == c
      ensures forall x :: OwedBy(old(Snap()), c, x, skipped) ==> x in failed
      ensures failed != [] ==> Live(Snap()) < Live(old(Snap()))
    {
      hide Stable, OneKeyOneBehaviour, CacheFollows, Follows, Inv, Evolves, NoneCompleted, Provisioned, Cache.Valid,
           Bad, Live, OwedBy, AllBad, AllHeld;
      ghost var s := Snap();
      QuietRefl(s);
      ReadersOf(s, c, f);
      NothingOwedBy(s);
      failed, skipped := [], {};
      NoFiles(s, c);
      ghost var inputOf := clients[c].inputOf;
      var todo := clients[c].inputOf[f];
      while todo != {}
        invariant Valid() && Quiet(s, Snap(), skipped)
        invariant c in clients && c in records && Bad(records[c], f)
        invariant clients[c].inputOf == inputOf && todo <= inputOf[f]
        invariant forall g :: g in clients[c].missing && f in clients[c].missing[g] ==> g in todo
        invariant AllBad(Snap(), c, failed) && AllHeld(Snap(), c, failed)
        invariant forall j :: j in skipped ==> j.client == c
        invariant forall x :: OwedBy(s, c, x, skipped) ==> x in failed
        invariant forall j :: j in skipped ==> j in Live(s) && j !in Live(Snap())
        invariant failed != [] ==> skipped != {}
        decreases todo
      {
        var g :| g in todo;
        todo := todo - {g};
        if g in clients[c].missing {
          ghost var s1 := Snap();
          var outs := SkipGroup(c, g, f);
          SkipMore(s, s1, Snap(), c, g, skipped, f, failed, outs);
          failed := failed + outs;
          skipped := skipped + {Job(c, g)};
        }
      }
      SkippedShrinksLive(s, Snap(), skipped);
    }

    /** A file will not be there: every group that needs it, however
        indirectly, is skipped. */
    method FileFailed(c: ClientId, f: FileId)
      requires Valid()
      requires c in clients ==> c in records && Bad(records[c], f) && Held(clients[c], records[c], f)
      modifies this`clients, this`outbox, this`records
      ensures Valid() && Quiet(old(Snap()), Snap(), {})
      ensures c in clients ==> Knows(Snap(), c, f)
      ensures c in old(clients) && Wanted(old(clients)[c], f) ==>
        SentNext(old(outbox), outbox, FileMessage(c, old(clients)[c], f, false))
      ensures c in clients ==>
        forall path :: Downstream(clients[c].dag, f, path) && Unowed(old(Snap()), c, path) ==> AllSkipped(Snap(), c, path)
      decreases Live(Snap())
    {
      hide Stable, OneKeyOneBehaviour, CacheFollows, Follows, Inv, Evolves, NoneCompleted, Provisioned, Cache.Valid,
           Bad, Good, Live, OwedBy, Owed, Downstream, Unowed, AllSkipped, Held, CameWith, FileSent, FileMessage,
           AllBad, AllHeld;
      ghost var s := Snap();
      SendFile(c, f, false);
      ghost var s1 := Snap();
      if c !in clients { return; }
      LiveStays(s, s1, {});
      ReadersOf(s1, c, f);
      if f !in clients[c].inputOf {
        Announce(c, f, false);
        QuietThen(s, s1, Snap(), {});
        DownstreamIsSkipped(s, Snap(), c, f);
        LiveStays(s1, Snap(), {});
        return;
      }
      var failed: seq<FileId>;
      ghost var skipped: set<Job>;
      failed, skipped := SkipReaders(c, f);
      ghost var s2 := Snap();
      StillSentBad(s1, s2, skipped, c, f);
      Announce(c, f, false);
      AfterSkipping(s, s1, s2, Snap(), c, failed, skipped);
      LiveStays(s1, s2, skipped);
      LiveStays(s2, Snap(), {});
      for i := 0 to |failed|
        invariant Valid() && Quiet(s, Snap(), skipped) && AllBad(Snap(), c, failed) && AllHeld(Snap(), c, failed)
        invariant Knows(Snap(), c, f) && forall k :: 0 <= k < i ==> Knows(Snap(), c, failed[k])
        invariant failed != [] ==> Live(Snap()) < Live(s)
        invariant s1.outbox <= outbox
      {
        ghost var s4 := Snap();
        BadFileAt(s4, c, failed, i);
        FileFailed(c, failed[i]);
        ClientStays(s4, Snap(), {}, {}, c);
        forall x | Knows(s4, c, x) ensures Knows(Snap(), c, x) { KnowsStays(s4, Snap(), {}, {}, c, x); }
        AllBadStays(s4, Snap(), {}, {}, c, failed);
        AllHeldStays(s4, Snap(), {}, c, failed);
        QuietThen(s, s4, Snap(), skipped);
        LiveStays(s4, Snap(), {});
      }
      AllKnow(s, Snap(), c, failed, skipped);
      Discharge(s, Snap(), {}, skipped);
      DownstreamIsSkipped(s, Snap(), c, f);
    }

    // -------------------------------------------------------------- a file is there

    /** A waiting group gets a file; when it was the last one the group is ready. */
    method MeetGroup(c: ClientId, g: GroupId, f: FileId)
      requires c in clients && c in records && g in clients[c].missing && g in clients[c].dag.groups
      requires Valid() && Good(clients[c], records[c], f) && f in clients[c].inputOf && g in clients[c].inputOf[f]
      modifies this`clients, this`readyExecs, this`records
      ensures Valid() && Quiet(old(Snap()), Snap(), {})
      ensures var d, left := old(clients)[c], old(clients)[c].missing[g] - {f};
        if left == {} then
          && clients == old(clients)[c := d.(missing := d.missing - {g}, ready := d.ready + {g})]
          && readyExecs == old(readyExecs) + multiset{ReadyExec(HIGH_PRIORITY, d.dag.groups[g].priority, g, c)}
        else
          clients == old(clients)[c := d.(missing := d.missing[g := left])] && readyExecs == old(readyExecs)
    {
      hide Stable, OneKeyOneBehaviour, CacheFollows, Follows, Inv, Evolves, Provisioned, Cache.Valid, Good, Bad,
           HasOutcome;
      ghost var s := Snap();
      MissesSomething(s, c, g);
      var client := clients[c];
      var files := client.missing[g] - {f};
      if files == {} {
        assert client.missing[g] == {f};
        var e := ReadyExec(HIGH_PRIORITY, client.dag.groups[g].priority, g, c);
        readyExecs := readyExecs + multiset{e};
        clients := clients[c := client.(missing := client.missing - {g}, ready := client.ready + {g})];
        records := Put(records, c, g, Ready);
        StepPromote(s, Snap(), c, g, f, clients[c], e);
        if honest { FollowsMove(world, s.clients, s.records, misled, c, clients[c], g, Waiting, Ready); }
        PutQuiet(s, Snap(), c, g, Ready, {});
      } else {
        clients := clients[c := client.(missing := client.missing[g := files])];
        StepMeet(s, c, g, f, clients[c]);
        if honest { FollowsSame(world, s.clients, s.records, misled, c, clients[c], records[c]); }
        assert records[c := records[c]] == records;
      }
    }

    // Tell all the groups that wait for the file.
    method MeetReaders(c: ClientId, f: FileId)
      requires c in clients && c in records && f in clients[c].inputOf
      requires Valid() && Good(clients[c], records[c], f)
      modifies this`clients, this`readyExecs, this`records
      ensures Valid() && Quiet(old(Snap()), Snap(), {})
      ensures c in clients && forall g :: g in clients[c].missing ==> f !in clients[c].missing[g]
    {
      hide Stable, OneKeyOneBehaviour, CacheFollows, Follows, Inv, Evolves, NoneCompleted, Provisioned, Cache.Valid,
           Good, Bad;
      ghost var s := Snap();
      QuietRefl(s);
      ReadersOf(s, c, f);
      ghost var inputOf := clients[c].inputOf;
      var todo := clients[c].inputOf[f];
      while todo != {}
        invariant Valid() && Quiet(s, Snap(), {})
        invariant c in clients && c in records && Good(clients[c], records[c], f)
        invariant clients[c].inputOf == inputOf && todo <= inputOf[f]
        invariant forall g :: g in clients[c].missing && f in clients[c].missing[g] ==> g in todo
        decreases todo
      {
        var g :| g in todo;
        todo := todo - {g};
        if g in clients[c].missing {
          ghost var s1 := Snap();
          Reader(s1, c, f, g);
          MeetGroup(c, g, f);
          QuietThen(s, s1, Snap(), {});
          GoodStays(s1, Snap(), {}, {}, c, f);
        }
      }
    }

    /** A file is there: every group that waits only for it is now ready, and
        may be done already or start at once. */
    method FileSuccess(c: ClientId, f: FileId)
      requires c in clients ==> c in records && Good(clients[c], records[c], f) && Held(clients[c], records[c], f)
      requires Valid()
      modifies this, cache
      ensures Valid() && unchanged(cache) && old(clock) <= clock && Handed(old(workers), old(jobs), workers, jobs)
      ensures Proceeds(old(Snap()), Snap(), cache.entries, stores, old(clock), clock)
      ensures c in clients ==> Knows(Snap(), c, f)
      ensures c in old(clients) && Wanted(old(clients)[c], f) ==>
        SentNext(old(outbox), outbox, FileMessage(c, old(clients)[c], f, true))
      ensures c in clients && f in clients[c].inputOf ==> Sifted(old(clock)) && Busy()
      decreases Live(Snap()), 1
    {
      hide Stable, OneKeyOneBehaviour, CacheFollows, Follows, Inv, Evolves, NoneCompleted, Sourced, Provisioned,
           Cache.Valid, Good, Bad, Live, FileSent, AllMissed, SameData, AllGiven, AllStarted, NotAbove, TakenFromTop,
           Knows, Held, CameWith, FileMessage, Handed;
      ghost var s := Snap();
      NothingHanded(workers, jobs);
      SendFile(c, f, true);
      ghost var s1 := Snap();
      QuietProceeds(s, s1, cache.entries, stores, old(clock), clock);
      if c !in clients { return; }
      ReadersOf(s1, c, f);
      if f !in clients[c].inputOf {
        Announce(c, f, true);
        QuietThen(s, s1, Snap(), {});
        QuietProceeds(s, Snap(), cache.entries, stores, old(clock), clock);
        IsKnown(Snap(), c, f);
        LiveStays(s1, Snap(), {});
        return;
      }
      MeetReaders(c, f);
      ghost var s2 := Snap();
      ClientStays(s1, s2, {}, {}, c);
      GoodStays(s1, s2, {}, {}, c, f);
      LiveStays(s1, s2, {});
      Announce(c, f, true);
      ghost var s3 := Snap();
      IsKnown(s3, c, f);
      QuietThen(s, s1, s2, {});
      QuietThen(s, s2, s3, {});
      LiveStays(s, s3, {});
      LiveStays(s2, s3, {});
      ScheduleCached();
      ghost var s4, jobs4 := Snap(), jobs;
      AssignJobs();
      HandedThen(s.workers, old(jobs), s4.workers, jobs4, workers, jobs);
      SiftedToo(cache.entries, s4.clients, clients, s4.heap, readyExecs, stores, old(clock), clock);
      QuietThenProceeds(s, s3, s4, cache.entries, stores, old(clock), clock);
      ProceedsThenQuiet(s, s4, Snap(), cache.entries, stores, old(clock), clock);
      KnowsStays(s3, s4, {}, {}, c, f);
      KnowsStays(s4, Snap(), {}, {}, c, f);
      LiveStays(s3, s4, {});
      LiveStays(s4, Snap(), {});
    }

    // -------------------------------------------------------------- a group has results

    /** Store the results of a group in the cache. */
    method CacheExecution(c: ClientId, group: ExecutionGroup, outputs: map<FileId, FileKey>,
                          results: seq<ExecutionResult>, ghost handles: map<FileId, FileKey>)
      requires cache.Valid() && (honest ==> OneKeyOneBehaviour(world) && CacheFollows(world, cache.entries))
      requires honest && c in clients ==> MayBeCached(world, handles, clients[c].handles, group, results, outputs)
      requires c in clients ==> Deps(group) + outputs.Keys <= clients[c].handles.Keys
      requires Outs(group) <= outputs.Keys && |results| == |group.executions|
      modifies cache
      ensures cache.Valid() && (honest ==> CacheFollows(world, cache.entries))
      ensures c !in clients ==> unchanged(cache)
      ensures c in clients ==> Remembered(old(cache.entries), cache.entries, group, clients[c].handles, results)
    {
      if c !in clients { return; }
      hide Stable, OneKeyOneBehaviour, CacheFollows, Cache.Valid, Deps, Outs, GroupHasKeys, HasOutputFiles, KeyOf,
           Records, Recorded, MayBeCached;
      ghost var entries := cache.entries;
      var client := clients[c];
      var deps := group.Dependencies();
      var depKeys := KeysOf(deps, client.handles);
      var outs := group.Outputs();
      var outKeys := KeysOf(outs, outputs);
      DepsGiveKeys(group, client.handles);
      OutsGiveFiles(group, client.handles);
      cache.Insert(group, client.handles, results);
      InsertedIsRemembered(entries, cache.entries, group, client.handles, results);
      if honest { InsertedFollows(world, entries, cache.entries, handles, client.handles, group, results, outputs); }
    }

    /** A group has results: the client is told, the cache remembers them, and
        its outputs are passed on to their readers. */
    method ExecCompleted(c: ClientId, group: ExecutionGroup, results: seq<ExecutionResult>,
                         outputs: map<FileId, FileKey>, fromCache: bool)
      requires c in clients ==> c in records && Is(records, c, group.uuid, Completing)
      requires c in clients ==> group.uuid in clients[c].dag.groups && clients[c].dag.groups[group.uuid] == group
      requires Valid() && |results| == |group.executions|
      requires fromCache || !AnyInternalError(results) ==> Outs(group) <= outputs.Keys
      requires honest && c in clients ==>
        AsExpected(world, clients[c].handles, group, results, outputs, fromCache, c in misled)
      modifies this, cache
      ensures Valid() && old(clock) <= clock && (old(c in clients) ==> Sifted(old(clock)))
      ensures Handed(old(workers), old(jobs), workers, jobs)
      ensures Proceeds(WithReport(old(Snap()), c, group.uuid, Report(results, outputs)), Snap(), cache.entries, stores,
                       old(clock), clock)
      ensures old(c !in clients) ==> Snap() == old(Snap())
      ensures old(c in clients) ==> Evolves(old(Snap()), Snap(), {Job(c, group.uuid)}, {})
      ensures old(c in clients) ==> Inv(WithReport(old(Snap()), c, group.uuid, Report(results, outputs)))
      ensures fromCache || AnyInternalError(results) || old(c !in clients) ==> unchanged(cache)
      ensures old(c in clients) && !fromCache && !AnyInternalError(results) ==>
        Remembered(old(cache.entries), cache.entries, group, old(clients)[c].handles + outputs, results)
      decreases Live(Snap()), 3
    {
      hide Stable, OneKeyOneBehaviour, CacheFollows, Follows, Inv, Evolves, NoneCompleted, Sourced, Provisioned,
           Cache.Valid, Good, Bad, Live, AllSuccess, AnyInternalError, Is, Put, Outs, Deps, GroupHasKeys, KeyOf,
           Remembered, OwedBy, Owed, AllMissed, AsExpected, Right, Genuine, SameHandles, MayBeCached, ClientInv,
           AllGood, AllBad, AllHeld, WithReport, Handed;
      ghost var s := Snap();
      ghost var report := Report(results, outputs);
      if c !in clients {
        NothingHanded(workers, jobs);
        QuietRefl(s);
        NoReport(s, c, group.uuid, report);
        QuietProceeds(s, s, cache.entries, stores, clock, clock);
        return;
      }
      ghost var job := Job(c, group.uuid);
      SuccessIsNoError(results);
      CompletingInputs(s, c, group.uuid);
      MergedKeys(clients[c].handles, outputs, Deps(group));
      if s.Trusts(c) { ExpectedIsRight(world, clients[c].handles, group, results, outputs, fromCache); }
      RecordResults(c, group, results, outputs);
      ghost var s1 := Snap();
      var successful := AllSuccess(results);
      var internalError := AnyInternalError(results);
      if !fromCache && !internalError {
        if honest { CachedAsExpected(world, s, s1, c, group, results, outputs); }
        CacheExecution(c, group, outputs, results, s.clients[c].handles);
      }
      var outs := group.Outputs();
      AfterResults(s, s1, c, group, report, outs);
      PassOn(c, outs, successful);
      ghost var s2, jobs2, now := Snap(), jobs, clock;
      AfterPassing(s, s1, s2, c, group.uuid, report, outs);
      ScheduleCached();
      HandedThen(s.workers, old(jobs), s2.workers, jobs2, workers, jobs);
      MissedWithin(cache.entries, clients, readyExecs, stores, now, clock, old(clock), clock);
      ProceedsThen(s1, s2, Snap(), cache.entries, stores, old(clock), now, now, clock);
      EvolvesThen(s, s2, Snap(), {job}, {});
    }

    // The readers of all the outputs of a group are told.
    method PassOn(c: ClientId, outs: seq<FileId>, successful: bool)
      requires Valid() && AllHeld(Snap(), c, outs)
      requires if successful then AllGood(Snap(), c, outs) else AllBad(Snap(), c, outs)
      modifies this, cache
      ensures Valid() && unchanged(cache) && old(clock) <= clock && Handed(old(workers), old(jobs), workers, jobs)
      ensures Proceeds(old(Snap()), Snap(), cache.entries, stores, old(clock), clock)
      ensures forall k :: 0 <= k < |outs| ==> Knows(Snap(), c, outs[k])
      decreases Live(Snap()), 2
    {
      hide Stable, OneKeyOneBehaviour, CacheFollows, Follows, Inv, Evolves, NoneCompleted, Sourced, Provisioned,
           Cache.Valid, Good, Bad, Live, Knows, Held, AllGood, AllBad, AllHeld, FileMessage, Downstream, Unowed,
           AllSkipped, Handed;
      ghost var s := Snap();
      QuietRefl(s);
      NothingHanded(workers, jobs);
      QuietProceeds(s, s, cache.entries, stores, clock, clock);
      for i := 0 to |outs|
        invariant Valid() && unchanged(cache) && old(clock) <= clock && AllHeld(Snap(), c, outs)
        invariant Handed(old(workers), old(jobs), workers, jobs)
        invariant Proceeds(s, Snap(), cache.entries, stores, old(clock), clock)
        invariant if successful then AllGood(Snap(), c, outs) else AllBad(Snap(), c, outs)
        invariant forall k :: 0 <= k < i ==> Knows(Snap(), c, outs[k])
        invariant Live(Snap()) <= Live(s)
      {
        ghost var s1, jobs1, now := Snap(), jobs, clock;
        if successful {
          GoodFileAt(s1, c, outs, i);
          FileSuccess(c, outs[i]);
        } else {
          BadFileAt(s1, c, outs, i);
          FileFailed(c, outs[i]);
          NothingHanded(workers, jobs);
          QuietProceeds(s1, Snap(), cache.entries, stores, now, clock);
        }
        HandedThen(s.workers, old(jobs), s1.workers, jobs1, workers, jobs);
        ClientStays(s1, Snap(), {}, {}, c);
        if successful { AllGoodStays(s1, Snap(), {}, {}, c, outs); } else { AllBadStays(s1, Snap(), {}, {}, c, outs); }
        AllHeldStays(s1, Snap(), {}, c, outs);
        forall x | Knows(s1, c, x) ensures Knows(Snap(), c, x) { KnowsStays(s1, Snap(), {}, {}, c, x); }
        ProceedsThen(s, s1, Snap(), cache.entries, stores, old(clock), now, now, clock);
        LiveStays(s1, Snap(), {});
      }
    }

    // The first part: what the results change for the client itself.
    method RecordResults(c: ClientId, group: ExecutionGroup, results: seq<ExecutionResult>,
                         outputs: map<FileId, FileKey>)
      requires c in clients && c in records && Is(records, c, group.uuid, Completing)
      requires group.uuid in clients[c].dag.groups && clients[c].dag.groups[group.uuid] == group
      requires Valid() && (AllSuccess(results) ==> Outs(group) <= outputs.Keys)
      requires Snap().Trusts(c) ==>
        outputs.Keys <= Outs(group) && Right(world, clients[c].handles, group, AllSuccess(results), outputs)
      modifies this`clients, this`outbox, this`records
      ensures Valid() && Evolves(old(Snap()), Snap(), {Job(c, group.uuid)}, {Job(c, group.uuid)})
      ensures Snap() == WithReport(old(Snap()), c, group.uuid, Report(results, outputs))
      ensures clients == old(clients)[c := old(clients)[c].(handles := old(clients)[c].handles + outputs)]
      ensures Snap().Trusts(c) ==> SameHandles(old(clients)[c].handles, old(clients)[c].handles + outputs)
    {
      hide Stable, OneKeyOneBehaviour, CacheFollows, Follows, Inv, Evolves, Provisioned, Cache.Valid, AllSuccess, Is,
           Outs, Right, SameHandles, ClientInv, OutcomeOf, Ending;
      ghost var s := Snap();
      var client := clients[c];
      if group.uuid in client.callbacks.executions {
        outbox := outbox + [Message(c, ExecutionDone(group.uuid, results))];
      }
      clients := clients[c := client.(handles := client.handles + outputs)];
      records := Ending(records, c, group.uuid, Report(results, outputs));
      RecordStep(world, s, Snap(), c, group, Report(results, outputs));
    }

    // -------------------------------------------------------------- looking up the cache

    ghost function With(heap: multiset<ReadyExec>): State
      reads this
    {
      Snap().(heap := heap)
    }

    /** Whether a group may be looked up in the cache. */
    static predicate IsCacheable(group: ExecutionGroup, mode: CacheMode) {
      match mode
      case Everything => true
      case Nothing => false
      case Except(tags) => group.tag.None? || group.tag.value !in tags
    }

    // What the cache has for one ready group.
    method LookUp(client: ClientData, group: ExecutionGroup) returns (r: CacheResult)
      requires cache.Valid() && Deps(group) <= client.handles.Keys
      modifies this`clock
      ensures clock == old(clock) + 1
      ensures Uncached(group, client.dag.config.cacheMode) ==> r.Miss?
      ensures Looked(r, cache.entries, group, client.dag.config.cacheMode, client.handles, stores(old(clock)))
      ensures r.Hit? ==> |r.results| == |group.executions| && r.outputs.Keys == Outs(group)
    {
      hide Cache.Valid, Deps, Outs, GroupHasKeys, KeyOf, Answers;
      var view := stores(clock);
      clock := clock + 1;
      if !IsCacheable(group, client.dag.config.cacheMode) { return Miss; }
      DepsGiveKeys(group, client.handles);
      r := cache.Get(group, client.handles, view);
    }

    // A ready group leaves the queue, with its results.
    method TakeHit(e: ReadyExec, ghost heap: multiset<ReadyExec>)
      requires e in heap && e.client in clients && e.client in records
      requires Inv(With(heap)) && Lawful()
      modifies this`clients, this`records
      ensures Inv(With(heap - multiset{e})) && Lawful()
      ensures Marked(old(With(heap)), With(heap - multiset{e}), {Job(e.client, e.group)})
      ensures clients == old(clients)[e.client := old(clients)[e.client].(ready := old(clients)[e.client].ready - {e.group})]
      ensures e.client in records && Is(records, e.client, e.group, Completing)
      ensures Is(old(records), e.client, e.group, Ready)
    {
      hide Stable, OneKeyOneBehaviour, CacheFollows, Follows, Inv, Marked, Put, Is;
      ghost var s := With(heap);
      QueuedInputs(s, e);
      clients := clients[e.client := clients[e.client].(ready := clients[e.client].ready - {e.group})];
      records := Put(records, e.client, e.group, Completing);
      StepTakeHit(s, With(heap - multiset{e}), e, clients[e.client]);
      if honest { FollowsMove(world, s.clients, s.records, misled, e.client, clients[e.client], e.group, Ready, Completing); }
      NowCompleting(s.records, e.client, e.group);
    }

    /** Look up every ready group, once, and take those that the cache has results
        for out of the queue; the ones that stay are those it had nothing for. */
    method TakeCached() returns (cached: seq<CachedExec>)
      requires Valid()
      modifies this`clients, this`readyExecs, this`records, this`clock
      ensures Valid() && Marked(old(Snap()), Snap(), JobsUpTo(cached, |cached|)) && AllPending(cached, 0, Snap())
      ensures SameButReady(old(clients), clients)
      ensures clock == old(clock) + |old(readyExecs)|
      ensures AllMissed(cache.entries, old(clients), readyExecs, stores, old(clock), clock)
      ensures AllFound(cache.entries, old(clients), cached, stores, old(clock), clock)
      ensures cached != [] ==> Live(Snap()) < Live(old(Snap()))
    {
      hide Stable, OneKeyOneBehaviour, CacheFollows, Follows, Inv, Marked, Provisioned, Cache.Valid, Live, AllPending,
           JobsUpTo, SameButReady, AllMissed, AllFound;
      ghost var s, from := Snap(), clock;
      NothingTaken(s);
      NothingLooked(cache.entries, s.clients, stores, from);
      var todo, notCached := readyExecs, multiset{};
      cached := [];
      assert notCached + todo == readyExecs;
      while todo != multiset{}
        invariant Taking(s, cached, notCached, todo, from) && clock + |todo| == from + |s.heap|
        decreases |todo|
      {
        var e :| e in todo;
        var hit := Examine(e, s, cached, notCached, todo, from);
        if hit.Some? {
          cached := cached + [hit.value];
        } else {
          notCached := notCached + multiset{e};
        }
        todo := todo - multiset{e};
      }
      assert notCached + todo == notCached;
      readyExecs := notCached;
      if cached != [] { HitsShrinkLive(s, Snap(), cached); }
    }

    // What holds while the queue is walked, since the time `from`: `left` has
    // been looked at and stays, `todo` is still to be looked at.
    ghost predicate Taking(s: State, cached: seq<CachedExec>, left: multiset<ReadyExec>, todo: multiset<ReadyExec>,
                           from: nat)
      reads this, cache
    {
      && Inv(With(left + todo)) && Lawful() && Marked(s, With(left + todo), JobsUpTo(cached, |cached|))
      && AllPending(cached, 0, With(left + todo))
      && SameButReady(s.clients, clients) && from <= clock
      && AllMissed(cache.entries, s.clients, left, stores, from, clock) && AllFound(cache.entries, s.clients, cached, stores, from, clock)
    }

    // One entry is looked up, and leaves the queue if and only if the cache has results.
    method Examine(e: ReadyExec, ghost s: State, ghost cached: seq<CachedExec>, ghost left: multiset<ReadyExec>,
                   ghost todo: multiset<ReadyExec>, ghost from: nat)
      returns (hit: Option<CachedExec>)
      requires Taking(s, cached, left, todo, from) && e in todo && cache.Valid()
      modifies this`clients, this`records, this`clock
      ensures clock == old(clock) + 1
      ensures hit.Some? ==>
        JobOf(hit.value) == Job(e.client, e.group) && Found(cache.entries, old(clients), hit.value, stores(old(clock)))
      ensures hit.None? ==> Missed(cache.entries, old(clients), e, stores(old(clock)))
      ensures hit.Some? ==> Taking(s, cached + [hit.value], left, todo - multiset{e}, from)
      ensures hit.None? ==> Taking(s, cached, left + multiset{e}, todo - multiset{e}, from)
    {
      hide Stable, OneKeyOneBehaviour, CacheFollows, Follows, Inv, Marked, Cache.Valid, Is, Looked, Deps, Outs,
           AllPending, JobsUpTo, SameButReady, AllMissed, AllFound;
      ghost var heap, t := left + todo, clock;
      QueuedInputs(With(heap), e);
      if e.client !in clients { assert false; }
      var client := clients[e.client];
      var group := client.dag.groups[e.group];
      var r := LookUp(client, group);
      JobIsNew(With(heap), left, todo, e, cached);
      match r {
        case Hit(results, outputs) =>
          ghost var s1 := With(heap);
          TakeHit(e, heap);
          assert heap - multiset{e} == left + (todo - multiset{e});
          var x := CachedExec(e.client, group, Report(results, outputs));
          OneMoreHit(s, s1, With(heap - multiset{e}), cached, x);
          OneReadyLess(s.clients, s1.clients, e.client, e.group);
          OneMoreFound(cache.entries, s.clients, s1.clients, cached, x, stores, from, t);
          MissedWithin(cache.entries, s.clients, left, stores, from, t, from, clock);
          hit := Some(x);
        case Miss =>
          assert heap == (left + multiset{e}) + (todo - multiset{e});
          OneMoreMissed(cache.entries, s.clients, clients, left, e, stores, from, t);
          StillFound(cache.entries, s.clients, cached, stores, from, t);
          hit := None;
      }
    }

    /** Complete every ready group that the cache has results for. */
    method ScheduleCached()
      requires Valid()
      modifies this, cache
      ensures Valid() && unchanged(cache) && Sifted(old(clock)) && Handed(old(workers), old(jobs), workers, jobs)
      ensures Proceeds(old(Snap()), Snap(), cache.entries, stores, old(clock), clock)
      decreases Live(Snap()), 0
    {
      hide Stable, OneKeyOneBehaviour, CacheFollows, Follows, Inv, Evolves, NoneCompleted, Sourced, Marked,
           Provisioned, Cache.Valid, Is, Live, AllMissed, AllFound, SameButReady, SameData, Outs, Remembered, KeyOf,
           GroupHasKeys, AllPending, JobsUpTo, AsExpected, AllRight, HitsDone, WithReport, Handed;
      ghost var s := Snap();
      NothingHanded(workers, jobs);
      var cached := TakeCached();
      ghost var s1, mid := Snap(), clock;
      NoHitDone(s, s1, cached, cache.entries, stores, old(clock), clock);
      ButReadyIsSame(s.clients, clients);
      FoundToo(cache.entries, s.clients, s1.clients, cached, stores, old(clock), mid);
      if honest { HitsAreRight(world, cache.entries, s, s1, cached, stores, old(clock), clock); }
      SiftedToo(cache.entries, s.clients, clients, readyExecs, readyExecs, stores, old(clock), clock);
      for i := 0 to |cached|
        invariant Valid() && unchanged(cache) && mid <= clock && Sifted(old(clock))
        invariant Handed(old(workers), old(jobs), workers, jobs)
        invariant HitsDone(s, s1, Snap(), cached, i, cache.entries, stores, old(clock), clock)
        invariant s1.honest ==> AllRight(world, s1, cached)
      {
        ghost var s2, jobs2, now := Snap(), jobs, clock;
        var x := cached[i];
        HitAt(s, s1, s2, cached, i, cache.entries, stores, old(clock), now);
        StillRight(world, s1, s2, cached, i);
        ExecCompleted(x.client, x.group, x.report.results, x.report.outputs, true);
        MissedWithin(cache.entries, clients, readyExecs, stores, now, clock, old(clock), clock);
        HandedThen(s.workers, old(jobs), s2.workers, jobs2, workers, jobs);
        OneMoreDone(s, s1, s2, Snap(), cached, i, cache.entries, stores, old(clock), mid, now, clock);
      }
      AllHitsDone(s, s1, Snap(), cached, cache.entries, stores, old(clock), clock);
    }

    // -------------------------------------------------------------- giving work to the workers

    /** The entry with the highest priority leaves the queue. */
    method PopMax() returns (e: ReadyExec)
      requires readyExecs != multiset{}
      modifies this`readyExecs
      ensures IsTop(old(readyExecs), e) && readyExecs == old(readyExecs) - multiset{e}
      ensures forall x :: x in old(readyExecs) ==>
        x.dagPriority <= e.dagPriority && (x.dagPriority == e.dagPriority ==> x.priority <= e.priority)
    {
      HasTop(readyExecs);
      e :| e in readyExecs && forall x :: x in readyExecs ==> NotAbove(x, e);
      readyExecs := readyExecs - multiset{e};
    }

    // A worker is told what to do, and where the inputs are.
    method SendJob(w: WorkerId, client: ClientData, g: GroupId)
      requires g in client.dag.groups && Deps(client.dag.groups[g]) <= client.handles.Keys && client.dag.groups[g].uuid == g
      modifies this`jobs
      ensures |jobs| == |old(jobs)| + 1 && old(jobs) <= jobs
      ensures IsJob(jobs[|old(jobs)|], w, client, g)
    {
      hide Deps;
      var group := client.dag.groups[g];
      var deps := group.Dependencies();
      var depKeys := KeysOf(deps, client.handles);
      jobs := jobs + [WorkerJob(w, group, depKeys)];
      assert depKeys.Keys == Deps(group);
    }

    // A free worker gets the first group of the queue.
    method Dispatch(w: WorkerId) returns (e: ReadyExec)
      requires w in workers && workers[w].None? && readyExecs != multiset{}
      requires Valid()
      modifies this`clients, this`readyExecs, this`workers, this`jobs, this`outbox, this`records
      ensures Valid() && Quiet(old(Snap()), Snap(), {})
      ensures IsTop(old(readyExecs), e) && readyExecs == old(readyExecs) - multiset{e}
      ensures workers == old(workers)[w := Some(Job(e.client, e.group))]
      ensures |jobs| == |old(jobs)| + 1 && old(jobs) <= jobs
      ensures e.client in clients
        && outbox == Say(old(outbox), e.group in clients[e.client].callbacks.executions, Message(e.client, ExecutionStarted(e.group, w)))
      ensures e.client in clients && IsJob(jobs[|old(jobs)|], w, clients[e.client], e.group)
      ensures SameData(old(clients), clients)
    {
      hide Stable, OneKeyOneBehaviour, CacheFollows, Follows, Inv, Evolves, Cache.Valid, Deps, IsTop, NotAbove, IsJob,
           Provisioned, SameData;
      ghost var heap := readyExecs;
      e := PopMax();
      EntryOfTop(heap, e);
      Start(w, e, heap);
    }

    // The entry is the worker's job now.
    method Start(w: WorkerId, e: ReadyExec, ghost heap: multiset<ReadyExec>)
      requires w in workers && workers[w].None? && e in heap && readyExecs == heap - multiset{e}
      requires Inv(With(heap)) && cache.Valid() && Provisioned(workers, jobs) && Lawful()
      modifies this`clients, this`workers, this`jobs, this`outbox, this`records
      ensures Valid() && Quiet(old(With(heap)), Snap(), {})
      ensures workers == old(workers)[w := Some(Job(e.client, e.group))]
      ensures |jobs| == |old(jobs)| + 1 && old(jobs) <= jobs
      ensures e.client in clients
        && outbox == Say(old(outbox), e.group in clients[e.client].callbacks.executions, Message(e.client, ExecutionStarted(e.group, w)))
      ensures e.client in clients && IsJob(jobs[|old(jobs)|], w, clients[e.client], e.group)
      ensures SameData(old(clients), clients)
    {
      hide Stable, OneKeyOneBehaviour, CacheFollows, Follows, Inv, Evolves, Cache.Valid, Is, Put, Deps, IsJob,
           Provisioned, SameData, AllSuccess, ClientInv, IsTop, NotAbove, Busy, Sifted;
      ghost var s, sent := With(heap), jobs;
      QueuedInputs(s, e);
      workers := workers[w := Some(Job(e.client, e.group))];
      var client := clients[e.client];
      client := client.(ready := client.ready - {e.group}, running := client.running + {e.group});
      DataStays(clients, e.client, client);
      clients := clients[e.client := client];
      var group := client.dag.groups[e.group];
      SendJob(w, client, e.group);
      JobIsSent(s.workers, sent, jobs, w, client, e.client, e.group);
      if group.uuid in client.callbacks.executions {
        outbox := outbox + [Message(e.client, ExecutionStarted(group.uuid, w))];
      }
      records := Put(records, e.client, e.group, Running);
      if honest { FollowsMove(world, s.clients, s.records, misled, e.client, client, e.group, Ready, Running); }
      StepDispatch(s, Snap(), e, w, client);
      PutQuiet(s, Snap(), e.client, e.group, Running, {});
    }

    /** Give every free worker a group, the ones with the highest priority first. */
    method AssignJobs()
      requires Valid()
      modifies this`clients, this`readyExecs, this`workers, this`jobs, this`outbox, this`records
      ensures Valid() && Quiet(old(Snap()), Snap(), {})
      ensures readyExecs <= old(readyExecs)
      ensures Busy()
      ensures TakenFromTop(old(readyExecs), readyExecs)
      ensures SameData(old(clients), clients)
      ensures Handed(old(workers), old(jobs), workers, jobs)
      ensures old(jobs) <= jobs && AllGiven(old(workers), workers, clients, |old(jobs)|, jobs)
      ensures AllStarted(old(workers), workers, clients, |old(outbox)|, outbox)
    {
      hide Stable, OneKeyOneBehaviour, CacheFollows, Follows, Inv, Evolves, NoneCompleted, Provisioned, Cache.Valid,
           NotAbove, IsJob, SameData, TakenFromTop, AllGiven, AllStarted, Handed;
      ghost var s, jobs0 := Snap(), jobs;
      QuietRefl(s);
      NothingTakenFromTop(readyExecs);
      NothingGiven(workers, clients, jobs);
      NothingStarted(workers, clients, outbox);
      SameDataRefl(clients);
      var todo := workers.Keys;
      while todo != {}
        invariant Valid() && Quiet(s, Snap(), {}) && s.outbox <= outbox
        invariant readyExecs <= s.heap && TakenFromTop(s.heap, readyExecs)
        invariant todo <= workers.Keys == s.workers.Keys
        invariant forall w :: w in workers && w !in todo ==> workers[w].Some?
        invariant forall w :: w in todo ==> workers[w] == s.workers[w]
        invariant SameData(s.clients, clients)
        invariant jobs0 <= jobs && AllGiven(s.workers, workers, clients, |jobs0|, jobs)
        invariant AllStarted(s.workers, workers, clients, |s.outbox|, outbox)
        decreases todo
      {
        var w :| w in todo;
        todo := todo - {w};
        if workers[w].Some? { continue; }
        if readyExecs == multiset{} { break; }
        ghost var s1, jobs1 := Snap(), jobs;
        var e := Dispatch(w);
        QuietThen(s, s1, Snap(), {});
        TakenAreAbove(s.heap, s1.heap, readyExecs, e);
        SameDataTransitive(s.clients, s1.clients, clients);
        OneMoreGiven(s.workers, s1.workers, s1.clients, jobs1, workers, clients, jobs, |jobs0|, w, e.client, e.group);
        OneMoreStarted(s.workers, s1.workers, s1, Snap(), |s.outbox|, w, e.client, e.group);
      }
      WorkersStay(s, Snap(), {});
      GivenIsHanded(s.workers, jobs0, workers, clients, jobs);
    }

    // -------------------------------------------------------------- the messages

    /** A client sends a DAG to evaluate. The caller has checked the DAG. */
    method HandleEvaluateDag(c: ClientId, dag: DagData, callbacks: WatchSet)
      requires Valid() && Settled(Snap()) && c !in seen && ValidDag(dag, callbacks) && OwnNames(dag)
      requires honest ==> Judged(world, clients, workers, misled, EvaluateDag(c, dag, callbacks))
      modifies this, cache
      ensures honest == old(honest) && misled == old(misled)
      ensures Valid() && Settled(Snap()) && Continues(old(Snap()), Snap()) && unchanged(cache)
      ensures Sifted(old(clock)) && Busy() && Handed(old(workers), old(jobs), workers, jobs)
      ensures seen == old(seen) + {c} && c in clients && clients[c].dag == dag && clients[c].callbacks == callbacks
      ensures DagActed(old(Snap()), Snap(), c, dag, callbacks, cache.entries, stores, old(clock), clock)
    {
      hide Stable, OneKeyOneBehaviour, CacheFollows, Follows, Inv, Evolves, NoneCompleted, Sourced, Settled,
           Continues, Provisioned, Cache.Valid, ValidDag, FreshClient, Entries, FreshRecord, ClientEvolves, AllMissed,
           SameData, AllGiven, AllStarted, NotAbove, TakenFromTop, Judged, Handed,
           DagActed, CallbacksKnown, UniqueFiles, HasOutcome, Steady, LastJob, Equipped, SameButReady;
      ghost var s := Snap();
      var d: ClientData;
      var added: multiset<ReadyExec>;
      d, added := NewClient(c, dag, callbacks);
      readyExecs := readyExecs + added;
      clients := clients[c := d];
      records := records[c := FreshRecord(dag)];
      seen := seen + {c};
      ghost var s1 := Snap();
      StepAddClient(s, s1, c, d, added);
      if honest { NewClientFollows(world, s, c, d); }
      AddContinues(s, s1, c, d, FreshRecord(dag));
      CheckCompletion(c);
      ghost var s2 := Snap();
      ScheduleCached();
      ghost var s3, jobs3 := Snap(), jobs;
      AssignJobs();
      HandedThen(s.workers, old(jobs), s3.workers, jobs3, workers, jobs);
      SiftedToo(cache.entries, s3.clients, clients, s3.heap, readyExecs, stores, old(clock), clock);
      QuietThenProceeds(s1, s2, s3, cache.entries, stores, old(clock), clock);
      ProceedsThenQuiet(s1, s3, Snap(), cache.entries, stores, old(clock), clock);
      OutboxStays(s2, s3);
      OutboxStays(s3, Snap());
      DagIsActed(s, s1, s2, Snap(), c, d, added, cache.entries, stores, old(clock), clock);
    }

    /** A file of a client has come. */
    method HandleFileReady(c: ClientId, f: FileId, key: FileKey)
      requires c in clients ==> f in clients[c].dag.providedFiles
      requires Valid() && Settled(Snap())
      requires honest ==> Judged(world, clients, workers, misled, FileArrived(c, f, key))
      modifies this, cache
      ensures honest == old(honest) && misled == old(misled)
      ensures Valid() && Settled(Snap()) && Continues(old(Snap()), Snap()) && unchanged(cache)
      ensures (c in clients <==> c in old(clients)) && Handed(old(workers), old(jobs), workers, jobs)
      ensures c in clients ==> Knows(Snap(), c, f) && (f in clients[c].inputOf ==> Sifted(old(clock)) && Busy())
      ensures c !in clients ==> Snap() == old(Snap()) && jobs == old(jobs)
      ensures c in clients ==>
        FileActed(old(Snap()), Snap(), c, f, key, cache.entries, stores, old(clock), clock)
    {
      hide Stable, OneKeyOneBehaviour, CacheFollows, Follows, Inv, Evolves, NoneCompleted, Sourced, Settled,
           Continues, Provisioned, Cache.Valid, ClientEvolves, Knows, Good, Held, AllMissed, FileMessage,
           Handed;
      ghost var s := Snap();
      NothingHanded(workers, jobs);
      if c !in clients { SameContinues(s, s); return; }
      Deliver(c, f, key);
      ghost var s1 := Snap();
      ProvidedIsGood(s1, c, f);
      HeldWithoutResults(s1, c, f);
      FileSuccess(c, f);
      ghost var s2 := Snap();
      ClientStays(s1, s2, {}, {}, c);
      AfterHandling(s, s1, s2, {});
      CheckCompletion(c);
      ProceedsThenQuiet(s1, s2, Snap(), cache.entries, stores, old(clock), clock);
      FileIsActed(s, s1, s2, Snap(), c, f, key, cache.entries, stores, old(clock), clock);
    }

    // The handle of the file is kept.
    method Deliver(c: ClientId, f: FileId, key: FileKey)
      requires c in clients && Valid() && Settled(Snap()) && f in clients[c].dag.providedFiles
      requires Snap().Trusts(c) && f in clients[c].handles ==> clients[c].handles[f] == key
      modifies this`clients
      ensures Valid() && Settled(Snap()) && Continues(old(Snap()), Snap())
      ensures Snap() == WithHandle(old(Snap()), c, f, key)
    {
      hide Stable, OneKeyOneBehaviour, CacheFollows, Follows, Inv, Evolves, Settled, Continues, Provisioned,
           Cache.Valid;
      ghost var s := Snap();
      clients := clients[c := clients[c].(handles := clients[c].handles[f := key])];
      if honest { DeliveryFollows(world, s, c, clients[c], f, key); }
      StepDeliver(s, c, clients[c], f, key);
      HandleContinues(s, Snap(), c, f, key);
    }

    /** A worker sends the results of its job. It has no job any more, and is
        not connected until it says so again. Results of the wrong length stop
        the scheduler. */
    method HandleWorkerResult(w: WorkerId, results: seq<ExecutionResult>,
                              outputs: map<FileId, FileKey>) returns (ok: bool)
      requires Valid() && Settled(Snap()) && Plausible(workers, clients, w, results, outputs)
      requires honest ==> Judged(world, clients, workers, misled, ResultArrived(w, results, outputs))
      modifies this, cache
      ensures honest == old(honest) && misled == old(misled)
      ensures !ok <==> Mismatch(old(workers), old(clients), w, results)
      ensures ok ==> Valid() && Settled(Snap()) && Continues(old(Snap()), Snap())
      ensures ok ==> workers.Keys == old(workers).Keys - {w} && Handed(old(workers) - {w}, old(jobs), workers, jobs)
      ensures ok && w in old(workers) && old(workers)[w].Some? ==> Busy()
      ensures ok && Serves(old(Snap()), w) ==> Sifted(old(clock))
      ensures ok && Serves(old(Snap()), w) ==>
        ResultActed(old(Snap()), Snap(), w, Report(results, outputs), old(cache.entries), cache.entries, stores,
                    old(clock), clock)
      ensures ok && !Serves(old(Snap()), w) ==>
        Quiet(old(Snap()).(workers := old(workers) - {w}), Snap(), {}) && unchanged(cache)
    {
      hide Stable, OneKeyOneBehaviour, CacheFollows, Follows, Inv, Evolves, NoneCompleted, Sourced, Settled,
           Continues, Provisioned, Cache.Valid, ClientEvolves, Is, Outs, Deps, AllSuccess, AnyInternalError,
           Remembered, KeyOf, GroupHasKeys, Put, WorkersEvolve, AllMissed, SameData, Judged, AsExpected, WithReport,
           OnlyPending, Handed;
      ghost var s := Snap();
      if w !in workers {
        NothingHanded(workers, jobs);
        SameContinues(s, s);
        QuietRefl(s);
        assert s.(workers := workers - {w}) == s;
        return true;
      }
      var worker := workers[w];
      if worker.None? || worker.value.client !in clients {
        ForgetWorker(w);
        return true;
      }
      BusyWorker(s, w);
      var c, g := worker.value.client, worker.value.group;
      var group := clients[c].dag.groups[g];
      workers := workers - {w};
      FewerBusy(s.workers, workers, jobs);
      if |group.executions| != |results| { return false; }
      if honest { JudgedIsExpected(world, s.clients, s.workers, misled, w, results, outputs); }
      EndJob(w, c, g, s);
      ghost var s1 := Snap();
      CompleteJob(c, group, results, outputs);
      ResultIsActed(s, s1, Snap(), w, Report(results, outputs), old(cache.entries), cache.entries, stores, old(clock), clock);
      return true;
    }

    // The group of a job that is over leaves the running ones.
    method EndJob(w: WorkerId, c: ClientId, g: GroupId, ghost s: State)
      requires Inv(s) && Settled(s) && w in s.workers && s.workers[w] == Some(Job(c, g)) && c in s.clients
      requires Snap() == s.(workers := s.workers - {w}) && cache.Valid() && Provisioned(workers, jobs) && Lawful()
      modifies this`clients, this`records
      ensures Valid() && OnlyPending(Snap(), {Job(c, g)}) && Continues(s, Snap())
      ensures Snap() == WithoutJob(s, w)
      ensures c in records && Is(records, c, g, Completing)
    {
      hide Stable, OneKeyOneBehaviour, CacheFollows, Follows, Inv, Settled, Continues, Provisioned, Cache.Valid,
           OnlyPending, Is, Put;
      BusyWorker(s, w);
      clients := clients[c := clients[c].(running := clients[c].running - {g})];
      records := Put(records, c, g, Completing);
      StepTakeResult(s, Snap(), w, clients[c]);
      if honest { JobFollows(world, s, w, clients[c], Completing); }
      PutContinues(s, Snap(), c, clients[c], g, Completing);
      NowIs(s.records, c, g, Completing);
    }

    // A worker sent the results of a job that nobody waits for any more.
    method ForgetWorker(w: WorkerId)
      requires Valid() && Settled(Snap())
      requires w in workers && (workers[w].Some? ==> workers[w].value.client !in clients)
      modifies this`clients, this`readyExecs, this`workers, this`jobs, this`outbox, this`records
      ensures Valid() && Settled(Snap()) && Continues(old(Snap()), Snap())
      ensures workers.Keys == old(workers).Keys - {w} && (old(workers)[w].Some? ==> Busy())
      ensures Handed(old(workers) - {w}, old(jobs), workers, jobs)
      ensures Quiet(old(Snap()).(workers := old(workers) - {w}), Snap(), {})
    {
      hide Stable, OneKeyOneBehaviour, CacheFollows, Follows, Inv, Evolves, NoneCompleted, Settled, Continues,
           Provisioned, Cache.Valid, ClientEvolves, WorkersEvolve, SameData, AllGiven, AllStarted, NotAbove,
           TakenFromTop, Handed;
      ghost var s := Snap();
      var worker := workers[w];
      workers := workers - {w};
      FewerBusy(s.workers, workers, jobs);
      NothingHanded(workers, jobs);
      StepDropWorker(s, w);
      SameContinues(s, Snap());
      ghost var s1 := Snap();
      QuietRefl(s1);
      if worker.None? { return; }
      AssignJobs();
      ghost var s2 := Snap();
      AfterHandling(s, s1, s2, {});
      CheckCompletion(worker.value.client);
      QuietThen(s1, s2, Snap(), {});
      AfterHandling(s, s1, Snap(), {});
      WorkersStay(s1, Snap(), {});
    }

    // The results of the job are dealt with, and the workers get new ones.
    method CompleteJob(c: ClientId, group: ExecutionGroup, results: seq<ExecutionResult>, outputs: map<FileId, FileKey>)
      requires c in clients && c in records && Is(records, c, group.uuid, Completing)
      requires group.uuid in clients[c].dag.groups && clients[c].dag.groups[group.uuid] == group
      requires Valid() && OnlyPending(Snap(), {Job(c, group.uuid)})
      requires |results| == |group.executions| && (!AnyInternalError(results) ==> Outs(group) <= outputs.Keys)
      requires honest ==> AsExpected(world, clients[c].handles, group, results, outputs, false, c in misled)
      modifies this, cache
      ensures honest == old(honest) && misled == old(misled)
      ensures Valid() && Settled(Snap()) && Evolves(old(Snap()), Snap(), {Job(c, group.uuid)}, {})
      ensures Proceeds(WithReport(old(Snap()), c, group.uuid, Report(results, outputs)), Snap(), cache.entries, stores,
                       old(clock), clock)
      ensures AnyInternalError(results) ==> unchanged(cache)
      ensures !AnyInternalError(results) ==>
        Remembered(old(cache.entries), cache.entries, group, old(clients)[c].handles + outputs, results)
      ensures Sifted(old(clock)) && Busy() && EndTold(Snap(), c) && Handed(old(workers), old(jobs), workers, jobs)
    {
      hide Stable, OneKeyOneBehaviour, CacheFollows, Follows, Inv, Evolves, NoneCompleted, Sourced, Settled,
           OnlyPending, Provisioned, Cache.Valid, Is, Outs, Deps, AllSuccess, AnyInternalError, Remembered, KeyOf,
           GroupHasKeys, AllMissed, SameData, AllGiven, AllStarted, NotAbove, TakenFromTop, AsExpected, WithReport,
           Handed;
      ghost var s, job := Snap(), Job(c, group.uuid);
      ghost var s0 := WithReport(s, c, group.uuid, Report(results, outputs));
      ExecCompleted(c, group, results, outputs, false);
      ghost var s1, jobs1 := Snap(), jobs;
      PendingDone(s, s1, {job});
      AssignJobs();
      HandedThen(s.workers, old(jobs), s1.workers, jobs1, workers, jobs);
      ghost var s2 := Snap();
      SiftedToo(cache.entries, s1.clients, clients, s1.heap, readyExecs, stores, old(clock), clock);
      ProceedsThenQuiet(s0, s1, s2, cache.entries, stores, old(clock), clock);
      SettledStays(s1, s2);
      EvolvesThen(s, s1, s2, {job}, {});
      CheckCompletion(c);
      ProceedsThenQuiet(s0, s2, Snap(), cache.entries, stores, old(clock), clock);
      EvolvesThen(s, s2, Snap(), {job}, {});
      SameHonesty(s, Snap(), {job});
      EndIsTold(s2, Snap(), c);
    }

    /** A worker is ready for work. */
    method HandleWorkerConnected(w: WorkerId)
      requires w in workers ==> workers[w].None?
      requires Valid() && Settled(Snap())
      modifies this`clients, this`readyExecs, this`workers, this`jobs, this`outbox, this`records
      ensures Valid() && Settled(Snap()) && Continues(old(Snap()), Snap())
      ensures workers.Keys == old(workers).Keys + {w}
      ensures Busy()
      ensures Quiet(old(Snap()).(workers := old(workers)[w := None]), Snap(), {})
      ensures old(jobs) <= jobs && AllGiven(old(workers)[w := None], workers, clients, |old(jobs)|, jobs)
      ensures AllStarted(old(workers)[w := None], workers, clients, |old(outbox)|, outbox)
    {
      hide Stable, OneKeyOneBehaviour, CacheFollows, Follows, Inv, Evolves, NoneCompleted, Settled, Continues,
           Provisioned, Cache.Valid, ClientEvolves, WorkersEvolve, NotAbove, TakenFromTop, AllGiven, AllStarted,
           SameData, Handed;
      ghost var s := Snap();
      workers := workers[w := None];
      FewerBusy(s.workers, workers, jobs);
      StepAddWorker(s, w);
      SameContinues(s, Snap());
      ghost var s1 := Snap();
      AssignJobs();
      AfterHandling(s, s1, Snap(), {});
      WorkersStay(s1, Snap(), {});
    }

    /** A worker is gone: its job goes back to the queue. */
    method HandleWorkerDisconnected(w: WorkerId)
      requires Valid() && Settled(Snap())
      modifies this`clients, this`readyExecs, this`workers, this`records
      ensures Valid() && Settled(Snap()) && Continues(old(Snap()), Snap())
      ensures workers == old(workers) - {w}
      ensures Serves(old(Snap()), w) ==>
        && Requeued(old(clients), clients, old(readyExecs), readyExecs, old(workers)[w].value)
        && old(workers)[w].value.client in old(records)
        && records == Put(old(records), old(workers)[w].value.client, old(workers)[w].value.group, Ready)
      ensures !Serves(old(Snap()), w) ==>
        clients == old(clients) && readyExecs == old(readyExecs) && records == old(records)
    {
      hide Stable, OneKeyOneBehaviour, CacheFollows, Follows, Inv, Settled, Continues, Provisioned, Cache.Valid, Put;
      ghost var s := Snap();
      if w !in workers {
        SameContinues(s, s);
        return;
      }
      var worker := workers[w];
      workers := workers - {w};
      FewerBusy(s.workers, workers, jobs);
      if worker.None? || worker.value.client !in clients {
        StepDropWorker(s, w);
        SameContinues(s, Snap());
        return;
      }
      BusyWorker(s, w);
      var c, g := worker.value.client, worker.value.group;
      var client := clients[c];
      var e := ReadyExec(HIGH_PRIORITY, client.dag.groups[g].priority, g, c);
      readyExecs := readyExecs + multiset{e};
      clients := clients[c := client.(ready := client.ready + {g}, running := client.running - {g})];
      records := Put(records, c, g, Ready);
      StepRequeue(s, Snap(), w, clients[c], e);
      if honest { JobFollows(world, s, w, clients[c], Ready); }
      PutContinues(s, Snap(), c, clients[c], g, Ready);
    }

    // Only the entries of connected clients stay in the queue.
    method PurgeQueue()
      modifies this`readyExecs
      ensures Purged(old(readyExecs), readyExecs, clients)
    {
      var remaining := multiset{};
      while readyExecs != multiset{}
        invariant forall e: ReadyExec :: e.client in clients ==> remaining[e] + readyExecs[e] == old(readyExecs)[e]
        invariant forall e: ReadyExec :: e.client !in clients ==> remaining[e] == 0
        decreases |readyExecs|
      {
        var e := PopMax();
        if e.client in clients {
          remaining := remaining + multiset{e};
        }
      }
      readyExecs := remaining;
    }

    // Tell the workers that are busy for the client to stop.
    method StopJobs(c: ClientId)
      requires Provisioned(workers, jobs)
      modifies this`jobs
      ensures Provisioned(workers, jobs) && old(jobs) <= jobs && AllStopped(workers, c, jobs, |old(jobs)|)
    {
      hide Provisioned;
      var todo := workers.Keys;
      ghost var done: set<WorkerId> := {};
      while todo != {}
        invariant todo !! done && todo + done == workers.Keys && Provisioned(workers, jobs) && old(jobs) <= jobs
        invariant StoppedSoFar(workers, done, c, jobs, |old(jobs)|)
        decreases todo
      {
        var w :| w in todo;
        todo := todo - {w};
        ghost var before := jobs;
        if workers[w].Some? && workers[w].value.client == c {
          jobs := jobs + [StopWorkerJob(w, workers[w].value.group)];
          StopSent(workers, before, StopWorkerJob(w, workers[w].value.group));
        }
        OneMoreStopped(workers, done, c, before, jobs, |old(jobs)|, w);
        done := done + {w};
      }
    }

    /** A client is gone, and with it all that was queued for it; the workers
        that are busy for it are told to stop. */
    method HandleClientDisconnected(c: ClientId)
      requires Valid() && Settled(Snap())
      modifies this`clients, this`records, this`readyExecs, this`outbox, this`jobs
      ensures Valid() && Settled(Snap()) && Continues(old(Snap()), Snap())
      ensures clients == old(clients) - {c} && records == old(records) - {c}
      ensures Purged(old(readyExecs), readyExecs, clients)
      ensures outbox == Say(old(outbox), c in old(clients) && !old(clients)[c].IsDone(), Message(c, EvaluationDone))
      ensures old(jobs) <= jobs && AllStopped(workers, c, jobs, |old(jobs)|)
    {
      hide Stable, OneKeyOneBehaviour, CacheFollows, Follows, Inv, Settled, Continues, Provisioned, Cache.Valid,
           Purged, AllStopped;
      RemoveClient(c);
      StopJobs(c);
    }

    // The client is not known any more.
    method RemoveClient(c: ClientId)
      requires Valid() && Settled(Snap())
      modifies this`clients, this`records, this`readyExecs, this`outbox
      ensures Valid() && Settled(Snap()) && Continues(old(Snap()), Snap())
      ensures clients == old(clients) - {c} && records == old(records) - {c} && Purged(old(readyExecs), readyExecs, clients)
      ensures outbox == Say(old(outbox), c in old(clients) && !old(clients)[c].IsDone(), Message(c, EvaluationDone))
    {
      hide Stable, OneKeyOneBehaviour, CacheFollows, Follows, Inv, Settled, Continues, Provisioned, Cache.Valid,
           Purged, ClientInv;
      ghost var s := Snap();
      if c in clients && !clients[c].IsDone() {
        outbox := outbox + [Message(c, EvaluationDone)];
      }
      clients := clients - {c};
      records := records - {c};
      PurgeQueue();
      ghost var s1 := Snap().(outbox := s.outbox);
      StepRemoveClient(s, s1, c);
      if honest { FollowsLeft(world, s.clients, s.records, misled, c); }
      if c in s.clients {
        OneClient(s, c);
        if !s.clients[c].IsDone() { SayToGone(s1, c); }
      }
      RemoveContinues(s, Snap(), c);
    }

    // -------------------------------------------------------------- a whole run

    // The invariant that makes a run safe.
    ghost predicate Calm()
      reads this, cache
    {
      Valid() && Settled(Snap())
    }

    /** Deal with one message. What the environment never sends is ignored: a
        uuid is used once, with groups under their own names; files come only
        when they are provided ones; a worker connects only without a job. */
    method Handle(m: Incoming) returns (ok: bool)
      requires Calm()
      modifies this, cache
      ensures ok ==> Calm() && Continues(old(Snap()), Snap())
      ensures ok ==> Acted(m, JudgedAs(old(Snap()), Snap()), Snap(), old(cache.entries), cache.entries, old(jobs), jobs,
                           stores, old(clock), clock)
      ensures ok && m.EvaluateDag? && m.client !in old(seen) && ValidDag(m.dag, m.callbacks) && OwnNames(m.dag) ==>
        m.client in clients && clients[m.client].dag == m.dag && clients[m.client].callbacks == m.callbacks
      ensures ok && m.FileArrived? && m.client in clients && m.file in clients[m.client].dag.providedFiles ==>
        && Knows(Snap(), m.client, m.file)
        && m.file in clients[m.client].handles && clients[m.client].handles[m.file] == m.key
      ensures !ok <==> m.ResultArrived? && Refused(old(workers), old(clients), m.worker, m.results, m.outputs)
      ensures honest == (old(honest) && TellsTruth(world, old(clients), old(workers), m))
      ensures misled == old(misled) + Misleads(world, old(clients), old(workers), m)
    {
      hide Stable, OneKeyOneBehaviour, CacheFollows, Follows, Inv, Settled, Continues, Provisioned, Cache.Valid,
           Knows, Refused, TellsTruth, Misleads, Acted, ValidDag, Plausible;
      ghost var s := Snap();
      Judge(m);
      ghost var s1 := Snap();
      ok := React(m);
      if ok {
        ContinuesThen(s, s1, Snap());
        ActedOnFile(m, s1, Snap(), old(cache.entries), cache.entries, old(jobs), jobs, stores, old(clock), clock);
        ActedOnDag(m, s1, Snap(), old(cache.entries), cache.entries, old(jobs), jobs, stores, old(clock), clock);
      }
    }

    // The message may be false.
    ghost method Judge(m: Incoming)
      requires Calm()
      modifies this`honest, this`misled
      ensures Calm() && Continues(old(Snap()), Snap())
      ensures honest == (old(honest) && TellsTruth(world, clients, workers, m))
      ensures misled == old(misled) + Misleads(world, clients, workers, m)
    {
      hide Stable, OneKeyOneBehaviour, CacheFollows, Follows, Inv, Settled, Continues, Provisioned, Cache.Valid,
           TellsTruth;
      ghost var s := Snap();
      honest := honest && TellsTruth(world, clients, workers, m);
      misled := misled + Misleads(world, clients, workers, m);
      if honest { FollowsFewer(world, clients, records, s.misled, misled); }
      StepJudge(s, honest, misled);
      SameContinues(s, Snap());
    }

    // What is done about the message.
    method React(m: Incoming) returns (ok: bool)
      requires Calm() && (honest ==> Judged(world, clients, workers, misled, m))
      modifies this, cache
      ensures ok ==> Calm() && Continues(old(Snap()), Snap())
      ensures ok ==> Acted(m, old(Snap()), Snap(), old(cache.entries), cache.entries, old(jobs), jobs, stores,
                           old(clock), clock)
      ensures !ok <==> m.ResultArrived? && Refused(old(workers), old(clients), m.worker, m.results, m.outputs)
      ensures honest == old(honest) && misled == old(misled)
    {
      hide Judged, Stable, OneKeyOneBehaviour, CacheFollows, Follows, Inv, Evolves, NoneCompleted, Sourced, Settled,
           Continues, Provisioned, Cache.Valid, ClientEvolves, Knows, ValidDag, Good, Is, Outs, Requeued, Purged,
           AllStopped, WorkersEvolve, Mismatch, AnyInternalError, DagActed, FileActed, ResultActed, AllGiven,
           AllStarted, Plausible, Handed;
      ghost var s := Snap();
      SameContinues(s, s);
      ok := true;
      match m {
        case EvaluateDag(c, dag, callbacks) =>
          if c in seen {
            assert seen == seen + {c};
            return;
          }
          var fit := forall g :: g in dag.groups ==> dag.groups[g].uuid == g;
          if fit {
            var check := CheckDag.CheckDag(dag, callbacks);
            fit := check.Pass?;
          }
          if fit {
            HandleEvaluateDag(c, dag, callbacks);
          } else {
            seen := seen + {c};
            StepSee(s, c);
            SameContinues(s, Snap());
          }
        case FileArrived(c, f, key) =>
          if c in clients && f !in clients[c].dag.providedFiles { return; }
          HandleFileReady(c, f, key);
        case ResultArrived(w, results, outputs) =>
          var plausible := IsPlausible(w, results, outputs);
          if plausible { ok := HandleWorkerResult(w, results, outputs); }
        case WorkerConnected(w) =>
          if w in workers && workers[w].Some? { return; }
          HandleWorkerConnected(w);
        case WorkerDisconnected(w) =>
          HandleWorkerDisconnected(w);
        case ClientDisconnected(c) =>
          HandleClientDisconnected(c);
      }
    }

    // Whether the environment may send the result.
    method IsPlausible(w: WorkerId, results: seq<ExecutionResult>,
                       outputs: map<FileId, FileKey>) returns (plausible: bool)
      ensures plausible <==> Plausible(workers, clients, w, results, outputs)
    {
      if w !in workers || workers[w].None? || workers[w].value.client !in clients { return true; }
      var c, g := workers[w].value.client, workers[w].value.group;
      if g !in clients[c].dag.groups || AnyInternalError(results) { return true; }
      var outs := clients[c].dag.groups[g].Outputs();
      return forall f :: f in outs ==> f in outputs;
    }

    /** A run over any messages, in any order: it is safe at the end; whoever has
        sent a valid DAG and did not leave is there with it; and when all the
        files of a client have come and none of its groups is ready or running,
        the client is done. The run ends early only when a worker sends a
        result of the wrong length. */
    method Run(messages: seq<Incoming>) returns (handled: nat)
      requires Calm()
      modifies this, cache
      ensures handled <= |messages|
      ensures handled < |messages| ==> messages[handled].ResultArrived?
      ensures (honest ==> old(honest)) && old(misled) <= misled
      ensures handled == |messages| ==> Calm() && Continues(old(Snap()), Snap())
      ensures handled == |messages| ==> Registering(messages, |messages|, old(seen), Snap())
      ensures handled == |messages| ==>
        forall c :: c in clients && Drained(messages, c, clients[c]) ==> clients[c].IsDone()
    {
      hide Stable, OneKeyOneBehaviour, CacheFollows, Follows, Inv, Settled, Continues, Provisioned, Cache.Valid,
           Knows, Provided, Evaluated, Mismatch, Acted, ValidDag, Registering, Plausible, TellsTruth, Misleads;
      ghost var s := Snap();
      SameContinues(s, s);
      NothingProvided(messages, s);
      NothingRegistered(messages, s);
      handled := 0;
      while handled < |messages|
        invariant handled <= |messages| && Calm() && Continues(s, Snap()) && (honest ==> s.honest) && s.misled <= misled
        invariant AllSeen(messages, handled, Snap()) && AllKnown(messages, handled, Snap())
        invariant Registering(messages, handled, s.seen, Snap())
      {
        ghost var s1, entries1, jobs1, clock1 := Snap(), cache.entries, jobs, clock;
        var ok := Handle(messages[handled]);
        if !ok { return; }
        ContinuesThen(s, s1, Snap());
        KeysOfState(s1);
        ActedIsSeen(messages[handled], JudgedAs(s1, Snap()), Snap(), entries1, cache.entries, jobs1, jobs, stores, clock1, clock);
        OneMoreMessage(messages, handled, s1, Snap());
        OneMoreRegistered(messages, handled, s.seen, s1, Snap(), entries1, cache.entries, jobs1, jobs, stores, clock1, clock);
        handled := handled + 1;
      }
      forall c | c in clients && Drained(messages, c, clients[c])
        ensures clients[c].IsDone()
      {
        ProvidedAreKnown(messages, Snap(), c);
        NoDeadlock(Snap(), c);
      }
    }
  }

  // The cache has results for the group, and their files are in the store
  // whenever it is asked from `from` to `to`.
  ghost predicate StaysCached(entries: CacheState, d: ClientData, group: ExecutionGroup, stores: nat -> StoreView,
                              from: nat, to: nat) {
    && !Uncached(group, d.dag.config.cacheMode) && GroupHasKeys(group, d.handles)
    && exists i: nat :: IsKept(BucketOf(entries, KeyOf(group, d.handles)), i, group, stores, from, to)
  }

  ghost predicate IsKept(bucket: seq<CacheEntry>, i: nat, group: ExecutionGroup, stores: nat -> StoreView,
                         from: nat, to: nat) {
    i < |bucket| && IsCompatible(bucket[i], group) && forall t :: from <= t < to ==> Present(bucket[i], group, stores(t)(i))
  }

  /** A group is not left in the queue when the cache has results for it whose
      files stayed in the store, whatever else happened to the store. */
  lemma CachedGroupsLeave(s: Scheduler, from: nat, e: ReadyExec)
    requires s.Sifted(from) && e.client in s.clients && e.group in s.clients[e.client].dag.groups
    requires StaysCached(s.cache.entries, s.clients[e.client], s.clients[e.client].dag.groups[e.group], s.stores, from, s.clock)
    ensures e !in s.readyExecs
  {
    hide IsCompatible, Present, KeyOf, GroupHasKeys;
    var d, group := s.clients[e.client], s.clients[e.client].dag.groups[e.group];
    var bucket := BucketOf(s.cache.entries, KeyOf(group, d.handles));
    var i: nat :| IsKept(bucket, i, group, s.stores, from, s.clock);
    forall t: nat | from <= t < s.clock ensures !Missed(s.cache.entries, s.clients, e, s.stores(t)) {
      assert Usable(bucket[i], group, s.stores(t)(i));
    }
  }

  /** Two schedulers between messages, with other clients, other workers and
      other caches: what they made of the same groups, on the same files, is the
      same as far as it is finished, unless one of them was told something false. */
  lemma SameAnswers(a: Scheduler, c: ClientId, b: Scheduler, c': ClientId)
    requires a.Calm() && a.honest && c !in a.misled
    requires b.Calm() && b.honest && c' !in b.misled && a.world == b.world
    requires c in a.clients && c' in b.clients && SameQuestion(a.clients[c], b.clients[c'])
    ensures c in a.records && c' in b.records
    ensures forall g :: g in a.clients[c].dag.groups ==> Alike(a.clients[c], a.records[c], b.clients[c'], b.records[c'], g)
    ensures a.clients[c].IsDone() && b.clients[c'].IsDone() ==> b.records[c'].status == a.records[c].status
  {
    hide Stable, OneKeyOneBehaviour, CacheFollows, Follows, Inv, Settled, Provisioned, Cache.Valid, SameQuestion, Alike;
    OneClient(a.Snap(), c);
    OneClient(b.Snap(), c');
    OneOutcome(a.world, a.Snap(), c, b.Snap(), c');
  }
}
