/** What the scheduler finds in the cache: which groups it looks up, which of
    them have results, and that results which nobody sent come from there.
    Source: task-maker-exec/src/scheduler.rs. */
module SchedulerLookups {
  import opened Dag
  import opened CacheKeys
  import opened CacheEntries
  import opened Caching
  import opened Situations
  import opened SchedulerState
  import opened SchedulerHistory
  import opened SchedulerSteps
  import opened SchedulerFacts

  type CacheState = map<CacheKey, seq<CacheEntry>>

  // A ready group that was found in the cache.
  datatype CachedExec = CachedExec(client: ClientId, group: ExecutionGroup, report: Report)

  lemma DepsGiveKeys(group: ExecutionGroup, handles: map<FileId, FileKey>)
    requires Deps(group) <= handles.Keys
    ensures GroupHasKeys(group, handles)
  {
    forall i | 0 <= i < |group.executions| ensures HasKeys(group.executions[i], handles) {
      assert forall f :: f in group.executions[i].Reads() ==> f in Deps(group);
    }
  }

  lemma OutsGiveFiles(group: ExecutionGroup, handles: map<FileId, FileKey>)
    requires Outs(group) <= handles.Keys
    ensures forall i :: 0 <= i < |group.executions| ==> HasOutputFiles(group.executions[i], handles)
  {
    forall i | 0 <= i < |group.executions| ensures HasOutputFiles(group.executions[i], handles) {
      var e := group.executions[i];
      assert forall p :: p in e.outputFiles ==> e.outputFiles[p] in e.Writes();
      assert forall f :: f in e.Writes() ==> f in Outs(group);
    }
  }

  // The cache is switched off, or switched off for groups with the tag of this one.
  ghost predicate Uncached(group: ExecutionGroup, mode: CacheMode) {
    mode.Nothing? || (mode.Except? && group.tag.Some? && group.tag.value in mode.tags)
  }

  // What the cache says about a group, given what the store holds.
  ghost predicate Looked(r: CacheResult, entries: CacheState, group: ExecutionGroup, mode: CacheMode,
                         handles: map<FileId, FileKey>, view: StoreView) {
    if Uncached(group, mode) then r.Miss?
    else GroupHasKeys(group, handles) && Answers(r, BucketOf(entries, KeyOf(group, handles)), group, view)
  }

  // The results of the group are in the cache now, as the newest of their
  // bucket with these limits; the other buckets are as they were.
  ghost predicate Remembered(before: CacheState, after: CacheState, group: ExecutionGroup, handles: map<FileId, FileKey>,
                             results: seq<ExecutionResult>) {
    && GroupHasKeys(group, handles) && |results| == |group.executions|
    && (forall i :: 0 <= i < |group.executions| ==> HasOutputFiles(group.executions[i], handles))
    && var key := KeyOf(group, handles);
       && (exists entry, pos ::
            Recorded(BucketOf(before, key), BucketOf(after, key), entry, pos) && Records(entry, group, handles, results))
       && forall other :: other != key ==> BucketOf(after, other) == BucketOf(before, other)
  }

  function JobOf(x: CachedExec): Job {
    Job(x.client, x.group.uuid)
  }

  ghost function JobsUpTo(cached: seq<CachedExec>, n: nat): set<Job>
    requires n <= |cached|
  {
    set i | 0 <= i < n :: JobOf(cached[i])
  }

  lemma JobsGrow(cached: seq<CachedExec>, n: nat)
    requires n < |cached|
    ensures JobsUpTo(cached, n + 1) == JobsUpTo(cached, n) + {JobOf(cached[n])}
  {
    hide JobOf;
  }

  ghost predicate IsPending(x: CachedExec, s: State) {
    && x.client in s.clients && x.client in s.records && Is(s.records, x.client, x.group.uuid, Completing)
    && x.group.uuid in s.clients[x.client].dag.groups && s.clients[x.client].dag.groups[x.group.uuid] == x.group
    && |x.report.results| == |x.group.executions| && x.report.outputs.Keys == Outs(x.group)
  }

  // Distinct groups; the completion of the ones from the `n`th on is still to be dealt with.
  ghost predicate AllPending(cached: seq<CachedExec>, n: nat, s: State) {
    && (forall i :: n <= i < |cached| ==> IsPending(cached[i], s))
    && (forall i, j :: 0 <= i < j < |cached| ==> JobOf(cached[i]) != JobOf(cached[j]))
  }

  // The cache has these results for a group of the client.
  ghost predicate CacheSays(entries: CacheState, d: ClientData, group: ExecutionGroup, report: Report, view: StoreView) {
    Looked(Hit(report.results, report.outputs), entries, group, d.dag.config.cacheMode, d.handles, view)
  }

  // The cache had nothing for the entry, when the store looked like `view`.
  ghost predicate Missed(entries: CacheState, clients: map<ClientId, ClientData>, e: ReadyExec, view: StoreView) {
    && e.client in clients && e.group in clients[e.client].dag.groups
    && var d := clients[e.client];
       Looked(Miss, entries, d.dag.groups[e.group], d.dag.config.cacheMode, d.handles, view)
  }

  ghost predicate Found(entries: CacheState, clients: map<ClientId, ClientData>, x: CachedExec, view: StoreView) {
    x.client in clients && CacheSays(entries, clients[x.client], x.group, x.report, view)
  }

  // Every entry was looked up in vain, at one of the times from `from` to `to`.
  ghost predicate AllMissed(entries: CacheState, clients: map<ClientId, ClientData>, heap: multiset<ReadyExec>,
                            stores: nat -> StoreView, from: nat, to: nat) {
    forall e :: e in heap ==> exists t :: from <= t < to && Missed(entries, clients, e, stores(t))
  }

  ghost predicate FoundWithin(entries: CacheState, clients: map<ClientId, ClientData>, x: CachedExec,
                              stores: nat -> StoreView, from: nat, to: nat) {
    exists t :: from <= t < to && Found(entries, clients, x, stores(t))
  }

  ghost predicate AllFound(entries: CacheState, clients: map<ClientId, ClientData>, cached: seq<CachedExec>,
                           stores: nat -> StoreView, from: nat, to: nat) {
    forall i :: 0 <= i < |cached| ==> FoundWithin(entries, clients, cached[i], stores, from, to)
  }

  // The clients only lost some ready groups.
  ghost predicate SameButReady(clients: map<ClientId, ClientData>, clients': map<ClientId, ClientData>) {
    && clients'.Keys == clients.Keys
    && forall c :: c in clients ==> clients'[c] == clients[c].(ready := clients'[c].ready)
  }

  // Nobody's DAG, callbacks or files changed.
  ghost predicate SameData(clients: map<ClientId, ClientData>, clients': map<ClientId, ClientData>) {
    && clients'.Keys == clients.Keys
    && forall c :: c in clients ==>
      && clients'[c].dag == clients[c].dag && clients'[c].callbacks == clients[c].callbacks
      && clients'[c].handles == clients[c].handles
  }

  lemma ButReadyIsSame(clients: map<ClientId, ClientData>, clients': map<ClientId, ClientData>)
    requires SameButReady(clients, clients')
    ensures SameData(clients, clients')
  {
  }

  lemma SiftedToo(entries: CacheState, clients: map<ClientId, ClientData>, clients': map<ClientId, ClientData>,
                  heap: multiset<ReadyExec>, heap': multiset<ReadyExec>, stores: nat -> StoreView, from: nat, to: nat)
    requires AllMissed(entries, clients, heap, stores, from, to) && SameData(clients, clients') && heap' <= heap
    ensures AllMissed(entries, clients', heap', stores, from, to)
  {
    hide Looked;
    forall e | e in heap' ensures exists t :: from <= t < to && Missed(entries, clients', e, stores(t)) {
      var t :| from <= t < to && Missed(entries, clients, e, stores(t));
      assert Missed(entries, clients', e, stores(t));
    }
  }

  // Within a longer time as well.
  lemma MissedWithin(entries: CacheState, clients: map<ClientId, ClientData>, heap: multiset<ReadyExec>,
                     stores: nat -> StoreView, from: nat, to: nat, from': nat, to': nat)
    requires AllMissed(entries, clients, heap, stores, from, to) && from' <= from && to <= to'
    ensures AllMissed(entries, clients, heap, stores, from', to')
  {
    hide Missed;
    forall e | e in heap ensures exists t :: from' <= t < to' && Missed(entries, clients, e, stores(t)) {
      var t :| from <= t < to && Missed(entries, clients, e, stores(t));
    }
  }

  lemma NothingLooked(entries: CacheState, clients: map<ClientId, ClientData>, stores: nat -> StoreView, from: nat)
    ensures AllMissed(entries, clients, multiset{}, stores, from, from) && AllFound(entries, clients, [], stores, from, from)
  {
  }

  // One more lookup was made, at the time `t`: it found something, or nothing.
  lemma OneMoreFound(entries: CacheState, clients: map<ClientId, ClientData>, clients': map<ClientId, ClientData>,
                     cached: seq<CachedExec>, x: CachedExec, stores: nat -> StoreView, from: nat, t: nat)
    requires AllFound(entries, clients, cached, stores, from, t) && from <= t
    requires SameButReady(clients, clients') && x.client in clients' && Found(entries, clients', x, stores(t))
    ensures AllFound(entries, clients, cached + [x], stores, from, t + 1)
  {
    hide Looked;
    assert Found(entries, clients, x, stores(t));
    StillFound(entries, clients, cached, stores, from, t);
  }

  lemma StillFound(entries: CacheState, clients: map<ClientId, ClientData>, cached: seq<CachedExec>,
                   stores: nat -> StoreView, from: nat, t: nat)
    requires AllFound(entries, clients, cached, stores, from, t)
    ensures AllFound(entries, clients, cached, stores, from, t + 1)
  {
    hide Found;
    forall i | 0 <= i < |cached| ensures FoundWithin(entries, clients, cached[i], stores, from, t + 1) {
      assert FoundWithin(entries, clients, cached[i], stores, from, t);
    }
  }

  lemma OneMoreMissed(entries: CacheState, clients: map<ClientId, ClientData>, clients': map<ClientId, ClientData>,
                      left: multiset<ReadyExec>, e: ReadyExec, stores: nat -> StoreView, from: nat, t: nat)
    requires AllMissed(entries, clients, left, stores, from, t) && from <= t
    requires SameButReady(clients, clients') && Missed(entries, clients', e, stores(t))
    ensures AllMissed(entries, clients, left + multiset{e}, stores, from, t + 1)
  {
    hide Looked;
    assert Missed(entries, clients, e, stores(t));
    MissedWithin(entries, clients, left, stores, from, t, from, t + 1);
  }

  // ---------------------------------------------------------------- where results come from

  ghost predicate HasOutcome(records: map<ClientId, Record>, c: ClientId, g: GroupId) {
    Is(records, c, g, Succeeded) || Is(records, c, g, Failed)
  }

  // No group was completed.
  ghost predicate NoneCompleted(s: State, s': State) {
    forall c, g :: HasOutcome(s'.records, c, g) ==> HasOutcome(s.records, c, g)
  }

  // The group was completed with what the cache had for it at some time from `from` to `to`.
  ghost predicate FromCache(entries: CacheState, s: State, c: ClientId, g: GroupId, stores: nat -> StoreView,
                            from: nat, to: nat) {
    && c in s.clients && c in s.records && g in s.clients[c].dag.groups && g in s.records[c].reports
    && exists t :: from <= t < to && CacheSays(entries, s.clients[c], s.clients[c].dag.groups[g], s.records[c].reports[g], stores(t))
  }

  /** Whatever was completed meanwhile was completed with what the cache had. */
  ghost predicate Sourced(s: State, s': State, entries: CacheState, stores: nat -> StoreView, from: nat, to: nat) {
    forall c, g :: HasOutcome(s'.records, c, g) && !HasOutcome(s.records, c, g) ==>
      FromCache(entries, s', c, g, stores, from, to)
  }

  lemma NothingSourced(s: State, s': State, entries: CacheState, stores: nat -> StoreView, from: nat, to: nat)
    requires NoneCompleted(s, s')
    ensures Sourced(s, s', entries, stores, from, to)
  {
    hide HasOutcome;
  }

  lemma SourcedAfter(a: State, b: State, c: State, entries: CacheState, stores: nat -> StoreView, from: nat, to: nat)
    requires NoneCompleted(a, b) && Sourced(b, c, entries, stores, from, to)
    ensures Sourced(a, c, entries, stores, from, to)
  {
    hide HasOutcome, FromCache;
  }

  lemma SourcedThen(a: State, b: State, c: State, owing: set<Job>, entries: CacheState, stores: nat -> StoreView,
                    from: nat, to: nat, from': nat, to': nat)
    requires Inv(b) && Evolves(b, c, {}, owing) && from <= from' && to <= to'
    requires Sourced(a, b, entries, stores, from, to) && Sourced(b, c, entries, stores, from', to')
    ensures Sourced(a, c, entries, stores, from, to')
  {
    hide Inv, Evolves, HasOutcome, FromCache;
    forall x, g | HasOutcome(c.records, x, g) && !HasOutcome(a.records, x, g) ensures FromCache(entries, c, x, g, stores, from, to') {
      if HasOutcome(b.records, x, g) {
        FromCacheStays(b, c, owing, entries, x, g, stores, from, to);
        FromCacheLonger(entries, c, x, g, stores, from, to, from, to');
      } else {
        FromCacheLonger(entries, c, x, g, stores, from', to', from, to');
      }
    }
  }

  lemma FromCacheLonger(entries: CacheState, s: State, c: ClientId, g: GroupId, stores: nat -> StoreView,
                        from: nat, to: nat, from': nat, to': nat)
    requires FromCache(entries, s, c, g, stores, from, to) && from' <= from && to <= to'
    ensures FromCache(entries, s, c, g, stores, from', to')
  {
    hide CacheSays;
  }

  lemma FromCacheStays(s: State, s': State, owing: set<Job>, entries: CacheState, c: ClientId, g: GroupId,
                       stores: nat -> StoreView, from: nat, to: nat)
    requires Inv(s) && Evolves(s, s', {}, owing) && HasOutcome(s.records, c, g)
    requires FromCache(entries, s, c, g, stores, from, to)
    ensures FromCache(entries, s', c, g, stores, from, to)
  {
    hide Inv, Evolves, CacheSays, Deps;
    ClientStays(s, s', {}, owing, c);
    ReportStays(s, s', owing, c, g);
    InputsStay(s, s', owing, c, g);
    var d, d', group := s.clients[c], s'.clients[c], s.clients[c].dag.groups[g];
    var report := s.records[c].reports[g];
    var t :| from <= t < to && CacheSays(entries, d, group, report, stores(t));
    SaysTheSame(entries, d, d', group, report, stores(t));
  }

  lemma ReportStays(s: State, s': State, owing: set<Job>, c: ClientId, g: GroupId)
    requires Evolves(s, s', {}, owing) && HasOutcome(s.records, c, g) && c in s.records
    ensures c in s'.records && SameReport(s.records[c], s'.records[c], g)
  {
    hide Owed, OwedBy, ClientEvolves, Steady, HandlesKept, SameReport;
    assert StatusesMove(c, s.records[c], s'.records[c], {});
  }

  // The inputs of a group that is ready, or further, are where they were.
  lemma InputsStay(s: State, s': State, owing: set<Job>, c: ClientId, g: GroupId)
    requires Inv(s) && Evolves(s, s', {}, owing) && c in s.clients && c in s.records && g in s.records[c].status
    requires s.records[c].status[g] != Waiting && s.records[c].status[g] != Skipped
    ensures c in s'.clients && g in s.clients[c].dag.groups
    ensures InputsAgree(s.clients[c].dag.groups[g], s.clients[c].handles, s'.clients[c].handles)
  {
    hide Inv, Evolves, Deps;
    ClientStays(s, s', {}, owing, c);
    SteadyOf(s, s', owing);
    InputsSettled(s, c, g);
    InputsSteady(s, s', c, g);
  }

  lemma InputsSettled(s: State, c: ClientId, g: GroupId)
    requires Inv(s) && c in s.clients && c in s.records && g in s.records[c].status
    requires s.records[c].status[g] != Waiting && s.records[c].status[g] != Skipped
    ensures g in s.clients[c].dag.groups
    ensures forall f :: f in Deps(s.clients[c].dag.groups[g]) ==> f in s.clients[c].handles && SettledFile(s.records[c], f)
  {
    hide Inv, Static, Files, WaitingGroup, HasBadInput, Deps;
    OneClient(s, c);
    assert HasInputs(s.clients[c], s.records[c], g);
    forall f | f in Deps(s.clients[c].dag.groups[g]) ensures f in s.clients[c].handles && SettledFile(s.records[c], f) {
      assert Good(s.clients[c], s.records[c], f);
    }
  }

  lemma InputsSteady(s: State, s': State, c: ClientId, g: GroupId)
    requires Steady(s, s') && c in s.clients && c in s.records && c in s'.clients && g in s.clients[c].dag.groups
    requires forall f :: f in Deps(s.clients[c].dag.groups[g]) ==> f in s.clients[c].handles && SettledFile(s.records[c], f)
    ensures InputsAgree(s.clients[c].dag.groups[g], s.clients[c].handles, s'.clients[c].handles)
  {
    hide SettledFile, Deps;
  }

  lemma SaysTheSame(entries: CacheState, d: ClientData, d': ClientData, group: ExecutionGroup, report: Report, view: StoreView)
    requires InputsAgree(group, d.handles, d'.handles) && d'.dag == d.dag && CacheSays(entries, d, group, report, view)
    ensures CacheSays(entries, d', group, report, view)
  {
    hide InputsAgree, KeyOf, GroupHasKeys, SituationOf, Answers;
    AgreeingInputsSameKey(group, d.handles, d'.handles);
  }

  // A group does not read what it writes.
  lemma OwnOutputs(s: State, c: ClientId, g: GroupId)
    requires Inv(s) && c in s.clients && c in s.records && Is(s.records, c, g, Completing)
    ensures g in s.clients[c].dag.groups && Deps(s.clients[c].dag.groups[g]) !! Outs(s.clients[c].dag.groups[g])
  {
    hide Inv, Static, Files, WaitingGroup, HasBadInput, Deps, Outs;
    OneClient(s, c);
    var group := s.clients[c].dag.groups[g];
    assert HasInputs(s.clients[c], s.records[c], g);
    forall f | f in Deps(group) ensures f !in Outs(group) {
      OutputsAre(s, c, g, f);
      assert Good(s.clients[c], s.records[c], f);
    }
  }

  /** Recording the results of a hit: they are what the cache had. */
  lemma HitSourced(s0: State, s: State, x: CachedExec, entries: CacheState, stores: nat -> StoreView, from: nat, to: nat)
    requires Inv(s0) && Inv(s) && Steady(s0, s) && IsPending(x, s) && IsPending(x, s0)
    requires s0.clients[x.client].dag == s.clients[x.client].dag
    requires FoundWithin(entries, s0.clients, x, stores, from, to)
    ensures Sourced(s, WithReport(s, x.client, x.group.uuid, x.report), entries, stores, from, to)
    ensures Steady(s, WithReport(s, x.client, x.group.uuid, x.report))
  {
    hide Inv, Deps, Outs, CacheSays, Steady, AllSuccess, Is;
    var c, g, group := x.client, x.group.uuid, x.group;
    var s' := WithReport(s, c, g, x.report);
    HitSteady(s, c, g, x.report);
    StatusOf(s0.records, c, g, Completing);
    InputsSettled(s0, c, g);
    InputsSteady(s0, s, c, g);
    OwnOutputs(s, c, g);
    var t :| from <= t < to && Found(entries, s0.clients, x, stores(t));
    assert InputsAgree(group, s0.clients[c].handles, s'.clients[c].handles);
    SaysTheSame(entries, s0.clients[c], s'.clients[c], group, x.report, stores(t));
    OnlyOneCompleted(s, c, g, x.report);
    assert FromCache(entries, s', c, g, stores, from, to);
  }

  lemma StatusOf(records: map<ClientId, Record>, c: ClientId, g: GroupId, status: Status)
    requires Is(records, c, g, status)
    ensures c in records && g in records[c].status && records[c].status[g] == status
  {
  }

  lemma OnlyOneCompleted(s: State, c: ClientId, g: GroupId, report: Report)
    requires c in s.clients && c in s.records
    ensures forall x, h :: HasOutcome(WithReport(s, c, g, report).records, x, h) && !HasOutcome(s.records, x, h) ==> x == c && h == g
    ensures g in WithReport(s, c, g, report).records[c].reports && WithReport(s, c, g, report).records[c].reports[g] == report
  {
    hide AllSuccess;
  }

  // The outputs of the group were not settled before.
  lemma HitSteady(s: State, c: ClientId, g: GroupId, report: Report)
    requires Inv(s) && c in s.clients && c in s.records && Is(s.records, c, g, Completing) && g in s.clients[c].dag.groups
    requires report.outputs.Keys <= Outs(s.clients[c].dag.groups[g])
    ensures Steady(s, WithReport(s, c, g, report))
  {
    hide Inv, Outs, AllSuccess;
    forall f | f in report.outputs ensures !SettledFile(s.records[c], f) { OutputsAre(s, c, g, f); }
  }

  // ---------------------------------------------------------------- what a call does

  /** A call that starts with nothing completed of its own: the state evolves,
      and what it completes comes from the cache. */
  ghost predicate Proceeds(s: State, s': State, entries: CacheState, stores: nat -> StoreView, from: nat, to: nat) {
    Evolves(s, s', {}, {}) && Sourced(s, s', entries, stores, from, to)
  }

  // A call that completes nothing.
  ghost predicate Quiet(s: State, s': State, owing: set<Job>) {
    Evolves(s, s', {}, owing) && NoneCompleted(s, s')
  }

  lemma QuietRefl(s: State)
    requires Inv(s)
    ensures Quiet(s, s, {})
  {
    hide Inv, Evolves;
    StaysItself(s);
  }

  lemma QuietThen(a: State, b: State, c: State, owing: set<Job>)
    requires Quiet(a, b, owing) && Quiet(b, c, {})
    ensures Quiet(a, c, owing)
  {
    hide Evolves, HasOutcome;
    EvolvesThen(a, b, c, {}, owing);
  }

  lemma QuietProceeds(s: State, s': State, entries: CacheState, stores: nat -> StoreView, from: nat, to: nat)
    requires Quiet(s, s', {})
    ensures Proceeds(s, s', entries, stores, from, to)
  {
    hide Evolves;
    NothingSourced(s, s', entries, stores, from, to);
  }

  lemma ProceedsThen(a: State, b: State, c: State, entries: CacheState, stores: nat -> StoreView,
                     from: nat, to: nat, from': nat, to': nat)
    requires Inv(b) && from <= from' && to <= to'
    requires Proceeds(a, b, entries, stores, from, to) && Proceeds(b, c, entries, stores, from', to')
    ensures Proceeds(a, c, entries, stores, from, to')
  {
    hide Evolves, Sourced, Inv;
    EvolvesThen(a, b, c, {}, {});
    SourcedThen(a, b, c, {}, entries, stores, from, to, from', to');
  }

  lemma QuietThenProceeds(a: State, b: State, c: State, entries: CacheState, stores: nat -> StoreView, from: nat, to: nat)
    requires Quiet(a, b, {}) && Proceeds(b, c, entries, stores, from, to)
    ensures Proceeds(a, c, entries, stores, from, to)
  {
    hide Evolves, Sourced, NoneCompleted;
    EvolvesThen(a, b, c, {}, {});
    SourcedAfter(a, b, c, entries, stores, from, to);
  }

  lemma ProceedsThenQuiet(a: State, b: State, c: State, entries: CacheState, stores: nat -> StoreView, from: nat, to: nat)
    requires Inv(b) && Proceeds(a, b, entries, stores, from, to) && Quiet(b, c, {})
    ensures Proceeds(a, c, entries, stores, from, to)
  {
    hide Evolves, Sourced, NoneCompleted, Inv;
    NothingSourced(b, c, entries, stores, from, to);
    EvolvesThen(a, b, c, {}, {});
    SourcedThen(a, b, c, {}, entries, stores, from, to, from, to);
  }

  // One group changed its status, to one that is no outcome.
  lemma PutQuiet(s: State, s': State, c: ClientId, g: GroupId, status: Status, owing: set<Job>)
    requires Evolves(s, s', {}, owing) && c in s.records && s'.records == Put(s.records, c, g, status)
    requires status != Succeeded && status != Failed
    ensures Quiet(s, s', owing)
  {
    hide Evolves;
  }

  /** The next message that is sent is this one. */
  ghost predicate SentNext(before: seq<Message>, after: seq<Message>, m: Message) {
    before + [m] <= after
  }

  function FileMessage(c: ClientId, d: ClientData, f: FileId, ok: bool): Message {
    Message(c, FileReady(f, if f in d.handles then d.handles[f] else 0, ok, f in d.callbacks.urgentFiles))
  }

  // The client watches the file, and it is there.
  ghost predicate Wanted(d: ClientData, f: FileId) {
    f in d.callbacks.files && f in d.handles
  }
}
