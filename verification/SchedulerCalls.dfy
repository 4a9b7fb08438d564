/** The calls the scheduler makes within its handlers, as changes of its state:
    what each of them starts from, and what its contract is made of.
    Source: task-maker-exec/src/scheduler.rs. */
module SchedulerCalls {
  import opened Dag
  import opened CheckDag
  import opened CacheKeys
  import opened CacheEntries
  import opened Caching
  import opened Situations
  import opened Behaviour
  import opened SchedulerState
  import opened SchedulerHistory
  import opened SchedulerSteps
  import opened SchedulerFacts
  import opened SchedulerTheorems
  import opened Transparency
  import opened SchedulerLookups

  // ---------------------------------------------------------------- the priority queue

  // The order of the tuples the queue holds: by the priority of the DAG, then
  // of the group; the ids only break ties.
  predicate NotAbove(a: ReadyExec, b: ReadyExec) {
    a.dagPriority < b.dagPriority || (a.dagPriority == b.dagPriority && (
    a.priority < b.priority || (a.priority == b.priority && (
    a.group < b.group || (a.group == b.group && a.client <= b.client)))))
  }

  ghost predicate IsTop(heap: multiset<ReadyExec>, e: ReadyExec) {
    e in heap && forall x :: x in heap ==> NotAbove(x, e)
  }

  lemma HasTop(heap: multiset<ReadyExec>)
    requires heap != multiset{}
    ensures exists e :: IsTop(heap, e)
    decreases |heap|
  {
    var e :| e in heap;
    var rest := heap - multiset{e};
    if rest == multiset{} {
      assert forall x :: x in heap ==> x == e || x in rest;
      assert IsTop(heap, e);
    } else {
      HasTop(rest);
      var m :| IsTop(rest, m);
      assert forall x :: x in heap ==> x == e || x in rest;
      assert IsTop(heap, if NotAbove(m, e) then e else m);
    }
  }

  // ---------------------------------------------------------------- jobs

  // A worker that is sent a job is told where all of its inputs are, and of nothing else.
  ghost predicate Equipped(jobs: seq<WorkerMessage>) {
    forall i :: 0 <= i < |jobs| && jobs[i].WorkerJob? ==> jobs[i].depKeys.Keys == Deps(jobs[i].group)
  }

  // The last job that the worker was sent is this group.
  ghost predicate LastJob(jobs: seq<WorkerMessage>, w: WorkerId, g: GroupId) {
    exists k :: 0 <= k < |jobs| && IsJobFor(jobs[k], w) && jobs[k].group.uuid == g
      && forall i :: k < i < |jobs| ==> !IsJobFor(jobs[i], w)
  }

  predicate IsJobFor(m: WorkerMessage, w: WorkerId) {
    m.WorkerJob? && m.worker == w
  }

  /** Every busy worker works on the last job it was sent, and was told where the inputs are. */
  ghost predicate Provisioned(workers: map<WorkerId, Option<Job>>, jobs: seq<WorkerMessage>) {
    Equipped(jobs) && forall w :: w in workers && workers[w].Some? ==> LastJob(jobs, w, workers[w].value.group)
  }

  /** Every running group is the last job that some worker was sent. */
  lemma RunningWasSent(s: State, jobs: seq<WorkerMessage>, c: ClientId, g: GroupId)
    requires Inv(s) && Provisioned(s.workers, jobs) && c in s.clients && g in s.clients[c].running
    ensures exists w :: w in s.workers && s.workers[w] == Some(Job(c, g)) && LastJob(jobs, w, g)
  {
    hide LastJob, Equipped;
    WorkersMatch(s);
  }

  lemma FewerBusy(workers: map<WorkerId, Option<Job>>, workers': map<WorkerId, Option<Job>>, jobs: seq<WorkerMessage>)
    requires Provisioned(workers, jobs)
    requires forall w :: w in workers' && workers'[w].Some? ==> w in workers && workers[w] == workers'[w]
    ensures Provisioned(workers', jobs)
  {
    hide LastJob, Equipped;
  }

  lemma JobSent(workers: map<WorkerId, Option<Job>>, jobs: seq<WorkerMessage>, m: WorkerMessage, c: ClientId)
    requires Provisioned(workers, jobs) && m.WorkerJob? && m.depKeys.Keys == Deps(m.group)
    ensures Provisioned(workers[m.worker := Some(Job(c, m.group.uuid))], jobs + [m])
  {
    hide Deps;
    var workers' := workers[m.worker := Some(Job(c, m.group.uuid))];
    forall w | w in workers' && workers'[w].Some? ensures LastJob(jobs + [m], w, workers'[w].value.group) {
      if w == m.worker { assert IsJobFor((jobs + [m])[|jobs|], w); } else { StillLast(jobs, m, w, workers[w].value.group); }
    }
  }

  lemma JobIsSent(workers: map<WorkerId, Option<Job>>, jobs: seq<WorkerMessage>, jobs': seq<WorkerMessage>, w: WorkerId,
                  d: ClientData, c: ClientId, g: GroupId)
    requires Provisioned(workers, jobs) && jobs <= jobs' && |jobs'| == |jobs| + 1 && IsJob(jobs'[|jobs|], w, d, g)
    ensures Provisioned(workers[w := Some(Job(c, g))], jobs')
  {
    hide Provisioned, Deps;
    JobSent(workers, jobs, jobs'[|jobs|], c);
    assert jobs' == jobs + [jobs'[|jobs|]];
  }

  lemma StopSent(workers: map<WorkerId, Option<Job>>, jobs: seq<WorkerMessage>, m: WorkerMessage)
    requires Provisioned(workers, jobs) && m.StopWorkerJob?
    ensures Provisioned(workers, jobs + [m])
  {
    hide LastJob;
    forall w | w in workers && workers[w].Some? ensures LastJob(jobs + [m], w, workers[w].value.group) {
      StillLast(jobs, m, w, workers[w].value.group);
    }
  }

  lemma StillLast(jobs: seq<WorkerMessage>, m: WorkerMessage, w: WorkerId, g: GroupId)
    requires LastJob(jobs, w, g) && !IsJobFor(m, w)
    ensures LastJob(jobs + [m], w, g)
  {
    var k :| 0 <= k < |jobs| && IsJobFor(jobs[k], w) && jobs[k].group.uuid == g
      && forall i :: k < i < |jobs| ==> !IsJobFor(jobs[i], w);
    assert (jobs + [m])[k] == jobs[k];
  }

  /** What a call sends to the workers: one job each to workers that were free,
      and are busy with it now. */
  ghost predicate Handed(workers: map<WorkerId, Option<Job>>, jobs: seq<WorkerMessage>, workers': map<WorkerId, Option<Job>>,
                         jobs': seq<WorkerMessage>) {
    && WorkersEvolve(workers, workers') && jobs <= jobs'
    && (forall i :: |jobs| <= i < |jobs'| ==> HandedTo(workers, workers', jobs'[i]))
    && (forall i, j :: |jobs| <= i < j < |jobs'| ==> jobs'[i].worker != jobs'[j].worker)
  }

  ghost predicate HandedTo(workers: map<WorkerId, Option<Job>>, workers': map<WorkerId, Option<Job>>, m: WorkerMessage) {
    && m.WorkerJob? && m.worker in workers && workers[m.worker].None?
    && m.worker in workers' && workers'[m.worker].Some? && workers'[m.worker].value.group == m.group.uuid
  }

  lemma NothingHanded(workers: map<WorkerId, Option<Job>>, jobs: seq<WorkerMessage>)
    ensures Handed(workers, jobs, workers, jobs)
  {
  }

  lemma HandedThen(workers: map<WorkerId, Option<Job>>, jobs: seq<WorkerMessage>, workers1: map<WorkerId, Option<Job>>,
                   jobs1: seq<WorkerMessage>, workers2: map<WorkerId, Option<Job>>, jobs2: seq<WorkerMessage>)
    requires Handed(workers, jobs, workers1, jobs1) && Handed(workers1, jobs1, workers2, jobs2)
    ensures Handed(workers, jobs, workers2, jobs2)
  {
    forall i | |jobs| <= i < |jobs2| ensures HandedTo(workers, workers2, jobs2[i]) {
      if i < |jobs1| { assert jobs2[i] == jobs1[i] && HandedTo(workers, workers1, jobs1[i]); }
    }
    forall i, j | |jobs| <= i < j < |jobs2| ensures jobs2[i].worker != jobs2[j].worker {
      if i < |jobs1| { assert jobs2[i] == jobs1[i] && HandedTo(workers, workers1, jobs1[i]); }
      if j < |jobs1| { assert jobs2[j] == jobs1[j]; }
    }
  }

  ghost predicate IsJob(m: WorkerMessage, w: WorkerId, d: ClientData, g: GroupId) {
    && m.WorkerJob? && m.worker == w
    && g in d.dag.groups && m.group == d.dag.groups[g] && g == m.group.uuid
    && m.depKeys.Keys == Deps(m.group)
    && forall f :: f in m.depKeys ==> f in d.handles && m.depKeys[f] == d.handles[f]
  }

  // ---------------------------------------------------------------- what is true of a message

  /** What a message says is so, as far as the cache will remember it: results are
      those of the executions, unless the sandbox failed, and DAGs are expected
      ones, with the same extra time and memory. */
  ghost predicate TellsTruth(w: World, clients: map<ClientId, ClientData>, workers: map<WorkerId, Option<Job>>, m: Incoming) {
    match m
    case EvaluateDag(_, dag, _) => forall g :: g in dag.groups ==> Expected(w, dag.groups[g])
    case ResultArrived(worker, results, outputs) =>
      HasJob(clients, workers, worker) && !AnyInternalError(results) ==>
        var d := clients[workers[worker].value.client];
        Genuine(w, d.handles, d.dag.groups[workers[worker].value.group], results, outputs)
    case _ => true
  }

  // The worker is busy with a group of a client that is there.
  ghost predicate HasJob(clients: map<ClientId, ClientData>, workers: map<WorkerId, Option<Job>>, worker: WorkerId) {
    worker in workers && workers[worker].Some? && workers[worker].value.client in clients
      && workers[worker].value.group in clients[workers[worker].value.client].dag.groups
  }

  /** The client that is told something false, which the cache does not learn: a
      file comes again with a different content, or the sandbox has failed. */
  ghost function Misleads(w: World, clients: map<ClientId, ClientData>, workers: map<WorkerId, Option<Job>>, m: Incoming): set<ClientId> {
    match m
    case FileArrived(c, f, key) =>
      if c in clients && f in clients[c].handles && clients[c].handles[f] != key then {c} else {}
    case ResultArrived(worker, results, outputs) =>
      if HasJob(clients, workers, worker) && AnyInternalError(results) then
        var d := clients[workers[worker].value.client];
        if Genuine(w, d.handles, d.dag.groups[workers[worker].value.group], results, outputs) then {}
        else {workers[worker].value.client}
      else {}
    case _ => {}
  }

  // The message is true, but for the clients it misleads.
  ghost predicate Judged(w: World, clients: map<ClientId, ClientData>, workers: map<WorkerId, Option<Job>>,
                         misled: set<ClientId>, m: Incoming) {
    TellsTruth(w, clients, workers, m) && Misleads(w, clients, workers, m) <= misled
  }

  // The results are those of the executions, from a worker or from the cache.
  ghost predicate AsExpected(w: World, handles: map<FileId, FileKey>, group: ExecutionGroup,
                             results: seq<ExecutionResult>, outputs: map<FileId, FileKey>, fromCache: bool, misled: bool) {
    if fromCache then misled || (outputs.Keys <= Outs(group) && Right(w, handles, group, AllSuccess(results), outputs))
    else Genuine(w, handles, group, results, outputs) || (misled && AnyInternalError(results))
  }

  lemma JudgedIsExpected(w: World, clients: map<ClientId, ClientData>, workers: map<WorkerId, Option<Job>>,
                         misled: set<ClientId>, worker: WorkerId, results: seq<ExecutionResult>,
                         outputs: map<FileId, FileKey>)
    requires Judged(w, clients, workers, misled, ResultArrived(worker, results, outputs))
    requires HasJob(clients, workers, worker)
    ensures var j := workers[worker].value;
      AsExpected(w, clients[j.client].handles, clients[j.client].dag.groups[j.group], results, outputs, false, j.client in misled)
  {
    hide Genuine, AnyInternalError;
  }

  lemma ExpectedIsRight(w: World, handles: map<FileId, FileKey>, group: ExecutionGroup,
                        results: seq<ExecutionResult>, outputs: map<FileId, FileKey>, fromCache: bool)
    requires AsExpected(w, handles, group, results, outputs, fromCache, false)
    ensures outputs.Keys <= Outs(group) && Right(w, handles, group, AllSuccess(results), outputs)
  {
    hide Right;
    if !fromCache { GenuineIsRight(w, handles, group, results, outputs); }
  }

  // What a worker sent may be cached, now that the client has the outputs as well.
  ghost predicate MayBeCached(w: World, handles: map<FileId, FileKey>, handles': map<FileId, FileKey>, group: ExecutionGroup,
                              results: seq<ExecutionResult>, outputs: map<FileId, FileKey>) {
    && Genuine(w, handles, group, results, outputs) && Expected(w, group)
    && InputsAgree(group, handles, handles') && SameHandles(outputs, handles')
  }

  lemma CachedAsExpected(w: World, s: State, s1: State, c: ClientId, group: ExecutionGroup,
                         results: seq<ExecutionResult>, outputs: map<FileId, FileKey>)
    requires Inv(s) && c in s.clients && c in s.records && c in s1.clients && Follows(w, s.clients, s.records, s.misled)
    requires group.uuid in s.clients[c].dag.groups && s.clients[c].dag.groups[group.uuid] == group
    requires Is(s.records, c, group.uuid, Completing)
    requires AsExpected(w, s.clients[c].handles, group, results, outputs, false, c in s.misled)
    requires !AnyInternalError(results) && s1.clients[c].handles == s.clients[c].handles + outputs
    ensures MayBeCached(w, s.clients[c].handles, s1.clients[c].handles, group, results, outputs)
  {
    hide Inv, Follows, NoEarlyOutputs, OutcomesRight, SituationOf, Contents, AllSuccess, Deps, Outs, Expected, Is;
    OneFollows(w, s.clients, s.records, s.misled, c);
    OwnOutputs(s, c, group.uuid);
    CompletingInputs(s, c, group.uuid);
    forall f | f in Deps(group) ensures f in s.clients[c].handles && f !in outputs { }
  }

  lemma InsertedIsRemembered(entries: map<CacheKey, seq<CacheEntry>>, entries': map<CacheKey, seq<CacheEntry>>,
                             group: ExecutionGroup, handles: map<FileId, FileKey>, results: seq<ExecutionResult>)
    requires GroupHasKeys(group, handles) && |results| == |group.executions|
    requires forall i :: 0 <= i < |group.executions| ==> HasOutputFiles(group.executions[i], handles)
    requires forall key :: key != KeyOf(group, handles) ==> BucketOf(entries', key) == BucketOf(entries, key)
    requires exists entry, pos ::
      && Recorded(BucketOf(entries, KeyOf(group, handles)), BucketOf(entries', KeyOf(group, handles)), entry, pos)
      && Records(entry, group, handles, results)
    ensures Remembered(entries, entries', group, handles, results)
  {
    hide KeyOf, GroupHasKeys, HasOutputFiles, Records, Recorded, BucketOf;
  }

  lemma InsertedFollows(w: World, entries: map<CacheKey, seq<CacheEntry>>, entries': map<CacheKey, seq<CacheEntry>>,
                        handles: map<FileId, FileKey>, handles': map<FileId, FileKey>, group: ExecutionGroup,
                        results: seq<ExecutionResult>, outputs: map<FileId, FileKey>)
    requires OneKeyOneBehaviour(w) && CacheFollows(w, entries) && MayBeCached(w, handles, handles', group, results, outputs)
    requires Remembered(entries, entries', group, handles', results)
    ensures CacheFollows(w, entries')
  {
    hide OneKeyOneBehaviour, SituationOf, Genuine, EntryFollows, KeyOf, GroupHasKeys, HasOutputFiles, Records,
         InputsAgree;
    AgreeingInputsSameKey(group, handles, handles');
    var key := KeyOf(group, handles');
    var entry, pos :| Recorded(BucketOf(entries, key), BucketOf(entries', key), entry, pos)
      && Records(entry, group, handles', results);
    RecordedFollows(w, handles, handles', group, results, outputs, entry);
    forall k | k in entries' ensures BucketFollows(w, k, entries'[k]) {
      assert BucketOf(entries', k) == entries'[k];
      if k in entries { assert BucketFollows(w, k, entries[k]); }
    }
  }

  // What was found in the cache for these groups is what they do.
  ghost predicate AllRight(w: World, s: State, cached: seq<CachedExec>) {
    forall i :: 0 <= i < |cached| && cached[i].client !in s.misled ==> HitRight(w, s, cached[i])
  }

  ghost predicate HitRight(w: World, s: State, x: CachedExec) {
    x.client in s.clients
    && Right(w, s.clients[x.client].handles, x.group, AllSuccess(x.report.results), x.report.outputs)
  }

  lemma HitsAreRight(w: World, entries: CacheState, s: State, s1: State, cached: seq<CachedExec>,
                     stores: nat -> StoreView, from: nat, to: nat)
    requires Stable(w) && CacheFollows(w, entries) && Follows(w, s1.clients, s1.records, s1.misled)
    requires AllFound(entries, s.clients, cached, stores, from, to)
    requires AllPending(cached, 0, s1) && SameButReady(s.clients, s1.clients)
    ensures AllRight(w, s1, cached)
  {
    hide Stable, CacheFollows, Follows, Right, Looked, NoEarlyOutputs, OutcomesRight, Is, Expected, WritesOnce;
    forall i | 0 <= i < |cached| ensures HitRight(w, s1, cached[i]) {
      var x := cached[i];
      assert IsPending(x, s1) && FoundWithin(entries, s.clients, x, stores, from, to);
      var t :| from <= t < to && Found(entries, s.clients, x, stores(t));
      OneFollows(w, s1.clients, s1.records, s1.misled, x.client);
      FoundIsRight(w, entries, s1.clients[x.client], x, stores(t));
    }
  }

  lemma FoundIsRight(w: World, entries: CacheState, d: ClientData, x: CachedExec, view: StoreView)
    requires Stable(w) && CacheFollows(w, entries) && Expected(w, x.group) && WritesOnce(x.group)
    requires CacheSays(entries, d, x.group, x.report, view) && x.report.outputs.Keys == Outs(x.group)
    ensures Right(w, d.handles, x.group, AllSuccess(x.report.results), x.report.outputs)
  {
    hide Stable, OneKeyOneBehaviour, CacheFollows, Right, Expected, WritesOnce, KeyOf, GroupHasKeys, Outs, Usable,
         IsRevival, Stores;
    HitIsRight(w, entries, x.group, d.handles, x.report.results, x.report.outputs, view);
  }

  // Completing the hits before it does not change what a hit is about.
  lemma StillRight(w: World, s1: State, s2: State, cached: seq<CachedExec>, i: nat)
    requires i < |cached| && Evolves(s1, s2, JobsUpTo(cached, i), {}) && (s1.honest ==> AllRight(w, s1, cached))
    requires AllPending(cached, i, s2)
    ensures var x := cached[i];
      x.client in s2.clients
      && (s2.honest ==>
        AsExpected(w, s2.clients[x.client].handles, x.group, x.report.results, x.report.outputs, true, x.client in s2.misled))
  {
    hide Right, Owed, OwedBy, StatusesMove, ClientEvolves, WorkersEvolve, AllSuccess;
    var x := cached[i];
    assert IsPending(x, s2);
    if s2.Trusts(x.client) {
      assert HitRight(w, s1, x);
      RightStays(w, s1.clients[x.client].handles, s2.clients[x.client].handles, x.group, AllSuccess(x.report.results),
                 x.report.outputs, x.report.outputs);
    }
  }

  lemma RecordStep(w: World, s: State, s': State, c: ClientId, group: ExecutionGroup, report: Report)
    requires Inv(s) && c in s.clients && c in s.records && Is(s.records, c, group.uuid, Completing)
    requires group.uuid in s.clients[c].dag.groups && s.clients[c].dag.groups[group.uuid] == group
    requires AllSuccess(report.results) ==> Outs(group) <= report.outputs.Keys
    requires s.honest ==> Follows(w, s.clients, s.records, s.misled)
    requires s.Trusts(c) ==>
      report.outputs.Keys <= Outs(group) && Right(w, s.clients[c].handles, group, AllSuccess(report.results), report.outputs)
    requires s' == WithReport(s, c, group.uuid, report)
    ensures Inv(s') && Evolves(s, s', {Job(c, group.uuid)}, {Job(c, group.uuid)})
    ensures s.honest ==> Follows(w, s'.clients, s'.records, s.misled)
    ensures s.Trusts(c) ==> SameHandles(s.clients[c].handles, s.clients[c].handles + report.outputs)
  {
    hide Inv, Follows, Right, Outs, SameHandles, ProducerMap, Put, AllSuccess, Evolves, Is;
    ProducersOf(s, c);
    if s.honest { RecordFollows(w, s, c, group, report); }
    StepComplete(s, s', c, group.uuid, report);
  }

  lemma RecordFollows(w: World, s: State, c: ClientId, group: ExecutionGroup, report: Report)
    requires Inv(s) && c in s.clients && c in s.records && Is(s.records, c, group.uuid, Completing)
    requires group.uuid in s.clients[c].dag.groups && s.clients[c].dag.groups[group.uuid] == group
    requires Follows(w, s.clients, s.records, s.misled)
    requires c !in s.misled ==>
      report.outputs.Keys <= Outs(group) && Right(w, s.clients[c].handles, group, AllSuccess(report.results), report.outputs)
    ensures var s' := WithReport(s, c, group.uuid, report);
      Follows(w, s'.clients, s'.records, s.misled)
    ensures c !in s.misled ==> SameHandles(s.clients[c].handles, s.clients[c].handles + report.outputs)
  {
    hide Inv, Follows, Right, Outs, SameHandles, ProducerMap, AllSuccess;
    var g := group.uuid;
    var records := s.records[c := Reported(s.records[c], g, report)];
    var d := s.clients[c].(handles := s.clients[c].handles + report.outputs);
    ProducersOf(s, c);
    FollowsSame(w, s.clients, s.records, s.misled, c, s.clients[c], records[c]);
    assert s.clients[c := s.clients[c]] == s.clients;
    FollowsComplete(w, s.clients, records, s.misled, c, g, d, AllSuccess(report.results), report.outputs);
    assert Put(records, c, g, OutcomeOf(report.results)) == Ending(s.records, c, g, report);
  }

  lemma DeliveryFollows(w: World, s: State, c: ClientId, d: ClientData, f: FileId, key: FileKey)
    requires Inv(s) && Follows(w, s.clients, s.records, s.misled) && c in s.clients && f in s.clients[c].dag.providedFiles
    requires c !in s.misled && f in s.clients[c].handles ==> s.clients[c].handles[f] == key
    requires d == s.clients[c].(handles := s.clients[c].handles[f := key])
    ensures Follows(w, s.clients[c := d], s.records, s.misled)
    ensures c !in s.misled ==> SameHandles(s.clients[c].handles, d.handles)
  {
    hide Inv, Follows, SameHandles, ProducerMap;
    ProducersOf(s, c);
    FollowsDeliver(w, s.clients, s.records, s.misled, c, d, f, key);
  }

  lemma NewClientFollows(w: World, s: State, c: ClientId, d: ClientData)
    requires Follows(w, s.clients, s.records, s.misled) && FreshClient(d) && ValidDag(d.dag, d.callbacks)
    requires Judged(w, s.clients, s.workers, s.misled, EvaluateDag(c, d.dag, d.callbacks))
    ensures Follows(w, s.clients[c := d], s.records[c := FreshRecord(d.dag)], s.misled)
  {
    hide Follows, FreshClient, FreshRecord, CallbacksKnown, TopologicalOrder, UniqueFiles, Expected;
    FollowsNew(w, s.clients, s.records, s.misled, c, d);
  }

  // The job of a busy worker goes back to the queue, or is completed.
  lemma JobFollows(w: World, s: State, worker: WorkerId, d: ClientData, status: Status)
    requires Inv(s) && Follows(w, s.clients, s.records, s.misled) && status != Succeeded && status != Failed
    requires worker in s.workers && s.workers[worker].Some? && s.workers[worker].value.client in s.clients
    requires var c := s.workers[worker].value.client;
      d.dag == s.clients[c].dag && d.handles == s.clients[c].handles
    ensures var j := s.workers[worker].value;
      j.client in s.records && Follows(w, s.clients[j.client := d], Put(s.records, j.client, j.group, status), s.misled)
  {
    hide Inv, Follows, Put;
    BusyWorker(s, worker);
    var j := s.workers[worker].value;
    FollowsMove(w, s.clients, s.records, s.misled, j.client, d, j.group, Running, status);
  }

  lemma ProducersOf(s: State, c: ClientId)
    requires Inv(s) && c in s.clients
    ensures c in s.records && ProducerMap(s.clients[c].dag, s.records[c].producer)
  {
    hide Inv, ProducerMap, InputTable, Tables, Sound, Files;
    OneClient(s, c);
  }

  lemma SameHonesty(s: State, s': State, done: set<Job>)
    requires Evolves(s, s', done, {})
    ensures s'.honest == s.honest && s'.misled == s.misled
  {
    hide Owed, OwedBy, StatusesMove, ClientEvolves, WorkersEvolve;
  }

  datatype Incoming =
    | EvaluateDag(client: ClientId, dag: DagData, callbacks: WatchSet)
    | FileArrived(client: ClientId, file: FileId, key: FileKey)
    | ResultArrived(worker: WorkerId, results: seq<ExecutionResult>, outputs: map<FileId, FileKey>)
    | WorkerConnected(worker: WorkerId)
    | WorkerDisconnected(worker: WorkerId)
    | ClientDisconnected(client: ClientId)

  // One of the first `n` messages asks for the evaluation of a DAG of the client.
  ghost predicate Evaluated(messages: seq<Incoming>, n: nat, c: ClientId) {
    exists i :: 0 <= i < n <= |messages| && messages[i].EvaluateDag? && messages[i].client == c
  }

  // After that the file came, within the first `n` messages.
  ghost predicate Provided(messages: seq<Incoming>, n: nat, c: ClientId, f: FileId) {
    exists i :: 0 <= i < n <= |messages| && messages[i].FileArrived? && messages[i].client == c && messages[i].file == f
      && Evaluated(messages, i, c)
  }

  ghost predicate AllProvided(messages: seq<Incoming>, c: ClientId, dag: DagData) {
    forall f :: f in dag.providedFiles ==> Provided(messages, |messages|, c, f)
  }

  // All the files of the client have come, and none of its groups is ready or running.
  ghost predicate Drained(messages: seq<Incoming>, c: ClientId, d: ClientData) {
    AllProvided(messages, c, d.dag) && d.ready == {} && d.running == {}
  }

  ghost predicate AllSeen(messages: seq<Incoming>, n: nat, s: State) {
    forall c :: Evaluated(messages, n, c) ==> c in s.seen
  }

  ghost predicate AllKnown(messages: seq<Incoming>, n: nat, s: State) {
    forall c, f :: Provided(messages, n, c, f) && c in s.clients && f in s.clients[c].dag.providedFiles ==> Knows(s, c, f)
  }

  lemma NothingProvided(messages: seq<Incoming>, s: State)
    ensures AllSeen(messages, 0, s) && AllKnown(messages, 0, s)
  {
  }

  lemma OneMoreMessage(messages: seq<Incoming>, n: nat, s: State, s': State)
    requires n < |messages| && Inv(s) && Inv(s') && Continues(s, s')
    requires AllSeen(messages, n, s) && AllKnown(messages, n, s)
    requires messages[n].EvaluateDag? ==> messages[n].client in s'.seen
    requires var m := messages[n];
      m.FileArrived? && m.client in s'.clients && m.file in s'.clients[m.client].dag.providedFiles ==> Knows(s', m.client, m.file)
    ensures AllSeen(messages, n + 1, s') && AllKnown(messages, n + 1, s')
  {
    hide Inv, Continues, Evaluated, Knows;
    forall c | Evaluated(messages, n + 1, c) ensures c in s'.seen {
      EvaluatedBefore(messages, n, c);
      SeenStays(s, s');
    }
    forall c, f | Provided(messages, n + 1, c, f) && c in s'.clients && f in s'.clients[c].dag.providedFiles
      ensures Knows(s', c, f)
    {
      if Provided(messages, n, c, f) {
        StillEvaluated(messages, n, c, f);
        KnownStays(s, s', c, f);
      }
    }
  }

  lemma EvaluatedBefore(messages: seq<Incoming>, n: nat, c: ClientId)
    requires n < |messages| && Evaluated(messages, n + 1, c)
    ensures Evaluated(messages, n, c) || (messages[n].EvaluateDag? && messages[n].client == c)
  {
  }

  lemma StillEvaluated(messages: seq<Incoming>, n: nat, c: ClientId, f: FileId)
    requires n <= |messages| && Provided(messages, n, c, f)
    ensures Evaluated(messages, n, c)
  {
    var j :| 0 <= j < n && messages[j].FileArrived? && messages[j].client == c && messages[j].file == f
      && Evaluated(messages, j, c);
    var i :| 0 <= i < j && messages[i].EvaluateDag? && messages[i].client == c;
  }

  lemma SeenStays(s: State, s': State)
    requires Continues(s, s')
    ensures s.seen <= s'.seen
  {
    hide ClientEvolves, FinalsKept;
  }

  // What a client that is still there knew, it knows.
  lemma KnownStays(s: State, s': State, c: ClientId, f: FileId)
    requires Inv(s) && Inv(s') && Continues(s, s') && c in s.seen && c in s'.clients && f in s'.clients[c].dag.providedFiles
    requires c in s.clients && f in s.clients[c].dag.providedFiles ==> Knows(s, c, f)
    ensures Knows(s', c, f)
  {
    hide Inv, FinalsKept;
    OneClient(s', c);
    assert c in s.clients;
    OneClient(s, c);
    assert ClientEvolves(s.clients[c], s.records[c], s'.clients[c], s'.records[c]);
  }

  lemma ProvidedAreKnown(messages: seq<Incoming>, s: State, c: ClientId)
    requires AllKnown(messages, |messages|, s) && c in s.clients && AllProvided(messages, c, s.clients[c].dag)
    ensures forall f :: f in s.clients[c].dag.providedFiles ==> Knows(s, c, f)
  {
    hide Provided, Knows;
  }

  // What the environment promises about a result: unless the sandbox itself
  // failed, all the outputs of the group come with it.
  ghost predicate Plausible(workers: map<WorkerId, Option<Job>>, clients: map<ClientId, ClientData>, w: WorkerId,
                            results: seq<ExecutionResult>, outputs: map<FileId, FileKey>) {
    w in workers && workers[w].Some? && workers[w].value.client in clients
      && workers[w].value.group in clients[workers[w].value.client].dag.groups && !AnyInternalError(results) ==>
      Outs(clients[workers[w].value.client].dag.groups[workers[w].value.group]) <= outputs.Keys
  }

  // The result does not have one entry per execution of the job.
  predicate Mismatch(workers: map<WorkerId, Option<Job>>, clients: map<ClientId, ClientData>, w: WorkerId,
                     results: seq<ExecutionResult>) {
    && w in workers && workers[w].Some? && workers[w].value.client in clients
    && workers[w].value.group in clients[workers[w].value.client].dag.groups
    && |clients[workers[w].value.client].dag.groups[workers[w].value.group].executions| != |results|
  }

  // The result stops the scheduler.
  ghost predicate Refused(workers: map<WorkerId, Option<Job>>, clients: map<ClientId, ClientData>, w: WorkerId,
                          results: seq<ExecutionResult>, outputs: map<FileId, FileKey>) {
    Plausible(workers, clients, w, results, outputs) && Mismatch(workers, clients, w, results)
  }

  ghost predicate Requeued(clients: map<ClientId, ClientData>, clients': map<ClientId, ClientData>,
                           heap: multiset<ReadyExec>, heap': multiset<ReadyExec>, j: Job) {
    && j.client in clients && j.group in clients[j.client].dag.groups
    && heap' == heap + multiset{ReadyExec(HIGH_PRIORITY, clients[j.client].dag.groups[j.group].priority, j.group, j.client)}
    && clients' == clients[j.client := clients[j.client].(ready := clients[j.client].ready + {j.group}, running := clients[j.client].running - {j.group})]
  }

  ghost predicate Stopped(jobs: seq<WorkerMessage>, from: nat, w: WorkerId, g: GroupId) {
    exists i :: from <= i < |jobs| && jobs[i] == StopWorkerJob(w, g)
  }

  predicate IsStop(m: WorkerMessage, workers: map<WorkerId, Option<Job>>, c: ClientId) {
    m.StopWorkerJob? && m.worker in workers && workers[m.worker] == Some(Job(c, m.job))
  }

  lemma StopSaid(before: seq<WorkerMessage>, jobs: seq<WorkerMessage>, from: nat)
    requires from <= |before| && |jobs| == |before| + 1 && before <= jobs && jobs[|before|].StopWorkerJob?
    ensures Stopped(jobs, from, jobs[|before|].worker, jobs[|before|].job)
    ensures forall w, g :: Stopped(before, from, w, g) ==> Stopped(jobs, from, w, g)
  {
    forall w, g | Stopped(before, from, w, g) ensures Stopped(jobs, from, w, g) {
      var i :| from <= i < |before| && before[i] == StopWorkerJob(w, g);
      assert jobs[i] == StopWorkerJob(w, g);
    }
  }

  // Between the first change of a handler and its end.
  lemma AfterHandling(s: State, s1: State, s2: State, jobs: set<Job>)
    requires Inv(s) && Inv(s1) && Inv(s2) && Evolves(s1, s2, jobs, {}) && (s1 == s || Continues(s, s1))
    ensures Continues(s, s2)
    ensures jobs == {} && Settled(s1) ==> Settled(s2)
    ensures forall x :: jobs == {x} && OnlyPending(s1, jobs) ==> Settled(s2)
    ensures s2.honest == s1.honest && s2.misled == s1.misled
  {
    hide Inv, Evolves, Settled, Continues, OnlyPending;
    SameHonesty(s1, s2, jobs);
    EvolvesContinues(s1, s2, jobs);
    if s1 != s { ContinuesThen(s, s1, s2); }
    if jobs == {} && Settled(s1) { SettledStays(s1, s2); }
    if OnlyPending(s1, jobs) { PendingDone(s1, s2, jobs); }
  }

  lemma DagStays(s: State, s': State, c: ClientId)
    requires Evolves(s, s', {}, {}) && c in s.clients
    ensures c in s'.clients && s'.clients[c].dag == s.clients[c].dag && s'.clients[c].callbacks == s.clients[c].callbacks
    ensures s'.seen == s.seen
  {
    hide Owed, StatusesMove;
    assert c in s.records;
  }

  lemma WorkersStay(s: State, s': State, done: set<Job>)
    requires Evolves(s, s', done, {})
    ensures s'.workers.Keys == s.workers.Keys && WorkersEvolve(s.workers, s'.workers)
  {
    hide Owed, StatusesMove, ClientEvolves;
  }

  lemma ProvidedIsGood(s: State, c: ClientId, f: FileId)
    requires Inv(s) && c in s.clients && f in s.clients[c].handles && f in s.clients[c].dag.providedFiles
    ensures c in s.records && Good(s.clients[c], s.records[c], f)
  {
    hide Inv, Tables, Sound, Files, ValidDag, InputTable;
    OneClient(s, c);
  }

  lemma NowIs(records: map<ClientId, Record>, c: ClientId, g: GroupId, status: Status)
    requires c in records
    ensures Is(Put(records, c, g, status), c, g, status)
  {
  }

  /** The results that were recorded stay, whatever happens then. */
  lemma ReportedStays(s: State, s': State, c: ClientId, g: GroupId, report: Report)
    requires c in s.clients && c in s.records && Evolves(WithReport(s, c, g, report), s', {}, {})
    ensures c in s'.records && Is(s'.records, c, g, OutcomeOf(report.results))
    ensures g in s'.records[c].reports && s'.records[c].reports[g] == report
    ensures g in s.clients[c].callbacks.executions ==>
      SentNext(s.outbox, s'.outbox, Message(c, ExecutionDone(g, report.results)))
  {
    hide Owed, OwedBy, ClientEvolves, Steady, HandlesKept, AllSuccess, WorkersEvolve, Evolves;
    var s1 := WithReport(s, c, g, report);
    ReportStays(s1, s', {}, c, g);
    OutboxStays(s1, s');
  }

  lemma OutboxStays(s: State, s': State)
    requires Evolves(s, s', {}, {})
    ensures s.outbox <= s'.outbox
  {
    hide Owed, OwedBy, ClientEvolves, Steady, HandlesKept, StatusesMove, WorkersEvolve;
  }

  // The outputs that came are where the client finds them.
  lemma OutputsStay(s: State, s': State, c: ClientId, g: GroupId, report: Report)
    requires Inv(s) && c in s.clients && c in s.records && g in s.clients[c].dag.groups
    requires Evolves(WithReport(s, c, g, report), s', {}, {})
    ensures c in s'.clients
    ensures forall f :: f in report.outputs && f in Outs(s.clients[c].dag.groups[g]) ==>
      f in s'.clients[c].handles && s'.clients[c].handles[f] == report.outputs[f]
  {
    hide Inv, Evolves, Outs, AllSuccess;
    var s1 := WithReport(s, c, g, report);
    ClientStays(s1, s', {}, {}, c);
    SteadyOf(s1, s', {});
    forall f | f in report.outputs && f in Outs(s.clients[c].dag.groups[g])
      ensures f in s'.clients[c].handles && s'.clients[c].handles[f] == report.outputs[f]
    {
      OutputsAre(s, c, g, f);
      assert SettledFile(s1.records[c], f);
    }
  }

  lemma SayToGone(s: State, c: ClientId)
    requires Inv(s) && Settled(s) && c in s.seen && c !in s.clients
    ensures Inv(s.(outbox := s.outbox + [Message(c, EvaluationDone)])) && Settled(s.(outbox := s.outbox + [Message(c, EvaluationDone)]))
  {
    hide Inv, Settled, TrueOf, Evolves;
    StepSay(s, c, EvaluationDone);
  }

  lemma SameDataRefl(clients: map<ClientId, ClientData>)
    ensures SameData(clients, clients)
  {
  }

  lemma IsKnown(s: State, c: ClientId, f: FileId)
    requires c in s.records && f in s.records[c].announced
    ensures Knows(s, c, f)
  {
  }

  lemma DataStays(clients: map<ClientId, ClientData>, c: ClientId, d: ClientData)
    requires c in clients && d.dag == clients[c].dag && d.callbacks == clients[c].callbacks && d.handles == clients[c].handles
    ensures SameData(clients, clients[c := d])
  {
  }

  lemma SameDataTransitive(a: map<ClientId, ClientData>, b: map<ClientId, ClientData>, c: map<ClientId, ClientData>)
    requires SameData(a, b) && SameData(b, c)
    ensures SameData(a, c)
  {
  }

  // The message gives a worker, that was free, the job it has now.
  ghost predicate NewJob(workers: map<WorkerId, Option<Job>>, workers': map<WorkerId, Option<Job>>,
                         clients: map<ClientId, ClientData>, m: WorkerMessage) {
    && m.WorkerJob? && m.worker in workers && workers[m.worker].None?
    && m.worker in workers' && workers'[m.worker].Some? && workers'[m.worker].value.client in clients
    && IsJob(m, m.worker, clients[workers'[m.worker].value.client], workers'[m.worker].value.group)
  }

  /** Every worker that was free and is not any more has been sent its job, once,
      and nothing else was sent to the workers. */
  ghost predicate AllGiven(workers: map<WorkerId, Option<Job>>, workers': map<WorkerId, Option<Job>>,
                           clients: map<ClientId, ClientData>, from: nat, jobs: seq<WorkerMessage>) {
    && (forall w :: w in workers && w in workers' && workers[w].None? && workers'[w].Some? ==>
         exists i :: from <= i < |jobs| && jobs[i].WorkerJob? && jobs[i].worker == w)
    && (forall i :: from <= i < |jobs| ==> NewJob(workers, workers', clients, jobs[i]))
    && (forall i, j :: from <= i < j < |jobs| && jobs[i].WorkerJob? && jobs[j].WorkerJob? ==> jobs[i].worker != jobs[j].worker)
  }

  lemma NothingGiven(workers: map<WorkerId, Option<Job>>, clients: map<ClientId, ClientData>, jobs: seq<WorkerMessage>)
    ensures AllGiven(workers, workers, clients, |jobs|, jobs)
  {
  }

  lemma OneMoreGiven(workers: map<WorkerId, Option<Job>>,
                     workers1: map<WorkerId, Option<Job>>, clients1: map<ClientId, ClientData>, jobs1: seq<WorkerMessage>,
                     workers2: map<WorkerId, Option<Job>>, clients2: map<ClientId, ClientData>, jobs2: seq<WorkerMessage>,
                     from: nat, w: WorkerId, c: ClientId, g: GroupId)
    requires AllGiven(workers, workers1, clients1, from, jobs1) && SameData(clients1, clients2)
    requires w in workers && workers[w].None? && w in workers1 && workers1[w].None?
    requires workers2 == workers1[w := Some(Job(c, g))] && from <= |jobs1| && jobs1 <= jobs2 && |jobs2| == |jobs1| + 1
    requires c in clients2 && IsJob(jobs2[|jobs1|], w, clients2[c], g)
    ensures AllGiven(workers, workers2, clients2, from, jobs2)
  {
    hide SameData, NewJob, IsJob;
    var m := jobs2[|jobs1|];
    assert m.WorkerJob? && m.worker == w by { JobIsFor(m, w, clients2[c], g); }
    LastIsNew(workers, workers2, clients2, m, w, c, g);
    forall i | from <= i < |jobs1| ensures NewJob(workers, workers2, clients2, jobs2[i]) && jobs2[i].WorkerJob? && jobs2[i].worker != w {
      assert jobs2[i] == jobs1[i];
      StillNew(workers, workers1, clients1, clients2, jobs1[i], w, c, g);
    }
    forall v | v in workers && v in workers2 && workers[v].None? && workers2[v].Some?
      ensures exists i :: from <= i < |jobs2| && jobs2[i].WorkerJob? && jobs2[i].worker == v
    {
      if v != w {
        var i :| from <= i < |jobs1| && jobs1[i].WorkerJob? && jobs1[i].worker == v;
        assert jobs2[i] == jobs1[i];
      }
    }
  }

  lemma GivenIsHanded(workers: map<WorkerId, Option<Job>>, jobs: seq<WorkerMessage>, workers': map<WorkerId, Option<Job>>,
                      clients: map<ClientId, ClientData>, jobs': seq<WorkerMessage>)
    requires WorkersEvolve(workers, workers') && jobs <= jobs' && AllGiven(workers, workers', clients, |jobs|, jobs')
    ensures Handed(workers, jobs, workers', jobs')
  {
    hide Deps;
    forall i | |jobs| <= i < |jobs'| ensures HandedTo(workers, workers', jobs'[i]) {
      assert NewJob(workers, workers', clients, jobs'[i]);
    }
  }

  lemma JobIsFor(m: WorkerMessage, w: WorkerId, d: ClientData, g: GroupId)
    requires IsJob(m, w, d, g)
    ensures m.WorkerJob? && m.worker == w
  {
  }

  lemma LastIsNew(workers: map<WorkerId, Option<Job>>, workers2: map<WorkerId, Option<Job>>, clients: map<ClientId, ClientData>,
                  m: WorkerMessage, w: WorkerId, c: ClientId, g: GroupId)
    requires w in workers && workers[w].None? && w in workers2 && workers2[w] == Some(Job(c, g))
    requires c in clients && IsJob(m, w, clients[c], g)
    ensures NewJob(workers, workers2, clients, m)
  {
    hide Deps;
  }

  lemma StillNew(workers: map<WorkerId, Option<Job>>, workers1: map<WorkerId, Option<Job>>, clients1: map<ClientId, ClientData>,
                 clients2: map<ClientId, ClientData>, m: WorkerMessage, w: WorkerId, c: ClientId, g: GroupId)
    requires NewJob(workers, workers1, clients1, m) && SameData(clients1, clients2) && w in workers1 && workers1[w].None?
    ensures NewJob(workers, workers1[w := Some(Job(c, g))], clients2, m) && m.WorkerJob? && m.worker != w
  {
    hide Deps;
  }

  // The clients who watch the groups that were given to workers were told so.
  ghost predicate AllStarted(workers: map<WorkerId, Option<Job>>, workers': map<WorkerId, Option<Job>>,
                             clients: map<ClientId, ClientData>, from: nat, outbox: seq<Message>) {
    forall w :: w in workers && w in workers' && workers[w].None? && workers'[w].Some? ==>
      StartSaid(clients, workers'[w].value.client, workers'[w].value.group, w, from, outbox)
  }

  ghost predicate StartSaid(clients: map<ClientId, ClientData>, c: ClientId, g: GroupId, w: WorkerId, from: nat,
                            outbox: seq<Message>) {
    c in clients && g in clients[c].callbacks.executions ==>
      exists i :: from <= i < |outbox| && outbox[i] == Message(c, ExecutionStarted(g, w))
  }

  lemma NothingStarted(workers: map<WorkerId, Option<Job>>, clients: map<ClientId, ClientData>, outbox: seq<Message>)
    ensures AllStarted(workers, workers, clients, |outbox|, outbox)
  {
  }

  lemma OneMoreStarted(workers: map<WorkerId, Option<Job>>, workers1: map<WorkerId, Option<Job>>, s1: State, s2: State,
                       from: nat, w: WorkerId, c: ClientId, g: GroupId)
    requires AllStarted(workers, workers1, s1.clients, from, s1.outbox) && from <= |s1.outbox|
    requires SameData(s1.clients, s2.clients)
    requires c in s2.clients
    requires s2.outbox == Say(s1.outbox, g in s2.clients[c].callbacks.executions, Message(c, ExecutionStarted(g, w)))
    ensures AllStarted(workers, workers1[w := Some(Job(c, g))], s2.clients, from, s2.outbox)
  {
    var workers2 := workers1[w := Some(Job(c, g))];
    forall v | v in workers && v in workers2 && workers[v].None? && workers2[v].Some?
      ensures StartSaid(s2.clients, workers2[v].value.client, workers2[v].value.group, v, from, s2.outbox)
    {
      if v == w {
        if g in s2.clients[c].callbacks.executions { assert s2.outbox[|s1.outbox|] == Message(c, ExecutionStarted(g, w)); }
      } else {
        var x, h := workers1[v].value.client, workers1[v].value.group;
        assert StartSaid(s1.clients, x, h, v, from, s1.outbox);
        if x in s1.clients && h in s1.clients[x].callbacks.executions {
          var i :| from <= i < |s1.outbox| && s1.outbox[i] == Message(x, ExecutionStarted(h, v));
          assert s2.outbox[i] == s1.outbox[i];
        }
      }
    }
  }

  lemma EntryOfTop(heap: multiset<ReadyExec>, e: ReadyExec)
    requires IsTop(heap, e)
    ensures e in heap
  {
  }

  // None of the entries that were taken has a lower priority than one that stays.
  ghost predicate TakenFromTop(before: multiset<ReadyExec>, after: multiset<ReadyExec>) {
    forall e, x :: e in before - after && x in after ==>
      x.dagPriority <= e.dagPriority && (x.dagPriority == e.dagPriority ==> x.priority <= e.priority)
  }

  lemma NothingTakenFromTop(heap: multiset<ReadyExec>)
    ensures TakenFromTop(heap, heap)
  {
  }

  lemma TakenAreAbove(a: multiset<ReadyExec>, b: multiset<ReadyExec>, c: multiset<ReadyExec>, e: ReadyExec)
    requires b <= a && IsTop(b, e) && c == b - multiset{e} && TakenFromTop(a, b)
    ensures c <= a && TakenFromTop(a, c)
  {
    forall y, x | y in a - c && x in c
      ensures x.dagPriority <= y.dagPriority && (x.dagPriority == y.dagPriority ==> x.priority <= y.priority)
    {
      assert x in b && NotAbove(x, e);
      if y != e { assert y in a - b; }
    }
  }

  lemma NothingDone(s: State, cached: seq<CachedExec>)
    requires Inv(s)
    ensures Evolves(s, s, JobsUpTo(cached, 0), {})
  {
    hide Inv, Evolves;
    StaysItself(s);
    assert JobsUpTo(cached, 0) == {};
  }

  // What holds while the hits are completed one by one: `s` is the state before
  // they left the queue, `s1` the one after.
  ghost predicate HitsDone(s: State, s1: State, now: State, cached: seq<CachedExec>, i: nat, entries: CacheState,
                           stores: nat -> StoreView, from: nat, to: nat) {
    && i <= |cached| && Evolves(s1, now, JobsUpTo(cached, i), {}) && Steady(s1, now) && AllPending(cached, i, now)
    && Live(now) <= Live(s1) && Sourced(s, now, entries, stores, from, to)
  }

  lemma NoHitDone(s: State, s1: State, cached: seq<CachedExec>, entries: CacheState, stores: nat -> StoreView, from: nat, to: nat)
    requires Inv(s1) && Marked(s, s1, JobsUpTo(cached, |cached|)) && AllPending(cached, 0, s1)
    ensures HitsDone(s, s1, s1, cached, 0, entries, stores, from, to)
  {
    hide Inv, Evolves, Marked, AllPending, Live, Steady, HasOutcome;
    NothingDone(s1, cached);
    StaysItself(s1);
    SteadyOf(s1, s1, {});
    MarkedQuiet(s, s1, JobsUpTo(cached, |cached|));
    NothingSourced(s, s1, entries, stores, from, to);
  }

  lemma MarkedQuiet(s: State, s': State, hits: set<Job>)
    requires Marked(s, s', hits)
    ensures NoneCompleted(s, s')
  {
    hide Owed, ClientEvolves, Steady, HandlesKept;
    forall c, g | HasOutcome(s'.records, c, g) ensures HasOutcome(s.records, c, g) {
      assert StatusesMarked(c, s.records[c], s'.records[c], hits);
    }
  }

  // A hit was completed, from `s` to `s'`.
  ghost predicate HitCompleted(s: State, s': State, x: CachedExec, entries: CacheState, stores: nat -> StoreView,
                               from: nat, to: nat) {
    && Evolves(s, s', {JobOf(x)}, {}) && Inv(WithReport(s, x.client, x.group.uuid, x.report))
    && Proceeds(WithReport(s, x.client, x.group.uuid, x.report), s', entries, stores, from, to)
  }

  // One more of them was completed, which had been found before the first.
  lemma OneMoreDone(s: State, s1: State, s2: State, s3: State, cached: seq<CachedExec>, i: nat, entries: CacheState,
                    stores: nat -> StoreView, from: nat, mid: nat, now: nat, to: nat)
    requires i < |cached| && from <= mid <= now <= to && HitCompleted(s2, s3, cached[i], entries, stores, now, to)
    requires HitsDone(s, s1, s2, cached, i, entries, stores, from, now)
    requires AllPending(cached, 0, s1) && AllFound(entries, s1.clients, cached, stores, from, mid) && Inv(s1) && Inv(s2)
    ensures HitsDone(s, s1, s3, cached, i + 1, entries, stores, from, to)
  {
    hide Evolves, IsPending, Live, Inv, Steady, Sourced, WithReport, FoundWithin;
    var x := cached[i];
    var s2' := WithReport(s2, x.client, x.group.uuid, x.report);
    LiveShrinks(s2, s3, {JobOf(x)}, {});
    EvolvesTransitive(s1, s2, s3, JobsUpTo(cached, i), {}, {JobOf(x)}, {});
    JobsGrow(cached, i);
    var none: set<Job> := {};
    assert none + none == none;
    forall k | i < k < |cached| ensures IsPending(cached[k], s3) { EvolvedPending(s2, s3, cached[k], {JobOf(x)}); }
    assert IsPending(x, s1) && IsPending(x, s2) && FoundWithin(entries, s1.clients, x, stores, from, mid);
    SameDag(s1, s2, JobsUpTo(cached, i), x);
    HitSourced(s1, s2, x, entries, stores, from, mid);
    SteadyAcross(s1, s2, s2', s3, x, JobsUpTo(cached, i));
    HitThenRest(s, s2, s2', s3, x, entries, stores, from, mid, now, to);
  }

  lemma SameDag(s: State, s': State, done: set<Job>, x: CachedExec)
    requires Evolves(s, s', done, {}) && IsPending(x, s)
    ensures x.client in s.clients && x.client in s'.clients && s'.clients[x.client].dag == s.clients[x.client].dag
  {
    hide Evolves, Outs;
    ClientStays(s, s', done, {}, x.client);
  }

  lemma SteadyAcross(s1: State, s2: State, s2': State, s3: State, x: CachedExec, done: set<Job>)
    requires Evolves(s1, s2, done, {}) && Steady(s1, s2) && Steady(s2, s2')
    requires IsPending(x, s2) && s2' == WithReport(s2, x.client, x.group.uuid, x.report) && Evolves(s2', s3, {}, {})
    ensures Steady(s1, s3)
  {
    hide Evolves, Steady, StaysSettled, SettledFile, IsPending, WithReport;
    SettledEvolves(s1, s2, done, {});
    SettledReport(s2, x);
    SteadyOf(s2', s3, {});
    SteadyThen(s2, s2', s3);
    SteadyThen(s1, s2, s3);
  }

  lemma SettledReport(s: State, x: CachedExec)
    requires IsPending(x, s)
    ensures StaysSettled(s, WithReport(s, x.client, x.group.uuid, x.report))
  {
    hide Outs, AllSuccess;
  }

  lemma HitThenRest(s: State, s2: State, s2': State, s3: State, x: CachedExec, entries: CacheState, stores: nat -> StoreView,
                    from: nat, mid: nat, now: nat, to: nat)
    requires Inv(s2) && Inv(s2') && IsPending(x, s2) && s2' == WithReport(s2, x.client, x.group.uuid, x.report)
    requires from <= mid <= now <= to && Steady(s2, s2')
    requires Sourced(s, s2, entries, stores, from, now) && Sourced(s2, s2', entries, stores, from, mid)
    requires Proceeds(s2', s3, entries, stores, now, to)
    ensures Sourced(s, s3, entries, stores, from, to)
  {
    hide Inv, Evolves, Steady, FromCache, HasOutcome, IsPending, WithReport;
    forall c, g | HasOutcome(s2'.records, c, g) && !HasOutcome(s.records, c, g)
      ensures FromCache(entries, s2', c, g, stores, from, now)
    {
      if HasOutcome(s2.records, c, g) {
        FromCacheReported(s2, x, entries, c, g, stores, from, now);
      } else {
        FromCacheLonger(entries, s2', c, g, stores, from, mid, from, now);
      }
    }
    SourcedThen(s, s2', s3, {}, entries, stores, from, now, now, to);
  }

  // Recording a hit does not change where the results of others come from.
  lemma FromCacheReported(s: State, x: CachedExec, entries: CacheState, c: ClientId, g: GroupId, stores: nat -> StoreView,
                          from: nat, to: nat)
    requires Inv(s) && IsPending(x, s) && HasOutcome(s.records, c, g) && FromCache(entries, s, c, g, stores, from, to)
    requires Steady(s, WithReport(s, x.client, x.group.uuid, x.report))
    ensures FromCache(entries, WithReport(s, x.client, x.group.uuid, x.report), c, g, stores, from, to)
  {
    hide Inv, CacheSays, Deps, Outs, AllSuccess, Steady;
    var s' := WithReport(s, x.client, x.group.uuid, x.report);
    InputsSettled(s, c, g);
    InputsSteady(s, s', c, g);
    var group, report := s.clients[c].dag.groups[g], s.records[c].reports[g];
    var t :| from <= t < to && CacheSays(entries, s.clients[c], group, report, stores(t));
    SaysTheSame(entries, s.clients[c], s'.clients[c], group, report, stores(t));
  }

  lemma NothingTaken(s: State)
    requires Inv(s)
    ensures Marked(s, s, JobsUpTo([], 0)) && AllPending([], 0, s) && SameButReady(s.clients, s.clients)
  {
    hide Inv, Marked, IsPending;
    StaysItself(s);
    MarkedRefl(s);
    assert JobsUpTo([], 0) == {};
  }

  lemma JobIsNew(s: State, left: multiset<ReadyExec>, todo: multiset<ReadyExec>, e: ReadyExec, cached: seq<CachedExec>)
    requires Inv(s) && s.heap == left + todo && e in todo && AllPending(cached, 0, s)
    ensures forall x :: x in left ==> Job(x.client, x.group) != Job(e.client, e.group)
    ensures forall i :: 0 <= i < |cached| ==> JobOf(cached[i]) != Job(e.client, e.group)
  {
    hide ClientInvs, Prioritised, Workforce, History, Outcomes, JobsSeen, AllQueued, Is, Outs;
    forall x | x in left ensures Job(x.client, x.group) != Job(e.client, e.group) {
      assert e in s.heap && s.heap[e] == 1;
      assert x in s.heap && x != e;
    }
    assert Is(s.records, e.client, e.group, Ready);
    forall i | 0 <= i < |cached| ensures JobOf(cached[i]) != Job(e.client, e.group) {
      assert IsPending(cached[i], s);
      OneStatus(s.records, e.client, e.group, Ready, Completing);
    }
  }

  lemma OneMoreHit(s: State, s1: State, s2: State, cached: seq<CachedExec>, x: CachedExec)
    requires Inv(s2) && Marked(s, s1, JobsUpTo(cached, |cached|)) && Marked(s1, s2, {JobOf(x)})
    requires AllPending(cached, 0, s1) && IsPending(x, s2)
    requires forall i :: 0 <= i < |cached| ==> JobOf(cached[i]) != JobOf(x)
    ensures Marked(s, s2, JobsUpTo(cached + [x], |cached| + 1)) && AllPending(cached + [x], 0, s2)
  {
    hide Inv, Marked, IsPending;
    JobsGrow(cached + [x], |cached|);
    assert JobsUpTo(cached + [x], |cached|) == JobsUpTo(cached, |cached|) by {
      assert forall i :: 0 <= i < |cached| ==> (cached + [x])[i] == cached[i];
    }
    MarkedGrows(s, s1, s2, JobsUpTo(cached, |cached|), JobOf(x));
    forall i | 0 <= i < |cached| ensures IsPending(cached[i], s2) { MarkedPending(s1, s2, cached[i], JobOf(x)); }
  }

  lemma MarkedPending(s: State, s': State, x: CachedExec, j: Job)
    requires Marked(s, s', {j}) && IsPending(x, s) && JobOf(x) != j
    ensures IsPending(x, s')
  {
    hide Owed, Outs;
    assert ClientEvolves(s.clients[x.client], s.records[x.client], s'.clients[x.client], s'.records[x.client]);
    assert StatusesMarked(x.client, s.records[x.client], s'.records[x.client], {j});
  }

  lemma EvolvedPending(s: State, s': State, x: CachedExec, done: set<Job>)
    requires Evolves(s, s', done, {}) && IsPending(x, s) && JobOf(x) !in done
    ensures IsPending(x, s')
  {
    hide Evolves, Outs, Is;
    ClientStays(s, s', done, {}, x.client);
    PendingStays(s, s', done, {}, x.client, x.group.uuid);
  }

  lemma OneReadyLess(clients: map<ClientId, ClientData>, clients': map<ClientId, ClientData>, c: ClientId, g: GroupId)
    requires SameButReady(clients, clients') && c in clients'
    ensures SameButReady(clients, clients'[c := clients'[c].(ready := clients'[c].ready - {g})])
  {
  }

  lemma HitsShrinkLive(s: State, s': State, cached: seq<CachedExec>)
    requires cached != [] && Marked(s, s', JobsUpTo(cached, |cached|))
    requires AllPending(cached, 0, s')
    ensures Live(s') < Live(s)
  {
    hide Live, Owed, ClientEvolves, Outs;
    assert JobOf(cached[0]) in JobsUpTo(cached, |cached|);
    forall j | j in JobsUpTo(cached, |cached|) ensures Is(s.records, j.client, j.group, Ready) {
      var i :| 0 <= i < |cached| && j == JobOf(cached[i]);
      assert IsPending(cached[i], s');
      assert StatusesMarked(j.client, s.records[j.client], s'.records[j.client], JobsUpTo(cached, |cached|));
    }
    MarkedShrinksLive(s, s', JobsUpTo(cached, |cached|));
  }

  // The readers of all the outputs know.
  lemma AfterPassing(s: State, s1: State, s2: State, c: ClientId, g: GroupId, report: Report, outs: seq<FileId>)
    requires Evolves(s, s1, {Job(c, g)}, {Job(c, g)}) && Evolves(s1, s2, {}, {})
    requires forall x :: OwedBy(s, c, x, {Job(c, g)}) ==> x in outs
    requires forall k :: 0 <= k < |outs| ==> Knows(s2, c, outs[k])
    ensures Evolves(s, s2, {Job(c, g)}, {}) && Live(s2) <= Live(s)
  {
    hide Evolves, OwedBy, Owed, Live, Knows;
    EvolvesThen(s, s1, s2, {Job(c, g)}, {Job(c, g)});
    LiveShrinks(s, s2, {Job(c, g)}, {Job(c, g)});
    AllKnow(s, s2, c, outs, {Job(c, g)});
    Discharge(s, s2, {Job(c, g)}, {Job(c, g)});
  }

  lemma SuccessIsNoError(results: seq<ExecutionResult>)
    ensures AllSuccess(results) ==> !AnyInternalError(results)
  {
  }

  lemma MergedKeys(handles: map<FileId, FileKey>, outputs: map<FileId, FileKey>, files: set<FileId>)
    requires files <= handles.Keys
    ensures files + outputs.Keys <= (handles + outputs).Keys
  {
  }

  lemma AfterResults(s: State, s1: State, c: ClientId, group: ExecutionGroup, report: Report, outs: seq<FileId>)
    requires Inv(s) && Inv(s1) && c in s.clients && c in s.records && Is(s.records, c, group.uuid, Completing)
    requires group.uuid in s.clients[c].dag.groups && s.clients[c].dag.groups[group.uuid] == group
    requires Evolves(s, s1, {Job(c, group.uuid)}, {Job(c, group.uuid)})
    requires s1 == WithReport(s, c, group.uuid, report)
    requires forall x :: x in outs <==> x in Outs(group)
    ensures Evolves(s1, s1, {}, {})
    ensures if AllSuccess(report.results) then AllGood(s1, c, outs) else AllBad(s1, c, outs)
    ensures AllHeld(s1, c, outs)
    ensures forall x :: OwedBy(s, c, x, {Job(c, group.uuid)}) ==> x in outs
    ensures Live(s1) <= Live(s)
  {
    hide Inv, Evolves, Outs, AllSuccess, Live, OwedBy, AllGood, AllBad;
    StaysItself(s1);
    CompletedOutputs(s, c, group.uuid, outs);
    CompletedOutputs(s1, c, group.uuid, outs);
    LiveShrinks(s, s1, {Job(c, group.uuid)}, {Job(c, group.uuid)});
    forall x | x in outs ensures Held(s1.clients[c], s1.records[c], x) { OutputsAre(s, c, group.uuid, x); }
  }

  lemma NowCompleting(records: map<ClientId, Record>, c: ClientId, g: GroupId)
    requires c in records
    ensures Is(Put(records, c, g, Completing), c, g, Completing)
  {
  }

  lemma WorthOf(d: ClientData, r: Record, f: FileId, ok: bool)
    requires (if ok then Good(d, r, f) else Bad(r, f)) && Held(d, r, f)
    ensures (ok ==> f in d.handles) && (CameWith(r, f) ==> f in d.handles)
    ensures f in d.handles ==> forall urgent :: TrueOf(FileReady(f, d.handles[f], ok, urgent), d, r)
  {
  }

  lemma LastSent(outbox: seq<Message>, c: ClientId, f: FileId)
    requires outbox != []
    ensures var m := outbox[|outbox| - 1];
      m.client == c && m.event.FileReady? && m.event.file == f ==> FileSent(outbox, c, f, m.event.successful)
  {
  }

  // What had to be sent was sent before the groups that wait for the file were skipped.
  lemma StillSentBad(s: State, s': State, owing: set<Job>, c: ClientId, f: FileId)
    requires Evolves(s, s', {}, owing) && c in s.clients && c in s.records && Bad(s.records[c], f)
    requires f in s.clients[c].callbacks.files && CameWith(s.records[c], f) ==> FileSent(s.outbox, c, f, false)
    ensures c in s'.clients && c in s'.records
    ensures f in s'.clients[c].callbacks.files && CameWith(s'.records[c], f) ==> FileSent(s'.outbox, c, f, false)
  {
    hide Owed, OwedBy, Steady, HandlesKept;
    assert ClientEvolves(s.clients[c], s.records[c], s'.clients[c], s'.records[c]);
    assert StatusesMove(c, s.records[c], s'.records[c], {});
    assert SameReport(s.records[c], s'.records[c], s.records[c].producer[f]);
    if FileSent(s.outbox, c, f, false) { SentStays(s.outbox, s'.outbox, c, f, false); }
  }

  lemma SentStays(before: seq<Message>, after: seq<Message>, c: ClientId, f: FileId, ok: bool)
    requires before <= after && FileSent(before, c, f, ok)
    ensures FileSent(after, c, f, ok)
  {
    var i :| 0 <= i < |before| && before[i].client == c
      && before[i].event.FileReady? && before[i].event.file == f && before[i].event.successful == ok;
    assert after[i] == before[i];
  }

  lemma SkippedOutputs(s: State, s': State, c: ClientId, g: GroupId)
    requires Inv(s) && Inv(s') && c in s.clients && c in s.records && g in s.clients[c].dag.groups
    requires Is(s.records, c, g, Waiting) && s'.records == Put(s.records, c, g, Skipped) && c in s'.clients
    ensures forall x :: x in Outs(s.clients[c].dag.groups[g]) ==>
      Bad(s'.records[c], x) && Held(s'.clients[c], s'.records[c], x)
    ensures forall x :: OwedBy(s, c, x, {Job(c, g)}) ==> x in Outs(s.clients[c].dag.groups[g])
    ensures Job(c, g) in Live(s) && Job(c, g) !in Live(s')
  {
    hide Inv, Outs;
    forall x ensures x in Outs(s.clients[c].dag.groups[g]) <==> x in s.records[c].producer && s.records[c].producer[x] == g {
      OutputsAre(s, c, g, x);
    }
    forall x | x in Outs(s.clients[c].dag.groups[g]) ensures Held(s'.clients[c], s'.records[c], x) {
      HeldWithoutResults(s', c, x);
    }
  }

  lemma SkipMore(s: State, s1: State, s2: State, c: ClientId, g: GroupId, skipped: set<Job>, f: FileId,
                 failed: seq<FileId>, outs: seq<FileId>)
    requires Quiet(s, s1, skipped) && Quiet(s1, s2, {Job(c, g)}) && c in s.clients && c in s1.clients && c in s1.records
    requires Bad(s1.records[c], f) && AllBad(s1, c, failed) && AllHeld(s1, c, failed)
    requires AllBad(s2, c, outs) && AllHeld(s2, c, outs)
    requires forall x :: OwedBy(s, c, x, skipped) ==> x in failed
    requires forall x :: OwedBy(s1, c, x, {Job(c, g)}) ==> x in outs
    requires forall j :: j in skipped ==> j in Live(s) && j !in Live(s1)
    requires Job(c, g) in Live(s1) && Job(c, g) !in Live(s2)
    ensures Quiet(s, s2, skipped + {Job(c, g)})
    ensures c in s2.clients && c in s2.records && Bad(s2.records[c], f)
    ensures AllBad(s2, c, failed + outs) && AllHeld(s2, c, failed + outs)
    ensures forall x :: OwedBy(s, c, x, skipped + {Job(c, g)}) ==> x in failed + outs
    ensures forall j :: j in skipped + {Job(c, g)} ==> j in Live(s) && j !in Live(s2)
  {
    hide Evolves, Bad, Live, Held, HasOutcome;
    LiveShrinks(s, s1, {}, skipped);
    LiveShrinks(s1, s2, {}, {Job(c, g)});
    ClientStays(s, s1, {}, skipped, c);
    BadStays(s1, s2, {}, {Job(c, g)}, c, f);
    AllBadStays(s1, s2, {}, {Job(c, g)}, c, failed);
    AllHeldStays(s1, s2, {Job(c, g)}, c, failed);
    EvolvesOwing(s, s1, s2, skipped, {Job(c, g)});
  }

  lemma SkippedShrinksLive(s: State, s': State, skipped: set<Job>)
    requires Evolves(s, s', {}, skipped)
    requires forall j :: j in skipped ==> j in Live(s) && j !in Live(s')
    ensures skipped != {} ==> Live(s') < Live(s)
  {
    hide Evolves, Live;
    LiveShrinks(s, s', {}, skipped);
    if skipped != {} {
      var j :| j in skipped;
      assert j in Live(s) && j !in Live(s');
    }
  }

  lemma AfterSkipping(s: State, s1: State, s2: State, s3: State, c: ClientId, failed: seq<FileId>, skipped: set<Job>)
    requires Quiet(s, s1, {}) && Quiet(s1, s2, skipped) && Quiet(s2, s3, {})
    requires AllBad(s2, c, failed) && AllHeld(s2, c, failed) && c in s.clients
    requires forall x :: OwedBy(s1, c, x, skipped) ==> x in failed
    requires failed != [] ==> Live(s2) < Live(s1)
    ensures Quiet(s, s3, skipped) && AllBad(s3, c, failed) && AllHeld(s3, c, failed)
    ensures forall x :: OwedBy(s, c, x, skipped) ==> x in failed
    ensures failed != [] ==> Live(s3) < Live(s)
  {
    hide Evolves, Bad, Live, OwedBy, AllBad, AllHeld, HasOutcome;
    assert {} + skipped == skipped;
    EvolvesOwing(s, s1, s2, {}, skipped);
    EvolvesThen(s, s2, s3, {}, skipped);
    LiveShrinks(s, s1, {}, {});
    LiveShrinks(s2, s3, {}, {});
    forall x | OwedBy(s, c, x, skipped) ensures x in failed { OwedByStays(s, s1, {}, {}, c, x, skipped); }
    AllBadStays(s2, s3, {}, {}, c, failed);
    AllHeldStays(s2, s3, {}, c, failed);
  }

  lemma AllKnow(s: State, s': State, c: ClientId, files: seq<FileId>, owing: set<Job>)
    requires forall j :: j in owing ==> j.client == c
    requires forall x :: OwedBy(s, c, x, owing) ==> x in files
    requires forall k :: 0 <= k < |files| ==> Knows(s', c, files[k])
    ensures forall x, y :: OwedBy(s, x, y, owing) ==> !Owed(s', x, y)
  {
  }

  // ---------------------------------------------------------------- between the steps of a call

  lemma NoFiles(s: State, c: ClientId)
    requires c in s.clients && c in s.records
    ensures AllBad(s, c, []) && AllHeld(s, c, [])
  {
  }

  lemma LiveStays(s: State, s': State, owing: set<Job>)
    requires Evolves(s, s', {}, owing)
    ensures Live(s') <= Live(s) && s.outbox <= s'.outbox
  {
    LiveShrinks(s, s', {}, owing);
    hide Owed, OwedBy, ClientEvolves, Steady, HandlesKept, StatusesMove, WorkersEvolve, Live;
  }

  lemma BadFileAt(s: State, c: ClientId, files: seq<FileId>, i: nat)
    requires AllBad(s, c, files) && AllHeld(s, c, files) && i < |files|
    ensures c in s.clients && c in s.records && Bad(s.records[c], files[i]) && Held(s.clients[c], s.records[c], files[i])
  {
    hide Bad, Held;
    assert files[i] in files;
  }

  lemma GoodFileAt(s: State, c: ClientId, files: seq<FileId>, i: nat)
    requires AllGood(s, c, files) && AllHeld(s, c, files) && i < |files|
    ensures c in s.clients && c in s.records
    ensures Good(s.clients[c], s.records[c], files[i]) && Held(s.clients[c], s.records[c], files[i])
  {
    hide Good, Held;
    assert files[i] in files;
  }

  lemma NoReport(s: State, c: ClientId, g: GroupId, report: Report)
    requires c !in s.clients
    ensures WithReport(s, c, g, report) == s
  {
  }

  lemma FoundToo(entries: CacheState, clients: map<ClientId, ClientData>, clients': map<ClientId, ClientData>,
                 cached: seq<CachedExec>, stores: nat -> StoreView, from: nat, to: nat)
    requires AllFound(entries, clients, cached, stores, from, to) && SameData(clients, clients')
    ensures AllFound(entries, clients', cached, stores, from, to)
  {
    hide Looked;
    forall i | 0 <= i < |cached| ensures FoundWithin(entries, clients', cached[i], stores, from, to) {
      assert FoundWithin(entries, clients, cached[i], stores, from, to);
      var t :| from <= t < to && Found(entries, clients, cached[i], stores(t));
      assert Found(entries, clients', cached[i], stores(t));
    }
  }

  lemma HitAt(s: State, s1: State, s2: State, cached: seq<CachedExec>, i: nat, entries: CacheState,
              stores: nat -> StoreView, from: nat, to: nat)
    requires i < |cached| && HitsDone(s, s1, s2, cached, i, entries, stores, from, to)
    ensures IsPending(cached[i], s2) && AllPending(cached, i, s2) && Evolves(s1, s2, JobsUpTo(cached, i), {})
    ensures Live(s2) <= Live(s1)
  {
    hide IsPending, Evolves, Live, Steady, Sourced;
  }

  lemma AllHitsDone(s: State, s1: State, s2: State, cached: seq<CachedExec>, entries: CacheState,
                    stores: nat -> StoreView, from: nat, to: nat)
    requires Marked(s, s1, JobsUpTo(cached, |cached|)) && HitsDone(s, s1, s2, cached, |cached|, entries, stores, from, to)
    ensures Proceeds(s, s2, entries, stores, from, to)
  {
    hide Marked, Evolves, Live, Steady, Sourced, AllPending;
    MarkedThenDone(s, s1, s2, JobsUpTo(cached, |cached|));
  }

  // ---------------------------------------------------------------- what a message does

  ghost predicate OwnNames(dag: DagData) {
    forall g :: g in dag.groups ==> dag.groups[g].uuid == g
  }

  ghost function WithClient(s: State, c: ClientId, d: ClientData, added: multiset<ReadyExec>): State {
    s.(clients := s.clients[c := d], records := s.records[c := FreshRecord(d.dag)], heap := s.heap + added,
       seen := s.seen + {c})
  }

  function WithHandle(s: State, c: ClientId, f: FileId, key: FileKey): State {
    if c in s.clients then s.(clients := s.clients[c := s.clients[c].(handles := s.clients[c].handles[f := key])]) else s
  }

  // The worker is busy for a client that is there.
  ghost predicate Serves(s: State, w: WorkerId) {
    w in s.workers && s.workers[w].Some? && s.workers[w].value.client in s.clients
  }

  // The worker is gone, and the completion of its job is to be dealt with.
  function WithoutJob(s: State, w: WorkerId): State {
    if w in s.workers && s.workers[w].Some? && s.workers[w].value.client in s.clients && s.workers[w].value.client in s.records then
      var c, g := s.workers[w].value.client, s.workers[w].value.group;
      s.(workers := s.workers - {w},
         clients := s.clients[c := s.clients[c].(running := s.clients[c].running - {g})],
         records := Put(s.records, c, g, Completing))
    else s
  }

  // The client was told about the end of its evaluation, if it is the end.
  ghost predicate EndTold(s: State, c: ClientId) {
    c in s.clients && s.clients[c].IsDone() ==>
      s.outbox != [] && s.outbox[|s.outbox| - 1] == Message(c, EvaluationDone)
  }

  /** The client is there with its tables as they are at the start, and things
      went on from there; an empty DAG is done at once. */
  ghost predicate DagActed(s: State, s': State, c: ClientId, dag: DagData, callbacks: WatchSet, entries: CacheState,
                           stores: nat -> StoreView, from: nat, to: nat) {
    exists d: ClientData, added ::
      && d.dag == dag && d.callbacks == callbacks && FreshClient(d) && Entries(added, c, d)
      && Proceeds(WithClient(s, c, d, added), s', entries, stores, from, to)
      && (dag.groups == map[] ==> SentNext(s.outbox, s'.outbox, Message(c, EvaluationDone)))
  }

  /** The client has the file, its other files are where they were; it was sent
      the file if it watches it, its readers know, and the client was told the
      end if this is it. */
  ghost predicate FileActed(s: State, s': State, c: ClientId, f: FileId, key: FileKey, entries: CacheState,
                            stores: nat -> StoreView, from: nat, to: nat) {
    && c in s.clients && c in s'.clients && s'.clients[c].dag == s.clients[c].dag
    && Proceeds(WithHandle(s, c, f, key), s', entries, stores, from, to)
    && f in s'.clients[c].handles && s'.clients[c].handles[f] == key
    && (forall x :: x in s.clients[c].dag.providedFiles && x != f && x in s.clients[c].handles ==>
         x in s'.clients[c].handles && s'.clients[c].handles[x] == s.clients[c].handles[x])
    && (f in s.clients[c].callbacks.files ==>
         SentNext(s.outbox, s'.outbox, Message(c, FileReady(f, key, true, f in s.clients[c].callbacks.urgentFiles))))
    && Knows(s', c, f) && EndTold(s', c)
  }

  /** The group ended as the results say; the client was told, has the outputs
      that came, and was told the end if this is it. The cache remembers the
      results unless the sandbox failed. */
  ghost predicate ResultActed(s: State, s': State, w: WorkerId, report: Report, before: CacheState, after: CacheState,
                              stores: nat -> StoreView, from: nat, to: nat) {
    && Serves(s, w)
    && var c, g := s.workers[w].value.client, s.workers[w].value.group;
       && c in s.records && c in s'.clients && c in s'.records && g in s.clients[c].dag.groups
       && Proceeds(WithReport(WithoutJob(s, w), c, g, report), s', after, stores, from, to)
       && Is(s'.records, c, g, OutcomeOf(report.results))
       && g in s'.records[c].reports && s'.records[c].reports[g] == report
       && (g in s.clients[c].callbacks.executions ==>
            SentNext(s.outbox, s'.outbox, Message(c, ExecutionDone(g, report.results))))
       && (forall f :: f in report.outputs && f in Outs(s.clients[c].dag.groups[g]) ==>
            f in s'.clients[c].handles && s'.clients[c].handles[f] == report.outputs[f])
       && (if AnyInternalError(report.results) then after == before
           else Remembered(before, after, s.clients[c].dag.groups[g], s.clients[c].handles + report.outputs, report.results))
       && EndTold(s', c)
  }

  /** What each message does; what the environment never sends does nothing. */
  ghost predicate Acted(m: Incoming, s: State, s': State, before: CacheState, after: CacheState, jobs: seq<WorkerMessage>,
                        jobs': seq<WorkerMessage>, stores: nat -> StoreView, from: nat, to: nat) {
    match m
    case EvaluateDag(c, dag, callbacks) =>
      && s'.seen == s.seen + {c} && after == before
      && (if c !in s.seen && OwnNames(dag) && ValidDag(dag, callbacks)
          then DagActed(s, s', c, dag, callbacks, after, stores, from, to) && Handed(s.workers, jobs, s'.workers, jobs')
          else s' == s.(seen := s.seen + {c}) && jobs' == jobs)
    case FileArrived(c, f, key) =>
      && after == before
      && (if c in s.clients && f in s.clients[c].dag.providedFiles
          then FileActed(s, s', c, f, key, after, stores, from, to) && Handed(s.workers, jobs, s'.workers, jobs')
          else s' == s && jobs' == jobs)
    case ResultArrived(w, results, outputs) =>
      if !Plausible(s.workers, s.clients, w, results, outputs) then s' == s && after == before && jobs' == jobs
      else
        && Handed(s.workers - {w}, jobs, s'.workers, jobs')
        && (if Serves(s, w) then ResultActed(s, s', w, Report(results, outputs), before, after, stores, from, to)
            else Quiet(s.(workers := s.workers - {w}), s', {}) && after == before)
    case WorkerConnected(w) =>
      && after == before
      && (if w in s.workers && s.workers[w].Some? then s' == s && jobs' == jobs
          else
            && Quiet(s.(workers := s.workers[w := None]), s', {})
            && jobs <= jobs' && AllGiven(s.workers[w := None], s'.workers, s'.clients, |jobs|, jobs')
            && AllStarted(s.workers[w := None], s'.workers, s'.clients, |s.outbox|, s'.outbox))
    case WorkerDisconnected(w) =>
      && s'.workers == s.workers - {w} && s'.outbox == s.outbox && s'.seen == s.seen && after == before && jobs' == jobs
      && (if Serves(s, w) then
            && Requeued(s.clients, s'.clients, s.heap, s'.heap, s.workers[w].value)
            && s.workers[w].value.client in s.records
            && s'.records == Put(s.records, s.workers[w].value.client, s.workers[w].value.group, Ready)
          else s'.clients == s.clients && s'.heap == s.heap && s'.records == s.records)
    case ClientDisconnected(c) =>
      && s'.clients == s.clients - {c} && s'.records == s.records - {c} && s'.workers == s.workers
      && s'.seen == s.seen && after == before && Purged(s.heap, s'.heap, s'.clients)
      && s'.outbox == Say(s.outbox, c in s.clients && !s.clients[c].IsDone(), Message(c, EvaluationDone))
      && jobs <= jobs' && AllStopped(s.workers, c, jobs', |jobs|)
  }

  // The state in which the message is dealt with: it is known whether it is true.
  function JudgedAs(s: State, s': State): State {
    s.(honest := s'.honest, misled := s'.misled)
  }

  lemma DagIsActed(s: State, s1: State, s2: State, s': State, c: ClientId, d: ClientData, added: multiset<ReadyExec>,
                   entries: CacheState, stores: nat -> StoreView, from: nat, to: nat)
    requires Inv(s1) && Inv(s') && Settled(s1) && (s1 == s || Continues(s, s1)) && Inv(s)
    requires s1 == WithClient(s, c, d, added) && FreshClient(d) && Entries(added, c, d)
    requires s2.outbox == Say(s1.outbox, d.IsDone(), Message(c, EvaluationDone)) && s2.outbox <= s'.outbox
    requires Proceeds(s1, s', entries, stores, from, to)
    ensures DagActed(s, s', c, d.dag, d.callbacks, entries, stores, from, to)
    ensures Continues(s, s') && Settled(s') && s'.honest == s1.honest && s'.misled == s1.misled
    ensures c in s'.clients && s'.clients[c].dag == d.dag && s'.clients[c].callbacks == d.callbacks && s'.seen == s.seen + {c}
  {
    hide Inv, Settled, Continues, Evolves, Sourced, Entries, FreshRecord;
    AfterHandling(s, s1, s', {});
    DagStays(s1, s', c);
    if d.dag.groups == map[] { EmptyIsDone(d); }
    hide FreshClient;
  }

  lemma EmptyIsDone(d: ClientData)
    requires FreshClient(d) && d.dag.groups == map[]
    ensures d.IsDone()
  {
    hide Deps, InputTable;
    assert forall g :: g !in d.missing && g !in d.ready;
    assert d.missing.Keys == {};
  }

  lemma FileIsActed(s: State, s1: State, s2: State, s': State, c: ClientId, f: FileId, key: FileKey,
                    entries: CacheState, stores: nat -> StoreView, from: nat, to: nat)
    requires Inv(s) && Inv(s1) && Inv(s2) && Inv(s') && Settled(s1) && Continues(s, s1)
    requires c in s.clients && c in s2.clients && s1 == WithHandle(s, c, f, key) && f in s.clients[c].dag.providedFiles
    requires Proceeds(s1, s2, entries, stores, from, to) && Quiet(s2, s', {}) && Knows(s2, c, f)
    requires s'.outbox == Say(s2.outbox, c in s2.clients && s2.clients[c].IsDone(), Message(c, EvaluationDone))
    requires s' == s2.(outbox := s'.outbox)
    requires Wanted(s1.clients[c], f) ==> SentNext(s1.outbox, s2.outbox, FileMessage(c, s1.clients[c], f, true))
    ensures FileActed(s, s', c, f, key, entries, stores, from, to)
    ensures Continues(s, s') && Settled(s') && s'.honest == s1.honest && s'.misled == s1.misled
  {
    hide Inv, Settled, Continues, Evolves, Sourced, NoneCompleted;
    ProceedsThenQuiet(s1, s2, s', entries, stores, from, to);
    AfterHandling(s, s1, s', {});
    DagStays(s1, s', c);
    SteadyOf(s1, s', {});
    ProvidedSteady(s1, s', c);
  }

  lemma ProvidedSteady(s: State, s': State, c: ClientId)
    requires Inv(s) && Steady(s, s') && c in s.clients && c in s'.clients
    ensures forall x :: x in s.clients[c].dag.providedFiles && x in s.clients[c].handles ==>
      x in s'.clients[c].handles && s'.clients[c].handles[x] == s.clients[c].handles[x]
  {
    hide Inv, ProducerMap, InputTable, Tables, Sound, Files;
    OneClient(s, c);
    forall x | x in s.clients[c].dag.providedFiles ensures SettledFile(s.records[c], x) { NotProduced(s.clients[c], s.records[c], x); }
  }

  lemma NotProduced(d: ClientData, r: Record, f: FileId)
    requires Static(d.dag, d.inputOf, r.producer) && f in d.dag.providedFiles
    ensures f !in r.producer
  {
    hide InputTable, Outs;
  }

  lemma HandleContinues(s: State, s': State, c: ClientId, f: FileId, key: FileKey)
    requires Inv(s) && s' == WithHandle(s, c, f, key)
    ensures Continues(s, s')
  {
    hide Inv, FinalsKept, ClientEvolves;
    AllSameKeep(s);
    if c in s.clients && c in s.records { MoreHandles(s.clients[c], s.records[c], f, key); }
  }

  lemma MoreHandles(d: ClientData, r: Record, f: FileId, key: FileKey)
    ensures ClientEvolves(d, r, d.(handles := d.handles[f := key]), r)
  {
  }

  lemma ResultIsActed(s: State, s1: State, s': State, w: WorkerId, report: Report, before: CacheState, after: CacheState,
                      stores: nat -> StoreView, from: nat, to: nat)
    requires Inv(s) && Inv(s1) && Inv(s') && Serves(s, w) && s1 == WithoutJob(s, w) && Continues(s, s1)
    requires s.workers[w].value.client in s.records && s.workers[w].value.group in s.clients[s.workers[w].value.client].dag.groups
    requires OnlyPending(s1, {s.workers[w].value}) && Evolves(s1, s', {s.workers[w].value}, {})
    requires Proceeds(WithReport(s1, s.workers[w].value.client, s.workers[w].value.group, report), s', after, stores, from, to)
    requires if AnyInternalError(report.results) then after == before
      else var c := s.workers[w].value.client;
        Remembered(before, after, s.clients[c].dag.groups[s.workers[w].value.group], s.clients[c].handles + report.outputs, report.results)
    requires EndTold(s', s.workers[w].value.client)
    ensures ResultActed(s, s', w, report, before, after, stores, from, to)
    ensures Continues(s, s') && Settled(s') && s'.honest == s.honest && s'.misled == s.misled
    ensures s'.workers.Keys == s.workers.Keys - {w}
  {
    hide Inv, Settled, Continues, Evolves, Sourced, OnlyPending, WithReport, Remembered, Outs, AnyInternalError, EndTold,
         Is, AllSuccess;
    var c, g := s.workers[w].value.client, s.workers[w].value.group;
    AfterHandling(s, s1, s', {Job(c, g)});
    WorkersStay(s1, s', {Job(c, g)});
    ReportedStays(s1, s', c, g, report);
    OutputsStay(s1, s', c, g, report);
  }

  lemma EndIsTold(s: State, s': State, c: ClientId)
    requires s' == s.(outbox := Say(s.outbox, c in s.clients && s.clients[c].IsDone(), Message(c, EvaluationDone)))
    ensures EndTold(s', c)
  {
  }

  lemma ActedOnFile(m: Incoming, s: State, s': State, before: CacheState, after: CacheState, jobs: seq<WorkerMessage>,
                    jobs': seq<WorkerMessage>, stores: nat -> StoreView, from: nat, to: nat)
    requires Acted(m, s, s', before, after, jobs, jobs', stores, from, to)
    ensures m.FileArrived? && m.client in s'.clients && m.file in s'.clients[m.client].dag.providedFiles ==>
      && Knows(s', m.client, m.file)
      && m.file in s'.clients[m.client].handles && s'.clients[m.client].handles[m.file] == m.key
  {
    hide Proceeds, Knows, EndTold, ValidDag, DagActed, ResultActed, Plausible, Quiet, AllGiven, AllStarted, Requeued,
         Purged, AllStopped;
  }

  lemma ActedOnDag(m: Incoming, s: State, s': State, before: CacheState, after: CacheState, jobs: seq<WorkerMessage>,
                   jobs': seq<WorkerMessage>, stores: nat -> StoreView, from: nat, to: nat)
    requires Acted(m, s, s', before, after, jobs, jobs', stores, from, to)
    ensures m.EvaluateDag? && m.client !in s.seen && ValidDag(m.dag, m.callbacks) && OwnNames(m.dag) ==>
      m.client in s'.clients && s'.clients[m.client].dag == m.dag && s'.clients[m.client].callbacks == m.callbacks
  {
    hide ValidDag, FileActed, ResultActed, Plausible, Quiet, AllGiven, AllStarted, Requeued, Purged, AllStopped, Evolves,
         Sourced, FreshClient, Entries, FreshRecord;
    if m.EvaluateDag? && m.client !in s.seen && ValidDag(m.dag, m.callbacks) && OwnNames(m.dag) {
      var d: ClientData, added :| d.dag == m.dag && d.callbacks == m.callbacks && FreshClient(d) && Entries(added, m.client, d)
        && Proceeds(WithClient(s, m.client, d, added), s', after, stores, from, to)
        && (m.dag.groups == map[] ==> SentNext(s.outbox, s'.outbox, Message(m.client, EvaluationDone)));
      DagStays(WithClient(s, m.client, d, added), s', m.client);
    }
  }

  // A message that is no good-bye makes nobody leave; uuids are taken when a DAG is sent.
  lemma ActedIsSeen(m: Incoming, s: State, s': State, before: CacheState, after: CacheState, jobs: seq<WorkerMessage>,
                    jobs': seq<WorkerMessage>, stores: nat -> StoreView, from: nat, to: nat)
    requires Acted(m, s, s', before, after, jobs, jobs', stores, from, to) && s.clients.Keys == s.records.Keys
    ensures s'.seen == if m.EvaluateDag? then s.seen + {m.client} else s.seen
    ensures forall c :: c in s.clients && m != ClientDisconnected(c) ==> c in s'.clients
  {
    hide ValidDag, Plausible, AllGiven, AllStarted, Purged, AllStopped, Evolves, Sourced, FreshClient, Entries, FreshRecord,
         NoneCompleted, Knows, EndTold, Remembered, Outs, Is, AnyInternalError, WithReport;
    match m
    case EvaluateDag(c, dag, callbacks) =>
      if c !in s.seen && OwnNames(dag) && ValidDag(dag, callbacks) {
        var d: ClientData, added :| d.dag == dag && d.callbacks == callbacks && FreshClient(d) && Entries(added, c, d)
          && Proceeds(WithClient(s, c, d, added), s', after, stores, from, to)
          && (dag.groups == map[] ==> SentNext(s.outbox, s'.outbox, Message(c, EvaluationDone)));
        SameClients(WithClient(s, c, d, added), s');
      }
    case FileArrived(c, f, key) =>
      if c in s.clients && f in s.clients[c].dag.providedFiles { SameClients(WithHandle(s, c, f, key), s'); }
    case ResultArrived(w, results, outputs) =>
      if Plausible(s.workers, s.clients, w, results, outputs) {
        if Serves(s, w) {
          var c, g := s.workers[w].value.client, s.workers[w].value.group;
          ReportClients(WithoutJob(s, w), c, g, Report(results, outputs));
          SameClients(WithReport(WithoutJob(s, w), c, g, Report(results, outputs)), s');
        } else {
          SameClients(s.(workers := s.workers - {w}), s');
        }
      }
    case WorkerConnected(w) =>
      if !(w in s.workers && s.workers[w].Some?) { SameClients(s.(workers := s.workers[w := None]), s'); }
    case WorkerDisconnected(w) =>
    case ClientDisconnected(c) =>
  }

  lemma SameClients(s: State, s': State)
    requires Evolves(s, s', {}, {})
    ensures s'.clients.Keys == s.clients.Keys && s'.seen == s.seen
  {
    hide Owed, OwedBy, ClientEvolves, Steady, HandlesKept, StatusesMove, WorkersEvolve;
  }

  lemma ReportClients(s: State, c: ClientId, g: GroupId, report: Report)
    ensures WithReport(s, c, g, report).clients.Keys == s.clients.Keys && WithReport(s, c, g, report).seen == s.seen
  {
    hide AllSuccess;
  }

  // ---------------------------------------------------------------- stopping jobs

  // The workers of `done` that are busy for the client were told to stop, once each, and nothing else was sent.
  ghost predicate StoppedSoFar(workers: map<WorkerId, Option<Job>>, done: set<WorkerId>, c: ClientId,
                               jobs: seq<WorkerMessage>, from: nat) {
    && (forall w :: w in done && w in workers && workers[w].Some? && workers[w].value.client == c ==>
         Stopped(jobs, from, w, workers[w].value.group))
    && (forall i :: from <= i < |jobs| ==> IsStop(jobs[i], workers, c) && jobs[i].worker in done)
    && (forall i, j :: from <= i < j < |jobs| ==> jobs[i].worker != jobs[j].worker)
  }

  ghost predicate AllStopped(workers: map<WorkerId, Option<Job>>, c: ClientId, jobs: seq<WorkerMessage>, from: nat) {
    StoppedSoFar(workers, workers.Keys, c, jobs, from)
  }

  lemma OneMoreStopped(workers: map<WorkerId, Option<Job>>, done: set<WorkerId>, c: ClientId, before: seq<WorkerMessage>,
                       jobs: seq<WorkerMessage>, from: nat, w: WorkerId)
    requires StoppedSoFar(workers, done, c, before, from) && w in workers && w !in done && from <= |before|
    requires jobs == if workers[w].Some? && workers[w].value.client == c
      then before + [StopWorkerJob(w, workers[w].value.group)] else before
    ensures StoppedSoFar(workers, done + {w}, c, jobs, from)
  {
    if jobs != before { StopSaid(before, jobs, from); }
  }

  // ---------------------------------------------------------------- who is there

  // The `i`th message is the first to use the uuid, and asks for a DAG that is fine.
  ghost predicate Asks(messages: seq<Incoming>, i: nat, c: ClientId, seen: set<ClientId>) {
    && i < |messages| && messages[i].EvaluateDag? && messages[i].client == c && c !in seen && !Evaluated(messages, i, c)
    && OwnNames(messages[i].dag) && ValidDag(messages[i].dag, messages[i].callbacks)
  }

  ghost predicate Leaves(messages: seq<Incoming>, from: nat, to: nat, c: ClientId) {
    exists k :: from <= k < to <= |messages| && messages[k] == ClientDisconnected(c)
  }

  /** After the first `n` messages, whoever has asked for the evaluation of a DAG,
      and did not leave since, is there with it. */
  ghost predicate Registering(messages: seq<Incoming>, n: nat, seen: set<ClientId>, s: State) {
    && (forall c :: c in s.seen <==> c in seen || Evaluated(messages, n, c))
    && forall i: nat, c :: i < n && Asks(messages, i, c, seen) && !Leaves(messages, i, n, c) ==>
      c in s.clients && s.clients[c].dag == messages[i].dag && s.clients[c].callbacks == messages[i].callbacks
  }

  lemma NothingRegistered(messages: seq<Incoming>, s: State)
    ensures Registering(messages, 0, s.seen, s)
  {
  }

  lemma OneMoreRegistered(messages: seq<Incoming>, n: nat, seen: set<ClientId>, s: State, s': State, before: CacheState,
                          after: CacheState, jobs: seq<WorkerMessage>, jobs': seq<WorkerMessage>, stores: nat -> StoreView,
                          from: nat, to: nat)
    requires n < |messages| && Inv(s) && Inv(s') && Continues(s, s') && Registering(messages, n, seen, s)
    requires Acted(messages[n], JudgedAs(s, s'), s', before, after, jobs, jobs', stores, from, to)
    ensures Registering(messages, n + 1, seen, s')
  {
    hide Inv, Continues, Acted, ValidDag, Evaluated, OwnNames;
    var m := messages[n];
    KeysOfState(s);
    ActedIsSeen(m, JudgedAs(s, s'), s', before, after, jobs, jobs', stores, from, to);
    ActedOnDag(m, JudgedAs(s, s'), s', before, after, jobs, jobs', stores, from, to);
    forall c ensures c in s'.seen <==> c in seen || Evaluated(messages, n + 1, c) { EvaluatedNow(messages, n, c); }
    forall i: nat, c | i < n + 1 && Asks(messages, i, c, seen) && !Leaves(messages, i, n + 1, c)
      ensures c in s'.clients && s'.clients[c].dag == messages[i].dag && s'.clients[c].callbacks == messages[i].callbacks
    {
      if i < n {
        StaysToday(messages, i, n, c);
        DagContinues(s, s', c);
      }
    }
  }

  lemma KeysOfState(s: State)
    requires Inv(s)
    ensures s.clients.Keys == s.records.Keys
  {
    hide ClientInvs, Queue, Prioritised, Workforce, Outcomes, History, JobsSeen;
  }

  lemma EvaluatedNow(messages: seq<Incoming>, n: nat, c: ClientId)
    requires n < |messages|
    ensures Evaluated(messages, n + 1, c) <==> Evaluated(messages, n, c) || (messages[n].EvaluateDag? && messages[n].client == c)
  {
  }

  lemma StaysToday(messages: seq<Incoming>, i: nat, n: nat, c: ClientId)
    requires i < n < |messages| && !Leaves(messages, i, n + 1, c)
    ensures !Leaves(messages, i, n, c) && messages[n] != ClientDisconnected(c)
  {
  }

  lemma DagContinues(s: State, s': State, c: ClientId)
    requires Inv(s) && Inv(s') && Continues(s, s') && c in s.clients && c in s'.clients
    ensures s'.clients[c].dag == s.clients[c].dag && s'.clients[c].callbacks == s.clients[c].callbacks
  {
    hide Inv, FinalsKept;
    OneClient(s, c);
    OneClient(s', c);
    assert ClientEvolves(s.clients[c], s.records[c], s'.clients[c], s'.records[c]);
  }
}
