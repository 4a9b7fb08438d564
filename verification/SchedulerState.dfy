/** The state of the scheduler as a value, what holds of it inside and between
    the handlers, and the small steps the handlers are made of.
    Source: task-maker-exec/src/scheduler.rs. */
module SchedulerState {
  import opened Dag

  datatype ClientData = ClientData(
    dag: DagData,
    callbacks: WatchSet,
    inputOf: map<FileId, set<GroupId>>,
    ready: set<GroupId>,
    running: set<GroupId>,
    missing: map<GroupId, set<FileId>>,
    handles: map<FileId, FileKey>)
  {
    predicate IsDone() {
      ready == {} && running == {} && missing == map[]
    }
  }

  datatype ReadyExec = ReadyExec(dagPriority: int, priority: int, group: GroupId, client: ClientId)

  datatype Job = Job(client: ClientId, group: GroupId)

  datatype Event =
    | ExecutionStarted(group: GroupId, worker: WorkerId)
    | ExecutionDone(group: GroupId, results: seq<ExecutionResult>)
    | ExecutionSkipped(group: GroupId)
    | FileReady(file: FileId, key: FileKey, successful: bool, urgent: bool)
    | EvaluationDone

  datatype Message = Message(client: ClientId, event: Event)

  datatype WorkerMessage =
    | WorkerJob(worker: WorkerId, group: ExecutionGroup, depKeys: map<FileId, FileKey>)
    | StopWorkerJob(worker: WorkerId, job: GroupId)

  // Where a group is in its life. `Completing` exists only inside a handler:
  // the group has results, and its outputs have not been dealt with yet.
  datatype Status = Waiting | Ready | Running | Completing | Succeeded | Failed | Skipped
  {
    predicate Final() { Succeeded? || Failed? || Skipped? }
    predicate Live() { Waiting? || Ready? }
  }

  // What a group was completed with.
  datatype Report = Report(results: seq<ExecutionResult>, outputs: map<FileId, FileKey>)

  // What the proof remembers about one client: the status of every group, who
  // produces each file, which files were already announced to their readers,
  // and what the groups were completed with.
  datatype Record = Record(
    status: map<GroupId, Status>,
    producer: map<FileId, GroupId>,
    announced: map<FileId, bool>,
    reports: map<GroupId, Report>)

  datatype State = State(
    clients: map<ClientId, ClientData>,
    heap: multiset<ReadyExec>,
    workers: map<WorkerId, Option<Job>>,
    outbox: seq<Message>,
    records: map<ClientId, Record>,
    seen: set<ClientId>,
    // Nothing false that the cache remembers was received so far; something
    // false was received that concerns these clients only.
    honest: bool,
    misled: set<ClientId>)
  {
    predicate Trusts(c: ClientId) {
      honest && c !in misled
    }
  }

  // ---------------------------------------------------------------- one client

  ghost predicate ProducerMap(dag: DagData, producer: map<FileId, GroupId>) {
    && (forall g, f :: g in dag.groups && f in Outs(dag.groups[g]) ==> f in producer && producer[f] == g)
    && (forall f :: f in producer ==> producer[f] in dag.groups && f in Outs(dag.groups[producer[f]]))
    && producer.Keys !! dag.providedFiles
  }

  ghost predicate InputTable(dag: DagData, inputOf: map<FileId, set<GroupId>>) {
    forall f, g :: f in inputOf && g in inputOf[f] <==> g in dag.groups && f in Deps(dag.groups[g])
  }

  ghost predicate Static(dag: DagData, inputOf: map<FileId, set<GroupId>>, producer: map<FileId, GroupId>) {
    && (forall g :: g in dag.groups ==> dag.groups[g].uuid == g)
    && ProducerMap(dag, producer)
    && InputTable(dag, inputOf)
  }

  // The file is there and every group that reads it may use it.
  ghost predicate Good(d: ClientData, r: Record, f: FileId) {
    && f in d.handles
    && if f in r.producer then r.producer[f] in r.status && r.status[r.producer[f]] == Succeeded
       else f in d.dag.providedFiles
  }

  // The file will never be there.
  ghost predicate Bad(r: Record, f: FileId) {
    f in r.producer && r.producer[f] in r.status
    && (r.status[r.producer[f]] == Failed || r.status[r.producer[f]] == Skipped)
  }

  // The sets of the client say what the status of each group is.
  ghost predicate Tables(d: ClientData, r: Record) {
    && r.status.Keys == d.dag.groups.Keys
    && (forall g :: g in d.missing <==> g in r.status && r.status[g] == Waiting)
    && (forall g :: g in d.ready <==> g in r.status && r.status[g] == Ready)
    && (forall g :: g in d.running <==> g in r.status && r.status[g] == Running)
  }

  // A waiting group misses some dependency, and only ones not announced yet.
  ghost predicate WaitingGroup(d: ClientData, r: Record, g: GroupId)
    requires g in d.missing && g in d.dag.groups
  {
    && d.missing[g] != {}
    && d.missing[g] <= Deps(d.dag.groups[g])
    && (forall f :: f in d.missing[g] ==> f !in r.announced)
    && (forall f :: f in Deps(d.dag.groups[g]) && f !in d.missing[g] ==> Good(d, r, f))
  }

  ghost predicate HasBadInput(d: ClientData, r: Record, g: GroupId)
    requires g in d.dag.groups
  {
    exists f :: f in Deps(d.dag.groups[g]) && Bad(r, f)
  }

  ghost predicate HasInputs(d: ClientData, r: Record, g: GroupId)
    requires g in d.dag.groups
  {
    forall f :: f in Deps(d.dag.groups[g]) ==> Good(d, r, f)
  }

  // Each group has the status its inputs call for.
  ghost predicate Sound(d: ClientData, r: Record)
    requires r.status.Keys == d.dag.groups.Keys
  {
    && (forall g :: g in d.missing && g in d.dag.groups ==> WaitingGroup(d, r, g))
    && (forall g :: g in r.status && r.status[g] != Waiting && r.status[g] != Skipped ==> HasInputs(d, r, g))
    && (forall g :: g in r.status && r.status[g] == Skipped ==> HasBadInput(d, r, g))
  }

  ghost predicate Files(d: ClientData, r: Record) {
    && (forall f :: f in r.announced ==> if r.announced[f] then Good(d, r, f) else Bad(r, f))
    && (forall f :: f in r.producer && r.producer[f] in r.status && r.status[r.producer[f]] == Succeeded ==> f in d.handles)
  }

  ghost predicate ClientInv(d: ClientData, r: Record) {
    && Static(d.dag, d.inputOf, r.producer)
    && Tables(d, r)
    && Sound(d, r)
    && Files(d, r)
  }

  // ---------------------------------------------------------------- local steps

  function SetStatus(r: Record, g: GroupId, status: Status): Record {
    r.(status := r.status[g := status])
  }

  // What a file is worth to its readers can only improve (or worsen) for good.
  ghost predicate Settles(d: ClientData, r: Record, d': ClientData, r': Record) {
    && (forall f :: Good(d, r, f) ==> Good(d', r', f))
    && (forall f :: Bad(r, f) ==> Bad(r', f))
  }

  lemma SoundSettles(d: ClientData, r: Record, d': ClientData, r': Record, g: GroupId)
    requires r.status.Keys == d.dag.groups.Keys && Sound(d, r) && Settles(d, r, d', r')
    requires d'.dag == d.dag && r'.announced == r.announced && r'.status.Keys == r.status.Keys
    requires g in r.status && forall h :: h in r.status && h != g ==> r'.status[h] == r.status[h]
    requires forall h :: h in d'.missing && h != g ==> h in d.missing && d'.missing[h] == d.missing[h]
    requires g in d'.missing ==> WaitingGroup(d', r', g)
    requires r'.status[g] != Waiting ==> if r'.status[g] == Skipped then HasBadInput(d, r, g) else HasInputs(d, r, g)
    ensures Sound(d', r')
  {
    hide Deps, Good, Bad;
    forall h | h in d'.missing && h in d'.dag.groups ensures WaitingGroup(d', r', h) {
      if h != g { assert WaitingGroup(d, r, h); }
    }
    forall h | h in r'.status && r'.status[h] != Waiting && r'.status[h] != Skipped ensures HasInputs(d', r', h) {
      assert HasInputs(d, r, h);
    }
    forall h | h in r'.status && r'.status[h] == Skipped ensures HasBadInput(d', r', h) {
      assert HasBadInput(d, r, h);
      var f :| f in Deps(d.dag.groups[h]) && Bad(r, f);
      assert Bad(r', f);
    }
  }

  lemma FilesSettle(d: ClientData, r: Record, d': ClientData, r': Record, g: GroupId)
    requires Files(d, r) && Settles(d, r, d', r') && d'.handles.Keys >= d.handles.Keys
    requires r'.announced == r.announced && r'.producer == r.producer
    requires r'.status.Keys == r.status.Keys && forall h :: h in r.status && h != g ==> r'.status[h] == r.status[h]
    requires g in r'.status && r'.status[g] == Succeeded ==>
      forall f :: f in r.producer && r.producer[f] == g ==> f in d'.handles
    ensures Files(d', r')
  {
    hide Good, Bad;
  }

  // Any change of status of a group that does not undo an outcome settles files.
  lemma StatusSettles(d: ClientData, r: Record, d': ClientData, g: GroupId, status: Status)
    requires g in r.status && !r.status[g].Final()
    requires d'.dag == d.dag && d'.handles == d.handles
    ensures Settles(d, r, d', SetStatus(r, g, status))
  {
  }

  /** A group changes status; success needs its outputs to be there. */
  lemma LocalStatusChange(d: ClientData, r: Record, d': ClientData, g: GroupId, status: Status)
    requires ClientInv(d, r) && g in r.status && !r.status[g].Final() && status != Waiting
    requires d' == d.(missing := d'.missing, ready := d'.ready, running := d'.running)
    requires d'.missing == d.missing - {g}
    requires d'.ready == if status == Ready then d.ready + {g} else d.ready - {g}
    requires d'.running == if status == Running then d.running + {g} else d.running - {g}
    requires if status == Skipped then HasBadInput(d, r, g) else HasInputs(d, r, g)
    requires status == Succeeded ==> forall f :: f in r.producer && r.producer[f] == g ==> f in d.handles
    ensures ClientInv(d', SetStatus(r, g, status))
  {
    hide Static, Deps, Outs, Settles, WaitingGroup, HasInputs, HasBadInput, Good, Bad;
    var r' := SetStatus(r, g, status);
    StatusSettles(d, r, d', g, status);
    assert Tables(d', r');
    SoundSettles(d, r, d', r', g);
    FilesSettle(d, r, d', r', g);
  }

  /** A dependency of a waiting group is there, others are still missing. */
  lemma LocalMeet(d: ClientData, r: Record, g: GroupId, f: FileId)
    requires ClientInv(d, r) && g in d.missing && Good(d, r, f)
    requires d.missing[g] != {f}
    ensures ClientInv(d.(missing := d.missing[g := d.missing[g] - {f}]), r)
  {
    hide Static, Deps, Outs, Settles, Good, Bad, WaitingGroup, HasInputs, HasBadInput;
    var d' := d.(missing := d.missing[g := d.missing[g] - {f}]);
    assert Tables(d', r);
    SameFiles(d, d', r);
    StillWaiting(d, r, g, f);
    SoundSettles(d, r, d', r, g);
  }

  lemma StillWaiting(d: ClientData, r: Record, g: GroupId, f: FileId)
    requires g in d.missing && g in d.dag.groups && WaitingGroup(d, r, g) && Good(d, r, f) && d.missing[g] != {f}
    ensures WaitingGroup(d.(missing := d.missing[g := d.missing[g] - {f}]), r, g)
  {
    hide Deps;
    var d' := d.(missing := d.missing[g := d.missing[g] - {f}]);
    var missing := d.missing[g];
    assert missing <= {f} ==> missing == {f};
    assert missing - {f} == {} ==> missing <= {f};
  }

  // The tables of the client say nothing about its files.
  lemma SameFiles(d: ClientData, d': ClientData, r: Record)
    requires d'.dag == d.dag && d'.handles == d.handles && Files(d, r)
    ensures Settles(d, r, d', r) && Files(d', r)
  {
  }

  /** New handles. */
  lemma LocalHandles(d: ClientData, r: Record, handles: map<FileId, FileKey>)
    requires ClientInv(d, r) && d.handles.Keys <= handles.Keys
    ensures ClientInv(d.(handles := handles), r)
  {
    hide Static, Deps, Outs;
    var d' := d.(handles := handles);
    assert Tables(d', r);
    assert Settles(d, r, d', r);
    hide Good, Bad;
    forall h | h in d'.missing && h in d'.dag.groups ensures WaitingGroup(d', r, h) { assert WaitingGroup(d, r, h); }
    forall h | h in r.status && r.status[h] == Skipped ensures HasBadInput(d', r, h) { assert HasBadInput(d, r, h); }
    assert Sound(d', r);
  }

  function Announced(r: Record, f: FileId, ok: bool): Record {
    r.(announced := r.announced[f := ok])
  }

  /** All the groups waiting for a file have been dealt with. */
  lemma LocalAnnounce(d: ClientData, r: Record, f: FileId, ok: bool)
    requires ClientInv(d, r) && if ok then Good(d, r, f) else Bad(r, f)
    requires forall g :: g in d.missing ==> f !in d.missing[g]
    ensures ClientInv(d, Announced(r, f, ok))
  {
    hide Static, Deps, Outs, Good, Bad, WaitingGroup, HasInputs, HasBadInput;
    var r' := Announced(r, f, ok);
    assert Tables(d, r');
    SameWorth(d, r, r');
    forall h | h in d.missing && h in d.dag.groups ensures WaitingGroup(d, r', h) { WaitsForOthers(d, r, h, f, ok); }
    forall h | h in r.status && h in d.dag.groups ensures HasInputs(d, r', h) == HasInputs(d, r, h) { SameInputs(d, r, r', h); }
    forall h | h in r.status && h in d.dag.groups ensures HasBadInput(d, r', h) == HasBadInput(d, r, h) { SameInputs(d, r, r', h); }
  }

  // Files and inputs do not depend on what was announced.
  lemma SameWorth(d: ClientData, r: Record, r': Record)
    requires r'.status == r.status && r'.producer == r.producer
    ensures forall f :: (Good(d, r', f) <==> Good(d, r, f)) && (Bad(r', f) <==> Bad(r, f))
  {
  }

  lemma SameInputs(d: ClientData, r: Record, r': Record, g: GroupId)
    requires r'.status == r.status && r'.producer == r.producer && g in d.dag.groups
    ensures HasInputs(d, r', g) == HasInputs(d, r, g) && HasBadInput(d, r', g) == HasBadInput(d, r, g)
  {
    hide Good, Bad, Deps;
    SameWorth(d, r, r');
  }

  lemma WaitsForOthers(d: ClientData, r: Record, g: GroupId, f: FileId, ok: bool)
    requires g in d.missing && g in d.dag.groups && WaitingGroup(d, r, g) && f !in d.missing[g]
    ensures WaitingGroup(d, Announced(r, f, ok), g)
  {
    hide Good, Bad, Deps;
    SameWorth(d, r, Announced(r, f, ok));
  }

  // ---------------------------------------------------------------- all the clients

  ghost predicate Is(records: map<ClientId, Record>, c: ClientId, g: GroupId, status: Status) {
    c in records && g in records[c].status && records[c].status[g] == status
  }

  function Put(records: map<ClientId, Record>, c: ClientId, g: GroupId, status: Status): map<ClientId, Record>
    requires c in records
  {
    records[c := SetStatus(records[c], g, status)]
  }

  // A completed group succeeded or failed as the results it completed with say.
  ghost predicate Outcomes(records: map<ClientId, Record>) {
    forall c, g :: Is(records, c, g, Succeeded) || Is(records, c, g, Failed) ==>
      g in records[c].reports && (Is(records, c, g, Succeeded) <==> AllSuccess(records[c].reports[g].results))
  }

  // The priority queue has an entry for the group.
  ghost predicate Queued(heap: multiset<ReadyExec>, c: ClientId, g: GroupId) {
    exists e :: e in heap && e.client == c && e.group == g
  }

  ghost predicate Entitled(heap: multiset<ReadyExec>, records: map<ClientId, Record>) {
    forall e :: e in heap ==> heap[e] == 1 && Is(records, e.client, e.group, Ready)
  }

  ghost predicate OnePerGroup(heap: multiset<ReadyExec>) {
    forall e1, e2 :: e1 in heap && e2 in heap && e1.client == e2.client && e1.group == e2.group ==> e1 == e2
  }

  ghost predicate AllQueued(heap: multiset<ReadyExec>, records: map<ClientId, Record>) {
    forall c, g :: Is(records, c, g, Ready) ==> Queued(heap, c, g)
  }

  /** The entries of the queue and the ready groups match one to one, and none
      belongs to a client that is not there. */
  ghost predicate Queue(heap: multiset<ReadyExec>, records: map<ClientId, Record>) {
    Entitled(heap, records) && OnePerGroup(heap) && AllQueued(heap, records)
  }

  ghost predicate Prioritised(heap: multiset<ReadyExec>, clients: map<ClientId, ClientData>) {
    forall e :: e in heap && e.client in clients && e.group in clients[e.client].dag.groups ==>
      && e.priority == clients[e.client].dag.groups[e.group].priority
      && (e.dagPriority == HIGH_PRIORITY || e.dagPriority == clients[e.client].dag.config.priority)
  }

  // Some worker is doing the job.
  ghost predicate Assigned(workers: map<WorkerId, Option<Job>>, c: ClientId, g: GroupId) {
    exists w :: w in workers && workers[w] == Some(Job(c, g))
  }

  ghost predicate SharedJob(a: Option<Job>, b: Option<Job>, records: map<ClientId, Record>) {
    a.Some? && a == b && a.value.client in records
  }

  /** The jobs of the workers and the running groups match one to one; only a
      client that left may have jobs still being worked on. */
  ghost predicate Workforce(workers: map<WorkerId, Option<Job>>, records: map<ClientId, Record>) {
    && (forall w :: w in workers && workers[w].Some? && workers[w].value.client in records ==>
         Is(records, workers[w].value.client, workers[w].value.group, Running))
    && (forall v, w :: v in workers && w in workers && SharedJob(workers[v], workers[w], records) ==> v == w)
    && (forall c, g :: Is(records, c, g, Running) ==> Assigned(workers, c, g))
  }

  lemma PutIs(records: map<ClientId, Record>, c: ClientId, g: GroupId, status: Status)
    requires c in records && g in records[c].status
    ensures forall c', g', x :: Is(Put(records, c, g, status), c', g', x) <==>
      if c' == c && g' == g then x == status else Is(records, c', g', x)
    ensures Put(records, c, g, status).Keys == records.Keys
  {
  }

  lemma OutcomesUnrelated(records: map<ClientId, Record>, c: ClientId, g: GroupId, status: Status)
    requires Outcomes(records) && c in records && g in records[c].status
    requires status != Succeeded && status != Failed
    ensures Outcomes(Put(records, c, g, status))
  {
    hide AllSuccess;
  }

  lemma OutcomesComplete(records: map<ClientId, Record>, c: ClientId, g: GroupId)
    requires Outcomes(records) && c in records && g in records[c].status && g in records[c].reports
    ensures Outcomes(Put(records, c, g, if AllSuccess(records[c].reports[g].results) then Succeeded else Failed))
  {
    hide AllSuccess;
  }

  lemma QueueUnrelated(heap: multiset<ReadyExec>, records: map<ClientId, Record>, c: ClientId, g: GroupId,
                       status: Status)
    requires Queue(heap, records) && c in records && g in records[c].status
    requires records[c].status[g] != Ready && status != Ready
    ensures Queue(heap, Put(records, c, g, status))
  {
    hide Put;
    PutIs(records, c, g, status);
  }

  lemma QueuePush(heap: multiset<ReadyExec>, records: map<ClientId, Record>, c: ClientId, g: GroupId, e: ReadyExec)
    requires Queue(heap, records) && c in records && g in records[c].status
    requires records[c].status[g] != Ready && e.client == c && e.group == g
    ensures Queue(heap + multiset{e}, Put(records, c, g, Ready))
  {
    hide Put, Queued;
    PutIs(records, c, g, Ready);
    NotQueued(heap, records, e);
    forall c', g' | Is(Put(records, c, g, Ready), c', g', Ready) ensures Queued(heap + multiset{e}, c', g') {
      StillQueued(heap, e, c', g');
    }
  }

  lemma NotQueued(heap: multiset<ReadyExec>, records: map<ClientId, Record>, e: ReadyExec)
    requires Entitled(heap, records) && !Is(records, e.client, e.group, Ready)
    ensures forall x :: x in heap ==> x.client != e.client || x.group != e.group
  {
    hide Is;
    forall x | x in heap ensures x.client != e.client || x.group != e.group { assert Is(records, x.client, x.group, Ready); }
  }

  lemma StillQueued(heap: multiset<ReadyExec>, e: ReadyExec, c: ClientId, g: GroupId)
    ensures Queued(heap, c, g) || (c == e.client && g == e.group) ==> Queued(heap + multiset{e}, c, g)
  {
    if c == e.client && g == e.group {
      assert e in heap + multiset{e};
    } else if Queued(heap, c, g) {
      var x :| x in heap && x.client == c && x.group == g;
      assert x in heap + multiset{e};
    }
  }

  lemma QueuePop(heap: multiset<ReadyExec>, records: map<ClientId, Record>, e: ReadyExec, status: Status)
    requires Queue(heap, records) && e in heap && status != Ready
    ensures e.client in records && e.group in records[e.client].status
    ensures Queue(heap - multiset{e}, Put(records, e.client, e.group, status))
  {
    hide Put;
    assert Is(records, e.client, e.group, Ready);
    PutIs(records, e.client, e.group, status);
    var heap', records' := heap - multiset{e}, Put(records, e.client, e.group, status);
    assert e !in heap' && forall x :: x in heap' <==> x in heap && x != e;
    forall c', g' | Is(records', c', g', Ready) ensures Queued(heap', c', g') {
      assert Queued(heap, c', g');
      var x :| x in heap && x.client == c' && x.group == g';
      assert x in heap';
    }
  }

  lemma WorkforceUnrelated(workers: map<WorkerId, Option<Job>>, records: map<ClientId, Record>, c: ClientId,
                           g: GroupId, status: Status)
    requires Workforce(workers, records) && c in records && g in records[c].status
    requires records[c].status[g] != Running && status != Running
    ensures Workforce(workers, Put(records, c, g, status))
  {
    hide Put;
    PutIs(records, c, g, status);
  }

  lemma WorkforceAssign(workers: map<WorkerId, Option<Job>>, records: map<ClientId, Record>, c: ClientId, g: GroupId,
                        w: WorkerId)
    requires Workforce(workers, records) && c in records && g in records[c].status
    requires records[c].status[g] != Running && w in workers && workers[w].None?
    ensures Workforce(workers[w := Some(Job(c, g))], Put(records, c, g, Running))
  {
    hide Put;
    PutIs(records, c, g, Running);
    var workers', records' := workers[w := Some(Job(c, g))], Put(records, c, g, Running);
    forall c', g' | Is(records', c', g', Running) ensures Assigned(workers', c', g') {
      if c' == c && g' == g {
        assert w in workers' && workers'[w] == Some(Job(c', g'));
      } else {
        assert Assigned(workers, c', g');
        var v :| v in workers && workers[v] == Some(Job(c', g'));
        assert v in workers' && workers'[v] == Some(Job(c', g'));
      }
    }
  }

  lemma WorkforceRelease(workers: map<WorkerId, Option<Job>>, records: map<ClientId, Record>, w: WorkerId,
                         status: Status)
    requires Workforce(workers, records) && w in workers && workers[w].Some? && status != Running
    requires workers[w].value.client in records
    ensures workers[w].value.group in records[workers[w].value.client].status
    ensures Workforce(workers - {w}, Put(records, workers[w].value.client, workers[w].value.group, status))
  {
    hide Put;
    var c, g := workers[w].value.client, workers[w].value.group;
    assert Is(records, c, g, Running);
    PutIs(records, c, g, status);
    var workers', records' := workers - {w}, Put(records, c, g, status);
    forall c', g' | Is(records', c', g', Running) ensures Assigned(workers', c', g') {
      assert Assigned(workers, c', g');
      var v :| v in workers && workers[v] == Some(Job(c', g'));
      assert v in workers' && workers'[v] == Some(Job(c', g'));
    }
  }
}
