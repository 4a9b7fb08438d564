/** The invariant of the scheduler, which holds inside its handlers too, and the
    proof that every small step keeps it.
    Source: task-maker-exec/src/scheduler.rs. */
module SchedulerSteps {
  import opened Dag
  import opened CheckDag
  import opened SchedulerState
  import opened SchedulerHistory

  ghost predicate ClientInvs(clients: map<ClientId, ClientData>, records: map<ClientId, Record>) {
    forall c :: c in clients && c in records ==> ClientInv(clients[c], records[c])
  }

  ghost predicate JobsSeen(workers: map<WorkerId, Option<Job>>, seen: set<ClientId>) {
    forall w :: w in workers && workers[w].Some? ==> workers[w].value.client in seen
  }

  ghost predicate Inv(s: State) {
    && s.clients.Keys == s.records.Keys && s.clients.Keys <= s.seen
    && ClientInvs(s.clients, s.records)
    && Queue(s.heap, s.records)
    && Prioritised(s.heap, s.clients)
    && Workforce(s.workers, s.records)
    && JobsSeen(s.workers, s.seen)
    && Outcomes(s.records)
    && History(s.outbox, s.clients, s.records, s.seen)
  }

  // ---------------------------------------------------------------- how a handler may change the state

  // How the status of a group may change while a handler runs; the groups of
  // `done` are the ones whose completion the handler is asked to deal with.
  ghost predicate Moves(before: Status, after: Status, done: bool) {
    if done then before.Completing? && (after.Succeeded? || after.Failed?)
    else
      || before == after
      || (before.Waiting? && !after.Completing?)
      || (before.Ready? && (after.Running? || after.Succeeded? || after.Failed?))
  }

  ghost predicate StatusesMove(c: ClientId, r: Record, r': Record, done: set<Job>) {
    && r'.status.Keys == r.status.Keys
    && (forall g :: g in r.status ==> Moves(r.status[g], r'.status[g], Job(c, g) in done))
    && (forall g :: g in r.status && r.status[g].Final() ==> SameReport(r, r', g))
  }

  ghost predicate ClientEvolves(d: ClientData, r: Record, d': ClientData, r': Record) {
    && d'.dag == d.dag && d'.callbacks == d.callbacks && d'.inputOf == d.inputOf
    && d.handles.Keys <= d'.handles.Keys
    && r'.producer == r.producer
    && forall f :: f in r.announced ==> f in r'.announced && r'.announced[f] == r.announced[f]
  }

  ghost predicate WorkersEvolve(workers: map<WorkerId, Option<Job>>, workers': map<WorkerId, Option<Job>>) {
    && workers'.Keys == workers.Keys
    && forall w :: w in workers && workers[w].Some? ==> workers'[w] == workers[w]
  }

  // Where a file is does not change, unless something false was received.
  ghost predicate HandlesKept(s: State, s': State) {
    && s'.honest == s.honest && s'.misled == s.misled
    && forall c :: s.Trusts(c) && c in s.clients && c in s'.clients ==> SameHandles(s.clients[c].handles, s'.clients[c].handles)
  }

  ghost predicate SameHandles(handles: map<FileId, FileKey>, handles': map<FileId, FileKey>) {
    forall f :: f in handles ==> f in handles' && handles'[f] == handles[f]
  }

  // A provided file, or an output of a group that is finished.
  ghost predicate SettledFile(r: Record, f: FileId) {
    f in r.producer ==> r.producer[f] in r.status && r.status[r.producer[f]].Final()
  }

  // Such a file stays where it is.
  ghost predicate Steady(s: State, s': State) {
    forall c, f :: c in s.clients && c in s.records && c in s'.clients && f in s.clients[c].handles && SettledFile(s.records[c], f) ==>
      f in s'.clients[c].handles && s'.clients[c].handles[f] == s.clients[c].handles[f]
  }

  // The groups of `owing` may have outputs that have not been announced yet.
  ghost predicate Evolves(s: State, s': State, done: set<Job>, owing: set<Job>) {
    && HandlesKept(s, s') && (done == {} ==> Steady(s, s'))
    && s'.clients.Keys == s.clients.Keys == s.records.Keys == s'.records.Keys && s'.seen == s.seen
    && s.outbox <= s'.outbox
    && WorkersEvolve(s.workers, s'.workers)
    && (forall c :: c in s.clients && c in s.records ==> ClientEvolves(s.clients[c], s.records[c], s'.clients[c], s'.records[c]))
    && (forall c :: c in s.records ==> StatusesMove(c, s.records[c], s'.records[c], done))
    && forall c, f :: Owed(s', c, f) ==> Owed(s, c, f) || OwedBy(s, c, f, owing)
  }

  // The file has an outcome that its readers do not know yet.
  ghost predicate Owed(s: State, c: ClientId, f: FileId) {
    && c in s.records && f in s.records[c].producer
    && s.records[c].producer[f] in s.records[c].status
    && s.records[c].status[s.records[c].producer[f]].Final()
    && f !in s.records[c].announced
  }

  // The file is an output of one of the groups `owing`.
  ghost predicate OwedBy(s: State, c: ClientId, f: FileId, owing: set<Job>) {
    c in s.records && f in s.records[c].producer && Job(c, s.records[c].producer[f]) in owing
  }

  // The DAGs are ones that `check_dag` lets through.
  ghost predicate Checked(clients: map<ClientId, ClientData>) {
    forall c :: c in clients ==> ValidDag(clients[c].dag, clients[c].callbacks)
  }

  lemma CheckedAt(clients: map<ClientId, ClientData>, c: ClientId, d: ClientData)
    requires Checked(clients) && c in clients && d.dag == clients[c].dag && d.callbacks == clients[c].callbacks
    ensures Checked(clients[c := d])
  {
    hide ValidDag;
  }

  lemma CheckedStays(s: State, s': State, done: set<Job>, owing: set<Job>)
    requires Checked(s.clients) && Evolves(s, s', done, owing)
    ensures Checked(s'.clients)
  {
    hide ValidDag, Owed, OwedBy, StatusesMove, WorkersEvolve;
    forall c | c in s'.clients ensures ValidDag(s'.clients[c].dag, s'.clients[c].callbacks) {
      assert ClientEvolves(s.clients[c], s.records[c], s'.clients[c], s'.records[c]);
    }
  }

  /** Between two messages nothing is half done. */
  ghost predicate Settled(s: State) {
    && Checked(s.clients)
    && (forall c, g :: !Is(s.records, c, g, Completing))
    && (forall c, f :: !Owed(s, c, f))
  }

  lemma EvolvesRefl(s: State)
    requires s.clients.Keys == s.records.Keys
    ensures Evolves(s, s, {}, {})
  {
    hide Owed;
  }

  lemma MovesTransitive(a: Status, b: Status, c: Status, done1: bool, done2: bool)
    requires Moves(a, b, done1) && Moves(b, c, done2)
    ensures Moves(a, c, done1 || done2)
  {
  }

  lemma ReportsTransitive(a: Record, b: Record, c: Record)
    requires forall g :: g in a.status && a.status[g].Final() ==> SameReport(a, b, g)
    requires forall g :: g in b.status && b.status[g].Final() ==> SameReport(b, c, g)
    ensures forall g :: g in a.status && a.status[g].Final() ==> SameReport(a, c, g)
  {
  }

  lemma StatusesTransitive(x: ClientId, a: Record, b: Record, c: Record, done1: set<Job>, done2: set<Job>)
    requires StatusesMove(x, a, b, done1) && StatusesMove(x, b, c, done2)
    ensures StatusesMove(x, a, c, done1 + done2)
  {
    hide Moves, SameReport;
    forall g | g in a.status ensures Moves(a.status[g], c.status[g], Job(x, g) in done1 + done2) {
      MovesTransitive(a.status[g], b.status[g], c.status[g], Job(x, g) in done1, Job(x, g) in done2);
    }
    ReportsTransitive(a, b, c);
  }

  lemma ClientTransitive(da: ClientData, a: Record, db: ClientData, b: Record, dc: ClientData, c: Record)
    requires ClientEvolves(da, a, db, b) && ClientEvolves(db, b, dc, c)
    ensures ClientEvolves(da, a, dc, c)
  {
  }

  lemma EvolvesTransitive(a: State, b: State, c: State, done1: set<Job>, owing1: set<Job>, done2: set<Job>,
                          owing2: set<Job>)
    requires Evolves(a, b, done1, owing1) && Evolves(b, c, done2, owing2)
    ensures Evolves(a, c, done1 + done2, owing1 + owing2)
  {
    hide StatusesMove, ClientEvolves, Owed, OwedBy;
    forall x | x in a.records ensures StatusesMove(x, a.records[x], c.records[x], done1 + done2) {
      StatusesTransitive(x, a.records[x], b.records[x], c.records[x], done1, done2);
    }
    forall x | x in a.clients && x in a.records ensures ClientEvolves(a.clients[x], a.records[x], c.clients[x], c.records[x]) {
      ClientTransitive(a.clients[x], a.records[x], b.clients[x], b.records[x], c.clients[x], c.records[x]);
    }
    OwedTransitive(a, b, c, done1, owing1, done2, owing2);
    if done1 + done2 == {} {
      assert done1 == {} && done2 == {};
      SettledEvolves(a, b, done1, owing1);
      SteadyThen(a, b, c);
    }
  }

  // What is settled stays settled.
  ghost predicate StaysSettled(s: State, s': State) {
    forall c, f :: c in s.clients && c in s.records && SettledFile(s.records[c], f) ==>
      c in s'.clients && c in s'.records && SettledFile(s'.records[c], f)
  }

  lemma SettledEvolves(s: State, s': State, done: set<Job>, owing: set<Job>)
    requires Evolves(s, s', done, owing)
    ensures StaysSettled(s, s')
  {
    hide Owed, OwedBy, Steady, WorkersEvolve, SameReport;
    forall c, f | c in s.clients && c in s.records && SettledFile(s.records[c], f) ensures SettledFile(s'.records[c], f) {
      assert StatusesMove(c, s.records[c], s'.records[c], done);
      assert ClientEvolves(s.clients[c], s.records[c], s'.clients[c], s'.records[c]);
    }
  }

  lemma SettledMarked(s: State, s': State, hits: set<Job>)
    requires Marked(s, s', hits)
    ensures StaysSettled(s, s')
  {
    hide Owed, Steady;
    forall c, f | c in s.clients && c in s.records && SettledFile(s.records[c], f) ensures SettledFile(s'.records[c], f) {
      assert StatusesMarked(c, s.records[c], s'.records[c], hits);
      assert ClientEvolves(s.clients[c], s.records[c], s'.clients[c], s'.records[c]);
    }
  }

  lemma SteadyThen(a: State, b: State, c: State)
    requires Steady(a, b) && StaysSettled(a, b) && Steady(b, c)
    ensures Steady(a, c)
  {
    hide SettledFile;
  }

  lemma SteadyOf(s: State, s': State, owing: set<Job>)
    requires Evolves(s, s', {}, owing)
    ensures Steady(s, s')
  {
    hide Owed, OwedBy, StatusesMove, ClientEvolves, WorkersEvolve;
  }

  lemma OwedTransitive(a: State, b: State, c: State, done1: set<Job>, owing1: set<Job>, done2: set<Job>,
                       owing2: set<Job>)
    requires Evolves(a, b, done1, owing1) && Evolves(b, c, done2, owing2)
    ensures forall x, f :: Owed(c, x, f) ==> Owed(a, x, f) || OwedBy(a, x, f, owing1 + owing2)
  {
    hide StatusesMove, Owed;
    forall x, f | Owed(c, x, f) ensures Owed(a, x, f) || OwedBy(a, x, f, owing1 + owing2) {
      if Owed(b, x, f) {
        assert Owed(a, x, f) || OwedBy(a, x, f, owing1);
      } else {
        assert OwedBy(b, x, f, owing2);
        assert ClientEvolves(a.clients[x], a.records[x], b.clients[x], b.records[x]);
      }
    }
  }

  lemma EvolvesThen(a: State, b: State, c: State, done: set<Job>, owing: set<Job>)
    requires Evolves(a, b, done, owing) && Evolves(b, c, {}, {})
    ensures Evolves(a, c, done, owing)
  {
    hide Evolves;
    EvolvesTransitive(a, b, c, done, owing, {}, {});
    assert done + {} == done && owing + {} == owing;
  }

  // The outputs of the groups that owed some have all been announced.
  lemma Discharge(s: State, s': State, done: set<Job>, owing: set<Job>)
    requires Evolves(s, s', done, owing)
    requires forall c, f :: OwedBy(s, c, f, owing) ==> !Owed(s', c, f)
    ensures Evolves(s, s', done, {})
  {
    hide Owed;
  }

  // ---------------------------------------------------------------- the measure of the recursion

  /** The groups that have not been sent anywhere yet. */
  ghost function Live(s: State): set<Job> {
    set c, g | c in s.records && g in s.records[c].status && s.records[c].status[g].Live() :: Job(c, g)
  }

  lemma LiveShrinks(s: State, s': State, done: set<Job>, owing: set<Job>)
    requires Evolves(s, s', done, owing)
    ensures Live(s') <= Live(s)
  {
    hide Owed, OwedBy, ClientEvolves, WorkersEvolve, StatusesMove;
    forall j | j in Live(s') ensures j in Live(s) {
      LiveBefore(j, s.records[j.client], s'.records[j.client], done);
    }
  }

  lemma LiveBefore(j: Job, r: Record, r': Record, done: set<Job>)
    requires StatusesMove(j.client, r, r', done) && j.group in r'.status && r'.status[j.group].Live()
    ensures j.group in r.status && r.status[j.group].Live()
  {
  }

  // ---------------------------------------------------------------- steps on one client

  lemma ClientChanges(s: State, c: ClientId, d: ClientData, r: Record)
    requires ClientInvs(s.clients, s.records) && c in s.clients && ClientInv(d, r)
    ensures ClientInvs(s.clients[c := d], s.records[c := r])
  {
    hide ClientInv;
  }

  lemma PriorityChanges(heap: multiset<ReadyExec>, clients: map<ClientId, ClientData>, c: ClientId, d: ClientData)
    requires Prioritised(heap, clients) && c in clients && d.dag == clients[c].dag
    ensures Prioritised(heap, clients[c := d])
  {
  }

  lemma OwedOnRecord(s: State, s': State, c: ClientId, f: FileId)
    requires c in s.records <==> c in s'.records
    requires c in s.records ==> s'.records[c] == s.records[c]
    ensures Owed(s', c, f) <==> Owed(s, c, f)
  {
  }

  // Nothing moved.
  lemma StatusesStay(c: ClientId, r: Record, done: set<Job>)
    requires forall j :: j in done ==> j.client != c
    ensures StatusesMove(c, r, r, done)
  {
  }

  // The change of one client; `done` and `owing` are groups of it.
  lemma EvolvesAt(s: State, s': State, c: ClientId, done: set<Job>, owing: set<Job>)
    requires c in s.clients && s.clients.Keys == s.records.Keys
    requires c in s'.clients && c in s'.records
    requires s'.clients == s.clients[c := s'.clients[c]] && s'.records == s.records[c := s'.records[c]]
    requires s'.seen == s.seen && s.outbox <= s'.outbox && WorkersEvolve(s.workers, s'.workers)
    requires s'.honest == s.honest && s'.misled == s.misled
    requires s.Trusts(c) ==> SameHandles(s.clients[c].handles, s'.clients[c].handles)
    requires done == {} ==> SameHandles(s.clients[c].handles, s'.clients[c].handles)
    requires ClientEvolves(s.clients[c], s.records[c], s'.clients[c], s'.records[c])
    requires StatusesMove(c, s.records[c], s'.records[c], done) && (forall j :: j in done ==> j.client == c)
    requires forall f :: Owed(s', c, f) ==> Owed(s, c, f) || OwedBy(s, c, f, owing)
    ensures Evolves(s, s', done, owing)
  {
    hide Owed, OwedBy, StatusesMove;
    forall x, f | Owed(s', x, f) ensures Owed(s, x, f) || OwedBy(s, x, f, owing) {
      if x != c { OwedOnRecord(s, s', x, f); }
    }
    forall x | x in s.records ensures StatusesMove(x, s.records[x], s'.records[x], done) {
      if x != c { StatusesStay(x, s.records[x], done); }
    }
  }

  lemma KeepsAt(s: State, c: ClientId, d: ClientData, r: Record)
    requires s.clients.Keys == s.records.Keys && c in s.clients
    requires d.callbacks == s.clients[c].callbacks && r.status.Keys == s.records[c].status.Keys
    requires Settles(s.clients[c], s.records[c], d, r) && r.producer == s.records[c].producer
    requires forall g :: g in r.status && s.records[c].status[g].Final() ==> SameReport(s.records[c], r, g)
    ensures Keeps(s.clients, s.records, s.clients[c := d], s.records[c := r])
  {
    hide Good, Bad;
    forall x | x in s.clients && x != c ensures Settles(s.clients[x], s.records[x], s.clients[x], s.records[x]) { }
    hide Settles;
  }

  // The tables of a client say nothing about its files.
  lemma TablesDoNotSettle(d: ClientData, d': ClientData, r: Record)
    requires d'.dag == d.dag && d'.handles == d.handles
    ensures Settles(d, r, d', r)
  {
  }

  /** `file_success`: a waiting group gets one of its files, and waits for others. */
  lemma StepMeet(s: State, c: ClientId, g: GroupId, f: FileId, d: ClientData)
    requires Inv(s) && c in s.clients && g in s.clients[c].missing
    requires Good(s.clients[c], s.records[c], f) && s.clients[c].missing[g] != {f}
    requires d == s.clients[c].(missing := s.clients[c].missing[g := s.clients[c].missing[g] - {f}])
    ensures Inv(s.(clients := s.clients[c := d])) && Evolves(s, s.(clients := s.clients[c := d]), {}, {})
  {
    hide ClientInv, Queue, Prioritised, Workforce, Good, Bad, Settles, History, Outcomes, Owed, Keeps;
    var s' := s.(clients := s.clients[c := d]);
    var r := s.records[c];
    LocalMeet(s.clients[c], r, g, f);
    assert s.records[c := r] == s.records;
    ClientChanges(s, c, d, r);
    PriorityChanges(s.heap, s.clients, c, d);
    TablesDoNotSettle(s.clients[c], d, r);
    KeepsAt(s, c, d, r);
    QuietStep(s.outbox, s.clients, s.records, s.seen, s'.clients, s'.records);
    OwedIgnoresClients(s, s'.clients);
    EvolvesAt(s, s', c, {}, {});
  }

  lemma OwedIgnoresClients(s: State, clients: map<ClientId, ClientData>)
    ensures forall c, f :: Owed(s.(clients := clients), c, f) <==> Owed(s, c, f)
  {
  }

  // A change of status that is not a completion owes nothing, unless the group is skipped.
  lemma OwedAfterPut(s: State, s': State, c: ClientId, g: GroupId, status: Status)
    requires c in s.records && g in s.records[c].status && s'.records == Put(s.records, c, g, status)
    ensures !status.Final() ==> forall f :: Owed(s', c, f) ==> Owed(s, c, f)
    ensures forall f :: Owed(s', c, f) ==> Owed(s, c, f) || OwedBy(s, c, f, {Job(c, g)})
  {
  }

  // What a change of status of one group does to the client itself.
  ghost predicate Changed(s: State, c: ClientId, d: ClientData, g: GroupId, status: Status)
    requires c in s.clients && c in s.records
  {
    && g in s.records[c].status && !s.records[c].status[g].Final()
    && ClientInv(d, SetStatus(s.records[c], g, status))
    && Settles(s.clients[c], s.records[c], d, SetStatus(s.records[c], g, status))
    && ClientEvolves(s.clients[c], s.records[c], d, SetStatus(s.records[c], g, status))
  }

  // The parts of the invariant that any change of status keeps.
  lemma ChangeStatus(s: State, c: ClientId, d: ClientData, g: GroupId, status: Status)
    requires Inv(s) && c in s.clients && Changed(s, c, d, g, status)
    ensures ClientInvs(s.clients[c := d], Put(s.records, c, g, status))
    ensures Prioritised(s.heap, s.clients[c := d])
    ensures Keeps(s.clients, s.records, s.clients[c := d], Put(s.records, c, g, status))
    ensures status != Succeeded && status != Failed ==> Outcomes(Put(s.records, c, g, status))
  {
    hide ClientInv, Queue, Workforce, Settles, History, Keeps, Prioritised, Outcomes;
    if status != Succeeded && status != Failed { OutcomesUnrelated(s.records, c, g, status); }
    ClientChanges(s, c, d, SetStatus(s.records[c], g, status));
    PriorityChanges(s.heap, s.clients, c, d);
    KeepsAt(s, c, d, SetStatus(s.records[c], g, status));
  }

  lemma PromoteClient(s: State, c: ClientId, d: ClientData, g: GroupId, f: FileId)
    requires ClientInvs(s.clients, s.records) && c in s.clients && c in s.records && g in s.clients[c].missing
    requires Good(s.clients[c], s.records[c], f) && s.clients[c].missing[g] == {f}
    requires d == s.clients[c].(missing := s.clients[c].missing - {g}, ready := s.clients[c].ready + {g})
    ensures Changed(s, c, d, g, Ready) && s.records[c].status[g] == Waiting
  {
    hide Good, Bad, HasInputs, Static, Sound, Files, Settles;
    var r := s.records[c];
    AllInputsGood(s.clients[c], r, g, f);
    assert g in r.status && r.status[g] == Waiting;
    assert d.running == d.running - {g};
    hide Tables;
    LocalStatusChange(s.clients[c], r, d, g, Ready);
    StatusSettles(s.clients[c], r, d, g, Ready);
  }

  /** `file_success`: the last missing file of a group arrives; the group is ready. */
  lemma StepPromote(s: State, s': State, c: ClientId, g: GroupId, f: FileId, d: ClientData, e: ReadyExec)
    requires Inv(s) && c in s.clients && g in s.clients[c].missing
    requires Good(s.clients[c], s.records[c], f) && s.clients[c].missing[g] == {f}
    requires d == s.clients[c].(missing := s.clients[c].missing - {g}, ready := s.clients[c].ready + {g})
    requires g in d.dag.groups && e == ReadyExec(HIGH_PRIORITY, d.dag.groups[g].priority, g, c)
    requires s' == s.(clients := s.clients[c := d], heap := s.heap + multiset{e}, records := Put(s.records, c, g, Ready))
    ensures Inv(s') && Evolves(s, s', {}, {})
  {
    hide Queue, Prioritised, Workforce, Good, Settles, History, Outcomes, Owed, Keeps, ClientInv;
    PromoteClient(s, c, d, g, f);
    ChangeStatus(s, c, d, g, Ready);
    hide ClientInvs;
    PriorityPush(s.heap, s'.clients, e);
    QueuePush(s.heap, s.records, c, g, e);
    WorkforceUnrelated(s.workers, s.records, c, g, Ready);
    QuietStep(s.outbox, s.clients, s.records, s.seen, s'.clients, s'.records);
    OwedAfterPut(s, s', c, g, Ready);
    EvolvesAt(s, s', c, {}, {});
  }

  lemma AllInputsGood(d: ClientData, r: Record, g: GroupId, f: FileId)
    requires ClientInv(d, r) && g in d.missing && d.missing[g] == {f} && Good(d, r, f)
    ensures g in d.dag.groups && HasInputs(d, r, g)
  {
    hide Static, Files, Good;
    assert WaitingGroup(d, r, g);
  }

  lemma PriorityPush(heap: multiset<ReadyExec>, clients: map<ClientId, ClientData>, e: ReadyExec)
    requires Prioritised(heap, clients)
    requires e.client in clients && e.group in clients[e.client].dag.groups
    requires e.priority == clients[e.client].dag.groups[e.group].priority && e.dagPriority == HIGH_PRIORITY
    ensures Prioritised(heap + multiset{e}, clients)
  {
  }

  function Say(outbox: seq<Message>, watched: bool, m: Message): seq<Message> {
    if watched then outbox + [m] else outbox
  }

  lemma SkipClient(s: State, c: ClientId, d: ClientData, g: GroupId, f: FileId)
    requires ClientInvs(s.clients, s.records) && c in s.clients && c in s.records && g in s.clients[c].missing
    requires g in s.clients[c].dag.groups && f in Deps(s.clients[c].dag.groups[g]) && Bad(s.records[c], f)
    requires d == s.clients[c].(missing := s.clients[c].missing - {g})
    ensures Changed(s, c, d, g, Skipped) && s.records[c].status[g] == Waiting
  {
    hide Good, Static, Sound, Files, Settles;
    var r := s.records[c];
    assert HasBadInput(s.clients[c], r, g);
    assert g in r.status && r.status[g] == Waiting;
    assert d.running == d.running - {g} && d.ready == d.ready - {g};
    hide Tables, Bad;
    LocalStatusChange(s.clients[c], r, d, g, Skipped);
    StatusSettles(s.clients[c], r, d, g, Skipped);
  }

  /** `file_failed`: a waiting group reads a file that will never be there; it is skipped. */
  lemma StepSkip(s: State, s': State, c: ClientId, g: GroupId, f: FileId, d: ClientData)
    requires Inv(s) && c in s.clients && g in s.clients[c].missing
    requires g in s.clients[c].dag.groups && f in Deps(s.clients[c].dag.groups[g]) && Bad(s.records[c], f)
    requires d == s.clients[c].(missing := s.clients[c].missing - {g})
    requires s' == s.(clients := s.clients[c := d], records := Put(s.records, c, g, Skipped),
      outbox := Say(s.outbox, g in d.callbacks.executions, Message(c, ExecutionSkipped(g))))
    ensures Inv(s') && Evolves(s, s', {}, {Job(c, g)})
  {
    hide Queue, Prioritised, Workforce, Good, Bad, Settles, History, Outcomes, Owed, OwedBy, Keeps, ClientInv;
    SkipClient(s, c, d, g, f);
    ChangeStatus(s, c, d, g, Skipped);
    hide ClientInvs;
    QueueUnrelated(s.heap, s.records, c, g, Skipped);
    WorkforceUnrelated(s.workers, s.records, c, g, Skipped);
    if g in d.callbacks.executions {
      GroupEvent(s.outbox, s.clients, s.records, s.seen, s'.clients, s'.records, c, g, ExecutionSkipped(g));
    } else {
      QuietStep(s.outbox, s.clients, s.records, s.seen, s'.clients, s'.records);
    }
    OwedAfterPut(s, s', c, g, Skipped);
    EvolvesAt(s, s', c, {}, {Job(c, g)});
  }

  lemma AnnounceClient(s: State, c: ClientId, f: FileId, ok: bool)
    requires ClientInvs(s.clients, s.records) && c in s.clients && c in s.records
    requires if ok then Good(s.clients[c], s.records[c], f) else Bad(s.records[c], f)
    requires forall g :: g in s.clients[c].missing ==> f !in s.clients[c].missing[g]
    ensures ClientInvs(s.clients, s.records[c := Announced(s.records[c], f, ok)])
    ensures forall c', g, x :: Is(s.records[c := Announced(s.records[c], f, ok)], c', g, x) <==> Is(s.records, c', g, x)
    ensures f in s.records[c].announced ==> s.records[c].announced[f] == ok
  {
    hide Good, Static, Sound, Tables;
    if f in s.records[c].announced {
      NotBoth(s.clients[c], s.records[c], f);
    }
    hide Bad, Files;
    LocalAnnounce(s.clients[c], s.records[c], f, ok);
    hide ClientInv;
    ClientChanges(s, c, s.clients[c], Announced(s.records[c], f, ok));
    assert s.clients[c := s.clients[c]] == s.clients;
  }

  lemma NotBoth(d: ClientData, r: Record, f: FileId)
    ensures !(Good(d, r, f) && Bad(r, f))
  {
  }

  /** The end of `file_success` and `file_failed`: every reader of the file knows. */
  lemma StepAnnounce(s: State, s': State, c: ClientId, f: FileId, ok: bool)
    requires Inv(s) && c in s.clients
    requires if ok then Good(s.clients[c], s.records[c], f) else Bad(s.records[c], f)
    requires forall g :: g in s.clients[c].missing ==> f !in s.clients[c].missing[g]
    requires ok && f in s.clients[c].callbacks.files ==> FileSent(s.outbox, c, f, true)
    requires !ok && f in s.clients[c].callbacks.files && CameWith(s.records[c], f) ==> FileSent(s.outbox, c, f, false)
    requires s' == s.(records := s.records[c := Announced(s.records[c], f, ok)])
    ensures Inv(s') && Evolves(s, s', {}, {})
    ensures f in s'.records[c].announced
  {
    hide Prioritised, Good, Bad, Settles, History, Outcomes, Owed, OwedBy, Keeps, ClientInvs, Queue, Workforce,
         FileSent;
    AnnounceClient(s, c, f, ok);
    SameStatuses(s.heap, s.workers, s.records, s'.records);
    HistoryAnnounce(s.outbox, s.clients, s.records, s.seen, c, f, ok);
    OwedAnnounced(s, s', c, f, ok);
    EvolvesAt(s, s', c, {}, {});
  }

  lemma SameStatuses(heap: multiset<ReadyExec>, workers: map<WorkerId, Option<Job>>,
                     records: map<ClientId, Record>, records': map<ClientId, Record>)
    requires Queue(heap, records) && Workforce(workers, records) && Outcomes(records)
    requires records'.Keys == records.Keys && forall c, g, x :: Is(records', c, g, x) <==> Is(records, c, g, x)
    requires forall c :: c in records ==> records'[c].reports == records[c].reports
    ensures Queue(heap, records') && Workforce(workers, records') && Outcomes(records')
  {
    hide Queued, Assigned, AllSuccess;
    assert forall c, g, x :: Is(records', c, g, x) ==> c in records;
    hide Is;
  }

  lemma OwedAnnounced(s: State, s': State, c: ClientId, f: FileId, ok: bool)
    requires c in s.records && s' == s.(records := s.records[c := Announced(s.records[c], f, ok)])
    ensures forall f' :: Owed(s', c, f') ==> Owed(s, c, f')
  {
  }

  /** `send_file`, `check_completion`: an event that changes nothing else. */
  lemma StepSay(s: State, c: ClientId, event: Event)
    requires Inv(s) && c in s.seen && (event.FileReady? || event.EvaluationDone?)
    requires c in s.clients && c in s.records ==> TrueOf(event, s.clients[c], s.records[c])
    ensures Inv(s.(outbox := s.outbox + [Message(c, event)]))
    ensures Evolves(s, s.(outbox := s.outbox + [Message(c, event)]), {}, {})
    ensures Settled(s) ==> Settled(s.(outbox := s.outbox + [Message(c, event)]))
  {
    hide Prioritised, History, Outcomes, Queue, Workforce, Owed, TrueOf, Evolves, Settled, ClientInvs, JobsSeen;
    OtherEvent(s.outbox, s.clients, s.records, s.seen, c, event);
    OutboxGrows(s, s.outbox + [Message(c, event)]);
  }

  lemma OutboxGrows(s: State, outbox: seq<Message>)
    requires s.clients.Keys == s.records.Keys && s.outbox <= outbox
    ensures Evolves(s, s.(outbox := outbox), {}, {})
    ensures Settled(s) ==> Settled(s.(outbox := outbox))
  {
    var s' := s.(outbox := outbox);
    assert forall c, f :: Owed(s', c, f) <==> Owed(s, c, f);
  }

  // ---------------------------------------------------------------- steps of ready and running groups

  /** Some ready groups have been taken out of the queue with a cached result. */
  ghost predicate Marked(s: State, s': State, hits: set<Job>) {
    && HandlesKept(s, s') && Steady(s, s')
    && s'.clients.Keys == s.clients.Keys == s.records.Keys == s'.records.Keys && s'.seen == s.seen
    && s'.outbox == s.outbox && s'.workers == s.workers
    && (forall c :: c in s.clients && c in s.records ==> ClientEvolves(s.clients[c], s.records[c], s'.clients[c], s'.records[c]))
    && (forall c :: c in s.records ==> StatusesMarked(c, s.records[c], s'.records[c], hits))
    && forall c, f :: Owed(s', c, f) ==> Owed(s, c, f)
  }

  ghost predicate StatusesMarked(c: ClientId, r: Record, r': Record, hits: set<Job>) {
    && r'.status.Keys == r.status.Keys && r'.reports == r.reports
    && forall g :: g in r.status ==>
      if Job(c, g) in hits then r.status[g] == Ready && r'.status[g] == Completing else r'.status[g] == r.status[g]
  }

  lemma MarkedDone(x: ClientId, a: Record, b: Record, c: Record, hits: set<Job>)
    requires StatusesMarked(x, a, b, hits) && StatusesMove(x, b, c, hits)
    ensures StatusesMove(x, a, c, {})
  {
  }

  lemma MarkedMore(x: ClientId, a: Record, b: Record, c: Record, hits: set<Job>, j: Job)
    requires StatusesMarked(x, a, b, hits) && StatusesMarked(x, b, c, {j}) && j !in hits
    ensures StatusesMarked(x, a, c, hits + {j})
  {
  }

  lemma NothingOwedBy(s: State)
    ensures forall c, f :: !OwedBy(s, c, f, {})
  {
  }

  lemma MarkedSteady(a: State, b: State, c: State, hits: set<Job>)
    requires Marked(a, b, hits) && Steady(b, c)
    ensures Steady(a, c)
  {
    hide StatusesMarked, ClientEvolves, Owed, Steady, StaysSettled;
    SettledMarked(a, b, hits);
    SteadyThen(a, b, c);
  }

  // Completing what was marked is, as a whole, a change from ready to completed.
  lemma MarkedThenDone(a: State, b: State, c: State, hits: set<Job>)
    requires Marked(a, b, hits) && Evolves(b, c, hits, {}) && Steady(b, c)
    ensures Evolves(a, c, {}, {})
  {
    hide StatusesMove, StatusesMarked, ClientEvolves, Owed, Steady;
    MarkedSteady(a, b, c, hits);
    NothingOwedBy(b);
    forall x | x in a.records ensures StatusesMove(x, a.records[x], c.records[x], {}) {
      MarkedDone(x, a.records[x], b.records[x], c.records[x], hits);
    }
    forall x | x in a.clients && x in a.records ensures ClientEvolves(a.clients[x], a.records[x], c.clients[x], c.records[x]) {
      ClientTransitive(a.clients[x], a.records[x], b.clients[x], b.records[x], c.clients[x], c.records[x]);
    }
  }

  lemma MarkedShrinksLive(a: State, b: State, hits: set<Job>)
    requires Marked(a, b, hits)
    requires forall j :: j in hits ==> Is(a.records, j.client, j.group, Ready)
    ensures Live(b) <= Live(a) && (hits != {} ==> Live(b) < Live(a))
  {
    hide ClientEvolves, Owed;
    forall j | j in Live(b) ensures j in Live(a) {
      assert StatusesMarked(j.client, a.records[j.client], b.records[j.client], hits);
    }
    forall j | j in hits ensures j in Live(a) && j !in Live(b) {
      assert StatusesMarked(j.client, a.records[j.client], b.records[j.client], hits);
    }
    if hits != {} {
      var j :| j in hits;
      assert j in Live(a) && j !in Live(b);
    }
  }

  lemma MarkedRefl(s: State)
    requires s.clients.Keys == s.records.Keys
    ensures Marked(s, s, {})
  {
    hide Owed;
  }

  lemma MarkedGrows(a: State, b: State, c: State, hits: set<Job>, j: Job)
    requires Marked(a, b, hits) && Marked(b, c, {j}) && j !in hits
    ensures Marked(a, c, hits + {j})
  {
    hide StatusesMarked, ClientEvolves, Owed, Steady;
    MarkedSteady(a, b, c, hits);
    forall x | x in a.records ensures StatusesMarked(x, a.records[x], c.records[x], hits + {j}) {
      MarkedMore(x, a.records[x], b.records[x], c.records[x], hits, j);
    }
    forall x | x in a.clients && x in a.records ensures ClientEvolves(a.clients[x], a.records[x], c.clients[x], c.records[x]) {
      ClientTransitive(a.clients[x], a.records[x], b.clients[x], b.records[x], c.clients[x], c.records[x]);
    }
  }

  // A group that is past waiting changes status without becoming final.
  lemma MoveClient(s: State, c: ClientId, d: ClientData, g: GroupId, status: Status)
    requires ClientInvs(s.clients, s.records) && c in s.clients && c in s.records && g in s.records[c].status
    requires !s.records[c].status[g].Final() && s.records[c].status[g] != Waiting
    requires status == Ready || status == Running || status == Completing
    requires d == s.clients[c].(ready := d.ready, running := d.running)
    requires d.ready == if status == Ready then s.clients[c].ready + {g} else s.clients[c].ready - {g}
    requires d.running == if status == Running then s.clients[c].running + {g} else s.clients[c].running - {g}
    ensures Changed(s, c, d, g, status)
    ensures g in d.dag.groups && HasInputs(d, s.records[c], g)
  {
    hide ClientInv, Settles, HasInputs, HasBadInput;
    var r := s.records[c];
    PastWaiting(s.clients[c], r, g);
    InputsIgnoreTables(s.clients[c], d, r, g);
    LocalStatusChange(s.clients[c], r, d, g, status);
    StatusSettles(s.clients[c], r, d, g, status);
  }

  lemma PastWaiting(d: ClientData, r: Record, g: GroupId)
    requires ClientInv(d, r) && g in r.status && !r.status[g].Final() && r.status[g] != Waiting
    ensures g in d.dag.groups && HasInputs(d, r, g) && d.missing == d.missing - {g}
  {
    hide Good, Bad, Static, Files, WaitingGroup, HasInputs, HasBadInput;
    assert HasInputs(d, r, g);
  }

  lemma InputsIgnoreTables(d: ClientData, d': ClientData, r: Record, g: GroupId)
    requires g in d.dag.groups && d'.dag == d.dag && d'.handles == d.handles
    ensures HasInputs(d', r, g) == HasInputs(d, r, g)
  {
  }

  /** `schedule_cached`: a ready group has a cached result. */
  lemma StepTakeHit(s: State, s': State, e: ReadyExec, d: ClientData)
    requires Inv(s) && e in s.heap && e.client in s.clients
    requires d == s.clients[e.client].(ready := s.clients[e.client].ready - {e.group})
    requires s' == s.(clients := s.clients[e.client := d], heap := s.heap - multiset{e},
                      records := Put(s.records, e.client, e.group, Completing))
    ensures Inv(s') && Marked(s, s', {Job(e.client, e.group)})
    ensures Is(s.records, e.client, e.group, Ready)
  {
    hide Queue, Prioritised, Workforce, Settles, History, Outcomes, Owed, Keeps, ClientInvs, ClientInv, Marked;
    var c, g := e.client, e.group;
    ReadyEntry(s, e);
    NotIn(s, c, g);
    MoveClient(s, c, d, g, Completing);
    ChangeStatus(s, c, d, g, Completing);
    PriorityPop(s.heap, s'.clients, e);
    QueuePop(s.heap, s.records, e, Completing);
    WorkforceUnrelated(s.workers, s.records, c, g, Completing);
    QuietStep(s.outbox, s.clients, s.records, s.seen, s'.clients, s'.records);
    OwedAfterPut(s, s', c, g, Completing);
    MarkedAt(s, s', c, g);
  }

  lemma MarkedAt(s: State, s': State, c: ClientId, g: GroupId)
    requires s.clients.Keys == s.records.Keys && c in s.clients && g in s.records[c].status && s.records[c].status[g] == Ready
    requires c in s'.clients && s' == s.(clients := s.clients[c := s'.clients[c]], heap := s'.heap, records := Put(s.records, c, g, Completing))
    requires ClientEvolves(s.clients[c], s.records[c], s'.clients[c], SetStatus(s.records[c], g, Completing))
    requires s'.clients[c].handles == s.clients[c].handles
    requires forall f :: Owed(s', c, f) ==> Owed(s, c, f)
    ensures Marked(s, s', {Job(c, g)})
  {
    hide Owed;
    OwedElsewhere(s, s', c);
  }

  lemma ReadyEntry(s: State, e: ReadyExec)
    requires Inv(s) && e in s.heap
    ensures e.client in s.clients && e.client in s.records && e.group in s.records[e.client].status
    ensures Is(s.records, e.client, e.group, Ready) && s.records[e.client].status[e.group] == Ready
  {
    hide Prioritised, Workforce, History, Outcomes, ClientInvs, JobsSeen, Queued;
    assert Is(s.records, e.client, e.group, Ready);
  }

  lemma OwedElsewhere(s: State, s': State, c: ClientId)
    requires c in s.records && c in s'.records && s'.records == s.records[c := s'.records[c]]
    requires forall f :: Owed(s', c, f) ==> Owed(s, c, f)
    ensures forall x, f :: Owed(s', x, f) ==> Owed(s, x, f)
  {
    forall x, f | Owed(s', x, f) ensures Owed(s, x, f) {
      if x != c { assert s'.records[x] == s.records[x]; }
    }
  }

  lemma NotIn(s: State, c: ClientId, g: GroupId)
    requires ClientInvs(s.clients, s.records) && c in s.clients && c in s.records && Is(s.records, c, g, Ready)
    ensures g in s.clients[c].ready && s.clients[c].running == s.clients[c].running - {g}
    ensures g in s.clients[c].dag.groups
  {
    hide Static, Sound, Files;
    assert ClientInv(s.clients[c], s.records[c]);
  }

  lemma PriorityPop(heap: multiset<ReadyExec>, clients: map<ClientId, ClientData>, e: ReadyExec)
    requires Prioritised(heap, clients)
    ensures Prioritised(heap - multiset{e}, clients)
  {
  }

  lemma JobSeen(workers: map<WorkerId, Option<Job>>, seen: set<ClientId>, w: WorkerId, c: ClientId, g: GroupId)
    requires JobsSeen(workers, seen) && c in seen
    ensures JobsSeen(workers[w := Some(Job(c, g))], seen)
  {
  }

  // The client that watches the group is told that it starts.
  lemma ToldStarted(s: State, s': State, c: ClientId, g: GroupId, w: WorkerId)
    requires c in s.clients && c in s.records && c in s.seen && g in s.records[c].status && s.records[c].status[g] == Ready
    requires History(s.outbox, s.clients, s.records, s.seen) && Keeps(s.clients, s.records, s'.clients, s'.records)
    requires s'.records == Put(s.records, c, g, Running)
    requires s'.outbox == Say(s.outbox, g in s.clients[c].callbacks.executions, Message(c, ExecutionStarted(g, w)))
    ensures History(s'.outbox, s'.clients, s'.records, s.seen)
  {
    hide History, Keeps;
    if g in s.clients[c].callbacks.executions {
      GroupEvent(s.outbox, s.clients, s.records, s.seen, s'.clients, s'.records, c, g, ExecutionStarted(g, w));
    } else {
      QuietStep(s.outbox, s.clients, s.records, s.seen, s'.clients, s'.records);
    }
  }

  /** `assign_jobs`: a free worker gets the job. */
  lemma StepDispatch(s: State, s': State, e: ReadyExec, w: WorkerId, d: ClientData)
    requires Inv(s) && e in s.heap && e.client in s.clients && w in s.workers && s.workers[w].None?
    requires d == s.clients[e.client].(ready := s.clients[e.client].ready - {e.group},
                                       running := s.clients[e.client].running + {e.group})
    requires s' == s.(clients := s.clients[e.client := d], heap := s.heap - multiset{e},
                      workers := s.workers[w := Some(Job(e.client, e.group))],
                      records := Put(s.records, e.client, e.group, Running),
                      outbox := Say(s.outbox, e.group in d.callbacks.executions, Message(e.client, ExecutionStarted(e.group, w))))
    ensures Inv(s') && Evolves(s, s', {}, {})
  {
    hide JobsSeen, Queue, Prioritised, Workforce, Settles, History, Outcomes, Owed, OwedBy, Keeps, ClientInvs,
         ClientInv;
    var c, g := e.client, e.group;
    ReadyEntry(s, e);
    NotIn(s, c, g);
    MoveClient(s, c, d, g, Running);
    ChangeStatus(s, c, d, g, Running);
    PriorityPop(s.heap, s'.clients, e);
    QueuePop(s.heap, s.records, e, Running);
    WorkforceAssign(s.workers, s.records, c, g, w);
    ToldStarted(s, s', c, g, w);
    JobSeen(s.workers, s.seen, w, c, g);
    OwedAfterPut(s, s', c, g, Running);
    EvolvesAt(s, s', c, {}, {});
  }

  lemma CompleteClient(s: State, c: ClientId, d: ClientData, g: GroupId, ok: bool)
    requires ClientInvs(s.clients, s.records) && c in s.clients && c in s.records && Is(s.records, c, g, Completing)
    requires d == s.clients[c].(handles := d.handles) && s.clients[c].handles.Keys <= d.handles.Keys
    requires g in d.dag.groups && (ok ==> Outs(d.dag.groups[g]) <= d.handles.Keys)
    ensures Changed(s, c, d, g, if ok then Succeeded else Failed)
  {
    hide Static, Sound, Files, Settles, Good, Bad;
    var d0, r := s.clients[c], s.records[c];
    var status := if ok then Succeeded else Failed;
    assert ClientInv(d0, r);
    LocalHandles(d0, r, d.handles);
    assert ClientInv(d, r);
    assert d.missing == d.missing - {g} && d.ready == d.ready - {g} && d.running == d.running - {g};
    OutputsOf(d, r, g, status);
    hide Tables, HasInputs;
    LocalStatusChange(d, r, d, g, status);
    HandlesSettle(d0, d, r, g, status);
  }

  lemma OutputsOf(d: ClientData, r: Record, g: GroupId, status: Status)
    requires ClientInv(d, r) && g in r.status && r.status[g] == Completing && g in d.dag.groups
    requires status == Succeeded ==> Outs(d.dag.groups[g]) <= d.handles.Keys
    ensures HasInputs(d, r, g)
    ensures status == Succeeded ==> forall f :: f in r.producer && r.producer[f] == g ==> f in d.handles
  {
    hide Outs, Good, Files, WaitingGroup, HasBadInput, HasInputs;
  }

  lemma HandlesSettle(d: ClientData, d': ClientData, r: Record, g: GroupId, status: Status)
    requires d'.dag == d.dag && d.handles.Keys <= d'.handles.Keys
    requires g in r.status && !r.status[g].Final()
    ensures Settles(d, r, d', SetStatus(r, g, status))
    ensures Settles(d, r, d', r)
  {
  }

  // What is remembered when the results of a group are in.
  function Reported(r: Record, g: GroupId, report: Report): Record {
    r.(reports := r.reports[g := report])
  }

  function Ending(records: map<ClientId, Record>, c: ClientId, g: GroupId, report: Report): map<ClientId, Record>
    requires c in records
  {
    records[c := SetStatus(Reported(records[c], g, report), g, OutcomeOf(report.results))]
  }

  /** The state in which the results of a group have just been recorded: the
      client has the files, the group its outcome, and who watches it was told. */
  function WithReport(s: State, c: ClientId, g: GroupId, report: Report): State {
    if c in s.clients && c in s.records then
      var d := s.clients[c].(handles := s.clients[c].handles + report.outputs);
      s.(clients := s.clients[c := d],
         records := Ending(s.records, c, g, report),
         outbox := Say(s.outbox, g in d.callbacks.executions, Message(c, ExecutionDone(g, report.results))))
    else s
  }

  // What is remembered of a group that has no outcome yet does not matter.
  lemma StepReport(s: State, s': State, c: ClientId, g: GroupId, report: Report)
    requires Inv(s) && c in s.clients && Is(s.records, c, g, Completing)
    requires s' == s.(records := s.records[c := Reported(s.records[c], g, report)])
    ensures Inv(s')
  {
    hide Queue, Prioritised, Workforce, History, Outcomes, ClientInv;
    var r, r' := s.records[c], Reported(s.records[c], g, report);
    SameClientInv(s.clients[c], r, r');
    ClientChanges(s, c, s.clients[c], r');
    assert s.clients[c := s.clients[c]] == s.clients;
    ReportedStatuses(s.heap, s.workers, s.records, s'.records, c, g);
    ReportKeeps(s, s', c, g, report);
    QuietStep(s.outbox, s.clients, s.records, s.seen, s'.clients, s'.records);
  }

  lemma SameClientInv(d: ClientData, r: Record, r': Record)
    requires ClientInv(d, r) && r'.status == r.status && r'.producer == r.producer && r'.announced == r.announced
    ensures ClientInv(d, r')
  {
    hide Static, Deps, Outs;
    assert forall f :: (Good(d, r', f) <==> Good(d, r, f)) && (Bad(r', f) <==> Bad(r, f));
    hide Good, Bad;
    forall g | g in d.dag.groups ensures HasInputs(d, r', g) == HasInputs(d, r, g) && HasBadInput(d, r', g) == HasBadInput(d, r, g) { }
    forall g | g in d.missing && g in d.dag.groups ensures WaitingGroup(d, r', g) { assert WaitingGroup(d, r, g); }
    hide HasInputs, HasBadInput, WaitingGroup;
  }

  lemma ReportedStatuses(heap: multiset<ReadyExec>, workers: map<WorkerId, Option<Job>>, records: map<ClientId, Record>,
                         records': map<ClientId, Record>, c: ClientId, g: GroupId)
    requires Queue(heap, records) && Workforce(workers, records) && Outcomes(records)
    requires c in records && Is(records, c, g, Completing)
    requires c in records' && records' == records[c := records'[c]] && records'[c].status == records[c].status
    requires forall h :: h != g ==> (h in records[c].reports <==> h in records'[c].reports)
    requires forall h :: h != g && h in records[c].reports ==> records'[c].reports[h] == records[c].reports[h]
    ensures Queue(heap, records') && Workforce(workers, records') && Outcomes(records')
  {
    hide AllSuccess, Queued, Assigned;
    assert forall x, h, st :: Is(records', x, h, st) <==> Is(records, x, h, st);
  }

  lemma ReportKeeps(s: State, s': State, c: ClientId, g: GroupId, report: Report)
    requires s.clients.Keys == s.records.Keys && c in s.clients && Is(s.records, c, g, Completing)
    requires s' == s.(records := s.records[c := Reported(s.records[c], g, report)])
    ensures Keeps(s.clients, s.records, s'.clients, s'.records)
  {
    KeepsAt(s, c, s.clients[c], Reported(s.records[c], g, report));
    assert s.clients[c := s.clients[c]] == s.clients;
  }

  /** `exec_completed`: the results of a group are in, and its outputs are in the store. */
  lemma StepComplete(s: State, s': State, c: ClientId, g: GroupId, report: Report)
    requires Inv(s) && c in s.clients && c in s.records && Is(s.records, c, g, Completing)
    requires var handles := s.clients[c].handles + report.outputs;
      && g in s.clients[c].dag.groups && (AllSuccess(report.results) ==> Outs(s.clients[c].dag.groups[g]) <= handles.Keys)
      && (s.Trusts(c) ==> SameHandles(s.clients[c].handles, handles))
    requires s' == WithReport(s, c, g, report)
    ensures Inv(s') && Evolves(s, s', {Job(c, g)}, {Job(c, g)})
  {
    hide Queue, Prioritised, Workforce, Settles, History, Outcomes, Owed, OwedBy, Keeps, ClientInvs, ClientInv,
         AllSuccess;
    var s0 := s.(records := s.records[c := Reported(s.records[c], g, report)]);
    StepReport(s, s0, c, g, report);
    StepOutcome(s0, s', c, g, s'.clients[c]);
    OwedIgnoresReports(s, s0, c, g, report);
    OwedAfterPut(s0, s', c, g, OutcomeOf(report.results));
    CompletedMoves(s, s', c, g, report);
    EvolvesAt(s, s', c, {Job(c, g)}, {Job(c, g)});
  }

  lemma CompletedMoves(s: State, s': State, c: ClientId, g: GroupId, report: Report)
    requires c in s.records && Is(s.records, c, g, Completing) && s'.records == Ending(s.records, c, g, report)
    ensures StatusesMove(c, s.records[c], s'.records[c], {Job(c, g)})
  {
    hide AllSuccess;
  }

  // The group has a report, and gets the outcome that it tells.
  lemma StepOutcome(s: State, s': State, c: ClientId, g: GroupId, d: ClientData)
    requires Inv(s) && c in s.clients && Is(s.records, c, g, Completing) && g in s.records[c].reports
    requires d == s.clients[c].(handles := d.handles) && s.clients[c].handles.Keys <= d.handles.Keys
    requires g in d.dag.groups && (AllSuccess(s.records[c].reports[g].results) ==> Outs(d.dag.groups[g]) <= d.handles.Keys)
    requires var results := s.records[c].reports[g].results;
      s' == s.(clients := s.clients[c := d], records := Put(s.records, c, g, OutcomeOf(results)),
               outbox := Say(s.outbox, g in d.callbacks.executions, Message(c, ExecutionDone(g, results))))
    ensures Inv(s')
  {
    hide Queue, Prioritised, Workforce, Settles, History, Outcomes, Owed, OwedBy, Keeps, ClientInvs, ClientInv,
         AllSuccess;
    var results := s.records[c].reports[g].results;
    var status := OutcomeOf(results);
    CompleteClient(s, c, d, g, AllSuccess(results));
    OutcomesComplete(s.records, c, g);
    ChangeStatus(s, c, d, g, status);
    QueueUnrelated(s.heap, s.records, c, g, status);
    WorkforceUnrelated(s.workers, s.records, c, g, status);
    if g in d.callbacks.executions {
      GroupEvent(s.outbox, s.clients, s.records, s.seen, s'.clients, s'.records, c, g, ExecutionDone(g, results));
    } else {
      QuietStep(s.outbox, s.clients, s.records, s.seen, s'.clients, s'.records);
    }
  }

  lemma OwedIgnoresReports(s: State, s0: State, c: ClientId, g: GroupId, report: Report)
    requires c in s.records && s0 == s.(records := s.records[c := Reported(s.records[c], g, report)])
    ensures forall x, f :: Owed(s0, x, f) <==> Owed(s, x, f)
    ensures forall x, f, owing :: OwedBy(s0, x, f, owing) <==> OwedBy(s, x, f, owing)
  {
  }

  /** `handle_file_ready`: the client provides a file. */
  lemma StepDeliver(s: State, c: ClientId, d: ClientData, f: FileId, key: FileKey)
    requires Inv(s) && c in s.clients && d == s.clients[c].(handles := s.clients[c].handles[f := key])
    ensures Inv(s.(clients := s.clients[c := d])) && (Settled(s) ==> Settled(s.(clients := s.clients[c := d])))
  {
    hide Queue, Prioritised, Workforce, Settles, History, Outcomes, Owed, OwedBy, Keeps, ClientInv, ValidDag, Checked;
    var s', r := s.(clients := s.clients[c := d]), s.records[c];
    LocalHandles(s.clients[c], r, d.handles);
    assert s.records[c := r] == s.records;
    ClientChanges(s, c, d, r);
    hide ClientInvs;
    PriorityChanges(s.heap, s.clients, c, d);
    MoreHandlesSettle(s.clients[c], d, r);
    KeepsAt(s, c, d, r);
    QuietStep(s.outbox, s.clients, s.records, s.seen, s'.clients, s'.records);
    OwedIgnoresClients(s, s'.clients);
    if Settled(s) { CheckedAt(s.clients, c, d); }
  }

  lemma MoreHandlesSettle(d: ClientData, d': ClientData, r: Record)
    requires d'.dag == d.dag && d.handles.Keys <= d'.handles.Keys
    ensures Settles(d, r, d', r)
  {
  }

  // ---------------------------------------------------------------- workers come and go

  lemma RunningEntry(s: State, w: WorkerId)
    requires Inv(s) && w in s.workers && s.workers[w].Some? && s.workers[w].value.client in s.records
    ensures var j := s.workers[w].value;
      && j.client in s.clients && j.group in s.records[j.client].status && s.records[j.client].status[j.group] == Running
      && j.group in s.clients[j.client].dag.groups
      && j.group in s.clients[j.client].running
      && s.clients[j.client].ready == s.clients[j.client].ready - {j.group}
  {
    hide Prioritised, Queue, History, Outcomes, JobsSeen, Assigned, Tables, Static, Sound, Files;
    var j := s.workers[w].value;
    assert Is(s.records, j.client, j.group, Running);
    RunningGroup(s.clients[j.client], s.records[j.client], j.group);
  }

  lemma RunningGroup(d: ClientData, r: Record, g: GroupId)
    requires Tables(d, r) && g in r.status && r.status[g] == Running
    ensures g in d.dag.groups && g in d.running && d.ready == d.ready - {g}
  {
  }

  /** `handle_worker_disconnected`: the job of a lost worker is ready again. */
  lemma StepRequeue(s: State, s': State, w: WorkerId, d: ClientData, e: ReadyExec)
    requires Inv(s) && w in s.workers && s.workers[w].Some? && s.workers[w].value.client in s.clients
    requires var j := s.workers[w].value;
      && d == s.clients[j.client].(ready := s.clients[j.client].ready + {j.group}, running := s.clients[j.client].running - {j.group})
      && j.group in d.dag.groups && e == ReadyExec(HIGH_PRIORITY, d.dag.groups[j.group].priority, j.group, j.client)
      && s' == s.(clients := s.clients[j.client := d], heap := s.heap + multiset{e}, workers := s.workers - {w},
                  records := Put(s.records, j.client, j.group, Ready))
    ensures Inv(s') && (Settled(s) ==> Settled(s'))
  {
    hide ValidDag, Checked, Queue, Prioritised, Workforce, Settles, History, Outcomes, Owed, OwedBy, Keeps,
         ClientInvs, ClientInv;
    var c, g := s.workers[w].value.client, s.workers[w].value.group;
    RunningEntry(s, w);
    if Checked(s.clients) { CheckedAt(s.clients, c, d); }
    MoveClient(s, c, d, g, Ready);
    ChangeStatus(s, c, d, g, Ready);
    PriorityPush(s.heap, s'.clients, e);
    QueuePush(s.heap, s.records, c, g, e);
    WorkforceRelease(s.workers, s.records, w, Ready);
    QuietStep(s.outbox, s.clients, s.records, s.seen, s'.clients, s'.records);
    PutIs(s.records, c, g, Ready);
    OwedAfterPut(s, s', c, g, Ready);
    OwedElsewhere(s, s', c);
  }

  /** `handle_worker_result`: the job leaves the running groups; its completion is now to be dealt with. */
  lemma StepTakeResult(s: State, s': State, w: WorkerId, d: ClientData)
    requires Inv(s) && Settled(s) && w in s.workers && s.workers[w].Some? && s.workers[w].value.client in s.clients
    requires var j := s.workers[w].value;
      && d == s.clients[j.client].(running := s.clients[j.client].running - {j.group})
      && s' == s.(clients := s.clients[j.client := d], workers := s.workers - {w},
                  records := Put(s.records, j.client, j.group, Completing))
    ensures Inv(s') && OnlyPending(s', {s.workers[w].value})
  {
    hide ValidDag, Checked, Queue, Prioritised, Workforce, Settles, History, Outcomes, Owed, OwedBy, Keeps,
         ClientInvs, ClientInv;
    var c, g := s.workers[w].value.client, s.workers[w].value.group;
    RunningEntry(s, w);
    if Checked(s.clients) { CheckedAt(s.clients, c, d); }
    MoveClient(s, c, d, g, Completing);
    ChangeStatus(s, c, d, g, Completing);
    QueueUnrelated(s.heap, s.records, c, g, Completing);
    WorkforceRelease(s.workers, s.records, w, Completing);
    QuietStep(s.outbox, s.clients, s.records, s.seen, s'.clients, s'.records);
    PutIs(s.records, c, g, Completing);
    OwedAfterPut(s, s', c, g, Completing);
    OwedElsewhere(s, s', c);
  }

  // Nothing is half done but the completion of `jobs`.
  ghost predicate OnlyPending(s: State, jobs: set<Job>) {
    && Checked(s.clients)
    && (forall c, g :: Is(s.records, c, g, Completing) <==> Job(c, g) in jobs)
    && (forall c, f :: !Owed(s, c, f))
  }

  lemma PendingDone(s: State, s': State, jobs: set<Job>)
    requires OnlyPending(s, jobs) && Evolves(s, s', jobs, {})
    ensures Settled(s')
  {
    hide Owed, Checked;
    CheckedStays(s, s', jobs, {});
    forall c, g ensures !Is(s'.records, c, g, Completing) {
      if c in s.records && g in s.records[c].status {
        assert StatusesMove(c, s.records[c], s'.records[c], jobs);
        assert Is(s.records, c, g, Completing) <==> Job(c, g) in jobs;
      }
    }
  }

  lemma SettledStays(s: State, s': State)
    requires Settled(s) && Evolves(s, s', {}, {})
    ensures Settled(s')
  {
    assert OnlyPending(s, {});
    PendingDone(s, s', {});
  }

  /** `handle_worker_connected`: a worker without a job. */
  lemma StepAddWorker(s: State, w: WorkerId)
    requires Inv(s) && (w in s.workers ==> s.workers[w].None?)
    ensures Inv(s.(workers := s.workers[w := None])) && (Settled(s) ==> Settled(s.(workers := s.workers[w := None])))
  {
    hide Queue, Prioritised, History, Outcomes, ClientInvs, Is, Settled;
    var workers' := s.workers[w := None];
    forall c, g | Is(s.records, c, g, Running) ensures Assigned(workers', c, g) {
      assert Assigned(s.workers, c, g);
      var v :| v in s.workers && s.workers[v] == Some(Job(c, g));
      assert v in workers' && workers'[v] == Some(Job(c, g));
    }
    SettledIgnoresWorkers(s, workers');
  }

  lemma SettledIgnoresWorkers(s: State, workers: map<WorkerId, Option<Job>>)
    ensures Settled(s) ==> Settled(s.(workers := workers))
  {
    assert forall c, f :: Owed(s.(workers := workers), c, f) <==> Owed(s, c, f);
  }

  /** A worker leaves that has nothing to do for a connected client. */
  lemma StepDropWorker(s: State, w: WorkerId)
    requires Inv(s) && (w in s.workers && s.workers[w].Some? ==> s.workers[w].value.client !in s.clients)
    ensures Inv(s.(workers := s.workers - {w})) && (Settled(s) ==> Settled(s.(workers := s.workers - {w})))
  {
    hide Queue, Prioritised, History, Outcomes, ClientInvs;
    var workers' := s.workers - {w};
    forall c, g | Is(s.records, c, g, Running) ensures Assigned(workers', c, g) {
      assert Assigned(s.workers, c, g);
      var v :| v in s.workers && s.workers[v] == Some(Job(c, g));
      assert v in workers' && workers'[v] == Some(Job(c, g));
    }
    SettledIgnoresWorkers(s, workers');
  }

  // ---------------------------------------------------------------- clients come and go

  // The queue without the entries of the clients that are not there.
  ghost predicate Purged(heap: multiset<ReadyExec>, heap': multiset<ReadyExec>, clients: map<ClientId, ClientData>) {
    forall e :: heap'[e] == if e.client in clients then heap[e] else 0
  }

  lemma QueuePurged(heap: multiset<ReadyExec>, heap': multiset<ReadyExec>, s: State, c: ClientId)
    requires Queue(heap, s.records) && s.clients.Keys == s.records.Keys && Purged(heap, heap', s.clients - {c})
    ensures Queue(heap', s.records - {c})
  {
    var records' := s.records - {c};
    assert forall e :: e in heap' <==> e in heap && e.client != c && e.client in s.clients;
    forall x, g | Is(records', x, g, Ready) ensures Queued(heap', x, g) {
      assert Is(s.records, x, g, Ready) && Queued(heap, x, g);
      var e :| e in heap && e.client == x && e.group == g;
      assert e in heap';
    }
    forall e | e in heap' ensures Is(records', e.client, e.group, Ready) {
      assert Is(s.records, e.client, e.group, Ready);
    }
  }

  lemma WithoutClient(records: map<ClientId, Record>, c: ClientId)
    ensures forall x, g, st :: Is(records - {c}, x, g, st) <==> x != c && Is(records, x, g, st)
  {
  }

  lemma ReadyHere(heap: multiset<ReadyExec>, records: map<ClientId, Record>)
    requires Entitled(heap, records)
    ensures forall e :: e in heap ==> e.client in records
  {
    forall e | e in heap ensures e.client in records { assert Is(records, e.client, e.group, Ready); }
  }

  lemma WorkforceLeft(workers: map<WorkerId, Option<Job>>, records: map<ClientId, Record>, c: ClientId)
    requires Workforce(workers, records)
    ensures Workforce(workers, records - {c})
  {
    hide Is, Assigned;
    WithoutClient(records, c);
  }

  lemma HistoryLeft(outbox: seq<Message>, clients: map<ClientId, ClientData>, records: map<ClientId, Record>,
                    seen: set<ClientId>, c: ClientId)
    requires History(outbox, clients, records, seen)
    ensures History(outbox, clients - {c}, records - {c}, seen)
  {
    hide TrueOf, FileSent, Fits, PhaseOf;
  }

  /** `handle_client_disconnected`: the client and its queued groups are gone. */
  lemma StepRemoveClient(s: State, s': State, c: ClientId)
    requires Inv(s) && Settled(s)
    requires s' == s.(clients := s.clients - {c}, records := s.records - {c}, heap := s'.heap)
    requires Purged(s.heap, s'.heap, s'.clients)
    ensures Inv(s') && Settled(s')
  {
    hide History, Outcomes, Queue, Workforce, ClientInv;
    QueuePurged(s.heap, s'.heap, s, c);
    WorkforceLeft(s.workers, s.records, c);
    HistoryLeft(s.outbox, s.clients, s.records, s.seen, c);
    OutcomesElsewhere(s.records, s'.records);
    assert Prioritised(s'.heap, s'.clients);
    SettledLeft(s, s', c);
  }

  lemma OutcomesElsewhere(records: map<ClientId, Record>, records': map<ClientId, Record>)
    requires Outcomes(records)
    requires forall c, g, x :: Is(records', c, g, x) ==>
      x == Ready || x == Waiting || (Is(records, c, g, x) && records'[c].reports == records[c].reports)
    ensures Outcomes(records')
  {
    hide AllSuccess;
    forall c, g | Is(records', c, g, Succeeded) || Is(records', c, g, Failed)
      ensures g in records'[c].reports && (Is(records', c, g, Succeeded) <==> AllSuccess(records'[c].reports[g].results))
    {
      OneStatus(records', c, g, Succeeded, Failed);
      OneStatus(records, c, g, Succeeded, Failed);
    }
  }

  lemma OneStatus(records: map<ClientId, Record>, c: ClientId, g: GroupId, x: Status, y: Status)
    requires x != y
    ensures !(Is(records, c, g, x) && Is(records, c, g, y))
  {
  }

  lemma SettledLeft(s: State, s': State, c: ClientId)
    requires Settled(s) && s'.records == s.records - {c} && s'.clients == s.clients - {c}
    ensures Settled(s')
  {
    hide ValidDag;
    assert forall x, g, st :: Is(s'.records, x, g, st) ==> Is(s.records, x, g, st);
    assert forall x, f :: Owed(s', x, f) ==> Owed(s, x, f);
  }

  // ---------------------------------------------------------------- a new client

  ghost function AllOutputs(dag: DagData): set<FileId> {
    set g, f | g in dag.groups && f in Outs(dag.groups[g]) :: f
  }

  ghost function ProducerOf(dag: DagData, f: FileId): GroupId
    requires f in AllOutputs(dag)
  {
    var g :| g in dag.groups && f in Outs(dag.groups[g]); g
  }

  // Before anything happened: a group waits, unless it needs nothing.
  ghost function FreshRecord(dag: DagData): Record {
    Record(
      map g | g in dag.groups :: if Deps(dag.groups[g]) == {} then Ready else Waiting,
      map f | f in AllOutputs(dag) :: ProducerOf(dag, f),
      map[], map[])
  }

  ghost predicate FreshClient(d: ClientData) {
    && d.running == {} && d.handles == map[]
    && (forall g :: g in d.missing <==> g in d.dag.groups && Deps(d.dag.groups[g]) != {})
    && (forall g :: g in d.missing && g in d.dag.groups ==> d.missing[g] == Deps(d.dag.groups[g]))
    && (forall g :: g in d.ready <==> g in d.dag.groups && Deps(d.dag.groups[g]) == {})
    && InputTable(d.dag, d.inputOf)
  }

  lemma FreshProducers(dag: DagData, callbacks: WatchSet)
    requires ValidDag(dag, callbacks)
    ensures ProducerMap(dag, FreshRecord(dag).producer)
  {
    hide Outs, CallbacksKnown, TopologicalOrder, SoundGroup;
    var producer := FreshRecord(dag).producer;
    forall g, f | g in dag.groups && f in Outs(dag.groups[g]) ensures f in producer && producer[f] == g {
      assert f in AllOutputs(dag);
      var h := ProducerOf(dag, f);
      assert f in Outs(dag.groups[h]) * Outs(dag.groups[g]);
    }
    forall f | f in producer ensures f !in dag.providedFiles {
      var h := ProducerOf(dag, f);
      assert h in dag.groups && f in Outs(dag.groups[h]) && Outs(dag.groups[h]) !! dag.providedFiles;
    }
  }

  lemma FreshTables(d: ClientData)
    requires FreshClient(d)
    ensures Tables(d, FreshRecord(d.dag)) && FreshRecord(d.dag).announced == map[]
    ensures forall g :: g in FreshRecord(d.dag).status ==>
      FreshRecord(d.dag).status[g] == Ready || FreshRecord(d.dag).status[g] == Waiting
  {
    hide Deps, Outs, InputTable;
  }

  lemma FreshSound(d: ClientData, r: Record)
    requires FreshClient(d) && Tables(d, r) && r.announced == map[]
    requires forall g :: g in r.status ==> r.status[g] == Ready || r.status[g] == Waiting
    ensures Sound(d, r)
  {
    hide Deps, Outs, InputTable, Good, Bad;
    forall g | g in d.missing && g in d.dag.groups ensures WaitingGroup(d, r, g) { }
    forall g | g in r.status && r.status[g] != Waiting ensures HasInputs(d, r, g) {
      assert g in d.ready;
    }
  }

  lemma FreshClientInv(d: ClientData)
    requires ValidDag(d.dag, d.callbacks) && (forall g :: g in d.dag.groups ==> d.dag.groups[g].uuid == g)
    requires FreshClient(d)
    ensures ClientInv(d, FreshRecord(d.dag))
  {
    hide ValidDag, ProducerMap, InputTable, Outs, Deps, AllOutputs, Tables, Sound, FreshRecord, Good, Bad;
    FreshProducers(d.dag, d.callbacks);
    FreshTables(d);
    FreshSound(d, FreshRecord(d.dag));
  }

  /** The entries pushed for a new client: one per group that needs nothing. */
  ghost predicate Entries(added: multiset<ReadyExec>, c: ClientId, d: ClientData) {
    && (forall e :: e in added ==> added[e] == 1 && e.client == c && e.group in d.ready)
    && (forall e :: e in added && e.group in d.dag.groups ==>
         e.dagPriority == d.dag.config.priority && e.priority == d.dag.groups[e.group].priority)
    && (forall g :: g in d.ready ==> Queued(added, c, g))
    && (forall e1, e2 :: e1 in added && e2 in added && e1.group == e2.group ==> e1 == e2)
  }

  lemma FreshReady(records: map<ClientId, Record>, c: ClientId, d: ClientData, r: Record, x: ClientId, g: GroupId)
    requires Tables(d, r)
    ensures Is(records[c := r], x, g, Ready) <==> if x == c then g in d.ready else Is(records, x, g, Ready)
  {
  }

  lemma QueueNewClient(heap: multiset<ReadyExec>, records: map<ClientId, Record>, c: ClientId, d: ClientData,
                       added: multiset<ReadyExec>)
    requires Queue(heap, records) && c !in records && FreshClient(d) && Entries(added, c, d)
    ensures Queue(heap + added, records[c := FreshRecord(d.dag)])
  {
    FreshTables(d);
    hide FreshRecord, FreshClient;
    var r := FreshRecord(d.dag);
    forall x, g ensures Is(records[c := r], x, g, Ready) <==> if x == c then g in d.ready else Is(records, x, g, Ready) {
      FreshReady(records, c, d, r, x, g);
    }
    hide Is, Tables;
    EntitledJoin(heap, added, records, records[c := r], c);
    OnePerGroupJoin(heap, added, records, c);
    AllQueuedJoin(heap, added, records, records[c := r], c);
  }

  // Two queues for different clients.
  lemma EntitledJoin(heap: multiset<ReadyExec>, added: multiset<ReadyExec>,
                     records: map<ClientId, Record>, records': map<ClientId, Record>, c: ClientId)
    requires Entitled(heap, records) && c !in records
    requires forall e :: e in added ==> added[e] == 1 && e.client == c && Is(records', c, e.group, Ready)
    requires forall x, g :: Is(records, x, g, Ready) ==> Is(records', x, g, Ready)
    ensures Entitled(heap + added, records')
  {
    hide Is;
    ReadyHere(heap, records);
    forall e | e in added ensures e !in heap { }
  }

  lemma OnePerGroupJoin(heap: multiset<ReadyExec>, added: multiset<ReadyExec>, records: map<ClientId, Record>,
                        c: ClientId)
    requires Entitled(heap, records) && OnePerGroup(heap) && c !in records
    requires forall e :: e in added ==> e.client == c
    requires forall e1, e2 :: e1 in added && e2 in added && e1.group == e2.group ==> e1 == e2
    ensures OnePerGroup(heap + added)
  {
    hide Is;
    ReadyHere(heap, records);
  }

  lemma AllQueuedJoin(heap: multiset<ReadyExec>, added: multiset<ReadyExec>,
                      records: map<ClientId, Record>, records': map<ClientId, Record>, c: ClientId)
    requires AllQueued(heap, records)
    requires forall x, g :: Is(records', x, g, Ready) ==> if x == c then Queued(added, c, g) else Is(records, x, g, Ready)
    ensures AllQueued(heap + added, records')
  {
    hide Is;
    forall x, g | Is(records', x, g, Ready) ensures Queued(heap + added, x, g) {
      var part := if x == c then added else heap;
      assert Queued(part, x, g);
      var e :| e in part && e.client == x && e.group == g;
      assert e in heap + added;
    }
  }

  lemma WorkforceNewClient(workers: map<WorkerId, Option<Job>>, records: map<ClientId, Record>, seen: set<ClientId>,
                           c: ClientId, r: Record)
    requires Workforce(workers, records) && JobsSeen(workers, seen) && c !in seen
    requires forall g :: g in r.status ==> r.status[g] != Running
    ensures Workforce(workers, records[c := r])
  {
    hide Assigned;
    var records' := records[c := r];
    assert forall x, g :: Is(records', x, g, Running) ==> x != c && Is(records, x, g, Running);
    forall w | w in workers && workers[w].Some? && workers[w].value.client in records'
      ensures Is(records', workers[w].value.client, workers[w].value.group, Running)
    {
      assert workers[w].value.client != c;
      assert Is(records, workers[w].value.client, workers[w].value.group, Running);
    }
  }

  lemma SilentSoFar(outbox: seq<Message>, seen: set<ClientId>, c: ClientId, g: GroupId)
    requires Addressed(outbox, seen) && c !in seen
    ensures PhaseOf(outbox, c, g) == Idle
  {
    if outbox != [] {
      SilentSoFar(outbox[..|outbox| - 1], seen, c, g);
    }
  }

  lemma HistoryNewClient(outbox: seq<Message>, clients: map<ClientId, ClientData>, records: map<ClientId, Record>,
                         seen: set<ClientId>,
                         c: ClientId, d: ClientData, r: Record)
    requires History(outbox, clients, records, seen) && c !in seen
    requires r.announced == map[] && forall g :: g in r.status ==> r.status[g] == Ready || r.status[g] == Waiting
    ensures History(outbox, clients[c := d], records[c := r], seen + {c})
  {
    hide TrueOf, FileSent, PhaseOf;
    forall g ensures PhaseOf(outbox, c, g) == Idle { SilentSoFar(outbox, seen, c, g); }
    assert Told(outbox, clients[c := d], records[c := r]);
    assert Truthful(outbox, clients[c := d], records[c := r]);
  }

  /** `handle_evaluate_dag`: the scheduling data of a new client. */
  lemma StepAddClient(s: State, s': State, c: ClientId, d: ClientData, added: multiset<ReadyExec>)
    requires Inv(s) && Settled(s) && c !in s.seen
    requires ValidDag(d.dag, d.callbacks) && (forall g :: g in d.dag.groups ==> d.dag.groups[g].uuid == g)
    requires FreshClient(d) && Entries(added, c, d)
    requires s' == s.(clients := s.clients[c := d], records := s.records[c := FreshRecord(d.dag)],
                      heap := s.heap + added, seen := s.seen + {c})
    ensures Inv(s') && Settled(s')
  {
    hide History, Outcomes, Queue, Workforce, ClientInv, FreshClient, Entries, ValidDag;
    var r := FreshRecord(d.dag);
    FreshClientInv(d);
    QueueNewClient(s.heap, s.records, c, d, added);
    FreshStatuses(d.dag);
    WorkforceNewClient(s.workers, s.records, s.seen, c, r);
    HistoryNewClient(s.outbox, s.clients, s.records, s.seen, c, d, r);
    OutcomesElsewhere(s.records, s'.records);
    PrioritiesNewClient(s.heap, s.clients, c, d, added, s.records);
    SettledNewClient(s, s', c, d, r);
  }

  lemma FreshStatuses(dag: DagData)
    ensures forall g :: g in FreshRecord(dag).status ==>
      FreshRecord(dag).status[g] == Ready || FreshRecord(dag).status[g] == Waiting
  {
    hide Deps;
  }

  lemma PrioritiesNewClient(heap: multiset<ReadyExec>, clients: map<ClientId, ClientData>, c: ClientId, d: ClientData,
                            added: multiset<ReadyExec>, records: map<ClientId, Record>)
    requires Prioritised(heap, clients) && Queue(heap, records) && c !in records && Entries(added, c, d)
    ensures Prioritised(heap + added, clients[c := d])
  {
    hide Queued;
    ReadyHere(heap, records);
  }

  lemma SettledNewClient(s: State, s': State, c: ClientId, d: ClientData, r: Record)
    requires Settled(s) && s'.records == s.records[c := r] && s'.clients == s.clients[c := d] && ValidDag(d.dag, d.callbacks)
    requires forall g :: g in r.status ==> r.status[g] == Ready || r.status[g] == Waiting
    ensures Settled(s')
  {
    hide ValidDag;
    assert forall x, g, st :: x != c ==> (Is(s'.records, x, g, st) <==> Is(s.records, x, g, st));
    assert forall x, f :: Owed(s', x, f) ==> Owed(s, x, f);
  }
}
