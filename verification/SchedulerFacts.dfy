/** What the handlers of the scheduler read off its invariant.
    Source: task-maker-exec/src/scheduler.rs. */
module SchedulerFacts {
  import opened Dag
  import opened SchedulerState
  import opened SchedulerHistory
  import opened SchedulerSteps

  // ---------------------------------------------------------------- reading the invariant

  lemma OneClient(s: State, c: ClientId)
    requires Inv(s) && c in s.clients
    ensures c in s.records && c in s.seen && ClientInv(s.clients[c], s.records[c])
    ensures s.records[c].status.Keys == s.clients[c].dag.groups.Keys
  {
    hide Queue, Prioritised, Workforce, History, Outcomes, JobsSeen, Static, Sound, Files;
  }

  /** Whoever misses a file is listed among its readers. */
  lemma ReadersOf(s: State, c: ClientId, f: FileId)
    requires Inv(s) && c in s.clients
    ensures forall g :: g in s.clients[c].missing && f in s.clients[c].missing[g] ==>
      f in s.clients[c].inputOf && g in s.clients[c].inputOf[f]
  {
    hide Inv, ProducerMap, Outs, Deps, Files, Good, Bad;
    OneClient(s, c);
    var d, r := s.clients[c], s.records[c];
    forall g | g in d.missing && f in d.missing[g] ensures f in d.inputOf && g in d.inputOf[f] {
      assert WaitingGroup(d, r, g);
    }
  }

  /** A listed reader is a group of the DAG, under its own name, and reads the file. */
  lemma Reader(s: State, c: ClientId, f: FileId, g: GroupId)
    requires Inv(s) && c in s.clients && f in s.clients[c].inputOf && g in s.clients[c].inputOf[f]
    ensures var d := s.clients[c];
      g in d.dag.groups && d.dag.groups[g].uuid == g && f in Deps(d.dag.groups[g])
  {
    hide Inv, ProducerMap, Outs, Deps, Files, Sound, Tables;
    OneClient(s, c);
  }

  lemma MissesSomething(s: State, c: ClientId, g: GroupId)
    requires Inv(s) && c in s.clients && g in s.clients[c].missing
    ensures s.clients[c].missing[g] != {} && c in s.records && Is(s.records, c, g, Waiting)
  {
    hide Inv, Static, Outs, Deps, Files, Good, Bad;
    OneClient(s, c);
    assert WaitingGroup(s.clients[c], s.records[c], g);
  }

  /** The outputs of a group are the files it is the producer of. */
  lemma OutputsAre(s: State, c: ClientId, g: GroupId, f: FileId)
    requires Inv(s) && c in s.clients && g in s.clients[c].dag.groups
    ensures c in s.records && (f in Outs(s.clients[c].dag.groups[g]) <==> f in s.records[c].producer && s.records[c].producer[f] == g)
  {
    hide Inv, InputTable, Outs, Deps, Files, Sound, Tables;
    OneClient(s, c);
  }

  /** Every dependency of a group that is ready, running or completing has a handle. */
  lemma InputsPresent(s: State, c: ClientId, g: GroupId)
    requires Inv(s) && c in s.clients && c in s.records && g in s.records[c].status
    requires s.records[c].status[g] != Waiting && s.records[c].status[g] != Skipped
    ensures g in s.clients[c].dag.groups && s.clients[c].dag.groups[g].uuid == g
    ensures Deps(s.clients[c].dag.groups[g]) <= s.clients[c].handles.Keys
  {
    hide Inv, ProducerMap, InputTable, Outs, Deps, Files, WaitingGroup, HasBadInput;
    OneClient(s, c);
    var d, r := s.clients[c], s.records[c];
    assert HasInputs(d, r, g);
  }

  lemma QueuedInputs(s: State, e: ReadyExec)
    requires Inv(s) && e in s.heap
    ensures e.client in s.clients && e.group in s.clients[e.client].dag.groups
    ensures s.clients[e.client].dag.groups[e.group].uuid == e.group
    ensures Deps(s.clients[e.client].dag.groups[e.group]) <= s.clients[e.client].handles.Keys
    ensures e.client in s.records && Is(s.records, e.client, e.group, Ready)
  {
    hide Inv, Is;
    ReadyEntry(s, e);
    InputsPresent(s, e.client, e.group);
  }

  lemma CompletingInputs(s: State, c: ClientId, g: GroupId)
    requires Inv(s) && c in s.clients && Is(s.records, c, g, Completing)
    ensures g in s.clients[c].dag.groups && Deps(s.clients[c].dag.groups[g]) <= s.clients[c].handles.Keys
  {
    hide Inv, Deps;
    InputsPresent(s, c, g);
  }

  lemma DoneIsFinal(s: State, c: ClientId)
    requires Inv(s) && Settled(s) && c in s.clients && s.clients[c].IsDone()
    ensures c in s.records && TrueOf(EvaluationDone, s.clients[c], s.records[c])
    ensures forall g :: g in s.clients[c].dag.groups ==> g in s.records[c].status && s.records[c].status[g].Final()
  {
    hide Inv, Settled, Static, Sound, Files, Tables, Good, Bad;
    OneClient(s, c);
    NothingCompleting(s, c);
    TablesDone(s.clients[c], s.records[c]);
  }

  lemma NothingCompleting(s: State, c: ClientId)
    requires Settled(s) && c in s.records
    ensures forall g :: g in s.records[c].status ==> s.records[c].status[g] != Completing
  {
    hide Owed;
    forall g | g in s.records[c].status ensures s.records[c].status[g] != Completing {
      assert !Is(s.records, c, g, Completing);
    }
  }

  lemma TablesDone(d: ClientData, r: Record)
    requires Tables(d, r) && d.IsDone()
    requires forall g :: g in r.status ==> r.status[g] != Completing
    ensures forall g :: g in r.status ==> r.status[g].Final()
    ensures TrueOf(EvaluationDone, d, r)
  {
    forall g | g in r.status ensures r.status[g].Final() {
      assert g !in d.missing && g !in d.ready && g !in d.running;
    }
  }

  // The group a worker is busy with, for a client that is still there.
  lemma BusyWorker(s: State, w: WorkerId)
    requires Inv(s) && w in s.workers && s.workers[w].Some? && s.workers[w].value.client in s.clients
    ensures var j := s.workers[w].value;
      && j.client in s.records && j.group in s.records[j.client].status && s.records[j.client].status[j.group] == Running
      && j.group in s.clients[j.client].dag.groups && s.clients[j.client].dag.groups[j.group].uuid == j.group
      && j.group in s.clients[j.client].running
  {
    hide ClientInvs, Queue, Prioritised, Workforce, History, Outcomes, JobsSeen;
    assert s.workers[w].value.client in s.records;
    RunningEntry(s, w);
    InputsPresent(s, s.workers[w].value.client, s.workers[w].value.group);
  }

  // ---------------------------------------------------------------- what stays

  /** The outputs of a group that has just completed are what it made of them. */
  lemma CompletedOutputs(s: State, c: ClientId, g: GroupId, outs: seq<FileId>)
    requires Inv(s) && c in s.clients && g in s.clients[c].dag.groups
    requires forall x :: x in outs <==> x in Outs(s.clients[c].dag.groups[g])
    ensures Is(s.records, c, g, Succeeded) ==> AllGood(s, c, outs)
    ensures Is(s.records, c, g, Failed) ==> AllBad(s, c, outs)
    ensures forall x, owing :: owing == {Job(c, g)} && OwedBy(s, c, x, owing) ==> x in outs
  {
    hide Inv, Outs, Static, Sound, Tables;
    OneClient(s, c);
    forall x ensures x in outs <==> x in s.records[c].producer && s.records[c].producer[x] == g { OutputsAre(s, c, g, x); }
  }

  ghost predicate AllBad(s: State, c: ClientId, files: seq<FileId>) {
    c in s.clients && c in s.records && forall f :: f in files ==> Bad(s.records[c], f)
  }

  ghost predicate AllGood(s: State, c: ClientId, files: seq<FileId>) {
    c in s.clients && c in s.records && forall f :: f in files ==> Good(s.clients[c], s.records[c], f)
  }

  // The outcome of the file is settled, and what came with results is what the client has.
  ghost predicate Held(d: ClientData, r: Record, f: FileId) {
    SettledFile(r, f) && (CameWith(r, f) ==> f in d.handles && Received(r, f, d.handles[f]))
  }

  ghost predicate AllHeld(s: State, c: ClientId, files: seq<FileId>) {
    c in s.clients && c in s.records && forall f :: f in files ==> Held(s.clients[c], s.records[c], f)
  }

  lemma HeldStays(s: State, s': State, owing: set<Job>, c: ClientId, f: FileId)
    requires Evolves(s, s', {}, owing) && c in s.clients && c in s.records && Held(s.clients[c], s.records[c], f)
    ensures c in s'.clients && c in s'.records && Held(s'.clients[c], s'.records[c], f)
  {
    hide Owed, OwedBy;
    assert ClientEvolves(s.clients[c], s.records[c], s'.clients[c], s'.records[c]);
    assert StatusesMove(c, s.records[c], s'.records[c], {});
    if f in s.records[c].producer { assert SameReport(s.records[c], s'.records[c], s.records[c].producer[f]); }
  }

  lemma AllHeldStays(s: State, s': State, owing: set<Job>, c: ClientId, files: seq<FileId>)
    requires Evolves(s, s', {}, owing) && AllHeld(s, c, files)
    ensures AllHeld(s', c, files)
  {
    hide Evolves, Held;
    ClientStays(s, s', {}, owing, c);
    forall f | f in files ensures Held(s'.clients[c], s'.records[c], f) { HeldStays(s, s', owing, c, f); }
  }

  // A file that came with nobody's results has nothing to agree with.
  lemma HeldWithoutResults(s: State, c: ClientId, f: FileId)
    requires Inv(s) && c in s.clients && c in s.records
    requires f in s.clients[c].dag.providedFiles ||
      (f in s.records[c].producer && Is(s.records, c, s.records[c].producer[f], Skipped))
    ensures Held(s.clients[c], s.records[c], f)
  {
    hide Inv, Tables, Sound, Files, InputTable, Outs;
    OneClient(s, c);
  }

  // The readers of the files know.
  ghost predicate Knows(s: State, c: ClientId, f: FileId) {
    c in s.records && f in s.records[c].announced
  }

  lemma AllBadStays(s: State, s': State, done: set<Job>, owing: set<Job>, c: ClientId, files: seq<FileId>)
    requires Evolves(s, s', done, owing) && AllBad(s, c, files)
    ensures AllBad(s', c, files)
  {
    hide Evolves, Bad;
    ClientStays(s, s', done, owing, c);
    forall f | f in files ensures Bad(s'.records[c], f) { BadStays(s, s', done, owing, c, f); }
  }

  lemma AllGoodStays(s: State, s': State, done: set<Job>, owing: set<Job>, c: ClientId, files: seq<FileId>)
    requires Evolves(s, s', done, owing) && AllGood(s, c, files)
    ensures AllGood(s', c, files)
  {
    hide Evolves, Good;
    ClientStays(s, s', done, owing, c);
    forall f | f in files ensures Good(s'.clients[c], s'.records[c], f) { GoodStays(s, s', done, owing, c, f); }
  }

  lemma KnowsStays(s: State, s': State, done: set<Job>, owing: set<Job>, c: ClientId, f: FileId)
    requires Evolves(s, s', done, owing) && Knows(s, c, f)
    ensures Knows(s', c, f)
  {
    hide Owed, OwedBy, StatusesMove;
    assert ClientEvolves(s.clients[c], s.records[c], s'.clients[c], s'.records[c]);
  }

  lemma StaysItself(s: State)
    requires Inv(s)
    ensures Evolves(s, s, {}, {}) && s.clients.Keys == s.records.Keys
  {
    hide ClientInvs, Queue, Prioritised, Workforce, History, Outcomes, JobsSeen, Evolves;
    EvolvesRefl(s);
  }

  lemma BadStays(s: State, s': State, done: set<Job>, owing: set<Job>, c: ClientId, f: FileId)
    requires Evolves(s, s', done, owing) && c in s.clients && c in s.records && Bad(s.records[c], f)
    ensures c in s'.clients && c in s'.records && Bad(s'.records[c], f)
  {
    hide Owed, OwedBy;
    assert ClientEvolves(s.clients[c], s.records[c], s'.clients[c], s'.records[c]);
    assert StatusesMove(c, s.records[c], s'.records[c], done);
  }

  lemma GoodStays(s: State, s': State, done: set<Job>, owing: set<Job>, c: ClientId, f: FileId)
    requires Evolves(s, s', done, owing) && c in s.clients && c in s.records && Good(s.clients[c], s.records[c], f)
    ensures c in s'.clients && c in s'.records && Good(s'.clients[c], s'.records[c], f)
  {
    hide Owed, OwedBy;
    assert ClientEvolves(s.clients[c], s.records[c], s'.clients[c], s'.records[c]);
    assert StatusesMove(c, s.records[c], s'.records[c], done);
  }

  lemma EvolvesOwing(a: State, b: State, c: State, owing1: set<Job>, owing2: set<Job>)
    requires Evolves(a, b, {}, owing1) && Evolves(b, c, {}, owing2)
    ensures Evolves(a, c, {}, owing1 + owing2)
  {
    hide Evolves;
    EvolvesTransitive(a, b, c, {}, owing1, {}, owing2);
    var none: set<Job> := {};
    assert none + none == none;
  }

  lemma ClientStays(s: State, s': State, done: set<Job>, owing: set<Job>, c: ClientId)
    requires Evolves(s, s', done, owing) && c in s.clients
    ensures c in s.records && c in s'.clients && c in s'.records
    ensures ClientEvolves(s.clients[c], s.records[c], s'.clients[c], s'.records[c])
    ensures forall f :: f in s.records[c].announced ==> f in s'.records[c].announced
  {
    hide Owed, OwedBy, StatusesMove;
  }

  lemma OwedByStays(s: State, s': State, done: set<Job>, owing0: set<Job>, c: ClientId, f: FileId, owing: set<Job>)
    requires Evolves(s, s', done, owing0) && c in s.clients
    ensures OwedBy(s, c, f, owing) <==> OwedBy(s', c, f, owing)
  {
    hide Evolves;
    ClientStays(s, s', done, owing0, c);
  }

  // A pending completion that is not the one being dealt with is still pending.
  lemma PendingStays(s: State, s': State, done: set<Job>, owing: set<Job>, c: ClientId, g: GroupId)
    requires Evolves(s, s', done, owing) && Is(s.records, c, g, Completing) && Job(c, g) !in done
    ensures Is(s'.records, c, g, Completing)
  {
    hide Owed, OwedBy, ClientEvolves;
    assert StatusesMove(c, s.records[c], s'.records[c], done);
  }

  // ---------------------------------------------------------------- from one message to the next

  ghost predicate FinalsKept(r: Record, r': Record) {
    forall g :: g in r.status && r.status[g].Final() ==> SameReport(r, r', g)
  }

  /** What any number of messages keep: a client that left does not come back,
      one that stays keeps its DAG, its files, what was announced and every
      outcome; nothing that was said is taken back. */
  ghost predicate Continues(s: State, s': State) {
    && s.seen <= s'.seen && s.outbox <= s'.outbox
    && (forall c :: c in s'.clients && c in s.seen ==> c in s.clients)
    && forall c :: c in s.clients && c in s'.clients && c in s.records && c in s'.records ==>
      ClientEvolves(s.clients[c], s.records[c], s'.clients[c], s'.records[c]) && FinalsKept(s.records[c], s'.records[c])
  }

  lemma EvolvesContinues(s: State, s': State, done: set<Job>)
    requires Evolves(s, s', done, {})
    ensures Continues(s, s')
  {
    hide Owed, OwedBy, ClientEvolves, StatusesMove, FinalsKept;
    forall c | c in s.clients && c in s'.clients && c in s.records ensures FinalsKept(s.records[c], s'.records[c]) {
      MovesKeepFinals(c, s.records[c], s'.records[c], done);
    }
  }

  lemma MovesKeepFinals(c: ClientId, r: Record, r': Record, done: set<Job>)
    requires StatusesMove(c, r, r', done)
    ensures FinalsKept(r, r')
  {
  }

  lemma ContinuesTransitive(a: State, b: State, c: State)
    requires Continues(a, b) && Continues(b, c)
    requires a.clients.Keys == a.records.Keys && b.clients.Keys == b.records.Keys && c.clients.Keys == c.records.Keys
    requires a.clients.Keys <= a.seen
    ensures Continues(a, c)
  {
    hide FinalsKept;
    forall x | x in a.clients && x in c.clients
      ensures ClientEvolves(a.clients[x], a.records[x], c.clients[x], c.records[x]) && FinalsKept(a.records[x], c.records[x])
    {
      assert x in b.clients;
      assert ClientEvolves(a.clients[x], a.records[x], b.clients[x], b.records[x]);
      assert ClientEvolves(b.clients[x], b.records[x], c.clients[x], c.records[x]);
      FinalsTransitive(a.records[x], b.records[x], c.records[x]);
    }
  }

  lemma FinalsTransitive(a: Record, b: Record, c: Record)
    requires FinalsKept(a, b) && FinalsKept(b, c)
    ensures FinalsKept(a, c)
  {
  }

  // The status of one unfinished group changes.
  lemma PutContinues(s: State, s': State, c: ClientId, d: ClientData, g: GroupId, status: Status)
    requires Inv(s) && c in s.clients && c in s.records && g in s.records[c].status && !s.records[c].status[g].Final()
    requires s'.clients == s.clients[c := d] && s'.records == Put(s.records, c, g, status)
    requires s'.seen == s.seen && s'.outbox == s.outbox
    requires d == s.clients[c].(ready := d.ready, running := d.running)
    ensures Continues(s, s')
  {
    hide Inv, ClientEvolves, FinalsKept;
    PutKeeps(s.clients[c], s.records[c], d, g, status);
    AllSameKeep(s);
  }

  lemma PutKeeps(d: ClientData, r: Record, d': ClientData, g: GroupId, status: Status)
    requires g in r.status && !r.status[g].Final() && d' == d.(ready := d'.ready, running := d'.running)
    ensures ClientEvolves(d, r, d', SetStatus(r, g, status)) && FinalsKept(r, SetStatus(r, g, status))
  {
  }

  lemma SameKeeps(d: ClientData, r: Record)
    ensures ClientEvolves(d, r, d, r) && FinalsKept(r, r)
  {
  }

  lemma SameContinues(s: State, s': State)
    requires Inv(s) && s'.clients == s.clients && s'.records == s.records && s.seen <= s'.seen && s'.outbox == s.outbox
    ensures Continues(s, s')
  {
    hide Inv, ClientEvolves, FinalsKept;
    AllSameKeep(s);
  }

  lemma AllSameKeep(s: State)
    ensures forall x :: x in s.clients && x in s.records ==>
      ClientEvolves(s.clients[x], s.records[x], s.clients[x], s.records[x]) && FinalsKept(s.records[x], s.records[x])
  {
    hide ClientEvolves, FinalsKept;
    forall x | x in s.clients && x in s.records
      ensures ClientEvolves(s.clients[x], s.records[x], s.clients[x], s.records[x]) && FinalsKept(s.records[x], s.records[x])
    {
      SameKeeps(s.clients[x], s.records[x]);
    }
  }

  lemma AddContinues(s: State, s': State, c: ClientId, d: ClientData, r: Record)
    requires Inv(s) && c !in s.seen && s'.clients == s.clients[c := d] && s'.records == s.records[c := r]
    requires s'.seen == s.seen + {c} && s'.outbox == s.outbox
    ensures Continues(s, s')
  {
    hide ClientInvs, Queue, Prioritised, Workforce, History, Outcomes, JobsSeen, ClientEvolves, FinalsKept;
    AllSameKeep(s);
  }

  lemma RemoveContinues(s: State, s': State, c: ClientId)
    requires Inv(s) && s'.clients == s.clients - {c} && s'.records == s.records - {c} && s'.seen == s.seen && s.outbox <= s'.outbox
    ensures Continues(s, s')
  {
    hide Inv, ClientEvolves, FinalsKept;
    AllSameKeep(s);
  }

  lemma ContinuesThen(a: State, b: State, c: State)
    requires Inv(a) && Inv(b) && Inv(c) && Continues(a, b) && Continues(b, c)
    ensures Continues(a, c)
  {
    hide ClientInvs, Queue, Prioritised, Workforce, History, Outcomes, JobsSeen, Continues;
    ContinuesTransitive(a, b, c);
  }

  /** A uuid is taken, even when nothing comes of it. */
  lemma StepSee(s: State, c: ClientId)
    requires Inv(s)
    ensures Inv(s.(seen := s.seen + {c})) && (Settled(s) ==> Settled(s.(seen := s.seen + {c})))
  {
    hide ClientInvs, Queue, Prioritised, Workforce, Outcomes, Orderly, Told, Truthful, Delivered;
    var s' := s.(seen := s.seen + {c});
    assert forall x, f :: Owed(s', x, f) <==> Owed(s, x, f);
  }

  // Whether anything false was received is nothing the scheduler knows.
  lemma StepJudge(s: State, honest: bool, misled: set<ClientId>)
    requires Inv(s)
    ensures Inv(s.(honest := honest, misled := misled))
    ensures Settled(s) ==> Settled(s.(honest := honest, misled := misled))
  {
    hide ClientInvs, Queue, Prioritised, Workforce, Outcomes, History;
    assert forall x, f :: Owed(s.(honest := honest, misled := misled), x, f) <==> Owed(s, x, f);
  }
}
