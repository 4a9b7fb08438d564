/** Neither the cache nor the schedule shows in the outcome: as long as nothing
    false is received, every finished group is what the executions make of it.
    Source: task-maker-exec/src/scheduler.rs, task-maker-cache/src/lib.rs. */
module Transparency {
  import opened Dag
  import opened CheckDag
  import opened CacheKeys
  import opened CacheEntries
  import opened Caching
  import opened Situations
  import opened Behaviour
  import opened SchedulerState
  import opened SchedulerHistory
  import opened SchedulerSteps
  import opened SchedulerFacts
  import opened SchedulerTheorems

  ghost predicate GroupsFit(w: World, dag: DagData) {
    forall g :: g in dag.groups ==> Expected(w, dag.groups[g]) && WritesOnce(dag.groups[g])
  }

  // There is no output of a group that has no outcome yet.
  ghost predicate NoEarlyOutputs(d: ClientData, r: Record) {
    forall f :: f in d.handles && f in r.producer ==> r.producer[f] in r.status && r.status[r.producer[f]].Final()
  }

  /** Every group that was completed succeeded or failed as it does, and its
      files hold what it writes. */
  ghost predicate OutcomesRight(w: World, d: ClientData, r: Record) {
    forall g :: g in r.status && g in d.dag.groups && (r.status[g] == Succeeded || r.status[g] == Failed) ==>
      Right(w, d.handles, d.dag.groups[g], r.status[g] == Succeeded, d.handles)
  }

  ghost predicate ClientFollows(w: World, d: ClientData, r: Record, trusted: bool) {
    GroupsFit(w, d.dag) && (trusted ==> NoEarlyOutputs(d, r) && OutcomesRight(w, d, r))
  }

  // Clients about which something false was received are left out.
  ghost predicate Follows(w: World, clients: map<ClientId, ClientData>, records: map<ClientId, Record>,
                          misled: set<ClientId>) {
    forall c :: c in clients && c in records ==> ClientFollows(w, clients[c], records[c], c !in misled)
  }

  // ---------------------------------------------------------------- more handles

  lemma KeptInputs(group: ExecutionGroup, a: map<FileId, FileKey>, b: map<FileId, FileKey>)
    requires GroupHasKeys(group, a) && SameHandles(a, b)
    ensures InputsAgree(group, a, b)
  {
    forall f | f in Deps(group) ensures f in a {
      var i :| 0 <= i < |group.executions| && f in group.executions[i].Reads();
      assert HasKeys(group.executions[i], a);
    }
  }

  lemma ContentsStay(w: World, s: Situation, group: ExecutionGroup, a: map<FileId, FileKey>, b: map<FileId, FileKey>)
    requires Contents(w, s, group, a) && SameHandles(a, b)
    ensures Contents(w, s, group, b)
  {
    hide SlotFile;
  }

  // More handles change nothing.
  lemma RightStays(w: World, a: map<FileId, FileKey>, b: map<FileId, FileKey>, group: ExecutionGroup, ok: bool,
                   outputs: map<FileId, FileKey>, outputs': map<FileId, FileKey>)
    requires Right(w, a, group, ok, outputs) && SameHandles(a, b) && SameHandles(outputs, outputs')
    ensures Right(w, b, group, ok, outputs')
  {
    hide GroupHasKeys, SituationOf, AllSucceed, Contents, LimitsOf, InputsAgree, SameHandles;
    KeptInputs(group, a, b);
    AgreeingInputsSameKey(group, a, b);
    if ok { ContentsStay(w, SituationOf(group, a), group, outputs, outputs'); }
  }

  // ---------------------------------------------------------------- the steps

  lemma FollowsAt(w: World, clients: map<ClientId, ClientData>, records: map<ClientId, Record>, misled: set<ClientId>,
                  c: ClientId, d: ClientData, r: Record)
    requires Follows(w, clients, records, misled) && ClientFollows(w, d, r, c !in misled)
    ensures Follows(w, clients[c := d], records[c := r], misled)
  {
    hide ClientFollows;
  }

  // A group moves on and has no results yet; the files stay where they are.
  lemma FollowsMove(w: World, clients: map<ClientId, ClientData>, records: map<ClientId, Record>, misled:
                    set<ClientId>, c: ClientId, d: ClientData, g: GroupId, before: Status, after: Status)
    requires Follows(w, clients, records, misled) && c in clients && c in records && Is(records, c, g, before)
    requires !before.Final() && after != Succeeded && after != Failed
    requires d.dag == clients[c].dag && d.handles == clients[c].handles
    ensures Follows(w, clients[c := d], Put(records, c, g, after), misled)
  {
    hide Right, GroupsFit;
    assert ClientFollows(w, clients[c], records[c], c !in misled);
    assert ClientFollows(w, d, SetStatus(records[c], g, after), c !in misled);
    FollowsAt(w, clients, records, misled, c, d, SetStatus(records[c], g, after));
  }

  // The tables of a client, and what was announced, say nothing about outcomes.
  lemma FollowsSame(w: World, clients: map<ClientId, ClientData>, records: map<ClientId, Record>, misled:
                    set<ClientId>, c: ClientId, d: ClientData, r: Record)
    requires Follows(w, clients, records, misled) && c in clients && c in records
    requires d.dag == clients[c].dag && d.handles == clients[c].handles
    requires r.status == records[c].status && r.producer == records[c].producer
    ensures Follows(w, clients[c := d], records[c := r], misled)
  {
    hide Right, GroupsFit;
    assert ClientFollows(w, clients[c], records[c], c !in misled);
    FollowsAt(w, clients, records, misled, c, d, r);
  }

  // What a group without an outcome writes is not there.
  lemma OutputsAreNew(w: World, d: ClientData, r: Record, g: GroupId, outputs: map<FileId, FileKey>)
    requires ClientFollows(w, d, r, true) && ProducerMap(d.dag, r.producer)
    requires g in d.dag.groups && g in r.status && !r.status[g].Final() && outputs.Keys <= Outs(d.dag.groups[g])
    ensures outputs.Keys !! d.handles.Keys
    ensures SameHandles(d.handles, d.handles + outputs) && SameHandles(outputs, d.handles + outputs)
    ensures forall f :: f in outputs ==> f in r.producer && r.producer[f] == g
  {
    hide Outs, Right, GroupsFit, OutcomesRight;
  }

  lemma OneFollows(w: World, clients: map<ClientId, ClientData>, records: map<ClientId, Record>, misled:
                   set<ClientId>, c: ClientId)
    requires Follows(w, clients, records, misled) && c in clients && c in records
    ensures ClientFollows(w, clients[c], records[c], c !in misled)
  {
    hide ClientFollows;
  }

  /** A group gets its outcome. */
  lemma FollowsComplete(w: World, clients: map<ClientId, ClientData>, records: map<ClientId, Record>, misled:
                        set<ClientId>, c: ClientId, g: GroupId, d: ClientData, ok: bool, outputs: map<FileId,
                        FileKey>)
    requires Follows(w, clients, records, misled) && c in clients && c in records && Is(records, c, g, Completing)
    requires ProducerMap(clients[c].dag, records[c].producer) && g in clients[c].dag.groups
    requires c !in misled ==> outputs.Keys <= Outs(clients[c].dag.groups[g])
    requires c !in misled ==> Right(w, clients[c].handles, clients[c].dag.groups[g], ok, outputs)
    requires d == clients[c].(handles := clients[c].handles + outputs)
    ensures Follows(w, clients[c := d], Put(records, c, g, if ok then Succeeded else Failed), misled)
    ensures c !in misled ==> SameHandles(clients[c].handles, d.handles)
  {
    hide Right, GroupsFit, ProducerMap, Outs, SameHandles, Follows, NoEarlyOutputs, OutcomesRight;
    var d0, r, status := clients[c], records[c], if ok then Succeeded else Failed;
    OneFollows(w, clients, records, misled, c);
    if c !in misled {
      OutputsAreNew(w, d0, r, g, outputs);
      RightStays(w, d0.handles, d.handles, d.dag.groups[g], ok, outputs, d.handles);
      OutcomesStayRight(w, d0, r, d, g, status);
      NewOutputsAreLate(d0, r, d, g, status, outputs);
    }
    FollowsAt(w, clients, records, misled, c, d, SetStatus(r, g, status));
  }

  lemma OutcomesStayRight(w: World, d: ClientData, r: Record, d': ClientData, g: GroupId, status: Status)
    requires OutcomesRight(w, d, r) && d'.dag == d.dag && SameHandles(d.handles, d'.handles)
    requires g in d.dag.groups && (status == Succeeded || status == Failed)
    requires Right(w, d'.handles, d.dag.groups[g], status == Succeeded, d'.handles)
    ensures OutcomesRight(w, d', SetStatus(r, g, status))
  {
    hide Right, SameHandles;
    var r' := SetStatus(r, g, status);
    forall h | h in r'.status && h in d.dag.groups && (r'.status[h] == Succeeded || r'.status[h] == Failed)
      ensures Right(w, d'.handles, d.dag.groups[h], r'.status[h] == Succeeded, d'.handles)
    {
      if h != g { RightStays(w, d.handles, d'.handles, d.dag.groups[h], r.status[h] == Succeeded, d.handles, d'.handles); }
    }
  }

  lemma NewOutputsAreLate(d: ClientData, r: Record, d': ClientData, g: GroupId, status: Status, outputs: map<FileId, FileKey>)
    requires NoEarlyOutputs(d, r) && d'.handles == d.handles + outputs && status.Final()
    requires forall f :: f in outputs ==> f in r.producer && r.producer[f] == g
    ensures NoEarlyOutputs(d', SetStatus(r, g, status))
  {
  }

  /** A provided file comes. */
  lemma FollowsDeliver(w: World, clients: map<ClientId, ClientData>, records: map<ClientId, Record>, misled:
                       set<ClientId>, c: ClientId, d: ClientData, f: FileId, key: FileKey)
    requires Follows(w, clients, records, misled) && c in clients && c in records
    requires ProducerMap(clients[c].dag, records[c].producer) && f in clients[c].dag.providedFiles
    requires c !in misled && f in clients[c].handles ==> clients[c].handles[f] == key
    requires d == clients[c].(handles := clients[c].handles[f := key])
    ensures Follows(w, clients[c := d], records, misled)
    ensures c !in misled ==> SameHandles(clients[c].handles, d.handles)
  {
    hide Right, GroupsFit, Outs, Follows, OutcomesRight;
    var d0, r := clients[c], records[c];
    OneFollows(w, clients, records, misled, c);
    if c !in misled { HandlesStayRight(w, d0, r, d); }
    FollowsAt(w, clients, records, misled, c, d, r);
    assert records[c := r] == records;
  }

  lemma HandlesStayRight(w: World, d: ClientData, r: Record, d': ClientData)
    requires OutcomesRight(w, d, r) && d'.dag == d.dag && SameHandles(d.handles, d'.handles)
    ensures OutcomesRight(w, d', r)
  {
    hide Right, SameHandles;
    forall h | h in r.status && h in d.dag.groups && (r.status[h] == Succeeded || r.status[h] == Failed)
      ensures Right(w, d'.handles, d.dag.groups[h], r.status[h] == Succeeded, d'.handles)
    {
      RightStays(w, d.handles, d'.handles, d.dag.groups[h], r.status[h] == Succeeded, d.handles, d'.handles);
    }
  }

  /** A new client. */
  lemma FollowsNew(w: World, clients: map<ClientId, ClientData>, records: map<ClientId, Record>, misled:
                   set<ClientId>, c: ClientId, d: ClientData)
    requires Follows(w, clients, records, misled) && FreshClient(d) && UniqueFiles(d.dag)
    requires forall g :: g in d.dag.groups ==> Expected(w, d.dag.groups[g])
    ensures Follows(w, clients[c := d], records[c := FreshRecord(d.dag)], misled)
  {
    hide Right, Outs, Follows, FreshRecord;
    FreshStatuses(d.dag);
    FollowsAt(w, clients, records, misled, c, d, FreshRecord(d.dag));
  }

  lemma FollowsLeft(w: World, clients: map<ClientId, ClientData>, records: map<ClientId, Record>, misled:
                    set<ClientId>, c: ClientId)
    requires Follows(w, clients, records, misled)
    ensures Follows(w, clients - {c}, records - {c}, misled)
  {
    hide ClientFollows;
  }

  // There are more clients about which something false was received.
  lemma FollowsFewer(w: World, clients: map<ClientId, ClientData>, records: map<ClientId, Record>, misled: set<ClientId>,
                     misled': set<ClientId>)
    requires Follows(w, clients, records, misled) && misled <= misled'
    ensures Follows(w, clients, records, misled')
  {
    hide GroupsFit, NoEarlyOutputs, OutcomesRight;
  }

  // ---------------------------------------------------------------- two evaluations of one DAG

  // Two clients, of any two schedulers, that evaluate the same groups on the
  // same files. Priorities and the use of the cache may differ.
  ghost predicate SameQuestion(d: ClientData, d': ClientData) {
    && d'.dag.groups == d.dag.groups && d'.dag.providedFiles == d.dag.providedFiles
    && forall f :: f in d.dag.providedFiles && f in d.handles && f in d'.handles ==> d'.handles[f] == d.handles[f]
  }

  // If the group is finished in both, it ended in the same way and wrote the same.
  ghost predicate Alike(d: ClientData, r: Record, d': ClientData, r': Record, g: GroupId) {
    g in d.dag.groups && g in r.status && g in r'.status && r.status[g].Final() && r'.status[g].Final() ==>
      r'.status[g] == r.status[g] && (r.status[g] == Succeeded ==> SameOutputs(d.dag.groups[g], d.handles, d'.handles))
  }

  ghost predicate SameOutputs(group: ExecutionGroup, a: map<FileId, FileKey>, b: map<FileId, FileKey>) {
    forall f :: f in Outs(group) ==> f in a && f in b && a[f] == b[f]
  }

  // The state of an evaluation between messages, when nothing false was received.
  ghost predicate Sane(w: World, s: State, c: ClientId) {
    Inv(s) && Settled(s) && Follows(w, s.clients, s.records, s.misled) && c !in s.misled && c in s.clients && c in s.records
  }

  ghost predicate ProducersAlike(s: State, c: ClientId, s': State, c': ClientId, g: GroupId)
    requires c in s.clients && c in s.records && c' in s'.clients && c' in s'.records && g in s.clients[c].dag.groups
  {
    forall f, h :: f in Deps(s.clients[c].dag.groups[g]) && h in s.clients[c].dag.groups && f in Outs(s.clients[c].dag.groups[h]) ==>
      Alike(s.clients[c], s.records[c], s'.clients[c'], s'.records[c'], h)
  }

  lemma SkippedInBoth(s: State, c: ClientId, s': State, c': ClientId, g: GroupId)
    requires Inv(s) && Settled(s) && c in s.clients && c in s.records && Is(s.records, c, g, Skipped)
    requires Inv(s') && Settled(s') && c' in s'.clients && c' in s'.records && SameQuestion(s.clients[c], s'.clients[c'])
    requires g in s.clients[c].dag.groups && g in s'.records[c'].status && s'.records[c'].status[g].Final()
    requires ProducersAlike(s, c, s', c', g)
    ensures s'.records[c'].status[g] == Skipped
  {
    hide Inv, Settled, Deps, Outs, SameOutputs;
    SkippedExactly(s, c, g);
    var f, h :| SpoiledBy(s, c, g, f, h);
    assert Alike(s.clients[c], s.records[c], s'.clients[c'], s'.records[c'], h);
    if s'.records[c'].status[g] != Skipped {
      GoodInput(s', c', g, f, h);
    }
  }

  lemma InputsAgreeInBoth(s: State, c: ClientId, s': State, c': ClientId, g: GroupId)
    requires Inv(s) && c in s.clients && c in s.records && (Is(s.records, c, g, Succeeded) || Is(s.records, c, g, Failed))
    requires Inv(s') && c' in s'.clients && c' in s'.records
    requires Is(s'.records, c', g, Succeeded) || Is(s'.records, c', g, Failed)
    requires SameQuestion(s.clients[c], s'.clients[c']) && g in s.clients[c].dag.groups && ProducersAlike(s, c, s', c', g)
    ensures InputsAgree(s.clients[c].dag.groups[g], s.clients[c].handles, s'.clients[c'].handles)
  {
    hide Inv, Deps, Outs;
    var d, d' := s.clients[c], s'.clients[c'];
    forall f | f in Deps(d.dag.groups[g]) ensures f in d.handles && f in d'.handles && d.handles[f] == d'.handles[f] {
      UsedInput(s, c, g, f);
      UsedInput(s', c', g, f);
      if f !in d.dag.providedFiles {
        var h := s.records[c].producer[f];
        OutputsAre(s, c, h, f);
        GoodInput(s, c, g, f, h);
        GoodInput(s', c', g, f, h);
        assert Alike(d, s.records[c], d', s'.records[c'], h);
      }
    }
  }

  // A group that was completed has used each of its inputs: a provided file, or the output of another group.
  lemma UsedInput(s: State, c: ClientId, g: GroupId, f: FileId)
    requires Inv(s) && c in s.clients && c in s.records && (Is(s.records, c, g, Succeeded) || Is(s.records, c, g, Failed))
    requires g in s.clients[c].dag.groups && f in Deps(s.clients[c].dag.groups[g])
    ensures f in s.clients[c].handles
    ensures f !in s.clients[c].dag.providedFiles ==> f in s.records[c].producer && s.records[c].producer[f] in s.clients[c].dag.groups
  {
    hide Inv, Deps, Outs, WaitingGroup, HasBadInput, Files;
    OneClient(s, c);
    assert HasInputs(s.clients[c], s.records[c], g);
    assert Good(s.clients[c], s.records[c], f);
  }

  lemma OutsAreSlots(group: ExecutionGroup, f: FileId)
    requires f in Outs(group)
    ensures exists i, slot :: 0 <= i < |group.executions| && SlotFile(group.executions[i], slot) == Some(f)
  {
    var i :| 0 <= i < |group.executions| && f in group.executions[i].Writes();
    var e := group.executions[i];
    if p :| p in e.outputFiles && e.outputFiles[p] == f {
      assert SlotFile(e, At(p)) == Some(f);
    } else if e.stdout.Capture? && e.stdout.file == f {
      assert SlotFile(e, Stdout) == Some(f);
    } else {
      assert SlotFile(e, Stderr) == Some(f);
    }
  }

  // Two runs of a group on the same inputs.
  lemma SameRun(w: World, group: ExecutionGroup, a: map<FileId, FileKey>, b: map<FileId, FileKey>, ok: bool, ok': bool)
    requires Right(w, a, group, ok, a) && Right(w, b, group, ok', b) && InputsAgree(group, a, b)
    ensures ok' == ok && (ok ==> SameOutputs(group, a, b))
  {
    hide SituationOf, GroupHasKeys, AllSucceed, LimitsOf, InputsAgree, SlotFile, Outs;
    AgreeingInputsSameKey(group, a, b);
    if ok {
      forall f | f in Outs(group) ensures f in a && f in b && a[f] == b[f] {
        OutsAreSlots(group, f);
        var i, slot :| 0 <= i < |group.executions| && SlotFile(group.executions[i], slot) == Some(f);
      }
    }
  }

  lemma GroupAlike(w: World, s: State, c: ClientId, s': State, c': ClientId, g: GroupId)
    requires Sane(w, s, c) && Sane(w, s', c') && SameQuestion(s.clients[c], s'.clients[c'])
    requires g in s.clients[c].dag.groups && ProducersAlike(s, c, s', c', g) && ProducersAlike(s', c', s, c, g)
    ensures Alike(s.clients[c], s.records[c], s'.clients[c'], s'.records[c'], g)
  {
    hide Inv, Settled, Follows, Right, SameOutputs, ProducersAlike, SameQuestion, GroupsFit, NoEarlyOutputs;
    var d, r, d', r' := s.clients[c], s.records[c], s'.clients[c'], s'.records[c'];
    OneFollows(w, s.clients, s.records, s.misled, c);
    OneFollows(w, s'.clients, s'.records, s'.misled, c');
    AskedInReturn(d, d');
    if g in r.status && g in r'.status && r.status[g].Final() && r'.status[g].Final() {
      if r.status[g] == Skipped {
        SkippedInBoth(s, c, s', c', g);
      } else if r'.status[g] == Skipped {
        SkippedInBoth(s', c', s, c, g);
      } else {
        InputsAgreeInBoth(s, c, s', c', g);
        SameRun(w, d.dag.groups[g], d.handles, d'.handles, r.status[g] == Succeeded, r'.status[g] == Succeeded);
      }
    }
  }

  lemma AskedInReturn(d: ClientData, d': ClientData)
    requires SameQuestion(d, d')
    ensures SameQuestion(d', d) && d'.dag.groups == d.dag.groups
  {
  }

  // By induction along the order.
  lemma {:induction false} AllAlike(w: World, s: State, c: ClientId, s': State, c': ClientId, order: seq<GroupId>, n: nat)
    requires Sane(w, s, c) && Sane(w, s', c') && SameQuestion(s.clients[c], s'.clients[c'])
    requires TopologicalOrder(s.clients[c].dag, order) && n <= |order|
    ensures forall g :: g in order[..n] ==> Alike(s.clients[c], s.records[c], s'.clients[c'], s'.records[c'], g)
  {
    hide Inv, Settled, Follows, TopologicalOrder, InOrder, Alike, Deps, Outs;
    InTheOrder(s.clients[c].dag, order);
    if n == 0 {
    } else {
      AllAlike(w, s, c, s', c', order, n - 1);
      var g := order[n - 1];
      assert g in s.clients[c].dag.groups;
      forall f, h | f in Deps(s.clients[c].dag.groups[g]) && h in s.clients[c].dag.groups && f in Outs(s.clients[c].dag.groups[h])
        ensures Alike(s.clients[c], s.records[c], s'.clients[c'], s'.records[c'], h)
        ensures Alike(s'.clients[c'], s'.records[c'], s.clients[c], s.records[c], h)
      {
        EarlierProducer(s, c, order, n - 1, f, h);
        AlikeInReturn(s.clients[c], s.records[c], s'.clients[c'], s'.records[c'], h);
      }
      GroupAlike(w, s, c, s', c', g);
      assert order[..n] == order[..n - 1] + [g];
    }
  }

  lemma AlikeInReturn(d: ClientData, r: Record, d': ClientData, r': Record, g: GroupId)
    requires Alike(d, r, d', r', g) && d'.dag.groups == d.dag.groups
    ensures Alike(d', r', d, r, g)
  {
    hide Outs;
  }

  /** Neither the cache nor the schedule shows. Take two evaluations of the same
      groups on the same files, by any two schedulers, at any time between two
      messages: with other clients or none, with caches that hold what they may,
      used or not, with the messages in any order. As long as nothing false was
      received, a group that is finished in both ended in the same way, and if
      it succeeded its files are the same. */
  lemma OneOutcome(w: World, s: State, c: ClientId, s': State, c': ClientId)
    requires Sane(w, s, c) && Sane(w, s', c') && SameQuestion(s.clients[c], s'.clients[c'])
    ensures forall g :: g in s.clients[c].dag.groups ==> Alike(s.clients[c], s.records[c], s'.clients[c'], s'.records[c'], g)
    ensures s.clients[c].IsDone() && s'.clients[c'].IsDone() ==> s'.records[c'].status == s.records[c].status
  {
    hide Inv, Settled, Follows, TopologicalOrder, Alike;
    var order := SomeOrder(s, c);
    InTheOrder(s.clients[c].dag, order);
    AllAlike(w, s, c, s', c', order, |order|);
    if s.clients[c].IsDone() && s'.clients[c'].IsDone() {
      DoneAlike(s, c, s', c');
    }
  }

  lemma SomeOrder(s: State, c: ClientId) returns (order: seq<GroupId>)
    requires Settled(s) && c in s.clients
    ensures TopologicalOrder(s.clients[c].dag, order)
  {
    hide TopologicalOrder, SoundParts, CallbacksKnown, Owed;
    assert ValidDag(s.clients[c].dag, s.clients[c].callbacks);
    order :| TopologicalOrder(s.clients[c].dag, order);
  }

  lemma DoneAlike(s: State, c: ClientId, s': State, c': ClientId)
    requires Inv(s) && Settled(s) && c in s.clients && c in s.records && s.clients[c].IsDone()
    requires Inv(s') && Settled(s') && c' in s'.clients && c' in s'.records && s'.clients[c'].IsDone()
    requires s'.clients[c'].dag.groups == s.clients[c].dag.groups
    requires forall g :: g in s.clients[c].dag.groups ==> Alike(s.clients[c], s.records[c], s'.clients[c'], s'.records[c'], g)
    ensures s'.records[c'].status == s.records[c].status
  {
    hide Inv, Settled, SameOutputs;
    OneClient(s, c);
    OneClient(s', c');
    DoneIsFinal(s, c);
    DoneIsFinal(s', c');
    hide ClientInv, TrueOf;
    forall g | g in s.records[c].status ensures g in s'.records[c'].status && s'.records[c'].status[g] == s.records[c].status[g] {
      assert Alike(s.clients[c], s.records[c], s'.clients[c'], s'.records[c'], g);
    }
  }

  // ---------------------------------------------------------------- one evaluation, and the reference

  // Whether the group succeeds on the files that are there.
  ghost predicate Succeeds(w: World, d: ClientData, g: GroupId) {
    g in d.dag.groups && GroupHasKeys(d.dag.groups[g], d.handles)
      && AllSucceed(w, SituationOf(d.dag.groups[g], d.handles), LimitsOf(d.dag.groups[g]))
  }

  ghost function Successes(w: World, d: ClientData): GroupId -> bool {
    (g: GroupId) => Succeeds(w, d, g)
  }

  /** What makes `ScheduleIndependence` apply: the results that groups completed
      with, from a worker or from the cache, are those of the executions. So
      every finished group is what evaluating the groups one after the other,
      without any cache, makes of it. */
  lemma AsEvaluatedInOrder(w: World, s: State, c: ClientId, order: seq<GroupId>)
    requires Sane(w, s, c) && TopologicalOrder(s.clients[c].dag, order)
    ensures forall g :: g in order ==> g in s.clients[c].dag.groups
    ensures var all := Sequential(s.clients[c].dag, order, |order|, Successes(w, s.clients[c]));
      forall g :: g in s.records[c].status && s.records[c].status[g].Final() ==> g in all && all[g] == s.records[c].status[g]
  {
    hide Inv, Settled, Follows, TopologicalOrder, Sequential, Succeeds, AllSuccess;
    InTheOrder(s.clients[c].dag, order);
    var ok := Successes(w, s.clients[c]);
    forall g: GroupId | (Is(s.records, c, g, Succeeded) || Is(s.records, c, g, Failed)) && g in s.records[c].reports
      ensures AllSuccess(s.records[c].reports[g].results) <==> ok(g)
    {
      CompletedRight(w, s, c, g);
    }
    assert Agree(s, c, ok);
    ScheduleIndependence(s, c, order, ok);
  }

  lemma CompletedRight(w: World, s: State, c: ClientId, g: GroupId)
    requires Sane(w, s, c) && (Is(s.records, c, g, Succeeded) || Is(s.records, c, g, Failed))
    ensures g in s.records[c].reports && (AllSuccess(s.records[c].reports[g].results) <==> Succeeds(w, s.clients[c], g))
  {
    hide ClientInvs, Queue, Prioritised, Workforce, History, JobsSeen, AllSuccess, Settled, SituationOf, AllSucceed,
         LimitsOf, GroupHasKeys, Contents, GroupsFit, NoEarlyOutputs;
    OneFollows(w, s.clients, s.records, s.misled, c);
    OneClient(s, c);
    assert Right(w, s.clients[c].handles, s.clients[c].dag.groups[g], s.records[c].status[g] == Succeeded, s.clients[c].handles);
  }
}
