/** What the invariant of the scheduler means for the clients.
    Source: task-maker-exec/src/scheduler.rs. */
module SchedulerTheorems {
  import opened Dag
  import opened CheckDag
  import opened SchedulerState
  import opened SchedulerHistory
  import opened SchedulerSteps
  import opened SchedulerFacts

  // ---------------------------------------------------------------- nothing waits for ever

  /** A file that a waiting group misses is either a provided one that has not
      come yet, or the output of a group that is waiting, ready or running. */
  lemma MissingHasSource(s: State, c: ClientId, g: GroupId, f: FileId)
    requires Inv(s) && Settled(s) && c in s.clients && c in s.records
    requires g in s.clients[c].missing && f in s.clients[c].missing[g]
    ensures !Knows(s, c, f)
    ensures f in s.clients[c].dag.providedFiles || exists h :: Unfinished(s.clients[c], h) && f in Outs(s.clients[c].dag.groups[h])
  {
    hide Inv, Settled, Outs, Deps, ValidDag;
    OneClient(s, c);
    var d, r := s.clients[c], s.records[c];
    MissingIsNew(d, r, g, f);
    IsChecked(s, c);
    SomeoneMakes(d, g, f);
    if f !in d.dag.providedFiles {
      var h :| h in d.dag.groups && f in Outs(d.dag.groups[h]);
      OutputsAre(s, c, h, f);
      NotFinal(s, c, h, f);
      UnfinishedStatus(s, c, h);
    }
  }

  predicate Unfinished(d: ClientData, g: GroupId) {
    g in d.dag.groups && (g in d.missing || g in d.ready || g in d.running)
  }

  lemma MissingIsNew(d: ClientData, r: Record, g: GroupId, f: FileId)
    requires ClientInv(d, r) && g in d.missing && f in d.missing[g]
    ensures g in d.dag.groups && f in Deps(d.dag.groups[g]) && f !in r.announced
  {
    hide ProducerMap, InputTable, Outs, Deps, Files, Good, Bad;
    assert WaitingGroup(d, r, g);
  }

  // Every dependency of a group of a valid DAG has an origin.
  lemma SomeoneMakes(d: ClientData, g: GroupId, f: FileId)
    requires ValidDag(d.dag, d.callbacks) && g in d.dag.groups && f in Deps(d.dag.groups[g])
    ensures f in d.dag.providedFiles || exists h :: h in d.dag.groups && f in Outs(d.dag.groups[h])
  {
    hide SoundParts, CallbacksKnown, Outs, Deps, Distinct;
    var order :| TopologicalOrder(d.dag, order);
    var i :| 0 <= i < |order| && order[i] == g;
    assert f in d.dag.providedFiles || Produced(d.dag, order[..i], f);
  }

  // A file nobody was told about has no outcome.
  lemma NotFinal(s: State, c: ClientId, h: GroupId, f: FileId)
    requires Settled(s) && !Knows(s, c, f) && c in s.records
    requires f in s.records[c].producer && s.records[c].producer[f] == h && h in s.records[c].status
    ensures !s.records[c].status[h].Final() && s.records[c].status[h] != Completing
  {
    assert !Owed(s, c, f) && !Is(s.records, c, h, Completing);
  }

  lemma UnfinishedStatus(s: State, c: ClientId, h: GroupId)
    requires Inv(s) && c in s.clients && c in s.records && h in s.clients[c].dag.groups && h in s.records[c].status
    requires !s.records[c].status[h].Final() && s.records[c].status[h] != Completing
    ensures Unfinished(s.clients[c], h)
  {
    hide Inv, Static, Sound, Files;
    OneClient(s, c);
  }

  /** Deadlock freedom: when every provided file has come and no group is ready
      or running, no group is waiting either. The topological order of the DAG,
      which `check_dag` has made sure of, rules out a stuck set of groups. */
  lemma NoDeadlock(s: State, c: ClientId)
    requires Inv(s) && Settled(s) && c in s.clients
    requires forall f :: f in s.clients[c].dag.providedFiles ==> Knows(s, c, f)
    requires s.clients[c].ready == {} && s.clients[c].running == {}
    ensures s.clients[c].IsDone()
  {
    hide Inv, Settled, Knows, TopologicalOrder, Static, ValidDag;
    OneClient(s, c);
    var d := s.clients[c];
    IsChecked(s, c);
    OrderOf(d);
    var order :| TopologicalOrder(d.dag, order);
    NoneWaits(s, c, order, |order|);
    InTheOrder(d.dag, order);
    MissingAreGroups(d, s.records[c]);
    forall g ensures g !in d.missing { assert g in d.dag.groups ==> g in order[..|order|]; }
    assert d.missing.Keys == {};
  }

  lemma MissingAreGroups(d: ClientData, r: Record)
    requires ClientInv(d, r)
    ensures d.missing.Keys <= d.dag.groups.Keys
  {
    hide Static, Sound, Files;
  }

  lemma IsChecked(s: State, c: ClientId)
    requires Settled(s) && c in s.clients
    ensures ValidDag(s.clients[c].dag, s.clients[c].callbacks)
  {
    hide ValidDag, Owed;
  }

  lemma OrderOf(d: ClientData)
    requires ValidDag(d.dag, d.callbacks)
    ensures exists order :: TopologicalOrder(d.dag, order)
  {
    hide SoundParts, CallbacksKnown, TopologicalOrder;
  }

  lemma InTheOrder(dag: DagData, order: seq<GroupId>)
    requires TopologicalOrder(dag, order)
    ensures Distinct(order) && (forall g :: g in order <==> g in dag.groups) && order[..|order|] == order
    ensures InOrder(dag, order)
  {
  }

  // By induction along the order: a waiting group would miss a file of an earlier one.
  lemma {:induction false} NoneWaits(s: State, c: ClientId, order: seq<GroupId>, n: nat)
    requires Inv(s) && Settled(s) && c in s.clients && TopologicalOrder(s.clients[c].dag, order) && n <= |order|
    requires forall f :: f in s.clients[c].dag.providedFiles ==> Knows(s, c, f)
    requires s.clients[c].ready == {} && s.clients[c].running == {}
    ensures forall g :: g in order[..n] ==> g !in s.clients[c].missing
  {
    hide Inv, Settled, Knows, TopologicalOrder, ClientInv, InOrder, Outs, Deps, Unfinished;
    if n == 0 {
    } else {
      NoneWaits(s, c, order, n - 1);
      OneClient(s, c);
      var d, g := s.clients[c], order[n - 1];
      if g in d.missing {
        MissesSomething(s, c, g);
        var f :| f in d.missing[g];
        MissingHasSource(s, c, g, f);
        MissingIsNew(d, s.records[c], g, f);
        assert f !in d.dag.providedFiles;
        ProducedEarlier(d.dag, order, n - 1, f);
        var h :| h in order[..n - 1] && h in d.dag.groups && f in Outs(d.dag.groups[h]);
        OutputsAre(s, c, h, f);
        NotFinal(s, c, h, f);
        UnfinishedStatus(s, c, h);
        NotUnfinished(d, h);
      }
      assert order[..n] == order[..n - 1] + [g];
    }
  }

  lemma ProducedEarlier(dag: DagData, order: seq<GroupId>, i: nat, f: FileId)
    requires TopologicalOrder(dag, order) && i < |order| && order[i] in dag.groups && f in Deps(dag.groups[order[i]])
    requires f !in dag.providedFiles
    ensures exists h :: h in order[..i] && h in dag.groups && f in Outs(dag.groups[h])
  {
    hide Outs, Deps;
    assert Produced(dag, order[..i], f);
    var j :| 0 <= j < i && order[..i][j] in dag.groups && f in Outs(dag.groups[order[..i][j]]);
  }

  lemma NotUnfinished(d: ClientData, h: GroupId)
    requires Unfinished(d, h) && d.ready == {} && d.running == {}
    ensures h in d.missing
  {
  }

  // ---------------------------------------------------------------- one outcome, whatever the schedule

  // `g` reads `f`, an output of `h`, which failed or was skipped.
  ghost predicate SpoiledBy(s: State, c: ClientId, g: GroupId, f: FileId, h: GroupId) {
    && c in s.clients && g in s.clients[c].dag.groups && h in s.clients[c].dag.groups
    && f in Deps(s.clients[c].dag.groups[g]) && f in Outs(s.clients[c].dag.groups[h])
    && (Is(s.records, c, h, Failed) || Is(s.records, c, h, Skipped))
  }

  /** Between messages a group is skipped if and only if one of its
      dependencies is an output of a failed or skipped group. */
  lemma SkippedExactly(s: State, c: ClientId, g: GroupId)
    requires Inv(s) && Settled(s) && c in s.clients && g in s.clients[c].dag.groups
    ensures Is(s.records, c, g, Skipped) <==> exists f, h :: SpoiledBy(s, c, g, f, h)
  {
    hide Inv, Settled, Is, SpoiledBy;
    if Is(s.records, c, g, Skipped) { SkippedWhy(s, c, g); }
    if f, h :| SpoiledBy(s, c, g, f, h) { SpoiledSkips(s, c, g, f, h); }
  }

  lemma SkippedWhy(s: State, c: ClientId, g: GroupId)
    requires Inv(s) && c in s.clients && Is(s.records, c, g, Skipped)
    ensures exists f, h :: SpoiledBy(s, c, g, f, h)
  {
    hide Inv, Outs, Deps, Static, Files, Tables, WaitingGroup, HasInputs;
    OneClient(s, c);
    var d, r := s.clients[c], s.records[c];
    assert HasBadInput(d, r, g);
    hide Sound;
    var f :| f in Deps(d.dag.groups[g]) && Bad(r, f);
    OutputsAre(s, c, r.producer[f], f);
    assert SpoiledBy(s, c, g, f, r.producer[f]);
  }

  lemma SpoiledSkips(s: State, c: ClientId, g: GroupId, f: FileId, h: GroupId)
    requires Inv(s) && Settled(s) && SpoiledBy(s, c, g, f, h)
    ensures Is(s.records, c, g, Skipped)
  {
    hide Inv, Settled, Outs, Deps, ClientInv;
    OneClient(s, c);
    OutputsAre(s, c, h, f);
    BadInputSkips(s, c, g, f);
  }

  lemma BadInputSkips(s: State, c: ClientId, g: GroupId, f: FileId)
    requires Inv(s) && Settled(s) && c in s.clients && c in s.records && g in s.clients[c].dag.groups
    requires f in Deps(s.clients[c].dag.groups[g]) && Bad(s.records[c], f)
    ensures Is(s.records, c, g, Skipped)
  {
    hide Inv, Settled, Outs, Deps, Is;
    OutcomeIsKnown(s, c, f);
    BadNewsSkips(s, c, g, f);
  }

  // Also inside a handler, once the readers of the file know.
  lemma BadNewsSkips(s: State, c: ClientId, g: GroupId, f: FileId)
    requires Inv(s) && Knows(s, c, f) && c in s.clients && c in s.records && g in s.clients[c].dag.groups
    requires f in Deps(s.clients[c].dag.groups[g]) && Bad(s.records[c], f)
    ensures Is(s.records, c, g, Skipped)
  {
    hide Inv, Outs, Deps, Static;
    OneClient(s, c);
    var d, r := s.clients[c], s.records[c];
    if r.status[g] == Waiting {
      assert false;
    } else if r.status[g] != Skipped {
      assert false;
    }
  }

  /** A chain of groups that starts at the file: each reads an output of the one before it. */
  ghost predicate Downstream(dag: DagData, f: FileId, path: seq<GroupId>) {
    && path != [] && (forall i :: 0 <= i < |path| ==> path[i] in dag.groups)
    && f in Deps(dag.groups[path[0]])
    && forall i :: 0 <= i < |path| - 1 ==> Feeds(dag, path[i], path[i + 1])
  }

  ghost predicate Feeds(dag: DagData, g: GroupId, h: GroupId) {
    g in dag.groups && h in dag.groups && exists x :: x in Outs(dag.groups[g]) && x in Deps(dag.groups[h])
  }

  // The outputs of the groups of the path that have an outcome have been announced.
  ghost predicate Unowed(s: State, c: ClientId, path: seq<GroupId>) {
    && c in s.clients
    && forall g, x :: g in path && g in s.clients[c].dag.groups && x in Outs(s.clients[c].dag.groups[g]) ==> !Owed(s, c, x)
  }

  ghost predicate AllSkipped(s: State, c: ClientId, path: seq<GroupId>) {
    forall i :: 0 <= i < |path| ==> Is(s.records, c, path[i], Skipped)
  }

  /** Bad news travels: everything that depends on the file, however
      indirectly, is skipped. */
  lemma {:induction false} BadNewsSpreads(s: State, c: ClientId, f: FileId, path: seq<GroupId>)
    requires Inv(s) && Knows(s, c, f) && c in s.clients && c in s.records && Bad(s.records[c], f)
    requires Downstream(s.clients[c].dag, f, path) && Unowed(s, c, path)
    ensures AllSkipped(s, c, path)
  {
    hide Inv, Outs, Deps, Knows, Bad, Is, Owed;
    var dag, n := s.clients[c].dag, |path| - 1;
    if n == 0 {
      BadNewsSkips(s, c, path[0], f);
    } else {
      BadNewsSpreads(s, c, f, path[..n]);
      assert Feeds(dag, path[n - 1], path[n]) && path[..n][n - 1] == path[n - 1];
      var x :| x in Outs(dag.groups[path[n - 1]]) && x in Deps(dag.groups[path[n]]);
      SkippedOutputIsBad(s, c, path[n - 1], x);
      BadNewsSkips(s, c, path[n], x);
      assert forall i :: 0 <= i < n ==> path[..n][i] == path[i];
    }
  }

  lemma SkippedOutputIsBad(s: State, c: ClientId, g: GroupId, x: FileId)
    requires Inv(s) && c in s.clients && c in s.records && g in s.clients[c].dag.groups && Is(s.records, c, g, Skipped)
    requires x in Outs(s.clients[c].dag.groups[g]) && !Owed(s, c, x)
    ensures Bad(s.records[c], x) && Knows(s, c, x)
  {
    hide Inv, Outs, ClientInv;
    OneClient(s, c);
    OutputsAre(s, c, g, x);
  }

  /** Between messages nothing is owed: every group at the end of a chain that
      starts at an output of a failed or skipped group is skipped. */
  lemma FailureSpreads(s: State, c: ClientId, g: GroupId, f: FileId, path: seq<GroupId>)
    requires Inv(s) && Settled(s) && c in s.clients && c in s.records && g in s.clients[c].dag.groups
    requires (Is(s.records, c, g, Failed) || Is(s.records, c, g, Skipped)) && f in Outs(s.clients[c].dag.groups[g])
    requires Downstream(s.clients[c].dag, f, path)
    ensures AllSkipped(s, c, path)
  {
    hide Inv, Outs, Downstream, AllSkipped;
    OutputsAre(s, c, g, f);
    OutcomeIsKnown(s, c, f);
    BadNewsSpreads(s, c, f, path);
  }

  /** What failing a file does, in the terms of the DAG: afterwards every group
      at the end of a chain from it is skipped, unless some output on the way
      was already about to be dealt with by an enclosing call. */
  lemma DownstreamIsSkipped(s: State, s': State, c: ClientId, f: FileId)
    requires Inv(s') && Evolves(s, s', {}, {}) && c in s.clients && c in s.records && Bad(s.records[c], f) && Knows(s', c, f)
    ensures c in s'.clients
    ensures forall path :: Downstream(s'.clients[c].dag, f, path) && Unowed(s, c, path) ==> AllSkipped(s', c, path)
  {
    hide Inv, Evolves, Bad, Knows, Downstream, Unowed, AllSkipped;
    ClientStays(s, s', {}, {}, c);
    BadStays(s, s', {}, {}, c, f);
    forall path | Downstream(s'.clients[c].dag, f, path) && Unowed(s, c, path) ensures AllSkipped(s', c, path) {
      StillUnowed(s, s', c, path);
      BadNewsSpreads(s', c, f, path);
    }
  }

  lemma StillUnowed(s: State, s': State, c: ClientId, path: seq<GroupId>)
    requires Evolves(s, s', {}, {}) && Unowed(s, c, path)
    ensures Unowed(s', c, path)
  {
    hide StatusesMove, Owed, Outs;
    NothingOwedBy(s);
    ClientStays(s, s', {}, {}, c);
  }

  lemma OutcomeIsKnown(s: State, c: ClientId, f: FileId)
    requires Settled(s) && c in s.records && Bad(s.records[c], f)
    ensures f in s.records[c].announced
  {
    assert !Owed(s, c, f);
  }

  // What becomes of a group, given what became of the groups before it.
  ghost function Verdict(dag: DagData, before: map<GroupId, Status>, g: GroupId, ok: GroupId -> bool): Status
    requires g in dag.groups
  {
    if exists f, h :: Poisons(dag, before, g, f, h) then Skipped else if ok(g) then Succeeded else Failed
  }

  ghost predicate Poisons(dag: DagData, before: map<GroupId, Status>, g: GroupId, f: FileId, h: GroupId)
    requires g in dag.groups
  {
    && f in Deps(dag.groups[g]) && h in before && h in dag.groups && f in Outs(dag.groups[h])
    && (before[h] == Failed || before[h] == Skipped)
  }

  /** The reference: the first `n` groups of the order are evaluated one after
      the other, each skipped when one of its inputs will never be there. */
  ghost function Sequential(dag: DagData, order: seq<GroupId>, n: nat, ok: GroupId -> bool): map<GroupId, Status>
    requires n <= |order| && forall g :: g in order ==> g in dag.groups
  {
    if n == 0 then map[]
    else
      var before := Sequential(dag, order, n - 1, ok);
      before[order[n - 1] := Verdict(dag, before, order[n - 1], ok)]
  }

  lemma {:induction false} SequentialKeys(dag: DagData, order: seq<GroupId>, n: nat, ok: GroupId -> bool)
    requires n <= |order| && forall g :: g in order ==> g in dag.groups
    ensures forall g :: g in Sequential(dag, order, n, ok) <==> g in order[..n]
  {
    hide Verdict;
    if n == 0 {
    } else {
      SequentialKeys(dag, order, n - 1, ok);
      assert order[..n] == order[..n - 1] + [order[n - 1]];
    }
  }

  // A group gets its verdict when its turn comes, and keeps it.
  lemma {:induction false} VerdictStays(dag: DagData, order: seq<GroupId>, i: nat, n: nat, ok: GroupId -> bool)
    requires i < n <= |order| && Distinct(order) && forall g :: g in order ==> g in dag.groups
    ensures order[i] in Sequential(dag, order, n, ok)
    ensures Sequential(dag, order, n, ok)[order[i]] == Verdict(dag, Sequential(dag, order, i, ok), order[i], ok)
  {
    hide Verdict;
    if i < n - 1 {
      VerdictStays(dag, order, i, n - 1, ok);
    }
  }

  // What was decided about the producers of the group's dependencies is all that counts.
  lemma VerdictDepends(dag: DagData, a: map<GroupId, Status>, b: map<GroupId, Status>, g: GroupId, ok: GroupId -> bool)
    requires g in dag.groups
    requires forall f, h :: f in Deps(dag.groups[g]) && h in dag.groups && f in Outs(dag.groups[h]) ==>
      h in a && h in b && a[h] == b[h]
    ensures Verdict(dag, a, g, ok) == Verdict(dag, b, g, ok)
  {
    hide Deps, Outs;
    forall f, h ensures Poisons(dag, a, g, f, h) <==> Poisons(dag, b, g, f, h) { }
  }

  // Producers come first in every order.
  lemma ProducerFirst(dag: DagData, callbacks: WatchSet, order: seq<GroupId>, i: nat, f: FileId, h: GroupId)
    requires ValidDag(dag, callbacks) && TopologicalOrder(dag, order) && i < |order| && order[i] in dag.groups
    requires f in Deps(dag.groups[order[i]]) && h in dag.groups && f in Outs(dag.groups[h])
    ensures h in order[..i]
  {
    hide Deps, Outs, Distinct, CallbacksKnown, TopologicalOrder, SoundGroup;
    assert Outs(dag.groups[h]) !! dag.providedFiles;
    ProducedEarlier(dag, order, i, f);
    var h' :| h' in order[..i] && h' in dag.groups && f in Outs(dag.groups[h']);
    var outs, outs' := Outs(dag.groups[h]), Outs(dag.groups[h']);
    assert h' != h ==> outs' !! outs;
  }

  /** The reference does not depend on the order: any two topological orders
      of a valid DAG give every group the same verdict. */
  lemma {:induction false} OrdersAgree(dag: DagData, callbacks: WatchSet, a: seq<GroupId>, b: seq<GroupId>, n: nat,
                                       ok: GroupId -> bool)
    requires ValidDag(dag, callbacks) && TopologicalOrder(dag, a) && TopologicalOrder(dag, b) && n <= |a|
    ensures (forall g :: g in a ==> g in dag.groups) && (forall g :: g in b ==> g in dag.groups)
    ensures forall g :: g in a[..n] ==>
      g in Sequential(dag, a, |a|, ok) && g in Sequential(dag, b, |b|, ok)
      && Sequential(dag, a, |a|, ok)[g] == Sequential(dag, b, |b|, ok)[g]
  {
    hide ValidDag, TopologicalOrder, InOrder, Sequential, Verdict, Deps, Outs;
    InTheOrder(dag, a);
    InTheOrder(dag, b);
    if n == 0 {
    } else {
      OrdersAgree(dag, callbacks, a, b, n - 1, ok);
      var g := a[n - 1];
      assert g in dag.groups;
      var j :| 0 <= j < |b| && b[j] == g;
      VerdictStays(dag, a, n - 1, |a|, ok);
      VerdictStays(dag, b, j, |b|, ok);
      var before, before' := Sequential(dag, a, n - 1, ok), Sequential(dag, b, j, ok);
      forall f, h | f in Deps(dag.groups[g]) && h in dag.groups && f in Outs(dag.groups[h])
        ensures h in before && h in before' && before[h] == before'[h]
      {
        ProducerFirst(dag, callbacks, a, n - 1, f, h);
        ProducerFirst(dag, callbacks, b, j, f, h);
        PrefixKeeps(dag, a, n - 1, h, ok);
        PrefixKeeps(dag, b, j, h, ok);
      }
      VerdictDepends(dag, before, before', g, ok);
      assert a[..n] == a[..n - 1] + [g];
    }
  }

  lemma PrefixKeeps(dag: DagData, order: seq<GroupId>, n: nat, h: GroupId, ok: GroupId -> bool)
    requires n <= |order| && Distinct(order) && h in order[..n] && forall g :: g in order ==> g in dag.groups
    ensures h in Sequential(dag, order, n, ok) && h in Sequential(dag, order, |order|, ok)
    ensures Sequential(dag, order, n, ok)[h] == Sequential(dag, order, |order|, ok)[h]
  {
    hide Verdict, Sequential;
    var i :| 0 <= i < n && order[..n][i] == h;
    VerdictStays(dag, order, i, n, ok);
    VerdictStays(dag, order, i, |order|, ok);
  }

  // The results the groups of the client completed with are the ones `ok` tells.
  ghost predicate Agree(s: State, c: ClientId, ok: GroupId -> bool) {
    forall g :: (Is(s.records, c, g, Succeeded) || Is(s.records, c, g, Failed)) && g in s.records[c].reports ==>
      (AllSuccess(s.records[c].reports[g].results) <==> ok(g))
  }

  // The finished groups among the first `n` are as the reference says.
  ghost predicate AsSequential(s: State, c: ClientId, order: seq<GroupId>, n: nat, ok: GroupId -> bool) {
    && c in s.clients && c in s.records && n <= |order| && (forall g :: g in order ==> g in s.clients[c].dag.groups)
    && forall g :: g in order[..n] && g in s.records[c].status && s.records[c].status[g].Final() ==>
      g in Sequential(s.clients[c].dag, order, n, ok) && Sequential(s.clients[c].dag, order, n, ok)[g] == s.records[c].status[g]
  }

  /** Schedule independence: if the success of a group is a function of the
      group, then at any time between messages every finished group is what the
      sequential evaluation makes of it, in whichever topological order, and
      whatever the order of the messages was. */
  lemma ScheduleIndependence(s: State, c: ClientId, order: seq<GroupId>, ok: GroupId -> bool)
    requires Inv(s) && Settled(s) && c in s.clients && c in s.records
    requires TopologicalOrder(s.clients[c].dag, order) && Agree(s, c, ok)
    ensures forall g :: g in order ==> g in s.clients[c].dag.groups
    ensures forall g :: g in s.records[c].status && s.records[c].status[g].Final() ==>
      g in Sequential(s.clients[c].dag, order, |order|, ok)
      && Sequential(s.clients[c].dag, order, |order|, ok)[g] == s.records[c].status[g]
    ensures s.clients[c].IsDone() ==> s.records[c].status == Sequential(s.clients[c].dag, order, |order|, ok)
  {
    hide Inv, Settled, TopologicalOrder, ClientInv, Agree, InOrder, Sequential;
    OneClient(s, c);
    InTheOrder(s.clients[c].dag, order);
    FollowOrder(s, c, order, |order|, ok);
    if s.clients[c].IsDone() {
      DoneIsFinal(s, c);
      SequentialKeys(s.clients[c].dag, order, |order|, ok);
    }
  }

  lemma {:induction false} FollowOrder(s: State, c: ClientId, order: seq<GroupId>, n: nat, ok: GroupId -> bool)
    requires Inv(s) && Settled(s) && c in s.clients && n <= |order|
    requires TopologicalOrder(s.clients[c].dag, order) && Agree(s, c, ok)
    ensures AsSequential(s, c, order, n, ok)
  {
    hide Inv, Settled, TopologicalOrder, ClientInv, Agree, InOrder, Verdict, AsSequential;
    OneClient(s, c);
    InTheOrder(s.clients[c].dag, order);
    if n == 0 {
      NothingEvaluated(s, c, order, ok);
    } else {
      FollowOrder(s, c, order, n - 1, ok);
      if order[n - 1] in s.records[c].status && s.records[c].status[order[n - 1]].Final() {
        SameVerdict(s, c, order, n - 1, ok);
      }
      OneMoreEvaluated(s, c, order, n, ok);
    }
  }

  lemma NothingEvaluated(s: State, c: ClientId, order: seq<GroupId>, ok: GroupId -> bool)
    requires c in s.clients && c in s.records && forall g :: g in order ==> g in s.clients[c].dag.groups
    ensures AsSequential(s, c, order, 0, ok)
  {
  }

  lemma OneMoreEvaluated(s: State, c: ClientId, order: seq<GroupId>, n: nat, ok: GroupId -> bool)
    requires 0 < n <= |order| && AsSequential(s, c, order, n - 1, ok) && Distinct(order)
    requires order[n - 1] in s.records[c].status && s.records[c].status[order[n - 1]].Final() ==>
      s.records[c].status[order[n - 1]] == Verdict(s.clients[c].dag, Sequential(s.clients[c].dag, order, n - 1, ok), order[n - 1], ok)
    ensures AsSequential(s, c, order, n, ok)
  {
    hide Verdict;
    assert order[..n] == order[..n - 1] + [order[n - 1]];
  }

  lemma SameVerdict(s: State, c: ClientId, order: seq<GroupId>, i: nat, ok: GroupId -> bool)
    requires Inv(s) && Settled(s) && c in s.clients && c in s.records && i < |order| && order[i] in s.clients[c].dag.groups
    requires TopologicalOrder(s.clients[c].dag, order) && Agree(s, c, ok) && AsSequential(s, c, order, i, ok)
    requires order[i] in s.records[c].status && s.records[c].status[order[i]].Final()
    ensures s.records[c].status[order[i]] == Verdict(s.clients[c].dag, Sequential(s.clients[c].dag, order, i, ok), order[i], ok)
  {
    hide Inv, Settled, TopologicalOrder, ClientInv, Sequential, Agree, Is, Poisons, SpoiledBy, AsSequential;
    OneClient(s, c);
    InTheOrder(s.clients[c].dag, order);
    var dag, g := s.clients[c].dag, order[i];
    var before := Sequential(dag, order, i, ok);
    SkippedExactly(s, c, g);
    StatusIs(s.records, c, g);
    if s.records[c].status[g] == Skipped {
      var f, h :| SpoiledBy(s, c, g, f, h);
      SpoiledIsPoisoned(s, c, order, i, f, h, ok);
    } else {
      CompletedAgrees(s, c, g, ok);
      forall f, h ensures !Poisons(dag, before, g, f, h) { NotPoisoned(s, c, order, i, f, h, ok); }
    }
  }

  lemma StatusIs(records: map<ClientId, Record>, c: ClientId, g: GroupId)
    requires c in records && g in records[c].status
    ensures forall st :: Is(records, c, g, st) <==> records[c].status[g] == st
  {
  }

  lemma SpoiledIsPoisoned(s: State, c: ClientId, order: seq<GroupId>, i: nat, f: FileId, h: GroupId,
                          ok: GroupId -> bool)
    requires Inv(s) && i < |order| && AsSequential(s, c, order, i, ok)
    requires SpoiledBy(s, c, order[i], f, h) && TopologicalOrder(s.clients[c].dag, order)
    ensures Poisons(s.clients[c].dag, Sequential(s.clients[c].dag, order, i, ok), order[i], f, h)
  {
    hide Inv, TopologicalOrder, Sequential, Outs, Deps;
    EarlierProducer(s, c, order, i, f, h);
  }

  lemma NotPoisoned(s: State, c: ClientId, order: seq<GroupId>, i: nat, f: FileId, h: GroupId, ok: GroupId -> bool)
    requires Inv(s) && i < |order| && AsSequential(s, c, order, i, ok)
    requires Is(s.records, c, order[i], Succeeded) || Is(s.records, c, order[i], Failed)
    ensures !Poisons(s.clients[c].dag, Sequential(s.clients[c].dag, order, i, ok), order[i], f, h)
  {
    hide Inv, Sequential, Outs, Deps;
    SequentialKeys(s.clients[c].dag, order, i, ok);
    var dag := s.clients[c].dag;
    if h in dag.groups && f in Deps(dag.groups[order[i]]) && f in Outs(dag.groups[h]) {
      GoodInput(s, c, order[i], f, h);
    }
  }

  // The one producer of a dependency comes before the group in the order.
  lemma EarlierProducer(s: State, c: ClientId, order: seq<GroupId>, i: nat, f: FileId, h: GroupId)
    requires Inv(s) && c in s.clients && i < |order| && order[i] in s.clients[c].dag.groups && h in s.clients[c].dag.groups
    requires TopologicalOrder(s.clients[c].dag, order) && f in Deps(s.clients[c].dag.groups[order[i]]) && f in Outs(s.clients[c].dag.groups[h])
    ensures h in order[..i]
  {
    hide Inv, TopologicalOrder, InOrder, Outs, Deps, Tables, Sound, Files, ValidDag, InputTable;
    OneClient(s, c);
    var dag := s.clients[c].dag;
    assert ProducerMap(dag, s.records[c].producer);
    OutputsAre(s, c, h, f);
    assert f !in dag.providedFiles;
    hide ProducerMap;
    ProducedEarlier(dag, order, i, f);
    var h' :| h' in order[..i] && h' in dag.groups && f in Outs(dag.groups[h']);
    OutputsAre(s, c, h', f);
  }

  lemma CompletedAgrees(s: State, c: ClientId, g: GroupId, ok: GroupId -> bool)
    requires Inv(s) && Agree(s, c, ok) && c in s.records && g in s.records[c].status
    requires s.records[c].status[g] == Succeeded || s.records[c].status[g] == Failed
    ensures s.records[c].status[g] == if ok(g) then Succeeded else Failed
  {
    hide ClientInvs, Queue, Prioritised, Workforce, History, JobsSeen, AllSuccess;
    assert Is(s.records, c, g, s.records[c].status[g]);
    assert g in s.records[c].reports;
  }

  // The inputs of a group that was completed come from groups that succeeded.
  lemma GoodInput(s: State, c: ClientId, g: GroupId, f: FileId, h: GroupId)
    requires Inv(s) && c in s.clients && c in s.records && g in s.clients[c].dag.groups && h in s.clients[c].dag.groups
    requires g in s.records[c].status && (s.records[c].status[g] == Succeeded || s.records[c].status[g] == Failed)
    requires f in Deps(s.clients[c].dag.groups[g]) && f in Outs(s.clients[c].dag.groups[h])
    ensures Is(s.records, c, h, Succeeded)
  {
    hide Inv, Static, Files, Tables, Outs, Deps, WaitingGroup, HasBadInput;
    OneClient(s, c);
    OutputsAre(s, c, h, f);
    assert HasInputs(s.clients[c], s.records[c], g);
    assert Good(s.clients[c], s.records[c], f);
  }

  // ---------------------------------------------------------------- nothing is lost

  ghost function Completed(r: Record): set<GroupId> {
    set g | g in r.status && (r.status[g] == Succeeded || r.status[g] == Failed)
  }

  ghost function SkippedGroups(r: Record): set<GroupId> {
    set g | g in r.status && r.status[g] == Skipped
  }

  /** Conservation: each group of a connected client is in exactly one of
      waiting, ready, running, completed and skipped. */
  lemma Conservation(s: State, c: ClientId)
    requires Inv(s) && Settled(s) && c in s.clients && c in s.records
    ensures var d, r := s.clients[c], s.records[c];
      && d.dag.groups.Keys == d.missing.Keys + d.ready + d.running + Completed(r) + SkippedGroups(r)
      && d.missing.Keys !! d.ready !! d.running !! Completed(r) !! SkippedGroups(r)
  {
    hide Inv, Settled, Static, Sound, Files;
    OneClient(s, c);
    NothingCompleting(s, c);
  }

  /** The entries of the queue are the ready groups of the connected clients,
      one each. */
  lemma QueueMatches(s: State)
    requires Inv(s)
    ensures forall e :: e in s.heap ==> s.heap[e] == 1 && e.client in s.clients && e.group in s.clients[e.client].ready
    ensures forall c, g :: c in s.clients && g in s.clients[c].ready ==>
      exists e :: e in s.heap && e.client == c && e.group == g && forall x :: x in s.heap && x.client == c && x.group == g ==> x == e
  {
    hide ClientInvs, Prioritised, Workforce, History, Outcomes, JobsSeen;
    forall e | e in s.heap ensures s.heap[e] == 1 && e.client in s.clients && e.group in s.clients[e.client].ready {
      assert Is(s.records, e.client, e.group, Ready);
      ReadyTable(s, e.client, e.group);
    }
    forall c, g | c in s.clients && g in s.clients[c].ready
      ensures exists e :: e in s.heap && e.client == c && e.group == g && forall x :: x in s.heap && x.client == c && x.group == g ==>
        x == e
    {
      ReadyTable(s, c, g);
      assert Queued(s.heap, c, g);
      var e :| e in s.heap && e.client == c && e.group == g;
      assert forall x :: x in s.heap && x.client == c && x.group == g ==> x == e;
    }
  }

  lemma ReadyTable(s: State, c: ClientId, g: GroupId)
    requires Inv(s) && c in s.clients
    ensures g in s.clients[c].ready <==> Is(s.records, c, g, Ready)
    ensures g in s.clients[c].running <==> Is(s.records, c, g, Running)
  {
    hide Inv, Static, Sound, Files;
    OneClient(s, c);
  }

  /** The running groups of the connected clients are the jobs of the workers,
      one worker each. */
  lemma WorkersMatch(s: State)
    requires Inv(s)
    ensures forall w :: w in s.workers && s.workers[w].Some? && s.workers[w].value.client in s.clients ==>
      s.workers[w].value.group in s.clients[s.workers[w].value.client].running
    ensures forall c, g :: c in s.clients && g in s.clients[c].running ==>
      exists w :: w in s.workers && s.workers[w] == Some(Job(c, g)) && forall v :: v in s.workers && s.workers[v] == Some(Job(c, g)) ==> v == w
  {
    hide ClientInvs, Prioritised, Queue, History, Outcomes, JobsSeen;
    forall w | w in s.workers && s.workers[w].Some? && s.workers[w].value.client in s.clients
      ensures s.workers[w].value.group in s.clients[s.workers[w].value.client].running
    {
      ReadyTable(s, s.workers[w].value.client, s.workers[w].value.group);
    }
    forall c, g | c in s.clients && g in s.clients[c].running
      ensures exists w :: w in s.workers && s.workers[w] == Some(Job(c, g)) && forall v :: v in s.workers && s.workers[v] == Some(Job(c, g)) ==>
        v == w
    {
      ReadyTable(s, c, g);
      assert Assigned(s.workers, c, g);
      var w :| w in s.workers && s.workers[w] == Some(Job(c, g));
      forall v | v in s.workers && s.workers[v] == Some(Job(c, g)) ensures v == w {
        assert SharedJob(s.workers[v], s.workers[w], s.records);
      }
    }
  }

  // ---------------------------------------------------------------- what the client is told

  predicate About(m: Message, c: ClientId, g: GroupId) {
    m.client == c && match m.event
      case ExecutionStarted(h, _) => h == g
      case ExecutionDone(h, _) => h == g
      case ExecutionSkipped(h) => h == g
      case _ => false
  }

  /** The events about one group, in the order they were sent. */
  function EventsOf(outbox: seq<Message>, c: ClientId, g: GroupId): seq<Event> {
    if outbox == [] then []
    else
      var m := outbox[|outbox| - 1];
      EventsOf(outbox[..|outbox| - 1], c, g) + if About(m, c, g) then [m.event] else []
  }

  // Started any number of times, and then perhaps done; or skipped, and nothing else.
  ghost predicate WellFormed(events: seq<Event>) {
    || (exists g :: events == [ExecutionSkipped(g)])
    || (forall i :: 0 <= i < |events| ==> events[i].ExecutionStarted?)
    || (events != [] && events[|events| - 1].ExecutionDone? && forall i :: 0 <= i < |events| - 1 ==> events[i].ExecutionStarted?)
  }

  ghost predicate Leads(events: seq<Event>, phase: Phase) {
    match phase
    case Idle => events == []
    case Started => events != [] && forall i :: 0 <= i < |events| ==> events[i].ExecutionStarted?
    case Done => events != [] && events[|events| - 1].ExecutionDone? && forall i :: 0 <= i < |events| - 1 ==> events[i].ExecutionStarted?
    case Dropped => |events| == 1 && events[0].ExecutionSkipped?
    case Wrong => true
  }

  lemma {:induction false} PhasesAreEvents(outbox: seq<Message>, c: ClientId, g: GroupId)
    ensures Leads(EventsOf(outbox, c, g), PhaseOf(outbox, c, g))
  {
    if outbox == [] {
    } else {
      PhasesAreEvents(outbox[..|outbox| - 1], c, g);
    }
  }

  /** The events of every group, of clients that left too: the group is started
      some times and done at most once, after that; or it is skipped and
      neither started nor done. A job that is rescheduled is not done twice. */
  lemma EventOrder(s: State, c: ClientId, g: GroupId)
    requires Inv(s)
    ensures WellFormed(EventsOf(s.outbox, c, g))
  {
    hide ClientInvs, Queue, Prioritised, Workforce, Outcomes, JobsSeen, Told, Truthful, Delivered, Addressed,
         EventsOf, PhaseOf;
    assert PhaseOf(s.outbox, c, g) != Wrong;
    PhasesAreEvents(s.outbox, c, g);
    var events := EventsOf(s.outbox, c, g);
    if PhaseOf(s.outbox, c, g).Dropped? { assert events == [ExecutionSkipped(events[0].group)]; }
  }

  // If the file came with the results of its group, it is this.
  ghost predicate KeyReceived(s: State, c: ClientId, f: FileId, key: FileKey) {
    && c in s.clients && c in s.records
    && forall g :: g in s.clients[c].dag.groups && f in Outs(s.clients[c].dag.groups[g]) && CompletedWith(s.records[c], g, f) ==>
      key == s.records[c].reports[g].outputs[f]
  }

  /** What a connected client was told is true: a file is there or will never
      be, a group did what its results say, a finished evaluation is finished. */
  lemma NoLies(s: State, c: ClientId, i: nat)
    requires Inv(s) && c in s.clients && c in s.records && i < |s.outbox| && s.outbox[i].client == c
    ensures s.outbox[i].event.EvaluationDone? ==>
      forall g :: g in s.clients[c].dag.groups ==> g in s.records[c].status && s.records[c].status[g].Final()
    ensures s.outbox[i].event.ExecutionDone? ==>
      var event := s.outbox[i].event;
      && Is(s.records, c, event.group, OutcomeOf(event.results))
      && event.group in s.records[c].reports && s.records[c].reports[event.group].results == event.results
    ensures s.outbox[i].event.FileReady? && s.outbox[i].event.successful ==> s.outbox[i].event.file in s.clients[c].handles
    ensures s.outbox[i].event.FileReady? ==> KeyReceived(s, c, s.outbox[i].event.file, s.outbox[i].event.key)
  {
    hide ClientInvs, Queue, Prioritised, Workforce, Outcomes, JobsSeen, Told, Orderly, Delivered, Addressed, AllSuccess;
    assert TrueOf(s.outbox[i].event, s.clients[c], s.records[c]);
    OneClient(s, c);
    if s.outbox[i].event.FileReady? {
      var f := s.outbox[i].event.file;
      forall g | g in s.clients[c].dag.groups && f in Outs(s.clients[c].dag.groups[g])
        ensures f in s.records[c].producer && s.records[c].producer[f] == g
      {
        OutputsAre(s, c, g, f);
      }
    }
  }

  /** And it was told: between messages every watched group that completed has
      had its `Done`, every watched group that was skipped its `Skipped`, and
      every watched output of a group that succeeded has been sent. So has every
      watched output of a group that failed, if it came with the results. */
  lemma NothingUntold(s: State, c: ClientId, g: GroupId, f: FileId)
    requires Inv(s) && Settled(s) && c in s.clients && g in s.clients[c].dag.groups
    ensures g in s.clients[c].callbacks.executions && (Is(s.records, c, g, Succeeded) || Is(s.records, c, g, Failed)) ==>
      PhaseOf(s.outbox, c, g) == Done
    ensures g in s.clients[c].callbacks.executions && Is(s.records, c, g, Skipped) ==> PhaseOf(s.outbox, c, g) == Dropped
    ensures f in s.clients[c].callbacks.files && f in Outs(s.clients[c].dag.groups[g]) && Is(s.records, c, g, Succeeded) ==>
      FileSent(s.outbox, c, f, true)
    ensures f in s.clients[c].callbacks.files && f in Outs(s.clients[c].dag.groups[g]) && Is(s.records, c, g, Failed) ==>
      (CompletedWith(s.records[c], g, f) ==> FileSent(s.outbox, c, f, false))
  {
    hide Inv, Settled, FileSent, PhaseOf, Outs;
    GroupsTold(s, c, g);
    if f in Outs(s.clients[c].dag.groups[g]) && (Is(s.records, c, g, Succeeded) || Is(s.records, c, g, Failed)) {
      OutputKnown(s, c, g, f);
      if f in s.clients[c].callbacks.files { KnownFileSent(s, c, f); }
    }
  }

  lemma GroupsTold(s: State, c: ClientId, g: GroupId)
    requires Inv(s) && c in s.clients
    ensures g in s.clients[c].callbacks.executions && (Is(s.records, c, g, Succeeded) || Is(s.records, c, g, Failed)) ==>
      PhaseOf(s.outbox, c, g) == Done
    ensures g in s.clients[c].callbacks.executions && Is(s.records, c, g, Skipped) ==> PhaseOf(s.outbox, c, g) == Dropped
  {
    hide ClientInvs, Queue, Prioritised, Workforce, Outcomes, JobsSeen, Truthful, Orderly, Addressed, Delivered, PhaseOf;
    assert c in s.records;
  }

  lemma OutputKnown(s: State, c: ClientId, g: GroupId, f: FileId)
    requires Inv(s) && Settled(s) && c in s.clients && g in s.clients[c].dag.groups
    requires Is(s.records, c, g, Succeeded) || Is(s.records, c, g, Failed)
    requires f in Outs(s.clients[c].dag.groups[g])
    ensures c in s.records && f in s.records[c].producer && s.records[c].producer[f] == g
    ensures f in s.records[c].announced && (s.records[c].announced[f] <==> Is(s.records, c, g, Succeeded))
  {
    hide Inv, Outs, Static, Tables, Sound;
    OneClient(s, c);
    OutputsAre(s, c, g, f);
    assert !Owed(s, c, f);
  }

  lemma KnownFileSent(s: State, c: ClientId, f: FileId)
    requires Inv(s) && c in s.clients && c in s.records && f in s.records[c].announced && f in s.clients[c].callbacks.files
    ensures s.records[c].announced[f] ==> FileSent(s.outbox, c, f, true)
    ensures !s.records[c].announced[f] && CameWith(s.records[c], f) ==> FileSent(s.outbox, c, f, false)
  {
    hide ClientInvs, Queue, Prioritised, Workforce, Outcomes, JobsSeen, Truthful, Orderly, Addressed, Told, FileSent,
         BadSettled, CameWith;
    assert GoodNews(s.clients[c], s.records[c], f) ==> FileSent(s.outbox, c, f, true);
  }
}
