/** What the scheduler has told the clients so far.
    Source: task-maker-exec/src/scheduler.rs. */
module SchedulerHistory {
  import opened Dag
  import opened SchedulerState

  // Where the events of one group of one client have led.
  datatype Phase = Idle | Started | Done | Dropped | Wrong

  function NextPhase(phase: Phase, m: Message, c: ClientId, g: GroupId): Phase {
    if m.client != c then phase
    else match m.event
      case ExecutionStarted(h, _) => if h != g then phase else if phase.Idle? || phase.Started? then Started else Wrong
      case ExecutionDone(h, _) => if h != g then phase else if phase.Idle? || phase.Started? then Done else Wrong
      case ExecutionSkipped(h) => if h != g then phase else if phase.Idle? then Dropped else Wrong
      case FileReady(_, _, _, _) => phase
      case EvaluationDone => phase
  }

  function PhaseOf(outbox: seq<Message>, c: ClientId, g: GroupId): Phase {
    if outbox == [] then Idle
    else NextPhase(PhaseOf(outbox[..|outbox| - 1], c, g), outbox[|outbox| - 1], c, g)
  }

  lemma PhaseAppend(outbox: seq<Message>, m: Message)
    ensures forall c, g :: PhaseOf(outbox + [m], c, g) == NextPhase(PhaseOf(outbox, c, g), m, c, g)
  {
    var longer := outbox + [m];
    assert longer[..|longer| - 1] == outbox;
  }

  // What the client knows of a group it watches.
  predicate Fits(phase: Phase, status: Status) {
    match status
    case Waiting => phase.Idle?
    case Ready => phase.Idle? || phase.Started?
    case Running => phase.Started?
    case Completing => phase.Idle? || phase.Started?
    case Succeeded => phase.Done?
    case Failed => phase.Done?
    case Skipped => phase.Dropped?
  }

  ghost predicate Orderly(outbox: seq<Message>) {
    forall c, g :: PhaseOf(outbox, c, g) != Wrong
  }

  ghost predicate Addressed(outbox: seq<Message>, seen: set<ClientId>) {
    forall i :: 0 <= i < |outbox| ==> outbox[i].client in seen
  }

  // The events of every group of a connected client fit its status; a group
  // that is not watched, or not in the DAG, has none.
  ghost predicate Told(outbox: seq<Message>, clients: map<ClientId, ClientData>, records: map<ClientId, Record>) {
    forall c, g :: c in clients && c in records ==>
      if g in records[c].status && g in clients[c].callbacks.executions
      then Fits(PhaseOf(outbox, c, g), records[c].status[g])
      else PhaseOf(outbox, c, g) == Idle
  }

  // Files and completed groups are reported as they turned out, and the
  // evaluation as done when it is.
  ghost predicate Truthful(outbox: seq<Message>, clients: map<ClientId, ClientData>, records: map<ClientId, Record>) {
    forall i :: 0 <= i < |outbox| && outbox[i].client in clients && outbox[i].client in records ==>
      TrueOf(outbox[i].event, clients[outbox[i].client], records[outbox[i].client])
  }

  function OutcomeOf(results: seq<ExecutionResult>): Status {
    if AllSuccess(results) then Succeeded else Failed
  }

  // The file came with the results of the group that produces it.
  ghost predicate CameWith(r: Record, f: FileId) {
    f in r.producer && CompletedWith(r, r.producer[f], f)
  }

  ghost predicate CompletedWith(r: Record, g: GroupId, f: FileId) {
    g in r.status && (r.status[g] == Succeeded || r.status[g] == Failed) && g in r.reports && f in r.reports[g].outputs
  }

  // If the file came with results, this is what came.
  ghost predicate Received(r: Record, f: FileId, key: FileKey) {
    CameWith(r, f) ==> r.reports[r.producer[f]].outputs[f] == key
  }

  ghost predicate TrueOf(event: Event, d: ClientData, r: Record) {
    && (event.FileReady? ==>
         && (if event.successful then Good(d, r, event.file) else Bad(r, event.file))
         && Received(r, event.file, event.key))
    && (event.ExecutionDone? ==>
         && event.group in r.status && r.status[event.group] == OutcomeOf(event.results)
         && event.group in r.reports && r.reports[event.group].results == event.results)
    && (event.EvaluationDone? ==> forall g :: g in r.status ==> r.status[g].Final())
  }

  ghost predicate FileSent(outbox: seq<Message>, c: ClientId, f: FileId, ok: bool) {
    exists i :: 0 <= i < |outbox| && outbox[i].client == c
      && outbox[i].event.FileReady? && outbox[i].event.file == f && outbox[i].event.successful == ok
  }

  ghost predicate GoodNews(d: ClientData, r: Record, f: FileId) {
    f in r.announced && r.announced[f] && f in d.callbacks.files
  }

  ghost predicate BadNews(d: ClientData, r: Record, f: FileId) {
    f in r.announced && !r.announced[f] && f in d.callbacks.files && CameWith(r, f)
  }

  // Every watched file that is there has been sent, and so has every watched
  // one that came with the results of a group that failed.
  ghost predicate Delivered(outbox: seq<Message>, clients: map<ClientId, ClientData>, records: map<ClientId, Record>) {
    forall c, f :: c in clients && c in records ==>
      && (GoodNews(clients[c], records[c], f) ==> FileSent(outbox, c, f, true))
      && (BadNews(clients[c], records[c], f) ==> FileSent(outbox, c, f, false))
  }

  // The outcome of a file that was announced as bad is settled.
  ghost predicate BadSettled(records: map<ClientId, Record>) {
    forall c, f :: c in records && f in records[c].announced && !records[c].announced[f] ==> Bad(records[c], f)
  }

  ghost predicate History(outbox: seq<Message>, clients: map<ClientId, ClientData>, records: map<ClientId, Record>,
                          seen: set<ClientId>) {
    && Addressed(outbox, seen)
    && Orderly(outbox)
    && Told(outbox, clients, records)
    && Truthful(outbox, clients, records)
    && Delivered(outbox, clients, records)
    && BadSettled(records)
  }

  // ---------------------------------------------------------------- steps

  // Every client keeps its callbacks, and what its files are worth does not change back.
  ghost predicate Keeps(clients: map<ClientId, ClientData>, records: map<ClientId, Record>,
                        clients': map<ClientId, ClientData>, records': map<ClientId, Record>) {
    && clients'.Keys == clients.Keys == records'.Keys == records.Keys
    && forall c :: c in clients ==>
      && clients'[c].callbacks == clients[c].callbacks
      && records'[c].status.Keys == records[c].status.Keys
      && Settles(clients[c], records[c], clients'[c], records'[c])
      && records'[c].producer == records[c].producer
      && (forall g :: g in records[c].status && records[c].status[g].Final() ==> SameReport(records[c], records'[c], g))
  }

  // The group ended as before, with the same results.
  ghost predicate SameReport(r: Record, r': Record, g: GroupId) {
    && g in r.status && g in r'.status && r'.status[g] == r.status[g]
    && (g in r.reports <==> g in r'.reports) && (g in r.reports ==> r'.reports[g] == r.reports[g])
  }

  lemma TruthSettles(event: Event, d: ClientData, r: Record, d': ClientData, r': Record)
    requires TrueOf(event, d, r) && Settles(d, r, d', r')
    requires r'.status.Keys == r.status.Keys && r'.producer == r.producer
    requires forall g :: g in r.status && r.status[g].Final() ==> SameReport(r, r', g)
    ensures TrueOf(event, d', r')
  {
    hide AllSuccess;
  }

  lemma TruthfulKept(outbox: seq<Message>, clients: map<ClientId, ClientData>, records: map<ClientId, Record>,
                     clients': map<ClientId, ClientData>, records': map<ClientId, Record>)
    requires Truthful(outbox, clients, records) && Keeps(clients, records, clients', records')
    ensures Truthful(outbox, clients', records')
  {
    hide Settles, TrueOf;
    forall i | 0 <= i < |outbox| && outbox[i].client in clients'
      ensures TrueOf(outbox[i].event, clients'[outbox[i].client], records'[outbox[i].client])
    {
      var c := outbox[i].client;
      TruthSettles(outbox[i].event, clients[c], records[c], clients'[c], records'[c]);
    }
  }

  lemma StillSent(outbox: seq<Message>, m: Message)
    ensures forall c, f, ok :: FileSent(outbox, c, f, ok) ==> FileSent(outbox + [m], c, f, ok)
  {
    forall c, f, ok | FileSent(outbox, c, f, ok) ensures FileSent(outbox + [m], c, f, ok) {
      var i :| 0 <= i < |outbox| && outbox[i].client == c
        && outbox[i].event.FileReady? && outbox[i].event.file == f && outbox[i].event.successful == ok;
      assert (outbox + [m])[i] == outbox[i];
    }
  }

  lemma DeliveredGrows(outbox: seq<Message>, m: Message, clients: map<ClientId, ClientData>,
                       records: map<ClientId, Record>)
    requires Delivered(outbox, clients, records)
    ensures Delivered(outbox + [m], clients, records)
  {
    hide FileSent;
    StillSent(outbox, m);
  }

  // What came with results, and was announced as bad, did so before.
  lemma NothingNewCame(clients: map<ClientId, ClientData>, records: map<ClientId, Record>,
                       clients': map<ClientId, ClientData>, records': map<ClientId, Record>, c: ClientId, f: FileId)
    requires Keeps(clients, records, clients', records') && c in clients && BadSettled(records)
    requires records'[c].announced == records[c].announced
    ensures BadNews(clients'[c], records'[c], f) ==> BadNews(clients[c], records[c], f)
  {
    hide Settles;
    if BadNews(clients'[c], records'[c], f) { assert Bad(records[c], f); }
  }

  lemma DeliveredKept(outbox: seq<Message>, clients: map<ClientId, ClientData>, records: map<ClientId, Record>,
                      clients': map<ClientId, ClientData>, records': map<ClientId, Record>)
    requires Delivered(outbox, clients, records) && BadSettled(records) && Keeps(clients, records, clients', records')
    requires forall c :: c in records ==> records'[c].announced == records[c].announced
    ensures Delivered(outbox, clients', records') && BadSettled(records')
  {
    hide FileSent, BadNews, CameWith;
    forall c, f | c in clients' && c in records'
      ensures GoodNews(clients'[c], records'[c], f) ==> FileSent(outbox, c, f, true)
      ensures BadNews(clients'[c], records'[c], f) ==> FileSent(outbox, c, f, false)
    {
      NothingNewCame(clients, records, clients', records', c, f);
    }
    forall c, f | c in records' && f in records'[c].announced && !records'[c].announced[f] ensures Bad(records'[c], f) {
      assert Bad(records[c], f) && Settles(clients[c], records[c], clients'[c], records'[c]);
    }
  }

  // No event, and every status moves to one the events seen so far fit as well.
  lemma QuietStep(outbox: seq<Message>, clients: map<ClientId, ClientData>, records: map<ClientId, Record>,
                  seen: set<ClientId>,
                  clients': map<ClientId, ClientData>, records': map<ClientId, Record>)
    requires History(outbox, clients, records, seen) && Keeps(clients, records, clients', records')
    requires forall c :: c in records ==> records'[c].announced == records[c].announced
    requires forall c, g :: c in records && g in records[c].status && g in clients[c].callbacks.executions ==>
      forall p :: Fits(p, records[c].status[g]) ==> Fits(p, records'[c].status[g])
    ensures History(outbox, clients', records', seen)
  {
    hide Truthful, Settles, Fits, PhaseOf, FileSent, Delivered, BadSettled, SameReport;
    TruthfulKept(outbox, clients, records, clients', records');
    DeliveredKept(outbox, clients, records, clients', records');
  }

  lemma GroupEventIsTrue(event: Event, d: ClientData, r: Record)
    requires event.ExecutionSkipped? || event.ExecutionStarted? || event.ExecutionDone?
    requires event.ExecutionDone? ==>
      && event.group in r.status && r.status[event.group] == OutcomeOf(event.results)
      && event.group in r.reports && r.reports[event.group].results == event.results
    ensures TrueOf(event, d, r)
  {
  }

  // One event about one group whose status moves along; nothing else moves.
  lemma GroupEvent(outbox: seq<Message>, clients: map<ClientId, ClientData>, records: map<ClientId, Record>,
                   seen: set<ClientId>,
                   clients': map<ClientId, ClientData>, records': map<ClientId, Record>, c: ClientId, g: GroupId, event: Event)
    requires History(outbox, clients, records, seen) && Keeps(clients, records, clients', records')
    requires c in seen && c in clients && g in records[c].status && g in clients[c].callbacks.executions
    requires event == ExecutionSkipped(g) || (event.ExecutionStarted? && event.group == g) || (event.ExecutionDone? && event.group == g)
    requires forall c' :: c' in records ==> records'[c'].announced == records[c'].announced
    requires forall c', g' :: c' in records && g' in records[c'].status && (c' != c || g' != g) ==>
      records'[c'].status[g'] == records[c'].status[g']
    requires event.ExecutionDone? ==>
      && records'[c].status[g] == OutcomeOf(event.results)
      && g in records'[c].reports && records'[c].reports[g].results == event.results
    requires forall p :: Fits(p, records[c].status[g]) ==>
      Fits(NextPhase(p, Message(c, event), c, g), records'[c].status[g])
    ensures History(outbox + [Message(c, event)], clients', records', seen)
  {
    hide Settles, PhaseOf, TrueOf, Delivered, BadSettled, SameReport;
    var m := Message(c, event);
    var outbox' := outbox + [m];
    PhaseAppend(outbox, m);
    TruthfulKept(outbox, clients, records, clients', records');
    GroupEventIsTrue(event, clients'[c], records'[c]);
    DeliveredGrows(outbox, m, clients, records);
    DeliveredKept(outbox', clients, records, clients', records');
    assert Told(outbox', clients', records');
    assert Orderly(outbox') by {
      assert Fits(PhaseOf(outbox, c, g), records[c].status[g]);
      assert PhaseOf(outbox', c, g) != Wrong;
    }
  }

  // An event that is not about a group: a file sent, or the end of the evaluation.
  lemma OtherEvent(outbox: seq<Message>, clients: map<ClientId, ClientData>, records: map<ClientId, Record>,
                   seen: set<ClientId>,
                   c: ClientId, event: Event)
    requires History(outbox, clients, records, seen)
    requires c in seen && (event.FileReady? || event.EvaluationDone?)
    requires c in clients && c in records ==> TrueOf(event, clients[c], records[c])
    ensures History(outbox + [Message(c, event)], clients, records, seen)
  {
    hide PhaseOf, FileSent, TrueOf, Fits;
    var m := Message(c, event);
    PhaseAppend(outbox, m);
    DeliveredGrows(outbox, m, clients, records);
    assert forall c', g :: PhaseOf(outbox + [m], c', g) == PhaseOf(outbox, c', g);
    assert Told(outbox + [m], clients, records);
  }

  lemma AnnounceKeeps(clients: map<ClientId, ClientData>, records: map<ClientId, Record>, c: ClientId, f: FileId,
                      ok: bool)
    requires clients.Keys == records.Keys && c in records
    ensures Keeps(clients, records, clients, records[c := Announced(records[c], f, ok)])
  {
  }

  // A file is now announced; when it is a watched and good one, it has been sent.
  lemma HistoryAnnounce(outbox: seq<Message>, clients: map<ClientId, ClientData>, records: map<ClientId, Record>,
                        seen: set<ClientId>,
                        c: ClientId, f: FileId, ok: bool)
    requires History(outbox, clients, records, seen) && clients.Keys == records.Keys && c in records
    requires ok && f in clients[c].callbacks.files ==> FileSent(outbox, c, f, true)
    requires !ok ==> Bad(records[c], f)
    requires !ok && f in clients[c].callbacks.files && CameWith(records[c], f) ==> FileSent(outbox, c, f, false)
    ensures History(outbox, clients, records[c := Announced(records[c], f, ok)], seen)
  {
    hide PhaseOf, FileSent, TrueOf, Fits, Settles, Delivered, BadSettled;
    var records' := records[c := Announced(records[c], f, ok)];
    AnnounceKeeps(clients, records, c, f, ok);
    TruthfulKept(outbox, clients, records, clients, records');
    DeliveredAnnounced(outbox, clients, records, c, f, ok);
    assert Told(outbox, clients, records');
  }

  lemma DeliveredAnnounced(outbox: seq<Message>, clients: map<ClientId, ClientData>, records: map<ClientId, Record>,
                           c: ClientId, f: FileId, ok: bool)
    requires Delivered(outbox, clients, records) && BadSettled(records) && c in records && c in clients
    requires ok && f in clients[c].callbacks.files ==> FileSent(outbox, c, f, true)
    requires !ok ==> Bad(records[c], f)
    requires !ok && f in clients[c].callbacks.files && CameWith(records[c], f) ==> FileSent(outbox, c, f, false)
    ensures var records' := records[c := Announced(records[c], f, ok)];
      Delivered(outbox, clients, records') && BadSettled(records')
  {
    hide FileSent;
  }
}
