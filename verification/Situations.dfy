/** What the executions of a group are given when they are run: the part of it
    that the cache key shows, and the part that it does not.
    Source: task-maker-cache/src/key.rs, task-maker-exec/src/execution_unit/sandbox.rs. */
module Situations {
  import opened Dag
  import opened CacheKeys

  // A path, or the `index`th FIFO of the group, whatever its uuid is.
  datatype Place = PathTo(path: Path) | Fifo(index: nat)

  datatype Source = FileContent | Opened(place: Place) | NoSource | FromCaller

  datatype Sink = Captured | Redirected(place: Place) | NoSink | ToCaller

  // What the key has of one execution.
  datatype Shown = Shown(
    command: Command,
    args: seq<string>,
    stdin: Option<FileKey>,
    inputs: map<Path, (FileKey, bool)>,
    env: map<string, string>)

  // What the key does not have: which arguments are FIFOs and not just texts
  // that look like their replacements, where the streams come from and go to,
  // the files that are created to be written, and the variables of the worker.
  datatype Hidden = Hidden(
    fifoArgs: seq<Option<nat>>,
    stdin: Source,
    stdout: Sink,
    stderr: Sink,
    outputs: set<Path>,
    copyEnv: seq<string>)

  datatype Situation = Situation(
    shown: seq<Shown>,
    hidden: seq<Hidden>,
    fifos: nat,
    controller: Option<ControllerSettings>)

  function PlaceOf(path: Path, fifo: seq<FifoId>): Place {
    var index := FifoIndex(path, fifo);
    if index.Some? then Fifo(index.value) else PathTo(path)
  }

  function SourceOf(stdin: InputBehaviour, fifo: seq<FifoId>): Source {
    match stdin
    case FromFile(_) => FileContent
    case FromPath(path) => Opened(PlaceOf(path, fifo))
    case NoInput => NoSource
    case InheritInput => FromCaller
  }

  function SinkOf(output: OutputBehaviour, fifo: seq<FifoId>): Sink {
    match output
    case Capture(_, _) => Captured
    case ToPath(path) => Redirected(PlaceOf(path, fifo))
    case NoOutput => NoSink
    case InheritOutput => ToCaller
  }

  function ShownOf(e: Execution, handles: map<FileId, FileKey>, fifo: seq<FifoId>): Shown
    requires HasKeys(e, handles)
  {
    assert forall p :: p in e.inputFiles ==> e.inputFiles[p].file in e.Reads();
    Shown(e.command, KeyArgs(e.args, fifo), StdinKey(e, handles),
          map p | p in e.inputFiles :: InputContent(e, handles, p), e.env)
  }

  function HiddenOf(e: Execution, fifo: seq<FifoId>): Hidden {
    Hidden(
      seq(|e.args|, i requires 0 <= i < |e.args| => FifoIndex(e.args[i], fifo)),
      SourceOf(e.stdin, fifo), SinkOf(e.stdout, fifo), SinkOf(e.stderr, fifo), e.outputFiles.Keys, e.copyEnv)
  }

  /** What the group is given when the contents of its files are these. */
  function SituationOf(group: ExecutionGroup, handles: map<FileId, FileKey>): (s: Situation)
    requires GroupHasKeys(group, handles)
    ensures |s.shown| == |s.hidden| == |group.executions|
  {
    var n := |group.executions|;
    Situation(
      seq(n, i requires 0 <= i < n => ShownOf(group.executions[i], handles, group.fifo)),
      seq(n, i requires 0 <= i < n => HiddenOf(group.executions[i], group.fifo)),
      |group.fifo|, group.controller)
  }

  lemma ShownInputs(e: Execution, keys: map<FileId, FileKey>, fifo: seq<FifoId>)
    requires HasKeys(e, keys)
    ensures ShownOf(e, keys, fifo).inputs.Keys == e.inputFiles.Keys
    ensures forall p :: p in e.inputFiles ==> e.inputFiles[p].file in keys && ShownOf(e, keys, fifo).inputs[p] == InputContent(e, keys, p)
  {
    hide KeyArgs, StdinKey, InputContent;
    assert forall p :: p in e.inputFiles ==> e.inputFiles[p].file in e.Reads();
  }

  lemma InputsExactly(e1: Execution, keys1: map<FileId, FileKey>, fifo1: seq<FifoId>,
                      e2: Execution, keys2: map<FileId, FileKey>, fifo2: seq<FifoId>)
    requires HasKeys(e1, keys1) && HasKeys(e2, keys2)
    ensures ShownOf(e1, keys1, fifo1).inputs == ShownOf(e2, keys2, fifo2).inputs <==>
      e1.inputFiles.Keys == e2.inputFiles.Keys && forall p :: p in e1.inputFiles ==> SameInput(e1, keys1, e2, keys2, p)
  {
    hide ShownOf, InputContent, HasKeys, Execution.Reads;
    ShownInputs(e1, keys1, fifo1);
    ShownInputs(e2, keys2, fifo2);
  }

  lemma ShownExactly(g1: ExecutionGroup, keys1: map<FileId, FileKey>, g2: ExecutionGroup, keys2: map<FileId, FileKey>, i: nat)
    requires GroupHasKeys(g1, keys1) && GroupHasKeys(g2, keys2)
    requires i < |g1.executions| && i < |g2.executions|
    ensures ShownOf(g1.executions[i], keys1, g1.fifo) == ShownOf(g2.executions[i], keys2, g2.fifo)
      <==> SameExecution(g1, keys1, g2, keys2, i)
  {
    hide KeyArgs, SameInput, InputContent, StdinKey;
    InputsExactly(g1.executions[i], keys1, g1.fifo, g2.executions[i], keys2, g2.fifo);
  }

  /** The key of a group is exactly the shown part of what the group is given. */
  lemma KeyShowsExactly(g1: ExecutionGroup, keys1: map<FileId, FileKey>, g2: ExecutionGroup, keys2: map<FileId, FileKey>)
    requires GroupHasKeys(g1, keys1) && GroupHasKeys(g2, keys2)
    ensures KeyOf(g1, keys1) == KeyOf(g2, keys2) <==> SituationOf(g1, keys1).shown == SituationOf(g2, keys2).shown
  {
    hide ShownOf, SameExecution;
    KeyCharacterised(g1, keys1, g2, keys2);
    var a, b := SituationOf(g1, keys1).shown, SituationOf(g2, keys2).shown;
    if |a| == |b| {
      forall i | 0 <= i < |a| ensures a[i] == b[i] <==> SameExecution(g1, keys1, g2, keys2, i) {
        ShownExactly(g1, keys1, g2, keys2, i);
      }
    }
  }

  // The files that the group reads are the same.
  ghost predicate InputsAgree(group: ExecutionGroup, a: map<FileId, FileKey>, b: map<FileId, FileKey>) {
    forall f :: f in Deps(group) ==> f in a && f in b && a[f] == b[f]
  }

  /** What a group is given, and its key, depend on the files it reads only. */
  lemma AgreeingInputsSameKey(group: ExecutionGroup, a: map<FileId, FileKey>, b: map<FileId, FileKey>)
    requires InputsAgree(group, a, b)
    ensures GroupHasKeys(group, a) && GroupHasKeys(group, b)
    ensures SituationOf(group, a) == SituationOf(group, b) && KeyOf(group, a) == KeyOf(group, b)
  {
    forall i | 0 <= i < |group.executions| ensures HasKeys(group.executions[i], a) && HasKeys(group.executions[i], b) {
      assert forall f :: f in group.executions[i].Reads() ==> f in Deps(group);
    }
    forall i | 0 <= i < |group.executions| ensures SameExecution(group, a, group, b, i) {
      ReadsTheSame(group, i, a, b);
    }
    hide KeyArgs, HiddenOf, ShownOf;
    KeyCharacterised(group, a, group, b);
    KeyShowsExactly(group, a, group, b);
  }

  lemma ReadsTheSame(group: ExecutionGroup, i: nat, a: map<FileId, FileKey>, b: map<FileId, FileKey>)
    requires i < |group.executions| && InputsAgree(group, a, b)
    requires HasKeys(group.executions[i], a) && HasKeys(group.executions[i], b)
    ensures ShownAlike(group.executions[i], a, group.executions[i], b)
  {
    var e := group.executions[i];
    assert forall f :: f in e.Reads() ==> f in Deps(group);
    forall p | p in e.inputFiles ensures SameInput(e, a, e, b, p) {
      assert e.inputFiles[p].file in e.Reads();
    }
  }
}
