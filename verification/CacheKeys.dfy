/** The key under which the results of a group are cached: the commands, the
    arguments, the variables and the contents of the files, and nothing of the
    identifiers of one evaluation.
    Source: task-maker-cache/src/key.rs. */
module CacheKeys {
  import opened Dag
  import opened Sorting

  datatype CacheKeyItem = CacheKeyItem(
    command: Command,
    args: seq<string>,
    stdin: Option<FileKey>,
    inputs: seq<(Path, FileKey, bool)>,
    env: seq<(string, string)>)

  type CacheKey = seq<CacheKeyItem>

  function Decimal(n: nat): string {
    if n < 10 then [DIGITS[n]] else Decimal(n / 10) + [DIGITS[n % 10]]
  }

  const DIGITS: string := "0123456789"

  function SandboxPath(fifo: FifoId): string {
    FIFO_SANDBOX_DIR + "/" + fifo
  }

  function FifoName(i: nat): string {
    "tm_fifo_" + Decimal(i)
  }

  /** Different positions have different names, so exchanging two FIFOs shows. */
  lemma {:induction false} DecimalInjective(m: nat, n: nat)
    requires Decimal(m) == Decimal(n)
    ensures m == n
  {
    if m < 10 || n < 10 {
      OneDigit(m);
      OneDigit(n);
    } else {
      var a, b := Decimal(m), Decimal(n);
      assert Decimal(m / 10) == a[..|a| - 1] && Decimal(n / 10) == b[..|b| - 1];
      DecimalInjective(m / 10, n / 10);
      assert DIGITS[m % 10] == a[|a| - 1] == DIGITS[n % 10];
    }
  }

  lemma OneDigit(n: nat)
    ensures n < 10 <==> |Decimal(n)| == 1
  {
    if n >= 10 { assert |Decimal(n / 10)| > 0; }
  }

  lemma FifoNamesDiffer(i: nat, j: nat)
    requires i != j
    ensures FifoName(i) != FifoName(j)
  {
    if FifoName(i) == FifoName(j) {
      assert Decimal(i) == FifoName(i)[8..] && Decimal(j) == FifoName(j)[8..];
      DecimalInjective(i, j);
    }
  }

  // The last position of `fifo` whose path is `arg`: a later entry of the lookup table replaces an earlier one.
  function FifoIndex(arg: string, fifo: seq<FifoId>): (r: Option<nat>)
    ensures r.Some? ==> r.value < |fifo| && SandboxPath(fifo[r.value]) == arg
    ensures r.Some? ==> forall i :: r.value < i < |fifo| ==> SandboxPath(fifo[i]) != arg
    ensures r.None? ==> forall i :: 0 <= i < |fifo| ==> SandboxPath(fifo[i]) != arg
  {
    if fifo == [] then None
    else if SandboxPath(fifo[|fifo| - 1]) == arg then Some(|fifo| - 1)
    else FifoIndex(arg, fifo[..|fifo| - 1])
  }

  function KeyArg(arg: string, fifo: seq<FifoId>): string {
    var index := FifoIndex(arg, fifo);
    if index.Some? then FifoName(index.value) else arg
  }

  function KeyArgs(args: seq<string>, fifo: seq<FifoId>): seq<string> {
    seq(|args|, i requires 0 <= i < |args| => KeyArg(args[i], fifo))
  }

  ghost predicate FifoTable(fifos: map<string, string>, fifo: seq<FifoId>) {
    && (forall name :: name in fifos <==> FifoIndex(name, fifo).Some?)
    && (forall name :: name in fifos ==> fifos[name] == KeyArg(name, fifo))
  }

  lemma FifoTableGrows(fifos: map<string, string>, fifo: seq<FifoId>, next: FifoId)
    requires FifoTable(fifos, fifo)
    ensures FifoTable(fifos[SandboxPath(next) := FifoName(|fifo|)], fifo + [next])
  {
    hide SandboxPath, FifoName;
    assert (fifo + [next])[..|fifo|] == fifo;
  }

  /** The arguments of an execution, the paths of the FIFOs of the group
      replaced by their position in the group. */
  method RewriteArgs(args: seq<string>, fifo: seq<FifoId>) returns (r: seq<string>)
    ensures r == KeyArgs(args, fifo)
  {
    hide SandboxPath, FifoName, FifoIndex;
    var fifos: map<string, string> := map[];
    EmptyFifoTable();
    for i := 0 to |fifo|
      invariant FifoTable(fifos, fifo[..i])
    {
      FifoTableGrows(fifos, fifo[..i], fifo[i]);
      assert fifo[..i + 1] == fifo[..i] + [fifo[i]];
      fifos := fifos[SandboxPath(fifo[i]) := FifoName(i)];
    }
    assert fifo[..|fifo|] == fifo;
    r := [];
    for i := 0 to |args|
      invariant |r| == i && forall j :: 0 <= j < i ==> r[j] == KeyArg(args[j], fifo)
    {
      if args[i] in fifos {
        r := r + [fifos[args[i]]];
      } else {
        r := r + [args[i]];
      }
    }
  }

  lemma EmptyFifoTable()
    ensures FifoTable(map[], [])
  {
  }

  // The content of the file at a path, and whether it may be executed.
  function InputContent(e: Execution, fileKeys: map<FileId, FileKey>, path: Path): (FileKey, bool)
    requires path in e.inputFiles && e.inputFiles[path].file in fileKeys
  {
    (fileKeys[e.inputFiles[path].file], e.inputFiles[path].executable)
  }

  ghost predicate HasKeys(e: Execution, fileKeys: map<FileId, FileKey>) {
    e.Reads() <= fileKeys.Keys
  }

  function InputItems(e: Execution, fileKeys: map<FileId, FileKey>): set<(Path, FileKey, bool)>
    requires HasKeys(e, fileKeys)
  {
    assert forall p :: p in e.inputFiles ==> e.inputFiles[p].file in e.Reads();
    set p | p in e.inputFiles :: (p, InputContent(e, fileKeys, p).0, InputContent(e, fileKeys, p).1)
  }

  function EnvItems(e: Execution): set<(string, string)> {
    set name | name in e.env :: (name, e.env[name])
  }

  function StdinKey(e: Execution, fileKeys: map<FileId, FileKey>): Option<FileKey>
    requires HasKeys(e, fileKeys)
  {
    match e.stdin
    case FromFile(file) => assert file in e.Reads(); Some(fileKeys[file])
    case _ => None
  }

  function KeyItem(e: Execution, fileKeys: map<FileId, FileKey>, fifo: seq<FifoId>): CacheKeyItem
    requires HasKeys(e, fileKeys)
  {
    InputOrder();
    PairOrder();
    CacheKeyItem(
      e.command,
      KeyArgs(e.args, fifo),
      StdinKey(e, fileKeys),
      Sorted(InputItems(e, fileKeys), InputLeq),
      Sorted(EnvItems(e), PairLeq))
  }

  ghost predicate GroupHasKeys(group: ExecutionGroup, fileKeys: map<FileId, FileKey>) {
    forall i :: 0 <= i < |group.executions| ==> HasKeys(group.executions[i], fileKeys)
  }

  function KeyOf(group: ExecutionGroup, fileKeys: map<FileId, FileKey>): (key: CacheKey)
    requires GroupHasKeys(group, fileKeys)
    ensures |key| == |group.executions|
  {
    seq(|group.executions|, i requires 0 <= i < |group.executions| => KeyItem(group.executions[i], fileKeys, group.fifo))
  }

  /** The inputs of an execution with the keys of their contents, in whatever
      order the hash map yields them. */
  method WalkInputs(e: Execution, fileKeys: map<FileId, FileKey>) returns (items: seq<(Path, FileKey, bool)>)
    requires HasKeys(e, fileKeys)
    ensures forall x :: x in items <==> x in InputItems(e, fileKeys)
    ensures forall i, j :: 0 <= i < j < |items| ==> items[i] != items[j]
  {
    items := [];
    var todo, done := e.inputFiles.Keys, {};
    while todo != {}
      invariant todo !! done && todo + done == e.inputFiles.Keys
      invariant WalkedInputs(e, fileKeys, done, items)
      decreases todo
    {
      var p :| p in todo;
      assert e.inputFiles[p].file in e.Reads();
      items := items + [(p, fileKeys[e.inputFiles[p].file], e.inputFiles[p].executable)];
      todo, done := todo - {p}, done + {p};
    }
    assert done == e.inputFiles.Keys;
  }

  // The items of the paths `done`, one each.
  ghost predicate WalkedInputs(e: Execution, fileKeys: map<FileId, FileKey>, done: set<Path>, items: seq<(Path, FileKey, bool)>) {
    && (forall i :: 0 <= i < |items| ==> items[i].0 in done && IsInput(e, fileKeys, items[i]))
    && (forall p :: p in done && p in e.inputFiles && e.inputFiles[p].file in fileKeys ==>
         (p, InputContent(e, fileKeys, p).0, InputContent(e, fileKeys, p).1) in items)
    && (forall i, j :: 0 <= i < j < |items| ==> items[i].0 != items[j].0)
  }

  ghost predicate IsInput(e: Execution, fileKeys: map<FileId, FileKey>, x: (Path, FileKey, bool)) {
    && x.0 in e.inputFiles && e.inputFiles[x.0].file in fileKeys
    && (x.1, x.2) == InputContent(e, fileKeys, x.0)
  }

  /** The variables of an execution, in whatever order the hash map yields them. */
  method WalkEnv(e: Execution) returns (items: seq<(string, string)>)
    ensures forall x :: x in items <==> x in EnvItems(e)
    ensures forall i, j :: 0 <= i < j < |items| ==> items[i] != items[j]
  {
    items := [];
    var todo, done := e.env.Keys, {};
    while todo != {}
      invariant todo !! done && todo + done == e.env.Keys
      invariant WalkedEnv(e, done, items)
      decreases todo
    {
      var name :| name in todo;
      items := items + [(name, e.env[name])];
      todo, done := todo - {name}, done + {name};
    }
    assert done == e.env.Keys;
  }

  ghost predicate WalkedEnv(e: Execution, done: set<string>, items: seq<(string, string)>) {
    && (forall i :: 0 <= i < |items| ==> items[i].0 in done && items[i].0 in e.env && items[i].1 == e.env[items[i].0])
    && (forall name :: name in done && name in e.env ==> (name, e.env[name]) in items)
    && (forall i, j :: 0 <= i < j < |items| ==> items[i].0 != items[j].0)
  }

  /** The key of an execution. The inputs and the variables are listed in any
      order and then sorted, so the order does not show. */
  method KeyFromExecution(e: Execution, fileKeys: map<FileId, FileKey>, fifo: seq<FifoId>) returns (item: CacheKeyItem)
    requires HasKeys(e, fileKeys)
    ensures item == KeyItem(e, fileKeys, fifo)
  {
    InputOrder();
    PairOrder();
    hide KeyArgs, InputItems, EnvItems, StdinKey, Sorted, TotalOrder, Ascending;
    var walked := WalkInputs(e, fileKeys);
    var inputs := Sort(walked, InputLeq);
    SortedOnceIsSorted(InputItems(e, fileKeys), inputs, InputLeq);
    var variables := WalkEnv(e);
    var env := Sort(variables, PairLeq);
    SortedOnceIsSorted(EnvItems(e), env, PairLeq);
    var args := RewriteArgs(e.args, fifo);
    item := CacheKeyItem(e.command, args, StdinKey(e, fileKeys), inputs, env);
  }

  method KeyFromGroup(group: ExecutionGroup, fileKeys: map<FileId, FileKey>) returns (key: CacheKey)
    requires GroupHasKeys(group, fileKeys)
    ensures key == KeyOf(group, fileKeys)
  {
    hide KeyItem, HasKeys;
    key := [];
    for i := 0 to |group.executions|
      invariant |key| == i
      invariant forall j :: 0 <= j < i ==> key[j] == KeyItem(group.executions[j], fileKeys, group.fifo)
    {
      var item := KeyFromExecution(group.executions[i], fileKeys, group.fifo);
      key := key + [item];
    }
  }

  // ---------------------------------------------------------------- what the key identifies

  /** Two executions the key does not tell apart, as far as it shows what a
      sandbox gets, whatever the file ids are: same command, same variables that
      are set, same contents at the same paths. */
  ghost predicate ShownAlike(e1: Execution, keys1: map<FileId, FileKey>, e2: Execution, keys2: map<FileId, FileKey>)
    requires HasKeys(e1, keys1) && HasKeys(e2, keys2)
  {
    && e1.command == e2.command
    && e1.env == e2.env
    && StdinKey(e1, keys1) == StdinKey(e2, keys2)
    && e1.inputFiles.Keys == e2.inputFiles.Keys
    && forall p :: p in e1.inputFiles ==> SameInput(e1, keys1, e2, keys2, p)
  }

  ghost predicate SameInput(e1: Execution, keys1: map<FileId, FileKey>, e2: Execution, keys2: map<FileId, FileKey>,
                            p: Path)
    requires HasKeys(e1, keys1) && HasKeys(e2, keys2)
    requires p in e1.inputFiles && p in e2.inputFiles
  {
    assert e1.inputFiles[p].file in e1.Reads() && e2.inputFiles[p].file in e2.Reads();
    InputContent(e1, keys1, p) == InputContent(e2, keys2, p)
  }

  lemma SortedDetermines<T(!new)>(a: set<T>, b: set<T>, leq: (T, T) -> bool)
    requires TotalOrder(leq)
    ensures Sorted(a, leq) == Sorted(b, leq) <==> a == b
  {
    if Sorted(a, leq) == Sorted(b, leq) {
      assert forall x :: x in a <==> x in Sorted(a, leq);
      assert forall x :: x in b <==> x in Sorted(b, leq);
    }
  }

  lemma InputItemsDetermine(e1: Execution, keys1: map<FileId, FileKey>, e2: Execution, keys2: map<FileId, FileKey>)
    requires HasKeys(e1, keys1) && HasKeys(e2, keys2)
    ensures InputItems(e1, keys1) == InputItems(e2, keys2) <==>
      e1.inputFiles.Keys == e2.inputFiles.Keys && forall p :: p in e1.inputFiles ==> SameInput(e1, keys1, e2, keys2, p)
  {
    var a, b := InputItems(e1, keys1), InputItems(e2, keys2);
    forall p | p in e1.inputFiles ensures (p, InputContent(e1, keys1, p).0, InputContent(e1, keys1, p).1) in a {
      assert e1.inputFiles[p].file in e1.Reads();
    }
    forall p | p in e2.inputFiles ensures (p, InputContent(e2, keys2, p).0, InputContent(e2, keys2, p).1) in b {
      assert e2.inputFiles[p].file in e2.Reads();
    }
  }

  lemma EnvItemsDetermine(e1: Execution, e2: Execution)
    ensures EnvItems(e1) == EnvItems(e2) <==> e1.env == e2.env
  {
    var a, b := EnvItems(e1), EnvItems(e2);
    assert forall n :: n in e1.env ==> (n, e1.env[n]) in a;
    assert forall n :: n in e2.env ==> (n, e2.env[n]) in b;
    if a == b {
      assert e1.env.Keys == e2.env.Keys;
    }
  }

  lemma ItemCharacterised(e1: Execution, keys1: map<FileId, FileKey>, fifo1: seq<FifoId>,
                          e2: Execution, keys2: map<FileId, FileKey>, fifo2: seq<FifoId>)
    requires HasKeys(e1, keys1) && HasKeys(e2, keys2)
    ensures KeyItem(e1, keys1, fifo1) == KeyItem(e2, keys2, fifo2) <==>
      ShownAlike(e1, keys1, e2, keys2) && KeyArgs(e1.args, fifo1) == KeyArgs(e2.args, fifo2)
  {
    InputOrder();
    PairOrder();
    SortedDetermines(InputItems(e1, keys1), InputItems(e2, keys2), InputLeq);
    SortedDetermines(EnvItems(e1), EnvItems(e2), PairLeq);
    InputItemsDetermine(e1, keys1, e2, keys2);
    EnvItemsDetermine(e1, e2);
  }

  ghost predicate SameExecution(g1: ExecutionGroup, keys1: map<FileId, FileKey>,
                                g2: ExecutionGroup, keys2: map<FileId, FileKey>, i: nat)
    requires GroupHasKeys(g1, keys1) && GroupHasKeys(g2, keys2)
    requires i < |g1.executions| && i < |g2.executions|
  {
    && ShownAlike(g1.executions[i], keys1, g2.executions[i], keys2)
    && KeyArgs(g1.executions[i].args, g1.fifo) == KeyArgs(g2.executions[i].args, g2.fifo)
  }

  lemma ItemAt(g1: ExecutionGroup, keys1: map<FileId, FileKey>, g2: ExecutionGroup, keys2: map<FileId, FileKey>, i: nat)
    requires GroupHasKeys(g1, keys1) && GroupHasKeys(g2, keys2)
    requires i < |g1.executions| && i < |g2.executions|
    ensures KeyOf(g1, keys1)[i] == KeyOf(g2, keys2)[i] <==> SameExecution(g1, keys1, g2, keys2, i)
  {
    ItemCharacterised(g1.executions[i], keys1, g1.fifo, g2.executions[i], keys2, g2.fifo);
  }

  /** Two groups share a key exactly when their executions, taken in order, see
      the same sandbox and get the same arguments up to the naming of FIFOs. */
  lemma KeyCharacterised(g1: ExecutionGroup, keys1: map<FileId, FileKey>, g2: ExecutionGroup,
                         keys2: map<FileId, FileKey>)
    requires GroupHasKeys(g1, keys1) && GroupHasKeys(g2, keys2)
    ensures KeyOf(g1, keys1) == KeyOf(g2, keys2) <==>
      && |g1.executions| == |g2.executions|
      && forall i :: 0 <= i < |g1.executions| ==> SameExecution(g1, keys1, g2, keys2, i)
  {
    var k1, k2 := KeyOf(g1, keys1), KeyOf(g2, keys2);
    if |k1| == |k2| {
      forall i | 0 <= i < |k1| ensures k1[i] == k2[i] <==> SameExecution(g1, keys1, g2, keys2, i) {
        ItemAt(g1, keys1, g2, keys2, i);
      }
    }
  }

  /** However the hash map of the inputs is walked, sorting what it yields gives
      the list stored in the key. */
  lemma AnyWalkGivesTheKey(e: Execution, fileKeys: map<FileId, FileKey>, fifo: seq<FifoId>,
                           walked: seq<(Path, FileKey, bool)>)
    requires HasKeys(e, fileKeys)
    requires forall x :: x in walked <==> x in InputItems(e, fileKeys)
    requires Ascending(walked, InputLeq)
    ensures KeyItem(e, fileKeys, fifo).inputs == walked
  {
    InputOrder();
    SortedOnceIsSorted(InputItems(e, fileKeys), walked, InputLeq);
  }

  // ---------------------------------------------------------------- renaming

  /** `g2` is `g1` under new names: `files` renames its input files and `fifos`
      its FIFOs, in the list of the group and in the arguments alike. */
  ghost predicate Renamed(g1: ExecutionGroup, g2: ExecutionGroup, files: map<FileId, FileId>,
                          fifos: map<FifoId, FifoId>) {
    && |g1.executions| == |g2.executions|
    && |g1.fifo| == |g2.fifo|
    && (forall i :: 0 <= i < |g1.fifo| ==> g1.fifo[i] in fifos && g2.fifo[i] == fifos[g1.fifo[i]])
    && (forall x, y :: x in g1.fifo && y in g1.fifo && x in fifos && y in fifos && fifos[x] == fifos[y] ==> x == y)
    && forall i :: 0 <= i < |g1.executions| ==>
      && RenamedFiles(g1.executions[i], g2.executions[i], files)
      && |g1.executions[i].args| == |g2.executions[i].args|
      && forall j :: 0 <= j < |g1.executions[i].args| ==>
           RenamedArg(g1.executions[i].args[j], g2.executions[i].args[j], g1.fifo, g2.fifo)
  }

  ghost predicate RenamedFiles(e1: Execution, e2: Execution, files: map<FileId, FileId>) {
    && e1.Reads() <= files.Keys
    && e1.command == e2.command && e1.env == e2.env
    && e1.inputFiles.Keys == e2.inputFiles.Keys
    && (forall p :: p in e1.inputFiles ==>
         e1.inputFiles[p].file in files
         && e2.inputFiles[p] == ExecutionInput(files[e1.inputFiles[p].file], e1.inputFiles[p].executable))
    && (e1.stdin.FromFile? <==> e2.stdin.FromFile?)
    && (e1.stdin.FromFile? ==> e1.stdin.file in files && e2.stdin.file == files[e1.stdin.file])
  }

  // An argument that names a FIFO follows its renaming; any other stays, and names no renamed FIFO.
  ghost predicate RenamedArg(a1: string, a2: string, fifo1: seq<FifoId>, fifo2: seq<FifoId>)
    requires |fifo1| == |fifo2|
  {
    if i :| 0 <= i < |fifo1| && a1 == SandboxPath(fifo1[i]) then a2 == SandboxPath(fifo2[i])
    else a2 == a1 && forall i :: 0 <= i < |fifo2| ==> a2 != SandboxPath(fifo2[i])
  }

  lemma SandboxPathInjective(x: FifoId, y: FifoId)
    requires SandboxPath(x) == SandboxPath(y)
    ensures x == y
  {
    var n := |FIFO_SANDBOX_DIR| + 1;
    assert SandboxPath(x)[n..] == x && SandboxPath(y)[n..] == y;
  }

  /** A group that is given its FIFOs in another order has another key. */
  lemma FifoOrderShows(a: FifoId, b: FifoId)
    requires a != b
    ensures KeyArg(SandboxPath(a), [a, b]) != KeyArg(SandboxPath(a), [b, a])
  {
    if SandboxPath(a) == SandboxPath(b) { SandboxPathInjective(a, b); }
    assert [a, b][..1] == [a] && [b, a][..1] == [b] && [a][..0] == [];
    assert FifoIndex(SandboxPath(a), [a, b]) == Some(0) && FifoIndex(SandboxPath(a), [b, a]) == Some(1);
    FifoNamesDiffer(0, 1);
  }

  lemma RenamedArgSameKey(a1: string, a2: string, fifo1: seq<FifoId>, fifo2: seq<FifoId>, fifos: map<FifoId, FifoId>)
    requires |fifo1| == |fifo2|
    requires forall i :: 0 <= i < |fifo1| ==> fifo1[i] in fifos && fifo2[i] == fifos[fifo1[i]]
    requires forall x, y :: x in fifo1 && y in fifo1 && x in fifos && y in fifos && fifos[x] == fifos[y] ==> x == y
    requires RenamedArg(a1, a2, fifo1, fifo2)
    ensures KeyArg(a1, fifo1) == KeyArg(a2, fifo2)
  {
    forall i | 0 <= i < |fifo1| ensures a1 == SandboxPath(fifo1[i]) <==> a2 == SandboxPath(fifo2[i]) {
      if k :| 0 <= k < |fifo1| && a1 == SandboxPath(fifo1[k]) {
        SamePath(a1, a2, fifo1, fifo2, fifos, i);
      }
    }
    var r1, r2 := FifoIndex(a1, fifo1), FifoIndex(a2, fifo2);
    assert r1 == r2;
  }

  lemma SamePath(a1: string, a2: string, fifo1: seq<FifoId>, fifo2: seq<FifoId>, fifos: map<FifoId, FifoId>, i: nat)
    requires |fifo1| == |fifo2| && i < |fifo1|
    requires forall i :: 0 <= i < |fifo1| ==> fifo1[i] in fifos && fifo2[i] == fifos[fifo1[i]]
    requires forall x, y :: x in fifo1 && y in fifo1 && x in fifos && y in fifos && fifos[x] == fifos[y] ==> x == y
    requires RenamedArg(a1, a2, fifo1, fifo2)
    requires exists k :: 0 <= k < |fifo1| && a1 == SandboxPath(fifo1[k])
    ensures a1 == SandboxPath(fifo1[i]) <==> a2 == SandboxPath(fifo2[i])
  {
    var k :| 0 <= k < |fifo1| && a1 == SandboxPath(fifo1[k]) && a2 == SandboxPath(fifo2[k]);
    assert fifo1[i] in fifo1 && fifo1[k] in fifo1;
    if a1 == SandboxPath(fifo1[i]) {
      SandboxPathInjective(fifo1[i], fifo1[k]);
    }
    if a2 == SandboxPath(fifo2[i]) {
      SandboxPathInjective(fifo2[i], fifo2[k]);
    }
  }

  /** The key survives any consistent renaming of file ids and FIFO ids, provided
      the renamed files still have the contents they had. */
  lemma KeySurvivesRenaming(g1: ExecutionGroup, keys1: map<FileId, FileKey>, g2: ExecutionGroup,
                            keys2: map<FileId, FileKey>,
                            files: map<FileId, FileId>, fifos: map<FifoId, FifoId>)
    requires GroupHasKeys(g1, keys1) && GroupHasKeys(g2, keys2)
    requires Renamed(g1, g2, files, fifos)
    requires forall f :: f in Deps(g1) && f in files && f in keys1 ==> files[f] in keys2 && keys2[files[f]] == keys1[f]
    ensures KeyOf(g1, keys1) == KeyOf(g2, keys2)
  {
    forall i | 0 <= i < |g1.executions|
      ensures SameExecution(g1, keys1, g2, keys2, i)
    {
      var e1, e2 := g1.executions[i], g2.executions[i];
      RenamedFilesShownAlike(g1, e1, keys1, e2, keys2, files);
      forall j | 0 <= j < |e1.args| ensures KeyArg(e1.args[j], g1.fifo) == KeyArg(e2.args[j], g2.fifo) {
        RenamedArgSameKey(e1.args[j], e2.args[j], g1.fifo, g2.fifo, fifos);
      }
    }
    KeyCharacterised(g1, keys1, g2, keys2);
  }

  lemma RenamedFilesShownAlike(g1: ExecutionGroup, e1: Execution, keys1: map<FileId, FileKey>,
                                e2: Execution, keys2: map<FileId, FileKey>, files: map<FileId, FileId>)
    requires e1 in g1.executions
    requires HasKeys(e1, keys1) && HasKeys(e2, keys2)
    requires RenamedFiles(e1, e2, files)
    requires forall f :: f in Deps(g1) && f in files && f in keys1 ==> files[f] in keys2 && keys2[files[f]] == keys1[f]
    ensures ShownAlike(e1, keys1, e2, keys2)
  {
    assert forall f :: f in e1.Reads() ==> f in Deps(g1);
    assert forall p :: p in e1.inputFiles ==> e1.inputFiles[p].file in e1.Reads();
  }
}
