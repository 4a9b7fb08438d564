/** What the cache takes for granted, and exactly when it may: that compatible
    limits do not change an outcome, and that the key says all that matters.
    Source: task-maker-cache/src/entry.rs, key.rs. */
module Assumptions {
  import opened Dag
  import opened Sorting
  import opened CacheKeys
  import opened CacheEntries
  import opened Caching
  import opened Situations
  import opened Behaviour

  // ---------------------------------------------------------------- limits

  // What a process needs to end well, limit by limit.
  datatype Needs = Needs(
    cpuTime: real,
    sysTime: real,
    wallTime: real,
    memory: nat,
    nofile: nat,
    fsize: nat,
    memlock: nat,
    stack: nat,
    processes: bool,
    writing: bool,
    tmpfs: bool,
    proc: bool,
    dirs: set<Path>,
    unfiltered: bool)

  predicate AllowsTime(limit: Option<real>, used: real) {
    limit.Some? ==> used <= limit.value
  }

  predicate Allows(limit: Option<nat>, used: nat) {
    limit.Some? ==> used <= limit.value
  }

  predicate Met(needs: Needs, limits: ExecutionLimits) {
    && AllowsTime(limits.cpuTime, needs.cpuTime)
    && AllowsTime(limits.sysTime, needs.sysTime)
    && AllowsTime(limits.wallTime, needs.wallTime)
    && Allows(limits.memory, needs.memory)
    && Allows(limits.nofile, needs.nofile)
    && Allows(limits.fsize, needs.fsize)
    && Allows(limits.memlock, needs.memlock)
    && Allows(limits.stack, needs.stack)
    && (needs.processes ==> limits.allowMultiprocess)
    && (needs.writing ==> !limits.readOnly)
    && (needs.tmpfs ==> limits.mountTmpfs)
    && (needs.proc ==> limits.mountProc)
    && needs.dirs <= DirSet(limits.extraReadableDirs)
    && (needs.unfiltered ==> limits.permissive)
  }

  /** No field of `left` gives more than `right`. */
  predicate Tighter(left: ExecutionLimits, right: ExecutionLimits) {
    && AtMost(left.cpuTime, right.cpuTime, 0.0)
    && AtMost(left.sysTime, right.sysTime, 0.0)
    && AtMost(left.wallTime, right.wallTime, 0.0)
    && AtMostInt(left.memory, right.memory, 0)
    && AtMostInt(left.nofile, right.nofile, 0)
    && AtMostInt(left.fsize, right.fsize, 0)
    && AtMostInt(left.memlock, right.memlock, 0)
    && AtMostInt(left.stack, right.stack, 0)
    && (left.allowMultiprocess ==> right.allowMultiprocess)
    && (right.readOnly ==> left.readOnly)
    && (left.mountTmpfs ==> right.mountTmpfs)
    && (left.mountProc ==> right.mountProc)
    && DirSet(left.extraReadableDirs) <= DirSet(right.extraReadableDirs)
    && (left.permissive ==> right.permissive)
  }

  // The most that `left` gives; what it does not limit is more than `right` gives.
  function MostTime(left: Option<real>, right: Option<real>): real {
    if left.Some? then left.value else if right.Some? then right.value + 1.0 else 0.0
  }

  function Most(left: Option<nat>, right: Option<nat>): nat {
    if left.Some? then left.value else if right.Some? then right.value + 1 else 0
  }

  function Greediest(left: ExecutionLimits, right: ExecutionLimits): Needs {
    Needs(MostTime(left.cpuTime, right.cpuTime), MostTime(left.sysTime, right.sysTime),
          MostTime(left.wallTime, right.wallTime), Most(left.memory, right.memory), Most(left.nofile, right.nofile),
          Most(left.fsize, right.fsize), Most(left.memlock, right.memlock), Most(left.stack, right.stack),
          left.allowMultiprocess, !left.readOnly, left.mountTmpfs, left.mountProc,
          DirSet(left.extraReadableDirs), left.permissive)
  }

  /** Limits are tighter than others exactly when whatever is satisfied with the
      former is satisfied with the latter. */
  lemma TighterExactly(left: ExecutionLimits, right: ExecutionLimits)
    ensures Tighter(left, right) <==> forall needs :: Met(needs, left) ==> Met(needs, right)
  {
    hide Met, Tighter, Greediest;
    GreediestTells(left, right);
    forall needs | Tighter(left, right) && Met(needs, left) ensures Met(needs, right) {
      TighterGives(left, right, needs);
    }
  }

  lemma GreediestTells(left: ExecutionLimits, right: ExecutionLimits)
    ensures Met(Greediest(left, right), left)
    ensures Met(Greediest(left, right), right) ==> Tighter(left, right)
  {
  }

  lemma TighterGives(left: ExecutionLimits, right: ExecutionLimits, needs: Needs)
    requires Tighter(left, right) && Met(needs, left)
    ensures Met(needs, right)
  {
  }

  /** The comparison of the cache lets all tighter limits pass; what it lets pass
      is tighter exactly when three fields it does not look at, or not closely
      enough, do not give more. */
  lemma ComparedExactly(left: ExecutionLimits, right: ExecutionLimits)
    ensures Tighter(left, right) ==> NotLooser(left, right, 0.0, 0)
    ensures NotLooser(left, right, 0.0, 0) ==>
      (Tighter(left, right) <==>
        && DirSet(left.extraReadableDirs) <= DirSet(right.extraReadableDirs)
        && (left.mountProc ==> right.mountProc)
        && (left.permissive ==> right.permissive))
  {
    var l, r := DirSet(left.extraReadableDirs), DirSet(right.extraReadableDirs);
    assert l <= r ==> !(r < l);
  }

  // No limit at all.
  function Unlimited(dirs: seq<Path>): ExecutionLimits {
    ExecutionLimits(None, None, None, None, true, None, None, None, None, false, true, true, dirs, true)
  }

  /** An outcome obtained with one readable directory is taken to hold with
      another instead. */
  lemma DirectoriesShow(w: World, s: Situation, dir: Path, other: Path)
    requires dir != other && w.occurs(s) && |s.shown| == 1
    requires forall limits: seq<ExecutionLimits> :: |limits| == 1 ==>
      (w.succeeds(s, limits, 0) <==> dir in DirSet(limits[0].extraReadableDirs))
    ensures !Stable(w)
    ensures var a, b := [Unlimited([dir])], [Unlimited([other])];
      StandsFor(w, s, a, b) && AllSucceed(w, s, a) && !AllSucceed(w, s, b)
  {
    var a, b := [Unlimited([dir])], [Unlimited([other])];
    assert dir in DirSet(a[0].extraReadableDirs) && dir !in DirSet(b[0].extraReadableDirs);
    assert other in DirSet([other]) && other !in DirSet([dir]);
    assert w.succeeds(s, a, 0) && !w.succeeds(s, b, 0);
    assert StandsFor(w, s, a, b);
  }

  /** An outcome obtained with `/proc` is taken to hold without. */
  lemma ProcShows(w: World, s: Situation)
    requires w.occurs(s) && |s.shown| == 1
    requires forall limits: seq<ExecutionLimits> :: |limits| == 1 ==> (w.succeeds(s, limits, 0) <==> limits[0].mountProc)
    ensures !Stable(w)
    ensures var a, b := [Unlimited([])], [Unlimited([]).(mountProc := false)];
      StandsFor(w, s, a, b) && AllSucceed(w, s, a) && !AllSucceed(w, s, b)
  {
    var a, b := [Unlimited([])], [Unlimited([]).(mountProc := false)];
    assert w.succeeds(s, a, 0) && !w.succeeds(s, b, 0);
    assert StandsFor(w, s, a, b);
  }

  /** An outcome obtained without a filter of system calls is taken to hold with one. */
  lemma FilterShows(w: World, s: Situation)
    requires w.occurs(s) && |s.shown| == 1
    requires forall limits: seq<ExecutionLimits> :: |limits| == 1 ==> (w.succeeds(s, limits, 0) <==> limits[0].permissive)
    ensures !Stable(w)
    ensures var a, b := [Unlimited([])], [Unlimited([]).(permissive := false)];
      StandsFor(w, s, a, b) && AllSucceed(w, s, a) && !AllSucceed(w, s, b)
  {
    var a, b := [Unlimited([])], [Unlimited([]).(permissive := false)];
    assert w.succeeds(s, a, 0) && !w.succeeds(s, b, 0);
    assert StandsFor(w, s, a, b);
  }

  // ---------------------------------------------------------------- executions with needs

  // Each execution ends well if it is one that does, and gets what it needs.
  ghost predicate HasNeeds(w: World, ends: (Situation, nat) -> bool, needs: (Situation, nat) -> Needs) {
    forall s, limits: seq<ExecutionLimits>, i: nat ::
      w.succeeds(s, limits, i) <==> ends(s, i) && i < |limits| && Met(needs(s, i), limits[i])
  }

  ghost predicate AllEnd(s: Situation, ends: (Situation, nat) -> bool) {
    forall i: nat :: i < |s.shown| ==> ends(s, i)
  }

  // No need for what the cache does not compare.
  predicate Plain(needs: Needs) {
    needs.dirs == {} && !needs.proc && !needs.unfiltered
  }

  /** For executions with needs the cache is right about the limits if and only
      if none that could succeed needs a readable directory, `/proc`, or not to
      be filtered. */
  lemma NeedsAreStableExactly(w: World, ends: (Situation, nat) -> bool, needs: (Situation, nat) -> Needs)
    requires HasNeeds(w, ends, needs)
    ensures Stable(w) <==>
      forall s, i: nat :: w.occurs(s) && AllEnd(s, ends) && i < |s.shown| ==> Plain(needs(s, i))
  {
    hide Met, NotLooser, Plain, Stable;
    if s, i: nat :| w.occurs(s) && AllEnd(s, ends) && i < |s.shown| && !Plain(needs(s, i)) {
      NeedShows(w, ends, needs, s, i);
    } else {
      PlainNeedsAreStable(w, ends, needs);
    }
  }

  lemma PlainNeedsAreStable(w: World, ends: (Situation, nat) -> bool, needs: (Situation, nat) -> Needs)
    requires HasNeeds(w, ends, needs)
    requires forall s, i: nat :: w.occurs(s) && AllEnd(s, ends) && i < |s.shown| ==> Plain(needs(s, i))
    ensures Stable(w)
  {
    hide Met, NotLooser, Plain;
    forall s, a, b | w.occurs(s) && StandsFor(w, s, a, b) ensures AllSucceed(w, s, a) <==> AllSucceed(w, s, b) {
      if AllEnd(s, ends) {
        forall i: nat | i < |s.shown| ensures w.succeeds(s, a, i) <==> w.succeeds(s, b, i) {
          if w.succeeds(s, a, i) {
            PlainNeedsMet(needs(s, i), a[i], b[i]);
          } else if w.succeeds(s, b, i) {
            PlainNeedsMet(needs(s, i), b[i], a[i]);
          }
        }
      } else {
        var i: nat :| i < |s.shown| && !ends(s, i);
        assert !w.succeeds(s, a, i) && !w.succeeds(s, b, i);
      }
    }
  }

  lemma PlainNeedsMet(needs: Needs, left: ExecutionLimits, right: ExecutionLimits)
    requires Plain(needs) && Met(needs, left) && NotLooser(left, right, 0.0, 0)
    ensures Met(needs, right)
  {
  }

  ghost function ListOf(dirs: set<Path>): (r: seq<Path>)
    ensures DirSet(r) == dirs
  {
    StringOrder();
    Sorted(dirs, StringLeq)
  }

  // Everything that is needed, and nothing limited.
  ghost function Generous(s: Situation, needs: (Situation, nat) -> Needs): seq<ExecutionLimits> {
    seq(|s.shown|, i requires 0 <= i < |s.shown| => Unlimited(ListOf(needs(s, i).dirs)))
  }

  // As compatible, as far as the cache looks, but without what is needed.
  lemma Poorer(needs: Needs) returns (limits: ExecutionLimits)
    requires !Plain(needs)
    ensures NotLooser(Unlimited(ListOf(needs.dirs)), limits, 0.0, 0) && !Met(needs, limits)
  {
    limits := Unlimited(ListOf(needs.dirs));
    if needs.dirs != {} {
      var other := NewPath(needs.dirs);
      limits := Unlimited([other]);
      assert other in DirSet([other]);
      var dir :| dir in needs.dirs;
      assert dir !in DirSet([other]);
    } else if needs.proc {
      limits := limits.(mountProc := false);
    } else {
      limits := limits.(permissive := false);
    }
  }

  lemma NewPath(dirs: set<Path>) returns (path: Path)
    ensures path != "" && forall dir :: dir in dirs ==> |dir| < |path|
    decreases dirs
  {
    path := "/";
    if dirs != {} {
      var dir :| dir in dirs;
      var rest := NewPath(dirs - {dir});
      path := rest + dir;
      assert forall d :: d in dirs ==> d == dir || d in dirs - {dir};
    }
  }

  lemma NeedShows(w: World, ends: (Situation, nat) -> bool, needs: (Situation, nat) -> Needs, s: Situation, i: nat)
    requires HasNeeds(w, ends, needs) && w.occurs(s) && AllEnd(s, ends) && i < |s.shown| && !Plain(needs(s, i))
    ensures !Stable(w)
  {
    hide Met, NotLooser, Plain;
    var a := Generous(s, needs);
    var poorer := Poorer(needs(s, i));
    var b := a[i := poorer];
    forall j: nat | j < |s.shown| ensures w.succeeds(s, a, j) { GenerousIsEnough(s, needs, j); }
    forall j: nat | j < |s.shown| ensures NotLooser(a[j], b[j], 0.0, 0) { NotLooserThanItself(a[j]); }
    assert !w.succeeds(s, b, i);
    assert StandsFor(w, s, a, b);
    assert AllSucceed(w, s, a) && !AllSucceed(w, s, b);
  }

  lemma GenerousIsEnough(s: Situation, needs: (Situation, nat) -> Needs, i: nat)
    requires i < |s.shown|
    ensures Met(needs(s, i), Generous(s, needs)[i])
  {
  }

  lemma NotLooserThanItself(limits: ExecutionLimits)
    ensures NotLooser(limits, limits, 0.0, 0)
  {
  }

  // ---------------------------------------------------------------- keys

  /** What executions do, if nothing but the key matters. */
  datatype KeyWorld = KeyWorld(
    succeeds: (seq<Shown>, seq<ExecutionLimits>, nat) -> bool,
    content: (seq<Shown>, nat, Slot) -> FileKey)

  ghost predicate Explains(k: KeyWorld, w: World) {
    && (forall s, limits, i :: w.occurs(s) ==> (w.succeeds(s, limits, i) <==> k.succeeds(s.shown, limits, i)))
    && (forall s, i, slot :: w.occurs(s) && Asks(s, i, slot) ==> w.content(s, i, slot) == k.content(s.shown, i, slot))
  }

  ghost predicate SomeSucceeds(w: World, shown: seq<Shown>, limits: seq<ExecutionLimits>, i: nat) {
    exists s :: w.occurs(s) && s.shown == shown && w.succeeds(s, limits, i)
  }

  ghost function SomeContent(w: World, shown: seq<Shown>, i: nat, slot: Slot): FileKey {
    if exists s :: w.occurs(s) && s.shown == shown && Asks(s, i, slot) then
      var s :| w.occurs(s) && s.shown == shown && Asks(s, i, slot);
      w.content(s, i, slot)
    else 0
  }

  ghost function ByKey(w: World): KeyWorld {
    KeyWorld(
      (shown: seq<Shown>, limits: seq<ExecutionLimits>, i: nat) => SomeSucceeds(w, shown, limits, i),
      (shown: seq<Shown>, i: nat, slot: Slot) => SomeContent(w, shown, i, slot))
  }

  /** One key means one behaviour if and only if the behaviour is a function of
      the key. */
  lemma KeyWorldExactly(w: World)
    ensures OneKeyOneBehaviour(w) <==> exists k :: Explains(k, w)
  {
    hide Asks;
    if OneKeyOneBehaviour(w) {
      ByKeyExplains(w);
    }
    if k :| Explains(k, w) {
      forall a, b | w.occurs(a) && w.occurs(b) && a.shown == b.shown ensures SameBehaviour(w, a, b) { }
    }
  }

  lemma ByKeyExplains(w: World)
    requires OneKeyOneBehaviour(w)
    ensures Explains(ByKey(w), w)
  {
    hide Asks;
    forall s, limits, i | w.occurs(s) ensures w.succeeds(s, limits, i) <==> SomeSucceeds(w, s.shown, limits, i) {
      if SomeSucceeds(w, s.shown, limits, i) {
        var s' :| w.occurs(s') && s'.shown == s.shown && w.succeeds(s', limits, i);
        assert SameBehaviour(w, s', s);
      }
    }
    forall s, i, slot | w.occurs(s) && Asks(s, i, slot) ensures w.content(s, i, slot) == SomeContent(w, s.shown, i, slot) {
      var s' :| w.occurs(s') && s'.shown == s.shown && Asks(s', i, slot) && SomeContent(w, s.shown, i, slot) == w.content(s', i, slot);
      assert SameBehaviour(w, s', s);
    }
  }

  ghost predicate SameShownSame(occurs: Situation -> bool) {
    forall a, b :: occurs(a) && occurs(b) && a.shown == b.shown ==> a == b
  }

  /** The key is enough, whatever the executions do, if and only if no two
      situations occur that differ in the hidden part only. */
  lemma KeyIsEnoughExactly(occurs: Situation -> bool)
    ensures (forall w: World :: w.occurs == occurs ==> OneKeyOneBehaviour(w)) <==> SameShownSame(occurs)
  {
    hide Asks;
    if a, b :| occurs(a) && occurs(b) && a.shown == b.shown && a != b {
      var w := World(occurs, (s: Situation, limits: seq<ExecutionLimits>, i: nat) => s == a,
                     (s: Situation, i: nat, slot: Slot) => 0, 0.0, 0);
      assert w.succeeds(a, [], 0) && !w.succeeds(b, [], 0);
      assert !SameBehaviour(w, a, b);
    }
  }

  // ---------------------------------------------------------------- what the key does not show

  // The things two groups with the same key may differ in.
  datatype Unseen = OpenedInput | RedirectedOutput | AskedFile | CopiedVariable | FifoArgument | MoreFifos | Controlled

  function BareExecution(): Execution {
    Execution(System("cat"), [FifoName(0)], NoInput, NoOutput, NoOutput, map[], map[], map[], [], Unlimited([]))
  }

  function GroupOf(e: Execution): ExecutionGroup {
    ExecutionGroup(0, [e], [], DagConfig(0, Everything, 0.0, 0), None, 0, None)
  }

  // The group, with a difference.
  function Variant(u: Unseen): ExecutionGroup {
    var e := BareExecution();
    match u
    case OpenedInput => GroupOf(e.(stdin := FromPath("input")))
    case RedirectedOutput => GroupOf(e.(stdout := ToPath("output")))
    case AskedFile => GroupOf(e.(outputFiles := map["output" := 0]))
    case CopiedVariable => GroupOf(e.(copyEnv := ["LANG"]))
    case FifoArgument => GroupOf(e.(args := [SandboxPath("1")])).(fifo := ["1"])
    case MoreFifos => GroupOf(e).(fifo := ["1"])
    case Controlled => GroupOf(e).(controller := Some(ControllerSettings(1, false)))
  }

  /** Each of them makes a pair of groups that have one key and are not given the
      same: where they behave differently, one key is not one behaviour. */
  lemma UnseenByTheKey(u: Unseen)
    ensures GroupHasKeys(GroupOf(BareExecution()), map[]) && GroupHasKeys(Variant(u), map[])
    ensures KeyOf(Variant(u), map[]) == KeyOf(GroupOf(BareExecution()), map[])
    ensures var a, b := SituationOf(GroupOf(BareExecution()), map[]), SituationOf(Variant(u), map[]);
      a != b && forall w: World :: w.occurs(a) && w.occurs(b) && !SameBehaviour(w, a, b) ==> !OneKeyOneBehaviour(w)
  {
    hide KeyOf;
    var g, v := GroupOf(BareExecution()), Variant(u);
    NoDependencies(g);
    NoDependencies(v);
    var a, b := SituationOf(g, map[]), SituationOf(v, map[]);
    hide SameBehaviour;
    SameArguments(u);
    assert ShownOf(g.executions[0], map[], g.fifo) == ShownOf(v.executions[0], map[], v.fifo);
    assert a.shown == b.shown;
    KeyShowsExactly(v, map[], g, map[]);
    assert a != b by {
      assert a.hidden[0] == HiddenOf(g.executions[0], g.fifo) && b.hidden[0] == HiddenOf(v.executions[0], v.fifo);
      if u == AskedFile { assert "output" in b.hidden[0].outputs; }
      if u == CopiedVariable { assert b.hidden[0].copyEnv[0] == "LANG"; }
    }
  }

  lemma NoDependencies(group: ExecutionGroup)
    requires forall i :: 0 <= i < |group.executions| ==> group.executions[i].inputFiles == map[] && !group.executions[i].stdin.FromFile?
    ensures GroupHasKeys(group, map[])
  {
  }

  // The path of the FIFO and the text that replaces it give the same argument in the key.
  lemma SameArguments(u: Unseen)
    ensures KeyArgs(Variant(u).executions[0].args, Variant(u).fifo) == [FifoName(0)]
  {
    assert FifoName(0)[3] == 'f' && SandboxPath("1")[3] == 'p';
    assert ["1"][..0] == [];
  }

  /** A false hit: a group that reads its standard input from a path is answered
      with the results of one that reads nothing, whatever is in the store. */
  method AnswersForAnother(ghost w: World, stores: StoreView) returns (r: CacheResult)
    requires GroupHasKeys(GroupOf(BareExecution()), map[]) && GroupHasKeys(Variant(OpenedInput), map[])
    requires forall limits :: w.succeeds(SituationOf(GroupOf(BareExecution()), map[]), limits, 0)
    requires forall limits :: !w.succeeds(SituationOf(Variant(OpenedInput), map[]), limits, 0)
    ensures r.Hit? && AllSuccess(r.results)
    ensures !Right(w, map[], Variant(OpenedInput), AllSuccess(r.results), r.outputs)
  {
    var group, other := GroupOf(BareExecution()), Variant(OpenedInput);
    var results := [ExecutionResult(Success, false, false, ResourcesUsage(0.0, 0.0, 0.0, 0))];
    var cache := new Cache();
    cache.Insert(group, map[], results);
    UnseenByTheKey(OpenedInput);
    ghost var key := KeyOf(group, map[]);
    ghost var bucket := BucketOf(cache.entries, key);
    ghost var entry, pos :| Recorded([], bucket, entry, pos) && Records(entry, group, map[], results);
    r := cache.Get(other, map[], stores);
    assert bucket == [entry];
    OnlyEntryAnswers(entry, results, stores, r);
    assert !w.succeeds(SituationOf(other, map[]), LimitsOf(other), 0);
  }

  lemma OnlyEntryAnswers(entry: CacheEntry, results: seq<ExecutionResult>, stores: StoreView, r: CacheResult)
    requires |results| == 1 && results[0].status.Success?
    requires Records(entry, GroupOf(BareExecution()), map[], results)
    requires Answers(r, [entry], Variant(OpenedInput), stores)
    ensures r.Hit? && AllSuccess(r.results)
  {
    var other := Variant(OpenedInput);
    var e := other.executions[0];
    assert entry.items[0] == ItemOf(BareExecution(), map[], results[0]);
    NotLooserThanItself(e.limits);
    assert ItemCompatible(entry.items[0], e, 0.0, 0);
    assert Usable([entry][0], other, stores(0));
  }
}
