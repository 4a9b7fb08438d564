/** How the scores of the testcases make the scores of the subtasks and of the task.
    Source: task-maker-format/src/ioi/mod.rs, task-maker-format/src/ioi/dag/mod.rs. */
module Scores {
  import opened Dag

  type SubtaskId = nat
  type TestcaseId = nat

  datatype Aggregator = Min | Sum

  datatype ScoreMessage =
    | TestcaseScore(subtask: SubtaskId, testcase: TestcaseId, score: real)
    | SubtaskScore(subtask: SubtaskId, score: real, normalized: real)
    | TaskScore(score: real)

  // ---------------------------------------------------------------- the score of a subtask

  function Total(scores: seq<real>): real {
    if scores == [] then 0.0 else Total(scores[..|scores| - 1]) + scores[|scores| - 1]
  }

  function Least(scores: seq<real>): real
    requires scores != []
  {
    if |scores| == 1 then scores[0]
    else
      var best := Least(scores[..|scores| - 1]);
      if scores[|scores| - 1] < best then scores[|scores| - 1] else best
  }

  lemma {:induction false} LeastIsLeast(scores: seq<real>)
    requires scores != []
    ensures Least(scores) in scores && forall i :: 0 <= i < |scores| ==> Least(scores) <= scores[i]
  {
    var n := |scores| - 1;
    if n > 0 {
      LeastIsLeast(scores[..n]);
      assert forall i :: 0 <= i < n ==> scores[..n][i] == scores[i];
      assert Least(scores[..n]) in scores;
    }
  }

  function Aggregated(aggregator: Aggregator, scores: seq<real>): real {
    if scores == [] then 1.0
    else if aggregator.Min? then Least(scores)
    else Total(scores) / (|scores| as real)
  }

  /** The aggregate of some scores, one after the other. */
  method Aggregate(aggregator: Aggregator, scores: seq<real>) returns (r: real)
    ensures r == Aggregated(aggregator, scores)
  {
    match aggregator {
      case Min =>
        var best: Option<real> := None;
        for i := 0 to |scores|
          invariant best.None? <==> i == 0
          invariant i > 0 ==> best.value == Least(scores[..i])
        {
          assert scores[..i + 1][..i] == scores[..i];
          if best.None? || scores[i] < best.value { best := Some(scores[i]); }
        }
        assert scores[..|scores|] == scores;
        return if best.None? then 1.0 else best.value;
      case Sum =>
        var sum, count := 0.0, 0;
        for i := 0 to |scores|
          invariant sum == Total(scores[..i]) && count == i
        {
          assert scores[..i + 1][..i] == scores[..i];
          sum, count := sum + scores[i], count + 1;
        }
        assert scores[..|scores|] == scores;
        if count == 0 { return 1.0; }
        return sum / (count as real);
    }
  }

  // The normalised score of a subtask in points.
  function Scaled(maxScore: real, normalized: real): real {
    maxScore * normalized
  }

  lemma {:induction false} TotalBounds(scores: seq<real>)
    requires forall i :: 0 <= i < |scores| ==> 0.0 <= scores[i] <= 1.0
    ensures 0.0 <= Total(scores) <= |scores| as real
  {
    if scores == [] {
    } else {
      TotalBounds(scores[..|scores| - 1]);
    }
  }

  /** A normalised score stays between 0 and 1 when those of the testcases do. */
  lemma AggregateIsNormalised(aggregator: Aggregator, scores: seq<real>)
    requires forall i :: 0 <= i < |scores| ==> 0.0 <= scores[i] <= 1.0
    ensures 0.0 <= Aggregated(aggregator, scores) <= 1.0
  {
    if scores != [] {
      TotalBounds(scores);
      LeastIsLeast(scores);
      var n := |scores| as real;
      assert 0.0 <= Total(scores) / n <= n / n == 1.0;
    }
  }

  // ---------------------------------------------------------------- the score of the task

  /** The sum of the scores of the subtasks that have one. */
  ghost function SumOf(scores: map<SubtaskId, Option<real>>): real {
    if scores == map[] then 0.0
    else
      var st :| st in scores;
      Worth(scores[st]) + SumOf(scores - {st})
  }

  function Worth(score: Option<real>): (r: real)
    ensures score == Some(r) || (score.None? && r == 0.0)
  {
    if score.Some? then score.value else 0.0
  }

  lemma {:induction false} SumWithout(scores: map<SubtaskId, Option<real>>, st: SubtaskId)
    requires st in scores
    ensures SumOf(scores) == Worth(scores[st]) + SumOf(scores - {st})
    decreases |scores|
  {
    var first :| first in scores && SumOf(scores) == Worth(scores[first]) + SumOf(scores - {first});
    if first != st {
      SumWithout(scores - {first}, st);
      SumWithout(scores - {st}, first);
      assert scores - {first} - {st} == scores - {st} - {first};
    }
  }

  /** The scores of a map, added up in whatever order it yields them. */
  method AddUp(scores: map<SubtaskId, Option<real>>) returns (sum: real)
    ensures sum == SumOf(scores)
  {
    sum := 0.0;
    var todo := scores;
    while todo != map[]
      invariant sum + SumOf(todo) == SumOf(scores)
      decreases |todo|
    {
      var st :| st in todo;
      SumWithout(todo, st);
      assert (todo - {st}).Keys == todo.Keys - {st};
      sum := sum + Worth(todo[st]);
      todo := todo - {st};
    }
  }

  // ---------------------------------------------------------------- what was sent

  /** The scores sent for one subtask, in order. */
  function SubtaskSent(sent: seq<ScoreMessage>, st: SubtaskId): seq<real> {
    if sent == [] then []
    else
      var m := sent[|sent| - 1];
      SubtaskSent(sent[..|sent| - 1], st) + if m.SubtaskScore? && m.subtask == st then [m.score] else []
  }

  /** The scores sent for the task, in order. */
  function TaskSent(sent: seq<ScoreMessage>): seq<real> {
    if sent == [] then []
    else
      var m := sent[|sent| - 1];
      TaskSent(sent[..|sent| - 1]) + if m.TaskScore? then [m.score] else []
  }

  lemma SentMore(sent: seq<ScoreMessage>, m: ScoreMessage)
    ensures TaskSent(sent + [m]) == TaskSent(sent) + if m.TaskScore? then [m.score] else []
    ensures forall st :: SubtaskSent(sent + [m], st) == SubtaskSent(sent, st) + if m.SubtaskScore? && m.subtask == st then [m.score] else []
  {
    var longer := sent + [m];
    assert longer[..|longer| - 1] == sent;
  }

  // Nothing about a subtask comes after the score of the task.
  ghost predicate TaskIsLast(sent: seq<ScoreMessage>) {
    forall i, j :: 0 <= i < j < |sent| && sent[i].TaskScore? ==> !sent[j].SubtaskScore?
  }

  predicate AllThere(scores: map<SubtaskId, Option<real>>) {
    forall st :: st in scores ==> scores[st].Some?
  }

  // Each subtask with a score had it sent once; the task too, once all of them have one.
  ghost predicate Told(sent: seq<ScoreMessage>, scores: map<SubtaskId, Option<real>>) {
    && (forall st :: st in scores ==> SubtaskSent(sent, st) == if scores[st].Some? then [scores[st].value] else [])
    && TaskSent(sent) == (if scores != map[] && AllThere(scores) then [SumOf(scores)] else [])
    && TaskIsLast(sent)
  }

  lemma TellTestcase(sent: seq<ScoreMessage>, scores: map<SubtaskId, Option<real>>, m: ScoreMessage)
    requires Told(sent, scores) && m.TestcaseScore?
    ensures Told(sent + [m], scores)
  {
    SentMore(sent, m);
  }

  // A subtask gets its score; when it is the last one the task does too.
  lemma TellSubtask(sent: seq<ScoreMessage>, scores: map<SubtaskId, Option<real>>, st: SubtaskId, score: real,
                    normalized: real)
    requires Told(sent, scores) && st in scores && scores[st].None?
    ensures var scores', sent' := scores[st := Some(score)], sent + [SubtaskScore(st, score, normalized)];
      Told(if AllThere(scores') then sent' + [TaskScore(SumOf(scores'))] else sent', scores')
  {
    hide SubtaskSent, TaskSent, SumOf;
    var scores', m := scores[st := Some(score)], SubtaskScore(st, score, normalized);
    var sent' := sent + [m];
    assert TaskSent(sent) == [];
    SentMore(sent, m);
    NoTaskScore(sent);
    SentMore(sent', TaskScore(SumOf(scores')));
    assert st in scores';
  }

  lemma {:induction false} NoTaskScore(sent: seq<ScoreMessage>)
    ensures TaskSent(sent) == [] ==> forall i :: 0 <= i < |sent| ==> !sent[i].TaskScore?
  {
    if sent != [] && TaskSent(sent) == [] {
      NoTaskScore(sent[..|sent| - 1]);
    }
  }

  // ---------------------------------------------------------------- the manager

  function ScoresOf(testcases: seq<TestcaseId>, scores: map<TestcaseId, Option<real>>): seq<real>
    requires forall i :: 0 <= i < |testcases| ==> testcases[i] in scores
  {
    seq(|testcases|, i requires 0 <= i < |testcases| => Worth(scores[testcases[i]]))
  }

  // All the testcases of the subtask have a score.
  predicate Scored(testcases: seq<TestcaseId>, scores: map<TestcaseId, Option<real>>) {
    forall i :: 0 <= i < |testcases| ==> testcases[i] in scores && scores[testcases[i]].Some?
  }

  class ScoreManager {
    const maxScores: map<SubtaskId, real>
    const subtaskTestcases: map<SubtaskId, seq<TestcaseId>>
    const aggregator: Aggregator
    var subtaskScores: map<SubtaskId, Option<real>>
    var testcaseScores: map<TestcaseId, Option<real>>
    var sent: seq<ScoreMessage>

    // Every testcase of every subtask is a known one.
    ghost predicate Known()
      reads this
    {
      && subtaskScores.Keys == subtaskTestcases.Keys == maxScores.Keys
      && forall st, i :: st in subtaskTestcases && 0 <= i < |subtaskTestcases[st]| ==> subtaskTestcases[st][i] in testcaseScores
    }

    // The maximum of the subtask, times the aggregate of the scores of its testcases.
    ghost function ScoreOf(st: SubtaskId): (r: real)
      requires Known() && st in subtaskTestcases
      reads this
      ensures r == maxScores[st] * Aggregated(aggregator, ScoresOf(subtaskTestcases[st], testcaseScores))
    {
      Scaled(maxScores[st], Aggregated(aggregator, ScoresOf(subtaskTestcases[st], testcaseScores)))
    }

    // A subtask of `done` has a score if and only if all its testcases have one.
    ghost predicate UpToDate(done: set<SubtaskId>)
      reads this
    {
      && (forall st :: st in subtaskScores && subtaskScores[st].Some? ==> st in subtaskTestcases && Scored(subtaskTestcases[st], testcaseScores))
      && (forall st :: st in done && st in subtaskScores && st in subtaskTestcases && Scored(subtaskTestcases[st], testcaseScores) ==> subtaskScores[st].Some?)
    }

    /** The score of a subtask is the one its testcases call for. */
    ghost predicate Faithful()
      requires Known()
      reads this
    {
      forall st :: st in subtaskScores && subtaskScores[st].Some? ==> subtaskScores[st].value == ScoreOf(st)
    }

    ghost predicate Valid()
      reads this
    {
      Known() && UpToDate(subtaskScores.Keys) && Told(sent, subtaskScores)
    }

    /** Nothing is scored yet, but for the subtasks that have no testcases. */
    constructor (subtasks: map<SubtaskId, seq<TestcaseId>>, maxScores: map<SubtaskId, real>, testcases: set<TestcaseId>, aggregator: Aggregator)
      requires subtasks.Keys == maxScores.Keys
      requires forall st, i :: st in subtasks && 0 <= i < |subtasks[st]| ==> subtasks[st][i] in testcases
      ensures Valid() && Faithful()
      ensures subtaskTestcases == subtasks && this.maxScores == maxScores && this.aggregator == aggregator
      ensures testcaseScores == map tc | tc in testcases :: None
      ensures forall st :: st in subtasks && subtasks[st] == [] ==> subtaskScores[st] == Some(maxScores[st])
    {
      hide Told, Aggregated, Scaled, ScoresOf, Scored;
      this.maxScores, subtaskTestcases, this.aggregator := maxScores, subtasks, aggregator;
      subtaskScores := map st | st in subtasks :: None;
      testcaseScores := map tc | tc in testcases :: None;
      sent := [];
      new;
      NothingTold(subtaskScores);
      NothingScored(subtaskTestcases, testcaseScores);
      ScoreEmpty();
    }

    // The subtasks without testcases have their score at once.
    method ScoreEmpty()
      requires Known() && Told(sent, subtaskScores) && UpToDate({}) && Faithful()
      requires forall st :: st in subtaskTestcases && Scored(subtaskTestcases[st], testcaseScores) ==>
        subtaskTestcases[st] == []
      requires forall st :: st in subtaskScores ==> subtaskScores[st].None?
      modifies this`subtaskScores, this`sent
      ensures Valid() && Faithful()
      ensures forall st :: st in subtaskTestcases && subtaskTestcases[st] == [] ==>
        st in subtaskScores && subtaskScores[st] == Some(maxScores[st])
    {
      hide Told, Aggregated, Scaled, ScoresOf, Scored;
      var todo := subtaskScores.Keys;
      while todo != {}
        invariant todo <= subtaskScores.Keys && Known() && Faithful() && Told(sent, subtaskScores)
        invariant UpToDate(subtaskScores.Keys - todo) && forall st :: st in todo ==> subtaskScores[st].None?
        decreases todo
      {
        var st :| st in todo;
        if subtaskTestcases[st] == [] { ScoreSubtask(st, subtaskScores.Keys - todo); }
        assert subtaskScores.Keys - todo + {st} == subtaskScores.Keys - (todo - {st});
        todo := todo - {st};
      }
      assert subtaskScores.Keys - todo == subtaskScores.Keys;
      forall st | st in subtaskTestcases && subtaskTestcases[st] == [] ensures subtaskScores[st] == Some(maxScores[st]) {
        NoTestcases(testcaseScores, aggregator);
        assert Scored(subtaskTestcases[st], testcaseScores) && subtaskScores[st].Some?;
        assert ScoreOf(st) == Scaled(maxScores[st], 1.0);
      }
    }

    /** A testcase has a score; subtasks, and the task, may have one now. The
        values are right as long as no testcase is scored twice. */
    method Score(st: SubtaskId, tc: TestcaseId, score: real)
      requires Valid()
      modifies this`subtaskScores, this`testcaseScores, this`sent
      ensures Valid() && testcaseScores == old(testcaseScores)[tc := Some(score)]
      ensures old(Faithful()) && (tc in old(testcaseScores) ==> old(testcaseScores)[tc].None?) ==> Faithful()
      ensures forall x :: x in old(subtaskScores) && old(subtaskScores)[x].Some? ==>
        subtaskScores[x] == old(subtaskScores)[x]
      ensures |old(sent)| < |sent| && sent[..|old(sent)|] == old(sent) && sent[|old(sent)|] == TestcaseScore(st, tc, score)
    {
      hide Told, Aggregated, Scaled, Scored, ScoresOf;
      testcaseScores := testcaseScores[tc := Some(score)];
      sent := sent + [TestcaseScore(st, tc, score)];
      TellTestcase(old(sent), subtaskScores, TestcaseScore(st, tc, score));
      ghost var sent1 := sent;
      ghost var right := old(Faithful()) && (tc in old(testcaseScores) ==> old(testcaseScores)[tc].None?);
      forall x | x in subtaskScores && subtaskScores[x].Some?
        ensures Scored(subtaskTestcases[x], testcaseScores)
        ensures right ==>
          ScoresOf(subtaskTestcases[x], testcaseScores) == ScoresOf(subtaskTestcases[x], old(testcaseScores))
      {
        SameScores(subtaskTestcases[x], old(testcaseScores), tc, score);
      }
      ScoreRest(tc, score, right);
    }

    // Every subtask that has no score yet may have one now.
    method ScoreRest(tc: TestcaseId, score: real, ghost right: bool)
      requires Known() && Told(sent, subtaskScores) && UpToDate({}) && (right ==> Faithful())
      modifies this`subtaskScores, this`sent
      ensures Valid() && (right ==> Faithful()) && old(sent) <= sent
      ensures forall x :: x in old(subtaskScores) && old(subtaskScores)[x].Some? ==>
        x in subtaskScores && subtaskScores[x] == old(subtaskScores)[x]
    {
      hide Told, Aggregated, Scaled, Scored, ScoresOf;
      var todo := subtaskScores.Keys;
      while todo != {}
        invariant todo <= subtaskScores.Keys && Known() && Told(sent, subtaskScores)
        invariant UpToDate(subtaskScores.Keys - todo) && (right ==> Faithful()) && old(sent) <= sent
        invariant forall x :: x in old(subtaskScores) && old(subtaskScores)[x].Some? ==>
          x in subtaskScores && subtaskScores[x] == old(subtaskScores)[x]
        decreases todo
      {
        var x :| x in todo;
        if subtaskScores[x].None? { ScoreSubtask(x, subtaskScores.Keys - todo); }
        assert subtaskScores.Keys - todo + {x} == subtaskScores.Keys - (todo - {x});
        todo := todo - {x};
      }
      assert subtaskScores.Keys - todo == subtaskScores.Keys;
    }

    // Give the subtask its score, if its testcases have theirs, and the task
    // too when this was the last one.
    method ScoreSubtask(st: SubtaskId, ghost done: set<SubtaskId>)
      requires Known() && Told(sent, subtaskScores) && UpToDate(done) && st in subtaskScores && subtaskScores[st].None?
      modifies this`subtaskScores, this`sent
      ensures Known() && Told(sent, subtaskScores) && UpToDate(done + {st})
      ensures subtaskScores == if Scored(subtaskTestcases[st], testcaseScores) then old(subtaskScores)[st := Some(ScoreOf(st))] else old(subtaskScores)
      ensures old(sent) <= sent
    {
      hide Told, Aggregated, Scaled, SumOf, ScoresOf;
      ghost var due := ScoreOf(st);
      var testcases := subtaskTestcases[st];
      if forall i :: 0 <= i < |testcases| ==> testcaseScores[testcases[i]].Some? {
        assert Scored(testcases, testcaseScores);
        var normalized := Aggregate(aggregator, ScoresOf(testcases, testcaseScores));
        var score := Scaled(maxScores[st], normalized);
        assert score == due;
        TellSubtask(sent, subtaskScores, st, score, normalized);
        subtaskScores := subtaskScores[st := Some(score)];
        sent := sent + [SubtaskScore(st, score, normalized)];
        if forall x :: x in subtaskScores ==> subtaskScores[x].Some? {
          var sum := AddUp(subtaskScores);
          sent := sent + [TaskScore(sum)];
        }
      }
    }

    /** All the testcases, in any order, each of them once. */
    method ScoreAll(results: seq<(SubtaskId, TestcaseId, real)>)
      requires Valid() && Faithful()
      requires forall i :: 0 <= i < |results| ==> results[i].1 in testcaseScores && testcaseScores[results[i].1].None?
      requires forall i, j :: 0 <= i < j < |results| ==> results[i].1 != results[j].1
      modifies this`subtaskScores, this`testcaseScores, this`sent
      ensures Valid() && Faithful() && testcaseScores.Keys == old(testcaseScores).Keys
      ensures forall i :: 0 <= i < |results| ==> testcaseScores[results[i].1] == Some(results[i].2)
      ensures forall tc :: tc in testcaseScores && (forall i :: 0 <= i < |results| ==> results[i].1 != tc) ==>
        testcaseScores[tc] == old(testcaseScores)[tc]
    {
      hide Told, Aggregated, Scaled, ScoreManager.UpToDate, ScoresOf;
      for n := 0 to |results|
        invariant Valid() && Faithful() && testcaseScores.Keys == old(testcaseScores).Keys
        invariant forall i :: 0 <= i < n ==> testcaseScores[results[i].1] == Some(results[i].2)
        invariant forall tc :: tc in testcaseScores && (forall i :: 0 <= i < n ==> results[i].1 != tc) ==>
          testcaseScores[tc] == old(testcaseScores)[tc]
      {
        Score(results[n].0, results[n].1, results[n].2);
      }
    }
  }

  lemma NothingTold(scores: map<SubtaskId, Option<real>>)
    requires forall st :: st in scores ==> scores[st].None?
    ensures Told([], scores)
  {
  }

  lemma NothingScored(subtasks: map<SubtaskId, seq<TestcaseId>>, scores: map<TestcaseId, Option<real>>)
    requires forall tc :: tc in scores ==> scores[tc].None?
    ensures forall st :: st in subtasks && Scored(subtasks[st], scores) ==> subtasks[st] == []
  {
    forall st | st in subtasks && subtasks[st] != [] ensures !Scored(subtasks[st], scores) {
      assert subtasks[st][0] in scores ==> scores[subtasks[st][0]].None?;
    }
  }

  lemma NoTestcases(scores: map<TestcaseId, Option<real>>, aggregator: Aggregator)
    ensures Scored([], scores) && Aggregated(aggregator, ScoresOf([], scores)) == 1.0
    ensures forall max :: Scaled(max, 1.0) == max
  {
  }

  // A testcase that had no score was not part of a subtask that has one.
  lemma SameScores(testcases: seq<TestcaseId>, scores: map<TestcaseId, Option<real>>, tc: TestcaseId, score: real)
    requires Scored(testcases, scores)
    ensures Scored(testcases, scores[tc := Some(score)])
    ensures (tc in scores ==> scores[tc].None?) ==> ScoresOf(testcases, scores[tc := Some(score)]) == ScoresOf(testcases, scores)
  {
  }

  /** The order the testcases were scored in does not matter: two managers of
      the same task that know the same testcase scores have given the same
      scores to the same subtasks, and to the task, and sent each of them once. */
  lemma OrderDoesNotMatter(a: ScoreManager, b: ScoreManager)
    requires a.Valid() && b.Valid() && a.Faithful() && b.Faithful()
    requires a.maxScores == b.maxScores && a.subtaskTestcases == b.subtaskTestcases && a.aggregator == b.aggregator
    requires a.testcaseScores == b.testcaseScores
    ensures a.subtaskScores == b.subtaskScores
    ensures TaskSent(a.sent) == TaskSent(b.sent)
    ensures forall st :: st in a.subtaskScores ==> SubtaskSent(a.sent, st) == SubtaskSent(b.sent, st)
  {
    hide Aggregated, Scaled, SumOf, TaskSent, SubtaskSent, TaskIsLast, ScoresOf, Scored;
    forall st | st in a.subtaskScores ensures st in b.subtaskScores && a.subtaskScores[st] == b.subtaskScores[st] {
      assert a.ScoreOf(st) == b.ScoreOf(st);
      assert a.subtaskScores[st].Some? <==> Scored(a.subtaskTestcases[st], a.testcaseScores);
      assert b.subtaskScores[st].Some? <==> Scored(b.subtaskTestcases[st], b.testcaseScores);
    }
  }

  /** When every testcase of every subtask has a score, each subtask score was
      sent exactly once, and so was the task score, after all of them, unless
      there are no subtasks at all. */
  lemma EverythingSentOnce(m: ScoreManager)
    requires m.Valid() && m.Faithful() && forall st :: st in m.subtaskTestcases ==>
      Scored(m.subtaskTestcases[st], m.testcaseScores)
    ensures forall st :: st in m.subtaskTestcases ==> SubtaskSent(m.sent, st) == [m.ScoreOf(st)]
    ensures if m.subtaskTestcases == map[] then TaskSent(m.sent) == [] else TaskSent(m.sent) == [SumOf(m.subtaskScores)]
    ensures TaskIsLast(m.sent)
  {
    hide Aggregated, Scaled, SumOf, TaskSent, SubtaskSent, TaskIsLast, ScoresOf, Scored;
    assert AllThere(m.subtaskScores);
    assert m.subtaskScores == map[] <==> m.subtaskTestcases == map[] by {
      assert m.subtaskScores.Keys == m.subtaskTestcases.Keys;
    }
  }
}
