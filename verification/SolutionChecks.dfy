/** The checks of a solution: what they mean, and which one fits some results.
    Source: task-maker-format/src/solution.rs, src/tools/add_solution_checks.rs. */
module SolutionChecks {

  datatype TestcaseResult =
    | Accepted
    | Partial
    | WrongAnswer
    | TimeLimitExceeded
    | WallTimeLimitExceeded
    | MemoryLimitExceeded
    | RuntimeError
  {
    // The position in the declaration.
    function Discriminant(): nat {
      match this
      case Accepted => 0
      case Partial => 1
      case WrongAnswer => 2
      case TimeLimitExceeded => 3
      case WallTimeLimitExceeded => 4
      case MemoryLimitExceeded => 5
      case RuntimeError => 6
    }

    function Proj(): int {
      match this
      case Accepted => 2
      case Partial => 1
      case _ => 0
    }
  }

  datatype CheckResult =
    | AcceptedCheck
    | PartialScoreCheck
    | WrongAnswerCheck
    | TimeLimitExceededCheck
    | WallTimeLimitExceededCheck
    | MemoryLimitExceededCheck
    | RuntimeErrorCheck
    | ZeroCheck

  datatype Order = Less | Equal | Greater | Unordered

  function Compare(a: TestcaseResult, b: TestcaseResult): Order {
    if a.Proj() > b.Proj() then Greater
    else if a.Proj() < b.Proj() then Less
    else if a == b then Equal
    else Unordered
  }

  function Minimals(check: CheckResult): seq<TestcaseResult> {
    match check
    case AcceptedCheck => [Accepted]
    case PartialScoreCheck => [Partial]
    case WrongAnswerCheck => [WrongAnswer]
    case TimeLimitExceededCheck => [TimeLimitExceeded]
    case WallTimeLimitExceededCheck => [WallTimeLimitExceeded]
    case MemoryLimitExceededCheck => [MemoryLimitExceeded]
    case RuntimeErrorCheck => [RuntimeError]
    case ZeroCheck => [WrongAnswer, TimeLimitExceeded, WallTimeLimitExceeded, MemoryLimitExceeded, RuntimeError]
  }

  const SORTED_ALL: seq<CheckResult> := [
    AcceptedCheck, PartialScoreCheck, WrongAnswerCheck, TimeLimitExceededCheck, WallTimeLimitExceededCheck,
    MemoryLimitExceededCheck, RuntimeErrorCheck, ZeroCheck]

  // ---------------------------------------------------------------- the order

  /** The comparison is a partial order: nothing is below itself, it is
      transitive, and the two directions agree. */
  lemma PartialOrder(a: TestcaseResult, b: TestcaseResult, c: TestcaseResult)
    ensures Compare(a, b) == Equal <==> a == b
    ensures Compare(a, b) == Less <==> Compare(b, a) == Greater
    ensures Compare(a, b) == Less && Compare(b, c) == Less ==> Compare(a, c) == Less
  {
  }

  // ---------------------------------------------------------------- what a check accepts

  // A result that no other one is worse than.
  ghost predicate Minimal(outcomes: seq<TestcaseResult>, o: TestcaseResult) {
    o in outcomes && forall x :: x in outcomes ==> Compare(x, o) != Less
  }

  /** Some minimal outcome is one the check is about; no outcomes at all count as accepted. */
  ghost predicate Accepts(check: CheckResult, outcomes: seq<TestcaseResult>) {
    (exists o :: Minimal(outcomes, o) && o in Minimals(check)) || (outcomes == [] && Accepted in Minimals(check))
  }

  method Check(check: CheckResult, outcomes: seq<TestcaseResult>) returns (r: bool)
    ensures r <==> Accepts(check, outcomes)
  {
    for i := 0 to |outcomes|
      invariant forall j :: 0 <= j < i ==> !(Minimal(outcomes, outcomes[j]) && outcomes[j] in Minimals(check))
    {
      var outcome := outcomes[i];
      if exists o :: o in outcomes && Compare(o, outcome) == Less { continue; }
      if outcome in Minimals(check) {
        assert Minimal(outcomes, outcome);
        return true;
      }
    }
    return outcomes == [] && Accepted in Minimals(check);
  }

  // ---------------------------------------------------------------- the check for some results

  ghost predicate StrictlySorted(s: seq<TestcaseResult>) {
    forall i, j :: 0 <= i < j < |s| ==> s[i].Discriminant() < s[j].Discriminant()
  }

  // The result takes its place, unless it is there already.
  method Insert(sorted: seq<TestcaseResult>, x: TestcaseResult) returns (r: seq<TestcaseResult>)
    requires StrictlySorted(sorted)
    ensures StrictlySorted(r) && forall o :: o in r <==> o in sorted || o == x
  {
    var i := 0;
    while i < |sorted| && sorted[i].Discriminant() < x.Discriminant()
      invariant 0 <= i <= |sorted|
      invariant forall j :: 0 <= j < i ==> sorted[j].Discriminant() < x.Discriminant()
    {
      i := i + 1;
    }
    if i < |sorted| && sorted[i] == x { return sorted; }
    r := sorted[..i] + [x] + sorted[i..];
    SameElements(sorted, i, x);
    InPlace(sorted, i, x);
  }

  lemma InPlace(s: seq<TestcaseResult>, i: nat, x: TestcaseResult)
    requires StrictlySorted(s) && i <= |s| && forall j :: 0 <= j < i ==> s[j].Discriminant() < x.Discriminant()
    requires i < |s| ==> s[i] != x && s[i].Discriminant() >= x.Discriminant()
    ensures StrictlySorted(s[..i] + [x] + s[i..])
  {
    assert i < |s| ==> s[i].Discriminant() != x.Discriminant();
  }

  lemma SameElements(s: seq<TestcaseResult>, i: nat, x: TestcaseResult)
    requires i <= |s|
    ensures forall o :: o in s[..i] + [x] + s[i..] <==> o in s || o == x
  {
    assert s == s[..i] + s[i..];
    forall o ensures o in s[..i] + [x] + s[i..] <==> o in s || o == x {
      assert o in s <==> o in s[..i] || o in s[i..];
    }
  }

  ghost predicate CoversMinimals(check: CheckResult, results: seq<TestcaseResult>) {
    forall o :: Minimal(results, o) ==> o in Minimals(check)
  }

  // The `k`th check is the first one that covers the minimal results.
  ghost predicate FirstCovering(results: seq<TestcaseResult>, check: CheckResult, k: nat) {
    && k < |SORTED_ALL| && SORTED_ALL[k] == check && CoversMinimals(check, results)
    && forall j :: 0 <= j < k ==> !CoversMinimals(SORTED_ALL[j], results)
  }

  /** The first check that is about every minimal result. There always is one,
      and the results pass it. */
  method ChooseCheck(results: seq<TestcaseResult>) returns (check: CheckResult)
    ensures Accepts(check, results) && CoversMinimals(check, results)
    ensures exists k :: FirstCovering(results, check, k)
  {
    var sorted: seq<TestcaseResult> := [];
    for i := 0 to |results|
      invariant StrictlySorted(sorted) && forall o :: o in sorted <==> o in results[..i]
    {
      sorted := Insert(sorted, results[i]);
      assert results[..i + 1] == results[..i] + [results[i]];
    }
    assert results[..|results|] == results;
    var minimal: seq<TestcaseResult> := [];
    for i := 0 to |sorted|
      invariant forall o :: o in minimal <==> o in sorted[..i] && Minimal(results, o)
    {
      if forall o :: o in sorted ==> Compare(o, sorted[i]) != Less {
        minimal := minimal + [sorted[i]];
      }
      assert sorted[..i + 1] == sorted[..i] + [sorted[i]];
    }
    assert sorted[..|sorted|] == sorted;
    for k := 0 to |SORTED_ALL|
      invariant forall j :: 0 <= j < k ==> !CoversMinimals(SORTED_ALL[j], results)
    {
      if forall o :: o in minimal ==> o in Minimals(SORTED_ALL[k]) {
        check := SORTED_ALL[k];
        CoveringIsAccepting(check, results);
        assert FirstCovering(results, check, k);
        return;
      }
    }
    SomeCheckCovers(results);
    assert false;
  }

  lemma {:induction false} HasMinimal(outcomes: seq<TestcaseResult>)
    requires outcomes != []
    ensures exists o :: Minimal(outcomes, o)
  {
    var n := |outcomes| - 1;
    if n == 0 {
      assert Minimal(outcomes, outcomes[0]);
    } else {
      HasMinimal(outcomes[..n]);
      var o :| Minimal(outcomes[..n], o);
      assert outcomes == outcomes[..n] + [outcomes[n]];
      assert Minimal(outcomes, if Compare(outcomes[n], o) == Less then outcomes[n] else o);
    }
  }

  // All the minimal results are equally bad.
  lemma MinimalsAgree(results: seq<TestcaseResult>, a: TestcaseResult, b: TestcaseResult)
    requires Minimal(results, a) && Minimal(results, b)
    ensures a.Proj() == b.Proj()
  {
  }

  lemma SomeCheckCovers(results: seq<TestcaseResult>)
    ensures exists k :: 0 <= k < |SORTED_ALL| && CoversMinimals(SORTED_ALL[k], results)
  {
    if results == [] {
      assert CoversMinimals(SORTED_ALL[0], results);
    } else {
      HasMinimal(results);
      var o :| Minimal(results, o);
      forall x | Minimal(results, x) ensures x.Proj() == o.Proj() { MinimalsAgree(results, x, o); }
      var k := if o.Accepted? then 0 else if o.Partial? then 1 else 7;
      assert CoversMinimals(SORTED_ALL[k], results);
    }
  }

  function Position(check: CheckResult): nat {
    match check
    case AcceptedCheck => 0
    case PartialScoreCheck => 1
    case WrongAnswerCheck => 2
    case TimeLimitExceededCheck => 3
    case WallTimeLimitExceededCheck => 4
    case MemoryLimitExceededCheck => 5
    case RuntimeErrorCheck => 6
    case ZeroCheck => 7
  }

  /** The first check that covers the minimal results is also a smallest one:
      no other covering check is about fewer results. */
  lemma FirstIsSmallest(results: seq<TestcaseResult>, check: CheckResult, k: nat, other: CheckResult)
    requires FirstCovering(results, check, k) && CoversMinimals(other, results)
    ensures |Minimals(check)| <= |Minimals(other)|
  {
    assert SORTED_ALL[Position(other)] == other && SORTED_ALL[Position(check)] == check;
  }

  /** A check that covers the minimal results of a list accepts the list, and
      of an empty list only the first check that covers it is the accepting one. */
  lemma CoveringIsAccepting(check: CheckResult, results: seq<TestcaseResult>)
    requires CoversMinimals(check, results) && (results == [] ==> check == SORTED_ALL[0])
    ensures Accepts(check, results)
  {
    if results != [] {
      HasMinimal(results);
      var o :| Minimal(results, o);
      assert o in Minimals(check);
    }
  }

  /** A comment that was inferred from some results is satisfied by them. */
  method InferThenCheck(results: seq<TestcaseResult>) returns (check: CheckResult, ok: bool)
    ensures ok && CoversMinimals(check, results)
  {
    check := ChooseCheck(results);
    ok := Check(check, results);
  }
}
