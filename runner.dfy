/**
 * The runner around the scenarios: one result record per scenario of a test
 * case (`run_test_case`), the selection of test cases by id, the run over
 * every selected case and the pass/fail summary (`main`).
 */
module Runner {
  import opened Wrappers
  import opened Strings
  import opened Verdict
  import opened Scenario

  datatype TestCase = TestCase(id: string, name: string, description: string, scenarios: seq<ScenarioData>)

  /** The result record of one scenario (the wall-clock timestamp is not modelled). */
  datatype Record = Record(testCaseId: string, scenarioId: string, description: string,
                           success: bool, message: string)

  /** What happens on the device for one scenario: the app reset, the login, then the form. */
  datatype Session = Session(resetOk: bool, loginOk: bool, device: Device)

  const ResetFailedMessage: string := "Failed to reset app"
  const LoginFailedMessage: string := "Failed to login"

  /** Every scenario of the test case has its session, with one observation per AI model. */
  predicate CaseFits(tc: TestCase, sessions: seq<Session>)
  {
    |sessions| == |tc.scenarios|
    && forall i :: 0 <= i < |sessions| ==> Fits(tc.scenarios[i], sessions[i].device)
  }

  /** The outcome of one scenario: a failed reset or login ends it before the form is touched. */
  function SessionOutcome(sc: ScenarioData, s: Session): Outcome
    requires Fits(sc, s.device)
  {
    if !s.resetOk then Outcome(false, ResetFailedMessage)
    else if !s.loginOk then Outcome(false, LoginFailedMessage)
    else ScenarioOutcome(sc, s.device)
  }

  /** The record of one scenario of test case `tcId`. */
  function ScenarioRecord(tcId: string, sc: ScenarioData, s: Session): Record
    requires Fits(sc, s.device)
  {
    var o := SessionOutcome(sc, s);
    Record(tcId, sc.scenarioId, sc.description, o.success, o.message)
  }

  /**
   * The records of a test case: exactly one per scenario, in scenario order,
   * each carrying the case's id and the scenario's id and description; a
   * failed reset or login gives its fixed failure, otherwise the scenario's outcome.
   */
  function CaseResults(tc: TestCase, sessions: seq<Session>): (rs: seq<Record>)
    requires CaseFits(tc, sessions)
    ensures |rs| == |tc.scenarios|
    ensures forall i :: 0 <= i < |rs| ==>
      var sc, s := tc.scenarios[i], sessions[i];
      && rs[i].testCaseId == tc.id && rs[i].scenarioId == sc.scenarioId && rs[i].description == sc.description
      && (!s.resetOk ==> !rs[i].success && rs[i].message == ResetFailedMessage)
      && (s.resetOk && !s.loginOk ==> !rs[i].success && rs[i].message == LoginFailedMessage)
      && (s.resetOk && s.loginOk ==> Outcome(rs[i].success, rs[i].message) == ScenarioOutcome(sc, s.device))
  {
    seq(|tc.scenarios|, i requires 0 <= i < |tc.scenarios| => ScenarioRecord(tc.id, tc.scenarios[i], sessions[i]))
  }

  /** `run_test_case`: reset, log in and run each scenario in turn, appending its record. */
  method RunTestCase(tc: TestCase, sessions: seq<Session>) returns (results: seq<Record>)
    requires CaseFits(tc, sessions)
    ensures results == CaseResults(tc, sessions)
  {
    results := [];
    var i := 0;
    while i < |tc.scenarios|
      invariant 0 <= i <= |tc.scenarios|
      invariant |results| == i
      invariant forall j :: 0 <= j < i ==> results[j] == ScenarioRecord(tc.id, tc.scenarios[j], sessions[j])
    {
      var scenario := tc.scenarios[i];
      var session := sessions[i];
      if !session.resetOk {
        results := results + [Record(tc.id, scenario.scenarioId, scenario.description, false, ResetFailedMessage)];
        i := i + 1;
        continue;
      }
      if !session.loginOk {
        results := results + [Record(tc.id, scenario.scenarioId, scenario.description, false, LoginFailedMessage)];
        i := i + 1;
        continue;
      }
      var success, message := RunScenario(scenario, session.device);
      results := results + [Record(tc.id, scenario.scenarioId, scenario.description, success, message)];
      i := i + 1;
    }
  }

  // ---------------------------------------------------------------------
  // Selecting test cases by id

  /** The test cases whose id is among `ids`, in their original order. */
  function KeepIds(cases: seq<TestCase>, ids: seq<string>): (kept: seq<TestCase>)
    ensures |kept| <= |cases|
    ensures forall tc :: tc in kept <==> tc in cases && tc.id in ids
  {
    if cases == [] then []
    else (if cases[0].id in ids then [cases[0]] else []) + KeepIds(cases[1..], ids)
  }

  /** The selection is order-preserving: selecting from two parts is selecting from each in turn. */
  lemma {:induction false} KeepIdsAppend(a: seq<TestCase>, b: seq<TestCase>, ids: seq<string>)
    ensures KeepIds(a + b, ids) == KeepIds(a, ids) + KeepIds(b, ids)
  {
    if a != [] {
      KeepIdsAppend(a[1..], b, ids);
      assert (a + b)[0] == a[0] && (a + b)[1..] == a[1..] + b;
      var head := if a[0].id in ids then [a[0]] else [];
      calc {
        KeepIds(a + b, ids);
        head + KeepIds(a[1..] + b, ids);
        head + (KeepIds(a[1..], ids) + KeepIds(b, ids));
        (head + KeepIds(a[1..], ids)) + KeepIds(b, ids);
        KeepIds(a, ids) + KeepIds(b, ids);
      }
    } else {
      assert a + b == b;
    }
  }

  /** Selecting twice with the same ids selects nothing more. */
  lemma {:induction false} KeepIdsIdempotent(cases: seq<TestCase>, ids: seq<string>)
    ensures KeepIds(KeepIds(cases, ids), ids) == KeepIds(cases, ids)
  {
    if cases != [] {
      KeepIdsIdempotent(cases[1..], ids);
      var head := if cases[0].id in ids then [cases[0]] else [];
      KeepIdsAppend(head, KeepIds(cases[1..], ids), ids);
    }
  }

  /** The test cases `main` runs: all of them, or those whose id is in the comma-separated filter. */
  function SelectTestCases(cases: seq<TestCase>, filter: Option<string>): (selected: seq<TestCase>)
    ensures filter == None || filter == Some("") ==> selected == cases
    ensures filter.Some? && filter.value != "" ==>
      forall tc :: tc in selected <==> tc in cases && tc.id in Split(filter.value, ',')
  {
    if filter.None? || filter.value == "" then cases
    else KeepIds(cases, Split(filter.value, ','))
  }

  /**
   * An id given in a comma-separated filter selects every case with that id,
   * and only cases whose id was given are selected.
   */
  lemma FilterById(cases: seq<TestCase>, ids: seq<string>, tc: TestCase)
    requires |ids| >= 1 && forall id :: id in ids ==> ',' !in id
    requires Join(ids, ',') != ""
    ensures tc in SelectTestCases(cases, Some(Join(ids, ','))) <==> tc in cases && tc.id in ids
  {
    SplitJoin(ids, ',');
  }

  // ---------------------------------------------------------------------
  // Running every selected case, and the summary

  /** Each selected test case has its sessions. */
  predicate SuiteFits(cases: seq<TestCase>, sessions: seq<seq<Session>>)
  {
    |sessions| == |cases| && forall i :: 0 <= i < |cases| ==> CaseFits(cases[i], sessions[i])
  }

  /** The records of every test case, case after case; each belongs to one of the cases run. */
  function AllResults(cases: seq<TestCase>, sessions: seq<seq<Session>>): (rs: seq<Record>)
    requires SuiteFits(cases, sessions)
    ensures forall r :: r in rs ==> exists i :: 0 <= i < |cases| && r.testCaseId == cases[i].id
  {
    if cases == [] then []
    else
      var n := |cases| - 1;
      AllResults(cases[..n], sessions[..n]) + CaseResults(cases[n], sessions[n])
  }

  /** The number of scenarios in the test cases. */
  function ScenarioCount(cases: seq<TestCase>): nat
  {
    if cases == [] then 0 else ScenarioCount(cases[..|cases| - 1]) + |cases[|cases| - 1].scenarios|
  }

  /** There is one record per scenario of every case run. */
  lemma {:induction false} AllResultsCount(cases: seq<TestCase>, sessions: seq<seq<Session>>)
    requires SuiteFits(cases, sessions)
    ensures |AllResults(cases, sessions)| == ScenarioCount(cases)
  {
    if cases != [] {
      var n := |cases| - 1;
      AllResultsCount(cases[..n], sessions[..n]);
    }
  }

  /** `main`'s loop: run each test case and extend the list of all records. */
  method RunAllCases(cases: seq<TestCase>, sessions: seq<seq<Session>>) returns (all: seq<Record>)
    requires SuiteFits(cases, sessions)
    ensures all == AllResults(cases, sessions)
  {
    all := [];
    var i := 0;
    while i < |cases|
      invariant 0 <= i <= |cases|
      invariant all == AllResults(cases[..i], sessions[..i])
    {
      var results := RunTestCase(cases[i], sessions[i]);
      assert cases[..i + 1][..i] == cases[..i] && sessions[..i + 1][..i] == sessions[..i];
      all := all + results;
      i := i + 1;
    }
    assert cases[..i] == cases && sessions[..i] == sessions;
  }

  /**
   * The number of records that passed, counted one record at a time: every
   * record passed exactly when the count is the total, none when it is zero.
   */
  function Passed(results: seq<Record>): (n: nat)
    ensures n <= |results|
    ensures n == |results| <==> forall i :: 0 <= i < |results| ==> results[i].success
    ensures n == 0 <==> forall i :: 0 <= i < |results| ==> !results[i].success
  {
    if results == [] then 0
    else Passed(results[..|results| - 1]) + (if results[|results| - 1].success then 1 else 0)
  }

  /** The positions of the records that passed. */
  ghost function PassedPositions(results: seq<Record>): set<int>
  {
    set i | 0 <= i < |results| && results[i].success
  }

  /** The passed count is the number of records whose `success` is true. */
  lemma {:induction false} PassedCountsSuccesses(results: seq<Record>)
    ensures Passed(results) == |PassedPositions(results)|
  {
    if results != [] {
      var n := |results| - 1;
      var init := results[..n];
      PassedCountsSuccesses(init);
      if results[n].success {
        assert PassedPositions(results) == PassedPositions(init) + {n};
        assert n !in PassedPositions(init);
      } else {
        assert PassedPositions(results) == PassedPositions(init);
      }
    }
  }

  /** The counts of a batch of records add up over concatenation. */
  lemma {:induction false} PassedAppend(a: seq<Record>, b: seq<Record>)
    ensures Passed(a + b) == Passed(a) + Passed(b)
    decreases |b|
  {
    if b != [] {
      var n := |b| - 1;
      PassedAppend(a, b[..n]);
      assert (a + b)[|a + b| - 1] == b[n] && (a + b)[..|a + b| - 1] == a + b[..n];
    } else {
      assert a + b == a;
    }
  }

  datatype Summary = Summary(total: nat, passed: nat, failed: nat)

  /**
   * The summary `main` prints: produced only when there is at least one record;
   * `passed` counts the records whose `success` is true, `failed` the others.
   */
  function Summarize(results: seq<Record>): (s: Option<Summary>)
    ensures s.None? <==> |results| == 0
    ensures s.Some? ==> s.value.total == |results|
                        && s.value.passed == |PassedPositions(results)|
                        && s.value.passed <= s.value.total
                        && s.value.failed == s.value.total - s.value.passed
  {
    PassedCountsSuccesses(results);
    if |results| == 0 then None
    else
      var total := |results|;
      var passed := Passed(results);
      Some(Summary(total, passed, total - passed))
  }

  /** A scenario whose reset or login failed is counted as failed. */
  lemma SessionFailureCountsAsFailed(tc: TestCase, sessions: seq<Session>, i: nat)
    requires CaseFits(tc, sessions) && i < |sessions| && !(sessions[i].resetOk && sessions[i].loginOk)
    ensures i !in PassedPositions(CaseResults(tc, sessions))
  {
  }

  /**
   * `main`: select the test cases, run them all, and summarise the records.
   * The sessions are those of the selected cases, in order.
   */
  method RunSuite(cases: seq<TestCase>, filter: Option<string>, sessions: seq<seq<Session>>)
    returns (all: seq<Record>, summary: Option<Summary>)
    requires SuiteFits(SelectTestCases(cases, filter), sessions)
    ensures all == AllResults(SelectTestCases(cases, filter), sessions)
    ensures |all| == ScenarioCount(SelectTestCases(cases, filter))
    ensures summary == Summarize(all)
  {
    var selected := cases;
    if filter.Some? && filter.value != "" {
      var ids := Split(filter.value, ',');
      selected := KeepIds(cases, ids);
    }
    all := RunAllCases(selected, sessions);
    AllResultsCount(selected, sessions);
    summary := Summarize(all);
  }
}
