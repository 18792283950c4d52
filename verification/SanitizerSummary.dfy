/** The sanitizer runner: test cases from the JUnit file, reports from the suite log, and
    the exit code over all suites. */
module SanitizerSummary {

  /** What the patterns find in a piece of output. */
  datatype Diagnostics = Diagnostics(reports: seq<string>, assertions: seq<string>, deadlySignal: bool)

  datatype Child = Child(tag: string)

  /** A case of the JUnit file; without a class name that field is empty. */
  datatype TestCase = TestCase(classname: string, name: string, children: seq<Child>, output: Diagnostics)

  datatype Junit = NoFile | Malformed(error: string) | Parsed(cases: seq<TestCase>)

  /** One run of ctest. */
  datatype Suite = Suite(name: string, returncode: int, log: Diagnostics, junit: Junit)

  datatype TestResult = TestResult(test: string, returncode: int, sanitizer: seq<string>, assertions: seq<string>,
                                   deadlySignal: bool)

  predicate Failure(c: Child) {
    c.tag == "failure" || c.tag == "error"
  }

  predicate CaseFailed(c: TestCase) {
    exists i :: 0 <= i < |c.children| && Failure(c.children[i])
  }

  function CasesOf(s: Suite): seq<TestCase> {
    if s.junit.Parsed? then s.junit.cases else []
  }

  /** Whether the summary counts a result as failed. */
  predicate Failing(r: TestResult) {
    r.returncode != 0 || r.sanitizer != [] || r.assertions != [] || r.deadlySignal
  }

  // --- one suite ---

  function TestName(suite: string, c: TestCase): string {
    if c.classname == "" then suite + "::" + c.name else suite + "::" + c.classname + "::" + c.name
  }

  function ResultOf(suite: string, c: TestCase): TestResult {
    TestResult(TestName(suite, c), if CaseFailed(c) then 1 else 0, c.output.reports,
               if CaseFailed(c) then c.output.assertions else [], c.output.deadlySignal)
  }

  /** `parse_junit`. Assertion words count only in the output of a failed case. */
  method ParseJunit(suite: string, cases: seq<TestCase>) returns (results: seq<TestResult>)
    ensures |results| == |cases|
    ensures forall i :: 0 <= i < |cases| ==> results[i] == ResultOf(suite, cases[i])
  {
    results := [];
    for i := 0 to |cases|
      invariant |results| == i
      invariant forall j :: 0 <= j < i ==> results[j] == ResultOf(suite, cases[j])
    {
      var failed := false;
      for k := 0 to |cases[i].children|
        invariant failed <==> exists j :: 0 <= j < k && Failure(cases[i].children[j])
      {
        if Failure(cases[i].children[k]) { failed := true; }
      }
      var out := cases[i].output;
      results := results + [TestResult(TestName(suite, cases[i]), if failed then 1 else 0, out.reports,
                                       if failed then out.assertions else [], out.deadlySignal)];
    }
  }

  function KnownReports(results: seq<TestResult>): set<string> {
    set r, report | r in results && report in r.sanitizer :: report
  }

  predicate AnySignal(results: seq<TestResult>) {
    exists i :: 0 <= i < |results| && results[i].deadlySignal
  }

  predicate AnyReturncode(results: seq<TestResult>) {
    exists i :: 0 <= i < |results| && results[i].returncode != 0
  }

  function Unassigned(reports: seq<string>, known: set<string>): (r: seq<string>)
    ensures forall x :: x in r <==> x in reports && x !in known
  {
    if reports == [] then []
    else (if reports[0] in known then [] else [reports[0]]) + Unassigned(reports[1..], known)
  }

  /** The suite passed: at least one case was parsed, none failed, ctest returned zero, and
      neither a case nor the log shows a report or a deadly signal. */
  ghost predicate SuiteClean(s: Suite) {
    && s.junit.Parsed? && s.junit.cases != [] && s.returncode == 0
    && (forall i :: 0 <= i < |s.junit.cases| ==> CaseClean(s.junit.cases[i]))
    && s.log.reports == [] && !s.log.deadlySignal
  }

  predicate CaseClean(c: TestCase) {
    !CaseFailed(c) && c.output.reports == [] && !c.output.deadlySignal
  }

  ghost predicate ReportedByCase(s: Suite, report: string) {
    exists i :: 0 <= i < |CasesOf(s)| && report in CasesOf(s)[i].output.reports
  }

  ghost predicate ReportedBySuite(s: Suite, report: string) {
    report in s.log.reports || ReportedByCase(s, report)
  }

  ghost predicate Shown(results: seq<TestResult>, report: string) {
    exists i :: 0 <= i < |results| && report in results[i].sanitizer
  }

  ghost predicate SignalInSuite(s: Suite) {
    s.log.deadlySignal || exists i :: 0 <= i < |CasesOf(s)| && CasesOf(s)[i].output.deadlySignal
  }

  predicate AnyFailing(results: seq<TestResult>) {
    exists i :: 0 <= i < |results| && Failing(results[i])
  }

  lemma ShownSnoc(results: seq<TestResult>, r: TestResult, report: string)
    ensures Shown(results + [r], report) <==> Shown(results, report) || report in r.sanitizer
  {
    var all := results + [r];
    assert all[|results|] == r;
    assert forall i :: 0 <= i < |results| ==> all[i] == results[i];
  }

  lemma FailingSnoc(results: seq<TestResult>, r: TestResult)
    ensures AnyFailing(results + [r]) <==> AnyFailing(results) || Failing(r)
    ensures AnySignal(results + [r]) <==> AnySignal(results) || r.deadlySignal
  {
    var all := results + [r];
    assert all[|results|] == r;
    assert forall i :: 0 <= i < |results| ==> all[i] == results[i];
  }

  lemma ShownIsKnown(results: seq<TestResult>, report: string)
    ensures report in KnownReports(results) <==> Shown(results, report)
  {
    if report in KnownReports(results) {
      var r :| r in results && report in r.sanitizer;
      var i :| 0 <= i < |results| && results[i] == r;
      assert report in results[i].sanitizer;
    }
    if Shown(results, report) {
      var i :| 0 <= i < |results| && report in results[i].sanitizer;
      assert results[i] in results;
    }
  }

  lemma ReportsAndSignalsFail(results: seq<TestResult>, report: string)
    ensures Shown(results, report) ==> AnyFailing(results)
    ensures AnySignal(results) ==> AnyFailing(results)
    ensures AnyReturncode(results) ==> AnyFailing(results)
  {
    if Shown(results, report) {
      var i :| 0 <= i < |results| && report in results[i].sanitizer;
      assert Failing(results[i]);
    }
    if AnySignal(results) {
      var i :| 0 <= i < |results| && results[i].deadlySignal;
      assert Failing(results[i]);
    }
    if AnyReturncode(results) {
      var i :| 0 <= i < |results| && results[i].returncode != 0;
      assert Failing(results[i]);
    }
  }

  /** What the log adds to results that already exist. */
  function LogResult(s: Suite, results: seq<TestResult>): TestResult {
    TestResult(s.name + "::ctest", s.returncode, Unassigned(s.log.reports, KnownReports(results)), [],
               s.log.deadlySignal && !AnySignal(results))
  }

  predicate LogAdds(s: Suite, results: seq<TestResult>) {
    || LogResult(s, results).sanitizer != [] || LogResult(s, results).deadlySignal
    || (s.returncode != 0 && !AnyReturncode(results))
  }

  function WithLog(s: Suite, results: seq<TestResult>): seq<TestResult> {
    if LogAdds(s, results) then results + [LogResult(s, results)] else results
  }

  /** With the log accounted for, exactly the reports of the results and of the log are
      shown, and something fails exactly when it did before or the log gives a reason. */
  lemma LogIsAccountedFor(s: Suite, results: seq<TestResult>)
    ensures forall report :: Shown(WithLog(s, results), report) <==> Shown(results, report) || report in s.log.reports
    ensures AnySignal(WithLog(s, results)) <==> AnySignal(results) || s.log.deadlySignal
    ensures AnyFailing(WithLog(s, results))
       <==> AnyFailing(results) || s.log.reports != [] || s.log.deadlySignal || s.returncode != 0
  {
    var r := LogResult(s, results);
    forall report
      ensures Shown(WithLog(s, results), report) <==> Shown(results, report) || report in s.log.reports
    {
      ShownSnoc(results, r, report);
      ShownIsKnown(results, report);
    }
    FailingSnoc(results, r);
    ReportsAndSignalsFail(results, "");
    if s.log.reports != [] {
      ShownIsKnown(results, s.log.reports[0]);
      ReportsAndSignalsFail(results, s.log.reports[0]);
      assert s.log.reports[0] in s.log.reports;
    }
  }

  lemma CaseResults(s: Suite, results: seq<TestResult>)
    requires |results| == |CasesOf(s)| && forall i :: 0 <= i < |results| ==> results[i] == ResultOf(s.name, CasesOf(s)[i])
    ensures forall report :: Shown(results, report) <==> ReportedByCase(s, report)
    ensures AnySignal(results) <==> exists i :: 0 <= i < |CasesOf(s)| && CasesOf(s)[i].output.deadlySignal
    ensures AnyFailing(results) <==> !forall i :: 0 <= i < |CasesOf(s)| ==> CaseClean(CasesOf(s)[i])
  {
    forall i | 0 <= i < |results|
      ensures Failing(results[i]) <==> !CaseClean(CasesOf(s)[i])
      ensures results[i].sanitizer == CasesOf(s)[i].output.reports
      ensures results[i].deadlySignal == CasesOf(s)[i].output.deadlySignal
    {
    }
  }

  /** What `run_suite` promises of its results. */
  ghost predicate Summarizes(s: Suite, results: seq<TestResult>) {
    && (forall report :: Shown(results, report) <==> ReportedBySuite(s, report))
    && (AnySignal(results) <==> SignalInSuite(s))
    && (AnyFailing(results) <==> !SuiteClean(s))
  }

  lemma SingleResult(r: TestResult)
    ensures forall report :: Shown([r], report) <==> report in r.sanitizer
    ensures AnySignal([r]) <==> r.deadlySignal
    ensures AnyFailing([r]) <==> Failing(r)
  {
    forall report ensures Shown([r], report) <==> report in r.sanitizer { ShownSnoc([], r, report); assert [] + [r] == [r]; }
    FailingSnoc([], r);
    assert [] + [r] == [r];
  }

  /** `run_suite` after ctest has ended: every report of the log or of a case is shown, no
      other is, and a result fails exactly when the suite is not clean. */
  method RunSuite(s: Suite) returns (results: seq<TestResult>)
    ensures results != [] && Summarizes(s, results)
  {
    match s.junit {
      case Parsed(cases) =>
        results := ParseJunit(s.name, cases);
        CaseResults(s, results);
      case NoFile => results := [];
      case Malformed(error) =>
        results := [TestResult(s.name + "::ctest-junit", 1, [], ["Could not parse CTest JUnit output: " + error], false)];
        SingleResult(results[0]);
    }
    if results == [] {
      var code := if s.returncode != 0 then s.returncode else 1;
      var message := if s.returncode != 0 then "CTest exited with an error code." else "CTest produced no test case results.";
      results := [TestResult(s.name + "::ctest", code, s.log.reports, s.log.assertions + [message], s.log.deadlySignal)];
      SingleResult(results[0]);
    } else {
      LogIsAccountedFor(s, results);
      if LogAdds(s, results) {
        results := results + [LogResult(s, results)];
      }
    }
  }

  // --- all suites ---

  datatype Summary = Summary(results: seq<TestResult>, passed: nat, failed: seq<TestResult>)

  /** The failing results, in order. */
  function FailingOnes(results: seq<TestResult>): (failed: seq<TestResult>)
    ensures forall r :: r in failed <==> r in results && Failing(r)
    decreases |results|
  {
    if results == [] then []
    else
      var last := |results| - 1;
      assert results == results[..last] + [results[last]];
      FailingOnes(results[..last]) + if Failing(results[last]) then [results[last]] else []
  }

  /** `summarize`: the failing results in order, and the number of the others. */
  method Summarize(results: seq<TestResult>) returns (summary: Summary)
    ensures summary.results == results && summary.passed + |summary.failed| == |results|
    ensures summary.failed == FailingOnes(results)
    ensures summary.failed == [] <==> !AnyFailing(results)
  {
    var failed: seq<TestResult> := [];
    for i := 0 to |results|
      invariant |failed| <= i && failed == FailingOnes(results[..i])
    {
      assert results[..i + 1][..i] == results[..i];
      if Failing(results[i]) { failed := failed + [results[i]]; }
    }
    assert results[..|results|] == results;
    summary := Summary(results, |results| - |failed|, failed);
    if failed != [] {
      assert failed[0] in results;
    }
    if AnyFailing(results) {
      var i :| 0 <= i < |results| && Failing(results[i]);
      assert results[i] in failed;
    }
  }

  ghost predicate AllSummarized(suites: seq<Suite>, results: seq<TestResult>) {
    && (forall report :: Shown(results, report) <==> exists i :: 0 <= i < |suites| && ReportedBySuite(suites[i], report))
    && (AnyFailing(results) <==> exists i :: 0 <= i < |suites| && !SuiteClean(suites[i]))
  }

  lemma ShownConcat(a: seq<TestResult>, b: seq<TestResult>, report: string)
    ensures Shown(a + b, report) <==> Shown(a, report) || Shown(b, report)
    ensures AnyFailing(a + b) <==> AnyFailing(a) || AnyFailing(b)
  {
    assert forall i :: 0 <= i < |a| ==> (a + b)[i] == a[i];
    assert forall i :: 0 <= i < |b| ==> (a + b)[|a| + i] == b[i];
  }

  lemma SummarizedStep(suites: seq<Suite>, s: Suite, results: seq<TestResult>, more: seq<TestResult>)
    requires AllSummarized(suites, results) && Summarizes(s, more)
    ensures AllSummarized(suites + [s], results + more)
  {
    var all := suites + [s];
    assert all[|suites|] == s && forall i :: 0 <= i < |suites| ==> all[i] == suites[i];
    ShownConcat(results, more, "");
    forall report
      ensures Shown(results + more, report) <==> exists i :: 0 <= i < |all| && ReportedBySuite(all[i], report)
    {
      ShownConcat(results, more, report);
    }
  }

  /** `main`: the exit code is zero exactly when every suite is clean, and every report of
      any case or log is in a failed result of the summary. */
  method Exit(suites: seq<Suite>) returns (code: int, summary: Summary)
    ensures code == 0 <==> forall i :: 0 <= i < |suites| ==> SuiteClean(suites[i])
    ensures forall i, report :: 0 <= i < |suites| && ReportedBySuite(suites[i], report) ==> Shown(summary.failed, report)
    ensures summary.passed + |summary.failed| == |summary.results|
  {
    var results: seq<TestResult> := [];
    for i := 0 to |suites|
      invariant AllSummarized(suites[..i], results)
    {
      var more := RunSuite(suites[i]);
      SummarizedStep(suites[..i], suites[i], results, more);
      assert suites[..i + 1] == suites[..i] + [suites[i]];
      results := results + more;
    }
    assert suites[..|suites|] == suites;
    summary := Summarize(results);
    code := if summary.failed != [] then 1 else 0;
    forall i, report | 0 <= i < |suites| && ReportedBySuite(suites[i], report) ensures Shown(summary.failed, report) {
      assert Shown(results, report);
      var j :| 0 <= j < |results| && report in results[j].sanitizer;
      assert Failing(results[j]) && results[j] in results;
      assert results[j] in summary.failed;
      var k :| 0 <= k < |summary.failed| && summary.failed[k] == results[j];
      assert report in summary.failed[k].sanitizer;
    }
  }
}
