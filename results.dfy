/**
 * The results writer (bsag/steps/gradescope/results.py): completes the
 * report's score, rounds it and the tests' scores, and folds every step log
 * that holds student output into a test of its own, placed before the
 * existing tests. Writing the report to its file is not modelled.
 */
module GradescopeResults {
  import opened Wrappers
  import opened Text
  import opened Logging
  import opened GradescopeTypes
  import opened StepTypes
  import opened Context

  /** `round(x, digits)` applied to a present value; an absent one stays absent. */
  function RoundOpt(x: Option<real>, digits: int): (r: Option<real>)
    ensures r.Some? <==> x.Some?
    ensures x.Some? ==> r.value == Round(x.value, digits)
  {
    match x
    case Some(v) => Some(Round(v, digits))
    case None => None
  }

  /** A test with its present score and maximum rounded; nothing else about it changes. */
  function RoundTest(t: TestResult, digits: int): (r: TestResult)
    ensures r.score == RoundOpt(t.score, digits) && r.maxScore == RoundOpt(t.maxScore, digits)
    ensures r.(score := t.score, maxScore := t.maxScore) == t
  {
    t.(score := RoundOpt(t.score, digits), maxScore := RoundOpt(t.maxScore, digits))
  }

  lemma RoundOptIdempotent(x: Option<real>, digits: int)
    ensures RoundOpt(RoundOpt(x, digits), digits) == RoundOpt(x, digits)
  {
    if x.Some? {
      RoundIdempotent(x.value, digits);
    }
  }

  /** Rounding a rounded test again changes nothing. */
  lemma RoundTestIdempotent(t: TestResult, digits: int)
    ensures RoundTest(RoundTest(t, digits), digits) == RoundTest(t, digits)
  {
    RoundOptIdempotent(t.score, digits);
    RoundOptIdempotent(t.maxScore, digits);
  }

  function RoundTests(tests: seq<TestResult>, digits: int): (r: seq<TestResult>)
    ensures |r| == |tests|
    ensures forall i :: 0 <= i < |tests| ==> r[i] == RoundTest(tests[i], digits)
  {
    seq(|tests|, i requires 0 <= i < |tests| => RoundTest(tests[i], digits))
  }

  /**
   * The test that shows one step log: named by the step's display name, its
   * output the stripped concatenation of the chunks, passed iff the step
   * succeeded, with the log's score rounded, and a maximum of 0 exactly when
   * that score is present and nonzero.
   */
  function LogTest(log: StepLog, digits: int): (t: TestResult)
    ensures t.name == Some(log.displayName)
    ensures t.output == Some(Strip(Concat(log.logChunks)))
    ensures t.status == Some(if log.success then Passed else Failed)
    ensures t.score == RoundOpt(log.score, digits)
    ensures t.maxScore.Some? <==> log.score.Some? && log.score.value != 0.0
    ensures t.maxScore.Some? ==> t.maxScore.value == 0.0
    ensures t.number == None && t.tags == [] && t.visibility == None
  {
    BlankTest.(
      name := Some(log.displayName),
      output := Some(Strip(Concat(log.logChunks))),
      score := RoundOpt(log.score, digits),
      maxScore := if log.score.Some? && log.score.value != 0.0 then Some(0.0) else None,
      status := Some(if log.success then Passed else Failed))
  }

  /** Two student messages end up on two lines of the test's output: each chunk ends its line. */
  lemma TwoMessagesTwoLines(log: StepLog, digits: int)
    requires log.logChunks == [StudentChunk("a"), StudentChunk("b")]
    ensures LogTest(log, digits).output == Some("a\nb")
  {
    var joined := "a\nb\n";
    ConcatTwo("a\n", "b\n");
    assert Concat(log.logChunks) == joined;
    assert !IsSpace('a') && IsSpace('\n') && !IsSpace('b');
    assert LStrip(joined) == joined;
    assert joined[..|joined| - 1] == "a\nb";
    assert RStrip("a\nb") == "a\nb";
  }

  lemma ConcatTwo(x: string, y: string)
    ensures Concat([x, y]) == x + y
  {
    assert [x, y][1..] == [y] && [y][1..] == [];
  }

  /** One test per step log with output, in step-log order. */
  function FoldLogs(logs: seq<StepLog>, digits: int): (r: seq<TestResult>)
    ensures |r| <= |logs|
  {
    if logs == [] then []
    else
      var last := logs[|logs| - 1];
      FoldLogs(logs[..|logs| - 1], digits) + if last.logChunks != [] then [LogTest(last, digits)] else []
  }

  /** Folding is done log by log: the fold of a concatenation is the concatenation of the folds. */
  lemma {:induction false} FoldLogsAppend(a: seq<StepLog>, b: seq<StepLog>, digits: int)
    ensures FoldLogs(a + b, digits) == FoldLogs(a, digits) + FoldLogs(b, digits)
    decreases |b|
  {
    if b == [] {
      assert a + b == a;
    } else {
      var init := b[..|b| - 1];
      assert (a + b)[..|a + b| - 1] == a + init;
      assert (a + b)[|a + b| - 1] == b[|b| - 1];
      FoldLogsAppend(a, init, digits);
    }
  }

  /** A log with output gives exactly its test; a log without output gives none. */
  lemma FoldOneLog(log: StepLog, digits: int)
    ensures FoldLogs([log], digits) == if log.logChunks != [] then [LogTest(log, digits)] else []
  {
    assert [log][..0] == [];
  }

  /** Logs without output leave no trace in the report. */
  lemma {:induction false} SilentLogsFoldToNothing(logs: seq<StepLog>, digits: int)
    requires forall i :: 0 <= i < |logs| ==> logs[i].logChunks == []
    ensures FoldLogs(logs, digits) == []
  {
    if logs != [] {
      SilentLogsFoldToNothing(logs[..|logs| - 1], digits);
    }
  }

  /** One synthetic test per log, in order, whether or not the log has output. */
  function LogTests(logs: seq<StepLog>, digits: int): (r: seq<TestResult>)
    ensures |r| == |logs|
    ensures forall i :: 0 <= i < |logs| ==> r[i] == LogTest(logs[i], digits)
  {
    seq(|logs|, i requires 0 <= i < |logs| => LogTest(logs[i], digits))
  }

  /** When every step log has output, each is folded into its test: nothing is dropped and the order is kept. */
  lemma {:induction false} LoudLogsAllFold(logs: seq<StepLog>, digits: int)
    requires forall i :: 0 <= i < |logs| ==> logs[i].logChunks != []
    ensures FoldLogs(logs, digits) == LogTests(logs, digits)
  {
    if logs != [] {
      var init := logs[..|logs| - 1];
      LoudInit(logs, init);
      LoudLogsAllFold(init, digits);
      FoldLoudStep(logs, digits);
      LogTestsStep(logs, digits);
    }
  }

  lemma LoudInit(logs: seq<StepLog>, init: seq<StepLog>)
    requires logs != [] && init == logs[..|logs| - 1]
    requires forall i :: 0 <= i < |logs| ==> logs[i].logChunks != []
    ensures forall i :: 0 <= i < |init| ==> init[i].logChunks != []
    ensures logs[|logs| - 1].logChunks != []
  {
  }

  lemma LogTestsStep(logs: seq<StepLog>, digits: int)
    requires logs != []
    ensures LogTests(logs, digits) == LogTests(logs[..|logs| - 1], digits) + [LogTest(logs[|logs| - 1], digits)]
  {
    var init, last := logs[..|logs| - 1], logs[|logs| - 1];
    assert logs == init + [last];
    LogTestsSnoc(init, last, digits);
  }

  lemma LogTestsSnoc(init: seq<StepLog>, last: StepLog, digits: int)
    ensures LogTests(init + [last], digits) == LogTests(init, digits) + [LogTest(last, digits)]
  {
    var all, want := LogTests(init + [last], digits), LogTests(init, digits) + [LogTest(last, digits)];
    forall i | 0 <= i < |all|
      ensures all[i] == want[i]
    {
      if i < |init| {
        assert (init + [last])[i] == init[i];
      }
    }
  }

  /** A last log with output adds its test at the end. */
  lemma FoldLoudStep(logs: seq<StepLog>, digits: int)
    requires logs != [] && logs[|logs| - 1].logChunks != []
    ensures FoldLogs(logs, digits) == FoldLogs(logs[..|logs| - 1], digits) + [LogTest(logs[|logs| - 1], digits)]
  {
  }

  /** The report with its score completed: set to 0 when `validate_score` fails, as it was otherwise. */
  function Completed(res: Results): (r: Results)
    ensures ValidateScore(r)
    ensures r.tests == res.tests
    ensures ValidateScore(res) ==> r == res
    ensures !ValidateScore(res) ==> r.score == Some(0.0)
  {
    if ValidateScore(res) then res else res.(score := Some(0.0))
  }

  /** The report `WriteResults.run` leaves behind. */
  function Written(res: Results, logs: seq<StepLog>, digits: int): Results {
    var c := Completed(res);
    c.(score := RoundOpt(c.score, digits), tests := FoldLogs(logs, digits) + RoundTests(c.tests, digits))
  }

  /**
   * The written report: its score is set exactly when it was set before or
   * `validate_score` failed (a report whose every test is scored keeps no
   * score); the synthetic tests come first and the rounded original tests
   * follow in their order; and nothing else changes.
   */
  lemma WrittenReport(res: Results, logs: seq<StepLog>, digits: int)
    ensures var w := Written(res, logs, digits);
      && (w.score.Some? <==> res.score.Some? || !ValidateScore(res))
      && (!ValidateScore(res) ==> w.score == Some(0.0))
      && |w.tests| == |FoldLogs(logs, digits)| + |res.tests|
      && w.tests[..|FoldLogs(logs, digits)|] == FoldLogs(logs, digits)
      && (forall i :: 0 <= i < |res.tests| ==> w.tests[|FoldLogs(logs, digits)| + i] == RoundTest(res.tests[i], digits))
      && w.(score := res.score, tests := res.tests) == res
  {
    RoundZero(digits);
    var f := FoldLogs(logs, digits);
    assert (f + RoundTests(res.tests, digits))[..|f|] == f;
  }

  /** The synthetic test of a log is already rounded. */
  lemma LogTestIsRounded(log: StepLog, digits: int)
    ensures RoundTest(LogTest(log, digits), digits) == LogTest(log, digits)
  {
    RoundOptIdempotent(log.score, digits);
    RoundZero(digits);
  }

  lemma {:induction false} FoldedTestsAreRounded(logs: seq<StepLog>, digits: int, i: int)
    requires 0 <= i < |FoldLogs(logs, digits)|
    ensures RoundTest(FoldLogs(logs, digits)[i], digits) == FoldLogs(logs, digits)[i]
  {
    var init := logs[..|logs| - 1];
    if i < |FoldLogs(init, digits)| {
      FoldedTestsAreRounded(init, digits, i);
    } else {
      LogTestIsRounded(logs[|logs| - 1], digits);
    }
  }

  /** The written tests are on the rounding grid: rewriting the report without new logs leaves them as they are. */
  lemma WrittenTestsStable(res: Results, logs: seq<StepLog>, digits: int)
    ensures Written(Written(res, logs, digits), [], digits).tests == Written(res, logs, digits).tests
  {
    var w := Written(res, logs, digits);
    WrittenReport(res, logs, digits);
    var f := FoldLogs(logs, digits);
    forall i | 0 <= i < |w.tests|
      ensures RoundTest(w.tests[i], digits) == w.tests[i]
    {
      if i < |f| {
        FoldedTestsAreRounded(logs, digits, i);
      } else {
        RoundTestIdempotent(res.tests[i - |f|], digits);
      }
    }
    assert FoldLogs([], digits) + RoundTests(w.tests, digits) == w.tests;
  }

  /**
   * `WriteResults.run`: completes and rounds the report in place, folds the
   * step logs into tests and puts them first; it raises when there is no
   * report and returns true otherwise.
   */
  method WriteResults(io: Bsagio, digits: int) returns (outcome: RunResult)
    modifies io`results
    ensures old(io.results).None? ==> outcome == Raised && io.results == old(io.results)
    ensures old(io.results).Some? ==> outcome == Returned(true) &&
                                      io.results == Some(Written(old(io.results).value, io.stepLogs, digits))
  {
    if io.results.None? {
      return Raised;
    }
    var res := io.results.value;
    if !ValidateScore(res) {
      res := res.(score := Some(0.0));
    }
    if res.score.Some? {
      res := res.(score := Some(Round(res.score.value, digits)));
    }
    var tests := RoundEach(res.tests, digits);
    var moduleLogs := FoldEach(io.stepLogs, digits);
    io.results := Some(res.(tests := moduleLogs + tests));
    outcome := Returned(true);
  }

  /** The loop rounding the report's tests in place. */
  method RoundEach(tests: seq<TestResult>, digits: int) returns (r: seq<TestResult>)
    ensures r == RoundTests(tests, digits)
  {
    r := tests;
    var i := 0;
    while i < |r|
      invariant 0 <= i <= |r| && |r| == |tests|
      invariant forall j :: 0 <= j < i ==> r[j] == RoundTest(tests[j], digits)
      invariant forall j :: i <= j < |r| ==> r[j] == tests[j]
    {
      r := r[i := RoundTest(r[i], digits)];
      i := i + 1;
    }
  }

  /** The loop turning every step log with output into a test, in order. */
  method FoldEach(logs: seq<StepLog>, digits: int) returns (r: seq<TestResult>)
    ensures r == FoldLogs(logs, digits)
  {
    r := [];
    var k := 0;
    while k < |logs|
      invariant 0 <= k <= |logs|
      invariant r == FoldLogs(logs[..k], digits)
    {
      assert logs[..k + 1][..k] == logs[..k];
      if logs[k].logChunks != [] {
        r := r + [LogTest(logs[k], digits)];
      }
      k := k + 1;
    }
    assert logs[..k] == logs;
  }
}
