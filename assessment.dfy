/**
 * The assessment step (bsag/steps/jh61b/assessment.py): runs every
 * assessment file of one live piece, gathers the tests they report, sums
 * them, optionally demands a full score, and stores the piece's results
 * under its name. Each run of the Java assessor is an input: what the
 * process did and what its output file held.
 */
module Assessment {
  import opened Wrappers
  import opened Text
  import opened Logging
  import opened GradescopeTypes
  import opened Jh61bTypes
  import opened Subprocess
  import opened StepTypes
  import opened Context

  /** `AssessmentConfig`, without the Java options and timeout, which only shape the command. */
  datatype AssessmentConfig = AssessmentConfig(
    graderRoot: Path,
    submissionRoot: Path,
    pieceName: string,
    requireFullScore: bool,
    aggregatedNumber: Option<string>)

  /** What reading the output file gave: not JSON, JSON that is not a report, or a report's tests. */
  datatype Parsed = NotJson | NotResults | Report(tests: seq<TestResult>)

  /**
   * One assessor run: the class run (the file's class name, as the command
   * line and the error messages show it), the process outcome and the parsed
   * output file.
   */
  datatype AssessRun = AssessRun(assessorClass: string, command: CommandRun, parsed: Parsed)

  /** A return code above 128 or below 0: the process was killed. */
  predicate Died(c: CommandRun) {
    c.returnCode > 128 || c.returnCode < 0
  }

  /**
   * How a run ends the loop early: false on a timeout, a killed process or
   * output that is not JSON; an exception when the JSON is not a report
   * (that validation error is not caught); none when the run reported tests.
   */
  function Verdict(r: AssessRun): (v: Option<RunResult>)
    ensures v.None? <==> !r.command.timedOut && !Died(r.command) && r.parsed.Report?
    ensures v == Some(Raised) <==> !r.command.timedOut && !Died(r.command) && r.parsed.NotResults?
  {
    if r.command.timedOut || Died(r.command) then Some(Returned(false))
    else match r.parsed
      case NotJson => Some(Returned(false))
      case NotResults => Some(Raised)
      case Report(_) => None
  }

  /** The runs in the order the files were visited: the first early verdict wins, otherwise all tests in order. */
  function Collect(runs: seq<AssessRun>): (r: Result<seq<TestResult>, RunResult>)
    ensures r.Ok? <==> forall i :: 0 <= i < |runs| ==> Verdict(runs[i]).None?
    ensures r.Err? ==> exists i :: 0 <= i < |runs| && Verdict(runs[i]) == Some(r.error) &&
                                   forall j :: 0 <= j < i ==> Verdict(runs[j]).None?
  {
    if runs == [] then Ok([])
    else match Verdict(runs[0])
      case Some(v) => Err(v)
      case None =>
        var rest := Collect(runs[1..]);
        assert forall i :: 1 <= i < |runs| ==> runs[i] == runs[1..][i - 1];
        if rest.Err? then rest else Ok(runs[0].parsed.tests + rest.value)
  }

  /** Collecting one more successful run appends its tests. */
  lemma {:induction false} CollectAppend(runs: seq<AssessRun>, r: AssessRun)
    requires Collect(runs).Ok? && Verdict(r).None?
    ensures Collect(runs + [r]) == Ok(Collect(runs).value + r.parsed.tests)
  {
    if runs == [] {
      assert runs + [r] == [r] && [r][1..] == [];
      assert Collect([r]) == Ok(r.parsed.tests + []);
      assert r.parsed.tests + [] == r.parsed.tests;
      assert Collect(runs) == Ok([]);
      assert Collect(runs).value + r.parsed.tests == r.parsed.tests;
    } else {
      assert (runs + [r])[0] == runs[0] && Verdict(runs[0]).None?;
      assert (runs + [r])[1..] == runs[1..] + [r];
      CollectAppend(runs[1..], r);
      var head := runs[0].parsed.tests;
      assert Collect(runs).value == head + Collect(runs[1..]).value;
      assert Collect(runs + [r]) == Ok(head + Collect(runs[1..] + [r]).value);
      assert Collect(runs + [r]).value == head + (Collect(runs[1..]).value + r.parsed.tests);
      assert head + (Collect(runs[1..]).value + r.parsed.tests) == Collect(runs).value + r.parsed.tests;
    }
  }

  /** A run with an early verdict after successful ones ends the collection with that verdict. */
  lemma {:induction false} CollectStops(runs: seq<AssessRun>, r: AssessRun)
    requires Collect(runs).Ok? && Verdict(r).Some?
    ensures Collect(runs + [r]) == Err(Verdict(r).value)
  {
    if runs == [] {
    } else {
      assert (runs + [r])[1..] == runs[1..] + [r];
      CollectStops(runs[1..], r);
    }
  }

  // The messages of a run that ends the step with a failure.

  function TimedOutStaff(cls: string): string {
    "timed out while running " + cls
  }

  function TimedOutStudent(cls: string): string {
    "Your submission timed out on the test suite " + cls + ".\n" +
    "Please make sure your code terminates on all inputs, and doesn't take too long to do so."
  }

  function DiedStaff(cls: string, code: int): string {
    "process died with code " + IntToString(code) + " running " + cls
  }

  function DiedStudent(cls: string): string {
    "Your submission failed to complete on the test suite " + cls + ".\n" +
    "You're most likely using too much memory."
  }

  function DecodeStaff(cls: string): string {
    "Error decoding output for " + cls
  }

  const DecodeStudent := "Unexpected error while running assessment; details in staff logs."

  /** The staff error lines of a run that ends the step with a failure; none for any other run. */
  function StaffErrors(r: AssessRun): (m: seq<string>)
    ensures m != [] <==> Verdict(r) == Some(Returned(false))
  {
    if r.command.timedOut then [TimedOutStaff(r.assessorClass)]
    else if Died(r.command) then [DiedStaff(r.assessorClass, r.command.returnCode)]
    else if r.parsed.NotJson? then [DecodeStaff(r.assessorClass), "\n" + r.command.output]
    else []
  }

  /** The student's error message of a run that ends the step with a failure; none for any other run. */
  function StudentError(r: AssessRun): (m: Option<string>)
    ensures m.Some? <==> Verdict(r) == Some(Returned(false))
  {
    if r.command.timedOut then Some(TimedOutStudent(r.assessorClass))
    else if Died(r.command) then Some(DiedStudent(r.assessorClass))
    else if r.parsed.NotJson? then Some(DecodeStudent)
    else None
  }

  /** The step logs after the student sink received `m`, if there is a message and a log to hold it. */
  function StudentTold(logs: seq<StepLog>, m: Option<string>): seq<StepLog> {
    if m.Some? && |logs| > 0 then AppendChunk(logs, StudentChunk(m.value)) else logs
  }

  /**
   * A failing run leaves its message at the end of the running step's log,
   * so that log has output and is folded into a test of the report.
   */
  lemma FailureReachesStudent(logs: seq<StepLog>, r: AssessRun)
    requires |logs| > 0 && Verdict(r) == Some(Returned(false))
    ensures var told := StudentTold(logs, StudentError(r));
      && |told| == |logs| && told[..|logs| - 1] == logs[..|logs| - 1]
      && told[|told| - 1].logChunks == logs[|logs| - 1].logChunks + [StudentChunk(StudentError(r).value)]
  {
    ChunkReachesLast(logs, StudentError(r).value);
  }

  /** Appending a chunk keeps every earlier log and ends the last one with the chunk. */
  lemma ChunkReachesLast(logs: seq<StepLog>, m: string)
    requires |logs| > 0
    ensures var told := StudentTold(logs, Some(m));
      && |told| == |logs| && told[..|logs| - 1] == logs[..|logs| - 1]
      && told[|told| - 1].logChunks == logs[|logs| - 1].logChunks + [StudentChunk(m)]
  {
    var told := AppendChunk(logs, StudentChunk(m));
    assert told[..|logs| - 1] == logs[..|logs| - 1];
  }

  /** The error messages of the run that ended the loop: the staff lines, then the student's message. */
  method ReportStop(io: Bsagio, r: AssessRun)
    modifies io`stepLogs, io`privateLog
    ensures io.privateLog == old(io.privateLog) + StaffErrors(r)
    ensures io.stepLogs == StudentTold(old(io.stepLogs), StudentError(r))
  {
    if r.command.timedOut {
      ReportTimedOut(io, r);
    } else if Died(r.command) {
      ReportDied(io, r);
    } else if r.parsed.NotJson? {
      ReportUndecodable(io, r);
    } else {
      NoMessages(r);
    }
  }

  method ReportTimedOut(io: Bsagio, r: AssessRun)
    requires r.command.timedOut
    modifies io`stepLogs, io`privateLog
    ensures io.privateLog == old(io.privateLog) + StaffErrors(r)
    ensures io.stepLogs == StudentTold(old(io.stepLogs), StudentError(r))
  {
    TimedOutMessages(r);
    io.Emit(Some(LOG_PRIVATE), TimedOutStaff(r.assessorClass));
    io.Emit(Some(LOG_STUDENT), TimedOutStudent(r.assessorClass));
  }

  method ReportDied(io: Bsagio, r: AssessRun)
    requires !r.command.timedOut && Died(r.command)
    modifies io`stepLogs, io`privateLog
    ensures io.privateLog == old(io.privateLog) + StaffErrors(r)
    ensures io.stepLogs == StudentTold(old(io.stepLogs), StudentError(r))
  {
    DiedMessages(r);
    io.Emit(Some(LOG_PRIVATE), DiedStaff(r.assessorClass, r.command.returnCode));
    io.Emit(Some(LOG_STUDENT), DiedStudent(r.assessorClass));
  }

  method ReportUndecodable(io: Bsagio, r: AssessRun)
    requires !r.command.timedOut && !Died(r.command) && r.parsed.NotJson?
    modifies io`stepLogs, io`privateLog
    ensures io.privateLog == old(io.privateLog) + StaffErrors(r)
    ensures io.stepLogs == StudentTold(old(io.stepLogs), StudentError(r))
  {
    UndecodableMessages(r);
    io.Emit(Some(LOG_PRIVATE), DecodeStaff(r.assessorClass));
    io.Emit(Some(LOG_PRIVATE), "\n" + r.command.output);
    io.Emit(Some(LOG_STUDENT), DecodeStudent);
  }

  lemma TimedOutMessages(r: AssessRun)
    requires r.command.timedOut
    ensures StaffErrors(r) == [TimedOutStaff(r.assessorClass)] && StudentError(r) == Some(TimedOutStudent(r.assessorClass))
  {
  }

  lemma DiedMessages(r: AssessRun)
    requires !r.command.timedOut && Died(r.command)
    ensures StaffErrors(r) == [DiedStaff(r.assessorClass, r.command.returnCode)]
    ensures StudentError(r) == Some(DiedStudent(r.assessorClass))
  {
  }

  lemma UndecodableMessages(r: AssessRun)
    requires !r.command.timedOut && !Died(r.command) && r.parsed.NotJson?
    ensures StaffErrors(r) == [DecodeStaff(r.assessorClass), "\n" + r.command.output]
    ensures StudentError(r) == Some(DecodeStudent)
  {
  }

  lemma NoMessages(r: AssessRun)
    requires !r.command.timedOut && !Died(r.command) && !r.parsed.NotJson?
    ensures StaffErrors(r) == [] && StudentError(r) == None
  {
  }

  /** The runs of the files in the order given. */
  function RunsOf(run: Path -> AssessRun, order: seq<Path>): (r: seq<AssessRun>)
    ensures |r| == |order| && forall i :: 0 <= i < |order| ==> r[i] == run(order[i])
  {
    seq(|order|, i requires 0 <= i < |order| => run(order[i]))
  }

  /** The line naming a failing test: its number (if any) and its name, or "Unnamed test". */
  function FailedLine(t: TestResult): string {
    "- " + (if t.number.Some? && t.number.value != "" then t.number.value else "") +
    (if t.name.Some? && t.name.value != "" then t.name.value else "Unnamed test")
  }

  /** Under a full-score requirement: a test short of its maximum fails, and no test keeps a score or maximum. */
  function Marked(t: TestResult): (r: TestResult)
    ensures r.score == None && r.maxScore == None
    ensures r.status == if t.score != t.maxScore then Some(Failed) else t.status
    ensures r.(score := t.score, maxScore := t.maxScore, status := t.status) == t
  {
    (if t.score != t.maxScore then t.(status := Some(Failed)) else t).(score := None, maxScore := None)
  }

  function MarkedAll(tests: seq<TestResult>): (r: seq<TestResult>)
    ensures |r| == |tests| && forall i :: 0 <= i < |tests| ==> r[i] == Marked(tests[i])
  {
    seq(|tests|, i requires 0 <= i < |tests| => Marked(tests[i]))
  }

  /** The lines of the tests short of their maximum, in order. */
  function FailedLines(tests: seq<TestResult>): (r: seq<string>)
    ensures |r| <= |tests|
  {
    if tests == [] then []
    else
      var last := tests[|tests| - 1];
      FailedLines(tests[..|tests| - 1]) + if last.score != last.maxScore then [FailedLine(last)] else []
  }

  /** A test is listed iff it falls short of its maximum: each such test has its line, and every line is such a test's. */
  lemma {:induction false} FailedLinesListed(tests: seq<TestResult>)
    ensures forall i :: 0 <= i < |tests| && tests[i].score != tests[i].maxScore ==> FailedLine(tests[i]) in FailedLines(tests)
    ensures forall l :: l in FailedLines(tests) ==>
              exists i :: 0 <= i < |tests| && tests[i].score != tests[i].maxScore && l == FailedLine(tests[i])
  {
    if tests != [] {
      var init := tests[..|tests| - 1];
      FailedLinesListed(init);
      assert forall i :: 0 <= i < |tests| - 1 ==> init[i] == tests[i];
    }
  }

  /** Every test reaches its maximum iff there is no failing line. */
  lemma {:induction false} NoFailedLines(tests: seq<TestResult>)
    ensures FailedLines(tests) == [] <==> forall i :: 0 <= i < |tests| ==> tests[i].score == tests[i].maxScore
  {
    if tests != [] {
      NoFailedLines(tests[..|tests| - 1]);
      assert forall i :: 0 <= i < |tests| - 1 ==> tests[..|tests| - 1][i] == tests[i];
    }
  }

  /** The output of the aggregate test: the requirement, then the failing tests if any. */
  function AggregateOutput(pieceName: string, failed: seq<string>): (out: string)
    ensures failed == [] ==> out == pieceName + " requires full score to receive credit."
  {
    var head := [pieceName + " requires full score to receive credit."];
    JoinWith(if failed == [] then head else head + ["Failing the following tests:"] + failed, '\n')
  }

  /** The test that stands for the whole piece under a full-score requirement. */
  function Aggregate(cfg: AssessmentConfig, score: real, maxScore: real, failed: seq<string>): TestResult {
    BlankTest.(name := Some(cfg.pieceName), number := cfg.aggregatedNumber, score := Some(score),
               maxScore := Some(maxScore), output := Some(AggregateOutput(cfg.pieceName, failed)))
  }

  /** What the step returns and the piece's results it stores, given the tests all runs reported. */
  function Graded(cfg: AssessmentConfig, tests: seq<TestResult>): (bool, Jh61bResults) {
    var score := TotalScore(tests);
    var maxScore := TotalMaxScore(tests);
    if !cfg.requireFullScore then (true, Jh61bResults(score, maxScore, tests))
    else
      var s := if score != maxScore then 0.0 else score;
      (s == maxScore, Jh61bResults(s, maxScore, [Aggregate(cfg, s, maxScore, FailedLines(tests))] + MarkedAll(tests)))
  }

  /** Without the requirement the piece passes with the sums of its tests, which are kept as reported. */
  lemma GradedPlain(cfg: AssessmentConfig, tests: seq<TestResult>)
    requires !cfg.requireFullScore
    ensures Graded(cfg, tests) == (true, Jh61bResults(TotalScore(tests), TotalMaxScore(tests), tests))
  {
  }

  /**
   * With the requirement, the piece passes iff it scored its maximum or its
   * maximum is 0; short of it, it scores 0. The aggregate test comes first
   * and carries the piece's score and maximum.
   */
  lemma GradedFullScore(cfg: AssessmentConfig, tests: seq<TestResult>)
    requires cfg.requireFullScore
    ensures var (ok, r) := Graded(cfg, tests);
      && (ok <==> TotalScore(tests) == TotalMaxScore(tests) || TotalMaxScore(tests) == 0.0)
      && r.maxScore == TotalMaxScore(tests)
      && r.score == (if TotalScore(tests) == TotalMaxScore(tests) then TotalScore(tests) else 0.0)
      && |r.tests| == |tests| + 1
      && r.tests[0].name == Some(cfg.pieceName) && r.tests[0].number == cfg.aggregatedNumber
      && r.tests[0].score == Some(r.score) && r.tests[0].maxScore == Some(r.maxScore)
  {
  }

  /**
   * With the requirement, every reported test follows the aggregate in
   * order, has lost its score and maximum, and failed iff it was short of its maximum.
   */
  lemma GradedFullScoreTests(cfg: AssessmentConfig, tests: seq<TestResult>, i: int)
    requires cfg.requireFullScore && 0 <= i < |tests|
    ensures var r := Graded(cfg, tests).1;
      && |r.tests| == |tests| + 1
      && r.tests[i + 1].score == None && r.tests[i + 1].maxScore == None
      && r.tests[i + 1].name == tests[i].name && r.tests[i + 1].output == tests[i].output
      && (tests[i].score != tests[i].maxScore ==> r.tests[i + 1].status == Some(Failed))
      && (tests[i].score == tests[i].maxScore ==> r.tests[i + 1].status == tests[i].status)
  {
    var r := Graded(cfg, tests).1;
    var agg := Aggregate(cfg, if TotalScore(tests) != TotalMaxScore(tests) then 0.0 else TotalScore(tests),
                         TotalMaxScore(tests), FailedLines(tests));
    assert r.tests == [agg] + MarkedAll(tests);
    assert r.tests[i + 1] == Marked(tests[i]);
  }

  /** A piece whose tests all reach their maximum reports only the requirement. */
  lemma FullScoreOutput(cfg: AssessmentConfig, tests: seq<TestResult>)
    requires cfg.requireFullScore
    requires forall i :: 0 <= i < |tests| ==> tests[i].score == tests[i].maxScore
    ensures Graded(cfg, tests).1.tests[0].output == Some(cfg.pieceName + " requires full score to receive credit.")
  {
    NoFailedLines(tests);
  }

  /**
   * The loop over the assessment files, in the order the set is iterated.
   * The run that ends it early reports its errors before the loop returns.
   */
  method RunFiles(io: Bsagio, files: set<Path>, run: Path -> AssessRun)
    returns (r: Result<seq<TestResult>, RunResult>, ghost order: seq<Path>)
    modifies io`stepLogs, io`privateLog
    ensures unchanged(io`testResults)
    ensures forall i :: 0 <= i < |order| ==> order[i] in files
    ensures forall i, j :: 0 <= i < j < |order| ==> order[i] != order[j]
    ensures r == Collect(RunsOf(run, order))
    ensures r.Ok? ==> forall f :: f in files ==> f in order
    ensures r.Ok? ==> io.stepLogs == old(io.stepLogs) && io.privateLog == old(io.privateLog)
    ensures r.Err? ==>
              && |order| > 0
              && io.privateLog == old(io.privateLog) + StaffErrors(run(order[|order| - 1]))
              && io.stepLogs == StudentTold(old(io.stepLogs), StudentError(run(order[|order| - 1])))
  {
    var tests, stop;
    tests, order, stop := VisitFiles(files, run);
    if stop.Some? {
      var e := EndLoop(io, stop.value);
      r := Err(e);
    } else {
      r := Ok(tests);
    }
  }

  /**
   * The runs of the loop, up to the first one with an early verdict, which
   * it returns; with none, every file was run and the tests are gathered.
   */
  method VisitFiles(files: set<Path>, run: Path -> AssessRun)
    returns (tests: seq<TestResult>, ghost order: seq<Path>, stop: Option<AssessRun>)
    ensures forall i :: 0 <= i < |order| ==> order[i] in files
    ensures forall i, j :: 0 <= i < j < |order| ==> order[i] != order[j]
    ensures stop.None? ==> Collect(RunsOf(run, order)) == Ok(tests) && forall f :: f in files ==> f in order
    ensures stop.Some? ==>
              && |order| > 0 && stop.value == run(order[|order| - 1])
              && Verdict(stop.value).Some? && Collect(RunsOf(run, order)) == Err(Verdict(stop.value).value)
  {
    tests := [];
    order := [];
    var todo := files;
    while todo != {}
      invariant todo <= files
      invariant forall f :: f in files ==> (f in todo <==> f !in order)
      invariant forall i :: 0 <= i < |order| ==> order[i] in files
      invariant forall i, j :: 0 <= i < j < |order| ==> order[i] != order[j]
      invariant Collect(RunsOf(run, order)) == Ok(tests)
      decreases todo
    {
      var f :| f in todo;
      var result := run(f);
      ghost var runs := RunsOf(run, order);
      assert RunsOf(run, order + [f]) == runs + [result];
      order := order + [f];
      todo := todo - {f};
      if Verdict(result).Some? {
        CollectStops(runs, result);
        return tests, order, Some(result);
      }
      CollectAppend(runs, result);
      tests := tests + result.parsed.tests;
    }
    stop := None;
  }

  /**
   * The run that ends the loop early: a timeout, a killed process or output
   * that is not JSON report their errors and give false; a report that does
   * not validate raises.
   */
  method EndLoop(io: Bsagio, result: AssessRun) returns (e: RunResult)
    requires Verdict(result).Some?
    modifies io`stepLogs, io`privateLog
    ensures unchanged(io`testResults)
    ensures e == Verdict(result).value
    ensures io.privateLog == old(io.privateLog) + StaffErrors(result)
    ensures io.stepLogs == StudentTold(old(io.stepLogs), StudentError(result))
  {
    if result.command.timedOut || Died(result.command) {
      ReportStop(io, result);
      return Returned(false);
    }
    match result.parsed {
      case NotJson =>
        ReportStop(io, result);
        e := Returned(false);
      case NotResults =>
        NoMessages(result);
        e := Raised;
    }
  }

  /** The summing loop: a missing score or maximum counts as 0. */
  method SumTests(tests: seq<TestResult>) returns (score: real, maxScore: real)
    ensures score == TotalScore(tests) && maxScore == TotalMaxScore(tests)
  {
    score := 0.0;
    maxScore := 0.0;
    var i := 0;
    while i < |tests|
      invariant 0 <= i <= |tests|
      invariant score == TotalScore(tests[..i]) && maxScore == TotalMaxScore(tests[..i])
    {
      TotalScoreAppend(tests[..i], [tests[i]]);
      assert tests[..i + 1] == tests[..i] + [tests[i]];
      score := score + OrZero(tests[i].score);
      maxScore := maxScore + OrZero(tests[i].maxScore);
      i := i + 1;
    }
    assert tests[..i] == tests;
  }

  /** The marking loop under a full-score requirement: strips scores, fails short tests and lists them. */
  method MarkTests(tests: seq<TestResult>) returns (marked: seq<TestResult>, failed: seq<string>)
    ensures marked == MarkedAll(tests) && failed == FailedLines(tests)
  {
    marked := tests;
    failed := [];
    var i := 0;
    while i < |tests|
      invariant 0 <= i <= |tests| == |marked|
      invariant forall j :: 0 <= j < i ==> marked[j] == Marked(tests[j])
      invariant forall j :: i <= j < |tests| ==> marked[j] == tests[j]
      invariant failed == FailedLines(tests[..i])
    {
      assert tests[..i + 1][..i] == tests[..i];
      var t := marked[i];
      if t.score != t.maxScore {
        t := t.(status := Some(Failed));
        failed := failed + [FailedLine(t)];
      }
      t := t.(score := None, maxScore := None);
      marked := marked[i := t];
      i := i + 1;
    }
    assert tests[..i] == tests;
  }

  /** The grading after every run reported: the sums, and under the requirement the marking and the aggregate test. */
  method GradeTests(cfg: AssessmentConfig, tests: seq<TestResult>) returns (passed: bool, res: Jh61bResults)
    ensures (passed, res) == Graded(cfg, tests)
  {
    var score, maxScore := SumTests(tests);
    var graded := tests;
    if cfg.requireFullScore {
      if score != maxScore {
        score := 0.0;
      }
      var marked, failed := MarkTests(tests);
      graded := [Aggregate(cfg, score, maxScore, failed)] + marked;
    }
    passed := !(cfg.requireFullScore && score != maxScore);
    res := Jh61bResults(score, maxScore, graded);
  }

  /**
   * A live piece: its files run in some order `order`; a run that ends the
   * loop early decides the outcome and leaves its error messages, otherwise
   * the graded results are stored under the piece's name.
   */
  method AssessPiece(io: Bsagio, cfg: AssessmentConfig, files: set<Path>, run: Path -> AssessRun)
    returns (outcome: RunResult, ghost order: seq<Path>)
    modifies io`testResults, io`stepLogs, io`privateLog
    ensures forall i :: 0 <= i < |order| ==> order[i] in files
    ensures forall i, j :: 0 <= i < j < |order| ==> order[i] != order[j]
    ensures var c := Collect(RunsOf(run, order));
      c.Err? ==>
        && outcome == c.error && io.testResults == old(io.testResults) && |order| > 0
        && io.privateLog == old(io.privateLog) + StaffErrors(run(order[|order| - 1]))
        && io.stepLogs == StudentTold(old(io.stepLogs), StudentError(run(order[|order| - 1])))
    ensures var c := Collect(RunsOf(run, order));
      c.Ok? ==>
        && io.stepLogs == old(io.stepLogs) && io.privateLog == old(io.privateLog)
        && (forall f :: f in files ==> f in order)
        && outcome == Returned(Graded(cfg, c.value).0)
        && io.testResults == Some(old(io.testResults).GetOr(map[])[cfg.pieceName := Graded(cfg, c.value).1])
  {
    var collected;
    collected, order := RunFiles(io, files, run);
    if collected.Err? {
      return collected.error, order;
    }
    outcome := StoreGraded(io, cfg, collected.value);
  }

  /** The piece's tests graded and stored under its name; the verdict is whether they passed. */
  method StoreGraded(io: Bsagio, cfg: AssessmentConfig, tests: seq<TestResult>) returns (outcome: RunResult)
    modifies io`testResults
    ensures io.stepLogs == old(io.stepLogs) && io.privateLog == old(io.privateLog)
    ensures outcome == Returned(Graded(cfg, tests).0)
    ensures io.testResults == Some(old(io.testResults).GetOr(map[])[cfg.pieceName := Graded(cfg, tests).1])
  {
    var passed, res := GradeTests(cfg, tests);
    io.testResults := Some(io.testResults.GetOr(map[])[cfg.pieceName := res]);
    outcome := Returned(passed);
  }

  /**
   * `Assessment.run`. Without the pieces or the metadata it raises. For a
   * piece that is not live it reports why on both channels and fails. Otherwise
   * it runs the files in some order `order`: the first run that times out, is
   * killed or writes no report ends the step as `Collect` says, storing
   * nothing and leaving that run's error messages; when all succeed, the
   * piece's results are graded and stored under its name.
   */
  method RunAssessment(io: Bsagio, cfg: AssessmentConfig, run: Path -> AssessRun)
    returns (outcome: RunResult, ghost order: seq<Path>)
    modifies io`testResults, io`stepLogs, io`privateLog
    ensures old(io.pieces).None? || old(io.metadata).None? ==>
              outcome == Raised && io.testResults == old(io.testResults) &&
              io.stepLogs == old(io.stepLogs) && io.privateLog == old(io.privateLog)
    ensures old(io.pieces).Some? && old(io.metadata).Some? && cfg.pieceName !in old(io.pieces).value.live ==>
              var failed := old(io.pieces).value.failed;
              var reason := if cfg.pieceName in failed then failed[cfg.pieceName].reason else "unknown piece name";
              var msg := "Unable to run assessment for " + cfg.pieceName + ": " + reason;
              && outcome == Returned(false) && io.testResults == old(io.testResults)
              && io.stepLogs == (if |old(io.stepLogs)| > 0 then AppendChunk(old(io.stepLogs), StudentChunk(msg)) else old(io.stepLogs))
              && io.privateLog == old(io.privateLog) + [msg]
    ensures old(io.pieces).Some? && old(io.metadata).Some? && cfg.pieceName in old(io.pieces).value.live ==>
              var files := old(io.pieces).value.live[cfg.pieceName].assessmentFiles;
              && (forall i :: 0 <= i < |order| ==> order[i] in files)
              && (forall i, j :: 0 <= i < j < |order| ==> order[i] != order[j])
              && match Collect(RunsOf(run, order))
                 case Err(v) =>
                   && outcome == v && io.testResults == old(io.testResults) && |order| > 0
                   && io.privateLog == old(io.privateLog) + StaffErrors(run(order[|order| - 1]))
                   && io.stepLogs == StudentTold(old(io.stepLogs), StudentError(run(order[|order| - 1])))
                 case Ok(tests) =>
                   && io.stepLogs == old(io.stepLogs) && io.privateLog == old(io.privateLog)
                   && (forall f :: f in files ==> f in order)
                   && outcome == Returned(Graded(cfg, tests).0)
                   && io.testResults == Some(old(io.testResults).GetOr(map[])[cfg.pieceName := Graded(cfg, tests).1])
  {
    order := [];
    if io.pieces.None? || io.metadata.None? {
      return Raised, order;
    }
    var pieces := io.pieces.value;
    if cfg.pieceName !in pieces.live {
      var reason := if cfg.pieceName in pieces.failed then pieces.failed[cfg.pieceName].reason else "unknown piece name";
      io.Emit(Some(LOG_BOTH), "Unable to run assessment for " + cfg.pieceName + ": " + reason);
      return Returned(false), order;
    }
    outcome, order := AssessPiece(io, cfg, pieces.live[cfg.pieceName].assessmentFiles, run);
  }
}
