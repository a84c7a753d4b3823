/**
 * The Gradescope records (bsag/steps/gradescope/_types.py): submission
 * metadata as read from the platform, and the results report with its
 * tests. Datetimes are whole seconds since the epoch.
 */
module GradescopeTypes {
  import opened Wrappers

  /** `VisibilityEnum` of the report. */
  datatype ReportVisibility = Hidden | AfterDueDate | AfterPublished | Visible

  /** `TestCaseStatusEnum`. */
  datatype Status = Failed | Passed

  datatype SubmissionMethod = Upload | GitHub | Bitbucket

  datatype Assignment = Assignment(
    dueDate: int,
    groupSize: Option<int>,
    groupSubmission: bool,
    id: int,
    courseId: int,
    lateDueDate: Option<int>,
    releaseDate: int,
    title: string,
    totalPoints: real)

  /** A submitting user, with the assignment as it applies to them (their own due date). */
  datatype User = User(email: string, id: int, name: string, assignment: Assignment)

  /** `OutputFormatEnum`: how Gradescope renders a test's output. */
  datatype OutputFormat = FormatText | FormatHtml | FormatSimple | FormatMarkdown | FormatAnsi

  datatype SortOrder = Asc | Desc

  datatype LeaderboardEntry = LeaderboardEntry(name: string, value: real, order: Option<SortOrder>)

  datatype TestResult = TestResult(
    score: Option<real>,
    maxScore: Option<real>,
    status: Option<Status>,
    name: Option<string>,
    number: Option<string>,
    output: Option<string>,
    outputFormat: Option<OutputFormat>,
    tags: seq<string>,
    visibility: Option<ReportVisibility>)

  /** A `TestResult()` built with every field left at its default. */
  const BlankTest := TestResult(None, None, None, None, None, None, None, [], None)

  datatype Results = Results(
    score: Option<real>,
    executionTime: Option<real>,
    output: Option<string>,
    visibility: Option<ReportVisibility>,
    stdoutVisibility: Option<ReportVisibility>,
    tests: seq<TestResult>,
    leaderboard: seq<LeaderboardEntry>)

  /** A `Results()` built with every field left at its default. */
  const EmptyResults := Results(None, None, None, None, None, [], [])

  /** `all(t.score is not None for t in tests)`. */
  predicate AllScored(tests: seq<TestResult>)
    ensures AllScored(tests) <==> forall i :: 0 <= i < |tests| ==> tests[i].score.Some?
  {
    tests == [] || (tests[0].score.Some? && AllScored(tests[1..]))
  }

  /**
   * `Results.validate_score`: a report is complete when it has a top-level
   * score, or when it has tests and every one of them has a score.
   */
  predicate ValidateScore(res: Results)
    ensures ValidateScore(res) <==>
      res.score.Some? || (|res.tests| > 0 && forall i :: 0 <= i < |res.tests| ==> res.tests[i].score.Some?)
  {
    res.score.Some? || (res.tests != [] && AllScored(res.tests))
  }

  datatype PreviousSubmission = PreviousSubmission(submissionTime: int, score: real, result: Results)

  datatype SubmissionMetadata = SubmissionMetadata(
    id: int,
    createdAt: int,
    assignment: Assignment,
    submissionMethod: SubmissionMethod,
    users: seq<User>,
    previousSubmissions: seq<PreviousSubmission>)
}
