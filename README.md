# BSAG grading pipeline, modelled in Dafny

BSAG ("A Better Simple AutoGrader") runs a grading job as a sequence of
configured steps. This project models the core of that job and proves
properties of the model:

- **The engine** (`Engine`, `StepTypes`):
  - a registry of step definitions, in which the last definition of a name wins;
  - the resolution of the YAML plans into configured steps. A local override
    beats the step's global settings, and shared parameters are added only
    for the fields the step declares. Configs forbid undeclared fields;
  - the executor. It runs the execution plan, then the teardown plan, and
    leaves one step log per step. A failing step with `halt_on_fail` ends
    only its own plan. A step may write scores into any step log, as the
    final score step does with its penalties.
- **Log routing** (`Logging`, `Context`):
  - a two-bit visibility flag, read by two independent filters;
  - a student sink that appends each message, ended by a line break, to the
    last step log;
  - a staff sink, modelled as a list of printed messages;
  - the context object handed to every step, as a class whose fields are
    the data keys and the step logs.
- **The Gradescope report steps**:
  - completing, rounding and folding the report (`GradescopeResults`,
    `GradescopeTypes`);
  - the lateness decay (`Lateness`);
  - the windowed token limiter (`LimitVelocity`).
- **The jh61b steps**:
  - the file check, which splits the pieces into live and failed (`CheckFiles`);
  - compilation, which moves pieces from live to failed (`Compilation`);
  - the assessment runner, with its sums and its full-score rewriting
    (`Assessment`);
  - the dependency check (`DepCheck`), using the dotted-name glob matcher
    (`Java`);
  - the weighted final score: clamp, then penalties, then rescale and sort
    (`FinalScore`).
- **Two small steps**: `RunCommand` and `DisplayMessage`.

Conventions:
- Shared text and number helpers live in `Text`: `strip`, `split`, `join`,
  `round` and Python's string order. Whitespace is the set Python's
  `str.isspace` accepts, the Unicode spaces and line breaks included.
- `Option` and `Result` live in `Wrappers`.
- Times are whole seconds and scores are exact reals.
- Each step that reads an absent data key ends in `Raised`, the model of the
  exception the source raises.
- A subprocess result, file existence, and the outcome of an assessor run are
  inputs to the steps.

The report records follow the upstream Gradescope types. The snapshot's
`bsag/steps/gradescope/_types.py` is incomplete: `bsag/steps/gradescope/__init__.py:6`
imports `OutputFormatEnum`, which that file does not define. The model takes
the upstream fields that the steps use: `User.assignment` (read at
`bsag/steps/gradescope/lateness.py:43`) and `TestResult.output_format` (set at
`bsag/steps/common/run_command.py:71-72`).

Behaviour kept exactly as the code has it:
- `bsag/steps/gradescope/results.py:26-33`: a report whose every test has a
  score passes `validate_score`, so it keeps an absent top-level score. Only
  an incomplete report gets 0.
- `bsag/steps/gradescope/lateness.py:43,67`: the penalty lookup compares
  the ungraced lateness, strictly, against the decay keys. The due date is
  read from the first user's own assignment.
- `bsag/steps/gradescope/limit_velocity.py:36`: the window validator compares
  recharge times, not start times.
- `bsag/_logging.py:57`: a fresh step log has score 0, not none. So a report
  folds its log into a test with a score of 0 and no maximum.
- `bsag/steps/jh61b/assessment.py:155`: with `require_full_score`, a piece
  whose maximum is 0 passes.
- `bsag/utils/java.py:22-29`: the pattern `**` does not match a class whose
  first chunk is literally `**` and that has more than one chunk.
- `bsag/steps/jh61b/final_score.py:42-46`: when pieces have results but the
  weights add up to 0, the step divides by zero and raises.

## Model

| member | source | states |
|---|---|---|
| `Engine.Register` | bsag/bsag.py:66 | Registering definitions one after the other registers every name of the list on top of the existing ones |
| `Engine.RegisterLastWins` | bsag/bsag.py:66 | The last definition of a name in the list is the one registered under that name |
| `Engine.RegisterKeeps` | bsag/bsag.py:66 | A name the list does not mention keeps its earlier definition |
| `Engine.RegisterKeyedByName` | bsag/bsag.py:66 | Every definition stays registered under its own `name()` |
| `Engine.Flatten` | bsag/bsag.py:65 | Chaining the plugin hook's answers keeps exactly the definitions of all the answers |
| `Engine.BuildRegistry` | bsag/bsag.py:65-66 | The registry's names are the plugin names plus the caller's names, each keyed by its own name |
| `Engine.CallerStepsOverridePlugins` | bsag/bsag.py:66 | A step definition the caller passes overrides a plugin definition of the same name |
| `Engine.PluginStepKept` | bsag/bsag.py:66 | A plugin definition stays in effect when no caller definition and no later plugin definition has its name |
| `Engine.EntryShape` | bsag/bsag.py:102-112 | A bare name is that step with an empty override; a one-key mapping is that key with its settings; any other shape is a malformed-entry error |
| `Engine.Layered` | bsag/bsag.py:123 | The local override wins over `global_settings[name]` on a shared key; the keys are the union of both |
| `Engine.WithShared` | bsag/bsag.py:126-129 | A shared parameter is added iff the step declares its key and the settings do not set it; the existing settings are unchanged |
| `Engine.MergeSharedParameters` | bsag/bsag.py:126-129 | The loop over the shared parameters produces exactly the merge `WithShared` describes |
| `Engine.ResolveEntryChecked` | bsag/bsag.py:102-136 | A malformed entry and an unknown name are reported as such; a resolved entry names the registered step, its settings pass the step's validation including its config validator, and every key of its own override is kept |
| `Engine.HaltWithDecayRejected` | bsag/steps/gradescope/lateness.py:16-26 | A lateness entry whose own settings set `halt_on_fail` together with a non-empty decay map does not resolve: it is an invalid-config error |
| `Engine.ResolvePlanEntries` | bsag/bsag.py:102-136 | The plan resolves iff every entry resolves; then entry i of the plan is the resolution of source entry i (order and duplicates kept); otherwise the error is that of the first entry that fails |
| `Engine.ResolveOne` | bsag/bsag.py:103-136 | The body of the plan loop resolves one entry as the resolution rule says |
| `Engine.ProcessStepPlan` | bsag/bsag.py:97-136 | The plan loop, which stops at the first bad entry, yields the resolved plan or its first error |
| `Engine.PlanErrorPropagates` | bsag/bsag.py:111-117 | Once a prefix of the plan fails, the whole plan fails with that error: nothing after it is looked at |
| `Engine.MergedGlobal` | bsag/bsag.py:84 | The run configuration's shared parameters override the global ones on a clash; the global settings are unchanged |
| `Engine.LoadRunConfig` | bsag/bsag.py:79-95 | Loading succeeds iff both plans resolve against the merged global configuration; an execution-plan error is reported before a teardown-plan error |
| `Engine.StudentTextsFiltered` | bsag/bsagio.py:33-35 | The student sink writes a chunk, the text and a line break, for exactly the log calls whose visibility has the student bit |
| `Engine.PrivateTextsFiltered` | bsag/bsagio.py:36-42 | Standard output receives exactly the texts of the log calls whose visibility has the private bit |
| `Engine.Replay` | bsag/bsagio.py:33-42 | A step's log calls append their student chunks, in order, to the last step log and their private texts to standard output |
| `Engine.LogFor` | bsag/bsag.py:143-150 | A step's log, before any score is written into it, is named after the step, is successful iff `run` returned true, holds what reached the student sink, and has the default score 0 |
| `Engine.StepsRun` | bsag/bsag.py:142-155 | The steps that run are all of them, or those up to and including the first step that raises or fails while halting on failure |
| `Engine.EndOf` | bsag/bsag.py:148-155 | A plan completes iff no step stops it; it halts at a step that returned false with `halt_on_fail`; it crashes at a step that raised |
| `Engine.RunStep` | bsag/bsag.py:143-150 | Running a step pushes its step log, then the step's score writes are applied to the whole list, earlier logs included; its private texts are printed |
| `Engine.RunPlanStep` | bsag/bsag.py:142-150 | One turn of the plan loop takes the logs and printed texts of the first `i` steps to those of the first `i + 1` |
| `Engine.PlanStateShape` | bsag/bsag.py:143-150 | After the steps of a plan, the step logs are the earlier logs followed by one pushed log per step, apart from scores; a position no step wrote a score into keeps its log exactly |
| `Engine.NoScoresAppend` | bsag/bsag.py:143-150 | When no step writes a score, a plan only appends its step logs |
| `Engine.ExecutePlan` | bsag/bsag.py:141-156 | Executing a plan ends as `EndOf` says. It adds one step log per step that ran, in plan order, and the step logs are exactly those the steps pushed and the score writes they made. Names, chunks and success flags are those of the pushed logs |
| `Engine.RunUntilStop` | bsag/bsag.py:141-156 | The step loop stops at the first step that raises or halts. Every step up to and including it has pushed its log and made its score writes, and printed its private texts |
| `Engine.Run` | bsag/bsag.py:138-162 | The teardown plan runs whatever the execution plan did. It runs on the step logs the execution plan left, and the staff output of both plans follows each other |
| `Engine.HaltSkipsRest` | bsag/bsag.py:151-155 | A step that fails with `halt_on_fail` is the last of its plan to leave a step log |
| `Engine.FailureWithoutHaltContinues` | bsag/bsag.py:148-151 | A failing step without `halt_on_fail` lets its plan go on, and its step log stays unsuccessful whatever scores are written |
| `StepTypes.StepDef.Fields` | bsag/_types.py:13-14 | Every config class accepts `halt_on_fail` besides its own fields, and nothing else |
| `StepTypes.Validate` | bsag/_types.py:13 | Settings are accepted iff every key is a declared field, every required field is present and the step's config validator passes; an undeclared key is rejected, and so is `halt_on_fail` with a non-empty decay map for the lateness step |
| `StepTypes.HaltOnFail` | bsag/_types.py:14 | `halt_on_fail` holds only when the settings set it, so leaving it out means false |
| `StepTypes.DisplayNameOf` | bsag/_types.py:26-29 | The default display name is the step's `name()`; a fixed name is that name; a prefixed name starts with its prefix |
| `StepTypes.HaltOnFailDeclaredEverywhere` | bsag/_types.py:13-14 | Every step accepts `halt_on_fail` set to false. It accepts true unless the step's validator forbids it beside a decay map (the lateness step). It is false when absent |
| `StepTypes.DisplayMessageTitle` | bsag/steps/common/display_message.py:17-19 | The message step is shown under its configured title |
| `StepTypes.AssessmentDisplayName` | bsag/steps/jh61b/assessment.py:30-32 | The assessment step is shown as "Assessment " followed by its piece name |
| `Logging.StudentFilter` | bsag/_logging.py:19-21 | A record reaches the student sink iff it was bound with `LOG_STUDENT` or `LOG_BOTH`; an unbound record does not |
| `Logging.PrivateFilter` | bsag/_logging.py:24-26 | A record reaches standard output iff it was bound with `LOG_PRIVATE` or `LOG_BOTH`; an unbound record does not |
| `Logging.StudentChunk` | bsag/bsagio.py:35 | The chunk the student sink writes is the message followed by one line break, which loguru ends every string format with |
| `Logging.AppendChunk` | bsag/_logging.py:47-49 | The student sink appends the chunk to the chunks of the last step log; every other log and every other field are unchanged |
| `Logging.Rescored` | bsag/steps/jh61b/final_score.py:62-65 | Writing scores by position changes only the score of each written log, to the written value; every other field and every other log are unchanged |
| `Logging.AppendChunkExtends` | bsag/_logging.py:47-49 | Messages sent one after the other to the student sink end up in the last log's chunks in the order sent |
| `Context.Bsagio.constructor` | bsag/bsagio.py:18-21 | A fresh context has no data and no step logs, and nothing has been printed |
| `Context.Bsagio.Emit` | bsag/bsagio.py:24-42 | A log call reaches each sink iff that sink's filter passes its visibility. The student sink appends the text and a line break to the last step log, and needs a step log to append to |
| `GradescopeTypes.AllScored` | bsag/steps/gradescope/_types.py:83 | It holds iff every test has a score |
| `GradescopeTypes.ValidateScore` | bsag/steps/gradescope/_types.py:82-83 | A report is complete iff it has a top-level score, or it has tests and every test has a score |
| `GradescopeResults.RoundOpt` | bsag/steps/gradescope/results.py:32-33 | A present value is rounded and an absent one stays absent |
| `GradescopeResults.RoundTest` | bsag/steps/gradescope/results.py:34-38 | A test's present score and maximum are rounded; nothing else about the test changes |
| `GradescopeResults.RoundOptIdempotent` | bsag/steps/gradescope/results.py:32-33 | Rounding a rounded value again changes nothing |
| `GradescopeResults.RoundTestIdempotent` | bsag/steps/gradescope/results.py:34-38 | Rounding a rounded test again changes nothing |
| `GradescopeResults.LogTest` | bsag/steps/gradescope/results.py:44-51 | A step log's test is named by its display name. Its output is the stripped concatenation of the chunks. It passes iff the step succeeded. Its score is the log's, rounded. It has a maximum of 0 exactly when that score is present and nonzero. Number, tags and visibility are left unset |
| `GradescopeResults.TwoMessagesTwoLines` | bsag/steps/gradescope/results.py:47 | Two student messages "a" then "b" give the test output "a\nb": each message is on its own line |
| `GradescopeResults.FoldLogsAppend` | bsag/steps/gradescope/results.py:41-52 | Folding is log by log: the fold of two runs of logs is the fold of the first followed by the fold of the second |
| `GradescopeResults.FoldOneLog` | bsag/steps/gradescope/results.py:42-52 | A log with output gives exactly its test, and a log without output gives nothing |
| `GradescopeResults.SilentLogsFoldToNothing` | bsag/steps/gradescope/results.py:42-43 | Logs without output leave no test in the report |
| `GradescopeResults.LoudLogsAllFold` | bsag/steps/gradescope/results.py:41-52 | When every log has output, each gives its test, in step-log order, none dropped |
| `GradescopeResults.Completed` | bsag/steps/gradescope/results.py:26-29 | The completed report always passes `validate_score`. An already complete report is unchanged, and an incomplete one gets score 0. The tests are untouched |
| `GradescopeResults.WrittenReport` | bsag/steps/gradescope/results.py:26-53 | The written report has a score iff it had one or was incomplete; an incomplete report's score is 0. The folded tests come first, then each original test rounded, in order. Nothing else changes |
| `GradescopeResults.LogTestIsRounded` | bsag/steps/gradescope/results.py:48-49 | A step log's test is already rounded |
| `GradescopeResults.WrittenTestsStable` | bsag/steps/gradescope/results.py:31-53 | The written tests are on the rounding grid: writing again without new logs leaves them unchanged |
| `GradescopeResults.WriteResults` | bsag/steps/gradescope/results.py:24-58 | Without a report the step raises; otherwise it returns true and leaves the written report |
| `GradescopeResults.RoundEach` | bsag/steps/gradescope/results.py:34-38 | The loop over the report's tests leaves each one rounded to the configured digits, in place and in order |
| `GradescopeResults.FoldEach` | bsag/steps/gradescope/results.py:41-52 | The loop over the step logs yields exactly the fold of the logs: one test per log with output, in log order |
| `Lateness.ValidateScoreDecay` | bsag/steps/gradescope/lateness.py:16-26 | The config is rejected iff `halt_on_fail` is set and the decay map is not empty; otherwise the decay map is kept |
| `Lateness.Lateness` | bsag/steps/gradescope/lateness.py:43 | Lateness is never negative, is 0 iff the submission was on time, and for a late submission is exactly the time past the due date |
| `Lateness.GracedLateness` | bsag/steps/gradescope/lateness.py:44 | The lateness beyond the grace period is never negative, never more than the lateness, and 0 iff the lateness is within the grace period |
| `Lateness.ComputePenalty` | bsag/steps/gradescope/lateness.py:64-68 | The loop over the sorted keys yields the decay at the largest key strictly below the ungraced lateness, or 1.0 |
| `Lateness.Decayed` | bsag/steps/gradescope/lateness.py:70-79 | A positive score becomes the larger of the decayed score and the minimum; a zero, negative or absent score is kept |
| `Lateness.RunLateness` | bsag/steps/gradescope/lateness.py:39-83 | The step raises without metadata, a report or a first user. Otherwise it returns the outcome: pass when on time or graced, fail unchanged when halting, else fail with the score decayed |
| `Lateness.OnTimeOrGracedPasses` | bsag/steps/gradescope/lateness.py:50-56 | A submission on time or within the grace period passes and the report is untouched |
| `Lateness.LateFails` | bsag/steps/gradescope/lateness.py:58-83 | A submission late beyond the grace period always fails; with `halt_on_fail` the report is untouched |
| `Lateness.PenaltyChoice` | bsag/steps/gradescope/lateness.py:64-68 | The penalty is the decay at the largest key strictly below the ungraced lateness |
| `Lateness.PenaltyDefault` | bsag/steps/gradescope/lateness.py:64-68 | When no key is below the lateness, the penalty is the whole score |
| `Lateness.DecayNeverRaises` | bsag/steps/gradescope/lateness.py:72-74 | With a penalty in [0, 1] and a minimum no higher than the score, decay never raises a score |
| `Lateness.LatenessExample` | bsag/steps/gradescope/lateness.py:43-74 | Two hours late, one hour of grace, and half kept past the first hour: 80 becomes 40 and the step fails |
| `LimitVelocity.ValidateWindows` | bsag/steps/gradescope/limit_velocity.py:33-39 | The windows are accepted, unchanged, iff recharge times strictly increase from each window to the next |
| `LimitVelocity.RechargeAscendingPairwise` | bsag/steps/gradescope/limit_velocity.py:33-39 | For accepted windows, recharge times strictly increase between any two of them |
| `LimitVelocity.ActiveIndex` | bsag/steps/gradescope/limit_velocity.py:67 | The active window is the last one that started strictly before the submission; there is none iff every window starts at or after it |
| `LimitVelocity.Consumed` | bsag/steps/gradescope/limit_velocity.py:69-75 | Every earlier submission that scored above the threshold, came after the window started, and is younger than the recharge time holds a token. Each holder lies within the window and the recharge time |
| `LimitVelocity.RunLimitVelocity` | bsag/steps/gradescope/limit_velocity.py:52-124 | The step raises without metadata or without an active window; otherwise it reports the token status and passes iff no token is overdrawn |
| `LimitVelocity.ConsumedCount` | bsag/steps/gradescope/limit_velocity.py:69-75 | There are exactly as many earlier holders as earlier submissions that consume a token |
| `LimitVelocity.ConsumingIndices` | bsag/steps/gradescope/limit_velocity.py:69-75 | The positions of the consuming submissions, each once and in increasing order, and every consuming position among them |
| `LimitVelocity.ConsumedInOrder` | bsag/steps/gradescope/limit_velocity.py:69-75 | The holders are the submission times of exactly the consuming submissions, in their order |
| `LimitVelocity.StatusFacts` | bsag/steps/gradescope/limit_velocity.py:76-81 | The current submission is the last holder. The tokens left are the maximum plus the extra tokens minus the holders, that is minus one for the current submission and one per consuming earlier submission. Every holder is younger than the recharge time. The next recharge is the first holder's time plus the recharge time |
| `LimitVelocity.NoWindowIffBeforeAll` | bsag/steps/gradescope/limit_velocity.py:58-67 | No window is active iff the submission is at or before the epoch and every configured window starts at or after it |
| `LimitVelocity.ImplicitWindowTokens` | bsag/steps/gradescope/limit_velocity.py:58-80 | In the implicit window no earlier submission holds a token, so the tokens left are exactly the extra ones |
| `LimitVelocity.VelocityExample` | bsag/steps/gradescope/limit_velocity.py:67-80 | Two tokens recharging daily and two scored submissions in the last hours: with the current one, three holders and one token overdrawn |
| `FinalScore.SumMap` | bsag/steps/jh61b/final_score.py:42 | The loop over a dictionary's values adds up all of them, whatever the order |
| `FinalScore.Subscore` | bsag/steps/jh61b/final_score.py:36-39 | A piece's subscore times its maximum is its score when that maximum is positive; otherwise the subscore is 0 |
| `FinalScore.SubscoreIsFraction` | bsag/steps/jh61b/final_score.py:36-39 | A score between 0 and the maximum gives a subscore between 0 and 1 |
| `FinalScore.Weighted` | bsag/steps/jh61b/final_score.py:44-47 | A piece's share times the total weight is its weight times the maximum points, with a weight of 0 for a piece not in `scoring`; its score is the subscore times that share |
| `FinalScore.WeighPieces` | bsag/steps/jh61b/final_score.py:43-47 | The weighing loop weighs every piece with results and no other |
| `FinalScore.ClampedTotal` | bsag/steps/jh61b/final_score.py:55-57 | The total before penalties is the smaller of the maximum points and the scaled sum of the weighted scores: it exceeds neither and equals one of them |
| `FinalScore.PenaltyOf` | bsag/steps/jh61b/final_score.py:63-64 | A failed step named in the penalties costs its fraction of the clamped total; any other step costs nothing |
| `FinalScore.Charged` | bsag/steps/jh61b/final_score.py:63-65 | A charged step log records the negated penalty as its score; any other log is unchanged |
| `FinalScore.NoPenalties` | bsag/steps/jh61b/final_score.py:61 | With no penalties configured nothing is charged and no log changes |
| `FinalScore.PenaltyNonNegative` | bsag/steps/jh61b/final_score.py:60-66 | Non-negative fractions of a non-negative total give a non-negative total penalty |
| `FinalScore.ChargePenalties` | bsag/steps/jh61b/final_score.py:60-66 | The penalty loop charges each failed step named in the penalties and returns the sum it charged |
| `FinalScore.PenaltyScores` | bsag/steps/jh61b/final_score.py:62-65 | The penalty loop writes a score exactly at the failed steps named in the penalties, and the score is the negated penalty |
| `FinalScore.ChargedAsScores` | bsag/steps/jh61b/final_score.py:62-65 | Charging the penalties is a score write: exactly the edit the executor applies for a step run |
| `FinalScore.RescaleFactor` | bsag/steps/jh61b/final_score.py:75 | The factor times the piece's maximum is its share when that maximum is positive; otherwise the factor is 0 |
| `FinalScore.Rescaled` | bsag/steps/jh61b/final_score.py:77-78 | A rescaled value is the factor times the value, a missing or zero value giving 0 |
| `FinalScore.RescaleTest` | bsag/steps/jh61b/final_score.py:77-78 | A rescaled test has its score and maximum multiplied by the factor, both now present; nothing else changes |
| `FinalScore.RescaleTests` | bsag/steps/jh61b/final_score.py:76-79 | The inner loop rescales every test of a piece, in order |
| `FinalScore.RescalePiece` | bsag/steps/jh61b/final_score.py:74-79 | A rescaled piece keeps its score and maximum and has every test rescaled by its factor |
| `FinalScore.RescaledMaxTotal` | bsag/steps/jh61b/final_score.py:78 | Rescaling multiplies the total of the tests' maxima by the factor |
| `FinalScore.RescaledScoreTotal` | bsag/steps/jh61b/final_score.py:77 | Rescaling multiplies the total of the tests' scores by the factor |
| `FinalScore.RescaledMaxIsShare` | bsag/steps/jh61b/final_score.py:74-79 | When a piece's maximum is the positive total of its tests' maxima, the rescaled maxima add up to the piece's share of the points |
| `FinalScore.RescaleAll` | bsag/steps/jh61b/final_score.py:73-79 | The rescaling loop rescales every piece and collects exactly all their tests |
| `FinalScore.SortKey` | bsag/steps/jh61b/final_score.py:81 | A test sorts by its number, else by an underscore followed by its name |
| `FinalScore.SortTests` | bsag/steps/jh61b/final_score.py:81 | Sorting keeps exactly the same tests |
| `FinalScore.SortTestsSorted` | bsag/steps/jh61b/final_score.py:81 | The sorted tests are in key order |
| `FinalScore.ScoreReport` | bsag/steps/jh61b/final_score.py:55-84 | On the passing path the failed steps are charged, the score becomes the clamped total minus the penalties, the pieces are rescaled and their tests appended after the existing ones, sorted by key |
| `FinalScore.RunFinalScore` | bsag/steps/jh61b/final_score.py:32-84 | The step raises without a report, or when pieces have results and the weights add up to 0. Otherwise it returns true and charges the failed steps. The score becomes the clamped total minus the penalties. The pieces are rescaled, and their tests are appended after the existing ones, sorted by key. Nothing else in the report changes |
| `FinalScore.FinalWithinMax` | bsag/steps/jh61b/final_score.py:55-70 | With a non-negative total and non-negative penalty fractions, the final score never exceeds the maximum points |
| `FinalScore.FinalScoreExample` | bsag/steps/jh61b/final_score.py:36-57 | Two equal pieces, one complete and one half done, out of 100: 75 before scaling, 90 after scaling by 1.2 |
| `Assessment.Verdict` | bsag/steps/jh61b/assessment.py:79-105 | A run lets the loop go on iff it did not time out, was not killed, and wrote a report; output that is not a report raises |
| `Assessment.Collect` | bsag/steps/jh61b/assessment.py:64-105 | The runs succeed iff every run lets the loop go on; otherwise the first run that stops it decides the outcome |
| `Assessment.CollectAppend` | bsag/steps/jh61b/assessment.py:98-99 | One more successful run appends its tests to those gathered so far |
| `Assessment.CollectStops` | bsag/steps/jh61b/assessment.py:79-105 | A run that stops the loop after successful ones ends it with its verdict |
| `Assessment.Marked` | bsag/steps/jh61b/assessment.py:124-131 | Under a full-score requirement a test loses its score and maximum and is failed iff it was short of its maximum; nothing else changes |
| `Assessment.NoFailedLines` | bsag/steps/jh61b/assessment.py:123-129 | No failing test is listed iff every test reached its maximum |
| `Assessment.FailedLinesListed` | bsag/steps/jh61b/assessment.py:123-129 | Every test short of its maximum has its line among the failing lines, and every failing line is that of such a test |
| `Assessment.AggregateOutput` | bsag/steps/jh61b/assessment.py:133-147 | Without failing tests the aggregate output is just the requirement line |
| `Assessment.GradedPlain` | bsag/steps/jh61b/assessment.py:107-116 | Without the requirement the piece passes with the sums of its tests, which are kept as reported |
| `Assessment.GradedFullScore` | bsag/steps/jh61b/assessment.py:118-155 | With the requirement the piece passes iff it reached its maximum or its maximum is 0, and short of it scores 0. An aggregate test comes first and carries the piece's name, number, score and maximum |
| `Assessment.GradedFullScoreTests` | bsag/steps/jh61b/assessment.py:123-131 | With the requirement every reported test follows the aggregate in order, without score or maximum, and is failed iff it was short of its maximum |
| `Assessment.FullScoreOutput` | bsag/steps/jh61b/assessment.py:133-139 | A piece whose tests all reach their maximum reports only the requirement line |
| `Assessment.StaffErrors` | bsag/steps/jh61b/assessment.py:79-103 | A run has staff error lines iff it ends the step with false: the timeout, the killed process with its code, or the decoding error followed by the output |
| `Assessment.StudentError` | bsag/steps/jh61b/assessment.py:79-103 | A run has a message for the student iff it ends the step with false |
| `Assessment.FailureReachesStudent` | bsag/steps/jh61b/assessment.py:79-103 | A failing run's message ends the current step log; earlier logs are untouched |
| `Assessment.ReportStop` | bsag/steps/jh61b/assessment.py:79-103 | The run that ends the loop adds its staff lines to the staff log and its message to the current step log, and nothing for a report that does not validate |
| `Assessment.ReportTimedOut` | bsag/steps/jh61b/assessment.py:79-84 | A timed-out run names the class to the staff and tells the student the suite timed out |
| `Assessment.ReportDied` | bsag/steps/jh61b/assessment.py:86-91 | A killed run gives the staff its return code and class and tells the student it likely used too much memory |
| `Assessment.ReportUndecodable` | bsag/steps/jh61b/assessment.py:99-103 | Output that is not JSON gives the staff the decoding error and the output, and the student a pointer to the staff logs |
| `Assessment.VisitFiles` | bsag/steps/jh61b/assessment.py:64-99 | The loop visits distinct files and stops at the first run with an early verdict, which it returns; without one it visited every file and gathered the tests as `Collect` says |
| `Assessment.EndLoop` | bsag/steps/jh61b/assessment.py:79-103 | The stopping run's verdict is the step's outcome, and its errors are reported |
| `Assessment.RunFiles` | bsag/steps/jh61b/assessment.py:64-105 | The file loop visits distinct assessment files and ends as `Collect` says on the runs in that order; when it succeeds every file was visited and the logs are unchanged, and when it stops the last run's staff lines and student message are logged |
| `Assessment.SumTests` | bsag/steps/jh61b/assessment.py:107-111 | The summing loop gives the totals of the scores and of the maxima, a missing one counting as 0 |
| `Assessment.MarkTests` | bsag/steps/jh61b/assessment.py:123-131 | The marking loop marks every test and lists the failing ones in order |
| `Assessment.GradeTests` | bsag/steps/jh61b/assessment.py:107-155 | Grading the gathered tests gives the verdict and the piece's results that `Graded` defines |
| `Assessment.StoreGraded` | bsag/steps/jh61b/assessment.py:107-155 | The graded piece is stored under its name beside the other pieces' results, and the verdict is whether it passed |
| `Assessment.AssessPiece` | bsag/steps/jh61b/assessment.py:64-155 | For a live piece the first bad run decides, storing nothing and logging its errors; if none, the graded piece is stored and the logs are unchanged |
| `Assessment.RunAssessment` | bsag/steps/jh61b/assessment.py:35-155 | The step raises without pieces or metadata. A piece that is not live fails, with its reason on both channels. Otherwise the first bad run decides, storing nothing and leaving its error messages in the staff log and the current step log; if none, the graded piece is stored under its name and other pieces' results are kept |
| `CheckFiles.Rerooted` | bsag/steps/jh61b/check_files.py:47-48 | Re-rooting places every file under the root and nothing else |
| `CheckFiles.LivePiece` | bsag/steps/jh61b/check_files.py:47-49 | A live piece's student files are under `submission_root` and its assessment files under `grader_root` |
| `CheckFiles.Checked` | bsag/steps/jh61b/check_files.py:45-51 | Every configured piece ends in exactly one of the two maps: live iff all its student files exist, failed with "missing required files" otherwise |
| `CheckFiles.AllLiveIffAllSubmitted` | bsag/steps/jh61b/check_files.py:59 | The step passes iff every student file of every piece was submitted |
| `CheckFiles.NoPiecesPasses` | bsag/steps/jh61b/check_files.py:42-59 | Without configured pieces both maps are empty |
| `CheckFiles.Partition` | bsag/steps/jh61b/check_files.py:45-51 | The partition loop builds exactly the checked pieces |
| `CheckFiles.RunCheckFiles` | bsag/steps/jh61b/check_files.py:41-59 | The step replaces the stored pieces with freshly checked ones and passes iff all configured pieces are live |
| `CheckFiles.FilesInGrader` | bsag/steps/jh61b/check_files.py:20-23 | The inner validator loop finds exactly one piece's student files that exist under `grader_root` |
| `CheckFiles.ValidatePieces` | bsag/steps/jh61b/check_files.py:15-28 | The config is rejected iff some student file exists under `grader_root`, listing exactly those files; otherwise it is kept |
| `Compilation.FailureOf` | bsag/steps/jh61b/compilation.py:42-49 | A timeout is reported as "compilation timed out", any other failure as "compilation failed" |
| `Compilation.Compiled` | bsag/steps/jh61b/compilation.py:31-51 | A piece that compiles stays live, unchanged. Any other live piece moves to failed with its reason. No piece is added or dropped, and earlier failed entries are kept |
| `Compilation.CompiledOnlyFails` | bsag/steps/jh61b/compilation.py:31-49 | Pieces only move from live to failed: the maps stay disjoint and every earlier failed entry is kept |
| `Compilation.SameCountIffAllCompile` | bsag/steps/jh61b/compilation.py:57 | The live count is unchanged iff every live piece compiles |
| `Compilation.CompiledIdempotent` | bsag/steps/jh61b/compilation.py:42-51 | Compiling again with the same outcomes changes nothing |
| `Compilation.CompileAll` | bsag/steps/jh61b/compilation.py:31-51 | The loop over the snapshot compiles every live piece exactly once and leaves the compiled pieces |
| `Compilation.RunCompilation` | bsag/steps/jh61b/compilation.py:28-57 | The step raises without pieces; otherwise it stores the compiled pieces and passes iff the live count is unchanged |
| `DepCheck.AnyMatches` | bsag/steps/jh61b/dependency_check.py:67-70 | A pattern loop finds a match iff some pattern matches the target |
| `DepCheck.IsOk` | bsag/steps/jh61b/dependency_check.py:66-74 | A dependency is fine iff some allowed pattern matches it and no disallowed pattern does |
| `DepCheck.NoIllegalIffAllAllowed` | bsag/steps/jh61b/dependency_check.py:58-79 | Nothing is flagged iff every line that parses names an allowed target; lines that do not parse are skipped |
| `DepCheck.CheckLine` | bsag/steps/jh61b/dependency_check.py:60-77 | One line yields its dependency iff it parses and the target is not allowed |
| `DepCheck.ScanLines` | bsag/steps/jh61b/dependency_check.py:58-79 | The scan flags exactly the illegal dependencies, in line order, and passes iff there are none |
| `DepCheck.RunDepCheckAsWritten` | bsag/steps/jh61b/dependency_check.py:44-79 | As written, a timeout fails and otherwise the characters of the output are scanned one by one |
| `DepCheck.CharNeverParses` | bsag/steps/jh61b/dependency_check.py:59-62 | A single character never matches the jdeps line pattern |
| `DepCheck.AsWrittenNeverFlags` | bsag/steps/jh61b/dependency_check.py:58-79 | As written, the step flags nothing, whatever the output and the configuration |
| `DepCheck.RunDepCheck` | bsag/steps/jh61b/dependency_check.py:44-79 | Reading the output line by line, a timeout fails and otherwise the step passes iff no reported dependency is illegal |
| `DepCheck.DefaultAllowsAll` | bsag/steps/jh61b/dependency_check.py:29-30 | The default configuration allows every target whose first chunk is not literally `**` |
| `DepCheck.DefaultPasses` | bsag/steps/jh61b/dependency_check.py:29-30 | Under the default configuration nothing is flagged |
| `DepCheck.DisallowedDependencyMissed` | bsag/steps/jh61b/dependency_check.py:59 | A line reporting a disallowed dependency is flagged when read as a line, and missed when read character by character |
| `DepCheck.ExampleLineParses` | bsag/steps/jh61b/dependency_check.py:14-25 | A jdeps line "A -> b.C D" reports class A depending on b.C |
| `DepCheck.ExampleTargetDenied` | bsag/steps/jh61b/dependency_check.py:71-74 | The pattern `b.**` denies the target b.C |
| `Java.ChunksMatch` | bsag/utils/java.py:22-29 | Chunk lists that agree pairwise up to `*` match; when one list is empty they match iff both are |
| `Java.ChunksMatchByRule` | bsag/utils/java.py:22-29 | The scan matches iff every chunk pair agrees up to `*` and the counts agree, or the first pair that disagrees has `**` on the pattern side |
| `Java.ClassMatchesIgnoresPadding` | bsag/utils/java.py:19-20 | Surrounding whitespace on the pattern or the class makes no difference |
| `Java.StarsMatchSameLength` | bsag/utils/java.py:22-29 | A pattern of n `*` chunks matches exactly the classes of n chunks |
| `Java.ChunksOf` | bsag/utils/java.py:19-20 | A name without surrounding whitespace splits on its dots into the chunks it was joined from |
| `Java.SystemMatchesItself` | bsag/utils/java.py:5-9 | `java.lang.System` matches `java.lang.System` |
| `Java.SystemMatchesPackageStar` | bsag/utils/java.py:5-9 | `java.lang.*` matches `java.lang.System` |
| `Java.SystemMatchesDoubleStar` | bsag/utils/java.py:5-9 | `java.**` matches `java.lang.System` |
| `Java.SystemMatchesThreeStars` | bsag/utils/java.py:5-9 | `*.*.*` matches `java.lang.System` |
| `Java.SystemNotOther` | bsag/utils/java.py:5-9 | `java.lang.Other` does not match `java.lang.System` |
| `Java.SystemNotOneLevelStar` | bsag/utils/java.py:5-9 | `java.*` does not match `java.lang.System` |
| `Java.SystemNotSingleStar` | bsag/utils/java.py:5-9 | `*` does not match `java.lang.System` |
| `Java.PathToClassname` | bsag/utils/java.py:32-36 | A class name has no slash left and is no longer than the path |
| `Java.PathToClassnameOfSource` | bsag/utils/java.py:32-36 | The relative source path `a/b/C.java` names the class `a.b.C` |
| `RunCommand.ShownOutput` | bsag/steps/common/run_command.py:67-70 | The shown output starts with the command's output and, only on a timeout, ends with the timeout note naming the configured timeout |
| `RunCommand.CommandTest` | bsag/steps/common/run_command.py:50-74 | The test is named after the step and worth the points. It passes iff the command finished in time with code 0. It scores the points on a pass and 0 on a failure, or nothing without points. It carries the shown output, the configured visibility and the configured output format |
| `RunCommand.FullMarksIffPassed` | bsag/steps/common/run_command.py:57-65 | With nonzero points, the test has full marks iff the command passed |
| `RunCommand.ScoreWithinPoints` | bsag/steps/common/run_command.py:59-65 | With non-negative points, the score lies between 0 and the points |
| `RunCommand.TimeoutFails` | bsag/steps/common/run_command.py:53-70 | A command that timed out fails whatever its exit code, and its output ends with the timeout note |
| `RunCommand.RunCommand` | bsag/steps/common/run_command.py:34-77 | The step raises without a report; otherwise it returns whether the command passed and appends its test iff the output is to be shown |
| `DisplayMessage.Succeeds` | bsag/steps/common/display_message.py:24 | The step succeeds iff the configured result is a pass |
| `DisplayMessage.DefaultSucceeds` | bsag/steps/common/display_message.py:9 | Left at its default, the result makes the step succeed |
| `DisplayMessage.RunDisplayMessage` | bsag/steps/common/display_message.py:22-24 | The text goes to the student sink only, so it lands in the step's log and never on standard output; the step returns whether the result is a pass |
| `Jh61bTypes.TotalScoreAppend` | bsag/steps/jh61b/assessment.py:109-111 | The totals of two runs of tests add up |
| `Text.StripPadded` | bsag/utils/java.py:19-20 | `strip` removes exactly the whitespace around a text that neither starts nor ends with whitespace |
| `Text.StripIdempotent` | bsag/utils/java.py:19-20 | Stripping twice is stripping once |
| `Text.JoinSplit` | bsag/utils/java.py:19-20 | Joining the chunks of a split gives back the text |
| `Text.SplitJoin` | bsag/utils/java.py:19-20 | Splitting a join of separator-free chunks gives back the chunks |
| `Text.WordsJoin` | bsag/steps/jh61b/dependency_check.py:14-25 | Words joined by single spaces split back into those words |
| `Text.NatToString` | bsag/steps/common/run_command.py:70 | The decimal text of a number is non-empty and all digits |
| `Text.ReplaceChar` | bsag/utils/java.py:36 | Replacing a character keeps the length and leaves none of it |
| `Text.RemoveSuffix` | bsag/utils/java.py:36 | Removing a suffix leaves the text before it, or the text unchanged |
| `Text.LexLeqTotal` | bsag/steps/jh61b/final_score.py:81 | Python's string order is total |
| `Text.LexLeqTransitive` | bsag/steps/jh61b/final_score.py:81 | Python's string order is transitive |
| `Text.RoundHalfEven` | bsag/steps/gradescope/results.py:33 | The nearest integer is within a half, and a tie goes to the even neighbour |
| `Text.RoundScaled` | bsag/steps/gradescope/results.py:33 | Scaled by 10^digits, the rounded value is the integer nearest to the scaled input |
| `Text.RoundIdempotent` | bsag/steps/gradescope/results.py:33 | Rounding a rounded value again changes nothing |
| `Text.RoundExample` | bsag/steps/gradescope/results.py:33 | `round(2.34567, 3)` is 2.346 |

## Left out

- YAML and JSON: reading the configuration files (`bsag/bsag.py:72-81`) and writing `results.json` (`bsag/steps/gradescope/results.py:55-56`) are file I/O. The model starts from the parsed records and ends with the report in the context.
- pluggy discovery: the plugin hook's answers are a parameter of `Engine.BuildRegistry`.
- pydantic: type coercion and per-field type checks are not modelled. Each config class is an explicit set of declared fields plus a set of required ones, with the check that the keys fit. The step models take typed config records.
- Engine.ResolveEntry: applies only the lateness step's config validator (`halt_on_fail` beside a non-empty decay map). The velocity windows validator needs the timedelta coercion of the raw settings, and the pieces validator probes the file system under `grader_root` when the config is loaded. Both are modelled on the typed records instead, as `LimitVelocity.ValidateWindows` and `CheckFiles.ValidatePieces`.
- The command line, `sys.exit` and `sys.tracebacklimit`: exit is the `ConfigError` result, and halting is the `Halted` plan end.
- Launching subprocesses, with their watchdog timer and process-group kill, is concurrency and OS work. A command's outcome (`output`, `return_code`, `timed_out`) is an input record. `bsag/utils/subprocess.py` and `bsag/utils/subprocesses.py` are not part of this model.
- File existence, the temporary output file of the assessor, and the parsing of that file are inputs: a set of existing paths, and the parsed outcome of each assessor run.
- The assessor class name of a run is part of the run record, because it comes from `Path.relative_to`.
- `Path.relative_to`, the class path, the Java system properties, `java_options`, `compile_flags` and the command lines only shape the commands, and are left out.
- Message texts: trace, debug and info messages are left out, as are the step-log messages of `Lateness`, `LimitVelocity`, `Compilation`, `CheckFiles` and `DepCheck`. The texts that are modelled are the `DisplayMessage` text and the assessment's error messages: "Unable to run assessment", and the staff and student messages of a timed-out, killed or undecodable run.
- loguru formatting, colour and level thresholds, and the exception trace that the catch wrapper prints, are left out. The one piece of formatting kept is the line break loguru ends the student sink's `"{message}"` format with (`Logging.StudentChunk`).
- Engine.Run: the executor does not call the step models. Each step invocation is given as the log calls it makes, the scores it writes into step logs by position, and how its `run` ended. `FinalScore.ChargedAsScores` shows that the final score step's penalties are such a write.
- The step definitions' forwarding methods (`bsag/_types.py:42-49`) are the `PlanEntry` functions `Name`, `DisplayName` and `Halts`. They forward to the definition and carry no contract of their own.
- Floating point: scores are exact reals. Python's `round(x, digits)` is exact round-half-even at 10^-digits, and float representation error is not modelled.
- Dates are whole seconds since the epoch. Time zones and formatting (`bsag/utils/datetimes.py`) are not part of this model, nor are the display-only fields of the velocity config.
- FinalScore.SortTests: states the sorted order and the permutation but not the stability among tests with equal keys.
- Dictionary and set iteration order:
  - maps and sets are unordered;
  - where the order shows in the output (the assessment files, the pieces whose tests the final score collects), the methods return the order they used as a ghost value, or state the result as a multiset.
- DepCheck.DefaultAllowsAll: excludes targets whose first chunk is literally `**`. The source's matcher rejects those under the default pattern when they have more than one chunk.
- The jdeps line pattern is read on whitespace-separated words: a class, `->`, a target, and one source word or `not found`. Regular-expression matching itself is not modelled.
- The submission-metadata reader, the message-of-the-day step, the jh61b API step and the checkstyle step are not part of this model. The metadata reader is a file parse; the other three wrap file probing and tool output.

## Findings

| source | as written | input that shows it | evidently intended | confidence | as-written member | corrected member |
|---|---|---|---|---|---|---|
| bsag/steps/jh61b/dependency_check.py:59 | The loop `for line in jdeps_result.output` walks the characters of the output string. No single character can match the jdeps line pattern, so the step never flags a dependency | jdeps output `A -> b.C D` with `allowed_classes = ["**"]` and `disallowed_classes = ["b.**"]`: the step passes | Iterate over the lines of the output (`output.splitlines()`), so that `A`'s use of `b.C` is flagged and the step fails | not executed | `DepCheck.AsWrittenNeverFlags` | `DepCheck.RunDepCheck` |
