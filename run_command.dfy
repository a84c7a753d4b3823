/**
 * The command step (bsag/steps/common/run_command.py): runs one command
 * and, when its output is to be shown, appends a test for it to the report.
 * The command's outcome is an input; how it is launched (the command line,
 * working directory and shell) only shapes that outcome.
 */
module RunCommand {
  import opened Wrappers
  import opened Text
  import opened GradescopeTypes
  import opened Subprocess
  import opened StepTypes
  import opened Context

  /** `RunCommandConfig`, without the fields that only shape the command. */
  datatype RunCommandConfig = RunCommandConfig(
    displayName: string,
    commandTimeout: Option<PositiveInt>,
    points: Option<real>,
    showOutput: bool,
    outputVisibility: Option<ReportVisibility>,
    outputFormat: Option<OutputFormat>)

  /** The defaults of every optional field. */
  const DefaultConfig := RunCommandConfig("No Name", None, None, true, None, None)

  /** The command passed: it finished in time and exited with 0. */
  predicate CommandPassed(c: CommandRun) {
    !c.timedOut && c.returnCode == 0
  }

  /** `str(config.command_timeout)`: the number of seconds, or `None`. */
  function TimeoutText(t: Option<PositiveInt>): string {
    match t
    case Some(n) => NatToString(n)
    case None => "None"
  }

  const TimeoutBanner := "\n------------\nTimed out after "

  /** The test's output: the command's output, followed on a timeout by a note naming the timeout. */
  function ShownOutput(cfg: RunCommandConfig, c: CommandRun): (out: string)
    ensures c.output <= out
    ensures !c.timedOut ==> out == c.output
    ensures c.timedOut ==> out == c.output + TimeoutBanner + TimeoutText(cfg.commandTimeout) + " seconds."
  {
    if c.timedOut then c.output + TimeoutBanner + TimeoutText(cfg.commandTimeout) + " seconds." else c.output
  }

  /**
   * The test the step reports: named after the step, worth `points`, passed
   * iff the command passed, scoring all the points on a pass and none on a
   * failure (no score when there are no points), with the shown output and
   * the configured visibility and output format.
   */
  function CommandTest(cfg: RunCommandConfig, c: CommandRun): (t: TestResult)
    ensures t.name == Some(cfg.displayName) && t.maxScore == cfg.points
    ensures t.status == Some(Passed) <==> CommandPassed(c)
    ensures t.status.Some?
    ensures t.score.Some? <==> cfg.points.Some?
    ensures cfg.points.Some? ==> t.score.value == if CommandPassed(c) then cfg.points.value else 0.0
    ensures t.output == Some(ShownOutput(cfg, c)) && t.visibility == cfg.outputVisibility
    ensures t.outputFormat == cfg.outputFormat
    ensures t.number == None && t.tags == []
  {
    var passed := CommandPassed(c);
    BlankTest.(
      name := Some(cfg.displayName),
      maxScore := cfg.points,
      status := Some(if passed then Passed else Failed),
      score := if cfg.points.Some? then Some(if passed then cfg.points.value else 0.0) else None,
      output := Some(ShownOutput(cfg, c)),
      outputFormat := cfg.outputFormat,
      visibility := cfg.outputVisibility)
  }

  /** With nonzero points, the test has full marks iff the command passed. */
  lemma FullMarksIffPassed(cfg: RunCommandConfig, c: CommandRun)
    requires cfg.points.Some? && cfg.points.value != 0.0
    ensures CommandTest(cfg, c).score == CommandTest(cfg, c).maxScore <==> CommandPassed(c)
  {
  }

  /** With non-negative points, the score lies between 0 and the points. */
  lemma ScoreWithinPoints(cfg: RunCommandConfig, c: CommandRun)
    requires cfg.points.Some? && cfg.points.value >= 0.0
    ensures 0.0 <= CommandTest(cfg, c).score.value <= cfg.points.value
  {
  }

  /** A command that timed out fails, whatever its exit code, and says so at the end of its output. */
  lemma TimeoutFails(cfg: RunCommandConfig, c: CommandRun)
    requires c.timedOut
    ensures CommandTest(cfg, c).status == Some(Failed)
    ensures var out := CommandTest(cfg, c).output.value;
      out[..|c.output|] == c.output && out[|out| - 9..] == " seconds."
  {
  }

  /**
   * `RunCommand.run`: raises when there is no report; otherwise returns
   * whether the command passed, and appends its test to the report's tests
   * iff the output is to be shown.
   */
  method RunCommand(io: Bsagio, cfg: RunCommandConfig, c: CommandRun) returns (outcome: RunResult)
    modifies io`results
    ensures old(io.results).None? ==> outcome == Raised && io.results == old(io.results)
    ensures old(io.results).Some? ==>
              && outcome == Returned(CommandPassed(c))
              && io.results == Some(if cfg.showOutput
                                    then old(io.results).value.(tests := old(io.results).value.tests + [CommandTest(cfg, c)])
                                    else old(io.results).value)
  {
    if io.results.None? {
      return Raised;
    }
    var results := io.results.value;
    var test := BlankTest.(name := Some(cfg.displayName), maxScore := cfg.points);
    var passed := true;
    if c.timedOut {
      passed := false;
    }
    if !passed || c.returnCode != 0 {
      test := test.(status := Some(Failed));
      if cfg.points.Some? {
        test := test.(score := Some(0.0));
      }
      passed := false;
    } else {
      test := test.(status := Some(Passed));
      if cfg.points.Some? {
        test := test.(score := cfg.points);
      }
    }
    if cfg.showOutput {
      var output := c.output;
      if c.timedOut {
        output := output + TimeoutBanner + TimeoutText(cfg.commandTimeout) + " seconds.";
      }
      test := test.(output := Some(output));
      if cfg.outputFormat.Some? {
        test := test.(outputFormat := cfg.outputFormat);
      }
      if cfg.outputVisibility.Some? {
        test := test.(visibility := cfg.outputVisibility);
      }
      assert test == CommandTest(cfg, c);
      io.results := Some(results.(tests := results.tests + [test]));
    }
    outcome := Returned(passed);
  }
}
