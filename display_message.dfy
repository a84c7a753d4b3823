/**
 * The message step (bsag/steps/common/display_message.py): shows a fixed
 * text to the student under a fixed title and reports a fixed result.
 */
module DisplayMessage {
  import opened Wrappers
  import opened Logging
  import opened GradescopeTypes
  import opened StepTypes
  import opened Context

  /** `DisplayMessageConfig`. */
  datatype DisplayMessageConfig = DisplayMessageConfig(title: string, text: string, result: Status)

  /** A configuration that leaves `result` at its default. */
  function WithDefaultResult(title: string, text: string): DisplayMessageConfig {
    DisplayMessageConfig(title, text, Passed)
  }

  /** The step succeeds iff the configured result is a pass. */
  function Succeeds(cfg: DisplayMessageConfig): (ok: bool)
    ensures ok <==> cfg.result == Passed
    ensures !ok <==> cfg.result == Failed
  {
    cfg.result == Passed
  }

  /** Left at its default, the result makes the step succeed. */
  lemma DefaultSucceeds(title: string, text: string)
    ensures Succeeds(WithDefaultResult(title, text))
  {
  }

  /**
   * `DisplayMessage.run`: sends the text to the student sink only, so it
   * lands in the step's own log and never reaches the staff output, and
   * returns whether the configured result is a pass.
   */
  method RunDisplayMessage(io: Bsagio, cfg: DisplayMessageConfig) returns (outcome: RunResult)
    modifies io`stepLogs, io`privateLog
    ensures outcome == Returned(Succeeds(cfg))
    ensures io.stepLogs == if |old(io.stepLogs)| > 0 then AppendChunk(old(io.stepLogs), StudentChunk(cfg.text)) else old(io.stepLogs)
    ensures io.privateLog == old(io.privateLog)
  {
    io.Emit(Some(LOG_STUDENT), cfg.text);
    outcome := Returned(cfg.result == Passed);
  }
}
