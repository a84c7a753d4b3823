/**
 * The context every step receives (bsag/bsagio.py): the shared data
 * dictionary, the list of step logs, and the three bound loggers. Each data
 * key the steps use is a field of its own type; a key that was never set is
 * `None`. The staff sink (standard output) is a list of messages.
 */
module Context {
  import opened Wrappers
  import opened Logging
  import opened GradescopeTypes
  import opened Jh61bTypes

  class Bsagio {
    /** `data[METADATA_KEY]`. */
    var metadata: Option<SubmissionMetadata>
    /** `data[RESULTS_KEY]`. */
    var results: Option<Results>
    /** `data[PIECES_KEY]`. */
    var pieces: Option<AssessmentPieces>
    /** `data[TEST_RESULTS_KEY]`. */
    var testResults: Option<map<string, Jh61bResults>>
    /** `data[EXTRA_TOKENS_KEY]`. */
    var extraTokens: Option<int>
    /** `step_logs`, the student sink's target. */
    var stepLogs: seq<StepLog>
    /** What the staff sink printed, in order. */
    var privateLog: seq<string>

    /** A fresh context: no data, no step logs, nothing printed. */
    constructor ()
      ensures metadata == None && results == None && pieces == None
      ensures testResults == None && extraTokens == None
      ensures stepLogs == [] && privateLog == []
    {
      metadata := None;
      results := None;
      pieces := None;
      testResults := None;
      extraTokens := None;
      stepLogs := [];
      privateLog := [];
    }

    /**
     * One log call through a logger bound with `vis` (none for the unbound
     * logger). Each sink's filter decides independently whether it receives
     * the message. With no step log to append to, the student sink fails and
     * the logging library swallows the failure, so the message is lost there.
     */
    method Emit(vis: Option<Visibility>, text: string)
      modifies this`stepLogs, this`privateLog
      ensures stepLogs == if StudentFilter(vis) && |old(stepLogs)| > 0 then AppendChunk(old(stepLogs), StudentChunk(text)) else old(stepLogs)
      ensures privateLog == if PrivateFilter(vis) then old(privateLog) + [text] else old(privateLog)
    {
      if StudentFilter(vis) && |stepLogs| > 0 {
        stepLogs := AppendChunk(stepLogs, StudentChunk(text));
      }
      if PrivateFilter(vis) {
        privateLog := privateLog + [text];
      }
    }
  }
}
