/**
 * Dual-visibility log routing (bsag/_logging.py): a two-bit visibility flag,
 * one filter per audience, and the per-step log records that the student
 * sink writes into.
 */
module Logging {
  import opened Wrappers

  /** `LogVisibility`, a flag set of two bits. */
  type Visibility = bv2

  const NONE: Visibility := 0
  const LOG_STUDENT: Visibility := 1
  const LOG_PRIVATE: Visibility := 2
  const LOG_BOTH: Visibility := LOG_STUDENT | LOG_PRIVATE

  /** The visibility a record was bound with; a record bound with none counts as NONE. */
  function VisibilityOf(bound: Option<Visibility>): Visibility {
    bound.GetOr(NONE)
  }

  /** Passes a record to the student sink iff its visibility has the student bit. */
  function StudentFilter(bound: Option<Visibility>): (r: bool)
    ensures r <==> bound == Some(LOG_STUDENT) || bound == Some(LOG_BOTH)
  {
    VisibilityOf(bound) & LOG_STUDENT != 0
  }

  /** Passes a record to the staff sink iff its visibility has the private bit. */
  function PrivateFilter(bound: Option<Visibility>): (r: bool)
    ensures r <==> bound == Some(LOG_PRIVATE) || bound == Some(LOG_BOTH)
  {
    VisibilityOf(bound) & LOG_PRIVATE != 0
  }

  /** `StepLogs`: what one step that ran left for the report. */
  datatype StepLog = StepLog(
    success: bool,
    logChunks: seq<string>,
    score: Option<real>,
    name: string,
    displayName: string)

  /** A fresh record: not (yet) successful, no output, and a score of 0 rather than none. */
  function NewStepLog(name: string, displayName: string): StepLog {
    StepLog(false, [], Some(0.0), name, displayName)
  }

  /**
   * The chunk the student sink writes for a message. The sink is added with
   * the string format `"{message}"`, and loguru ends every string format with
   * a line break (followed by the exception text, empty for a plain call).
   */
  function StudentChunk(text: string): (c: string)
    ensures |c| == |text| + 1 && c[..|text|] == text && c[|text|] == '\n'
  {
    text + "\n"
  }

  /**
   * What the student sink does to the list of step logs: the chunk is
   * appended to the chunks of the last record, and nothing else changes.
   */
  function AppendChunk(logs: seq<StepLog>, msg: string): (r: seq<StepLog>)
    requires |logs| > 0
    ensures |r| == |logs|
    ensures forall i :: 0 <= i < |logs| - 1 ==> r[i] == logs[i]
    ensures r[|r| - 1].logChunks == logs[|logs| - 1].logChunks + [msg]
    ensures r[|r| - 1].(logChunks := []) == logs[|logs| - 1].(logChunks := [])
  {
    var last := logs[|logs| - 1];
    logs[..|logs| - 1] + [last.(logChunks := last.logChunks + [msg])]
  }

  /** The step logs after the student sink received `msgs`, in order. */
  function WithChunks(logs: seq<StepLog>, msgs: seq<string>): (r: seq<StepLog>)
    requires |logs| > 0
    ensures |r| == |logs|
    ensures r[..|r| - 1] == logs[..|logs| - 1]
  {
    var last := logs[|logs| - 1];
    logs[..|logs| - 1] + [last.(logChunks := last.logChunks + msgs)]
  }

  /** A step log with its score set aside: all that a score write leaves alone. */
  function Unscored(l: StepLog): StepLog {
    l.(score := None)
  }

  /**
   * The step logs after scores were written into them by position: each log
   * whose position is in `scores` takes that score, and nothing else changes.
   */
  function Rescored(logs: seq<StepLog>, scores: map<nat, real>): (r: seq<StepLog>)
    ensures |r| == |logs|
    ensures forall i :: 0 <= i < |logs| ==> Unscored(r[i]) == Unscored(logs[i])
    ensures forall i :: 0 <= i < |logs| ==> r[i].score == if i in scores then Some(scores[i]) else logs[i].score
  {
    seq(|logs|, i requires 0 <= i < |logs| => if i in scores then logs[i].(score := Some(scores[i])) else logs[i])
  }

  /** Sending messages one after the other to the student sink appends them all, in order. */
  lemma AppendChunkExtends(logs: seq<StepLog>, msgs: seq<string>, msg: string)
    requires |logs| > 0
    ensures AppendChunk(WithChunks(logs, msgs), msg) == WithChunks(logs, msgs + [msg])
  {
    var last := logs[|logs| - 1];
    assert last.logChunks + msgs + [msg] == last.logChunks + (msgs + [msg]);
  }

  /** Appending nothing leaves the logs as they were. */
  lemma WithNoChunks(logs: seq<StepLog>)
    requires |logs| > 0
    ensures WithChunks(logs, []) == logs
  {
    assert logs[|logs| - 1].logChunks + [] == logs[|logs| - 1].logChunks;
  }
}
