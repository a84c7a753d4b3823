/**
 * The outcome of one external command (`SubprocessResult` of
 * bsag/utils/subprocess.py). Launching the process and its timeout
 * watchdog are not part of this model: steps receive the outcome as input.
 */
module Subprocess {

  /** Combined stdout and stderr, the exit code, and whether the watchdog killed the process. */
  datatype CommandRun = CommandRun(output: string, returnCode: int, timedOut: bool)
}
