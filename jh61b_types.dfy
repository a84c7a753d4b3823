/**
 * The records the jh61b steps share through the context
 * (bsag/steps/jh61b/_types.py): assessment pieces, live or failed, and the
 * per-piece test results.
 */
module Jh61bTypes {
  import opened Wrappers
  import opened GradescopeTypes

  /** A filesystem path, as text. */
  type Path = string

  /**
   * `Path(root, f)`: an absolute `f` stands alone, a relative one is placed
   * under `root`. Normalisation of `.`, `..` and doubled separators is not modelled.
   */
  function JoinPath(root: Path, f: Path): Path {
    if |f| > 0 && f[0] == '/' then f else root + "/" + f
  }

  datatype Piece = Piece(studentFiles: set<Path>, assessmentFiles: set<Path>)

  datatype FailedPiece = FailedPiece(reason: string)

  datatype AssessmentPieces = AssessmentPieces(live: map<string, Piece>, failed: map<string, FailedPiece>)

  datatype Jh61bResults = Jh61bResults(score: real, maxScore: real, tests: seq<TestResult>)

  /** `x or 0` for an optional score: a missing score counts as 0. */
  function OrZero(x: Option<real>): real {
    x.GetOr(0.0)
  }

  /** The sum of the tests' scores, a missing score counting as 0. */
  function TotalScore(tests: seq<TestResult>): real {
    if tests == [] then 0.0 else OrZero(tests[0].score) + TotalScore(tests[1..])
  }

  /** The sum of the tests' maximum scores, a missing one counting as 0. */
  function TotalMaxScore(tests: seq<TestResult>): real {
    if tests == [] then 0.0 else OrZero(tests[0].maxScore) + TotalMaxScore(tests[1..])
  }

  lemma {:induction false} TotalScoreAppend(a: seq<TestResult>, b: seq<TestResult>)
    ensures TotalScore(a + b) == TotalScore(a) + TotalScore(b)
    ensures TotalMaxScore(a + b) == TotalMaxScore(a) + TotalMaxScore(b)
  {
    if a != [] {
      assert (a + b)[1..] == a[1..] + b;
      TotalScoreAppend(a[1..], b);
    } else {
      assert a + b == b;
    }
  }

  /** Among the pieces a step started with, the ones still live are all of them iff there are as many. */
  lemma SameSizeSubset<T>(sub: set<T>, all: set<T>)
    requires sub <= all
    ensures |sub| == |all| <==> sub == all
  {
    var rest := all - sub;
    assert all == sub + rest && sub * rest == {};
    assert |all| == |sub| + |rest|;
    if sub != all {
      assert rest != {};
    }
  }
}
