/**
 * The final-score step (bsag/steps/jh61b/final_score.py): weighs each
 * assessed piece's fraction of its maximum by the configured weights,
 * scales and clamps the total, charges penalties for failed steps, and
 * rescales every piece's tests so that they add up to the piece's share of
 * the points before appending them, sorted, to the report.
 */
module FinalScore {
  import opened Wrappers
  import opened Text
  import opened Logging
  import opened GradescopeTypes
  import opened Jh61bTypes
  import opened StepTypes
  import opened Context

  /** `FinalScoreConfig`: the default scale factor is 1 and the default penalties are none. */
  datatype FinalScoreConfig = FinalScoreConfig(
    maxPoints: real,
    scoring: map<string, real>,
    scaleFactor: real,
    penalties: map<string, real>)

  /** `Score`: a piece's weighted score and its share of the points. */
  datatype Score = Score(score: real, maxScore: real)

  // Sums over the values of a dictionary, which do not depend on the order of iteration.

  /** The sum of `m`'s values at `keys`. */
  ghost function SumOver(m: map<string, real>, keys: set<string>): real
    requires keys <= m.Keys
    decreases keys
  {
    if keys == {} then 0.0
    else
      var k :| k in keys;
      m[k] + SumOver(m, keys - {k})
  }

  /** `sum(m.values())`. */
  ghost function SumValues(m: map<string, real>): real {
    SumOver(m, m.Keys)
  }

  /** Any key can be taken out of the sum first. */
  lemma {:induction false} SumOverPick(m: map<string, real>, keys: set<string>, j: string)
    requires keys <= m.Keys && j in keys
    ensures SumOver(m, keys) == m[j] + SumOver(m, keys - {j})
    decreases keys
  {
    var k :| k in keys && SumOver(m, keys) == m[k] + SumOver(m, keys - {k});
    if k != j {
      SumOverPick(m, keys - {k}, j);
      SumOverPick(m, keys - {j}, k);
      assert keys - {k} - {j} == keys - {j} - {k};
    }
  }

  /** `sum(m.values())`, value by value in some order of the keys. */
  method SumMap(m: map<string, real>) returns (total: real)
    ensures total == SumValues(m)
  {
    total := 0.0;
    var todo := m.Keys;
    ghost var done: set<string> := {};
    while todo != {}
      invariant todo <= m.Keys && done <= m.Keys
      invariant forall k :: k in m.Keys ==> (k in done <==> k !in todo)
      invariant total == SumOver(m, done)
      decreases todo
    {
      var k :| k in todo;
      SumOverPick(m, done + {k}, k);
      assert done + {k} - {k} == done;
      total := total + m[k];
      todo := todo - {k};
      done := done + {k};
    }
    assert done == m.Keys;
  }

  /** A piece's fraction of its maximum, or 0 when its maximum is not positive. */
  function Subscore(r: Jh61bResults): (s: real)
    ensures r.maxScore > 0.0 ==> s * r.maxScore == r.score
    ensures r.maxScore <= 0.0 ==> s == 0.0
  {
    if r.maxScore > 0.0 then r.score / r.maxScore else 0.0
  }

  /** A piece scoring between nothing and its maximum has a fraction between 0 and 1. */
  lemma SubscoreIsFraction(r: Jh61bResults)
    requires 0.0 <= r.score <= r.maxScore
    ensures 0.0 <= Subscore(r) <= 1.0
  {
  }

  /** The configured weight of a piece; a piece the scoring leaves out weighs 0. */
  function Weight(cfg: FinalScoreConfig, piece: string): real {
    if piece in cfg.scoring then cfg.scoring[piece] else 0.0
  }

  /** A piece's share of the points and its score within that share. */
  function Weighted(r: Jh61bResults, cfg: FinalScoreConfig, totalWeight: real, piece: string): (w: Score)
    requires totalWeight != 0.0
    ensures w.maxScore * totalWeight == Weight(cfg, piece) * cfg.maxPoints
    ensures w.score == Subscore(r) * w.maxScore
  {
    var share := Weight(cfg, piece) / totalWeight * cfg.maxPoints;
    Score(Subscore(r) * share, share)
  }

  /** `weighted_scores`: every piece with results, weighed. */
  function WeightedAll(tr: map<string, Jh61bResults>, cfg: FinalScoreConfig, totalWeight: real): (w: map<string, Score>)
    requires totalWeight != 0.0 || tr == map[]
    ensures w.Keys == tr.Keys
    ensures forall p :: p in tr ==> w[p] == Weighted(tr[p], cfg, totalWeight, p)
  {
    if tr == map[] then map[] else map p | p in tr :: Weighted(tr[p], cfg, totalWeight, p)
  }

  /** The loop that fills `weighted_scores`. */
  method WeighPieces(tr: map<string, Jh61bResults>, cfg: FinalScoreConfig, totalWeight: real)
    returns (weighted: map<string, Score>)
    requires totalWeight != 0.0 || tr == map[]
    ensures weighted == WeightedAll(tr, cfg, totalWeight)
  {
    weighted := map[];
    var todo := tr.Keys;
    while todo != {}
      invariant todo <= tr.Keys
      invariant forall p :: p in tr ==> (p in weighted <==> p !in todo)
      invariant weighted.Keys <= tr.Keys
      invariant forall p :: p in weighted ==> weighted[p] == Weighted(tr[p], cfg, totalWeight, p)
      decreases todo
    {
      var p :| p in todo;
      weighted := weighted[p := Weighted(tr[p], cfg, totalWeight, p)];
      todo := todo - {p};
    }
    assert weighted.Keys == tr.Keys;
  }

  /** The weighted scores alone. */
  function ScoresOf(w: map<string, Score>): (m: map<string, real>)
    ensures m.Keys == w.Keys && forall p :: p in w ==> m[p] == w[p].score
  {
    map p | p in w :: w[p].score
  }

  /** The total before penalties: the scaled sum of the weighted scores, but no more than the maximum. */
  ghost function ClampedTotal(tr: map<string, Jh61bResults>, cfg: FinalScoreConfig, totalWeight: real): (t: real)
    requires totalWeight != 0.0 || tr == map[]
    ensures t <= cfg.maxPoints
    ensures t <= SumValues(ScoresOf(WeightedAll(tr, cfg, totalWeight))) * cfg.scaleFactor
    ensures t == cfg.maxPoints || t == SumValues(ScoresOf(WeightedAll(tr, cfg, totalWeight))) * cfg.scaleFactor
  {
    var raw := SumValues(ScoresOf(WeightedAll(tr, cfg, totalWeight))) * cfg.scaleFactor;
    if cfg.maxPoints < raw then cfg.maxPoints else raw
  }

  /** The penalty a step log incurs: a fraction of the total when the step failed and is named in the penalties. */
  function PenaltyOf(log: StepLog, penalties: map<string, real>, total: real): (p: real)
    ensures !log.success && log.name in penalties ==> p == penalties[log.name] * total
    ensures log.success || log.name !in penalties ==> p == 0.0
  {
    if !log.success && log.name in penalties then penalties[log.name] * total else 0.0
  }

  /** A step log charged with its penalty records the negated penalty as its score. */
  function Charged(log: StepLog, penalties: map<string, real>, total: real): (r: StepLog)
    ensures !log.success && log.name in penalties ==> r == log.(score := Some(-PenaltyOf(log, penalties, total)))
    ensures log.success || log.name !in penalties ==> r == log
  {
    if !log.success && log.name in penalties then log.(score := Some(-PenaltyOf(log, penalties, total))) else log
  }

  function ChargedAll(logs: seq<StepLog>, penalties: map<string, real>, total: real): (r: seq<StepLog>)
    ensures |r| == |logs| && forall i :: 0 <= i < |logs| ==> r[i] == Charged(logs[i], penalties, total)
  {
    seq(|logs|, i requires 0 <= i < |logs| => Charged(logs[i], penalties, total))
  }

  /** The scores the penalty loop writes, by position: the negated penalty of each failed step named in the penalties. */
  function PenaltyScores(logs: seq<StepLog>, penalties: map<string, real>, total: real): (m: map<nat, real>)
    ensures forall i :: i in m <==> 0 <= i < |logs| && !logs[i].success && logs[i].name in penalties
    ensures forall i :: i in m ==> m[i] == -PenaltyOf(logs[i], penalties, total)
  {
    map i: nat | i < |logs| && !logs[i].success && logs[i].name in penalties :: -PenaltyOf(logs[i], penalties, total)
  }

  /** Charging the penalties writes only scores: it is the score write of `PenaltyScores`. */
  lemma ChargedAsScores(logs: seq<StepLog>, penalties: map<string, real>, total: real)
    ensures ChargedAll(logs, penalties, total) == Rescored(logs, PenaltyScores(logs, penalties, total))
  {
    var c, r := ChargedAll(logs, penalties, total), Rescored(logs, PenaltyScores(logs, penalties, total));
    forall i | 0 <= i < |logs|
      ensures c[i] == r[i]
    {
      assert Unscored(r[i]) == Unscored(logs[i]);
    }
  }

  /** The sum of the penalties of the logs. */
  function TotalPenalty(logs: seq<StepLog>, penalties: map<string, real>, total: real): real {
    if logs == [] then 0.0
    else TotalPenalty(logs[..|logs| - 1], penalties, total) + PenaltyOf(logs[|logs| - 1], penalties, total)
  }

  /** With no penalties configured nothing is charged. */
  lemma {:induction false} NoPenalties(logs: seq<StepLog>, total: real)
    ensures TotalPenalty(logs, map[], total) == 0.0
    ensures ChargedAll(logs, map[], total) == logs
  {
    if logs != [] {
      NoPenalties(logs[..|logs| - 1], total);
    }
  }

  /** Non-negative fractions of a non-negative total charge a non-negative penalty. */
  lemma {:induction false} PenaltyNonNegative(logs: seq<StepLog>, penalties: map<string, real>, total: real)
    requires total >= 0.0
    requires forall n :: n in penalties ==> penalties[n] >= 0.0
    ensures TotalPenalty(logs, penalties, total) >= 0.0
  {
    if logs != [] {
      PenaltyNonNegative(logs[..|logs| - 1], penalties, total);
      var last := logs[|logs| - 1];
      if !last.success && last.name in penalties {
        assert penalties[last.name] * total >= 0.0;
      }
    }
  }

  /** The penalty loop: charges each failed step named in the penalties and sums what it charged. */
  method ChargePenalties(io: Bsagio, penalties: map<string, real>, total: real) returns (totalPenalty: real)
    modifies io`stepLogs
    ensures io.stepLogs == ChargedAll(old(io.stepLogs), penalties, total)
    ensures totalPenalty == TotalPenalty(old(io.stepLogs), penalties, total)
  {
    totalPenalty := 0.0;
    if penalties == map[] {
      NoPenalties(io.stepLogs, total);
      return;
    }
    var i := 0;
    while i < |io.stepLogs|
      invariant 0 <= i <= |io.stepLogs| == |old(io.stepLogs)|
      invariant forall j :: 0 <= j < i ==> io.stepLogs[j] == Charged(old(io.stepLogs)[j], penalties, total)
      invariant forall j :: i <= j < |io.stepLogs| ==> io.stepLogs[j] == old(io.stepLogs)[j]
      invariant totalPenalty == TotalPenalty(old(io.stepLogs)[..i], penalties, total)
    {
      assert old(io.stepLogs)[..i + 1][..i] == old(io.stepLogs)[..i];
      var log := io.stepLogs[i];
      if !log.success && log.name in penalties {
        var penalty := PenaltyOf(log, penalties, total);
        io.stepLogs := io.stepLogs[i := log.(score := Some(-penalty))];
        totalPenalty := totalPenalty + penalty;
      }
      i := i + 1;
    }
    assert old(io.stepLogs)[..i] == old(io.stepLogs);
  }

  /** The factor that turns a piece's maximum into its share of the points, or 0 when that maximum is not positive. */
  function RescaleFactor(r: Jh61bResults, share: real): (f: real)
    ensures r.maxScore > 0.0 ==> f * r.maxScore == share
    ensures r.maxScore <= 0.0 ==> f == 0.0
  {
    if r.maxScore > 0.0 then share / r.maxScore else 0.0
  }

  /** `rescale * x if x else 0.0`: a missing or zero value becomes 0, any other is multiplied by the factor. */
  function Rescaled(x: Option<real>, f: real): (r: real)
    ensures r == f * OrZero(x)
  {
    if x.Some? && x.value != 0.0 then f * x.value
    else
      assert f * OrZero(x) == f * 0.0 == 0.0;
      0.0
  }

  /** A rescaled test: its score and maximum multiplied by the factor, a missing one counting as 0. */
  function RescaleTest(t: TestResult, f: real): (r: TestResult)
    ensures r.score.Some? && r.score.value == f * OrZero(t.score)
    ensures r.maxScore.Some? && r.maxScore.value == f * OrZero(t.maxScore)
    ensures r.(score := t.score, maxScore := t.maxScore) == t
  {
    t.(score := Some(Rescaled(t.score, f)), maxScore := Some(Rescaled(t.maxScore, f)))
  }

  /** The tests, each rescaled by the factor. */
  function RescaledTests(tests: seq<TestResult>, f: real): (r: seq<TestResult>)
    ensures |r| == |tests| && forall i :: 0 <= i < |tests| ==> r[i] == RescaleTest(tests[i], f)
  {
    seq(|tests|, i requires 0 <= i < |tests| => RescaleTest(tests[i], f))
  }

  /** The inner rescaling loop, which updates each test of a piece in place. */
  method RescaleTests(tests: seq<TestResult>, f: real) returns (out: seq<TestResult>)
    ensures out == RescaledTests(tests, f)
  {
    out := tests;
    var j := 0;
    while j < |out|
      invariant 0 <= j <= |out| == |tests|
      invariant forall q :: 0 <= q < j ==> out[q] == RescaleTest(tests[q], f)
      invariant forall q :: j <= q < |out| ==> out[q] == tests[q]
    {
      out := out[j := RescaleTest(out[j], f)];
      j := j + 1;
    }
  }

  /** A piece's results with every test rescaled to the piece's share. */
  function RescalePiece(r: Jh61bResults, share: real): (p: Jh61bResults)
    ensures p.score == r.score && p.maxScore == r.maxScore
    ensures p.tests == RescaledTests(r.tests, RescaleFactor(r, share))
  {
    r.(tests := RescaledTests(r.tests, RescaleFactor(r, share)))
  }

  /** Rescaling multiplies the tests' total maximum by the factor. */
  lemma {:induction false} RescaledMaxTotal(tests: seq<TestResult>, f: real)
    ensures TotalMaxScore(RescaledTests(tests, f)) == f * TotalMaxScore(tests)
  {
    if tests != [] {
      var s := RescaledTests(tests, f);
      assert s[1..] == RescaledTests(tests[1..], f);
      RescaledMaxTotal(tests[1..], f);
      var x := OrZero(tests[0].maxScore);
      assert OrZero(s[0].maxScore) == f * x;
      assert f * (x + TotalMaxScore(tests[1..])) == f * x + f * TotalMaxScore(tests[1..]);
    }
  }

  /** Rescaling multiplies the tests' total score by the factor. */
  lemma {:induction false} RescaledScoreTotal(tests: seq<TestResult>, f: real)
    ensures TotalScore(RescaledTests(tests, f)) == f * TotalScore(tests)
  {
    if tests != [] {
      var s := RescaledTests(tests, f);
      assert s[1..] == RescaledTests(tests[1..], f);
      RescaledScoreTotal(tests[1..], f);
      var x := OrZero(tests[0].score);
      assert OrZero(s[0].score) == f * x;
      assert f * (x + TotalScore(tests[1..])) == f * x + f * TotalScore(tests[1..]);
    }
  }

  /**
   * When a piece's maximum is the total of its tests' maxima (as the
   * assessment step records it) and positive, the rescaled tests' maxima add
   * up to the piece's share of the points.
   */
  lemma RescaledMaxIsShare(r: Jh61bResults, share: real)
    requires r.maxScore > 0.0 && r.maxScore == TotalMaxScore(r.tests)
    ensures TotalMaxScore(RescalePiece(r, share).tests) == share
  {
    RescaledMaxTotal(r.tests, RescaleFactor(r, share));
  }

  /** Every piece with results, rescaled; its test objects are the ones the report receives. */
  function RescaledPieces(tr: map<string, Jh61bResults>, weighted: map<string, Score>): (m: map<string, Jh61bResults>)
    requires tr.Keys <= weighted.Keys
    ensures m.Keys == tr.Keys && forall p :: p in tr ==> m[p] == RescalePiece(tr[p], weighted[p].maxScore)
  {
    map p | p in tr :: RescalePiece(tr[p], weighted[p].maxScore)
  }

  /** All the tests of the pieces at `keys`, as a multiset. */
  ghost function TestsOver(m: map<string, Jh61bResults>, keys: set<string>): multiset<TestResult>
    requires keys <= m.Keys
    decreases keys
  {
    if keys == {} then multiset{}
    else
      var k :| k in keys;
      multiset(m[k].tests) + TestsOver(m, keys - {k})
  }

  lemma {:induction false} TestsOverPick(m: map<string, Jh61bResults>, keys: set<string>, j: string)
    requires keys <= m.Keys && j in keys
    ensures TestsOver(m, keys) == multiset(m[j].tests) + TestsOver(m, keys - {j})
    decreases keys
  {
    var k :| k in keys && TestsOver(m, keys) == multiset(m[k].tests) + TestsOver(m, keys - {k});
    if k != j {
      TestsOverPick(m, keys - {k}, j);
      TestsOverPick(m, keys - {j}, k);
      assert keys - {k} - {j} == keys - {j} - {k};
    }
  }

  /** The rescaling loop: rescales each piece's tests and collects them, piece after piece. */
  method RescaleAll(tr: map<string, Jh61bResults>, weighted: map<string, Score>)
    returns (rescaledMap: map<string, Jh61bResults>, rescaled: seq<TestResult>)
    requires tr.Keys <= weighted.Keys
    ensures rescaledMap == RescaledPieces(tr, weighted)
    ensures multiset(rescaled) == TestsOver(rescaledMap, rescaledMap.Keys)
  {
    ghost var target := RescaledPieces(tr, weighted);
    rescaledMap := map[];
    rescaled := [];
    var todo := tr.Keys;
    while todo != {}
      invariant todo <= tr.Keys
      invariant forall p :: p in tr ==> (p in rescaledMap <==> p !in todo)
      invariant rescaledMap.Keys <= tr.Keys
      invariant forall p :: p in rescaledMap ==> rescaledMap[p] == target[p]
      invariant multiset(rescaled) == TestsOver(target, rescaledMap.Keys)
      decreases todo
    {
      var p :| p in todo;
      var r := tr[p];
      var tests := RescaleTests(r.tests, RescaleFactor(r, weighted[p].maxScore));
      assert p !in rescaledMap.Keys && tests == target[p].tests;
      ghost var keys := rescaledMap.Keys;
      TestsOverPick(target, keys + {p}, p);
      assert keys + {p} - {p} == keys;
      assert multiset(rescaled + tests) == multiset(rescaled) + multiset(tests);
      rescaled := rescaled + tests;
      rescaledMap := rescaledMap[p := r.(tests := tests)];
      assert rescaledMap.Keys == keys + {p};
      todo := todo - {p};
    }
    assert rescaledMap == target;
  }

  // Sorting the rescaled tests.

  /** The sort key: the test's number, else an underscore before its name (`None` when it has none). */
  function SortKey(t: TestResult): (k: string)
    ensures t.number.Some? ==> k == t.number.value
    ensures t.number.None? ==> |k| > 0 && k[0] == '_'
  {
    if t.number.Some? then t.number.value else "_" + (if t.name.Some? then t.name.value else "None")
  }

  predicate SortedByKey(s: seq<TestResult>) {
    forall i, j :: 0 <= i < j < |s| ==> LexLeq(SortKey(s[i]), SortKey(s[j]))
  }

  /** `t` inserted before the first test whose key is not below its own. */
  function Insert(t: TestResult, s: seq<TestResult>): (r: seq<TestResult>)
    ensures multiset(r) == multiset(s) + multiset{t}
    ensures |r| == |s| + 1
  {
    if s == [] then [t]
    else if LexLeq(SortKey(t), SortKey(s[0])) then [t] + s
    else
      assert s == [s[0]] + s[1..];
      [s[0]] + Insert(t, s[1..])
  }

  /** A bound below `t` and every test of `s` is below every test of the insertion. */
  lemma {:induction false} InsertBounded(t: TestResult, s: seq<TestResult>, b: string)
    requires LexLeq(b, SortKey(t)) && forall j :: 0 <= j < |s| ==> LexLeq(b, SortKey(s[j]))
    ensures forall j :: 0 <= j < |Insert(t, s)| ==> LexLeq(b, SortKey(Insert(t, s)[j]))
  {
    if s != [] && !LexLeq(SortKey(t), SortKey(s[0])) {
      InsertBounded(t, s[1..], b);
    }
  }

  /** Inserting into a sorted list keeps it sorted. */
  lemma {:induction false} InsertSorted(t: TestResult, s: seq<TestResult>)
    requires SortedByKey(s)
    ensures SortedByKey(Insert(t, s))
  {
    if s == [] {
    } else if LexLeq(SortKey(t), SortKey(s[0])) {
      forall j | 0 < j < |s|
        ensures LexLeq(SortKey(t), SortKey(s[j]))
      {
        LexLeqTransitive(SortKey(t), SortKey(s[0]), SortKey(s[j]));
      }
    } else {
      LexLeqTotal(SortKey(t), SortKey(s[0]));
      InsertSorted(t, s[1..]);
      InsertBounded(t, s[1..], SortKey(s[0]));
    }
  }

  /** `list.sort(key=...)`: the same tests, in some order. */
  function SortTests(s: seq<TestResult>): (r: seq<TestResult>)
    ensures multiset(r) == multiset(s)
  {
    if s == [] then []
    else
      assert s == [s[0]] + s[1..];
      Insert(s[0], SortTests(s[1..]))
  }

  /** The sort puts the tests in key order; the order among equal keys is not modelled. */
  lemma {:induction false} SortTestsSorted(s: seq<TestResult>)
    ensures SortedByKey(SortTests(s))
  {
    if s != [] {
      SortTestsSorted(s[1..]);
      InsertSorted(s[0], SortTests(s[1..]));
    }
  }

  /**
   * `FinalScore.run`. It raises without a report, or when pieces have results
   * but the weights add up to 0; otherwise it passes, with the score set to
   * the clamped total minus the penalties, the failed steps charged, every
   * piece's tests rescaled in place, and those tests appended to the report in key order.
   */
  method RunFinalScore(io: Bsagio, cfg: FinalScoreConfig) returns (outcome: RunResult)
    modifies io`results, io`stepLogs, io`testResults
    ensures var tr := old(io.testResults).GetOr(map[]);
      old(io.results).None? || (tr != map[] && SumValues(cfg.scoring) == 0.0) ==>
        && outcome == Raised
        && io.results == old(io.results) && io.stepLogs == old(io.stepLogs) && io.testResults == old(io.testResults)
    ensures var tr := old(io.testResults).GetOr(map[]);
      var tw := SumValues(cfg.scoring);
      old(io.results).Some? && (tr == map[] || tw != 0.0) ==>
        var total := ClampedTotal(tr, cfg, tw);
        var pieces := RescaledPieces(tr, WeightedAll(tr, cfg, tw));
        var res := old(io.results).value;
        && outcome == Returned(true)
        && io.stepLogs == ChargedAll(old(io.stepLogs), cfg.penalties, total)
        && io.testResults == (if old(io.testResults).None? then None else Some(pieces))
        && io.results.Some?
        && io.results.value.score == Some(total - TotalPenalty(old(io.stepLogs), cfg.penalties, total))
        && |io.results.value.tests| >= |res.tests|
        && io.results.value.tests[..|res.tests|] == res.tests
        && SortedByKey(io.results.value.tests[|res.tests|..])
        && multiset(io.results.value.tests[|res.tests|..]) == TestsOver(pieces, pieces.Keys)
        && io.results.value.(score := res.score, tests := res.tests) == res
  {
    if io.results.None? {
      return Raised;
    }
    var res := io.results.value;
    var tr := io.testResults.GetOr(map[]);
    var totalWeight := SumMap(cfg.scoring);
    if tr != map[] && totalWeight == 0.0 {
      return Raised;
    }
    ScoreReport(io, cfg, res, tr, totalWeight);
    outcome := Returned(true);
  }

  /** The passing path of `FinalScore.run`: charges the penalties, rescales the pieces and rewrites the report. */
  method ScoreReport(io: Bsagio, cfg: FinalScoreConfig, res: Results, tr: map<string, Jh61bResults>, totalWeight: real)
    requires io.results == Some(res) && tr == io.testResults.GetOr(map[])
    requires totalWeight != 0.0 || tr == map[]
    modifies io`results, io`stepLogs, io`testResults
    ensures var total := ClampedTotal(tr, cfg, totalWeight);
      var pieces := RescaledPieces(tr, WeightedAll(tr, cfg, totalWeight));
      && io.stepLogs == ChargedAll(old(io.stepLogs), cfg.penalties, total)
      && io.testResults == (if old(io.testResults).None? then None else Some(pieces))
      && io.results.Some?
      && io.results.value.score == Some(total - TotalPenalty(old(io.stepLogs), cfg.penalties, total))
      && |io.results.value.tests| >= |res.tests|
      && io.results.value.tests[..|res.tests|] == res.tests
      && SortedByKey(io.results.value.tests[|res.tests|..])
      && multiset(io.results.value.tests[|res.tests|..]) == TestsOver(pieces, pieces.Keys)
      && io.results.value.(score := res.score, tests := res.tests) == res
  {
    var weighted, totalScore := Totals(tr, cfg, totalWeight);
    var totalPenalty := ChargePenalties(io, cfg.penalties, totalScore);
    var rescaledMap, rescaled := RescaleAll(tr, weighted);
    if io.testResults.Some? {
      io.testResults := Some(rescaledMap);
    }
    io.results := Some(WithSortedTests(res, totalScore - totalPenalty, rescaled));
  }

  /** The weighted pieces and the total before penalties: their scores added up, scaled, and clamped to the maximum. */
  method Totals(tr: map<string, Jh61bResults>, cfg: FinalScoreConfig, totalWeight: real)
    returns (weighted: map<string, Score>, total: real)
    requires totalWeight != 0.0 || tr == map[]
    ensures weighted == WeightedAll(tr, cfg, totalWeight)
    ensures total == ClampedTotal(tr, cfg, totalWeight)
  {
    weighted := WeighPieces(tr, cfg, totalWeight);
    total := SumMap(ScoresOf(weighted));
    total := total * cfg.scaleFactor;
    total := if cfg.maxPoints < total then cfg.maxPoints else total;
  }

  /** The report with its new score and the given tests appended after its own, in key order. */
  function WithSortedTests(res: Results, score: real, tests: seq<TestResult>): (r: Results)
    ensures r.score == Some(score)
    ensures |r.tests| >= |res.tests| && r.tests[..|res.tests|] == res.tests
    ensures SortedByKey(r.tests[|res.tests|..]) && multiset(r.tests[|res.tests|..]) == multiset(tests)
    ensures r.(score := res.score, tests := res.tests) == res
  {
    var sorted := SortTests(tests);
    SortTestsSorted(tests);
    assert (res.tests + sorted)[..|res.tests|] == res.tests;
    assert (res.tests + sorted)[|res.tests|..] == sorted;
    res.(score := Some(score), tests := res.tests + sorted)
  }

  /** With non-negative penalty fractions and total, the final score is at most the maximum. */
  lemma FinalWithinMax(tr: map<string, Jh61bResults>, cfg: FinalScoreConfig, logs: seq<StepLog>)
    requires tr == map[] || SumValues(cfg.scoring) != 0.0
    requires ClampedTotal(tr, cfg, SumValues(cfg.scoring)) >= 0.0
    requires forall n :: n in cfg.penalties ==> cfg.penalties[n] >= 0.0
    ensures var total := ClampedTotal(tr, cfg, SumValues(cfg.scoring));
      total - TotalPenalty(logs, cfg.penalties, total) <= cfg.maxPoints
  {
    PenaltyNonNegative(logs, cfg.penalties, ClampedTotal(tr, cfg, SumValues(cfg.scoring)));
  }

  /**
   * Two equally weighted pieces, one complete and one half done, out of 100
   * points: 75 before scaling, and 90 after a scale factor of 1.2, which stays
   * within the maximum.
   */
  lemma FinalScoreExample()
    ensures var tr := map["A" := Jh61bResults(1.0, 1.0, []), "B" := Jh61bResults(1.0, 2.0, [])];
      var cfg := FinalScoreConfig(100.0, map["A" := 1.0, "B" := 1.0], 1.2, map[]);
      && SumValues(cfg.scoring) == 2.0
      && SumValues(ScoresOf(WeightedAll(tr, cfg, 2.0))) == 75.0
      && ClampedTotal(tr, cfg, 2.0) == 90.0
  {
    var tr := map["A" := Jh61bResults(1.0, 1.0, []), "B" := Jh61bResults(1.0, 2.0, [])];
    var cfg := FinalScoreConfig(100.0, map["A" := 1.0, "B" := 1.0], 1.2, map[]);
    assert cfg.scoring.Keys == {"A", "B"} && {"A", "B"} - {"A"} == {"B"} && {"B"} - {"B"} == {};
    SumOverPick(cfg.scoring, {"A", "B"}, "A");
    SumOverPick(cfg.scoring, {"B"}, "B");
    var scores := ScoresOf(WeightedAll(tr, cfg, 2.0));
    assert scores["A"] == 50.0 && scores["B"] == 25.0;
    assert scores.Keys == {"A", "B"};
    SumOverPick(scores, {"A", "B"}, "A");
    SumOverPick(scores, {"B"}, "B");
  }
}
