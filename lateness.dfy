/**
 * The lateness step (bsag/steps/gradescope/lateness.py): measures how late
 * the submission is against the submitter's own due date and decays the
 * report's score by the penalty configured for that lateness. Times are
 * whole seconds.
 */
module Lateness {
  import opened Wrappers
  import opened GradescopeTypes
  import opened StepTypes
  import opened Context

  /** `LatenessConfig`: keys of the decay map are lateness thresholds in seconds. */
  datatype LatenessConfig = LatenessConfig(
    haltOnFail: bool,
    gracePeriod: nat,
    scoreDecay: map<PositiveInt, real>,
    minLatenessScore: real)

  const DefaultConfig := LatenessConfig(false, 0, map[], 0.0)

  /** The config validator: halting on failure and decaying the score exclude each other. */
  function ValidateScoreDecay(cfg: LatenessConfig): (r: Result<map<PositiveInt, real>, string>)
    ensures r.Ok? <==> !cfg.haltOnFail || cfg.scoreDecay == map[]
    ensures r.Ok? ==> r.value == cfg.scoreDecay
  {
    if !HaltAllowsDecay(cfg.haltOnFail, cfg.scoreDecay != map[]) then Err("`halt_on_fail` and `score_decay` cannot both be set")
    else Ok(cfg.scoreDecay)
  }

  /** How late the submission is: the time past the due date, and never negative. */
  function Lateness(createdAt: int, dueDate: int): (l: nat)
    ensures l >= createdAt - dueDate
    ensures createdAt > dueDate ==> l == createdAt - dueDate
    ensures l == 0 <==> createdAt <= dueDate
  {
    if createdAt > dueDate then createdAt - dueDate else 0
  }

  /** The lateness beyond the grace period: never negative and never more than the lateness. */
  function GracedLateness(lateness: nat, grace: nat): (g: nat)
    ensures g <= lateness
    ensures g == 0 <==> lateness <= grace
    ensures g > 0 ==> g == lateness - grace
  {
    if lateness > grace then lateness - grace else 0
  }

  /** The largest key of `keys` strictly below `bound`, if there is one. */
  ghost function MaxBelow(keys: set<PositiveInt>, bound: int): (r: Option<PositiveInt>)
    ensures r.Some? ==> r.value in keys && r.value < bound && forall k :: k in keys && k < bound ==> k <= r.value
    ensures r.None? ==> forall k :: k in keys ==> k >= bound
    decreases keys
  {
    if |keys| == 0 then None
    else
      var x :| x in keys;
      var rest := MaxBelow(keys - {x}, bound);
      assert forall k :: k in keys ==> k == x || k in keys - {x};
      if x >= bound then rest
      else if rest.Some? && rest.value > x then rest
      else Some(x)
  }

  /** The decay at the largest of the thresholds `among` below the lateness, else all of the score. */
  ghost function PenaltyAmong(decay: map<PositiveInt, real>, among: set<PositiveInt>, lateness: int): real
    requires among <= decay.Keys
  {
    match MaxBelow(among, lateness)
    case Some(k) => decay[k]
    case None => 1.0
  }

  /** The penalty: the decay at the largest threshold strictly below the (ungraced) lateness, else all of it. */
  ghost function Penalty(decay: map<PositiveInt, real>, lateness: int): real {
    PenaltyAmong(decay, decay.Keys, lateness)
  }

  /** Adding a threshold above all others: it is the new maximum below the bound iff it is below the bound. */
  lemma MaxBelowAddLargest(keys: set<PositiveInt>, k: PositiveInt, bound: int)
    requires forall a :: a in keys ==> a < k
    ensures MaxBelow(keys + {k}, bound) == if k < bound then Some(k) else MaxBelow(keys, bound)
  {
    var r := MaxBelow(keys + {k}, bound);
    var s := MaxBelow(keys, bound);
    if k < bound {
      assert r.Some? && k <= r.value;
    } else if s.Some? {
      assert r.Some? && s.value <= r.value && r.value <= s.value;
    } else {
      assert r.None?;
    }
  }

  /** The smallest element of a non-empty set of thresholds. */
  ghost function Smallest(s: set<PositiveInt>): (m: PositiveInt)
    requires s != {}
    ensures m in s && forall x :: x in s ==> m <= x
    decreases s
  {
    var x :| x in s;
    if s - {x} == {} then
      assert forall y :: y in s ==> y == x || y in s - {x};
      x
    else
      var m := Smallest(s - {x});
      assert forall y :: y in s ==> y == x || y in s - {x};
      if m < x then m else x
  }

  /**
   * One round of the penalty loop: moving the smallest remaining threshold
   * to the visited ones keeps them below the rest, and the penalty among the
   * visited ones becomes that threshold's decay iff the lateness exceeds it.
   */
  lemma PenaltyStep(decay: map<PositiveInt, real>, done: set<PositiveInt>, rest: set<PositiveInt>, k: PositiveInt,
                    lateness: int)
    requires done <= decay.Keys && rest <= decay.Keys && k in rest
    requires forall j :: j in decay.Keys ==> (j in done <==> j !in rest)
    requires forall a, b :: a in done && b in rest ==> a < b
    requires forall x :: x in rest ==> k <= x
    ensures done + {k} <= decay.Keys && rest - {k} <= decay.Keys
    ensures forall j :: j in decay.Keys ==> (j in done + {k} <==> j !in rest - {k})
    ensures forall a, b :: a in done + {k} && b in rest - {k} ==> a < b
    ensures PenaltyAmong(decay, done + {k}, lateness) ==
            if lateness > k then decay[k] else PenaltyAmong(decay, done, lateness)
  {
    MaxBelowAddLargest(done, k, lateness);
  }

  /**
   * The penalty loop over the thresholds in ascending order: the decay of
   * every threshold the lateness exceeds overwrites the previous one.
   */
  method ComputePenalty(decay: map<PositiveInt, real>, lateness: int) returns (penalty: real)
    ensures penalty == Penalty(decay, lateness)
  {
    penalty := 1.0;
    var rest := decay.Keys;
    ghost var done: set<PositiveInt> := {};
    while rest != {}
      invariant rest <= decay.Keys && done <= decay.Keys
      invariant forall j :: j in decay.Keys ==> (j in done <==> j !in rest)
      invariant forall a, b :: a in done && b in rest ==> a < b
      invariant penalty == PenaltyAmong(decay, done, lateness)
      decreases rest
    {
      ghost var least := Smallest(rest);
      var k :| k in rest && forall x :: x in rest ==> k <= x;
      PenaltyStep(decay, done, rest, k, lateness);
      if lateness > k {
        penalty := decay[k];
      }
      rest := rest - {k};
      done := done + {k};
    }
    assert done == decay.Keys;
  }

  /** A positive score decays by the penalty, but not below the minimum; any other score is kept. */
  function Decayed(score: Option<real>, penalty: real, minScore: real): (r: Option<real>)
    ensures score.None? ==> r.None?
    ensures score.Some? && score.value <= 0.0 ==> r == score
    ensures score.Some? && score.value > 0.0 ==> r.Some? && r.value >= minScore && r.value >= score.value * (1.0 - penalty)
    ensures score.Some? && score.value > 0.0 ==> r.value == minScore || r.value == score.value * (1.0 - penalty)
  {
    match score
    case None => None
    case Some(s) =>
      if s > 0.0 then
        var d := s * (1.0 - penalty);
        Some(if d > minScore then d else minScore)
      else score
  }

  /** What the step returns and the report it leaves, given the submission's creation time and due date. */
  ghost function Outcome(cfg: LatenessConfig, res: Results, createdAt: int, dueDate: int): (bool, Results) {
    var lateness := Lateness(createdAt, dueDate);
    var graced := GracedLateness(lateness, cfg.gracePeriod);
    if lateness == 0 || graced == 0 then (true, res)
    else if cfg.haltOnFail then (false, res)
    else (false, res.(score := Decayed(res.score, Penalty(cfg.scoreDecay, lateness), cfg.minLatenessScore)))
  }

  /**
   * `Lateness.run`: raises when the metadata, the report or a first user is
   * missing; otherwise returns and leaves the report as `Outcome` says.
   */
  method RunLateness(io: Bsagio, cfg: LatenessConfig) returns (outcome: RunResult)
    modifies io`results
    ensures old(io.metadata).None? || old(io.results).None? || old(io.metadata).value.users == [] ==>
              outcome == Raised && io.results == old(io.results)
    ensures old(io.metadata).Some? && old(io.results).Some? && old(io.metadata).value.users != [] ==>
              var o := Outcome(cfg, old(io.results).value, old(io.metadata).value.createdAt,
                               old(io.metadata).value.users[0].assignment.dueDate);
              outcome == Returned(o.0) && io.results == Some(o.1)
  {
    if io.metadata.None? || io.results.None? || io.metadata.value.users == [] {
      return Raised;
    }
    var meta := io.metadata.value;
    var res := io.results.value;
    var lateness := Lateness(meta.createdAt, meta.users[0].assignment.dueDate);
    var graced := GracedLateness(lateness, cfg.gracePeriod);
    if lateness == 0 {
      return Returned(true);
    }
    if graced == 0 {
      return Returned(true);
    }
    if cfg.haltOnFail {
      return Returned(false);
    }
    var penalty := ComputePenalty(cfg.scoreDecay, lateness);
    if res.score.Some? && res.score.value > 0.0 {
      io.results := Some(res.(score := Decayed(res.score, penalty, cfg.minLatenessScore)));
    } else {
      assert res.(score := Decayed(res.score, penalty, cfg.minLatenessScore)) == res;
    }
    outcome := Returned(false);
  }

  /** An on-time submission, or one within the grace period, passes with the report untouched. */
  lemma OnTimeOrGracedPasses(cfg: LatenessConfig, res: Results, createdAt: int, dueDate: int)
    requires createdAt <= dueDate + cfg.gracePeriod
    ensures Outcome(cfg, res, createdAt, dueDate) == (true, res)
  {
  }

  /** A late submission past the grace period always fails the step. */
  lemma LateFails(cfg: LatenessConfig, res: Results, createdAt: int, dueDate: int)
    requires createdAt > dueDate + cfg.gracePeriod
    ensures !Outcome(cfg, res, createdAt, dueDate).0
    ensures cfg.haltOnFail ==> Outcome(cfg, res, createdAt, dueDate).1 == res
  {
  }

  /**
   * The penalty is the decay at the largest threshold the lateness strictly
   * exceeds, or 1.0 when it exceeds none.
   */
  lemma PenaltyChoice(decay: map<PositiveInt, real>, lateness: int, k: PositiveInt)
    requires k in decay && k < lateness
    requires forall j :: j in decay && j < lateness ==> j <= k
    ensures Penalty(decay, lateness) == decay[k]
  {
    var m := MaxBelow(decay.Keys, lateness);
    assert m.Some? && m.value <= k && k <= m.value;
  }

  lemma PenaltyDefault(decay: map<PositiveInt, real>, lateness: int)
    requires forall j :: j in decay ==> lateness <= j
    ensures Penalty(decay, lateness) == 1.0
  {
  }

  /** With a penalty in [0, 1] and a minimum no higher than the score, decay never raises a score. */
  lemma DecayNeverRaises(score: real, penalty: real, minScore: real)
    requires 0.0 <= penalty <= 1.0 && minScore <= score
    ensures Decayed(Some(score), penalty, minScore).value <= score
  {
    if score > 0.0 {
      assert score * (1.0 - penalty) <= score * 1.0;
    }
  }

  /**
   * Due at T, submitted two hours later, one hour of grace and half the
   * score kept past the first hour: a score of 80 becomes 40 and the step fails.
   */
  lemma LatenessExample(res: Results)
    requires res.score == Some(80.0)
    ensures var cfg := LatenessConfig(false, 3600, map[3600 := 0.5], 0.0);
      Outcome(cfg, res, 1_000_000 + 7200, 1_000_000) == (false, res.(score := Some(40.0)))
  {
    PenaltyChoice(map[3600 := 0.5], 7200, 3600);
  }
}
