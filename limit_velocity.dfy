/**
 * The velocity limiter (bsag/steps/gradescope/limit_velocity.py): a token
 * system over time windows. The window in force is the last one that
 * started before the submission; each earlier submission that scored, came
 * after that window started and is younger than its recharge time holds a
 * token, and so does the current one. Times are whole seconds since the epoch.
 */
module LimitVelocity {
  import opened Wrappers
  import opened GradescopeTypes
  import opened StepTypes
  import opened Context

  /** `Window`: from `startTime` on, at most `maxTokens` tokens, each held for `rechargeTime` seconds. */
  datatype Window = Window(startTime: int, maxTokens: PositiveInt, rechargeTime: int, resetTokens: bool)

  /** `LimitVelocityConfig`, without the time zone and format used only for display. */
  datatype VelocityConfig = VelocityConfig(ignoreScoresBelow: real, windows: seq<Window>)

  /** What the validator accepts: recharge times strictly increase from each window to the next. */
  predicate RechargeAscending(ws: seq<Window>) {
    forall i :: 0 <= i < |ws| - 1 ==> ws[i].rechargeTime < ws[i + 1].rechargeTime
  }

  /** `windows_must_be_strictly_asc`: the windows unchanged, or the error it raises. */
  method ValidateWindows(ws: seq<Window>) returns (r: Result<seq<Window>, string>)
    ensures r.Ok? <==> RechargeAscending(ws)
    ensures r.Ok? ==> r.value == ws
  {
    var i := 0;
    while i + 1 < |ws|
      invariant 0 <= i <= |ws|
      invariant forall j :: 0 <= j < i && j + 1 < |ws| ==> ws[j].rechargeTime < ws[j + 1].rechargeTime
    {
      if ws[i + 1].rechargeTime - ws[i].rechargeTime <= 0 {
        return Err("Window start times not strictly increasing");
      }
      i := i + 1;
    }
    return Ok(ws);
  }

  /** Accepted windows have strictly increasing recharge times between any two of them, not just neighbours. */
  lemma {:induction false} RechargeAscendingPairwise(ws: seq<Window>, i: int, j: int)
    requires RechargeAscending(ws) && 0 <= i < j < |ws|
    ensures ws[i].rechargeTime < ws[j].rechargeTime
    decreases j - i
  {
    if j > i + 1 {
      RechargeAscendingPairwise(ws, i, j - 1);
    }
  }

  /** The window put in front of the configured ones: from the epoch, one token that recharges at once. */
  const ImplicitWindow := Window(0, 1, 0, true)

  function AllWindows(cfg: VelocityConfig): seq<Window> {
    [ImplicitWindow] + cfg.windows
  }

  /** The index of the last window that started strictly before `createdAt`, if any did. */
  function ActiveIndex(ws: seq<Window>, createdAt: int): (r: Option<nat>)
    ensures r.Some? ==> r.value < |ws| && ws[r.value].startTime < createdAt
    ensures r.Some? ==> forall j :: r.value < j < |ws| ==> ws[j].startTime >= createdAt
    ensures r.None? <==> forall j :: 0 <= j < |ws| ==> ws[j].startTime >= createdAt
  {
    if |ws| == 0 then None
    else if ws[|ws| - 1].startTime < createdAt then Some(|ws| - 1)
    else ActiveIndex(ws[..|ws| - 1], createdAt)
  }

  /** Whether an earlier submission holds a token of window `w`. */
  predicate Consumes(sub: PreviousSubmission, createdAt: int, w: Window, ignoreBelow: real) {
    && sub.score > ignoreBelow
    && sub.submissionTime > w.startTime
    && 0 <= createdAt - sub.submissionTime < w.rechargeTime
  }

  /** The times of the earlier submissions that hold a token, in their order. */
  function Consumed(prev: seq<PreviousSubmission>, createdAt: int, w: Window, ignoreBelow: real): (r: seq<int>)
    ensures |r| <= |prev|
    ensures forall k :: 0 <= k < |r| ==> w.startTime < r[k] <= createdAt && createdAt - r[k] < w.rechargeTime
    ensures forall i :: 0 <= i < |prev| && Consumes(prev[i], createdAt, w, ignoreBelow) ==> prev[i].submissionTime in r
  {
    if prev == [] then []
    else
      var last := prev[|prev| - 1];
      Consumed(prev[..|prev| - 1], createdAt, w, ignoreBelow) +
        if Consumes(last, createdAt, w, ignoreBelow) then [last.submissionTime] else []
  }

  /** The positions of the earlier submissions that hold a token. */
  ghost function ConsumingPositions(prev: seq<PreviousSubmission>, createdAt: int, w: Window, ignoreBelow: real): set<nat> {
    set i: nat | i < |prev| && Consumes(prev[i], createdAt, w, ignoreBelow)
  }

  /** The token holders among the earlier submissions are as many as the submissions that hold a token. */
  lemma {:induction false} ConsumedCount(prev: seq<PreviousSubmission>, createdAt: int, w: Window, ignoreBelow: real)
    ensures |Consumed(prev, createdAt, w, ignoreBelow)| == |ConsumingPositions(prev, createdAt, w, ignoreBelow)|
  {
    if prev != [] {
      var init, last := prev[..|prev| - 1], prev[|prev| - 1];
      ConsumedCount(init, createdAt, w, ignoreBelow);
      assert prev == init + [last];
      PositionsSnoc(init, last, createdAt, w, ignoreBelow);
    }
  }

  /** One more earlier submission adds its position iff it holds a token. */
  lemma PositionsSnoc(init: seq<PreviousSubmission>, last: PreviousSubmission, createdAt: int, w: Window, ignoreBelow: real)
    ensures var before, now := ConsumingPositions(init, createdAt, w, ignoreBelow),
                               ConsumingPositions(init + [last], createdAt, w, ignoreBelow);
      && |init| !in before
      && now == before + if Consumes(last, createdAt, w, ignoreBelow) then {|init|} else {}
  {
    var prev := init + [last];
    assert prev[|init|] == last;
    assert forall i :: 0 <= i < |init| ==> prev[i] == init[i];
  }

  /** The positions of the earlier submissions that hold a token, ascending: exactly those, each once. */
  function ConsumingIndices(prev: seq<PreviousSubmission>, createdAt: int, w: Window, ignoreBelow: real): (idx: seq<nat>)
    ensures forall k :: 0 <= k < |idx| ==> idx[k] < |prev| && Consumes(prev[idx[k]], createdAt, w, ignoreBelow)
    ensures forall k, l :: 0 <= k < l < |idx| ==> idx[k] < idx[l]
    ensures forall i :: 0 <= i < |prev| && Consumes(prev[i], createdAt, w, ignoreBelow) ==> i in idx
  {
    if prev == [] then []
    else
      var n := |prev| - 1;
      ConsumingIndices(prev[..n], createdAt, w, ignoreBelow) +
        if Consumes(prev[n], createdAt, w, ignoreBelow) then [n] else []
  }

  /**
   * The token holders are the times of exactly the submissions that hold a
   * token, in the order of the earlier submissions: a submission that does
   * not hold one is never among them.
   */
  lemma {:induction false} ConsumedInOrder(prev: seq<PreviousSubmission>, createdAt: int, w: Window, ignoreBelow: real)
    ensures var r, idx := Consumed(prev, createdAt, w, ignoreBelow), ConsumingIndices(prev, createdAt, w, ignoreBelow);
      |r| == |idx| && forall k :: 0 <= k < |r| ==> r[k] == prev[idx[k]].submissionTime
  {
    if prev != [] {
      var n := |prev| - 1;
      ConsumedInOrder(prev[..n], createdAt, w, ignoreBelow);
      assert forall i :: 0 <= i < n ==> prev[..n][i] == prev[i];
    }
  }

  /** What the step tells the student: the window in force, the token holders, the tokens left and the next recharge. */
  datatype TokenStatus = TokenStatus(
    activeIndex: nat,
    holders: seq<int>,
    tokensAvail: int,
    rechargeAt: int,
    refreshes: bool)

  /** The token accounting of a submission, or none when no window has started yet. */
  function Status(meta: SubmissionMetadata, cfg: VelocityConfig, extraTokens: int): Option<TokenStatus> {
    var ws := AllWindows(cfg);
    match ActiveIndex(ws, meta.createdAt)
    case None => None
    case Some(a) =>
      var w := ws[a];
      var holders := Consumed(meta.previousSubmissions, meta.createdAt, w, cfg.ignoreScoresBelow) + [meta.createdAt];
      var rechargeAt := holders[0] + w.rechargeTime;
      Some(TokenStatus(a, holders, w.maxTokens + extraTokens - |holders|, rechargeAt,
                       a + 1 < |ws| && ws[a + 1].startTime < rechargeAt && ws[a + 1].resetTokens))
  }

  /**
   * `LimitVelocity.run`: raises without metadata or without a started window;
   * otherwise tells the student its token status and passes iff no token is overdrawn.
   */
  method RunLimitVelocity(io: Bsagio, cfg: VelocityConfig) returns (outcome: RunResult, told: Option<TokenStatus>)
    ensures io.metadata.None? ==> outcome == Raised && told == None
    ensures io.metadata.Some? ==> told == Status(io.metadata.value, cfg, io.extraTokens.GetOr(0))
    ensures io.metadata.Some? && told.None? ==> outcome == Raised
    ensures told.Some? ==> outcome == Returned(told.value.tokensAvail >= 0)
  {
    if io.metadata.None? {
      return Raised, None;
    }
    var meta := io.metadata.value;
    var windows := AllWindows(cfg);
    var active := ActiveIndex(windows, meta.createdAt);
    if active.None? {
      return Raised, None;
    }
    var a := active.value;
    var w := windows[a];
    var holders := Consumed(meta.previousSubmissions, meta.createdAt, w, cfg.ignoreScoresBelow);
    holders := holders + [meta.createdAt];
    var extra := io.extraTokens.GetOr(0);
    var tokensAvail := w.maxTokens + extra - |holders|;
    var rechargeAt := holders[0] + w.rechargeTime;
    var refreshes := a + 1 < |windows| && windows[a + 1].startTime < rechargeAt && windows[a + 1].resetTokens;
    told := Some(TokenStatus(a, holders, tokensAvail, rechargeAt, refreshes));
    outcome := Returned(tokensAvail >= 0);
  }

  /**
   * The accounting: the current submission is the last token holder, every
   * earlier holder is younger than the recharge time, and each token held
   * lowers the tokens left by one from the window's maximum plus the extra
   * tokens, the current submission and each earlier one that holds a token.
   */
  lemma StatusFacts(meta: SubmissionMetadata, cfg: VelocityConfig, extraTokens: int)
    requires Status(meta, cfg, extraTokens).Some?
    ensures var s := Status(meta, cfg, extraTokens).value; var w := AllWindows(cfg)[s.activeIndex];
      && s.holders[|s.holders| - 1] == meta.createdAt
      && s.tokensAvail == w.maxTokens + extraTokens - |s.holders|
      && s.tokensAvail <= w.maxTokens + extraTokens - 1
      && (forall k :: 0 <= k < |s.holders| ==> 0 <= meta.createdAt - s.holders[k] &&
                                               (k < |s.holders| - 1 ==> meta.createdAt - s.holders[k] < w.rechargeTime))
      && s.rechargeAt == s.holders[0] + w.rechargeTime
      && s.tokensAvail == w.maxTokens + extraTokens - 1 -
                          |ConsumingPositions(meta.previousSubmissions, meta.createdAt, w, cfg.ignoreScoresBelow)|
  {
    var a := ActiveIndex(AllWindows(cfg), meta.createdAt).value;
    ConsumedCount(meta.previousSubmissions, meta.createdAt, AllWindows(cfg)[a], cfg.ignoreScoresBelow);
  }

  /** A window exists iff the submission is after the epoch or some configured window started before it. */
  lemma NoWindowIffBeforeAll(meta: SubmissionMetadata, cfg: VelocityConfig, extraTokens: int)
    ensures Status(meta, cfg, extraTokens).None? <==>
            meta.createdAt <= 0 && forall i :: 0 <= i < |cfg.windows| ==> cfg.windows[i].startTime >= meta.createdAt
  {
    var ws := AllWindows(cfg);
    assert ws[0] == ImplicitWindow;
    assert forall j :: 1 <= j < |ws| ==> ws[j] == cfg.windows[j - 1];
    assert forall i :: 0 <= i < |cfg.windows| ==> ws[i + 1] == cfg.windows[i];
  }

  /** In the implicit window no earlier submission holds a token, so the tokens left are exactly the extra ones. */
  lemma ImplicitWindowTokens(meta: SubmissionMetadata, cfg: VelocityConfig, extraTokens: int)
    requires Status(meta, cfg, extraTokens).Some? && Status(meta, cfg, extraTokens).value.activeIndex == 0
    ensures Status(meta, cfg, extraTokens).value.tokensAvail == extraTokens
    ensures Status(meta, cfg, extraTokens).value.holders == [meta.createdAt]
  {
  }

  /**
   * One window of two tokens recharging daily, two scored submissions in the
   * last day and the current one: three holders for two tokens, one overdrawn.
   */
  lemma VelocityExample(res: Results, asg: Assignment)
    ensures var t := 1_000_000;
      var prev := [PreviousSubmission(t - 7200, 1.0, res), PreviousSubmission(t - 3600, 1.0, res)];
      var meta := SubmissionMetadata(1, t, asg, Upload, [], prev);
      var cfg := VelocityConfig(0.0, [Window(100, 2, 86400, true)]);
      && Status(meta, cfg, 0).Some?
      && Status(meta, cfg, 0).value.tokensAvail == -1
      && Status(meta, cfg, 0).value.holders == [t - 7200, t - 3600, t]
  {
    var t := 1_000_000;
    var prev := [PreviousSubmission(t - 7200, 1.0, res), PreviousSubmission(t - 3600, 1.0, res)];
    assert prev[..1][..0] == [];
    assert prev[..1] == [prev[0]];
  }
}
