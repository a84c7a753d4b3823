/**
 * The illegal-dependency check (bsag/steps/jh61b/dependency_check.py): runs
 * jdeps over the submission's classes and flags every dependency whose
 * target no allowed pattern matches or some disallowed pattern matches. The
 * jdeps run is an input.
 */
module DepCheck {
  import opened Wrappers
  import opened Text
  import opened Subprocess
  import opened StepTypes
  import opened Java

  /** `DepCheckConfig`, without the timeout, which only shapes the command. */
  datatype DepCheckConfig = DepCheckConfig(
    graderRoot: string,
    submissionRoot: string,
    allowedClasses: seq<string>,
    disallowedClasses: seq<string>)

  /** Every class allowed, none disallowed. */
  function DefaultConfig(graderRoot: string, submissionRoot: string): DepCheckConfig {
    DepCheckConfig(graderRoot, submissionRoot, ["**"], [])
  }

  /** One `class -> dependency source` line of jdeps' verbose output. */
  datatype Dependency = Dependency(studentClass: string, target: string)

  /**
   * The jdeps line pattern, read on the line's whitespace-separated words:
   * a class, an arrow, the target, and either one word or `not found` for the source.
   */
  function ParseLine(line: string): (r: Option<Dependency>)
    ensures r.Some? ==> 4 <= |Words(line)|
  {
    var w := Words(line);
    if |w| == 4 && w[1] == "->" then Some(Dependency(w[0], w[2]))
    else if |w| == 5 && w[1] == "->" && w[3] == "not" && w[4] == "found" then Some(Dependency(w[0], w[2]))
    else None
  }

  /** A target is fine iff some allowed pattern matches it and no disallowed pattern does. */
  predicate Allowed(cfg: DepCheckConfig, target: string) {
    && (exists i :: 0 <= i < |cfg.allowedClasses| && ClassMatches(cfg.allowedClasses[i], target))
    && !(exists i :: 0 <= i < |cfg.disallowedClasses| && ClassMatches(cfg.disallowedClasses[i], target))
  }

  /** One pattern loop: whether some pattern matches the target, stopping at the first that does. */
  method AnyMatches(patterns: seq<string>, target: string) returns (found: bool)
    ensures found <==> exists i :: 0 <= i < |patterns| && ClassMatches(patterns[i], target)
  {
    found := false;
    var i := 0;
    while i < |patterns|
      invariant 0 <= i <= |patterns|
      invariant forall j :: 0 <= j < i ==> !ClassMatches(patterns[j], target)
    {
      var hit := ClassMatches(patterns[i], target);
      if hit {
        WitnessMatch(patterns, target, i);
        return true;
      }
      NoMatchExtends(patterns, target, i);
      i := i + 1;
    }
  }

  lemma NoMatchExtends(patterns: seq<string>, target: string, i: int)
    requires 0 <= i < |patterns| && !ClassMatches(patterns[i], target)
    requires forall j :: 0 <= j < i ==> !ClassMatches(patterns[j], target)
    ensures forall j :: 0 <= j < i + 1 ==> !ClassMatches(patterns[j], target)
  {
    forall j | 0 <= j < i + 1
      ensures !ClassMatches(patterns[j], target)
    {
      if j == i {
      }
    }
  }

  lemma WitnessMatch(patterns: seq<string>, target: string, i: int)
    requires 0 <= i < |patterns| && ClassMatches(patterns[i], target)
    ensures exists j :: 0 <= j < |patterns| && ClassMatches(patterns[j], target)
  {
  }

  /** The two pattern loops for one dependency: an allowed match sets the flag, a disallowed match clears it. */
  method IsOk(cfg: DepCheckConfig, target: string) returns (ok: bool)
    ensures ok <==> Allowed(cfg, target)
  {
    ok := AnyMatches(cfg.allowedClasses, target);
    var denied := AnyMatches(cfg.disallowedClasses, target);
    if denied {
      ok := false;
    }
  }

  /** A line raises no complaint: it does not parse, or its target is allowed. */
  predicate LineOk(cfg: DepCheckConfig, line: string) {
    match ParseLine(line)
    case Some(d) => Allowed(cfg, d.target)
    case None => true
  }

  /** The dependencies the lines report that are not allowed, in line order; lines that do not parse are skipped. */
  function IllegalDeps(cfg: DepCheckConfig, lines: seq<string>): (r: seq<Dependency>)
    ensures |r| <= |lines|
    ensures forall d :: d in r ==> !Allowed(cfg, d.target)
  {
    if lines == [] then []
    else
      var rest := IllegalDeps(cfg, lines[..|lines| - 1]);
      var last := lines[|lines| - 1];
      if LineOk(cfg, last) then rest else rest + [ParseLine(last).value]
  }

  /** No dependency is flagged iff every line that parses names an allowed target. */
  lemma {:induction false} NoIllegalIffAllAllowed(cfg: DepCheckConfig, lines: seq<string>)
    ensures IllegalDeps(cfg, lines) == [] <==> forall i :: 0 <= i < |lines| ==> LineOk(cfg, lines[i])
  {
    if lines != [] {
      var init, last := lines[..|lines| - 1], lines[|lines| - 1];
      NoIllegalIffAllAllowed(cfg, init);
      assert lines == init + [last];
      AllOkSnoc(cfg, init, last);
    }
  }

  /** Every line is fine iff every line but the last is, and the last is. */
  lemma AllOkSnoc(cfg: DepCheckConfig, init: seq<string>, last: string)
    ensures (forall i :: 0 <= i < |init| + 1 ==> LineOk(cfg, (init + [last])[i])) <==>
            (forall i :: 0 <= i < |init| ==> LineOk(cfg, init[i])) && LineOk(cfg, last)
  {
    var lines := init + [last];
    assert lines[|init|] == last;
    assert forall i :: 0 <= i < |init| ==> lines[i] == init[i];
  }

  /** The dependency a line reports, if it is not allowed. */
  function Flagged(cfg: DepCheckConfig, line: string): Option<Dependency> {
    if LineOk(cfg, line) then None else Some(ParseLine(line).value)
  }

  /** One more line adds its dependency to the flagged ones iff it complains. */
  lemma IllegalStep(cfg: DepCheckConfig, lines: seq<string>, i: int)
    requires 0 <= i < |lines|
    ensures var f := Flagged(cfg, lines[i]);
      IllegalDeps(cfg, lines[..i + 1]) == IllegalDeps(cfg, lines[..i]) + if f.Some? then [f.value] else []
  {
    assert lines[..i + 1][..i] == lines[..i];
  }

  /** The scan over the lines: false as soon as one dependency is illegal, though every line is still examined. */
  method ScanLines(cfg: DepCheckConfig, lines: seq<string>) returns (passed: bool, illegal: seq<Dependency>)
    ensures illegal == IllegalDeps(cfg, lines)
    ensures passed <==> illegal == []
  {
    passed := true;
    illegal := [];
    var i := 0;
    while i < |lines|
      invariant 0 <= i <= |lines|
      invariant illegal == IllegalDeps(cfg, lines[..i])
      invariant passed <==> illegal == []
    {
      IllegalStep(cfg, lines, i);
      var flagged := CheckLine(cfg, lines[i]);
      if flagged.Some? {
        passed := false;
        illegal := illegal + [flagged.value];
      }
      i := i + 1;
    }
    assert lines[..i] == lines;
  }

  /** One line of the scan: the dependency it reports, if that dependency is not allowed. */
  method CheckLine(cfg: DepCheckConfig, line: string) returns (flagged: Option<Dependency>)
    ensures flagged == Flagged(cfg, line)
  {
    flagged := None;
    var parsed := ParseLine(line);
    if parsed.Some? {
      var ok := IsOk(cfg, parsed.value.target);
      if !ok {
        flagged := parsed;
      }
    }
  }

  /** What the loop of the step, as written, walks over: each character of the output on its own. */
  function CharLines(output: string): (r: seq<string>)
    ensures |r| == |output| && forall i :: 0 <= i < |output| ==> r[i] == [output[i]]
  {
    seq(|output|, i requires 0 <= i < |output| => [output[i]])
  }

  /** `DepCheck.run` as written: a timeout fails, and otherwise the characters of the output are scanned. */
  method RunDepCheckAsWritten(cfg: DepCheckConfig, jdeps: CommandRun) returns (outcome: RunResult)
    ensures jdeps.timedOut ==> outcome == Returned(false)
    ensures !jdeps.timedOut ==> outcome == Returned(IllegalDeps(cfg, CharLines(jdeps.output)) == [])
  {
    if jdeps.timedOut {
      return Returned(false);
    }
    var passed, _ := ScanLines(cfg, CharLines(jdeps.output));
    outcome := Returned(passed);
  }

  /** A single character never has the four words a jdeps line needs. */
  lemma CharNeverParses(c: char)
    ensures ParseLine([c]).None?
  {
    assert |Words([c])| <= 1;
  }

  /** As written, the step flags nothing: it passes whenever jdeps does not time out, whatever the configuration. */
  lemma AsWrittenNeverFlags(cfg: DepCheckConfig, output: string)
    ensures IllegalDeps(cfg, CharLines(output)) == []
  {
    var lines := CharLines(output);
    forall i | 0 <= i < |lines|
      ensures LineOk(cfg, lines[i])
    {
      CharNeverParses(output[i]);
    }
    NoIllegalIffAllAllowed(cfg, lines);
  }

  /**
   * `DepCheck.run` reading the output line by line, as the pattern's
   * anchors intend: a timeout fails, and otherwise the step passes iff no
   * dependency reported on a line is illegal.
   */
  method RunDepCheck(cfg: DepCheckConfig, jdeps: CommandRun) returns (outcome: RunResult, illegal: seq<Dependency>)
    ensures jdeps.timedOut ==> outcome == Returned(false) && illegal == []
    ensures !jdeps.timedOut ==> illegal == IllegalDeps(cfg, Split(jdeps.output, '\n')) && outcome == Returned(illegal == [])
  {
    if jdeps.timedOut {
      return Returned(false), [];
    }
    var passed;
    passed, illegal := ScanLines(cfg, Split(jdeps.output, '\n'));
    outcome := Returned(passed);
  }

  /** Under the default configuration every target is allowed, unless its first chunk is literally `**`. */
  lemma DefaultAllowsAll(graderRoot: string, submissionRoot: string, target: string)
    requires Split(Strip(target), '.')[0] != "**"
    ensures Allowed(DefaultConfig(graderRoot, submissionRoot), target)
  {
    var cfg := DefaultConfig(graderRoot, submissionRoot);
    var pat := cfg.allowedClasses[0];
    ChunksOf(pat, ["**"]);
    assert ClassMatches(cfg.allowedClasses[0], target);
  }

  /** Under the default configuration the step passes whenever jdeps finishes in time. */
  lemma DefaultPasses(graderRoot: string, submissionRoot: string, lines: seq<string>)
    requires forall i :: 0 <= i < |lines| && ParseLine(lines[i]).Some? ==>
                         Split(Strip(ParseLine(lines[i]).value.target), '.')[0] != "**"
    ensures IllegalDeps(DefaultConfig(graderRoot, submissionRoot), lines) == []
  {
    var cfg := DefaultConfig(graderRoot, submissionRoot);
    forall i | 0 <= i < |lines|
      ensures LineOk(cfg, lines[i])
    {
      if ParseLine(lines[i]).Some? {
        DefaultAllowsAll(graderRoot, submissionRoot, ParseLine(lines[i]).value.target);
      }
    }
    NoIllegalIffAllAllowed(cfg, lines);
  }

  /**
   * A submission whose class `A` uses `b.C`, with `b.**` disallowed: read
   * by lines the dependency is flagged; read by characters it is not.
   */
  lemma DisallowedDependencyMissed(line: string, cfg: DepCheckConfig)
    requires line == "A -> b.C D"
    requires cfg.allowedClasses == ["**"] && cfg.disallowedClasses == ["b.**"]
    ensures IllegalDeps(cfg, Split(line, '\n')) == [Dependency("A", "b.C")]
    ensures IllegalDeps(cfg, CharLines(line)) == []
  {
    ExampleLineParses(line);
    ExampleTargetDenied(cfg, "b.C");
    assert [line][..0] == [];
    AsWrittenNeverFlags(cfg, line);
  }

  lemma ExampleLineParses(line: string)
    requires line == "A -> b.C D"
    ensures ParseLine(line) == Some(Dependency("A", "b.C"))
    ensures Split(line, '\n') == [line]
  {
    assert line == JoinWith(["A", "->", "b.C", "D"], ' ');
    WordsJoin(["A", "->", "b.C", "D"]);
    SplitJoin([line], '\n');
  }

  lemma ExampleTargetDenied(cfg: DepCheckConfig, target: string)
    requires target == "b.C" && cfg.disallowedClasses == ["b.**"]
    ensures !Allowed(cfg, target)
  {
    var denied := cfg.disallowedClasses[0];
    ChunksOf(target, ["b", "C"]);
    ChunksOf(denied, ["b", "**"]);
    assert ClassMatches(denied, target);
  }
}
