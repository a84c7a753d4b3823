/**
 * Step definitions, their configurations and the plan records
 * (bsag/_types.py). A configuration is kept as the raw settings map a step
 * receives; what the config class declares becomes an explicit field set.
 */
module StepTypes {
  import opened Wrappers

  /** A configuration value as it comes out of the YAML files. */
  datatype Value =
    | VBool(b: bool)
    | VInt(i: int)
    | VReal(x: real)
    | VStr(s: string)
    | VList(items: seq<Value>)
    | VMap(entries: map<string, Value>)
    | VNone

  type Settings = map<string, Value>

  /** pydantic's `PositiveInt`, as config fields declare it. */
  type PositiveInt = n: int | n > 0 witness 1

  /** The field every step configuration declares (`BaseStepConfig`). */
  const HALT_ON_FAIL := "halt_on_fail"

  /** How a step definition derives its student-facing display name from its configuration. */
  datatype DisplayRule =
    | NameDefault
    | Fixed(text: string)
    | FieldText(field: string, fallback: string)
    | PrefixedField(prefix: string, field: string)

  /** A field validator a config class adds to the key check. */
  datatype ConfigCheck =
    | NoCheck
      /** `halt_on_fail` set together with a non-empty `score_decay` is rejected. */
    | HaltExcludesDecay

  /**
   * A step definition: its unique name, the fields its config class declares
   * on top of `halt_on_fail`, the fields it requires, its display rule and
   * the validator its config class adds.
   */
  datatype StepDef = StepDef(
    name: string, ownFields: set<string>, required: set<string>, display: DisplayRule, check: ConfigCheck)
  {
    /** Every field the config class accepts. */
    function Fields(): (f: set<string>)
      ensures HALT_ON_FAIL in f && ownFields <= f
      ensures forall k :: k in f ==> k in ownFields || k == HALT_ON_FAIL
    {
      ownFields + {HALT_ON_FAIL}
    }
  }

  /** `score_decay` is given as a non-empty mapping: a truthy value once it is a dict. */
  predicate DecayGiven(cfg: Settings) {
    "score_decay" in cfg && cfg["score_decay"].VMap? && cfg["score_decay"].entries != map[]
  }

  /** The lateness rule: halting on failure and a given score decay exclude each other. */
  predicate HaltAllowsDecay(haltOnFail: bool, decayGiven: bool) {
    !(haltOnFail && decayGiven)
  }

  /**
   * A validator on the settings. pydantic runs a field's validator only when
   * the field is given, and a `score_decay` left out is the empty default.
   */
  predicate ChecksPass(c: ConfigCheck, cfg: Settings) {
    match c
    case NoCheck => true
    case HaltExcludesDecay => HaltAllowsDecay(HaltOnFail(cfg), DecayGiven(cfg))
  }

  /**
   * `parse_obj` on a config class that forbids extra fields: the settings
   * are accepted iff every key is a declared field, every required field is
   * present and the class's validator passes.
   */
  predicate Validate(d: StepDef, cfg: Settings)
    ensures Validate(d, cfg) ==> cfg.Keys <= d.Fields() && d.required <= cfg.Keys
    ensures (exists k :: k in cfg && k !in d.Fields()) ==> !Validate(d, cfg)
    ensures !(d.required <= cfg.Keys) ==> !Validate(d, cfg)
    ensures d.check == HaltExcludesDecay && HaltOnFail(cfg) && DecayGiven(cfg) ==> !Validate(d, cfg)
    ensures d.check == NoCheck ==> (Validate(d, cfg) <==> cfg.Keys <= d.Fields() && d.required <= cfg.Keys)
  {
    cfg.Keys <= d.Fields() && d.required <= cfg.Keys && ChecksPass(d.check, cfg)
  }

  /** `config.halt_on_fail`: false unless the settings set it to true. */
  function HaltOnFail(cfg: Settings): (r: bool)
    ensures r ==> HALT_ON_FAIL in cfg
    ensures HALT_ON_FAIL !in cfg ==> !r
  {
    HALT_ON_FAIL in cfg && cfg[HALT_ON_FAIL] == VBool(true)
  }

  /** `display_name(config)`: the default one returns `name()`. */
  function DisplayNameOf(d: StepDef, cfg: Settings): (r: string)
    ensures d.display.NameDefault? ==> r == d.name
    ensures d.display.Fixed? ==> r == d.display.text
    ensures d.display.PrefixedField? ==> d.display.prefix <= r
  {
    match d.display
    case NameDefault => d.name
    case Fixed(t) => t
    case FieldText(f, fallback) =>
      if f in cfg && cfg[f].VStr? then cfg[f].s else fallback
    case PrefixedField(p, f) =>
      p + (if f in cfg && cfg[f].VStr? then cfg[f].s else "")
  }

  /** `StepWithConfig`: a step definition paired with its settings. */
  datatype PlanEntry = PlanEntry(step: StepDef, config: Settings)
  {
    /** Forwards to the definition. */
    function Name(): string
    {
      step.name
    }

    /** Forwards to the definition with the stored settings. */
    function DisplayName(): string
    {
      DisplayNameOf(step, config)
    }

    /** `config.halt_on_fail` of the stored settings. */
    function Halts(): bool
    {
      HaltOnFail(config)
    }
  }

  /** How a step's `run` ended: with a boolean, or with an exception (a missing data key, say). */
  datatype RunResult = Returned(ok: bool) | Raised

  /** An execution-plan entry as written: a bare name, or a mapping from name to settings. */
  datatype RawEntry = Bare(name: string) | Keyed(entries: map<string, Settings>)

  /** `ConfigPreDiscoveryYaml`. */
  datatype PreDiscovery = PreDiscovery(
    sharedParameters: Settings,
    executionPlan: seq<RawEntry>,
    teardownPlan: seq<RawEntry>)

  /** `GlobalConfig`. */
  datatype GlobalConfig = GlobalConfig(sharedParameters: Settings, globalSettings: map<string, Settings>)

  /** `RunConfig`. */
  datatype RunConfig = RunConfig(executionPlan: seq<PlanEntry>, teardownPlan: seq<PlanEntry>)

  const EmptyPreDiscovery := PreDiscovery(map[], [], [])
  const EmptyGlobalConfig := GlobalConfig(map[], map[])
  const EmptyRunConfig := RunConfig([], [])

  // The step definitions of BSAG and their config classes.

  const SubInfoStep := StepDef("gradescope.sub_info", {"submission_metatada_path"}, {}, Fixed("Submission Metadata"), NoCheck)
  const LatenessStep := StepDef(
    "gradescope.lateness", {"grace_period", "score_decay", "min_lateness_score"}, {}, Fixed("Lateness"), HaltExcludesDecay)
  const LimitVelocityStep := StepDef(
    "gradescope.limit_velocity", {"time_zone", "time_format", "ignore_scores_below", "windows"}, {"windows"},
    Fixed("Limit Velocity"), NoCheck)
  const ResultsStep := StepDef("gradescope.results", {"round_tests_to_digits", "output_path"}, {}, Fixed("Results"), NoCheck)
  const DisplayMessageStep := StepDef(
    "display_message", {"title", "text", "result"}, {"title", "text"}, FieldText("title", ""), NoCheck)
  const RunCommandStep := StepDef(
    "common.run_command",
    {"display_name", "command", "working_dir", "command_timeout", "points", "show_output",
     "output_visibility", "output_format", "shell"},
    {"command"}, FieldText("display_name", "No Name"), NoCheck)
  const FinalScoreStep := StepDef(
    "jh61b.final_score", {"max_points", "scoring", "scale_factor", "penalties"}, {"max_points", "scoring"},
    Fixed("Final Score"), NoCheck)
  const AssessmentStep := StepDef(
    "jh61b.assessment",
    {"grader_root", "submission_root", "piece_name", "java_options", "command_timeout", "require_full_score",
     "aggregated_number"},
    {"grader_root", "submission_root", "piece_name"}, PrefixedField("Assessment ", "piece_name"), NoCheck)
  const CheckFilesStep := StepDef(
    "jh61b.check_files", {"grader_root", "submission_root", "pieces"}, {"grader_root", "submission_root", "pieces"},
    Fixed("File Checking"), NoCheck)
  const CompilationStep := StepDef(
    "jh61b.compilation", {"grader_root", "submission_root", "compile_flags", "command_timeout"},
    {"grader_root", "submission_root"}, Fixed("Compilation"), NoCheck)
  const DepCheckStep := StepDef(
    "jh61b.dep_check",
    {"grader_root", "submission_root", "allowed_classes", "disallowed_classes", "command_timeout"},
    {"grader_root", "submission_root"}, Fixed("Illegal Dependency Check"), NoCheck)

  /** The definitions BSAG's own plugin hook contributes. */
  const BuiltinSteps := [SubInfoStep, LatenessStep, LimitVelocityStep, ResultsStep, DisplayMessageStep, RunCommandStep]

  /** The jh61b definitions, which a caller passes in as its own step definitions. */
  const Jh61bSteps := [CheckFilesStep, CompilationStep, AssessmentStep, DepCheckStep, FinalScoreStep]

  /**
   * Every step config accepts `halt_on_fail`, and leaving it out means
   * false. Setting it is refused only by the lateness validator, when a
   * non-empty `score_decay` is given.
   */
  lemma HaltOnFailDeclaredEverywhere(d: StepDef, cfg: Settings)
    requires Validate(d, cfg)
    ensures Validate(d, cfg[HALT_ON_FAIL := VBool(false)])
    ensures Validate(d, cfg[HALT_ON_FAIL := VBool(true)]) <==> !(d.check == HaltExcludesDecay && DecayGiven(cfg))
    ensures HALT_ON_FAIL !in cfg ==> !HaltOnFail(cfg)
  {
  }

  /** The display-message step shows its configured title. */
  lemma DisplayMessageTitle(cfg: Settings, title: string)
    requires "title" in cfg && cfg["title"] == VStr(title)
    ensures DisplayNameOf(DisplayMessageStep, cfg) == title
  {
  }

  /** The assessment step is shown as "Assessment " followed by its piece name. */
  lemma AssessmentDisplayName(cfg: Settings, piece: string)
    requires "piece_name" in cfg && cfg["piece_name"] == VStr(piece)
    ensures DisplayNameOf(AssessmentStep, cfg) == "Assessment " + piece
  {
  }
}
