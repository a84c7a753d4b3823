/**
 * The pipeline engine (bsag/bsag.py): the step registry, the resolution of
 * the YAML plans into configured steps, and the executor that runs the
 * execution plan and then the teardown plan.
 *
 * The executor does not call the step models: each step invocation is
 * given as the log calls it makes and how its `run` ended.
 */
module Engine {
  import opened Wrappers
  import opened Logging
  import opened StepTypes
  import opened Context

  // ---------------------------------------------------------------- registry

  type Registry = map<string, StepDef>

  function Names(defs: seq<StepDef>): set<string> {
    set d | d in defs :: d.name
  }

  /** No later definition in `defs` has the same name as `defs[i]`. */
  predicate LastOfName(defs: seq<StepDef>, i: int)
    requires 0 <= i < |defs|
  {
    forall j :: i < j < |defs| ==> defs[j].name != defs[i].name
  }

  /** Adding `defs` to `reg` one after the other by name: every name ends up registered. */
  function Register(reg: Registry, defs: seq<StepDef>): (r: Registry)
    ensures r.Keys == reg.Keys + Names(defs)
  {
    if defs == [] then reg
    else
      var init := defs[..|defs| - 1];
      var last := defs[|defs| - 1];
      assert Names(defs) == Names(init) + {last.name} by {
        assert defs == init + [last];
      }
      Register(reg, init)[last.name := last]
  }

  /** The last definition of a name is the one registered under it. */
  lemma {:induction false} RegisterLastWins(reg: Registry, defs: seq<StepDef>, i: int)
    requires 0 <= i < |defs| && LastOfName(defs, i)
    ensures Register(reg, defs)[defs[i].name] == defs[i]
  {
    var init := defs[..|defs| - 1];
    if i < |defs| - 1 {
      assert init[i] == defs[i];
      assert LastOfName(init, i) by {
        forall j | i < j < |init|
          ensures init[j].name != init[i].name
        {
          assert init[j] == defs[j];
        }
      }
      RegisterLastWins(reg, init, i);
    }
  }

  /** A name that `defs` does not mention keeps its earlier definition. */
  lemma {:induction false} RegisterKeeps(reg: Registry, defs: seq<StepDef>, n: string)
    requires n in reg && n !in Names(defs)
    ensures Register(reg, defs)[n] == reg[n]
  {
    if defs != [] {
      var init := defs[..|defs| - 1];
      assert defs[|defs| - 1] in defs;
      assert Names(init) <= Names(defs) by {
        forall d | d in init
          ensures d in defs
        {
          assert defs == init + [defs[|defs| - 1]];
        }
      }
      RegisterKeeps(reg, init, n);
    }
  }

  /** Every definition is registered under its own name. */
  predicate KeyedByName(reg: Registry) {
    forall n :: n in reg ==> reg[n].name == n
  }

  lemma {:induction false} RegisterKeyedByName(reg: Registry, defs: seq<StepDef>)
    requires KeyedByName(reg)
    ensures KeyedByName(Register(reg, defs))
  {
    if defs != [] {
      RegisterKeyedByName(reg, defs[..|defs| - 1]);
    }
  }

  function Flatten(lists: seq<seq<StepDef>>): (r: seq<StepDef>)
    ensures forall d :: d in r <==> exists i :: 0 <= i < |lists| && d in lists[i]
  {
    if lists == [] then [] else lists[0] + Flatten(lists[1..])
  }

  /**
   * `{m.name(): m for m in plugin_steps + step_defs}`, where the plugin steps
   * are the concatenated answers of the plugin hook.
   */
  function BuildRegistry(hookResults: seq<seq<StepDef>>, stepDefs: seq<StepDef>): (r: Registry)
    ensures r.Keys == Names(Flatten(hookResults)) + Names(stepDefs)
    ensures KeyedByName(r)
  {
    var all := Flatten(hookResults) + stepDefs;
    assert Names(all) == Names(Flatten(hookResults)) + Names(stepDefs);
    RegisterKeyedByName(map[], all);
    Register(map[], all)
  }

  /** A step definition the caller passes in overrides a plugin's definition of the same name. */
  lemma CallerStepsOverridePlugins(hookResults: seq<seq<StepDef>>, stepDefs: seq<StepDef>, i: int)
    requires 0 <= i < |stepDefs| && LastOfName(stepDefs, i)
    ensures BuildRegistry(hookResults, stepDefs)[stepDefs[i].name] == stepDefs[i]
  {
    var plugins := Flatten(hookResults);
    var all := plugins + stepDefs;
    var k := |plugins| + i;
    assert all[k] == stepDefs[i];
    forall j | k < j < |all|
      ensures all[j].name != all[k].name
    {
      assert all[j] == stepDefs[j - |plugins|];
    }
    RegisterLastWins(map[], all, k);
  }

  /** A plugin definition is in effect when no caller definition and no later plugin definition has its name. */
  lemma PluginStepKept(hookResults: seq<seq<StepDef>>, stepDefs: seq<StepDef>, i: int)
    requires 0 <= i < |Flatten(hookResults)| && LastOfName(Flatten(hookResults), i)
    requires Flatten(hookResults)[i].name !in Names(stepDefs)
    ensures BuildRegistry(hookResults, stepDefs)[Flatten(hookResults)[i].name] == Flatten(hookResults)[i]
  {
    var plugins := Flatten(hookResults);
    var all := plugins + stepDefs;
    assert all[i] == plugins[i];
    forall j | i < j < |all|
      ensures all[j].name != all[i].name
    {
      if j >= |plugins| {
        assert all[j] == stepDefs[j - |plugins|];
        assert all[j] in stepDefs;
      }
    }
    RegisterLastWins(map[], all, i);
  }

  // ------------------------------------------------------------ plan loading

  /** Why loading the configuration stops the program before any step runs. */
  datatype ConfigError =
    | Malformed(entry: RawEntry)
    | UnknownStep(name: string, available: set<string>)
    | Invalid(name: string, settings: Settings)

  lemma SingleKey<V>(m: map<string, V>, a: string, b: string)
    requires |m.Keys| == 1 && a in m && b in m
    ensures a == b
  {
    var rest := m.Keys - {a};
    assert |rest| == 0;
    assert b !in rest;
  }

  /**
   * The shape of one plan entry: a bare name stands for that step with no
   * override; a mapping with exactly one key is that step with that override;
   * anything else is malformed.
   */
  function EntryShape(e: RawEntry): (r: Result<(string, Settings), ConfigError>)
    ensures e.Bare? ==> r == Ok((e.name, map[]))
    ensures e.Keyed? ==> (r.Ok? <==> |e.entries.Keys| == 1)
    ensures e.Keyed? && r.Ok? ==> e.entries.Keys == {r.value.0} && r.value.1 == e.entries[r.value.0]
    ensures r.Err? ==> r.error == Malformed(e)
  {
    match e
    case Bare(n) => Ok((n, map[]))
    case Keyed(m) =>
      if |m.Keys| == 1 then
        var k :| k in m;
        assert forall b :: b in m ==> b == k by {
          forall b | b in m
            ensures b == k
          {
            SingleKey(m, k, b);
          }
        }
        assert m.Keys == {k};
        Ok((k, m[k]))
      else
        Err(Malformed(e))
  }

  /**
   * `global_settings.get(name, {}) | local`: the step's global settings
   * under its local override, which wins on a shared key.
   */
  function Layered(global: GlobalConfig, name: string, local: Settings): (r: Settings)
    ensures forall k :: k in r <==> k in local || (name in global.globalSettings && k in global.globalSettings[name])
    ensures forall k :: k in local ==> r[k] == local[k]
    ensures forall k :: k in r && k !in local ==> r[k] == global.globalSettings[name][k]
  {
    (if name in global.globalSettings then global.globalSettings[name] else map[]) + local
  }

  /**
   * The settings after merging the shared parameters: a shared parameter is
   * added iff the step declares it and the settings do not already set it.
   */
  function WithShared(cfg: Settings, shared: Settings, fields: set<string>): (r: Settings)
    ensures forall k :: k in r <==> k in cfg || (k in shared && k in fields)
    ensures forall k :: k in cfg ==> r[k] == cfg[k]
    ensures forall k :: k in r && k !in cfg ==> r[k] == shared[k]
  {
    map k | k in cfg.Keys + (shared.Keys * fields) :: if k in cfg then cfg[k] else shared[k]
  }

  /** The loop over the shared parameters that adds the relevant ones to a step's settings. */
  method MergeSharedParameters(cfg: Settings, shared: Settings, fields: set<string>) returns (merged: Settings)
    ensures merged == WithShared(cfg, shared, fields)
  {
    merged := cfg;
    var todo := shared.Keys;
    while todo != {}
      invariant todo <= shared.Keys
      invariant forall k :: k in merged <==> k in cfg || (k in shared && k !in todo && k in fields)
      invariant forall k :: k in merged ==> merged[k] == if k in cfg then cfg[k] else shared[k]
      decreases todo
    {
      var k :| k in todo;
      if k in fields && k !in merged {
        merged := merged[k := shared[k]];
      }
      todo := todo - {k};
    }
    var w := WithShared(cfg, shared, fields);
    assert merged.Keys == w.Keys;
  }

  /**
   * One plan entry resolved against the registry and the global
   * configuration: the step it names, with its settings layered and
   * checked against the step's config class.
   */
  function ResolveEntry(reg: Registry, global: GlobalConfig, e: RawEntry): Result<PlanEntry, ConfigError> {
    match EntryShape(e)
    case Err(err) => Err(err)
    case Ok((name, local)) =>
      if name !in reg then Err(UnknownStep(name, reg.Keys))
      else
        var d := reg[name];
        var cfg := WithShared(Layered(global, name, local), global.sharedParameters, d.Fields());
        if Validate(d, cfg) then Ok(PlanEntry(d, cfg)) else Err(Invalid(name, cfg))
  }

  /**
   * A malformed entry and an unknown step name are reported as such; a
   * resolved entry names a registered step, its settings pass the step's
   * validation and keep every key of the entry's own override.
   */
  lemma ResolveEntryChecked(reg: Registry, global: GlobalConfig, e: RawEntry)
    ensures var r := ResolveEntry(reg, global, e);
      && (EntryShape(e).Err? ==> r == Err(Malformed(e)))
      && (EntryShape(e).Ok? && EntryShape(e).value.0 !in reg ==> r == Err(UnknownStep(EntryShape(e).value.0, reg.Keys)))
      && (r.Ok? ==> EntryShape(e).Ok? && EntryShape(e).value.0 in reg && r.value.step == reg[EntryShape(e).value.0])
      && (r.Ok? ==> Validate(r.value.step, r.value.config) && ChecksPass(r.value.step.check, r.value.config))
      && (r.Ok? ==> forall k :: k in EntryShape(e).value.1 ==>
                      k in r.value.config && r.value.config[k] == EntryShape(e).value.1[k])
  {
  }
  /**
   * The config validator runs at resolution: an entry naming a step with
   * the lateness validator, whose own settings set `halt_on_fail` and a
   * non-empty `score_decay`, is rejected as invalid.
   */
  lemma HaltWithDecayRejected(reg: Registry, global: GlobalConfig, e: RawEntry)
    requires EntryShape(e).Ok? && EntryShape(e).value.0 in reg
    requires reg[EntryShape(e).value.0].check == HaltExcludesDecay
    requires HaltOnFail(EntryShape(e).value.1) && DecayGiven(EntryShape(e).value.1)
    ensures ResolveEntry(reg, global, e).Err? && ResolveEntry(reg, global, e).error.Invalid?
  {
    var (name, local) := EntryShape(e).value;
    var d := reg[name];
    var cfg := WithShared(Layered(global, name, local), global.sharedParameters, d.Fields());
    assert cfg[HALT_ON_FAIL] == local[HALT_ON_FAIL] && cfg["score_decay"] == local["score_decay"];
  }


  /** The outcomes in order, stopping at the first error: all the values if there is none. */
  function FirstError<T, E>(rs: seq<Result<T, E>>): (r: Result<seq<T>, E>)
    ensures r.Ok? ==> |r.value| == |rs|
  {
    if rs == [] then Ok([])
    else
      match FirstError(rs[..|rs| - 1])
      case Err(err) => Err(err)
      case Ok(values) =>
        match rs[|rs| - 1]
        case Err(err) => Err(err)
        case Ok(v) => Ok(values + [v])
  }

  /** Without an error, every outcome is the value at its position. */
  lemma {:induction false} FirstErrorOk<T, E>(rs: seq<Result<T, E>>)
    ensures FirstError(rs).Ok? ==> forall i :: 0 <= i < |rs| ==> rs[i] == Ok(FirstError(rs).value[i])
  {
    if rs != [] {
      var n := |rs| - 1;
      FirstErrorOk(rs[..n]);
      if FirstError(rs).Ok? {
        var values := FirstError(rs[..n]).value;
        assert FirstError(rs).value == values + [rs[n].value];
        forall i | 0 <= i < n
          ensures rs[i] == Ok(FirstError(rs).value[i])
        {
          assert rs[..n][i] == rs[i];
        }
      }
    }
  }

  /** An error is the one of the first outcome that is an error. */
  lemma {:induction false} FirstErrorErr<T, E>(rs: seq<Result<T, E>>)
    ensures FirstError(rs).Err? ==> exists i :: 0 <= i < |rs| && rs[i] == Err(FirstError(rs).error) &&
                                              forall j :: 0 <= j < i ==> rs[j].Ok?
  {
    if rs != [] {
      var n := |rs| - 1;
      var init := rs[..n];
      assert forall j :: 0 <= j < n ==> init[j] == rs[j];
      if FirstError(init).Err? {
        FirstErrorErr(init);
        var i :| 0 <= i < n && init[i] == Err(FirstError(init).error) && forall j :: 0 <= j < i ==> init[j].Ok?;
        assert rs[i] == Err(FirstError(rs).error);
      } else if FirstError(rs).Err? {
        FirstErrorOk(init);
        assert rs[n] == Err(FirstError(rs).error);
      }
    }
  }

  /** One more outcome: an earlier error stays, otherwise its error ends the run or its value joins the rest. */
  lemma FirstErrorStep<T, E>(rs: seq<Result<T, E>>, x: Result<T, E>)
    ensures FirstError(rs + [x]) ==
            match FirstError(rs)
            case Err(err) => Err(err)
            case Ok(values) => (match x case Err(err) => Err(err) case Ok(v) => Ok(values + [v]))
  {
    assert (rs + [x])[..|rs|] == rs;
  }

  /** Once a prefix holds an error, the whole sequence ends with that error. */
  lemma {:induction false} FirstErrorPropagates<T, E>(rs: seq<Result<T, E>>, n: nat)
    requires n <= |rs| && FirstError(rs[..n]).Err?
    ensures FirstError(rs) == FirstError(rs[..n])
    decreases |rs| - n
  {
    if n < |rs| {
      assert rs[..n + 1] == rs[..n] + [rs[n]];
      FirstErrorStep(rs[..n], rs[n]);
      FirstErrorPropagates(rs, n + 1);
    } else {
      assert rs[..n] == rs;
    }
  }

  /** Each entry of a plan, resolved on its own. */
  function Resolutions(reg: Registry, global: GlobalConfig, source: seq<RawEntry>): (rs: seq<Result<PlanEntry, ConfigError>>)
    ensures |rs| == |source|
    ensures forall i :: 0 <= i < |source| ==> rs[i] == ResolveEntry(reg, global, source[i])
  {
    seq(|source|, i requires 0 <= i < |source| => ResolveEntry(reg, global, source[i]))
  }

  /**
   * A whole plan: the entries resolved in order; the first entry that does
   * not resolve decides the error.
   */
  function ResolvePlan(reg: Registry, global: GlobalConfig, source: seq<RawEntry>): (r: Result<seq<PlanEntry>, ConfigError>)
    ensures r.Ok? ==> |r.value| == |source|
  {
    FirstError(Resolutions(reg, global, source))
  }

  /**
   * The resolved plan has one configured step per entry, in order,
   * duplicates kept; it fails iff some entry fails, and then with the error
   * of the first entry that fails.
   */
  lemma ResolvePlanEntries(reg: Registry, global: GlobalConfig, source: seq<RawEntry>)
    ensures var r := ResolvePlan(reg, global, source);
      && (r.Ok? <==> forall i :: 0 <= i < |source| ==> ResolveEntry(reg, global, source[i]).Ok?)
      && (r.Ok? ==> forall i :: 0 <= i < |source| ==> ResolveEntry(reg, global, source[i]) == Ok(r.value[i]))
      && (r.Err? ==> exists i :: 0 <= i < |source| && ResolveEntry(reg, global, source[i]) == Err(r.error) &&
                      forall j :: 0 <= j < i ==> ResolveEntry(reg, global, source[j]).Ok?)
  {
    var rs := Resolutions(reg, global, source);
    FirstErrorOk(rs);
    FirstErrorErr(rs);
    if FirstError(rs).Err? {
      var i :| 0 <= i < |rs| && rs[i] == Err(FirstError(rs).error) && forall j :: 0 <= j < i ==> rs[j].Ok?;
      assert !rs[i].Ok?;
    }
  }

  /** The body of the loop of `_process_step_plan`: one entry checked and configured. */
  method ResolveOne(reg: Registry, global: GlobalConfig, e: RawEntry) returns (r: Result<PlanEntry, ConfigError>)
    ensures r == ResolveEntry(reg, global, e)
  {
    var shape := EntryShape(e);
    if shape.Err? {
      return Err(shape.error);
    }
    var (name, local) := shape.value;
    if name !in reg {
      return Err(UnknownStep(name, reg.Keys));
    }
    var d := reg[name];
    var cfg := MergeSharedParameters(Layered(global, name, local), global.sharedParameters, d.Fields());
    if !Validate(d, cfg) {
      return Err(Invalid(name, cfg));
    }
    r := Ok(PlanEntry(d, cfg));
  }

  /** `_process_step_plan`: resolves the entries one after the other, stopping at the first bad one. */
  method ProcessStepPlan(reg: Registry, global: GlobalConfig, source: seq<RawEntry>)
    returns (r: Result<seq<PlanEntry>, ConfigError>)
    ensures r == ResolvePlan(reg, global, source)
  {
    var plan: seq<PlanEntry> := [];
    var i := 0;
    while i < |source|
      invariant 0 <= i <= |source|
      invariant ResolvePlan(reg, global, source[..i]) == Ok(plan)
    {
      ResolveStep(reg, global, source, i, plan);
      var entry := ResolveOne(reg, global, source[i]);
      if entry.Err? {
        r := Err(entry.error);
        PlanErrorPropagates(reg, global, source, i + 1);
        return;
      }
      plan := plan + [entry.value];
      i := i + 1;
    }
    assert source[..i] == source;
    r := Ok(plan);
  }

  /** Resolving one more entry: its error ends the plan, its step joins the plan. */
  lemma ResolveStep(reg: Registry, global: GlobalConfig, source: seq<RawEntry>, i: nat, plan: seq<PlanEntry>)
    requires i < |source| && ResolvePlan(reg, global, source[..i]) == Ok(plan)
    ensures ResolvePlan(reg, global, source[..i + 1]) ==
            match ResolveEntry(reg, global, source[i])
            case Err(err) => Err(err)
            case Ok(entry) => Ok(plan + [entry])
  {
    var rs := Resolutions(reg, global, source[..i]);
    assert Resolutions(reg, global, source[..i + 1]) == rs + [ResolveEntry(reg, global, source[i])];
    FirstErrorStep(rs, ResolveEntry(reg, global, source[i]));
  }

  /** Once a prefix of the plan fails, the whole plan fails with the same error. */
  lemma PlanErrorPropagates(reg: Registry, global: GlobalConfig, source: seq<RawEntry>, n: nat)
    requires n <= |source|
    requires ResolvePlan(reg, global, source[..n]).Err?
    ensures ResolvePlan(reg, global, source) == ResolvePlan(reg, global, source[..n])
  {
    var rs := Resolutions(reg, global, source);
    assert rs[..n] == Resolutions(reg, global, source[..n]);
    FirstErrorPropagates(rs, n);
  }

  /** `shared_parameters |= ...`: the run configuration's shared parameters override the global ones. */
  function MergedGlobal(global: GlobalConfig, pre: PreDiscovery): (g: GlobalConfig)
    ensures g.globalSettings == global.globalSettings
    ensures g.sharedParameters.Keys == global.sharedParameters.Keys + pre.sharedParameters.Keys
    ensures forall k :: k in pre.sharedParameters ==> g.sharedParameters[k] == pre.sharedParameters[k]
    ensures forall k :: k in global.sharedParameters && k !in pre.sharedParameters ==>
              g.sharedParameters[k] == global.sharedParameters[k]
  {
    global.(sharedParameters := global.sharedParameters + pre.sharedParameters)
  }

  /**
   * `_load_yaml_config` after parsing: merges the shared parameters into the
   * global configuration, then resolves the execution plan and the teardown
   * plan; the first error stops the program.
   */
  method LoadRunConfig(reg: Registry, global: GlobalConfig, pre: PreDiscovery)
    returns (r: Result<(GlobalConfig, RunConfig), ConfigError>)
    ensures var g := MergedGlobal(global, pre);
      var exec := ResolvePlan(reg, g, pre.executionPlan);
      var tear := ResolvePlan(reg, g, pre.teardownPlan);
      && (r.Ok? <==> exec.Ok? && tear.Ok?)
      && (r.Ok? ==> r.value == (g, RunConfig(exec.value, tear.value)))
      && (exec.Err? ==> r == Err(exec.error))
      && (exec.Ok? && tear.Err? ==> r == Err(tear.error))
  {
    var g := MergedGlobal(global, pre);
    var exec := ProcessStepPlan(reg, g, pre.executionPlan);
    if exec.Err? {
      return Err(exec.error);
    }
    var tear := ProcessStepPlan(reg, g, pre.teardownPlan);
    if tear.Err? {
      return Err(tear.error);
    }
    r := Ok((g, RunConfig(exec.value, tear.value)));
  }

  // ---------------------------------------------------------------- executor

  /** One call on a bound logger. */
  datatype LogCall = LogCall(vis: Option<Visibility>, text: string)

  /**
   * What one invocation of a step did that the executor can see: its log
   * calls, the scores it wrote into step logs by position (the only such
   * write is `final_score`'s penalties), and how `run` ended.
   */
  datatype StepRun = StepRun(messages: seq<LogCall>, scores: map<nat, real>, result: RunResult)

  /** How a plan ended: every step ran, or a step halted it, or a step raised. */
  datatype PlanEnd = Completed | Halted(at: nat) | Crashed(at: nat)

  /** Whether the plan stops after this step: it raised, or it failed and halts on failure. */
  predicate Stops(e: PlanEntry, run: StepRun) {
    run.result.Raised? || (run.result == Returned(false) && e.Halts())
  }

  /** The chunks the student sink writes for the calls that reach it, in order. */
  function StudentTexts(msgs: seq<LogCall>): (r: seq<string>)
    ensures |r| <= |msgs|
  {
    if msgs == [] then []
    else
      var init := msgs[..|msgs| - 1];
      var last := msgs[|msgs| - 1];
      StudentTexts(init) + if StudentFilter(last.vis) then [StudentChunk(last.text)] else []
  }

  /** The texts of the calls that reach the staff sink, in order. */
  function PrivateTexts(msgs: seq<LogCall>): (r: seq<string>)
    ensures |r| <= |msgs|
  {
    if msgs == [] then []
    else
      var init := msgs[..|msgs| - 1];
      var last := msgs[|msgs| - 1];
      PrivateTexts(init) + if PrivateFilter(last.vis) then [last.text] else []
  }

  /** The student sink writes a chunk exactly for the calls bound with the student bit. */
  lemma {:induction false} StudentTextsFiltered(msgs: seq<LogCall>)
    ensures forall m :: m in msgs && StudentFilter(m.vis) ==> StudentChunk(m.text) in StudentTexts(msgs)
    ensures forall t :: t in StudentTexts(msgs) ==> exists m :: m in msgs && StudentFilter(m.vis) && StudentChunk(m.text) == t
  {
    if msgs != [] {
      var init := msgs[..|msgs| - 1];
      StudentTextsFiltered(init);
      assert msgs == init + [msgs[|msgs| - 1]];
    }
  }

  /** The staff sink receives exactly the texts of the calls bound with the private bit. */
  lemma {:induction false} PrivateTextsFiltered(msgs: seq<LogCall>)
    ensures forall m :: m in msgs && PrivateFilter(m.vis) ==> m.text in PrivateTexts(msgs)
    ensures forall t :: t in PrivateTexts(msgs) ==> exists m :: m in msgs && PrivateFilter(m.vis) && m.text == t
  {
    if msgs != [] {
      var init := msgs[..|msgs| - 1];
      PrivateTextsFiltered(init);
      assert msgs == init + [msgs[|msgs| - 1]];
    }
  }

  /** One more call adds its text to each sink whose filter passes it. */
  lemma TextsStep(msgs: seq<LogCall>, j: nat)
    requires j < |msgs|
    ensures StudentTexts(msgs[..j + 1]) == StudentTexts(msgs[..j]) + if StudentFilter(msgs[j].vis) then [StudentChunk(msgs[j].text)] else []
    ensures PrivateTexts(msgs[..j + 1]) == PrivateTexts(msgs[..j]) + if PrivateFilter(msgs[j].vis) then [msgs[j].text] else []
  {
    assert msgs[..j + 1][..j] == msgs[..j];
  }

  /** Replays a step's log calls on the context, with its step log last in the list. */
  method Replay(io: Bsagio, msgs: seq<LogCall>)
    requires |io.stepLogs| > 0
    modifies io`stepLogs, io`privateLog
    ensures io.stepLogs == WithChunks(old(io.stepLogs), StudentTexts(msgs))
    ensures io.privateLog == old(io.privateLog) + PrivateTexts(msgs)
  {
    var j := 0;
    WithNoChunks(io.stepLogs);
    while j < |msgs|
      invariant 0 <= j <= |msgs|
      invariant io.stepLogs == WithChunks(old(io.stepLogs), StudentTexts(msgs[..j]))
      invariant io.privateLog == old(io.privateLog) + PrivateTexts(msgs[..j])
    {
      var m := msgs[j];
      ghost var sent := StudentTexts(msgs[..j]);
      ghost var printed := PrivateTexts(msgs[..j]);
      TextsStep(msgs, j);
      io.Emit(m.vis, m.text);
      if StudentFilter(m.vis) {
        AppendChunkExtends(old(io.stepLogs), sent, StudentChunk(m.text));
        assert io.stepLogs == WithChunks(old(io.stepLogs), sent + [StudentChunk(m.text)]);
      } else {
        assert sent + [] == sent;
      }
      if PrivateFilter(m.vis) {
        assert io.privateLog == old(io.privateLog) + (printed + [m.text]);
      } else {
        assert printed + [] == printed;
      }
      j := j + 1;
    }
    assert msgs[..j] == msgs;
  }

  /**
   * The step log a step leaves before any score is written into it: named
   * after the step, successful iff `run` returned true, holding what the step
   * sent to the student sink, with the default score 0.
   */
  function LogFor(e: PlanEntry, run: StepRun): (l: StepLog)
    ensures l.name == e.Name() && l.displayName == e.DisplayName()
    ensures l.success <==> run.result == Returned(true)
    ensures l.logChunks == StudentTexts(run.messages)
    ensures l.score == Some(0.0)
  {
    NewStepLog(e.Name(), e.DisplayName()).(success := run.result == Returned(true), logChunks := StudentTexts(run.messages))
  }

  /** The index of the first step that stops the plan, at or after `k`. */
  function FirstStopFrom(plan: seq<PlanEntry>, runs: seq<StepRun>, k: nat): (r: Option<nat>)
    requires |runs| == |plan| && k <= |plan|
    ensures r.Some? ==> k <= r.value < |plan| && Stops(plan[r.value], runs[r.value])
    ensures r.Some? ==> forall j :: k <= j < r.value ==> !Stops(plan[j], runs[j])
    ensures r.None? ==> forall j :: k <= j < |plan| ==> !Stops(plan[j], runs[j])
    decreases |plan| - k
  {
    if k == |plan| then None
    else if Stops(plan[k], runs[k]) then Some(k)
    else FirstStopFrom(plan, runs, k + 1)
  }

  function FirstStop(plan: seq<PlanEntry>, runs: seq<StepRun>): Option<nat>
    requires |runs| == |plan|
  {
    FirstStopFrom(plan, runs, 0)
  }

  /** How many steps of the plan run: all of them, or up to and including the first that stops it. */
  function StepsRun(plan: seq<PlanEntry>, runs: seq<StepRun>): (n: nat)
    requires |runs| == |plan|
    ensures n <= |plan|
    ensures forall j :: 0 <= j < n - 1 ==> !Stops(plan[j], runs[j])
    ensures n < |plan| ==> n > 0 && Stops(plan[n - 1], runs[n - 1])
    ensures (forall j :: 0 <= j < |plan| ==> !Stops(plan[j], runs[j])) ==> n == |plan|
  {
    match FirstStop(plan, runs)
    case Some(i) => i + 1
    case None => |plan|
  }

  function EndOf(plan: seq<PlanEntry>, runs: seq<StepRun>): (end: PlanEnd)
    requires |runs| == |plan|
    ensures end.Completed? <==> forall j :: 0 <= j < |plan| ==> !Stops(plan[j], runs[j])
    ensures end.Halted? ==> end.at + 1 == StepsRun(plan, runs) && runs[end.at].result == Returned(false) &&
                            plan[end.at].Halts()
    ensures end.Crashed? ==> end.at + 1 == StepsRun(plan, runs) && runs[end.at].result.Raised?
  {
    match FirstStop(plan, runs)
    case Some(i) => if runs[i].result.Raised? then Crashed(i) else Halted(i)
    case None => Completed
  }

  /** The step logs of the first `n` steps, as pushed, before any score write. */
  function PlanLogs(plan: seq<PlanEntry>, runs: seq<StepRun>, n: nat): (r: seq<StepLog>)
    requires |runs| == |plan| && n <= |plan|
    ensures |r| == n
  {
    if n == 0 then [] else PlanLogs(plan, runs, n - 1) + [LogFor(plan[n - 1], runs[n - 1])]
  }

  /** Entry `i` of the plan's step logs is the log of step `i`. */
  lemma {:induction false} PlanLogsAt(plan: seq<PlanEntry>, runs: seq<StepRun>, n: nat, i: nat)
    requires |runs| == |plan| && i < n <= |plan|
    ensures PlanLogs(plan, runs, n)[i] == LogFor(plan[i], runs[i])
  {
    if i < n - 1 {
      PlanLogsAt(plan, runs, n - 1, i);
    }
  }

  /**
   * The step logs after the first `n` steps ran on top of `logs0`: each step
   * pushes its log and then writes its scores into the whole list.
   */
  function PlanState(logs0: seq<StepLog>, plan: seq<PlanEntry>, runs: seq<StepRun>, n: nat): (r: seq<StepLog>)
    requires |runs| == |plan| && n <= |plan|
    ensures |r| == |logs0| + n
  {
    if n == 0 then logs0
    else Rescored(PlanState(logs0, plan, runs, n - 1) + [LogFor(plan[n - 1], runs[n - 1])], runs[n - 1].scores)
  }

  /**
   * Score writes touch scores only: the logs after `n` steps are the starting
   * logs followed by the pushed logs, apart from scores, and a position no
   * step wrote keeps its log exactly.
   */
  lemma {:induction false} PlanStateShape(logs0: seq<StepLog>, plan: seq<PlanEntry>, runs: seq<StepRun>, n: nat)
    requires |runs| == |plan| && n <= |plan|
    ensures forall i :: 0 <= i < |logs0| + n ==>
              Unscored(PlanState(logs0, plan, runs, n)[i]) == Unscored((logs0 + PlanLogs(plan, runs, n))[i])
    ensures forall i :: 0 <= i < |logs0| + n && (forall j :: 0 <= j < n ==> i !in runs[j].scores) ==>
              PlanState(logs0, plan, runs, n)[i] == (logs0 + PlanLogs(plan, runs, n))[i]
  {
    if n > 0 {
      PlanStateShape(logs0, plan, runs, n - 1);
      var prev := PlanState(logs0, plan, runs, n - 1);
      var flat := logs0 + PlanLogs(plan, runs, n - 1);
      var log := LogFor(plan[n - 1], runs[n - 1]);
      var r := PlanState(logs0, plan, runs, n);
      assert r == Rescored(prev + [log], runs[n - 1].scores);
      assert logs0 + PlanLogs(plan, runs, n) == flat + [log];
      forall i | 0 <= i < |logs0| + n
        ensures Unscored(r[i]) == Unscored((flat + [log])[i])
        ensures (forall j :: 0 <= j < n ==> i !in runs[j].scores) ==> r[i] == (flat + [log])[i]
      {
        if i < |logs0| + n - 1 {
          assert (prev + [log])[i] == prev[i] && (flat + [log])[i] == flat[i];
        } else {
          assert (prev + [log])[i] == log == (flat + [log])[i];
        }
      }
    }
  }

  /** When no step writes a score, the plan only appends its step logs. */
  lemma {:induction false} NoScoresAppend(logs0: seq<StepLog>, plan: seq<PlanEntry>, runs: seq<StepRun>, n: nat)
    requires |runs| == |plan| && n <= |plan|
    requires forall j :: 0 <= j < n ==> runs[j].scores == map[]
    ensures PlanState(logs0, plan, runs, n) == logs0 + PlanLogs(plan, runs, n)
  {
    PlanStateShape(logs0, plan, runs, n);
  }

  /** What the first `n` steps printed to the staff sink. */
  function PlanPrivate(runs: seq<StepRun>, n: nat): seq<string>
    requires n <= |runs|
  {
    if n == 0 then [] else PlanPrivate(runs, n - 1) + PrivateTexts(runs[n - 1].messages)
  }

  /** One step of `execute_plan`: push its fresh log, run it, and record its success. */
  method RunStep(io: Bsagio, e: PlanEntry, run: StepRun)
    modifies io`stepLogs, io`privateLog
    ensures io.stepLogs == Rescored(old(io.stepLogs) + [LogFor(e, run)], run.scores)
    ensures io.privateLog == old(io.privateLog) + PrivateTexts(run.messages)
  {
    var before := io.stepLogs;
    var newLog := NewStepLog(e.Name(), e.DisplayName());
    io.stepLogs := before + [newLog];
    Replay(io, run.messages);
    assert (before + [newLog])[..|before|] == before;
    assert [] + StudentTexts(run.messages) == StudentTexts(run.messages);
    ghost var sent := before + [newLog.(logChunks := StudentTexts(run.messages))];
    assert io.stepLogs == sent;
    io.stepLogs := Rescored(io.stepLogs, run.scores);
    if run.result == Returned(true) {
      var n := |io.stepLogs| - 1;
      io.stepLogs := io.stepLogs[n := io.stepLogs[n].(success := true)];
    }
    ghost var pushed := before + [LogFor(e, run)];
    forall i | 0 <= i < |pushed|
      ensures io.stepLogs[i] == Rescored(pushed, run.scores)[i]
    {
      assert Unscored(Rescored(sent, run.scores)[i]) == Unscored(sent[i]);
      assert Unscored(Rescored(pushed, run.scores)[i]) == Unscored(pushed[i]);
    }
  }

  /**
   * The loop of `execute_plan`: for each step, pushes a fresh step log, runs
   * the step, and marks the log successful when `run` returned true; a step
   * that raises, or that fails while halting on failure, ends the loop, and
   * its index is returned.
   */
  method RunUntilStop(io: Bsagio, plan: seq<PlanEntry>, runs: seq<StepRun>) returns (stop: Option<nat>)
    requires |runs| == |plan|
    modifies io`stepLogs, io`privateLog
    ensures stop == FirstStop(plan, runs)
    ensures io.stepLogs == PlanState(old(io.stepLogs), plan, runs, StepsRun(plan, runs))
    ensures io.privateLog == old(io.privateLog) + PlanPrivate(runs, StepsRun(plan, runs))
  {
    var i := 0;
    while i < |plan|
      invariant 0 <= i <= |plan|
      invariant FirstStopFrom(plan, runs, i) == FirstStopFrom(plan, runs, 0)
      invariant io.stepLogs == PlanState(old(io.stepLogs), plan, runs, i)
      invariant io.privateLog == old(io.privateLog) + PlanPrivate(runs, i)
    {
      var e := plan[i];
      RunPlanStep(io, plan, runs, i, old(io.stepLogs), old(io.privateLog));
      if Stops(e, runs[i]) {
        RanThrough(plan, runs, i);
        return Some(i);
      }
      i := i + 1;
    }
    RanAll(plan, runs);
    stop := None;
  }

  /** A plan whose first stop is step `i` runs `i + 1` steps. */
  lemma RanThrough(plan: seq<PlanEntry>, runs: seq<StepRun>, i: nat)
    requires |runs| == |plan| && i < |plan|
    requires FirstStopFrom(plan, runs, 0) == Some(i)
    ensures FirstStop(plan, runs) == Some(i) && StepsRun(plan, runs) == i + 1
  {
  }

  /** A plan no step stops runs every step. */
  lemma RanAll(plan: seq<PlanEntry>, runs: seq<StepRun>)
    requires |runs| == |plan|
    requires FirstStopFrom(plan, runs, 0) == None
    ensures FirstStop(plan, runs) == None && StepsRun(plan, runs) == |plan|
  {
  }

  /**
   * `execute_plan`: runs the steps until one stops the plan; a step that
   * raised crashes the plan, one that failed while halting on failure halts it.
   */
  method ExecutePlan(io: Bsagio, plan: seq<PlanEntry>, runs: seq<StepRun>) returns (end: PlanEnd)
    requires |runs| == |plan|
    modifies io`stepLogs, io`privateLog
    ensures end == EndOf(plan, runs)
    ensures io.stepLogs == PlanState(old(io.stepLogs), plan, runs, StepsRun(plan, runs))
    ensures |io.stepLogs| == |old(io.stepLogs)| + StepsRun(plan, runs)
    ensures forall i :: 0 <= i < |io.stepLogs| ==>
              Unscored(io.stepLogs[i]) == Unscored((old(io.stepLogs) + PlanLogs(plan, runs, StepsRun(plan, runs)))[i])
    ensures io.privateLog == old(io.privateLog) + PlanPrivate(runs, StepsRun(plan, runs))
  {
    var stop := RunUntilStop(io, plan, runs);
    PlanStateShape(old(io.stepLogs), plan, runs, StepsRun(plan, runs));
    end := match stop
      case Some(i) => if runs[i].result.Raised? then Crashed(i) else Halted(i)
      case None => Completed;
  }

  /** Runs step `i` of a plan whose first `i` steps ran on top of `logs0` and `printed0`. */
  method RunPlanStep(io: Bsagio, plan: seq<PlanEntry>, runs: seq<StepRun>, i: nat,
                     ghost logs0: seq<StepLog>, ghost printed0: seq<string>)
    requires |runs| == |plan| && i < |plan|
    requires io.stepLogs == PlanState(logs0, plan, runs, i) && io.privateLog == printed0 + PlanPrivate(runs, i)
    modifies io`stepLogs, io`privateLog
    ensures io.stepLogs == PlanState(logs0, plan, runs, i + 1)
    ensures io.privateLog == printed0 + PlanPrivate(runs, i + 1)
  {
    ghost var logs, printed := io.stepLogs, io.privateLog;
    RunStep(io, plan[i], runs[i]);
    PlanStep(plan, runs, i, logs0, printed0, logs, printed);
  }

  /** After step `i` the context holds the logs and texts of the first `i + 1` steps. */
  lemma PlanStep(plan: seq<PlanEntry>, runs: seq<StepRun>, i: nat, logs0: seq<StepLog>, printed0: seq<string>,
                 logs: seq<StepLog>, printed: seq<string>)
    requires |runs| == |plan| && i < |plan|
    requires logs == PlanState(logs0, plan, runs, i) && printed == printed0 + PlanPrivate(runs, i)
    ensures Rescored(logs + [LogFor(plan[i], runs[i])], runs[i].scores) == PlanState(logs0, plan, runs, i + 1)
    ensures printed + PrivateTexts(runs[i].messages) == printed0 + PlanPrivate(runs, i + 1)
  {
  }


  lemma {:induction false} StopsAt(plan: seq<PlanEntry>, runs: seq<StepRun>, k: nat, i: nat)
    requires |runs| == |plan| && k <= i < |plan|
    requires forall j :: k <= j < i ==> !Stops(plan[j], runs[j])
    requires Stops(plan[i], runs[i])
    ensures FirstStopFrom(plan, runs, k) == Some(i)
    decreases i - k
  {
    if k < i {
      StopsAt(plan, runs, k + 1, i);
    }
  }

  lemma {:induction false} NeverStops(plan: seq<PlanEntry>, runs: seq<StepRun>, k: nat)
    requires |runs| == |plan| && k <= |plan|
    requires forall j :: k <= j < |plan| ==> !Stops(plan[j], runs[j])
    ensures FirstStopFrom(plan, runs, k) == None
    decreases |plan| - k
  {
    if k < |plan| {
      NeverStops(plan, runs, k + 1);
    }
  }

  /**
   * `run`: the execution plan, then the teardown plan. The catch wrapper
   * absorbs a halt or an exception of the first plan, so the teardown plan
   * runs whatever happened.
   */
  method Run(io: Bsagio, cfg: RunConfig, execRuns: seq<StepRun>, teardownRuns: seq<StepRun>)
    returns (execEnd: PlanEnd, teardownEnd: PlanEnd)
    requires |execRuns| == |cfg.executionPlan| && |teardownRuns| == |cfg.teardownPlan|
    modifies io`stepLogs, io`privateLog
    ensures execEnd == EndOf(cfg.executionPlan, execRuns)
    ensures teardownEnd == EndOf(cfg.teardownPlan, teardownRuns)
    ensures io.stepLogs == PlanState(PlanState(old(io.stepLogs), cfg.executionPlan, execRuns, StepsRun(cfg.executionPlan, execRuns)),
                                     cfg.teardownPlan, teardownRuns, StepsRun(cfg.teardownPlan, teardownRuns))
    ensures io.privateLog == old(io.privateLog)
      + PlanPrivate(execRuns, StepsRun(cfg.executionPlan, execRuns))
      + PlanPrivate(teardownRuns, StepsRun(cfg.teardownPlan, teardownRuns))
  {
    execEnd := ExecutePlan(io, cfg.executionPlan, execRuns);
    teardownEnd := ExecutePlan(io, cfg.teardownPlan, teardownRuns);
  }

  /** A step that halts the plan is the last one to leave a step log: the rest of its plan is skipped. */
  lemma HaltSkipsRest(plan: seq<PlanEntry>, runs: seq<StepRun>, i: nat)
    requires |runs| == |plan| && i < |plan|
    requires forall j :: 0 <= j < i ==> !Stops(plan[j], runs[j])
    requires runs[i].result == Returned(false) && plan[i].Halts()
    ensures StepsRun(plan, runs) == i + 1
    ensures EndOf(plan, runs) == Halted(i)
    ensures |PlanLogs(plan, runs, StepsRun(plan, runs))| == i + 1
  {
    StopsAt(plan, runs, 0, i);
  }

  /** A failing step that does not halt on failure lets the plan go on, with its log unsuccessful. */
  lemma FailureWithoutHaltContinues(logs0: seq<StepLog>, plan: seq<PlanEntry>, runs: seq<StepRun>, i: nat)
    requires |runs| == |plan| && i < |plan|
    requires forall j :: 0 <= j <= i ==> !Stops(plan[j], runs[j])
    requires runs[i].result == Returned(false)
    ensures StepsRun(plan, runs) > i + 1 || StepsRun(plan, runs) == |plan|
    ensures !PlanState(logs0, plan, runs, StepsRun(plan, runs))[|logs0| + i].success
  {
    var n := StepsRun(plan, runs);
    assert i < n;
    PlanLogsAt(plan, runs, n, i);
    PlanStateShape(logs0, plan, runs, n);
    assert (logs0 + PlanLogs(plan, runs, n))[|logs0| + i] == LogFor(plan[i], runs[i]);
    assert Unscored(PlanState(logs0, plan, runs, n)[|logs0| + i]) == Unscored(LogFor(plan[i], runs[i]));
  }
}
