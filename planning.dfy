/**
 * The planning agent (`PlanningAgent`): ask the model for a plan, a JSON
 * list of steps each naming a tool and its parameter; run the steps in
 * order, collecting one result per step; then ask the model to answer the
 * goal from those results. The model is a script of replies, `json.loads`
 * the parameter `parse`, and the agent's tools (`TOOL_REGISTRY` in the
 * repository) the list `tools`.
 */
module Planning {
  import opened Basics
  import opened Text
  import opened PyJson
  import opened TaskModel
  import opened Extract
  import opened Tools

  /** What the agent asks the model: a plan for the goal, then the answer from the step results. */
  datatype Ask =
    | Decompose(goal: string)
    | Synthesize(goal: string, steps: nat, results: seq<string>)

  /** What a run returns or raises, and what it asked the model. */
  datatype Session = Session(outcome: Outcome<string>, asks: seq<Ask>)

  /** The keys every step of a plan must hold. */
  const StepKeys: seq<string> := ["step", "tool_name", "tool_params"]

  const NoPlan := "I could not create a plan to achieve that goal."

  /** Every step passes `all(key in step for key in StepKeys)`. */
  predicate WellFormed(steps: seq<Json>) {
    forall i :: 0 <= i < |steps| ==> AllIn(StepKeys, steps[i]) == Some(true)
  }

  /**
   * `_create_plan` after the model replied `completion`: the decoded list
   * between the first `[` and the last `]`, when it is a non-empty list of
   * well-formed steps; the empty plan otherwise, which is also what every
   * exception inside the parsing gives.
   */
  function PlanOf(completion: string, parse: string -> Option<Json>): (plan: seq<Json>)
    ensures plan != [] ==> WellFormed(plan)
    ensures plan != [] ==> (DelimitedSlice(completion, '[', ']').Some?
      && parse(DelimitedSlice(completion, '[', ']').value) == Some(JArr(plan)))
  {
    match DelimitedSlice(completion, '[', ']')
    case None => []
    case Some(text) =>
      match parse(text)
      case None => []
      case Some(v) => if v.JArr? && |v.items| > 0 && WellFormed(v.items) then v.items else []
  }

  /** A reply with prose around the JSON list still yields the plan. */
  lemma PlanOfChatty(before: string, body: string, after: string, parse: string -> Option<Json>, steps: seq<Json>)
    requires '[' !in before && ']' !in after
    requires parse("[" + body + "]") == Some(JArr(steps)) && steps != [] && WellFormed(steps)
    ensures PlanOf(before + "[" + body + "]" + after, parse) == steps
  {
    DelimitedSliceOfWrapped(before, body, after, '[', ']');
    assert before + "[" + body + "]" + after == before + ['['] + body + [']'] + after;
    assert ['['] + body + [']'] == "[" + body + "]";
  }

  /** A decoded list with a step that lacks a key, or one that is not a container, gives no plan. */
  lemma PlanOfRejects(completion: string, parse: string -> Option<Json>, k: nat)
    requires DelimitedSlice(completion, '[', ']').Some?
    requires var v := parse(DelimitedSlice(completion, '[', ']').value);
      v.Some? && v.value.JArr? && k < |v.value.items| && AllIn(StepKeys, v.value.items[k]) != Some(true)
    ensures PlanOf(completion, parse) == []
  {
  }

  /** The text recorded for a step that failed. */
  function Failed(i: nat, why: string): string {
    "Step " + NatToString(i + 1) + " failed: " + why
  }

  /** `step.get("tool_name")` of a dictionary step. */
  function NamedTool(step: Json): Json
    requires step.JObj?
  {
    GetOr(step.fields, "tool_name", JNull)
  }

  /** `step.get("tool_params", "")` of a dictionary step. */
  function StepParams(step: Json): Json
    requires step.JObj?
  {
    GetOr(step.fields, "tool_params", JStr(""))
  }

  /**
   * Step `i` of the loop in `run`: `step['step']` raises for anything but a
   * dictionary holding `step`; a tool name that names no tool is recorded as
   * a failure, and so is an exception from the tool.
   */
  function StepOutcome(i: nat, step: Json, tools: seq<(string, Tool)>, env: Environment): Outcome<string>
    requires ValidEnvironment(env)
  {
    if !(step.JObj? && HasKey(step.fields, "step")) then Raised
    else
      var name := NamedTool(step);
      match ToolFor(tools, name)
      case Raised => Raised
      case Returned(None) => Returned(Failed(i, "Tool '" + Str(name) + "' not found."))
      case Returned(Some(tool)) =>
        match Execute(tool, StepParams(step), env)
        case Ok(result) => Returned(result)
        case Error(e) => Returned(Failed(i, "Error executing tool '" + Str(name) + "': " + e))
  }

  /** What each step of the plan gives, in plan order. */
  function Outcomes(plan: seq<Json>, tools: seq<(string, Tool)>, env: Environment): (r: seq<Outcome<string>>)
    requires ValidEnvironment(env)
    ensures |r| == |plan| && forall i :: 0 <= i < |plan| ==> r[i] == StepOutcome(i, plan[i], tools, env)
  {
    seq(|plan|, i requires 0 <= i < |plan| => StepOutcome(i, plan[i], tools, env))
  }

  /** `step_results`: every step's result in order, or `Raised` once one step raises. */
  function Sequenced(outcomes: seq<Outcome<string>>): (r: Outcome<seq<string>>)
    ensures r.Returned? ==> |r.value| == |outcomes|
  {
    if |outcomes| == 0 then Returned([])
    else
      var n := |outcomes| - 1;
      match Sequenced(outcomes[..n])
      case Raised => Raised
      case Returned(results) =>
        match outcomes[n]
        case Raised => Raised
        case Returned(result) => Returned(results + [result])
  }

  /** The results fail exactly when some step raises; otherwise result `i` is what step `i` gives. */
  lemma {:induction false} SequencedSteps(outcomes: seq<Outcome<string>>)
    ensures Sequenced(outcomes).Raised? <==> exists i :: 0 <= i < |outcomes| && outcomes[i].Raised?
    ensures Sequenced(outcomes).Returned? ==>
      forall i :: 0 <= i < |outcomes| ==> Returned(Sequenced(outcomes).value[i]) == outcomes[i]
  {
    if |outcomes| > 0 {
      var n := |outcomes| - 1;
      SequencedSteps(outcomes[..n]);
      assert forall i :: 0 <= i < n ==> outcomes[..n][i] == outcomes[i];
    }
  }

  /** Once a prefix raises, so does the whole. */
  lemma SequencedPrefixRaises(outcomes: seq<Outcome<string>>, n: nat)
    requires n <= |outcomes| && Sequenced(outcomes[..n]).Raised?
    ensures Sequenced(outcomes).Raised?
  {
    SequencedSteps(outcomes[..n]);
    SequencedSteps(outcomes);
    var i :| 0 <= i < n && outcomes[..n][i].Raised?;
    assert outcomes[..n][i] == outcomes[i];
  }

  /** The step results of a plan. */
  function StepResults(plan: seq<Json>, tools: seq<(string, Tool)>, env: Environment): (r: Outcome<seq<string>>)
    requires ValidEnvironment(env)
    ensures r.Returned? ==> |r.value| == |plan|
  {
    Sequenced(Outcomes(plan, tools, env))
  }

  /**
   * A plan's results fail exactly when some step raises; otherwise result
   * `i` is what step `i` gives.
   */
  lemma StepResultsSteps(plan: seq<Json>, tools: seq<(string, Tool)>, env: Environment)
    requires ValidEnvironment(env)
    ensures StepResults(plan, tools, env).Raised? <==>
      exists i :: 0 <= i < |plan| && StepOutcome(i, plan[i], tools, env).Raised?
    ensures StepResults(plan, tools, env).Returned? ==>
      forall i :: 0 <= i < |plan| ==> Returned(StepResults(plan, tools, env).value[i]) == StepOutcome(i, plan[i], tools, env)
  {
    SequencedSteps(Outcomes(plan, tools, env));
  }

  /** The loop of `run` over `enumerate(plan)`. */
  method ExecutePlan(plan: seq<Json>, tools: seq<(string, Tool)>, env: Environment) returns (results: Outcome<seq<string>>)
    requires ValidEnvironment(env)
    ensures results == StepResults(plan, tools, env)
  {
    var outcomes := Outcomes(plan, tools, env);
    var done: seq<string> := [];
    var i := 0;
    while i < |plan|
      invariant 0 <= i <= |plan|
      invariant Sequenced(outcomes[..i]) == Returned(done)
    {
      assert outcomes[..i + 1][..i] == outcomes[..i];
      var result := RunStep(i, plan[i], tools, env);
      if result.Raised? {
        SequencedPrefixRaises(outcomes, i + 1);
        return Raised;
      }
      done := done + [result.value];
      i := i + 1;
    }
    assert outcomes[..i] == outcomes;
    results := Returned(done);
  }

  /** The body of the loop: one step, with its name lookup, its `continue` and its `try`. */
  method RunStep(i: nat, step: Json, tools: seq<(string, Tool)>, env: Environment) returns (result: Outcome<string>)
    requires ValidEnvironment(env)
    ensures result == StepOutcome(i, step, tools, env)
  {
    if !(step.JObj? && HasKey(step.fields, "step")) {
      return Raised;
    }
    var name := NamedTool(step);
    var tool := ToolFor(tools, name);
    if tool.Raised? {
      return Raised;
    }
    if tool.value.None? {
      return Returned(Failed(i, "Tool '" + Str(name) + "' not found."));
    }
    var executed := Execute(tool.value.value, StepParams(step), env);
    if executed.Ok? {
      result := Returned(executed.value);
    } else {
      result := Returned(Failed(i, "Error executing tool '" + Str(name) + "': " + executed.message));
    }
  }

  /** `PlanningAgent.run(goal)`: the first reply is the plan, the second the answer. */
  function PlanRun(goal: string, script: seq<Reply>, parse: string -> Option<Json>,
                   tools: seq<(string, Tool)>, env: Environment): Session
    requires ValidEnvironment(env)
  {
    var ask := Decompose(goal);
    match ReplyAt(script, 0)
    case Fails(_) => Session(Raised, [ask])
    case Says(completion) =>
      var plan := PlanOf(completion, parse);
      if plan == [] then Session(Returned(NoPlan), [ask])
      else
        match StepResults(plan, tools, env)
        case Raised => Session(Raised, [ask])
        case Returned(results) =>
          var synthesis := Synthesize(goal, |plan|, results);
          match ReplyAt(script, 1)
          case Fails(_) => Session(Raised, [ask, synthesis])
          case Says(answer) => Session(Returned(answer), [ask, synthesis])
  }

  /** `PlanningAgent.run`, calling the model through the script. */
  method Run(goal: string, script: seq<Reply>, parse: string -> Option<Json>,
             tools: seq<(string, Tool)>, env: Environment) returns (outcome: Outcome<string>, asks: seq<Ask>)
    requires ValidEnvironment(env)
    ensures Session(outcome, asks) == PlanRun(goal, script, parse, tools, env)
  {
    asks := [Decompose(goal)];
    var first := ReplyAt(script, 0);
    if first.Fails? {
      return Raised, asks;
    }
    var plan := PlanOf(first.text, parse);
    if plan == [] {
      return Returned(NoPlan), asks;
    }
    var results := ExecutePlan(plan, tools, env);
    if results.Raised? {
      return Raised, asks;
    }
    asks := asks + [Synthesize(goal, |plan|, results.value)];
    var second := ReplyAt(script, 1);
    outcome := if second.Fails? then Raised else Returned(second.text);
  }

  /**
   * A run that reaches the synthesis has asked twice, and the second
   * request carries one result for every step of the plan the first reply
   * gave.
   */
  lemma SynthesisSeesEveryStep(goal: string, script: seq<Reply>, parse: string -> Option<Json>,
                               tools: seq<(string, Tool)>, env: Environment)
    requires ValidEnvironment(env)
    ensures var s := PlanRun(goal, script, parse, tools, env);
      1 <= |s.asks| <= 2 && s.asks[0] == Decompose(goal)
      && (|s.asks| == 2 ==>
            ReplyAt(script, 0).Says? && s.asks[1].Synthesize?
            && s.asks[1].steps == |PlanOf(ReplyAt(script, 0).text, parse)| == |s.asks[1].results| > 0
            && (s.outcome.Returned? <==> ReplyAt(script, 1).Says?))
      && (s.outcome == Returned(NoPlan) && |s.asks| == 1 <==>
            ReplyAt(script, 0).Says? && PlanOf(ReplyAt(script, 0).text, parse) == [])
  {
  }

  /** A step that is a dictionary naming a registered tool. */
  predicate RunsRegistered(step: Json) {
    step.JObj? && HasKey(step.fields, "step") && NamedTool(step).JStr? && Lookup(NamedTool(step).s).Some?
  }

  /** The registered tool a step names. */
  function RegisteredTool(step: Json): Tool
    requires RunsRegistered(step)
  {
    Lookup(NamedTool(step).s).value
  }

  /**
   * With the repository's registry, a plan whose steps all name registered
   * tools never fails: every step result is that tool's answer to the
   * step's parameter.
   */
  lemma RegisteredPlanRuns(plan: seq<Json>, env: Environment)
    requires ValidEnvironment(env) && forall i :: 0 <= i < |plan| ==> RunsRegistered(plan[i])
    ensures StepResults(plan, Registry, env).Returned?
    ensures forall i :: 0 <= i < |plan| ==>
      Ok(StepResults(plan, Registry, env).value[i]) == Execute(RegisteredTool(plan[i]), StepParams(plan[i]), env)
  {
    StepResultsSteps(plan, Registry, env);
    forall i | 0 <= i < |plan|
      ensures StepOutcome(i, plan[i], Registry, env).Returned?
      ensures Ok(StepOutcome(i, plan[i], Registry, env).value) == Execute(RegisteredTool(plan[i]), StepParams(plan[i]), env)
    {
      RegisteredStep(i, plan[i], env);
    }
  }

  /** One step of `RegisteredPlanRuns`. */
  lemma RegisteredStep(i: nat, step: Json, env: Environment)
    requires ValidEnvironment(env) && RunsRegistered(step)
    ensures StepOutcome(i, step, Registry, env).Returned?
    ensures Ok(StepOutcome(i, step, Registry, env).value) == Execute(RegisteredTool(step), StepParams(step), env)
  {
    RegisteredToolsReturn(NamedTool(step).s, StepParams(step), env);
  }

  /**
   * A step that names no tool is recorded as a failure and the plan goes
   * on: the later steps still run and the synthesis still happens.
   */
  lemma UnknownToolRecorded(plan: seq<Json>, tools: seq<(string, Tool)>, env: Environment, i: nat)
    requires ValidEnvironment(env) && i < |plan| && plan[i].JObj? && HasKey(plan[i].fields, "step")
    requires NamedTool(plan[i]).JStr? && LookupIn(tools, NamedTool(plan[i]).s).None?
    requires StepResults(plan, tools, env).Returned?
    ensures StepResults(plan, tools, env).value[i] == Failed(i, "Tool '" + NamedTool(plan[i]).s + "' not found.")
  {
    StepResultsSteps(plan, tools, env);
    assert StepOutcome(i, plan[i], tools, env) == Returned(Failed(i, "Tool '" + NamedTool(plan[i]).s + "' not found."));
  }

  /**
   * The plan check tests key membership with `in`, which a string passes
   * by containing the key names: such a step is accepted into the plan and
   * then makes `run` raise at `step['step']`.
   */
  lemma TextStepAcceptedThenRaises(goal: string, script: seq<Reply>, parse: string -> Option<Json>,
                                   tools: seq<(string, Tool)>, env: Environment, s: string)
    requires ValidEnvironment(env)
    requires Contains(s, "step") && Contains(s, "tool_name") && Contains(s, "tool_params")
    requires ReplyAt(script, 0).Says? && DelimitedSlice(ReplyAt(script, 0).text, '[', ']').Some?
    requires parse(DelimitedSlice(ReplyAt(script, 0).text, '[', ']').value) == Some(JArr([JStr(s)]))
    ensures PlanOf(ReplyAt(script, 0).text, parse) == [JStr(s)]
    ensures PlanRun(goal, script, parse, tools, env) == Session(Raised, [Decompose(goal)])
  {
    var step := JStr(s);
    assert AllIn(StepKeys, step) == Some(true) by {
      assert StepKeys[1..] == ["tool_name", "tool_params"];
      assert StepKeys[1..][1..] == ["tool_params"];
      assert AllIn(["tool_params"], step) == Some(true) by {
        assert ["tool_params"][1..] == [];
      }
      assert AllIn(["tool_name", "tool_params"], step) == Some(true);
    }
    assert WellFormed([step]);
    assert StepOutcome(0, step, tools, env).Raised?;
  }
}
