/**
 * Multi-agent collaboration: agents that execute tasks against their
 * language model and keep a history of results, and the orchestrator that
 * runs them as a sequential pipeline, side by side on one input, or under a
 * coordinator that plans, delegates and synthesises.
 */
module Collaboration {
  import opened Basics
  import opened Text
  import opened PyJson
  import opened TaskModel
  import opened SoftwareTeam
  import opened Verdicts

  /** The metadata recorded with a successful result. */
  function SuccessMetadata(agentName: string, response: string): Dict {
    [("agent_name", JStr(agentName)), ("response_length", JInt(|response|))]
  }

  /**
   * What executing one task does: the result, the prompt sent to the model
   * (none when building it raised), and the replies left afterwards.
   */
  datatype Step = Step(result: AgentResult, sent: seq<Prompt>, rest: seq<Reply>)

  /**
   * `execute_task` as a value. The model is called, once, exactly when the
   * prompt could be built; the result is a success exactly when it then
   * answered, and it carries the parsed completion.
   */
  function Execution(agentName: string, role: string, kind: Specialist, persona: Json, task: AgentTask, replies: seq<Reply>): (step: Step)
    ensures step.result.agentRole == role && step.result.taskId == task.taskId
    ensures !step.result.success ==> step.result.output == JNull && step.result.error.Some?
    ensures step.result.success <==> PreparePrompt(kind, persona, task).Ok? && NextReply(replies).Says?
    ensures PreparePrompt(kind, persona, task).Error? ==>
      step.sent == [] && step.rest == replies && step.result.error == Some(PreparePrompt(kind, persona, task).message)
    ensures PreparePrompt(kind, persona, task).Ok? ==>
      step.sent == [PreparePrompt(kind, persona, task).value] && step.rest == AfterCall(replies)
    ensures step.result.success ==>
      step.result.output == ParseResponse(kind, NextReply(replies).text, task)
      && step.result.metadata == SuccessMetadata(agentName, NextReply(replies).text)
  {
    match PreparePrompt(kind, persona, task)
    case Error(e) => Step(FailedResult(role, task.taskId, e), [], replies)
    case Ok(p) =>
      match NextReply(replies)
      case Fails(e) => Step(FailedResult(role, task.taskId, e), [p], AfterCall(replies))
      case Says(text) =>
        Step(AgentResult(role, task.taskId, true, ParseResponse(kind, text, task), SuccessMetadata(agentName, text), None), [p], AfterCall(replies))
  }

  /**
   * Executing `task` on `replies` with `prompts` already sent gave `result`
   * and left `replies'` and `prompts'`.
   */
  ghost predicate Executed(agentName: string, role: string, kind: Specialist, persona: Json, task: AgentTask,
                           replies: seq<Reply>, prompts: seq<Prompt>, result: AgentResult, replies': seq<Reply>, prompts': seq<Prompt>)
  {
    var step := Execution(agentName, role, kind, persona, task, replies);
    result == step.result && replies' == step.rest && prompts' == prompts + step.sent
  }

  /**
   * What executing `tasks` in turn gives, starting from the model script
   * `script`: the results, the prompts sent and the replies left over.
   */
  datatype Replay = Replay(results: seq<AgentResult>, sent: seq<Prompt>, rest: seq<Reply>)

  function Replayed(agentName: string, role: string, kind: Specialist, persona: Json, script: seq<Reply>, tasks: seq<AgentTask>): (rp: Replay)
    ensures |rp.results| == |tasks| && |rp.sent| <= |tasks|
  {
    if |tasks| == 0 then Replay([], [], script)
    else
      var n := |tasks| - 1;
      var before := Replayed(agentName, role, kind, persona, script, tasks[..n]);
      var step := Execution(agentName, role, kind, persona, tasks[n], before.rest);
      Replay(before.results + [step.result], before.sent + step.sent, step.rest)
  }

  /**
   * Executing one more task extends the replay by exactly that task's
   * execution on the replies left so far, and every earlier result stays.
   */
  lemma ReplayedStep(agentName: string, role: string, kind: Specialist, persona: Json, script: seq<Reply>, tasks: seq<AgentTask>, t: AgentTask)
    ensures var before := Replayed(agentName, role, kind, persona, script, tasks);
      var step := Execution(agentName, role, kind, persona, t, before.rest);
      Replayed(agentName, role, kind, persona, script, tasks + [t]) == Replay(before.results + [step.result], before.sent + step.sent, step.rest)
  {
    assert (tasks + [t])[..|tasks|] == tasks;
  }

  /** Executing a task on what `n` calls left leaves what `n` more calls, one per prompt sent, leave. */
  lemma ExecutionConsumes(agentName: string, role: string, kind: Specialist, persona: Json, task: AgentTask, script: seq<Reply>, n: nat)
    ensures var step := Execution(agentName, role, kind, persona, task, Drop(script, n));
      |step.sent| <= 1 && step.rest == Drop(script, n + |step.sent|)
  {
    if PreparePrompt(kind, persona, task).Ok? {
      AfterCallDrop(script, n);
    }
  }

  /**
   * The model is consulted once per task whose prompt could be built: the
   * replay sends one prompt for each such task and consumes the script
   * from the front, one reply per prompt.
   */
  lemma {:induction false} ReplayedConsumes(agentName: string, role: string, kind: Specialist, persona: Json, script: seq<Reply>, tasks: seq<AgentTask>)
    ensures var rp := Replayed(agentName, role, kind, persona, script, tasks);
      rp.rest == Drop(script, |rp.sent|)
  {
    if |tasks| > 0 {
      var n := |tasks| - 1;
      ReplayedConsumes(agentName, role, kind, persona, script, tasks[..n]);
      var before := Replayed(agentName, role, kind, persona, script, tasks[..n]);
      var step := Execution(agentName, role, kind, persona, tasks[n], before.rest);
      ExecutionConsumes(agentName, role, kind, persona, tasks[n], script, |before.sent|);
      assert |before.sent + step.sent| == |before.sent| + |step.sent|;
    }
  }

  /** An agent taking part in a collaboration, with its model and its history of results. */
  class CollaborationAgent {
    const agentName: string
    const role: string
    const kind: Specialist
    const persona: Json
    /** The completions the agent's model will return, in order. */
    var replies: seq<Reply>
    /** Every prompt sent to the model. */
    var prompts: seq<Prompt>
    /** `collaboration_history`: every result, successful or not. */
    var history: seq<AgentResult>
    /** Every task this agent was handed. */
    ghost var received: seq<AgentTask>
    /** The script the model started with. */
    ghost const script: seq<Reply>

    /**
     * The agent's state is what executing the tasks it received, in turn,
     * against its model's script gives.
     */
    ghost predicate Faithful()
      reads this
    {
      var rp := Replayed(agentName, role, kind, persona, script, received);
      history == rp.results && prompts == rp.sent && replies == rp.rest
    }

    constructor (agentName: string, role: string, kind: Specialist, persona: Json, replies: seq<Reply>)
      ensures this.agentName == agentName && this.role == role && this.kind == kind && this.persona == persona
      ensures this.replies == replies && prompts == [] && history == [] && received == []
      ensures script == replies && Faithful()
    {
      this.agentName := agentName;
      this.role := role;
      this.kind := kind;
      this.persona := persona;
      this.replies := replies;
      script := replies;
      prompts := [];
      history := [];
      received := [];
    }

    /**
     * `execute_task`: build the prompt, call the model once, parse the
     * completion. Any exception on the way becomes a failed result; either
     * way exactly one result is appended to the history.
     */
    method ExecuteTask(task: AgentTask) returns (r: AgentResult)
      modifies this
      ensures history == old(history) + [r]
      ensures received == old(received) + [task]
      ensures var step := Execution(agentName, role, kind, persona, task, old(replies));
        r == step.result && prompts == old(prompts) + step.sent && replies == step.rest
      ensures old(Faithful()) ==> Faithful()
    {
      ReplayedStep(agentName, role, kind, persona, script, received, task);
      received := received + [task];
      match PreparePrompt(kind, persona, task) {
        case Error(e) =>
          r := FailedResult(role, task.taskId, e);
        case Ok(p) =>
          prompts := prompts + [p];
          var reply := NextReply(replies);
          replies := AfterCall(replies);
          match reply {
            case Fails(e) =>
              r := FailedResult(role, task.taskId, e);
            case Says(text) =>
              r := AgentResult(role, task.taskId, true, ParseResponse(kind, text, task), SuccessMetadata(agentName, text), None);
          }
      }
      history := history + [r];
    }

    /** `run`: execute the case data as a task of this agent's role and report the outcome as a verdict. */
    method Run(caseData: Dict) returns (v: Verdict)
      modifies this
      ensures |history| == |old(history)| + 1 && history[..|old(history)|] == old(history)
      ensures received == old(received) + [CaseTask(role, caseData)]
      ensures v == VerdictOf(agentName, history[|history| - 1])
      ensures var step := Execution(agentName, role, kind, persona, CaseTask(role, caseData), old(replies));
        history[|history| - 1] == step.result && prompts == old(prompts) + step.sent && replies == step.rest
      ensures old(Faithful()) ==> Faithful()
    {
      var r := ExecuteTask(CaseTask(role, caseData));
      v := VerdictOf(agentName, r);
    }
  }

  /** The task `run` wraps case data in. */
  function CaseTask(role: string, caseData: Dict): AgentTask {
    AgentTask(role, "Process case data for " + role, caseData, [], role + "_task")
  }

  /** Python's `str` of an optional error text. */
  function ErrorText(error: Option<string>): string {
    match error
    case Some(e) => e
    case None => "None"
  }

  /** The verdict `run` reports for a result: full marks and the output, or none and the error. */
  function VerdictOf(agentName: string, r: AgentResult): (v: Verdict)
    ensures v.judgeName == agentName && v.metrics == []
    ensures v.score == 1.0 <==> r.success
    ensures v.score == 0.0 <==> !r.success
    ensures r.success ==> v.verdict == JStr(Str(r.output))
    ensures !r.success ==> v.verdict == JStr("Error: " + ErrorText(r.error))
  {
    if r.success then Verdict(agentName, 1.0, JStr(Str(r.output)), [])
    else Verdict(agentName, 0.0, JStr("Error: " + ErrorText(r.error)), [])
  }

  datatype Mode = Sequential | Parallel | Hierarchical

  /** The mode's `value`, as the summary reports it. */
  function ModeValue(mode: Mode): string {
    match mode
    case Sequential => "sequential"
    case Parallel => "parallel"
    case Hierarchical => "hierarchical"
  }

  /**
   * The dictionary a collaboration returns, by kind. `Crashed` stands for an
   * exception escaping the mode method, which happens only with no agents
   * registered.
   */
  datatype RunOutcome =
    | Completed(finalOutput: Json, allResults: seq<AgentResult>)
    | Stopped(error: Option<string>, completedSteps: nat, results: seq<AgentResult>)
    | ParallelDone(individualResults: seq<AgentResult>, synthesis: string, allResults: seq<AgentResult>)
    | Delegated(coordinatorPlan: Json, specialistOutputs: seq<AgentResult>, finalSynthesis: Json, allResults: seq<AgentResult>)
    | PlanFailed(reason: string, results: seq<AgentResult>)
    | Crashed

  /** The `success` entry of the returned dictionary. */
  predicate Succeeded(out: RunOutcome) {
    out.Completed? || out.ParallelDone? || out.Delegated?
  }

  /** The task of step `i` (from 0) of the pipeline. */
  function PipelineTask(i: nat, role: string, input: Dict): AgentTask {
    AgentTask(role, "Step " + NatToString(i + 1) + ": " + role + " processing", input, [], "seq_task_" + NatToString(i + 1) + "_" + role)
  }

  /** What the agent after step `i` (from 0) receives. */
  function Threaded(previousOutput: Json, task: Dict, i: nat): Dict {
    [("previous_output", previousOutput), ("original_task", JObj(task)), ("step", JInt(i + 1))]
  }

  /** The input of step `k`: the task itself first, the previous step's output after that. */
  function PipelineInput(task: Dict, steps: seq<AgentResult>, k: nat): Dict
    requires k <= |steps|
  {
    if k == 0 then task else Threaded(steps[k - 1].output, task, k - 1)
  }

  /**
   * The tasks a pipeline that has produced `steps` handed out, one per
   * step: step `k` is given the task numbered `k + 1` for the `k`-th role.
   */
  function SequentialTasks(task: Dict, roles: seq<string>, steps: seq<AgentResult>): (tasks: seq<AgentTask>)
    requires |steps| <= |roles|
    ensures |tasks| == |steps|
  {
    if |steps| == 0 then []
    else
      var n := |steps| - 1;
      SequentialTasks(task, roles, steps[..n]) + [PipelineTask(n, roles[n], PipelineInput(task, steps, n))]
  }

  /** Step `k` was handed its pipeline task, whose input is the task itself or the output of step `k - 1`. */
  lemma {:induction false} SequentialTasksAt(task: Dict, roles: seq<string>, steps: seq<AgentResult>, k: nat)
    requires |steps| <= |roles| && k < |steps|
    ensures SequentialTasks(task, roles, steps)[k] == PipelineTask(k, roles[k], PipelineInput(task, steps, k))
    decreases |steps|
  {
    var n := |steps| - 1;
    if k < n {
      SequentialTasksAt(task, roles, steps[..n], k);
      assert PipelineInput(task, steps[..n], k) == PipelineInput(task, steps, k);
    }
  }

  /** One more step extends the task list by the task that step was handed. */
  lemma SequentialTasksStep(task: Dict, roles: seq<string>, steps: seq<AgentResult>, r: AgentResult)
    requires |steps| < |roles|
    ensures SequentialTasks(task, roles, steps + [r])
      == SequentialTasks(task, roles, steps) + [PipelineTask(|steps|, roles[|steps|], PipelineInput(task, steps, |steps|))]
  {
    assert (steps + [r])[..|steps|] == steps;
  }

  /** What a step hands on is found under `previous_output`. */
  lemma ThreadedPrevious(previousOutput: Json, task: Dict, i: nat)
    ensures Get(Threaded(previousOutput, task, i), "previous_output") == Some(previousOutput)
  {
  }

  function ParallelTask(role: string, task: Dict): AgentTask {
    AgentTask(role, role + " analysis", task, [], "parallel_task_" + role)
  }

  function PlanningTask(role: string, task: Dict): AgentTask {
    AgentTask(role, "Create coordination plan for specialists", task, [], "coordinator_planning")
  }

  function SpecialistTask(role: string, plan: Json, task: Dict): AgentTask {
    AgentTask(role, role + " executing coordinator's plan", [("coordinator_plan", plan), ("original_task", JObj(task))], [], "specialist_task_" + role)
  }

  /** The tasks a parallel run hands the agents of `roles`: the same task to each. */
  function ParallelTasks(task: Dict, roles: seq<string>): (tasks: seq<AgentTask>)
    ensures |tasks| == |roles|
  {
    if |roles| == 0 then [] else ParallelTasks(task, roles[..|roles| - 1]) + [ParallelTask(roles[|roles| - 1], task)]
  }

  lemma {:induction false} ParallelTasksAt(task: Dict, roles: seq<string>, k: nat)
    requires k < |roles|
    ensures ParallelTasks(task, roles)[k] == ParallelTask(roles[k], task)
  {
    if k < |roles| - 1 {
      ParallelTasksAt(task, roles[..|roles| - 1], k);
    }
  }

  /** The tasks the specialists of `roles` are handed: the coordinator's plan and the task. */
  function SpecialistTasks(plan: Json, task: Dict, roles: seq<string>): (tasks: seq<AgentTask>)
    ensures |tasks| == |roles|
  {
    if |roles| == 0 then [] else SpecialistTasks(plan, task, roles[..|roles| - 1]) + [SpecialistTask(roles[|roles| - 1], plan, task)]
  }

  lemma {:induction false} SpecialistTasksAt(plan: Json, task: Dict, roles: seq<string>, k: nat)
    requires k < |roles|
    ensures SpecialistTasks(plan, task, roles)[k] == SpecialistTask(roles[k], plan, task)
  {
    if k < |roles| - 1 {
      SpecialistTasksAt(plan, task, roles[..|roles| - 1], k);
    }
  }

  function Outputs(rs: seq<AgentResult>): (outs: seq<Json>)
    ensures |outs| == |rs| && forall i :: 0 <= i < |rs| ==> outs[i] == rs[i].output
  {
    seq(|rs|, i requires 0 <= i < |rs| => rs[i].output)
  }

  function SynthesisTask(role: string, specialistResults: seq<AgentResult>, task: Dict): AgentTask {
    AgentTask(role, "Synthesize specialist results", [("specialist_results", JArr(Outputs(specialistResults))), ("original_task", JObj(task))], [], "coordinator_synthesis")
  }

  // ------------------------------------------------------- parallel synthesis

  /** `[r for r in results if r.success]`. */
  function Successful(rs: seq<AgentResult>): (ok: seq<AgentResult>)
    ensures |ok| <= |rs|
    ensures forall i :: 0 <= i < |ok| ==> ok[i].success
  {
    if |rs| == 0 then []
    else (if rs[0].success then [rs[0]] else []) + Successful(rs[1..])
  }

  lemma {:induction false} SuccessfulAppend(a: seq<AgentResult>, b: seq<AgentResult>)
    ensures Successful(a + b) == Successful(a) + Successful(b)
    decreases |a|
  {
    if |a| == 0 {
      assert a + b == b;
    } else {
      assert (a + b)[1..] == a[1..] + b;
      SuccessfulAppend(a[1..], b);
    }
  }

  const AllFailed := "All parallel tasks failed."
  const SynthesisHeader := "Synthesis of Parallel Agent Results:\n\n"

  function ResultLine(r: AgentResult): string {
    "- " + r.agentRole + ": " + Str(r.output) + "\n"
  }

  /** One line per result, in order. */
  function Lines(rs: seq<AgentResult>): string {
    if |rs| == 0 then "" else Lines(rs[..|rs| - 1]) + ResultLine(rs[|rs| - 1])
  }

  /** `_synthesize_parallel_results`, as a value. */
  function ParallelSynthesis(rs: seq<AgentResult>): string {
    var ok := Successful(rs);
    if ok == [] then AllFailed else SynthesisHeader + Lines(ok)
  }

  /** No result succeeded exactly when none is kept. */
  lemma {:induction false} SuccessfulNone(rs: seq<AgentResult>)
    ensures Successful(rs) == [] <==> forall i :: 0 <= i < |rs| ==> !rs[i].success
  {
    if |rs| > 0 {
      SuccessfulNone(rs[1..]);
      assert forall i :: 1 <= i < |rs| ==> rs[i] == rs[1..][i - 1];
    }
  }

  lemma HeaderNotAllFailed(lines: string)
    ensures SynthesisHeader + lines != AllFailed
  {
    assert (SynthesisHeader + lines)[0] == 'S' != 'A' == AllFailed[0];
  }

  /**
   * The synthesis says that all tasks failed exactly when none succeeded;
   * otherwise it is the header and nothing but the lines of the successful
   * results, in order.
   */
  lemma ParallelSynthesisCases(rs: seq<AgentResult>)
    ensures ParallelSynthesis(rs) == AllFailed <==> forall i :: 0 <= i < |rs| ==> !rs[i].success
    ensures (exists i :: 0 <= i < |rs| && rs[i].success) ==> ParallelSynthesis(rs) == SynthesisHeader + Lines(Successful(rs))
  {
    SuccessfulNone(rs);
    if Successful(rs) != [] {
      HeaderNotAllFailed(Lines(Successful(rs)));
    }
  }

  /**
   * Adding a failed result leaves the synthesis as it was; adding a
   * successful one appends exactly its line (after the header, if it is the
   * first success).
   */
  lemma {:induction false} ParallelSynthesisExtend(rs: seq<AgentResult>, r: AgentResult)
    ensures !r.success ==> ParallelSynthesis(rs + [r]) == ParallelSynthesis(rs)
    ensures r.success ==>
      (ParallelSynthesis(rs + [r]) == (if Successful(rs) == [] then SynthesisHeader else ParallelSynthesis(rs)) + ResultLine(r))
  {
    SuccessfulAppend(rs, [r]);
    assert Successful([r]) == (if r.success then [r] else []) by {
      assert [r][1..] == [];
    }
    var ok := Successful(rs);
    if r.success {
      LinesStep(ok, r);
      if ok == [] {
        assert Lines(ok) + ResultLine(r) == ResultLine(r);
      } else {
        AppendAssoc(SynthesisHeader, Lines(ok), ResultLine(r));
      }
    } else {
      assert ok + [] == ok;
    }
  }

  lemma LinesStep(rs: seq<AgentResult>, r: AgentResult)
    ensures Lines(rs + [r]) == Lines(rs) + ResultLine(r)
  {
    assert (rs + [r])[..|rs|] == rs;
  }

  // ---------------------------------------------------------------- summary

  function CountSuccessful(rs: seq<AgentResult>): nat {
    if |rs| == 0 then 0 else (if rs[0].success then 1 else 0) + CountSuccessful(rs[1..])
  }

  function CountFailed(rs: seq<AgentResult>): nat {
    if |rs| == 0 then 0 else (if rs[0].success then 0 else 1) + CountFailed(rs[1..])
  }

  /** Every task is counted once, as successful or as failed. */
  lemma {:induction false} CountsPartition(rs: seq<AgentResult>)
    ensures CountSuccessful(rs) + CountFailed(rs) == |rs|
    ensures CountSuccessful(rs) == |Successful(rs)|
  {
    if |rs| > 0 {
      CountsPartition(rs[1..]);
    }
  }

  /** No element of `s` occurs twice (stated element by element, last first). */
  predicate Distinct(s: seq<string>) {
    |s| == 0 || (s[|s| - 1] !in s[..|s| - 1] && Distinct(s[..|s| - 1]))
  }

  lemma {:induction false} DistinctAt(s: seq<string>, i: nat, j: nat)
    requires Distinct(s) && i < j < |s|
    ensures s[i] != s[j]
  {
    var init := s[..|s| - 1];
    if j == |s| - 1 {
      assert s[i] == init[i];
    } else {
      DistinctAt(init, i, j);
    }
  }

  lemma DistinctAppend(s: seq<string>, x: string)
    requires Distinct(s) && x !in s
    ensures Distinct(s + [x])
  {
    assert (s + [x])[..|s|] == s;
  }

  lemma {:induction false} DistinctCardinality(s: seq<string>)
    requires Distinct(s)
    ensures |set x | x in s| == |s|
  {
    if |s| > 0 {
      var last := s[|s| - 1];
      var init := s[..|s| - 1];
      DistinctCardinality(init);
      assert (set x | x in s) == (set x | x in init) + {last};
    }
  }

  /** Result `k` of `steps` comes from the agent of role `k` (stated step by step, last first). */
  predicate RolesMatch(steps: seq<AgentResult>, roles: seq<string>)
    requires |steps| <= |roles|
  {
    |steps| == 0 || (steps[|steps| - 1].agentRole == roles[|steps| - 1] && RolesMatch(steps[..|steps| - 1], roles))
  }

  lemma {:induction false} RolesMatchAt(steps: seq<AgentResult>, roles: seq<string>, k: nat)
    requires |steps| <= |roles| && RolesMatch(steps, roles) && k < |steps|
    ensures steps[k].agentRole == roles[k]
  {
    if k < |steps| - 1 {
      RolesMatchAt(steps[..|steps| - 1], roles, k);
    }
  }

  lemma RolesMatchStep(steps: seq<AgentResult>, roles: seq<string>, r: AgentResult)
    requires |steps| < |roles| && RolesMatch(steps, roles) && r.agentRole == roles[|steps|]
    ensures RolesMatch(steps + [r], roles)
  {
    assert (steps + [r])[..|steps|] == steps;
  }

  /**
   * The keys of an agent dictionary in insertion order: each role listed
   * once, every listed role a key whose agent has that role, and no other key.
   */
  ghost predicate Roster(roles: seq<string>, agents: map<string, CollaborationAgent>) {
    Distinct(roles)
    && (forall i :: 0 <= i < |roles| ==> roles[i] in agents && agents[roles[i]].role == roles[i])
    && (forall r :: r in agents ==> r in roles)
  }

  /** What an agent has recorded: its results and the tasks it was handed. */
  datatype AgentLog = AgentLog(history: seq<AgentResult>, received: seq<AgentTask>)

  /** The records of the agents of `roles`, in that order. */
  ghost function Logs(roles: seq<string>, agents: map<string, CollaborationAgent>): (logs: seq<AgentLog>)
    requires forall k :: 0 <= k < |roles| ==> roles[k] in agents
    reads agents.Values
    ensures |logs| == |roles|
  {
    seq(|roles|, k requires 0 <= k < |roles| reads agents.Values => AgentLog(agents[roles[k]].history, agents[roles[k]].received))
  }

  /**
   * The records after the agents `from`, `from + 1`, ... each ran once in
   * turn, agent `from + k` on `tasks[k]` with result `steps[k]`; the other
   * agents' records are as they were.
   */
  function Ran(logs: seq<AgentLog>, from: nat, steps: seq<AgentResult>, tasks: seq<AgentTask>): (after: seq<AgentLog>)
    requires |steps| == |tasks| && from + |steps| <= |logs|
    ensures |after| == |logs|
  {
    seq(|logs|, k requires 0 <= k < |logs| =>
      if from <= k < from + |steps| then AgentLog(logs[k].history + [steps[k - from]], logs[k].received + [tasks[k - from]])
      else logs[k])
  }

  /** Running one more agent extends `Ran` by that agent's entry. */
  lemma RanStep(logs: seq<AgentLog>, from: nat, steps: seq<AgentResult>, tasks: seq<AgentTask>, r: AgentResult, t: AgentTask)
    requires |steps| == |tasks| && from + |steps| < |logs|
    ensures Ran(logs, from, steps, tasks)[from + |steps|] == logs[from + |steps|]
    ensures Ran(logs, from, steps + [r], tasks + [t])
      == Ran(logs, from, steps, tasks)[from + |steps| := AgentLog(logs[from + |steps|].history + [r], logs[from + |steps|].received + [t])]
  {
  }

  /** An agent before `from` is not among those `Ran` runs. */
  lemma RanBefore(logs: seq<AgentLog>, from: nat, steps: seq<AgentResult>, tasks: seq<AgentTask>, j: nat, v: AgentLog)
    requires |steps| == |tasks| && from + |steps| <= |logs| && j < from
    ensures Ran(logs, from, steps, tasks)[j] == logs[j]
    ensures Ran(logs, from, steps, tasks)[j := v] == Ran(logs[j := v], from, steps, tasks)
  {
  }

  /** The coordinator recording its plan and then its synthesis amounts to recording both at once. */
  lemma TwiceRecorded(logs: seq<AgentLog>, from: nat, steps: seq<AgentResult>, tasks: seq<AgentTask>,
                      plan: AgentResult, synthesis: AgentResult, planning: AgentTask, synthesising: AgentTask)
    requires 0 < from && |steps| == |tasks| && from + |steps| <= |logs|
    ensures var once := logs[0 := AgentLog(logs[0].history + [plan], logs[0].received + [planning])];
      Ran(once[0 := AgentLog(once[0].history + [synthesis], once[0].received + [synthesising])], from, steps, tasks)
      == Ran(logs[0 := AgentLog(logs[0].history + [plan, synthesis], logs[0].received + [planning, synthesising])], from, steps, tasks)
  {
    assert logs[0].history + [plan] + [synthesis] == logs[0].history + [plan, synthesis];
    assert logs[0].received + [planning] + [synthesising] == logs[0].received + [planning, synthesising];
  }

  datatype Summary = Summary(mode: string, totalAgents: nat, totalTasks: nat, successfulTasks: nat, failedTasks: nat, agents: seq<string>)

  /** Runs agents registered by role, in registration order, and keeps every result of every run. */
  class Orchestrator {
    const mode: Mode
    /** The keys of `self.agents`, in insertion order. */
    var roles: seq<string>
    var agents: map<string, CollaborationAgent>
    /** Every result of every collaboration, in order; never reset. */
    var results: seq<AgentResult>

    ghost predicate Valid()
      reads this
    {
      Roster(roles, agents)
    }

    /** Every registered agent's state is the replay of its model's script over the tasks it received. */
    ghost predicate Scripted()
      reads this, agents.Values
    {
      forall r :: r in agents ==> agents[r].Faithful()
    }

    constructor (mode: Mode)
      ensures Valid() && this.mode == mode && roles == [] && agents == map[] && results == []
    {
      this.mode := mode;
      roles := [];
      agents := map[];
      results := [];
    }

    /**
     * `register_agent`: key the agent by its role. A new role goes last; an
     * existing one keeps its place and now names the new agent.
     */
    method Register(agent: CollaborationAgent)
      requires Valid()
      modifies this
      ensures Valid()
      ensures agents == old(agents)[agent.role := agent]
      ensures roles == if agent.role in old(agents) then old(roles) else old(roles) + [agent.role]
      ensures results == old(results)
      ensures old(Scripted()) && agent.Faithful() ==> Scripted()
    {
      if agent.role !in agents {
        DistinctAppend(roles, agent.role);
        roles := roles + [agent.role];
      }
      agents := agents[agent.role := agent];
    }

    /** `get_collaboration_summary`. */
    function GetSummary(): (s: Summary)
      requires Valid()
      reads this
      ensures s.successfulTasks + s.failedTasks == s.totalTasks == |results|
      ensures s.successfulTasks == |Successful(results)|
      ensures s.agents == roles && s.totalAgents == |roles|
      ensures s.mode == ModeValue(mode)
    {
      CountsPartition(results);
      DistinctCardinality(roles);
      assert agents.Keys == set x | x in roles;
      Summary(ModeValue(mode), |agents|, |results|, CountSuccessful(results), CountFailed(results), roles)
    }

    /**
     * `agent.execute_task(t)` for the agent of the `k`-th role, followed by
     * `self.results.append(result)`: the result is that agent's execution of
     * `t` against the replies its model has left; the agent records it and
     * the task and moves on in its script, the orchestrator records the
     * result, and no other agent changes.
     */
    method Dispatch(k: nat, t: AgentTask) returns (r: AgentResult)
      requires Valid() && k < |roles|
      modifies this, agents[roles[k]]
      ensures Valid() && roles == old(roles) && agents == old(agents)
      ensures results == old(results) + [r]
      ensures r.agentRole == roles[k] && r.taskId == t.taskId
      ensures !r.success ==> r.output == JNull && r.error.Some?
      ensures Logs(roles, agents) == old(Logs(roles, agents))[k := AgentLog(old(Logs(roles, agents))[k].history + [r], old(Logs(roles, agents))[k].received + [t])]
      ensures var a := agents[roles[k]];
        Executed(a.agentName, a.role, a.kind, a.persona, t, old(a.replies), old(a.prompts), r, a.replies, a.prompts)
      ensures forall j :: 0 <= j < |roles| && j != k ==> unchanged(agents[roles[j]])
      ensures old(Scripted()) ==> Scripted()
    {
      var agent := agents[roles[k]];
      forall j | 0 <= j < |roles| && j != k
        ensures agents[roles[j]] != agent
      {
        if j < k { DistinctAt(roles, j, k); } else { DistinctAt(roles, k, j); }
      }
      r := agent.ExecuteTask(t);
      ghost var logs := Logs(roles, agents);
      results := results + [r];
      assert Logs(roles, agents) == logs;
    }

    /** `_synthesize_parallel_results`. */
    method SynthesizeParallelResults(rs: seq<AgentResult>) returns (synthesis: string)
      ensures synthesis == ParallelSynthesis(rs)
    {
      var successful := Successful(rs);
      if successful == [] {
        return AllFailed;
      }
      synthesis := SynthesisHeader;
      var i := 0;
      while i < |successful|
        invariant 0 <= i <= |successful|
        invariant synthesis == SynthesisHeader + Lines(successful[..i])
      {
        assert successful[..i + 1][..i] == successful[..i];
        AppendAssoc(SynthesisHeader, Lines(successful[..i]), ResultLine(successful[i]));
        synthesis := synthesis + ResultLine(successful[i]);
        i := i + 1;
      }
      assert successful[..i] == successful;
    }

    /**
     * Where the pipeline stands after `steps`: the orchestrator has appended
     * them to `results0`, agent `k` has recorded step `k` and the `k`-th
     * pipeline task on top of its records `logs0[k]`, and `current` is what
     * the next agent is handed.
     */
    ghost predicate Progress(task: Dict, logs0: seq<AgentLog>, results0: seq<AgentResult>, steps: seq<AgentResult>, current: Dict)
      requires Valid()
      reads this, agents.Values
    {
      |steps| <= |roles| && |logs0| == |roles|
      && results == results0 + steps
      && RolesMatch(steps, roles)
      && current == PipelineInput(task, steps, |steps|)
      && Logs(roles, agents) == Ran(logs0, 0, steps, SequentialTasks(task, roles, steps))
    }

    /** One pass of the loop of `_sequential_collaboration`: step `|steps|` runs. */
    method Advance(task: Dict, ghost logs0: seq<AgentLog>, ghost results0: seq<AgentResult>, ghost steps: seq<AgentResult>, i: nat, current: Dict)
      returns (r: AgentResult, next: Dict)
      requires Valid() && i == |steps| < |roles| && Progress(task, logs0, results0, steps, current)
      modifies this, agents.Values
      ensures Valid() && roles == old(roles) && agents == old(agents)
      ensures old(Scripted()) ==> Scripted()
      ensures Progress(task, logs0, results0, steps + [r], next)
    {
      var t := PipelineTask(i, roles[i], current);
      ghost var done := SequentialTasks(task, roles, steps);
      r := Dispatch(i, t);
      assert SequentialTasks(task, roles, steps + [r]) == done + [t] by {
        SequentialTasksStep(task, roles, steps, r);
      }
      RanStep(logs0, 0, steps, done, r, t);
      RolesMatchStep(steps, roles, r);
      AppendAssoc(results0, steps, [r]);
      next := Threaded(r.output, task, i);
    }

    /**
     * The loop of `_sequential_collaboration`: each agent in order, fed the
     * previous agent's output, until one fails. `current` is what the
     * agent after the last step would be handed.
     */
    method Pipeline(task: Dict) returns (steps: seq<AgentResult>, current: Dict)
      requires Valid()
      modifies this, agents.Values
      ensures Valid() && roles == old(roles) && agents == old(agents)
      ensures old(Scripted()) ==> Scripted()
      ensures results == old(results) + steps
      ensures |steps| <= |roles| && RolesMatch(steps, roles)
      // step k ran agent k, once, on the k-th pipeline task; no agent after a failure runs
      ensures Logs(roles, agents) == Ran(old(Logs(roles, agents)), 0, steps, SequentialTasks(task, roles, steps))
      ensures forall k :: 0 <= k < |steps| - 1 ==> steps[k].success
      ensures |steps| < |roles| ==> |steps| >= 1 && !steps[|steps| - 1].success
      ensures current == PipelineInput(task, steps, |steps|)
    {
      steps := [];
      ghost var logs0 := Logs(roles, agents);
      current := task;
      while |steps| < |roles|
        invariant Valid() && roles == old(roles) && agents == old(agents)
        invariant old(Scripted()) ==> Scripted()
        invariant Progress(task, logs0, old(results), steps, current)
        invariant forall k :: 0 <= k < |steps| ==> steps[k].success
        decreases |roles| - |steps|
      {
        var r;
        r, current := Advance(task, logs0, old(results), steps, |steps|, current);
        steps := steps + [r];
        if !r.success {
          return;
        }
      }
    }

    /**
     * `_sequential_collaboration`: the pipeline, then its outcome: the
     * failure that stopped it, or the last output handed on.
     */
    method RunSequential(task: Dict) returns (out: RunOutcome, steps: seq<AgentResult>)
      requires Valid()
      modifies this, agents.Values
      ensures Valid() && roles == old(roles) && agents == old(agents)
      ensures old(Scripted()) ==> Scripted()
      ensures results == old(results) + steps
      ensures |steps| <= |roles| && RolesMatch(steps, roles)
      ensures Logs(roles, agents) == Ran(old(Logs(roles, agents)), 0, steps, SequentialTasks(task, roles, steps))
      ensures forall k :: 0 <= k < |steps| - 1 ==> steps[k].success
      ensures out.Stopped? <==> |steps| >= 1 && !steps[|steps| - 1].success
      ensures out.Stopped? ==>
        out.completedSteps == |steps| - 1 && out.error == steps[|steps| - 1].error && out.results == results
      ensures out.Completed? ==>
        |steps| == |roles| && out.allResults == results
        && Some(out.finalOutput) == Get(PipelineInput(task, steps, |steps|), "previous_output")
      ensures out.Completed? && |roles| > 0 ==>
        steps[|roles| - 1].success && out.finalOutput == steps[|roles| - 1].output
      ensures out.Crashed? <==> |roles| == 0 && !HasKey(task, "previous_output")
      ensures out.Stopped? || out.Completed? || out.Crashed?
    {
      var current;
      steps, current := Pipeline(task);
      if |steps| > 0 && !steps[|steps| - 1].success {
        out := Stopped(steps[|steps| - 1].error, |steps| - 1, results);
      } else {
        if |roles| > 0 {
          ThreadedPrevious(steps[|roles| - 1].output, task, |roles| - 1);
        }
        match Get(current, "previous_output") {
          case None => out := Crashed;
          case Some(v) => out := Completed(v, results);
        }
      }
    }

    /** Where a parallel run stands after `steps`: agent `k` has run once, on the task, with result `steps[k]`. */
    ghost predicate Spread(task: Dict, logs0: seq<AgentLog>, results0: seq<AgentResult>, steps: seq<AgentResult>)
      requires Valid()
      reads this, agents.Values
    {
      |steps| <= |roles| && |logs0| == |roles|
      && results == results0 + steps
      && RolesMatch(steps, roles)
      && Logs(roles, agents) == Ran(logs0, 0, steps, ParallelTasks(task, roles[..|steps|]))
    }

    /** One pass of the loop of `_parallel_collaboration`: agent `|steps|` runs. */
    method SpreadTo(task: Dict, ghost logs0: seq<AgentLog>, ghost results0: seq<AgentResult>, ghost steps: seq<AgentResult>, i: nat)
      returns (r: AgentResult)
      requires Valid() && i == |steps| < |roles| && Spread(task, logs0, results0, steps)
      modifies this, agents.Values
      ensures Valid() && roles == old(roles) && agents == old(agents)
      ensures old(Scripted()) ==> Scripted()
      ensures Spread(task, logs0, results0, steps + [r])
    {
      var t := ParallelTask(roles[i], task);
      ghost var done := ParallelTasks(task, roles[..i]);
      assert ParallelTasks(task, roles[..i + 1]) == done + [t] by {
        assert roles[..i + 1][..i] == roles[..i];
      }
      r := Dispatch(i, t);
      RanStep(logs0, 0, steps, done, r, t);
      RolesMatchStep(steps, roles, r);
      AppendAssoc(results0, steps, [r]);
    }

    /** `_parallel_collaboration`: every agent once, in order, on the same task, then a synthesis of the successes. */
    method RunParallel(task: Dict) returns (out: RunOutcome, steps: seq<AgentResult>)
      requires Valid()
      modifies this, agents.Values
      ensures Valid() && roles == old(roles) && agents == old(agents)
      ensures old(Scripted()) ==> Scripted()
      ensures |steps| == |roles| && results == old(results) + steps
      ensures RolesMatch(steps, roles)
      // agent k ran once, on the task, with result steps[k]
      ensures Logs(roles, agents) == Ran(old(Logs(roles, agents)), 0, steps, ParallelTasks(task, roles))
      ensures out == ParallelDone(steps, ParallelSynthesis(steps), results)
    {
      steps := [];
      ghost var logs0 := Logs(roles, agents);
      while |steps| < |roles|
        invariant Valid() && roles == old(roles) && agents == old(agents)
        invariant old(Scripted()) ==> Scripted()
        invariant Spread(task, logs0, old(results), steps)
        decreases |roles| - |steps|
      {
        var r := SpreadTo(task, logs0, old(results), steps, |steps|);
        steps := steps + [r];
      }
      assert roles[..|steps|] == roles;
      var synthesis := SynthesizeParallelResults(steps);
      out := ParallelDone(steps, synthesis, results);
    }

    /**
     * Where the specialists stand after `specialists`: specialist `k` (the
     * agent of role `k + 1`) has run once, on the coordinator's plan.
     */
    ghost predicate Delegating(task: Dict, plan: Json, logs1: seq<AgentLog>, results1: seq<AgentResult>, specialists: seq<AgentResult>)
      requires Valid()
      reads this, agents.Values
    {
      1 + |specialists| <= |roles| && |logs1| == |roles|
      && results == results1 + specialists
      && RolesMatch(specialists, roles[1..])
      && Logs(roles, agents) == Ran(logs1, 1, specialists, SpecialistTasks(plan, task, roles[1..1 + |specialists|]))
    }

    /** One pass of the specialists' loop of `_hierarchical_collaboration`: the agent of role `i` runs. */
    method DelegateTo(task: Dict, plan: Json, ghost logs1: seq<AgentLog>, ghost results1: seq<AgentResult>, ghost specialists: seq<AgentResult>, i: nat)
      returns (r: AgentResult)
      requires Valid() && i == 1 + |specialists| < |roles| && Delegating(task, plan, logs1, results1, specialists)
      modifies this, agents.Values
      ensures Valid() && roles == old(roles) && agents == old(agents)
      ensures old(Scripted()) ==> Scripted()
      ensures Delegating(task, plan, logs1, results1, specialists + [r])
    {
      var t := SpecialistTask(roles[i], plan, task);
      ghost var done := SpecialistTasks(plan, task, roles[1..i]);
      assert SpecialistTasks(plan, task, roles[1..i + 1]) == done + [t] by {
        assert roles[1..i + 1][..i - 1] == roles[1..i];
      }
      r := Dispatch(i, t);
      RanStep(logs1, 1, specialists, done, r, t);
      RolesMatchStep(specialists, roles[1..], r);
      AppendAssoc(results1, specialists, [r]);
    }

    /** The specialists' loop of `_hierarchical_collaboration`: every agent after the first, on the plan. */
    method Delegate(task: Dict, plan: Json) returns (specialists: seq<AgentResult>)
      requires Valid() && |roles| >= 1
      modifies this, agents.Values
      ensures Valid() && roles == old(roles) && agents == old(agents)
      ensures old(Scripted()) ==> Scripted()
      ensures |specialists| == |roles| - 1 && results == old(results) + specialists
      ensures RolesMatch(specialists, roles[1..])
      ensures Logs(roles, agents) == Ran(old(Logs(roles, agents)), 1, specialists, SpecialistTasks(plan, task, roles[1..]))
    {
      specialists := [];
      ghost var logs1 := Logs(roles, agents);
      while 1 + |specialists| < |roles|
        invariant Valid() && roles == old(roles) && agents == old(agents)
        invariant old(Scripted()) ==> Scripted()
        invariant Delegating(task, plan, logs1, old(results), specialists)
        decreases |roles| - |specialists|
      {
        var r := DelegateTo(task, plan, logs1, old(results), specialists, 1 + |specialists|);
        specialists := specialists + [r];
      }
      assert roles[1..1 + |specialists|] == roles[1..];
    }

    /**
     * What `_hierarchical_collaboration` does once the plan exists: every
     * specialist works on it, then the coordinator synthesises their outputs.
     */
    method Coordinate(task: Dict, plan: Json) returns (specialists: seq<AgentResult>, synthesis: AgentResult)
      requires Valid() && |roles| >= 1
      modifies this, agents.Values
      ensures Valid() && roles == old(roles) && agents == old(agents)
      ensures old(Scripted()) ==> Scripted()
      ensures |specialists| == |roles| - 1 && results == old(results) + specialists + [synthesis]
      ensures RolesMatch(specialists, roles[1..]) && synthesis.agentRole == roles[0]
      ensures Logs(roles, agents) == Ran(old(Logs(roles, agents))[0 := AgentLog(
        old(Logs(roles, agents))[0].history + [synthesis], old(Logs(roles, agents))[0].received + [SynthesisTask(roles[0], specialists, task)])],
        1, specialists, SpecialistTasks(plan, task, roles[1..]))
    {
      ghost var logs1 := Logs(roles, agents);
      ghost var results1 := results;
      specialists := Delegate(task, plan);
      ghost var tasks := SpecialistTasks(plan, task, roles[1..]);
      RanBefore(logs1, 1, specialists, tasks, 0, logs1[0]);
      var t := SynthesisTask(roles[0], specialists, task);
      synthesis := Dispatch(0, t);
      RanBefore(logs1, 1, specialists, tasks, 0, AgentLog(logs1[0].history + [synthesis], logs1[0].received + [t]));
      AppendAssoc(results1, specialists, [synthesis]);
    }

    /**
     * `_hierarchical_collaboration`: the first registered agent plans; if it
     * succeeds every other agent works on the plan, and the coordinator then
     * synthesises all their outputs.
     */
    method RunHierarchical(task: Dict) returns (out: RunOutcome, plan: AgentResult, specialists: seq<AgentResult>, synthesis: AgentResult)
      requires Valid()
      modifies this, agents.Values
      ensures Valid() && roles == old(roles) && agents == old(agents)
      ensures old(Scripted()) ==> Scripted()
      ensures out.Crashed? <==> |roles| == 0
      ensures out.Crashed? ==> results == old(results)
      ensures out.PlanFailed? ==>
        results == old(results) + [plan] && !plan.success && plan.agentRole == roles[0]
        && out == PlanFailed("Coordinator failed to create plan", results)
        // only the coordinator ran, on the planning task
        && Logs(roles, agents) == old(Logs(roles, agents))[0 := AgentLog(
             old(Logs(roles, agents))[0].history + [plan], old(Logs(roles, agents))[0].received + [PlanningTask(roles[0], task)])]
      ensures out.Delegated? ==>
        results == old(results) + [plan] + specialists + [synthesis] && |specialists| == |roles| - 1
        && plan.success && plan.agentRole == roles[0] && synthesis.agentRole == roles[0]
        && RolesMatch(specialists, roles[1..])
        && out == Delegated(plan.output, specialists, synthesis.output, results)
        // the coordinator planned and then synthesised; every specialist ran once, on the plan
        && Logs(roles, agents) == Ran(old(Logs(roles, agents))[0 := AgentLog(
             old(Logs(roles, agents))[0].history + [plan, synthesis],
             old(Logs(roles, agents))[0].received + [PlanningTask(roles[0], task), SynthesisTask(roles[0], specialists, task)])],
             1, specialists, SpecialistTasks(plan.output, task, roles[1..]))
      ensures out.Crashed? || out.PlanFailed? || out.Delegated?
    {
      specialists := [];
      if |roles| == 0 {
        // `list(self.agents.keys())[0]` raises `IndexError`
        return Crashed, FailedResult("", "", ""), specialists, FailedResult("", "", "");
      }
      ghost var logs0 := Logs(roles, agents);
      ghost var results0 := results;
      plan := Dispatch(0, PlanningTask(roles[0], task));
      if !plan.success {
        return PlanFailed("Coordinator failed to create plan", results), plan, specialists, plan;
      }
      specialists, synthesis := Coordinate(task, plan.output);
      TwiceRecorded(logs0, 1, specialists, SpecialistTasks(plan.output, task, roles[1..]),
        plan, synthesis, PlanningTask(roles[0], task), SynthesisTask(roles[0], specialists, task));
      AppendAssoc(results0, [plan], specialists);
      out := Delegated(plan.output, specialists, synthesis.output, results);
    }

    /** `collaborate`: run the task in this orchestrator's mode. Results of earlier runs are kept. */
    method Collaborate(task: Dict) returns (out: RunOutcome)
      requires Valid()
      modifies this, agents.Values
      ensures Valid() && roles == old(roles) && agents == old(agents)
      ensures old(Scripted()) ==> Scripted()
      ensures |old(results)| <= |results| && results[..|old(results)|] == old(results)
      ensures mode == Sequential ==> out.Stopped? || out.Completed? || out.Crashed?
      ensures mode == Parallel ==> out.ParallelDone? && |results| == |old(results)| + |roles|
      ensures mode == Hierarchical ==> out.Crashed? || out.PlanFailed? || out.Delegated?
    {
      var steps;
      match mode
      case Sequential => out, steps := RunSequential(task);
      case Parallel => out, steps := RunParallel(task);
      case Hierarchical => var plan, synthesis; out, plan, steps, synthesis := RunHierarchical(task);
    }
  }
}


