# Agent orchestration of llm_design_patterns, in Dafny

This project models the agent layer of the `llm_design_patterns` repository and proves properties of that model. The layer is a set of agents built around a language model:

- **Multi-agent collaboration.** An orchestrator keeps an ordered role-to-agent map and a history of results that only grows. It runs its agents in one of three modes:
  - *sequential*: a pipeline that stops at the first failure;
  - *parallel*: every agent once, followed by a synthesis of the successes;
  - *hierarchical*: a coordinator plans, the specialists work on the plan, and the coordinator synthesises their outputs.

  The software-engineering team (planner, coder, tester, reviewer, coordinator) supplies the agents' prompts and response parsing. A factory assembles the team for a mode.
- **Reflection.** A bounded generate, critique and refine loop with a quality gate.
- **Plan-and-execute and tool use.** A plan, or a single tool choice, is decoded from a bracket- or brace-delimited slice of the model's reply. The chosen tools are then run, one per step.
- **LLM-as-a-jury.** Four judges return verdicts. The chief justice keeps those that were returned, reports their mean, and flattens everything into record rows.
- **Retrieval metrics.** Precision@K, Recall@K and the reciprocal rank of the first relevant document.
- **Tools.** The tool registry, the web-search answer formatting and the date/time question answering.
- **Configuration.** The load-once configuration singleton.

## How the outside world is modelled

- **The language model is an oracle.** It is a script of replies, each either `Says(text)` or `Fails(message)`. An exhausted script fails, as a mock with a used-up `side_effect` list does. Agents are specified by the prompts they send and the replies they consume. The judges, whose `except` clauses depend on the class of the exception, are given one `Call` each instead: `Answered(text)` or `Threw(error)` with the exception's class.
- **Prompts are structured values.** A prompt is a template, the persona and titled sections, not rendered text.
- **JSON decoding is an oracle too.** `json.loads` is a parameter `parse: string -> Option<Json>`. Python's `float()` of a string is `floatOf: string -> Option<real>`. The slicing, key checks, defaults and fallbacks around every decode are modelled exactly.
- **Python values that flow through the agents are `Json` values.** Dictionaries are ordered association lists: insertion order is kept and the first match is looked up. Floats are exact rationals (`real`).
- **Truthiness is modelled where the source branches on it** (`Truthy`).
- **Exceptions are outcomes.** An uncaught exception is `Raised`, through the `Outcome` datatype. An exception the source catches becomes the value it produces.
- **Inputs stand in for the rest of the world:**
  - the clarity judge and the two Ragas evaluations are oracles;
  - the web service's answer is a `Fetch` value;
  - the clock is a `Moment` and a `Date`;
  - the configuration file is a function from path to decoded document.
- **Stateful classes stay classes:**
  - `CollaborationAgent` holds its replies, its prompts and its history;
  - `Orchestrator` holds its mode, role order, agent map and results;
  - `ReflectionAgent` holds a script cursor, counting calls like a mock's `call_count`;
  - `ConfigLoader` holds its `config`, and `ConfigLoaderClass` holds the shared `_instance`.

  Their methods are proved against the value-level functions beside them.
  Each collaboration agent also keeps, as ghost state, the script its model started with. `Faithful` says the agent's history, prompts and remaining replies are what replaying the tasks it received on that script gives (`Replayed`), and every orchestrator operation keeps all its agents faithful (`Scripted`).
- **Both zero-agent runs are modelled as the code behaves, not excluded by a precondition.**
  - A sequential run over no agents reads `previous_output` from the caller's own task. It finishes when that key is present and raises (`Crashed`) when it is not.
  - A hierarchical run over no agents indexes an empty list and raises.

## Model

| member | source | states |
|---|---|---|
| TaskModel.FailedResult | src/agents/collaboration_agent.py:97-106 | a failure result carries the agent's role and the task id, `success` false, `output` None and the exception text as `error` |
| Collaboration.Execution | src/agents/collaboration_agent.py:61-106 | the model is called exactly once when the prompt can be built and never otherwise; the result succeeds exactly when the prompt was built and the model answered; a success carries the parsed reply and the metadata with the agent name and reply length; a failure has output None and an error |
| Collaboration.CollaborationAgent.constructor | src/agents/collaboration_agent.py:56-59 | a new agent has its name, role and persona and an empty history; its script is the replies it was given and it is `Faithful` to it |
| Collaboration.CollaborationAgent.ExecuteTask | src/agents/collaboration_agent.py:61-106 | exactly one result is appended to the history, on success and on failure; the prompts sent and replies consumed are those of `Execution`; `Faithful` is kept: history, prompts and remaining replies stay those of replaying all received tasks on the agent's script |
| Collaboration.Replayed | src/agents/collaboration_agent.py:61-106 | replaying tasks on a script gives one result per task and at most one prompt per task |
| Collaboration.ReplayedStep | src/agents/collaboration_agent.py:61-106 | replaying one more task executes it on the replies the earlier tasks left |
| Collaboration.ExecutionConsumes | src/agents/collaboration_agent.py:71-78 | executing a task sends at most one prompt and consumes exactly one reply per prompt sent |
| Collaboration.ReplayedConsumes | src/agents/collaboration_agent.py:71-78 | the replies left after any tasks are the script without exactly one reply per prompt sent |
| TaskModel.AfterCallDrop | src/agents/collaboration_agent.py:78 | one model call on what `n` calls left leaves what `n + 1` calls leave |
| Collaboration.CollaborationAgent.Run | src/agents/collaboration_agent.py:125-148 | wraps the case data in the `<role>_task` task, appends one result and reports it as a verdict; that result, the prompt sent and the replies left are those of `Execution` of the task on the agent's remaining replies, and `Faithful` is kept |
| Collaboration.VerdictOf | src/agents/collaboration_agent.py:137-148 | a success scores 1.0 with the output's text, a failure 0.0 with `Error: <error>`; the judge is the agent's name |
| Collaboration.SequentialTasks | src/agents/collaboration_agent.py:201-228 | one task per step that ran |
| Collaboration.SequentialTasksAt | src/agents/collaboration_agent.py:224-228 | step k (from 0) is the task `Step k+1` for the k-th role; its input is the original task when k = 0, and otherwise `{previous_output: output of step k-1, original_task, step: k}` |
| Collaboration.ThreadedPrevious | src/agents/collaboration_agent.py:231-235 | what a step hands on is found under `previous_output`, which `final_output` reads |
| Collaboration.ParallelTasks | src/agents/collaboration_agent.py:245-255 | one task per registered role, in order |
| Collaboration.ParallelTasksAt | src/agents/collaboration_agent.py:245-252 | agent k is given `<role> analysis` over the same input |
| Collaboration.SpecialistTasks | src/agents/collaboration_agent.py:301-317 | one task per specialist, in order |
| Collaboration.SpecialistTasksAt | src/agents/collaboration_agent.py:303-313 | specialist k is given the coordinator's plan and the original task |
| Collaboration.Outputs | src/agents/collaboration_agent.py:324 | `specialist_results` holds every specialist's output, None for failures, in order |
| Collaboration.Successful | src/agents/collaboration_agent.py:344 | keeps only successful results, never more than there were |
| Collaboration.SuccessfulAppend | src/agents/collaboration_agent.py:344 | filtering distributes over concatenation, so the order of the successes is kept |
| Collaboration.SuccessfulNone | src/agents/collaboration_agent.py:344-347 | no success is kept exactly when every result failed |
| Collaboration.ParallelSynthesisCases | src/agents/collaboration_agent.py:342-353 | the synthesis is `All parallel tasks failed.` exactly when no result succeeded; otherwise it is the header followed by one `- role: output` line per success, in order |
| Collaboration.ParallelSynthesisExtend | src/agents/collaboration_agent.py:349-353 | one more failed result leaves the synthesis unchanged; one more success appends exactly its `- role: output` line, after the header when it is the first success |
| Collaboration.CountsPartition | src/agents/collaboration_agent.py:357-363 | successful plus failed counts equal the number of results, and the successful count is the number of successes |
| Collaboration.Orchestrator.constructor | src/agents/collaboration_agent.py:157-161 | a new orchestrator has its mode, no agents and no results |
| Collaboration.Orchestrator.Register | src/agents/collaboration_agent.py:163-166 | the agent is keyed by its role; a new role is appended to the order, an existing role keeps its position and its agent is replaced; results are untouched; registering a faithful agent keeps every agent faithful to its script (`Scripted`) |
| Collaboration.Orchestrator.GetSummary | src/agents/collaboration_agent.py:355-367 | successful + failed == total == number of results; the successful count is the number of successes; the agents listed are the roles in registration order and their count is the number of roles; the mode is its value |
| Collaboration.Orchestrator.Dispatch | src/agents/collaboration_agent.py:211-212 | running agent k appends one result to the orchestrator and changes only agent k: its history gains that result and its received tasks gain the task; the result is `Execution` of the task over agent k's remaining replies, whose prompt and leftover replies become the agent's (`Executed`); every agent stays faithful to its script (`Scripted`) |
| Collaboration.Orchestrator.SynthesizeParallelResults | src/agents/collaboration_agent.py:342-353 | the loop computes `ParallelSynthesis` |
| Collaboration.Orchestrator.Advance | src/agents/collaboration_agent.py:201-228 | one pass of the sequential loop keeps the pipeline's invariant for one more step; every agent stays faithful to its script (`Scripted`) |
| Collaboration.Orchestrator.Pipeline | src/agents/collaboration_agent.py:201-228 | step k ran agent k, once, on its pipeline task; every step before the last succeeded; a pipeline that stopped early ended on a failure; results grew by exactly the steps; every agent stays faithful to its script (`Scripted`) |
| Collaboration.Orchestrator.RunSequential | src/agents/collaboration_agent.py:192-235 | if agent i fails, no later agent runs, the run reports `completed_steps` i with that error, and the results grew by i+1; on full success `final_output` is the last agent's output; with no agents it raises exactly when the input has no `previous_output`; every agent stays faithful to its script (`Scripted`) |
| Collaboration.Orchestrator.SpreadTo | src/agents/collaboration_agent.py:245-255 | one pass of the parallel loop keeps its invariant for one more agent; every agent stays faithful to its script (`Scripted`) |
| Collaboration.Orchestrator.RunParallel | src/agents/collaboration_agent.py:237-266 | every agent runs exactly once, in registration order, on the same task; results grow by the number of agents whatever the outcomes; the run always succeeds with the synthesis of the successes; every agent stays faithful to its script (`Scripted`) |
| Collaboration.Orchestrator.DelegateTo | src/agents/collaboration_agent.py:301-317 | one pass of the specialists' loop keeps its invariant for one more specialist; every agent stays faithful to its script (`Scripted`) |
| Collaboration.Orchestrator.Delegate | src/agents/collaboration_agent.py:301-317 | every agent after the coordinator runs once, in order, on the plan; every agent stays faithful to its script (`Scripted`) |
| Collaboration.Orchestrator.Coordinate | src/agents/collaboration_agent.py:301-331 | the specialists run, then exactly one synthesis task of the coordinator over all their outputs; every agent stays faithful to its script (`Scripted`) |
| Collaboration.Orchestrator.RunHierarchical | src/agents/collaboration_agent.py:268-340 | the coordinator is the first registered agent; if its plan fails no specialist runs and the error is `Coordinator failed to create plan`; otherwise every specialist runs once on the plan and the coordinator synthesises once; with no agents it raises; every agent stays faithful to its script (`Scripted`) |
| Collaboration.Orchestrator.Collaborate | src/agents/collaboration_agent.py:168-190 | the run follows the orchestrator's mode, and results from earlier runs are kept as a prefix; a parallel run adds one result per agent; every agent stays faithful to its script (`Scripted`) |
| SoftwareTeam.GetFromPrevious | src/agents/software_team.py:86-89 | `previous_output.get(key, '')` gives the entry or "" for a dictionary, and raises `AttributeError` for anything else |
| SoftwareTeam.Iterate | src/agents/software_team.py:244-245 | iterating `specialist_results` gives a list's items, and raises for values that are not iterable |
| SoftwareTeam.NumberedResults | src/agents/software_team.py:245 | the results are numbered `Agent Result 1..n`, in order |
| SoftwareTeam.PreparePrompt | src/agents/software_team.py:31-287 | the prompt keeps the persona; only Coder, Tester, Reviewer and Coordinator can fail; the first three fail exactly when `previous_output` is present and not a dictionary; the Coder reads its plan from the previous output exactly when there is one; the Coordinator synthesises exactly when `specialist_results` is present, over those results numbered in order, and plans over the requirements otherwise |
| SoftwareTeam.SpecialistBranch | src/agents/software_team.py:133-191 | the Tester's and Reviewer's prompt sections in both branches, and the raise on a previous output that is not a dictionary |
| SoftwareTeam.ApprovalStatus | src/agents/software_team.py:215-221 | the status is one of four; APPROVED exactly when the upper-cased reply contains APPROVED and not NEEDS_CHANGES |
| SoftwareTeam.ApprovalStatusCaseBlind | src/agents/software_team.py:215-221 | the status ignores letter case; NEEDS_CHANGES wins whenever it occurs; NEEDS CHANGES is never REJECTED or UNKNOWN |
| SoftwareTeam.WordRun | src/agents/software_team.py:115 | `[\w]*` matches the longest run of word characters |
| SoftwareTeam.FencedBlock | src/agents/software_team.py:115 | a matched block contains no fence and the rest of the reply is shorter |
| SoftwareTeam.CodeBlocks | src/agents/software_team.py:115 | `re.findall` of the fenced pattern: no block contains a fence |
| SoftwareTeam.NoFenceNoBlocks | src/agents/software_team.py:115 | a reply with no fence has no code blocks |
| SoftwareTeam.SkipPlainText | src/agents/software_team.py:115 | prose before the first fence is skipped |
| SoftwareTeam.FencedBlockOf | src/agents/software_team.py:115 | a fence, a language word, a newline, code and a fence match with that code as the group |
| SoftwareTeam.CodeBlocksOfFenced | src/agents/software_team.py:115 | the blocks are found left to right without overlap: the first fenced block, then those of the rest |
| SoftwareTeam.Labelled | src/agents/software_team.py:65-294 | a parsed response starts with the reply under the role's key and ends with the `role` entry |
| SoftwareTeam.ParseResponse | src/agents/software_team.py:65-294 | the base agent returns the reply itself; a specialist returns a dictionary holding the reply under its key |
| SoftwareTeam.ParseResponseFields | src/agents/software_team.py:65-294 | looking up the role's key gives the unchanged reply and `role` gives the role name |
| SoftwareTeam.ParsedRequirements | src/agents/software_team.py:65-71 | the Planner keeps `requirements` from the input, defaulting to "" |
| SoftwareTeam.ParsedCodeBlocks | src/agents/software_team.py:112-121 | the Coder's `code_blocks` are exactly the fenced blocks, in order |
| SoftwareTeam.ParsedApproval | src/agents/software_team.py:212-227 | the Reviewer's `approval_status` is the classification of the reply |
| TeamFactory.ModeNamed | src/agents/software_team.py:315-322 | a name that is found maps to the mode whose value it is; any other name gives nothing (the `KeyError`) |
| TeamFactory.ModeNamedValue | src/agents/software_team.py:315-319 | every mode is found by its own value |
| TeamFactory.TeamKinds | src/agents/software_team.py:327-350 | four agents: Coordinator, Planner, Coder, Tester for hierarchical; Planner, Coder, Tester, Reviewer otherwise |
| TeamFactory.TeamRolesDistinct | src/agents/software_team.py:327-354 | the four roles of every team differ, so registration keeps all four |
| TeamFactory.PersonaFor | src/agents/base.py:21-25 | a persona is read exactly when the configuration's `agents` section holds a dictionary for the name with both `persona_prompt` and `model`, and it is that `persona_prompt` |
| TeamFactory.NewSpecialist | src/agents/collaboration_agent.py:56-59 | a fresh agent of the kind, with its name, role, configured persona, its reply script, no prompts, no history, and faithful to its script; none when the agent has no configuration |
| TeamFactory.BuildTeam | src/agents/software_team.py:329-350 | the team is built exactly when every agent is configured, and then it has one fresh agent per kind, in order, each with its configured persona, its own reply script, nothing sent or received, and faithful to that script |
| TeamFactory.RegisterAll | src/agents/software_team.py:352-354 | registering agents with distinct roles puts each at its position in the order |
| TeamFactory.Enrol | src/agents/software_team.py:352-354 | the four agents are registered under their roles, in team order |
| TeamFactory.Assemble | src/agents/software_team.py:321-356 | an orchestrator of the mode with the team's four agents in order and no results; each agent has its configured persona, its reply script and nothing sent or received, and every agent is faithful to its script (`Scripted`) |
| TeamFactory.CreateSoftwareTeam | src/agents/software_team.py:298-356 | the mode is matched case-insensitively; an unknown mode gives no orchestrator; otherwise four fresh agents in the mode's order are all registered, each with the persona the configuration gives it, its reply script and nothing sent or received, all faithful to their scripts (`Scripted`) |
| Reflection.DefaultCritique | src/agents/reflection_agent.py:121-128 | the default critique has all four keys, score 0.5 and `is_acceptable` false |
| Reflection.DefaultNeverPasses | src/agents/reflection_agent.py:121-128 | the default critique never passes the gate, whatever the threshold |
| Reflection.CritiqueCases | src/agents/reflection_agent.py:97-119 | no braces gives the default; the extraction raises exactly when the slice decodes to a value that is not a dictionary, string or list (the `in` check); a returned critique is the default or the decoded slice, and a returned dictionary holds all four keys |
| Reflection.CritiqueInProse | src/agents/reflection_agent.py:99-112 | the object between the first `{` and the last `}` is found inside surrounding prose |
| Reflection.Gate | src/agents/reflection_agent.py:213-222 | the gate returns exactly when the critique is a dictionary with a numeric score and an `issues_found` that has a length, and otherwise raises; it passes exactly when the score is at least the threshold and `is_acceptable` is truthy |
| Reflection.Round | src/agents/reflection_agent.py:205-230 | one iteration makes one or two calls, the first a review of the current response; unless it raises, it counts one more iteration and its calls and appends the critique read from the next reply; it goes on only while iterations remain |
| Reflection.Refinement | src/agents/reflection_agent.py:205-230 | the loop always runs to an end, and every call it makes is counted |
| Reflection.RoundAgain | src/agents/reflection_agent.py:220-230 | an iteration that refines keeps the loop invariant |
| Reflection.RoundDone | src/agents/reflection_agent.py:220-227 | an iteration that stops leaves the loop in its final state |
| Reflection.RefinementFacts | src/agents/reflection_agent.py:205-230 | a loop that ends leaves it in its final state |
| Reflection.Conclude | src/agents/reflection_agent.py:235-245 | the result carries the final response, the iterations and the critiques; the improvement is final score minus first score, or 0.0 with no critiques |
| Reflection.ConcludeFacts | src/agents/reflection_agent.py:233-245 | the result carries the loop's final response, iteration count and critiques; its quality score is the final critique's numeric score; the improvement is as in `Conclude` |
| Reflection.Shown | src/agents/reflection_agent.py:53 | a prompt shows no context exactly when the context is missing or empty, and otherwise shows it unchanged |
| Reflection.EmptyContextUnshown | src/agents/reflection_agent.py:39-160 | a run with an empty context makes the same requests and gives the same outcome as one with no context |
| Reflection.ReflectEnds | src/agents/reflection_agent.py:199-245 | the calls are the initial generation, the loop's calls and one final critique of the returned response |
| Reflection.ReflectLoop | src/agents/reflection_agent.py:201-230 | 0 <= iterations <= max_iterations; critiques == iterations; every critique but the last failed the gate; a run stopping early passed it; each critique was read from its reply; the final response is the last generation or refinement |
| Reflection.ReflectResult | src/agents/reflection_agent.py:233-245 | the model is called 2·iterations+1 times (2 with no iterations); the last call critiques the final response; `final_quality_score` is that critique's score; the improvement as stated |
| Reflection.ReflectionAgent.constructor | src/agents/reflection_agent.py:28-37 | a new agent has its persona and iteration limit and has made no call |
| Reflection.ReflectionAgent.Invoke | src/agents/reflection_agent.py:59 | one model call returns the next scripted reply and records the prompt |
| Reflection.ReflectionAgent.Iterate | src/agents/reflection_agent.py:205-230 | one pass of the loop does what `Round` says, and records its prompts and calls |
| Reflection.ReflectionAgent.Advance | src/agents/reflection_agent.py:205-230 | a pass that refines keeps the loop invariant for one more iteration; a pass that stops ends the loop as `Refinement` does |
| Reflection.ReflectionAgent.Refining | src/agents/reflection_agent.py:205-230 | the while loop does what `Refinement` says, and records every prompt and call |
| Reflection.ReflectionAgent.Finish | src/agents/reflection_agent.py:233-245 | the final critique call and the result dictionary, as the value-level run computes them |
| Reflection.ReflectionAgent.Run | src/agents/reflection_agent.py:172-252 | the run does what `Reflect` says, calling the model once per prompt it records |
| Planning.PlanOf | src/agents/planning_agent.py:54-81 | a non-empty plan is the list decoded from the slice between the first `[` and the last `]`, and every step passes the check for `step`, `tool_name` and `tool_params` |
| Planning.PlanOfChatty | src/agents/planning_agent.py:56-69 | a valid plan is returned unchanged even inside prose |
| Planning.PlanOfRejects | src/agents/planning_agent.py:64-68 | one step lacking a key rejects the whole plan |
| Planning.Outcomes | src/agents/planning_agent.py:106-120 | one outcome per plan step, in order |
| Planning.Sequenced | src/agents/planning_agent.py:105-120 | a run without an uncaught exception has one entry per step |
| Planning.SequencedSteps | src/agents/planning_agent.py:105-120 | the loop raises exactly when some step raises, and otherwise entry i is step i's result |
| Planning.StepResults | src/agents/planning_agent.py:105-120 | `step_results` has one entry per plan step |
| Planning.StepResultsSteps | src/agents/planning_agent.py:106-120 | the loop raises exactly when some step raises; otherwise entry i is step i's result, in plan order |
| Planning.RunStep | src/agents/planning_agent.py:107-120 | one iteration of the loop computes the step's outcome |
| Planning.ExecutePlan | src/agents/planning_agent.py:105-120 | the for loop computes `StepResults` |
| Planning.Run | src/agents/planning_agent.py:91-139 | the run does what `PlanRun` says |
| Planning.SynthesisSeesEveryStep | src/agents/planning_agent.py:98-139 | the model is asked once or twice, first to plan the goal; a second call is a synthesis over one result per plan step and answers exactly when its reply does; the no-plan text comes after a single call exactly when the first reply yields no plan |
| Planning.RegisteredStep | src/agents/planning_agent.py:115-118 | a registered tool runs once on `tool_params`, defaulting to "", and its result is recorded |
| Planning.RegisteredPlanRuns | src/agents/planning_agent.py:105-120 | a plan of registered tools records every tool's result, in order |
| Planning.UnknownToolRecorded | src/agents/planning_agent.py:111-113 | an unknown tool records `Step i+1 failed: Tool '<name>' not found.` and the loop carries on |
| Planning.TextStepAcceptedThenRaises | src/agents/planning_agent.py:64-107 | a string step that mentions all three key names passes validation; the run then raises at `step['step']` after the one planning call |
| Extract.DelimitedSlice | src/agents/planning_agent.py:56-60 | a slice exists exactly when both delimiters occur |
| Extract.DelimitedSliceShape | src/agents/reflection_agent.py:99-103 | the slice runs from the first opening to the last closing delimiter inclusive, and is empty when they are out of order |
| Extract.JsonPayload | src/agents/relevance_judge.py:37-40 | a reply with no ```` ```json ```` fence is parsed whole |
| Extract.JsonPayloadFenced | src/agents/chief_justice.py:70-73 | with a fence, the payload is the stripped text after the first fence, up to the next closing fence or the end |
| PyJson.AllIn | src/agents/planning_agent.py:66 | `all(key in step ...)` checks the keys of a dictionary, and raises exactly for a value that is not a container, when there is a key to check |
| Verdicts.PyFloat | src/agents/factual_judge.py:77 | `float()` keeps numbers and raises for null, lists and objects |
| Judges.Judged | src/agents/relevance_judge.py:42-58 | a verdict carries the judge's name and its metrics |
| Judges.FormatErrorFallback | src/agents/relevance_judge.py:47-51 | a reply that is not a JSON object gives score 0.0 and the format-error text |
| Judges.StatedScoreUsed | src/agents/relevance_judge.py:44-56 | a decoded numeric `final_score` is the score, with `verdict_text` or its default |
| Judges.DefaultsWhenKeysMissing | src/agents/relevance_judge.py:44-45 | missing keys default to 0.0 and `Could not generate a verdict.` |
| Judges.UnreadableScoreRaises | src/agents/relevance_judge.py:55 | a stated score of null, a list or an object makes `float()` raise, uncaught |
| Judges.AskedJudge | src/agents/relevance_judge.py:14-58 | a returned verdict is named after the judge and has no metrics; a call raising a caught class gives the fallback only when `response_str` was preset |
| Judges.Relevance | src/agents/relevance_judge.py:14-58 | a returned verdict is named `RelevanceJudgeAgent` with empty metrics; `response_str` is not preset |
| Judges.Safety | src/agents/safety_judge.py:14-60 | a returned verdict is named `SafetyJudgeAgent` with empty metrics; `response_str` is preset to None |
| Judges.AskedJudgeReturns | src/agents/relevance_judge.py:21-58 | a verdict is always returned except when the question or answer is missing, the model call raises a class the judge does not survive, or `float()` rejects the answered score |
| Judges.RaisingCall | src/agents/safety_judge.py:33-53 | a raising model call never gives a relevance verdict (its handler prints the unbound `response_str`); the safety judge gives the fallback verdict for `JSONDecodeError`, `AttributeError` and `IndexError` when the case has question and answer, and raises otherwise |
| Judges.AskedJudgeFallback | src/agents/safety_judge.py:48-53 | a payload that is no JSON object still gives the fallback verdict |
| Judges.UnfencedReadWhole | src/agents/safety_judge.py:38-43 | without a fence the whole reply is read |
| Judges.RagasScores | src/agents/factual_judge.py:23-40 | the Ragas step succeeds only with all four case keys |
| Judges.FactualVerdicts | src/agents/factual_judge.py:16-80 | None exactly when the Ragas step fails, and then with no model call; every verdict carries the two Ragas values as its metrics |
| Judges.FactualRaisingCall | src/agents/factual_judge.py:60-73 | after a numeric Ragas step, a raising model call gives a verdict exactly for `JSONDecodeError` and `AttributeError`, and it is the fallback: score 0.0 with the format-error text |
| Judges.RagasDefaults | src/agents/factual_judge.py:35-36 | absent Ragas keys default to 0.0 |
| ChiefJustice.JuryOutcomes | src/agents/chief_justice.py:20-36 | the jury yields exactly four outcomes, one per judge |
| ChiefJustice.Collected | src/agents/chief_justice.py:34-40 | collection raises exactly when a judge raises; otherwise it is exactly the verdicts returned, in jury order (`Kept`) |
| ChiefJustice.KeptAppend | src/agents/chief_justice.py:34-40 | keeping the returned verdicts distributes over appending one more outcome |
| ChiefJustice.CollectedMixed | src/agents/chief_justice.py:34-40 | with a factual verdict, a None, a relevance verdict and a None, exactly the two verdicts are collected, factual first |
| ChiefJustice.CollectVerdicts | src/agents/chief_justice.py:34-40 | the loop computes `Collected` |
| ChiefJustice.CollectedAll | src/agents/chief_justice.py:34-40 | when every judge returns a verdict, all are kept in jury order |
| ChiefJustice.CollectedNone | src/agents/chief_justice.py:34-44 | when no judge returns a verdict, none is collected |
| ChiefJustice.SumBounded | src/agents/chief_justice.py:66 | the sum of the scores lies between n·lo and n·hi |
| ChiefJustice.MeanBounded | src/agents/chief_justice.py:66 | the mean lies within the scores' bounds |
| ChiefJustice.Judgment | src/agents/chief_justice.py:64-93 | the final verdict is the chief justice's and `individual_verdicts` is exactly the collected list |
| ChiefJustice.JudgmentScore | src/agents/chief_justice.py:64-85 | when the reply parses as an object the score is the mean of the collected scores, whatever the model states, and 0.0 otherwise; a missing `verdict_text` gives the default judgment text |
| ChiefJustice.Run | src/agents/chief_justice.py:27-93 | the run does what `ChiefRun` says |
| ChiefJustice.JuryOrder | src/agents/chief_justice.py:20-44 | four verdicts are collected in jury order; with none the run returns None whatever the reply |
| ChiefJustice.ChiefVerdicts | src/agents/chief_justice.py:42-93 | a verdict is returned exactly when something was collected and the model answered; it nests the collected list and scores their mean |
| ChiefJustice.Put | src/agents/chief_justice.py:109 | a record update keeps the existing keys in place, adds at most one column, and holds the new pair |
| ChiefJustice.Update | src/agents/chief_justice.py:108-109 | updating with metrics keeps the existing columns first and adds at most one column per metric |
| ChiefJustice.UpdateKeepsOther | src/agents/chief_justice.py:108-109 | metrics never overwrite a column they do not name |
| ChiefJustice.Summary | src/agents/chief_justice.py:113-117 | the summary row has judge, score and verdict only |
| ChiefJustice.Row | src/agents/chief_justice.py:102-109 | a verdict's row starts with judge, score and verdict |
| ChiefJustice.RowNamesJudge | src/agents/chief_justice.py:102-109 | the row names the judge unless a metric overwrites that column |
| ChiefJustice.MetricOf | src/agents/chief_justice.py:100 | a looked-up metric is one of the verdict's metrics, under that key |
| ChiefJustice.VerdictsToRecords | src/agents/chief_justice.py:99-117 | the loop computes `Records` |
| ChiefJustice.RecordsShape | src/agents/chief_justice.py:99-117 | one row per individual verdict, in order, then the summary row |
| ChiefJustice.ChiefRecords | src/agents/chief_justice.py:88-117 | a chief verdict flattens to its jury's rows and its own summary row |
| Retrieval.HitsBounded | src/classic_metrics.py:55 | the hits are bounded by the distinct retrieved and the distinct relevant documents |
| Retrieval.Precision | src/classic_metrics.py:57 | precision lies in [0,1] and is 0 exactly when nothing was retrieved or nothing retrieved is relevant |
| Retrieval.Recall | src/classic_metrics.py:58 | recall lies in [0,1]; it is 0 exactly when nothing is relevant or nothing relevant was retrieved, and 1 exactly when every relevant document was retrieved |
| Retrieval.FirstHit | src/classic_metrics.py:62-65 | the first index whose document is relevant |
| Retrieval.FirstHitIsHit | src/classic_metrics.py:61-65 | a first hit exists exactly when the hits are non-zero |
| Retrieval.ReciprocalRank | src/classic_metrics.py:60-65 | the reciprocal rank lies in [0,1]; it is 0 exactly with no hit, and 1 exactly when the first document is relevant |
| Retrieval.MeanReciprocalRank | src/classic_metrics.py:60-65 | the loop with `break` computes `ReciprocalRank` |
| Retrieval.RetrievalMetrics | src/classic_metrics.py:67-71 | three entries in [0,1], the last named `mrr` |
| Retrieval.EvaluateRetrievalMetrics | src/classic_metrics.py:47-71 | the method computes `RetrievalMetrics` |
| Retrieval.PerfectRetrieval | tests/test_classic_metrics.py:149-163 | retrieving exactly the relevant documents, once each, scores 1 on all three |
| Retrieval.NothingRelevantRetrieved | src/classic_metrics.py:55-65 | with no relevant document retrieved all three are 0 |
| Retrieval.PartialRetrieval | tests/test_classic_metrics.py:165-179 | the partial example gives `precision_at_4` 0.25, `recall_at_4` 1/3 and `mrr` 0.5 |
| Tools.ToolFor | src/agents/tool_using_agent.py:75 | `tools.get(name)` looks up a string name and raises for an unhashable list or object |
| Tools.RegistryNamed | src/tools.py:248-253 | a name finds a tool exactly when that tool is not the base tool and its `name` is the name |
| Tools.RegistryNames | src/tools.py:248-253 | each registry key finds its own tool |
| Tools.Execute | src/tools.py:14-15 | only the base tool raises, with its fixed message |
| Tools.RegisteredToolsReturn | src/tools.py:25-245 | no registered tool lets an exception out of `execute` |
| Tools.FirstThree | src/tools.py:54 | `related_topics[:3]` is at most three items, the list's first three, and raises for values that cannot be sliced |
| Tools.TopicTexts | src/tools.py:54-56 | at most one text per topic |
| Tools.JoinValues | src/tools.py:57 | the join raises exactly when an item is not a string |
| Tools.Search | src/tools.py:25-65 | the method computes `SearchAnswer` |
| Tools.AnswerFields | src/tools.py:44-60 | the answer from the decoded dictionary |
| Tools.AnswerParts | src/tools.py:44-60 | a truthy abstract gives `Search result: …`; otherwise a truthy heading and topics give the listing; otherwise the not-found hint |
| Tools.ListTopics | src/tools.py:52-57 | the method computes the listing |
| Tools.CollectTexts | src/tools.py:53-56 | the loop collects the heading, then each kept topic's text |
| Tools.SearchReportsRequestFailures | src/tools.py:62-63 | the answer starts `Error performing web search: ` exactly when the request failed |
| Tools.FetchedAnswerStart | src/tools.py:41-65 | an answered request is never reported as an error |
| Tools.ListingUsesFirstThree | src/tools.py:54 | topics after the third never reach the listing |
| Tools.TopicTextsSkip | src/tools.py:55-56 | topics that are not dictionaries with `Text` are skipped |
| Tools.ListingOfTopics | src/tools.py:52-57 | `Search results:\n`, then the heading and the texts of the first three topics, joined by `\n- ` |
| Tools.DaysInMonth | src/tools.py:196 | every month has 28 to 31 days |
| Tools.Weekday | src/tools.py:197 | the weekday is 0 to 6 |
| Tools.OrdinalOrder | src/tools.py:229 | ordinals follow calendar order, so the difference of two dates measures the days between them |
| Tools.ChristmasThursday | tests/test_tools.py:386-390 | 25 December 2025 is a valid date and a Thursday, printed `December 25, 2025` |
| Tools.FindYear | src/tools.py:172 | the leftmost standalone `20dd` |
| Tools.YearValue | src/tools.py:174 | the year lies in 2000..2099 |
| Tools.DayLength | src/tools.py:192 | two digits are tried before one, at word boundaries |
| Tools.FindDay | src/tools.py:192 | the leftmost standalone one- or two-digit number |
| Tools.DayOf | src/tools.py:193 | the day read from the query lies in 0..99 |
| Tools.FirstMonthEntry | src/tools.py:186-189 | the first month name, in the dictionary's insertion order, that the lower-cased query contains |
| Tools.FindMonth | src/tools.py:185-189 | the loop with `break` computes that month |
| Tools.MonthOfFound | src/tools.py:177-189 | a month is found exactly when the query contains some month's three-letter abbreviation, and the one found is named in the query |
| Tools.TargetOf | src/tools.py:172-196 | a target date the tool builds is a valid date |
| Tools.DateTimeTool | src/tools.py:149-245 | the tool's answer is `DateTimeAnswer` of the query, the clock and today's date |
| Tools.DateTimeErrors | src/tools.py:149-245 | the answer is an error (it starts with `E`, as only `Error processing date/time query: …` does) exactly when the query is not a string, or when a weekday or days-until question, not caught by an earlier keyword, names a day its month does not have |
| Tools.CountAhead | src/tools.py:231-232 | a date ahead is answered `There are N days until …` with N the days between |
| Tools.CountBehind | src/tools.py:233-234 | a date behind is answered `That date was N days ago` |
| Tools.CountToday | src/tools.py:235-236 | `That date is today!` is the answer exactly when the target is today |
| ToolUse.ChoiceOf | src/agents/tool_using_agent.py:46-57 | the choice is the value decoded from the slice between the first `{` and the last `}`, or `{"tool_name": "None"}`, which is what a reply without braces gives |
| ToolUse.ChoiceOfChatty | src/agents/tool_using_agent.py:48-52 | the choice is found inside surrounding prose |
| ToolUse.AsksOnceOrTwice | src/agents/tool_using_agent.py:59-102 | the choice call comes first and at most one more call follows: exactly when no tool is chosen or a found tool ran, and then its reply is the answer |
| ToolUse.NoToolAnswersDirectly | src/agents/tool_using_agent.py:66-72 | an undecodable choice is answered by one direct call on the prompt; no tool runs |
| ToolUse.RegisteredToolSynthesized | src/agents/tool_using_agent.py:79-102 | a registered tool runs once on `tool_params`, defaulting to "", and the single synthesis sees its result |
| ToolUse.UnknownToolReported | src/agents/tool_using_agent.py:75-77 | an unregistered name returns `Error: Tool '<name>' not found.` with no second call |
| ToolUse.RaisingToolReported | src/agents/tool_using_agent.py:80-83 | a raising tool returns `Error executing tool '<name>': <e>` with no second call |
| Config.Section | src/agents/config.py:21 | a section is found exactly when the configuration is a dictionary holding it |
| Config.Entry | src/agents/config.py:19-29 | an entry is found exactly when its section is a dictionary holding the name, and is the value stored there; `ValueError` with the given message exactly when the section exists and `in` reports the name absent; every other case raises |
| Config.ConfigLoader.constructor | src/agents/config.py:8-12 | a new instance has no `config` yet |
| Config.ConfigLoader.Init | src/agents/config.py:14-17 | `config` is loaded from the path only when it is absent, and the call succeeds exactly when the file yields a document; a loaded `config` is left unchanged |
| Config.ConfigLoader.GetAgentConfig | src/agents/config.py:19-23 | the entry is found exactly when the `agents` section is a dictionary holding the name, and is that value; `ValueError` with `Agent '<name>' not found in configuration.` exactly when the section exists and does not contain the name |
| Config.ConfigLoader.GetEmbeddingModelConfig | src/agents/config.py:25-29 | the entry is found exactly when the `embedding_models` section is a dictionary holding the key, and is that value; `ValueError` with `Embedding model key '<key>' not found in configuration.` exactly when the section exists and does not contain the key |
| Config.ConfigLoaderClass.constructor | src/agents/config.py:6 | no instance exists yet |
| Config.ConfigLoaderClass.Construct | src/agents/config.py:8-17 | construction always returns the one shared instance, which is fresh only the first time; `config` is loaded only at the first construction that succeeds |
| Config.ConfigLoaderClass.ConstructTwice | src/agents/config.py:8-17 | two constructions give the same instance, and a second path does not replace the configuration loaded from the first |

## Left out

- The language-model back ends and the Ragas evaluator (`src/llm_evaluation.py`): they wrap external libraries and appear only as scripted replies and oracle functions.
- `factual_judge.py:61`, `relevance_judge.py:34` and `chief_justice.py:68` call `self.llm.invoke`, but the `OllamaLLM` wrapper has no `invoke` of its own: it has only `generate` and an inner `.llm`, so with that wrapper these calls raise `AttributeError`. The model does not fix the wrapper: the call is an input `Call`, and the wrapper's behaviour is the case `Threw(AttributeError)` (`safety_judge.py:35` calls `self.llm.llm.invoke`, which exists).
- A judge's model call that raises is caught only by an `except` clause naming its class. The factual judge catches `JSONDecodeError` and `AttributeError` and falls back. The safety judge also catches `IndexError` and falls back. The relevance judge and the chief justice catch the same three, but their handler prints `response_str`, which is still unbound, so `UnboundLocalError` propagates (`Raised`). All classes other than those three are one class, `OtherError`.
- `Fails(message)` in a script stands for any exception of a model call outside the judges. The collaboration agent catches every `Exception` with its text (`TaskModel.FailedResult`); the planning, reflection and tool-using agents do not wrap their model calls, so the exception propagates (`Raised`). The exception's class is not modelled there because none of these handlers depends on it.
- The clarity judge's source is not part of this model; it is an oracle returning a verdict, None, or an exception.
- The `CalculatorTool` and `CodeInterpreterTool` evaluations: they are Python `eval` and float formatting. They are an oracle in the tool environment, and only the fact that they never raise is stated.
- The HTTP request of the web search and the clock of the date tool are inputs (`Fetch`, `Moment`, `Date`).
- ROUGE, BLEU, BERTScore and nDCG in `src/classic_metrics.py`: library wrappers and floating-point logarithms.
- All `print` logging, the drivers and demos, and pandas: `verdicts_to_dataframe` is modelled as its list of records. Column reordering and missing-value filling of the frame are left out.
- Concurrency: parallel mode is the sequential loop the code runs.
- The orchestrator's `config_loader` attribute is stored but never used, so it is not modelled.
- The lines after the `return []` at `src/agents/planning_agent.py:81` (82-89) cannot be reached and are not modelled.
- Python's exception messages are modelled only where a message becomes data. Slicing a dictionary raises `TypeError` with the text `unhashable type: 'slice'` (`Tools.FirstThree`); the wording other Python versions give is not modelled.
- Lower-casing, upper-casing, `\w` and `\d` cover ASCII letters and digits only; there is no Unicode case mapping.
- The date tool's calendar is the proleptic Gregorian calendar of `datetime.date`. Only years from 1 are modelled, and the query's year is always 2000–2099.
- The model keeps Python truthiness for `is_acceptable` and the other values the code branches on, rather than typed booleans.
- The prompts' rendered text (f-strings, `json.dumps` of critiques, `{step_results}` as a Python list repr) is not modelled; prompts are structured values.
- The default arguments `max_iterations=3` (`src/agents/reflection_agent.py:28`), `context=None` and `quality_threshold=0.8` (`src/agents/reflection_agent.py:175-176`) are not modelled: the reflection agent's constructor and `Run` always take all of them.
- Config.ConfigLoaderClass.Construct: reading the file is a function from path to decoded document; `open` and `json.load` failures are both "no document".
- Collaboration.Orchestrator.Collaborate: states only which kind of outcome each mode gives and that earlier results are kept; the full contract of each mode is on `RunSequential`, `RunParallel` and `RunHierarchical`.
- Collaboration.Orchestrator.RunSequential, Collaboration.Orchestrator.RunParallel, Collaboration.Orchestrator.RunHierarchical: each run's results are tied to the agents' scripted replies through the `Scripted` invariant it keeps (every agent's history, prompts and remaining replies are those of replaying the tasks it received on its script), not by an `Execution` equation per step in the run's own contract; the per-step equation is on `Dispatch`.
- Judges.Judged: its contract states only the verdict's name and metrics; the score and text are stated by `FormatErrorFallback`, `StatedScoreUsed`, `DefaultsWhenKeysMissing` and `UnreadableScoreRaises`.
- Tools.DateTimeTool: the today, current-time and default branches format the clock (`FullDate`, `ClockText`), but no lemma states their text beyond the method's equality with `DateTimeAnswer`.
