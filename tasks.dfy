/**
 * The task/result records of the collaboration layer
 * (`AgentTask`, `AgentResult`), the replies of the language model that
 * every agent consults, and the prompts agents send to it.
 */
module TaskModel {
  import opened Basics
  import opened PyJson

  /** A unit of work handed to one agent. */
  datatype AgentTask = AgentTask(
    agentRole: string,
    description: string,
    inputData: Dict,
    dependencies: seq<string>,
    taskId: string)

  /** What one agent made of one task; `output` is `JNull` (Python's `None`) on failure. */
  datatype AgentResult = AgentResult(
    agentRole: string,
    taskId: string,
    success: bool,
    output: Json,
    metadata: Dict,
    error: Option<string>)

  /** The result recorded when executing a task raised an exception with text `message`. */
  function FailedResult(role: string, taskId: string, message: string): (r: AgentResult)
    ensures !r.success && r.output == JNull && r.error == Some(message)
    ensures r.agentRole == role && r.taskId == taskId
  {
    AgentResult(role, taskId, false, JNull, [], Some(message))
  }

  /**
   * One call of the language model: the completion it returned, or the
   * exception it raised, as `str(e)`.
   */
  datatype Reply = Says(text: string) | Fails(message: string)

  /**
   * The model is a script of replies consumed in order, like the
   * `side_effect` list of a mock. Once the script is exhausted a call
   * raises, as such a mock raises `StopIteration` (whose text is empty).
   */
  function NextReply(script: seq<Reply>): Reply {
    if script == [] then Fails("") else script[0]
  }

  /** The script left after one call. */
  function AfterCall(script: seq<Reply>): (r: seq<Reply>)
    ensures |r| == if script == [] then 0 else |script| - 1
  {
    if script == [] then [] else script[1..]
  }

  /** The reply to call number `n` (from 0) of a fresh script. */
  function ReplyAt(script: seq<Reply>, n: nat): Reply {
    if n < |script| then script[n] else Fails("")
  }

  /** The script left after `n` calls. */
  function Drop(script: seq<Reply>, n: nat): seq<Reply> {
    if n <= |script| then script[n..] else []
  }

  /** The reply to call `k` of what is left after `n` calls is the reply to call `n + k`. */
  lemma DropReplyAt(script: seq<Reply>, n: nat, k: nat)
    ensures ReplyAt(Drop(script, n), k) == ReplyAt(script, n + k)
  {
  }

  /** One call on what is left after `n` calls leaves what is left after `n + 1`. */
  lemma AfterCallDrop(script: seq<Reply>, n: nat)
    ensures AfterCall(Drop(script, n)) == Drop(script, n + 1)
  {
    if n < |script| {
      assert script[n..][1..] == script[n + 1..];
    }
  }

  /** One labelled value interpolated into a prompt (`"Requirements:\n{requirements}"`). */
  datatype Section = Section(title: string, body: Json)

  /** Which of the agents' fixed prompt texts a prompt uses. */
  datatype Template =
    | TaskTemplate(description: string)
    | PlannerTemplate
    | CoderTemplate
    | TesterTemplate
    | ReviewerTemplate
    | CoordinatorPlanning
    | CoordinatorSynthesis

  /**
   * A prompt, kept as its parts rather than its rendered text: the template,
   * the persona prepended to it and the values interpolated into it.
   */
  datatype Prompt = Prompt(template: Template, persona: Json, sections: seq<Section>)
}
