/**
 * The tool-using agent (`ToolUsingAgent`): one model call chooses a tool
 * and its parameter as a JSON object; the chosen tool runs once and a
 * second model call turns its result into the answer. When no tool is
 * chosen the second call answers the prompt directly.
 */
module ToolUse {
  import opened Basics
  import opened PyJson
  import opened TaskModel
  import opened Extract
  import opened Tools

  /** What the agent asks the model. */
  datatype Ask =
    | Choose(prompt: string)
    | Direct(prompt: string)
    | Synthesize(prompt: string, tool: string, params: string, result: string)

  /** What a run returns or raises, and what it asked the model. */
  datatype Session = Session(outcome: Outcome<string>, asks: seq<Ask>)

  /** The choice that stands for "no tool": `{"tool_name": "None"}`. */
  const NoChoice := JObj([("tool_name", JStr("None"))])

  /**
   * `_choose_tool` after the model replied `completion`: the decoded text
   * between the first `{` and the last `}`; no braces, or text that does
   * not decode, give `NoChoice`.
   */
  function ChoiceOf(completion: string, parse: string -> Option<Json>): (choice: Json)
    ensures DelimitedSlice(completion, '{', '}').None? ==> choice == NoChoice
    ensures choice == NoChoice || (DelimitedSlice(completion, '{', '}').Some?
      && parse(DelimitedSlice(completion, '{', '}').value) == Some(choice))
  {
    match DelimitedSlice(completion, '{', '}')
    case None => NoChoice
    case Some(text) =>
      match parse(text)
      case None => NoChoice
      case Some(v) => v
  }

  /** A reply with prose around the JSON object still yields the choice. */
  lemma ChoiceOfChatty(before: string, body: string, after: string, parse: string -> Option<Json>, choice: Json)
    requires '{' !in before && '}' !in after && parse("{" + body + "}") == Some(choice)
    ensures ChoiceOf(before + "{" + body + "}" + after, parse) == choice
  {
    DelimitedSliceOfWrapped(before, body, after, '{', '}');
    assert before + "{" + body + "}" + after == before + ['{'] + body + ['}'] + after;
    assert ['{'] + body + ['}'] == "{" + body + "}";
  }

  /** A model call: its text, or the exception it raises. */
  function Answer(reply: Reply): (r: Outcome<string>)
    ensures r.Returned? <==> reply.Says?
    ensures reply.Says? ==> r.value == reply.text
  {
    match reply
    case Says(text) => Returned(text)
    case Fails(_) => Raised
  }

  /** `not tool_name or tool_name == "None"`: the choice asks for no tool. */
  predicate NoTool(name: Json) {
    !Truthy(name) || name == JStr("None")
  }

  /** `ToolUsingAgent.run(prompt)` once the first reply has been decoded to `choice`. */
  function Dispatch(prompt: string, choice: Json, script: seq<Reply>,
                    tools: seq<(string, Tool)>, env: Environment): Session
    requires ValidEnvironment(env)
  {
    var choose := Choose(prompt);
    if !choice.JObj? then Session(Raised, [choose])
    else
      var name := GetOr(choice.fields, "tool_name", JNull);
      if NoTool(name) then Session(Answer(ReplyAt(script, 1)), [choose, Direct(prompt)])
      else
        match ToolFor(tools, name)
        case Raised => Session(Raised, [choose])
        case Returned(None) => Session(Returned("Error: Tool '" + Str(name) + "' not found."), [choose])
        case Returned(Some(tool)) =>
          var params := GetOr(choice.fields, "tool_params", JStr(""));
          match Execute(tool, params, env)
          case Error(e) => Session(Returned("Error executing tool '" + Str(name) + "': " + e), [choose])
          case Ok(result) =>
            Session(Answer(ReplyAt(script, 1)), [choose, Synthesize(prompt, Str(name), Str(params), result)])
  }

  /** `ToolUsingAgent.run(prompt)`: the first reply chooses, the second answers. */
  function ToolRun(prompt: string, script: seq<Reply>, parse: string -> Option<Json>,
                   tools: seq<(string, Tool)>, env: Environment): Session
    requires ValidEnvironment(env)
  {
    match ReplyAt(script, 0)
    case Fails(_) => Session(Raised, [Choose(prompt)])
    case Says(completion) => Dispatch(prompt, ChoiceOf(completion, parse), script, tools, env)
  }

  /**
   * Every run first asks for a choice and asks at most once more; the
   * second call is made exactly when the choice is "no tool" or a found
   * tool ran without raising, and then it is the answer.
   */
  lemma AsksOnceOrTwice(prompt: string, choice: Json, script: seq<Reply>,
                        tools: seq<(string, Tool)>, env: Environment)
    requires ValidEnvironment(env)
    ensures var s := Dispatch(prompt, choice, script, tools, env);
      1 <= |s.asks| <= 2 && s.asks[0] == Choose(prompt)
      && (|s.asks| == 2 <==>
            choice.JObj?
            && var name := GetOr(choice.fields, "tool_name", JNull);
            (NoTool(name)
             || (ToolFor(tools, name).Returned? && ToolFor(tools, name).value.Some?
                 && Execute(ToolFor(tools, name).value.value, GetOr(choice.fields, "tool_params", JStr("")), env).Ok?)))
      && (|s.asks| == 2 ==> s.outcome == Answer(ReplyAt(script, 1)))
  {
  }

  /** No tool chosen: the answer is one direct call on the prompt, and nothing runs. */
  lemma NoToolAnswersDirectly(prompt: string, completion: string, script: seq<Reply>, parse: string -> Option<Json>,
                              tools: seq<(string, Tool)>, env: Environment)
    requires ValidEnvironment(env) && ReplyAt(script, 0) == Says(completion)
    requires DelimitedSlice(completion, '{', '}').None? || parse(DelimitedSlice(completion, '{', '}').value).None?
    ensures ToolRun(prompt, script, parse, tools, env) == Session(Answer(ReplyAt(script, 1)), [Choose(prompt), Direct(prompt)])
  {
    assert GetOr(NoChoice.fields, "tool_name", JNull) == JStr("None");
  }

  /**
   * With the repository's registry, a chosen registered tool runs once on
   * the chosen parameter and the synthesis sees exactly its result.
   */
  lemma RegisteredToolSynthesized(prompt: string, choice: Json, script: seq<Reply>, env: Environment, name: string)
    requires ValidEnvironment(env) && choice.JObj?
    requires GetOr(choice.fields, "tool_name", JNull) == JStr(name) && name != "None" && Lookup(name).Some?
    ensures var params := GetOr(choice.fields, "tool_params", JStr(""));
      Execute(Lookup(name).value, params, env).Ok? &&
      Dispatch(prompt, choice, script, Registry, env)
        == Session(Answer(ReplyAt(script, 1)),
                   [Choose(prompt), Synthesize(prompt, name, Str(params), Execute(Lookup(name).value, params, env).value)])
  {
    var params := GetOr(choice.fields, "tool_params", JStr(""));
    RegisteredToolsReturn(name, params, env);
    assert name != "" by {
      RegistryNamed(name, Lookup(name).value);
    }
  }

  /** A tool name that is no registered tool ends the run with the not-found text and no second call. */
  lemma UnknownToolReported(prompt: string, choice: Json, script: seq<Reply>,
                            tools: seq<(string, Tool)>, env: Environment, name: string)
    requires ValidEnvironment(env) && choice.JObj?
    requires GetOr(choice.fields, "tool_name", JNull) == JStr(name) && name != "" && name != "None"
    requires LookupIn(tools, name).None?
    ensures Dispatch(prompt, choice, script, tools, env)
      == Session(Returned("Error: Tool '" + name + "' not found."), [Choose(prompt)])
  {
  }

  /** The base tool, which every tool class extends, is reported as an execution error. */
  lemma RaisingToolReported(prompt: string, choice: Json, script: seq<Reply>,
                            tools: seq<(string, Tool)>, env: Environment, name: string)
    requires ValidEnvironment(env) && choice.JObj?
    requires GetOr(choice.fields, "tool_name", JNull) == JStr(name) && name != "" && name != "None"
    requires LookupIn(tools, name) == Some(BaseTool)
    ensures Dispatch(prompt, choice, script, tools, env)
      == Session(Returned("Error executing tool '" + name + "': " + NotImplementedText), [Choose(prompt)])
  {
  }
}
