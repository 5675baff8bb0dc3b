/**
 * The specialised agents of the software-engineering team: how each builds
 * its prompt from a task and how it turns the model's completion into its
 * output. The plain collaboration agent (`Generic`) is the base behaviour
 * the specialists override.
 */
module SoftwareTeam {
  import opened Basics
  import opened Text
  import opened PyJson
  import opened TaskModel

  datatype Specialist = Generic | Planner | Coder | Tester | Reviewer | Coordinator

  /** The name under which a specialist's configuration is looked up. */
  function AgentName(kind: Specialist): string
    requires kind != Generic
  {
    match kind
    case Planner => "PlannerAgent"
    case Coder => "CoderAgent"
    case Tester => "TesterAgent"
    case Reviewer => "ReviewerAgent"
    case Coordinator => "CoordinatorAgent"
  }

  /** The role a specialist registers under. */
  function RoleName(kind: Specialist): string
    requires kind != Generic
  {
    match kind
    case Planner => "Planner"
    case Coder => "Coder"
    case Tester => "Tester"
    case Reviewer => "Reviewer"
    case Coordinator => "Coordinator"
  }

  /** The output key under which a specialist keeps the completion unchanged. */
  function ResponseKey(kind: Specialist): string
    requires kind != Generic
  {
    match kind
    case Planner => "plan"
    case Coder => "code"
    case Tester => "test_report"
    case Reviewer => "review"
    case Coordinator => "coordination"
  }

  /** `value.get(key, '')` on a value read from a task, which raises `AttributeError` unless it is a dictionary. */
  function GetFromPrevious(value: Json, key: string): (r: Result<Json>)
    ensures r.Ok? <==> value.JObj?
    ensures r.Ok? ==> r.value == GetOr(value.fields, key, JStr(""))
    ensures r.Error? ==> r.message == NoAttribute(value, "get")
  {
    if value.JObj? then Ok(GetOr(value.fields, key, JStr(""))) else Error(NoAttribute(value, "get"))
  }

  /**
   * What `for x in value` iterates over: a list's items, a string's
   * characters, a dictionary's keys; any other value raises `TypeError`.
   */
  function Iterate(value: Json): (r: Result<seq<Json>>)
    ensures r.Ok? <==> (value.JArr? || value.JStr? || value.JObj?)
    ensures value.JArr? ==> r == Ok(value.items)
    ensures r.Error? ==> r.message == "'" + TypeName(value) + "' object is not iterable"
  {
    match value
    case JArr(items) => Ok(items)
    case JStr(s) => Ok(seq(|s|, i requires 0 <= i < |s| => JStr([s[i]])))
    case JObj(fields) => Ok(seq(|fields|, i requires 0 <= i < |fields| => JStr(fields[i].0)))
    case _ => Error("'" + TypeName(value) + "' object is not iterable")
  }

  /** "Agent Result 1" … "Agent Result n" over the specialist results, in order. */
  function NumberedResults(results: seq<Json>): (r: seq<Section>)
    ensures |r| == |results|
    ensures forall i :: 0 <= i < |r| ==> r[i] == Section("Agent Result " + NatToString(i + 1), results[i])
  {
    seq(|results|, i requires 0 <= i < |results| => Section("Agent Result " + NatToString(i + 1), results[i]))
  }

  /**
   * `_prepare_task_prompt`: the prompt an agent of the given kind sends for a
   * task, or the text of the exception building it raised.
   */
  function PreparePrompt(kind: Specialist, persona: Json, task: AgentTask): (r: Result<Prompt>)
    // only the Coder, Tester, Reviewer and Coordinator can fail; the first three exactly on a previous output that is not a dictionary
    ensures r.Error? ==> kind in {Coder, Tester, Reviewer, Coordinator}
    ensures kind in {Coder, Tester, Reviewer} ==>
      (r.Error? <==> (HasKey(task.inputData, "previous_output") && !Get(task.inputData, "previous_output").value.JObj?))
    ensures r.Ok? ==> r.value.persona == persona
    ensures kind == Generic ==> r == Ok(Prompt(TaskTemplate(task.description), persona, [Section("Input Data", JObj(task.inputData))]))
    ensures kind == Planner ==> r == Ok(Prompt(PlannerTemplate, persona, [Section("Requirements", GetOr(task.inputData, "requirements", JStr("")))]))
    // the Coder's plan comes from the previous output exactly when there is one
    ensures kind == Coder && r.Ok? ==>
      (|r.value.sections| == 1 && (r.value.sections[0].title == "Development Plan" <==> HasKey(task.inputData, "previous_output")))
    ensures kind == Coordinator && r.Ok? ==>
      (r.value.template == CoordinatorSynthesis <==> HasKey(task.inputData, "specialist_results"))
    ensures kind == Coordinator && !HasKey(task.inputData, "specialist_results") ==>
      r == Ok(Prompt(CoordinatorPlanning, persona, [Section("Requirements", GetOr(task.inputData, "requirements", JStr("")))]))
    ensures kind == Coordinator && HasKey(task.inputData, "specialist_results") && r.Ok? ==>
      Iterate(Get(task.inputData, "specialist_results").value).Ok? &&
      r.value.sections == NumberedResults(Iterate(Get(task.inputData, "specialist_results").value).value)
  {
    var input := task.inputData;
    match kind
    case Generic =>
      Ok(Prompt(TaskTemplate(task.description), persona, [Section("Input Data", JObj(input))]))
    case Planner =>
      Ok(Prompt(PlannerTemplate, persona, [Section("Requirements", GetOr(input, "requirements", JStr("")))]))
    case Coder =>
      if HasKey(input, "previous_output") then
        match GetFromPrevious(Get(input, "previous_output").value, "plan")
        case Ok(plan) => Ok(Prompt(CoderTemplate, persona, [Section("Development Plan", plan)]))
        case Error(e) => Error(e)
      else
        Ok(Prompt(CoderTemplate, persona, [Section("Requirements", GetOr(input, "requirements", JStr("")))]))
    case Tester =>
      if HasKey(input, "previous_output") then
        match GetFromPrevious(Get(input, "previous_output").value, "code")
        case Ok(code) => Ok(Prompt(TesterTemplate, persona, [Section("Code to Test", code)]))
        case Error(e) => Error(e)
      else
        Ok(Prompt(TesterTemplate, persona, [Section("Code to Test", GetOr(input, "code", JStr("")))]))
    case Reviewer =>
      if HasKey(input, "previous_output") then
        match GetFromPrevious(Get(input, "previous_output").value, "test_report")
        case Ok(report) => Ok(Prompt(ReviewerTemplate, persona, [Section("Test Report", report)]))
        case Error(e) => Error(e)
      else
        Ok(Prompt(ReviewerTemplate, persona,
          [Section("Code", GetOr(input, "code", JStr(""))), Section("Test Report", GetOr(input, "test_report", JStr("")))]))
    case Coordinator =>
      if HasKey(input, "specialist_results") then
        match Iterate(Get(input, "specialist_results").value)
        case Ok(results) => Ok(Prompt(CoordinatorSynthesis, persona, NumberedResults(results)))
        case Error(e) => Error(e)
      else
        Ok(Prompt(CoordinatorPlanning, persona, [Section("Requirements", GetOr(input, "requirements", JStr("")))]))
  }

  /** The sequential-branch prompts of the Tester and the Reviewer read the previous agent's output, the others the task itself. */
  lemma SpecialistBranch(kind: Specialist, persona: Json, task: AgentTask)
    requires kind in {Tester, Reviewer}
    ensures var input := task.inputData;
      var prev := Get(input, "previous_output");
      var r := PreparePrompt(kind, persona, task);
      (kind == Tester && prev.Some? && prev.value.JObj? ==>
         r == Ok(Prompt(TesterTemplate, persona, [Section("Code to Test", GetOr(prev.value.fields, "code", JStr("")))])))
      && (kind == Tester && prev.None? ==>
         r == Ok(Prompt(TesterTemplate, persona, [Section("Code to Test", GetOr(input, "code", JStr("")))])))
      && (kind == Reviewer && prev.Some? && prev.value.JObj? ==>
         r == Ok(Prompt(ReviewerTemplate, persona, [Section("Test Report", GetOr(prev.value.fields, "test_report", JStr("")))])))
      && (kind == Reviewer && prev.None? ==>
         |r.value.sections| == 2 && r.value.sections[0] == Section("Code", GetOr(input, "code", JStr(""))))
      && (prev.Some? && !prev.value.JObj? ==> r == Error(NoAttribute(prev.value, "get")))
  {
  }

  // ---------------------------------------------------------------- reviewer

  /** The reviewer's approval status, read off the upper-cased completion. */
  function ApprovalStatus(response: string): (status: string)
    ensures status in {"APPROVED", "NEEDS_CHANGES", "REJECTED", "UNKNOWN"}
    ensures status == "APPROVED" <==> Contains(Upper(response), "APPROVED") && !Contains(Upper(response), "NEEDS_CHANGES")
  {
    var u := Upper(response);
    if Contains(u, "APPROVED") && !Contains(u, "NEEDS_CHANGES") then "APPROVED"
    else if Contains(u, "NEEDS_CHANGES") || Contains(u, "NEEDS CHANGES") then "NEEDS_CHANGES"
    else if Contains(u, "REJECTED") then "REJECTED"
    else "UNKNOWN"
  }

  lemma UpperIdempotent(s: string)
    ensures Upper(Upper(s)) == Upper(s)
  {
  }

  lemma UpperOfLower(s: string)
    ensures Upper(Lower(s)) == Upper(s)
  {
  }

  /**
   * The status does not depend on letter case, and a request for changes is
   * never reported as an approval, even next to the word APPROVED.
   */
  lemma ApprovalStatusCaseBlind(response: string)
    ensures ApprovalStatus(Lower(response)) == ApprovalStatus(response)
    ensures ApprovalStatus(Upper(response)) == ApprovalStatus(response)
    ensures Contains(Upper(response), "NEEDS_CHANGES") ==> ApprovalStatus(response) == "NEEDS_CHANGES"
    ensures Contains(Upper(response), "NEEDS CHANGES") ==> ApprovalStatus(response) != "REJECTED" && ApprovalStatus(response) != "UNKNOWN"
  {
    UpperOfLower(response);
    UpperIdempotent(response);
  }

  // ------------------------------------------------------------ code blocks

  const Fence := "```"

  /** The length of the run of word characters (`[\w]*`) that starts `s`. */
  function WordRun(s: string): (n: nat)
    ensures n <= |s|
    ensures forall i :: 0 <= i < n ==> IsWordChar(s[i])
    ensures n == |s| || !IsWordChar(s[n])
  {
    if |s| > 0 && IsWordChar(s[0]) then 1 + WordRun(s[1..]) else 0
  }

  /**
   * The code block whose opening fence (three backticks, a word, a newline)
   * starts `s`: the text up to the next three backticks and the text after
   * them. `None` when `s` does not start with an opening fence or the block
   * is never closed.
   */
  function FencedBlock(s: string): (r: Option<(string, string)>)
    ensures r.Some? ==> |r.value.1| < |s|
    ensures r.Some? ==> !Contains(r.value.0, Fence)
  {
    if !OccursAt(s, Fence, 0) then None
    else
      var n := 3 + WordRun(s[3..]);
      if n < |s| && s[n] == '\n' then
        var body := s[n + 1..];
        match IndexOf(body, Fence)
        case None => None
        case Some(e) =>
          NoOccurrenceInPrefix(body, Fence, e);
          Some((body[..e], body[e + 3..]))
      else None
  }

  /** Before the first occurrence of `sub`, the prefix cannot contain it. */
  lemma NoOccurrenceInPrefix(s: string, sub: string, e: nat)
    requires |sub| > 0
    requires IndexOf(s, sub) == Some(e)
    ensures !Contains(s[..e], sub)
  {
    if Contains(s[..e], sub) {
      ContainsIff(s[..e], sub);
      var j: nat :| OccursAt(s[..e], sub, j);
      assert s[..e][j..j + |sub|] == s[j..j + |sub|];
      assert OccursAt(s, sub, j);
      assert false;
    }
  }

  /**
   * `re.findall` of an opening fence, a lazily matched body and a closing
   * fence, with `.` matching newlines: the bodies of the code blocks, in
   * order, scanning from the left and resuming after each closing fence.
   */
  function CodeBlocks(s: string): (r: seq<string>)
    decreases |s|
    ensures forall i :: 0 <= i < |r| ==> !Contains(r[i], Fence)
  {
    if |s| == 0 then []
    else match FencedBlock(s)
      case Some((code, rest)) => [code] + CodeBlocks(rest)
      case None => CodeBlocks(s[1..])
  }

  /** Text without three backticks has no code blocks. */
  lemma {:induction false} NoFenceNoBlocks(s: string)
    requires !Contains(s, Fence)
    ensures CodeBlocks(s) == []
    decreases |s|
  {
    if |s| > 0 {
      assert !OccursAt(s, Fence, 0) by { ContainsIff(s, Fence); }
      assert !Contains(s[1..], Fence) by {
        if Contains(s[1..], Fence) {
          ContainsIff(s[1..], Fence);
          var j: nat :| OccursAt(s[1..], Fence, j);
          assert s[1..][j..j + 3] == s[j + 1..j + 4];
          assert OccursAt(s, Fence, j + 1);
          ContainsIff(s, Fence);
          assert false;
        }
      }
      NoFenceNoBlocks(s[1..]);
    }
  }

  /** Text without backticks ahead of a block is skipped over. */
  lemma {:induction false} SkipPlainText(prefix: string, t: string)
    requires '`' !in prefix
    ensures CodeBlocks(prefix + t) == CodeBlocks(t)
    decreases |prefix|
  {
    if |prefix| > 0 {
      var s := prefix + t;
      assert s[0] == prefix[0];
      assert !OccursAt(s, Fence, 0) by { assert s[0] != '`'; }
      assert s[1..] == prefix[1..] + t;
      SkipPlainText(prefix[1..], t);
    } else {
      assert prefix + t == t;
    }
  }

  lemma WordRunStops(lang: string, rest: string)
    requires forall i :: 0 <= i < |lang| ==> IsWordChar(lang[i])
    requires |rest| > 0 && !IsWordChar(rest[0])
    ensures WordRun(lang + rest) == |lang|
    decreases |lang|
  {
    if |lang| > 0 {
      assert (lang + rest)[1..] == lang[1..] + rest;
      WordRunStops(lang[1..], rest);
    } else {
      assert lang + rest == rest;
    }
  }

  lemma FirstFenceAfterPlainCode(code: string, rest: string)
    requires '`' !in code
    ensures IndexOf(code + Fence + rest, Fence) == Some(|code|)
  {
    var body := code + Fence + rest;
    assert OccursAt(body, Fence, |code|) by { assert body[|code|..|code| + 3] == Fence; }
    forall j | 0 <= j < |code|
      ensures !OccursAt(body, Fence, j)
    {
      assert body[j] == code[j];
    }
  }

  /** An opening fence at the start of the text yields its body and resumes after the closing fence. */
  lemma FencedBlockOf(lang: string, code: string, rest: string)
    requires forall i :: 0 <= i < |lang| ==> IsWordChar(lang[i])
    requires '`' !in code
    ensures FencedBlock(Fence + lang + "\n" + code + Fence + rest) == Some((code, rest))
  {
    var s := Fence + lang + "\n" + code + Fence + rest;
    assert OccursAt(s, Fence, 0) by { assert s[0..3] == Fence; }
    assert s[3..] == lang + ("\n" + code + Fence + rest);
    WordRunStops(lang, "\n" + code + Fence + rest);
    var n := 3 + |lang|;
    assert s[n] == '\n';
    var body := s[n + 1..];
    assert body == code + Fence + rest;
    FirstFenceAfterPlainCode(code, rest);
    assert body[..|code|] == code;
    assert body[|code| + 3..] == rest;
  }

  /**
   * A block fenced as in ```` ```python\n<code>``` ```` after plain prose is
   * extracted with its body intact, and extraction resumes after it.
   */
  lemma CodeBlocksOfFenced(prose: string, lang: string, code: string, rest: string)
    requires '`' !in prose
    requires forall i :: 0 <= i < |lang| ==> IsWordChar(lang[i])
    requires '`' !in code
    ensures CodeBlocks(prose + Fence + lang + "\n" + code + Fence + rest) == [code] + CodeBlocks(rest)
  {
    var t := Fence + lang + "\n" + code + Fence + rest;
    assert prose + Fence + lang + "\n" + code + Fence + rest == prose + t;
    SkipPlainText(prose, t);
    FencedBlockOf(lang, code, rest);
  }

  // ---------------------------------------------------------- parse response

  /** The output dictionary of a specialist: the completion under its key, then the extra fields, then the role. */
  function Labelled(kind: Specialist, response: string, extra: Dict): (r: Json)
    requires kind != Generic
    ensures r.JObj? && |r.fields| == |extra| + 2
    ensures r.fields[0] == (ResponseKey(kind), JStr(response))
    ensures r.fields[|r.fields| - 1] == ("role", JStr(RoleName(kind)))
  {
    JObj([(ResponseKey(kind), JStr(response))] + extra + [("role", JStr(RoleName(kind)))])
  }

  /**
   * `_parse_response`: the output an agent of the given kind makes of a
   * completion. The plain agent returns the completion itself.
   */
  function ParseResponse(kind: Specialist, response: string, task: AgentTask): (r: Json)
    ensures kind == Generic ==> r == JStr(response)
    ensures kind != Generic ==> r.JObj? && |r.fields| >= 2 && r.fields[0] == (ResponseKey(kind), JStr(response))
  {
    match kind
    case Generic => JStr(response)
    case Planner => Labelled(kind, response, [("requirements", GetOr(task.inputData, "requirements", JStr("")))])
    case Coder =>
      var blocks := CodeBlocks(response);
      Labelled(kind, response, [("code_blocks", JArr(seq(|blocks|, i requires 0 <= i < |blocks| => JStr(blocks[i]))))])
    case Tester => Labelled(kind, response, [])
    case Reviewer => Labelled(kind, response, [("approval_status", JStr(ApprovalStatus(response)))])
    case Coordinator => Labelled(kind, response, [])
  }

  lemma KeyIsNotRole(kind: Specialist)
    requires kind != Generic
    ensures ResponseKey(kind) != "role"
  {
    assert ResponseKey(kind)[0] != 'r' || ResponseKey(kind)[1] != 'o';
  }

  /** The same for a specialist with no fields of its own. */
  lemma ParsedBareLookup(kind: Specialist, response: string)
    requires kind != Generic
    ensures var d := Labelled(kind, response, []).fields;
      Get(d, ResponseKey(kind)) == Some(JStr(response)) && Get(d, "role") == Some(JStr(RoleName(kind)))
  {
    var d := Labelled(kind, response, []).fields;
    KeyIsNotRole(kind);
    assert d[1..] == [("role", JStr(RoleName(kind)))];
  }

  /** The keys of a specialist's own fields, the completion's key and `role` are all different. */
  lemma {:induction false} ParsedLookup(kind: Specialist, response: string, key: string, v: Json)
    requires kind != Generic && key != ResponseKey(kind) && key != "role"
    ensures var d := Labelled(kind, response, [(key, v)]).fields;
      Get(d, ResponseKey(kind)) == Some(JStr(response)) && Get(d, "role") == Some(JStr(RoleName(kind))) && Get(d, key) == Some(v)
  {
    var d := Labelled(kind, response, [(key, v)]).fields;
    KeyIsNotRole(kind);
    assert d[1..] == [(key, v), ("role", JStr(RoleName(kind)))];
    assert d[1..][1..] == [("role", JStr(RoleName(kind)))];
  }

  /**
   * Looked up by key, every specialist's output keeps the completion
   * unchanged and names the specialist's role.
   */
  lemma ParseResponseFields(kind: Specialist, response: string, task: AgentTask)
    requires kind != Generic
    ensures var r := ParseResponse(kind, response, task);
      Get(r.fields, ResponseKey(kind)) == Some(JStr(response)) && Get(r.fields, "role") == Some(JStr(RoleName(kind)))
  {
    var d := ParseResponse(kind, response, task).fields;
    match kind {
      case Tester =>
        ParsedBareLookup(kind, response);
      case Coordinator =>
        ParsedBareLookup(kind, response);
      case Planner =>
        ParsedLookup(kind, response, "requirements", GetOr(task.inputData, "requirements", JStr("")));
      case Coder =>
        ParsedLookup(kind, response, "code_blocks", d[1].1);
      case Reviewer =>
        ParsedLookup(kind, response, "approval_status", JStr(ApprovalStatus(response)));
    }
  }

  /** The Planner passes the task's requirements on, defaulting to "". */
  lemma ParsedRequirements(response: string, task: AgentTask)
    ensures Get(ParseResponse(Planner, response, task).fields, "requirements")
      == Some(GetOr(task.inputData, "requirements", JStr("")))
  {
    ParsedLookup(Planner, response, "requirements", GetOr(task.inputData, "requirements", JStr("")));
  }

  /** The Coder lists the code blocks of its completion, in order. */
  lemma ParsedCodeBlocks(response: string, task: AgentTask)
    ensures var blocks := Get(ParseResponse(Coder, response, task).fields, "code_blocks");
      blocks.Some? && blocks.value.JArr? && |blocks.value.items| == |CodeBlocks(response)|
      && forall i :: 0 <= i < |CodeBlocks(response)| ==> blocks.value.items[i] == JStr(CodeBlocks(response)[i])
  {
    var cs := CodeBlocks(response);
    ParsedLookup(Coder, response, "code_blocks", JArr(seq(|cs|, i requires 0 <= i < |cs| => JStr(cs[i]))));
  }

  /** The Reviewer states the approval status its completion implies. */
  lemma ParsedApproval(response: string, task: AgentTask)
    ensures Get(ParseResponse(Reviewer, response, task).fields, "approval_status") == Some(JStr(ApprovalStatus(response)))
  {
    ParsedLookup(Reviewer, response, "approval_status", JStr(ApprovalStatus(response)));
  }
}
