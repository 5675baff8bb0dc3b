/**
 * The reflection agent (`ReflectionAgent`): generate a response, then
 * alternately critique and refine it until a critique passes the quality
 * gate or the iteration budget is spent, and finally critique the response
 * it returns once more. The language model is the agent's script of
 * replies; `json.loads` is the parameter `parse`.
 */
module Reflection {
  import opened Basics
  import opened PyJson
  import opened TaskModel
  import opened Extract

  /** What the agent asks the model, in the order it asks. */
  datatype Ask =
    | Generate(persona: Json, task: string, context: Option<string>)
    | Review(task: string, response: string, context: Option<string>)
    | Refine(task: string, response: string, critique: Json, context: Option<string>)

  /**
   * The context a prompt shows: every prompt tests `if context`, so an empty
   * context is left out exactly like a missing one.
   */
  function Shown(context: Option<string>): (shown: Option<string>)
    ensures shown.None? <==> context.None? || context.value == ""
    ensures shown.Some? ==> shown == context
  {
    if context.Some? && context.value != "" then context else None
  }

  /** The keys a decoded critique must hold. */
  const RequiredKeys: seq<string> := ["quality_score", "issues_found", "suggestions", "is_acceptable"]

  /** All of `RequiredKeys` are keys of the dictionary. */
  predicate Complete(fields: Dict) {
    forall k :: 0 <= k < |RequiredKeys| ==> HasKey(fields, RequiredKeys[k])
  }

  /** `_default_critique`: a middling score, one issue, one suggestion, not acceptable. */
  function DefaultCritique(): (c: Json)
    ensures c.JObj? && Complete(c.fields)
    ensures Get(c.fields, "quality_score") == Some(JFloat(0.5, "0.5"))
    ensures Get(c.fields, "is_acceptable") == Some(JBool(false))
  {
    var fields := [("quality_score", JFloat(0.5, "0.5")),
                   ("issues_found", JArr([JStr("Unable to parse critique")])),
                   ("suggestions", JArr([JStr("Try again with clearer output")])),
                   ("is_acceptable", JBool(false))];
    assert forall k :: 0 <= k < 4 ==> fields[k].0 == RequiredKeys[k];
    JObj(fields)
  }

  /**
   * `_critique_response` after the model replied `completion`: decode the
   * text from the first `{` to the last `}`; the default critique when there
   * is no such text, it does not decode, or a required key is missing.
   * `Raised` when the membership test itself raises.
   */
  function ExtractCritique(completion: string, parse: string -> Option<Json>): Outcome<Json>
  {
    match DelimitedSlice(completion, '{', '}')
    case None => Returned(DefaultCritique())
    case Some(text) =>
      match parse(text)
      case None => Returned(DefaultCritique())
      case Some(v) =>
        match AllIn(RequiredKeys, v)
        case None => Raised
        case Some(true) => Returned(v)
        case Some(false) => Returned(DefaultCritique())
  }

  /**
   * The cases of `ExtractCritique`: without braces the default critique;
   * `Raised` exactly when the decoded value admits no `in`; otherwise the
   * decoded value itself or the default, and a dictionary critique always
   * has the four keys.
   */
  lemma CritiqueCases(completion: string, parse: string -> Option<Json>)
    ensures DelimitedSlice(completion, '{', '}').None? ==> ExtractCritique(completion, parse) == Returned(DefaultCritique())
    ensures var r := ExtractCritique(completion, parse);
      r.Raised? <==> (DelimitedSlice(completion, '{', '}').Some?
        && parse(DelimitedSlice(completion, '{', '}').value).Some?
        && !(parse(DelimitedSlice(completion, '{', '}').value).value.JObj?
          || parse(DelimitedSlice(completion, '{', '}').value).value.JStr?
          || parse(DelimitedSlice(completion, '{', '}').value).value.JArr?))
    ensures var r := ExtractCritique(completion, parse);
      r.Returned? ==> (r.value == DefaultCritique()
        || (DelimitedSlice(completion, '{', '}').Some? && parse(DelimitedSlice(completion, '{', '}').value) == Some(r.value)))
    ensures var r := ExtractCritique(completion, parse);
      r.Returned? && r.value.JObj? ==> Complete(r.value.fields)
  {
    match DelimitedSlice(completion, '{', '}')
    case None =>
    case Some(text) =>
      match parse(text)
      case None =>
      case Some(v) =>
        var all := AllIn(RequiredKeys, v);
        assert all.Some? && all.value ==> v.JObj? ==> Complete(v.fields);
  }

  /**
   * A critique wrapped in prose is recovered whole when it decodes to a
   * dictionary with the four keys, and replaced by the default when it
   * decodes to a dictionary without one of them.
   */
  lemma CritiqueInProse(before: string, body: string, after: string, parse: string -> Option<Json>, fields: Dict)
    requires '{' !in before && '}' !in after
    requires parse(['{'] + body + ['}']) == Some(JObj(fields))
    ensures ExtractCritique(before + ['{'] + body + ['}'] + after, parse)
      == Returned(if Complete(fields) then JObj(fields) else DefaultCritique())
  {
    DelimitedSliceOfWrapped(before, body, after, '{', '}');
  }

  /** What a completion becomes as a critique: an exception from the model escapes. */
  function Critiqued(reply: Reply, parse: string -> Option<Json>): Outcome<Json> {
    match reply
    case Fails(_) => Raised
    case Says(completion) => ExtractCritique(completion, parse)
  }

  /** `critique.get("quality_score", 0.0)` of a dictionary. */
  function Score(critique: Json): Json
    requires critique.JObj?
  {
    GetOr(critique.fields, "quality_score", JFloat(0.0, "0.0"))
  }

  /** A value `len()` accepts. */
  predicate Sized(v: Json) {
    v.JStr? || v.JArr? || v.JObj?
  }

  /**
   * One iteration's test `quality_score >= quality_threshold and
   * is_acceptable`, after the progress lines that format the score with
   * `:.2f` and take `len` of the issues. `Raised` when `.get` does not
   * exist (a critique that is no dictionary) or the formatting raises.
   */
  function Gate(critique: Json, threshold: real): (r: Outcome<bool>)
    ensures r.Returned? <==> (critique.JObj? && Numeric(Score(critique)).Some?
      && Sized(GetOr(critique.fields, "issues_found", JArr([]))))
    ensures r == Returned(true) <==> (r.Returned? && Numeric(Score(critique)).value >= threshold
      && Truthy(GetOr(critique.fields, "is_acceptable", JBool(false))))
  {
    if !critique.JObj? then Raised
    else
      var score := Numeric(Score(critique));
      if score.None? || !Sized(GetOr(critique.fields, "issues_found", JArr([]))) then Raised
      else Returned(score.value >= threshold && Truthy(GetOr(critique.fields, "is_acceptable", JBool(false))))
  }

  /** The default critique never passes the gate, whatever the threshold. */
  lemma DefaultNeverPasses(threshold: real)
    ensures Gate(DefaultCritique(), threshold) == Returned(false)
  {
  }

  /**
   * The loop's variables (the iteration count, the current response, the
   * critiques so far) and the number of calls made to the model.
   */
  datatype Phase = Phase(iteration: nat, current: string, critiques: seq<Json>, calls: nat)

  /**
   * How one pass through the loop body ends, with the requests it made:
   * round again, leave the loop, or an exception escapes.
   */
  datatype Next = Again(p: Phase, made: seq<Ask>) | Done(p: Phase, made: seq<Ask>) | Crashed(made: seq<Ask>)

  /**
   * One pass through the body of the `while` loop: count the iteration,
   * critique the current response, stop when the gate passes or the budget
   * is spent, and otherwise refine the response. The reply to each request
   * is the one at its position in the script.
   */
  function Round(task: string, context: Option<string>, threshold: real, maxIterations: int,
                 script: seq<Reply>, parse: string -> Option<Json>, p: Phase): (r: Next)
    requires p.iteration < maxIterations
    ensures 1 <= |r.made| <= 2 && r.made[0] == Review(task, p.current, context)
    ensures !r.Crashed? ==> (r.p.iteration == p.iteration + 1 && r.p.calls == p.calls + |r.made|
      && Critiqued(ReplyAt(script, p.calls), parse).Returned?
      && r.p.critiques == p.critiques + [Critiqued(ReplyAt(script, p.calls), parse).value])
    ensures r.Again? ==> r.p.iteration < maxIterations
  {
    var iteration := p.iteration + 1;
    var reviewing := [Review(task, p.current, context)];
    match Critiqued(ReplyAt(script, p.calls), parse)
    case Raised => Crashed(reviewing)
    case Returned(critique) =>
      var critiques := p.critiques + [critique];
      match Gate(critique, threshold)
      case Raised => Crashed(reviewing)
      case Returned(true) => Done(Phase(iteration, p.current, critiques, p.calls + 1), reviewing)
      case Returned(false) =>
        if iteration >= maxIterations then Done(Phase(iteration, p.current, critiques, p.calls + 1), reviewing)
        else
          var refining := reviewing + [Refine(task, p.current, critique, context)];
          match ReplyAt(script, p.calls + 1)
          case Fails(_) => Crashed(refining)
          case Says(refined) => Again(Phase(iteration, refined, critiques, p.calls + 2), refining)
  }

  /** How the loop ends, with every request made in it and the number of calls made by then. */
  datatype Ending = Ending(last: Next, asks: seq<Ask>, calls: nat)

  /** The whole loop, from the phase `p` on. */
  function Refinement(task: string, context: Option<string>, threshold: real, maxIterations: int,
                      script: seq<Reply>, parse: string -> Option<Json>, p: Phase): (e: Ending)
    decreases maxIterations - p.iteration
    ensures !e.last.Again?
    ensures e.calls == p.calls + |e.asks|
    ensures e.last.Done? ==> e.last.p.calls == e.calls
  {
    if p.iteration >= maxIterations then Ending(Done(p, []), [], p.calls)
    else
      var n := Round(task, context, threshold, maxIterations, script, parse, p);
      if n.Again? then
        var e := Refinement(task, context, threshold, maxIterations, script, parse, n.p);
        Ending(e.last, n.made + e.asks, e.calls)
      else Ending(n, n.made, p.calls + |n.made|)
  }

  /** The dictionary `run` returns. */
  datatype Reflected = Reflected(
    finalResponse: string,
    iterations: nat,
    critiques: seq<Json>,
    finalCritique: Json,
    finalQualityScore: Json,
    improvement: real)

  /** A whole run: its outcome and the requests it made, also when it raised. */
  datatype Session = Session(outcome: Outcome<Reflected>, asks: seq<Ask>)

  /**
   * The result dictionary after the loop ended in `p` and the final critique
   * came back: `.get` on the final critique, the difference of its score and
   * the first critique's score (0.0 without critiques), and the `:.2f` of
   * the final score, each of which raises on a value of the wrong type.
   */
  function Conclude(p: Phase, final: Json): (r: Outcome<Reflected>)
    ensures r.Returned? ==> final.JObj? && Numeric(Score(final)).Some?
    ensures r.Returned? ==> r.value == Reflected(p.current, p.iteration, p.critiques, final, Score(final), r.value.improvement)
    ensures r.Returned? && p.critiques == [] ==> r.value.improvement == 0.0
    ensures r.Returned? && p.critiques != [] ==> (p.critiques[0].JObj? && Numeric(Score(p.critiques[0])).Some?
      && r.value.improvement == Numeric(Score(final)).value - Numeric(Score(p.critiques[0])).value)
  {
    if !final.JObj? then Raised
    else match Numeric(Score(final))
      case None => Raised
      case Some(x) =>
        if p.critiques == [] then Returned(Reflected(p.current, p.iteration, p.critiques, final, Score(final), 0.0))
        else if !p.critiques[0].JObj? then Raised
        else match Numeric(Score(p.critiques[0]))
          case None => Raised
          case Some(y) => Returned(Reflected(p.current, p.iteration, p.critiques, final, Score(final), x - y))
  }

  /** `run(task, context, quality_threshold)` for an agent with the given persona and budget. */
  function Reflect(persona: Json, task: string, context: Option<string>, threshold: real, maxIterations: int,
                   script: seq<Reply>, parse: string -> Option<Json>): Session
  {
    var shown := Shown(context);
    var opening := [Generate(persona, task, shown)];
    match ReplyAt(script, 0)
    case Fails(_) => Session(Raised, opening)
    case Says(initial) =>
      Wrapup(task, shown, script, parse, opening,
             Refinement(task, shown, threshold, maxIterations, script, parse, Phase(0, initial, [], 1)))
  }

  /** An empty context and no context make the same run. */
  lemma EmptyContextUnshown(persona: Json, task: string, threshold: real, maxIterations: int,
                            script: seq<Reply>, parse: string -> Option<Json>)
    ensures Reflect(persona, task, Some(""), threshold, maxIterations, script, parse)
      == Reflect(persona, task, None, threshold, maxIterations, script, parse)
  {
    assert Shown(Some("")) == Shown(None);
  }

  /** The part of `run` after the loop ended as `e`: the final critique and the result dictionary. */
  function Wrapup(task: string, context: Option<string>, script: seq<Reply>, parse: string -> Option<Json>,
                  opening: seq<Ask>, e: Ending): Session
  {
    if e.last.Crashed? then Session(Raised, opening + e.asks)
    else
      var p := e.last.p;
      var asks := opening + e.asks + [Review(task, p.current, context)];
      match Critiqued(ReplyAt(script, p.calls), parse)
      case Raised => Session(Raised, asks)
      case Returned(final) => Session(Conclude(p, final), asks)
  }

  /**
   * A phase at the top of the loop: every critique so far failed the gate,
   * critique `i` is what reply `2i+1` became, and the current response is
   * the latest reply.
   */
  ghost predicate Open(threshold: real, maxIterations: int, script: seq<Reply>, parse: string -> Option<Json>, p: Phase) {
    |p.critiques| == p.iteration && p.calls == 2 * p.iteration + 1
    && (p.iteration == 0 || p.iteration < maxIterations)
    && ReplyAt(script, 2 * p.iteration) == Says(p.current)
    && (forall i :: 0 <= i < p.iteration ==> Gate(p.critiques[i], threshold) == Returned(false))
    && (forall i :: 0 <= i < p.iteration ==> Critiqued(ReplyAt(script, 2 * i + 1), parse) == Returned(p.critiques[i]))
  }

  /**
   * A phase after the loop: no critique (a budget of zero or less), or the
   * last critique passed the gate or the budget is spent, and all critiques
   * before the last failed it.
   */
  ghost predicate Closed(threshold: real, maxIterations: int, script: seq<Reply>, parse: string -> Option<Json>, p: Phase) {
    |p.critiques| == p.iteration
    && (p.iteration == 0 ==> maxIterations <= 0 && p.calls == 1)
    && (p.iteration > 0 ==> p.calls == 2 * p.iteration && p.iteration <= maxIterations)
    && ReplyAt(script, if p.iteration == 0 then 0 else 2 * p.iteration - 2) == Says(p.current)
    && (forall i :: 0 <= i < p.iteration - 1 ==> Gate(p.critiques[i], threshold) == Returned(false))
    && (0 < p.iteration < maxIterations ==> Gate(p.critiques[p.iteration - 1], threshold) == Returned(true))
    && (forall i :: 0 <= i < p.iteration ==> Critiqued(ReplyAt(script, 2 * i + 1), parse) == Returned(p.critiques[i]))
  }

  /** Critique `i` is what reply `2i+1` became, also once one more critique is appended. */
  lemma CritiquesExtend(script: seq<Reply>, parse: string -> Option<Json>, critiques: seq<Json>, c: Json)
    requires forall i :: 0 <= i < |critiques| ==> Critiqued(ReplyAt(script, 2 * i + 1), parse) == Returned(critiques[i])
    requires Critiqued(ReplyAt(script, 2 * |critiques| + 1), parse) == Returned(c)
    ensures var more := critiques + [c];
      forall i :: 0 <= i < |more| ==> Critiqued(ReplyAt(script, 2 * i + 1), parse) == Returned(more[i])
  {
    var more := critiques + [c];
    forall i | 0 <= i < |more|
      ensures Critiqued(ReplyAt(script, 2 * i + 1), parse) == Returned(more[i])
    {
      if i < |critiques| { assert more[i] == critiques[i]; }
    }
  }

  /** A round that goes round again leaves an open phase. */
  lemma RoundAgain(task: string, context: Option<string>, threshold: real, maxIterations: int,
                   script: seq<Reply>, parse: string -> Option<Json>, p: Phase)
    requires p.iteration < maxIterations && Open(threshold, maxIterations, script, parse, p)
    ensures var n := Round(task, context, threshold, maxIterations, script, parse, p);
      n.Again? ==> Open(threshold, maxIterations, script, parse, n.p)
  {
    var n := Round(task, context, threshold, maxIterations, script, parse, p);
    if n.Again? {
      CritiquesExtend(script, parse, p.critiques, Critiqued(ReplyAt(script, p.calls), parse).value);
    }
  }

  /** A round that leaves the loop leaves a closed phase. */
  lemma RoundDone(task: string, context: Option<string>, threshold: real, maxIterations: int,
                  script: seq<Reply>, parse: string -> Option<Json>, p: Phase)
    requires p.iteration < maxIterations && Open(threshold, maxIterations, script, parse, p)
    ensures var n := Round(task, context, threshold, maxIterations, script, parse, p);
      n.Done? ==> Closed(threshold, maxIterations, script, parse, n.p)
  {
    var n := Round(task, context, threshold, maxIterations, script, parse, p);
    if n.Done? {
      CritiquesExtend(script, parse, p.critiques, Critiqued(ReplyAt(script, p.calls), parse).value);
    }
  }

  lemma {:induction false} RefinementFacts(task: string, context: Option<string>, threshold: real, maxIterations: int,
                                           script: seq<Reply>, parse: string -> Option<Json>, p: Phase)
    requires Open(threshold, maxIterations, script, parse, p)
    decreases maxIterations - p.iteration
    ensures var e := Refinement(task, context, threshold, maxIterations, script, parse, p);
      e.last.Done? ==> Closed(threshold, maxIterations, script, parse, e.last.p)
  {
    if p.iteration < maxIterations {
      RoundAgain(task, context, threshold, maxIterations, script, parse, p);
      RoundDone(task, context, threshold, maxIterations, script, parse, p);
      var n := Round(task, context, threshold, maxIterations, script, parse, p);
      if n.Again? {
        RefinementFacts(task, context, threshold, maxIterations, script, parse, n.p);
      }
    }
  }

  /**
   * A completed run ended its loop in a closed phase `p`; it made the
   * requests of the opening, of the loop, and of the final critique, and
   * its result is what `Conclude` makes of `p` and the final critique.
   */
  lemma ReflectEnds(persona: Json, task: string, context: Option<string>, threshold: real,
                    maxIterations: int, script: seq<Reply>, parse: string -> Option<Json>)
    returns (p: Phase, made: seq<Ask>, final: Json)
    requires Reflect(persona, task, context, threshold, maxIterations, script, parse).outcome.Returned?
    ensures var s := Reflect(persona, task, context, threshold, maxIterations, script, parse);
      Closed(threshold, maxIterations, script, parse, p) && p.calls == 1 + |made|
      && s.asks == [Generate(persona, task, Shown(context))] + made + [Review(task, p.current, Shown(context))]
      && Critiqued(ReplyAt(script, p.calls), parse) == Returned(final) && Conclude(p, final) == s.outcome
  {
    var start := Phase(0, ReplyAt(script, 0).text, [], 1);
    var shown := Shown(context);
    var e := Refinement(task, shown, threshold, maxIterations, script, parse, start);
    assert Reflect(persona, task, context, threshold, maxIterations, script, parse)
      == Wrapup(task, shown, script, parse, [Generate(persona, task, shown)], e);
    RefinementFacts(task, shown, threshold, maxIterations, script, parse, start);
    p, made := e.last.p, e.asks;
    final := Critiqued(ReplyAt(script, p.calls), parse).value;
  }

  /**
   * What a completed run promises about its loop: at most
   * `max(0, max_iterations)` iterations and one critique per iteration;
   * every critique but the last failed the gate, and the last passed it
   * unless the budget ran out; critique `i` is what the model's reply
   * `2i+1` became, and the response returned is the model's last reply.
   */
  lemma ReflectLoop(persona: Json, task: string, context: Option<string>, threshold: real,
                    maxIterations: int, script: seq<Reply>, parse: string -> Option<Json>)
    requires Reflect(persona, task, context, threshold, maxIterations, script, parse).outcome.Returned?
    ensures var r := Reflect(persona, task, context, threshold, maxIterations, script, parse).outcome.value;
      r.iterations <= (if maxIterations < 0 then 0 else maxIterations)
      && (maxIterations > 0 ==> r.iterations > 0)
      && |r.critiques| == r.iterations
      && (forall i :: 0 <= i < r.iterations - 1 ==> Gate(r.critiques[i], threshold) == Returned(false))
      && (0 < r.iterations < maxIterations ==> Gate(r.critiques[r.iterations - 1], threshold) == Returned(true))
      && (forall i :: 0 <= i < r.iterations ==> Critiqued(ReplyAt(script, 2 * i + 1), parse) == Returned(r.critiques[i]))
      && ReplyAt(script, if r.iterations == 0 then 0 else 2 * r.iterations - 2) == Says(r.finalResponse)
  {
    var p, made, final := ReflectEnds(persona, task, context, threshold, maxIterations, script, parse);
    var r := Reflect(persona, task, context, threshold, maxIterations, script, parse).outcome.value;
    ConcludeFacts(threshold, maxIterations, script, parse, p, final, r);
  }

  /**
   * What a completed run promises about its requests and its result: the
   * model was asked `2*iterations+1` times (twice without iterations),
   * first for the initial response and last to critique the response
   * returned, whose critique is the final one; the final score is that
   * critique's, and the improvement is the final score less the first.
   */
  lemma ReflectResult(persona: Json, task: string, context: Option<string>, threshold: real,
                      maxIterations: int, script: seq<Reply>, parse: string -> Option<Json>)
    requires Reflect(persona, task, context, threshold, maxIterations, script, parse).outcome.Returned?
    ensures var s := Reflect(persona, task, context, threshold, maxIterations, script, parse);
      var r := s.outcome.value;
      |s.asks| == (if r.iterations == 0 then 2 else 2 * r.iterations + 1)
      && s.asks[0] == Generate(persona, task, Shown(context))
      && s.asks[|s.asks| - 1] == Review(task, r.finalResponse, Shown(context))
      && Critiqued(ReplyAt(script, |s.asks| - 1), parse) == Returned(r.finalCritique)
      && r.finalCritique.JObj? && r.finalQualityScore == Score(r.finalCritique)
      && Numeric(r.finalQualityScore).Some?
      && (r.critiques == [] ==> r.improvement == 0.0)
      && (r.critiques != [] ==> r.improvement == Numeric(r.finalQualityScore).value - Numeric(Score(r.critiques[0])).value)
  {
    var p, made, final := ReflectEnds(persona, task, context, threshold, maxIterations, script, parse);
    var r := Reflect(persona, task, context, threshold, maxIterations, script, parse).outcome.value;
    ConcludeFacts(threshold, maxIterations, script, parse, p, final, r);
  }

  /** What the result dictionary says about the loop that ended in the phase `p`. */
  lemma ConcludeFacts(threshold: real, maxIterations: int, script: seq<Reply>, parse: string -> Option<Json>,
                      p: Phase, final: Json, r: Reflected)
    requires Closed(threshold, maxIterations, script, parse, p)
    requires Critiqued(ReplyAt(script, p.calls), parse) == Returned(final) && Conclude(p, final) == Returned(r)
    ensures r.iterations == p.iteration && r.critiques == p.critiques && r.finalResponse == p.current
    ensures r.finalCritique == final && r.finalQualityScore == Score(final) && final.JObj?
    ensures Numeric(r.finalQualityScore).Some?
    ensures r.critiques == [] ==> r.improvement == 0.0
    ensures r.critiques != [] ==> r.improvement == Numeric(r.finalQualityScore).value - Numeric(Score(r.critiques[0])).value
  {
  }

  /** The loop so far made the requests `made`, and what is left of it runs from `p`. */
  ghost predicate Remaining(task: string, context: Option<string>, threshold: real, maxIterations: int,
                            script: seq<Reply>, parse: string -> Option<Json>, whole: Ending, made: seq<Ask>, p: Phase) {
    var rest := Refinement(task, context, threshold, maxIterations, script, parse, p);
    whole.last == rest.last && whole.asks == made + rest.asks && whole.calls == rest.calls
  }

  lemma RemainingStep(task: string, context: Option<string>, threshold: real, maxIterations: int,
                      script: seq<Reply>, parse: string -> Option<Json>, whole: Ending, made: seq<Ask>, p: Phase)
    requires p.iteration < maxIterations && Remaining(task, context, threshold, maxIterations, script, parse, whole, made, p)
    ensures var n := Round(task, context, threshold, maxIterations, script, parse, p);
      (n.Again? ==> Remaining(task, context, threshold, maxIterations, script, parse, whole, made + n.made, n.p))
      && (!n.Again? ==> whole.last == n && whole.asks == made + n.made && whole.calls == p.calls + |n.made|)
  {
    var n := Round(task, context, threshold, maxIterations, script, parse, p);
    if n.Again? {
      AppendAssoc(made, n.made, Refinement(task, context, threshold, maxIterations, script, parse, n.p).asks);
    }
  }

  lemma RemainingEnd(task: string, context: Option<string>, threshold: real, maxIterations: int,
                     script: seq<Reply>, parse: string -> Option<Json>, whole: Ending, made: seq<Ask>, p: Phase)
    requires p.iteration >= maxIterations && Remaining(task, context, threshold, maxIterations, script, parse, whole, made, p)
    ensures whole.last == Done(p, []) && whole.asks == made && whole.calls == p.calls
  {
  }

  /**
   * A reflection agent: its persona, its iteration budget, and the model it
   * talks to, a scripted mock that gives the replies of `script` in turn
   * and counts its calls.
   */
  class ReflectionAgent {
    const persona: Json
    const maxIterations: int
    /** The replies the model gives, in order (the mock's `side_effect`). */
    const script: seq<Reply>
    /** How many times the model has been called (the mock's `call_count`). */
    var calls: nat
    /** Every request sent to the model, in order. */
    var asks: seq<Ask>

    constructor (persona: Json, maxIterations: int, script: seq<Reply>)
      ensures this.persona == persona && this.maxIterations == maxIterations && this.script == script
      ensures calls == 0 && asks == []
    {
      this.persona := persona;
      this.maxIterations := maxIterations;
      this.script := script;
      calls := 0;
      asks := [];
    }

    /** `self.llm.llm.invoke(prompt)`: the next scripted reply. */
    method Invoke(ask: Ask) returns (reply: Reply)
      modifies this
      ensures reply == ReplyAt(script, old(calls)) && calls == old(calls) + 1
      ensures asks == old(asks) + [ask]
    {
      reply := ReplyAt(script, calls);
      calls := calls + 1;
      asks := asks + [ask];
    }

    /**
     * One pass through the loop body, from the phase the loop variables
     * make up; the run began when the model had been called `base` times.
     */
    method Iterate(task: string, context: Option<string>, threshold: real, parse: string -> Option<Json>,
                   ghost base: nat, p: Phase) returns (next: Next)
      requires p.iteration < maxIterations && calls == base + p.calls
      modifies this
      ensures next == Round(task, context, threshold, maxIterations, Drop(script, base), parse, p)
      ensures asks == old(asks) + next.made && calls == old(calls) + |next.made|
    {
      ghost var view := Drop(script, base);
      DropReplyAt(script, base, p.calls);
      var reviewing := [Review(task, p.current, context)];
      var reply := Invoke(reviewing[0]);
      assert reply == ReplyAt(view, p.calls);
      var critique := Critiqued(reply, parse);
      if critique.Raised? {
        return Crashed(reviewing);
      }
      var gate := Gate(critique.value, threshold);
      if gate.Raised? {
        return Crashed(reviewing);
      }
      var critiques := p.critiques + [critique.value];
      if gate.value || p.iteration + 1 >= maxIterations {
        return Done(Phase(p.iteration + 1, p.current, critiques, p.calls + 1), reviewing);
      }
      DropReplyAt(script, base, p.calls + 1);
      var refining := reviewing + [Refine(task, p.current, critique.value, context)];
      var refinement := Invoke(refining[1]);
      assert refinement == ReplyAt(view, p.calls + 1);
      if refinement.Fails? {
        return Crashed(refining);
      }
      next := Again(Phase(p.iteration + 1, refinement.text, critiques, p.calls + 2), refining);
    }

    /**
     * The state at the top of the loop: the loop made the requests `made`
     * on top of `before`, the model was called once per request, and the
     * rest of the loop runs from `phase`.
     */
    ghost predicate Looping(task: string, context: Option<string>, threshold: real, parse: string -> Option<Json>,
                            base: nat, before: seq<Ask>, whole: Ending, made: seq<Ask>, phase: Phase)
      reads this
    {
      asks == before + made && calls == base + phase.calls
      && Remaining(task, context, threshold, maxIterations, Drop(script, base), parse, whole, made, phase)
    }

    /** One pass through the loop body, and where it leaves the loop. */
    method Advance(task: string, context: Option<string>, threshold: real, parse: string -> Option<Json>,
                   ghost base: nat, ghost before: seq<Ask>, ghost whole: Ending, ghost made: seq<Ask>, phase: Phase)
      returns (next: Next)
      requires phase.iteration < maxIterations
      requires Looping(task, context, threshold, parse, base, before, whole, made, phase)
      modifies this
      ensures next.Again? ==> next.p.iteration == phase.iteration + 1
      ensures next.Again? ==> Looping(task, context, threshold, parse, base, before, whole, made + next.made, next.p)
      ensures !next.Again? ==> whole.last == next && asks == before + whole.asks && calls == base + whole.calls
    {
      next := Iterate(task, context, threshold, parse, base, phase);
      AppendAssoc(before, made, next.made);
      RemainingStep(task, context, threshold, maxIterations, Drop(script, base), parse, whole, made, phase);
    }

    /** The `while` loop, from the phase `start`: where it ended, or that an exception escaped. */
    method Refining(task: string, context: Option<string>, threshold: real, parse: string -> Option<Json>,
                    ghost base: nat, start: Phase) returns (phase: Phase, crashed: bool)
      requires calls == base + start.calls
      modifies this
      ensures var e := Refinement(task, context, threshold, maxIterations, Drop(script, base), parse, start);
        crashed == e.last.Crashed? && (!crashed ==> phase == e.last.p)
        && asks == old(asks) + e.asks && calls == base + e.calls
    {
      phase, crashed := start, false;
      ghost var whole := Refinement(task, context, threshold, maxIterations, Drop(script, base), parse, start);
      ghost var made: seq<Ask> := [];
      while phase.iteration < maxIterations
        invariant Looping(task, context, threshold, parse, base, old(asks), whole, made, phase)
        decreases maxIterations - phase.iteration
      {
        var next := Advance(task, context, threshold, parse, base, old(asks), whole, made, phase);
        if next.Crashed? {
          return phase, true;
        }
        if next.Done? {
          return next.p, false;
        }
        made := made + next.made;
        phase := next.p;
      }
      RemainingEnd(task, context, threshold, maxIterations, Drop(script, base), parse, whole, made, phase);
    }

    /**
     * The part of `run` after the initial response `start.current`, which
     * followed the requests `opening`: the loop, the final critique and the
     * result dictionary.
     */
    method Finish(task: string, context: Option<string>, threshold: real, parse: string -> Option<Json>,
                  ghost base: nat, ghost before: seq<Ask>, ghost opening: seq<Ask>, start: Phase)
      returns (out: Outcome<Reflected>)
      requires |opening| == start.calls && calls == base + start.calls && asks == before + opening
      modifies this
      ensures var w := Wrapup(task, context, Drop(script, base), parse, opening,
                              Refinement(task, context, threshold, maxIterations, Drop(script, base), parse, start));
        out == w.outcome && asks == before + w.asks && calls == base + |w.asks|
    {
      ghost var view := Drop(script, base);
      ghost var whole := Refinement(task, context, threshold, maxIterations, view, parse, start);
      ghost var w := Wrapup(task, context, view, parse, opening, whole);
      var phase, crashed := Refining(task, context, threshold, parse, base, start);
      AppendAssoc(before, opening, whole.asks);
      if crashed {
        assert w == Session(Raised, opening + whole.asks);
        return Raised;
      }
      DropReplyAt(script, base, phase.calls);
      var review := Review(task, phase.current, context);
      var last := Invoke(review);
      assert last == ReplyAt(view, phase.calls);
      AppendAssoc(before, opening + whole.asks, [review]);
      var final := Critiqued(last, parse);
      assert w.asks == opening + whole.asks + [review];
      if final.Raised? {
        assert w.outcome == Raised;
        return Raised;
      }
      out := Conclude(phase, final.value);
      assert w.outcome == out;
    }

    /**
     * `run`: the initial response, the loop, the final critique and the
     * result dictionary, as `Reflect` describes them for the replies still
     * to come; `Raised` when an exception escapes, which leaves the
     * requests made so far.
     */
    method Run(task: string, context: Option<string>, threshold: real, parse: string -> Option<Json>)
      returns (out: Outcome<Reflected>)
      modifies this
      ensures var s := Reflect(persona, task, context, threshold, maxIterations, Drop(script, old(calls)), parse);
        out == s.outcome && asks == old(asks) + s.asks && calls == old(calls) + |s.asks|
    {
      ghost var base := calls;
      ghost var view := Drop(script, base);
      DropReplyAt(script, base, 0);
      var shown := Shown(context);
      var opening := Generate(persona, task, shown);
      var reply := Invoke(opening);
      if reply.Fails? {
        assert Reflect(persona, task, context, threshold, maxIterations, view, parse) == Session(Raised, [opening]);
        return Raised;
      }
      var start := Phase(0, reply.text, [], 1);
      assert Reflect(persona, task, context, threshold, maxIterations, view, parse)
        == Wrapup(task, shown, view, parse, [opening],
                  Refinement(task, shown, threshold, maxIterations, view, parse, start));
      out := Finish(task, shown, threshold, parse, base, old(asks), [opening], start);
    }
  }
}
