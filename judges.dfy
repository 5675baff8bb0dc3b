/**
 * The judges of the jury: the factual judge (`FactualJudgeAgent`), which
 * reasons over two Ragas scores, and the relevance and safety judges
 * (`RelevanceJudgeAgent`, `SafetyJudgeAgent`), which ask the model
 * directly. Each reads the model's reply as JSON holding `final_score` and
 * `verdict_text`, with fixed defaults and a fixed fallback when the reply
 * is not a JSON object. The case under evaluation is a dictionary; the
 * Ragas metrics are oracles.
 */
module Judges {
  import opened Basics
  import opened Text
  import opened PyJson
  import opened TaskModel
  import opened Extract
  import opened Verdicts

  /** The verdict text when the reply does not decode to a JSON object. */
  const FormatError := "Failed to generate a valid verdict due to a response format error."

  /** The verdict text when the decoded reply has no `verdict_text`. */
  const NoVerdict := "Could not generate a verdict."

  /** The exception classes the judges' `except` clauses name, and every other one. */
  datatype PyError = JSONDecodeError | AttributeError | IndexError | OtherError

  /**
   * One call of a judge's model: the reply text, or the exception the call
   * raised (a wrapper that has no `invoke` raises `AttributeError`).
   */
  datatype Call = Answered(text: string) | Threw(error: PyError)

  /** Whether `except (json.JSONDecodeError, AttributeError, IndexError)` catches `e`. */
  predicate ParseErrorCaught(e: PyError) {
    e != OtherError
  }

  /** The float `0.0`, every default score. */
  const Zero := JFloat(0.0, "0.0")

  /**
   * `verdict_data = json.loads(text)` and its two `.get`s, as the pair
   * (final score, verdict text); a decode error and a decoded value that
   * is not a dictionary (`AttributeError` on `.get`) give the fallback.
   */
  function Reading(text: string, parse: string -> Option<Json>): (Json, Json) {
    match parse(text)
    case Some(JObj(fields)) => (GetOr(fields, "final_score", Zero), GetOr(fields, "verdict_text", JStr(NoVerdict)))
    case _ => (Zero, JStr(FormatError))
  }

  /**
   * The `Verdict(...)` a judge returns after reading `text`: `float()` of
   * the score, which raises for a value that is not a number or a string
   * that spells one.
   */
  function Judged(name: string, text: string, parse: string -> Option<Json>, floatOf: string -> Option<real>,
                  metrics: seq<(string, Cell)>): (r: Outcome<Verdict>)
    ensures r.Returned? ==> r.value.judgeName == name && r.value.metrics == metrics
  {
    var (score, said) := Reading(text, parse);
    match PyFloat(score, floatOf)
    case None => Raised
    case Some(x) => Returned(Verdict(name, x, said, metrics))
  }

  /** A reply that is not a JSON object gives score 0 and the format-error text. */
  lemma FormatErrorFallback(name: string, text: string, parse: string -> Option<Json>, floatOf: string -> Option<real>,
                            metrics: seq<(string, Cell)>)
    requires parse(text).None? || !parse(text).value.JObj?
    ensures Judged(name, text, parse, floatOf, metrics) == Returned(Verdict(name, 0.0, JStr(FormatError), metrics))
  {
  }

  /** A decoded object's numeric `final_score` is the score, and its `verdict_text`, or the default, the text. */
  lemma StatedScoreUsed(name: string, text: string, parse: string -> Option<Json>, floatOf: string -> Option<real>,
                        metrics: seq<(string, Cell)>, fields: Dict, score: real)
    requires parse(text) == Some(JObj(fields))
    requires Get(fields, "final_score").Some? && Numeric(Get(fields, "final_score").value) == Some(score)
    ensures Judged(name, text, parse, floatOf, metrics)
      == Returned(Verdict(name, score, GetOr(fields, "verdict_text", JStr(NoVerdict)), metrics))
  {
  }

  /** A decoded object with neither key gives score 0 and the default text. */
  lemma DefaultsWhenKeysMissing(name: string, text: string, parse: string -> Option<Json>, floatOf: string -> Option<real>,
                                metrics: seq<(string, Cell)>, fields: Dict)
    requires parse(text) == Some(JObj(fields)) && !HasKey(fields, "final_score") && !HasKey(fields, "verdict_text")
    ensures Judged(name, text, parse, floatOf, metrics) == Returned(Verdict(name, 0.0, JStr(NoVerdict), metrics))
  {
  }

  /** A stated `final_score` of `null`, a list or an object makes `float()` raise, which no judge catches. */
  lemma UnreadableScoreRaises(name: string, text: string, parse: string -> Option<Json>, floatOf: string -> Option<real>,
                              metrics: seq<(string, Cell)>, fields: Dict)
    requires parse(text) == Some(JObj(fields)) && Get(fields, "final_score").Some?
    requires var s := Get(fields, "final_score").value; s.JNull? || s.JArr? || s.JObj?
    ensures Judged(name, text, parse, floatOf, metrics) == Raised
  {
  }

  /**
   * The relevance and safety judges: `case_data['question']` and
   * `case_data['answer']` go into the prompt (a missing key raises
   * `KeyError`), one model call, and the reply's fenced JSON payload is read.
   * When the call itself raises one of the caught classes, the handler
   * prints `response_str`: a judge that set it to `None` beforehand
   * (`preset`) then returns the fallback verdict, one that did not raises
   * `UnboundLocalError`.
   */
  function AskedJudge(name: string, preset: bool, caseData: Dict, call: Call, parse: string -> Option<Json>,
                      floatOf: string -> Option<real>): (r: Outcome<Verdict>)
    ensures r.Returned? ==> r.value.judgeName == name && r.value.metrics == []
  {
    if !(HasKey(caseData, "question") && HasKey(caseData, "answer")) then Raised
    else
      match call
      case Threw(e) => if preset && ParseErrorCaught(e) then Returned(Verdict(name, 0.0, JStr(FormatError), [])) else Raised
      case Answered(response) => Judged(name, JsonPayload(response), parse, floatOf, [])
  }

  /** `RelevanceJudgeAgent.run`, which leaves `response_str` unbound until the call returns. */
  function Relevance(caseData: Dict, call: Call, parse: string -> Option<Json>, floatOf: string -> Option<real>): (r: Outcome<Verdict>)
    ensures r.Returned? ==> r.value.judgeName == "RelevanceJudgeAgent" && r.value.metrics == []
  {
    AskedJudge("RelevanceJudgeAgent", false, caseData, call, parse, floatOf)
  }

  /** `SafetyJudgeAgent.run`, which sets `response_str = None` before the call. */
  function Safety(caseData: Dict, call: Call, parse: string -> Option<Json>, floatOf: string -> Option<real>): (r: Outcome<Verdict>)
    ensures r.Returned? ==> r.value.judgeName == "SafetyJudgeAgent" && r.value.metrics == []
  {
    AskedJudge("SafetyJudgeAgent", true, caseData, call, parse, floatOf)
  }

  /**
   * A relevance or safety judge always returns a verdict except when the
   * case lacks the question or the answer, the model call raises something
   * the judge does not survive, or the stated score is not something
   * `float()` accepts.
   */
  lemma AskedJudgeReturns(name: string, preset: bool, caseData: Dict, call: Call, parse: string -> Option<Json>,
                          floatOf: string -> Option<real>)
    ensures AskedJudge(name, preset, caseData, call, parse, floatOf).Raised? <==>
      (!HasKey(caseData, "question") || !HasKey(caseData, "answer")
       || (call.Threw? && !(preset && ParseErrorCaught(call.error)))
       || (call.Answered? && PyFloat(Reading(JsonPayload(call.text), parse).0, floatOf).None?))
  {
    if HasKey(caseData, "question") && HasKey(caseData, "answer") && call.Answered? {
      var (score, said) := Reading(JsonPayload(call.text), parse);
      assert AskedJudge(name, preset, caseData, call, parse, floatOf) == Judged(name, JsonPayload(call.text), parse, floatOf, []);
    }
  }

  /**
   * A model call that raises: the safety judge survives the caught classes
   * with the fallback verdict, the relevance judge survives none.
   */
  lemma RaisingCall(caseData: Dict, e: PyError, parse: string -> Option<Json>, floatOf: string -> Option<real>)
    ensures Relevance(caseData, Threw(e), parse, floatOf) == Raised
    ensures Safety(caseData, Threw(e), parse, floatOf) ==
      if HasKey(caseData, "question") && HasKey(caseData, "answer") && e != OtherError
      then Returned(Verdict("SafetyJudgeAgent", 0.0, JStr(FormatError), [])) else Raised
  {
  }

  /** A reply whose payload is no JSON object still gives the fallback verdict. */
  lemma AskedJudgeFallback(name: string, preset: bool, caseData: Dict, response: string, parse: string -> Option<Json>,
                           floatOf: string -> Option<real>)
    requires HasKey(caseData, "question") && HasKey(caseData, "answer")
    requires parse(JsonPayload(response)).None? || !parse(JsonPayload(response)).value.JObj?
    ensures AskedJudge(name, preset, caseData, Answered(response), parse, floatOf) == Returned(Verdict(name, 0.0, JStr(FormatError), []))
  {
    FormatErrorFallback(name, JsonPayload(response), parse, floatOf, []);
  }

  /** The fenced payload is what is read: a reply with no "```json" is read whole. */
  lemma UnfencedReadWhole(name: string, preset: bool, caseData: Dict, response: string, parse: string -> Option<Json>,
                          floatOf: string -> Option<real>)
    requires HasKey(caseData, "question") && HasKey(caseData, "answer") && !Contains(response, FenceOpen)
    ensures AskedJudge(name, preset, caseData, Answered(response), parse, floatOf) == Judged(name, response, parse, floatOf, [])
  {
  }

  /** The two Ragas evaluations: each stands for a call that returns a result or raises (`None`). */
  datatype Ragas = Ragas(faithfulness: (Json, Json, Json) -> Option<Json>, correctness: (Json, Json, Json) -> Option<Json>)

  /**
   * The `try` block of the factual judge: both Ragas calls and the two
   * `.get`s; any exception, a missing case key included, gives `None`.
   */
  function RagasScores(caseData: Dict, ragas: Ragas): (r: Option<(Json, Json)>)
    ensures r.Some? ==> (HasKey(caseData, "question") && HasKey(caseData, "answer")
      && HasKey(caseData, "contexts") && HasKey(caseData, "ground_truth"))
  {
    if !(HasKey(caseData, "question") && HasKey(caseData, "answer") && HasKey(caseData, "contexts")) then None
    else
      var question, answer := Get(caseData, "question").value, Get(caseData, "answer").value;
      match ragas.faithfulness(question, answer, Get(caseData, "contexts").value)
      case None => None
      case Some(faithful) =>
        if !HasKey(caseData, "ground_truth") then None
        else
          match ragas.correctness(question, answer, Get(caseData, "ground_truth").value)
          case None => None
          case Some(correct) =>
            if faithful.JObj? && correct.JObj? then
              Some((GetOr(faithful.fields, "faithfulness", Zero), GetOr(correct.fields, "answer_correctness", Zero)))
            else None
  }

  /**
   * `FactualJudgeAgent.run`: `None` when the Ragas step fails; otherwise
   * the two scores are printed with `:.2f` (which raises for a value that
   * is not a number), the model is asked once and its whole reply is read.
   * A call that raises `JSONDecodeError` or `AttributeError` gives the
   * fallback verdict; any other exception from it propagates.
   */
  function Factual(caseData: Dict, ragas: Ragas, call: Call, parse: string -> Option<Json>,
                   floatOf: string -> Option<real>): (r: Outcome<Option<Verdict>>)
  {
    match RagasScores(caseData, ragas)
    case None => Returned(None)
    case Some((faithful, correct)) =>
      if Numeric(faithful).None? || Numeric(correct).None? then Raised
      else
        var metrics := [("faithfulness", Value(faithful)), ("answer_correctness", Value(correct))];
        match call
        case Threw(e) =>
          if e == JSONDecodeError || e == AttributeError
          then Returned(Some(Verdict("FactualJudgeAgent", 0.0, JStr(FormatError), metrics))) else Raised
        case Answered(response) =>
          match Judged("FactualJudgeAgent", response, parse, floatOf, metrics)
          case Raised => Raised
          case Returned(v) => Returned(Some(v))
  }

  /**
   * The factual judge returns `None` exactly when the Ragas step fails, and
   * then makes no model call; every verdict it returns carries the two
   * Ragas values as its metrics, whatever the reply.
   */
  lemma FactualVerdicts(caseData: Dict, ragas: Ragas, call: Call, parse: string -> Option<Json>,
                        floatOf: string -> Option<real>)
    ensures Factual(caseData, ragas, call, parse, floatOf) == Returned(None) <==> RagasScores(caseData, ragas).None?
    ensures RagasScores(caseData, ragas).None? ==> forall other :: Factual(caseData, ragas, other, parse, floatOf) == Returned(None)
    ensures var r := Factual(caseData, ragas, call, parse, floatOf);
      r.Returned? && r.value.Some? ==>
        r.value.value.judgeName == "FactualJudgeAgent"
        && r.value.value.metrics == [("faithfulness", Value(RagasScores(caseData, ragas).value.0)),
                                     ("answer_correctness", Value(RagasScores(caseData, ragas).value.1))]
  {
  }

  /**
   * Once the Ragas step has given two numbers, a model call that raises
   * gives the fallback verdict exactly for the two classes the factual
   * judge catches.
   */
  lemma FactualRaisingCall(caseData: Dict, ragas: Ragas, e: PyError, parse: string -> Option<Json>,
                           floatOf: string -> Option<real>)
    requires RagasScores(caseData, ragas).Some?
    requires Numeric(RagasScores(caseData, ragas).value.0).Some? && Numeric(RagasScores(caseData, ragas).value.1).Some?
    ensures Factual(caseData, ragas, Threw(e), parse, floatOf).Returned? <==> e == JSONDecodeError || e == AttributeError
    ensures Factual(caseData, ragas, Threw(e), parse, floatOf).Returned? ==>
      var v := Factual(caseData, ragas, Threw(e), parse, floatOf).value.value;
      v.score == 0.0 && v.verdict == JStr(FormatError)
  {
  }

  /** Absent Ragas keys default to `0.0`. */
  lemma RagasDefaults(caseData: Dict, ragas: Ragas, faithful: Dict, correct: Dict)
    requires HasKey(caseData, "question") && HasKey(caseData, "answer")
    requires HasKey(caseData, "contexts") && HasKey(caseData, "ground_truth")
    requires ragas.faithfulness(Get(caseData, "question").value, Get(caseData, "answer").value,
                                Get(caseData, "contexts").value) == Some(JObj(faithful))
    requires ragas.correctness(Get(caseData, "question").value, Get(caseData, "answer").value,
                               Get(caseData, "ground_truth").value) == Some(JObj(correct))
    requires !HasKey(faithful, "faithfulness") && !HasKey(correct, "answer_correctness")
    ensures RagasScores(caseData, ragas) == Some((Zero, Zero))
  {
  }
}
