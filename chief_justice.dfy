/**
 * The chief justice (`ChiefJusticeAgent`): runs the four judges in the
 * fixed order factual, clarity, relevance, safety; keeps the verdicts they
 * return; asks the model for a final judgment whose score is always the
 * mean of the kept scores; and flattens a final verdict into report rows
 * (`verdicts_to_dataframe`, as a list of records).
 */
module ChiefJustice {
  import opened Basics
  import opened PyJson
  import opened TaskModel
  import opened Extract
  import opened Verdicts
  import opened Judges

  const ChiefName := "ChiefJusticeAgent"

  /** The verdict text when the reply does not decode to a JSON object. */
  const JudgmentFormatError := "Failed to generate a valid final judgment due to a response format error."

  /** The verdict text when the decoded reply has no `verdict_text`. */
  const NoJudgment := "Could not generate a final judgment."

  /**
   * Everything the jury's calls depend on: the Ragas oracles, the clarity
   * judge (whose source is not part of this model), one model reply for
   * each judge that asks the model and one for the chief justice, and the
   * parsers.
   */
  datatype Court = Court(ragas: Ragas, clarity: Dict -> Outcome<Option<Verdict>>,
                         factualReply: Call, relevanceReply: Call, safetyReply: Call, chiefReply: Call,
                         parse: string -> Option<Json>, floatOf: string -> Option<real>)

  /** A judge that always returns a verdict, seen as one that may return `None`. */
  function Always(r: Outcome<Verdict>): (o: Outcome<Option<Verdict>>)
    ensures o.Raised? <==> r.Raised?
    ensures r.Returned? ==> o == Returned(Some(r.value))
  {
    match r
    case Raised => Raised
    case Returned(v) => Returned(Some(v))
  }

  /** What `judge.run(case_data)` gives for each judge of `self.jury`, in order. */
  function JuryOutcomes(caseData: Dict, court: Court): (r: seq<Outcome<Option<Verdict>>>)
    ensures |r| == 4
  {
    [Factual(caseData, court.ragas, court.factualReply, court.parse, court.floatOf),
     court.clarity(caseData),
     Always(Relevance(caseData, court.relevanceReply, court.parse, court.floatOf)),
     Always(Safety(caseData, court.safetyReply, court.parse, court.floatOf))]
  }

  /** The verdicts among the outcomes, first to last, read from the front. */
  function Kept(outcomes: seq<Outcome<Option<Verdict>>>): seq<Verdict> {
    if |outcomes| == 0 then []
    else (if outcomes[0].Returned? && outcomes[0].value.Some? then [outcomes[0].value.value] else []) + Kept(outcomes[1..])
  }

  /** Keeping the verdicts of a longer list keeps those of the shorter one first. */
  lemma {:induction false} KeptAppend(outcomes: seq<Outcome<Option<Verdict>>>, o: Outcome<Option<Verdict>>)
    ensures Kept(outcomes + [o]) == Kept(outcomes) + Kept([o])
  {
    if |outcomes| > 0 {
      assert (outcomes + [o])[1..] == outcomes[1..] + [o];
      KeptAppend(outcomes[1..], o);
    }
  }

  /**
   * `all_verdicts`: the verdicts the judges return, in jury order, skipping
   * `None`; an exception from any judge ends the run.
   */
  function Collected(outcomes: seq<Outcome<Option<Verdict>>>): (r: Outcome<seq<Verdict>>)
    ensures r.Raised? <==> exists i :: 0 <= i < |outcomes| && outcomes[i].Raised?
    ensures r.Returned? ==> r.value == Kept(outcomes)
    ensures r.Returned? ==> (|r.value| <= |outcomes|
      && forall v :: v in r.value <==> exists i :: 0 <= i < |outcomes| && outcomes[i] == Returned(Some(v)))
  {
    if |outcomes| == 0 then Returned([])
    else
      var n := |outcomes| - 1;
      var init := Collected(outcomes[..n]);
      assert forall i :: 0 <= i < n ==> outcomes[..n][i] == outcomes[i];
      assert outcomes[..n] + [outcomes[n]] == outcomes;
      KeptAppend(outcomes[..n], outcomes[n]);
      match init
      case Raised => Raised
      case Returned(kept) =>
        match outcomes[n]
        case Raised => Raised
        case Returned(None) => Returned(kept)
        case Returned(Some(v)) => Returned(kept + [v])
  }

  /** The loop over `self.jury` that fills `all_verdicts`. */
  method CollectVerdicts(outcomes: seq<Outcome<Option<Verdict>>>) returns (r: Outcome<seq<Verdict>>)
    ensures r == Collected(outcomes)
  {
    var kept: seq<Verdict> := [];
    var i := 0;
    while i < |outcomes|
      invariant 0 <= i <= |outcomes|
      invariant Collected(outcomes[..i]) == Returned(kept)
    {
      assert outcomes[..i + 1][..i] == outcomes[..i];
      var outcome := outcomes[i];
      if outcome.Raised? {
        CollectedPrefixRaises(outcomes, i + 1);
        return Raised;
      }
      if outcome.value.Some? {
        kept := kept + [outcome.value.value];
      }
      i := i + 1;
    }
    assert outcomes[..i] == outcomes;
    r := Returned(kept);
  }

  /** Once a prefix of the outcomes raises, so do all of them. */
  lemma CollectedPrefixRaises(outcomes: seq<Outcome<Option<Verdict>>>, n: nat)
    requires n <= |outcomes| && Collected(outcomes[..n]).Raised?
    ensures Collected(outcomes).Raised?
  {
    var i :| 0 <= i < n && outcomes[..n][i].Raised?;
    assert outcomes[..n][i] == outcomes[i];
  }

  /** `sum(v.score for v in verdicts)`. */
  function Sum(verdicts: seq<Verdict>): real {
    if |verdicts| == 0 then 0.0 else Sum(verdicts[..|verdicts| - 1]) + verdicts[|verdicts| - 1].score
  }

  /** The arithmetic mean of the scores. */
  function Mean(verdicts: seq<Verdict>): real
    requires |verdicts| > 0
  {
    Sum(verdicts) / |verdicts| as real
  }

  /** Scores that all lie between `lo` and `hi` sum to between `n * lo` and `n * hi`. */
  lemma {:induction false} SumBounded(verdicts: seq<Verdict>, lo: real, hi: real)
    requires forall i :: 0 <= i < |verdicts| ==> lo <= verdicts[i].score <= hi
    ensures |verdicts| as real * lo <= Sum(verdicts) <= |verdicts| as real * hi
  {
    if |verdicts| > 0 {
      SumBounded(verdicts[..|verdicts| - 1], lo, hi);
    }
  }

  /** The mean lies between the lowest and the highest possible score; equal scores have that score as their mean. */
  lemma MeanBounded(verdicts: seq<Verdict>, lo: real, hi: real)
    requires |verdicts| > 0 && forall i :: 0 <= i < |verdicts| ==> lo <= verdicts[i].score <= hi
    ensures lo <= Mean(verdicts) <= hi
  {
    SumBounded(verdicts, lo, hi);
    var n := |verdicts| as real;
    assert n * lo <= Sum(verdicts) <= n * hi;
    assert Mean(verdicts) * n == Sum(verdicts);
  }

  /**
   * The final verdict once `all_verdicts` is non-empty and the model
   * replied `response`: the fenced payload is decoded; when it is a JSON
   * object its `verdict_text` (or the default) is the text and the score is
   * the mean, whatever score the model states; otherwise score 0 and the
   * format-error text.
   */
  function Judgment(all: seq<Verdict>, response: string, parse: string -> Option<Json>): (v: Verdict)
    requires |all| > 0
    ensures v.judgeName == ChiefName && v.metrics == [("individual_verdicts", Nested(all))]
  {
    var metrics := [("individual_verdicts", Nested(all))];
    match parse(JsonPayload(response))
    case Some(JObj(fields)) => Verdict(ChiefName, Mean(all), GetOr(fields, "verdict_text", JStr(NoJudgment)), metrics)
    case _ => Verdict(ChiefName, 0.0, JStr(JudgmentFormatError), metrics)
  }

  /** Whenever the payload decodes to an object, the chief justice's score is the jury's mean. */
  lemma JudgmentScore(all: seq<Verdict>, response: string, parse: string -> Option<Json>)
    requires |all| > 0
    ensures var p := parse(JsonPayload(response));
      Judgment(all, response, parse).score == (if p.Some? && p.value.JObj? then Mean(all) else 0.0)
    ensures var p := parse(JsonPayload(response));
      p.Some? && p.value.JObj? && !HasKey(p.value.fields, "verdict_text") ==> Judgment(all, response, parse).verdict == JStr(NoJudgment)
  {
  }

  /** `ChiefJusticeAgent.run(case_data)`. */
  function ChiefRun(caseData: Dict, court: Court): Outcome<Option<Verdict>> {
    match Collected(JuryOutcomes(caseData, court))
    case Raised => Raised
    case Returned(all) =>
      if |all| == 0 then Returned(None)
      else
        // a raising call reaches the handler's print of the unbound `response_str`
        match court.chiefReply
        case Threw(_) => Raised
        case Answered(response) => Returned(Some(Judgment(all, response, court.parse)))
  }

  /** `ChiefJusticeAgent.run`, with its collection loop. */
  method Run(caseData: Dict, court: Court) returns (r: Outcome<Option<Verdict>>)
    ensures r == ChiefRun(caseData, court)
  {
    var collected := CollectVerdicts(JuryOutcomes(caseData, court));
    if collected.Raised? {
      return Raised;
    }
    var all := collected.value;
    if |all| == 0 {
      return Returned(None);
    }
    var reply := court.chiefReply;
    if reply.Threw? {
      return Raised;
    }
    r := Returned(Some(Judgment(all, reply.text, court.parse)));
  }

  /** Every outcome returned a verdict. */
  predicate AllReturned(outcomes: seq<Outcome<Option<Verdict>>>) {
    forall i :: 0 <= i < |outcomes| ==> outcomes[i].Returned? && outcomes[i].value.Some?
  }

  /** The verdicts of outcomes that all returned one. */
  function VerdictsOf(outcomes: seq<Outcome<Option<Verdict>>>): (r: seq<Verdict>)
    requires AllReturned(outcomes)
    ensures |r| == |outcomes| && forall i :: 0 <= i < |r| ==> Returned(Some(r[i])) == outcomes[i]
  {
    if |outcomes| == 0 then []
    else
      var n := |outcomes| - 1;
      assert forall i :: 0 <= i < n ==> outcomes[..n][i] == outcomes[i];
      VerdictsOf(outcomes[..n]) + [outcomes[n].value.value]
  }

  /** With no judge raising or returning `None`, every verdict is kept, in order. */
  lemma {:induction false} CollectedAll(outcomes: seq<Outcome<Option<Verdict>>>)
    requires AllReturned(outcomes)
    ensures Collected(outcomes) == Returned(VerdictsOf(outcomes))
  {
    if |outcomes| > 0 {
      var n := |outcomes| - 1;
      assert forall i :: 0 <= i < n ==> outcomes[..n][i] == outcomes[i];
      CollectedAll(outcomes[..n]);
    }
  }

  /** Four verdicts, all kept. */
  lemma CollectedFour(o: seq<Outcome<Option<Verdict>>>)
    requires |o| == 4 && forall i :: 0 <= i < 4 ==> o[i].Returned? && o[i].value.Some?
    ensures Collected(o) == Returned([o[0].value.value, o[1].value.value, o[2].value.value, o[3].value.value])
  {
    CollectedAll(o);
    VerdictsOfFour(o);
  }

  lemma VerdictsOfFour(o: seq<Outcome<Option<Verdict>>>)
    requires |o| == 4 && AllReturned(o)
    ensures VerdictsOf(o) == [o[0].value.value, o[1].value.value, o[2].value.value, o[3].value.value]
  {
    var all := VerdictsOf(o);
    assert all == [o[0].value.value, o[1].value.value, o[2].value.value, o[3].value.value];
  }

  /** With every judge returning `None`, nothing is kept. */
  lemma {:induction false} CollectedNone(outcomes: seq<Outcome<Option<Verdict>>>)
    requires forall i :: 0 <= i < |outcomes| ==> outcomes[i] == Returned(None)
    ensures Collected(outcomes) == Returned([])
  {
    if |outcomes| > 0 {
      CollectedNone(outcomes[..|outcomes| - 1]);
    }
  }

  /**
   * A jury where clarity and safety return `None` keeps the other two
   * verdicts, factual first.
   */
  lemma CollectedMixed(factual: Verdict, relevance: Verdict)
    ensures Collected([Returned(Some(factual)), Returned(None), Returned(Some(relevance)), Returned(None)])
      == Returned([factual, relevance])
  {
    var o: seq<Outcome<Option<Verdict>>> := [Returned(Some(factual)), Returned(None), Returned(Some(relevance)), Returned(None)];
    assert o[1..] == [Returned(None), Returned(Some(relevance)), Returned(None)];
    assert o[1..][1..] == [Returned(Some(relevance)), Returned(None)];
    assert o[1..][1..][1..] == [Returned(None)];
    assert Kept(o[1..][1..][1..]) == [];
    assert Kept(o[1..][1..]) == [relevance];
    assert Kept(o[1..]) == [relevance];
    assert Kept(o) == [factual, relevance];
    assert forall i :: 0 <= i < |o| ==> o[i].Returned?;
    var c := Collected(o);
    assert c.Returned? && c.value == Kept(o);
  }

  /**
   * When every judge returns a verdict, all four are kept in jury order;
   * when none does, there is no final verdict and the chief justice makes
   * no model call.
   */
  lemma JuryOrder(caseData: Dict, court: Court)
    ensures var o := JuryOutcomes(caseData, court);
      (forall i :: 0 <= i < 4 ==> o[i].Returned? && o[i].value.Some?) ==>
        Collected(o) == Returned([o[0].value.value, o[1].value.value, o[2].value.value, o[3].value.value])
    ensures var o := JuryOutcomes(caseData, court);
      (forall i :: 0 <= i < 4 ==> o[i] == Returned(None)) ==>
        forall reply :: ChiefRun(caseData, court.(chiefReply := reply)) == Returned(None)
  {
    var o := JuryOutcomes(caseData, court);
    if forall i :: 0 <= i < 4 ==> o[i].Returned? && o[i].value.Some? {
      CollectedFour(o);
    }
    if forall i :: 0 <= i < 4 ==> o[i] == Returned(None) {
      CollectedNone(o);
      forall reply ensures ChiefRun(caseData, court.(chiefReply := reply)) == Returned(None) {
        assert JuryOutcomes(caseData, court.(chiefReply := reply)) == o;
      }
    }
  }

  /**
   * A final verdict exists exactly when some judge returned one and none
   * raised; its nested list is exactly the collected verdicts, and its score
   * is their mean unless the reply did not decode to an object.
   */
  lemma ChiefVerdicts(caseData: Dict, court: Court)
    ensures var r := ChiefRun(caseData, court);
      var c := Collected(JuryOutcomes(caseData, court));
      (r.Returned? && r.value.Some? <==> c.Returned? && |c.value| > 0 && court.chiefReply.Answered?)
      && (r.Returned? && r.value.Some? ==>
            r.value.value.metrics == [("individual_verdicts", Nested(c.value))]
            && var p := court.parse(JsonPayload(court.chiefReply.text));
            r.value.value.score == (if p.Some? && p.value.JObj? then Mean(c.value) else 0.0))
  {
    var c := Collected(JuryOutcomes(caseData, court));
    if c.Returned? && |c.value| > 0 && court.chiefReply.Answered? {
      JudgmentScore(c.value, court.chiefReply.text, court.parse);
    }
  }

  /** A report row: column name and cell, in insertion order. */
  type Record = seq<(string, Cell)>

  /** `record[key] = cell`: an existing key keeps its place, a new one goes last. */
  function Put(record: Record, key: string, cell: Cell): (r: Record)
    ensures |r| == |record| || |r| == |record| + 1
    ensures forall i :: 0 <= i < |record| ==> r[i].0 == record[i].0
    ensures exists i :: 0 <= i < |r| && r[i] == (key, cell)
  {
    if |record| == 0 then
      assert [(key, cell)][0] == (key, cell);
      [(key, cell)]
    else if record[0].0 == key then
      assert ([(key, cell)] + record[1..])[0] == (key, cell);
      [(key, cell)] + record[1..]
    else
      var rest := Put(record[1..], key, cell);
      var i :| 0 <= i < |rest| && rest[i] == (key, cell);
      assert ([record[0]] + rest)[i + 1] == (key, cell);
      [record[0]] + rest
  }

  /** `record.update(metrics)`. */
  function Update(record: Record, metrics: seq<(string, Cell)>): (r: Record)
    ensures |record| <= |r| <= |record| + |metrics|
    ensures forall i :: 0 <= i < |record| ==> r[i].0 == record[i].0
    decreases |metrics|
  {
    if |metrics| == 0 then record
    else Update(Put(record, metrics[0].0, metrics[0].1), metrics[1..])
  }

  /** The three columns every row starts with. */
  function Summary(v: Verdict): (r: Record)
    ensures |r| == 3 && r[0].0 == "judge" && r[1].0 == "score" && r[2].0 == "verdict"
  {
    [("judge", Name(v.judgeName)), ("score", Number(v.score)), ("verdict", Value(v.verdict))]
  }

  /** The row of one individual verdict: its three columns, then its own metrics. */
  function Row(v: Verdict): (r: Record)
    ensures |r| >= 3 && r[0].0 == "judge" && r[1].0 == "score" && r[2].0 == "verdict"
  {
    Update(Summary(v), v.metrics)
  }

  /** `final_verdict.metrics.get("individual_verdicts")`. */
  function MetricOf(metrics: seq<(string, Cell)>, key: string): (r: Option<Cell>)
    ensures r.Some? ==> exists i :: 0 <= i < |metrics| && metrics[i] == (key, r.value)
  {
    if |metrics| == 0 then None
    else if metrics[0].0 == key then Some(metrics[0].1)
    else
      var rest := MetricOf(metrics[1..], key);
      if rest.Some? then
        var i :| 0 <= i < |metrics[1..]| && metrics[1..][i] == (key, rest.value);
        assert metrics[i + 1] == (key, rest.value);
        rest
      else rest
  }

  /**
   * The verdicts the loop walks: the nested list when there is one; a
   * decoded list walks too but its first element has no `judge_name`, so a
   * non-empty one raises; anything else is not a list and gives no rows.
   */
  function Individuals(metrics: seq<(string, Cell)>): Outcome<seq<Verdict>> {
    match MetricOf(metrics, "individual_verdicts")
    case Some(Nested(verdicts)) => Returned(verdicts)
    case Some(Value(JArr(items))) => if |items| == 0 then Returned([]) else Raised
    case _ => Returned([])
  }

  /**
   * `verdicts_to_dataframe(final_verdict)` as its list of records: one row
   * per individual verdict, then the final verdict's summary row; no
   * verdict at all raises at `final_verdict.judge_name`.
   */
  function Records(final: Option<Verdict>): Outcome<seq<Record>> {
    if final.None? then Raised
    else
      match Individuals(final.value.metrics)
      case Raised => Raised
      case Returned(verdicts) => Returned(seq(|verdicts|, i requires 0 <= i < |verdicts| => Row(verdicts[i])) + [Summary(final.value)])
  }

  /** The loop of `verdicts_to_dataframe` that appends the rows. */
  method VerdictsToRecords(final: Option<Verdict>) returns (r: Outcome<seq<Record>>)
    ensures r == Records(final)
  {
    if final.None? {
      return Raised;
    }
    var individuals := Individuals(final.value.metrics);
    if individuals.Raised? {
      return Raised;
    }
    var verdicts := individuals.value;
    var records: seq<Record> := [];
    var i := 0;
    while i < |verdicts|
      invariant 0 <= i <= |verdicts|
      invariant records == seq(i, j requires 0 <= j < i => Row(verdicts[j]))
    {
      records := records + [Row(verdicts[i])];
      i := i + 1;
    }
    r := Returned(records + [Summary(final.value)]);
  }

  /** The rows of a final verdict whose nested list is `verdicts`. */
  lemma RecordsShape(final: Verdict, verdicts: seq<Verdict>)
    requires Individuals(final.metrics) == Returned(verdicts)
    ensures var r := Records(Some(final));
      r.Returned? && |r.value| == |verdicts| + 1
      && (forall i :: 0 <= i < |verdicts| ==> r.value[i] == Row(verdicts[i]))
      && r.value[|verdicts|] == Summary(final)
      && forall i :: 0 <= i <= |verdicts| ==> (|r.value[i]| >= 3 && r.value[i][0].0 == "judge"
           && r.value[i][1].0 == "score" && r.value[i][2].0 == "verdict")
  {
    var r: seq<Record> := Records(Some(final)).value;
    forall i | 0 <= i <= |verdicts|
      ensures |r[i]| >= 3 && r[i][0].0 == "judge" && r[i][1].0 == "score" && r[i][2].0 == "verdict"
    {
      if i < |verdicts| {
        assert r[i] == Row(verdicts[i]);
      } else {
        assert r[i] == Summary(final);
      }
    }
  }

  /**
   * A final verdict from `run` (whose metrics `Judgment` fixes) yields one
   * row per collected verdict, in order and each headed by that judge's
   * three columns, then the chief justice's own row.
   */
  lemma ChiefRecords(final: Verdict, all: seq<Verdict>)
    requires final.metrics == [("individual_verdicts", Nested(all))]
    ensures var r := Records(Some(final));
      r.Returned? && |r.value| == |all| + 1
      && (forall i :: 0 <= i < |all| ==> r.value[i] == Row(all[i]))
      && r.value[|all|] == Summary(final)
      && forall i :: 0 <= i <= |all| ==> (|r.value[i]| >= 3 && r.value[i][0].0 == "judge"
           && r.value[i][1].0 == "score" && r.value[i][2].0 == "verdict")
  {
    assert MetricOf(final.metrics, "individual_verdicts") == Some(Nested(all));
    RecordsShape(final, all);
  }

  /** A row's judge column names its judge unless that judge's own metrics overwrite it. */
  lemma RowNamesJudge(v: Verdict)
    requires forall i :: 0 <= i < |v.metrics| ==> v.metrics[i].0 != "judge"
    ensures Row(v)[0] == ("judge", Name(v.judgeName))
  {
    UpdateKeepsOther(Summary(v), v.metrics, 0);
  }

  /** An update by keys other than the one at `k` leaves that entry alone. */
  lemma {:induction false} UpdateKeepsOther(record: Record, metrics: seq<(string, Cell)>, k: nat)
    requires k < |record| && forall i :: 0 <= i < |metrics| ==> metrics[i].0 != record[k].0
    ensures Update(record, metrics)[k] == record[k]
    decreases |metrics|
  {
    if |metrics| > 0 {
      var next := Put(record, metrics[0].0, metrics[0].1);
      PutKeepsOther(record, metrics[0].0, metrics[0].1, k);
      UpdateKeepsOther(next, metrics[1..], k);
    }
  }

  /** Setting another key leaves the entry at `k` alone. */
  lemma {:induction false} PutKeepsOther(record: Record, key: string, cell: Cell, k: nat)
    requires k < |record| && record[k].0 != key
    ensures Put(record, key, cell)[k] == record[k]
  {
    if k > 0 && record[0].0 != key {
      PutKeepsOther(record[1..], key, cell, k - 1);
    }
  }
}
