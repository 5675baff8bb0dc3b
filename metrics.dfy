/**
 * The retrieval metrics of `ClassicMetricsEvaluator`: precision and recall
 * at `k = len(retrieved)` over the sets of retrieved and relevant
 * documents, and the reciprocal rank of the first relevant document.
 * Python's floats are exact rationals here (`real`).
 */
module Retrieval {
  import opened Basics
  import opened Text

  /** `set(s)`. */
  function SetOf<T(==)>(s: seq<T>): set<T> {
    set x | x in s
  }

  /** `len(set(retrieved).intersection(set(relevant)))`. */
  function Hits<T(==)>(retrieved: seq<T>, relevant: seq<T>): nat {
    |SetOf(retrieved) * SetOf(relevant)|
  }

  /** A set has no more elements than the list it was built from, and exactly as many when the list has no repeats. */
  lemma {:induction false} SetOfSize<T>(s: seq<T>)
    ensures |SetOf(s)| <= |s|
    ensures Distinct(s) ==> |SetOf(s)| == |s|
  {
    if |s| > 0 {
      var last := s[|s| - 1];
      var init := s[..|s| - 1];
      SetOfSize(init);
      assert SetOf(s) == SetOf(init) + {last};
      if Distinct(s) {
        assert Distinct(init);
        assert last !in SetOf(init);
      }
    }
  }

  /** No document occurs twice. */
  predicate Distinct<T(==)>(s: seq<T>) {
    forall i, j :: 0 <= i < j < |s| ==> s[i] != s[j]
  }

  /** A subset is no larger than its superset. */
  lemma {:induction false} SubsetSize<T>(a: set<T>, b: set<T>)
    requires a <= b
    ensures |a| <= |b|
    decreases |b|
  {
    if a != {} {
      var x :| x in a;
      SubsetSize(a - {x}, b - {x});
    }
  }

  /** The hits are at most the distinct retrieved documents and at most the distinct relevant ones. */
  lemma HitsBounded<T>(retrieved: seq<T>, relevant: seq<T>)
    ensures Hits(retrieved, relevant) <= |SetOf(retrieved)| <= |retrieved|
    ensures Hits(retrieved, relevant) <= |SetOf(relevant)|
  {
    SubsetSize(SetOf(retrieved) * SetOf(relevant), SetOf(retrieved));
    SubsetSize(SetOf(retrieved) * SetOf(relevant), SetOf(relevant));
    SetOfSize(retrieved);
  }

  /** `precision_at_k`: the share of the `k` retrieved entries that are relevant; 0 when nothing was retrieved. */
  function Precision<T(==)>(retrieved: seq<T>, relevant: seq<T>): (p: real)
    ensures 0.0 <= p <= 1.0
    ensures p == 0.0 <==> (|retrieved| == 0 || Hits(retrieved, relevant) == 0)
  {
    HitsBounded(retrieved, relevant);
    if |retrieved| > 0 then Hits(retrieved, relevant) as real / |retrieved| as real else 0.0
  }

  /** `recall_at_k`: the share of the distinct relevant documents that were retrieved; 0 when none are relevant. */
  function Recall<T(==)>(retrieved: seq<T>, relevant: seq<T>): (r: real)
    ensures 0.0 <= r <= 1.0
    ensures r == 0.0 <==> (|relevant| == 0 || Hits(retrieved, relevant) == 0)
    ensures r == 1.0 <==> (|relevant| > 0 && SetOf(relevant) <= SetOf(retrieved))
  {
    RecallFacts(retrieved, relevant);
    var n := |SetOf(relevant)|;
    if n > 0 then Hits(retrieved, relevant) as real / n as real else 0.0
  }

  /** The facts behind `Recall`'s contract. */
  lemma RecallFacts<T>(retrieved: seq<T>, relevant: seq<T>)
    ensures Hits(retrieved, relevant) <= |SetOf(relevant)|
    ensures |SetOf(relevant)| == 0 <==> |relevant| == 0
    ensures Hits(retrieved, relevant) == |SetOf(relevant)| <==> SetOf(relevant) <= SetOf(retrieved)
  {
    HitsBounded(retrieved, relevant);
    if |relevant| > 0 { assert relevant[0] in SetOf(relevant); }
    if SetOf(relevant) <= SetOf(retrieved) {
      assert SetOf(retrieved) * SetOf(relevant) == SetOf(relevant);
    } else {
      var x :| x in SetOf(relevant) && x !in SetOf(retrieved);
      SubsetSize(SetOf(retrieved) * SetOf(relevant), SetOf(relevant) - {x});
    }
  }

  /** The index of the first retrieved document that is relevant. */
  function FirstHit<T(==)>(retrieved: seq<T>, relevant: set<T>): (r: Option<nat>)
    ensures r.Some? ==> (r.value < |retrieved| && retrieved[r.value] in relevant
      && forall j :: 0 <= j < r.value ==> retrieved[j] !in relevant)
    ensures r.None? <==> forall j :: 0 <= j < |retrieved| ==> retrieved[j] !in relevant
  {
    if |retrieved| == 0 then None
    else if retrieved[0] in relevant then Some(0)
    else
      var rest := FirstHit(retrieved[1..], relevant);
      assert forall j :: 1 <= j < |retrieved| ==> retrieved[j] == retrieved[1..][j - 1];
      if rest.None? then None else Some(rest.value + 1)
  }

  /** `mrr`: `1/(i+1)` for the first relevant document at index `i`, 0 when none is relevant. */
  function ReciprocalRank<T(==)>(retrieved: seq<T>, relevant: seq<T>): (m: real)
    ensures 0.0 <= m <= 1.0
    ensures m == 0.0 <==> Hits(retrieved, relevant) == 0
    ensures m == 1.0 <==> (|retrieved| > 0 && retrieved[0] in SetOf(relevant))
  {
    var first := FirstHit(retrieved, SetOf(relevant));
    FirstHitIsHit(retrieved, relevant);
    if first.Some? then 1.0 / (first.value + 1) as real else 0.0
  }

  /** A first hit exists exactly when some retrieved document is relevant. */
  lemma FirstHitIsHit<T>(retrieved: seq<T>, relevant: seq<T>)
    ensures FirstHit(retrieved, SetOf(relevant)).None? <==> Hits(retrieved, relevant) == 0
  {
    var first := FirstHit(retrieved, SetOf(relevant));
    if first.Some? {
      assert retrieved[first.value] in SetOf(retrieved) * SetOf(relevant);
    }
  }

  /** The `for ... break` loop that computes `mrr`. */
  method MeanReciprocalRank<T(==)>(retrieved: seq<T>, relevant: seq<T>) returns (mrr: real)
    ensures mrr == ReciprocalRank(retrieved, relevant)
  {
    var relevantSet := SetOf(relevant);
    mrr := 0.0;
    var i := 0;
    while i < |retrieved|
      invariant 0 <= i <= |retrieved|
      invariant forall j :: 0 <= j < i ==> retrieved[j] !in relevantSet
    {
      if retrieved[i] in relevantSet {
        assert FirstHit(retrieved, relevantSet) == Some(i) by {
          FirstHitAt(retrieved, relevantSet, i);
        }
        mrr := 1.0 / (i + 1) as real;
        return;
      }
      i := i + 1;
    }
  }

  /** The first hit is the one index before which nothing is relevant. */
  lemma FirstHitAt<T>(retrieved: seq<T>, relevant: set<T>, i: nat)
    requires i < |retrieved| && retrieved[i] in relevant
    requires forall j :: 0 <= j < i ==> retrieved[j] !in relevant
    ensures FirstHit(retrieved, relevant) == Some(i)
  {
  }

  /** The key of precision, as `f"..._{k}"` names it. */
  function AtK(metric: string, k: nat): string {
    metric + "_at_" + NatToString(k)
  }

  /** `evaluate_retrieval_metrics`' dictionary, in insertion order. */
  function RetrievalMetrics<T(==)>(retrieved: seq<T>, relevant: seq<T>): (r: seq<(string, real)>)
    ensures |r| == 3 && r[2].0 == "mrr"
    ensures forall i :: 0 <= i < 3 ==> 0.0 <= r[i].1 <= 1.0
  {
    var k := |retrieved|;
    [(AtK("precision", k), Precision(retrieved, relevant)),
     (AtK("recall", k), Recall(retrieved, relevant)),
     ("mrr", ReciprocalRank(retrieved, relevant))]
  }

  /** `evaluate_retrieval_metrics`. */
  method EvaluateRetrievalMetrics<T(==)>(retrieved: seq<T>, relevant: seq<T>) returns (metrics: seq<(string, real)>)
    ensures metrics == RetrievalMetrics(retrieved, relevant)
  {
    var k := |retrieved|;
    var mrr := MeanReciprocalRank(retrieved, relevant);
    metrics := [(AtK("precision", k), Precision(retrieved, relevant)),
                (AtK("recall", k), Recall(retrieved, relevant)),
                ("mrr", mrr)];
  }

  /** Retrieving exactly the relevant documents, each once, scores 1 on all three metrics. */
  lemma PerfectRetrieval<T>(retrieved: seq<T>, relevant: seq<T>)
    requires |retrieved| > 0 && Distinct(retrieved) && SetOf(retrieved) == SetOf(relevant)
    ensures RetrievalMetrics(retrieved, relevant)[0].1 == 1.0
    ensures RetrievalMetrics(retrieved, relevant)[1].1 == 1.0
    ensures RetrievalMetrics(retrieved, relevant)[2].1 == 1.0
  {
    SetOfSize(retrieved);
    assert SetOf(retrieved) * SetOf(relevant) == SetOf(retrieved);
    assert retrieved[0] in SetOf(retrieved);
    assert |relevant| > 0 by {
      assert retrieved[0] in SetOf(relevant);
    }
  }

  /** With no relevant document retrieved, all three metrics are 0. */
  lemma NothingRelevantRetrieved<T>(retrieved: seq<T>, relevant: seq<T>)
    requires forall j :: 0 <= j < |retrieved| ==> retrieved[j] !in relevant
    ensures RetrievalMetrics(retrieved, relevant)[0].1 == 0.0
    ensures RetrievalMetrics(retrieved, relevant)[1].1 == 0.0
    ensures RetrievalMetrics(retrieved, relevant)[2].1 == 0.0
  {
    assert SetOf(retrieved) * SetOf(relevant) == {} by {
      forall x | x in SetOf(retrieved) ensures x !in SetOf(relevant) {
        var j :| 0 <= j < |retrieved| && retrieved[j] == x;
      }
    }
  }

  /**
   * Four retrieved documents of which only the second is one of three
   * relevant ones: precision 1/4, recall 1/3, reciprocal rank 1/2, under
   * the keys `precision_at_4` and `recall_at_4`.
   */
  lemma PartialRetrieval()
    ensures RetrievalMetrics([1, 2, 3, 4], [2, 5, 6])
      == [("precision_at_4", 0.25), ("recall_at_4", 1.0 / 3.0), ("mrr", 0.5)]
  {
    var retrieved, relevant := [1, 2, 3, 4], [2, 5, 6];
    PartialHits();
    assert |SetOf(relevant)| == 3 by {
      SetOfSize(relevant);
    }
    assert FirstHit(retrieved, SetOf(relevant)) == Some(1) by {
      assert 1 !in SetOf(relevant) && 2 in SetOf(relevant);
      FirstHitAt(retrieved, SetOf(relevant), 1);
    }
    assert AtK("precision", 4) == "precision_at_4" && AtK("recall", 4) == "recall_at_4" by {
      assert NatToString(4) == "4";
    }
  }

  /** Only the second document of the example is relevant. */
  lemma PartialHits()
    ensures Hits([1, 2, 3, 4], [2, 5, 6]) == 1
  {
    var retrieved, relevant := [1, 2, 3, 4], [2, 5, 6];
    forall x ensures x in SetOf(retrieved) * SetOf(relevant) <==> x == 2 {
      if x in SetOf(retrieved) * SetOf(relevant) {
        assert x in retrieved && x in relevant;
      }
      assert 2 == retrieved[1] && 2 == relevant[0];
    }
    assert SetOf(retrieved) * SetOf(relevant) == {2};
  }
}
