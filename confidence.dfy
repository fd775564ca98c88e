/** Retrieval confidence: the two-regime normalisation of one similarity
    query's raw scores into a best score in [0, 1] and a low-confidence flag
    (src/app/core/rag_chain.py:25-32, inlined again at app/core/rag_chain.py:50-57). */
module Confidence {
  import opened Wrappers

  /** Python's `max(scores)`. */
  function Max(s: seq<real>): (m: real)
    requires |s| > 0
    ensures m in s
    ensures forall x :: x in s ==> x <= m
  {
    if |s| == 1 then s[0]
    else
      var rest := Max(s[1..]);
      assert s == [s[0]] + s[1..];
      if s[0] >= rest then s[0] else rest
  }

  /** Python's `min(scores)`. */
  function Min(s: seq<real>): (m: real)
    requires |s| > 0
    ensures m in s
    ensures forall x :: x in s ==> m <= x
  {
    if |s| == 1 then s[0]
    else
      var rest := Min(s[1..]);
      assert s == [s[0]] + s[1..];
      if s[0] <= rest then s[0] else rest
  }

  /** `min(1.0, max(0.0, x))`. */
  function Clamp(x: real): (r: real)
    ensures 0.0 <= r <= 1.0
    ensures 0.0 <= x <= 1.0 ==> r == x
    ensures x < 0.0 ==> r == 0.0
    ensures x > 1.0 ==> r == 1.0
  {
    var low := if 0.0 < x then x else 0.0;
    if low < 1.0 then low else 1.0
  }

  /** The pre-clamp best score: the maximum when every score is at most 1
      (similarity-like scale), otherwise one minus the minimum (distance-like). */
  function RawBest(scores: seq<real>): real
    requires |scores| > 0
  {
    if Max(scores) <= 1.0 then Max(scores) else 1.0 - Min(scores)
  }

  /** The pair `(best_score, low_confidence)` one query yields. */
  datatype Quality = Quality(bestScore: Option<real>, lowConfidence: bool)

  /** The rule applied to the scores of one similarity query. */
  function Assess(scores: seq<real>, threshold: Option<real>): (q: Quality)
    ensures q.bestScore.None? <==> scores == []
    ensures scores == [] ==> q.lowConfidence
    ensures q.bestScore.Some? ==> 0.0 <= q.bestScore.value <= 1.0
    ensures q.bestScore.Some? ==>
              (q.lowConfidence <==> threshold.Some? && q.bestScore.value < threshold.value)
  {
    if scores == [] then Quality(None, true)
    else
      var best := Clamp(RawBest(scores));
      Quality(Some(best), threshold.Some? && best < threshold.value)
  }

  /** Similarity regime: every score at most 1 gives the clamped maximum, and
      the maximum itself when the scores are already in [0, 1]. */
  lemma SimilarityRegime(scores: seq<real>, threshold: Option<real>)
    requires |scores| > 0
    requires forall x :: x in scores ==> x <= 1.0
    ensures Assess(scores, threshold).bestScore == Some(Clamp(Max(scores)))
    ensures (forall x :: x in scores ==> 0.0 <= x) ==>
              Assess(scores, threshold).bestScore == Some(Max(scores))
  {
    var m := Max(scores);
    assert m in scores;
  }

  /** Distance regime: one score above 1 switches to the clamped complement of
      the minimum, and a list whose every score is at least 1 then yields 0. */
  lemma DistanceRegime(scores: seq<real>, threshold: Option<real>, big: real)
    requires big in scores && big > 1.0
    ensures Assess(scores, threshold).bestScore == Some(Clamp(1.0 - Min(scores)))
    ensures (forall x :: x in scores ==> 1.0 <= x) ==>
              Assess(scores, threshold).bestScore == Some(0.0)
  {
    assert Max(scores) >= big;
    var n := Min(scores);
    assert n in scores;
  }

  /** The maximum is determined by the set of scores alone. */
  lemma {:induction false} MaxBySet(s: seq<real>, t: seq<real>)
    requires |s| > 0 && |t| > 0
    requires forall x :: x in s <==> x in t
    ensures Max(s) == Max(t)
  {
    var a, b := Max(s), Max(t);
    assert a in t && b in s;
    assert a <= b && b <= a;
  }

  /** The minimum is determined by the set of scores alone. */
  lemma {:induction false} MinBySet(s: seq<real>, t: seq<real>)
    requires |s| > 0 && |t| > 0
    requires forall x :: x in s <==> x in t
    ensures Min(s) == Min(t)
  {
    var a, b := Min(s), Min(t);
    assert a in t && b in s;
    assert a <= b && b <= a;
  }

  /** The result does not depend on the order (or repetition) of the scores the
      index returns: only which values occur matters. */
  lemma {:induction false} AssessIgnoresOrder(s: seq<real>, t: seq<real>, threshold: Option<real>)
    requires forall x :: x in s <==> x in t
    ensures Assess(s, threshold) == Assess(t, threshold)
  {
    if s != [] {
      var x0 := s[0];
      assert x0 in s;
      assert x0 in t;
      MaxBySet(s, t);
      MinBySet(s, t);
    }
  }

  /** With no threshold configured, a non-empty result is never low-confidence;
      an empty one always is. */
  lemma NoThresholdOnlyEmptyIsLow(scores: seq<real>)
    ensures Assess(scores, None).lowConfidence <==> scores == []
  {
  }

  /** A threshold at or below 0 never flags a non-empty result, and a threshold
      above 1 flags every result. */
  lemma ThresholdOutsideRange(scores: seq<real>, t: real)
    ensures t <= 0.0 ==> (Assess(scores, Some(t)).lowConfidence <==> scores == [])
    ensures t > 1.0 ==> Assess(scores, Some(t)).lowConfidence
  {
  }

  /** Raising the threshold can only turn a confident result into a
      low-confidence one, never the reverse. */
  lemma ThresholdMonotone(scores: seq<real>, t1: real, t2: real)
    requires t1 <= t2
    ensures Assess(scores, Some(t1)).lowConfidence ==> Assess(scores, Some(t2)).lowConfidence
  {
  }

  /** Scores [0.92, 0.81] with threshold 0.3: best 0.92, not low. */
  lemma ScenarioSimilarity()
    ensures Assess([0.92, 0.81], Some(0.3)) == Quality(Some(0.92), false)
  {
    assert Max([0.92, 0.81]) == 0.92 by { assert [0.92, 0.81][1..] == [0.81]; }
  }

  /** No scores with threshold 0.3: no best score, low. */
  lemma ScenarioEmpty()
    ensures Assess([], Some(0.3)) == Quality(None, true)
  {
  }

  /** Scores [1.5, 1.2] with threshold 0.3: 1 - 1.2 = -0.2 clamps to 0, low. */
  lemma ScenarioDistance()
    ensures Assess([1.5, 1.2], Some(0.3)) == Quality(Some(0.0), true)
  {
    assert [1.5, 1.2][1..] == [1.2];
    assert Max([1.5, 1.2]) == 1.5;
    assert Min([1.5, 1.2]) == 1.2;
  }
}
