/** The decision step of service/src/preditor.py: the log-sum-exp
    normalisation of the log-posteriors (`_normilize_posterios`) and the
    choice of the most likely label (`_get_most_likely_label`).

    A dict is a `map<int, real>` read through the sequence `labels` of its
    keys in insertion order. `np.exp` is a parameter `exp`; the properties
    below say which of its properties each result needs. */
module Posterior {
  import opened LabelMaps
  import opened RealArith

  // ---------------------------------------------------------------------------
  // Arg-max in insertion order

  /** The position in `labels` that `max(d, key=d.get)` picks: a largest
      value, and of several equal largest values the first one, since a
      later key replaces the current best only when it is strictly larger. */
  function ArgMaxIndex(labels: seq<int>, m: map<int, real>): (k: nat)
    requires |labels| > 0 && Defines(m, labels)
    ensures k < |labels|
    ensures forall i :: 0 <= i < |labels| ==> m[labels[i]] <= m[labels[k]]
    ensures forall i :: 0 <= i < k ==> m[labels[i]] < m[labels[k]]
  {
    if |labels| == 1 then 0
    else
      var n := |labels| - 1;
      var k := ArgMaxIndex(labels[..n], m);
      assert labels[..n][k] == labels[k];
      if m[labels[k]] < m[labels[n]] then n else k
  }

  /** _get_most_likely_label */
  function MostLikelyLabel(labels: seq<int>, m: map<int, real>): (y: int)
    requires |labels| > 0 && Defines(m, labels)
    ensures y in labels && y in m
    ensures forall z :: z in labels ==> m[z] <= m[y]
  {
    labels[ArgMaxIndex(labels, m)]
  }

  /** max(d.values()) */
  function MaxValue(labels: seq<int>, m: map<int, real>): (v: real)
    requires |labels| > 0 && Defines(m, labels)
    ensures forall z :: z in labels ==> m[z] <= v
    ensures exists z :: z in labels && m[z] == v
  {
    m[MostLikelyLabel(labels, m)]
  }

  /** The two properties in ArgMaxIndex's contract pin the position down:
      it is the first position holding the largest value. */
  lemma ArgMaxIndexUnique(labels: seq<int>, m: map<int, real>, k: nat)
    requires |labels| > 0 && Defines(m, labels) && k < |labels|
    requires forall i :: 0 <= i < |labels| ==> m[labels[i]] <= m[labels[k]]
    requires forall i :: 0 <= i < k ==> m[labels[i]] < m[labels[k]]
    ensures ArgMaxIndex(labels, m) == k
  {
  }

  /** Two dicts that order the labels the same way have the same most likely
      label, ties included. */
  lemma MostLikelyLabelOrderInvariant(labels: seq<int>, m1: map<int, real>, m2: map<int, real>)
    requires |labels| > 0 && Defines(m1, labels) && Defines(m2, labels)
    requires forall i, j :: 0 <= i < |labels| && 0 <= j < |labels| ==>
      (m1[labels[i]] < m1[labels[j]] <==> m2[labels[i]] < m2[labels[j]])
    ensures ArgMaxIndex(labels, m1) == ArgMaxIndex(labels, m2)
    ensures MostLikelyLabel(labels, m1) == MostLikelyLabel(labels, m2)
  {
    var k := ArgMaxIndex(labels, m1);
    forall i | 0 <= i < |labels|
      ensures m2[labels[i]] <= m2[labels[k]]
    {
      assert !(m1[labels[k]] < m1[labels[i]]);
    }
    forall i | 0 <= i < k
      ensures m2[labels[i]] < m2[labels[k]]
    {
      assert m1[labels[i]] < m1[labels[k]];
    }
    ArgMaxIndexUnique(labels, m2, k);
  }

  // ---------------------------------------------------------------------------
  // Log-sum-exp normalisation

  /** What the normalisation needs of exp, and what floating-point exp
      keeps even when it underflows: exp(0) = 1 and no value is negative */
  ghost predicate ExpAnchored(exp: real -> real) {
    exp(0.0) == 1.0 && forall x :: exp(x) >= 0.0
  }

  /** The mathematical exponential is also positive and strictly increasing */
  ghost predicate ExpStrict(exp: real -> real) {
    (forall x :: exp(x) > 0.0) && forall x, x' :: x < x' ==> exp(x) < exp(x')
  }

  /** log_posteriors[y] - max_log_posterior, for every label */
  function Shifted(labels: seq<int>, lp: map<int, real>): (s: map<int, real>)
    requires |labels| > 0 && Defines(lp, labels)
    ensures Defines(s, labels)
    ensures forall y :: y in labels ==> s[y] <= 0.0
    ensures s[MostLikelyLabel(labels, lp)] == 0.0
  {
    var top := MaxValue(labels, lp);
    map y | y in labels :: lp[y] - top
  }

  /** The dict comprehension of line 76: the unnormalised weights */
  function Weights(labels: seq<int>, lp: map<int, real>, exp: real -> real): (w: map<int, real>)
    requires |labels| > 0 && Defines(lp, labels)
    ensures Defines(w, labels)
  {
    var s := Shifted(labels, lp);
    map y | y in labels :: exp(s[y])
  }

  /** sum(posteriors.values()) before the division. It is at least 1: the
      most likely label's weight is exp(0) = 1. This is what the shift buys:
      the total never underflows to 0, so the division is always defined. */
  function TotalWeight(labels: seq<int>, lp: map<int, real>, exp: real -> real): (total: real)
    requires |labels| > 0 && Defines(lp, labels) && ExpAnchored(exp)
    ensures total >= 1.0
  {
    var w := Weights(labels, lp, exp);
    var top := MostLikelyLabel(labels, lp);
    assert w[top] == 1.0;
    EntryAtMostSum(labels, w, top);
    SumOver(labels, w)
  }

  /** The posteriors _normilize_posterios returns: each weight divided by
      the total weight */
  function Normalized(labels: seq<int>, lp: map<int, real>, exp: real -> real): (p: map<int, real>)
    requires |labels| > 0 && Defines(lp, labels) && ExpAnchored(exp)
    ensures Defines(p, labels)
  {
    var w := Weights(labels, lp, exp);
    var total := TotalWeight(labels, lp, exp);
    map y | y in labels :: w[y] / total
  }

  /** Normalized, entry by entry */
  lemma NormalizedAt(labels: seq<int>, lp: map<int, real>, exp: real -> real, q: map<int, real>)
    requires |labels| > 0 && Defines(lp, labels) && ExpAnchored(exp)
    requires q.Keys == set y | y in labels
    requires forall j :: 0 <= j < |labels| ==>
      q[labels[j]] == Weights(labels, lp, exp)[labels[j]] / TotalWeight(labels, lp, exp)
    ensures q == Normalized(labels, lp, exp)
  {
    var p := Normalized(labels, lp, exp);
    forall y | y in labels
      ensures q[y] == p[y]
    {
      var j :| 0 <= j < |labels| && labels[j] == y;
    }
  }

  /** _normilize_posterios: builds the weights, sums them, then divides each
      entry in place */
  method NormalizePosteriors(logPosteriors: map<int, real>, labels: seq<int>, exp: real -> real)
    returns (posteriors: map<int, real>)
    requires |labels| > 0 && Distinct(labels) && Defines(logPosteriors, labels) && ExpAnchored(exp)
    ensures posteriors == Normalized(labels, logPosteriors, exp)
  {
    var maxLogPosterior := MaxValue(labels, logPosteriors);
    posteriors := map y | y in labels :: exp(logPosteriors[y] - maxLogPosterior);
    ghost var w := Weights(labels, logPosteriors, exp);
    assert posteriors == w;
    var totalPosterior := SumOver(labels, posteriors);
    assert totalPosterior == TotalWeight(labels, logPosteriors, exp);
    for i := 0 to |labels|
      invariant posteriors.Keys == set y | y in labels
      invariant forall j :: 0 <= j < i ==> posteriors[labels[j]] == w[labels[j]] / totalPosterior
      invariant forall j :: i <= j < |labels| ==> posteriors[labels[j]] == w[labels[j]]
    {
      var y := labels[i];
      posteriors := posteriors[y := posteriors[y] / totalPosterior];
    }
    NormalizedAt(labels, logPosteriors, exp, posteriors);
  }

  /** Every posterior lies in [0, 1], and in (0, 1] when exp never underflows */
  lemma NormalizedInUnitInterval(labels: seq<int>, lp: map<int, real>, exp: real -> real, y: int)
    requires |labels| > 0 && Defines(lp, labels) && ExpAnchored(exp) && y in labels
    ensures 0.0 <= Normalized(labels, lp, exp)[y] <= 1.0
    ensures ExpStrict(exp) ==> 0.0 < Normalized(labels, lp, exp)[y]
  {
    var w := Weights(labels, lp, exp);
    var total := TotalWeight(labels, lp, exp);
    EntryAtMostSum(labels, w, y);
    if w[y] > 0.0 {
      QuotientInUnitInterval(w[y], total);
    } else {
      assert w[y] == 0.0;
    }
  }

  /** The posteriors sum to 1 */
  lemma NormalizedSumsToOne(labels: seq<int>, lp: map<int, real>, exp: real -> real)
    requires |labels| > 0 && Defines(lp, labels) && ExpAnchored(exp)
    ensures SumOver(labels, Normalized(labels, lp, exp)) == 1.0
  {
    var w := Weights(labels, lp, exp);
    var total := TotalWeight(labels, lp, exp);
    SumScaled(labels, w, Normalized(labels, lp, exp), total);
    SelfQuotient(total);
  }

  /** With the mathematical exponential, normalising keeps the order of the
      labels: one posterior is below another exactly when its log-posterior is */
  lemma NormalizedKeepsOrder(labels: seq<int>, lp: map<int, real>, exp: real -> real, a: int, b: int)
    requires |labels| > 0 && Defines(lp, labels) && ExpAnchored(exp) && ExpStrict(exp)
    requires a in labels && b in labels
    ensures lp[a] < lp[b] <==> Normalized(labels, lp, exp)[a] < Normalized(labels, lp, exp)[b]
    ensures lp[a] == lp[b] <==> Normalized(labels, lp, exp)[a] == Normalized(labels, lp, exp)[b]
  {
    var s := Shifted(labels, lp);
    var w := Weights(labels, lp, exp);
    var total := TotalWeight(labels, lp, exp);
    assert lp[a] < lp[b] <==> s[a] < s[b];
    assert s[a] < s[b] ==> w[a] < w[b];
    assert s[b] < s[a] ==> w[b] < w[a];
    QuotientMonotone(w[a], w[b], total);
  }

  /** Normalising does not change the prediction */
  lemma NormalizedKeepsMostLikely(labels: seq<int>, lp: map<int, real>, exp: real -> real)
    requires |labels| > 0 && Defines(lp, labels) && ExpAnchored(exp) && ExpStrict(exp)
    ensures MostLikelyLabel(labels, Normalized(labels, lp, exp)) == MostLikelyLabel(labels, lp)
  {
    var p := Normalized(labels, lp, exp);
    forall i, j | 0 <= i < |labels| && 0 <= j < |labels|
      ensures lp[labels[i]] < lp[labels[j]] <==> p[labels[i]] < p[labels[j]]
    {
      NormalizedKeepsOrder(labels, lp, exp, labels[i], labels[j]);
    }
    MostLikelyLabelOrderInvariant(labels, lp, p);
  }

  /** Every log-posterior moved by the same constant c */
  function AddConstant(labels: seq<int>, lp: map<int, real>, c: real): map<int, real>
    requires Defines(lp, labels)
  {
    map y | y in labels :: lp[y] + c
  }

  /** Moving every log-posterior by c moves the maximum by c, so the
      shifted values do not change */
  lemma ShiftedShiftInvariant(labels: seq<int>, lp: map<int, real>, c: real)
    requires |labels| > 0 && Defines(lp, labels)
    ensures Shifted(labels, AddConstant(labels, lp, c)) == Shifted(labels, lp)
  {
    var lp' := AddConstant(labels, lp, c);
    assert MostLikelyLabel(labels, lp') == MostLikelyLabel(labels, lp) by {
      forall i, j | 0 <= i < |labels| && 0 <= j < |labels|
        ensures lp[labels[i]] < lp[labels[j]] <==> lp'[labels[i]] < lp'[labels[j]]
      {
        assert labels[i] in labels && labels[j] in labels;
      }
      MostLikelyLabelOrderInvariant(labels, lp, lp');
    }
    var top := MaxValue(labels, lp);
    assert MaxValue(labels, lp') == top + c;
    var s', s := Shifted(labels, lp'), Shifted(labels, lp);
    assert forall y :: y in labels ==> s'[y] == lp'[y] - (top + c) == s[y];
    assert s'.Keys == s.Keys;
  }

  /** The max shift makes the result independent of any common offset of
      the log-posteriors: that is why subtracting the maximum is safe. */
  lemma NormalizedShiftInvariant(labels: seq<int>, lp: map<int, real>, exp: real -> real, c: real)
    requires |labels| > 0 && Defines(lp, labels) && ExpAnchored(exp)
    ensures Normalized(labels, AddConstant(labels, lp, c), exp) == Normalized(labels, lp, exp)
  {
    ShiftedShiftInvariant(labels, lp, c);
    assert Weights(labels, AddConstant(labels, lp, c), exp) == Weights(labels, lp, exp);
  }
}
