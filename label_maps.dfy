/** Dictionaries keyed by label, as the predictor builds them.

    A Python dict filled by `for y in labels: d[y] = ...` is a `map` together
    with the sequence `labels`, which fixes the dict's insertion order. */
module LabelMaps {

  predicate Distinct(s: seq<int>) {
    forall i, j :: 0 <= i < j < |s| ==> s[i] != s[j]
  }

  /** Every label has an entry in `m` */
  predicate Defines(m: map<int, real>, labels: seq<int>) {
    forall i :: 0 <= i < |labels| ==> labels[i] in m
  }

  /** sum(d.values()) for a dict whose keys are `labels` */
  function SumOver(labels: seq<int>, m: map<int, real>): real
    requires Defines(m, labels)
  {
    if labels == [] then 0.0 else SumOver(labels[..|labels| - 1], m) + m[labels[|labels| - 1]]
  }

  /** Dividing every entry by t divides the sum by t */
  lemma {:induction false} SumScaled(labels: seq<int>, w: map<int, real>, p: map<int, real>, t: real)
    requires Defines(w, labels) && Defines(p, labels) && t != 0.0
    requires forall i :: 0 <= i < |labels| ==> p[labels[i]] == w[labels[i]] / t
    ensures SumOver(labels, p) == SumOver(labels, w) / t
  {
    if labels != [] {
      var init := labels[..|labels| - 1];
      SumScaled(init, w, p, t);
    }
  }

  /** With no negative entries, each entry is at most the sum */
  lemma {:induction false} EntryAtMostSum(labels: seq<int>, w: map<int, real>, y: int)
    requires Defines(w, labels) && y in labels
    requires forall z :: z in labels ==> w[z] >= 0.0
    ensures w[y] <= SumOver(labels, w)
  {
    var init := labels[..|labels| - 1];
    var last := labels[|labels| - 1];
    assert labels == init + [last] && last in labels;
    if y in init {
      EntryAtMostSum(init, w, y);
      SumNonNegative(init, w);
    } else {
      SumNonNegative(init, w);
    }
  }

  lemma {:induction false} SumNonNegative(labels: seq<int>, w: map<int, real>)
    requires Defines(w, labels)
    requires forall z :: z in labels ==> w[z] >= 0.0
    ensures SumOver(labels, w) >= 0.0
  {
    if labels != [] {
      var last := labels[|labels| - 1];
      assert labels == labels[..|labels| - 1] + [last] && last in labels;
      SumNonNegative(labels[..|labels| - 1], w);
    }
  }
}
