/** The parameter estimator of service/src/preditor.py: the labels seen in
    the training data, the class priors (`_get_priors`) and the per-class
    mean vectors (`_get_means`). Covariances (`np.cov`) are not part of this
    model. */
module Estimation {
  import opened LabelMaps
  import opened RealArith

  /** The training data as load_train_data returns it: a DataFrame `xs` of
      `cols` feature columns and the Series `ys` of its labels */
  datatype Table = Table(xs: seq<seq<real>>, ys: seq<int>, cols: nat)

  predicate WellFormed(t: Table) {
    |t.xs| == |t.ys| && forall i :: 0 <= i < |t.xs| ==> |t.xs[i]| == t.cols
  }

  /** len(xs[ys == y]): the number of rows labelled y */
  function Count(ys: seq<int>, y: int): (c: nat)
    ensures c <= |ys|
    ensures c > 0 <==> y in ys
  {
    if ys == [] then 0
    else
      var init := ys[..|ys| - 1];
      assert ys == init + [ys[|ys| - 1]];
      Count(init, y) + if ys[|ys| - 1] == y then 1 else 0
  }

  /** ys.unique(): each label once, in the order of first appearance */
  function Unique(ys: seq<int>): (u: seq<int>)
    ensures forall y :: y in u <==> y in ys
    ensures Distinct(u)
  {
    if ys == [] then []
    else
      var init := ys[..|ys| - 1];
      assert ys == init + [ys[|ys| - 1]];
      var u := Unique(init);
      if ys[|ys| - 1] in u then u else u + [ys[|ys| - 1]]
  }

  /** The index of the first row labelled y */
  function FirstIndex(ys: seq<int>, y: int): (k: nat)
    requires y in ys
    ensures k < |ys| && ys[k] == y
    ensures forall i :: 0 <= i < k ==> ys[i] != y
  {
    if ys[0] == y then 0 else 1 + FirstIndex(ys[1..], y)
  }

  /** Unique lists the labels in the order in which they first appear */
  lemma {:induction false} UniqueInOrderOfAppearance(ys: seq<int>, i: nat, j: nat)
    requires i < j < |Unique(ys)|
    ensures FirstIndex(ys, Unique(ys)[i]) < FirstIndex(ys, Unique(ys)[j])
  {
    var init := ys[..|ys| - 1];
    var last := ys[|ys| - 1];
    assert ys == init + [last];
    var u := Unique(init);
    assert Unique(ys)[i] in u by {
      assert i < |u|;
    }
    FirstIndexOfPrefix(ys, init, Unique(ys)[i]);
    if last in u {
      FirstIndexOfPrefix(ys, init, Unique(ys)[j]);
      UniqueInOrderOfAppearance(init, i, j);
    } else if j < |u| {
      FirstIndexOfPrefix(ys, init, Unique(ys)[j]);
      UniqueInOrderOfAppearance(init, i, j);
    } else {
      assert Unique(ys)[j] == last && last !in init;
    }
  }

  /** A label already in a prefix is first seen where the prefix first has it */
  lemma FirstIndexOfPrefix(ys: seq<int>, init: seq<int>, y: int)
    requires init <= ys && y in init
    ensures FirstIndex(ys, y) == FirstIndex(init, y)
  {
    var k := FirstIndex(init, y);
    var k' := FirstIndex(ys, y);
    assert ys[k] == y;
    assert init[k'] != y ==> k' >= |init| || false by {
      if k' < |init| { assert init[k'] == ys[k']; }
    }
  }

  // ---------------------------------------------------------------------------
  // Priors

  /** The prior of y: the fraction of rows labelled y */
  function Prior(ys: seq<int>, y: int): real
    requires |ys| > 0
  {
    Count(ys, y) as real / |ys| as real
  }

  /** _get_priors: fills priors[y] for each label in turn */
  method GetPriors(t: Table, labels: seq<int>) returns (priors: map<int, real>)
    requires WellFormed(t)
    requires labels != [] ==> |t.xs| > 0
    ensures priors.Keys == set y | y in labels
    ensures forall y :: y in labels ==> priors[y] == Prior(t.ys, y)
  {
    priors := map[];
    for i := 0 to |labels|
      invariant priors.Keys == set y | y in labels[..i]
      invariant forall y :: y in labels[..i] ==> priors[y] == Prior(t.ys, y)
    {
      var y := labels[i];
      assert labels[..i + 1] == labels[..i] + [y];
      priors := priors[y := Count(t.ys, y) as real / |t.xs| as real];
    }
    assert labels[..|labels|] == labels;
  }

  /** An observed label's prior lies in (0, 1] */
  lemma PriorInUnitInterval(ys: seq<int>, y: int)
    requires y in ys
    ensures 0.0 < Prior(ys, y) <= 1.0
  {
    QuotientInUnitInterval(Count(ys, y) as real, |ys| as real);
  }

  /** Sum of the label counts over `labels` */
  function TotalCount(labels: seq<int>, ys: seq<int>): int {
    if labels == [] then 0 else TotalCount(labels[..|labels| - 1], ys) + Count(ys, labels[|labels| - 1])
  }

  lemma {:induction false} TotalCountAppend(labels: seq<int>, ys: seq<int>, x: int)
    ensures TotalCount(labels, ys + [x]) == TotalCount(labels, ys) + Count(labels, x)
  {
    if labels != [] {
      var init := labels[..|labels| - 1];
      assert labels == init + [labels[|labels| - 1]];
      assert (ys + [x])[..|ys|] == ys;
      TotalCountAppend(init, ys, x);
    }
  }

  lemma {:induction false} CountOfDistinct(labels: seq<int>, x: int)
    requires Distinct(labels) && x in labels
    ensures Count(labels, x) == 1
  {
    var init := labels[..|labels| - 1];
    var last := labels[|labels| - 1];
    assert labels == init + [last];
    if x in init {
      CountOfDistinct(init, x);
      var k :| 0 <= k < |init| && init[k] == x;
      assert labels[k] == x;
    } else {
      assert Count(init, x) == 0;
    }
  }

  /** Every row is counted under exactly one observed label */
  lemma {:induction false} CountsOfUniqueAddUp(ys: seq<int>)
    ensures TotalCount(Unique(ys), ys) == |ys|
  {
    if ys != [] {
      var init := ys[..|ys| - 1];
      var last := ys[|ys| - 1];
      assert ys == init + [last];
      var u := Unique(init);
      CountsOfUniqueAddUp(init);
      TotalCountAppend(u, init, last);
      if last in u {
        CountOfDistinct(u, last);
      } else {
        assert Count(u, last) == 0;
        assert Unique(ys) == u + [last];
        assert (u + [last])[..|u|] == u;
        TotalCountAppend(u, init, last);
        assert Count(init, last) == 0;
      }
    }
  }

  lemma {:induction false} SumOfPriors(labels: seq<int>, ys: seq<int>, priors: map<int, real>)
    requires |ys| > 0 && Defines(priors, labels)
    requires forall y :: y in labels ==> priors[y] == Prior(ys, y)
    ensures SumOver(labels, priors) == TotalCount(labels, ys) as real / |ys| as real
  {
    if labels != [] {
      var init := labels[..|labels| - 1];
      var last := labels[|labels| - 1];
      assert labels == init + [last] && last in labels;
      SumOfPriors(init, ys, priors);
      AddQuotients(TotalCount(init, ys) as real, Count(ys, last) as real, |ys| as real);
    }
  }

  /** The priors of the observed labels sum to 1 */
  lemma PriorsSumToOne(ys: seq<int>, priors: map<int, real>)
    requires |ys| > 0
    requires forall y :: y in ys ==> y in priors && priors[y] == Prior(ys, y)
    ensures Defines(priors, Unique(ys))
    ensures SumOver(Unique(ys), priors) == 1.0
  {
    var u := Unique(ys);
    assert forall i :: 0 <= i < |u| ==> u[i] in u;
    SumOfPriors(u, ys, priors);
    CountsOfUniqueAddUp(ys);
    SelfQuotient(|ys| as real);
  }

  // ---------------------------------------------------------------------------
  // Means

  /** Sum of column k over the rows labelled y */
  function ColumnSum(xs: seq<seq<real>>, ys: seq<int>, y: int, k: nat): real
    requires |xs| == |ys| && forall i :: 0 <= i < |xs| ==> k < |xs[i]|
  {
    if ys == [] then 0.0
    else
      ColumnSum(xs[..|xs| - 1], ys[..|ys| - 1], y, k)
      + if ys[|ys| - 1] == y then xs[|xs| - 1][k] else 0.0
  }

  /** xs[ys == y].mean(): the column means of the rows labelled y */
  function GroupMean(t: Table, y: int): (m: seq<real>)
    requires WellFormed(t) && y in t.ys
    ensures |m| == t.cols
  {
    seq(t.cols, k requires 0 <= k < t.cols => ColumnSum(t.xs, t.ys, y, k) / Count(t.ys, y) as real)
  }

  /** _get_means: fills means[y] for each label in turn */
  method GetMeans(t: Table, labels: seq<int>) returns (means: map<int, seq<real>>)
    requires WellFormed(t)
    requires forall y :: y in labels ==> y in t.ys
    ensures means.Keys == set y | y in labels
    ensures forall y :: y in labels ==> means[y] == GroupMean(t, y)
  {
    means := map[];
    for i := 0 to |labels|
      invariant means.Keys == set y | y in labels[..i]
      invariant forall y :: y in labels[..i] ==> means[y] == GroupMean(t, y)
    {
      var y := labels[i];
      assert labels[..i + 1] == labels[..i] + [y];
      means := means[y := GroupMean(t, y)];
    }
    assert labels[..|labels|] == labels;
  }

  /** Sum of the constant v over the rows labelled y */
  function GroupConst(ys: seq<int>, y: int, v: real): real {
    if ys == [] then 0.0
    else GroupConst(ys[..|ys| - 1], y, v) + if ys[|ys| - 1] == y then v else 0.0
  }

  lemma {:induction false} GroupConstOfOne(ys: seq<int>, y: int)
    ensures GroupConst(ys, y, 1.0) == Count(ys, y) as real
  {
    if ys != [] {
      var n := |ys| - 1;
      assert ys == ys[..n] + [ys[n]];
      GroupConstOfOne(ys[..n], y);
    }
  }

  lemma {:induction false} GroupConstScales(ys: seq<int>, y: int, v: real)
    ensures GroupConst(ys, y, v) == v * GroupConst(ys, y, 1.0)
  {
    if ys != [] {
      var n := |ys| - 1;
      GroupConstScales(ys[..n], y, v);
      var c := GroupConst(ys[..n], y, 1.0);
      if ys[n] == y {
        MulSucc(v, c, GroupConst(ys, y, 1.0));
      } else {
        MulSame(v, c, GroupConst(ys, y, 1.0));
      }
    } else {
      MulZero(v, GroupConst(ys, y, 1.0));
    }
  }

  lemma {:induction false} ColumnSumBounds(xs: seq<seq<real>>, ys: seq<int>, y: int, k: nat, lo: real, hi: real)
    requires |xs| == |ys| && forall i :: 0 <= i < |xs| ==> k < |xs[i]|
    requires forall i :: 0 <= i < |xs| && ys[i] == y ==> lo <= xs[i][k] <= hi
    ensures GroupConst(ys, y, lo) <= ColumnSum(xs, ys, y, k) <= GroupConst(ys, y, hi)
  {
    if ys != [] {
      var n := |ys| - 1;
      var xs', ys' := xs[..n], ys[..n];
      assert forall i :: 0 <= i < |xs'| && ys'[i] == y ==> lo <= xs'[i][k] <= hi by {
        forall i | 0 <= i < |xs'| && ys'[i] == y
          ensures lo <= xs'[i][k] <= hi
        {
          assert xs'[i] == xs[i] && ys'[i] == ys[i];
        }
      }
      ColumnSumBounds(xs', ys', y, k, lo, hi);
    }
  }

  /** The same bounds, for the column sum divided by the class size */
  lemma ColumnAverageBounds(xs: seq<seq<real>>, ys: seq<int>, y: int, k: nat, lo: real, hi: real)
    requires |xs| == |ys| && forall i :: 0 <= i < |xs| ==> k < |xs[i]|
    requires forall i :: 0 <= i < |xs| && ys[i] == y ==> lo <= xs[i][k] <= hi
    requires y in ys
    ensures lo <= ColumnSum(xs, ys, y, k) / Count(ys, y) as real <= hi
  {
    var c := Count(ys, y) as real;
    var s := ColumnSum(xs, ys, y, k);
    assert lo * c <= s <= hi * c by {
      ColumnSumBounds(xs, ys, y, k, lo, hi);
      GroupConstScales(ys, y, lo);
      GroupConstScales(ys, y, hi);
      GroupConstOfOne(ys, y);
    }
    QuotientWithin(s, c, lo, hi);
  }

  /** A class mean lies within any bounds that hold for that class's values
      in the column, in particular between the class's minimum and maximum */
  lemma MeanWithinGroupBounds(t: Table, y: int, k: nat, lo: real, hi: real)
    requires WellFormed(t) && y in t.ys && k < t.cols
    requires forall i :: 0 <= i < |t.xs| && t.ys[i] == y ==> lo <= t.xs[i][k] <= hi
    ensures lo <= GroupMean(t, y)[k] <= hi
  {
    ColumnAverageBounds(t.xs, t.ys, y, k, lo, hi);
  }
}
