/** Min-max rescaling of a generated sample to pixel values
    (`_get_scaled_sample` in service/src/preditor.py): the smallest entry
    becomes 0, the largest 255, and everything in between is scaled
    linearly and truncated to an integer, as `astype(np.uint8)` does. */
module Scaling {
  import opened RealArith

  const Top: real := 255.0

  /** sample.min() */
  function SeqMin(v: seq<real>): (m: real)
    requires |v| > 0
    ensures m in v
    ensures forall i :: 0 <= i < |v| ==> m <= v[i]
  {
    if |v| == 1 then v[0]
    else
      var m := SeqMin(v[1..]);
      assert forall i :: 1 <= i < |v| ==> v[i] == v[1..][i - 1];
      if v[0] <= m then v[0] else m
  }

  /** sample.max() */
  function SeqMax(v: seq<real>): (m: real)
    requires |v| > 0
    ensures m in v
    ensures forall i :: 0 <= i < |v| ==> v[i] <= m
  {
    if |v| == 1 then v[0]
    else
      var m := SeqMax(v[1..]);
      assert forall i :: 1 <= i < |v| ==> v[i] == v[1..][i - 1];
      if v[0] >= m then v[0] else m
  }

  /** The sample has at least two distinct values, so max - min is not 0 */
  predicate HasRange(v: seq<real>) {
    |v| > 0 && SeqMin(v) < SeqMax(v)
  }

  /** The conversion of a non-negative float to an unsigned integer: the
      fractional part is dropped */
  function Truncate(x: real): (n: nat)
    requires x >= 0.0
    ensures n as real <= x < n as real + 1.0
  {
    x.Floor
  }

  /** One entry: (x - min) / (max - min), times 255, truncated */
  function ScaledValue(x: real, lo: real, hi: real): (p: int)
    requires lo <= x <= hi && lo < hi
    ensures 0 <= p <= 255
  {
    var normalized := (x - lo) / (hi - lo);
    QuotientInClosedUnitInterval(x - lo, hi - lo);
    Truncate(normalized * Top)
  }

  /** _get_scaled_sample */
  function ScaledSample(v: seq<real>): (r: seq<int>)
    requires HasRange(v)
    ensures |r| == |v|
    ensures forall i :: 0 <= i < |r| ==> 0 <= r[i] <= 255
  {
    var lo, hi := SeqMin(v), SeqMax(v);
    seq(|v|, i requires 0 <= i < |v| => ScaledValue(v[i], lo, hi))
  }

  /** min itself becomes 0 and max itself becomes 255 */
  lemma ScaledValueEnds(lo: real, hi: real)
    requires lo < hi
    ensures ScaledValue(lo, lo, hi) == 0
    ensures ScaledValue(hi, lo, hi) == 255
  {
    var d := hi - lo;
    SelfQuotient(d);
    assert (hi - lo) / d * Top == 255.0;
    assert (lo - lo) / d * Top == 0.0;
  }

  /** The smallest entries become 0 and the largest become 255 */
  lemma ScaledEnds(v: seq<real>, i: nat)
    requires HasRange(v) && i < |v|
    ensures v[i] == SeqMin(v) ==> ScaledSample(v)[i] == 0
    ensures v[i] == SeqMax(v) ==> ScaledSample(v)[i] == 255
  {
    var lo, hi := SeqMin(v), SeqMax(v);
    assert ScaledSample(v)[i] == ScaledValue(v[i], lo, hi);
    ScaledValueEnds(lo, hi);
  }

  /** Scaling keeps the order of the entries, up to ties made by truncation */
  lemma ScaledMonotone(v: seq<real>, i: nat, j: nat)
    requires HasRange(v) && i < |v| && j < |v| && v[i] <= v[j]
    ensures ScaledSample(v)[i] <= ScaledSample(v)[j]
  {
    var lo, hi := SeqMin(v), SeqMax(v);
    var a, b := (v[i] - lo) / (hi - lo), (v[j] - lo) / (hi - lo);
    QuotientMonotone(v[i] - lo, v[j] - lo, hi - lo);
    assert a <= b;
    assert a * Top <= b * Top;
  }
}
