/** The drawing canvas of the client (client/src/stores/pixelStore.ts).

    The store holds a dim x dim grid of grey levels (255 is white). `Reset`
    paints it white, `Draw` darkens the cells under a square brush by 20,
    and `PixelsToString` exports the grid as the 784-long vector that the
    service classifies: inverted (255 - p) and transposed. Numbers of the
    browser are modelled as `real` for the brush geometry and as `int` for
    the grey levels. */
module Canvas {

  /** The store's `dim` */
  const Dim: nat := 28
  /** The side that `flatten` hard-codes (its loops run to 27) */
  const FlatSide: nat := 28
  const FlatLength: nat := FlatSide * FlatSide
  const White: int := 255
  /** How much one stroke darkens a cell */
  const BrushStep: int := 20

  /** A grid as nested arrays: g[i][j] */
  type Grid = seq<seq<int>>

  predicate IsPixel(v: int) {
    0 <= v <= White
  }

  /** `g` has at least `n` rows, and each of the first `n` rows at least `n` cells */
  predicate Covers(g: Grid, n: nat) {
    |g| >= n && forall i :: 0 <= i < n ==> |g[i]| >= n
  }

  /** `g` is exactly n x n */
  predicate IsSquare(g: Grid, n: nat) {
    |g| == n && forall i :: 0 <= i < n ==> |g[i]| == n
  }

  predicate GridInRange(g: Grid) {
    forall i, j :: 0 <= i < |g| && 0 <= j < |g[i]| ==> IsPixel(g[i][j])
  }

  function Min(a: int, b: int): int { if a <= b then a else b }
  function Max(a: int, b: int): int { if a >= b then a else b }

  /** clamp(value, min, max) = Math.min(Math.max(value, min), max) */
  function Clamp(value: int, lo: int, hi: int): (r: int)
    ensures r <= hi
    ensures lo <= hi ==> lo <= r
    ensures lo <= value <= hi ==> r == value
    ensures lo <= hi && value < lo ==> r == lo
    ensures value > hi ==> r == hi
  {
    Min(Max(value, lo), hi)
  }

  // ---------------------------------------------------------------------------
  // The brush box

  /** Math.floor */
  function Floor(x: real): (k: int)
    ensures k as real <= x < k as real + 1.0
  {
    x.Floor
  }

  /** Math.ceil */
  function Ceil(x: real): (k: int)
    ensures k as real - 1.0 < x <= k as real
  {
    -((-x).Floor)
  }

  /** The inclusive index range [lo, hi] a brush covers along one axis */
  datatype Span = Span(lo: int, hi: int)

  /** A brush box: the range of rows (x) and of columns (y) */
  datatype Box = Box(x: Span, y: Span)

  /** One axis of draw's box: start = max(0, floor((c - r) / size)),
      end = min(n, ceil((c + r) / size)) */
  function BrushSpan(center: real, radius: real, pixelSize: real, n: int): (s: Span)
    requires pixelSize > 0.0
    ensures 0 <= s.lo && s.hi <= n
  {
    Span(Max(0, Floor((center - radius) / pixelSize)), Min(n, Ceil((center + radius) / pixelSize)))
  }

  /** The box of draw(mx, my, d, w) on the dim x dim grid: pixelSize = w / dim, r = d / 2 */
  function BrushBox(mx: real, my: real, d: real, w: real): (b: Box)
    requires w > 0.0
    ensures 0 <= b.x.lo && b.x.hi <= Dim && 0 <= b.y.lo && b.y.hi <= Dim
  {
    var pixelSize := w / Dim as real;
    var r := d / 2.0;
    Box(BrushSpan(mx, r, pixelSize, Dim), BrushSpan(my, r, pixelSize, Dim))
  }

  predicate InSpan(s: Span, i: int) {
    s.lo <= i <= s.hi
  }

  predicate InBox(b: Box, i: int, j: int) {
    InSpan(b.x, i) && InSpan(b.y, j)
  }

  lemma FloorAtMost(x: real, i: int)
    ensures Floor(x) <= i <==> x < (i + 1) as real
  {
  }

  lemma CeilAtLeast(x: real, i: int)
    ensures i <= Ceil(x) <==> (i - 1) as real < x
  {
  }

  /** For 0 < p: a / p < b <==> a < b * p */
  lemma DivLess(a: real, b: real, p: real)
    requires p > 0.0
    ensures a / p < b <==> a < b * p
  {
    assert (a / p) * p == a;
    if a / p < b {
      assert (a / p) * p < b * p;
    } else {
      assert (a / p) * p >= b * p;
    }
  }

  /** Which cells of one axis the brush covers: cell i (0 <= i < n) is
      covered exactly when the brush interval [c - r, c + r] meets the open
      interval ((i - 1) * size, (i + 1) * size). Cell i spans
      [i * size, (i + 1) * size), so the box reaches one cell further on the
      high side than on the low side. */
  lemma BrushSpanCovers(center: real, radius: real, pixelSize: real, n: int, i: int)
    requires pixelSize > 0.0 && 0 <= i < n
    ensures InSpan(BrushSpan(center, radius, pixelSize, n), i)
        <==> ((i - 1) as real) * pixelSize < center + radius && center - radius < ((i + 1) as real) * pixelSize
  {
    FloorAtMost((center - radius) / pixelSize, i);
    CeilAtLeast((center + radius) / pixelSize, i);
    DivLess(center - radius, (i + 1) as real, pixelSize);
    DivLess(-(center + radius), -((i - 1) as real), pixelSize);
    assert -(center + radius) / pixelSize == -((center + radius) / pixelSize);
  }

  // ---------------------------------------------------------------------------
  // invert and flatten, as functions of the grid

  /** The grid after reset: n x n cells of value v */
  function Filled(n: nat, v: int): (g: Grid)
    ensures IsSquare(g, n)
  {
    seq(n, i => seq(n, j => v))
  }

  /** invert(pixels): a fresh dim x dim grid of 255 - p */
  function Inverted(g: Grid): (r: Grid)
    requires Covers(g, Dim)
    ensures IsSquare(r, Dim)
  {
    seq(Dim, i requires 0 <= i < Dim => seq(Dim, j requires 0 <= j < Dim => White - g[i][j]))
  }

  /** flatten(pixels): the first 28 x 28 cells, column by column: entry
      i * 28 + j is pixels[j][i] */
  function Flattened(g: Grid): (flat: seq<int>)
    requires Covers(g, FlatSide)
    ensures |flat| == FlatLength
  {
    seq(FlatLength, k requires 0 <= k < FlatLength => g[k % FlatSide][k / FlatSide])
  }

  /** The inverse of `Flattened`: rebuilds the 28 x 28 grid */
  function Unflattened(flat: seq<int>): (g: Grid)
    requires |flat| == FlatLength
    ensures IsSquare(g, FlatSide)
  {
    seq(FlatSide, j requires 0 <= j < FlatSide =>
      seq(FlatSide, i requires 0 <= i < FlatSide => flat[i * FlatSide + j]))
  }

  lemma SplitIndex(i: int, j: int)
    requires 0 <= i < FlatSide && 0 <= j < FlatSide
    ensures 0 <= i * FlatSide + j < FlatLength
    ensures (i * FlatSide + j) / FlatSide == i && (i * FlatSide + j) % FlatSide == j
  {
  }

  /** Entry i * 28 + j of the flat vector is cell [j][i] */
  lemma FlattenedAt(g: Grid, i: int, j: int)
    requires Covers(g, FlatSide)
    requires 0 <= i < FlatSide && 0 <= j < FlatSide
    ensures 0 <= i * FlatSide + j < FlatLength
    ensures Flattened(g)[i * FlatSide + j] == g[j][i]
  {
    SplitIndex(i, j);
  }

  lemma InvertedTwice(g: Grid)
    requires IsSquare(g, Dim)
    ensures Inverted(Inverted(g)) == g
  {
    var h := Inverted(Inverted(g));
    forall i | 0 <= i < Dim
      ensures h[i] == g[i]
    {
      assert |h[i]| == |g[i]|;
    }
  }

  lemma InvertedInRange(g: Grid)
    requires Covers(g, Dim) && GridInRange(g)
    ensures GridInRange(Inverted(g))
  {
    var r := Inverted(g);
    forall i, j | 0 <= i < |r| && 0 <= j < |r[i]|
      ensures IsPixel(r[i][j])
    {
      assert IsPixel(g[i][j]);
    }
  }

  lemma UnflattenFlattened(g: Grid)
    requires IsSquare(g, FlatSide)
    ensures Unflattened(Flattened(g)) == g
  {
    var h := Unflattened(Flattened(g));
    forall j | 0 <= j < FlatSide
      ensures h[j] == g[j]
    {
      forall i | 0 <= i < FlatSide
        ensures h[j][i] == g[j][i]
      {
        FlattenedAt(g, i, j);
      }
    }
  }

  lemma FlattenUnflattened(flat: seq<int>)
    requires |flat| == FlatLength
    ensures Flattened(Unflattened(flat)) == flat
  {
    var f := Flattened(Unflattened(flat));
    forall k | 0 <= k < FlatLength
      ensures f[k] == flat[k]
    {
      var i, j := k / FlatSide, k % FlatSide;
      assert k == i * FlatSide + j;
      FlattenedAt(Unflattened(flat), i, j);
    }
  }

  /** The export of a freshly reset canvas is 784 zeros */
  lemma BlankExportIsZeros()
    ensures Flattened(Inverted(Filled(Dim, White))) == seq(FlatLength, k => 0)
  {
    var f := Flattened(Inverted(Filled(Dim, White)));
    forall k | 0 <= k < FlatLength
      ensures f[k] == 0
    {
      var i, j := k / FlatSide, k % FlatSide;
      assert k == i * FlatSide + j;
      FlattenedAt(Inverted(Filled(Dim, White)), i, j);
    }
  }

  /** Exported pixels are in 0..255 when the grid's are */
  lemma ExportInRange(g: Grid)
    requires Covers(g, Dim) && GridInRange(g)
    ensures forall k :: 0 <= k < |Flattened(Inverted(g))| ==> IsPixel(Flattened(Inverted(g))[k])
  {
    InvertedInRange(g);
    var r := Inverted(g);
    forall k | 0 <= k < FlatLength
      ensures IsPixel(Flattened(r)[k])
    {
      var i, j := k / FlatSide, k % FlatSide;
      assert IsPixel(r[j][i]);
    }
  }

  // ---------------------------------------------------------------------------
  // invert and flatten, as the loops they are

  /** invert: builds the inverted grid row by row */
  method Invert(pixels: Grid) returns (inverted: Grid)
    requires Covers(pixels, Dim)
    ensures inverted == Inverted(pixels)
  {
    inverted := [];
    var i := 0;
    while i < Dim
      invariant 0 <= i <= Dim
      invariant inverted == Inverted(pixels)[..i]
    {
      var row: seq<int> := [];
      var j := 0;
      while j < Dim
        invariant 0 <= j <= Dim
        invariant row == Inverted(pixels)[i][..j]
      {
        row := row + [White - pixels[i][j]];
        j := j + 1;
      }
      assert row == Inverted(pixels)[i];
      inverted := inverted + [row];
      i := i + 1;
    }
  }

  /** flatten: pushes pixels[j][i] for i, j from 0 to 27 */
  method Flatten(pixels: Grid) returns (flat: seq<int>)
    requires Covers(pixels, FlatSide)
    ensures flat == Flattened(pixels)
  {
    flat := [];
    var i := 0;
    while i <= 27
      invariant 0 <= i <= FlatSide
      invariant flat == Flattened(pixels)[..i * FlatSide]
    {
      var j := 0;
      while j <= 27
        invariant 0 <= j <= FlatSide
        invariant flat == Flattened(pixels)[..i * FlatSide + j]
      {
        FlattenedAt(pixels, i, j);
        flat := flat + [pixels[j][i]];
        j := j + 1;
      }
      i := i + 1;
    }
  }

  // ---------------------------------------------------------------------------
  // The store

  class PixelStore {
    /** pixels.value; pixels[i, j] is pixels.value[i][j] */
    var pixels: array2<int>

    /** A new store holds the empty grid `[]` */
    constructor ()
      ensures pixels.Length0 == 0 && pixels.Length1 == 0
    {
      pixels := new int[0, 0];
    }

    /** The grid has been reset: it is dim x dim */
    ghost predicate Ready()
      reads this
    {
      pixels.Length0 == Dim && pixels.Length1 == Dim
    }

    ghost predicate InRange()
      reads this, pixels
    {
      forall i, j :: 0 <= i < pixels.Length0 && 0 <= j < pixels.Length1 ==> IsPixel(pixels[i, j])
    }

    /** The grid as nested arrays, the form invert and flatten read */
    function Cells(): (g: Grid)
      reads this, pixels
      ensures IsSquare(g, pixels.Length0) || pixels.Length0 != pixels.Length1
    {
      var a := pixels;
      seq(a.Length0, i requires 0 <= i < a.Length0 reads a =>
        seq(a.Length1, j requires 0 <= i < a.Length0 && 0 <= j < a.Length1 reads a => a[i, j]))
    }

    /** reset: a fresh dim x dim grid, all white */
    method Reset()
      modifies this
      ensures Ready() && fresh(pixels) && InRange()
      ensures forall i, j :: 0 <= i < Dim && 0 <= j < Dim ==> pixels[i, j] == White
      ensures Cells() == Filled(Dim, White)
    {
      var matrix := new int[Dim, Dim];
      var i := 0;
      while i < Dim
        invariant 0 <= i <= Dim
        invariant forall a, b :: 0 <= a < i && 0 <= b < Dim ==> matrix[a, b] == White
      {
        var j := 0;
        while j < Dim
          invariant 0 <= j <= Dim
          invariant forall a, b :: 0 <= a < i && 0 <= b < Dim ==> matrix[a, b] == White
          invariant forall b :: 0 <= b < j ==> matrix[i, b] == White
        {
          matrix[i, j] := White;
          j := j + 1;
        }
        i := i + 1;
      }
      pixels := matrix;
      assert Cells() == Filled(Dim, White) by {
        var c := Cells();
        forall a | 0 <= a < Dim
          ensures c[a] == Filled(Dim, White)[a]
        {
        }
      }
    }

    /** draw(mx, my, d, w): every in-grid cell of the brush box drops by 20,
        clamped to 0..255; every other cell keeps its value. */
    method Draw(mx: real, my: real, d: real, w: real)
      requires Ready() && w > 0.0
      modifies pixels
      ensures forall i, j :: 0 <= i < Dim && 0 <= j < Dim ==>
        pixels[i, j] == if InBox(BrushBox(mx, my, d, w), i, j)
                        then Clamp(old(pixels[i, j]) - BrushStep, 0, White)
                        else old(pixels[i, j])
      ensures old(InRange()) ==> InRange()
      ensures forall i, j :: 0 <= i < Dim && 0 <= j < Dim && old(pixels[i, j]) >= 0 ==> pixels[i, j] <= old(pixels[i, j])
    {
      var n := Dim;
      var box := BrushBox(mx, my, d, w);
      var i := box.x.lo;
      while i <= box.x.hi
        invariant box.x.lo <= i <= Max(box.x.lo, box.x.hi + 1)
        invariant forall a, b :: 0 <= a < Dim && 0 <= b < Dim ==>
          pixels[a, b] == if box.x.lo <= a < i && InSpan(box.y, b)
                          then Clamp(old(pixels[a, b]) - BrushStep, 0, White)
                          else old(pixels[a, b])
      {
        var j := box.y.lo;
        while j <= box.y.hi
          invariant box.y.lo <= j <= Max(box.y.lo, box.y.hi + 1)
          invariant forall a, b :: 0 <= a < Dim && 0 <= b < Dim ==>
            pixels[a, b] == if (box.x.lo <= a < i && InSpan(box.y, b)) || (a == i && box.y.lo <= b < j)
                            then Clamp(old(pixels[a, b]) - BrushStep, 0, White)
                            else old(pixels[a, b])
        {
          if !(i < 0 || i >= n || j < 0 || j >= n) {
            pixels[i, j] := pixels[i, j] - BrushStep;
            pixels[i, j] := Clamp(pixels[i, j], 0, White);
          }
          j := j + 1;
        }
        i := i + 1;
      }
    }

    /** pixelsToString: the vector JSON.stringify serialises, flatten(invert(pixels)) */
    method PixelsToString() returns (flat: seq<int>)
      requires Ready()
      ensures flat == Flattened(Inverted(Cells()))
      ensures |flat| == FlatLength
      ensures InRange() ==> forall k :: 0 <= k < |flat| ==> IsPixel(flat[k])
    {
      var inverted := Invert(Cells());
      flat := Flatten(inverted);
      if InRange() {
        var g := Cells();
        assert GridInRange(g) by {
          forall i, j | 0 <= i < |g| && 0 <= j < |g[i]|
            ensures IsPixel(g[i][j])
          {
            assert g[i][j] == pixels[i, j];
          }
        }
        ExportInRange(g);
      }
    }
  }
}
