/** Texture packing of the PLY provider (`CreateTextures`,
    Scripts/Ply_PointCloudProvider.cs).

    The decoded points are laid out on a square texture of side
    `ceil(sqrt(n))`, row by row. The first `n` pixels show the points in order;
    the pixels left over repeat points picked by a 32-bit counter that advances
    by the prime 132049 per pixel. Textures are modelled as 2-D arrays indexed
    `[x, y]` like `SetPixel(x, y, ...)`. */
module PlyTexture {
  import opened PlyBody

  const Stride: nat := 132049
  const UInt32Modulus: nat := 0x1_0000_0000

  /** `Mathf.CeilToInt(Mathf.Sqrt(n))`, taken as exact: the least `w` with
      `w * w >= n`. */
  function CeilSqrt(n: nat): (w: nat)
    ensures w * w >= n
    ensures w == 0 || (w - 1) * (w - 1) < n
    ensures w == 0 <==> n == 0
  {
    CeilSqrtFrom(n, 0)
  }

  function CeilSqrtFrom(n: nat, w: nat): (r: nat)
    requires w == 0 || (w - 1) * (w - 1) < n
    ensures r * r >= n
    ensures r == 0 || (r - 1) * (r - 1) < n
    ensures w <= r
    ensures r == 0 <==> n == 0
    decreases n - w
  {
    if w * w >= n then w
    else
      assert w < n by {
        if w > 0 { assert w * 1 <= w * w; }
      }
      CeilSqrtFrom(n, w + 1)
  }

  /** The point shown at pixel `k` (row-major) of a texture packing `n`
      points. The first `n` pixels show the points in order; every later
      pixel repeats a point chosen by the stride counter, that is `k` times
      the stride in wrapping 32-bit arithmetic, reduced modulo `n`. */
  function PixelSource(k: nat, n: nat): (i: nat)
    requires n > 0
    ensures i < n
    ensures k < n ==> i == k
  {
    if k < n then k else ((k * Stride) % UInt32Modulus) % n
  }

  /** Row-major position of pixel (x, y) on a texture of width `w`. */
  function PixelIndex(x: nat, y: nat, w: nat): nat
  {
    y * w + x
  }

  lemma PixelIndexRowEnd(y: nat, w: nat)
    ensures PixelIndex(w, y, w) == PixelIndex(0, y + 1, w)
  {
  }

  /** Every point is shown: point `i` sits at pixel `(i % w, i / w)`, which is
      on the texture. */
  lemma EveryPointShown(n: nat, i: nat)
    requires i < n
    ensures var w := CeilSqrt(n);
      w > 0 && i % w < w && i / w < w && PixelIndex(i % w, i / w, w) == i &&
      PixelSource(PixelIndex(i % w, i / w, w), n) == i
  {
    var w := CeilSqrt(n);
    var x, y := i % w, i / w;
    assert i == y * w + x;
    MulCancel(y, w, w);
  }

  /** Multiplying by a positive factor keeps a strict order. */
  lemma MulCancel(a: nat, b: nat, c: nat)
    requires c > 0 && a * c < b * c
    ensures a < b
  {
    assert (b - a) * c == b * c - a * c;
  }

  /** Advancing the wrapped counter by one stride keeps it equal to the pixel
      index times the stride, modulo 2^32. */
  lemma CounterStep(k: nat, c: nat)
    requires c == (k * Stride) % UInt32Modulus
    ensures (c + Stride) % UInt32Modulus == ((k + 1) * Stride) % UInt32Modulus
  {
    var a := k * Stride;
    assert (k + 1) * Stride == a + Stride;
    var q := a / UInt32Modulus;
    assert a == q * UInt32Modulus + c;
    ModShift(c + Stride, q);
  }

  /** Adding whole multiples of 2^32 does not change a residue. */
  lemma {:induction false} ModShift(x: nat, q: nat)
    ensures (q * UInt32Modulus + x) % UInt32Modulus == x % UInt32Modulus
  {
    if q > 0 {
      ModShift(x, q - 1);
      assert q * UInt32Modulus + x == ((q - 1) * UInt32Modulus + x) + UInt32Modulus;
    }
  }

  /** Fills row `y` of both textures, pixel by pixel, as the inner loop of
      `CreateTextures` does, and returns the two counters after the row. */
  method FillRow(vertexMap: array2<Vector3>, colorMap: array2<Color32>, positions: seq<Vector3>, colors: seq<Color32>,
                 y: nat, i1: nat, i2: nat)
    returns (next1: nat, next2: nat)
    requires 0 < |positions| <= |colors|
    requires vertexMap.Length0 == vertexMap.Length1 == colorMap.Length0 == colorMap.Length1
    requires y < vertexMap.Length1
    requires i1 == PixelIndex(0, y, vertexMap.Length0) && i2 == (i1 * Stride) % UInt32Modulus
    modifies vertexMap, colorMap
    ensures next1 == PixelIndex(0, y + 1, vertexMap.Length0) && next2 == (next1 * Stride) % UInt32Modulus
    ensures forall px, py :: 0 <= px < vertexMap.Length0 && 0 <= py < vertexMap.Length1 ==>
      if py == y then
        vertexMap[px, py] == positions[PixelSource(PixelIndex(px, py, vertexMap.Length0), |positions|)] &&
        colorMap[px, py] == colors[PixelSource(PixelIndex(px, py, vertexMap.Length0), |positions|)]
      else
        vertexMap[px, py] == old(vertexMap[px, py]) && colorMap[px, py] == old(colorMap[px, py])
  {
    var n := |positions|;
    var width := vertexMap.Length0;
    next1, next2 := i1, i2;
    var x := 0;
    while x < width
      invariant 0 <= x <= width
      invariant next1 == PixelIndex(x, y, width)
      invariant next2 == (next1 * Stride) % UInt32Modulus
      invariant forall px, py :: 0 <= px < width && 0 <= py < width ==>
        if py == y && px < x then
          vertexMap[px, py] == positions[PixelSource(PixelIndex(px, py, width), n)] &&
          colorMap[px, py] == colors[PixelSource(PixelIndex(px, py, width), n)]
        else
          vertexMap[px, py] == old(vertexMap[px, py]) && colorMap[px, py] == old(colorMap[px, py])
    {
      var i := if next1 < n then next1 else next2 % n;
      assert i == PixelSource(next1, n);
      vertexMap[x, y] := positions[i];
      colorMap[x, y] := colors[i];

      CounterStep(next1, next2);
      next1 := next1 + 1;
      next2 := (next2 + Stride) % UInt32Modulus;
      x := x + 1;
    }
    PixelIndexRowEnd(y, width);
  }

  /** The provider's packed textures. */
  class PlyProvider {
    var pointCount: int
    var vertexTexture: array2?<Vector3>
    var colorTexture: array2?<Color32>

    constructor ()
      ensures pointCount == 0 && vertexTexture == null && colorTexture == null
    {
      pointCount := 0;
      vertexTexture := null;
      colorTexture := null;
    }

    /** `CreateTextures`: two fresh `w` × `w` textures, `w == CeilSqrt(n)`;
        pixel (x, y) holds the position and colour of point
        `PixelSource(y * w + x, n)`. Colours are looked up with the positions'
        indices, so there must be at least as many colours as positions. */
    method CreateTextures(positions: seq<Vector3>, colors: seq<Color32>)
      requires |positions| <= |colors|
      modifies this
      ensures pointCount == |positions|
      ensures vertexTexture != null && colorTexture != null
      ensures fresh(vertexTexture) && fresh(colorTexture)
      ensures var w := CeilSqrt(|positions|);
        vertexTexture.Length0 == vertexTexture.Length1 == colorTexture.Length0 == colorTexture.Length1 == w
      ensures var w := CeilSqrt(|positions|);
        forall x, y :: 0 <= x < w && 0 <= y < w ==>
          vertexTexture[x, y] == positions[PixelSource(PixelIndex(x, y, w), |positions|)] &&
          colorTexture[x, y] == colors[PixelSource(PixelIndex(x, y, w), |positions|)]
    {
      var n := |positions|;
      pointCount := n;
      var width := CeilSqrt(n);

      var vertexMap := new Vector3[width, width];
      var colorMap := new Color32[width, width];

      var i1 := 0;
      var i2 := 0;
      var y := 0;
      while y < width
        invariant 0 <= y <= width
        invariant pointCount == n
        invariant i1 == PixelIndex(0, y, width)
        invariant i2 == (i1 * Stride) % UInt32Modulus
        invariant forall px, py :: 0 <= px < width && 0 <= py < y ==>
          vertexMap[px, py] == positions[PixelSource(PixelIndex(px, py, width), n)] &&
          colorMap[px, py] == colors[PixelSource(PixelIndex(px, py, width), n)]
      {
        i1, i2 := FillRow(vertexMap, colorMap, positions, colors, y, i1, i2);
        y := y + 1;
      }

      vertexTexture := vertexMap;
      colorTexture := colorMap;
    }
  }
}
