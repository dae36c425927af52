/**
 RGB565 pixels, strided frame views and block cost, as the midpoint interpolator uses them.
 Specifications speak of an `Image`, a pixel for every position; `ImageOf` reads one out of
 strided memory.
 */
module Frames {
  import opened Common

  type Five = c: int | 0 <= c < 32
  type Six = c: int | 0 <= c < 64
  type Word = w: int | 0 <= w < 0x1_0000

  /** An RGB565 word by its three channels; `Decode` and `Encode` are its bit layout. */
  datatype Pixel = Pixel(red: Five, green: Six, blue: Five)

  /** A read-only view. `pixels` is `None` for a null pointer. */
  datatype View = View(pixels: Option<seq<Pixel>>, width: int, height: int, stride: int)

  datatype Image = Image(width: nat, height: nat, at: (int, int) -> Pixel)

  // Index arithmetic in the source is 32-bit; frames stay well inside it.
  const MAX_CELLS: nat := 0x4000_0000

  // ----- Colours -----------------------------------------------------------------------

  function Decode(w: Word): Pixel {
    Pixel(w / 2048, (w / 32) % 64, w % 32)
  }

  function Encode(p: Pixel): Word {
    p.red * 2048 + p.green * 32 + p.blue
  }

  /** Words and channel triples are the same thing, so equal words are equal pixels. */
  lemma EncodeDecode(w: Word)
    ensures Encode(Decode(w)) == w
  {
  }

  lemma DecodeEncode(p: Pixel)
    ensures Decode(Encode(p)) == p
  {
    var v := Encode(p);
    var high := p.red * 64 + p.green;
    assert v == high * 32 + p.blue;
    assert v / 32 == high && v % 32 == p.blue;
    assert high / 64 == p.red && high % 64 == p.green;
    assert v / 2048 == p.red;
  }

  function Abs(x: int): nat {
    if x < 0 then -x else x
  }

  function ColorDistance(l: Pixel, r: Pixel): (d: nat)
    ensures d <= 187
    ensures d == 0 <==> l == r
  {
    Abs(l.red - r.red) * 2 + Abs(l.green - r.green) + Abs(l.blue - r.blue) * 2
  }

  function Luma(p: Pixel): nat {
    var r := p.red * 255 / 31;
    var g := p.green * 255 / 63;
    var b := p.blue * 255 / 31;
    (54 * r + 183 * g + 19 * b) / 256
  }

  predicate Between(a: int, b: int, c: int) {
    a <= b <= c || c <= b <= a
  }

  /** Distances add up along any way that never turns back in a channel. */
  lemma DistanceAdds(p: Pixel, q: Pixel, r: Pixel)
    requires Between(p.red, q.red, r.red) && Between(p.green, q.green, r.green) && Between(p.blue, q.blue, r.blue)
    ensures ColorDistance(p, r) == ColorDistance(p, q) + ColorDistance(q, r)
  {
  }

  /** One step of red or of blue counts two, one step of green counts one; with `DistanceAdds` that fixes it. */
  lemma DistanceSteps(p: Pixel, q: Pixel)
    ensures q == p.(red := q.red) && Abs(q.red - p.red) == 1 ==> ColorDistance(p, q) == 2
    ensures q == p.(green := q.green) && Abs(q.green - p.green) == 1 ==> ColorDistance(p, q) == 1
    ensures q == p.(blue := q.blue) && Abs(q.blue - p.blue) == 1 ==> ColorDistance(p, q) == 2
    ensures ColorDistance(p, q) == ColorDistance(q, p)
  {
  }

  lemma StretchFive(c: Five, v: nat)
    requires 31 * v <= 255 * c < 31 * v + 31
    ensures c * 255 / 31 == v
  {
  }

  lemma StretchSix(c: Six, v: nat)
    requires 63 * v <= 255 * c < 63 * v + 63
    ensures c * 255 / 63 == v
  {
  }

  /**
   Brightness is 54, 183 and 19 parts in 256 of the channels, each stretched to 255; every
   division rounds down.
   */
  lemma LumaIs(p: Pixel, r: nat, g: nat, b: nat)
    requires 31 * r <= 255 * p.red < 31 * r + 31 && 31 * b <= 255 * p.blue < 31 * b + 31
    requires 63 * g <= 255 * p.green < 63 * g + 63
    ensures 256 * Luma(p) <= 54 * r + 183 * g + 19 * b < 256 * Luma(p) + 256
  {
    StretchFive(p.red, r);
    StretchSix(p.green, g);
    StretchFive(p.blue, b);
  }

  // ----- Strided memory ----------------------------------------------------------------

  /** Offset of row `n` in memory of `k` cells per row: the product, as repeated addition. */
  function Rows(n: nat, k: nat): (r: nat)
    ensures n > 0 ==> r >= k
  {
    if n == 0 then 0 else Rows(n - 1, k) + k
  }

  function Index(stride: nat, x: nat, y: nat): nat {
    Rows(y, stride) + x
  }

  function Row(stride: nat, i: nat): nat
    requires stride > 0
  {
    if i < stride then 0 else Row(stride, i - stride) + 1
  }

  function Col(stride: nat, i: nat): (c: nat)
    requires stride > 0
    ensures c < stride
  {
    if i < stride then i else Col(stride, i - stride)
  }

  /** `Index` is the source's address arithmetic. */
  lemma {:induction false} IndexIsProduct(stride: nat, x: nat, y: nat)
    ensures Index(stride, x, y) == y * stride + x
  {
    if y > 0 {
      IndexIsProduct(stride, x, y - 1);
      assert y * stride == (y - 1) * stride + stride;
    }
  }

  lemma {:induction false} RowsMono(a: nat, b: nat, k: nat)
    requires a <= b
    ensures Rows(a, k) <= Rows(b, k)
  {
    if a < b {
      RowsMono(a, b - 1, k);
    }
  }

  /** Index and (Col, Row) are inverse. */
  lemma {:induction false} IndexRoundTrip(stride: nat, x: nat, y: nat)
    requires x < stride
    ensures Col(stride, Index(stride, x, y)) == x && Row(stride, Index(stride, x, y)) == y
  {
    if y > 0 {
      IndexRoundTrip(stride, x, y - 1);
    }
  }

  lemma {:induction false} RowColRoundTrip(stride: nat, i: nat)
    requires stride > 0
    ensures Index(stride, Col(stride, i), Row(stride, i)) == i
  {
    if i >= stride {
      RowColRoundTrip(stride, i - stride);
    }
  }

  /** `Row` and `Col` are quotient and remainder. */
  lemma RowColAreDivMod(stride: nat, i: nat)
    requires stride > 0
    ensures i == Row(stride, i) * stride + Col(stride, i) && Col(stride, i) < stride
  {
    RowColRoundTrip(stride, i);
    IndexIsProduct(stride, Col(stride, i), Row(stride, i));
  }

  lemma IndexInRange(width: nat, height: nat, stride: nat, x: nat, y: nat)
    requires width <= stride && x < width && y < height
    ensures Index(stride, x, y) < Rows(height - 1, stride) + width <= Rows(height, stride)
  {
    RowsMono(y, height - 1, stride);
  }

  predicate IsValid(v: View) {
    v.pixels.Some? && v.width > 0 && v.height > 0 && v.stride >= v.width
  }

  /** A valid view over memory that is large enough for it. */
  predicate Readable(v: View) {
    && IsValid(v)
    && Rows(v.height, v.stride) <= MAX_CELLS
    && |v.pixels.value| >= Rows(v.height - 1, v.stride) + v.width
  }

  predicate Inside(v: View, x: int, y: int) {
    0 <= x < v.width && 0 <= y < v.height
  }

  /** The pixel of a view at a position inside it. */
  function ReadPixel(v: View, x: int, y: int): Pixel
    requires Readable(v) && Inside(v, x, y)
  {
    IndexInRange(v.width, v.height, v.stride, x, y);
    v.pixels.value[Index(v.stride, x, y)]
  }

  function ImageOf(v: View): Image
    requires Readable(v)
  {
    Image(v.width, v.height, (x, y) => if Inside(v, x, y) then ReadPixel(v, x, y) else Pixel(0, 0, 0))
  }

  // ----- Block cost --------------------------------------------------------------------

  predicate Fits(m: Image, x: int, y: int, size: nat) {
    0 <= x && 0 <= y && x + size <= m.width && y + size <= m.height
  }

  function RowCost(from: Image, fx: int, fy: int, to: Image, tx: int, ty: int, n: nat): nat {
    if n == 0 then 0
    else RowCost(from, fx, fy, to, tx, ty, n - 1)
         + ColorDistance(from.at(fx + (n - 1), fy), to.at(tx + (n - 1), ty))
  }

  /** The cost of the first `rows` rows of a block. */
  function RowsCost(from: Image, fx: int, fy: int, to: Image, tx: int, ty: int, size: nat, rows: nat): nat {
    if rows == 0 then 0
    else RowsCost(from, fx, fy, to, tx, ty, size, rows - 1)
         + RowCost(from, fx, fy + (rows - 1), to, tx, ty + (rows - 1), size)
  }

  function Cost(from: Image, fx: int, fy: int, to: Image, tx: int, ty: int, size: nat): nat {
    RowsCost(from, fx, fy, to, tx, ty, size, size)
  }

  method BlockCost(from: Image, fx: int, fy: int, to: Image, tx: int, ty: int, size: nat) returns (cost: nat)
    requires Fits(from, fx, fy, size) && Fits(to, tx, ty, size)
    ensures cost == Cost(from, fx, fy, to, tx, ty, size)
  {
    cost := 0;
    for y := 0 to size
      invariant cost == RowsCost(from, fx, fy, to, tx, ty, size, y)
    {
      for x := 0 to size
        invariant cost == RowsCost(from, fx, fy, to, tx, ty, size, y) + RowCost(from, fx, fy + y, to, tx, ty + y, x)
      {
        cost := cost + ColorDistance(from.at(fx + x, fy + y), to.at(tx + x, ty + y));
      }
    }
  }

  /** The cost of a row of pixels, and of a band of rows, is the sum of the costs of its parts. */
  lemma {:induction false} RowCostSplits(from: Image, fx: int, fy: int, to: Image, tx: int, ty: int, m: nat, n: nat)
    ensures RowCost(from, fx, fy, to, tx, ty, m + n)
         == RowCost(from, fx, fy, to, tx, ty, m) + RowCost(from, fx + m, fy, to, tx + m, ty, n)
    ensures RowCost(from, fx, fy, to, tx, ty, 1) == ColorDistance(from.at(fx, fy), to.at(tx, ty))
  {
    if n > 0 {
      RowCostSplits(from, fx, fy, to, tx, ty, m, n - 1);
      assert fx + m + (n - 1) == fx + (m + n - 1) && tx + m + (n - 1) == tx + (m + n - 1);
    }
  }

  lemma {:induction false} CostSplits(
      from: Image, fx: int, fy: int, to: Image, tx: int, ty: int, size: nat, m: nat, n: nat)
    ensures RowsCost(from, fx, fy, to, tx, ty, size, m + n)
         == RowsCost(from, fx, fy, to, tx, ty, size, m) + RowsCost(from, fx, fy + m, to, tx, ty + m, size, n)
    ensures RowsCost(from, fx, fy, to, tx, ty, size, 1) == RowCost(from, fx, fy, to, tx, ty, size)
  {
    if n > 0 {
      CostSplits(from, fx, fy, to, tx, ty, size, m, n - 1);
      assert fy + m + (n - 1) == fy + (m + n - 1) && ty + m + (n - 1) == ty + (m + n - 1);
    }
  }

  /** Two blocks agree pixel for pixel on their first `rows` rows. */
  ghost predicate SameBlock(from: Image, fx: int, fy: int, to: Image, tx: int, ty: int, size: nat, rows: nat) {
    forall x, y {:trigger from.at(x, y)} :: fx <= x < fx + size && fy <= y < fy + rows ==>
      from.at(x, y) == to.at(x - fx + tx, y - fy + ty)
  }

  ghost predicate SameRow(from: Image, fx: int, fy: int, to: Image, tx: int, ty: int, n: nat) {
    forall x {:trigger from.at(x, fy)} :: fx <= x < fx + n ==> from.at(x, fy) == to.at(x - fx + tx, ty)
  }

  lemma {:induction false} RowCostZero(from: Image, fx: int, fy: int, to: Image, tx: int, ty: int, n: nat)
    ensures RowCost(from, fx, fy, to, tx, ty, n) == 0 <==> SameRow(from, fx, fy, to, tx, ty, n)
  {
    if n > 0 {
      RowCostZero(from, fx, fy, to, tx, ty, n - 1);
      var x := fx + (n - 1);
      assert x - fx + tx == tx + (n - 1);
      assert SameRow(from, fx, fy, to, tx, ty, n) <==>
        SameRow(from, fx, fy, to, tx, ty, n - 1) && from.at(x, fy) == to.at(x - fx + tx, ty);
    }
  }

  lemma {:induction false} RowsCostZero(
      from: Image, fx: int, fy: int, to: Image, tx: int, ty: int, size: nat, rows: nat)
    ensures RowsCost(from, fx, fy, to, tx, ty, size, rows) == 0 <==> SameBlock(from, fx, fy, to, tx, ty, size, rows)
  {
    if rows > 0 {
      RowsCostZero(from, fx, fy, to, tx, ty, size, rows - 1);
      var y := fy + (rows - 1);
      RowCostZero(from, fx, y, to, tx, ty + (rows - 1), size);
      assert y - fy + ty == ty + (rows - 1);
    }
  }

  /** A block costs nothing exactly when the two blocks are pixel for pixel the same. */
  lemma CostZeroIffEqual(from: Image, fx: int, fy: int, to: Image, tx: int, ty: int, size: nat)
    ensures Cost(from, fx, fy, to, tx, ty, size) == 0 <==> SameBlock(from, fx, fy, to, tx, ty, size, size)
  {
    RowsCostZero(from, fx, fy, to, tx, ty, size, size);
  }

  lemma {:induction false} RowCostBound(from: Image, fx: int, fy: int, to: Image, tx: int, ty: int, n: nat)
    ensures RowCost(from, fx, fy, to, tx, ty, n) <= 187 * n
  {
    if n > 0 {
      RowCostBound(from, fx, fy, to, tx, ty, n - 1);
    }
  }

  lemma {:induction false} RowsCostBound(
      from: Image, fx: int, fy: int, to: Image, tx: int, ty: int, size: nat, rows: nat)
    ensures RowsCost(from, fx, fy, to, tx, ty, size, rows) <= 187 * Rows(rows, size)
  {
    if rows > 0 {
      RowsCostBound(from, fx, fy, to, tx, ty, size, rows - 1);
      RowCostBound(from, fx, fy + (rows - 1), to, tx, ty + (rows - 1), size);
    }
  }

  lemma {:induction false} RowsMono2(a: nat, b: nat, k: nat, l: nat)
    requires a <= b && k <= l
    ensures Rows(a, k) <= Rows(b, l)
  {
    if a > 0 {
      RowsMono2(a - 1, b - 1, k, l);
    }
  }

  /** Costs never reach the 64-bit sentinel that marks "no candidate". */
  lemma CostBelowSentinel(from: Image, fx: int, fy: int, to: Image, tx: int, ty: int, size: nat)
    requires Fits(from, fx, fy, size) && Rows(from.height, from.width) <= MAX_CELLS
    ensures Cost(from, fx, fy, to, tx, ty, size) <= 187 * MAX_CELLS
  {
    RowsCostBound(from, fx, fy, to, tx, ty, size, size);
    RowsMono2(size, from.height, size, from.width);
  }
}
