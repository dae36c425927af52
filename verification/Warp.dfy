/**
 The in-place forward warp: expose B under every moved block, let every moved source pixel
 claim its half-way target, and resolve each claimed target from A.
 */
module Warp {
  import opened Common
  import opened Frames

  datatype MotionBlock = MotionBlock(x: nat, y: nat, size: nat, dx: int, dy: int)

  // The 32-bit "no owner" value.
  const NO_OWNER: nat := 0xFFFF_FFFF

  /** Half a displacement, rounded away from zero as the source rounds it. */
  function Half(d: int): int {
    if d >= 0 then (d + 1) / 2 else -((1 - d) / 2)
  }

  /** Twice a half is the whole, or one more away from zero; so it lies between zero and the full vector. */
  lemma HalfIsBetween(d: int)
    ensures d >= 0 ==> 0 <= Half(d) <= d && d <= 2 * Half(d) <= d + 1
    ensures d < 0 ==> d <= Half(d) < 0 && d - 1 <= 2 * Half(d) <= d
    ensures Half(-d) == -Half(d)
  {
  }

  predicate InBlock(m: MotionBlock, x: int, y: int) {
    m.x <= x < m.x + m.size && m.y <= y < m.y + m.size
  }

  /** Source block and destination block both lie inside a `width` by `height` frame. */
  predicate StaysInside(m: MotionBlock, width: nat, height: nat) {
    && m.x + m.size <= width && m.y + m.size <= height
    && 0 <= m.x + m.dx && m.x + m.dx + m.size <= width
    && 0 <= m.y + m.dy && m.y + m.dy + m.size <= height
  }

  /** Both clamps of the warp are identities for every pixel of a moved block. */
  lemma ClampIsIdentity(m: MotionBlock, width: nat, height: nat, x: int, y: int)
    requires StaysInside(m, width, height) && InBlock(m, x, y)
    ensures Clamp(x + Half(m.dx), 0, width - 1) == x + Half(m.dx)
    ensures Clamp(y + Half(m.dy), 0, height - 1) == y + Half(m.dy)
    ensures 0 <= x + Half(m.dx) < width && 0 <= y + Half(m.dy) < height
  {
    HalfIsBetween(m.dx);
    HalfIsBetween(m.dy);
  }

  // ----- The pixel equation ------------------------------------------------------------

  /** Some moved block carries source pixel (`sx`, `sy`) to (`x`, `y`). */
  ghost predicate Lands(ms: seq<MotionBlock>, sx: int, sy: int, x: int, y: int) {
    exists m :: m in ms && Carries(m, sx, sy, x, y)
  }

  predicate Carries(m: MotionBlock, sx: int, sy: int, x: int, y: int) {
    InBlock(m, sx, sy) && sx + Half(m.dx) == x && sy + Half(m.dy) == y
  }

  ghost predicate Vacated(ms: seq<MotionBlock>, x: int, y: int) {
    exists m :: m in ms && InBlock(m, x, y)
  }

  /** (`sx`, `sy`) is the source of least index that lands on (`x`, `y`). */
  ghost predicate IsOwner(ms: seq<MotionBlock>, width: nat, sx: nat, sy: nat, x: int, y: int) {
    && Lands(ms, sx, sy, x, y)
    && forall tx: nat, ty: nat {:trigger Lands(ms, tx, ty, x, y)} ::
         Lands(ms, tx, ty, x, y) ==> Index(width, sx, sy) <= Index(width, tx, ty)
  }

  /** What the midpoint shows at (`x`, `y`). */
  ghost predicate IsMidpoint(a: Image, b: Image, ms: seq<MotionBlock>, x: int, y: int, p: Pixel) {
    if exists sx: nat, sy: nat :: Lands(ms, sx, sy, x, y) then
      exists sx: nat, sy: nat :: IsOwner(ms, a.width, sx, sy, x, y) && p == a.at(sx, sy)
    else if Vacated(ms, x, y) then p == b.at(x, y)
    else p == a.at(x, y)
  }

  // ----- Owners ------------------------------------------------------------------------

  function Min(a: nat, b: nat): nat {
    if a < b then a else b
  }

  /** The claim of a block shifted by (`hx`, `hy`) on target (`x`, `y`), given the owner so far. */
  function ClaimAt(m: MotionBlock, hx: int, hy: int, width: nat, x: int, y: int, owner: nat): nat {
    if InBlock(m, x - hx, y - hy) then Min(owner, Index(width, x - hx, y - hy)) else owner
  }

  function Claim(m: MotionBlock, width: nat, x: int, y: int, owner: nat): nat {
    ClaimAt(m, Half(m.dx), Half(m.dy), width, x, y, owner)
  }

  function OwnerOf(ms: seq<MotionBlock>, width: nat, x: int, y: int): nat {
    if ms == [] then NO_OWNER
    else Claim(ms[|ms| - 1], width, x, y, OwnerOf(ms[..|ms| - 1], width, x, y))
  }

  ghost predicate AllInside(ms: seq<MotionBlock>, width: nat, height: nat) {
    forall m :: m in ms ==> StaysInside(m, width, height)
  }

  lemma LandsSplit(ms: seq<MotionBlock>, sx: int, sy: int, x: int, y: int)
    requires ms != []
    ensures Lands(ms, sx, sy, x, y) <==>
              Lands(ms[..|ms| - 1], sx, sy, x, y) || Carries(ms[|ms| - 1], sx, sy, x, y)
  {
    var init, last := ms[..|ms| - 1], ms[|ms| - 1];
    assert ms == init + [last];
    assert last in ms;
  }

  /** `OwnerOf` is the least index of a source that lands, or the sentinel if none does. */
  lemma {:induction false} OwnerIsLeast(ms: seq<MotionBlock>, width: nat, x: int, y: int)
    ensures forall tx: nat, ty: nat {:trigger Lands(ms, tx, ty, x, y)} ::
              Lands(ms, tx, ty, x, y) ==> OwnerOf(ms, width, x, y) <= Index(width, tx, ty)
    ensures OwnerOf(ms, width, x, y) == NO_OWNER ||
              exists sx: nat, sy: nat :: Lands(ms, sx, sy, x, y) && OwnerOf(ms, width, x, y) == Index(width, sx, sy)
  {
    if ms != [] {
      var init, m := ms[..|ms| - 1], ms[|ms| - 1];
      OwnerIsLeast(init, width, x, y);
      var o, o' := OwnerOf(init, width, x, y), OwnerOf(ms, width, x, y);
      forall tx: nat, ty: nat | Lands(ms, tx, ty, x, y)
        ensures o' <= Index(width, tx, ty)
      {
        LandsSplit(ms, tx, ty, x, y);
      }
      if o' != NO_OWNER {
        if o' == o {
          var sx: nat, sy: nat :| Lands(init, sx, sy, x, y) && o == Index(width, sx, sy);
          LandsSplit(ms, sx, sy, x, y);
        } else {
          var sx, sy := x - Half(m.dx), y - Half(m.dy);
          assert Carries(m, sx, sy, x, y);
          LandsSplit(ms, sx, sy, x, y);
        }
      }
    }
  }

  lemma LandingIndexFits(ms: seq<MotionBlock>, width: nat, height: nat, sx: nat, sy: nat, x: int, y: int)
    requires AllInside(ms, width, height) && Rows(height, width) <= MAX_CELLS && Lands(ms, sx, sy, x, y)
    ensures sx < width && sy < height && Index(width, sx, sy) < MAX_CELLS
    ensures Col(width, Index(width, sx, sy)) == sx && Row(width, Index(width, sx, sy)) == sy
  {
    var m :| m in ms && Carries(m, sx, sy, x, y);
    IndexInRange(width, height, width, sx, sy);
    IndexRoundTrip(width, sx, sy);
  }

  /** Decoding the owner of a target gives the source the pixel equation asks for. */
  lemma OwnerDecodes(ms: seq<MotionBlock>, width: nat, height: nat, x: int, y: int)
    requires AllInside(ms, width, height) && Rows(height, width) <= MAX_CELLS && width > 0
    ensures var o := OwnerOf(ms, width, x, y);
      if o == NO_OWNER then forall sx: nat, sy: nat :: !Lands(ms, sx, sy, x, y)
      else IsOwner(ms, width, Col(width, o), Row(width, o), x, y)
  {
    OwnerIsLeast(ms, width, x, y);
    var o := OwnerOf(ms, width, x, y);
    if o == NO_OWNER {
      forall sx: nat, sy: nat
        ensures !Lands(ms, sx, sy, x, y)
      {
        if Lands(ms, sx, sy, x, y) {
          LandingIndexFits(ms, width, height, sx, sy, x, y);
        }
      }
    } else {
      var sx: nat, sy: nat :| Lands(ms, sx, sy, x, y) && o == Index(width, sx, sy);
      LandingIndexFits(ms, width, height, sx, sy, x, y);
    }
  }

  /** The pixel equation has one solution, and it does not depend on the order of the blocks. */
  lemma MidpointIsDetermined(
      a: Image, b: Image, ms: seq<MotionBlock>, ns: seq<MotionBlock>, x: int, y: int, p: Pixel, q: Pixel)
    requires AllInside(ms, a.width, a.height) && Rows(a.height, a.width) <= MAX_CELLS
    requires forall m :: m in ms <==> m in ns
    requires IsMidpoint(a, b, ms, x, y, p) && IsMidpoint(a, b, ns, x, y, q)
    ensures p == q
  {
    assert forall sx: nat, sy: nat :: Lands(ms, sx, sy, x, y) == Lands(ns, sx, sy, x, y);
    if exists sx: nat, sy: nat :: Lands(ms, sx, sy, x, y) {
      var sx: nat, sy: nat :| IsOwner(ms, a.width, sx, sy, x, y) && p == a.at(sx, sy);
      var tx: nat, ty: nat :| IsOwner(ns, a.width, tx, ty, x, y) && q == a.at(tx, ty);
      LandingIndexFits(ms, a.width, a.height, sx, sy, x, y);
      LandingIndexFits(ms, a.width, a.height, tx, ty, x, y);
    }
  }

  /** Every pixel of the midpoint is a sample of A or of B: nothing is blended. */
  lemma MidpointSamples(a: Image, b: Image, ms: seq<MotionBlock>, x: int, y: int, p: Pixel)
    requires AllInside(ms, a.width, a.height) && Rows(a.height, a.width) <= MAX_CELLS
    requires 0 <= x < a.width && 0 <= y < a.height
    requires IsMidpoint(a, b, ms, x, y, p)
    ensures p == b.at(x, y) || exists sx, sy :: 0 <= sx < a.width && 0 <= sy < a.height && p == a.at(sx, sy)
  {
    if exists sx: nat, sy: nat :: Lands(ms, sx, sy, x, y) {
      var sx: nat, sy: nat :| IsOwner(ms, a.width, sx, sy, x, y) && p == a.at(sx, sy);
      LandingIndexFits(ms, a.width, a.height, sx, sy, x, y);
    }
  }

  // ----- In-place loops ----------------------------------------------------------------

  /** Cells of a strided buffer before position (`x`, `y`) in scan order. */
  predicate Scanned(stride: nat, i: nat, x: int, y: int)
    requires stride > 0
  {
    Row(stride, i) < y || (Row(stride, i) == y && Col(stride, i) < x)
  }

  lemma ScanStep(stride: nat, x: nat, y: nat)
    requires x < stride
    ensures Col(stride, Index(stride, x, y)) == x && Row(stride, Index(stride, x, y)) == y
    ensures forall i: nat {:trigger Row(stride, i)} :: Row(stride, i) == y && Col(stride, i) == x ==>
          i == Index(stride, x, y)
  {
    IndexRoundTrip(stride, x, y);
    forall i: nat | Row(stride, i) == y && Col(stride, i) == x
      ensures i == Index(stride, x, y)
    {
      RowColRoundTrip(stride, i);
    }
  }

  /** A writable frame: `cells` holds `width` by `height` pixels, `stride` apart. */
  predicate Writable(cells: array<Pixel>, width: nat, height: nat, stride: nat) {
    0 < width <= stride && 0 < height && cells.Length >= Rows(height - 1, stride) + width
  }

  method CopyFrame(source: Image, output: array<Pixel>, stride: nat)
    requires Writable(output, source.width, source.height, stride)
    modifies output
    ensures forall i :: 0 <= i < output.Length ==>
              output[i] == if Col(stride, i) < source.width && Row(stride, i) < source.height
                           then source.at(Col(stride, i), Row(stride, i)) else old(output[i])
  {
    for y := 0 to source.height
      invariant forall i :: 0 <= i < output.Length ==>
                  output[i] == if Col(stride, i) < source.width && Row(stride, i) < y
                               then source.at(Col(stride, i), Row(stride, i)) else old(output[i])
    {
      for x := 0 to source.width
        invariant forall i :: 0 <= i < output.Length ==>
                    output[i] == if Col(stride, i) < source.width && Scanned(stride, i, x, y)
                                 then source.at(Col(stride, i), Row(stride, i)) else old(output[i])
      {
        IndexInRange(source.width, source.height, stride, x, y);
        ScanStep(stride, x, y);
        output[Index(stride, x, y)] := source.at(x, y);
      }
    }
  }

  method ExposeRow(b: Image, m: MotionBlock, y: nat, output: array<Pixel>, stride: nat)
    requires Writable(output, b.width, b.height, stride) && m.x + m.size <= b.width && y < b.height
    modifies output
    ensures forall i :: 0 <= i < output.Length ==>
              output[i] == if Row(stride, i) == y && m.x <= Col(stride, i) < m.x + m.size
                           then b.at(Col(stride, i), y) else old(output[i])
  {
    for x := m.x to m.x + m.size
      invariant forall i :: 0 <= i < output.Length ==>
                  output[i] == if Row(stride, i) == y && m.x <= Col(stride, i) < x
                               then b.at(Col(stride, i), y) else old(output[i])
    {
      IndexInRange(b.width, b.height, stride, x, y);
      ScanStep(stride, x, y);
      output[Index(stride, x, y)] := b.at(x, y);
    }
  }

  /** Expose B under the block that moves away. */
  method ExposeBlock(b: Image, m: MotionBlock, output: array<Pixel>, stride: nat)
    requires Writable(output, b.width, b.height, stride) && StaysInside(m, b.width, b.height)
    modifies output
    ensures forall i :: 0 <= i < output.Length ==>
              output[i] == if InBlock(m, Col(stride, i), Row(stride, i))
                           then b.at(Col(stride, i), Row(stride, i)) else old(output[i])
  {
    for y := m.y to m.y + m.size
      invariant forall i :: 0 <= i < output.Length ==>
                  output[i] == if InBlock(m, Col(stride, i), Row(stride, i)) && Row(stride, i) < y
                               then b.at(Col(stride, i), Row(stride, i)) else old(output[i])
    {
      ExposeRow(b, m, y, output, stride);
    }
  }

  /** Pixel (`x`, `y`) claims the target that it is shifted onto. */
  method ClaimPixel(x: nat, y: nat, hx: int, hy: int, owners: array<nat>, width: nat, height: nat)
    requires 0 <= x + hx < width && 0 <= y + hy < height && owners.Length == Rows(height, width)
    modifies owners
    ensures forall i :: 0 <= i < owners.Length ==>
              owners[i] == if Row(width, i) == y + hy && Col(width, i) == x + hx
                           then Min(old(owners[i]), Index(width, x, y)) else old(owners[i])
  {
    var tx := Clamp(x + hx, 0, width - 1);
    var ty := Clamp(y + hy, 0, height - 1);
    IndexInRange(width, height, width, tx, ty);
    ScanStep(width, tx, ty);
    var t := Index(width, tx, ty);
    owners[t] := Min(owners[t], Index(width, x, y));
  }

  method ClaimRow(m: MotionBlock, hx: int, hy: int, y: nat, owners: array<nat>, width: nat, height: nat)
    requires 0 <= m.x + hx && m.x + hx + m.size <= width && m.y <= y < m.y + m.size && 0 <= y + hy < height
    requires 0 < width && owners.Length == Rows(height, width)
    modifies owners
    ensures forall i :: 0 <= i < owners.Length ==>
              owners[i] == if Row(width, i) == y + hy
                           then ClaimAt(m, hx, hy, width, Col(width, i), y + hy, old(owners[i]))
                           else old(owners[i])
  {
    for x := m.x to m.x + m.size
      invariant forall i :: 0 <= i < owners.Length ==>
                  owners[i] == if Row(width, i) == y + hy && Col(width, i) < x + hx
                               then ClaimAt(m, hx, hy, width, Col(width, i), y + hy, old(owners[i]))
                               else old(owners[i])
    {
      ClaimPixel(x, y, hx, hy, owners, width, height);
    }
  }

  method ClaimShifted(m: MotionBlock, hx: int, hy: int, owners: array<nat>, width: nat, height: nat)
    requires 0 <= m.x + hx && m.x + hx + m.size <= width && 0 <= m.y + hy && m.y + hy + m.size <= height
    requires 0 < width && owners.Length == Rows(height, width)
    modifies owners
    ensures forall i :: 0 <= i < owners.Length ==>
              owners[i] == ClaimAt(m, hx, hy, width, Col(width, i), Row(width, i), old(owners[i]))
  {
    for y := m.y to m.y + m.size
      invariant forall i :: 0 <= i < owners.Length ==>
                  owners[i] == if Row(width, i) < y + hy
                               then ClaimAt(m, hx, hy, width, Col(width, i), Row(width, i), old(owners[i]))
                               else old(owners[i])
    {
      ClaimRow(m, hx, hy, y, owners, width, height);
    }
  }

  /** Let every pixel of a moved block claim the target half a vector away. */
  method ClaimBlock(m: MotionBlock, owners: array<nat>, width: nat, height: nat)
    requires StaysInside(m, width, height) && 0 < width && owners.Length == Rows(height, width)
    modifies owners
    ensures forall i :: 0 <= i < owners.Length ==>
              owners[i] == Claim(m, width, Col(width, i), Row(width, i), old(owners[i]))
  {
    HalfIsBetween(m.dx);
    HalfIsBetween(m.dy);
    ClaimShifted(m, Half(m.dx), Half(m.dy), owners, width, height);
  }

  /** Copy A's owning pixel onto target (`x`, `y`), if it is claimed. */
  method ResolvePixel(a: Image, x: nat, y: nat, owners: array<nat>, output: array<Pixel>, stride: nat)
    requires Writable(output, a.width, a.height, stride) && x < a.width && y < a.height
    requires owners.Length == Rows(a.height, a.width) && Index(a.width, x, y) < owners.Length
    modifies output
    ensures forall i :: 0 <= i < output.Length ==>
              output[i] == if Col(stride, i) == x && Row(stride, i) == y
                           then Resolved(a, owners[Index(a.width, x, y)], old(output[i])) else old(output[i])
  {
    IndexInRange(a.width, a.height, stride, x, y);
    ScanStep(stride, x, y);
    var owner := owners[Index(a.width, x, y)];
    if owner != NO_OWNER {
      output[Index(stride, x, y)] := a.at(Col(a.width, owner), Row(a.width, owner));
    }
  }

  method ResolveRow(a: Image, y: nat, owners: array<nat>, output: array<Pixel>, stride: nat)
    requires Writable(output, a.width, a.height, stride) && y < a.height
    requires owners.Length == Rows(a.height, a.width)
    requires forall x: nat {:trigger Index(a.width, x, y)} :: x < a.width ==> Index(a.width, x, y) < owners.Length
    modifies output
    ensures forall i :: 0 <= i < output.Length ==>
              output[i] == if Col(stride, i) < a.width && Row(stride, i) == y
                           then Resolved(a, owners[Index(a.width, Col(stride, i), y)], old(output[i]))
                           else old(output[i])
  {
    for x := 0 to a.width
      invariant forall i :: 0 <= i < output.Length ==>
                  output[i] == if Col(stride, i) < x && Row(stride, i) == y
                               then Resolved(a, owners[Index(a.width, Col(stride, i), y)], old(output[i]))
                               else old(output[i])
    {
      ResolvePixel(a, x, y, owners, output, stride);
    }
  }

  /** Copy A's owning pixel onto every claimed target. */
  method ResolveOwners(a: Image, owners: array<nat>, output: array<Pixel>, stride: nat)
    requires Writable(output, a.width, a.height, stride)
    requires owners.Length == Rows(a.height, a.width)
    modifies output
    ensures forall i :: 0 <= i < output.Length && Col(stride, i) < a.width && Row(stride, i) < a.height ==>
              Index(a.width, Col(stride, i), Row(stride, i)) < owners.Length
    ensures forall i :: 0 <= i < output.Length ==>
              output[i] == if Col(stride, i) < a.width && Row(stride, i) < a.height
                           then Resolved(a, owners[Index(a.width, Col(stride, i), Row(stride, i))], old(output[i]))
                           else old(output[i])
  {
    OwnerCells(a.width, a.height);
    for y := 0 to a.height
      invariant forall i :: 0 <= i < output.Length ==>
                  output[i] == if Col(stride, i) < a.width && Row(stride, i) < y
                               then Resolved(a, owners[Index(a.width, Col(stride, i), Row(stride, i))], old(output[i]))
                               else old(output[i])
    {
      ResolveRow(a, y, owners, output, stride);
    }
  }

  function Resolved(a: Image, owner: nat, p: Pixel): Pixel
    requires a.width > 0
  {
    if owner != NO_OWNER then a.at(Col(a.width, owner), Row(a.width, owner)) else p
  }

  lemma OwnerCells(width: nat, height: nat)
    requires width > 0
    ensures forall x: nat, y: nat {:trigger Index(width, x, y)} :: x < width && y < height ==>
              Index(width, x, y) < Rows(height, width)
  {
    forall x: nat, y: nat | x < width && y < height
      ensures Index(width, x, y) < Rows(height, width)
    {
      IndexInRange(width, height, width, x, y);
    }
  }

  lemma VacatedSplit(ms: seq<MotionBlock>, k: nat)
    requires k < |ms|
    ensures ms[..k + 1][..k] == ms[..k] && ms[..k + 1][k] == ms[k]
    ensures forall x, y :: Vacated(ms[..k + 1], x, y) <==> Vacated(ms[..k], x, y) || InBlock(ms[k], x, y)
  {
    assert ms[..k + 1] == ms[..k] + [ms[k]];
    assert ms[k] in ms[..k + 1];
    forall x, y
      ensures Vacated(ms[..k + 1], x, y) <==> Vacated(ms[..k], x, y) || InBlock(ms[k], x, y)
    {
      if Vacated(ms[..k], x, y) {
        var m :| m in ms[..k] && InBlock(m, x, y);
        assert m in ms[..k + 1];
      }
    }
  }

  /** Phase one of the warp: every block exposes B and claims its targets. */
  method ExposeAndClaim(a: Image, b: Image, ms: seq<MotionBlock>, owners: array<nat>, output: array<Pixel>, stride: nat)
    requires a.width == b.width && a.height == b.height && AllInside(ms, a.width, a.height)
    requires Writable(output, a.width, a.height, stride) && owners.Length == Rows(a.height, a.width)
    requires forall i :: 0 <= i < owners.Length ==> owners[i] == NO_OWNER
    modifies owners, output
    ensures forall i :: 0 <= i < output.Length ==>
              output[i] == if Vacated(ms, Col(stride, i), Row(stride, i))
                           then b.at(Col(stride, i), Row(stride, i)) else old(output[i])
    ensures forall i :: 0 <= i < owners.Length ==>
              owners[i] == OwnerOf(ms, a.width, Col(a.width, i), Row(a.width, i))
  {
    for k := 0 to |ms|
      invariant forall i :: 0 <= i < output.Length ==>
                  output[i] == if Vacated(ms[..k], Col(stride, i), Row(stride, i))
                               then b.at(Col(stride, i), Row(stride, i)) else old(output[i])
      invariant forall i :: 0 <= i < owners.Length ==>
                  owners[i] == OwnerOf(ms[..k], a.width, Col(a.width, i), Row(a.width, i))
    {
      assert ms[k] in ms;
      VacatedSplit(ms, k);
      ExposeBlock(b, ms[k], output, stride);
      ClaimBlock(ms[k], owners, a.width, a.height);
    }
    assert ms[..|ms|] == ms;
  }

  lemma MidpointFromOwner(a: Image, b: Image, ms: seq<MotionBlock>, x: nat, y: nat, under: Pixel)
    requires AllInside(ms, a.width, a.height) && Rows(a.height, a.width) <= MAX_CELLS && a.width > 0
    requires under == if Vacated(ms, x, y) then b.at(x, y) else a.at(x, y)
    ensures IsMidpoint(a, b, ms, x, y, Resolved(a, OwnerOf(ms, a.width, x, y), under))
  {
    OwnerDecodes(ms, a.width, a.height, x, y);
  }

  lemma OwnerAt(a: Image, stride: nat, i: nat)
    requires 0 < a.width <= stride && Col(stride, i) < a.width && Row(stride, i) < a.height
    ensures var j := Index(a.width, Col(stride, i), Row(stride, i));
      && j < Rows(a.height, a.width)
      && Col(a.width, j) == Col(stride, i) && Row(a.width, j) == Row(stride, i)
  {
    IndexInRange(a.width, a.height, a.width, Col(stride, i), Row(stride, i));
    IndexRoundTrip(a.width, Col(stride, i), Row(stride, i));
  }

  /**
   The whole warp, on an output that holds A: every pixel of the frame obeys the pixel
   equation and nothing outside the frame is written.
   */
  method WarpFrame(a: Image, b: Image, ms: seq<MotionBlock>, output: array<Pixel>, stride: nat)
    requires a.width == b.width && a.height == b.height && AllInside(ms, a.width, a.height)
    requires Writable(output, a.width, a.height, stride) && Rows(a.height, a.width) <= MAX_CELLS
    requires forall i :: 0 <= i < output.Length && Col(stride, i) < a.width && Row(stride, i) < a.height ==>
               output[i] == a.at(Col(stride, i), Row(stride, i))
    modifies output
    ensures forall i :: 0 <= i < output.Length ==>
              if Col(stride, i) < a.width && Row(stride, i) < a.height
              then IsMidpoint(a, b, ms, Col(stride, i), Row(stride, i), output[i])
              else output[i] == old(output[i])
  {
    var owners := new nat[Rows(a.height, a.width)](_ => NO_OWNER);
    ExposeAndClaim(a, b, ms, owners, output, stride);
    ghost var under := output[..];
    ResolveOwners(a, owners, output, stride);
    forall i | 0 <= i < output.Length
      ensures if Col(stride, i) < a.width && Row(stride, i) < a.height
              then IsMidpoint(a, b, ms, Col(stride, i), Row(stride, i), output[i])
              else output[i] == old(output[i])
    {
      if Col(stride, i) < a.width && Row(stride, i) < a.height {
        OwnerAt(a, stride, i);
        MidpointFromOwner(a, b, ms, Col(stride, i), Row(stride, i), under[i]);
      }
    }
  }
}
