/**
 When the interpolator trusts a motion, stated on the frames: which displacement is the only
 best one of its window, forward and backward, and by how much it wins.
 */
module MotionLaws {
  import opened Frames
  import opened MotionSearch
  import opened Warp
  import opened Interpolator

  // ----- One best candidate ------------------------------------------------------------

  /** (`u`, `v`) is a displacement of the window of `radius` around (`cx`, `cy`) that stays inside `to`. */
  predicate IsCandidate(b: Block, to: Image, cx: int, cy: int, radius: nat, u: int, v: int) {
    cx - radius <= u <= cx + radius && cy - radius <= v <= cy + radius && Fits(to, b.x + u, b.y + v, b.size)
  }

  function CostAt(b: Block, to: Image, u: int, v: int): nat {
    Cost(b.from, b.x, b.y, to, b.x + u, b.y + v, b.size)
  }

  /** (`dx`, `dy`) is the only candidate of least cost, and every other costs more than `margin` above it. */
  ghost predicate WinsBy(b: Block, to: Image, cx: int, cy: int, radius: nat, dx: int, dy: int, margin: nat) {
    && IsCandidate(b, to, cx, cy, radius, dx, dy)
    && forall u, v {:trigger CostAt(b, to, u, v)} :: IsCandidate(b, to, cx, cy, radius, u, v) && (u, v) != (dx, dy) ==>
         CostAt(b, to, u, v) > CostAt(b, to, dx, dy) + margin
  }

  /** The window of a search, with its match. */
  ghost predicate Searched(b: Block, to: Image, cx: int, cy: int, radius: nat, cs: seq<Candidate>, m: Match) {
    && (forall c {:trigger c in cs} :: c in cs <==>
          IsCandidate(b, to, cx, cy, radius, c.dx, c.dy) && c.cost == CostAt(b, to, c.dx, c.dy))
    && (forall i, j :: 0 <= i < j < |cs| ==> Before(cs[i], cs[j]))
    && IsExact(cs, m) && BelowSentinel(cs)
  }

  lemma WindowSearched(b: Block, to: Image, cx: int, cy: int, radius: nat, cs: seq<Candidate>)
    requires cs == Window(b, to, cx - radius, cy - radius, 2 * radius + 1, 2 * radius + 1)
    ensures forall c {:trigger c in cs} :: c in cs <==>
              IsCandidate(b, to, cx, cy, radius, c.dx, c.dy) && c.cost == CostAt(b, to, c.dx, c.dy)
    ensures forall i, j :: 0 <= i < j < |cs| ==> Before(cs[i], cs[j])
  {
    WindowIs(b, to, cx - radius, cy - radius, 2 * radius + 1, 2 * radius + 1);
  }

  lemma RefinedIsSearched(b: Block, to: Image, cx: int, cy: int, radius: nat) returns (cs: seq<Candidate>)
    requires Fits(b.from, b.x, b.y, b.size) && Rows(b.from.height, b.from.width) <= MAX_CELLS
    ensures Searched(b, to, cx, cy, radius, cs, Refined(b, to, cx, cy, radius))
  {
    var left, top, width := cx - radius, cy - radius, 2 * radius + 1;
    cs := Window(b, to, left, top, width, width);
    WindowSearched(b, to, cx, cy, radius, cs);
    WindowBelowSentinel(b, to, left, top, width, width);
    RefinementIsExact(b, to, cx, cy, radius);
  }

  /** No candidate but `k` costs `cost`. */
  ghost predicate OnlyAt(cs: seq<Candidate>, cost: nat, k: nat) {
    forall j :: 0 <= j < |cs| && j != k ==> cs[j].cost != cost
  }

  lemma {:induction false} OneTie(cs: seq<Candidate>, cost: nat, k: nat)
    requires k < |cs| && cs[k].cost == cost
    ensures TieCount(cs, cost) == 1 <==> OnlyAt(cs, cost, k)
  {
    var n := |cs| - 1;
    var init := cs[..n];
    if k < n {
      OneTie(init, cost, k);
      SomeTie(init, k);
      assert OnlyAt(cs, cost, k) <==> OnlyAt(init, cost, k) && cs[n].cost != cost;
    } else if OnlyAt(cs, cost, k) {
      NoneTie(init, cost);
    } else {
      var j: nat :| j < n && cs[j].cost == cost;
      SomeTie(init, j);
    }
  }

  lemma {:induction false} NoneTie(cs: seq<Candidate>, cost: nat)
    requires forall k :: 0 <= k < |cs| ==> cs[k].cost != cost
    ensures TieCount(cs, cost) == 0
  {
    if cs != [] {
      NoneTie(cs[..|cs| - 1], cost);
    }
  }

  /** A search without ties names the only best candidate. */
  lemma TiesAreOneIff(
      b: Block, to: Image, cx: int, cy: int, radius: nat, cs: seq<Candidate>, m: Match, dx: int, dy: int)
    requires Searched(b, to, cx, cy, radius, cs, m)
    ensures m.ties == 1 && (m.dx, m.dy) == (dx, dy) <==> WinsBy(b, to, cx, cy, radius, dx, dy, 0)
  {
    if cs == [] {
      assert !IsCandidate(b, to, cx, cy, radius, dx, dy) by {
        assert Candidate(dx, dy, CostAt(b, to, dx, dy)) !in cs;
      }
    } else {
      var k: nat :| k < |cs| && IsFirst(cs, k, m);
      assert cs[k] in cs;
      OneTie(cs, m.best, k);
      if m.ties == 1 && (m.dx, m.dy) == (dx, dy) {
        OnlyOneWins(b, to, cx, cy, radius, cs, m, k);
      }
      if WinsBy(b, to, cx, cy, radius, dx, dy, 0) {
        WinnerIsFound(b, to, cx, cy, radius, cs, m, k, dx, dy);
      }
    }
  }

  lemma OnlyOneWins(b: Block, to: Image, cx: int, cy: int, radius: nat, cs: seq<Candidate>, m: Match, k: nat)
    requires Searched(b, to, cx, cy, radius, cs, m) && k < |cs| && IsFirst(cs, k, m) && m.ties == 1
    ensures WinsBy(b, to, cx, cy, radius, m.dx, m.dy, 0)
  {
    assert cs[k] in cs;
    OneTie(cs, m.best, k);
    forall u, v | IsCandidate(b, to, cx, cy, radius, u, v) && (u, v) != (m.dx, m.dy)
      ensures CostAt(b, to, u, v) > CostAt(b, to, m.dx, m.dy)
    {
      var c := Candidate(u, v, CostAt(b, to, u, v));
      assert c in cs;
      var j :| 0 <= j < |cs| && cs[j] == c;
      assert j != k && cs[j].cost != m.best;
    }
  }

  lemma WinnerIsFound(
      b: Block, to: Image, cx: int, cy: int, radius: nat, cs: seq<Candidate>, m: Match, k: nat, dx: int, dy: int)
    requires Searched(b, to, cx, cy, radius, cs, m) && k < |cs| && IsFirst(cs, k, m)
    requires WinsBy(b, to, cx, cy, radius, dx, dy, 0)
    ensures m.ties == 1 && (m.dx, m.dy) == (dx, dy)
  {
    assert cs[k] in cs;
    var c := Candidate(dx, dy, CostAt(b, to, dx, dy));
    assert c in cs;
    var i :| 0 <= i < |cs| && cs[i] == c;
    assert m.best <= cs[i].cost;
    assert CostAt(b, to, m.dx, m.dy) == m.best;
    assert (m.dx, m.dy) == (dx, dy);
    OneTie(cs, m.best, k);
    forall j | 0 <= j < |cs| && j != k
      ensures cs[j].cost != m.best
    {
      assert cs[j] in cs;
      assert (cs[j].dx, cs[j].dy) != (dx, dy) by {
        assert j < k ==> Before(cs[j], cs[k]);
        assert k < j ==> Before(cs[k], cs[j]);
      }
      assert CostAt(b, to, cs[j].dx, cs[j].dy) > CostAt(b, to, dx, dy);
    }
  }

  /** With one best candidate, the runner-up test is the margin over all the others. */
  lemma MarginIff(
      b: Block, to: Image, cx: int, cy: int, radius: nat, cs: seq<Candidate>, m: Match, margin: nat)
    requires Searched(b, to, cx, cy, radius, cs, m) && m.ties == 1 && WinsBy(b, to, cx, cy, radius, m.dx, m.dy, 0)
    ensures m.second == NONE_COST || m.best + margin < m.second <==> WinsBy(b, to, cx, cy, radius, m.dx, m.dy, margin)
  {
    var k: nat :| k < |cs| && IsFirst(cs, k, m);
    assert cs[k] in cs;
    assert CostAt(b, to, m.dx, m.dy) == m.best;
    forall u, v | IsCandidate(b, to, cx, cy, radius, u, v) && (u, v) != (m.dx, m.dy)
      ensures m.second <= CostAt(b, to, u, v) < NONE_COST
    {
      var c := Candidate(u, v, CostAt(b, to, u, v));
      assert c in cs;
      var j :| 0 <= j < |cs| && cs[j] == c;
      assert m.best < cs[j].cost;
    }
    if m.second != NONE_COST {
      var j :| 0 <= j < |cs| && cs[j].cost == m.second && m.best < m.second;
      assert cs[j] in cs;
      assert CostAt(b, to, cs[j].dx, cs[j].dy) == m.second;
      assert (cs[j].dx, cs[j].dy) != (m.dx, m.dy);
    }
  }

  // ----- The coarse pass ---------------------------------------------------------------

  /** `f` shows every fourth pixel of `m`, from (`x`, `y`) on. */
  ghost predicate Thins(f: Image, m: Image, x: int, y: int) {
    forall i: nat, j: nat {:trigger f.at(i, j)} :: f.at(i, j) == m.at(x + i * 4, y + j * 4)
  }

  function Thin(m: Image, x: int, y: int, n: nat): (f: Image)
    ensures Thins(f, m, x, y)
  {
    Image(n, n, (i: int, j: int) => m.at(x + i * 4, y + j * 4))
  }

  lemma ThinPixel(c: Coarse, to: Image, dx: int, dy: int, qy: nat, i: nat, f: Image, t: Image)
    requires Thins(f, c.from, c.x, c.y) && Thins(t, to, c.x + dx, c.y + dy)
    ensures f.at(i, qy) == c.from.at(c.x + i * 4, c.y + qy * 4)
    ensures t.at(i, qy) == to.at(c.x + i * 4 + dx, c.y + qy * 4 + dy)
    ensures var d := ColorDistance(f.at(i, qy), t.at(i, qy));
      && QuarterRow(c, to, dx, dy, qy, i + 1) == QuarterRow(c, to, dx, dy, qy, i) + d
      && RowCost(f, 0, qy, t, 0, qy, i + 1) == RowCost(f, 0, qy, t, 0, qy, i) + d
  {
    assert t.at(i, qy) == to.at(c.x + dx + i * 4, c.y + dy + qy * 4);
    assert c.x + dx + i * 4 == c.x + i * 4 + dx && c.y + dy + qy * 4 == c.y + qy * 4 + dy;
  }

  lemma {:induction false} QuarterRowIsThin(
      c: Coarse, to: Image, dx: int, dy: int, qy: nat, n: nat, f: Image, t: Image)
    requires Thins(f, c.from, c.x, c.y) && Thins(t, to, c.x + dx, c.y + dy)
    ensures QuarterRow(c, to, dx, dy, qy, n) == RowCost(f, 0, qy, t, 0, qy, n)
  {
    if n > 0 {
      QuarterRowIsThin(c, to, dx, dy, qy, n - 1, f, t);
      ThinPixel(c, to, dx, dy, qy, n - 1, f, t);
    }
  }

  lemma {:induction false} QuarterRowsAreThin(c: Coarse, to: Image, dx: int, dy: int, rows: nat, f: Image, t: Image)
    requires Thins(f, c.from, c.x, c.y) && Thins(t, to, c.x + dx, c.y + dy)
    ensures QuarterCost(c, to, dx, dy, rows) == RowsCost(f, 0, 0, t, 0, 0, c.quarter, rows)
  {
    if rows > 0 {
      QuarterRowsAreThin(c, to, dx, dy, rows - 1, f, t);
      QuarterRowIsThin(c, to, dx, dy, rows - 1, c.quarter, f, t);
    }
  }

  /** The block cost of the frames thinned to every fourth pixel. */
  function ThinCost(c: Coarse, to: Image, dx: int, dy: int): nat {
    Cost(Thin(c.from, c.x, c.y, c.quarter), 0, 0, Thin(to, c.x + dx, c.y + dy, c.quarter), 0, 0, c.quarter)
  }

  /** The coarse cost is the block cost of the thinned frames, and below the value for "none". */
  lemma QuarterCostIsThinCost(c: Coarse, to: Image, dx: int, dy: int)
    ensures QuarterCost(c, to, dx, dy, c.quarter) == ThinCost(c, to, dx, dy)
    ensures Rows(c.quarter, c.quarter) <= MAX_CELLS ==> ThinCost(c, to, dx, dy) < NONE_COST
  {
    var f, t := Thin(c.from, c.x, c.y, c.quarter), Thin(to, c.x + dx, c.y + dy, c.quarter);
    QuarterRowsAreThin(c, to, dx, dy, c.quarter, f, t);
    if Rows(c.quarter, c.quarter) <= MAX_CELLS {
      CostBelowSentinel(f, 0, 0, t, 0, 0, c.quarter);
    }
  }

  /** The coarse cell can be shifted by (`i`, `j`) quarters. */
  predicate CanShift(c: Coarse, to: Image, r: int, i: int, j: int) {
    -r <= i <= r && -r <= j <= r && Fits(to, c.x + i * 4, c.y + j * 4, c.quarter * 4)
  }

  function ShiftCost(c: Coarse, to: Image, i: int, j: int): nat {
    ThinCost(c, to, i * 4, j * 4)
  }

  /** Of all shifts of the coarse cell, (`i`, `j`) is the first of least cost in scan order. */
  ghost predicate Settles(c: Coarse, to: Image, r: int, i: int, j: int) {
    && CanShift(c, to, r, i, j)
    && forall u, v {:trigger ShiftCost(c, to, u, v)} :: CanShift(c, to, r, u, v) ==>
         var before := v < j || (v == j && u < i);
         if before then ShiftCost(c, to, i, j) < ShiftCost(c, to, u, v)
         else ShiftCost(c, to, i, j) <= ShiftCost(c, to, u, v)
  }

  lemma CoarseSettles(c: Coarse, to: Image, r: int)
    requires r >= 0 && Fits(to, c.x, c.y, c.quarter * 4) && Rows(c.quarter, c.quarter) <= MAX_CELLS
    ensures var m := CoarseRows(c, to, -r, -r, 2 * r + 1, 2 * r + 1);
      exists i, j :: Settles(c, to, r, i, j) && (m.dx, m.dy) == (i * 4, j * 4)
  {
    var m := CoarseRows(c, to, -r, -r, 2 * r + 1, 2 * r + 1);
    CoarseIsFirstMinimum(c, to, -r, -r, 2 * r + 1, 2 * r + 1);
    forall u, v
      ensures CoarseCandidate(c, to, u, v).cost == ShiftCost(c, to, u, v) < NONE_COST
    {
      QuarterCostIsThinCost(c, to, u * 4, v * 4);
    }
    assert CoarseInBounds(c, to, 0, 0);
    assert m.best < NONE_COST;
    var i, j :| j < -r + (2 * r + 1) && IsCentre(c, to, -r, -r, 2 * r + 1, i, j, m);
    assert ShiftCost(c, to, i, j) == m.best;
    forall u, v | CanShift(c, to, r, u, v)
      ensures var before := v < j || (v == j && u < i);
        if before then m.best < ShiftCost(c, to, u, v) else m.best <= ShiftCost(c, to, u, v)
    {
      assert CoarseInBounds(c, to, u, v);
    }
    assert Settles(c, to, r, i, j);
  }

  /**
   The search is centred on the first shift of least cost of the coarse cell that holds the
   block, compared on every fourth pixel; on zero if that cell sticks out of the frame.
   */
  lemma CentreIs(b: Block, to: Image, cfg: Config)
    requires Normalized(cfg) && b.x >= 0 && b.y >= 0 && Rows(b.from.height, b.from.width) <= MAX_CELLS
    requires to.width == b.from.width && to.height == b.from.height
    ensures var full, (cx, cy) := cfg.coarseBlockQuarter * 4, CoarseCentre(b, to, cfg);
      var c := Coarse(b.from, Anchor(full, b.x), Anchor(full, b.y), cfg.coarseBlockQuarter);
      if Fits(b.from, c.x, c.y, full)
      then exists i, j ::
             Settles(c, to, cfg.coarseRadiusQuarter, i, j) && (cx, cy) == (i * 4, j * 4)
      else (cx, cy) == (0, 0)
  {
    var full := cfg.coarseBlockQuarter * 4;
    var c := Coarse(b.from, Anchor(full, b.x), Anchor(full, b.y), cfg.coarseBlockQuarter);
    if Fits(b.from, c.x, c.y, full) {
      RowsMono2(c.quarter, b.from.height, c.quarter, b.from.width);
      CoarseSettles(c, to, cfg.coarseRadiusQuarter);
    }
  }

  /** A coarse cell starts at the last multiple of its size that is not beyond the block. */
  lemma AnchorIs(full: nat, x: nat)
    requires full > 0
    ensures Anchor(full, x) <= x < Anchor(full, x) + full && Col(full, Anchor(full, x)) == 0
  {
    RowColRoundTrip(full, x);
    IndexRoundTrip(full, 0, Row(full, x));
  }

  // ----- Trusted motions ---------------------------------------------------------------

  /** The window that the search for a block looks through. */
  ghost predicate Wins(b: Block, to: Image, cfg: Config, dx: int, dy: int, margin: nat)
    requires Normalized(cfg) && b.x >= 0 && b.y >= 0
  {
    var (cx, cy) := CoarseCentre(b, to, cfg);
    WinsBy(b, to, cx, cy, cfg.refinementRadius, dx, dy, margin)
  }

  /** Searching back from where (`dx`, `dy`) leads, the only best displacement returns to within a pixel. */
  ghost predicate LeadsBack(a: Image, b: Image, cfg: Config, x: nat, y: nat, dx: int, dy: int)
    requires Normalized(cfg)
  {
    && Fits(b, x + dx, y + dy, cfg.blockSize)
    && exists u, v {:trigger ReturnsBy(dx, dy, u, v)} ::
         ReturnsBy(dx, dy, u, v) && Wins(Block(b, x + dx, y + dy, cfg.blockSize), a, cfg, u, v, 0)
  }

  predicate ReturnsBy(dx: int, dy: int, u: int, v: int) {
    -1 <= dx + u <= 1 && -1 <= dy + v <= 1
  }

  /**
   The block at (`x`, `y`) visibly moves by (`dx`, `dy`): it is the only best candidate forward,
   by more than twice the block's pixels, it leads back, and it saves more than a quarter of the
   cost of standing still.
   */
  ghost predicate IsTrusted(a: Image, b: Image, cfg: Config, x: nat, y: nat, dx: int, dy: int)
    requires Normalized(cfg)
  {
    && Wins(Block(a, x, y, cfg.blockSize), b, cfg, dx, dy, 2 * Rows(cfg.blockSize, cfg.blockSize))
    && LeadsBack(a, b, cfg, x, y, dx, dy)
    && 4 * Cost(a, x, y, b, x + dx, y + dy, cfg.blockSize) < 3 * Cost(a, x, y, b, x, y, cfg.blockSize)
  }

  /** What a search of a block comes to. */
  lemma FoundWinsIff(b: Block, to: Image, cfg: Config, dx: int, dy: int)
    requires Normalized(cfg) && Fits(b.from, b.x, b.y, b.size) && Rows(b.from.height, b.from.width) <= MAX_CELLS
    ensures var m := Found(b, to, cfg); m.ties == 1 && (m.dx, m.dy) == (dx, dy) <==> Wins(b, to, cfg, dx, dy, 0)
  {
    var (cx, cy) := CoarseCentre(b, to, cfg);
    var cs := RefinedIsSearched(b, to, cx, cy, cfg.refinementRadius);
    TiesAreOneIff(b, to, cx, cy, cfg.refinementRadius, cs, Found(b, to, cfg), dx, dy);
  }

  lemma FoundMarginIff(b: Block, to: Image, cfg: Config, margin: nat)
    requires Normalized(cfg) && Fits(b.from, b.x, b.y, b.size) && Rows(b.from.height, b.from.width) <= MAX_CELLS
    requires Found(b, to, cfg).ties == 1
    ensures var m := Found(b, to, cfg);
      && m.best == CostAt(b, to, m.dx, m.dy)
      && (m.second == NONE_COST || m.best + margin < m.second <==> Wins(b, to, cfg, m.dx, m.dy, margin))
  {
    var (cx, cy) := CoarseCentre(b, to, cfg);
    var m := Found(b, to, cfg);
    var cs := RefinedIsSearched(b, to, cx, cy, cfg.refinementRadius);
    TiesAreOneIff(b, to, cx, cy, cfg.refinementRadius, cs, m, m.dx, m.dy);
    MarginIff(b, to, cx, cy, cfg.refinementRadius, cs, m, margin);
    var k: nat :| k < |cs| && IsFirst(cs, k, m);
    assert cs[k] in cs;
  }

  lemma MarginWeakens(b: Block, to: Image, cfg: Config, dx: int, dy: int, margin: nat)
    requires Normalized(cfg) && b.x >= 0 && b.y >= 0 && Wins(b, to, cfg, dx, dy, margin)
    ensures Wins(b, to, cfg, dx, dy, 0)
  {
  }

  /** The gates on a forward and a backward match, as what they say of the frames. */
  lemma GatesAre(a: Image, b: Image, cfg: Config, x: nat, y: nat)
    requires Paired(a, b) && Normalized(cfg) && Fits(a, x, y, cfg.blockSize)
    ensures var forward := Forward(a, b, cfg, x, y); var backward := Backward(a, b, cfg, x, y, forward);
      var trusted := forward.ties == 1 && IsTrusted(a, b, cfg, x, y, forward.dx, forward.dy);
      Confident(cfg.blockSize, Cost(a, x, y, b, x, y, cfg.blockSize), forward, backward) <==> trusted
  {
    var size := cfg.blockSize;
    var block := Block(a, x, y, size);
    var forward := Forward(a, b, cfg, x, y);
    var backward := Backward(a, b, cfg, x, y, forward);
    ForwardStaysInside(a, b, cfg, x, y);
    var back := Block(b, x + forward.dx, y + forward.dy, size);
    BackwardIs(a, b, cfg, x, y, forward, backward);
    if forward.ties == 1 {
      FoundMarginIff(block, b, cfg, 2 * Rows(size, size));
    }
  }

  lemma BackwardIs(a: Image, b: Image, cfg: Config, x: nat, y: nat, forward: Match, backward: Match)
    requires Paired(a, b) && Normalized(cfg) && Fits(b, x + forward.dx, y + forward.dy, cfg.blockSize)
    requires backward == Backward(a, b, cfg, x, y, forward)
    ensures var leads := backward.ties == 1 && ReturnsBy(forward.dx, forward.dy, backward.dx, backward.dy);
      LeadsBack(a, b, cfg, x, y, forward.dx, forward.dy) <==> leads
  {
    var back := Block(b, x + forward.dx, y + forward.dy, cfg.blockSize);
    FoundWinsIff(back, a, cfg, backward.dx, backward.dy);
    if LeadsBack(a, b, cfg, x, y, forward.dx, forward.dy) {
      OnlyReturn(a, b, cfg, x, y, forward, backward);
    }
  }

  lemma OnlyReturn(a: Image, b: Image, cfg: Config, x: nat, y: nat, forward: Match, backward: Match)
    requires Paired(a, b) && Normalized(cfg) && LeadsBack(a, b, cfg, x, y, forward.dx, forward.dy)
    requires backward == Backward(a, b, cfg, x, y, forward)
    ensures backward.ties == 1 && ReturnsBy(forward.dx, forward.dy, backward.dx, backward.dy)
  {
    var back := Block(b, x + forward.dx, y + forward.dy, cfg.blockSize);
    var u, v :| ReturnsBy(forward.dx, forward.dy, u, v) && Wins(back, a, cfg, u, v, 0);
    FoundWinsIff(back, a, cfg, u, v);
  }

  /** A changed cell moves by (`dx`, `dy`) if and only if that motion is trusted, and is held otherwise. */
  lemma CellMovesIff(a: Image, b: Image, cfg: Config, x: nat, y: nat, dx: int, dy: int)
    requires Paired(a, b) && Normalized(cfg) && Fits(a, x, y, cfg.blockSize)
    requires Cost(a, x, y, b, x, y, cfg.blockSize) != 0
    ensures var moved := Moved(MotionBlock(x, y, cfg.blockSize, dx, dy));
      Judge(a, b, cfg, x, y) == moved <==> IsTrusted(a, b, cfg, x, y, dx, dy)
    ensures Judge(a, b, cfg, x, y) == Held || exists u, v :: IsTrusted(a, b, cfg, x, y, u, v)
  {
    var block := Block(a, x, y, cfg.blockSize);
    var forward := Forward(a, b, cfg, x, y);
    GatesAre(a, b, cfg, x, y);
    MovedBlocksMove(a, b, cfg, x, y);
    if IsTrusted(a, b, cfg, x, y, dx, dy) {
      MarginWeakens(block, b, cfg, dx, dy, 2 * Rows(cfg.blockSize, cfg.blockSize));
      FoundWinsIff(block, b, cfg, dx, dy);
    }
  }

  /**
   The motions of a frame pair are exactly the trusted motions of its full, changed grid cells;
   every other changed cell is held.
   */
  lemma MotionsAreTrusted(a: Image, b: Image, cfg: Config, x: nat, y: nat, dx: int, dy: int)
    requires Paired(a, b) && Normalized(cfg)
    ensures MotionBlock(x, y, cfg.blockSize, dx, dy) in Motions(a, b, cfg) <==>
      && IsGridCell(GridOf(a, cfg), x, y)
      && Cost(a, x, y, b, x, y, cfg.blockSize) != 0
      && IsTrusted(a, b, cfg, x, y, dx, dy)
  {
    var m := MotionBlock(x, y, cfg.blockSize, dx, dy);
    MotionsAreAcceptedBlocks(a, b, cfg, m);
    forall u: nat, v: nat | IsGridCell(GridOf(a, cfg), u, v) && JudgeOf(a, b, cfg)(u, v) == Moved(m)
      ensures u == x && v == y
    {
      MovedBlocksMove(a, b, cfg, u, v);
    }
    if IsGridCell(GridOf(a, cfg), x, y) {
      assert JudgeOf(a, b, cfg)(x, y) == Judge(a, b, cfg, x, y);
      if Cost(a, x, y, b, x, y, cfg.blockSize) != 0 {
        CellMovesIff(a, b, cfg, x, y, dx, dy);
      }
    }
  }

  // ----- The gates on whole frames -----------------------------------------------------

  /** The pixels that differ, those that jump, and those that go the way of the first brightness change. */
  ghost predicate Counted(a: Image, b: Image, changed: nat, large: nat, sameSign: nat) {
    && changed == CountTo(Differs(a, b), a.width, 0, a.height)
    && large == CountTo(Jumps(a, b), a.width, 0, a.height)
    && exists sign: int {:trigger SignMeans(a, b, sign, sameSign, 0, a.height)} ::
         SignMeans(a, b, sign, sameSign, 0, a.height)
  }

  /** At least nine of ten. */
  predicate MostOf(part: nat, whole: nat) {
    10 * part >= 9 * whole
  }

  /**
   What a valid call reports: a flash when enough pixels changed and most of them jump, and most
   the same way; else a scene cut when enough changed; else too much doubt when the held blocks
   cover too much of the frame; else it generates. The blocks are counted only when searched.
   */
  lemma OutcomeIs(a: Image, b: Image, cfg: Config, changed: nat, large: nat, sameSign: nat)
    requires Paired(a, b) && Normalized(cfg) && Rows(a.height, a.width) > 0
    requires var st := ObserveRows(a, b, a.height); (changed, large, sameSign) == (st.changed, st.large, st.sameSign)
    ensures Counted(a, b, changed, large, sameSign)
    ensures var r, pixels := Outcome(a, b, cfg), Rows(a.height, a.width);
      var share := changed as real / pixels as real;
      var doubt := Rows(HeldBlocks(a, b, cfg), Rows(cfg.blockSize, cfg.blockSize)) as real / pixels as real;
      var flash := share >= cfg.fullFlashRatio && MostOf(large, changed) && MostOf(sameSign, changed);
      var cut := !flash && share >= cfg.sceneCutRatio;
      && r.changedRatio == share
      && (r.reason == FULL_FLASH <==> flash) && (r.reason == SCENE_CUT <==> cut)
      && (r.reason == UNSAFE_CONFIDENCE <==> !flash && !cut && doubt > cfg.unsafeRatioLimit)
      && (r.reason == NONE <==> !flash && !cut && doubt <= cfg.unsafeRatioLimit) && (r.generated <==> r.reason == NONE)
      && (if flash || cut then r.unsafeRatio == 0.0 && r.movedBlocks == 0 && r.heldBlocks == 0
          else r.unsafeRatio == doubt && r.movedBlocks == |Motions(a, b, cfg)| && r.heldBlocks == HeldBlocks(a, b, cfg))
  {
    StatsMean(a, b, a.height);
    assert SignMeans(a, b, ObserveRows(a, b, a.height).sign, sameSign, 0, a.height);
  }
}
