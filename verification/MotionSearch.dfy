/**
 Block motion search: a coarse quarter-resolution pass that picks a centre, then an
 exhaustive refinement around it that tracks the best cost, the first displacement to reach
 it, how many displacements tie, and the runner-up cost.
 */
module MotionSearch {
  import opened Frames

  // The 64-bit "no candidate" value.
  const NONE_COST: nat := 0xFFFF_FFFF_FFFF_FFFF

  datatype Match = Match(dx: int, dy: int, best: nat, second: nat, ties: nat)

  const NO_MATCH: Match := Match(0, 0, NONE_COST, NONE_COST, 0)

  datatype Candidate = Candidate(dx: int, dy: int, cost: nat)

  /** One candidate of the refinement loop. */
  function Consider(m: Match, c: Candidate): Match {
    if c.cost < m.best then Match(c.dx, c.dy, c.cost, m.best, 1)
    else if c.cost == m.best then m.(ties := m.ties + 1)
    else if c.cost < m.second then m.(second := c.cost)
    else m
  }

  function ConsiderAll(cs: seq<Candidate>): Match {
    if cs == [] then NO_MATCH else Consider(ConsiderAll(cs[..|cs| - 1]), cs[|cs| - 1])
  }

  function TieCount(cs: seq<Candidate>, cost: nat): nat {
    if cs == [] then 0
    else TieCount(cs[..|cs| - 1], cost) + (if cs[|cs| - 1].cost == cost then 1 else 0)
  }

  /** `m` is the exact summary of the candidates, in scan order. */
  ghost predicate IsExact(cs: seq<Candidate>, m: Match) {
    if cs == [] then m == NO_MATCH
    else
      && IsLeast(cs, m.best)
      && (exists k: nat :: k < |cs| && IsFirst(cs, k, m))
      && m.ties == TieCount(cs, m.best)
      && IsRunnerUp(cs, m.best, m.second)
  }

  ghost predicate BelowSentinel(cs: seq<Candidate>) {
    forall k :: 0 <= k < |cs| ==> cs[k].cost < NONE_COST
  }

  ghost predicate IsLeast(cs: seq<Candidate>, best: nat) {
    forall k :: 0 <= k < |cs| ==> best <= cs[k].cost
  }

  /** Candidate `k` is the match, and every earlier candidate costs more. */
  ghost predicate IsFirst(cs: seq<Candidate>, k: nat, m: Match)
    requires k < |cs|
  {
    cs[k] == Candidate(m.dx, m.dy, m.best) && forall j :: 0 <= j < k ==> m.best < cs[j].cost
  }

  /** `second` is the least cost strictly above `best`, or the sentinel if there is none. */
  ghost predicate IsRunnerUp(cs: seq<Candidate>, best: nat, second: nat) {
    && (forall k :: 0 <= k < |cs| && best < cs[k].cost ==> second <= cs[k].cost)
    && (second == NONE_COST || exists k :: 0 <= k < |cs| && cs[k].cost == second && best < second)
  }

  lemma {:induction false} NoTies(cs: seq<Candidate>, cost: nat)
    requires forall k :: 0 <= k < |cs| ==> cost < cs[k].cost
    ensures TieCount(cs, cost) == 0
  {
    if cs != [] {
      NoTies(cs[..|cs| - 1], cost);
    }
  }

  lemma TieStep(cs: seq<Candidate>, c: Candidate, m: Match)
    requires IsLeast(cs, m.best) && m.ties == TieCount(cs, m.best)
    ensures Consider(m, c).ties == TieCount(cs + [c], Consider(m, c).best)
  {
    assert (cs + [c])[..|cs + [c]| - 1] == cs;
    if c.cost < m.best {
      NoTies(cs, c.cost);
    }
  }

  lemma FirstStep(cs: seq<Candidate>, c: Candidate, m: Match, k: nat)
    requires k < |cs| && IsFirst(cs, k, m) && IsLeast(cs, m.best)
    ensures IsFirst(cs + [c], if c.cost < m.best then |cs| else k, Consider(m, c))
    ensures IsLeast(cs + [c], Consider(m, c).best)
  {
  }

  lemma RunnerUpStep(cs: seq<Candidate>, c: Candidate, m: Match, k: nat)
    requires k < |cs| && IsFirst(cs, k, m) && IsRunnerUp(cs, m.best, m.second)
    requires IsLeast(cs, m.best)
    ensures IsRunnerUp(cs + [c], Consider(m, c).best, Consider(m, c).second)
  {
    var cs', m' := cs + [c], Consider(m, c);
    assert cs'[k] == cs[k] && cs'[|cs|] == c;
    assert forall j :: 0 <= j < |cs| ==> cs'[j] == cs[j];
    if m'.second != NONE_COST && m'.second == m.second {
      var j :| 0 <= j < |cs| && cs[j].cost == m.second && m.best < m.second;
      assert cs'[j].cost == m'.second;
    }
  }

  lemma ExactStep(cs: seq<Candidate>, c: Candidate, m: Match)
    requires IsExact(cs, m) && c.cost < NONE_COST
    ensures IsExact(cs + [c], Consider(m, c))
  {
    if cs == [] {
      assert IsFirst([c], 0, Consider(m, c));
      assert cs + [c] == [c];
      assert TieCount([c], c.cost) == TieCount([], c.cost) + 1;
    } else {
      var k: nat :| k < |cs| && IsFirst(cs, k, m);
      TieStep(cs, c, m);
      FirstStep(cs, c, m, k);
      RunnerUpStep(cs, c, m, k);
    }
  }

  lemma ExactNext(cs: seq<Candidate>, m: Match)
    requires cs != [] && cs[|cs| - 1].cost < NONE_COST && IsExact(cs[..|cs| - 1], m)
    ensures IsExact(cs, Consider(m, cs[|cs| - 1]))
  {
    var init, last := cs[..|cs| - 1], cs[|cs| - 1];
    assert init + [last] == cs;
    ExactStep(init, last, m);
  }

  /** The running summary is exact for every list of candidates below the sentinel. */
  lemma {:induction false} ConsiderAllExact(cs: seq<Candidate>)
    requires BelowSentinel(cs)
    ensures IsExact(cs, ConsiderAll(cs))
    decreases |cs|, 0
  {
    if cs != [] {
      ConsiderLastExact(cs);
    }
  }

  lemma {:induction false} ConsiderLastExact(cs: seq<Candidate>)
    requires BelowSentinel(cs) && cs != []
    ensures IsExact(cs, ConsiderAll(cs))
    decreases |cs| - 1, 1
  {
    var m := ConsiderAll(cs[..|cs| - 1]);
    ConsiderAllExact(cs[..|cs| - 1]);
    assert ConsiderAll(cs) == Consider(m, cs[|cs| - 1]);
    ExactNext(cs, m);
  }

  lemma ConsiderAppend(cs: seq<Candidate>, c: Candidate)
    ensures ConsiderAll(cs + [c]) == Consider(ConsiderAll(cs), c)
  {
    assert (cs + [c])[..|cs + [c]| - 1] == cs;
  }

  // ----- Refinement --------------------------------------------------------------------

  /** The block being matched: which image it is cut from, where, and how large it is. */
  datatype Block = Block(from: Image, x: int, y: int, size: nat)

  function CandidateAt(b: Block, to: Image, dx: int, dy: int): Candidate {
    Candidate(dx, dy, Cost(b.from, b.x, b.y, to, b.x + dx, b.y + dy, b.size))
  }

  predicate InBounds(b: Block, to: Image, dx: int, dy: int) {
    Fits(to, b.x + dx, b.y + dy, b.size)
  }

  /** The in-bounds candidates of one row of the window: `n` displacements from `dx` on. */
  function WindowRow(b: Block, to: Image, dx: int, dy: int, n: nat): seq<Candidate> {
    if n == 0 then []
    else WindowRow(b, to, dx, dy, n - 1)
         + (if InBounds(b, to, dx + (n - 1), dy) then [CandidateAt(b, to, dx + (n - 1), dy)] else [])
  }

  /** The first `rows` rows of the window whose top left displacement is (`dx`, `dy`). */
  function Window(b: Block, to: Image, dx: int, dy: int, width: nat, rows: nat): seq<Candidate> {
    if rows == 0 then []
    else Window(b, to, dx, dy, width, rows - 1) + WindowRow(b, to, dx, dy + (rows - 1), width)
  }

  /** The running summary after `n` displacements of a row, starting from `m0`. */
  function MatchRow(b: Block, to: Image, left: int, dy: int, m0: Match, n: nat): Match {
    if n == 0 then m0
    else
      var m := MatchRow(b, to, left, dy, m0, n - 1);
      if InBounds(b, to, left + (n - 1), dy) then Consider(m, CandidateAt(b, to, left + (n - 1), dy)) else m
  }

  function MatchRows(b: Block, to: Image, left: int, top: int, width: nat, rows: nat): Match {
    if rows == 0 then NO_MATCH
    else MatchRow(b, to, left, top + (rows - 1), MatchRows(b, to, left, top, width, rows - 1), width)
  }

  /** Exhaustive search of the square window of `radius` around a centre. */
  function Refined(b: Block, to: Image, cdx: int, cdy: int, radius: nat): Match {
    MatchRows(b, to, cdx - radius, cdy - radius, 2 * radius + 1, 2 * radius + 1)
  }

  method CandidateCost(b: Block, to: Image, dx: int, dy: int) returns (cost: nat)
    requires Fits(b.from, b.x, b.y, b.size) && InBounds(b, to, dx, dy)
    ensures cost == CandidateAt(b, to, dx, dy).cost
  {
    cost := BlockCost(b.from, b.x, b.y, to, b.x + dx, b.y + dy, b.size);
  }

  /** One row of the refinement loop, continuing the summary of the rows above. */
  method SearchRow(b: Block, to: Image, left: int, dy: int, width: nat, m0: Match) returns (m: Match)
    requires Fits(b.from, b.x, b.y, b.size)
    ensures m == MatchRow(b, to, left, dy, m0, width)
  {
    m := m0;
    for n := 0 to width
      invariant m == MatchRow(b, to, left, dy, m0, n)
    {
      var dx := left + n;
      if !InBounds(b, to, dx, dy) {
        continue;
      }
      var cost := CandidateCost(b, to, dx, dy);
      if cost < m.best {
        m := Match(dx, dy, cost, m.best, 1);
      } else if cost == m.best {
        m := m.(ties := m.ties + 1);
      } else if cost < m.second {
        m := m.(second := cost);
      }
    }
  }

  method SearchRefinement(b: Block, to: Image, centerDx: int, centerDy: int, radius: nat) returns (m: Match)
    requires Fits(b.from, b.x, b.y, b.size)
    ensures m == Refined(b, to, centerDx, centerDy, radius)
  {
    m := NO_MATCH;
    var left, top, width := centerDx - radius, centerDy - radius, 2 * radius + 1;
    for n := 0 to width
      invariant m == MatchRows(b, to, left, top, width, n)
    {
      m := SearchRow(b, to, left, top + n, width, m);
    }
  }

  lemma ConsiderAppendRow(above: seq<Candidate>, row: seq<Candidate>, c: Candidate)
    ensures ConsiderAll(above + (row + [c])) == Consider(ConsiderAll(above + row), c)
    ensures above + [] == above && row + [] == row
  {
    assert above + (row + [c]) == (above + row) + [c];
    ConsiderAppend(above + row, c);
  }

  lemma {:induction false} MatchRowIsSummary(b: Block, to: Image, left: int, dy: int, n: nat, above: seq<Candidate>)
    ensures MatchRow(b, to, left, dy, ConsiderAll(above), n) == ConsiderAll(above + WindowRow(b, to, left, dy, n))
  {
    ConsiderAppendRow(above, [], Candidate(0, 0, 0));
    if n > 0 {
      MatchRowIsSummary(b, to, left, dy, n - 1, above);
      ConsiderAppendRow(above, WindowRow(b, to, left, dy, n - 1), CandidateAt(b, to, left + (n - 1), dy));
    }
  }

  lemma {:induction false} MatchRowsIsSummary(b: Block, to: Image, left: int, top: int, width: nat, rows: nat)
    ensures MatchRows(b, to, left, top, width, rows) == ConsiderAll(Window(b, to, left, top, width, rows))
  {
    if rows > 0 {
      var above := Window(b, to, left, top, width, rows - 1);
      MatchRowsIsSummary(b, to, left, top, width, rows - 1);
      MatchRowIsSummary(b, to, left, top + (rows - 1), width, above);
    }
  }

  /** Scan order: rows from top to bottom, each from left to right. */
  predicate Before(c: Candidate, d: Candidate) {
    c.dy < d.dy || (c.dy == d.dy && c.dx < d.dx)
  }

  lemma {:induction false} WindowRowIs(b: Block, to: Image, dx: int, dy: int, n: nat)
    ensures forall c {:trigger c in WindowRow(b, to, dx, dy, n)} :: c in WindowRow(b, to, dx, dy, n) <==>
              dx <= c.dx < dx + n && c.dy == dy && InBounds(b, to, c.dx, dy) && c == CandidateAt(b, to, c.dx, dy)
    ensures forall i, j :: 0 <= i < j < |WindowRow(b, to, dx, dy, n)| ==>
              Before(WindowRow(b, to, dx, dy, n)[i], WindowRow(b, to, dx, dy, n)[j])
  {
    if n > 0 {
      WindowRowIs(b, to, dx, dy, n - 1);
      var init, row := WindowRow(b, to, dx, dy, n - 1), WindowRow(b, to, dx, dy, n);
      forall i, j | 0 <= i < j < |row|
        ensures Before(row[i], row[j])
      {
        assert init[i] in init;
      }
    }
  }

  /** The window lists exactly the in-bounds displacements around the centre, in scan order. */
  lemma {:induction false} WindowIs(b: Block, to: Image, dx: int, dy: int, width: nat, rows: nat)
    ensures forall c {:trigger c in Window(b, to, dx, dy, width, rows)} ::
              c in Window(b, to, dx, dy, width, rows) <==>
                && dx <= c.dx < dx + width && dy <= c.dy < dy + rows
                && InBounds(b, to, c.dx, c.dy) && c == CandidateAt(b, to, c.dx, c.dy)
    ensures forall i, j :: 0 <= i < j < |Window(b, to, dx, dy, width, rows)| ==>
              Before(Window(b, to, dx, dy, width, rows)[i], Window(b, to, dx, dy, width, rows)[j])
  {
    if rows > 0 {
      WindowIs(b, to, dx, dy, width, rows - 1);
      WindowRowIs(b, to, dx, dy + (rows - 1), width);
      var init, row := Window(b, to, dx, dy, width, rows - 1), WindowRow(b, to, dx, dy + (rows - 1), width);
      forall i, j | 0 <= i < j < |init + row|
        ensures Before((init + row)[i], (init + row)[j])
      {
        if i < |init| <= j {
          assert init[i] in init && row[j - |init|] in row;
        }
      }
    }
  }

  lemma WindowBelowSentinel(b: Block, to: Image, dx: int, dy: int, width: nat, rows: nat)
    requires Fits(b.from, b.x, b.y, b.size) && Rows(b.from.height, b.from.width) <= MAX_CELLS
    ensures BelowSentinel(Window(b, to, dx, dy, width, rows))
  {
    var cs := Window(b, to, dx, dy, width, rows);
    WindowIs(b, to, dx, dy, width, rows);
    forall k | 0 <= k < |cs|
      ensures cs[k].cost < NONE_COST
    {
      assert cs[k] in cs;
      CostBelowSentinel(b.from, b.x, b.y, to, b.x + cs[k].dx, b.y + cs[k].dy, b.size);
    }
  }

  /**
   The refinement is exact over its whole window: least cost, first displacement to reach
   it in scan order, number of displacements that tie, and least cost strictly above.
   */
  lemma RefinementIsExact(b: Block, to: Image, cdx: int, cdy: int, radius: nat)
    requires Fits(b.from, b.x, b.y, b.size) && Rows(b.from.height, b.from.width) <= MAX_CELLS
    ensures IsExact(Window(b, to, cdx - radius, cdy - radius, 2 * radius + 1, 2 * radius + 1),
                    Refined(b, to, cdx, cdy, radius))
  {
    var left, top, width := cdx - radius, cdy - radius, 2 * radius + 1;
    WindowBelowSentinel(b, to, left, top, width, width);
    ConsiderAllExact(Window(b, to, left, top, width, width));
    MatchRowsIsSummary(b, to, left, top, width, width);
  }

  /** A match never leaves the frame, and its cost is the cost of the block it points at. */
  lemma RefinedInBounds(b: Block, to: Image, cdx: int, cdy: int, radius: nat)
    requires Fits(b.from, b.x, b.y, b.size) && Rows(b.from.height, b.from.width) <= MAX_CELLS
    requires Fits(to, b.x, b.y, b.size)
    ensures var m := Refined(b, to, cdx, cdy, radius);
      && InBounds(b, to, m.dx, m.dy)
      && (m.ties == 0 <==> m == NO_MATCH)
      && (m.ties > 0 ==> m.best == CandidateAt(b, to, m.dx, m.dy).cost)
  {
    var cs := Window(b, to, cdx - radius, cdy - radius, 2 * radius + 1, 2 * radius + 1);
    var m := Refined(b, to, cdx, cdy, radius);
    RefinementIsExact(b, to, cdx, cdy, radius);
    WindowIs(b, to, cdx - radius, cdy - radius, 2 * radius + 1, 2 * radius + 1);
    if cs != [] {
      var k: nat :| k < |cs| && IsFirst(cs, k, m);
      assert cs[k] in cs;
      SomeTie(cs, k);
    }
  }

  lemma {:induction false} SomeTie(cs: seq<Candidate>, k: nat)
    requires k < |cs|
    ensures TieCount(cs, cs[k].cost) > 0
  {
    if k < |cs| - 1 {
      SomeTie(cs[..|cs| - 1], k);
    }
  }

  // ----- Coarse pass -------------------------------------------------------------------

  /** A coarse block samples every fourth pixel of a square of `4 * quarter` pixels. */
  datatype Coarse = Coarse(from: Image, x: int, y: int, quarter: nat)

  function QuarterRow(c: Coarse, to: Image, dx: int, dy: int, qy: nat, n: nat): nat {
    if n == 0 then 0
    else QuarterRow(c, to, dx, dy, qy, n - 1)
         + ColorDistance(c.from.at(c.x + (n - 1) * 4, c.y + qy * 4), to.at(c.x + (n - 1) * 4 + dx, c.y + qy * 4 + dy))
  }

  function QuarterCost(c: Coarse, to: Image, dx: int, dy: int, rows: nat): nat {
    if rows == 0 then 0
    else QuarterCost(c, to, dx, dy, rows - 1) + QuarterRow(c, to, dx, dy, rows - 1, c.quarter)
  }

  method QuarterBlockCost(c: Coarse, to: Image, dx: int, dy: int) returns (cost: nat)
    requires Fits(c.from, c.x, c.y, c.quarter * 4) && Fits(to, c.x + dx, c.y + dy, c.quarter * 4)
    ensures cost == QuarterCost(c, to, dx, dy, c.quarter)
  {
    cost := 0;
    for qy := 0 to c.quarter
      invariant cost == QuarterCost(c, to, dx, dy, qy)
    {
      for qx := 0 to c.quarter
        invariant cost == QuarterCost(c, to, dx, dy, qy) + QuarterRow(c, to, dx, dy, qy, qx)
      {
        var x := c.x + qx * 4;
        var y := c.y + qy * 4;
        cost := cost + ColorDistance(c.from.at(x, y), to.at(x + dx, y + dy));
      }
    }
  }

  function CoarseCandidate(c: Coarse, to: Image, dxq: int, dyq: int): Candidate {
    Candidate(dxq * 4, dyq * 4, QuarterCost(c, to, dxq * 4, dyq * 4, c.quarter))
  }

  predicate CoarseInBounds(c: Coarse, to: Image, dxq: int, dyq: int) {
    Fits(to, c.x + dxq * 4, c.y + dyq * 4, c.quarter * 4)
  }

  /** The coarse loop keeps only the least cost and the first displacement to reach it. */
  datatype Centre = Centre(dx: int, dy: int, best: nat)

  function CoarseRow(c: Coarse, to: Image, left: int, dyq: int, m0: Centre, n: nat): Centre {
    if n == 0 then m0
    else
      var m := CoarseRow(c, to, left, dyq, m0, n - 1);
      var d := CoarseCandidate(c, to, left + (n - 1), dyq);
      if CoarseInBounds(c, to, left + (n - 1), dyq) && d.cost < m.best then Centre(d.dx, d.dy, d.cost) else m
  }

  function CoarseRows(c: Coarse, to: Image, left: int, top: int, width: nat, rows: nat): Centre {
    if rows == 0 then Centre(0, 0, NONE_COST)
    else CoarseRow(c, to, left, top + (rows - 1), CoarseRows(c, to, left, top, width, rows - 1), width)
  }

  /** Quarter displacement (`i`, `j`) is the centre `m`, reached before any other of its cost. */
  ghost predicate IsCentre(c: Coarse, to: Image, left: int, top: int, width: nat, i: int, j: int, m: Centre) {
    && left <= i < left + width && top <= j
    && CoarseInBounds(c, to, i, j) && CoarseCandidate(c, to, i, j) == Candidate(m.dx, m.dy, m.best)
    && forall u, v {:trigger CoarseInBounds(c, to, u, v)} ::
         left <= u < left + width && top <= v && (v < j || (v == j && u < i)) && CoarseInBounds(c, to, u, v) ==>
           m.best < CoarseCandidate(c, to, u, v).cost
  }

  lemma {:induction false} CoarseRowExact(c: Coarse, to: Image, left: int, dyq: int, m0: Centre, n: nat)
    ensures var m := CoarseRow(c, to, left, dyq, m0, n);
      && m.best <= m0.best
      && (forall u {:trigger CoarseInBounds(c, to, u, dyq)} :: left <= u < left + n && CoarseInBounds(c, to, u, dyq) ==>
            m.best <= CoarseCandidate(c, to, u, dyq).cost)
      && (m == m0 || (m.best < m0.best && exists i :: IsCentre(c, to, left, dyq, n, i, dyq, m)))
  {
    if n > 0 {
      CoarseRowExact(c, to, left, dyq, m0, n - 1);
      var m, m' := CoarseRow(c, to, left, dyq, m0, n - 1), CoarseRow(c, to, left, dyq, m0, n);
      if m' == m {
        if m != m0 {
          var i :| IsCentre(c, to, left, dyq, n - 1, i, dyq, m);
          assert IsCentre(c, to, left, dyq, n, i, dyq, m');
        }
      } else {
        assert IsCentre(c, to, left, dyq, n, left + (n - 1), dyq, m');
      }
    }
  }

  /** The coarse centre is the first in-bounds quarter displacement of least cost. */
  lemma {:induction false} CoarseIsFirstMinimum(c: Coarse, to: Image, left: int, top: int, width: nat, rows: nat)
    ensures var m := CoarseRows(c, to, left, top, width, rows);
      && (forall u, v {:trigger CoarseInBounds(c, to, u, v)} ::
            left <= u < left + width && top <= v < top + rows && CoarseInBounds(c, to, u, v) ==>
              m.best <= CoarseCandidate(c, to, u, v).cost)
      && (m == Centre(0, 0, NONE_COST) || exists i, j :: j < top + rows && IsCentre(c, to, left, top, width, i, j, m))
  {
    if rows > 0 {
      CoarseIsFirstMinimum(c, to, left, top, width, rows - 1);
      var dyq := top + (rows - 1);
      var m, m' := CoarseRows(c, to, left, top, width, rows - 1), CoarseRows(c, to, left, top, width, rows);
      CoarseRowExact(c, to, left, dyq, m, width);
      if m' == m {
        if m != Centre(0, 0, NONE_COST) {
          var i, j :| j < top + (rows - 1) && IsCentre(c, to, left, top, width, i, j, m);
        }
      } else {
        var i :| IsCentre(c, to, left, dyq, width, i, dyq, m');
        assert IsCentre(c, to, left, top, width, i, dyq, m');
      }
    }
  }

  datatype Config = Config(
    blockSize: int,
    coarseBlockQuarter: int,
    coarseRadiusQuarter: int,
    refinementRadius: int,
    sceneCutRatio: real,
    fullFlashRatio: real,
    unsafeRatioLimit: real)

  /** What the constructor of the interpolator leaves behind. */
  predicate Normalized(cfg: Config) {
    && cfg.blockSize > 0 && cfg.coarseBlockQuarter > 0
    && cfg.coarseRadiusQuarter >= 0 && cfg.refinementRadius >= 0
  }

  function Normalize(cfg: Config): (r: Config)
    ensures Normalized(r)
    ensures Normalized(cfg) ==> r == cfg
    ensures r.blockSize in {cfg.blockSize, 4} && r.coarseBlockQuarter in {cfg.coarseBlockQuarter, 8}
    ensures r.coarseRadiusQuarter in {cfg.coarseRadiusQuarter, 0} && r.refinementRadius in {cfg.refinementRadius, 0}
    ensures Normalized(cfg.(blockSize := 1)) ==> r == cfg.(blockSize := r.blockSize)
    ensures Normalized(cfg.(coarseBlockQuarter := 1)) ==> r == cfg.(coarseBlockQuarter := r.coarseBlockQuarter)
    ensures (r.sceneCutRatio, r.fullFlashRatio, r.unsafeRatioLimit)
         == (cfg.sceneCutRatio, cfg.fullFlashRatio, cfg.unsafeRatioLimit)
  {
    cfg.(blockSize := if cfg.blockSize <= 0 then 4 else cfg.blockSize,
         coarseBlockQuarter := if cfg.coarseBlockQuarter <= 0 then 8 else cfg.coarseBlockQuarter,
         coarseRadiusQuarter := if cfg.coarseRadiusQuarter < 0 then 0 else cfg.coarseRadiusQuarter,
         refinementRadius := if cfg.refinementRadius < 0 then 0 else cfg.refinementRadius)
  }

  /** The corner of the coarse cell that holds coordinate `x`. */
  function Anchor(full: nat, x: nat): nat
    requires full > 0
  {
    Rows(Row(full, x), full)
  }

  function CoarseOf(b: Block, cfg: Config): Coarse
    requires Normalized(cfg) && b.x >= 0 && b.y >= 0
  {
    var full := cfg.coarseBlockQuarter * 4;
    Coarse(b.from, Anchor(full, b.x), Anchor(full, b.y), cfg.coarseBlockQuarter)
  }

  /** The centre the coarse pass settles on; (0, 0) when the coarse cell sticks out. */
  function CoarseCentre(b: Block, to: Image, cfg: Config): (int, int)
    requires Normalized(cfg) && b.x >= 0 && b.y >= 0
  {
    var c := CoarseOf(b, cfg);
    var r := cfg.coarseRadiusQuarter;
    if Fits(b.from, c.x, c.y, c.quarter * 4) then
      var m := CoarseRows(c, to, -r, -r, 2 * r + 1, 2 * r + 1);
      (m.dx, m.dy)
    else (0, 0)
  }

  function Found(b: Block, to: Image, cfg: Config): Match
    requires Normalized(cfg) && b.x >= 0 && b.y >= 0
  {
    var (cdx, cdy) := CoarseCentre(b, to, cfg);
    Refined(b, to, cdx, cdy, cfg.refinementRadius)
  }

  method CoarseSearchRow(c: Coarse, to: Image, left: int, dyq: int, width: nat, m0: Centre) returns (m: Centre)
    requires Fits(c.from, c.x, c.y, c.quarter * 4)
    ensures m == CoarseRow(c, to, left, dyq, m0, width)
  {
    m := m0;
    for n := 0 to width
      invariant m == CoarseRow(c, to, left, dyq, m0, n)
    {
      var dxq := left + n;
      if !CoarseInBounds(c, to, dxq, dyq) {
        continue;
      }
      var candidate := QuarterBlockCost(c, to, dxq * 4, dyq * 4);
      if candidate < m.best {
        m := Centre(dxq * 4, dyq * 4, candidate);
      }
    }
  }

  method CoarseSearch(c: Coarse, to: Image, left: int, width: nat) returns (m: Centre)
    requires Fits(c.from, c.x, c.y, c.quarter * 4)
    ensures m == CoarseRows(c, to, left, left, width, width)
  {
    m := Centre(0, 0, NONE_COST);
    for n := 0 to width
      invariant m == CoarseRows(c, to, left, left, width, n)
    {
      m := CoarseSearchRow(c, to, left, left + n, width, m);
    }
  }

  method CoarsePass(b: Block, to: Image, cfg: Config) returns (dx: int, dy: int)
    requires Normalized(cfg) && Fits(b.from, b.x, b.y, b.size)
    ensures (dx, dy) == CoarseCentre(b, to, cfg)
  {
    var c := CoarseOf(b, cfg);
    dx, dy := 0, 0;
    if Fits(b.from, c.x, c.y, c.quarter * 4) {
      var m := CoarseSearch(c, to, -cfg.coarseRadiusQuarter, 2 * cfg.coarseRadiusQuarter + 1);
      dx, dy := m.dx, m.dy;
    }
  }

  method HierarchicalSearch(b: Block, to: Image, cfg: Config) returns (m: Match)
    requires Normalized(cfg) && Fits(b.from, b.x, b.y, b.size)
    ensures m == Found(b, to, cfg)
  {
    var dx, dy := CoarsePass(b, to, cfg);
    m := SearchRefinement(b, to, dx, dy, cfg.refinementRadius);
  }
}
