/**
 The RGB565 midpoint interpolator: global discontinuity gates, block motion with confidence
 gates, then the warp. It never blends, and whatever it does not generate holds A.
 */
module Interpolator {
  import opened Common
  import opened Frames
  import opened MotionSearch
  import opened Warp

  datatype HoldReason = NONE | INVALID_INPUT | SCENE_CUT | FULL_FLASH | UNSAFE_CONFIDENCE

  datatype Result = Result(
    generated: bool,
    reason: HoldReason,
    changedRatio: real,
    unsafeRatio: real,
    movedBlocks: nat,
    heldBlocks: nat)

  // ----- Discontinuity statistics ------------------------------------------------------

  /** `sign` is the direction of the first brightness change met in scan order. */
  datatype Stats = Stats(changed: nat, sameSign: nat, large: nat, sign: int)

  function Sign(d: int): int {
    if d > 0 then 1 else if d < 0 then -1 else 0
  }

  function Observe(st: Stats, p: Pixel, q: Pixel): Stats {
    if p == q then st
    else
      var delta := Luma(q) - Luma(p);
      var sign := if st.sign == 0 then Sign(delta) else st.sign;
      Stats(st.changed + 1,
            st.sameSign + (if Sign(delta) != 0 && Sign(delta) == sign then 1 else 0),
            st.large + (if Abs(delta) >= 96 then 1 else 0),
            sign)
  }

  function ObserveRow(a: Image, b: Image, y: int, st: Stats, n: nat): Stats {
    if n == 0 then st else Observe(ObserveRow(a, b, y, st, n - 1), a.at(n - 1, y), b.at(n - 1, y))
  }

  function ObserveRows(a: Image, b: Image, rows: nat): Stats {
    if rows == 0 then Stats(0, 0, 0, 0) else ObserveRow(a, b, rows - 1, ObserveRows(a, b, rows - 1), a.width)
  }

  /** The change of brightness at a pixel. */
  function Delta(a: Image, b: Image, x: int, y: int): int {
    Luma(b.at(x, y)) - Luma(a.at(x, y))
  }

  type Test = (int, int) -> bool

  function CountRow(test: Test, y: int, n: nat): nat {
    if n == 0 then 0 else CountRow(test, y, n - 1) + (if test(n - 1, y) then 1 else 0)
  }

  /** How many of the first `n` pixels of row `rows`, and of all rows above it, pass a test. */
  function CountTo(test: Test, width: nat, n: nat, rows: nat): nat
    decreases rows, n
  {
    CountRow(test, rows, n) + (if rows == 0 then 0 else CountTo(test, width, width, rows - 1))
  }

  function Differs(a: Image, b: Image): Test {
    (x: int, y: int) => a.at(x, y) != b.at(x, y)
  }

  function Jumps(a: Image, b: Image): Test {
    (x: int, y: int) => Abs(Delta(a, b, x, y)) >= 96
  }

  function Goes(a: Image, b: Image, sign: int): Test {
    (x: int, y: int) => Sign(Delta(a, b, x, y)) == sign
  }

  /** No pixel that the scan meets before (`x`, `y`) has changed its brightness. */
  ghost predicate StillBefore(a: Image, b: Image, x: int, y: int) {
    && (forall u, v {:trigger Delta(a, b, u, v)} :: 0 <= u < a.width && 0 <= v < y ==> Sign(Delta(a, b, u, v)) == 0)
    && (forall u {:trigger Delta(a, b, u, y)} :: 0 <= u < x ==> Sign(Delta(a, b, u, y)) == 0)
  }

  /** `sign` is the direction of the first brightness change in scan order before (`x`, `y`). */
  ghost predicate IsFirstSign(a: Image, b: Image, sign: int, x: int, y: int) {
    exists u, v {:trigger Delta(a, b, u, v)} ::
      && 0 <= u < a.width && 0 <= v && (v < y || (v == y && u < x))
      && StillBefore(a, b, u, v) && Sign(Delta(a, b, u, v)) == sign
  }

  /** What the statistics mean after the scan has reached (`x`, `y`). */
  ghost predicate Means(a: Image, b: Image, st: Stats, x: nat, y: nat) {
    && st.changed == CountTo(Differs(a, b), a.width, x, y)
    && st.large == CountTo(Jumps(a, b), a.width, x, y)
    && SignMeans(a, b, st.sign, st.sameSign, x, y)
  }

  lemma {:induction false} NoneInRow(test: Test, y: int, n: nat)
    requires forall u :: 0 <= u < n ==> !test(u, y)
    ensures CountRow(test, y, n) == 0
  {
    if n > 0 {
      NoneInRow(test, y, n - 1);
    }
  }

  lemma {:induction false} NoneBefore(a: Image, b: Image, sign: int, x: nat, y: nat)
    requires StillBefore(a, b, x, y) && sign != 0
    ensures CountTo(Goes(a, b, sign), a.width, x, y) == 0
    decreases y, x
  {
    NoneInRow(Goes(a, b, sign), y, x);
    if y > 0 {
      NoneBefore(a, b, sign, a.width, y - 1);
    }
  }

  lemma CountStep(test: Test, width: nat, n: nat, rows: nat)
    ensures CountTo(test, width, n + 1, rows) == CountTo(test, width, n, rows) + (if test(n, rows) then 1 else 0)
  {
  }

  /** What the sign and the same-sign count mean after the scan has reached (`x`, `y`). */
  ghost predicate SignMeans(a: Image, b: Image, sign: int, sameSign: nat, x: nat, y: nat) {
    if sign == 0 then StillBefore(a, b, x, y) && sameSign == 0
    else IsFirstSign(a, b, sign, x, y) && sameSign == CountTo(Goes(a, b, sign), a.width, x, y)
  }

  lemma SignFirst(a: Image, b: Image, s: int, x: nat, y: nat)
    requires StillBefore(a, b, x, y) && x < a.width && s == Sign(Delta(a, b, x, y)) && s != 0
    ensures SignMeans(a, b, s, 1, x + 1, y)
  {
    NoneBefore(a, b, s, x, y);
    CountStep(Goes(a, b, s), a.width, x, y);
    assert Sign(Delta(a, b, x, y)) == s;
  }

  lemma SignLater(a: Image, b: Image, sign: int, sameSign: nat, x: nat, y: nat)
    requires SignMeans(a, b, sign, sameSign, x, y) && sign != 0 && x < a.width
    ensures SignMeans(a, b, sign, sameSign + (if Sign(Delta(a, b, x, y)) == sign then 1 else 0), x + 1, y)
  {
    CountStep(Goes(a, b, sign), a.width, x, y);
    var u, v :| 0 <= u < a.width && 0 <= v && (v < y || (v == y && u < x))
      && StillBefore(a, b, u, v) && Sign(Delta(a, b, u, v)) == sign;
    assert IsFirstSign(a, b, sign, x + 1, y);
  }

  lemma SignStill(a: Image, b: Image, x: nat, y: nat)
    requires StillBefore(a, b, x, y) && Sign(Delta(a, b, x, y)) == 0
    ensures StillBefore(a, b, x + 1, y)
  {
  }

  lemma SignStep(a: Image, b: Image, st: Stats, x: nat, y: nat)
    requires SignMeans(a, b, st.sign, st.sameSign, x, y) && x < a.width
    ensures var r := Observe(st, a.at(x, y), b.at(x, y)); SignMeans(a, b, r.sign, r.sameSign, x + 1, y)
  {
    var s := Sign(Delta(a, b, x, y));
    if st.sign != 0 {
      SignLater(a, b, st.sign, st.sameSign, x, y);
    } else if s != 0 {
      SignFirst(a, b, s, x, y);
    } else {
      SignStill(a, b, x, y);
    }
  }

  lemma MeansStep(a: Image, b: Image, st: Stats, x: nat, y: nat)
    requires Means(a, b, st, x, y) && x < a.width
    ensures Means(a, b, Observe(st, a.at(x, y), b.at(x, y)), x + 1, y)
  {
    CountStep(Differs(a, b), a.width, x, y);
    CountStep(Jumps(a, b), a.width, x, y);
    SignStep(a, b, st, x, y);
  }

  lemma {:induction false} MeansRow(a: Image, b: Image, st: Stats, n: nat, y: nat)
    requires Means(a, b, st, 0, y) && n <= a.width
    ensures Means(a, b, ObserveRow(a, b, y, st, n), n, y)
    decreases n, 0
  {
    if n > 0 {
      MeansPixel(a, b, st, n, y);
    }
  }

  lemma {:induction false} MeansPixel(a: Image, b: Image, st: Stats, n: nat, y: nat)
    requires Means(a, b, st, 0, y) && 0 < n <= a.width
    ensures Means(a, b, ObserveRow(a, b, y, st, n), n, y)
    decreases n - 1, 1
  {
    MeansRow(a, b, st, n - 1, y);
    var before := ObserveRow(a, b, y, st, n - 1);
    assert ObserveRow(a, b, y, st, n) == Observe(before, a.at(n - 1, y), b.at(n - 1, y));
    MeansStep(a, b, before, n - 1, y);
  }

  lemma NextRow(a: Image, b: Image, st: Stats, y: nat)
    requires Means(a, b, st, a.width, y)
    ensures Means(a, b, st, 0, y + 1)
  {
    if st.sign != 0 {
      var u, v :| 0 <= u < a.width && 0 <= v && (v < y || (v == y && u < a.width))
        && StillBefore(a, b, u, v) && Sign(Delta(a, b, u, v)) == st.sign;
      assert IsFirstSign(a, b, st.sign, 0, y + 1);
    } else {
      assert StillBefore(a, b, 0, y + 1);
    }
  }

  lemma MeansNext(a: Image, b: Image, rows: nat)
    requires rows > 0 && Means(a, b, ObserveRows(a, b, rows - 1), 0, rows - 1)
    ensures Means(a, b, ObserveRows(a, b, rows), 0, rows)
  {
    var before := ObserveRows(a, b, rows - 1);
    MeansRow(a, b, before, a.width, rows - 1);
    NextRow(a, b, ObserveRow(a, b, rows - 1, before, a.width), rows - 1);
  }

  lemma NothingSeen(a: Image, b: Image)
    ensures Means(a, b, Stats(0, 0, 0, 0), 0, 0)
  {
  }

  /**
   What the statistics count: the pixels that differ, those whose brightness jumps by 96 or
   more, and those that go the way of the first brightness change in scan order.
   */
  lemma {:induction false} StatsMean(a: Image, b: Image, rows: nat)
    ensures Means(a, b, ObserveRows(a, b, rows), 0, rows)
  {
    if rows == 0 {
      NothingSeen(a, b);
    } else {
      StatsMean(a, b, rows - 1);
      MeansNext(a, b, rows);
    }
  }

  method ObserveFrames(a: Image, b: Image) returns (st: Stats)
    ensures st == ObserveRows(a, b, a.height) && Means(a, b, st, 0, a.height)
  {
    StatsMean(a, b, a.height);
    var changed, sameSign, large, sign := 0, 0, 0, 0;
    for y := 0 to a.height
      invariant Stats(changed, sameSign, large, sign) == ObserveRows(a, b, y)
    {
      for x := 0 to a.width
        invariant Stats(changed, sameSign, large, sign) == ObserveRow(a, b, y, ObserveRows(a, b, y), x)
      {
        var p, q := a.at(x, y), b.at(x, y);
        if p == q {
          continue;
        }
        changed := changed + 1;
        var delta := Luma(q) - Luma(p);
        if Abs(delta) >= 96 {
          large := large + 1;
        }
        var s := Sign(delta);
        if sign == 0 && s != 0 {
          sign := s;
        }
        if s != 0 && s == sign {
          sameSign := sameSign + 1;
        }
      }
    }
    st := Stats(changed, sameSign, large, sign);
  }

  predicate IsFlash(cfg: Config, st: Stats, ratio: real) {
    ratio >= cfg.fullFlashRatio && st.large * 10 >= st.changed * 9 && st.sameSign * 10 >= st.changed * 9
  }

  // ----- Block decisions ---------------------------------------------------------------

  /** The confidence gates on a forward and a backward match. */
  predicate Confident(size: nat, zeroCost: nat, forward: Match, backward: Match) {
    && forward.ties == 1 && backward.ties == 1
    && Abs(forward.dx + backward.dx) <= 1 && Abs(forward.dy + backward.dy) <= 1
    && forward.best * 4 < zeroCost * 3
    && (forward.second == NONE_COST || forward.best + Rows(size, size) * 2 < forward.second)
  }

  datatype Verdict = Unchanged | Held | Moved(motion: MotionBlock) | Still

  function Forward(a: Image, b: Image, cfg: Config, x: nat, y: nat): Match
    requires Normalized(cfg)
  {
    Found(Block(a, x, y, cfg.blockSize), b, cfg)
  }

  /** The reverse search from where the forward match points, if that is inside the frame. */
  function Backward(a: Image, b: Image, cfg: Config, x: nat, y: nat, forward: Match): Match
    requires Normalized(cfg)
  {
    if Fits(b, x + forward.dx, y + forward.dy, cfg.blockSize)
    then Found(Block(b, x + forward.dx, y + forward.dy, cfg.blockSize), a, cfg)
    else NO_MATCH
  }

  function Decide(size: nat, x: nat, y: nat, zeroCost: nat, forward: Match, backward: Match): Verdict {
    if !Confident(size, zeroCost, forward, backward) then Held
    else if forward.dx != 0 || forward.dy != 0 then Moved(MotionBlock(x, y, size, forward.dx, forward.dy))
    else Still
  }

  function Judge(a: Image, b: Image, cfg: Config, x: nat, y: nat): Verdict
    requires Normalized(cfg)
  {
    var zeroCost := Cost(a, x, y, b, x, y, cfg.blockSize);
    if zeroCost == 0 then Unchanged
    else
      var forward := Forward(a, b, cfg, x, y);
      Decide(cfg.blockSize, x, y, zeroCost, forward, Backward(a, b, cfg, x, y, forward))
  }

  /** Two frames of one size whose cells the index arithmetic can address. */
  predicate Paired(a: Image, b: Image) {
    a.width == b.width && a.height == b.height && 0 < a.width && Rows(a.height, a.width) <= MAX_CELLS
  }

  /** The guard before the backward search is always true. */
  lemma ForwardStaysInside(a: Image, b: Image, cfg: Config, x: nat, y: nat)
    requires Paired(a, b) && Normalized(cfg) && Fits(a, x, y, cfg.blockSize)
    ensures var m := Forward(a, b, cfg, x, y);
      && Fits(b, x + m.dx, y + m.dy, cfg.blockSize)
      && (m.ties > 0 ==> m.best == Cost(a, x, y, b, x + m.dx, y + m.dy, cfg.blockSize))
  {
    var block := Block(a, x, y, cfg.blockSize);
    var (cdx, cdy) := CoarseCentre(block, b, cfg);
    RefinedInBounds(block, b, cdx, cdy, cfg.refinementRadius);
  }

  /** An accepted match is never the zero vector, and its block stays inside the frame. */
  lemma MovedBlocksMove(a: Image, b: Image, cfg: Config, x: nat, y: nat)
    requires Paired(a, b) && Normalized(cfg) && Fits(a, x, y, cfg.blockSize)
    ensures Judge(a, b, cfg, x, y) != Still
    ensures Judge(a, b, cfg, x, y).Moved? ==>
              var m := Judge(a, b, cfg, x, y).motion;
              && m.x == x && m.y == y && m.size == cfg.blockSize
              && StaysInside(m, a.width, a.height) && (m.dx != 0 || m.dy != 0)
              && Cost(a, x, y, b, x + m.dx, y + m.dy, m.size) * 4 < Cost(a, x, y, b, x, y, m.size) * 3
  {
    ForwardStaysInside(a, b, cfg, x, y);
  }

  // ----- The block grid ----------------------------------------------------------------

  type Judgement = (nat, nat) -> Verdict

  function JudgeOf(a: Image, b: Image, cfg: Config): Judgement
    requires Normalized(cfg)
  {
    (x: nat, y: nat) => Judge(a, b, cfg, x, y)
  }

  /** A `width` by `height` frame cut into blocks of `size` pixels. */
  datatype Grid = Grid(width: nat, height: nat, size: nat)

  function GridOf(a: Image, cfg: Config): (g: Grid)
    requires Normalized(cfg)
    ensures g.size > 0
  {
    Grid(a.width, a.height, cfg.blockSize)
  }

  /** The motions found from grid cell (`x`, `y`) on, in scan order. */
  function MotionsFrom(g: Grid, judge: Judgement, x: nat, y: nat): seq<MotionBlock>
    requires g.size > 0
    decreases g.height - y, g.width - x
  {
    if y + g.size > g.height then []
    else if x + g.size > g.width then MotionsFrom(g, judge, 0, y + g.size)
    else
      var v := judge(x, y);
      (if v.Moved? then [v.motion] else []) + MotionsFrom(g, judge, x + g.size, y)
  }

  function HeldFrom(g: Grid, judge: Judgement, x: nat, y: nat): nat
    requires g.size > 0
    decreases g.height - y, g.width - x
  {
    if y + g.size > g.height then 0
    else if x + g.size > g.width then HeldFrom(g, judge, 0, y + g.size)
    else (if judge(x, y).Held? then 1 else 0) + HeldFrom(g, judge, x + g.size, y)
  }

  /** How many full grid blocks differ between A and B. */
  function ChangedFrom(g: Grid, judge: Judgement, x: nat, y: nat): nat
    requires g.size > 0
    decreases g.height - y, g.width - x
  {
    if y + g.size > g.height then 0
    else if x + g.size > g.width then ChangedFrom(g, judge, 0, y + g.size)
    else (if judge(x, y).Unchanged? then 0 else 1) + ChangedFrom(g, judge, x + g.size, y)
  }

  function Motions(a: Image, b: Image, cfg: Config): seq<MotionBlock>
    requires Normalized(cfg)
  {
    MotionsFrom(GridOf(a, cfg), JudgeOf(a, b, cfg), 0, 0)
  }

  function HeldBlocks(a: Image, b: Image, cfg: Config): nat
    requires Normalized(cfg)
  {
    HeldFrom(GridOf(a, cfg), JudgeOf(a, b, cfg), 0, 0)
  }

  function ChangedBlocks(a: Image, b: Image, cfg: Config): nat
    requires Normalized(cfg)
  {
    ChangedFrom(GridOf(a, cfg), JudgeOf(a, b, cfg), 0, 0)
  }

  /** No full block is accepted with a zero vector. */
  ghost predicate NeverStill(g: Grid, judge: Judgement) {
    forall x: nat, y: nat {:trigger judge(x, y)} :: x + g.size <= g.width && y + g.size <= g.height ==>
          judge(x, y) != Still
  }

  lemma {:induction false} AccountFrom(g: Grid, judge: Judgement, x: nat, y: nat)
    requires g.size > 0 && NeverStill(g, judge)
    ensures |MotionsFrom(g, judge, x, y)| + HeldFrom(g, judge, x, y) == ChangedFrom(g, judge, x, y)
    decreases g.height - y, g.width - x
  {
    if y + g.size <= g.height {
      if x + g.size > g.width {
        AccountFrom(g, judge, 0, y + g.size);
      } else {
        AccountFrom(g, judge, x + g.size, y);
      }
    }
  }

  /** Block accounting: moved and held blocks are exactly the full blocks that changed. */
  lemma BlocksAreAccounted(a: Image, b: Image, cfg: Config)
    requires Paired(a, b) && Normalized(cfg)
    ensures |Motions(a, b, cfg)| + HeldBlocks(a, b, cfg) == ChangedBlocks(a, b, cfg)
  {
    var g, judge := GridOf(a, cfg), JudgeOf(a, b, cfg);
    forall x: nat, y: nat | x + g.size <= g.width && y + g.size <= g.height
      ensures judge(x, y) != Still
    {
      MovedBlocksMove(a, b, cfg, x, y);
    }
    AccountFrom(g, judge, 0, 0);
  }

  /** A full block counts as changed exactly when some pixel of it differs. */
  lemma UnchangedIffSameBlock(a: Image, b: Image, cfg: Config, x: nat, y: nat)
    requires Normalized(cfg)
    ensures JudgeOf(a, b, cfg)(x, y).Unchanged? <==> SameBlock(a, x, y, b, x, y, cfg.blockSize, cfg.blockSize)
  {
    CostZeroIffEqual(a, x, y, b, x, y, cfg.blockSize);
  }

  method SearchBack(a: Image, b: Image, cfg: Config, x: nat, y: nat, forward: Match) returns (backward: Match)
    requires Normalized(cfg)
    ensures backward == Backward(a, b, cfg, x, y, forward)
  {
    backward := NO_MATCH;
    if Fits(b, x + forward.dx, y + forward.dy, cfg.blockSize) {
      backward := HierarchicalSearch(Block(b, x + forward.dx, y + forward.dy, cfg.blockSize), a, cfg);
    }
  }

  lemma JudgeIs(a: Image, b: Image, cfg: Config, x: nat, y: nat, zeroCost: nat, forward: Match, backward: Match)
    requires Normalized(cfg) && zeroCost == Cost(a, x, y, b, x, y, cfg.blockSize)
    requires zeroCost != 0 ==> forward == Forward(a, b, cfg, x, y) && backward == Backward(a, b, cfg, x, y, forward)
    ensures Judge(a, b, cfg, x, y)
         == if zeroCost == 0 then Unchanged else Decide(cfg.blockSize, x, y, zeroCost, forward, backward)
  {
  }

  method JudgeBlock(a: Image, b: Image, cfg: Config, x: nat, y: nat) returns (v: Verdict)
    requires Normalized(cfg) && a.width == b.width && a.height == b.height && Fits(a, x, y, cfg.blockSize)
    ensures v == Judge(a, b, cfg, x, y)
  {
    var zeroCost := BlockCost(a, x, y, b, x, y, cfg.blockSize);
    if zeroCost == 0 {
      JudgeIs(a, b, cfg, x, y, zeroCost, NO_MATCH, NO_MATCH);
      return Unchanged;
    }
    var forward := HierarchicalSearch(Block(a, x, y, cfg.blockSize), b, cfg);
    var backward := SearchBack(a, b, cfg, x, y, forward);
    JudgeIs(a, b, cfg, x, y, zeroCost, forward, backward);
    v := Decide(cfg.blockSize, x, y, zeroCost, forward, backward);
  }

  /** What the grid loop has collected so far. */
  datatype Tally = Tally(motions: seq<MotionBlock>, held: nat, unsafePixels: nat)

  /** `t` and the grid from (`x`, `y`) on add up to the whole grid. */
  ghost predicate AddsUp(g: Grid, judge: Judgement, t: Tally, x: nat, y: nat)
    requires g.size > 0
  {
    && t.motions + MotionsFrom(g, judge, x, y) == MotionsFrom(g, judge, 0, 0)
    && t.held + HeldFrom(g, judge, x, y) == HeldFrom(g, judge, 0, 0)
    && t.unsafePixels == Rows(t.held, Rows(g.size, g.size))
  }

  function Tallied(t: Tally, v: Verdict, blockPixels: nat): Tally {
    match v
    case Held => t.(unsafePixels := t.unsafePixels + blockPixels, held := t.held + 1)
    case Moved(m) => t.(motions := t.motions + [m])
    case _ => t
  }

  lemma AppendMotion(ms: seq<MotionBlock>, head: seq<MotionBlock>, rest: seq<MotionBlock>)
    ensures ms + (head + rest) == (ms + head) + rest && ms + [] == ms
  {
  }

  lemma TallyStep(g: Grid, judge: Judgement, t: Tally, x: nat, y: nat)
    requires g.size > 0 && x + g.size <= g.width && y + g.size <= g.height && AddsUp(g, judge, t, x, y)
    ensures AddsUp(g, judge, Tallied(t, judge(x, y), Rows(g.size, g.size)), x + g.size, y)
  {
    var v := judge(x, y);
    AppendMotion(t.motions, if v.Moved? then [v.motion] else [], MotionsFrom(g, judge, x + g.size, y));
  }

  /** Add one verdict to the tally. */
  method TallyCell(v: Verdict, pixels: nat, x: nat, y: nat, t0: Tally, ghost g: Grid, ghost judge: Judgement)
    returns (t: Tally)
    requires g.size > 0 && x + g.size <= g.width && y + g.size <= g.height && AddsUp(g, judge, t0, x, y)
    requires v == judge(x, y) && pixels == Rows(g.size, g.size)
    ensures AddsUp(g, judge, t, x + g.size, y)
  {
    TallyStep(g, judge, t0, x, y);
    t := Tallied(t0, v, pixels);
  }

  method ScanCell(a: Image, b: Image, cfg: Config, x: nat, y: nat, t0: Tally, ghost g: Grid, ghost judge: Judgement)
    returns (t: Tally)
    requires Normalized(cfg) && a.width == b.width && a.height == b.height && Fits(a, x, y, cfg.blockSize)
    requires g.size == cfg.blockSize && x + g.size <= g.width && y + g.size <= g.height
    requires judge(x, y) == Judge(a, b, cfg, x, y) && AddsUp(g, judge, t0, x, y)
    ensures AddsUp(g, judge, t, x + cfg.blockSize, y)
  {
    var v := JudgeBlock(a, b, cfg, x, y);
    t := TallyCell(v, Rows(cfg.blockSize, cfg.blockSize), x, y, t0, g, judge);
  }

  /** A judgement that gives the verdict of the search at (`x`, `y`). */
  ghost predicate IsRight(judge: Judgement, a: Image, b: Image, cfg: Config, x: nat, y: nat)
    requires Normalized(cfg)
  {
    judge(x, y) == Judge(a, b, cfg, x, y)
  }

  ghost predicate AlwaysRight(judge: Judgement, a: Image, b: Image, cfg: Config)
    requires Normalized(cfg)
  {
    forall x: nat, y: nat {:trigger IsRight(judge, a, b, cfg, x, y)} :: IsRight(judge, a, b, cfg, x, y)
  }

  method ScanGridRow(a: Image, b: Image, cfg: Config, y: nat, t0: Tally, ghost g: Grid, ghost judge: Judgement)
    returns (t: Tally)
    requires Normalized(cfg) && a.width == b.width && a.height == b.height && y + cfg.blockSize <= a.height
    requires g == GridOf(a, cfg) && AlwaysRight(judge, a, b, cfg) && AddsUp(g, judge, t0, 0, y)
    ensures AddsUp(g, judge, t, 0, y + cfg.blockSize)
  {
    t := t0;
    var x := 0;
    while x + cfg.blockSize <= a.width
      invariant AddsUp(g, judge, t, x, y)
    {
      assert IsRight(judge, a, b, cfg, x, y);
      t := ScanCell(a, b, cfg, x, y, t, g, judge);
      x := x + cfg.blockSize;
    }
  }

  method ScanGrid(a: Image, b: Image, cfg: Config, ghost g: Grid, ghost judge: Judgement) returns (t: Tally)
    requires Normalized(cfg) && a.width == b.width && a.height == b.height
    requires g == GridOf(a, cfg) && AlwaysRight(judge, a, b, cfg)
    ensures t.motions == MotionsFrom(g, judge, 0, 0) && t.held == HeldFrom(g, judge, 0, 0)
    ensures t.unsafePixels == Rows(t.held, Rows(g.size, g.size))
  {
    t := Tally([], 0, 0);
    AppendMotion([], [], MotionsFrom(g, judge, 0, 0));
    var y := 0;
    while y + cfg.blockSize <= a.height
      invariant AddsUp(g, judge, t, 0, y)
    {
      t := ScanGridRow(a, b, cfg, y, t, g, judge);
      y := y + cfg.blockSize;
    }
  }

  method FindMotions(a: Image, b: Image, cfg: Config) returns (t: Tally)
    requires Normalized(cfg) && a.width == b.width && a.height == b.height
    ensures t.motions == Motions(a, b, cfg)
    ensures t.held == HeldBlocks(a, b, cfg)
    ensures t.unsafePixels == Rows(t.held, Rows(cfg.blockSize, cfg.blockSize))
  {
    t := ScanGrid(a, b, cfg, GridOf(a, cfg), JudgeOf(a, b, cfg));
  }

  predicate IsGridCell(g: Grid, x: nat, y: nat)
    requires g.size > 0
  {
    Col(g.size, x) == 0 && Col(g.size, y) == 0 && x + g.size <= g.width && y + g.size <= g.height
  }

  lemma {:induction false} NextGridLine(size: nat, x: nat, g: nat)
    requires size > 0 && Col(size, x) == 0 && Col(size, g) == 0 && x < g
    ensures x + size <= g && Col(size, x + size) == 0
  {
    if x >= size {
      NextGridLine(size, x - size, g - size);
    }
  }

  /** Some full grid cell from (`x`, `y`) on, in scan order, moves as `m`. */
  ghost predicate MovesFrom(g: Grid, judge: Judgement, x: nat, y: nat, m: MotionBlock)
    requires g.size > 0
  {
    exists gx: nat, gy: nat :: IsGridCell(g, gx, gy) && (y < gy || (y == gy && x <= gx)) && judge(gx, gy) == Moved(m)
  }

  lemma {:induction false} GridFromIsExact(g: Grid, judge: Judgement, x: nat, y: nat, m: MotionBlock)
    requires g.size > 0 && Col(g.size, x) == 0 && Col(g.size, y) == 0
    ensures m in MotionsFrom(g, judge, x, y) <==> MovesFrom(g, judge, x, y, m)
    decreases g.height - y, g.width - x
  {
    if y + g.size > g.height {
    } else if x + g.size > g.width {
      GridFromIsExact(g, judge, 0, y + g.size, m);
      if MovesFrom(g, judge, x, y, m) {
        var gx: nat, gy: nat :| IsGridCell(g, gx, gy) && (y < gy || (y == gy && x <= gx)) && judge(gx, gy) == Moved(m);
        NextGridLine(g.size, y, gy);
      }
    } else {
      GridFromIsExact(g, judge, x + g.size, y, m);
      if MovesFrom(g, judge, x, y, m) {
        var gx: nat, gy: nat :| IsGridCell(g, gx, gy) && (y < gy || (y == gy && x <= gx)) && judge(gx, gy) == Moved(m);
        if gy == y && gx > x {
          NextGridLine(g.size, x, gx);
        }
      }
      if judge(x, y) == Moved(m) {
        assert IsGridCell(g, x, y);
      }
    }
  }

  /** The warp moves exactly the full grid blocks whose match passes every gate. */
  lemma MotionsAreAcceptedBlocks(a: Image, b: Image, cfg: Config, m: MotionBlock)
    requires Normalized(cfg)
    ensures m in Motions(a, b, cfg) <==>
              exists x: nat, y: nat :: IsGridCell(GridOf(a, cfg), x, y) && JudgeOf(a, b, cfg)(x, y) == Moved(m)
  {
    GridFromIsExact(GridOf(a, cfg), JudgeOf(a, b, cfg), 0, 0, m);
  }

  /** Every moved block and its destination lie inside the frame, and it does move. */
  lemma MotionsStayInside(a: Image, b: Image, cfg: Config)
    requires Paired(a, b) && Normalized(cfg)
    ensures AllInside(Motions(a, b, cfg), a.width, a.height)
    ensures forall m :: m in Motions(a, b, cfg) ==> m.dx != 0 || m.dy != 0
  {
    forall m | m in Motions(a, b, cfg)
      ensures StaysInside(m, a.width, a.height) && (m.dx != 0 || m.dy != 0)
    {
      MotionsAreAcceptedBlocks(a, b, cfg, m);
      var x: nat, y: nat :| IsGridCell(GridOf(a, cfg), x, y) && JudgeOf(a, b, cfg)(x, y) == Moved(m);
      MovedBlocksMove(a, b, cfg, x, y);
    }
  }

  ghost predicate SamePixels(a: Image, b: Image, rows: nat) {
    forall x, y {:trigger a.at(x, y)} :: 0 <= x < a.width && 0 <= y < rows ==> a.at(x, y) == b.at(x, y)
  }

  lemma {:induction false} ObserveRowBounds(a: Image, b: Image, y: int, st: Stats, n: nat)
    requires st.sameSign <= st.changed && st.large <= st.changed
    ensures var r := ObserveRow(a, b, y, st, n);
      && st.changed <= r.changed <= st.changed + n
      && r.sameSign <= r.changed && r.large <= r.changed
      && (r.changed == st.changed <==>
            forall x {:trigger a.at(x, y)} :: 0 <= x < n ==> a.at(x, y) == b.at(x, y))
  {
    if n > 0 {
      ObserveRowBounds(a, b, y, st, n - 1);
    }
  }

  /** Frames count as unchanged exactly when every pixel agrees. */
  lemma {:induction false} UnchangedIffSame(a: Image, b: Image, rows: nat)
    ensures var st := ObserveRows(a, b, rows);
      && st.changed <= Rows(rows, a.width) && st.sameSign <= st.changed && st.large <= st.changed
      && (st.changed == 0 <==> SamePixels(a, b, rows))
  {
    if rows > 0 {
      UnchangedIffSame(a, b, rows - 1);
      ObserveRowBounds(a, b, rows - 1, ObserveRows(a, b, rows - 1), a.width);
    }
  }

  lemma {:induction false} NothingChangedFrom(g: Grid, judge: Judgement, x: nat, y: nat)
    requires g.size > 0
    requires forall u: nat, v: nat {:trigger judge(u, v)} :: u + g.size <= g.width && v + g.size <= g.height ==>
               judge(u, v) == Unchanged
    ensures MotionsFrom(g, judge, x, y) == [] && HeldFrom(g, judge, x, y) == 0
    decreases g.height - y, g.width - x
  {
    if y + g.size <= g.height {
      if x + g.size > g.width {
        NothingChangedFrom(g, judge, 0, y + g.size);
      } else {
        NothingChangedFrom(g, judge, x + g.size, y);
      }
    }
  }

  /** Between two equal frames no block moves or is held, so the midpoint is A itself. */
  lemma SameFramesStay(a: Image, b: Image, cfg: Config, x: nat, y: nat, p: Pixel)
    requires Paired(a, b) && Normalized(cfg) && SamePixels(a, b, a.height) && x < a.width && y < a.height
    requires IsMidpoint(a, b, Motions(a, b, cfg), x, y, p)
    ensures Motions(a, b, cfg) == [] && HeldBlocks(a, b, cfg) == 0
    ensures p == a.at(x, y)
  {
    var g, judge := GridOf(a, cfg), JudgeOf(a, b, cfg);
    forall u: nat, v: nat | u + g.size <= g.width && v + g.size <= g.height
      ensures judge(u, v) == Unchanged
    {
      UnchangedIffSameBlock(a, b, cfg, u, v);
    }
    NothingChangedFrom(g, judge, 0, 0);
  }

  // ----- The midpoint ------------------------------------------------------------------

  function Ratio(n: nat, d: nat): real
    requires d > 0
  {
    n as real / d as real
  }

  /** The outcome of a valid call: which gate holds the frame, or that it is generated. */
  function Outcome(a: Image, b: Image, cfg: Config): (r: Result)
    requires Normalized(cfg) && Rows(a.height, a.width) > 0
    ensures r.generated <==> r.reason == NONE
    ensures r.reason != INVALID_INPUT
  {
    var pixels := Rows(a.height, a.width);
    var st := ObserveRows(a, b, a.height);
    var changed := Ratio(st.changed, pixels);
    if IsFlash(cfg, st, changed) then Result(false, FULL_FLASH, changed, 0.0, 0, 0)
    else if changed >= cfg.sceneCutRatio then Result(false, SCENE_CUT, changed, 0.0, 0, 0)
    else
      var moved, held := |Motions(a, b, cfg)|, HeldBlocks(a, b, cfg);
      var hidden := Ratio(Rows(held, Rows(cfg.blockSize, cfg.blockSize)), pixels);
      if hidden > cfg.unsafeRatioLimit then Result(false, UNSAFE_CONFIDENCE, changed, hidden, moved, held)
      else Result(true, NONE, changed, hidden, moved, held)
  }

  /** A writable view; `cells` is null for a null pointer. */
  datatype Target = Target(cells: array?<Pixel>, width: int, height: int, stride: int)

  predicate ValidTarget(t: Target) {
    t.cells != null && t.width > 0 && t.height > 0 && t.stride >= t.width
  }

  predicate ValidCall(a: View, b: View, t: Target) {
    && IsValid(a) && IsValid(b) && ValidTarget(t)
    && a.width == b.width && a.height == b.height && t.width == a.width && t.height == a.height
  }

  /** What the caller owes: views it declares valid are backed by enough memory. */
  predicate Backed(a: View, b: View, t: Target) {
    && (IsValid(a) ==> Readable(a))
    && (IsValid(b) ==> Readable(b))
    && (ValidTarget(t) ==> Writable(t.cells, t.width, t.height, t.stride))
  }

  /** Cell `i` of a strided buffer shows a pixel, rather than padding. */
  predicate Shows(t: Target, i: nat)
    requires t.stride > 0
  {
    Col(t.stride, i) < t.width && Row(t.stride, i) < t.height
  }

  lemma ImagesPair(a: View, b: View)
    requires Readable(a) && Readable(b) && a.width == b.width && a.height == b.height
    ensures Paired(ImageOf(a), ImageOf(b)) && Rows(a.height, a.width) > 0
  {
    RowsMono2(a.height, a.height, a.width, a.stride);
  }

  method InterpolateMidpoint(config: Config, a: View, b: View, output: Target) returns (result: Result)
    requires Backed(a, b, output)
    modifies output.cells
    ensures !ValidCall(a, b, output) ==>
              result == Result(false, INVALID_INPUT, 0.0, 0.0, 0, 0)
              && (output.cells != null ==> output.cells[..] == old(output.cells[..]))
    ensures ValidCall(a, b, output) ==> Rows(a.height, a.width) > 0
    ensures ValidCall(a, b, output) ==> result == Outcome(ImageOf(a), ImageOf(b), Normalize(config))
    ensures ValidCall(a, b, output) ==>
              forall i :: 0 <= i < output.cells.Length && !Shows(output, i) ==> output.cells[i] == old(output.cells[i])
    ensures ValidCall(a, b, output) && !result.generated ==>
              forall i :: 0 <= i < output.cells.Length && Shows(output, i) ==>
                output.cells[i] == ImageOf(a).at(Col(output.stride, i), Row(output.stride, i))
    ensures ValidCall(a, b, output) && result.generated ==>
              forall i :: 0 <= i < output.cells.Length && Shows(output, i) ==>
                IsMidpoint(ImageOf(a), ImageOf(b), Motions(ImageOf(a), ImageOf(b), Normalize(config)),
                           Col(output.stride, i), Row(output.stride, i), output.cells[i])
  {
    if !ValidCall(a, b, output) {
      return Result(false, INVALID_INPUT, 0.0, 0.0, 0, 0);
    }
    ImagesPair(a, b);
    result := MidpointOf(ImageOf(a), ImageOf(b), Normalize(config), output.cells, output.stride);
  }

  method MidpointOf(a: Image, b: Image, cfg: Config, cells: array<Pixel>, stride: nat) returns (result: Result)
    requires Paired(a, b) && Normalized(cfg) && Rows(a.height, a.width) > 0
    requires Writable(cells, a.width, a.height, stride)
    modifies cells
    ensures result == Outcome(a, b, cfg)
    ensures forall i :: 0 <= i < cells.Length ==>
              if !(Col(stride, i) < a.width && Row(stride, i) < a.height) then cells[i] == old(cells[i])
              else if result.generated
              then IsMidpoint(a, b, Motions(a, b, cfg), Col(stride, i), Row(stride, i), cells[i])
              else cells[i] == a.at(Col(stride, i), Row(stride, i))
  {
    CopyFrame(a, cells, stride);
    var pixels := Rows(a.height, a.width);
    var st := ObserveFrames(a, b);
    var changed := Ratio(st.changed, pixels);
    if IsFlash(cfg, st, changed) {
      return Result(false, FULL_FLASH, changed, 0.0, 0, 0);
    }
    if changed >= cfg.sceneCutRatio {
      return Result(false, SCENE_CUT, changed, 0.0, 0, 0);
    }
    var t := FindMotions(a, b, cfg);
    MotionsStayInside(a, b, cfg);
    var hidden := Ratio(t.unsafePixels, pixels);
    if hidden > cfg.unsafeRatioLimit {
      CopyFrame(a, cells, stride);
      return Result(false, UNSAFE_CONFIDENCE, changed, hidden, |t.motions|, t.held);
    }
    WarpFrame(a, b, t.motions, cells, stride);
    result := Result(true, NONE, changed, hidden, |t.motions|, t.held);
  }
}
