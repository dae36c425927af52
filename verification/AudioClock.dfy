/**
 The audio clock of the emulator core: how many samples each frame gets, and the fraction
 of a sample carried from frame to frame and from call to call. Rates are exact ratios.
 */
module AudioClock {
  import opened Fractions

  datatype Mode = Unset | Ntsc | Pal

  datatype Clock = Clock(mode: Mode, remainder: real)

  datatype Code = OK | INVALID_PARAM | NOT_IMPLEMENTED | EMULATOR(result: int)

  const NO_CLOCK := Clock(Unset, 0.0)

  function Fps(mode: Mode): real {
    if mode == Pal then 50007.0 / 1000.0 else 150247.0 / 2500.0
  }

  function SamplesPerFrame(rate: nat, mode: Mode): real {
    rate as real / Fps(mode)
  }

  /** What a save stores and a load accepts: no mode means no remainder. */
  predicate ValidClock(c: Clock) {
    0.0 <= c.remainder < 1.0 && (c.mode == Unset ==> c.remainder == 0.0)
  }

  /** The remainder a call starts from: a change of mode drops it. */
  function StartOf(c: Clock, mode: Mode): real {
    if c.mode == mode then c.remainder else 0.0
  }

  method SamplesForNextFrame(rate: nat, fps: real, remainder: real) returns (whole: int, next: real)
    requires fps > 0.0
    ensures whole as real + next == rate as real / fps + remainder && 0.0 <= next < 1.0
    ensures remainder >= 0.0 ==> whole >= 0
  {
    var exact := rate as real / fps + remainder;
    assert rate as real / fps >= 0.0;
    whole := exact.Floor;
    next := exact - whole as real;
  }

  // ----- One call ----------------------------------------------------------------------

  /** Frame number k of the call gets at least one sample and fits the buffer. */
  predicate FrameRuns(start: real, x: real, cap: nat, k: nat) {
    Given(start, x, k) < Given(start, x, k + 1) <= cap
  }

  /**
   What a call that starts from `start` does with `maxFrames` and `cap`: it runs the first
   n frames, all that can run, and keeps the exact fraction. `n` counts the frames the
   emulator executed; `frames` and `samples` are what the caller is told.
   */
  ghost predicate Runs(
      start: real, x: real, maxFrames: nat, cap: nat, n: nat, bad: bool, frames: nat, samples: nat, kept: real) {
    && n <= maxFrames
    && (forall k {:trigger FrameRuns(start, x, cap, k)} :: 0 <= k < n ==> FrameRuns(start, x, cap, k))
    && (n < maxFrames ==> !FrameRuns(start, x, cap, n))
    && kept == Frac(start + Times(n, x))
    && (bad <==> n < maxFrames && Given(start, x, n) == Given(start, x, n + 1))
    && (if bad then frames == 0 && samples == 0 else frames == n && samples == Given(start, x, n))
  }

  /** The last emulator result that was not OK, or OK. */
  function LastResult(outcome: nat -> int, n: nat): int {
    if n == 0 then 0 else if outcome(n - 1) != 0 then outcome(n - 1) else LastResult(outcome, n - 1)
  }

  lemma {:induction false} LastResultIs(outcome: nat -> int, n: nat)
    ensures LastResult(outcome, n) == 0 <==> forall k: nat :: k < n ==> outcome(k) == 0
    ensures LastResult(outcome, n) != 0 ==> exists k: nat :: k < n && IsLastFailure(outcome, k, n)
  {
    if n > 0 {
      LastResultIs(outcome, n - 1);
      if outcome(n - 1) != 0 {
        assert IsLastFailure(outcome, n - 1, n);
      } else if LastResult(outcome, n) != 0 {
        var k: nat :| k < n - 1 && IsLastFailure(outcome, k, n - 1);
        assert IsLastFailure(outcome, k, n);
      }
    }
  }

  /** Frame `k` gave the result of the call, and no later frame of the `n` changed it. */
  ghost predicate IsLastFailure(outcome: nat -> int, k: nat, n: nat) {
    && outcome(k) != 0 && LastResult(outcome, n) == outcome(k)
    && forall j: nat :: k < j < n ==> outcome(j) == 0
  }

  class Core {
    var sampleRate: nat
    var mode: Mode
    var remainder: real
    var frameSequence: nat

    function Now(): Clock
      reads this
    {
      Clock(mode, remainder)
    }

    constructor (rate: nat)
      ensures sampleRate == rate && Now() == NO_CLOCK && frameSequence == 0
    {
      sampleRate, mode, remainder, frameSequence := rate, Unset, 0.0, 0;
    }

    /**
     `outcome(k)` is what the emulator returns for frame k; a result below zero is a failure.
     `frames0` and `samples0` are what the caller's counts hold; a call without a buffer leaves them.
     */
    method RunFrames(
        machine: Mode, maxFrames: nat, hasBuffer: bool, cap: nat, outcome: nat -> int, frames0: nat, samples0: nat)
      returns (code: Code, frames: nat, samples: nat)
      requires machine != Unset && ValidClock(Now())
      modifies this
      ensures sampleRate == old(sampleRate) && ValidClock(Now())
      ensures !hasBuffer || cap == 0 ==> code == INVALID_PARAM && frames == frames0 && samples == samples0
      ensures !hasBuffer || cap == 0 ==> Now() == old(Now()) && frameSequence == old(frameSequence)
      ensures hasBuffer && cap > 0 ==> mode == machine && old(frameSequence) <= frameSequence
      ensures hasBuffer && cap > 0 ==> Runs(StartOf(old(Now()), machine), SamplesPerFrame(sampleRate, machine),
                maxFrames, cap, frameSequence - old(frameSequence), code == INVALID_PARAM, frames, samples, remainder)
      ensures hasBuffer && cap > 0 && code != INVALID_PARAM ==>
                code == if LastResult(outcome, frames) < 0 then EMULATOR(LastResult(outcome, frames)) else OK
    {
      if !hasBuffer || cap == 0 {
        return INVALID_PARAM, frames0, samples0;
      }
      if mode != machine {
        mode := machine;
        remainder := 0.0;
      }
      code, frames, samples := RunLoop(machine, maxFrames, cap, outcome);
    }

    method RunLoop(machine: Mode, maxFrames: nat, cap: nat, outcome: nat -> int)
      returns (code: Code, frames: nat, samples: nat)
      requires mode == machine && 0.0 <= remainder < 1.0
      modifies this`remainder, this`frameSequence
      ensures 0.0 <= remainder < 1.0 && old(frameSequence) <= frameSequence
      ensures Runs(old(remainder), SamplesPerFrame(sampleRate, machine), maxFrames, cap,
                frameSequence - old(frameSequence), code == INVALID_PARAM, frames, samples, remainder)
      ensures code != INVALID_PARAM ==>
                code == if LastResult(outcome, frames) < 0 then EMULATOR(LastResult(outcome, frames)) else OK
    {
      ghost var start, x := remainder, SamplesPerFrame(sampleRate, machine);
      FloorIs(start, 0);
      var written, i, last := 0, 0, 0;
      while i < maxFrames
        invariant 0 <= i <= maxFrames && frameSequence == old(frameSequence) + i
        invariant written == Given(start, x, i) && 0 <= written <= cap
        invariant remainder == Frac(start + Times(i, x)) && 0.0 <= remainder < 1.0
        invariant forall k {:trigger FrameRuns(start, x, cap, k)} :: 0 <= k < i ==> FrameRuns(start, x, cap, k)
        invariant last == LastResult(outcome, i)
      {
        var perFrame, nextRemainder := SamplesForNextFrame(sampleRate, Fps(machine), remainder);
        StepSplits(start, x, i, perFrame, nextRemainder);
        if perFrame == 0 {
          return INVALID_PARAM, 0, 0;
        }
        if perFrame > cap - written {
          break;
        }
        if outcome(i) != 0 {
          last := outcome(i);
        }
        remainder := nextRemainder;
        frameSequence := frameSequence + 1;
        written := written + perFrame;
        i := i + 1;
      }
      frames, samples := i, written;
      code := if last < 0 then EMULATOR(last) else OK;
    }

    method SetAudioFormat(rate: nat, stereo: bool, kernel: int) returns (code: Code)
      requires ValidClock(Now())
      modifies this`sampleRate, this`remainder
      ensures code == OK <==> !stereo && 44100 <= rate <= 96000 && kernel >= 0
      ensures stereo ==> code == NOT_IMPLEMENTED
      ensures code == OK ==> sampleRate == rate && remainder == 0.0 && ValidClock(Now())
      ensures code != OK ==> sampleRate == old(sampleRate) && remainder == old(remainder)
    {
      if stereo {
        return NOT_IMPLEMENTED;
      }
      if rate < 44100 || rate > 96000 {
        return INVALID_PARAM;
      }
      if kernel < 0 {
        return EMULATOR(kernel);
      }
      sampleRate := rate;
      remainder := 0.0;
      code := OK;
    }

    /** Loading installs the saved clock only when the machine accepted the state. */
    method LoadClock(saved: Clock, result: int)
      requires ValidClock(saved) && ValidClock(Now())
      modifies this`mode, this`remainder
      ensures Now() == if result >= 0 then saved else old(Now())
      ensures ValidClock(Now())
    {
      if result >= 0 {
        remainder := saved.remainder;
        mode := saved.mode;
      }
    }
  }

  // ----- Sequences of calls ------------------------------------------------------------

  datatype Event =
    | Ran(machine: Mode, maxFrames: nat, cap: nat, executed: nat, bad: bool, frames: nat, samples: nat)
    | Formatted(rate: nat)
    | Loaded(saved: Clock)

  datatype State = State(rate: nat, clock: Clock)

  /** One successful call on the clock. A `Ran` event is what `RunFrames` promises. */
  ghost predicate Follows(s: State, e: Event, s': State) {
    match e
    case Ran(machine, maxFrames, cap, executed, bad, frames, samples) =>
      && machine != Unset && s'.rate == s.rate && s'.clock.mode == machine
      && Runs(StartOf(s.clock, machine), SamplesPerFrame(s.rate, machine), maxFrames, cap,
              executed, bad, frames, samples, s'.clock.remainder)
    case Formatted(rate) => 44100 <= rate <= 96000 && s' == State(rate, s.clock.(remainder := 0.0))
    case Loaded(saved) => ValidClock(saved) && s' == s.(clock := saved)
  }

  ghost predicate IsHistory(states: seq<State>, events: seq<Event>) {
    && |states| == |events| + 1
    && forall k {:trigger events[k]} :: 0 <= k < |events| ==> Follows(states[k], events[k], states[k + 1])
  }

  lemma FractionBounds(x: real)
    ensures 0.0 <= Frac(x) < 1.0
  {
  }

  /** The clock a save would store is acceptable to a load at every moment. */
  lemma {:induction false} ClockStaysValid(states: seq<State>, events: seq<Event>)
    requires IsHistory(states, events) && ValidClock(states[0].clock)
    ensures ValidClock(states[|events|].clock)
  {
    if events != [] {
      var n := |events| - 1;
      ClockStaysValid(states[..n + 1], events[..n]);
      assert Follows(states[n], events[n], states[n + 1]);
      if events[n].Ran? {
        var e := events[n];
        var start, x := StartOf(states[n].clock, e.machine), SamplesPerFrame(states[n].rate, e.machine);
        FractionBounds(start + Times(e.executed, x));
      }
    }
  }

  /** Only frame runs, all on one machine mode. */
  ghost predicate RunsOnly(events: seq<Event>, machine: Mode) {
    forall k :: 0 <= k < |events| ==> events[k].Ran? && events[k].machine == machine
  }

  function Frames(events: seq<Event>): nat {
    if events == [] then 0
    else Frames(events[..|events| - 1]) + (if events[|events| - 1].Ran? then events[|events| - 1].frames else 0)
  }

  function Samples(events: seq<Event>): nat {
    if events == [] then 0
    else Samples(events[..|events| - 1]) + (if events[|events| - 1].Ran? then events[|events| - 1].samples else 0)
  }

  /** At one sample a frame or more, no call is refused; below that, a call from a zero remainder always is. */
  lemma NeverRefusedIff(rate: nat, machine: Mode)
    ensures rate as real >= Fps(machine) <==>
      forall start: real {:trigger Given(start, SamplesPerFrame(rate, machine), 1)} :: 0.0 <= start < 1.0 ==>
            Given(start, SamplesPerFrame(rate, machine), 1) >= 1
  {
    var x := SamplesPerFrame(rate, machine);
    PerFrameAtLeastOne(rate, machine);
    forall start: real | 0.0 <= start < 1.0
      ensures Given(start, x, 1) == (start + x).Floor
    {
      assert Times(1, x) == Times(0, x) + x;
    }
    assert Given(0.0, x, 1) == (0.0 + x).Floor;
  }

  lemma PerFrameAtLeastOne(rate: nat, machine: Mode)
    ensures rate as real >= Fps(machine) <==> SamplesPerFrame(rate, machine) >= 1.0
  {
    assert SamplesPerFrame(rate, machine) * Fps(machine) == rate as real;
  }

  lemma NoBadFrame(start: real, x: real, n: nat)
    requires x >= 1.0
    ensures Given(start, x, n) < Given(start, x, n + 1)
  {
    GivenStep(start, x, n);
  }

  lemma RateNeverBad(start: real, x: real, e: Event, kept: real)
    requires x >= 1.0 && e.Ran? && Runs(start, x, e.maxFrames, e.cap, e.executed, e.bad, e.frames, e.samples, kept)
    ensures !e.bad && e.frames == e.executed && e.samples == Given(start, x, e.frames)
    ensures kept == Frac(start + Times(e.frames, x))
  {
    NoBadFrame(start, x, e.executed);
  }

  /** One more call of a machine that is already running continues the account. */
  lemma CallContinues(start: real, x: real, done: nat, given: nat, e: Event, kept: real)
    requires x >= 1.0 && given == Given(start, x, done) && e.Ran?
    requires Runs(Frac(start + Times(done, x)), x, e.maxFrames, e.cap, e.executed, e.bad, e.frames, e.samples, kept)
    ensures given + e.samples == Given(start, x, done + e.frames) && kept == Frac(start + Times(done + e.frames, x))
  {
    RateNeverBad(Frac(start + Times(done, x)), x, e, kept);
    GivenSplits(start, x, done, e.frames);
  }

  lemma FirstCall(start: real, x: real, e: Event, kept: real)
    requires x >= 1.0 && 0.0 <= start < 1.0 && e.Ran?
    requires Runs(start, x, e.maxFrames, e.cap, e.executed, e.bad, e.frames, e.samples, kept)
    ensures e.samples == Given(start, x, e.frames) && kept == Frac(start + Times(e.frames, x))
  {
    RateNeverBad(start, x, e, kept);
  }

  /**
   The samples handed out do not depend on how frames are split into calls, nor on the
   buffers: they are always floor(start + N * rate / fps), with the exact fraction kept.
   */
  lemma {:induction false} TotalsIgnoreSplitting(states: seq<State>, events: seq<Event>, machine: Mode)
    requires IsHistory(states, events) && ValidClock(states[0].clock) && RunsOnly(events, machine)
    requires machine != Unset && events != [] && states[0].rate as real >= Fps(machine)
    ensures var start, x := StartOf(states[0].clock, machine), SamplesPerFrame(states[0].rate, machine);
      && Samples(events) == Given(start, x, Frames(events))
      && states[|events|] == State(states[0].rate, Clock(machine, Frac(start + Times(Frames(events), x))))
  {
    var n := |events| - 1;
    var e := events[n];
    var start, x := StartOf(states[0].clock, machine), SamplesPerFrame(states[0].rate, machine);
    PerFrameAtLeastOne(states[0].rate, machine);
    assert Follows(states[n], e, states[n + 1]);
    if n == 0 {
      assert events[..0] == [];
      FirstCall(start, x, e, states[1].clock.remainder);
    } else {
      TotalsIgnoreSplitting(states[..n + 1], events[..n], machine);
      CallContinues(start, x, Frames(events[..n]), Samples(events[..n]), e, states[n + 1].clock.remainder);
    }
  }

  /** The frame rate as the ratio of two integers. */
  function Numerator(mode: Mode): nat {
    if mode == Pal then 50007 else 150247
  }

  function Denominator(mode: Mode): nat {
    if mode == Pal then 1000 else 2500
  }

  lemma {:induction false} TimesScaled(n: nat, x: real, num: nat, a: nat)
    requires x * num as real == a as real
    ensures Times(n, x) * num as real == (n * a) as real
  {
    if n > 0 {
      TimesScaled(n - 1, x, num, a);
      assert Times(n, x) * num as real == Times(n - 1, x) * num as real + x * num as real;
      assert n * a == (n - 1) * a + a;
    }
  }

  lemma ProductCasts(q: int, num: nat)
    ensures q as real * num as real == (q * num) as real
  {
  }

  lemma FloorOfQuotient(y: real, num: nat, a: nat)
    requires num > 0 && y * num as real == a as real
    ensures y.Floor == a / num
  {
    var q, k, f := a / num, num as real, y.Floor;
    assert q * num <= a < (q + 1) * num;
    ProductCasts(q, num);
    Unscale(q as real, y, k);
    if f > q {
      ProductCasts(q + 1, num);
      Scale((q + 1) as real, y, k);
      assert false;
    }
  }

  lemma PerFrameScaled(rate: nat, machine: Mode)
    ensures SamplesPerFrame(rate, machine) * Numerator(machine) as real == (rate * Denominator(machine)) as real
  {
  }

  /** From a zero remainder the total is N * rate / fps rounded down, in integer arithmetic. */
  lemma TotalFromZero(states: seq<State>, events: seq<Event>, machine: Mode)
    requires IsHistory(states, events) && RunsOnly(events, machine) && machine != Unset && events != []
    requires states[0].rate as real >= Fps(machine)
    requires ValidClock(states[0].clock) && (states[0].clock.mode != machine || states[0].clock.remainder == 0.0)
    ensures Samples(events) == Frames(events) * (states[0].rate * Denominator(machine)) / Numerator(machine)
  {
    TotalsIgnoreSplitting(states, events, machine);
    WholeTotal(states[0].rate, machine, Frames(events));
  }

  lemma WholeTotal(rate: nat, machine: Mode, n: nat)
    ensures Given(0.0, SamplesPerFrame(rate, machine), n) == n * (rate * Denominator(machine)) / Numerator(machine)
  {
    var x := SamplesPerFrame(rate, machine);
    PerFrameScaled(rate, machine);
    TimesScaled(n, x, Numerator(machine), rate * Denominator(machine));
    FloorOfQuotient(Times(n, x), Numerator(machine), n * (rate * Denominator(machine)));
  }

  /** A full buffer stops the call before the frame, and the same frame then runs next. */
  lemma FullBufferLosesNothing(s: State, e: Event, s': State, e': Event, s'': State)
    requires ValidClock(s.clock) && e.Ran? && e'.Ran? && e'.machine == e.machine
    requires s.rate as real >= Fps(e.machine) && Follows(s, e, s') && Follows(s', e', s'')
    requires e.frames < e.maxFrames && e'.frames > 0
    ensures var start, x := StartOf(s.clock, e.machine), SamplesPerFrame(s.rate, e.machine);
      e.cap < Given(start, x, e.frames + 1) && e.samples + e'.samples == Given(start, x, e.frames + e'.frames)
  {
    var start, x := StartOf(s.clock, e.machine), SamplesPerFrame(s.rate, e.machine);
    PerFrameAtLeastOne(s.rate, e.machine);
    RateNeverBad(start, x, e, s'.clock.remainder);
    RateNeverBad(s'.clock.remainder, x, e', s''.clock.remainder);
    NoBadFrame(start, x, e.executed);
    GivenSplits(start, x, e.frames, e'.frames);
  }

  // ----- Saving and loading ------------------------------------------------------------

  /** The same request, whatever came of it. */
  predicate SameRequest(e: Event, e': Event) {
    match e
    case Ran(machine, maxFrames, cap, _, _, _, _) =>
      e'.Ran? && e'.machine == machine && e'.maxFrames == maxFrames && e'.cap == cap
    case _ => e' == e
  }

  ghost predicate SameRequests(es: seq<Event>, es': seq<Event>) {
    |es| == |es'| && forall k :: 0 <= k < |es| ==> SameRequest(es[k], es'[k])
  }

  lemma RunsOnce(start: real, x: real, maxFrames: nat, cap: nat, n: nat, m: nat)
    requires n <= maxFrames && (n < maxFrames ==> !FrameRuns(start, x, cap, n))
    requires m <= maxFrames && forall k {:trigger FrameRuns(start, x, cap, k)} :: 0 <= k < m ==>
          FrameRuns(start, x, cap, k)
    ensures m <= n
  {
  }

  /** The clock alone decides what a call does. */
  lemma CallIsDetermined(s: State, e: Event, s': State, e': Event, s'': State)
    requires Follows(s, e, s') && Follows(s, e', s'') && SameRequest(e, e')
    ensures e' == e && s'' == s'
  {
    if e.Ran? {
      var start, x := StartOf(s.clock, e.machine), SamplesPerFrame(s.rate, e.machine);
      RunsOnce(start, x, e.maxFrames, e.cap, e.executed, e'.executed);
      RunsOnce(start, x, e.maxFrames, e.cap, e'.executed, e.executed);
    }
  }

  /** Two histories from equal states with the same requests are the same. */
  lemma {:induction false} HistoryIsDetermined(
      states: seq<State>, events: seq<Event>, states': seq<State>, events': seq<Event>)
    requires IsHistory(states, events) && IsHistory(states', events') && SameRequests(events, events')
    requires states'[0] == states[0]
    ensures events' == events && states' == states
  {
    if events != [] {
      var n := |events| - 1;
      HistoryIsDetermined(states[..n + 1], events[..n], states'[..n + 1], events'[..n]);
      assert states[n] == states[..n + 1][n] && states'[n] == states'[..n + 1][n];
      assert Follows(states[n], events[n], states[n + 1]) && Follows(states'[n], events'[n], states'[n + 1]);
      CallIsDetermined(states[n], events[n], states[n + 1], events'[n], states'[n + 1]);
      assert events == events[..n] + [events[n]] && events' == events'[..n] + [events'[n]];
      assert states == states[..n + 1] + [states[n + 1]] && states' == states'[..n + 1] + [states'[n + 1]];
    } else {
      assert states == [states[0]] && states' == [states'[0]];
    }
  }

  lemma SliceIsHistory(states: seq<State>, events: seq<Event>, i: nat, m: nat)
    requires IsHistory(states, events) && i + m <= |events|
    ensures IsHistory(states[i..i + m + 1], events[i..i + m])
  {
    var ss, es := states[i..i + m + 1], events[i..i + m];
    forall k | 0 <= k < |es|
      ensures Follows(ss[k], es[k], ss[k + 1])
    {
      assert es[k] == events[i + k];
    }
  }

  /**
   A save at moment i, loaded again at moment j of the same history, replays the future: the
   same m requests after the load get the frames and samples they got after the save.
   */
  lemma LoadReplaysTheFuture(states: seq<State>, events: seq<Event>, i: nat, j: nat, m: nat)
    requires IsHistory(states, events) && i <= j && j + 1 + m <= |events| && i + m <= |events|
    requires events[j] == Loaded(states[i].clock) && states[j].rate == states[i].rate
    requires SameRequests(events[i..i + m], events[j + 1..j + 1 + m])
    ensures events[j + 1..j + 1 + m] == events[i..i + m]
    ensures states[j + 1..j + 1 + m + 1] == states[i..i + m + 1]
  {
    assert Follows(states[j], events[j], states[j + 1]);
    SliceIsHistory(states, events, i, m);
    SliceIsHistory(states, events, j + 1, m);
    HistoryIsDetermined(states[i..i + m + 1], events[i..i + m], states[j + 1..j + 1 + m + 1], events[j + 1..j + 1 + m]);
  }

  // ----- Refused calls that ran frames -------------------------------------------------

  lemma FirstFrame(start: real, x: real)
    requires 0.0 <= start < 1.0 && x >= 0.0
    ensures Given(start, x, 0) == 0 && Given(start, x, 1) == (start + x).Floor
    ensures Given(start, x, 1) == 0 <==> start + x < 1.0
  {
    assert Times(1, x) == Times(0, x) + x;
    FloorIs(start, 0);
    if start + x < 1.0 {
      FloorIs(start + x, 0);
    }
  }

  /** A refused call ran no frame if and only if its first frame had no sample, which the caller can compute. */
  lemma RefusedRanNothingIff(
      start: real, x: real, maxFrames: nat, cap: nat, n: nat, frames: nat, samples: nat, kept: real)
    requires 0.0 <= start < 1.0 && x >= 0.0 && cap >= 1
    requires Runs(start, x, maxFrames, cap, n, true, frames, samples, kept)
    ensures n == 0 <==> start + x < 1.0
  {
    FirstFrame(start, x);
    if n > 0 {
      assert FrameRuns(start, x, cap, 0);
    }
  }

  /**
   Below one sample a frame a refused call may already have run frames: at 25 Hz on PAL
   from three quarters of a sample, one frame runs and the caller is told of none.
   */
  lemma RefusalHidesFrames()
    ensures var s := State(25, Clock(Pal, 0.75));
      exists s' :: Follows(s, Ran(Pal, 2, 10, 1, true, 0, 0), s') && ValidClock(s.clock)
  {
    var s := State(25, Clock(Pal, 0.75));
    var x := SamplesPerFrame(25, Pal);
    assert 0.49 < x < 0.5;
    assert Times(1, x) == x && Times(2, x) == Times(1, x) + x;
    FloorIs(0.75, 0);
    FloorIs(0.75 + Times(1, x), 1);
    FloorIs(0.75 + Times(2, x), 1);
    assert FrameRuns(0.75, x, 10, 0) && !FrameRuns(0.75, x, 10, 1);
    var s' := State(25, Clock(Pal, Frac(0.75 + Times(1, x))));
    assert Follows(s, Ran(Pal, 2, 10, 1, true, 0, 0), s');
  }

  /** Some call at this rate and mode is refused after it has run a frame. */
  ghost predicate CanHideFrames(rate: nat, machine: Mode) {
    exists c: Clock, e: Event, c': Clock :: HidesFrames(rate, c, e, c') && e.machine == machine
  }

  ghost predicate HidesFrames(rate: nat, c: Clock, e: Event, c': Clock) {
    && ValidClock(c) && e.Ran? && e.cap >= 1 && Follows(State(rate, c), e, State(rate, c'))
    && e.bad && e.executed > 0
  }

  lemma PerFrameSign(rate: nat, machine: Mode)
    ensures SamplesPerFrame(rate, machine) >= 0.0
    ensures SamplesPerFrame(rate, machine) == 0.0 <==> rate == 0
  {
  }

  lemma HidingNeedsLowRate(rate: nat, c: Clock, e: Event, c': Clock)
    requires HidesFrames(rate, c, e, c')
    ensures 0 < rate && (rate as real) < Fps(e.machine)
  {
    var start, x := StartOf(c, e.machine), SamplesPerFrame(rate, e.machine);
    PerFrameSign(rate, e.machine);
    PerFrameAtLeastOne(rate, e.machine);
    if x >= 1.0 {
      RateNeverBad(start, x, e, c'.remainder);
    }
    FirstFrame(start, x);
    RefusedRanNothingIff(start, x, e.maxFrames, e.cap, e.executed, e.frames, e.samples, c'.remainder);
  }

  /** From just short of a sample, the second frame is empty. */
  lemma SecondFrameEmpty(x: real)
    requires 0.0 < x < 1.0
    ensures Runs(1.0 - x, x, 2, 1, 1, true, 0, 0, 0.0)
  {
    var start := 1.0 - x;
    FirstFrame(start, x);
    assert Times(1, x) == x && Times(2, x) == Times(1, x) + x;
    FloorIs(start + Times(1, x), 1);
    FloorIs(start + Times(2, x), 1);
    assert FrameRuns(start, x, 1, 0) && !FrameRuns(start, x, 1, 1);
  }

  /** A refused call can hide frames it ran if and only if the rate is positive and below one sample a frame. */
  lemma CanHideFramesIff(rate: nat, machine: Mode)
    requires machine != Unset
    ensures CanHideFrames(rate, machine) <==> 0 < rate && (rate as real) < Fps(machine)
  {
    forall c: Clock, e: Event, c': Clock | HidesFrames(rate, c, e, c') && e.machine == machine
      ensures 0 < rate && (rate as real) < Fps(machine)
    {
      HidingNeedsLowRate(rate, c, e, c');
    }
    if 0 < rate && (rate as real) < Fps(machine) {
      var x := SamplesPerFrame(rate, machine);
      PerFrameSign(rate, machine);
      PerFrameAtLeastOne(rate, machine);
      SecondFrameEmpty(x);
      var e := Ran(machine, 2, 1, 1, true, 0, 0);
      assert HidesFrames(rate, Clock(machine, 1.0 - x), e, Clock(machine, 0.0));
    }
  }
}
