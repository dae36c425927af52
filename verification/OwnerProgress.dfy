/**
 Progress of the session owner: no wake-up is lost, nobody is left waiting when everything
 is quiet, and a shutdown ends.
 */
module OwnerProgress {
  import opened SessionOwner
  import opened OwnerInvariant
  import opened OwnerSteps
  import opened OwnerFrames
  import opened OwnerRuns

  // ----- Wake-ups ----------------------------------------------------------------------

  /** In every reachable state, a thread asleep on a condition that holds has a notification on its way. */
  lemma NoLostWakeup(r: Trace, k: nat, w: Waiter)
    requires IsRun(r) && k <= |r.labels| && w in r.states[k].cv.asleep && Wants(r.states[k], w)
    ensures IsOwed(r.states[k].cv)
  {
    RunInv(r, k);
    assert SleepersOk(r.states[k]);
  }

  /** Whoever owes a notification can give it, and then nobody is asleep. */
  lemma OwedRouses(s: State) returns (l: Label)
    requires IsOwed(s.cv)
    ensures (l == Notify || l == Tell) && Enabled(s, l) && Next(s, l).cv.asleep == {}
  {
    l := if s.cv.tell then Tell else Notify;
  }

  // ----- Quiet states ------------------------------------------------------------------

  /** The labels of the worker, its notifications included. */
  predicate IsWorkerStep(l: Label) {
    IsEarlyStep(l) || IsLateStep(l) || l.Tell?
  }

  /** What happens without a new call from outside: worker, owed releases and notifications, and woken waiters. */
  predicate IsInternal(l: Label) {
    IsWorkerStep(l) || l.Notify? || l.Check? || l.ReleaseDropped?
  }

  ghost predicate Quiet(s: State) {
    forall l :: IsInternal(l) ==> !Enabled(s, l)
  }

  lemma {:induction false} SomeOrder(ids: set<TimerId>) returns (order: seq<TimerId>)
    ensures forall id :: id in order <==> id in ids
    ensures Distinct(order)
  {
    if ids == {} {
      order := [];
    } else {
      var id :| id in ids;
      var rest := SomeOrder(ids - {id});
      order := rest + [id];
    }
  }

  lemma DrainCanMove(s: State) returns (l: Label)
    requires s.pc.Creating? || s.pc.Draining? || s.pc.Holding? || s.pc.Sampling?
    ensures IsEarlyStep(l) && EarlyEnabled(s, l)
  {
    match s.pc
    case Creating => l := CreateOk;
    case Draining(_, budget) => l := if budget > 0 && s.tasks != [] then Pop else DrainDone;
    case Holding(_, _, _) => l := RunPopped;
    case Sampling => l := SkipTimers;
  }

  lemma SweepCanMove(s: State) returns (l: Label)
    requires s.pc.Sweeping?
    ensures IsLateStep(l) && LateEnabled(s, l)
  {
    var order := SomeOrder(s.timers.Keys);
    l := Sweep(order);
  }

  lemma LoopCanMove(s: State) returns (l: Label)
    requires
      || s.pc.Firing? || s.pc.Selecting? || s.pc.Serving? || s.pc.Swept?
      || s.pc.Destroying? || s.pc.Sealing? || s.pc.Sealed?
    ensures IsLateStep(l) && LateEnabled(s, l)
  {
    match s.pc
    case Firing => l := if s.retired != [] then ReleaseRetired else if s.ready != [] then RunReady else Fired;
    case Selecting => l := Select;
    case Serving(_) => l := Serve(OK);
    case Swept => l := if s.retired != [] then ReleaseRetired else SweepDone;
    case Destroying => l := Destroy(true);
    case Sealing => l := Seal;
    case Sealed => l := if s.retired != [] then ReleaseRetired else Finish;
  }

  /** A worker that has neither exited nor gone to wait can take a step. */
  lemma WorkerCanMove(s: State) returns (l: Label)
    requires !s.pc.Exited? && !s.pc.Waiting?
    ensures IsWorkerStep(l) && Enabled(s, l)
  {
    if s.cv.tell {
      l := Tell;
    } else if s.pc.Creating? || s.pc.Draining? || s.pc.Holding? || s.pc.Sampling? {
      l := DrainCanMove(s);
    } else if s.pc.Sweeping? {
      l := SweepCanMove(s);
    } else {
      l := LoopCanMove(s);
    }
  }

  lemma QuietSignals(s: State)
    requires Quiet(s)
    ensures !IsOwed(s.cv) && s.dropping == {} && s.cv.waiting <= s.cv.asleep
  {
    assert IsInternal(Tell) && IsInternal(Notify);
    assert !Enabled(s, Tell) && !Enabled(s, Notify);
    forall t: Task
      ensures t !in s.dropping
    {
      assert IsInternal(ReleaseDropped(t)) && !Enabled(s, ReleaseDropped(t));
    }
    forall w: Waiter
      ensures w in s.cv.waiting ==> w in s.cv.asleep
    {
      assert IsInternal(Check(w)) && !Enabled(s, Check(w));
    }
  }

  lemma QuietWorker(s: State)
    requires Quiet(s) && SignalsOk(s)
    ensures s.pc.Exited? || (s.pc.Waiting? && !Wants(s, Worker))
  {
    QuietSignals(s);
    if !s.pc.Exited? && !s.pc.Waiting? {
      var l := WorkerCanMove(s);
      assert false;
    } else if s.pc.Waiting? {
      assert !Enabled(s, Recheck);
      assert Worker in s.cv.asleep;
    }
  }

  /**
   When nothing is left to happen, nobody is stuck: the worker has exited, or waits with
   nothing to do; every accepted call has returned its result; whoever waits for a start or
   an end that has come has been let go; and no displaced task is unreleased.
   */
  lemma QuietMeansServed(r: Trace, k: nat, c: CommandId, w: Waiter)
    requires IsRun(r) && k <= |r.labels| && Quiet(r.states[k])
    ensures var s := r.states[k];
      && (s.pc.Exited? || (s.pc.Waiting? && !s.closing && s.commands == [] && s.tasks == [] && s.timers == map[]))
      && (c < s.issued ==> c in s.results && Caller(c) !in s.cv.waiting)
      && (w in s.cv.waiting ==> !Wants(s, w))
      && s.dropping == {}
  {
    var s := r.states[k];
    RunInv(r, k);
    QuietSignals(s);
    QuietWorker(s);
    assert w in s.cv.waiting ==> w in s.cv.asleep;
    NoLostWhenQuiet(s, Caller(c));
    if c < s.issued {
      NoCallerLeftWaiting(r, k, c);
      CommandHasOnePlace(r, k, c);
    }
  }

  lemma NoLostWhenQuiet(s: State, w: Waiter)
    requires SleepersOk(s) && !IsOwed(s.cv) && s.cv.waiting <= s.cv.asleep
    ensures w in s.cv.waiting ==> !Wants(s, w)
  {
    assert w in s.cv.waiting ==> w in s.cv.asleep;
  }

  // ----- Shutdown ----------------------------------------------------------------------

  function DrainRank(phase: Phase): nat {
    match phase case Opening => 2400 case Looping => 2000 case Stopping => 800
  }

  function PcRank(pc: Pc, held: nat): nat {
    match pc
    case Creating => 2600
    case Draining(phase, budget) => DrainRank(phase) + 2 * budget
    case Holding(phase, budget, _) => DrainRank(phase) + 2 * budget + 1
    case Serving(_) => 2200
    case Waiting => 2150
    case Sampling => 1800
    case Firing => 1600 + held
    case Selecting => 1400
    case Sweeping => 1200
    case Swept => 1000 + held
    case Destroying => 600
    case Sealing => 400
    case Sealed => 200 + held
    case Exited => 0
  }

  /** How far the worker still has to go once closing is set. Calls from outside cannot raise it. */
  function Rank(s: State): nat {
    PcRank(s.pc, |s.retired| + |s.ready|) + (if s.cv.tell then 1 else 0)
  }

  ghost predicate BudgetOk(pc: Pc) {
    pc.Draining? || pc.Holding? ==> pc.budget <= CAPACITY
  }

  lemma EarlyBudget(s: State, l: Label)
    requires BudgetOk(s.pc) && Enabled(s, l) && IsEarlyStep(l)
    ensures BudgetOk(NextEarly(s, l).pc)
  {
    match l
    case CreateOk => assert NextEarly(s, l).pc == Draining(Opening, CAPACITY);
    case CreateFail => assert NextEarly(s, l).pc == Sealing;
    case Pop => assert DoPop(s).pc.budget < s.pc.budget;
    case RunPopped => assert DoRunPopped(s).pc.budget == s.pc.budget;
    case DrainDone => assert DoDrainDone(s).pc == AfterDrain(s.pc.phase);
    case SkipTimers => assert NextEarly(s, l).pc == Selecting;
    case Collect(sample, order) => assert DoCollect(s, sample, order).pc == Firing;
  }

  lemma LateBudget(s: State, l: Label)
    requires Enabled(s, l) && IsLateStep(l)
    ensures BudgetOk(NextLate(s, l).pc)
  {
  }

  lemma StepBudget(s: State, l: Label)
    requires BudgetOk(s.pc) && Enabled(s, l)
    ensures BudgetOk(Next(s, l).pc)
  {
    if IsPortStep(l) {
      PortFrame(s, l);
    } else if IsEarlyStep(l) {
      EarlyBudget(s, l);
    } else if IsLateStep(l) {
      LateBudget(s, l);
    }
  }

  lemma {:induction false} RunBudget(r: Trace, k: nat)
    requires IsRun(r) && k <= |r.labels|
    ensures BudgetOk(r.states[k].pc)
  {
    if k > 0 {
      RunBudget(r, k - 1);
      assert StepAt(r, k - 1);
      StepBudget(r.states[k - 1], r.labels[k - 1]);
    }
  }

  /** How one step moves the rank, by kind of step. */
  ghost predicate RankMoves(s: State, l: Label, s': State) {
    if !IsWorkerStep(l) then Rank(s') == Rank(s)
    else if l == Destroy(false) then Rank(s') <= Rank(s) + 1000
    else Rank(s') < Rank(s)
  }

  ghost predicate HeldOk(s: State) {
    |s.retired| + |s.ready| <= CAPACITY
  }

  lemma EarlyRank(s: State, l: Label)
    requires Enabled(s, l) && IsEarlyStep(l) && BudgetOk(s.pc) && HeldOk(NextEarly(s, l))
    ensures RankMoves(s, l, NextEarly(s, l))
  {
  }

  lemma LateRank(s: State, l: Label)
    requires Enabled(s, l) && IsLateStep(l) && HeldOk(s) && HeldOk(NextLate(s, l)) && s.closing
    ensures RankMoves(s, l, NextLate(s, l))
  {
    if l.Select? {
      assert NextLate(s, l).pc == Sweeping;
    }
  }

  lemma PortRank(s: State, l: Label)
    requires Enabled(s, l) && IsPortStep(l)
    ensures RankMoves(s, l, NextPort(s, l))
  {
    PortFrame(s, l);
    SameRank(s, NextPort(s, l));
  }

  lemma SameRank(s: State, s': State)
    requires SameWorker(s, s')
    ensures Rank(s') == Rank(s)
  {
  }

  lemma SignalRank(s: State, l: Label)
    requires Enabled(s, l) && IsSignalStep(l)
    ensures RankMoves(s, l, s.(cv := NextSignal(s, l)))
  {
  }

  lemma StepRank(s: State, l: Label)
    requires Enabled(s, l) && BudgetOk(s.pc) && HeldOk(s) && HeldOk(Next(s, l)) && s.closing
    ensures RankMoves(s, l, Next(s, l))
  {
    if IsPortStep(l) {
      PortRank(s, l);
    } else if IsSignalStep(l) {
      SignalRank(s, l);
    } else if IsEarlyStep(l) {
      EarlyRank(s, l);
    } else {
      LateRank(s, l);
    }
  }

  lemma RunHeld(r: Trace, k: nat)
    requires IsRun(r) && k <= |r.labels|
    ensures HeldOk(r.states[k])
  {
    RunInv(r, k);
  }

  lemma StepAtRank(r: Trace, k: nat)
    requires IsRun(r) && k < |r.labels| && r.states[k].closing
    ensures RankMoves(r.states[k], r.labels[k], r.states[k + 1])
  {
    RunHeld(r, k);
    RunHeld(r, k + 1);
    RunBudget(r, k);
    assert StepAt(r, k);
    StepRank(r.states[k], r.labels[k]);
  }

  function WorkerSteps(labels: seq<Label>): nat {
    if labels == [] then 0
    else WorkerSteps(labels[..|labels| - 1]) + (if IsWorkerStep(labels[|labels| - 1]) then 1 else 0)
  }

  function BusyDestroys(labels: seq<Label>): nat {
    if labels == [] then 0
    else BusyDestroys(labels[..|labels| - 1]) + (if labels[|labels| - 1] == Destroy(false) then 1 else 0)
  }

  lemma RankBound(s: State)
    requires HeldOk(s) && BudgetOk(s.pc)
    ensures Rank(s) <= 2601
  {
  }

  lemma StaysClosing(r: Trace, j: nat, k: nat)
    requires IsRun(r) && j <= k <= |r.labels| && r.states[j].closing
    ensures r.states[k].closing
  {
    RunGrows(r, j, k);
  }

  lemma CountsExtend(labels: seq<Label>, j: nat, k: nat)
    requires j < k <= |labels|
    ensures WorkerSteps(labels[j..k]) == WorkerSteps(labels[j..k - 1]) + (if IsWorkerStep(labels[k - 1]) then 1 else 0)
    ensures BusyDestroys(labels[j..k])
         == BusyDestroys(labels[j..k - 1]) + (if labels[k - 1] == Destroy(false) then 1 else 0)
  {
    assert labels[j..k][..k - j - 1] == labels[j..k - 1];
  }

  /** Worker steps between `j` and `k`, and those still to come, against the BUSY answers. */
  function Balance(r: Trace, j: nat, k: nat): int
    requires j <= k <= |r.labels| && |r.states| == |r.labels| + 1
  {
    WorkerSteps(r.labels[j..k]) + Rank(r.states[k]) - 1001 * BusyDestroys(r.labels[j..k])
  }

  lemma BalanceStart(r: Trace, j: nat)
    requires IsRun(r) && j <= |r.labels|
    ensures Balance(r, j, j) <= 2601
  {
    RunHeld(r, j);
    RunBudget(r, j);
    RankBound(r.states[j]);
    assert r.labels[j..j] == [];
  }

  lemma BalanceStep(r: Trace, j: nat, k: nat)
    requires IsRun(r) && j < k <= |r.labels| && r.states[j].closing
    ensures Balance(r, j, k) <= Balance(r, j, k - 1)
  {
    StaysClosing(r, j, k - 1);
    StepAtRank(r, k - 1);
    CountsExtend(r.labels, j, k);
  }

  lemma {:induction false} BalanceFalls(r: Trace, j: nat, k: nat)
    requires IsRun(r) && j <= k <= |r.labels| && r.states[j].closing
    ensures Balance(r, j, k) <= 2601
    decreases k - j
  {
    if j == k {
      BalanceStart(r, j);
    } else {
      BalanceFalls(r, j, k - 1);
      BalanceStep(r, j, k);
    }
  }

  /**
   Once shutdown was requested, the worker takes a bounded number of steps for each time
   the engine reports BUSY, however many calls other threads make meanwhile.
   */
  lemma ShutdownIsBounded(r: Trace, j: nat, k: nat)
    requires IsRun(r) && j <= k <= |r.labels| && r.states[j].closing
    ensures WorkerSteps(r.labels[j..k]) + Rank(r.states[k]) <= 2601 + 1001 * BusyDestroys(r.labels[j..k])
  {
    BalanceFalls(r, j, k);
  }

  /** Waiters that are awake and about to look at their condition. */
  function Awake(cv: Signals): nat {
    |cv.waiting - cv.asleep|
  }

  /** What is left to do before everything is quiet, if nobody calls and the engine is not BUSY. */
  function Chores(s: State): nat {
    Rank(s) + s.cv.owed + |s.dropping|
  }

  function Effort(s: State): nat {
    Chores(s) * (|s.cv.waiting| + 1) + Awake(s.cv)
  }

  lemma {:induction false} SubsetSize(a: set<Waiter>, b: set<Waiter>)
    requires a <= b
    ensures |a| <= |b|
  {
    if a != {} {
      var x :| x in a;
      SubsetSize(a - {x}, b - {x});
    }
  }

  lemma AwakeFits(cv: Signals)
    ensures Awake(cv) <= |cv.waiting|
  {
    SubsetSize(cv.waiting - cv.asleep, cv.waiting);
  }

  lemma ChoreDone(x: nat, x': nat, n: nat, a: nat, a': nat)
    requires x' < x && a' <= n
    ensures x' * (n + 1) + a' < x * (n + 1) + a
  {
    assert x' * (n + 1) + (n + 1) == (x' + 1) * (n + 1) <= x * (n + 1);
  }

  lemma CheckSize(cv: Signals, w: Waiter)
    requires w in cv.waiting && w !in cv.asleep
    ensures Awake(cv.(asleep := cv.asleep + {w})) < Awake(cv)
    ensures Awake(cv.(waiting := cv.waiting - {w})) < Awake(cv)
    ensures |cv.waiting - {w}| < |cv.waiting|
  {
    var awake := cv.waiting - cv.asleep;
    assert cv.waiting - (cv.asleep + {w}) == awake - {w};
    assert (cv.waiting - {w}) - cv.asleep == awake - {w};
    assert w in awake;
  }

  lemma CheckDone(x: nat, n: nat, n': nat, a: nat, a': nat)
    requires n' <= n && a' < a
    ensures x * (n' + 1) + a' < x * (n + 1) + a
  {
    assert x * (n' + 1) <= x * (n + 1);
  }

  lemma ChoreStep(s: State, l: Label)
    requires Enabled(s, l) && IsInternal(l) && !l.Check? && l != Destroy(false)
    requires RankMoves(s, l, Next(s, l))
    ensures Chores(Next(s, l)) < Chores(s) && Next(s, l).cv.waiting == s.cv.waiting
  {
    if IsEarlyStep(l) || IsLateStep(l) {
      WorkerFrame(s, l);
    }
  }

  lemma ChoreEffort(s: State, l: Label)
    requires Enabled(s, l) && IsInternal(l) && !l.Check? && l != Destroy(false) && RankMoves(s, l, Next(s, l))
    ensures Effort(Next(s, l)) < Effort(s)
  {
    var s' := Next(s, l);
    ChoreStep(s, l);
    AwakeFits(s'.cv);
    ChoreDone(Chores(s), Chores(s'), |s.cv.waiting|, Awake(s.cv), Awake(s'.cv));
  }

  lemma CheckEffort(s: State, w: Waiter)
    requires Enabled(s, Check(w))
    ensures Effort(s.(cv := NextSignal(s, Check(w)))) < Effort(s)
  {
    var s' := s.(cv := NextSignal(s, Check(w)));
    CheckSize(s.cv, w);
    CheckDone(Chores(s), |s.cv.waiting|, |s'.cv.waiting|, Awake(s.cv), Awake(s'.cv));
  }

  lemma InternalStepsDecrease(s: State, l: Label)
    requires Enabled(s, l) && IsInternal(l) && l != Destroy(false) && RankMoves(s, l, Next(s, l))
    ensures Effort(Next(s, l)) < Effort(s)
  {
    if l.Check? {
      CheckEffort(s, l.waiter);
    } else {
      ChoreEffort(s, l);
    }
  }

  lemma StepAtEffort(r: Trace, k: nat)
    requires IsRun(r) && k < |r.labels| && r.states[k].closing
    requires IsInternal(r.labels[k]) && r.labels[k] != Destroy(false)
    ensures Effort(r.states[k + 1]) < Effort(r.states[k])
  {
    StepAtRank(r, k);
    assert StepAt(r, k);
    InternalStepsDecrease(r.states[k], r.labels[k]);
  }

  /** Every condition holds once the worker has exited. */
  lemma ExitedWants(r: Trace, k: nat, w: Waiter)
    requires IsRun(r) && k <= |r.labels| && r.states[k].pc.Exited? && w in r.states[k].cv.waiting
    ensures Wants(r.states[k], w)
  {
    RunInv(r, k);
    if w.Caller? {
      NoCallerLeftWaiting(r, k, w.command);
    }
  }

  /** A quiet state with closing set is the end: the worker has exited and nobody waits. */
  lemma QuietShutdownIsOver(r: Trace, k: nat)
    requires IsRun(r) && k <= |r.labels| && r.states[k].closing && Quiet(r.states[k])
    ensures r.states[k].pc.Exited? && r.states[k].cv.waiting == {}
  {
    QuietMeansServed(r, k, 0, Worker);
    forall w | w in r.states[k].cv.waiting
      ensures false
    {
      QuietMeansServed(r, k, 0, w);
      ExitedWants(r, k, w);
    }
  }

  /**
   A shutdown ends: from any reachable state with closing set, as long as nobody calls and
   the engine is not BUSY, at most `Effort` steps are left; and where they stop the worker
   has exited and every caller and every closing thread has been let go.
   */
  lemma {:induction false} ShutdownEnds(r: Trace, j: nat, k: nat)
    requires IsRun(r) && j <= k <= |r.labels| && r.states[j].closing
    requires forall i {:trigger r.labels[i]} :: j <= i < k ==> IsInternal(r.labels[i]) && r.labels[i] != Destroy(false)
    ensures k - j + Effort(r.states[k]) <= Effort(r.states[j])
    ensures Quiet(r.states[k]) ==> r.states[k].pc.Exited? && r.states[k].cv.waiting == {}
    decreases k - j
  {
    StaysClosing(r, j, k);
    if Quiet(r.states[k]) {
      QuietShutdownIsOver(r, k);
    }
    if j < k {
      ShutdownEnds(r, j, k - 1);
      StaysClosing(r, j, k - 1);
      StepAtEffort(r, k - 1);
    }
  }
}
