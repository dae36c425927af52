/**
 Whole runs of the session owner: linear ownership of tasks, exactly one result per
 command, and a shutdown that ends.
 */
module OwnerRuns {
  import opened SessionOwner
  import opened OwnerInvariant
  import opened OwnerSteps
  import opened OwnerFrames

  datatype Trace = Trace(states: seq<State>, labels: seq<Label>)

  ghost predicate StepAt(r: Trace, k: int)
    requires |r.states| == |r.labels| + 1 && 0 <= k < |r.labels|
  {
    Enabled(r.states[k], r.labels[k]) && r.states[k + 1] == Next(r.states[k], r.labels[k])
  }

  /** A run of a fresh owner, under any interleaving of its threads. */
  ghost predicate IsRun(r: Trace) {
    && |r.states| == |r.labels| + 1 && r.states[0] == INIT
    && forall k {:trigger StepAt(r, k)} :: 0 <= k < |r.labels| ==> StepAt(r, k)
  }

  lemma FirstInv(r: Trace)
    requires IsRun(r)
    ensures Inv(r.states[0])
  {
    InitInv();
  }

  /** Every state of every run satisfies the invariant. */
  lemma {:induction false} RunInv(r: Trace, k: nat)
    requires IsRun(r) && k <= |r.labels|
    ensures Inv(r.states[k])
    decreases k, 0
  {
    if k == 0 {
      FirstInv(r);
    } else {
      LaterInv(r, k);
    }
  }

  lemma {:induction false} LaterInv(r: Trace, k: nat)
    requires IsRun(r) && 0 < k <= |r.labels|
    ensures Inv(r.states[k])
    decreases k - 1, 1
  {
    RunInv(r, k - 1);
    StepAtInv(r, k, r.states[k - 1]);
  }

  lemma StepAtInv(r: Trace, k: nat, before: State)
    requires IsRun(r) && 0 < k <= |r.labels| && before == r.states[k - 1] && Inv(before)
    ensures Inv(r.states[k])
  {
    assert StepAt(r, k - 1);
    StepInv(before, r.labels[k - 1]);
  }

  // ----- What later steps cannot undo --------------------------------------------------

  lemma GrowsTrans(s: State, s': State, s'': State)
    requires Grows(s, s') && Grows(s', s'')
    ensures Grows(s, s'')
  {
  }

  lemma StepAtGrows(r: Trace, k: nat)
    requires IsRun(r) && k < |r.labels|
    ensures Grows(r.states[k], r.states[k + 1])
  {
    RunInv(r, k);
    assert StepAt(r, k);
    StepGrows(r.states[k], r.labels[k]);
  }

  lemma {:induction false} RunGrows(r: Trace, j: nat, k: nat)
    requires IsRun(r) && j <= k <= |r.labels|
    ensures Grows(r.states[j], r.states[k])
    decreases k - j
  {
    if j < k {
      RunGrows(r, j, k - 1);
      StepAtGrows(r, k - 1);
      GrowsTrans(r.states[j], r.states[k - 1], r.states[k]);
    }
  }

  // ----- Tasks -------------------------------------------------------------------------

  /** A call that takes ownership of task `t`. */
  predicate Accepts(s: State, l: Label, t: Task) {
    || (l.Post? && l.task == t && PostCode(s) == ACCEPTED)
    || (l.Arm? && l.task == t && ArmCode(s, l.id) == ACCEPTED)
  }

  ghost predicate AcceptedBefore(r: Trace, k: nat, t: Task)
    requires |r.states| == |r.labels| + 1 && k <= |r.labels|
  {
    exists j :: 0 <= j < k && Accepts(r.states[j], r.labels[j], t)
  }

  lemma ArmNewTask(s: State, id: TimerId, deadline: nat, boot: Boot, t: Task, u: Task)
    requires TimersOk(s.timers, s.place) && u !in s.place
    ensures u in DoArm(s, id, deadline, boot, t).place <==> ArmCode(s, id) == ACCEPTED && u == t
  {
    assert id in s.timers ==> s.timers[id].task in s.place;
  }

  lemma CancelNewTask(s: State, id: TimerId, u: Task)
    requires TimersOk(s.timers, s.place) && u !in s.place
    ensures u !in DoCancel(s, id).place
  {
    assert id in s.timers ==> s.timers[id].task in s.place;
  }

  lemma PortNewTask(s: State, l: Label, t: Task)
    requires OwnersOk(s) && Enabled(s, l) && t !in s.place && IsPortStep(l)
    ensures t in NextPort(s, l).place <==> Accepts(s, l, t)
  {
    match l
    case Post(_) =>
    case Arm(id, deadline, boot, u) => ArmNewTask(s, id, deadline, boot, u, t);
    case Cancel(id) => CancelNewTask(s, id, t);
    case ReleaseDropped(u) => assert u in s.place;
    case Call => CallFrame(s);
    case RequestShutdown => ShutdownFrame(s);
  }

  lemma EarlyNewTask(s: State, l: Label, t: Task)
    requires OwnersOk(s) && Enabled(s, l) && t !in s.place && IsEarlyStep(l)
    ensures t !in NextEarly(s, l).place
  {
    if l.Pop? {
      assert s.tasks[0] in s.tasks;
    } else if l.RunPopped? {
      assert s.pc.task in HandOf(s.pc);
    } else if l.Collect? {
      assert t !in DoCollect(s, l.sample, l.order).place;
    } else {
      EarlyFrame(s, l);
    }
  }

  lemma LateNewTask(s: State, l: Label, t: Task)
    requires OwnersOk(s) && Enabled(s, l) && t !in s.place && IsLateStep(l)
    ensures t !in NextLate(s, l).place
  {
    if l.ReleaseRetired? {
      assert s.retired[0] in s.retired;
    } else if l.RunReady? {
      assert DueTasks(s.ready)[0] == s.ready[0].task && s.ready[0].task in DueTasks(s.ready);
    } else if l.Sweep? {
      assert t !in DoSweep(s, l.order).place;
    } else if l.Seal? {
      assert t !in DoSeal(s).place;
    } else {
      LateFrame(s, l);
    }
  }

  lemma StepKeepsTask(s: State, l: Label, t: Task)
    requires Inv(s) && Enabled(s, l) && t in s.place
    ensures t in Next(s, l).place
  {
    StepGrows(s, l);
    assert PlacesGrow(s.place, Next(s, l).place);
    assert s.place[t] == s.place[t];
  }

  lemma WorkerNewTask(s: State, l: Label, t: Task)
    requires OwnersOk(s) && Enabled(s, l) && t !in s.place && (IsEarlyStep(l) || IsLateStep(l))
    ensures t !in Next(s, l).place
  {
    if IsEarlyStep(l) {
      EarlyNewTask(s, l, t);
    } else {
      LateNewTask(s, l, t);
    }
  }

  lemma StepNewTask(s: State, l: Label, t: Task)
    requires OwnersOk(s) && Enabled(s, l) && t !in s.place
    ensures t in Next(s, l).place <==> Accepts(s, l, t)
  {
    if IsPortStep(l) {
      PortNewTask(s, l, t);
    } else {
      assert !l.Post? && !l.Arm?;
      if !IsSignalStep(l) {
        WorkerNewTask(s, l, t);
      }
    }
  }

  lemma StepOwned(s: State, l: Label, t: Task)
    requires Inv(s) && Enabled(s, l)
    ensures t in Next(s, l).place <==> t in s.place || Accepts(s, l, t)
  {
    if t in s.place {
      StepKeepsTask(s, l, t);
    } else {
      StepNewTask(s, l, t);
    }
  }

  lemma StepAtOwned(r: Trace, k: nat, t: Task)
    requires IsRun(r) && k < |r.labels|
    ensures t in r.states[k + 1].place <==> t in r.states[k].place || Accepts(r.states[k], r.labels[k], t)
  {
    RunInv(r, k);
    assert StepAt(r, k);
    StepOwned(r.states[k], r.labels[k], t);
  }

  /** The owner holds or has consumed exactly the tasks it accepted. */
  lemma {:induction false} OwnedIffAccepted(r: Trace, k: nat, t: Task)
    requires IsRun(r) && k <= |r.labels|
    ensures t in r.states[k].place <==> AcceptedBefore(r, k, t)
  {
    if k > 0 {
      OwnedIffAccepted(r, k - 1, t);
      StepAtOwned(r, k - 1, t);
    }
  }

  /** No task is ever run or released twice, and none is unless it was accepted. */
  lemma ConsumedAtMostOnce(r: Trace, k: nat, t: Task)
    requires IsRun(r) && k <= |r.labels|
    ensures EventCount(r.states[k].log, t) <= 1
    ensures !AcceptedBefore(r, k, t) ==> EventCount(r.states[k].log, t) == 0
  {
    RunInv(r, k);
    OwnedIffAccepted(r, k, t);
  }

  ghost predicate AllConsumed(r: Trace, k: nat)
    requires |r.states| == |r.labels| + 1 && k <= |r.labels|
  {
    forall t: Task {:trigger EventCount(r.states[k].log, t)} :: AcceptedBefore(r, k, t) ==>
          EventCount(r.states[k].log, t) == 1
  }

  lemma FinishedPlaces(s: State, t: Task)
    requires OwnersOk(s) && StagesOk(s) && s.finished && t in s.place
    ensures IsConsumed(s.place[t]) || s.place[t] == Dropping || s.place[t].Armed?
  {
    assert s.place[t] == Queued ==> t in s.tasks;
    assert s.place[t] == InHand ==> t in HandOf(s.pc);
    assert s.place[t] == Ready ==> t in DueTasks(s.ready);
    assert s.place[t] == Retired ==> t in s.retired;
  }

  lemma FinishedAllConsumed(r: Trace, k: nat, t: Task)
    requires IsRun(r) && k <= |r.labels| && r.states[k].finished && AcceptedBefore(r, k, t)
    requires r.states[k].timers == map[] && r.states[k].dropping == {}
    ensures EventCount(r.states[k].log, t) == 1
  {
    RunInv(r, k);
    OwnedIffAccepted(r, k, t);
    FinishedPlaces(r.states[k], t);
  }

  lemma HeldNotConsumed(r: Trace, k: nat, t: Task)
    requires IsRun(r) && k <= |r.labels| && t in r.states[k].place && !IsConsumed(r.states[k].place[t])
    ensures AcceptedBefore(r, k, t) && EventCount(r.states[k].log, t) == 0
  {
    RunInv(r, k);
    OwnedIffAccepted(r, k, t);
  }

  lemma LeftoverIsHeld(s: State) returns (t: Task)
    requires OwnersOk(s) && (s.timers != map[] || s.dropping != {})
    ensures t in s.place && !IsConsumed(s.place[t])
  {
    if s.timers != map[] {
      var id :| id in s.timers;
      t := s.timers[id].task;
    } else {
      t :| t in s.dropping;
    }
  }

  /**
   When the worker has finished, every accepted task has been run or released exactly once
   if and only if no timer was left armed and no displacing call still owes a release.
   */
  lemma FinishedConsumesAllIff(r: Trace, k: nat)
    requires IsRun(r) && k <= |r.labels| && r.states[k].finished
    ensures AllConsumed(r, k) <==> r.states[k].timers == map[] && r.states[k].dropping == {}
  {
    if r.states[k].timers == map[] && r.states[k].dropping == {} {
      forall t: Task | AcceptedBefore(r, k, t)
        ensures EventCount(r.states[k].log, t) == 1
      {
        FinishedAllConsumed(r, k, t);
      }
    } else {
      RunInv(r, k);
      var t := LeftoverIsHeld(r.states[k]);
      HeldNotConsumed(r, k, t);
    }
  }

  /** Once the engine was created, finishing leaves no timer armed, so tasks are conserved. */
  lemma CreatedRunsConserveTasks(r: Trace, k: nat)
    requires IsRun(r) && k <= |r.labels| && r.states[k].finished && r.states[k].created
    ensures AllConsumed(r, k) <==> r.states[k].dropping == {}
  {
    RunInv(r, k);
    FinishedConsumesAllIff(r, k);
  }

  /** A task that was accepted, was never consumed and that no thread is about to release. */
  ghost predicate IsLost(r: Trace, k: nat, t: Task)
    requires |r.states| == |r.labels| + 1 && k <= |r.labels|
  {
    AcceptedBefore(r, k, t) && EventCount(r.states[k].log, t) == 0 && t !in r.states[k].dropping
  }

  /** Sealing closes the executor, and the timers stay as they were then. */
  lemma TimersAtSeal(r: Trace, j: nat, k: nat)
    requires IsRun(r) && j < k <= |r.labels| && r.labels[j].Seal?
    ensures r.states[k].timers == r.states[j].timers
  {
    SealCloses(r, j);
    RunGrows(r, j + 1, k);
  }

  lemma SealCloses(r: Trace, j: nat)
    requires IsRun(r) && j < |r.labels| && r.labels[j].Seal?
    ensures r.states[j + 1].executorClosed && r.states[j + 1].timers == r.states[j].timers
    ensures r.states[j].pc.Sealing?
  {
    assert StepAt(r, j);
  }

  ghost predicate IsArmed(timers: map<TimerId, Timer>, t: Task) {
    exists id :: id in timers && timers[id].task == t
  }

  /** At the end a task that is not consumed and not about to be released is armed. */
  lemma FinishedLeftovers(s: State, t: Task)
    requires OwnersOk(s) && StagesOk(s) && s.finished && t in s.place
    ensures !IsConsumed(s.place[t]) && t !in s.dropping <==> IsArmed(s.timers, t)
  {
    FinishedPlaces(s, t);
    assert s.place[t].Armed? ==> s.timers[s.place[t].id].task == t;
  }

  lemma LostIsArmed(r: Trace, k: nat, t: Task)
    requires IsRun(r) && k <= |r.labels| && r.states[k].finished
    ensures IsLost(r, k, t) <==> IsArmed(r.states[k].timers, t)
  {
    var s := r.states[k];
    RunInv(r, k);
    OwnedIffAccepted(r, k, t);
    if t in s.place {
      FinishedLeftovers(s, t);
      HeldIffNotCounted(s, t);
    } else {
      ArmedIsOwned(s, t);
    }
  }

  lemma ArmedIsOwned(s: State, t: Task)
    requires TimersOk(s.timers, s.place)
    ensures IsArmed(s.timers, t) ==> t in s.place
  {
  }

  lemma HeldIffNotCounted(s: State, t: Task)
    requires CountsOk(s.log, s.place) && t in s.place
    ensures EventCount(s.log, t) == 0 <==> !IsConsumed(s.place[t])
  {
  }

  /**
   Exactly when a finished owner has lost a task, by what holds when its executor closes: the
   tasks of the timers armed at that step are lost and no others, and there are such timers
   only if creating the engine had failed.
   */
  lemma LostIffArmedAtSeal(r: Trace, j: nat, k: nat, t: Task)
    requires IsRun(r) && j < k <= |r.labels| && r.labels[j].Seal? && r.states[k].finished
    ensures IsLost(r, k, t) <==> IsArmed(r.states[j].timers, t)
    ensures r.states[j].created ==> r.states[j].timers == map[]
  {
    TimersAtSeal(r, j, k);
    LostIsArmed(r, k, t);
    RunInv(r, j);
    SealCloses(r, j);
  }

  /** Whatever is armed when the executor closes is never run and never released. */
  lemma ArmedAtCloseLeaks(r: Trace, j: nat, k: nat, id: TimerId)
    requires IsRun(r) && j <= k <= |r.labels| && r.states[j].executorClosed && id in r.states[j].timers
    ensures EventCount(r.states[k].log, r.states[j].timers[id].task) == 0
  {
    RunGrows(r, j, k);
    RunInv(r, k);
    assert id in r.states[k].timers;
  }

  /** A task taken out of the timer map by a cancel or by arming over it is never run. */
  lemma DisplacedNeverRuns(r: Trace, j: nat, k: nat, t: Task, i: nat)
    requires IsRun(r) && j <= k <= |r.labels| && t in r.states[j].displaced && i < |r.states[k].log|
    ensures r.states[k].log[i].RanTask? ==> r.states[k].log[i].task != t
  {
    RunGrows(r, j, k);
    RunInv(r, k);
    assert t in r.states[k].displaced;
    assert EntryOk(r.states[k].log[i], r.states[k].place, r.states[k].armedAs);
  }

  /** Cancelling a timer, or arming over it, displaces the task it held. */
  lemma DisplacingCalls(s: State, l: Label, id: TimerId)
    requires Enabled(s, l) && id in s.timers
    requires (l == Cancel(id) && CancelCode(s, id) == OK) || (l.Arm? && l.id == id && ArmCode(s, id) == ACCEPTED)
    ensures s.timers[id].task in Next(s, l).displaced
  {
  }

  // ----- Timers ------------------------------------------------------------------------

  ghost predicate SampledBefore(r: Trace, k: nat, sample: Sample)
    requires k <= |r.labels|
  {
    exists j :: 0 <= j < k && r.labels[j].Collect? && r.labels[j].sample == sample
  }

  predicate FromSample(c: Cause, sample: Sample) {
    c.FromTimer? && c.sample == sample
  }

  ghost predicate LogUses(log: seq<Event>, sample: Sample) {
    exists k :: 0 <= k < |log| && log[k].RanTask? && FromSample(log[k].cause, sample)
  }

  ghost predicate ReadyUses(ready: seq<Due>, sample: Sample) {
    exists k :: 0 <= k < |ready| && FromSample(ready[k].cause, sample)
  }

  lemma LogUsesAppend(log: seq<Event>, e: Event, sample: Sample)
    requires LogUses(log + [e], sample)
    ensures LogUses(log, sample) || (e.RanTask? && FromSample(e.cause, sample))
  {
    var k :| 0 <= k < |log + [e]| && (log + [e])[k].RanTask? && FromSample((log + [e])[k].cause, sample);
    assert k < |log| ==> (log + [e])[k] == log[k];
  }

  lemma ReadyUsesTail(ready: seq<Due>, sample: Sample)
    requires ready != [] && ReadyUses(ready[1..], sample)
    ensures ReadyUses(ready, sample)
  {
    var k :| 0 <= k < |ready[1..]| && FromSample(ready[1..][k].cause, sample);
    assert ready[k + 1] == ready[1..][k];
  }

  lemma EarlyUses(s: State, l: Label, sample: Sample)
    requires Enabled(s, l) && IsEarlyStep(l) && ReadyUses(NextEarly(s, l).ready, sample)
    ensures ReadyUses(s.ready, sample) || (l.Collect? && l.sample == sample)
  {
    if l.Collect? {
      CollectUses(s, l.sample, l.order, sample);
    } else {
      EarlyFrame(s, l);
    }
  }

  lemma LateUses(s: State, l: Label, sample: Sample)
    requires Enabled(s, l) && IsLateStep(l) && ReadyUses(NextLate(s, l).ready, sample)
    ensures ReadyUses(s.ready, sample)
  {
    if l.RunReady? {
      ReadyUsesTail(s.ready, sample);
    } else {
      LateFrame(s, l);
    }
  }

  lemma WorkerUses(s: State, l: Label, sample: Sample)
    requires Enabled(s, l) && (IsEarlyStep(l) || IsLateStep(l)) && ReadyUses(Next(s, l).ready, sample)
    ensures ReadyUses(s.ready, sample) || (l.Collect? && l.sample == sample)
  {
    if IsEarlyStep(l) {
      EarlyUses(s, l, sample);
    } else {
      LateUses(s, l, sample);
    }
  }

  lemma StepReady(s: State, l: Label, sample: Sample)
    requires Enabled(s, l) && ReadyUses(Next(s, l).ready, sample)
    ensures ReadyUses(s.ready, sample) || (l.Collect? && l.sample == sample)
  {
    if IsPortStep(l) {
      PortFrame(s, l);
    } else if IsSignalStep(l) {
      assert Next(s, l).ready == s.ready;
    } else {
      WorkerUses(s, l, sample);
    }
  }

  lemma CollectUses(s: State, at: Sample, order: seq<TimerId>, sample: Sample)
    requires Visits(order, s.timers) && ReadyUses(DoCollect(s, at, order).ready, sample)
    ensures at == sample
  {
  }

  lemma PortLogUses(s: State, l: Label, sample: Sample)
    requires Enabled(s, l) && IsPortStep(l) && LogUses(NextPort(s, l).log, sample)
    ensures LogUses(s.log, sample)
  {
    if l.ReleaseDropped? {
      LogUsesAppend(s.log, ReleasedTask(l.task), sample);
    } else {
      PortFrame(s, l);
    }
  }

  lemma EarlyLogUses(s: State, l: Label, sample: Sample)
    requires Enabled(s, l) && IsEarlyStep(l) && LogUses(NextEarly(s, l).log, sample)
    ensures LogUses(s.log, sample)
  {
    if l.RunPopped? {
      LogUsesAppend(s.log, RanTask(s.pc.task, FromQueue), sample);
    } else {
      EarlyFrame(s, l);
    }
  }

  lemma LateLogUses(s: State, l: Label, sample: Sample)
    requires Enabled(s, l) && IsLateStep(l) && LogUses(NextLate(s, l).log, sample)
    ensures LogUses(s.log, sample) || ReadyUses(s.ready, sample)
  {
    if l.RunReady? {
      LogUsesAppend(s.log, RanTask(s.ready[0].task, s.ready[0].cause), sample);
    } else if l.ReleaseRetired? {
      LogUsesAppend(s.log, ReleasedTask(s.retired[0]), sample);
    } else {
      LateFrame(s, l);
    }
  }

  lemma StepLog(s: State, l: Label, sample: Sample)
    requires Enabled(s, l) && LogUses(Next(s, l).log, sample)
    ensures LogUses(s.log, sample) || ReadyUses(s.ready, sample)
  {
    if IsPortStep(l) {
      PortLogUses(s, l, sample);
    } else if IsEarlyStep(l) {
      EarlyLogUses(s, l, sample);
    } else if IsLateStep(l) {
      LateLogUses(s, l, sample);
    }
  }

  lemma StepAtSamples(r: Trace, k: nat, sample: Sample)
    requires IsRun(r) && k < |r.labels|
    ensures ReadyUses(r.states[k + 1].ready, sample) ==>
      ReadyUses(r.states[k].ready, sample) || (r.labels[k].Collect? && r.labels[k].sample == sample)
    ensures LogUses(r.states[k + 1].log, sample) ==>
      LogUses(r.states[k].log, sample) || ReadyUses(r.states[k].ready, sample)
  {
    assert StepAt(r, k);
    if ReadyUses(r.states[k + 1].ready, sample) {
      StepReady(r.states[k], r.labels[k], sample);
    }
    if LogUses(r.states[k + 1].log, sample) {
      StepLog(r.states[k], r.labels[k], sample);
    }
  }

  lemma {:induction false} RunSamples(r: Trace, k: nat, sample: Sample)
    requires IsRun(r) && k <= |r.labels|
    requires LogUses(r.states[k].log, sample) || ReadyUses(r.states[k].ready, sample)
    ensures SampledBefore(r, k, sample)
  {
    if k > 0 {
      StepAtSamples(r, k - 1, sample);
      if !(r.labels[k - 1].Collect? && r.labels[k - 1].sample == sample) {
        RunSamples(r, k - 1, sample);
      }
    }
  }

  /**
   A task accepted as a timer runs only because of a clock sample that the worker read,
   of the boot it was armed for, at or after its deadline.
   */
  lemma TimerRunsOnlyWhenDue(r: Trace, j: nat, k: nat, i: nat)
    requires IsRun(r) && j < k <= |r.labels|
    requires r.labels[j].Arm? && ArmCode(r.states[j], r.labels[j].id) == ACCEPTED
    requires i < |r.states[k].log| && r.states[k].log[i].RanTask? && r.states[k].log[i].task == r.labels[j].task
    ensures var cause := r.states[k].log[i].cause;
      && cause.FromTimer? && SampledBefore(r, k, cause.sample)
      && cause.sample.boot == r.labels[j].boot && r.labels[j].deadline <= cause.sample.now
  {
    var t := r.labels[j].task;
    ArmRecords(r, j);
    RunGrows(r, j + 1, k);
    RunInv(r, k);
    var e := r.states[k].log[i];
    assert EntryOk(e, r.states[k].place, r.states[k].armedAs);
    assert t in r.states[j + 1].armedAs ==> t in r.states[k].armedAs;
    assert FromSample(r.states[k].log[i].cause, e.cause.sample);
    RunSamples(r, k, e.cause.sample);
  }

  lemma ArmRecords(r: Trace, j: nat)
    requires IsRun(r) && j < |r.labels| && r.labels[j].Arm? && ArmCode(r.states[j], r.labels[j].id) == ACCEPTED
    ensures var t := r.labels[j].task;
      t in r.states[j + 1].armedAs && r.states[j + 1].armedAs[t] == (r.labels[j].deadline, r.labels[j].boot)
  {
    assert StepAt(r, j);
  }

  // ----- Commands ----------------------------------------------------------------------

  /** Every accepted call is queued, in flight or answered, and only one of these. */
  lemma CommandHasOnePlace(r: Trace, k: nat, c: CommandId)
    requires IsRun(r) && k <= |r.labels| && c < r.states[k].issued
    ensures var s := r.states[k];
      && (c in s.results || c in s.commands || s.pc == Serving(c))
      && !(c in s.results && c in s.commands) && !(c in s.results && s.pc == Serving(c))
      && !(c in s.commands && s.pc == Serving(c))
  {
    RunInv(r, k);
    var s := r.states[k];
    assert s.pc == Serving(c) ==> c in ServingOf(s.pc);
    assert c in ServingOf(s.pc) ==> s.pc == Serving(c);
    assert c in s.results || c !in s.results;
  }

  /** A result, once given, is final. */
  lemma ResultIsFinal(r: Trace, j: nat, k: nat, c: CommandId)
    requires IsRun(r) && j <= k <= |r.labels| && c in r.states[j].results
    ensures c in r.states[k].results && r.states[k].results[c] == r.states[j].results[c]
  {
    RunGrows(r, j, k);
  }

  /** After shutdown was requested, only the command in flight lacks a result; after the worker finished, none does. */
  lemma NoCallerLeftWaiting(r: Trace, k: nat, c: CommandId)
    requires IsRun(r) && k <= |r.labels| && c < r.states[k].issued
    ensures r.states[k].closing ==> c in r.states[k].results || r.states[k].pc == Serving(c)
    ensures r.states[k].finished ==> c in r.states[k].results
  {
    CommandHasOnePlace(r, k, c);
    RunInv(r, k);
    RunCreatedForCommands(r, k);
  }

  lemma PortCreated(s: State, l: Label)
    requires Enabled(s, l) && IsPortStep(l) && (s.issued > 0 ==> s.created)
    ensures NextPort(s, l).issued > 0 ==> NextPort(s, l).created
  {
    PortFrame(s, l);
  }

  lemma WorkerCreated(s: State, l: Label)
    requires Enabled(s, l) && (IsEarlyStep(l) || IsLateStep(l)) && (s.issued > 0 ==> s.created)
    ensures Next(s, l).issued > 0 ==> Next(s, l).created
  {
    WorkerFrame(s, l);
  }

  lemma StepCreated(s: State, l: Label)
    requires Enabled(s, l) && (s.issued > 0 ==> s.created)
    ensures Next(s, l).issued > 0 ==> Next(s, l).created
  {
    if IsPortStep(l) {
      PortCreated(s, l);
    } else if !IsSignalStep(l) {
      WorkerCreated(s, l);
    }
  }

  lemma {:induction false} RunCreatedForCommands(r: Trace, k: nat)
    requires IsRun(r) && k <= |r.labels|
    ensures r.states[k].issued > 0 ==> r.states[k].created
  {
    if k > 0 {
      RunCreatedForCommands(r, k - 1);
      assert StepAt(r, k - 1);
      StepCreated(r.states[k - 1], r.labels[k - 1]);
    }
  }

  /** The commands waiting when shutdown is requested are all answered CLOSED in that step. */
  lemma ShutdownAnswersQueue(r: Trace, j: nat, k: nat, c: CommandId)
    requires IsRun(r) && j < k <= |r.labels| && r.labels[j].RequestShutdown? && c in r.states[j].commands
    ensures c in r.states[k].results && r.states[k].results[c] == CLOSED
    ensures |r.states[j].commands| <= COMMAND_CAPACITY
  {
    RunInv(r, j);
    ShutdownRecords(r, j, c);
    ResultIsFinal(r, j + 1, k, c);
  }

  lemma ShutdownRecords(r: Trace, j: nat, c: CommandId)
    requires IsRun(r) && j < |r.labels| && r.labels[j].RequestShutdown? && c in r.states[j].commands
    ensures c in r.states[j + 1].results && r.states[j + 1].results[c] == CLOSED
  {
    assert StepAt(r, j);
  }

  // ----- Bounds ------------------------------------------------------------------------

  /** No queue, and none of the worker's fixed arrays, ever exceeds its size. */
  lemma ArraysNeverOverflow(r: Trace, k: nat)
    requires IsRun(r) && k <= |r.labels|
    ensures var s := r.states[k];
      && |s.tasks| <= CAPACITY && |s.timers| <= CAPACITY && |s.commands| <= COMMAND_CAPACITY
      && |s.ready| <= CAPACITY && |s.retired| <= CAPACITY
  {
    RunInv(r, k);
  }
}
