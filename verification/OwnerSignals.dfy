/**
 No wake-up is lost: every step keeps a notification on its way to each thread that sleeps
 on a condition which has come to hold.
 */
module OwnerSignals {
  import opened SessionOwner
  import opened OwnerInvariant

  /** A step that rouses nobody makes no sleeper's condition true. */
  lemma CalmSleepers(s: State, s': State)
    requires SleepersOk(s) && s'.cv.asleep <= s.cv.asleep && (IsOwed(s.cv) ==> IsOwed(s'.cv))
    requires forall w {:trigger w in s.cv.asleep} :: w in s.cv.asleep && Wants(s', w) ==> Wants(s, w)
    ensures SleepersOk(s')
  {
  }

  lemma PostSignals(s: State, t: Task)
    requires SignalsOk(s)
    ensures SignalsOk(DoPost(s, t))
  {
  }

  lemma ArmSignals(s: State, id: TimerId, deadline: nat, boot: Boot, t: Task)
    requires SignalsOk(s)
    ensures SignalsOk(DoArm(s, id, deadline, boot, t))
  {
  }

  lemma CancelSignals(s: State, id: TimerId)
    requires SignalsOk(s)
    ensures SignalsOk(DoCancel(s, id))
  {
  }

  lemma CallCallers(waiting: set<Waiter>, issued: nat, results: map<CommandId, Code>)
    requires CallersOk(waiting, issued, results)
    ensures CallersOk(waiting + {Caller(issued)}, issued + 1, results)
  {
  }

  lemma CallSignals(s: State)
    requires SignalsOk(s) && s.issued !in s.results
    ensures SignalsOk(DoCall(s))
  {
    CallCallers(s.cv.waiting, s.issued, s.results);
  }

  lemma ShutdownSignals(s: State)
    requires SignalsOk(s)
    ensures SignalsOk(DoShutdown(s))
  {
  }

  lemma ReleaseSignals(s: State, t: Task)
    requires SignalsOk(s)
    ensures SignalsOk(DoRelease(s, t))
  {
    CalmSleepers(s, DoRelease(s, t));
  }

  lemma PortSignals(s: State, l: Label)
    requires SignalsOk(s) && CommandsOk(s) && Enabled(s, l) && IsPortStep(l)
    ensures SignalsOk(NextPort(s, l))
  {
    match l
    case Post(t) => PostSignals(s, t);
    case Arm(id, deadline, boot, t) => ArmSignals(s, id, deadline, boot, t);
    case Cancel(id) => CancelSignals(s, id);
    case ReleaseDropped(t) => ReleaseSignals(s, t);
    case Call => CallSignals(s);
    case RequestShutdown => ShutdownSignals(s);
  }

  /** The worker is awake while it works. */
  lemma WorkerAwake(s: State)
    requires WaitersOk(s.cv, s.pc) && !s.pc.Waiting?
    ensures Worker !in s.cv.asleep
  {
  }

  lemma CollectSignals(s: State, sample: Sample, order: seq<TimerId>)
    requires SignalsOk(s) && s.pc.Sampling? && Visits(order, s.timers)
    ensures SignalsOk(DoCollect(s, sample, order))
  {
    WorkerAwake(s);
    CalmSleepers(s, DoCollect(s, sample, order));
  }

  lemma EarlySignals(s: State, l: Label)
    requires SignalsOk(s) && Enabled(s, l) && IsEarlyStep(l)
    ensures SignalsOk(NextEarly(s, l))
  {
    WorkerAwake(s);
    if l.Collect? {
      CollectSignals(s, l.sample, l.order);
    } else {
      EarlyCalm(s, l);
    }
  }

  lemma EarlyCalm(s: State, l: Label)
    requires SignalsOk(s) && Enabled(s, l) && IsEarlyStep(l) && !l.Collect? && Worker !in s.cv.asleep
    ensures SignalsOk(NextEarly(s, l))
  {
  }

  lemma SelectSignals(s: State)
    requires SignalsOk(s) && s.pc.Selecting?
    ensures SignalsOk(DoSelect(s))
  {
    WorkerAwake(s);
  }

  lemma RecheckSignals(s: State)
    requires SignalsOk(s) && s.pc.Waiting? && Worker !in s.cv.asleep
    ensures SignalsOk(DoRecheck(s))
  {
  }

  lemma ServeSignals(s: State, result: Code)
    requires SignalsOk(s) && s.pc.Serving?
    ensures SignalsOk(DoServe(s, result))
  {
    WorkerAwake(s);
  }

  lemma BulkSignals(s: State, l: Label)
    requires SignalsOk(s) && Enabled(s, l) && (l.Sweep? || l.Seal?)
    ensures SignalsOk(NextLate(s, l))
  {
    WorkerAwake(s);
    CalmSleepers(s, NextLate(s, l));
  }

  lemma LateCalm(s: State, l: Label)
    requires SignalsOk(s) && Enabled(s, l)
    requires l.ReleaseRetired? || l.RunReady? || l.Fired? || l.SweepDone? || l.Destroy? || l.Finish?
    ensures SignalsOk(NextLate(s, l))
  {
    WorkerAwake(s);
  }

  lemma LateSignals(s: State, l: Label)
    requires SignalsOk(s) && Enabled(s, l) && IsLateStep(l)
    ensures SignalsOk(NextLate(s, l))
  {
    if l.Select? {
      SelectSignals(s);
    } else if l.Recheck? {
      RecheckSignals(s);
    } else if l.Serve? {
      ServeSignals(s, l.result);
    } else if l.Sweep? {
      BulkSignals(s, l);
    } else if l.Seal? {
      BulkSignals(s, l);
    } else {
      LateCalm(s, l);
    }
  }

  lemma SignalSignals(s: State, l: Label)
    requires SignalsOk(s) && Enabled(s, l) && IsSignalStep(l)
    ensures SignalsOk(s.(cv := NextSignal(s, l)))
  {
    var s' := s.(cv := NextSignal(s, l));
    assert forall w :: Wants(s', w) == Wants(s, w);
  }

  lemma SignalsStep(s: State, l: Label)
    requires SignalsOk(s) && CommandsOk(s) && Enabled(s, l)
    ensures SignalsOk(Next(s, l))
  {
    if IsPortStep(l) {
      PortSignals(s, l);
    } else if IsSignalStep(l) {
      SignalSignals(s, l);
    } else if IsEarlyStep(l) {
      EarlySignals(s, l);
    } else {
      LateSignals(s, l);
    }
  }
}
