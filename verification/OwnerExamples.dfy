/**
 Two runs of the session owner at its limits: a timer lost when the engine cannot be
 created, and a release that a cancelling thread still owes when the worker has finished.
 */
module OwnerExamples {
  import opened SessionOwner
  import opened OwnerInvariant
  import opened OwnerRuns

  function Last(r: Trace): State
    requires |r.states| > 0
  {
    r.states[|r.states| - 1]
  }

  lemma ExtendRun(r: Trace, l: Label) returns (r': Trace)
    requires IsRun(r) && Enabled(Last(r), l)
    ensures IsRun(r') && r'.labels == r.labels + [l] && Last(r') == Next(Last(r), l)
  {
    r' := Trace(r.states + [Next(Last(r), l)], r.labels + [l]);
    forall k | 0 <= k < |r'.labels|
      ensures StepAt(r', k)
    {
      assert k < |r.labels| ==> StepAt(r, k);
    }
  }

  // ----- A lost timer ------------------------------------------------------------------

  /** The worker stands at `pc` on the failing path, with what was held when creation failed. */
  predicate Failing(s: State, pc: Pc, timers: map<TimerId, Timer>) {
    && s.pc == pc && s.timers == timers && s.tasks == [] && s.retired == [] && s.dropping == {} && !s.created
  }

  lemma CreateFails(r: Trace, timers: map<TimerId, Timer>) returns (r': Trace)
    requires IsRun(r) && Failing(Last(r), Creating, timers) && !Last(r).cv.tell
    ensures IsRun(r') && Failing(Last(r'), Sealing, timers) && Last(r').cv.tell
  {
    r' := ExtendRun(r, CreateFail);
  }

  lemma TellsOnce(r: Trace, timers: map<TimerId, Timer>, pc: Pc) returns (r': Trace)
    requires IsRun(r) && Failing(Last(r), pc, timers) && Last(r).cv.tell
    ensures IsRun(r') && Failing(Last(r'), pc, timers) && !Last(r').cv.tell
  {
    r' := ExtendRun(r, Tell);
  }

  lemma SealKeeps(s: State)
    requires s.tasks == []
    ensures var s' := DoSeal(s);
      && s'.pc == Sealed && s'.retired == [] && s'.tasks == [] && s'.cv == s.cv && s'.timers == s.timers
      && s'.dropping == s.dropping && s'.created == s.created
  {
  }

  lemma FailedSeals(r: Trace, timers: map<TimerId, Timer>) returns (r': Trace)
    requires IsRun(r) && Failing(Last(r), Sealing, timers) && !Last(r).cv.tell
    ensures IsRun(r') && Failing(Last(r'), Sealed, timers) && !Last(r').cv.tell
  {
    SealKeeps(Last(r));
    r' := ExtendRun(r, Seal);
  }

  lemma FailedFinishes(r: Trace, timers: map<TimerId, Timer>) returns (r': Trace)
    requires IsRun(r) && Failing(Last(r), Sealed, timers) && !Last(r).cv.tell
    ensures IsRun(r') && Failing(Last(r'), Exited, timers) && Last(r').finished
  {
    r' := ExtendRun(r, Finish);
  }

  /** Whenever creation fails with nothing but timers held, the worker can finish with all of them still armed. */
  lemma FailedCreateKeepsTimers(r: Trace, timers: map<TimerId, Timer>) returns (r': Trace)
    requires IsRun(r) && Failing(Last(r), Creating, timers) && !Last(r).cv.tell
    ensures IsRun(r') && Failing(Last(r'), Exited, timers) && Last(r').finished
  {
    r' := CreateFails(r, timers);
    r' := TellsOnce(r', timers, Sealing);
    r' := FailedSeals(r', timers);
    r' := FailedFinishes(r', timers);
  }

  lemma ArmsWhileCreating() returns (r: Trace)
    ensures IsRun(r) && Failing(Last(r), Creating, map[1 := Timer(0, 0, 7)]) && !Last(r).cv.tell
  {
    r := ExtendRun(Trace([INIT], []), Arm(1, 0, 0, 7));
  }

  /** Such a run exists: a timer armed while the engine is being created is lost when that fails. */
  lemma FailedCreateLeaksTimer() returns (r: Trace)
    ensures IsRun(r) && Last(r).finished && !Last(r).created && Last(r).dropping == {}
    ensures IsLost(r, |r.labels|, 7)
  {
    var timers := map[1 := Timer(0, 0, 7)];
    r := ArmsWhileCreating();
    r := FailedCreateKeepsTimers(r, timers);
    LostIsArmed(r, |r.labels|, 7);
    assert 1 in Last(r).timers && Last(r).timers[1].task == 7;
  }

  // ----- A release still owed ----------------------------------------------------------

  /** The worker stands at `pc` with nothing to do; a thread that displaced task 7 has not released it yet. */
  predicate Owes(s: State, pc: Pc) {
    && s.pc == pc && s.timers == map[] && s.tasks == [] && s.retired == [] && s.ready == []
    && s.dropping == {7} && s.created && s.closing
  }

  lemma Opens() returns (r: Trace)
    ensures IsRun(r)
    ensures var s := Last(r);
      && s.pc == Draining(Opening, CAPACITY) && s.timers == map[] && s.tasks == [] && s.retired == [] && s.ready == []
      && s.dropping == {} && s.created && !s.closing && !s.executorClosed && !s.cv.tell && s.place == map[]
  {
    r := ExtendRun(Trace([INIT], []), CreateOk);
  }

  /** Armed and cancelled while the engine opens. */
  lemma Displaces() returns (r: Trace)
    ensures IsRun(r)
    ensures var s := Last(r);
      && s.pc == Draining(Opening, CAPACITY) && s.timers == map[] && s.tasks == [] && s.retired == [] && s.ready == []
      && s.dropping == {7} && s.created && !s.closing && !s.cv.tell
  {
    r := Opens();
    r := ExtendRun(r, Arm(1, 0, 0, 7));
    assert Last(r).timers == map[1 := Timer(0, 0, 7)] && !Last(r).executorClosed;
    r := ExtendRun(r, Cancel(1));
    assert Last(r).timers == map[];
  }

  lemma Starts() returns (r: Trace)
    ensures IsRun(r) && Owes(Last(r), Draining(Looping, CAPACITY)) && !Last(r).cv.tell
  {
    r := Displaces();
    r := ExtendRun(r, DrainDone);
    r := ExtendRun(r, Tell);
    r := ExtendRun(r, RequestShutdown);
  }

  lemma Drains(r: Trace, phase: Phase) returns (r': Trace)
    requires IsRun(r) && Owes(Last(r), Draining(phase, CAPACITY)) && !Last(r).cv.tell && !phase.Opening?
    ensures IsRun(r') && Owes(Last(r'), AfterDrain(phase)) && !Last(r').cv.tell
  {
    r' := ExtendRun(r, DrainDone);
  }

  lemma Samples(r: Trace) returns (r': Trace)
    requires IsRun(r) && Owes(Last(r), Sampling) && !Last(r).cv.tell
    ensures IsRun(r') && Owes(Last(r'), Sweeping) && !Last(r').cv.tell
  {
    r' := ExtendRun(r, SkipTimers);
    r' := ExtendRun(r', Select);
  }

  lemma Sweeps(r: Trace) returns (r': Trace)
    requires IsRun(r) && Owes(Last(r), Sweeping) && !Last(r).cv.tell
    ensures IsRun(r') && Owes(Last(r'), Draining(Stopping, CAPACITY)) && !Last(r').cv.tell
  {
    assert Visits([], Last(r).timers);
    assert TasksOf([], Last(r).timers) == [];
    r' := ExtendRun(r, Sweep([]));
    r' := ExtendRun(r', SweepDone);
  }

  lemma Destroys(r: Trace) returns (r': Trace)
    requires IsRun(r) && Owes(Last(r), Destroying) && !Last(r).cv.tell
    ensures IsRun(r') && Owes(Last(r'), Sealing) && !Last(r').cv.tell
  {
    r' := ExtendRun(r, Destroy(true));
  }

  lemma Ends(r: Trace) returns (r': Trace)
    requires IsRun(r) && Owes(Last(r), Sealing) && !Last(r).cv.tell
    ensures IsRun(r') && Owes(Last(r'), Exited) && Last(r').finished
  {
    SealKeeps(Last(r));
    r' := ExtendRun(r, Seal);
    r' := ExtendRun(r', Finish);
  }

  /** A run that ends orderly, with a created engine, while a cancelling thread still owes a release. */
  lemma ReleaseOutlivesWorker() returns (r: Trace)
    ensures IsRun(r) && Last(r).finished && Last(r).created && Last(r).dropping == {7}
    ensures !AllConsumed(r, |r.labels|)
  {
    r := Starts();
    r := Drains(r, Looping);
    r := Samples(r);
    r := Sweeps(r);
    r := Drains(r, Stopping);
    r := Destroys(r);
    r := Ends(r);
    FinishedConsumesAllIff(r, |r.labels|);
  }
}
