/**
 What each step of the session owner leaves alone, and what no step ever undoes.
 */
module OwnerFrames {
  import opened SessionOwner
  import opened OwnerInvariant
  import opened OwnerSteps

  // ----- Frames of the port steps ------------------------------------------------------

  /** Nothing that belongs to the worker has changed. */
  predicate SameWorker(s: State, s': State) {
    && s'.pc == s.pc && s'.retired == s.retired && s'.ready == s.ready && s'.created == s.created
    && s'.cv.tell == s.cv.tell
  }

  predicate PortKept(s: State, l: Label, s': State) {
    && SameWorker(s, s')
    && (l.ReleaseDropped? || s'.log == s.log) && (l.Arm? || s'.armedAs == s.armedAs)
    && (l.Call? || s'.issued == s.issued) && (l.RequestShutdown? || s'.results == s.results)
    && (l.Call? || l.RequestShutdown? || s'.commands == s.commands) && (l.Post? || s'.tasks == s.tasks)
    && s'.executorClosed == s.executorClosed
  }

  lemma PostFrame(s: State, t: Task)
    ensures PortKept(s, Post(t), DoPost(s, t))
  {
  }

  lemma ArmFrame(s: State, id: TimerId, deadline: nat, boot: Boot, t: Task)
    ensures PortKept(s, Arm(id, deadline, boot, t), DoArm(s, id, deadline, boot, t))
  {
  }

  lemma CancelFrame(s: State, id: TimerId)
    ensures PortKept(s, Cancel(id), DoCancel(s, id))
  {
  }

  lemma ReleaseFrame(s: State, t: Task)
    ensures PortKept(s, ReleaseDropped(t), DoRelease(s, t))
  {
  }

  lemma CallFrame(s: State)
    ensures PortKept(s, Call, DoCall(s)) && DoCall(s).place == s.place
  {
  }

  lemma ShutdownFrame(s: State)
    ensures PortKept(s, RequestShutdown, DoShutdown(s)) && DoShutdown(s).place == s.place
  {
  }

  lemma PortFrame(s: State, l: Label)
    requires Enabled(s, l) && IsPortStep(l)
    ensures PortKept(s, l, NextPort(s, l))
  {
    match l
    case Post(t) => PostFrame(s, t);
    case Arm(id, deadline, boot, t) => ArmFrame(s, id, deadline, boot, t);
    case Cancel(id) => CancelFrame(s, id);
    case ReleaseDropped(t) => ReleaseFrame(s, t);
    case Call => CallFrame(s);
    case RequestShutdown => ShutdownFrame(s);
  }

  // ----- Frames of the worker's steps --------------------------------------------------

  /** The labels that leave every task where it is. */
  predicate IsIdleStep(l: Label) {
    || l.Call? || l.RequestShutdown? || l.CreateOk? || l.CreateFail? || l.DrainDone? || l.SkipTimers? || l.Fired?
    || l.Select? || l.Serve? || l.SweepDone? || l.Destroy? || l.Finish? || l.Recheck? || IsSignalStep(l)
  }

  /** Nothing that belongs to other threads has changed. */
  predicate SameOthers(s: State, s': State) {
    && s'.armedAs == s.armedAs && s'.issued == s.issued && s'.dropping == s.dropping && s'.displaced == s.displaced
    && s'.cv.waiting == s.cv.waiting && s'.cv.owed == s.cv.owed
  }

  predicate WorkerKept(s: State, l: Label, s': State) {
    && SameOthers(s, s')
    && (l.CreateOk? || s'.created == s.created)
    && (l.Collect? || l.RunReady? || s'.ready == s.ready)
    && (l.RunPopped? || l.RunReady? || l.ReleaseRetired? || s'.log == s.log)
    && (IsIdleStep(l) ==> s'.place == s.place)
    && (l.Serve? || s'.results == s.results) && (l.Select? || s'.commands == s.commands)
    && (l.Pop? || l.Seal? || s'.tasks == s.tasks) && (l.Seal? || s'.executorClosed == s.executorClosed)
  }

  lemma PopFrame(s: State)
    requires s.pc.Draining? && s.pc.budget > 0 && s.tasks != []
    ensures WorkerKept(s, Pop, DoPop(s))
  {
  }

  lemma RunPoppedFrame(s: State)
    requires s.pc.Holding?
    ensures WorkerKept(s, RunPopped, DoRunPopped(s))
  {
  }

  lemma DrainDoneFrame(s: State)
    requires s.pc.Draining?
    ensures WorkerKept(s, DrainDone, DoDrainDone(s))
  {
  }

  lemma CollectFrame(s: State, sample: Sample, order: seq<TimerId>)
    requires Visits(order, s.timers)
    ensures WorkerKept(s, Collect(sample, order), DoCollect(s, sample, order))
  {
  }

  lemma RetireFrame(s: State)
    requires s.retired != []
    ensures WorkerKept(s, ReleaseRetired, DoRetire(s))
  {
  }

  lemma RunReadyFrame(s: State)
    requires s.ready != []
    ensures WorkerKept(s, RunReady, DoRunReady(s))
  {
  }

  lemma SelectFrame(s: State)
    ensures WorkerKept(s, Select, DoSelect(s))
  {
  }

  lemma RecheckFrame(s: State)
    ensures WorkerKept(s, Recheck, DoRecheck(s))
  {
  }

  lemma ServeFrame(s: State, result: Code)
    requires s.pc.Serving?
    ensures WorkerKept(s, Serve(result), DoServe(s, result))
  {
  }

  lemma SweepFrame(s: State, order: seq<TimerId>)
    requires Visits(order, s.timers)
    ensures WorkerKept(s, Sweep(order), DoSweep(s, order))
  {
  }

  lemma SealFrame(s: State)
    ensures WorkerKept(s, Seal, DoSeal(s))
  {
  }

  lemma EarlyFrame(s: State, l: Label)
    requires Enabled(s, l) && IsEarlyStep(l)
    ensures WorkerKept(s, l, NextEarly(s, l))
  {
    match l
    case CreateOk =>
    case CreateFail =>
    case Pop => PopFrame(s);
    case RunPopped => RunPoppedFrame(s);
    case DrainDone => DrainDoneFrame(s);
    case SkipTimers =>
    case Collect(sample, order) => CollectFrame(s, sample, order);
  }

  lemma LateFrame(s: State, l: Label)
    requires Enabled(s, l) && IsLateStep(l)
    ensures WorkerKept(s, l, NextLate(s, l))
  {
    match l
    case ReleaseRetired => RetireFrame(s);
    case RunReady => RunReadyFrame(s);
    case Fired =>
    case Select => SelectFrame(s);
    case Serve(result) => ServeFrame(s, result);
    case Sweep(order) => SweepFrame(s, order);
    case SweepDone =>
    case Destroy(_) =>
    case Seal => SealFrame(s);
    case Finish =>
    case Recheck => RecheckFrame(s);
  }

  lemma WorkerFrame(s: State, l: Label)
    requires Enabled(s, l) && (IsEarlyStep(l) || IsLateStep(l))
    ensures WorkerKept(s, l, Next(s, l))
  {
    if IsEarlyStep(l) {
      EarlyFrame(s, l);
    } else {
      LateFrame(s, l);
    }
  }

  // ----- What no step undoes -----------------------------------------------------------

  ghost predicate PlacesGrow(place: map<Task, Place>, place': map<Task, Place>) {
    forall t {:trigger place[t]} {:trigger place'[t]} :: t in place ==>
          t in place' && (IsConsumed(place[t]) ==> place'[t] == place[t])
  }

  ghost predicate ArmsGrow(armedAs: map<Task, (nat, Boot)>, armedAs': map<Task, (nat, Boot)>) {
    forall t {:trigger t in armedAs} {:trigger t in armedAs'} :: t in armedAs ==>
          t in armedAs' && armedAs'[t] == armedAs[t]
  }

  ghost predicate ResultsGrow(results: map<CommandId, Code>, results': map<CommandId, Code>) {
    forall c {:trigger c in results} {:trigger c in results'} :: c in results ==>
          c in results' && results'[c] == results[c]
  }

  ghost predicate FlagsGrow(s: State, s': State) {
    && (s.closing ==> s'.closing) && (s.executorClosed ==> s'.executorClosed) && (s.finished ==> s'.finished)
    && (s.executorClosed ==> s'.timers == s.timers)
    && s.issued <= s'.issued && s.displaced <= s'.displaced && s.log <= s'.log
  }

  ghost predicate Grows(s: State, s': State) {
    && PlacesGrow(s.place, s'.place) && ArmsGrow(s.armedAs, s'.armedAs)
    && ResultsGrow(s.results, s'.results) && FlagsGrow(s, s')
  }

  lemma PlaceMoves(place: map<Task, Place>, t: Task, q: Place)
    requires t in place ==> !IsConsumed(place[t])
    ensures PlacesGrow(place, place[t := q])
  {
  }

  lemma ArmMoves(place: map<Task, Place>, held: Task, t: Task, id: TimerId)
    requires held in place && !IsConsumed(place[held]) && t !in place
    ensures PlacesGrow(place, place[held := Dropping][t := Armed(id)])
  {
  }

  lemma ArmPlaces(s: State, id: TimerId, deadline: nat, boot: Boot, t: Task)
    requires TimersOk(s.timers, s.place) && t !in s.place
    ensures PlacesGrow(s.place, DoArm(s, id, deadline, boot, t).place)
  {
    if ArmCode(s, id) == ACCEPTED {
      if id in s.timers {
        ArmMoves(s.place, s.timers[id].task, t, id);
      } else {
        PlaceMoves(s.place, t, Armed(id));
      }
    }
  }

  lemma CancelPlaces(s: State, id: TimerId)
    requires TimersOk(s.timers, s.place)
    ensures PlacesGrow(s.place, DoCancel(s, id).place)
  {
    if id in s.timers {
      PlaceMoves(s.place, s.timers[id].task, Dropping);
    }
  }

  lemma CollectPlacesGrow(s: State, sample: Sample, order: seq<TimerId>)
    requires Visits(order, s.timers)
    ensures PlacesGrow(s.place, DoCollect(s, sample, order).place)
  {
  }

  lemma SweepPlacesGrow(s: State, order: seq<TimerId>)
    requires Visits(order, s.timers)
    ensures PlacesGrow(s.place, DoSweep(s, order).place)
  {
  }

  lemma SealPlacesGrow(s: State)
    ensures PlacesGrow(s.place, DoSeal(s).place)
  {
  }

  lemma PortPlaces(s: State, l: Label)
    requires OwnersOk(s) && Enabled(s, l) && IsPortStep(l)
    ensures PlacesGrow(s.place, NextPort(s, l).place)
  {
    match l
    case Post(t) => PlaceMoves(s.place, t, Queued);
    case Arm(id, deadline, boot, t) => ArmPlaces(s, id, deadline, boot, t);
    case Cancel(id) => CancelPlaces(s, id);
    case ReleaseDropped(t) => PlaceMoves(s.place, t, Released);
    case Call => CallFrame(s);
    case RequestShutdown => ShutdownFrame(s);
  }

  lemma PopPlaces(s: State)
    requires OwnersOk(s) && s.pc.Draining? && s.pc.budget > 0 && s.tasks != []
    ensures PlacesGrow(s.place, DoPop(s).place)
  {
    assert s.tasks[0] in s.tasks;
    PlaceMoves(s.place, s.tasks[0], InHand);
  }

  lemma RunPoppedPlaces(s: State)
    requires OwnersOk(s) && s.pc.Holding?
    ensures PlacesGrow(s.place, DoRunPopped(s).place)
  {
    assert s.pc.task in HandOf(s.pc);
    PlaceMoves(s.place, s.pc.task, Ran);
  }

  lemma RetirePlaces(s: State)
    requires OwnersOk(s) && s.retired != []
    ensures PlacesGrow(s.place, DoRetire(s).place)
  {
    assert s.retired[0] in s.retired;
    PlaceMoves(s.place, s.retired[0], Released);
  }

  lemma RunReadyPlaces(s: State)
    requires OwnersOk(s) && s.ready != []
    ensures PlacesGrow(s.place, DoRunReady(s).place)
  {
    assert DueTasks(s.ready)[0] == s.ready[0].task && s.ready[0].task in DueTasks(s.ready);
    PlaceMoves(s.place, s.ready[0].task, Ran);
  }

  lemma EarlyPlaces(s: State, l: Label)
    requires OwnersOk(s) && Enabled(s, l) && IsEarlyStep(l)
    ensures PlacesGrow(s.place, NextEarly(s, l).place)
  {
    if l.Pop? {
      PopPlaces(s);
    } else if l.RunPopped? {
      RunPoppedPlaces(s);
    } else if l.Collect? {
      CollectPlacesGrow(s, l.sample, l.order);
    } else {
      EarlyFrame(s, l);
    }
  }

  lemma LatePlaces(s: State, l: Label)
    requires OwnersOk(s) && Enabled(s, l) && IsLateStep(l)
    ensures PlacesGrow(s.place, NextLate(s, l).place)
  {
    if l.ReleaseRetired? {
      RetirePlaces(s);
    } else if l.RunReady? {
      RunReadyPlaces(s);
    } else if l.Sweep? {
      SweepPlacesGrow(s, l.order);
    } else if l.Seal? {
      SealPlacesGrow(s);
    } else {
      LateFrame(s, l);
    }
  }

  lemma ShutdownResults(s: State)
    requires CommandsOk(s)
    ensures ResultsGrow(s.results, DoShutdown(s).results)
  {
  }

  lemma ServeResults(s: State, result: Code)
    requires CommandsOk(s) && s.pc.Serving?
    ensures ResultsGrow(s.results, DoServe(s, result).results)
  {
    assert s.pc.command in ServingOf(s.pc);
  }

  lemma ArmArms(s: State, id: TimerId, deadline: nat, boot: Boot, t: Task)
    requires ArmsOk(s.armedAs, s.place, s.timers, s.ready) && t !in s.place
    ensures ArmsGrow(s.armedAs, DoArm(s, id, deadline, boot, t).armedAs)
  {
  }

  lemma ArmFlags(s: State, id: TimerId, deadline: nat, boot: Boot, t: Task)
    ensures FlagsGrow(s, DoArm(s, id, deadline, boot, t))
  {
  }

  lemma CallFlags(s: State, l: Label)
    requires Enabled(s, l) && (l.Post? || l.ReleaseDropped? || l.Call? || l.RequestShutdown?)
    ensures FlagsGrow(s, NextPort(s, l))
  {
  }

  lemma CancelFlags(s: State, id: TimerId)
    ensures FlagsGrow(s, DoCancel(s, id))
  {
  }

  lemma PortFlags(s: State, l: Label)
    requires Enabled(s, l) && IsPortStep(l)
    ensures FlagsGrow(s, NextPort(s, l))
  {
    if l.Arm? {
      ArmFlags(s, l.id, l.deadline, l.boot, l.task);
    } else if l.Cancel? {
      CancelFlags(s, l.id);
    } else {
      CallFlags(s, l);
    }
  }

  lemma EarlyFlags(s: State, l: Label)
    requires StagesOk(s) && Enabled(s, l) && IsEarlyStep(l)
    ensures FlagsGrow(s, NextEarly(s, l))
  {
  }

  lemma LateFlags(s: State, l: Label)
    requires StagesOk(s) && Enabled(s, l) && IsLateStep(l)
    ensures FlagsGrow(s, NextLate(s, l))
  {
  }

  lemma PortGrows(s: State, l: Label)
    requires Inv(s) && Enabled(s, l) && IsPortStep(l)
    ensures Grows(s, NextPort(s, l))
  {
    PortPlaces(s, l);
    PortFlags(s, l);
    PortFrame(s, l);
    if l.Arm? {
      ArmArms(s, l.id, l.deadline, l.boot, l.task);
    } else if l.RequestShutdown? {
      ShutdownResults(s);
    }
  }

  lemma EarlyGrows(s: State, l: Label)
    requires Inv(s) && Enabled(s, l) && IsEarlyStep(l)
    ensures Grows(s, NextEarly(s, l))
  {
    EarlyPlaces(s, l);
    EarlyFlags(s, l);
    EarlyFrame(s, l);
  }

  lemma LateGrows(s: State, l: Label)
    requires Inv(s) && Enabled(s, l) && IsLateStep(l)
    ensures Grows(s, NextLate(s, l))
  {
    LatePlaces(s, l);
    LateFlags(s, l);
    LateFrame(s, l);
    if l.Serve? {
      ServeResults(s, l.result);
    }
  }

  lemma SignalGrows(s: State, cv: Signals)
    ensures Grows(s, s.(cv := cv))
  {
  }

  lemma StepGrows(s: State, l: Label)
    requires Inv(s) && Enabled(s, l)
    ensures Grows(s, Next(s, l))
  {
    if IsPortStep(l) {
      PortGrows(s, l);
    } else if IsSignalStep(l) {
      SignalGrows(s, NextSignal(s, l));
    } else if IsEarlyStep(l) {
      EarlyGrows(s, l);
    } else {
      LateGrows(s, l);
    }
  }
}
