/**
 What the session owner answers, over whole runs: which result a caller gets, which calls
 are accepted, in what order tasks and commands are taken, and that due timers do fire.
 */
module OwnerAnswers {
  import opened SessionOwner
  import opened OwnerInvariant
  import opened OwnerFrames
  import opened OwnerRuns

  // ----- Results -----------------------------------------------------------------------

  /** At step `k` the worker serves command `c` and its work returns `x`. */
  ghost predicate ServesAt(r: Trace, k: nat, c: CommandId, x: Code)
    requires |r.states| == |r.labels| + 1 && k < |r.labels|
  {
    r.states[k].pc == Serving(c) && r.labels[k] == Serve(x)
  }

  /** At step `k` a shutdown finds command `c` in the queue. */
  ghost predicate ClosesAt(r: Trace, k: nat, c: CommandId)
    requires |r.states| == |r.labels| + 1 && k < |r.labels|
  {
    r.labels[k].RequestShutdown? && c in r.states[k].commands
  }

  /** Parts of the invariant, one at a time. */
  lemma RunCommands(r: Trace, k: nat)
    requires IsRun(r) && k <= |r.labels|
    ensures CommandsOk(r.states[k])
  {
    RunInv(r, k);
  }

  lemma RunOwners(r: Trace, k: nat)
    requires IsRun(r) && k <= |r.labels|
    ensures OwnersOk(r.states[k])
  {
    RunInv(r, k);
  }

  lemma RunStages(r: Trace, k: nat)
    requires IsRun(r) && k <= |r.labels|
    ensures StagesOk(r.states[k])
  {
    RunInv(r, k);
  }

  lemma ServeGives(s: State, x: Code)
    requires CommandsOk(s) && s.pc.Serving?
    ensures s.pc.command in DoServe(s, x).results && DoServe(s, x).results[s.pc.command] == x
    ensures s.pc.command !in s.results
  {
    assert s.pc.command in ServingOf(s.pc);
  }

  lemma ServeRecords(r: Trace, k: nat, c: CommandId, x: Code)
    requires IsRun(r) && k < |r.labels| && ServesAt(r, k, c, x)
    ensures c in r.states[k + 1].results && r.states[k + 1].results[c] == x && c !in r.states[k].results
  {
    RunCommands(r, k);
    assert StepAt(r, k);
    ServeGives(r.states[k], x);
  }

  /** A caller gets what its work returned. */
  lemma CallerGetsItsResult(r: Trace, k: nat, j: nat, c: CommandId, x: Code)
    requires IsRun(r) && k < j <= |r.labels| && ServesAt(r, k, c, x)
    ensures c in r.states[j].results && r.states[j].results[c] == x
  {
    ServeRecords(r, k, c, x);
    ResultIsFinal(r, k + 1, j, c);
  }

  /** A command is served at most once. */
  lemma ServedOnce(r: Trace, k: nat, j: nat, c: CommandId, x: Code, y: Code)
    requires IsRun(r) && k < |r.labels| && j < |r.labels| && ServesAt(r, k, c, x) && ServesAt(r, j, c, y)
    ensures j == k
  {
    ServeRecords(r, k, c, x);
    ServeRecords(r, j, c, y);
    if k < j {
      ResultIsFinal(r, k + 1, j, c);
    } else if j < k {
      ResultIsFinal(r, j + 1, k, c);
    }
  }

  ghost predicate Gives(s: State, l: Label, c: CommandId, v: Code) {
    || (l.Serve? && s.pc == Serving(c) && v == l.result)
    || (l.RequestShutdown? && c in s.commands && v == CLOSED)
  }

  lemma PortGives(s: State, l: Label, c: CommandId)
    requires Enabled(s, l) && IsPortStep(l) && c in NextPort(s, l).results && c !in s.results
    ensures Gives(s, l, c, NextPort(s, l).results[c])
  {
    PortFrame(s, l);
  }

  lemma LateGives(s: State, l: Label, c: CommandId)
    requires Enabled(s, l) && IsLateStep(l) && c in NextLate(s, l).results && c !in s.results
    ensures Gives(s, l, c, NextLate(s, l).results[c])
  {
    if !l.Serve? {
      LateFrame(s, l);
    }
  }

  lemma WorkerGives(s: State, l: Label, c: CommandId)
    requires Enabled(s, l) && (IsEarlyStep(l) || IsLateStep(l)) && c in Next(s, l).results && c !in s.results
    ensures Gives(s, l, c, Next(s, l).results[c])
  {
    if IsLateStep(l) {
      LateGives(s, l, c);
    } else {
      EarlyFrame(s, l);
    }
  }

  lemma StepGives(s: State, l: Label, c: CommandId)
    requires Enabled(s, l) && c in Next(s, l).results && c !in s.results
    ensures Gives(s, l, c, Next(s, l).results[c])
  {
    if IsPortStep(l) {
      PortGives(s, l, c);
    } else if !IsSignalStep(l) {
      WorkerGives(s, l, c);
    }
  }

  ghost predicate HasCause(r: Trace, j: nat, c: CommandId, v: Code)
    requires |r.states| == |r.labels| + 1 && j <= |r.labels|
  {
    exists k :: 0 <= k < j && (ServesAt(r, k, c, v) || (ClosesAt(r, k, c) && v == CLOSED))
  }

  /** Every result is what the one step that served the command returned, or CLOSED if a shutdown found it queued. */
  lemma {:induction false} ResultHasCause(r: Trace, j: nat, c: CommandId)
    requires IsRun(r) && j <= |r.labels| && c in r.states[j].results
    ensures HasCause(r, j, c, r.states[j].results[c])
  {
    if j > 0 {
      if c in r.states[j - 1].results {
        ResultHasCause(r, j - 1, c);
        ResultIsFinal(r, j - 1, j, c);
      } else {
        assert StepAt(r, j - 1);
        StepGives(r.states[j - 1], r.labels[j - 1], c);
        assert ServesAt(r, j - 1, c, r.states[j].results[c]) || ClosesAt(r, j - 1, c);
      }
    }
  }

  // ----- Which calls are accepted ------------------------------------------------------

  /** A call is queued if and only if no shutdown was requested and fewer than 8 are waiting; else nothing changes. */
  lemma CallAcceptedIff(r: Trace, k: nat)
    requires IsRun(r) && k < |r.labels| && r.labels[k].Call?
    ensures var s, s' := r.states[k], r.states[k + 1];
      if !s.closing && |s.commands| < 8
      then CallCode(s) == ACCEPTED && s'.commands == s.commands + [s.issued] && s'.issued == s.issued + 1
      else CallCode(s) == (if s.closing then CLOSED else BACKPRESSURE) && s' == s
  {
    RunInv(r, k);
    assert StepAt(r, k);
  }

  /** A task is queued if and only if the executor is open and fewer than 64 are waiting; otherwise nothing changes. */
  lemma PostAcceptedIff(r: Trace, k: nat)
    requires IsRun(r) && k < |r.labels| && r.labels[k].Post?
    ensures var s, s', t := r.states[k], r.states[k + 1], r.labels[k].task;
      if !s.executorClosed && |s.tasks| < 64
      then PostCode(s) == ACCEPTED && s'.tasks == s.tasks + [t] && s'.place == s.place[t := Queued]
      else PostCode(s) == (if s.executorClosed then CLOSED else BACKPRESSURE) && s' == s
  {
    RunInv(r, k);
    assert StepAt(r, k);
  }

  /** A timer is armed if and only if its id is not zero, the owner is open and there is room; else nothing changes. */
  lemma ArmAcceptedIff(r: Trace, k: nat)
    requires IsRun(r) && k < |r.labels| && r.labels[k].Arm?
    ensures var s, s', l := r.states[k], r.states[k + 1], r.labels[k];
      var refusal :=
        if l.id == 0 then INVALID_ARGUMENT else if s.closing || s.executorClosed then CLOSED else BACKPRESSURE;
      if l.id != 0 && !s.closing && !s.executorClosed && (l.id in s.timers || |s.timers| < 64)
      then ArmCode(s, l.id) == ACCEPTED && s'.timers == s.timers[l.id := Timer(l.deadline, l.boot, l.task)]
      else ArmCode(s, l.id) == refusal && s' == s
  {
    RunInv(r, k);
    assert StepAt(r, k);
    if ArmCode(r.states[k], r.labels[k].id) == ACCEPTED {
      ArmTimers(r.states[k], r.labels[k]);
    }
  }

  lemma ArmTimers(s: State, l: Label)
    requires Enabled(s, l) && l.Arm? && ArmCode(s, l.id) == ACCEPTED
    ensures NextPort(s, l).timers == s.timers[l.id := Timer(l.deadline, l.boot, l.task)]
  {
  }

  /** A cancel takes the timer out if and only if its id is not zero and the executor is open. */
  lemma CancelAcceptedIff(r: Trace, k: nat)
    requires IsRun(r) && k < |r.labels| && r.labels[k].Cancel?
    ensures var s, s', id := r.states[k], r.states[k + 1], r.labels[k].id;
      if id != 0 && !s.executorClosed then CancelCode(s, id) == OK && s'.timers == s.timers - {id}
      else CancelCode(s, id) == (if id == 0 then INVALID_ARGUMENT else CLOSED) && s' == s
  {
    assert StepAt(r, k);
  }

  // ----- Order -------------------------------------------------------------------------

  /** The tasks that posts have queued, in order. */
  function Posted(r: Trace, k: nat): seq<Task>
    requires |r.states| == |r.labels| + 1 && k <= |r.labels|
  {
    if k == 0 then [] else Posted(r, k - 1) + Posts(r.states[k - 1], r.labels[k - 1])
  }

  /** The task that a step queues, if it does. */
  function Posts(s: State, l: Label): seq<Task> {
    if l.Post? && PostCode(s) == ACCEPTED then [l.task] else []
  }

  /** The tasks run from the queue, in order. */
  function QueueRuns(log: seq<Event>): seq<Task> {
    if log == [] then []
    else QueueRuns(log[..|log| - 1]) + QueueRun(log[|log| - 1])
  }

  function QueueRun(e: Event): seq<Task> {
    if e.RanTask? && e.cause.FromQueue? then [e.task] else []
  }

  lemma QueueRunsAppend(log: seq<Event>, e: Event)
    ensures QueueRuns(log + [e]) == QueueRuns(log) + QueueRun(e)
  {
    assert (log + [e])[..|log + [e]| - 1] == log;
  }

  /** What the queue has let through and still holds. */
  function Line(s: State): seq<Task> {
    QueueRuns(s.log) + HandOf(s.pc) + s.tasks
  }

  lemma PostLine(s: State, t: Task)
    ensures Line(DoPost(s, t)) == Line(s) + Posts(s, Post(t))
  {
    JoinLine(QueueRuns(s.log) + HandOf(s.pc), s.tasks, t);
  }

  lemma JoinLine(front: seq<Task>, tasks: seq<Task>, t: Task)
    ensures (front + tasks) + [t] == front + (tasks + [t]) && (front + tasks) + [] == front + tasks
  {
  }

  lemma NoPost(s: State, l: Label)
    requires !l.Post?
    ensures Line(s) + Posts(s, l) == Line(s)
  {
  }

  lemma OtherPortLine(s: State, l: Label)
    requires Enabled(s, l) && IsPortStep(l) && !l.Post?
    ensures Line(NextPort(s, l)) == Line(s)
  {
    PortFrame(s, l);
    if l.ReleaseDropped? {
      QueueRunsAppend(s.log, ReleasedTask(l.task));
    }
  }

  lemma PopLine(s: State)
    requires s.pc.Draining? && s.pc.budget > 0 && s.tasks != []
    ensures Line(DoPop(s)) == Line(s)
  {
    assert s.tasks == [s.tasks[0]] + s.tasks[1..];
  }

  lemma RunPoppedLine(s: State)
    requires s.pc.Holding?
    ensures Line(DoRunPopped(s)) == Line(s)
  {
    QueueRunsAppend(s.log, RanTask(s.pc.task, FromQueue));
  }

  lemma EarlyLine(s: State, l: Label)
    requires Enabled(s, l) && IsEarlyStep(l)
    ensures Line(NextEarly(s, l)) == Line(s)
  {
    if l.Pop? {
      PopLine(s);
    } else if l.RunPopped? {
      RunPoppedLine(s);
    } else {
      EarlyFrame(s, l);
      assert HandOf(NextEarly(s, l).pc) == HandOf(s.pc) && NextEarly(s, l).tasks == s.tasks;
    }
  }

  lemma LateRuns(s: State, l: Label)
    requires Enabled(s, l) && IsLateStep(l) && ArmsOk(s.armedAs, s.place, s.timers, s.ready)
    ensures QueueRuns(NextLate(s, l).log) == QueueRuns(s.log)
  {
    if l.ReleaseRetired? {
      QueueRunsAppend(s.log, ReleasedTask(s.retired[0]));
    } else if l.RunReady? {
      QueueRunsAppend(s.log, RanTask(s.ready[0].task, s.ready[0].cause));
    } else {
      LateFrame(s, l);
    }
  }

  lemma LateLine(s: State, l: Label)
    requires Enabled(s, l) && IsLateStep(l) && ArmsOk(s.armedAs, s.place, s.timers, s.ready) && !l.Seal?
    ensures Line(NextLate(s, l)) == Line(s)
  {
    LateRuns(s, l);
    LateHand(s, l);
    LateFrame(s, l);
  }

  /** Late in its loop the worker has no task in hand. */
  lemma LateHand(s: State, l: Label)
    requires Enabled(s, l) && IsLateStep(l)
    ensures HandOf(s.pc) == [] && HandOf(NextLate(s, l).pc) == []
  {
    LateDrains(s, l);
    LatePc(s, l);
  }

  /** One step moves the line by what it posts, or seals it. */
  lemma StepLine(s: State, l: Label)
    requires Inv(s) && Enabled(s, l)
    ensures if l.Seal? then QueueRuns(Next(s, l).log) == QueueRuns(s.log) else
      Line(Next(s, l)) == Line(s) + Posts(s, l)
  {
    if l.Post? {
      PostLine(s, l.task);
    } else {
      NoPost(s, l);
      UnpostedLine(s, l);
    }
  }

  lemma UnpostedLine(s: State, l: Label)
    requires Inv(s) && Enabled(s, l) && !l.Post?
    ensures if l.Seal? then QueueRuns(Next(s, l).log) == QueueRuns(s.log) else Line(Next(s, l)) == Line(s)
  {
    if IsPortStep(l) {
      OtherPortLine(s, l);
    } else if IsEarlyStep(l) {
      EarlyLine(s, l);
    } else if l.Seal? {
      LateRuns(s, l);
    } else if IsLateStep(l) {
      LateLine(s, l);
    }
  }

  lemma StepAtLine(r: Trace, k: nat)
    requires IsRun(r) && k < |r.labels|
    ensures if r.labels[k].Seal? then QueueRuns(r.states[k + 1].log) == QueueRuns(r.states[k].log) else
      Line(r.states[k + 1]) == Line(r.states[k]) + Posts(r.states[k], r.labels[k])
  {
    RunInv(r, k);
    assert StepAt(r, k);
    StepLine(r.states[k], r.labels[k]);
  }

  /**
   First in, first out: until the executor closes, the tasks posted are those run from the
   queue, the one in hand and those still queued, in that order; afterwards what was run
   from the queue is still a prefix of what was posted.
   */
  lemma {:induction false} QueueIsFifo(r: Trace, k: nat)
    requires IsRun(r) && k <= |r.labels|
    ensures !r.states[k].executorClosed ==> Posted(r, k) == Line(r.states[k])
    ensures QueueRuns(r.states[k].log) <= Posted(r, k)
  {
    if k == 0 {
      FifoStart();
    } else {
      QueueIsFifo(r, k - 1);
      StepAtClosed(r, k - 1);
      if r.states[k].executorClosed {
        FifoClosed(r, k - 1);
      } else {
        FifoOpen(r, k - 1);
      }
    }
  }

  lemma FifoStart()
    ensures Line(INIT) == [] && QueueRuns(INIT.log) == []
  {
  }

  lemma FifoOpen(r: Trace, k: nat)
    requires IsRun(r) && k < |r.labels| && !r.labels[k].Seal? && Posted(r, k) == Line(r.states[k])
    ensures Posted(r, k + 1) == Line(r.states[k + 1]) && QueueRuns(r.states[k + 1].log) <= Posted(r, k + 1)
  {
    StepAtLine(r, k);
    LinePrefix(r.states[k + 1]);
  }

  lemma FifoClosed(r: Trace, k: nat)
    requires IsRun(r) && k < |r.labels| && r.states[k + 1].executorClosed && QueueRuns(r.states[k].log) <= Posted(r, k)
    ensures QueueRuns(r.states[k + 1].log) <= Posted(r, k + 1)
  {
    StepAtClosed(r, k);
    ClosedRuns(r, k);
  }

  lemma LinePrefix(s: State)
    ensures QueueRuns(s.log) <= Line(s)
  {
  }

  /** The executor closes at the seal, and no task is queued at it or after it. */
  lemma StepAtClosed(r: Trace, k: nat)
    requires IsRun(r) && k < |r.labels|
    ensures r.states[k + 1].executorClosed <==> r.states[k].executorClosed || r.labels[k].Seal?
    ensures r.states[k].executorClosed || r.labels[k].Seal? ==> Posts(r.states[k], r.labels[k]) == []
  {
    RunStages(r, k);
    assert StepAt(r, k);
    ClosedStep(r.states[k], r.labels[k]);
  }

  /** No task is run from the queue after the seal. */
  lemma ClosedRuns(r: Trace, k: nat)
    requires IsRun(r) && k < |r.labels| && r.states[k + 1].executorClosed
    ensures QueueRuns(r.states[k + 1].log) == QueueRuns(r.states[k].log)
  {
    StepAtClosed(r, k);
    StepAtLine(r, k);
    if !r.labels[k].Seal? {
      RunStages(r, k);
      RunStages(r, k + 1);
      ClosedLine(r.states[k]);
      ClosedLine(r.states[k + 1]);
    }
  }

  lemma ClosedStep(s: State, l: Label)
    requires StagesOk(s) && Enabled(s, l)
    ensures Next(s, l).executorClosed <==> s.executorClosed || l.Seal?
  {
    if IsPortStep(l) {
      PortFrame(s, l);
    } else if l.Seal? {
      assert DoSeal(s).executorClosed;
    } else if IsEarlyStep(l) {
      EarlyFrame(s, l);
    } else if IsLateStep(l) {
      LateFrame(s, l);
    }
  }

  /** Behind a closed executor the line is what was run from the queue. */
  lemma ClosedLine(s: State)
    requires StagesOk(s) && s.executorClosed
    ensures Line(s) == QueueRuns(s.log)
  {
  }

  /** Queued commands are in the order of their calls, and the one being served came before them. */
  ghost predicate OrderOk(commands: seq<CommandId>, serving: set<CommandId>) {
    && (forall i, j :: 0 <= i < j < |commands| ==> commands[i] < commands[j])
    && (forall c, i {:trigger c in serving, commands[i]} :: c in serving && 0 <= i < |commands| ==> c < commands[i])
  }

  lemma StepOrder(s: State, l: Label)
    requires CommandsOk(s) && OrderOk(s.commands, ServingOf(s.pc)) && Enabled(s, l)
    ensures OrderOk(Next(s, l).commands, ServingOf(Next(s, l).pc))
  {
    if IsPortStep(l) {
      PortOrder(s, l);
    } else if IsEarlyStep(l) {
      EarlyOrder(s, l);
    } else if l.Select? {
      SelectOrder(s);
    } else if IsLateStep(l) {
      LateOrder(s, l);
    }
  }

  lemma PortOrder(s: State, l: Label)
    requires CommandsOk(s) && OrderOk(s.commands, ServingOf(s.pc)) && Enabled(s, l) && IsPortStep(l)
    ensures OrderOk(NextPort(s, l).commands, ServingOf(NextPort(s, l).pc))
  {
    if l.Call? {
      CallOrder(s);
    } else {
      PortFrame(s, l);
    }
  }

  lemma EarlyOrder(s: State, l: Label)
    requires OrderOk(s.commands, ServingOf(s.pc)) && Enabled(s, l) && IsEarlyStep(l)
    ensures OrderOk(NextEarly(s, l).commands, ServingOf(NextEarly(s, l).pc))
  {
    EarlyFrame(s, l);
    assert ServingOf(NextEarly(s, l).pc) == ServingOf(s.pc);
  }

  lemma CallOrder(s: State)
    requires CommandsOk(s) && OrderOk(s.commands, ServingOf(s.pc))
    ensures OrderOk(DoCall(s).commands, ServingOf(DoCall(s).pc))
  {
    assert forall i :: 0 <= i < |s.commands| ==> s.commands[i] in s.commands;
  }

  lemma SelectOrder(s: State)
    requires OrderOk(s.commands, ServingOf(s.pc)) && s.pc.Selecting?
    ensures OrderOk(DoSelect(s).commands, ServingOf(DoSelect(s).pc))
  {
  }

  lemma LateOrder(s: State, l: Label)
    requires OrderOk(s.commands, ServingOf(s.pc)) && Enabled(s, l) && IsLateStep(l) && !l.Select?
    ensures OrderOk(NextLate(s, l).commands, ServingOf(NextLate(s, l).pc))
  {
    LateFrame(s, l);
    assert ServingOf(NextLate(s, l).pc) <= ServingOf(s.pc);
  }

  lemma {:induction false} RunOrder(r: Trace, k: nat)
    requires IsRun(r) && k <= |r.labels|
    ensures OrderOk(r.states[k].commands, ServingOf(r.states[k].pc))
  {
    if k > 0 {
      RunOrder(r, k - 1);
      RunCommands(r, k - 1);
      assert StepAt(r, k - 1);
      StepOrder(r.states[k - 1], r.labels[k - 1]);
    }
  }

  /** Commands are served in the order of their calls. */
  lemma ServedInOrder(r: Trace, k: nat, j: nat, c: CommandId, d: CommandId, x: Code, y: Code)
    requires IsRun(r) && k < j < |r.labels| && ServesAt(r, k, c, x) && ServesAt(r, j, d, y)
    ensures c < d
  {
    ServeRecords(r, j, d, y);
    ServeRecords(r, k, c, x);
    ResultIsFinal(r, k + 1, j, c);
    RunOrder(r, k);
    RunInv(r, k);
    RunInv(r, j);
    RunGrows(r, k, j);
    assert c in ServingOf(r.states[k].pc) && d in ServingOf(r.states[j].pc);
    if d < c {
      CommandHasOnePlace(r, k, d);
    }
  }

  // ----- Timers ------------------------------------------------------------------------

  /** Where a sample sends an armed timer. */
  function SentTo(timer: Timer, id: TimerId, sample: Sample): Place {
    if timer.boot != sample.boot then Retired
    else if timer.deadline <= sample.now then Ready
    else Armed(id)
  }

  /** A sample judges every armed timer: another boot retires it, a reached deadline makes it ready, any other stays. */
  lemma SampleJudges(r: Trace, k: nat, id: TimerId)
    requires IsRun(r) && k < |r.labels| && r.labels[k].Collect? && id in r.states[k].timers
    ensures var s, s' := r.states[k], r.states[k + 1]; var timer := s.timers[id];
      && timer.task in s'.place && s'.place[timer.task] == SentTo(timer, id, r.labels[k].sample)
      && (id in s'.timers <==> s'.place[timer.task].Armed?) && (id in s'.timers ==> s'.timers[id] == timer)
  {
    RunOwners(r, k);
    assert StepAt(r, k);
    CollectJudges(r.states[k], r.labels[k].sample, r.labels[k].order, id);
  }

  lemma CollectJudges(s: State, sample: Sample, order: seq<TimerId>, id: TimerId)
    requires TimersOk(s.timers, s.place) && Visits(order, s.timers) && id in s.timers
    ensures var s', timer := DoCollect(s, sample, order), s.timers[id];
      && timer.task in s'.place && s'.place[timer.task] == SentTo(timer, id, sample)
      && (id in s'.timers <==> s'.place[timer.task].Armed?) && (id in s'.timers ==> s'.timers[id] == timer)
  {
  }

  /** A task that is ready can only go on to run, and a retired one only to be released. */
  ghost predicate GoesOn(p: Place, q: Place) {
    && (p == Ready || p == Ran ==> q == Ready || q == Ran)
    && (p == Retired || p == Released ==> q == Retired || q == Released)
  }

  lemma PortGoesOn(s: State, l: Label, t: Task)
    requires OwnersOk(s) && Enabled(s, l) && IsPortStep(l) && t in s.place
    ensures t in NextPort(s, l).place && GoesOn(s.place[t], NextPort(s, l).place[t])
  {
    match l
    case Post(u) => MoveGoesOn(s.place, u, Queued, t);
    case Arm(id, deadline, boot, u) => ArmGoesOn(s, id, deadline, boot, u, t);
    case Cancel(id) => CancelGoesOn(s, id, t);
    case ReleaseDropped(u) => MoveGoesOn(s.place, u, Released, t);
    case Call => CallFrame(s);
    case RequestShutdown => ShutdownFrame(s);
  }

  lemma MoveGoesOn(place: map<Task, Place>, u: Task, q: Place, t: Task)
    requires t in place && (u in place ==> !(place[u] in {Ready, Ran, Retired, Released}))
    ensures t in place[u := q] && GoesOn(place[t], place[u := q][t])
  {
  }

  lemma DisplaceGoesOn(s: State, id: TimerId, t: Task)
    requires TimersOk(s.timers, s.place) && t in s.place
    ensures t in Displace(s, id).place && GoesOn(s.place[t], Displace(s, id).place[t])
  {
    if id in s.timers {
      MoveGoesOn(s.place, s.timers[id].task, Dropping, t);
    }
  }

  lemma ArmGoesOn(s: State, id: TimerId, deadline: nat, boot: Boot, u: Task, t: Task)
    requires TimersOk(s.timers, s.place) && u !in s.place && t in s.place
    ensures var place' := DoArm(s, id, deadline, boot, u).place; t in place' && GoesOn(s.place[t], place'[t])
  {
    DisplaceGoesOn(s, id, t);
    MoveGoesOn(Displace(s, id).place, u, Armed(id), t);
  }

  lemma CancelGoesOn(s: State, id: TimerId, t: Task)
    requires TimersOk(s.timers, s.place) && t in s.place
    ensures t in DoCancel(s, id).place && GoesOn(s.place[t], DoCancel(s, id).place[t])
  {
    DisplaceGoesOn(s, id, t);
  }

  lemma EarlyGoesOn(s: State, l: Label, t: Task)
    requires OwnersOk(s) && Enabled(s, l) && IsEarlyStep(l) && t in s.place
    ensures t in NextEarly(s, l).place && GoesOn(s.place[t], NextEarly(s, l).place[t])
  {
    if l.Pop? {
      assert s.tasks[0] in s.tasks;
    } else if l.RunPopped? {
      assert s.pc.task in HandOf(s.pc);
    } else if l.Collect? {
      assert DoCollect(s, l.sample, l.order).place[t] == Collected(s.place[t], s.timers, l.sample);
    } else {
      EarlyFrame(s, l);
    }
  }

  lemma LateGoesOn(s: State, l: Label, t: Task)
    requires OwnersOk(s) && Enabled(s, l) && IsLateStep(l) && t in s.place
    ensures t in NextLate(s, l).place && GoesOn(s.place[t], NextLate(s, l).place[t])
  {
    if l.ReleaseRetired? {
      assert s.retired[0] in s.retired;
    } else if l.RunReady? {
      assert DueTasks(s.ready)[0] == s.ready[0].task && s.ready[0].task in DueTasks(s.ready);
    } else if l.Sweep? {
      assert DoSweep(s, l.order).place[t] == if s.place[t].Armed? then Retired else s.place[t];
    } else if l.Seal? {
      assert DoSeal(s).place[t] == if s.place[t] == Queued then Retired else s.place[t];
    } else {
      LateFrame(s, l);
    }
  }

  lemma StepGoesOn(s: State, l: Label, t: Task)
    requires OwnersOk(s) && Enabled(s, l) && t in s.place
    ensures t in Next(s, l).place && GoesOn(s.place[t], Next(s, l).place[t])
  {
    if IsPortStep(l) {
      PortGoesOn(s, l, t);
    } else if IsEarlyStep(l) {
      EarlyGoesOn(s, l, t);
    } else if IsLateStep(l) {
      LateGoesOn(s, l, t);
    }
  }

  lemma {:induction false} RunGoesOn(r: Trace, j: nat, k: nat, t: Task)
    requires IsRun(r) && j <= k <= |r.labels| && t in r.states[j].place
    ensures t in r.states[k].place && GoesOn(r.states[j].place[t], r.states[k].place[t])
    decreases k - j
  {
    if j < k {
      RunGoesOn(r, j, k - 1, t);
      RunOwners(r, k - 1);
      assert StepAt(r, k - 1);
      StepGoesOn(r.states[k - 1], r.labels[k - 1], t);
    }
  }

  /** Nothing is ready or retired where the worker is not busy with it. */
  lemma SettledPlaces(s: State, t: Task)
    requires OwnersOk(s) && StagesOk(s) && !s.pc.Firing? && !s.pc.Swept? && !s.pc.Sealed? && t in s.place
    ensures s.place[t] != Ready && s.place[t] != Retired
  {
    assert s.place[t] == Ready ==> t in DueTasks(s.ready);
    assert s.place[t] == Retired ==> t in s.retired;
  }

  /**
   A due timer does fire: once a sample of its boot has reached its deadline, its task has been
   run by the time the worker goes on; and a timer of another boot has been released.
   */
  lemma DueTimerFires(r: Trace, k: nat, j: nat, id: TimerId)
    requires IsRun(r) && k < j <= |r.labels| && r.labels[k].Collect? && id in r.states[k].timers
    requires !r.states[j].pc.Firing? && !r.states[j].pc.Swept? && !r.states[j].pc.Sealed?
    ensures var timer, sample := r.states[k].timers[id], r.labels[k].sample;
      && timer.task in r.states[j].place
      && (timer.boot == sample.boot && timer.deadline <= sample.now ==> r.states[j].place[timer.task] == Ran)
      && (timer.boot != sample.boot ==> r.states[j].place[timer.task] == Released)
  {
    var t := r.states[k].timers[id].task;
    SampleJudges(r, k, id);
    RunGoesOn(r, k + 1, j, t);
    RunOwners(r, j);
    RunStages(r, j);
    SettledPlaces(r.states[j], t);
  }

  // ----- The worker's loop -------------------------------------------------------------

  predicate InDrain(pc: Pc) {
    pc.Draining? || pc.Holding?
  }

  function Popped(labels: seq<Label>): nat {
    if labels == [] then 0 else Popped(labels[..|labels| - 1]) + (if labels[|labels| - 1].Pop? then 1 else 0)
  }

  /** A step inside a drain that does not end it: a pop uses up one unit of its budget. */
  predicate StaysInDrain(pc: Pc, l: Label, pc': Pc) {
    InDrain(pc) && !l.DrainDone? ==> InDrain(pc') && pc'.budget == pc.budget - (if l.Pop? then 1 else 0)
  }

  lemma EarlyDrains(s: State, l: Label)
    requires Enabled(s, l) && IsEarlyStep(l)
    ensures StaysInDrain(s.pc, l, NextEarly(s, l).pc)
  {
    if l.Pop? {
      assert DoPop(s).pc == Holding(s.pc.phase, s.pc.budget - 1, s.tasks[0]);
    } else if l.RunPopped? {
      assert DoRunPopped(s).pc == Draining(s.pc.phase, s.pc.budget);
    }
  }

  lemma LateDrains(s: State, l: Label)
    requires Enabled(s, l) && IsLateStep(l)
    ensures !InDrain(s.pc)
  {
  }

  lemma StepDrains(s: State, l: Label)
    requires Enabled(s, l)
    ensures StaysInDrain(s.pc, l, Next(s, l).pc)
  {
    if IsPortStep(l) {
      PortFrame(s, l);
    } else if IsEarlyStep(l) {
      EarlyDrains(s, l);
    } else if IsLateStep(l) {
      LateDrains(s, l);
    }
  }

  lemma {:induction false} DrainAccount(r: Trace, i: nat, j: nat)
    requires IsRun(r) && i <= j <= |r.labels| && InDrain(r.states[i].pc)
    requires forall m {:trigger r.labels[m]} :: i <= m < j ==> !r.labels[m].DrainDone?
    ensures InDrain(r.states[j].pc) && Popped(r.labels[i..j]) + r.states[j].pc.budget == r.states[i].pc.budget
    decreases j - i
  {
    if i < j {
      DrainAccount(r, i, j - 1);
      assert r.labels[i..j][..j - i - 1] == r.labels[i..j - 1];
      assert StepAt(r, j - 1);
      StepDrains(r.states[j - 1], r.labels[j - 1]);
    }
  }

  /** A drain is entered with the whole budget. */
  predicate EntersDrain(pc: Pc, l: Label, pc': Pc) {
    InDrain(pc') && (!InDrain(pc) || l.DrainDone?) ==> pc'.Draining? && pc'.budget == 64
  }

  /** Where an early step leaves the worker. */
  lemma EarlyPc(s: State, l: Label)
    requires Enabled(s, l) && IsEarlyStep(l)
    ensures EntersDrain(s.pc, l, NextEarly(s, l).pc)
    ensures IsEnding(NextEarly(s, l).pc) ==> l == CreateFail
  {
    match l
    case CreateOk => assert NextEarly(s, l).pc == Draining(Opening, CAPACITY);
    case CreateFail => assert NextEarly(s, l).pc == Sealing;
    case Pop => assert InDrain(s.pc) && InDrain(DoPop(s).pc);
    case RunPopped => assert InDrain(s.pc) && InDrain(DoRunPopped(s).pc);
    case DrainDone => assert DoDrainDone(s).pc == AfterDrain(s.pc.phase);
    case SkipTimers => assert NextEarly(s, l).pc == Selecting;
    case Collect(sample, order) => assert DoCollect(s, sample, order).pc == Firing;
  }

  /** Where a late step leaves the worker: at the start of a drain, or on the way out only by an agreed destruction. */
  lemma LatePc(s: State, l: Label)
    requires Enabled(s, l) && IsLateStep(l)
    ensures EntersDrain(s.pc, l, NextLate(s, l).pc)
    ensures IsEnding(NextLate(s, l).pc) ==> IsEnding(s.pc) || l == Destroy(true)
  {
    match l
    case ReleaseRetired => assert DoRetire(s).pc == s.pc;
    case RunReady => assert DoRunReady(s).pc == s.pc;
    case Fired =>
    case Select => assert DoSelect(s).pc == Selected(s);
    case Serve(result) => assert DoServe(s, result).pc == Draining(Looping, CAPACITY);
    case Sweep(order) => assert DoSweep(s, order).pc == Swept;
    case SweepDone =>
    case Destroy(_) =>
    case Seal => assert DoSeal(s).pc == Sealed;
    case Finish =>
    case Recheck => assert DoRecheck(s).pc.Waiting? || DoRecheck(s).pc == Draining(Looping, CAPACITY);
  }

  lemma StepEnters(s: State, l: Label)
    requires Enabled(s, l)
    ensures EntersDrain(s.pc, l, Next(s, l).pc)
  {
    if IsPortStep(l) {
      PortFrame(s, l);
    } else if IsEarlyStep(l) {
      EarlyPc(s, l);
    } else if IsLateStep(l) {
      LatePc(s, l);
    }
  }

  /**
   A drain that is entered at step i and left at step j has run at most 64 tasks, and fewer
   only if the queue was empty when it stopped.
   */
  lemma DrainStopsRightly(r: Trace, i: nat, j: nat)
    requires IsRun(r) && i < j < |r.labels| && r.labels[j].DrainDone?
    requires (!InDrain(r.states[i].pc) || r.labels[i].DrainDone?) && InDrain(r.states[i + 1].pc)
    requires forall m {:trigger r.labels[m]} :: i < m < j ==> !r.labels[m].DrainDone?
    ensures Popped(r.labels[i + 1..j]) <= 64
    ensures Popped(r.labels[i + 1..j]) < 64 ==> r.states[j].tasks == []
  {
    assert StepAt(r, i) && StepAt(r, j);
    StepEnters(r.states[i], r.labels[i]);
    DrainAccount(r, i + 1, j);
  }

  /** The worker looks at its commands only after it has looked at its timers. */
  lemma {:induction false} TimersBeforeCommands(r: Trace, k: nat)
    requires IsRun(r) && k <= |r.labels| && r.states[k].pc.Selecting?
    ensures exists j :: 0 <= j < k && (r.labels[j].SkipTimers? || r.labels[j].Fired?) && OnlyOthers(r, j + 1, k)
  {
    if k > 0 {
      assert StepAt(r, k - 1);
      StepSelects(r.states[k - 1], r.labels[k - 1]);
      if r.labels[k - 1].SkipTimers? || r.labels[k - 1].Fired? {
        assert OnlyOthers(r, k, k);
      } else {
        TimersBeforeCommands(r, k - 1);
        var j :| 0 <= j < k - 1 && (r.labels[j].SkipTimers? || r.labels[j].Fired?) && OnlyOthers(r, j + 1, k - 1);
        assert OnlyOthers(r, j + 1, k);
      }
    }
  }

  /** Between two states only other threads have moved. */
  ghost predicate OnlyOthers(r: Trace, i: nat, k: nat)
    requires k <= |r.labels|
  {
    forall m {:trigger r.labels[m]} :: i <= m < k ==> IsPortStep(r.labels[m]) || IsSignalStep(r.labels[m])
  }

  /** What leads to the choice of a command. */
  predicate Selects(s: State, l: Label, pc': Pc) {
    pc'.Selecting? ==> l.SkipTimers? || l.Fired? || (s.pc.Selecting? && (IsPortStep(l) || IsSignalStep(l)))
  }

  lemma StepSelects(s: State, l: Label)
    requires Enabled(s, l)
    ensures Selects(s, l, Next(s, l).pc)
  {
    if IsPortStep(l) {
      PortFrame(s, l);
    } else if IsEarlyStep(l) {
      EarlySelects(s, l);
    } else if IsLateStep(l) {
      LateSelects(s, l);
    }
  }

  lemma EarlySelects(s: State, l: Label)
    requires Enabled(s, l) && IsEarlyStep(l)
    ensures Selects(s, l, NextEarly(s, l).pc)
  {
    if l.DrainDone? {
      assert DoDrainDone(s).pc == AfterDrain(s.pc.phase);
    } else if l.Collect? {
      assert DoCollect(s, l.sample, l.order).pc == Firing;
    }
  }

  lemma LateSelects(s: State, l: Label)
    requires Enabled(s, l) && IsLateStep(l)
    ensures Selects(s, l, NextLate(s, l).pc)
  {
  }

  /** The engine is destroyed before the executor of a created owner is closed, and not before it agreed. */
  lemma {:induction false} SealsAfterDestroy(r: Trace, k: nat)
    requires IsRun(r) && k <= |r.labels| && IsEnding(r.states[k].pc)
    ensures exists j :: 0 <= j < k && (r.labels[j] == Destroy(true) || r.labels[j] == CreateFail)
    ensures r.states[k].created ==> exists j :: 0 <= j < k && r.labels[j] == Destroy(true)
  {
    if k > 0 {
      var s, l := r.states[k - 1], r.labels[k - 1];
      RunStages(r, k - 1);
      assert StepAt(r, k - 1);
      StepEnds(s, l);
      if IsEnding(s.pc) {
        SealsAfterDestroy(r, k - 1);
      } else {
        assert r.labels[k - 1] == Destroy(true) || r.labels[k - 1] == CreateFail;
      }
    }
  }

  lemma StepEnds(s: State, l: Label)
    requires StagesOk(s) && Enabled(s, l) && IsEnding(Next(s, l).pc)
    ensures IsEnding(s.pc) || l == Destroy(true) || (l == CreateFail && !Next(s, l).created)
    ensures IsEnding(s.pc) ==> Next(s, l).created == s.created
  {
    if IsPortStep(l) {
      PortFrame(s, l);
    } else if IsEarlyStep(l) {
      EarlyFrame(s, l);
      EarlyPc(s, l);
    } else if IsLateStep(l) {
      LateFrame(s, l);
      LatePc(s, l);
    }
  }
}
