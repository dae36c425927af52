/**
 The session owner: one worker thread, callers that enqueue commands, and port threads that
 post tasks, arm timers and cancel them. Each label of `Next` is one critical section of
 the owner's mutex, one step the worker takes outside it, or one move of the condition
 variable. Threads that notify after their critical section owe the notification meanwhile.

 Tasks are linear resources. `place` records who owns each accepted task; `log` records
 each time a task is run or released.
 */
module SessionOwner {

  type Task = nat
  type TimerId = nat
  type CommandId = nat
  type Boot = nat

  const CAPACITY: nat := 64
  const COMMAND_CAPACITY: nat := 8

  datatype Code = OK | ACCEPTED | CLOSED | BACKPRESSURE | INVALID_ARGUMENT | BUSY | UNAVAILABLE

  datatype Timer = Timer(deadline: nat, boot: Boot, task: Task)

  /** A continuous clock sample of a given boot. */
  datatype Sample = Sample(boot: Boot, now: nat)

  datatype Place = Queued | Armed(id: TimerId) | InHand | Ready | Retired | Dropping | Ran | Released

  /** Why a task was run: from the queue, or because its timer was due at a sample. */
  datatype Cause = FromQueue | FromTimer(deadline: nat, boot: Boot, sample: Sample)

  datatype Event = RanTask(task: Task, cause: Cause) | ReleasedTask(task: Task)

  datatype Due = Due(task: Task, cause: Cause)

  datatype Phase = Opening | Looping | Stopping

  datatype Pc =
    | Creating
    | Draining(phase: Phase, budget: nat)
    | Holding(phase: Phase, budget: nat, task: Task)
    | Sampling
    | Firing
    | Selecting
    | Waiting
    | Serving(command: CommandId)
    | Sweeping
    | Swept
    | Destroying
    | Sealing
    | Sealed
    | Exited

  /** Who may wait on the condition variable: the worker, callers, the creating thread, closing threads. */
  datatype Waiter = Worker | Caller(command: CommandId) | Starter | Closer(n: nat)

  /**
   The condition variable. `waiting` are the threads inside a wait, `asleep` those of them
   (and the worker) not woken since they last looked; `owed` counts the threads that have
   left their critical section but not yet notified, and `tell` says that the worker is one.
   */
  datatype Signals = Signals(owed: nat, tell: bool, waiting: set<Waiter>, asleep: set<Waiter>)

  datatype State = State(
    tasks: seq<Task>,
    timers: map<TimerId, Timer>,
    commands: seq<CommandId>,
    closing: bool,
    executorClosed: bool,
    finished: bool,
    initialized: bool,
    created: bool,
    pc: Pc,
    ready: seq<Due>,
    retired: seq<Task>,
    dropping: set<Task>,
    place: map<Task, Place>,
    displaced: set<Task>,
    armedAs: map<Task, (nat, Boot)>,
    log: seq<Event>,
    issued: nat,
    results: map<CommandId, Code>,
    cv: Signals)

  datatype Label =
    | Post(task: Task)
    | Arm(id: TimerId, deadline: nat, boot: Boot, task: Task)
    | Cancel(id: TimerId)
    | ReleaseDropped(task: Task)
    | Call
    | RequestShutdown
    | CreateOk
    | CreateFail
    | Pop
    | RunPopped
    | DrainDone
    | SkipTimers
    | Collect(sample: Sample, order: seq<TimerId>)
    | ReleaseRetired
    | RunReady
    | Fired
    | Select
    | Serve(result: Code)
    | Sweep(order: seq<TimerId>)
    | SweepDone
    | Destroy(ok: bool)
    | Seal
    | Finish
    | Recheck
    | Tell
    | Notify
    | Spurious(waiter: Waiter)
    | Await(waiter: Waiter)
    | Check(waiter: Waiter)

  const INIT: State :=
    State([], map[], [], false, false, false, false, false, Creating, [], [], {}, map[], {}, map[], [], 0, map[],
      Signals(0, false, {}, {}))

  // ----- The condition variable --------------------------------------------------------

  /** The condition a waiter waits for. */
  predicate Wants(s: State, w: Waiter) {
    match w
    case Worker => s.closing || s.commands != [] || s.tasks != [] || s.timers != map[]
    case Caller(c) => c in s.results
    case Starter => s.initialized
    case Closer(_) => s.finished
  }

  function Roused(cv: Signals): Signals {
    cv.(asleep := {})
  }

  function Owing(cv: Signals): Signals {
    cv.(owed := cv.owed + 1)
  }

  // ----- Port calls --------------------------------------------------------------------

  function PostCode(s: State): Code {
    if s.executorClosed then CLOSED else if |s.tasks| == CAPACITY then BACKPRESSURE else ACCEPTED
  }

  function DoPost(s: State, t: Task): State {
    if PostCode(s) != ACCEPTED then s
    else s.(tasks := s.tasks + [t], place := s.place[t := Queued], cv := Roused(s.cv))
  }

  function ArmCode(s: State, id: TimerId): Code {
    if id == 0 then INVALID_ARGUMENT
    else if s.closing || s.executorClosed then CLOSED
    else if id !in s.timers && |s.timers| == CAPACITY then BACKPRESSURE
    else ACCEPTED
  }

  /** Take timer `id` out of the map, if it is there; its task is now the calling thread's to release. */
  function Displace(s: State, id: TimerId): State {
    s.(timers := s.timers - {id},
       dropping := if id in s.timers then s.dropping + {s.timers[id].task} else s.dropping,
       displaced := if id in s.timers then s.displaced + {s.timers[id].task} else s.displaced,
       place := if id in s.timers then s.place[s.timers[id].task := Dropping] else s.place)
  }

  function DoArm(s: State, id: TimerId, deadline: nat, boot: Boot, t: Task): State {
    if ArmCode(s, id) != ACCEPTED then s
    else
      var s1 := Displace(s, id);
      s1.(timers := s1.timers[id := Timer(deadline, boot, t)], place := s1.place[t := Armed(id)],
          armedAs := s1.armedAs[t := (deadline, boot)], cv := Owing(s1.cv))
  }

  function CancelCode(s: State, id: TimerId): Code {
    if id == 0 then INVALID_ARGUMENT else if s.executorClosed then CLOSED else OK
  }

  function DoCancel(s: State, id: TimerId): State {
    if CancelCode(s, id) == OK then Displace(s, id).(cv := Owing(s.cv)) else s
  }

  function Release(s: State, t: Task): State {
    s.(place := s.place[t := Released], log := s.log + [ReleasedTask(t)])
  }

  function DoRelease(s: State, t: Task): State {
    Release(s, t).(dropping := s.dropping - {t})
  }

  function Run(s: State, t: Task, cause: Cause): State {
    s.(place := s.place[t := Ran], log := s.log + [RanTask(t, cause)])
  }

  // ----- Commands ----------------------------------------------------------------------

  function CallCode(s: State): Code {
    if s.closing || s.finished then CLOSED
    else if |s.commands| == COMMAND_CAPACITY then BACKPRESSURE
    else ACCEPTED
  }

  function DoCall(s: State): State {
    if CallCode(s) != ACCEPTED then s
    else
      var w := Caller(s.issued);
      s.(commands := s.commands + [s.issued], issued := s.issued + 1,
         cv := s.cv.(waiting := s.cv.waiting + {w}, asleep := {w}))
  }

  function DoShutdown(s: State): State {
    s.(closing := true, commands := [],
       results := s.results + map c | c in s.commands :: CLOSED, cv := Owing(s.cv))
  }

  // ----- The worker --------------------------------------------------------------------

  function AfterDrain(phase: Phase): Pc {
    match phase
    case Opening => Draining(Looping, CAPACITY)
    case Looping => Sampling
    case Stopping => Destroying
  }

  function DoPop(s: State): State
    requires s.pc.Draining? && s.pc.budget > 0 && s.tasks != []
  {
    var t := s.tasks[0];
    s.(tasks := s.tasks[1..], place := s.place[t := InHand], pc := Holding(s.pc.phase, s.pc.budget - 1, t))
  }

  function DoRunPopped(s: State): State
    requires s.pc.Holding?
  {
    Run(s, s.pc.task, FromQueue).(pc := Draining(s.pc.phase, s.pc.budget))
  }

  function DoDrainDone(s: State): State
    requires s.pc.Draining?
  {
    s.(initialized := s.initialized || s.pc.phase.Opening?, pc := AfterDrain(s.pc.phase),
       cv := s.cv.(tell := s.pc.phase.Opening?))
  }

  function DoRetire(s: State): State
    requires s.retired != []
  {
    Release(s, s.retired[0]).(retired := s.retired[1..])
  }

  function DoRunReady(s: State): State
    requires s.ready != []
  {
    Run(s, s.ready[0].task, s.ready[0].cause).(ready := s.ready[1..])
  }

  function DoServe(s: State, result: Code): State
    requires s.pc.Serving?
  {
    s.(results := s.results[s.pc.command := result], pc := Draining(Looping, CAPACITY), cv := s.cv.(tell := true))
  }

  predicate IsDue(t: Timer, sample: Sample) {
    t.boot == sample.boot && t.deadline <= sample.now
  }

  predicate IsStale(t: Timer, sample: Sample) {
    t.boot != sample.boot
  }

  /** An order in which the map's iterator may visit its entries. */
  predicate Visits(order: seq<TimerId>, timers: map<TimerId, Timer>) {
    && (forall k :: 0 <= k < |order| ==> order[k] in timers)
    && (forall j, k :: 0 <= j < k < |order| ==> order[j] != order[k])
    && (forall id :: id in timers ==> id in order)
  }

  /** The ids of `order` that pass a test, in order. */
  function Pick(order: seq<TimerId>, keep: TimerId -> bool): (ids: seq<TimerId>)
    ensures forall id :: id in ids <==> id in order && keep(id)
  {
    if order == [] then []
    else
      var ids := Pick(order[..|order| - 1], keep);
      var last := order[|order| - 1];
      assert order == order[..|order| - 1] + [last];
      if keep(last) then ids + [last] else ids
  }

  function DueIds(order: seq<TimerId>, timers: map<TimerId, Timer>, sample: Sample): seq<TimerId> {
    Pick(order, id => id in timers && IsDue(timers[id], sample))
  }

  function StaleIds(order: seq<TimerId>, timers: map<TimerId, Timer>, sample: Sample): seq<TimerId> {
    Pick(order, id => id in timers && IsStale(timers[id], sample))
  }

  function DueOf(ids: seq<TimerId>, timers: map<TimerId, Timer>, sample: Sample): seq<Due>
    requires forall id :: id in ids ==> id in timers
  {
    seq(|ids|, k requires 0 <= k < |ids| =>
      Due(timers[ids[k]].task, FromTimer(timers[ids[k]].deadline, timers[ids[k]].boot, sample)))
  }

  function TasksOf(ids: seq<TimerId>, timers: map<TimerId, Timer>): seq<Task>
    requires forall id :: id in ids ==> id in timers
  {
    seq(|ids|, k requires 0 <= k < |ids| => timers[ids[k]].task)
  }

  function Collected(p: Place, timers: map<TimerId, Timer>, sample: Sample): Place {
    if p.Armed? && p.id in timers then
      if IsStale(timers[p.id], sample) then Retired else if IsDue(timers[p.id], sample) then Ready else p
    else p
  }

  function DoCollect(s: State, sample: Sample, order: seq<TimerId>): State
    requires Visits(order, s.timers)
  {
    s.(ready := DueOf(DueIds(order, s.timers, sample), s.timers, sample),
       retired := TasksOf(StaleIds(order, s.timers, sample), s.timers),
       timers :=
         map id | id in s.timers && !IsDue(s.timers[id], sample) && !IsStale(s.timers[id], sample) :: s.timers[id],
       place := map t | t in s.place :: Collected(s.place[t], s.timers, sample),
       pc := Firing)
  }

  function DoSweep(s: State, order: seq<TimerId>): State
    requires Visits(order, s.timers)
  {
    s.(retired := TasksOf(order, s.timers), timers := map[],
       place := map t | t in s.place :: if s.place[t].Armed? then Retired else s.place[t],
       pc := Swept)
  }

  /** With a timer armed the wait is timed, and ends by itself in another turn of the loop. */
  function Selected(s: State): Pc {
    if s.closing then Sweeping
    else if s.commands != [] then Serving(s.commands[0])
    else if Wants(s, Worker) then Draining(Looping, CAPACITY)
    else Waiting
  }

  function DoSelect(s: State): State {
    s.(pc := Selected(s), commands := if !s.closing && s.commands != [] then s.commands[1..] else s.commands,
       cv := if Wants(s, Worker) then s.cv else s.cv.(asleep := s.cv.asleep + {Worker}))
  }

  /** The predicate of the worker's wait, looked at after a wake-up. */
  function DoRecheck(s: State): State {
    s.(pc := if Wants(s, Worker) then Draining(Looping, CAPACITY) else Waiting,
       cv := if Wants(s, Worker) then s.cv else s.cv.(asleep := s.cv.asleep + {Worker}))
  }

  function DoSeal(s: State): State {
    s.(executorClosed := true, retired := s.tasks, tasks := [],
       place := map t | t in s.place :: if s.place[t] == Queued then Retired else s.place[t],
       pc := Sealed)
  }

  /** The labels of port threads and callers, which leave the worker's position alone. */
  predicate IsPortStep(l: Label) {
    l.Post? || l.Arm? || l.Cancel? || l.ReleaseDropped? || l.Call? || l.RequestShutdown?
  }

  /** The labels of the worker from its first step up to firing its timers. */
  predicate IsEarlyStep(l: Label) {
    l.CreateOk? || l.CreateFail? || l.Pop? || l.RunPopped? || l.DrainDone? || l.SkipTimers? || l.Collect?
  }

  /** The labels that only move the condition variable. */
  predicate IsSignalStep(l: Label) {
    l.Tell? || l.Notify? || l.Spurious? || l.Await? || l.Check?
  }

  predicate IsLateStep(l: Label) {
    !IsPortStep(l) && !IsEarlyStep(l) && !IsSignalStep(l)
  }

  predicate PortEnabled(s: State, l: Label) {
    match l
    case Post(t) => t !in s.place
    case Arm(_, _, _, t) => t !in s.place
    case ReleaseDropped(t) => t in s.dropping
    case Call => s.initialized && s.created
    case RequestShutdown => s.initialized
    case _ => true
  }

  predicate EarlyEnabled(s: State, l: Label) {
    match l
    case CreateOk => s.pc.Creating?
    case CreateFail => s.pc.Creating?
    case Pop => s.pc.Draining? && s.pc.budget > 0 && s.tasks != []
    case RunPopped => s.pc.Holding?
    case DrainDone => s.pc.Draining? && (s.pc.budget == 0 || s.tasks == [])
    case SkipTimers => s.pc.Sampling?
    case Collect(_, order) => s.pc.Sampling? && Visits(order, s.timers)
    case _ => true
  }

  predicate LateEnabled(s: State, l: Label) {
    match l
    case ReleaseRetired => (s.pc.Firing? || s.pc.Swept? || s.pc.Sealed?) && s.retired != []
    case RunReady => s.pc.Firing? && s.retired == [] && s.ready != []
    case Fired => s.pc.Firing? && s.retired == [] && s.ready == []
    case Select => s.pc.Selecting?
    case Serve(_) => s.pc.Serving?
    case Sweep(order) => s.pc.Sweeping? && Visits(order, s.timers)
    case SweepDone => s.pc.Swept? && s.retired == []
    case Destroy(_) => s.pc.Destroying?
    case Seal => s.pc.Sealing?
    case Finish => s.pc.Sealed? && s.retired == []
    case Recheck => s.pc.Waiting? && Worker !in s.cv.asleep
    case _ => true
  }

  predicate SignalEnabled(cv: Signals, l: Label) {
    match l
    case Tell => cv.tell
    case Notify => cv.owed > 0
    case Spurious(w) => w in cv.asleep
    case Await(w) => (w.Starter? || w.Closer?) && w !in cv.waiting
    case Check(w) => w in cv.waiting && w !in cv.asleep
    case _ => true
  }

  /** The worker notifies as soon as it has left the critical section that calls for it. */
  predicate Enabled(s: State, l: Label) {
    if IsPortStep(l) then PortEnabled(s, l)
    else if IsSignalStep(l) then SignalEnabled(s.cv, l)
    else !s.cv.tell && if IsEarlyStep(l) then EarlyEnabled(s, l) else LateEnabled(s, l)
  }

  function NextPort(s: State, l: Label): State
    requires Enabled(s, l) && IsPortStep(l)
  {
    match l
    case Post(t) => DoPost(s, t)
    case Arm(id, deadline, boot, t) => DoArm(s, id, deadline, boot, t)
    case Cancel(id) => DoCancel(s, id)
    case ReleaseDropped(t) => DoRelease(s, t)
    case Call => DoCall(s)
    case RequestShutdown => DoShutdown(s)
  }

  function NextEarly(s: State, l: Label): State
    requires Enabled(s, l) && IsEarlyStep(l)
  {
    match l
    case CreateOk => s.(created := true, pc := Draining(Opening, CAPACITY))
    case CreateFail => s.(initialized := true, pc := Sealing, cv := s.cv.(tell := true))
    case Pop => DoPop(s)
    case RunPopped => DoRunPopped(s)
    case DrainDone => DoDrainDone(s)
    case SkipTimers => s.(pc := Selecting)
    case Collect(sample, order) => DoCollect(s, sample, order)
  }

  function NextLate(s: State, l: Label): State
    requires Enabled(s, l) && IsLateStep(l)
  {
    match l
    case ReleaseRetired => DoRetire(s)
    case RunReady => DoRunReady(s)
    case Fired => s.(pc := Selecting)
    case Select => DoSelect(s)
    case Serve(result) => DoServe(s, result)
    case Sweep(order) => DoSweep(s, order)
    case SweepDone => s.(pc := Draining(Stopping, CAPACITY))
    case Destroy(ok) => s.(pc := if ok then Sealing else Draining(Stopping, CAPACITY))
    case Seal => DoSeal(s)
    case Finish => s.(finished := true, pc := Exited, cv := s.cv.(tell := true))
    case Recheck => DoRecheck(s)
  }

  function NextSignal(s: State, l: Label): Signals
    requires Enabled(s, l) && IsSignalStep(l)
  {
    var cv := s.cv;
    match l
    case Tell => Roused(cv).(tell := false)
    case Notify => Roused(cv).(owed := cv.owed - 1)
    case Spurious(w) => cv.(asleep := cv.asleep - {w})
    case Await(w) => if Wants(s, w) then cv else cv.(waiting := cv.waiting + {w}, asleep := cv.asleep + {w})
    case Check(w) => if Wants(s, w) then cv.(waiting := cv.waiting - {w}) else cv.(asleep := cv.asleep + {w})
  }

  function Next(s: State, l: Label): State
    requires Enabled(s, l)
  {
    if IsPortStep(l) then NextPort(s, l)
    else if IsSignalStep(l) then s.(cv := NextSignal(s, l))
    else if IsEarlyStep(l) then NextEarly(s, l)
    else NextLate(s, l)
  }
}
