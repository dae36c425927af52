/**
 The inductive invariant of the session owner: every accepted task has exactly one owner,
 every issued command is queued, in flight or done, and no fixed-size buffer overflows.
 */
module OwnerInvariant {
  import opened SessionOwner

  function EventTask(e: Event): Task {
    match e
    case RanTask(t, _) => t
    case ReleasedTask(t) => t
  }

  /** How many times a task has been consumed. */
  function EventCount(log: seq<Event>, t: Task): nat {
    if log == [] then 0
    else EventCount(log[..|log| - 1], t) + (if EventTask(log[|log| - 1]) == t then 1 else 0)
  }

  predicate IsConsumed(p: Place) {
    p == Ran || p == Released
  }

  // ----- One owner per task ------------------------------------------------------------

  ghost predicate Distinct(ts: seq<Task>) {
    forall j, k :: 0 <= j < k < |ts| ==> ts[j] != ts[k]
  }

  /** A list of tasks holds exactly the tasks at `p`, once each. */
  ghost predicate Holds(ts: seq<Task>, place: map<Task, Place>, p: Place) {
    && Distinct(ts)
    && (forall t {:trigger t in ts} :: t in ts ==> t in place && place[t] == p)
    && (forall t {:trigger place[t]} :: t in place && place[t] == p ==> t in ts)
  }

  function DueTasks(ready: seq<Due>): seq<Task> {
    seq(|ready|, k requires 0 <= k < |ready| => ready[k].task)
  }

  ghost predicate TimersOk(timers: map<TimerId, Timer>, place: map<Task, Place>) {
    && (forall id {:trigger timers[id]} :: id in timers ==>
          timers[id].task in place && place[timers[id].task] == Armed(id))
    && (forall t {:trigger place[t]} :: t in place && place[t].Armed? ==>
          place[t].id in timers && timers[place[t].id].task == t)
  }

  function HandOf(pc: Pc): seq<Task> {
    if pc.Holding? then [pc.task] else []
  }

  ghost predicate SetHolds(ts: set<Task>, place: map<Task, Place>, p: Place) {
    && (forall t {:trigger t in ts} :: t in ts ==> t in place && place[t] == p)
    && (forall t {:trigger place[t]} :: t in place && place[t] == p ==> t in ts)
  }

  ghost predicate OwnersOk(s: State) {
    && Holds(s.tasks, s.place, Queued)
    && Holds(HandOf(s.pc), s.place, InHand)
    && Holds(DueTasks(s.ready), s.place, Ready)
    && Holds(s.retired, s.place, Retired)
    && SetHolds(s.dropping, s.place, Dropping)
    && TimersOk(s.timers, s.place)
  }

  // ----- History -----------------------------------------------------------------------

  ghost predicate CountsOk(log: seq<Event>, place: map<Task, Place>) {
    forall t: Task {:trigger EventCount(log, t)} ::
      EventCount(log, t) == (if t in place && IsConsumed(place[t]) then 1 else 0)
  }

  /** A due task was armed with that deadline and boot, and the sample is of that boot and late enough. */
  ghost predicate CauseOk(t: Task, cause: Cause, armedAs: map<Task, (nat, Boot)>) {
    match cause
    case FromQueue => t !in armedAs
    case FromTimer(deadline, boot, sample) =>
      t in armedAs && armedAs[t] == (deadline, boot) && sample.boot == boot && deadline <= sample.now
  }

  ghost predicate EntryOk(e: Event, place: map<Task, Place>, armedAs: map<Task, (nat, Boot)>) {
    match e
    case RanTask(t, cause) => t in place && place[t] == Ran && CauseOk(t, cause, armedAs)
    case ReleasedTask(t) => t in place && place[t] == Released
  }

  ghost predicate EntriesOk(log: seq<Event>, place: map<Task, Place>, armedAs: map<Task, (nat, Boot)>) {
    forall k :: 0 <= k < |log| ==> EntryOk(log[k], place, armedAs)
  }

  ghost predicate ArmsOk(
      armedAs: map<Task, (nat, Boot)>, place: map<Task, Place>, timers: map<TimerId, Timer>, ready: seq<Due>) {
    && (forall t {:trigger t in armedAs} :: t in armedAs ==> t in place && place[t] != Queued && place[t] != InHand)
    && (forall id {:trigger timers[id]} :: id in timers ==>
          timers[id].task in armedAs && armedAs[timers[id].task] == (timers[id].deadline, timers[id].boot))
    && (forall k :: 0 <= k < |ready| ==> ready[k].cause.FromTimer? && CauseOk(ready[k].task, ready[k].cause, armedAs))
  }

  ghost predicate DisplacedOk(displaced: set<Task>, place: map<Task, Place>) {
    forall t {:trigger t in displaced} :: t in displaced ==>
          t in place && (place[t] == Dropping || place[t] == Released)
  }

  ghost predicate HistoryOk(s: State) {
    && CountsOk(s.log, s.place)
    && EntriesOk(s.log, s.place, s.armedAs)
    && ArmsOk(s.armedAs, s.place, s.timers, s.ready)
    && DisplacedOk(s.displaced, s.place)
  }

  // ----- Commands and stages -----------------------------------------------------------

  function ServingOf(pc: Pc): set<CommandId> {
    if pc.Serving? then {pc.command} else {}
  }

  /** Each issued command is queued, being served or done, and only one of these. */
  ghost predicate LedgerOk(
      commands: seq<CommandId>, serving: set<CommandId>, results: map<CommandId, Code>, issued: nat) {
    && Distinct(commands)
    && (forall c {:trigger c in commands} :: c in commands ==> c < issued && c !in results && c !in serving)
    && (forall c {:trigger c in serving} :: c in serving ==> c < issued && c !in results)
    && (forall c {:trigger c in results} :: c in results ==> c < issued)
    && (forall c: nat {:trigger c in results} :: c < issued ==> c in results || c in commands || c in serving)
  }

  ghost predicate CommandsOk(s: State) {
    && LedgerOk(s.commands, ServingOf(s.pc), s.results, s.issued)
    && (s.closing ==> s.commands == [])
  }

  predicate IsStopping(pc: Pc) {
    pc.Swept? || pc.Destroying? || ((pc.Draining? || pc.Holding?) && pc.phase == Stopping)
  }

  predicate IsEnding(pc: Pc) {
    pc.Sealing? || pc.Sealed? || pc.Exited?
  }

  predicate IsOpening(pc: Pc) {
    pc.Creating? || ((pc.Draining? || pc.Holding?) && pc.phase == Opening)
  }

  ghost predicate StagesOk(s: State) {
    && (s.ready != [] ==> s.pc.Firing?)
    && (s.retired != [] ==> s.pc.Firing? || s.pc.Swept? || s.pc.Sealed?)
    && (s.pc.Sweeping? || IsStopping(s.pc) ==> s.closing)
    && (IsStopping(s.pc) ==> s.timers == map[])
    && (IsEnding(s.pc) && s.created ==> s.closing && s.timers == map[])
    && (s.executorClosed <==> s.pc.Sealed? || s.pc.Exited?)
    && (s.finished <==> s.pc.Exited?)
    && (s.executorClosed ==> s.tasks == [])
    && (s.initialized <==> !IsOpening(s.pc))
    && (s.pc.Creating? ==> !s.created)
    && (!s.pc.Creating? && !IsEnding(s.pc) ==> s.created)
    && (s.commands != [] ==> s.created)
    && (!s.initialized ==> !s.closing)
  }

  ghost predicate BoundsOk(s: State) {
    && |s.tasks| <= CAPACITY && |s.timers| <= CAPACITY && |s.commands| <= COMMAND_CAPACITY
    && |s.ready| + |s.retired| <= CAPACITY
  }

  // ----- The condition variable --------------------------------------------------------

  /** A notification is on its way. */
  predicate IsOwed(cv: Signals) {
    cv.owed > 0 || cv.tell
  }

  /** Nobody sleeps on a condition that holds, unless a notification is on its way. */
  ghost predicate SleepersOk(s: State) {
    forall w {:trigger w in s.cv.asleep} :: w in s.cv.asleep && Wants(s, w) ==> IsOwed(s.cv)
  }

  /** Who can be asleep: threads inside a wait, and the worker at its own. */
  ghost predicate WaitersOk(cv: Signals, pc: Pc) {
    && Worker !in cv.waiting
    && (forall w {:trigger w in cv.asleep} :: w in cv.asleep ==> w in cv.waiting || w == Worker)
    && (Worker in cv.asleep ==> pc.Waiting?)
  }

  /** A caller returns only with a result. */
  ghost predicate CallersOk(waiting: set<Waiter>, issued: nat, results: map<CommandId, Code>) {
    && (forall c: nat {:trigger Caller(c) in waiting} :: Caller(c) in waiting ==> c < issued)
    && (forall c: nat {:trigger c in results} :: c < issued ==> c in results || Caller(c) in waiting)
  }

  ghost predicate SignalsOk(s: State) {
    SleepersOk(s) && WaitersOk(s.cv, s.pc) && CallersOk(s.cv.waiting, s.issued, s.results)
  }

  ghost predicate Inv(s: State) {
    OwnersOk(s) && HistoryOk(s) && CommandsOk(s) && StagesOk(s) && BoundsOk(s) && SignalsOk(s)
  }

  lemma InitInv()
    ensures Inv(INIT)
  {
  }
}
