/**
 Every step of the session owner preserves the invariant. Most steps move one task from
 one owner to another; three of them empty a whole container at once.
 */
module OwnerSteps {
  import opened SessionOwner
  import opened OwnerInvariant
  import opened OwnerSignals

  // ----- Moving one task ---------------------------------------------------------------

  lemma HoldsOther(ts: seq<Task>, place: map<Task, Place>, r: Place, t: Task, q: Place)
    requires Holds(ts, place, r) && (t in place ==> place[t] != r) && q != r
    ensures Holds(ts, place[t := q], r)
  {
  }

  lemma HoldsAdd(ts: seq<Task>, place: map<Task, Place>, q: Place, t: Task)
    requires Holds(ts, place, q) && (t in place ==> place[t] != q)
    ensures Holds(ts + [t], place[t := q], q)
  {
    assert t !in ts;
    assert Distinct(ts + [t]);
    forall u | u in place[t := q] && place[t := q][u] == q
      ensures u in ts + [t]
    {
      if u == t {
        assert (ts + [t])[|ts|] == t;
      } else {
        assert u in ts;
      }
    }
  }

  lemma HoldsPop(ts: seq<Task>, place: map<Task, Place>, p: Place, q: Place)
    requires Holds(ts, place, p) && ts != [] && q != p
    ensures ts[0] in place && place[ts[0]] == p
    ensures Holds(ts[1..], place[ts[0] := q], p)
  {
    assert ts[0] in ts;
    assert forall t :: t in ts[1..] ==> t in ts;
    forall t | t in place[ts[0] := q] && place[ts[0] := q][t] == p
      ensures t in ts[1..]
    {
      assert t in ts;
      var k :| 0 <= k < |ts| && ts[k] == t;
      assert ts[1..][k - 1] == t;
    }
  }

  lemma SetHoldsOther(ts: set<Task>, place: map<Task, Place>, r: Place, t: Task, q: Place)
    requires SetHolds(ts, place, r) && (t in place ==> place[t] != r) && q != r
    ensures SetHolds(ts, place[t := q], r)
  {
  }

  lemma SetHoldsAdd(ts: set<Task>, place: map<Task, Place>, q: Place, t: Task)
    requires SetHolds(ts, place, q)
    ensures SetHolds(ts + {t}, place[t := q], q)
  {
  }

  lemma SetHoldsRemove(ts: set<Task>, place: map<Task, Place>, p: Place, q: Place, t: Task)
    requires SetHolds(ts, place, p) && p != q
    ensures SetHolds(ts - {t}, place[t := q], p)
  {
  }

  lemma TimersOther(timers: map<TimerId, Timer>, place: map<Task, Place>, t: Task, q: Place)
    requires TimersOk(timers, place) && (t in place ==> !place[t].Armed?) && !q.Armed?
    ensures TimersOk(timers, place[t := q])
  {
  }

  lemma TimersRemove(timers: map<TimerId, Timer>, place: map<Task, Place>, id: TimerId, q: Place)
    requires TimersOk(timers, place) && id in timers && !q.Armed?
    ensures TimersOk(timers - {id}, place[timers[id].task := q])
  {
    var t := timers[id].task;
    var timers', place' := timers - {id}, place[t := q];
    forall u | u in place' && place'[u].Armed?
      ensures place'[u].id in timers' && timers'[place'[u].id].task == u
    {
      assert place'[u] == place[u];
    }
  }

  lemma TimersAdd(timers: map<TimerId, Timer>, place: map<Task, Place>, id: TimerId, timer: Timer)
    requires TimersOk(timers, place) && id !in timers && timer.task !in place
    ensures TimersOk(timers[id := timer], place[timer.task := Armed(id)])
  {
  }

  // ----- Owners ------------------------------------------------------------------------

  lemma PostOwners(s: State, t: Task)
    requires OwnersOk(s) && t !in s.place
    ensures OwnersOk(DoPost(s, t))
  {
    HoldsAdd(s.tasks, s.place, Queued, t);
    HoldsOther(HandOf(s.pc), s.place, InHand, t, Queued);
    HoldsOther(DueTasks(s.ready), s.place, Ready, t, Queued);
    HoldsOther(s.retired, s.place, Retired, t, Queued);
    SetHoldsOther(s.dropping, s.place, Dropping, t, Queued);
    TimersOther(s.timers, s.place, t, Queued);
  }

  lemma DisplaceOwners(s: State, id: TimerId)
    requires OwnersOk(s)
    ensures OwnersOk(Displace(s, id))
  {
    if id in s.timers {
      var t := s.timers[id].task;
      HoldsOther(s.tasks, s.place, Queued, t, Dropping);
      HoldsOther(HandOf(s.pc), s.place, InHand, t, Dropping);
      HoldsOther(DueTasks(s.ready), s.place, Ready, t, Dropping);
      HoldsOther(s.retired, s.place, Retired, t, Dropping);
      SetHoldsAdd(s.dropping, s.place, Dropping, t);
      TimersRemove(s.timers, s.place, id, Dropping);
    } else {
      assert s.timers - {id} == s.timers;
    }
  }

  lemma ArmOwners(s: State, id: TimerId, deadline: nat, boot: Boot, t: Task)
    requires OwnersOk(s) && t !in s.place
    ensures OwnersOk(DoArm(s, id, deadline, boot, t))
  {
    if ArmCode(s, id) == ACCEPTED {
      var s1 := Displace(s, id);
      DisplaceOwners(s, id);
      assert t !in s1.place;
      HoldsOther(s1.tasks, s1.place, Queued, t, Armed(id));
      HoldsOther(HandOf(s1.pc), s1.place, InHand, t, Armed(id));
      HoldsOther(DueTasks(s1.ready), s1.place, Ready, t, Armed(id));
      HoldsOther(s1.retired, s1.place, Retired, t, Armed(id));
      SetHoldsOther(s1.dropping, s1.place, Dropping, t, Armed(id));
      TimersAdd(s1.timers, s1.place, id, Timer(deadline, boot, t));
    }
  }

  lemma DropOwners(s: State, t: Task)
    requires OwnersOk(s) && t in s.dropping
    ensures OwnersOk(DoRelease(s, t))
  {
    assert s.place[t] == Dropping;
    HoldsOther(s.tasks, s.place, Queued, t, Released);
    HoldsOther(HandOf(s.pc), s.place, InHand, t, Released);
    HoldsOther(DueTasks(s.ready), s.place, Ready, t, Released);
    HoldsOther(s.retired, s.place, Retired, t, Released);
    SetHoldsRemove(s.dropping, s.place, Dropping, Released, t);
    TimersOther(s.timers, s.place, t, Released);
  }

  lemma PopOwners(s: State)
    requires OwnersOk(s) && s.pc.Draining? && s.pc.budget > 0 && s.tasks != []
    ensures OwnersOk(DoPop(s))
  {
    var t := s.tasks[0];
    HoldsPop(s.tasks, s.place, Queued, InHand);
    HoldsAdd([], s.place, InHand, t);
    assert [] + [t] == [t];
    HoldsOther(DueTasks(s.ready), s.place, Ready, t, InHand);
    HoldsOther(s.retired, s.place, Retired, t, InHand);
    SetHoldsOther(s.dropping, s.place, Dropping, t, InHand);
    TimersOther(s.timers, s.place, t, InHand);
  }

  lemma RunPoppedOwners(s: State)
    requires OwnersOk(s) && s.pc.Holding?
    ensures OwnersOk(DoRunPopped(s))
  {
    var t := s.pc.task;
    HoldsPop(HandOf(s.pc), s.place, InHand, Ran);
    HoldsOther(s.tasks, s.place, Queued, t, Ran);
    HoldsOther(DueTasks(s.ready), s.place, Ready, t, Ran);
    HoldsOther(s.retired, s.place, Retired, t, Ran);
    SetHoldsOther(s.dropping, s.place, Dropping, t, Ran);
    TimersOther(s.timers, s.place, t, Ran);
  }

  lemma RetireOwners(s: State)
    requires OwnersOk(s) && s.retired != []
    ensures OwnersOk(DoRetire(s))
  {
    var t := s.retired[0];
    HoldsPop(s.retired, s.place, Retired, Released);
    HoldsOther(s.tasks, s.place, Queued, t, Released);
    HoldsOther(HandOf(s.pc), s.place, InHand, t, Released);
    HoldsOther(DueTasks(s.ready), s.place, Ready, t, Released);
    SetHoldsOther(s.dropping, s.place, Dropping, t, Released);
    TimersOther(s.timers, s.place, t, Released);
  }

  lemma RunReadyOwners(s: State)
    requires OwnersOk(s) && s.ready != []
    ensures OwnersOk(DoRunReady(s))
  {
    var t := s.ready[0].task;
    HoldsPop(DueTasks(s.ready), s.place, Ready, Ran);
    assert DueTasks(s.ready)[1..] == DueTasks(s.ready[1..]);
    HoldsOther(s.tasks, s.place, Queued, t, Ran);
    HoldsOther(HandOf(s.pc), s.place, InHand, t, Ran);
    HoldsOther(s.retired, s.place, Retired, t, Ran);
    SetHoldsOther(s.dropping, s.place, Dropping, t, Ran);
    TimersOther(s.timers, s.place, t, Ran);
  }

  // ----- Emptying a container ----------------------------------------------------------

  lemma {:induction false} PickDistinct(order: seq<TimerId>, keep: TimerId -> bool)
    requires Distinct(order)
    ensures Distinct(Pick(order, keep)) && |Pick(order, keep)| <= |order|
  {
    if order != [] {
      var init, last := order[..|order| - 1], order[|order| - 1];
      PickDistinct(init, keep);
      assert last !in Pick(init, keep);
    }
  }

  lemma {:induction false} PickTwice(order: seq<TimerId>, keep: TimerId -> bool, other: TimerId -> bool)
    requires forall id :: !(keep(id) && other(id))
    ensures |Pick(order, keep)| + |Pick(order, other)| <= |order|
  {
    if order != [] {
      PickTwice(order[..|order| - 1], keep, other);
    }
  }

  lemma {:induction false} DistinctFits(ids: seq<TimerId>, all: set<TimerId>)
    requires Distinct(ids) && forall id :: id in ids ==> id in all
    ensures |ids| <= |all|
  {
    if ids != [] {
      var init, last := ids[..|ids| - 1], ids[|ids| - 1];
      assert last in ids;
      forall id | id in init
        ensures id in all - {last}
      {
        assert id in ids;
      }
      DistinctFits(init, all - {last});
    }
  }

  /** Emptying timers `ids` into a list moves exactly their tasks to place `p`. */
  lemma TakenTimers(
      ids: seq<TimerId>, timers: map<TimerId, Timer>, place: map<Task, Place>, place': map<Task, Place>, p: Place)
    requires Distinct(ids) && (forall id :: id in ids ==> id in timers) && TimersOk(timers, place)
    requires forall t {:trigger place'[t]} :: t in place' ==> t in place
    requires forall t {:trigger place[t]} :: t in place ==>
               t in place' && (place'[t] == p <==> place[t].Armed? && place[t].id in ids)
    ensures Holds(TasksOf(ids, timers), place', p)
  {
    var ts := TasksOf(ids, timers);
    forall k | 0 <= k < |ts|
      ensures ts[k] in place && place[ts[k]] == Armed(ids[k]) && place'[ts[k]] == p
    {
      assert ids[k] in ids;
    }
    forall t | t in place' && place'[t] == p
      ensures t in ts
    {
      assert place[t].Armed?;
      var k :| 0 <= k < |ids| && ids[k] == place[t].id;
      assert ts[k] == t;
    }
  }

  /** A bulk move that keeps place `r` as it was. */
  lemma HoldsKept(ts: seq<Task>, place: map<Task, Place>, place': map<Task, Place>, r: Place)
    requires Holds(ts, place, r)
    requires forall t {:trigger place'[t]} :: t in place' ==> t in place && (place'[t] == r ==> place[t] == r)
    requires forall t {:trigger place[t]} :: t in place ==> t in place' && (place[t] == r ==> place'[t] == r)
    ensures Holds(ts, place', r)
  {
  }

  lemma SetHoldsKept(ts: set<Task>, place: map<Task, Place>, place': map<Task, Place>, r: Place)
    requires SetHolds(ts, place, r)
    requires forall t {:trigger place'[t]} :: t in place' ==> t in place && (place'[t] == r ==> place[t] == r)
    requires forall t {:trigger place[t]} :: t in place ==> t in place' && (place[t] == r ==> place'[t] == r)
    ensures SetHolds(ts, place', r)
  {
  }

  lemma CollectedIs(timers: map<TimerId, Timer>, sample: Sample, order: seq<TimerId>, p: Place)
    requires Visits(order, timers) && (p.Armed? ==> p.id in timers) && p != Ready && p != Retired
    ensures Collected(p, timers, sample) == Ready <==> p.Armed? && p.id in DueIds(order, timers, sample)
    ensures Collected(p, timers, sample) == Retired <==> p.Armed? && p.id in StaleIds(order, timers, sample)
    ensures !p.Armed? ==> Collected(p, timers, sample) == p
    ensures Collected(p, timers, sample) in {p, Ready, Retired}
  {
  }

  lemma CollectTimers(s: State, sample: Sample, order: seq<TimerId>)
    requires TimersOk(s.timers, s.place) && Visits(order, s.timers)
    ensures TimersOk(DoCollect(s, sample, order).timers, DoCollect(s, sample, order).place)
  {
    var s' := DoCollect(s, sample, order);
    forall t | t in s'.place && s'.place[t].Armed?
      ensures s'.place[t].id in s'.timers && s'.timers[s'.place[t].id].task == t
    {
      assert s'.place[t] == Collected(s.place[t], s.timers, sample);
      assert s.place[t].Armed?;
    }
  }

  lemma CollectPlaces(s: State, sample: Sample, order: seq<TimerId>, place': map<Task, Place>)
    requires OwnersOk(s) && Visits(order, s.timers) && s.ready == [] && s.retired == []
    requires place' == DoCollect(s, sample, order).place
    ensures forall t {:trigger place'[t]} :: t in place' ==> t in s.place
    ensures forall t {:trigger s.place[t]} :: t in s.place ==>
              && t in place'
              && (place'[t] == Ready <==> s.place[t].Armed? && s.place[t].id in DueIds(order, s.timers, sample))
              && (place'[t] == Retired <==> s.place[t].Armed? && s.place[t].id in StaleIds(order, s.timers, sample))
              && (!s.place[t].Armed? ==> place'[t] == s.place[t])
              && (s.place[t].Armed? ==> place'[t] in {s.place[t], Ready, Retired})
  {
    forall t | t in s.place
      ensures place'[t] == Collected(s.place[t], s.timers, sample)
      ensures s.place[t] != Ready && s.place[t] != Retired
      ensures s.place[t].Armed? ==> s.place[t].id in s.timers
    {
      assert s.place[t] == Ready ==> t in DueTasks(s.ready);
      assert s.place[t] == Retired ==> t in s.retired;
    }
    forall t | t in s.place
      ensures place'[t] == Ready <==> s.place[t].Armed? && s.place[t].id in DueIds(order, s.timers, sample)
      ensures place'[t] == Retired <==> s.place[t].Armed? && s.place[t].id in StaleIds(order, s.timers, sample)
      ensures !s.place[t].Armed? ==> place'[t] == s.place[t]
      ensures place'[t] in {s.place[t], Ready, Retired}
    {
      CollectedIs(s.timers, sample, order, s.place[t]);
    }
  }

  /** The due and the stale timers hand their tasks over to the two lists. */
  lemma CollectLists(s: State, sample: Sample, order: seq<TimerId>)
    requires OwnersOk(s) && Visits(order, s.timers) && s.ready == [] && s.retired == []
    ensures var s' := DoCollect(s, sample, order);
      Holds(DueTasks(s'.ready), s'.place, Ready) && Holds(s'.retired, s'.place, Retired)
  {
    var s' := DoCollect(s, sample, order);
    var dueIds, staleIds := DueIds(order, s.timers, sample), StaleIds(order, s.timers, sample);
    PickDistinct(order, id => id in s.timers && IsDue(s.timers[id], sample));
    PickDistinct(order, id => id in s.timers && IsStale(s.timers[id], sample));
    assert DueTasks(s'.ready) == TasksOf(dueIds, s.timers);
    CollectPlaces(s, sample, order, s'.place);
    TakenTimers(dueIds, s.timers, s.place, s'.place, Ready);
    TakenTimers(staleIds, s.timers, s.place, s'.place, Retired);
  }

  lemma CollectOwners(s: State, sample: Sample, order: seq<TimerId>)
    requires OwnersOk(s) && s.pc.Sampling? && Visits(order, s.timers) && s.ready == [] && s.retired == []
    ensures OwnersOk(DoCollect(s, sample, order))
  {
    var place' := DoCollect(s, sample, order).place;
    CollectTimers(s, sample, order);
    CollectLists(s, sample, order);
    CollectPlaces(s, sample, order, place');
    HoldsKept(s.tasks, s.place, place', Queued);
    HoldsKept(HandOf(s.pc), s.place, place', InHand);
    SetHoldsKept(s.dropping, s.place, place', Dropping);
  }

  lemma SweepOwners(s: State, order: seq<TimerId>)
    requires OwnersOk(s) && s.pc.Sweeping? && Visits(order, s.timers) && s.ready == [] && s.retired == []
    ensures OwnersOk(DoSweep(s, order))
  {
    var s' := DoSweep(s, order);
    forall t | t in s.place
      ensures s'.place[t] == Retired <==> s.place[t].Armed? && s.place[t].id in order
    {
      assert s.place[t] == Retired ==> t in s.retired;
    }
    TakenTimers(order, s.timers, s.place, s'.place, Retired);
    HoldsKept(s.tasks, s.place, s'.place, Queued);
    HoldsKept(HandOf(s.pc), s.place, s'.place, InHand);
    HoldsKept(DueTasks(s.ready), s.place, s'.place, Ready);
    SetHoldsKept(s.dropping, s.place, s'.place, Dropping);
  }

  lemma SealOwners(s: State)
    requires OwnersOk(s) && s.pc.Sealing? && s.ready == [] && s.retired == []
    ensures OwnersOk(DoSeal(s))
  {
    var s' := DoSeal(s);
    forall t | t in s.place
      ensures s'.place[t] == Retired <==> s.place[t] == Queued
    {
      assert s.place[t] == Retired ==> t in s.retired;
    }
    HoldsKept(HandOf(s.pc), s.place, s'.place, InHand);
    HoldsKept(DueTasks(s.ready), s.place, s'.place, Ready);
    SetHoldsKept(s.dropping, s.place, s'.place, Dropping);
  }

  // ----- History -----------------------------------------------------------------------

  lemma CountAppend(log: seq<Event>, e: Event, t: Task)
    ensures EventCount(log + [e], t) == EventCount(log, t) + (if EventTask(e) == t then 1 else 0)
  {
    assert (log + [e])[..|log + [e]| - 1] == log;
  }

  /** Moving an unconsumed task between owners leaves the log right. */
  lemma MoveLog(log: seq<Event>, place: map<Task, Place>, armedAs: map<Task, (nat, Boot)>, t: Task, q: Place)
    requires CountsOk(log, place) && EntriesOk(log, place, armedAs)
    requires (t in place ==> !IsConsumed(place[t])) && !IsConsumed(q)
    ensures CountsOk(log, place[t := q]) && EntriesOk(log, place[t := q], armedAs)
  {
  }

  /** Consuming a task appends the one event it ever gets. */
  lemma ConsumeLog(log: seq<Event>, place: map<Task, Place>, armedAs: map<Task, (nat, Boot)>, e: Event)
    requires CountsOk(log, place) && EntriesOk(log, place, armedAs)
    requires EventTask(e) in place && !IsConsumed(place[EventTask(e)])
    requires e.RanTask? ==> CauseOk(e.task, e.cause, armedAs)
    ensures var place' := place[EventTask(e) := if e.RanTask? then Ran else Released];
      CountsOk(log + [e], place') && EntriesOk(log + [e], place', armedAs)
  {
    var place' := place[EventTask(e) := if e.RanTask? then Ran else Released];
    forall t: Task
      ensures EventCount(log + [e], t) == (if t in place' && IsConsumed(place'[t]) then 1 else 0)
    {
      CountAppend(log, e, t);
    }
  }

  /** A bulk move that consumes nothing leaves the log right. */
  lemma BulkLog(log: seq<Event>, place: map<Task, Place>, armedAs: map<Task, (nat, Boot)>, place': map<Task, Place>)
    requires CountsOk(log, place) && EntriesOk(log, place, armedAs)
    requires forall t {:trigger place'[t]} :: t in place' ==> t in place
    requires forall t {:trigger place[t]} :: t in place ==>
               t in place' && (if IsConsumed(place[t]) then place'[t] == place[t] else !IsConsumed(place'[t]))
    ensures CountsOk(log, place') && EntriesOk(log, place', armedAs)
  {
  }

  lemma PostHistory(s: State, t: Task)
    requires HistoryOk(s) && t !in s.place
    ensures HistoryOk(DoPost(s, t))
  {
    MoveLog(s.log, s.place, s.armedAs, t, Queued);
  }

  lemma DisplaceHistory(s: State, id: TimerId)
    requires HistoryOk(s) && TimersOk(s.timers, s.place)
    ensures HistoryOk(Displace(s, id))
  {
    if id in s.timers {
      MoveLog(s.log, s.place, s.armedAs, s.timers[id].task, Dropping);
    }
  }

  lemma EntriesArmed(log: seq<Event>, place: map<Task, Place>, armedAs: map<Task, (nat, Boot)>, t: Task, v: (nat, Boot))
    requires EntriesOk(log, place, armedAs) && t !in place
    ensures EntriesOk(log, place, armedAs[t := v])
  {
  }

  lemma ArmFreshHistory(s: State, id: TimerId, deadline: nat, boot: Boot, t: Task)
    requires HistoryOk(s) && TimersOk(s.timers, s.place) && t !in s.place && id !in s.timers
    ensures HistoryOk(s.(timers := s.timers[id := Timer(deadline, boot, t)], place := s.place[t := Armed(id)],
                         armedAs := s.armedAs[t := (deadline, boot)]))
  {
    EntriesArmed(s.log, s.place, s.armedAs, t, (deadline, boot));
    MoveLog(s.log, s.place, s.armedAs[t := (deadline, boot)], t, Armed(id));
  }

  lemma ArmHistory(s: State, id: TimerId, deadline: nat, boot: Boot, t: Task)
    requires HistoryOk(s) && OwnersOk(s) && t !in s.place
    ensures HistoryOk(DoArm(s, id, deadline, boot, t))
  {
    if ArmCode(s, id) == ACCEPTED {
      DisplaceOwners(s, id);
      DisplaceHistory(s, id);
      ArmFreshHistory(Displace(s, id), id, deadline, boot, t);
    }
  }

  lemma DropHistory(s: State, t: Task)
    requires HistoryOk(s) && SetHolds(s.dropping, s.place, Dropping) && t in s.dropping
    ensures HistoryOk(DoRelease(s, t))
  {
    ConsumeLog(s.log, s.place, s.armedAs, ReleasedTask(t));
  }

  lemma PopHistory(s: State)
    requires HistoryOk(s) && OwnersOk(s) && s.pc.Draining? && s.pc.budget > 0 && s.tasks != []
    ensures HistoryOk(DoPop(s))
  {
    assert s.tasks[0] in s.tasks;
    MoveLog(s.log, s.place, s.armedAs, s.tasks[0], InHand);
  }

  lemma RunPoppedHistory(s: State)
    requires HistoryOk(s) && OwnersOk(s) && s.pc.Holding?
    ensures HistoryOk(DoRunPopped(s))
  {
    assert s.pc.task in HandOf(s.pc);
    ConsumeLog(s.log, s.place, s.armedAs, RanTask(s.pc.task, FromQueue));
  }

  lemma RetireHistory(s: State)
    requires HistoryOk(s) && OwnersOk(s) && s.retired != []
    ensures HistoryOk(DoRetire(s))
  {
    assert s.retired[0] in s.retired;
    ConsumeLog(s.log, s.place, s.armedAs, ReleasedTask(s.retired[0]));
  }

  lemma RunReadyHistory(s: State)
    requires HistoryOk(s) && OwnersOk(s) && s.ready != []
    ensures HistoryOk(DoRunReady(s))
  {
    var d := s.ready[0];
    assert DueTasks(s.ready)[0] == d.task && d.task in DueTasks(s.ready);
    ConsumeLog(s.log, s.place, s.armedAs, RanTask(d.task, d.cause));
  }

  lemma CollectCauses(s: State, sample: Sample, order: seq<TimerId>, k: nat)
    requires ArmsOk(s.armedAs, s.place, s.timers, s.ready) && Visits(order, s.timers)
    requires k < |DoCollect(s, sample, order).ready|
    ensures var d := DoCollect(s, sample, order).ready[k]; d.cause.FromTimer? && CauseOk(d.task, d.cause, s.armedAs)
  {
    var id := DueIds(order, s.timers, sample)[k];
    assert id in DueIds(order, s.timers, sample);
    assert id in s.timers;
  }

  lemma CollectArms(s: State, sample: Sample, order: seq<TimerId>)
    requires ArmsOk(s.armedAs, s.place, s.timers, s.ready) && OwnersOk(s) && Visits(order, s.timers) && s.ready == []
    requires s.retired == []
    ensures var s' := DoCollect(s, sample, order); ArmsOk(s'.armedAs, s'.place, s'.timers, s'.ready)
  {
    var s' := DoCollect(s, sample, order);
    CollectPlaces(s, sample, order, s'.place);
    forall k | 0 <= k < |s'.ready|
      ensures s'.ready[k].cause.FromTimer? && CauseOk(s'.ready[k].task, s'.ready[k].cause, s'.armedAs)
    {
      CollectCauses(s, sample, order, k);
    }
  }

  lemma BulkDisplaced(displaced: set<Task>, place: map<Task, Place>, place': map<Task, Place>)
    requires DisplacedOk(displaced, place)
    requires forall t {:trigger place[t]} :: t in place ==> t in place' && (!place[t].Armed? ==> place'[t] == place[t])
    ensures DisplacedOk(displaced, place')
  {
  }

  lemma CollectLog(s: State, sample: Sample, order: seq<TimerId>, place': map<Task, Place>)
    requires CountsOk(s.log, s.place) && EntriesOk(s.log, s.place, s.armedAs) && DisplacedOk(s.displaced, s.place)
    requires OwnersOk(s) && Visits(order, s.timers) && s.ready == [] && s.retired == []
    requires place' == DoCollect(s, sample, order).place
    ensures CountsOk(s.log, place') && EntriesOk(s.log, place', s.armedAs) && DisplacedOk(s.displaced, place')
  {
    CollectPlaces(s, sample, order, place');
    BulkLog(s.log, s.place, s.armedAs, place');
    BulkDisplaced(s.displaced, s.place, place');
  }

  lemma CollectHistory(s: State, sample: Sample, order: seq<TimerId>)
    requires HistoryOk(s) && OwnersOk(s) && Visits(order, s.timers) && s.ready == [] && s.retired == []
    ensures HistoryOk(DoCollect(s, sample, order))
  {
    CollectLog(s, sample, order, DoCollect(s, sample, order).place);
    CollectArms(s, sample, order);
  }

  lemma SweepHistory(s: State, order: seq<TimerId>)
    requires HistoryOk(s) && Visits(order, s.timers)
    ensures HistoryOk(DoSweep(s, order))
  {
    BulkLog(s.log, s.place, s.armedAs, DoSweep(s, order).place);
  }

  lemma SealHistory(s: State)
    requires HistoryOk(s)
    ensures HistoryOk(DoSeal(s))
  {
    BulkLog(s.log, s.place, s.armedAs, DoSeal(s).place);
  }

  // ----- Commands, stages and bounds ---------------------------------------------------

  lemma LedgerPush(commands: seq<CommandId>, serving: set<CommandId>, results: map<CommandId, Code>, issued: nat)
    requires LedgerOk(commands, serving, results, issued)
    ensures LedgerOk(commands + [issued], serving, results, issued + 1)
  {
    var commands' := commands + [issued];
    assert commands'[|commands|] == issued;
    assert forall c :: c in commands' <==> c in commands || c == issued;
    forall j, k | 0 <= j < k < |commands'|
      ensures commands'[j] != commands'[k]
    {
      assert commands[j] in commands;
    }
  }

  lemma LedgerServe(commands: seq<CommandId>, results: map<CommandId, Code>, issued: nat)
    requires LedgerOk(commands, {}, results, issued) && commands != []
    ensures LedgerOk(commands[1..], {commands[0]}, results, issued)
  {
    assert commands[0] in commands;
    assert commands == [commands[0]] + commands[1..];
    assert forall c :: c in commands <==> c == commands[0] || c in commands[1..];
  }

  lemma LedgerAnswer(commands: seq<CommandId>, results: map<CommandId, Code>, issued: nat, c: CommandId, result: Code)
    requires LedgerOk(commands, {c}, results, issued)
    ensures LedgerOk(commands, {}, results[c := result], issued)
  {
    assert c in {c};
  }

  lemma LedgerCancel(commands: seq<CommandId>, serving: set<CommandId>, results: map<CommandId, Code>, issued: nat)
    requires LedgerOk(commands, serving, results, issued)
    ensures LedgerOk([], serving, results + map c | c in commands :: CLOSED, issued)
  {
  }

  /** The labels that touch the command queue. */
  predicate IsCommandStep(l: Label) {
    l.Call? || l.RequestShutdown? || l.Select? || l.Serve?
  }

  predicate SameCommands(s: State, s': State) {
    && s'.commands == s.commands && s'.results == s.results && s'.issued == s.issued && s'.closing == s.closing
    && (s'.pc.Serving? <==> s.pc.Serving?) && (s.pc.Serving? ==> s'.pc == s.pc)
  }

  lemma PostKeepsCommands(s: State, t: Task)
    ensures SameCommands(s, DoPost(s, t))
  {
  }

  lemma ArmKeepsCommands(s: State, id: TimerId, deadline: nat, boot: Boot, t: Task)
    ensures SameCommands(s, DoArm(s, id, deadline, boot, t))
  {
  }

  lemma CancelKeepsCommands(s: State, id: TimerId)
    ensures SameCommands(s, DoCancel(s, id))
  {
  }

  lemma PortKeepsCommands(s: State, l: Label)
    requires Enabled(s, l) && !IsCommandStep(l) && IsPortStep(l)
    ensures SameCommands(s, NextPort(s, l))
  {
    match l
    case Post(t) => PostKeepsCommands(s, t);
    case Arm(id, deadline, boot, t) => ArmKeepsCommands(s, id, deadline, boot, t);
    case Cancel(id) => CancelKeepsCommands(s, id);
    case ReleaseDropped(_) =>
  }

  lemma EarlyKeepsCommands(s: State, l: Label)
    requires Enabled(s, l) && IsEarlyStep(l)
    ensures SameCommands(s, NextEarly(s, l))
  {
  }

  lemma LateKeepsCommands(s: State, l: Label)
    requires Enabled(s, l) && !IsCommandStep(l) && IsLateStep(l)
    ensures SameCommands(s, NextLate(s, l))
  {
  }

  lemma SelectCommands(s: State)
    requires CommandsOk(s) && s.pc.Selecting?
    ensures CommandsOk(DoSelect(s))
  {
    assert ServingOf(s.pc) == {};
    if !s.closing && s.commands != [] {
      LedgerServe(s.commands, s.results, s.issued);
    }
  }

  lemma PortCommands(s: State, l: Label)
    requires CommandsOk(s) && Enabled(s, l) && IsPortStep(l)
    ensures CommandsOk(NextPort(s, l))
  {
    if l.Call? {
      LedgerPush(s.commands, ServingOf(s.pc), s.results, s.issued);
    } else if l.RequestShutdown? {
      LedgerCancel(s.commands, ServingOf(s.pc), s.results, s.issued);
    } else {
      PortKeepsCommands(s, l);
    }
  }

  lemma ServeCommands(s: State, result: Code)
    requires CommandsOk(s) && s.pc.Serving?
    ensures CommandsOk(DoServe(s, result))
  {
    LedgerAnswer(s.commands, s.results, s.issued, s.pc.command, result);
  }

  lemma LateCommands(s: State, l: Label)
    requires CommandsOk(s) && Enabled(s, l) && IsLateStep(l)
    ensures CommandsOk(NextLate(s, l))
  {
    if l.Select? {
      SelectCommands(s);
    } else if l.Serve? {
      ServeCommands(s, l.result);
    } else {
      LateKeepsCommands(s, l);
    }
  }

  lemma SignalCommands(s: State, cv: Signals)
    requires CommandsOk(s)
    ensures CommandsOk(s.(cv := cv))
  {
  }

  lemma EarlyCommands(s: State, l: Label)
    requires CommandsOk(s) && Enabled(s, l) && IsEarlyStep(l)
    ensures CommandsOk(NextEarly(s, l))
  {
    EarlyKeepsCommands(s, l);
  }

  lemma CommandsStep(s: State, l: Label)
    requires CommandsOk(s) && Enabled(s, l)
    ensures CommandsOk(Next(s, l))
  {
    if IsPortStep(l) {
      PortCommands(s, l);
    } else if IsSignalStep(l) {
      SignalCommands(s, NextSignal(s, l));
    } else if IsEarlyStep(l) {
      EarlyCommands(s, l);
    } else {
      LateCommands(s, l);
    }
  }

  lemma ArmStages(s: State, id: TimerId, deadline: nat, boot: Boot, t: Task)
    requires StagesOk(s)
    ensures StagesOk(DoArm(s, id, deadline, boot, t))
  {
    if ArmCode(s, id) == ACCEPTED {
      assert !s.closing && !s.executorClosed;
    }
  }

  lemma PortStages(s: State, l: Label)
    requires StagesOk(s) && Enabled(s, l) && IsPortStep(l)
    ensures StagesOk(NextPort(s, l))
  {
    if l.Arm? {
      ArmStages(s, l.id, l.deadline, l.boot, l.task);
    } else if l.Cancel? {
      assert s.timers == map[] ==> s.timers - {l.id} == map[];
    }
  }

  lemma PopStages(s: State)
    requires StagesOk(s) && s.pc.Draining? && s.pc.budget > 0 && s.tasks != []
    ensures StagesOk(DoPop(s))
  {
  }

  lemma RunPoppedStages(s: State)
    requires StagesOk(s) && s.pc.Holding?
    ensures StagesOk(DoRunPopped(s))
  {
  }

  lemma DrainDoneStages(s: State)
    requires StagesOk(s) && s.pc.Draining?
    ensures StagesOk(DoDrainDone(s))
  {
  }

  lemma CollectStages(s: State, sample: Sample, order: seq<TimerId>)
    requires StagesOk(s) && s.pc.Sampling? && Visits(order, s.timers)
    ensures StagesOk(DoCollect(s, sample, order))
  {
  }

  lemma EarlyStages(s: State, l: Label)
    requires StagesOk(s) && Enabled(s, l) && IsEarlyStep(l)
    ensures StagesOk(NextEarly(s, l))
  {
    if l.Pop? {
      PopStages(s);
    } else if l.RunPopped? {
      RunPoppedStages(s);
    } else if l.DrainDone? {
      DrainDoneStages(s);
    } else if l.Collect? {
      CollectStages(s, l.sample, l.order);
    }
  }

  lemma LateStages(s: State, l: Label)
    requires CommandsOk(s) && StagesOk(s) && Enabled(s, l) && IsLateStep(l)
    ensures StagesOk(NextLate(s, l))
  {
  }

  lemma StagesStep(s: State, l: Label)
    requires CommandsOk(s) && StagesOk(s) && Enabled(s, l)
    ensures StagesOk(Next(s, l))
  {
    if IsPortStep(l) {
      PortStages(s, l);
    } else if IsEarlyStep(l) {
      EarlyStages(s, l);
    } else if IsLateStep(l) {
      LateStages(s, l);
    }
  }

  lemma VisitsFit(order: seq<TimerId>, timers: map<TimerId, Timer>)
    requires Visits(order, timers)
    ensures |order| <= |timers|
  {
    DistinctFits(order, timers.Keys);
  }

  lemma FilterFits(timers: map<TimerId, Timer>, timers': map<TimerId, Timer>)
    requires timers'.Keys <= timers.Keys
    ensures |timers'| <= |timers|
  {
    SubsetFits(timers'.Keys, timers.Keys);
  }

  lemma {:induction false} SubsetFits(a: set<TimerId>, b: set<TimerId>)
    requires a <= b
    ensures |a| <= |b|
  {
    if a != {} {
      var x :| x in a;
      SubsetFits(a - {x}, b - {x});
    }
  }

  lemma CollectBounds(s: State, sample: Sample, order: seq<TimerId>)
    requires BoundsOk(s) && Visits(order, s.timers)
    ensures BoundsOk(DoCollect(s, sample, order))
  {
    VisitsFit(order, s.timers);
    PickTwice(order, id => id in s.timers && IsDue(s.timers[id], sample),
              id => id in s.timers && IsStale(s.timers[id], sample));
    FilterFits(s.timers, DoCollect(s, sample, order).timers);
  }

  lemma PutFits(timers: map<TimerId, Timer>, id: TimerId, timer: Timer)
    ensures |(timers - {id})[id := timer]| == |timers| + (if id in timers then 0 else 1)
    ensures |timers - {id}| <= |timers|
  {
    var put := (timers - {id})[id := timer];
    assert put.Keys == timers.Keys + {id};
    assert |put| == |put.Keys| && |timers| == |timers.Keys|;
    FilterFits(timers, timers - {id});
  }

  lemma ArmBounds(s: State, id: TimerId, deadline: nat, boot: Boot, t: Task)
    requires BoundsOk(s)
    ensures BoundsOk(DoArm(s, id, deadline, boot, t))
  {
    PutFits(s.timers, id, Timer(deadline, boot, t));
  }

  lemma DisplaceBounds(s: State, id: TimerId)
    requires BoundsOk(s)
    ensures BoundsOk(Displace(s, id))
  {
    FilterFits(s.timers, s.timers - {id});
  }

  lemma PortBounds(s: State, l: Label)
    requires BoundsOk(s) && Enabled(s, l) && IsPortStep(l)
    ensures BoundsOk(NextPort(s, l))
  {
    if l.Arm? {
      ArmBounds(s, l.id, l.deadline, l.boot, l.task);
    } else if l.Cancel? {
      DisplaceBounds(s, l.id);
    }
  }

  lemma EarlyBounds(s: State, l: Label)
    requires BoundsOk(s) && Enabled(s, l) && IsEarlyStep(l)
    ensures BoundsOk(NextEarly(s, l))
  {
    if l.Collect? {
      CollectBounds(s, l.sample, l.order);
    }
  }

  lemma LateBounds(s: State, l: Label)
    requires BoundsOk(s) && StagesOk(s) && Enabled(s, l) && IsLateStep(l)
    ensures BoundsOk(NextLate(s, l))
  {
    if l.Sweep? {
      VisitsFit(l.order, s.timers);
    }
  }

  lemma BoundsStep(s: State, l: Label)
    requires BoundsOk(s) && StagesOk(s) && Enabled(s, l)
    ensures BoundsOk(Next(s, l))
  {
    if IsPortStep(l) {
      PortBounds(s, l);
    } else if IsEarlyStep(l) {
      EarlyBounds(s, l);
    } else if IsLateStep(l) {
      LateBounds(s, l);
    }
  }

  lemma PortOwners(s: State, l: Label)
    requires OwnersOk(s) && Enabled(s, l) && IsPortStep(l)
    ensures OwnersOk(NextPort(s, l))
  {
    if l.Post? {
      PostOwners(s, l.task);
    } else if l.Arm? {
      ArmOwners(s, l.id, l.deadline, l.boot, l.task);
    } else if l.Cancel? {
      DisplaceOwners(s, l.id);
    } else if l.ReleaseDropped? {
      DropOwners(s, l.task);
    }
  }

  lemma EarlyOwners(s: State, l: Label)
    requires OwnersOk(s) && StagesOk(s) && Enabled(s, l) && IsEarlyStep(l)
    ensures OwnersOk(NextEarly(s, l))
  {
    if l.Pop? {
      PopOwners(s);
    } else if l.RunPopped? {
      RunPoppedOwners(s);
    } else if l.Collect? {
      CollectOwners(s, l.sample, l.order);
    } else {
      assert HandOf(NextEarly(s, l).pc) == HandOf(s.pc);
    }
  }

  lemma LateOwners(s: State, l: Label)
    requires OwnersOk(s) && StagesOk(s) && Enabled(s, l) && IsLateStep(l)
    ensures OwnersOk(NextLate(s, l))
  {
    if l.ReleaseRetired? {
      RetireOwners(s);
    } else if l.RunReady? {
      RunReadyOwners(s);
    } else if l.Sweep? {
      SweepOwners(s, l.order);
    } else if l.Seal? {
      SealOwners(s);
    } else {
      assert HandOf(NextLate(s, l).pc) == HandOf(s.pc);
    }
  }

  lemma OwnersStep(s: State, l: Label)
    requires OwnersOk(s) && StagesOk(s) && Enabled(s, l)
    ensures OwnersOk(Next(s, l))
  {
    if IsPortStep(l) {
      PortOwners(s, l);
    } else if IsEarlyStep(l) {
      EarlyOwners(s, l);
    } else if IsLateStep(l) {
      LateOwners(s, l);
    }
  }

  lemma CancelHistory(s: State, id: TimerId)
    requires HistoryOk(s) && TimersOk(s.timers, s.place)
    ensures HistoryOk(DoCancel(s, id))
  {
    DisplaceHistory(s, id);
  }

  lemma CallHistory(s: State)
    requires HistoryOk(s)
    ensures HistoryOk(DoCall(s)) && HistoryOk(DoShutdown(s))
  {
  }

  lemma PortHistory(s: State, l: Label)
    requires HistoryOk(s) && OwnersOk(s) && Enabled(s, l) && IsPortStep(l)
    ensures HistoryOk(NextPort(s, l))
  {
    match l
    case Post(t) => PostHistory(s, t);
    case Arm(id, deadline, boot, t) => ArmHistory(s, id, deadline, boot, t);
    case Cancel(id) => CancelHistory(s, id);
    case ReleaseDropped(t) => DropHistory(s, t);
    case Call => CallHistory(s);
    case RequestShutdown => CallHistory(s);
  }

  lemma EarlyHistory(s: State, l: Label)
    requires HistoryOk(s) && OwnersOk(s) && StagesOk(s) && Enabled(s, l) && IsEarlyStep(l)
    ensures HistoryOk(NextEarly(s, l))
  {
    if l.Pop? {
      PopHistory(s);
    } else if l.RunPopped? {
      RunPoppedHistory(s);
    } else if l.Collect? {
      CollectHistory(s, l.sample, l.order);
    }
  }

  lemma LateHistory(s: State, l: Label)
    requires HistoryOk(s) && OwnersOk(s) && StagesOk(s) && Enabled(s, l) && IsLateStep(l)
    ensures HistoryOk(NextLate(s, l))
  {
    if l.ReleaseRetired? {
      RetireHistory(s);
    } else if l.RunReady? {
      RunReadyHistory(s);
    } else if l.Sweep? {
      SweepHistory(s, l.order);
    } else if l.Seal? {
      SealHistory(s);
    }
  }

  lemma HistoryStep(s: State, l: Label)
    requires HistoryOk(s) && OwnersOk(s) && StagesOk(s) && Enabled(s, l)
    ensures HistoryOk(Next(s, l))
  {
    if IsPortStep(l) {
      PortHistory(s, l);
    } else if IsEarlyStep(l) {
      EarlyHistory(s, l);
    } else if IsLateStep(l) {
      LateHistory(s, l);
    }
  }

  /** Every step, by any thread, keeps the invariant. */
  lemma StepInv(s: State, l: Label)
    requires Inv(s) && Enabled(s, l)
    ensures Inv(Next(s, l))
  {
    OwnersStep(s, l);
    HistoryStep(s, l);
    CommandsStep(s, l);
    StagesStep(s, l);
    BoundsStep(s, l);
    SignalsStep(s, l);
  }
}
