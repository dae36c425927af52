/**
 Whole runs of the QUIC provider: what a connection close guarantees, how handles live and
 die, exactly-once terminal callbacks, all-or-nothing cancellation, and progress.
 */
module QuicRuns {
  import opened Common
  import opened QuicProvider
  import opened QuicInvariant
  import opened QuicSteps

  /** A run visits `states` and takes `labels` between them. */
  datatype Run = Run(states: seq<State>, labels: seq<Label>)

  ghost predicate StepAt(r: Run, k: int)
    requires |r.states| == |r.labels| + 1 && 0 <= k < |r.labels|
  {
    Enabled(r.states[k], r.labels[k]) && r.states[k + 1] == Next(r.states[k], r.labels[k])
  }

  ghost predicate IsRun(r: Run) {
    && |r.states| == |r.labels| + 1
    && forall k {:trigger StepAt(r, k)} :: 0 <= k < |r.labels| ==> StepAt(r, k)
  }

  /** A run of a fresh provider during which the 64-bit handle counter does not wrap. */
  ghost predicate IsProviderRun(r: Run) {
    IsRun(r) && r.states[0] == INIT && r.states[|r.labels|].issued < U64
  }

  /** Labels other than new requests of the host: the provider's own work. */
  predicate IsInternal(l: Label) {
    !l.Submit? && !l.LookupCancel?
  }

  lemma StepIssued(s: State, l: Label)
    requires Enabled(s, l)
    ensures s.issued <= Next(s, l).issued
  {
  }

  lemma {:induction false} RunIssued(r: Run, j: nat, k: nat)
    requires IsRun(r) && j <= k <= |r.labels|
    ensures r.states[j].issued <= r.states[k].issued
    decreases k - j
  {
    if j < k {
      assert StepAt(r, j);
      StepIssued(r.states[j], r.labels[j]);
      RunIssued(r, j + 1, k);
    }
  }

  /** Every state of every run satisfies the invariant. */
  lemma {:induction false} RunInv(r: Run, k: nat)
    requires IsProviderRun(r) && k <= |r.labels|
    ensures Inv(r.states[k])
  {
    if k == 0 {
      InitInv();
    } else {
      RunInv(r, k - 1);
      RunIssued(r, k, |r.labels|);
      assert StepAt(r, k - 1);
      StepInv(r.states[k - 1], r.labels[k - 1]);
    }
  }

  lemma RunOpsOk(r: Run, k: nat)
    requires IsProviderRun(r) && k <= |r.labels|
    ensures OpsOk(r.states[k].ops)
  {
    RunInv(r, k);
  }

  // ----- What never changes once it has happened ---------------------------------------

  /** The part of an operation's history that later steps cannot rewrite. */
  ghost predicate OpEvolves(o: Op, o': Op) {
    && o'.id == o.id && o'.request == o.request && o'.valid == o.valid && o'.parent == o.parent
    && (IsDrained(o) ==> IsDrained(o'))
    && (o.cut != {} ==> o'.cut == o.cut && o'.receipts == o.receipts)
    && (HasCompletion(o) ==> HasCompletion(o') && CompletionOf(o') == CompletionOf(o))
    && (o.phase == Committed ==> o'.phase == Committed)
  }

  ghost predicate Evolves(s: State, s': State) {
    && |s.ops| <= |s'.ops|
    && (forall i :: 0 <= i < |s.ops| ==> OpEvolves(s.ops[i], s'.ops[i]))
    && s.issued <= s'.issued
    && (forall h :: 1 <= h <= s.issued && h !in s.resources ==> h !in s'.resources)
  }

  lemma StepDecision(s: State, i: nat)
    requires Enabled(s, Arbitrate(i)) && OpOk(s.ops[i])
    ensures |DoArbitrate(s, i).ops| == |s.ops| && OpEvolves(s.ops[i], DoArbitrate(s, i).ops[i])
    ensures DoArbitrate(s, i).ops == s.ops[i := DoArbitrate(s, i).ops[i]]
  {
  }

  lemma StepCutoff(s: State, i: nat)
    requires Enabled(s, Cutoff(i)) && OpOk(s.ops[i])
    ensures |DoCutoff(s, i).ops| == |s.ops| && OpEvolves(s.ops[i], DoCutoff(s, i).ops[i])
    ensures DoCutoff(s, i).ops == s.ops[i := DoCutoff(s, i).ops[i]]
  {
  }

  predicate IsTailLabel(l: Label) {
    l.Drop? || l.Drain? || l.Call? || l.Return? || l.Remove?
  }

  lemma StepTail(s: State, l: Label)
    requires Enabled(s, l) && IsTailLabel(l) && OpOk(s.ops[l.op])
    ensures |Next(s, l).ops| == |s.ops| && OpEvolves(s.ops[l.op], Next(s, l).ops[l.op])
    ensures Next(s, l).ops == s.ops[l.op := Next(s, l).ops[l.op]]
  {
  }

  lemma StepOp(s: State, l: Label)
    requires Enabled(s, l) && !l.Submit? && !l.LookupCancel? && OpOk(s.ops[l.op])
    ensures |Next(s, l).ops| == |s.ops| && OpEvolves(s.ops[l.op], Next(s, l).ops[l.op])
    ensures Next(s, l).ops == s.ops[l.op := Next(s, l).ops[l.op]]
  {
    if l.Arbitrate? {
      StepDecision(s, l.op);
    } else if l.Cutoff? {
      StepCutoff(s, l.op);
    } else if IsTailLabel(l) {
      StepTail(s, l);
    }
  }

  lemma StepOps(s: State, l: Label)
    requires OpsOk(s.ops) && Enabled(s, l)
    ensures |s.ops| <= |Next(s, l).ops|
    ensures forall i :: 0 <= i < |s.ops| ==> OpEvolves(s.ops[i], Next(s, l).ops[i])
  {
    if !l.Submit? && !l.LookupCancel? {
      StepOp(s, l);
    }
  }

  /** Only terminal arbitration inserts handles, and only above the issued ones. */
  lemma StepHandles(s: State, l: Label)
    requires OpsOk(s.ops) && Enabled(s, l) && Next(s, l).issued < U64
    ensures forall h :: 1 <= h <= s.issued && h !in s.resources ==> h !in Next(s, l).resources
  {
    if l.Arbitrate? {
      var o := s.ops[l.op];
      assert OpOk(o);
      if o.phase != Cancelled && o.worker.output.Some? && o.worker.output.value.Made? {
        var fresh', n := CommitInserts(s, o.worker.output.value);
      }
    }
  }

  lemma {:induction false} RunEvolves(r: Run, j: nat, k: nat)
    requires IsProviderRun(r) && j <= k <= |r.labels|
    ensures Evolves(r.states[j], r.states[k])
    decreases k - j
  {
    if j < k {
      RunInv(r, j);
      RunInv(r, j + 1);
      assert StepAt(r, j);
      StepOps(r.states[j], r.labels[j]);
      StepHandles(r.states[j], r.labels[j]);
      StepIssued(r.states[j], r.labels[j]);
      RunEvolves(r, j + 1, k);
      var a, b, c := r.states[j], r.states[j + 1], r.states[k];
      forall i | 0 <= i < |a.ops|
        ensures OpEvolves(a.ops[i], c.ops[i])
      {
        assert OpEvolves(a.ops[i], b.ops[i]) && OpEvolves(b.ops[i], c.ops[i]);
      }
    }
  }

  // ----- A connection close that reports OK --------------------------------------------

  /** A handle cut by a close is gone from the tables of every later state. */
  lemma CutStaysCut(r: Run, j: nat, k: nat, c: nat)
    requires IsProviderRun(r) && j <= k <= |r.labels|
    requires c < |r.states[j].ops| && r.states[j].ops[c].request.CloseHandle? && r.states[j].ops[c].cut != {}
    ensures r.states[j].ops[c].request.target !in r.states[k].resources
  {
    RunInv(r, j);
    assert OpOk(r.states[j].ops[c]);
    assert r.states[j].ops[c].request.target in r.states[j].ops[c].cut;
    RunEvolves(r, j, k);
  }

  /** A step charges no operation to a handle that is not in the table. */
  lemma StepCharges(s: State, l: Label, i: nat, h: Handle)
    requires OpsOk(s.ops) && TableOk(s.resources, s.issued) && Enabled(s, l)
    requires i < |Next(s, l).ops| && Next(s, l).ops[i].parent == Some(h) && h !in s.resources
    ensures i < |s.ops| && s.ops[i].parent == Some(h)
  {
    StepOps(s, l);
  }

  lemma RunCharges(r: Run, k: nat, i: nat, h: Handle)
    requires IsProviderRun(r) && 0 < k <= |r.labels| && i < |r.states[k].ops|
    requires r.states[k].ops[i].parent == Some(h) && h !in r.states[k - 1].resources
    ensures i < |r.states[k - 1].ops| && r.states[k - 1].ops[i].parent == Some(h)
  {
    RunInv(r, k - 1);
    assert StepAt(r, k - 1);
    StepCharges(r.states[k - 1], r.labels[k - 1], i, h);
  }

  /** After the cutoff of connection `h`, no operation is ever charged to it again. */
  lemma {:induction false} NoAdmissionAfterCutoff(r: Run, j: nat, k: nat, c: nat, i: nat)
    requires IsProviderRun(r) && j <= k <= |r.labels|
    requires c < |r.states[j].ops| && r.states[j].ops[c].request.CloseHandle? && r.states[j].ops[c].cut != {}
    requires i < |r.states[k].ops|
    requires r.states[k].ops[i].parent == Some(r.states[j].ops[c].request.target)
    ensures i < |r.states[j].ops|
    decreases k - j
  {
    if k > j {
      CutStaysCut(r, j, k - 1, c);
      RunCharges(r, k, i, r.states[j].ops[c].request.target);
      NoAdmissionAfterCutoff(r, j, k - 1, c, i);
    }
  }

  /**
   When the close of a connection has decided on OK, every operation that was or ever will
   be charged to that connection had already been admitted, and its output was dropped.
   */
  lemma CloseOkMeansDrained(r: Run, j: nat, k: nat, c: nat, i: nat)
    requires IsProviderRun(r) && j <= k <= |r.labels|
    requires c < |r.states[j].ops| && r.states[j].ops[c].request.CloseHandle?
    requires HasCompletion(r.states[j].ops[c]) && CompletionOf(r.states[j].ops[c]).code == OK
    requires i < |r.states[k].ops|
    requires r.states[k].ops[i].parent == Some(r.states[j].ops[c].request.target)
    ensures i < |r.states[j].ops|
    ensures r.states[j].ops[i].worker == Dropped && IsDrained(r.states[j].ops[i])
  {
    var s := r.states[j];
    RunInv(r, j);
    assert OpOk(s.ops[c]);
    NoAdmissionAfterCutoff(r, j, k, c, i);
    RunEvolves(r, j, k);
    assert OpEvolves(s.ops[i], r.states[k].ops[i]);
    assert Closes(s.ops[c], s.ops[i].parent);
    if i in s.ops[c].receipts {
      assert AnswersOK(s.ops[c]);
    }
    assert OpOk(s.ops[i]);
  }

  // ----- Handles -----------------------------------------------------------------------

  /** Live handles are nonzero and issued, and a live stream has a live parent connection. */
  lemma StreamsHaveLiveParents(r: Run, k: nat, h: Handle)
    requires IsProviderRun(r) && k <= |r.labels| && h in r.states[k].resources
    ensures 1 <= h <= r.states[k].issued < U64
    ensures ParentOf(r.states[k].resources[h]).Some? ==>
              IsConnection(r.states[k].resources, ParentOf(r.states[k].resources[h]).value)
  {
    RunInv(r, k);
  }

  /** A handle that has left the table never comes back, and a new one was never there. */
  lemma HandlesAreNotReused(r: Run, j: nat, k: nat, h: Handle)
    requires IsProviderRun(r) && j <= k <= |r.labels|
    requires h !in r.states[j].resources && h in r.states[k].resources
    ensures r.states[j].issued < h
    ensures forall m :: 0 <= m <= j ==> h !in r.states[m].resources
  {
    RunInv(r, k);
    RunEvolves(r, j, k);
    forall m | 0 <= m <= j
      ensures h !in r.states[m].resources
    {
      RunInv(r, m);
      RunIssued(r, m, j);
    }
  }

  /** A handle in a run: every issued handle is live, or exactly one close cut it. */
  lemma HandlesAreConserved(r: Run, k: nat, h: Handle)
    requires IsProviderRun(r) && k <= |r.labels| && 1 <= h <= r.states[k].issued
    ensures h in r.states[k].resources <==>
              !exists i :: 0 <= i < |r.states[k].ops| && h in r.states[k].ops[i].cut
    ensures forall i, j :: 0 <= i < j < |r.states[k].ops| && h in r.states[k].ops[i].cut ==>
              h !in r.states[k].ops[j].cut
  {
    RunInv(r, k);
    var s := r.states[k];
    if h !in s.resources {
      assert WasCut(s.ops, h);
    }
    forall i, j | 0 <= i < j < |s.ops| && h in s.ops[i].cut
      ensures h !in s.ops[j].cut
    {
      assert s.ops[i].cut !! s.ops[j].cut;
    }
  }

  /** The next handle is nonzero and was never used, exactly when the counter will not wrap. */
  lemma NextHandleFreshIff(s: State)
    requires Inv(s)
    ensures (NextHandle(s, 0) != 0 && NextHandle(s, 0) > s.issued && NextHandle(s, 0) !in s.resources)
            <==> s.issued + 1 < U64
    ensures s.issued + 1 == U64 ==> NextHandle(s, 0) == 0
  {
    var h := 1 + s.issued;
    if h < U64 {
      assert NextHandle(s, 0) == h;
    } else {
      assert NextHandle(s, 0) < U64 <= h;
    }
  }

  // ----- Exactly one terminal callback --------------------------------------------------

  function CallsIn(labels: seq<Label>, i: nat): nat {
    if labels == [] then 0
    else CallsIn(labels[..|labels| - 1], i) + (if labels[|labels| - 1] == Call(i) then 1 else 0)
  }

  lemma StepLogs(s: State, l: Label, i: nat)
    requires Enabled(s, l)
    ensures CallCount(Next(s, l).log, i) == CallCount(s.log, i) + (if l == Call(i) then 1 else 0)
  {
    if l.Call? {
      CountAppend(s.log, Callback(l.op, s.ops[l.op].id, s.ops[l.op].supervisor.completion), i);
    }
  }

  lemma {:induction false} CallsMatchLog(r: Run, k: nat, i: nat)
    requires IsRun(r) && r.states[0] == INIT && k <= |r.labels|
    ensures CallsIn(r.labels[..k], i) == CallCount(r.states[k].log, i)
  {
    if k > 0 {
      CallsMatchLog(r, k - 1, i);
      assert r.labels[..k][..k - 1] == r.labels[..k - 1];
      assert StepAt(r, k - 1);
      StepLogs(r.states[k - 1], r.labels[k - 1], i);
    }
  }

  /**
   Every accepted instance has been called back once when it has given up its id, and at
   most once before; an instance that was never accepted has no callback at all.
   */
  lemma ExactlyOneCallback(r: Run, i: nat)
    requires IsProviderRun(r)
    ensures var s := r.states[|r.labels|];
      CallsIn(r.labels, i) == (if i < |s.ops| && IsCalled(s.ops[i]) then 1 else 0)
  {
    RunInv(r, |r.labels|);
    CallsMatchLog(r, |r.labels|, i);
    assert r.labels[..|r.labels|] == r.labels;
  }

  /** The submits among the first `k` labels that were answered ACCEPTED. */
  function AcceptedSubmits(r: Run, k: nat): nat
    requires |r.states| == |r.labels| + 1 && k <= |r.labels|
  {
    if k == 0 then 0
    else AcceptedSubmits(r, k - 1) + (if Accepts(r.states[k - 1], r.labels[k - 1]) then 1 else 0)
  }

  predicate Accepts(s: State, l: Label) {
    l.Submit? && SubmitCode(s, l.id) == ACCEPTED
  }

  /** The terminal callbacks among the labels. */
  function Callbacks(labels: seq<Label>): nat {
    if labels == [] then 0
    else Callbacks(labels[..|labels| - 1]) + (if labels[|labels| - 1].Call? then 1 else 0)
  }

  function CalledOps(ops: seq<Op>): nat {
    if ops == [] then 0 else (if IsCalled(ops[0]) then 1 else 0) + CalledOps(ops[1..])
  }

  lemma {:induction false} CalledOpsUpdate(ops: seq<Op>, i: nat, o': Op)
    requires i < |ops|
    ensures CalledOps(ops[i := o'])
         == CalledOps(ops) - (if IsCalled(ops[i]) then 1 else 0) + (if IsCalled(o') then 1 else 0)
  {
    if i > 0 {
      assert ops[i := o'][1..] == ops[1..][i - 1 := o'];
      CalledOpsUpdate(ops[1..], i - 1, o');
    } else {
      assert ops[0 := o'][1..] == ops[1..];
    }
  }

  lemma {:induction false} CalledOpsAppend(ops: seq<Op>, o: Op)
    ensures CalledOps(ops + [o]) == CalledOps(ops) + (if IsCalled(o) then 1 else 0)
  {
    if ops == [] {
      assert [o][1..] == [];
    } else {
      assert (ops + [o])[1..] == ops[1..] + [o];
      CalledOpsAppend(ops[1..], o);
    }
  }

  lemma {:induction false} CalledOpsAll(ops: seq<Op>)
    ensures CalledOps(ops) <= |ops|
    ensures CalledOps(ops) == |ops| <==> forall i :: 0 <= i < |ops| ==> IsCalled(ops[i])
  {
    if ops != [] {
      CalledOpsAll(ops[1..]);
      assert forall i :: 1 <= i < |ops| ==> ops[i] == ops[1..][i - 1];
    }
  }

  lemma TailCalled(s: State, l: Label)
    requires Enabled(s, l) && IsTailLabel(l)
    ensures l.op < |Next(s, l).ops|
    ensures IsCalled(Next(s, l).ops[l.op]) <==> IsCalled(s.ops[l.op]) || l.Call?
    ensures l.Call? ==> !IsCalled(s.ops[l.op])
  {
  }

  lemma StepCalled(s: State, l: Label)
    requires OpsOk(s.ops) && Enabled(s, l) && IsInternal(l)
    ensures l.op < |Next(s, l).ops|
    ensures IsCalled(Next(s, l).ops[l.op]) <==> IsCalled(s.ops[l.op]) || l.Call?
    ensures l.Call? ==> !IsCalled(s.ops[l.op])
  {
    if IsTailLabel(l) {
      TailCalled(s, l);
    }
  }

  lemma StepCounts(s: State, l: Label)
    requires OpsOk(s.ops) && Enabled(s, l)
    ensures |Next(s, l).ops| == |s.ops| + (if Accepts(s, l) then 1 else 0)
    ensures CalledOps(Next(s, l).ops) == CalledOps(s.ops) + (if l.Call? then 1 else 0)
  {
    if IsInternal(l) {
      StepOp(s, l);
      StepCalled(s, l);
      CalledOpsUpdate(s.ops, l.op, Next(s, l).ops[l.op]);
    } else if Accepts(s, l) {
      CalledOpsAppend(s.ops, Next(s, l).ops[|s.ops|]);
    }
  }

  lemma {:induction false} CountsMatch(r: Run, k: nat)
    requires IsProviderRun(r) && k <= |r.labels|
    ensures AcceptedSubmits(r, k) == |r.states[k].ops|
    ensures Callbacks(r.labels[..k]) == CalledOps(r.states[k].ops)
  {
    if k > 0 {
      CountsMatch(r, k - 1);
      RunOpsOk(r, k - 1);
      assert r.labels[..k][..k - 1] == r.labels[..k - 1];
      assert StepAt(r, k - 1);
      StepCounts(r.states[k - 1], r.labels[k - 1]);
    }
  }

  /**
   Over every run the callbacks never outnumber the ACCEPTED submits, and they are as many
   if and only if every accepted operation has been called back. So a rejected submit gets
   no callback.
   */
  lemma CallbacksMatchSubmits(r: Run)
    requires IsProviderRun(r)
    ensures var s := r.states[|r.labels|];
      && Callbacks(r.labels) <= AcceptedSubmits(r, |r.labels|) == |s.ops|
      && (Callbacks(r.labels) == AcceptedSubmits(r, |r.labels|) <==>
            forall i :: 0 <= i < |s.ops| ==> IsCalled(s.ops[i]))
  {
    CountsMatch(r, |r.labels|);
    assert r.labels[..|r.labels|] == r.labels;
    CalledOpsAll(r.states[|r.labels|].ops);
  }

  /**
   From its admission until its callback has returned and its entry is removed, an instance
   owns its id: resubmission is DUPLICATE, and the entry the removal finds is its own.
   */
  lemma IdStaysOwned(r: Run, k: nat, i: nat)
    requires IsProviderRun(r) && k <= |r.labels| && i < |r.states[k].ops|
    requires !r.states[k].ops[i].supervisor.Gone?
    ensures SubmitCode(r.states[k], r.states[k].ops[i].id) == DUPLICATE
    ensures r.states[k].pending[r.states[k].ops[i].id] == i
    ensures forall j :: 0 <= j < |r.states[k].ops| && j != i && r.states[k].ops[j].id == r.states[k].ops[i].id ==>
              r.states[k].ops[j].supervisor.Gone?
  {
    RunInv(r, k);
    assert OpOk(r.states[k].ops[i]);
  }

  // ----- Cancellation arbitration -------------------------------------------------------

  /** A CANCELLED terminal means no handle was inserted or removed, and no other one says so. */
  lemma CancelIsAllOrNothing(r: Run, k: nat, i: nat)
    requires IsProviderRun(r) && k <= |r.labels| && i < |r.states[k].ops|
    requires HasCompletion(r.states[k].ops[i])
    ensures var o := r.states[k].ops[i];
      && (CompletionOf(o).code == CANCELLED <==> o.phase == Cancelled)
      && (CompletionOf(o).code == CANCELLED ==> o.made == [] && o.cut == {} && CompletionOf(o).handles == [])
      && (IsCreator(o) && CompletionOf(o).code == OK ==> o.made != [] && CompletionOf(o).handles == o.made)
      && (o.request.CloseHandle? && CompletionOf(o).code == OK ==> o.request.target in o.cut)
  {
    RunInv(r, k);
    assert OpOk(r.states[k].ops[i]);
  }

  lemma NoCancelLater(o: Op, o': Op)
    requires OpOk(o) && OpOk(o') && OpEvolves(o, o')
    requires o.phase == Closing || o.phase == Committed
    ensures o'.phase != Cancelled
    ensures HasCompletion(o') ==> CompletionOf(o').code != CANCELLED
  {
  }

  /** Past its cutoff or its commit an operation can no longer end CANCELLED. */
  lemma NoCancelAfterCutoffOrCommit(r: Run, j: nat, k: nat, i: nat)
    requires IsProviderRun(r) && j <= k <= |r.labels| && i < |r.states[j].ops|
    requires r.states[j].ops[i].phase == Closing || r.states[j].ops[i].phase == Committed
    ensures i < |r.states[k].ops| && r.states[k].ops[i].phase != Cancelled
    ensures HasCompletion(r.states[k].ops[i]) ==> CompletionOf(r.states[k].ops[i]).code != CANCELLED
    ensures Enabled(r.states[j], ApplyCancel(i)) ==> Next(r.states[j], ApplyCancel(i)).ops == r.states[j].ops
  {
    RunOpsOk(r, j);
    RunOpsOk(r, k);
    RunEvolves(r, j, k);
    NoCancelLater(r.states[j].ops[i], r.states[k].ops[i]);
  }

  /** A bidirectional creator inserts both halves in one step, or nothing at all. */
  lemma BidiIsAtomic(s: State, i: nat, send: Resource, recv: Resource)
    requires TableOk(s.resources, s.issued) && Enabled(s, Arbitrate(i)) && OpOk(s.ops[i])
    requires Next(s, Arbitrate(i)).issued < U64
    requires s.ops[i].worker == Finished(Some(Made(Bidi(send, recv))))
    ensures var s' := Next(s, Arbitrate(i)); var c := CompletionOf(s'.ops[i]);
      if c.code == OK then
        && |c.handles| == 2 && c.handles[0] != c.handles[1]
        && c.handles[0] !in s.resources && c.handles[1] !in s.resources
        && s'.resources == s.resources[c.handles[0] := send][c.handles[1] := recv]
      else s'.resources == s.resources && c.handles == []
  {
  }

  // ----- Progress -----------------------------------------------------------------------

  function Weight(o: Op): nat {
    match o.supervisor
    case Gone(_) => 0
    case Returned(_) => 1
    case Calling(_) => 2
    case Drained(_) => 3
    case Cleared(_) => 4
    case Decided(_) => 5
    case Joining =>
      match o.worker
      case Held => 10
      case Running => 9
      case Locked => 8
      case Waiting => 7
      case _ => 6
  }

  function TotalWeight(ops: seq<Op>): nat {
    if ops == [] then 0 else Weight(ops[0]) + TotalWeight(ops[1..])
  }

  function Measure(s: State): nat {
    TotalWeight(s.ops) + |s.cancelling|
  }

  lemma {:induction false} TotalWeightUpdate(ops: seq<Op>, i: nat, o': Op)
    requires i < |ops|
    ensures TotalWeight(ops[i := o']) == TotalWeight(ops) - Weight(ops[i]) + Weight(o')
  {
    if i > 0 {
      assert ops[i := o'][1..] == ops[1..][i - 1 := o'];
      TotalWeightUpdate(ops[1..], i - 1, o');
    } else {
      assert ops[0 := o'][1..] == ops[1..];
    }
  }

  lemma TailWeight(s: State, l: Label)
    requires Enabled(s, l) && IsTailLabel(l)
    ensures l.op < |Next(s, l).ops| && Weight(Next(s, l).ops[l.op]) + 1 <= Weight(s.ops[l.op])
  {
  }

  lemma DecisionWeight(s: State, i: nat)
    requires Enabled(s, Arbitrate(i)) && OpOk(s.ops[i])
    ensures i < |DoArbitrate(s, i).ops| && Weight(DoArbitrate(s, i).ops[i]) + 1 <= Weight(s.ops[i])
  {
    StepDecision(s, i);
  }

  lemma CutoffWeight(s: State, i: nat)
    requires Enabled(s, Cutoff(i)) && OpOk(s.ops[i])
    ensures i < |DoCutoff(s, i).ops| && Weight(DoCutoff(s, i).ops[i]) + 1 <= Weight(s.ops[i])
  {
    StepCutoff(s, i);
  }

  lemma StepWeight(s: State, l: Label)
    requires Enabled(s, l) && IsInternal(l) && OpOk(s.ops[l.op])
    ensures l.op < |Next(s, l).ops|
    ensures Weight(Next(s, l).ops[l.op]) + (if l.ApplyCancel? then 0 else 1) <= Weight(s.ops[l.op])
  {
    if l.Arbitrate? {
      DecisionWeight(s, l.op);
    } else if l.Cutoff? {
      CutoffWeight(s, l.op);
    } else if IsTailLabel(l) {
      TailWeight(s, l);
    }
  }

  lemma InternalDecreases(s: State, l: Label)
    requires OpsOk(s.ops) && Enabled(s, l) && IsInternal(l)
    ensures Measure(Next(s, l)) < Measure(s)
  {
    StepOp(s, l);
    StepWeight(s, l);
    TotalWeightUpdate(s.ops, l.op, Next(s, l).ops[l.op]);
  }

  /** The holder of a stream's mutex waits for nobody but the transport. */
  lemma HolderCanFinish(s: State, h: Handle) returns (l: Label)
    requires OpsOk(s.ops) && !LockFree(s.ops, h)
    ensures IsInternal(l) && Enabled(s, l)
  {
    var j :| 0 <= j < |s.ops| && HoldsLock(s.ops[j], h);
    assert OpOk(s.ops[j]);
    l := Finish(j, Reply(FAILED));
  }

  /** A worker that has been started, and is not a close past its cutoff, can go on or waits for a mutex. */
  lemma RunningCanMove(s: State, i: nat) returns (l: Label)
    requires OpsOk(s.ops) && i < |s.ops| && s.ops[i].worker.Running?
    ensures IsInternal(l) && Enabled(s, l)
  {
    var o := s.ops[i];
    if o.valid && o.request.CloseHandle? {
      l := Cutoff(i);
    } else if !NeedsLock(o) {
      l := Finish(i, if o.valid then Reply(FAILED) else Reply(INVALID_HANDLE));
    } else if LockFree(s.ops, o.request.stream) {
      l := Acquire(i);
    } else {
      l := HolderCanFinish(s, o.request.stream);
    }
  }

  /** A close that waits for no receipt can settle, or waits for the mutex of its stream. */
  lemma WaitingCanMove(s: State, i: nat) returns (l: Label)
    requires OpsOk(s.ops) && i < |s.ops| && s.ops[i].worker.Waiting?
    requires forall r :: r in s.ops[i].receipts ==> r < |s.ops| && IsDrained(s.ops[r])
    ensures IsInternal(l) && Enabled(s, l)
  {
    assert OpOk(s.ops[i]);
    if s.ops[i].parent.Some? && !LockFree(s.ops, s.ops[i].request.target) {
      l := HolderCanFinish(s, s.ops[i].request.target);
    } else {
      l := Settle(i);
    }
  }

  /** An operation that waits for no receipt can take a step, or its mutex's holder can. */
  lemma CanMove(s: State, i: nat) returns (l: Label)
    requires OpsOk(s.ops) && i < |s.ops| && !s.ops[i].supervisor.Gone?
    requires s.ops[i].worker.Waiting? ==> forall r :: r in s.ops[i].receipts ==> r < |s.ops| && IsDrained(s.ops[r])
    ensures IsInternal(l) && Enabled(s, l)
  {
    var o := s.ops[i];
    assert OpOk(o);
    match o.supervisor
    case Decided(_) => l := Drop(i);
    case Cleared(_) => l := Drain(i);
    case Drained(_) => l := Call(i);
    case Calling(_) => l := Return(i);
    case Returned(_) => l := Remove(i);
    case Joining =>
      match o.worker {
        case Held => l := Start(i);
        case Running => l := RunningCanMove(s, i);
        case Locked => l := Finish(i, Reply(FAILED));
        case Waiting => l := WaitingCanMove(s, i);
        case Finished(_) => l := Arbitrate(i);
      }
  }

  /**
   No deadlock: while some operation is unfinished, the provider can take a step. A
   connection close may wait for a stream close, which may wait for the read or write that
   holds the stream's mutex, which waits for the transport; the chain ends there.
   */
  lemma NeverStuck(s: State, i: nat) returns (l: Label)
    requires OpsOk(s.ops) && ParentsOk(s.resources, s.issued, s.ops) && i < |s.ops| && !s.ops[i].supervisor.Gone?
    ensures IsInternal(l) && Enabled(s, l)
  {
    var o := s.ops[i];
    if o.worker.Waiting? && exists r :: r in o.receipts && !IsDrained(s.ops[r]) {
      var r :| r in o.receipts && !IsDrained(s.ops[r]);
      assert OpOk(s.ops[r]);
      assert s.ops[r].parent.Some?;
      l := CanMove(s, r);
    } else {
      l := CanMove(s, i);
    }
  }

  /** Two operations that hold one mutex. */
  predicate Conflict(o: Op, p: Op) {
    o.worker.Locked? && NeedsLock(o) && HoldsLock(p, o.request.stream)
  }

  ghost predicate LocksOk(ops: seq<Op>) {
    forall i, j {:trigger Conflict(ops[i], ops[j])} :: 0 <= i < |ops| && 0 <= j < |ops| && i != j ==>
      !Conflict(ops[i], ops[j])
  }

  lemma UnlockedStep(ops: seq<Op>, i: nat, o': Op)
    requires LocksOk(ops) && i < |ops|
    requires o'.worker.Locked? ==> o'.request == ops[i].request && o'.valid == ops[i].valid && ops[i].worker.Locked?
    ensures LocksOk(ops[i := o'])
  {
    var ops' := ops[i := o'];
    forall j, k | 0 <= j < |ops| && 0 <= k < |ops| && j != k
      ensures !Conflict(ops'[j], ops'[k])
    {
      assert !Conflict(ops[j], ops[k]);
    }
  }

  lemma AcquireStep(ops: seq<Op>, i: nat)
    requires LocksOk(ops) && i < |ops| && NeedsLock(ops[i]) && LockFree(ops, ops[i].request.stream)
    ensures LocksOk(ops[i := ops[i].(worker := Locked)])
  {
    var ops' := ops[i := ops[i].(worker := Locked)];
    forall j, k | 0 <= j < |ops| && 0 <= k < |ops| && j != k
      ensures !Conflict(ops'[j], ops'[k])
    {
      assert !Conflict(ops[j], ops[k]);
      assert !HoldsLock(ops[j], ops[i].request.stream) && !HoldsLock(ops[k], ops[i].request.stream);
    }
  }

  lemma StepLocks(s: State, l: Label)
    requires OpsOk(s.ops) && LocksOk(s.ops) && Enabled(s, l)
    ensures LocksOk(Next(s, l).ops)
  {
    if l.Acquire? {
      AcquireStep(s.ops, l.op);
    } else if IsInternal(l) {
      StepOp(s, l);
      UnlockedStep(s.ops, l.op, Next(s, l).ops[l.op]);
    }
  }

  /** In every reachable state a stream's mutex has at most one holder. */
  lemma {:induction false} StreamLockIsExclusive(r: Run, k: nat)
    requires IsProviderRun(r) && k <= |r.labels|
    ensures LocksOk(r.states[k].ops)
  {
    if k > 0 {
      StreamLockIsExclusive(r, k - 1);
      RunOpsOk(r, k - 1);
      assert StepAt(r, k - 1);
      StepLocks(r.states[k - 1], r.labels[k - 1]);
    }
  }

  /**
   Left to itself the provider takes at most `Measure` further steps, and where it stops no
   operation is pending and every accepted one has had exactly one callback.
   */
  lemma {:induction false} InternalRunsEnd(r: Run)
    requires IsRun(r) && Inv(r.states[0]) && r.states[|r.labels|].issued < U64
    requires forall k :: 0 <= k < |r.labels| ==> IsInternal(r.labels[k])
    ensures |r.labels| + Measure(r.states[|r.labels|]) <= Measure(r.states[0])
    ensures var s := r.states[|r.labels|];
      (forall l :: IsInternal(l) ==> !Enabled(s, l)) ==>
        && s.pending == map[]
        && forall i :: 0 <= i < |s.ops| ==> s.ops[i].supervisor.Gone? && CallCount(s.log, i) == 1
    decreases |r.labels|
  {
    if |r.labels| == 0 {
      var s := r.states[0];
      if forall l :: IsInternal(l) ==> !Enabled(s, l) {
        forall i | 0 <= i < |s.ops|
          ensures s.ops[i].supervisor.Gone? && CallCount(s.log, i) == 1
        {
          if !s.ops[i].supervisor.Gone? {
            var l := NeverStuck(s, i);
          }
        }
        assert forall id :: id !in s.pending;
      }
    } else {
      assert StepAt(r, 0);
      InternalDecreases(r.states[0], r.labels[0]);
      RunIssued(r, 1, |r.labels|);
      StepInv(r.states[0], r.labels[0]);
      var tail := Run(r.states[1..], r.labels[1..]);
      assert tail.states[|tail.labels|] == r.states[|r.labels|];
      forall k | 0 <= k < |tail.labels|
        ensures StepAt(tail, k)
      {
        assert StepAt(r, k + 1);
      }
      InternalRunsEnd(tail);
    }
  }
}
