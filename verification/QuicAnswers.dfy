/**
 What the QUIC provider answers, over whole runs: when a submit is accepted and a handle
 admitted, when a cancel takes effect, and which completion an operation gets.
 */
module QuicAnswers {
  import opened Common
  import opened QuicProvider
  import opened QuicInvariant
  import opened QuicSteps
  import opened QuicRuns

  // ----- Submitting --------------------------------------------------------------------

  /** Some operation that has not been removed yet goes by this id. */
  ghost predicate IsOwned(s: State, id: OpId) {
    exists i :: 0 <= i < |s.ops| && s.ops[i].id == id && !s.ops[i].supervisor.Gone?
  }

  lemma OwnedIsPending(s: State, id: OpId)
    requires PendingOk(s.pending, s.ops) && OpsOk(s.ops)
    ensures IsOwned(s, id) <==> id in s.pending
  {
    if id in s.pending {
      var i := s.pending[id];
      assert s.ops[i].id == id && !s.ops[i].supervisor.Gone?;
    }
  }

  /** A submit adds an operation if and only if its id is not zero and not owned; the answer says which. */
  lemma SubmitAcceptedIff(r: Run, k: nat)
    requires IsProviderRun(r) && k < |r.labels| && r.labels[k].Submit?
    ensures var s, s', id := r.states[k], r.states[k + 1], r.labels[k].id;
      && |s'.ops| == |s.ops| + (if id != 0 && !IsOwned(s, id) then 1 else 0)
      && (id == 0 ==> SubmitCode(s, id) == INVALID_ARGUMENT)
      && (id != 0 ==> SubmitCode(s, id) == if IsOwned(s, id) then DUPLICATE else ACCEPTED)
      && (SubmitCode(s, id) != ACCEPTED ==> s' == s)
  {
    RunInv(r, k);
    assert StepAt(r, k);
    OwnedIsPending(r.states[k], r.labels[k].id);
    ZeroIsNotPending(r.states[k]);
  }

  lemma ZeroIsNotPending(s: State)
    requires PendingOk(s.pending, s.ops) && OpsOk(s.ops)
    ensures 0 !in s.pending
  {
    assert forall id :: id in s.pending ==> OpOk(s.ops[s.pending[id]]);
  }

  /** What a table says a request refers to: whether its handle resolves, and the connection it is charged to. */
  ghost predicate Resolves(t: map<Handle, Resource>, request: Request, valid: bool, parent: Option<Handle>) {
    match request
    case MakeRoot => valid && parent == None
    case OpenStream(h) => (valid <==> h in t && t[h] == Connection) && parent == (if valid then Some(h) else None)
    case UseConnection(h) => (valid <==> h in t && t[h] == Connection) && parent == (if valid then Some(h) else None)
    case Write(h) =>
      (valid <==> h in t && t[h].Send?) && parent == (if valid then Some(t[h].parentConnection) else None)
    case Read(h) =>
      (valid <==> h in t && t[h].Recv?) && parent == (if valid then Some(t[h].parentConnection) else None)
    case CloseHandle(h) => (valid <==> h in t) && parent == (if valid then ParentOf(t[h]) else None)
  }

  lemma AdmitResolves(s: State, request: Request)
    requires TableOk(s.resources, s.issued)
    ensures Resolves(s.resources, request, Admit(s.resources, request).0, Admit(s.resources, request).1)
  {
  }

  /**
   An accepted submit registers exactly the request, as the table of that moment resolves it. A
   live stream always resolves: in a reachable table its connection is live too.
   */
  lemma AdmissionIsExact(r: Run, k: nat)
    requires IsProviderRun(r) && k < |r.labels| && r.labels[k].Submit?
    requires |r.states[k + 1].ops| > |r.states[k].ops|
    ensures var s, s', l := r.states[k], r.states[k + 1], r.labels[k]; var o := s'.ops[|s.ops|];
      && o.id == l.id && o.request == l.request && Resolves(s.resources, l.request, o.valid, o.parent)
      && o.phase == Active && o.supervisor.Joining? && o.worker.Held? && o.made == [] && o.cut == {}
      && s'.ops[..|s.ops|] == s.ops && s'.resources == s.resources
  {
    RunInv(r, k);
    assert StepAt(r, k);
    AdmitResolves(r.states[k], r.labels[k].request);
  }

  // ----- Cancelling --------------------------------------------------------------------

  /** A cancel is ACCEPTED if and only if an operation that is not removed goes by the id. */
  lemma CancelAcceptedIff(r: Run, k: nat, id: OpId)
    requires IsProviderRun(r) && k <= |r.labels|
    ensures CancelCode(r.states[k], id) == if IsOwned(r.states[k], id) then ACCEPTED else INVALID_HANDLE
  {
    RunInv(r, k);
    OwnedIsPending(r.states[k], id);
  }

  /** A cancel call that found operation `i`. */
  predicate AsksFor(s: State, l: Label, i: nat) {
    l.LookupCancel? && i < |s.ops| && s.ops[i].id == l.id && !s.ops[i].supervisor.Gone?
  }

  /** Cancel calls that found operation `i` and have not reached its phase yet. */
  function OpenCancels(r: Run, k: nat, i: nat): int
    requires |r.states| == |r.labels| + 1 && k <= |r.labels|
  {
    if k == 0 then 0
    else
      OpenCancels(r, k - 1, i)
      + (if AsksFor(r.states[k - 1], r.labels[k - 1], i) then 1 else 0)
      - (if r.labels[k - 1] == ApplyCancel(i) then 1 else 0)
  }

  lemma StepCancels(s: State, l: Label, i: nat)
    requires PendingOk(s.pending, s.ops) && OpsOk(s.ops) && Enabled(s, l)
    ensures Next(s, l).cancelling[i] + (if l == ApplyCancel(i) then 1 else 0)
         == s.cancelling[i] + (if AsksFor(s, l, i) then 1 else 0)
  {
    if l.LookupCancel? {
      OwnedIsPending(s, l.id);
    } else if !l.ApplyCancel? {
      assert Next(s, l).cancelling == s.cancelling;
    }
  }

  lemma StepAtCancels(r: Run, k: nat, i: nat)
    requires IsProviderRun(r) && k < |r.labels|
    ensures r.states[k + 1].cancelling[i] + (if r.labels[k] == ApplyCancel(i) then 1 else 0)
         == r.states[k].cancelling[i] + (if AsksFor(r.states[k], r.labels[k], i) then 1 else 0)
  {
    RunInv(r, k);
    assert StepAt(r, k);
    StepCancels(r.states[k], r.labels[k], i);
  }

  /** Every cancel that was ACCEPTED reaches the operation it found, once: none is dropped and none invented. */
  lemma {:induction false} CancelsAreConserved(r: Run, k: nat, i: nat)
    requires IsProviderRun(r) && k <= |r.labels|
    ensures r.states[k].cancelling[i] == OpenCancels(r, k, i)
    ensures i < |r.states[k].ops| ==> (Enabled(r.states[k], ApplyCancel(i)) <==> OpenCancels(r, k, i) > 0)
  {
    if k > 0 {
      CancelsAreConserved(r, k - 1, i);
      StepAtCancels(r, k - 1, i);
    }
  }

  /** At step `k` a cancel reaches operation `i` while its answer is open and it has cut nothing. */
  ghost predicate InTime(r: Run, k: nat, i: nat)
    requires |r.states| == |r.labels| + 1 && k < |r.labels|
  {
    && r.labels[k] == ApplyCancel(i) && i < |r.states[k].ops|
    && r.states[k].ops[i].supervisor.Joining? && r.states[k].ops[i].cut == {}
  }

  ghost predicate WasInTime(r: Run, j: nat, i: nat)
    requires |r.states| == |r.labels| + 1 && j <= |r.labels|
  {
    exists k :: 0 <= k < j && InTime(r, k, i)
  }

  lemma TailPhase(s: State, l: Label)
    requires Enabled(s, l) && IsTailLabel(l)
    ensures l.op < |Next(s, l).ops| && Next(s, l).ops == s.ops[l.op := Next(s, l).ops[l.op]]
    ensures Next(s, l).ops[l.op].phase == s.ops[l.op].phase
  {
  }

  lemma ApplyPhase(s: State, i: nat, j: nat)
    requires Enabled(s, ApplyCancel(j)) && i < |s.ops| && OpOk(s.ops[i])
    ensures i < |DoApplyCancel(s, j).ops|
    ensures DoApplyCancel(s, j).ops[i].phase == Cancelled <==>
      s.ops[i].phase == Cancelled || (i == j && s.ops[i].supervisor.Joining? && s.ops[i].cut == {})
  {
  }

  /** What one step does to the cancelled phase of one operation. */
  lemma StepPhase(s: State, l: Label, i: nat)
    requires OpsOk(s.ops) && Enabled(s, l) && i < |s.ops|
    ensures i < |Next(s, l).ops|
    ensures Next(s, l).ops[i].phase == Cancelled <==>
      || s.ops[i].phase == Cancelled
      || (l == ApplyCancel(i) && s.ops[i].supervisor.Joining? && s.ops[i].cut == {})
  {
    assert OpOk(s.ops[i]);
    if l.ApplyCancel? {
      ApplyPhase(s, i, l.op);
    } else if l.Arbitrate? {
      StepDecision(s, l.op);
    } else if l.Cutoff? {
      StepCutoff(s, l.op);
    } else if IsTailLabel(l) {
      TailPhase(s, l);
    }
  }

  /** A new operation is not cancelled. */
  lemma NewPhase(s: State, l: Label, i: nat)
    requires Enabled(s, l) && |s.ops| <= i < |Next(s, l).ops|
    ensures Next(s, l).ops[i].phase != Cancelled && l.Submit?
  {
  }

  lemma {:induction false} CancelledPhaseIff(r: Run, j: nat, i: nat)
    requires IsProviderRun(r) && j <= |r.labels| && i < |r.states[j].ops|
    ensures r.states[j].ops[i].phase == Cancelled <==> WasInTime(r, j, i)
  {
    if j > 0 {
      var s, l := r.states[j - 1], r.labels[j - 1];
      RunOpsOk(r, j - 1);
      assert StepAt(r, j - 1);
      if i < |s.ops| {
        CancelledPhaseIff(r, j - 1, i);
        StepPhase(s, l, i);
        assert InTime(r, j - 1, i) <==> l == ApplyCancel(i) && s.ops[i].supervisor.Joining? && s.ops[i].cut == {};
      } else {
        NewPhase(s, l, i);
        NotYetInTime(r, j, i);
      }
    }
  }

  /** No cancel was in time for an operation that has only just been submitted. */
  lemma NotYetInTime(r: Run, j: nat, i: nat)
    requires IsProviderRun(r) && 0 < j <= |r.labels| && |r.states[j - 1].ops| <= i
    ensures !WasInTime(r, j, i)
  {
    forall k | 0 <= k < j
      ensures !InTime(r, k, i)
    {
      RunEvolves(r, k, j - 1);
    }
  }

  /**
   An operation ends CANCELLED, with no handle inserted and none cut, if and only if a cancel
   reached it while its answer was open and it had cut nothing.
   */
  lemma CancelledIff(r: Run, j: nat, i: nat)
    requires IsProviderRun(r) && j <= |r.labels| && i < |r.states[j].ops| && HasCompletion(r.states[j].ops[i])
    ensures CompletionOf(r.states[j].ops[i]).code == CANCELLED <==> WasInTime(r, j, i)
    ensures WasInTime(r, j, i) ==>
      r.states[j].ops[i].made == [] && r.states[j].ops[i].cut == {} && CompletionOf(r.states[j].ops[i]).handles == []
  {
    CancelIsAllOrNothing(r, j, i);
    CancelledPhaseIff(r, j, i);
  }

  /** A worker is aborted only for a cancel that came in time, so its operation ends CANCELLED. */
  lemma AbortIsCancelled(r: Run, k: nat, j: nat, i: nat)
    requires IsProviderRun(r) && k < j <= |r.labels| && r.labels[k] == Abort(i)
    ensures WasInTime(r, k, i)
    ensures i < |r.states[j].ops| && HasCompletion(r.states[j].ops[i]) ==>
      CompletionOf(r.states[j].ops[i]) == Completion(CANCELLED, [])
  {
    assert StepAt(r, k);
    CancelledPhaseIff(r, k, i);
    var c :| 0 <= c < k && InTime(r, c, i);
    if i < |r.states[j].ops| && HasCompletion(r.states[j].ops[i]) {
      assert WasInTime(r, j, i) by {
        assert InTime(r, c, i);
      }
      CancelledIff(r, j, i);
    }
  }

  // ----- Completions -------------------------------------------------------------------

  lemma StepOutput(s: State, l: Label, i: nat)
    requires OpsOk(s.ops) && Enabled(s, l) && i < |s.ops| && s.ops[i].worker.Finished? && s.ops[i].supervisor.Joining?
    ensures i < |Next(s, l).ops|
    ensures Next(s, l).ops[i].worker == s.ops[i].worker
  {
    if l.Arbitrate? {
      StepDecision(s, l.op);
    }
  }

  /** What a worker has returned stays until it is decided on. */
  lemma {:induction false} OutputStays(r: Run, k: nat, j: nat, i: nat)
    requires IsProviderRun(r) && k <= j <= |r.labels| && i < |r.states[k].ops| && r.states[k].ops[i].worker.Finished?
    requires i < |r.states[j].ops| && r.states[j].ops[i].supervisor.Joining?
    ensures r.states[j].ops[i].worker == r.states[k].ops[i].worker
    decreases j - k
  {
    if k < j {
      RunEvolves(r, k, j - 1);
      RunEvolves(r, j - 1, j);
      OutputStays(r, k, j - 1, i);
      RunOpsOk(r, j - 1);
      assert StepAt(r, j - 1);
      StepOutput(r.states[j - 1], r.labels[j - 1], i);
    }
  }

  predicate TargetIsGone(s: State, i: nat)
    requires i < |s.ops|
  {
    s.ops[i].request.CloseHandle? && s.ops[i].request.target !in s.resources
  }

  /** What a worker returns, by the step that ends it. */
  lemma WorkerReturns(r: Run, k: nat, i: nat)
    requires IsProviderRun(r) && k < |r.labels| && i < |r.states[k].ops|
    ensures i < |r.states[k + 1].ops|
    ensures r.labels[k].Finish? && r.labels[k].op == i ==>
      r.states[k + 1].ops[i].worker == Finished(Some(r.labels[k].output))
    ensures r.labels[k] == Abort(i) || r.labels[k] == Panic(i) ==> r.states[k + 1].ops[i].worker == Finished(None)
    ensures r.labels[k] == Settle(i) ==> r.states[k + 1].ops[i].worker == Finished(Some(Reply(OK)))
    ensures r.labels[k] == Cutoff(i) && TargetIsGone(r.states[k], i) && r.states[k].ops[i].phase != Cancelled ==>
      r.states[k + 1].ops[i].worker == Finished(Some(Reply(INVALID_HANDLE)))
  {
    RunEvolves(r, k, k + 1);
    assert StepAt(r, k);
  }

  /** A single resource that may still be inserted: it has no parent, or a live one. */
  predicate MayInsert(t: map<Handle, Resource>, parent: Option<Handle>) {
    parent.Some? ==> IsConnection(t, parent.value)
  }

  /** The completion that the state at arbitration calls for, and the table it leaves. */
  ghost predicate AnswersRightly(s: State, i: nat, s': State, c: Completion)
    requires i < |s.ops| && s.ops[i].worker.Finished?
  {
    var o := s.ops[i];
    if o.phase == Cancelled then c == Completion(CANCELLED, []) && s'.resources == s.resources
    else
      match o.worker.output
      case None => c == Completion(FAILED, []) && s'.resources == s.resources
      case Some(Reply(code)) => c == Completion(code, []) && s'.resources == s.resources
      case Some(Made(Single(x))) =>
        if MayInsert(s.resources, ParentOf(x))
        then c == Completion(OK, [s.issued + 1]) && s'.resources == s.resources[s.issued + 1 := x]
        else c == Completion(INVALID_HANDLE, []) && s'.resources == s.resources
      case Some(Made(Bidi(send, recv))) =>
        if MayInsert(s.resources, ParentOf(send))
        then c == Completion(OK, [s.issued + 1, s.issued + 2])
          && s'.resources == s.resources[s.issued + 1 := send][s.issued + 2 := recv]
        else c == Completion(INVALID_HANDLE, []) && s'.resources == s.resources
  }

  lemma ArbitrateAnswers(s: State, i: nat)
    requires Enabled(s, Arbitrate(i)) && DoArbitrate(s, i).issued < U64
    ensures var s' := DoArbitrate(s, i);
      && i < |s'.ops| && HasCompletion(s'.ops[i]) && AnswersRightly(s, i, s', CompletionOf(s'.ops[i]))
  {
  }

  /** The answer decided on at arbitration is the one the worker's output calls for, and no later step changes it. */
  lemma AnswerIsRight(r: Run, k: nat, j: nat, i: nat)
    requires IsProviderRun(r) && k < j <= |r.labels| && r.labels[k] == Arbitrate(i)
    ensures i < |r.states[k].ops| && r.states[k].ops[i].worker.Finished?
    ensures i < |r.states[j].ops| && HasCompletion(r.states[j].ops[i])
    ensures AnswersRightly(r.states[k], i, r.states[k + 1], CompletionOf(r.states[j].ops[i]))
  {
    assert StepAt(r, k);
    RunIssued(r, k + 1, |r.labels|);
    ArbitrateAnswers(r.states[k], i);
    RunEvolves(r, k + 1, j);
  }

  /** Some step decided on an operation that has a completion. */
  lemma {:induction false} DecisionExists(r: Run, j: nat, i: nat) returns (k: nat)
    requires IsProviderRun(r) && j <= |r.labels| && i < |r.states[j].ops| && HasCompletion(r.states[j].ops[i])
    ensures k < j && r.labels[k] == Arbitrate(i)
  {
    assert j > 0;
    assert StepAt(r, j - 1);
    if r.labels[j - 1] == Arbitrate(i) {
      k := j - 1;
    } else {
      EarlierDecision(r, j, i);
      k := DecisionExists(r, j - 1, i);
    }
  }

  lemma EarlierDecision(r: Run, j: nat, i: nat)
    requires IsProviderRun(r) && 0 < j <= |r.labels| && i < |r.states[j].ops| && HasCompletion(r.states[j].ops[i])
    requires r.labels[j - 1] != Arbitrate(i)
    ensures i < |r.states[j - 1].ops| && HasCompletion(r.states[j - 1].ops[i])
  {
    RunOpsOk(r, j - 1);
    assert StepAt(r, j - 1);
    StepStaysOpen(r.states[j - 1], r.labels[j - 1], i);
  }

  lemma StepStaysOpen(s: State, l: Label, i: nat)
    requires OpsOk(s.ops) && Enabled(s, l) && l != Arbitrate(i) && i < |Next(s, l).ops|
    requires HasCompletion(Next(s, l).ops[i])
    ensures i < |s.ops| && HasCompletion(s.ops[i])
  {
    if IsInternal(l) {
      StepOp(s, l);
      if l.Cutoff? {
        assert OpOk(s.ops[l.op]);
      }
    }
  }

  /**
   What a worker returned is what the operation answers: after a Finish with a reply, the
   completion carries that code, unless a cancel came in time.
   */
  lemma ReplyIsAnswered(r: Run, k: nat, j: nat, i: nat, code: Code)
    requires IsProviderRun(r) && k < j <= |r.labels| && r.labels[k] == Finish(i, Reply(code))
    requires i < |r.states[j].ops| && HasCompletion(r.states[j].ops[i])
    ensures CompletionOf(r.states[j].ops[i]) == Completion(if WasInTime(r, j, i) then CANCELLED else code, [])
  {
    assert StepAt(r, k);
    WorkerReturns(r, k, i);
    var d := DecisionExists(r, j, i);
    AnswerIsRight(r, d, j, i);
    CancelledIff(r, j, i);
    DecidedAfterReturn(r, k, d, i);
    assert StepAt(r, d);
    OutputStays(r, k + 1, d, i);
  }

  lemma DecidedAfterReturn(r: Run, k: nat, d: nat, i: nat)
    requires IsProviderRun(r) && k < |r.labels| && d < |r.labels| && r.labels[k].Finish? && r.labels[k].op == i
    requires r.labels[d] == Arbitrate(i)
    ensures k < d
  {
    assert StepAt(r, k) && StepAt(r, d);
    RunOpsOk(r, k);
    assert OpOk(r.states[k].ops[i]);
    if d < k {
      RunEvolves(r, d + 1, k);
    }
  }

  // ----- Closing -----------------------------------------------------------------------

  /** The handles that go with `h`: itself, and if it is a connection the streams below it. */
  ghost predicate GoesWith(t: map<Handle, Resource>, h: Handle, g: Handle) {
    g in t && (g == h || (h in t && t[h] == Connection && ParentOf(t[g]) == Some(h)))
  }

  /**
   A close cuts if and only if it is not cancelled and its target is live, and then it cuts
   exactly the target and, for a connection, its streams; the rest of the table stays.
   */
  lemma CutIsExact(r: Run, k: nat, i: nat)
    requires IsProviderRun(r) && k < |r.labels| && r.labels[k] == Cutoff(i)
    ensures i < |r.states[k].ops| && i < |r.states[k + 1].ops| && r.states[k].ops[i].request.CloseHandle?
    ensures var s, s' := r.states[k], r.states[k + 1]; var h := s.ops[i].request.target;
      && (s'.ops[i].cut != {} <==> s.ops[i].phase != Cancelled && h in s.resources)
      && (s'.ops[i].cut != {} ==> forall g :: g in s'.ops[i].cut <==> GoesWith(s.resources, h, g))
      && s'.resources == s.resources - s'.ops[i].cut
  {
    RunOpsOk(r, k);
    assert StepAt(r, k);
    assert OpOk(r.states[k].ops[i]);
  }

  /** A close answers only when the receipts it took are drained and, for a stream, nobody holds its mutex. */
  lemma CloseHasWaited(r: Run, k: nat, i: nat)
    requires IsProviderRun(r) && k < |r.labels| && r.labels[k] == Settle(i)
    ensures i < |r.states[k].ops| && r.states[k].ops[i].request.CloseHandle?
    ensures var s := r.states[k]; var o := s.ops[i];
      && (forall d :: d in o.receipts ==> d < |s.ops| && HasCompletion(s.ops[d]) && s.ops[d].worker.Dropped?)
      && (forall j :: 0 <= j < |s.ops| && o.parent.Some? ==> !HoldsLock(s.ops[j], o.request.target))
  {
    RunOpsOk(r, k);
    assert StepAt(r, k);
    var s := r.states[k];
    forall d | d in s.ops[i].receipts
      ensures d < |s.ops| && HasCompletion(s.ops[d]) && s.ops[d].worker.Dropped?
    {
      assert OpOk(s.ops[d]);
    }
  }
}
