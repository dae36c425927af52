/**
 The three steps of the QUIC provider that change the tables: admission, the cutoff of a
 close, and the commit at terminal arbitration. Together with the local steps they give
 preservation of the invariant by every label.
 */
module QuicSteps {
  import opened Common
  import opened QuicProvider
  import opened QuicInvariant

  // ----- Admission ---------------------------------------------------------------------

  /** No close has cut a handle that is still in the table. */
  lemma LiveIsNotCut(resources: map<Handle, Resource>, issued: nat, ops: seq<Op>, c: nat, h: Handle)
    requires OpsOk(ops) && CutsOk(resources, issued, ops) && c < |ops| && h in resources
    ensures !Closes(ops[c], Some(h))
  {
    assert OpOk(ops[c]);
    if h in ops[c].cut {
      assert false;
    }
  }

  lemma AdmittedParentLive(s: State, request: Request)
    requires TableOk(s.resources, s.issued)
    ensures var parent := Admit(s.resources, request).1;
      parent.Some? ==> IsConnection(s.resources, parent.value) && 1 <= parent.value <= s.issued
  {
  }

  lemma AppendTargets(s: State, op: Op)
    requires TargetsOk(s.resources, s.issued, s.ops) && TableOk(s.resources, s.issued)
    requires (op.valid, op.parent) == Admit(s.resources, op.request)
    ensures TargetsOk(s.resources, s.issued, s.ops + [op])
  {
  }

  lemma AppendParents(s: State, op: Op)
    requires ParentsOk(s.resources, s.issued, s.ops)
    requires op.receipts == {} && op.cut == {}
    requires op.parent.Some? ==> IsConnection(s.resources, op.parent.value) && 1 <= op.parent.value <= s.issued
    requires forall c: nat {:trigger s.ops[c]} :: c < |s.ops| ==> !Closes(s.ops[c], op.parent)
    ensures ParentsOk(s.resources, s.issued, s.ops + [op])
  {
    var ops' := s.ops + [op];
    forall c: nat, i: nat | c < |ops'| && i < |ops'| && Closes(ops'[c], ops'[i].parent)
      ensures IsDrained(ops'[i]) || i in ops'[c].receipts
    {
      assert c < |s.ops| && i < |s.ops|;
      assert Closes(s.ops[c], s.ops[i].parent);
    }
    forall c: nat, r: nat | c < |ops'| && r in ops'[c].receipts
      ensures r < |ops'| && Closes(ops'[c], ops'[r].parent)
    {
      assert r in s.ops[c].receipts;
    }
  }

  lemma AppendRest(s: State, op: Op)
    requires CutsOk(s.resources, s.issued, s.ops) && MadeOk(s.issued, s.ops) && AnswersOk(s.ops)
    requires CountsOk(s.log, s.ops) && EntriesOk(s.log, s.ops)
    requires op.receipts == {} && op.cut == {} && op.made == [] && op.supervisor.Joining?
    ensures CutsOk(s.resources, s.issued, s.ops + [op])
    ensures MadeOk(s.issued, s.ops + [op])
    ensures AnswersOk(s.ops + [op])
    ensures CountsOk(s.log, s.ops + [op]) && EntriesOk(s.log, s.ops + [op])
  {
    var ops' := s.ops + [op];
    forall h | 1 <= h <= s.issued && h !in s.resources
      ensures WasCut(ops', h)
    {
      assert WasCut(s.ops, h);
      var k :| 0 <= k < |s.ops| && h in s.ops[k].cut;
      assert h in ops'[k].cut;
    }
    forall c: nat, r: nat | c < |ops'| && r in ops'[c].receipts && AnswersOK(ops'[c])
      ensures r < |ops'| && IsDrained(ops'[r])
    {
      assert r in s.ops[c].receipts;
    }
  }

  lemma AppendPending(s: State, op: Op)
    requires PendingOk(s.pending, s.ops) && op.id !in s.pending && op.supervisor.Joining?
    ensures PendingOk(s.pending[op.id := |s.ops|], s.ops + [op])
  {
  }

  lemma SubmitStep(s: State, id: OpId, request: Request)
    requires Inv(s)
    ensures Inv(DoSubmit(s, id, request))
  {
    if SubmitCode(s, id) == ACCEPTED {
      var (valid, parent) := Admit(s.resources, request);
      var op := Op(id, request, valid, parent, Active, Held, Joining, {}, {}, []);
      AdmittedParentLive(s, request);
      if parent.Some? {
        forall c: nat | c < |s.ops|
          ensures !Closes(s.ops[c], parent)
        {
          LiveIsNotCut(s.resources, s.issued, s.ops, c, parent.value);
        }
      }
      AppendTargets(s, op);
      AppendParents(s, op);
      AppendRest(s, op);
      AppendPending(s, op);
      assert OpOk(op);
    }
  }

  // ----- Cutoff ------------------------------------------------------------------------

  function CutSet(resources: map<Handle, Resource>, h: Handle): set<Handle>
    requires h in resources
  {
    if resources[h] == Connection then {h} + Children(resources, h) else {h}
  }

  function CutOp(s: State, i: nat): Op
    requires i < |s.ops| && s.ops[i].request.CloseHandle? && s.ops[i].request.target in s.resources
  {
    var h := s.ops[i].request.target;
    s.ops[i].(phase := Closing, worker := Waiting, cut := CutSet(s.resources, h),
              receipts := if s.resources[h] == Connection then Receipts(s, h) else s.ops[i].receipts)
  }

  lemma CutTables(resources: map<Handle, Resource>, issued: nat, ops: seq<Op>, i: nat, h: Handle, o': Op)
    requires TableOk(resources, issued) && CutsOk(resources, issued, ops)
    requires i < |ops| && ops[i].cut == {} && h in resources && o'.cut == CutSet(resources, h)
    ensures TableOk(resources - o'.cut, issued)
    ensures CutsOk(resources - o'.cut, issued, ops[i := o'])
  {
    var ops' := ops[i := o'];
    assert o'.cut <= resources.Keys;
    assert forall j :: 0 <= j < |ops| && j != i ==> ops'[j] == ops[j];
    forall j | 0 <= j < |ops| && j != i
      ensures ops[j].cut !! resources.Keys
    {
    }
    forall g | 1 <= g <= issued && g !in resources - o'.cut
      ensures WasCut(ops', g)
    {
      if g in o'.cut {
        assert g in ops'[i].cut;
      } else {
        assert WasCut(ops, g);
        var k :| 0 <= k < |ops| && g in ops[k].cut;
        assert g in ops'[k].cut;
      }
    }
  }

  lemma CutReceipts(s: State, i: nat, j: nat)
    requires PendingOk(s.pending, s.ops) && ParentsOk(s.resources, s.issued, s.ops)
    requires i < |s.ops| && s.ops[i].request.CloseHandle? && s.ops[i].request.target in s.resources
    requires j < |s.ops| && s.ops[j].parent == Some(s.ops[i].request.target)
    ensures s.resources[s.ops[i].request.target] == Connection
    ensures IsDrained(s.ops[j]) || j in CutOp(s, i).receipts
  {
    var h := s.ops[i].request.target;
    assert IsConnection(s.resources, h);
    if !IsDrained(s.ops[j]) {
      assert s.pending[s.ops[j].id] == j;
      assert j in Receipts(s, h);
    }
  }

  lemma CutParents(s: State, i: nat)
    requires Enabled(s, Cutoff(i)) && OpOk(s.ops[i]) && PendingOk(s.pending, s.ops)
    requires ParentsOk(s.resources, s.issued, s.ops) && TargetsOk(s.resources, s.issued, s.ops)
    requires s.ops[i].phase != Cancelled && s.ops[i].request.target in s.resources
    ensures var cut := CutSet(s.resources, s.ops[i].request.target);
      && ParentsOk(s.resources - cut, s.issued, s.ops[i := CutOp(s, i)])
      && TargetsOk(s.resources - cut, s.issued, s.ops[i := CutOp(s, i)])
  {
    var o := s.ops[i];
    var o' := CutOp(s, i);
    var ops' := s.ops[i := o'];
    assert forall j :: 0 <= j < |s.ops| && j != i ==> ops'[j] == s.ops[j];
    forall c: nat, j: nat | c < |ops'| && j < |ops'| && Closes(ops'[c], ops'[j].parent)
      ensures IsDrained(ops'[j]) || j in ops'[c].receipts
    {
      assert ops'[j].parent == s.ops[j].parent;
      assert IsDrained(ops'[j]) == IsDrained(s.ops[j]);
      if c == i {
        CutReceipts(s, i, j);
      } else {
        assert Closes(s.ops[c], s.ops[j].parent);
      }
    }
    forall c: nat, r: nat | c < |ops'| && r in ops'[c].receipts
      ensures r < |ops'| && Closes(ops'[c], ops'[r].parent)
    {
      if c != i {
        assert r in s.ops[c].receipts;
        assert ops'[r].parent == s.ops[r].parent;
      }
    }
  }

  lemma CutOpOk(s: State, i: nat)
    requires Enabled(s, Cutoff(i)) && OpOk(s.ops[i]) && TargetsOk(s.resources, s.issued, s.ops)
    requires s.ops[i].phase != Cancelled && s.ops[i].request.target in s.resources
    ensures OpOk(CutOp(s, i)) && !AnswersOK(CutOp(s, i)) && SameAnswer(s.ops[i], CutOp(s, i))
    ensures s.ops[i].cut == {}
  {
  }

  lemma CutAnswers(ops: seq<Op>, i: nat, o': Op)
    requires AnswersOk(ops) && i < |ops| && !IsDrained(ops[i]) && !AnswersOK(o')
    ensures AnswersOk(ops[i := o'])
  {
    var ops' := ops[i := o'];
    forall c: nat, r: nat | c < |ops'| && r in ops'[c].receipts && AnswersOK(ops'[c])
      ensures r < |ops'| && IsDrained(ops'[r])
    {
      assert r in ops[c].receipts;
    }
  }

  lemma CutStep(s: State, i: nat)
    requires Inv(s) && Enabled(s, Cutoff(i))
    requires s.ops[i].phase != Cancelled && s.ops[i].request.target in s.resources
    ensures Inv(DoCutoff(s, i))
  {
    var o' := CutOp(s, i);
    CutOpOk(s, i);
    CutTables(s.resources, s.issued, s.ops, i, s.ops[i].request.target, o');
    CutParents(s, i);
    CutAnswers(s.ops, i, o');
    LocalMade(s.issued, s.ops, i, o');
    LocalPending(s.pending, s.ops, i, o');
    LocalLog(s.log, s.ops, i, o');
    UpdateOps(s.ops, i, o');
  }

  lemma CutoffStep(s: State, i: nat)
    requires Inv(s) && Enabled(s, Cutoff(i))
    ensures Inv(DoCutoff(s, i))
  {
    var o := s.ops[i];
    if o.phase == Cancelled || o.request.target !in s.resources {
      var code := if o.phase == Cancelled then CANCELLED else INVALID_HANDLE;
      assert OpOk(o);
      LocalStep(s, i, o.(worker := Finished(Some(Reply(code)))));
    } else {
      CutStep(s, i);
    }
  }

  // ----- Commit ------------------------------------------------------------------------

  /** Inserting fresh handles whose parents are live keeps every table property. */
  lemma InsertTables(s: State, fresh': map<Handle, Resource>, n: nat)
    requires TableOk(s.resources, s.issued) && CutsOk(s.resources, s.issued, s.ops)
    requires ParentsOk(s.resources, s.issued, s.ops) && TargetsOk(s.resources, s.issued, s.ops)
    requires forall h :: h in fresh' <==> s.issued < h <= s.issued + n
    requires forall h :: h in fresh' && ParentOf(fresh'[h]).Some? ==>
               IsConnection(s.resources, ParentOf(fresh'[h]).value)
    ensures TableOk(s.resources + fresh', s.issued + n)
    ensures CutsOk(s.resources + fresh', s.issued + n, s.ops)
    ensures ParentsOk(s.resources + fresh', s.issued + n, s.ops)
    ensures TargetsOk(s.resources + fresh', s.issued + n, s.ops)
  {
    assert fresh'.Keys !! s.resources.Keys;
    assert forall h :: IsConnection(s.resources, h) ==> IsConnection(s.resources + fresh', h);
    forall h | 1 <= h <= s.issued + n && h !in s.resources + fresh'
      ensures WasCut(s.ops, h)
    {
      assert 1 <= h <= s.issued && h !in s.resources;
    }
  }

  lemma InsertMade(issued: nat, n: nat, ops: seq<Op>, i: nat, o': Op)
    requires MadeOk(issued, ops) && i < |ops|
    requires forall h :: h in o'.made ==> issued < h <= issued + n
    ensures MadeOk(issued + n, ops[i := o'])
  {
  }

  /** A commit of `n` resources, `fresh'`, above the handles issued so far. */
  ghost predicate Inserts(s: State, r: (State, Completion), fresh': map<Handle, Resource>, n: nat) {
    && r.0 == s.(resources := s.resources + fresh', issued := s.issued + n)
    && (forall h :: h in fresh' <==> s.issued < h <= s.issued + n)
    && (forall h :: h in fresh' && ParentOf(fresh'[h]).Some? ==>
          IsConnection(s.resources, ParentOf(fresh'[h]).value))
    && (forall h :: h in r.1.handles ==> s.issued < h <= s.issued + n)
    && |r.1.handles| == n
    && r.1.code == (if n == 0 then INVALID_HANDLE else OK)
  }

  lemma CommitNone(s: State, output: Output)
    requires output.Made? && CreatedParent(output.created).Some?
    requires !IsConnection(s.resources, CreatedParent(output.created).value)
    ensures Inserts(s, Commit(s, output), map[], 0)
  {
    assert s.resources + map[] == s.resources;
  }

  lemma CommitOne(s: State, r: Resource)
    requires s.issued + 1 < U64 && (ParentOf(r).Some? ==> IsConnection(s.resources, ParentOf(r).value))
    ensures Inserts(s, Commit(s, Made(Single(r))), map[s.issued + 1 := r], 1)
  {
    assert s.resources[s.issued + 1 := r] == s.resources + map[s.issued + 1 := r];
  }

  lemma CommitTwo(s: State, send: Resource, recv: Resource)
    requires s.issued + 2 < U64 && ParentOf(recv) == ParentOf(send)
    requires ParentOf(send).Some? ==> IsConnection(s.resources, ParentOf(send).value)
    ensures Inserts(s, Commit(s, Made(Bidi(send, recv))), map[s.issued + 1 := send, s.issued + 2 := recv], 2)
  {
    assert s.resources[s.issued + 1 := send][s.issued + 2 := recv]
        == s.resources + map[s.issued + 1 := send, s.issued + 2 := recv];
  }

  /** What a commit inserts, as long as the counter does not wrap. */
  lemma CommitInserts(s: State, output: Output) returns (fresh': map<Handle, Resource>, n: nat)
    requires output.Made? && Commit(s, output).0.issued < U64
    requires output.created.Bidi? ==> ParentOf(output.created.recv) == ParentOf(output.created.send)
    ensures Inserts(s, Commit(s, output), fresh', n)
  {
    var parent := CreatedParent(output.created);
    if parent.Some? && !IsConnection(s.resources, parent.value) {
      fresh', n := map[], 0;
      CommitNone(s, output);
    } else if output.created.Single? {
      fresh', n := map[s.issued + 1 := output.created.resource], 1;
      CommitOne(s, output.created.resource);
    } else {
      fresh', n := map[s.issued + 1 := output.created.send, s.issued + 2 := output.created.recv], 2;
      CommitTwo(s, output.created.send, output.created.recv);
    }
  }

  function DecidedOp(o: Op, completion: Completion): Op {
    o.(phase := Committed, supervisor := Decided(completion), made := completion.handles)
  }

  /** The decision on an operation that inserts nothing. */
  function PlainDecision(o: Op): Op
    requires o.worker.Finished?
  {
    if o.phase == Cancelled then o.(supervisor := Decided(Completion(CANCELLED, [])))
    else if o.worker.output.None? then o.(phase := Committed, supervisor := Decided(Completion(FAILED, [])))
    else if o.worker.output.value.Reply? then DecidedOp(o, Completion(o.worker.output.value.code, []))
    else o
  }

  lemma PlainDecisionOk(o: Op)
    requires OpOk(o) && o.worker.Finished? && o.supervisor.Joining?
    requires o.phase == Cancelled || o.worker.output.None? || o.worker.output.value.Reply?
    ensures OpOk(PlainDecision(o)) && Advances(o, PlainDecision(o))
    ensures AnswersOK(PlainDecision(o)) ==> AnswersOK(o)
  {
    assert o.made == [];
  }

  lemma MadeDecisionOk(o: Op, completion: Completion)
    requires OpOk(o) && o.supervisor.Joining? && o.phase != Cancelled
    requires o.worker.Finished? && o.worker.output.Some? && o.worker.output.value.Made?
    requires completion.code == (if completion.handles == [] then INVALID_HANDLE else OK)
    ensures OpOk(DecidedOp(o, completion)) && Keeps(o, DecidedOp(o, completion))
    ensures o.receipts == {}
  {
  }

  lemma InsertBoth(s: State, fresh': map<Handle, Resource>, n: nat, i: nat, o': Op)
    requires TableOk(s.resources, s.issued) && CutsOk(s.resources, s.issued, s.ops)
    requires ParentsOk(s.resources, s.issued, s.ops) && TargetsOk(s.resources, s.issued, s.ops)
    requires forall h :: h in fresh' <==> s.issued < h <= s.issued + n
    requires forall h :: h in fresh' && ParentOf(fresh'[h]).Some? ==>
               IsConnection(s.resources, ParentOf(fresh'[h]).value)
    requires i < |s.ops| && Keeps(s.ops[i], o')
    ensures TableOk(s.resources + fresh', s.issued + n)
    ensures CutsOk(s.resources + fresh', s.issued + n, s.ops[i := o'])
    ensures ParentsOk(s.resources + fresh', s.issued + n, s.ops[i := o'])
    ensures TargetsOk(s.resources + fresh', s.issued + n, s.ops[i := o'])
  {
    InsertTables(s, fresh', n);
    LocalCuts(s.resources + fresh', s.issued + n, s.ops, i, o');
    LocalParents(s.resources + fresh', s.issued + n, s.ops, i, o');
  }

  lemma UpdateOps(ops: seq<Op>, i: nat, o': Op)
    requires OpsOk(ops) && i < |ops| && OpOk(o')
    ensures OpsOk(ops[i := o'])
  {
  }

  /** One operation commits `n` fresh handles. */
  lemma InsertStep(s: State, s': State, fresh': map<Handle, Resource>, n: nat, i: nat, o': Op)
    requires Inv(s) && s.issued + n < U64
    requires forall h :: h in fresh' <==> s.issued < h <= s.issued + n
    requires forall h :: h in fresh' && ParentOf(fresh'[h]).Some? ==>
               IsConnection(s.resources, ParentOf(fresh'[h]).value)
    requires i < |s.ops| && Keeps(s.ops[i], o') && OpOk(o') && o'.receipts == {}
    requires IsCalled(o') <==> IsCalled(s.ops[i])
    requires o'.supervisor.Gone? <==> s.ops[i].supervisor.Gone?
    requires forall h :: h in o'.made ==> s.issued < h <= s.issued + n
    requires s' == State(s.resources + fresh', s.pending, s.issued + n, s.ops[i := o'], s.cancelling, s.log)
    ensures Inv(s')
  {
    InsertBoth(s, fresh', n, i, o');
    InsertMade(s.issued, n, s.ops, i, o');
    UpdateOps(s.ops, i, o');
    LocalAnswers(s.ops, i, o');
    LocalPending(s.pending, s.ops, i, o');
    LocalLog(s.log, s.ops, i, o');
  }

  lemma CommitMade(s: State, i: nat)
    requires Inv(s) && Enabled(s, Arbitrate(i)) && s.ops[i].phase != Cancelled
    requires s.ops[i].worker.output.Some? && s.ops[i].worker.output.value.Made?
    requires Commit(s, s.ops[i].worker.output.value).0.issued < U64
    ensures Inv(DoArbitrate(s, i))
  {
    var o := s.ops[i];
    assert OpOk(o);
    var fresh', n := CommitInserts(s, o.worker.output.value);
    var completion := Commit(s, o.worker.output.value).1;
    MadeDecisionOk(o, completion);
    InsertStep(s, DoArbitrate(s, i), fresh', n, i, DecidedOp(o, completion));
  }

  lemma ArbitrateStep(s: State, i: nat)
    requires Inv(s) && Enabled(s, Arbitrate(i)) && DoArbitrate(s, i).issued < U64
    ensures Inv(DoArbitrate(s, i))
  {
    var o := s.ops[i];
    assert OpOk(o);
    if o.phase != Cancelled && o.worker.output.Some? && o.worker.output.value.Made? {
      CommitMade(s, i);
    } else {
      PlainDecisionOk(o);
      LocalStep(s, i, PlainDecision(o));
    }
  }

  // ----- Every step --------------------------------------------------------------------

  lemma StepInv(s: State, l: Label)
    requires Inv(s) && Enabled(s, l) && Next(s, l).issued < U64
    ensures Inv(Next(s, l))
  {
    match l
    case Submit(id, request) => SubmitStep(s, id, request);
    case LookupCancel(id) => LookupStep(s, id);
    case ApplyCancel(i) => ApplyStep(s, i);
    case Cutoff(i) => CutoffStep(s, i);
    case Arbitrate(i) => ArbitrateStep(s, i);
    case Call(i) => CallStep(s, i);
    case Remove(i) => RemoveStep(s, i);
    case Drop(i) => DropStep(s, i);
    case Drain(i) => DrainStep(s, i);
    case Return(i) => ReturnStep(s, i);
    case _ => WorkerSteps(s, l);
  }
}
