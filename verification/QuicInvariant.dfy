/**
 The inductive invariant of the QUIC provider and its preservation by every step, as long
 as the 64-bit handle counter has not wrapped.
 */
module QuicInvariant {
  import opened Common
  import opened QuicProvider

  /** How many terminal callbacks an instance has received. */
  function CallCount(log: seq<Callback>, i: nat): nat {
    if log == [] then 0
    else CallCount(log[..|log| - 1], i) + (if log[|log| - 1].instance == i then 1 else 0)
  }

  ghost predicate HasCompletion(op: Op) {
    !op.supervisor.Joining?
  }

  function CompletionOf(op: Op): Completion
    requires HasCompletion(op)
  {
    op.supervisor.completion
  }

  /** Phase, worker and supervisor of one operation never disagree. */
  ghost predicate StagesAgree(op: Op) {
    && (op.supervisor.Joining? ==> op.phase != Committed && !op.worker.Dropped?)
    && (op.supervisor.Decided? ==> op.worker.Finished?)
    && (op.worker.Dropped? <==> op.supervisor.Cleared? || IsDrained(op))
    && (HasCompletion(op) ==> op.phase == Cancelled || op.phase == Committed)
    && (op.worker.Waiting? ==> op.phase == Closing && op.request.CloseHandle?)
    && (op.worker.Locked? ==> NeedsLock(op))
    && (op.phase == Closing ==> op.worker.Waiting? || op.worker.Finished?)
  }

  /** Cancellation is all or nothing; a commit reports exactly what it inserted. */
  ghost predicate EffectsAgree(op: Op) {
    && (op.phase == Cancelled ==> op.cut == {} && op.made == [] && op.receipts == {})
    && (HasCompletion(op) ==>
          && (op.phase == Cancelled <==> CompletionOf(op).code == CANCELLED)
          && CompletionOf(op).handles == op.made
          && (op.made != [] ==> CompletionOf(op).code == OK))
    && (op.made != [] ==> op.phase == Committed && IsCreator(op))
    && (op.supervisor.Joining? && op.worker == Finished(Some(Reply(CANCELLED))) ==> op.phase == Cancelled)
    && (op.supervisor.Joining? && op.worker.Finished? && op.worker.output.Some? ==>
          OutputFits(op, op.worker.output.value))
    && (op.cut != {} ==> op.request.CloseHandle? && op.request.target in op.cut
                         && (op.phase == Closing || op.phase == Committed))
    && (op.phase == Closing ==> op.cut != {})
    && (op.receipts != {} ==> op.cut != {} && op.parent == None)
    && (op.request.CloseHandle? && HasCompletion(op) && CompletionOf(op).code == OK ==> op.cut != {})
    && (IsCreator(op) && HasCompletion(op) && CompletionOf(op).code == OK ==> op.made != [])
  }

  ghost predicate IsCreator(op: Op) {
    op.request.MakeRoot? || op.request.OpenStream?
  }

  ghost predicate OutputFits(op: Op, output: Output) {
    if op.request.CloseHandle? then
      && output.Reply?
      && output.code in {OK, INVALID_HANDLE, CANCELLED}
      && (output.code == OK <==> op.cut != {})
    else LegalOutput(op, output)
  }

  ghost predicate OpOk(op: Op) {
    && op.id != 0
    && (!op.valid ==> op.parent == None && op.cut == {} && op.made == [])
    && StagesAgree(op)
    && EffectsAgree(op)
  }

  ghost predicate OpsOk(ops: seq<Op>) {
    forall i :: 0 <= i < |ops| ==> OpOk(ops[i])
  }

  /** An id in `pending` names its own live instance, and every live instance owns its id. */
  ghost predicate PendingOk(pending: map<OpId, nat>, ops: seq<Op>) {
    && (forall id :: id in pending ==> pending[id] < |ops| && ops[pending[id]].id == id)
    && (forall i :: 0 <= i < |ops| ==>
          if ops[i].supervisor.Gone? then ops[i].id in pending ==> pending[ops[i].id] != i
          else ops[i].id in pending && pending[ops[i].id] == i)
  }

  /** Handles are nonzero and were issued; streams have a live parent connection. */
  ghost predicate TableOk(resources: map<Handle, Resource>, issued: nat) {
    && (forall h :: h in resources ==> 1 <= h <= issued)
    && (forall h :: h in resources && ParentOf(resources[h]).Some? ==>
          IsConnection(resources, ParentOf(resources[h]).value))
  }

  /** Every issued handle is live, or was cut by exactly one close. */
  ghost predicate CutsOk(resources: map<Handle, Resource>, issued: nat, ops: seq<Op>) {
    && (forall i, h {:trigger h in ops[i].cut} :: 0 <= i < |ops| && h in ops[i].cut ==>
          1 <= h <= issued && h !in resources)
    && (forall i, j {:trigger ops[i].cut, ops[j].cut} :: 0 <= i < j < |ops| ==> ops[i].cut !! ops[j].cut)
    && (forall h :: 1 <= h <= issued && h !in resources ==> WasCut(ops, h))
  }

  ghost predicate WasCut(ops: seq<Op>, h: Handle) {
    exists i :: 0 <= i < |ops| && h in ops[i].cut
  }

  /** Handles reported by creators were issued, and no handle was reported twice. */
  ghost predicate MadeOk(issued: nat, ops: seq<Op>) {
    && (forall i, h {:trigger h in ops[i].made} :: 0 <= i < |ops| && h in ops[i].made ==> 1 <= h <= issued)
    && (forall i, j, h {:trigger h in ops[i].made, h in ops[j].made} ::
          0 <= i < j < |ops| && h in ops[i].made ==> h !in ops[j].made)
  }

  /** The target of a close keeps the kind it had at admission. */
  ghost predicate TargetsOk(resources: map<Handle, Resource>, issued: nat, ops: seq<Op>) {
    forall i :: 0 <= i < |ops| && ops[i].valid && ops[i].request.CloseHandle? ==>
      && 1 <= ops[i].request.target <= issued
      && (ops[i].request.target in resources ==>
            ParentOf(resources[ops[i].request.target]) == ops[i].parent)
  }

  /** Operations charged to a connection, and what a close of that connection waits for. */
  ghost predicate ParentsOk(resources: map<Handle, Resource>, issued: nat, ops: seq<Op>) {
    && (forall i :: 0 <= i < |ops| && ops[i].parent.Some? ==>
          && 1 <= ops[i].parent.value <= issued
          && (ops[i].parent.value in resources ==> IsConnection(resources, ops[i].parent.value)))
    && (forall c: nat, i: nat {:trigger Closes(ops[c], ops[i].parent)} ::
          c < |ops| && i < |ops| && Closes(ops[c], ops[i].parent) ==>
          IsDrained(ops[i]) || i in ops[c].receipts)
    && (forall c: nat, r: nat {:trigger r in ops[c].receipts} :: c < |ops| && r in ops[c].receipts ==>
          r < |ops| && Closes(ops[c], ops[r].parent))
  }

  /** `op` is a close that cut the connection `parent`. */
  ghost predicate Closes(op: Op, parent: Option<Handle>) {
    parent.Some? && op.request == CloseHandle(parent.value) && op.cut != {}
  }

  /** A close holds an OK answer only once every receipt has drained. */
  ghost predicate AnswersOk(ops: seq<Op>) {
    forall c: nat, r: nat {:trigger r in ops[c].receipts} :: c < |ops| && r in ops[c].receipts && AnswersOK(ops[c]) ==>
      r < |ops| && IsDrained(ops[r])
  }

  ghost predicate AnswersOK(op: Op) {
    op.worker == Finished(Some(Reply(OK))) || (HasCompletion(op) && CompletionOf(op).code == OK)
  }

  /** Each instance has been called back exactly once or not at all. */
  ghost predicate CountsOk(log: seq<Callback>, ops: seq<Op>) {
    forall i: nat {:trigger CallCount(log, i)} :: CallCount(log, i) == (if i < |ops| && IsCalled(ops[i]) then 1 else 0)
  }

  /** Each callback carries the id and the completion of its instance. */
  ghost predicate EntriesOk(log: seq<Callback>, ops: seq<Op>) {
    forall k :: 0 <= k < |log| ==> log[k].instance < |ops| && EntryOk(log[k], ops[log[k].instance])
  }

  ghost predicate EntryOk(c: Callback, op: Op) {
    c.id == op.id && HasCompletion(op) && CompletionOf(op) == c.completion
  }

  ghost predicate Inv(s: State) {
    && s.issued < U64
    && OpsOk(s.ops)
    && PendingOk(s.pending, s.ops)
    && TableOk(s.resources, s.issued)
    && CutsOk(s.resources, s.issued, s.ops)
    && MadeOk(s.issued, s.ops)
    && TargetsOk(s.resources, s.issued, s.ops)
    && ParentsOk(s.resources, s.issued, s.ops)
    && AnswersOk(s.ops)
    && CountsOk(s.log, s.ops)
    && EntriesOk(s.log, s.ops)
    && (forall i :: i in s.cancelling ==> i < |s.ops|)
  }

  lemma InitInv()
    ensures Inv(INIT)
  {
  }

  /** A step of one operation that leaves its admission, cut and receipts alone. */
  ghost predicate Keeps(o: Op, o': Op) {
    && o'.id == o.id && o'.request == o.request && o'.valid == o.valid && o'.parent == o.parent
    && o'.receipts == o.receipts && o'.cut == o.cut
    && (IsDrained(o) ==> IsDrained(o'))
    && (HasCompletion(o) ==> HasCompletion(o') && CompletionOf(o') == CompletionOf(o))
  }

  /** A step of one operation that neither inserts a handle, calls back nor gives up its id. */
  ghost predicate Advances(o: Op, o': Op) {
    && Keeps(o, o')
    && o'.made == o.made
    && (IsCalled(o) <==> IsCalled(o'))
    && (o'.supervisor.Gone? <==> o.supervisor.Gone?)
  }

  lemma LocalCuts(resources: map<Handle, Resource>, issued: nat, ops: seq<Op>, i: nat, o': Op)
    requires CutsOk(resources, issued, ops) && i < |ops| && Keeps(ops[i], o')
    ensures CutsOk(resources, issued, ops[i := o'])
  {
    var ops' := ops[i := o'];
    assert forall j :: 0 <= j < |ops| ==> ops'[j].cut == ops[j].cut;
    forall h | 1 <= h <= issued && h !in resources
      ensures WasCut(ops', h)
    {
      assert WasCut(ops, h);
      var k :| 0 <= k < |ops| && h in ops[k].cut;
      assert h in ops'[k].cut;
    }
  }

  lemma LocalMade(issued: nat, ops: seq<Op>, i: nat, o': Op)
    requires MadeOk(issued, ops) && i < |ops| && o'.made == ops[i].made
    ensures MadeOk(issued, ops[i := o'])
  {
    assert forall j :: 0 <= j < |ops| ==> ops[i := o'][j].made == ops[j].made;
  }

  lemma LocalParents(resources: map<Handle, Resource>, issued: nat, ops: seq<Op>, i: nat, o': Op)
    requires ParentsOk(resources, issued, ops) && TargetsOk(resources, issued, ops)
    requires i < |ops| && Keeps(ops[i], o')
    ensures ParentsOk(resources, issued, ops[i := o']) && TargetsOk(resources, issued, ops[i := o'])
  {
    var ops' := ops[i := o'];
    assert forall j :: 0 <= j < |ops| ==> Keeps(ops[j], ops'[j]);
    forall c: nat, j: nat | c < |ops'| && j < |ops'| && Closes(ops'[c], ops'[j].parent)
      ensures IsDrained(ops'[j]) || j in ops'[c].receipts
    {
      assert Closes(ops[c], ops[j].parent);
    }
    forall c: nat, r: nat | c < |ops'| && r in ops'[c].receipts
      ensures r < |ops'| && Closes(ops'[c], ops'[r].parent)
    {
      assert r in ops[c].receipts;
      assert Closes(ops[c], ops[r].parent);
    }
  }

  lemma LocalAnswers(ops: seq<Op>, i: nat, o': Op)
    requires AnswersOk(ops) && i < |ops| && Keeps(ops[i], o')
    requires AnswersOK(o') && !AnswersOK(ops[i]) ==>
               forall r :: r in o'.receipts ==> r < |ops| && IsDrained(ops[r])
    ensures AnswersOk(ops[i := o'])
  {
    var ops' := ops[i := o'];
    forall c: nat, r: nat | c < |ops'| && r in ops'[c].receipts && AnswersOK(ops'[c])
      ensures r < |ops'| && IsDrained(ops'[r])
    {
      assert r in ops[c].receipts;
      if AnswersOK(ops[c]) {
        assert r < |ops| && IsDrained(ops[r]);
      }
    }
  }

  lemma LocalPending(pending: map<OpId, nat>, ops: seq<Op>, i: nat, o': Op)
    requires PendingOk(pending, ops) && i < |ops| && o'.id == ops[i].id
    requires o'.supervisor.Gone? <==> ops[i].supervisor.Gone?
    ensures PendingOk(pending, ops[i := o'])
  {
    var ops' := ops[i := o'];
    assert forall j :: 0 <= j < |ops| ==>
      ops'[j].id == ops[j].id && (ops'[j].supervisor.Gone? <==> ops[j].supervisor.Gone?);
  }

  /** The callback of an operation, once it has been made, stays as it was. */
  ghost predicate SameAnswer(o: Op, o': Op) {
    o'.id == o.id && (HasCompletion(o) ==> HasCompletion(o') && CompletionOf(o') == CompletionOf(o))
  }

  lemma LocalEntries(log: seq<Callback>, ops: seq<Op>, i: nat, o': Op)
    requires EntriesOk(log, ops) && i < |ops| && SameAnswer(ops[i], o')
    ensures EntriesOk(log, ops[i := o'])
  {
    assert forall j :: 0 <= j < |ops| ==> SameAnswer(ops[j], ops[i := o'][j]);
  }

  lemma LocalLog(log: seq<Callback>, ops: seq<Op>, i: nat, o': Op)
    requires CountsOk(log, ops) && EntriesOk(log, ops) && i < |ops| && SameAnswer(ops[i], o')
    requires IsCalled(o') <==> IsCalled(ops[i])
    ensures CountsOk(log, ops[i := o']) && EntriesOk(log, ops[i := o'])
  {
    LocalEntries(log, ops, i, o');
  }

  lemma LocalStep(s: State, i: nat, o': Op)
    requires Inv(s) && i < |s.ops|
    requires Advances(s.ops[i], o') && OpOk(o')
    requires AnswersOK(o') && !AnswersOK(s.ops[i]) ==>
               forall r :: r in o'.receipts ==> r < |s.ops| && IsDrained(s.ops[r])
    ensures Inv(SetOp(s, i, o'))
  {
    LocalPending(s.pending, s.ops, i, o');
    LocalLog(s.log, s.ops, i, o');
    LocalCuts(s.resources, s.issued, s.ops, i, o');
    LocalMade(s.issued, s.ops, i, o');
    LocalParents(s.resources, s.issued, s.ops, i, o');
    LocalAnswers(s.ops, i, o');
  }

  function WorkerOp(o: Op, l: Label): Op {
    match l
    case Start(_) => o.(worker := Running)
    case Acquire(_) => o.(worker := Locked)
    case Finish(_, output) => o.(worker := Finished(Some(output)))
    case Settle(_) => o.(worker := Finished(Some(Reply(OK))))
    case _ => o.(worker := Finished(None))
  }

  lemma WorkerOpOk(s: State, l: Label)
    requires OpsOk(s.ops) && Enabled(s, l)
    requires l.Start? || l.Acquire? || l.Finish? || l.Settle? || l.Abort? || l.Panic?
    ensures OpOk(WorkerOp(s.ops[l.op], l)) && Advances(s.ops[l.op], WorkerOp(s.ops[l.op], l))
    ensures l.Finish? ==> s.ops[l.op].receipts == {}
  {
    assert OpOk(s.ops[l.op]);
  }

  lemma WorkerSteps(s: State, l: Label)
    requires Inv(s) && Enabled(s, l)
    requires l.Start? || l.Acquire? || l.Finish? || l.Settle? || l.Abort? || l.Panic?
    ensures Inv(Next(s, l))
  {
    WorkerOpOk(s, l);
    LocalStep(s, l.op, WorkerOp(s.ops[l.op], l));
  }

  lemma DropStep(s: State, i: nat)
    requires Inv(s) && Enabled(s, Drop(i))
    ensures Inv(Next(s, Drop(i)))
  {
    var o := s.ops[i];
    assert OpOk(o);
    LocalStep(s, i, o.(worker := Dropped, supervisor := Cleared(o.supervisor.completion)));
  }

  lemma DrainStep(s: State, i: nat)
    requires Inv(s) && Enabled(s, Drain(i))
    ensures Inv(Next(s, Drain(i)))
  {
    var o := s.ops[i];
    assert OpOk(o);
    LocalStep(s, i, o.(supervisor := Drained(o.supervisor.completion)));
  }

  lemma ReturnStep(s: State, i: nat)
    requires Inv(s) && Enabled(s, Return(i))
    ensures Inv(Next(s, Return(i)))
  {
    var o := s.ops[i];
    assert OpOk(o);
    LocalStep(s, i, o.(supervisor := Returned(o.supervisor.completion)));
  }

  lemma LookupStep(s: State, id: OpId)
    requires Inv(s)
    ensures Inv(DoLookupCancel(s, id))
  {
  }

  lemma ApplyStep(s: State, i: nat)
    requires Inv(s) && Enabled(s, ApplyCancel(i))
    ensures Inv(DoApplyCancel(s, i))
  {
    var s1 := s.(cancelling := s.cancelling - multiset{i});
    assert Inv(s1);
    var o := s.ops[i];
    if o.phase == Active {
      assert OpOk(o);
      LocalStep(s1, i, o.(phase := Cancelled));
    }
  }

  /** A step of the supervisor's tail: the operation is finished and only its stage moves. */
  ghost predicate TailStep(o: Op, o': Op) {
    OpOk(o') && Keeps(o, o') && o'.made == o.made && o'.worker == o.worker && HasCompletion(o)
  }

  lemma LocalTail(s: State, i: nat, o': Op)
    requires Inv(s) && i < |s.ops| && TailStep(s.ops[i], o')
    ensures OpsOk(s.ops[i := o'])
    ensures CutsOk(s.resources, s.issued, s.ops[i := o']) && MadeOk(s.issued, s.ops[i := o'])
    ensures ParentsOk(s.resources, s.issued, s.ops[i := o']) && TargetsOk(s.resources, s.issued, s.ops[i := o'])
    ensures AnswersOk(s.ops[i := o'])
  {
    LocalCuts(s.resources, s.issued, s.ops, i, o');
    LocalMade(s.issued, s.ops, i, o');
    LocalParents(s.resources, s.issued, s.ops, i, o');
    LocalAnswers(s.ops, i, o');
  }

  lemma CountAppend(log: seq<Callback>, c: Callback, i: nat)
    ensures CallCount(log + [c], i) == CallCount(log, i) + (if c.instance == i then 1 else 0)
  {
    assert (log + [c])[..|log + [c]| - 1] == log;
  }

  lemma CallLog(log: seq<Callback>, ops: seq<Op>, i: nat, o': Op)
    requires CountsOk(log, ops) && EntriesOk(log, ops) && i < |ops| && SameAnswer(ops[i], o') && HasCompletion(o')
    requires !IsCalled(ops[i]) && IsCalled(o')
    ensures CountsOk(log + [Callback(i, o'.id, CompletionOf(o'))], ops[i := o'])
    ensures EntriesOk(log + [Callback(i, o'.id, CompletionOf(o'))], ops[i := o'])
  {
    var c := Callback(i, o'.id, CompletionOf(o'));
    forall j: nat
      ensures CallCount(log + [c], j) == (if j < |ops| && IsCalled(ops[i := o'][j]) then 1 else 0)
    {
      CountAppend(log, c, j);
    }
    LocalEntries(log, ops, i, o');
  }

  lemma CallStep(s: State, i: nat)
    requires Inv(s) && Enabled(s, Call(i))
    ensures Inv(DoCall(s, i))
  {
    var o := s.ops[i];
    var o' := o.(supervisor := Calling(o.supervisor.completion));
    assert OpOk(o);
    LocalTail(s, i, o');
    CallLog(s.log, s.ops, i, o');
    LocalPending(s.pending, s.ops, i, o');
  }

  lemma RemovePending(pending: map<OpId, nat>, ops: seq<Op>, i: nat, o': Op)
    requires PendingOk(pending, ops) && i < |ops| && Keeps(ops[i], o')
    requires !ops[i].supervisor.Gone? && o'.supervisor.Gone?
    ensures ops[i].id in pending && pending[ops[i].id] == i
    ensures PendingOk(pending - {o'.id}, ops[i := o'])
  {
    var ops' := ops[i := o'];
    assert forall j :: 0 <= j < |ops| && j != i ==> ops'[j] == ops[j];
  }

  lemma RemoveStep(s: State, i: nat)
    requires Inv(s) && Enabled(s, Remove(i))
    ensures Inv(DoRemove(s, i))
    ensures s.ops[i].id in s.pending && s.pending[s.ops[i].id] == i
  {
    var o := s.ops[i];
    var o' := o.(supervisor := Gone(o.supervisor.completion));
    assert OpOk(o);
    LocalTail(s, i, o');
    RemovePending(s.pending, s.ops, i, o');
    LocalLog(s.log, s.ops, i, o');
  }
}
