/**
 The operation lifecycle of the QUIC provider: resource and pending tables, the phase of
 each operation, its worker, its supervisor and its drain receipt.

 Each label of `Next` is one critical section (or one point where a task yields) of the
 provider. Operations are numbered by admission order; the number stands for the phase
 cell that identifies an operation instance. What QUIC, TLS and the host do is carried by
 the labels, so every interleaving and every external outcome is some sequence of labels.
 */
module QuicProvider {
  import opened Common

  type Handle = nat
  type OpId = nat

  // `next_resource` is a 64-bit counter that starts at one and wraps.
  const U64: nat := 0x1_0000_0000_0000_0000

  datatype Code = OK | ACCEPTED | INVALID_ARGUMENT | INVALID_HANDLE | FAILED | CANCELLED | DUPLICATE

  datatype Resource =
    | Material
    | Listener
    | Connection
    | Send(parentConnection: Handle)
    | Recv(parentConnection: Handle)

  function ParentOf(r: Resource): Option<Handle> {
    match r
    case Send(p) => Some(p)
    case Recv(p) => Some(p)
    case _ => None
  }

  /** The entry points of the provider, grouped by what they admit and what they commit. */
  datatype Request =
    | MakeRoot                      // register, generate, listen, accept, connect
    | OpenStream(connection: Handle) // open_bidi, accept_bidi, open_uni
    | UseConnection(connection: Handle) // inspect, exporter, datagrams, query, budget, stats
    | Write(stream: Handle)
    | Read(stream: Handle)
    | CloseHandle(target: Handle)

  datatype Phase = Active | Cancelled | Closing | Committed

  datatype Created = Single(resource: Resource) | Bidi(send: Resource, recv: Resource)

  datatype Output = Made(created: Created) | Reply(code: Code)

  datatype Completion = Completion(code: Code, handles: seq<Handle>)

  /**
   `Locked` is a read or write that holds its stream's mutex, `Waiting` a close past its
   cutoff, and `Finished(None)` a worker whose join failed.
   */
  datatype Worker = Held | Running | Locked | Waiting | Finished(output: Option<Output>) | Dropped

  /** `Cleared` has dropped the output but not yet raised the drain receipt. */
  datatype Supervisor =
    | Joining
    | Decided(completion: Completion)
    | Cleared(completion: Completion)
    | Drained(completion: Completion)
    | Calling(completion: Completion)
    | Returned(completion: Completion)
    | Gone(completion: Completion)

  /** One operation. `made` and `cut` record the handles it inserted and removed. */
  datatype Op = Op(
    id: OpId,
    request: Request,
    valid: bool,
    parent: Option<Handle>,
    phase: Phase,
    worker: Worker,
    supervisor: Supervisor,
    receipts: set<nat>,
    cut: set<Handle>,
    made: seq<Handle>)

  datatype Callback = Callback(instance: nat, id: OpId, completion: Completion)

  datatype State = State(
    resources: map<Handle, Resource>,
    pending: map<OpId, nat>,
    issued: nat,
    ops: seq<Op>,
    cancelling: multiset<nat>,
    log: seq<Callback>)

  datatype Label =
    | Submit(id: OpId, request: Request)
    | Start(op: nat)
    | Acquire(op: nat)
    | Finish(op: nat, output: Output)
    | Cutoff(op: nat)
    | Settle(op: nat)
    | Abort(op: nat)
    | Panic(op: nat)
    | Arbitrate(op: nat)
    | Drop(op: nat)
    | Drain(op: nat)
    | Call(op: nat)
    | Return(op: nat)
    | Remove(op: nat)
    | LookupCancel(id: OpId)
    | ApplyCancel(op: nat)

  const INIT: State := State(map[], map[], 0, [], multiset{}, [])

  predicate IsConnection(resources: map<Handle, Resource>, h: Handle) {
    h in resources && resources[h] == Connection
  }

  predicate IsDrained(op: Op) {
    !op.supervisor.Joining? && !op.supervisor.Decided? && !op.supervisor.Cleared?
  }

  predicate IsCalled(op: Op) {
    op.supervisor.Calling? || op.supervisor.Returned? || op.supervisor.Gone?
  }

  /** Admission: whether the request's handle resolves, and the connection it is charged to. */
  function Admit(resources: map<Handle, Resource>, request: Request): (r: (bool, Option<Handle>))
    ensures r.1.Some? ==> r.0
    ensures !request.CloseHandle? && r.1.Some? ==> IsConnection(resources, r.1.value)
    ensures request.CloseHandle? ==> (r.0 <==> request.target in resources)
  {
    match request
    case MakeRoot => (true, None)
    case OpenStream(h) => if IsConnection(resources, h) then (true, Some(h)) else (false, None)
    case UseConnection(h) => if IsConnection(resources, h) then (true, Some(h)) else (false, None)
    case Write(h) =>
      if h in resources && resources[h].Send? && IsConnection(resources, resources[h].parentConnection)
      then (true, Some(resources[h].parentConnection)) else (false, None)
    case Read(h) =>
      if h in resources && resources[h].Recv? && IsConnection(resources, resources[h].parentConnection)
      then (true, Some(resources[h].parentConnection)) else (false, None)
    case CloseHandle(h) =>
      if h in resources then (true, ParentOf(resources[h])) else (false, None)
  }

  function SubmitCode(s: State, id: OpId): Code {
    if id == 0 then INVALID_ARGUMENT
    else if id in s.pending then DUPLICATE
    else ACCEPTED
  }

  function DoSubmit(s: State, id: OpId, request: Request): State {
    if SubmitCode(s, id) != ACCEPTED then s
    else
      var (valid, parent) := Admit(s.resources, request);
      var op := Op(id, request, valid, parent, Active, Held, Joining, {}, {}, []);
      s.(pending := s.pending[id := |s.ops|], ops := s.ops + [op])
  }

  function CancelCode(s: State, id: OpId): Code {
    if id in s.pending then ACCEPTED else INVALID_HANDLE
  }

  function DoLookupCancel(s: State, id: OpId): State {
    if CancelCode(s, id) == ACCEPTED then s.(cancelling := s.cancelling + multiset{s.pending[id]}) else s
  }

  function DoApplyCancel(s: State, i: nat): State
    requires i < |s.ops|
  {
    var s' := s.(cancelling := s.cancelling - multiset{i});
    if s.ops[i].phase == Active then SetOp(s', i, s.ops[i].(phase := Cancelled)) else s'
  }

  function SetOp(s: State, i: nat, op: Op): State
    requires i < |s.ops|
  {
    s.(ops := s.ops[i := op])
  }

  /** What a worker that is not a close may return, given what it was admitted on. */
  predicate LegalOutput(op: Op, output: Output) {
    if !op.valid then output == Reply(INVALID_HANDLE)
    else match op.request
      case MakeRoot =>
        (output.Made? && output.created.Single? && ParentOf(output.created.resource) == None)
        || output in {Reply(FAILED), Reply(INVALID_HANDLE), Reply(INVALID_ARGUMENT)}
      case OpenStream(h) =>
        output in {Made(Single(Send(h))), Made(Bidi(Send(h), Recv(h))), Reply(FAILED)}
      case CloseHandle(_) => false
      case _ => output in {Reply(OK), Reply(FAILED)}
  }

  /** A read or write works under the mutex of its stream from its first await to its end. */
  predicate NeedsLock(op: Op) {
    op.valid && (op.request.Write? || op.request.Read?)
  }

  /** No operation holds the mutex of stream `h`. */
  predicate LockFree(ops: seq<Op>, h: Handle) {
    forall j :: 0 <= j < |ops| ==> !HoldsLock(ops[j], h)
  }

  predicate HoldsLock(op: Op, h: Handle) {
    op.worker.Locked? && NeedsLock(op) && op.request.stream == h
  }

  function Children(resources: map<Handle, Resource>, h: Handle): set<Handle> {
    set c | c in resources && ParentOf(resources[c]) == Some(h)
  }

  function Receipts(s: State, h: Handle): set<nat> {
    set id | id in s.pending && s.pending[id] < |s.ops| && s.ops[s.pending[id]].parent == Some(h)
      :: s.pending[id]
  }

  /** The cutoff of a close: the phase and both tables, in one critical section. */
  function DoCutoff(s: State, i: nat): State
    requires i < |s.ops| && s.ops[i].request.CloseHandle?
  {
    var op := s.ops[i];
    var h := op.request.target;
    if op.phase == Cancelled then
      SetOp(s, i, op.(worker := Finished(Some(Reply(CANCELLED)))))
    else if h !in s.resources then
      SetOp(s, i, op.(worker := Finished(Some(Reply(INVALID_HANDLE)))))
    else if s.resources[h] == Connection then
      var cut := {h} + Children(s.resources, h);
      SetOp(s, i, op.(phase := Closing, worker := Waiting, cut := cut, receipts := Receipts(s, h)))
        .(resources := s.resources - cut)
    else
      SetOp(s, i, op.(phase := Closing, worker := Waiting, cut := {h}))
        .(resources := s.resources - {h})
  }

  /** `fetch_add` on the wrapping handle counter, `n` handles after the current one. */
  function NextHandle(s: State, n: nat): Handle {
    (1 + s.issued + n) % U64
  }

  function CreatedParent(c: Created): Option<Handle> {
    match c
    case Single(r) => ParentOf(r)
    case Bidi(send, _) => ParentOf(send)
  }

  /** The commit closure of a creator and of every other operation. */
  function Commit(s: State, output: Output): (r: (State, Completion))
    ensures r.0.ops == s.ops && r.0.pending == s.pending
    ensures r.0.cancelling == s.cancelling && r.0.log == s.log
    ensures s.issued <= r.0.issued
  {
    match output
    case Reply(code) => (s, Completion(code, []))
    case Made(created) =>
      var parent := CreatedParent(created);
      if parent.Some? && !IsConnection(s.resources, parent.value) then
        (s, Completion(INVALID_HANDLE, []))
      else
        var first := NextHandle(s, 0);
        match created
        case Single(r) =>
          (s.(resources := s.resources[first := r], issued := s.issued + 1), Completion(OK, [first]))
        case Bidi(send, recv) =>
          var second := NextHandle(s, 1);
          (s.(resources := s.resources[first := send][second := recv], issued := s.issued + 2),
           Completion(OK, [first, second]))
  }

  /** Terminal arbitration under the phase lock. */
  function DoArbitrate(s: State, i: nat): State
    requires i < |s.ops| && s.ops[i].worker.Finished?
  {
    var op := s.ops[i];
    if op.phase == Cancelled then
      SetOp(s, i, op.(supervisor := Decided(Completion(CANCELLED, []))))
    else if op.worker.output.None? then
      SetOp(s, i, op.(phase := Committed, supervisor := Decided(Completion(FAILED, []))))
    else
      var (s', completion) := Commit(s, op.worker.output.value);
      SetOp(s', i, op.(phase := Committed, supervisor := Decided(completion), made := completion.handles))
  }

  function DoCall(s: State, i: nat): State
    requires i < |s.ops| && s.ops[i].supervisor.Drained?
  {
    var op := s.ops[i];
    SetOp(s, i, op.(supervisor := Calling(op.supervisor.completion)))
      .(log := s.log + [Callback(i, op.id, op.supervisor.completion)])
  }

  function DoRemove(s: State, i: nat): State
    requires i < |s.ops| && s.ops[i].supervisor.Returned?
  {
    var op := s.ops[i];
    var s' := SetOp(s, i, op.(supervisor := Gone(op.supervisor.completion)));
    if op.id in s.pending && s.pending[op.id] == i then s'.(pending := s.pending - {op.id}) else s'
  }

  predicate IsPolled(w: Worker) {
    w.Running? || w.Locked? || w.Waiting?
  }

  predicate Enabled(s: State, l: Label) {
    match l
    case Submit(_, _) => true
    case LookupCancel(_) => true
    case ApplyCancel(i) => i in s.cancelling && i < |s.ops|
    case Start(i) => i < |s.ops| && s.ops[i].worker.Held?
    case Acquire(i) =>
      i < |s.ops| && s.ops[i].worker.Running? && NeedsLock(s.ops[i]) && LockFree(s.ops, s.ops[i].request.stream)
    case Finish(i, output) =>
      && i < |s.ops| && LegalOutput(s.ops[i], output)
      && (if NeedsLock(s.ops[i]) then s.ops[i].worker.Locked? else s.ops[i].worker.Running?)
    case Cutoff(i) =>
      i < |s.ops| && s.ops[i].worker.Running? && s.ops[i].valid && s.ops[i].request.CloseHandle?
    case Settle(i) =>
      && i < |s.ops| && s.ops[i].worker.Waiting? && s.ops[i].request.CloseHandle?
      && (forall r :: r in s.ops[i].receipts ==> r < |s.ops| && IsDrained(s.ops[r]))
      && (s.ops[i].parent.Some? ==> LockFree(s.ops, s.ops[i].request.target))
    case Abort(i) =>
      && i < |s.ops| && s.ops[i].phase == Cancelled
      && (s.ops[i].worker.Held? || IsPolled(s.ops[i].worker))
    case Panic(i) => i < |s.ops| && IsPolled(s.ops[i].worker)
    case Arbitrate(i) => i < |s.ops| && s.ops[i].worker.Finished? && s.ops[i].supervisor.Joining?
    case Drop(i) => i < |s.ops| && s.ops[i].supervisor.Decided?
    case Drain(i) => i < |s.ops| && s.ops[i].supervisor.Cleared?
    case Call(i) => i < |s.ops| && s.ops[i].supervisor.Drained?
    case Return(i) => i < |s.ops| && s.ops[i].supervisor.Calling?
    case Remove(i) => i < |s.ops| && s.ops[i].supervisor.Returned?
  }

  function Next(s: State, l: Label): State
    requires Enabled(s, l)
  {
    match l
    case Submit(id, request) => DoSubmit(s, id, request)
    case LookupCancel(id) => DoLookupCancel(s, id)
    case ApplyCancel(i) => DoApplyCancel(s, i)
    case Start(i) => SetOp(s, i, s.ops[i].(worker := Running))
    case Acquire(i) => SetOp(s, i, s.ops[i].(worker := Locked))
    case Finish(i, output) => SetOp(s, i, s.ops[i].(worker := Finished(Some(output))))
    case Cutoff(i) => DoCutoff(s, i)
    case Settle(i) => SetOp(s, i, s.ops[i].(worker := Finished(Some(Reply(OK)))))
    case Abort(i) => SetOp(s, i, s.ops[i].(worker := Finished(None)))
    case Panic(i) => SetOp(s, i, s.ops[i].(worker := Finished(None)))
    case Arbitrate(i) => DoArbitrate(s, i)
    case Drop(i) =>
      SetOp(s, i, s.ops[i].(worker := Dropped, supervisor := Cleared(s.ops[i].supervisor.completion)))
    case Drain(i) => SetOp(s, i, s.ops[i].(supervisor := Drained(s.ops[i].supervisor.completion)))
    case Call(i) => DoCall(s, i)
    case Return(i) => SetOp(s, i, s.ops[i].(supervisor := Returned(s.ops[i].supervisor.completion)))
    case Remove(i) => DoRemove(s, i)
  }
}
