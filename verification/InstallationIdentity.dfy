// `installation_id` on top of the store queue: any number of concurrent callers,
// each of which may give up at any point, agree on one identity.

module InstallationIdentity {
  import opened Basics
  import opened StoreQueue

  datatype Caller =
    | FirstLoad(op: nat)
    | AtGate
    | SecondLoad(op: nat)  // from here on the caller holds the operation lock
    | Saving(op: nat, minted: string)
    | Returned(id: string)
    | GaveUp
  {
    predicate Inside() {
      SecondLoad? || Saving?
    }

    predicate Waits() {
      FirstLoad? || Inside()
    }
  }

  datatype System = System(queue: Queue<string>, gate: Option<nat>, callers: map<nat, Caller>)

  datatype Move =
    | Enter(c: nat, op: nat)
    | Native(step: Step<string>)  // the worker, on its own
    | Advance(c: nat, op: nat, minted: string)  // the answer of the store has come
    | TakeGate(c: nat, op: nat)
    | Abort(c: nat)  // any timeout, cancellation or failure of the caller

  function At(s: System, c: nat, caller: Caller, queue: Queue<string>): System {
    s.(queue := queue, callers := s.callers[c := caller],
       gate := if caller.Inside() then Some(c) else if s.gate == Some(c) then None else s.gate)
  }

  function Receive(s: System, c: nat, op: nat, minted: string): Option<System> {
    if c !in s.callers || !s.callers[c].Waits() then None else
    var caller := s.callers[c];
    if caller.op !in s.queue.clients || !s.queue.clients[caller.op].Answered? then None else
    var outcome := s.queue.clients[caller.op].outcome;
    var left := Do(s.queue, Leave(caller.op)).value;
    match outcome
    case Failed => Some(At(s, c, GaveUp, left))
    case Done => Some(At(s, c, if caller.Saving? then Returned(caller.minted) else GaveUp, left))
    case Read(Some(id)) => Some(At(s, c, Returned(id), left))
    case Read(None) =>
      if caller.FirstLoad? then Some(At(s, c, AtGate, left)) else
      var asked := Do(left, Submit(op, Save(minted)));
      if asked.None? then None else Some(At(s, c, Saving(op, minted), asked.value))
  }

  function Make(s: System, move: Move): Option<System> {
    match move
    case Enter(c, op) =>
      var asked := Do(s.queue, Submit(op, Load));
      if c in s.callers || asked.None? then None else Some(At(s, c, FirstLoad(op), asked.value))
    case Native(step) =>
      if !(step.Acquire? || step.Work? || step.Release?) || Do(s.queue, step).None? then None
      else Some(s.(queue := Do(s.queue, step).value))
    case Advance(c, op, minted) => Receive(s, c, op, minted)
    case TakeGate(c, op) =>
      var asked := Do(s.queue, Submit(op, Load));
      if s.gate.Some? || c !in s.callers || !s.callers[c].AtGate? || asked.None? then None
      else Some(At(s, c, SecondLoad(op), asked.value))
    case Abort(c) =>
      if c !in s.callers || s.callers[c].Returned? || s.callers[c].GaveUp? then None
      else if !s.callers[c].Waits() then Some(At(s, c, GaveUp, s.queue))
      else Some(At(s, c, GaveUp, s.queue.(clients := s.queue.clients - {s.callers[c].op})))
  }

  predicate Reaches(s: System, moves: seq<Move>, end: System)
    decreases |moves|
  {
    if moves == [] then s == end
    else Make(s, moves[0]).Some? && Reaches(Make(s, moves[0]).value, moves[1..], end)
  }

  // ---- The invariant -------------------------------------------------------

  /// Each waiting caller has its own call, and only the holder of the lock writes.
  predicate Owned(s: System) {
    && (forall c <- s.callers :: s.callers[c].Waits() ==>
          (&& s.callers[c].op in s.queue.clients
           && s.queue.clients[s.callers[c].op].op == if s.callers[c].Saving? then Save(s.callers[c].minted) else Load))
    && (forall c <- s.callers, d <- s.callers ::
          c != d && s.callers[c].Waits() && s.callers[d].Waits() ==> s.callers[c].op != s.callers[d].op)
    && (forall c <- s.callers :: s.callers[c].Inside() ==> s.gate == Some(c))
    && (s.gate.Some? ==> s.gate.value in s.callers && s.callers[s.gate.value].Inside())
    && (forall id <- s.queue.clients :: s.queue.clients[id].op.Load? || Holds(s, id))
  }

  /// The lock holder is saving with this call.
  predicate Holds(s: System, id: nat)
    requires id in s.queue.clients
  {
    && s.gate.Some? && s.gate.value in s.callers && s.callers[s.gate.value].Saving?
    && s.callers[s.gate.value].op == id && s.queue.clients[id].op == Save(s.callers[s.gate.value].minted)
  }

  predicate WriteUnderWay(q: Queue<string>) {
    q.worker.Some? && q.worker.value.outcome.None? && q.worker.value.op.Save?
  }

  /// What a call has reported is still so; nothing is written over an identity.
  predicate Truthful(cell: Option<string>, op: Op<string>, outcome: Outcome<string>) {
    && (outcome.Read? ==> op.Load?) && (outcome.Done? ==> op.Save?)
    && (outcome.Read? && outcome.value.Some? ==> cell == outcome.value)
    && (outcome.Done? && op.Save? ==> cell == Some(op.value))
  }

  predicate Settled(q: Queue<string>) {
    && (q.worker.Some? ==> !q.worker.value.op.Remove?)
    && (WriteUnderWay(q) ==> q.cell.None?)
    && (q.worker.Some? && q.worker.value.outcome.Some? ==>
          Truthful(q.cell, q.worker.value.op, q.worker.value.outcome.value))
    && (forall id <- q.clients :: !q.clients[id].op.Remove?)
    && (forall id <- q.clients :: q.clients[id].Queued? && q.clients[id].op.Save? ==> q.cell.None? && !WriteUnderWay(q))
    && (forall id <- q.clients :: q.clients[id].Answered? ==> Truthful(q.cell, q.clients[id].op, q.clients[id].outcome))
  }

  /// The lock holder that read nothing still finds nothing.
  predicate Empty(s: System) {
    s.gate.Some? && s.gate.value in s.callers && s.callers[s.gate.value].SecondLoad? ==>
      (var op := s.callers[s.gate.value].op;
       && (op in s.queue.clients && s.queue.clients[op].Answered? && s.queue.clients[op].outcome == Read(None) ==>
             s.queue.cell.None? && !WriteUnderWay(s.queue))
       && (s.queue.worker.Some? && s.queue.worker.value.id == op && s.queue.worker.value.outcome == Some(Read(None)) ==>
             s.queue.cell.None?))
  }

  ghost predicate Agreed(s: System) {
    && Booked(s.queue) && Owned(s) && Settled(s.queue) && Empty(s)
    && (forall c <- s.callers :: s.callers[c].Returned? ==> s.queue.cell == Some(s.callers[c].id))
  }

  lemma EnterKeeps(s: System, c: nat, op: nat)
    requires Agreed(s) && Make(s, Enter(c, op)).Some?
    ensures Agreed(Make(s, Enter(c, op)).value)
  {
    StepKeepsBooked(s.queue, Submit(op, Load));
    EnterOwned(s, c, op);
    ReadingSettled(s.queue, op);
    hide Booked, Owned, Settled;
  }

  lemma ReadingSettled(q: Queue<string>, op: nat)
    requires Settled(q) && Booked(q) && Do(q, Submit(op, Load)).Some?
    ensures Settled(Do(q, Submit(op, Load)).value)
  {
  }

  lemma EnterOwned(s: System, c: nat, op: nat)
    requires Agreed(s) && Make(s, Enter(c, op)).Some?
    ensures Owned(Make(s, Enter(c, op)).value)
  {
    hide Settled, Empty;
  }

  lemma GateKeeps(s: System, c: nat, op: nat)
    requires Agreed(s) && Make(s, TakeGate(c, op)).Some?
    ensures Agreed(Make(s, TakeGate(c, op)).value)
  {
    StepKeepsBooked(s.queue, Submit(op, Load));
  }

  lemma AbortKeeps(s: System, c: nat)
    requires Agreed(s) && Make(s, Abort(c)).Some?
    ensures Agreed(Make(s, Abort(c)).value)
  {
    if s.callers[c].Waits() {
      LeaveOwned(s, c, GaveUp);
    }
  }

  lemma AcquireKeeps(s: System, id: nat)
    requires Agreed(s) && Make(s, Native(Acquire(id))).Some?
    ensures Agreed(Make(s, Native(Acquire(id))).value)
  {
    StepKeepsBooked(s.queue, Acquire(id));
    AcquireSettled(s, id);
    AcquireOwned(s, id);
    hide Owned;
  }

  lemma AcquireOwned(s: System, id: nat)
    requires Owned(s) && Make(s, Native(Acquire(id))).Some?
    ensures Owned(Make(s, Native(Acquire(id))).value)
  {
  }

  lemma AcquireSettled(s: System, id: nat)
    requires Owned(s) && Booked(s.queue) && Settled(s.queue) && Do(s.queue, Acquire(id)).Some?
    ensures Settled(Do(s.queue, Acquire(id)).value)
  {
  }

  lemma WorkKeeps(s: System, ok: bool)
    requires Agreed(s) && Make(s, Native(Work(ok))).Some?
    ensures Agreed(Make(s, Native(Work(ok))).value)
    ensures s.queue.cell.Some? ==> Make(s, Native(Work(ok))).value.queue.cell == s.queue.cell
  {
    WorkKeepsBooked(s.queue, ok);
  }

  lemma ReleaseKeeps(s: System)
    requires Agreed(s) && Make(s, Native(Release)).Some?
    ensures Agreed(Make(s, Native(Release)).value)
  {
    StepKeepsBooked(s.queue, Release);
  }

  lemma ReceiveKeeps(s: System, c: nat, op: nat, minted: string)
    requires Agreed(s) && Receive(s, c, op, minted).Some?
    ensures Agreed(Receive(s, c, op, minted).value)
  {
    ReceiveBooked(s, c, op, minted);
    ReceiveOwned(s, c, op, minted);
    ReceiveSettled(s, c, op, minted);
    ReceiveEmpty(s, c, op, minted);
    hide Booked, Owned, Empty;
  }

  lemma ReceiveBooked(s: System, c: nat, op: nat, minted: string)
    requires Booked(s.queue) && Receive(s, c, op, minted).Some?
    ensures Booked(Receive(s, c, op, minted).value.queue)
  {
    var left := Do(s.queue, Leave(s.callers[c].op)).value;
    StepKeepsBooked(s.queue, Leave(s.callers[c].op));
    if op !in left.used {
      StepKeepsBooked(left, Submit(op, Save(minted)));
    }
    hide Booked;
  }

  lemma ReceiveOwned(s: System, c: nat, op: nat, minted: string)
    requires Owned(s) && Booked(s.queue) && Receive(s, c, op, minted).Some?
    ensures Owned(Receive(s, c, op, minted).value)
  {
    var after := Receive(s, c, op, minted).value.callers[c];
    if after.Waits() {
      AskOwned(s, c, op, minted);
    } else {
      LeaveOwned(s, c, after);
    }
    hide Booked, Owned;
  }

  /// A caller that stops waiting takes its call with it.
  lemma LeaveOwned(s: System, c: nat, after: Caller)
    requires Owned(s) && c in s.callers && s.callers[c].Waits() && !after.Waits()
    ensures Owned(At(s, c, after, s.queue.(clients := s.queue.clients - {s.callers[c].op})))
  {
  }

  lemma AskOwned(s: System, c: nat, op: nat, minted: string)
    requires Owned(s) && Booked(s.queue)
    requires Receive(s, c, op, minted).Some? && Receive(s, c, op, minted).value.callers[c].Waits()
    ensures Owned(Receive(s, c, op, minted).value)
  {
  }

  lemma ReceiveEmpty(s: System, c: nat, op: nat, minted: string)
    requires Owned(s) && Booked(s.queue) && Empty(s) && Receive(s, c, op, minted).Some?
    ensures Empty(Receive(s, c, op, minted).value)
  {
  }

  lemma ReceiveSettled(s: System, c: nat, op: nat, minted: string)
    requires Agreed(s) && Receive(s, c, op, minted).Some?
    ensures Settled(Receive(s, c, op, minted).value.queue)
  {
    hide Booked;
  }

  lemma MoveKeepsAgreed(s: System, move: Move)
    requires Agreed(s) && Make(s, move).Some?
    ensures Agreed(Make(s, move).value)
    ensures s.queue.cell.Some? ==> Make(s, move).value.queue.cell == s.queue.cell
  {
    match move
    case Enter(c, op) => EnterKeeps(s, c, op);
    case TakeGate(c, op) => GateKeeps(s, c, op);
    case Abort(c) => AbortKeeps(s, c);
    case Advance(c, op, minted) => ReceiveKeeps(s, c, op, minted);
    case Native(Acquire(id)) => AcquireKeeps(s, id);
    case Native(Work(ok)) => WorkKeeps(s, ok);
    case Native(Release) => ReleaseKeeps(s);
    hide Agreed;
  }

  /// However calls interleave, time out or are cancelled, all callers that get an
  /// identity get the same one, and it is the one in the store.
  lemma {:induction false} CallersAgree(s: System, moves: seq<Move>, end: System)
    requires Agreed(s) && Reaches(s, moves, end)
    ensures Agreed(end)
    ensures forall c <- end.callers, d <- end.callers :: end.callers[c].Returned? && end.callers[d].Returned? ==>
      end.callers[c].id == end.callers[d].id
    ensures forall c <- end.callers :: end.callers[c].Returned? ==> end.queue.cell == Some(end.callers[c].id)
    ensures s.queue.cell.Some? ==> end.queue.cell == s.queue.cell
    decreases |moves|
  {
    if moves != [] {
      MoveKeepsAgreed(s, moves[0]);
      CallersAgree(Make(s, moves[0]).value, moves[1..], end);
    }
    hide Make, Owned, Settled, Empty, Booked;
  }

  lemma NobodyInside(cell: Option<string>)
    ensures Agreed(System(Start(cell), None, map[]))
  {
  }
}
