// `store_operation`: every access to the credential store runs on a native
// worker that keeps the store lock until it is done, whatever has become of the
// caller in the meantime. Any number of callers may wait, time out or be
// cancelled, and the steps of the queue may interleave in any order.

module StoreQueue {
  import opened Basics

  datatype Op<V> = Load | Save(value: V) | Remove

  /// What the native call reported. A failed call has changed nothing.
  datatype Outcome<V> = Read(value: Option<V>) | Done | Failed

  datatype Entry<V> = Entry(id: nat, op: Op<V>, outcome: Outcome<V>)

  datatype Worker<V> = Worker(id: nat, op: Op<V>, outcome: Option<Outcome<V>>)

  /// A caller that still waits; one that gave up is no longer listed.
  datatype Client<V> = Queued(op: Op<V>) | Started(op: Op<V>) | Answered(op: Op<V>, outcome: Outcome<V>)

  datatype Queue<V> = Queue(
    cell: Option<V>,
    worker: Option<Worker<V>>,
    clients: map<nat, Client<V>>,
    used: set<nat>,
    log: seq<Entry<V>>)  // the native calls in the order of their effects

  datatype Step<V> =
    | Submit(id: nat, op: Op<V>)
    | Acquire(id: nat)  // the lock is free: the worker starts
    | Work(ok: bool)
    | Release  // the lock goes with the worker, and the caller, if it is still there, is answered
    | GiveUp(id: nat)  // timeout or cancellation, before or after the start
    | Leave(id: nat)  // an answered caller is gone

  function Effect<V>(cell: Option<V>, op: Op<V>): Option<V> {
    match op
    case Load => cell
    case Save(value) => Some(value)
    case Remove => None
  }

  function Report<V>(cell: Option<V>, op: Op<V>): Outcome<V> {
    if op.Load? then Read(cell) else Done
  }

  function Do<V>(q: Queue<V>, step: Step<V>): Option<Queue<V>> {
    match step
    case Submit(id, op) =>
      if id in q.used then None else Some(q.(clients := q.clients[id := Queued(op)], used := q.used + {id}))
    case Acquire(id) =>
      if q.worker.Some? || id !in q.clients || !q.clients[id].Queued? then None else
      var op := q.clients[id].op;
      Some(q.(worker := Some(Worker(id, op, None)), clients := q.clients[id := Started(op)]))
    case Work(ok) =>
      if q.worker.None? || q.worker.value.outcome.Some? then None else
      var job := q.worker.value;
      var outcome := if ok then Report(q.cell, job.op) else Failed;
      Some(q.(cell := if ok then Effect(q.cell, job.op) else q.cell, worker := Some(job.(outcome := Some(outcome))),
              log := q.log + [Entry(job.id, job.op, outcome)]))
    case Release =>
      if q.worker.None? || q.worker.value.outcome.None? then None else
      var job := q.worker.value;
      var answered := q.clients[job.id := Answered(job.op, job.outcome.value)];
      Some(q.(worker := None, clients := if job.id in q.clients then answered else q.clients))
    case GiveUp(id) =>
      if id in q.clients && !q.clients[id].Answered? then Some(q.(clients := q.clients - {id})) else None
    case Leave(id) =>
      if id in q.clients && q.clients[id].Answered? then Some(q.(clients := q.clients - {id})) else None
  }

  function Start<V>(cell: Option<V>): Queue<V> {
    Queue(cell, None, map[], {}, [])
  }

  /// Every state that some sequence of steps leads to.
  ghost predicate Reaches<V(!new)>(q: Queue<V>, steps: seq<Step<V>>, end: Queue<V>)
    decreases |steps|
  {
    if steps == [] then q == end
    else Do(q, steps[0]).Some? && Reaches(Do(q, steps[0]).value, steps[1..], end)
  }

  // ---- Linearisation -------------------------------------------------------

  /// The cell after the successful calls of a log, one after the other.
  function Replay<V>(cell: Option<V>, log: seq<Entry<V>>): Option<V>
    decreases |log|
  {
    if log == [] then cell
    else
      var before := Replay(cell, log[..|log| - 1]);
      var last := log[|log| - 1];
      if last.outcome.Failed? then before else Effect(before, last.op)
  }

  predicate WritesNothing<V>(e: Entry<V>) {
    e.outcome.Failed? || e.op.Load?
  }

  /// The last successful write decides what is stored; failed calls and readings do not count.
  lemma {:induction false} LastWriteStays<V>(cell: Option<V>, log: seq<Entry<V>>, k: nat)
    requires k <= |log| && forall j :: k <= j < |log| ==> WritesNothing(log[j])
    requires k == 0 || !WritesNothing(log[k - 1])
    ensures k == 0 ==> Replay(cell, log) == cell
    ensures k > 0 && log[k - 1].op.Remove? ==> Replay(cell, log) == None
    ensures k > 0 && log[k - 1].op.Save? ==> Replay(cell, log) == Some(log[k - 1].op.value)
    decreases |log|
  {
    if k < |log| {
      assert forall j :: k <= j < |log| - 1 ==> log[..|log| - 1][j] == log[j];
      assert k > 0 ==> log[..|log| - 1][k - 1] == log[k - 1];
      LastWriteStays(cell, log[..|log| - 1], k);
    }
  }

  /// The reading of the k-th call is the state that the calls before it left.
  ghost predicate Faithful<V>(cell: Option<V>, log: seq<Entry<V>>) {
    forall k :: 0 <= k < |log| ==>
      log[k].outcome.Failed? || log[k].outcome == Report(Replay(cell, log[..k]), log[k].op)
  }

  ghost predicate Logged<V>(log: seq<Entry<V>>, id: nat, op: Op<V>, outcome: Outcome<V>) {
    Entry(id, op, outcome) in log
  }

  ghost predicate Linear<V>(first: Option<V>, q: Queue<V>) {
    q.cell == Replay(first, q.log) && Faithful(first, q.log) && Booked(q)
  }

  /// Who is waiting for what, and which calls are in the log.
  ghost predicate Booked<V>(q: Queue<V>) {
    && (forall e <- q.log :: e.id in q.used)
    && (forall id <- q.clients :: id in q.used)
    && (forall i, j :: 0 <= i < j < |q.log| ==> q.log[i].id != q.log[j].id)
    && (q.worker.Some? ==> q.worker.value.id in q.used)
    && (q.worker.Some? && q.worker.value.outcome.None? ==> forall e <- q.log :: e.id != q.worker.value.id)
    && (q.worker.Some? && q.worker.value.outcome.Some? ==>
          Logged(q.log, q.worker.value.id, q.worker.value.op, q.worker.value.outcome.value))
    && (q.worker.Some? && q.worker.value.id in q.clients ==> q.clients[q.worker.value.id] == Started(q.worker.value.op))
    && (forall id <- q.clients :: q.clients[id].Started? ==> q.worker.Some? && q.worker.value.id == id)
    && (forall id <- q.clients :: q.clients[id].Queued? ==> forall e <- q.log :: e.id != id)
    && (forall id <- q.clients :: q.clients[id].Answered? ==>
          Logged(q.log, id, q.clients[id].op, q.clients[id].outcome))
  }

  lemma EffectKeepsOrder<V>(first: Option<V>, q: Queue<V>, e: Entry<V>)
    requires q.cell == Replay(first, q.log) && Faithful(first, q.log)
    requires e.outcome.Failed? || e.outcome == Report(q.cell, e.op)
    ensures Faithful(first, q.log + [e])
    ensures Replay(first, q.log + [e]) == if e.outcome.Failed? then q.cell else Effect(q.cell, e.op)
  {
    var log := q.log + [e];
    assert log[..|log| - 1] == q.log;
    forall k | 0 <= k < |log|
      ensures log[k].outcome.Failed? || log[k].outcome == Report(Replay(first, log[..k]), log[k].op)
    {
      if k < |q.log| {
        assert log[..k] == q.log[..k] && log[k] == q.log[k];
      } else {
        assert log[..k] == q.log;
      }
    }
    hide Effect, Report;
  }

  lemma WorkKeepsBooked<V>(q: Queue<V>, ok: bool)
    requires Booked(q) && Do(q, Work(ok)).Some?
    ensures Booked(Do(q, Work(ok)).value)
  {
    var next := Do(q, Work(ok)).value;
    assert next.log[|q.log|] == Entry(next.worker.value.id, next.worker.value.op, next.worker.value.outcome.value);
    assert forall e <- next.log :: e in q.log || e == next.log[|q.log|];
    hide Effect, Report;
  }

  lemma StepKeepsBooked<V>(q: Queue<V>, step: Step<V>)
    requires Booked(q) && Do(q, step).Some? && !step.Work?
    ensures Booked(Do(q, step).value)
  {
  }

  lemma StepKeepsLinear<V>(first: Option<V>, q: Queue<V>, step: Step<V>)
    requires Linear(first, q) && Do(q, step).Some?
    ensures Linear(first, Do(q, step).value) && q.log <= Do(q, step).value.log && q.used <= Do(q, step).value.used
  {
    if step.Work? {
      var next := Do(q, step).value;
      EffectKeepsOrder(first, q, next.log[|q.log|]);
      WorkKeepsBooked(q, step.ok);
    } else {
      StepKeepsBooked(q, step);
    }
    hide Replay, Effect, Faithful, Booked, Report;
  }

  /// Over any interleaving the store is what its calls, in the order of the
  /// lock, made of it, and every answer is the one of its own place in that order.
  lemma {:induction false} StoreIsLinearised<V(!new)>(first: Option<V>, q: Queue<V>, steps: seq<Step<V>>, end: Queue<V>)
    requires Linear(first, q) && Reaches(q, steps, end)
    ensures Linear(first, end) && q.log <= end.log && q.used <= end.used
    decreases |steps|
  {
    if steps != [] {
      StepKeepsLinear(first, q, steps[0]);
      StoreIsLinearised(first, Do(q, steps[0]).value, steps[1..], end);
    }
    hide Do, Linear;
  }

  lemma StartIsLinear<V>(cell: Option<V>)
    ensures Linear(cell, Start(cell))
  {
  }

  /// What an answered caller learned: its call has its own place in the order,
  /// and a reading is the latest successful write or removal before that place.
  lemma AnswerHasItsPlace<V>(first: Option<V>, q: Queue<V>, id: nat) returns (k: nat)
    requires Linear(first, q) && id in q.clients && q.clients[id].Answered?
    ensures k < |q.log| && q.log[k] == Entry(id, q.clients[id].op, q.clients[id].outcome)
    ensures q.clients[id].outcome.Read? ==> q.clients[id].outcome.value == Replay(first, q.log[..k])
    ensures !q.clients[id].outcome.Failed? ==> (q.clients[id].outcome.Read? <==> q.clients[id].op.Load?)
    ensures forall j :: 0 <= j < |q.log| && q.log[j].id == id ==> j == k
  {
    var e := Entry(id, q.clients[id].op, q.clients[id].outcome);
    assert Logged(q.log, id, e.op, e.outcome);
    k :| 0 <= k < |q.log| && q.log[k] == e;
    hide Replay, Effect;
  }

  ghost predicate NeverRan<V>(q: Queue<V>, id: nat) {
    && id in q.used && id !in q.clients && (q.worker.Some? ==> q.worker.value.id != id)
    && forall e <- q.log :: e.id != id
  }

  /// A call that was abandoned before it started never takes effect.
  lemma {:induction false} AbandonedNeverRuns<V(!new)>(q: Queue<V>, id: nat, steps: seq<Step<V>>, end: Queue<V>)
    requires NeverRan(q, id) && Reaches(q, steps, end)
    ensures NeverRan(end, id)
    decreases |steps|
  {
    if steps != [] {
      AbandonedNeverRuns(Do(q, steps[0]).value, id, steps[1..], end);
    }
    hide Effect, Report;
  }

  datatype Timeout = Unavailable | OperationPending

  /// What a caller that gives up is told.
  function OnTimeout<V>(client: Client<V>): Timeout {
    if client.Started? && !client.op.Load? then OperationPending else Unavailable
  }

  /// A write that is reported as unavailable by a timeout has not happened and never will.
  lemma UnavailableWriteNeverRuns<V>(first: Option<V>, q: Queue<V>, id: nat)
    requires Linear(first, q) && Do(q, GiveUp(id)).Some?
    requires !q.clients[id].op.Load? && OnTimeout(q.clients[id]).Unavailable?
    ensures NeverRan(Do(q, GiveUp(id)).value, id)
  {
    hide Replay, Faithful;
  }

  /// A write that is reported as pending has its place already, or is running.
  lemma PendingWriteMayRun<V>(first: Option<V>, q: Queue<V>, id: nat)
    requires Linear(first, q) && Do(q, GiveUp(id)).Some?
    requires OnTimeout(q.clients[id]).OperationPending?
    ensures !q.clients[id].op.Load? && !NeverRan(Do(q, GiveUp(id)).value, id)
  {
    hide Replay, Faithful;
  }

  /// A started call keeps the lock when its caller leaves, so it takes effect
  /// before any call that starts later.
  lemma {:induction false} StartedCallComesFirst<V(!new)>(q: Queue<V>, steps: seq<Step<V>>, end: Queue<V>)
    requires q.worker.Some? && q.worker.value.outcome.None? && Reaches(q, steps, end) && q.log != end.log
    ensures |q.log| < |end.log| && q.log <= end.log
    ensures end.log[|q.log|].id == q.worker.value.id && end.log[|q.log|].op == q.worker.value.op
    decreases |steps|
  {
    assert steps != [];
    var next := Do(q, steps[0]).value;
    if next.log == q.log {
      assert next.worker == q.worker;
      StartedCallComesFirst(next, steps[1..], end);
    } else {
      LogGrows(next, steps[1..], end);
    }
    hide Effect, Report;
  }

  lemma {:induction false} LogGrows<V(!new)>(q: Queue<V>, steps: seq<Step<V>>, end: Queue<V>)
    requires Reaches(q, steps, end)
    ensures q.log <= end.log
    decreases |steps|
  {
    if steps != [] {
      LogGrows(Do(q, steps[0]).value, steps[1..], end);
    }
    hide Effect, Report;
  }
}
