// The ledger of closed continuations: receipts that are written once per
// candidate, the latest observation of each candidate, and the judgement whether
// a closure still holds. Digests are free constructors: a digest is the value
// that was digested.

module Continuations {
  import opened Basics
  import Json

  /// The fields that fence a closure.
  datatype Fence =
    | Kind | OrganizationId | AccountSubject | InstallationId | RecordId
    | RunId | Revision | Generation | AttemptId | RecordDigest

  type Candidate = map<Fence, Json.Value>

  function Get(c: Candidate, f: Fence): Option<Json.Value> {
    if f in c then Some(c[f]) else None
  }

  /// An absent field reads as null.
  function At(c: Candidate, f: Fence): Json.Value {
    if f in c then c[f] else Json.Null
  }

  datatype Request = Request(fields: Candidate, idempotencyKey: Option<string>, rest: Json.Value)

  datatype Key = Key(kind: string, org: string, account: string, installation: string, id: string)

  datatype Fault = InvalidRequest | ContinuationResolved | ManagedWorkChanged | ObservationIncomplete | StoreRefused

  // ---- Observations --------------------------------------------------------

  datatype Status =
    | Queued | Running | WaitingForHuman | Waiting | PendingRun | Active | Paused
    | Completed | Failed | Cancelled | Canceled | DeletedRun | Succeeded | ErrorRun
  {
    predicate Terminal() {
      Completed? || Failed? || Cancelled? || Canceled? || DeletedRun? || Succeeded? || ErrorRun?
    }
  }

  /// A status text: a known one in its own spelling or in other letter case, or anything else.
  datatype StatusText = Spelled(status: Status, exact: bool) | UnknownStatus(text: string)

  datatype Snapshot = Snapshot(executionId: Option<Json.Value>, status: Option<StatusText>, hasMoreEvents: Json.Value)

  datatype Outcome = Outcome(
    executionId: Option<Json.Value>,
    status: Option<StatusText>,
    hasMoreEvents: Json.Value,
    hasMore: Json.Value,
    responseRef: Option<Json.Value>,
    nextOffset: Option<Json.Value>)

  /// A snapshot with the terminal result beside it, or a snapshot alone.
  datatype Observation = Nested(snapshot: Snapshot, result: Outcome) | Bare(snapshot: Snapshot)

  datatype Fact = Fact(
    runId: Json.Value, recordDigest: Json.Value, status: Status, terminal: bool, digest: Observation,
    observedAt: Instant)

  /// `FollowStore::terminal_snapshot`, which ignores letter case.
  predicate TerminalSnapshot(s: Snapshot) {
    s.hasMoreEvents == Json.Bool(false) && s.status.Some? && s.status.value.Spelled? && s.status.value.status.Terminal()
  }

  /// `terminal_evidence`: a complete terminal result for exactly this run.
  predicate CompleteEvidence(run: string, o: Observation) {
    && o.Nested?
    && o.snapshot.executionId == Some(Json.Text(run)) && o.result.executionId == Some(Json.Text(run))
    && TerminalSnapshot(o.snapshot)
    && o.result.hasMoreEvents != Json.Bool(true) && o.result.hasMore != Json.Bool(true)
    && o.result.responseRef.None? && (o.result.nextOffset.None? || o.result.nextOffset == Some(Json.Null))
    && o.result.status == o.snapshot.status
  }

  /// What an observation establishes about a candidate.
  function FactOf(c: Candidate, o: Observation, now: Instant): Result<Fact, Fault> {
    var s := o.snapshot;
    if s.executionId != Some(At(c, RunId)) || s.hasMoreEvents != Json.Bool(false) then Failure(ObservationIncomplete)
    else if s.status.None? || !s.status.value.Spelled? || !s.status.value.exact then Failure(ObservationIncomplete)
    else
      var terminal := TerminalSnapshot(s);
      if terminal && Json.AsText(At(c, RunId)).None? then Failure(InvalidRequest)
      else if terminal && !CompleteEvidence(Json.AsText(At(c, RunId)).value, o) then Failure(ObservationIncomplete)
      else Success(Fact(At(c, RunId), At(c, RecordDigest), s.status.value.status, terminal, o, now))
  }

  /// A terminal fact is never weaker than a complete terminal result of its run.
  predicate FactSound(f: Fact) {
    && (f.terminal <==> f.status.Terminal())
    && (f.terminal ==> f.runId.Text? && ShowsTheEnd(f.runId.text, f.digest))
  }

  lemma FactsAreSound(c: Candidate, o: Observation, now: Instant)
    requires FactOf(c, o, now).Success?
    ensures FactSound(FactOf(c, o, now).value)
  {
  }

  /// Snapshot and result together show that this run is over, with nothing left to fetch.
  predicate ShowsTheEnd(run: string, o: Observation) {
    && o.Nested? && o.snapshot.executionId == Some(Json.Text(run)) && o.result.executionId == Some(Json.Text(run))
    && o.snapshot.hasMoreEvents == Json.Bool(false) && o.result.hasMoreEvents != Json.Bool(true)
    && o.result.hasMore != Json.Bool(true) && o.result.responseRef.None?
    && (o.result.nextOffset.Some? ==> o.result.nextOffset.value == Json.Null)
    && o.snapshot.status.Some? && o.snapshot.status.value.Spelled? && Over(o.snapshot.status.value.status)
    && o.result.status == o.snapshot.status
  }

  predicate Over(s: Status) {
    s in {Completed, Failed, Cancelled, Canceled, DeletedRun, Succeeded, ErrorRun}
  }

  /// Which observations are accepted: of exactly this run, complete, under a
  /// known status in its own spelling, and of a run that is over only with all of
  /// its result. What is kept is what was observed.
  lemma AcceptedExactly(c: Candidate, o: Observation, now: Instant)
    ensures var s := o.snapshot;
      FactOf(c, o, now).Success? <==>
      (&& s.executionId == Some(At(c, RunId)) && s.hasMoreEvents == Json.Bool(false)
       && s.status.Some? && s.status.value.Spelled? && s.status.value.exact
       && (Over(s.status.value.status) ==> At(c, RunId).Text? && ShowsTheEnd(At(c, RunId).text, o)))
    ensures FactOf(c, o, now).Success? ==>
      FactOf(c, o, now).value == Fact(At(c, RunId), At(c, RecordDigest), o.snapshot.status.value.status,
                                      Over(o.snapshot.status.value.status), o, now)
  {
  }

  /// A terminal snapshot without its result is refused, whatever it says.
  lemma BareTerminalIsRefused(c: Candidate, s: Snapshot, now: Instant)
    requires TerminalSnapshot(s)
    ensures FactOf(c, Bare(s), now).Failure?
  {
  }

  // ---- Receipts ------------------------------------------------------------

  datatype State = RetiredByOwner | VerifiedTerminal | SupersededBySuccessor | OtherState(text: string)

  /// The evidence fields that are read back; absent ones are null.
  datatype Evidence = Evidence(
    reasonCode: Json.Value,
    runId: Json.Value,
    observationDigest: Option<Observation>,
    successorId: Json.Value,
    successorGeneration: Json.Value,
    lineageGeneration: Json.Value,
    terminalReceipt: Json.Value)

  datatype Receipt = Receipt(
    receiptId: string, idempotencyKey: string, state: State, candidate: Candidate, evidence: Evidence,
    resolvedAt: Instant)

  datatype Row = Row(requestDigest: Request, receipt: Receipt)

  /// The lineage and session tables of the follow store, as far as they are consulted.
  datatype Lineage = Lineage(
    org: string, account: string, installation: string, predecessor: string, predecessorGeneration: Instant,
    successor: string, lineageGeneration: Instant, generation: Instant)

  datatype Successor = Successor(run: string, terminalReceipt: Option<Json.Value>)

  datatype Follow = Follow(
    successors: map<Lineage, Successor>,  // terminal successors without open action or handoff
    paths: set<(Lineage, string)>)  // where the generation path from lineage to successor is unbroken

  function KeyOf(c: Candidate): Option<Key> {
    match (At(c, Kind), At(c, OrganizationId), At(c, AccountSubject), At(c, RecordId))
    case (Text(kind), Text(org), Text(account), Text(id)) =>
      var install := At(c, InstallationId);
      Some(Key(kind, org, account, if install.Text? then install.text else "", id))
    case _ => None
  }

  /// Closures are kept apart by kind, organization, account, installation and
  /// record; a candidate without installation is filed under none.
  lemma KeysTellApart(a: Candidate, b: Candidate)
    requires KeyOf(a).Some? && KeyOf(b).Some?
    ensures KeyOf(a) == KeyOf(b) <==>
      (&& At(a, Kind) == At(b, Kind) && At(a, OrganizationId) == At(b, OrganizationId)
       && At(a, AccountSubject) == At(b, AccountSubject) && At(a, RecordId) == At(b, RecordId)
       && Installation(a) == Installation(b))
    ensures At(a, Kind) == Json.Text(KeyOf(a).value.kind)
  {
  }

  function Installation(c: Candidate): string {
    if At(c, InstallationId).Text? then At(c, InstallationId).text else ""
  }

  /// `matches`: all ten fence fields agree, absent ones included.
  predicate Matches(a: Candidate, b: Candidate) {
    && Get(a, Kind) == Get(b, Kind) && Get(a, OrganizationId) == Get(b, OrganizationId)
    && Get(a, AccountSubject) == Get(b, AccountSubject) && Get(a, InstallationId) == Get(b, InstallationId)
    && Get(a, RecordId) == Get(b, RecordId) && Get(a, RunId) == Get(b, RunId)
    && Get(a, Revision) == Get(b, Revision) && Get(a, Generation) == Get(b, Generation)
    && Get(a, AttemptId) == Get(b, AttemptId) && Get(a, RecordDigest) == Get(b, RecordDigest)
  }

  lemma MatchesMeansEqual(a: Candidate, b: Candidate)
    ensures Matches(a, b) <==> a == b
  {
    if Matches(a, b) {
      forall f: Fence ensures Get(a, f) == Get(b, f) {
        assert f == Kind || f == OrganizationId || f == AccountSubject || f == InstallationId || f == RecordId
            || f == RunId || f == Revision || f == Generation || f == AttemptId || f == RecordDigest;
      }
      assert forall f: Fence :: f in a <==> Get(a, f).Some?;
      assert forall f: Fence :: f in b <==> Get(b, f).Some?;
      assert forall f <- a :: Get(a, f) == Some(a[f]) && Get(b, f) == Some(b[f]);
      assert a == b;
    }
  }

  // ---- The two tables ------------------------------------------------------

  datatype Tables = Tables(rows: map<Key, Row>, facts: map<Key, Fact>)

  /// `observation`: the stored fact, if it is about this very record.
  function Observed(t: Tables, c: Candidate): Result<Option<Fact>, Fault> {
    var key := KeyOf(c);
    if key.None? || key.value !in t.facts then Success(None) else
    var fact := t.facts[key.value];
    if fact.recordDigest != At(c, RecordDigest) then Success(None)
    else if fact.runId == At(c, RunId) && fact.terminal == fact.status.Terminal() then Success(Some(fact))
    else Failure(ManagedWorkChanged)
  }

  /// `resolved`: whether the stored closure still stands for exactly this candidate.
  function Resolved(t: Tables, follow: Follow, c: Candidate): Result<bool, Fault> {
    var key := KeyOf(c);
    if key.None? then Failure(InvalidRequest)
    else if key.value !in t.rows then Success(false)
    else
      var receipt := t.rows[key.value].receipt;
      if !IsUuid(receipt.receiptId) || !IsUuid(receipt.idempotencyKey) then Success(false)
      else
        match receipt.state
        case OtherState(_) => Success(false)
        case RetiredByOwner =>
          var fact :- Observed(t, c);
          Success(receipt.evidence.reasonCode == Json.Text("OWNER_RETIRED_LOCAL_CONTINUATION") && fact.Some?
                  && Matches(receipt.candidate, c))
        case VerifiedTerminal =>
          var fact :- Observed(t, c);
          Success(key.value.kind == "follow_session" && fact.Some? && fact.value.terminal
                  && receipt.evidence.runId == At(c, RunId)
                  && receipt.evidence.observationDigest == Some(fact.value.digest)
                  && Matches(receipt.candidate, c))
        case SupersededBySuccessor =>
          Success(SuccessorEvidence(follow, key.value, c, receipt.evidence) && Matches(receipt.candidate, c))
  }

  /// The exact successor that the evidence names is terminal, with the same receipt.
  predicate SuccessorEvidence(follow: Follow, key: Key, c: Candidate, e: Evidence) {
    && e.successorId.Text? && IsUuid(e.successorId.text) && Json.AsU64(e.successorGeneration).Some?
    && Json.AsU64(At(c, Generation)).Some?
    && (var generation := Json.AsU64(e.successorGeneration).value;
        var lineageGeneration :=
          if Json.AsU64(e.lineageGeneration).Some? then Json.AsU64(e.lineageGeneration).value else generation;
        var lineage := Lineage(key.org, key.account, key.installation, key.id, Json.AsU64(At(c, Generation)).value,
                               e.successorId.text, lineageGeneration, generation);
        && lineage in follow.successors && (lineage, follow.successors[lineage].run) in follow.paths
        && follow.successors[lineage].terminalReceipt.Some?
        && (var receipt := follow.successors[lineage].terminalReceipt.value;
            && receipt == e.terminalReceipt
            && Json.At(receipt, Json.Other("generation")) == e.successorGeneration
            && Json.At(receipt, Json.Other("receiptId")) != Json.Null))
  }

  // ---- Operations as functions of the tables -------------------------------

  datatype Operation =
    | Close(candidate: Candidate, request: Request, state: State, evidence: Evidence, receiptId: string, now: Instant)
    | Replay(candidate: Candidate, request: Request)
    | Observe(candidate: Candidate, observation: Observation, now: Instant)

  datatype Answer = Receipted(receipt: Receipt) | NoReceipt | Noted(fact: Fact) | Denied(fault: Fault)

  function ClosedAs(op: Operation): Receipt
    requires op.Close? && op.request.idempotencyKey.Some?
  {
    Receipt(op.receiptId, op.request.idempotencyKey.value, op.state, op.candidate, op.evidence, op.now)
  }

  /// What an operation answers, and the tables that it leaves.
  function Run(t: Tables, op: Operation): (Answer, Tables) {
    var key := KeyOf(op.candidate);
    match op
    case Close(candidate, request, _, _, _, _) =>
      if key.None? || request.idempotencyKey.None? || !IsUuid(request.idempotencyKey.value) then
        (Denied(InvalidRequest), t)
      else if key.value in t.rows then
        (if t.rows[key.value].requestDigest == request then Receipted(t.rows[key.value].receipt)
         else Denied(ContinuationResolved), t)
      else
        (Receipted(ClosedAs(op)), t.(rows := t.rows[key.value := Row(request, ClosedAs(op))]))
    case Replay(candidate, request) =>
      if key.None? || key.value !in t.rows then (NoReceipt, t)
      else if t.rows[key.value].requestDigest == request then (Receipted(t.rows[key.value].receipt), t)
      else (Denied(ContinuationResolved), t)
    case Observe(candidate, observation, now) =>
      (match FactOf(candidate, observation, now)
       case Failure(fault) => (Denied(fault), t)
       case Success(fact) =>
         if key.None? then (Denied(StoreRefused), t)
         else (Noted(fact), t.(facts := t.facts[key.value := fact])))
  }

  function RunAll(t: Tables, ops: seq<Operation>): Tables
    decreases |ops|
  {
    if ops == [] then t else RunAll(Run(t, ops[0]).1, ops[1..])
  }

  // ---- What every reachable ledger keeps -----------------------------------

  predicate RowSound(key: Key, row: Row) {
    && KeyOf(row.receipt.candidate) == Some(key) && IsUuid(row.receipt.receiptId)
    && row.requestDigest.idempotencyKey == Some(row.receipt.idempotencyKey) && IsUuid(row.receipt.idempotencyKey)
  }

  predicate Sound(t: Tables) {
    && (forall k <- t.rows :: RowSound(k, t.rows[k]))
    && (forall k <- t.facts :: FactSound(t.facts[k]))
  }

  /// New receipts are minted under UUIDs.
  predicate Minted(op: Operation) {
    op.Close? ==> IsUuid(op.receiptId)
  }

  lemma RunKeepsSound(t: Tables, op: Operation)
    requires Sound(t) && Minted(op)
    ensures Sound(Run(t, op).1)
  {
    if op.Observe? && FactOf(op.candidate, op.observation, op.now).Success? {
      FactsAreSound(op.candidate, op.observation, op.now);
    }
    hide FactOf, IsUuid, FactSound;
  }

  lemma {:induction false} LedgerStaysSound(t: Tables, ops: seq<Operation>)
    requires Sound(t) && forall op <- ops :: Minted(op)
    ensures Sound(RunAll(t, ops))
    decreases |ops|
  {
    if ops != [] {
      RunKeepsSound(t, ops[0]);
      LedgerStaysSound(Run(t, ops[0]).1, ops[1..]);
    }
    hide Run, Sound;
  }

  // ---- First writer wins ---------------------------------------------------

  lemma {:induction false} RowsArePermanent(t: Tables, ops: seq<Operation>)
    ensures t.rows.Keys <= RunAll(t, ops).rows.Keys
    ensures forall k <- t.rows :: RunAll(t, ops).rows[k] == t.rows[k]
    decreases |ops|
  {
    if ops != [] {
      RowsArePermanent(Run(t, ops[0]).1, ops[1..]);
    }
    hide FactOf, IsUuid;
  }

  /// A receipt is only ever handed out for the request that closed its candidate.
  lemma ReceiptIsStored(t: Tables, op: Operation)
    requires Run(t, op).0.Receipted?
    ensures var key := KeyOf(op.candidate);
      (&& key.Some? && key.value in Run(t, op).1.rows && !op.Observe?
       && Run(t, op).1.rows[key.value] == Row(op.request, Run(t, op).0.receipt))
  {
    hide FactOf, IsUuid;
  }

  /// Two answers for one candidate key, however far apart: the same request gets
  /// the same receipt, any other request gets none, and neither changes anything.
  lemma FirstWriterWins(t: Tables, a: Operation, between: seq<Operation>, b: Operation)
    requires Sound(t) && Minted(a) && Run(t, a).0.Receipted?
    requires !b.Observe? && KeyOf(a.candidate) == KeyOf(b.candidate)
    ensures !a.Observe? && Run(RunAll(Run(t, a).1, between), b).1 == RunAll(Run(t, a).1, between)
    ensures b.request == a.request ==> Run(RunAll(Run(t, a).1, between), b).0 == Run(t, a).0
    ensures b.request != a.request ==> Run(RunAll(Run(t, a).1, between), b).0.Denied?
  {
    ReceiptIsStored(t, a);
    RunKeepsSound(t, a);
    RowsArePermanent(Run(t, a).1, between);
    assert RowSound(KeyOf(a.candidate).value, Row(a.request, Run(t, a).0.receipt));
    var later := RunAll(Run(t, a).1, between);
    assert KeyOf(b.candidate).value in later.rows;
    hide FactOf, IsUuid, RunAll, Sound, KeyOf;
  }

  // ---- Soundness of the judgement ------------------------------------------

  /// Why a closure still stands: the candidate is the one that was closed, in
  /// all ten fields, and the evidence of its kind is there.
  predicate Stands(t: Tables, follow: Follow, c: Candidate) {
    var key := KeyOf(c);
    && key.Some? && key.value in t.rows
    && t.rows[key.value].receipt.candidate == c
    && (var e := t.rows[key.value].receipt.evidence;
        match t.rows[key.value].receipt.state
        case RetiredByOwner =>
          && e.reasonCode == Json.Text("OWNER_RETIRED_LOCAL_CONTINUATION")
          && key.value in t.facts && t.facts[key.value].runId == At(c, RunId)
          && t.facts[key.value].recordDigest == At(c, RecordDigest)
        case VerifiedTerminal =>
          && At(c, Kind) == Json.Text("follow_session") && e.runId == At(c, RunId) && e.runId.Text?
          && e.observationDigest.Some? && ShowsTheEnd(e.runId.text, e.observationDigest.value)
          && key.value in t.facts && t.facts[key.value].runId == At(c, RunId)
          && t.facts[key.value].recordDigest == At(c, RecordDigest)
          && t.facts[key.value].digest == e.observationDigest.value && t.facts[key.value].terminal
        case SupersededBySuccessor => exists l <- follow.successors :: Succeeds(follow, l, c, e)
        case OtherState(_) => false)
  }

  /// The tables hold the very successor that the evidence names: in the lineage
  /// of this record and generation, reached by an unbroken path, and over with
  /// exactly the receipt that was recorded.
  predicate Succeeds(follow: Follow, l: Lineage, c: Candidate, e: Evidence) {
    && Json.Text(l.org) == At(c, OrganizationId) && Json.Text(l.account) == At(c, AccountSubject)
    && l.installation == Installation(c) && Json.Text(l.predecessor) == At(c, RecordId)
    && Json.Number(l.predecessorGeneration) == At(c, Generation)
    && e.successorId == Json.Text(l.successor) && IsUuid(l.successor)
    && e.successorGeneration == Json.Number(l.generation)
    && Json.Number(l.lineageGeneration)
       == (if Json.AsU64(e.lineageGeneration).Some? then e.lineageGeneration else e.successorGeneration)
    && l in follow.successors && (l, follow.successors[l].run) in follow.paths
    && follow.successors[l].terminalReceipt == Some(e.terminalReceipt)
    && Json.At(e.terminalReceipt, Json.Other("generation")) == e.successorGeneration
    && Json.At(e.terminalReceipt, Json.Other("receiptId")) != Json.Null
  }

  /// The lookup finds what is there, and nothing else.
  lemma EvidenceNamesItsSuccessor(follow: Follow, key: Key, c: Candidate, e: Evidence)
    requires KeyOf(c) == Some(key)
    ensures SuccessorEvidence(follow, key, c, e) <==> exists l <- follow.successors :: Succeeds(follow, l, c, e)
  {
    if SuccessorEvidence(follow, key, c, e) {
      var generation := Json.AsU64(e.successorGeneration).value;
      var lineage := Lineage(key.org, key.account, key.installation, key.id, Json.AsU64(At(c, Generation)).value,
                             e.successorId.text,
                             if Json.AsU64(e.lineageGeneration).Some? then Json.AsU64(e.lineageGeneration).value
                             else generation, generation);
      assert Succeeds(follow, lineage, c, e);
    }
    hide IsUuid;
  }

  lemma ResolvedMeansItStands(t: Tables, follow: Follow, c: Candidate)
    requires Sound(t)
    ensures Resolved(t, follow, c) == Success(true) <==> Stands(t, follow, c)
  {
    var key := KeyOf(c);
    if key.Some? && key.value in t.rows {
      MatchesMeansEqual(t.rows[key.value].receipt.candidate, c);
      EvidenceNamesItsSuccessor(follow, key.value, c, t.rows[key.value].receipt.evidence);
      KeysTellApart(c, c);
      assert RowSound(key.value, t.rows[key.value]);
      ObservedExactly(t, c);
    }
    hide IsUuid, KeyOf, Matches, SuccessorEvidence, Succeeds, Observed, Sound, FactSound, ShowsTheEnd;
  }

  /// A closure without a receipt and a request of its own stands for nothing,
  /// whatever else is in the tables.
  lemma ResolvedHasItsReceipt(t: Tables, follow: Follow, c: Candidate)
    requires Resolved(t, follow, c) == Success(true)
    ensures KeyOf(c).Some? && KeyOf(c).value in t.rows
    ensures var receipt := t.rows[KeyOf(c).value].receipt;
      IsUuid(receipt.receiptId) && IsUuid(receipt.idempotencyKey) && !receipt.state.OtherState?
      && receipt.candidate == c
  {
    MatchesMeansEqual(t.rows[KeyOf(c).value].receipt.candidate, c);
    hide IsUuid, KeyOf, Matches, SuccessorEvidence, Observed;
  }

  /// What the stored observation, if it is about this very record, says.
  lemma ObservedExactly(t: Tables, c: Candidate)
    requires Sound(t) && KeyOf(c).Some?
    ensures var key := KeyOf(c).value;
      if key in t.facts && t.facts[key].recordDigest == At(c, RecordDigest) then
        if t.facts[key].runId == At(c, RunId) then
          && Observed(t, c) == Success(Some(t.facts[key]))
          && (t.facts[key].terminal ==>
                t.facts[key].runId.Text? && ShowsTheEnd(t.facts[key].runId.text, t.facts[key].digest))
        else Observed(t, c).Failure?
      else Observed(t, c) == Success(None)
  {
    if KeyOf(c).value in t.facts {
      assert FactSound(t.facts[KeyOf(c).value]);
    }
    hide KeyOf, ShowsTheEnd;
  }

  /// A stored observation is refused only when it is about another run of the same record.
  lemma ObservationFailsOnlyForAnotherRun(t: Tables, c: Candidate)
    requires Sound(t)
    ensures Observed(t, c).Failure? <==>
      (&& KeyOf(c).Some? && KeyOf(c).value in t.facts
       && t.facts[KeyOf(c).value].recordDigest == At(c, RecordDigest)
       && t.facts[KeyOf(c).value].runId != At(c, RunId))
  {
    if KeyOf(c).Some? && KeyOf(c).value in t.facts {
      assert FactSound(t.facts[KeyOf(c).value]);
    }
    hide KeyOf, ShowsTheEnd;
  }

  /// A candidate that changed in any field is unresolved again.
  lemma ChangedCandidateIsUnresolved(t: Tables, follow: Follow, c: Candidate, changed: Candidate)
    requires Sound(t) && Resolved(t, follow, c) == Success(true)
    requires KeyOf(changed) == KeyOf(c) && changed != c
    ensures Resolved(t, follow, changed) != Success(true)
  {
    ResolvedMeansItStands(t, follow, c);
    ResolvedMeansItStands(t, follow, changed);
    hide Resolved, KeyOf, Succeeds, ShowsTheEnd;
  }

  /// A later observation reopens exactly the terminal closures that rested on another one.
  lemma NewObservation(t: Tables, follow: Follow, c: Candidate, o: Observation, now: Instant)
    requires Sound(t) && Resolved(t, follow, c) == Success(true) && FactOf(c, o, now).Success?
    ensures var receipt := t.rows[KeyOf(c).value].receipt;
      Resolved(Run(t, Observe(c, o, now)).1, follow, c) == Success(true)
      <==> (receipt.state.VerifiedTerminal? ==> receipt.evidence.observationDigest == Some(o))
  {
    var op := Observe(c, o, now);
    var next := Run(t, op).1;
    ResolvedMeansItStands(t, follow, c);
    RunKeepsSound(t, op);
    ResolvedMeansItStands(next, follow, c);
    FactsAreSound(c, o, now);
    assert next.rows == t.rows;
    assert next.facts[KeyOf(c).value] == FactOf(c, o, now).value;
    hide Resolved, KeyOf, Succeeds, IsUuid, Sound;
  }

  lemma RunTwo(t: Tables, a: Operation, b: Operation)
    ensures RunAll(t, [a, b]) == Run(Run(t, a).1, b).1
  {
    assert [a, b][1..] == [b];
    assert [b][1..] == [];
    assert RunAll(Run(t, a).1, [b]) == RunAll(Run(Run(t, a).1, b).1, []);
    hide Run;
  }

  /// What the two tables hold for a candidate that was observed and then closed.
  lemma ObservedAndClosed(t: Tables, c: Candidate, o: Observation, close: Operation)
    requires close.Close? && close.candidate == c && KeyOf(c).Some? && KeyOf(c).value !in t.rows
    requires FactOf(c, o, close.now).Success?
    requires close.request.idempotencyKey.Some? && IsUuid(close.request.idempotencyKey.value)
    ensures var end := Run(Run(t, Observe(c, o, close.now)).1, close).1;
      && KeyOf(c).value in end.rows && end.rows[KeyOf(c).value] == Row(close.request, ClosedAs(close))
      && KeyOf(c).value in end.facts && end.facts[KeyOf(c).value] == FactOf(c, o, close.now).value
  {
    hide FactOf, KeyOf, IsUuid;
  }

  /// Observing a terminal run and closing on that observation resolves it.
  lemma ClosingOnItsObservationResolves(t: Tables, follow: Follow, c: Candidate, o: Observation, close: Operation)
    requires Sound(t) && close.Close? && close.candidate == c && Minted(close) && close.state.VerifiedTerminal?
    requires KeyOf(c).Some? && KeyOf(c).value.kind == "follow_session" && KeyOf(c).value !in t.rows
    requires FactOf(c, o, close.now).Success? && FactOf(c, o, close.now).value.terminal
    requires close.evidence.runId == At(c, RunId) && close.evidence.observationDigest == Some(o)
    requires close.request.idempotencyKey.Some? && IsUuid(close.request.idempotencyKey.value)
    ensures Resolved(RunAll(t, [Observe(c, o, close.now), close]), follow, c) == Success(true)
  {
    var observe := Observe(c, o, close.now);
    var observed := Run(t, observe).1;
    RunKeepsSound(t, observe);
    RunKeepsSound(observed, close);
    var end := Run(observed, close).1;
    RunTwo(t, observe, close);
    ObservedAndClosed(t, c, o, close);
    FactsAreSound(c, o, close.now);
    ResolvedMeansItStands(end, follow, c);
    hide Run, Resolved, KeyOf, Succeeds, IsUuid, Sound, ShowsTheEnd, RunAll;
  }

  // ---- The ledger ----------------------------------------------------------

  class Ledger {
    var rows: map<Key, Row>
    var facts: map<Key, Fact>

    function Contents(): Tables
      reads this
    {
      Tables(rows, facts)
    }

    constructor ()
      ensures Contents() == Tables(map[], map[])
    {
      rows := map[];
      facts := map[];
    }

    /// `close`: inserts the receipt unless the candidate already has one.
    method Close(candidate: Candidate, request: Request, state: State, evidence: Evidence, receiptId: string,
        now: Instant)
      returns (r: Result<Receipt, Fault>)
      modifies this
      ensures Contents() == Run(old(Contents()), Operation.Close(candidate, request, state, evidence, receiptId, now)).1
      ensures Run(old(Contents()), Operation.Close(candidate, request, state, evidence, receiptId, now)).0
        == (match r case Success(receipt) => Receipted(receipt) case Failure(fault) => Denied(fault))
      // A receipt is handed out only for the stored request, and no other closure changes.
      ensures r.Success? ==> KeyOf(candidate).Some? && KeyOf(candidate).value in rows
      ensures r.Success? ==> rows[KeyOf(candidate).value] == Row(request, r.value)
      ensures facts == old(facts) && forall k <- old(rows) :: k in rows && rows[k] == old(rows)[k]
    {
      var key := KeyOf(candidate);
      if key.None? || request.idempotencyKey.None? || !IsUuid(request.idempotencyKey.value) {
        return Failure(InvalidRequest);
      }
      if key.value in rows {
        var prior := rows[key.value];
        if prior.requestDigest != request {
          return Failure(ContinuationResolved);
        }
        return Success(prior.receipt);
      }
      var receipt := Receipt(receiptId, request.idempotencyKey.value, state, candidate, evidence, now);
      rows := rows[key.value := Row(request, receipt)];
      r := Success(receipt);
    }

    /// `replay`: the receipt of an equal request, without closing anything.
    method Replay(candidate: Candidate, request: Request) returns (r: Result<Option<Receipt>, Fault>)
      ensures Run(Contents(), Operation.Replay(candidate, request)).0
        == (match r
            case Success(Some(receipt)) => Receipted(receipt)
            case Success(None) => NoReceipt
            case Failure(fault) => Denied(fault))
    {
      var key := KeyOf(candidate);
      if key.None? || key.value !in rows {
        return Success(None);
      }
      if rows[key.value].requestDigest != request {
        return Failure(ContinuationResolved);
      }
      r := Success(Some(rows[key.value].receipt));
    }

    /// `observe`: keeps the latest accepted observation.
    method Observe(candidate: Candidate, observation: Observation, now: Instant) returns (r: Result<Fact, Fault>)
      modifies this
      ensures Contents() == Run(old(Contents()), Operation.Observe(candidate, observation, now)).1
      ensures Run(old(Contents()), Operation.Observe(candidate, observation, now)).0
        == (match r case Success(fact) => Noted(fact) case Failure(fault) => Denied(fault))
    {
      var fact :- FactOf(candidate, observation, now);
      var key := KeyOf(candidate);
      if key.None? {
        return Failure(StoreRefused);
      }
      facts := facts[key.value := fact];
      r := Success(fact);
    }
  }
}
